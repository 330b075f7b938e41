/** Model refreshes of one provider in packages/ai/src/models.ts: generations, abort controllers and the
    chain of publications over an asynchronous store. Every action is one run between two awaits. */
module Publications {

  import opened Options

  /** A model, with the provider it claims to belong to. */
  datatype Model = Model(id: string, provider: string, data: int)

  type Models = seq<Model>

  datatype Persist = Keep | Delete | Write(models: Models)

  /** `Queued` waits for the previous publication, `Writing` for the store; `applied` says that the store
      has taken the change already. `Settled` is a publication that returned, or threw (`None`). */
  datatype Stage = Queued | Writing(applied: bool) | Settled(result: Option<bool>)

  datatype Publication = Publication(generation: nat, persist: Persist, update: Option<Models>,
                                     previous: Option<nat>, stage: Stage)

  /** `chain` is the entry of `publicationChains`: the last publication, while it is remembered. `begun`
      are the generations of all refreshes so far, `updates` and `writes` the generations that ran their
      update and that started a store write, in that order. */
  datatype Provider = Provider(
    registered: bool,
    generation: nat,
    controller: Option<nat>,
    aborted: set<nat>,
    chain: Option<nat>,
    publications: seq<Publication>,
    store: Option<Models>,
    memory: Models,
    begun: set<nat>,
    updates: seq<nat>,
    writes: seq<nat>)

  datatype Action =
    | SetProvider
    | DeleteProvider
    | ClearProviders
    | Begin
    | End(generation: nat)
    | CallerAborts(generation: nat)
    | Publish(generation: nat, persist: Persist, update: Option<Models>)
    | Start(i: nat)
    | StoreApplies(i: nat)
    | StoreAnswers(i: nat, ok: bool)
    | ForgetChain

  predicate At(s: Provider, i: nat, stage: Stage) {
    i < |s.publications| && s.publications[i].stage == stage
  }

  predicate IsSettled(s: Provider, i: nat) {
    i < |s.publications| && s.publications[i].stage.Settled?
  }

  predicate Enabled(s: Provider, a: Action) {
    match a
    case Begin => s.registered
    case End(g) => g in s.begun
    case CallerAborts(g) => g in s.begun
    case Publish(g, _, _) => g in s.begun
    case Start(i) =>
      At(s, i, Queued) && (s.publications[i].previous.Some? ==> IsSettled(s, s.publications[i].previous.value))
    case StoreApplies(i) => At(s, i, Writing(false))
    case StoreAnswers(i, ok) => i < |s.publications| && s.publications[i].stage.Writing?
      && (ok ==> s.publications[i].stage.applied)
    case ForgetChain => s.chain.Some? && IsSettled(s, s.chain.value)
    case _ => true
  }

  /** `supersedeProviderRefresh`. */
  function Supersede(s: Provider): Provider {
    s.(generation := s.generation + 1, controller := None,
       aborted := if s.controller.Some? then s.aborted + {s.controller.value} else s.aborted)
  }

  function SetStage(s: Provider, i: nat, stage: Stage): Provider
    requires i < |s.publications|
  {
    s.(publications := s.publications[i := s.publications[i].(stage := stage)])
  }

  /** The check made before the store is touched and again before the update. */
  predicate IsStale(s: Provider, generation: nat) {
    generation in s.aborted || s.generation != generation
  }

  /** The end of `publishProviderModels`: the second check and the update, in one run. */
  function Finish(s: Provider, i: nat): Provider
    requires i < |s.publications|
  {
    var p := s.publications[i];
    if IsStale(s, p.generation) then SetStage(s, i, Settled(Some(false)))
    else SetStage(s, i, Settled(Some(true))).(
      memory := if p.update.Some? then p.update.value else s.memory,
      updates := if p.update.Some? then s.updates + [p.generation] else s.updates)
  }

  function Step(s: Provider, a: Action): Provider
    requires Enabled(s, a)
  {
    match a
    case SetProvider => Supersede(s).(registered := true)
    case DeleteProvider => Supersede(s).(registered := false)
    case ClearProviders => (if s.registered || s.controller.Some? then Supersede(s) else s).(registered := false)
    case Begin => Supersede(s).(controller := Some(s.generation + 1), begun := s.begun + {s.generation + 1})
    case End(g) => if s.controller == Some(g) then s.(controller := None) else s
    case CallerAborts(g) => s.(aborted := s.aborted + {g})
    case Publish(g, persist, update) =>
      s.(publications := s.publications + [Publication(g, persist, update, s.chain, Queued)],
         chain := Some(|s.publications|))
    case Start(i) =>
      var p := s.publications[i];
      if IsStale(s, p.generation) then SetStage(s, i, Settled(Some(false)))
      else if p.persist.Keep? then Finish(s, i)
      else SetStage(s, i, Writing(false)).(writes := s.writes + [p.generation])
    case StoreApplies(i) =>
      SetStage(s, i, Writing(true)).(
        store := match s.publications[i].persist case Write(models) => Some(models) case _ => None)
    case StoreAnswers(i, ok) => if ok then Finish(s, i) else SetStage(s, i, Settled(None))
    case ForgetChain => s.(chain := None)
  }

  // ---------- Runs ----------

  ghost predicate IsRun(s: Provider, actions: seq<Action>)
    decreases |actions|
  {
    actions != [] ==> Enabled(s, actions[0]) && IsRun(Step(s, actions[0]), actions[1..])
  }

  ghost function After(s: Provider, actions: seq<Action>): Provider
    requires IsRun(s, actions)
    decreases |actions|
  {
    if actions == [] then s else After(Step(s, actions[0]), actions[1..])
  }

  ghost function Initial(store: Option<Models>): Provider {
    Provider(false, 0, None, {}, None, [], store, [], {}, [], [])
  }

  ghost predicate IsSorted(s: seq<nat>, limit: nat) {
    (forall i, j :: 0 <= i < j < |s| ==> s[i] <= s[j]) && (forall i :: 0 <= i < |s| ==> s[i] <= limit)
  }

  /** The publications form one chain: each waits for the one before it, or everything before it has
      settled; hence whatever has started has only settled ones before it. */
  ghost predicate Chained(chain: Option<nat>, ps: seq<Publication>) {
    && (chain.Some? ==> chain.value == |ps| - 1)
    && (chain.None? ==> forall i :: 0 <= i < |ps| ==> ps[i].stage.Settled?)
    && (forall i :: 0 <= i < |ps| && ps[i].previous.Some? ==> ps[i].previous.value == i - 1)
    && (forall i, j :: 0 <= j < i < |ps| && ps[i].previous.None? ==> ps[j].stage.Settled?)
    && (forall i, j :: 0 <= j < i < |ps| && !ps[i].stage.Queued? ==> ps[j].stage.Settled?)
  }

  ghost function Stored(persist: Persist): Option<Models> {
    match persist case Write(models) => Some(models) case _ => None
  }

  /** The refreshes and the logs: nothing is ahead of the current generation. */
  ghost predicate Timely(s: Provider) {
    && (forall g :: g in s.begun ==> g <= s.generation)
    && (s.controller.Some? ==> s.registered && s.controller.value == s.generation)
    && (!s.registered ==> forall g :: g in s.begun ==> g < s.generation)
    && IsSorted(s.updates, s.generation) && IsSorted(s.writes, s.generation)
  }

  /** The store holds what the publication that is being written has put there. */
  ghost predicate Faithful(s: Provider) {
    forall i :: 0 <= i < |s.publications| && s.publications[i].stage == Writing(true) ==>
      s.store == Stored(s.publications[i].persist)
  }

  ghost predicate Good(s: Provider) {
    && Chained(s.chain, s.publications) && Timely(s) && Faithful(s)
    && (forall i :: 0 <= i < |s.publications| ==> s.publications[i].generation in s.begun)
  }

  lemma StartedIsFirst(s: Provider, i: nat)
    requires Chained(s.chain, s.publications) && i < |s.publications|
    requires Enabled(s, Start(i)) || s.publications[i].stage.Writing?
    ensures forall j :: 0 <= j < i ==> s.publications[j].stage.Settled?
    ensures s.chain.Some?
  {}

  lemma StageKeepsChain(s: Provider, i: nat, stage: Stage)
    requires Chained(s.chain, s.publications) && i < |s.publications| && s.chain.Some? && !stage.Queued?
    requires forall j :: 0 <= j < i ==> s.publications[j].stage.Settled?
    requires !s.publications[i].stage.Settled?
    ensures Chained(s.chain, SetStage(s, i, stage).publications)
  {}

  lemma ChainedStep(s: Provider, a: Action)
    requires Chained(s.chain, s.publications) && Enabled(s, a)
    ensures Chained(Step(s, a).chain, Step(s, a).publications)
  {
    if a.Start? || a.StoreApplies? || a.StoreAnswers? {
      StartedIsFirst(s, a.i);
      forall stage: Stage | !stage.Queued? ensures Chained(s.chain, SetStage(s, a.i, stage).publications) {
        StageKeepsChain(s, a.i, stage);
      }
      hide Chained;
    }
  }

  lemma TimelyStep(s: Provider, a: Action)
    requires Timely(s) && Enabled(s, a)
    ensures Timely(Step(s, a))
  {
    hide IsStale, IsSettled, IsSorted;
    forall log: seq<nat> | IsSorted(log, s.generation) ensures IsSorted(log, s.generation + 1) {
      SortedOn(log, s.generation);
    }
    match a
    case Start(i) => LogsOn(s, s.publications[i].generation);
    case StoreAnswers(i, _) => LogsOn(s, s.publications[i].generation);
    case _ =>
  }

  lemma SortedOn(log: seq<nat>, limit: nat)
    requires IsSorted(log, limit)
    ensures IsSorted(log, limit + 1) && IsSorted(log + [limit], limit)
  {}

  /** A generation that is not stale is the current one, and may be logged. */
  lemma LogsOn(s: Provider, generation: nat)
    requires IsSorted(s.updates, s.generation) && IsSorted(s.writes, s.generation)
    ensures !IsStale(s, generation) ==>
      IsSorted(s.updates + [generation], s.generation) && IsSorted(s.writes + [generation], s.generation)
  {
    SortedOn(s.updates, s.generation);
    SortedOn(s.writes, s.generation);
  }

  /** Only one publication at a time is being written, so the store keeps what it put there. */
  lemma FaithfulStep(s: Provider, a: Action)
    requires Chained(s.chain, s.publications) && Faithful(s) && Enabled(s, a)
    ensures Faithful(Step(s, a))
  {}

  lemma GoodStep(s: Provider, a: Action)
    requires Good(s) && Enabled(s, a)
    ensures Good(Step(s, a))
  {
    hide Chained, Timely, Faithful;
    ChainedStep(s, a);
    TimelyStep(s, a);
    FaithfulStep(s, a);
  }

  lemma {:induction false} GoodRun(s: Provider, actions: seq<Action>)
    requires Good(s) && IsRun(s, actions)
    ensures Good(After(s, actions))
    decreases |actions|
  {
    if actions != [] {
      GoodStep(s, actions[0]);
      GoodRun(Step(s, actions[0]), actions[1..]);
    }
  }

  // ---------- The promises ----------

  /** Publications run one at a time and in the order in which they were made. */
  lemma OneAtATime(store: Option<Models>, actions: seq<Action>, i: nat, j: nat)
    requires IsRun(Initial(store), actions)
    requires var s := After(Initial(store), actions);
             j < i < |s.publications| && !s.publications[i].stage.Queued?
    ensures After(Initial(store), actions).publications[j].stage.Settled?
  {
    GoodRun(Initial(store), actions);
  }

  /** The generations that run their update, and those that start a store write, never go back. */
  lemma GenerationsNeverGoBack(store: Option<Models>, actions: seq<Action>)
    requires IsRun(Initial(store), actions)
    ensures var s := After(Initial(store), actions);
            IsSorted(s.updates, s.generation) && IsSorted(s.writes, s.generation)
  {
    GoodRun(Initial(store), actions);
  }

  predicate Supersedes(a: Action) {
    a.SetProvider? || a.DeleteProvider? || a.ClearProviders? || a.Begin?
  }

  lemma SupersededIsOlder(s: Provider, a: Action)
    requires Good(s) && Enabled(s, a) && Supersedes(a)
    ensures forall g :: g in s.begun ==> g < Step(s, a).generation
  {}

  lemma StepAddsCurrent(s: Provider, a: Action)
    requires Enabled(s, a)
    ensures Step(s, a).generation >= s.generation
    ensures Step(s, a).updates == s.updates || Step(s, a).updates == s.updates + [s.generation]
    ensures Step(s, a).writes == s.writes || Step(s, a).writes == s.writes + [s.generation]
  {}

  lemma {:induction false} LaterUpdatesAreCurrent(s: Provider, actions: seq<Action>)
    requires IsRun(s, actions)
    ensures var s' := After(s, actions);
      && s.updates <= s'.updates && (forall k :: |s.updates| <= k < |s'.updates| ==> s'.updates[k] >= s.generation)
      && s.writes <= s'.writes && (forall k :: |s.writes| <= k < |s'.writes| ==> s'.writes[k] >= s.generation)
    decreases |actions|
  {
    if actions != [] {
      StepAddsCurrent(s, actions[0]);
      LaterUpdatesAreCurrent(Step(s, actions[0]), actions[1..]);
    }
  }

  /** Once a newer refresh, `setProvider`, `deleteProvider` or `clearProviders` has started, no earlier
      refresh runs its update or starts a store write, even if a write of it was already in progress. */
  lemma SupersededNeverUpdates(s: Provider, a: Action, actions: seq<Action>)
    requires Good(s) && Enabled(s, a) && Supersedes(a) && IsRun(Step(s, a), actions)
    ensures var s' := After(Step(s, a), actions);
      && (forall k :: |s.updates| <= k < |s'.updates| ==> s'.updates[k] !in s.begun)
      && (forall k :: |s.writes| <= k < |s'.writes| ==> s'.writes[k] !in s.begun)
  {
    SupersededIsOlder(s, a);
    LaterUpdatesAreCurrent(Step(s, a), actions);
    assert Step(s, a).updates == s.updates && Step(s, a).writes == s.writes;
  }

  /** When a publication that persists a list returns true, the store holds that very list at the moment
      of the update. */
  lemma PublishedIsStored(s: Provider, a: Action, i: nat)
    requires Good(s) && Enabled(s, a) && i < |s.publications| && s.publications[i].persist.Write?
    requires !s.publications[i].stage.Settled? && At(Step(s, a), i, Settled(Some(true)))
    ensures var s' := Step(s, a);
      && s'.store == Some(s.publications[i].persist.models)
      && (s.publications[i].update.Some? ==>
            s'.memory == s.publications[i].update.value && s'.updates == s.updates + [s.publications[i].generation])
  {}
}
