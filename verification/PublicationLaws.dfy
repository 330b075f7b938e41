/** The state of a provider told from the history of what happened to it: what is registered and being refreshed, how
    each publication stands, and what the store and the provider's list hold. */
module PublicationLaws {
  import opened Options
  import opened Publications

  lemma {:induction false} RunFront(s: Provider, actions: seq<Action>)
    requires IsRun(s, actions) && actions != []
    ensures var front, last := actions[..|actions| - 1], actions[|actions| - 1];
      IsRun(s, front) && Enabled(After(s, front), last) && After(s, actions) == Step(After(s, front), last)
    decreases |actions|
  {
    if |actions| > 1 {
      RunFront(Step(s, actions[0]), actions[1..]);
      assert actions[..|actions| - 1][1..] == actions[1..][..|actions| - 2];
    }
  }

  // ---------- Refreshes ----------

  /** Registered unless it was never set, or deleted or cleared since. */
  predicate Registered(actions: seq<Action>) {
    actions != [] &&
    match actions[|actions| - 1]
    case SetProvider => true
    case DeleteProvider => false
    case ClearProviders => false
    case _ => Registered(actions[..|actions| - 1])
  }

  /** Setting, deleting and refreshing a provider, and clearing one that is registered, makes a new generation. */
  function Generation(actions: seq<Action>): nat {
    if actions == [] then 0
    else
      var front := actions[..|actions| - 1];
      match actions[|actions| - 1]
      case SetProvider => Generation(front) + 1
      case DeleteProvider => Generation(front) + 1
      case Begin => Generation(front) + 1
      case ClearProviders => if Registered(front) then Generation(front) + 1 else Generation(front)
      case _ => Generation(front)
  }

  /** The refresh under way: begun last, and neither ended nor superseded since. */
  function UnderWay(actions: seq<Action>): Option<nat> {
    if actions == [] then None
    else
      var front := actions[..|actions| - 1];
      match actions[|actions| - 1]
      case Begin => Some(Generation(actions))
      case SetProvider => None
      case DeleteProvider => None
      case ClearProviders => None
      case End(g) => if UnderWay(front) == Some(g) then None else UnderWay(front)
      case _ => UnderWay(front)
  }

  /** The signals that were aborted: by the caller, or as the refresh was superseded while under way. */
  function Aborted(actions: seq<Action>): set<nat> {
    if actions == [] then {}
    else
      var front := actions[..|actions| - 1];
      match actions[|actions| - 1]
      case CallerAborts(g) => Aborted(front) + {g}
      case Begin => Aborted(front) + Being(UnderWay(front))
      case SetProvider => Aborted(front) + Being(UnderWay(front))
      case DeleteProvider => Aborted(front) + Being(UnderWay(front))
      case ClearProviders => Aborted(front) + Being(UnderWay(front))
      case _ => Aborted(front)
  }

  function Being(g: Option<nat>): set<nat> {
    if g.Some? then {g.value} else {}
  }

  ghost predicate RefreshesAre(s: Provider, actions: seq<Action>) {
    && s.registered == Registered(actions) && s.generation == Generation(actions)
    && s.controller == UnderWay(actions) && s.aborted == Aborted(actions)
  }

  lemma RefreshesNext(s: Provider, actions: seq<Action>, a: Action)
    requires Timely(s) && Enabled(s, a) && RefreshesAre(s, actions)
    ensures RefreshesAre(Step(s, a), actions + [a])
  {
    assert (actions + [a])[..|actions|] == actions;
    if a.Start? || a.StoreAnswers? || a.StoreApplies? || a.Publish? || a.ForgetChain? {
      hide IsStale, Timely;
    }
  }

  lemma NoRefreshYet(store: Option<Models>)
    ensures RefreshesAre(Initial(store), [])
  {}

  /** Over every run, the refresh side of a provider is what its history says. */
  lemma {:induction false} HistoryOfRefreshes(store: Option<Models>, actions: seq<Action>)
    requires IsRun(Initial(store), actions)
    ensures Good(After(Initial(store), actions)) && RefreshesAre(After(Initial(store), actions), actions)
  {
    GoodRun(Initial(store), actions);
    hide RefreshesAre, Step, Enabled, Timely, Chained, Faithful, IsSorted, Initial;
    if actions == [] {
      NoRefreshYet(store);
    } else {
      var front, last := actions[..|actions| - 1], actions[|actions| - 1];
      RunFront(Initial(store), actions);
      HistoryOfRefreshes(store, front);
      assert actions == front + [last];
      RefreshesNext(After(Initial(store), front), front, last);
    }
  }

  /** Out of date: superseded, or aborted by the caller. */
  predicate OutOfDate(actions: seq<Action>, generation: nat) {
    generation != Generation(actions) || CallerAborts(generation) in actions
  }

  /** The signal of the current generation is aborted by the caller alone. */
  lemma {:induction false} CurrentIsAborted(store: Option<Models>, actions: seq<Action>, g: nat)
    requires IsRun(Initial(store), actions)
    ensures var s := After(Initial(store), actions);
      && (g >= s.generation ==> (g in s.aborted <==> CallerAborts(g) in actions))
      && (CallerAborts(g) in actions ==> g in s.aborted)
  {
    if actions != [] {
      var front, last := actions[..|actions| - 1], actions[|actions| - 1];
      RunFront(Initial(store), actions);
      GoodRun(Initial(store), front);
      CurrentIsAborted(store, front, g);
      assert CallerAborts(g) in actions <==> CallerAborts(g) in front || last == CallerAborts(g);
      AbortsNext(After(Initial(store), front), last, g);
      hide Step, Enabled, Good;
    }
  }

  lemma AbortsNext(s: Provider, a: Action, g: nat)
    requires Good(s) && Enabled(s, a)
    ensures s.generation <= Step(s, a).generation
    ensures g in s.aborted || a == CallerAborts(g) ==> g in Step(s, a).aborted
    ensures g >= Step(s, a).generation && g in Step(s, a).aborted ==> g in s.aborted || a == CallerAborts(g)
  {
    hide IsStale, Chained, Faithful, IsSorted;
  }

  lemma StaleIsOutOfDate(store: Option<Models>, actions: seq<Action>, g: nat)
    requires IsRun(Initial(store), actions)
    ensures IsStale(After(Initial(store), actions), g) <==> OutOfDate(actions, g)
  {
    HistoryOfRefreshes(store, actions);
    CurrentIsAborted(store, actions, g);
    hide Good;
  }

  // ---------- Publications ----------

  /** What was published, in order. */
  function Published(actions: seq<Action>): (r: seq<Action>)
    ensures forall i :: 0 <= i < |r| ==> r[i].Publish?
  {
    if actions == [] then []
    else
      var last := actions[|actions| - 1];
      Published(actions[..|actions| - 1]) + if last.Publish? then [last] else []
  }

  /** How publication `i` stands. It is looked at when it starts and again when the store has answered, and settles
      as false if it is out of date then; otherwise it settles as true, or fails if the store did. */
  function StageOf(actions: seq<Action>, i: nat): Stage {
    if actions == [] || i >= |Published(actions)| then Queued
    else
      var front, p := actions[..|actions| - 1], Published(actions)[i];
      match actions[|actions| - 1]
      case Start(j) =>
        if j != i then StageOf(front, i)
        else if OutOfDate(front, p.generation) then Settled(Some(false))
        else if p.persist.Keep? then Settled(Some(true)) else Writing(false)
      case StoreApplies(j) => if j == i then Writing(true) else StageOf(front, i)
      case StoreAnswers(j, ok) =>
        if j != i then StageOf(front, i)
        else if !ok then Settled(None)
        else Settled(Some(!OutOfDate(front, p.generation)))
      case _ => StageOf(front, i)
  }

  /** The publication that the next one has to wait for: the last one, until the chain is forgotten. */
  function Remembered(actions: seq<Action>): Option<nat> {
    if actions == [] then None
    else
      match actions[|actions| - 1]
      case Publish(_, _, _) => Some(|Published(actions)| - 1)
      case ForgetChain => None
      case _ => Remembered(actions[..|actions| - 1])
  }

  /** The one that publication `i` waits for. */
  function Awaited(actions: seq<Action>, i: nat): Option<nat> {
    if actions == [] then None
    else
      var front := actions[..|actions| - 1];
      if i < |Published(front)| then Awaited(front, i) else Remembered(front)
  }

  ghost predicate PublicationIs(s: Provider, actions: seq<Action>, i: nat) {
    && i < |s.publications| && i < |Published(actions)|
    && s.publications[i].generation == Published(actions)[i].generation
    && s.publications[i].persist == Published(actions)[i].persist
    && s.publications[i].update == Published(actions)[i].update
    && s.publications[i].stage == StageOf(actions, i) && s.publications[i].previous == Awaited(actions, i)
  }

  ghost predicate PublicationsAre(s: Provider, actions: seq<Action>) {
    && |s.publications| == |Published(actions)| && s.chain == Remembered(actions)
    && forall i :: 0 <= i < |s.publications| ==> PublicationIs(s, actions, i)
  }

  lemma PublishedNext(actions: seq<Action>, a: Action)
    ensures (actions + [a])[..|actions|] == actions
    ensures Published(actions + [a]) == Published(actions) + if a.Publish? then [a] else []
  {
    assert (actions + [a])[..|actions|] == actions;
  }

  lemma PublicationNext(s: Provider, actions: seq<Action>, a: Action, i: nat)
    requires Enabled(s, a) && PublicationIs(s, actions, i)
    requires forall g :: IsStale(s, g) <==> OutOfDate(actions, g)
    ensures PublicationIs(Step(s, a), actions + [a], i)
  {
    PublishedNext(actions, a);
    hide IsStale, OutOfDate, Published, Remembered;
  }

  lemma NewPublication(s: Provider, actions: seq<Action>, a: Action)
    requires a.Publish? && Enabled(s, a) && |s.publications| == |Published(actions)| && s.chain == Remembered(actions)
    ensures PublicationIs(Step(s, a), actions + [a], |s.publications|)
  {
    PublishedNext(actions, a);
    NothingBefore(actions, |s.publications|);
    hide Published, Remembered;
  }

  lemma {:induction false} NothingBefore(actions: seq<Action>, i: nat)
    requires i >= |Published(actions)|
    ensures StageOf(actions, i) == Queued
  {}

  lemma PublicationsNext(s: Provider, actions: seq<Action>, a: Action)
    requires Enabled(s, a) && PublicationsAre(s, actions)
    requires forall g :: IsStale(s, g) <==> OutOfDate(actions, g)
    ensures PublicationsAre(Step(s, a), actions + [a])
  {
    PublishedNext(actions, a);
    forall i | 0 <= i < |Step(s, a).publications| ensures PublicationIs(Step(s, a), actions + [a], i) {
      if i < |s.publications| {
        assert PublicationIs(s, actions, i);
        hide PublicationIs;
        PublicationNext(s, actions, a, i);
      } else {
        NewPublication(s, actions, a);
        hide PublicationIs;
      }
    }
    hide IsStale, OutOfDate, PublicationIs, Published;
  }

  lemma {:induction false} HistoryOfPublications(store: Option<Models>, actions: seq<Action>)
    requires IsRun(Initial(store), actions)
    ensures PublicationsAre(After(Initial(store), actions), actions)
  {
    if actions != [] {
      var front, last := actions[..|actions| - 1], actions[|actions| - 1];
      RunFront(Initial(store), actions);
      HistoryOfPublications(store, front);
      assert actions == front + [last];
      forall g ensures IsStale(After(Initial(store), front), g) <==> OutOfDate(front, g) {
        StaleIsOutOfDate(store, front, g);
      }
      PublicationsNext(After(Initial(store), front), front, last);
      hide PublicationsAre, Step, Enabled, IsStale, OutOfDate;
    }
  }

  // ---------- What the store and the list hold ----------

  /** The list of the last publication that came through with an update, if any. */
  function LastList(ps: seq<Publication>): Models {
    if ps == [] then []
    else
      var p := ps[|ps| - 1];
      if p.stage == Settled(Some(true)) && p.update.Some? then p.update.value else LastList(ps[..|ps| - 1])
  }

  /** The generations of all that did, in order. */
  function Updating(ps: seq<Publication>): seq<nat> {
    if ps == [] then []
    else
      var p := ps[|ps| - 1];
      Updating(ps[..|ps| - 1]) + if p.stage == Settled(Some(true)) && p.update.Some? then [p.generation] else []
  }

  ghost predicate ListIs(s: Provider) {
    s.memory == LastList(s.publications) && s.updates == Updating(s.publications)
  }

  /** Publications that did not come through count for nothing. */
  lemma {:induction false} TailSaysNothing(ps: seq<Publication>, n: nat)
    requires n <= |ps| && forall j :: n <= j < |ps| ==> ps[j].stage != Settled(Some(true)) || ps[j].update.None?
    ensures LastList(ps) == LastList(ps[..n]) && Updating(ps) == Updating(ps[..n])
    decreases |ps|
  {
    if n < |ps| {
      var front := ps[..|ps| - 1];
      TailSaysNothing(front, n);
      assert front[..n] == ps[..n];
    } else {
      assert ps[..n] == ps;
    }
  }

  lemma {:induction false} OnlyItSpeaks(ps: seq<Publication>, i: nat)
    requires i < |ps| && forall j :: i < j < |ps| ==> !ps[j].stage.Settled?
    ensures var p, before := ps[i], ps[..i];
      if p.stage == Settled(Some(true)) && p.update.Some?
      then LastList(ps) == p.update.value && Updating(ps) == Updating(before) + [p.generation]
      else LastList(ps) == LastList(before) && Updating(ps) == Updating(before)
  {
    TailSaysNothing(ps, i + 1);
    var upTo := ps[..i + 1];
    assert upTo[..i] == ps[..i] && upTo[i] == ps[i] && |upTo| == i + 1;
  }

  lemma ListMoves(s: Provider, i: nat, stage: Stage, s': Provider)
    requires Chained(s.chain, s.publications) && ListIs(s) && i < |s.publications|
    requires !s.publications[i].stage.Settled?
    requires s'.publications == s.publications[i := s.publications[i].(stage := stage)]
    requires if stage == Settled(Some(true)) && s.publications[i].update.Some?
      then s'.memory == s.publications[i].update.value && s'.updates == s.updates + [s.publications[i].generation]
      else s'.memory == s.memory && s'.updates == s.updates
    ensures ListIs(s')
  {
    assert forall j :: i < j < |s.publications| ==> !s.publications[j].stage.Settled?;
    OnlyItSpeaks(s.publications, i);
    OnlyItSpeaks(s'.publications, i);
    assert s'.publications[..i] == s.publications[..i];
    hide LastList, Updating, Chained;
  }

  lemma ListNext(s: Provider, a: Action)
    requires Good(s) && ListIs(s) && Enabled(s, a)
    ensures ListIs(Step(s, a))
  {
    if a.Start? || a.StoreApplies? || a.StoreAnswers? {
      hide Good, ListIs, IsStale;
      ListMoves(s, a.i, Step(s, a).publications[a.i].stage, Step(s, a)) by { assert Good(s); }
    } else if a.Publish? {
      var ps := Step(s, a).publications;
      assert ps[..|s.publications|] == s.publications;
      TailSaysNothing(ps, |s.publications|);
    }
  }

  /** Whatever they persist, the provider's list is that of the last publication that settled true with an update, or
      empty if there is none; and the updates that ran are those of the publications that did, in their order. */
  lemma {:induction false} ListIsTheLast(store: Option<Models>, actions: seq<Action>)
    requires IsRun(Initial(store), actions)
    ensures Good(After(Initial(store), actions)) && ListIs(After(Initial(store), actions))
  {
    GoodRun(Initial(store), actions);
    if actions != [] {
      RunFront(Initial(store), actions);
      ListIsTheLast(store, actions[..|actions| - 1]);
      ListNext(After(Initial(store), actions[..|actions| - 1]), actions[|actions| - 1]);
      hide ListIs, Good, Step, Enabled;
    }
  }

  /** What the store holds: what the last publication it took has put there, or what it held before. */
  function LastStored(store: Option<Models>, actions: seq<Action>): Option<Models> {
    if actions == [] then store
    else
      var last := actions[|actions| - 1];
      if last.StoreApplies? && last.i < |Published(actions)| then
        match Published(actions)[last.i].persist
        case Write(models) => Some(models)
        case _ => None
      else LastStored(store, actions[..|actions| - 1])
  }

  /** The store operations begun: of each publication that was not out of date as it started. */
  function WritesBegun(actions: seq<Action>): seq<nat> {
    if actions == [] then []
    else
      var front, last := actions[..|actions| - 1], actions[|actions| - 1];
      WritesBegun(front) +
      if last.Start? && last.i < |Published(front)| && StageOf(actions, last.i).Writing?
      then [Published(front)[last.i].generation] else []
  }

  lemma StoreNext(s: Provider, actions: seq<Action>, a: Action, store: Option<Models>)
    requires Enabled(s, a) && PublicationsAre(s, actions) && PublicationsAre(Step(s, a), actions + [a])
    requires s.store == LastStored(store, actions) && s.writes == WritesBegun(actions)
    ensures Step(s, a).store == LastStored(store, actions + [a]) && Step(s, a).writes == WritesBegun(actions + [a])
  {
    assert (actions + [a])[..|actions|] == actions;
    if a.Start? || a.StoreApplies? {
      assert PublicationIs(s, actions, a.i) && PublicationIs(Step(s, a), actions + [a], a.i);
    }
    hide StageOf, IsStale;
  }

  /** Over every run: what was put into the store last is there, and store operations were begun in this order. */
  lemma {:induction false} StoreIsTheLast(store: Option<Models>, actions: seq<Action>)
    requires IsRun(Initial(store), actions)
    ensures var s := After(Initial(store), actions);
      s.store == LastStored(store, actions) && s.writes == WritesBegun(actions)
  {
    if actions != [] {
      var front, last := actions[..|actions| - 1], actions[|actions| - 1];
      RunFront(Initial(store), actions);
      StoreIsTheLast(store, front);
      HistoryOfPublications(store, front);
      HistoryOfPublications(store, actions);
      assert actions == front + [last];
      StoreNext(After(Initial(store), front), front, last, store);
      hide PublicationsAre, Step, Enabled;
    }
  }

  // ---------- Progress ----------

  predicate OfChain(a: Action) {
    a.Start? || a.StoreApplies? || a.StoreAnswers?
  }

  /** The chain never jams: the first publication that has not settled can go on. */
  lemma ChainMoves(s: Provider, i: nat)
    requires Good(s) && i < |s.publications| && !s.publications[i].stage.Settled?
    requires forall j :: 0 <= j < i ==> s.publications[j].stage.Settled?
    ensures exists a :: OfChain(a) && a.i == i && Enabled(s, a)
  {
    var a := match s.publications[i].stage
      case Queued => Start(i)
      case Writing(applied) => StoreAnswers(i, applied)
      case _ => Start(i);
    assert OfChain(a) && a.i == i && Enabled(s, a);
  }

  /** Each step of the chain takes a publication nearer to its end. */
  function Left(stage: Stage): nat {
    match stage case Queued => 3 case Writing(applied) => if applied then 1 else 2 case _ => 0
  }

  lemma ChainWorks(s: Provider, a: Action)
    requires OfChain(a) && Enabled(s, a)
    ensures Left(Step(s, a).publications[a.i].stage) < Left(s.publications[a.i].stage)
    ensures forall j :: 0 <= j < |s.publications| && j != a.i ==> Step(s, a).publications[j] == s.publications[j]
  {}
}
