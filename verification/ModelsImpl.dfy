/** `ModelsImpl` (packages/ai/src/models.ts) as far as refreshing goes: maps keyed by provider id, updated
    in place. Each method is one run between two awaits; its contract says which action of Publications it
    performs, on which providers. The store and the provider's own list are reached through it only. */
module ModelsImpl {
  import opened Options
  import opened Publications

  type ProviderId = string

  class ModelsImpl {
    var providers: set<ProviderId>
    var refreshGenerations: map<ProviderId, nat>
    var refreshControllers: map<ProviderId, nat>
    var publicationChains: map<ProviderId, nat>
    var abortedSignals: map<ProviderId, set<nat>>
    var publications: map<ProviderId, seq<Publication>>
    var modelsStore: map<ProviderId, Models>
    var dynamicModels: map<ProviderId, Models>
    ghost var begun: map<ProviderId, set<nat>>
    ghost var updates: map<ProviderId, seq<nat>>
    ghost var writes: map<ProviderId, seq<nat>>

    function Get<T>(m: map<ProviderId, T>, id: ProviderId, default: T): T {
      if id in m then m[id] else default
    }

    function Find<T>(m: map<ProviderId, T>, id: ProviderId): Option<T> {
      if id in m then Some(m[id]) else None
    }

    ghost function View(id: ProviderId): Provider
      reads this
    {
      Provider(id in providers, Get(refreshGenerations, id, 0), Find(refreshControllers, id),
               Get(abortedSignals, id, {}), Find(publicationChains, id), Get(publications, id, []),
               Find(modelsStore, id), Get(dynamicModels, id, []), Get(begun, id, {}),
               Get(updates, id, []), Get(writes, id, []))
    }

    constructor (store: map<ProviderId, Models>)
      ensures forall id :: View(id) == Initial(if id in store then Some(store[id]) else None)
    {
      providers, refreshGenerations, refreshControllers, publicationChains := {}, map[], map[], map[];
      abortedSignals, publications, modelsStore, dynamicModels := map[], map[], store, map[];
      begun, updates, writes := map[], map[], map[];
    }

    method SupersedeProviderRefresh(id: ProviderId) returns (generation: nat)
      modifies this`refreshGenerations, this`refreshControllers, this`abortedSignals
      ensures View(id) == Supersede(old(View(id))) && generation == View(id).generation
      ensures refreshControllers == old(refreshControllers) - {id}
      ensures forall o :: o != id ==> View(o) == old(View(o))
    {
      generation := Get(refreshGenerations, id, 0) + 1;
      refreshGenerations := refreshGenerations[id := generation];
      if id in refreshControllers {
        var previous := refreshControllers[id];
        refreshControllers := refreshControllers - {id};
        abortedSignals := abortedSignals[id := Get(abortedSignals, id, {}) + {previous}];
      }
    }

    method SetProviderNow(id: ProviderId)
      modifies this
      ensures View(id) == Step(old(View(id)), SetProvider)
      ensures forall o :: o != id ==> View(o) == old(View(o))
    {
      var generation := SupersedeProviderRefresh(id);
      providers := providers + {id};
    }

    method DeleteProviderNow(id: ProviderId)
      modifies this
      ensures View(id) == Step(old(View(id)), DeleteProvider)
      ensures forall o :: o != id ==> View(o) == old(View(o))
    {
      var generation := SupersedeProviderRefresh(id);
      providers := providers - {id};
    }

    method SupersedeAll(ids: set<ProviderId>)
      modifies this`refreshGenerations, this`refreshControllers, this`abortedSignals
      ensures forall id :: View(id) == if id in ids then Supersede(old(View(id))) else old(View(id))
    {
      hide View, Supersede;
      var left := ids;
      while left != {}
        invariant left <= ids
        invariant forall id :: View(id) == if id in ids && id !in left then Supersede(old(View(id))) else old(View(id))
        decreases left
      {
        var id :| id in left;
        var generation := SupersedeProviderRefresh(id);
        left := left - {id};
      }
    }

    /** Every provider takes its own step, whichever of them have a refresh under way. */
    method ClearProvidersNow()
      modifies this
      ensures forall id :: View(id) == Step(old(View(id)), ClearProviders)
    {
      SupersedeAll(providers + refreshControllers.Keys);
      providers := {};
    }

    method BeginProviderRefresh(id: ProviderId) returns (generation: nat)
      requires id in providers
      modifies this
      ensures View(id) == Step(old(View(id)), Begin) && generation == View(id).generation
      ensures forall o :: o != id ==> View(o) == old(View(o))
    {
      generation := SupersedeProviderRefresh(id);
      refreshControllers := refreshControllers[id := generation];
      begun := begun[id := Get(begun, id, {}) + {generation}];
    }

    /** The `finally` of a refresh. */
    method EndProviderRefresh(id: ProviderId, generation: nat)
      requires generation in View(id).begun
      modifies this`refreshControllers
      ensures View(id) == Step(old(View(id)), End(generation))
      ensures forall o :: o != id ==> View(o) == old(View(o))
    {
      if Find(refreshControllers, id) == Some(generation) { refreshControllers := refreshControllers - {id}; }
    }

    // ---------- `publishProviderModels` ----------

    method PublishProviderModels(id: ProviderId, generation: nat, persist: Persist, update: Option<Models>)
      requires generation in View(id).begun
      modifies this`publications, this`publicationChains
      ensures View(id) == Step(old(View(id)), Publish(generation, persist, update))
      ensures forall o :: o != id ==> View(o) == old(View(o))
    {
      var queued := Get(publications, id, []);
      publications := publications[id :=
        queued + [Publication(generation, persist, update, Find(publicationChains, id), Queued)]];
      publicationChains := publicationChains[id := |queued|];
    }

    method SetStageNow(id: ProviderId, i: nat, stage: Stage)
      requires i < |View(id).publications|
      modifies this`publications
      ensures View(id) == SetStage(old(View(id)), i, stage)
      ensures forall o :: o != id ==> View(o) == old(View(o))
    {
      publications := publications[id := publications[id][i := publications[id][i].(stage := stage)]];
    }

    predicate IsStaleNow(id: ProviderId, generation: nat)
      reads this
    {
      generation in Get(abortedSignals, id, {}) || Get(refreshGenerations, id, 0) != generation
    }

    method FinishNow(id: ProviderId, i: nat)
      requires i < |View(id).publications|
      modifies this
      ensures View(id) == Finish(old(View(id)), i)
      ensures forall o :: o != id ==> View(o) == old(View(o))
    {
      var p := publications[id][i];
      if IsStaleNow(id, p.generation) {
        SetStageNow(id, i, Settled(Some(false)));
        return;
      }
      if p.update.Some? {
        dynamicModels := dynamicModels[id := p.update.value];
        updates := updates[id := Get(updates, id, []) + [p.generation]];
      }
      SetStageNow(id, i, Settled(Some(true)));
    }

    /** A publication whose predecessor has settled: the first check, and the store operation if any. */
    method StartNow(id: ProviderId, i: nat)
      requires Enabled(View(id), Start(i))
      modifies this
      ensures View(id) == Step(old(View(id)), Start(i))
      ensures forall o :: o != id ==> View(o) == old(View(o))
    {
      var p := publications[id][i];
      if IsStaleNow(id, p.generation) {
        SetStageNow(id, i, Settled(Some(false)));
      } else if p.persist.Keep? {
        FinishNow(id, i);
      } else {
        writes := writes[id := Get(writes, id, []) + [p.generation]];
        SetStageNow(id, i, Writing(false));
      }
    }

    method StoreAppliesNow(id: ProviderId, i: nat)
      requires Enabled(View(id), StoreApplies(i)) && !View(id).publications[i].persist.Keep?
      modifies this
      ensures View(id) == Step(old(View(id)), StoreApplies(i))
      ensures forall o :: o != id ==> View(o) == old(View(o))
    {
      match publications[id][i].persist {
        case Write(models) => modelsStore := modelsStore[id := models];
        case Delete => modelsStore := modelsStore - {id};
      }
      SetStageNow(id, i, Writing(true));
    }

    method StoreAnswersNow(id: ProviderId, i: nat, ok: bool)
      requires Enabled(View(id), StoreAnswers(i, ok))
      modifies this
      ensures View(id) == Step(old(View(id)), StoreAnswers(i, ok))
      ensures forall o :: o != id ==> View(o) == old(View(o))
    {
      if ok { FinishNow(id, i); } else { SetStageNow(id, i, Settled(None)); }
    }

    /** The last link of a chain forgets the chain when it has settled. */
    method ForgetChainNow(id: ProviderId)
      requires Enabled(View(id), ForgetChain)
      modifies this`publicationChains
      ensures View(id) == Step(old(View(id)), ForgetChain)
      ensures forall o :: o != id ==> View(o) == old(View(o))
    {
      publicationChains := publicationChains - {id};
    }
  }
}
