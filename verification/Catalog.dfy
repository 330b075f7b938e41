/** The model list of one provider (`createProvider` in packages/ai/src/models.ts): a baseline overlaid by
    the list last published. */
module Catalog {
  import opened Options
  import opened Publications

  // ---------- What the overlay means ----------

  /** The first model with the id, as `getModel` finds it. */
  function Lookup(models: Models, id: string): Option<Model> {
    if models == [] then None
    else if models[0].id == id then Some(models[0])
    else Lookup(models[1..], id)
  }

  /** The last model with the id. */
  function LastWith(models: Models, id: string): Option<Model> {
    if models == [] then None
    else if models[|models| - 1].id == id then Some(models[|models| - 1])
    else LastWith(models[..|models| - 1], id)
  }

  ghost predicate UniqueIds(models: Models) {
    forall i, j :: 0 <= i < j < |models| ==> models[i].id != models[j].id
  }

  function Ids(models: Models): (r: seq<string>)
    ensures |r| == |models| && forall i :: 0 <= i < |r| ==> r[i] == models[i].id
  {
    seq(|models|, i requires 0 <= i < |models| => models[i].id)
  }

  // ---------- `currentModels` ----------

  /** `findIndex`: the first place of the id, or -1. */
  function Position(models: Models, id: string): (index: int)
    ensures -1 <= index < |models|
    ensures index >= 0 ==> models[index].id == id && forall i :: 0 <= i < index ==> models[i].id != id
    ensures index < 0 ==> forall i :: 0 <= i < |models| ==> models[i].id != id
  {
    if models == [] then -1
    else if models[0].id == id then 0
    else
      var rest := Position(models[1..], id);
      assert forall i :: 0 < i < |models| ==> models[i] == models[1..][i - 1];
      if rest < 0 then -1 else rest + 1
  }

  /** One round of the merging loop, and the whole loop. */
  function Put(merged: Models, m: Model): Models {
    var index := Position(merged, m.id);
    if index >= 0 then merged[index := m] else merged + [m]
  }

  function Merge(baseline: Models, dynamic: Models): Models {
    if dynamic == [] then baseline
    else Put(Merge(baseline, dynamic[..|dynamic| - 1]), dynamic[|dynamic| - 1])
  }

  method FindIndex(models: Models, id: string) returns (index: int)
    ensures -1 <= index < |models|
    ensures index >= 0 ==> models[index].id == id && forall i :: 0 <= i < index ==> models[i].id != id
    ensures index < 0 ==> forall i :: 0 <= i < |models| ==> models[i].id != id
  {
    for i := 0 to |models|
      invariant forall k :: 0 <= k < i ==> models[k].id != id
    {
      if models[i].id == id { return i; }
    }
    return -1;
  }

  lemma {:induction false} LookupAt(models: Models, id: string, i: nat)
    requires i < |models| && models[i].id == id && forall k :: 0 <= k < i ==> models[k].id != id
    ensures Lookup(models, id) == Some(models[i])
  {
    if i > 0 { LookupAt(models[1..], id, i - 1); }
  }

  lemma {:induction false} LookupNowhere(models: Models, id: string)
    ensures (forall k :: 0 <= k < |models| ==> models[k].id != id) <==> Lookup(models, id) == None
    ensures Lookup(models, id).Some? ==> Lookup(models, id).value.id == id && Lookup(models, id).value in models
  {
    if models != [] {
      LookupNowhere(models[1..], id);
      assert forall k :: 0 < k < |models| ==> models[k] == models[1..][k - 1];
    }
  }

  /** Setting one place to a model of the same id, the first of that id, changes that lookup only. */
  lemma {:induction false} LookupAfterReplace(models: Models, i: nat, m: Model, id: string)
    requires i < |models| && models[i].id == m.id && forall k :: 0 <= k < i ==> models[k].id != m.id
    ensures Lookup(models[i := m], id) == if id == m.id then Some(m) else Lookup(models, id)
  {
    if i == 0 {
      assert models[0 := m][1..] == models[1..];
    } else {
      assert models[i := m][1..] == models[1..][i - 1 := m];
      LookupAfterReplace(models[1..], i - 1, m, id);
    }
  }

  lemma {:induction false} LookupAfterAppend(models: Models, m: Model, id: string)
    requires forall k :: 0 <= k < |models| ==> models[k].id != m.id
    ensures Lookup(models + [m], id) == if id == m.id then Some(m) else Lookup(models, id)
  {
    if models == [] {
      assert models + [m] == [m];
    } else {
      assert (models + [m])[1..] == models[1..] + [m];
      LookupAfterAppend(models[1..], m, id);
    }
  }

  /** What the merged list is: every id answers with its last dynamic model, or else with the baseline;
      the baseline order is kept and nothing but new ids is added behind it. */
  ghost predicate Overlays(merged: Models, baseline: Models, dynamic: Models) {
    && (forall id :: Lookup(merged, id) == if LastWith(dynamic, id).Some? then LastWith(dynamic, id)
          else Lookup(baseline, id))
    && Ids(baseline) <= Ids(merged)
    && (UniqueIds(baseline) ==> UniqueIds(merged))
    && (forall i :: |baseline| <= i < |merged| ==> Lookup(baseline, merged[i].id) == None)
  }

  lemma PutOverlays(merged: Models, baseline: Models, dynamic: Models, m: Model)
    requires Overlays(merged, baseline, dynamic)
    ensures Overlays(Put(merged, m), baseline, dynamic + [m])
  {
    var index, merged' := Position(merged, m.id), Put(merged, m);
    forall id
      ensures Lookup(merged', id) == if LastWith(dynamic + [m], id).Some? then LastWith(dynamic + [m], id)
        else Lookup(baseline, id)
    {
      assert (dynamic + [m])[..|dynamic + [m]| - 1] == dynamic;
      if index >= 0 { LookupAfterReplace(merged, index, m, id); } else { LookupAfterAppend(merged, m, id); }
    }
    if index < 0 {
      forall k | 0 <= k < |baseline| ensures baseline[k].id != m.id { assert Ids(baseline)[k] == Ids(merged)[k]; }
      LookupNowhere(baseline, m.id);
    }
  }

  lemma {:induction false} MergeOverlays(baseline: Models, dynamic: Models)
    ensures Overlays(Merge(baseline, dynamic), baseline, dynamic)
  {
    if dynamic != [] {
      var front, m := dynamic[..|dynamic| - 1], dynamic[|dynamic| - 1];
      MergeOverlays(baseline, front);
      PutOverlays(Merge(baseline, front), baseline, front, m);
      assert dynamic == front + [m];
    }
  }

  method CurrentModels(baseline: Models, dynamic: Models) returns (merged: Models)
    ensures merged == Merge(baseline, dynamic) && Overlays(merged, baseline, dynamic)
  {
    merged := baseline;
    for n := 0 to |dynamic|
      invariant merged == Merge(baseline, dynamic[..n])
    {
      var model := dynamic[n];
      var index := FindIndex(merged, model.id);
      assert dynamic[..n + 1][..n] == dynamic[..n];
      if index >= 0 { merged := merged[index := model]; } else { merged := merged + [model]; }
    }
    assert dynamic[..|dynamic|] == dynamic;
    MergeOverlays(baseline, dynamic);
  }

  // ---------- Restoring ----------

  /** What a provider takes from the store: the models that carry its own id. */
  function Restored(stored: Models, provider: string): Models {
    if stored == [] then []
    else if stored[0].provider == provider then [stored[0]] + Restored(stored[1..], provider)
    else Restored(stored[1..], provider)
  }

  lemma {:induction false} RestoredIsShorter(stored: Models, provider: string)
    ensures |Restored(stored, provider)| <= |stored|
    ensures |Restored(stored, provider)| == |stored| <==> AllOf(stored, provider)
    ensures |Restored(stored, provider)| == |stored| ==> Restored(stored, provider) == stored
  {
    if stored != [] {
      RestoredIsShorter(stored[1..], provider);
      AllOfFirst(stored, provider);
      hide AllOf;
    }
  }

  ghost predicate AllOf(models: Models, provider: string) {
    forall m :: m in models ==> m.provider == provider
  }

  lemma AllOfFirst(models: Models, provider: string)
    requires models != []
    ensures AllOf(models, provider) <==> models[0].provider == provider && AllOf(models[1..], provider)
  {
    assert forall m :: m in models <==> m == models[0] || m in models[1..];
  }

  /** Restoring a published list in a fresh provider gives back that list exactly when every model of it
      carries the id of the provider, and then `getModels` is the same. */
  lemma RestoreGivesBack(published: Models, provider: string, baseline: Models)
    ensures Restored(published, provider) == published <==> forall m :: m in published ==> m.provider == provider
    ensures (forall m :: m in published ==> m.provider == provider) ==>
              Merge(baseline, Restored(published, provider)) == Merge(baseline, published)
  {
    RestoredIsShorter(published, provider);
  }
}
