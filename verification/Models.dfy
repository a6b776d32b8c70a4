/** The registry of model providers: its maps, and the step of the publication protocol that each of its segments
    takes. */
module Models {
  import opened Basics
  import opened Publication

  function Find<V>(m: map<string, V>, id: string): Option<V> {
    if id in m then Some(m[id]) else None
  }

  function Get<V>(m: map<string, V>, id: string, default: V): V {
    if id in m then m[id] else default
  }

  function SupersededIn(ids: set<string>, id: string, before: Provider): Provider {
    if id in ids then Superseded(before) else before
  }

  class ModelsImpl {
    var providers: set<string>
    var refreshGenerations: map<string, nat>
    /** Controllers, named by the generation they were made for, and the signals that have been aborted. */
    var refreshControllers: map<string, nat>
    var abortedSignals: map<string, set<nat>>
    /** The publications made so far, and for each provider the one whose tail is in the chain. */
    var publications: map<string, seq<Pub>>
    var publicationChains: map<string, nat>
    var modelsStore: map<string, int>
    var dynamicModels: map<string, int>
    ghost var starts: map<string, seq<nat>>
    ghost var writes: map<string, seq<nat>>
    ghost var updates: map<string, seq<nat>>

    /** The protocol state of one provider. */
    ghost function At(id: string): Provider
      reads this
    {
      Provider(Get(refreshGenerations, id, 0), Find(refreshControllers, id), Get(abortedSignals, id, {}),
        Get(publications, id, []), Find(publicationChains, id), Find(modelsStore, id), Find(dynamicModels, id),
        Get(starts, id, []), Get(writes, id, []), Get(updates, id, []))
    }

    constructor ()
      ensures forall id :: At(id) == Untold
      ensures providers == {}
    {
      providers, refreshGenerations, refreshControllers, abortedSignals := {}, map[], map[], map[];
      publications, publicationChains, modelsStore, dynamicModels := map[], map[], map[], map[];
      starts, writes, updates := map[], map[], map[];
    }

    /** This provider takes the step, and no other is touched. */
    twostate predicate Steps(id: string, e: Event)
      reads this
    {
      && Enabled(old(At(id)), e) && At(id) == Next(old(At(id)), e)
      && forall other | other != id :: At(other) == old(At(other))
    }

    // ---- Refreshes ----

    method SupersedeProviderRefresh(id: string) returns (generation: nat)
      modifies this
      ensures Steps(id, Supersede) && generation == At(id).generation && providers == old(providers)
      ensures refreshControllers == old(refreshControllers) - {id}
    {
      generation := Get(refreshGenerations, id, 0) + 1;
      refreshGenerations := refreshGenerations[id := generation];
      if id in refreshControllers {
        var previous := refreshControllers[id];
        refreshControllers := refreshControllers - {id};
        abortedSignals := abortedSignals[id := Get(abortedSignals, id, {}) + {previous}];
      }
    }

    method BeginProviderRefresh(id: string) returns (generation: nat)
      modifies this
      ensures Steps(id, Begin) && generation == At(id).generation && providers == old(providers)
      ensures At(id).controller == Some(generation)
      ensures old(At(id)).controller.Some? ==> old(At(id)).controller.value in At(id).aborted
    {
      generation := SupersedeProviderRefresh(id);
      refreshControllers := refreshControllers[id := generation];
    }

    /** The end of a refresh removes its controller, unless another refresh has put in its own. */
    method FinishProviderRefresh(id: string, generation: nat)
      modifies this
      ensures Steps(id, Finish(generation)) && providers == old(providers)
    {
      if Find(refreshControllers, id) == Some(generation) {
        refreshControllers := refreshControllers - {id};
      }
    }

    method AbortRefresh(id: string, generation: nat)
      requires generation <= At(id).generation
      modifies this
      ensures Steps(id, Abort(generation)) && providers == old(providers)
    {
      abortedSignals := abortedSignals[id := Get(abortedSignals, id, {}) + {generation}];
    }

    method SetProvider(id: string)
      modifies this
      ensures Steps(id, Supersede) && providers == old(providers) + {id}
    {
      var _ := SupersedeProviderRefresh(id);
      providers := providers + {id};
    }

    method DeleteProvider(id: string)
      modifies this
      ensures Steps(id, Supersede) && providers == old(providers) - {id}
    {
      var _ := SupersedeProviderRefresh(id);
      providers := providers - {id};
    }

    /** Every provider that is registered or being refreshed is superseded, once. */
    method ClearProviders()
      modifies this
      ensures providers == {} && refreshControllers == map[]
      ensures forall id :: At(id) == SupersededIn(old(providers) + old(refreshControllers).Keys, id, old(At(id)))
    {
      var left := providers + refreshControllers.Keys;
      ghost var all := left;
      while left != {}
        invariant left <= all && providers == old(providers)
        invariant refreshControllers.Keys <= left
        invariant forall id :: At(id) == SupersededIn(all - left, id, old(At(id)))
        decreases |left|
      {
        var id :| id in left;
        label before:
        var _ := SupersedeProviderRefresh(id);
        forall other
          ensures At(other) == SupersededIn(all - (left - {id}), other, old(At(other)))
        {
          if other == id {
            assert old@before(At(id)) == old(At(id));
          } else {
            assert At(other) == old@before(At(other));
          }
        }
        left := left - {id};
      }
      assert all - left == all;
      providers := {};
    }

    // ---- Publications ----

    predicate StaleRefresh(id: string, generation: nat)
      reads this
      ensures StaleRefresh(id, generation) == Stale(At(id), generation)
    {
      generation in Get(abortedSignals, id, {}) || Get(refreshGenerations, id, 0) != generation
    }

    /** Up to the first wait: the publication is put behind the one whose tail is in the chain. */
    method PublishProviderModels(id: string, generation: nat, persist: Persist, update: Option<int>) returns (k: nat)
      requires 0 < generation <= At(id).generation
      modifies this
      ensures Steps(id, Publish(generation, persist, update)) && k == |old(At(id)).pubs|
    {
      var previous := Find(publicationChains, id);
      var line := Get(publications, id, []);
      k := |line|;
      publications := publications[id := line + [Pub(generation, persist, update, previous, Waiting)]];
      publicationChains := publicationChains[id := k];
    }

    method Mark(id: string, k: nat, status: Status)
      requires k < |At(id).pubs|
      modifies this`publications
      ensures At(id) == SetStatus(old(At(id)), k, status)
      ensures forall other | other != id :: At(other) == old(At(other))
    {
      var line := Get(publications, id, []);
      publications := publications[id := line[k := line[k].(status := status)]];
    }

    /** From the end of the wait to the store operation, or to the end when there is none. */
    method StartPublication(id: string, k: nat)
      requires Enabled(At(id), Start(k))
      modifies this
      ensures Steps(id, Start(k))
    {
      var pub := Get(publications, id, [])[k];
      if StaleRefresh(id, pub.generation) {
        Mark(id, k, Refused);
        return;
      }
      if pub.persist.Untouched? {
        CompletePublication(id, k);
      } else {
        Mark(id, k, Storing(false));
        starts := starts[id := Get(starts, id, []) + [pub.generation]];
      }
    }

    method TakeEffect(id: string, k: nat)
      requires Enabled(At(id), Effect(k))
      modifies this
      ensures Steps(id, Effect(k))
    {
      var pub := Get(publications, id, [])[k];
      match pub.persist {
        case Untouched =>
        case Remove => modelsStore := modelsStore - {id};
        case Write(catalog) => modelsStore := modelsStore[id := catalog];
      }
      writes := writes[id := Get(writes, id, []) + [pub.generation]];
      Mark(id, k, Storing(true));
    }

    /** From the end of the store operation on: a failure is passed on, and otherwise the refresh is checked once
        more. */
    method SettlePublication(id: string, k: nat, ok: bool)
      requires Enabled(At(id), Settle(k, ok))
      modifies this
      ensures Steps(id, Settle(k, ok))
    {
      if ok {
        CompletePublication(id, k);
      } else {
        Mark(id, k, Status.Broken);
      }
    }

    method CompletePublication(id: string, k: nat)
      requires k < |At(id).pubs|
      modifies this
      ensures At(id) == Completed(old(At(id)), k)
      ensures forall other | other != id :: At(other) == old(At(other))
    {
      var pub := Get(publications, id, [])[k];
      if StaleRefresh(id, pub.generation) {
        Mark(id, k, Refused);
        return;
      }
      if pub.update.Some? {
        dynamicModels := dynamicModels[id := pub.update.value];
      }
      updates := updates[id := Get(updates, id, []) + [pub.generation]];
      Mark(id, k, Published);
    }

    method CleanUpTail(id: string, k: nat)
      requires Enabled(At(id), CleanUp(k))
      modifies this
      ensures Steps(id, CleanUp(k))
    {
      if Find(publicationChains, id) == Some(k) {
        publicationChains := publicationChains - {id};
      }
    }
  }

  // ---- The current models of a provider ----

  datatype Model = Model(id: string, body: int)

  /** The first model with an id. */
  function Lookup(models: seq<Model>, id: string): (r: Option<Model>)
    ensures r.Some? ==> r.value in models && r.value.id == id
    ensures r.None? <==> forall m | m in models :: m.id != id
  {
    if models == [] then None else if models[0].id == id then Some(models[0]) else Lookup(models[1..], id)
  }

  function LastOf(models: seq<Model>, id: string): (r: Option<Model>)
    decreases |models|
  {
    if models == [] then None
    else if models[|models| - 1].id == id then Some(models[|models| - 1])
    else LastOf(models[..|models| - 1], id)
  }

  function Overlaid(baseline: seq<Model>, overlay: seq<Model>, id: string): Option<Model> {
    if LastOf(overlay, id).Some? then LastOf(overlay, id) else Lookup(baseline, id)
  }

  predicate Distinct(models: seq<Model>) {
    forall i, j | 0 <= i < j < |models| :: models[i].id != models[j].id
  }

  method FindIndex(models: seq<Model>, id: string) returns (index: int)
    ensures index == -1 <==> Lookup(models, id).None?
    ensures index != -1 ==>
      0 <= index < |models| && models[index].id == id && forall j | 0 <= j < index :: models[j].id != id
  {
    index := 0;
    while index < |models|
      invariant 0 <= index <= |models|
      invariant forall j | 0 <= j < index :: models[j].id != id
    {
      if models[index].id == id {
        return;
      }
      index := index + 1;
    }
    index := -1;
  }

  lemma {:induction false} LookupAt(models: seq<Model>, index: nat)
    requires index < |models| && forall j | 0 <= j < index :: models[j].id != models[index].id
    ensures Lookup(models, models[index].id) == Some(models[index])
  {
    if index > 0 {
      LookupAt(models[1..], index - 1);
    }
  }

  /** Putting a model in place of the first one with its id, or at the end when there is none, changes the lookup of
      that id and no other. */
  lemma {:induction false} LookupReplaced(models: seq<Model>, index: nat, model: Model, id: string)
    requires index < |models| && models[index].id == model.id && forall j | 0 <= j < index :: models[j].id != model.id
    ensures Lookup(models[index := model], id) == if id == model.id then Some(model) else Lookup(models, id)
  {
    var after := models[index := model];
    if index > 0 {
      LookupReplaced(models[1..], index - 1, model, id);
      assert after[1..] == models[1..][index - 1 := model];
    } else {
      assert after[1..] == models[1..];
    }
  }

  lemma {:induction false} LookupPushed(models: seq<Model>, model: Model, id: string)
    requires Lookup(models, model.id).None?
    ensures Lookup(models + [model], id) == if id == model.id then Some(model) else Lookup(models, id)
  {
    if models == [] {
      assert [model][1..] == [];
    } else {
      assert models[0] in models;
      assert (models + [model])[1..] == models[1..] + [model];
      LookupPushed(models[1..], model, id);
    }
  }

  lemma LastOfSnoc(models: seq<Model>, model: Model, id: string)
    ensures LastOf(models + [model], id) == if model.id == id then Some(model) else LastOf(models, id)
  {
    assert (models + [model])[..|models|] == models;
  }

  lemma OverlaidSnoc(baseline: seq<Model>, overlay: seq<Model>, model: Model, id: string)
    ensures Overlaid(baseline, overlay + [model], id) == if id == model.id then Some(model)
      else Overlaid(baseline, overlay, id)
  {
    LastOfSnoc(overlay, model, id);
  }

  /** The ids of the models, in their places. */
  function Ids(models: seq<Model>): seq<string> {
    seq(|models|, i requires 0 <= i < |models| => models[i].id)
  }

  /** Puts a model in place of the first one with its id, or at the end. */
  method Upsert(models: seq<Model>, model: Model) returns (after: seq<Model>)
    ensures forall id :: Lookup(after, id) == if id == model.id then Some(model) else Lookup(models, id)
    ensures Ids(models) <= Ids(after)
    ensures Distinct(models) ==> Distinct(after)
  {
    var index := FindIndex(models, model.id);
    if index >= 0 {
      after := models[index := model];
      assert Ids(after) == Ids(models);
      forall id
        ensures Lookup(after, id) == if id == model.id then Some(model) else Lookup(models, id)
      {
        LookupReplaced(models, index, model, id);
      }
    } else {
      after := models + [model];
      assert Ids(after) == Ids(models) + [model.id];
      assert forall i | 0 <= i < |models| :: models[i] in models;
      forall id
        ensures Lookup(after, id) == if id == model.id then Some(model) else Lookup(models, id)
      {
        LookupPushed(models, model, id);
      }
    }
  }

  /** The overlay wins: an id is looked up as the last dynamic model with it, else as in the baseline. The baseline
      keeps its places, and ids stay distinct. */
  method CurrentModels(baselineModels: seq<Model>, dynamicModels: seq<Model>) returns (merged: seq<Model>)
    ensures forall id :: Lookup(merged, id) == Overlaid(baselineModels, dynamicModels, id)
    ensures Ids(baselineModels) <= Ids(merged)
    ensures Distinct(baselineModels) ==> Distinct(merged)
  {
    merged := baselineModels;
    for i := 0 to |dynamicModels|
      invariant forall id :: Lookup(merged, id) == Overlaid(baselineModels, dynamicModels[..i], id)
      invariant Ids(baselineModels) <= Ids(merged)
      invariant Distinct(baselineModels) ==> Distinct(merged)
    {
      ghost var before := merged;
      merged := Upsert(merged, dynamicModels[i]);
      assert dynamicModels[..i + 1] == dynamicModels[..i] + [dynamicModels[i]];
      forall id
        ensures Lookup(merged, id) == Overlaid(baselineModels, dynamicModels[..i + 1], id)
      {
        OverlaidSnoc(baselineModels, dynamicModels[..i], dynamicModels[i], id);
        assert Lookup(before, id) == Overlaid(baselineModels, dynamicModels[..i], id);
      }
    }
    assert dynamicModels[..|dynamicModels|] == dynamicModels;
  }
}
