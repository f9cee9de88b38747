/** `currentModels` of `createProvider`: the baseline models overlaid with the dynamic ones. */
module ModelOverlay {
  import opened Seqs

  datatype Model = Model(id: string, body: nat)

  /** `findIndex` by id; the length when there is none. */
  function IndexOf(models: seq<Model>, id: string): (i: nat)
    ensures i <= |models|
    ensures i < |models| ==> models[i].id == id
    ensures forall k | 0 <= k < i :: models[k].id != id
  {
    if models == [] then 0 else if models[0].id == id then 0 else 1 + IndexOf(models[1..], id)
  }

  /** What `getModel` finds. */
  function Lookup(models: seq<Model>, id: string): Option<Model> {
    var i := IndexOf(models, id);
    if i < |models| then Some(models[i]) else None
  }

  /** The last of the models with this id. */
  function LastOf(models: seq<Model>, id: string): Option<Model> {
    if models == [] then None
    else if models[|models| - 1].id == id then Some(models[|models| - 1])
    else LastOf(models[..|models| - 1], id)
  }

  function Put(merged: seq<Model>, model: Model): seq<Model> {
    var i := IndexOf(merged, model.id);
    if i < |merged| then merged[i := model] else merged + [model]
  }

  function Overlay(baseline: seq<Model>, dynamic: seq<Model>): seq<Model> {
    if dynamic == [] then baseline else Put(Overlay(baseline, dynamic[..|dynamic| - 1]), dynamic[|dynamic| - 1])
  }

  function Ids(models: seq<Model>): (ids: seq<string>)
    ensures |ids| == |models|
  {
    seq(|models|, i requires 0 <= i < |models| => models[i].id)
  }

  /** Ids of the list that are not among those seen, each once, in order of appearance. */
  function NewIds(seen: seq<string>, models: seq<Model>): seq<string> {
    if models == [] then []
    else
      var before := NewIds(seen, models[..|models| - 1]);
      var id := models[|models| - 1].id;
      if id in seen || id in before then before else before + [id]
  }

  /** The first index is the only one with nothing before it. */
  lemma IndexIs(models: seq<Model>, id: string, k: nat)
    requires k <= |models| && (k < |models| ==> models[k].id == id)
    requires forall i | 0 <= i < k :: models[i].id != id
    ensures IndexOf(models, id) == k
  {
    assert IndexOf(models, id) < |models| ==> models[IndexOf(models, id)].id == id;
  }

  lemma PutLookup(merged: seq<Model>, model: Model, id: string)
    ensures Lookup(Put(merged, model), id) == if id == model.id then Some(model) else Lookup(merged, id)
  {
    var put, j := Put(merged, model), IndexOf(merged, id);
    if id == model.id || j < |merged| {
      IndexIs(put, id, j);
    } else {
      IndexIs(put, id, |put|);
    }
  }

  lemma PutIds(merged: seq<Model>, model: Model)
    ensures Ids(Put(merged, model)) == if model.id in Ids(merged) then Ids(merged) else Ids(merged) + [model.id]
  {
    var i := IndexOf(merged, model.id);
    if i < |merged| {
      assert Ids(merged)[i] == model.id;
      assert Ids(merged[i := model]) == Ids(merged);
    } else {
      assert forall k | 0 <= k < |merged| :: Ids(merged)[k] == merged[k].id;
      assert Ids(merged + [model]) == Ids(merged) + [model.id];
    }
  }

  /** A model is the last dynamic one with its id, or else the baseline's first one. */
  lemma {:induction false} OverlayLookup(baseline: seq<Model>, dynamic: seq<Model>, id: string)
    ensures Lookup(Overlay(baseline, dynamic), id)
         == if LastOf(dynamic, id).Some? then LastOf(dynamic, id) else Lookup(baseline, id)
  {
    if dynamic != [] {
      var n := |dynamic| - 1;
      OverlayLookup(baseline, dynamic[..n], id);
      PutLookup(Overlay(baseline, dynamic[..n]), dynamic[n], id);
    }
  }

  /** The baseline keeps its order and the new ids follow in order of appearance, so ids stay distinct if they were. */
  lemma {:induction false} OverlayOrder(baseline: seq<Model>, dynamic: seq<Model>)
    ensures Ids(Overlay(baseline, dynamic)) == Ids(baseline) + NewIds(Ids(baseline), dynamic)
  {
    if dynamic == [] {
      assert Ids(baseline) + [] == Ids(baseline);
    } else {
      var n := |dynamic| - 1;
      OverlayOrder(baseline, dynamic[..n]);
      PutIds(Overlay(baseline, dynamic[..n]), dynamic[n]);
      Associative(Ids(baseline), NewIds(Ids(baseline), dynamic[..n]), [dynamic[n].id]);
    }
  }

  /** The merge loop: replace in place, or append. */
  method CurrentModels(baseline: seq<Model>, dynamic: seq<Model>) returns (merged: seq<Model>)
    ensures merged == Overlay(baseline, dynamic)
    ensures forall id ::
      Lookup(merged, id) == if LastOf(dynamic, id).Some? then LastOf(dynamic, id) else Lookup(baseline, id)
  {
    merged := baseline;
    var k := 0;
    while k < |dynamic|
      invariant 0 <= k <= |dynamic|
      invariant merged == Overlay(baseline, dynamic[..k])
    {
      var model := dynamic[k];
      var index := IndexOf(merged, model.id);
      if index < |merged| {
        merged := merged[index := model];
      } else {
        merged := merged + [model];
      }
      assert dynamic[..k + 1][..k] == dynamic[..k];
      k := k + 1;
    }
    assert dynamic[..k] == dynamic;
    forall id
      ensures Lookup(merged, id) == if LastOf(dynamic, id).Some? then LastOf(dynamic, id) else Lookup(baseline, id)
    {
      OverlayLookup(baseline, dynamic, id);
    }
  }
}
