/**
 * The estimate store: the list of all saved estimates, kept in browser
 * storage by the application and here as an in-memory sequence. Saving
 * upserts by id, reading returns the first match, deleting removes every
 * estimate carrying the id.
 */
module Storage {
  import opened Optional
  import opened EstimateTypes
  import opened Sequences

  function HasId(id: string): Estimate -> bool {
    (e: Estimate) => e.id == id
  }

  /** `findIndex(e => e.id === id)`: the first index with that id, or -1. */
  function FindIndex(list: seq<Estimate>, id: string): (i: int)
    ensures -1 <= i < |list|
    ensures i == -1 <==> forall k :: 0 <= k < |list| ==> list[k].id != id
    ensures i >= 0 ==> list[i].id == id && forall k :: 0 <= k < i ==> list[k].id != id
  {
    FirstIndex(list, HasId(id))
  }

  /** `find(e => e.id === id) || null`. */
  function Find(list: seq<Estimate>, id: string): (r: Option<Estimate>)
    ensures r.None? <==> forall k :: 0 <= k < |list| ==> list[k].id != id
    ensures r.Some? ==> r.value.id == id
    ensures r.Some? ==> exists i :: 0 <= i < |list| && list[i] == r.value && forall k :: 0 <= k < i ==> list[k].id != id
  {
    var i := FindIndex(list, id);
    if i < 0 then None else Some(list[i])
  }

  /** The first matching index is the only index the search can return. */
  lemma FindIndexIs(list: seq<Estimate>, id: string, i: int)
    requires 0 <= i < |list| && list[i].id == id
    requires forall k :: 0 <= k < i ==> list[k].id != id
    ensures FindIndex(list, id) == i
  {
    assert FindIndex(list, id) != -1;
  }

  lemma FindCons(x: Estimate, rest: seq<Estimate>, id: string)
    ensures Find([x] + rest, id) == if x.id == id then Some(x) else Find(rest, id)
  {
    assert ([x] + rest)[1..] == rest;
  }

  /** The list after `saveEstimate`: replace the first estimate with that id, or append. */
  function Upsert(list: seq<Estimate>, e: Estimate): seq<Estimate> {
    var i := FindIndex(list, e.id);
    if i >= 0 then list[i := e] else list + [e]
  }

  function LacksId(id: string): Estimate -> bool {
    (e: Estimate) => e.id != id
  }

  /** The list after `deleteEstimate`. */
  function RemoveId(list: seq<Estimate>, id: string): seq<Estimate> {
    Filter(list, LacksId(id))
  }

  predicate DistinctEstimateIds(list: seq<Estimate>) {
    forall i, j :: 0 <= i < j < |list| ==> list[i].id != list[j].id
  }

  /** After a save, reading the id back yields exactly the saved estimate. */
  lemma SaveThenGet(list: seq<Estimate>, e: Estimate)
    ensures Find(Upsert(list, e), e.id) == Some(e)
  {
    var i := FindIndex(list, e.id);
    var r := Upsert(list, e);
    if i >= 0 {
      assert forall k :: 0 <= k < i ==> r[k] == list[k];
      FindIndexIs(r, e.id, i);
    } else {
      assert forall k :: 0 <= k < |list| ==> r[k] == list[k];
      FindIndexIs(r, e.id, |list|);
    }
  }

  /** A save only touches the estimate with the saved id: reading any other id is unaffected. */
  lemma SaveKeepsOthers(list: seq<Estimate>, e: Estimate, id: string)
    requires id != e.id
    ensures Find(Upsert(list, e), id) == Find(list, id)
  {
    var i := FindIndex(list, e.id);
    var r := Upsert(list, e);
    var j := FindIndex(list, id);
    if i >= 0 {
      assert forall k :: 0 <= k < |r| && k != i ==> r[k] == list[k];
      assert r[i].id != id && list[i].id != id;
      assert forall k :: 0 <= k < |r| ==> (r[k].id == id <==> list[k].id == id);
      assert FindIndex(r, id) == j;
    } else {
      assert forall k :: 0 <= k < |list| ==> r[k] == list[k];
      assert r[|list|].id != id;
      assert FindIndex(r, id) == j;
    }
  }

  /** Saving the same estimate twice leaves the same list as saving it once. */
  lemma SaveIdempotent(list: seq<Estimate>, e: Estimate)
    ensures Upsert(Upsert(list, e), e) == Upsert(list, e)
  {
    var i := FindIndex(list, e.id);
    var r := Upsert(list, e);
    if i >= 0 {
      assert forall k :: 0 <= k < i ==> r[k] == list[k];
      FindIndexIs(r, e.id, i);
    } else {
      assert forall k :: 0 <= k < |list| ==> r[k] == list[k];
      FindIndexIs(r, e.id, |list|);
    }
  }

  /** The list grows by one exactly when the id was not stored yet, and otherwise keeps its length. */
  lemma SaveGrowsIffNew(list: seq<Estimate>, e: Estimate)
    ensures |Upsert(list, e)| == |list| + 1 <==> forall k :: 0 <= k < |list| ==> list[k].id != e.id
    ensures |Upsert(list, e)| == |list| <==> exists k :: 0 <= k < |list| && list[k].id == e.id
  {
  }

  /** Ids that were distinct stay distinct. */
  lemma SaveKeepsIdsDistinct(list: seq<Estimate>, e: Estimate)
    requires DistinctEstimateIds(list)
    ensures DistinctEstimateIds(Upsert(list, e))
  {
    var i := FindIndex(list, e.id);
    var r := Upsert(list, e);
    if i < 0 {
      assert forall k :: 0 <= k < |list| ==> r[k] == list[k];
    } else {
      forall a, b | 0 <= a < b < |r| ensures r[a].id != r[b].id {
        if a != i && b != i {
          assert r[a] == list[a] && r[b] == list[b];
        } else if a == i {
          assert r[b] == list[b] && list[i].id == e.id;
        } else {
          assert r[a] == list[a] && list[i].id == e.id;
        }
      }
    }
  }

  /**
   * Deleting removes every estimate with the id and keeps all the others in
   * their order; deleting again changes nothing.
   */
  lemma DeleteProperties(list: seq<Estimate>, id: string, other: string)
    requires other != id
    ensures Find(RemoveId(list, id), id).None?
    ensures Find(RemoveId(list, id), other) == Find(list, other)
    ensures RemoveId(RemoveId(list, id), id) == RemoveId(list, id)
  {
    FilterIdempotent(list, LacksId(id));
    DeleteKeepsOthers(list, id, other);
  }

  lemma {:induction false} DeleteKeepsOthers(list: seq<Estimate>, id: string, other: string)
    requires other != id
    ensures Find(RemoveId(list, id), other) == Find(list, other)
  {
    if list != [] {
      var x, rest := list[0], list[1..];
      assert list == [x] + rest;
      DeleteKeepsOthers(rest, id, other);
      FindCons(x, rest, other);
      if x.id != id {
        assert RemoveId(list, id) == [x] + RemoveId(rest, id);
        FindCons(x, RemoveId(rest, id), other);
      } else {
        assert RemoveId(list, id) == RemoveId(rest, id);
      }
    }
  }

  /** The store behind `saveEstimate`, `getEstimate`, `getAllEstimates` and `deleteEstimate`. */
  class EstimateStore {
    var estimates: seq<Estimate>

    constructor ()
      ensures estimates == []
    {
      estimates := [];
    }

    /** Overwrites the first estimate with the same id in place, or appends at the end. */
    method SaveEstimate(e: Estimate)
      modifies this
      ensures estimates == Upsert(old(estimates), e)
    {
      var index := FindIndex(estimates, e.id);
      if index >= 0 {
        estimates := estimates[index := e];
      } else {
        estimates := estimates + [e];
      }
    }

    method GetEstimate(id: string) returns (r: Option<Estimate>)
      ensures r.None? <==> forall k :: 0 <= k < |estimates| ==> estimates[k].id != id
      ensures r.Some? ==> r.value.id == id && r.value == estimates[FindIndex(estimates, id)]
    {
      r := Find(estimates, id);
    }

    method GetAllEstimates() returns (r: seq<Estimate>)
      ensures r == estimates
    {
      r := estimates;
    }

    method DeleteEstimate(id: string)
      modifies this
      ensures estimates == RemoveId(old(estimates), id)
    {
      estimates := RemoveId(estimates, id);
    }
  }
}
