/**
 * The snapshot operations of the estimate provider. Each takes the current
 * estimate and returns the next one, built by spread, map and filter; every
 * one of them goes through the generic merge and so refreshes `updatedAt`.
 */
module Snapshots {
  import opened Optional
  import opened EstimateTypes
  import opened Sequences
  import opened Calculations
  import Text

  /** `{ ...estimate, ...updates, updatedAt: now }`. */
  function MergeEstimate(e: Estimate, p: EstimatePatch, now: string): (r: Estimate)
    ensures r.updatedAt == now
    ensures p == NoChanges ==> r == e.(updatedAt := now)
  {
    Estimate(
      p.id.GetOr(e.id), p.projectName.GetOr(e.projectName), p.address.GetOr(e.address),
      p.client.GetOr(e.client), p.bidDate.GetOr(e.bidDate), p.projectType.GetOr(e.projectType),
      p.buildings.GetOr(e.buildings), p.units.GetOr(e.units), p.lineItems.GetOr(e.lineItems),
      p.allocations.GetOr(e.allocations), p.scope.GetOr(e.scope), p.status.GetOr(e.status),
      p.createdAt.GetOr(e.createdAt), now)
  }

  function Latest<T>(earlier: Option<T>, later: Option<T>): Option<T> {
    if later.Some? then later else earlier
  }

  /** The single patch equivalent to `p` followed by `q`: a field `q` supplies wins. */
  function Combine(p: EstimatePatch, q: EstimatePatch): EstimatePatch {
    EstimatePatch(
      Latest(p.id, q.id), Latest(p.projectName, q.projectName), Latest(p.address, q.address),
      Latest(p.client, q.client), Latest(p.bidDate, q.bidDate), Latest(p.projectType, q.projectType),
      Latest(p.buildings, q.buildings), Latest(p.units, q.units), Latest(p.lineItems, q.lineItems),
      Latest(p.allocations, q.allocations), Latest(p.scope, q.scope), Latest(p.status, q.status),
      Latest(p.createdAt, q.createdAt), Latest(p.updatedAt, q.updatedAt))
  }

  /**
   * Two merges in turn are one merge of the combined patch: supplied fields
   * overwrite, the others are kept, and only the last timestamp survives.
   */
  lemma MergeSequential(e: Estimate, p: EstimatePatch, q: EstimatePatch, t1: string, t2: string)
    ensures MergeEstimate(MergeEstimate(e, p, t1), q, t2) == MergeEstimate(e, Combine(p, q), t2)
  {
  }

  /** Merging the same patch again changes nothing but the timestamp. */
  lemma MergeIdempotent(e: Estimate, p: EstimatePatch, t1: string, t2: string)
    ensures MergeEstimate(MergeEstimate(e, p, t1), p, t2) == MergeEstimate(e, p, t2)
  {
  }

  /** A patch that supplies every field replaces the estimate, except that `updatedAt` is still the current time. */
  lemma MergeWholeEstimate(e: Estimate, x: Estimate, now: string)
    ensures MergeEstimate(e, AsPatch(x), now) == x.(updatedAt := now)
  {
  }

  /** The item with its total rederived; every other field is as supplied. */
  function WithTotal(item: LineItem): (r: LineItem)
    ensures TotalConsistent(r)
    ensures r.(total := item.total) == item
  {
    item.(total := LineItemTotal(item))
  }

  /** `addLineItem`: the item goes at the end with its total recomputed, whatever total it carried. */
  function AddLineItem(e: Estimate, item: LineItem, now: string): (r: Estimate)
    ensures r == e.(lineItems := e.lineItems + [WithTotal(item)], updatedAt := now)
  {
    MergeEstimate(e, NoChanges.(lineItems := Some(e.lineItems + [WithTotal(item)])), now)
  }

  /** Adding keeps every stored total consistent and raises the grand total by quantity × unitCost. */
  lemma AddLineItemKeepsTotals(e: Estimate, item: LineItem, now: string)
    requires TotalsConsistent(e.lineItems)
    ensures TotalsConsistent(AddLineItem(e, item, now).lineItems)
    ensures GrandTotal(AddLineItem(e, item, now).lineItems) == GrandTotal(e.lineItems) + item.quantity * item.unitCost
  {
    GrandTotalAppend(e.lineItems, WithTotal(item));
  }

  /** `{ ...item, ...updates }`. */
  function ApplyLineItemPatch(item: LineItem, u: LineItemPatch): LineItem {
    LineItem(
      u.id.GetOr(item.id), u.category.GetOr(item.category), u.description.GetOr(item.description),
      u.quantity.GetOr(item.quantity), u.unitCost.GetOr(item.unitCost), u.total.GetOr(item.total))
  }

  /** The `map` in `updateLineItem`: matching items are merged and re-totalled, the rest are untouched. */
  function PatchLineItems(items: seq<LineItem>, id: string, u: LineItemPatch): (r: seq<LineItem>)
    ensures |r| == |items|
    ensures forall i :: 0 <= i < |r| ==>
      r[i] == if items[i].id == id then WithTotal(ApplyLineItemPatch(items[i], u)) else items[i]
  {
    if items == [] then []
    else [if items[0].id == id then WithTotal(ApplyLineItemPatch(items[0], u)) else items[0]]
         + PatchLineItems(items[1..], id, u)
  }

  /** `updateLineItem`. */
  function UpdateLineItem(e: Estimate, id: string, u: LineItemPatch, now: string): (r: Estimate)
    ensures r == e.(lineItems := PatchLineItems(e.lineItems, id, u), updatedAt := now)
  {
    MergeEstimate(e, NoChanges.(lineItems := Some(PatchLineItems(e.lineItems, id, u))), now)
  }

  /** An unknown id is not an error: the items stay as they were and only the timestamp moves. */
  lemma UpdateLineItemUnknownId(e: Estimate, id: string, u: LineItemPatch, now: string)
    requires forall i :: 0 <= i < |e.lineItems| ==> e.lineItems[i].id != id
    ensures UpdateLineItem(e, id, u, now) == e.(updatedAt := now)
  {
    assert PatchLineItems(e.lineItems, id, u) == e.lineItems;
  }

  /** After an update every stored total is consistent again for the items it touched, even if `u` supplied a total. */
  lemma UpdateLineItemKeepsTotals(e: Estimate, id: string, u: LineItemPatch, now: string)
    requires TotalsConsistent(e.lineItems)
    ensures TotalsConsistent(UpdateLineItem(e, id, u, now).lineItems)
  {
  }

  function ItemLacksId(id: string): LineItem -> bool {
    (item: LineItem) => item.id != id
  }

  function NotForLineItem(lineItemId: string): Allocation -> bool {
    (a: Allocation) => a.lineItemId != lineItemId
  }

  function AllocationLacksId(id: string): Allocation -> bool {
    (a: Allocation) => a.id != id
  }

  /** `lineItems.filter(item => item.id !== id)`. */
  function RemoveLineItem(items: seq<LineItem>, id: string): seq<LineItem> {
    Filter(items, ItemLacksId(id))
  }

  /** `allocations.filter(alloc => alloc.lineItemId !== id)`. */
  function RemoveAllocationsOf(allocs: seq<Allocation>, lineItemId: string): seq<Allocation> {
    Filter(allocs, NotForLineItem(lineItemId))
  }

  /** `deleteLineItem`: the item goes, and so does every allocation that refers to it. */
  function DeleteLineItem(e: Estimate, id: string, now: string): (r: Estimate)
    ensures r == e.(lineItems := RemoveLineItem(e.lineItems, id),
                    allocations := RemoveAllocationsOf(e.allocations, id), updatedAt := now)
  {
    MergeEstimate(e, NoChanges.(lineItems := Some(RemoveLineItem(e.lineItems, id)),
                                allocations := Some(RemoveAllocationsOf(e.allocations, id))), now)
  }

  /**
   * The cascade: no remaining item has the id and no remaining allocation
   * refers to it, while every other item and allocation survives, in order.
   */
  lemma DeleteLineItemCascades(e: Estimate, id: string, now: string, i: nat, j: nat)
    ensures forall k :: 0 <= k < |DeleteLineItem(e, id, now).lineItems| ==> DeleteLineItem(e, id, now).lineItems[k].id != id
    ensures forall k :: 0 <= k < |DeleteLineItem(e, id, now).allocations| ==> DeleteLineItem(e, id, now).allocations[k].lineItemId != id
    ensures i < |e.lineItems| && e.lineItems[i].id != id ==> e.lineItems[i] in DeleteLineItem(e, id, now).lineItems
    ensures j < |e.allocations| && e.allocations[j].lineItemId != id ==> e.allocations[j] in DeleteLineItem(e, id, now).allocations
    ensures i <= |e.lineItems| ==> RemoveLineItem(e.lineItems, id) == RemoveLineItem(e.lineItems[..i], id) + RemoveLineItem(e.lineItems[i..], id)
    ensures j <= |e.allocations| ==> RemoveAllocationsOf(e.allocations, id) == RemoveAllocationsOf(e.allocations[..j], id) + RemoveAllocationsOf(e.allocations[j..], id)
  {
    if i <= |e.lineItems| {
      assert e.lineItems == e.lineItems[..i] + e.lineItems[i..];
      FilterConcat(e.lineItems[..i], e.lineItems[i..], ItemLacksId(id));
    }
    if j <= |e.allocations| {
      assert e.allocations == e.allocations[..j] + e.allocations[j..];
      FilterConcat(e.allocations[..j], e.allocations[j..], NotForLineItem(id));
    }
  }

  /** Deleting the same line item twice is deleting it once. */
  lemma DeleteLineItemIdempotent(e: Estimate, id: string, t1: string, t2: string)
    ensures DeleteLineItem(DeleteLineItem(e, id, t1), id, t2) == DeleteLineItem(e, id, t2)
  {
    FilterIdempotent(e.lineItems, ItemLacksId(id));
    FilterIdempotent(e.allocations, NotForLineItem(id));
  }

  /** `addAllocation`: appended exactly as given, with no check of its line item, quantity or total. */
  function AddAllocation(e: Estimate, a: Allocation, now: string): (r: Estimate)
    ensures r == e.(allocations := e.allocations + [a], updatedAt := now)
  {
    MergeEstimate(e, NoChanges.(allocations := Some(e.allocations + [a])), now)
  }

  /** `{ ...alloc, ...updates }`. */
  function ApplyAllocationPatch(a: Allocation, u: AllocationPatch): Allocation {
    Allocation(
      u.id.GetOr(a.id), u.lineItemId.GetOr(a.lineItemId), u.allocatedTo.GetOr(a.allocatedTo),
      u.quantity.GetOr(a.quantity), u.total.GetOr(a.total))
  }

  /** The `map` in `updateAllocation`: no total is recomputed here. */
  function PatchAllocations(allocs: seq<Allocation>, id: string, u: AllocationPatch): (r: seq<Allocation>)
    ensures |r| == |allocs|
    ensures forall i :: 0 <= i < |r| ==>
      r[i] == if allocs[i].id == id then ApplyAllocationPatch(allocs[i], u) else allocs[i]
  {
    if allocs == [] then []
    else [if allocs[0].id == id then ApplyAllocationPatch(allocs[0], u) else allocs[0]]
         + PatchAllocations(allocs[1..], id, u)
  }

  /** `updateAllocation`. */
  function UpdateAllocation(e: Estimate, id: string, u: AllocationPatch, now: string): (r: Estimate)
    ensures r == e.(allocations := PatchAllocations(e.allocations, id, u), updatedAt := now)
  {
    MergeEstimate(e, NoChanges.(allocations := Some(PatchAllocations(e.allocations, id, u))), now)
  }

  lemma {:induction false} PatchAllocationsConcat(a: seq<Allocation>, b: seq<Allocation>, id: string, u: AllocationPatch)
    ensures PatchAllocations(a + b, id, u) == PatchAllocations(a, id, u) + PatchAllocations(b, id, u)
  {
  }

  /** `allocations.filter(alloc => alloc.id !== id)`. */
  function RemoveAllocation(allocs: seq<Allocation>, id: string): seq<Allocation> {
    Filter(allocs, AllocationLacksId(id))
  }

  /** `deleteAllocation`. */
  function DeleteAllocation(e: Estimate, id: string, now: string): (r: Estimate)
    ensures r == e.(allocations := RemoveAllocation(e.allocations, id), updatedAt := now)
  {
    MergeEstimate(e, NoChanges.(allocations := Some(RemoveAllocation(e.allocations, id))), now)
  }

  /** Deleting an allocation twice is deleting it once, and no allocation with the id is left. */
  lemma DeleteAllocationIdempotent(e: Estimate, id: string, t1: string, t2: string)
    ensures DeleteAllocation(DeleteAllocation(e, id, t1), id, t2) == DeleteAllocation(e, id, t2)
    ensures forall k :: 0 <= k < |DeleteAllocation(e, id, t1).allocations| ==> DeleteAllocation(e, id, t1).allocations[k].id != id
  {
    FilterIdempotent(e.allocations, AllocationLacksId(id));
  }

  /** `{ ...estimate.scope, ...scope }`: a supplied list replaces the old one wholesale. */
  function MergeScope(s: ScopeDetails, p: ScopePatch): ScopeDetails {
    ScopeDetails(
      p.inclusions.GetOr(s.inclusions), p.exclusions.GetOr(s.exclusions),
      p.deliveryTerms.GetOr(s.deliveryTerms), p.comments.GetOr(s.comments))
  }

  /** `updateScope`. */
  function UpdateScope(e: Estimate, p: ScopePatch, now: string): (r: Estimate)
    ensures r == e.(scope := MergeScope(e.scope, p), updatedAt := now)
  {
    MergeEstimate(e, NoChanges.(scope := Some(MergeScope(e.scope, p))), now)
  }

  /** Scope merging is idempotent and an empty scope patch keeps the scope. */
  lemma MergeScopeLaws(s: ScopeDetails, p: ScopePatch)
    ensures MergeScope(MergeScope(s, p), p) == MergeScope(s, p)
    ensures MergeScope(s, NoScopeChanges) == s
  {
  }

  const EmptyScope := ScopeDetails([], [], [], "")

  /**
   * `createNewEstimate`: an empty Multi-Family draft with one building and
   * one unit, bid today, created and last updated now. `stamp` is the clock
   * reading in milliseconds that the id is made from.
   */
  function NewEstimate(stamp: nat, now: string): (r: Estimate)
    ensures r.id == "estimate_" + Text.NatToString(stamp)
    ensures r.lineItems == [] && r.allocations == [] && r.scope == EmptyScope
    ensures r.projectName == "" && r.address == "" && r.client == ""
    ensures r.projectType == MultiFamily && r.buildings == 1 && r.units == 1
    ensures r.status == Draft
    ensures r.bidDate == Text.DatePart(now) && now[..|r.bidDate|] == r.bidDate
    ensures r.createdAt == now && r.updatedAt == now
  {
    Estimate(
      "estimate_" + Text.NatToString(stamp), "", "", "", Text.DatePart(now), MultiFamily, 1, 1,
      [], [], EmptyScope, Draft, now, now)
  }
}

/**
 * The provider that holds the one current estimate (or none) and replaces it
 * on every operation. With no estimate loaded every operation does nothing.
 */
module EstimateContext {
  import opened Optional
  import opened EstimateTypes
  import opened Snapshots
  import Storage

  class EstimateProvider {
    var estimate: Option<Estimate>

    constructor ()
      ensures estimate == None
    {
      estimate := None;
    }

    method SetEstimate(e: Estimate)
      modifies this
      ensures estimate == Some(e)
    {
      estimate := Some(e);
    }

    method UpdateEstimate(updates: EstimatePatch, now: string)
      modifies this
      ensures old(estimate).None? ==> estimate == None
      ensures old(estimate).Some? ==> estimate == Some(MergeEstimate(old(estimate).value, updates, now))
    {
      if estimate.Some? {
        estimate := Some(MergeEstimate(estimate.value, updates, now));
      }
    }

    method AddLineItem(item: LineItem, now: string)
      modifies this
      ensures old(estimate).None? ==> estimate == None
      ensures old(estimate).Some? ==> estimate == Some(Snapshots.AddLineItem(old(estimate).value, item, now))
    {
      if estimate.Some? {
        estimate := Some(Snapshots.AddLineItem(estimate.value, item, now));
      }
    }

    method UpdateLineItem(id: string, updates: LineItemPatch, now: string)
      modifies this
      ensures old(estimate).None? ==> estimate == None
      ensures old(estimate).Some? ==> estimate == Some(Snapshots.UpdateLineItem(old(estimate).value, id, updates, now))
    {
      if estimate.Some? {
        estimate := Some(Snapshots.UpdateLineItem(estimate.value, id, updates, now));
      }
    }

    method DeleteLineItem(id: string, now: string)
      modifies this
      ensures old(estimate).None? ==> estimate == None
      ensures old(estimate).Some? ==> estimate == Some(Snapshots.DeleteLineItem(old(estimate).value, id, now))
    {
      if estimate.Some? {
        estimate := Some(Snapshots.DeleteLineItem(estimate.value, id, now));
      }
    }

    method AddAllocation(allocation: Allocation, now: string)
      modifies this
      ensures old(estimate).None? ==> estimate == None
      ensures old(estimate).Some? ==> estimate == Some(Snapshots.AddAllocation(old(estimate).value, allocation, now))
    {
      if estimate.Some? {
        estimate := Some(Snapshots.AddAllocation(estimate.value, allocation, now));
      }
    }

    method UpdateAllocation(id: string, updates: AllocationPatch, now: string)
      modifies this
      ensures old(estimate).None? ==> estimate == None
      ensures old(estimate).Some? ==> estimate == Some(Snapshots.UpdateAllocation(old(estimate).value, id, updates, now))
    {
      if estimate.Some? {
        estimate := Some(Snapshots.UpdateAllocation(estimate.value, id, updates, now));
      }
    }

    method DeleteAllocation(id: string, now: string)
      modifies this
      ensures old(estimate).None? ==> estimate == None
      ensures old(estimate).Some? ==> estimate == Some(Snapshots.DeleteAllocation(old(estimate).value, id, now))
    {
      if estimate.Some? {
        estimate := Some(Snapshots.DeleteAllocation(estimate.value, id, now));
      }
    }

    method UpdateScope(scope: ScopePatch, now: string)
      modifies this
      ensures old(estimate).None? ==> estimate == None
      ensures old(estimate).Some? ==> estimate == Some(Snapshots.UpdateScope(old(estimate).value, scope, now))
    {
      if estimate.Some? {
        estimate := Some(Snapshots.UpdateScope(estimate.value, scope, now));
      }
    }

    /** Writes the current estimate to the store; nothing happens when none is loaded. */
    method SaveEstimate(store: Storage.EstimateStore)
      modifies store
      ensures estimate.Some? ==> store.estimates == Storage.Upsert(old(store.estimates), estimate.value)
      ensures estimate.None? ==> store.estimates == old(store.estimates)
    {
      if estimate.Some? {
        store.SaveEstimate(estimate.value);
      }
    }

    /** Replaces the current estimate by the stored one with that id, if there is one. */
    method LoadEstimate(store: Storage.EstimateStore, id: string)
      modifies this
      ensures Storage.Find(store.estimates, id).Some? ==> estimate == Storage.Find(store.estimates, id)
      ensures Storage.Find(store.estimates, id).None? ==> estimate == old(estimate)
    {
      var loaded := store.GetEstimate(id);
      if loaded.Some? {
        estimate := loaded;
      }
    }

    method CreateNewEstimate(stamp: nat, now: string)
      modifies this
      ensures estimate == Some(NewEstimate(stamp, now))
    {
      estimate := Some(NewEstimate(stamp, now));
    }
  }
}
