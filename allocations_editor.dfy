/**
 * The allocation editor: the only place where an allocation is checked
 * against its line item's remaining quantity before it reaches the
 * provider, plus the per-item grouping it displays and the destination
 * suggestions it offers. An `alert` that stops a handler is a `Reject`.
 */
module AllocationsEditor {
  import opened Optional
  import opened EstimateTypes
  import opened Sequences
  import opened Calculations
  import Text
  import Snapshots

  function AllocationHasId(id: string): Allocation -> bool {
    (a: Allocation) => a.id == id
  }

  function ForLineItem(lineItemId: string): Allocation -> bool {
    (a: Allocation) => a.lineItemId == lineItemId
  }

  function SameItemOtherId(lineItemId: string, id: string): Allocation -> bool {
    (a: Allocation) => a.lineItemId == lineItemId && a.id != id
  }

  /** `allocations.filter(a => a.lineItemId === lineItemId)`. */
  function AllocationsOf(allocs: seq<Allocation>, lineItemId: string): seq<Allocation> {
    Filter(allocs, ForLineItem(lineItemId))
  }

  /** The allocations of the same line item other than the one being edited (lines 59-61). */
  function OtherAllocations(allocs: seq<Allocation>, lineItemId: string, id: string): seq<Allocation> {
    Filter(allocs, SameItemOtherId(lineItemId, id))
  }

  /** No line item has more allocated to it than its own quantity. */
  predicate WithinCapacity(e: Estimate) {
    forall i :: 0 <= i < |e.lineItems| ==>
      AllocatedQuantity(AllocationsOf(e.allocations, e.lineItems[i].id)) <= e.lineItems[i].quantity
  }

  /** The add form: which line item, which destination, how many. */
  datatype AllocationForm = AllocationForm(lineItemId: string, allocatedTo: string, quantity: real)

  datatype Rejection = LineItemMissing | AllocationMissing | ExceedsAvailable(available: real)

  /** What a handler passes on to the provider, or why it stopped. */
  datatype Decision<T> = Accept(value: T) | Reject(reason: Rejection)

  /**
   * `handleAddAllocation`: the selected line item must exist and the
   * requested quantity may not exceed what is still unallocated; the new
   * allocation is priced at the line item's unit cost. `newId` stands for
   * the generated id.
   */
  function HandleAddAllocation(e: Estimate, form: AllocationForm, newId: string): (r: Decision<Allocation>)
    ensures First(e.lineItems, ItemHasId(form.lineItemId)).None? <==> r == Reject(LineItemMissing)
    ensures First(e.lineItems, ItemHasId(form.lineItemId)).Some? ==>
      var item := First(e.lineItems, ItemHasId(form.lineItemId)).value;
      var available := UnallocatedQuantity(item.quantity, AllocationsOf(e.allocations, form.lineItemId));
      && (r.Reject? <==> form.quantity > available)
      && (r.Reject? ==> r.reason == ExceedsAvailable(available))
      && (r.Accept? ==> r.value == Allocation(newId, form.lineItemId, form.allocatedTo, form.quantity, form.quantity * item.unitCost))
  {
    match First(e.lineItems, ItemHasId(form.lineItemId))
    case None => Reject(LineItemMissing)
    case Some(item) =>
      var available := UnallocatedQuantity(item.quantity, AllocationsOf(e.allocations, form.lineItemId));
      if form.quantity > available then Reject(ExceedsAvailable(available))
      else Accept(Allocation(newId, form.lineItemId, form.allocatedTo, form.quantity, form.quantity * item.unitCost))
  }

  /** Appending an allocation adds its quantity to its own line item's allocated quantity and to no other. */
  lemma AllocatedAfterAppend(allocs: seq<Allocation>, a: Allocation, lineItemId: string)
    ensures AllocatedQuantity(AllocationsOf(allocs + [a], lineItemId))
         == AllocatedQuantity(AllocationsOf(allocs, lineItemId)) + (if a.lineItemId == lineItemId then a.quantity else 0.0)
  {
    FilterSnoc(allocs, a, ForLineItem(lineItemId));
    AllocatedQuantityConcat(AllocationsOf(allocs, lineItemId), if a.lineItemId == lineItemId then [a] else []);
  }

  /** An accepted add keeps every line item within its quantity. */
  lemma AcceptedAddKeepsCapacity(e: Estimate, form: AllocationForm, newId: string, now: string)
    requires WithinCapacity(e) && DistinctLineItemIds(e.lineItems)
    requires HandleAddAllocation(e, form, newId).Accept?
    ensures WithinCapacity(Snapshots.AddAllocation(e, HandleAddAllocation(e, form, newId).value, now))
  {
    var a := HandleAddAllocation(e, form, newId).value;
    var k := FirstIndex(e.lineItems, ItemHasId(form.lineItemId));
    assert 0 <= k < |e.lineItems| && e.lineItems[k].id == a.lineItemId
      && AllocatedQuantity(AllocationsOf(e.allocations, a.lineItemId)) + a.quantity <= e.lineItems[k].quantity;
    AddWithinCapacity(e, a, k, now);
  }

  /** Appending an allocation that fits in what its line item (at index k) has free keeps every item within capacity. */
  lemma AddWithinCapacity(e: Estimate, a: Allocation, k: nat, now: string)
    requires WithinCapacity(e) && DistinctLineItemIds(e.lineItems)
    requires k < |e.lineItems| && e.lineItems[k].id == a.lineItemId
    requires AllocatedQuantity(AllocationsOf(e.allocations, a.lineItemId)) + a.quantity <= e.lineItems[k].quantity
    ensures WithinCapacity(Snapshots.AddAllocation(e, a, now))
  {
    var e' := Snapshots.AddAllocation(e, a, now);
    forall i | 0 <= i < |e'.lineItems|
      ensures AllocatedQuantity(AllocationsOf(e'.allocations, e'.lineItems[i].id)) <= e'.lineItems[i].quantity
    {
      AllocatedAfterAppend(e.allocations, a, e.lineItems[i].id);
      if a.lineItemId == e.lineItems[i].id {
        assert i == k;
      }
    }
  }

  /** The state an add leaves behind: the new allocation appended, or nothing changed after an alert. */
  function AfterAdd(e: Estimate, form: AllocationForm, newId: string, now: string): (r: Estimate)
    ensures HandleAddAllocation(e, form, newId).Reject? ==> r == e
    ensures HandleAddAllocation(e, form, newId).Accept? ==>
      r == e.(allocations := e.allocations + [HandleAddAllocation(e, form, newId).value], updatedAt := now)
  {
    match HandleAddAllocation(e, form, newId)
    case Reject(_) => e
    case Accept(a) => Snapshots.AddAllocation(e, a, now)
  }

  /** The quantity the update check allows: the share still free, plus the allocation's own quantity. */
  function AvailableAsWritten(e: Estimate, a: Allocation, item: LineItem): real {
    UnallocatedQuantity(item.quantity, OtherAllocations(e.allocations, a.lineItemId, a.id)) + a.quantity
  }

  /** `{ ...updates, total }`: the total is the final quantity (the new one, else the current one) times the unit cost. */
  function Repriced(updates: AllocationPatch, a: Allocation, item: LineItem): (r: AllocationPatch)
    ensures r.(total := updates.total) == updates
    ensures r.total == Some(updates.quantity.GetOr(a.quantity) * item.unitCost)
  {
    updates.(total := Some(updates.quantity.GetOr(a.quantity) * item.unitCost))
  }

  /**
   * `handleUpdateAllocation` as written. The allocation and its line item
   * must exist; a supplied, non-zero quantity above `AvailableAsWritten` is
   * refused; otherwise the updates go on with the total repriced from the
   * final quantity.
   */
  function HandleUpdateAllocation(e: Estimate, id: string, updates: AllocationPatch): (r: Decision<AllocationPatch>)
    ensures First(e.allocations, AllocationHasId(id)).None? <==> r == Reject(AllocationMissing)
    ensures First(e.allocations, AllocationHasId(id)).Some? ==>
      var a := First(e.allocations, AllocationHasId(id)).value;
      && (First(e.lineItems, ItemHasId(a.lineItemId)).None? <==> r == Reject(LineItemMissing))
      && (First(e.lineItems, ItemHasId(a.lineItemId)).Some? ==>
            var item := First(e.lineItems, ItemHasId(a.lineItemId)).value;
            && (r.Reject? <==> updates.quantity.Some? && updates.quantity.value != 0.0
                               && updates.quantity.value > AvailableAsWritten(e, a, item))
            && (r.Reject? ==> r.reason == ExceedsAvailable(AvailableAsWritten(e, a, item)))
            && (r.Accept? ==> r.value == Repriced(updates, a, item)))
  {
    var found := First(e.allocations, AllocationHasId(id));
    if found.None? then Reject(AllocationMissing)
    else
      var a := found.value;
      var owner := First(e.lineItems, ItemHasId(a.lineItemId));
      if owner.None? then Reject(LineItemMissing)
      else
        var item := owner.value;
        var available := AvailableAsWritten(e, a, item);
        if updates.quantity.Some? && updates.quantity.value != 0.0 && updates.quantity.value > available then
          Reject(ExceedsAvailable(available))
        else
          Accept(Repriced(updates, a, item))
  }

  /**
   * The update check as evidently intended: the allocation's new quantity
   * may not exceed what the other allocations of its line item leave free.
   */
  function HandleUpdateAllocationChecked(e: Estimate, id: string, updates: AllocationPatch): (r: Decision<AllocationPatch>)
    ensures First(e.allocations, AllocationHasId(id)).None? <==> r == Reject(AllocationMissing)
    ensures First(e.allocations, AllocationHasId(id)).Some? ==>
      var a := First(e.allocations, AllocationHasId(id)).value;
      && (First(e.lineItems, ItemHasId(a.lineItemId)).None? <==> r == Reject(LineItemMissing))
      && (First(e.lineItems, ItemHasId(a.lineItemId)).Some? ==>
            var item := First(e.lineItems, ItemHasId(a.lineItemId)).value;
            var free := UnallocatedQuantity(item.quantity, OtherAllocations(e.allocations, a.lineItemId, id));
            && (r.Reject? <==> updates.quantity.Some? && updates.quantity.value > free)
            && (r.Reject? ==> r.reason == ExceedsAvailable(free))
            && (r.Accept? ==> r.value == Repriced(updates, a, item)))
  {
    var found := First(e.allocations, AllocationHasId(id));
    if found.None? then Reject(AllocationMissing)
    else
      var a := found.value;
      var owner := First(e.lineItems, ItemHasId(a.lineItemId));
      if owner.None? then Reject(LineItemMissing)
      else
        var item := owner.value;
        var free := UnallocatedQuantity(item.quantity, OtherAllocations(e.allocations, a.lineItemId, id));
        if updates.quantity.Some? && updates.quantity.value > free then Reject(ExceedsAvailable(free))
        else Accept(Repriced(updates, a, item))
  }

  /** Patching allocations that do not carry the id changes nothing. */
  lemma PatchAllocationsNoMatch(allocs: seq<Allocation>, id: string, u: AllocationPatch)
    requires forall k :: 0 <= k < |allocs| ==> allocs[k].id != id
    ensures Snapshots.PatchAllocations(allocs, id, u) == allocs
  {
  }

  /**
   * A patch that leaves `lineItemId` alone does not move the patched
   * allocations out of their line item, so a line item that none of them
   * belongs to sees the same allocations.
   */
  lemma {:induction false} PatchKeepsOtherItems(allocs: seq<Allocation>, id: string, u: AllocationPatch, lineItemId: string)
    requires u.lineItemId.None?
    requires forall k :: 0 <= k < |allocs| && allocs[k].id == id ==> allocs[k].lineItemId != lineItemId
    ensures AllocationsOf(Snapshots.PatchAllocations(allocs, id, u), lineItemId) == AllocationsOf(allocs, lineItemId)
  {
    if allocs != [] {
      PatchKeepsOtherItems(allocs[1..], id, u, lineItemId);
      var p := Snapshots.PatchAllocations(allocs, id, u);
      assert p == [p[0]] + p[1..];
      assert p[1..] == Snapshots.PatchAllocations(allocs[1..], id, u);
    }
  }

  /** The allocated quantity of a filtered `pre + [x] + post`, counted piece by piece. */
  lemma AllocatedAround(pre: seq<Allocation>, x: Allocation, post: seq<Allocation>, keep: Allocation -> bool)
    ensures AllocatedQuantity(Filter(pre + [x] + post, keep))
         == AllocatedQuantity(Filter(pre, keep)) + (if keep(x) then x.quantity else 0.0) + AllocatedQuantity(Filter(post, keep))
  {
    FilterConcat(pre + [x], post, keep);
    FilterConcat(pre, [x], keep);
    AllocatedQuantityConcat(Filter(pre, keep) + Filter([x], keep), Filter(post, keep));
    AllocatedQuantityConcat(Filter(pre, keep), Filter([x], keep));
  }

  /** With distinct ids, patching by the id of the allocation at `k` changes that allocation alone. */
  lemma PatchOnlyAt(allocs: seq<Allocation>, k: nat, u: AllocationPatch)
    requires k < |allocs| && DistinctAllocationIds(allocs)
    ensures Snapshots.PatchAllocations(allocs, allocs[k].id, u)
         == allocs[..k] + [Snapshots.ApplyAllocationPatch(allocs[k], u)] + allocs[k + 1..]
  {
    var p := Snapshots.PatchAllocations(allocs, allocs[k].id, u);
    var q := allocs[..k] + [Snapshots.ApplyAllocationPatch(allocs[k], u)] + allocs[k + 1..];
    assert |p| == |q|;
    forall i | 0 <= i < |p| ensures p[i] == q[i] {
      if i < k {
        assert q[i] == allocs[i];
      } else if i > k {
        assert q[i] == allocs[i];
      }
    }
  }

  /**
   * With distinct ids, the allocation at `k` is the only one patched: its
   * line item's allocated quantity is the others' plus its new quantity,
   * where before it was the others' plus its old quantity.
   */
  lemma PatchAllocatedQuantity(allocs: seq<Allocation>, k: nat, u: AllocationPatch)
    requires k < |allocs| && DistinctAllocationIds(allocs) && u.lineItemId.None?
    ensures var a := allocs[k];
      AllocatedQuantity(AllocationsOf(Snapshots.PatchAllocations(allocs, a.id, u), a.lineItemId))
      == AllocatedQuantity(OtherAllocations(allocs, a.lineItemId, a.id)) + u.quantity.GetOr(a.quantity)
    ensures var a := allocs[k];
      AllocatedQuantity(AllocationsOf(allocs, a.lineItemId))
      == AllocatedQuantity(OtherAllocations(allocs, a.lineItemId, a.id)) + a.quantity
  {
    var a := allocs[k];
    var pre, post := allocs[..k], allocs[k + 1..];
    assert allocs == pre + [a] + post;
    assert Snapshots.PatchAllocations(allocs, a.id, u) == pre + [Snapshots.ApplyAllocationPatch(a, u)] + post by {
      PatchOnlyAt(allocs, k, u);
    }
    assert (forall i :: 0 <= i < |pre| ==> pre[i].id != a.id) && (forall i :: 0 <= i < |post| ==> post[i].id != a.id) by {
      NeighboursLackId(allocs, k, pre, post);
    }
    PatchAround(pre, a, post, u);
  }

  /** With distinct ids, no allocation before or after index `k` carries the id of the one at `k`. */
  lemma NeighboursLackId(allocs: seq<Allocation>, k: nat, pre: seq<Allocation>, post: seq<Allocation>)
    requires k < |allocs| && DistinctAllocationIds(allocs)
    requires pre == allocs[..k] && post == allocs[k + 1..]
    ensures forall i :: 0 <= i < |pre| ==> pre[i].id != allocs[k].id
    ensures forall i :: 0 <= i < |post| ==> post[i].id != allocs[k].id
  {
    forall i | 0 <= i < |pre| ensures pre[i].id != allocs[k].id {
      assert pre[i] == allocs[i];
    }
    forall i | 0 <= i < |post| ensures post[i].id != allocs[k].id {
      assert post[i] == allocs[k + 1 + i];
    }
  }

  /** `PatchAllocatedQuantity` for an allocation whose id no neighbour shares. */
  lemma PatchAround(pre: seq<Allocation>, a: Allocation, post: seq<Allocation>, u: AllocationPatch)
    requires forall i :: 0 <= i < |pre| ==> pre[i].id != a.id
    requires forall i :: 0 <= i < |post| ==> post[i].id != a.id
    requires u.lineItemId.None?
    ensures AllocatedQuantity(AllocationsOf(pre + [Snapshots.ApplyAllocationPatch(a, u)] + post, a.lineItemId))
         == AllocatedQuantity(OtherAllocations(pre + [a] + post, a.lineItemId, a.id)) + u.quantity.GetOr(a.quantity)
    ensures AllocatedQuantity(AllocationsOf(pre + [a] + post, a.lineItemId))
         == AllocatedQuantity(OtherAllocations(pre + [a] + post, a.lineItemId, a.id)) + a.quantity
  {
    var mine, others := ForLineItem(a.lineItemId), SameItemOtherId(a.lineItemId, a.id);
    FilterAgree(pre, mine, others);
    FilterAgree(post, mine, others);
    AllocatedAround(pre, Snapshots.ApplyAllocationPatch(a, u), post, mine);
    AllocatedAround(pre, a, post, mine);
    AllocatedAround(pre, a, post, others);
  }

  /**
   * An update accepted by the corrected check keeps every line item within
   * its quantity (for the form's edits, which never move an allocation to
   * another line item).
   */
  lemma CheckedUpdateKeepsCapacity(e: Estimate, id: string, updates: AllocationPatch, now: string)
    requires WithinCapacity(e) && DistinctLineItemIds(e.lineItems) && DistinctAllocationIds(e.allocations)
    requires updates.lineItemId.None?
    requires HandleUpdateAllocationChecked(e, id, updates).Accept?
    ensures WithinCapacity(Snapshots.UpdateAllocation(e, id, HandleUpdateAllocationChecked(e, id, updates).value, now))
  {
    var u := HandleUpdateAllocationChecked(e, id, updates).value;
    var k := FirstIndex(e.allocations, AllocationHasId(id));
    var a := e.allocations[k];
    var j := FirstIndex(e.lineItems, ItemHasId(a.lineItemId));
    var item := e.lineItems[j];
    assert u == Repriced(updates, a, item);
    assert u.lineItemId.None? && u.quantity == updates.quantity;
    PatchAllocatedQuantity(e.allocations, k, u);
    assert AllocatedQuantity(AllocationsOf(e.allocations, a.lineItemId)) <= item.quantity;
    CapacityAfterPatch(e, k, j, u);
  }

  /**
   * Patching the allocation at `k`, of line item `j`, keeps every line item
   * within its quantity when the patched allocation's new quantity fits
   * beside the others of its line item.
   */
  lemma CapacityAfterPatch(e: Estimate, k: nat, j: nat, u: AllocationPatch)
    requires WithinCapacity(e) && DistinctLineItemIds(e.lineItems) && DistinctAllocationIds(e.allocations)
    requires k < |e.allocations| && j < |e.lineItems| && e.lineItems[j].id == e.allocations[k].lineItemId
    requires u.lineItemId.None?
    requires AllocatedQuantity(AllocationsOf(Snapshots.PatchAllocations(e.allocations, e.allocations[k].id, u), e.lineItems[j].id))
          <= e.lineItems[j].quantity
    ensures WithinCapacity(e.(allocations := Snapshots.PatchAllocations(e.allocations, e.allocations[k].id, u)))
  {
    var a := e.allocations[k];
    var e' := e.(allocations := Snapshots.PatchAllocations(e.allocations, a.id, u));
    forall i | 0 <= i < |e'.lineItems|
      ensures AllocatedQuantity(AllocationsOf(e'.allocations, e'.lineItems[i].id)) <= e'.lineItems[i].quantity
    {
      if e.lineItems[i].id == a.lineItemId {
        assert i == j;
      } else {
        forall m | 0 <= m < |e.allocations| && e.allocations[m].id == a.id
          ensures e.allocations[m].lineItemId != e.lineItems[i].id
        {
          assert m == k;
        }
        PatchKeepsOtherItems(e.allocations, a.id, u, e.lineItems[i].id);
      }
    }
  }

  /**
   * The bound the as-written check does give: an accepted update leaves the
   * allocation's line item with at most its quantity plus the allocation's
   * previous quantity allocated.
   */
  lemma UpdateAsWrittenBound(e: Estimate, id: string, updates: AllocationPatch, now: string)
    requires WithinCapacity(e) && DistinctLineItemIds(e.lineItems) && DistinctAllocationIds(e.allocations)
    requires updates.lineItemId.None?
    requires HandleUpdateAllocation(e, id, updates).Accept?
    ensures var a := First(e.allocations, AllocationHasId(id)).value;
      var item := First(e.lineItems, ItemHasId(a.lineItemId)).value;
      var e' := Snapshots.UpdateAllocation(e, id, HandleUpdateAllocation(e, id, updates).value, now);
      0.0 <= a.quantity ==> AllocatedQuantity(AllocationsOf(e'.allocations, a.lineItemId)) <= item.quantity + a.quantity
  {
    var u := HandleUpdateAllocation(e, id, updates).value;
    var k := FirstIndex(e.allocations, AllocationHasId(id));
    var a := e.allocations[k];
    var j := FirstIndex(e.lineItems, ItemHasId(a.lineItemId));
    PatchAllocatedQuantity(e.allocations, k, u);
    assert AllocatedQuantity(AllocationsOf(e.allocations, a.lineItemId)) <= e.lineItems[j].quantity;
  }

  /** A line item of 10 with one allocation of 4, in an otherwise empty estimate. */
  function OverAllocationExample(): Estimate {
    Snapshots.NewEstimate(0, "").(
      lineItems := [LineItem("item", "General", "Door", 10.0, 1.0, 10.0)],
      allocations := [Allocation("alloc", "item", "Unit 1", 4.0, 4.0)])
  }

  /** The raise to 14 used below. */
  const RaiseTo14: AllocationPatch := NoAllocationChanges.(quantity := Some(14.0))

  /** In the example the allocation has no siblings and is its item's only allocation. */
  lemma ExampleFilters()
    ensures OverAllocationExample().allocations == [Allocation("alloc", "item", "Unit 1", 4.0, 4.0)]
    ensures OtherAllocations(OverAllocationExample().allocations, "item", "alloc") == []
    ensures AllocationsOf(OverAllocationExample().allocations, "item") == OverAllocationExample().allocations
  {
    var a := Allocation("alloc", "item", "Unit 1", 4.0, 4.0);
    assert Filter([a], SameItemOtherId("item", "alloc")) == [] + Filter([], SameItemOtherId("item", "alloc"));
    assert Filter([a], ForLineItem("item")) == [a] + Filter([], ForLineItem("item"));
  }

  /** Before the update, 4 of the 10 are allocated. */
  lemma ExampleWithinCapacity()
    ensures WithinCapacity(OverAllocationExample())
  {
    ExampleFilters();
  }

  /** The corrected check offers only the 10 the other allocations leave free. */
  lemma ExampleCheckedRefuses()
    ensures HandleUpdateAllocationChecked(OverAllocationExample(), "alloc", RaiseTo14) == Reject(ExceedsAvailable(10.0))
  {
    ExampleFilters();
    assert First(OverAllocationExample().allocations, AllocationHasId("alloc")).value.id == "alloc";
  }

  /** The as-written check passes the raise on, repriced at the unit cost of 1. */
  lemma ExampleAccepted()
    ensures HandleUpdateAllocation(OverAllocationExample(), "alloc", RaiseTo14) == Accept(RaiseTo14.(total := Some(14.0)))
  {
    ExampleFilters();
    assert First(OverAllocationExample().allocations, AllocationHasId("alloc")).value.id == "alloc";
  }

  /** Applying the accepted raise leaves 14 allocated against a quantity of 10. */
  lemma ExampleOverAllocated()
    ensures !WithinCapacity(Snapshots.UpdateAllocation(OverAllocationExample(), "alloc", RaiseTo14.(total := Some(14.0)), ""))
  {
    ExampleFilters();
    var e' := Snapshots.UpdateAllocation(OverAllocationExample(), "alloc", RaiseTo14.(total := Some(14.0)), "");
    var a' := Allocation("alloc", "item", "Unit 1", 14.0, 14.0);
    assert e'.allocations == [a'];
    assert AllocationsOf(e'.allocations, "item") == [a'] by {
      assert Filter([a'], ForLineItem("item")) == [a'] + Filter([], ForLineItem("item"));
    }
    assert e'.lineItems[0].id == "item";
  }

  /**
   * The as-written check accepts raising that allocation to 14: the free
   * share (10) plus its own 4 makes 14 available. Afterwards 14 of the 10
   * are allocated; the corrected check refuses the same update.
   */
  lemma UpdateOverAllocates()
    ensures WithinCapacity(OverAllocationExample())
    ensures HandleUpdateAllocation(OverAllocationExample(), "alloc", RaiseTo14).Accept?
    ensures !WithinCapacity(Snapshots.UpdateAllocation(OverAllocationExample(), "alloc",
              HandleUpdateAllocation(OverAllocationExample(), "alloc", RaiseTo14).value, ""))
    ensures HandleUpdateAllocationChecked(OverAllocationExample(), "alloc", RaiseTo14) == Reject(ExceedsAvailable(10.0))
  {
    ExampleWithinCapacity();
    ExampleAccepted();
    ExampleOverAllocated();
    ExampleCheckedRefuses();
  }

  /** `handleDeleteAllocation`: the allocation goes only when the user confirms. */
  function HandleDeleteAllocation(e: Estimate, id: string, confirmed: bool, now: string): (r: Estimate)
    ensures !confirmed ==> r == e
    ensures confirmed ==> r == e.(allocations := Snapshots.RemoveAllocation(e.allocations, id), updatedAt := now)
    ensures forall k :: 0 <= k < |r.allocations| ==> r.allocations[k] in e.allocations
  {
    if confirmed then Snapshots.DeleteAllocation(e, id, now) else e
  }

  /** One entry of the per-item display: the item, its allocations and what is left of it. */
  datatype AllocationGroup = AllocationGroup(lineItem: LineItem, allocations: seq<Allocation>, unallocated: real)

  function GroupFor(allocs: seq<Allocation>, item: LineItem): AllocationGroup {
    var mine := AllocationsOf(allocs, item.id);
    AllocationGroup(item, mine, UnallocatedQuantity(item.quantity, mine))
  }

  /** A group is listed when something is allocated or something is left to allocate. */
  predicate Shown(g: AllocationGroup) {
    |g.allocations| > 0 || g.unallocated > 0.0
  }

  /** The `map` over line items. */
  function AllGroups(items: seq<LineItem>, allocs: seq<Allocation>): (r: seq<AllocationGroup>)
    ensures |r| == |items|
    ensures forall i :: 0 <= i < |r| ==> r[i] == GroupFor(allocs, items[i])
  {
    if items == [] then [] else [GroupFor(allocs, items[0])] + AllGroups(items[1..], allocs)
  }

  /** `allocationsByLineItem`. */
  function AllocationsByLineItem(items: seq<LineItem>, allocs: seq<Allocation>): (r: seq<AllocationGroup>)
    ensures |r| <= |items|
    ensures forall i :: 0 <= i < |r| ==> Shown(r[i]) && exists j :: 0 <= j < |items| && r[i] == GroupFor(allocs, items[j])
    ensures forall j :: 0 <= j < |items| && Shown(GroupFor(allocs, items[j])) ==> GroupFor(allocs, items[j]) in r
  {
    var all := AllGroups(items, allocs);
    var r := Filter(all, Shown);
    assert forall i :: 0 <= i < |r| ==> r[i] in all;
    assert forall j :: 0 <= j < |items| ==> all[j] == GroupFor(allocs, items[j]);
    r
  }

  /** Groups follow the line-item order: one more item adds its group, if shown, at the end. */
  lemma AllocationsByLineItemSnoc(items: seq<LineItem>, item: LineItem, allocs: seq<Allocation>)
    ensures AllocationsByLineItem(items + [item], allocs)
         == AllocationsByLineItem(items, allocs) + (if Shown(GroupFor(allocs, item)) then [GroupFor(allocs, item)] else [])
  {
    assert AllGroups(items + [item], allocs) == AllGroups(items, allocs) + [GroupFor(allocs, item)];
    FilterSnoc(AllGroups(items, allocs), GroupFor(allocs, item), Shown);
  }

  /** An allocation of an existing line item shows up in that item's group. */
  lemma AllocationIsGrouped(items: seq<LineItem>, allocs: seq<Allocation>, i: nat, j: nat)
    requires i < |items| && j < |allocs| && allocs[j].lineItemId == items[i].id
    ensures GroupFor(allocs, items[i]) in AllocationsByLineItem(items, allocs)
    ensures allocs[j] in GroupFor(allocs, items[i]).allocations
  {
  }

  /** How many times a `for (let i = 1; i <= n; i++)` loop runs. */
  function Count(n: int): nat {
    if n < 1 then 0 else n
  }

  /** `prefix` followed by 1, 2, …, n. */
  function Numbered(prefix: string, n: nat): (r: seq<string>)
    ensures |r| == n
  {
    if n == 0 then [] else Numbered(prefix, n - 1) + [prefix + Text.NatToString(n)]
  }

  /** The i-th label of `Numbered` carries the number i + 1. */
  lemma {:induction false} NumberedLabels(prefix: string, n: nat)
    ensures forall i :: 0 <= i < n ==> Numbered(prefix, n)[i] == prefix + Text.NatToString(i + 1)
  {
    if n > 0 {
      NumberedLabels(prefix, n - 1);
    }
  }

  /** The shared areas suggested after the buildings and units. */
  const SharedAreas: seq<string> := ["Common Areas", "Exterior", "Interior"]

  /** The suggestions for any other project type. */
  const OtherAreas: seq<string> := ["Area 1", "Area 2", "Area 3", "Exterior", "Interior"]

  /** One of the two `for (let i = 1; i <= n; i++) suggestions.push(`${prefix}${i}`)` loops. */
  method PushNumbered(suggestions: seq<string>, prefix: string, n: int) returns (r: seq<string>)
    ensures r == suggestions + Numbered(prefix, Count(n))
  {
    r := suggestions;
    var i := 1;
    while i <= n
      invariant 1 <= i <= Count(n) + 1
      invariant r == suggestions + Numbered(prefix, i - 1)
    {
      assert Numbered(prefix, i) == Numbered(prefix, i - 1) + [prefix + Text.NatToString(i)];
      r := r + [prefix + Text.NatToString(i)];
      i := i + 1;
    }
  }

  /**
   * `getAllocationSuggestions`: for Multi-Family and Townhome projects one
   * label per building, then one per unit, then three shared areas; for any
   * other project type five fixed labels.
   */
  method GetAllocationSuggestions(projectType: ProjectType, buildings: int, units: int) returns (suggestions: seq<string>)
    ensures projectType != CommercialTI ==>
      suggestions == Numbered("Building ", Count(buildings)) + Numbered("Unit ", Count(units)) + SharedAreas
    ensures projectType != CommercialTI ==> |suggestions| == Count(buildings) + Count(units) + 3
    ensures projectType == CommercialTI ==> suggestions == OtherAreas
  {
    suggestions := [];
    if projectType == MultiFamily || projectType == Townhome {
      suggestions := PushNumbered(suggestions, "Building ", buildings);
      suggestions := PushNumbered(suggestions, "Unit ", units);
      suggestions := suggestions + SharedAreas;
    } else {
      suggestions := suggestions + OtherAreas;
    }
  }
}
