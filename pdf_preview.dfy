/**
 * The on-screen PDF preview: allocations grouped by destination, each with
 * the description of its line item, the category groups shared with the
 * line-item table, and the conditions under which each section is shown.
 */
module PdfPreview {
  import opened Optional
  import opened EstimateTypes
  import opened Sequences
  import LineItemTable
  import Calculations

  /** `{ ...alloc, description }`. */
  datatype DescribedAllocation = DescribedAllocation(allocation: Allocation, description: string)

  /** `lineItems.find(li => li.id === lineItemId)?.description || ''`. */
  function DescriptionFor(items: seq<LineItem>, lineItemId: string): string {
    var found := First(items, ItemHasId(lineItemId));
    if found.Some? then found.value.description else ""
  }

  /** An allocation is described by the first line item with its id, and by "" when there is none. */
  lemma DescriptionRule(items: seq<LineItem>, lineItemId: string)
    ensures (forall k :: 0 <= k < |items| ==> items[k].id != lineItemId) ==> DescriptionFor(items, lineItemId) == ""
    ensures forall k :: 0 <= k < |items| && items[k].id == lineItemId && (forall m :: 0 <= m < k ==> items[m].id != lineItemId) ==>
      DescriptionFor(items, lineItemId) == items[k].description
  {
    forall k | 0 <= k < |items| && items[k].id == lineItemId && (forall m :: 0 <= m < k ==> items[m].id != lineItemId)
      ensures DescriptionFor(items, lineItemId) == items[k].description
    {
      FirstIndexIs(items, ItemHasId(lineItemId), k);
    }
  }

  function Described(a: Allocation, items: seq<LineItem>): DescribedAllocation {
    DescribedAllocation(a, DescriptionFor(items, a.lineItemId))
  }

  /** Every allocation with its description, in order. */
  function DescribeAll(allocs: seq<Allocation>, items: seq<LineItem>): (r: seq<DescribedAllocation>)
    ensures |r| == |allocs|
    ensures forall i :: 0 <= i < |r| ==> r[i] == Described(allocs[i], items)
  {
    seq(|allocs|, i requires 0 <= i < |allocs| => Described(allocs[i], items))
  }

  /** `allocations.map(a => a.allocatedTo)`. */
  function Locations(allocs: seq<Allocation>): (r: seq<string>)
    ensures |r| == |allocs|
    ensures forall i :: 0 <= i < |r| ==> r[i] == allocs[i].allocatedTo
  {
    seq(|allocs|, i requires 0 <= i < |allocs| => allocs[i].allocatedTo)
  }

  function LocationOf(): DescribedAllocation -> string {
    (d: DescribedAllocation) => d.allocation.allocatedTo
  }

  /** The keys `groupAllocations` creates, in the order it creates them. */
  function GroupKeys(allocs: seq<Allocation>): seq<string> {
    if allocs == [] then []
    else
      var keys := GroupKeys(allocs[..|allocs| - 1]);
      var loc := allocs[|allocs| - 1].allocatedTo;
      if loc in keys then keys else keys + [loc]
  }

  /** The group `groupAllocations` builds for one destination. */
  function GroupAt(allocs: seq<Allocation>, items: seq<LineItem>, location: string): seq<DescribedAllocation> {
    if allocs == [] then []
    else
      var last := allocs[|allocs| - 1];
      GroupAt(allocs[..|allocs| - 1], items, location) + (if last.allocatedTo == location then [Described(last, items)] else [])
  }

  /** The keys are the destinations, each once, in first-seen order. */
  lemma {:induction false} GroupKeysAreDistinctLocations(allocs: seq<Allocation>)
    ensures GroupKeys(allocs) == Distinct(Locations(allocs))
  {
    if allocs != [] {
      var p := allocs[..|allocs| - 1];
      GroupKeysAreDistinctLocations(p);
      assert Locations(allocs)[..|allocs| - 1] == Locations(p);
    }
  }

  lemma DescribeAllSnoc(allocs: seq<Allocation>, items: seq<LineItem>)
    requires allocs != []
    ensures DescribeAll(allocs, items) == DescribeAll(allocs[..|allocs| - 1], items) + [Described(allocs[|allocs| - 1], items)]
  {
  }

  /** A group is the described allocations whose destination it is, in their original order. */
  lemma {:induction false} GroupAtIsFilter(allocs: seq<Allocation>, items: seq<LineItem>, location: string)
    ensures GroupAt(allocs, items, location) == Filter(DescribeAll(allocs, items), KeyIs(LocationOf(), location))
  {
    if allocs != [] {
      var p := allocs[..|allocs| - 1];
      GroupAtIsFilter(p, items, location);
      DescribeAllSnoc(allocs, items);
      FilterSnoc(DescribeAll(p, items), Described(allocs[|allocs| - 1], items), KeyIs(LocationOf(), location));
    }
  }

  /** One more allocation adds its destination to the keys unless it is already there. */
  lemma GroupKeysStep(allocs: seq<Allocation>, i: nat)
    requires i < |allocs|
    ensures var keys := GroupKeys(allocs[..i]);
      GroupKeys(allocs[..i + 1]) == if allocs[i].allocatedTo in keys then keys else keys + [allocs[i].allocatedTo]
  {
    assert allocs[..i + 1][..i] == allocs[..i];
  }

  /** The grouping as a map: each key to its group. */
  function GroupMap(allocs: seq<Allocation>, items: seq<LineItem>): map<string, seq<DescribedAllocation>> {
    map k | k in GroupKeys(allocs) :: GroupAt(allocs, items, k)
  }

  /** Only a destination met among the allocations has a non-empty group. */
  lemma {:induction false} GroupHasKey(allocs: seq<Allocation>, items: seq<LineItem>, k: string)
    ensures GroupAt(allocs, items, k) != [] ==> k in GroupKeys(allocs)
  {
    if allocs != [] {
      GroupHasKey(allocs[..|allocs| - 1], items, k);
    }
  }

  /** The loop body at one key: its presence and its group after one more allocation. */
  lemma GroupMapStepAt(allocs: seq<Allocation>, items: seq<LineItem>, i: nat, k: string)
    requires i < |allocs|
    ensures var m, m' := GroupMap(allocs[..i], items), GroupMap(allocs[..i + 1], items);
      var loc := allocs[i].allocatedTo;
      && (k in m' <==> k in m || k == loc)
      && (k in m' && k != loc ==> m'[k] == m[k])
      && (k == loc ==> m'[k] == (if loc in m then m[loc] else []) + [Described(allocs[i], items)])
  {
    assert allocs[..i + 1][..i] == allocs[..i];
    GroupHasKey(allocs[..i], items, k);
  }

  /** The loop body: creating the group when missing and appending the described allocation yields the next grouping. */
  lemma GroupMapStep(allocs: seq<Allocation>, items: seq<LineItem>, i: nat)
    requires i < |allocs|
    ensures var m := GroupMap(allocs[..i], items);
      var loc := allocs[i].allocatedTo;
      var created := if loc in m then m else m[loc := []];
      GroupMap(allocs[..i + 1], items) == created[loc := created[loc] + [Described(allocs[i], items)]]
  {
    var m, m' := GroupMap(allocs[..i], items), GroupMap(allocs[..i + 1], items);
    var loc := allocs[i].allocatedTo;
    var created := if loc in m then m else m[loc := []];
    var next := created[loc := created[loc] + [Described(allocs[i], items)]];
    forall k ensures (k in m' <==> k in next) && (k in m' ==> m'[k] == next[k]) {
      GroupMapStepAt(allocs, items, i, k);
    }
    assert m' == next;
  }

  /**
   * The names a plain `{}` inherits from `Object.prototype`. Reading one of
   * them from `grouped` yields a function or an object, which is truthy, so
   * no array is created for it and the `.push` that follows throws a
   * `TypeError`.
   */
  const InheritedNames: set<string> := {
    "constructor", "hasOwnProperty", "isPrototypeOf", "propertyIsEnumerable", "toLocaleString",
    "toString", "valueOf", "__proto__", "__defineGetter__", "__defineSetter__",
    "__lookupGetter__", "__lookupSetter__"}

  predicate Inherited(location: string) {
    location in InheritedNames
  }

  /** What `groupAllocations` gives: the groups with their creation order, or the throw at allocation `at`. */
  datatype Grouping =
    | Grouped(keys: seq<string>, groups: map<string, seq<DescribedAllocation>>)
    | PushThrows(at: nat)

  /** The grouping fails exactly when some destination is an inherited name, and it fails at the first one. */
  function GroupingOf(allocs: seq<Allocation>, items: seq<LineItem>): (r: Grouping)
    ensures r.PushThrows? <==> exists i :: 0 <= i < |allocs| && Inherited(allocs[i].allocatedTo)
    ensures r.PushThrows? ==>
      r.at < |allocs| && Inherited(allocs[r.at].allocatedTo) && forall k :: 0 <= k < r.at ==> !Inherited(allocs[k].allocatedTo)
  {
    var locations := Locations(allocs);
    var i := FirstIndex(locations, Inherited);
    assert forall k :: 0 <= k < |allocs| ==> Inherited(locations[k]) == Inherited(allocs[k].allocatedTo);
    if i >= 0 then PushThrows(i) else Grouped(GroupKeys(allocs), GroupMap(allocs, items))
  }

  /**
   * `groupAllocations`: one pass over the allocations, creating a
   * destination's group when first met and appending the described
   * allocation to it; an inherited name stops the pass with the throw.
   * `keys` is the order in which the groups were created.
   */
  method GroupAllocations(allocations: seq<Allocation>, lineItems: seq<LineItem>) returns (r: Grouping)
    ensures r == GroupingOf(allocations, lineItems)
  {
    var keys: seq<string> := [];
    var grouped: map<string, seq<DescribedAllocation>> := map[];
    var i := 0;
    while i < |allocations|
      invariant 0 <= i <= |allocations|
      invariant forall k :: 0 <= k < i ==> !Inherited(allocations[k].allocatedTo)
      invariant keys == GroupKeys(allocations[..i])
      invariant grouped == GroupMap(allocations[..i], lineItems)
    {
      var alloc := allocations[i];
      var item := First(lineItems, ItemHasId(alloc.lineItemId));
      var description := if item.Some? then item.value.description else "";
      var entry := DescribedAllocation(alloc, description);
      if Inherited(alloc.allocatedTo) {
        ThrowsAt(allocations, lineItems, i);
        return PushThrows(i);
      }
      GroupKeysStep(allocations, i);
      GroupMapStep(allocations, lineItems, i);
      if alloc.allocatedTo !in grouped {
        grouped := grouped[alloc.allocatedTo := []];
        keys := keys + [alloc.allocatedTo];
      }
      grouped := grouped[alloc.allocatedTo := grouped[alloc.allocatedTo] + [entry]];
      i := i + 1;
    }
    assert allocations[..i] == allocations;
    NoThrow(allocations, lineItems);
    r := Grouped(keys, grouped);
  }

  /** The first allocation to an inherited name is where the grouping throws. */
  lemma ThrowsAt(allocs: seq<Allocation>, items: seq<LineItem>, i: nat)
    requires i < |allocs| && Inherited(allocs[i].allocatedTo)
    requires forall k :: 0 <= k < i ==> !Inherited(allocs[k].allocatedTo)
    ensures GroupingOf(allocs, items) == PushThrows(i)
  {
    var locations := Locations(allocs);
    assert forall k :: 0 <= k < i ==> !Inherited(locations[k]);
    FirstIndexIs(locations, Inherited, i);
  }

  /** Without an inherited name the grouping is the group map and its keys. */
  lemma NoThrow(allocs: seq<Allocation>, items: seq<LineItem>)
    requires forall k :: 0 <= k < |allocs| ==> !Inherited(allocs[k].allocatedTo)
    ensures GroupingOf(allocs, items) == Grouped(GroupKeys(allocs), GroupMap(allocs, items))
  {
  }

  /**
   * When the grouping succeeds, every allocation lands in the group of its
   * destination, described; every group holds only allocations of its own
   * destination; the groups are those of the keys, which are distinct, so the
   * group sizes add up to the number of allocations and no allocation is in
   * two groups.
   */
  lemma GroupingPartitions(allocs: seq<Allocation>, items: seq<LineItem>)
    ensures var r := GroupingOf(allocs, items);
      r.Grouped? ==>
        && (forall k :: k in r.groups <==> k in r.keys)
        && (forall i :: 0 <= i < |allocs| ==>
              allocs[i].allocatedTo in r.groups && Described(allocs[i], items) in r.groups[allocs[i].allocatedTo])
        && (forall k, d :: k in r.groups && d in r.groups[k] ==> d.allocation.allocatedTo == k && d.allocation in allocs)
        && (forall i, j :: 0 <= i < j < |r.keys| ==> r.keys[i] != r.keys[j])
        && GroupSizes(DescribeAll(allocs, items), LocationOf(), r.keys) == |allocs|
  {
    var r := GroupingOf(allocs, items);
    if r.Grouped? {
      assert r.keys == GroupKeys(allocs) && r.groups == GroupMap(allocs, items);
      GroupKeysPartition(allocs, items);
    }
  }

  /** The partition facts of the grouping functions themselves. */
  lemma GroupKeysPartition(allocs: seq<Allocation>, items: seq<LineItem>)
    ensures forall i :: 0 <= i < |allocs| ==>
      allocs[i].allocatedTo in GroupKeys(allocs) && Described(allocs[i], items) in GroupAt(allocs, items, allocs[i].allocatedTo)
    ensures forall k, d :: d in GroupAt(allocs, items, k) ==> d.allocation.allocatedTo == k && d.allocation in allocs
    ensures forall i, j :: 0 <= i < j < |GroupKeys(allocs)| ==> GroupKeys(allocs)[i] != GroupKeys(allocs)[j]
    ensures GroupSizes(DescribeAll(allocs, items), LocationOf(), GroupKeys(allocs)) == |allocs|
  {
    GroupKeysAreDistinctLocations(allocs);
    forall i | 0 <= i < |allocs|
      ensures allocs[i].allocatedTo in GroupKeys(allocs) && Described(allocs[i], items) in GroupAt(allocs, items, allocs[i].allocatedTo)
    {
      EveryAllocationGrouped(allocs, items, i);
    }
    forall k, x | x in GroupAt(allocs, items, k) ensures x.allocation.allocatedTo == k && x.allocation in allocs {
      GroupMembersBelong(allocs, items, k, x);
    }
    GroupSizesAddUp(allocs, items);
  }

  lemma EveryAllocationGrouped(allocs: seq<Allocation>, items: seq<LineItem>, i: nat)
    requires i < |allocs| && GroupKeys(allocs) == Distinct(Locations(allocs))
    ensures allocs[i].allocatedTo in GroupKeys(allocs) && Described(allocs[i], items) in GroupAt(allocs, items, allocs[i].allocatedTo)
  {
    var d := DescribeAll(allocs, items);
    GroupAtIsFilter(allocs, items, allocs[i].allocatedTo);
    assert Locations(allocs)[i] == allocs[i].allocatedTo;
    assert d[i] == Described(allocs[i], items);
    assert KeyIs(LocationOf(), allocs[i].allocatedTo)(d[i]);
  }

  lemma GroupMembersBelong(allocs: seq<Allocation>, items: seq<LineItem>, k: string, x: DescribedAllocation)
    requires x in GroupAt(allocs, items, k)
    ensures x.allocation.allocatedTo == k && x.allocation in allocs
  {
    var d := DescribeAll(allocs, items);
    GroupAtIsFilter(allocs, items, k);
    assert x in d && KeyIs(LocationOf(), k)(x);
    var j :| 0 <= j < |d| && d[j] == x;
    assert x.allocation == allocs[j];
  }

  lemma GroupSizesAddUp(allocs: seq<Allocation>, items: seq<LineItem>)
    ensures GroupSizes(DescribeAll(allocs, items), LocationOf(), GroupKeys(allocs)) == |allocs|
  {
    var d := DescribeAll(allocs, items);
    GroupKeysAreDistinctLocations(allocs);
    forall i | 0 <= i < |d| ensures LocationOf()(d[i]) in GroupKeys(allocs) {
      assert Locations(allocs)[i] == LocationOf()(d[i]);
    }
    GroupSizesPartition(d, LocationOf(), GroupKeys(allocs));
  }

  /** There is a group exactly when there is an allocation. */
  lemma GroupKeysNonEmpty(allocs: seq<Allocation>)
    ensures |GroupKeys(allocs)| > 0 <==> |allocs| > 0
  {
    GroupKeysAreDistinctLocations(allocs);
    if |allocs| > 0 {
      assert Locations(allocs)[0] in GroupKeys(allocs);
    }
  }

  /** The preview renders at all: with allocations, their grouping must not throw. */
  predicate PreviewRenders(e: Estimate) {
    |e.allocations| == 0 || GroupingOf(e.allocations, e.lineItems).Grouped?
  }

  /** The allocation section: the grouping is computed, succeeds and has at least one key. */
  predicate AllocationSectionShown(e: Estimate) {
    |e.allocations| > 0 && GroupingOf(e.allocations, e.lineItems).Grouped? && |GroupingOf(e.allocations, e.lineItems).keys| > 0
  }

  /**
   * The preview fails to render exactly when some destination is an
   * inherited name; otherwise the allocation section is there exactly when
   * there are allocations.
   */
  lemma SectionsShown(e: Estimate)
    ensures PreviewRenders(e) <==> forall i :: 0 <= i < |e.allocations| ==> !Inherited(e.allocations[i].allocatedTo)
    ensures AllocationSectionShown(e) <==> |e.allocations| > 0 && PreviewRenders(e)
  {
    GroupKeysNonEmpty(e.allocations);
  }

  /** A single allocation to "constructor" makes the grouping throw at once. */
  lemma ConstructorDestinationThrows(a: Allocation, items: seq<LineItem>)
    requires a.allocatedTo == "constructor"
    ensures GroupingOf([a], items) == PushThrows(0)
  {
    assert Inherited([a][0].allocatedTo);
  }

  /** The preview's category groups: the line-item table's grouping of the same items. */
  function PreviewCategories(e: Estimate): seq<LineItemTable.CategoryGroup> {
    LineItemTable.CategoriesWithSubtotals(e.lineItems)
  }

  /**
   * The preview lists each category once, in first-seen order, with the sum
   * of its items' totals, and the subtotals add up to the grand total shown.
   */
  lemma PreviewCategoriesAddUp(e: Estimate)
    ensures var groups := PreviewCategories(e);
      && |groups| == |LineItemTable.Categories(e.lineItems)|
      && (forall g :: 0 <= g < |groups| ==>
            groups[g].category == LineItemTable.Categories(e.lineItems)[g]
            && groups[g].subtotal == Calculations.GrandTotal(groups[g].items))
      && (forall g, h :: 0 <= g < h < |groups| ==> groups[g].category != groups[h].category)
      && LineItemTable.SubtotalSum(groups) == Calculations.GrandTotal(e.lineItems)
  {
    LineItemTable.GroupsPartition(e.lineItems);
  }
}
