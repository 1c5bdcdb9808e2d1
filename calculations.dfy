/** The derived values of an estimate: line totals, category subtotals, the grand total and unallocated quantities. */
module Calculations {
  import opened EstimateTypes
  import opened Sequences

  /** `calculateLineItemTotal`. */
  function LineItemTotal(item: LineItem): real {
    item.quantity * item.unitCost
  }

  /** The stored total agrees with the one derived from quantity and unit cost. */
  predicate TotalConsistent(item: LineItem) {
    item.total == LineItemTotal(item)
  }

  predicate TotalsConsistent(items: seq<LineItem>) {
    forall i :: 0 <= i < |items| ==> TotalConsistent(items[i])
  }

  /** `calculateGrandTotal`: the sum of the stored totals. */
  function GrandTotal(items: seq<LineItem>): real {
    if items == [] then 0.0 else items[0].total + GrandTotal(items[1..])
  }

  function InCategory(category: string): LineItem -> bool {
    (item: LineItem) => item.category == category
  }

  /** `calculateCategorySubtotal`: the grand total of the items in one category. */
  function CategorySubtotal(items: seq<LineItem>, category: string): real {
    GrandTotal(Filter(items, InCategory(category)))
  }

  /** `calculateAllocationTotal`: the sum of the allocations' stored totals. */
  function AllocationTotal(allocs: seq<Allocation>): real {
    if allocs == [] then 0.0 else allocs[0].total + AllocationTotal(allocs[1..])
  }

  /** The summed quantity of some allocations. */
  function AllocatedQuantity(allocs: seq<Allocation>): real {
    if allocs == [] then 0.0 else allocs[0].quantity + AllocatedQuantity(allocs[1..])
  }

  /** `getUnallocatedQuantity`: signed, never clamped at zero. */
  function UnallocatedQuantity(lineItemQuantity: real, allocs: seq<Allocation>): real {
    lineItemQuantity - AllocatedQuantity(allocs)
  }

  lemma {:induction false} GrandTotalConcat(a: seq<LineItem>, b: seq<LineItem>)
    ensures GrandTotal(a + b) == GrandTotal(a) + GrandTotal(b)
  {
    if a == [] {
      assert a + b == b;
    } else {
      assert (a + b)[1..] == a[1..] + b;
      GrandTotalConcat(a[1..], b);
    }
  }

  /** An empty list totals 0 and one more item raises the total by exactly its own total. */
  lemma GrandTotalAppend(items: seq<LineItem>, item: LineItem)
    ensures GrandTotal([]) == 0.0
    ensures GrandTotal(items + [item]) == GrandTotal(items) + item.total
  {
    GrandTotalConcat(items, [item]);
  }

  /** An item of another category leaves a subtotal unchanged; one of the category adds its total. */
  lemma CategorySubtotalAppend(items: seq<LineItem>, item: LineItem, category: string)
    ensures CategorySubtotal(items + [item], category)
         == CategorySubtotal(items, category) + (if item.category == category then item.total else 0.0)
  {
    FilterSnoc(items, item, InCategory(category));
    GrandTotalConcat(Filter(items, InCategory(category)), if item.category == category then [item] else []);
  }

  lemma {:induction false} AllocatedQuantityConcat(a: seq<Allocation>, b: seq<Allocation>)
    ensures AllocatedQuantity(a + b) == AllocatedQuantity(a) + AllocatedQuantity(b)
  {
    if a == [] {
      assert a + b == b;
    } else {
      assert (a + b)[1..] == a[1..] + b;
      AllocatedQuantityConcat(a[1..], b);
    }
  }

  lemma {:induction false} AllocationTotalConcat(a: seq<Allocation>, b: seq<Allocation>)
    ensures AllocationTotal(a + b) == AllocationTotal(a) + AllocationTotal(b)
  {
    if a == [] {
      assert a + b == b;
    } else {
      assert (a + b)[1..] == a[1..] + b;
      AllocationTotalConcat(a[1..], b);
    }
  }

  /** With no allocations nothing is allocated; each further allocation lowers the remainder by its quantity. */
  lemma UnallocatedAppend(q: real, allocs: seq<Allocation>, a: Allocation)
    ensures UnallocatedQuantity(q, []) == q
    ensures UnallocatedQuantity(q, allocs + [a]) == UnallocatedQuantity(q, allocs) - a.quantity
  {
    AllocatedQuantityConcat(allocs, [a]);
  }

  /** The unallocated quantity is reported as it is, below zero when the item is over-allocated. */
  lemma UnallocatedCanBeNegative()
    ensures UnallocatedQuantity(1.0, [Allocation("a", "i", "Building 1", 3.0, 0.0)]) == -2.0
  {
  }

  /** The category subtotals, summed over a list of distinct category names. */
  function SumOfSubtotals(items: seq<LineItem>, categories: seq<string>): real {
    if categories == [] then 0.0
    else CategorySubtotal(items, categories[0]) + SumOfSubtotals(items, categories[1..])
  }

  lemma CategorySubtotalCons(item: LineItem, items: seq<LineItem>, category: string)
    ensures CategorySubtotal([item] + items, category)
         == (if item.category == category then item.total else 0.0) + CategorySubtotal(items, category)
  {
    FilterConcat([item], items, InCategory(category));
    GrandTotalConcat(Filter([item], InCategory(category)), Filter(items, InCategory(category)));
  }

  lemma {:induction false} SumOfSubtotalsCons(item: LineItem, items: seq<LineItem>, categories: seq<string>)
    requires forall i, j :: 0 <= i < j < |categories| ==> categories[i] != categories[j]
    ensures SumOfSubtotals([item] + items, categories)
         == SumOfSubtotals(items, categories) + (if item.category in categories then item.total else 0.0)
  {
    if categories != [] {
      var c := categories[0];
      var rest := categories[1..];
      assert forall i, j :: 0 <= i < j < |rest| ==> rest[i] != rest[j] by {
        forall i, j | 0 <= i < j < |rest| ensures rest[i] != rest[j] {
          assert rest[i] == categories[i + 1] && rest[j] == categories[j + 1];
        }
      }
      SumOfSubtotalsCons(item, items, rest);
      CategorySubtotalCons(item, items, c);
      assert c !in rest by {
        forall k | 0 <= k < |rest| ensures rest[k] != c {
          assert rest[k] == categories[k + 1];
        }
      }
      assert categories == [c] + rest;
    }
  }

  /**
   * The grand total is the sum of the category subtotals over any list of
   * distinct categories that names every category present.
   */
  lemma {:induction false} GrandTotalIsSumOfSubtotals(items: seq<LineItem>, categories: seq<string>)
    requires forall i, j :: 0 <= i < j < |categories| ==> categories[i] != categories[j]
    requires forall i :: 0 <= i < |items| ==> items[i].category in categories
    ensures GrandTotal(items) == SumOfSubtotals(items, categories)
  {
    if items == [] {
      assert SumOfSubtotals([], categories) == 0.0 by {
        SumOfSubtotalsEmpty(categories);
      }
    } else {
      assert items == [items[0]] + items[1..];
      GrandTotalIsSumOfSubtotals(items[1..], categories);
      SumOfSubtotalsCons(items[0], items[1..], categories);
    }
  }

  lemma {:induction false} SumOfSubtotalsEmpty(categories: seq<string>)
    ensures SumOfSubtotals([], categories) == 0.0
  {
    if categories != [] {
      SumOfSubtotalsEmpty(categories[1..]);
    }
  }
}
