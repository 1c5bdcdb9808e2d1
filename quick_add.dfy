/** The quick-add chips: a fixed catalogue of common items, each added as one line item. */
module QuickAdd {
  import opened EstimateTypes
  import opened Calculations
  import Text
  import Snapshots

  /** One catalogue entry. */
  datatype CommonItem = CommonItem(category: string, description: string, unitCost: real)

  /** `COMMON_ITEMS`. */
  const CommonItems: seq<CommonItem> := [
    CommonItem("Hardware", "Hinges", 54.32),
    CommonItem("Hardware", "Door Closers", 125.00),
    CommonItem("Hardware", "Locksets", 85.00),
    CommonItem("Hardware", "Screws", 50.00),
    CommonItem("Doors", "Interior Door", 350.00),
    CommonItem("Doors", "Exterior Door", 650.00),
    CommonItem("Millwork", "Base Trim", 12.50),
    CommonItem("Millwork", "Crown Molding", 18.75),
    CommonItem("Millwork", "Door Casing", 15.00),
    CommonItem("Millwork", "Window Casing", 14.50)]

  /** Ten entries, in three categories, each with a positive unit cost. */
  lemma CatalogueFacts()
    ensures |CommonItems| == 10
    ensures forall i :: 0 <= i < |CommonItems| ==>
      CommonItems[i].unitCost > 0.0 && CommonItems[i].category in {"Hardware", "Doors", "Millwork"}
  {
  }

  /** `handleQuickAdd`'s new item; `stamp` is the clock reading the id is made from. */
  function QuickAddItem(entry: CommonItem, stamp: nat): (r: LineItem)
    ensures r.id == "quick_" + Text.NatToString(stamp)
    ensures r.category == entry.category && r.description == entry.description
    ensures r.quantity == 1.0 && r.unitCost == entry.unitCost
  {
    LineItem("quick_" + Text.NatToString(stamp), entry.category, entry.description, 1.0, entry.unitCost, entry.unitCost)
  }

  /**
   * The supplied total is what `addLineItem` recomputes anyway, and each
   * click appends exactly that one item, raising the grand total by the
   * entry's unit cost.
   */
  lemma QuickAddEffect(e: Estimate, entry: CommonItem, stamp: nat, now: string)
    ensures TotalConsistent(QuickAddItem(entry, stamp))
    ensures Snapshots.WithTotal(QuickAddItem(entry, stamp)) == QuickAddItem(entry, stamp)
    ensures Snapshots.AddLineItem(e, QuickAddItem(entry, stamp), now).lineItems == e.lineItems + [QuickAddItem(entry, stamp)]
    ensures GrandTotal(Snapshots.AddLineItem(e, QuickAddItem(entry, stamp), now).lineItems) == GrandTotal(e.lineItems) + entry.unitCost
  {
    GrandTotalAppend(e.lineItems, QuickAddItem(entry, stamp));
  }
}
