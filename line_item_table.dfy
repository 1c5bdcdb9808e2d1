/**
 * The line-item table: the default item its add button creates, the
 * category groups with subtotals it displays, and the cell edits it forwards
 * to `updateLineItem`.
 */
module LineItemTable {
  import opened Optional
  import opened EstimateTypes
  import opened Sequences
  import opened Calculations
  import Text
  import Snapshots

  /** `handleAddItem`'s new item; `stamp` is the clock reading the id is made from. */
  function NewLineItem(stamp: nat): (r: LineItem)
    ensures r.id == "item_" + Text.NatToString(stamp)
    ensures r.category == "General" && r.description == ""
    ensures r.quantity == 1.0 && r.unitCost == 0.0 && r.total == 0.0
  {
    LineItem("item_" + Text.NatToString(stamp), "General", "", 1.0, 0.0, 0.0)
  }

  /** The default item's total already agrees with the recomputation, so adding it adds nothing to the grand total. */
  lemma NewLineItemAdded(e: Estimate, stamp: nat, now: string)
    ensures Snapshots.WithTotal(NewLineItem(stamp)) == NewLineItem(stamp)
    ensures Snapshots.AddLineItem(e, NewLineItem(stamp), now).lineItems == e.lineItems + [NewLineItem(stamp)]
    ensures GrandTotal(Snapshots.AddLineItem(e, NewLineItem(stamp), now).lineItems) == GrandTotal(e.lineItems)
  {
    GrandTotalAppend(e.lineItems, NewLineItem(stamp));
  }

  /** `lineItems.map(item => item.category)`. */
  function CategoryNames(items: seq<LineItem>): (r: seq<string>)
    ensures |r| == |items|
    ensures forall i :: 0 <= i < |r| ==> r[i] == items[i].category
  {
    if items == [] then [] else [items[0].category] + CategoryNames(items[1..])
  }

  /** `Array.from(new Set(...))`: each category once, in first-seen order. */
  function Categories(items: seq<LineItem>): seq<string> {
    Distinct(CategoryNames(items))
  }

  /** Every item's category is listed, and nothing else is. */
  lemma CategoriesCover(items: seq<LineItem>)
    ensures forall i :: 0 <= i < |items| ==> items[i].category in Categories(items)
    ensures forall c :: c in Categories(items) ==> exists i :: 0 <= i < |items| && items[i].category == c
  {
    var names := CategoryNames(items);
    var cats := Distinct(names);
    forall i | 0 <= i < |items| ensures items[i].category in cats {
      assert names[i] == items[i].category;
    }
    forall c | c in cats ensures exists i :: 0 <= i < |items| && items[i].category == c {
      var k :| 0 <= k < |cats| && cats[k] == c;
      assert c in names;
      var i :| 0 <= i < |names| && names[i] == c;
      assert items[i].category == c;
    }
  }

  /** No category is listed twice, and one seen earlier in the items is listed earlier. */
  lemma CategoriesFirstSeen(items: seq<LineItem>)
    ensures forall i, j :: 0 <= i < j < |Categories(items)| ==> Categories(items)[i] != Categories(items)[j]
    ensures forall i, j :: 0 <= i < j < |Categories(items)| ==>
      IndexOf(CategoryNames(items), Categories(items)[i]) < IndexOf(CategoryNames(items), Categories(items)[j])
  {
    DistinctFirstSeenOrder(CategoryNames(items));
  }

  /** One display group: a category, its items and their subtotal. */
  datatype CategoryGroup = CategoryGroup(category: string, items: seq<LineItem>, subtotal: real)

  /** The group of one category: `items.filter(...)` and the sum of their totals. */
  function GroupOf(items: seq<LineItem>, category: string): CategoryGroup {
    CategoryGroup(category, Filter(items, InCategory(category)), CategorySubtotal(items, category))
  }

  /** `categories.map(cat => ...)`. */
  function GroupsFor(items: seq<LineItem>, categories: seq<string>): (r: seq<CategoryGroup>)
    ensures |r| == |categories|
    ensures forall g :: 0 <= g < |r| ==> r[g] == GroupOf(items, categories[g])
  {
    if categories == [] then [] else [GroupOf(items, categories[0])] + GroupsFor(items, categories[1..])
  }

  /** `categoriesWithSubtotals`. */
  function CategoriesWithSubtotals(items: seq<LineItem>): seq<CategoryGroup> {
    GroupsFor(items, Categories(items))
  }

  /** The sum of the groups' subtotals. */
  function SubtotalSum(groups: seq<CategoryGroup>): real {
    if groups == [] then 0.0 else groups[0].subtotal + SubtotalSum(groups[1..])
  }

  lemma {:induction false} SubtotalSumIsSumOfSubtotals(items: seq<LineItem>, categories: seq<string>)
    ensures SubtotalSum(GroupsFor(items, categories)) == SumOfSubtotals(items, categories)
  {
    if categories != [] {
      var r := GroupsFor(items, categories);
      assert r[1..] == GroupsFor(items, categories[1..]);
      SubtotalSumIsSumOfSubtotals(items, categories[1..]);
    }
  }

  /** An item sits in a group exactly when the group is of the item's category. */
  lemma GroupMembership(items: seq<LineItem>, categories: seq<string>, g: nat, item: LineItem)
    requires g < |categories| && item in items
    ensures item in GroupsFor(items, categories)[g].items <==> GroupsFor(items, categories)[g].category == item.category
  {
    var group := GroupsFor(items, categories)[g];
    assert group == GroupOf(items, categories[g]);
    if group.category == item.category {
      var i :| 0 <= i < |items| && items[i] == item;
      assert InCategory(categories[g])(items[i]);
    }
  }

  /** Every item has a group of its category, and no two groups share a category. */
  lemma GroupsCoverItems(items: seq<LineItem>)
    ensures var groups := CategoriesWithSubtotals(items);
      && (forall i :: 0 <= i < |items| ==> exists g :: 0 <= g < |groups| && groups[g].category == items[i].category)
      && (forall g, h :: 0 <= g < h < |groups| ==> groups[g].category != groups[h].category)
  {
    var cats := Categories(items);
    var groups := CategoriesWithSubtotals(items);
    CategoriesCover(items);
    CategoriesFirstSeen(items);
    assert forall g :: 0 <= g < |groups| ==> groups[g].category == cats[g];
    forall i | 0 <= i < |items| ensures exists g :: 0 <= g < |groups| && groups[g].category == items[i].category {
      var g :| 0 <= g < |cats| && cats[g] == items[i].category;
      assert groups[g].category == cats[g];
    }
  }

  /**
   * The groups partition the items: an item sits in a group exactly when the
   * group is of its category, every item has exactly one such group, and the
   * subtotals add up to the grand total.
   */
  lemma GroupsPartition(items: seq<LineItem>)
    ensures var groups := CategoriesWithSubtotals(items);
      && (forall g, i :: 0 <= g < |groups| && 0 <= i < |items| ==>
            (items[i] in groups[g].items <==> groups[g].category == items[i].category))
      && (forall i :: 0 <= i < |items| ==> exists g :: 0 <= g < |groups| && groups[g].category == items[i].category)
      && (forall g, h :: 0 <= g < h < |groups| ==> groups[g].category != groups[h].category)
      && SubtotalSum(groups) == GrandTotal(items)
  {
    var cats := Categories(items);
    var groups := CategoriesWithSubtotals(items);
    forall g, i | 0 <= g < |groups| && 0 <= i < |items|
      ensures items[i] in groups[g].items <==> groups[g].category == items[i].category
    {
      GroupMembership(items, cats, g, items[i]);
    }
    GroupsCoverItems(items);
    CategoriesCover(items);
    CategoriesFirstSeen(items);
    GrandTotalIsSumOfSubtotals(items, cats);
    SubtotalSumIsSumOfSubtotals(items, cats);
  }

  /** The table cells that can be edited. */
  datatype EditableField = Description | Category | Quantity | UnitCost

  /**
   * `parseFloat(value) || 0`: `parsed` is what `parseFloat` gives, `None`
   * standing for NaN; NaN and zero both become 0.
   */
  function AmountOrZero(parsed: Option<real>): (r: real)
    ensures parsed.Some? && parsed.value != 0.0 ==> r == parsed.value
    ensures r == 0.0 <==> parsed.None? || parsed.value == 0.0
  {
    if parsed.None? || parsed.value == 0.0 then 0.0 else parsed.value
  }

  /** The patch `{ [field]: newValue }` a cell edit produces from the raw input and its parse. */
  function CellEdit(field: EditableField, input: string, parsed: Option<real>): (r: LineItemPatch)
    ensures r.id.None? && r.total.None?
  {
    match field
    case Description => NoLineItemChanges.(description := Some(input))
    case Category => NoLineItemChanges.(category := Some(input))
    case Quantity => NoLineItemChanges.(quantity := Some(AmountOrZero(parsed)))
    case UnitCost => NoLineItemChanges.(unitCost := Some(AmountOrZero(parsed)))
  }

  /** `handleFieldChange`: the edit goes through `updateLineItem`. */
  function HandleFieldChange(e: Estimate, id: string, field: EditableField, input: string, parsed: Option<real>, now: string): Estimate {
    Snapshots.UpdateLineItem(e, id, CellEdit(field, input, parsed), now)
  }

  /**
   * A cell edit changes the edited field of the items with that id (an
   * amount that does not parse becomes 0), re-totals them, and leaves every
   * other item, and every stored total's consistency, as it was.
   */
  lemma FieldChangeEffect(e: Estimate, id: string, field: EditableField, input: string, parsed: Option<real>, now: string)
    requires TotalsConsistent(e.lineItems)
    ensures var r := HandleFieldChange(e, id, field, input, parsed, now).lineItems;
      && |r| == |e.lineItems| && TotalsConsistent(r)
      && (forall i :: 0 <= i < |r| && e.lineItems[i].id != id ==> r[i] == e.lineItems[i])
      && (forall i :: 0 <= i < |r| && e.lineItems[i].id == id ==>
            r[i].id == id
            && r[i].description == (if field == Description then input else e.lineItems[i].description)
            && r[i].category == (if field == Category then input else e.lineItems[i].category)
            && r[i].quantity == (if field == Quantity then AmountOrZero(parsed) else e.lineItems[i].quantity)
            && r[i].unitCost == (if field == UnitCost then AmountOrZero(parsed) else e.lineItems[i].unitCost))
  {
    Snapshots.UpdateLineItemKeepsTotals(e, id, CellEdit(field, input, parsed), now);
  }
}
