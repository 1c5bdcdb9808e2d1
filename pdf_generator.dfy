/**
 * The downloadable PDF, as the content `generatePDF` writes: the project
 * lines, one table row per line item, the grand total, one allocation table
 * per destination, the three scope lists as bullets and the file name.
 * Fonts, colours and positions on the page are not part of the model.
 */
module PdfGenerator {
  import opened Optional
  import opened EstimateTypes
  import opened Sequences
  import Calculations
  import Text
  import PdfPreview

  /** One row of the line-item table: description, quantity, unit cost and total. */
  datatype TableRow = TableRow(description: string, quantity: real, unitCost: real, total: real)

  function Row(item: LineItem): TableRow {
    TableRow(item.description, item.quantity, item.unitCost, item.total)
  }

  /** `tableData`: one row per line item, in the order of the items; no grouping by category. */
  function TableData(items: seq<LineItem>): (r: seq<TableRow>)
    ensures |r| == |items|
    ensures forall i :: 0 <= i < |r| ==> r[i] == Row(items[i])
  {
    seq(|items|, i requires 0 <= i < |items| => Row(items[i]))
  }

  /** The sum of the printed row totals. */
  function RowTotalSum(rows: seq<TableRow>): real {
    if rows == [] then 0.0 else rows[0].total + RowTotalSum(rows[1..])
  }

  /** The printed grand total is the sum of the printed row totals. */
  lemma {:induction false} RowTotalsAddUp(items: seq<LineItem>)
    ensures RowTotalSum(TableData(items)) == Calculations.GrandTotal(items)
  {
    if items != [] {
      assert TableData(items)[1..] == TableData(items[1..]);
      RowTotalsAddUp(items[1..]);
    }
  }

  /** One row of an allocation table: description, destination, quantity and total. */
  datatype AllocationRow = AllocationRow(description: string, allocatedTo: string, quantity: real, total: real)

  function AllocRow(d: PdfPreview.DescribedAllocation): AllocationRow {
    AllocationRow(d.description, d.allocation.allocatedTo, d.allocation.quantity, d.allocation.total)
  }

  /** `allocData`: one row per allocation of the group, in group order. */
  function AllocData(group: seq<PdfPreview.DescribedAllocation>): (r: seq<AllocationRow>)
    ensures |r| == |group|
    ensures forall i :: 0 <= i < |r| ==> r[i] == AllocRow(group[i])
  {
    seq(|group|, i requires 0 <= i < |group| => AllocRow(group[i]))
  }

  /** A destination heading and the table beneath it. */
  datatype AllocationTable = AllocationTable(location: string, rows: seq<AllocationRow>)

  /** The tables for the listed destinations, in that order. */
  function TablesFor(allocs: seq<Allocation>, items: seq<LineItem>, keys: seq<string>): (r: seq<AllocationTable>)
    ensures |r| == |keys|
    ensures forall j :: 0 <= j < |r| ==> r[j] == AllocationTable(keys[j], AllocData(PdfPreview.GroupAt(allocs, items, keys[j])))
  {
    seq(|keys|, j requires 0 <= j < |keys| => AllocationTable(keys[j], AllocData(PdfPreview.GroupAt(allocs, items, keys[j]))))
  }

  lemma TablesForSnoc(allocs: seq<Allocation>, items: seq<LineItem>, keys: seq<string>, j: nat)
    requires j < |keys|
    ensures TablesFor(allocs, items, keys[..j + 1])
         == TablesFor(allocs, items, keys[..j]) + [AllocationTable(keys[j], AllocData(PdfPreview.GroupAt(allocs, items, keys[j])))]
  {
  }

  /** The allocation section: nothing without allocations, otherwise one table per group. */
  function AllocationTables(e: Estimate): seq<AllocationTable> {
    if |e.allocations| > 0 then TablesFor(e.allocations, e.lineItems, PdfPreview.GroupKeys(e.allocations)) else []
  }

  /** `• item`, one printed line per entry of a scope list. */
  function Bullets(xs: seq<string>): (r: seq<string>)
    ensures |r| == |xs|
    ensures forall i :: 0 <= i < |r| ==> r[i] == "• " + xs[i]
  {
    seq(|xs|, i requires 0 <= i < |xs| => "• " + xs[i])
  }

  /** Reading a printed scope list back: dropping each bullet. */
  function Unbullet(lines: seq<string>): seq<string> {
    seq(|lines|, i requires 0 <= i < |lines| => if |lines[i]| >= 2 then lines[i][2..] else lines[i])
  }

  /** The bullets list exactly the stored entries, in their stored order. */
  lemma BulletsInStoredOrder(xs: seq<string>)
    ensures Unbullet(Bullets(xs)) == xs
  {
    var lines := Bullets(xs);
    forall i | 0 <= i < |xs| ensures Unbullet(lines)[i] == xs[i] {
      assert lines[i] == "• " + xs[i];
      assert lines[i][2..] == xs[i];
    }
  }

  /** `${projectName.replace(/\s+/g, '_')}_Estimate.pdf`. */
  function FileName(projectName: string): string {
    Text.CollapseWhitespace(projectName) + "_Estimate.pdf"
  }

  /** The file name ends in `_Estimate.pdf` after the collapsed project name. */
  lemma FileNameSuffix(projectName: string)
    ensures var name := FileName(projectName);
      |name| >= 13 && name[|name| - 13..] == "_Estimate.pdf" && name[..|name| - 13] == Text.CollapseWhitespace(projectName)
  {
  }

  lemma SuffixHasNoWhitespace()
    ensures Text.NoWhitespace("_Estimate.pdf")
  {
  }

  /** The file name holds no white space at all. */
  lemma FileNameHasNoWhitespace(projectName: string)
    ensures Text.NoWhitespace(FileName(projectName))
  {
    var stem := Text.CollapseWhitespace(projectName);
    Text.CollapseRemovesWhitespace(projectName);
    SuffixHasNoWhitespace();
    var name := stem + "_Estimate.pdf";
    forall i | 0 <= i < |name| ensures !Text.IsWhitespace(name[i]) {
      if i >= |stem| {
        assert name[i] == "_Estimate.pdf"[i - |stem|];
      } else {
        assert name[i] == stem[i];
      }
    }
  }

  /** A project name without white space is kept as it is. */
  lemma FileNameKeepsPlainName(projectName: string)
    requires Text.NoWhitespace(projectName)
    ensures FileName(projectName) == projectName + "_Estimate.pdf"
  {
    Text.CollapseKeepsWord(projectName);
  }

  /**
   * A run of white space after a word becomes one underscore, however long
   * the run and whichever white-space characters it holds.
   */
  lemma FileNameCollapsesRun(word: string, run: string, rest: string)
    requires Text.NoWhitespace(word) && |run| > 0 && Text.AllWhitespace(run)
    requires rest == [] || !Text.IsWhitespace(rest[0])
    ensures FileName(word + run + rest) == word + "_" + Text.CollapseWhitespace(rest) + "_Estimate.pdf"
  {
    Text.CollapseWordRun(word, run, rest);
  }

  /** The document `generatePDF` writes. */
  datatype PdfDocument = PdfDocument(
    projectLines: seq<string>,
    buildings: int,
    units: int,
    rows: seq<TableRow>,
    grandTotal: real,
    allocationTables: seq<AllocationTable>,
    inclusions: seq<string>,
    exclusions: seq<string>,
    deliveryTerms: seq<string>,
    fileName: string)

  /** The labelled project lines with text values; buildings and units are kept as numbers. */
  function ProjectLines(e: Estimate): seq<string> {
    ["Project: " + e.projectName, "Address: " + e.address, "Project Type: " + ProjectTypeName(e.projectType),
     "Client: " + e.client, "Bid Date: " + e.bidDate]
  }

  /** The document's sections, as written when the allocations group without a throw. */
  function Written(e: Estimate): PdfDocument {
    PdfDocument(
      ProjectLines(e), e.buildings, e.units,
      TableData(e.lineItems), Calculations.GrandTotal(e.lineItems),
      AllocationTables(e),
      Bullets(e.scope.inclusions), Bullets(e.scope.exclusions), Bullets(e.scope.deliveryTerms),
      FileName(e.projectName))
  }

  /**
   * What `generatePDF(e)` saves: nothing when the grouping of the
   * allocations throws, since the promise then rejects before `doc.save`;
   * otherwise the document section by section.
   */
  function DocumentOf(e: Estimate): (r: Option<PdfDocument>)
    ensures r.None? <==> exists i :: 0 <= i < |e.allocations| && PdfPreview.Inherited(e.allocations[i].allocatedTo)
  {
    if |e.allocations| > 0 && PdfPreview.GroupingOf(e.allocations, e.lineItems).PushThrows? then None
    else Some(Written(e))
  }

  /**
   * `generatePDF`: builds the sections in page order, grouping the
   * allocations only when there are some and writing one table per group in
   * the order the groups were created; a throw of the grouping rejects the
   * call and nothing is saved.
   */
  method GeneratePdf(e: Estimate) returns (doc: Option<PdfDocument>)
    ensures doc == DocumentOf(e)
  {
    var rows := TableData(e.lineItems);
    var grandTotal := Calculations.GrandTotal(e.lineItems);
    var tables: seq<AllocationTable> := [];
    if |e.allocations| > 0 {
      var grouping := PdfPreview.GroupAllocations(e.allocations, e.lineItems);
      if grouping.PushThrows? {
        return None;
      }
      var keys, grouped := grouping.keys, grouping.groups;
      assert keys == PdfPreview.GroupKeys(e.allocations) && grouped == PdfPreview.GroupMap(e.allocations, e.lineItems);
      var j := 0;
      while j < |keys|
        invariant 0 <= j <= |keys|
        invariant tables == TablesFor(e.allocations, e.lineItems, keys[..j])
      {
        var location := keys[j];
        assert grouped[location] == PdfPreview.GroupAt(e.allocations, e.lineItems, location);
        TablesForSnoc(e.allocations, e.lineItems, keys, j);
        tables := tables + [AllocationTable(location, AllocData(grouped[location]))];
        j := j + 1;
      }
      assert keys[..j] == keys;
    }
    doc := Some(PdfDocument(
      ProjectLines(e), e.buildings, e.units, rows, grandTotal, tables,
      Bullets(e.scope.inclusions), Bullets(e.scope.exclusions), Bullets(e.scope.deliveryTerms),
      FileName(e.projectName)));
  }

  /** The total number of allocation rows across the tables. */
  function RowCount(tables: seq<AllocationTable>): nat {
    if tables == [] then 0 else |tables[0].rows| + RowCount(tables[1..])
  }

  lemma {:induction false} RowCountIsGroupSizes(allocs: seq<Allocation>, items: seq<LineItem>, keys: seq<string>)
    ensures RowCount(TablesFor(allocs, items, keys)) ==
      GroupSizes(PdfPreview.DescribeAll(allocs, items), PdfPreview.LocationOf(), keys)
  {
    if keys != [] {
      assert TablesFor(allocs, items, keys)[1..] == TablesFor(allocs, items, keys[1..]);
      RowCountIsGroupSizes(allocs, items, keys[1..]);
      PdfPreview.GroupAtIsFilter(allocs, items, keys[0]);
    }
  }

  /**
   * When the document is saved, its allocation section is there exactly
   * when there are allocations; it has one table per distinct destination,
   * every row of a table is of that table's destination, and the tables
   * hold exactly as many rows as there are allocations.
   */
  lemma AllocationSection(e: Estimate)
    ensures var d := DocumentOf(e);
      d.Some? ==>
        var tables := d.value.allocationTables;
        && (|tables| > 0 <==> |e.allocations| > 0)
        && (forall j, k :: 0 <= j < k < |tables| ==> tables[j].location != tables[k].location)
        && (forall j :: 0 <= j < |tables| ==> forall r :: r in tables[j].rows ==> r.allocatedTo == tables[j].location)
        && RowCount(tables) == |e.allocations|
  {
    AllocationTablesFacts(e);
  }

  lemma AllocationTablesFacts(e: Estimate)
    ensures |AllocationTables(e)| > 0 <==> |e.allocations| > 0
    ensures forall j, k :: 0 <= j < k < |AllocationTables(e)| ==>
      AllocationTables(e)[j].location != AllocationTables(e)[k].location
    ensures forall j :: 0 <= j < |AllocationTables(e)| ==>
      forall r :: r in AllocationTables(e)[j].rows ==> r.allocatedTo == AllocationTables(e)[j].location
    ensures RowCount(AllocationTables(e)) == |e.allocations|
  {
    var allocs, items := e.allocations, e.lineItems;
    PdfPreview.GroupKeysNonEmpty(allocs);
    PdfPreview.GroupKeysPartition(allocs, items);
    var tables := AllocationTables(e);
    if |allocs| > 0 {
      var keys := PdfPreview.GroupKeys(allocs);
      forall j | 0 <= j < |tables| ensures forall r :: r in tables[j].rows ==> r.allocatedTo == tables[j].location {
        var group := PdfPreview.GroupAt(allocs, items, keys[j]);
        forall r | r in tables[j].rows ensures r.allocatedTo == tables[j].location {
          var m :| 0 <= m < |tables[j].rows| && tables[j].rows[m] == r;
          assert group[m] in group;
        }
      }
      RowCountIsGroupSizes(allocs, items, keys);
    }
  }

  /** Unlike the preview, a saved PDF always has the scope section; its lists hold exactly the stored entries. */
  lemma ScopeSectionAlways(e: Estimate)
    ensures DocumentOf(e).Some? ==>
      && Unbullet(DocumentOf(e).value.inclusions) == e.scope.inclusions
      && Unbullet(DocumentOf(e).value.exclusions) == e.scope.exclusions
      && Unbullet(DocumentOf(e).value.deliveryTerms) == e.scope.deliveryTerms
  {
    BulletsInStoredOrder(e.scope.inclusions);
    BulletsInStoredOrder(e.scope.exclusions);
    BulletsInStoredOrder(e.scope.deliveryTerms);
  }

  /** The saved document's line-item table and grand total. */
  lemma LineItemSection(e: Estimate)
    ensures DocumentOf(e).Some? ==>
      var d := DocumentOf(e).value;
      && |d.rows| == |e.lineItems|
      && (forall i :: 0 <= i < |e.lineItems| ==> d.rows[i].description == e.lineItems[i].description)
      && d.grandTotal == RowTotalSum(d.rows)
  {
    RowTotalsAddUp(e.lineItems);
  }
}
