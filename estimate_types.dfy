/**
 * The estimate aggregate: an Estimate owns its line items, the allocations of
 * those items to buildings, units and areas, and its scope text. The `*Patch`
 * records are TypeScript's `Partial<…>` of each record: every field optional,
 * an absent field meaning "not supplied".
 */
module EstimateTypes {
  import opened Optional

  datatype ProjectType = MultiFamily | Townhome | CommercialTI

  datatype EstimateStatus = Draft | Sent | Archived

  /** One priced row. `total` is derived from quantity and unitCost by the mutations. */
  datatype LineItem = LineItem(
    id: string,
    category: string,
    description: string,
    quantity: real,
    unitCost: real,
    total: real)

  /** A share of a line item's quantity assigned to a destination; it names its line item only by id. */
  datatype Allocation = Allocation(
    id: string,
    lineItemId: string,
    allocatedTo: string,
    quantity: real,
    total: real)

  datatype ScopeDetails = ScopeDetails(
    inclusions: seq<string>,
    exclusions: seq<string>,
    deliveryTerms: seq<string>,
    comments: string)

  datatype Estimate = Estimate(
    id: string,
    projectName: string,
    address: string,
    client: string,
    bidDate: string,
    projectType: ProjectType,
    buildings: int,
    units: int,
    lineItems: seq<LineItem>,
    allocations: seq<Allocation>,
    scope: ScopeDetails,
    status: EstimateStatus,
    createdAt: string,
    updatedAt: string)

  datatype LineItemPatch = LineItemPatch(
    id: Option<string>,
    category: Option<string>,
    description: Option<string>,
    quantity: Option<real>,
    unitCost: Option<real>,
    total: Option<real>)

  datatype AllocationPatch = AllocationPatch(
    id: Option<string>,
    lineItemId: Option<string>,
    allocatedTo: Option<string>,
    quantity: Option<real>,
    total: Option<real>)

  datatype ScopePatch = ScopePatch(
    inclusions: Option<seq<string>>,
    exclusions: Option<seq<string>>,
    deliveryTerms: Option<seq<string>>,
    comments: Option<string>)

  datatype EstimatePatch = EstimatePatch(
    id: Option<string>,
    projectName: Option<string>,
    address: Option<string>,
    client: Option<string>,
    bidDate: Option<string>,
    projectType: Option<ProjectType>,
    buildings: Option<int>,
    units: Option<int>,
    lineItems: Option<seq<LineItem>>,
    allocations: Option<seq<Allocation>>,
    scope: Option<ScopeDetails>,
    status: Option<EstimateStatus>,
    createdAt: Option<string>,
    updatedAt: Option<string>)

  const NoLineItemChanges := LineItemPatch(None, None, None, None, None, None)
  const NoAllocationChanges := AllocationPatch(None, None, None, None, None)
  const NoScopeChanges := ScopePatch(None, None, None, None)
  const NoChanges := EstimatePatch(None, None, None, None, None, None, None, None, None, None, None, None, None, None)

  /** An estimate seen as a `Partial<Estimate>` in which every field is present. */
  function AsPatch(e: Estimate): EstimatePatch {
    EstimatePatch(
      Some(e.id), Some(e.projectName), Some(e.address), Some(e.client), Some(e.bidDate),
      Some(e.projectType), Some(e.buildings), Some(e.units), Some(e.lineItems),
      Some(e.allocations), Some(e.scope), Some(e.status), Some(e.createdAt), Some(e.updatedAt))
  }

  /** The string literal each project type stands for. */
  function ProjectTypeName(t: ProjectType): string {
    match t
    case MultiFamily => "Multi-Family"
    case Townhome => "Townhome"
    case CommercialTI => "Commercial TI"
  }

  /** Reads a project-type literal; anything outside the union is rejected. */
  function ParseProjectType(s: string): (r: Option<ProjectType>)
    ensures r.Some? <==> s in {"Multi-Family", "Townhome", "Commercial TI"}
    ensures r.Some? ==> ProjectTypeName(r.value) == s
  {
    if s == "Multi-Family" then Some(MultiFamily)
    else if s == "Townhome" then Some(Townhome)
    else if s == "Commercial TI" then Some(CommercialTI)
    else None
  }

  /** A project type is exactly one of the three literals, and each literal names one type. */
  lemma ProjectTypeRoundTrip(t: ProjectType)
    ensures ParseProjectType(ProjectTypeName(t)) == Some(t)
  {
  }

  function StatusName(s: EstimateStatus): string {
    match s
    case Draft => "draft"
    case Sent => "sent"
    case Archived => "archived"
  }

  function ParseStatus(s: string): (r: Option<EstimateStatus>)
    ensures r.Some? <==> s in {"draft", "sent", "archived"}
    ensures r.Some? ==> StatusName(r.value) == s
  {
    if s == "draft" then Some(Draft)
    else if s == "sent" then Some(Sent)
    else if s == "archived" then Some(Archived)
    else None
  }

  lemma StatusRoundTrip(s: EstimateStatus)
    ensures ParseStatus(StatusName(s)) == Some(s)
  {
  }

  function ItemHasId(id: string): LineItem -> bool {
    (item: LineItem) => item.id == id
  }

  /** At least one of the three scope lists has an entry. */
  predicate ScopeFilled(s: ScopeDetails) {
    |s.inclusions| > 0 || |s.exclusions| > 0 || |s.deliveryTerms| > 0
  }

  /** No two line items share an id. */
  predicate DistinctLineItemIds(items: seq<LineItem>) {
    forall i, j :: 0 <= i < j < |items| ==> items[i].id != items[j].id
  }

  /** No two allocations share an id. */
  predicate DistinctAllocationIds(allocs: seq<Allocation>) {
    forall i, j :: 0 <= i < j < |allocs| ==> allocs[i].id != allocs[j].id
  }
}
