/** The records the voice parser hands back, which the voice input then merges into the estimate. */
module VoiceTypes {
  import opened Optional
  import opened EstimateTypes

  /** One spoken line item with the parser's confidence in it. */
  datatype VoiceParsedItem = VoiceParsedItem(
    description: string,
    quantity: real,
    unitCost: real,
    confidence: real,
    needsReview: bool)

  /** Spoken project details; every field may be absent and the project type is one of the three. */
  datatype VoiceParsedProjectDetails = VoiceParsedProjectDetails(
    projectName: Option<string>,
    client: Option<string>,
    address: Option<string>,
    projectType: Option<ProjectType>,
    buildings: Option<int>,
    units: Option<int>,
    bidDate: Option<string>)

  /** Spoken scope details: the same optional fields as a scope patch. */
  type VoiceParsedScope = ScopePatch

  /** The `type` tag of a parse result. */
  datatype VoiceResultKind = LineItemsKind | ProjectDetailsKind | ScopeKind | MixedKind

  function KindName(k: VoiceResultKind): string {
    match k
    case LineItemsKind => "lineItems"
    case ProjectDetailsKind => "projectDetails"
    case ScopeKind => "scope"
    case MixedKind => "mixed"
  }

  function ParseKind(s: string): (r: Option<VoiceResultKind>)
    ensures r.Some? <==> s in {"lineItems", "projectDetails", "scope", "mixed"}
    ensures r.Some? ==> KindName(r.value) == s
  {
    if s == "lineItems" then Some(LineItemsKind)
    else if s == "projectDetails" then Some(ProjectDetailsKind)
    else if s == "scope" then Some(ScopeKind)
    else if s == "mixed" then Some(MixedKind)
    else None
  }

  /** The tag is exactly one of the four literals. */
  lemma KindRoundTrip(k: VoiceResultKind)
    ensures ParseKind(KindName(k)) == Some(k)
  {
  }

  /** A parse result: `success` is always there, every fragment and the error are optional. */
  datatype VoiceParseResult = VoiceParseResult(
    kind: VoiceResultKind,
    items: Option<seq<VoiceParsedItem>>,
    projectDetails: Option<VoiceParsedProjectDetails>,
    scope: Option<VoiceParsedScope>,
    success: bool,
    error: Option<string>)

  /** Project details as the estimate patch `updateEstimate` receives: the spoken fields and nothing else. */
  function DetailsPatch(d: VoiceParsedProjectDetails): (r: EstimatePatch)
    ensures r.projectName == d.projectName && r.client == d.client && r.address == d.address
    ensures r.projectType == d.projectType && r.buildings == d.buildings && r.units == d.units
    ensures r.bidDate == d.bidDate
    ensures r.id.None? && r.lineItems.None? && r.allocations.None? && r.scope.None?
    ensures r.status.None? && r.createdAt.None? && r.updatedAt.None?
  {
    EstimatePatch(
      None, d.projectName, d.address, d.client, d.bidDate, d.projectType, d.buildings, d.units,
      None, None, None, None, None, None)
  }
}
