/**
 * The merge step of the voice input: a parse result is applied to the
 * current estimate fragment by fragment (items, then project details, then
 * scope) while a success message names each applied fragment.
 */
module VoiceInput {
  import opened Optional
  import opened EstimateTypes
  import opened VoiceTypes
  import Calculations
  import Text
  import Snapshots
  import EstimateContext

  /** What the user is shown afterwards: the success message or an error. */
  datatype Outcome = Reported(message: string) | Failed(error: string)

  const NoInformation: string :=
    "No relevant information found. Try: \"Add 10 bags of concrete at $15 each\" or \"This is for ABC Construction\""

  const ParseFailed: string := "Failed to parse voice input. Try speaking more clearly."

  /** One parsed item as a line item; confidence and review flag are dropped. */
  function VoiceLineItem(item: VoiceParsedItem, id: string): (r: LineItem)
    ensures r.id == id && r.category == "Voice Input"
    ensures r.description == item.description && r.quantity == item.quantity && r.unitCost == item.unitCost
    ensures Calculations.TotalConsistent(r)
  {
    LineItem(id, "Voice Input", item.description, item.quantity, item.unitCost, item.quantity * item.unitCost)
  }

  /** `result.items.map(...)`; `idFor(i)` is the id generated for the `i`-th item. */
  function VoiceLineItems(items: seq<VoiceParsedItem>, idFor: nat -> string): (r: seq<LineItem>)
    ensures |r| == |items|
    ensures forall i :: 0 <= i < |r| ==> r[i] == VoiceLineItem(items[i], idFor(i))
  {
    seq(|items|, i requires 0 <= i < |items| => VoiceLineItem(items[i], idFor(i)))
  }

  predicate HasItems(r: VoiceParseResult) {
    r.items.Some? && |r.items.value| > 0
  }

  function ItemsFragment(r: VoiceParseResult): string {
    if HasItems(r) then "Added " + Text.NatToString(|r.items.value|) + " line item(s). " else ""
  }

  function DetailsFragment(r: VoiceParseResult): string {
    if r.projectDetails.Some? then "Updated project details. " else ""
  }

  function ScopeFragment(r: VoiceParseResult): string {
    if r.scope.Some? then "Updated scope details. " else ""
  }

  /** `successMessage` before trimming: the fragments in the order items, details, scope. */
  function RawMessage(r: VoiceParseResult): string {
    ItemsFragment(r) + DetailsFragment(r) + ScopeFragment(r)
  }

  /** The items step: one `updateEstimate` appending all new items, only when an estimate is loaded. */
  function ApplyItems(e: Option<Estimate>, r: VoiceParseResult, idFor: nat -> string, now: string): Option<Estimate> {
    if HasItems(r) && e.Some? then
      Some(Snapshots.MergeEstimate(e.value, NoChanges.(lineItems := Some(e.value.lineItems + VoiceLineItems(r.items.value, idFor))), now))
    else e
  }

  /** The details step: `updateEstimate(result.projectDetails)`. */
  function ApplyDetails(e: Option<Estimate>, r: VoiceParseResult, now: string): Option<Estimate> {
    if r.projectDetails.Some? && e.Some? then Some(Snapshots.MergeEstimate(e.value, DetailsPatch(r.projectDetails.value), now)) else e
  }

  /** The scope step: `updateScope(result.scope)`. */
  function ApplyScope(e: Option<Estimate>, r: VoiceParseResult, now: string): Option<Estimate> {
    if r.scope.Some? && e.Some? then Some(Snapshots.UpdateScope(e.value, r.scope.value, now)) else e
  }

  /** The estimate after the merge branch, the steps applied one after the other. */
  function Merged(e: Option<Estimate>, r: VoiceParseResult, idFor: nat -> string, now: string): Option<Estimate> {
    if r.success then ApplyScope(ApplyDetails(ApplyItems(e, r, idFor, now), r, now), r, now) else e
  }

  /** What is shown: the trimmed message, the no-information error, or the parser's error (or a default). */
  function OutcomeOf(r: VoiceParseResult): Outcome {
    if !r.success then Failed(if r.error.None? || r.error.value == "" then ParseFailed else r.error.value)
    else if RawMessage(r) != "" then Reported(Text.Trim(RawMessage(r)))
    else Failed(NoInformation)
  }

  /** The merge branch of `processRecording`, against the provider. */
  method ProcessResult(p: EstimateContext.EstimateProvider, r: VoiceParseResult, idFor: nat -> string, now: string)
    returns (outcome: Outcome)
    modifies p
    ensures p.estimate == Merged(old(p.estimate), r, idFor, now)
    ensures outcome == OutcomeOf(r)
  {
    if r.success {
      ghost var e0 := p.estimate;
      var message := "";
      if r.items.Some? && |r.items.value| > 0 {
        if p.estimate.Some? {
          var newItems := VoiceLineItems(r.items.value, idFor);
          p.UpdateEstimate(NoChanges.(lineItems := Some(p.estimate.value.lineItems + newItems)), now);
        }
        message := message + "Added " + Text.NatToString(|r.items.value|) + " line item(s). ";
      }
      assert p.estimate == ApplyItems(e0, r, idFor, now);
      assert message == ItemsFragment(r);
      ghost var e1 := p.estimate;
      if r.projectDetails.Some? {
        p.UpdateEstimate(DetailsPatch(r.projectDetails.value), now);
        message := message + "Updated project details. ";
      }
      assert p.estimate == ApplyDetails(e1, r, now);
      assert message == ItemsFragment(r) + DetailsFragment(r);
      ghost var e2 := p.estimate;
      if r.scope.Some? {
        p.UpdateScope(r.scope.value, now);
        message := message + "Updated scope details. ";
      }
      assert p.estimate == ApplyScope(e2, r, now);
      assert message == RawMessage(r);
      if message != "" {
        outcome := Reported(Text.Trim(message));
      } else {
        outcome := Failed(NoInformation);
      }
    } else {
      outcome := Failed(if r.error.None? || r.error.value == "" then ParseFailed else r.error.value);
    }
  }

  /** A failed parse changes nothing and shows the parser's error, or the default when it gave none or an empty one. */
  lemma FailureChangesNothing(e: Option<Estimate>, r: VoiceParseResult, idFor: nat -> string, now: string)
    requires !r.success
    ensures Merged(e, r, idFor, now) == e
    ensures OutcomeOf(r).Failed?
    ensures r.error.Some? && r.error.value != "" ==> OutcomeOf(r).error == r.error.value
    ensures r.error.None? || r.error.value == "" ==> OutcomeOf(r).error == ParseFailed
  {
  }

  /** A successful parse with no fragment changes nothing and shows the no-information error; with one it reports. */
  lemma NothingFoundChangesNothing(e: Option<Estimate>, r: VoiceParseResult, idFor: nat -> string, now: string)
    requires r.success
    ensures !HasItems(r) && r.projectDetails.None? && r.scope.None? ==>
      Merged(e, r, idFor, now) == e && OutcomeOf(r) == Failed(NoInformation)
    ensures HasItems(r) || r.projectDetails.Some? || r.scope.Some? ==> OutcomeOf(r).Reported?
  {
    if HasItems(r) {
      assert ItemsFragment(r)[0] == 'A';
    } else if r.projectDetails.Some? {
      assert DetailsFragment(r)[0] == 'U';
    } else if r.scope.Some? {
      assert ScopeFragment(r)[0] == 'U';
    }
  }

  /**
   * With an estimate loaded, the parsed items are appended in order after
   * the existing ones, each as a "Voice Input" item with its own total; the
   * later steps never touch line items or allocations.
   */
  lemma ItemsAppended(e: Estimate, r: VoiceParseResult, idFor: nat -> string, now: string)
    requires r.success && HasItems(r)
    ensures Merged(Some(e), r, idFor, now).Some?
    ensures Merged(Some(e), r, idFor, now).value.lineItems == e.lineItems + VoiceLineItems(r.items.value, idFor)
    ensures Merged(Some(e), r, idFor, now).value.allocations == e.allocations
    ensures Calculations.TotalsConsistent(e.lineItems) ==>
      Calculations.TotalsConsistent(Merged(Some(e), r, idFor, now).value.lineItems)
  {
    var added := e.lineItems + VoiceLineItems(r.items.value, idFor);
    assert forall i :: |e.lineItems| <= i < |added| ==> added[i] == VoiceLineItems(r.items.value, idFor)[i - |e.lineItems|];
  }

  /**
   * Spoken details overwrite exactly the spoken fields and spoken scope
   * fields replace exactly theirs; the id, the creation time and the status
   * stay.
   */
  lemma DetailsAndScopeMerged(e: Estimate, r: VoiceParseResult, idFor: nat -> string, now: string)
    requires r.success
    ensures var m := Merged(Some(e), r, idFor, now).value;
      && m.id == e.id && m.createdAt == e.createdAt && m.status == e.status
      && (r.projectDetails.Some? ==>
            m.projectName == r.projectDetails.value.projectName.GetOr(e.projectName)
            && m.client == r.projectDetails.value.client.GetOr(e.client)
            && m.address == r.projectDetails.value.address.GetOr(e.address)
            && m.projectType == r.projectDetails.value.projectType.GetOr(e.projectType)
            && m.buildings == r.projectDetails.value.buildings.GetOr(e.buildings)
            && m.units == r.projectDetails.value.units.GetOr(e.units)
            && m.bidDate == r.projectDetails.value.bidDate.GetOr(e.bidDate))
      && (r.projectDetails.None? ==>
            m.projectName == e.projectName && m.client == e.client && m.address == e.address
            && m.projectType == e.projectType && m.buildings == e.buildings && m.units == e.units && m.bidDate == e.bidDate)
      && m.scope == (if r.scope.Some? then Snapshots.MergeScope(e.scope, r.scope.value) else e.scope)
      && (r.scope.Some? || r.projectDetails.Some? || HasItems(r) ==> m.updatedAt == now)
  {
    var e1 := ApplyItems(Some(e), r, idFor, now).value;
    assert e1 == if HasItems(r) then e.(lineItems := e.lineItems + VoiceLineItems(r.items.value, idFor), updatedAt := now) else e;
    var e2 := ApplyDetails(Some(e1), r, now).value;
    assert r.projectDetails.None? ==> e2 == e1;
    assert e2.scope == e.scope && e2.id == e.id && e2.createdAt == e.createdAt && e2.status == e.status;
  }

  /** A non-empty message fragment: starts with a non-space and ends in ". ". */
  predicate FragmentShaped(s: string) {
    |s| >= 2 && !Text.IsWhitespace(s[0]) && s[|s| - 1] == ' ' && s[|s| - 2] == '.'
  }

  lemma ShapedConcat(a: string, b: string)
    requires a == "" || FragmentShaped(a)
    requires b == "" || FragmentShaped(b)
    ensures a + b == "" || FragmentShaped(a + b)
  {
    if a != "" && b != "" {
      assert (a + b)[0] == a[0];
      assert (a + b)[|a + b| - 1] == b[|b| - 1];
      assert (a + b)[|a + b| - 2] == b[|b| - 2];
    } else if a == "" {
      assert a + b == b;
    } else {
      assert a + b == a;
    }
  }

  lemma FragmentsShaped(r: VoiceParseResult)
    ensures ItemsFragment(r) == "" || FragmentShaped(ItemsFragment(r))
    ensures DetailsFragment(r) == "" || FragmentShaped(DetailsFragment(r))
    ensures ScopeFragment(r) == "" || FragmentShaped(ScopeFragment(r))
  {
    if HasItems(r) {
      var f := ItemsFragment(r);
      assert f[0] == 'A' && f[|f| - 1] == ' ' && f[|f| - 2] == '.';
    }
  }

  /**
   * The reported message is the fragments in the order items, project
   * details, scope, with only the final space trimmed away.
   */
  lemma MessageNamesFragments(r: VoiceParseResult)
    requires r.success && RawMessage(r) != ""
    ensures OutcomeOf(r) == Reported(RawMessage(r)[..|RawMessage(r)| - 1])
    ensures RawMessage(r) == ItemsFragment(r) + DetailsFragment(r) + ScopeFragment(r)
  {
    var a, b, c := ItemsFragment(r), DetailsFragment(r), ScopeFragment(r);
    var raw := RawMessage(r);
    assert raw == a + b + c;
    FragmentsShaped(r);
    ShapedConcat(a, b);
    ShapedConcat(a + b, c);
    assert FragmentShaped(raw);
    Text.TrimOneTrailingSpace(raw);
  }

  /** A prefix of the first part, shorter than it, survives dropping the last character of the whole. */
  lemma KeptThroughTrim(p: string, a: string, b: string, c: string)
    requires p <= a && |a| > |p|
    ensures p <= (a + b + c)[..|a + b + c| - 1]
  {
    assert (a + b + c)[..|a + b + c| - 1][..|p|] == a[..|p|];
  }

  /** The items are counted in the message even when no estimate is loaded to receive them. */
  lemma ItemsReportedWithoutEstimate(r: VoiceParseResult, idFor: nat -> string, now: string)
    requires r.success && HasItems(r)
    ensures Merged(None, r, idFor, now) == None
    ensures OutcomeOf(r).Reported?
    ensures "Added " <= OutcomeOf(r).message
  {
    var a := ItemsFragment(r);
    assert a == "Added " + Text.NatToString(|r.items.value|) + " line item(s). ";
    KeptThroughTrim("Added ", a, DetailsFragment(r), ScopeFragment(r));
    MessageNamesFragments(r);
  }
}
