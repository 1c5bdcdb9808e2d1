/**
 * Validation of a (possibly partial) estimate: seven rules checked in a
 * fixed order, each contributing one error, and the completeness test built
 * on them.
 */
module Validation {
  import opened Optional
  import opened EstimateTypes
  import Calculations
  import Text

  /** The seven validated fields, in the order the validator checks them. */
  datatype Field = ProjectName | Client | Address | BidDate | ProjectTypeField | Buildings | Units

  /** One reported problem: the field it concerns, with that field's key and message. */
  datatype ValidationError = ValidationError(field: Field) {
    function Key(): string {
      match field
      case ProjectName => "projectName"
      case Client => "client"
      case Address => "address"
      case BidDate => "bidDate"
      case ProjectTypeField => "projectType"
      case Buildings => "buildings"
      case Units => "units"
    }

    function Message(): string {
      match field
      case ProjectName => "Project name is required"
      case Client => "Client is required"
      case Address => "Address is required"
      case BidDate => "Bid date is required"
      case ProjectTypeField => "Project type is required"
      case Buildings => "Buildings must be at least 1"
      case Units => "Units must be at least 1"
    }
  }

  /** `!x?.trim()`: absent, empty or only white space. */
  predicate Blank(x: Option<string>) {
    x.None? || Text.AllWhitespace(x.value)
  }

  /** `Blank` is exactly "absent, or trims to the empty string". */
  lemma BlankMeansTrimsToEmpty(x: Option<string>)
    ensures Blank(x) <==> x.None? || Text.Trim(x.value) == ""
  {
  }

  /** `!x` on a string: absent or empty. */
  predicate Missing(x: Option<string>) {
    x.None? || x.value == ""
  }

  /** `x && x < 1`: present, non-zero and below one, so 0 and absence both pass. */
  predicate BelowOne(x: Option<int>) {
    x.Some? && x.value != 0 && x.value < 1
  }

  /** Where each rule stands in the validator's order. */
  function Ordinal(f: Field): (n: nat)
    ensures n < 7
  {
    match f
    case ProjectName => 0
    case Client => 1
    case Address => 2
    case BidDate => 3
    case ProjectTypeField => 4
    case Buildings => 5
    case Units => 6
  }

  function FieldAt(k: nat): (f: Field)
    requires k < 7
    ensures Ordinal(f) == k
  {
    [ProjectName, Client, Address, BidDate, ProjectTypeField, Buildings, Units][k]
  }

  /** Whether the rule for `field` fires on `p`. */
  predicate Violates(p: EstimatePatch, field: Field) {
    match field
    case ProjectName => Blank(p.projectName)
    case Client => Blank(p.client)
    case Address => Blank(p.address)
    case BidDate => Missing(p.bidDate)
    case ProjectTypeField => p.projectType.None?
    case Buildings => BelowOne(p.buildings)
    case Units => BelowOne(p.units)
  }

  /** The error of one rule, if it fires. */
  function Check(p: EstimatePatch, f: Field): seq<ValidationError> {
    if Violates(p, f) then [ValidationError(f)] else []
  }

  /** The errors of the first `k` rules, checked in order. */
  function ErrorsUpTo(p: EstimatePatch, k: nat): seq<ValidationError>
    requires k <= 7
  {
    if k == 0 then [] else ErrorsUpTo(p, k - 1) + Check(p, FieldAt(k - 1))
  }

  /** Errors drawn from the first `k` rules, at most one per rule, each for a rule that fires, in rule order. */
  predicate SoundUpTo(p: EstimatePatch, errors: seq<ValidationError>, k: nat) {
    |errors| <= k
    && (forall i :: 0 <= i < |errors| ==> Ordinal(errors[i].field) < k && Violates(p, errors[i].field))
    && (forall i, j :: 0 <= i < j < |errors| ==> Ordinal(errors[i].field) < Ordinal(errors[j].field))
  }

  /** Every rule among the first `k` that fires has its error in the list. */
  predicate CompleteUpTo(p: EstimatePatch, errors: seq<ValidationError>, k: nat) {
    forall f: Field :: Ordinal(f) < k && Violates(p, f) ==> ValidationError(f) in errors
  }

  /** Among the first `k` rules: exactly those that fire, each once, in rule order. */
  lemma {:induction false} ErrorsUpToSpec(p: EstimatePatch, k: nat)
    requires k <= 7
    ensures SoundUpTo(p, ErrorsUpTo(p, k), k)
    ensures CompleteUpTo(p, ErrorsUpTo(p, k), k)
  {
    if k > 0 {
      ErrorsUpToSpec(p, k - 1);
      var prev := ErrorsUpTo(p, k - 1);
      var f := FieldAt(k - 1);
      if Violates(p, f) {
        assert ErrorsUpTo(p, k) == prev + [ValidationError(f)];
        PushSound(p, prev, ValidationError(f), k);
        PushComplete(p, prev, ValidationError(f), k);
      } else {
        assert ErrorsUpTo(p, k) == prev;
        SkipSound(p, prev, k);
        assert CompleteUpTo(p, prev, k) by {
          forall g: Field | Ordinal(g) < k && Violates(p, g) ensures ValidationError(g) in prev {
            assert Ordinal(g) != k - 1;
          }
        }
      }
    }
  }

  lemma PushSound(p: EstimatePatch, prev: seq<ValidationError>, e: ValidationError, k: nat)
    requires k > 0 && SoundUpTo(p, prev, k - 1)
    requires Ordinal(e.field) == k - 1 && Violates(p, e.field)
    ensures SoundUpTo(p, prev + [e], k)
  {
    var r := prev + [e];
    assert forall i :: 0 <= i < |prev| ==> r[i] == prev[i];
  }

  lemma PushComplete(p: EstimatePatch, prev: seq<ValidationError>, e: ValidationError, k: nat)
    requires k > 0 && CompleteUpTo(p, prev, k - 1)
    requires Ordinal(e.field) == k - 1
    ensures CompleteUpTo(p, prev + [e], k)
  {
    forall g: Field | Ordinal(g) < k && Violates(p, g) ensures ValidationError(g) in prev + [e] {
      if Ordinal(g) == k - 1 {
        assert g == e.field;
      } else {
        assert ValidationError(g) in prev;
      }
    }
  }

  lemma SkipSound(p: EstimatePatch, prev: seq<ValidationError>, k: nat)
    requires k > 0 && SoundUpTo(p, prev, k - 1)
    ensures SoundUpTo(p, prev, k)
  {
  }

  /**
   * The validation errors for `p`: at most seven, each rule's error present
   * exactly when that rule fires, in the fixed rule order.
   */
  function ValidationErrors(p: EstimatePatch): (r: seq<ValidationError>)
    ensures |r| <= 7
    ensures forall f: Field :: ValidationError(f) in r <==> Violates(p, f)
    ensures forall i, j :: 0 <= i < j < |r| ==> Ordinal(r[i].field) < Ordinal(r[j].field)
  {
    ErrorsUpToSpec(p, 7);
    var r := ErrorsUpTo(p, 7);
    assert SoundUpTo(p, r, 7) && CompleteUpTo(p, r, 7);
    r
  }

  /** `validateEstimate`: each check in turn pushes its error. */
  method ValidateEstimate(p: EstimatePatch) returns (errors: seq<ValidationError>)
    ensures errors == ValidationErrors(p)
  {
    errors := [];
    if Blank(p.projectName) {
      errors := errors + [ValidationError(ProjectName)];
    }
    assert errors == ErrorsUpTo(p, 1);
    if Blank(p.client) {
      errors := errors + [ValidationError(Client)];
    }
    assert errors == ErrorsUpTo(p, 2);
    if Blank(p.address) {
      errors := errors + [ValidationError(Address)];
    }
    assert errors == ErrorsUpTo(p, 3);
    if Missing(p.bidDate) {
      errors := errors + [ValidationError(BidDate)];
    }
    assert errors == ErrorsUpTo(p, 4);
    if p.projectType.None? {
      errors := errors + [ValidationError(ProjectTypeField)];
    }
    assert errors == ErrorsUpTo(p, 5);
    if BelowOne(p.buildings) {
      errors := errors + [ValidationError(Buildings)];
    }
    assert errors == ErrorsUpTo(p, 6);
    if BelowOne(p.units) {
      errors := errors + [ValidationError(Units)];
    }
    assert errors == ErrorsUpTo(p, 7);
  }

  /** Non-blank names, a bid date, a project type and counts of at least one give no errors. */
  lemma CompleteDetailsValidate(p: EstimatePatch)
    requires !Blank(p.projectName) && !Blank(p.client) && !Blank(p.address)
    requires !Missing(p.bidDate) && p.projectType.Some?
    requires p.buildings.Some? && p.buildings.value >= 1 && p.units.Some? && p.units.value >= 1
    ensures ValidationErrors(p) == []
  {
    assert ErrorsUpTo(p, 1) == [];
    assert ErrorsUpTo(p, 2) == [];
    assert ErrorsUpTo(p, 3) == [];
    assert ErrorsUpTo(p, 4) == [];
    assert ErrorsUpTo(p, 5) == [];
    assert ErrorsUpTo(p, 6) == [];
  }

  /**
   * The count rules fire only on a present, non-zero value below one: zero
   * and absence pass, a negative count is an error.
   */
  lemma CountRuleEdges(p: EstimatePatch)
    ensures p.buildings == Some(0) || p.buildings.None? ==> ValidationError(Buildings) !in ValidationErrors(p)
    ensures p.units.Some? && p.units.value < 0 ==> ValidationError(Units) in ValidationErrors(p)
    ensures p.units == Some(0) || p.units.None? ==> ValidationError(Units) !in ValidationErrors(p)
    ensures p.buildings.Some? && p.buildings.value < 0 ==> ValidationError(Buildings) in ValidationErrors(p)
  {
  }

  /** A brand-new estimate lacks exactly its name, client and address (when the clock gives a date). */
  lemma NewEstimateErrors(e: Estimate)
    requires e.projectName == "" && e.client == "" && e.address == "" && e.bidDate != ""
    requires e.buildings == 1 && e.units == 1
    ensures ValidationErrors(AsPatch(e)) == [ValidationError(ProjectName), ValidationError(Client), ValidationError(Address)]
  {
    var p := AsPatch(e);
    assert ErrorsUpTo(p, 1) == [ValidationError(ProjectName)];
    assert ErrorsUpTo(p, 2) == [ValidationError(ProjectName), ValidationError(Client)];
    assert ErrorsUpTo(p, 3) == [ValidationError(ProjectName), ValidationError(Client), ValidationError(Address)];
    assert ErrorsUpTo(p, 4) == ErrorsUpTo(p, 3);
    assert ErrorsUpTo(p, 5) == ErrorsUpTo(p, 3);
    assert ErrorsUpTo(p, 6) == ErrorsUpTo(p, 3);
  }

  /** `items.reduce((sum, item) => sum + item.total, acc)`. */
  function ReduceTotals(items: seq<LineItem>, acc: real): real {
    if items == [] then acc else ReduceTotals(items[1..], acc + items[0].total)
  }

  /** The file's own grand total, a left fold, agrees with the shared one. */
  lemma {:induction false} ReduceTotalsIsGrandTotal(items: seq<LineItem>, acc: real)
    ensures ReduceTotals(items, acc) == acc + Calculations.GrandTotal(items)
  {
    if items != [] {
      ReduceTotalsIsGrandTotal(items[1..], acc + items[0].total);
    }
  }

  /** `isEstimateComplete`: no errors, at least one line item, and a positive grand total. */
  predicate IsEstimateComplete(p: EstimatePatch) {
    ValidationErrors(p) == []
    && |p.lineItems.GetOr([])| > 0
    && ReduceTotals(p.lineItems.GetOr([]), 0.0) > 0.0
  }

  /** Completeness in terms of the shared grand total. */
  lemma IsEstimateCompleteMeans(p: EstimatePatch)
    ensures IsEstimateComplete(p) <==>
      ValidationErrors(p) == [] && p.lineItems.Some? && |p.lineItems.value| > 0
      && Calculations.GrandTotal(p.lineItems.value) > 0.0
  {
    ReduceTotalsIsGrandTotal(p.lineItems.GetOr([]), 0.0);
  }
}
