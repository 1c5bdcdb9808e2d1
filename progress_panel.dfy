/**
 * The progress panel: five readiness checks over the loaded estimate, the
 * number of them that are complete, and whether the estimate is ready.
 */
module ProgressPanel {
  import opened EstimateTypes
  import opened Sequences
  import Calculations
  import Text
  import Validation

  /** One row of the panel; `labelText` is the row's `label` (its display details string is not modelled). */
  datatype ProgressCheck = ProgressCheck(id: string, labelText: string, completed: bool)

  /** The `checks` list, in its fixed order. */
  function Checks(e: Estimate): seq<ProgressCheck> {
    [ ProgressCheck("project-details", "Project details complete", Validation.ValidationErrors(AsPatch(e)) == []),
      ProgressCheck("line-items", "Line items added", |e.lineItems| > 0),
      ProgressCheck("grand-total", "Grand total > $0", Calculations.GrandTotal(e.lineItems) > 0.0),
      ProgressCheck("allocations", "Allocations assigned", |e.allocations| > 0 || |e.lineItems| == 0),
      ProgressCheck("scope", "Scope details filled", ScopeFilled(e.scope)) ]
  }

  function IsCompleted(): ProgressCheck -> bool {
    (c: ProgressCheck) => c.completed
  }

  /** `checks.filter(c => c.completed).length`. */
  function CompletedCount(e: Estimate): nat {
    |Filter(Checks(e), IsCompleted())|
  }

  /** `completedCount === totalCount`. */
  predicate IsReady(e: Estimate) {
    CompletedCount(e) == |Checks(e)|
  }

  /**
   * For a loaded estimate the project-details check passes exactly when the
   * three names are not blank, a bid date is set, and each count is at least
   * one or exactly zero.
   */
  lemma ProjectDetailsCheckMeans(e: Estimate)
    ensures Checks(e)[0].completed <==>
      !Text.AllWhitespace(e.projectName) && !Text.AllWhitespace(e.client) && !Text.AllWhitespace(e.address)
      && e.bidDate != ""
      && (e.buildings >= 1 || e.buildings == 0) && (e.units >= 1 || e.units == 0)
  {
    var p := AsPatch(e);
    var r := Validation.ValidationErrors(p);
    if r == [] {
      assert !Validation.Violates(p, Validation.ProjectName);
      assert !Validation.Violates(p, Validation.Client);
      assert !Validation.Violates(p, Validation.Address);
      assert !Validation.Violates(p, Validation.BidDate);
      assert !Validation.Violates(p, Validation.Buildings);
      assert !Validation.Violates(p, Validation.Units);
    } else {
      var f := r[0].field;
      assert Validation.ValidationError(f) in r;
      assert Validation.Violates(p, f);
    }
  }

  /** Five checks with the panel's ids, and the counts' ranges. */
  lemma ChecksShape(e: Estimate)
    ensures |Checks(e)| == 5
    ensures Checks(e)[0].id == "project-details" && Checks(e)[1].id == "line-items"
         && Checks(e)[2].id == "grand-total" && Checks(e)[3].id == "allocations" && Checks(e)[4].id == "scope"
    ensures 0 <= CompletedCount(e) <= 5
  {
  }

  /** Ready exactly when every one of the five checks is complete. */
  lemma ReadyIffAllComplete(e: Estimate)
    ensures IsReady(e) <==> forall i :: 0 <= i < 5 ==> Checks(e)[i].completed
  {
    FilterFullLength(Checks(e), IsCompleted());
  }

  /** All five of a five-element list of checks hold, written out. */
  lemma AllFive(c: seq<ProgressCheck>)
    requires |c| == 5
    ensures (forall i :: 0 <= i < 5 ==> c[i].completed)
        <==> c[0].completed && c[1].completed && c[2].completed && c[3].completed && c[4].completed
  {
    if c[0].completed && c[1].completed && c[2].completed && c[3].completed && c[4].completed {
      forall i | 0 <= i < 5 ensures c[i].completed {
      }
    }
  }

  /**
   * Ready means: details valid, at least one item, a positive grand total,
   * at least one allocation and some scope line; and conversely.
   */
  lemma ReadyMeans(e: Estimate)
    ensures IsReady(e) <==>
      Validation.ValidationErrors(AsPatch(e)) == [] && |e.lineItems| > 0 && Calculations.GrandTotal(e.lineItems) > 0.0
      && |e.allocations| > 0 && ScopeFilled(e.scope)
  {
    ReadyIffAllComplete(e);
    AllFive(Checks(e));
  }

  /** A ready estimate is also complete in the validator's sense. */
  lemma ReadyIsComplete(e: Estimate)
    ensures IsReady(e) ==> Validation.IsEstimateComplete(AsPatch(e))
  {
    ReadyMeans(e);
    Validation.IsEstimateCompleteMeans(AsPatch(e));
  }

  /**
   * Readiness demands more than completeness: an estimate with items but no
   * allocation or no scope line is complete and not ready.
   */
  lemma CompleteNotReady(e: Estimate)
    requires Validation.IsEstimateComplete(AsPatch(e))
    requires |e.allocations| == 0 || !ScopeFilled(e.scope)
    ensures !IsReady(e)
  {
    ReadyMeans(e);
  }
}
