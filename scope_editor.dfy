/**
 * The scope editor: adding to, deleting from and resetting one of the three
 * scope lists, and editing the comments. Each handler yields the patch it
 * hands to `updateScope` (none when it returns early).
 */
module ScopeEditor {
  import opened Optional
  import opened EstimateTypes
  import Text
  import Snapshots

  /** The `type` argument of the list handlers. */
  datatype ScopeList = Inclusions | Exclusions | DeliveryTerms

  const DefaultInclusions: seq<string> := [
    "All materials specified in the line items above",
    "Standard installation per industry best practices",
    "Warranty on all installed products per manufacturer specs"]

  const DefaultExclusions: seq<string> := [
    "Electrical or plumbing work unless specifically noted",
    "Permits and inspection fees",
    "Structural modifications or repairs"]

  const DefaultDeliveryTerms: seq<string> := [
    "Client to provide safe access to delivery location",
    "Delivery during normal business hours (M-F)",
    "Lead time: 6-8 weeks from confirmation"]

  /** `scope[type]`. */
  function ListOf(s: ScopeDetails, t: ScopeList): seq<string> {
    match t
    case Inclusions => s.inclusions
    case Exclusions => s.exclusions
    case DeliveryTerms => s.deliveryTerms
  }

  /** `{ [type]: xs }`: a scope patch that sets one list and nothing else. */
  function ListPatch(t: ScopeList, xs: seq<string>): (r: ScopePatch)
    ensures r.comments.None?
    ensures forall s: ScopeDetails, u: ScopeList ::
      ListOf(Snapshots.MergeScope(s, r), u) == if u == t then xs else ListOf(s, u)
  {
    match t
    case Inclusions => NoScopeChanges.(inclusions := Some(xs))
    case Exclusions => NoScopeChanges.(exclusions := Some(xs))
    case DeliveryTerms => NoScopeChanges.(deliveryTerms := Some(xs))
  }

  /** `handleAddItem`: a blank value is ignored, any other is trimmed and appended. */
  function HandleAddItem(s: ScopeDetails, t: ScopeList, value: string): (r: Option<ScopePatch>)
    ensures r.None? <==> Text.AllWhitespace(value)
  {
    var v := Text.Trim(value);
    if v == "" then None else Some(ListPatch(t, ListOf(s, t) + [v]))
  }

  /**
   * An accepted add appends exactly the trimmed value, which is non-empty and
   * trimmed, to the chosen list; the other lists and the comments stay.
   */
  lemma AddItemEffect(s: ScopeDetails, t: ScopeList, value: string)
    requires !Text.AllWhitespace(value)
    ensures var s' := Snapshots.MergeScope(s, HandleAddItem(s, t, value).value);
      && ListOf(s', t) == ListOf(s, t) + [Text.Trim(value)]
      && Text.Trim(value) != "" && Text.Trimmed(Text.Trim(value))
      && (forall u :: u != t ==> ListOf(s', u) == ListOf(s, u))
      && s'.comments == s.comments
  {
  }

  /** `filter((_, i) => i !== index)`: keeps every element whose position is not `index`. */
  function DropIndex(xs: seq<string>, index: int): (r: seq<string>)
    ensures |r| <= |xs|
  {
    if xs == [] then [] else (if index == 0 then [] else [xs[0]]) + DropIndex(xs[1..], index - 1)
  }

  /** Dropping an index in range removes exactly that element; any other index removes nothing. */
  lemma {:induction false} DropIndexMeans(xs: seq<string>, index: int)
    ensures 0 <= index < |xs| ==> DropIndex(xs, index) == xs[..index] + xs[index + 1..]
    ensures !(0 <= index < |xs|) ==> DropIndex(xs, index) == xs
  {
    if xs != [] {
      DropIndexMeans(xs[1..], index - 1);
      if index == 0 {
        assert xs[..0] + xs[1..] == xs[1..];
      } else if 0 < index < |xs| {
        assert xs[..index] == [xs[0]] + xs[1..][..index - 1];
        assert xs[index + 1..] == xs[1..][index..];
      } else {
        assert xs == [xs[0]] + xs[1..];
      }
    }
  }

  /** `handleDeleteItem`. */
  function HandleDeleteItem(s: ScopeDetails, t: ScopeList, index: int): (r: ScopePatch)
    ensures r.comments.None?
  {
    ListPatch(t, DropIndex(ListOf(s, t), index))
  }

  /**
   * Deleting removes exactly the element at the index from the chosen list,
   * keeping the rest in order; an out-of-range index leaves it equal. The
   * other lists and the comments stay.
   */
  lemma DeleteItemEffect(s: ScopeDetails, t: ScopeList, index: int)
    ensures var s' := Snapshots.MergeScope(s, HandleDeleteItem(s, t, index));
      && (0 <= index < |ListOf(s, t)| ==> ListOf(s', t) == ListOf(s, t)[..index] + ListOf(s, t)[index + 1..])
      && (!(0 <= index < |ListOf(s, t)|) ==> ListOf(s', t) == ListOf(s, t))
      && (forall u :: u != t ==> ListOf(s', u) == ListOf(s, u))
      && s'.comments == s.comments
  {
    DropIndexMeans(ListOf(s, t), index);
  }

  function Defaults(t: ScopeList): (r: seq<string>)
    ensures |r| == 3
  {
    match t
    case Inclusions => DefaultInclusions
    case Exclusions => DefaultExclusions
    case DeliveryTerms => DefaultDeliveryTerms
  }

  /** `handleLoadDefaults`. */
  function HandleLoadDefaults(t: ScopeList): (r: ScopePatch)
    ensures r.comments.None?
  {
    ListPatch(t, Defaults(t))
  }

  /**
   * Loading defaults replaces the chosen list by its three defaults whatever
   * it held, leaves the rest, and loading again changes nothing more.
   */
  lemma LoadDefaultsEffect(s: ScopeDetails, t: ScopeList)
    ensures var s' := Snapshots.MergeScope(s, HandleLoadDefaults(t));
      && ListOf(s', t) == Defaults(t) && |ListOf(s', t)| == 3
      && (forall u :: u != t ==> ListOf(s', u) == ListOf(s, u))
      && s'.comments == s.comments
      && Snapshots.MergeScope(s', HandleLoadDefaults(t)) == s'
  {
    var s' := Snapshots.MergeScope(s, HandleLoadDefaults(t));
    var s'' := Snapshots.MergeScope(s', HandleLoadDefaults(t));
    assert forall u :: ListOf(s'', u) == ListOf(s', u);
    assert s'' == ScopeDetails(ListOf(s'', Inclusions), ListOf(s'', Exclusions), ListOf(s'', DeliveryTerms), s''.comments);
  }

  /** `handleCommentsChange`. */
  function HandleCommentsChange(value: string): ScopePatch {
    NoScopeChanges.(comments := Some(value))
  }

  /** A comments edit replaces the comments and nothing else. */
  lemma CommentsChangeEffect(s: ScopeDetails, value: string)
    ensures Snapshots.MergeScope(s, HandleCommentsChange(value)) == s.(comments := value)
  {
  }
}
