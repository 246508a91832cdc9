/** `splitProperties`: routing each property of a record into the tiers of its cards. */
module Partition {
  import opened Contact

  /** The three accumulators of `splitProperties`. */
  datatype Buckets = Buckets(
    toEncryptAndSign: seq<Property>,
    toSign: seq<Property>,
    toClearText: seq<Property>)
  {
    /** The bucket that feeds the card of type `t`. */
    function Get(t: CardType): seq<Property> {
      match t
      case EncryptedAndSigned => toEncryptAndSign
      case Signed => toSign
      case ClearText => toClearText
    }
  }

  /** The clear-text rule: the record has categories and the field is in `CLEAR_FIELDS`. */
  predicate RoutedToClear(field: string, splitClearText: bool, tables: FieldTables) {
    splitClearText && field in tables.clearFields
  }

  /**
   * Reference routing, stated per tier: clear text takes the fields of the
   * clear-text rule, signing takes every field of `SIGNED_FIELDS` (whether or not
   * it also went to clear text), and encryption takes everything else.
   */
  predicate InTier(t: CardType, field: string, splitClearText: bool, tables: FieldTables) {
    match t
    case ClearText => RoutedToClear(field, splitClearText, tables)
    case Signed => field in tables.signedFields
    case EncryptedAndSigned => !RoutedToClear(field, splitClearText, tables) && field !in tables.signedFields
  }

  /** The properties of `ps` routed to tier `t`, in input order. */
  function Select(ps: seq<Property>, t: CardType, splitClearText: bool, tables: FieldTables): seq<Property> {
    if ps == [] then []
    else
      var last := ps[|ps| - 1];
      Select(ps[..|ps| - 1], t, splitClearText, tables) +
        (if InTier(t, last.field, splitClearText, tables) then [last] else [])
  }

  /** The indices of `ps` routed to tier `t`, in increasing order. */
  function Positions(ps: seq<Property>, t: CardType, splitClearText: bool, tables: FieldTables): seq<int> {
    if ps == [] then []
    else
      Positions(ps[..|ps| - 1], t, splitClearText, tables) +
        (if InTier(t, ps[|ps| - 1].field, splitClearText, tables) then [|ps| - 1] else [])
  }

  /** The buckets of a record: one filter of the input per tier, under the record-wide categories flag. */
  function Split(ps: seq<Property>, tables: FieldTables): Buckets {
    var splitClearText := HasCategories(ps);
    Buckets(
      Select(ps, EncryptedAndSigned, splitClearText, tables),
      Select(ps, Signed, splitClearText, tables),
      Select(ps, ClearText, splitClearText, tables))
  }

  /**
   * `splitProperties` (encrypt.js): one left-to-right pass that appends each
   * property to the clear-text bucket (and also to the signed bucket when its
   * field is in both tables), else to the signed bucket, else to the encrypted one.
   */
  method SplitProperties(ps: seq<Property>, tables: FieldTables) returns (b: Buckets)
    ensures b == Split(ps, tables)
  {
    var splitClearText := HasCategories(ps);
    var toEncryptAndSign, toSign, toClearText := [], [], [];
    var i := 0;
    while i < |ps|
      invariant 0 <= i <= |ps|
      invariant toEncryptAndSign == Select(ps[..i], EncryptedAndSigned, splitClearText, tables)
      invariant toSign == Select(ps[..i], Signed, splitClearText, tables)
      invariant toClearText == Select(ps[..i], ClearText, splitClearText, tables)
    {
      var property := ps[i];
      assert ps[..i + 1][..i] == ps[..i];
      if splitClearText && property.field in tables.clearFields {
        toClearText := toClearText + [property];
        if property.field in tables.signedFields {
          toSign := toSign + [property];
        }
      } else if property.field in tables.signedFields {
        toSign := toSign + [property];
      } else {
        toEncryptAndSign := toEncryptAndSign + [property];
      }
      i := i + 1;
    }
    assert ps[..|ps|] == ps;
    b := Buckets(toEncryptAndSign, toSign, toClearText);
  }

  /** A property is in a tier's bucket exactly when it is in the input and routed to that tier. */
  lemma {:induction false} SelectMembership(ps: seq<Property>, t: CardType, splitClearText: bool, tables: FieldTables, x: Property)
    ensures x in Select(ps, t, splitClearText, tables) <==> x in ps && InTier(t, x.field, splitClearText, tables)
  {
    if ps != [] {
      var init := ps[..|ps| - 1];
      SelectMembership(init, t, splitClearText, tables, x);
      assert ps == init + [ps[|ps| - 1]];
    }
  }

  /** `a` is `b` restricted to the increasing indices `idx`. */
  ghost predicate SubsequenceAt(a: seq<Property>, b: seq<Property>, idx: seq<int>) {
    && |idx| == |a|
    && (forall k :: 0 <= k < |idx| ==> 0 <= idx[k] < |b| && a[k] == b[idx[k]])
    && (forall k, l :: 0 <= k < l < |idx| ==> idx[k] < idx[l])
  }

  /** `a` keeps some of the elements of `b`, in their relative order. */
  ghost predicate IsSubsequence(a: seq<Property>, b: seq<Property>) {
    exists idx :: SubsequenceAt(a, b, idx)
  }

  /** Each tier's bucket is the input restricted to the indices `Positions` lists. */
  lemma {:induction false} SelectAtPositions(ps: seq<Property>, t: CardType, splitClearText: bool, tables: FieldTables)
    ensures SubsequenceAt(Select(ps, t, splitClearText, tables), ps, Positions(ps, t, splitClearText, tables))
    ensures forall k :: 0 <= k < |Positions(ps, t, splitClearText, tables)| ==>
      InTier(t, ps[Positions(ps, t, splitClearText, tables)[k]].field, splitClearText, tables)
  {
    if ps != [] {
      var init := ps[..|ps| - 1];
      SelectAtPositions(init, t, splitClearText, tables);
      var i0 := Positions(init, t, splitClearText, tables);
      forall k | 0 <= k < |i0| ensures ps[i0[k]] == init[i0[k]] { }
    }
  }

  /** Every bucket preserves the relative input order: it is a subsequence of the input. */
  lemma BucketsAreSubsequences(ps: seq<Property>, tables: FieldTables)
    ensures forall t :: IsSubsequence(Split(ps, tables).Get(t), ps)
  {
    forall t ensures IsSubsequence(Split(ps, tables).Get(t), ps) {
      SelectAtPositions(ps, t, HasCategories(ps), tables);
    }
  }

  /** Membership of each bucket, both directions, and the coverage and overlap rules that follow. */
  lemma SplitMembership(ps: seq<Property>, tables: FieldTables)
    ensures forall x :: x in Split(ps, tables).toClearText <==>
      x in ps && HasCategories(ps) && x.field in tables.clearFields
    ensures forall x :: x in Split(ps, tables).toSign <==>
      x in ps && x.field in tables.signedFields
    ensures forall x :: x in Split(ps, tables).toEncryptAndSign <==>
      x in ps && !(HasCategories(ps) && x.field in tables.clearFields) && x.field !in tables.signedFields
  {
    var b, s := Split(ps, tables), HasCategories(ps);
    forall x ensures x in b.toClearText <==> x in ps && s && x.field in tables.clearFields {
      SelectMembership(ps, ClearText, s, tables, x);
    }
    forall x ensures x in b.toSign <==> x in ps && x.field in tables.signedFields {
      SelectMembership(ps, Signed, s, tables, x);
    }
    forall x ensures x in b.toEncryptAndSign <==>
      x in ps && !(s && x.field in tables.clearFields) && x.field !in tables.signedFields {
      SelectMembership(ps, EncryptedAndSigned, s, tables, x);
    }
  }

  /** Every input property lands in at least one bucket, and nothing else does. */
  lemma EveryPropertyRouted(ps: seq<Property>, tables: FieldTables)
    ensures forall x :: x in ps <==>
      x in Split(ps, tables).toEncryptAndSign || x in Split(ps, tables).toSign || x in Split(ps, tables).toClearText
  {
    SplitMembership(ps, tables);
  }

  /**
   * The encrypted bucket shares nothing with the others, so no property is in all
   * three; the signed and clear-text buckets share exactly the properties whose
   * field is in both tables, when the record has categories.
   */
  lemma BucketsOverlapOnlyByRule(ps: seq<Property>, tables: FieldTables)
    ensures forall x :: x in Split(ps, tables).toEncryptAndSign ==>
      x !in Split(ps, tables).toSign && x !in Split(ps, tables).toClearText
    ensures forall x :: x in Split(ps, tables).toSign && x in Split(ps, tables).toClearText <==>
      x in ps && HasCategories(ps) && x.field in tables.clearFields && x.field in tables.signedFields
  {
    SplitMembership(ps, tables);
  }

  /** The number of properties of `ps` the overlap rule sends to both the clear-text and signed buckets. */
  function OverlapCount(ps: seq<Property>, splitClearText: bool, tables: FieldTables): nat {
    if ps == [] then 0
    else
      var f := ps[|ps| - 1].field;
      OverlapCount(ps[..|ps| - 1], splitClearText, tables) +
        (if RoutedToClear(f, splitClearText, tables) && f in tables.signedFields then 1 else 0)
  }

  /** Bucket sizes add up to the input size plus the overlaps. */
  lemma {:induction false} SelectSizes(ps: seq<Property>, splitClearText: bool, tables: FieldTables)
    ensures |Select(ps, EncryptedAndSigned, splitClearText, tables)| + |Select(ps, Signed, splitClearText, tables)|
      + |Select(ps, ClearText, splitClearText, tables)| == |ps| + OverlapCount(ps, splitClearText, tables)
  {
    if ps != [] {
      SelectSizes(ps[..|ps| - 1], splitClearText, tables);
    }
  }

  /** Without the clear-text rule nothing overlaps. */
  lemma {:induction false} NoOverlapWithoutSplit(ps: seq<Property>, tables: FieldTables)
    ensures OverlapCount(ps, false, tables) == 0
  {
    if ps != [] {
      NoOverlapWithoutSplit(ps[..|ps| - 1], tables);
    }
  }

  /** Without the clear-text rule the clear-text bucket stays empty. */
  lemma {:induction false} NoClearTextWithoutSplit(ps: seq<Property>, tables: FieldTables)
    ensures Select(ps, ClearText, false, tables) == []
  {
    if ps != [] {
      NoClearTextWithoutSplit(ps[..|ps| - 1], tables);
    }
  }

  /**
   * `|toEncryptAndSign| + |toSign| + |toClearText| == |ps| + overlaps`, so the sum
   * is at least the input size, with equality exactly when nothing overlapped.
   */
  lemma SplitSizes(ps: seq<Property>, tables: FieldTables)
    ensures var b := Split(ps, tables);
      |b.toEncryptAndSign| + |b.toSign| + |b.toClearText| == |ps| + OverlapCount(ps, HasCategories(ps), tables)
    ensures !HasCategories(ps) ==> OverlapCount(ps, HasCategories(ps), tables) == 0
  {
    SelectSizes(ps, HasCategories(ps), tables);
    if !HasCategories(ps) {
      NoOverlapWithoutSplit(ps, tables);
    }
  }

  /** A record without a `categories` property has an empty clear-text bucket. */
  lemma NoCategoriesNoClearText(ps: seq<Property>, tables: FieldTables)
    requires !HasCategories(ps)
    ensures Split(ps, tables).toClearText == []
  {
    NoClearTextWithoutSplit(ps, tables);
  }
}
