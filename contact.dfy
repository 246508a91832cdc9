/** The entities the card pipeline works on: contact properties, cards and the field tables. */
module Contact {
  import opened Wrappers

  /** The value of a property: one string, or the components of a structured field such as `n` or `adr`. */
  datatype Value = Text(text: string) | Parts(parts: seq<string>)

  /**
   * One vCard property, `{ field, value, group?, type?, pref? }`; the optional
   * `type` parameter is called `kind` here because `type` is a Dafny keyword.
   */
  datatype Property = Property(
    field: string,
    value: Value,
    group: Option<string>,
    kind: Option<string>,
    pref: Option<int>)

  /** The three kinds of contact card (`CONTACT_CARD_TYPE`); each is also the tier that produces it. */
  datatype CardType = ClearText | EncryptedAndSigned | Signed

  /** A card as sent to the server: `{ Type, Data, Signature }`, where a missing signature is `null`. */
  datatype Card = Card(cardType: CardType, data: string, signature: Option<string>)

  /** The static tables `CLEAR_FIELDS` and `SIGNED_FIELDS`; a field may be listed in both. */
  datatype FieldTables = FieldTables(clearFields: set<string>, signedFields: set<string>)

  /** A property with only a field and a text value, as the defaults pushed for `uid` and `fn` are. */
  function Bare(field: string, value: string): Property {
    Property(field, Text(value), None, None, None)
  }

  /** Whether some property of the list has field `f`. */
  predicate HasField(ps: seq<Property>, f: string) {
    exists i :: 0 <= i < |ps| && ps[i].field == f
  }

  /** Whether a record carries a `categories` property. */
  predicate HasCategories(ps: seq<Property>) {
    HasField(ps, "categories")
  }

  /** The number of properties with field `f`. */
  function FieldCount(ps: seq<Property>, f: string): nat {
    if ps == [] then 0
    else FieldCount(ps[..|ps| - 1], f) + (if ps[|ps| - 1].field == f then 1 else 0)
  }

  /** A list has a property with field `f` exactly when it counts at least one. */
  lemma {:induction false} FieldCountPositive(ps: seq<Property>, f: string)
    ensures FieldCount(ps, f) > 0 <==> HasField(ps, f)
  {
    if ps != [] {
      var init := ps[..|ps| - 1];
      FieldCountPositive(init, f);
      if HasField(init, f) {
        var i :| 0 <= i < |init| && init[i].field == f;
        assert ps[i].field == f;
      }
      if HasField(ps, f) && ps[|ps| - 1].field != f {
        var i :| 0 <= i < |ps| && ps[i].field == f;
        assert init[i].field == f;
      }
    }
  }

  /** Counting the properties of a field distributes over concatenation. */
  lemma {:induction false} FieldCountAppend(ps: seq<Property>, qs: seq<Property>, f: string)
    ensures FieldCount(ps + qs, f) == FieldCount(ps, f) + FieldCount(qs, f)
  {
    if qs != [] {
      var init := qs[..|qs| - 1];
      assert (ps + qs)[..|ps + qs| - 1] == ps + init;
      FieldCountAppend(ps, init, f);
    } else {
      assert ps + qs == ps;
    }
  }
}
