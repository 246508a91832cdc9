/** `prepareCards`: one card per non-empty bucket, serialized and then signed, encrypted or left clear. */
module CardBuilder {
  import opened Wrappers
  import opened Promises
  import opened Contact
  import opened Partition

  /** An armored OpenPGP key. */
  type Key = string

  /** What `encryptMessage` resolves to with `detached: true`: the ciphertext and a detached signature. */
  datatype Encrypted = Encrypted(data: string, signature: string)

  /**
   * The collaborators of `prepareCards` that are not modelled: the vCard
   * serializer `toICAL(...).toString()`, which may throw, and `encryptMessage`
   * (text, public keys, private keys) and `signMessage` (text, private keys),
   * each given by the outcome its promise settles with.
   */
  datatype Primitives = Primitives(
    serialize: seq<Property> -> Result<string, string>,
    encrypt: (string, seq<Key>, seq<Key>) -> Result<Encrypted, string>,
    sign: (string, seq<Key>) -> Result<string, string>)

  /** The signed bucket after injection: a default `uid`, then a default `fn`, for whichever field it lacks. */
  function WithDefaults(toSign: seq<Property>, defaultUid: string, defaultFn: string): seq<Property> {
    var hasUid := HasField(toSign, "uid");
    var hasFn := HasField(toSign, "fn");
    toSign + (if hasUid then [] else [Bare("uid", defaultUid)]) + (if hasFn then [] else [Bare("fn", defaultFn)])
  }

  /** The card the encrypted tier's promise resolves to. */
  function SealedCard(outcome: Result<Encrypted, string>): Result<Card, string> {
    match outcome
    case Success(e) => Success(Card(EncryptedAndSigned, e.data, Some(e.signature)))
    case Failure(err) => Failure(err)
  }

  /** The card the signed tier's promise resolves to: it keeps the very text that was signed. */
  function SignedCard(data: string, outcome: Result<string, string>): Result<Card, string> {
    match outcome
    case Success(signature) => Success(Card(Signed, data, Some(signature)))
    case Failure(err) => Failure(err)
  }

  /**
   * What the encrypted tier pushes onto `promises`: nothing for an empty bucket,
   * else the pending encrypted card. An outer failure is the serializer throwing,
   * which aborts `prepareCards` before anything is awaited.
   */
  function EncryptTier(entries: seq<Property>, privateKeys: seq<Key>, publicKeys: seq<Key>, prim: Primitives)
    : Result<seq<Result<Card, string>>, string>
  {
    if |entries| == 0 then Success([])
    else
      var data :- prim.serialize(entries);
      Success([SealedCard(prim.encrypt(data, publicKeys, privateKeys))])
  }

  /**
   * What the signed tier pushes: nothing for an empty bucket, else the pending
   * signed card over the serialized bucket with its defaults; an outer failure is
   * the serializer throwing.
   */
  function SignTier(toSign: seq<Property>, privateKeys: seq<Key>, prim: Primitives, defaultUid: string, defaultFn: string)
    : Result<seq<Result<Card, string>>, string>
  {
    if |toSign| == 0 then Success([])
    else
      var data :- prim.serialize(WithDefaults(toSign, defaultUid, defaultFn));
      Success([SignedCard(data, prim.sign(data, privateKeys))])
  }

  /**
   * What the clear-text tier pushes: nothing for an empty bucket, else a card
   * that is already settled, with no signature; an outer failure is the
   * serializer throwing.
   */
  function ClearTier(entries: seq<Property>, prim: Primitives): Result<seq<Result<Card, string>>, string> {
    if |entries| == 0 then Success([])
    else
      var data :- prim.serialize(entries);
      Success([Success(Card(ClearText, data, None))])
  }

  /** The cards of one record, as `prepareCards` settles: the tiers in the order they are pushed, joined. */
  function BuildCards(ps: seq<Property>, tables: FieldTables, privateKeys: seq<Key>, publicKeys: seq<Key>,
                      prim: Primitives, defaultUid: string, defaultFn: string): Result<seq<Card>, string>
  {
    var b := Split(ps, tables);
    var encrypted :- EncryptTier(b.toEncryptAndSign, privateKeys, publicKeys, prim);
    var signed :- SignTier(b.toSign, privateKeys, prim, defaultUid, defaultFn);
    var clear :- ClearTier(b.toClearText, prim);
    All(encrypted + signed + clear)
  }

  /**
   * `prepareCards` (encrypt.js): split, then push the encrypted tier, the signed
   * tier (after appending the missing defaults to `toSign` in place) and the
   * clear-text tier, each only when its bucket is non-empty, and join them.
   */
  method PrepareCards(ps: seq<Property>, tables: FieldTables, privateKeys: seq<Key>, publicKeys: seq<Key>,
                      prim: Primitives, defaultUid: string, defaultFn: string) returns (r: Result<seq<Card>, string>)
    ensures r == BuildCards(ps, tables, privateKeys, publicKeys, prim, defaultUid, defaultFn)
  {
    var promises: seq<Result<Card, string>> := [];
    var buckets := SplitProperties(ps, tables);
    var toEncryptAndSign, toSign, toClearText := buckets.toEncryptAndSign, buckets.toSign, buckets.toClearText;

    if |toEncryptAndSign| > 0 {
      var data :- prim.serialize(toEncryptAndSign);
      promises := promises + [SealedCard(prim.encrypt(data, publicKeys, privateKeys))];
      assert promises == [SealedCard(prim.encrypt(data, publicKeys, privateKeys))];
    }
    ghost var encrypted := promises;
    assert EncryptTier(buckets.toEncryptAndSign, privateKeys, publicKeys, prim) == Success(encrypted);

    if |toSign| > 0 {
      var hasUid := HasField(toSign, "uid");
      var hasFn := HasField(toSign, "fn");
      if !hasUid {
        toSign := toSign + [Bare("uid", defaultUid)];
      }
      if !hasFn {
        toSign := toSign + [Bare("fn", defaultFn)];
      }
      assert toSign == WithDefaults(buckets.toSign, defaultUid, defaultFn);
      var data :- prim.serialize(toSign);
      promises := promises + [SignedCard(data, prim.sign(data, privateKeys))];
    }
    ghost var signed := promises[|encrypted|..];
    assert SignTier(buckets.toSign, privateKeys, prim, defaultUid, defaultFn) == Success(signed);
    assert promises == encrypted + signed;
    ghost var beforeClear := promises;

    if |toClearText| > 0 {
      var data :- prim.serialize(toClearText);
      promises := promises + [Success(Card(ClearText, data, None))];
      assert promises[|beforeClear|..] == [Success(Card(ClearText, data, None))];
    } else {
      assert promises[|beforeClear|..] == [];
    }
    assert ClearTier(buckets.toClearText, prim) == Success(promises[|beforeClear|..]);
    assert promises == encrypted + signed + promises[|beforeClear|..];

    r := All(promises);
  }

  /**
   * The injection leaves the original entries first and in place, then makes sure
   * a `uid` and an `fn` are present: a field already present keeps its count, a
   * missing one gets exactly one entry, and the bucket is unchanged exactly when
   * both were already present. Everything appended is a default `uid` or a
   * default `fn`, and a missing `uid` comes first.
   */
  lemma WithDefaultsProperties(toSign: seq<Property>, defaultUid: string, defaultFn: string)
    ensures var r := WithDefaults(toSign, defaultUid, defaultFn);
      && HasField(r, "uid") && HasField(r, "fn")
      && |toSign| <= |r| <= |toSign| + 2
      && r[..|toSign|] == toSign
      && FieldCount(r, "uid") == (if HasField(toSign, "uid") then FieldCount(toSign, "uid") else 1)
      && FieldCount(r, "fn") == (if HasField(toSign, "fn") then FieldCount(toSign, "fn") else 1)
      && (r == toSign <==> HasField(toSign, "uid") && HasField(toSign, "fn"))
      && (forall k :: |toSign| <= k < |r| ==> r[k] == Bare("uid", defaultUid) || r[k] == Bare("fn", defaultFn))
      && (!HasField(toSign, "uid") ==> r[|toSign|] == Bare("uid", defaultUid))
  {
    var r := WithDefaults(toSign, defaultUid, defaultFn);
    var added := DefaultsAppended(toSign, defaultUid, defaultFn);
    FieldCountAppend(toSign, added, "uid");
    FieldCountAppend(toSign, added, "fn");
    FieldCountPositive(toSign, "uid");
    FieldCountPositive(toSign, "fn");
    FieldCountPositive(r, "uid");
    FieldCountPositive(r, "fn");
  }

  /** The entries the injection appends, with how many of each field they hold. */
  lemma DefaultsAppended(toSign: seq<Property>, defaultUid: string, defaultFn: string) returns (added: seq<Property>)
    ensures WithDefaults(toSign, defaultUid, defaultFn) == toSign + added
    ensures added == [] <==> HasField(toSign, "uid") && HasField(toSign, "fn")
    ensures |added| <= 2
    ensures forall k :: 0 <= k < |added| ==> added[k] == Bare("uid", defaultUid) || added[k] == Bare("fn", defaultFn)
    ensures !HasField(toSign, "uid") ==> added != [] && added[0] == Bare("uid", defaultUid)
    ensures FieldCount(added, "uid") == (if HasField(toSign, "uid") then 0 else 1)
    ensures FieldCount(added, "fn") == (if HasField(toSign, "fn") then 0 else 1)
  {
    var uid, fn := Bare("uid", defaultUid), Bare("fn", defaultFn);
    var uidPart := if HasField(toSign, "uid") then [] else [uid];
    var fnPart := if HasField(toSign, "fn") then [] else [fn];
    added := uidPart + fnPart;
    assert WithDefaults(toSign, defaultUid, defaultFn) == toSign + added;
    FieldCountAppend(uidPart, fnPart, "uid");
    FieldCountAppend(uidPart, fnPart, "fn");
    assert FieldCount([uid], "uid") == 1 && FieldCount([uid], "fn") == 0 by {
      assert [uid][..0] == [];
    }
    assert FieldCount([fn], "fn") == 1 && FieldCount([fn], "uid") == 0 by {
      assert [fn][..0] == [];
    }
  }

  /** Running the injection on its own output changes nothing. */
  lemma WithDefaultsIdempotent(toSign: seq<Property>, defaultUid: string, defaultFn: string)
    ensures WithDefaults(WithDefaults(toSign, defaultUid, defaultFn), defaultUid, defaultFn)
         == WithDefaults(toSign, defaultUid, defaultFn)
  {
    WithDefaultsProperties(toSign, defaultUid, defaultFn);
    WithDefaultsProperties(WithDefaults(toSign, defaultUid, defaultFn), defaultUid, defaultFn);
  }

  /** The number of non-empty buckets. */
  function NonEmptyCount(b: Buckets): nat {
    (if b.toEncryptAndSign != [] then 1 else 0) + (if b.toSign != [] then 1 else 0) + (if b.toClearText != [] then 1 else 0)
  }

  /** The position of each tier in the emitted order. */
  function Rank(t: CardType): nat {
    match t
    case EncryptedAndSigned => 0
    case Signed => 1
    case ClearText => 2
  }

  /** Whether the calls for tier `t` succeed (an empty bucket makes no call). */
  predicate TierSucceeds(t: CardType, b: Buckets, privateKeys: seq<Key>, publicKeys: seq<Key>,
                         prim: Primitives, defaultUid: string, defaultFn: string)
  {
    match t
    case EncryptedAndSigned =>
      var text := prim.serialize(b.toEncryptAndSign);
      b.toEncryptAndSign == [] || (text.Success? && prim.encrypt(text.value, publicKeys, privateKeys).Success?)
    case Signed =>
      var text := prim.serialize(WithDefaults(b.toSign, defaultUid, defaultFn));
      b.toSign == [] || (text.Success? && prim.sign(text.value, privateKeys).Success?)
    case ClearText =>
      b.toClearText == [] || prim.serialize(b.toClearText).Success?
  }

  /**
   * What a card of each type carries: the ciphertext and signature the encryptor
   * returned for the serialized encrypted bucket; the exact serialized text of
   * the signed bucket (with defaults) and the signer's signature over it; the
   * serialized clear-text bucket and no signature.
   */
  predicate CardFromTier(c: Card, b: Buckets, privateKeys: seq<Key>, publicKeys: seq<Key>,
                         prim: Primitives, defaultUid: string, defaultFn: string)
  {
    match c.cardType
    case EncryptedAndSigned =>
      var text := prim.serialize(b.toEncryptAndSign);
      text.Success? && c.signature.Some? &&
      prim.encrypt(text.value, publicKeys, privateKeys) == Success(Encrypted(c.data, c.signature.value))
    case Signed =>
      prim.serialize(WithDefaults(b.toSign, defaultUid, defaultFn)) == Success(c.data) &&
      c.signature.Some? && prim.sign(c.data, privateKeys) == Success(c.signature.value)
    case ClearText =>
      prim.serialize(b.toClearText) == Success(c.data) && c.signature == None
  }

  /** What one tier pushes, when the serializer does not throw: one pending card of its type, or nothing. */
  ghost predicate PendingFor(p: seq<Result<Card, string>>, t: CardType, b: Buckets, privateKeys: seq<Key>,
                             publicKeys: seq<Key>, prim: Primitives, defaultUid: string, defaultFn: string)
  {
    && |p| == (if b.Get(t) == [] then 0 else 1)
    && (forall k :: 0 <= k < |p| ==>
          (p[k].Success? <==> TierSucceeds(t, b, privateKeys, publicKeys, prim, defaultUid, defaultFn)))
    && (forall k :: 0 <= k < |p| && p[k].Success? ==>
          p[k].value.cardType == t && CardFromTier(p[k].value, b, privateKeys, publicKeys, prim, defaultUid, defaultFn))
  }

  /** The three tiers' contributions, and when the serializer lets each through. */
  lemma TiersPending(b: Buckets, privateKeys: seq<Key>, publicKeys: seq<Key>,
                     prim: Primitives, defaultUid: string, defaultFn: string)
    ensures var e := EncryptTier(b.toEncryptAndSign, privateKeys, publicKeys, prim);
      && (e.Success? <==> b.toEncryptAndSign == [] || prim.serialize(b.toEncryptAndSign).Success?)
      && (e.Success? ==> PendingFor(e.value, EncryptedAndSigned, b, privateKeys, publicKeys, prim, defaultUid, defaultFn))
    ensures var s := SignTier(b.toSign, privateKeys, prim, defaultUid, defaultFn);
      && (s.Success? <==> b.toSign == [] || prim.serialize(WithDefaults(b.toSign, defaultUid, defaultFn)).Success?)
      && (s.Success? ==> PendingFor(s.value, Signed, b, privateKeys, publicKeys, prim, defaultUid, defaultFn))
    ensures var c := ClearTier(b.toClearText, prim);
      && (c.Success? <==> b.toClearText == [] || prim.serialize(b.toClearText).Success?)
      && (c.Success? ==> PendingFor(c.value, ClearText, b, privateKeys, publicKeys, prim, defaultUid, defaultFn))
  {
  }

  /**
   * All or nothing: the cards of a record are produced exactly when every
   * required tier's serialization and cryptographic call succeeds.
   */
  lemma BuildCardsSucceeds(ps: seq<Property>, tables: FieldTables, privateKeys: seq<Key>, publicKeys: seq<Key>,
                           prim: Primitives, defaultUid: string, defaultFn: string)
    ensures BuildCards(ps, tables, privateKeys, publicKeys, prim, defaultUid, defaultFn).Success? <==>
      forall t :: TierSucceeds(t, Split(ps, tables), privateKeys, publicKeys, prim, defaultUid, defaultFn)
  {
    var b := Split(ps, tables);
    TiersPending(b, privateKeys, publicKeys, prim, defaultUid, defaultFn);
    var e := EncryptTier(b.toEncryptAndSign, privateKeys, publicKeys, prim);
    var s := SignTier(b.toSign, privateKeys, prim, defaultUid, defaultFn);
    var c := ClearTier(b.toClearText, prim);
    if e.Success? && s.Success? && c.Success? {
      var pending := e.value + s.value + c.value;
      assert BuildCards(ps, tables, privateKeys, publicKeys, prim, defaultUid, defaultFn) == All(pending);
      if forall t :: TierSucceeds(t, b, privateKeys, publicKeys, prim, defaultUid, defaultFn) {
        forall i | 0 <= i < |pending| ensures pending[i].Success? {
          if i < |e.value| {
            assert pending[i] == e.value[i];
          } else if i < |e.value| + |s.value| {
            assert pending[i] == s.value[i - |e.value|];
          } else {
            assert pending[i] == c.value[i - |e.value| - |s.value|];
          }
        }
      } else {
        var t :| !TierSucceeds(t, b, privateKeys, publicKeys, prim, defaultUid, defaultFn);
        match t
        case EncryptedAndSigned => assert pending[0] == e.value[0];
        case Signed => assert pending[|e.value|] == s.value[0];
        case ClearText =>
      }
    } else {
      assert !TierSucceeds(EncryptedAndSigned, b, privateKeys, publicKeys, prim, defaultUid, defaultFn)
          || !TierSucceeds(Signed, b, privateKeys, publicKeys, prim, defaultUid, defaultFn)
          || !TierSucceeds(ClearText, b, privateKeys, publicKeys, prim, defaultUid, defaultFn);
    }
  }

  /**
   * The cards of a record that succeeded: one per non-empty bucket, no more;
   * ordered encrypted-and-signed, signed, clear text; a card of a type exists
   * exactly when its bucket is non-empty; and each carries what its tier's calls
   * returned (`CardFromTier`).
   */
  lemma BuildCardsShape(ps: seq<Property>, tables: FieldTables, privateKeys: seq<Key>, publicKeys: seq<Key>,
                        prim: Primitives, defaultUid: string, defaultFn: string)
    requires BuildCards(ps, tables, privateKeys, publicKeys, prim, defaultUid, defaultFn).Success?
    ensures var cards := BuildCards(ps, tables, privateKeys, publicKeys, prim, defaultUid, defaultFn).value;
            var b := Split(ps, tables);
      && |cards| == NonEmptyCount(b) <= 3
      && (forall i, j :: 0 <= i < j < |cards| ==> Rank(cards[i].cardType) < Rank(cards[j].cardType))
      && (forall t :: b.Get(t) != [] <==> exists i :: 0 <= i < |cards| && cards[i].cardType == t)
      && (forall i :: 0 <= i < |cards| ==>
            CardFromTier(cards[i], b, privateKeys, publicKeys, prim, defaultUid, defaultFn))
  {
    var b := Split(ps, tables);
    TiersPending(b, privateKeys, publicKeys, prim, defaultUid, defaultFn);
    var e := EncryptTier(b.toEncryptAndSign, privateKeys, publicKeys, prim).value;
    var s := SignTier(b.toSign, privateKeys, prim, defaultUid, defaultFn).value;
    var c := ClearTier(b.toClearText, prim).value;
    var pending := e + s + c;
    assert BuildCards(ps, tables, privateKeys, publicKeys, prim, defaultUid, defaultFn) == All(pending);
    var cards := All(pending).value;
    // the type of the card at index i, read off the tier that pushed it
    forall i | 0 <= i < |cards|
      ensures cards[i].cardType == (if i < |e| then EncryptedAndSigned else if i < |e| + |s| then Signed else ClearText)
      ensures CardFromTier(cards[i], b, privateKeys, publicKeys, prim, defaultUid, defaultFn)
    {
      assert pending[i] == Success(cards[i]);
      if i < |e| {
        assert pending[i] == e[i];
      } else if i < |e| + |s| {
        assert pending[i] == s[i - |e|];
      } else {
        assert pending[i] == c[i - |e| - |s|];
      }
    }
    forall t ensures b.Get(t) != [] <==> exists i :: 0 <= i < |cards| && cards[i].cardType == t {
      match t
      case EncryptedAndSigned =>
        if b.Get(t) != [] { assert cards[0].cardType == t; }
      case Signed =>
        if b.Get(t) != [] { assert cards[|e|].cardType == t; }
      case ClearText =>
        if b.Get(t) != [] { assert cards[|e| + |s|].cardType == t; }
    }
  }

  /** A record without a `categories` property gets no clear-text card. */
  lemma NoCategoriesNoClearTextCard(ps: seq<Property>, tables: FieldTables, privateKeys: seq<Key>, publicKeys: seq<Key>,
                                    prim: Primitives, defaultUid: string, defaultFn: string)
    requires !HasCategories(ps)
    requires BuildCards(ps, tables, privateKeys, publicKeys, prim, defaultUid, defaultFn).Success?
    ensures var cards := BuildCards(ps, tables, privateKeys, publicKeys, prim, defaultUid, defaultFn).value;
      forall i :: 0 <= i < |cards| ==> cards[i].cardType != ClearText
  {
    NoCategoriesNoClearText(ps, tables);
    BuildCardsShape(ps, tables, privateKeys, publicKeys, prim, defaultUid, defaultFn);
  }

  /**
   * The clear-text tier makes no cryptographic call: when it is the only
   * non-empty bucket, the outcome does not depend on the encryptor, the signer
   * or the keys.
   */
  lemma ClearTextNeedsNoCrypto(ps: seq<Property>, tables: FieldTables, privateKeys: seq<Key>, publicKeys: seq<Key>,
                               prim: Primitives, defaultUid: string, defaultFn: string,
                               otherPrivateKeys: seq<Key>, otherPublicKeys: seq<Key>, other: Primitives)
    requires Split(ps, tables).toEncryptAndSign == [] && Split(ps, tables).toSign == []
    ensures BuildCards(ps, tables, privateKeys, publicKeys, prim, defaultUid, defaultFn) ==
            BuildCards(ps, tables, otherPrivateKeys, otherPublicKeys,
                       Primitives(prim.serialize, other.encrypt, other.sign), defaultUid, defaultFn)
  {
  }

  /**
   * A record `fn: Alice`, `email: a@example.com`, with no clear-text fields and
   * only `fn` signed: the email is encrypted, the name is signed with a generated
   * `uid` appended, nothing is clear, and two cards are produced in that order.
   */
  lemma AliceScenario(privateKeys: seq<Key>, publicKeys: seq<Key>, prim: Primitives, defaultUid: string, defaultFn: string)
    ensures var fn, email := Bare("fn", "Alice"), Bare("email", "a@example.com");
            var tables := FieldTables({}, {"fn"});
      && Split([fn, email], tables) == Buckets([email], [fn], [])
      && WithDefaults([fn], defaultUid, defaultFn) == [fn, Bare("uid", defaultUid)]
      && var r := BuildCards([fn, email], tables, privateKeys, publicKeys, prim, defaultUid, defaultFn);
         r.Success? ==> |r.value| == 2 && r.value[0].cardType == EncryptedAndSigned && r.value[1].cardType == Signed
  {
    var fn, email := Bare("fn", "Alice"), Bare("email", "a@example.com");
    var tables := FieldTables({}, {"fn"});
    var ps := [fn, email];
    assert ps[..1] == [fn];
    assert [fn][..0] == [];
    assert !HasCategories(ps) by {
      assert "fn" != "categories" && "email" != "categories";
    }
    assert HasField([fn], "fn") by {
      assert [fn][0].field == "fn";
    }
    assert !HasField([fn], "uid") by {
      assert "fn" != "uid";
    }
    assert Select([fn], EncryptedAndSigned, false, tables) == [];
    assert Select(ps, EncryptedAndSigned, false, tables) == [email];
    assert Select([fn], Signed, false, tables) == [fn];
    assert Select(ps, Signed, false, tables) == [fn];
    NoClearTextWithoutSplit(ps, tables);
    if BuildCards(ps, tables, privateKeys, publicKeys, prim, defaultUid, defaultFn).Success? {
      BuildCardsShape(ps, tables, privateKeys, publicKeys, prim, defaultUid, defaultFn);
    }
  }
}
