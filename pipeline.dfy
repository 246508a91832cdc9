/** `prepareContact` and `prepareContacts`: the per-record pipeline and its batch form. */
module Pipeline {
  import opened Wrappers
  import opened Promises
  import opened Contact
  import opened Partition
  import opened CardBuilder

  /** The normalizers of the properties helpers (`sanitizeProperties`, `addPref`, `addGroup`), taken as given. */
  datatype Normalizers = Normalizers(
    sanitize: seq<Property> -> seq<Property>,
    addPref: seq<Property> -> seq<Property>,
    addGroup: seq<Property> -> seq<Property>)

  /** The primary key pair a user's contacts are saved with. */
  datatype KeyPair = KeyPair(privateKey: Key, publicKey: Key)

  /** What `prepareContact` resolves to: `{ Cards }`. */
  datatype PreparedContact = PreparedContact(cards: seq<Card>)

  /** Sanitizing, then adding preferences, then adding groups. */
  function Normalize(ps: seq<Property>, norm: Normalizers): seq<Property> {
    norm.addGroup(norm.addPref(norm.sanitize(ps)))
  }

  /**
   * `prepareContact` (encrypt.js): the cards of the normalized properties, built
   * with the single private key for signing and the single public key for
   * encryption. `defaultUid` stands for the value `generateUID` would return and
   * `defaultFn` for the translated "Unknown".
   */
  function PrepareContact(ps: seq<Property>, keys: KeyPair, tables: FieldTables, norm: Normalizers,
                          prim: Primitives, defaultUid: string, defaultFn: string): Result<PreparedContact, string>
  {
    var cards :- BuildCards(Normalize(ps, norm), tables, [keys.privateKey], [keys.publicKey], prim, defaultUid, defaultFn);
    Success(PreparedContact(cards))
  }

  /**
   * A prepared contact carries one card per non-empty bucket of its normalized
   * properties, in tier order, a card of a type exactly when that bucket is
   * non-empty, each made with exactly the contact's one key pair;
   * and it has no clear-text card unless the normalized properties have categories.
   */
  lemma PrepareContactCards(ps: seq<Property>, keys: KeyPair, tables: FieldTables, norm: Normalizers,
                            prim: Primitives, defaultUid: string, defaultFn: string)
    requires PrepareContact(ps, keys, tables, norm, prim, defaultUid, defaultFn).Success?
    ensures var cards := PrepareContact(ps, keys, tables, norm, prim, defaultUid, defaultFn).value.cards;
            var b := Split(Normalize(ps, norm), tables);
      && |cards| == NonEmptyCount(b) <= 3
      && (forall i, j :: 0 <= i < j < |cards| ==> Rank(cards[i].cardType) < Rank(cards[j].cardType))
      && (forall t :: b.Get(t) != [] <==> exists i :: 0 <= i < |cards| && cards[i].cardType == t)
      && (forall i :: 0 <= i < |cards| ==>
            CardFromTier(cards[i], b, [keys.privateKey], [keys.publicKey], prim, defaultUid, defaultFn))
      && (!HasCategories(Normalize(ps, norm)) ==> forall i :: 0 <= i < |cards| ==> cards[i].cardType != ClearText)
  {
    var n := Normalize(ps, norm);
    BuildCardsShape(n, tables, [keys.privateKey], [keys.publicKey], prim, defaultUid, defaultFn);
    if !HasCategories(n) {
      NoCategoriesNoClearTextCard(n, tables, [keys.privateKey], [keys.publicKey], prim, defaultUid, defaultFn);
    }
  }

  /**
   * `prepareContacts` (encrypt.js): prepare every contact, collecting the outcomes
   * in input order, and join them. Contact `i` would be given `uidFor(i)` if it
   * needs a generated `uid`. The batch succeeds exactly when every contact does,
   * and then holds one result per contact in input order; otherwise it fails
   * with the error of a contact that failed.
   */
  method PrepareContacts(contacts: seq<seq<Property>>, keys: KeyPair, tables: FieldTables, norm: Normalizers,
                         prim: Primitives, uidFor: nat -> string, defaultFn: string)
    returns (r: Result<seq<PreparedContact>, string>)
    ensures r.Success? <==>
      forall i :: 0 <= i < |contacts| ==> PrepareContact(contacts[i], keys, tables, norm, prim, uidFor(i), defaultFn).Success?
    ensures r.Success? ==> |r.value| == |contacts|
    ensures r.Success? ==> forall i :: 0 <= i < |contacts| ==>
      PrepareContact(contacts[i], keys, tables, norm, prim, uidFor(i), defaultFn) == Success(r.value[i])
    ensures r.Failure? ==>
      exists i :: (0 <= i < |contacts| &&
                   PrepareContact(contacts[i], keys, tables, norm, prim, uidFor(i), defaultFn) == Failure(r.error))
    ensures contacts == [] ==> r == Success([])
  {
    var promises: seq<Result<PreparedContact, string>> := [];
    for i := 0 to |contacts|
      invariant |promises| == i
      invariant forall j :: 0 <= j < i ==>
        promises[j] == PrepareContact(contacts[j], keys, tables, norm, prim, uidFor(j), defaultFn)
    {
      promises := promises + [PrepareContact(contacts[i], keys, tables, norm, prim, uidFor(i), defaultFn)];
    }
    r := All(promises);
  }
}
