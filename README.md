# Contact card preparation, modelled in Dafny

This project models how the contacts application prepares a contact for the
server (`src/app/helpers/encrypt.js`). A contact is a flat list of vCard
properties. It is split into three tiers, one card per non-empty tier:

- **encrypted and signed**: everything that is neither clear nor signed-only;
- **signed**: the fields of `SIGNED_FIELDS`, plus a default `uid` and a default
  `fn` when they are missing;
- **clear text**: the fields of `CLEAR_FIELDS`, but only when the contact has a
  `categories` property.

Each tier is serialized to vCard text. Then it is encrypted and signed, signed,
or left clear. The cards are emitted in a fixed order. A batch of contacts is
prepared one by one and joined.

Modules, one per stage:

- `Wrappers` (`wrappers.dfy`): `Option` and `Result`.
- `Promises` (`promises.dfy`): `All`, the join of settled outcomes that `Promise.all` performs.
- `Contact` (`contact.dfy`): `Property`, `Value`, `CardType`, `Card`, the field tables, and the `some` predicates (`HasField`, `HasCategories`).
- `Partition` (`partition.dfy`): `splitProperties`. The method `SplitProperties` is the source's single left-to-right pass. It is proved equal to `Split`, which states the routing as one filter per tier (`Select` with `InTier`).
- `CardBuilder` (`cards.dfy`): `prepareCards`. The method `PrepareCards` follows the source step by step: it appends the defaults to `toSign` in place and pushes pending cards. It is proved equal to the function `BuildCards`.
- `Pipeline` (`pipeline.dfy`): `prepareContact` as a function, and `prepareContacts` as a loop method.

Collaborators that live outside this file are passed in as parameters:

- the vCard serializer `toICAL(...).toString()`. It may throw, so it returns a `Result`.
- `encryptMessage` and `signMessage`. Each is given as the outcome its promise settles with.
- `sanitizeProperties`, `addPref` and `addGroup`.
- the value `generateUID` returns, and the translated "Unknown".
- the two field tables, as sets.

`hasCategories` is defined here as "some property has field `categories`".

## Model

| member | source | states |
|---|---|---|
| `Promises.All` | src/app/helpers/encrypt.js:107 | The join succeeds exactly when every pushed outcome succeeds. It then holds one value per outcome, in push order. Otherwise it fails with the error of a failed outcome that has only successes before it. |
| `Partition.SplitProperties` | src/app/helpers/encrypt.js:17-45 | The single pass with its if / else-if / else routing yields exactly the three per-tier filters of `Split`. |
| `Partition.SelectMembership` | src/app/helpers/encrypt.js:21-44 | A property is in a tier's bucket if and only if it is in the input and routed to that tier. |
| `Partition.SelectAtPositions` | src/app/helpers/encrypt.js:21-43 | Each bucket is the input restricted to a strictly increasing list of indices, all of them routed to that tier. |
| `Partition.BucketsAreSubsequences` | src/app/helpers/encrypt.js:21-43 | Every bucket is a subsequence of the input, so relative input order is preserved. |
| `Partition.SplitMembership` | src/app/helpers/encrypt.js:19-44 | Both directions for each bucket. Clear text: in the input, the contact has categories, and the field is clear-eligible. Signed: in the input and the field is signed-eligible. Encrypted: in the input and neither of the above. |
| `Partition.EveryPropertyRouted` | src/app/helpers/encrypt.js:21-44 | A property is in the input if and only if it is in at least one bucket. |
| `Partition.BucketsOverlapOnlyByRule` | src/app/helpers/encrypt.js:25-41 | The encrypted bucket is disjoint from the other two, so no property is in all three. The signed and clear-text buckets share exactly the input properties whose field is in both tables, when categories are present. |
| `Partition.SelectSizes` | src/app/helpers/encrypt.js:25-41 | For either value of the categories flag, the three bucket sizes add up to the input size plus the number of overlap properties. |
| `Partition.SplitSizes` | src/app/helpers/encrypt.js:19-32 | `\|toEncryptAndSign\| + \|toSign\| + \|toClearText\| == \|properties\| + overlaps`. The overlap count is zero when there are no categories. |
| `Partition.NoCategoriesNoClearText` | src/app/helpers/encrypt.js:18-26 | A contact without a `categories` property has an empty `toClearText`. |
| `Contact.FieldCountPositive` | src/app/helpers/encrypt.js:73-74 | The `some(field === f)` check holds exactly when at least one property has field `f`. |
| `CardBuilder.PrepareCards` | src/app/helpers/encrypt.js:54-108 | The step-by-step method yields exactly `BuildCards`. That covers the in-place default appends, the conditional pushes in tier order, the serializer's throw aborting before the join, and the final join. |
| `CardBuilder.WithDefaultsProperties` | src/app/helpers/encrypt.js:72-84 | After injection the signed bucket has a `uid` and an `fn`. The original entries stay first and unchanged, and at most two entries are added. A present field keeps its count and a missing one gets exactly one entry. Every appended entry is the default `uid` or the default `fn`, and a missing `uid` is appended first. The bucket is unchanged if and only if both fields were already present. |
| `CardBuilder.WithDefaultsIdempotent` | src/app/helpers/encrypt.js:73-84 | Injecting again into an already injected bucket changes nothing. |
| `CardBuilder.BuildCardsSucceeds` | src/app/helpers/encrypt.js:55-107 | Cards are produced if and only if, for every non-empty bucket, its serialization and its cryptographic call (if any) succeed. There are no partial card lists. |
| `CardBuilder.BuildCardsShape` | src/app/helpers/encrypt.js:58-107 | On success: there is one card per non-empty bucket, so at most three. Card types strictly follow the order encrypted-and-signed, signed, clear text. A card of a type exists if and only if its bucket is non-empty. The encrypted card holds the encryptor's ciphertext and signature for the serialized bucket. The signed card holds exactly the serialized text that was signed, with the signer's signature. The clear card holds the serialized bucket with a `null` signature. |
| `CardBuilder.NoCategoriesNoClearTextCard` | src/app/helpers/encrypt.js:97-105 | A contact without categories gets no clear-text card. |
| `CardBuilder.ClearTextNeedsNoCrypto` | src/app/helpers/encrypt.js:97-104 | When only the clear-text bucket is non-empty, the outcome does not depend on the encryptor, the signer or the keys. |
| `CardBuilder.AliceScenario` | src/app/helpers/encrypt.js:17-95 | Input `fn: Alice`, `email: a@example.com`, with no clear fields and only `fn` signed. Then email is encrypted, `fn` is signed with a generated `uid` appended, the clear bucket is empty, and a success gives exactly two cards, encrypted first and signed second. |
| `Pipeline.PrepareContactCards` | src/app/helpers/encrypt.js:119-125 | A prepared contact's cards are those of its sanitized, pref-numbered, grouped properties. There is one card per non-empty bucket, in tier order, and a card of a type exists if and only if its bucket is non-empty. Each card is made with exactly `[privateKey]` for signing and `[publicKey]` for encryption. There is no clear-text card without categories. |
| `Pipeline.PrepareContacts` | src/app/helpers/encrypt.js:133-140 | The batch succeeds if and only if every contact does. It then holds one result per contact, in input order. Otherwise it fails with the error of some failing contact. An empty batch gives an empty list. |

## Left out

- Cryptography: `encryptMessage` and `signMessage` are parameters, given by the outcome their promise settles with. The `armor` and `detached` options are not modelled.
- Whether a signature verifies, or a ciphertext decrypts back to the serialized text: this belongs to the cryptographic library, which is not part of this model.
- Serialization: `toICAL(...).toString()` is an opaque parameter. The vCard format is not part of this model.
- `generateUID` and the translation call `c(...)` are not deterministic locale-free code. They become the parameters `defaultUid` / `uidFor(i)` and `defaultFn`.
- `sanitizeProperties`, `addPref` and `addGroup` are not part of this model. They are opaque normalizers. `hasCategories` is defined here as "some property has field `categories`".
- The contents of `CLEAR_FIELDS` and `SIGNED_FIELDS`, and the numeric codes of `CONTACT_CARD_TYPE`, are not part of this model. The tables are set parameters and the card types are a datatype.
- Concurrency: the pending tier operations and contacts are modelled by the outcomes they settle with, joined in push order. This is also why output order does not depend on completion order.
- Promises.All: when several outcomes fail, `Promise.all` rejects with whichever fails first in time. The model picks the first in push order.
- Pipeline.PrepareContacts: for the same reason, its failure contract only says the error is that of some failing contact.
- Default arguments: `properties = []` and `contacts = []` only matter for an `undefined` argument. An absent list is modelled as the empty sequence.
- The components `ImportCsvModalContent.js` and `ContactView.js` are UI code around this pipeline and are not modelled.
- `prepareCards` adds a default only when the field is missing, so a signed bucket that already holds two `uid` entries keeps both; the model states exactly that (`WithDefaultsProperties`).
