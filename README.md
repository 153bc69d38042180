# Paste container protocol (permapaste), modelled in Dafny

permapaste publishes short text documents ("pastes") to the Arweave ledger. A
paste is written in one of two ways:

- **Public.** The paste's text is the transaction payload. The transaction
  carries four metadata tags in order: `t_type=P`, `Title=<title>`,
  `t_format=<format>` and `Content-Type=text/plain`.
- **Encrypted.** The whole paste, privacy included, is serialised as JSON and
  encrypted with a password. The ciphertext is the payload and no tag is
  attached.

When a record is fetched, `getPaste` decides how to read it. The record is
public exactly when some tag is named `t_format`. A public record is rebuilt
as a paste with lenient defaults: format `plaintext` unless the first
`t_format` value is exactly `markdown`, an empty title when there is none, and
privacy `public`. Any other record is returned as an encrypted container
holding the raw bytes. `decryptPasteContainer` decrypts such a container with
a password and parses the plaintext back into a paste.

Files:

- `collaborators.dfy` (module `Collaborators`) holds what the protocol calls
  but does not define. The UTF-8 text codec, the password cipher and the JSON
  serialiser are records of function values. The laws they are expected to
  obey are ghost predicates: decoding inverts encoding (`DecodesEncoded`),
  decrypting with the same password inverts encrypting (`DecryptsEncrypted`),
  and parsing inverts stringifying (`ParsesStringified`). The round-trip
  lemmas take these laws as hypotheses.
- `pastes.dfy` (module `Pastes`) holds the tag constants and the `Paste`,
  `Container`, `Tag` and `Record` types. It also holds the `Transaction` class,
  whose `AddTag` appends to its tag sequence as `tx.addTag` does. The two
  encoders are methods over that class. The tag lookup, the decoder and the
  decryption step are functions. The lemmas about all of these sit beside
  them.

A container's `encrypted` flag is its variant: `Plain` is `encrypted: false`
and `Encrypted` is `encrypted: true`. Record ids are assigned by the ledger,
so they are parameters here.

## Model

| member | source | states |
|---|---|---|
| `Pastes.Transaction.constructor` | src/lib/pastes.ts:41 | a new transaction carries the given payload and no tags |
| `Pastes.Transaction.AddTag` | src/lib/pastes.ts:43-46 | adding a tag appends exactly that name/value pair after the existing tags |
| `Pastes.PostPlaintextPaste` | src/lib/pastes.ts:39-55 | the payload is the paste text and the tags are exactly `t_type=P`, `Title=title`, `t_format=format`, `Content-Type=text/plain`, in that order; the result is a non-encrypted container holding the input paste unchanged; decoding the posted record gives the paste back with privacy public |
| `Pastes.PostEncryptedPaste` | src/lib/pastes.ts:66-84 | the payload is the encryption of the serialised paste and no tag is added; the result is an encrypted container with those same bytes; decoding the posted record gives exactly that container |
| `Pastes.FindTag` | src/lib/pastes.ts:101-102 | the lookup finds nothing iff no tag has the name; otherwise it returns a tag with that name at an index where no earlier tag has the name |
| `Pastes.FindTagFirst` | src/lib/pastes.ts:101-102 | when several tags share a name, the first one is returned |
| `Pastes.GetPaste` | src/lib/pastes.ts:95-123 | the record is read as plain iff some tag is named `t_format`; a plain result has privacy public and the payload's text; an encrypted result has the raw payload; both keep the record id |
| `Pastes.ClassificationIgnoresPayload` | src/lib/pastes.ts:101-104 | two records with the same tags are classified alike, whatever their payloads |
| `Pastes.DecodedFormat` | src/lib/pastes.ts:101-109 | the format is markdown iff the first `t_format` value is `"markdown"`; every other value gives plaintext |
| `Pastes.DecodedTitle` | src/lib/pastes.ts:102-111 | the title is the value of the first `Title` tag, or `""` when there is no `Title` tag |
| `Pastes.UntaggedIsEncrypted` | src/lib/pastes.ts:116-121 | a record without tags is read as an encrypted container with its id and raw bytes, whatever the payload |
| `Pastes.FormatNameRoundTrip` | src/lib/pastes.ts:45-109 | reading back, with the decoder's own format rule `ParseFormat`, the format name written in the `t_format` tag gives the original format |
| `Pastes.PublicRoundTrip` | src/lib/pastes.ts:41-115 | decoding a public paste's record gives back its title, text and format, with privacy public for either input privacy |
| `Pastes.DecryptPasteContainer` | src/lib/pastes.ts:86-93 | the result fails iff decryption or parsing fails; a success is a non-encrypted container with the same id holding exactly the paste parsed from the text of the decrypted bytes |
| `Pastes.DecryptWithSamePassword` | src/lib/pastes.ts:68-92 | under the collaborator laws, decrypting with the encryption password gives back the whole serialised paste, its privacy included, under the same id |
| `Pastes.EncryptedRoundTrip` | src/lib/pastes.ts:66-121 | a record from the encrypted encoder is read as encrypted, and decrypting it with the same password gives back the original paste |

## Left out

- Ledger I/O (`createTransaction`, `sign`, `post`, `transactions.get`, `tx.get`, `tx.id`) is out of scope. Ids are parameters. A posted record is the transaction's payload and tags under that id.
- Tag transport decoding (`b64UrlToString` on tag names and values, line 99) is not modelled. A record's tags are already-decoded text.
- Turning payload bytes into text (`b64UrlToString(tx.data)`, `TextDecoder`) is an abstract `TextCodec.decode`. Turning the paste text into a payload is an abstract `TextCodec.encode`.
- Real cryptography (`encryptData` / `decryptData`, whose module `./crypto` is not part of this model) is an abstract `Cipher`. The cipher's randomness is not modelled: `encrypt` is a deterministic function of the plaintext and the password.
- The salt is not modelled as a separate value. `encryptData` returns a salt beside the ciphertext, but only the ciphertext is stored (line 70), and no `t_salt` tag is ever written. This contradicts the doc comment at lines 59-60, which says the salt is encoded as base64url for the tags. The law `DecryptsEncrypted` assumes that the stored ciphertext bytes decrypt under the same password on their own. That holds only if the cipher embeds its salt in the ciphertext, and `./crypto` is not part of this model. `DecryptWithSamePassword` and `EncryptedRoundTrip` depend on this assumption.
- Strings here are sequences of Unicode scalar values, so they cannot hold the unpaired surrogates a JavaScript string may contain. In the source, UTF-8 encoding of the payload and the tags (lines 41 and 43-46) replaces each unpaired surrogate with U+FFFD. For such a title or text, the public round trip does not give the original back. The model excludes these strings by its types, and `DecodesEncoded` is a real UTF-8 property only on that domain.
- Failure on a wrong password is not proved. The abstract cipher may return `None` for any password other than the encrypting one, but nothing forces it to. The model does cover failure propagation: `DecryptPasteContainer` returns `None` exactly when decryption or parsing fails.
- `JSON.stringify` / `JSON.parse` are an abstract `Serialiser`. The source does not check the shape of what `JSON.parse` returns; here `parse` yields either a `Paste` or `None`.
- `SALT_TAG` and `TYPE_TAG_ENCRYPTED` (lines 8 and 10) are declared but never written or read, so they are not modelled. The `t_type=P` tag is written but never read by the decoder.
- `console.info` logging, async/Promise plumbing and the `jwk` signing key have no counterpart.
