/** The paste container protocol: how a paste is written to the ledger (as
    public text with metadata tags, or as a tagless encrypted blob), how a
    fetched ledger record is read back as a public or an encrypted
    container, and how an encrypted container is decrypted. The ledger
    client, the cipher and the serialiser are collaborators passed in as
    values (module Collaborators); record ids are supplied by the caller. */
module Pastes {
  import opened Collaborators

  // Tag keys and values
  const TYPE_TAG := "t_type"
  const FORMAT_TAG := "t_format"
  const TYPE_TAG_PUBLIC := "P"
  const TITLE_TAG := "Title"
  const CONTENT_TYPE_TAG := "Content-Type"
  const TEXT_PLAIN := "text/plain"

  datatype Format = Markdown | Plaintext
  datatype Privacy = Public | Private

  datatype Paste = Paste(pasteTitle: string, pasteText: string, pasteFormat: Format, pastePrivacy: Privacy)

  /** A container is either plain (`encrypted: false`, carrying a paste) or
      encrypted (`encrypted: true`, carrying the raw ciphertext). */
  datatype Container =
    | Plain(txId: string, paste: Paste)
    | Encrypted(txId: string, ciphertext: Bytes)

  /** A metadata tag, with name and value already decoded to text. */
  datatype Tag = Tag(name: string, value: string)

  /** A fetched ledger record: its id, its tags in order and its payload. */
  datatype Record = Record(id: string, tags: seq<Tag>, data: Bytes)

  /** The string a format is written as in the `t_format` tag. */
  function FormatName(f: Format): string {
    match f
    case Markdown => "markdown"
    case Plaintext => "plaintext"
  }

  /** The format a `t_format` value is read as: anything but "markdown" is
      plaintext. */
  function ParseFormat(s: string): Format {
    if s == "markdown" then Markdown else Plaintext
  }

  /** A transaction under construction: its payload is fixed when it is
      created and tags are appended one at a time. */
  class Transaction {
    const data: Bytes
    var tags: seq<Tag>

    constructor (data: Bytes)
      ensures this.data == data && tags == []
    {
      this.data := data;
      tags := [];
    }

    method AddTag(name: string, value: string)
      modifies this
      ensures tags == old(tags) + [Tag(name, value)]
    {
      tags := tags + [Tag(name, value)];
    }
  }

  /** The record a posted transaction becomes once the ledger gives it `id`. */
  function Posted(tx: Transaction, id: string): Record
    reads tx
  {
    Record(id, tx.tags, tx.data)
  }

  /** The tags of a public paste, in the order they are added. */
  function PublicTags(paste: Paste): seq<Tag> {
    [Tag(TYPE_TAG, TYPE_TAG_PUBLIC),
     Tag(TITLE_TAG, paste.pasteTitle),
     Tag(FORMAT_TAG, FormatName(paste.pasteFormat)),
     Tag(CONTENT_TYPE_TAG, TEXT_PLAIN)]
  }

  /** Builds the transaction for a public paste: the payload is the paste's
      text, followed by four tags. The returned container holds the paste
      unchanged, and decoding the posted record gives the paste back with
      its privacy reported as public. */
  method PostPlaintextPaste(paste: Paste, text: TextCodec, txId: string) returns (c: Container, tx: Transaction)
    ensures fresh(tx)
    ensures tx.data == text.encode(paste.pasteText)
    ensures tx.tags == PublicTags(paste)
    ensures c == Plain(txId, paste)
    ensures DecodesEncoded(text) ==>
      GetPaste(Posted(tx, txId), text) == Plain(txId, paste.(pastePrivacy := Public))
  {
    tx := new Transaction(text.encode(paste.pasteText));
    tx.AddTag(TYPE_TAG, TYPE_TAG_PUBLIC);
    tx.AddTag(TITLE_TAG, paste.pasteTitle);
    tx.AddTag(FORMAT_TAG, FormatName(paste.pasteFormat));
    tx.AddTag(CONTENT_TYPE_TAG, TEXT_PLAIN);
    c := Plain(txId, paste);
    if DecodesEncoded(text) {
      PublicRoundTrip(paste, txId, text);
    }
  }

  /** Builds the transaction for an encrypted paste: the whole paste is
      serialised and encrypted, and no tag at all is added. Decoding the
      posted record gives back exactly the returned container. */
  method PostEncryptedPaste(paste: Paste, password: string, json: Serialiser<Paste>, cipher: Cipher, txId: string)
    returns (c: Container, tx: Transaction)
    ensures fresh(tx)
    ensures tx.data == cipher.encrypt(json.stringify(paste), password)
    ensures tx.tags == []
    ensures c == Encrypted(txId, tx.data)
    ensures forall text :: GetPaste(Posted(tx, txId), text) == c
  {
    var data := cipher.encrypt(json.stringify(paste), password);
    tx := new Transaction(data);
    c := Encrypted(txId, data);
  }

  /** Index i holds the first tag called `name`. */
  ghost predicate FirstWith(tags: seq<Tag>, name: string, i: int) {
    0 <= i < |tags| && tags[i].name == name &&
    forall j :: 0 <= j < i ==> tags[j].name != name
  }

  /** The first tag called `name`, if any (Array.prototype.find). */
  function FindTag(tags: seq<Tag>, name: string): (r: Option<Tag>)
    ensures r.None? <==> forall i :: 0 <= i < |tags| ==> tags[i].name != name
    ensures r.Some? ==> exists i :: FirstWith(tags, name, i) && tags[i] == r.value
  {
    if tags == [] then None
    else if tags[0].name == name then
      assert FirstWith(tags, name, 0);
      Some(tags[0])
    else
      var r := FindTag(tags[1..], name);
      assert r.Some? ==> exists i :: FirstWith(tags, name, i) && tags[i] == r.value by {
        if r.Some? {
          var k :| FirstWith(tags[1..], name, k) && tags[1..][k] == r.value;
          assert FirstWith(tags, name, k + 1);
        }
      }
      r
  }

  /** Reads a fetched record. It is public exactly when some tag is called
      `t_format`; then the paste is rebuilt with lenient defaults (format
      `markdown` only for that exact value, title empty when missing) and
      privacy public. Otherwise the payload is returned as ciphertext. */
  function GetPaste(r: Record, text: TextCodec): (c: Container)
    ensures c.txId == r.id
    ensures c.Plain? <==> exists i :: 0 <= i < |r.tags| && r.tags[i].name == FORMAT_TAG
    ensures c.Plain? ==> c.paste.pastePrivacy == Public && c.paste.pasteText == text.decode(r.data)
    ensures c.Encrypted? ==> c.ciphertext == r.data
  {
    var formatTag := FindTag(r.tags, FORMAT_TAG);
    var titleTag := FindTag(r.tags, TITLE_TAG);
    if formatTag.Some? then
      Plain(r.id, Paste(
        if titleTag.Some? && titleTag.value.value != "" then titleTag.value.value else "",
        text.decode(r.data),
        ParseFormat(formatTag.value.value),
        Public))
    else
      Encrypted(r.id, r.data)
  }

  /** Decrypts an encrypted container with a password and parses the
      plaintext as a paste. It fails exactly when decryption or parsing
      fails; on success the result is plain, keeps the id and holds the
      paste parsed from the decrypted text. */
  function DecryptPasteContainer(c: Container, password: string, cipher: Cipher, text: TextCodec, json: Serialiser<Paste>)
    : (r: Option<Container>)
    requires c.Encrypted?
    ensures r.Some? ==> r.value.Plain? && r.value.txId == c.txId
    ensures r.None? <==>
      cipher.decrypt(c.ciphertext, password).None? ||
      json.parse(text.decode(cipher.decrypt(c.ciphertext, password).value)).None?
    ensures forall dec, p ::
      (cipher.decrypt(c.ciphertext, password) == Some(dec) && json.parse(text.decode(dec)) == Some(p))
      ==> r == Some(Plain(c.txId, p))
  {
    match cipher.decrypt(c.ciphertext, password)
    case None => None
    case Some(dec) =>
      match json.parse(text.decode(dec))
      case None => None
      case Some(paste) => Some(Plain(c.txId, paste))
  }

  // ---------------------------------------------------------------------
  // Properties of the decoder

  /** Only the first tag with a given name is found. */
  lemma FindTagFirst(tags: seq<Tag>, name: string, i: int)
    requires FirstWith(tags, name, i)
    ensures FindTag(tags, name) == Some(tags[i])
  {
  }

  /** Whether a record is read as public depends on its tags only. */
  lemma ClassificationIgnoresPayload(r1: Record, r2: Record, text1: TextCodec, text2: TextCodec)
    requires r1.tags == r2.tags
    ensures GetPaste(r1, text1).Plain? == GetPaste(r2, text2).Plain?
  {
  }

  /** The format comes from the first `t_format` tag: `markdown` for the
      value "markdown", `plaintext` for every other value. */
  lemma DecodedFormat(r: Record, text: TextCodec, i: int)
    requires FirstWith(r.tags, FORMAT_TAG, i)
    ensures GetPaste(r, text).Plain?
    ensures GetPaste(r, text).paste.pasteFormat == Markdown <==> r.tags[i].value == "markdown"
  {
  }

  /** The title is the value of the first `Title` tag, or empty when there
      is none. */
  lemma DecodedTitle(r: Record, text: TextCodec)
    requires GetPaste(r, text).Plain?
    ensures (forall i :: 0 <= i < |r.tags| ==> r.tags[i].name != TITLE_TAG) ==>
      GetPaste(r, text).paste.pasteTitle == ""
    ensures forall i :: FirstWith(r.tags, TITLE_TAG, i) ==>
      GetPaste(r, text).paste.pasteTitle == r.tags[i].value
  {
  }

  /** A record without tags, whatever its payload, is read as encrypted. */
  lemma UntaggedIsEncrypted(id: string, data: Bytes, text: TextCodec)
    ensures GetPaste(Record(id, [], data), text) == Encrypted(id, data)
  {
  }

  // ---------------------------------------------------------------------
  // Round trips

  /** Writing the format name and reading it back gives the format. */
  lemma FormatNameRoundTrip(f: Format)
    ensures ParseFormat(FormatName(f)) == f
  {
  }

  /** Decoding the record of a public paste gives back its title, text and
      format, with privacy public whatever the input privacy was. */
  lemma PublicRoundTrip(paste: Paste, id: string, text: TextCodec)
    requires DecodesEncoded(text)
    ensures GetPaste(Record(id, PublicTags(paste), text.encode(paste.pasteText)), text)
      == Plain(id, Paste(paste.pasteTitle, paste.pasteText, paste.pasteFormat, Public))
  {
    var tags := PublicTags(paste);
    assert TYPE_TAG != FORMAT_TAG && TITLE_TAG != FORMAT_TAG by {
      assert TYPE_TAG[2] != FORMAT_TAG[2];
      assert |TITLE_TAG| != |FORMAT_TAG|;
    }
    assert TYPE_TAG != TITLE_TAG by {
      assert |TYPE_TAG| != |TITLE_TAG|;
    }
    assert FirstWith(tags, FORMAT_TAG, 2);
    assert FirstWith(tags, TITLE_TAG, 1);
    FindTagFirst(tags, FORMAT_TAG, 2);
    FindTagFirst(tags, TITLE_TAG, 1);
    FormatNameRoundTrip(paste.pasteFormat);
  }

  /** Decrypting with the password used to encrypt gives back the whole
      paste, its privacy included, under the same id. */
  lemma DecryptWithSamePassword(paste: Paste, password: string, id: string,
                                cipher: Cipher, text: TextCodec, json: Serialiser<Paste>)
    requires DecodesEncoded(text) && DecryptsEncrypted(cipher, text) && ParsesStringified(json)
    ensures DecryptPasteContainer(Encrypted(id, cipher.encrypt(json.stringify(paste), password)), password, cipher, text, json)
      == Some(Plain(id, paste))
  {
  }

  /** A record written by the encrypted path is read as encrypted, and
      decrypting it with the same password gives back the whole paste. */
  lemma EncryptedRoundTrip(paste: Paste, password: string, id: string,
                           cipher: Cipher, text: TextCodec, json: Serialiser<Paste>)
    requires DecodesEncoded(text) && DecryptsEncrypted(cipher, text) && ParsesStringified(json)
    ensures GetPaste(Record(id, [], cipher.encrypt(json.stringify(paste), password)), text).Encrypted?
    ensures DecryptPasteContainer(GetPaste(Record(id, [], cipher.encrypt(json.stringify(paste), password)), text),
                                  password, cipher, text, json)
      == Some(Plain(id, paste))
  {
  }
}
