/** The collaborators the paste protocol calls but does not define: the text
    encoding between strings and payload bytes, the password-based cipher
    and the serialiser that turns a paste into text. Each is a record of
    function values; the laws each is expected to obey are ghost predicates
    that the lemmas needing them take as hypotheses. */
module Collaborators {

  newtype byte = x: int | 0 <= x < 256

  /** Raw payload bytes of a ledger record. */
  type Bytes = seq<byte>

  datatype Option<+T> = None | Some(value: T)

  /** UTF-8 text encoding: `encode` is what the ledger client does to a
      string payload, `decode` is what turns stored bytes back into text
      (TextDecoder, or base64url-to-string on the transport form). */
  datatype TextCodec = TextCodec(encode: string -> Bytes, decode: Bytes -> string)

  /** Decoding an encoded string gives the string back. */
  ghost predicate DecodesEncoded(text: TextCodec) {
    forall s: string :: text.decode(text.encode(s)) == s
  }

  /** Password-based symmetric cipher. `encrypt` takes the plaintext as a
      string and yields ciphertext bytes; `decrypt` yields the plaintext's
      bytes, or None when the password is wrong or the input is corrupted. */
  datatype Cipher = Cipher(encrypt: (string, string) -> Bytes, decrypt: (Bytes, string) -> Option<Bytes>)

  /** Decrypting with the password used to encrypt yields the UTF-8 bytes of
      the original plaintext. */
  ghost predicate DecryptsEncrypted(cipher: Cipher, text: TextCodec) {
    forall plain: string, password: string ::
      cipher.decrypt(cipher.encrypt(plain, password), password) == Some(text.encode(plain))
  }

  /** A text serialisation of values of type T (JSON.stringify / JSON.parse);
      `parse` yields None on text it cannot read. */
  datatype Serialiser<!T> = Serialiser(stringify: T -> string, parse: string -> Option<T>)

  /** Parsing a serialised value gives the value back. */
  ghost predicate ParsesStringified<T(!new)>(json: Serialiser<T>) {
    forall x: T :: json.parse(json.stringify(x)) == Some(x)
  }
}
