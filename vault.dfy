/**
 * The session-credential vault of SocialProfileResource: AES with a
 * process-wide key taken from configuration (`app.encryption.key`, default
 * "defaultkey123456"). The cipher itself is not modelled; what is modelled
 * is when it fails. `new SecretKeySpec(key.getBytes(), "AES")` followed by
 * `Cipher.init` rejects a key whose encoded length is not 16, 24 or 32
 * bytes, and a ciphertext made under another key does not decrypt.
 */
module SessionVault {
  import opened Common

  /** The configured default key. */
  const DefaultKey: string := "defaultkey123456"

  /**
   * A sealed session blob. The source stores it as Base64 text; here it
   * keeps the key it was sealed with and the plaintext it hides.
   */
  datatype Ciphertext = Sealed(key: string, payload: string)

  /** Bytes of `c` in UTF-8, the default charset of `String.getBytes()`. */
  function Utf8Width(c: char): (n: nat)
    ensures 1 <= n <= 4
  {
    if c as int < 0x80 then 1
    else if c as int < 0x800 then 2
    else if c as int < 0x10000 then 3
    else 4
  }

  function Utf8Length(s: string): (n: nat)
    ensures |s| <= n <= 4 * |s|
  {
    if s == [] then 0 else Utf8Width(s[0]) + Utf8Length(s[1..])
  }

  /** AES accepts 128-, 192- and 256-bit keys. */
  predicate IsAesKey(key: string) {
    Utf8Length(key) == 16 || Utf8Length(key) == 24 || Utf8Length(key) == 32
  }

  /** `encryptSessionData`: fails (throws) exactly when the key is unusable. */
  function Encrypt(key: string, plaintext: string): (r: Option<Ciphertext>)
    ensures r.Some? <==> IsAesKey(key)
    ensures r.Some? ==> r.value.key == key
  {
    if IsAesKey(key) then Some(Sealed(key, plaintext)) else None
  }

  /** `decryptSessionData`: fails unless the key is usable and is the sealing key. */
  function Decrypt(key: string, c: Ciphertext): (r: Option<string>)
    ensures r.Some? <==> IsAesKey(key) && c.key == key
  {
    if IsAesKey(key) && c.key == key then Some(c.payload) else None
  }

  /** Decryption is the inverse of encryption under the same key. */
  lemma RoundTrip(key: string, plaintext: string)
    requires IsAesKey(key)
    ensures Encrypt(key, plaintext).Some?
    ensures Decrypt(key, Encrypt(key, plaintext).value) == Some(plaintext)
  {
  }

  /** A blob sealed under one key does not open under another. */
  lemma OtherKeyFails(key: string, other: string, plaintext: string)
    requires IsAesKey(key) && other != key
    ensures Decrypt(other, Encrypt(key, plaintext).value).None?
  {
  }

  /** The shipped default key is a 128-bit AES key, so encryption succeeds with it. */
  lemma {:induction false} DefaultKeyIsUsable()
    ensures IsAesKey(DefaultKey)
  {
    var k := DefaultKey;
    assert forall i :: 0 <= i < |k| ==> Utf8Width(k[i]) == 1;
    AsciiLength(k);
  }

  lemma {:induction false} AsciiLength(s: string)
    requires forall i :: 0 <= i < |s| ==> Utf8Width(s[i]) == 1
    ensures Utf8Length(s) == |s|
  {
    if s != [] {
      AsciiLength(s[1..]);
    }
  }
}
