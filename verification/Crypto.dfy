/** Random tokens and the cipher that protects them while they wait to be mailed
    (internal/security/token/token.go, internal/security/secret/cipher.go).  SHA-256 and AES-GCM
    are parameters; what the proofs need of them is stated by `Injective` and `Sound`. */
module Crypto {
  import opened Core
  import opened Codec

  // ---------------------------------------------------------------------------------------
  // Tokens
  // ---------------------------------------------------------------------------------------

  const TOKEN_SIZE := 32

  ghost predicate Injective(hash: string -> Hash) {
    forall s, t :: hash(s) == hash(t) ==> s == t
  }

  class Generator {
    const hash: string -> Hash

    constructor (hash: string -> Hash)
      ensures this.hash == hash
    {
      this.hash := hash;
    }

    /** `random` is what the random source delivers; None when it fails. */
    method Generate(random: Option<Bytes>) returns (token: Option<(string, Hash)>)
      requires random.Some? ==> |random.value| == TOKEN_SIZE
      ensures token.Some? <==> random.Some?
      ensures token.Some? ==>
                && token.value.0 == Base64(random.value)
                && token.value.1 == hash(token.value.0)
    {
      if random.None? {
        return None;
      }
      var raw := Base64(random.value);
      return Some((raw, hash(raw)));
    }
  }

  /** A raw token is 43 characters that need no escaping in a URL, and encodes its bytes. */
  lemma TokenText(random: Bytes)
    requires |random| == TOKEN_SIZE
    ensures UnBase64(Base64(random)) == Some(random)
    ensures |Base64(random)| == 43 && forall i :: 0 <= i < 43 ==> Unreserved(Base64(random)[i])
  {
    Base64RoundTrip(random);
    Base64Length(random);
  }

  /** Different random bytes give different tokens with different hashes. */
  lemma {:induction false} TokensDiffer(hash: string -> Hash, a: Bytes, b: Bytes)
    requires Injective(hash) && a != b
    ensures Base64(a) != Base64(b) && hash(Base64(a)) != hash(Base64(b))
  {
    Base64RoundTrip(a);
    Base64RoundTrip(b);
  }

  /** `[]byte(s)` and `string(b)`. */
  function TextBytes(s: string): (b: Bytes)
    requires ByteText(s)
    ensures |b| == |s|
  {
    seq(|s|, i requires 0 <= i < |s| => s[i] as int as byte)
  }

  function BytesText(b: Bytes): (s: string)
    ensures |s| == |b| && ByteText(s)
  {
    seq(|b|, i requires 0 <= i < |b| => b[i] as int as char)
  }

  lemma TextRoundTrip(s: string)
    requires ByteText(s)
    ensures BytesText(TextBytes(s)) == s
  {
  }

  // ---------------------------------------------------------------------------------------
  // The cipher
  // ---------------------------------------------------------------------------------------

  datatype Aead = Aead(
    nonceSize: nat,
    seal: (Bytes, Bytes, Bytes) -> Bytes,
    open: (Bytes, Bytes, Bytes) -> Option<Bytes>)

  /** What authenticated encryption promises: what was sealed opens, nothing else opens, and one
      sealed text belongs to one plaintext and one additional data. */
  ghost predicate Sound(a: Aead) {
    && a.nonceSize > 0
    && (forall n, p, d :: a.open(n, a.seal(n, p, d), d) == Some(p))
    && (forall n, c, d :: a.open(n, c, d).Some? ==> a.seal(n, a.open(n, c, d).value, d) == c)
    && (forall n, p, d, q, e :: a.seal(n, p, d) == a.seal(n, q, e) ==> p == q && d == e)
  }

  datatype Plaintext = Plain(bytes: Bytes) | TooShort | NotAuthentic

  function Encrypted(a: Aead, nonce: Bytes, plaintext: Bytes, data: Bytes): Bytes {
    nonce + a.seal(nonce, plaintext, data)
  }

  function Decrypted(a: Aead, value: Bytes, data: Bytes): Plaintext {
    if |value| < a.nonceSize then TooShort
    else
      match a.open(value[..a.nonceSize], value[a.nonceSize..], data)
      case Some(p) => Plain(p)
      case None => NotAuthentic
  }

  class Cipher {
    const aead: Aead

    constructor (aead: Aead)
      ensures this.aead == aead
    {
      this.aead := aead;
    }

    /** `nonce` is what the random source delivers; None when it fails. */
    method Encrypt(plaintext: Bytes, data: Bytes, nonce: Option<Bytes>) returns (value: Option<Bytes>)
      requires nonce.Some? ==> |nonce.value| == aead.nonceSize
      ensures value == if nonce.Some? then Some(Encrypted(aead, nonce.value, plaintext, data)) else None
    {
      if nonce.None? {
        return None;
      }
      var ciphertext := aead.seal(nonce.value, plaintext, data);
      var result: Bytes := [];
      result := result + nonce.value;
      assert result == nonce.value;
      result := result + ciphertext;
      return Some(result);
    }

    method Decrypt(value: Bytes, data: Bytes) returns (plaintext: Plaintext)
      ensures plaintext == Decrypted(aead, value, data)
    {
      if |value| < aead.nonceSize {
        return TooShort;
      }
      var nonce := value[..aead.nonceSize];
      var ciphertext := value[aead.nonceSize..];
      var unsealed := aead.open(nonce, ciphertext, data);
      return if unsealed.Some? then Plain(unsealed.value) else NotAuthentic;
    }
  }

  /** A value decrypts to `p` under `data` exactly when it was made by encrypting `p` under
      `data`: the round trip, integrity, and the binding to the additional data at once. */
  lemma DecryptsExactlyWhatWasEncrypted(a: Aead, value: Bytes, data: Bytes, p: Bytes)
    requires Sound(a)
    ensures Decrypted(a, value, data) == Plain(p)
       <==> exists nonce :: |nonce| == a.nonceSize && value == Encrypted(a, nonce, p, data)
  {
    if Decrypted(a, value, data) == Plain(p) {
      var nonce := value[..a.nonceSize];
      assert value == Encrypted(a, nonce, p, data);
    }
    if nonce :| |nonce| == a.nonceSize && value == Encrypted(a, nonce, p, data) {
      assert value[..a.nonceSize] == nonce && value[a.nonceSize..] == a.seal(nonce, p, data);
    }
  }

  /** A token encrypted for one row never decrypts for another. */
  lemma OtherDataIsRefused(a: Aead, nonce: Bytes, p: Bytes, data: Bytes, other: Bytes)
    requires Sound(a) && |nonce| == a.nonceSize && data != other
    ensures Decrypted(a, Encrypted(a, nonce, p, data), other) == NotAuthentic
  {
  }
}
