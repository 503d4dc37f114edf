/** The cryptography the protocol relies on, as parameters: a key exchange over
    a shared word and an authenticated cipher.  Only the laws below are used. */
module Cryptography {
  import opened Bytes
  import opened Options

  datatype Role = PakeSender | PakeReceiver

  datatype Session = Session(key: nat, salt: Bytes)

  /** What a peer's public key leads to: a key, an error from the update, or an
      update that succeeds and leaves no key. */
  datatype Agreement = Agreed(key: nat) | Rejected | Keyless

  datatype Crypto = Crypto(
    pub: (Role, Bytes, nat) -> nat,                 // role, word, private number
    agree: (Role, Bytes, nat, nat) -> Agreement,    // ... and the peer's public key
    seal: (Session, nat, Bytes) -> Bytes,           // session, nonce, plaintext
    open: (Session, Bytes) -> Option<Bytes>)

  const NONCE_LENGTH: nat := 12

  const TAG_LENGTH: nat := 16

  /** Nonce in front of the ciphertext and tag behind it. */
  const EXPANSION: nat := NONCE_LENGTH + TAG_LENGTH

  const SALT_LENGTH: nat := 8

  /** Honest ends with the same word agree on a key. */
  ghost predicate LawfulExchange(c: Crypto) {
    forall word, a, b ::
      var k := c.agree(PakeSender, word, a, c.pub(PakeReceiver, word, b));
      k.Agreed? && k == c.agree(PakeReceiver, word, b, c.pub(PakeSender, word, a))
  }

  /** Opening undoes sealing, sealing adds the nonce and the tag, and opening
      never adds anything. */
  ghost predicate LawfulCipher(c: Crypto) {
    && (forall s, nonce, m ::
          c.open(s, c.seal(s, nonce, m)) == Some(m) && |c.seal(s, nonce, m)| == |m| + EXPANSION)
    && (forall s, x :: c.open(s, x).Some? ==> |c.open(s, x).value| <= |x|)
  }

  ghost predicate Lawful(c: Crypto) {
    LawfulExchange(c) && LawfulCipher(c)
  }

  // ----- the layout of an encrypted message -----

  /** AES-GCM and the derivation of its key: derivation from key and salt, and
      encryption and decryption under key and nonce. */
  datatype Aead = Aead(
    derive: (nat, Bytes) -> Bytes,
    encrypt: (Bytes, Bytes, Bytes) -> Bytes,
    decrypt: (Bytes, Bytes, Bytes) -> Option<Bytes>)

  ghost predicate LawfulAead(a: Aead) {
    && (forall key, nonce, m {:trigger a.encrypt(key, nonce, m)} ::
          a.decrypt(key, nonce, a.encrypt(key, nonce, m)) == Some(m) && |a.encrypt(key, nonce, m)| == |m| + TAG_LENGTH)
    && (forall key, nonce, c :: a.decrypt(key, nonce, c).Some? ==> |a.decrypt(key, nonce, c).value| <= |c|)
  }

  /** `encrypt`: the nonce drawn, then the ciphertext. */
  function Encrypted(a: Aead, s: Session, nonce: nat, m: Bytes): Bytes {
    var n := ToLE(nonce, NONCE_LENGTH);
    n + a.encrypt(a.derive(s.key, s.salt), n, m)
  }

  /** `decrypt`, of a message that holds at least a nonce; a shorter one panics,
      which `FileTasks.Opened` accounts for. */
  function Decrypted(a: Aead, s: Session, data: Bytes): Option<Bytes> {
    if |data| < NONCE_LENGTH then None
    else a.decrypt(a.derive(s.key, s.salt), data[..NONCE_LENGTH], data[NONCE_LENGTH..])
  }

  /** A sealed message is twelve bytes of nonce and then the ciphertext made with
      that nonce, under the key derived from the session's key and salt. */
  ghost predicate Sealed(a: Aead, c: Crypto, s: Session, nonce: nat, m: Bytes) {
    && |c.seal(s, nonce, m)| == 12 + |m| + 16
    && c.seal(s, nonce, m)[12..] == a.encrypt(a.derive(s.key, s.salt), c.seal(s, nonce, m)[..12], m)
  }

  /** The laws that the protocol relies on follow from those of the AEAD and the
      layout of nonce and ciphertext. */
  lemma CipherIsLawful(a: Aead, c: Crypto)
    requires LawfulAead(a)
    requires c.seal == ((s: Session, nonce: nat, m: Bytes) => Encrypted(a, s, nonce, m))
    requires c.open == ((s: Session, data: Bytes) => Decrypted(a, s, data))
    ensures LawfulCipher(c)
    ensures forall s, nonce, m :: Sealed(a, c, s, nonce, m)
    ensures forall s, data :: |data| >= 12 ==>
              c.open(s, data) == a.decrypt(a.derive(s.key, s.salt), data[..12], data[12..])
  {
    forall s: Session, nonce: nat, m: Bytes
      ensures c.open(s, c.seal(s, nonce, m)) == Some(m) && |c.seal(s, nonce, m)| == |m| + EXPANSION
      ensures Sealed(a, c, s, nonce, m)
    {
      var n := ToLE(nonce, NONCE_LENGTH);
      var data := Encrypted(a, s, nonce, m);
      assert data[..NONCE_LENGTH] == n && data[NONCE_LENGTH..] == a.encrypt(a.derive(s.key, s.salt), n, m);
    }
  }

  /** The laws can be met. */
  lemma LawsAreConsistent() returns (a: Aead, c: Crypto)
    ensures LawfulAead(a) && Lawful(c)
    ensures c.seal == ((s: Session, nonce: nat, m: Bytes) => Encrypted(a, s, nonce, m))
    ensures c.open == ((s: Session, data: Bytes) => Decrypted(a, s, data))
  {
    var tag: Bytes := seq(TAG_LENGTH, _ => 0);
    a := Aead(
      (key: nat, salt: Bytes) => salt,
      (key: Bytes, nonce: Bytes, m: Bytes) => m + tag,
      (key: Bytes, nonce: Bytes, x: Bytes) => if |x| < TAG_LENGTH then None else Some(x[..|x| - TAG_LENGTH]));
    forall m: Bytes
      ensures (m + tag)[..|m + tag| - TAG_LENGTH] == m
    {
    }
    c := Crypto(
      (role: Role, word: Bytes, n: nat) => n,
      (role: Role, word: Bytes, n: nat, peer: nat) => Agreed(n + peer),
      (s: Session, nonce: nat, m: Bytes) => Encrypted(a, s, nonce, m),
      (s: Session, data: Bytes) => Decrypted(a, s, data));
    CipherIsLawful(a, c);
  }
}
