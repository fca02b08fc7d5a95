// The primitives the program takes from its cryptographic libraries, as parameters.

module Crypto {
  import opened Numbers
  import opened Serializer

  type Digest = s: seq<byte> | |s| == 32 witness seq(32, _ => 0)
  type PublicKey = s: seq<byte> | |s| == 32 witness seq(32, _ => 0)
  type Signature = s: seq<byte> | |s| == 64 witness seq(64, _ => 0)
  type PrivateKey = seq<byte>

  datatype SigPair = SigPair(pubKey: PublicKey, signature: Signature)

  datatype KeyPair = KeyPair(pub: PublicKey, priv: PrivateKey)

  /** Double SHA-256, signature verification, signing and CRC-32C: total deterministic functions
      about which nothing else is known. */
  datatype Oracles = Oracles(
    sha: seq<byte> -> Digest,
    verify: (PublicKey, seq<byte>, Signature) -> bool,
    sign: (PrivateKey, seq<byte>) -> Signature,
    crc: seq<byte> -> u32)

  function SignWith(o: Oracles, kp: KeyPair, msg: seq<byte>): SigPair {
    SigPair(kp.pub, o.sign(kp.priv, msg))
  }

  /** The one hypothesis about signing: what a key pair signs, its public key verifies. */
  ghost predicate Genuine(o: Oracles, kp: KeyPair) {
    forall msg :: o.verify(kp.pub, msg, o.sign(kp.priv, msg))
  }

  function EncSigPair(p: SigPair): seq<byte> {
    p.pubKey + p.signature
  }

  function TakeSigPair(s: seq<byte>): Parsed<SigPair> {
    var (k, t) :- TakeN(s, 32);
    var (g, u) :- TakeN(t, 64);
    Parsed(SigPair(k, g), u)
  }

  function TakeKey(s: seq<byte>): Parsed<PublicKey> {
    var (k, t) :- TakeN(s, 32);
    Parsed(k, t)
  }

  function TakeDigest(s: seq<byte>): Parsed<Digest> {
    var (k, t) :- TakeN(s, 32);
    Parsed(k, t)
  }

  lemma TakeSigPairOf(p: SigPair, rest: seq<byte>)
    ensures TakeSigPair(EncSigPair(p) + rest) == Parsed(p, rest)
  {
    assert EncSigPair(p) + rest == p.pubKey + (p.signature + rest);
    TakeNOf(p.pubKey, p.signature + rest);
    TakeNOf(p.signature, rest);
  }
}
