/** Symbolic cryptography.  A term is what a byte array holds; hashing, keyed hashing and sealing are free
    constructors, and a shared secret is the unordered pair of the two scalars it came from. */
module Crypto {
  import opened Bytes

  /** A 32-byte Curve25519 public key: the point of a scalar, or a point of small order. */
  datatype PublicKey = Point(secret: nat) | LowOrder(code: nat)

  datatype Term =
    | Blank                                                          // an all-zero array
    | Name(name: string)                                               // a fixed protocol string
    | Text(text: seq<byte>)
    | Key(pub: PublicKey)
    | Cat(front: Term, back: Term)
    | Hash(state: Term, data: Term)                                  // BLAKE2s(state || data)
    | Mac(key: Term, msg: Term)                                      // HMAC-BLAKE2s
    | Shared(low: nat, high: nat)
    | Box(key: Term, nonce: seq<byte>, plain: Term, ad: Term)        // ChaCha20-Poly1305

  /** A PeerID is a public key in another arrangement of the same 32 bytes (module PeerIds). */
  datatype PeerID = PeerID(key: PublicKey)

  /** 32 zero bytes are a small-order point. */
  const ZERO_KEY := LowOrder(0)

  const EMPTY_PEER := PeerID(ZERO_KEY)

  /** PrivateKey.SharedSecret: small-order points give the all-zero secret. */
  function SharedSecret(secret: nat, p: PublicKey): Term {
    match p
    case Point(other) => if secret <= other then Shared(secret, other) else Shared(other, secret)
    case LowOrder(_) => Blank
  }

  /** Opening undoes sealing, and accepts nothing but what was sealed with the same key, nonce and data. */
  function Open(key: Term, nonce: seq<byte>, box: Term, ad: Term): Option<Term> {
    if box.Box? && box.key == key && box.nonce == nonce && box.ad == ad then Some(box.plain) else None
  }

  /** Two parties' secrets agree, and a secret with a given scalar has one other side. */
  lemma SharedSecretAgrees(a: nat, b: nat, p: PublicKey)
    ensures SharedSecret(a, Point(b)) == SharedSecret(b, Point(a)) != Blank
    ensures SharedSecret(a, p) == SharedSecret(b, Point(a)) ==> p == Point(b)
  {
  }
}
