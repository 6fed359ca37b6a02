/** Key derivation written through buffers that may alias, against HKDF as section 2 of RFC 5869 defines it. */
module Kdf {
  import opened Crypto

  /** T(i) of HKDF-Expand with empty info. */
  function Expand(prk: Term, i: nat): Term
    requires 1 <= i < 256
  {
    if i == 1 then Mac(prk, Text([1])) else Mac(prk, Cat(Expand(prk, i - 1), Text([i])))
  }

  /** Extract with salt `key`, then the i-th output block. */
  function Hkdf(key: Term, input: Term, i: nat): Term
    requires 1 <= i < 256
  {
    Expand(Mac(key, input), i)
  }

  /** Different blocks of the same or of other inputs never coincide. */
  lemma {:induction false} ExpandInjective(p: Term, q: Term, i: nat, j: nat)
    requires 1 <= i < 256 && 1 <= j < 256
    ensures Expand(p, i) == Expand(q, j) <==> p == q && i == j
  {
    if i > 1 && j > 1 {
      ExpandInjective(p, q, i - 1, j - 1);
    }
  }

  /** The transcript hash after mixing in `items`, one after the other. */
  function Mixed(h: Term, items: seq<Term>): Term {
    if items == [] then h else Hash(Mixed(h, items[..|items| - 1]), items[|items| - 1])
  }

  /** How many hashes a term is deep. */
  function Depth(t: Term): nat {
    if t.Hash? then Depth(t.state) + 1 else 0
  }

  lemma {:induction false} MixedDepth(h: Term, items: seq<Term>)
    ensures Depth(Mixed(h, items)) == Depth(h) + |items|
  {
    if items != [] {
      MixedDepth(h, items[..|items| - 1]);
    }
  }

  /** A transcript hash tells what was mixed into it, all of it and in order. */
  lemma {:induction false} MixedInjective(h: Term, a: seq<Term>, b: seq<Term>)
    ensures Mixed(h, a) == Mixed(h, b) <==> a == b
  {
    MixedDepth(h, a);
    MixedDepth(h, b);
    if Mixed(h, a) == Mixed(h, b) && a != [] {
      MixedInjective(h, a[..|a| - 1], b[..|b| - 1]);
      assert a == a[..|a| - 1] + [a[|a| - 1]] && b == b[..|b| - 1] + [b[|b| - 1]];
    }
  }

  /** A 32-byte array passed by pointer. */
  class Buffer {
    var v: Term

    constructor (v: Term)
      ensures this.v == v
    {
      this.v := v;
    }
  }

  method Hmac1(sum: Buffer, key: Buffer, in0: Term)
    modifies sum
    ensures sum.v == Mac(old(key.v), in0)
  {
    sum.v := Mac(key.v, in0);
  }

  method Hmac2(sum: Buffer, key: Buffer, in0: Buffer, in1: Term)
    modifies sum
    ensures sum.v == Mac(old(key.v), Cat(old(in0.v), in1))
  {
    sum.v := Mac(key.v, Cat(in0.v, in1));
  }

  /** `dst` may be `h`. */
  method MixHash(dst: Buffer, h: Buffer, data: Term)
    modifies dst
    ensures dst.v == Mixed(old(h.v), [data])
  {
    dst.v := Hash(h.v, data);
  }

  /** `t0` may be `key`. */
  method KDF1(t0: Buffer, key: Buffer, input: Term)
    modifies t0
    ensures t0.v == Hkdf(old(key.v), input, 1)
  {
    Hmac1(t0, key, input);
    Hmac1(t0, t0, Text([1]));
  }

  /** `t0` or `t1` may be `key`. */
  method KDF2(t0: Buffer, t1: Buffer, key: Buffer, input: Term)
    requires t0 != t1
    modifies t0, t1
    ensures t0.v == Hkdf(old(key.v), input, 1) && t1.v == Hkdf(old(key.v), input, 2)
  {
    var prk := new Buffer(Blank);
    Hmac1(prk, key, input);
    Hmac1(t0, prk, Text([1]));
    Hmac2(t1, prk, t0, Text([2]));
    prk.v := Blank;
  }

  /** `t0`, `t1` or `t2` may be `key`. */
  method KDF3(t0: Buffer, t1: Buffer, t2: Buffer, key: Buffer, input: Term)
    requires t0 != t1 && t1 != t2 && t0 != t2
    modifies t0, t1, t2
    ensures t0.v == Hkdf(old(key.v), input, 1) && t1.v == Hkdf(old(key.v), input, 2)
      && t2.v == Hkdf(old(key.v), input, 3)
  {
    var prk := new Buffer(Blank);
    Hmac1(prk, key, input);
    Hmac1(t0, prk, Text([1]));
    Hmac2(t1, prk, t0, Text([2]));
    assert Expand(prk.v, 3) == Mac(prk.v, Cat(Expand(prk.v, 2), Text([3])));
    Hmac2(t2, prk, t1, Text([3]));
    prk.v := Blank;
  }
}
