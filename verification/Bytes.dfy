/** Bytes, optional values, reversal and big-endian numbers, shared by every layer. */
module Bytes {

  type byte = b: int | 0 <= b < 256

  /** A session index, a uint32. */
  type Index = i: int | 0 <= i < 0x1_0000_0000

  datatype Option<+T> = None | Some(value: T)

  function Zeros(n: nat): (z: seq<byte>)
    ensures |z| == n && forall i :: 0 <= i < n ==> z[i] == 0
  {
    seq(n, _ => 0)
  }

  /** An IPv6 address. */
  type Address = a: seq<byte> | |a| == 16 witness Zeros(16)

  /** The elements of `s` in the opposite order. */
  function Rev<T>(s: seq<T>): (r: seq<T>)
    ensures |r| == |s|
    ensures forall i {:trigger r[i]} :: 0 <= i < |s| ==> r[i] == s[|s| - 1 - i]
  {
    seq(|s|, i requires 0 <= i < |s| => s[|s| - 1 - i])
  }

  lemma RevRev<T>(s: seq<T>)
    ensures Rev(Rev(s)) == s
  {
  }

  /** Route.Reverse: the hops appended one by one, last hop first. */
  method Reverse(hops: seq<byte>) returns (rev: seq<byte>)
    ensures rev == Rev(hops)
  {
    rev := [];
    var i := |hops|;
    while i > 0
      invariant 0 <= i <= |hops|
      invariant rev == Rev(hops)[..|hops| - i]
    {
      i := i - 1;
      rev := rev + [hops[i]];
    }
  }

  function Pow256(n: nat): (p: nat)
    ensures p >= 1
  {
    if n == 0 then 1 else 256 * Pow256(n - 1)
  }

  lemma EightBytes()
    ensures Pow256(8) == 0x1_0000_0000_0000_0000
  {
    assert Pow256(4) == 256 * (256 * (256 * (256 * Pow256(0))));
    assert Pow256(8) == 256 * (256 * (256 * (256 * Pow256(4))));
  }

  /** The low `n` bytes of `v`, most significant first. */
  function BigEndian(v: nat, n: nat): (s: seq<byte>)
    ensures |s| == n
    decreases n
  {
    if n == 0 then [] else BigEndian(v / 256, n - 1) + [v % 256]
  }

  function FromBigEndian(s: seq<byte>): (v: nat)
    ensures v < Pow256(|s|)
  {
    if s == [] then 0 else
      var front := s[..|s| - 1];
      assert FromBigEndian(front) < Pow256(|front|);
      256 * FromBigEndian(front) + s[|s| - 1]
  }

  lemma {:induction false} BigEndianReadsBack(v: nat, n: nat)
    requires v < Pow256(n)
    ensures FromBigEndian(BigEndian(v, n)) == v
    decreases n
  {
    if n > 0 {
      BigEndianReadsBack(v / 256, n - 1);
      assert BigEndian(v, n)[..n - 1] == BigEndian(v / 256, n - 1);
    }
  }

  lemma {:induction false} BigEndianWritesBack(s: seq<byte>)
    ensures BigEndian(FromBigEndian(s), |s|) == s
  {
    if s != [] {
      var front := s[..|s| - 1];
      BigEndianWritesBack(front);
      assert (256 * FromBigEndian(front) + s[|s| - 1]) / 256 == FromBigEndian(front);
      assert s == front + [s[|s| - 1]];
    }
  }
}
