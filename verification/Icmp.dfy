/** icmpChecksum: little-endian words in a 32-bit sum, folded twice, against the Internet checksum of RFC 1071. */
module Icmp {
  import opened Bytes

  const TWO_32: nat := 0x1_0000_0000

  function Word(lo: int, hi: int): int {
    lo + 256 * hi
  }

  /** The sum of the little-endian 16-bit words, a last odd byte counting as a low byte. */
  function WordSum(b: seq<byte>): nat {
    if b == [] then 0 else if |b| == 1 then b[0] else Word(b[0], b[1]) + WordSum(b[2..])
  }

  /** Two folds, and the low 16 bits. */
  function Fold(s: nat): (f: nat)
    ensures f < 65536
  {
    var s1 := s / 65536 + s % 65536;
    (s1 + s1 / 65536) % 65536
  }

  function Checksum(b: seq<byte>): (c: nat)
    ensures c < 65536
  {
    65535 - Fold(WordSum(b) % TWO_32)
  }

  /** A uint32 addition. */
  function Add32(x: nat, y: nat): (r: nat)
    requires x < TWO_32 && y < TWO_32
    ensures r < TWO_32
  {
    if x + y >= TWO_32 then x + y - TWO_32 else x + y
  }

  method IcmpChecksum(b: seq<byte>) returns (sum: nat)
    ensures sum == Checksum(b)
  {
    var s := AddWords(b);
    sum := FoldAndComplement(s);
  }

  /** The loop. */
  method AddWords(b: seq<byte>) returns (s: nat)
    ensures s == WordSum(b) % TWO_32
  {
    var coverage := |b| - 1;
    s := 0;
    ghost var wraps := 0;
    ghost var total: nat := 0;
    var i := 0;
    while i < coverage
      invariant 0 <= i <= |b| && i % 2 == 0
      invariant s < TWO_32 && total == TWO_32 * wraps + s
      invariant total + WordSum(b[i..]) == WordSum(b)
    {
      var word := Word(b[i], b[i + 1]);
      WordStep(b, i);
      wraps, total := if s + word >= TWO_32 then wraps + 1 else wraps, total + word;
      s := Add32(s, word);
      i := i + 2;
    }
    if coverage % 2 == 0 {
      LastByte(b);
      wraps, total := if s + b[coverage] >= TWO_32 then wraps + 1 else wraps, total + b[coverage];
      s := Add32(s, b[coverage]);
    }
    RemainderIs(total, wraps, s);
  }

  lemma RemainderIs(x: nat, q: int, r: nat)
    requires x == TWO_32 * q + r && r < TWO_32
    ensures x % TWO_32 == r
  {
  }

  lemma WordStep(b: seq<byte>, i: nat)
    requires i + 1 < |b|
    ensures WordSum(b[i..]) == Word(b[i], b[i + 1]) + WordSum(b[i + 2..])
  {
    assert b[i..][2..] == b[i + 2..];
  }

  lemma LastByte(b: seq<byte>)
    requires b != []
    ensures WordSum(b[|b| - 1..]) == b[|b| - 1]
  {
    assert b[|b| - 1..] == [b[|b| - 1]];
  }

  method FoldAndComplement(sum: nat) returns (r: nat)
    ensures r == 65535 - Fold(sum)
  {
    var s := sum / 65536 + sum % 65536;
    s := s + s / 65536;
    r := 65535 - s % 65536;
  }

  // ---------------------------------------------------------------- no overflow

  lemma {:induction false} SumBound(b: seq<byte>)
    ensures WordSum(b) <= 65535 * ((|b| + 1) / 2)
    ensures |b| % 2 == 1 ==> WordSum(b) <= 65535 * (|b| / 2) + 255
  {
    if |b| >= 2 {
      SumBound(b[2..]);
    }
  }

  /** Up to 131074 bytes the 32-bit sum cannot overflow. */
  lemma NoOverflow(b: seq<byte>)
    requires |b| <= 131074
    ensures WordSum(b) < TWO_32
  {
    SumBound(b);
  }

  lemma SmallRemainder(x: nat)
    requires x < TWO_32
    ensures x % TWO_32 == x
  {
  }

  lemma SmallChecksum(b: seq<byte>, s: nat)
    requires |b| <= 131074 && s == WordSum(b)
    ensures s < TWO_32 && Checksum(b) == 65535 - Fold(s)
  {
    NoOverflow(b);
    SmallRemainder(s);
  }

  function Ones(n: nat): (b: seq<byte>)
    ensures |b| == n
  {
    seq(n, _ => 255)
  }

  lemma {:induction false} SumOfOnes(n: nat)
    ensures WordSum(Ones(2 * n)) == 65535 * n
  {
    if n > 0 {
      assert Ones(2 * n)[2..] == Ones(2 * (n - 1));
      SumOfOnes(n - 1);
    }
  }

  lemma OnesOverflow(n: nat)
    requires n >= 131075
    ensures WordSum(Ones(n)) >= TWO_32
  {
    var rest := Ones(n - 131074);
    assert Ones(n) == Ones(2 * 65537) + rest;
    SumOfOnes(65537);
    SumAppend(Ones(2 * 65537), rest);
    assert WordSum(rest) >= 255;
  }

  /** The exact limit: the sums of all buffers of a length fit into 32 bits if and only if it is at most 131074. */
  lemma OverflowIff(n: nat)
    ensures (forall b: seq<byte> :: |b| == n ==> WordSum(b) < TWO_32) <==> n <= 131074
  {
    if n <= 131074 {
      forall b: seq<byte> | |b| == n
        ensures WordSum(b) < TWO_32
      {
        NoOverflow(b);
      }
    } else {
      OnesOverflow(n);
    }
  }

  lemma {:induction false} SumAppend(a: seq<byte>, b: seq<byte>)
    requires |a| % 2 == 0
    ensures WordSum(a + b) == WordSum(a) + WordSum(b)
  {
    if a == [] {
      assert a + b == b;
    } else {
      assert (a + b)[2..] == a[2..] + b;
      SumAppend(a[2..], b);
    }
  }

  // ---------------------------------------------------------------- arithmetic modulo 65535

  /** x and y leave the same remainder. */
  ghost predicate Cong(x: int, y: int) {
    exists k: int :: Off(x, y, k)
  }

  predicate Off(x: int, y: int, k: int) {
    x == y + 65535 * k
  }

  lemma CongFrom(x: int, y: int, k: int)
    requires x == y + 65535 * k
    ensures Cong(x, y)
  {
    assert Off(x, y, k);
  }

  lemma CongAdd(x: int, y: int, u: int, v: int)
    requires Cong(x, y) && Cong(u, v)
    ensures Cong(x + u, y + v) && Cong(x - u, y - v)
  {
    var k :| Off(x, y, k);
    var l :| Off(u, v, l);
    CongFrom(x + u, y + v, k + l);
    CongFrom(x - u, y - v, k - l);
  }

  lemma CongScale(x: int, y: int, m: int)
    requires Cong(x, y)
    ensures Cong(m * x, m * y)
  {
    var k :| Off(x, y, k);
    assert m * x == m * y + 65535 * (m * k);
    CongFrom(m * x, m * y, m * k);
  }

  lemma CongTrans(x: int, y: int, z: int)
    requires Cong(x, y) && Cong(y, z)
    ensures Cong(x, z) && Cong(y, x)
  {
    var k :| Off(x, y, k);
    var l :| Off(y, z, l);
    CongFrom(x, z, k + l);
    CongFrom(y, x, -k);
  }

  /** A 16-bit value is fixed by its remainder and by whether it is zero. */
  lemma CongUnique(x: nat, y: nat)
    requires x < 65536 && y < 65536 && Cong(x, y) && (x == 0 <==> y == 0)
    ensures x == y
  {
    var k :| Off(x, y, k);
  }

  /** Two folds suffice: the result has the remainder of the sum, and is zero only for the zero sum. */
  lemma FoldKeeps(s: nat)
    requires s < TWO_32
    ensures Cong(Fold(s), s) && (Fold(s) == 0 <==> s == 0)
  {
    var hi := s / 65536;
    var s1 := hi + s % 65536;
    assert s == 65535 * hi + s1;
    if s1 < 65536 {
      assert Fold(s) == s1;
      CongFrom(Fold(s), s, -hi);
    } else {
      assert s1 / 65536 == 1 && Fold(s) == s1 + 1 - 65536;
      CongFrom(Fold(s), s, -hi - 1);
    }
  }

  // ---------------------------------------------------------------- the big-endian definition

  /** One's complement addition: the carry out of bit 15 comes back in at bit 0. */
  function OnesAdd(x: nat, y: nat): (r: nat)
    requires x < 65536 && y < 65536
    ensures r < 65536
  {
    if x + y >= 65536 then x + y - 65535 else x + y
  }

  /** The one's complement sum of the big-endian words, a last odd byte padded with a zero byte. */
  function OnesSum(b: seq<byte>): (r: nat)
    ensures r < 65536
  {
    if b == [] then 0
    else if |b| == 1 then Word(0, b[0])
    else OnesAdd(Word(b[1], b[0]), OnesSum(b[2..]))
  }

  function InternetChecksum(b: seq<byte>): nat {
    65535 - OnesSum(b)
  }

  /** The two bytes of a 16-bit value exchanged. */
  function Swap(x: nat): nat
    requires x < 65536
  {
    x % 256 * 256 + x / 256
  }

  lemma {:induction false} OnesSumKeeps(b: seq<byte>)
    ensures Cong(OnesSum(b), 256 * WordSum(b)) && (OnesSum(b) == 0 <==> WordSum(b) == 0)
  {
    if |b| <= 1 {
      CongFrom(OnesSum(b), 256 * WordSum(b), 0);
    } else {
      var rest := b[2..];
      OnesSumKeeps(rest);
      var w := Word(b[1], b[0]);
      var v := Word(b[0], b[1]);
      CongFrom(w, 256 * v, -(b[1] as int));
      CongAdd(w, 256 * v, OnesSum(rest), 256 * WordSum(rest));
      CongFrom(OnesSum(b), w + OnesSum(rest), if w + OnesSum(rest) >= 65536 then -1 else 0);
      CongTrans(OnesSum(b), w + OnesSum(rest), 256 * WordSum(b));
    }
  }

  lemma SwapKeeps(x: nat)
    requires x < 65536
    ensures Cong(Swap(x), 256 * x) && (Swap(x) == 0 <==> x == 0) && Swap(x) < 65536
    ensures Swap(65535 - x) == 65535 - Swap(x)
  {
    var hi, lo := x / 256, x % 256;
    assert 256 * x == 65536 * hi + 256 * lo;
    CongFrom(Swap(x), 256 * x, -hi);
    assert (65535 - x) / 256 == 255 - hi && (65535 - x) % 256 == 255 - lo;
  }

  /** The bytes of the exchanged value, low byte first, are those of the value in network order. */
  lemma SwappedBytes(r: nat)
    requires r < 65536
    ensures [Swap(r) % 256, Swap(r) / 256 % 256] == BigEndian(r, 2)
  {
    assert BigEndian(r / 256, 1) == BigEndian(r / 256 / 256, 0) + [r / 256 % 256];
    assert BigEndian(r, 2) == [r / 256 % 256, r % 256];
  }

  lemma FoldIsSwapped(s: nat, o: nat)
    requires s < TWO_32 && o < 65536 && Cong(o, 256 * s) && (o == 0 <==> s == 0)
    ensures Fold(s) == Swap(o)
  {
    var f := Fold(s);
    FoldKeeps(s);
    SwapKeeps(o);
    CongScale(o, 256 * s, 256);
    CongTrans(Swap(o), 256 * o, 256 * (256 * s));
    CongFrom(256 * (256 * s), s, s);
    CongTrans(Swap(o), 256 * (256 * s), s);
    CongFrom(s, s, 0);
    CongTrans(f, s, s);
    CongTrans(Swap(o), s, f);
    CongUnique(Swap(o), f);
  }

  lemma ComplementSwapped(s: nat, o: nat, c: nat)
    requires s < TWO_32 && o < 65536 && Cong(o, 256 * s) && (o == 0 <==> s == 0) && c == 65535 - Fold(s)
    ensures c == Swap(65535 - o) && [c % 256, c / 256 % 256] == BigEndian(65535 - o, 2)
  {
    FoldIsSwapped(s, o);
    SwapKeeps(o);
    SwappedBytes(65535 - o);
  }

  /** Byte order independence: the value is that of the big-endian definition with its bytes exchanged, so the low
      byte written first and the high byte second are the definition's bytes in network order. */
  lemma MatchesInternetChecksum(b: seq<byte>)
    requires |b| <= 131074
    ensures Checksum(b) == Swap(InternetChecksum(b))
    ensures [Checksum(b) % 256, Checksum(b) / 256 % 256] == BigEndian(InternetChecksum(b), 2)
  {
    SmallChecksum(b, WordSum(b));
    OnesSumKeeps(b);
    ComplementSwapped(WordSum(b), OnesSum(b), Checksum(b));
  }

  // ---------------------------------------------------------------- writing the checksum in

  /** The low byte at `k` and the high byte after it. */
  function Patched(b: seq<byte>, k: nat): seq<byte>
    requires k + 1 < |b|
  {
    var c := Checksum(b);
    b[k := c % 256][k + 1 := c / 256]
  }

  lemma {:induction false} SumPatched(b: seq<byte>, k: nat, c: nat)
    requires k % 2 == 0 && k + 1 < |b| && b[k] == b[k + 1] == 0 && c < 65536
    ensures WordSum(b[k := c % 256][k + 1 := c / 256]) == WordSum(b) + c
    decreases k
  {
    var d := b[k := c % 256][k + 1 := c / 256];
    if k == 0 {
      assert d[2..] == b[2..];
    } else {
      SumPatched(b[2..], k - 2, c);
      assert d[2..] == b[2..][k - 2 := c % 256][k - 1 := c / 256];
    }
  }

  lemma FoldComplement(s: nat, c: nat)
    requires c == 65535 - Fold(s) && s + c < TWO_32
    ensures Fold(s + c) == 65535
  {
    FoldKeeps(s);
    FoldKeeps(s + c);
    var f, g, t := Fold(s), Fold(s + c), s + c;
    Complement(s, c, f, g, t);
  }

  lemma Complement(s: nat, c: nat, f: nat, g: nat, t: nat)
    requires f < 65536 && g < 65536 && c == 65535 - f && t == s + c
    requires Cong(f, s) && Cong(g, t) && (g == 0 <==> t == 0) && (f == 0 <==> s == 0)
    ensures g == 65535
  {
    var k :| Off(f, s, k);
    CongFrom(t, 65535, -k);
    CongTrans(g, t, 65535);
    CongUnique(g, 65535);
  }

  /** With the checksum in its zeroed field the checksum is 0. */
  lemma PatchedVerifies(b: seq<byte>, k: nat)
    requires |b| <= 131074 && k % 2 == 0 && k + 1 < |b| && b[k] == b[k + 1] == 0
    ensures Checksum(Patched(b, k)) == 0
  {
    var s, c, d := WordSum(b), Checksum(b), Patched(b, k);
    SmallChecksum(b, s);
    SumPatched(b, k, c);
    assert d == b[k := c % 256][k + 1 := c / 256];
    SmallChecksum(d, s + c);
    FoldComplement(s, c);
  }
}
