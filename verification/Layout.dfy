/** One 1452-byte buffer holds both layers of a packet:
      0..16   lower session header     16..20  lower codec     20..36  route label
      36..52  upper session header     52..56  upper codec     56..    payload, upper tag, lower tag
    Sealing and opening happen in place, and the length of the packet is not updated by the callers. */
module Layout {
  import opened Bytes
  import opened Crypto

  const TPT_MTU: nat := 1452

  type Buf = b: seq<byte> | |b| == TPT_MTU witness Zeros(TPT_MTU)

  /** `s` copied over `b` from `off` on. */
  function Put(b: Buf, off: nat, s: seq<byte>): (r: Buf)
    requires off + |s| <= TPT_MTU
    ensures r[off..off + |s|] == s
  {
    b[..off] + s + b[off + |s|..]
  }

  lemma PutOutside(b: Buf, off: nat, s: seq<byte>, lo: nat, hi: nat)
    requires off + |s| <= TPT_MTU && lo <= hi <= TPT_MTU && (hi <= off || off + |s| <= lo)
    ensures Put(b, off, s)[lo..hi] == b[lo..hi]
  {
    var r := Put(b, off, s);
    forall k | lo <= k < hi
      ensures r[k] == b[k]
    {
    }
  }

  lemma PutSame(b: Buf, off: nat, n: nat)
    requires off + n <= TPT_MTU
    ensures Put(b, off, b[off..off + n]) == b
  {
  }

  lemma SubSlice(a: Buf, b: Buf, lo: nat, hi: nat, i: nat, j: nat)
    requires lo <= i <= j <= hi <= TPT_MTU && a[lo..hi] == b[lo..hi]
    ensures a[i..j] == b[i..j]
  {
    forall k | i <= k < j
      ensures a[k] == b[k]
    {
      assert a[lo..hi][k - lo] == b[lo..hi][k - lo];
    }
  }

  lemma Nested(b: Buf, lo: nat, hi: nat, i: nat, j: nat)
    requires lo <= hi <= TPT_MTU && i <= j <= hi - lo
    ensures b[lo..hi][i..j] == b[lo + i..lo + j]
  {
    forall k | 0 <= k < j - i
      ensures b[lo..hi][i..j][k] == b[lo + i..lo + j][k]
    {
      assert b[lo..hi][i + k] == b[lo + (i + k)];
    }
  }

  lemma PutInside(b: Buf, off: nat, s: seq<byte>, lo: nat, hi: nat)
    requires off + |s| <= TPT_MTU && off <= lo <= hi <= off + |s|
    ensures Put(b, off, s)[lo..hi] == s[lo - off..hi - off]
  {
    var r := Put(b, off, s);
    forall k | lo <= k < hi
      ensures r[k] == s[k - off]
    {
    }
  }

  // ---------------------------------------------------------------- codecs

  /** Seven bits a byte, lowest first, the top bit set on all bytes but the last. */
  function Uvarint(n: nat): (s: seq<byte>)
    ensures |s| >= 1
  {
    if n < 128 then [n] else [128 + n % 128] + Uvarint(n / 128)
  }

  /** The number at the start of `s`; a number that stops short or has a zero last byte is refused. */
  function ReadUvarint(s: seq<byte>, first: bool): Option<nat> {
    if s == [] then None
    else if s[0] < 128 then (if s[0] == 0 && !first then None else Some(s[0]))
    else
      match ReadUvarint(s[1..], false)
      case None => None
      case Some(v) => Some(s[0] - 128 + 128 * v)
  }

  lemma {:induction false} UvarintReadsBack(n: nat, rest: seq<byte>, first: bool)
    requires first || n > 0
    ensures ReadUvarint(Uvarint(n) + rest, first) == Some(n)
  {
    if n >= 128 {
      UvarintReadsBack(n / 128, rest, false);
      assert (Uvarint(n) + rest)[1..] == Uvarint(n / 128) + rest;
    }
  }

  /** A number is read exactly where its bytes are: no other spelling of it is accepted. */
  lemma {:induction false} UvarintIff(s: seq<byte>, first: bool, n: nat)
    ensures ReadUvarint(s, first) == Some(n) <==> Uvarint(n) <= s && (first || n > 0)
  {
    if s == [] {
    } else if s[0] < 128 {
      if n >= 128 {
        assert Uvarint(n)[0] >= 128;
      }
    } else {
      UvarintIff(s[1..], false, n / 128);
      if n >= 128 {
        var rest := Uvarint(n / 128);
        assert Uvarint(n) == [128 + n % 128] + rest;
        assert Uvarint(n) <= s <==> s[0] == 128 + n % 128 && rest <= s[1..];
      } else {
        assert Uvarint(n) == [n];
      }
    }
  }

  lemma UvarintLength(n: nat)
    ensures |Uvarint(n)| <= 4 <==> n < 0x1000_0000
  {
    if n >= 128 {
      var m := n / 128;
      if m >= 128 {
        var k := m / 128;
        if k >= 128 {
          assert |Uvarint(k)| == 1 + |Uvarint(k / 128)|;
          assert |Uvarint(k / 128)| == 1 <==> k / 128 < 128;
        }
      }
    }
  }

  /** SetCodec; None is the panic on a codec of more than four bytes. */
  function SetCodec(b: Buf, off: nat, codec: nat): Option<Buf>
    requires off + 4 <= TPT_MTU
  {
    if |Uvarint(codec)| > 4 then None else Some(Put(b, off, Uvarint(codec)))
  }

  function CodecAt(b: Buf, off: nat): Option<nat>
    requires off + 4 <= TPT_MTU
  {
    ReadUvarint(b[off..off + 4], true)
  }

  /** SetCodec works exactly below 2^28; the codec then reads back whatever was left behind it, and nothing outside
      its four bytes changes. */
  lemma CodecReadsBack(b: Buf, off: nat, codec: nat)
    requires off + 4 <= TPT_MTU
    ensures SetCodec(b, off, codec).Some? <==> codec < 0x1000_0000
    ensures SetCodec(b, off, codec).Some? ==>
      var b' := SetCodec(b, off, codec).value;
      CodecAt(b', off) == Some(codec) && b'[..off] == b[..off] && b'[off + 4..] == b[off + 4..]
  {
    UvarintLength(codec);
    if codec < 0x1000_0000 {
      var u := Uvarint(codec);
      PutThen(b, off, u, off + 4);
      UvarintReadsBack(codec, b[off + |u|..off + 4], true);
    }
  }

  lemma PutThen(b: Buf, off: nat, s: seq<byte>, end: nat)
    requires off + |s| <= end <= TPT_MTU
    ensures Put(b, off, s)[off..end] == s + b[off + |s|..end]
    ensures Put(b, off, s)[..off] == b[..off] && Put(b, off, s)[end..] == b[end..]
  {
    var r := Put(b, off, s);
    PutOutside(b, off, s, off + |s|, end);
    assert r[off..end] == r[off..off + |s|] + r[off + |s|..end];
    PutOutside(b, off, s, end, TPT_MTU);
    PutOutside(b, off, s, 0, off);
    assert r[..off] == r[0..off] && r[end..] == r[end..TPT_MTU];
  }

  lemma CodecKeeps(b: Buf, off: nat, codec: nat, lo: nat, hi: nat)
    requires off + 4 <= TPT_MTU && SetCodec(b, off, codec).Some?
    requires lo <= hi <= TPT_MTU && (hi <= off || off + 4 <= lo)
    ensures SetCodec(b, off, codec).value[lo..hi] == b[lo..hi]
  {
    PutOutside(b, off, Uvarint(codec), lo, hi);
  }

  // ---------------------------------------------------------------- the route label

  /** SetRoute's bytes: position, the low byte of the length, the hops, and zeros up to 16 bytes; a longer route runs
      into the upper header. */
  function LabelBytes(route: seq<byte>): (s: seq<byte>)
    ensures |s| == if |route| <= 14 then 16 else 2 + |route|
  {
    [0, |route| % 256] + route + Zeros(if |route| <= 14 then 14 - |route| else 0)
  }

  /** The zero-fill loop. */
  method ZeroFill(buf: array<byte>, lo: nat, hi: nat)
    requires buf.Length == TPT_MTU && lo <= hi <= TPT_MTU
    modifies buf
    ensures buf[..] == Put(old(buf[..]), lo, Zeros(hi - lo))
  {
    ghost var b: Buf := buf[..];
    var i := lo;
    while i < hi
      invariant lo <= i <= hi
      invariant buf[..lo] == b[..lo] && buf[hi..] == b[hi..]
      invariant forall k :: lo <= k < i ==> buf[k] == 0
    {
      buf[i] := 0;
      i := i + 1;
    }
    assert buf[lo..hi] == Zeros(hi - lo);
    assert buf[..] == buf[..lo] + buf[lo..hi] + buf[hi..];
  }

  /** `ok` is false where the hops do not fit into the buffer; position and length are written by then. */
  method SetRoute(buf: array<byte>, route: seq<byte>) returns (ok: bool)
    requires buf.Length == TPT_MTU
    modifies buf
    ensures ok <==> |route| <= 1430
    ensures buf[..] == Put(old(buf[..]), 20, if ok then LabelBytes(route) else [0, |route| % 256])
  {
    ghost var b: Buf := buf[..];
    var head: seq<byte> := [0, |route| % 256];
    Copy(buf, 20, head);
    if 22 + |route| > TPT_MTU {
      return false;
    }
    Copy(buf, 22, route);
    PutPut(b, 20, head, route);
    if |route| < 14 {
      ZeroFill(buf, 22 + |route|, 36);
    }
    PutPut(b, 20, head + route, Zeros(if |route| < 14 then 14 - |route| else 0));
    ok := true;
  }

  // ---------------------------------------------------------------- sealing and opening in place

  /** Any authenticated cipher: a key, a 12-byte nonce, and plain or sealed bytes. */
  datatype Aead = Aead(
    seal: (Term, seq<byte>, seq<byte>) -> seq<byte>,
    open: (Term, seq<byte>, seq<byte>) -> Option<seq<byte>>)

  /** All that is asked of it: a 16-byte tag, and opening undoes sealing. */
  ghost predicate Correct(c: Aead) {
    forall k, n, p :: |c.seal(k, n, p)| == |p| + 16 && c.open(k, n, c.seal(k, n, p)) == Some(p)
  }

  const DATA_TYPE: seq<byte> := [4, 0, 0, 0]

  function DataHeader(idx: Index, nonce: seq<byte>): seq<byte> {
    DATA_TYPE + BigEndian(idx, 4) + nonce
  }

  function IndexAt(b: Buf, off: nat): nat
    requires off + 8 <= TPT_MTU
  {
    FromBigEndian(b[off + 4..off + 8])
  }

  /** CreateData's work on a packet of `len` bytes; None is a slice out of range. */
  function Sealed(c: Aead, b: Buf, len: nat, off: nat, pad: nat, key: Term, idx: Index, nonce: seq<byte>): Option<Buf>
    requires |nonce| == 8
  {
    if !(off + 16 <= len - pad - 16 <= TPT_MTU) then None else
    var ct := c.seal(key, [0, 0, 0, 0] + nonce, b[off + 16..len - pad - 16]);
    if off + 16 + |ct| > TPT_MTU then None else
    Some(Put(b, off, DataHeader(idx, nonce) + ct))
  }

  /** The length SetCiphertext returns and the callers drop. */
  function SealedLength(c: Aead, b: Buf, len: nat, off: nat, pad: nat, key: Term, nonce: seq<byte>): nat
    requires off + 16 <= len - pad - 16 <= TPT_MTU
  {
    off + 16 + |c.seal(key, [0, 0, 0, 0] + nonce, b[off + 16..len - pad - 16])| + pad
  }

  /** What the ciphertext and the nonce in the packet open to; None also where a slice is out of range. */
  function Attempt(c: Aead, b: Buf, len: nat, off: nat, pad: nat, key: Term): Option<seq<byte>> {
    if !(off + 16 <= len - pad <= TPT_MTU) then None
    else c.open(key, [0, 0, 0, 0] + b[off + 8..off + 16], b[off + 16..len - pad])
  }

  /** NewDataPacket and HandleData's work; None is a slice out of range or a packet that does not open. */
  function Opened(c: Aead, b: Buf, len: nat, off: nat, pad: nat, key: Term): Option<Buf> {
    match Attempt(c, b, len, off, pad, key)
    case None => None
    case Some(pt) =>
      if off + 16 + |pt| + 16 > TPT_MTU then None
      else Some(Put(Put(b, off, DATA_TYPE), off + 16, pt + Zeros(16)))
  }

  /** Sealing fails exactly when the packet does not fit, and keeps the length. */
  lemma SealFits(c: Aead, b: Buf, len: nat, off: nat, pad: nat, key: Term, idx: Index, nonce: seq<byte>)
    requires Correct(c) && |nonce| == 8 && off + 16 <= len - pad - 16
    ensures Sealed(c, b, len, off, pad, key, idx, nonce).Some? <==> len - pad <= TPT_MTU
    ensures len - pad <= TPT_MTU ==> SealedLength(c, b, len, off, pad, key, nonce) == len
  {
  }

  lemma IndexReadsBack(idx: Index)
    ensures FromBigEndian(BigEndian(idx, 4)) == idx
  {
    assert Pow256(4) == 256 * (256 * (256 * (256 * Pow256(0))));
    BigEndianReadsBack(idx, 4);
  }

  /** What sealing writes: the header, the ciphertext, and nothing before or behind them. */
  lemma SealWrites(c: Aead, b: Buf, len: nat, off: nat, pad: nat, key: Term, idx: Index, nonce: seq<byte>)
    requires Correct(c) && |nonce| == 8 && off + 16 <= len - pad - 16 && len - pad <= TPT_MTU
    ensures
      var r := Sealed(c, b, len, off, pad, key, idx, nonce);
      && r.Some?
      && r.value[off..off + 4] == DATA_TYPE && IndexAt(r.value, off) == idx && r.value[off + 8..off + 16] == nonce
      && r.value[off + 16..len - pad] == c.seal(key, [0, 0, 0, 0] + nonce, b[off + 16..len - pad - 16])
      && r.value[..off] == b[..off] && r.value[len - pad..] == b[len - pad..]
  {
    var ct := c.seal(key, [0, 0, 0, 0] + nonce, b[off + 16..len - pad - 16]);
    var s := DataHeader(idx, nonce) + ct;
    PutInside(b, off, s, off, off + 4);
    PutInside(b, off, s, off + 4, off + 8);
    PutInside(b, off, s, off + 8, off + 16);
    PutInside(b, off, s, off + 16, len - pad);
    assert s[..4] == DATA_TYPE && s[4..8] == BigEndian(idx, 4) && s[8..16] == nonce && s[16..] == ct;
    IndexReadsBack(idx);
  }

  lemma SealKeeps(c: Aead, b: Buf, len: nat, off: nat, pad: nat, key: Term, idx: Index, nonce: seq<byte>, lo: nat,
                  hi: nat)
    requires |nonce| == 8 && lo <= hi <= off && Sealed(c, b, len, off, pad, key, idx, nonce).Some?
    ensures hi <= TPT_MTU && Sealed(c, b, len, off, pad, key, idx, nonce).value[lo..hi] == b[lo..hi]
  {
    var ct := c.seal(key, [0, 0, 0, 0] + nonce, b[off + 16..len - pad - 16]);
    PutOutside(b, off, DataHeader(idx, nonce) + ct, lo, hi);
  }

  /** Where any buffer that carries the sealed bytes has them. */
  lemma SealCarries(c: Aead, b: Buf, len: nat, off: nat, pad: nat, key: Term, idx: Index, nonce: seq<byte>, w: Buf)
    requires Correct(c) && |nonce| == 8 && off + 16 <= len - pad - 16 && len - pad <= TPT_MTU
    requires Sealed(c, b, len, off, pad, key, idx, nonce).Some?
    requires w[off..len - pad] == Sealed(c, b, len, off, pad, key, idx, nonce).value[off..len - pad]
    ensures w[off..off + 4] == DATA_TYPE && IndexAt(w, off) == idx && w[off + 8..off + 16] == nonce
    ensures w[off + 16..len - pad] == c.seal(key, [0, 0, 0, 0] + nonce, b[off + 16..len - pad - 16])
  {
    SealWrites(c, b, len, off, pad, key, idx, nonce);
    var s := Sealed(c, b, len, off, pad, key, idx, nonce).value;
    SubSlice(w, s, off, len - pad, off, off + 4);
    SubSlice(w, s, off, len - pad, off + 4, off + 8);
    SubSlice(w, s, off, len - pad, off + 8, off + 16);
    SubSlice(w, s, off, len - pad, off + 16, len - pad);
  }

  /** Opening any buffer that carries the sealed bytes restores the plain ones and keeps what is around them. */
  lemma SealOpens(c: Aead, b: Buf, len: nat, off: nat, pad: nat, key: Term, idx: Index, nonce: seq<byte>, w: Buf)
    requires Correct(c) && |nonce| == 8 && off + 16 <= len - pad - 16 && len - pad <= TPT_MTU
    requires Sealed(c, b, len, off, pad, key, idx, nonce).Some?
    requires w[off..len - pad] == Sealed(c, b, len, off, pad, key, idx, nonce).value[off..len - pad]
    ensures w[off..off + 4] == DATA_TYPE && IndexAt(w, off) == idx
    ensures
      var r := Opened(c, w, len, off, pad, key);
      && r.Some?
      && r.value[off + 16..len - pad - 16] == b[off + 16..len - pad - 16]
      && r.value[..off] == w[..off] && r.value[len - pad..] == w[len - pad..]
  {
    SealCarries(c, b, len, off, pad, key, idx, nonce, w);
    OpenWrites(w, off, b[off + 16..len - pad - 16], len - pad);
  }

  /** Nothing sealed with the one key opens with the other. */
  ghost predicate Refuses(c: Aead, key: Term, other: Term) {
    forall n, p :: c.open(other, n, c.seal(key, n, p)) == None
  }

  lemma WrongKeyRefused(c: Aead, b: Buf, len: nat, off: nat, pad: nat, key: Term, idx: Index, nonce: seq<byte>, w: Buf,
                        other: Term)
    requires Correct(c) && |nonce| == 8 && off + 16 <= len - pad - 16 && len - pad <= TPT_MTU
    requires Sealed(c, b, len, off, pad, key, idx, nonce).Some?
    requires w[off..len - pad] == Sealed(c, b, len, off, pad, key, idx, nonce).value[off..len - pad]
    requires Refuses(c, key, other)
    ensures Opened(c, w, len, off, pad, other) == None
  {
    SealCarries(c, b, len, off, pad, key, idx, nonce, w);
  }

  lemma OpenWrites(w: Buf, off: nat, pt: seq<byte>, end: nat)
    requires off + 16 + |pt| + 16 == end <= TPT_MTU
    ensures
      var r := Put(Put(w, off, DATA_TYPE), off + 16, pt + Zeros(16));
      r[off + 16..end - 16] == pt && r[..off] == w[..off] && r[end..] == w[end..]
  {
    var v := Put(w, off, DATA_TYPE);
    PutInside(v, off + 16, pt + Zeros(16), off + 16, end - 16);
    PutOutside(v, off + 16, pt + Zeros(16), 0, off);
    PutOutside(v, off + 16, pt + Zeros(16), end, TPT_MTU);
    PutOutside(w, off, DATA_TYPE, 0, off);
    PutOutside(w, off, DATA_TYPE, end, TPT_MTU);
  }

  /** The hypotheses on a cipher can be met: a plain 16-byte tag will do. */
  function TagOnly(): Aead {
    Aead((k, n, p) => p + Zeros(16), (k, n, s) => if |s| >= 16 then Some(s[..|s| - 16]) else None)
  }

  lemma TagOnlyCorrect()
    ensures Correct(TagOnly())
  {
    var c := TagOnly();
    forall k, n, p
      ensures |c.seal(k, n, p)| == |p| + 16 && c.open(k, n, c.seal(k, n, p)) == Some(p)
    {
      assert (p + Zeros(16))[..|p|] == p;
    }
  }

  /** A cipher that tells one key from all others. */
  function KeyTag(k: Term, key: Term): (tag: seq<byte>)
    ensures |tag| == 16
  {
    [if k == key then 1 else 0] + Zeros(15)
  }

  function Tagged(key: Term): Aead {
    Aead((k, n, p) => p + KeyTag(k, key),
         (k, n, s) => if |s| >= 16 && s[|s| - 16..] == KeyTag(k, key) then Some(s[..|s| - 16]) else None)
  }

  lemma TaggedSeparates(key: Term, other: Term)
    requires key != other
    ensures Correct(Tagged(key)) && Refuses(Tagged(key), key, other) && Refuses(Tagged(key), other, key)
  {
    var c := Tagged(key);
    forall k, n, p
      ensures |c.seal(k, n, p)| == |p| + 16 && c.open(k, n, c.seal(k, n, p)) == Some(p)
    {
      var s := p + KeyTag(k, key);
      assert s[|s| - 16..] == KeyTag(k, key) && s[..|s| - 16] == p;
    }
    forall n, p
      ensures c.open(other, n, c.seal(key, n, p)) == None && c.open(key, n, c.seal(other, n, p)) == None
    {
      assert KeyTag(key, key)[0] != KeyTag(other, key)[0];
      var s, s' := p + KeyTag(key, key), p + KeyTag(other, key);
      assert s[|s| - 16..] == KeyTag(key, key) && s'[|s'| - 16..] == KeyTag(other, key);
    }
  }

  lemma PutPut(b: Buf, off: nat, s: seq<byte>, t: seq<byte>)
    requires off + |s| + |t| <= TPT_MTU
    ensures Put(Put(b, off, s), off + |s|, t) == Put(b, off, s + t)
  {
  }

  method Copy(buf: array<byte>, off: nat, s: seq<byte>)
    requires buf.Length == TPT_MTU && off + |s| <= TPT_MTU
    modifies buf
    ensures buf[..] == Put(old(buf[..]), off, s)
  {
    ghost var b: Buf := buf[..];
    var k := 0;
    while k < |s|
      invariant 0 <= k <= |s|
      invariant buf[..off] == b[..off] && buf[off + |s|..] == b[off + |s|..]
      invariant forall i :: 0 <= i < k ==> buf[off + i] == s[i]
    {
      buf[off + k] := s[k];
      k := k + 1;
    }
    assert buf[off..off + |s|] == s;
    assert buf[..] == buf[..off] + buf[off..off + |s|] + buf[off + |s|..];
  }

  method WriteHeader(buf: array<byte>, off: nat, idx: Index, nonce: seq<byte>)
    requires buf.Length == TPT_MTU && |nonce| == 8 && off + 16 <= TPT_MTU
    modifies buf
    ensures buf[..] == Put(old(buf[..]), off, DataHeader(idx, nonce))
  {
    ghost var b: Buf := buf[..];
    Copy(buf, off, DATA_TYPE);
    Copy(buf, off + 4, BigEndian(idx, 4));
    PutPut(b, off, DATA_TYPE, BigEndian(idx, 4));
    Copy(buf, off + 8, nonce);
    PutPut(b, off, DATA_TYPE + BigEndian(idx, 4), nonce);
  }

  /** The plain bytes of a packet that is to be sealed are a slice of it. */
  predicate PlainFits(len: nat, off: nat, pad: nat) {
    off + 16 <= len - pad - 16 <= TPT_MTU
  }

  /** The writes of CreateData, one field after the other; `ok` is false where a slice is out of range.  A ciphertext
      that does not fit stops the call when the header is written. */
  method SealInPlace(c: Aead, buf: array<byte>, len: nat, off: nat, pad: nat, key: Term, idx: Index, nonce: seq<byte>)
    returns (ok: bool)
    requires buf.Length == TPT_MTU && |nonce| == 8
    modifies buf
    ensures ok == Sealed(c, old(buf[..]), len, off, pad, key, idx, nonce).Some?
    ensures buf[..] ==
      if ok then Sealed(c, old(buf[..]), len, off, pad, key, idx, nonce).value
      else if PlainFits(len, off, pad) then Put(old(buf[..]), off, DataHeader(idx, nonce))
      else old(buf[..])
  {
    ghost var b: Buf := buf[..];
    if !PlainFits(len, off, pad) {
      return false;
    }
    var ct := c.seal(key, [0, 0, 0, 0] + nonce, buf[off + 16..len - pad - 16]);
    WriteHeader(buf, off, idx, nonce);
    ok := off + 16 + |ct| <= TPT_MTU;
    if ok {
      Copy(buf, off + 16, ct);
      PutPut(b, off, DataHeader(idx, nonce), ct);
    }
  }

  /** SetPlaintext: the plain bytes, and zeros over the tag. */
  method WritePlain(buf: array<byte>, off: nat, pt: seq<byte>)
    requires buf.Length == TPT_MTU && off + |pt| + 16 <= TPT_MTU
    modifies buf
    ensures buf[..] == Put(old(buf[..]), off, pt + Zeros(16))
  {
    ghost var b: Buf := buf[..];
    Copy(buf, off, pt);
    Copy(buf, off + |pt|, Zeros(16));
    PutPut(b, off, pt, Zeros(16));
  }

  lemma AttemptIgnoresType(c: Aead, b: Buf, len: nat, off: nat, pad: nat, key: Term)
    requires off + 4 <= TPT_MTU
    ensures Attempt(c, Put(b, off, DATA_TYPE), len, off, pad, key) == Attempt(c, b, len, off, pad, key)
  {
    if off + 16 <= len - pad <= TPT_MTU {
      PutOutside(b, off, DATA_TYPE, off + 8, off + 16);
      PutOutside(b, off, DATA_TYPE, off + 16, len - pad);
    }
  }

  /** The writes of NewDataPacket and HandleData. */
  method OpenInPlace(c: Aead, buf: array<byte>, len: nat, off: nat, pad: nat, key: Term) returns (ok: bool)
    requires buf.Length == TPT_MTU && off + 4 <= TPT_MTU
    modifies buf
    ensures ok == Opened(c, old(buf[..]), len, off, pad, key).Some?
    ensures buf[..] ==
      if ok then Opened(c, old(buf[..]), len, off, pad, key).value else Put(old(buf[..]), off, DATA_TYPE)
  {
    ghost var b: Buf := buf[..];
    Copy(buf, off, DATA_TYPE);
    var pt := Attempt(c, buf[..], len, off, pad, key);
    AttemptIgnoresType(c, b, len, off, pad, key);
    ok := pt.Some? && off + 16 + |pt.value| + 16 <= TPT_MTU;
    if ok {
      WritePlain(buf, off + 16, pt.value);
    }
  }
}
