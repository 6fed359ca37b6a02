/** A PeerID as the source stores it: the 32 bytes of a public key as four big-endian words. */
module PeerIds {
  import opened Bytes

  type KeyBytes = k: seq<byte> | |k| == 32 witness Zeros(32)

  type Word = w: int | 0 <= w < 0x1_0000_0000_0000_0000

  datatype Words = Words(b1: Word, b2: Word, b3: Word, b4: Word)

  /** beUint64 */
  function ReadWord(b: seq<byte>): Word
    requires |b| == 8
  {
    EightBytes();
    FromBigEndian(b)
  }

  function NewPeerID(k: KeyBytes): Words {
    Words(ReadWord(k[..8]), ReadWord(k[8..16]), ReadWord(k[16..24]), ReadWord(k[24..]))
  }

  /** PublicKey: bePutUint64 on each word */
  function PublicKey(p: Words): KeyBytes {
    BigEndian(p.b1, 8) + BigEndian(p.b2, 8) + BigEndian(p.b3, 8) + BigEndian(p.b4, 8)
  }

  lemma WordReadsBack(w: Word)
    ensures ReadWord(BigEndian(w, 8)) == w
  {
    EightBytes();
    BigEndianReadsBack(w, 8);
  }

  lemma WordWritesBack(b: seq<byte>)
    requires |b| == 8
    ensures BigEndian(ReadWord(b), 8) == b
  {
    BigEndianWritesBack(b);
  }

  /** The value of four bytes. */
  function Value(b: seq<byte>): int
    requires |b| == 4
  {
    b[0] as int * 0x100_0000 + b[1] as int * 0x1_0000 + b[2] as int * 0x100 + b[3] as int
  }

  lemma FourBytes(b: seq<byte>)
    requires |b| == 4
    ensures FromBigEndian(b) == Value(b)
  {
    assert b[..3][..2] == b[..2] && b[..2][..1] == b[..1] && b[..1][..0] == [];
    assert FromBigEndian(b[..1]) == b[0] as int;
    assert FromBigEndian(b[..2]) == 256 * FromBigEndian(b[..1]) + b[1] as int;
    assert FromBigEndian(b[..3]) == 256 * FromBigEndian(b[..2]) + b[2] as int;
  }

  /** Each word is eight bytes of the key in their order, the first one counting most. */
  lemma WordIs(b: seq<byte>)
    requires |b| == 8
    ensures ReadWord(b) == Value(b[..4]) * 0x1_0000_0000 + Value(b[4..])
  {
    var c := b[..4];
    FourBytes(c);
    FourBytes(b[4..]);
    assert b[..7][..6] == b[..6] && b[..6][..5] == b[..5] && b[..5][..4] == c;
    assert FromBigEndian(b[..5]) == 256 * FromBigEndian(c) + b[4] as int;
    assert FromBigEndian(b[..6]) == 256 * FromBigEndian(b[..5]) + b[5] as int;
    assert FromBigEndian(b[..7]) == 256 * FromBigEndian(b[..6]) + b[6] as int;
  }

  lemma Halves(k: seq<byte>, lo: nat)
    requires lo + 8 <= |k|
    ensures k[lo..lo + 8][..4] == k[lo..lo + 4] && k[lo..lo + 8][4..] == k[lo + 4..lo + 8]
  {
  }

  /** Which bytes of the key each word is made of. */
  lemma KeyWords(k: KeyBytes, i: nat)
    requires i < 4
    ensures
      var p := NewPeerID(k);
      [p.b1, p.b2, p.b3, p.b4][i] == Value(k[8 * i..8 * i + 4]) * 0x1_0000_0000 + Value(k[8 * i + 4..8 * i + 8])
  {
    var lo := 8 * i;
    var b := k[lo..lo + 8];
    WordIs(b);
    Halves(k, lo);
    assert b == [k[..8], k[8..16], k[16..24], k[24..]][i];
  }

  lemma InFour(k: KeyBytes)
    ensures k == k[..8] + k[8..16] + k[16..24] + k[24..]
  {
    assert k[..16] == k[..8] + k[8..16] && k[..24] == k[..16] + k[16..24];
  }

  /** PublicKey undoes NewPeerID. */
  lemma KeyReadsBack(k: KeyBytes)
    ensures PublicKey(NewPeerID(k)) == k
  {
    WordWritesBack(k[..8]);
    WordWritesBack(k[8..16]);
    WordWritesBack(k[16..24]);
    WordWritesBack(k[24..]);
    InFour(k);
  }

  lemma FourParts(a: seq<byte>, b: seq<byte>, c: seq<byte>, d: seq<byte>)
    requires |a| == |b| == |c| == |d| == 8
    ensures
      var k := a + b + c + d;
      k[..8] == a && k[8..16] == b && k[16..24] == c && k[24..] == d
  {
  }

  /** NewPeerID undoes PublicKey; with KeyReadsBack, comparing PeerIDs compares keys. */
  lemma PeerIDReadsBack(p: Words)
    ensures NewPeerID(PublicKey(p)) == p
  {
    FourParts(BigEndian(p.b1, 8), BigEndian(p.b2, 8), BigEndian(p.b3, 8), BigEndian(p.b4, 8));
    WordReadsBack(p.b1);
    WordReadsBack(p.b2);
    WordReadsBack(p.b3);
    WordReadsBack(p.b4);
  }
}
