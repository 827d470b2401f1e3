// Bytes and 32-byte words: big-endian numbers, left-aligned bytes16, text as bytes
// (wms/internal/signedaction/{challenge,assertion}.go, wms/internal/audit/audit_compare.go).
module Words {
  import opened Basics

  type Byte = b: nat | b < 256

  type Uuid = s: seq<Byte> | |s| == 16 witness seq(16, _ => 0)

  type Word = s: seq<Byte> | |s| == 32 witness seq(32, _ => 0)

  function AsciiOf(s: string): (bs: seq<Byte>)
    ensures |bs| == |s| && forall i :: 0 <= i < |s| && s[i] as nat < 128 ==> bs[i] == s[i] as nat
  {
    seq(|s|, i requires 0 <= i < |s| => s[i] as nat % 256)
  }

  // ------------------------------------------------------------------ big-endian numbers

  function Pow256(n: nat): (p: nat)
    ensures p > 0
  {
    if n == 0 then 1 else 256 * Pow256(n - 1)
  }

  // big.Int.SetBytes
  function NumberOf(bs: seq<Byte>): nat {
    if bs == [] then 0 else 256 * NumberOf(bs[..|bs| - 1]) + bs[|bs| - 1]
  }

  // big.Int.FillBytes into n bytes, for a number that fits.
  function BigEndian(v: nat, n: nat): (bs: seq<Byte>)
    ensures |bs| == n
  {
    if n == 0 then [] else BigEndian(v / 256, n - 1) + [v % 256]
  }

  lemma {:induction false} NumberFits(bs: seq<Byte>)
    ensures NumberOf(bs) < Pow256(|bs|)
    decreases |bs|
  {
    if bs != [] {
      NumberFits(bs[..|bs| - 1]);
    }
  }

  lemma {:induction false} RefillsBytes(bs: seq<Byte>)
    ensures BigEndian(NumberOf(bs), |bs|) == bs
    decreases |bs|
  {
    if bs != [] {
      RefillsBytes(bs[..|bs| - 1]);
      assert bs == bs[..|bs| - 1] + [bs[|bs| - 1]];
    }
  }

  lemma {:induction false} ReadsNumber(v: nat, n: nat)
    requires v < Pow256(n)
    ensures NumberOf(BigEndian(v, n)) == v
    decreases n
  {
    if n > 0 {
      ReadsNumber(v / 256, n - 1);
      assert BigEndian(v, n)[..n - 1] == BigEndian(v / 256, n - 1);
    }
  }

  // bytes.Compare(a, b) < 0
  predicate LexLess(a: seq<Byte>, b: seq<Byte>) {
    if b == [] then false
    else if a == [] then true
    else a[0] < b[0] || (a[0] == b[0] && LexLess(a[1..], b[1..]))
  }

  lemma Scaled(x: nat, p: nat)
    ensures 256 * (x * p) == x * (256 * p)
  {
  }

  lemma {:induction false} NumberHead(bs: seq<Byte>)
    requires bs != []
    ensures NumberOf(bs) == bs[0] * Pow256(|bs| - 1) + NumberOf(bs[1..])
    decreases |bs|
  {
    if |bs| > 1 {
      var front := bs[..|bs| - 1];
      NumberHead(front);
      assert bs[1..][..|bs| - 2] == front[1..];
      Scaled(front[0], Pow256(|bs| - 2));
    } else {
      assert bs[..0] == [] && bs[1..] == [];
    }
  }

  // On words of one length the byte order is the order of the numbers.
  lemma {:induction false} LexIsNumeric(a: seq<Byte>, b: seq<Byte>)
    requires |a| == |b|
    ensures LexLess(a, b) <==> NumberOf(a) < NumberOf(b)
    decreases |a|
  {
    if a != [] {
      NumberHead(a);
      NumberHead(b);
      NumberFits(a[1..]);
      NumberFits(b[1..]);
      LexIsNumeric(a[1..], b[1..]);
      HeadDecides(a[0], b[0], Pow256(|a| - 1), NumberOf(a[1..]), NumberOf(b[1..]));
    }
  }

  lemma HeadDecides(x: nat, y: nat, p: nat, r: nat, s: nat)
    requires r < p && s < p
    ensures x * p + r < y * p + s <==> x < y || (x == y && r < s)
  {
    if x < y {
      assert (x + 1) * p <= y * p;
      assert (x + 1) * p == x * p + p;
    } else if y < x {
      assert (y + 1) * p <= x * p;
      assert (y + 1) * p == y * p + p;
    }
  }

  lemma NumbersDiffer(a: seq<Byte>, b: seq<Byte>)
    requires |a| == |b| && NumberOf(a) == NumberOf(b)
    ensures a == b
  {
  }

  // A bytes16 in a word.
  function LeftAligned(id: Uuid): Word {
    id + seq(16, _ => 0)
  }

  function WordOf(v: nat): Word {
    BigEndian(v, 32)
  }

  lemma LeftAlignedInjective(a: Uuid, b: Uuid)
    requires LeftAligned(a) == LeftAligned(b)
    ensures a == b
  {
    assert LeftAligned(a)[..16] == a && LeftAligned(b)[..16] == b;
  }

  lemma {:induction false} LowBytes(v: nat, n: nat, k: nat)
    requires k < n
    ensures BigEndian(v, n)[n - 1 - k] == v / Pow256(k) % 256
    decreases n
  {
    if k > 0 {
      LowBytes(v / 256, n - 1, k - 1);
      DivTwice(v, k);
    }
  }

  lemma DivTwice(v: nat, k: nat)
    requires k > 0
    ensures v / 256 / Pow256(k - 1) == v / Pow256(k)
  {
    var p := Pow256(k - 1);
    var q := v / 256 / p;
    var r := v / 256 % p;
    assert v / 256 == q * p + r;
    assert v == 256 * (v / 256) + v % 256;
    assert v == q * (256 * p) + (256 * r + v % 256);
    assert 256 * r + v % 256 < 256 * p;
    QuotientIs(v, 256 * p, q, 256 * r + v % 256);
  }

  lemma QuotientIs(v: nat, d: nat, q: nat, r: nat)
    requires d > 0 && v == q * d + r && r < d
    ensures v / d == q
  {
    var e := v / d - q;
    assert e * d == (v / d) * d - q * d;
    assert e > 0 ==> e * d >= d;
    assert e < 0 ==> e * d + d <= 0;
  }

  // A small number never looks like a left-aligned id: its last byte or the one before is not zero.
  lemma SmallNumberIsNoId(v: nat, id: Uuid)
    requires 0 < v < 65536
    ensures WordOf(v) != LeftAligned(id)
  {
    LowBytes(v, 32, 0);
    LowBytes(v, 32, 1);
    assert Pow256(1) == 256 * Pow256(0) == 256;
    assert LeftAligned(id)[31] == 0 && LeftAligned(id)[30] == 0;
  }
}
