// Hexadecimal and UUID text (wms/internal/signedaction/envelope.go, ledger-adapter/internal/consumer/message.go).
module HexText {
  import opened Basics
  import opened Words

  function Digit(d: nat): (c: char)
    requires d < 16
    ensures DigitValue(c) == Some(d) && LowerHex(c)
  {
    if d < 10 then '0' + d as char else 'a' + (d - 10) as char
  }

  predicate LowerHex(c: char) {
    '0' <= c <= '9' || 'a' <= c <= 'f'
  }

  // hex.DecodeString reads both cases.
  function DigitValue(c: char): (d: Option<nat>)
    ensures d.Some? ==> d.value < 16
  {
    if '0' <= c <= '9' then Some(c as nat - '0' as nat)
    else if 'a' <= c <= 'f' then Some(c as nat - 'a' as nat + 10)
    else if 'A' <= c <= 'F' then Some(c as nat - 'A' as nat + 10)
    else None
  }

  function Encode(bs: seq<Byte>): (s: string)
    ensures |s| == 2 * |bs|
  {
    if bs == [] then "" else [Digit(bs[0] / 16), Digit(bs[0] % 16)] + Encode(bs[1..])
  }

  function Decode(s: string): (bs: Option<seq<Byte>>)
    ensures bs.Some? ==> 2 * |bs.value| == |s|
  {
    if s == "" then Some([])
    else if |s| == 1 || DigitValue(s[0]) == None || DigitValue(s[1]) == None then None
    else
      var rest := Decode(s[2..]);
      if rest == None then None else Some([Pair(DigitValue(s[0]).value, DigitValue(s[1]).value)] + rest.value)
  }

  function Pair(high: nat, low: nat): (b: Byte)
    requires high < 16 && low < 16
    ensures b / 16 == high && b % 16 == low
  {
    16 * high + low
  }

  lemma LowerDigit(c: char)
    requires DigitValue(c).Some?
    ensures Digit(DigitValue(c).value) == c <==> LowerHex(c)
  {
  }

  lemma {:induction false} DecodesEncoded(bs: seq<Byte>)
    ensures Decode(Encode(bs)) == Some(bs)
    decreases |bs|
  {
    if bs != [] {
      DecodesEncoded(bs[1..]);
      var s := Encode(bs);
      assert s[2..] == Encode(bs[1..]) && s[0] == Digit(bs[0] / 16) && s[1] == Digit(bs[0] % 16);
      assert Pair(bs[0] / 16, bs[0] % 16) == bs[0];
      assert [bs[0]] + bs[1..] == bs;
    }
  }

  // Text comes back the same exactly when it has no upper-case digit.
  lemma {:induction false} EncodesDecoded(s: string)
    requires Decode(s).Some?
    ensures Encode(Decode(s).value) == s <==> forall c :: c in s ==> LowerHex(c)
    decreases |s|
  {
    if s != "" {
      EncodesDecoded(s[2..]);
      LowerDigit(s[0]);
      LowerDigit(s[1]);
      var bs := Decode(s).value;
      var head, tail := [Digit(bs[0] / 16), Digit(bs[0] % 16)], Encode(bs[1..]);
      assert bs[1..] == Decode(s[2..]).value;
      assert s == [s[0], s[1]] + s[2..];
      SplitAtTwo(head, tail, s);
      assert forall c :: c in s <==> c == s[0] || c == s[1] || c in s[2..];
    }
  }

  lemma SplitAtTwo(head: string, tail: string, s: string)
    requires |head| == 2 && |s| >= 2
    ensures head + tail == s <==> head[0] == s[0] && head[1] == s[1] && tail == s[2..]
  {
  }

  // Hex32, and "0x" + hex.EncodeToString.
  function Hex(bs: seq<Byte>): string {
    "0x" + Encode(bs)
  }

  function DecodeHex(s: string): Option<seq<Byte>> {
    if |s| >= 2 && s[..2] == "0x" then Decode(s[2..]) else None
  }

  function DecodeHex32(s: string): (w: Option<Word>) {
    match DecodeHex(s)
    case Some(bs) => if |bs| == 32 then Some(bs) else None
    case None => None
  }

  lemma HexRoundTrip(bs: seq<Byte>)
    ensures DecodeHex(Hex(bs)) == Some(bs)
    ensures |bs| == 32 ==> DecodeHex32(Hex(bs)) == Some(bs)
    ensures |bs| != 32 ==> DecodeHex32(Hex(bs)) == None
  {
    DecodesEncoded(bs);
    assert Hex(bs)[..2] == "0x" && Hex(bs)[2..] == Encode(bs);
  }

  // ------------------------------------------------------------------------- UUID text

  // 8-4-4-4-12
  function UuidText(u: Uuid): (s: string)
    ensures |s| == 36
  {
    Encode(u[..4]) + "-" + Encode(u[4..6]) + "-" + Encode(u[6..8]) + "-" + Encode(u[8..10]) + "-" + Encode(u[10..])
  }

  // Canonical text; a UUID parser reads other forms besides.
  function ParseUuid(s: string): (u: Option<Uuid>) {
    if |s| != 36 || s[8] != '-' || s[13] != '-' || s[18] != '-' || s[23] != '-' then None
    else
      match Decode(s[..8] + s[9..13] + s[14..18] + s[19..23] + s[24..])
      case Some(bs) => Some(bs)
      case None => None
  }

  // A parser that reads every canonical text right, whatever else it reads.
  ghost predicate ReadsCanonical(parse: string -> Option<Uuid>) {
    forall u: Uuid :: parse(UuidText(u)) == Some(u)
  }

  lemma {:induction false} EncodeConcat(a: seq<Byte>, b: seq<Byte>)
    ensures Encode(a + b) == Encode(a) + Encode(b)
    decreases |a|
  {
    if a == [] {
      assert a + b == b;
    } else {
      EncodeConcat(a[1..], b);
      assert (a + b)[1..] == a[1..] + b;
    }
  }

  lemma UuidRoundTrip(u: Uuid)
    ensures ParseUuid(UuidText(u)) == Some(u)
  {
    var s := UuidText(u);
    var digits := s[..8] + s[9..13] + s[14..18] + s[19..23] + s[24..];
    UuidDigits(u);
    assert digits == Encode(u);
    DecodesEncoded(u);
  }

  lemma CanonicalParserExists()
    ensures ReadsCanonical(ParseUuid)
  {
    forall u: Uuid
      ensures ParseUuid(UuidText(u)) == Some(u)
    {
      UuidRoundTrip(u);
    }
  }

  // Small letters out, either case in, the high digit first.
  lemma Examples()
    ensures Encode([15, 160]) == "0fa0" && Encode([255]) == "ff"
    ensures Decode("0f") == Some([15]) && Decode("A0") == Some([160]) && Decode("0") == None && Decode("0g") == None
  {
    FourDigits(15, 160);
    assert [255][1..] == [];
    OnePair("0f");
    OnePair("A0");
  }

  lemma OnePair(s: string)
    requires |s| == 2 && DigitValue(s[0]).Some? && DigitValue(s[1]).Some?
    ensures Decode(s) == Some([16 * DigitValue(s[0]).value + DigitValue(s[1]).value])
  {
    assert s[2..] == "";
    var b := Pair(DigitValue(s[0]).value, DigitValue(s[1]).value);
    assert [b] + [] == [b];
  }

  lemma FourDigits(a: Byte, b: Byte)
    ensures Encode([a, b]) == [Digit(a / 16), Digit(a % 16), Digit(b / 16), Digit(b % 16)]
  {
    assert [a, b][1..] == [b] && [b][1..] == [];
  }

  lemma Grouped(a: string, b: string, c: string, d: string, e: string)
    requires |a| == 8 && |b| == |c| == |d| == 4 && |e| == 12
    ensures var s := a + "-" + b + "-" + c + "-" + d + "-" + e;
            && |s| == 36 && s[8] == s[13] == s[18] == s[23] == '-'
            && s[..8] + s[9..13] + s[14..18] + s[19..23] + s[24..] == a + b + c + d + e
  {
  }

  lemma UuidDigits(u: Uuid)
    ensures var s := UuidText(u);
            && s[8] == s[13] == s[18] == s[23] == '-'
            && s[..8] + s[9..13] + s[14..18] + s[19..23] + s[24..] == Encode(u)
  {
    Grouped(Encode(u[..4]), Encode(u[4..6]), Encode(u[6..8]), Encode(u[8..10]), Encode(u[10..]));
    EncodeConcat(u[..4], u[4..6]);
    EncodeConcat(u[..6], u[6..8]);
    EncodeConcat(u[..8], u[8..10]);
    EncodeConcat(u[..10], u[10..]);
    assert u[..4] + u[4..6] == u[..6] && u[..6] + u[6..8] == u[..8] && u[..8] + u[8..10] == u[..10] && u[..10] + u[10..] == u;
  }
}
