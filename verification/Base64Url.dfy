// Unpadded base64url, section 5 of RFC 4648.
module Base64Url {
  import opened Basics
  import opened Words

  function Digit(d: nat): (c: char)
    requires d < 64
    ensures Plain(c)
  {
    if d < 26 then 'A' + d as char
    else if d < 52 then 'a' + (d - 26) as char
    else if d < 62 then '0' + (d - 52) as char
    else if d == 62 then '-' else '_'
  }

  // Needs no escape inside a JSON string.
  predicate Plain(c: char) {
    ' ' <= c <= '~' && c != '"' && c != '\\'
  }

  function DigitValue(c: char): int {
    if 'A' <= c <= 'Z' then c as int - 'A' as int
    else if 'a' <= c <= 'z' then c as int - 'a' as int + 26
    else if '0' <= c <= '9' then c as int - '0' as int + 52
    else if c == '-' then 62
    else if c == '_' then 63
    else -1
  }

  // Three bytes make four digits; one or two left over make two or three.
  function Encode(bs: seq<Byte>): (s: string)
    ensures forall c :: c in s ==> Plain(c)
  {
    if bs == [] then ""
    else if |bs| == 1 then [Digit(bs[0] / 4), Digit(bs[0] % 4 * 16)]
    else if |bs| == 2 then [Digit(bs[0] / 4), Digit(bs[0] % 4 * 16 + bs[1] / 16), Digit(bs[1] % 16 * 4)]
    else
      [Digit(bs[0] / 4), Digit(bs[0] % 4 * 16 + bs[1] / 16), Digit(bs[1] % 16 * 4 + bs[2] / 64), Digit(bs[2] % 64)] + Encode(bs[3..])
  }

  lemma DigitsDiffer(a: nat, b: nat)
    requires a < 64 && b < 64 && Digit(a) == Digit(b)
    ensures a == b
  {
  }

  // Two byte strings of one length never share a text: a challenge text names its challenge.
  lemma {:induction false} EncodeInjective(a: seq<Byte>, b: seq<Byte>)
    requires |a| == |b| && Encode(a) == Encode(b)
    ensures a == b
    decreases |a|
  {
    if a != [] {
      var s, t := Encode(a), Encode(b);
      assert s[0] == t[0] && s[1] == t[1];
      DigitsDiffer(a[0] / 4, b[0] / 4);
      if |a| == 1 {
        DigitsDiffer(a[0] % 4 * 16, b[0] % 4 * 16);
      } else {
        DigitsDiffer(a[0] % 4 * 16 + a[1] / 16, b[0] % 4 * 16 + b[1] / 16);
        if |a| == 2 {
          assert s[2] == t[2];
          DigitsDiffer(a[1] % 16 * 4, b[1] % 16 * 4);
        } else {
          TripleTail(a, b);
        }
      }
    }
  }

  lemma TripleTail(a: seq<Byte>, b: seq<Byte>)
    requires |a| == |b| >= 3 && Encode(a) == Encode(b) && a[0] == b[0] && a[1] / 16 == b[1] / 16
    ensures a == b
    decreases |a|, 0
  {
    var s, t := Encode(a), Encode(b);
    assert s[2] == t[2] && s[3] == t[3] && s[4..] == t[4..];
    DigitsDiffer(a[1] % 16 * 4 + a[2] / 64, b[1] % 16 * 4 + b[2] / 64);
    DigitsDiffer(a[2] % 64, b[2] % 64);
    assert s[4..] == Encode(a[3..]) && t[4..] == Encode(b[3..]);
    EncodeInjective(a[3..], b[3..]);
    assert a == a[..3] + a[3..] && b == b[..3] + b[3..];
  }

  // Table 2 of RFC 4648: capitals, small letters, digits, minus, underscore.
  lemma Alphabet()
    ensures Digit(0) == 'A' && Digit(25) == 'Z' && Digit(26) == 'a' && Digit(51) == 'z' && Digit(52) == '0' && Digit(61) == '9'
    ensures Digit(62) == '-' && Digit(63) == '_'
    ensures forall d :: 0 <= d < 61 && d != 25 && d != 51 ==> Digit(d + 1) as int == Digit(d) as int + 1
  {
  }

  lemma ReadsDigit(d: nat)
    requires d < 64
    ensures DigitValue(Digit(d)) == d
  {
  }

  // Reads four digits as three bytes; of the last two or three digits the bits beyond a byte must be zero.
  function Decode(s: string): (bs: Option<seq<Byte>>) {
    if s == "" then Some([])
    else if |s| == 1 || DigitValue(s[0]) < 0 || DigitValue(s[1]) < 0 then None
    else
      var a, b := DigitValue(s[0]), DigitValue(s[1]);
      var first: Byte := (64 * a + b) / 16;
      if |s| == 2 then if b % 16 == 0 then Some([first]) else None
      else if DigitValue(s[2]) < 0 then None
      else
        var c := DigitValue(s[2]);
        var second: Byte := (64 * b + c) / 4 % 256;
        if |s| == 3 then if c % 4 == 0 then Some([first, second]) else None
        else if DigitValue(s[3]) < 0 then None
        else
          var third: Byte := (64 * c + DigitValue(s[3])) % 256;
          match Decode(s[4..])
          case Some(rest) => Some([first, second, third] + rest)
          case None => None
  }

  lemma {:induction false} RoundTrip(bs: seq<Byte>)
    ensures Decode(Encode(bs)) == Some(bs)
    decreases |bs|
  {
    if |bs| >= 3 {
      RoundTrip(bs[3..]);
      ReadsTriple(bs[0], bs[1], bs[2], Encode(bs[3..]));
      assert bs == [bs[0], bs[1], bs[2]] + bs[3..];
    } else if |bs| == 2 {
      ReadsPair(bs[0], bs[1]);
      assert bs == [bs[0], bs[1]];
    } else if |bs| == 1 {
      ReadsDigit(bs[0] / 4);
      ReadsDigit(bs[0] % 4 * 16);
      OneByte(bs[0]);
      assert bs == [bs[0]];
    }
  }

  lemma OneByte(x: Byte)
    ensures (64 * (x / 4) + x % 4 * 16) / 16 == x && x % 4 * 16 % 16 == 0
  {
  }

  lemma ReadsPair(x: Byte, y: Byte)
    ensures Decode([Digit(x / 4), Digit(x % 4 * 16 + y / 16), Digit(y % 16 * 4)]) == Some([x, y])
  {
    ReadsDigit(x / 4);
    ReadsDigit(x % 4 * 16 + y / 16);
    ReadsDigit(y % 16 * 4);
    TwoBytes(x, y);
  }

  lemma ReadsTriple(x: Byte, y: Byte, z: Byte, rest: string)
    requires Decode(rest).Some?
    ensures Decode([Digit(x / 4), Digit(x % 4 * 16 + y / 16), Digit(y % 16 * 4 + z / 64), Digit(z % 64)] + rest) == Some([x, y, z] + Decode(rest).value)
  {
    ReadsDigit(x / 4);
    ReadsDigit(x % 4 * 16 + y / 16);
    ReadsDigit(y % 16 * 4 + z / 64);
    ReadsDigit(z % 64);
    ThreeBytes(x, y, z);
    var s := [Digit(x / 4), Digit(x % 4 * 16 + y / 16), Digit(y % 16 * 4 + z / 64), Digit(z % 64)] + rest;
    assert s[4..] == rest;
  }

  lemma TwoBytes(x: Byte, y: Byte)
    ensures (64 * (x / 4) + (x % 4 * 16 + y / 16)) / 16 == x
    ensures (64 * (x % 4 * 16 + y / 16) + y % 16 * 4) / 4 % 256 == y
  {
    FirstByte(x / 4, x % 4, y / 16);
    SecondByte(x % 4, y / 16, y % 16, 0);
  }

  lemma ThreeBytes(x: Byte, y: Byte, z: Byte)
    ensures (64 * (x / 4) + (x % 4 * 16 + y / 16)) / 16 == x
    ensures (64 * (x % 4 * 16 + y / 16) + (y % 16 * 4 + z / 64)) / 4 % 256 == y
    ensures (64 * (y % 16 * 4 + z / 64) + z % 64) % 256 == z
  {
    FirstByte(x / 4, x % 4, y / 16);
    SecondByte(x % 4, y / 16, y % 16, z / 64);
    ThirdByte(y % 16, z / 64, z % 64);
  }

  lemma FirstByte(p: nat, q: nat, r: nat)
    requires q < 4 && r < 16
    ensures (64 * p + (q * 16 + r)) / 16 == 4 * p + q
  {
  }

  lemma SecondByte(q: nat, r: nat, s: nat, t: nat)
    requires q < 4 && r < 16 && s < 16 && t < 4
    ensures (64 * (q * 16 + r) + (s * 4 + t)) / 4 % 256 == 16 * r + s
  {
    assert (64 * (q * 16 + r) + (s * 4 + t)) / 4 == 256 * q + 16 * r + s;
  }

  lemma ThirdByte(s: nat, t: nat, u: nat)
    requires t < 4 && u < 64
    ensures (64 * (s * 4 + t) + u) % 256 == 64 * t + u
  {
  }

  // The examples of section 10 of RFC 4648, without padding.
  lemma Examples()
    ensures Encode([102]) == "Zg" && Encode([102, 111]) == "Zm8" && Encode([102, 111, 111]) == "Zm9v"
    ensures Encode([102, 111, 111, 98]) == "Zm9vYg" && Encode([251, 255]) == "-_8"
  {
    assert [102, 111, 111, 98][3..] == [98];
    assert [102, 111, 111][3..] == [];
  }
}
