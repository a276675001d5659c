/** Base64 as section 4 of RFC 4648 defines it, with the length arithmetic the back end relies on. */
module Base64 {
  import opened Common

  type Byte = b: int | 0 <= b < 256
  type Bytes = seq<Byte>

  function Digit(n: int): char
    requires 0 <= n < 64
  {
    if n < 26 then 'A' + n as char
    else if n < 52 then 'a' + (n - 26) as char
    else if n < 62 then '0' + (n - 52) as char
    else if n == 62 then '+' else '/'
  }

  predicate IsDigit(c: char) {
    'A' <= c <= 'Z' || 'a' <= c <= 'z' || '0' <= c <= '9' || c == '+' || c == '/'
  }

  function Value(c: char): (n: int)
    requires IsDigit(c)
    ensures 0 <= n < 64 && Digit(n) == c
  {
    if 'A' <= c <= 'Z' then (c - 'A') as int
    else if 'a' <= c <= 'z' then (c - 'a') as int + 26
    else if '0' <= c <= '9' then (c - '0') as int + 52
    else if c == '+' then 62 else 63
  }

  lemma DigitValue(n: int)
    requires 0 <= n < 64
    ensures IsDigit(Digit(n)) && Value(Digit(n)) == n
  {}

  /** One, two or three bytes as four characters, padded. */
  function EncodeGroup(bs: Bytes): (s: string)
    requires 1 <= |bs| <= 3
    ensures |s| == 4
  {
    var x := bs[0];
    if |bs| == 1 then [Digit(x / 4), Digit(x % 4 * 16), '=', '=']
    else
      var y := bs[1];
      if |bs| == 2 then [Digit(x / 4), Digit(x % 4 * 16 + y / 16), Digit(y % 16 * 4), '=']
      else
        var z := bs[2];
        [Digit(x / 4), Digit(x % 4 * 16 + y / 16), Digit(y % 16 * 4 + z / 64), Digit(z % 64)]
  }

  function Encode(bs: Bytes): string {
    if bs == [] then ""
    else if |bs| <= 3 then EncodeGroup(bs)
    else EncodeGroup(bs[..3]) + Encode(bs[3..])
  }

  /** A group of four characters: three bytes, or fewer when it is padded. Left-over bits are ignored. */
  function DecodeGroup(s: string): Option<Bytes>
    requires |s| == 4
  {
    if !IsDigit(s[0]) || !IsDigit(s[1]) then None
    else
      var a, b := Value(s[0]), Value(s[1]);
      var x: Byte := a * 4 + b / 16;
      if s[2] == '=' && s[3] == '=' then Some([x])
      else if !IsDigit(s[2]) then None
      else
        var c := Value(s[2]);
        var y: Byte := b % 16 * 16 + c / 4;
        if s[3] == '=' then Some([x, y])
        else if !IsDigit(s[3]) then None
        else
          var z: Byte := c % 4 * 64 + Value(s[3]);
          Some([x, y, z])
  }

  function Decode(s: string): Option<Bytes> {
    if s == "" then Some([])
    else if |s| < 4 then None
    else
      var head := DecodeGroup(s[..4]);
      var rest := Decode(s[4..]);
      if head.None? || rest.None? || (|head.value| < 3 && |s| > 4) then None
      else Some(head.value + rest.value)
  }

  /** Four sextets hold three bytes. */
  lemma Regroup(x: Byte, y: Byte, z: Byte, a: int, b: int, c: int, d: int)
    requires a == x / 4 && b == x % 4 * 16 + y / 16 && c == y % 16 * 4 + z / 64 && d == z % 64
    ensures 0 <= a < 64 && 0 <= b < 64 && 0 <= c < 64 && 0 <= d < 64
    ensures a * 4 + b / 16 == x && b % 16 * 16 + c / 4 == y && c % 4 * 64 + d == z
  {
    assert x / 4 * 4 + x % 4 == x && y / 16 * 16 + y % 16 == y && z / 64 * 64 + z % 64 == z;
    assert b / 16 == x % 4 && b % 16 == y / 16;
    assert c / 4 == y % 16 && c % 4 == z / 64;
  }

  lemma DecodeDigits(a: int, b: int, c: int, d: int, x: Byte, y: Byte, z: Byte)
    requires 0 <= a < 64 && 0 <= b < 64 && 0 <= c < 64 && 0 <= d < 64
    requires a * 4 + b / 16 == x && b % 16 * 16 + c / 4 == y && c % 4 * 64 + d == z
    ensures DecodeGroup([Digit(a), Digit(b), '=', '=']) == Some([x])
    ensures DecodeGroup([Digit(a), Digit(b), Digit(c), '=']) == Some([x, y])
    ensures DecodeGroup([Digit(a), Digit(b), Digit(c), Digit(d)]) == Some([x, y, z])
  {
    DigitValue(a);
    DigitValue(b);
    DigitValue(c);
    DigitValue(d);
  }

  lemma OneByte(x: Byte)
    ensures DecodeGroup(EncodeGroup([x])) == Some([x])
  {
    var a, b := x / 4, x % 4 * 16;
    Regroup(x, 0, 0, a, b, 0, 0);
    DecodeDigits(a, b, 0, 0, x, 0, 0);
  }

  lemma TwoBytes(x: Byte, y: Byte)
    ensures DecodeGroup(EncodeGroup([x, y])) == Some([x, y])
  {
    var a, b, c := x / 4, x % 4 * 16 + y / 16, y % 16 * 4;
    Regroup(x, y, 0, a, b, c, 0);
    DecodeDigits(a, b, c, 0, x, y, 0);
  }

  lemma ThreeBytes(x: Byte, y: Byte, z: Byte)
    ensures DecodeGroup(EncodeGroup([x, y, z])) == Some([x, y, z])
  {
    var a, b, c, d := x / 4, x % 4 * 16 + y / 16, y % 16 * 4 + z / 64, z % 64;
    Regroup(x, y, z, a, b, c, d);
    DecodeDigits(a, b, c, d, x, y, z);
  }

  lemma GroupRoundTrip(bs: Bytes)
    requires 1 <= |bs| <= 3
    ensures DecodeGroup(EncodeGroup(bs)) == Some(bs)
  {
    if |bs| == 1 {
      OneByte(bs[0]);
      assert bs == [bs[0]];
    } else if |bs| == 2 {
      TwoBytes(bs[0], bs[1]);
      assert bs == [bs[0], bs[1]];
    } else {
      ThreeBytes(bs[0], bs[1], bs[2]);
      assert bs == [bs[0], bs[1], bs[2]];
    }
  }

  lemma GroupPadding(bs: Bytes)
    requires 1 <= |bs| <= 3
    ensures forall i | 0 <= i < 4 :: if i <= |bs| then IsDigit(EncodeGroup(bs)[i]) else EncodeGroup(bs)[i] == '='
  {
    var x := bs[0];
    var y := if |bs| > 1 then bs[1] else 0;
    var z := if |bs| > 2 then bs[2] else 0;
    DigitValue(x / 4);
    DigitValue(x % 4 * 16 + y / 16);
    DigitValue(y % 16 * 4 + z / 64);
    DigitValue(z % 64);
  }

  lemma GroupsBegun(n: int)
    ensures CeilDiv(n + 3, 3) == CeilDiv(n, 3) + 1
    ensures CeilDiv(0, 3) == 0 && CeilDiv(1, 3) == CeilDiv(2, 3) == CeilDiv(3, 3) == 1
  {}

  lemma {:induction false} EncodedLength(bs: Bytes)
    ensures |Encode(bs)| == 4 * CeilDiv(|bs|, 3)
  {
    GroupsBegun(|bs| - 3);
    if |bs| > 3 { EncodedLength(bs[3..]); }
  }

  lemma DecodeByGroups(head: string, tail: string, bs: Bytes, rest: Bytes)
    requires |head| == 4 && DecodeGroup(head) == Some(bs) && (|bs| == 3 || tail == "")
    requires Decode(tail) == Some(rest)
    ensures Decode(head + tail) == Some(bs + rest)
  {
    assert (head + tail)[..4] == head && (head + tail)[4..] == tail;
  }

  /** Decoding undoes encoding. */
  lemma {:induction false} RoundTrip(bs: Bytes)
    ensures Decode(Encode(bs)) == Some(bs)
    decreases |bs|
  {
    if 1 <= |bs| <= 3 {
      GroupRoundTrip(bs);
      DecodeByGroups(EncodeGroup(bs), "", bs, []);
      assert EncodeGroup(bs) + "" == Encode(bs) && bs + [] == bs;
    } else if |bs| > 3 {
      GroupRoundTrip(bs[..3]);
      RoundTrip(bs[3..]);
      DecodeByGroups(EncodeGroup(bs[..3]), Encode(bs[3..]), bs[..3], bs[3..]);
      assert bs == bs[..3] + bs[3..];
    }
  }

  // ---------------------------------------------------------------- the textual check

  /** Zero, one or two trailing `=` after digits only, as the back end's regular expression has it. */
  predicate MatchesPattern(s: string) {
    exists n :: 0 <= n <= |s| && DigitsThenPadding(s, n)
  }

  predicate DigitsThenPadding(s: string, n: nat)
    requires n <= |s|
  {
    |s| - n <= 2 && (forall i | 0 <= i < n :: IsDigit(s[i])) && (forall i | n <= i < |s| :: s[i] == '=')
  }

  predicate IsBase64(s: string) { MatchesPattern(s) && |s| % 4 == 0 }

  /** Buffer.byteLength for base64: three quarters of the length without its padding. */
  function ByteLength(s: string): int {
    var n := |s|;
    var b := if n > 0 && s[n - 1] == '=' then n - 1 else n;
    var c := if b > 1 && s[n - 2] == '=' then b - 1 else b;
    c * 3 / 4
  }

  lemma {:induction false} EncodedMatches(bs: Bytes) returns (n: nat)
    ensures n <= |Encode(bs)| && DigitsThenPadding(Encode(bs), n)
    ensures IsBase64(Encode(bs))
    decreases |bs|
  {
    EncodedLength(bs);
    assert |Encode(bs)| % 4 == 0;
    if |bs| == 0 {
      n := 0;
    } else if |bs| <= 3 {
      GroupPadding(bs);
      n := |bs| + 1;
    } else {
      GroupPadding(bs[..3]);
      var m := EncodedMatches(bs[3..]);
      var h, t := EncodeGroup(bs[..3]), Encode(bs[3..]);
      n := 4 + m;
      forall i | 0 <= i < |h + t| ensures if i < n then IsDigit((h + t)[i]) else (h + t)[i] == '=' {
        if i >= 4 { assert (h + t)[i] == t[i - 4]; }
      }
      assert DigitsThenPadding(h + t, n);
    }
    assert MatchesPattern(Encode(bs)) by { assert DigitsThenPadding(Encode(bs), n); }
  }

  lemma {:induction false} LengthByGroups(s: string)
    requires |s| > 4
    ensures |s| >= 6 ==> ByteLength(s) == 3 + ByteLength(s[4..])
  {
    if |s| >= 6 {
      var t := s[4..];
      assert t[|t| - 1] == s[|s| - 1] && t[|t| - 2] == s[|s| - 2];
    }
  }

  /** Every text the check accepts decodes, and its declared length is the length of what it decodes to. */
  lemma {:induction false} LengthIsHonest(s: string)
    requires IsBase64(s)
    ensures Decode(s).Some? && |Decode(s).value| == ByteLength(s)
    decreases |s|
  {
    var n :| 0 <= n <= |s| && DigitsThenPadding(s, n);
    if |s| == 4 {
      assert s[..4] == s && s[4..] == "" && Decode("") == Some([]);
    } else if |s| > 4 {
      var t := s[4..];
      assert DigitsThenPadding(t, n - 4);
      LengthIsHonest(t);
      LengthByGroups(s);
      assert IsDigit(s[..4][0]) && IsDigit(s[..4][1]) && IsDigit(s[..4][2]) && IsDigit(s[..4][3]);
    }
  }

  lemma {:induction false} DigitsInFront(head: string, t: string, n: nat)
    requires |head| == 4 && (forall i | 0 <= i < 4 :: IsDigit(head[i])) && n <= |t| && DigitsThenPadding(t, n)
    ensures DigitsThenPadding(head + t, n + 4)
  {
    forall i | 0 <= i < |head + t| ensures if i < n + 4 then IsDigit((head + t)[i]) else (head + t)[i] == '=' {
      if i >= 4 { assert (head + t)[i] == t[i - 4]; }
    }
  }

  lemma GroupPattern(s: string) returns (n: nat)
    requires |s| == 4 && DecodeGroup(s).Some?
    ensures n <= 4 && DigitsThenPadding(s, n)
    ensures |DecodeGroup(s).value| == 3 ==> forall i | 0 <= i < 4 :: IsDigit(s[i])
  {
    n := if s[2] == '=' then 2 else if s[3] == '=' then 3 else 4;
  }

  lemma DecodeByParts(s: string)
    requires Decode(s).Some? && s != ""
    ensures |s| >= 4 && DecodeGroup(s[..4]).Some? && Decode(s[4..]).Some?
    ensures |s| > 4 ==> |DecodeGroup(s[..4]).value| == 3
  {}

  lemma {:induction false} DecodableLength(s: string)
    requires Decode(s).Some?
    ensures exists k: nat :: |s| == 4 * k
    decreases |s|
  {
    if s == "" {
      assert |s| == 4 * 0;
    } else {
      DecodeByParts(s);
      DecodableLength(s[4..]);
      var k: nat :| |s[4..]| == 4 * k;
      assert |s| == 4 * (k + 1);
    }
  }

  lemma {:induction false} DecodablePattern(s: string) returns (n: nat)
    requires Decode(s).Some?
    ensures n <= |s| && DigitsThenPadding(s, n)
    decreases |s|
  {
    if s == "" {
      n := 0;
    } else {
      DecodeByParts(s);
      var k := GroupPattern(s[..4]);
      if s[4..] == "" {
        n := k;
        assert s == s[..4];
      } else {
        var m := DecodablePattern(s[4..]);
        DigitsInFront(s[..4], s[4..], m);
        assert s == s[..4] + s[4..];
        n := m + 4;
      }
    }
  }

  /** And only such texts decode. */
  lemma {:induction false} DecodableIsBase64(s: string)
    requires Decode(s).Some?
    ensures IsBase64(s)
  {
    DecodableLength(s);
    var n := DecodablePattern(s);
    assert DigitsThenPadding(s, n);
  }

  // ---------------------------------------------------------------- agreement with the standard

  /** The digits are those of Table 1 of RFC 4648: three runs of consecutive characters, and two more. */
  lemma DigitsOfTheStandard(n: int)
    requires 0 <= n < 63
    ensures Digit(0) == 'A' && Digit(25) == 'Z' && Digit(26) == 'a' && Digit(51) == 'z'
    ensures Digit(52) == '0' && Digit(61) == '9' && Digit(62) == '+' && Digit(63) == '/'
    ensures n !in {25, 51, 61, 62} ==> Digit(n + 1) as int == Digit(n) as int + 1
  {}

  /** The four sextets of a group are the bits of its bytes, the first byte highest. */
  lemma {:induction false} GroupIsBigEndian(x: Byte, y: Byte, z: Byte)
    ensures var s := EncodeGroup([x, y, z]);
            && (forall i | 0 <= i < 4 :: IsDigit(s[i]))
            && ((Value(s[0]) * 64 + Value(s[1])) * 64 + Value(s[2])) * 64 + Value(s[3]) == (x * 256 + y) * 256 + z
  {
    var a, b, c, d := x / 4, x % 4 * 16 + y / 16, y % 16 * 4 + z / 64, z % 64;
    Regroup(x, y, z, a, b, c, d);
    DigitValue(a);
    DigitValue(b);
    DigitValue(c);
    DigitValue(d);
    BitsAgree(x, y, z, a, b, c, d);
  }

  lemma {:induction false} BitsAgree(x: int, y: int, z: int, a: int, b: int, c: int, d: int)
    requires a == x / 4 && b == x % 4 * 16 + y / 16 && c == y % 16 * 4 + z / 64 && d == z % 64
    ensures ((a * 64 + b) * 64 + c) * 64 + d == (x * 256 + y) * 256 + z
  {
    assert x == 4 * a + x % 4 && y == 16 * (y / 16) + y % 16 && z == 64 * (z / 64) + z % 64;
  }
}
