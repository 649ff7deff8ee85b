/// Hexadecimal rendering of identifiers and tokens, and its parser.
module Hex {
  import opened Protocol

  function Digit(n: int): ByteChar
    requires 0 <= n < 16
  {
    (if n < 10 then '0' as int + n else 'a' as int + n - 10) as char
  }

  function DigitValue(c: char): (v: Option<int>)
    ensures v.Some? ==> 0 <= v.value < 16
  {
    if '0' <= c <= '9' then Some(c as int - '0' as int)
    else if 'a' <= c <= 'f' then Some(c as int - 'a' as int + 10)
    else if 'A' <= c <= 'F' then Some(c as int - 'A' as int + 10)
    else None
  }

  function ByteHex(b: Byte): (s: Text)
    ensures |s| == 2
  {
    [Digit(b / 16), Digit(b % 16)]
  }

  /** Lowercase hex, two digits a byte. */
  function ToHex(bytes: seq<Byte>): (s: Text)
    ensures |s| == 2 * |bytes|
  {
    if bytes == [] then [] else ByteHex(bytes[0]) + ToHex(bytes[1..])
  }

  /** `u8::from_str_radix(pair, 16)` on two bytes: either case, and a plus
      sign in front of a single digit. */
  function PairValue(hi: char, lo: char): Option<Byte> {
    var l := DigitValue(lo);
    if l.None? then None
    else if hi == '+' then Some(l.value)
    else
      var h := DigitValue(hi);
      if h.None? then None else Some(h.value * 16 + l.value)
  }

  /** What the parsers compute: every pair in order, or nothing. */
  function FromPairs(s: string): (r: Option<seq<Byte>>)
    requires |s| % 2 == 0
    ensures r.Some? ==> 2 * |r.value| == |s|
  {
    if s == "" then Some([])
    else
      var first := PairValue(s[0], s[1]);
      if first.None? then None
      else
        var rest := FromPairs(s[2..]);
        if rest.None? then None else Some([first.value] + rest.value)
  }

  function ParsedAs(s: string, n: nat): Option<seq<Byte>> {
    if |s| == 2 * n then FromPairs(s) else None
  }

  function Prefixed(out: seq<Byte>, r: Option<seq<Byte>>): Option<seq<Byte>> {
    if r.None? then None else Some(out + r.value)
  }

  lemma PrefixedAgain(out: seq<Byte>, b: Byte, r: Option<seq<Byte>>)
    ensures Prefixed(out + [b], r) == Prefixed(out, Prefixed([b], r))
  {
    if r.Some? {
      assert out + [b] + r.value == out + ([b] + r.value);
    }
  }

  /** Both parsers' loop: `n` bytes from a string of exactly 2n. */
  method ParsePairs(s: string, n: nat) returns (r: Option<seq<Byte>>)
    ensures r == ParsedAs(s, n)
  {
    if |s| != 2 * n {
      return None;
    }
    var out: seq<Byte> := [];
    assert s[0..] == s;
    assert FromPairs(s).Some? ==> [] + FromPairs(s).value == FromPairs(s).value;
    for i := 0 to n
      invariant FromPairs(s) == Prefixed(out, FromPairs(s[2 * i..]))
    {
      assert s[2 * i..][2..] == s[2 * (i + 1)..];
      var b := PairValue(s[2 * i], s[2 * i + 1]);
      if b.None? {
        return None;
      }
      PrefixedAgain(out, b.value, FromPairs(s[2 * (i + 1)..]));
      out := out + [b.value];
    }
    assert s[2 * n..] == "" && out + [] == out;
    r := Some(out);
  }

  method FromHex(s: string) returns (r: Option<DeviceId>)
    ensures r == ParsedAs(s, 32)
  {
    r := ParsePairs(s, 32);
  }

  method HexDecodeToken(s: string) returns (r: Option<TokenBytes>)
    ensures r == ParsedAs(s, TOKEN_LEN)
  {
    r := ParsePairs(s, TOKEN_LEN);
  }

  lemma DigitRoundTrip(n: int)
    requires 0 <= n < 16
    ensures DigitValue(Digit(n)) == Some(n) && Digit(n) != '+'
  {
  }

  /** Parsing what was rendered gives it back. */
  lemma {:induction false} HexRoundTrip(bytes: seq<Byte>)
    ensures ParsedAs(ToHex(bytes), |bytes|) == Some(bytes)
  {
    if bytes != [] {
      HexRoundTrip(bytes[1..]);
      DigitRoundTrip(bytes[0] / 16);
      DigitRoundTrip(bytes[0] % 16);
      var s := ToHex(bytes);
      assert s[2..] == ToHex(bytes[1..]);
      assert bytes == [bytes[0]] + bytes[1..];
    }
  }

  /** The characters the parser takes, and where. */
  predicate HexChar(c: char) {
    '0' <= c <= '9' || 'a' <= c <= 'f' || 'A' <= c <= 'F'
  }

  /** How the parser reads a character: capitals as small letters, a plus sign as a zero. */
  function Lowered(c: char): char {
    if c == '+' then '0' else if 'A' <= c <= 'F' then (c as int + 32) as char else c
  }

  /** Any string is accepted exactly when every character is a hex digit, or a
      plus sign in the first place of a pair; and it then means what its small
      letters spell. */
  lemma {:induction false} AcceptsExactlyWhen(s: string)
    requires |s| % 2 == 0
    ensures FromPairs(s).Some? <==> forall i :: 0 <= i < |s| ==> HexChar(s[i]) || (i % 2 == 0 && s[i] == '+')
    ensures FromPairs(s).Some? ==> forall i :: 0 <= i < |s| ==> ToHex(FromPairs(s).value)[i] == Lowered(s[i])
    decreases |s|
  {
    if s != "" {
      var rest := s[2..];
      AcceptsExactlyWhen(rest);
      PairMeans(s[0], s[1]);
      assert forall i :: 0 <= i < |rest| ==> rest[i] == s[i + 2];
      assert forall i :: 2 <= i < |s| ==> s[i] == rest[i - 2] && (i - 2) % 2 == i % 2;
      if FromPairs(s).Some? {
        var bytes := FromPairs(s).value;
        assert bytes[1..] == FromPairs(rest).value;
        assert ToHex(bytes) == ByteHex(bytes[0]) + ToHex(bytes[1..]);
      } else if PairValue(s[0], s[1]).Some? {
        var i :| 0 <= i < |rest| && !(HexChar(rest[i]) || (i % 2 == 0 && rest[i] == '+'));
        assert s[i + 2] == rest[i];
      }
    }
  }

  lemma PairMeans(hi: char, lo: char)
    ensures PairValue(hi, lo).Some? <==> HexChar(lo) && (HexChar(hi) || hi == '+')
    ensures PairValue(hi, lo).Some? ==> ByteHex(PairValue(hi, lo).value) == [Lowered(hi), Lowered(lo)]
  {
    DigitMeans(hi);
    DigitMeans(lo);
    if PairValue(hi, lo).Some? {
      var h, l := if hi == '+' then 0 else DigitValue(hi).value, DigitValue(lo).value;
      assert PairValue(hi, lo).value == h * 16 + l;
    }
  }

  lemma DigitMeans(c: char)
    ensures DigitValue(c).Some? <==> HexChar(c)
    ensures DigitValue(c).Some? ==> Digit(DigitValue(c).value) == Lowered(c)
  {
  }

  /** Distinct identifiers have distinct renderings. */
  lemma ToHexInjective(a: DeviceId, b: DeviceId)
    ensures ToHex(a) == ToHex(b) <==> a == b
  {
    HexRoundTrip(a);
    HexRoundTrip(b);
  }

  /** The alphabet `ToHex` writes in. */
  predicate Lowercase(s: string) {
    forall i :: 0 <= i < |s| ==> LowercaseDigit(s[i])
  }

  /** The parser also takes capitals and plus signs; a string it accepts is the
      rendering of what it means exactly when it uses neither. */
  lemma {:induction false} CanonicalExactlyWhenLowercase(s: string)
    requires |s| % 2 == 0 && FromPairs(s).Some?
    ensures ToHex(FromPairs(s).value) == s <==> Lowercase(s)
    decreases |s|
  {
    if s != "" {
      var rest := s[2..];
      CanonicalExactlyWhenLowercase(rest);
      var b := PairValue(s[0], s[1]).value;
      var bytes := FromPairs(s).value;
      assert bytes[1..] == FromPairs(rest).value;
      assert ToHex(bytes) == ByteHex(b) + ToHex(bytes[1..]);
      assert s == s[..2] + rest;
      assert Lowercase(s) <==> Lowercase(s[..2]) && Lowercase(rest) by {
        assert forall i :: 0 <= i < |rest| ==> rest[i] == s[i + 2];
        assert forall i :: 2 <= i < |s| ==> s[i] == rest[i - 2];
      }
      PairCanonical(s[0], s[1]);
      assert s[..2] == [s[0], s[1]];
    }
  }

  predicate LowercaseDigit(c: char) {
    '0' <= c <= '9' || 'a' <= c <= 'f'
  }

  lemma PairCanonical(hi: char, lo: char)
    requires PairValue(hi, lo).Some?
    ensures ByteHex(PairValue(hi, lo).value) == [hi, lo] <==> Lowercase([hi, lo])
  {
    var l := DigitValue(lo).value;
    var h := if hi == '+' then 0 else DigitValue(hi).value;
    var b := PairValue(hi, lo).value;
    assert b == h * 16 + l;
    assert ByteHex(b) == [Digit(h), Digit(l)];
    DigitCanonical(lo);
    if hi == '+' {
      assert Digit(h) == '0' && [hi, lo][0] == '+';
    } else {
      DigitCanonical(hi);
      assert [hi, lo][0] == hi && [hi, lo][1] == lo;
    }
  }

  lemma DigitCanonical(c: char)
    requires DigitValue(c).Some?
    ensures Digit(DigitValue(c).value) == c <==> LowercaseDigit(c)
  {
  }
}
