/// What scanning makes of any text at all, not only of the codes the daemon
/// shows: which are refused and why, and what the others mean.
module Scan {
  import opened Protocol
  import opened Hex
  import opened Qr

  /** The value of the last pair of that name. */
  function Last(fields: seq<Field>, key: Text): Option<Text> {
    if fields == [] then None
    else if fields[|fields| - 1].0 == key then Some(fields[|fields| - 1].1)
    else Last(fields[..|fields| - 1], key)
  }

  /** The values of the pairs of that name, in order. */
  function Values(fields: seq<Field>, key: Text): seq<Text> {
    if fields == [] then []
    else Values(fields[..|fields| - 1], key) + if fields[|fields| - 1].0 == key then [fields[|fields| - 1].1] else []
  }

  /** A pair whose value is no value for its name. */
  predicate Malformed(f: Field) {
    || (f.0 == KEY_VERSION && ParseU16(f.1).None?)
    || (f.0 == KEY_ID && ParsedAs(f.1, 32).None?)
    || (f.0 == KEY_ADDR && ParseAddr(f.1).None?)
    || (f.0 == KEY_TOKEN && ParsedAs(f.1, TOKEN_LEN).None?)
  }

  predicate WellFormed(fields: seq<Field>) {
    forall i :: 0 <= i < |fields| ==> !Malformed(fields[i])
  }

  function Mapped<T>(v: Option<Text>, parse: Text -> Option<T>): Option<T> {
    if v.None? then None else parse(v.value)
  }

  /** The parser's five locals hold what the pairs say. */
  predicate Says(seen: Seen, fields: seq<Field>) {
    && seen.version == Mapped(Last(fields, KEY_VERSION), s => ParseU16(s))
    && seen.deviceId == Mapped(Last(fields, KEY_ID), s => ParsedAs(s, 32))
    && seen.name == Last(fields, KEY_NAME)
    && seen.token == Mapped(Last(fields, KEY_TOKEN), s => ParsedAs(s, TOKEN_LEN))
    && Stand(seen.addrs, Values(fields, KEY_ADDR))
  }

  predicate Stand(addrs: seq<SocketAddr>, values: seq<Text>) {
    |addrs| == |values| && forall i :: 0 <= i < |addrs| ==> ParseAddr(values[i]) == Some(addrs[i])
  }

  lemma LastSnoc(init: seq<Field>, last: Field, key: Text)
    ensures Last(init + [last], key) == if last.0 == key then Some(last.1) else Last(init, key)
    ensures Values(init + [last], key) == Values(init, key) + if last.0 == key then [last.1] else []
  {
    var fields := init + [last];
    assert fields[..|fields| - 1] == init && fields[|fields| - 1] == last;
  }

  lemma OneMoreSays(seen: Seen, init: seq<Field>, last: Field)
    requires Says(seen, init) && !Malformed(last)
    ensures Take(seen, last).Ok? && Says(Take(seen, last).value, init + [last])
  {
    LastSnoc(init, last, KEY_VERSION);
    LastSnoc(init, last, KEY_ID);
    LastSnoc(init, last, KEY_NAME);
    LastSnoc(init, last, KEY_ADDR);
    LastSnoc(init, last, KEY_TOKEN);
    assert Values(init, KEY_ADDR) + [] == Values(init, KEY_ADDR);
  }

  lemma TakeAllSnoc(s: Seen, init: seq<Field>, last: Field)
    ensures TakeAll(s, init + [last]) == if TakeAll(s, init).Err? then TakeAll(s, init) else Take(TakeAll(s, init).value, last)
    decreases |init|
  {
    if init == [] {
      var none: seq<Field> := [];
      assert init + [last] == [last] && [last][1..] == none;
    } else {
      assert (init + [last])[0] == init[0] && (init + [last])[1..] == init[1..] + [last];
      if Take(s, init[0]).Ok? {
        TakeAllSnoc(Take(s, init[0]).value, init[1..], last);
      }
    }
  }

  /** The loop over the pairs fails at the first malformed one, naming it, and
      otherwise ends with the last value of each name and every address. */
  lemma {:induction false} LoopSays(fields: seq<Field>)
    ensures WellFormed(fields) ==> TakeAll(UNSEEN, fields).Ok? && Says(TakeAll(UNSEEN, fields).value, fields)
    ensures forall i :: 0 <= i < |fields| && Malformed(fields[i]) && WellFormed(fields[..i]) ==>
              TakeAll(UNSEEN, fields) == Err(MalformedField(fields[i].0))
    decreases |fields|
  {
    if fields != [] {
      var init, last := fields[..|fields| - 1], fields[|fields| - 1];
      assert fields == init + [last];
      LoopSays(init);
      TakeAllSnoc(UNSEEN, init, last);
      if WellFormed(init) && !Malformed(last) {
        OneMoreSays(TakeAll(UNSEEN, init).value, init, last);
      }
      forall i | 0 <= i < |fields| && Malformed(fields[i]) && WellFormed(fields[..i])
        ensures TakeAll(UNSEEN, fields) == Err(MalformedField(fields[i].0))
      {
        if i < |init| {
          assert init[i] == fields[i] && init[..i] == fields[..i];
        } else {
          assert init == fields[..i];
        }
      }
    }
  }

  predicate HasScheme(uri: Text) {
    |SCHEME| < |uri| && uri[..|SCHEME|] == SCHEME && uri[|SCHEME|] == ':'
  }

  /** The pairs of a URI's query. */
  function Pairs(uri: Text): seq<Field>
  {
    if SplitUri(uri).None? then [] else Parse(SplitUri(uri).value.1)
  }

  lemma SplitsAt(uri: Text, scheme: Text)
    requires forall i :: 0 <= i < |scheme| ==> scheme[i] != ':'
    ensures SplitUri(uri).Some? && SplitUri(uri).value.0 == scheme <==>
            |scheme| < |uri| && uri[..|scheme|] == scheme && uri[|scheme|] == ':'
  {
    if |scheme| < |uri| && uri[..|scheme|] == scheme && uri[|scheme|] == ':' {
      var rest := uri[|scheme| + 1..];
      assert uri == scheme + [':'] + rest;
      IndexAt(scheme, ':', rest);
    }
  }

  /** Only the text before the first colon decides whether the scheme is wrong. */
  lemma SchemeExactlyWhen(uri: Text)
    ensures Decoded(uri) == Err(WrongScheme) <==> !HasScheme(uri)
  {
    UriConstants();
    SplitsAt(uri, SCHEME);
    ErrorsNameFields(UNSEEN, Pairs(uri));
  }

  lemma {:induction false} ErrorsNameFields(s: Seen, fields: seq<Field>)
    ensures TakeAll(s, fields).Err? ==> TakeAll(s, fields).error.MalformedField?
    decreases |fields|
  {
    if fields != [] && Take(s, fields[0]).Ok? {
      ErrorsNameFields(Take(s, fields[0]).value, fields[1..]);
    }
  }

  /** Any text with the right scheme is scanned to a payload exactly when each of
      its version, id, address and token pairs is well formed and version, id,
      name and token are there; then each field is the last given and the
      addresses are all of them, in order. Otherwise the first malformed pair is
      named, or else the first missing one. */
  lemma ScansExactlyWhen(uri: Text)
    requires HasScheme(uri)
    ensures var fields := Pairs(uri);
            var (v, id, name, token) := (Last(fields, KEY_VERSION), Last(fields, KEY_ID), Last(fields, KEY_NAME), Last(fields, KEY_TOKEN));
            var r := Decoded(uri);
            && (r.Ok? <==> WellFormed(fields) && v.Some? && id.Some? && name.Some? && token.Some?)
            && (r.Ok? ==>
                  && ParseU16(v.value) == Some(r.value.version) && ParsedAs(id.value, 32) == Some(r.value.deviceId)
                  && r.value.name == name.value && ParsedAs(token.value, TOKEN_LEN) == Some(r.value.token)
                  && Stand(r.value.addrs, Values(fields, KEY_ADDR)))
            && (forall i :: 0 <= i < |fields| && Malformed(fields[i]) && WellFormed(fields[..i]) ==>
                  r == Err(MalformedField(fields[i].0)))
            && (WellFormed(fields) && v.None? ==> r == Err(MissingField("v")))
            && (WellFormed(fields) && v.Some? && id.None? ==> r == Err(MissingField("id")))
            && (WellFormed(fields) && v.Some? && id.Some? && name.None? ==> r == Err(MissingField("name")))
            && (WellFormed(fields) && v.Some? && id.Some? && name.Some? && token.None? ==> r == Err(MissingField("token")))
  {
    var fields := Pairs(uri);
    SchemeExactlyWhen(uri);
    LoopSays(fields);
    LastIsSound(fields, KEY_VERSION);
    LastIsSound(fields, KEY_ID);
    LastIsSound(fields, KEY_TOKEN);
    if !WellFormed(fields) {
      FirstMalformed(fields);
    }
  }

  lemma {:induction false} LastIsSound(fields: seq<Field>, key: Text)
    ensures WellFormed(fields) && Last(fields, key).Some? ==> !Malformed((key, Last(fields, key).value))
    decreases |fields|
  {
    if fields != [] {
      var init := fields[..|fields| - 1];
      LastIsSound(init, key);
      assert forall i :: 0 <= i < |init| ==> init[i] == fields[i];
    }
  }

  lemma {:induction false} FirstMalformed(fields: seq<Field>)
    requires !WellFormed(fields)
    ensures exists i :: 0 <= i < |fields| && Malformed(fields[i]) && WellFormed(fields[..i])
    decreases |fields|
  {
    var init := fields[..|fields| - 1];
    if WellFormed(init) {
      assert forall k :: 0 <= k < |init| ==> !Malformed(init[k]) && fields[k] == init[k];
      var i :| 0 <= i < |fields| && Malformed(fields[i]);
      assert fields[..i] == init;
    } else {
      FirstMalformed(init);
      var i :| 0 <= i < |init| && Malformed(init[i]) && WellFormed(init[..i]);
      assert fields[i] == init[i] && fields[..i] == init[..i];
    }
  }

  // ---- The pieces ----

  function Joined(pieces: seq<Text>): Text {
    if pieces == [] then [] else if |pieces| == 1 then pieces[0] else pieces[0] + ['&'] + Joined(pieces[1..])
  }

  function PairsOf(pieces: seq<Text>): seq<Field> {
    if pieces == [] then []
    else (if pieces[0] == [] then [] else [ParsePair(pieces[0])]) + PairsOf(pieces[1..])
  }

  /** A query is cut at its ampersands, empty pieces dropped, however they lie. */
  lemma {:induction false} QueryIsCut(pieces: seq<Text>)
    requires forall i, k :: 0 <= i < |pieces| && 0 <= k < |pieces[i]| ==> pieces[i][k] != '&'
    ensures Parse(Joined(pieces)) == PairsOf(pieces)
    decreases |pieces|
  {
    if pieces != [] {
      var first, later := pieces[0], pieces[1..];
      var tail := Joined(later);
      QueryIsCut(later);
      IndexAt(first, '&', tail);
      if later == [] {
        assert Joined(pieces) == first && first[..|first|] == first;
      } else {
        var query := first + ['&'] + tail;
        assert query[..|first|] == first && query[|first| + 1..] == tail;
      }
    }
  }

  /** A piece is cut at its first equals sign; without one its value is empty. */
  lemma PieceIsCut(name: Text, value: Text)
    requires forall i :: 0 <= i < |name| ==> name[i] != '='
    ensures ParsePair(name + ['='] + value) == (Decode(name), Decode(value))
    ensures ParsePair(name) == (Decode(name), [])
  {
    IndexAt(name, '=', value);
    var piece := name + ['='] + value;
    assert piece[..|name|] == name && piece[|name| + 1..] == value;
    assert name[..|name|] == name;
  }

  /** The serializer's alphabet, byte by byte: letters, digits and `*-._` stand
      for themselves, a plus sign for a space, and a percent sign with two
      digits, never small letters, for anything else. */
  lemma EncodedByte(c: ByteChar)
    ensures var e := EncodeByte(c);
            var kept := 'a' <= c <= 'z' || 'A' <= c <= 'Z' || '0' <= c <= '9' || c == '*' || c == '-' || c == '.' || c == '_';
            && (kept ==> e == [c])
            && (c == ' ' ==> e == ['+'])
            && (!kept && c != ' ' ==>
                  && |e| == 3 && e[0] == '%'
                  && PairValue(e[1], e[2]) == Some(c as int) && e[1] != '+'
                  && !('a' <= e[1] <= 'f') && !('a' <= e[2] <= 'f'))
  {
    var (h, l) := (c as int / 16, c as int % 16);
    assert c as int == h * 16 + l;
    UpperDigitMeans(h);
    UpperDigitMeans(l);
  }

  lemma UpperDigitMeans(n: int)
    requires 0 <= n < 16
    ensures DigitValue(UpperDigit(n)) == Some(n) && UpperDigit(n) != '+' && !('a' <= UpperDigit(n) <= 'f')
  {
  }

  lemma {:induction false} EncodeSplits(a: Text, b: Text)
    ensures Encode(a + b) == Encode(a) + Encode(b)
    decreases |a|
  {
    if a == [] {
      assert a + b == b;
    } else {
      assert (a + b)[0] == a[0] && (a + b)[1..] == a[1..] + b;
      EncodeSplits(a[1..], b);
    }
  }

  // ---- Numbers and addresses ----

  /** Leading zeros taken off, all but the last digit. */
  function Unpadded(s: string): string {
    if |s| > 1 && s[0] == '0' then Unpadded(s[1..]) else s
  }

  lemma {:induction false} DigitsOnly(s: string)
    ensures Digits(s).Some? <==> forall i :: 0 <= i < |s| ==> '0' <= s[i] <= '9'
    decreases |s|
  {
    if s != "" {
      var init := s[..|s| - 1];
      DigitsOnly(init);
      assert forall i :: 0 <= i < |init| ==> init[i] == s[i];
    }
  }

  lemma DecimalSnoc(n: nat, c: char)
    requires '0' <= c <= '9'
    ensures Decimal(n * 10 + (c as int - '0' as int)) == if n == 0 then [c] else Decimal(n) + [c]
  {
    var m := n * 10 + (c as int - '0' as int);
    assert m / 10 == n && m % 10 == c as int - '0' as int;
  }

  lemma ZeroIsZero(n: nat)
    ensures Decimal(n) == "0" <==> n == 0
  {
    NoLeadingZero(n);
  }

  /** Any string is a number exactly when it is all digits, and then it is the
      one it spells, leading zeros or not. */
  lemma {:induction false} DigitsExactlyWhen(s: string)
    ensures Digits(s).Some? <==> forall i :: 0 <= i < |s| ==> '0' <= s[i] <= '9'
    ensures Digits(s).Some? && s != "" ==> Decimal(Digits(s).value) == Unpadded(s)
    decreases |s|
  {
    DigitsOnly(s);
    if s != "" && Digits(s).Some? {
      var init, c := s[..|s| - 1], s[|s| - 1];
      assert s == init + [c];
      var n := Digits(init).value;
      assert Digits(s) == Some(n * 10 + (c as int - '0' as int));
      DecimalSnoc(n, c);
      if init == "" {
        assert s == [c] && n == 0;
      } else {
        DigitsExactlyWhen(init);
        ZeroIsZero(n);
        UnpaddedSnoc(init, c);
      }
    }
  }

  lemma {:induction false} UnpaddedSnoc(s: string, c: char)
    requires s != ""
    ensures Unpadded(s + [c]) == if Unpadded(s) == "0" then [c] else Unpadded(s) + [c]
    decreases |s|
  {
    var longer := s + [c];
    if s[0] == '0' {
      assert longer[1..] == s[1..] + [c];
      if |s| == 1 {
        assert s == "0" && longer[1..] == [c];
      } else {
        UnpaddedSnoc(s[1..], c);
      }
    }
  }

  /** A port is digits that spell a 16-bit number, leading zeros or not. */
  lemma PortExactlyWhen(s: string, n: U16)
    ensures ParsePort(s) == Some(n) <==>
            s != "" && (forall i :: 0 <= i < |s| ==> '0' <= s[i] <= '9') && Unpadded(s) == Decimal(n)
  {
    DigitsExactlyWhen(s);
    if s != "" && Digits(s).Some? && Unpadded(s) == Decimal(n) {
      DigitsOfDecimal(n);
      DigitsOfDecimal(Digits(s).value);
    }
  }

  /** A version is a port's digits, with one plus sign in front or none. */
  lemma VersionExactlyWhen(s: string, n: U16)
    ensures ParseU16(s) == Some(n) <==> exists d: string :: ParsePort(d) == Some(n) && (s == d || s == ['+'] + d)
  {
    var digits := if s != "" && s[0] == '+' then s[1..] else s;
    assert s == digits || s == ['+'] + digits;
    forall d: string | ParsePort(d) == Some(n) && (s == d || s == ['+'] + d)
      ensures d == digits
    {
      PortExactlyWhen(d, n);
      if s == ['+'] + d {
        assert s[1..] == d;
      } else {
        assert s[0] == d[0];
      }
    }
  }

  lemma OctetExactlyWhen(s: string, b: Byte)
    ensures ParseOctet(s) == Some(b) <==> s == Decimal(b)
  {
    OctetRoundTrip(b);
    if ParseOctet(s) == Some(b) {
      DigitsExactlyWhen(s);
    }
  }

  lemma CutExactly(s: string, c: char)
    ensures var (head, tail) := Cut(s, c);
            && (forall i :: 0 <= i < |head| ==> head[i] != c)
            && (tail.Some? ==> s == head + [c] + tail.value)
            && (tail.None? ==> s == head)
  {
  }

  function Host(x: SocketAddr): Text {
    Decimal(x.a) + ['.'] + (Decimal(x.b) + ['.'] + (Decimal(x.c) + ['.'] + Decimal(x.d)))
  }

  /** Any text is an address exactly when it is the four octets as printed, a
      colon, and the port in digits, with or without leading zeros. */
  lemma AddrExactlyWhen(s: string, x: SocketAddr)
    ensures ParseAddr(s) == Some(x) <==> exists p: string :: ParsePort(p) == Some(x.port) && s == Host(x) + [':'] + p
  {
    if ParseAddr(s) == Some(x) {
      AddrIsPrinted(s, x);
    }
    forall p: string | ParsePort(p) == Some(x.port) && s == Host(x) + [':'] + p
      ensures ParseAddr(s) == Some(x)
    {
      PrintedIsAddr(s, x, p);
    }
  }

  lemma AddrIsPrinted(s: string, x: SocketAddr)
    requires ParseAddr(s) == Some(x)
    ensures exists p: string :: ParsePort(p) == Some(x.port) && s == Host(x) + [':'] + p
  {
    var (a, s1) := Cut(s, '.');
    CutExactly(s, '.');
    var (b, s2) := Cut(s1.value, '.');
    CutExactly(s1.value, '.');
    var (c, s3) := Cut(s2.value, '.');
    CutExactly(s2.value, '.');
    var (d, p) := Cut(s3.value, ':');
    CutExactly(s3.value, ':');
    OctetExactlyWhen(a, x.a);
    OctetExactlyWhen(b, x.b);
    OctetExactlyWhen(c, x.c);
    OctetExactlyWhen(d, x.d);
    Nest(a, b, c, d, p.value);
    assert ParsePort(p.value) == Some(x.port) && s == Host(x) + [':'] + p.value;
  }

  lemma Nest(a: string, b: string, c: string, d: string, p: string)
    ensures a + ['.'] + (b + ['.'] + (c + ['.'] + d)) + [':'] + p == a + ['.'] + (b + ['.'] + (c + ['.'] + (d + [':'] + p)))
  {
  }

  lemma PrintedIsAddr(s: string, x: SocketAddr, p: string)
    requires ParsePort(p) == Some(x.port) && s == Host(x) + [':'] + p
    ensures ParseAddr(s) == Some(x)
  {
    var (a, b, c, d) := (Decimal(x.a), Decimal(x.b), Decimal(x.c), Decimal(x.d));
    Nest(a, b, c, d, p);
    CutAt(a, '.', b + ['.'] + (c + ['.'] + (d + [':'] + p)));
    CutAt(b, '.', c + ['.'] + (d + [':'] + p));
    CutAt(c, '.', d + [':'] + p);
    CutAt(d, ':', p);
    OctetRoundTrip(x.a);
    OctetRoundTrip(x.b);
    OctetRoundTrip(x.c);
    OctetRoundTrip(x.d);
  }
}
