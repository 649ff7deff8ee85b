/// The pairing URI: its fields, the form-urlencoded query that carries them
/// (WHATWG URL Standard, sections 5.1 and 5.2), and the parser.
module Qr {
  import opened Protocol
  import opened Hex

  type U16 = n: int | 0 <= n < 0x1_0000

  datatype SocketAddr = V4(a: Byte, b: Byte, c: Byte, d: Byte, port: U16)

  datatype QrPayload = QrPayload(version: U16, deviceId: DeviceId, name: Text, addrs: seq<SocketAddr>, token: TokenBytes)

  datatype QrParseError = WrongScheme | MissingField(field: string) | MalformedField(field: string)

  datatype Result<+T> = Ok(value: T) | Err(error: QrParseError)

  // ---- Form-urlencoding of one string ----

  predicate Unreserved(c: char) {
    c in {'*', '-', '.', '_'} || '0' <= c <= '9' || 'A' <= c <= 'Z' || 'a' <= c <= 'z'
  }

  function UpperDigit(n: int): ByteChar
    requires 0 <= n < 16
  {
    (if n < 10 then '0' as int + n else 'A' as int + n - 10) as char
  }

  function EncodeByte(c: ByteChar): Text {
    if Unreserved(c) then [c]
    else if c == ' ' then ['+']
    else ['%', UpperDigit(c as int / 16), UpperDigit(c as int % 16)]
  }

  function Encode(s: Text): Text {
    if s == [] then [] else EncodeByte(s[0]) + Encode(s[1..])
  }

  function Decode(s: Text): Text {
    if s == [] then []
    else if s[0] == '+' then [' '] + Decode(s[1..])
    else if s[0] == '%' && |s| >= 3 && DigitValue(s[1]).Some? && DigitValue(s[2]).Some? then
      [(DigitValue(s[1]).value * 16 + DigitValue(s[2]).value) as char] + Decode(s[3..])
    else [s[0]] + Decode(s[1..])
  }

  predicate NoDelimiter(s: string) {
    forall i :: 0 <= i < |s| ==> s[i] != '&' && s[i] != '=' && s[i] != '#' && s[i] != '?'
  }

  lemma {:induction false} EncodeHasNoDelimiter(s: Text)
    ensures NoDelimiter(Encode(s))
  {
    if s != [] {
      EncodeHasNoDelimiter(s[1..]);
    }
  }

  lemma DecodeByte(c: ByteChar, rest: Text)
    ensures Decode(EncodeByte(c) + rest) == [c] + Decode(rest)
  {
    var e := EncodeByte(c);
    var s := e + rest;
    if Unreserved(c) || c == ' ' {
      assert s[1..] == rest;
    } else {
      var n := c as int;
      assert s[3..] == rest;
      assert DigitValue(UpperDigit(n / 16)) == Some(n / 16) && DigitValue(UpperDigit(n % 16)) == Some(n % 16);
      assert n / 16 * 16 + n % 16 == n;
    }
  }

  lemma {:induction false} DecodeEncode(s: Text)
    ensures Decode(Encode(s)) == s
  {
    if s != [] {
      DecodeByte(s[0], Encode(s[1..]));
      DecodeEncode(s[1..]);
    }
  }

  // ---- The query: pairs joined by & and = ----

  type Field = (Text, Text)

  function Pair(f: Field): Text {
    Encode(f.0) + ['='] + Encode(f.1)
  }

  /** `append_pair`: one more field on a query under construction. */
  function Appended(query: Text, f: Field): Text {
    query + (if query == [] then [] else ['&']) + Pair(f)
  }

  function Serialize(fields: seq<Field>): Text {
    if fields == [] then [] else Appended(Serialize(fields[..|fields| - 1]), fields[|fields| - 1])
  }

  function IndexOf(s: string, c: char): (i: nat)
    ensures i <= |s|
    ensures forall k :: 0 <= k < i ==> s[k] != c
    ensures i < |s| ==> s[i] == c
  {
    if s == "" then 0 else if s[0] == c then 0 else 1 + IndexOf(s[1..], c)
  }

  /** One `name=value` piece; without an equals sign the value is empty. */
  function ParsePair(piece: Text): Field {
    var i := IndexOf(piece, '=');
    (Decode(piece[..i]), if i < |piece| then Decode(piece[i + 1..]) else [])
  }

  function Parse(query: Text): seq<Field>
    decreases |query|
  {
    if query == [] then []
    else
      var i := IndexOf(query, '&');
      var rest := if i < |query| then Parse(query[i + 1..]) else [];
      if i == 0 then rest else [ParsePair(query[..i])] + rest
  }

  lemma IndexAt(a: string, c: char, b: string)
    requires forall i :: 0 <= i < |a| ==> a[i] != c
    ensures IndexOf(a + [c] + b, c) == |a| && IndexOf(a, c) == |a|
  {
    var s := a + [c] + b;
    assert s[|a|] == c;
    assert forall k :: 0 <= k < |a| ==> s[k] == a[k];
  }

  lemma ParsePairOf(f: Field)
    ensures ParsePair(Pair(f)) == f
    ensures IndexOf(Pair(f), '&') == |Pair(f)| && Pair(f) != []
  {
    EncodeHasNoDelimiter(f.0);
    EncodeHasNoDelimiter(f.1);
    var k, v := Encode(f.0), Encode(f.1);
    IndexAt(k, '=', v);
    assert Pair(f) == k + ['='] + v;
    assert Pair(f)[..|k|] == k && Pair(f)[|k| + 1..] == v;
    DecodeEncode(f.0);
    DecodeEncode(f.1);
    assert forall i :: 0 <= i < |Pair(f)| ==> Pair(f)[i] != '&';
  }

  lemma SerializeBack(fields: seq<Field>)
    requires fields != []
    ensures var init, last := fields[..|fields| - 1], fields[|fields| - 1];
            Serialize(fields) == (if init == [] then Pair(last) else Serialize(init) + ['&'] + Pair(last))
    ensures Serialize(fields) != []
  {
    var init, last := fields[..|fields| - 1], fields[|fields| - 1];
    ParsePairOf(last);
    if init == [] {
      var empty: Text := [];
      assert empty + empty + Pair(last) == Pair(last);
    } else {
      ParsePairOf(init[|init| - 1]);
      assert Serialize(init) != [];
    }
  }

  lemma Regroup(a: Text, b: Text, c: Text)
    ensures a + ['&'] + b + ['&'] + c == a + ['&'] + (b + ['&'] + c)
  {
  }

  /** The query seen from its first field. */
  lemma {:induction false} SerializeFront(f: Field, fields: seq<Field>)
    ensures Serialize([f] + fields) == if fields == [] then Pair(f) else Pair(f) + ['&'] + Serialize(fields)
    decreases |fields|
  {
    var all := [f] + fields;
    SerializeBack(all);
    if fields == [] {
      assert all[..0] == [];
    } else {
      var init, last := fields[..|fields| - 1], fields[|fields| - 1];
      assert all[..|all| - 1] == [f] + init;
      SerializeFront(f, init);
      SerializeBack(fields);
      Regroup(Pair(f), Serialize(init), Pair(last));
    }
  }

  lemma ParseFirst(piece: Text, rest: Text)
    requires piece != [] && forall i :: 0 <= i < |piece| ==> piece[i] != '&'
    ensures Parse(piece) == [ParsePair(piece)]
    ensures Parse(piece + ['&'] + rest) == [ParsePair(piece)] + Parse(rest)
  {
    IndexAt(piece, '&', rest);
    assert piece[..|piece|] == piece;
    var q := piece + ['&'] + rest;
    assert q[..|piece|] == piece && q[|piece| + 1..] == rest;
  }

  lemma {:induction false} ParseSerialize(fields: seq<Field>)
    ensures Parse(Serialize(fields)) == fields
    decreases |fields|
  {
    if fields != [] {
      var f, rest := fields[0], fields[1..];
      assert fields == [f] + rest;
      SerializeFront(f, rest);
      ParseSerialize(rest);
      ParsePairOf(f);
      ParseFirst(Pair(f), Serialize(rest));
    }
  }

  // ---- Numbers and addresses ----

  function Decimal(n: nat): (s: Text)
    ensures s != [] && forall i :: 0 <= i < |s| ==> '0' <= s[i] <= '9'
  {
    (if n < 10 then [] else Decimal(n / 10)) + [('0' as int + n % 10) as char]
  }

  /** Digits only; `None` for any other character. */
  function Digits(s: string): Option<nat> {
    if s == "" then Some(0)
    else
      var c := s[|s| - 1];
      var rest := Digits(s[..|s| - 1]);
      if '0' <= c <= '9' && rest.Some? then Some(rest.value * 10 + (c as int - '0' as int)) else None
  }

  /** A non-empty run of digits worth at most `max`. */
  function Bounded(s: string, max: nat): Option<nat> {
    var n := Digits(s);
    if s != "" && n.Some? && n.value <= max then n else None
  }

  /** `str::parse::<u16>`: one plus sign is allowed in front. */
  function ParseU16(s: string): (r: Option<U16>) {
    var digits := if s != "" && s[0] == '+' then s[1..] else s;
    var n := Bounded(digits, 0xFFFF);
    if n.Some? then Some(n.value) else None
  }

  /** An octet: one to three digits, no leading zero. */
  function ParseOctet(s: string): (r: Option<Byte>) {
    if |s| > 3 || (|s| > 1 && s[0] == '0') then None
    else
      var n := Bounded(s, 255);
      if n.Some? then Some(n.value) else None
  }

  function ParsePort(s: string): (r: Option<U16>) {
    var n := Bounded(s, 0xFFFF);
    if n.Some? then Some(n.value) else None
  }

  function Show(x: SocketAddr): Text {
    Decimal(x.a) + ['.'] + (Decimal(x.b) + ['.'] + (Decimal(x.c) + ['.'] + (Decimal(x.d) + [':'] + Decimal(x.port))))
  }

  /** The text before the first `c` and, if there is one, the text after it. */
  function Cut(s: string, c: char): (string, Option<string>) {
    var i := IndexOf(s, c);
    (s[..i], if i < |s| then Some(s[i + 1..]) else None)
  }

  function ParseAddr(s: string): Option<SocketAddr> {
    var (a, s1) := Cut(s, '.');
    if s1.None? then None else
    var (b, s2) := Cut(s1.value, '.');
    if s2.None? then None else
    var (c, s3) := Cut(s2.value, '.');
    if s3.None? then None else
    var (d, p) := Cut(s3.value, ':');
    if p.None? then None else
    var (oa, ob, oc, od, port) := (ParseOctet(a), ParseOctet(b), ParseOctet(c), ParseOctet(d), ParsePort(p.value));
    if oa.Some? && ob.Some? && oc.Some? && od.Some? && port.Some?
    then Some(V4(oa.value, ob.value, oc.value, od.value, port.value)) else None
  }

  lemma {:induction false} DigitsOfDecimal(n: nat)
    ensures Digits(Decimal(n)) == Some(n)
  {
    var s := Decimal(n);
    assert s[|s| - 1] == ('0' as int + n % 10) as char;
    if n < 10 {
      assert s[..|s| - 1] == "";
    } else {
      assert s[..|s| - 1] == Decimal(n / 10);
      DigitsOfDecimal(n / 10);
    }
  }

  lemma U16RoundTrip(n: U16)
    ensures ParseU16(Decimal(n)) == Some(n) && ParsePort(Decimal(n)) == Some(n)
  {
    DigitsOfDecimal(n);
  }

  lemma {:induction false} NoLeadingZero(n: nat)
    ensures n > 0 ==> Decimal(n)[0] != '0'
    ensures n < 10 ==> |Decimal(n)| == 1
  {
    if n >= 10 {
      NoLeadingZero(n / 10);
      assert Decimal(n)[0] == Decimal(n / 10)[0];
    }
  }

  lemma OctetLength(b: Byte)
    ensures |Decimal(b)| <= 3
  {
    NoLeadingZero(b);
    NoLeadingZero(b / 10);
    NoLeadingZero(b / 10 / 10);
    assert b >= 10 ==> |Decimal(b)| == |Decimal(b / 10)| + 1;
    assert b >= 100 ==> |Decimal(b / 10)| == |Decimal(b / 10 / 10)| + 1;
  }

  lemma OctetRoundTrip(b: Byte)
    ensures ParseOctet(Decimal(b)) == Some(b)
  {
    DigitsOfDecimal(b);
    NoLeadingZero(b);
    OctetLength(b);
  }

  lemma CutAt(head: string, c: char, tail: string)
    requires (forall i :: 0 <= i < |head| ==> '0' <= head[i] <= '9') && !('0' <= c <= '9')
    ensures Cut(head + [c] + tail, c) == (head, Some(tail))
  {
    IndexAt(head, c, tail);
    var s := head + [c] + tail;
    assert s[..|head|] == head && s[|head| + 1..] == tail;
  }

  lemma AddrRoundTrip(x: SocketAddr)
    ensures ParseAddr(Show(x)) == Some(x)
  {
    var t4 := Decimal(x.d) + [':'] + Decimal(x.port);
    var t3 := Decimal(x.c) + ['.'] + t4;
    var t2 := Decimal(x.b) + ['.'] + t3;
    CutAt(Decimal(x.a), '.', t2);
    CutAt(Decimal(x.b), '.', t3);
    CutAt(Decimal(x.c), '.', t4);
    CutAt(Decimal(x.d), ':', Decimal(x.port));
    OctetRoundTrip(x.a);
    OctetRoundTrip(x.b);
    OctetRoundTrip(x.c);
    OctetRoundTrip(x.d);
    U16RoundTrip(x.port);
  }

  // ---- The URI ----

  const SCHEME: Text := "penguinsync"
  const HOST: Text := "//pair"

  const KEY_VERSION: Text := "v"
  const KEY_ID: Text := "id"
  const KEY_NAME: Text := "name"
  const KEY_ADDR: Text := "addr"
  const KEY_TOKEN: Text := "token"

  function Uri(query: Text): Text {
    SCHEME + [':'] + (HOST + ['?'] + query)
  }

  function AddrFields(addrs: seq<SocketAddr>): (r: seq<Field>)
    ensures |r| == |addrs|
  {
    if addrs == [] then [] else AddrFields(addrs[..|addrs| - 1]) + [(KEY_ADDR, Show(addrs[|addrs| - 1]))]
  }

  function Head(p: QrPayload): seq<Field> {
    [(KEY_VERSION, Decimal(p.version)), (KEY_ID, ToHex(p.deviceId)), (KEY_NAME, p.name)]
  }

  function Fields(p: QrPayload): seq<Field> {
    Head(p) + AddrFields(p.addrs) + [(KEY_TOKEN, ToHex(p.token))]
  }

  lemma SerializeSnoc(fields: seq<Field>, f: Field)
    ensures Serialize(fields + [f]) == Appended(Serialize(fields), f)
  {
    assert (fields + [f])[..|fields|] == fields;
  }

  lemma ThreeSerialized(a: Field, b: Field, c: Field)
    ensures Serialize([a, b, c]) == Appended(Appended(Appended([], a), b), c)
  {
    var none: seq<Field> := [];
    assert none + [a] == [a] && [a] + [b] == [a, b] && [a, b] + [c] == [a, b, c];
    SerializeSnoc(none, a);
    SerializeSnoc([a], b);
    SerializeSnoc([a, b], c);
  }

  lemma AddrSerialized(head: seq<Field>, addrs: seq<SocketAddr>, i: nat)
    requires i < |addrs|
    ensures Serialize(head + AddrFields(addrs[..i + 1]))
         == Appended(Serialize(head + AddrFields(addrs[..i])), (KEY_ADDR, Show(addrs[i])))
  {
    var f: Field := (KEY_ADDR, Show(addrs[i]));
    assert addrs[..i + 1][..i] == addrs[..i];
    assert head + AddrFields(addrs[..i + 1]) == head + AddrFields(addrs[..i]) + [f];
    SerializeSnoc(head + AddrFields(addrs[..i]), f);
  }

  lemma TokenSerialized(p: QrPayload)
    ensures Serialize(Fields(p))
         == Appended(Serialize(Head(p) + AddrFields(p.addrs[..|p.addrs|])), (KEY_TOKEN, ToHex(p.token)))
  {
    assert p.addrs[..|p.addrs|] == p.addrs;
    SerializeSnoc(Head(p) + AddrFields(p.addrs), (KEY_TOKEN, ToHex(p.token)));
  }

  method EncodeHead(p: QrPayload) returns (q: Text)
    ensures q == Serialize(Head(p) + AddrFields(p.addrs[..0]))
  {
    var version: Field := (KEY_VERSION, Decimal(p.version));
    var id: Field := (KEY_ID, ToHex(p.deviceId));
    var name: Field := (KEY_NAME, p.name);
    q := Appended([], version);
    q := Appended(q, id);
    q := Appended(q, name);
    ThreeSerialized(version, id, name);
    assert Head(p) + AddrFields(p.addrs[..0]) == [version, id, name];
  }

  method EncodeQrUri(p: QrPayload) returns (uri: Text)
    ensures uri == Uri(Serialize(Fields(p)))
  {
    var q := EncodeHead(p);
    for i := 0 to |p.addrs|
      invariant q == Serialize(Head(p) + AddrFields(p.addrs[..i]))
    {
      AddrSerialized(Head(p), p.addrs, i);
      q := Appended(q, (KEY_ADDR, Show(p.addrs[i])));
    }
    TokenSerialized(p);
    q := Appended(q, (KEY_TOKEN, ToHex(p.token)));
    uri := Uri(q);
  }

  /** Scheme and query of a URI: the text before the first colon, and the text
      between the first question mark and the fragment. */
  function SplitUri(uri: Text): Option<(Text, Text)> {
    var colon := IndexOf(uri, ':');
    if colon == |uri| then None
    else
      var rest := uri[colon + 1..];
      var bare := rest[..IndexOf(rest, '#')];
      var mark := IndexOf(bare, '?');
      Some((uri[..colon], if mark < |bare| then bare[mark + 1..] else []))
  }

  /** The parser's five locals. */
  datatype Seen = Seen(version: Option<U16>, deviceId: Option<DeviceId>, name: Option<Text>,
                       addrs: seq<SocketAddr>, token: Option<TokenBytes>)

  const UNSEEN := Seen(None, None, None, [], None)

  /** One query pair; a later pair of the same name replaces an earlier one,
      addresses accumulate, unknown names are skipped. */
  function Take(s: Seen, f: Field): Result<Seen> {
    if f.0 == KEY_VERSION then
      var v := ParseU16(f.1);
      if v.Some? then Ok(s.(version := v)) else Err(MalformedField("v"))
    else if f.0 == KEY_ID then
      var id := ParsedAs(f.1, 32);
      if id.Some? then Ok(s.(deviceId := Some(id.value))) else Err(MalformedField("id"))
    else if f.0 == KEY_NAME then Ok(s.(name := Some(f.1)))
    else if f.0 == KEY_ADDR then
      var a := ParseAddr(f.1);
      if a.Some? then Ok(s.(addrs := s.addrs + [a.value])) else Err(MalformedField("addr"))
    else if f.0 == KEY_TOKEN then
      var t := ParsedAs(f.1, TOKEN_LEN);
      if t.Some? then Ok(s.(token := Some(t.value))) else Err(MalformedField("token"))
    else Ok(s)
  }

  function TakeAll(s: Seen, fields: seq<Field>): Result<Seen>
    decreases |fields|
  {
    if fields == [] then Ok(s)
    else
      var next := Take(s, fields[0]);
      if next.Err? then next else TakeAll(next.value, fields[1..])
  }

  function Finish(s: Seen): Result<QrPayload> {
    if s.version.None? then Err(MissingField("v"))
    else if s.deviceId.None? then Err(MissingField("id"))
    else if s.name.None? then Err(MissingField("name"))
    else if s.token.None? then Err(MissingField("token"))
    else Ok(QrPayload(s.version.value, s.deviceId.value, s.name.value, s.addrs, s.token.value))
  }

  function Decoded(uri: Text): Result<QrPayload> {
    var parts := SplitUri(uri);
    if parts.None? || parts.value.0 != SCHEME then Err(WrongScheme)
    else
      var seen := TakeAll(UNSEEN, Parse(parts.value.1));
      if seen.Err? then Err(seen.error) else Finish(seen.value)
  }

  method DecodeQrUri(uri: Text) returns (r: Result<QrPayload>)
    ensures r == Decoded(uri)
  {
    var parts := SplitUri(uri);
    if parts.None? || parts.value.0 != SCHEME {
      return Err(WrongScheme);
    }
    var seen := UNSEEN;
    var fields := Parse(parts.value.1);
    for i := 0 to |fields|
      invariant TakeAll(UNSEEN, fields) == TakeAll(seen, fields[i..])
    {
      assert fields[i..][0] == fields[i] && fields[i..][1..] == fields[i + 1..];
      var f := fields[i];
      if f.0 == KEY_VERSION {
        var v := ParseU16(f.1);
        if v.None? { return Err(MalformedField("v")); }
        seen := seen.(version := v);
      } else if f.0 == KEY_ID {
        var id := FromHex(f.1);
        if id.None? { return Err(MalformedField("id")); }
        seen := seen.(deviceId := id);
      } else if f.0 == KEY_NAME {
        seen := seen.(name := Some(f.1));
      } else if f.0 == KEY_ADDR {
        var a := ParseAddr(f.1);
        if a.None? { return Err(MalformedField("addr")); }
        seen := seen.(addrs := seen.addrs + [a.value]);
      } else if f.0 == KEY_TOKEN {
        var t := HexDecodeToken(f.1);
        if t.None? { return Err(MalformedField("token")); }
        seen := seen.(token := t);
      }
    }
    r := Finish(seen);
  }

  lemma {:induction false} TakeAllAppend(s: Seen, a: seq<Field>, b: seq<Field>)
    requires TakeAll(s, a).Ok?
    ensures TakeAll(s, a + b) == TakeAll(TakeAll(s, a).value, b)
    decreases |a|
  {
    if a == [] {
      assert a + b == b;
    } else {
      assert (a + b)[1..] == a[1..] + b;
      TakeAllAppend(Take(s, a[0]).value, a[1..], b);
    }
  }

  lemma TakeAllOne(s: Seen, f: Field)
    ensures TakeAll(s, [f]) == Take(s, f)
  {
    var none: seq<Field> := [];
    assert [f][1..] == none;
  }

  lemma TakesOne(s: Seen, p: QrPayload)
    ensures Take(s, (KEY_VERSION, Decimal(p.version))) == Ok(s.(version := Some(p.version)))
    ensures Take(s, (KEY_ID, ToHex(p.deviceId))) == Ok(s.(deviceId := Some(p.deviceId)))
    ensures Take(s, (KEY_NAME, p.name)) == Ok(s.(name := Some(p.name)))
    ensures Take(s, (KEY_TOKEN, ToHex(p.token))) == Ok(s.(token := Some(p.token)))
  {
    U16RoundTrip(p.version);
    HexRoundTrip(p.deviceId);
    HexRoundTrip(p.token);
  }

  lemma TakesAddr(s: Seen, x: SocketAddr)
    ensures Take(s, (KEY_ADDR, Show(x))) == Ok(s.(addrs := s.addrs + [x]))
  {
    AddrRoundTrip(x);
  }

  lemma TakesOneMore(s: Seen, init: seq<SocketAddr>, last: SocketAddr)
    requires TakeAll(s, AddrFields(init)) == Ok(s.(addrs := init))
    ensures TakeAll(s, AddrFields(init + [last])) == Ok(s.(addrs := init + [last]))
  {
    var mid := s.(addrs := init);
    var f: Field := (KEY_ADDR, Show(last));
    TakeAllAppend(s, AddrFields(init), [f]);
    TakeAllOne(mid, f);
    TakesAddr(mid, last);
    assert (init + [last])[..|init|] == init;
    assert AddrFields(init + [last]) == AddrFields(init) + [f];
  }

  lemma {:induction false} TakesAddrs(s: Seen, addrs: seq<SocketAddr>)
    requires s.addrs == []
    ensures TakeAll(s, AddrFields(addrs)) == Ok(s.(addrs := addrs))
  {
    if addrs != [] {
      var init, last := addrs[..|addrs| - 1], addrs[|addrs| - 1];
      TakesAddrs(s, init);
      TakesOneMore(s, init, last);
      assert init + [last] == addrs;
    }
  }

  lemma TakesHead(p: QrPayload)
    ensures TakeAll(UNSEEN, Head(p)) == Ok(Seen(Some(p.version), Some(p.deviceId), Some(p.name), [], None))
  {
    var h: seq<Field> := Head(p);
    var s1 := UNSEEN.(version := Some(p.version));
    var s2 := s1.(deviceId := Some(p.deviceId));
    TakesOne(UNSEEN, p);
    TakeAllOne(UNSEEN, h[0]);
    TakesOne(s1, p);
    TakeAllOne(s1, h[1]);
    TakeAllAppend(UNSEEN, [h[0]], [h[1]]);
    TakesOne(s2, p);
    TakeAllOne(s2, h[2]);
    TakeAllAppend(UNSEEN, [h[0]] + [h[1]], [h[2]]);
    assert [h[0]] + [h[1]] + [h[2]] == h;
  }

  lemma TakesFields(p: QrPayload)
    ensures TakeAll(UNSEEN, Fields(p)) == Ok(Seen(Some(p.version), Some(p.deviceId), Some(p.name), p.addrs, Some(p.token)))
  {
    TakesHead(p);
    var s1 := Seen(Some(p.version), Some(p.deviceId), Some(p.name), [], None);
    TakesAddrs(s1, p.addrs);
    TakeAllAppend(UNSEEN, Head(p), AddrFields(p.addrs));
    var s2 := s1.(addrs := p.addrs);
    TakesOne(s2, p);
    var f: Field := (KEY_TOKEN, ToHex(p.token));
    TakeAllOne(s2, f);
    TakeAllAppend(UNSEEN, Head(p) + AddrFields(p.addrs), [f]);
  }

  lemma {:induction false} SerializeHasNoFragment(fields: seq<Field>)
    ensures forall i :: 0 <= i < |Serialize(fields)| ==> Serialize(fields)[i] != '#'
  {
    if fields != [] {
      SerializeHasNoFragment(fields[..|fields| - 1]);
      EncodeHasNoDelimiter(fields[|fields| - 1].0);
      EncodeHasNoDelimiter(fields[|fields| - 1].1);
    }
  }

  lemma UriConstants()
    ensures forall i :: 0 <= i < |SCHEME| ==> SCHEME[i] != ':'
    ensures forall i :: 0 <= i < |HOST| ==> HOST[i] != '?' && HOST[i] != '#'
  {
  }

  lemma SplitsRest(host: Text, query: Text)
    requires forall i :: 0 <= i < |host| ==> host[i] != '?' && host[i] != '#'
    requires forall i :: 0 <= i < |query| ==> query[i] != '#'
    ensures var rest := host + ['?'] + query;
            && rest[..IndexOf(rest, '#')] == rest
            && IndexOf(rest, '?') == |host| && rest[|host| + 1..] == query
  {
    var rest := host + ['?'] + query;
    assert forall i :: 0 <= i < |rest| ==> rest[i] != '#';
    IndexAt(host, '?', query);
  }

  lemma SplitsScheme(scheme: Text, rest: Text)
    requires forall i :: 0 <= i < |scheme| ==> scheme[i] != ':'
    ensures var uri := scheme + [':'] + rest;
            IndexOf(uri, ':') == |scheme| && uri[..|scheme|] == scheme && uri[|scheme| + 1..] == rest
  {
    IndexAt(scheme, ':', rest);
  }

  lemma SplitsUri(query: Text)
    requires forall i :: 0 <= i < |query| ==> query[i] != '#'
    ensures SplitUri(Uri(query)) == Some((SCHEME, query))
  {
    UriConstants();
    SplitsRest(HOST, query);
    SplitsScheme(SCHEME, HOST + ['?'] + query);
  }

  /** Scanning the code that was shown gives back every field: version, id,
      token, any name, and any list of addresses in order. */
  lemma QrRoundTrip(p: QrPayload)
    ensures Decoded(Uri(Serialize(Fields(p)))) == Ok(p)
  {
    SerializeHasNoFragment(Fields(p));
    SplitsUri(Serialize(Fields(p)));
    ParseSerialize(Fields(p));
    TakesFields(p);
  }

  /** Scanning the URI yields the payload. */
  predicate Shows(uri: Text, p: QrPayload) {
    Decoded(uri) == Ok(p)
  }

  method ShowQrUri(p: QrPayload) returns (uri: Text)
    ensures Shows(uri, p)
  {
    uri := EncodeQrUri(p);
    QrRoundTrip(p);
  }

  method ShowThenScan(p: QrPayload) returns (r: Result<QrPayload>)
    ensures r == Ok(p)
  {
    var uri := ShowQrUri(p);
    r := DecodeQrUri(uri);
  }
}
