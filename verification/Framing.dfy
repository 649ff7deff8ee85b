/// Length-prefixed framing of messages on a byte stream. The message codec is
/// a pair of functions; it is only ever assumed to invert.
module Framing {
  import opened Protocol

  const MAX_FRAME_LEN: nat := 1024 * 1024
  const U32: nat := 0x1_0000_0000

  type Encoder = Message -> seq<Byte>
  type Decoder = seq<Byte> -> Option<Message>

  datatype FramingError = FrameTooLarge(len: nat) | ReadFailed | DecodeFailed

  datatype Result = Ok(msg: Message) | Err(error: FramingError)

  ghost predicate Inverts(enc: Encoder, dec: Decoder) {
    forall m :: dec(enc(m)) == Some(m)
  }

  function ToLe(n: nat): (b: seq<Byte>)
    requires n < U32
    ensures |b| == 4
  {
    [n % 0x100, n / 0x100 % 0x100, n / 0x1_0000 % 0x100, n / 0x100_0000]
  }

  function FromLe(b: seq<Byte>): nat
    requires |b| == 4
  {
    var (b0: int, b1: int, b2: int, b3: int) := (b[0], b[1], b[2], b[3]);
    b0 + b1 * 0x100 + b2 * 0x1_0000 + b3 * 0x100_0000
  }

  lemma LeRoundTrip(n: nat)
    requires n < U32
    ensures FromLe(ToLe(n)) == n
  {
    assert n == n / 0x100 * 0x100 + n % 0x100;
    assert n / 0x100 == n / 0x1_0000 * 0x100 + n / 0x100 % 0x100;
    assert n / 0x1_0000 == n / 0x100_0000 * 0x100 + n / 0x1_0000 % 0x100;
  }

  function Frame(bytes: seq<Byte>): seq<Byte>
    requires |bytes| < U32
  {
    ToLe(|bytes|) + bytes
  }

  /** One message off the front of a finished stream, and what is left of it. */
  function ReadOne(data: seq<Byte>, dec: Decoder): (Result, seq<Byte>) {
    if |data| < 4 then (Err(ReadFailed), [])
    else
      var len := FromLe(data[..4]);
      if len > MAX_FRAME_LEN then (Err(FrameTooLarge(len)), data[4..])
      else if |data| < 4 + len then (Err(ReadFailed), [])
      else
        var m := dec(data[4..4 + len]);
        (if m.Some? then Ok(m.value) else Err(DecodeFailed), data[4 + len..])
  }

  class SendStream {
    var written: seq<Byte>

    /** Writes as many of the bytes as the stream takes: all of them, or those
        before it fails. */
    method WriteBytes(bytes: seq<Byte>, taken: nat) returns (ok: bool)
      modifies this
      ensures ok <==> |bytes| <= taken
      ensures written == old(written) + if ok then bytes else bytes[..taken]
    {
      ok := |bytes| <= taken;
      written := written + if ok then bytes else bytes[..taken];
    }

    /** A stream that takes `taken` more bytes gets the whole frame, or that
        much of it and the error. */
    method WriteMessage(m: Message, enc: Encoder, taken: nat) returns (ok: bool)
      requires |enc(m)| < U32
      modifies this
      ensures ok <==> |Frame(enc(m))| <= taken
      ensures written == old(written) + if ok then Frame(enc(m)) else Frame(enc(m))[..taken]
    {
      var bytes := enc(m);
      ok := WriteBytes(ToLe(|bytes|), taken);
      if !ok {
        assert Frame(bytes)[..taken] == ToLe(|bytes|)[..taken];
        return;
      }
      ok := WriteBytes(bytes, taken - 4);
      assert !ok ==> Frame(bytes)[..taken] == ToLe(|bytes|) + bytes[..taken - 4];
    }
  }

  class RecvStream {
    var unread: seq<Byte>

    /** Fills a buffer of `n` bytes, or fails once the stream ends early. */
    method ReadExact(n: nat) returns (buf: Option<seq<Byte>>)
      modifies this
      ensures |old(unread)| >= n ==> buf == Some(old(unread)[..n]) && unread == old(unread)[n..]
      ensures |old(unread)| < n ==> buf == None && unread == []
    {
      if |unread| < n {
        unread := [];
        return None;
      }
      buf := Some(unread[..n]);
      unread := unread[n..];
    }

    method ReadMessage(dec: Decoder) returns (r: Result)
      modifies this
      ensures (r, unread) == ReadOne(old(unread), dec)
    {
      var header := ReadExact(4);
      if header.None? {
        return Err(ReadFailed);
      }
      var len := FromLe(header.value);
      if len > MAX_FRAME_LEN {
        return Err(FrameTooLarge(len));
      }
      var body := ReadExact(len);
      if body.None? {
        return Err(ReadFailed);
      }
      var m := dec(body.value);
      assert old(unread)[4..][..len] == old(unread)[4..4 + len];
      return if m.Some? then Ok(m.value) else Err(DecodeFailed);
    }
  }

  function Frames(ms: seq<Message>, enc: Encoder): seq<Byte>
    requires forall i :: 0 <= i < |ms| ==> |enc(ms[i])| < U32
  {
    if ms == [] then [] else Frame(enc(ms[0])) + Frames(ms[1..], enc)
  }

  /** Reading on until the stream is used up or a read fails: the messages,
      and the failure if there was one. */
  function ReadAll(data: seq<Byte>, dec: Decoder): (seq<Message>, Option<FramingError>)
    decreases |data|
  {
    if data == [] then ([], None)
    else
      var (r, rest) := ReadOne(data, dec);
      if r.Err? then ([], Some(r.error))
      else
        var (ms, e) := ReadAll(rest, dec);
        ([r.msg] + ms, e)
  }

  /** Reading a frame off the front of anything gives its message back and
      leaves exactly the rest, unless the frame is over the cap. */
  lemma ReadsFrame(m: Message, rest: seq<Byte>, enc: Encoder, dec: Decoder)
    requires Inverts(enc, dec) && |enc(m)| < U32
    ensures |enc(m)| <= MAX_FRAME_LEN ==> ReadOne(Frame(enc(m)) + rest, dec) == (Ok(m), rest)
    ensures |enc(m)| > MAX_FRAME_LEN ==> ReadOne(Frame(enc(m)) + rest, dec).0 == Err(FrameTooLarge(|enc(m)|))
  {
    var bytes := enc(m);
    var data := Frame(bytes) + rest;
    LeRoundTrip(|bytes|);
    assert data[..4] == ToLe(|bytes|);
    assert data[4..4 + |bytes|] == bytes && data[4 + |bytes|..] == rest;
  }

  /** A frame cut short by a failed write is never read as a message, nor as a
      frame over the cap: the reader runs out of bytes. */
  lemma TornFrameIsRefused(m: Message, taken: nat, enc: Encoder, dec: Decoder)
    requires |enc(m)| <= MAX_FRAME_LEN && taken < |Frame(enc(m))|
    ensures ReadOne(Frame(enc(m))[..taken], dec) == (Err(ReadFailed), [])
  {
    var bytes := enc(m);
    LeRoundTrip(|bytes|);
    if taken >= 4 {
      assert Frame(bytes)[..taken][..4] == ToLe(|bytes|);
    }
  }

  /** A list of messages survives the stream, every byte used, exactly when
      each encoding is within the frame cap. */
  lemma {:induction false} FramesSurviveExactlyWhen(ms: seq<Message>, enc: Encoder, dec: Decoder)
    requires Inverts(enc, dec)
    requires forall i :: 0 <= i < |ms| ==> |enc(ms[i])| < U32
    ensures ReadAll(Frames(ms, enc), dec) == (ms, None) <==> forall i :: 0 <= i < |ms| ==> |enc(ms[i])| <= MAX_FRAME_LEN
    decreases |ms|
  {
    if ms != [] {
      FramesSurviveExactlyWhen(ms[1..], enc, dec);
      ReadsFrame(ms[0], Frames(ms[1..], enc), enc, dec);
      assert ms == [ms[0]] + ms[1..];
      assert forall i :: 0 <= i < |ms[1..]| ==> ms[1..][i] == ms[i + 1];
      if forall i :: 0 <= i < |ms[1..]| ==> |enc(ms[1..][i])| <= MAX_FRAME_LEN {
        assert forall i :: 1 <= i < |ms| ==> ms[i] == ms[1..][i - 1];
      }
      var (later, e) := ReadAll(Frames(ms[1..], enc), dec);
      assert |enc(ms[0])| <= MAX_FRAME_LEN ==> ReadAll(Frames(ms, enc), dec) == ([ms[0]] + later, e);
      assert ([ms[0]] + later)[1..] == later;
    }
  }

  /** Every clipboard message fits a frame, if the codec adds at most 64 bytes
      to a clip's own bytes. */
  lemma ClipsFitFrames(mime: string, content: seq<Byte>, digest: seq<Byte> -> Hash, enc: Encoder)
    requires NewClip(mime, content, digest).Made?
    requires forall c: Clip :: |enc(Clipboard(c))| <= 64 + |c.mime| + |c.content|
    ensures |enc(Clipboard(NewClip(mime, content, digest).clip))| <= MAX_FRAME_LEN
  {
    assert |MIME_TEXT_PLAIN| == 10;
  }
}
