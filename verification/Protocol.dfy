/// Shared vocabulary: time, identifiers and the wire messages.
module Protocol {

  datatype Option<+T> = None | Some(value: T)

  /** A reading of the monotonic clock, in nanoseconds. */
  type Instant = nat
  type Duration = nat

  const SECOND: Duration := 1_000_000_000
  const MILLISECOND: Duration := 1_000_000
  const PROTOCOL_VERSION: nat := 1
  const U32_MAX: nat := 0xFFFF_FFFF

  /** `Instant::duration_since`: saturates at zero. */
  function Since(now: Instant, earlier: Instant): Duration {
    if now >= earlier then now - earlier else 0
  }

  type Byte = b: int | 0 <= b < 256

  /** SHA-256 fingerprint of a certificate's public key. */
  type DeviceId = id: seq<Byte> | |id| == 32 witness seq(32, _ => 0)

  const TOKEN_LEN: nat := 16
  type TokenBytes = t: seq<Byte> | |t| == TOKEN_LEN witness seq(TOKEN_LEN, _ => 0)

  /** BLAKE3 digest of clipboard content; only compared for equality. */
  type Hash = h: seq<Byte> | |h| == 32 witness seq(32, _ => 0)

  /** A Rust string: its UTF-8 bytes, one per character. */
  type ByteChar = c: char | c as int < 256
  type Text = seq<ByteChar>

  datatype Capability = ClipboardCap | FilesCap | NotificationsCap

  datatype Clip = Clip(mime: string, content: seq<Byte>, hash: Hash)

  datatype Greeting = Greeting(version: nat, deviceId: DeviceId, name: Text,
                               capabilities: seq<Capability>, pairingToken: Option<TokenBytes>)

  datatype Message =
    | Handshake(greeting: Greeting)
    | Ping(nonce: nat)
    | Pong(nonce: nat)
    | Clipboard(clip: Clip)

  const MIME_TEXT_PLAIN: string := "text/plain"
  const MAX_CONTENT_LEN: nat := 100 * 1024

  datatype ClipError = UnsupportedMime(mime: string) | TooLarge(len: nat)

  datatype ClipResult = Made(clip: Clip) | Rejected(error: ClipError)

  /** `Clip::new`, the only way a clip is made; `digest` is BLAKE3. */
  function NewClip(mime: string, content: seq<Byte>, digest: seq<Byte> -> Hash): ClipResult {
    if mime != MIME_TEXT_PLAIN then Rejected(UnsupportedMime(mime))
    else if |content| > MAX_CONTENT_LEN then Rejected(TooLarge(|content|))
    else Made(Clip(mime, content, digest(content)))
  }
}
