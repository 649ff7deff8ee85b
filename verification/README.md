# PenguinSync in Dafny

A model of PenguinSync's protocol core, its network drivers and its daemon,
with proofs about whole runs. PenguinSync keeps a Linux desktop and Android
phones in touch: the phone dials, both ends run the same connection state
machine, the desktop daemon pairs devices by QR code and human confirmation,
and clipboard changes are broadcast to every connected device.

`dafny verify dfyconfig.toml` checks the project.

## How it is built

Code that updates state in place is a class or a loop here too:
`ConnectionMachine`, the session driver, the dialer loop, the daemon's `Shared`
object, `PairingToken`, `TrustStore`, `PersistedState`, the clipboard handlers,
the framed streams, the phone core and the terminal screen. Each method is
proved equal to a function on the value of that object (`View()`), and the
protocol properties are proved about those functions, over every sequence of
steps.

| file | contents |
|---|---|
| `Protocol.dfy` | time, identifiers, messages, clips |
| `Connection.dfy`, `Keepalive.dfy` | the connection machine; what it guarantees alone |
| `Session.dfy`, `Driver.dfy` | the driver (`drive`, `run_actions`, `drain`) and its event grammar; what ends a session, and how |
| `Link.dfy` | two drivers joined by two ordered streams with bounded delay |
| `Backoff.dfy`, `Reconnect.dfy` | the dialer and its event grammar |
| `Phone.dfy` | the phone core's session slot and the app's status fold |
| `Hex.dfy`, `Qr.dfy`, `Scan.dfy`, `Framing.dfy` | codecs; what the parsers make of any text |
| `Pairing.dfy`, `Devices.dfy`, `Daemon.dfy` | token, trust store, persisted list, daemon state and handlers |
| `DaemonRun.dfy` | sessions, orchestrator, D-Bus calls and clock interleaved |
| `Routing.dfy`, `Provenance.dfy`, `Ledger.dfy` | what every such run keeps; whom it lets in and whom it asks about |
| `Arrivals.dfy` | runs in which devices connect and are paired |
| `Overtaken.dfy`, `Genuine.dfy` | when the connected table is complete and when its entries are who they say, with runs where they are not |
| `ClipboardSync.dfy` | echo suppression and relay |
| `Screen.dfy` | the terminal's pairing screen against the daemon's token slot |

The models compose: `Link`, `Reconnect`, `Phone` and `DaemonRun` all run the
session driver of `Session`, which runs the machine of `Connection`, so "at
most one handshake per session" or "the session is ready" is derived, not
assumed.

## Main results

- **Timed link.** With delivery within D of writing, no run of two machines
  reports a keepalive timeout against a peer that still runs *if and only if*
  2D < 3 × interval at both ends. A ping in flight is always exactly one
  packet; clips arrive exactly once and in order; nothing delivered is ever
  dropped by the ignore arm; every measured round trip is at most 2D.
- **Detection.** A silent peer is reported by t0 + 4 × interval + 3 × tick gap.
- **Endings.** After any schedule, the next turn ends a session *if and only if*
  the stream, a frame, the connection, the version, the keepalive or a write
  fails, and that reason is the last event. The first greeting decides: our
  version introduces the peer, any other ends the session unready.
- **Grammars.** Every schedule of the driver yields `Closed`, or one
  `PeerHandshake`, then round trips and clips, then one `Closed`. Every run of
  the dialer never overlaps sessions, numbers and times its back-offs from the
  last connection, and offers the token once. It dials again *if and only if*
  its receiver listens and the session is over.
- **Daemon tables.** Over any interleaving: a connected device's handle belongs
  to a remote that introduced itself as that device, and its session, while it
  runs, is ready; nothing leaks; the D-Bus objects mirror the table and name
  the pinned devices; a restart from the persisted list never changes whom the
  daemon trusts *if and only if* the loaded list is plain: it spells no id with
  a capital or a plus sign.
- **Pin provenance.** Every trusted device was loaded at startup or earned its
  pin by a token issued, redeemed in time and only once by a peer claiming that
  id, and confirmed by a human while it was the one waiting.
- **Admission.** After any run a peer is let in *if and only if* the history
  trusts it or a token was issued within its lifetime and nobody pinned since.
  A greeting of an untrusted device makes the daemon ask *if and only if* it
  carries the last token, in time and unused; and any such device can be paired
  from any state at rest.
- **Connected table.** It holds every connected, paired device, with the handle
  of its own session, in every run without twins (two remotes named as one
  pinned device); a step opens the way to an incomplete table *if and only if*
  it makes twins. Every entry's connection authenticated as its device,
  throughout a run, *if and only if* no step of the run connects a device over
  a connection that authenticated as another.
- **Clipboard.** Broadcasts, plus a pending difference, number at most one more
  than copies, device clips and failed backend writes, however many
  notifications fire; and every connected device's last exchanged clip has the
  last seen hash.
- **QR code.** Parsing what was shown returns every field, for every name and
  any list of IPv4 addresses; and any other text is accepted *if and only if* its
  pairs are well formed and complete, the last of each name winning.

## Where the code and its comments part

- `crates/net/src/reconnect.rs:41-43` says the token is consumed by the first
  successful connection; the code takes it on the first attempt. After a failed
  one the first connection is offered nothing
  (`Reconnect.FailedAttemptLosesToken`; exact condition in
  `Reconnect.FirstConnectionGetsTokenExactlyWhen`).
- `crates/daemon/src/shared.rs:67-70` says the table holds every currently
  connected, paired device. When a device is connected twice, losing either
  connection takes its entry away (`Overtaken.ReconnectedDeviceIsForgotten`;
  exact condition in `Overtaken.BreaksExactlyWhen`).
- `crates/protocol/src/connection.rs:47-52` asks the caller to compare the id
  in a greeting with the identity the connection authenticated with. Nothing in
  the daemon does, so during a pairing window a greeting alone makes a pinned
  device's entry (`Genuine.GreetingAloneConnects`; exact condition in
  `Genuine.GenuineExactlyWhen`).
- `crates/cli/src/tui.rs:131-137` says a refresh only discards a token the
  daemon would have rejected anyway. That fails after a `p` press whose call
  reaches the daemon but shows no new code, because the old code stays on
  screen (`Screen.RefreshCanReplaceLiveToken`; exact conditions in
  `Screen.RefreshIsSafeExactlyWhen` and `Screen.OnlyOrphansThreaten`).
- `crates/daemon/src/state.rs:62-65` removes a device by its lowercase
  rendering only, while `from_hex` also reads capitals and plus signs, so an
  entry spelt otherwise outlives `remove` (`Devices.RemoveForgetsExactlyWhen`)
  and the device is trusted again after a restart
  (`Routing.RestartsSameExactlyWhen`).

## Assumptions

- A remote address names one live connection at a time, and a new connection
  from it is announced after the old one's `Closed`.
- Each orchestrator handler, each D-Bus call, each iteration of the clipboard
  watch loop and each received clip is one step; the pairing handler is two,
  split where it waits for the human, and D-Bus calls run in between. Finer
  interleavings (an unpair between the pin and the list update of another
  pairing, say) are not modelled.
- On the link, a packet is delivered within D of being written for as long as
  its receiver runs, also when its sender has closed since; runs in which a
  close loses packets still under way are not considered.
- The clock is monotonic and counted in nanoseconds. Random nonces, tokens and
  digests are arbitrary values; no result needs them distinct.

## Model

| member | source | states |
|---|---|---|
| Connection.ConnectionMachine.constructor | crates/protocol/src/connection.rs:106-120 | a new machine awaits the peer's handshake with no ping outstanding |
| Connection.ConnectionMachine.Handle | crates/protocol/src/connection.rs:122-141 | every event gives exactly the specified machine and actions, clipboard gate included |
| Connection.ConnectionMachine.OnReceived | crates/protocol/src/connection.rs:143-185 | handshake, ping, pong, clip and the ignore arm, per phase |
| Connection.ConnectionMachine.OnTick | crates/protocol/src/connection.rs:187-219 | timeout, baseline, ping and idle ticks |
| Connection.IgnoredExactlyWhen | crates/protocol/src/connection.rs:163-184 | a message leaves the machine and the wire alone exactly in the ignore arm or as an unmatched pong |
| Keepalive.SilenceMeetsDeadline | crates/protocol/src/connection.rs:187-218 | from any ready state, a tick sequence without a matching pong times out by the state's deadline |
| Keepalive.BoundedDetection | crates/protocol/src/connection.rs:187-218 | silence after t0 is reported by t0 + 4 intervals + 3 tick gaps |
| Keepalive.PingRate | crates/protocol/src/connection.rs:203-218 | over ticks spanning L at most 1 + L / interval pings are sent |
| Session.RunActions | crates/net/src/session.rs:281-329 | the actions are performed in order up to the first one that ends the session |
| Session.Drive | crates/net/src/session.rs:216-277 | the task writes and reports exactly what its schedule of selected branches demands |
| Session.Serviced | crates/net/src/session.rs:237-275 | one selected branch: read, tick, command, loss |
| Session.Drain | crates/net/src/session.rs:201-213 | events pass on up to the first `Closed`, whose reason is returned; none only if there is none |
| Session.PerformOne | crates/protocol/src/connection.rs:122-219 | no event of the machine asks for more than one action |
| Session.TurnFollowsGrammar | crates/net/src/session.rs:236-276 | a turn reports at most one event, one the grammar allows in the machine's phase |
| Session.GrammarMeansComplete | crates/net/src/session.rs:27-45 | the grammar accepts exactly the sequences with one final `Closed` and a `PeerHandshake` exactly first |
| Session.DriverObeysGrammar | crates/net/src/session.rs:216-329 | whatever the schedule, an exited driver has reported a complete session, a running one can still complete by closing |
| Session.DriveThenDrain | crates/net/src/session.rs:198-277 | draining an exited driver always returns the reason of its last event |
| Driver.EndsExactlyWhen | crates/net/src/session.rs:236-329 | after any schedule the next turn ends the session exactly when it has a reason, which is then the last event; what makes it write |
| Driver.EndIsFinal | crates/net/src/session.rs:236-277 | once ended, the rest of a schedule changes nothing |
| Driver.CutEndsSession | crates/net/src/session.rs:245-275 | a failed read, bad frame or lost connection ends the session with its own reason and detail |
| Driver.WriteFailureEndsSession | crates/net/src/session.rs:281-300 | a failed write of a pong, clip or ping ends the session as a framing error |
| Driver.GreetsFirst | crates/net/src/session.rs:216-227 | the greeting is written first, or its failure ends the session |
| Driver.LiveMeansUncut | crates/net/src/session.rs:236-277 | a running driver has met no such failure |
| Driver.QuietUntilGreeted | crates/protocol/src/connection.rs:133-184 | until the peer greets, only our greeting is written and nothing reported |
| Driver.VersionDecides | crates/protocol/src/connection.rs:144-159 | the peer is introduced exactly when its first greeting carries our version; otherwise the session ends with both versions and is never ready |
| Driver.ReadyAnswers | crates/protocol/src/connection.rs:133-178 | what an introduced driver writes and reports for each input |
| Driver.DroppedCommandsIgnored | crates/net/src/session.rs:230-269 | once the command channel is gone no clip is looked at |
| Link.NothingIgnored | crates/protocol/src/connection.rs:160-184 | the link invariant rules out the ignore arm for whatever is next in flight |
| Link.NearKeepsInv | crates/protocol/src/connection.rs:122-219 | every act of either end keeps the link invariant |
| Link.ClipsDeliveredInOrder | crates/protocol/src/connection.rs:133-178 | clips written = clips surfaced by the peer, then those in flight, in both directions |
| Link.IntroducedOnce | crates/protocol/src/connection.rs:124-159 | each end surfaces one handshake, carrying the other end's identity and token |
| Link.PingsConserved | crates/protocol/src/connection.rs:160-218 | an outstanding ping is exactly one packet in flight with its nonce; none outstanding, none in flight; at both ends |
| Link.NothingDropped | crates/protocol/src/connection.rs:143-184 | between two such machines nothing delivered at either end is ignored and no greeting refused |
| Link.RoundTripsWithinTwoDelays | crates/protocol/src/connection.rs:163-169 | every round trip measured at either end is at most two delivery delays |
| Link.NoFalseTimeoutExactlyWhen | crates/protocol/src/connection.rs:79-82 | no false timeout in any run exactly when 2D < 3 intervals at both ends |
| Link.SlowLinkTimesOut | crates/protocol/src/connection.rs:192-198 | otherwise a concrete legal run closes on a timeout while the peer still runs |
| Link.Mirrored | crates/net/src/session.rs:102-138 | the link treats its two ends alike |
| Backoff.DelayDoublesUpToCap | crates/protocol/src/backoff.rs:14-17 | the 32-bit shift computes min(2^attempt, 60) seconds for every attempt |
| Backoff.TotalDelayClosedForm | crates/protocol/src/backoff.rs:14-17 | n retries wait 2^n - 1 s up to six, then a minute more each |
| Reconnect.Run | crates/net/src/reconnect.rs:44-97 | the events a receiver hears and the token each attempt is offered |
| Reconnect.DialerObeysGrammar | crates/net/src/reconnect.rs:52-96 | every run's trace is in the dialer grammar, whenever the receiver goes away |
| Reconnect.DialerTrace | crates/net/src/reconnect.rs:52-96 | sessions never overlap; each back-off carries the saturating count since the last connection and its delay |
| Reconnect.TokenOfferedOnce | crates/net/src/reconnect.rs:54-61 | the token reaches the first attempt, successful or not, and no later one |
| Reconnect.FirstConnectionGetsTokenExactlyWhen | crates/net/src/reconnect.rs:41-61 | the first connection is offered the token exactly when no attempt failed before it |
| Reconnect.FailedAttemptLosesToken | crates/net/src/reconnect.rs:41-61 | a run whose connection greets its peer without the token |
| Reconnect.DialsAgainExactlyWhen | crates/net/src/reconnect.rs:53-96 | a dialed round is followed by another exactly when the receiver listens and the session, if any, is over |
| Reconnect.EveryRoundIsDialed | crates/net/src/reconnect.rs:53-96 | with a listener every round is dialed and backed off from, every connection announced, every session event passed on |
| Reconnect.BackoffsInARow | crates/net/src/reconnect.rs:84-96 | the total wait of n back-offs in a row in any trace |
| Phone.PhoneCore.constructor | crates/ffi/src/core.rs:133 | no session in the slot |
| Phone.PhoneCore.ForwardEvents | crates/ffi/src/core.rs:252-292 | slot, delivered events and the single save of the peer, for any event sequence and whatever the slot held before |
| Phone.SlotForgets | crates/ffi/src/core.rs:260-274 | what an earlier `pair()` left in the slot counts until the first connection and no longer |
| Phone.PhoneCore.SendClipboard | crates/ffi/src/core.rs:214-229 | size error first, then not connected, else the clip is queued on the slot's handle |
| Phone.SlotFollows | crates/ffi/src/core.rs:260-274 | the slot holds the latest handle exactly while its session is open |
| Phone.StatusFollows | android/app/src/main/kotlin/org/penguinsync/app/ui/ConnectionStatus.kt:30-38 | the folded status is Connected exactly from a session's handshake to its close, naming that peer |
| Phone.AppHearsAll | crates/ffi/src/core.rs:300-327 | every clip that is text and every back-off reaches the app, in order |
| Phone.PhoneCoherent | crates/ffi/src/core.rs:260-327 | for every prefix of every dialer run, status, slot and refusal to send agree |
| Hex.ParsePairs | crates/protocol/src/message.rs:40-44 | the parsing loop accepts exactly 2n characters of valid pairs |
| Hex.FromHex | crates/protocol/src/message.rs:36-45 | 64 characters to an id, or nothing |
| Hex.HexDecodeToken | crates/protocol/src/pairing.rs:175-184 | 32 characters to a token, or nothing |
| Hex.AcceptsExactlyWhen | crates/protocol/src/message.rs:35-45 | any string is accepted exactly by its characters, and means what its small letters spell |
| Hex.HexRoundTrip | crates/protocol/src/message.rs:31-45 | parsing a rendering gives the bytes back |
| Hex.ToHexInjective | crates/protocol/src/message.rs:31-33 | distinct ids have distinct renderings |
| Hex.CanonicalExactlyWhenLowercase | crates/protocol/src/message.rs:35-45 | an accepted string is a rendering exactly when it uses only 0-9 and a-f |
| Qr.EncodeQrUri | crates/protocol/src/pairing.rs:107-120 | the URI is the prefix and the serialized fields in order |
| Qr.DecodeQrUri | crates/protocol/src/pairing.rs:123-169 | scheme check, field parsing with later fields winning, each error case |
| Qr.DecodeEncode | crates/protocol/src/pairing.rs:111-117 | percent-decoding undoes percent-encoding of any byte string |
| Qr.ParseSerialize | crates/protocol/src/pairing.rs:110-135 | any list of name/value pairs survives the query string |
| Qr.AddrRoundTrip | crates/protocol/src/pairing.rs:114-154 | an IPv4 address and port survive printing and parsing |
| Qr.QrRoundTrip | crates/protocol/src/pairing.rs:107-169 | decoding an encoded payload returns it, for every payload |
| Qr.ShowThenScan | crates/protocol/src/pairing.rs:106-169 | the two methods in sequence return the payload |
| Scan.SchemeExactlyWhen | crates/protocol/src/pairing.rs:123-127 | a text has the wrong scheme exactly when it does not start with ours and a colon |
| Scan.ScansExactlyWhen | crates/protocol/src/pairing.rs:123-169 | which texts are scanned, to which payload, and which pair is blamed for the others |
| Scan.QueryIsCut | crates/protocol/src/pairing.rs:135 | any query is cut at its ampersands, empty pieces dropped |
| Scan.PieceIsCut | crates/protocol/src/pairing.rs:135 | a piece is cut at its first equals sign |
| Scan.EncodedByte | crates/protocol/src/pairing.rs:111-117 | the serializer's alphabet, byte by byte (section 5.2 of the WHATWG URL Standard) |
| Scan.EncodeSplits | crates/protocol/src/pairing.rs:111-117 | encoding goes byte by byte |
| Scan.DigitsExactlyWhen | crates/protocol/src/pairing.rs:137-143 | any string is a number exactly when it is all digits, and then the one it spells |
| Scan.PortExactlyWhen | crates/protocol/src/pairing.rs:150-154 | a port is digits that spell a 16-bit number |
| Scan.VersionExactlyWhen | crates/protocol/src/pairing.rs:137-143 | a version is the same with at most one plus sign in front |
| Scan.AddrExactlyWhen | crates/protocol/src/pairing.rs:150-154 | any text is an IPv4 address exactly when it is printed octets, a colon and a port |
| Framing.SendStream.WriteMessage | crates/net/src/framing.rs:28-37 | a little-endian length and the encoding are appended, or the bytes of them written before the stream failed |
| Framing.TornFrameIsRefused | crates/net/src/framing.rs:39-49 | a frame cut short by a failed write is never read as a message |
| Framing.RecvStream.ReadMessage | crates/net/src/framing.rs:39-49 | one frame, or the oversize, short or decode error |
| Framing.ReadsFrame | crates/net/src/framing.rs:28-49 | a frame at the front is read back and exactly the rest remains, unless it is over the cap |
| Framing.FramesSurviveExactlyWhen | crates/net/src/framing.rs:10-49 | a list of messages survives the stream exactly when every encoding is within the cap |
| Framing.ClipsFitFrames | crates/protocol/src/clipboard.rs:40-54 | every clip that can be made fits a frame, given the codec's overhead bound |
| Pairing.PairingToken.constructor | crates/protocol/src/pairing.rs:49-55 | a token is issued unredeemed, with the bytes and the time given |
| Pairing.PairingToken.Redeem | crates/protocol/src/pairing.rs:67-79 | used, expired, mismatched or accepted, and when each |
| Pairing.RedeemedAtMostOnce | crates/protocol/src/pairing.rs:25-79 | over any presentations a token is accepted at most once, and at all exactly when one is right and in time |
| Pairing.TrustStore.constructor | crates/net/src/tls.rs:42-47 | the given ids are pinned and the window is shut |
| Pairing.TrustStore.Pin | crates/net/src/tls.rs:53-55 | one more pin, the window as it was |
| Pairing.TrustStore.Unpair | crates/net/src/tls.rs:60-62 | that pin gone, the window as it was |
| Pairing.TrustStore.OpenPairingWindow | crates/net/src/tls.rs:72-74 | the window is open until the deadline, the pins as they were |
| Pairing.TrustStore.ClosePairingWindow | crates/net/src/tls.rs:76-78 | the window is shut, the pins as they were |
| Pairing.TrustStore.Check | crates/net/src/tls.rs:112-122 | a peer is admitted when pinned or while the window is open |
| Devices.PersistedState.Upsert | crates/daemon/src/state.rs:51-60 | renames the id's entry in place or appends one |
| Devices.PersistedState.Remove | crates/daemon/src/state.rs:62-65 | drops the entries with the id's rendering |
| Devices.PersistedState.DeviceIds | crates/daemon/src/state.rs:67-71 | the ids of the well-formed entries, in order |
| Devices.UpsertAddsOne | crates/daemon/src/state.rs:51-60 | adds exactly that id to any list, stores its name, leaves the other entries and their order alone, keeps keys canonical and unique |
| Devices.RemoveDropsOne | crates/daemon/src/state.rs:62-65 | removes no other id, exactly that one from a plain list, keeps the other entries as they are and keys canonical and unique |
| Devices.RemovedSplits | crates/daemon/src/state.rs:62-65 | removal keeps the order of what it keeps |
| Devices.RemoveForgetsExactlyWhen | crates/daemon/src/state.rs:62-71 | for any list, the id is gone after removal exactly when every entry meaning it is lowercase |
| Daemon.Shared.constructor | crates/daemon/src/main.rs:97-168 | pins and device objects rebuilt from the persisted list |
| Daemon.Shared.EnsureDeviceObject | crates/daemon/src/orchestrator.rs:176-198 | registers a disconnected object if there is none |
| Daemon.Shared.SetConnected | crates/daemon/src/dbus.rs:136-151 | flips the property of a registered object |
| Daemon.Shared.MarkConnected | crates/daemon/src/orchestrator.rs:158-174 | object, property and promoted handle together |
| Daemon.Shared.OnConnected | crates/daemon/src/orchestrator.rs:30-32 | the handle is held under its remote |
| Daemon.Shared.OnClosed | crates/daemon/src/orchestrator.rs:77-86 | all entries of the remote go, with its device's |
| Daemon.Shared.OnPeerHandshake | crates/daemon/src/orchestrator.rs:47-138 | known device, missing token, failed redemption, or a confirmation now awaited |
| Daemon.Shared.OnAnswer | crates/daemon/src/orchestrator.rs:138-152 | a yes pins, shuts the window, stores and connects; anything else changes nothing |
| Daemon.Shared.StartPairing | crates/daemon/src/dbus.rs:43-59 | a fresh token in the slot, a window until its expiry, and a URI from which scanning gets this daemon's identity, name, addresses and that token |
| Daemon.Shared.ConfirmPairing | crates/daemon/src/dbus.rs:64-71 | a malformed id is an error; otherwise the pending channel is taken out and told |
| Daemon.Shared.Unpair | crates/daemon/src/dbus.rs:76-91 | pin, list entry and object go; the connection tables stay |
| DaemonRun.HandleEvent | crates/daemon/src/orchestrator.rs:28-87 | the object's handlers implement the orchestrator's step, and a clip goes on with its sender's id |
| DaemonRun.Orchestrate | crates/daemon/src/orchestrator.rs:23-38 | the loop handles events in order, each at its own time, until none is left or a confirmation is awaited, and passes their clips on |
| DaemonRun.LoopIsRun | crates/daemon/src/orchestrator.rs:23-38 | what the loop does is a run of the whole system, so every run's invariants hold of it |
| Routing.AcceptAndDrain | crates/net/src/listener.rs:69-97 | a connection is announced first and drained to its `Closed`, leaving its remote as found; nothing is sent without a stream or a listener |
| Routing.HeadExpected | crates/daemon/src/orchestrator.rs:28-87 | every handled event finds the tables in the state it needs |
| Routing.StepKeepsInv | crates/daemon/src/orchestrator.rs:23-196 | every step of sessions, orchestrator, D-Bus and clock keeps the table invariant |
| Routing.HandlesAreLiveAndReady | crates/daemon/src/orchestrator.rs:158-174 | a connected device's handle is its remote's, named as that device, and its running session writes clips |
| Routing.ClosedHandleIsGone | crates/daemon/src/orchestrator.rs:77-86 | after a handled `Closed` no table holds that remote's handle |
| Routing.ClipHasSender | crates/daemon/src/orchestrator.rs:63-75 | a received clip goes on to the clipboard handler with its sender; the arm that drops it is never taken |
| Routing.NoLeakAndMirror | crates/daemon/src/orchestrator.rs:77-87 | all tables empty once everything is closed and handled; objects mirror the connected table |
| Routing.RestartRefines | crates/daemon/src/main.rs:97-99 | after any run a restart loses no trusted device, repeats no key, and from a plain list admits the same devices |
| Routing.RestartsSameExactlyWhen | crates/daemon/src/state.rs:62-71 | over all runs a restart trusts the same devices exactly when the loaded list is plain |
| Routing.ObjectsShowStoredNames | crates/daemon/src/orchestrator.rs:176-198 | from a plain list, the name on a device's object is one the list holds for it |
| Arrivals.ArrivalServes | crates/daemon/src/orchestrator.rs:97-101 | a known device that connects is served and in the table |
| Arrivals.PairingSucceeds | crates/daemon/src/orchestrator.rs:103-152 | after any run at rest any new device can be paired, and ends up pinned, listed, registered and connected |
| Ledger.AdmittedExactlyWhen | crates/net/src/tls.rs:112-122 | after any run a peer is let in exactly when the history trusts it or pairing is open |
| Ledger.StrangerRefused | crates/net/src/tls.rs:80-85 | once the last token ran out or a device was pinned, a stranger is turned away |
| Ledger.AsksExactlyWhen | crates/daemon/src/orchestrator.rs:106-138 | an untrusted device's greeting leaves the handler waiting for it exactly when it carries the last token, in time and unused |
| Ledger.OnlyAYesPins | crates/daemon/src/dbus.rs:155-170 | without a yes nothing changes, and without an answer the wait is 65 s |
| Overtaken.TwinsExactlyWhen | crates/daemon/src/orchestrator.rs:97-152 | a check before the handler tells exactly whether it will give one pinned name to two remotes |
| Overtaken.TableHoldsEveryDevice | crates/daemon/src/shared.rs:67-70 | in every run without twins every named remote of a pinned device is in the table, at rest with its own session's handle |
| Overtaken.FreshNamesNeverTwin | crates/daemon/src/orchestrator.rs:47-61 | handshakes that only name devices no remote goes by never make twins |
| Overtaken.TwinsBreak | crates/daemon/src/orchestrator.rs:77-86 | from any state with twins some continuation makes the table incomplete |
| Overtaken.BreaksExactlyWhen | crates/daemon/src/shared.rs:67-70 | after any run without twins, a step opens the way to an incomplete table exactly when it makes twins |
| Overtaken.ReconnectedDeviceIsForgotten | crates/daemon/src/shared.rs:67-70 | runs, one per lost connection, that leave a pinned, ready, named device out of the table |
| Genuine.StepGenuineExactlyWhen | crates/daemon/src/orchestrator.rs:97-174 | one step keeps every entry authenticated as its device exactly when the named id is the authenticated one |
| Genuine.GenuineExactlyWhen | crates/protocol/src/connection.rs:47-52 | over every run, all entries are genuine throughout exactly when no step misnames a connection |
| Genuine.GreetingAloneConnects | crates/daemon/src/orchestrator.rs:97-101 | a run in which a pinned device's entry is a connection authenticated as any other id |
| Provenance.StepKeepsInv | crates/daemon/src/orchestrator.rs:97-152 | every step keeps token, window, redemptions, pins and waiting handler accounted for |
| Provenance.PinProvenance | crates/daemon/src/orchestrator.rs:103-152 | every trusted id was loaded or earned; pins <= redemptions <= started pairings |
| Provenance.AnswersReachOnlyTheirWait | crates/daemon/src/dbus.rs:61-71 | an answer counts exactly for the unanswered device being awaited; others change only the pending map |
| Provenance.OpenWindowHasToken | crates/daemon/src/dbus.rs:43-48 | the window deadline is the current token's expiry |
| ClipboardSync.Clipboards.ShouldBroadcast | crates/daemon/src/clipboard.rs:246-253 | true exactly for a hash other than the last, which it becomes |
| ClipboardSync.Clipboards.WatchAndBroadcast | crates/daemon/src/clipboard.rs:127-173 | every notification of the stream, with each reason to skip one |
| ClipboardSync.Clipboards.HandleReceived | crates/daemon/src/clipboard.rs:184-241 | trust and type checks, local apply, relay to the others |
| ClipboardSync.Clipboards.SendTo | crates/daemon/src/clipboard.rs:224-235 | the clip is queued once on each target and nowhere else |
| ClipboardSync.DedupSplits | crates/daemon/src/clipboard.rs:246-253 | suppression splits over any concatenation of inputs |
| ClipboardSync.DedupShape | crates/daemon/src/clipboard.rs:246-253 | no two neighbours equal, and the last hash is kept |
| ClipboardSync.DedupKeepsChanges | crates/daemon/src/clipboard.rs:246-253 | a hash differing from the one before is never suppressed |
| ClipboardSync.EchoAccounting | crates/daemon/src/clipboard.rs:127-241 | broadcasts plus a pending difference are at most one more than copies, device clips and failed backend writes; without a backend relays are at most device clips |
| ClipboardSync.AcceptedHasNoRepeat | crates/daemon/src/clipboard.rs:148-152 | over every run the accepted hashes are the presented ones without adjacent repeats |
| ClipboardSync.DevicesCoherent | crates/daemon/src/clipboard.rs:155-165 | a connected device's last exchanged clip has the last seen hash |
| ClipboardSync.RelayTargets | crates/daemon/src/clipboard.rs:224-235 | exactly the other connected devices get a relayed clip |
| ClipboardSync.BroadcastTargets | crates/daemon/src/clipboard.rs:130-165 | a readable new text goes once to every connected device; any other notification goes nowhere |
| ClipboardSync.BacklogBroadcastsOnce | crates/daemon/src/clipboard.rs:130-153 | a backlog of notifications with nothing new broadcasts at most once |
| ClipboardSync.NoEcho | crates/daemon/src/clipboard.rs:204-222 | the notification caused by applying a device's clip changes nothing |
| Screen.App.HandleKey | crates/cli/src/tui.rs:239-298 | what each key does to the code, the confirmation and the program |
| Screen.App.OnRefresh | crates/cli/src/tui.rs:191-203 | a stale code is replaced, or dropped if the call fails |
| Screen.RefreshKeepsLiveTokens | crates/cli/src/tui.rs:131-143 | no refresh discards a redeemable token in a run without an orphaning key press |
| Screen.RefreshIsSafeExactlyWhen | crates/cli/src/tui.rs:138-143 | no press-free continuation discards a redeemable token exactly when the screen shows no code older than one |
| Screen.OnlyOrphansThreaten | crates/cli/src/tui.rs:271-280 | the one step that ends this safety is an orphaning press over a token that has not run out |
| Screen.RefreshCanReplaceLiveToken | crates/cli/src/tui.rs:271-280 | a run in which a refresh discards a token half a minute old |

## Left out

- QUIC, TLS signatures and certificate parsing, sockets: ordered streams, connection loss as an event and the admission decision remain.
- BLAKE3, SHA-256 and random draws: parameters or arbitrary values.
- The `postcard` and `serde_json` codecs: assumed to invert; the list of devices and the framing are modelled.
- Cancellation of a read inside `select!` and scheduling: a read is one completed step and the selected branch is arbitrary.
- Qr.DecodeQrUri: the URL parser's whitespace stripping, case folding of the scheme and percent-encoding repair are not modelled; a string is split at its first colon, question mark and hash sign, which is what the parser does to every encoded URI.
- Qr.AddrRoundTrip: IPv6 addresses, which the daemon never emits because it binds the IPv4 wildcard.
- Qr.EncodeQrUri: IPv6 addresses, as for Qr.AddrRoundTrip.
- Qr.QrRoundTrip: IPv6 addresses, as for Qr.AddrRoundTrip.
- Qr.ShowThenScan: IPv6 addresses, as for Qr.AddrRoundTrip.
- Daemon.Shared.StartPairing: the short fingerprint returned beside the URI.
- Screen.App.HandleKey: moving the selection, unpairing from the device list and the ConfirmPairing calls, which touch neither the code nor the token.
- ClipboardSync.Clipboards.WatchAndBroadcast: the method works through its notifications with no other handler in between; interleavings are in the runs, where each iteration is one step.
- Qr.DecodeEncode: names are byte strings; the lossy UTF-8 decoding of the query is the identity on valid UTF-8 and is not modelled.
- ClipboardSync.DevicesCoherent: a clip dropped because its sender is not pinned does not count as exchanged.
- Phone.PhoneCoherent: after `cancel()` the dialer is aborted without a `Closed`, and a second `pair()` call shares the slot; both are outside one call's trace.
- The peers file of the phone: only how often it is written; its contents repeat the daemon's list without removal.
- Device list drawing, notifications, camera, file and key storage, configuration, logging, packaging.
