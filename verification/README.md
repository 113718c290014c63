# amqp-client connection core, modelled in Dafny

This project models the connection and channel core of a Rust AMQP 0-9-1
client. It covers three pieces.

- **The connection negotiation** of AMQP 0-9-1 (section 2.2.4, "The Connection
  Class"). The client sends the protocol header "AMQP" 0 0 9 1. It expects
  `Start` and answers `StartOk`, whose PLAIN response is NUL login NUL password
  (section 2 of RFC 4616). It expects `Tune` and echoes `TuneOk`. Then it sends
  `Open{vhost}`. The complete connection (`AmqConnection`) waits for `OpenOk` and
  only then starts its listener. The draft connection (`Connection`) uses a
  fixed response and the vhost "my_vhost", and returns right after `Open`.
  Both run the same machine, `Handshake.Run`, under two configurations, so the
  two can be compared.
- **The channel registry and the listener's routing.** `create_channel`
  registers the new channel under the allocated id and then opens it. The
  listener loop reads frames until a read fails. It hands each method frame on a
  registered channel to that channel's `handle_frame`. Every other case kills
  the listener thread.
- **The channel** (section 2.2.5 of AMQP 0-9-1, "The Channel Class"). It has an
  id, the shared stream, and an `active` flow flag. `flow(x)` does nothing when
  the flag already equals `x`. Otherwise it sends `Flow` and waits for a reply.
  The flag changes only if both steps succeed. `open` sends `Open` and waits.
  `handle_frame` accepts only `ChanOpenOk`.

The transport is a scripted `AmqpStream` with two fields. `inbound` holds the
reads still to come: a frame arrives, or the read fails. `log` is an
append-only list of what the client sent: raw bytes, or a method invoked on a
channel. A set of log positions says which sends fail. A failed send appends
nothing, so the next send is tried at the same log position; once a send
fails, every later send fails too. Once the script runs out, every read fails (end of stream). Each
stateful operation is a method on a class. It is proved equal to a function of
the old state (`Stream.Write`, `Stream.ReadFrame`, `Handshake.Run`,
`Channels.OpenSpec`, `Channels.FlowSpec`, `Protocol.ListenSpec`). The
properties are lemmas about those functions.

Files: `stream.dfy` (module `Stream`), `handshake.dfy` (`Handshake`),
`channel.dfy` (`Channels`), `protocol_connection.dfy` (`Protocol`),
`draft_connection.dfy` (`DraftConnection`).

The model follows the code as written:
- a failed `open` in `create_channel` leaves the registry entry in place, and the id is not released;
- `handle_frame` of `AmqChannel` panics on any method other than `ChanOpenOk`; in the listener this ends the thread (`Crashed(Rejected(..))`), given the channel assumption stated under "## Left out";
- a frame for an unregistered channel is fatal to the listener, not reported and skipped;
- the draft connection is modelled as it is written, not discarded.

## Model

| member | source | states |
|---|---|---|
| `Stream.ReadFrame` | amqp-client/src/protocol/connection.rs:117 | a successful read consumes exactly the head of the script |
| `Stream.ReadMethodFrameMeetsScript` | amqp-client/src/protocol/connection.rs:51 | reading a method frame succeeds exactly when the next scripted read delivers a method frame, returns that frame's method, consumes exactly one read and sends nothing |
| `Stream.AmqpStream.constructor` | amqp-client/src/protocol/connection.rs:36 | a new stream has the given script and an empty log |
| `Stream.AmqpStream.SendRaw` | amqp-client/src/protocol/connection.rs:49 | the raw bytes are appended to the log unless the send is scripted to fail, which returns an I/O error |
| `Stream.AmqpStream.Invoke` | amqp-client/src/protocol/connection.rs:69 | the method on the given channel is appended to the log unless the send fails |
| `Stream.AmqpStream.NextFrame` | amqp-client/src/protocol/connection.rs:117 | the head of the script is consumed and returned; a failed read or an exhausted script is an I/O error |
| `Stream.AmqpStream.NextMethodFrame` | amqp-client/src/protocol/connection.rs:51 | as `NextFrame`, and a frame that is not a method frame is an error |
| `Handshake.TuneOk` | amqp-client/src/protocol/connection.rs:75-80 | `TuneOk` carries the broker's chan_max, frame_max and heartbeat unchanged |
| `Handshake.Perform` | amqp-client/src/protocol/connection.rs:43-97 | the step-by-step negotiation over a live stream ends in exactly the outcome and state of `Run` |
| `Handshake.HeaderComesFirst` | amqp-client/src/protocol/connection.rs:47-49 | nothing is sent before the header; earlier log entries are kept; if the header send fails, nothing is sent and the result is an I/O error |
| `Handshake.StartIsRequired` | amqp-client/src/protocol/connection.rs:51-53 | if the first method is not `Start`, the negotiation fails having sent only the header |
| `Handshake.StartOkShape` | amqp-client/src/protocol/connection.rs:56-69 | a second item is sent only after a `Start`; it is `StartOk` on channel 0 with exactly the keys product, platform, copyright and information, mechanism "PLAIN", the configured response and locale "en_US" |
| `Handshake.TuneIsRequired` | amqp-client/src/protocol/connection.rs:71-72 | after `Start` and `StartOk`, if the second method is not `Tune`, the negotiation fails and sends no `TuneOk` and no `Open` |
| `Handshake.TuneOkEchoesTune` | amqp-client/src/protocol/connection.rs:75-80 | a third item is sent only after a `Tune`; it is `TuneOk` on channel 0 with that `Tune`'s three values |
| `Handshake.OpenFollowsTuneOk` | amqp-client/src/protocol/connection.rs:82-86 | at most four items are sent, and a fourth is `Open{vhost}` on channel 0; every run, however it ends, consumes a prefix of the script of at most two reads, or three when `OpenOk` is awaited |
| `Handshake.OpenSentBeforeThirdRead` | amqp-client/src/protocol/connection.rs:82-88 | awaiting `OpenOk` changes nothing that is sent; when the run without the wait fails, the awaiting run ends the same way; when it succeeds, the awaiting run is that run followed by exactly one more read, made only after `Open` has gone out, and it succeeds iff that read is `OpenOk` |
| `Handshake.ReadFailuresAreTransportErrors` | amqp-client/src/protocol/connection.rs:51-87 | for both connections, a read the negotiation reaches that is lost (failed read or end of script) fails with the transport's `IoError`, and one that delivers a non-method frame fails with `NotAMethodFrame`, never with a wrong-method error; the log then holds exactly what was sent before that read |
| `Handshake.SendFailuresAreTransportErrors` | amqp-client/src/protocol/connection.rs:69-86 | for both connections, a failed send of `StartOk`, `TuneOk` or `Open` fails with `IoError`, logs only the items before it and consumes exactly the reads made so far |
| `Handshake.SucceedsExactly` | amqp-client/src/protocol/connection.rs:43-97 | success holds iff all four sends succeed and the broker answers `Start`, then `Tune`, then `OpenOk` when awaited; on success the log gains exactly header, `StartOk`, `TuneOk`, `Open` and exactly those replies are consumed |
| `Handshake.FirstNul` | amqp-client/src/protocol/connection.rs:66 | the returned index is the first NUL of the string, or its length |
| `Handshake.PlainRoundTrip` | amqp-client/src/protocol/connection.rs:66 | the response `PlainResponse(login, password)`, NUL login NUL password as built by the `format!`, reads back as (login, password) under RFC 4616 when neither contains NUL |
| `Channels.FlowFlag` | amqp-client/src/amq_channel.rs:58-60 | `active` travels as 1 for true and 0 for false |
| `Channels.HandleFrame` | amqp-client/src/amq_channel.rs:30-40 | succeeds exactly for `ChanOpenOk`; any other method is rejected (the Rust client panics) |
| `Channels.AmqChannel.constructor` | amqp-client/src/amq_channel.rs:20-27 | a new channel has the given id and stream and is active |
| `Channels.AmqChannel.Open` | amqp-client/src/amq_channel.rs:42-49 | outcome and stream state are those of `OpenSpec`: send `Open` on the channel's id, then the wait's outcome |
| `Channels.AmqChannel.Flow` | amqp-client/src/amq_channel.rs:51-65 | outcome, flag and stream state are those of `FlowSpec` |
| `Channels.OpenSendsOneOpen` | amqp-client/src/amq_channel.rs:42-49 | `open` reads nothing and sends exactly one `Open` on its own id; it succeeds iff the send and the wait do, and a failure of either is returned |
| `Channels.FlowIsNoOpWhenUnchanged` | amqp-client/src/amq_channel.rs:53-55 | `flow(x)` with `active == x` succeeds, sends nothing and keeps the flag |
| `Channels.FlowTogglesOnlyOnSuccess` | amqp-client/src/amq_channel.rs:57-62 | `flow(x)` with `active != x` sends exactly one `Flow` (1 or 0) on its own id; the flag becomes `x` iff send and wait both succeed, and is unchanged otherwise |
| `Channels.FlowTwiceSendsOnce` | amqp-client/src/amq_channel.rs:53-62 | two `flow(x)` calls in a row, the first succeeding, send one `Flow` in total if the flag differed and none otherwise; the second call succeeds |
| `Protocol.Route` | amqp-client/src/protocol/connection.rs:117-125 | a read error stops the loop; a method frame is delivered iff its channel is registered; an unregistered id or a non-method frame is fatal |
| `Protocol.AmqConnection.constructor` | amqp-client/src/protocol/connection.rs:31-41 | the options are the arguments; the registry is empty; no listener is running |
| `Protocol.AmqConnection.Connect` | amqp-client/src/protocol/connection.rs:43-98 | runs the negotiation with PLAIN over the options' login and password, the options' vhost and `OpenOk` awaited; the listener is started iff it succeeds |
| `Protocol.AmqConnection.StartListener` | amqp-client/src/protocol/connection.rs:110-114 | the listener is marked started |
| `Protocol.AmqConnection.CreateChannel` | amqp-client/src/protocol/connection.rs:100-108 | a fresh active channel with the allocated id is registered under that id, and other entries are unchanged; the stream sees exactly one `open` of that channel; an open error is returned and the entry stays; on success the registered channel is returned |
| `Protocol.AmqConnection.Listen` | amqp-client/src/protocol/connection.rs:117-127 | the loop's handled frames, its end and the stream state are those of `ListenSpec` |
| `Protocol.ListenReadsInOrder` | amqp-client/src/protocol/connection.rs:117-127 | the listener sends nothing; the frames it handles are the script's first frames, each a `ChanOpenOk` on a registered channel; it consumes one read past the handled frames unless the script ran out; it ends with `ReadError` iff that read failed or the script ran out |
| `Protocol.ListenCrashesOnlyOnFatalFrame` | amqp-client/src/protocol/connection.rs:117-125 | the listener crashes only when the read after the handled frames delivers a fatal frame, and the reason names that frame: `UnsupportedFrame` for a non-method frame, `UnknownChannel(id)` for an unregistered id, and for a registered id the channel's rejection `UnknownMethod` of a method other than `ChanOpenOk` |
| `Protocol.UnregisteredChannelIsFatal` | amqp-client/src/protocol/connection.rs:121 | a method frame for an unregistered id kills the listener with that id as the reason |
| `Protocol.ConnectSendsCredentials` | amqp-client/src/protocol/connection.rs:63-69 | the `StartOk` of `connect` is on channel 0 with mechanism "PLAIN", and its response reads back as the options' login and password |
| `Protocol.ConnectSucceedsIffOpenOk` | amqp-client/src/protocol/connection.rs:86-97 | once `Open` is sent, `connect` succeeds iff the third method is `OpenOk`; on success it sent exactly header, `StartOk`, `TuneOk`, `Open{vhost}` and read exactly three frames |
| `DraftConnection.Connection.constructor` | amqp-client/src/connection.rs:22-35 | the draft hands host, port, login and password to its stream and keeps nothing else; the stream is a separate parameter here, and `options` records the four values handed over |
| `DraftConnection.Connection.Connect` | amqp-client/src/connection.rs:37-91 | runs the same negotiation with the fixed response, vhost "my_vhost" and no `OpenOk` wait, whatever the options |
| `DraftConnection.DraftResponseIsFixedPlain` | amqp-client/src/connection.rs:58-64 | the literal response is the PLAIN message for "user" and "password" |
| `DraftConnection.DraftRejectsMissingStart` | amqp-client/src/connection.rs:41-49 | if the first method is not `ConnStart`, the draft fails with the `bail!` message "Expected ConnStart method" (`BailMessage`) having sent only the header [65,77,81,80,0,0,9,1] |
| `DraftConnection.DraftRejectsMissingTune` | amqp-client/src/connection.rs:66-74 | if the second method is not `ConnTune`, the draft fails with the `bail!` message "Expected ConnTune method" (`BailMessage`) having sent only header and `StartOk` |
| `DraftConnection.DraftSucceedsAfterTwoReads` | amqp-client/src/connection.rs:77-90 | the draft succeeds iff the four sends succeed and `ConnStart`, `ConnTune` arrive; it then read exactly two frames and sent header, `StartOk` with the fixed response, the echoing `TuneOk` and `Open{"my_vhost"}` |
| `DraftConnection.DraftAgreesWithComplete` | amqp-client/src/connection.rs:84-90 | against a complete connection configured with the draft's literals, the draft sends the same items on every script; it succeeds whenever the complete one does; when the draft succeeds, the complete one succeeds iff the third method is `OpenOk` |

## Left out

- The listener thread, the `Arc`/`Mutex` locking and the order in which the reader and writer locks are dropped. The listener loop is a sequential method over the reads still in the script. The registry stays fixed while it runs.
- The frame codec, `send_raw`, `invoke`, `next_frame` and `next_method_frame` are code outside this model. The stream is a script of reads and a log of tagged items. A send fails as a whole, with no partial write. A non-method frame read by `next_method_frame` is taken to be an error (`NotAMethodFrame`).
- The complete connection's `PROTOCOL_HEADER` lives in a constants module outside this model. It is taken to be the draft's bytes [65,77,81,80,0,0,9,1].
- The messages of the `try_into` conversion errors in the complete `connect` are not part of this model. A wrong method there is `UnexpectedMethod` with the expected method's name, as in the draft.
- `Protocol.AmqConnection.CreateChannel`: the contract fixes the final registry and stream state, but not that the channel is registered before `open` is called. That order matters only to the listener thread, which runs concurrently: a `ChanOpenOk` for the new id read before the insert would hit the unregistered-id panic at amqp-client/src/protocol/connection.rs:121 and kill the listener. (Even after the insert, that frame only reaches `handle_frame`, which does not feed the waiter; see the waiter line below.) The listener is not concurrent with the call here and the reply is a parameter, so the order is not observable and is not stated.
- `IdAllocator` is not part of this model. `create_channel` takes the allocated id as a parameter, and no uniqueness or range is claimed for it.
- The per-channel reply waiter (`wait_for_response`) is a parameter that gives the outcome of the wait. In the Rust client nothing ever sends to that waiter (`handle_frame` only logs), so a real `open` or `flow` would block. The channel owns the waiter's sender too, so `recv()` can never fail either: the failing `reply` branch cannot happen in the Rust client, and the model over-approximates there by admitting both outcomes.
- The channel type that amqp-client/src/protocol/connection.rs registers and routes to (`crate::protocol::channel::AmqChannel`) is not part of this model; its `handle_frame` takes a whole method frame. It is assumed to behave like the `AmqChannel` of amqp-client/src/amq_channel.rs (`new`, `open`, `handle_frame`), whose members `CreateChannel`, `Listen` and `ListenSpec` use. The claims that the listener dies on any method other than `ChanOpenOk` and that the waiter is never fed rest on this assumption.
- The values of the client properties (only their keys are modelled), the default fields of `Open`, the connection URL, and all `info!`/`println!` logging.
- Timeouts, waking blocked callers on connection loss, channel close and id release do not appear in this code.
- Integer widths (`i16` ids, `u8`/`u16`/`u32` fields) are subset types. No arithmetic is done on them, so no wrap-around arises.
