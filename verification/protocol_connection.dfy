/**
  The complete connection: negotiation with the caller's credentials and vhost,
  waiting for `OpenOk` before the listener starts; a registry of channels keyed
  by id; and the listener's routing of each inbound frame.

  The listener runs on its own thread in the client; here its loop is a
  sequential method over the frames still to be read, with the registry fixed
  for the duration of the run.
 */
module Protocol {
  import opened Stream
  import Handshake
  import opened Channels

  datatype ConnectionOpts = ConnectionOpts(host: string, port: u16, login: string, password: string, vhost: string)

  /** The negotiation this connection runs: PLAIN with its own credentials, its own vhost, `OpenOk` awaited. */
  function Negotiation(options: ConnectionOpts): Handshake.Config
  {
    Handshake.Config(Handshake.PlainResponse(options.login, options.password), options.vhost, true)
  }

  /** Why the listener thread dies: the panics of its loop body. */
  datatype Crash =
    | UnknownChannel(chan: i16)
    | UnsupportedFrame
    | Rejected(error: Error)

  /** The routing decision for one read of the listener. */
  datatype Routing = Deliver(frame: AmqFrame) | Stop | Abort(reason: Crash)

  /** How a listener run ends: at the first read error, or by a crash. */
  datatype ListenEnd = ReadError | Crashed(reason: Crash)

  datatype Listened = Listened(handled: seq<AmqFrame>, end: ListenEnd)

  /**
    One step of the listener: a read error ends the loop; a method frame on a
    registered channel goes to that channel; an unregistered id or a frame that
    is not a method frame is fatal.
   */
  function Route(registered: set<i16>, next: Result<AmqFrame>): (step: Routing)
    ensures step.Stop? <==> next.Failure?
    ensures step.Deliver? <==> next.Success? && next.value.MethodFrame? && next.value.chan in registered
    ensures step.Deliver? ==> step.frame == next.value
    ensures step.Abort? && next.value.MethodFrame? ==> step.reason == UnknownChannel(next.value.chan)
    ensures step.Abort? && !next.value.MethodFrame? ==> step.reason == UnsupportedFrame
  {
    match next
    case Failure(_) => Stop
    case Success(f) =>
      if !f.MethodFrame? then Abort(UnsupportedFrame)
      else if f.chan !in registered then Abort(UnknownChannel(f.chan))
      else Deliver(f)
  }

  /** The listener loop over the frames still to be read, as a function of the stream state. */
  function ListenSpec(registered: set<i16>, s: StreamState): (Listened, StreamState)
    decreases |s.inbound|
  {
    var (next, s') := ReadFrame(s);
    match Route(registered, next)
    case Stop => (Listened([], ReadError), s')
    case Abort(c) => (Listened([], Crashed(c)), s')
    case Deliver(f) =>
      var handled := HandleFrame(f.payload);
      if handled.Fail? then (Listened([], Crashed(Rejected(handled.error))), s')
      else
        var (rest, s'') := ListenSpec(registered, s');
        (Listened([f] + rest.handled, rest.end), s'')
  }

  class AmqConnection {
    const options: ConnectionOpts
    const stream: AmqpStream
    var channels: map<i16, AmqChannel>
    var listening: bool

    /** `new`: the stream stands for the connection to `host:port`. */
    constructor (host: string, port: u16, login: string, password: string, vhost: string, stream: AmqpStream)
      ensures options == ConnectionOpts(host, port, login, password, vhost)
      ensures this.stream == stream && channels == map[] && !listening
    {
      options := ConnectionOpts(host, port, login, password, vhost);
      this.stream := stream;
      channels := map[];
      listening := false;
    }

    /** `connect`: the negotiation, then the listener, and the listener only on success. */
    method Connect() returns (r: Outcome)
      modifies this`listening, stream
      ensures (r, stream.State()) == Handshake.Run(Negotiation(options), old(stream.State()))
      ensures listening <==> old(listening) || r.Ok?
    {
      r := Handshake.Perform(stream, Negotiation(options));
      if r.Fail? { return; }
      StartListener();
    }

    method StartListener()
      modifies this`listening
      ensures listening
    {
      listening := true;
    }

    /**
      `create_channel`: the channel built for the allocated id is registered
      under that id before it is opened; an error of `open` is returned and the
      entry stays.
     */
    method CreateChannel(newId: i16, reply: Outcome) returns (r: Result<AmqChannel>)
      modifies this`channels, stream
      ensures newId in channels
      ensures var chan := channels[newId];
              && fresh(chan) && chan.id == newId && chan.stream == stream && chan.active
              && channels == old(channels)[newId := chan]
              && (r.Success? ==> r.value == chan)
      ensures var (openResult, s') := OpenSpec(newId, old(stream.State()), reply);
              && stream.State() == s'
              && (r.Success? <==> openResult.Ok?)
              && (r.Failure? ==> r.error == openResult.error)
    {
      var chan := new AmqChannel(newId, stream);
      channels := channels[chan.id := chan];
      var openResult := chan.Open(reply);
      if openResult.Fail? {
        return Failure(openResult.error);
      }
      r := Success(chan);
    }

    /** The body of the listener thread: route frames until a read fails or a frame is fatal. */
    method Listen() returns (handled: seq<AmqFrame>, end: ListenEnd)
      requires listening
      modifies stream
      ensures (Listened(handled, end), stream.State()) == ListenSpec(channels.Keys, old(stream.State()))
    {
      handled := [];
      while true
        invariant var (all, last) := ListenSpec(channels.Keys, old(stream.State()));
                  var (rest, last') := ListenSpec(channels.Keys, stream.State());
                  all == Listened(handled + rest.handled, rest.end) && last == last'
        decreases |stream.inbound|
      {
        ghost var before := stream.State();
        assert handled + [] == handled;
        var next := stream.NextFrame();
        match Route(channels.Keys, next)
        case Stop =>
          assert ListenSpec(channels.Keys, before) == (Listened([], ReadError), stream.State());
          end := ReadError;
          return;
        case Abort(c) =>
          assert ListenSpec(channels.Keys, before) == (Listened([], Crashed(c)), stream.State());
          end := Crashed(c);
          return;
        case Deliver(f) =>
          var outcome := HandleFrame(f.payload);
          if outcome.Fail? {
            assert ListenSpec(channels.Keys, before) == (Listened([], Crashed(Rejected(outcome.error))), stream.State());
            end := Crashed(Rejected(outcome.error));
            return;
          }
          assert handled + ([f] + ListenSpec(channels.Keys, stream.State()).0.handled)
              == (handled + [f]) + ListenSpec(channels.Keys, stream.State()).0.handled;
          handled := handled + [f];
      }
    }
  }

  // ---------------------------------------------------------------------
  // Properties of the listener.
  // ---------------------------------------------------------------------

  /**
    A listener run reads only, and reads the script in order: the frames it
    handles are exactly the first frames of the script, each a `ChanOpenOk`
    method frame on a registered channel; it consumes one more read after them
    unless the script ran out; it ends with `ReadError` exactly when the next
    read failed or the script ran out (how a crash happens is stated by
    `ListenCrashesOnlyOnFatalFrame`).
   */
  lemma {:induction false} ListenReadsInOrder(registered: set<i16>, s: StreamState)
    ensures var (l, s') := ListenSpec(registered, s);
            && s'.log == s.log && s'.failingSends == s.failingSends
            && |l.handled| <= |s.inbound|
            && (forall i :: 0 <= i < |l.handled| ==>
                  && s.inbound[i] == Arrives(l.handled[i])
                  && l.handled[i].MethodFrame?
                  && l.handled[i].chan in registered
                  && l.handled[i].payload.ChanOpenOk?)
            && (|l.handled| == |s.inbound| ==> s'.inbound == [] && l.end == ReadError)
            && (|l.handled| < |s.inbound| ==>
                  && s'.inbound == s.inbound[|l.handled| + 1..]
                  && (l.end == ReadError <==> s.inbound[|l.handled|] == ReadFails))
    decreases |s.inbound|
  {
    var (next, s1) := ReadFrame(s);
    match Route(registered, next)
    case Stop =>
    case Abort(c) =>
    case Deliver(f) =>
      if HandleFrame(f.payload).Ok? {
        ListenReadsInOrder(registered, s1);
        var (l, s') := ListenSpec(registered, s);
        var (rest, s'') := ListenSpec(registered, s1);
        assert l.handled == [f] + rest.handled;
        forall i | 0 <= i < |l.handled|
          ensures s.inbound[i] == Arrives(l.handled[i])
        {
          if i > 0 {
            assert s.inbound[i] == s1.inbound[i - 1];
          }
        }
        if |l.handled| < |s.inbound| {
          assert s1.inbound[|rest.handled| + 1..] == s.inbound[|l.handled| + 1..];
        }
      }
  }

  /**
    A listener run crashes only on a frame that is fatal: the read after the
    handled frames delivered a frame, and the reason names it. A frame that is
    not a method frame is `UnsupportedFrame`; a method frame on an unregistered
    id is `UnknownChannel` of that id; a method frame on a registered id is the
    channel's rejection of that method, which is never `ChanOpenOk`.
   */
  lemma {:induction false} ListenCrashesOnlyOnFatalFrame(registered: set<i16>, s: StreamState)
    ensures var (l, s') := ListenSpec(registered, s);
            l.end.Crashed? ==>
              && |l.handled| < |s.inbound|
              && s.inbound[|l.handled|].Arrives?
              && var f := s.inbound[|l.handled|].frame;
                 && (!f.MethodFrame? ==> l.end.reason == UnsupportedFrame)
                 && (f.MethodFrame? && f.chan !in registered ==> l.end.reason == UnknownChannel(f.chan))
                 && (f.MethodFrame? && f.chan in registered ==>
                       !f.payload.ChanOpenOk? && l.end.reason == Rejected(UnknownMethod(f.payload)))
    decreases |s.inbound|
  {
    var (next, s1) := ReadFrame(s);
    match Route(registered, next)
    case Stop =>
    case Abort(c) =>
    case Deliver(f) =>
      if HandleFrame(f.payload).Ok? {
        ListenCrashesOnlyOnFatalFrame(registered, s1);
        var (l, s') := ListenSpec(registered, s);
        var (rest, s'') := ListenSpec(registered, s1);
        assert l.handled == [f] + rest.handled && l.end == rest.end;
        if l.end.Crashed? {
          assert s.inbound[|l.handled|] == s1.inbound[|rest.handled|];
        }
      }
  }

  /** A frame for a channel that is not registered kills the listener when it is read. */
  lemma UnregisteredChannelIsFatal(registered: set<i16>, s: StreamState, chan: i16, m: Method)
    requires s.inbound != [] && s.inbound[0] == Arrives(MethodFrame(chan, m))
    requires chan !in registered
    ensures ListenSpec(registered, s).0 == Listened([], Crashed(UnknownChannel(chan)))
  {
  }

  // ---------------------------------------------------------------------
  // Properties of `connect`.
  // ---------------------------------------------------------------------

  /**
    The `StartOk` that `connect` sends carries the PLAIN message
    NUL login NUL password, from which login and password can be read back.
   */
  lemma ConnectSendsCredentials(options: ConnectionOpts, s: StreamState)
    requires Handshake.NUL !in options.login && Handshake.NUL !in options.password
    ensures var (r, s') := Handshake.Run(Negotiation(options), s);
            |s'.log| > |s.log| + 1 ==>
              && s'.log[|s.log| + 1].Invoked?
              && s'.log[|s.log| + 1].chan == 0
              && s'.log[|s.log| + 1].payload.ConnStartOk?
              && s'.log[|s.log| + 1].payload.mechanism == "PLAIN"
              && Handshake.ParsePlain(s'.log[|s.log| + 1].payload.response) == Some((options.login, options.password))
  {
    Handshake.StartOkShape(Negotiation(options), s);
    Handshake.PlainRoundTrip(options.login, options.password);
  }

  /**
    Once `Open` has gone out, `connect` succeeds exactly when the third method
    received is `OpenOk`; on success it has sent exactly the header, `StartOk`,
    `TuneOk` and `Open{vhost}`, and consumed exactly three frames.
   */
  lemma ConnectSucceedsIffOpenOk(options: ConnectionOpts, s: StreamState)
    ensures var (r, s') := Handshake.Run(Negotiation(options), s);
            && (|s'.log| == |s.log| + 4 ==>
                  (r.Ok? <==> Handshake.IsMethod(s.inbound, 2, (m: Method) => m.ConnOpenOk?)))
            && (r.Ok? ==>
                  && Handshake.IsMethod(s.inbound, 1, (m: Method) => m.ConnTune?)
                  && s'.log == s.log + [Raw(Handshake.PROTOCOL_HEADER),
                                        Invoked(0, Handshake.StartOk(Handshake.PlainResponse(options.login, options.password))),
                                        Invoked(0, Handshake.TuneOk(MethodAt(s.inbound, 1).value)),
                                        Invoked(0, ConnOpen(options.vhost))]
                  && s'.inbound == s.inbound[3..])
  {
    Handshake.SucceedsExactly(Negotiation(options), s);
    Handshake.OpenFollowsTuneOk(Negotiation(options), s);
  }
}
