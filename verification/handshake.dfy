/**
  The connection negotiation of AMQP 0-9-1 (section 2.2.4 of the AMQP 0-9-1
  specification, "The Connection Class"), as both connection types of the
  client drive it on channel 0:

    header -> Start? -> StartOk -> Tune? -> TuneOk -> Open -> [OpenOk?]

  One machine serves both: a `Config` fixes the PLAIN response, the vhost and
  whether the final `OpenOk` is awaited. `Run` is the machine as a function of
  the transport state; `Perform` drives a real `AmqpStream` step by step and is
  proved to behave exactly as `Run`.
 */
module Handshake {
  import opened Stream

  /** "AMQP" 0 0 9 1: the protocol header of section 4.2.2 of AMQP 0-9-1. */
  const PROTOCOL_HEADER: seq<u8> := [65, 77, 81, 80, 0, 0, 9, 1]

  /** The keys of the client-properties table sent in `StartOk`. */
  const CLIENT_PROPERTY_KEYS: set<string> := {"product", "platform", "copyright", "information"}

  const NUL: char := 0 as char

  datatype Config = Config(response: string, vhost: string, awaitOpenOk: bool)

  /** The PLAIN message of section 2 of RFC 4616 with an empty authorization identity. */
  function PlainResponse(login: string, password: string): string
  {
    [NUL] + login + [NUL] + password
  }

  function StartOk(response: string): Method
  {
    ConnStartOk(CLIENT_PROPERTY_KEYS, "PLAIN", response, "en_US")
  }

  /** The reply to a `Tune`: the broker's proposal echoed unchanged. */
  function TuneOk(tune: Method): (m: Method)
    requires tune.ConnTune?
    ensures m.ConnTuneOk?
    ensures m.chanMax == tune.chanMax && m.frameMax == tune.frameMax && m.heartbeat == tune.heartbeat
  {
    ConnTuneOk(tune.chanMax, tune.frameMax, tune.heartbeat)
  }

  /** The four items a successful negotiation sends, in order. */
  function Transcript(cfg: Config, tune: Method): seq<Outbound>
    requires tune.ConnTune?
  {
    [Raw(PROTOCOL_HEADER), Invoked(0, StartOk(cfg.response)), Invoked(0, TuneOk(tune)), Invoked(0, ConnOpen(cfg.vhost))]
  }

  /** The negotiation as a function of the transport state it starts from. */
  function Run(cfg: Config, s: StreamState): (Outcome, StreamState)
  {
    var (sent, s1) := Write(s, Raw(PROTOCOL_HEADER));
    if sent.Fail? then (sent, s1) else
    var (start, s2) := ReadMethodFrame(s1);
    if start.Failure? then (Fail(start.error), s2)
    else if !start.value.payload.ConnStart? then (Fail(UnexpectedMethod("ConnStart")), s2)
    else
    var (sent, s3) := Write(s2, Invoked(0, StartOk(cfg.response)));
    if sent.Fail? then (sent, s3) else
    var (tune, s4) := ReadMethodFrame(s3);
    if tune.Failure? then (Fail(tune.error), s4)
    else if !tune.value.payload.ConnTune? then (Fail(UnexpectedMethod("ConnTune")), s4)
    else
    var (sent, s5) := Write(s4, Invoked(0, TuneOk(tune.value.payload)));
    if sent.Fail? then (sent, s5) else
    var (sent, s6) := Write(s5, Invoked(0, ConnOpen(cfg.vhost)));
    if sent.Fail? || !cfg.awaitOpenOk then (sent, s6) else
    var (openOk, s7) := ReadMethodFrame(s6);
    if openOk.Failure? then (Fail(openOk.error), s7)
    else if !openOk.value.payload.ConnOpenOk? then (Fail(UnexpectedMethod("ConnOpenOk")), s7)
    else (Ok, s7)
  }

  /** The negotiation over a live stream, one blocking step at a time. */
  method Perform(stream: AmqpStream, cfg: Config) returns (r: Outcome)
    modifies stream
    ensures (r, stream.State()) == Run(cfg, old(stream.State()))
  {
    r := stream.SendRaw(PROTOCOL_HEADER);
    if r.Fail? { return; }

    var start := stream.NextMethodFrame();
    if start.Failure? { return Fail(start.error); }
    if !start.value.payload.ConnStart? { return Fail(UnexpectedMethod("ConnStart")); }

    r := stream.Invoke(0, StartOk(cfg.response));
    if r.Fail? { return; }

    var tune := stream.NextMethodFrame();
    if tune.Failure? { return Fail(tune.error); }
    if !tune.value.payload.ConnTune? { return Fail(UnexpectedMethod("ConnTune")); }

    r := stream.Invoke(0, TuneOk(tune.value.payload));
    if r.Fail? { return; }

    r := stream.Invoke(0, ConnOpen(cfg.vhost));
    if r.Fail? || !cfg.awaitOpenOk { return; }

    var openOk := stream.NextMethodFrame();
    if openOk.Failure? { return Fail(openOk.error); }
    if !openOk.value.payload.ConnOpenOk? { return Fail(UnexpectedMethod("ConnOpenOk")); }
    r := Ok;
  }

  /** No send attempt among the next `n` is scripted to fail. */
  predicate SendsSucceed(s: StreamState, n: nat)
  {
    forall i :: |s.log| <= i < |s.log| + n ==> i !in s.failingSends
  }

  predicate IsMethod(inbound: seq<Read>, i: nat, kind: Method -> bool)
  {
    MethodAt(inbound, i).Some? && kind(MethodAt(inbound, i).value)
  }

  // ---------------------------------------------------------------------
  // Properties of the machine, for every configuration.
  // ---------------------------------------------------------------------

  /** Nothing is sent before the header; if the header is lost, nothing is sent at all. */
  lemma HeaderComesFirst(cfg: Config, s: StreamState)
    ensures var (r, s') := Run(cfg, s);
            && |s.log| <= |s'.log| && s'.log[..|s.log|] == s.log
            && (|s'.log| == |s.log| <==> |s.log| in s.failingSends)
            && (|s'.log| == |s.log| ==> r == Fail(IoError))
            && (|s'.log| > |s.log| ==> s'.log[|s.log|] == Raw(PROTOCOL_HEADER))
  {
  }

  /** Without a `Start` first, the negotiation fails having sent only the header. */
  lemma StartIsRequired(cfg: Config, s: StreamState)
    requires |s.log| !in s.failingSends
    requires !IsMethod(s.inbound, 0, (m: Method) => m.ConnStart?)
    ensures var (r, s') := Run(cfg, s);
            && r.Fail?
            && s'.log == s.log + [Raw(PROTOCOL_HEADER)]
            && (MethodAt(s.inbound, 0).Some? ==> r.error == UnexpectedMethod("ConnStart"))
  {
  }

  /** Whenever a second item is sent, it is `StartOk` on channel 0, sent after a `Start`. */
  lemma StartOkShape(cfg: Config, s: StreamState)
    ensures var (r, s') := Run(cfg, s);
            |s'.log| > |s.log| + 1 ==>
              && IsMethod(s.inbound, 0, (m: Method) => m.ConnStart?)
              && s'.log[|s.log| + 1] == Invoked(0, ConnStartOk(CLIENT_PROPERTY_KEYS, "PLAIN", cfg.response, "en_US"))
  {
  }

  /** Without a `Tune` second, the negotiation fails after `StartOk`, sending no `TuneOk` and no `Open`. */
  lemma TuneIsRequired(cfg: Config, s: StreamState)
    requires SendsSucceed(s, 2)
    requires IsMethod(s.inbound, 0, (m: Method) => m.ConnStart?)
    requires !IsMethod(s.inbound, 1, (m: Method) => m.ConnTune?)
    ensures var (r, s') := Run(cfg, s);
            && r.Fail?
            && s'.log == s.log + [Raw(PROTOCOL_HEADER), Invoked(0, StartOk(cfg.response))]
            && (MethodAt(s.inbound, 1).Some? ==> r.error == UnexpectedMethod("ConnTune"))
  {
    assert |s.log| + 0 !in s.failingSends && |s.log| + 1 !in s.failingSends;
  }

  /** Whenever a third item is sent, it is `TuneOk` on channel 0 echoing the broker's `Tune`. */
  lemma TuneOkEchoesTune(cfg: Config, s: StreamState)
    ensures var (r, s') := Run(cfg, s);
            |s'.log| > |s.log| + 2 ==>
              && IsMethod(s.inbound, 1, (m: Method) => m.ConnTune?)
              && var tune := MethodAt(s.inbound, 1).value;
                 s'.log[|s.log| + 2] == Invoked(0, ConnTuneOk(tune.chanMax, tune.frameMax, tune.heartbeat))
  {
  }

  /**
    At most four items are sent, and a fourth is `Open` with the configured
    vhost on channel 0. Every run, however it ends, reads a prefix of the
    script of at most two frames, or three when `OpenOk` is awaited.
   */
  lemma OpenFollowsTuneOk(cfg: Config, s: StreamState)
    ensures var (r, s') := Run(cfg, s);
            && |s'.log| <= |s.log| + 4
            && (|s'.log| == |s.log| + 4 ==> s'.log[|s.log| + 3] == Invoked(0, ConnOpen(cfg.vhost)))
            && |s'.inbound| <= |s.inbound|
            && |s'.inbound| >= |s.inbound| - (if cfg.awaitOpenOk then 3 else 2)
            && s'.inbound == s.inbound[|s.inbound| - |s'.inbound|..]
  {
  }

  /**
    `Open` goes out before the third read: a run that awaits `OpenOk` sends
    exactly what a run without the wait sends, and is that run followed by one
    more read, which decides the outcome.
   */
  lemma OpenSentBeforeThirdRead(cfg: Config, s: StreamState)
    requires cfg.awaitOpenOk
    ensures var (r0, s0) := Run(cfg.(awaitOpenOk := false), s);
            var (r, s') := Run(cfg, s);
            && s'.log == s0.log
            && (r0.Fail? ==> r == r0 && s' == s0)
            && (r0.Ok? ==>
                  var (openOk, s1) := ReadMethodFrame(s0);
                  && s' == s1
                  && (r.Ok? <==> openOk.Success? && openOk.value.payload.ConnOpenOk?))
  {
  }

  /** The `i`-th read is lost: the script has run out, or the read fails. */
  predicate ReadIsLost(inbound: seq<Read>, i: nat)
  {
    i >= |inbound| || inbound[i] == ReadFails
  }

  /** The `i`-th read delivers a frame that is not a method frame. */
  predicate NotAMethodAt(inbound: seq<Read>, i: nat)
  {
    i < |inbound| && inbound[i].Arrives? && !inbound[i].frame.MethodFrame?
  }

  /**
    A read that the negotiation reaches and that fails is reported as the
    transport's error, not as a wrong method: a lost read is `IoError`, a frame
    that is not a method frame is `NotAMethodFrame`. The log then holds exactly
    what was sent before that read.
   */
  lemma ReadFailuresAreTransportErrors(cfg: Config, s: StreamState)
    ensures var (r, s') := Run(cfg, s);
            && (SendsSucceed(s, 1) ==>
                  && (ReadIsLost(s.inbound, 0) ==> r == Fail(IoError))
                  && (NotAMethodAt(s.inbound, 0) ==> r == Fail(NotAMethodFrame))
                  && (ReadIsLost(s.inbound, 0) || NotAMethodAt(s.inbound, 0) ==>
                        s'.log == s.log + [Raw(PROTOCOL_HEADER)]))
            && (SendsSucceed(s, 2) && IsMethod(s.inbound, 0, (m: Method) => m.ConnStart?) ==>
                  && (ReadIsLost(s.inbound, 1) ==> r == Fail(IoError))
                  && (NotAMethodAt(s.inbound, 1) ==> r == Fail(NotAMethodFrame))
                  && (ReadIsLost(s.inbound, 1) || NotAMethodAt(s.inbound, 1) ==>
                        s'.log == s.log + [Raw(PROTOCOL_HEADER), Invoked(0, StartOk(cfg.response))]))
            && (cfg.awaitOpenOk && SendsSucceed(s, 4)
                && IsMethod(s.inbound, 0, (m: Method) => m.ConnStart?)
                && IsMethod(s.inbound, 1, (m: Method) => m.ConnTune?) ==>
                  && (ReadIsLost(s.inbound, 2) ==> r == Fail(IoError))
                  && (NotAMethodAt(s.inbound, 2) ==> r == Fail(NotAMethodFrame))
                  && (ReadIsLost(s.inbound, 2) || NotAMethodAt(s.inbound, 2) ==>
                        s'.log == s.log + Transcript(cfg, MethodAt(s.inbound, 1).value)))
  {
    if SendsSucceed(s, 1) {
      assert |s.log| + 0 !in s.failingSends;
    }
    if SendsSucceed(s, 2) {
      assert |s.log| + 1 !in s.failingSends;
    }
    if SendsSucceed(s, 4) {
      assert |s.log| + 2 !in s.failingSends && |s.log| + 3 !in s.failingSends;
    }
  }

  /**
    A send after the header that fails is reported as the transport's error
    (`IoError`): the item is not logged, nothing after it is sent, and the
    reads made so far, and no others, are consumed.
   */
  lemma SendFailuresAreTransportErrors(cfg: Config, s: StreamState)
    ensures var (r, s') := Run(cfg, s);
            && (SendsSucceed(s, 1) && IsMethod(s.inbound, 0, (m: Method) => m.ConnStart?)
                && |s.log| + 1 in s.failingSends ==>
                  && r == Fail(IoError)
                  && s'.log == s.log + [Raw(PROTOCOL_HEADER)]
                  && s'.inbound == s.inbound[1..])
            && (SendsSucceed(s, 2) && IsMethod(s.inbound, 0, (m: Method) => m.ConnStart?)
                && IsMethod(s.inbound, 1, (m: Method) => m.ConnTune?)
                && |s.log| + 2 in s.failingSends ==>
                  && r == Fail(IoError)
                  && s'.log == s.log + [Raw(PROTOCOL_HEADER), Invoked(0, StartOk(cfg.response))]
                  && s'.inbound == s.inbound[2..])
            && (SendsSucceed(s, 3) && IsMethod(s.inbound, 0, (m: Method) => m.ConnStart?)
                && IsMethod(s.inbound, 1, (m: Method) => m.ConnTune?)
                && |s.log| + 3 in s.failingSends ==>
                  && r == Fail(IoError)
                  && s'.log == s.log + Transcript(cfg, MethodAt(s.inbound, 1).value)[..3]
                  && s'.inbound == s.inbound[2..])
  {
    if SendsSucceed(s, 1) {
      assert |s.log| + 0 !in s.failingSends;
    }
    if SendsSucceed(s, 2) {
      assert |s.log| + 1 !in s.failingSends;
    }
    if SendsSucceed(s, 3) {
      assert |s.log| + 2 !in s.failingSends;
    }
  }

  /**
    The negotiation succeeds exactly when all four sends go through and the
    broker answers `Start`, `Tune` and (when awaited) `OpenOk`; it then has sent
    exactly the transcript and consumed exactly those replies.
   */
  lemma SucceedsExactly(cfg: Config, s: StreamState)
    ensures var (r, s') := Run(cfg, s);
            && (r.Ok? <==>
                  && SendsSucceed(s, 4)
                  && IsMethod(s.inbound, 0, (m: Method) => m.ConnStart?)
                  && IsMethod(s.inbound, 1, (m: Method) => m.ConnTune?)
                  && (cfg.awaitOpenOk ==> IsMethod(s.inbound, 2, (m: Method) => m.ConnOpenOk?)))
            && (r.Ok? ==>
                  && s'.log == s.log + Transcript(cfg, MethodAt(s.inbound, 1).value)
                  && s'.inbound == s.inbound[(if cfg.awaitOpenOk then 3 else 2)..])
  {
    var (r, s') := Run(cfg, s);
    if SendsSucceed(s, 4) {
      assert |s.log| + 0 !in s.failingSends && |s.log| + 1 !in s.failingSends;
      assert |s.log| + 2 !in s.failingSends && |s.log| + 3 !in s.failingSends;
    }
  }

  // ---------------------------------------------------------------------
  // The PLAIN response and its meaning.
  // ---------------------------------------------------------------------

  /** The index of the first NUL of `s`, or `|s|` when there is none. */
  function FirstNul(s: string): (k: nat)
    ensures k <= |s|
    ensures forall i :: 0 <= i < k ==> s[i] != NUL
    ensures k < |s| ==> s[k] == NUL
  {
    if s == [] || s[0] == NUL then 0 else 1 + FirstNul(s[1..])
  }

  /**
    Reads a PLAIN message with an empty authorization identity back into the
    authentication identity and the password (section 2 of RFC 4616).
   */
  function ParsePlain(message: string): Option<(string, string)>
  {
    if message == [] || message[0] != NUL then None
    else
      var rest := message[1..];
      var k := FirstNul(rest);
      if k == |rest| || NUL in rest[k + 1..] then None
      else Some((rest[..k], rest[k + 1..]))
  }

  /** The response built for `StartOk` carries login and password recoverably. */
  lemma PlainRoundTrip(login: string, password: string)
    requires NUL !in login && NUL !in password
    ensures ParsePlain(PlainResponse(login, password)) == Some((login, password))
  {
    var rest := login + [NUL] + password;
    assert PlainResponse(login, password)[1..] == rest;
    var k := FirstNul(rest);
    assert rest[|login|] == NUL;
    assert k == |login|;
    assert rest[..k] == login;
    assert rest[k + 1..] == password;
  }
}
