/**
  The draft connection: the same negotiation machine, but with a fixed PLAIN
  response for user "user" and password "password", a fixed vhost "my_vhost",
  and no wait for `OpenOk`. It hands the host, port and credentials it is
  given to its stream and never uses the credentials in the negotiation. Here
  the stream is a separate parameter, and `options` records what is handed.
 */
module DraftConnection {
  import opened Stream
  import Handshake
  import Protocol

  /** The response string written literally in the draft: NUL "user" NUL "password". */
  const DRAFT_RESPONSE: string := "\0user\0password"

  const DRAFT_VHOST: string := "my_vhost"

  /** The negotiation the draft runs, whatever it was constructed with. */
  function Negotiation(): Handshake.Config
  {
    Handshake.Config(DRAFT_RESPONSE, DRAFT_VHOST, false)
  }

  /** The options the draft hands to its stream; there is no vhost among them. */
  datatype ConnectionOpts = ConnectionOpts(host: string, port: u16, login: string, password: string)

  /** How the draft reports an unexpected method (the message of its `bail!`). */
  function BailMessage(e: Error): string
    requires e.UnexpectedMethod?
  {
    "Expected " + e.expected + " method"
  }

  class Connection {
    const options: ConnectionOpts
    const stream: AmqpStream

    constructor (host: string, port: u16, login: string, password: string, stream: AmqpStream)
      ensures options == ConnectionOpts(host, port, login, password) && this.stream == stream
    {
      options := ConnectionOpts(host, port, login, password);
      this.stream := stream;
    }

    /** `connect`: the negotiation with the draft's fixed values; the outcome does not depend on `options`. */
    method Connect() returns (r: Outcome)
      modifies stream
      ensures (r, stream.State()) == Handshake.Run(Negotiation(), old(stream.State()))
    {
      r := Handshake.Perform(stream, Negotiation());
    }
  }

  // ---------------------------------------------------------------------
  // Properties of the draft `connect`.
  // ---------------------------------------------------------------------

  /** The literal response is the PLAIN message for "user" and "password", and reads back as such. */
  lemma DraftResponseIsFixedPlain()
    ensures DRAFT_RESPONSE == Handshake.PlainResponse("user", "password")
    ensures Handshake.ParsePlain(DRAFT_RESPONSE) == Some(("user", "password"))
  {
    Handshake.PlainRoundTrip("user", "password");
  }

  /** Without `ConnStart` first, the draft fails with "Expected ConnStart method" having sent only the header. */
  lemma DraftRejectsMissingStart(s: StreamState)
    requires |s.log| !in s.failingSends
    requires MethodAt(s.inbound, 0).Some? && !MethodAt(s.inbound, 0).value.ConnStart?
    ensures var (r, s') := Handshake.Run(Negotiation(), s);
            && r.Fail? && r.error.UnexpectedMethod?
            && BailMessage(r.error) == "Expected ConnStart method"
            && s'.log == s.log + [Raw([65, 77, 81, 80, 0, 0, 9, 1])]
  {
    Handshake.StartIsRequired(Negotiation(), s);
  }

  /** Without `ConnTune` second, the draft fails with "Expected ConnTune method"; no `TuneOk` or `Open` is sent. */
  lemma DraftRejectsMissingTune(s: StreamState)
    requires Handshake.SendsSucceed(s, 2)
    requires Handshake.IsMethod(s.inbound, 0, (m: Method) => m.ConnStart?)
    requires MethodAt(s.inbound, 1).Some? && !MethodAt(s.inbound, 1).value.ConnTune?
    ensures var (r, s') := Handshake.Run(Negotiation(), s);
            && r.Fail? && r.error.UnexpectedMethod?
            && BailMessage(r.error) == "Expected ConnTune method"
            && s'.log == s.log + [Raw(Handshake.PROTOCOL_HEADER), Invoked(0, Handshake.StartOk(DRAFT_RESPONSE))]
  {
    Handshake.TuneIsRequired(Negotiation(), s);
  }

  /**
    The draft succeeds right after sending `Open{"my_vhost"}`: exactly when the
    four sends go through and the broker answers `ConnStart` then `ConnTune`.
    It then has read exactly two frames, and sent the header, `StartOk` with the
    fixed response, `TuneOk` echoing the `Tune`, and `Open`.
   */
  lemma DraftSucceedsAfterTwoReads(s: StreamState)
    ensures var (r, s') := Handshake.Run(Negotiation(), s);
            && (r.Ok? <==>
                  && Handshake.SendsSucceed(s, 4)
                  && Handshake.IsMethod(s.inbound, 0, (m: Method) => m.ConnStart?)
                  && Handshake.IsMethod(s.inbound, 1, (m: Method) => m.ConnTune?))
            && (r.Ok? ==>
                  var tune := MethodAt(s.inbound, 1).value;
                  && s'.inbound == s.inbound[2..]
                  && s'.log == s.log + [Raw(Handshake.PROTOCOL_HEADER),
                                        Invoked(0, ConnStartOk(Handshake.CLIENT_PROPERTY_KEYS, "PLAIN", DRAFT_RESPONSE, "en_US")),
                                        Invoked(0, ConnTuneOk(tune.chanMax, tune.frameMax, tune.heartbeat)),
                                        Invoked(0, ConnOpen("my_vhost"))])
  {
    Handshake.SucceedsExactly(Negotiation(), s);
  }

  /**
    Compared with the complete connection configured as the draft's literals
    (login "user", password "password", vhost "my_vhost"), the draft sends the
    same items on every script; it succeeds whenever the complete one does, and
    it also succeeds on scripts where the broker never sends `OpenOk`.
   */
  lemma DraftAgreesWithComplete(options: Protocol.ConnectionOpts, s: StreamState)
    requires options.login == "user" && options.password == "password" && options.vhost == "my_vhost"
    ensures var (draft, d') := Handshake.Run(Negotiation(), s);
            var (complete, c') := Handshake.Run(Protocol.Negotiation(options), s);
            && d'.log == c'.log
            && (complete.Ok? ==> draft.Ok?)
            && (draft.Ok? ==> (complete.Ok? <==> Handshake.IsMethod(s.inbound, 2, (m: Method) => m.ConnOpenOk?)))
  {
    DraftResponseIsFixedPlain();
    var cfg := Protocol.Negotiation(options);
    assert cfg.(awaitOpenOk := false) == Negotiation();
    Handshake.OpenSentBeforeThirdRead(cfg, s);
    var (draft, d') := Handshake.Run(Negotiation(), s);
    if draft.Ok? {
      Handshake.SucceedsExactly(Negotiation(), s);
      ReadMethodFrameMeetsScript(d');
      assert MethodAt(d'.inbound, 0) == MethodAt(s.inbound, 2);
    }
  }
}
