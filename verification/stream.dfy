/**
  The wire vocabulary of the AMQP 0-9-1 client and a scripted stand-in for its
  transport (`AmqpStream`). The byte-level frame codec and the socket are not
  modelled: what the broker sends is a script of reads, and what the client
  sends is an append-only log of tagged items.
 */
module Stream {

  type u8 = x: int | 0 <= x < 0x100
  type u16 = x: int | 0 <= x < 0x1_0000
  type u32 = x: int | 0 <= x < 0x1_0000_0000
  /** Channel ids are `i16` in the Rust client. */
  type i16 = x: int | -0x8000 <= x < 0x8000

  datatype Option<T> = None | Some(value: T)

  /** The method payloads the core sends or inspects. */
  datatype Method =
    | ConnStart
    | ConnStartOk(properties: set<string>, mechanism: string, response: string, locale: string)
    | ConnTune(chanMax: u16, frameMax: u32, heartbeat: u16)
    | ConnTuneOk(chanMax: u16, frameMax: u32, heartbeat: u16)
    | ConnOpen(vhost: string)
    | ConnOpenOk
    | ChanOpen
    | ChanOpenOk
    | ChanFlow(active: u8)
    | ChanFlowOk(active: u8)
    | OtherMethod(classId: u16, methodId: u16)

  /** An inbound frame as the codec delivers it. */
  datatype AmqFrame =
    | MethodFrame(chan: i16, payload: Method)
    | ContentHeader(chan: i16)
    | ContentBody(chan: i16)
    | Heartbeat

  /** One entry of the broker script: a frame arrives, or the read fails. */
  datatype Read = Arrives(frame: AmqFrame) | ReadFails

  /** One entry of the outbound log: raw bytes, or a method invoked on a channel. */
  datatype Outbound = Raw(bytes: seq<u8>) | Invoked(chan: i16, payload: Method)

  datatype Error =
    | IoError
    | NotAMethodFrame
    | UnexpectedMethod(expected: string)
    | UnknownMethod(payload: Method)

  datatype Outcome = Ok | Fail(error: Error)

  datatype Result<T> = Success(value: T) | Failure(error: Error)

  /** The whole observable state of the transport, as a value. */
  datatype StreamState = StreamState(inbound: seq<Read>, log: seq<Outbound>, failingSends: set<nat>)

  /** Sending one item: it fails when the script says the item at this log position is lost. */
  function Write(s: StreamState, item: Outbound): (Outcome, StreamState)
  {
    if |s.log| in s.failingSends then (Fail(IoError), s)
    else (Ok, s.(log := s.log + [item]))
  }

  /** Reading one frame; an exhausted script reads as end of stream. */
  function ReadFrame(s: StreamState): (r: (Result<AmqFrame>, StreamState))
    ensures r.0.Success? ==> s.inbound != [] && r.1.inbound == s.inbound[1..]
  {
    if s.inbound == [] then (Failure(IoError), s)
    else
      var next := match s.inbound[0]
        case Arrives(f) => Success(f)
        case ReadFails => Failure(IoError);
      (next, s.(inbound := s.inbound[1..]))
  }

  /** Reading one frame that must be a method frame. */
  function ReadMethodFrame(s: StreamState): (Result<AmqFrame>, StreamState)
  {
    var (next, s') := ReadFrame(s);
    if next.Success? && !next.value.MethodFrame? then (Failure(NotAMethodFrame), s')
    else (next, s')
  }

  /** The method of the `i`-th scripted read, when that read delivers a method frame. */
  function MethodAt(inbound: seq<Read>, i: nat): Option<Method>
  {
    if i < |inbound| && inbound[i].Arrives? && inbound[i].frame.MethodFrame?
    then Some(inbound[i].frame.payload)
    else None
  }

  /** Reading a method frame is reading the next scripted read, which must deliver a method frame. */
  lemma ReadMethodFrameMeetsScript(s: StreamState)
    ensures var (r, s') := ReadMethodFrame(s);
            && (r.Success? <==> MethodAt(s.inbound, 0).Some?)
            && (r.Success? ==> r.value.payload == MethodAt(s.inbound, 0).value)
            && s'.log == s.log && s'.failingSends == s.failingSends
            && s'.inbound == if s.inbound == [] then [] else s.inbound[1..]
  {
  }

  /** The shared transport. Its fields are the script and the log. */
  class AmqpStream {
    var inbound: seq<Read>
    var log: seq<Outbound>
    const failingSends: set<nat>

    function State(): StreamState
      reads this
    {
      StreamState(inbound, log, failingSends)
    }

    constructor (script: seq<Read>, failingSends: set<nat>)
      ensures State() == StreamState(script, [], failingSends)
    {
      inbound := script;
      log := [];
      this.failingSends := failingSends;
    }

    /** `send_raw`: writes bytes that are not a frame (the protocol header). */
    method SendRaw(bytes: seq<u8>) returns (r: Outcome)
      modifies this
      ensures (r, State()) == Write(old(State()), Raw(bytes))
    {
      if |log| in failingSends {
        r := Fail(IoError);
      } else {
        log := log + [Raw(bytes)];
        r := Ok;
      }
    }

    /** `invoke`: encodes a method on a channel and writes it. */
    method Invoke(chan: i16, m: Method) returns (r: Outcome)
      modifies this
      ensures (r, State()) == Write(old(State()), Invoked(chan, m))
    {
      if |log| in failingSends {
        r := Fail(IoError);
      } else {
        log := log + [Invoked(chan, m)];
        r := Ok;
      }
    }

    /** `next_frame`: the next frame of any kind. */
    method NextFrame() returns (r: Result<AmqFrame>)
      modifies this
      ensures (r, State()) == ReadFrame(old(State()))
    {
      if inbound == [] {
        return Failure(IoError);
      }
      r := match inbound[0]
        case Arrives(f) => Success(f)
        case ReadFails => Failure(IoError);
      inbound := inbound[1..];
    }

    /** `next_method_frame`: the next frame, which must be a method frame. */
    method NextMethodFrame() returns (r: Result<AmqFrame>)
      modifies this
      ensures (r, State()) == ReadMethodFrame(old(State()))
    {
      r := NextFrame();
      if r.Success? && !r.value.MethodFrame? {
        r := Failure(NotAMethodFrame);
      }
    }
  }
}
