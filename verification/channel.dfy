/**
  One logical channel of the connection (section 2.2.5 of the AMQP 0-9-1
  specification, "The Channel Class"): its id, the shared stream it writes to,
  and its `active` flow flag.

  The channel's reply waiter is not modelled as a queue: what a blocking wait
  for the broker's reply yields is passed in as `reply`.
 */
module Channels {
  import opened Stream

  /** How the `active` flag travels in a `Flow` method. */
  function FlowFlag(active: bool): (b: u8)
    ensures b == 0 || b == 1
    ensures active <==> b == 1
  {
    if active then 1 else 0
  }

  /** The only method a channel accepts from the dispatcher is `ChanOpenOk`. */
  function HandleFrame(m: Method): (r: Outcome)
    ensures r.Ok? <==> m.ChanOpenOk?
    ensures r.Fail? ==> r.error == UnknownMethod(m)
  {
    match m
    case ChanOpenOk => Ok
    case _ => Fail(UnknownMethod(m))
  }

  /** `open` on channel `id`: send `Open`, then wait for one reply. */
  function OpenSpec(id: i16, s: StreamState, reply: Outcome): (Outcome, StreamState)
  {
    var (sent, s') := Write(s, Invoked(id, ChanOpen));
    if sent.Fail? then (sent, s') else (reply, s')
  }

  /** `flow(x)` on channel `id` whose flag is `active`: the outcome, the new flag and the new stream state. */
  function FlowSpec(id: i16, active: bool, x: bool, s: StreamState, reply: Outcome): (Outcome, bool, StreamState)
  {
    if active == x then (Ok, active, s)
    else
      var (sent, s') := Write(s, Invoked(id, ChanFlow(FlowFlag(x))));
      if sent.Fail? then (sent, active, s')
      else if reply.Fail? then (reply, active, s')
      else (Ok, x, s')
  }

  class AmqChannel {
    const id: i16
    const stream: AmqpStream
    var active: bool

    /** `new`: a channel starts active. */
    constructor (id: i16, stream: AmqpStream)
      ensures this.id == id && this.stream == stream && active
    {
      this.id := id;
      this.stream := stream;
      active := true;
    }

    method Open(reply: Outcome) returns (r: Outcome)
      modifies stream
      ensures (r, stream.State()) == OpenSpec(id, old(stream.State()), reply)
    {
      r := stream.Invoke(id, ChanOpen);
      if r.Fail? { return; }
      r := reply;
    }

    method Flow(x: bool, reply: Outcome) returns (r: Outcome)
      modifies this, stream
      ensures (r, active, stream.State()) == FlowSpec(id, old(active), x, old(stream.State()), reply)
    {
      if active == x {
        return Ok;
      }
      r := stream.Invoke(id, ChanFlow(FlowFlag(x)));
      if r.Fail? { return; }
      r := reply;
      if r.Fail? { return; }
      active := x;
    }
  }

  // ---------------------------------------------------------------------
  // Properties of `open` and `flow`.
  // ---------------------------------------------------------------------

  /**
    `open` sends exactly one channel `Open` on its own id (or nothing, when the
    send fails), reads nothing from the stream, and succeeds exactly when both
    the send and the wait succeed.
   */
  lemma OpenSendsOneOpen(id: i16, s: StreamState, reply: Outcome)
    ensures var (r, s') := OpenSpec(id, s, reply);
            && s'.inbound == s.inbound
            && (r.Ok? <==> |s.log| !in s.failingSends && reply.Ok?)
            && (|s.log| in s.failingSends ==> r == Fail(IoError) && s'.log == s.log)
            && (|s.log| !in s.failingSends ==> r == reply && s'.log == s.log + [Invoked(id, ChanOpen)])
  {
  }

  /** `flow(x)` on a channel already in state `x` succeeds and changes nothing. */
  lemma FlowIsNoOpWhenUnchanged(id: i16, active: bool, s: StreamState, reply: Outcome)
    ensures FlowSpec(id, active, active, s, reply) == (Ok, active, s)
  {
  }

  /**
    `flow(x)` on a channel not in state `x` sends exactly one `Flow` on its own
    id, carrying 1 for true and 0 for false, and takes on `x` only when both the
    send and the wait succeed; on failure the flag is unchanged.
   */
  lemma FlowTogglesOnlyOnSuccess(id: i16, active: bool, x: bool, s: StreamState, reply: Outcome)
    requires active != x
    ensures var (r, active', s') := FlowSpec(id, active, x, s, reply);
            && s'.inbound == s.inbound
            && (r.Ok? <==> |s.log| !in s.failingSends && reply.Ok?)
            && (active' == if r.Ok? then x else active)
            && (|s.log| in s.failingSends ==> r == Fail(IoError) && s'.log == s.log)
            && (|s.log| !in s.failingSends ==>
                  s'.log == s.log + [Invoked(id, ChanFlow(if x then 1 else 0))] && (reply.Fail? ==> r == reply))
  {
  }

  /**
    Two `flow(x)` calls in a row, the first succeeding, send at most one `Flow`
    in total: one if the channel was not in state `x`, none otherwise. The
    second call always succeeds and leaves the channel in state `x`.
   */
  lemma FlowTwiceSendsOnce(id: i16, active: bool, x: bool, s: StreamState, reply1: Outcome, reply2: Outcome)
    requires FlowSpec(id, active, x, s, reply1).0.Ok?
    ensures var (_, active1, s1) := FlowSpec(id, active, x, s, reply1);
            var (r2, active2, s2) := FlowSpec(id, active1, x, s1, reply2);
            && r2.Ok? && active2 == x
            && s2.log == s.log + (if active == x then [] else [Invoked(id, ChanFlow(FlowFlag(x)))])
  {
    var (_, active1, s1) := FlowSpec(id, active, x, s, reply1);
    assert active1 == x;
    FlowIsNoOpWhenUnchanged(id, x, s1, reply2);
  }
}
