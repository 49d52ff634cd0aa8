/**
 * The per-connection state of the server as its tasks update it: the reader loop of `serve_connection`,
 * `queue_for`, the handler tasks, the writer and teardown, driven in any order.
 */
module ServerLoop {
  import opened Wrappers
  import opened Bytes
  import opened Json
  import opened Packet
  import opened FrameCodec
  import opened ServerHandlers
  import opened ServerConnection
  import R = RateLimiter

  /** A binary message, with the verdict of the rate limiter and the nonce its refusal would get. */
  datatype Incoming = Incoming(bytes: seq<u8>, verdict: R.Verdict, nonce: Option<Nonce>)

  /** What one task of the connection does next. */
  datatype Turn =
    | Read(incoming: seq<Incoming>)
    | Admit
    | Handle(i: nat, auth: Option<Object>)
    | HandIn(i: nat, nonce: Option<Nonce>)
    | Emit(event: PacketBody, nonce: Option<Nonce>)
    | Send(nonce: Option<Nonce>)
    | HangUp

  /** Running handlers work on requests and events. */
  lemma ActiveIsData(cfg: Config, id: string, steps: seq<Step>, i: nat)
    requires i < |Run(cfg, id, steps).active|
    ensures IsData(Run(cfg, id, steps).active[i])
  {
    RunInv(cfg, id, steps);
    var c := Run(cfg, id, steps);
    assert c.active[i] in c.active;
  }

  lemma PermitsOf(cfg: Config, id: string, steps: seq<Step>)
    ensures var c := Run(cfg, id, steps); c.free + |c.active| + |c.ended| == cfg.maxInFlight
  {
    RunInv(cfg, id, steps);
  }

  lemma RepliesOf(cfg: Config, id: string, steps: seq<Step>)
    ensures var c := Run(cfg, id, steps);
            Keys(c.decoded) == Keys(c.replied) + Keys(c.active) + Keys(c.ended) + WaitingKeys(c.reader)
  {
    RunInv(cfg, id, steps);
  }

  class Connection {
    const cfg: Config
    const id: string
    var inTable: bool
    var sinkOpen: bool
    var reader: Reader
    var free: nat
    var active: seq<PacketBody>
    var ended: seq<PacketBody>
    var outbox: seq<Queued>
    ghost var offered: seq<Offer>
    ghost var sent: seq<Queued>
    ghost var decoded: seq<PacketBody>
    ghost var verdicts: seq<R.Verdict>
    ghost var refused: seq<PacketBody>
    ghost var replied: seq<PacketBody>
    ghost var handled: seq<Handling>
    ghost var history: seq<Step>

    ghost function Value(): Conn
      reads this
    {
      Conn(id, inTable, sinkOpen, reader, free, active, ended, outbox,
           offered, sent, decoded, verdicts, refused, replied, handled)
    }

    /** The fields are what a run of the step system leaves. */
    ghost predicate Valid()
      reads this
    {
      Value() == Run(cfg, id, history)
    }

    /** So permits, replies, handler runs and the queue are accounted for at all times. */
    lemma ValidMeansAccounted()
      requires Valid()
      ensures Inv(cfg, Value()) && Delivered(cfg, Value())
    {
      RunInv(cfg, id, history);
      RunDelivers(cfg, id, history);
    }

    /** The connection enters the table with all its permits free. */
    constructor (cfg: Config, id: string)
      ensures this.cfg == cfg && this.id == id && Value() == NewConn(cfg, id) && Valid()
    {
      this.cfg, this.id := cfg, id;
      inTable, sinkOpen, reader, free := true, true, Reading, cfg.maxInFlight;
      active, ended, outbox := [], [], [];
      offered, sent, decoded, verdicts, refused, replied, handled := [], [], [], [], [], [], [];
      history := [];
    }

    /** `queue_for`: look the connection up, encode if the keys are shared, then queue. */
    method Queue(b: PacketBody, nonce: Option<Nonce>) returns (queued: bool)
      modifies this`outbox, this`offered
      ensures Value() == QueueFor(cfg, old(Value()), b, nonce)
      ensures queued <==> inTable && sinkOpen && Queueable(cfg, Offer(b, nonce))
      ensures !queued ==> outbox == old(outbox)
    {
      offered := offered + [Offer(b, nonce)];
      if !inTable {
        return false;
      }
      var frame := None;
      if !cfg.ecdh {
        var encoded := EncodeFrame(cfg.lib, cfg.outCodec, nonce, Envelope(b, cfg.mode));
        if encoded.Err? {
          return false;
        }
        frame := Some(encoded.value);
      }
      queued := sinkOpen;
      if queued {
        outbox := outbox + [Queued(b, frame)];
      }
    }

    /** The header checks, decoding and the rate verdict for one binary message. */
    method ReadMessage(m: Incoming)
      requires Valid() && reader == Reading
      modifies this
      ensures Valid() && history == old(history) + [Message(m.bytes, m.verdict, m.nonce)]
      ensures decoded == old(decoded) || exists env :: Decode(cfg.lib, cfg.codec, m.bytes) == Ok(env)
                                                       && IsData(env.body) && decoded == old(decoded) + [env.body]
    {
      RunOneMore(cfg, id, history, Message(m.bytes, m.verdict, m.nonce));
      history := history + [Message(m.bytes, m.verdict, m.nonce)];
      CheckMessage(m);
    }

    method CheckMessage(m: Incoming)
      modifies this
      ensures Value() == OnMessage(cfg, old(Value()), m.bytes, m.verdict, m.nonce) && history == old(history)
    {
      if |m.bytes| < 5 {
        var _ := Queue(FrameError("frame_too_short", "frame must be at least 5 bytes"), m.nonce);
        return;
      }
      var declared := FromBe32(m.bytes);
      if declared > cfg.codec.maxFrameBytes || declared != |m.bytes| - 4 {
        var _ := Queue(FrameError("frame_too_large", "declared frame_len is invalid"), m.nonce);
        return;
      }
      if |m.bytes| > cfg.codec.maxFrameBytes {
        var _ := Queue(FrameError("frame_too_large", "frame size exceeds limit"), m.nonce);
        return;
      }
      var packet := DecodeFrame(cfg.lib, cfg.codec, m.bytes);
      if packet.Err? {
        reader := Stopped;
        return;
      }
      AcceptPacket(packet.value.body, m.verdict, m.nonce);
    }

    /** A decoded packet is ignored, refused with a reply, or admitted; only Allowed admits. */
    method AcceptPacket(b: PacketBody, verdict: R.Verdict, nonce: Option<Nonce>)
      modifies this
      ensures Value() == Accept(cfg, old(Value()), b, verdict, nonce) && history == old(history)
      ensures IsData(b) && verdict == R.Allowed ==> reader == NeedsPermit(b) && refused == old(refused)
      ensures IsData(b) && verdict != R.Allowed ==> reader == old(reader) && refused == old(refused) + [b]
    {
      if !IsData(b) {
        return;
      }
      if verdict == R.Allowed {
        decoded, verdicts := decoded + [b], verdicts + [verdict];
        reader := NeedsPermit(b);
        return;
      }
      Refuse(b, verdict, nonce);
    }

    method Refuse(b: PacketBody, verdict: R.Verdict, nonce: Option<Nonce>)
      requires IsData(b)
      modifies this
      ensures Value() == QueueFor(cfg, Declined(old(Value()), b, verdict), Refusal(b), nonce) && history == old(history)
    {
      decoded, verdicts := decoded + [b], verdicts + [verdict];
      refused, replied := refused + [b], replied + [Refusal(b)];
      var _ := Queue(Refusal(b), nonce);
    }

    /** A permit is free: a handler task starts and the reader goes on. */
    method StartHandler()
      requires Valid() && reader.NeedsPermit? && free > 0
      modifies this
      ensures Valid() && history == old(history) + [Acquire]
      ensures reader == Reading && active == old(active) + [old(reader).packet] && |active| <= cfg.maxInFlight
    {
      RunOneMore(cfg, id, history, Acquire);
      active := active + [reader.packet];
      free := free - 1;
      reader := Reading;
      history := history + [Acquire];
      PermitsOf(cfg, id, history);
    }

    /**
     * The reader loop over the messages at hand. When it is blocked, every permit is in use by a handler
     * task that has not handed in its reply.
     */
    method ReadLoop(incoming: seq<Incoming>)
      requires Valid()
      modifies this
      ensures Valid() && old(history) <= history
      ensures reader.NeedsPermit? && old(reader) == Reading ==> |active| + |ended| == cfg.maxInFlight
    {
      ghost var start := reader;
      for i := 0 to |incoming|
        invariant Valid() && old(history) <= history
        invariant start == Reading && reader.NeedsPermit? ==> free == 0
      {
        if reader == Reading {
          ReadMessage(incoming[i]);
        }
        if reader.NeedsPermit? && free > 0 {
          StartHandler();
        }
      }
      PermitsOf(cfg, id, history);
    }

    /** What the server's filters and handlers make of a packet. */
    ghost function FateOf(auth: Option<Object>, b: PacketBody): Fate
      requires IsData(b)
    {
      if b.ApiRequest? then ApiFate(cfg.server, id, auth, b) else EventFate(cfg.server, id, auth, b)
    }

    /**
     * A handler task runs its packet through the filters and the handler. It keeps its permit; its reply is
     * under the packet's own id, and positive exactly when a handler returned.
     */
    method RunHandler(i: nat, auth: Option<Object>)
      requires Valid() && i < |active|
      modifies this
      ensures Valid() && old(history) <= history
      ensures IsData(old(active)[i]) && free == old(free) && |ended| == |old(ended)| + 1
      ensures var reply, fate := ended[|ended| - 1], FateOf(auth, old(active)[i]);
              && KeyOf(reply) == KeyOf(old(active)[i]) && IsReply(reply)
              && (reply.ok <==> fate.Executed? && fate.result.Returned?)
    {
      ActiveIsData(cfg, id, history, i);
      var b := active[i];
      ghost var fate := FateOf(auth, b);
      RunOneMore(cfg, id, history, Execute(i, fate));
      ReplyMeaning(cfg.server, id, b, fate);
      var reply := Answer(b, auth);
      Settle(i, reply, fate);
      history := history + [Execute(i, fate)];
    }

    method Settle(i: nat, reply: PacketBody, ghost fate: Fate)
      requires i < |active| && IsData(active[i]) && reply == ReplyTo(cfg.server, id, active[i], fate)
      modifies this`active, this`ended, this`handled
      ensures Value() == Handled(cfg, old(Value()), i, fate)
    {
      handled := handled + [Handling(active[i], fate)];
      active := RemoveAt(active, i);
      ended := ended + [reply];
    }

    /** `run_api_request` or `run_event`. */
    method Answer(b: PacketBody, auth: Option<Object>) returns (reply: PacketBody)
      requires IsData(b)
      ensures reply == ReplyTo(cfg.server, id, b, FateOf(auth, b))
      ensures IsReply(reply) && (reply.ok <==> FateOf(auth, b).Executed? && FateOf(auth, b).result.Returned?)
    {
      if b.ApiRequest? {
        var runs;
        reply, runs := RunApiRequest(cfg.server, id, auth, b);
        ApiReplyMeaning(cfg.server, id, auth, b);
      } else {
        reply := EventReply(cfg.server, id, b, EventFate(cfg.server, id, auth, b));
        EventReplyMeaning(cfg.server, id, auth, b);
      }
    }

    /**
     * A handler task hands in its reply and drops its permit. On a live connection the reply is queued
     * exactly when it can be, and it counts as the one reply to its packet.
     */
    method FinishHandler(i: nat, nonce: Option<Nonce>) returns (queued: bool)
      requires Valid() && i < |ended|
      modifies this
      ensures Valid() && history == old(history) + [Submit(i, nonce)]
      ensures queued <==> inTable && sinkOpen && Queueable(cfg, Offer(old(ended)[i], nonce))
      ensures queued ==> |outbox| > 0 && outbox[|outbox| - 1].packet == old(ended)[i]
      ensures free + |active| + |ended| == cfg.maxInFlight
    {
      RunOneMore(cfg, id, history, Submit(i, nonce));
      queued := HandIn(i, nonce);
      history := history + [Submit(i, nonce)];
      PermitsOf(cfg, id, history);
    }

    method HandIn(i: nat, nonce: Option<Nonce>) returns (queued: bool)
      requires i < |ended|
      modifies this
      ensures Value() == QueueFor(cfg, Finished(old(Value()), i), old(ended)[i], nonce) && history == old(history)
      ensures queued <==> inTable && sinkOpen && Queueable(cfg, Offer(old(ended)[i], nonce))
    {
      var reply := ended[i];
      ended := RemoveAt(ended, i);
      replied := replied + [reply];
      free := free + 1;
      queued := Queue(reply, nonce);
    }

    /** An event pushed to this connection. */
    method PushEvent(event: PacketBody, nonce: Option<Nonce>) returns (queued: bool)
      requires Valid() && event.EventEmit?
      modifies this
      ensures Valid() && history == old(history) + [Push(event, nonce)]
      ensures queued <==> inTable && sinkOpen && Queueable(cfg, Offer(event, nonce))
    {
      RunOneMore(cfg, id, history, Push(event, nonce));
      queued := Queue(event, nonce);
      history := history + [Push(event, nonce)];
    }

    /** The writer takes the oldest entry; it ends when it cannot encode it. */
    method WriteNext(nonce: Option<Nonce>) returns (frame: Option<seq<u8>>)
      requires Valid() && sinkOpen && outbox != []
      modifies this
      ensures Valid() && history == old(history) + [Write(nonce)]
      ensures frame == WireFrame(cfg, old(outbox)[0], nonce) && sinkOpen == frame.Some?
    {
      RunOneMore(cfg, id, history, Write(nonce));
      frame := TakeHead(nonce);
      history := history + [Write(nonce)];
    }

    method TakeHead(nonce: Option<Nonce>) returns (frame: Option<seq<u8>>)
      requires sinkOpen && outbox != []
      modifies this`outbox, this`sent, this`sinkOpen
      ensures Value() == Taken(cfg, old(Value()), nonce)
      ensures frame == WireFrame(cfg, old(outbox)[0], nonce) && sinkOpen == frame.Some?
    {
      var q := outbox[0];
      if q.frame.Some? {
        frame := q.frame;
      } else {
        var encoded := EncodeFrame(cfg.lib, cfg.outCodec, nonce, Envelope(q.packet, cfg.mode));
        frame := if encoded.Ok? then Some(encoded.value) else None;
      }
      outbox, sent := outbox[1..], sent + [q];
      sinkOpen := frame.Some?;
    }

    /**
     * Teardown after the reader loop: out of the table first, then the writer is aborted. Handlers that are
     * still running stay accounted for, and nothing handed in from now on is queued.
     */
    method Teardown()
      requires Valid() && reader == Stopped
      modifies this
      ensures Valid() && old(history) <= history
      ensures forall b, nonce :: QueueFor(cfg, Value(), b, nonce).outbox == outbox
      ensures Keys(decoded) == Keys(replied) + Keys(active) + Keys(ended)
    {
      Leave();
      EndWriter();
      RepliesOf(cfg, id, history);
    }

    method Leave()
      requires Valid() && reader == Stopped
      modifies this`inTable, this`history
      ensures Valid() && history == old(history) + [LeaveTable] && !inTable
    {
      RunOneMore(cfg, id, history, LeaveTable);
      inTable := false;
      history := history + [LeaveTable];
    }

    method EndWriter()
      requires Valid()
      modifies this`sinkOpen, this`history
      ensures Valid() && history == old(history) + [CloseSink] && !sinkOpen
    {
      RunOneMore(cfg, id, history, CloseSink);
      sinkOpen := false;
      history := history + [CloseSink];
    }

    /** One turn of one task, if it can take it. */
    method Take(turn: Turn)
      requires Valid()
      modifies this
      ensures Valid() && old(history) <= history
    {
      match turn {
        case Read(incoming) =>
          ReadLoop(incoming);
        case Admit =>
          if reader.NeedsPermit? && free > 0 {
            StartHandler();
          }
        case Handle(i, auth) =>
          if i < |active| {
            RunHandler(i, auth);
          }
        case HandIn(i, nonce) =>
          if i < |ended| {
            var _ := FinishHandler(i, nonce);
          }
        case Emit(event, nonce) =>
          if event.EventEmit? {
            var _ := PushEvent(event, nonce);
          }
        case Send(nonce) =>
          if sinkOpen && outbox != [] {
            var _ := WriteNext(nonce);
          }
        case HangUp =>
          if reader == Stopped {
            Teardown();
          }
      }
    }

    /**
     * Any schedule of the connection's tasks is a run of the step system: the permits, the replies, the
     * handler runs and the queue are accounted for at its end.
     */
    method Drive(turns: seq<Turn>)
      requires Valid()
      modifies this
      ensures Valid() && old(history) <= history
      ensures Inv(cfg, Value()) && Delivered(cfg, Value())
    {
      for i := 0 to |turns|
        invariant Valid() && old(history) <= history
      {
        Take(turns[i]);
      }
      ValidMeansAccounted();
    }
  }
}
