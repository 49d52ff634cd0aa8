/**
 * One run, step by step: an event that the rate limiter refuses comes back to `send_event` as a success
 * with an empty receipt, and no handler ran for it.
 */
module RefusedEvent {
  import opened Wrappers
  import opened Bytes
  import opened Json
  import opened Attachment
  import opened Packet
  import opened FrameCodec
  import opened CodecLaws
  import opened ServerHandlers
  import opened EndToEnd
  import opened Runs
  import L = ClientLifecycle
  import C = ClientCalls
  import S = ServerConnection
  import R = RateLimiter

  const ASK := C.AskEvent("tick", map[], [])

  const REFUSING: seq<Step> := [ClientWrite(1, None), ServerRead(1, R.Limited, None), ServerWrite(1, None)]

  const STEPS := CONNECTING + Asking(ASK) + REFUSING + RETURNING

  /** An event without attachments, that the wire does not change, and the acknowledgement of its refusal. */
  predicate Matching(event: PacketBody, ack: PacketBody) {
    event.EventEmit? && event.attachments == [] && Normal(event) == event && ack == SilentAck(event.eventId)
  }

  /** The server's end after it refused the event. */
  function Refusing(cfg: Config, event: PacketBody, ack: PacketBody): S.Conn {
    S.NewConn(cfg.conn(1), cfg.connId(1))
    .(decoded := [event], verdicts := [R.Limited], refused := [event], replied := [ack],
      offered := [S.Offer(ack, None)])
  }

  /** The acknowledgement is on the way back. */
  function Refused(cfg: Config, event: PacketBody, ack: PacketBody, down: seq<u8>): Link {
    NewLink(cfg, 1).(conn := Refusing(cfg, event, ack).(sent := [S.Queued(ack, Some(down))]),
                     down := [Flight(down, ack)])
  }

  /** The server reads the event as it was sent, and refuses it. */
  lemma ServerRefuses(cfg: Config, event: PacketBody, ack: PacketBody, up: seq<u8>, down: seq<u8>)
    requires InPlaintext(cfg, event, ack, up, down) && Matching(event, ack)
    ensures S.OnMessage(cfg.conn(1), S.NewConn(cfg.conn(1), cfg.connId(1)), up, R.Limited, None)
            == Refusing(cfg, event, ack).(outbox := [S.Queued(ack, Some(down))])
  {
    FrameReads(cfg.lib, event, up);
  }

  lemma ReadUp(cfg: Config, client: C.State, event: PacketBody, ack: PacketBody, up: seq<u8>, down: seq<u8>)
    requires S.OnMessage(cfg.conn(1), S.NewConn(cfg.conn(1), cfg.connId(1)), up, R.Limited, None)
             == Refusing(cfg, event, ack).(outbox := [S.Queued(ack, Some(down))])
    ensures Then(cfg, Station(cfg, client, NewLink(cfg, 1).(up := [Flight(up, event)])), ServerRead(1, R.Limited, None))
            == Station(cfg, client,
                       NewLink(cfg, 1).(conn := Refusing(cfg, event, ack).(outbox := [S.Queued(ack, Some(down))])))
  {
    var k := NewLink(cfg, 1).(up := [Flight(up, event)]);
    assert AfterServerRead(cfg, 1, k, R.Limited, None)
        == NewLink(cfg, 1).(conn := Refusing(cfg, event, ack).(outbox := [S.Queued(ack, Some(down))]));
    LinkThen(cfg, client, k, AfterServerRead(cfg, 1, k, R.Limited, None), ServerRead(1, R.Limited, None));
  }

  lemma WriteDown(cfg: Config, client: C.State, event: PacketBody, ack: PacketBody, down: seq<u8>)
    requires Sent(cfg, 1, S.Queued(ack, Some(down)), None) == [Flight(down, ack)]
    ensures var k := NewLink(cfg, 1).(conn := Refusing(cfg, event, ack).(outbox := [S.Queued(ack, Some(down))]));
            Then(cfg, Station(cfg, client, k), ServerWrite(1, None))
            == Station(cfg, client, Refused(cfg, event, ack, down))
  {
    var k := NewLink(cfg, 1).(conn := Refusing(cfg, event, ack).(outbox := [S.Queued(ack, Some(down))]));
    assert AfterServerWrite(cfg, 1, k, None) == Refused(cfg, event, ack, down);
    LinkThen(cfg, client, k, AfterServerWrite(cfg, 1, k, None), ServerWrite(1, None));
  }

  lemma Refuses(cfg: Config, event: PacketBody, ack: PacketBody, up: seq<u8>, down: seq<u8>)
    requires event == RequestOf(ASK, 1)
    requires S.OnMessage(cfg.conn(1), S.NewConn(cfg.conn(1), cfg.connId(1)), up, R.Limited, None)
             == Refusing(cfg, event, ack).(outbox := [S.Queued(ack, Some(down))])
    requires Written(cfg, 1, None, event) == [Flight(up, event)]
    requires Sent(cfg, 1, S.Queued(ack, Some(down)), None) == [Flight(down, ack)]
    ensures ThenAll(cfg, Asked(cfg, ASK), REFUSING) == Station(cfg, WaitingFor(ASK), Refused(cfg, event, ack, down))
  {
    WriteUp(cfg, ASK, up);
    ReadUp(cfg, WaitingFor(ASK), event, ack, up, down);
    WriteDown(cfg, WaitingFor(ASK), event, ack, down);
    Unfold2(cfg, Asked(cfg, ASK), REFUSING);
    assert REFUSING[2..] == [ServerWrite(1, None)];
  }

  /** The client reads the acknowledgement as it was sent. */
  lemma ClientAnswers(cfg: Config, event: PacketBody, ack: PacketBody, up: seq<u8>, down: seq<u8>)
    requires InPlaintext(cfg, event, ack, up, down) && Matching(event, ack) && event.eventId == 1
    ensures AfterClientRead(cfg, 1, WaitingFor(ASK), Refused(cfg, event, ack, down))
            == AnsweredWith(ASK, C.Waiting(1, 1), Ok(Obj(map[])))
  {
    FrameReads(cfg.lib, ack, down);
    DispatchAnswer(ASK, SilentAck(1), Ok(Obj(map[])));
  }

  function Finished(cfg: Config, event: PacketBody, ack: PacketBody, down: seq<u8>): World {
    Station(cfg, AnsweredWith(ASK, C.Done(1, 1, Ok(Obj(map[]))), Ok(Obj(map[]))),
            Refused(cfg, event, ack, down).(down := []))
  }

  lemma WholeRun(cfg: Config, event: PacketBody, ack: PacketBody, up: seq<u8>, down: seq<u8>)
    requires InPlaintext(cfg, event, ack, up, down) && Matching(event, ack) && event == RequestOf(ASK, 1)
    ensures Run(cfg, STEPS) == Finished(cfg, event, ack, down)
  {
    ServerRefuses(cfg, event, ack, up, down);
    WrittenFrame(cfg, event, ack, up, down);
    Refuses(cfg, event, ack, up, down);
    ClientAnswers(cfg, event, ack, up, down);
    var k := Refused(cfg, event, ack, down);
    ComesBack(cfg, ASK, Ok(Obj(map[])), k);
    Joined(cfg, ASK, REFUSING, k, Finished(cfg, event, ack, down));
  }

  lemma NothingRan(cfg: Config, event: PacketBody, ack: PacketBody, down: seq<u8>)
    requires Matching(event, ack) && event.eventId == 1
    ensures var links := Finished(cfg, event, ack, down).links;
            Executions(links, KeyFor(L.Emit, 1)) == 0 && RefusedSomewhere(links, KeyFor(L.Emit, 1))
  {
    var links := Finished(cfg, event, ack, down).links;
    AddUp(links, KeyFor(L.Emit, 1), |links|);
    assert event in links[1].conn.refused;
    assert S.WasRefused(links[1].conn.refused, KeyFor(L.Emit, 1));
  }

  lemma EventMatches()
    ensures Matching(RequestOf(ASK, 1), SilentAck(1)) && RequestOf(ASK, 1).eventId == 1
  {
    assert "client_name" in CLIENT_METADATA.fields;
  }

  lemma FinishedTask(cfg: Config, event: PacketBody, ack: PacketBody, down: seq<u8>)
    ensures var tasks := Finished(cfg, event, ack, down).client.tasks;
            |tasks| == 1 && tasks[0].ask == ASK && tasks[0].pc == C.Done(1, 1, Ok(Obj(map[])))
  {
  }

  /**
   * The rate limiter refuses the event; `send_event` returns success with an empty receipt, and no handler
   * ran for the event on any connection.
   */
  lemma RefusedEventReturnsOk(cfg: Config, event: PacketBody, ack: PacketBody, up: seq<u8>, down: seq<u8>)
    requires event == RequestOf(ASK, 1) && ack == SilentAck(1) && InPlaintext(cfg, event, ack, up, down)
    ensures var w := Run(cfg, STEPS);
            && |w.client.tasks| == 1 && w.client.tasks[0].ask == ASK
            && w.client.tasks[0].pc == C.Done(1, 1, Ok(Obj(map[])))
            && Executions(w.links, KeyFor(L.Emit, 1)) == 0
            && RefusedSomewhere(w.links, KeyFor(L.Emit, 1))
  {
    EventMatches();
    WholeRun(cfg, event, ack, up, down);
    FinishedTask(cfg, event, ack, down);
    NothingRan(cfg, event, ack, down);
  }
}
