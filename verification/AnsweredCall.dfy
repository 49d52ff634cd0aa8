/**
 * Runs in which a call is answered: whatever a route handler makes of the request, there is a run in which
 * the call returns exactly that, and the handler ran for it once.
 */
module AnsweredCall {
  import opened Wrappers
  import opened Bytes
  import opened Json
  import opened Attachment
  import opened Packet
  import opened FrameCodec
  import opened CodecLaws
  import opened ServerHandlers
  import opened EndToEnd
  import opened Runs
  import L = ClientLifecycle
  import C = ClientCalls
  import S = ServerConnection
  import R = RateLimiter

  /** The server reads the request, admits it, takes a permit, runs the handler, answers and writes the answer. */
  function Serving(fate: Fate): seq<Step> {
    [ClientWrite(1, None), ServerRead(1, R.Allowed, None), Serve(1, S.Acquire), Serve(1, S.Execute(0, fate)),
     Serve(1, S.Submit(0, None)), ServerWrite(1, None)]
  }

  function Steps(route: string, params: Json, fate: Fate): seq<Step> {
    CONNECTING + Asking(C.AskCall(route, params, [])) + Serving(fate) + RETURNING
  }

  // ----- The server's end, station by station -----

  function Fresh(cfg: Config): S.Conn {
    S.NewConn(cfg.conn(1), cfg.connId(1))
  }

  function Admitted(cfg: Config, p: PacketBody): S.Conn {
    Fresh(cfg).(decoded := [p], verdicts := [R.Allowed], reader := S.NeedsPermit(p))
  }

  function Running(cfg: Config, p: PacketBody): S.Conn
    requires cfg.conn(1).maxInFlight > 0
  {
    Admitted(cfg, p).(reader := S.Reading, free := cfg.conn(1).maxInFlight - 1, active := [p])
  }

  function Ran(cfg: Config, p: PacketBody, fate: Fate, reply: PacketBody): S.Conn
    requires cfg.conn(1).maxInFlight > 0
  {
    Running(cfg, p).(active := [], ended := [reply], handled := [S.Handling(p, fate)])
  }

  function Replied(cfg: Config, p: PacketBody, fate: Fate, reply: PacketBody, down: seq<u8>): S.Conn {
    Fresh(cfg).(decoded := [p], verdicts := [R.Allowed], handled := [S.Handling(p, fate)], replied := [reply],
                offered := [S.Offer(reply, None)], outbox := [S.Queued(reply, Some(down))])
  }

  /** The answer is on the way back. */
  function Written(cfg: Config, p: PacketBody, fate: Fate, reply: PacketBody, down: seq<u8>): Link {
    NewLink(cfg, 1).(conn := Replied(cfg, p, fate, reply, down).(outbox := [], sent := [S.Queued(reply, Some(down))]),
                     down := [Flight(down, reply)])
  }

  lemma ServerAdmits(cfg: Config, p: PacketBody, reply: PacketBody, up: seq<u8>, down: seq<u8>)
    requires InPlaintext(cfg, p, reply, up, down) && S.IsData(p) && p.attachments == [] && Normal(p) == p
    ensures S.OnMessage(cfg.conn(1), Fresh(cfg), up, R.Allowed, None) == Admitted(cfg, p)
  {
    FrameReads(cfg.lib, p, up);
  }

  /** The server takes these three steps from its admitted request to its queued reply. */
  predicate Works(scfg: S.Config, fate: Fate, c1: S.Conn, c2: S.Conn, c3: S.Conn, c4: S.Conn) {
    && S.Enabled(c1, S.Acquire) && S.Next(scfg, c1, S.Acquire) == c2
    && S.Enabled(c2, S.Execute(0, fate)) && S.Next(scfg, c2, S.Execute(0, fate)) == c3
    && S.Enabled(c3, S.Submit(0, None)) && S.Next(scfg, c3, S.Submit(0, None)) == c4
  }

  lemma ServerWorks(cfg: Config, p: PacketBody, fate: Fate, reply: PacketBody, down: seq<u8>)
    requires p.ApiRequest? && reply == ApiReply(cfg.conn(1).server, cfg.connId(1), p, fate)
    requires cfg.conn(1).maxInFlight > 0 && !cfg.conn(1).ecdh
    requires S.OutFrame(cfg.conn(1), reply, None) == Ok(down)
    ensures Works(cfg.conn(1), fate, Admitted(cfg, p), Running(cfg, p), Ran(cfg, p, fate, reply),
                  Replied(cfg, p, fate, reply, down))
  {
    assert S.RemoveAt([p], 0) == [] && S.RemoveAt([reply], 0) == [];
  }

  // ----- The same in the composed system -----

  lemma ReadUp(cfg: Config, client: C.State, p: PacketBody, up: seq<u8>)
    requires S.OnMessage(cfg.conn(1), Fresh(cfg), up, R.Allowed, None) == Admitted(cfg, p)
    ensures Then(cfg, Station(cfg, client, NewLink(cfg, 1).(up := [Flight(up, p)])), ServerRead(1, R.Allowed, None))
            == Station(cfg, client, NewLink(cfg, 1).(conn := Admitted(cfg, p)))
  {
    var k := NewLink(cfg, 1).(up := [Flight(up, p)]);
    assert AfterServerRead(cfg, 1, k, R.Allowed, None) == NewLink(cfg, 1).(conn := Admitted(cfg, p));
    LinkThen(cfg, client, k, AfterServerRead(cfg, 1, k, R.Allowed, None), ServerRead(1, R.Allowed, None));
  }

  lemma Serves(cfg: Config, client: C.State, c: S.Conn, c': S.Conn, s: S.Step)
    requires !s.Message? && !s.Write? && S.Enabled(c, s) && S.Next(cfg.conn(1), c, s) == c'
    ensures Then(cfg, Station(cfg, client, NewLink(cfg, 1).(conn := c)), Serve(1, s))
            == Station(cfg, client, NewLink(cfg, 1).(conn := c'))
  {
    LinkThen(cfg, client, NewLink(cfg, 1).(conn := c), NewLink(cfg, 1).(conn := c'), Serve(1, s));
  }

  lemma ServesThrice(cfg: Config, client: C.State, fate: Fate, c1: S.Conn, c2: S.Conn, c3: S.Conn, c4: S.Conn)
    requires Works(cfg.conn(1), fate, c1, c2, c3, c4)
    ensures var serving := Serving(fate);
            var w := Station(cfg, client, NewLink(cfg, 1).(conn := c1));
            Then(cfg, Then(cfg, Then(cfg, w, serving[2]), serving[3]), serving[4])
            == Station(cfg, client, NewLink(cfg, 1).(conn := c4))
  {
    Serves(cfg, client, c1, c2, S.Acquire);
    Serves(cfg, client, c2, c3, S.Execute(0, fate));
    Serves(cfg, client, c3, c4, S.Submit(0, None));
  }

  lemma WriteDown(cfg: Config, client: C.State, p: PacketBody, fate: Fate, reply: PacketBody, down: seq<u8>)
    requires Sent(cfg, 1, S.Queued(reply, Some(down)), None) == [Flight(down, reply)]
    ensures Then(cfg, Station(cfg, client, NewLink(cfg, 1).(conn := Replied(cfg, p, fate, reply, down))), ServerWrite(1, None))
            == Station(cfg, client, Written(cfg, p, fate, reply, down))
  {
    var k := NewLink(cfg, 1).(conn := Replied(cfg, p, fate, reply, down));
    assert AfterServerWrite(cfg, 1, k, None) == Written(cfg, p, fate, reply, down);
    LinkThen(cfg, client, k, AfterServerWrite(cfg, 1, k, None), ServerWrite(1, None));
  }

  lemma ServesAll(cfg: Config, ask: C.Ask, fate: Fate, p: PacketBody, reply: PacketBody, up: seq<u8>, down: seq<u8>)
    requires ask.AskCall? && ask.attachments == [] && p == RequestOf(ask, 1) && Normal(p) == p
    requires reply == ApiReply(cfg.conn(1).server, cfg.connId(1), p, fate)
    requires InPlaintext(cfg, p, reply, up, down) && cfg.conn(1).maxInFlight > 0
    ensures ThenAll(cfg, Asked(cfg, ask), Serving(fate))
            == Station(cfg, WaitingFor(ask), Written(cfg, p, fate, reply, down))
  {
    WrittenFrame(cfg, p, reply, up, down);
    ServerAdmits(cfg, p, reply, up, down);
    ServerWorks(cfg, p, fate, reply, down);
    ServesFrom(cfg, ask, fate, p, reply, up, down, Running(cfg, p), Ran(cfg, p, fate, reply));
  }

  lemma ServesFrom(cfg: Config, ask: C.Ask, fate: Fate, p: PacketBody, reply: PacketBody, up: seq<u8>, down: seq<u8>,
                   c2: S.Conn, c3: S.Conn)
    requires p == RequestOf(ask, 1) && EndToEnd.Written(cfg, 1, None, p) == [Flight(up, p)]
    requires Sent(cfg, 1, S.Queued(reply, Some(down)), None) == [Flight(down, reply)]
    requires S.OnMessage(cfg.conn(1), Fresh(cfg), up, R.Allowed, None) == Admitted(cfg, p)
    requires Works(cfg.conn(1), fate, Admitted(cfg, p), c2, c3, Replied(cfg, p, fate, reply, down))
    ensures ThenAll(cfg, Asked(cfg, ask), Serving(fate))
            == Station(cfg, WaitingFor(ask), Written(cfg, p, fate, reply, down))
  {
    WriteUp(cfg, ask, up);
    ReadUp(cfg, WaitingFor(ask), p, up);
    ServesThrice(cfg, WaitingFor(ask), fate, Admitted(cfg, p), c2, c3, Replied(cfg, p, fate, reply, down));
    WriteDown(cfg, WaitingFor(ask), p, fate, reply, down);
    Unfold2(cfg, Asked(cfg, ask), Serving(fate));
    Unfold4(cfg, Then(cfg, Then(cfg, Asked(cfg, ask), Serving(fate)[0]), Serving(fate)[1]), Serving(fate)[2..]);
  }

  /** What the call returns, by what became of its request. */
  function ResultOf(reply: PacketBody, fate: Fate): C.Reply
    requires reply.ApiResponse?
  {
    if fate.Executed? && fate.result.Returned? then Ok(fate.result.value) else Err(C.Remote(Shown(reply.error)))
  }

  lemma ReplyMeans(server: Server, conn: string, p: PacketBody, fate: Fate)
    requires p.ApiRequest?
    ensures var reply := ApiReply(server, conn, p, fate);
            var read := Normal(reply);
            && reply.ApiResponse? && read.ApiResponse? && read.requestId == p.requestId
            && Answer(read.ok, read.data, read.error) == ResultOf(reply, fate)
  {
  }

  lemma ClientAnswers(cfg: Config, ask: C.Ask, fate: Fate, p: PacketBody, reply: PacketBody, up: seq<u8>, down: seq<u8>)
    requires ask.AskCall? && p == RequestOf(ask, 1)
    requires reply == ApiReply(cfg.conn(1).server, cfg.connId(1), p, fate)
    requires InPlaintext(cfg, p, reply, up, down)
    ensures AfterClientRead(cfg, 1, WaitingFor(ask), Written(cfg, p, fate, reply, down))
            == AnsweredWith(ask, C.Waiting(1, 1), ResultOf(reply, fate))
  {
    FrameReads(cfg.lib, reply, down);
    ReplyMeans(cfg.conn(1).server, cfg.connId(1), p, fate);
    DispatchAnswer(ask, Normal(reply), ResultOf(reply, fate));
  }

  lemma Unchanged(ask: C.Ask)
    ensures Normal(RequestOf(ask, 1)) == RequestOf(ask, 1)
  {
    assert "client_name" in CLIENT_METADATA.fields;
  }

  function Finished(cfg: Config, ask: C.Ask, fate: Fate, p: PacketBody, reply: PacketBody, down: seq<u8>): World
    requires reply.ApiResponse?
  {
    var result := ResultOf(reply, fate);
    Station(cfg, AnsweredWith(ask, C.Done(1, 1, result), result), Written(cfg, p, fate, reply, down).(down := []))
  }

  lemma WholeRun(cfg: Config, ask: C.Ask, fate: Fate, p: PacketBody, reply: PacketBody, up: seq<u8>, down: seq<u8>)
    requires ask.AskCall? && ask.attachments == [] && p == RequestOf(ask, 1)
    requires reply == ApiReply(cfg.conn(1).server, cfg.connId(1), p, fate)
    requires InPlaintext(cfg, p, reply, up, down) && cfg.conn(1).maxInFlight > 0
    ensures Run(cfg, Steps(ask.route, ask.params, fate)) == Finished(cfg, ask, fate, p, reply, down)
  {
    Unchanged(ask);
    ServesAll(cfg, ask, fate, p, reply, up, down);
    ClientAnswers(cfg, ask, fate, p, reply, up, down);
    ComesBack(cfg, ask, ResultOf(reply, fate), Written(cfg, p, fate, reply, down));
    Joined(cfg, ask, Serving(fate), Written(cfg, p, fate, reply, down), Finished(cfg, ask, fate, p, reply, down));
  }

  lemma RanOnce(cfg: Config, ask: C.Ask, fate: Fate, p: PacketBody, reply: PacketBody, down: seq<u8>)
    requires ask.AskCall? && p == RequestOf(ask, 1) && reply.ApiResponse?
    ensures var links := Finished(cfg, ask, fate, p, reply, down).links;
            && links[1].conn.handled == [S.Handling(p, fate)]
            && Executions(links, KeyFor(L.Call, 1)) == if fate.Executed? then 1 else 0
  {
    var links := Finished(cfg, ask, fate, p, reply, down).links;
    AddUp(links, KeyFor(L.Call, 1), 1);
  }

  /**
   * For every route, all parameters and every fate of the request, if the two packets fit in frames: the
   * call returns `Ok(v)` when the handler returned `v`, and otherwise the error in the server's reply, after
   * exactly one execution if there is a handler that ran.
   */
  lemma CallReturnsItsAnswer(
    cfg: Config, route: string, params: Json, fate: Fate, p: PacketBody, reply: PacketBody, up: seq<u8>, down: seq<u8>)
    requires p == ApiRequest(1, route, params, [], CLIENT_METADATA)
    requires reply == ApiReply(cfg.conn(1).server, cfg.connId(1), p, fate)
    requires InPlaintext(cfg, p, reply, up, down) && cfg.conn(1).maxInFlight > 0
    ensures var w := Run(cfg, Steps(route, params, fate));
            && |w.client.tasks| == 1 && w.client.tasks[0].ask == C.AskCall(route, params, [])
            && w.client.tasks[0].pc == C.Done(1, 1, ResultOf(reply, fate))
            && |w.links| == 2 && w.links[1].conn.handled == [S.Handling(p, fate)]
            && Executions(w.links, KeyFor(L.Call, 1)) == (if fate.Executed? then 1 else 0)
            && forall v :: fate == Executed(Returned(v)) ==> w.client.tasks[0].pc.result == Ok(v)
  {
    var ask := C.AskCall(route, params, []);
    WholeRun(cfg, ask, fate, p, reply, up, down);
    RanOnce(cfg, ask, fate, p, reply, down);
  }
}
