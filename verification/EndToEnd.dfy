/**
 * A client, its successive connections and the server composed: packets are queued, encoded, carried
 * in order over a network that may cut off at any point, decoded, run, answered and dispatched.
 */
module EndToEnd {
  import opened Wrappers
  import opened Bytes
  import opened Json
  import opened Attachment
  import opened Packet
  import opened FrameCodec
  import opened CodecLaws
  import opened ServerHandlers
  import L = ClientLifecycle
  import C = ClientCalls
  import S = ServerConnection
  import R = RateLimiter

  type Gen = L.Gen

  /** A frame on its way, with the packet it was encoded from; no step looks at the packet. */
  datatype Flight = Flight(frame: seq<u8>, packet: PacketBody)

  /** One connection: the client's queue, both directions of the wire, and the server's end. */
  datatype Link = Link(queue: seq<PacketBody>, up: seq<Flight>, conn: S.Conn, down: seq<Flight>)

  /** Connection `g` is `links[g]`; index 0 stands for the generation before the first attempt. */
  datatype World = World(client: C.State, links: seq<Link>)

  /** The client's settings, and per connection its id, the client's codec and the server's settings. */
  datatype Config = Config(
    client: L.Config,
    lib: Library,
    clientMode: EncryptionKind,
    connId: Gen -> string,
    clientCodec: Gen -> Codec,
    conn: Gen -> S.Config)

  /** The libraries are lawful and the two ends of every connection agreed on mode and key. */
  ghost predicate ValidConfig(cfg: Config) {
    && L.ValidConfig(cfg.client) && Lawful(cfg.lib)
    && (forall g :: cfg.conn(g).lib == cfg.lib)
    && (forall g :: SameKeys(cfg.clientCodec(g), cfg.conn(g).codec))
    && (forall g :: SameKeys(cfg.conn(g).outCodec, cfg.clientCodec(g)))
  }

  function NewLink(cfg: Config, g: Gen): Link {
    Link([], [], S.NewConn(cfg.conn(g), cfg.connId(g)), [])
  }

  function Start(cfg: Config): World {
    World(C.INIT_STATE, [NewLink(cfg, 0)])
  }

  const CLIENT_METADATA := Obj(map["client_name" := Str("rust-demo")])

  /** The packet of a `call` or `send_event`. */
  function RequestOf(ask: C.Ask, id: u64): PacketBody {
    match ask
    case AskCall(route, params, atts) => ApiRequest(id, route, params, atts, CLIENT_METADATA)
    case AskEvent(name, data, atts) => EventEmit(id, name, data, atts, CLIENT_METADATA, true)
  }

  const REMOTE_ERROR := ErrorPayload("remote_error", "missing remote error", 500, None)

  function Answer(ok: bool, value: Json, error: Option<ErrorPayload>): C.Reply {
    if ok then Ok(value) else Err(C.Remote(if error.Some? then error.value else REMOTE_ERROR))
  }

  /** `handle_packet` on a response or an acknowledgement: the waiter under its id is answered. */
  function Dispatch(s: C.State, b: PacketBody): C.State {
    match b
    case ApiResponse(id, ok, _, data, error, _) =>
      C.Remove(s, L.Call, id, C.ByResponse, Some(Answer(ok, data, error)))
    case EventAck(id, ok, receipt, error) =>
      C.Remove(s, L.Emit, id, C.ByResponse, Some(Answer(ok, receipt, error)))
    case _ => s
  }

  // ----- Steps -----

  datatype Step =
    | Client(step: C.Step)
    | Send(t: C.TaskId)
    | Acknowledge(g: Gen, ack: PacketBody)
    | ClientWrite(g: Gen, nonce: Option<Nonce>)
    | ServerRead(g: Gen, verdict: R.Verdict, nonce: Option<Nonce>)
    | Serve(g: Gen, serve: S.Step)
    | ServerWrite(g: Gen, nonce: Option<Nonce>)
    | ClientRead(g: Gen)
    | LoseUp(g: Gen)
    | LoseDown(g: Gen)

  const U64_RANGE := 0x1_0000_0000_0000_0000

  ghost predicate Enabled(cfg: Config, w: World, step: Step) {
    match step
    case Client(c) => !c.Send? && !c.Respond? && C.Enabled(cfg.client, w.client, c)
    case Send(t) =>
      && C.Enabled(cfg.client, w.client, C.Send(t))
      && w.client.tasks[t].pc.gen < |w.links|
      && w.client.tasks[t].pc.id < U64_RANGE
    case Acknowledge(g, ack) => g < |w.links| && ack.EventAck?
    case ClientWrite(g, _) => g < |w.links| && w.links[g].queue != []
    case ServerRead(g, _, _) => g < |w.links| && w.links[g].up != [] && w.links[g].conn.reader == S.Reading
    case Serve(g, s) => g < |w.links| && !s.Message? && !s.Write? && S.Enabled(w.links[g].conn, s)
    case ServerWrite(g, _) => g < |w.links| && w.links[g].conn.sinkOpen && w.links[g].conn.outbox != []
    case ClientRead(g) => g < |w.links| && w.links[g].down != []
    case LoseUp(g) => g < |w.links| && w.links[g].up != []
    case LoseDown(g) => g < |w.links| && w.links[g].down != []
  }

  function Written(cfg: Config, g: Gen, nonce: Option<Nonce>, p: PacketBody): seq<Flight> {
    match Encode(cfg.lib, cfg.clientCodec(g), nonce, Envelope(p, cfg.clientMode))
    case Ok(frame) => [Flight(frame, p)]
    case Err(_) => []
  }

  /** The client's writer drops a packet it cannot encode and carries on. */
  function AfterClientWrite(cfg: Config, g: Gen, k: Link, nonce: Option<Nonce>): Link
    requires k.queue != []
  {
    k.(queue := k.queue[1..], up := k.up + Written(cfg, g, nonce, k.queue[0]))
  }

  function Sent(cfg: Config, g: Gen, q: S.Queued, nonce: Option<Nonce>): seq<Flight> {
    match S.WireFrame(cfg.conn(g), q, nonce)
    case Some(frame) => [Flight(frame, q.packet)]
    case None => []
  }

  function AfterServerWrite(cfg: Config, g: Gen, k: Link, nonce: Option<Nonce>): Link
    requires k.conn.outbox != []
  {
    k.(conn := S.Taken(cfg.conn(g), k.conn, nonce), down := k.down + Sent(cfg, g, k.conn.outbox[0], nonce))
  }

  function AfterServerRead(cfg: Config, g: Gen, k: Link, verdict: R.Verdict, nonce: Option<Nonce>): Link
    requires k.up != []
  {
    k.(up := k.up[1..], conn := S.OnMessage(cfg.conn(g), k.conn, k.up[0].frame, verdict, nonce))
  }

  function AfterClientRead(cfg: Config, g: Gen, s: C.State, k: Link): C.State
    requires k.down != []
  {
    match Decode(cfg.lib, cfg.clientCodec(g), k.down[0].frame)
    case Ok(env) => Dispatch(s, env.body)
    case Err(_) => s
  }

  function SetLink(w: World, g: Gen, k: Link): World
    requires g < |w.links|
  {
    w.(links := w.links[g := k])
  }

  /** A new attempt opens a new connection. */
  function Extended(cfg: Config, links: seq<Link>, generation: Gen): seq<Link> {
    if |links| == generation then links + [NewLink(cfg, generation)] else links
  }

  ghost function Next(cfg: Config, w: World, step: Step): World
    requires Enabled(cfg, w, step)
  {
    match step
    case Client(c) =>
      var s := C.Next(cfg.client, w.client, c);
      World(s, Extended(cfg, w.links, s.life.generation))
    case Send(t) =>
      var task := w.client.tasks[t];
      var k := w.links[task.pc.gen];
      World(C.Next(cfg.client, w.client, C.Send(t)),
            w.links[task.pc.gen := k.(queue := k.queue + [RequestOf(task.ask, task.pc.id)])])
    case Acknowledge(g, ack) => SetLink(w, g, w.links[g].(queue := w.links[g].queue + [ack]))
    case ClientWrite(g, nonce) => SetLink(w, g, AfterClientWrite(cfg, g, w.links[g], nonce))
    case ServerRead(g, verdict, nonce) => SetLink(w, g, AfterServerRead(cfg, g, w.links[g], verdict, nonce))
    case Serve(g, s) =>
      SetLink(w, g, w.links[g].(conn := S.Next(cfg.conn(g), w.links[g].conn, s)))
    case ServerWrite(g, nonce) => SetLink(w, g, AfterServerWrite(cfg, g, w.links[g], nonce))
    case ClientRead(g) =>
      var k := w.links[g];
      SetLink(w, g, k.(down := k.down[1..])).(client := AfterClientRead(cfg, g, w.client, k))
    case LoseUp(g) =>
      var k := w.links[g];
      SetLink(w, g, k.(up := k.up[..|k.up| - 1]))
    case LoseDown(g) =>
      var k := w.links[g];
      SetLink(w, g, k.(down := k.down[..|k.down| - 1]))
  }

  ghost function Run(cfg: Config, steps: seq<Step>): World {
    if steps == [] then Start(cfg)
    else
      var w := Run(cfg, steps[..|steps| - 1]);
      if Enabled(cfg, w, steps[|steps| - 1]) then Next(cfg, w, steps[|steps| - 1]) else w
  }

  // ----- What has been sent -----

  /** The key of a call or an event on the wire; ids beyond 64 bits have none. */
  function KeyFor(kind: L.Kind, id: nat): S.Key {
    if id >= U64_RANGE then S.NoKey else if kind == L.Call then S.RequestKey(id) else S.EventKey(id)
  }

  predicate IsSent(pc: C.Pc) {
    pc.Waiting? || pc.Expiring? || pc.Done?
  }

  /** The packet of this task went onto the queue of connection `g` under this key. */
  predicate SentAs(task: C.Task, g: Gen, key: S.Key) {
    key != S.NoKey && IsSent(task.pc) && key == KeyFor(task.ask.Kind(), task.pc.id) && task.pc.gen == g
  }

  ghost predicate SentOn(tasks: seq<C.Task>, g: Gen, key: S.Key) {
    exists t :: 0 <= t < |tasks| && SentAs(tasks[t], g, key)
  }

  function IdOf(b: PacketBody): u64
    requires S.IsData(b)
  {
    if b.ApiRequest? then b.requestId else b.eventId
  }

  /** The request or event is the one a task put on this connection. */
  ghost predicate Owned(tasks: seq<C.Task>, g: Gen, p: PacketBody) {
    S.IsData(p) ==>
      exists t :: 0 <= t < |tasks| && SentAs(tasks[t], g, S.KeyOf(p)) && p == RequestOf(tasks[t].ask, IdOf(p))
  }

  /** `b` is `p` as it comes off the wire: exactly, unless the attachments did not fit. */
  predicate ReadAs(b: PacketBody, p: PacketBody) {
    SameButAttachments(b, p) && (ListFits(p.Attachments()) ==> b == Normal(p))
  }

  ghost predicate OwnedRead(tasks: seq<C.Task>, g: Gen, b: PacketBody) {
    S.IsData(b) ==>
      exists t :: 0 <= t < |tasks| && SentAs(tasks[t], g, S.KeyOf(b))
                  && ReadAs(b, RequestOf(tasks[t].ask, IdOf(b)))
  }

  function Packets(fs: seq<Flight>): seq<PacketBody> {
    if fs == [] then [] else Packets(fs[..|fs| - 1]) + [fs[|fs| - 1].packet]
  }

  /** The key under which a packet asks for something; the client's own acknowledgements ask for nothing. */
  function AskKey(b: PacketBody): S.Key {
    if S.IsData(b) then S.KeyOf(b) else S.NoKey
  }

  function Asks(ps: seq<PacketBody>): multiset<S.Key> {
    if ps == [] then multiset{} else Asks(ps[..|ps| - 1]) + multiset{AskKey(ps[|ps| - 1])}
  }

  /** Everything on the way to the handlers of a connection, and everything that arrived. */
  function Load(k: Link): multiset<S.Key> {
    Asks(k.queue) + Asks(Packets(k.up)) + Asks(k.conn.decoded)
  }

  ghost predicate LoadOk(tasks: seq<C.Task>, g: Gen, load: multiset<S.Key>) {
    forall key :: key != S.NoKey && load[key] > 0 ==> load[key] == 1 && SentOn(tasks, g, key)
  }

  ghost predicate ContentsOk(tasks: seq<C.Task>, g: Gen, k: Link) {
    && (forall p :: p in k.queue ==> Owned(tasks, g, p))
    && (forall f :: f in k.up ==> Owned(tasks, g, f.packet))
    && (forall b :: b in k.conn.decoded ==> OwnedRead(tasks, g, b))
  }

  ghost predicate Encoded(cfg: Config, codec: Codec, mode: EncryptionKind, f: Flight) {
    exists nonce :: Encode(cfg.lib, codec, nonce, Envelope(f.packet, mode)) == Ok(f.frame)
  }

  ghost predicate FlightsOk(cfg: Config, g: Gen, k: Link) {
    && (forall f :: f in k.up ==> Encoded(cfg, cfg.clientCodec(g), cfg.clientMode, f))
    && (forall f :: f in k.down ==> Encoded(cfg, cfg.conn(g).outCodec, cfg.conn(g).mode, f)
                                    && S.QueuedFrom(k.conn.replied, f.packet))
  }

  ghost predicate LinkInv(cfg: Config, tasks: seq<C.Task>, g: Gen, k: Link) {
    && S.Inv(cfg.conn(g), k.conn)
    && LoadOk(tasks, g, Load(k))
    && ContentsOk(tasks, g, k)
    && FlightsOk(cfg, g, k)
  }

  /** The rate limiter refused this request or event, on some connection. */
  ghost predicate RefusedSomewhere(links: seq<Link>, key: S.Key) {
    exists g :: 0 <= g < |links| && S.WasRefused(links[g].conn.refused, key)
  }

  /** An error as the client shows it: what the wire keeps of it, or the fallback when the reply has none. */
  function Shown(error: Option<ErrorPayload>): ErrorPayload {
    if error.None? then REMOTE_ERROR
    else if error.value.details == Some(Null) then error.value.(details := None)
    else error.value
  }

  /** What a call or event gets out of a reply of the server. */
  function Received(b: PacketBody): C.Reply
    requires S.IsReply(b)
  {
    if !b.ok then Err(C.Remote(Shown(b.error)))
    else Ok(if b.ApiResponse? then b.data else b.receipt)
  }

  /** The answer is what a reply under this key, handed in on some connection, comes to. */
  ghost predicate Explained(links: seq<Link>, key: S.Key, reply: C.Reply) {
    exists g, b :: 0 <= g < |links| && b in links[g].conn.replied && S.IsReply(b) && S.KeyOf(b) == key
                   && reply == Received(b)
  }

  ghost predicate AnswerOk(links: seq<Link>, task: C.Task) {
    task.pc.Numbered() && task.gone == [C.ByResponse] ==>
      task.cell.Filled? && Explained(links, KeyFor(task.ask.Kind(), task.pc.id), task.cell.reply)
  }

  ghost predicate LinksInv(cfg: Config, tasks: seq<C.Task>, links: seq<Link>) {
    forall g :: 0 <= g < |links| ==> LinkInv(cfg, tasks, g, links[g])
  }

  ghost predicate AnswersInv(links: seq<Link>, tasks: seq<C.Task>) {
    forall t :: 0 <= t < |tasks| ==> AnswerOk(links, tasks[t])
  }

  /** Tasks send on connections that exist. */
  predicate SendersInv(tasks: seq<C.Task>, n: nat) {
    forall t :: 0 <= t < |tasks| && tasks[t].pc.Sending? ==> tasks[t].pc.gen < n
  }

  ghost predicate Inv(cfg: Config, w: World) {
    && C.Inv(cfg.client, w.client)
    && |w.links| == w.client.life.generation + 1
    && SendersInv(w.client.tasks, |w.links|)
    && LinksInv(cfg, w.client.tasks, w.links)
    && AnswersInv(w.links, w.client.tasks)
  }

  // ----- Client steps move tasks forward only -----

  predicate Follows(a: C.Task, b: C.Task) {
    && b.ask == a.ask
    && (a.pc.Numbered() ==> b.pc.Numbered() && b.pc.id == a.pc.id)
    && (IsSent(a.pc) ==> IsSent(b.pc) && b.pc.gen == a.pc.gen)
  }

  predicate NotAnswered(a: C.Task, b: C.Task) {
    b.gone == [C.ByResponse] ==> a.gone == [C.ByResponse] && a.cell == b.cell
  }

  predicate Evolves(tasks: seq<C.Task>, tasks': seq<C.Task>) {
    |tasks| <= |tasks'| && forall t :: 0 <= t < |tasks| ==> Follows(tasks[t], tasks'[t])
  }

  /** Nobody is answered by a response in this step. */
  predicate Unanswered(tasks: seq<C.Task>, tasks': seq<C.Task>) {
    && |tasks| <= |tasks'|
    && (forall t :: 0 <= t < |tasks| ==> NotAnswered(tasks[t], tasks'[t]))
    && (forall t :: |tasks| <= t < |tasks'| ==> tasks'[t].gone == [])
  }

  /** Removing a waiter changes a cell and a history, never a program counter. */
  lemma RemoveFollows(s: C.State, k: L.Kind, id: nat, who: C.Remover, answer: Option<C.Reply>)
    ensures var s' := C.Remove(s, k, id, who, answer);
            && s'.life == s.life && |s'.tasks| == |s.tasks| && Evolves(s.tasks, s'.tasks)
            && (forall t :: 0 <= t < |s.tasks| ==> s'.tasks[t].pc == s.tasks[t].pc)
            && (who != C.ByResponse ==> Unanswered(s.tasks, s'.tasks))
  {
    var s' := C.Remove(s, k, id, who, answer);
    forall t | 0 <= t < |s.tasks| && who != C.ByResponse
      ensures NotAnswered(s.tasks[t], s'.tasks[t])
    {
      if s'.tasks[t] != s.tasks[t] {
        assert s'.tasks[t].gone == s.tasks[t].gone + [who];
        assert s'.tasks[t].gone[|s.tasks[t].gone|] == who;
      }
    }
  }

  lemma GotoFollows(s: C.State, s0: C.State, t: C.TaskId, pc: C.Pc)
    requires t < |s.tasks| == |s0.tasks| && Evolves(s.tasks, s0.tasks) && Unanswered(s.tasks, s0.tasks)
    requires forall u :: 0 <= u < |s.tasks| ==> s0.tasks[u].pc == s.tasks[u].pc
    requires Follows(s.tasks[t], s.tasks[t].(pc := pc))
    ensures Evolves(s.tasks, s0.Goto(t, pc).tasks) && Unanswered(s.tasks, s0.Goto(t, pc).tasks)
  {
    forall u | 0 <= u < |s.tasks|
      ensures Follows(s.tasks[u], s0.Goto(t, pc).tasks[u])
      ensures NotAnswered(s.tasks[u], s0.Goto(t, pc).tasks[u])
    {
    }
  }

  lemma InsertFollows(s: C.State, k: L.Kind, id: nat, t: C.TaskId)
    requires id !in s.Tab(k).waiters
    ensures var s' := C.Insert(s, k, id, t);
            && |s'.tasks| == |s.tasks| && Evolves(s.tasks, s'.tasks) && Unanswered(s.tasks, s'.tasks)
            && (forall u :: 0 <= u < |s.tasks| ==> s'.tasks[u].pc == s.tasks[u].pc)
  {
  }

  lemma TaskStepFollows(cfg: L.Config, s: C.State, step: C.Step)
    requires C.Enabled(cfg, s, step)
    requires step.CheckConnected? || step.FetchId? || step.LoadWriter? || step.Send? || step.SendFail?
             || step.Expire? || step.Receive?
    ensures Evolves(s.tasks, C.Next(cfg, s, step).tasks) && Unanswered(s.tasks, C.Next(cfg, s, step).tasks)
  {
    var pc := C.Next(cfg, s, step).tasks[step.t].pc;
    assert C.Next(cfg, s, step).tasks == s.Goto(step.t, pc).tasks;
    GotoFollows(s, s, step.t, pc);
  }

  lemma StepFollows(cfg: L.Config, s: C.State, step: C.Step)
    requires C.TablesInv(s) && C.Enabled(cfg, s, step) && !step.Respond?
    ensures Evolves(s.tasks, C.Next(cfg, s, step).tasks)
    ensures Unanswered(s.tasks, C.Next(cfg, s, step).tasks)
  {
    match step
    case Life(_) =>
    case Collect(_) =>
    case NewTask(_) =>
    case Drain(i, key, reason) =>
      RemoveFollows(s, s.life.drops[i].stage.kind, key, C.ByDrain, Some(Err(C.ConnectionClosed(reason))));
    case InsertWaiter(t) =>
      var k, id := s.tasks[t].ask.Kind(), s.tasks[t].pc.id;
      C.FreshOnInsert(s, t);
      InsertFollows(s, k, id, t);
      GotoFollows(s, C.Insert(s, k, id, t), t, C.Loading(id));
    case RemoveFailed(t) =>
      var k, id := s.tasks[t].ask.Kind(), s.tasks[t].pc.id;
      RemoveFollows(s, k, id, C.BySendFailure, None);
      GotoFollows(s, C.Remove(s, k, id, C.BySendFailure, None), t, C.Failed(id, Err(C.Disconnected)));
    case RemoveExpired(t) =>
      var k, id, g := s.tasks[t].ask.Kind(), s.tasks[t].pc.id, s.tasks[t].pc.gen;
      RemoveFollows(s, k, id, C.ByTimeout, None);
      GotoFollows(s, C.Remove(s, k, id, C.ByTimeout, None), t, C.Done(id, g, Err(C.Timeout)));
    case _ => TaskStepFollows(cfg, s, step);
  }

  lemma SentStays(tasks: seq<C.Task>, tasks': seq<C.Task>, g: Gen, key: S.Key)
    requires Evolves(tasks, tasks') && SentOn(tasks, g, key)
    ensures SentOn(tasks', g, key)
  {
    var t :| 0 <= t < |tasks| && SentAs(tasks[t], g, key);
    assert Follows(tasks[t], tasks'[t]);
    assert SentAs(tasks'[t], g, key);
  }

  lemma OwnedStays(tasks: seq<C.Task>, tasks': seq<C.Task>, g: Gen, p: PacketBody)
    requires Evolves(tasks, tasks')
    ensures Owned(tasks, g, p) ==> Owned(tasks', g, p)
    ensures OwnedRead(tasks, g, p) ==> OwnedRead(tasks', g, p)
  {
    forall t | 0 <= t < |tasks| && SentAs(tasks[t], g, S.KeyOf(p))
      ensures SentAs(tasks'[t], g, S.KeyOf(p)) && tasks'[t].ask == tasks[t].ask
    {
      assert Follows(tasks[t], tasks'[t]);
    }
  }

  /** What is true of a link stays true while tasks move forward. */
  lemma LinkStays(cfg: Config, tasks: seq<C.Task>, tasks': seq<C.Task>, g: Gen, k: Link)
    requires LinkInv(cfg, tasks, g, k) && Evolves(tasks, tasks')
    ensures LinkInv(cfg, tasks', g, k)
  {
    forall key | key != S.NoKey && Load(k)[key] > 0
      ensures SentOn(tasks', g, key)
    {
      SentStays(tasks, tasks', g, key);
    }
    forall p
      ensures Owned(tasks, g, p) ==> Owned(tasks', g, p)
      ensures OwnedRead(tasks, g, p) ==> OwnedRead(tasks', g, p)
    {
      OwnedStays(tasks, tasks', g, p);
    }
  }

  // ----- Steps of one link -----

  lemma LoadShrinks(tasks: seq<C.Task>, g: Gen, load: multiset<S.Key>, load': multiset<S.Key>)
    requires LoadOk(tasks, g, load) && forall key :: key != S.NoKey ==> load'[key] <= load[key]
    ensures LoadOk(tasks, g, load')
  {
  }

  lemma PacketsAppend(fs: seq<Flight>, f: Flight)
    ensures Packets(fs + [f]) == Packets(fs) + [f.packet]
  {
    assert (fs + [f])[..|fs|] == fs;
  }

  lemma {:induction false} PacketsTail(fs: seq<Flight>)
    requires fs != []
    ensures Packets(fs) == [fs[0].packet] + Packets(fs[1..])
  {
    if |fs| == 1 {
    } else {
      var init := fs[..|fs| - 1];
      PacketsTail(init);
      assert fs[1..] == init[1..] + [fs[|fs| - 1]];
      PacketsAppend(init[1..], fs[|fs| - 1]);
    }
  }

  lemma AsksAppend(ps: seq<PacketBody>, b: PacketBody)
    ensures Asks(ps + [b]) == Asks(ps) + multiset{AskKey(b)}
  {
    assert (ps + [b])[..|ps|] == ps;
  }

  lemma Swap(a: multiset<S.Key>, j: S.Key, k: S.Key)
    ensures (a + multiset{j}) + multiset{k} == (a + multiset{k}) + multiset{j}
  {
  }

  lemma {:induction false} AsksTail(ps: seq<PacketBody>)
    requires ps != []
    ensures Asks(ps) == Asks(ps[1..]) + multiset{AskKey(ps[0])}
  {
    if |ps| == 1 {
      assert ps[..0] == [] && ps[1..] == [];
    } else {
      var init, last := ps[..|ps| - 1], ps[|ps| - 1];
      AsksTail(init);
      assert ps[1..] == init[1..] + [last];
      AsksAppend(init[1..], last);
      Swap(Asks(init[1..]), AskKey(ps[0]), AskKey(last));
    }
  }

  lemma AsksHead(fs: seq<Flight>)
    requires fs != []
    ensures Asks(Packets(fs)) == Asks(Packets(fs[1..])) + multiset{AskKey(fs[0].packet)}
  {
    PacketsTail(fs);
    AsksTail(Packets(fs));
    assert Packets(fs)[1..] == Packets(fs[1..]);
  }

  /** What was decoded consists of requests and events, so it is counted in full. */
  lemma {:induction false} AsksAreKeys(ps: seq<PacketBody>)
    requires forall b :: b in ps ==> S.IsData(b)
    ensures Asks(ps) == S.Keys(ps)
  {
    if ps == [] {
    } else {
      assert ps[|ps| - 1] in ps;
      AsksAreKeys(ps[..|ps| - 1]);
    }
  }

  lemma WrittenIsEncoded(cfg: Config, g: Gen, nonce: Option<Nonce>, p: PacketBody)
    ensures forall f :: f in Written(cfg, g, nonce, p) ==>
              f.packet == p && Encoded(cfg, cfg.clientCodec(g), cfg.clientMode, f)
  {
  }

  /** The written packet moves from the queue to the wire, or vanishes. */
  lemma ClientWriteLoad(cfg: Config, g: Gen, k: Link, nonce: Option<Nonce>)
    requires k.queue != []
    ensures forall key :: Load(AfterClientWrite(cfg, g, k, nonce))[key] <= Load(k)[key]
  {
    var w := Written(cfg, g, nonce, k.queue[0]);
    AsksTail(k.queue);
    if w == [] {
      assert k.up + w == k.up;
    } else {
      PacketsAppend(k.up, w[0]);
      AsksAppend(Packets(k.up), k.queue[0]);
    }
  }

  lemma ClientWriteKeeps(cfg: Config, tasks: seq<C.Task>, g: Gen, k: Link, nonce: Option<Nonce>)
    requires LinkInv(cfg, tasks, g, k) && k.queue != []
    ensures LinkInv(cfg, tasks, g, AfterClientWrite(cfg, g, k, nonce))
  {
    var k' := AfterClientWrite(cfg, g, k, nonce);
    ClientWriteLoad(cfg, g, k, nonce);
    LoadShrinks(tasks, g, Load(k), Load(k'));
    WrittenIsEncoded(cfg, g, nonce, k.queue[0]);
    assert k.queue[0] in k.queue;
    assert forall p :: p in k'.queue ==> p in k.queue;
  }

  lemma LoseUpLoad(k: Link)
    requires k.up != []
    ensures forall key :: Load(k.(up := k.up[..|k.up| - 1]))[key] <= Load(k)[key]
  {
    AsksAppend(Packets(k.up[..|k.up| - 1]), k.up[|k.up| - 1].packet);
  }

  lemma FewerUp(cfg: Config, tasks: seq<C.Task>, g: Gen, k: Link, k': Link)
    requires LinkInv(cfg, tasks, g, k) && k' == k.(up := k'.up)
    requires (forall f :: f in k'.up ==> f in k.up) && forall key :: Load(k')[key] <= Load(k)[key]
    ensures LinkInv(cfg, tasks, g, k')
  {
    LoadShrinks(tasks, g, Load(k), Load(k'));
  }

  lemma LoseUpKeeps(cfg: Config, tasks: seq<C.Task>, g: Gen, k: Link)
    requires LinkInv(cfg, tasks, g, k) && k.up != []
    ensures LinkInv(cfg, tasks, g, k.(up := k.up[..|k.up| - 1]))
  {
    LoseUpLoad(k);
    FewerUp(cfg, tasks, g, k, k.(up := k.up[..|k.up| - 1]));
  }

  /** Frames of the server are taken off the wire, from either end. */
  lemma DownKeeps(cfg: Config, tasks: seq<C.Task>, g: Gen, k: Link, down: seq<Flight>)
    requires LinkInv(cfg, tasks, g, k) && forall f :: f in down ==> f in k.down
    ensures LinkInv(cfg, tasks, g, k.(down := down))
  {
    assert Load(k.(down := down)) == Load(k);
  }

  lemma AcknowledgeKeeps(cfg: Config, tasks: seq<C.Task>, g: Gen, k: Link, ack: PacketBody)
    requires LinkInv(cfg, tasks, g, k) && ack.EventAck?
    ensures LinkInv(cfg, tasks, g, k.(queue := k.queue + [ack]))
  {
    var k' := k.(queue := k.queue + [ack]);
    AsksAppend(k.queue, ack);
    LoadShrinks(tasks, g, Load(k), Load(k'));
  }

  /** What the server decodes from a frame of the client is the packet the frame was made from. */
  lemma ReadIsWhatWasSent(cfg: Config, g: Gen, f: Flight)
    requires ValidConfig(cfg) && Encoded(cfg, cfg.clientCodec(g), cfg.clientMode, f)
    ensures var r := Decode(cfg.conn(g).lib, cfg.conn(g).codec, f.frame);
            r.Ok? ==> ReadAs(r.value.body, f.packet)
  {
    if Decode(cfg.lib, cfg.conn(g).codec, f.frame).Ok? {
      var nonce :| Encode(cfg.lib, cfg.clientCodec(g), nonce, Envelope(f.packet, cfg.clientMode)) == Ok(f.frame);
      CrossDecodeShape(cfg.lib, cfg.clientCodec(g), cfg.conn(g).codec, nonce,
                       Envelope(f.packet, cfg.clientMode), f.frame);
    }
  }

  /** A message adds at most the packet it decodes to, and takes no reply back. */
  lemma MessageAdds(scfg: S.Config, c: S.Conn, bytes: seq<u8>, verdict: R.Verdict, nonce: Option<Nonce>)
    ensures var c', r := S.OnMessage(scfg, c, bytes, verdict, nonce), Decode(scfg.lib, scfg.codec, bytes);
            && c.replied <= c'.replied
            && (c'.decoded == c.decoded || (r.Ok? && c'.decoded == c.decoded + [r.value.body]))
  {
  }

  lemma ReadAsKey(b: PacketBody, p: PacketBody)
    requires ReadAs(b, p)
    ensures S.KeyOf(b) == S.KeyOf(p) && AskKey(b) == AskKey(p)
    ensures S.IsData(b) <==> S.IsData(p)
    ensures S.IsData(b) ==> IdOf(b) == IdOf(p)
  {
  }

  lemma ServerReadContents(tasks: seq<C.Task>, g: Gen, b: PacketBody, p: PacketBody)
    requires Owned(tasks, g, p) && ReadAs(b, p)
    ensures OwnedRead(tasks, g, b)
  {
    ReadAsKey(b, p);
    if S.IsData(b) {
      var t :| 0 <= t < |tasks| && SentAs(tasks[t], g, S.KeyOf(p)) && p == RequestOf(tasks[t].ask, IdOf(p));
      assert ReadAs(b, RequestOf(tasks[t].ask, IdOf(b)));
    }
  }

  /** One frame leaves the wire; at most the packet it was made from is decoded. */
  ghost predicate Takes(k: Link, k': Link, read: seq<PacketBody>) {
    && k.up != [] && |read| <= 1 && (forall b :: b in read ==> ReadAs(b, k.up[0].packet))
    && k' == k.(up := k.up[1..], conn := k'.conn)
    && k'.conn.decoded == k.conn.decoded + read
    && k.conn.replied <= k'.conn.replied
  }

  lemma TakeLoad(k: Link, k': Link, read: seq<PacketBody>)
    requires Takes(k, k', read)
    ensures forall key :: Load(k')[key] <= Load(k)[key]
  {
    AsksHead(k.up);
    if read == [] {
      assert k.conn.decoded + read == k.conn.decoded;
    } else {
      assert read == [read[0]];
      ReadAsKey(read[0], k.up[0].packet);
      AsksAppend(k.conn.decoded, read[0]);
    }
  }

  lemma TakeContents(tasks: seq<C.Task>, g: Gen, k: Link, k': Link, read: seq<PacketBody>)
    requires ContentsOk(tasks, g, k) && Takes(k, k', read)
    ensures ContentsOk(tasks, g, k')
  {
    var f := k.up[0];
    assert f in k.up && forall h :: h in k'.up ==> h in k.up;
    forall b | b in k'.conn.decoded
      ensures OwnedRead(tasks, g, b)
    {
      if b !in k.conn.decoded {
        ServerReadContents(tasks, g, b, f.packet);
      }
    }
  }

  lemma DownStays(cfg: Config, g: Gen, k: Link, conn: S.Conn)
    requires FlightsOk(cfg, g, k) && k.conn.replied <= conn.replied
    ensures FlightsOk(cfg, g, k.(conn := conn))
  {
    forall f | f in k.down
      ensures S.QueuedFrom(conn.replied, f.packet)
    {
      assert S.QueuedFrom(k.conn.replied, f.packet);
    }
  }

  lemma TakeKeeps(cfg: Config, tasks: seq<C.Task>, g: Gen, k: Link, k': Link, read: seq<PacketBody>)
    requires LinkInv(cfg, tasks, g, k) && Takes(k, k', read) && S.Inv(cfg.conn(g), k'.conn)
    ensures LinkInv(cfg, tasks, g, k')
  {
    TakeLoad(k, k', read);
    LoadShrinks(tasks, g, Load(k), Load(k'));
    TakeContents(tasks, g, k, k', read);
    DownStays(cfg, g, k, k'.conn);
    assert forall h :: h in k'.up ==> h in k.up;
  }

  lemma ReadTakes(cfg: Config, g: Gen, k: Link, verdict: R.Verdict, nonce: Option<Nonce>)
    returns (read: seq<PacketBody>)
    requires ValidConfig(cfg) && FlightsOk(cfg, g, k) && k.up != []
    ensures Takes(k, AfterServerRead(cfg, g, k, verdict, nonce), read)
  {
    var f, k' := k.up[0], AfterServerRead(cfg, g, k, verdict, nonce);
    MessageAdds(cfg.conn(g), k.conn, f.frame, verdict, nonce);
    assert f in k.up;
    ReadIsWhatWasSent(cfg, g, f);
    if k'.conn.decoded == k.conn.decoded {
      assert k.conn.decoded + [] == k.conn.decoded;
      read := [];
    } else {
      read := [Decode(cfg.conn(g).lib, cfg.conn(g).codec, f.frame).value.body];
    }
  }

  lemma ServerReadKeeps(cfg: Config, tasks: seq<C.Task>, g: Gen, k: Link, verdict: R.Verdict, nonce: Option<Nonce>)
    requires ValidConfig(cfg) && LinkInv(cfg, tasks, g, k) && k.up != [] && k.conn.reader == S.Reading
    ensures var k' := AfterServerRead(cfg, g, k, verdict, nonce);
            LinkInv(cfg, tasks, g, k') && LinkGrows(k, k')
  {
    S.MessageKeeps(cfg.conn(g), k.conn, k.up[0].frame, verdict, nonce);
    var read := ReadTakes(cfg, g, k, verdict, nonce);
    TakeKeeps(cfg, tasks, g, k, AfterServerRead(cfg, g, k, verdict, nonce), read);
  }

  /** Replies are never taken back. */
  predicate LinkGrows(k: Link, k': Link) {
    k.conn.replied <= k'.conn.replied
  }

  /** The server's own steps leave the wire and what was decoded alone. */
  lemma ConnStepKeeps(cfg: Config, tasks: seq<C.Task>, g: Gen, k: Link, conn: S.Conn)
    requires LinkInv(cfg, tasks, g, k) && S.Inv(cfg.conn(g), conn)
    requires conn.decoded == k.conn.decoded && k.conn.replied <= conn.replied
    ensures LinkInv(cfg, tasks, g, k.(conn := conn))
  {
    assert Load(k.(conn := conn)) == Load(k);
    DownStays(cfg, g, k, conn);
  }

  lemma ServeOnlyReplies(scfg: S.Config, c: S.Conn, step: S.Step)
    requires S.Enabled(c, step) && !step.Message?
    ensures S.Next(scfg, c, step).decoded == c.decoded && c.replied <= S.Next(scfg, c, step).replied
  {
  }

  lemma ServeKeeps(cfg: Config, tasks: seq<C.Task>, g: Gen, k: Link, step: S.Step)
    requires LinkInv(cfg, tasks, g, k) && S.Enabled(k.conn, step) && !step.Message?
    ensures LinkInv(cfg, tasks, g, k.(conn := S.Next(cfg.conn(g), k.conn, step)))
  {
    S.StepKeeps(cfg.conn(g), k.conn, step);
    ServeOnlyReplies(cfg.conn(g), k.conn, step);
    ConnStepKeeps(cfg, tasks, g, k, S.Next(cfg.conn(g), k.conn, step));
  }

  lemma SentIsEncoded(cfg: Config, g: Gen, q: S.Queued, nonce: Option<Nonce>)
    requires ValidConfig(cfg) && S.EntryOk(cfg.conn(g), q)
    ensures forall f :: f in Sent(cfg, g, q, nonce) ==>
              f.packet == q.packet && Encoded(cfg, cfg.conn(g).outCodec, cfg.conn(g).mode, f)
  {
  }

  lemma ServerWriteKeeps(cfg: Config, tasks: seq<C.Task>, g: Gen, k: Link, nonce: Option<Nonce>)
    requires ValidConfig(cfg) && LinkInv(cfg, tasks, g, k) && k.conn.outbox != []
    ensures LinkInv(cfg, tasks, g, AfterServerWrite(cfg, g, k, nonce))
  {
    var q, k' := k.conn.outbox[0], AfterServerWrite(cfg, g, k, nonce);
    S.WriteKeeps(cfg.conn(g), k.conn, nonce);
    ConnStepKeeps(cfg, tasks, g, k, k'.conn);
    assert q in k.conn.outbox && S.QueuedFrom(k.conn.replied, q.packet) && S.EntryOk(cfg.conn(g), q);
    SentIsEncoded(cfg, g, q, nonce);
    assert Load(k') == Load(k);
  }

  // ----- Steps of the world -----

  predicate Grows(links: seq<Link>, links': seq<Link>) {
    |links| <= |links'| && forall g :: 0 <= g < |links| ==> LinkGrows(links[g], links'[g])
  }

  lemma ExplainedStays(links: seq<Link>, links': seq<Link>, key: S.Key, reply: C.Reply)
    requires Grows(links, links') && Explained(links, key, reply)
    ensures Explained(links', key, reply)
  {
    var g, b :| 0 <= g < |links| && b in links[g].conn.replied && S.IsReply(b) && S.KeyOf(b) == key
                && reply == Received(b);
    assert LinkGrows(links[g], links'[g]);
    assert b in links'[g].conn.replied;
  }

  lemma AnswersStay(links: seq<Link>, links': seq<Link>, tasks: seq<C.Task>)
    requires Grows(links, links') && AnswersInv(links, tasks)
    ensures AnswersInv(links', tasks)
  {
    forall t | 0 <= t < |tasks|
      ensures AnswerOk(links', tasks[t])
    {
      assert AnswerOk(links, tasks[t]);
      var task := tasks[t];
      if task.pc.Numbered() && task.gone == [C.ByResponse] {
        ExplainedStays(links, links', KeyFor(task.ask.Kind(), task.pc.id), task.cell.reply);
      }
    }
  }

  lemma OneLinkLinks(cfg: Config, tasks: seq<C.Task>, links: seq<Link>, g: Gen, k: Link)
    requires LinksInv(cfg, tasks, links) && g < |links| && LinkInv(cfg, tasks, g, k)
    ensures LinksInv(cfg, tasks, links[g := k])
  {
    var links' := links[g := k];
    forall h | 0 <= h < |links'|
      ensures LinkInv(cfg, tasks, h, links'[h])
    {
      if h != g {
        assert LinkInv(cfg, tasks, h, links[h]);
      }
    }
  }

  lemma OneLinkGrows(links: seq<Link>, g: Gen, k: Link)
    requires g < |links| && LinkGrows(links[g], k)
    ensures Grows(links, links[g := k])
  {
    var links' := links[g := k];
    forall h | 0 <= h < |links|
      ensures LinkGrows(links[h], links'[h])
    {
      if h != g {
        assert links'[h] == links[h];
      }
    }
  }

  /** The client stays; links and answers move on. */
  lemma LinksMove(cfg: Config, w: World, links: seq<Link>)
    requires Inv(cfg, w) && |links| == |w.links|
    requires LinksInv(cfg, w.client.tasks, links) && AnswersInv(links, w.client.tasks)
    ensures Inv(cfg, w.(links := links))
  {
  }

  /** One link moves on; the client and the other links stay. */
  lemma OneLink(cfg: Config, w: World, g: Gen, k: Link)
    requires Inv(cfg, w) && g < |w.links| && LinkInv(cfg, w.client.tasks, g, k) && LinkGrows(w.links[g], k)
    ensures Inv(cfg, SetLink(w, g, k))
  {
    OneLinkLinks(cfg, w.client.tasks, w.links, g, k);
    OneLinkGrows(w.links, g, k);
    AnswersStay(w.links, w.links[g := k], w.client.tasks);
    LinksMove(cfg, w, w.links[g := k]);
  }

  /** A task that loads the writer is bound to the current generation; nobody else becomes a sender. */
  predicate SendersFrom(tasks: seq<C.Task>, tasks': seq<C.Task>, gen: Gen) {
    forall t :: 0 <= t < |tasks'| && tasks'[t].pc.Sending? ==>
      tasks'[t].pc.gen == gen || (t < |tasks| && tasks[t].pc == tasks'[t].pc)
  }

  lemma GotoSenders(s: C.State, s0: C.State, t: C.TaskId, pc: C.Pc, gen: Gen)
    requires t < |s.tasks| == |s0.tasks| && (pc.Sending? ==> pc.gen == gen)
    requires forall u :: 0 <= u < |s.tasks| ==> s0.tasks[u].pc == s.tasks[u].pc
    ensures SendersFrom(s.tasks, s0.Goto(t, pc).tasks, gen)
  {
  }

  lemma StepSenders(cfg: L.Config, s: C.State, step: C.Step)
    requires L.Inv(s.life) && C.TablesInv(s) && C.Enabled(cfg, s, step) && !step.Respond?
    ensures SendersFrom(s.tasks, C.Next(cfg, s, step).tasks, s.life.generation)
  {
    match step
    case Life(_) =>
    case Collect(_) =>
    case NewTask(_) =>
    case Drain(i, key, reason) =>
      RemoveFollows(s, s.life.drops[i].stage.kind, key, C.ByDrain, Some(Err(C.ConnectionClosed(reason))));
    case InsertWaiter(t) =>
      var k, id := s.tasks[t].ask.Kind(), s.tasks[t].pc.id;
      C.FreshOnInsert(s, t);
      InsertFollows(s, k, id, t);
      GotoSenders(s, C.Insert(s, k, id, t), t, C.Loading(id), s.life.generation);
    case RemoveFailed(t) =>
      var k, id := s.tasks[t].ask.Kind(), s.tasks[t].pc.id;
      RemoveFollows(s, k, id, C.BySendFailure, None);
      GotoSenders(s, C.Remove(s, k, id, C.BySendFailure, None), t, C.Failed(id, Err(C.Disconnected)),
                  s.life.generation);
    case RemoveExpired(t) =>
      var k, id, g := s.tasks[t].ask.Kind(), s.tasks[t].pc.id, s.tasks[t].pc.gen;
      RemoveFollows(s, k, id, C.ByTimeout, None);
      GotoSenders(s, C.Remove(s, k, id, C.ByTimeout, None), t, C.Done(id, g, Err(C.Timeout)), s.life.generation);
    case _ => MoveSenders(cfg, s, step);
  }

  lemma MoveSenders(cfg: L.Config, s: C.State, step: C.Step)
    requires L.Inv(s.life) && C.Enabled(cfg, s, step)
    requires step.CheckConnected? || step.FetchId? || step.LoadWriter? || step.Send? || step.SendFail?
             || step.Expire? || step.Receive?
    ensures SendersFrom(s.tasks, C.Next(cfg, s, step).tasks, s.life.generation)
  {
    var pc := C.Next(cfg, s, step).tasks[step.t].pc;
    assert C.Next(cfg, s, step).tasks == s.Goto(step.t, pc).tasks;
    GotoSenders(s, s, step.t, pc, s.life.generation);
  }

  /** Generations advance by at most one in a step. */
  lemma GenerationMoves(cfg: L.Config, s: C.State, step: C.Step)
    requires C.Enabled(cfg, s, step)
    ensures s.life.generation <= C.Next(cfg, s, step).life.generation <= s.life.generation + 1
  {
    if step.Drain? {
      RemoveFollows(s, s.life.drops[step.i].stage.kind, step.key, C.ByDrain,
                    Some(Err(C.ConnectionClosed(step.reason))));
    }
  }

  lemma NewLinkInv(cfg: Config, tasks: seq<C.Task>, g: Gen)
    ensures LinkInv(cfg, tasks, g, NewLink(cfg, g))
  {
    S.NewConnInv(cfg.conn(g), cfg.connId(g));
  }

  /** Links and answers after a client step in which no response arrives. */
  lemma ClientMoves(cfg: Config, w: World, s: C.State)
    requires Inv(cfg, w) && C.Inv(cfg.client, s)
    requires Evolves(w.client.tasks, s.tasks) && Unanswered(w.client.tasks, s.tasks)
    requires SendersFrom(w.client.tasks, s.tasks, w.client.life.generation)
    requires w.client.life.generation <= s.life.generation <= w.client.life.generation + 1
    ensures Inv(cfg, World(s, Extended(cfg, w.links, s.life.generation)))
  {
    var links := Extended(cfg, w.links, s.life.generation);
    forall g | 0 <= g < |links|
      ensures LinkInv(cfg, s.tasks, g, links[g])
    {
      if g < |w.links| {
        LinkStays(cfg, w.client.tasks, s.tasks, g, w.links[g]);
      } else {
        NewLinkInv(cfg, s.tasks, g);
      }
    }
    forall t | 0 <= t < |s.tasks|
      ensures AnswerOk(w.links, s.tasks[t])
    {
      if t < |w.client.tasks| {
        KeptAnswer(w.client, s.tasks[t], t, w.links);
      }
    }
    AnswersStay(w.links, links, s.tasks);
  }

  /** An answer that was there before is still explained. */
  lemma KeptAnswer(s: C.State, task: C.Task, t: C.TaskId, links: seq<Link>)
    requires C.TablesInv(s) && t < |s.tasks| && AnswerOk(links, s.tasks[t])
    requires Follows(s.tasks[t], task) && NotAnswered(s.tasks[t], task)
    ensures AnswerOk(links, task)
  {
    assert C.TaskOk(s, t);
  }

  lemma ClientKeeps(cfg: Config, w: World, step: C.Step)
    requires ValidConfig(cfg) && Inv(cfg, w) && Enabled(cfg, w, Client(step))
    ensures Inv(cfg, Next(cfg, w, Client(step)))
  {
    C.StepKeeps(cfg.client, w.client, step);
    StepFollows(cfg.client, w.client, step);
    StepSenders(cfg.client, w.client, step);
    GenerationMoves(cfg.client, w.client, step);
    ClientMoves(cfg, w, C.Next(cfg.client, w.client, step));
  }

  // ----- Sending -----

  /** Nobody has sent anything under the key of a task that is about to send. */
  lemma UnsentKey(s: C.State, t: C.TaskId, g: Gen)
    requires C.TablesInv(s) && t < |s.tasks| && s.tasks[t].pc.Sending?
    ensures !SentOn(s.tasks, g, KeyFor(s.tasks[t].ask.Kind(), s.tasks[t].pc.id))
  {
    var key := KeyFor(s.tasks[t].ask.Kind(), s.tasks[t].pc.id);
    if u :| 0 <= u < |s.tasks| && SentAs(s.tasks[u], g, key) {
      assert u != t && C.SameId(s.tasks[u], s.tasks[t]) && C.SameId(s.tasks[t], s.tasks[u]);
      assert false;
    }
  }

  lemma SentLoad(tasks: seq<C.Task>, g: Gen, load: multiset<S.Key>, key: S.Key)
    requires LoadOk(tasks, g, load) && SentOn(tasks, g, key) && load[key] == 0
    ensures LoadOk(tasks, g, load + multiset{key})
  {
  }

  lemma QueueLoad(k: Link, p: PacketBody)
    ensures Load(k.(queue := k.queue + [p])) == Load(k) + multiset{AskKey(p)}
  {
    AsksAppend(k.queue, p);
  }

  /** The link of a task that sends: `tasks'` are the tasks after the step. */
  lemma SendLink(cfg: Config, s: C.State, t: C.TaskId, tasks': seq<C.Task>, g: Gen, k: Link)
    requires C.TablesInv(s) && t < |s.tasks| && s.tasks[t].pc.Sending? && s.tasks[t].pc.id < U64_RANGE
    requires g == s.tasks[t].pc.gen && LinkInv(cfg, s.tasks, g, k) && Evolves(s.tasks, tasks')
    requires tasks'[t].ask == s.tasks[t].ask && tasks'[t].pc == C.Waiting(s.tasks[t].pc.id, g)
    ensures LinkInv(cfg, tasks', g, k.(queue := k.queue + [RequestOf(s.tasks[t].ask, s.tasks[t].pc.id)]))
  {
    var p := RequestOf(s.tasks[t].ask, s.tasks[t].pc.id);
    var key := S.KeyOf(p);
    UnsentKey(s, t, g);
    assert Load(k)[key] == 0;
    LinkStays(cfg, s.tasks, tasks', g, k);
    assert SentAs(tasks'[t], g, key);
    SentLoad(tasks', g, Load(k), key);
    QueueLoad(k, p);
    assert Owned(tasks', g, p);
  }

  lemma SendKeeps(cfg: Config, w: World, t: C.TaskId)
    requires ValidConfig(cfg) && Inv(cfg, w) && Enabled(cfg, w, Send(t))
    ensures Inv(cfg, Next(cfg, w, Send(t)))
  {
    var s, task := C.Next(cfg.client, w.client, C.Send(t)), w.client.tasks[t];
    C.StepKeeps(cfg.client, w.client, C.Send(t));
    StepFollows(cfg.client, w.client, C.Send(t));
    StepSenders(cfg.client, w.client, C.Send(t));
    ClientMoves(cfg, w, s);
    assert Extended(cfg, w.links, s.life.generation) == w.links;
    var g, k := task.pc.gen, w.links[task.pc.gen];
    SendLink(cfg, w.client, t, s.tasks, g, k);
    OneLink(cfg, World(s, w.links), g, k.(queue := k.queue + [RequestOf(task.ask, task.pc.id)]));
  }

  // ----- Reading a reply -----

  lemma ReplyIsWhatWasSent(cfg: Config, g: Gen, f: Flight)
    requires ValidConfig(cfg) && Encoded(cfg, cfg.conn(g).outCodec, cfg.conn(g).mode, f)
    ensures var r := Decode(cfg.lib, cfg.clientCodec(g), f.frame);
            r.Ok? ==> ReadAs(r.value.body, f.packet)
  {
    if Decode(cfg.lib, cfg.clientCodec(g), f.frame).Ok? {
      var out, mode := cfg.conn(g).outCodec, cfg.conn(g).mode;
      var nonce :| Encode(cfg.lib, out, nonce, Envelope(f.packet, mode)) == Ok(f.frame);
      CrossDecodeShape(cfg.lib, out, cfg.clientCodec(g), nonce, Envelope(f.packet, mode), f.frame);
    }
  }

  /** A reply that is read under a client's id, which is never 0, is one the server handed in. */
  lemma ReadReplyIsExplained(links: seq<Link>, g: Gen, b: PacketBody, p: PacketBody)
    requires g < |links| && S.QueuedFrom(links[g].conn.replied, p) && ReadAs(b, p)
    ensures b.ApiResponse? && b.requestId > 0 ==>
              Explained(links, KeyFor(L.Call, b.requestId), Answer(b.ok, b.data, b.error))
    ensures b.EventAck? ==> Explained(links, KeyFor(L.Emit, b.eventId), Answer(b.ok, b.receipt, b.error))
  {
    if (b.ApiResponse? && b.requestId > 0) || b.EventAck? {
      assert b == Normal(p) && p in links[g].conn.replied && S.KeyOf(p) == S.KeyOf(b);
      assert Received(p) == Answer(b.ok, if b.ApiResponse? then b.data else b.receipt, b.error);
    }
  }

  /** Answering one waiter: the client's invariant, its program counters and the other answers stay. */
  lemma AnswerKeeps(cfg: Config, w: World, k: L.Kind, id: u64, reply: C.Reply)
    requires Inv(cfg, w)
    requires id > 0 ==> Explained(w.links, KeyFor(k, id), reply)
    ensures Inv(cfg, World(C.Remove(w.client, k, id, C.ByResponse, Some(reply)), w.links))
  {
    var s := C.Remove(w.client, k, id, C.ByResponse, Some(reply));
    C.RespondKeeps(cfg.client, w.client, s, k, id, reply);
    RemoveFollows(w.client, k, id, C.ByResponse, Some(reply));
    C.WaiterIdsArePositive(w.client);
    LinksStay(cfg, w, s.tasks);
    AnswersAfter(w.client, w.links, k, id, reply);
  }

  lemma LinksStay(cfg: Config, w: World, tasks: seq<C.Task>)
    requires LinksInv(cfg, w.client.tasks, w.links) && Evolves(w.client.tasks, tasks)
    ensures LinksInv(cfg, tasks, w.links)
  {
    forall g | 0 <= g < |w.links|
      ensures LinkInv(cfg, tasks, g, w.links[g])
    {
      LinkStays(cfg, w.client.tasks, tasks, g, w.links[g]);
    }
  }

  lemma AnswersAfter(s: C.State, links: seq<Link>, k: L.Kind, id: u64, reply: C.Reply)
    requires C.TablesInv(s) && AnswersInv(links, s.tasks)
    requires id in s.Tab(k).waiters ==> Explained(links, KeyFor(k, id), reply)
    ensures AnswersInv(links, C.Remove(s, k, id, C.ByResponse, Some(reply)).tasks)
  {
    var s' := C.Remove(s, k, id, C.ByResponse, Some(reply));
    if id in s.Tab(k).waiters {
      assert C.WaiterOk(s, k, id);
    }
    forall t | 0 <= t < |s'.tasks|
      ensures AnswerOk(links, s'.tasks[t])
    {
      assert AnswerOk(links, s.tasks[t]);
    }
  }

  lemma DispatchRemoves(s: C.State, b: PacketBody)
    ensures b.ApiResponse? ==>
              Dispatch(s, b) == C.Remove(s, L.Call, b.requestId, C.ByResponse, Some(Answer(b.ok, b.data, b.error)))
    ensures b.EventAck? ==>
              Dispatch(s, b) == C.Remove(s, L.Emit, b.eventId, C.ByResponse, Some(Answer(b.ok, b.receipt, b.error)))
    ensures !b.ApiResponse? && !b.EventAck? ==> Dispatch(s, b) == s
  {
  }

  lemma ResponseKeeps(cfg: Config, w: World, b: PacketBody, s: C.State)
    requires Inv(cfg, w) && b.ApiResponse?
    requires b.requestId > 0 ==> Explained(w.links, KeyFor(L.Call, b.requestId), Answer(b.ok, b.data, b.error))
    requires s == C.Remove(w.client, L.Call, b.requestId, C.ByResponse, Some(Answer(b.ok, b.data, b.error)))
    ensures Inv(cfg, World(s, w.links))
  {
    AnswerKeeps(cfg, w, L.Call, b.requestId, Answer(b.ok, b.data, b.error));
  }

  lemma AckKeeps(cfg: Config, w: World, b: PacketBody, s: C.State)
    requires Inv(cfg, w) && b.EventAck?
    requires b.eventId > 0 ==> Explained(w.links, KeyFor(L.Emit, b.eventId), Answer(b.ok, b.receipt, b.error))
    requires s == C.Remove(w.client, L.Emit, b.eventId, C.ByResponse, Some(Answer(b.ok, b.receipt, b.error)))
    ensures Inv(cfg, World(s, w.links))
  {
    AnswerKeeps(cfg, w, L.Emit, b.eventId, Answer(b.ok, b.receipt, b.error));
  }

  lemma DispatchKeeps(cfg: Config, w: World, g: Gen, b: PacketBody, p: PacketBody)
    requires Inv(cfg, w) && g < |w.links| && ReadAs(b, p) && S.QueuedFrom(w.links[g].conn.replied, p)
    ensures Inv(cfg, World(Dispatch(w.client, b), w.links))
  {
    ReadReplyIsExplained(w.links, g, b, p);
    DispatchRemoves(w.client, b);
    if b.ApiResponse? {
      ResponseKeeps(cfg, w, b, Dispatch(w.client, b));
    } else if b.EventAck? {
      AckKeeps(cfg, w, b, Dispatch(w.client, b));
    } else {
      assert World(Dispatch(w.client, b), w.links) == w;
    }
  }

  // ----- What one reply does -----

  /** One waiter is answered and gone; every other task and table entry stays. */
  ghost predicate AnswersOnly(s: C.State, s': C.State, k: L.Kind, id: nat, cell: C.Cell)
    requires id in s.Tab(k).waiters
  {
    var t := s.Tab(k).waiters[id];
    && t < |s.tasks| == |s'.tasks|
    && s'.tasks[t] == C.Task(s.tasks[t].ask, s.tasks[t].pc, cell, [C.ByResponse])
    && (forall u :: 0 <= u < |s.tasks| && u != t ==> s'.tasks[u] == s.tasks[u])
    && s'.Tab(k).waiters == s.Tab(k).waiters - {id} && s'.Tab(k).lastId == s.Tab(k).lastId
    && s'.Tab(if k == L.Call then L.Emit else L.Call) == s.Tab(if k == L.Call then L.Emit else L.Call)
    && s'.life == s.life
  }

  /**
   * A response answers the call registered under its id: with its data if it is ok, and otherwise with its
   * own error, or the fallback error if it has none. The id is gone and nobody else is touched. Under an id
   * that is not registered, 0 among them, nothing happens.
   */
  lemma ResponseAnswers(
    s: C.State, id: u64, ok: bool, status: u16, data: Json, error: Option<ErrorPayload>, metadata: Json)
    requires C.TablesInv(s)
    ensures var s' := Dispatch(s, ApiResponse(id, ok, status, data, error, metadata));
            var fallback := ErrorPayload("remote_error", "missing remote error", 500, None);
            if id in s.calls.waiters then
              && (ok ==> AnswersOnly(s, s', L.Call, id, C.Filled(Ok(data))))
              && (!ok && error.Some? ==> AnswersOnly(s, s', L.Call, id, C.Filled(Err(C.Remote(error.value)))))
              && (!ok && error.None? ==> AnswersOnly(s, s', L.Call, id, C.Filled(Err(C.Remote(fallback)))))
            else s' == s
    ensures 0 !in s.calls.waiters
  {
    C.WaiterIdsArePositive(s);
    if id in s.calls.waiters {
      assert id in s.Tab(L.Call).waiters && C.WaiterOk(s, L.Call, id);
    }
  }

  /** An acknowledgement answers the event registered under its id in the same way. */
  lemma AckAnswers(s: C.State, id: u64, ok: bool, receipt: Json, error: Option<ErrorPayload>)
    requires C.TablesInv(s)
    ensures var s' := Dispatch(s, EventAck(id, ok, receipt, error));
            var fallback := ErrorPayload("remote_error", "missing remote error", 500, None);
            if id in s.events.waiters then
              && (ok ==> AnswersOnly(s, s', L.Emit, id, C.Filled(Ok(receipt))))
              && (!ok && error.Some? ==> AnswersOnly(s, s', L.Emit, id, C.Filled(Err(C.Remote(error.value)))))
              && (!ok && error.None? ==> AnswersOnly(s, s', L.Emit, id, C.Filled(Err(C.Remote(fallback)))))
            else s' == s
  {
    if id in s.events.waiters {
      assert id in s.Tab(L.Emit).waiters && C.WaiterOk(s, L.Emit, id);
    }
  }

  /** A frame error of the server completes nobody, and other packets are no answers. */
  lemma OthersAnswerNobody(s: C.State, b: PacketBody)
    requires C.TablesInv(s) && (S.IsFrameError(b) || b.ApiRequest? || b.EventEmit? || b.AuthRequest? || b.AuthResponse?)
    ensures Dispatch(s, b) == s
  {
    C.WaiterIdsArePositive(s);
    assert 0 !in s.Tab(L.Call).waiters;
  }

  lemma ClientReadKeeps(cfg: Config, w: World, g: Gen)
    requires ValidConfig(cfg) && Inv(cfg, w) && Enabled(cfg, w, ClientRead(g))
    ensures Inv(cfg, Next(cfg, w, ClientRead(g)))
  {
    var k, f := w.links[g], w.links[g].down[0];
    assert LinkInv(cfg, w.client.tasks, g, k) && f in k.down;
    ReplyIsWhatWasSent(cfg, g, f);
    var w1 := SetLink(w, g, k.(down := k.down[1..]));
    DownStep(cfg, w, g, k.down[1..]);
    var r := Decode(cfg.lib, cfg.clientCodec(g), f.frame);
    if r.Ok? {
      DispatchKeeps(cfg, w1, g, r.value.body, f.packet);
    }
  }

  lemma AcknowledgeStep(cfg: Config, w: World, g: Gen, ack: PacketBody)
    requires Inv(cfg, w) && g < |w.links| && ack.EventAck?
    ensures Inv(cfg, SetLink(w, g, w.links[g].(queue := w.links[g].queue + [ack])))
  {
    assert LinkInv(cfg, w.client.tasks, g, w.links[g]);
    AcknowledgeKeeps(cfg, w.client.tasks, g, w.links[g], ack);
    OneLink(cfg, w, g, w.links[g].(queue := w.links[g].queue + [ack]));
  }

  lemma ClientWriteStep(cfg: Config, w: World, g: Gen, nonce: Option<Nonce>)
    requires Inv(cfg, w) && g < |w.links| && w.links[g].queue != []
    ensures Inv(cfg, SetLink(w, g, AfterClientWrite(cfg, g, w.links[g], nonce)))
  {
    assert LinkInv(cfg, w.client.tasks, g, w.links[g]);
    ClientWriteKeeps(cfg, w.client.tasks, g, w.links[g], nonce);
    OneLink(cfg, w, g, AfterClientWrite(cfg, g, w.links[g], nonce));
  }

  lemma LoseUpStep(cfg: Config, w: World, g: Gen)
    requires Inv(cfg, w) && g < |w.links| && w.links[g].up != []
    ensures Inv(cfg, SetLink(w, g, w.links[g].(up := w.links[g].up[..|w.links[g].up| - 1])))
  {
    assert LinkInv(cfg, w.client.tasks, g, w.links[g]);
    LoseUpKeeps(cfg, w.client.tasks, g, w.links[g]);
    OneLink(cfg, w, g, w.links[g].(up := w.links[g].up[..|w.links[g].up| - 1]));
  }

  lemma ServerReadStep(cfg: Config, w: World, g: Gen, verdict: R.Verdict, nonce: Option<Nonce>)
    requires ValidConfig(cfg) && Inv(cfg, w) && g < |w.links| && w.links[g].up != []
    requires w.links[g].conn.reader == S.Reading
    ensures Inv(cfg, SetLink(w, g, AfterServerRead(cfg, g, w.links[g], verdict, nonce)))
  {
    assert LinkInv(cfg, w.client.tasks, g, w.links[g]);
    ServerReadKeeps(cfg, w.client.tasks, g, w.links[g], verdict, nonce);
    OneLink(cfg, w, g, AfterServerRead(cfg, g, w.links[g], verdict, nonce));
  }

  lemma ServeStep(cfg: Config, w: World, g: Gen, s: S.Step)
    requires Inv(cfg, w) && g < |w.links| && S.Enabled(w.links[g].conn, s) && !s.Message?
    ensures Inv(cfg, SetLink(w, g, w.links[g].(conn := S.Next(cfg.conn(g), w.links[g].conn, s))))
  {
    assert LinkInv(cfg, w.client.tasks, g, w.links[g]);
    ServeKeeps(cfg, w.client.tasks, g, w.links[g], s);
    ServeOnlyReplies(cfg.conn(g), w.links[g].conn, s);
    OneLink(cfg, w, g, w.links[g].(conn := S.Next(cfg.conn(g), w.links[g].conn, s)));
  }

  lemma ServerWriteStep(cfg: Config, w: World, g: Gen, nonce: Option<Nonce>)
    requires ValidConfig(cfg) && Inv(cfg, w) && g < |w.links| && w.links[g].conn.outbox != []
    ensures Inv(cfg, SetLink(w, g, AfterServerWrite(cfg, g, w.links[g], nonce)))
  {
    assert LinkInv(cfg, w.client.tasks, g, w.links[g]);
    ServerWriteKeeps(cfg, w.client.tasks, g, w.links[g], nonce);
    OneLink(cfg, w, g, AfterServerWrite(cfg, g, w.links[g], nonce));
  }

  lemma DownStep(cfg: Config, w: World, g: Gen, down: seq<Flight>)
    requires Inv(cfg, w) && g < |w.links| && forall f :: f in down ==> f in w.links[g].down
    ensures Inv(cfg, SetLink(w, g, w.links[g].(down := down)))
  {
    assert LinkInv(cfg, w.client.tasks, g, w.links[g]);
    DownKeeps(cfg, w.client.tasks, g, w.links[g], down);
    OneLink(cfg, w, g, w.links[g].(down := down));
  }

  lemma StepKeeps(cfg: Config, w: World, step: Step)
    requires ValidConfig(cfg) && Inv(cfg, w) && Enabled(cfg, w, step)
    ensures Inv(cfg, Next(cfg, w, step))
  {
    match step
    case Client(c) => ClientKeeps(cfg, w, c);
    case Send(t) => SendKeeps(cfg, w, t);
    case ClientRead(g) => ClientReadKeeps(cfg, w, g);
    case Acknowledge(g, ack) => AcknowledgeStep(cfg, w, g, ack);
    case ClientWrite(g, nonce) => ClientWriteStep(cfg, w, g, nonce);
    case LoseUp(g) => LoseUpStep(cfg, w, g);
    case ServerRead(g, verdict, nonce) => ServerReadStep(cfg, w, g, verdict, nonce);
    case Serve(g, s) => ServeStep(cfg, w, g, s);
    case ServerWrite(g, nonce) => ServerWriteStep(cfg, w, g, nonce);
    case LoseDown(g) => DownStep(cfg, w, g, w.links[g].down[..|w.links[g].down| - 1]);
  }

  lemma StartClientInv(cfg: L.Config)
    ensures C.Inv(cfg, C.INIT_STATE)
  {
    L.InitInv();
  }

  lemma StartInv(cfg: Config)
    ensures Inv(cfg, Start(cfg))
  {
    StartClientInv(cfg.client);
    NewLinkInv(cfg, [], 0);
  }

  lemma {:induction false} RunInv(cfg: Config, steps: seq<Step>)
    requires ValidConfig(cfg)
    ensures Inv(cfg, Run(cfg, steps))
  {
    if steps == [] {
      StartInv(cfg);
    } else {
      var w, step := Run(cfg, steps[..|steps| - 1]), steps[|steps| - 1];
      RunInv(cfg, steps[..|steps| - 1]);
      if Enabled(cfg, w, step) {
        StepKeeps(cfg, w, step);
      }
    }
  }

  // ----- What a call or an event can rely on -----

  /** How often a handler ran under this key on any of these connections. */
  function Executions(links: seq<Link>, key: S.Key): nat {
    if links == [] then 0
    else Executions(links[..|links| - 1], key) + S.ExecKeys(links[|links| - 1].conn.handled)[key]
  }

  lemma {:induction false} RunsHaveWitness(hs: seq<S.Handling>, key: S.Key)
    ensures S.ExecKeys(hs)[key] > 0 <==> exists h :: h in hs && h.fate.Executed? && S.KeyOf(h.request) == key
  {
    if hs == [] {
    } else {
      var front, last := hs[..|hs| - 1], hs[|hs| - 1];
      RunsHaveWitness(front, key);
      assert hs == front + [last];
      if h :| h in hs && h.fate.Executed? && S.KeyOf(h.request) == key {
        assert h in front || h == last;
      }
    }
  }

  lemma {:induction false} HandledHasWitness(hs: seq<S.Handling>, h: S.Handling)
    requires h in hs
    ensures S.HandledKeys(hs)[S.KeyOf(h.request)] > 0
  {
    var front, last := hs[..|hs| - 1], hs[|hs| - 1];
    assert hs == front + [last];
    if h in front {
      HandledHasWitness(front, h);
    }
  }

  /** A key that was handled at most once was handled by one record. */
  lemma {:induction false} HandledOnce(hs: seq<S.Handling>, h: S.Handling, h': S.Handling)
    requires h in hs && h' in hs && S.KeyOf(h.request) == S.KeyOf(h'.request)
    requires S.HandledKeys(hs)[S.KeyOf(h.request)] <= 1
    ensures h == h'
  {
    var front, last := hs[..|hs| - 1], hs[|hs| - 1];
    assert hs == front + [last];
    if h in front && h' in front {
      HandledOnce(front, h, h');
    } else if h in front {
      HandledHasWitness(front, h);
    } else if h' in front {
      HandledHasWitness(front, h');
    }
  }

  lemma {:induction false} RefusalsHaveWitness(ps: seq<PacketBody>, key: S.Key)
    ensures S.Keys(ps)[key] > 0 <==> S.WasRefused(ps, key)
  {
    if ps == [] {
    } else {
      var front, last := ps[..|ps| - 1], ps[|ps| - 1];
      RefusalsHaveWitness(front, key);
      assert ps == front + [last];
      if p :| p in ps && S.KeyOf(p) == key {
        assert p in front || p == last;
      }
    }
  }

  /** The packet is the one this task sent, field by field, as the wire carries it. */
  predicate Mine(task: C.Task, b: PacketBody) {
    var metadata := Obj(map["client_name" := Str("rust-demo")]);
    match task.ask
    case AskCall(route, params, atts) =>
      && b.ApiRequest? && b.requestId == IdIn(task.pc) && b.route == route && b.params == params && b.metadata == metadata
      && (ListFits(atts) ==> b.attachments == atts)
    case AskEvent(name, data, atts) =>
      && b.EventEmit? && b.eventId == IdIn(task.pc) && b.name == name && b.payload == data && b.metadata == metadata
      && b.expectAck && (ListFits(atts) ==> b.attachments == atts)
  }

  function IdIn(pc: C.Pc): nat {
    if pc.Numbered() then pc.id else 0
  }

  lemma ReadIsMine(task: C.Task, g: Gen, b: PacketBody)
    requires S.IsData(b) && SentAs(task, g, S.KeyOf(b)) && ReadAs(b, RequestOf(task.ask, IdOf(b)))
    ensures Mine(task, b)
  {
    assert "client_name" in CLIENT_METADATA.fields;
  }

  /** Whatever was decoded under a task's key was sent by that task, on the connection it was sent on. */
  lemma DecodedIsMine(cfg: Config, w: World, t: C.TaskId, g: Gen, b: PacketBody)
    requires Inv(cfg, w) && t < |w.client.tasks| && g < |w.links| && b in w.links[g].conn.decoded
    requires w.client.tasks[t].pc.Numbered()
    requires S.KeyOf(b) == KeyFor(w.client.tasks[t].ask.Kind(), w.client.tasks[t].pc.id)
    ensures S.IsData(b) && SentAs(w.client.tasks[t], g, S.KeyOf(b)) && Mine(w.client.tasks[t], b)
  {
    var tasks := w.client.tasks;
    assert LinkInv(cfg, tasks, g, w.links[g]);
    assert OwnedRead(tasks, g, b);
    var u := SenderOf(tasks, g, b);
    SameSender(w.client, t, u, g, S.KeyOf(b));
    ReadIsMine(tasks[t], g, b);
  }

  lemma SenderOf(tasks: seq<C.Task>, g: Gen, b: PacketBody) returns (u: C.TaskId)
    requires S.IsData(b) && OwnedRead(tasks, g, b)
    ensures u < |tasks| && SentAs(tasks[u], g, S.KeyOf(b)) && ReadAs(b, RequestOf(tasks[u].ask, IdOf(b)))
  {
    u :| 0 <= u < |tasks| && SentAs(tasks[u], g, S.KeyOf(b)) && ReadAs(b, RequestOf(tasks[u].ask, IdOf(b)));
  }

  lemma SameSender(s: C.State, t: C.TaskId, u: C.TaskId, g: Gen, key: S.Key)
    requires C.TablesInv(s) && t < |s.tasks| && u < |s.tasks| && s.tasks[t].pc.Numbered()
    requires key == KeyFor(s.tasks[t].ask.Kind(), s.tasks[t].pc.id) && SentAs(s.tasks[u], g, key)
    ensures u == t
  {
    if u != t {
      assert C.SameId(s.tasks[u], s.tasks[t]) && C.SameId(s.tasks[t], s.tasks[u]);
    }
  }

  function KeyOfTask(task: C.Task): S.Key
    requires task.pc.Numbered()
  {
    KeyFor(task.ask.Kind(), task.pc.id)
  }

  lemma CountBound(x: multiset<S.Key>, a: multiset<S.Key>, w: multiset<S.Key>, r: multiset<S.Key>,
                   d: multiset<S.Key>, key: S.Key)
    requires x + a + w + r == d
    ensures x[key] + r[key] <= d[key]
  {
    assert x[key] + r[key] <= (x + a + w + r)[key];
  }

  /** On one connection a key is handled or refused at most once, and not both. */
  lemma AtMostOnePerLink(cfg: Config, w: World, g: Gen, key: S.Key)
    requires LinksInv(cfg, w.client.tasks, w.links) && g < |w.links| && key != S.NoKey
    ensures S.HandledKeys(w.links[g].conn.handled)[key] + S.Keys(w.links[g].conn.refused)[key] <= 1
    ensures S.ExecKeys(w.links[g].conn.handled)[key] <= S.HandledKeys(w.links[g].conn.handled)[key]
  {
    var k := w.links[g];
    assert LinkInv(cfg, w.client.tasks, g, k);
    CountBound(S.HandledKeys(k.conn.handled), S.Keys(k.conn.active), S.WaitingKeys(k.conn.reader),
               S.Keys(k.conn.refused), S.Keys(k.conn.decoded), key);
    S.RunsAreHandled(k.conn.handled, key);
    AsksAreKeys(k.conn.decoded);
    assert Load(k)[key] <= 1;
  }

  /** What a connection says about one task: what it handled or refused under its key, and where replies came from. */
  ghost predicate SettledOn(cfg: Config, g: Gen, c: S.Conn, task: C.Task)
    requires task.pc.Numbered()
  {
    var key := KeyOfTask(task);
    && (forall h :: h in c.handled && S.KeyOf(h.request) == key ==>
          S.IsData(h.request) && SentAs(task, g, key) && Mine(task, h.request))
    && (forall p :: p in c.refused && S.KeyOf(p) == key ==> S.IsData(p) && SentAs(task, g, key) && Mine(task, p))
    && (key != S.NoKey ==>
          && S.HandledKeys(c.handled)[key] + S.Keys(c.refused)[key] <= 1
          && S.ExecKeys(c.handled)[key] <= S.HandledKeys(c.handled)[key])
    && S.AllMade(cfg.conn(g), c.id, c.handled, c.refused, c.replied)
  }

  ghost predicate Settled(cfg: Config, links: seq<Link>, task: C.Task)
    requires task.pc.Numbered()
  {
    forall g :: 0 <= g < |links| ==> SettledOn(cfg, g, links[g].conn, task)
  }

  lemma SettlesOn(cfg: Config, w: World, t: C.TaskId, g: Gen)
    requires Inv(cfg, w) && t < |w.client.tasks| && w.client.tasks[t].pc.Numbered() && g < |w.links|
    ensures SettledOn(cfg, g, w.links[g].conn, w.client.tasks[t])
  {
    var c, key := w.links[g].conn, KeyOfTask(w.client.tasks[t]);
    assert LinkInv(cfg, w.client.tasks, g, w.links[g]);
    forall b | b in c.decoded && S.KeyOf(b) == key
      ensures S.IsData(b) && SentAs(w.client.tasks[t], g, key) && Mine(w.client.tasks[t], b)
    {
      DecodedIsMine(cfg, w, t, g, b);
    }
    if key != S.NoKey {
      AtMostOnePerLink(cfg, w, g, key);
    }
  }

  lemma Settles(cfg: Config, w: World, t: C.TaskId)
    requires Inv(cfg, w) && t < |w.client.tasks| && w.client.tasks[t].pc.Numbered()
    ensures Settled(cfg, w.links, w.client.tasks[t])
  {
    forall g | 0 <= g < |w.links|
      ensures SettledOn(cfg, g, w.links[g].conn, w.client.tasks[t])
    {
      SettlesOn(cfg, w, t, g);
    }
  }

  /** Runs that can only be on connection `g` add up to the runs there. */
  lemma {:induction false} AddUp(links: seq<Link>, key: S.Key, g: Gen)
    requires forall h :: 0 <= h < |links| && h != g ==> S.ExecKeys(links[h].conn.handled)[key] == 0
    ensures Executions(links, key) == if g < |links| then S.ExecKeys(links[g].conn.handled)[key] else 0
  {
    if links == [] {
    } else {
      var front := links[..|links| - 1];
      assert forall h :: 0 <= h < |front| ==> front[h] == links[h];
      AddUp(front, key, g);
    }
  }

  /** On each connection a task's packet ran at most once, and only if it was sent there. */
  lemma RunsOnLink(cfg: Config, g: Gen, c: S.Conn, task: C.Task)
    requires task.pc.Numbered() && SettledOn(cfg, g, c, task)
    ensures var runs := S.ExecKeys(c.handled)[KeyOfTask(task)];
            runs <= 1 && (runs > 0 ==> SentAs(task, g, KeyOfTask(task)))
  {
    RunsHaveWitness(c.handled, KeyOfTask(task));
    if h :| h in c.handled && h.fate.Executed? && S.KeyOf(h.request) == KeyOfTask(task) {
      assert SentAs(task, g, KeyOfTask(task));
    }
  }

  /** All executions for a task are on the connection it was sent on, if it was sent, and there is at most one. */
  lemma ExecutionsAreLocal(cfg: Config, links: seq<Link>, task: C.Task)
    requires task.pc.Numbered() && Settled(cfg, links, task)
    ensures Executions(links, KeyOfTask(task)) <= 1
    ensures !IsSent(task.pc) ==> Executions(links, KeyOfTask(task)) == 0
    ensures IsSent(task.pc) && task.pc.gen < |links| ==>
              Executions(links, KeyOfTask(task)) == S.ExecKeys(links[task.pc.gen].conn.handled)[KeyOfTask(task)]
  {
    var key := KeyOfTask(task);
    var g := if IsSent(task.pc) then task.pc.gen else |links|;
    forall h | 0 <= h < |links|
      ensures S.ExecKeys(links[h].conn.handled)[key] <= if h == g then 1 else 0
    {
      RunsOnLink(cfg, h, links[h].conn, task);
    }
    AddUp(links, key, g);
  }

  /** Every handler run under the task's key is for what this task sent, on the connection it was sent on. */
  ghost predicate RunsAreMine(links: seq<Link>, task: C.Task)
    requires task.pc.Numbered()
  {
    forall g, h :: 0 <= g < |links| && h in links[g].conn.handled && S.KeyOf(h.request) == KeyOfTask(task) ==>
      IsSent(task.pc) && task.pc.gen == g && Mine(task, h.request)
  }

  lemma RunsAreAllMine(cfg: Config, links: seq<Link>, task: C.Task)
    requires task.pc.Numbered() && Settled(cfg, links, task)
    ensures RunsAreMine(links, task)
  {
    forall g, h | 0 <= g < |links| && h in links[g].conn.handled && S.KeyOf(h.request) == KeyOfTask(task)
      ensures IsSent(task.pc) && task.pc.gen == g && Mine(task, h.request)
    {
      assert SettledOn(cfg, g, links[g].conn, task);
    }
  }

  // ----- What an answer means -----

  /** The call or event got an answer of the server before it timed out. */
  predicate GotAnswer(task: C.Task) {
    task.pc.Done? && task.gone == [C.ByResponse] && task.pc.result != Err(C.Timeout)
  }

  /** What a handler task made of this record is what the task returns. */
  predicate Returns(cfg: Config, g: Gen, id: string, h: S.Handling, result: C.Reply)
    requires S.IsData(h.request)
  {
    if h.fate.Executed? && h.fate.result.Returned? then result == Ok(h.fate.result.value)
    else
      var reply := S.ReplyTo(cfg.conn(g).server, id, h.request, h.fate);
      S.IsReply(reply) && result == Err(C.Remote(Shown(reply.error)))
  }

  /** What the client shows of a refusal by the rate limiter: an error to a call, success to an event. */
  function RefusalResult(ask: C.Ask): C.Reply {
    if ask.AskCall? then Err(C.Remote(ErrorPayload("service_busy", "rate limit exceeded", 503, None)))
    else Ok(Obj(map[]))
  }

  /** The one handling of the packet on the connection it was sent on, and what came of it. */
  ghost predicate HandledAs(cfg: Config, links: seq<Link>, task: C.Task, h: S.Handling)
    requires task.pc.Done?
  {
    var key, g := KeyOfTask(task), task.pc.gen;
    && g < |links| && h in links[g].conn.handled && S.IsData(h.request) && S.KeyOf(h.request) == key
    && Mine(task, h.request) && (forall h' :: h' in links[g].conn.handled && S.KeyOf(h'.request) == key ==> h' == h)
    && Executions(links, key) == (if h.fate.Executed? then 1 else 0)
    && Returns(cfg, g, links[g].conn.id, h, task.pc.result)
  }

  /** A refused packet ran nothing and returned its refusal; an admitted one returned what became of it. */
  ghost predicate Outcome(cfg: Config, links: seq<Link>, task: C.Task)
    requires task.pc.Done?
  {
    if RefusedSomewhere(links, KeyOfTask(task)) then
      Executions(links, KeyOfTask(task)) == 0 && task.pc.result == RefusalResult(task.ask)
    else exists h :: HandledAs(cfg, links, task, h)
  }

  lemma AnswerWasReceived(s: C.State, t: C.TaskId)
    requires C.TablesInv(s) && t < |s.tasks| && GotAnswer(s.tasks[t])
    ensures s.tasks[t].cell == C.Filled(s.tasks[t].pc.result)
  {
    assert C.TaskOk(s, t);
  }

  lemma ExplainedBy(links: seq<Link>, key: S.Key, reply: C.Reply) returns (g: Gen, b: PacketBody)
    requires Explained(links, key, reply)
    ensures g < |links| && b in links[g].conn.replied && S.IsReply(b) && S.KeyOf(b) == key && reply == Received(b)
  {
    g, b :| 0 <= g < |links| && b in links[g].conn.replied && S.IsReply(b) && S.KeyOf(b) == key && reply == Received(b);
  }

  /** A reply was made by handling its packet or by refusing it. */
  lemma MadeBy(scfg: S.Config, c: S.Conn, b: PacketBody) returns (h: Option<S.Handling>, p: PacketBody)
    requires S.MadeFor(scfg, c.id, c.handled, c.refused, b)
    ensures h.Some? ==>
              && h.value in c.handled && S.IsData(h.value.request)
              && (h.value.request.EventEmit? ==> !h.value.fate.Filtered?)
              && b == S.ReplyTo(scfg.server, c.id, h.value.request, h.value.fate)
    ensures h.None? ==> p in c.refused && S.IsData(p) && b == S.Refusal(p)
  {
    if x :| x in c.handled && S.IsData(x.request) && (x.request.EventEmit? ==> !x.fate.Filtered?)
            && b == S.ReplyTo(scfg.server, c.id, x.request, x.fate) {
      h, p := Some(x), b;
    } else {
      h := None;
      p :| p in c.refused && S.IsData(p) && b == S.Refusal(p);
    }
  }

  lemma RepliesReturn(cfg: Config, g: Gen, id: string, h: S.Handling)
    requires S.IsData(h.request) && (h.request.EventEmit? ==> !h.fate.Filtered?)
    ensures var b := S.ReplyTo(cfg.conn(g).server, id, h.request, h.fate);
            && S.KeyOf(b) == S.KeyOf(h.request) && S.IsReply(b) && Returns(cfg, g, id, h, Received(b))
  {
    S.ReplyMeaning(cfg.conn(g).server, id, h.request, h.fate);
  }

  lemma RefusalReturns(task: C.Task, p: PacketBody)
    requires S.IsData(p) && Mine(task, p)
    ensures S.IsReply(S.Refusal(p)) && S.KeyOf(S.Refusal(p)) == S.KeyOf(p)
    ensures Received(S.Refusal(p)) == RefusalResult(task.ask)
  {
  }

  /** A refusal on one connection means that nothing was handled or run on any. */
  lemma RefusedIsNotHandled(cfg: Config, links: seq<Link>, task: C.Task, g: Gen)
    requires task.pc.Numbered() && Settled(cfg, links, task) && g < |links|
    requires S.WasRefused(links[g].conn.refused, KeyOfTask(task))
    ensures SentAs(task, g, KeyOfTask(task))
    ensures S.HandledKeys(links[g].conn.handled)[KeyOfTask(task)] == 0
    ensures Executions(links, KeyOfTask(task)) == 0
  {
    assert SettledOn(cfg, g, links[g].conn, task);
    RefusalsHaveWitness(links[g].conn.refused, KeyOfTask(task));
    ExecutionsAreLocal(cfg, links, task);
  }

  lemma HandledIsNotRefused(cfg: Config, links: seq<Link>, task: C.Task, g: Gen, h: S.Handling)
    requires task.pc.Numbered() && Settled(cfg, links, task) && g < |links|
    requires h in links[g].conn.handled && S.KeyOf(h.request) == KeyOfTask(task)
    ensures !RefusedSomewhere(links, KeyOfTask(task))
  {
    assert SettledOn(cfg, g, links[g].conn, task);
    HandledHasWitness(links[g].conn.handled, h);
    if g' :| 0 <= g' < |links| && S.WasRefused(links[g'].conn.refused, KeyOfTask(task)) {
      RefusedIsNotHandled(cfg, links, task, g');
      assert false;
    }
  }

  lemma OnlyHandling(hs: seq<S.Handling>, h: S.Handling)
    requires h in hs && S.HandledKeys(hs)[S.KeyOf(h.request)] <= 1
    ensures forall h' :: h' in hs && S.KeyOf(h'.request) == S.KeyOf(h.request) ==> h' == h
  {
    forall h' | h' in hs && S.KeyOf(h'.request) == S.KeyOf(h.request)
      ensures h' == h
    {
      HandledOnce(hs, h, h');
    }
  }

  lemma HandledOnlyOnce(cfg: Config, links: seq<Link>, task: C.Task, h: S.Handling)
    requires task.pc.Done? && Settled(cfg, links, task) && task.pc.gen < |links|
    requires h in links[task.pc.gen].conn.handled && S.KeyOf(h.request) == KeyOfTask(task)
    ensures forall h' :: h' in links[task.pc.gen].conn.handled && S.KeyOf(h'.request) == KeyOfTask(task) ==> h' == h
  {
    assert SettledOn(cfg, task.pc.gen, links[task.pc.gen].conn, task);
    OnlyHandling(links[task.pc.gen].conn.handled, h);
  }

  lemma ExecutionsOfOne(cfg: Config, links: seq<Link>, task: C.Task, h: S.Handling)
    requires task.pc.Done? && Settled(cfg, links, task) && task.pc.gen < |links|
    requires h in links[task.pc.gen].conn.handled && S.KeyOf(h.request) == KeyOfTask(task)
    requires forall h' :: h' in links[task.pc.gen].conn.handled && S.KeyOf(h'.request) == KeyOfTask(task) ==> h' == h
    ensures Executions(links, KeyOfTask(task)) == (if h.fate.Executed? then 1 else 0)
  {
    ExecutionsAreLocal(cfg, links, task);
    RunsHaveWitness(links[task.pc.gen].conn.handled, KeyOfTask(task));
  }

  lemma HandledOutcome(cfg: Config, links: seq<Link>, task: C.Task, g: Gen, h: S.Handling)
    requires task.pc.Done? && Settled(cfg, links, task) && g < |links|
    requires h in links[g].conn.handled && S.IsData(h.request) && (h.request.EventEmit? ==> !h.fate.Filtered?)
    requires S.KeyOf(h.request) == KeyOfTask(task)
    requires Returns(cfg, g, links[g].conn.id, h, task.pc.result)
    ensures Outcome(cfg, links, task)
  {
    assert SettledOn(cfg, g, links[g].conn, task);
    HandledIsNotRefused(cfg, links, task, g, h);
    HandledOnlyOnce(cfg, links, task, h);
    ExecutionsOfOne(cfg, links, task, h);
    assert HandledAs(cfg, links, task, h);
  }

  lemma RefusedOutcome(cfg: Config, links: seq<Link>, task: C.Task, g: Gen, p: PacketBody)
    requires task.pc.Done? && Settled(cfg, links, task) && g < |links|
    requires p in links[g].conn.refused && S.IsData(p) && S.KeyOf(p) == KeyOfTask(task)
    requires S.IsReply(S.Refusal(p)) && task.pc.result == Received(S.Refusal(p))
    ensures Outcome(cfg, links, task)
  {
    assert SettledOn(cfg, g, links[g].conn, task);
    RefusalReturns(task, p);
    assert S.WasRefused(links[g].conn.refused, KeyOfTask(task));
    RefusedIsNotHandled(cfg, links, task, g);
  }

  /** Every answer is the outcome of the one thing that became of the task's own packet. */
  lemma AnswerIsOutcome(cfg: Config, links: seq<Link>, task: C.Task)
    requires task.pc.Done? && Settled(cfg, links, task) && Explained(links, KeyOfTask(task), task.pc.result)
    ensures Outcome(cfg, links, task)
  {
    var g, b := ExplainedBy(links, KeyOfTask(task), task.pc.result);
    assert SettledOn(cfg, g, links[g].conn, task);
    var h, p := MadeBy(cfg.conn(g), links[g].conn, b);
    if h.Some? {
      RepliesReturn(cfg, g, links[g].conn.id, h.value);
      HandledOutcome(cfg, links, task, g, h.value);
    } else {
      RefusedOutcome(cfg, links, task, g, p);
    }
  }

  lemma AnswerIsExplained(cfg: Config, w: World, t: C.TaskId)
    requires Inv(cfg, w) && t < |w.client.tasks| && GotAnswer(w.client.tasks[t])
    ensures Explained(w.links, KeyOfTask(w.client.tasks[t]), w.client.tasks[t].pc.result)
  {
    AnswerWasReceived(w.client, t);
    assert AnswerOk(w.links, w.client.tasks[t]);
  }

  /** An Ok result is always an answer. */
  lemma OkIsAnswer(s: C.State, t: C.TaskId)
    requires C.TablesInv(s) && t < |s.tasks| && s.tasks[t].pc.Done? && s.tasks[t].pc.result.Ok?
    ensures GotAnswer(s.tasks[t])
  {
    assert C.TaskOk(s, t);
  }

  /** A handler for this packet, on the connection it was sent on, returned `v`. */
  ghost predicate ReturnedBy(links: seq<Link>, task: C.Task, v: Json)
    requires task.pc.Done?
  {
    task.pc.gen < |links|
    && exists h :: h in links[task.pc.gen].conn.handled && S.KeyOf(h.request) == KeyOfTask(task)
                   && h.fate == Executed(Returned(v))
  }

  /** The outcome of an answered call, in terms of Ok. */
  lemma OutcomeOfCall(cfg: Config, links: seq<Link>, task: C.Task)
    requires task.pc.Done? && Outcome(cfg, links, task)
    requires RunsAreMine(links, task)
    ensures !RefusedSomewhere(links, KeyOfTask(task)) ==>
              forall v :: task.pc.result == Ok(v) <==> ReturnedBy(links, task, v)
    ensures !RefusedSomewhere(links, KeyOfTask(task)) && task.pc.result.Ok? ==> Executions(links, KeyOfTask(task)) == 1
    ensures !RefusedSomewhere(links, KeyOfTask(task)) && task.pc.result.Err? ==> task.pc.result.error.Remote?
  {
    if !RefusedSomewhere(links, KeyOfTask(task)) {
      var h :| HandledAs(cfg, links, task, h);
      forall v
        ensures task.pc.result == Ok(v) <==> ReturnedBy(links, task, v)
      {
        if task.pc.result == Ok(v) {
          assert h in links[task.pc.gen].conn.handled && h.fate == Executed(Returned(v));
        }
      }
    }
  }

  /**
   * In every run of the client, the network and the server, over any number of reconnects, timeouts
   * and replies out of order: a call causes at most one handler execution over all connections, and every
   * one under its id is for the request this call sent, field by field. A call that is answered before it
   * times out returns what became of its own request: refused by the rate limiter, it ran nothing and
   * returns the 503 error; otherwise it returns `Ok(v)` if and only if the one execution returned `v`, and
   * else the error of the reply to its request.
   */
  lemma CallsAreEndToEndCorrect(cfg: Config, steps: seq<Step>, t: C.TaskId)
    requires ValidConfig(cfg) && t < |Run(cfg, steps).client.tasks|
    requires Run(cfg, steps).client.tasks[t].ask.AskCall? && Run(cfg, steps).client.tasks[t].pc.Numbered()
    ensures var w := Run(cfg, steps);
            var task := w.client.tasks[t];
            && Executions(w.links, KeyOfTask(task)) <= 1
            && RunsAreMine(w.links, task)
            && (task.pc.Done? && task.pc.result.Ok? ==> GotAnswer(task))
            && (GotAnswer(task) ==>
                  && Outcome(cfg, w.links, task)
                  && (forall v :: task.pc.result == Ok(v) <==> ReturnedBy(w.links, task, v))
                  && (task.pc.result.Ok? ==> Executions(w.links, KeyOfTask(task)) == 1))
  {
    RunInv(cfg, steps);
    CallIsCorrect(cfg, Run(cfg, steps), t);
  }

  lemma CallIsCorrect(cfg: Config, w: World, t: C.TaskId)
    requires Inv(cfg, w) && t < |w.client.tasks|
    requires w.client.tasks[t].ask.AskCall? && w.client.tasks[t].pc.Numbered()
    ensures var task := w.client.tasks[t];
            && Executions(w.links, KeyOfTask(task)) <= 1
            && RunsAreMine(w.links, task)
            && (task.pc.Done? && task.pc.result.Ok? ==> GotAnswer(task))
            && (GotAnswer(task) ==>
                  && Outcome(cfg, w.links, task)
                  && (forall v :: task.pc.result == Ok(v) <==> ReturnedBy(w.links, task, v))
                  && (task.pc.result.Ok? ==> Executions(w.links, KeyOfTask(task)) == 1))
  {
    var task := w.client.tasks[t];
    Settles(cfg, w, t);
    if task.pc.Done? && task.pc.result.Ok? {
      OkIsAnswer(w.client, t);
    }
    if GotAnswer(task) {
      AnswerIsExplained(cfg, w, t);
    }
    TaskIsCorrect(cfg, w.links, task);
  }

  /** What holds of any numbered task, and of one that got an answer. */
  lemma TaskIsCorrect(cfg: Config, links: seq<Link>, task: C.Task)
    requires task.pc.Numbered() && Settled(cfg, links, task)
    requires GotAnswer(task) ==> Explained(links, KeyOfTask(task), task.pc.result)
    ensures Executions(links, KeyOfTask(task)) <= 1 && RunsAreMine(links, task)
    ensures GotAnswer(task) ==> Outcome(cfg, links, task)
    ensures GotAnswer(task) && !RefusedSomewhere(links, KeyOfTask(task)) ==>
              forall v :: task.pc.result == Ok(v) <==> ReturnedBy(links, task, v)
    ensures GotAnswer(task) && RefusedSomewhere(links, KeyOfTask(task)) ==> forall v :: !ReturnedBy(links, task, v)
    ensures GotAnswer(task) && !RefusedSomewhere(links, KeyOfTask(task)) && task.pc.result.Ok? ==>
              Executions(links, KeyOfTask(task)) == 1
  {
    ExecutionsAreLocal(cfg, links, task);
    RunsAreAllMine(cfg, links, task);
    if GotAnswer(task) {
      AnswerIsOutcome(cfg, links, task);
      OutcomeOfCall(cfg, links, task);
      if RefusedSomewhere(links, KeyOfTask(task)) {
        RefusedReturnsNothing(cfg, links, task);
      }
    }
  }

  /** A refused packet has no execution that could have returned anything. */
  lemma RefusedReturnsNothing(cfg: Config, links: seq<Link>, task: C.Task)
    requires task.pc.Done? && Settled(cfg, links, task) && RefusedSomewhere(links, KeyOfTask(task))
    ensures forall v :: !ReturnedBy(links, task, v)
  {
    forall v
      ensures !ReturnedBy(links, task, v)
    {
      if ReturnedBy(links, task, v) {
        var h :| h in links[task.pc.gen].conn.handled && S.KeyOf(h.request) == KeyOfTask(task)
                 && h.fate == Executed(Returned(v));
        HandledIsNotRefused(cfg, links, task, task.pc.gen, h);
        assert false;
      }
    }
  }

  /**
   * In every run: an event causes at most one handler execution over all connections, for the event that
   * was sent. A `send_event` that is answered before it times out returns what became of its own event: if
   * the rate limiter refused it, it ran nothing and returns an empty receipt as success; otherwise it
   * returns `Ok(v)` if and only if the one execution returned `v`. So a returned receipt came from a
   * handler if and only if the event was admitted.
   */
  lemma EventsAreEndToEndCorrect(cfg: Config, steps: seq<Step>, t: C.TaskId)
    requires ValidConfig(cfg) && t < |Run(cfg, steps).client.tasks|
    requires Run(cfg, steps).client.tasks[t].ask.AskEvent? && Run(cfg, steps).client.tasks[t].pc.Numbered()
    ensures var w := Run(cfg, steps);
            var task := w.client.tasks[t];
            && Executions(w.links, KeyOfTask(task)) <= 1
            && RunsAreMine(w.links, task)
            && (task.pc.Done? && task.pc.result.Ok? ==>
                  && GotAnswer(task)
                  && (ReturnedBy(w.links, task, task.pc.result.value) <==> !RefusedSomewhere(w.links, KeyOfTask(task))))
            && (GotAnswer(task) ==>
                  && Outcome(cfg, w.links, task)
                  && (!RefusedSomewhere(w.links, KeyOfTask(task)) ==>
                        forall v :: task.pc.result == Ok(v) <==> ReturnedBy(w.links, task, v)))
  {
    RunInv(cfg, steps);
    EventIsCorrect(cfg, Run(cfg, steps), t);
  }

  lemma EventIsCorrect(cfg: Config, w: World, t: C.TaskId)
    requires Inv(cfg, w) && t < |w.client.tasks|
    requires w.client.tasks[t].ask.AskEvent? && w.client.tasks[t].pc.Numbered()
    ensures var task := w.client.tasks[t];
            && Executions(w.links, KeyOfTask(task)) <= 1
            && RunsAreMine(w.links, task)
            && (task.pc.Done? && task.pc.result.Ok? ==>
                  && GotAnswer(task)
                  && (ReturnedBy(w.links, task, task.pc.result.value) <==> !RefusedSomewhere(w.links, KeyOfTask(task))))
            && (GotAnswer(task) ==>
                  && Outcome(cfg, w.links, task)
                  && (!RefusedSomewhere(w.links, KeyOfTask(task)) ==>
                        forall v :: task.pc.result == Ok(v) <==> ReturnedBy(w.links, task, v)))
  {
    var task := w.client.tasks[t];
    Settles(cfg, w, t);
    if task.pc.Done? && task.pc.result.Ok? {
      OkIsAnswer(w.client, t);
    }
    if GotAnswer(task) {
      AnswerIsExplained(cfg, w, t);
    }
    TaskIsCorrect(cfg, w.links, task);
  }
}
