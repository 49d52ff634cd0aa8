/** Running the composed system step by step: the start of a run, in which the client connects and asks. */
module Runs {
  import opened Wrappers
  import opened Bytes
  import opened Json
  import opened Attachment
  import opened Packet
  import opened FrameCodec
  import opened CodecLaws
  import opened EndToEnd
  import L = ClientLifecycle
  import C = ClientCalls
  import S = ServerConnection

  ghost function Then(cfg: Config, w: World, step: Step): World {
    if Enabled(cfg, w, step) then Next(cfg, w, step) else w
  }

  ghost function ThenAll(cfg: Config, w: World, steps: seq<Step>): World
    decreases |steps|
  {
    if steps == [] then w else ThenAll(cfg, Then(cfg, w, steps[0]), steps[1..])
  }

  lemma {:induction false} RunIsThen(cfg: Config, a: seq<Step>, b: seq<Step>)
    ensures Run(cfg, a + b) == ThenAll(cfg, Run(cfg, a), b)
    decreases |b|
  {
    if b == [] {
      assert a + b == a;
    } else {
      assert a + b == (a + [b[0]]) + b[1..];
      assert (a + [b[0]])[..|a|] == a;
      RunIsThen(cfg, a + [b[0]], b[1..]);
    }
  }

  lemma Unfold2(cfg: Config, w: World, steps: seq<Step>)
    requires |steps| >= 2
    ensures ThenAll(cfg, w, steps) == ThenAll(cfg, Then(cfg, Then(cfg, w, steps[0]), steps[1]), steps[2..])
  {
    assert steps[1..][1..] == steps[2..];
  }

  lemma Unfold4(cfg: Config, w: World, steps: seq<Step>)
    requires |steps| == 4
    ensures ThenAll(cfg, w, steps)
            == Then(cfg, Then(cfg, Then(cfg, Then(cfg, w, steps[0]), steps[1]), steps[2]), steps[3])
  {
    Unfold2(cfg, w, steps);
    var w2 := Then(cfg, Then(cfg, w, steps[0]), steps[1]);
    Unfold2(cfg, w2, steps[2..]);
    assert steps[2..][2..] == [];
  }

  // ----- Plaintext frames -----

  /** Plaintext at both ends of the first connection; `up` and `down` are the frames of a packet and of its reply. */
  ghost predicate InPlaintext(cfg: Config, packet: PacketBody, reply: PacketBody, up: seq<u8>, down: seq<u8>) {
    && ValidConfig(cfg) && cfg.clientMode == Plain && cfg.clientCodec(1) == Plaintext()
    && !cfg.conn(1).ecdh && cfg.conn(1).codec == Plaintext() && cfg.conn(1).outCodec == Plaintext()
    && cfg.conn(1).mode == Plain
    && FrameIs(cfg.lib, packet, up) && FrameIs(cfg.lib, reply, down)
  }

  predicate FrameIs(l: Library, p: PacketBody, frame: seq<u8>) {
    Encode(l, Plaintext(), None, Envelope(p, Plain)) == Ok(frame)
  }

  /** A frame passes the header checks and is read as the packet it was made from. */
  lemma FrameReads(l: Library, p: PacketBody, frame: seq<u8>)
    requires Lawful(l) && FrameIs(l, p, frame) && ListFits(p.Attachments())
    ensures S.FastReject(Plaintext().maxFrameBytes, frame).None?
    ensures Decode(l, Plaintext(), frame) == Ok(NormalEnvelope(Plain, Envelope(p, Plain)))
  {
    LengthsAreExact(l, Plaintext(), None, Envelope(p, Plain), frame);
    RoundTripIff(l, Plaintext(), None, Envelope(p, Plain), frame);
    S.FastRejectAgreesWithDecode(l, Plaintext(), frame);
  }

  lemma WrittenFrame(cfg: Config, packet: PacketBody, reply: PacketBody, up: seq<u8>, down: seq<u8>)
    requires InPlaintext(cfg, packet, reply, up, down)
    ensures Written(cfg, 1, None, packet) == [Flight(up, packet)]
    ensures Sent(cfg, 1, S.Queued(reply, Some(down)), None) == [Flight(down, reply)]
  {
  }

  // ----- The client connects -----

  const CONNECTING: seq<Step> :=
    [Client(C.Life(L.SupBegin)), Client(C.Life(L.SupOpen)), Client(C.Life(L.SupStore)), Client(C.Life(L.SupConnect))]

  const LIVE := L.INIT.(generation := 1, pc := L.Announcing(1), writer := Some(1), connected := true, ups := [1])

  function Connected(cfg: Config): World {
    World(C.INIT_STATE.(life := LIVE), [NewLink(cfg, 0), NewLink(cfg, 1)])
  }

  lemma ConnectStep(cfg: Config, life: L.Life, step: L.Step, life': L.Life, links: seq<Link>)
    requires !step.DropCollect? && !step.DropRemove? && L.Enabled(cfg.client, life, step)
    requires L.Next(cfg.client, life, step) == life'
    ensures Then(cfg, World(C.INIT_STATE.(life := life), links), Client(C.Life(step)))
            == World(C.INIT_STATE.(life := life'), Extended(cfg, links, life'.generation))
  {
  }

  lemma Connects(cfg: Config)
    ensures ThenAll(cfg, Start(cfg), CONNECTING) == Connected(cfg)
  {
    var l1 := L.INIT.(generation := 1, pc := L.Connecting(1));
    var l2 := l1.(pc := L.StoringWriter(1));
    var l3 := l2.(writer := Some(1), pc := L.SettingConnected(1));
    var links := [NewLink(cfg, 0), NewLink(cfg, 1)];
    assert C.INIT_STATE.(life := L.INIT) == C.INIT_STATE;
    ConnectStep(cfg, L.INIT, L.SupBegin, l1, [NewLink(cfg, 0)]);
    assert [NewLink(cfg, 0)] + [NewLink(cfg, 1)] == links;
    ConnectStep(cfg, l1, L.SupOpen, l2, links);
    ConnectStep(cfg, l2, L.SupStore, l3, links);
    ConnectStep(cfg, l3, L.SupConnect, LIVE, links);
    Unfold4(cfg, Start(cfg), CONNECTING);
  }

  // ----- The client asks -----

  function Asking(ask: C.Ask): seq<Step> {
    [Client(C.NewTask(ask)), Client(C.CheckConnected(0)), Client(C.FetchId(0)), Client(C.InsertWaiter(0)),
     Client(C.LoadWriter(0)), Send(0)]
  }

  const NO_IDS := C.Table(0, map[])

  /** The connected client with one task, whose table has given out `lastId` and holds these waiters. */
  function ClientAt(ask: C.Ask, table: C.Table, pc: C.Pc, cell: C.Cell, gone: seq<C.Remover>): C.State {
    C.State(LIVE, if ask.AskCall? then table else NO_IDS, if ask.AskCall? then NO_IDS else table,
            [C.Task(ask, pc, cell, gone)])
  }

  function Unnumbered(ask: C.Ask, pc: C.Pc): C.State {
    ClientAt(ask, NO_IDS, pc, C.Empty, [])
  }

  /** The task is registered under id 1. */
  function Registered(ask: C.Ask, pc: C.Pc): C.State {
    ClientAt(ask, C.Table(1, map[1 := 0]), pc, C.Empty, [])
  }

  function WaitingFor(ask: C.Ask): C.State {
    Registered(ask, C.Waiting(1, 1))
  }

  /** The task has been answered, and has not looked yet. */
  function AnsweredWith(ask: C.Ask, pc: C.Pc, reply: C.Reply): C.State {
    ClientAt(ask, C.Table(1, map[]), pc, C.Filled(reply), [C.ByResponse])
  }

  function Asked(cfg: Config, ask: C.Ask): World {
    World(WaitingFor(ask), [NewLink(cfg, 0), NewLink(cfg, 1).(queue := [RequestOf(ask, 1)])])
  }

  lemma NewTaskStep(cfg: Config, ask: C.Ask, links: seq<Link>)
    requires |links| == 2
    ensures Then(cfg, World(C.INIT_STATE.(life := LIVE), links), Client(C.NewTask(ask)))
            == World(Unnumbered(ask, C.Begin), links)
  {
  }

  lemma CheckStep(cfg: Config, ask: C.Ask, links: seq<Link>)
    requires |links| == 2
    ensures Then(cfg, World(Unnumbered(ask, C.Begin), links), Client(C.CheckConnected(0)))
            == World(Unnumbered(ask, C.Numbering), links)
  {
  }

  lemma NumberStep(cfg: Config, ask: C.Ask, links: seq<Link>)
    requires |links| == 2
    ensures Then(cfg, World(Unnumbered(ask, C.Numbering), links), Client(C.FetchId(0)))
            == World(ClientAt(ask, C.Table(1, map[]), C.Inserting(1), C.Empty, []), links)
  {
  }

  lemma InsertStep(cfg: Config, ask: C.Ask, links: seq<Link>)
    requires |links| == 2
    ensures Then(cfg, World(ClientAt(ask, C.Table(1, map[]), C.Inserting(1), C.Empty, []), links),
                 Client(C.InsertWaiter(0)))
            == World(Registered(ask, C.Loading(1)), links)
  {
  }

  lemma LoadStep(cfg: Config, ask: C.Ask, links: seq<Link>)
    requires |links| == 2
    ensures Then(cfg, World(Registered(ask, C.Loading(1)), links), Client(C.LoadWriter(0)))
            == World(Registered(ask, C.Sending(1, 1)), links)
  {
  }

  lemma SendStep(cfg: Config, ask: C.Ask, links: seq<Link>)
    requires |links| == 2
    ensures Then(cfg, World(Registered(ask, C.Sending(1, 1)), links), Send(0))
            == World(WaitingFor(ask), links[1 := links[1].(queue := links[1].queue + [RequestOf(ask, 1)])])
  {
  }

  lemma SendsRequest(cfg: Config, ask: C.Ask)
    ensures ThenAll(cfg, Connected(cfg), Asking(ask)) == Asked(cfg, ask)
  {
    var links, p := [NewLink(cfg, 0), NewLink(cfg, 1)], RequestOf(ask, 1);
    NewTaskStep(cfg, ask, links);
    CheckStep(cfg, ask, links);
    NumberStep(cfg, ask, links);
    InsertStep(cfg, ask, links);
    LoadStep(cfg, ask, links);
    SendStep(cfg, ask, links);
    assert links[1].queue + [p] == [p];
    assert links[1 := links[1].(queue := [p])] == [NewLink(cfg, 0), NewLink(cfg, 1).(queue := [p])];
    Unfold2(cfg, Connected(cfg), Asking(ask));
    Unfold4(cfg, Then(cfg, Then(cfg, Connected(cfg), Asking(ask)[0]), Asking(ask)[1]), Asking(ask)[2..]);
  }

  // ----- The first connection works while the client waits -----

  function Station(cfg: Config, client: C.State, k: Link): World {
    World(client, [NewLink(cfg, 0), k])
  }

  lemma LinkThen(cfg: Config, client: C.State, k: Link, k': Link, step: Step)
    requires step.ClientWrite? || step.ServerRead? || step.ServerWrite? || step.Serve?
    requires step.g == 1 && Enabled(cfg, Station(cfg, client, k), step)
    requires step.ClientWrite? ==> k' == AfterClientWrite(cfg, 1, k, step.nonce)
    requires step.ServerRead? ==> k' == AfterServerRead(cfg, 1, k, step.verdict, step.nonce)
    requires step.ServerWrite? ==> k' == AfterServerWrite(cfg, 1, k, step.nonce)
    requires step.Serve? ==> k' == k.(conn := S.Next(cfg.conn(1), k.conn, step.serve))
    ensures Then(cfg, Station(cfg, client, k), step) == Station(cfg, client, k')
  {
    assert [NewLink(cfg, 0), k][1 := k'] == [NewLink(cfg, 0), k'];
  }

  lemma WriteUp(cfg: Config, ask: C.Ask, up: seq<u8>)
    requires Written(cfg, 1, None, RequestOf(ask, 1)) == [Flight(up, RequestOf(ask, 1))]
    ensures Then(cfg, Asked(cfg, ask), ClientWrite(1, None))
            == Station(cfg, WaitingFor(ask), NewLink(cfg, 1).(up := [Flight(up, RequestOf(ask, 1))]))
  {
    var k := NewLink(cfg, 1).(queue := [RequestOf(ask, 1)]);
    assert AfterClientWrite(cfg, 1, k, None) == NewLink(cfg, 1).(up := [Flight(up, RequestOf(ask, 1))]);
    LinkThen(cfg, WaitingFor(ask), k, AfterClientWrite(cfg, 1, k, None), ClientWrite(1, None));
  }

  // ----- The answer comes back -----

  const RETURNING: seq<Step> := [ClientRead(1), Client(C.Receive(0))]

  lemma DispatchAnswer(ask: C.Ask, b: PacketBody, reply: C.Reply)
    requires ask.AskCall? ==> b.ApiResponse? && b.requestId == 1 && reply == Answer(b.ok, b.data, b.error)
    requires ask.AskEvent? ==> b.EventAck? && b.eventId == 1 && reply == Answer(b.ok, b.receipt, b.error)
    ensures Dispatch(WaitingFor(ask), b) == AnsweredWith(ask, C.Waiting(1, 1), reply)
  {
    var waiters: map<nat, nat> := map[1 := 0];
    assert waiters - {1} == map[];
    var task := C.Task(ask, C.Waiting(1, 1), C.Filled(reply), [C.ByResponse]);
    assert [] + [C.ByResponse] == [C.ByResponse];
    assert WaitingFor(ask).tasks[0 := task] == [task];
  }

  lemma ReadStep(cfg: Config, s: C.State, s': C.State, k: Link, k': Link)
    requires k.down != [] && AfterClientRead(cfg, 1, s, k) == s' && k' == k.(down := k.down[1..])
    ensures Then(cfg, Station(cfg, s, k), ClientRead(1)) == Station(cfg, s', k')
  {
    assert [NewLink(cfg, 0), k][1 := k'] == [NewLink(cfg, 0), k'];
  }

  lemma ReceiveStep(cfg: Config, ask: C.Ask, reply: C.Reply, links: seq<Link>)
    requires |links| == 2
    ensures Then(cfg, World(AnsweredWith(ask, C.Waiting(1, 1), reply), links), Client(C.Receive(0)))
            == World(AnsweredWith(ask, C.Done(1, 1, reply), reply), links)
  {
  }

  /** The client reads the one frame on its way down and returns what it says. */
  lemma ComesBack(cfg: Config, ask: C.Ask, reply: C.Reply, k: Link)
    requires |k.down| == 1
    requires AfterClientRead(cfg, 1, WaitingFor(ask), k) == AnsweredWith(ask, C.Waiting(1, 1), reply)
    ensures ThenAll(cfg, Station(cfg, WaitingFor(ask), k), RETURNING)
            == Station(cfg, AnsweredWith(ask, C.Done(1, 1, reply), reply), k.(down := []))
  {
    assert k.down[1..] == [];
    ReadStep(cfg, WaitingFor(ask), AnsweredWith(ask, C.Waiting(1, 1), reply), k, k.(down := []));
    ReceiveStep(cfg, ask, reply, [NewLink(cfg, 0), k.(down := [])]);
    Unfold2(cfg, Station(cfg, WaitingFor(ask), k), RETURNING);
  }

  /** A whole run: connect, ask, let the server work, return. */
  lemma Joined(cfg: Config, ask: C.Ask, serving: seq<Step>, k: Link, w: World)
    requires ThenAll(cfg, Asked(cfg, ask), serving) == Station(cfg, WaitingFor(ask), k)
    requires ThenAll(cfg, Station(cfg, WaitingFor(ask), k), RETURNING) == w
    ensures Run(cfg, CONNECTING + Asking(ask) + serving + RETURNING) == w
  {
    Connects(cfg);
    SendsRequest(cfg, ask);
    RunIsThen(cfg, [], CONNECTING);
    assert [] + CONNECTING == CONNECTING;
    RunIsThen(cfg, CONNECTING, Asking(ask));
    RunIsThen(cfg, CONNECTING + Asking(ask), serving);
    RunIsThen(cfg, CONNECTING + Asking(ask) + serving, RETURNING);
  }
}
