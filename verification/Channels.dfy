/** The two directions of every connection of the composed system are first in, first out. */
module Channels {
  import opened Wrappers
  import opened Bytes
  import opened Packet
  import opened FrameCodec
  import opened EndToEnd
  import C = ClientCalls
  import S = ServerConnection
  import R = RateLimiter

  /** What is on its way to the server: in flight, then queued. */
  function Upward(k: Link): seq<PacketBody> {
    Packets(k.up) + k.queue
  }

  /** What is on its way to the client: in flight, then queued. */
  function Downward(k: Link): seq<PacketBody> {
    Packets(k.down) + S.QueuedPackets(k.conn.outbox)
  }

  function Without<T>(s: seq<T>, i: nat): seq<T>
    requires i < |s|
  {
    s[..i] + s[i + 1..]
  }

  lemma {:induction false} PacketsLength(fs: seq<Flight>)
    ensures |Packets(fs)| == |fs|
  {
    if fs == [] {
    } else {
      PacketsLength(fs[..|fs| - 1]);
    }
  }

  lemma {:induction false} PacketsConcat(a: seq<Flight>, b: seq<Flight>)
    ensures Packets(a + b) == Packets(a) + Packets(b)
  {
    if b == [] {
      assert a + b == a;
    } else {
      assert (a + b)[..|a + b| - 1] == a + b[..|b| - 1];
      PacketsConcat(a, b[..|b| - 1]);
    }
  }

  lemma FirstPacket(fs: seq<Flight>)
    requires fs != []
    ensures Packets(fs) == [fs[0].packet] + Packets(fs[1..])
  {
    assert fs == [fs[0]] + fs[1..];
    PacketsConcat([fs[0]], fs[1..]);
    assert [fs[0]][..0] == [];
  }

  lemma {:induction false} QueuedLength(qs: seq<S.Queued>)
    ensures |S.QueuedPackets(qs)| == |qs|
  {
    if qs == [] {
    } else {
      QueuedLength(qs[..|qs| - 1]);
    }
  }

  lemma {:induction false} FirstQueued(qs: seq<S.Queued>)
    requires qs != []
    ensures S.QueuedPackets(qs) == [qs[0].packet] + S.QueuedPackets(qs[1..])
  {
    if |qs| == 1 {
      assert qs[..0] == [] && qs[1..] == [];
    } else {
      FirstQueued(qs[..|qs| - 1]);
      assert qs[..|qs| - 1][1..] == qs[1..][..|qs[1..]| - 1];
    }
  }

  /** Moving the first of a queue to the end of what is in flight, or dropping it on the way. */
  lemma MoveOver(flying: seq<PacketBody>, queue: seq<PacketBody>, moved: seq<PacketBody>)
    requires queue != [] && (moved == [] || moved == [queue[0]])
    ensures (flying + moved) + queue[1..]
            == if moved == [] then Without(flying + queue, |flying|) else flying + queue
  {
  }

  // ----- Towards the server -----

  predicate ClientEncodes(cfg: Config, g: Gen, p: PacketBody, nonce: Option<Nonce>) {
    Encode(cfg.lib, cfg.clientCodec(g), nonce, Envelope(p, cfg.clientMode)).Ok?
  }

  lemma ClientWriteMoves(cfg: Config, g: Gen, k: Link, nonce: Option<Nonce>)
    requires k.queue != []
    ensures |k.up| < |Upward(k)|
    ensures Upward(AfterClientWrite(cfg, g, k, nonce))
            == if ClientEncodes(cfg, g, k.queue[0], nonce) then Upward(k) else Without(Upward(k), |k.up|)
  {
    var written := Written(cfg, g, nonce, k.queue[0]);
    PacketsConcat(k.up, written);
    PacketsLength(k.up);
    if written != [] {
      assert written[..0] == [];
    }
    MoveOver(Packets(k.up), k.queue, Packets(written));
  }

  /** What a step does to the packets on their way to the server on connection `g`, whose link it makes `k'`. */
  ghost predicate UpMoves(cfg: Config, w: World, step: Step, g: Gen, k': Link)
    requires Enabled(cfg, w, step) && g < |w.links|
  {
    var k := w.links[g];
    match step
    case Send(t) =>
      var task := w.client.tasks[t];
      Upward(k') == Upward(k) + if task.pc.gen == g then [RequestOf(task.ask, task.pc.id)] else []
    case Acknowledge(h, ack) => Upward(k') == Upward(k) + if h == g then [ack] else []
    case ClientWrite(h, nonce) =>
      if h == g && !ClientEncodes(cfg, g, k.queue[0], nonce) then
        |k.up| < |Upward(k)| && Upward(k') == Without(Upward(k), |k.up|)
      else Upward(k') == Upward(k)
    case ServerRead(h, _, _) => Upward(k) == (if h == g then [k.up[0].packet] else []) + Upward(k')
    case LoseUp(h) =>
      if h == g then |k.up| <= |Upward(k)| && Upward(k') == Without(Upward(k), |k.up| - 1) else Upward(k') == Upward(k)
    case _ => Upward(k') == Upward(k)
  }

  lemma QueueingAppends(cfg: Config, w: World, step: Step, g: Gen)
    requires Enabled(cfg, w, step) && g < |w.links| && (step.Send? || step.Acknowledge?)
    ensures g < |Next(cfg, w, step).links| && UpMoves(cfg, w, step, g, Next(cfg, w, step).links[g])
  {
    var k := w.links[g];
    var p := if step.Send? then RequestOf(w.client.tasks[step.t].ask, w.client.tasks[step.t].pc.id) else step.ack;
    assert Upward(k) + [] == Upward(k);
    assert Packets(k.up) + (k.queue + [p]) == Upward(k) + [p];
  }

  lemma CarryingKeepsOrder(cfg: Config, w: World, step: Step, g: Gen)
    requires Enabled(cfg, w, step) && g < |w.links| && (step.ClientWrite? || step.LoseUp?)
    ensures g < |Next(cfg, w, step).links| && UpMoves(cfg, w, step, g, Next(cfg, w, step).links[g])
  {
    if step.g == g {
      if step.ClientWrite? {
        ClientWriteMoves(cfg, g, w.links[g], step.nonce);
      } else {
        LoseLast(w.links[g].up, w.links[g].queue);
      }
    }
  }

  lemma ReadingTakesFirst(cfg: Config, w: World, step: Step, g: Gen)
    requires Enabled(cfg, w, step) && g < |w.links| && step.ServerRead?
    ensures g < |Next(cfg, w, step).links| && UpMoves(cfg, w, step, g, Next(cfg, w, step).links[g])
  {
    var k := w.links[g];
    if step.g == g {
      FirstPacket(k.up);
      assert Upward(k) == [k.up[0].packet] + (Packets(k.up[1..]) + k.queue);
    } else {
      assert [] + Upward(k) == Upward(k);
    }
  }

  lemma RestLeavesUp(cfg: Config, w: World, step: Step, g: Gen)
    requires Enabled(cfg, w, step) && g < |w.links|
    requires step.Client? || step.Serve? || step.ServerWrite? || step.ClientRead? || step.LoseDown?
    ensures g < |Next(cfg, w, step).links|
    ensures Next(cfg, w, step).links[g].up == w.links[g].up && Next(cfg, w, step).links[g].queue == w.links[g].queue
  {
  }

  /**
   * Every step, towards the server: sending and acknowledging append; a write keeps the order, and loses the
   * packet it takes exactly if it does not encode; the server reads the first packet; a cut loses the last
   * one in flight; no other step changes anything.
   */
  lemma UpIsFifo(cfg: Config, w: World, step: Step, g: Gen)
    requires Enabled(cfg, w, step) && g < |w.links|
    ensures g < |Next(cfg, w, step).links| && UpMoves(cfg, w, step, g, Next(cfg, w, step).links[g])
  {
    if step.Send? || step.Acknowledge? {
      QueueingAppends(cfg, w, step, g);
    } else if step.ClientWrite? || step.LoseUp? {
      CarryingKeepsOrder(cfg, w, step, g);
    } else if step.ServerRead? {
      ReadingTakesFirst(cfg, w, step, g);
    } else {
      RestLeavesUp(cfg, w, step, g);
    }
  }

  lemma LoseLast(fs: seq<Flight>, queue: seq<PacketBody>)
    requires fs != []
    ensures |fs| <= |Packets(fs) + queue|
    ensures Packets(fs[..|fs| - 1]) + queue == Without(Packets(fs) + queue, |fs| - 1)
  {
    PacketsLength(fs);
    PacketsLength(fs[..|fs| - 1]);
  }

  // ----- Towards the client -----

  lemma ServerWriteMoves(cfg: Config, g: Gen, k: Link, nonce: Option<Nonce>)
    requires k.conn.outbox != []
    ensures |k.down| < |Downward(k)|
    ensures Downward(AfterServerWrite(cfg, g, k, nonce))
            == if S.WireFrame(cfg.conn(g), k.conn.outbox[0], nonce).Some? then Downward(k)
               else Without(Downward(k), |k.down|)
  {
    var sent := Sent(cfg, g, k.conn.outbox[0], nonce);
    PacketsConcat(k.down, sent);
    PacketsLength(k.down);
    QueuedLength(k.conn.outbox);
    FirstQueued(k.conn.outbox);
    if sent != [] {
      assert sent[..0] == [];
    }
    MoveOver(Packets(k.down), S.QueuedPackets(k.conn.outbox), Packets(sent));
  }

  /** A step of the server other than a write only appends to its queue, at most one packet. */
  lemma ServeAppends(scfg: S.Config, c: S.Conn, step: S.Step)
    requires S.Enabled(c, step) && !step.Write?
    ensures var q, q' := c.outbox, S.Next(scfg, c, step).outbox;
            q <= q' && |q'| <= |q| + 1
  {
  }

  lemma QueueAppends(down: seq<Flight>, q: seq<S.Queued>, q': seq<S.Queued>)
    requires q <= q' && |q'| <= |q| + 1
    ensures Appended(Packets(down) + S.QueuedPackets(q), Packets(down) + S.QueuedPackets(q'))
  {
    var more := q'[|q|..];
    assert q' == q + more;
    S.QueuedAppend(q, more);
    assert Packets(down) + (S.QueuedPackets(q) + []) == Packets(down) + S.QueuedPackets(q);
    if more != [] {
      assert Packets(down) + (S.QueuedPackets(q) + [more[0].packet]) == (Packets(down) + S.QueuedPackets(q)) + [more[0].packet];
    }
  }

  predicate Appended(a: seq<PacketBody>, b: seq<PacketBody>) {
    b == a || (b != [] && b == a + [b[|b| - 1]])
  }

  /** What a step does to the packets on their way to the client on connection `g`, whose link it makes `k'`. */
  ghost predicate DownMoves(cfg: Config, w: World, step: Step, g: Gen, k': Link)
    requires Enabled(cfg, w, step) && g < |w.links|
  {
    var k := w.links[g];
    match step
    case ServerRead(h, _, _) => if h == g then Appended(Downward(k), Downward(k')) else Downward(k') == Downward(k)
    case Serve(h, _) => if h == g then Appended(Downward(k), Downward(k')) else Downward(k') == Downward(k)
    case ServerWrite(h, nonce) =>
      if h == g && S.WireFrame(cfg.conn(g), k.conn.outbox[0], nonce).None? then
        |k.down| < |Downward(k)| && Downward(k') == Without(Downward(k), |k.down|)
      else Downward(k') == Downward(k)
    case ClientRead(h) => Downward(k) == (if h == g then [k.down[0].packet] else []) + Downward(k')
    case LoseDown(h) =>
      if h == g then |k.down| <= |Downward(k)| && Downward(k') == Without(Downward(k), |k.down| - 1)
      else Downward(k') == Downward(k)
    case _ => Downward(k') == Downward(k)
  }

  lemma ServingAppends(cfg: Config, w: World, step: Step, g: Gen)
    requires Enabled(cfg, w, step) && g < |w.links| && (step.ServerRead? || step.Serve?)
    ensures g < |Next(cfg, w, step).links| && DownMoves(cfg, w, step, g, Next(cfg, w, step).links[g])
  {
    var k := w.links[g];
    if step.g == g {
      var s := if step.Serve? then step.serve else S.Message(k.up[0].frame, step.verdict, step.nonce);
      ServeAppends(cfg.conn(g), k.conn, s);
      QueueAppends(k.down, k.conn.outbox, S.Next(cfg.conn(g), k.conn, s).outbox);
    }
  }

  lemma WritingKeepsOrder(cfg: Config, w: World, step: Step, g: Gen)
    requires Enabled(cfg, w, step) && g < |w.links| && (step.ServerWrite? || step.LoseDown?)
    ensures g < |Next(cfg, w, step).links| && DownMoves(cfg, w, step, g, Next(cfg, w, step).links[g])
  {
    if step.g == g {
      if step.ServerWrite? {
        ServerWriteMoves(cfg, g, w.links[g], step.nonce);
      } else {
        LoseLast(w.links[g].down, S.QueuedPackets(w.links[g].conn.outbox));
      }
    }
  }

  lemma ClientTakesFirst(cfg: Config, w: World, step: Step, g: Gen)
    requires Enabled(cfg, w, step) && g < |w.links| && step.ClientRead?
    ensures g < |Next(cfg, w, step).links| && DownMoves(cfg, w, step, g, Next(cfg, w, step).links[g])
  {
    var k := w.links[g];
    if step.g == g {
      FirstPacket(k.down);
      assert Downward(k) == [k.down[0].packet] + (Packets(k.down[1..]) + S.QueuedPackets(k.conn.outbox));
    } else {
      assert [] + Downward(k) == Downward(k);
    }
  }

  lemma RestLeavesDown(cfg: Config, w: World, step: Step, g: Gen)
    requires Enabled(cfg, w, step) && g < |w.links|
    requires step.Client? || step.Send? || step.Acknowledge? || step.ClientWrite? || step.LoseUp?
    ensures g < |Next(cfg, w, step).links|
    ensures Next(cfg, w, step).links[g].down == w.links[g].down && Next(cfg, w, step).links[g].conn == w.links[g].conn
  {
  }

  /**
   * Every step, towards the client: the server's own steps append at most one packet; a write keeps the
   * order, and loses the packet it takes exactly if it does not encode; the client reads the first packet; a
   * cut loses the last one in flight; no other step changes anything.
   */
  lemma DownIsFifo(cfg: Config, w: World, step: Step, g: Gen)
    requires Enabled(cfg, w, step) && g < |w.links|
    ensures g < |Next(cfg, w, step).links| && DownMoves(cfg, w, step, g, Next(cfg, w, step).links[g])
  {
    if step.ServerRead? || step.Serve? {
      ServingAppends(cfg, w, step, g);
    } else if step.ServerWrite? || step.LoseDown? {
      WritingKeepsOrder(cfg, w, step, g);
    } else if step.ClientRead? {
      ClientTakesFirst(cfg, w, step, g);
    } else {
      RestLeavesDown(cfg, w, step, g);
    }
  }
}
