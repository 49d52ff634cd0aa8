/**
 * The fields of `WscallClient` that all its tasks share, with one method per atomic access, and the
 * body of `handle_disconnect`. Every step of the interleaved model is one of these accesses.
 */
module ClientShared {
  import opened Wrappers
  import opened ClientLifecycle
  import C = ClientCalls

  /** The shared fields at one moment. */
  datatype Shared = Shared(
    connected: bool, writer: Option<Gen>, generation: Gen, shutdown: bool, calls: C.Table, events: C.Table)
  {
    function Tab(k: Kind): C.Table {
      if k == Call then calls else events
    }

    function SetTab(k: Kind, t: C.Table): Shared {
      if k == Call then this.(calls := t) else this.(events := t)
    }
  }

  /** The atomic accesses. */
  datatype Access =
    | Look
    | BeginAttempt
    | StoreWriter(gen: Gen)
    | SetConnected
    | SetShutdown
    | SwapConnected(gen: Gen)
    | ClearWriter
    | TakeId(kind: Kind)
    | AddWaiter(kind: Kind, id: Id, task: C.TaskId)
    | DropWaiter(kind: Kind, id: Id)

  function Apply(sh: Shared, a: Access): Shared {
    match a
    case Look => sh
    case BeginAttempt => if sh.shutdown then sh else sh.(generation := sh.generation + 1)
    case StoreWriter(gen) => sh.(writer := Some(gen))
    case SetConnected => sh.(connected := true)
    case SetShutdown => sh.(shutdown := true)
    case SwapConnected(gen) => if sh.generation == gen then sh.(connected := false) else sh
    case ClearWriter => sh.(writer := None)
    case TakeId(k) => sh.SetTab(k, C.Table(sh.Tab(k).lastId + 1, sh.Tab(k).waiters))
    case AddWaiter(k, id, t) => sh.SetTab(k, C.Table(sh.Tab(k).lastId, sh.Tab(k).waiters[id := t]))
    case DropWaiter(k, id) => sh.SetTab(k, C.Table(sh.Tab(k).lastId, sh.Tab(k).waiters - {id}))
  }

  // ----- The interleaved model makes exactly these accesses -----

  function SharedOf(s: C.State): Shared {
    Shared(s.life.connected, s.life.writer, s.life.generation, s.life.shutdown, s.calls, s.events)
  }

  function LifeAccess(l: Life, step: Step): Access {
    match step
    case SupBegin => BeginAttempt
    case SupStore => if l.pc.StoringWriter? then StoreWriter(l.pc.gen) else Look
    case SupConnect => SetConnected
    case CloseBegin => SetShutdown
    case DropSwap(i) => if i < |l.drops| then SwapConnected(l.drops[i].gen) else Look
    case DropClear(_) => ClearWriter
    case _ => Look
  }

  /** The access a step of the model makes. */
  function AccessOf(s: C.State, step: C.Step): Access {
    match step
    case Life(l) => LifeAccess(s.life, l)
    case Drain(i, key, _) =>
      if i < |s.life.drops| && s.life.drops[i].stage.Draining? then DropWaiter(s.life.drops[i].stage.kind, key)
      else Look
    case FetchId(t) => if t < |s.tasks| then TakeId(s.tasks[t].ask.Kind()) else Look
    case InsertWaiter(t) =>
      if t < |s.tasks| && s.tasks[t].pc.Inserting? then AddWaiter(s.tasks[t].ask.Kind(), s.tasks[t].pc.id, t) else Look
    case RemoveFailed(t) =>
      if t < |s.tasks| && s.tasks[t].pc.Failing? then DropWaiter(s.tasks[t].ask.Kind(), s.tasks[t].pc.id) else Look
    case RemoveExpired(t) =>
      if t < |s.tasks| && s.tasks[t].pc.Expiring? then DropWaiter(s.tasks[t].ask.Kind(), s.tasks[t].pc.id) else Look
    case Respond(k, id, _) => DropWaiter(k, id)
    case _ => Look
  }

  lemma RemoveIsDrop(s: C.State, k: Kind, id: Id, who: C.Remover, answer: Option<C.Reply>)
    requires C.TablesInv(s)
    ensures SharedOf(C.Remove(s, k, id, who, answer)) == Apply(SharedOf(s), DropWaiter(k, id))
    ensures C.Remove(s, k, id, who, answer).life == s.life
  {
    if id in s.Tab(k).waiters {
      assert C.WaiterOk(s, k, id);
    } else {
      assert s.Tab(k).waiters - {id} == s.Tab(k).waiters;
    }
  }

  lemma InsertIsAdd(s: C.State, k: Kind, id: Id, t: C.TaskId)
    ensures SharedOf(C.Insert(s, k, id, t)) == Apply(SharedOf(s), AddWaiter(k, id, t))
    ensures |C.Insert(s, k, id, t).tasks| == |s.tasks|
  {
  }

  lemma LifeStepIsOneAccess(cfg: Config, l: Life, step: Step)
    requires Enabled(cfg, l, step)
    ensures var l' := Next(cfg, l, step);
            forall calls, events ::
              Shared(l'.connected, l'.writer, l'.generation, l'.shutdown, calls, events) ==
              Apply(Shared(l.connected, l.writer, l.generation, l.shutdown, calls, events), LifeAccess(l, step))
  {
  }

  lemma RemovalIsOneAccess(cfg: Config, s: C.State, step: C.Step)
    requires C.TablesInv(s) && C.Enabled(cfg, s, step)
    requires step.RemoveFailed? || step.RemoveExpired? || step.Respond?
    ensures SharedOf(C.Next(cfg, s, step)) == Apply(SharedOf(s), AccessOf(s, step))
  {
    match step
    case RemoveFailed(t) => RemoveIsDrop(s, s.tasks[t].ask.Kind(), s.tasks[t].pc.id, C.BySendFailure, None);
    case RemoveExpired(t) => RemoveIsDrop(s, s.tasks[t].ask.Kind(), s.tasks[t].pc.id, C.ByTimeout, None);
    case Respond(k, id, reply) => RemoveIsDrop(s, k, id, C.ByResponse, Some(reply));
  }

  lemma DrainIsOneAccess(cfg: Config, s: C.State, i: nat, key: Id, reason: string)
    requires C.TablesInv(s) && C.Enabled(cfg, s, C.Drain(i, key, reason))
    ensures var step := C.Drain(i, key, reason);
            SharedOf(C.Next(cfg, s, step)) == Apply(SharedOf(s), AccessOf(s, step))
  {
    RemoveIsDrop(s, s.life.drops[i].stage.kind, key, C.ByDrain, Some(Err(C.ConnectionClosed(reason))));
  }

  /** Each step of the model touches the shared fields by one access and no more. */
  lemma StepIsOneAccess(cfg: Config, s: C.State, step: C.Step)
    requires C.Inv(cfg, s) && C.Enabled(cfg, s, step)
    ensures SharedOf(C.Next(cfg, s, step)) == Apply(SharedOf(s), AccessOf(s, step))
  {
    match step
    case Life(l) => LifeStepIsOneAccess(cfg, s.life, l);
    case Drain(i, key, reason) => DrainIsOneAccess(cfg, s, i, key, reason);
    case InsertWaiter(t) => InsertIsAdd(s, s.tasks[t].ask.Kind(), s.tasks[t].pc.id, t);
    case RemoveFailed(_) => RemovalIsOneAccess(cfg, s, step);
    case RemoveExpired(_) => RemovalIsOneAccess(cfg, s, step);
    case Respond(_, _, _) => RemovalIsOneAccess(cfg, s, step);
    case _ =>
  }

  // ----- The object -----

  class Client {
    var connected: bool
    var writer: Option<Gen>
    var generation: Gen
    var shutdown: bool
    var nextRequestId: nat
    var pendingApi: map<Id, C.TaskId>
    var nextEventId: nat
    var pendingEvent: map<Id, C.TaskId>

    ghost function View(): Shared
      reads this
    {
      Shared(connected, writer, generation, shutdown,
             C.Table(nextRequestId, pendingApi), C.Table(nextEventId, pendingEvent))
    }

    constructor ()
      ensures View() == SharedOf(C.INIT_STATE)
    {
      connected, writer, generation, shutdown := false, None, 0, false;
      nextRequestId, pendingApi, nextEventId, pendingEvent := 0, map[], 0, map[];
    }

    /** The supervisor's shutdown check and generation increment. */
    method NextGeneration() returns (gen: Option<Gen>)
      modifies this
      ensures View() == Apply(old(View()), BeginAttempt)
      ensures gen == if old(shutdown) then None else Some(generation)
    {
      if shutdown {
        return None;
      }
      generation := generation + 1;
      gen := Some(generation);
    }

    /** `fetch_add(1) + 1` on one of the two id counters. */
    method FetchId(kind: Kind) returns (id: Id)
      modifies this
      ensures View() == Apply(old(View()), TakeId(kind))
      ensures id == View().Tab(kind).lastId
    {
      if kind == Call {
        nextRequestId := nextRequestId + 1;
        id := nextRequestId;
      } else {
        nextEventId := nextEventId + 1;
        id := nextEventId;
      }
    }

    method Insert(kind: Kind, id: Id, task: C.TaskId)
      modifies this
      ensures View() == Apply(old(View()), AddWaiter(kind, id, task))
    {
      if kind == Call {
        pendingApi := pendingApi[id := task];
      } else {
        pendingEvent := pendingEvent[id := task];
      }
    }

    /** `pending.remove(&id)`: whoever was registered. */
    method Remove(kind: Kind, id: Id) returns (task: Option<C.TaskId>)
      modifies this
      ensures View() == Apply(old(View()), DropWaiter(kind, id))
      ensures var tab := old(View()).Tab(kind).waiters;
              task == if id in tab then Some(tab[id]) else None
    {
      if kind == Call {
        task := if id in pendingApi then Some(pendingApi[id]) else None;
        pendingApi := pendingApi - {id};
      } else {
        task := if id in pendingEvent then Some(pendingEvent[id]) else None;
        pendingEvent := pendingEvent - {id};
      }
    }

    /** The generation check and `swap(false)`; true for the one caller that tears the connection down. */
    method Deactivate(gen: Gen) returns (won: bool)
      modifies this
      ensures View() == Apply(old(View()), SwapConnected(gen))
      ensures won == (old(generation) == gen && old(connected))
    {
      if generation != gen {
        return false;
      }
      won := connected;
      connected := false;
    }

    /** The connection is set up: its writer is stored first, then the client counts as connected. */
    method StoreLive(gen: Gen)
      modifies this`writer, this`connected
      ensures View() == Apply(Apply(old(View()), StoreWriter(gen)), SetConnected)
    {
      writer := Some(gen);
      connected := true;
    }

    /**
     * One pass of the supervisor without interruption; `reachable` says whether the attempt succeeds. After
     * shutdown nothing happens; otherwise a new generation begins, and on success it is the live one.
     */
    method Attempt(reachable: bool) returns (gen: Option<Gen>)
      modifies this
      ensures old(shutdown) ==> gen == None && View() == old(View())
      ensures !old(shutdown) ==> gen == Some(old(generation) + 1) && generation == old(generation) + 1
      ensures !old(shutdown) && reachable ==> connected && writer == gen
      ensures !old(shutdown) && !reachable ==> View() == old(View()).(generation := generation)
      ensures pendingApi == old(pendingApi) && pendingEvent == old(pendingEvent)
    {
      gen := NextGeneration();
      if gen.Some? && reachable {
        StoreLive(gen.value);
      }
    }

    /**
     * The first drain loop: the keys are collected, then each waiter is removed and notified. With
     * nobody else at work the table ends empty and everybody in it was notified under its own id.
     */
    method DrainApi() returns (notified: map<Id, C.TaskId>)
      modifies this`pendingApi
      ensures pendingApi == map[] && notified == old(pendingApi)
    {
      ghost var start := pendingApi;
      var keys := pendingApi.Keys;
      notified := map[];
      while keys != {}
        invariant pendingApi.Keys == keys && keys <= start.Keys && notified.Keys == start.Keys - keys
        invariant forall id :: id in keys ==> pendingApi[id] == start[id]
        invariant forall id :: id in notified ==> notified[id] == start[id]
        decreases |keys|
      {
        var key :| key in keys;
        if key in pendingApi {
          notified := notified[key := pendingApi[key]];
          pendingApi := pendingApi - {key};
        }
        keys := keys - {key};
      }
    }

    /**
     * The second drain loop.
     */
    method DrainEvents() returns (notified: map<Id, C.TaskId>)
      modifies this`pendingEvent
      ensures pendingEvent == map[] && notified == old(pendingEvent)
    {
      ghost var start := pendingEvent;
      var keys := pendingEvent.Keys;
      notified := map[];
      while keys != {}
        invariant pendingEvent.Keys == keys && keys <= start.Keys && notified.Keys == start.Keys - keys
        invariant forall id :: id in keys ==> pendingEvent[id] == start[id]
        invariant forall id :: id in notified ==> notified[id] == start[id]
        decreases |keys|
      {
        var key :| key in keys;
        if key in pendingEvent {
          notified := notified[key := pendingEvent[key]];
          pendingEvent := pendingEvent - {key};
        }
        keys := keys - {key};
      }
    }

    /**
     * `handle_disconnect` without interruption. It takes effect only for the current generation of a
     * connected client; then the writer is gone and exactly the registered waiters were notified.
     */
    method HandleDisconnect(gen: Gen) returns (won: bool, calls: map<Id, C.TaskId>, events: map<Id, C.TaskId>)
      modifies this
      ensures won == (old(generation) == gen && old(connected))
      ensures !won ==> View() == old(View()) && calls == map[] && events == map[]
      ensures won ==>
                && calls == old(pendingApi) && events == old(pendingEvent)
                && View() == Shared(false, None, gen, old(shutdown),
                                    C.Table(old(nextRequestId), map[]), C.Table(old(nextEventId), map[]))
    {
      calls, events := map[], map[];
      won := Deactivate(gen);
      if !won {
        return;
      }
      writer := None;
      calls := DrainApi();
      events := DrainEvents();
    }

    /**
     * `close`: the writer that is stored, if any, is told to close its connection; no attempt begins
     * afterwards, and whoever was waiting has been notified.
     */
    method Close() returns (told: Option<Gen>, calls: map<Id, C.TaskId>, events: map<Id, C.TaskId>)
      modifies this
      ensures told == old(writer)
      ensures shutdown && !connected && generation == old(generation)
      ensures old(connected) ==> calls == old(pendingApi) && events == old(pendingEvent)
                                 && pendingApi == map[] && pendingEvent == map[] && writer == None
      ensures !old(connected) ==> View() == Apply(old(View()), SetShutdown)
    {
      shutdown := true;
      told := writer;
      var won;
      won, calls, events := HandleDisconnect(generation);
    }
  }
}
