/**
 * Request and event correlation of `WscallClient`: every `call` and `send_event` is a task with a
 * program counter, interleaved with responses, timeouts and the lifecycle steps of the client.
 */
module ClientCalls {
  import opened Wrappers
  import opened Json
  import opened Attachment
  import opened Packet
  import L = ClientLifecycle
  import opened ClientLifecycle

  type TaskId = nat

  datatype ClientError = Disconnected | ConnectionClosed(reason: string) | Timeout | Remote(payload: ErrorPayload)

  type Reply = Result<Json, ClientError>

  /** What the caller asked for. */
  datatype Ask =
    | AskCall(route: string, params: Json, attachments: seq<FileAttachment>)
    | AskEvent(name: string, data: Object, attachments: seq<FileAttachment>)
  {
    function Kind(): Kind {
      if AskCall? then Call else Emit
    }
  }

  /** The receiving half of a waiter's one-shot channel. */
  datatype Cell = Empty | Filled(reply: Reply) | Dropped

  /** Who took a waiter out of its table. */
  datatype Remover = ByResponse | ByDrain | BySendFailure | ByTimeout

  datatype Pc =
    | Begin
    | Numbering
    | Inserting(id: Id)
    | Loading(id: Id)
    | Sending(id: Id, gen: Gen)
    | Failing(id: Id)
    | Waiting(id: Id, gen: Gen)
    | Expiring(id: Id, gen: Gen)
    | Unsent(result: Reply)
    | Failed(id: Id, result: Reply)
    | Done(id: Id, gen: Gen, result: Reply)
  {
    /** The waiter has been inserted and the call has not returned. */
    predicate Open() {
      Loading? || Sending? || Failing? || Waiting? || Expiring?
    }

    /** The packet is bound to a connection. */
    predicate Bound() {
      Sending? || Waiting? || Expiring?
    }

    predicate Numbered() {
      !Begin? && !Numbering? && !Unsent?
    }
  }

  datatype Task = Task(ask: Ask, pc: Pc, cell: Cell, gone: seq<Remover>)

  /** A correlation table with its id counter. */
  datatype Table = Table(lastId: nat, waiters: map<Id, TaskId>)

  datatype State = State(life: Life, calls: Table, events: Table, tasks: seq<Task>)
  {
    function Tab(k: Kind): Table {
      if k == Call then calls else events
    }

    function SetTab(k: Kind, t: Table): State {
      if k == Call then State(life, t, events, tasks) else State(life, calls, t, tasks)
    }

    function SetTask(t: TaskId, task: Task): State
      requires t < |tasks|
    {
      State(life, calls, events, tasks[t := task])
    }

    function Goto(t: TaskId, pc: Pc): State
      requires t < |tasks|
    {
      SetTask(t, tasks[t].(pc := pc))
    }
  }

  const INIT_STATE := State(L.INIT, Table(0, map[]), Table(0, map[]), [])

  // ----- Table operations -----

  /** `pending.insert(id, tx)`: a displaced sender is dropped without an answer. */
  function Insert(s: State, k: Kind, id: Id, t: TaskId): State {
    var tab := s.Tab(k);
    var s1 := if id in tab.waiters && tab.waiters[id] < |s.tasks|
              then s.SetTask(tab.waiters[id], s.tasks[tab.waiters[id]].(cell := Dropped)) else s;
    s1.SetTab(k, Table(tab.lastId, tab.waiters[id := t]))
  }

  /** `pending.remove(&id)`, followed by a send to the removed waiter when there is an answer. */
  function Remove(s: State, k: Kind, id: Id, who: Remover, answer: Option<Reply>): State {
    var tab := s.Tab(k);
    if id in tab.waiters && tab.waiters[id] < |s.tasks| then
      var task := s.tasks[tab.waiters[id]];
      var cell := if answer.Some? then Filled(answer.value) else task.cell;
      s.SetTab(k, Table(tab.lastId, tab.waiters - {id}))
       .SetTask(tab.waiters[id], Task(task.ask, task.pc, cell, task.gone + [who]))
    else s
  }

  /** The keys of one shard, as the drain collects them. */
  function Shard(cfg: Config, tab: Table, shard: nat): set<Id> {
    set id | id in tab.waiters && cfg.shardOf(id) == shard
  }

  // ----- Steps -----

  datatype Step =
    | Life(step: L.Step)
    | Collect(i: nat)
    | Drain(i: nat, key: Id, reason: string)
    | NewTask(ask: Ask)
    | CheckConnected(t: TaskId)
    | FetchId(t: TaskId)
    | InsertWaiter(t: TaskId)
    | LoadWriter(t: TaskId)
    | Send(t: TaskId)
    | SendFail(t: TaskId)
    | RemoveFailed(t: TaskId)
    | Expire(t: TaskId)
    | RemoveExpired(t: TaskId)
    | Receive(t: TaskId)
    | Respond(kind: Kind, id: Id, reply: Reply)

  ghost predicate Enabled(cfg: Config, s: State, step: Step) {
    match step
    case Life(l) => !l.DropCollect? && !l.DropRemove? && L.Enabled(cfg, s.life, l)
    case Collect(i) => i < |s.life.drops| && s.life.drops[i].stage.Collecting?
    case Drain(i, key, _) => L.Enabled(cfg, s.life, DropRemove(i, key))
    case NewTask(_) => true
    case Respond(_, _, _) => true
    case CheckConnected(t) => t < |s.tasks| && s.tasks[t].pc == Begin
    case FetchId(t) => t < |s.tasks| && s.tasks[t].pc == Numbering
    case InsertWaiter(t) => t < |s.tasks| && s.tasks[t].pc.Inserting?
    case LoadWriter(t) => t < |s.tasks| && s.tasks[t].pc.Loading?
    case Send(t) => t < |s.tasks| && s.tasks[t].pc.Sending?
    case SendFail(t) => t < |s.tasks| && s.tasks[t].pc.Sending?
    case RemoveFailed(t) => t < |s.tasks| && s.tasks[t].pc.Failing?
    case Expire(t) => t < |s.tasks| && s.tasks[t].pc.Waiting? && s.tasks[t].cell == Empty
    case RemoveExpired(t) => t < |s.tasks| && s.tasks[t].pc.Expiring?
    case Receive(t) => t < |s.tasks| && s.tasks[t].pc.Waiting? && s.tasks[t].cell != Empty
  }

  ghost function Next(cfg: Config, s: State, step: Step): State
    requires Enabled(cfg, s, step)
  {
    match step
    case Life(l) => s.(life := L.Next(cfg, s.life, l))
    case Collect(i) =>
      var st := s.life.drops[i].stage;
      s.(life := L.Next(cfg, s.life, DropCollect(i, Shard(cfg, s.Tab(st.kind), st.shard))))
    case Drain(i, key, reason) =>
      Remove(s, s.life.drops[i].stage.kind, key, ByDrain, Some(Err(ConnectionClosed(reason))))
      .(life := L.Next(cfg, s.life, DropRemove(i, key)))
    case NewTask(ask) => s.(tasks := s.tasks + [Task(ask, Begin, Empty, [])])
    case CheckConnected(t) => s.Goto(t, if s.life.connected then Numbering else Unsent(Err(Disconnected)))
    case FetchId(t) =>
      var k := s.tasks[t].ask.Kind();
      var id := s.Tab(k).lastId + 1;
      s.SetTab(k, Table(id, s.Tab(k).waiters)).Goto(t, Inserting(id))
    case InsertWaiter(t) =>
      Insert(s, s.tasks[t].ask.Kind(), s.tasks[t].pc.id, t).Goto(t, Loading(s.tasks[t].pc.id))
    case LoadWriter(t) =>
      s.Goto(t, if s.life.writer.Some? then Sending(s.tasks[t].pc.id, s.life.writer.value)
                else Failing(s.tasks[t].pc.id))
    case Send(t) => s.Goto(t, Waiting(s.tasks[t].pc.id, s.tasks[t].pc.gen))
    case SendFail(t) => s.Goto(t, Failing(s.tasks[t].pc.id))
    case RemoveFailed(t) =>
      Remove(s, s.tasks[t].ask.Kind(), s.tasks[t].pc.id, BySendFailure, None)
      .Goto(t, Failed(s.tasks[t].pc.id, Err(Disconnected)))
    case Expire(t) => s.Goto(t, Expiring(s.tasks[t].pc.id, s.tasks[t].pc.gen))
    case RemoveExpired(t) =>
      Remove(s, s.tasks[t].ask.Kind(), s.tasks[t].pc.id, ByTimeout, None)
      .Goto(t, Done(s.tasks[t].pc.id, s.tasks[t].pc.gen, Err(Timeout)))
    case Receive(t) =>
      s.Goto(t, Done(s.tasks[t].pc.id, s.tasks[t].pc.gen,
                     if s.tasks[t].cell.Filled? then s.tasks[t].cell.reply else Err(Disconnected)))
    case Respond(k, id, reply) => Remove(s, k, id, ByResponse, Some(reply))
  }

  // ----- Invariant: tables and tasks -----

  /** A waiter in a table belongs to an open task of that kind and id that nobody has answered. */
  ghost predicate WaiterOk(s: State, k: Kind, id: Id)
    requires id in s.Tab(k).waiters
  {
    var t := s.Tab(k).waiters[id];
    && t < |s.tasks| && s.tasks[t].ask.Kind() == k
    && s.tasks[t].pc.Open() && s.tasks[t].pc.id == id && s.tasks[t].gone == []
  }

  predicate IsClosed(reply: Reply) {
    reply.Err? && reply.error.ConnectionClosed?
  }

  ghost predicate TaskOk(s: State, t: TaskId)
    requires t < |s.tasks|
  {
    var task := s.tasks[t];
    var tab := s.Tab(task.ask.Kind());
    && task.cell != Dropped
    && (task.pc.Numbered() ==> 1 <= task.pc.id <= tab.lastId)
    && (if task.pc.Open() then
          if task.gone == [] then
            task.cell == Empty && task.pc.id in tab.waiters && tab.waiters[task.pc.id] == t
          else task.gone in {[ByResponse], [ByDrain]} && task.cell.Filled?
               && (task.gone == [ByDrain] ==> IsClosed(task.cell.reply))
        else if task.pc.Done? then
          && task.gone in {[ByResponse], [ByDrain], [ByTimeout]}
          && (task.pc.result == Err(Timeout) || task.cell == Filled(task.pc.result))
          && (task.gone == [ByTimeout] ==> task.pc.result == Err(Timeout))
          && (task.gone == [ByDrain] ==> task.pc.result == Err(Timeout) || IsClosed(task.pc.result))
        else if task.pc.Failed? then
          task.gone in {[BySendFailure], [ByResponse], [ByDrain]} && task.pc.result == Err(Disconnected)
        else task.gone == [] && task.cell == Empty && (task.pc.Unsent? ==> task.pc.result == Err(Disconnected)))
  }

  predicate SameId(a: Task, b: Task) {
    a.ask.Kind() == b.ask.Kind() && a.pc.Numbered() && b.pc.Numbered() && a.pc.id == b.pc.id
  }

  /** Every table entry and every task is in order, and no two tasks share an id of one kind. */
  ghost predicate TablesInv(s: State) {
    && (forall k, id :: id in s.Tab(k).waiters ==> WaiterOk(s, k, id))
    && (forall t :: 0 <= t < |s.tasks| ==> TaskOk(s, t))
    && (forall t, u :: 0 <= t < u < |s.tasks| ==> !SameId(s.tasks[t], s.tasks[u]))
  }

  // ----- Invariant: nobody is left behind -----

  /** The drain in this stage will still look at the waiter. */
  ghost predicate StillDue(cfg: Config, st: Stage, k: Kind, id: Id) {
    match st
    case Clearing => true
    case Collecting(kind, shard, keys) =>
      if k == kind then id in keys || cfg.shardOf(id) >= shard else kind == Call
    case Draining(kind, keys) => if k == kind then id in keys else kind == Call
    case _ => false
  }

  ghost predicate DrainDue(cfg: Config, l: L.Life, g: Gen, k: Kind, id: Id) {
    exists i :: 0 <= i < |l.drops| && l.drops[i].gen == g && StillDue(cfg, l.drops[i].stage, k, id)
  }

  /** The connection is up or coming up, or its drain has yet to reach the waiter. */
  ghost predicate Covered(cfg: Config, l: L.Life, g: Gen, k: Kind, id: Id) {
    (l.connected && l.generation == g) || l.pc == SettingConnected(g) || DrainDue(cfg, l, g, k, id)
  }

  ghost predicate NoOrphans(cfg: Config, s: State) {
    forall t :: 0 <= t < |s.tasks| && s.tasks[t].pc.Bound() && s.tasks[t].gone == [] ==>
      Covered(cfg, s.life, s.tasks[t].pc.gen, s.tasks[t].ask.Kind(), s.tasks[t].pc.id)
  }

  ghost predicate ShardsInv(cfg: Config, l: L.Life) {
    forall i :: 0 <= i < |l.drops| && l.drops[i].stage.Collecting? ==> l.drops[i].stage.shard < cfg.shards
  }

  ghost predicate Inv(cfg: Config, s: State) {
    L.Inv(s.life) && ShardsInv(cfg, s.life) && TablesInv(s) && NoOrphans(cfg, s)
  }

  // ----- Tables and tasks are kept -----

  /** One task changes, together with table entries of its own; everything else stays. */
  ghost predicate OnlyTask(s: State, s': State, t: TaskId) {
    && t < |s.tasks| == |s'.tasks|
    && (forall u :: 0 <= u < |s.tasks| && u != t ==> s'.tasks[u] == s.tasks[u])
    && s'.tasks[t].ask == s.tasks[t].ask
    && (forall k :: s.Tab(k).lastId <= s'.Tab(k).lastId)
    && (forall k, id :: id in s.Tab(k).waiters && s.Tab(k).waiters[id] != t ==>
          id in s'.Tab(k).waiters && s'.Tab(k).waiters[id] == s.Tab(k).waiters[id])
    && (forall k, id :: id in s'.Tab(k).waiters && s'.Tab(k).waiters[id] != t ==>
          id in s.Tab(k).waiters && s'.Tab(k).waiters[id] == s.Tab(k).waiters[id])
  }

  lemma OnlyTaskKeeps(s: State, s': State, t: TaskId)
    requires TablesInv(s) && OnlyTask(s, s', t)
    requires TaskOk(s', t)
    requires forall k, id :: id in s'.Tab(k).waiters && s'.Tab(k).waiters[id] == t ==> WaiterOk(s', k, id)
    requires forall u :: 0 <= u < |s.tasks| && u != t ==> !SameId(s.tasks[u], s'.tasks[t])
    ensures TablesInv(s')
  {
    forall u | 0 <= u < |s'.tasks| && u != t
      ensures TaskOk(s', u)
    {
      assert TaskOk(s, u);
    }
    forall k, id | id in s'.Tab(k).waiters && s'.Tab(k).waiters[id] != t
      ensures WaiterOk(s', k, id)
    {
      assert WaiterOk(s, k, id);
    }
  }

  /** A task is registered at most under its own kind and id, and only while it is open and unanswered. */
  lemma OwnedUnderOwnId(s: State, t: TaskId)
    requires TablesInv(s) && t < |s.tasks|
    ensures forall k, id :: id in s.Tab(k).waiters && s.Tab(k).waiters[id] == t ==>
              && s.tasks[t].pc.Open() && s.tasks[t].gone == []
              && s.tasks[t].ask.Kind() == k && s.tasks[t].pc.id == id
  {
    forall k, id | id in s.Tab(k).waiters && s.Tab(k).waiters[id] == t
      ensures && s.tasks[t].pc.Open() && s.tasks[t].gone == []
              && s.tasks[t].ask.Kind() == k && s.tasks[t].pc.id == id
    {
      assert WaiterOk(s, k, id);
    }
  }

  /** A task moves between program points without touching a table. */
  lemma MoveKeeps(s: State, s': State, t: TaskId, pc: Pc)
    requires TablesInv(s) && t < |s.tasks| && s' == s.Goto(t, pc)
    requires || (s.tasks[t].pc.Begin? && (pc == Numbering || pc == Unsent(Err(Disconnected))))
             || (s.tasks[t].pc.Open() && pc.Open() && pc.id == s.tasks[t].pc.id)
    ensures TablesInv(s')
  {
    assert TaskOk(s, t);
    OwnedUnderOwnId(s, t);
    OnlyTaskKeeps(s, s', t);
  }

  lemma FetchKeeps(s: State, s': State, t: TaskId, id: Id)
    requires TablesInv(s) && t < |s.tasks| && s.tasks[t].pc == Numbering
    requires var k := s.tasks[t].ask.Kind();
             id == s.Tab(k).lastId + 1 && s' == s.SetTab(k, Table(id, s.Tab(k).waiters)).Goto(t, Inserting(id))
    ensures TablesInv(s')
  {
    assert TaskOk(s, t);
    OwnedUnderOwnId(s, t);
    forall u | 0 <= u < |s.tasks| && u != t
      ensures !SameId(s.tasks[u], s'.tasks[t])
    {
      assert TaskOk(s, u);
    }
    OnlyTaskKeeps(s, s', t);
  }

  /** The id of a task that is about to insert is in no table: an insert never overwrites. */
  lemma FreshOnInsert(s: State, t: TaskId)
    requires TablesInv(s) && t < |s.tasks| && s.tasks[t].pc.Inserting?
    ensures s.tasks[t].pc.id !in s.Tab(s.tasks[t].ask.Kind()).waiters
  {
    var k, id := s.tasks[t].ask.Kind(), s.tasks[t].pc.id;
    if id in s.Tab(k).waiters {
      assert WaiterOk(s, k, id);
      assert SameId(s.tasks[t], s.tasks[s.Tab(k).waiters[id]]);
    }
  }

  lemma InsertKeeps(s: State, s': State, t: TaskId)
    requires TablesInv(s) && t < |s.tasks| && s.tasks[t].pc.Inserting?
    requires s' == Insert(s, s.tasks[t].ask.Kind(), s.tasks[t].pc.id, t).Goto(t, Loading(s.tasks[t].pc.id))
    ensures TablesInv(s')
  {
    FreshOnInsert(s, t);
    assert TaskOk(s, t);
    OwnedUnderOwnId(s, t);
    OnlyTaskKeeps(s, s', t);
  }

  /** Removing with an answer: the one waiter concerned is answered, nobody else is touched. */
  lemma AnswerKeeps(s: State, s': State, k: Kind, id: Id, who: Remover, reply: Reply)
    requires TablesInv(s) && who in {ByResponse, ByDrain} && (who == ByDrain ==> IsClosed(reply))
    requires s' == Remove(s, k, id, who, Some(reply))
    ensures TablesInv(s')
  {
    if id in s.Tab(k).waiters {
      var t := s.Tab(k).waiters[id];
      assert WaiterOk(s, k, id);
      assert TaskOk(s, t);
      OwnedUnderOwnId(s, t);
      assert s'.tasks[t].gone == [who];
      OnlyTaskKeeps(s, s', t);
    }
  }

  predicate GivesUp(task: Task, who: Remover, pc: Pc) {
    && task.pc.Open()
    && (|| (who == BySendFailure && pc == Failed(task.pc.id, Err(Disconnected)))
        || (who == ByTimeout && pc.Done? && pc.id == task.pc.id && pc.result == Err(Timeout)))
  }

  /** A task removes its own waiter, if nobody did, and returns an error: its own entry is in order. */
  lemma GiveUpTaskOk(s: State, s': State, t: TaskId, who: Remover, pc: Pc)
    requires TablesInv(s) && t < |s.tasks| && GivesUp(s.tasks[t], who, pc)
    requires s' == Remove(s, s.tasks[t].ask.Kind(), s.tasks[t].pc.id, who, None).Goto(t, pc)
    ensures TaskOk(s', t) && OnlyTask(s, s', t)
    ensures s.tasks[t].pc.id !in s'.Tab(s.tasks[t].ask.Kind()).waiters
  {
    assert TaskOk(s, t);
    OwnWaiterOnly(s, t);
    assert s'.tasks[t].gone == if s.tasks[t].gone == [] then [who] else s.tasks[t].gone;
  }

  lemma GiveUpKeeps(s: State, s': State, t: TaskId, who: Remover, pc: Pc)
    requires TablesInv(s) && t < |s.tasks| && GivesUp(s.tasks[t], who, pc)
    requires s' == Remove(s, s.tasks[t].ask.Kind(), s.tasks[t].pc.id, who, None).Goto(t, pc)
    ensures TablesInv(s')
  {
    GiveUpTaskOk(s, s', t, who, pc);
    OwnedUnderOwnId(s, t);
    OnlyTaskKeeps(s, s', t);
  }

  /** Whoever is registered under a task's id is that task. */
  lemma OwnWaiterOnly(s: State, t: TaskId)
    requires TablesInv(s) && t < |s.tasks| && s.tasks[t].pc.Numbered()
    ensures var tab := s.Tab(s.tasks[t].ask.Kind());
            s.tasks[t].pc.id in tab.waiters ==> tab.waiters[s.tasks[t].pc.id] == t
  {
    var k, id := s.tasks[t].ask.Kind(), s.tasks[t].pc.id;
    if id in s.Tab(k).waiters {
      assert WaiterOk(s, k, id);
      assert SameId(s.tasks[t], s.tasks[s.Tab(k).waiters[id]]);
    }
  }

  lemma ReceiveKeeps(s: State, s': State, t: TaskId)
    requires TablesInv(s) && t < |s.tasks| && s.tasks[t].pc.Waiting? && s.tasks[t].cell != Empty
    requires s' == s.Goto(t, Done(s.tasks[t].pc.id, s.tasks[t].pc.gen,
                                  if s.tasks[t].cell.Filled? then s.tasks[t].cell.reply else Err(Disconnected)))
    ensures TablesInv(s')
  {
    assert TaskOk(s, t);
    OwnedUnderOwnId(s, t);
    OnlyTaskKeeps(s, s', t);
  }

  lemma NewTaskKeeps(s: State, s': State, ask: Ask)
    requires TablesInv(s) && s' == s.(tasks := s.tasks + [Task(ask, Begin, Empty, [])])
    ensures TablesInv(s')
  {
    forall u | 0 <= u < |s'.tasks|
      ensures TaskOk(s', u)
    {
      if u < |s.tasks| {
        assert TaskOk(s, u);
      }
    }
    forall k, id | id in s'.Tab(k).waiters
      ensures WaiterOk(s', k, id)
    {
      assert WaiterOk(s, k, id);
    }
  }

  lemma LifeOnlyKeeps(s: State, s': State)
    requires TablesInv(s) && s' == s.(life := s'.life)
    ensures TablesInv(s')
  {
    forall u | 0 <= u < |s'.tasks|
      ensures TaskOk(s', u)
    {
      assert TaskOk(s, u);
    }
    forall k, id | id in s'.Tab(k).waiters
      ensures WaiterOk(s', k, id)
    {
      assert WaiterOk(s, k, id);
    }
  }

  // ----- Coverage is kept -----

  /** An uncovered waiter stays due while its drain moves to a stage that has not passed it by. */
  lemma DueMoves(cfg: Config, l: L.Life, l': L.Life, g: Gen, k: Kind, id: Id, i: nat, st: Stage)
    requires DrainDue(cfg, l, g, k, id) && i < |l.drops|
    requires l'.drops == l.drops[i := l.drops[i].(stage := st)]
    requires StillDue(cfg, l.drops[i].stage, k, id) ==> StillDue(cfg, st, k, id)
    ensures DrainDue(cfg, l', g, k, id)
  {
    var j :| 0 <= j < |l.drops| && l.drops[j].gen == g && StillDue(cfg, l.drops[j].stage, k, id);
    assert l'.drops[j].gen == g && StillDue(cfg, l'.drops[j].stage, k, id);
  }

  lemma DueGrows(cfg: Config, l: L.Life, l': L.Life, g: Gen, k: Kind, id: Id)
    requires DrainDue(cfg, l, g, k, id) && l.drops <= l'.drops
    ensures DrainDue(cfg, l', g, k, id)
  {
    var j :| 0 <= j < |l.drops| && l.drops[j].gen == g && StillDue(cfg, l.drops[j].stage, k, id);
    assert l'.drops[j] == l.drops[j];
  }

  /** What is due is due to a teardown in progress. */
  lemma DueIsInProgress(cfg: Config, l: L.Life, g: Gen, k: Kind, id: Id)
    requires DrainDue(cfg, l, g, k, id)
    ensures exists i :: 0 <= i < |l.drops| && l.drops[i].gen == g && InProgress(l.drops[i].stage)
  {
    var j :| 0 <= j < |l.drops| && l.drops[j].gen == g && StillDue(cfg, l.drops[j].stage, k, id);
    assert InProgress(l.drops[j].stage);
  }

  /** Supervisor and `close` steps uncover nobody. */
  lemma SupCovers(cfg: Config, l: L.Life, step: L.Step, g: Gen, k: Kind, id: Id)
    requires L.Inv(l) && L.Enabled(cfg, l, step) && Covered(cfg, l, g, k, id)
    requires !step.DropSwap? && !step.DropClear? && !step.DropCollect? && !step.DropRemove?
             && !step.DropDrained? && !step.DropReport? && !step.DropSignal?
    ensures Covered(cfg, L.Next(cfg, l, step), g, k, id)
  {
    if DrainDue(cfg, l, g, k, id) {
      DueIsInProgress(cfg, l, g, k, id);
      DueGrows(cfg, l, L.Next(cfg, l, step), g, k, id);
    }
  }

  /** The winner of the swap takes over every waiter of the connection it tears down. */
  lemma SwapCovers(cfg: Config, l: L.Life, i: nat, g: Gen, k: Kind, id: Id)
    requires L.Inv(l) && L.Enabled(cfg, l, DropSwap(i)) && Covered(cfg, l, g, k, id)
    ensures Covered(cfg, L.Next(cfg, l, DropSwap(i)), g, k, id)
  {
    var l' := L.Next(cfg, l, DropSwap(i));
    if DrainDue(cfg, l, g, k, id) {
      DueMoves(cfg, l, l', g, k, id, i, l'.drops[i].stage);
    } else if l.connected && l.generation == g && l.drops[i].gen == g {
      assert StillDue(cfg, l'.drops[i].stage, k, id);
      assert DrainDue(cfg, l', g, k, id);
    }
  }

  /** Draining uncovers nobody who has not been visited. */
  lemma DrainCovers(cfg: Config, l: L.Life, step: L.Step, g: Gen, k: Kind, id: Id)
    requires L.Inv(l) && L.Enabled(cfg, l, step) && Covered(cfg, l, g, k, id) && ValidConfig(cfg)
    requires step.DropClear? || step.DropCollect? || step.DropRemove? || step.DropDrained?
             || step.DropReport? || step.DropSignal?
    requires step.DropCollect? && l.drops[step.i].stage.kind == k && cfg.shardOf(id) == l.drops[step.i].stage.shard ==>
               id in step.found
    requires step.DropRemove? && l.drops[step.i].stage.kind == k ==> id != step.key
    requires l.drops[step.i].stage.Collecting? ==> l.drops[step.i].stage.shard < cfg.shards
    ensures Covered(cfg, L.Next(cfg, l, step), g, k, id)
  {
    var l' := L.Next(cfg, l, step);
    if DrainDue(cfg, l, g, k, id) {
      assert cfg.shardOf(id) < cfg.shards;
      DueMoves(cfg, l, l', g, k, id, step.i, l'.drops[step.i].stage);
    }
  }

  lemma ShardsKept(cfg: Config, l: L.Life, step: L.Step)
    requires ValidConfig(cfg) && ShardsInv(cfg, l) && L.Enabled(cfg, l, step)
    ensures ShardsInv(cfg, L.Next(cfg, l, step))
  {
    assert cfg.shardOf(0) < cfg.shards;
  }

  /** A stored writer belongs to a connection whose drain has collected nothing yet. */
  lemma WriterCovers(cfg: Config, l: L.Life, k: Kind, id: Id)
    requires L.Inv(l) && l.writer.Some?
    ensures Covered(cfg, l, l.writer.value, k, id)
  {
    if SomeClearing(l) {
      var i :| 0 <= i < |l.drops| && l.drops[i].stage == Clearing;
      assert l.drops[i].gen == l.writer.value && StillDue(cfg, l.drops[i].stage, k, id);
    }
  }

  /** A step of the lifecycle that touches no table. */
  lemma LifeStepCovers(cfg: Config, s: State, s': State, step: L.Step)
    requires ValidConfig(cfg) && Inv(cfg, s) && L.Enabled(cfg, s.life, step)
    requires !step.DropCollect? && !step.DropRemove?
    requires s' == s.(life := L.Next(cfg, s.life, step))
    ensures NoOrphans(cfg, s')
  {
    forall t | 0 <= t < |s'.tasks| && s'.tasks[t].pc.Bound() && s'.tasks[t].gone == []
      ensures Covered(cfg, s'.life, s'.tasks[t].pc.gen, s'.tasks[t].ask.Kind(), s'.tasks[t].pc.id)
    {
      var g, k, id := s.tasks[t].pc.gen, s.tasks[t].ask.Kind(), s.tasks[t].pc.id;
      if step.DropSwap? {
        SwapCovers(cfg, s.life, step.i, g, k, id);
      } else if step.DropClear? || step.DropDrained? || step.DropReport? || step.DropSignal? {
        DrainCovers(cfg, s.life, step, g, k, id);
      } else {
        SupCovers(cfg, s.life, step, g, k, id);
      }
    }
  }

  /** Collecting a shard picks up every waiter of that shard that is still unanswered. */
  lemma CollectCovers(cfg: Config, s: State, s': State, i: nat, step: L.Step)
    requires ValidConfig(cfg) && Inv(cfg, s) && i < |s.life.drops| && s.life.drops[i].stage.Collecting?
    requires var st := s.life.drops[i].stage; step == DropCollect(i, Shard(cfg, s.Tab(st.kind), st.shard))
    requires s' == s.(life := L.Next(cfg, s.life, step))
    ensures NoOrphans(cfg, s')
  {
    forall t | 0 <= t < |s'.tasks| && s'.tasks[t].pc.Bound() && s'.tasks[t].gone == []
      ensures Covered(cfg, s'.life, s'.tasks[t].pc.gen, s'.tasks[t].ask.Kind(), s'.tasks[t].pc.id)
    {
      assert TaskOk(s, t);
      DrainCovers(cfg, s.life, step, s.tasks[t].pc.gen, s.tasks[t].ask.Kind(), s.tasks[t].pc.id);
    }
  }

  /** The drain notifies the waiter it removes; the others remain due. */
  lemma RemoveCovers(cfg: Config, s: State, s': State, i: nat, key: Id, reply: Reply)
    requires ValidConfig(cfg) && Inv(cfg, s) && L.Enabled(cfg, s.life, DropRemove(i, key))
    requires s' == Remove(s, s.life.drops[i].stage.kind, key, ByDrain, Some(reply))
                   .(life := L.Next(cfg, s.life, DropRemove(i, key)))
    ensures NoOrphans(cfg, s')
  {
    var kind := s.life.drops[i].stage.kind;
    forall t | 0 <= t < |s'.tasks| && s'.tasks[t].pc.Bound() && s'.tasks[t].gone == []
      ensures Covered(cfg, s'.life, s'.tasks[t].pc.gen, s'.tasks[t].ask.Kind(), s'.tasks[t].pc.id)
    {
      assert TaskOk(s, t);
      assert s.tasks[t].gone == [] && s'.tasks[t].pc == s.tasks[t].pc;
      DrainCovers(cfg, s.life, DropRemove(i, key), s.tasks[t].pc.gen, s.tasks[t].ask.Kind(), s.tasks[t].pc.id);
    }
  }

  /** A step of one task, with the lifecycle unchanged. */
  lemma TaskStepCovers(cfg: Config, s: State, s': State, t: TaskId)
    requires NoOrphans(cfg, s) && s'.life == s.life && t < |s.tasks| == |s'.tasks|
    requires forall u :: 0 <= u < |s.tasks| && u != t ==> s'.tasks[u] == s.tasks[u]
    requires s'.tasks[t].ask == s.tasks[t].ask
    requires s'.tasks[t].pc.Bound() && s'.tasks[t].gone == [] ==>
               || Covered(cfg, s.life, s'.tasks[t].pc.gen, s'.tasks[t].ask.Kind(), s'.tasks[t].pc.id)
               || (s.tasks[t].pc.Bound() && s.tasks[t].gone == []
                   && s'.tasks[t].pc.id == s.tasks[t].pc.id && s'.tasks[t].pc.gen == s.tasks[t].pc.gen)
    ensures NoOrphans(cfg, s')
  {
  }

  // ----- Every step keeps the invariant -----

  lemma LifecycleStepKeeps(cfg: Config, s: State, step: Step)
    requires ValidConfig(cfg) && Inv(cfg, s) && Enabled(cfg, s, step)
    requires step.Life? || step.Collect? || step.Drain?
    ensures Inv(cfg, Next(cfg, s, step))
  {
    var s' := Next(cfg, s, step);
    match step
    case Life(l) =>
      L.StepKeeps(cfg, s.life, l);
      ShardsKept(cfg, s.life, l);
      LifeOnlyKeeps(s, s');
      LifeStepCovers(cfg, s, s', l);
    case Collect(i) =>
      var st := s.life.drops[i].stage;
      var l := DropCollect(i, Shard(cfg, s.Tab(st.kind), st.shard));
      L.StepKeeps(cfg, s.life, l);
      ShardsKept(cfg, s.life, l);
      LifeOnlyKeeps(s, s');
      CollectCovers(cfg, s, s', i, l);
    case Drain(i, key, reason) =>
      var l := DropRemove(i, key);
      var reply := Err(ConnectionClosed(reason));
      L.StepKeeps(cfg, s.life, l);
      ShardsKept(cfg, s.life, l);
      var s1 := Remove(s, s.life.drops[i].stage.kind, key, ByDrain, Some(reply));
      AnswerKeeps(s, s1, s.life.drops[i].stage.kind, key, ByDrain, reply);
      LifeOnlyKeeps(s1, s');
      RemoveCovers(cfg, s, s', i, key, reply);
  }

  lemma SendingStepKeeps(cfg: Config, s: State, step: Step)
    requires ValidConfig(cfg) && Inv(cfg, s) && Enabled(cfg, s, step)
    requires step.CheckConnected? || step.LoadWriter? || step.Send? || step.SendFail? || step.Expire?
    ensures Inv(cfg, Next(cfg, s, step))
  {
    var s', t := Next(cfg, s, step), step.t;
    MoveKeeps(s, s', t, s'.tasks[t].pc);
    if step.LoadWriter? && s.life.writer.Some? {
      WriterCovers(cfg, s.life, s.tasks[t].ask.Kind(), s.tasks[t].pc.id);
    }
    TaskStepCovers(cfg, s, s', t);
  }

  lemma TableStepKeeps(cfg: Config, s: State, step: Step)
    requires ValidConfig(cfg) && Inv(cfg, s) && Enabled(cfg, s, step)
    requires step.FetchId? || step.InsertWaiter? || step.Receive?
    ensures Inv(cfg, Next(cfg, s, step))
  {
    var s', t := Next(cfg, s, step), step.t;
    match step
    case FetchId(_) => FetchKeeps(s, s', t, s'.tasks[t].pc.id);
    case InsertWaiter(_) => FreshOnInsert(s, t); InsertKeeps(s, s', t);
    case Receive(_) => ReceiveKeeps(s, s', t);
    TaskStepCovers(cfg, s, s', t);
  }

  lemma GiveUpStepKeeps(cfg: Config, s: State, step: Step)
    requires ValidConfig(cfg) && Inv(cfg, s) && Enabled(cfg, s, step)
    requires step.RemoveFailed? || step.RemoveExpired?
    ensures Inv(cfg, Next(cfg, s, step))
  {
    var s', t := Next(cfg, s, step), step.t;
    GiveUpKeeps(s, s', t, if step.RemoveFailed? then BySendFailure else ByTimeout, s'.tasks[t].pc);
    OwnWaiterOnly(s, t);
    TaskStepCovers(cfg, s, s', t);
  }

  lemma RespondKeeps(cfg: Config, s: State, s': State, k: Kind, id: Id, reply: Reply)
    requires Inv(cfg, s) && s' == Remove(s, k, id, ByResponse, Some(reply))
    ensures Inv(cfg, s')
  {
    AnswerKeeps(s, s', k, id, ByResponse, reply);
    if id in s.Tab(k).waiters && s.Tab(k).waiters[id] < |s.tasks| {
      TaskStepCovers(cfg, s, s', s.Tab(k).waiters[id]);
    }
  }

  lemma StepKeeps(cfg: Config, s: State, step: Step)
    requires ValidConfig(cfg) && Inv(cfg, s) && Enabled(cfg, s, step)
    ensures Inv(cfg, Next(cfg, s, step))
  {
    var s' := Next(cfg, s, step);
    match step
    case Life(_) => LifecycleStepKeeps(cfg, s, step);
    case Collect(_) => LifecycleStepKeeps(cfg, s, step);
    case Drain(_, _, _) => LifecycleStepKeeps(cfg, s, step);
    case NewTask(ask) => NewTaskKeeps(s, s', ask);
    case FetchId(_) => TableStepKeeps(cfg, s, step);
    case InsertWaiter(_) => TableStepKeeps(cfg, s, step);
    case Receive(_) => TableStepKeeps(cfg, s, step);
    case RemoveFailed(_) => GiveUpStepKeeps(cfg, s, step);
    case RemoveExpired(_) => GiveUpStepKeeps(cfg, s, step);
    case Respond(k, id, reply) => RespondKeeps(cfg, s, s', k, id, reply);
    case _ => SendingStepKeeps(cfg, s, step);
  }

  // ----- Runs -----

  /** The state after these steps; a step that is not enabled is skipped. */
  ghost function Run(cfg: Config, steps: seq<Step>): State {
    if steps == [] then INIT_STATE
    else
      var s := Run(cfg, steps[..|steps| - 1]);
      if Enabled(cfg, s, steps[|steps| - 1]) then Next(cfg, s, steps[|steps| - 1]) else s
  }

  lemma {:induction false} RunInv(cfg: Config, steps: seq<Step>)
    requires ValidConfig(cfg)
    ensures Inv(cfg, Run(cfg, steps))
  {
    if steps == [] {
      L.InitInv();
    } else {
      var s, step := Run(cfg, steps[..|steps| - 1]), steps[|steps| - 1];
      RunInv(cfg, steps[..|steps| - 1]);
      if Enabled(cfg, s, step) {
        StepKeeps(cfg, s, step);
      }
    }
  }

  /** Whoever tears down connection `g` has passed the point where the waiter is due. */
  ghost predicate TornDown(cfg: Config, l: L.Life, g: Gen) {
    && !(l.connected && l.generation == g) && l.pc != SettingConnected(g)
    && forall i :: 0 <= i < |l.drops| && l.drops[i].gen == g ==> !InProgress(l.drops[i].stage)
  }

  /**
   * No orphaned waiters. In every interleaving, a task bound to a connection that is down and whose
   * drain is over has been answered; and while the drain is running, an unanswered one is still due.
   */
  lemma NoOrphanedWaiters(cfg: Config, steps: seq<Step>, t: TaskId)
    requires ValidConfig(cfg) && t < |Run(cfg, steps).tasks| && Run(cfg, steps).tasks[t].pc.Bound()
    ensures var s := Run(cfg, steps);
            var task := s.tasks[t];
            && (TornDown(cfg, s.life, task.pc.gen) ==> task.cell.Filled?)
            && (task.cell == Empty ==>
                  Covered(cfg, s.life, task.pc.gen, task.ask.Kind(), task.pc.id))
            && task.cell != Dropped
  {
    RunInv(cfg, steps);
    var s := Run(cfg, steps);
    assert TaskOk(s, t);
    var task := s.tasks[t];
    if task.gone == [] && DrainDue(cfg, s.life, task.pc.gen, task.ask.Kind(), task.pc.id) {
      DueIsInProgress(cfg, s.life, task.pc.gen, task.ask.Kind(), task.pc.id);
    }
  }

  /** While a connection is torn down, every unanswered task with a connection has that one. */
  lemma TeardownOwnsTheUnanswered(cfg: Config, s: State, i: nat, t: TaskId)
    requires Inv(cfg, s) && i < |s.life.drops| && InProgress(s.life.drops[i].stage)
    requires t < |s.tasks| && s.tasks[t].pc.Bound() && s.tasks[t].gone == []
    ensures s.tasks[t].pc.gen == s.life.drops[i].gen
  {
    var g, k, id := s.tasks[t].pc.gen, s.tasks[t].ask.Kind(), s.tasks[t].pc.id;
    assert Covered(cfg, s.life, g, k, id);
    assert Held(s.life, s.life.drops[i]);
    var j :| 0 <= j < |s.life.drops| && s.life.drops[j].gen == g && StillDue(cfg, s.life.drops[j].stage, k, id);
    assert InProgress(s.life.drops[j].stage);
  }

  /** At the moment a drain reaches it, an unanswered call that has loaded a writer has this connection's. */
  lemma DrainTakesOnlyItsOwn(cfg: Config, steps: seq<Step>, i: nat, t: TaskId)
    requires ValidConfig(cfg)
    ensures var s := Run(cfg, steps);
            i < |s.life.drops| && InProgress(s.life.drops[i].stage) &&
            t < |s.tasks| && s.tasks[t].pc.Bound() && s.tasks[t].gone == [] ==>
              s.tasks[t].pc.gen == s.life.drops[i].gen
  {
    RunInv(cfg, steps);
    var s := Run(cfg, steps);
    if i < |s.life.drops| && InProgress(s.life.drops[i].stage)
       && t < |s.tasks| && s.tasks[t].pc.Bound() && s.tasks[t].gone == [] {
      TeardownOwnsTheUnanswered(cfg, s, i, t);
    }
  }

  lemma StoredWriterIsNotDrained(l: L.Life, i: nat)
    requires L.Inv(l) && l.writer.Some? && i < |l.drops|
    requires l.drops[i].gen == l.writer.value && Won(l.drops[i].stage)
    ensures l.drops[i].stage == Clearing
  {
    assert l.drops[i].gen in l.downs && l.generation in l.ups;
    if l.connected {
      LiveIsNotDown(l);
    } else {
      var j :| 0 <= j < |l.drops| && l.drops[j].stage == Clearing;
      assert l.drops[j].gen == l.generation;
    }
  }

  /** A writer that can still be loaded belongs to a connection nobody has begun to drain. */
  lemma LoadedWriterIsNotDrained(cfg: Config, steps: seq<Step>, i: nat)
    requires ValidConfig(cfg)
    ensures var l := Run(cfg, steps).life;
            l.writer.Some? && i < |l.drops| && l.drops[i].gen == l.writer.value && Won(l.drops[i].stage) ==>
              l.drops[i].stage == Clearing
  {
    RunInv(cfg, steps);
    var l := Run(cfg, steps).life;
    if l.writer.Some? && i < |l.drops| && l.drops[i].gen == l.writer.value && Won(l.drops[i].stage) {
      StoredWriterIsNotDrained(l, i);
    }
  }

  // ----- What becomes of a drained call -----

  /** One task moves from one program point to the next. */
  predicate Advances(writer: Option<Gen>, p: Pc, q: Pc) {
    match p
    case Begin => q == Numbering || q.Unsent?
    case Numbering => q.Inserting?
    case Inserting(id) => q == Loading(id)
    case Loading(id) => q == if writer.Some? then Sending(id, writer.value) else Failing(id)
    case Sending(id, g) => q == Waiting(id, g) || q == Failing(id)
    case Failing(id) => q.Failed?
    case Waiting(id, g) => q == Expiring(id, g) || (q.Done? && q.gen == g)
    case Expiring(id, g) => q.Done? && q.gen == g
    case _ => false
  }

  predicate Moves(s: State, s': State, t: TaskId)
    requires t < |s.tasks|
  {
    t < |s'.tasks| && (s'.tasks[t].pc == s.tasks[t].pc || Advances(s.life.writer, s.tasks[t].pc, s'.tasks[t].pc))
  }

  lemma RemoveKeepsPcs(s: State, k: Kind, id: Id, who: Remover, answer: Option<Reply>)
    ensures var s' := Remove(s, k, id, who, answer);
            && |s'.tasks| == |s.tasks| && s'.life == s.life
            && forall t :: 0 <= t < |s.tasks| ==> s'.tasks[t].pc == s.tasks[t].pc
  {
  }

  lemma InsertKeepsPcs(s: State, k: Kind, id: Id, t: TaskId)
    ensures var s' := Insert(s, k, id, t);
            && |s'.tasks| == |s.tasks| && s'.life == s.life
            && forall u :: 0 <= u < |s.tasks| ==> s'.tasks[u].pc == s.tasks[u].pc
  {
  }

  lemma TaskStepMoves(cfg: Config, s: State, step: Step, t: TaskId)
    requires Enabled(cfg, s, step) && t < |s.tasks|
    requires step.CheckConnected? || step.FetchId? || step.LoadWriter? || step.Send? || step.SendFail?
             || step.Expire? || step.Receive?
    ensures Moves(s, Next(cfg, s, step), t) && Next(cfg, s, step).life == s.life
  {
  }

  lemma TableStepMoves(cfg: Config, s: State, step: Step, t: TaskId)
    requires Enabled(cfg, s, step) && t < |s.tasks|
    requires step.InsertWaiter? || step.RemoveFailed? || step.RemoveExpired? || step.Respond?
    ensures Moves(s, Next(cfg, s, step), t) && Next(cfg, s, step).life == s.life
  {
    match step
    case InsertWaiter(u) => InsertKeepsPcs(s, s.tasks[u].ask.Kind(), s.tasks[u].pc.id, u);
    case RemoveFailed(u) => RemoveKeepsPcs(s, s.tasks[u].ask.Kind(), s.tasks[u].pc.id, BySendFailure, None);
    case RemoveExpired(u) => RemoveKeepsPcs(s, s.tasks[u].ask.Kind(), s.tasks[u].pc.id, ByTimeout, None);
    case Respond(k, id, reply) => RemoveKeepsPcs(s, k, id, ByResponse, Some(reply));
  }

  /** The key snapshot of connection `g` has been begun by its winner. */
  ghost predicate PastSnapshot(l: L.Life, g: Gen) {
    exists j :: 0 <= j < |l.drops| && l.drops[j].gen == g && Won(l.drops[j].stage) && l.drops[j].stage != Clearing
  }

  lemma SnapshotStays(cfg: Config, l: L.Life, step: L.Step, g: Gen)
    requires L.Enabled(cfg, l, step) && PastSnapshot(l, g)
    ensures PastSnapshot(L.Next(cfg, l, step), g)
  {
    var j :| 0 <= j < |l.drops| && l.drops[j].gen == g && Won(l.drops[j].stage) && l.drops[j].stage != Clearing;
    var d := L.Next(cfg, l, step).drops[j];
    assert d.gen == g && Won(d.stage) && d.stage != Clearing;
  }

  lemma LifecycleStepMoves(cfg: Config, s: State, step: Step, t: TaskId, g: Gen)
    requires Enabled(cfg, s, step) && t < |s.tasks| && PastSnapshot(s.life, g)
    requires step.Life? || step.Collect? || step.Drain? || step.NewTask?
    ensures Moves(s, Next(cfg, s, step), t) && PastSnapshot(Next(cfg, s, step).life, g)
  {
    match step
    case Life(l) => SnapshotStays(cfg, s.life, l, g);
    case Collect(i) =>
      var st := s.life.drops[i].stage;
      SnapshotStays(cfg, s.life, DropCollect(i, Shard(cfg, s.Tab(st.kind), st.shard)), g);
    case Drain(i, key, reason) =>
      SnapshotStays(cfg, s.life, DropRemove(i, key), g);
      RemoveKeepsPcs(s, s.life.drops[i].stage.kind, key, ByDrain, Some(Err(ConnectionClosed(reason))));
    case NewTask(_) =>
  }

  /** The program points of a call drained from `g`; `early` if it had not loaded a writer then. */
  predicate AfterDrain(pc: Pc, g: Gen, early: bool) {
    || pc.Failing? || pc.Failed? || (early && pc.Loading?)
    || ((pc.Bound() || pc.Done?) && (pc.gen != g <==> early))
  }

  ghost predicate Drained(s: State, t: TaskId, g: Gen, early: bool) {
    t < |s.tasks| && PastSnapshot(s.life, g) && AfterDrain(s.tasks[t].pc, g, early)
  }

  lemma StepMoves(cfg: Config, s: State, step: Step, t: TaskId, g: Gen)
    requires t < |s.tasks| && PastSnapshot(s.life, g) && Enabled(cfg, s, step)
    ensures Moves(s, Next(cfg, s, step), t) && PastSnapshot(Next(cfg, s, step).life, g)
  {
    match step
    case Life(_) => LifecycleStepMoves(cfg, s, step, t, g);
    case Collect(_) => LifecycleStepMoves(cfg, s, step, t, g);
    case Drain(_, _, _) => LifecycleStepMoves(cfg, s, step, t, g);
    case NewTask(_) => LifecycleStepMoves(cfg, s, step, t, g);
    case InsertWaiter(_) => TableStepMoves(cfg, s, step, t);
    case RemoveFailed(_) => TableStepMoves(cfg, s, step, t);
    case RemoveExpired(_) => TableStepMoves(cfg, s, step, t);
    case Respond(_, _, _) => TableStepMoves(cfg, s, step, t);
    case _ => TaskStepMoves(cfg, s, step, t);
  }

  lemma DrainedStep(cfg: Config, s: State, step: Step, t: TaskId, g: Gen, early: bool)
    requires L.Inv(s.life) && Drained(s, t, g, early) && Enabled(cfg, s, step)
    ensures Drained(Next(cfg, s, step), t, g, early)
  {
    StepMoves(cfg, s, step, t, g);
    MovedAfterDrain(s, Next(cfg, s, step), t, g, early);
  }

  /** The writer a drained task can still load is not the drained connection's. */
  lemma MovedAfterDrain(s: State, s': State, t: TaskId, g: Gen, early: bool)
    requires L.Inv(s.life) && Drained(s, t, g, early) && Moves(s, s', t)
    ensures AfterDrain(s'.tasks[t].pc, g, early)
  {
    var j :| 0 <= j < |s.life.drops| && s.life.drops[j].gen == g && Won(s.life.drops[j].stage)
             && s.life.drops[j].stage != Clearing;
    if s.life.writer == Some(g) {
      StoredWriterIsNotDrained(s.life, j);
      assert false;
    }
  }

  lemma RunAppend(cfg: Config, a: seq<Step>, b: seq<Step>)
    requires b != []
    ensures var s, step := Run(cfg, a + b[..|b| - 1]), b[|b| - 1];
            Run(cfg, a + b) == if Enabled(cfg, s, step) then Next(cfg, s, step) else s
  {
    assert (a + b)[..|a + b| - 1] == a + b[..|b| - 1];
  }

  lemma RunLifeInv(cfg: Config, steps: seq<Step>)
    requires ValidConfig(cfg)
    ensures L.Inv(Run(cfg, steps).life)
  {
    RunInv(cfg, steps);
  }

  lemma DrainedAfter(cfg: Config, s: State, step: Step, s': State, t: TaskId, g: Gen, early: bool)
    requires L.Inv(s.life) && Drained(s, t, g, early)
    requires s' == if Enabled(cfg, s, step) then Next(cfg, s, step) else s
    ensures Drained(s', t, g, early)
  {
    if Enabled(cfg, s, step) {
      DrainedStep(cfg, s, step, t, g, early);
    }
  }

  lemma {:induction false} StaysDrained(cfg: Config, a: seq<Step>, b: seq<Step>, t: TaskId, g: Gen, early: bool)
    requires ValidConfig(cfg) && Drained(Run(cfg, a), t, g, early)
    ensures Drained(Run(cfg, a + b), t, g, early)
  {
    if b == [] {
      assert a + b == a;
    } else {
      var front, step := b[..|b| - 1], b[|b| - 1];
      StaysDrained(cfg, a, front, t, g, early);
      RunAppend(cfg, a, b);
      RunLifeInv(cfg, a + front);
      DrainedAfter(cfg, Run(cfg, a + front), step, Run(cfg, a + b), t, g, early);
    }
  }

  /** A drain takes a task that has this connection's writer, has none any more, or has not loaded one. */
  lemma DrainTakes(cfg: Config, s: State, i: nat, key: Id, reason: string)
    requires ValidConfig(cfg) && Inv(cfg, s) && Enabled(cfg, s, Drain(i, key, reason))
    requires key in s.Tab(s.life.drops[i].stage.kind).waiters
    ensures var t, g := s.Tab(s.life.drops[i].stage.kind).waiters[key], s.life.drops[i].gen;
            t < |s.tasks| && Drained(Next(cfg, s, Drain(i, key, reason)), t, g, s.tasks[t].pc.Loading?)
  {
    var k, g := s.life.drops[i].stage.kind, s.life.drops[i].gen;
    var t := s.Tab(k).waiters[key];
    assert WaiterOk(s, k, key);
    if s.tasks[t].pc.Bound() {
      TeardownOwnsTheUnanswered(cfg, s, i, t);
    }
    assert PastSnapshot(s.life, g);
    SnapshotStays(cfg, s.life, DropRemove(i, key), g);
    RemoveKeepsPcs(s, k, key, ByDrain, Some(Err(ConnectionClosed(reason))));
  }

  /**
   * A call that a drain of connection `g` fails may still be sent later. It then goes to another
   * connection if and only if it had not loaded a writer when it was drained.
   */
  lemma DrainedCallMovesOnIff(cfg: Config, a: seq<Step>, b: seq<Step>, i: nat, key: Id, reason: string)
    requires ValidConfig(cfg) && Enabled(cfg, Run(cfg, a), Drain(i, key, reason))
    requires key in Run(cfg, a).Tab(Run(cfg, a).life.drops[i].stage.kind).waiters
    ensures var s, s' := Run(cfg, a), Run(cfg, a + [Drain(i, key, reason)] + b);
            var t, g := s.Tab(s.life.drops[i].stage.kind).waiters[key], s.life.drops[i].gen;
            && t < |s.tasks| && t < |s'.tasks|
            && (s'.tasks[t].pc.Bound() || s'.tasks[t].pc.Done? ==>
                  (s'.tasks[t].pc.gen != g <==> s.tasks[t].pc.Loading?))
  {
    var s, step := Run(cfg, a), Drain(i, key, reason);
    var t := s.Tab(s.life.drops[i].stage.kind).waiters[key];
    RunInv(cfg, a);
    DrainTakes(cfg, s, i, key, reason);
    assert (a + [step])[..|a|] == a;
    StaysDrained(cfg, a + [step], b, t, s.life.drops[i].gen, s.tasks[t].pc.Loading?);
  }

  lemma WaiterIdsArePositive(s: State)
    requires TablesInv(s)
    ensures forall k, id :: id in s.Tab(k).waiters ==> id >= 1
  {
    forall k, id | id in s.Tab(k).waiters
      ensures id >= 1
    {
      assert WaiterOk(s, k, id);
      assert TaskOk(s, s.Tab(k).waiters[id]);
    }
  }

  /**
   * Ids are at least 1 and never reused over the client's life, an insert never overwrites a
   * waiter, and response 0 finds nobody.
   */
  lemma IdsNeverReused(cfg: Config, steps: seq<Step>, t: TaskId, u: TaskId)
    requires ValidConfig(cfg)
    ensures var s := Run(cfg, steps);
            && (t < u < |s.tasks| ==> !SameId(s.tasks[t], s.tasks[u]))
            && (t < |s.tasks| && s.tasks[t].pc.Numbered() ==> s.tasks[t].pc.id >= 1)
            && (t < |s.tasks| && s.tasks[t].pc.Inserting? ==>
                  s.tasks[t].pc.id !in s.Tab(s.tasks[t].ask.Kind()).waiters)
            && (forall k, reply :: Remove(s, k, 0, ByResponse, Some(reply)) == s)
  {
    RunInv(cfg, steps);
    var s := Run(cfg, steps);
    if t < |s.tasks| {
      assert TaskOk(s, t);
      if s.tasks[t].pc.Inserting? {
        FreshOnInsert(s, t);
      }
    }
    WaiterIdsArePositive(s);
  }

  /**
   * A returned call was registered and removed exactly once, by one of the four parties, and its id is in
   * no table. It returned what it was answered, or a timeout; "connection closed" if a drain answered it; a
   * disconnect if its packet was not sent, or if it was never registered.
   */
  lemma ReturnedOnce(cfg: Config, steps: seq<Step>, t: TaskId)
    requires ValidConfig(cfg) && t < |Run(cfg, steps).tasks|
    ensures var s := Run(cfg, steps);
            var task := s.tasks[t];
            && |task.gone| <= 1
            && (task.pc.Done? || task.pc.Failed? ==>
                  |task.gone| == 1 && task.pc.id !in s.Tab(task.ask.Kind()).waiters)
            && (task.pc.Done? && task.pc.result.Ok? ==>
                  task.gone == [ByResponse] && task.cell == Filled(task.pc.result))
            && (task.pc.Done? && task.pc.result != Err(Timeout) ==>
                  && task.gone in {[ByResponse], [ByDrain]} && task.cell == Filled(task.pc.result)
                  && (task.gone == [ByDrain] ==> IsClosed(task.pc.result)))
            && (task.pc.Failed? || task.pc.Unsent? ==> task.pc.result == Err(Disconnected))
            && (task.pc.Unsent? ==> task.gone == [] && forall k, id :: id in s.Tab(k).waiters ==> s.Tab(k).waiters[id] != t)
  {
    RunInv(cfg, steps);
    var s := Run(cfg, steps);
    assert TaskOk(s, t);
    OwnedUnderOwnId(s, t);
    if s.tasks[t].pc.Numbered() {
      OwnWaiterOnly(s, t);
    }
  }

  /**
   * What a task does next is decided by the client's state alone: it gives up at once if and only if the
   * client is not connected, it takes the stored writer and fails if and only if there is none, and what it
   * receives is the answer it was given; no sender is ever dropped without one.
   */
  lemma TaskDecides(cfg: Config, s: State, t: TaskId)
    requires TablesInv(s) && t < |s.tasks|
    ensures s.tasks[t].pc == Begin ==>
              (Next(cfg, s, CheckConnected(t)).tasks[t].pc.Unsent? <==> !s.life.connected)
    ensures s.tasks[t].pc.Loading? ==>
              forall g: Gen ::
                Next(cfg, s, LoadWriter(t)).tasks[t].pc == Sending(s.tasks[t].pc.id, g) <==> s.life.writer == Some(g)
    ensures s.tasks[t].pc.Loading? ==> (Next(cfg, s, LoadWriter(t)).tasks[t].pc.Failing? <==> s.life.writer == None)
    ensures s.tasks[t].pc.Waiting? && s.tasks[t].cell != Empty ==>
              s.tasks[t].cell.Filled? && Next(cfg, s, Receive(t)).tasks[t].pc.result == s.tasks[t].cell.reply
    ensures s.tasks[t].cell != Dropped
  {
    assert TaskOk(s, t);
  }

  /** A call that has not returned always has a step of its own to take. */
  lemma TaskNeverSticks(cfg: Config, s: State, t: TaskId)
    requires t < |s.tasks| && !s.tasks[t].pc.Unsent? && !s.tasks[t].pc.Failed? && !s.tasks[t].pc.Done?
    ensures exists step :: step in OwnSteps(t) && Enabled(cfg, s, step) && Next(cfg, s, step).tasks[t].pc != s.tasks[t].pc
  {
    var own := OwnSteps(t);
    match s.tasks[t].pc
    case Begin => assert CheckConnected(t) in own && Enabled(cfg, s, CheckConnected(t));
    case Numbering => assert FetchId(t) in own && Enabled(cfg, s, FetchId(t));
    case Inserting(_) => assert InsertWaiter(t) in own && Enabled(cfg, s, InsertWaiter(t));
    case Loading(_) => assert LoadWriter(t) in own && Enabled(cfg, s, LoadWriter(t));
    case Sending(_, _) => assert Send(t) in own && Enabled(cfg, s, Send(t));
    case Failing(_) => assert RemoveFailed(t) in own && Enabled(cfg, s, RemoveFailed(t));
    case Expiring(_, _) => assert RemoveExpired(t) in own && Enabled(cfg, s, RemoveExpired(t));
    case Waiting(_, _) =>
      if s.tasks[t].cell == Empty {
        assert Expire(t) in own && Enabled(cfg, s, Expire(t));
      } else {
        assert Receive(t) in own && Enabled(cfg, s, Receive(t));
      }
  }

  function OwnSteps(t: TaskId): seq<Step> {
    [CheckConnected(t), FetchId(t), InsertWaiter(t), LoadWriter(t), Send(t), RemoveFailed(t), Expire(t),
     RemoveExpired(t), Receive(t)]
  }

  /** The task's own waiter is gone and it has returned; nothing else is changed. */
  ghost predicate GaveUp(s: State, s': State, t: TaskId, pc: Pc)
    requires t < |s.tasks| && s.tasks[t].pc.Numbered()
  {
    var k, id := s.tasks[t].ask.Kind(), s.tasks[t].pc.id;
    && |s'.tasks| == |s.tasks| && s'.tasks[t].ask == s.tasks[t].ask && s'.tasks[t].pc == pc
    && (forall u :: 0 <= u < |s.tasks| && u != t ==> s'.tasks[u] == s.tasks[u])
    && s'.Tab(k).waiters == s.Tab(k).waiters - {id}
    && s'.Tab(if k == Call then Emit else Call) == s.Tab(if k == Call then Emit else Call)
    && s'.life == s.life
  }

  /** A send that fails undoes the registration and returns a disconnect. */
  lemma FailedSendIsUndone(cfg: Config, s: State, t: TaskId)
    requires TablesInv(s) && t < |s.tasks| && s.tasks[t].pc.Sending?
    ensures var s1 := Next(cfg, s, SendFail(t));
            && Enabled(cfg, s1, RemoveFailed(t))
            && GaveUp(s, Next(cfg, s1, RemoveFailed(t)), t, Failed(s.tasks[t].pc.id, Err(Disconnected)))
  {
    OwnWaiterOnly(s, t);
    MapMinusAbsent(s.Tab(s.tasks[t].ask.Kind()).waiters, s.tasks[t].pc.id);
  }

  /** A timeout removes the registration and returns a timeout. */
  lemma TimeoutIsUndone(cfg: Config, s: State, t: TaskId)
    requires TablesInv(s) && t < |s.tasks| && s.tasks[t].pc.Waiting? && s.tasks[t].cell == Empty
    ensures var s1 := Next(cfg, s, Expire(t));
            && Enabled(cfg, s1, RemoveExpired(t))
            && GaveUp(s, Next(cfg, s1, RemoveExpired(t)), t, Done(s.tasks[t].pc.id, s.tasks[t].pc.gen, Err(Timeout)))
  {
    OwnWaiterOnly(s, t);
    MapMinusAbsent(s.Tab(s.tasks[t].ask.Kind()).waiters, s.tasks[t].pc.id);
  }

  lemma MapMinusAbsent(m: map<Id, TaskId>, id: Id)
    ensures id !in m ==> m - {id} == m
  {
  }
}
