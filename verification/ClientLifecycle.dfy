/**
 * The connection lifecycle of `WscallClient`: the reconnect supervisor, the parties that call
 * `handle_disconnect`, and `close`, as an interleaved step system. Each step is one atomic action
 * of one task; the generation check and the swap of `handle_disconnect` are one step, and so are
 * the shutdown check and the generation increment of the supervisor.
 */
module ClientLifecycle {
  import opened Wrappers

  type Gen = nat
  type Id = nat

  /** The two correlation tables. */
  datatype Kind = Call | Emit

  /** Who runs `handle_disconnect` for a connection. */
  datatype Party = Reader | Writer | Heartbeat | Closer

  /** Progress of one `handle_disconnect` call. */
  datatype Stage =
    | Start
    | Clearing
    | Collecting(kind: Kind, shard: nat, keys: set<Id>)
    | Draining(kind: Kind, keys: set<Id>)
    | Reporting
    | Signalling
    | Finished(effective: bool)

  datatype Drop = Drop(gen: Gen, party: Party, stage: Stage)

  /** Progress of the supervisor loop. */
  datatype SupPc =
    | Top
    | Connecting(gen: Gen)
    | StoringWriter(gen: Gen)
    | SettingConnected(gen: Gen)
    | Announcing(gen: Gen)
    | Watching(gen: Gen)
    | Checking(afterLive: bool)
    | Backoff
    | Exited

  /**
   * One backoff sleep, in seconds without jitter: whether the attempt before it had gone live, its
   * generation, and how many teardowns had been reported by then.
   */
  datatype Sleep = Sleep(afterLive: bool, gen: Gen, delay: nat, heard: nat)

  /** The `retry_after` that the teardown of a connection reported. */
  datatype Report = Report(gen: Gen, retryAfter: Option<nat>)

  datatype Life = Life(
    connected: bool,
    writer: Option<Gen>,
    generation: Gen,
    shutdown: bool,
    pc: SupPc,
    attempt: nat,
    reported: bool,
    drops: seq<Drop>,
    closing: nat,
    spawned: set<Gen>,
    ups: seq<Gen>,
    downs: seq<Gen>,
    sleeps: seq<Sleep>,
    reports: seq<Report>)

  datatype Config = Config(autoReconnect: bool, shards: nat, shardOf: Id -> nat)

  ghost predicate ValidConfig(cfg: Config) {
    forall id :: cfg.shardOf(id) < cfg.shards
  }

  const INIT := Life(false, None, 0, false, Top, 0, false, [], 0, {}, [], [], [], [])

  // ----- Backoff -----

  const BASE_DELAY := 3
  const MAX_DELAY := 30
  const MAX_ATTEMPT := 0xFFFF_FFFF

  function Min(a: nat, b: nat): nat {
    if a <= b then a else b
  }

  function Pow2(n: nat): nat {
    if n == 0 then 1 else 2 * Pow2(n - 1)
  }

  function ReconnectDelay(attempt: nat): nat {
    var exponent := Min((if attempt >= 1 then attempt else 1) - 1, 6);
    Min(BASE_DELAY * Pow2(exponent), MAX_DELAY)
  }

  // ----- Steps -----

  datatype Step =
    | SupBegin
    | SupFail
    | SupOpen
    | SupStore
    | SupConnect
    | SupSpawn
    | SupWake
    | SupCheck
    | SupSlept
    | CloseBegin
    | CloseLoad
    | DropStart(gen: Gen, party: Party)
    | DropSwap(i: nat)
    | DropClear(i: nat)
    | DropCollect(i: nat, found: set<Id>)
    | DropRemove(i: nat, key: Id)
    | DropDrained(i: nat)
    | DropReport(i: nat)
    | DropSignal(i: nat)

  predicate InProgress(st: Stage) {
    st.Clearing? || st.Collecting? || st.Draining? || st.Reporting? || st.Signalling?
  }

  /** This call won the swap, now or earlier. */
  predicate Won(st: Stage) {
    InProgress(st) || st == Finished(true)
  }

  ghost predicate HasFinished(l: Life, g: Gen, p: Party) {
    exists i :: 0 <= i < |l.drops| && l.drops[i].gen == g && l.drops[i].party == p && l.drops[i].stage.Finished?
  }

  /**
   * The supervisor resumes when its signal is sent (by a winner other than `close`, which carries
   * a signal of its own) or when every holder of the signal is gone.
   */
  ghost predicate Wakes(l: Life, g: Gen) {
    || (exists i :: 0 <= i < |l.drops| && l.drops[i].gen == g && l.drops[i].party != Closer
                    && l.drops[i].stage == Finished(true))
    || (HasFinished(l, g, Reader) && HasFinished(l, g, Writer) && HasFinished(l, g, Heartbeat))
  }

  ghost predicate Enabled(cfg: Config, l: Life, step: Step) {
    match step
    case SupBegin => l.pc == Top
    case SupFail => l.pc.Connecting?
    case SupOpen => l.pc.Connecting?
    case SupStore => l.pc.StoringWriter?
    case SupConnect => l.pc.SettingConnected?
    case SupSpawn => l.pc.Announcing?
    case SupWake => l.pc.Watching? && Wakes(l, l.pc.gen)
    case SupCheck => l.pc.Checking?
    case SupSlept => l.pc == Backoff
    case CloseBegin => true
    case CloseLoad => l.closing > 0
    case DropStart(g, p) =>
      p != Closer && g in l.spawned
      && forall i :: 0 <= i < |l.drops| ==> !(l.drops[i].gen == g && l.drops[i].party == p)
    case DropSwap(i) => i < |l.drops| && l.drops[i].stage == Start
    case DropClear(i) => i < |l.drops| && l.drops[i].stage == Clearing
    case DropCollect(i, _) => i < |l.drops| && l.drops[i].stage.Collecting?
    case DropRemove(i, key) => i < |l.drops| && l.drops[i].stage.Draining? && key in l.drops[i].stage.keys
    case DropDrained(i) => i < |l.drops| && l.drops[i].stage.Draining? && l.drops[i].stage.keys == {}
    case DropReport(i) => i < |l.drops| && l.drops[i].stage == Reporting
    case DropSignal(i) => i < |l.drops| && l.drops[i].stage == Signalling
  }

  /** What a teardown reports: the first delay, if the client will reconnect. */
  function RetryAfter(cfg: Config, l: Life): Option<nat> {
    if !l.shutdown && cfg.autoReconnect then Some(ReconnectDelay(1)) else None
  }

  function AtStage(l: Life, i: nat, st: Stage): Life
    requires i < |l.drops|
  {
    l.(drops := l.drops[i := l.drops[i].(stage := st)])
  }

  function AfterCollect(cfg: Config, st: Stage, found: set<Id>): Stage
    requires st.Collecting?
  {
    if st.shard + 1 < cfg.shards then Collecting(st.kind, st.shard + 1, st.keys + found)
    else Draining(st.kind, st.keys + found)
  }

  ghost function Next(cfg: Config, l: Life, step: Step): Life
    requires Enabled(cfg, l, step)
  {
    match step
    case SupBegin =>
      if l.shutdown then l.(pc := Exited)
      else l.(generation := l.generation + 1, pc := Connecting(l.generation + 1))
    case SupFail =>
      if !l.reported then l.(reported := true, pc := Exited) else l.(pc := Checking(false))
    case SupOpen => l.(pc := StoringWriter(l.pc.gen))
    case SupStore => l.(writer := Some(l.pc.gen), pc := SettingConnected(l.pc.gen))
    case SupConnect => l.(connected := true, pc := Announcing(l.pc.gen), ups := l.ups + [l.pc.gen])
    case SupSpawn =>
      l.(spawned := l.spawned + {l.pc.gen}, reported := true, attempt := 0, pc := Watching(l.pc.gen))
    case SupWake => l.(pc := Checking(true))
    case SupCheck =>
      if l.shutdown || !cfg.autoReconnect then l.(pc := Exited)
      else
        var attempt := Min(l.attempt + 1, MAX_ATTEMPT);
        l.(attempt := attempt, pc := Backoff,
           sleeps := l.sleeps + [Sleep(l.pc.afterLive, l.generation, ReconnectDelay(attempt), |l.reports|)])
    case SupSlept => l.(pc := Top)
    case CloseBegin => l.(shutdown := true, closing := l.closing + 1)
    case CloseLoad => l.(closing := l.closing - 1, drops := l.drops + [Drop(l.generation, Closer, Start)])
    case DropStart(g, p) => l.(drops := l.drops + [Drop(g, p, Start)])
    case DropSwap(i) =>
      if l.drops[i].gen == l.generation && l.connected then
        AtStage(l, i, Clearing).(connected := false, downs := l.downs + [l.drops[i].gen])
      else AtStage(l, i, Finished(false))
    case DropClear(i) => AtStage(l, i, Collecting(Call, 0, {})).(writer := None)
    case DropCollect(i, found) => AtStage(l, i, AfterCollect(cfg, l.drops[i].stage, found))
    case DropRemove(i, key) =>
      AtStage(l, i, Draining(l.drops[i].stage.kind, l.drops[i].stage.keys - {key}))
    case DropDrained(i) =>
      AtStage(l, i, if l.drops[i].stage.kind == Call then Collecting(Emit, 0, {}) else Reporting)
    case DropReport(i) =>
      AtStage(l, i, Signalling).(reports := l.reports + [Report(l.drops[i].gen, RetryAfter(cfg, l))])
    case DropSignal(i) => AtStage(l, i, Finished(true))
  }

  // ----- Invariant -----

  predicate Before(pc: SupPc) {
    pc.Connecting? || pc.StoringWriter? || pc.SettingConnected?
  }

  /** Where the supervisor can be while somebody is tearing down the current connection. */
  predicate Held(l: Life, d: Drop) {
    if d.party == Closer then
      l.shutdown && (l.pc in {Announcing(d.gen), Watching(d.gen), Exited} || l.pc.Checking?)
    else l.pc == Watching(d.gen)
  }

  /** At most one teardown is in progress, of the current generation, and the supervisor waits for it. */
  ghost predicate TeardownInv(l: Life) {
    && (forall i :: 0 <= i < |l.drops| && InProgress(l.drops[i].stage) ==>
          l.drops[i].gen == l.generation && !l.connected && Held(l, l.drops[i]))
    && (forall i :: 0 <= i < |l.drops| && Won(l.drops[i].stage) ==> l.drops[i].gen in l.downs)
    && (forall i, j :: 0 <= i < j < |l.drops| && Won(l.drops[i].stage) && Won(l.drops[j].stage) ==>
          l.drops[i].gen != l.drops[j].gen)
  }

  ghost predicate PartyInv(l: Life) {
    && (forall i :: 0 <= i < |l.drops| && l.drops[i].party != Closer ==>
          && l.drops[i].gen in l.spawned
          && (l.drops[i].stage != Start && l.drops[i].gen == l.generation ==> !l.connected))
    && (forall i, j :: 0 <= i < j < |l.drops| && l.drops[i].party != Closer ==>
          !(l.drops[i].party == l.drops[j].party && l.drops[i].gen == l.drops[j].gen))
    && (forall i :: 0 <= i < |l.drops| && l.drops[i].party == Closer ==> l.shutdown)
    && (l.closing > 0 ==> l.shutdown)
    && (forall g :: g in l.spawned ==> g <= l.generation)
    && (Before(l.pc) || l.pc.Announcing? ==> l.generation !in l.spawned)
  }

  ghost predicate SomeClearing(l: Life) {
    exists i :: 0 <= i < |l.drops| && l.drops[i].stage == Clearing
  }

  ghost predicate WriterInv(l: Life) {
    && (l.connected ==> l.writer == Some(l.generation) && l.pc in {Announcing(l.generation), Watching(l.generation)})
    && (Before(l.pc) || l.pc.Announcing? || l.pc.Watching? ==> l.pc.gen == l.generation)
    && (l.pc.SettingConnected? ==> l.writer == Some(l.generation))
    && (l.writer.Some? ==>
          && l.writer.value == l.generation
          && (l.connected || l.pc.SettingConnected? || SomeClearing(l)))
  }

  /** The connections that went live, in order, are those torn down plus the current one. */
  ghost predicate CountInv(l: Life) {
    && l.ups == l.downs + (if l.connected then [l.generation] else [])
    && (forall i, j :: 0 <= i < j < |l.ups| ==> l.ups[i] < l.ups[j])
    && (forall g :: g in l.ups ==> g <= l.generation && (Before(l.pc) ==> g < l.generation))
  }

  ghost predicate Inv(l: Life) {
    TeardownInv(l) && PartyInv(l) && WriterInv(l) && CountInv(l)
  }

  lemma InitInv()
    ensures Inv(INIT)
  {
  }

  /** A state with the same drops and no later stage keeps its clearing witness. */
  lemma ClearingKept(l: Life, l': Life)
    requires |l.drops| <= |l'.drops|
    requires forall i :: 0 <= i < |l.drops| && l.drops[i].stage == Clearing ==> l'.drops[i].stage == Clearing
    ensures SomeClearing(l) ==> SomeClearing(l')
  {
    if SomeClearing(l) {
      var i :| 0 <= i < |l.drops| && l.drops[i].stage == Clearing;
      assert l'.drops[i].stage == Clearing;
    }
  }

  lemma BeginKeeps(l: Life, l': Life)
    requires Inv(l) && l.pc == Top
    requires l' == l.(generation := l.generation + 1, pc := Connecting(l.generation + 1))
    ensures Inv(l')
  {
    assert forall i :: 0 <= i < |l.drops| ==> !InProgress(l.drops[i].stage);
  }

  /** Supervisor steps between points at which nobody can be tearing down. */
  lemma QuietSupKeeps(l: Life, l': Life)
    requires Inv(l) && (l.pc in {Top, Backoff} || l.pc.Connecting? || l.pc.StoringWriter?)
    requires l' == l.(pc := l'.pc, writer := l'.writer, reported := l'.reported)
    requires l'.pc in {Top, Exited, Checking(false)} || (Before(l.pc) && Before(l'.pc) && l'.pc.gen == l.pc.gen)
    requires l'.writer == (if l'.pc.SettingConnected? then Some(l.pc.gen) else l.writer)
    ensures Inv(l')
  {
    assert forall i :: 0 <= i < |l.drops| ==> !InProgress(l.drops[i].stage);
  }

  lemma ConnectKeeps(l: Life, l': Life)
    requires Inv(l) && l.pc.SettingConnected?
    requires l' == l.(connected := true, pc := Announcing(l.pc.gen), ups := l.ups + [l.pc.gen])
    ensures Inv(l')
  {
    assert forall i :: 0 <= i < |l.ups| ==> l.ups[i] in l.ups;
  }

  lemma SpawnKeeps(l: Life, l': Life)
    requires Inv(l) && l.pc.Announcing?
    requires l' == l.(spawned := l.spawned + {l.pc.gen}, reported := true, attempt := 0, pc := Watching(l.pc.gen))
    ensures Inv(l')
  {
    ClearingKept(l, l');
  }

  lemma CheckKeeps(l: Life, l': Life)
    requires Inv(l) && l.pc.Checking?
    requires l' == l.(pc := l'.pc, attempt := l'.attempt, sleeps := l'.sleeps)
    requires l'.pc == Exited || (l'.pc == Backoff && !l.shutdown)
    ensures Inv(l')
  {
    ClearingKept(l, l');
  }

  /** When the supervisor resumes, the connection is down and only `close` can still be at work. */
  lemma WakeFindsItDown(l: Life)
    requires Inv(l) && l.pc.Watching? && Wakes(l, l.pc.gen)
    ensures !l.connected
    ensures forall i :: 0 <= i < |l.drops| && InProgress(l.drops[i].stage) ==> l.drops[i].party == Closer
  {
  }

  lemma WakeKeeps(l: Life, l': Life)
    requires Inv(l) && l.pc.Watching? && Wakes(l, l.pc.gen)
    requires l' == l.(pc := Checking(true))
    ensures Inv(l')
  {
    WakeFindsItDown(l);
    ClearingKept(l, l');
  }

  lemma CloseBeginKeeps(l: Life, l': Life)
    requires Inv(l) && l' == l.(shutdown := true, closing := l.closing + 1)
    ensures Inv(l')
  {
    ClearingKept(l, l');
  }

  lemma NewDropKeeps(l: Life, l': Life, d: Drop)
    requires Inv(l) && d.stage == Start
    requires l'.drops == l.drops + [d] && l' == l.(drops := l'.drops, closing := l'.closing)
    requires l'.closing <= l.closing
    requires if d.party == Closer then l.shutdown
             else d.gen in l.spawned
                  && forall i :: 0 <= i < |l.drops| ==> !(l.drops[i].gen == d.gen && l.drops[i].party == d.party)
    ensures Inv(l')
  {
    ClearingKept(l, l');
    assert forall i :: 0 <= i < |l.drops| ==> l'.drops[i] == l.drops[i];
  }

  /** The live connection has not been torn down before. */
  lemma LiveIsNotDown(l: Life)
    requires CountInv(l) && l.connected
    ensures l.generation !in l.downs
  {
    forall i | 0 <= i < |l.downs|
      ensures l.downs[i] < l.generation
    {
      assert l.ups[i] < l.ups[|l.downs|];
    }
  }

  lemma WinKeeps(l: Life, l': Life, i: nat)
    requires Inv(l) && i < |l.drops| && l.drops[i].stage == Start
    requires l.drops[i].gen == l.generation && l.connected
    requires l' == AtStage(l, i, Clearing).(connected := false, downs := l.downs + [l.drops[i].gen])
    ensures Inv(l')
  {
    LiveIsNotDown(l);
    assert l'.drops[i].stage == Clearing;
    assert forall k :: 0 <= k < |l.drops| && k != i ==> l'.drops[k] == l.drops[k];
  }

  lemma LoseKeeps(l: Life, l': Life, i: nat)
    requires Inv(l) && i < |l.drops| && l.drops[i].stage == Start
    requires l.drops[i].gen != l.generation || !l.connected
    requires l' == AtStage(l, i, Finished(false))
    ensures Inv(l')
  {
    ClearingKept(l, l');
    assert forall k :: 0 <= k < |l.drops| && k != i ==> l'.drops[k] == l.drops[k];
  }

  /** The teardown in progress moves on. */
  lemma AdvanceKeeps(l: Life, l': Life, i: nat, st: Stage)
    requires Inv(l) && i < |l.drops| && InProgress(l.drops[i].stage)
    requires Won(st) && st != Clearing
    requires l' == AtStage(l, i, st).(writer := if l.drops[i].stage == Clearing then None else l.writer,
                                      reports := l'.reports)
    ensures Inv(l')
  {
    if l.drops[i].stage != Clearing {
      ClearingKept(l, l');
    }
    assert forall k :: 0 <= k < |l'.drops| && k != i ==> l'.drops[k] == l.drops[k];
  }

  lemma DrainKeeps(cfg: Config, l: Life, step: Step)
    requires Inv(l) && Enabled(cfg, l, step)
    requires step.DropClear? || step.DropCollect? || step.DropRemove? || step.DropDrained?
             || step.DropReport? || step.DropSignal?
    ensures Inv(Next(cfg, l, step))
  {
    var l' := Next(cfg, l, step);
    AdvanceKeeps(l, l', step.i, l'.drops[step.i].stage);
  }

  lemma SupKeeps(cfg: Config, l: Life, step: Step)
    requires Inv(l) && Enabled(cfg, l, step)
    requires step in {SupBegin, SupFail, SupOpen, SupStore, SupConnect, SupSpawn, SupWake, SupCheck, SupSlept}
    ensures Inv(Next(cfg, l, step))
  {
    var l' := Next(cfg, l, step);
    match step
    case SupBegin =>
      if l.shutdown {
        QuietSupKeeps(l, l');
      } else {
        BeginKeeps(l, l');
      }
    case SupConnect => ConnectKeeps(l, l');
    case SupSpawn => SpawnKeeps(l, l');
    case SupWake => WakeKeeps(l, l');
    case SupCheck => CheckKeeps(l, l');
    case _ => QuietSupKeeps(l, l');
  }

  lemma StepKeeps(cfg: Config, l: Life, step: Step)
    requires Inv(l) && Enabled(cfg, l, step)
    ensures Inv(Next(cfg, l, step))
  {
    var l' := Next(cfg, l, step);
    match step
    case CloseBegin => CloseBeginKeeps(l, l');
    case CloseLoad => NewDropKeeps(l, l', Drop(l.generation, Closer, Start));
    case DropStart(g, p) => NewDropKeeps(l, l', Drop(g, p, Start));
    case DropSwap(i) =>
      if l.drops[i].gen == l.generation && l.connected {
        WinKeeps(l, l', i);
      } else {
        LoseKeeps(l, l', i);
      }
    case DropClear(_) => DrainKeeps(cfg, l, step);
    case DropCollect(_, _) => DrainKeeps(cfg, l, step);
    case DropRemove(_, _) => DrainKeeps(cfg, l, step);
    case DropDrained(_) => DrainKeeps(cfg, l, step);
    case DropReport(_) => DrainKeeps(cfg, l, step);
    case DropSignal(_) => DrainKeeps(cfg, l, step);
    case _ => SupKeeps(cfg, l, step);
  }

  // ----- Runs -----

  /** The state after these steps; a step that is not enabled is skipped. */
  ghost function Run(cfg: Config, steps: seq<Step>): Life {
    if steps == [] then INIT
    else
      var l := Run(cfg, steps[..|steps| - 1]);
      if Enabled(cfg, l, steps[|steps| - 1]) then Next(cfg, l, steps[|steps| - 1]) else l
  }

  lemma {:induction false} RunInv(cfg: Config, steps: seq<Step>)
    ensures Inv(Run(cfg, steps))
  {
    if steps == [] {
      InitInv();
    } else {
      var front, step := steps[..|steps| - 1], steps[|steps| - 1];
      RunInv(cfg, front);
      if Enabled(cfg, Run(cfg, front), step) {
        StepKeeps(cfg, Run(cfg, front), step);
      }
    }
  }

  predicate Increasing(gs: seq<Gen>) {
    forall i, j :: 0 <= i < j < |gs| ==> gs[i] < gs[j]
  }

  /**
   * In every run: live connections minus teardowns is one exactly when connected; connections are
   * torn down in the order they went live, each at most once and each by one winner; a connected
   * client's writer is the current connection's; and at most one teardown runs, of the current
   * generation, so nobody still at work on an old connection can touch a newer one.
   */
  lemma LifecycleLaw(cfg: Config, steps: seq<Step>)
    ensures var l := Run(cfg, steps);
            && |l.ups| - |l.downs| == (if l.connected then 1 else 0)
            && l.downs <= l.ups && Increasing(l.ups)
            && (l.connected ==> l.writer == Some(l.generation))
            && (forall i, j :: 0 <= i < j < |l.drops| && Won(l.drops[i].stage) && Won(l.drops[j].stage) ==>
                  l.drops[i].gen != l.drops[j].gen)
            && (forall i :: 0 <= i < |l.drops| && InProgress(l.drops[i].stage) ==>
                  l.drops[i].gen == l.generation && !l.connected)
  {
    RunInv(cfg, steps);
  }

  lemma RunAppend(cfg: Config, a: seq<Step>, b: seq<Step>)
    requires b != []
    ensures var l, step := Run(cfg, a + b[..|b| - 1]), b[|b| - 1];
            Run(cfg, a + b) == if Enabled(cfg, l, step) then Next(cfg, l, step) else l
  {
    assert (a + b)[..|a + b| - 1] == a + b[..|b| - 1];
  }

  lemma ShutdownStep(cfg: Config, l: Life, step: Step)
    requires Enabled(cfg, l, step) && l.shutdown
    ensures Next(cfg, l, step).shutdown && Next(cfg, l, step).generation == l.generation
  {
  }

  /** Once shutdown is set, it stays set and the generation never advances again. */
  lemma {:induction false} NoAttemptAfterShutdown(cfg: Config, a: seq<Step>, b: seq<Step>)
    requires Run(cfg, a).shutdown
    ensures Run(cfg, a + b).shutdown && Run(cfg, a + b).generation == Run(cfg, a).generation
  {
    if b == [] {
      assert a + b == a;
    } else {
      NoAttemptAfterShutdown(cfg, a, b[..|b| - 1]);
      RunAppend(cfg, a, b);
      var l, step := Run(cfg, a + b[..|b| - 1]), b[|b| - 1];
      if Enabled(cfg, l, step) {
        ShutdownStep(cfg, l, step);
      }
    }
  }

  predicate FirstAttemptOnly(l: Life) {
    l.generation <= 1 && l.pc != Backoff && (l.pc == Top ==> l.generation == 0)
  }

  lemma FirstAttemptStep(cfg: Config, l: Life, step: Step)
    requires !cfg.autoReconnect && Enabled(cfg, l, step) && FirstAttemptOnly(l)
    ensures FirstAttemptOnly(Next(cfg, l, step))
  {
  }

  /** Without auto-reconnect there is a single attempt. */
  lemma {:induction false} OneAttemptWithoutReconnect(cfg: Config, steps: seq<Step>)
    requires !cfg.autoReconnect
    ensures FirstAttemptOnly(Run(cfg, steps))
  {
    if steps == [] {
    } else {
      var l, step := Run(cfg, steps[..|steps| - 1]), steps[|steps| - 1];
      OneAttemptWithoutReconnect(cfg, steps[..|steps| - 1]);
      if Enabled(cfg, l, step) {
        FirstAttemptStep(cfg, l, step);
      }
    }
  }

  // ----- Backoff -----

  lemma DelayTable(attempt: nat)
    ensures ReconnectDelay(attempt) ==
            if attempt <= 1 then 3 else if attempt == 2 then 6 else if attempt == 3 then 12
            else if attempt == 4 then 24 else 30
  {
    assert Pow2(2) == 4;
    assert Pow2(3) == 8;
    assert Pow2(4) == 16;
    assert Pow2(5) == 32;
    assert Pow2(6) == 64;
  }

  /** How many sleeps lie between this one and the latest one, up to it, that followed a live connection. */
  function SinceLive(sleeps: seq<Sleep>, k: nat): nat
    requires k < |sleeps|
  {
    if sleeps[k].afterLive || k == 0 then 0 else SinceLive(sleeps, k - 1) + 1
  }

  /** The delay of the first, second, ... sleep after a live connection. */
  function Schedule(j: nat): nat {
    if j == 0 then 3 else if j == 1 then 6 else if j == 2 then 12 else if j == 3 then 24 else 30
  }

  ghost predicate SleepsLawful(sleeps: seq<Sleep>) {
    forall k :: 0 <= k < |sleeps| ==>
      sleeps[k].delay == Schedule(SinceLive(sleeps, k)) && (!sleeps[k].afterLive ==> k > 0)
  }

  ghost predicate BackoffInv(l: Life) {
    && SleepsLawful(l.sleeps)
    && (l.attempt > 0 ==> l.sleeps != [] && l.attempt == Min(SinceLive(l.sleeps, |l.sleeps| - 1) + 1, MAX_ATTEMPT))
    && (l.pc.Watching? || l.pc == Checking(true) ==> l.attempt == 0 && l.reported)
    && (l.pc == Backoff || l.pc == Checking(false) ==> l.attempt > 0 && l.reported)
    && (l.reported && (l.pc == Top || Before(l.pc) || l.pc.Announcing?) ==> l.attempt > 0)
  }

  lemma {:induction false} SinceLiveStays(sleeps: seq<Sleep>, more: Sleep, k: nat)
    requires k < |sleeps|
    ensures SinceLive(sleeps + [more], k) == SinceLive(sleeps, k)
  {
    if sleeps[k].afterLive || k == 0 {
    } else {
      SinceLiveStays(sleeps, more, k - 1);
    }
  }

  lemma SleepStep(l: Life, l': Life)
    requires BackoffInv(l) && l.pc.Checking?
    requires l'.attempt == Min(l.attempt + 1, MAX_ATTEMPT) && l'.pc == Backoff && l'.reported == l.reported
    requires l'.sleeps == l.sleeps + [Sleep(l.pc.afterLive, l.generation, ReconnectDelay(l'.attempt), |l.reports|)]
    ensures BackoffInv(l')
  {
    var n, more := |l.sleeps|, l'.sleeps[|l.sleeps|];
    DelayTable(l'.attempt);
    forall k | 0 <= k < n
      ensures SinceLive(l'.sleeps, k) == SinceLive(l.sleeps, k)
    {
      SinceLiveStays(l.sleeps, more, k);
    }
    assert SinceLive(l'.sleeps, n) == if l.pc.afterLive then 0 else SinceLive(l.sleeps, n - 1) + 1;
  }

  lemma BackoffStep(cfg: Config, l: Life, step: Step)
    requires BackoffInv(l) && Enabled(cfg, l, step)
    ensures BackoffInv(Next(cfg, l, step))
  {
    var l' := Next(cfg, l, step);
    if step == SupCheck && l'.pc == Backoff {
      SleepStep(l, l');
    } else {
      assert l'.sleeps == l.sleeps;
    }
  }

  lemma {:induction false} RunBackoff(cfg: Config, steps: seq<Step>)
    ensures BackoffInv(Run(cfg, steps))
  {
    if steps == [] {
    } else {
      var l, step := Run(cfg, steps[..|steps| - 1]), steps[|steps| - 1];
      RunBackoff(cfg, steps[..|steps| - 1]);
      if Enabled(cfg, l, step) {
        BackoffStep(cfg, l, step);
      }
    }
  }

  // ----- What a teardown reports is what the supervisor sleeps -----

  /** This call won and has reported. */
  predicate Passed(st: Stage) {
    st == Signalling || st == Finished(true)
  }

  ghost predicate WonBy(l: Life, g: Gen) {
    exists i :: 0 <= i < |l.drops| && l.drops[i].gen == g && Won(l.drops[i].stage)
  }

  ghost predicate PassedBy(l: Life, g: Gen) {
    exists i :: 0 <= i < |l.drops| && l.drops[i].gen == g && Passed(l.drops[i].stage)
  }

  /** Report `j` is for generation `g`, made among the first `n`, and promises `retryAfter`. */
  predicate Promises(reports: seq<Report>, j: nat, n: nat, g: Gen, retryAfter: nat) {
    j < n <= |reports| && reports[j] == Report(g, Some(retryAfter))
  }

  ghost predicate Promised(reports: seq<Report>, n: nat, g: Gen, retryAfter: nat) {
    exists j :: 0 <= j && Promises(reports, j, n, g, retryAfter)
  }

  ghost predicate HasReport(reports: seq<Report>, g: Gen) {
    exists j :: 0 <= j < |reports| && reports[j].gen == g
  }

  /** Every connection that went down has a winner, and the watched one went live. */
  ghost predicate WinnersInv(l: Life) {
    && (forall g :: g in l.downs ==> WonBy(l, g))
    && (l.pc.Announcing? || l.pc.Watching? ==> l.generation in l.ups)
  }

  /** Winners past their report and reports correspond, one to one. */
  ghost predicate ReportsInv(cfg: Config, l: Life) {
    && (forall i :: 0 <= i < |l.drops| && Passed(l.drops[i].stage) ==> HasReport(l.reports, l.drops[i].gen))
    && (forall j :: 0 <= j < |l.reports| ==> PassedBy(l, l.reports[j].gen))
    && (forall i, j :: 0 <= i < j < |l.reports| ==> l.reports[i].gen != l.reports[j].gen)
    && (forall j :: 0 <= j < |l.reports| ==>
          l.reports[j].retryAfter == Some(ReconnectDelay(1)) || l.shutdown || !cfg.autoReconnect)
  }

  ghost predicate PromisesInv(l: Life) {
    && (l.pc == Checking(true) ==> l.shutdown || (HasReport(l.reports, l.generation) && l.generation in l.downs))
    && (forall k :: 0 <= k < |l.sleeps| && l.sleeps[k].afterLive ==>
          Promised(l.reports, l.sleeps[k].heard, l.sleeps[k].gen, l.sleeps[k].delay) && l.sleeps[k].gen in l.downs)
  }

  /** Teardown calls only move forward. */
  ghost predicate DropsForward(l: Life, l': Life) {
    && |l.drops| <= |l'.drops|
    && (forall i :: 0 <= i < |l.drops| ==>
          && l'.drops[i].gen == l.drops[i].gen
          && (Won(l.drops[i].stage) ==> Won(l'.drops[i].stage))
          && (Passed(l.drops[i].stage) ==> Passed(l'.drops[i].stage)))
  }

  lemma StepForward(cfg: Config, l: Life, step: Step)
    requires Enabled(cfg, l, step)
    ensures DropsForward(l, Next(cfg, l, step))
  {
  }

  lemma WonStays(l: Life, l': Life, g: Gen)
    requires DropsForward(l, l')
    ensures WonBy(l, g) ==> WonBy(l', g)
    ensures PassedBy(l, g) ==> PassedBy(l', g)
  {
    if i :| 0 <= i < |l.drops| && l.drops[i].gen == g && Won(l.drops[i].stage) {
      assert l'.drops[i].gen == g && Won(l'.drops[i].stage);
    }
    if i :| 0 <= i < |l.drops| && l.drops[i].gen == g && Passed(l.drops[i].stage) {
      assert l'.drops[i].gen == g && Passed(l'.drops[i].stage);
    }
  }

  lemma WinnersStep(cfg: Config, l: Life, step: Step)
    requires Inv(l) && WinnersInv(l) && Enabled(cfg, l, step)
    ensures WinnersInv(Next(cfg, l, step))
  {
    var l' := Next(cfg, l, step);
    StepForward(cfg, l, step);
    forall g | g in l'.downs
      ensures WonBy(l', g)
    {
      if g in l.downs {
        WonStays(l, l', g);
      } else {
        assert l'.drops[step.i].gen == g && Won(l'.drops[step.i].stage);
      }
    }
  }

  /** A winner that is about to report is the only one of its generation, so this is its first report. */
  lemma NotYetReported(cfg: Config, l: Life, i: nat)
    requires Inv(l) && ReportsInv(cfg, l) && i < |l.drops| && l.drops[i].stage == Reporting
    ensures !HasReport(l.reports, l.drops[i].gen)
  {
    if j :| 0 <= j < |l.reports| && l.reports[j].gen == l.drops[i].gen {
      assert PassedBy(l, l.reports[j].gen);
      var k :| 0 <= k < |l.drops| && l.drops[k].gen == l.drops[i].gen && Passed(l.drops[k].stage);
      assert k != i && Won(l.drops[k].stage) && Won(l.drops[i].stage);
      assert false;
    }
  }

  lemma ReportKeeps(cfg: Config, l: Life, i: nat)
    requires Inv(l) && ReportsInv(cfg, l) && Enabled(cfg, l, DropReport(i))
    ensures ReportsInv(cfg, Next(cfg, l, DropReport(i)))
  {
    var l' := Next(cfg, l, DropReport(i));
    NotYetReported(cfg, l, i);
    StepForward(cfg, l, DropReport(i));
    forall k | 0 <= k < |l'.drops| && Passed(l'.drops[k].stage)
      ensures HasReport(l'.reports, l'.drops[k].gen)
    {
      if k == i {
        assert l'.reports[|l.reports|].gen == l'.drops[k].gen;
      } else {
        HasReportStays(l.reports, l'.reports, l.drops[k].gen);
      }
    }
    forall j | 0 <= j < |l'.reports|
      ensures PassedBy(l', l'.reports[j].gen)
    {
      if j < |l.reports| {
        WonStays(l, l', l.reports[j].gen);
      } else {
        assert l'.drops[i].gen == l'.reports[j].gen && Passed(l'.drops[i].stage);
      }
    }
  }

  lemma HasReportStays(reports: seq<Report>, reports': seq<Report>, g: Gen)
    requires reports <= reports' && HasReport(reports, g)
    ensures HasReport(reports', g)
  {
    var j :| 0 <= j < |reports| && reports[j].gen == g;
    assert reports'[j].gen == g;
  }

  /** Only a report lets a winner pass. */
  ghost predicate NoNewPass(l: Life, l': Life) {
    && l'.reports == l.reports && (l.shutdown ==> l'.shutdown)
    && (forall i :: 0 <= i < |l'.drops| && Passed(l'.drops[i].stage) ==>
          i < |l.drops| && Passed(l.drops[i].stage) && l'.drops[i].gen == l.drops[i].gen)
  }

  lemma StepPassesNobody(cfg: Config, l: Life, step: Step)
    requires Enabled(cfg, l, step) && !step.DropReport?
    ensures NoNewPass(l, Next(cfg, l, step))
  {
  }

  lemma NoNewPassKeeps(cfg: Config, l: Life, l': Life)
    requires ReportsInv(cfg, l) && NoNewPass(l, l') && DropsForward(l, l')
    ensures ReportsInv(cfg, l')
  {
    forall j | 0 <= j < |l'.reports|
      ensures PassedBy(l', l'.reports[j].gen)
    {
      WonStays(l, l', l.reports[j].gen);
    }
  }

  lemma ReportsStep(cfg: Config, l: Life, step: Step)
    requires Inv(l) && ReportsInv(cfg, l) && Enabled(cfg, l, step)
    ensures ReportsInv(cfg, Next(cfg, l, step))
  {
    if step.DropReport? {
      ReportKeeps(cfg, l, step.i);
    } else {
      StepForward(cfg, l, step);
      StepPassesNobody(cfg, l, step);
      NoNewPassKeeps(cfg, l, Next(cfg, l, step));
    }
  }

  /** A supervisor that wakes up without `close` being under way was signalled, after the report. */
  lemma WakeHasReport(cfg: Config, l: Life)
    requires Inv(l) && WinnersInv(l) && ReportsInv(cfg, l) && l.pc.Watching? && Wakes(l, l.pc.gen)
    ensures l.shutdown || (HasReport(l.reports, l.generation) && l.generation in l.downs)
  {
    WakeFindsItDown(l);
    assert l.generation in l.downs;
    assert WonBy(l, l.generation);
    var i :| 0 <= i < |l.drops| && l.drops[i].gen == l.generation && Won(l.drops[i].stage);
    if l.drops[i].party != Closer {
      assert Passed(l.drops[i].stage);
    }
  }

  lemma PromisedStays(reports: seq<Report>, reports': seq<Report>, n: nat, g: Gen, d: nat)
    requires reports <= reports' && Promised(reports, n, g, d)
    ensures Promised(reports', n, g, d)
  {
    var j :| 0 <= j && Promises(reports, j, n, g, d);
    assert Promises(reports', j, n, g, d);
  }

  lemma SleepIsPromised(cfg: Config, l: Life)
    requires ReportsInv(cfg, l) && BackoffInv(l) && HasReport(l.reports, l.generation)
    requires l.pc == Checking(true) && !l.shutdown && cfg.autoReconnect
    ensures Promised(l.reports, |l.reports|, l.generation, ReconnectDelay(Min(l.attempt + 1, MAX_ATTEMPT)))
  {
    var j :| 0 <= j < |l.reports| && l.reports[j].gen == l.generation;
    assert Promises(l.reports, j, |l.reports|, l.generation, ReconnectDelay(1));
  }

  lemma PromisesStep(cfg: Config, l: Life, step: Step)
    requires Inv(l) && WinnersInv(l) && ReportsInv(cfg, l) && BackoffInv(l) && PromisesInv(l) && Enabled(cfg, l, step)
    ensures PromisesInv(Next(cfg, l, step))
  {
    var l' := Next(cfg, l, step);
    if step == SupWake {
      WakeHasReport(cfg, l);
    } else if step == SupCheck && l'.pc == Backoff {
      if l.pc.afterLive {
        SleepIsPromised(cfg, l);
      }
      NewSleepIsPromised(l, l');
    } else {
      RecordsGrow(cfg, l, step);
      PromisesStay(l, l');
    }
  }

  /** A step other than a wake-up or a check that sleeps: nothing recorded is lost and no sleep is added. */
  ghost predicate Grows(l: Life, l': Life) {
    && l'.sleeps == l.sleeps && l.reports <= l'.reports && l.downs <= l'.downs && (l.shutdown ==> l'.shutdown)
    && (l'.pc == Checking(true) ==> l.pc == Checking(true) && l'.generation == l.generation)
  }

  lemma RecordsGrow(cfg: Config, l: Life, step: Step)
    requires Enabled(cfg, l, step) && step != SupWake && !(step == SupCheck && Next(cfg, l, step).pc == Backoff)
    ensures Grows(l, Next(cfg, l, step))
  {
  }

  lemma PromisesStay(l: Life, l': Life)
    requires PromisesInv(l) && Grows(l, l')
    ensures PromisesInv(l')
  {
    if l'.pc == Checking(true) && !l'.shutdown {
      HasReportStays(l.reports, l'.reports, l.generation);
    }
    forall k | 0 <= k < |l'.sleeps| && l'.sleeps[k].afterLive
      ensures Promised(l'.reports, l'.sleeps[k].heard, l'.sleeps[k].gen, l'.sleeps[k].delay)
      ensures l'.sleeps[k].gen in l'.downs
    {
      PromisedStays(l.reports, l'.reports, l.sleeps[k].heard, l.sleeps[k].gen, l.sleeps[k].delay);
    }
  }

  lemma NewSleepIsPromised(l: Life, l': Life)
    requires PromisesInv(l) && l.pc.Checking? && !l.shutdown && l'.pc == Backoff
    requires |l'.sleeps| == |l.sleeps| + 1 && l'.reports == l.reports && l'.downs == l.downs
    requires forall k :: 0 <= k < |l.sleeps| ==> l'.sleeps[k] == l.sleeps[k]
    requires var last := l'.sleeps[|l.sleeps|];
             last.afterLive == l.pc.afterLive && last.gen == l.generation
             && (last.afterLive ==> Promised(l.reports, last.heard, last.gen, last.delay))
    ensures PromisesInv(l')
  {
  }

  lemma {:induction false} RunPromises(cfg: Config, steps: seq<Step>)
    ensures var l := Run(cfg, steps); WinnersInv(l) && ReportsInv(cfg, l) && PromisesInv(l)
  {
    if steps == [] {
    } else {
      var front, step := steps[..|steps| - 1], steps[|steps| - 1];
      RunPromises(cfg, front);
      RunInv(cfg, front);
      RunBackoff(cfg, front);
      var l := Run(cfg, front);
      if Enabled(cfg, l, step) {
        WinnersStep(cfg, l, step);
        ReportsStep(cfg, l, step);
        PromisesStep(cfg, l, step);
      }
    }
  }

  /** Exactly one report is for this generation. */
  ghost predicate OneReport(reports: seq<Report>, g: Gen) {
    HasReport(reports, g)
    && forall i, j :: 0 <= i < j < |reports| ==> !(reports[i].gen == g && reports[j].gen == g)
  }

  /**
   * In every run the sleep after a live connection is 3 s, the next ones, while attempts keep failing, are
   * 6, 12 and 24 s, and all further ones 30 s. Before every sleep that follows a live connection, the
   * teardown of that connection reported, once, exactly this delay as its `retry_after`.
   */
  lemma BackoffLaw(cfg: Config, steps: seq<Step>, k: nat)
    requires k < |Run(cfg, steps).sleeps|
    ensures var l := Run(cfg, steps);
            var sleep, j := l.sleeps[k], SinceLive(l.sleeps, k);
            && sleep.delay == (if j == 0 then 3 else if j == 1 then 6 else if j == 2 then 12 else if j == 3 then 24 else 30)
            && (sleep.afterLive ==>
                  && sleep.gen in l.downs && OneReport(l.reports, sleep.gen)
                  && Promised(l.reports, sleep.heard, sleep.gen, sleep.delay))
            && (!sleep.afterLive ==> k > 0)
  {
    RunBackoff(cfg, steps);
    RunPromises(cfg, steps);
    var l := Run(cfg, steps);
    if l.sleeps[k].afterLive {
      var j :| 0 <= j && Promises(l.reports, j, l.sleeps[k].heard, l.sleeps[k].gen, l.sleeps[k].delay);
      assert l.reports[j].gen == l.sleeps[k].gen;
    }
  }

  // ----- What decides -----

  /**
   * An attempt begins exactly without shutdown; a failed attempt ends the supervisor exactly when nothing
   * was reported to `connect` yet; a check adds exactly one sleep, with auto-reconnect on and no shutdown,
   * and otherwise ends the supervisor; after the sleep comes the next attempt.
   */
  lemma SupervisorDecides(cfg: Config, l: Life)
    ensures l.pc == Top ==>
              var l' := Next(cfg, l, SupBegin);
              && (l'.pc == Connecting(l.generation + 1) <==> !l.shutdown) && (l'.pc == Exited <==> l.shutdown)
              && l'.generation == l.generation + (if l.shutdown then 0 else 1)
    ensures l.pc.Connecting? ==>
              var l' := Next(cfg, l, SupFail);
              && (l'.pc == Exited <==> !l.reported) && (l'.pc == Checking(false) <==> l.reported) && l'.sleeps == l.sleeps
    ensures l.pc.Checking? ==>
              var l' := Next(cfg, l, SupCheck);
              && (l'.pc == Backoff <==> cfg.autoReconnect && !l.shutdown)
              && (l'.pc == Exited <==> !cfg.autoReconnect || l.shutdown)
              && |l'.sleeps| == |l.sleeps| + (if cfg.autoReconnect && !l.shutdown then 1 else 0)
              && l.sleeps <= l'.sleeps
    ensures l.pc == Backoff ==> Next(cfg, l, SupSlept).pc == Top
  {
  }

  /** A teardown call takes effect exactly for the current generation of a connected client. */
  lemma SwapWinsIff(cfg: Config, l: Life, i: nat)
    requires Enabled(cfg, l, DropSwap(i))
    ensures var l' := Next(cfg, l, DropSwap(i));
            && (Won(l'.drops[i].stage) <==> l.drops[i].gen == l.generation && l.connected)
            && l'.connected == (l.connected && l.drops[i].gen != l.generation)
            && l'.downs == l.downs + (if l.drops[i].gen == l.generation && l.connected then [l.generation] else [])
  {
    assert l.downs + [] == l.downs;
  }

  /**
   * A teardown that won always has a step to take, and when it has finished, the supervisor that watched the
   * connection can go on, unless `close` won: then it can once the connection's own three tasks are through.
   */
  lemma TeardownNeverSticks(cfg: Config, l: Life, i: nat)
    requires i < |l.drops| && Won(l.drops[i].stage)
    ensures l.drops[i].stage != Finished(true) ==> exists step :: Enabled(cfg, l, step) && Moves(step, i)
    ensures l.drops[i].stage == Finished(true) && l.pc == Watching(l.drops[i].gen) && l.drops[i].party != Closer ==>
              Enabled(cfg, l, SupWake)
    ensures forall g ::
              l.pc == Watching(g) && (forall p :: p != Closer ==> HasFinished(l, g, p)) ==> Enabled(cfg, l, SupWake)
  {
    match l.drops[i].stage
    case Clearing => assert Enabled(cfg, l, DropClear(i)) && Moves(DropClear(i), i);
    case Collecting(_, _, _) => assert Enabled(cfg, l, DropCollect(i, {})) && Moves(DropCollect(i, {}), i);
    case Draining(_, keys) =>
      if key :| key in keys {
        assert Enabled(cfg, l, DropRemove(i, key)) && Moves(DropRemove(i, key), i);
      } else {
        assert Enabled(cfg, l, DropDrained(i)) && Moves(DropDrained(i), i);
      }
    case Reporting => assert Enabled(cfg, l, DropReport(i)) && Moves(DropReport(i), i);
    case Signalling => assert Enabled(cfg, l, DropSignal(i)) && Moves(DropSignal(i), i);
    case _ =>
  }

  /** The step belongs to teardown `i`. */
  predicate Moves(step: Step, i: nat) {
    match step
    case DropClear(j) => j == i
    case DropCollect(j, _) => j == i
    case DropRemove(j, _) => j == i
    case DropDrained(j) => j == i
    case DropReport(j) => j == i
    case DropSignal(j) => j == i
    case _ => false
  }

  /** A winner's report is for its own generation, and promises 3 s exactly if the client will reconnect. */
  lemma ReportDecides(cfg: Config, l: Life, i: nat)
    requires Enabled(cfg, l, DropReport(i))
    ensures var l' := Next(cfg, l, DropReport(i));
            && |l'.reports| == |l.reports| + 1 && l.reports <= l'.reports
            && l'.reports[|l.reports|].gen == l.drops[i].gen
            && (l'.reports[|l.reports|].retryAfter == Some(3) <==> cfg.autoReconnect && !l.shutdown)
            && (l'.reports[|l.reports|].retryAfter == None <==> !cfg.autoReconnect || l.shutdown)
  {
    DelayTable(1);
  }

  // ----- Every `close` makes one teardown call -----

  function CloserCalls(drops: seq<Drop>): nat {
    if drops == [] then 0
    else CloserCalls(drops[..|drops| - 1]) + if drops[|drops| - 1].party == Closer then 1 else 0
  }

  function Closes(steps: seq<Step>): nat {
    if steps == [] then 0 else Closes(steps[..|steps| - 1]) + if steps[|steps| - 1] == CloseBegin then 1 else 0
  }

  lemma {:induction false} SameParties(a: seq<Drop>, b: seq<Drop>)
    requires |a| == |b| && forall i :: 0 <= i < |a| ==> a[i].party == b[i].party
    ensures CloserCalls(a) == CloserCalls(b)
  {
    if a == [] {
    } else {
      SameParties(a[..|a| - 1], b[..|b| - 1]);
    }
  }

  lemma OneMoreCall(drops: seq<Drop>, d: Drop)
    ensures CloserCalls(drops + [d]) == CloserCalls(drops) + if d.party == Closer then 1 else 0
  {
    assert (drops + [d])[..|drops|] == drops;
  }

  lemma CloseStep(cfg: Config, l: Life, step: Step)
    requires Enabled(cfg, l, step)
    ensures var l' := Next(cfg, l, step);
            CloserCalls(l'.drops) + l'.closing == CloserCalls(l.drops) + l.closing + if step == CloseBegin then 1 else 0
  {
    var l' := Next(cfg, l, step);
    match step
    case CloseLoad => OneMoreCall(l.drops, Drop(l.generation, Closer, Start));
    case DropStart(g, p) => OneMoreCall(l.drops, Drop(g, p, Start));
    case _ => SameParties(l.drops, l'.drops);
  }

  /** In every run each `close` has made its one teardown call, or is about to. */
  lemma {:induction false} ClosesAreCounted(cfg: Config, steps: seq<Step>)
    ensures CloserCalls(Run(cfg, steps).drops) + Run(cfg, steps).closing == Closes(steps)
  {
    if steps == [] {
    } else {
      var l, step := Run(cfg, steps[..|steps| - 1]), steps[|steps| - 1];
      ClosesAreCounted(cfg, steps[..|steps| - 1]);
      if Enabled(cfg, l, step) {
        CloseStep(cfg, l, step);
      }
    }
  }
}
