/** The limiter against its call history: counters, bans, verdicts and window bounds of every run. */
module LimiterHistory {
  import opened Wrappers
  import opened RateLimiter

  // ----- Runs -----

  datatype Op =
    | DoCheck(now: Time, conn: string, ip: Ip, len: nat)
    | DoQuery(now: Time, ip: Ip)
    | DoCleanup(now: Time)

  /** What a caller sees of a call, plus the two flags behind a Limited verdict. */
  datatype Event =
    | Checked(now: Time, conn: string, ip: Ip, len: nat, verdict: Verdict, connOver: bool, ipOver: bool)
    | Asked(now: Time, ip: Ip, banned: bool)

  type Log = seq<Event>

  function Step(cfg: Config, s: State, log: Log, op: Op): (State, Log) {
    match op
    case DoCheck(now, conn, ip, len) =>
      var o := Check(cfg, s, now, conn, ip, len);
      (o.state, log + [Checked(now, conn, ip, len, o.verdict, o.connOver, o.ipOver)])
    case DoQuery(now, ip) =>
      (State(s.conn, DropExpired(s.ip, now, ip)), log + [Asked(now, ip, IsBanned(s.ip, now, ip))])
    case DoCleanup(now) =>
      (Swept(cfg, s, now), log)
  }

  /** The state and the log after a run from the empty limiter. */
  function Run(cfg: Config, ops: seq<Op>): (State, Log) {
    if ops == [] then (EMPTY, [])
    else
      var (s, log) := Run(cfg, ops[..|ops| - 1]);
      Step(cfg, s, log, ops[|ops| - 1])
  }

  /** The clock never goes back. */
  predicate Monotone(ops: seq<Op>) {
    forall i, j :: 0 <= i < j < |ops| ==> ops[i].now <= ops[j].now
  }

  function Clock(ops: seq<Op>): Time {
    if ops == [] then 0 else ops[|ops| - 1].now
  }

  // ----- One dimension's history: the calls that were not banned -----

  datatype Rec<!K> = Rec(now: Time, key: K, len: nat, over: bool, allowed: bool)

  type Trace<!K> = seq<Rec<K>>

  function ConnTrace(log: Log): Trace<string> {
    if log == [] then []
    else
      var e := log[|log| - 1];
      ConnTrace(log[..|log| - 1])
      + (if e.Checked? && e.verdict != Banned
         then [Rec(e.now, e.conn, e.len, e.connOver, e.verdict == Allowed)] else [])
  }

  function IpTrace(log: Log): Trace<Ip> {
    if log == [] then []
    else
      var e := log[|log| - 1];
      IpTrace(log[..|log| - 1])
      + (if e.Checked? && e.verdict != Banned
         then [Rec(e.now, e.ip, e.len, e.ipOver, e.verdict == Allowed)] else [])
  }

  /** The record that opened the key's current window: the first at least one period after the last opening. */
  function Window<K(==)>(tr: Trace<K>, k: K, period: Time): (w: Option<nat>)
    ensures w.Some? ==> w.value < |tr| && tr[w.value].key == k
  {
    if tr == [] then None
    else
      var n := |tr| - 1;
      var prev := Window(tr[..n], k, period);
      if tr[n].key != k then prev
      else if prev.None? || tr[prev.value].now + period <= tr[n].now then Some(n)
      else prev
  }

  /** The summed cost of the key's records from index `from` on. */
  function Total<K(==)>(tr: Trace<K>, k: K, from: nat, cost: Rec<K> -> nat): nat {
    if |tr| <= from then 0
    else
      var n := |tr| - 1;
      Total(tr[..n], k, from, cost) + (if tr[n].key == k then cost(tr[n]) else 0)
  }

  function One<K>(r: Rec<K>): nat {
    1
  }

  function Size<K>(r: Rec<K>): nat {
    r.len
  }

  /** The counter that the history prescribes for a key with an open window. */
  function HistoryCounter<K(==)>(tr: Trace<K>, k: K, w: nat): Counter
    requires w < |tr|
  {
    Counter(tr[w].now, Total(tr, k, w, One), Total(tr, k, w, Size))
  }

  /** The time of the key's latest record that exceeded a limit. */
  function LastOver<K(==)>(tr: Trace<K>, k: K): Option<Time> {
    if tr == [] then None
    else if tr[|tr| - 1].key == k && tr[|tr| - 1].over then Some(tr[|tr| - 1].now)
    else LastOver(tr[..|tr| - 1], k)
  }

  /** Some earlier excess of this key, at time t, with `t <= now < t + d`. */
  ghost predicate BannedAt<K>(tr: Trace<K>, ban: Option<Time>, k: K, now: Time) {
    ban.Some? && exists j :: 0 <= j < |tr| && tr[j].key == k && tr[j].over
                             && tr[j].now <= now < tr[j].now + ban.value
  }

  ghost predicate Chronological<K>(tr: Trace<K>, now: Time) {
    && (forall i, j :: 0 <= i < j < |tr| ==> tr[i].now <= tr[j].now)
    && (forall i :: 0 <= i < |tr| ==> tr[i].now <= now)
  }

  // ----- The state of one dimension against its history -----

  ghost predicate CounterMatches<K>(d: Dim<K>, tr: Trace<K>, k: K, period: Time, now: Time) {
    var w := Window(tr, k, period);
    if k in d.counters then w.Some? && d.counters[k] == HistoryCounter(tr, k, w.value)
    else w.None? || tr[w.value].now + period <= now
  }

  ghost predicate BanMatches<K>(d: Dim<K>, tr: Trace<K>, k: K, ban: Option<Time>, now: Time) {
    var t := LastOver(tr, k);
    if k in d.bans then ban.Some? && t.Some? && d.bans[k] == t.value + ban.value
    else ban.None? || t.None? || t.value + ban.value <= now
  }

  ghost predicate DimMatches<K(!new)>(
    limits: Option<LimitConfig>, ban: Option<Time>, d: Dim<K>, tr: Trace<K>, now: Time)
  {
    && Chronological(tr, now)
    && (limits.Some? ==> forall k :: CounterMatches(d, tr, k, limits.value.period, now))
    && (forall k :: BanMatches(d, tr, k, ban, now))
  }

  lemma LaterMatches<K(!new)>(
    limits: Option<LimitConfig>, ban: Option<Time>, d: Dim<K>, tr: Trace<K>, now: Time, later: Time)
    requires DimMatches(limits, ban, d, tr, now) && now <= later
    ensures DimMatches(limits, ban, d, tr, later)
  {
    if limits.Some? {
      forall k
        ensures CounterMatches(d, tr, k, limits.value.period, later)
      {
        assert CounterMatches(d, tr, k, limits.value.period, now);
      }
    }
    forall k
      ensures BanMatches(d, tr, k, ban, later)
    {
      assert BanMatches(d, tr, k, ban, now);
    }
  }

  lemma DropMatches<K(!new)>(
    limits: Option<LimitConfig>, ban: Option<Time>, d: Dim<K>, tr: Trace<K>, now: Time, k: K)
    requires DimMatches(limits, ban, d, tr, now)
    ensures DimMatches(limits, ban, DropExpired(d, now, k), tr, now)
  {
    var d' := DropExpired(d, now, k);
    if limits.Some? {
      forall k'
        ensures CounterMatches(d', tr, k', limits.value.period, now)
      {
        assert CounterMatches(d, tr, k', limits.value.period, now);
      }
    }
    forall k'
      ensures BanMatches(d', tr, k', ban, now)
    {
      assert BanMatches(d, tr, k', ban, now);
    }
  }

  lemma EvictMatches<K(!new)>(
    limits: Option<LimitConfig>, ban: Option<Time>, d: Dim<K>, tr: Trace<K>, now: Time, threshold: Time)
    requires DimMatches(limits, ban, d, tr, now)
    requires limits.Some? ==> threshold >= limits.value.period
    ensures DimMatches(limits, ban, Evict(d, now, threshold), tr, now)
  {
    var d' := Evict(d, now, threshold);
    if limits.Some? {
      forall k
        ensures CounterMatches(d', tr, k, limits.value.period, now)
      {
        assert CounterMatches(d, tr, k, limits.value.period, now);
      }
    }
    forall k
      ensures BanMatches(d', tr, k, ban, now)
    {
      assert BanMatches(d, tr, k, ban, now);
    }
  }

  /** One more record extends the history by one step. */
  lemma Appended<K(!new)>(tr: Trace<K>, r: Rec<K>, k: K, period: Time)
    ensures var tr', w := tr + [r], Window(tr, k, period);
            Window(tr', k, period) ==
              if r.key != k then w
              else if w.None? || tr[w.value].now + period <= r.now then Some(|tr|) else w
    ensures LastOver(tr + [r], k) == if r.key == k && r.over then Some(r.now) else LastOver(tr, k)
    ensures forall from: nat, cost: Rec<K> -> nat :: from <= |tr| ==>
              Total(tr + [r], k, from, cost)
              == Total(tr, k, from, cost) + if r.key == k then cost(r) else 0
  {
    assert (tr + [r])[..|tr|] == tr;
  }

  lemma RecordMatchesCounter<K(!new)>(
    d: Dim<K>, limits: LimitConfig, ban: Option<Time>, tr: Trace<K>, now: Time, r: Rec<K>, k: K)
    requires CounterMatches(d, tr, k, limits.period, now) && r.now == now && Chronological(tr, now)
    ensures CounterMatches(Record(d, Some(limits), ban, now, r.key, r.len).0, tr + [r], k,
                           limits.period, now)
  {
    Appended(tr, r, k, limits.period);
    var w := Window(tr, k, limits.period);
    if k == r.key && (w.None? || tr[w.value].now + limits.period <= now) {
      assert Total(tr, k, |tr|, One) == 0 && Total(tr, k, |tr|, Size) == 0;
    }
  }

  lemma RecordMatches<K(!new)>(
    limits: Option<LimitConfig>, ban: Option<Time>, d: Dim<K>, tr: Trace<K>, now: Time, r: Rec<K>)
    requires DimMatches(limits, ban, d, tr, now)
    requires r.now == now && r.over == Record(d, limits, ban, now, r.key, r.len).1
    ensures DimMatches(limits, ban, Record(d, limits, ban, now, r.key, r.len).0, tr + [r], now)
  {
    var d' := Record(d, limits, ban, now, r.key, r.len).0;
    if limits.Some? {
      forall k
        ensures CounterMatches(d', tr + [r], k, limits.value.period, now)
      {
        assert CounterMatches(d, tr, k, limits.value.period, now);
        RecordMatchesCounter(d, limits.value, ban, tr, now, r, k);
      }
    }
    forall k
      ensures BanMatches(d', tr + [r], k, ban, now)
    {
      assert BanMatches(d, tr, k, ban, now);
      Appended(tr, r, k, 0);
    }
  }

  // ----- The whole limiter -----

  ghost predicate Matches(cfg: Config, s: State, log: Log, now: Time) {
    && DimMatches(cfg.connection, cfg.banDuration, s.conn, ConnTrace(log), now)
    && DimMatches(cfg.ip, cfg.banDuration, s.ip, IpTrace(log), now)
  }

  lemma TraceAppend(log: Log, e: Event)
    ensures ConnTrace(log + [e]) == ConnTrace(log)
            + (if e.Checked? && e.verdict != Banned
               then [Rec(e.now, e.conn, e.len, e.connOver, e.verdict == Allowed)] else [])
    ensures IpTrace(log + [e]) == IpTrace(log)
            + (if e.Checked? && e.verdict != Banned
               then [Rec(e.now, e.ip, e.len, e.ipOver, e.verdict == Allowed)] else [])
  {
    assert (log + [e])[..|log|] == log;
  }

  lemma CheckMatches(cfg: Config, s: State, log: Log, op: Op)
    requires op.DoCheck? && Matches(cfg, s, log, op.now)
    ensures Matches(cfg, Step(cfg, s, log, op).0, Step(cfg, s, log, op).1, op.now)
  {
    var o := Check(cfg, s, op.now, op.conn, op.ip, op.len);
    var e := Checked(op.now, op.conn, op.ip, op.len, o.verdict, o.connOver, o.ipOver);
    TraceAppend(log, e);
    DropMatches(cfg.connection, cfg.banDuration, s.conn, ConnTrace(log), op.now, op.conn);
    if o.verdict == Banned {
      assert ConnTrace(log) + [] == ConnTrace(log) && IpTrace(log) + [] == IpTrace(log);
    } else {
      DropMatches(cfg.ip, cfg.banDuration, s.ip, IpTrace(log), op.now, op.ip);
      RecordMatches(cfg.connection, cfg.banDuration, DropExpired(s.conn, op.now, op.conn),
                    ConnTrace(log), op.now,
                    Rec(op.now, op.conn, op.len, o.connOver, o.verdict == Allowed));
      RecordMatches(cfg.ip, cfg.banDuration, DropExpired(s.ip, op.now, op.ip),
                    IpTrace(log), op.now,
                    Rec(op.now, op.ip, op.len, o.ipOver, o.verdict == Allowed));
    }
  }

  lemma StepMatches(cfg: Config, s: State, log: Log, op: Op)
    requires Matches(cfg, s, log, op.now)
    ensures Matches(cfg, Step(cfg, s, log, op).0, Step(cfg, s, log, op).1, op.now)
  {
    match op
    case DoCheck(_, _, _, _) =>
      CheckMatches(cfg, s, log, op);
    case DoQuery(now, ip) =>
      TraceAppend(log, Asked(now, ip, IsBanned(s.ip, now, ip)));
      assert ConnTrace(log) + [] == ConnTrace(log) && IpTrace(log) + [] == IpTrace(log);
      DropMatches(cfg.ip, cfg.banDuration, s.ip, IpTrace(log), now, ip);
    case DoCleanup(now) =>
      EvictMatches(cfg.connection, cfg.banDuration, s.conn, ConnTrace(log), now, MaxPeriod(cfg) * 2);
      EvictMatches(cfg.ip, cfg.banDuration, s.ip, IpTrace(log), now, MaxPeriod(cfg) * 2);
  }

  lemma MonotonePrefix(ops: seq<Op>)
    requires ops != [] && Monotone(ops)
    ensures Monotone(ops[..|ops| - 1]) && Clock(ops[..|ops| - 1]) <= ops[|ops| - 1].now
  {
  }

  /**
   * In every run, each live counter holds exactly the calls and bytes of its key that were not
   * banned since its window opened, and each absent counter has no window or an elapsed one; each
   * ban entry expires one ban duration after the latest excess.
   */
  lemma {:induction false} CountersAreHistory(cfg: Config, ops: seq<Op>, now: Time)
    requires Monotone(ops) && Clock(ops) <= now
    ensures Matches(cfg, Run(cfg, ops).0, Run(cfg, ops).1, now)
  {
    if ops == [] {
    } else {
      var front, op := ops[..|ops| - 1], ops[|ops| - 1];
      MonotonePrefix(ops);
      CountersAreHistory(cfg, front, op.now);
      var (s, log) := Run(cfg, front);
      StepMatches(cfg, s, log, op);
      var (s', log') := Run(cfg, ops);
      LaterMatches(cfg.connection, cfg.banDuration, s'.conn, ConnTrace(log'), op.now, now);
      LaterMatches(cfg.ip, cfg.banDuration, s'.ip, IpTrace(log'), op.now, now);
    }
  }

  // ----- Bans are exact -----

  lemma {:induction false} LastOverIsLatest<K(!new)>(tr: Trace<K>, k: K, now: Time)
    requires Chronological(tr, now)
    ensures LastOver(tr, k).None? ==> forall j :: 0 <= j < |tr| && tr[j].key == k ==> !tr[j].over
    ensures LastOver(tr, k).Some? ==>
              exists j :: 0 <= j < |tr| && tr[j].key == k && tr[j].over && tr[j].now == LastOver(tr, k).value
    ensures LastOver(tr, k).Some? ==>
              forall j :: 0 <= j < |tr| && tr[j].key == k && tr[j].over ==> tr[j].now <= LastOver(tr, k).value
  {
    if tr != [] && !(tr[|tr| - 1].key == k && tr[|tr| - 1].over) {
      var front := tr[..|tr| - 1];
      LastOverIsLatest(front, k, now);
      assert forall j :: 0 <= j < |front| ==> front[j] == tr[j];
    }
  }

  lemma BanIsHistory<K(!new)>(d: Dim<K>, tr: Trace<K>, k: K, ban: Option<Time>, now: Time)
    requires Chronological(tr, now) && BanMatches(d, tr, k, ban, now)
    ensures IsBanned(d, now, k) <==> BannedAt(tr, ban, k, now)
  {
    LastOverIsLatest(tr, k, now);
  }

  /** The answer to a call, from the log before it alone. */
  ghost predicate BanAnswerExact(cfg: Config, log: Log, e: Event) {
    match e
    case Checked(now, conn, ip, _, verdict, _, _) =>
      verdict == Banned <==>
        BannedAt(ConnTrace(log), cfg.banDuration, conn, now) || BannedAt(IpTrace(log), cfg.banDuration, ip, now)
    case Asked(now, ip, banned) =>
      banned <==> BannedAt(IpTrace(log), cfg.banDuration, ip, now)
  }

  ghost predicate BansExact(cfg: Config, log: Log) {
    forall i :: 0 <= i < |log| ==> BanAnswerExact(cfg, log[..i], log[i])
  }

  lemma ExactExtends(cfg: Config, log: Log, e: Event)
    requires BansExact(cfg, log) && BanAnswerExact(cfg, log, e)
    ensures BansExact(cfg, log + [e])
  {
    var log' := log + [e];
    forall i | 0 <= i < |log'|
      ensures BanAnswerExact(cfg, log'[..i], log'[i])
    {
      assert log'[..i] == log[..i];
      assert log[..|log|] == log;
    }
  }

  lemma CheckAnswersExactly(cfg: Config, s: State, log: Log, op: Op)
    requires op.DoCheck? && Matches(cfg, s, log, op.now)
    ensures var log' := Step(cfg, s, log, op).1; BanAnswerExact(cfg, log, log'[|log'| - 1])
  {
    assert BanMatches(s.conn, ConnTrace(log), op.conn, cfg.banDuration, op.now);
    assert BanMatches(s.ip, IpTrace(log), op.ip, cfg.banDuration, op.now);
    BanIsHistory(s.conn, ConnTrace(log), op.conn, cfg.banDuration, op.now);
    BanIsHistory(s.ip, IpTrace(log), op.ip, cfg.banDuration, op.now);
  }

  /**
   * In every run, a call answers Banned (and `is_ip_banned` answers true) exactly when some earlier
   * call, at time t, exceeded a limit of that connection or that address and `t <= now < t + d`. So
   * a ban lasts its full duration, and without a ban duration there is none.
   */
  lemma {:induction false} BansAreExact(cfg: Config, ops: seq<Op>)
    requires Monotone(ops)
    ensures BansExact(cfg, Run(cfg, ops).1)
  {
    if ops == [] {
    } else {
      var front, op := ops[..|ops| - 1], ops[|ops| - 1];
      MonotonePrefix(ops);
      BansAreExact(cfg, front);
      CountersAreHistory(cfg, front, op.now);
      var (s, log) := Run(cfg, front);
      match op
      case DoCheck(now, conn, ip, len) =>
        CheckAnswersExactly(cfg, s, log, op);
        var log' := Step(cfg, s, log, op).1;
        ExactExtends(cfg, log, log'[|log'| - 1]);
      case DoQuery(now, ip) =>
        assert BanMatches(s.ip, IpTrace(log), ip, cfg.banDuration, now);
        BanIsHistory(s.ip, IpTrace(log), ip, cfg.banDuration, now);
        ExactExtends(cfg, log, Asked(now, ip, IsBanned(s.ip, now, ip)));
      case DoCleanup(_) =>
    }
  }

  /** A banned call leaves every counter alone, and removes no ban that is still running. */
  lemma BannedCallsCountNothing(cfg: Config, s: State, now: Time, conn: string, ip: Ip, len: nat)
    requires Check(cfg, s, now, conn, ip, len).verdict == Banned
    ensures var s' := Check(cfg, s, now, conn, ip, len).state;
            && s'.conn.counters == s.conn.counters && s'.ip == s.ip
            && forall k, t :: t >= now ==> (IsBanned(s'.conn, t, k) <==> IsBanned(s.conn, t, k))
  {
  }

  // ----- Bans are never extended -----

  /** Two excesses of one key lie at least `d` apart. */
  ghost predicate Spaced<K>(tr: Trace<K>, k: K, d: Time) {
    forall i, j :: 0 <= i < j < |tr| && tr[i].key == k && tr[i].over && tr[j].key == k && tr[j].over ==>
      tr[i].now + d <= tr[j].now
  }

  lemma SpacedExtends<K(!new)>(tr: Trace<K>, r: Rec<K>, k: K, d: Time)
    requires Chronological(tr, r.now) && Spaced(tr, k, d) && !BannedAt(tr, Some(d), r.key, r.now)
    ensures Spaced(tr + [r], k, d)
  {
    forall i | 0 <= i < |tr| && tr[i].key == k && tr[i].over && r.key == k
      ensures tr[i].now + d <= r.now
    {
      assert tr[i].now <= r.now;
    }
  }

  lemma CheckSpaced(cfg: Config, s: State, log: Log, op: Op, conn: string, ip: Ip)
    requires op.DoCheck? && Matches(cfg, s, log, op.now) && cfg.banDuration.Some?
    requires Spaced(ConnTrace(log), conn, cfg.banDuration.value) && Spaced(IpTrace(log), ip, cfg.banDuration.value)
    ensures var log' := Step(cfg, s, log, op).1;
            Spaced(ConnTrace(log'), conn, cfg.banDuration.value) && Spaced(IpTrace(log'), ip, cfg.banDuration.value)
  {
    var o := Check(cfg, s, op.now, op.conn, op.ip, op.len);
    TraceAppend(log, Checked(op.now, op.conn, op.ip, op.len, o.verdict, o.connOver, o.ipOver));
    if o.verdict == Banned {
      assert ConnTrace(log) + [] == ConnTrace(log) && IpTrace(log) + [] == IpTrace(log);
    } else {
      assert BanMatches(s.conn, ConnTrace(log), op.conn, cfg.banDuration, op.now);
      assert BanMatches(s.ip, IpTrace(log), op.ip, cfg.banDuration, op.now);
      BanIsHistory(s.conn, ConnTrace(log), op.conn, cfg.banDuration, op.now);
      BanIsHistory(s.ip, IpTrace(log), op.ip, cfg.banDuration, op.now);
      SpacedExtends(ConnTrace(log), Rec(op.now, op.conn, op.len, o.connOver, o.verdict == Allowed), conn,
                    cfg.banDuration.value);
      SpacedExtends(IpTrace(log), Rec(op.now, op.ip, op.len, o.ipOver, o.verdict == Allowed), ip,
                    cfg.banDuration.value);
    }
  }

  /**
   * In every run, two excesses of one connection or one address lie at least one ban duration apart: a
   * running ban is never extended by the calls it rejects.
   */
  lemma {:induction false} BansAreNeverExtended(cfg: Config, ops: seq<Op>, conn: string, ip: Ip)
    requires Monotone(ops) && cfg.banDuration.Some?
    ensures var log, d := Run(cfg, ops).1, cfg.banDuration.value;
            Spaced(ConnTrace(log), conn, d) && Spaced(IpTrace(log), ip, d)
  {
    if ops == [] {
    } else {
      var front, op := ops[..|ops| - 1], ops[|ops| - 1];
      MonotonePrefix(ops);
      BansAreNeverExtended(cfg, front, conn, ip);
      CountersAreHistory(cfg, front, op.now);
      var (s, log) := Run(cfg, front);
      match op
      case DoCheck(_, _, _, _) => CheckSpaced(cfg, s, log, op, conn, ip);
      case DoQuery(now, asked) =>
        TraceAppend(log, Asked(now, asked, IsBanned(s.ip, now, asked)));
        assert ConnTrace(log) + [] == ConnTrace(log) && IpTrace(log) + [] == IpTrace(log);
      case DoCleanup(_) =>
    }
  }

  // ----- Verdicts are history -----

  /** The guard under which the first-insert branch agrees with the general test. */
  predicate ByteGuard(limits: LimitConfig, len: nat) {
    limits.maxBytes.Some? ==> if limits.maxBytes.value == 0 then 0 < len else len <= limits.maxBytes.value
  }

  predicate Guarded(cfg: Config, ops: seq<Op>) {
    forall i :: 0 <= i < |ops| && ops[i].DoCheck? ==>
      && (cfg.connection.Some? ==> ByteGuard(cfg.connection.value, ops[i].len))
      && (cfg.ip.Some? ==> ByteGuard(cfg.ip.value, ops[i].len))
  }

  lemma LatestOpensOrJoins<K(!new)>(tr: Trace<K>, r: Rec<K>, period: Time)
    ensures Window(tr + [r], r.key, period).Some?
  {
    assert (tr + [r])[..|tr|] == tr;
  }

  /** The calls of the key in the window this call falls in, itself included. */
  ghost function Calls<K(!new)>(tr: Trace<K>, now: Time, k: K, len: nat, period: Time): nat {
    var r := Rec(now, k, len, false, false);
    LatestOpensOrJoins(tr, r, period);
    Total(tr + [r], k, Window(tr + [r], k, period).value, One)
  }

  /** The bytes of the key in the window this call falls in, its own included. */
  ghost function Volume<K(!new)>(tr: Trace<K>, now: Time, k: K, len: nat, period: Time): nat {
    var r := Rec(now, k, len, false, false);
    LatestOpensOrJoins(tr, r, period);
    Total(tr + [r], k, Window(tr + [r], k, period).value, Size)
  }

  /** The window this call falls in, itself included, is within the limits. */
  ghost predicate Within<K(!new)>(limits: Option<LimitConfig>, tr: Trace<K>, now: Time, k: K, len: nat) {
    limits.Some? ==>
      && (limits.value.maxMessages.Some? ==> Calls(tr, now, k, len, limits.value.period) <= limits.value.maxMessages.value)
      && (limits.value.maxBytes.Some? ==> Volume(tr, now, k, len, limits.value.period) <= limits.value.maxBytes.value)
  }

  /** The answer that the log alone prescribes. */
  ghost function HistoryCheck(cfg: Config, log: Log, now: Time, conn: string, ip: Ip, len: nat): Event {
    if BannedAt(ConnTrace(log), cfg.banDuration, conn, now)
       || BannedAt(IpTrace(log), cfg.banDuration, ip, now) then
      Checked(now, conn, ip, len, Banned, false, false)
    else
      var connOver := !Within(cfg.connection, ConnTrace(log), now, conn, len);
      var ipOver := !Within(cfg.ip, IpTrace(log), now, ip, len);
      Checked(now, conn, ip, len, if connOver || ipOver then Limited else Allowed, connOver, ipOver)
  }

  /** The specification of a run: no counters, no ban table, no cleanup. */
  ghost function HistoryRun(cfg: Config, ops: seq<Op>): Log {
    if ops == [] then []
    else
      var log := HistoryRun(cfg, ops[..|ops| - 1]);
      match ops[|ops| - 1]
      case DoCheck(now, conn, ip, len) => log + [HistoryCheck(cfg, log, now, conn, ip, len)]
      case DoQuery(now, ip) => log + [Asked(now, ip, BannedAt(IpTrace(log), cfg.banDuration, ip, now))]
      case DoCleanup(_) => log
  }

  lemma OverIsHistory<K(!new)>(
    limits: Option<LimitConfig>, ban: Option<Time>, d: Dim<K>, tr: Trace<K>, now: Time, k: K, len: nat)
    requires limits.Some? ==> CounterMatches(d, tr, k, limits.value.period, now)
    requires limits.Some? ==> ByteGuard(limits.value, len)
    requires Chronological(tr, now)
    ensures Record(d, limits, ban, now, k, len).1 == !Within(limits, tr, now, k, len)
  {
    if limits.Some? {
      var r := Rec(now, k, len, false, false);
      RecordMatchesCounter(d, limits.value, ban, tr, now, r, k);
      Appended(tr, r, k, limits.value.period);
      if k !in d.counters {
        assert Total(tr, k, |tr|, One) == 0 && Total(tr, k, |tr|, Size) == 0;
      }
    }
  }

  lemma CheckIsHistory(cfg: Config, s: State, log: Log, op: Op)
    requires op.DoCheck? && Matches(cfg, s, log, op.now) && Guarded(cfg, [op])
    ensures Step(cfg, s, log, op).1 == log + [HistoryCheck(cfg, log, op.now, op.conn, op.ip, op.len)]
  {
    assert [op][0] == op;
    CheckAnswersExactly(cfg, s, log, op);
    var connDim, ipDim := DropExpired(s.conn, op.now, op.conn), DropExpired(s.ip, op.now, op.ip);
    if cfg.connection.Some? {
      assert CounterMatches(s.conn, ConnTrace(log), op.conn, cfg.connection.value.period, op.now);
    }
    if cfg.ip.Some? {
      assert CounterMatches(s.ip, IpTrace(log), op.ip, cfg.ip.value.period, op.now);
    }
    OverIsHistory(cfg.connection, cfg.banDuration, connDim, ConnTrace(log), op.now, op.conn, op.len);
    OverIsHistory(cfg.ip, cfg.banDuration, ipDim, IpTrace(log), op.now, op.ip, op.len);
  }

  /** The limiter refines the history specification: every answer of every guarded run is the prescribed one. */
  lemma {:induction false} VerdictsAreHistory(cfg: Config, ops: seq<Op>)
    requires Monotone(ops) && Guarded(cfg, ops)
    ensures Run(cfg, ops).1 == HistoryRun(cfg, ops)
  {
    if ops == [] {
    } else {
      var front, op := ops[..|ops| - 1], ops[|ops| - 1];
      MonotonePrefix(ops);
      VerdictsAreHistory(cfg, front);
      CountersAreHistory(cfg, front, op.now);
      var (s, log) := Run(cfg, front);
      match op
      case DoCheck(now, conn, ip, len) =>
        CheckIsHistory(cfg, s, log, op);
      case DoQuery(now, ip) =>
        assert BanMatches(s.ip, IpTrace(log), ip, cfg.banDuration, now);
        BanIsHistory(s.ip, IpTrace(log), ip, cfg.banDuration, now);
      case DoCleanup(_) =>
    }
  }

  // ----- Exactly which calls pass -----

  /** The verdict on a call that no ban covers, from the log before it alone. */
  ghost predicate VerdictExact(cfg: Config, log: Log, e: Event) {
    e.Checked? && e.verdict != Banned ==>
      (e.verdict == Allowed
       <==> Within(cfg.connection, ConnTrace(log), e.now, e.conn, e.len) && Within(cfg.ip, IpTrace(log), e.now, e.ip, e.len))
  }

  ghost predicate VerdictsExact(cfg: Config, log: Log) {
    forall i :: 0 <= i < |log| ==> VerdictExact(cfg, log[..i], log[i])
  }

  lemma VerdictExtends(cfg: Config, log: Log, e: Event)
    requires VerdictsExact(cfg, log) && VerdictExact(cfg, log, e)
    ensures VerdictsExact(cfg, log + [e])
  {
    var log' := log + [e];
    forall i | 0 <= i < |log'|
      ensures VerdictExact(cfg, log'[..i], log'[i])
    {
      assert log'[..i] == log[..i];
      assert log[..|log|] == log;
    }
  }

  /**
   * In every guarded run, a call that is not banned is Allowed if and only if, in both dimensions, the
   * calls and the bytes of its window, itself included, are within the limits.
   */
  lemma {:induction false} AllowedIff(cfg: Config, ops: seq<Op>)
    requires Monotone(ops) && Guarded(cfg, ops)
    ensures VerdictsExact(cfg, Run(cfg, ops).1)
  {
    if ops == [] {
    } else {
      var front, op := ops[..|ops| - 1], ops[|ops| - 1];
      MonotonePrefix(ops);
      AllowedIff(cfg, front);
      CountersAreHistory(cfg, front, op.now);
      var (s, log) := Run(cfg, front);
      match op
      case DoCheck(now, conn, ip, len) =>
        CheckIsHistory(cfg, s, log, op);
        VerdictExtends(cfg, log, HistoryCheck(cfg, log, now, conn, ip, len));
      case DoQuery(now, ip) =>
        VerdictExtends(cfg, log, Asked(now, ip, IsBanned(s.ip, now, ip)));
      case DoCleanup(_) =>
    }
  }

  /** With a message limit on connections alone, exactly the first `max` calls of each window pass. */
  lemma FirstCallsPass(cfg: Config, ops: seq<Op>, period: Time, max: nat, i: nat)
    requires Monotone(ops) && cfg == Config(Some(LimitConfig(period, Some(max), None)), None, None)
    requires i < |Run(cfg, ops).1| && Run(cfg, ops).1[i].Checked?
    ensures var log := Run(cfg, ops).1;
            var e := log[i];
            e.verdict == if Calls(ConnTrace(log[..i]), e.now, e.conn, e.len, period) <= max then Allowed else Limited
  {
    AllowedIff(cfg, ops);
    BansAreExact(cfg, ops);
    var log := Run(cfg, ops).1;
    assert VerdictExact(cfg, log[..i], log[i]) && BanAnswerExact(cfg, log[..i], log[i]);
  }

  // ----- Cleanup is invisible -----

  function WithoutCleanup(ops: seq<Op>): seq<Op> {
    if ops == [] then []
    else WithoutCleanup(ops[..|ops| - 1])
         + (if ops[|ops| - 1].DoCleanup? then [] else [ops[|ops| - 1]])
  }

  lemma {:induction false} WithoutCleanupIsARun(cfg: Config, ops: seq<Op>)
    requires Monotone(ops) && Guarded(cfg, ops)
    ensures Monotone(WithoutCleanup(ops)) && Guarded(cfg, WithoutCleanup(ops))
    ensures forall i :: 0 <= i < |WithoutCleanup(ops)| ==> WithoutCleanup(ops)[i].now <= Clock(ops)
  {
    if ops == [] {
    } else {
      MonotonePrefix(ops);
      WithoutCleanupIsARun(cfg, ops[..|ops| - 1]);
    }
  }

  lemma {:induction false} HistoryIgnoresCleanup(cfg: Config, ops: seq<Op>)
    ensures HistoryRun(cfg, WithoutCleanup(ops)) == HistoryRun(cfg, ops)
  {
    if ops == [] {
    } else {
      var front, op := ops[..|ops| - 1], ops[|ops| - 1];
      HistoryIgnoresCleanup(cfg, front);
      var kept := WithoutCleanup(front);
      if op.DoCleanup? {
        assert kept + [] == kept;
      } else {
        assert (kept + [op])[..|kept|] == kept;
      }
    }
  }

  /** Inserting `cleanup` anywhere in a guarded run changes no answer. */
  lemma CleanupIsInvisible(cfg: Config, ops: seq<Op>)
    requires Monotone(ops) && Guarded(cfg, ops)
    ensures Run(cfg, ops).1 == Run(cfg, WithoutCleanup(ops)).1
  {
    WithoutCleanupIsARun(cfg, ops);
    HistoryIgnoresCleanup(cfg, ops);
    VerdictsAreHistory(cfg, ops);
    VerdictsAreHistory(cfg, WithoutCleanup(ops));
  }

  /**
   * Exactly when eviction is invisible in one dimension: a frame on an evicted counter is judged as
   * on the elapsed counter if and only if no message is ever allowed or the byte guard holds.
   */
  lemma EvictionInvisibleIff<K>(
    d: Dim<K>, limits: LimitConfig, ban: Option<Time>, now: Time, k: K, len: nat)
    requires k in d.counters && Since(now, d.counters[k].windowStart) >= limits.period
    ensures Record(Dim(d.counters - {k}, d.bans), Some(limits), ban, now, k, len).1
              == Record(d, Some(limits), ban, now, k, len).1
            <==> limits.maxMessages == Some(0) || ByteGuard(limits, len)
  {
  }

  /** The longest configured period, or one minute if none is configured. */
  predicate Longest(cfg: Config, p: Time) {
    && (cfg.connection.Some? ==> cfg.connection.value.period <= p)
    && (cfg.ip.Some? ==> cfg.ip.value.period <= p)
    && (|| (cfg.connection.Some? && cfg.connection.value.period == p)
        || (cfg.ip.Some? && cfg.ip.value.period == p)
        || (cfg.connection.None? && cfg.ip.None? && p == 60 * 1_000_000_000))
  }

  /** What one sweep keeps of a map of counters and a map of bans. */
  ghost predicate KeptBy<K(!new)>(d: Dim<K>, d': Dim<K>, now: Time, p: Time) {
    && (forall k :: k in d'.counters <==> k in d.counters && now < d.counters[k].windowStart + 2 * p)
    && (forall k :: k in d'.bans <==> k in d.bans && now < d.bans[k])
    && (forall k :: k in d'.counters ==> d'.counters[k] == d.counters[k])
    && (forall k :: k in d'.bans ==> d'.bans[k] == d.bans[k])
  }

  /** Cleanup keeps exactly the windows younger than twice the longest period, and the running bans. */
  lemma CleanupKeepsExactly(cfg: Config, s: State, now: Time, p: Time)
    requires Longest(cfg, p)
    requires forall k :: k in s.conn.counters ==> s.conn.counters[k].windowStart <= now
    requires forall k :: k in s.ip.counters ==> s.ip.counters[k].windowStart <= now
    ensures KeptBy(s.conn, Swept(cfg, s, now).conn, now, p) && KeptBy(s.ip, Swept(cfg, s, now).ip, now, p)
  {
    assert MaxPeriod(cfg) == p;
  }

  lemma RunAppend(cfg: Config, ops: seq<Op>, op: Op)
    ensures Run(cfg, ops + [op]) == Step(cfg, Run(cfg, ops).0, Run(cfg, ops).1, op)
    ensures WithoutCleanup(ops + [op]) == WithoutCleanup(ops) + if op.DoCleanup? then [] else [op]
  {
    assert (ops + [op])[..|ops|] == ops;
  }

  /** Without the guard it fails: a frame above the byte limit passes again once its counter is evicted. */
  lemma CleanupVisibleWithoutGuard(cfg: Config, ops: seq<Op>)
    requires cfg == Config(Some(LimitConfig(1, None, Some(10))), None, None)
    requires ops == [] + [DoCheck(0, "c", 0, 5)] + [DoCleanup(2)] + [DoCheck(2, "c", 0, 11)]
    ensures Monotone(ops) && Run(cfg, ops).1 != Run(cfg, WithoutCleanup(ops)).1
  {
    var a, b, c := DoCheck(0, "c", 0, 5), DoCleanup(2), DoCheck(2, "c", 0, 11);
    RunAppend(cfg, [], a);
    RunAppend(cfg, [] + [a], b);
    RunAppend(cfg, [] + [a] + [b], c);
    assert WithoutCleanup(ops) == [] + [a] + [c];
    RunAppend(cfg, [] + [a], c);
    var (s, log) := Run(cfg, [] + [a]);
    assert s.conn.counters == map["c" := Counter(0, 1, 5)] && s.conn.bans == map[] && s.ip == EMPTY.ip;
    JudgedAfterEviction(cfg, s, log, c);
  }

  lemma JudgedAfterEviction(cfg: Config, s: State, log: Log, op: Op)
    requires cfg == Config(Some(LimitConfig(1, None, Some(10))), None, None)
    requires s.conn == Dim(map["c" := Counter(0, 1, 5)], map[]) && s.ip == EMPTY.ip
    requires op == DoCheck(2, "c", 0, 11)
    ensures Step(cfg, s, log, op).1 != Step(cfg, Swept(cfg, s, 2), log, op).1
  {
    assert Check(cfg, s, 2, "c", 0, 11).verdict == Limited;
    assert "c" !in Swept(cfg, s, 2).conn.counters;
    assert Check(cfg, Swept(cfg, s, 2), 2, "c", 0, 11).verdict == Allowed;
    var n := |log|;
    assert Step(cfg, s, log, op).1[n].verdict == Limited;
    assert Step(cfg, Swept(cfg, s, 2), log, op).1[n].verdict == Allowed;
  }

  // ----- Window bounds -----

  /** Summed cost of the key's allowed records with time in `[a, a + span)`. */
  function AllowedIn<K(==)>(tr: Trace<K>, k: K, a: Time, span: Time, cost: Rec<K> -> nat): nat {
    if tr == [] then 0
    else
      var r := tr[|tr| - 1];
      AllowedIn(tr[..|tr| - 1], k, a, span, cost)
      + (if r.key == k && r.allowed && a <= r.now < a + span then cost(r) else 0)
  }

  /** Summed cost of the key's allowed records from index `from` on. */
  function AllowedSince<K(==)>(tr: Trace<K>, k: K, from: nat, cost: Rec<K> -> nat): nat {
    if |tr| <= from then 0
    else
      var r := tr[|tr| - 1];
      AllowedSince(tr[..|tr| - 1], k, from, cost) + (if r.key == k && r.allowed then cost(r) else 0)
  }

  /** Whenever a record of the key is allowed, its window so far, itself included, is within the cap. */
  ghost predicate Capped<K>(tr: Trace<K>, k: K, period: Time, cost: Rec<K> -> nat, cap: nat) {
    forall n :: 0 <= n < |tr| && tr[n].key == k && tr[n].allowed ==>
      var w := Window(tr[..n + 1], k, period);
      w.Some? && Total(tr[..n + 1], k, w.value, cost) <= cap
  }

  lemma CappedPrefix<K(!new)>(tr: Trace<K>, k: K, period: Time, cost: Rec<K> -> nat, cap: nat)
    requires tr != [] && Capped(tr, k, period, cost, cap)
    ensures Capped(tr[..|tr| - 1], k, period, cost, cap)
  {
    var front := tr[..|tr| - 1];
    forall n | 0 <= n < |front| && front[n].key == k && front[n].allowed
      ensures var w := Window(front[..n + 1], k, period);
              w.Some? && Total(front[..n + 1], k, w.value, cost) <= cap
    {
      assert front[..n + 1] == tr[..n + 1];
      assert tr[n].key == k;
    }
  }

  /** Allowed cost within the current window is bounded by its total and by the cap. */
  lemma {:induction false} WindowBound<K(!new)>(
    tr: Trace<K>, k: K, period: Time, cost: Rec<K> -> nat, cap: nat)
    requires Capped(tr, k, period, cost, cap)
    ensures var w := Window(tr, k, period);
            w.Some? ==> AllowedSince(tr, k, w.value, cost) <= Total(tr, k, w.value, cost)
                        && AllowedSince(tr, k, w.value, cost) <= cap
  {
    if tr == [] {
    } else {
      var n := |tr| - 1;
      var front, r := tr[..n], tr[n];
      assert tr[..n + 1] == tr;
      CappedPrefix(tr, k, period, cost, cap);
      WindowBound(front, k, period, cost, cap);
      assert Total(front, k, n, cost) == 0 && AllowedSince(front, k, n, cost) == 0;
    }
  }

  lemma {:induction false} NothingBefore<K(!new)>(
    tr: Trace<K>, k: K, a: Time, span: Time, cost: Rec<K> -> nat, now: Time)
    requires Chronological(tr, now) && now < a
    ensures AllowedIn(tr, k, a, span, cost) == 0
  {
    if tr == [] {
    } else {
      NothingBefore(tr[..|tr| - 1], k, a, span, cost, now);
    }
  }

  /** How much of the span can be used up, by where the current window started. */
  ghost predicate SpanUse<K>(
    tr: Trace<K>, k: K, a: Time, period: Time, cost: Rec<K> -> nat, cap: nat)
  {
    var w := Window(tr, k, period);
    var used := AllowedIn(tr, k, a, period, cost);
    if w.None? then used == 0
    else
      var start, current := tr[w.value].now, AllowedSince(tr, k, w.value, cost);
      if start < a then used <= current
      else if start < a + period then used <= cap + current
      else used <= 2 * cap
  }

  lemma SpanStep<K(!new)>(
    tr: Trace<K>, k: K, a: Time, period: Time, cost: Rec<K> -> nat, cap: nat)
    requires tr != [] && Chronological(tr, tr[|tr| - 1].now) && Capped(tr, k, period, cost, cap)
    requires SpanUse(tr[..|tr| - 1], k, a, period, cost, cap)
    ensures SpanUse(tr, k, a, period, cost, cap)
  {
    var n := |tr| - 1;
    var front, r := tr[..n], tr[n];
    CappedPrefix(tr, k, period, cost, cap);
    WindowBound(front, k, period, cost, cap);
    assert AllowedSince(front, k, n, cost) == 0;
    if r.key == k && r.now < a {
      NothingBefore(front, k, a, period, cost, r.now);
    }
  }

  lemma {:induction false} SpanBound<K(!new)>(
    tr: Trace<K>, k: K, a: Time, period: Time, cost: Rec<K> -> nat, cap: nat, now: Time)
    requires Chronological(tr, now) && Capped(tr, k, period, cost, cap)
    ensures SpanUse(tr, k, a, period, cost, cap)
    ensures AllowedIn(tr, k, a, period, cost) <= 2 * cap
  {
    if tr == [] {
    } else {
      CappedPrefix(tr, k, period, cost, cap);
      SpanBound(tr[..|tr| - 1], k, a, period, cost, cap, now);
      SpanStep(tr, k, a, period, cost, cap);
    }
    WindowBound(tr, k, period, cost, cap);
  }

  /** No single allowed frame of the key is longer than the cap. */
  ghost predicate NoneLonger<K>(tr: Trace<K>, k: K, cap: nat) {
    forall n :: 0 <= n < |tr| && tr[n].key == k && tr[n].allowed ==> tr[n].len <= cap
  }

  /** Messages are capped by `max_messages`; bytes by `max_bytes` if and only if no single frame exceeds it. */
  ghost predicate DimCapped<K>(limits: Option<LimitConfig>, tr: Trace<K>, k: K) {
    limits.Some? ==>
      && (limits.value.maxMessages.Some? ==>
            Capped(tr, k, limits.value.period, One, limits.value.maxMessages.value))
      && (limits.value.maxBytes.Some? ==>
            (Capped(tr, k, limits.value.period, Size, limits.value.maxBytes.value)
             <==> NoneLonger(tr, k, limits.value.maxBytes.value)))
  }

  /** The window that the latest record falls into is within the cap, if that record counts. */
  ghost predicate LatestWithin<K>(tr: Trace<K>, k: K, period: Time, cost: Rec<K> -> nat, cap: nat)
    requires tr != []
  {
    var r := tr[|tr| - 1];
    r.key == k && r.allowed ==>
      var w := Window(tr, k, period);
      w.Some? && Total(tr, k, w.value, cost) <= cap
  }

  lemma CappedExtends<K(!new)>(
    tr: Trace<K>, r: Rec<K>, k: K, period: Time, cost: Rec<K> -> nat, cap: nat)
    ensures Capped(tr + [r], k, period, cost, cap)
            <==> Capped(tr, k, period, cost, cap) && LatestWithin(tr + [r], k, period, cost, cap)
  {
    var tr' := tr + [r];
    assert tr'[..|tr'|] == tr' && tr'[..|tr|] == tr;
    if Capped(tr', k, period, cost, cap) {
      CappedPrefix(tr', k, period, cost, cap);
      assert tr'[|tr|] == r;
    }
    if Capped(tr, k, period, cost, cap) && LatestWithin(tr', k, period, cost, cap) {
      forall n | 0 <= n < |tr'| && tr'[n].key == k && tr'[n].allowed
        ensures var w := Window(tr'[..n + 1], k, period);
                w.Some? && Total(tr'[..n + 1], k, w.value, cost) <= cap
      {
        if n < |tr| {
          assert tr'[..n + 1] == tr[..n + 1];
          assert tr[n].key == k;
        } else {
          assert tr'[..n + 1] == tr';
        }
      }
    }
  }

  lemma LongerExtends<K(!new)>(tr: Trace<K>, r: Rec<K>, k: K, cap: nat)
    ensures NoneLonger(tr + [r], k, cap)
            <==> NoneLonger(tr, k, cap) && (r.key == k && r.allowed ==> r.len <= cap)
  {
    var tr' := tr + [r];
    assert tr'[|tr|] == r && forall n :: 0 <= n < |tr| ==> tr'[n] == tr[n];
  }

  /** An allowed frame is within the message cap, and within the byte cap if it is by itself. */
  lemma LatestIsWithin<K(!new)>(limits: LimitConfig, ban: Option<Time>, d: Dim<K>, tr: Trace<K>, r: Rec<K>, k: K)
    requires CounterMatches(d, tr, k, limits.period, r.now) && Chronological(tr, r.now)
    requires r.allowed ==> !Record(d, Some(limits), ban, r.now, r.key, r.len).1
    ensures limits.maxMessages.Some? ==> LatestWithin(tr + [r], k, limits.period, One, limits.maxMessages.value)
    ensures limits.maxBytes.Some? ==>
              (LatestWithin(tr + [r], k, limits.period, Size, limits.maxBytes.value)
               <==> (r.key == k && r.allowed ==> r.len <= limits.maxBytes.value))
  {
    RecordMatchesCounter(d, limits, ban, tr, r.now, r, k);
    Appended(tr, r, k, limits.period);
    assert (tr + [r])[|tr|] == r;
  }

  lemma RecordCapped<K(!new)>(
    limits: Option<LimitConfig>, ban: Option<Time>, d: Dim<K>, tr: Trace<K>, now: Time, r: Rec<K>, k: K)
    requires DimMatches(limits, ban, d, tr, now) && DimCapped(limits, tr, k)
    requires r.now == now && (r.allowed ==> !Record(d, limits, ban, now, r.key, r.len).1)
    ensures DimCapped(limits, tr + [r], k)
  {
    if limits.Some? {
      assert CounterMatches(d, tr, k, limits.value.period, now);
      LatestIsWithin(limits.value, ban, d, tr, r, k);
      if limits.value.maxMessages.Some? {
        CappedExtends(tr, r, k, limits.value.period, One, limits.value.maxMessages.value);
      }
      if limits.value.maxBytes.Some? {
        CappedExtends(tr, r, k, limits.value.period, Size, limits.value.maxBytes.value);
        LongerExtends(tr, r, k, limits.value.maxBytes.value);
      }
    }
  }

  lemma CheckCapped(cfg: Config, s: State, log: Log, op: Op, conn: string, ip: Ip)
    requires op.DoCheck? && Matches(cfg, s, log, op.now)
    requires DimCapped(cfg.connection, ConnTrace(log), conn) && DimCapped(cfg.ip, IpTrace(log), ip)
    ensures DimCapped(cfg.connection, ConnTrace(Step(cfg, s, log, op).1), conn)
    ensures DimCapped(cfg.ip, IpTrace(Step(cfg, s, log, op).1), ip)
  {
    var o := Check(cfg, s, op.now, op.conn, op.ip, op.len);
    TraceAppend(log, Checked(op.now, op.conn, op.ip, op.len, o.verdict, o.connOver, o.ipOver));
    if o.verdict == Banned {
      assert ConnTrace(log) + [] == ConnTrace(log) && IpTrace(log) + [] == IpTrace(log);
    } else {
      DropMatches(cfg.connection, cfg.banDuration, s.conn, ConnTrace(log), op.now, op.conn);
      DropMatches(cfg.ip, cfg.banDuration, s.ip, IpTrace(log), op.now, op.ip);
      RecordCapped(cfg.connection, cfg.banDuration, DropExpired(s.conn, op.now, op.conn),
                   ConnTrace(log), op.now,
                   Rec(op.now, op.conn, op.len, o.connOver, o.verdict == Allowed), conn);
      RecordCapped(cfg.ip, cfg.banDuration, DropExpired(s.ip, op.now, op.ip),
                   IpTrace(log), op.now,
                   Rec(op.now, op.ip, op.len, o.ipOver, o.verdict == Allowed), ip);
    }
  }

  /**
   * In every run, each window of a key is within the message limit, and each is within the byte limit if
   * and only if no single allowed frame of the key is longer than that limit.
   */
  lemma {:induction false} WindowsAreCapped(cfg: Config, ops: seq<Op>, conn: string, ip: Ip)
    requires Monotone(ops)
    ensures DimCapped(cfg.connection, ConnTrace(Run(cfg, ops).1), conn)
    ensures DimCapped(cfg.ip, IpTrace(Run(cfg, ops).1), ip)
  {
    if ops == [] {
    } else {
      var front, op := ops[..|ops| - 1], ops[|ops| - 1];
      MonotonePrefix(ops);
      WindowsAreCapped(cfg, front, conn, ip);
      CountersAreHistory(cfg, front, op.now);
      var (s, log) := Run(cfg, front);
      match op
      case DoCheck(_, _, _, _) =>
        CheckCapped(cfg, s, log, op, conn, ip);
      case DoQuery(now, asked) =>
        TraceAppend(log, Asked(now, asked, IsBanned(s.ip, now, asked)));
        assert ConnTrace(log) + [] == ConnTrace(log) && IpTrace(log) + [] == IpTrace(log);
      case DoCleanup(_) =>
    }
  }

  // ----- When a frame can be longer than the byte limit -----

  /** Under this guard an allowed frame is never longer than the byte limit. */
  predicate CapGuard(limits: LimitConfig, len: nat) {
    || limits.maxMessages == Some(0) || limits.maxBytes.None? || limits.maxBytes == Some(0)
    || len <= limits.maxBytes.value
  }

  /** For a frame that opens a counter, the guard is exact. */
  lemma FirstFrameWithinLimitIff<K>(d: Dim<K>, limits: LimitConfig, ban: Option<Time>, now: Time, k: K, len: nat)
    requires k !in d.counters && limits.maxBytes.Some?
    ensures (!Record(d, Some(limits), ban, now, k, len).1 ==> len <= limits.maxBytes.value) <==> CapGuard(limits, len)
  {
  }

  /** A frame that joins a counter is tested against the limit in any case. */
  lemma LaterFrameWithinLimit<K>(d: Dim<K>, limits: LimitConfig, ban: Option<Time>, now: Time, k: K, len: nat)
    requires k in d.counters && limits.maxBytes.Some?
    ensures !Record(d, Some(limits), ban, now, k, len).1 ==> len <= limits.maxBytes.value
  {
  }

  predicate CapGuarded(limits: Option<LimitConfig>, ops: seq<Op>) {
    limits.Some? ==> forall i :: 0 <= i < |ops| && ops[i].DoCheck? ==> CapGuard(limits.value, ops[i].len)
  }

  lemma RecordNotLonger<K(!new)>(
    limits: LimitConfig, ban: Option<Time>, d: Dim<K>, tr: Trace<K>, r: Rec<K>, k: K)
    requires limits.maxBytes.Some? && CapGuard(limits, r.len) && NoneLonger(tr, k, limits.maxBytes.value)
    requires r.allowed ==> !Record(d, Some(limits), ban, r.now, r.key, r.len).1
    ensures NoneLonger(tr + [r], k, limits.maxBytes.value)
  {
    if r.key in d.counters {
      LaterFrameWithinLimit(d, limits, ban, r.now, r.key, r.len);
    } else {
      FirstFrameWithinLimitIff(d, limits, ban, r.now, r.key, r.len);
    }
    LongerExtends(tr, r, k, limits.maxBytes.value);
  }

  ghost predicate DimFits<K>(limits: Option<LimitConfig>, tr: Trace<K>, k: K) {
    limits.Some? && limits.value.maxBytes.Some? ==> NoneLonger(tr, k, limits.value.maxBytes.value)
  }

  lemma CheckFits(cfg: Config, s: State, log: Log, op: Op, conn: string, ip: Ip)
    requires op.DoCheck?
    ensures CapGuarded(cfg.connection, [op]) && DimFits(cfg.connection, ConnTrace(log), conn) ==>
              DimFits(cfg.connection, ConnTrace(Step(cfg, s, log, op).1), conn)
    ensures CapGuarded(cfg.ip, [op]) && DimFits(cfg.ip, IpTrace(log), ip) ==>
              DimFits(cfg.ip, IpTrace(Step(cfg, s, log, op).1), ip)
  {
    var o := Check(cfg, s, op.now, op.conn, op.ip, op.len);
    assert [op][0].DoCheck?;
    TraceAppend(log, Checked(op.now, op.conn, op.ip, op.len, o.verdict, o.connOver, o.ipOver));
    if o.verdict == Banned {
      assert ConnTrace(log) + [] == ConnTrace(log) && IpTrace(log) + [] == IpTrace(log);
    } else {
      var c, i := Rec(op.now, op.conn, op.len, o.connOver, o.verdict == Allowed),
                  Rec(op.now, op.ip, op.len, o.ipOver, o.verdict == Allowed);
      if cfg.connection.Some? && cfg.connection.value.maxBytes.Some? && CapGuard(cfg.connection.value, op.len)
         && DimFits(cfg.connection, ConnTrace(log), conn) {
        RecordNotLonger(cfg.connection.value, cfg.banDuration, DropExpired(s.conn, op.now, op.conn),
                        ConnTrace(log), c, conn);
      }
      if cfg.ip.Some? && cfg.ip.value.maxBytes.Some? && CapGuard(cfg.ip.value, op.len)
         && DimFits(cfg.ip, IpTrace(log), ip) {
        RecordNotLonger(cfg.ip.value, cfg.banDuration, DropExpired(s.ip, op.now, op.ip), IpTrace(log), i, ip);
      }
    }
  }

  /** If every frame meets the guard of a dimension, no allowed frame is longer than its byte limit. */
  lemma {:induction false} GuardedFramesFit(cfg: Config, ops: seq<Op>, conn: string, ip: Ip)
    ensures CapGuarded(cfg.connection, ops) ==> DimFits(cfg.connection, ConnTrace(Run(cfg, ops).1), conn)
    ensures CapGuarded(cfg.ip, ops) ==> DimFits(cfg.ip, IpTrace(Run(cfg, ops).1), ip)
  {
    if ops == [] {
    } else {
      var front, op := ops[..|ops| - 1], ops[|ops| - 1];
      GuardedFramesFit(cfg, front, conn, ip);
      assert CapGuarded(cfg.connection, ops) ==> CapGuarded(cfg.connection, front) && CapGuarded(cfg.connection, [op]);
      assert CapGuarded(cfg.ip, ops) ==> CapGuarded(cfg.ip, front) && CapGuarded(cfg.ip, [op]);
      var (s, log) := Run(cfg, front);
      match op
      case DoCheck(_, _, _, _) =>
        CheckFits(cfg, s, log, op, conn, ip);
      case DoQuery(now, asked) =>
        TraceAppend(log, Asked(now, asked, IsBanned(s.ip, now, asked)));
        assert ConnTrace(log) + [] == ConnTrace(log) && IpTrace(log) + [] == IpTrace(log);
      case DoCleanup(_) =>
    }
  }

  /** Without the guard a first frame above the byte limit is allowed, and its window exceeds the limit. */
  lemma LongFirstFrameIsAllowed(cfg: Config, ops: seq<Op>)
    requires cfg == Config(Some(LimitConfig(1, None, Some(10))), None, None) && ops == [DoCheck(0, "c", 0, 11)]
    ensures var tr := ConnTrace(Run(cfg, ops).1);
            && tr == [Rec(0, "c", 11, false, true)]
            && Window(tr, "c", 1) == Some(0) && AllowedSince(tr, "c", 0, Size) == 11
  {
    var op := DoCheck(0, "c", 0, 11);
    assert ops == [] + [op];
    RunAppend(cfg, [], op);
    var o := Check(cfg, EMPTY, 0, "c", 0, 11);
    assert o.verdict == Allowed && !o.connOver;
    TraceAppend([], Checked(0, "c", 0, 11, o.verdict, o.connOver, o.ipOver));
    var tr: Trace<string> := [Rec(0, "c", 11, false, true)];
    assert ConnTrace(Run(cfg, ops).1) == tr;
    Appended([], tr[0], "c", 1);
    assert [] + [tr[0]] == tr && tr[..0] == [];
  }

  /** The two bounds on one key: within its current window, and in any interval of one period. */
  ghost predicate Bounded<K>(tr: Trace<K>, k: K, period: Time, a: Time, cost: Rec<K> -> nat, cap: nat) {
    var w := Window(tr, k, period);
    && (w.Some? ==> AllowedSince(tr, k, w.value, cost) <= cap)
    && AllowedIn(tr, k, a, period, cost) <= 2 * cap
  }

  /** The bounds of one dimension; those on bytes for keys without an over-long frame. */
  ghost predicate DimBounded<K>(limits: Option<LimitConfig>, tr: Trace<K>, k: K, a: Time) {
    limits.Some? ==>
      && (limits.value.maxMessages.Some? ==>
            Bounded(tr, k, limits.value.period, a, One, limits.value.maxMessages.value))
      && (limits.value.maxBytes.Some? && NoneLonger(tr, k, limits.value.maxBytes.value) ==>
            Bounded(tr, k, limits.value.period, a, Size, limits.value.maxBytes.value))
  }

  lemma CappedIsBounded<K(!new)>(limits: Option<LimitConfig>, tr: Trace<K>, k: K, a: Time, now: Time)
    requires Chronological(tr, now) && DimCapped(limits, tr, k)
    ensures DimBounded(limits, tr, k, a)
  {
    if limits.Some? {
      var period := limits.value.period;
      if limits.value.maxMessages.Some? {
        WindowBound(tr, k, period, One, limits.value.maxMessages.value);
        SpanBound(tr, k, a, period, One, limits.value.maxMessages.value, now);
      }
      if limits.value.maxBytes.Some? && NoneLonger(tr, k, limits.value.maxBytes.value) {
        WindowBound(tr, k, period, Size, limits.value.maxBytes.value);
        SpanBound(tr, k, a, period, Size, limits.value.maxBytes.value, now);
      }
    }
  }

  /**
   * In every run, the messages allowed for a key within one window never exceed `max_messages`, and those
   * allowed in any half-open interval of one period never exceed twice that. The same holds for bytes and
   * `max_bytes` if no single allowed frame of the key is longer, which the guard on frames ensures.
   */
  lemma AllowedTrafficIsBounded(cfg: Config, ops: seq<Op>, conn: string, ip: Ip, a: Time)
    requires Monotone(ops)
    ensures DimBounded(cfg.connection, ConnTrace(Run(cfg, ops).1), conn, a)
    ensures DimBounded(cfg.ip, IpTrace(Run(cfg, ops).1), ip, a)
    ensures CapGuarded(cfg.connection, ops) ==> DimFits(cfg.connection, ConnTrace(Run(cfg, ops).1), conn)
    ensures CapGuarded(cfg.ip, ops) ==> DimFits(cfg.ip, IpTrace(Run(cfg, ops).1), ip)
  {
    WindowsAreCapped(cfg, ops, conn, ip);
    CountersAreHistory(cfg, ops, Clock(ops));
    var log := Run(cfg, ops).1;
    CappedIsBounded(cfg.connection, ConnTrace(log), conn, a, Clock(ops));
    CappedIsBounded(cfg.ip, IpTrace(log), ip, a, Clock(ops));
    GuardedFramesFit(cfg, ops, conn, ip);
  }
}
