/** Fixed-window rate limiting with bans: `RateLimiterState`. */
module RateLimiter {
  import opened Wrappers

  /** Instants and durations in nanoseconds. */
  type Time = nat

  type Ip = nat

  datatype LimitConfig = LimitConfig(period: Time, maxMessages: Option<nat>, maxBytes: Option<nat>)

  datatype Config = Config(
    connection: Option<LimitConfig>, ip: Option<LimitConfig>, banDuration: Option<Time>)

  datatype Verdict = Allowed | Limited | Banned

  datatype Counter = Counter(windowStart: Time, messages: nat, bytes: nat)

  /** One dimension of the limiter: its window counters and its ban expiries. */
  datatype Dim<!K> = Dim(counters: map<K, Counter>, bans: map<K, Time>)

  datatype State = State(conn: Dim<string>, ip: Dim<Ip>)

  /** `now.duration_since(earlier)`, which saturates at zero. */
  function Since(now: Time, earlier: Time): Time {
    if now >= earlier then now - earlier else 0
  }

  function MaybeReset(c: Counter, now: Time, period: Time): Counter {
    if Since(now, c.windowStart) >= period then Counter(now, 0, 0) else c
  }

  predicate Exceeds(c: Counter, cfg: LimitConfig) {
    || (cfg.maxMessages.Some? && c.messages > cfg.maxMessages.value)
    || (cfg.maxBytes.Some? && c.bytes > cfg.maxBytes.value)
  }

  /** The test of the first-insert branch, which looks only for zero limits. */
  predicate ZeroLimit(cfg: LimitConfig) {
    cfg.maxMessages == Some(0) || cfg.maxBytes == Some(0)
  }

  predicate IsBanned<K>(d: Dim<K>, now: Time, k: K) {
    k in d.bans && now < d.bans[k]
  }

  /** Lazy removal of an expired ban. */
  function DropExpired<K>(d: Dim<K>, now: Time, k: K): Dim<K> {
    if k in d.bans && !(now < d.bans[k]) then Dim(d.counters, d.bans - {k}) else d
  }

  /** Counts one frame in one dimension; the flag says whether a limit was exceeded. */
  function Record<K>(
    d: Dim<K>, limits: Option<LimitConfig>, ban: Option<Time>, now: Time, k: K, len: nat)
    : (Dim<K>, bool)
  {
    if limits.None? then (d, false)
    else
      var cfg := limits.value;
      var known := k in d.counters;
      var reset := if known then MaybeReset(d.counters[k], now, cfg.period) else Counter(now, 0, 0);
      var c := Counter(reset.windowStart, reset.messages + 1, reset.bytes + len);
      var over := if known then Exceeds(c, cfg) else ZeroLimit(cfg);
      (Dim(d.counters[k := c], if over && ban.Some? then d.bans[k := now + ban.value] else d.bans),
       over)
  }

  /** The outcome of one call, with the two flags that led to the verdict. */
  datatype Outcome = Outcome(state: State, verdict: Verdict, connOver: bool, ipOver: bool)

  function Check(cfg: Config, s: State, now: Time, conn: string, ip: Ip, len: nat): Outcome {
    if IsBanned(s.conn, now, conn) then Outcome(s, Banned, false, false)
    else
      var connDim := DropExpired(s.conn, now, conn);
      if IsBanned(s.ip, now, ip) then Outcome(State(connDim, s.ip), Banned, false, false)
      else
        var ipDim := DropExpired(s.ip, now, ip);
        var (connDim', connOver) := Record(connDim, cfg.connection, cfg.banDuration, now, conn, len);
        var (ipDim', ipOver) := Record(ipDim, cfg.ip, cfg.banDuration, now, ip, len);
        Outcome(State(connDim', ipDim'), if connOver || ipOver then Limited else Allowed,
                connOver, ipOver)
  }

  function Max(a: nat, b: nat): nat {
    if a >= b then a else b
  }

  const DEFAULT_STALE_PERIOD := 60_000_000_000

  function MaxPeriod(cfg: Config): Time {
    match (cfg.connection, cfg.ip)
    case (Some(c), Some(i)) => Max(c.period, i.period)
    case (Some(c), None) => c.period
    case (None, Some(i)) => i.period
    case (None, None) => DEFAULT_STALE_PERIOD
  }

  /** Drops counters whose window started too long ago, and expired bans. */
  function Evict<K>(d: Dim<K>, now: Time, threshold: Time): Dim<K> {
    Dim(map k | k in d.counters && Since(now, d.counters[k].windowStart) < threshold :: d.counters[k],
        map k | k in d.bans && now < d.bans[k] :: d.bans[k])
  }

  function Swept(cfg: Config, s: State, now: Time): State {
    var threshold := MaxPeriod(cfg) * 2;
    State(Evict(s.conn, now, threshold), Evict(s.ip, now, threshold))
  }

  const EMPTY := State(Dim(map[], map[]), Dim(map[], map[]))

  /** The shared limiter, with its four maps updated in place. */
  class RateLimiterState {
    const config: Config
    var connCounters: map<string, Counter>
    var ipCounters: map<Ip, Counter>
    var connBans: map<string, Time>
    var ipBans: map<Ip, Time>

    constructor (config: Config)
      ensures this.config == config && Value() == EMPTY
    {
      this.config := config;
      connCounters, ipCounters, connBans, ipBans := map[], map[], map[], map[];
    }

    ghost function Value(): State
      reads this
    {
      State(Dim(connCounters, connBans), Dim(ipCounters, ipBans))
    }

    method IsIpBanned(now: Time, ip: Ip) returns (banned: bool)
      modifies this
      ensures banned == IsBanned(old(Value()).ip, now, ip)
      ensures Value() == State(old(Value()).conn, DropExpired(old(Value()).ip, now, ip))
    {
      if ip in ipBans {
        if now < ipBans[ip] {
          return true;
        }
        ipBans := ipBans - {ip};
      }
      return false;
    }

    method CheckAndRecord(now: Time, connectionId: string, ip: Ip, frameLen: nat)
      returns (verdict: Verdict)
      modifies this
      ensures var o := Check(config, old(Value()), now, connectionId, ip, frameLen);
              verdict == o.verdict && Value() == o.state
    {
      if connectionId in connBans {
        if now < connBans[connectionId] {
          return Banned;
        }
        connBans := connBans - {connectionId};
      }
      if ip in ipBans {
        if now < ipBans[ip] {
          return Banned;
        }
        ipBans := ipBans - {ip};
      }
      var connLimited := RecordConnection(now, connectionId, frameLen);
      var ipLimited := RecordIp(now, ip, frameLen);
      return if connLimited || ipLimited then Limited else Allowed;
    }

    method RecordConnection(now: Time, connectionId: string, frameLen: nat) returns (limited: bool)
      modifies this
      ensures var (d, over) := Record(old(Value()).conn, config.connection, config.banDuration, now,
                                      connectionId, frameLen);
              limited == over && Value() == State(d, old(Value()).ip)
    {
      limited := false;
      if config.connection.Some? {
        var cfg := config.connection.value;
        if connectionId in connCounters {
          var counter := MaybeReset(connCounters[connectionId], now, cfg.period);
          counter := Counter(counter.windowStart, counter.messages + 1, counter.bytes + frameLen);
          connCounters := connCounters[connectionId := counter];
          limited := Exceeds(counter, cfg);
        } else {
          connCounters := connCounters[connectionId := Counter(now, 1, frameLen)];
          limited := ZeroLimit(cfg);
        }
        if limited && config.banDuration.Some? {
          connBans := connBans[connectionId := now + config.banDuration.value];
        }
      }
    }

    method RecordIp(now: Time, ip: Ip, frameLen: nat) returns (limited: bool)
      modifies this
      ensures var (d, over) := Record(old(Value()).ip, config.ip, config.banDuration, now, ip, frameLen);
              limited == over && Value() == State(old(Value()).conn, d)
    {
      limited := false;
      if config.ip.Some? {
        var cfg := config.ip.value;
        if ip in ipCounters {
          var counter := MaybeReset(ipCounters[ip], now, cfg.period);
          counter := Counter(counter.windowStart, counter.messages + 1, counter.bytes + frameLen);
          ipCounters := ipCounters[ip := counter];
          limited := Exceeds(counter, cfg);
        } else {
          ipCounters := ipCounters[ip := Counter(now, 1, frameLen)];
          limited := ZeroLimit(cfg);
        }
        if limited && config.banDuration.Some? {
          ipBans := ipBans[ip := now + config.banDuration.value];
        }
      }
    }

    method Cleanup(now: Time)
      modifies this
      ensures Value() == Swept(config, old(Value()), now)
    {
      var threshold := MaxPeriod(config) * 2;
      connCounters := map k | k in connCounters && Since(now, connCounters[k].windowStart) < threshold
        :: connCounters[k];
      ipCounters := map k | k in ipCounters && Since(now, ipCounters[k].windowStart) < threshold
        :: ipCounters[k];
      connBans := map k | k in connBans && now < connBans[k] :: connBans[k];
      ipBans := map k | k in ipBans && now < ipBans[k] :: ipBans[k];
    }
  }
}
