/** The per-worker circuit breaker of the gateway and its behaviour over whole runs. */
module CircuitBreaker {
  import opened Prelude

  datatype State = Closed | HalfOpen | Open

  /** Times are integers in one fixed unit; `failureRatio` is a float64 in the source. */
  datatype Config = Config(minRequests: nat, failureRatio: real, timeout: int, maxHalfOpen: nat)

  ghost predicate Usable(cfg: Config) {
    0 < cfg.minRequests && 0.0 < cfg.failureRatio && 0 < cfg.timeout && 0 < cfg.maxHalfOpen
  }

  /** Missing settings are replaced by the defaults, so every breaker map has a usable configuration. */
  function Normalise(cfg: Config): (r: Config)
    ensures Usable(r)
    ensures Usable(cfg) ==> r == cfg
  {
    Config(if cfg.minRequests == 0 then 10 else cfg.minRequests,
           if cfg.failureRatio <= 0.0 then 0.5 else cfg.failureRatio,
           if cfg.timeout <= 0 then 5 * SECOND else cfg.timeout,
           if cfg.maxHalfOpen == 0 then 2 else cfg.maxHalfOpen)
  }

  datatype Breaker = Breaker(state: State, requests: nat, failures: nat, successes: nat,
                             halfOpenLeft: nat, openedAt: int)

  const FRESH := Breaker(Closed, 0, 0, 0, 0, 0)

  type Breakers = map<string, Breaker>

  /** A worker without a record has the fresh one. */
  function Get(m: Breakers, id: string): Breaker {
    if id in m then m[id] else FRESH
  }

  // ----- One operation on one breaker

  datatype Op = Allow(at: int) | Success(at: int) | Failure(at: int)

  /** Whether `Allow` lets the request through. */
  predicate Admits(cfg: Config, b: Breaker, now: int) {
    match b.state
    case Closed => true
    case HalfOpen => b.halfOpenLeft != 0
    case Open => now - b.openedAt >= cfg.timeout
  }

  function AfterAllow(cfg: Config, b: Breaker, now: int): Breaker {
    if !Admits(cfg, b, now) then b
    else match b.state
      case Closed => b
      case HalfOpen => b.(halfOpenLeft := b.halfOpenLeft - 1)
      case Open => b.(state := HalfOpen, halfOpenLeft := cfg.maxHalfOpen)
  }

  function AfterSuccess(cfg: Config, b: Breaker): Breaker {
    var c := b.(requests := b.requests + 1, successes := b.successes + 1);
    if c.state == HalfOpen then c.(state := Closed, requests := 0, failures := 0, successes := 0)
    else if c.state == Closed && c.requests >= cfg.minRequests * 2 then
      c.(requests := c.requests / 2, failures := c.failures / 2, successes := c.successes / 2)
    else c
  }

  /** Whether recording a failure on this breaker leaves it freshly opened. */
  predicate Trips(cfg: Config, b: Breaker) {
    b.state == HalfOpen
    || (b.requests + 1 >= cfg.minRequests
        && (b.failures + 1) as real / (b.requests + 1) as real >= cfg.failureRatio)
  }

  function AfterFailure(cfg: Config, b: Breaker, now: int): Breaker {
    var c := b.(requests := b.requests + 1, failures := b.failures + 1);
    if Trips(cfg, b) then c.(state := Open, openedAt := now) else c
  }

  function Step(cfg: Config, b: Breaker, op: Op): Breaker {
    match op
    case Allow(t) => AfterAllow(cfg, b, t)
    case Success(_) => AfterSuccess(cfg, b)
    case Failure(t) => AfterFailure(cfg, b, t)
  }

  // ----- The mutable map of breakers

  class BreakerMap {
    const cfg: Config
    var m: Breakers

    constructor (cfg: Config)
      ensures Usable(this.cfg) && this.cfg == Normalise(cfg)
      ensures m == map[]
    {
      this.cfg := Normalise(cfg);
      m := map[];
    }

    method Lookup(id: string) returns (wb: Breaker)
      modifies this
      ensures wb == Get(old(m), id) && m == old(m)[id := wb]
    {
      if id !in m {
        m := m[id := Breaker(Closed, 0, 0, 0, 0, 0)];
      }
      wb := m[id];
      assert m == m[id := wb];
    }

    /** `now` is the clock reading taken inside the critical section. */
    method Allow(id: string, now: int) returns (ok: bool)
      modifies this
      ensures ok == Admits(cfg, Get(old(m), id), now)
      ensures m == old(m)[id := AfterAllow(cfg, Get(old(m), id), now)]
    {
      var wb := Lookup(id);
      match wb.state {
        case Open =>
          if now - wb.openedAt >= cfg.timeout {
            wb := wb.(state := HalfOpen);
            wb := wb.(halfOpenLeft := cfg.maxHalfOpen);
          } else {
            return false;
          }
        case HalfOpen =>
          if wb.halfOpenLeft == 0 {
            return false;
          }
          wb := wb.(halfOpenLeft := wb.halfOpenLeft - 1);
        case Closed =>
      }
      m := m[id := wb];
      return true;
    }

    method Success(id: string)
      modifies this
      ensures m == old(m)[id := AfterSuccess(cfg, Get(old(m), id))]
    {
      var wb := Lookup(id);
      wb := wb.(requests := wb.requests + 1);
      wb := wb.(successes := wb.successes + 1);
      if wb.state == HalfOpen {
        wb := wb.(state := Closed);
        wb := wb.(requests := 0, failures := 0, successes := 0);
      } else if wb.state == Closed && wb.requests >= cfg.minRequests * 2 {
        wb := wb.(requests := wb.requests / 2);
        wb := wb.(failures := wb.failures / 2);
        wb := wb.(successes := wb.successes / 2);
      }
      m := m[id := wb];
    }

    method Failure(id: string, now: int)
      modifies this
      ensures m == old(m)[id := AfterFailure(cfg, Get(old(m), id), now)]
    {
      var wb := Lookup(id);
      wb := wb.(requests := wb.requests + 1);
      wb := wb.(failures := wb.failures + 1);
      if wb.state == HalfOpen {
        wb := wb.(state := Open);
        wb := wb.(openedAt := now);
      } else if wb.requests >= cfg.minRequests {
        var ratio := wb.failures as real / wb.requests as real;
        if ratio >= cfg.failureRatio {
          wb := wb.(state := Open);
          wb := wb.(openedAt := now);
        }
      }
      m := m[id := wb];
    }

    method StateOf(id: string) returns (s: State)
      modifies this
      ensures s == Get(old(m), id).state && m == old(m)[id := Get(old(m), id)]
    {
      var wb := Lookup(id);
      s := wb.state;
    }
  }

  // ----- Runs of one breaker

  function Last(ops: seq<Op>, start: int): int {
    if ops == [] then start else ops[|ops| - 1].at
  }

  /** The clock never runs backwards and starts at `start`. */
  predicate Timed(ops: seq<Op>, start: int) {
    ops == [] || (Timed(ops[..|ops| - 1], start) && Last(ops[..|ops| - 1], start) <= ops[|ops| - 1].at)
  }

  function Run(cfg: Config, b: Breaker, ops: seq<Op>): Breaker {
    if ops == [] then b else Step(cfg, Run(cfg, b, ops[..|ops| - 1]), ops[|ops| - 1])
  }

  /** How many `Allow` calls of the run let their request through. */
  function Admitted(cfg: Config, b: Breaker, ops: seq<Op>): nat {
    if ops == [] then 0
    else
      var init, op := ops[..|ops| - 1], ops[|ops| - 1];
      Admitted(cfg, b, init) + if op.Allow? && Admits(cfg, Run(cfg, b, init), op.at) then 1 else 0
  }

  /** The breaker is in state `s` neither at the start nor after any operation of the run. */
  predicate Avoids(cfg: Config, b: Breaker, ops: seq<Op>, s: State) {
    Run(cfg, b, ops).state != s && (ops == [] || Avoids(cfg, b, ops[..|ops| - 1], s))
  }

  lemma {:induction false} TimedFromStart(ops: seq<Op>, start: int)
    requires Timed(ops, start)
    ensures start <= Last(ops, start)
  {
    if ops != [] { TimedFromStart(ops[..|ops| - 1], start); }
  }

  /** `maxHalfOpen + 1` requests for every full timeout in a span of time. */
  function Quota(cfg: Config, span: int): int
    requires 0 < cfg.timeout
  {
    (cfg.maxHalfOpen + 1) * (span / cfg.timeout)
  }

  lemma QuotaGrows(cfg: Config, x: int, y: int)
    requires Usable(cfg) && x <= y
    ensures Quota(cfg, x) <= Quota(cfg, y)
    ensures x + cfg.timeout <= y ==> Quota(cfg, x) + cfg.maxHalfOpen + 1 <= Quota(cfg, y)
    ensures 0 <= x < cfg.timeout ==> Quota(cfg, x) == 0
  {
    var m := cfg.maxHalfOpen + 1;
    FloorMonotone(x, y, cfg.timeout);
    ScaleMonotone(m, x / cfg.timeout, y / cfg.timeout);
    if x + cfg.timeout <= y {
      FloorAfterPeriod(x, y, cfg.timeout);
      ScaleMonotone(m, x / cfg.timeout + 1, y / cfg.timeout);
      assert m * (x / cfg.timeout + 1) == m * (x / cfg.timeout) + m;
    }
    if 0 <= x < cfg.timeout { FloorUnique(x, 0, cfg.timeout); }
  }

  /** What an open or half-open breaker may still admit is paid for by elapsed timeouts. */
  lemma {:induction false} ProbeCredit(cfg: Config, b: Breaker, ops: seq<Op>)
    requires Usable(cfg) && b.state == Open
    requires Timed(ops, b.openedAt) && Avoids(cfg, b, ops, Closed)
    ensures
      var r := Run(cfg, b, ops);
      var since := if r.state == Open then r.openedAt else Last(ops, b.openedAt);
      && b.openedAt <= since <= Last(ops, b.openedAt)
      && Admitted(cfg, b, ops) + (if r.state == HalfOpen then r.halfOpenLeft else 0) <= Quota(cfg, since - b.openedAt)
  {
    hide Quota;
    if ops == [] {
      QuotaGrows(cfg, 0, 0);
    } else {
      var init, op := ops[..|ops| - 1], ops[|ops| - 1];
      ProbeCredit(cfg, b, init);
      TimedFromStart(init, b.openedAt);
      var r, a := Run(cfg, b, init), b.openedAt;
      var since := if r.state == Open then r.openedAt else Last(init, a);
      QuotaGrows(cfg, since - a, op.at - a);
    }
  }

  /** From the moment a breaker opens until it next closes, whatever late outcomes are
      recorded meanwhile, at most `maxHalfOpen + 1` requests pass per elapsed timeout. */
  lemma ProbeRateBound(cfg: Config, b: Breaker, ops: seq<Op>, t: int)
    requires Usable(cfg) && b.state == Open
    requires Timed(ops, b.openedAt) && Avoids(cfg, b, ops, Closed)
    requires Last(ops, b.openedAt) <= t
    ensures Admitted(cfg, b, ops) <= Quota(cfg, t - b.openedAt)
  {
    hide Quota, Admitted, Avoids, Timed;
    ProbeCredit(cfg, b, ops);
    var r := Run(cfg, b, ops);
    var since := if r.state == Open then r.openedAt else Last(ops, b.openedAt);
    QuotaGrows(cfg, since - b.openedAt, t - b.openedAt);
  }

  /** In particular nothing passes before the first timeout is over. */
  lemma SilentBeforeTimeout(cfg: Config, b: Breaker, ops: seq<Op>)
    requires Usable(cfg) && b.state == Open
    requires Timed(ops, b.openedAt) && Avoids(cfg, b, ops, Closed)
    requires Last(ops, b.openedAt) < b.openedAt + cfg.timeout
    ensures Admitted(cfg, b, ops) == 0
  {
    hide Quota, Admitted, Avoids, Run;
    TimedFromStart(ops, b.openedAt);
    ProbeRateBound(cfg, b, ops, Last(ops, b.openedAt));
    QuotaGrows(cfg, Last(ops, b.openedAt) - b.openedAt, Last(ops, b.openedAt) - b.openedAt);
  }

  /** An opened breaker closes only after its timeout and a probe: late outcomes cannot close it. */
  lemma {:induction false} ClosesOnlyAfterProbe(cfg: Config, b: Breaker, ops: seq<Op>)
    requires Usable(cfg) && b.state == Open && Timed(ops, b.openedAt)
    ensures
      var c := Run(cfg, b, ops);
      if Admitted(cfg, b, ops) == 0 then c.state == Open && b.openedAt <= c.openedAt <= Last(ops, b.openedAt)
      else Last(ops, b.openedAt) >= b.openedAt + cfg.timeout
  {
    if ops != [] { ClosesOnlyAfterProbe(cfg, b, ops[..|ops| - 1]); }
  }

  /** A failure of a probe, or one that brings the failures to their share of enough requests, starts
      a full timeout in which nothing passes, in whatever state it finds the breaker; one that was
      open already starts it again. Any other failure changes neither state nor timeout. */
  lemma TripStartsTimeout(cfg: Config, b: Breaker, t: int, ops: seq<Op>)
    requires Usable(cfg) && Timed(ops, t) && Last(ops, t) < t + cfg.timeout
    ensures
      var c := AfterFailure(cfg, b, t);
      if b.state == HalfOpen
         || (b.requests + 1 >= cfg.minRequests
             && (b.failures + 1) as real >= cfg.failureRatio * (b.requests + 1) as real)
      then Admitted(cfg, c, ops) == 0 && Run(cfg, c, ops).state == Open
      else c.state == b.state && c.openedAt == b.openedAt
  {
    hide Admitted, Run, Timed;
    QuotientBound((b.failures + 1) as real, (b.requests + 1) as real, cfg.failureRatio);
    if Trips(cfg, b) { ClosesOnlyAfterProbe(cfg, AfterFailure(cfg, b, t), ops); }
  }

  /** And it does close: once the timeout is over the next request passes, and if that is the next
      to succeed, before any failure, the breaker is as good as new. */
  lemma Recovers(cfg: Config, b: Breaker, at: int, ops: seq<Op>, done: int)
    requires Usable(cfg) && b.state == Open && at >= b.openedAt + cfg.timeout
    requires forall i :: 0 <= i < |ops| ==> ops[i].Allow?
    ensures
      var c := Run(cfg, b, [Allow(at)] + ops + [Success(done)]);
      Admits(cfg, b, at) && c.state == Closed && c.requests == c.failures == c.successes == 0
  {
    hide Run, Admitted, Avoids, Timed;
    var half := Step(cfg, b, Allow(at));
    SingleStep(cfg, b, Allow(at), at);
    HalfOpenExhausts(cfg, half, ops);
    RunAppend(cfg, b, [Allow(at)], ops, at);
    RunAppend(cfg, b, [Allow(at)] + ops, [Success(done)], at);
    SingleStep(cfg, Run(cfg, half, ops), Success(done), done);
  }

  /** The defaults: ten requests, half of them failed, five seconds, two probes; each setting that
      makes sense is kept on its own. */
  lemma DefaultsMean(cfg: Config)
    ensures Normalise(Config(0, 0.0, 0, 0)) == Config(10, 0.5, 5_000_000_000, 2)
    ensures
      var r := Normalise(cfg);
      && (0 < cfg.minRequests ==> r.minRequests == cfg.minRequests) && (cfg.minRequests == 0 ==> r.minRequests == 10)
      && (0.0 < cfg.failureRatio ==> r.failureRatio == cfg.failureRatio)
      && (cfg.failureRatio <= 0.0 ==> r.failureRatio == 0.5)
      && (0 < cfg.timeout ==> r.timeout == cfg.timeout) && (cfg.timeout <= 0 ==> r.timeout == 5_000_000_000)
      && (0 < cfg.maxHalfOpen ==> r.maxHalfOpen == cfg.maxHalfOpen) && (cfg.maxHalfOpen == 0 ==> r.maxHalfOpen == 2)
  {
  }

  // ----- The bound is reached

  function Repeat(op: Op, n: nat): (r: seq<Op>)
    ensures |r| == n && forall i :: 0 <= i < n ==> r[i] == op
  {
    seq(n, i => op)
  }

  /** A half-open breaker that is only asked, never told an outcome, admits what it has left
      and then refuses for good, however much time passes. */
  lemma {:induction false} HalfOpenExhausts(cfg: Config, b: Breaker, ops: seq<Op>)
    requires b.state == HalfOpen && forall i :: 0 <= i < |ops| ==> ops[i].Allow?
    ensures
      var left := if |ops| <= b.halfOpenLeft then b.halfOpenLeft - |ops| else 0;
      && Run(cfg, b, ops) == b.(halfOpenLeft := left)
      && Admitted(cfg, b, ops) == b.halfOpenLeft - left
      && Avoids(cfg, b, ops, Closed)
  {
    if ops != [] { HalfOpenExhausts(cfg, b, ops[..|ops| - 1]); }
  }

  lemma {:induction false} RepeatTimed(op: Op, n: nat)
    ensures Timed(Repeat(op, n), op.at)
  {
    if n > 0 {
      RepeatTimed(op, n - 1);
      assert Repeat(op, n)[..n - 1] == Repeat(op, n - 1);
    }
  }

  lemma {:induction false} RunAppend(cfg: Config, b: Breaker, xs: seq<Op>, ys: seq<Op>, start: int)
    ensures Run(cfg, b, xs + ys) == Run(cfg, Run(cfg, b, xs), ys)
    ensures Admitted(cfg, b, xs + ys) == Admitted(cfg, b, xs) + Admitted(cfg, Run(cfg, b, xs), ys)
    ensures Avoids(cfg, b, xs, Closed) && Avoids(cfg, Run(cfg, b, xs), ys, Closed) ==> Avoids(cfg, b, xs + ys, Closed)
    ensures Timed(xs, start) && Timed(ys, Last(xs, start)) ==> Timed(xs + ys, start)
    ensures Last(xs + ys, start) == Last(ys, Last(xs, start))
  {
    if ys == [] {
      assert xs + ys == xs;
    } else {
      var init := ys[..|ys| - 1];
      RunAppend(cfg, b, xs, init, start);
      assert (xs + ys)[..|xs + ys| - 1] == xs + init;
    }
  }

  /** One probing episode that ends in a failure: the breaker is open again, with
      `maxHalfOpen + 1` requests let through at the first possible instant. */
  lemma Episode(cfg: Config, b: Breaker) returns (ops: seq<Op>)
    requires Usable(cfg) && b.state == Open
    ensures Timed(ops, b.openedAt) && Last(ops, b.openedAt) == b.openedAt + cfg.timeout
    ensures Avoids(cfg, b, ops, Closed) && Admitted(cfg, b, ops) == cfg.maxHalfOpen + 1
    ensures Run(cfg, b, ops).state == Open && Run(cfg, b, ops).openedAt == b.openedAt + cfg.timeout
  {
    var at := b.openedAt + cfg.timeout;
    var first, fail := [Allow(at)], [Failure(at)];
    SingleStep(cfg, b, Allow(at), b.openedAt);
    var mid := Run(cfg, b, first);
    HalfOpenExhausts(cfg, mid, Repeat(Allow(at), cfg.maxHalfOpen));
    RepeatTimed(Allow(at), cfg.maxHalfOpen);
    var probes := Repeat(Allow(at), cfg.maxHalfOpen);
    RunAppend(cfg, b, first, probes, b.openedAt);
    SingleStep(cfg, Run(cfg, b, first + probes), Failure(at), at);
    RunAppend(cfg, b, first + probes, fail, b.openedAt);
    ops := first + probes + fail;
  }

  lemma SingleStep(cfg: Config, b: Breaker, op: Op, start: int)
    ensures Run(cfg, b, [op]) == Step(cfg, b, op)
    ensures Admitted(cfg, b, [op]) == if op.Allow? && Admits(cfg, b, op.at) then 1 else 0
    ensures Avoids(cfg, b, [op], Closed) <==> b.state != Closed && Step(cfg, b, op).state != Closed
    ensures Timed([op], start) <==> start <= op.at
  {
    var ops := [op];
    assert ops[..|ops| - 1] == [];
    assert Avoids(cfg, b, [], Closed) <==> b.state != Closed;
  }

  /** The probe-rate bound cannot be improved: for every number of timeouts some run reaches it. */
  lemma {:induction false} ProbeRateReached(cfg: Config, b: Breaker, k: nat) returns (ops: seq<Op>)
    requires Usable(cfg) && b.state == Open
    ensures Timed(ops, b.openedAt) && Last(ops, b.openedAt) == b.openedAt + k * cfg.timeout
    ensures Avoids(cfg, b, ops, Closed)
    ensures Admitted(cfg, b, ops) == (cfg.maxHalfOpen + 1) * k
    ensures Run(cfg, b, ops).state == Open && Run(cfg, b, ops).openedAt == Last(ops, b.openedAt)
  {
    ops := [];
    if k > 0 {
      hide Run, Admitted, Avoids, Timed;
      var before := ProbeRateReached(cfg, b, k - 1);
      var again := Episode(cfg, Run(cfg, b, before));
      RunAppend(cfg, b, before, again, b.openedAt);
      ops := before + again;
      OneMoreTime(cfg.timeout, k);
      OneMoreTime(cfg.maxHalfOpen + 1, k);
    }
  }

  lemma OneMoreTime(x: int, k: nat)
    requires 0 < k
    ensures k * x == (k - 1) * x + x && x * k == x * (k - 1) + x
  {
  }

  // ----- Counters under repeated halving

  ghost predicate Counted(b: Breaker) {
    0 <= b.requests - b.failures - b.successes <= 1
  }

  /** Halving three counters with integer division never makes them drift apart. */
  lemma {:induction false} CountersAgree(cfg: Config, ops: seq<Op>)
    ensures Counted(Run(cfg, FRESH, ops))
  {
    if ops != [] { CountersAgree(cfg, ops[..|ops| - 1]); }
  }

  function Outcomes(ops: seq<Op>): nat {
    if ops == [] then 0 else Outcomes(ops[..|ops| - 1]) + if ops[|ops| - 1].Allow? then 0 else 1
  }

  function Failures(ops: seq<Op>): nat {
    if ops == [] then 0 else Failures(ops[..|ops| - 1]) + if ops[|ops| - 1].Failure? then 1 else 0
  }

  /** The counters of a breaker that starts from zero never exceed what was recorded. */
  lemma {:induction false} CountersBounded(cfg: Config, b: Breaker, ops: seq<Op>)
    requires b.requests == b.failures == b.successes == 0
    ensures Run(cfg, b, ops).requests <= Outcomes(ops) && Run(cfg, b, ops).failures <= Failures(ops)
  {
    if ops != [] { CountersBounded(cfg, b, ops[..|ops| - 1]); }
  }

  /** Nothing is forgotten too early: as long as a breaker stays closed and fewer than twice
      `minRequests` outcomes were recorded since its counters were zero, it has counted all. */
  lemma {:induction false} CountsAllUntilTwice(cfg: Config, b: Breaker, ops: seq<Op>)
    requires b.requests == b.failures == b.successes == 0 && b.state == Closed
    requires Outcomes(ops) < 2 * cfg.minRequests && Avoids(cfg, b, ops, HalfOpen) && Avoids(cfg, b, ops, Open)
    ensures
      var c := Run(cfg, b, ops);
      c.requests == Outcomes(ops) && c.failures == Failures(ops) && c.successes == Outcomes(ops) - Failures(ops)
  {
    if ops != [] { CountsAllUntilTwice(cfg, b, ops[..|ops| - 1]); }
  }

  /** Nor too late: after every success in any run, a closed breaker counts fewer than twice
      `minRequests` requests or as many as half of what it counted before. */
  lemma ForgetsFromTwice(cfg: Config, ops: seq<Op>)
    requires Usable(cfg) && ops != [] && ops[|ops| - 1].Success? && Run(cfg, FRESH, ops).state == Closed
    ensures
      var before, after := Run(cfg, FRESH, ops[..|ops| - 1]), Run(cfg, FRESH, ops);
      after.requests < 2 * cfg.minRequests || after.requests == (before.requests + 1) / 2
  {
    hide Run;
    assert Run(cfg, FRESH, ops) == AfterSuccess(cfg, Run(cfg, FRESH, ops[..|ops| - 1])) by {
      RunLast(cfg, FRESH, ops);
    }
  }

  lemma RunLast(cfg: Config, b: Breaker, ops: seq<Op>)
    requires ops != []
    ensures Run(cfg, b, ops) == Step(cfg, Run(cfg, b, ops[..|ops| - 1]), ops[|ops| - 1])
  {
  }

  /** Position `k` of a run from creation is its start, or the moment the breaker closed. */
  ghost predicate ClosesAt(cfg: Config, ops: seq<Op>, k: nat)
    requires k <= |ops|
  {
    k == 0 || (Run(cfg, FRESH, ops[..k - 1]).state != Closed && Run(cfg, FRESH, ops[..k]).state == Closed)
  }

  lemma ClosingResets(cfg: Config, ops: seq<Op>, k: nat)
    requires k <= |ops| && ClosesAt(cfg, ops, k)
    ensures var b := Run(cfg, FRESH, ops[..k]); b.requests == b.failures == b.successes == 0
  {
    if k > 0 { assert ops[..k][..k - 1] == ops[..k - 1]; }
  }

  /** A Closed-to-Open trip takes, counted since creation or since any close before it, at
      least `minRequests` recorded outcomes, and at least the configured share of
      `minRequests` of them are failures, however often the counters were halved. */
  lemma TripNeedsEvidence(cfg: Config, ops: seq<Op>, k: nat, op: Op)
    requires Usable(cfg) && k <= |ops| && ClosesAt(cfg, ops, k)
    requires Run(cfg, FRESH, ops).state == Closed && Run(cfg, FRESH, ops + [op]).state == Open
    ensures Outcomes(ops[k..] + [op]) >= cfg.minRequests
    ensures Failures(ops[k..] + [op]) as real >= cfg.failureRatio * cfg.minRequests as real
  {
    hide Step, Trips, ClosesAt, Avoids, Admitted, Timed;
    var since := ops[k..];
    ClosingResets(cfg, ops, k);
    assert ops[..k] + since == ops;
    RunAppend(cfg, FRESH, ops[..k], since, 0);
    CountersBounded(cfg, Run(cfg, FRESH, ops[..k]), since);
    assert (ops + [op])[..|ops + [op]| - 1] == ops;
    assert (since + [op])[..|since + [op]| - 1] == since;
    OpensOnlyByTrip(cfg, Run(cfg, FRESH, ops), op);
    EnoughFailures(cfg, Run(cfg, FRESH, ops));
    assert Failures(since + [op]) as real >= (Run(cfg, FRESH, ops).failures + 1) as real;
  }

  lemma OpensOnlyByTrip(cfg: Config, b: Breaker, op: Op)
    requires b.state == Closed && Step(cfg, b, op).state == Open
    ensures op.Failure? && Trips(cfg, b)
  {
  }

  lemma EnoughFailures(cfg: Config, b: Breaker)
    requires Usable(cfg) && b.state != HalfOpen && Trips(cfg, b)
    ensures b.requests + 1 >= cfg.minRequests
    ensures (b.failures + 1) as real >= cfg.failureRatio * cfg.minRequests as real
  {
    var n, f := (b.requests + 1) as real, (b.failures + 1) as real;
    QuotientBound(f, n, cfg.failureRatio);
    ProductBound(f, n, cfg.minRequests as real, cfg.failureRatio);
  }

  /** Old failures fade: from every closed state enough successes in a row bring the failure
      count to zero without the breaker ever leaving the closed state. */
  lemma {:induction false} FailuresFade(cfg: Config, b: Breaker, at: int) returns (n: nat)
    requires Usable(cfg) && b.state == Closed
    ensures Run(cfg, b, Repeat(Success(at), n)).failures == 0 && Run(cfg, b, Repeat(Success(at), n)).state == Closed
    decreases b.failures, if b.requests < 2 * cfg.minRequests then 2 * cfg.minRequests - b.requests else 0
  {
    n := 0;
    if b.failures > 0 {
      var c := AfterSuccess(cfg, b);
      var m := FailuresFade(cfg, c, at);
      n := m + 1;
      SingleStep(cfg, b, Success(at), at);
      RunAppend(cfg, b, [Success(at)], Repeat(Success(at), m), at);
      assert [Success(at)] + Repeat(Success(at), m) == Repeat(Success(at), n);
    }
  }

  // ----- When a breaker can open at all

  lemma {:induction false} FailuresWithinRequests(cfg: Config, ops: seq<Op>)
    ensures Run(cfg, FRESH, ops).failures <= Run(cfg, FRESH, ops).requests
  {
    CountersAgree(cfg, ops);
  }

  /** With a failure ratio above one, which the constructor accepts, no run ever opens the breaker. */
  lemma {:induction false} NeverOpensAboveOne(cfg: Config, ops: seq<Op>)
    requires Usable(cfg) && cfg.failureRatio > 1.0
    ensures Run(cfg, FRESH, ops).state == Closed
  {
    if ops != [] {
      var init := ops[..|ops| - 1];
      NeverOpensAboveOne(cfg, init);
      FailuresWithinRequests(cfg, init);
      NoTripAboveOne(cfg, Run(cfg, FRESH, init));
    }
  }

  lemma NoTripAboveOne(cfg: Config, b: Breaker)
    requires cfg.failureRatio > 1.0 && b.state == Closed && b.failures <= b.requests
    ensures !Trips(cfg, b)
  {
    var n := (b.requests + 1) as real;
    QuotientBound((b.failures + 1) as real, n, cfg.failureRatio);
    RealScale(cfg.failureRatio, 1.0, n);
    assert 1.0 * n == n;
    assert cfg.failureRatio * n > n >= (b.failures + 1) as real;
  }

  lemma {:induction false} FailuresOnly(cfg: Config, at: int, n: nat)
    requires Usable(cfg) && n < cfg.minRequests
    ensures Run(cfg, FRESH, Repeat(Failure(at), n)) == FRESH.(requests := n, failures := n)
  {
    if n > 0 {
      FailuresOnly(cfg, at, n - 1);
      assert Repeat(Failure(at), n)[..n - 1] == Repeat(Failure(at), n - 1);
    }
  }

  /** Some run opens the breaker exactly when the failure ratio is at most one; then
      `minRequests` failures in a row are enough. */
  lemma CanOpenIff(cfg: Config, at: int)
    requires Usable(cfg)
    ensures (exists ops :: Run(cfg, FRESH, ops).state == Open) <==> cfg.failureRatio <= 1.0
    ensures cfg.failureRatio <= 1.0 ==> Run(cfg, FRESH, Repeat(Failure(at), cfg.minRequests)).state == Open
  {
    if cfg.failureRatio <= 1.0 {
      var n := cfg.minRequests;
      FailuresOnly(cfg, at, n - 1);
      assert Repeat(Failure(at), n)[..n - 1] == Repeat(Failure(at), n - 1);
      assert n as real / n as real == 1.0;
      assert Run(cfg, FRESH, Repeat(Failure(at), n)).state == Open;
    } else {
      forall ops ensures Run(cfg, FRESH, ops).state != Open { NeverOpensAboveOne(cfg, ops); }
    }
  }

  lemma OpenedIsReached(cfg: Config, at: int)
    requires Usable(cfg) && cfg.failureRatio <= 1.0
    ensures var b := Run(cfg, FRESH, Repeat(Failure(at), cfg.minRequests)); b.state == Open && b.openedAt == at
  {
    var n := cfg.minRequests;
    FailuresOnly(cfg, at, n - 1);
    assert Repeat(Failure(at), n)[..n - 1] == Repeat(Failure(at), n - 1);
    assert n as real / n as real == 1.0;
  }

  /** Failures until it opens, then probes without any outcome until none is left. */
  function ExhaustingOps(cfg: Config): seq<Op> {
    Repeat(Failure(0), cfg.minRequests) + Repeat(Allow(cfg.timeout), cfg.maxHalfOpen + 1)
  }

  /** A new breaker can get stuck half-open with no probe left. */
  lemma ExhaustedIsReached(cfg: Config)
    requires Usable(cfg) && cfg.failureRatio <= 1.0
    ensures var b := Run(cfg, FRESH, ExhaustingOps(cfg)); b.state == HalfOpen && b.halfOpenLeft == 0
  {
    var n, t := cfg.minRequests, cfg.timeout;
    var fails, asks := Repeat(Failure(0), n), Repeat(Allow(t), cfg.maxHalfOpen);
    OpenedIsReached(cfg, 0);
    var open := Run(cfg, FRESH, fails);
    SingleStep(cfg, open, Allow(t), t);
    HalfOpenExhausts(cfg, Step(cfg, open, Allow(t)), asks);
    RunAppend(cfg, open, [Allow(t)], asks, t);
    assert [Allow(t)] + asks == Repeat(Allow(t), cfg.maxHalfOpen + 1);
    RunAppend(cfg, FRESH, fails, Repeat(Allow(t), cfg.maxHalfOpen + 1), 0);
  }

  // ----- A closed breaker above its ratio

  /** Closed although enough requests are counted and the failure share is at the limit. */
  ghost predicate Overdue(cfg: Config, b: Breaker) {
    b.state == Closed && b.requests >= cfg.minRequests > 0
    && b.failures as real / b.requests as real >= cfg.failureRatio
  }

  /** Only `Failure` looks at the ratio, so a success can carry a closed breaker over it. */
  lemma OverdueHappens()
    ensures
      var cfg := Normalise(Config(0, 0.0, 0, 0));
      Overdue(cfg, Run(cfg, FRESH, Repeat(Failure(0), 9) + [Success(0)]))
  {
    var cfg := Normalise(Config(0, 0.0, 0, 0));
    FailuresOnly(cfg, 0, 9);
    var ops := Repeat(Failure(0), 9) + [Success(0)];
    assert ops[..9] == Repeat(Failure(0), 9);
    assert 9.0 / 10.0 >= 0.5;
  }

  /** The failures reach their share of the requests. */
  ghost predicate AtLimit(cfg: Config, failures: nat, requests: nat) {
    failures as real >= cfg.failureRatio * requests as real
  }

  lemma OverdueMeans(cfg: Config, b: Breaker)
    ensures Overdue(cfg, b)
            <==> b.state == Closed && b.requests >= cfg.minRequests > 0 && AtLimit(cfg, b.failures, b.requests)
  {
    if b.requests > 0 { QuotientBound(b.failures as real, b.requests as real, cfg.failureRatio); }
  }

  /** The one way in: the success that completes the minimum number of requests while the
      failures counted so far already reach their share of it. */
  ghost predicate Enters(cfg: Config, b: Breaker, op: Op) {
    b.state == Closed && op.Success? && b.requests + 1 == cfg.minRequests && AtLimit(cfg, b.failures, cfg.minRequests)
  }

  lemma MoreRequestsStayBelow(cfg: Config, f: nat, n: nat)
    requires 0.0 < cfg.failureRatio && !AtLimit(cfg, f, n)
    ensures !AtLimit(cfg, f, n + 1)
  {
    var ratio := cfg.failureRatio;
    RealScale(n as real, (n + 1) as real, ratio);
    assert n as real * ratio == ratio * n as real && (n + 1) as real * ratio == ratio * (n + 1) as real;
  }

  /** Halving cannot lift a share over the limit: the request count is rounded up, in effect,
      and the failure count down. */
  lemma HalvingStaysBelow(cfg: Config, f: nat, n: nat)
    requires 0.0 < cfg.failureRatio && !AtLimit(cfg, f, n)
    ensures !AtLimit(cfg, f / 2, (n + 1) / 2)
  {
    var g, m, ratio := (f / 2) as real, ((n + 1) / 2) as real, cfg.failureRatio;
    assert 2 * (f / 2) <= f && n <= 2 * ((n + 1) / 2);
    RealScale(n as real, 2.0 * m, ratio);
    assert n as real * ratio == ratio * n as real && 2.0 * m * ratio == 2.0 * (ratio * m);
    BelowHalf(f as real, g, ratio * n as real, ratio * m);
  }

  lemma BelowHalf(f: real, g: real, q: real, p: real)
    requires 2.0 * g <= f < q <= 2.0 * p
    ensures g < p
  {
  }

  lemma SuccessOverdueIff(cfg: Config, b: Breaker)
    requires Usable(cfg) && b.state == Closed && !Overdue(cfg, b)
    ensures Overdue(cfg, AfterSuccess(cfg, b)) <==> Enters(cfg, b, Success(0))
  {
    hide Overdue, AtLimit;
    OverdueMeans(cfg, b);
    OverdueMeans(cfg, AfterSuccess(cfg, b));
    if b.requests >= cfg.minRequests {
      MoreRequestsStayBelow(cfg, b.failures, b.requests);
      HalvingStaysBelow(cfg, b.failures, b.requests);
    }
  }

  /** From a state that is not overdue, every operation leads to an overdue one exactly if it is
      that success. */
  lemma BecomesOverdueIff(cfg: Config, b: Breaker, op: Op)
    requires Usable(cfg) && !Overdue(cfg, b)
    ensures Overdue(cfg, Step(cfg, b, op)) <==> Enters(cfg, b, op)
  {
    hide Overdue;
    if op.Success? && b.state == Closed {
      SuccessOverdueIff(cfg, b);
    } else {
      NoOtherWayIn(cfg, b, op);
    }
  }

  lemma NoOtherWayIn(cfg: Config, b: Breaker, op: Op)
    requires Usable(cfg) && !Overdue(cfg, b) && !(op.Success? && b.state == Closed)
    ensures !Overdue(cfg, Step(cfg, b, op))
  {
  }

  /** The run of a new breaker is overdue at some point. */
  ghost predicate EverOverdue(cfg: Config, ops: seq<Op>) {
    Overdue(cfg, Run(cfg, FRESH, ops)) || (ops != [] && EverOverdue(cfg, ops[..|ops| - 1]))
  }

  /** Some operation of the run is the success that leads in. */
  ghost predicate EverEnters(cfg: Config, ops: seq<Op>) {
    ops != []
    && (Enters(cfg, Run(cfg, FRESH, ops[..|ops| - 1]), ops[|ops| - 1]) || EverEnters(cfg, ops[..|ops| - 1]))
  }

  /** Exactly which runs of a new breaker are overdue at some point: those with such a success. */
  lemma {:induction false} OverdueRunIff(cfg: Config, ops: seq<Op>)
    requires Usable(cfg)
    ensures EverOverdue(cfg, ops) <==> EverEnters(cfg, ops)
  {
    hide Overdue, Enters, Step;
    if ops == [] {
      FreshIsNotOverdue(cfg);
    } else {
      var init, op := ops[..|ops| - 1], ops[|ops| - 1];
      OverdueRunIff(cfg, init);
      if !Overdue(cfg, Run(cfg, FRESH, init)) { BecomesOverdueIff(cfg, Run(cfg, FRESH, init), op); }
      if Enters(cfg, Run(cfg, FRESH, init), op) { EnteringIsNew(cfg, Run(cfg, FRESH, init), op); }
    }
  }

  lemma EnteringIsNew(cfg: Config, b: Breaker, op: Op)
    requires Enters(cfg, b, op)
    ensures !Overdue(cfg, b)
  {
  }

  lemma FreshIsNotOverdue(cfg: Config)
    ensures !Overdue(cfg, FRESH)
  {
  }

  /** No failure leaves a breaker overdue, and an overdue breaker opens at the very next
      recorded failure. */
  lemma OverdueEndsAtNextFailure(cfg: Config, ops: seq<Op>, at: int)
    requires Usable(cfg)
    ensures !Overdue(cfg, Step(cfg, Run(cfg, FRESH, ops), Failure(at)))
    ensures Overdue(cfg, Run(cfg, FRESH, ops)) ==> Step(cfg, Run(cfg, FRESH, ops), Failure(at)).state == Open
  {
    var b := Run(cfg, FRESH, ops);
    if Overdue(cfg, b) {
      FailuresWithinRequests(cfg, ops);
      OneMoreFailure(b.failures as real, b.requests as real);
    }
  }

  lemma OneMoreFailure(f: real, n: real)
    requires 0.0 <= f <= n && 0.0 < n
    ensures (f + 1.0) / (n + 1.0) >= f / n
  {
    var q := f / n;
    assert q * n == f;
    RealScale(q, 1.0, n);
    QuotientBound(f + 1.0, n + 1.0, q);
    assert q * (n + 1.0) == q * n + q;
  }

  // ----- Runs of the whole map

  datatype Event = Event(id: string, op: Op)

  function RunMap(cfg: Config, m: Breakers, events: seq<Event>): Breakers {
    if events == [] then m
    else
      var before := RunMap(cfg, m, events[..|events| - 1]);
      var e := events[|events| - 1];
      before[e.id := Step(cfg, Get(before, e.id), e.op)]
  }

  function Project(events: seq<Event>, id: string): seq<Op> {
    if events == [] then []
    else
      var e := events[|events| - 1];
      Project(events[..|events| - 1], id) + if e.id == id then [e.op] else []
  }

  /** Workers do not influence each other: a map run, seen from one worker, is that worker's own run. */
  lemma {:induction false} WorkersAreIndependent(cfg: Config, m: Breakers, events: seq<Event>, id: string)
    ensures Get(RunMap(cfg, m, events), id) == Run(cfg, Get(m, id), Project(events, id))
  {
    if events != [] {
      var init, e := events[..|events| - 1], events[|events| - 1];
      WorkersAreIndependent(cfg, m, init, id);
      if e.id == id {
        assert Project(events, id)[..|Project(events, id)| - 1] == Project(init, id);
      } else {
        assert Project(events, id) == Project(init, id);
      }
    }
  }

  ghost predicate TimedEvents(events: seq<Event>, start: int) {
    forall i :: 0 <= i < |events| ==>
      start <= events[i].op.at && (i == 0 || events[i - 1].op.at <= events[i].op.at)
  }

  lemma {:induction false} ProjectTimed(events: seq<Event>, id: string, start: int, t: int)
    requires TimedEvents(events, start) && start <= t && (events == [] || events[|events| - 1].op.at <= t)
    ensures Timed(Project(events, id), start) && Last(Project(events, id), start) <= t
  {
    if events != [] {
      var init, e := events[..|events| - 1], events[|events| - 1];
      ProjectTimed(init, id, start, e.op.at);
      if e.id == id {
        assert Project(events, id)[..|Project(events, id)| - 1] == Project(init, id);
      } else {
        assert Project(events, id) == Project(init, id);
      }
    }
  }

  /** The probe-rate bound for one worker, in any interleaving with calls for other workers. */
  lemma {:induction false} MapProbeRateBound(cfg: Config, m: Breakers, events: seq<Event>, id: string, t: int)
    requires Usable(cfg) && Get(m, id).state == Open
    requires TimedEvents(events, Get(m, id).openedAt)
    requires Get(m, id).openedAt <= t && (events == [] || events[|events| - 1].op.at <= t)
    requires forall n :: 0 <= n <= |events| ==> Get(RunMap(cfg, m, events[..n]), id).state != Closed
    ensures Admitted(cfg, Get(m, id), Project(events, id)) <= Quota(cfg, t - Get(m, id).openedAt)
  {
    ProjectTimed(events, id, Get(m, id).openedAt, t);
    ProjectAvoids(cfg, m, events, id);
    ProbeRateBound(cfg, Get(m, id), Project(events, id), t);
  }

  lemma {:induction false} ProjectAvoids(cfg: Config, m: Breakers, events: seq<Event>, id: string)
    requires forall n :: 0 <= n <= |events| ==> Get(RunMap(cfg, m, events[..n]), id).state != Closed
    ensures Avoids(cfg, Get(m, id), Project(events, id), Closed)
  {
    WorkersAreIndependent(cfg, m, events, id);
    assert events[..|events|] == events;
    if events != [] {
      var init, e := events[..|events| - 1], events[|events| - 1];
      forall n | 0 <= n <= |init| ensures Get(RunMap(cfg, m, init[..n]), id).state != Closed {
        assert init[..n] == events[..n];
      }
      ProjectAvoids(cfg, m, init, id);
      if e.id == id {
        assert Project(events, id)[..|Project(events, id)| - 1] == Project(init, id);
      } else {
        assert Project(events, id) == Project(init, id);
      }
    }
  }
}
