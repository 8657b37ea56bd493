/** One outage, played out on a new gateway, that leads to everything the gateway does against what
    its comments suggest: the states in question are ends of lives, not only conceivable. */
module GatewayWitnesses {
  import opened Prelude
  import opened Classify
  import opened Failovers
  import opened FailoverHistory
  import opened StreamDispatch
  import opened StreamAccounts
  import opened GatewayLife
  import opened CallQuota
  import CB = CircuitBreaker
  import RB = RetryBudgets

  const ALPHA := Worker("a", "")
  const BETA := Worker("b", "")
  const GAMMA := Worker("c", "")

  /** A gateway that has not served anything. */
  function NewWorld(maxTokens: real, tokenRatio: real): World {
    World(Some(RB.New(maxTokens, tokenRatio)), Some(map[]), 0, 0)
  }

  // ----- One request for a lone candidate

  /** The breaker after the partition and the loop have asked it, from clock reading `t` on. */
  ghost function AskedAlone(cfg: CB.Config, b: CB.Breaker, clock: nat -> int, t: nat): CB.Breaker {
    if b.state == CB.Open then CB.AfterAllow(cfg, CB.AfterAllow(cfg, b, clock(t)), clock(t + 1))
    else CB.AfterAllow(cfg, b, clock(t))
  }

  lemma LonePartition(s: Settings, env: Env, w: World, c: Worker)
    requires w.breakers.Some?
    ensures
      var p := Partition(s, env, w, [c]);
      var (_, asked) := Ask(s, env, p.world, c.id);
      && Ordered(p) == [c] && asked.breakers.Some? && asked.budget == w.budget && asked.calls == w.calls
      && asked.ticks == w.ticks + (if StateIn(w, c.id) == CB.Open then 2 else 1)
      && BreakerIn(asked, c.id) == AskedAlone(s.cfg, BreakerIn(w, c.id), env.clock, w.ticks)
      && forall id :: id != c.id ==> BreakerIn(asked, id) == BreakerIn(w, id)
  {
    hide CB.AfterAllow, CB.Admits;
    var one := [c];
    assert one[..|one| - 1] == [] && Partition(s, env, w, []) == Split(w, [], []);
  }

  /** A lone candidate whose call is cancelled was asked; one whose call fails has also failed. */
  lemma LoneRequest(s: Settings, env: Env, w: World, c: Worker)
    requires w.breakers.Some? && 0 < s.max
    requires env.call(w.calls) == Some(Plain) || env.call(w.calls) == Some(Status(Canceled))
    ensures
      var failed := env.call(w.calls) == Some(Plain);
      var w' := DoResult(s, env, w, [c]).world;
      var b := AskedAlone(s.cfg, BreakerIn(w, c.id), env.clock, w.ticks);
      var t := w.ticks + if StateIn(w, c.id) == CB.Open then 2 else 1;
      && w'.breakers.Some? && w'.calls == w.calls + 1 && w'.ticks == (if failed then t + 1 else t)
      && w'.budget == (if failed then BudgetFailure(w).budget else w.budget)
      && BreakerIn(w', c.id) == (if failed then CB.AfterFailure(s.cfg, b, env.clock(t)) else b)
      && forall id :: id != c.id ==> BreakerIn(w', id) == BreakerIn(w, id)
  {
    hide Partition, CB.AfterAllow, CB.Admits, CB.AfterFailure, AskedAlone, RB.AfterFailure;
    LonePartition(s, env, w, c);
    var p := Partition(s, env, w, [c]);
    var st := Loop(p.world, 0, None, []);
    var (ok, asked) := Ask(s, env, p.world, c.id);
    assert Iterate(s, env, [c], 0, st) == Call(s, env, c, 0, ok, st.(world := asked));
    match Iterate(s, env, [c], 0, st)
    case Return(_) =>
    case Next(st') => assert Attempts(s, env, [c], 1, st') == Exhausted(st');
  }

  // ----- The outage

  /** The clock stands still until the first breaker has opened and then, a timeout later, again.
      The calls of the first `minRequests` requests fail, as many as there are probes are then
      cancelled, and all later ones fail. Streams end before their first chunk. */
  ghost predicate Plays(cfg: CB.Config, o: Outside) {
    && (forall t: nat :: o.env.clock(t) == if t < 2 * cfg.minRequests then 0 else cfg.timeout)
    && (forall k: nat ::
         o.env.call(k)
         == Some(if cfg.minRequests <= k < cfg.minRequests + cfg.maxHalfOpen then Status(Canceled) else Plain))
    && (forall k: nat :: o.open(k) == None && o.recv(k) == EndOfStream)
  }

  lemma PlayedOut(cfg: CB.Config) returns (o: Outside)
    requires CB.Usable(cfg)
    ensures Plays(cfg, o) && Monotone(o.env.clock)
  {
    var m, h := cfg.minRequests, cfg.maxHalfOpen;
    o := Outside(Env(t => if t < 2 * m then 0 else cfg.timeout,
                     k => Some(if m <= k < m + h then Status(Canceled) else Plain)),
                 k => None, k => EndOfStream);
  }

  /** All requests have one candidate: first `a`, for the failures and the probes, then `b`. */
  function Requests(cfg: CB.Config, n: nat): seq<Request> {
    seq(n, k => Unary([if k < cfg.minRequests + cfg.maxHalfOpen then ALPHA else BETA]))
  }

  /** A breaker that has seen nothing but `k` failures. */
  function Failing(cfg: CB.Config, k: nat, at: int): CB.Breaker {
    if k < cfg.minRequests then CB.FRESH.(requests := k, failures := k)
    else CB.FRESH.(requests := k, failures := k, state := CB.Open, openedAt := at)
  }

  lemma FailingStep(cfg: CB.Config, k: nat, at: int)
    requires CB.Usable(cfg) && cfg.failureRatio <= 1.0
    ensures CB.AfterFailure(cfg, Failing(cfg, k, at), at) == Failing(cfg, k + 1, at)
  {
    assert (k + 1) as real / (k + 1) as real == 1.0;
  }

  /** After `k` requests. */
  ghost predicate Phase(cfg: CB.Config, b0: RB.Budget, k: nat, w: World) {
    var m, h := cfg.minRequests, cfg.maxHalfOpen;
    && w.calls == k && w.breakers.Some? && BreakerIn(w, "c") == CB.FRESH
    && if k <= m then
         && w.ticks == 2 * k && w.budget == Some(RB.Failures(b0, k))
         && BreakerIn(w, "a") == Failing(cfg, k, 0) && BreakerIn(w, "b") == CB.FRESH
       else
         && w.ticks >= 2 * m && BreakerIn(w, "a").state == CB.HalfOpen
         && if k <= m + h then
              && w.budget == Some(RB.Failures(b0, m)) && BreakerIn(w, "b") == CB.FRESH
              && BreakerIn(w, "a").halfOpenLeft == m + h - k
            else
              && w.budget == Some(RB.Failures(b0, k - h)) && BreakerIn(w, "b") == Failing(cfg, k - m - h, cfg.timeout)
              && BreakerIn(w, "a").halfOpenLeft == 0
  }

  lemma FirstFailures(s: Settings, o: Outside, b0: RB.Budget, k: nat, w: World)
    requires CB.Usable(s.cfg) && s.cfg.failureRatio <= 1.0 && 0 < s.max && Plays(s.cfg, o)
    requires Phase(s.cfg, b0, k, w) && k < s.cfg.minRequests
    ensures Phase(s.cfg, b0, k + 1, DoResult(s, o.env, w, [ALPHA]).world)
  {
    hide DoResult, CB.AfterFailure, RB.AfterFailure;
    LoneRequest(s, o.env, w, ALPHA);
    FailingStep(s.cfg, k, 0);
  }

  lemma Probes(s: Settings, o: Outside, b0: RB.Budget, k: nat, w: World)
    requires CB.Usable(s.cfg) && s.cfg.failureRatio <= 1.0 && 0 < s.max && Plays(s.cfg, o)
    requires Phase(s.cfg, b0, k, w) && s.cfg.minRequests <= k < s.cfg.minRequests + s.cfg.maxHalfOpen
    ensures Phase(s.cfg, b0, k + 1, DoResult(s, o.env, w, [ALPHA]).world)
  {
    hide DoResult, CB.AfterFailure, RB.AfterFailure, RB.Failures;
    LoneRequest(s, o.env, w, ALPHA);
  }

  lemma LaterFailures(s: Settings, o: Outside, b0: RB.Budget, k: nat, w: World)
    requires CB.Usable(s.cfg) && s.cfg.failureRatio <= 1.0 && 0 < s.max && Plays(s.cfg, o)
    requires Phase(s.cfg, b0, k, w) && s.cfg.minRequests + s.cfg.maxHalfOpen <= k
    ensures Phase(s.cfg, b0, k + 1, DoResult(s, o.env, w, [BETA]).world)
  {
    hide DoResult, CB.AfterFailure, RB.AfterFailure;
    LoneRequest(s, o.env, w, BETA);
    var n, t := k - s.cfg.minRequests - s.cfg.maxHalfOpen, s.cfg.timeout;
    assert BreakerIn(w, "b") == Failing(s.cfg, n, t);
    FailingStep(s.cfg, n, t);
  }

  lemma BeforeOutage(cfg: CB.Config, maxTokens: real, tokenRatio: real)
    requires CB.Usable(cfg)
    ensures Phase(cfg, RB.New(maxTokens, tokenRatio), 0, NewWorld(maxTokens, tokenRatio))
  {
  }

  lemma OneMore(s: Settings, o: Outside, w: World, k: nat)
    ensures
      var c := if k < s.cfg.minRequests + s.cfg.maxHalfOpen then ALPHA else BETA;
      Live(s, o, w, Requests(s.cfg, k + 1)).world
      == DoResult(s, o.env, Live(s, o, w, Requests(s.cfg, k)).world, [c]).world
  {
    hide DoResult, FirstToken, Lost, Won, Expected, LostTries, WonTries, ExpectedTries;
    assert Requests(s.cfg, k + 1)[..k] == Requests(s.cfg, k);
  }

  lemma {:induction false} Outage(s: Settings, o: Outside, maxTokens: real, tokenRatio: real, k: nat)
    requires CB.Usable(s.cfg) && s.cfg.failureRatio <= 1.0 && 0 < s.max && Plays(s.cfg, o)
    ensures Phase(s.cfg, RB.New(maxTokens, tokenRatio), k,
                  Live(s, o, NewWorld(maxTokens, tokenRatio), Requests(s.cfg, k)).world)
  {
    hide Phase, Plays, DoResult, NewWorld, RB.New;
    if k == 0 {
      BeforeOutage(s.cfg, maxTokens, tokenRatio);
      assert Requests(s.cfg, 0) == [];
    } else {
      hide Live, Requests;
      Outage(s, o, maxTokens, tokenRatio, k - 1);
      var b0, w0 := RB.New(maxTokens, tokenRatio), NewWorld(maxTokens, tokenRatio);
      OneMore(s, o, w0, k - 1);
      var w := Live(s, o, w0, Requests(s.cfg, k - 1)).world;
      if k - 1 < s.cfg.minRequests {
        FirstFailures(s, o, b0, k - 1, w);
      } else if k - 1 < s.cfg.minRequests + s.cfg.maxHalfOpen {
        Probes(s, o, b0, k - 1, w);
      } else {
        LaterFailures(s, o, b0, k - 1, w);
      }
    }
  }

  // ----- Where it leads

  /** `a` is half-open without probes, `b` was opened less than a timeout ago, `c` is new, and the
      budget denies. */
  ghost predicate Trapped(s: Settings, o: Outside, w: World) {
    && w.breakers.Some? && BudgetDenies(w)
    && BreakerIn(w, "a").state == CB.HalfOpen && BreakerIn(w, "a").halfOpenLeft == 0
    && BreakerIn(w, "b").state == CB.Open && o.env.clock(w.ticks) - BreakerIn(w, "b").openedAt < s.cfg.timeout
    && BreakerIn(w, "c") == CB.FRESH
  }

  /** Every configuration whose breaker can open has a life that ends there. */
  lemma TrappedIsReached(s: Settings, maxTokens: real, tokenRatio: real) returns (o: Outside, requests: seq<Request>)
    requires CB.Usable(s.cfg) && s.cfg.failureRatio <= 1.0 && 0 < s.max
    ensures Monotone(o.env.clock) && Trapped(s, o, Live(s, o, NewWorld(maxTokens, tokenRatio), requests).world)
  {
    hide Live, RB.Failures, Requests;
    o := PlayedOut(s.cfg);
    var b0 := RB.New(maxTokens, tokenRatio);
    var m, h, lost := s.cfg.minRequests, s.cfg.maxHalfOpen, (b0.maxTokens / 2.0).Floor + 1;
    var k := m + h + m + lost;
    requests := Requests(s.cfg, k);
    Outage(s, o, maxTokens, tokenRatio, k);
    RB.OutageAndRecovery(maxTokens, tokenRatio, k - h, 0);
  }

  /** `Do` returns nil without a call in every state in which the budget denies and the first of two
      workers that are not set aside has a half-open breaker without probes. */
  lemma ExhaustedIsSilent(s: Settings, env: Env, w: World, first: Worker, second: Worker)
    requires 0 < s.max && BudgetDenies(w) && w.breakers.Some? && StateIn(w, second.id) != CB.Open
    requires StateIn(w, first.id) == CB.HalfOpen && CB.Get(w.breakers.value, first.id).halfOpenLeft == 0
    ensures var out := DoResult(s, env, w, [first, second]); out.err == None && out.trace == []
  {
    hide DoResult, Partition, BudgetDenies, CB.Get;
    AllKept(s, env, w, [first, second]);
    var p := Partition(s, env, w, [first, second]);
    assert CB.Get(p.world.breakers.value, first.id) == CB.Get(w.breakers.value, first.id);
    NilWithoutCallIff(s, env, w, [first, second]);
  }

  /** After that life `Do` returns nil for two candidates without calling either. */
  lemma NilWithoutCallHappens(s: Settings, maxTokens: real, tokenRatio: real)
    returns (o: Outside, requests: seq<Request>)
    requires CB.Usable(s.cfg) && s.cfg.failureRatio <= 1.0 && 0 < s.max
    ensures
      var w := Live(s, o, NewWorld(maxTokens, tokenRatio), requests).world;
      var out := DoResult(s, o.env, w, [ALPHA, GAMMA]);
      Monotone(o.env.clock) && out.err == None && out.trace == []
  {
    hide Live, DoResult, BudgetDenies;
    o, requests := TrappedIsReached(s, maxTokens, tokenRatio);
    ExhaustedIsSilent(s, o.env, Live(s, o, NewWorld(maxTokens, tokenRatio), requests).world, ALPHA, GAMMA);
  }

  /** And the stream search returns neither a stream nor an error. */
  lemma NothingAndNoErrorHappens(s: Settings, maxTokens: real, tokenRatio: real)
    returns (o: Outside, requests: seq<Request>)
    requires CB.Usable(s.cfg) && s.cfg.failureRatio <= 1.0 && 0 < s.max
    ensures
      var w := Live(s, o, NewWorld(maxTokens, tokenRatio), requests).world;
      var out := FirstToken(s, AsStreamEnv(o), w, [ALPHA, GAMMA]);
      Monotone(o.env.clock) && out.worker == None && out.err == None
  {
    hide Live, FirstToken, BudgetDenies;
    o, requests := TrappedIsReached(s, maxTokens, tokenRatio);
    var w := Live(s, o, NewWorld(maxTokens, tokenRatio), requests).world;
    NothingAndNoErrorIff(s, AsStreamEnv(o), w, [ALPHA, GAMMA]);
  }

  /** And out of `a` and `b`, the latter set aside, `Do` calls `a` against its breaker's refusal. */
  lemma RefusedCallHappens(s: Settings, maxTokens: real, tokenRatio: real) returns (o: Outside, requests: seq<Request>)
    requires CB.Usable(s.cfg) && s.cfg.failureRatio <= 1.0 && 0 < s.max
    ensures
      var w := Live(s, o, NewWorld(maxTokens, tokenRatio), requests).world;
      var out := DoResult(s, o.env, w, [ALPHA, BETA]);
      Monotone(o.env.clock) && |out.trace| == 1 && out.trace[0].worker == ALPHA && !out.trace[0].admitted
  {
    hide Live, DoResult, BudgetDenies;
    o, requests := TrappedIsReached(s, maxTokens, tokenRatio);
    ExhaustedIsCalled(s, o.env, Live(s, o, NewWorld(maxTokens, tokenRatio), requests).world, ALPHA, BETA);
  }

  /** And with `a` alone a stream is opened against the refusal. */
  lemma RefusedStreamHappens(s: Settings, maxTokens: real, tokenRatio: real)
    returns (o: Outside, requests: seq<Request>)
    requires CB.Usable(s.cfg) && s.cfg.failureRatio <= 1.0 && 0 < s.max
    ensures
      var w := Live(s, o, NewWorld(maxTokens, tokenRatio), requests).world;
      Monotone(o.env.clock) && !Consented(FirstToken(s, AsStreamEnv(o), w, [ALPHA]).tries)
  {
    hide Live, FirstToken, BudgetDenies, Consented;
    o, requests := TrappedIsReached(s, maxTokens, tokenRatio);
    RefusedStreamIff(s, AsStreamEnv(o), Live(s, o, NewWorld(maxTokens, tokenRatio), requests).world, [ALPHA]);
  }

  lemma LoneEmpty(s: Settings, env: StreamEnv, w: World, c: Worker)
    requires env.open(w.calls) == None && env.recv(w.calls) == EndOfStream
    ensures var out := FirstToken(s, env, w, [c]); out.worker == Some(0) && out.err == None && !out.first
  {
    hide CB.AfterAllow, CB.Admits, CB.AfterFailure, CB.AfterSuccess, RB.AfterSuccess;
  }

  /** One request before its breaker would open, an empty generation is returned as a success and
      takes the breaker from closed to open. */
  lemma EmptyGenerationHappens(s: Settings, maxTokens: real, tokenRatio: real)
    returns (o: Outside, requests: seq<Request>)
    requires CB.Usable(s.cfg) && s.cfg.failureRatio <= 1.0 && 0 < s.max
    ensures
      var w := Live(s, o, NewWorld(maxTokens, tokenRatio), requests).world;
      var out := FirstToken(s, AsStreamEnv(o), w, [ALPHA]);
      && Monotone(o.env.clock) && StateIn(w, "a") == CB.Closed
      && out.worker == Some(0) && out.err == None && StateIn(out.world, "a") == CB.Open
  {
    hide Live, FirstToken, RB.Failures, Requests;
    o := PlayedOut(s.cfg);
    var k := s.cfg.minRequests - 1;
    requests := Requests(s.cfg, k);
    Outage(s, o, maxTokens, tokenRatio, k);
    var w := Live(s, o, NewWorld(maxTokens, tokenRatio), requests).world;
    LoneEmpty(s, AsStreamEnv(o), w, ALPHA);
    EmptyGenerationOpensIff(s, AsStreamEnv(o), w, [ALPHA]);
    assert (k + 1) as real / (k + 1) as real == 1.0;
  }
}
