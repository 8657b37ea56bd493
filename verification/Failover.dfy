/** Which errors of a worker call are worth another worker. */
module Classify {

  /** The gRPC status codes. */
  datatype Code =
    | OK | Canceled | Unknown | InvalidArgument | DeadlineExceeded | NotFound | AlreadyExists
    | PermissionDenied | ResourceExhausted | FailedPrecondition | Aborted | OutOfRange
    | Unimplemented | Internal | Unavailable | DataLoss | Unauthenticated

  /** An error either carries a gRPC status or does not. */
  datatype CallError = Status(code: Code) | Plain

  predicate Retryable(e: CallError) {
    match e
    case Plain => true
    case Status(c) => c.Unavailable? || c.ResourceExhausted? || c.Internal? || c.Unknown?
  }

  predicate IsExcluded(e: CallError) {
    e.Status? && (e.code.Canceled? || e.code.DeadlineExceeded?)
  }

  /** The number gRPC gives a status code on the wire. */
  function Number(c: Code): nat {
    match c
    case OK => 0 case Canceled => 1 case Unknown => 2 case InvalidArgument => 3 case DeadlineExceeded => 4
    case NotFound => 5 case AlreadyExists => 6 case PermissionDenied => 7 case ResourceExhausted => 8
    case FailedPrecondition => 9 case Aborted => 10 case OutOfRange => 11 case Unimplemented => 12
    case Internal => 13 case Unavailable => 14 case DataLoss => 15 case Unauthenticated => 16
  }

  /** Three kinds of errors, by the numbers: the caller's cancellation and deadline, the worker's
      failures that another worker may not have, and what would fail anywhere. */
  datatype Kind = Callers | Workers | Hard

  ghost function KindOf(e: CallError): Kind {
    if e.Plain? then Workers
    else if Number(e.code) in {1, 4} then Callers
    else if Number(e.code) in {2, 8, 13, 14} then Workers
    else Hard
  }

  /** The worker's failures and no others are retried, the caller's and no others are not held
      against the worker. */
  lemma KindsMean(e: CallError)
    ensures Retryable(e) <==> KindOf(e) == Workers
    ensures IsExcluded(e) <==> KindOf(e) == Callers
  {
  }
}

/** `Failover.Do`: partition the candidates by breaker state, then try them in order. */
module Failovers {
  import opened Prelude
  import opened Classify
  import CB = CircuitBreaker
  import RB = RetryBudgets

  datatype Worker = Worker(id: string, endpoint: string)

  const NOBODY := Worker("", "")

  datatype DoError = NoWorkers | NoHealthyWorker | CallFailed(e: CallError)

  /** Everything `Do` cannot control: the readings of the clock and the results of the
      calls, each numbered over the whole life of the process. */
  datatype Env = Env(clock: nat -> int, call: nat -> Option<CallError>)

  /** Everything `Do` updates; `ticks` and `calls` say how much of `Env` has been used.
      Both the budget and the breaker map are optional in the source. */
  datatype World = World(budget: Option<RB.Budget>, breakers: Option<CB.Breakers>, ticks: nat, calls: nat)

  /** One invocation of the callback: position among the ordered workers, the state of the
      worker's breaker at that moment, whether the breaker let the request through, and the
      result (`None` is success). */
  datatype Attempt =
    Attempt(pos: nat, worker: Worker, breaker: CB.State, admitted: bool, result: Option<CallError>)

  datatype Settings = Settings(cfg: CB.Config, max: int)

  // ----- Elementary effects

  function Ask(s: Settings, env: Env, w: World, id: string): (bool, World) {
    match w.breakers
    case None => (true, w)
    case Some(m) =>
      var now := env.clock(w.ticks);
      (CB.Admits(s.cfg, CB.Get(m, id), now),
       w.(breakers := Some(m[id := CB.AfterAllow(s.cfg, CB.Get(m, id), now)]), ticks := w.ticks + 1))
  }

  function StateIn(w: World, id: string): CB.State {
    match w.breakers case None => CB.Closed case Some(m) => CB.Get(m, id).state
  }

  /** Looking up a breaker creates its record. */
  function Touch(w: World, id: string): World {
    match w.breakers case None => w case Some(m) => w.(breakers := Some(m[id := CB.Get(m, id)]))
  }

  function BreakerFailure(s: Settings, env: Env, w: World, id: string): World {
    match w.breakers
    case None => w
    case Some(m) =>
      w.(breakers := Some(m[id := CB.AfterFailure(s.cfg, CB.Get(m, id), env.clock(w.ticks))]), ticks := w.ticks + 1)
  }

  function BreakerSuccess(s: Settings, w: World, id: string): World {
    match w.breakers
    case None => w
    case Some(m) => w.(breakers := Some(m[id := CB.AfterSuccess(s.cfg, CB.Get(m, id))]))
  }

  function BudgetFailure(w: World): World {
    match w.budget case None => w case Some(b) => w.(budget := Some(RB.AfterFailure(b)))
  }

  function BudgetSuccess(w: World): World {
    match w.budget case None => w case Some(b) => w.(budget := Some(RB.AfterSuccess(b)))
  }

  predicate BudgetDenies(w: World) {
    w.budget.Some? && !RB.Allows(w.budget.value)
  }

  // ----- Partition by breaker state

  datatype Split = Split(world: World, ordered: seq<Worker>, open: seq<Worker>)

  function Partition(s: Settings, env: Env, w: World, workers: seq<Worker>): Split {
    if workers == [] then Split(w, [], [])
    else
      var p := Partition(s, env, w, workers[..|workers| - 1]);
      var c := workers[|workers| - 1];
      var touched := Touch(p.world, c.id);
      if StateIn(p.world, c.id) != CB.Open then p.(world := touched, ordered := p.ordered + [c])
      else
        var (ok, asked) := Ask(s, env, touched, c.id);
        if ok then p.(world := asked, ordered := p.ordered + [c])
        else p.(world := asked, open := p.open + [c])
  }

  function Ordered(p: Split): seq<Worker> {
    if p.ordered == [] then p.open else p.ordered
  }

  // ----- The attempt loop

  datatype Loop = Loop(world: World, attempts: nat, last: Option<CallError>, trace: seq<Attempt>)

  datatype Outcome = Outcome(world: World, used: Worker, err: Option<DoError>, trace: seq<Attempt>)

  datatype Iteration = Return(out: Outcome) | Next(st: Loop)

  ghost function WorldOf(it: Iteration): World {
    if it.Return? then it.out.world else it.st.world
  }

  ghost function TraceOf(it: Iteration): seq<Attempt> {
    if it.Return? then it.out.trace else it.st.trace
  }

  function LastError(last: Option<CallError>): Option<DoError> {
    match last case None => None case Some(e) => Some(CallFailed(e))
  }

  function Exhausted(st: Loop): Outcome {
    Outcome(st.world, NOBODY, if st.last.None? then Some(NoHealthyWorker) else LastError(st.last), st.trace)
  }

  function Iterate(s: Settings, env: Env, ordered: seq<Worker>, i: nat, st: Loop): Iteration
    requires i < |ordered|
  {
    var c := ordered[i];
    if st.attempts >= s.max then Return(Exhausted(st))
    else if i > 0 && BudgetDenies(st.world) then
      Return(Outcome(st.world, NOBODY, LastError(st.last), st.trace))
    else
      var (ok, asked) := Ask(s, env, st.world, c.id);
      if !ok && |ordered| > 1 then Next(st.(world := asked)) else Call(s, env, c, i, ok, st.(world := asked))
  }

  function Call(s: Settings, env: Env, c: Worker, i: nat, ok: bool, st: Loop): Iteration {
    var result := env.call(st.world.calls);
    var w := st.world.(calls := st.world.calls + 1);
    var trace := st.trace + [Attempt(i, c, StateIn(st.world, c.id), ok, result)];
    match result
    case None => Return(Outcome(BreakerSuccess(s, BudgetSuccess(w), c.id), c, None, trace))
    case Some(e) =>
      if IsExcluded(e) then Return(Outcome(w, c, Some(CallFailed(e)), trace))
      else
        var told := BreakerFailure(s, env, w, c.id);
        if !Retryable(e) then Return(Outcome(told, c, Some(CallFailed(e)), trace))
        else Next(Loop(BudgetFailure(told), st.attempts + 1, Some(e), trace))
  }

  function Attempts(s: Settings, env: Env, ordered: seq<Worker>, i: nat, st: Loop): Outcome
    requires i <= |ordered|
    decreases |ordered| - i
  {
    if i == |ordered| then Exhausted(st)
    else match Iterate(s, env, ordered, i, st)
      case Return(out) => out
      case Next(st') => Attempts(s, env, ordered, i + 1, st')
  }

  function DoResult(s: Settings, env: Env, w: World, workers: seq<Worker>): Outcome {
    if workers == [] then Outcome(w, NOBODY, Some(NoWorkers), [])
    else
      var p := Partition(s, env, w, workers);
      Attempts(s, env, Ordered(p), 0, Loop(p.world, 0, None, []))
  }

  // ----- The imperative form

  class Failover {
    const budget: RB.RetryBudget?
    const breaker: CB.BreakerMap?
    const max: int

    constructor (budget: RB.RetryBudget?, breaker: CB.BreakerMap?, maxAttempts: int)
      ensures this.budget == budget && this.breaker == breaker
      ensures max == if 0 < maxAttempts then maxAttempts else 3
    {
      this.budget, this.breaker := budget, breaker;
      this.max := if maxAttempts <= 0 then 3 else maxAttempts;
    }

    ghost function Setup(): Settings {
      Settings(if breaker == null then CB.Config(0, 0.0, 0, 0) else breaker.cfg, max)
    }

    ghost function WorldAt(ticks: nat, calls: nat): World
      reads budget, breaker
    {
      World(if budget == null then None else Some(budget.Value()),
            if breaker == null then None else Some(breaker.m), ticks, calls)
    }

    /** `Breaker.Allow` on the optional breaker map, with the next clock reading. */
    method AskBreaker(id: string, env: Env, ticks0: nat, ghost calls: nat) returns (ok: bool, ticks: nat)
      modifies breaker
      ensures (ok, WorldAt(ticks, calls)) == Ask(Setup(), env, old(WorldAt(ticks0, calls)), id)
    {
      ok, ticks := true, ticks0;
      if breaker != null {
        ok := breaker.Allow(id, env.clock(ticks));
        ticks := ticks + 1;
      }
    }

    method SplitByBreaker(workers: seq<Worker>, env: Env, ticks0: nat, ghost calls: nat)
      returns (ordered: seq<Worker>, open: seq<Worker>, ticks: nat)
      modifies breaker
      ensures Split(WorldAt(ticks, calls), ordered, open)
              == Partition(Setup(), env, old(WorldAt(ticks0, calls)), workers)
    {
      hide Ask;
      ordered, open, ticks := [], [], ticks0;
      for n := 0 to |workers|
        invariant Split(WorldAt(ticks, calls), ordered, open)
                  == Partition(Setup(), env, old(WorldAt(ticks0, calls)), workers[..n])
      {
        assert workers[..n + 1][..n] == workers[..n];
        var w := workers[n];
        if breaker != null {
          var state := breaker.StateOf(w.id);
          if state == CB.Open {
            var ok;
            ok, ticks := AskBreaker(w.id, env, ticks, calls);
            if !ok {
              open := open + [w];
              continue;
            }
          }
        }
        ordered := ordered + [w];
      }
      assert workers[..|workers|] == workers;
    }

    /** The part of an iteration from the callback on; `done` says that `Do` returns here. */
    method CallWorker(w: Worker, i: nat, ok: bool, env: Env, ticks0: nat, calls0: nat,
                      ghost st: Loop, trace0: seq<Attempt>)
      returns (done: bool, used: Worker, err: Option<DoError>, last: Option<CallError>,
               trace: seq<Attempt>, ticks: nat, calls: nat)
      requires st.world == WorldAt(ticks0, calls0) && st.trace == trace0
      modifies budget, breaker
      ensures Call(Setup(), env, w, i, ok, st)
              == if done then Return(Outcome(WorldAt(ticks, calls), used, err, trace))
                 else Next(Loop(WorldAt(ticks, calls), st.attempts + 1, last, trace))
      ensures !done ==> used == NOBODY
    {
      hide CB.AfterSuccess, CB.AfterFailure, RB.AfterFailure, RB.AfterSuccess;
      used, err, ticks := NOBODY, None, ticks0;
      var state := CB.Closed;
      if breaker != null { state := CB.Get(breaker.m, w.id).state; }
      var result := env.call(calls0);
      last, trace, calls := result, trace0 + [Attempt(i, w, state, ok, result)], calls0 + 1;
      if result == None {
        if budget != null { budget.OnSuccess(); }
        if breaker != null { breaker.Success(w.id); }
        done, used := true, w;
        return;
      }
      if IsExcluded(result.value) {
        done, used, err := true, w, LastError(last);
        return;
      }
      if breaker != null {
        breaker.Failure(w.id, env.clock(ticks));
        ticks := ticks + 1;
      }
      if !Retryable(result.value) {
        done, used, err := true, w, LastError(last);
        return;
      }
      if budget != null { budget.OnFailure(); }
      used, done := NOBODY, false;
    }

    /** The callback is played by `env`; `trace` lists its invocations. */
    method Do(workers: seq<Worker>, env: Env, ticks0: nat, calls0: nat)
      returns (used: Worker, err: Option<DoError>, trace: seq<Attempt>, ticks: nat, calls: nat)
      modifies budget, breaker
      ensures Outcome(WorldAt(ticks, calls), used, err, trace)
              == DoResult(Setup(), env, old(WorldAt(ticks0, calls0)), workers)
    {
      hide Ask, Call, RB.Allows, Partition;
      used, err, trace, ticks, calls := NOBODY, None, [], ticks0, calls0;
      if |workers| == 0 {
        err := Some(NoWorkers);
        return;
      }
      var ordered, open;
      ordered, open, ticks := SplitByBreaker(workers, env, ticks, calls);
      if |ordered| == 0 { ordered := open; }
      var last := None;
      var attempts, i := 0, 0;
      while i < |ordered|
        invariant i <= |ordered| && used == NOBODY
        invariant Attempts(Setup(), env, ordered, i, Loop(WorldAt(ticks, calls), attempts, last, trace))
                  == DoResult(Setup(), env, old(WorldAt(ticks0, calls0)), workers)
      {
        var w := ordered[i];
        if attempts >= max { break; }
        if i > 0 && budget != null {
          var granted := budget.Allow();
          if !granted {
            err := LastError(last);
            return;
          }
        }
        var ok;
        ok, ticks := AskBreaker(w.id, env, ticks, calls);
        if ok || |ordered| <= 1 {
          ghost var st := Loop(WorldAt(ticks, calls), attempts, last, trace);
          var done;
          attempts := attempts + 1;
          done, used, err, last, trace, ticks, calls := CallWorker(w, i, ok, env, ticks, calls, st, trace);
          if done { return; }
        }
        i := i + 1;
      }
      err := if last == None then Some(NoHealthyWorker) else LastError(last);
    }
  }

  // ----- The partition

  predicate Subsequence<T(==)>(xs: seq<T>, ys: seq<T>) {
    if xs == [] then true
    else if ys == [] then false
    else if xs[|xs| - 1] == ys[|ys| - 1] then Subsequence(xs[..|xs| - 1], ys[..|ys| - 1])
    else Subsequence(xs, ys[..|ys| - 1])
  }

  lemma {:induction false} SubsequenceSkip<T>(xs: seq<T>, ys: seq<T>, y: T)
    requires Subsequence(xs, ys)
    ensures Subsequence(xs, ys + [y])
    decreases |ys|, 1
  {
    assert (ys + [y])[..|ys|] == ys;
    if xs != [] && xs[|xs| - 1] == y {
      SubsequenceInit(xs, ys);
    }
  }

  lemma {:induction false} SubsequenceInit<T>(xs: seq<T>, ys: seq<T>)
    requires xs != [] && Subsequence(xs, ys)
    ensures Subsequence(xs[..|xs| - 1], ys)
    decreases |ys|, 0
  {
    var init := ys[..|ys| - 1];
    assert ys == init + [ys[|ys| - 1]];
    if xs[|xs| - 1] != ys[|ys| - 1] { SubsequenceInit(xs, init); }
    SubsequenceSkip(xs[..|xs| - 1], init, ys[|ys| - 1]);
  }

  lemma SubsequenceTake<T>(xs: seq<T>, ys: seq<T>, y: T)
    requires Subsequence(xs, ys)
    ensures Subsequence(xs + [y], ys + [y])
  {
    assert (ys + [y])[..|ys|] == ys && (xs + [y])[..|xs|] == xs;
  }

  /** Asking a breaker never opens it, and a request is let through only if it is not open. */
  lemma AskFacts(s: Settings, env: Env, w: World, id: string, other: string)
    ensures var (ok, w') := Ask(s, env, w, id);
      && w'.budget == w.budget && w'.calls == w.calls
      && (ok ==> StateIn(w', id) != CB.Open)
      && (StateIn(w, other) != CB.Open ==> StateIn(w', other) != CB.Open)
  {
  }

  lemma TouchFacts(w: World, id: string, other: string)
    ensures Touch(w, id).budget == w.budget && Touch(w, id).calls == w.calls
    ensures StateIn(Touch(w, id), other) == StateIn(w, other)
  {
  }

  /** A worker kept for the loop does not have an open breaker when the loop starts. */
  lemma {:induction false} KeptAreNotOpen(s: Settings, env: Env, w: World, workers: seq<Worker>, c: Worker)
    requires c in Partition(s, env, w, workers).ordered
    ensures StateIn(Partition(s, env, w, workers).world, c.id) != CB.Open
  {
    hide Ask, Touch, StateIn;
    var init, d := workers[..|workers| - 1], workers[|workers| - 1];
    var p := Partition(s, env, w, init);
    if c in p.ordered { KeptAreNotOpen(s, env, w, init, c); }
    TouchFacts(p.world, d.id, c.id);
    AskFacts(s, env, Touch(p.world, d.id), d.id, c.id);
  }

  /** Candidates keep their order, none is invented and each goes to exactly one side. */
  lemma {:induction false} PartitionFacts(s: Settings, env: Env, w: World, workers: seq<Worker>)
    ensures var p := Partition(s, env, w, workers);
      && Subsequence(p.ordered, workers) && Subsequence(p.open, workers)
      && |p.ordered| + |p.open| == |workers|
      && (p.ordered == [] ==> p.open == workers)
      && p.world.budget == w.budget && p.world.calls == w.calls
  {
    hide Ask, Touch, StateIn, Subsequence;
    if workers == [] {
      SubsequenceRefl(workers);
    } else {
      var init, c := workers[..|workers| - 1], workers[|workers| - 1];
      PartitionFacts(s, env, w, init);
      var p := Partition(s, env, w, init);
      assert workers == init + [c];
      TouchFacts(p.world, c.id, c.id);
      AskFacts(s, env, Touch(p.world, c.id), c.id, c.id);
      SubsequenceSkip(p.ordered, init, c);
      SubsequenceTake(p.ordered, init, c);
      SubsequenceSkip(p.open, init, c);
      SubsequenceTake(p.open, init, c);
    }
  }

  // ----- Exact account of one run of the loop

  ghost predicate FailedRetryably(a: Attempt) {
    a.result.Some? && Retryable(a.result.value)
  }

  /** Calls go through the ordered workers from left to right, no position twice. */
  ghost predicate InOrder(trace: seq<Attempt>, ordered: seq<Worker>) {
    && (forall k :: 0 <= k < |trace| ==> trace[k].pos < |ordered| && trace[k].worker == ordered[trace[k].pos])
    && (forall j, k :: 0 <= j < k < |trace| ==> trace[j].pos < trace[k].pos)
  }

  /** A legal record of the first `i` positions: at most `max` calls, in order, all but the
      last failed retryably, and none refused by its breaker unless the worker is alone. */
  ghost predicate Legal(s: Settings, ordered: seq<Worker>, i: nat, trace: seq<Attempt>) {
    && InOrder(trace, ordered)
    && (0 <= s.max ==> |trace| <= s.max)
    && (forall k :: 0 <= k < |trace| ==> trace[k].pos < i)
    && (forall k :: 0 <= k < |trace| - 1 ==> FailedRetryably(trace[k]))
    && (|ordered| > 1 ==> forall k :: 0 <= k < |trace| ==> trace[k].admitted && trace[k].breaker != CB.Open)
  }

  /** The loop only goes on after retryable failures. */
  ghost predicate GoingOn(s: Settings, ordered: seq<Worker>, i: nat, st: Loop) {
    && Legal(s, ordered, i, st.trace) && st.attempts == |st.trace|
    && if st.trace == [] then st.last == None
       else st.last == st.trace[|st.trace| - 1].result && FailedRetryably(st.trace[|st.trace| - 1])
  }

  /** The outcome reports the last call: its result is the error, and its worker is named
      unless it failed retryably. */
  ghost predicate Reports(out: Outcome) {
    if out.trace == [] then out.used == NOBODY && (out.err == None || out.err == Some(NoHealthyWorker))
    else
      var last := out.trace[|out.trace| - 1];
      && out.err == LastError(last.result)
      && out.used == if FailedRetryably(last) then NOBODY else last.worker
  }

  ghost predicate Accounted(s: Settings, ordered: seq<Worker>, out: Outcome) {
    Legal(s, ordered, |ordered|, out.trace) && Reports(out)
  }

  lemma LegalExtend(s: Settings, ordered: seq<Worker>, i: nat, trace: seq<Attempt>, a: Attempt)
    requires Legal(s, ordered, i, trace) && i < |ordered| && |trace| < s.max
    requires trace == [] || FailedRetryably(trace[|trace| - 1])
    requires a.pos == i && a.worker == ordered[i] && (|ordered| > 1 ==> a.admitted && a.breaker != CB.Open)
    ensures Legal(s, ordered, i + 1, trace + [a]) && Legal(s, ordered, |ordered|, trace + [a])
  {
  }

  lemma LegalLater(s: Settings, ordered: seq<Worker>, i: nat, j: nat, trace: seq<Attempt>)
    requires Legal(s, ordered, i, trace) && i <= j
    ensures Legal(s, ordered, j, trace)
  {
  }

  lemma IterateFacts(s: Settings, env: Env, ordered: seq<Worker>, i: nat, st: Loop)
    requires i < |ordered| && GoingOn(s, ordered, i, st)
    ensures match Iterate(s, env, ordered, i, st)
      case Return(out) => Accounted(s, ordered, out)
      case Next(st') => GoingOn(s, ordered, i + 1, st')
  {
    hide Ask, StateIn, BreakerFailure, BreakerSuccess, BudgetFailure, BudgetSuccess, BudgetDenies, Legal;
    AskFacts(s, env, st.world, ordered[i].id, ordered[i].id);
    LegalLater(s, ordered, i, i + 1, st.trace);
    LegalLater(s, ordered, i, |ordered|, st.trace);
    var (ok, asked) := Ask(s, env, st.world, ordered[i].id);
    if st.attempts < s.max && (ok || |ordered| <= 1) {
      LegalExtend(s, ordered, i, st.trace,
                  Attempt(i, ordered[i], StateIn(asked, ordered[i].id), ok, env.call(asked.calls)));
    }
  }

  lemma {:induction false} AttemptsFacts(s: Settings, env: Env, ordered: seq<Worker>, i: nat, st: Loop)
    requires i <= |ordered| && GoingOn(s, ordered, i, st)
    ensures Accounted(s, ordered, Attempts(s, env, ordered, i, st))
    decreases |ordered| - i
  {
    hide Iterate, Legal;
    if i < |ordered| {
      IterateFacts(s, env, ordered, i, st);
      match Iterate(s, env, ordered, i, st)
      case Return(_) =>
      case Next(st') => AttemptsFacts(s, env, ordered, i + 1, st');
    }
  }

  /** What `Do` did and what it returned: calls in candidate order, at most `max`, all but
      the last failed retryably, the error is the last call's result, and with two or more
      candidates no worker is called while its breaker is open. */
  lemma DoOutcome(s: Settings, env: Env, w: World, workers: seq<Worker>)
    requires workers != []
    ensures
      var ordered := Ordered(Partition(s, env, w, workers));
      var out := DoResult(s, env, w, workers);
      && Subsequence(ordered, workers) && ordered != []
      && Accounted(s, ordered, out)
      && (|workers| > 1 ==> forall k :: 0 <= k < |out.trace| ==> out.trace[k].breaker != CB.Open)
  {
    hide Partition, Attempts, Accounted, Subsequence;
    PartitionFacts(s, env, w, workers);
    var p := Partition(s, env, w, workers);
    var start := Loop(p.world, 0, None, []);
    SubsequenceRefl(workers);
    AttemptsFacts(s, env, Ordered(p), 0, start);
    if |Ordered(p)| > 1 { AccountedFacts(s, Ordered(p), Attempts(s, env, Ordered(p), 0, start)); }
    if |workers| > 1 && |Ordered(p)| == 1 {
      KeptAreNotOpen(s, env, w, workers, p.ordered[0]);
      assert Ordered(p) == [p.ordered[0]];
      OnlyCandidate(s, env, p.ordered[0], start);
    }
  }

  lemma AccountedFacts(s: Settings, ordered: seq<Worker>, out: Outcome)
    requires Accounted(s, ordered, out) && |ordered| > 1
    ensures forall k :: 0 <= k < |out.trace| ==> out.trace[k].breaker != CB.Open
  {
  }

  lemma {:induction false} SubsequenceRefl<T>(xs: seq<T>)
    ensures Subsequence(xs, xs)
  {
    if xs != [] { SubsequenceRefl(xs[..|xs| - 1]); }
  }

  /** A single ordered worker is called even when its breaker refuses, but a breaker that was
      not open before is not open at the call either. */
  lemma OnlyCandidate(s: Settings, env: Env, c: Worker, st: Loop)
    requires st.attempts == 0 && st.trace == [] && st.last == None
    ensures
      var out := Attempts(s, env, [c], 0, st);
      && |out.trace| == (if 0 < s.max then 1 else 0)
      && (out.trace != [] && StateIn(st.world, c.id) != CB.Open ==> out.trace[0].breaker != CB.Open)
  {
    match Iterate(s, env, [c], 0, st)
    case Return(_) =>
    case Next(st') => assert Attempts(s, env, [c], 1, st') == Exhausted(st');
  }

  /** Panic mode: a lone candidate is always called, open breaker or not. */
  lemma LoneCandidateIsCalled(s: Settings, env: Env, w: World, c: Worker)
    requires 0 < s.max
    ensures |DoResult(s, env, w, [c]).trace| == 1 && DoResult(s, env, w, [c]).trace[0].worker == c
  {
    DoOutcome(s, env, w, [c]);
    PartitionFacts(s, env, w, [c]);
    var p := Partition(s, env, w, [c]);
    assert Ordered(p) == [c] by {
      assert [c][..0] == [];
      assert Partition(s, env, w, []) == Split(w, [], []);
    }
    OnlyCandidate(s, env, c, Loop(p.world, 0, None, []));
  }

  // ----- Success without a call

  /** The guard of the branch that returns a nil error although nothing was called. */
  ghost predicate SilentNil(s: Settings, env: Env, w: World, workers: seq<Worker>) {
    workers != [] && 0 < s.max &&
    var p := Partition(s, env, w, workers);
    && |Ordered(p)| >= 2
    && !Ask(s, env, p.world, Ordered(p)[0].id).0
    && BudgetDenies(w)
  }

  /** `Do` reports success without having called anyone exactly when there are two or more
      ordered workers, the first is refused by its breaker and the budget denies. */
  lemma NilWithoutCallIff(s: Settings, env: Env, w: World, workers: seq<Worker>)
    ensures
      var out := DoResult(s, env, w, workers);
      out.err == None && out.trace == [] <==> SilentNil(s, env, w, workers)
  {
    hide Partition, Ask, Call, Attempts, BudgetDenies;
    if workers != [] {
      PartitionFacts(s, env, w, workers);
      var p := Partition(s, env, w, workers);
      FirstRefused(s, env, Ordered(p), Loop(p.world, 0, None, []));
      BudgetDecides(w, p.world);
    }
  }

  lemma BudgetDecides(w: World, w': World)
    requires w.budget == w'.budget
    ensures BudgetDenies(w) == BudgetDenies(w')
  {
  }

  lemma CallRecords(s: Settings, env: Env, c: Worker, i: nat, ok: bool, st: Loop)
    ensures match Call(s, env, c, i, ok, st)
      case Return(out) => out.trace != []
      case Next(st') => st'.trace != []
  {
  }

  lemma FirstRefused(s: Settings, env: Env, ordered: seq<Worker>, st: Loop)
    requires ordered != [] && st.trace == [] && st.attempts == 0 && st.last == None
    ensures
      var out := Attempts(s, env, ordered, 0, st);
      out.err == None && out.trace == []
      <==> 0 < s.max && |ordered| >= 2 && !Ask(s, env, st.world, ordered[0].id).0 && BudgetDenies(st.world)
  {
    hide Ask, Call, BudgetDenies;
    var (ok, asked) := Ask(s, env, st.world, ordered[0].id);
    AskFacts(s, env, st.world, ordered[0].id, ordered[0].id);
    BudgetDecides(st.world, asked);
    CallRecords(s, env, ordered[0], 0, ok, st.(world := asked));
    match Iterate(s, env, ordered, 0, st)
    case Return(_) =>
    case Next(st') =>
      AttemptsExtend(s, env, ordered, 1, st');
      if st'.trace == [] { NothingCalledYet(s, env, ordered, 1, st'); }
  }

  lemma {:induction false} NothingCalledYet(s: Settings, env: Env, ordered: seq<Worker>, i: nat, st: Loop)
    requires 0 < i <= |ordered| && st.trace == [] && st.attempts == 0 && st.last == None && 0 < s.max
    ensures
      var out := Attempts(s, env, ordered, i, st);
      out.err == None && out.trace == [] <==> i < |ordered| && BudgetDenies(st.world)
    decreases |ordered| - i
  {
    hide Ask, Call, BudgetDenies;
    if i < |ordered| {
      var (ok, asked) := Ask(s, env, st.world, ordered[i].id);
      AskFacts(s, env, st.world, ordered[i].id, ordered[i].id);
      BudgetDecides(st.world, asked);
      CallRecords(s, env, ordered[i], i, ok, st.(world := asked));
      match Iterate(s, env, ordered, i, st)
      case Return(_) =>
      case Next(st') =>
        AttemptsExtend(s, env, ordered, i + 1, st');
        if st'.trace == [] { NothingCalledYet(s, env, ordered, i + 1, st'); }
    }
  }

  lemma {:induction false} AttemptsExtend(s: Settings, env: Env, ordered: seq<Worker>, i: nat, st: Loop)
    requires i <= |ordered|
    ensures st.trace <= Attempts(s, env, ordered, i, st).trace
    decreases |ordered| - i
  {
    if i < |ordered| {
      match Iterate(s, env, ordered, i, st)
      case Return(_) =>
      case Next(st') => AttemptsExtend(s, env, ordered, i + 1, st');
    }
  }

  lemma TouchKeeps(w: World, id: string)
    requires w.breakers.Some?
    ensures var w' := Touch(w, id);
      w'.breakers.Some? && forall other :: CB.Get(w'.breakers.value, other) == CB.Get(w.breakers.value, other)
  {
  }

  /** With no breaker open, every candidate is kept and no breaker changes. */
  lemma {:induction false} AllKept(s: Settings, env: Env, w: World, workers: seq<Worker>)
    requires w.breakers.Some? && forall c :: c in workers ==> StateIn(w, c.id) != CB.Open
    ensures
      var p := Partition(s, env, w, workers);
      && p.ordered == workers && p.world.breakers.Some?
      && forall id :: CB.Get(p.world.breakers.value, id) == CB.Get(w.breakers.value, id)
  {
    hide Ask, Touch, CB.Get;
    if workers != [] {
      var init, c := workers[..|workers| - 1], workers[|workers| - 1];
      AllKept(s, env, w, init);
      var p := Partition(s, env, w, init);
      assert c in workers && CB.Get(p.world.breakers.value, c.id) == CB.Get(w.breakers.value, c.id);
      assert workers == init + [c];
      TouchKeeps(p.world, c.id);
    }
  }

  // ----- Without breaker and budget nobody is skipped

  lemma {:induction false} UnguardedLoop(s: Settings, env: Env, ordered: seq<Worker>, i: nat, st: Loop)
    requires i <= |ordered| && st.world.budget == None && st.world.breakers == None
    requires st.attempts == |st.trace| == i && forall k :: 0 <= k < i ==> st.trace[k].pos == k
    ensures
      var out := Attempts(s, env, ordered, i, st);
      && (forall k :: 0 <= k < |out.trace| ==> out.trace[k].pos == k)
      && ((forall k :: 0 <= k < |out.trace| ==> FailedRetryably(out.trace[k])) ==>
            |out.trace| == |ordered| || |out.trace| >= s.max)
    decreases |ordered| - i
  {
    if i < |ordered| && st.attempts < s.max {
      var it := Call(s, env, ordered[i], i, true, st);
      assert Iterate(s, env, ordered, i, st) == it;
      UnguardedCall(s, env, ordered[i], i, true, st);
      hide Call;
      match it
      case Return(_) =>
      case Next(st') => UnguardedLoop(s, env, ordered, i + 1, st');
    }
  }

  lemma UnguardedCall(s: Settings, env: Env, c: Worker, i: nat, ok: bool, st: Loop)
    requires st.world.budget == None && st.world.breakers == None
    requires st.attempts == |st.trace| == i && forall k :: 0 <= k < i ==> st.trace[k].pos == k
    ensures match Call(s, env, c, i, ok, st)
      case Return(out) =>
        |out.trace| == i + 1 && !FailedRetryably(out.trace[i]) && forall k :: 0 <= k <= i ==> out.trace[k].pos == k
      case Next(st') =>
        && st'.world.budget == None && st'.world.breakers == None
        && st'.attempts == |st'.trace| == i + 1 && FailedRetryably(st'.trace[i])
        && forall k :: 0 <= k <= i ==> st'.trace[k].pos == k
  {
  }

  /** With neither breaker nor budget, `Do` gives up only after `max` calls or after every
      candidate, and skips nobody on the way. */
  lemma UnguardedTriesAll(s: Settings, env: Env, w: World, workers: seq<Worker>)
    requires w.budget == None && w.breakers == None
    ensures
      var out := DoResult(s, env, w, workers);
      && (forall k :: 0 <= k < |out.trace| ==>
           out.trace[k].pos == k && k < |workers| && out.trace[k].worker == workers[k])
      && ((forall k :: 0 <= k < |out.trace| ==> FailedRetryably(out.trace[k])) ==>
            |out.trace| == |workers| || |out.trace| >= s.max)
  {
    if workers != [] {
      UnguardedPartition(s, env, w, workers);
      UnguardedLoop(s, env, workers, 0, Loop(w, 0, None, []));
      hide Attempts, Partition;
      DoOutcome(s, env, w, workers);
    }
  }

  lemma {:induction false} UnguardedPartition(s: Settings, env: Env, w: World, workers: seq<Worker>)
    requires w.breakers == None
    ensures Partition(s, env, w, workers) == Split(w, workers, [])
  {
    hide Ask, Touch, StateIn;
    if workers != [] {
      var init, c := workers[..|workers| - 1], workers[|workers| - 1];
      UnguardedPartition(s, env, w, init);
      NoBreakers(w, c.id);
      assert workers == init + [c];
    }
  }

  lemma NoBreakers(w: World, id: string)
    requires w.breakers == None
    ensures Touch(w, id) == w && StateIn(w, id) == CB.Closed
  {
  }

  // ----- What one call costs the budget

  ghost predicate GrantedAndLost(a: Attempt) {
    a.pos > 0 && FailedRetryably(a)
  }

  ghost function Lost(trace: seq<Attempt>): nat {
    if trace == [] then 0
    else Lost(trace[..|trace| - 1]) + if GrantedAndLost(trace[|trace| - 1]) then 1 else 0
  }

  ghost function Won(trace: seq<Attempt>): nat {
    if trace == [] then 0
    else Won(trace[..|trace| - 1]) + if trace[|trace| - 1].result.None? then 1 else 0
  }

  lemma {:induction false} CountsAppend(xs: seq<Attempt>, ys: seq<Attempt>)
    ensures Lost(xs + ys) == Lost(xs) + Lost(ys) && Won(xs + ys) == Won(xs) + Won(ys)
  {
    if ys == [] {
      assert xs + ys == xs;
    } else {
      assert (xs + ys)[..|xs + ys| - 1] == xs + ys[..|ys| - 1];
      CountsAppend(xs, ys[..|ys| - 1]);
    }
  }

  /** Same bucket, still in range, and every granted retry that was lost is paid for. */
  ghost predicate Paid(b: RB.Budget, b': RB.Budget, lost: nat, won: nat) {
    && RB.InRange(b') && b'.maxTokens == b.maxTokens && b'.tokenRatio == b.tokenRatio
    && RB.Potential(b') + RB.Price(b) * lost as real <= RB.Potential(b) + b.tokenRatio * won as real
  }

  lemma PaidTrans(a: RB.Budget, b: RB.Budget, c: RB.Budget, l0: nat, w0: nat, l1: nat, w1: nat)
    requires Paid(a, b, l0, w0) && Paid(b, c, l1, w1)
    ensures Paid(a, c, l0 + l1, w0 + w1)
  {
    var p, r := RB.Price(a), a.tokenRatio;
    assert p * (l0 + l1) as real == p * l0 as real + p * l1 as real;
    assert r * (w0 + w1) as real == r * w0 as real + r * w1 as real;
  }

  lemma NothingPaid(b: RB.Budget)
    requires RB.InRange(b)
    ensures Paid(b, b, Lost([]), Won([]))
  {
  }

  lemma PaidInRange(b: RB.Budget, b': RB.Budget, lost: nat, won: nat)
    requires Paid(b, b', lost, won)
    ensures RB.InRange(b')
  {
  }

  lemma Settle(b: RB.Budget, b': RB.Budget, lost: nat, won: nat)
    requires RB.InRange(b) && Paid(b, b', lost, won)
    ensures RB.Price(b) * lost as real <= b.maxTokens / 2.0 + RB.Price(b) + b.tokenRatio * won as real
  {
    hide RB.Potential, RB.AfterFailure, RB.AfterSuccess;
    RB.PotentialFacts(b);
    RB.PotentialFacts(b');
    assert RB.Price(b') == RB.Price(b);
  }

  ghost function New(before: seq<Attempt>, after: seq<Attempt>): seq<Attempt>
    requires before <= after
  {
    after[|before|..]
  }

  lemma IteratePaid(s: Settings, env: Env, ordered: seq<Worker>, i: nat, st: Loop)
    requires i < |ordered| && st.world.budget.Some? && RB.InRange(st.world.budget.value)
    ensures
      var it := Iterate(s, env, ordered, i, st);
      var w, trace := WorldOf(it), TraceOf(it);
      && st.trace <= trace && w.budget.Some?
      && Paid(st.world.budget.value, w.budget.value, Lost(New(st.trace, trace)), Won(New(st.trace, trace)))
  {
    hide Ask, Call, Lost, Won, Paid;
    var b := st.world.budget.value;
    var (ok, asked) := Ask(s, env, st.world, ordered[i].id);
    AskFacts(s, env, st.world, ordered[i].id, "");
    BudgetDecides(st.world, asked);
    if st.attempts < s.max && !(i > 0 && BudgetDenies(st.world)) && (ok || |ordered| <= 1) {
      CallPaid(s, env, ordered[i], i, ok, st.(world := asked));
    } else {
      assert New(st.trace, st.trace) == [];
      NothingPaid(b);
    }
  }

  lemma CallPaid(s: Settings, env: Env, c: Worker, i: nat, ok: bool, st: Loop)
    requires st.world.budget.Some? && RB.InRange(st.world.budget.value) && (i > 0 ==> !BudgetDenies(st.world))
    ensures
      var it := Call(s, env, c, i, ok, st);
      && st.trace <= TraceOf(it) && WorldOf(it).budget.Some?
      && Paid(st.world.budget.value, WorldOf(it).budget.value,
              Lost(New(st.trace, TraceOf(it))), Won(New(st.trace, TraceOf(it))))
  {
    hide Lost, Won, Paid, CB.AfterFailure, CB.AfterSuccess, RB.AfterFailure, RB.AfterSuccess;
    var b := st.world.budget.value;
    var a := Attempt(i, c, StateIn(st.world, c.id), ok, env.call(st.world.calls));
    assert TraceOf(Call(s, env, c, i, ok, st)) == st.trace + [a];
    assert New(st.trace, st.trace + [a]) == [a];
    CountOne(a);
    OnePaid(b, i > 0);
  }

  lemma CountOne(a: Attempt)
    ensures Lost([a]) == (if GrantedAndLost(a) then 1 else 0) && Won([a]) == if a.result.None? then 1 else 0
  {
    var one := [a];
    assert one[..|one| - 1] == [] && Lost([]) == 0 && Won([]) == 0;
  }

  lemma OnePaid(b: RB.Budget, granted: bool)
    requires RB.InRange(b) && (granted ==> RB.Allows(b))
    ensures Paid(b, RB.AfterFailure(b), if granted then 1 else 0, 0)
    ensures Paid(b, RB.AfterSuccess(b), 0, 1) && Paid(b, b, 0, 0)
  {
    RB.PotentialFacts(b);
  }

  lemma {:induction false} AttemptsPaid(s: Settings, env: Env, ordered: seq<Worker>, i: nat, st: Loop)
    requires i <= |ordered| && st.world.budget.Some? && RB.InRange(st.world.budget.value)
    ensures
      var out := Attempts(s, env, ordered, i, st);
      && st.trace <= out.trace && out.world.budget.Some?
      && Paid(st.world.budget.value, out.world.budget.value,
              Lost(New(st.trace, out.trace)), Won(New(st.trace, out.trace)))
    decreases |ordered| - i
  {
    hide Iterate, Lost, Won, Paid;
    if i == |ordered| {
      assert New(st.trace, st.trace) == [];
      NothingPaid(st.world.budget.value);
    } else {
      IteratePaid(s, env, ordered, i, st);
      match Iterate(s, env, ordered, i, st)
      case Return(_) =>
      case Next(st') =>
        var a := New(st.trace, st'.trace);
        PaidInRange(st.world.budget.value, st'.world.budget.value, Lost(a), Won(a));
        AttemptsPaid(s, env, ordered, i + 1, st');
        var out := Attempts(s, env, ordered, i, st);
        var b := New(st'.trace, out.trace);
        assert New(st.trace, out.trace) == a + b;
        CountsAppend(a, b);
        PaidTrans(st.world.budget.value, st'.world.budget.value, out.world.budget.value,
                  Lost(a), Won(a), Lost(b), Won(b));
    }
  }

  lemma DoPaid(s: Settings, env: Env, w: World, req: seq<Worker>)
    requires w.budget.Some? && RB.InRange(w.budget.value)
    ensures
      var out := DoResult(s, env, w, req);
      out.world.budget.Some? && Paid(w.budget.value, out.world.budget.value, Lost(out.trace), Won(out.trace))
  {
    hide Partition, Attempts, Lost, Won, Paid;
    if req == [] {
      NothingPaid(w.budget.value);
    } else {
      PartitionFacts(s, env, w, req);
      var p := Partition(s, env, w, req);
      AttemptsPaid(s, env, Ordered(p), 0, Loop(p.world, 0, None, []));
      var out := DoResult(s, env, w, req);
      assert New([], out.trace) == out.trace;
    }
  }

  // ----- Exact effect of one call on the budget

  /** A success pays in, a retryable failure pays out, everything else is free. */
  function Charged(b: RB.Budget, trace: seq<Attempt>): RB.Budget {
    if trace == [] then b
    else
      var before, a := Charged(b, trace[..|trace| - 1]), trace[|trace| - 1];
      if a.result.None? then RB.AfterSuccess(before)
      else if Retryable(a.result.value) then RB.AfterFailure(before)
      else before
  }

  lemma ChargedOne(b: RB.Budget, trace: seq<Attempt>, a: Attempt)
    ensures Charged(b, trace + [a])
            == if a.result.None? then RB.AfterSuccess(Charged(b, trace))
               else if Retryable(a.result.value) then RB.AfterFailure(Charged(b, trace))
               else Charged(b, trace)
  {
    assert (trace + [a])[..|trace + [a]| - 1] == trace;
  }

  lemma CallCharges(s: Settings, env: Env, c: Worker, i: nat, ok: bool, st: Loop, b: RB.Budget)
    requires st.world.budget == Some(Charged(b, st.trace))
    ensures var it := Call(s, env, c, i, ok, st); WorldOf(it).budget == Some(Charged(b, TraceOf(it)))
  {
    hide RB.AfterFailure, RB.AfterSuccess, CB.AfterFailure, CB.AfterSuccess, Charged;
    ChargedOne(b, st.trace, Attempt(i, c, StateIn(st.world, c.id), ok, env.call(st.world.calls)));
  }

  lemma {:induction false} AttemptsCharge(s: Settings, env: Env, ordered: seq<Worker>, i: nat, st: Loop, b: RB.Budget)
    requires i <= |ordered| && st.world.budget == Some(Charged(b, st.trace))
    ensures
      var out := Attempts(s, env, ordered, i, st);
      out.world.budget == Some(Charged(b, out.trace))
    decreases |ordered| - i
  {
    hide Ask, Call, BudgetDenies, Charged;
    if i < |ordered| {
      var (ok, asked) := Ask(s, env, st.world, ordered[i].id);
      AskFacts(s, env, st.world, ordered[i].id, "");
      CallCharges(s, env, ordered[i], i, ok, st.(world := asked), b);
      match Iterate(s, env, ordered, i, st)
      case Return(_) =>
      case Next(st') => AttemptsCharge(s, env, ordered, i + 1, st', b);
    }
  }

  /** After `Do` the budget is exactly what its calls make it. */
  lemma DoCharges(s: Settings, env: Env, w: World, workers: seq<Worker>)
    requires w.budget.Some?
    ensures
      var out := DoResult(s, env, w, workers);
      out.world.budget == Some(Charged(w.budget.value, out.trace))
  {
    hide Partition, Attempts;
    if workers != [] {
      PartitionFacts(s, env, w, workers);
      var p := Partition(s, env, w, workers);
      AttemptsCharge(s, env, Ordered(p), 0, Loop(p.world, 0, None, []), w.budget.value);
    }
  }
}
