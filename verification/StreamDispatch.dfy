/** `streamFirstToken`: open a stream on one worker after another until a first chunk arrives. */
module StreamDispatch {
  import opened Prelude
  import opened Classify
  import opened Failovers
  import CB = CircuitBreaker
  import RB = RetryBudgets

  datatype Recv = Chunk | EndOfStream | Broken(e: CallError)

  /** The outside world: the clock, and for the n-th attempt the results of opening the
      stream (`None` is success) and of the first receive. */
  datatype StreamEnv = StreamEnv(clock: nat -> int, open: nat -> Option<CallError>, recv: nat -> Recv)

  /** What happens to streams and breakers, in order; `pos` is the worker's position. */
  datatype StreamEvent = Opened(pos: nat) | Closed(pos: nat) | Failed(pos: nat) | Succeeded(pos: nat)

  /** One attempt: the position, whether the breaker let it through, and what the outside
      answered; `recv` matters only if the open succeeded. */
  datatype Try = Try(pos: nat, admitted: bool, open: Option<CallError>, recv: Recv)

  datatype StreamLoop = StreamLoop(world: World, last: Option<CallError>, log: seq<StreamEvent>, tries: seq<Try>)

  /** `worker` is the returned worker's position, `first` whether a first chunk is returned. */
  datatype StreamOutcome =
    StreamOutcome(world: World, worker: Option<nat>, first: bool, err: Option<DoError>,
                  log: seq<StreamEvent>, tries: seq<Try>)

  datatype StreamIteration = Give(out: StreamOutcome) | Again(st: StreamLoop)

  function AsEnv(env: StreamEnv): Env {
    Env(env.clock, env.open)
  }

  /** Cancelled and expired attempts are not held against the worker. */
  function FailRecorded(s: Settings, env: StreamEnv, st: StreamLoop, c: Worker, i: nat, e: CallError): StreamLoop {
    if IsExcluded(e) || st.world.breakers.None? then st
    else st.(world := BreakerFailure(s, AsEnv(env), st.world, c.id), log := st.log + [Failed(i)])
  }

  function SuccessRecorded(s: Settings, st: StreamLoop, c: Worker, i: nat): StreamLoop {
    if st.world.breakers.None? then st.(world := BudgetSuccess(st.world))
    else st.(world := BreakerSuccess(s, BudgetSuccess(st.world), c.id), log := st.log + [Succeeded(i)])
  }

  /** After a failure: stop on a hard error, otherwise charge the budget and go on. */
  function AfterLoss(s: Settings, env: StreamEnv, st: StreamLoop, c: Worker, i: nat, e: CallError): StreamIteration {
    var told := FailRecorded(s, env, st, c, i, e);
    if !Retryable(e) then Give(StreamOutcome(told.world, None, false, Some(CallFailed(e)), told.log, told.tries))
    else Again(StreamLoop(BudgetFailure(told.world), Some(e), told.log, told.tries))
  }

  function Win(st: StreamLoop, i: nat, first: bool): StreamIteration {
    Give(StreamOutcome(st.world, Some(i), first, None, st.log, st.tries))
  }

  function Dial(s: Settings, env: StreamEnv, c: Worker, i: nat, ok: bool, st: StreamLoop): StreamIteration {
    var n := st.world.calls;
    var tried := st.(world := st.world.(calls := n + 1), tries := st.tries + [Try(i, ok, env.open(n), env.recv(n))]);
    match env.open(n)
    case Some(e) => AfterLoss(s, env, tried, c, i, e)
    case None =>
      var live := tried.(log := tried.log + [Opened(i)]);
      match env.recv(n)
      case Chunk => Win(SuccessRecorded(s, live, c, i), i, true)
      case EndOfStream =>
        var closed := live.(log := live.log + [Closed(i)]);
        Win(SuccessRecorded(s, FailRecorded(s, env, closed, c, i, Plain), c, i), i, false)
      case Broken(e) => AfterLoss(s, env, live.(log := live.log + [Closed(i)]), c, i, e)
  }

  function StreamStep(s: Settings, env: StreamEnv, workers: seq<Worker>, i: nat, st: StreamLoop): StreamIteration
    requires i < |workers|
  {
    var c := workers[i];
    if i > 0 && BudgetDenies(st.world) then
      Give(StreamOutcome(st.world, None, false, LastError(st.last), st.log, st.tries))
    else
      var (ok, asked) := Ask(s, AsEnv(env), st.world, c.id);
      if !ok && |workers| > 1 then Again(st.(world := asked)) else Dial(s, env, c, i, ok, st.(world := asked))
  }

  function StreamFrom(s: Settings, env: StreamEnv, workers: seq<Worker>, i: nat, st: StreamLoop): StreamOutcome
    requires i <= |workers|
    decreases |workers| - i
  {
    if i == |workers| then
      var err := if st.last.None? then Some(NoHealthyWorker) else LastError(st.last);
      StreamOutcome(st.world, None, false, err, st.log, st.tries)
    else match StreamStep(s, env, workers, i, st)
      case Give(out) => out
      case Again(st') => StreamFrom(s, env, workers, i + 1, st')
  }

  function FirstToken(s: Settings, env: StreamEnv, w: World, workers: seq<Worker>): StreamOutcome {
    StreamFrom(s, env, workers, 0, StreamLoop(w, None, [], []))
  }

  // ----- The imperative form

  /** A handler without a failover behaves like one whose failover has neither budget nor breaker. */
  class Handler {
    const failover: Failover

    constructor (failover: Failover)
      ensures this.failover == failover
    {
      this.failover := failover;
    }

    method RecordFail(w: Worker, i: nat, e: CallError, env: StreamEnv, ticks0: nat, ghost calls: nat,
                      ghost last: Option<CallError>, log0: seq<StreamEvent>, ghost tries: seq<Try>)
      returns (ticks: nat, log: seq<StreamEvent>)
      modifies failover.breaker
      ensures StreamLoop(failover.WorldAt(ticks, calls), last, log, tries)
              == FailRecorded(failover.Setup(), env,
                              StreamLoop(old(failover.WorldAt(ticks0, calls)), last, log0, tries), w, i, e)
    {
      hide CB.AfterFailure;
      ticks, log := ticks0, log0;
      if IsExcluded(e) { return; }
      if failover.breaker != null {
        failover.breaker.Failure(w.id, env.clock(ticks));
        ticks, log := ticks + 1, log + [Failed(i)];
      }
    }

    method RecordWin(w: Worker, i: nat, ghost ticks: nat, ghost calls: nat,
                     ghost last: Option<CallError>, log0: seq<StreamEvent>, ghost tries: seq<Try>)
      returns (log: seq<StreamEvent>)
      modifies failover.budget, failover.breaker
      ensures StreamLoop(failover.WorldAt(ticks, calls), last, log, tries)
              == SuccessRecorded(failover.Setup(),
                                 StreamLoop(old(failover.WorldAt(ticks, calls)), last, log0, tries), w, i)
    {
      hide CB.AfterSuccess, RB.AfterSuccess;
      log := log0;
      if failover.budget != null { failover.budget.OnSuccess(); }
      if failover.breaker != null {
        failover.breaker.Success(w.id);
        log := log + [Succeeded(i)];
      }
    }

    /** Open and receive on one worker; `done` says that the search returns here. */
    method TryWorker(w: Worker, i: nat, ok: bool, env: StreamEnv, ticks0: nat, calls0: nat, ghost st: StreamLoop,
                     log0: seq<StreamEvent>, last0: Option<CallError>, tries0: seq<Try>)
      returns (done: bool, worker: Option<nat>, first: bool, err: Option<DoError>,
               last: Option<CallError>, log: seq<StreamEvent>, tries: seq<Try>, ticks: nat, calls: nat)
      requires st == StreamLoop(failover.WorldAt(ticks0, calls0), last0, log0, tries0)
      modifies failover.budget, failover.breaker
      ensures Dial(failover.Setup(), env, w, i, ok, st)
              == if done then Give(StreamOutcome(failover.WorldAt(ticks, calls), worker, first, err, log, tries))
                 else Again(StreamLoop(failover.WorldAt(ticks, calls), last, log, tries))
    {
      hide SuccessRecorded, FailRecorded, BudgetSuccess, BreakerFailure, RB.AfterFailure;
      worker, first, err, last, log, ticks, calls := None, false, None, last0, log0, ticks0, calls0 + 1;
      var refused := env.open(calls0);
      tries := tries0 + [Try(i, ok, refused, env.recv(calls0))];
      var e := Plain;
      if refused.Some? {
        e := refused.value;
      } else {
        log := log + [Opened(i)];
        var r := env.recv(calls0);
        match r {
          case Chunk =>
            log := RecordWin(w, i, ticks, calls, last, log, tries);
            done, worker, first := true, Some(i), true;
            return;
          case EndOfStream =>
            log := log + [Closed(i)];
            ticks, log := RecordFail(w, i, Plain, env, ticks, calls, last, log, tries);
            log := RecordWin(w, i, ticks, calls, last, log, tries);
            done, worker := true, Some(i);
            return;
          case Broken(e') =>
            log := log + [Closed(i)];
            e := e';
        }
      }
      ticks, log := RecordFail(w, i, e, env, ticks, calls, last, log, tries);
      last := Some(e);
      done := !Retryable(e);
      if done {
        err := LastError(last);
      } else if failover.budget != null {
        failover.budget.OnFailure();
      }
    }

    method StreamFirstToken(workers: seq<Worker>, env: StreamEnv, ticks0: nat, calls0: nat)
      returns (worker: Option<nat>, first: bool, err: Option<DoError>, log: seq<StreamEvent>, tries: seq<Try>,
               ticks: nat, calls: nat)
      modifies failover.budget, failover.breaker
      ensures StreamOutcome(failover.WorldAt(ticks, calls), worker, first, err, log, tries)
              == FirstToken(failover.Setup(), env, old(failover.WorldAt(ticks0, calls0)), workers)
    {
      hide Ask, Dial, RB.Allows;
      worker, first, err, log, tries, ticks, calls := None, false, None, [], [], ticks0, calls0;
      var last := None;
      var i := 0;
      while i < |workers|
        invariant i <= |workers| && worker == None && !first
        invariant StreamFrom(failover.Setup(), env, workers, i,
                             StreamLoop(failover.WorldAt(ticks, calls), last, log, tries))
                  == FirstToken(failover.Setup(), env, old(failover.WorldAt(ticks0, calls0)), workers)
      {
        if i > 0 && failover.budget != null {
          var granted := failover.budget.Allow();
          if !granted {
            err := LastError(last);
            return;
          }
        }
        var ok;
        ok, ticks := failover.AskBreaker(workers[i].id, AsEnv(env), ticks, calls);
        if ok || |workers| <= 1 {
          ghost var st := StreamLoop(failover.WorldAt(ticks, calls), last, log, tries);
          var done, wk, fst;
          done, wk, fst, err, last, log, tries, ticks, calls :=
            TryWorker(workers[i], i, ok, env, ticks, calls, st, log, last, tries);
          if done {
            worker, first := wk, fst;
            return;
          }
        }
        i := i + 1;
      }
      err := if last == None then Some(NoHealthyWorker) else LastError(last);
    }
  }

  // ----- Streams are conserved

  ghost function Applied(open: set<nat>, e: StreamEvent): set<nat> {
    if e.Opened? then open + {e.pos} else if e.Closed? then open - {e.pos} else open
  }

  ghost function OpenAfter(log: seq<StreamEvent>): set<nat> {
    if log == [] then {} else Applied(OpenAfter(log[..|log| - 1]), log[|log| - 1])
  }

  /** A stream is only opened while none is open, and only the open stream is closed. */
  ghost predicate Fits(open: set<nat>, e: StreamEvent) {
    (e.Opened? ==> open == {}) && (e.Closed? ==> open == {e.pos})
  }

  ghost predicate Disciplined(log: seq<StreamEvent>) {
    log == [] || (Disciplined(log[..|log| - 1]) && Fits(OpenAfter(log[..|log| - 1]), log[|log| - 1]))
  }

  /** At most one stream is open at any moment of a disciplined run. */
  lemma {:induction false} AtMostOneOpen(log: seq<StreamEvent>, n: nat)
    requires Disciplined(log) && n <= |log|
    ensures |OpenAfter(log[..n])| <= 1
    decreases |log|
  {
    if n < |log| {
      AtMostOneOpen(log[..|log| - 1], n);
      assert log[..|log| - 1][..n] == log[..n];
    } else {
      assert log[..n] == log;
      if log != [] {
        AtMostOneOpen(log[..|log| - 1], |log| - 1);
        assert log[..|log| - 1][..|log| - 1] == log[..|log| - 1];
      }
    }
  }

  ghost function SuccessOf(e: StreamEvent): seq<nat> {
    if e.Succeeded? then [e.pos] else []
  }

  /** Positions whose worker had a success recorded on its breaker. */
  ghost function Successes(log: seq<StreamEvent>): seq<nat> {
    if log == [] then []
    else Successes(log[..|log| - 1]) + SuccessOf(log[|log| - 1])
  }

  ghost predicate Between(st: StreamLoop) {
    Disciplined(st.log) && OpenAfter(st.log) == {} && Successes(st.log) == []
  }

  ghost predicate Conserved(out: StreamOutcome) {
    && Disciplined(out.log)
    && (out.first ==> out.worker.Some?)
    && OpenAfter(out.log) == (if out.first then {out.worker.value} else {})
    && Successes(out.log) == (if out.worker.Some? && out.world.breakers.Some? then [out.worker.value] else [])
    && (out.worker.Some? ==> out.err == None)
  }

  lemma Logged(log: seq<StreamEvent>, e: StreamEvent)
    ensures Disciplined(log + [e]) <==> Disciplined(log) && Fits(OpenAfter(log), e)
    ensures OpenAfter(log + [e]) == Applied(OpenAfter(log), e)
    ensures Successes(log + [e]) == Successes(log) + SuccessOf(e)
  {
    assert (log + [e])[..|log + [e]| - 1] == log;
  }

  lemma LossConserves(s: Settings, env: StreamEnv, st: StreamLoop, c: Worker, i: nat, e: CallError)
    requires Between(st)
    ensures match AfterLoss(s, env, st, c, i, e)
      case Give(out) => Conserved(out) && out.worker == None && out.err != None
      case Again(st') => Between(st') && st'.last != None
  {
    hide Disciplined, OpenAfter, Successes, BreakerFailure, BudgetFailure;
    Logged(st.log, Failed(i));
  }

  lemma DialConserves(s: Settings, env: StreamEnv, c: Worker, i: nat, ok: bool, st: StreamLoop)
    requires Between(st)
    ensures match Dial(s, env, c, i, ok, st)
      case Give(out) => Conserved(out) && (out.worker.Some? || out.err != None)
      case Again(st') => Between(st') && st'.last != None
  {
    hide Disciplined, OpenAfter, Successes, AfterLoss, CB.AfterSuccess, CB.AfterFailure;
    var n := st.world.calls;
    var tried := st.(world := st.world.(calls := n + 1), tries := st.tries + [Try(i, ok, env.open(n), env.recv(n))]);
    Logged(st.log, Opened(i));
    var l1 := st.log + [Opened(i)];
    Logged(l1, Succeeded(i));
    Logged(l1, Closed(i));
    var l2 := l1 + [Closed(i)];
    Logged(l2, Failed(i));
    Logged(l2 + [Failed(i)], Succeeded(i));
    match env.open(n)
    case Some(e) => LossConserves(s, env, tried, c, i, e);
    case None =>
      match env.recv(n)
      case Broken(e) => LossConserves(s, env, tried.(log := l2), c, i, e);
      case _ =>
  }

  lemma {:induction false} LoopConserves(s: Settings, env: StreamEnv, workers: seq<Worker>, i: nat, st: StreamLoop)
    requires i <= |workers| && Between(st)
    ensures Conserved(StreamFrom(s, env, workers, i, st))
    decreases |workers| - i
  {
    hide Disciplined, OpenAfter, Successes, Ask, Dial, BudgetDenies;
    if i < |workers| {
      var (ok, asked) := Ask(s, AsEnv(env), st.world, workers[i].id);
      DialConserves(s, env, workers[i], i, ok, st.(world := asked));
      match StreamStep(s, env, workers, i, st)
      case Give(_) =>
      case Again(st') => LoopConserves(s, env, workers, i + 1, st');
    }
  }

  /** Whatever fails: at most one stream is open at a time and only after all earlier ones
      were closed, one stream is open on return exactly when a first chunk is returned, and
      a breaker success is recorded only for the returned worker, once. */
  lemma StreamsConserved(s: Settings, env: StreamEnv, w: World, workers: seq<Worker>)
    ensures
      var out := FirstToken(s, env, w, workers);
      && Conserved(out)
      && (forall n :: 0 <= n <= |out.log| ==> |OpenAfter(out.log[..n])| <= 1)
  {
    LoopConserves(s, env, workers, 0, StreamLoop(w, None, [], []));
    hide FirstToken;
    var out := FirstToken(s, env, w, workers);
    forall n | 0 <= n <= |out.log| ensures |OpenAfter(out.log[..n])| <= 1 { AtMostOneOpen(out.log, n); }
  }

  // ----- Nothing returned and no error

  /** Like `Do`, the search can return neither a stream nor an error: exactly when there are two
      or more workers, the first is refused by its breaker and the budget denies. */
  lemma NothingAndNoErrorIff(s: Settings, env: StreamEnv, w: World, workers: seq<Worker>)
    ensures
      var out := FirstToken(s, env, w, workers);
      out.worker == None && out.err == None
      <==> |workers| >= 2 && !Ask(s, AsEnv(env), w, workers[0].id).0 && BudgetDenies(w)
  {
    hide Ask, Dial, BudgetDenies;
    if workers != [] {
      var st := StreamLoop(w, None, [], []);
      var (ok, asked) := Ask(s, AsEnv(env), w, workers[0].id);
      AskFacts(s, AsEnv(env), w, workers[0].id, workers[0].id);
      BudgetDecides(w, asked);
      DialConserves(s, env, workers[0], 0, ok, st.(world := asked));
      match StreamStep(s, env, workers, 0, st)
      case Give(_) =>
      case Again(st') => SkippedOnly(s, env, workers, 1, st');
    }
  }

  lemma {:induction false} SkippedOnly(s: Settings, env: StreamEnv, workers: seq<Worker>, i: nat, st: StreamLoop)
    requires 0 < i <= |workers| && Between(st)
    ensures
      var out := StreamFrom(s, env, workers, i, st);
      out.worker == None && out.err == None <==> st.last == None && i < |workers| && BudgetDenies(st.world)
    decreases |workers| - i
  {
    hide Ask, Dial, BudgetDenies, Disciplined, OpenAfter, Successes;
    if i < |workers| {
      var (ok, asked) := Ask(s, AsEnv(env), st.world, workers[i].id);
      AskFacts(s, AsEnv(env), st.world, workers[i].id, workers[i].id);
      BudgetDecides(st.world, asked);
      DialConserves(s, env, workers[i], i, ok, st.(world := asked));
      match StreamStep(s, env, workers, i, st)
      case Give(_) =>
      case Again(st') => SkippedOnly(s, env, workers, i + 1, st');
    }
  }
}
