/** Exact account of one `streamFirstToken`: what it tried, what it returned, what it cost the
    budget and what it told the breakers. */
module StreamAccounts {
  import opened Prelude
  import opened Classify
  import opened Failovers
  import opened FailoverHistory
  import opened StreamDispatch
  import CB = CircuitBreaker
  import RB = RetryBudgets

  /** The error of an attempt; a stream that ends before its first chunk is not one. */
  function ErrorOf(t: Try): Option<CallError> {
    if t.open.Some? then t.open else if t.recv.Broken? then Some(t.recv.e) else None
  }

  ghost predicate LostTry(t: Try) {
    ErrorOf(t).Some? && Retryable(ErrorOf(t).value)
  }

  // ----- What was tried and what is returned

  ghost predicate TriesOk(i: nat, tries: seq<Try>) {
    && (forall k :: 0 <= k < |tries| ==> tries[k].pos < i)
    && (forall j, k :: 0 <= j < k < |tries| ==> tries[j].pos < tries[k].pos)
    && (forall k :: 0 <= k < |tries| - 1 ==> LostTry(tries[k]))
  }

  ghost predicate Searching(i: nat, st: StreamLoop) {
    && TriesOk(i, st.tries)
    && st.last == (if st.tries == [] then None else ErrorOf(st.tries[|st.tries| - 1]))
    && (st.tries != [] ==> LostTry(st.tries[|st.tries| - 1]))
  }

  /** The outcome reports the last attempt. */
  ghost predicate StreamReports(out: StreamOutcome) {
    if out.tries == [] then out.worker == None && (out.err == None || out.err == Some(NoHealthyWorker))
    else
      var last := out.tries[|out.tries| - 1];
      && out.err == LastError(ErrorOf(last))
      && out.worker == (if ErrorOf(last) == None then Some(last.pos) else None)
      && (out.first <==> ErrorOf(last) == None && last.recv.Chunk?)
  }

  lemma TriesExtend(i: nat, tries: seq<Try>, t: Try)
    requires TriesOk(i, tries) && t.pos == i && (tries != [] ==> LostTry(tries[|tries| - 1]))
    ensures TriesOk(i + 1, tries + [t])
  {
  }

  lemma DialReports(s: Settings, env: StreamEnv, c: Worker, i: nat, ok: bool, st: StreamLoop)
    requires Searching(i, st)
    ensures match Dial(s, env, c, i, ok, st)
      case Give(out) => TriesOk(i + 1, out.tries) && StreamReports(out)
      case Again(st') => Searching(i + 1, st')
  {
    hide TriesOk, BreakerFailure, BreakerSuccess, BudgetFailure, BudgetSuccess;
    TriesExtend(i, st.tries, Try(i, ok, env.open(st.world.calls), env.recv(st.world.calls)));
  }

  lemma LaterOk(i: nat, j: nat, tries: seq<Try>)
    requires TriesOk(i, tries) && i <= j
    ensures TriesOk(j, tries)
  {
  }

  lemma {:induction false} StreamFromReports(s: Settings, env: StreamEnv, workers: seq<Worker>, i: nat, st: StreamLoop)
    requires i <= |workers| && Searching(i, st)
    ensures
      var out := StreamFrom(s, env, workers, i, st);
      TriesOk(|workers|, out.tries) && StreamReports(out)
    decreases |workers| - i
  {
    hide Ask, Dial, BudgetDenies, TriesOk, ErrorOf;
    LaterOk(i, |workers|, st.tries);
    if i < |workers| {
      LaterOk(i, i + 1, st.tries);
      var (ok, asked) := Ask(s, AsEnv(env), st.world, workers[i].id);
      DialReports(s, env, workers[i], i, ok, st.(world := asked));
      match StreamStep(s, env, workers, i, st)
      case Give(out) =>
        if TriesOk(i + 1, out.tries) { LaterOk(i + 1, |workers|, out.tries); }
      case Again(st') => StreamFromReports(s, env, workers, i + 1, st');
    }
  }

  /** Workers are tried from left to right, none twice; every attempt but the last failed
      retryably; the last attempt's error is returned, or its worker, with a first chunk
      unless the stream ended before one. */
  lemma StreamOutcomeIsLastTry(s: Settings, env: StreamEnv, w: World, workers: seq<Worker>)
    ensures
      var out := FirstToken(s, env, w, workers);
      TriesOk(|workers|, out.tries) && StreamReports(out)
  {
    StreamFromReports(s, env, workers, 0, StreamLoop(w, None, [], []));
  }

  ghost predicate OnlyStreams(log: seq<StreamEvent>) {
    forall k :: 0 <= k < |log| ==> log[k].Opened? || log[k].Closed?
  }

  lemma {:induction false} SearchRecordsNothing(s: Settings, env: StreamEnv, workers: seq<Worker>, i: nat,
                                                st: StreamLoop)
    requires i <= |workers| && st.world.breakers.None? && OnlyStreams(st.log)
    ensures OnlyStreams(StreamFrom(s, env, workers, i, st).log)
    decreases |workers| - i
  {
    if i < |workers| {
      match StreamStep(s, env, workers, i, st)
      case Give(_) =>
      case Again(st') => SearchRecordsNothing(s, env, workers, i + 1, st');
    }
  }

  /** Without a breaker nothing is recorded. */
  lemma NothingToRecord(s: Settings, env: StreamEnv, w: World, workers: seq<Worker>)
    requires w.breakers.None?
    ensures OnlyStreams(FirstToken(s, env, w, workers).log)
  {
    hide StreamFrom;
    SearchRecordsNothing(s, env, workers, 0, StreamLoop(w, None, [], []));
  }

  // ----- What it costs the budget

  ghost function LostTries(tries: seq<Try>): nat {
    if tries == [] then 0
    else
      var t := tries[|tries| - 1];
      LostTries(tries[..|tries| - 1]) + if t.pos > 0 && LostTry(t) then 1 else 0
  }

  ghost function WonTries(tries: seq<Try>): nat {
    if tries == [] then 0
    else WonTries(tries[..|tries| - 1]) + if ErrorOf(tries[|tries| - 1]) == None then 1 else 0
  }

  lemma TriesCount(tries: seq<Try>, t: Try)
    ensures LostTries(tries + [t]) == LostTries(tries) + if t.pos > 0 && LostTry(t) then 1 else 0
    ensures WonTries(tries + [t]) == WonTries(tries) + if ErrorOf(t) == None then 1 else 0
  {
    assert (tries + [t])[..|tries + [t]| - 1] == tries;
  }

  ghost predicate PaidSoFar(b: RB.Budget, w: World, tries: seq<Try>) {
    w.budget.Some? && Paid(b, w.budget.value, LostTries(tries), WonTries(tries))
  }

  lemma DialPaid(s: Settings, env: StreamEnv, c: Worker, i: nat, ok: bool, st: StreamLoop, b: RB.Budget)
    requires PaidSoFar(b, st.world, st.tries) && (i > 0 ==> !BudgetDenies(st.world))
    ensures match Dial(s, env, c, i, ok, st)
      case Give(out) => PaidSoFar(b, out.world, out.tries)
      case Again(st') => PaidSoFar(b, st'.world, st'.tries)
  {
    hide LostTries, WonTries, Paid, RB.AfterFailure, RB.AfterSuccess, CB.AfterFailure, CB.AfterSuccess;
    var t := Try(i, ok, env.open(st.world.calls), env.recv(st.world.calls));
    var b' := st.world.budget.value;
    var l, n := LostTries(st.tries), WonTries(st.tries);
    TriesCount(st.tries, t);
    PaidInRange(b, b', l, n);
    OnePaid(b', i > 0);
    if ErrorOf(t) == None {
      PaidTrans(b, b', RB.AfterSuccess(b'), l, n, 0, 1);
    } else if LostTry(t) {
      PaidTrans(b, b', RB.AfterFailure(b'), l, n, if i > 0 then 1 else 0, 0);
    }
  }

  lemma {:induction false} StreamFromPaid(s: Settings, env: StreamEnv, workers: seq<Worker>, i: nat, st: StreamLoop,
                                          b: RB.Budget)
    requires i <= |workers| && PaidSoFar(b, st.world, st.tries)
    ensures var out := StreamFrom(s, env, workers, i, st); PaidSoFar(b, out.world, out.tries)
    decreases |workers| - i
  {
    hide Ask, Dial, Paid, LostTries, WonTries, BudgetDenies;
    if i < |workers| {
      var (ok, asked) := Ask(s, AsEnv(env), st.world, workers[i].id);
      AskFacts(s, AsEnv(env), st.world, workers[i].id, "");
      BudgetDecides(st.world, asked);
      if !(i > 0 && BudgetDenies(st.world)) { DialPaid(s, env, workers[i], i, ok, st.(world := asked), b); }
      match StreamStep(s, env, workers, i, st)
      case Give(_) =>
      case Again(st') => StreamFromPaid(s, env, workers, i + 1, st', b);
    }
  }

  lemma StreamPaid(s: Settings, env: StreamEnv, w: World, workers: seq<Worker>)
    requires w.budget.Some? && RB.InRange(w.budget.value)
    ensures var out := FirstToken(s, env, w, workers); PaidSoFar(w.budget.value, out.world, out.tries)
  {
    NothingPaid(w.budget.value);
    StreamFromPaid(s, env, workers, 0, StreamLoop(w, None, [], []), w.budget.value);
  }

  /** A success pays in, a retryable failure pays out, everything else is free. */
  function ChargedTries(b: RB.Budget, tries: seq<Try>): RB.Budget {
    if tries == [] then b
    else
      var before, e := ChargedTries(b, tries[..|tries| - 1]), ErrorOf(tries[|tries| - 1]);
      if e.None? then RB.AfterSuccess(before) else if Retryable(e.value) then RB.AfterFailure(before) else before
  }

  lemma ChargedOneTry(b: RB.Budget, tries: seq<Try>, t: Try)
    ensures
      var before, e := ChargedTries(b, tries), ErrorOf(t);
      ChargedTries(b, tries + [t])
      == if e.None? then RB.AfterSuccess(before) else if Retryable(e.value) then RB.AfterFailure(before) else before
  {
    assert (tries + [t])[..|tries + [t]| - 1] == tries;
  }

  lemma DialCharges(s: Settings, env: StreamEnv, c: Worker, i: nat, ok: bool, st: StreamLoop, b: RB.Budget)
    requires st.world.budget == Some(ChargedTries(b, st.tries))
    ensures var it := Dial(s, env, c, i, ok, st); GivenWorld(it).budget == Some(ChargedTries(b, GivenTries(it)))
  {
    hide RB.AfterFailure, RB.AfterSuccess, CB.AfterFailure, CB.AfterSuccess, ChargedTries;
    ChargedOneTry(b, st.tries, Try(i, ok, env.open(st.world.calls), env.recv(st.world.calls)));
  }

  lemma {:induction false} StreamFromCharges(s: Settings, env: StreamEnv, workers: seq<Worker>, i: nat, st: StreamLoop,
                                             b: RB.Budget)
    requires i <= |workers| && st.world.budget == Some(ChargedTries(b, st.tries))
    ensures var out := StreamFrom(s, env, workers, i, st); out.world.budget == Some(ChargedTries(b, out.tries))
    decreases |workers| - i
  {
    hide Ask, Dial, BudgetDenies, ChargedTries;
    if i < |workers| {
      var (ok, asked) := Ask(s, AsEnv(env), st.world, workers[i].id);
      AskFacts(s, AsEnv(env), st.world, workers[i].id, "");
      DialCharges(s, env, workers[i], i, ok, st.(world := asked), b);
      match StreamStep(s, env, workers, i, st)
      case Give(_) =>
      case Again(st') => StreamFromCharges(s, env, workers, i + 1, st', b);
    }
  }

  /** After the search the budget is exactly what its attempts make it. */
  lemma StreamCharges(s: Settings, env: StreamEnv, w: World, workers: seq<Worker>)
    requires w.budget.Some?
    ensures var out := FirstToken(s, env, w, workers); out.world.budget == Some(ChargedTries(w.budget.value, out.tries))
  {
    StreamFromCharges(s, env, workers, 0, StreamLoop(w, None, [], []), w.budget.value);
  }

  // ----- What it tells the breakers

  /** A stream that ends before its first chunk is recorded twice, as a failure and as a success. */
  function RecordsOf(id: string, t: Try): seq<Record> {
    var e := ErrorOf(t);
    if e == None then (if t.recv.Chunk? then [] else [Record(id, false)]) + [Record(id, true)]
    else if IsExcluded(e.value) then []
    else [Record(id, false)]
  }

  ghost function ExpectedTries(workers: seq<Worker>, tries: seq<Try>): seq<Record> {
    if tries == [] then []
    else
      var t := tries[|tries| - 1];
      ExpectedTries(workers, tries[..|tries| - 1]) + if t.pos < |workers| then RecordsOf(workers[t.pos].id, t) else []
  }

  lemma ExpectedTriesStep(workers: seq<Worker>, tries: seq<Try>, t: Try)
    requires t.pos < |workers|
    ensures ExpectedTries(workers, tries + [t]) == ExpectedTries(workers, tries) + RecordsOf(workers[t.pos].id, t)
  {
    assert (tries + [t])[..|tries + [t]| - 1] == tries;
  }

  ghost predicate Told(s: Settings, env: StreamEnv, w: World, w': World, workers: seq<Worker>, tries: seq<Try>,
                       events: seq<CB.Event>)
  {
    Explains(s, AsEnv(env), w, w', events) && Recorded(events) == ExpectedTries(workers, tries)
  }

  lemma ExplainSuccess(s: Settings, env: StreamEnv, st: StreamLoop, c: Worker, i: nat) returns (events: seq<CB.Event>)
    requires Monotone(env.clock) && st.world.breakers.Some?
    ensures Explains(s, AsEnv(env), st.world, SuccessRecorded(s, st, c, i).world, events)
    ensures Recorded(events) == [Record(c.id, true)]
  {
    hide CB.AfterSuccess, RB.AfterSuccess, Explains;
    events := [CB.Event(c.id, CB.Success(env.clock(st.world.ticks)))];
    OneEvent(s, AsEnv(env), st.world, SuccessRecorded(s, st, c, i).world, events[0]);
  }

  lemma ExplainFail(s: Settings, env: StreamEnv, st: StreamLoop, c: Worker, i: nat, e: CallError)
    returns (events: seq<CB.Event>)
    requires Monotone(env.clock) && st.world.breakers.Some?
    ensures Explains(s, AsEnv(env), st.world, FailRecorded(s, env, st, c, i, e).world, events)
    ensures Recorded(events) == if IsExcluded(e) then [] else [Record(c.id, false)]
  {
    hide CB.AfterFailure, Explains;
    if IsExcluded(e) {
      events := [];
      ExplainSelf(s, AsEnv(env), st.world);
    } else {
      events := [CB.Event(c.id, CB.Failure(env.clock(st.world.ticks)))];
      OneEvent(s, AsEnv(env), st.world, FailRecorded(s, env, st, c, i, e).world, events[0]);
    }
  }

  /** Changing the budget or the call count does not concern the breakers. */
  lemma SameBreakers(s: Settings, env: Env, w: World, w': World, v: World, v': World, events: seq<CB.Event>)
    requires Explains(s, env, w, w', events)
    requires v.breakers == w.breakers && v.ticks == w.ticks && v'.breakers == w'.breakers && v'.ticks == w'.ticks
    ensures Explains(s, env, v, v', events)
  {
  }

  ghost function GivenWorld(it: StreamIteration): World {
    if it.Give? then it.out.world else it.st.world
  }

  ghost function GivenTries(it: StreamIteration): seq<Try> {
    if it.Give? then it.out.tries else it.st.tries
  }

  lemma ExplainDial(s: Settings, env: StreamEnv, c: Worker, i: nat, ok: bool, st: StreamLoop)
    returns (events: seq<CB.Event>)
    requires Monotone(env.clock) && st.world.breakers.Some?
    ensures
      var it := Dial(s, env, c, i, ok, st);
      && Explains(s, AsEnv(env), st.world, GivenWorld(it), events)
      && GivenTries(it) == st.tries + [Try(i, ok, env.open(st.world.calls), env.recv(st.world.calls))]
      && Recorded(events) == RecordsOf(c.id, Try(i, ok, env.open(st.world.calls), env.recv(st.world.calls)))
  {
    hide Explains, Recorded, CB.AfterSuccess, CB.AfterFailure, RB.AfterFailure, RB.AfterSuccess;
    var n := st.world.calls;
    var it := Dial(s, env, c, i, ok, st);
    var tried := st.(world := st.world.(calls := n + 1), tries := st.tries + [Try(i, ok, env.open(n), env.recv(n))]);
    var live := tried.(log := tried.log + [Opened(i)]);
    var closed := live.(log := live.log + [Closed(i)]);
    if env.open(n).Some? {
      var e := env.open(n).value;
      events := ExplainFail(s, env, tried, c, i, e);
      SameBreakers(s, AsEnv(env), tried.world, FailRecorded(s, env, tried, c, i, e).world, st.world, GivenWorld(it),
                   events);
    } else {
      match env.recv(n)
      case Chunk =>
        events := ExplainSuccess(s, env, live, c, i);
        SameBreakers(s, AsEnv(env), live.world, GivenWorld(it), st.world, GivenWorld(it), events);
      case EndOfStream =>
        var failed := FailRecorded(s, env, closed, c, i, Plain);
        var a := ExplainFail(s, env, closed, c, i, Plain);
        var b := ExplainSuccess(s, env, failed, c, i);
        ExplainsTrans(s, AsEnv(env), closed.world, failed.world, GivenWorld(it), a, b);
        RecordedAppend(a, b);
        events := a + b;
        SameBreakers(s, AsEnv(env), closed.world, GivenWorld(it), st.world, GivenWorld(it), events);
      case Broken(e) =>
        events := ExplainFail(s, env, closed, c, i, e);
        SameBreakers(s, AsEnv(env), closed.world, FailRecorded(s, env, closed, c, i, e).world, st.world, GivenWorld(it),
                     events);
    }
  }

  lemma {:induction false} ExplainStreamFrom(s: Settings, env: StreamEnv, w: World, workers: seq<Worker>, i: nat,
                                             st: StreamLoop, before: seq<CB.Event>) returns (events: seq<CB.Event>)
    requires Monotone(env.clock) && w.breakers.Some? && st.world.breakers.Some? && i <= |workers|
    requires Told(s, env, w, st.world, workers, st.tries, before)
    ensures var out := StreamFrom(s, env, workers, i, st); Told(s, env, w, out.world, workers, out.tries, events)
    decreases |workers| - i
  {
    hide Ask, Dial, BudgetDenies, Explains, Recorded, ExpectedTries;
    events := before;
    if i < |workers| && !(i > 0 && BudgetDenies(st.world)) {
      var c := workers[i];
      var (ok, asked) := Ask(s, AsEnv(env), st.world, c.id);
      var a := ExplainAsk(s, AsEnv(env), st.world, c.id);
      ExplainsEnd(s, AsEnv(env), st.world, asked, a);
      ExplainsTrans(s, AsEnv(env), w, st.world, asked, before, a);
      RecordedAppend(before, a);
      var so := before + a;
      if !ok && |workers| > 1 {
        events := ExplainStreamFrom(s, env, w, workers, i + 1, st.(world := asked), so);
      } else {
        var it := Dial(s, env, c, i, ok, st.(world := asked));
        var b := ExplainDial(s, env, c, i, ok, st.(world := asked));
        ExplainsEnd(s, AsEnv(env), asked, GivenWorld(it), b);
        ExplainsTrans(s, AsEnv(env), w, asked, GivenWorld(it), so, b);
        RecordedAppend(so, b);
        ExpectedTriesStep(workers, st.tries, Try(i, ok, env.open(asked.calls), env.recv(asked.calls)));
        events := so + b;
        match it
        case Give(_) =>
        case Again(st') => events := ExplainStreamFrom(s, env, w, workers, i + 1, st', events);
      }
    }
  }

  lemma ExplainStream(s: Settings, env: StreamEnv, w: World, workers: seq<Worker>) returns (events: seq<CB.Event>)
    requires Monotone(env.clock) && w.breakers.Some?
    ensures var out := FirstToken(s, env, w, workers); Told(s, env, w, out.world, workers, out.tries, events)
  {
    hide Explains;
    ExplainSelf(s, AsEnv(env), w);
    events := ExplainStreamFrom(s, env, w, workers, 0, StreamLoop(w, None, [], []), []);
  }

  // ----- An empty generation

  function BreakerIn(w: World, id: string): CB.Breaker
    requires w.breakers.Some?
  {
    CB.Get(w.breakers.value, id)
  }

  /** A stream that ends before its first chunk is returned as a success, yet it leaves the breaker
      open exactly if it was open already or a failure trips it: the success recorded after
      the failure repairs nothing. */
  lemma EmptyDialOpensIff(s: Settings, env: StreamEnv, c: Worker, i: nat, ok: bool, st: StreamLoop)
    requires st.world.breakers.Some?
    requires env.open(st.world.calls) == None && env.recv(st.world.calls) == EndOfStream
    ensures
      var it := Dial(s, env, c, i, ok, st);
      var b := BreakerIn(st.world, c.id);
      && it.Give? && it.out.err == None && it.out.worker == Some(i) && !it.out.first
      && (StateIn(it.out.world, c.id) == CB.Open <==> b.state == CB.Open || CB.Trips(s.cfg, b))
  {
    hide BudgetSuccess, CB.Trips;
    BudgetKeepsBreakers();
    var b := BreakerIn(st.world, c.id);
    FailThenSucceed(s.cfg, b, env.clock(st.world.ticks));
  }

  lemma BudgetKeepsBreakers()
    ensures forall v: World :: BudgetSuccess(v).breakers == v.breakers
  {
  }

  lemma FailThenSucceed(cfg: CB.Config, b: CB.Breaker, now: int)
    ensures CB.AfterSuccess(cfg, CB.AfterFailure(cfg, b, now)).state == CB.Open
            <==> b.state == CB.Open || CB.Trips(cfg, b)
  {
  }

  /** Trying one worker does not touch the breaker of another. */
  lemma OthersUntouched(s: Settings, env: StreamEnv, c: Worker, i: nat, ok: bool, st: StreamLoop, id: string)
    requires st.world.breakers.Some? && c.id != id
    ensures
      var it := Dial(s, env, c, i, ok, st);
      GivenWorld(it).breakers.Some? && BreakerIn(GivenWorld(it), id) == BreakerIn(st.world, id)
  {
    hide CB.AfterFailure, CB.AfterSuccess, RB.AfterFailure, RB.AfterSuccess;
  }

  lemma StillGuarded(s: Settings, env: StreamEnv, c: Worker, i: nat, ok: bool, st: StreamLoop)
    requires st.world.breakers.Some?
    ensures GivenWorld(Dial(s, env, c, i, ok, st)).breakers.Some?
  {
    hide CB.AfterFailure, CB.AfterSuccess, RB.AfterFailure, RB.AfterSuccess;
  }

  lemma AskedBreaker(s: Settings, env: Env, w: World, id: string, other: string)
    requires w.breakers.Some?
    ensures var (ok, w') := Ask(s, env, w, id);
      && w'.breakers.Some? && w'.calls == w.calls
      && BreakerIn(w', other)
         == (if other == id then CB.AfterAllow(s.cfg, BreakerIn(w, id), env.clock(w.ticks)) else BreakerIn(w, other))
  {
    hide CB.AfterAllow, CB.Admits;
  }

  /** Being asked makes no difference to what a failure does: an open breaker that lets a probe
      through is half-open, and a half-open one always trips. */
  lemma AskedThenFailed(cfg: CB.Config, b: CB.Breaker, now: int)
    ensures
      var c := CB.AfterAllow(cfg, b, now);
      c.state == CB.Open || CB.Trips(cfg, c) <==> b.state != CB.Closed || CB.Trips(cfg, b)
  {
  }

  lemma {:induction false} EmptyFrom(s: Settings, env: StreamEnv, workers: seq<Worker>, i: nat, st: StreamLoop, k: nat)
    requires i <= k < |workers| && st.world.breakers.Some?
    requires var out := StreamFrom(s, env, workers, i, st); out.worker == Some(k) && !out.first
    requires forall j :: i <= j < k ==> workers[j].id != workers[k].id
    ensures
      var b := BreakerIn(st.world, workers[k].id);
      StateIn(StreamFrom(s, env, workers, i, st).world, workers[k].id) == CB.Open
      <==> b.state != CB.Closed || CB.Trips(s.cfg, b)
    decreases |workers| - i
  {
    hide Ask, Dial, BudgetDenies, CB.Trips, CB.AfterAllow, BreakerIn, StateIn;
    var c, id := workers[i], workers[k].id;
    var (ok, asked) := Ask(s, AsEnv(env), st.world, c.id);
    AskedBreaker(s, AsEnv(env), st.world, c.id, id);
    var st1 := st.(world := asked);
    DialGives(s, env, c, i, ok, st1);
    if i < k { OthersUntouched(s, env, c, i, ok, st1, id); }
    match StreamStep(s, env, workers, i, st)
    case Give(_) =>
      EmptyDialOpensIff(s, env, c, i, ok, st1);
      AskedThenFailed(s.cfg, BreakerIn(st.world, id), env.clock(st.world.ticks));
    case Again(st') =>
      NoEarlierWorker(s, env, workers, i + 1, st');
      EmptyFrom(s, env, workers, i + 1, st', k);
  }

  lemma DialGives(s: Settings, env: StreamEnv, c: Worker, i: nat, ok: bool, st: StreamLoop)
    ensures
      var it := Dial(s, env, c, i, ok, st);
      && (it.Give? && it.out.worker.Some? ==> it.out.worker == Some(i))
      && (it.Give? && it.out.worker.Some? && !it.out.first ==>
            env.open(st.world.calls) == None && env.recv(st.world.calls) == EndOfStream)
  {
    hide BudgetSuccess, BreakerSuccess, BreakerFailure, BudgetFailure;
  }

  lemma {:induction false} NoEarlierWorker(s: Settings, env: StreamEnv, workers: seq<Worker>, i: nat, st: StreamLoop)
    requires i <= |workers|
    ensures var out := StreamFrom(s, env, workers, i, st); out.worker.Some? ==> i <= out.worker.value < |workers|
    decreases |workers| - i
  {
    hide Ask, Dial, BudgetDenies;
    if i < |workers| {
      var (ok, asked) := Ask(s, AsEnv(env), st.world, workers[i].id);
      DialGives(s, env, workers[i], i, ok, st.(world := asked));
      match StreamStep(s, env, workers, i, st)
      case Give(_) =>
      case Again(st') => NoEarlierWorker(s, env, workers, i + 1, st');
    }
  }

  /** The state in which the search that starts at position `i` in `st` comes to position `k`. */
  ghost function Arriving(s: Settings, env: StreamEnv, workers: seq<Worker>, i: nat, st: StreamLoop, k: nat)
    : Option<StreamLoop>
    requires i <= k < |workers|
    decreases k - i
  {
    if i == k then Some(st)
    else match StreamStep(s, env, workers, i, st)
      case Give(_) => None
      case Again(st') => Arriving(s, env, workers, i + 1, st', k)
  }

  /** On any list, repeated names included: the search comes to the returned position in some
      state, asks that worker's breaker, and ends there in one last attempt. The breaker is
      open afterwards exactly if it was open at that attempt or the attempt trips it. */
  lemma {:induction false} EmptyLastTry(s: Settings, env: StreamEnv, workers: seq<Worker>, i: nat, st: StreamLoop)
    returns (before: StreamLoop)
    requires i <= |workers| && st.world.breakers.Some?
    requires var out := StreamFrom(s, env, workers, i, st); out.worker.Some? && !out.first
    ensures
      var out := StreamFrom(s, env, workers, i, st);
      var k := out.worker.value;
      && i <= k < |workers| && Arriving(s, env, workers, i, st, k) == Some(before) && before.world.breakers.Some?
      && var (ok, asked) := Ask(s, AsEnv(env), before.world, workers[k].id);
         var at := before.(world := asked);
         var b := BreakerIn(asked, workers[k].id);
         && Dial(s, env, workers[k], k, ok, at) == Give(out)
         && (StateIn(out.world, workers[k].id) == CB.Open <==> b.state == CB.Open || CB.Trips(s.cfg, b))
    decreases |workers| - i
  {
    hide Ask, Dial, BudgetDenies, CB.Trips, BreakerIn, StateIn;
    var c := workers[i];
    var (ok, asked) := Ask(s, AsEnv(env), st.world, c.id);
    AskedBreaker(s, AsEnv(env), st.world, c.id, c.id);
    var at := st.(world := asked);
    DialGives(s, env, c, i, ok, at);
    StillGuarded(s, env, c, i, ok, at);
    match StreamStep(s, env, workers, i, st)
    case Give(_) =>
      before := st;
      EmptyDialOpensIff(s, env, c, i, ok, at);
    case Again(st') =>
      before := EmptyLastTry(s, env, workers, i + 1, st');
  }

  /** Whenever the search returns a worker without a first chunk, that worker's breaker is open
      afterwards exactly if it was not closed before, or one more failure trips it. Names
      before the returned position must differ from its name, as they do in a ranking. */
  lemma EmptyGenerationOpensIff(s: Settings, env: StreamEnv, w: World, workers: seq<Worker>)
    requires w.breakers.Some?
    requires var out := FirstToken(s, env, w, workers); out.worker.Some? && !out.first
    ensures
      var out := FirstToken(s, env, w, workers);
      var k := out.worker.value;
      && out.err == None && k < |workers|
      && ((forall j :: 0 <= j < k ==> workers[j].id != workers[k].id) ==>
            var b := BreakerIn(w, workers[k].id);
            StateIn(out.world, workers[k].id) == CB.Open <==> b.state != CB.Closed || CB.Trips(s.cfg, b))
  {
    hide StreamFrom, BreakerIn, CB.Trips, StateIn;
    var st := StreamLoop(w, None, [], []);
    NoEarlierWorker(s, env, workers, 0, st);
    StreamOutcomeIsLastTry(s, env, w, workers);
    var k := FirstToken(s, env, w, workers).worker.value;
    if forall j :: 0 <= j < k ==> workers[j].id != workers[k].id { EmptyFrom(s, env, workers, 0, st, k); }
  }
}
