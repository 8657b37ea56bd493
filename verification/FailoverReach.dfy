/** Who must be tried: neither `Do` nor `streamFirstToken` passes over a worker its breaker would let
    through, and each stops only for one of the reasons it has to stop. */
module FailoverReach {
  import opened Prelude
  import opened Classify
  import opened Failovers
  import opened FailoverHistory
  import opened StreamDispatch
  import opened StreamAccounts
  import CB = CircuitBreaker
  import RB = RetryBudgets

  /** Half of the tokens or more are gone. */
  ghost predicate HalfSpent(w: World) {
    w.budget.Some? && w.budget.value.tokens <= w.budget.value.maxTokens / 2.0
  }

  /** The budget denies exactly then; without a budget nothing is denied. */
  lemma DeniesIff(w: World)
    ensures BudgetDenies(w) <==> HalfSpent(w)
  {
  }

  /** The breaker would let a request through, at any time. */
  ghost predicate Willing(w: World, id: string) {
    w.breakers.None? ||
    var b := CB.Get(w.breakers.value, id);
    b.state == CB.Closed || (b.state == CB.HalfOpen && b.halfOpenLeft > 0)
  }

  /** The breaker lets nobody through until it is told an outcome. */
  ghost predicate OutOfProbes(w: World, id: string) {
    w.breakers.Some? &&
    var b := CB.Get(w.breakers.value, id);
    b.state == CB.HalfOpen && b.halfOpenLeft == 0
  }

  ghost predicate FirstOfItsName(workers: seq<Worker>, i: nat, k: nat) {
    k < |workers| && forall j :: i <= j < k ==> workers[j].id != workers[k].id
  }

  lemma AskWilling(s: Settings, env: Env, w: World, id: string)
    ensures Willing(w, id) ==> Ask(s, env, w, id).0
    ensures OutOfProbes(w, id) ==> !Ask(s, env, w, id).0
  {
  }

  lemma AskOther(s: Settings, env: Env, w: World, asked: string, id: string)
    requires asked != id
    ensures
      var w' := Ask(s, env, w, asked).1;
      (Willing(w', id) <==> Willing(w, id)) && (OutOfProbes(w', id) <==> OutOfProbes(w, id))
  {
    hide CB.AfterAllow, CB.Admits;
  }

  // ----- Unary calls

  ghost predicate CalledAt(trace: seq<Attempt>, k: nat) {
    exists j :: 0 <= j < |trace| && trace[j].pos == k
  }

  /** The reasons to stop before position `k`: enough calls were made, the last one succeeded or
      failed for good, or half of the retry budget is gone. */
  ghost predicate StoppedBefore(s: Settings, out: Outcome, k: nat) {
    && (forall j :: 0 <= j < |out.trace| ==> out.trace[j].pos < k)
    && (|| |out.trace| >= s.max
        || (out.trace != [] && !FailedRetryably(out.trace[|out.trace| - 1]))
        || (k > 0 && HalfSpent(out.world)))
  }

  ghost predicate Before(i: nat, st: Loop) {
    && st.attempts == |st.trace| && (forall j :: 0 <= j < |st.trace| ==> st.trace[j].pos < i)
    && (st.trace != [] ==> FailedRetryably(st.trace[|st.trace| - 1]))
  }

  lemma CallOthers(s: Settings, env: Env, c: Worker, i: nat, ok: bool, st: Loop, id: string)
    requires c.id != id
    ensures
      var w' := WorldOf(Call(s, env, c, i, ok, st));
      (Willing(w', id) <==> Willing(st.world, id)) && (OutOfProbes(w', id) <==> OutOfProbes(st.world, id))
  {
    hide CB.AfterFailure, CB.AfterSuccess, RB.AfterFailure, RB.AfterSuccess;
  }

  lemma CallAppends(s: Settings, env: Env, c: Worker, i: nat, ok: bool, st: Loop)
    requires Before(i, st)
    ensures match Call(s, env, c, i, ok, st)
      case Return(out) =>
        && |out.trace| == |st.trace| + 1 && st.trace <= out.trace && out.trace[|st.trace|].pos == i
        && !FailedRetryably(out.trace[|st.trace|])
      case Next(st') => Before(i + 1, st') && |st'.trace| == |st.trace| + 1 && st'.trace[|st.trace|].pos == i
  {
    hide BreakerFailure, BreakerSuccess, BudgetFailure, BudgetSuccess, StateIn;
  }

  lemma {:induction false} LoopReaches(s: Settings, env: Env, ordered: seq<Worker>, i: nat, st: Loop, k: nat)
    requires i <= k && FirstOfItsName(ordered, i, k) && Before(i, st) && Willing(st.world, ordered[k].id)
    ensures
      var out := Attempts(s, env, ordered, i, st);
      CalledAt(out.trace, k) || StoppedBefore(s, out, k)
    decreases k - i
  {
    hide Ask, Call, BudgetDenies, HalfSpent, Willing;
    DeniesIff(st.world);
    var c := ordered[i];
    var (ok, asked) := Ask(s, env, st.world, c.id);
    CallAppends(s, env, c, i, ok, st.(world := asked));
    AskWilling(s, env, st.world, c.id);
    if i < k {
      AskOther(s, env, st.world, c.id, ordered[k].id);
      CallOthers(s, env, c, i, ok, st.(world := asked), ordered[k].id);
    }
    match Iterate(s, env, ordered, i, st)
    case Return(_) =>
    case Next(st') =>
      if i == k {
        AttemptsExtend(s, env, ordered, i + 1, st');
        var out := Attempts(s, env, ordered, i, st);
        assert out.trace[|st.trace|].pos == k;
      } else {
        LoopReaches(s, env, ordered, i + 1, st', k);
      }
  }

  /** Nobody is passed over: a worker in order whose breaker lets requests through when the loop
      starts, and whose name has not come up before, is called, unless `Do` stops before it;
      and then not a single later worker is called either. */
  lemma NobodyIsPassedOver(s: Settings, env: Env, w: World, workers: seq<Worker>, k: nat)
    requires workers != []
    requires
      var p := Partition(s, env, w, workers);
      FirstOfItsName(Ordered(p), 0, k) && Willing(p.world, Ordered(p)[k].id)
    ensures
      var out := DoResult(s, env, w, workers);
      CalledAt(out.trace, k) || StoppedBefore(s, out, k)
  {
    hide Partition, Attempts, Willing;
    var p := Partition(s, env, w, workers);
    LoopReaches(s, env, Ordered(p), 0, Loop(p.world, 0, None, []), k);
  }

  lemma {:induction false} LoopSkips(s: Settings, env: Env, ordered: seq<Worker>, i: nat, st: Loop, k: nat)
    requires i <= k && FirstOfItsName(ordered, i, k) && |ordered| > 1
    requires Before(i, st) && OutOfProbes(st.world, ordered[k].id)
    ensures !CalledAt(Attempts(s, env, ordered, i, st).trace, k)
    decreases k - i
  {
    hide Ask, Call, BudgetDenies, OutOfProbes;
    var c := ordered[i];
    var (ok, asked) := Ask(s, env, st.world, c.id);
    CallAppends(s, env, c, i, ok, st.(world := asked));
    AskWilling(s, env, st.world, c.id);
    if i < k {
      AskOther(s, env, st.world, c.id, ordered[k].id);
      CallOthers(s, env, c, i, ok, st.(world := asked), ordered[k].id);
    }
    match Iterate(s, env, ordered, i, st)
    case Return(_) =>
    case Next(st') =>
      if i == k {
        LaterCallsAreLater(s, env, ordered, i + 1, st', k);
      } else {
        LoopSkips(s, env, ordered, i + 1, st', k);
      }
  }

  lemma {:induction false} LaterCallsAreLater(s: Settings, env: Env, ordered: seq<Worker>, i: nat, st: Loop, k: nat)
    requires k < i <= |ordered| && Before(i, st) && !CalledAt(st.trace, k)
    ensures !CalledAt(Attempts(s, env, ordered, i, st).trace, k)
    decreases |ordered| - i
  {
    hide Ask, Call, BudgetDenies;
    if i < |ordered| {
      var (ok, asked) := Ask(s, env, st.world, ordered[i].id);
      CallAppends(s, env, ordered[i], i, ok, st.(world := asked));
      CallAddsOne(s, env, ordered[i], i, ok, st.(world := asked));
      match Iterate(s, env, ordered, i, st)
      case Return(_) =>
      case Next(st') => LaterCallsAreLater(s, env, ordered, i + 1, st', k);
    }
  }

  lemma CallAddsOne(s: Settings, env: Env, c: Worker, i: nat, ok: bool, st: Loop)
    ensures TraceOf(Call(s, env, c, i, ok, st))
            == st.trace + [Attempt(i, c, StateIn(st.world, c.id), ok, env.call(st.world.calls))]
  {
    hide BreakerFailure, BreakerSuccess, BudgetFailure, BudgetSuccess, StateIn;
  }

  /** And a half-open worker without probes is not called if there is any other in order. */
  lemma ExhaustedIsSkipped(s: Settings, env: Env, w: World, workers: seq<Worker>, k: nat)
    requires workers != []
    requires
      var p := Partition(s, env, w, workers);
      |Ordered(p)| > 1 && FirstOfItsName(Ordered(p), 0, k) && OutOfProbes(p.world, Ordered(p)[k].id)
    ensures !CalledAt(DoResult(s, env, w, workers).trace, k)
  {
    hide Partition, Attempts, OutOfProbes;
    var p := Partition(s, env, w, workers);
    LoopSkips(s, env, Ordered(p), 0, Loop(p.world, 0, None, []), k);
  }

  /** The breaker would let a request through when `Do` starts, an open one because its timeout
      is over. */
  ghost predicate Available(s: Settings, env: Env, w: World, id: string) {
    Willing(w, id) ||
    var b := CB.Get(w.breakers.value, id);
    b.state == CB.Open && env.clock(w.ticks) - b.openedAt >= s.cfg.timeout
  }

  lemma TouchAvailable(s: Settings, env: Env, w: World, touched: string, id: string)
    ensures StateIn(Touch(w, touched), id) == StateIn(w, id) && Touch(w, touched).ticks == w.ticks
    ensures Available(s, env, w, id) <==> Available(s, env, Touch(w, touched), id)
    ensures Willing(w, id) <==> Willing(Touch(w, touched), id)
  {
  }

  lemma AskAvailable(s: Settings, env: Env, w: World, asked: string, id: string)
    requires CB.Usable(s.cfg) && Monotone(env.clock) && Available(s, env, w, id) && StateIn(w, asked) == CB.Open
    ensures
      var (ok, w') := Ask(s, env, w, asked);
      Available(s, env, w', id) && (asked == id ==> ok && Willing(w', id)) && (Willing(w, id) ==> Willing(w', id))
  {
    assert env.clock(w.ticks) <= env.clock(w.ticks + 1);
  }

  /** The partition keeps an available worker, and afterwards its breaker lets requests through. */
  lemma {:induction false} AvailableIsKept(s: Settings, env: Env, w: World, workers: seq<Worker>, id: string)
    requires CB.Usable(s.cfg) && Monotone(env.clock) && Available(s, env, w, id)
    ensures
      var p := Partition(s, env, w, workers);
      && Available(s, env, p.world, id)
      && ((exists c :: c in workers && c.id == id) ==>
            Willing(p.world, id) && exists c :: c in p.ordered && c.id == id)
  {
    hide Ask, Touch, StateIn, Available, Willing;
    if workers != [] {
      var init, c := workers[..|workers| - 1], workers[|workers| - 1];
      assert workers == init + [c];
      AvailableIsKept(s, env, w, init, id);
      var p := Partition(s, env, w, init);
      TouchAvailable(s, env, p.world, c.id, id);
      if StateIn(p.world, c.id) == CB.Open {
        TouchOpen(p.world, c.id);
        AskAvailable(s, env, Touch(p.world, c.id), c.id, id);
      } else if c.id == id {
        NotOpenIsWilling(s, env, p.world, id);
      }
      var q := Partition(s, env, w, workers);
      if exists d :: d in init && d.id == id {
        var d :| d in p.ordered && d.id == id;
        assert d in q.ordered;
      } else if c.id == id {
        assert c in q.ordered;
      }
    }
  }

  lemma TouchOpen(w: World, id: string)
    ensures StateIn(Touch(w, id), id) == StateIn(w, id)
  {
  }

  lemma NotOpenIsWilling(s: Settings, env: Env, w: World, id: string)
    requires Available(s, env, w, id) && StateIn(w, id) != CB.Open
    ensures Willing(w, id)
  {
  }

  lemma FirstIndex(workers: seq<Worker>, id: string) returns (k: nat)
    requires exists c :: c in workers && c.id == id
    ensures FirstOfItsName(workers, 0, k) && workers[k].id == id
  {
    k := 0;
    while workers[k].id != id
      invariant k < |workers| && (forall j :: 0 <= j < k ==> workers[j].id != id)
      decreases |workers| - k
    {
      assert k + 1 < |workers|;
      k := k + 1;
    }
  }

  ghost predicate CallsName(trace: seq<Attempt>, id: string) {
    exists j :: 0 <= j < |trace| && trace[j].worker.id == id
  }

  /** What a caller can rely on: a candidate whose breaker would let it through when `Do` starts,
      closed, half-open with a probe left, or open past its timeout, is called, unless `max`
      calls were made, the last call succeeded or failed for good, or half of the retry budget
      is gone and somebody else came first. */
  lemma AvailableIsTried(s: Settings, env: Env, w: World, workers: seq<Worker>, id: string)
    requires CB.Usable(s.cfg) && Monotone(env.clock) && Available(s, env, w, id)
    requires exists c :: c in workers && c.id == id
    ensures
      var out := DoResult(s, env, w, workers);
      || CallsName(out.trace, id)
      || |out.trace| >= s.max
      || (out.trace != [] && !FailedRetryably(out.trace[|out.trace| - 1]))
      || (HalfSpent(out.world) && Ordered(Partition(s, env, w, workers))[0].id != id)
  {
    hide Partition, DoResult, Available, Willing, HalfSpent, FailedRetryably;
    AvailableIsKept(s, env, w, workers, id);
    var p := Partition(s, env, w, workers);
    var k := FirstIndex(p.ordered, id);
    NobodyIsPassedOver(s, env, w, workers, k);
    DoOutcome(s, env, w, workers);
    var out := DoResult(s, env, w, workers);
    if CalledAt(out.trace, k) {
      var j :| 0 <= j < |out.trace| && out.trace[j].pos == k;
      assert out.trace[j].worker.id == id;
    }
  }

  // ----- Streams

  ghost predicate TriedAt(tries: seq<Try>, k: nat) {
    exists j :: 0 <= j < |tries| && tries[j].pos == k
  }

  ghost predicate SearchStoppedBefore(out: StreamOutcome, k: nat) {
    && (forall j :: 0 <= j < |out.tries| ==> out.tries[j].pos < k)
    && (|| (out.tries != [] && !LostTry(out.tries[|out.tries| - 1]))
        || (k > 0 && HalfSpent(out.world)))
  }

  lemma DialAdds(s: Settings, env: StreamEnv, c: Worker, i: nat, ok: bool, st: StreamLoop)
    ensures GivenTries(Dial(s, env, c, i, ok, st))
            == st.tries + [Try(i, ok, env.open(st.world.calls), env.recv(st.world.calls))]
  {
    hide BreakerFailure, BreakerSuccess, BudgetFailure, BudgetSuccess;
  }

  lemma {:induction false} SearchExtends(s: Settings, env: StreamEnv, workers: seq<Worker>, i: nat, st: StreamLoop)
    requires i <= |workers|
    ensures st.tries <= StreamFrom(s, env, workers, i, st).tries
    decreases |workers| - i
  {
    hide Ask, Dial, BudgetDenies;
    if i < |workers| {
      var (ok, asked) := Ask(s, AsEnv(env), st.world, workers[i].id);
      DialAdds(s, env, workers[i], i, ok, st.(world := asked));
      match StreamStep(s, env, workers, i, st)
      case Give(_) =>
      case Again(st') => SearchExtends(s, env, workers, i + 1, st');
    }
  }

  /** A search that gives up after this dial did not lose it retryably. */
  lemma DialEnds(s: Settings, env: StreamEnv, c: Worker, i: nat, ok: bool, st: StreamLoop)
    ensures
      var t := Try(i, ok, env.open(st.world.calls), env.recv(st.world.calls));
      Dial(s, env, c, i, ok, st).Give? <==> !LostTry(t)
  {
    hide BreakerFailure, BreakerSuccess, BudgetFailure, BudgetSuccess;
  }

  lemma AvailableAdmits(s: Settings, env: Env, w: World, id: string)
    requires Available(s, env, w, id)
    ensures Ask(s, env, w, id).0
  {
  }

  lemma AskKeepsAvailable(s: Settings, env: Env, w: World, asked: string, id: string)
    requires Monotone(env.clock) && asked != id && Available(s, env, w, id)
    ensures Available(s, env, Ask(s, env, w, asked).1, id)
  {
    hide CB.AfterAllow, CB.Admits;
    assert env.clock(w.ticks) <= env.clock(w.ticks + 1);
  }

  lemma DialKeepsAvailable(s: Settings, env: StreamEnv, c: Worker, i: nat, ok: bool, st: StreamLoop, id: string)
    requires Monotone(env.clock) && c.id != id && Available(s, AsEnv(env), st.world, id)
    ensures Available(s, AsEnv(env), GivenWorld(Dial(s, env, c, i, ok, st)), id)
  {
    hide CB.AfterFailure, CB.AfterSuccess, RB.AfterFailure, RB.AfterSuccess;
    var t := st.world.ticks;
    assert env.clock(t) <= env.clock(t + 1);
  }

  lemma {:induction false} SearchReaches(s: Settings, env: StreamEnv, workers: seq<Worker>, i: nat, st: StreamLoop,
                                         k: nat)
    requires i <= k && FirstOfItsName(workers, i, k)
    requires Monotone(env.clock) && Available(s, AsEnv(env), st.world, workers[k].id)
    requires forall j :: 0 <= j < |st.tries| ==> st.tries[j].pos < i
    ensures
      var out := StreamFrom(s, env, workers, i, st);
      TriedAt(out.tries, k) || SearchStoppedBefore(out, k)
    decreases k - i
  {
    hide Ask, Dial, BudgetDenies, HalfSpent, Available, LostTry, Monotone;
    DeniesIff(st.world);
    var c := workers[i];
    var (ok, asked) := Ask(s, AsEnv(env), st.world, c.id);
    var st1 := st.(world := asked);
    DialAdds(s, env, c, i, ok, st1);
    DialEnds(s, env, c, i, ok, st1);
    if i == k {
      AvailableAdmits(s, AsEnv(env), st.world, c.id);
    } else {
      AskKeepsAvailable(s, AsEnv(env), st.world, c.id, workers[k].id);
      DialKeepsAvailable(s, env, c, i, ok, st1, workers[k].id);
    }
    var out := StreamFrom(s, env, workers, i, st);
    match StreamStep(s, env, workers, i, st)
    case Give(_) =>
      if i == k && out.tries != st.tries { assert out.tries[|st.tries|].pos == k; }
    case Again(st') =>
      if i == k {
        SearchExtends(s, env, workers, i + 1, st');
        assert out.tries[|st.tries|].pos == k;
      } else {
        SearchReaches(s, env, workers, i + 1, st', k);
      }
  }

  /** The same for streams: a worker whose breaker would let it through when the search starts and
      whose name has not come up before is tried, unless the search stops before it, with a
      stream, a hard error or half of the budget gone; and then no later worker is tried either. */
  lemma NoStreamIsPassedOver(s: Settings, env: StreamEnv, w: World, workers: seq<Worker>, k: nat)
    requires Monotone(env.clock) && FirstOfItsName(workers, 0, k) && Available(s, AsEnv(env), w, workers[k].id)
    ensures
      var out := FirstToken(s, env, w, workers);
      TriedAt(out.tries, k) || SearchStoppedBefore(out, k)
  {
    hide StreamFrom, Available, Monotone;
    SearchReaches(s, env, workers, 0, StreamLoop(w, None, [], []), k);
  }

  lemma {:induction false} UnguardedSearch(s: Settings, env: StreamEnv, workers: seq<Worker>, i: nat, st: StreamLoop)
    requires st.world.budget == None && st.world.breakers == None && i == |st.tries| <= |workers|
    requires forall j :: 0 <= j < i ==> st.tries[j].pos == j && LostTry(st.tries[j])
    ensures
      var out := StreamFrom(s, env, workers, i, st);
      && (forall j :: 0 <= j < |out.tries| ==> out.tries[j].pos == j)
      && ((forall j :: 0 <= j < |out.tries| ==> LostTry(out.tries[j])) ==> |out.tries| == |workers|)
    decreases |workers| - i
  {
    hide Dial, LostTry;
    if i < |workers| {
      DialAdds(s, env, workers[i], i, true, st);
      DialEnds(s, env, workers[i], i, true, st);
      DialUnguarded(s, env, workers[i], i, true, st);
      match StreamStep(s, env, workers, i, st)
      case Give(out) => assert !LostTry(out.tries[i]);
      case Again(st') => UnguardedSearch(s, env, workers, i + 1, st');
    }
  }

  lemma DialUnguarded(s: Settings, env: StreamEnv, c: Worker, i: nat, ok: bool, st: StreamLoop)
    requires st.world.budget == None && st.world.breakers == None
    ensures var w' := GivenWorld(Dial(s, env, c, i, ok, st)); w'.budget == None && w'.breakers == None
  {
  }

  /** With neither breaker nor budget the search skips nobody and gives up only after everybody. */
  lemma UnguardedStreamTriesAll(s: Settings, env: StreamEnv, w: World, workers: seq<Worker>)
    requires w.budget == None && w.breakers == None
    ensures
      var out := FirstToken(s, env, w, workers);
      && (forall j :: 0 <= j < |out.tries| ==> out.tries[j].pos == j)
      && ((forall j :: 0 <= j < |out.tries| ==> LostTry(out.tries[j])) ==> |out.tries| == |workers|)
  {
    UnguardedSearch(s, env, workers, 0, StreamLoop(w, None, [], []));
  }
}
