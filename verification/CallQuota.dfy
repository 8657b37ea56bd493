/** The probe-rate bound carried over to calls: how many requests a life of the gateway really
    sends to a worker whose breaker has opened, and exactly when a refused one is sent. */
module CallQuota {
  import opened Prelude
  import opened Failovers
  import opened FailoverHistory
  import opened StreamDispatch
  import opened StreamAccounts
  import opened GatewayLife
  import CB = CircuitBreaker
  import RB = RetryBudgets

  /** Since the breaker of `id` opened at `a` it has not closed, `n` calls were sent, and those and
      the probes it may still admit are paid for by elapsed timeouts. */
  ghost predicate Credit(s: Settings, env: Env, w: World, id: string, a: int, n: nat) {
    0 < s.cfg.timeout && w.breakers.Some? &&
    var b, t := CB.Get(w.breakers.value, id), env.clock(w.ticks);
    && b.state != CB.Closed && a <= t
    && (b.state == CB.Open ==> a <= b.openedAt <= t && n <= CB.Quota(s.cfg, b.openedAt - a))
    && (b.state == CB.HalfOpen ==> n + b.halfOpenLeft <= CB.Quota(s.cfg, t - a))
  }

  // ----- Elementary effects

  lemma AskCredit(s: Settings, env: Env, w: World, asked: string, id: string, a: int, n: nat)
    requires CB.Usable(s.cfg) && Monotone(env.clock) && Credit(s, env, w, id, a, n)
    ensures var (ok, w') := Ask(s, env, w, asked);
      Credit(s, env, w', id, a, n) && (ok && asked == id ==> Credit(s, env, w', id, a, n + 1))
  {
    hide CB.Quota;
    var b, t, t' := CB.Get(w.breakers.value, id), env.clock(w.ticks), env.clock(w.ticks + 1);
    CB.QuotaGrows(s.cfg, t - a, t' - a);
    if b.state == CB.Open { CB.QuotaGrows(s.cfg, b.openedAt - a, t - a); }
  }

  lemma TouchCredit(s: Settings, env: Env, w: World, touched: string, id: string, a: int, n: nat)
    requires Credit(s, env, w, id, a, n)
    ensures Credit(s, env, Touch(w, touched), id, a, n)
  {
  }

  lemma FailureCredit(s: Settings, env: Env, w: World, failed: string, id: string, a: int, n: nat)
    requires CB.Usable(s.cfg) && Monotone(env.clock) && Credit(s, env, w, id, a, n)
    ensures Credit(s, env, BreakerFailure(s, env, w, failed), id, a, n)
  {
    hide CB.Quota;
    var b, t, t' := CB.Get(w.breakers.value, id), env.clock(w.ticks), env.clock(w.ticks + 1);
    CB.QuotaGrows(s.cfg, t - a, t' - a);
    if b.state == CB.Open { CB.QuotaGrows(s.cfg, b.openedAt - a, t - a); }
  }

  lemma SuccessCredit(s: Settings, env: Env, w: World, done: string, id: string, a: int, n: nat)
    requires Credit(s, env, w, id, a, n) && StateIn(BreakerSuccess(s, w, done), id) != CB.Closed
    ensures Credit(s, env, BreakerSuccess(s, w, done), id, a, n)
  {
    hide CB.Quota;
  }

  /** Credit depends on the breakers and the clock only. */
  lemma CreditSame(s: Settings, env: Env, w: World, w': World, id: string, a: int, n: nat)
    requires Credit(s, env, w, id, a, n) && w'.breakers == w.breakers && w'.ticks == w.ticks
    ensures Credit(s, env, w', id, a, n)
  {
  }

  lemma BudgetsKeep(w: World)
    ensures BudgetSuccess(w).breakers == w.breakers && BudgetSuccess(w).ticks == w.ticks
    ensures BudgetFailure(w).breakers == w.breakers && BudgetFailure(w).ticks == w.ticks
  {
  }

  // ----- Unary calls

  /** Calls to `id` that its breaker let through. */
  ghost function SentTo(trace: seq<Attempt>, id: string): nat {
    if trace == [] then 0
    else
      var x := trace[|trace| - 1];
      SentTo(trace[..|trace| - 1], id) + if x.admitted && x.worker.id == id then 1 else 0
  }

  lemma SentOne(trace: seq<Attempt>, x: Attempt, id: string)
    ensures SentTo(trace + [x], id) == SentTo(trace, id) + if x.admitted && x.worker.id == id then 1 else 0
  {
    assert (trace + [x])[..|trace + [x]| - 1] == trace;
  }

  lemma {:induction false} PartitionCredit(s: Settings, env: Env, w: World, workers: seq<Worker>, id: string, a: int,
                                           n: nat)
    requires CB.Usable(s.cfg) && Monotone(env.clock) && Credit(s, env, w, id, a, n)
    ensures Credit(s, env, Partition(s, env, w, workers).world, id, a, n)
  {
    hide Ask, Touch, StateIn, Credit;
    if workers != [] {
      var init, c := workers[..|workers| - 1], workers[|workers| - 1];
      PartitionCredit(s, env, w, init, id, a, n);
      var p := Partition(s, env, w, init);
      TouchCredit(s, env, p.world, c.id, id, a, n);
      AskCredit(s, env, Touch(p.world, c.id), c.id, id, a, n);
    }
  }

  lemma CallCredit(s: Settings, env: Env, c: Worker, i: nat, ok: bool, st: Loop, id: string, a: int, n: nat)
    requires CB.Usable(s.cfg) && Monotone(env.clock)
    requires Credit(s, env, st.world, id, a, n + SentTo(st.trace, id) + if ok && c.id == id then 1 else 0)
    ensures
      var it := Call(s, env, c, i, ok, st);
      it.Next? || StateIn(WorldOf(it), id) != CB.Closed ==>
        Credit(s, env, WorldOf(it), id, a, n + SentTo(TraceOf(it), id))
  {
    hide Credit, SentTo, BreakerSuccess, BreakerFailure, BudgetSuccess, BudgetFailure;
    var it := Call(s, env, c, i, ok, st);
    var w := st.world.(calls := st.world.calls + 1);
    SentOne(st.trace, Attempt(i, c, StateIn(st.world, c.id), ok, env.call(st.world.calls)), id);
    var m := n + SentTo(TraceOf(it), id);
    CreditSame(s, env, st.world, w, id, a, m);
    BudgetsKeep(w);
    CreditSame(s, env, w, BudgetSuccess(w), id, a, m);
    FailureCredit(s, env, w, c.id, id, a, m);
    var told := BreakerFailure(s, env, w, c.id);
    BudgetsKeep(told);
    CreditSame(s, env, told, BudgetFailure(told), id, a, m);
    if StateIn(BreakerSuccess(s, BudgetSuccess(w), c.id), id) != CB.Closed {
      SuccessCredit(s, env, BudgetSuccess(w), c.id, id, a, m);
    }
  }

  lemma {:induction false} AttemptsCredit(s: Settings, env: Env, ordered: seq<Worker>, i: nat, st: Loop, id: string,
                                          a: int, n: nat)
    requires CB.Usable(s.cfg) && Monotone(env.clock) && i <= |ordered|
    requires Credit(s, env, st.world, id, a, n + SentTo(st.trace, id))
    ensures
      var out := Attempts(s, env, ordered, i, st);
      StateIn(out.world, id) != CB.Closed ==> Credit(s, env, out.world, id, a, n + SentTo(out.trace, id))
    decreases |ordered| - i
  {
    hide Credit, SentTo, Ask, Call, StateIn, BudgetDenies;
    if i < |ordered| {
      var c := ordered[i];
      var (ok, asked) := Ask(s, env, st.world, c.id);
      AskCredit(s, env, st.world, c.id, id, a, n + SentTo(st.trace, id));
      CallCredit(s, env, c, i, ok, st.(world := asked), id, a, n);
      match Iterate(s, env, ordered, i, st)
      case Return(_) =>
      case Next(st') => AttemptsCredit(s, env, ordered, i + 1, st', id, a, n);
    }
  }

  lemma DoCredit(s: Settings, env: Env, w: World, workers: seq<Worker>, id: string, a: int, n: nat)
    requires CB.Usable(s.cfg) && Monotone(env.clock) && Credit(s, env, w, id, a, n)
    ensures
      var out := DoResult(s, env, w, workers);
      StateIn(out.world, id) != CB.Closed ==> Credit(s, env, out.world, id, a, n + SentTo(out.trace, id))
  {
    hide Credit, SentTo, Partition, Attempts, StateIn;
    NoneSent(id);
    if workers != [] {
      PartitionCredit(s, env, w, workers, id, a, n);
      var p := Partition(s, env, w, workers);
      AttemptsCredit(s, env, Ordered(p), 0, Loop(p.world, 0, None, []), id, a, n);
    }
  }

  lemma NoneSent(id: string)
    ensures SentTo([], id) == 0
  {
  }

  // ----- Streams

  ghost function SentTries(workers: seq<Worker>, tries: seq<Try>, id: string): nat {
    if tries == [] then 0
    else
      var t := tries[|tries| - 1];
      SentTries(workers, tries[..|tries| - 1], id)
      + if t.admitted && t.pos < |workers| && workers[t.pos].id == id then 1 else 0
  }

  lemma TriedOne(workers: seq<Worker>, tries: seq<Try>, t: Try, id: string)
    requires t.pos < |workers|
    ensures SentTries(workers, tries + [t], id)
            == SentTries(workers, tries, id) + if t.admitted && workers[t.pos].id == id then 1 else 0
  {
    assert (tries + [t])[..|tries + [t]| - 1] == tries;
  }

  lemma FailRecordedCredit(s: Settings, env: StreamEnv, st: StreamLoop, c: Worker, i: nat, e: Classify.CallError,
                           id: string, a: int, n: nat)
    requires CB.Usable(s.cfg) && Monotone(env.clock) && Credit(s, AsEnv(env), st.world, id, a, n)
    ensures Credit(s, AsEnv(env), FailRecorded(s, env, st, c, i, e).world, id, a, n)
  {
    hide Credit, BreakerFailure;
    FailureCredit(s, AsEnv(env), st.world, c.id, id, a, n);
  }

  lemma SuccessRecordedCredit(s: Settings, env: StreamEnv, st: StreamLoop, c: Worker, i: nat, id: string, a: int,
                              n: nat)
    requires Credit(s, AsEnv(env), st.world, id, a, n) && StateIn(SuccessRecorded(s, st, c, i).world, id) != CB.Closed
    ensures Credit(s, AsEnv(env), SuccessRecorded(s, st, c, i).world, id, a, n)
  {
    hide Credit, BreakerSuccess, BudgetSuccess, StateIn;
    BudgetsKeep(st.world);
    CreditSame(s, AsEnv(env), st.world, BudgetSuccess(st.world), id, a, n);
    if st.world.breakers.Some? { SuccessCredit(s, AsEnv(env), BudgetSuccess(st.world), c.id, id, a, n); }
  }

  lemma DialCredit(s: Settings, env: StreamEnv, workers: seq<Worker>, i: nat, ok: bool, st: StreamLoop,
                   id: string, a: int, n: nat)
    requires CB.Usable(s.cfg) && Monotone(env.clock) && i < |workers|
    requires Credit(s, AsEnv(env), st.world, id, a,
                    n + SentTries(workers, st.tries, id) + if ok && workers[i].id == id then 1 else 0)
    ensures
      var it := Dial(s, env, workers[i], i, ok, st);
      it.Again? || StateIn(GivenWorld(it), id) != CB.Closed ==>
        Credit(s, AsEnv(env), GivenWorld(it), id, a, n + SentTries(workers, GivenTries(it), id))
  {
    hide Credit, SentTries, FailRecorded, SuccessRecorded, BudgetFailure, StateIn;
    var c, k := workers[i], st.world.calls;
    var t := Try(i, ok, env.open(k), env.recv(k));
    TriedOne(workers, st.tries, t, id);
    var m := n + SentTries(workers, st.tries + [t], id);
    var tried := st.(world := st.world.(calls := k + 1), tries := st.tries + [t]);
    CreditSame(s, AsEnv(env), st.world, tried.world, id, a, m);
    var live := tried.(log := tried.log + [Opened(i)]);
    var closed := live.(log := live.log + [Closed(i)]);
    RecordsKeepTries(s, env, tried, c, i);
    RecordsKeepTries(s, env, live, c, i);
    RecordsKeepTries(s, env, closed, c, i);
    if env.open(k).Some? {
      LossCredit(s, env, tried, c, i, env.open(k).value, id, a, m);
    } else {
      match env.recv(k)
      case Chunk =>
        if StateIn(SuccessRecorded(s, live, c, i).world, id) != CB.Closed {
          SuccessRecordedCredit(s, env, live, c, i, id, a, m);
        }
      case EndOfStream =>
        var failed := FailRecorded(s, env, closed, c, i, Classify.Plain);
        FailRecordedCredit(s, env, closed, c, i, Classify.Plain, id, a, m);
        RecordsKeepTries(s, env, failed, c, i);
        if StateIn(SuccessRecorded(s, failed, c, i).world, id) != CB.Closed {
          SuccessRecordedCredit(s, env, failed, c, i, id, a, m);
        }
      case Broken(e) => LossCredit(s, env, closed, c, i, e, id, a, m);
    }
  }

  lemma RecordsKeepTries(s: Settings, env: StreamEnv, st: StreamLoop, c: Worker, i: nat)
    ensures SuccessRecorded(s, st, c, i).tries == st.tries
    ensures forall e :: FailRecorded(s, env, st, c, i, e).tries == st.tries
  {
  }

  lemma LossCredit(s: Settings, env: StreamEnv, st: StreamLoop, c: Worker, i: nat, e: Classify.CallError,
                   id: string, a: int, m: nat)
    requires CB.Usable(s.cfg) && Monotone(env.clock) && Credit(s, AsEnv(env), st.world, id, a, m)
    ensures var it := AfterLoss(s, env, st, c, i, e);
      Credit(s, AsEnv(env), GivenWorld(it), id, a, m) && GivenTries(it) == st.tries
  {
    hide Credit, FailRecorded, BudgetFailure;
    RecordsKeepTries(s, env, st, c, i);
    FailRecordedCredit(s, env, st, c, i, e, id, a, m);
    var told := FailRecorded(s, env, st, c, i, e);
    BudgetsKeep(told.world);
    CreditSame(s, AsEnv(env), told.world, BudgetFailure(told.world), id, a, m);
  }

  lemma {:induction false} StreamFromCredit(s: Settings, env: StreamEnv, workers: seq<Worker>, i: nat, st: StreamLoop,
                                            id: string, a: int, n: nat)
    requires CB.Usable(s.cfg) && Monotone(env.clock) && i <= |workers|
    requires Credit(s, AsEnv(env), st.world, id, a, n + SentTries(workers, st.tries, id))
    ensures
      var out := StreamFrom(s, env, workers, i, st);
      StateIn(out.world, id) != CB.Closed ==>
        Credit(s, AsEnv(env), out.world, id, a, n + SentTries(workers, out.tries, id))
    decreases |workers| - i
  {
    hide Credit, SentTries, Ask, Dial, StateIn, BudgetDenies;
    if i < |workers| {
      var (ok, asked) := Ask(s, AsEnv(env), st.world, workers[i].id);
      AskCredit(s, AsEnv(env), st.world, workers[i].id, id, a, n + SentTries(workers, st.tries, id));
      DialCredit(s, env, workers, i, ok, st.(world := asked), id, a, n);
      match StreamStep(s, env, workers, i, st)
      case Give(_) =>
      case Again(st') => StreamFromCredit(s, env, workers, i + 1, st', id, a, n);
    }
  }

  // ----- Lives

  /** Calls and stream attempts for `id` that its breaker let through, over a whole life. */
  ghost function Sent(s: Settings, o: Outside, w: World, requests: seq<Request>, id: string): nat {
    if requests == [] then 0
    else
      var init, r := requests[..|requests| - 1], requests[|requests| - 1];
      var before := Live(s, o, w, init).world;
      Sent(s, o, w, init, id)
      + match r
        case Unary(ws) => SentTo(DoResult(s, o.env, before, ws).trace, id)
        case Streaming(ws) => SentTries(ws, FirstToken(s, AsStreamEnv(o), before, ws).tries, id)
  }

  /** The breaker of `id` is not closed after any request of the life. */
  ghost predicate StaysUnclosed(s: Settings, o: Outside, w: World, requests: seq<Request>, id: string) {
    StateIn(Live(s, o, w, requests).world, id) != CB.Closed
    && (requests == [] || StaysUnclosed(s, o, w, requests[..|requests| - 1], id))
  }

  lemma {:induction false} LifeCredit(s: Settings, o: Outside, w: World, requests: seq<Request>, id: string, a: int)
    requires CB.Usable(s.cfg) && Monotone(o.env.clock) && Credit(s, o.env, w, id, a, 0)
    requires StaysUnclosed(s, o, w, requests, id)
    ensures Credit(s, o.env, Live(s, o, w, requests).world, id, a, Sent(s, o, w, requests, id))
  {
    hide Credit, DoResult, FirstToken, SentTo, SentTries, StateIn;
    hide Expected, ExpectedTries, Lost, Won, LostTries, WonTries;
    if requests != [] {
      var init, r := requests[..|requests| - 1], requests[|requests| - 1];
      LifeCredit(s, o, w, init, id, a);
      var before, n := Live(s, o, w, init).world, Sent(s, o, w, init, id);
      match r
      case Unary(ws) => DoCredit(s, o.env, before, ws, id, a, n);
      case Streaming(ws) => StreamCredit(s, o, before, ws, id, a, n);
    }
  }

  lemma StreamCredit(s: Settings, o: Outside, w: World, workers: seq<Worker>, id: string, a: int, n: nat)
    requires CB.Usable(s.cfg) && Monotone(o.env.clock) && Credit(s, o.env, w, id, a, n)
    ensures
      var out := FirstToken(s, AsStreamEnv(o), w, workers);
      StateIn(out.world, id) != CB.Closed ==> Credit(s, o.env, out.world, id, a, n + SentTries(workers, out.tries, id))
  {
    hide SentTries, StreamFrom, StateIn, CB.Quota;
    NoneTried(workers, id);
    StreamFromCredit(s, AsStreamEnv(o), workers, 0, StreamLoop(w, None, [], []), id, a, n);
  }

  lemma NoneTried(workers: seq<Worker>, id: string)
    ensures SentTries(workers, [], id) == 0
  {
  }

  /** From the moment a breaker opens, as long as no request leaves it closed, the calls and
      streams any life of the gateway sends to that worker with its breaker's consent number at
      most `MaxHalfOpen + 1` per full timeout elapsed. */
  lemma CallsWithinQuota(s: Settings, o: Outside, w: World, requests: seq<Request>, id: string)
    requires CB.Usable(s.cfg) && Monotone(o.env.clock) && w.breakers.Some?
    requires var b := CB.Get(w.breakers.value, id); b.state == CB.Open && b.openedAt <= o.env.clock(w.ticks)
    requires StaysUnclosed(s, o, w, requests, id)
    ensures
      Sent(s, o, w, requests, id)
      <= CB.Quota(s.cfg, o.env.clock(Live(s, o, w, requests).world.ticks) - CB.Get(w.breakers.value, id).openedAt)
  {
    hide Live, Sent, StaysUnclosed, CB.Quota;
    var a := CB.Get(w.breakers.value, id).openedAt;
    CB.QuotaGrows(s.cfg, 0, 0);
    LifeCredit(s, o, w, requests, id, a);
    var end := Live(s, o, w, requests).world;
    var b := CB.Get(end.breakers.value, id);
    if b.state == CB.Open { CB.QuotaGrows(s.cfg, b.openedAt - a, o.env.clock(end.ticks) - a); }
  }

  // ----- Exactly when a refused worker is called

  /** Every call was made with the consent of its worker's breaker. */
  ghost predicate Agreed(trace: seq<Attempt>) {
    forall k :: 0 <= k < |trace| ==> trace[k].admitted
  }

  /** A single worker is left to be ordered, however many candidates there were, and its breaker
      refuses it. */
  ghost predicate Cornered(s: Settings, env: Env, w: World, workers: seq<Worker>) {
    workers != [] &&
    var p := Partition(s, env, w, workers);
    |Ordered(p)| == 1 && !Ask(s, env, p.world, Ordered(p)[0].id).0
  }

  /** `Do` calls a worker against its breaker's refusal exactly when cornered. */
  lemma RefusedCallIff(s: Settings, env: Env, w: World, workers: seq<Worker>)
    ensures !Agreed(DoResult(s, env, w, workers).trace) <==> 0 < s.max && Cornered(s, env, w, workers)
  {
    hide Partition, Ask, Call, Subsequence;
    if workers != [] {
      DoOutcome(s, env, w, workers);
      var p := Partition(s, env, w, workers);
      var ordered := Ordered(p);
      if |ordered| == 1 {
        assert ordered == [ordered[0]];
        LoneCall(s, env, ordered[0], Loop(p.world, 0, None, []));
      }
    }
  }

  lemma LoneCall(s: Settings, env: Env, c: Worker, st: Loop)
    requires st.attempts == 0 && st.trace == []
    ensures
      var out := Attempts(s, env, [c], 0, st);
      if 0 < s.max then
        |out.trace| == 1 && out.trace[0].worker == c && out.trace[0].admitted == Ask(s, env, st.world, c.id).0
      else out.trace == []
  {
    hide Ask, BreakerFailure, BreakerSuccess, BudgetFailure, BudgetSuccess, StateIn;
    match Iterate(s, env, [c], 0, st)
    case Return(_) =>
    case Next(st') => assert Attempts(s, env, [c], 1, st') == Exhausted(st');
  }

  /** Every stream was opened with the consent of its worker's breaker. */
  ghost predicate Consented(tries: seq<Try>) {
    forall k :: 0 <= k < |tries| ==> tries[k].admitted
  }

  lemma DialTries(s: Settings, env: StreamEnv, c: Worker, i: nat, ok: bool, st: StreamLoop)
    ensures GivenTries(Dial(s, env, c, i, ok, st))
            == st.tries + [Try(i, ok, env.open(st.world.calls), env.recv(st.world.calls))]
    ensures Consented(st.tries) && ok ==> Consented(GivenTries(Dial(s, env, c, i, ok, st)))
  {
    hide BreakerFailure, BreakerSuccess, BudgetFailure, BudgetSuccess;
  }

  lemma {:induction false} SeveralConsent(s: Settings, env: StreamEnv, workers: seq<Worker>, i: nat, st: StreamLoop)
    requires i <= |workers| && |workers| > 1 && Consented(st.tries)
    ensures Consented(StreamFrom(s, env, workers, i, st).tries)
    decreases |workers| - i
  {
    hide Ask, Dial, BudgetDenies, Consented;
    if i < |workers| {
      var (ok, asked) := Ask(s, AsEnv(env), st.world, workers[i].id);
      DialTries(s, env, workers[i], i, ok, st.(world := asked));
      match StreamStep(s, env, workers, i, st)
      case Give(_) =>
      case Again(st') => SeveralConsent(s, env, workers, i + 1, st');
    }
  }

  lemma LoneTry(s: Settings, env: StreamEnv, c: Worker, st: StreamLoop)
    requires st.tries == []
    ensures
      var tries := StreamFrom(s, env, [c], 0, st).tries;
      |tries| == 1 && tries[0].pos == 0 && tries[0].admitted == Ask(s, AsEnv(env), st.world, c.id).0
  {
    hide Ask, Dial;
    var (ok, asked) := Ask(s, AsEnv(env), st.world, c.id);
    DialTries(s, env, c, 0, ok, st.(world := asked));
    var given := GivenTries(Dial(s, env, c, 0, ok, st.(world := asked)));
    assert given[0].admitted == ok;
    match StreamStep(s, env, [c], 0, st)
    case Give(_) =>
    case Again(st') => assert StreamFrom(s, env, [c], 1, st').tries == st'.tries == given;
  }

  ghost predicate StreamCornered(s: Settings, env: StreamEnv, w: World, workers: seq<Worker>) {
    |workers| == 1 && !Ask(s, AsEnv(env), w, workers[0].id).0
  }

  /** A stream is opened on a worker its breaker refuses exactly if that worker is the only one
      and its breaker refuses it. */
  lemma RefusedStreamIff(s: Settings, env: StreamEnv, w: World, workers: seq<Worker>)
    ensures !Consented(FirstToken(s, env, w, workers).tries) <==> StreamCornered(s, env, w, workers)
  {
    hide Ask, StreamStep;
    if |workers| > 1 {
      SeveralConsent(s, env, workers, 0, StreamLoop(w, None, [], []));
    } else if |workers| == 1 {
      assert workers == [workers[0]];
      LoneTry(s, env, workers[0], StreamLoop(w, None, [], []));
    }
  }

  // ----- All calls

  ghost function CallsTo(trace: seq<Attempt>, id: string): nat {
    if trace == [] then 0
    else CallsTo(trace[..|trace| - 1], id) + if trace[|trace| - 1].worker.id == id then 1 else 0
  }

  ghost function TriesTo(workers: seq<Worker>, tries: seq<Try>, id: string): nat {
    if tries == [] then 0
    else
      var t := tries[|tries| - 1];
      TriesTo(workers, tries[..|tries| - 1], id) + if t.pos < |workers| && workers[t.pos].id == id then 1 else 0
  }

  lemma {:induction false} AgreedAreSent(trace: seq<Attempt>, id: string)
    requires Agreed(trace)
    ensures CallsTo(trace, id) == SentTo(trace, id)
  {
    if trace != [] { AgreedAreSent(trace[..|trace| - 1], id); }
  }

  lemma {:induction false} ConsentedAreSent(workers: seq<Worker>, tries: seq<Try>, id: string)
    requires Consented(tries)
    ensures TriesTo(workers, tries, id) == SentTries(workers, tries, id)
  {
    if tries != [] { ConsentedAreSent(workers, tries[..|tries| - 1], id); }
  }

  /** Everything a life sends to `id`, whatever its breaker says. */
  ghost function Calls(s: Settings, o: Outside, w: World, requests: seq<Request>, id: string): nat {
    if requests == [] then 0
    else
      var init, r := requests[..|requests| - 1], requests[|requests| - 1];
      var before := Live(s, o, w, init).world;
      Calls(s, o, w, init, id)
      + match r
        case Unary(ws) => CallsTo(DoResult(s, o.env, before, ws).trace, id)
        case Streaming(ws) => TriesTo(ws, FirstToken(s, AsStreamEnv(o), before, ws).tries, id)
  }

  /** One if a single worker, `id`, is left to be ordered and refused, and so called all the same. */
  ghost function CorneredHere(s: Settings, env: Env, w: World, workers: seq<Worker>, id: string): nat {
    if 0 < s.max && Cornered(s, env, w, workers) && Ordered(Partition(s, env, w, workers))[0].id == id then 1 else 0
  }

  ghost function StreamCorneredHere(s: Settings, env: StreamEnv, w: World, workers: seq<Worker>, id: string): nat {
    if StreamCornered(s, env, w, workers) && workers[0].id == id then 1 else 0
  }

  lemma RefusedTrace(s: Settings, env: Env, w: World, workers: seq<Worker>)
    requires 0 < s.max && Cornered(s, env, w, workers)
    ensures
      var c, out := Ordered(Partition(s, env, w, workers))[0], DoResult(s, env, w, workers);
      |out.trace| == 1 && out.trace[0].worker == c && !out.trace[0].admitted
  {
    hide Partition, Ask, Attempts;
    var p := Partition(s, env, w, workers);
    assert Ordered(p) == [Ordered(p)[0]];
    LoneCall(s, env, Ordered(p)[0], Loop(p.world, 0, None, []));
  }

  lemma CallsAccounted(s: Settings, env: Env, w: World, workers: seq<Worker>, id: string)
    ensures
      var trace := DoResult(s, env, w, workers).trace;
      CallsTo(trace, id) == SentTo(trace, id) + CorneredHere(s, env, w, workers, id)
  {
    hide Cornered, DoResult, Partition, Agreed;
    RefusedCallIff(s, env, w, workers);
    var trace := DoResult(s, env, w, workers).trace;
    if Agreed(trace) {
      AgreedAreSent(trace, id);
    } else {
      RefusedTrace(s, env, w, workers);
      assert trace[..|trace| - 1] == [];
    }
  }

  lemma RefusedTry(s: Settings, env: StreamEnv, w: World, workers: seq<Worker>)
    requires StreamCornered(s, env, w, workers)
    ensures
      var out := FirstToken(s, env, w, workers);
      |out.tries| == 1 && out.tries[0].pos == 0 && !out.tries[0].admitted
  {
    hide Ask, Dial;
    assert workers == [workers[0]];
    LoneTry(s, env, workers[0], StreamLoop(w, None, [], []));
  }

  lemma TriesAccounted(s: Settings, env: StreamEnv, w: World, workers: seq<Worker>, id: string)
    ensures
      var tries := FirstToken(s, env, w, workers).tries;
      TriesTo(workers, tries, id) == SentTries(workers, tries, id) + StreamCorneredHere(s, env, w, workers, id)
  {
    hide FirstToken, Consented, Ask;
    RefusedStreamIff(s, env, w, workers);
    var tries := FirstToken(s, env, w, workers).tries;
    if Consented(tries) {
      ConsentedAreSent(workers, tries, id);
    } else {
      RefusedTry(s, env, w, workers);
      assert tries[..|tries| - 1] == [];
    }
  }

  /** Requests of a life that are left with `id` alone, refused. */
  ghost function CorneredAt(s: Settings, o: Outside, w: World, requests: seq<Request>, id: string): nat {
    if requests == [] then 0
    else
      var init, r := requests[..|requests| - 1], requests[|requests| - 1];
      var before := Live(s, o, w, init).world;
      CorneredAt(s, o, w, init, id)
      + match r
        case Unary(ws) => CorneredHere(s, o.env, before, ws, id)
        case Streaming(ws) => StreamCorneredHere(s, AsStreamEnv(o), before, ws, id)
  }

  /** The whole account: what is sent to a worker is what its breaker consents to, and one call for
      every request left with that worker alone and refused. */
  lemma {:induction false} CallsAreAccounted(s: Settings, o: Outside, w: World, requests: seq<Request>, id: string)
    ensures Calls(s, o, w, requests, id) == Sent(s, o, w, requests, id) + CorneredAt(s, o, w, requests, id)
  {
    hide Live, DoResult, FirstToken, CallsTo, SentTo, TriesTo, SentTries, CorneredHere, StreamCorneredHere;
    if requests != [] {
      var init, r := requests[..|requests| - 1], requests[|requests| - 1];
      CallsAreAccounted(s, o, w, init, id);
      var before := Live(s, o, w, init).world;
      match r
      case Unary(ws) => CallsAccounted(s, o.env, before, ws, id);
      case Streaming(ws) => TriesAccounted(s, AsStreamEnv(o), before, ws, id);
    }
  }

  /** So apart from the requests left with that worker alone, nothing is sent to it beyond the quota. */
  lemma AllCallsWithinQuota(s: Settings, o: Outside, w: World, requests: seq<Request>, id: string)
    requires CB.Usable(s.cfg) && Monotone(o.env.clock) && w.breakers.Some?
    requires var b := CB.Get(w.breakers.value, id); b.state == CB.Open && b.openedAt <= o.env.clock(w.ticks)
    requires StaysUnclosed(s, o, w, requests, id)
    ensures
      Calls(s, o, w, requests, id)
      <= CB.Quota(s.cfg, o.env.clock(Live(s, o, w, requests).world.ticks) - CB.Get(w.breakers.value, id).openedAt)
         + CorneredAt(s, o, w, requests, id)
  {
    hide Calls, Sent, StaysUnclosed, CorneredAt, CB.Quota, Live;
    CallsAreAccounted(s, o, w, requests, id);
    CallsWithinQuota(s, o, w, requests, id);
  }

  /** Out of two candidates the second is set aside for its open breaker, and the first is called
      although its breaker refuses it. */
  lemma ExhaustedIsCalled(s: Settings, env: Env, w: World, first: Worker, second: Worker)
    requires 0 < s.max && w.breakers.Some?
    requires var b := CB.Get(w.breakers.value, first.id); b.state == CB.HalfOpen && b.halfOpenLeft == 0
    requires
      var b := CB.Get(w.breakers.value, second.id);
      b.state == CB.Open && env.clock(w.ticks) - b.openedAt < s.cfg.timeout
    ensures
      var out := DoResult(s, env, w, [first, second]);
      |out.trace| == 1 && out.trace[0].worker == first && !out.trace[0].admitted
  {
    AllKept(s, env, w, [first]);
    var one, two := Partition(s, env, w, [first]), Partition(s, env, w, [first, second]);
    OneTick(s, env, w, first);
    assert [first, second][..1] == [first];
    assert CB.Get(one.world.breakers.value, second.id) == CB.Get(w.breakers.value, second.id);
    assert two.ordered == [first];
    assert CB.Get(one.world.breakers.value, first.id) == CB.Get(w.breakers.value, first.id);
    LoneCall(s, env, first, Loop(two.world, 0, None, []));
  }

  /** Keeping a worker whose breaker is not open reads no clock. */
  lemma OneTick(s: Settings, env: Env, w: World, c: Worker)
    requires StateIn(w, c.id) != CB.Open
    ensures Partition(s, env, w, [c]).world.ticks == w.ticks
  {
    var one := [c];
    assert one[..|one| - 1] == [] && Partition(s, env, w, []) == Split(w, [], []);
  }
}
