/** Whole lives of the gateway: any sequence of `Do` and `streamFirstToken` calls that share one
    retry budget and one breaker map. */
module GatewayLife {
  import opened Prelude
  import opened Failovers
  import opened FailoverHistory
  import opened StreamDispatch
  import opened StreamAccounts
  import CB = CircuitBreaker
  import RB = RetryBudgets

  datatype Request = Unary(workers: seq<Worker>) | Streaming(workers: seq<Worker>)

  /** The clock and all answers of the outside. */
  datatype Outside = Outside(env: Env, open: nat -> Option<Classify.CallError>, recv: nat -> Recv)

  function AsStreamEnv(o: Outside): StreamEnv {
    StreamEnv(o.env.clock, o.open, o.recv)
  }

  /** The state reached, how many granted retries failed retryably, how many calls or streams
      succeeded, and the outcomes that should have been recorded. */
  datatype Life = Life(world: World, lost: nat, won: nat, records: seq<Record>)

  ghost function Step(s: Settings, o: Outside, l: Life, r: Request): Life {
    match r
    case Unary(ws) =>
      var out := DoResult(s, o.env, l.world, ws);
      Life(out.world, l.lost + Lost(out.trace), l.won + Won(out.trace), l.records + Expected(out.trace))
    case Streaming(ws) =>
      var out := FirstToken(s, AsStreamEnv(o), l.world, ws);
      Life(out.world, l.lost + LostTries(out.tries), l.won + WonTries(out.tries),
           l.records + ExpectedTries(ws, out.tries))
  }

  ghost function Live(s: Settings, o: Outside, w: World, requests: seq<Request>): Life {
    if requests == [] then Life(w, 0, 0, [])
    else Step(s, o, Live(s, o, w, requests[..|requests| - 1]), requests[|requests| - 1])
  }

  lemma {:induction false} LivePaid(s: Settings, o: Outside, w: World, requests: seq<Request>)
    requires w.budget.Some? && RB.InRange(w.budget.value)
    ensures
      var l := Live(s, o, w, requests);
      l.world.budget.Some? && Paid(w.budget.value, l.world.budget.value, l.lost, l.won)
  {
    hide DoResult, FirstToken, Lost, Won, LostTries, WonTries, Paid;
    if requests == [] {
      NothingIsPaid(w.budget.value);
    } else {
      var init, r := requests[..|requests| - 1], requests[|requests| - 1];
      LivePaid(s, o, w, init);
      var l := Live(s, o, w, init);
      var b, b' := w.budget.value, l.world.budget.value;
      PaidInRange(b, b', l.lost, l.won);
      match r
      case Unary(ws) =>
        DoPaid(s, o.env, l.world, ws);
        var out := DoResult(s, o.env, l.world, ws);
        PaidTrans(b, b', out.world.budget.value, l.lost, l.won, Lost(out.trace), Won(out.trace));
      case Streaming(ws) =>
        StreamPaid(s, AsStreamEnv(o), l.world, ws);
        var out := FirstToken(s, AsStreamEnv(o), l.world, ws);
        PaidTrans(b, b', out.world.budget.value, l.lost, l.won, LostTries(out.tries), WonTries(out.tries));
    }
  }

  lemma NothingIsPaid(b: RB.Budget)
    requires RB.InRange(b)
    ensures Paid(b, b, 0, 0)
  {
  }

  /** Over any sequence of calls on a new budget, the retries that were granted and failed
      retryably cost no more than half the bucket, one more retry, and what the successes
      paid in; the token count never leaves its range. */
  lemma RetryAmplification(s: Settings, o: Outside, breakers: Option<CB.Breakers>, maxTokens: real, tokenRatio: real,
                           requests: seq<Request>)
    ensures
      var b := RB.New(maxTokens, tokenRatio);
      var l := Live(s, o, World(Some(b), breakers, 0, 0), requests);
      && l.world.budget.Some? && 0.0 <= l.world.budget.value.tokens <= b.maxTokens
      && RB.Price(b) * l.lost as real <= b.maxTokens / 2.0 + RB.Price(b) + b.tokenRatio * l.won as real
      && (b.maxTokens >= 2.0 ==> l.lost as real <= b.maxTokens / 2.0 + 1.0 + b.tokenRatio * l.won as real)
  {
    hide Live, RB.Potential;
    var b := RB.New(maxTokens, tokenRatio);
    var w := World(Some(b), breakers, 0, 0);
    LivePaid(s, o, w, requests);
    var l := Live(s, o, w, requests);
    Settle(b, l.world.budget.value, l.lost, l.won);
  }

  /** Any sequence of calls is one run of the breaker map, in the order of the clock, in which
      every call and stream attempt that was not cancelled is recorded, in order, for its
      worker and with its result. What holds of every breaker run holds of the breakers; calls made
      against a breaker's refusal (module CallQuota) do not appear as admissions. */
  lemma {:induction false} LifeIsBreakerRun(s: Settings, o: Outside, w: World, requests: seq<Request>)
    returns (events: seq<CB.Event>)
    requires Monotone(o.env.clock) && w.breakers.Some?
    ensures
      var l := Live(s, o, w, requests);
      Explains(s, o.env, w, l.world, events) && Recorded(events) == l.records
  {
    hide Explains, DoResult, FirstToken, Recorded;
    events := [];
    if requests == [] {
      ExplainSelf(s, o.env, w);
      RecordedEmpty();
    } else {
      var init, r := requests[..|requests| - 1], requests[|requests| - 1];
      var before := LifeIsBreakerRun(s, o, w, init);
      var l := Live(s, o, w, init);
      ExplainsEnd(s, o.env, w, l.world, before);
      var more;
      match r {
        case Unary(ws) => more := ExplainDo(s, o.env, l.world, ws);
        case Streaming(ws) =>
          more := ExplainStream(s, AsStreamEnv(o), l.world, ws);
          SameClock(s, AsEnv(AsStreamEnv(o)), o.env, l.world, FirstToken(s, AsStreamEnv(o), l.world, ws).world, more);
      }
      ExplainsTrans(s, o.env, w, l.world, Live(s, o, w, requests).world, before, more);
      RecordedAppend(before, more);
      events := before + more;
    }
  }

  lemma SameClock(s: Settings, e: Env, f: Env, w: World, w': World, events: seq<CB.Event>)
    requires Explains(s, e, w, w', events) && e.clock == f.clock
    ensures Explains(s, f, w, w', events)
  {
  }
}
