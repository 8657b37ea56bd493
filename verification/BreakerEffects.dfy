/** What one `Do` or `streamFirstToken` does to the breaker of each worker: it is asked once for each
    time the worker is considered, and told once what became of a call. */
module BreakerEffects {
  import opened Prelude
  import opened Classify
  import opened Failovers
  import opened FailoverHistory
  import opened StreamDispatch
  import opened StreamAccounts
  import opened FailoverReach
  import CB = CircuitBreaker
  import RB = RetryBudgets

  /** The breaker once told the result of a call at time `t`; cancelled and expired calls say nothing. */
  ghost function Told(cfg: CB.Config, b: CB.Breaker, result: Option<CallError>, t: int): CB.Breaker {
    match result
    case None => CB.AfterSuccess(cfg, b)
    case Some(e) => if IsExcluded(e) then b else CB.AfterFailure(cfg, b, t)
  }

  /** Nobody else in the list has the name of the worker at `k`. */
  ghost predicate OnlyOfItsName(workers: seq<Worker>, k: nat) {
    k < |workers| && forall j :: 0 <= j < |workers| && j != k ==> workers[j].id != workers[k].id
  }

  // ----- The partition

  /** The partition asks the open breakers, once each, and no others. */
  lemma {:induction false} PartitionAsksOpen(s: Settings, env: Env, w: World, workers: seq<Worker>, id: string)
    returns (n: nat)
    requires w.breakers.Some?
    requires forall i, j :: 0 <= i < j < |workers| ==> workers[i].id != workers[j].id
    ensures
      var p, b := Partition(s, env, w, workers).world, BreakerIn(w, id);
      && p.breakers.Some? && w.ticks <= p.ticks && n >= w.ticks
      && BreakerIn(p, id)
         == if b.state == CB.Open && (exists c :: c in workers && c.id == id) then CB.AfterAllow(s.cfg, b, env.clock(n))
            else b
  {
    hide CB.AfterAllow, CB.Admits;
    n := w.ticks;
    if workers != [] {
      var init, c := workers[..|workers| - 1], workers[|workers| - 1];
      assert workers == init + [c];
      n := PartitionAsksOpen(s, env, w, init, id);
      if c.id == id {
        assert forall d :: d in init ==> d.id != id;
        n := Partition(s, env, w, init).world.ticks;
      }
    }
  }

  // ----- Unary calls

  lemma CallTells(s: Settings, env: Env, c: Worker, i: nat, ok: bool, st: Loop, id: string)
    requires st.world.breakers.Some?
    ensures
      var w' := WorldOf(Call(s, env, c, i, ok, st));
      && w'.breakers.Some? && w'.ticks >= st.world.ticks
      && BreakerIn(w', id)
         == if c.id == id then Told(s.cfg, BreakerIn(st.world, id), env.call(st.world.calls), env.clock(st.world.ticks))
            else BreakerIn(st.world, id)
  {
    hide CB.AfterFailure, CB.AfterSuccess, RB.AfterFailure, RB.AfterSuccess;
  }

  lemma {:induction false} LoopLeavesAlone(s: Settings, env: Env, ordered: seq<Worker>, i: nat, st: Loop, id: string)
    requires i <= |ordered| && st.world.breakers.Some? && forall j :: i <= j < |ordered| ==> ordered[j].id != id
    ensures
      var w' := Attempts(s, env, ordered, i, st).world;
      w'.breakers.Some? && BreakerIn(w', id) == BreakerIn(st.world, id)
    decreases |ordered| - i
  {
    hide Ask, Call, BudgetDenies, BreakerIn;
    if i < |ordered| {
      var (ok, asked) := Ask(s, env, st.world, ordered[i].id);
      AskedBreaker(s, env, st.world, ordered[i].id, id);
      CallTells(s, env, ordered[i], i, ok, st.(world := asked), id);
      match Iterate(s, env, ordered, i, st)
      case Return(_) =>
      case Next(st') => LoopLeavesAlone(s, env, ordered, i + 1, st', id);
    }
  }

  /** The one attempt at position `k`, if any, explains the breaker from `b` to `b'`: it was asked at
      the clock's reading `n` and told at the next one. Without one the breaker is untouched. */
  ghost predicate Explained(cfg: CB.Config, clock: nat -> int, b: CB.Breaker, b': CB.Breaker, trace: seq<Attempt>,
                            k: nat, n: nat) {
    if CalledAt(trace, k) then
      exists j :: 0 <= j < |trace| && trace[j].pos == k
                  && b' == Told(cfg, CB.AfterAllow(cfg, b, clock(n)), trace[j].result, clock(n + 1))
    else b' == b
  }

  lemma AskRefused(s: Settings, env: Env, w: World, id: string)
    requires w.breakers.Some? && !Ask(s, env, w, id).0
    ensures BreakerIn(Ask(s, env, w, id).1, id) == BreakerIn(w, id) && Ask(s, env, w, id).1.ticks == w.ticks + 1
  {
  }

  lemma AskTick(s: Settings, env: Env, w: World, id: string)
    requires w.breakers.Some?
    ensures Ask(s, env, w, id).1.ticks == w.ticks + 1
  {
  }

  lemma CalledExplains(cfg: CB.Config, clock: nat -> int, b: CB.Breaker, b': CB.Breaker, trace: seq<Attempt>,
                       k: nat, n: nat, j: nat)
    requires j < |trace| && trace[j].pos == k
    requires b' == Told(cfg, CB.AfterAllow(cfg, b, clock(n)), trace[j].result, clock(n + 1))
    ensures Explained(cfg, clock, b, b', trace, k, n)
  {
    hide Told, CB.AfterAllow;
  }

  lemma NotYet(trace: seq<Attempt>, k: nat)
    requires forall j :: 0 <= j < |trace| ==> trace[j].pos < k
    ensures !CalledAt(trace, k)
  {
  }

  lemma UncalledExplains(cfg: CB.Config, clock: nat -> int, b: CB.Breaker, trace: seq<Attempt>, k: nat, n: nat)
    requires !CalledAt(trace, k)
    ensures Explained(cfg, clock, b, b, trace, k, n)
  {
  }

  /** The loop from the worker's own position on. */
  lemma LoopExplainsHere(s: Settings, env: Env, ordered: seq<Worker>, k: nat, st: Loop)
    requires OnlyOfItsName(ordered, k) && Before(k, st) && st.world.breakers.Some?
    ensures
      var out := Attempts(s, env, ordered, k, st);
      && out.world.breakers.Some?
      && Explained(s.cfg, env.clock, BreakerIn(st.world, ordered[k].id), BreakerIn(out.world, ordered[k].id),
                   out.trace, k, st.world.ticks)
  {
    hide Ask, Call, BudgetDenies, BreakerIn, Told, CB.AfterAllow, Explained, CalledAt;
    var c, n := ordered[k], st.world.ticks;
    var (ok, asked) := Ask(s, env, st.world, c.id);
    var st1 := st.(world := asked);
    AskedBreaker(s, env, st.world, c.id, c.id);
    AskTick(s, env, st.world, c.id);
    if !ok { AskRefused(s, env, st.world, c.id); }
    CallTells(s, env, c, k, ok, st1, c.id);
    CallAppends(s, env, c, k, ok, st1);
    CallAddsOne(s, env, c, k, ok, st1);
    NotYet(st.trace, k);
    var out, b := Attempts(s, env, ordered, k, st), BreakerIn(st.world, c.id);
    UncalledExplains(s.cfg, env.clock, b, st.trace, k, n);
    match Iterate(s, env, ordered, k, st)
    case Return(_) =>
      if out.trace != st.trace {
        CalledExplains(s.cfg, env.clock, b, BreakerIn(out.world, c.id), out.trace, k, n, |st.trace|);
      }
    case Next(st') =>
      LoopLeavesAlone(s, env, ordered, k + 1, st', c.id);
      if st'.trace == st.trace {
        LaterCallsAreLater(s, env, ordered, k + 1, st', k);
        UncalledExplains(s.cfg, env.clock, b, out.trace, k, n);
      } else {
        AttemptsExtend(s, env, ordered, k + 1, st');
        assert out.trace[|st.trace|] == st'.trace[|st.trace|];
        CalledExplains(s.cfg, env.clock, b, BreakerIn(out.world, c.id), out.trace, k, n, |st.trace|);
      }
  }

  lemma {:induction false} LoopExplains(s: Settings, env: Env, ordered: seq<Worker>, i: nat, st: Loop, k: nat)
    returns (n: nat)
    requires i <= k && OnlyOfItsName(ordered, k) && Before(i, st) && st.world.breakers.Some?
    ensures
      var out := Attempts(s, env, ordered, i, st);
      && n >= st.world.ticks && out.world.breakers.Some?
      && Explained(s.cfg, env.clock, BreakerIn(st.world, ordered[k].id), BreakerIn(out.world, ordered[k].id),
                   out.trace, k, n)
    decreases k - i
  {
    hide Ask, Call, BudgetDenies, BreakerIn, Explained, CalledAt;
    n := st.world.ticks;
    if i == k {
      LoopExplainsHere(s, env, ordered, k, st);
    } else {
      var c, id := ordered[i], ordered[k].id;
      var (ok, asked) := Ask(s, env, st.world, c.id);
      AskedBreaker(s, env, st.world, c.id, id);
      AskTick(s, env, st.world, c.id);
      CallTells(s, env, c, i, ok, st.(world := asked), id);
      CallAppends(s, env, c, i, ok, st.(world := asked));
      match Iterate(s, env, ordered, i, st) {
        case Return(out) =>
          NotYet(out.trace, k);
          UncalledExplains(s.cfg, env.clock, BreakerIn(st.world, id), out.trace, k, n);
        case Next(st') =>
          n := LoopExplains(s, env, ordered, i + 1, st', k);
      }
    }
  }

  /** Each worker in order whose name is its own: if it is called its breaker is asked once more and
      told the result of that call, once; if not, its breaker is left as the partition left it. */
  lemma DoTellsOnce(s: Settings, env: Env, w: World, workers: seq<Worker>, k: nat) returns (n: nat)
    requires workers != [] && Partition(s, env, w, workers).world.breakers.Some?
    requires OnlyOfItsName(Ordered(Partition(s, env, w, workers)), k)
    ensures
      var p, out := Partition(s, env, w, workers), DoResult(s, env, w, workers);
      var id := Ordered(p)[k].id;
      && n >= p.world.ticks && out.world.breakers.Some?
      && Explained(s.cfg, env.clock, BreakerIn(p.world, id), BreakerIn(out.world, id), out.trace, k, n)
  {
    hide Partition, Attempts, Explained, BreakerIn;
    var p := Partition(s, env, w, workers);
    n := LoopExplains(s, env, Ordered(p), 0, Loop(p.world, 0, None, []), k);
  }

  // ----- Streams

  /** Told the result of an attempt; a stream without a first chunk is told as a failure, then as a
      success. */
  ghost function ToldTry(cfg: CB.Config, b: CB.Breaker, t: Try, now: int): CB.Breaker {
    if ErrorOf(t).None? && t.recv.EndOfStream? then CB.AfterSuccess(cfg, CB.AfterFailure(cfg, b, now))
    else Told(cfg, b, ErrorOf(t), now)
  }

  lemma DialTells(s: Settings, env: StreamEnv, c: Worker, i: nat, ok: bool, st: StreamLoop, id: string)
    requires st.world.breakers.Some?
    ensures
      var w' := GivenWorld(Dial(s, env, c, i, ok, st));
      var t := Try(i, ok, env.open(st.world.calls), env.recv(st.world.calls));
      && w'.breakers.Some? && w'.ticks >= st.world.ticks
      && BreakerIn(w', id)
         == if c.id == id then ToldTry(s.cfg, BreakerIn(st.world, id), t, env.clock(st.world.ticks))
            else BreakerIn(st.world, id)
  {
    hide CB.AfterFailure, CB.AfterSuccess, RB.AfterFailure, RB.AfterSuccess;
  }

  lemma {:induction false} SearchLeavesAlone(s: Settings, env: StreamEnv, workers: seq<Worker>, i: nat, st: StreamLoop,
                                             id: string)
    requires i <= |workers| && st.world.breakers.Some? && forall j :: i <= j < |workers| ==> workers[j].id != id
    ensures
      var w' := StreamFrom(s, env, workers, i, st).world;
      w'.breakers.Some? && BreakerIn(w', id) == BreakerIn(st.world, id)
    decreases |workers| - i
  {
    hide Ask, Dial, BudgetDenies, BreakerIn;
    if i < |workers| {
      var (ok, asked) := Ask(s, AsEnv(env), st.world, workers[i].id);
      AskedBreaker(s, AsEnv(env), st.world, workers[i].id, id);
      DialTells(s, env, workers[i], i, ok, st.(world := asked), id);
      match StreamStep(s, env, workers, i, st)
      case Give(_) =>
      case Again(st') => SearchLeavesAlone(s, env, workers, i + 1, st', id);
    }
  }

  ghost predicate StreamExplained(cfg: CB.Config, clock: nat -> int, b: CB.Breaker, b': CB.Breaker, tries: seq<Try>,
                                  k: nat, n: nat) {
    if TriedAt(tries, k) then
      exists j :: 0 <= j < |tries| && tries[j].pos == k
                  && b' == ToldTry(cfg, CB.AfterAllow(cfg, b, clock(n)), tries[j], clock(n + 1))
    else b' == b
  }

  lemma {:induction false} LaterTriesAreLater(s: Settings, env: StreamEnv, workers: seq<Worker>, i: nat,
                                              st: StreamLoop, k: nat)
    requires k < i <= |workers| && !TriedAt(st.tries, k)
    ensures !TriedAt(StreamFrom(s, env, workers, i, st).tries, k)
    decreases |workers| - i
  {
    hide Ask, Dial, BudgetDenies;
    if i < |workers| {
      var (ok, asked) := Ask(s, AsEnv(env), st.world, workers[i].id);
      DialAdds(s, env, workers[i], i, ok, st.(world := asked));
      match StreamStep(s, env, workers, i, st)
      case Give(_) =>
      case Again(st') => LaterTriesAreLater(s, env, workers, i + 1, st', k);
    }
  }

  lemma {:induction false} SearchExplains(s: Settings, env: StreamEnv, workers: seq<Worker>, i: nat, st: StreamLoop,
                                          k: nat) returns (n: nat)
    requires i <= k && OnlyOfItsName(workers, k) && st.world.breakers.Some?
    requires forall j :: 0 <= j < |st.tries| ==> st.tries[j].pos < i
    ensures
      var out := StreamFrom(s, env, workers, i, st);
      && n >= st.world.ticks && out.world.breakers.Some?
      && StreamExplained(s.cfg, env.clock, BreakerIn(st.world, workers[k].id), BreakerIn(out.world, workers[k].id),
                         out.tries, k, n)
    decreases k - i
  {
    hide Ask, Dial, BudgetDenies, BreakerIn, ToldTry, CB.AfterAllow;
    var c, id := workers[i], workers[k].id;
    var (ok, asked) := Ask(s, AsEnv(env), st.world, c.id);
    var st1 := st.(world := asked);
    AskedBreaker(s, AsEnv(env), st.world, c.id, id);
    AskTick(s, AsEnv(env), st.world, c.id);
    if !ok { AskRefused(s, AsEnv(env), st.world, c.id); }
    DialTells(s, env, c, i, ok, st1, id);
    DialAdds(s, env, c, i, ok, st1);
    n := st.world.ticks;
    var out := StreamFrom(s, env, workers, i, st);
    match StreamStep(s, env, workers, i, st) {
      case Give(_) =>
        if i == k && out.tries != st.tries { assert out.tries[|st.tries|].pos == k; }
      case Again(st') =>
        if i < k {
          n := SearchExplains(s, env, workers, i + 1, st', k);
        } else {
          SearchLeavesAlone(s, env, workers, i + 1, st', id);
          if st'.tries == st.tries {
            LaterTriesAreLater(s, env, workers, i + 1, st', k);
          } else {
            SearchExtends(s, env, workers, i + 1, st');
            assert out.tries[|st.tries|].pos == k;
          }
        }
    }
  }

  /** The same for streams. */
  lemma StreamTellsOnce(s: Settings, env: StreamEnv, w: World, workers: seq<Worker>, k: nat) returns (n: nat)
    requires w.breakers.Some? && OnlyOfItsName(workers, k)
    ensures
      var out, id := FirstToken(s, env, w, workers), workers[k].id;
      && n >= w.ticks && out.world.breakers.Some?
      && StreamExplained(s.cfg, env.clock, BreakerIn(w, id), BreakerIn(out.world, id), out.tries, k, n)
  {
    hide StreamFrom, StreamExplained, BreakerIn;
    n := SearchExplains(s, env, workers, 0, StreamLoop(w, None, [], []), k);
  }
}
