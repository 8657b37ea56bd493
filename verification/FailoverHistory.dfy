/** What `Do` does to the breakers is explained by a timed list of breaker events that records
    exactly the outcomes of its calls. */
module FailoverHistory {
  import opened Prelude
  import opened Classify
  import opened Failovers
  import CB = CircuitBreaker

  ghost predicate Monotone(clock: nat -> int) {
    forall i: nat, j: nat :: i <= j ==> clock(i) <= clock(j)
  }

  /** The same breakers, whether or not a fresh one has a record yet. */
  ghost predicate Same(m: CB.Breakers, n: CB.Breakers) {
    forall id :: CB.Get(m, id) == CB.Get(n, id)
  }

  datatype Record = Record(id: string, success: bool)

  /** The outcomes a list of breaker events records. */
  ghost function Recorded(events: seq<CB.Event>): seq<Record> {
    if events == [] then []
    else
      var e := events[|events| - 1];
      Recorded(events[..|events| - 1]) + if e.op.Allow? then [] else [Record(e.id, e.op.Success?)]
  }

  /** The outcomes the calls of a trace should record: one per call, none for a call that was
      cancelled or ran out of time. */
  ghost function Expected(trace: seq<Attempt>): seq<Record> {
    if trace == [] then []
    else
      var a := trace[|trace| - 1];
      Expected(trace[..|trace| - 1])
      + if a.result.Some? && IsExcluded(a.result.value) then [] else [Record(a.worker.id, a.result.None?)]
  }

  ghost predicate Explains(s: Settings, env: Env, w: World, w': World, events: seq<CB.Event>) {
    && w.breakers.Some? && w'.breakers.Some? && w.ticks <= w'.ticks
    && Same(w'.breakers.value, CB.RunMap(s.cfg, w.breakers.value, events))
    && CB.TimedEvents(events, env.clock(w.ticks))
    && (forall k :: 0 <= k < |events| ==> events[k].op.at <= env.clock(w'.ticks))
  }

  // ----- Composition

  lemma {:induction false} RunMapSame(cfg: CB.Config, m: CB.Breakers, n: CB.Breakers, events: seq<CB.Event>)
    requires Same(m, n)
    ensures Same(CB.RunMap(cfg, m, events), CB.RunMap(cfg, n, events))
  {
    hide CB.Step;
    if events != [] {
      var init, e := events[..|events| - 1], events[|events| - 1];
      RunMapSame(cfg, m, n, init);
      var m', n' := CB.RunMap(cfg, m, init), CB.RunMap(cfg, n, init);
      forall id ensures CB.Get(CB.RunMap(cfg, m, events), id) == CB.Get(CB.RunMap(cfg, n, events), id) {
        assert CB.Get(m', id) == CB.Get(n', id) && CB.Get(m', e.id) == CB.Get(n', e.id);
      }
    }
  }

  lemma {:induction false} RunMapAppend(cfg: CB.Config, m: CB.Breakers, xs: seq<CB.Event>, ys: seq<CB.Event>)
    ensures CB.RunMap(cfg, m, xs + ys) == CB.RunMap(cfg, CB.RunMap(cfg, m, xs), ys)
  {
    hide CB.Step;
    if ys == [] {
      assert xs + ys == xs;
    } else {
      assert (xs + ys)[..|xs + ys| - 1] == xs + ys[..|ys| - 1];
      RunMapAppend(cfg, m, xs, ys[..|ys| - 1]);
    }
  }

  lemma {:induction false} RecordedAppend(xs: seq<CB.Event>, ys: seq<CB.Event>)
    ensures Recorded(xs + ys) == Recorded(xs) + Recorded(ys)
  {
    if ys == [] {
      assert xs + ys == xs;
    } else {
      assert (xs + ys)[..|xs + ys| - 1] == xs + ys[..|ys| - 1];
      RecordedAppend(xs, ys[..|ys| - 1]);
    }
  }

  lemma {:induction false} ExpectedAppend(xs: seq<Attempt>, ys: seq<Attempt>)
    ensures Expected(xs + ys) == Expected(xs) + Expected(ys)
  {
    if ys == [] {
      assert xs + ys == xs;
    } else {
      assert (xs + ys)[..|xs + ys| - 1] == xs + ys[..|ys| - 1];
      ExpectedAppend(xs, ys[..|ys| - 1]);
    }
  }

  lemma ExplainsTrans(s: Settings, env: Env, a: World, b: World, c: World, xs: seq<CB.Event>, ys: seq<CB.Event>)
    requires Monotone(env.clock) && Explains(s, env, a, b, xs) && Explains(s, env, b, c, ys)
    ensures Explains(s, env, a, c, xs + ys)
  {
    RunMapSame(s.cfg, b.breakers.value, CB.RunMap(s.cfg, a.breakers.value, xs), ys);
    RunMapAppend(s.cfg, a.breakers.value, xs, ys);
    TimesAppend(env, a.ticks, b.ticks, c.ticks, xs, ys);
  }

  lemma TimesAppend(env: Env, i: nat, j: nat, k: nat, xs: seq<CB.Event>, ys: seq<CB.Event>)
    requires Monotone(env.clock) && i <= j <= k
    requires CB.TimedEvents(xs, env.clock(i)) && forall n :: 0 <= n < |xs| ==> xs[n].op.at <= env.clock(j)
    requires CB.TimedEvents(ys, env.clock(j)) && forall n :: 0 <= n < |ys| ==> ys[n].op.at <= env.clock(k)
    ensures CB.TimedEvents(xs + ys, env.clock(i))
    ensures forall n :: 0 <= n < |xs + ys| ==> (xs + ys)[n].op.at <= env.clock(k)
  {
    assert env.clock(i) <= env.clock(j) <= env.clock(k);
  }

  // ----- Elementary effects

  lemma OneEvent(s: Settings, env: Env, w: World, w': World, e: CB.Event)
    requires Monotone(env.clock)
    requires w.breakers.Some? && w'.breakers.Some? && w.ticks <= w'.ticks <= w.ticks + 1
    requires e.op.at == env.clock(w.ticks)
    requires w'.breakers.value == w.breakers.value[e.id := CB.Step(s.cfg, CB.Get(w.breakers.value, e.id), e.op)]
    ensures Explains(s, env, w, w', [e])
    ensures Recorded([e]) == if e.op.Allow? then [] else [Record(e.id, e.op.Success?)]
  {
    var es := [e];
    assert es[..|es| - 1] == [];
    assert CB.RunMap(s.cfg, w.breakers.value, []) == w.breakers.value;
    assert env.clock(w.ticks) <= env.clock(w'.ticks);
    assert Recorded([]) == [];
  }

  lemma NoEvent(s: Settings, env: Env, w: World, w': World)
    requires w.breakers.Some? && w'.breakers.Some? && w.ticks == w'.ticks
    requires Same(w.breakers.value, w'.breakers.value)
    ensures Explains(s, env, w, w', [])
  {
  }

  lemma ExplainAsk(s: Settings, env: Env, w: World, id: string) returns (events: seq<CB.Event>)
    requires Monotone(env.clock) && w.breakers.Some?
    ensures Explains(s, env, w, Ask(s, env, w, id).1, events) && Recorded(events) == []
  {
    hide CB.AfterAllow, CB.Admits;
    events := [CB.Event(id, CB.Allow(env.clock(w.ticks)))];
    OneEvent(s, env, w, Ask(s, env, w, id).1, events[0]);
  }

  lemma ExplainTouch(s: Settings, env: Env, w: World, id: string)
    requires w.breakers.Some?
    ensures Explains(s, env, w, Touch(w, id), [])
  {
    NoEvent(s, env, w, Touch(w, id));
  }

  // ----- The partition

  lemma {:induction false} ExplainPartition(s: Settings, env: Env, w: World, workers: seq<Worker>)
    returns (events: seq<CB.Event>)
    requires Monotone(env.clock) && w.breakers.Some?
    ensures Explains(s, env, w, Partition(s, env, w, workers).world, events) && Recorded(events) == []
  {
    hide Ask, Touch, StateIn, CB.RunMap, Same;
    events := [];
    if workers == [] {
      ExplainSelf(s, env, w);
    } else {
      var init, c := workers[..|workers| - 1], workers[|workers| - 1];
      var before := ExplainPartition(s, env, w, init);
      var p := Partition(s, env, w, init);
      var touched := Touch(p.world, c.id);
      ExplainTouch(s, env, p.world, c.id);
      ExplainsTrans(s, env, w, p.world, touched, before, []);
      events := before + [];
      RecordedAppend(before, []);
      if StateIn(p.world, c.id) == CB.Open {
        var more := ExplainAsk(s, env, touched, c.id);
        ExplainsTrans(s, env, w, touched, Ask(s, env, touched, c.id).1, events, more);
        RecordedAppend(events, more);
        events := events + more;
      }
    }
  }

  lemma ExplainSelf(s: Settings, env: Env, w: World)
    requires w.breakers.Some?
    ensures Explains(s, env, w, w, [])
  {
  }

  /** A breaker that lets a request through at time `t`, judged by its state and clock only. */
  ghost predicate Due(s: Settings, w: World, id: string, t: int) {
    w.breakers.Some? && var b := CB.Get(w.breakers.value, id);
    b.state != CB.Open || t - b.openedAt >= s.cfg.timeout
  }

  lemma AskWhenDue(s: Settings, env: Env, w: World, id: string, other: string, t: int)
    requires w.breakers.Some? && t <= env.clock(w.ticks)
    ensures var (ok, w') := Ask(s, env, Touch(w, id), id);
      && w'.ticks == w.ticks + 1 && (Due(s, w, other, t) ==> Due(s, w', other, t))
      && (Due(s, w, id, t) && StateIn(w, id) == CB.Open ==> ok)
  {
  }

  /** A worker whose breaker is not open, or whose timeout is over when the partition starts, is
      kept for the loop, wherever it stands in the list. */
  lemma {:induction false} DueWorkersAreKept(s: Settings, env: Env, w: World, workers: seq<Worker>, id: string)
    requires Monotone(env.clock) && Due(s, w, id, env.clock(w.ticks))
    ensures
      var p := Partition(s, env, w, workers);
      && w.ticks <= p.world.ticks && Due(s, p.world, id, env.clock(w.ticks))
      && forall c :: c in p.open ==> c.id != id
  {
    hide Ask, Touch;
    if workers != [] {
      var init, c := workers[..|workers| - 1], workers[|workers| - 1];
      DueWorkersAreKept(s, env, w, init, id);
      var p := Partition(s, env, w, init);
      assert env.clock(w.ticks) <= env.clock(p.world.ticks);
      AskWhenDue(s, env, p.world, c.id, id, env.clock(w.ticks));
      TouchDue(s, p.world, c.id, id, env.clock(w.ticks));
    }
  }

  lemma TouchDue(s: Settings, w: World, id: string, other: string, t: int)
    requires w.breakers.Some?
    ensures Touch(w, id).ticks == w.ticks && Touch(w, id).breakers.Some?
    ensures Due(s, Touch(w, id), other, t) <==> Due(s, w, other, t)
  {
  }

  lemma AskWhenNotDue(s: Settings, env: Env, w: World, id: string, other: string)
    requires w.breakers.Some?
    ensures var (ok, w') := Ask(s, env, Touch(w, id), id);
      && w'.ticks == w.ticks + 1 && w'.breakers.Some?
      && (!Due(s, w, other, env.clock(w.ticks)) ==> CB.Get(w'.breakers.value, other) == CB.Get(w.breakers.value, other))
      && (!Due(s, w, id, env.clock(w.ticks)) ==> !ok)
  {
  }

  /** A worker whose breaker is open with its timeout still running when the partition ends is
      set aside, and its breaker is untouched. */
  lemma {:induction false} OpenWorkersAreSetAside(s: Settings, env: Env, w: World, workers: seq<Worker>, id: string)
    requires Monotone(env.clock) && w.breakers.Some?
    requires !Due(s, w, id, env.clock(Partition(s, env, w, workers).world.ticks))
    ensures
      var p := Partition(s, env, w, workers);
      && w.ticks <= p.world.ticks && p.world.breakers.Some?
      && CB.Get(p.world.breakers.value, id) == CB.Get(w.breakers.value, id)
      && forall c :: c in p.ordered ==> c.id != id
  {
    hide Ask, Touch;
    if workers != [] {
      var init, c := workers[..|workers| - 1], workers[|workers| - 1];
      var p, q := Partition(s, env, w, init), Partition(s, env, w, workers);
      PartitionTicks(s, env, w, init);
      AskWhenNotDue(s, env, p.world, c.id, id);
      TouchKeepsAll(s, p.world, c.id, id);
      assert env.clock(p.world.ticks) <= env.clock(q.world.ticks);
      OpenWorkersAreSetAside(s, env, w, init, id);
    }
  }

  lemma TouchKeepsAll(s: Settings, w: World, id: string, other: string)
    requires w.breakers.Some?
    ensures var w' := Touch(w, id);
      w'.ticks == w.ticks && w'.breakers.Some? && CB.Get(w'.breakers.value, other) == CB.Get(w.breakers.value, other)
  {
  }

  lemma {:induction false} PartitionTicks(s: Settings, env: Env, w: World, workers: seq<Worker>)
    requires w.breakers.Some?
    ensures var p := Partition(s, env, w, workers); w.ticks <= p.world.ticks && p.world.breakers.Some?
  {
    hide Ask, Touch;
    if workers != [] {
      var init, c := workers[..|workers| - 1], workers[|workers| - 1];
      PartitionTicks(s, env, w, init);
      var p := Partition(s, env, w, init);
      AskWhenNotDue(s, env, p.world, c.id, c.id);
      TouchKeepsAll(s, p.world, c.id, c.id);
    }
  }

  // ----- The loop

  lemma ExplainCall(s: Settings, env: Env, c: Worker, i: nat, ok: bool, st: Loop) returns (events: seq<CB.Event>)
    requires Monotone(env.clock) && st.world.breakers.Some?
    ensures
      var it := Call(s, env, c, i, ok, st);
      && Explains(s, env, st.world, WorldOf(it), events)
      && st.trace <= TraceOf(it) && Recorded(events) == Expected(New(st.trace, TraceOf(it)))
  {
    hide CB.AfterSuccess, CB.AfterFailure, CB.RunMap;
    var w := st.world;
    var it := Call(s, env, c, i, ok, st);
    var result := env.call(w.calls);
    var a := Attempt(i, c, StateIn(w, c.id), ok, result);
    assert TraceOf(it) == st.trace + [a];
    assert New(st.trace, TraceOf(it)) == [a];
    ExpectedOne(a);
    if result == None {
      events := [CB.Event(c.id, CB.Success(env.clock(w.ticks)))];
      OneEvent(s, env, w, WorldOf(it), events[0]);
    } else if IsExcluded(result.value) {
      events := [];
      NoEvent(s, env, w, WorldOf(it));
    } else {
      events := [CB.Event(c.id, CB.Failure(env.clock(w.ticks)))];
      OneEvent(s, env, w, WorldOf(it), events[0]);
    }
  }

  lemma ExpectedOne(a: Attempt)
    ensures Expected([a])
            == if a.result.Some? && IsExcluded(a.result.value) then [] else [Record(a.worker.id, a.result.None?)]
  {
    var t := [a];
    assert t[..|t| - 1] == [] && Expected([]) == [];
  }

  lemma ExplainIterate(s: Settings, env: Env, ordered: seq<Worker>, i: nat, st: Loop) returns (events: seq<CB.Event>)
    requires Monotone(env.clock) && st.world.breakers.Some? && i < |ordered|
    ensures
      var it := Iterate(s, env, ordered, i, st);
      && Explains(s, env, st.world, WorldOf(it), events)
      && st.trace <= TraceOf(it) && Recorded(events) == Expected(New(st.trace, TraceOf(it)))
  {
    hide Ask, Call, BudgetDenies, Explains;
    var it := Iterate(s, env, ordered, i, st);
    var id := ordered[i].id;
    if st.attempts >= s.max || (i > 0 && BudgetDenies(st.world)) {
      events := [];
      ExplainSelf(s, env, st.world);
      assert New(st.trace, TraceOf(it)) == [];
    } else {
      events := ExplainAsk(s, env, st.world, id);
      var (ok, asked) := Ask(s, env, st.world, id);
      ExplainsEnd(s, env, st.world, asked, events);
      if !ok && |ordered| > 1 {
        assert New(st.trace, TraceOf(it)) == [];
      } else {
        var more := ExplainCall(s, env, ordered[i], i, ok, st.(world := asked));
        ExplainsTrans(s, env, st.world, asked, WorldOf(it), events, more);
        RecordedAppend(events, more);
        events := events + more;
      }
    }
  }

  lemma ExplainsEnd(s: Settings, env: Env, w: World, w': World, events: seq<CB.Event>)
    requires Explains(s, env, w, w', events)
    ensures w'.breakers.Some?
  {
  }

  lemma {:induction false} ExplainAttempts(s: Settings, env: Env, ordered: seq<Worker>, i: nat, st: Loop)
    returns (events: seq<CB.Event>)
    requires Monotone(env.clock) && st.world.breakers.Some? && i <= |ordered|
    ensures
      var out := Attempts(s, env, ordered, i, st);
      && Explains(s, env, st.world, out.world, events)
      && st.trace <= out.trace && Recorded(events) == Expected(New(st.trace, out.trace))
    decreases |ordered| - i
  {
    hide Iterate, Explains, Recorded;
    if i == |ordered| {
      events := [];
      ExplainSelf(s, env, st.world);
      assert New(st.trace, st.trace) == [];
      RecordedEmpty();
    } else {
      events := ExplainIterate(s, env, ordered, i, st);
      match Iterate(s, env, ordered, i, st)
      case Return(_) =>
      case Next(st') =>
        ExplainsEnd(s, env, st.world, st'.world, events);
        var more := ExplainAttempts(s, env, ordered, i + 1, st');
        var out := Attempts(s, env, ordered, i, st);
        ExplainsTrans(s, env, st.world, st'.world, out.world, events, more);
        RecordedAppend(events, more);
        var a, b := New(st.trace, st'.trace), New(st'.trace, out.trace);
        assert New(st.trace, out.trace) == a + b;
        ExpectedAppend(a, b);
        events := events + more;
    }
  }

  lemma RecordedEmpty()
    ensures Recorded([]) == []
  {
  }

  lemma ExplainDo(s: Settings, env: Env, w: World, workers: seq<Worker>) returns (events: seq<CB.Event>)
    requires Monotone(env.clock) && w.breakers.Some?
    ensures
      var out := DoResult(s, env, w, workers);
      Explains(s, env, w, out.world, events) && Recorded(events) == Expected(out.trace)
  {
    hide Explains, Partition, Attempts, Recorded;
    if workers == [] {
      events := [];
      ExplainSelf(s, env, w);
      RecordedEmpty();
    } else {
      events := ExplainPartition(s, env, w, workers);
      var p := Partition(s, env, w, workers);
      ExplainsEnd(s, env, w, p.world, events);
      var more := ExplainAttempts(s, env, Ordered(p), 0, Loop(p.world, 0, None, []));
      var out := DoResult(s, env, w, workers);
      ExplainsTrans(s, env, w, p.world, out.world, events, more);
      RecordedAppend(events, more);
      assert New([], out.trace) == out.trace;
      events := events + more;
    }
  }
}
