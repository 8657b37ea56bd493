/** The damping between wanted and applied replica counts. */
module FleetDamping {
  import opened Prelude

  datatype Policy = Policy(minReplicas: int, maxReplicas: int, targetConcurrency: int, scaleUpUtilization: real,
                           scaleDownDelaySeconds: int, stabilizationWindowSeconds: int)

  datatype Sample = Sample(at: int, desired: int)

  /** `lastAction` is `None` before the first action; every cooldown counts as over then. */
  datatype Damper = Damper(samples: seq<Sample>, lastAction: Option<int>, pending: bool)

  const NEW := Damper([], None, false)

  type Dampers = map<string, Damper>

  function Get(dampers: Dampers, key: string): Damper {
    if key in dampers then dampers[key] else NEW
  }

  function Window(p: Policy): int {
    if p.stabilizationWindowSeconds <= 0 then 60 * SECOND else p.stabilizationWindowSeconds * SECOND
  }

  function Cooldown(p: Policy): int {
    if p.scaleDownDelaySeconds < 0 then 900 * SECOND else p.scaleDownDelaySeconds * SECOND
  }

  predicate CooledDown(d: Damper, p: Policy, now: int) {
    Cooldown(p) == 0 || d.lastAction.None? || now - d.lastAction.value >= Cooldown(p)
  }

  // ----- One application

  function Prune(samples: seq<Sample>, cut: int): seq<Sample> {
    if samples == [] then []
    else
      var s := samples[|samples| - 1];
      Prune(samples[..|samples| - 1], cut) + if s.at > cut then [s] else []
  }

  function Highest(samples: seq<Sample>, d: int): (r: int)
    ensures d <= r
  {
    if samples == [] then d
    else
      var h := Highest(samples[..|samples| - 1], d);
      if samples[|samples| - 1].desired > h then samples[|samples| - 1].desired else h
  }

  function Lowest(samples: seq<Sample>, d: int): (r: int)
    ensures r <= d
  {
    if samples == [] then d
    else
      var l := Lowest(samples[..|samples| - 1], d);
      if samples[|samples| - 1].desired < l then samples[|samples| - 1].desired else l
  }

  function Kept(d: Damper, desired: int, p: Policy, now: int): seq<Sample> {
    Prune(d.samples + [Sample(now, desired)], now - Window(p))
  }

  predicate GoesUp(d: Damper, desired: int, current: int) {
    !d.pending && desired > current
  }

  predicate GoesDown(d: Damper, desired: int, current: int, p: Policy, now: int) {
    !d.pending && desired < current && CooledDown(d, p, now)
  }

  function Applied(step: int, d: Damper, desired: int, current: int, p: Policy, now: int): (Damper, int) {
    var kept := Kept(d, desired, p, now);
    if GoesUp(d, desired, current) then
      var target := Highest(kept, desired);
      (Damper(kept, Some(now), true), if current + step > target then target else current + step)
    else if GoesDown(d, desired, current, p, now) then
      var target := Lowest(kept, desired);
      (Damper(kept, Some(now), true), if current - step < target then target else current - step)
    else (d.(samples := kept), current)
  }

  function Cleared(dampers: Dampers, key: string): Dampers {
    if key in dampers then dampers[key := dampers[key].(pending := false)] else dampers
  }

  method PruneSamples(samples: seq<Sample>, cut: int) returns (kept: seq<Sample>)
    ensures kept == Prune(samples, cut)
  {
    kept := [];
    for i := 0 to |samples|
      invariant kept == Prune(samples[..i], cut)
    {
      assert samples[..i + 1][..i] == samples[..i];
      if samples[i].at > cut { kept := kept + [samples[i]]; }
    }
    assert samples[..|samples|] == samples;
  }

  method Extremes(samples: seq<Sample>, desired: int) returns (maxD: int, minD: int)
    ensures maxD == Highest(samples, desired) && minD == Lowest(samples, desired)
  {
    maxD, minD := desired, desired;
    for i := 0 to |samples|
      invariant maxD == Highest(samples[..i], desired) && minD == Lowest(samples[..i], desired)
    {
      assert samples[..i + 1][..i] == samples[..i];
      if samples[i].desired > maxD { maxD := samples[i].desired; }
      if samples[i].desired < minD { minD := samples[i].desired; }
    }
    assert samples[..|samples|] == samples;
  }

  class Hysteresis {
    var dampers: Dampers
    const step: int

    constructor ()
      ensures dampers == map[] && step == 1
    {
      dampers, step := map[], 1;
    }

    method Apply(key: string, desired: int, current: int, policy: Policy, now: int) returns (out: int)
      modifies this
      ensures (Get(dampers, key), out) == Applied(step, Get(old(dampers), key), desired, current, policy, now)
      ensures dampers == old(dampers)[key := Get(dampers, key)]
    {
      hide Prune, Highest, Lowest;
      var st := if key in dampers then dampers[key] else Damper([], None, false);
      var window := policy.stabilizationWindowSeconds * SECOND;
      if window <= 0 { window := 60 * SECOND; }
      st := st.(samples := st.samples + [Sample(now, desired)]);
      var kept := PruneSamples(st.samples, now - window);
      st := st.(samples := kept);
      dampers := dampers[key := st];
      if st.pending { return current; }
      var maxD, minD := Extremes(st.samples, desired);
      if desired > current {
        out := current + step;
        if out > maxD { out := maxD; }
        dampers := dampers[key := st.(pending := true, lastAction := Some(now))];
        return;
      }
      var cooldown := policy.scaleDownDelaySeconds * SECOND;
      if policy.scaleDownDelaySeconds < 0 { cooldown := 900 * SECOND; }
      if desired < current && (cooldown == 0 || st.lastAction.None? || now - st.lastAction.value >= cooldown) {
        out := current - step;
        if out < minD { out := minD; }
        dampers := dampers[key := st.(pending := true, lastAction := Some(now))];
        return;
      }
      return current;
    }

    method ClearPending(key: string)
      modifies this
      ensures dampers == Cleared(old(dampers), key)
    {
      if key in dampers { dampers := dampers[key := dampers[key].(pending := false)]; }
    }
  }

  // ----- Any step: towards the demand, never past the window's extremes

  lemma {:induction false} PruneMeans(samples: seq<Sample>, cut: int, s: Sample)
    ensures s in Prune(samples, cut) <==> s in samples && s.at > cut
  {
    if samples != [] {
      PruneMeans(samples[..|samples| - 1], cut, s);
      assert samples == samples[..|samples| - 1] + [samples[|samples| - 1]];
    }
  }

  lemma {:induction false} ExtremesMean(samples: seq<Sample>, d: int)
    ensures forall s :: s in samples ==> Lowest(samples, d) <= s.desired <= Highest(samples, d)
    ensures Highest(samples, d) == d || exists s :: s in samples && s.desired == Highest(samples, d)
    ensures Lowest(samples, d) == d || exists s :: s in samples && s.desired == Lowest(samples, d)
  {
    if samples != [] {
      var init, last := samples[..|samples| - 1], samples[|samples| - 1];
      ExtremesMean(init, d);
      assert samples == init + [last];
      assert forall s :: s in samples <==> s in init || s == last;
      assert last in samples;
    }
  }

  /** A second has a thousand million nanoseconds; a stabilization window that is not positive counts
      as a minute. A demand is remembered exactly as long as it is younger than that. */
  lemma RememberedMeans(step: int, d: Damper, desired: int, current: int, p: Policy, now: int, s: Sample)
    ensures
      var seconds := if p.stabilizationWindowSeconds <= 0 then 60 else p.stabilizationWindowSeconds;
      s in Applied(step, d, desired, current, p, now).0.samples
      <==> (s in d.samples || s == Sample(now, desired)) && now - s.at < seconds * 1_000_000_000
  {
    hide Prune, Highest, Lowest, CooledDown;
    PruneMeans(d.samples + [Sample(now, desired)], now - Window(p), s);
  }

  /** The policy's delay before a scale-down, in nanoseconds; a negative one counts as a quarter of
      an hour. It has passed if there is none, or no action yet, or the last is that long ago. */
  ghost predicate DelayPassed(delaySeconds: int, last: Option<int>, now: int) {
    var seconds := if delaySeconds < 0 then 15 * 60 else delaySeconds;
    seconds == 0 || last.None? || now - last.value >= seconds * 1_000_000_000
  }

  /** With any positive step: the answer goes up exactly if more is wanted, down exactly if less is
      wanted and the policy's delay has passed, and neither while an action is pending. It
      moves by a whole step, unless that passes every demand remembered, and then as far as the
      furthest of them. */
  lemma DampedMove(step: int, d: Damper, desired: int, current: int, p: Policy, now: int)
    requires 0 < step
    ensures
      var (d', out) := Applied(step, d, desired, current, p, now);
      && (out > current <==> !d.pending && desired > current)
      && (out < current <==>
            !d.pending && desired < current && DelayPassed(p.scaleDownDelaySeconds, d.lastAction, now))
      && d' == Damper(d'.samples, if out != current then Some(now) else d.lastAction, d.pending || out != current)
    ensures
      var (d', out) := Applied(step, d, desired, current, p, now);
      && (out > current ==>
            && (out == desired || exists s :: s in d'.samples && s.desired >= out)
            && (out == current + step
                || (out < current + step && desired <= out && forall s :: s in d'.samples ==> s.desired <= out)))
      && (out < current ==>
            && (out == desired || exists s :: s in d'.samples && s.desired <= out)
            && (out == current - step
                || (out > current - step && desired >= out && forall s :: s in d'.samples ==> s.desired >= out)))
  {
    hide Prune, Highest, Lowest, Window;
    ExtremesMean(Kept(d, desired, p, now), desired);
    assert Sample(now, desired) in d.samples + [Sample(now, desired)];
    WindowPositive(p);
    PruneMeans(d.samples + [Sample(now, desired)], now - Window(p), Sample(now, desired));
  }

  lemma WindowPositive(p: Policy)
    ensures 0 < Window(p)
  {
  }

  // ----- The stabilization window does not matter at step one

  /** With the only step the constructor sets, the answer moves by one towards the demand
      whenever it moves, so it is the same for every sample history and every window. */
  lemma WindowIsIrrelevant(d: Damper, desired: int, current: int, p: Policy, now: int)
    ensures Applied(1, d, desired, current, p, now).1
            == if GoesUp(d, desired, current) then current + 1
               else if GoesDown(d, desired, current, p, now) then current - 1
               else current
    ensures forall samples, w :: Applied(1, d.(samples := samples), desired, current,
                                         p.(stabilizationWindowSeconds := w), now).1
                                 == Applied(1, d, desired, current, p, now).1
  {
    hide Kept;
  }

  // ----- Cooldown over every run of one key

  datatype Op = Apply(desired: int, current: int, policy: Policy, now: int) | Clear

  /** A scaling action: when, in which direction, and the policy's delay in seconds. */
  datatype Action = Action(at: int, down: bool, delaySeconds: int)

  datatype History = History(damper: Damper, actions: seq<Action>)

  function After(step: int, h: History, op: Op): History {
    match op
    case Clear => h.(damper := h.damper.(pending := false))
    case Apply(desired, current, p, now) =>
      var d := h.damper;
      History(Applied(step, d, desired, current, p, now).0,
              h.actions
              + if GoesUp(d, desired, current) then [Action(now, false, p.scaleDownDelaySeconds)]
                else if GoesDown(d, desired, current, p, now) then [Action(now, true, p.scaleDownDelaySeconds)]
                else [])
  }

  function Run(step: int, ops: seq<Op>): History {
    if ops == [] then History(NEW, []) else After(step, Run(step, ops[..|ops| - 1]), ops[|ops| - 1])
  }

  ghost predicate Timed(ops: seq<Op>) {
    forall i, j :: 0 <= i < j < |ops| && ops[i].Apply? && ops[j].Apply? ==> ops[i].now <= ops[j].now
  }

  lemma {:induction false} LastActionIsRemembered(step: int, ops: seq<Op>)
    ensures
      var h := Run(step, ops);
      && h.damper.lastAction == (if h.actions == [] then None else Some(h.actions[|h.actions| - 1].at))
      && (h.actions != [] ==>
           exists i :: 0 <= i < |ops| && ops[i].Apply? && ops[i].now == h.actions[|h.actions| - 1].at)
  {
    hide Kept;
    if ops != [] {
      var init := ops[..|ops| - 1];
      LastActionIsRemembered(step, init);
      var h := Run(step, init);
      if h.actions != [] {
        var i :| 0 <= i < |init| && init[i].Apply? && init[i].now == h.actions[|h.actions| - 1].at;
        assert ops[i] == init[i];
      }
    }
  }

  /** In every run, every scale-down comes at least the policy's delay after the key's previous
      action, whatever that action was and however the policy changes in between. */
  lemma {:induction false} CooldownRespected(step: int, ops: seq<Op>)
    requires Timed(ops)
    ensures
      var actions := Run(step, ops).actions;
      forall k :: 0 < k < |actions| && actions[k].down ==>
        var seconds := if actions[k].delaySeconds < 0 then 15 * 60 else actions[k].delaySeconds;
        actions[k].at - actions[k - 1].at >= seconds * 1_000_000_000
  {
    hide Kept;
    if ops != [] {
      var init, op := ops[..|ops| - 1], ops[|ops| - 1];
      CooldownRespected(step, init);
      LastActionIsRemembered(step, init);
      var h := Run(step, init);
      if h.actions != [] && op.Apply? {
        var i :| 0 <= i < |init| && init[i].Apply? && init[i].now == h.actions[|h.actions| - 1].at;
        assert ops[i] == init[i] && ops[i].now <= op.now;
      }
    }
  }

  /** And no later: after any run, if less is wanted and nothing is pending, the next application
      scales down exactly if that much time has passed since the last action of the run. */
  lemma ScalesDownIff(step: int, ops: seq<Op>, desired: int, current: int, p: Policy, now: int)
    requires 0 < step && desired < current && !Run(step, ops).damper.pending
    ensures
      var h := Run(step, ops);
      var last := if h.actions == [] then None else Some(h.actions[|h.actions| - 1].at);
      Applied(step, h.damper, desired, current, p, now).1 < current
      <==> DelayPassed(p.scaleDownDelaySeconds, last, now)
  {
    hide Run, Applied;
    LastActionIsRemembered(step, ops);
    DampedMove(step, Run(step, ops).damper, desired, current, p, now);
  }
}
