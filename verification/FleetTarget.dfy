/** The arithmetic of the autoscaler: from load and policy to a wanted replica count. */
module FleetTarget {
  import opened Prelude
  import opened FleetDamping

  function CeilDiv(a: int, b: int): int {
    if b <= 0 || a <= 0 then 0 else (a + b - 1) / b
  }

  function Clamp(v: int, lo: int, hi: int): int {
    if v < lo then lo else if hi > 0 && v > hi then hi else v
  }

  function Max(a: int, b: int): int {
    if a > b then a else b
  }

  function Target(p: Policy): (t: int)
    ensures 0 < t
  {
    if p.targetConcurrency <= 0 then 16 else p.targetConcurrency
  }

  lemma TargetTimes(p: Policy, n: int)
    requires 0 < n
    ensures 0 < Target(p) * n && Target(p) <= Target(p) * n
  {
    ScaleMonotone(Target(p), 1, n);
  }

  /** There is load, but less than the configured share of what `ready` replicas can take. */
  predicate Underused(p: Policy, active: int, ready: nat) {
    TargetTimes(p, Max(ready, 1));
    active > 0 && active as real / (Target(p) * Max(ready, 1)) as real < p.scaleUpUtilization
  }

  /** The replicas the load alone asks for. */
  function Needed(p: Policy, active: int): nat {
    CeilDivNonNegative(active, Target(p));
    CeilDiv(active, Target(p))
  }

  function Raw(p: Policy, active: int, ready: nat): nat {
    if Underused(p, active, ready) && Needed(p, active) <= ready then ready else Needed(p, active)
  }

  function Desired(p: Policy, active: int, ready: nat): int {
    Clamp(Raw(p, active, ready), p.minReplicas, p.maxReplicas)
  }

  /** The bounds of a policy make sense: no upper bound, or one that is not below the lower one. */
  ghost predicate Sane(p: Policy) {
    p.maxReplicas <= 0 || p.minReplicas <= p.maxReplicas
  }

  lemma CeilDivNonNegative(a: int, b: int)
    ensures 0 <= CeilDiv(a, b)
  {
    if 0 < a && 0 < b { FloorMonotone(0, a + b - 1, b); }
  }

  /** The ceiling is the least number of full targets that covers the load. */
  lemma CeilDivCovers(a: int, b: int, n: int)
    requires 0 < b && 0 <= n
    ensures CeilDiv(a, b) <= n <==> a <= n * b
  {
    if 0 < a {
      var q := (a + b - 1) / b;
      assert a + b - 1 == q * b + (a + b - 1) % b;
      LessScaled(n, q, b);
      if q <= n { ScaleMonotone(b, q, n); }
    } else {
      ScaleMonotone(n, 0, b);
    }
  }

  lemma QuotientShrinks(x: real, a: real, b: real)
    requires 0.0 < x && 0.0 < a <= b
    ensures x / b <= x / a
  {
    assert x / a * a == x && x / b * b == x;
    RealScale(0.0, x / a, a);
    RealScale(a, b, x / a);
    RealScale(x / b, x / a, b);
  }

  /** More replicas are never better used. */
  lemma UnderusedMonotone(p: Policy, active: int, r: nat, s: nat)
    requires r <= s && Underused(p, active, r)
    ensures Underused(p, active, s)
  {
    var t := Target(p);
    TargetTimes(p, Max(r, 1));
    ScaleMonotone(t, Max(r, 1), Max(s, 1));
    QuotientShrinks(active as real, (t * Max(r, 1)) as real, (t * Max(s, 1)) as real);
  }

  lemma DesiredNonNegative(p: Policy, active: int, r: nat)
    ensures 0 <= Desired(p, active, r)
  {
  }

  lemma DesiredCapped(p: Policy, active: int, r: nat)
    requires 0 < p.maxReplicas
    ensures Desired(p, active, r) <= Max(p.minReplicas, p.maxReplicas)
  {
    hide Raw;
  }

  /** `n` is the least count of replicas that carries the load at `t` each. */
  ghost predicate Carries(n: nat, active: int, t: int) {
    active <= n * t && (n > 0 ==> active > (n - 1) * t)
  }

  /** `d` is `v`, except that it is not below `lo` and, from there on, not above a positive `hi`. */
  ghost predicate Bounded(d: int, v: int, lo: int, hi: int) {
    && (v < lo ==> d == lo)
    && (v >= lo && 0 < hi < v ==> d == hi)
    && (v >= lo && (hi <= 0 || v <= hi) ==> d == v)
  }

  lemma NeededMeans(p: Policy, active: int, n: nat)
    requires Carries(n, active, Target(p))
    ensures Needed(p, active) == n
  {
    CeilDivCovers(active, Target(p), n);
    if n > 0 { CeilDivCovers(active, Target(p), n - 1); }
  }

  lemma UnderusedMeans(p: Policy, active: int, ready: nat)
    ensures Underused(p, active, ready)
            <==> active > 0 && (active as real) < p.scaleUpUtilization * (Target(p) * Max(ready, 1)) as real
  {
    TargetTimes(p, Max(ready, 1));
    QuotientBound(active as real, (Target(p) * Max(ready, 1)) as real, p.scaleUpUtilization);
  }

  /** The demand in numbers: the least count that carries the load at the target, 16 each by default.
      It gives way to the ready count if that is no smaller and the load is below the configured
      share of what the ready replicas, or one, can take; then the bounds apply. */
  lemma DesiredMeans(p: Policy, active: int, ready: nat, n: nat)
    requires Carries(n, active, if p.targetConcurrency <= 0 then 16 else p.targetConcurrency)
    ensures
      var t := if p.targetConcurrency <= 0 then 16 else p.targetConcurrency;
      var capacity := t * if ready == 0 then 1 else ready;
      var spare := n <= ready && active > 0 && (active as real) < p.scaleUpUtilization * capacity as real;
      Bounded(Desired(p, active, ready), if spare then ready else n, p.minReplicas, p.maxReplicas)
  {
    hide Underused, Needed;
    NeededMeans(p, active, n);
    UnderusedMeans(p, active, ready);
  }

  // ----- Constant load: one step at a time towards a fixed point

  /** One reconcile under constant load, with immediate readiness and no cooldown in the way. */
  function NextReady(p: Policy, active: int, r: nat): nat {
    var d := Desired(p, active, r);
    if d > r then r + 1 else if d < r && r > 0 then r - 1 else r
  }

  function Iterated(p: Policy, active: int, r: nat, n: nat): nat {
    if n == 0 then r else NextReady(p, active, Iterated(p, active, r, n - 1))
  }

  /** Where the ready count is heading: the needed replicas within the policy's bounds. */
  function Goal(p: Policy, active: int): int {
    Clamp(Needed(p, active), p.minReplicas, p.maxReplicas)
  }

  function Distance(p: Policy, active: int, r: nat): nat {
    if r < Goal(p, active) then Goal(p, active) - r else r - Goal(p, active)
  }

  /** A count that wants to grow still does not want to shrink after growing, and the other
      way round, although the utilisation rule makes the demand depend on the count. */
  lemma NoReversal(p: Policy, active: int, r: nat)
    requires Sane(p)
    ensures Desired(p, active, r) >= r ==> Desired(p, active, NextReady(p, active, r)) >= NextReady(p, active, r)
    ensures Desired(p, active, r) <= r ==> Desired(p, active, NextReady(p, active, r)) <= NextReady(p, active, r)
  {
    hide Underused, Needed;
    if 0 < r && Underused(p, active, r - 1) { UnderusedMonotone(p, active, r - 1, r); }
  }

  lemma StepApproaches(p: Policy, active: int, r: nat)
    requires Sane(p)
    ensures NextReady(p, active, r) != r ==> Distance(p, active, NextReady(p, active, r)) == Distance(p, active, r) - 1
    ensures NextReady(p, active, r) == r ==> Desired(p, active, r) == r
  {
    hide Underused, Needed;
  }

  lemma {:induction false} NeverTurns(p: Policy, active: int, r: nat, n: nat)
    requires Sane(p)
    ensures Desired(p, active, r) >= r ==>
              Desired(p, active, Iterated(p, active, r, n)) >= Iterated(p, active, r, n)
              && (n > 0 ==> Iterated(p, active, r, n) >= Iterated(p, active, r, n - 1))
    ensures Desired(p, active, r) <= r ==>
              Desired(p, active, Iterated(p, active, r, n)) <= Iterated(p, active, r, n)
              && (n > 0 ==> Iterated(p, active, r, n) <= Iterated(p, active, r, n - 1))
  {
    hide Desired;
    if n > 0 {
      NeverTurns(p, active, r, n - 1);
      NoReversal(p, active, Iterated(p, active, r, n - 1));
    }
  }

  lemma {:induction false} Settles(p: Policy, active: int, r: nat, n: nat)
    requires Sane(p)
    ensures var s := Iterated(p, active, r, n);
      || (Distance(p, active, s) == Distance(p, active, r) - n)
      || (NextReady(p, active, s) == s && Desired(p, active, s) == s)
  {
    hide Desired, Distance;
    if n > 0 {
      Settles(p, active, r, n - 1);
      var s := Iterated(p, active, r, n - 1);
      StepApproaches(p, active, s);
      if NextReady(p, active, s) == s { StepApproaches(p, active, NextReady(p, active, s)); }
    }
  }

  /** Repeated reconciles move the count by at most one each time, in one direction only,
      and stand still for good after as many rounds as the count was away from its goal. */
  lemma Converges(p: Policy, active: int, r: nat, n: nat)
    requires Sane(p)
    ensures var s, s' := Iterated(p, active, r, n), Iterated(p, active, r, n + 1);
      && -1 <= s' - s <= 1
      && (Desired(p, active, r) >= r ==> s <= s')
      && (Desired(p, active, r) <= r ==> s' <= s)
      && (n >= Distance(p, active, r) ==> s' == s && Desired(p, active, s) == s)
  {
    hide Desired, Distance;
    NeverTurns(p, active, r, n + 1);
    Settles(p, active, r, n);
    StepApproaches(p, active, Iterated(p, active, r, n));
  }

  /** One round later the count wants to go back where it came from. */
  ghost predicate Reverses(p: Policy, active: int, r: nat) {
    var next := NextReady(p, active, r);
    || (Desired(p, active, r) < r && Desired(p, active, next) > next)
    || (Desired(p, active, r) > r && Desired(p, active, next) < next)
  }

  /** The count goes back and forth exactly for a policy whose lower bound is above its upper
      bound and a load that leaves that many replicas underused and needs fewer. */
  lemma ReversalIff(p: Policy, active: int)
    ensures (exists r: nat :: Reverses(p, active, r))
            <==> 0 < p.maxReplicas < p.minReplicas && Needed(p, active) < p.minReplicas
                 && Underused(p, active, p.minReplicas)
  {
    hide Underused, Needed;
    if 0 < p.maxReplicas < p.minReplicas {
      if Needed(p, active) < p.minReplicas && Underused(p, active, p.minReplicas) {
        assert Reverses(p, active, p.minReplicas);
      }
    } else {
      forall r: nat ensures !Reverses(p, active, r) { NoReversal(p, active, r); }
    }
  }

  // ----- Desired replicas and the load

  /** The utilisation rule makes the demand jump: twice the load can want fewer replicas. */
  lemma DemandNotMonotone()
    ensures
      var p := Policy(0, 100, 16, 0.7, 0, 0);
      Desired(p, 1, 10) == 10 && Desired(p, 112, 10) == 7
  {
    var p := Policy(0, 100, 16, 0.7, 0, 0);
    assert Target(p) * Max(10, 1) == 160;
    assert 1.0 / 160.0 < 0.7;
    assert !(112.0 / 160.0 < 0.7);
    assert CeilDiv(1, 16) == 1 && CeilDiv(112, 16) == 7;
  }

  lemma NeededMonotone(p: Policy, a: int, b: int)
    requires a <= b
    ensures Needed(p, a) <= Needed(p, b)
  {
    CeilDivCovers(b, Target(p), Needed(p, b));
    CeilDivCovers(a, Target(p), Needed(p, b));
  }

  /** What reconcile applies: at a fixed ready count more load wants at least as many replicas
      exactly under this condition. With bounds that make sense the count falls just when the
      smaller load is below the utilisation threshold, the larger one is not, and its goal is
      below the ready count even after both are brought within the bounds. With the lower bound
      above the upper one it falls just when the load crosses the lower bound. */
  lemma DemandMonotoneIff(p: Policy, a: int, b: int, r: nat)
    requires a <= b
    ensures Desired(p, a, r) <= Desired(p, b, r)
            <==> if Sane(p)
                 then !(Underused(p, a, r) && !Underused(p, b, r)
                        && Goal(p, b) < Clamp(r, p.minReplicas, p.maxReplicas))
                 else !(Raw(p, a, r) < p.minReplicas <= Raw(p, b, r))
  {
    hide Underused, Needed;
    NeededMonotone(p, a, b);
  }

  /** A wanted count below the ready count leaves enough capacity for the load, unless the
      upper bound of the policy capped the demand. */
  lemma ShrinkIsSafe(p: Policy, active: int, r: nat)
    requires Desired(p, active, r) < r
    ensures active <= (r - 1) * Target(p) || 0 < p.maxReplicas < Raw(p, active, r)
  {
    hide Underused;
    CeilDivCovers(active, Target(p), r - 1);
  }
}
