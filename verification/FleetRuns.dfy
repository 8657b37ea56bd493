/** What every run of the fleet manager keeps: the replica cap, safe drains, convergence. */
module FleetRuns {
  import opened Prelude
  import opened FleetTarget
  import opened FleetManager
  import opened RoutingSnapshot
  import H = FleetDamping

  // ----- What each verdict of a reconcile means

  /** A worker is only added while none is being provisioned, and only up to the demand. */
  lemma GrowMeans(f: Fleet, p: H.Policy, views: seq<WorkerView>, id: ModelId, now: int)
    requires Decide(f, p, views, id, now) == Grow
    ensures InState(f.workers, Key(id), Provisioning) == {}
    ensures
      var ready := |ReadyIds(f.workers, views, id)|;
      ready + 1 <= Desired(p, Active(views, id), ready) && Wanted(f, p, views, id, now).1 == ready + 1
  {
    hide Desired, Active, InState, ReadyIds, H.Applied;
    var ready := |ReadyIds(f.workers, views, id)|;
    H.WindowIsIrrelevant(H.Get(f.dampers, Key(id)), Desired(p, Active(views, id), ready), ready, p, now);
  }

  /** A drain starts only when the cooldown is over and no action is pending, and only if the
      remaining workers can carry the load at the target concurrency, or the policy's upper
      bound capped the demand. */
  lemma DrainIsSafe(f: Fleet, p: H.Policy, views: seq<WorkerView>, id: ModelId, now: int)
    requires Decide(f, p, views, id, now) == Shrink
    ensures
      var ready := |ReadyIds(f.workers, views, id)|;
      var active := Active(views, id);
      active <= (ready - 1) * Target(p) || 0 < p.maxReplicas < Raw(p, active, ready)
    ensures
      var d := H.Get(f.dampers, Key(id));
      !d.pending && H.DelayPassed(p.scaleDownDelaySeconds, d.lastAction, now)
    ensures Wanted(f, p, views, id, now).1 == |ReadyIds(f.workers, views, id)| - 1
  {
    hide Desired, Active, InState, ReadyIds, H.Applied, Target, Raw, H.CooledDown;
    var ready := |ReadyIds(f.workers, views, id)|;
    var active := Active(views, id);
    H.WindowIsIrrelevant(H.Get(f.dampers, Key(id)), Desired(p, active, ready), ready, p, now);
    H.DampedMove(1, H.Get(f.dampers, Key(id)), Desired(p, active, ready), ready, p, now);
    ShrinkIsSafe(p, active, ready);
  }

  /** A pending flag, left behind by a provisioning that failed or a drain that was interrupted,
      blocks one reconcile at most: that one decides to keep everything and clears the flag. */
  lemma PendingLastsOneRound(f: Fleet, p: H.Policy, views: seq<WorkerView>, id: ModelId, c: Choice)
    requires H.Get(f.dampers, Key(id)).pending
    ensures Decide(f, p, views, id, c.now) == Keep
    ensures var f' := Reconciled(f, p, views, id, c); f'.workers == f.workers && !H.Get(f'.dampers, Key(id)).pending
  {
    hide Desired, Active, InState, ReadyIds;
  }

  /** A worker that was provisioned is tracked for the model, ready at once or provisioning until its
      readiness is reported; nobody else changes and the pending flag is cleared. A provisioning
      that failed tracks nobody and leaves the flag. Either way the placeholder is gone. */
  lemma GrowthIsTracked(f: Fleet, p: H.Policy, views: seq<WorkerView>, id: ModelId, c: Choice)
    requires Decide(f, p, views, id, c.now) == Grow
    ensures
      var f' := Reconciled(f, p, views, id, c);
      var others, d' := f.workers.Keys - {Placeholder(id)}, H.Get(f'.dampers, Key(id));
      if c.provisioned.None? then
        && f'.workers.Keys == others && d'.pending
        && forall v :: v in others ==> f'.workers[v] == f.workers[v]
      else
        var w := c.provisioned.value;
        && f'.workers.Keys == others + {w} && !d'.pending
        && (forall v :: v in others && v != w ==> f'.workers[v] == f.workers[v])
        && f'.workers[w].model == id && f'.workers[w].inFlight == 0
        && w in InState(f'.workers, Key(id), if c.awaits then Provisioning else Ready)
  {
    hide Desired, Active, ReadyIds, H.Applied, Placeholder;
    var ready := |ReadyIds(f.workers, views, id)|;
    H.DampedMove(1, H.Get(f.dampers, Key(id)), Desired(p, Active(views, id), ready), ready, p, c.now);
  }

  /** A drain takes one worker, as idle as any, out of the ready ones and touches nobody else. If it
      is interrupted that worker stays draining and the flag pending; otherwise it is retired. If
      the snapshot knows ready workers the manager does not track, nothing is drained. */
  lemma DrainTakesOne(f: Fleet, p: H.Policy, views: seq<WorkerView>, id: ModelId, c: Choice)
    requires Decide(f, p, views, id, c.now) == Shrink && PicksIdlest(f, id, c)
    ensures
      var f' := Reconciled(f, p, views, id, c);
      var ready, d' := InState(f.workers, Key(id), Ready), H.Get(f'.dampers, Key(id));
      if ready == {} then f'.workers == f.workers && !d'.pending
      else
        && c.pick in ready && (forall v :: v in ready ==> f.workers[c.pick].inFlight <= f.workers[v].inFlight)
        && InState(f'.workers, Key(id), Ready) == ready - {c.pick} && d'.pending == c.cancelled
        && f'.workers.Keys == f.workers.Keys
        && (forall v :: v in f.workers && v != c.pick ==> f'.workers[v] == f.workers[v])
        && f'.workers[c.pick] == f.workers[c.pick].(state := if c.cancelled then Draining else Retired)
  {
    hide Desired, Active, ReadyIds, H.Applied, Key;
    var ready := |ReadyIds(f.workers, views, id)|;
    H.DampedMove(1, H.Get(f.dampers, Key(id)), Desired(p, Active(views, id), ready), ready, p, c.now);
  }

  /** Without a verdict to grow or shrink no worker changes and no flag is left. */
  lemma KeepChangesNobody(f: Fleet, p: H.Policy, views: seq<WorkerView>, id: ModelId, c: Choice)
    requires Decide(f, p, views, id, c.now) == Keep
    ensures var f' := Reconciled(f, p, views, id, c); f'.workers == f.workers && !H.Get(f'.dampers, Key(id)).pending
  {
    hide Wanted;
  }

  /** The verdict in numbers: grow exactly if more is wanted than ready, nothing is provisioning and
      nothing pending; shrink exactly if less is wanted, nothing is pending and the delay has
      passed since the model's last action. */
  lemma DecideIff(f: Fleet, p: H.Policy, views: seq<WorkerView>, id: ModelId, now: int)
    ensures
      var ready, d := |ReadyIds(f.workers, views, id)|, H.Get(f.dampers, Key(id));
      var wanted := Desired(p, Active(views, id), ready);
      && (Decide(f, p, views, id, now) == Grow
          <==> !d.pending && wanted > ready && InState(f.workers, Key(id), Provisioning) == {})
      && (Decide(f, p, views, id, now) == Shrink
          <==> !d.pending && wanted < ready && H.DelayPassed(p.scaleDownDelaySeconds, d.lastAction, now))
  {
    hide Desired, Active, InState, ReadyIds, H.Applied, H.DelayPassed, H.CooledDown;
    var ready, d := |ReadyIds(f.workers, views, id)|, H.Get(f.dampers, Key(id));
    H.WindowIsIrrelevant(d, Desired(p, Active(views, id), ready), ready, p, now);
    H.DampedMove(1, d, Desired(p, Active(views, id), ready), ready, p, now);
  }

  /** A reconcile for one model notes the count it wants, one above or below the ready ones or the
      same, and the time of a change, and leaves the dampers and counts of all other models alone. */
  lemma ReconcileNotes(f: Fleet, p: H.Policy, views: seq<WorkerView>, id: ModelId, c: Choice, key: string)
    ensures
      var f' := Reconciled(f, p, views, id, c);
      var ready, d := |ReadyIds(f.workers, views, id)|, H.Get(f.dampers, Key(id));
      var wanted := Desired(p, Active(views, id), ready);
      && Key(id) in f'.desired
      && f'.desired[Key(id)]
         == (if d.pending || wanted == ready then ready
             else if wanted > ready then ready + 1
             else if H.DelayPassed(p.scaleDownDelaySeconds, d.lastAction, c.now) then ready - 1
             else ready)
      && H.Get(f'.dampers, Key(id)).lastAction
         == (if f'.desired[Key(id)] != ready then Some(c.now) else d.lastAction)
      && (key != Key(id) ==>
            && H.Get(f'.dampers, key) == H.Get(f.dampers, key)
            && (key in f'.desired <==> key in f.desired) && (key in f.desired ==> f'.desired[key] == f.desired[key]))
  {
    hide Desired, Active, InState, ReadyIds, H.Applied, H.DelayPassed, H.CooledDown, Key, Placeholder;
    var ready, d := |ReadyIds(f.workers, views, id)|, H.Get(f.dampers, Key(id));
    H.WindowIsIrrelevant(d, Desired(p, Active(views, id), ready), ready, p, c.now);
    H.DampedMove(1, d, Desired(p, Active(views, id), ready), ready, p, c.now);
  }

  // ----- The replica cap

  /** Readiness reports and in-flight updates happen between reconciles. */
  datatype Event =
    | Reconcile(id: ModelId, views: seq<WorkerView>, choice: Choice)
    | BecameReady(w: string)
    | FailedToStart(w: string)
    | InFlight(w: string, n: int)

  function Update(f: Fleet, w: string, t: Tracked): Fleet {
    f.(workers := f.workers[w := t])
  }

  ghost function Next(f: Fleet, policies: string -> H.Policy, e: Event): Fleet {
    match e
    case Reconcile(id, views, c) => Reconciled(f, policies(Key(id)), views, id, c)
    case BecameReady(w) =>
      if w in f.workers && f.workers[w].state == Provisioning then Update(f, w, f.workers[w].(state := Ready)) else f
    case FailedToStart(w) =>
      if w in f.workers then Update(f, w, f.workers[w].(state := Retired)) else f
    case InFlight(w, n) =>
      if w in f.workers then Update(f, w, f.workers[w].(inFlight := n)) else f
  }

  ghost function RunFleet(policies: string -> H.Policy, events: seq<Event>): Fleet {
    if events == [] then Fleet(map[], map[], map[])
    else Next(RunFleet(policies, events[..|events| - 1]), policies, events[|events| - 1])
  }

  /** The workers of a model that take up a replica: provisioning or ready. */
  ghost function Live(f: Fleet, key: string): set<string> {
    InState(f.workers, key, Provisioning) + InState(f.workers, key, Ready)
  }

  lemma ScaleUpAddsOne(f: Fleet, id: ModelId, c: Choice, key: string)
    ensures key != Key(id) ==> Live(ScaledUp(f, id, c), key) <= Live(f, key)
    ensures exists w :: Live(ScaledUp(f, id, c), key) <= Live(f, key) + {w}
  {
    var w := if c.provisioned.Some? then c.provisioned.value else "";
    assert Live(ScaledUp(f, id, c), key) <= Live(f, key) + {w};
  }

  lemma DrainAddsNone(f: Fleet, id: ModelId, c: Choice, key: string)
    ensures Live(Drained(f, id, c), key) <= Live(f, key)
  {
  }

  lemma ReconcileKeepsCap(f: Fleet, p: H.Policy, views: seq<WorkerView>, id: ModelId, c: Choice, key: string, cap: nat)
    requires |Live(f, key)| <= cap
    requires key == Key(id) ==> 0 < p.maxReplicas && cap == Max(p.minReplicas, p.maxReplicas)
    ensures |Live(Reconciled(f, p, views, id, c), key)| <= cap
  {
    var g, f' := Noted(f, p, views, id, c.now), Reconciled(f, p, views, id, c);
    assert Live(g, key) == Live(f, key);
    match Decide(f, p, views, id, c.now)
    case Keep => assert Live(f', key) == Live(f, key);
    case Shrink =>
      DrainAddsNone(g, id, c, key);
      SubsetSize(Live(f', key), Live(f, key));
    case Grow =>
      GrowKeepsCap(f, g, p, views, id, c, key, cap);
  }

  lemma GrowKeepsCap(f: Fleet, g: Fleet, p: H.Policy, views: seq<WorkerView>, id: ModelId, c: Choice, key: string,
                     cap: nat)
    requires g == Noted(f, p, views, id, c.now) && Decide(f, p, views, id, c.now) == Grow
    requires |Live(f, key)| <= cap
    requires key == Key(id) ==> 0 < p.maxReplicas && cap == Max(p.minReplicas, p.maxReplicas)
    ensures |Live(ScaledUp(g, id, c), key)| <= cap
  {
    hide Decide, Wanted, ScaledUp, Desired, Live, Noted;
    var live, live' := Live(f, key), Live(ScaledUp(g, id, c), key);
    NotedKeepsLive(f, p, views, id, c.now, key);
    ScaleUpAddsOne(g, id, c, key);
    if key != Key(id) {
      SubsetSize(live', live);
    } else {
      GrowMeans(f, p, views, id, c.now);
      DesiredCapped(p, Active(views, id), |ReadyIds(f.workers, views, id)|);
      LiveWithinReady(f, views, id);
      var w :| live' <= live + {w};
      SubsetSize(live', live + {w});
    }
  }

  lemma NotedKeepsLive(f: Fleet, p: H.Policy, views: seq<WorkerView>, id: ModelId, now: int, key: string)
    ensures Live(Noted(f, p, views, id, now), key) == Live(f, key)
  {
    hide Wanted;
  }

  lemma LiveWithinReady(f: Fleet, views: seq<WorkerView>, id: ModelId)
    requires InState(f.workers, Key(id), Provisioning) == {}
    ensures |Live(f, Key(id))| <= |ReadyIds(f.workers, views, id)|
  {
    hide SeenReady, InState;
    SubsetSize(Live(f, Key(id)), ReadyIds(f.workers, views, id));
  }

  /** In every run of reconciles for any models, with arbitrary snapshots and provisioning
      results, a model never has more provisioning and ready workers than its policy allows:
      the upper bound, unless the lower bound is above it. */
  lemma {:induction false} CapHolds(policies: string -> H.Policy, events: seq<Event>, key: string)
    requires 0 < policies(key).maxReplicas
    ensures |Live(RunFleet(policies, events), key)| <= Max(policies(key).minReplicas, policies(key).maxReplicas)
  {
    hide Reconciled;
    if events != [] {
      var init, e := events[..|events| - 1], events[|events| - 1];
      CapHolds(policies, init, key);
      var f := RunFleet(policies, init);
      match e
      case Reconcile(id, views, c) =>
        ReconcileKeepsCap(f, policies(Key(id)), views, id, c, key,
                          Max(policies(key).minReplicas, policies(key).maxReplicas));
      case _ =>
        UpdatesAddNone(f, policies, e, key);
        SubsetSize(Live(Next(f, policies, e), key), Live(f, key));
    }
  }

  lemma UpdatesAddNone(f: Fleet, policies: string -> H.Policy, e: Event, key: string)
    requires !e.Reconcile?
    ensures Live(Next(f, policies, e), key) <= Live(f, key)
  {
  }

  // ----- Convergence of the manager under constant load

  /** Circumstances under which nothing delays the autoscaler: the load is `active`, every ready
      worker is tracked, provisioning succeeds at once under an unused name, the cooldown is
      over and drains are not interrupted. */
  ghost predicate Undisturbed(f: Fleet, p: H.Policy, views: seq<WorkerView>, id: ModelId, c: Choice, active: int) {
    && Active(views, id) == active
    && SeenReady(views, id) <= InState(f.workers, Key(id), Ready)
    && c.provisioned.Some? && c.provisioned.value !in f.workers && !c.awaits && !c.cancelled
    && Placeholder(id) !in f.workers
    && H.DelayPassed(p.scaleDownDelaySeconds, H.Get(f.dampers, Key(id)).lastAction, c.now)
    && PicksIdlest(f, id, c)
  }

  /** Nothing under way for the model. */
  ghost predicate Quiet(f: Fleet, id: ModelId) {
    !H.Get(f.dampers, Key(id)).pending && InState(f.workers, Key(id), Provisioning) == {}
  }

  ghost function ReadyTracked(f: Fleet, id: ModelId): nat {
    |InState(f.workers, Key(id), Ready)|
  }

  lemma ClearedIsQuiet(f: Fleet, id: ModelId)
    requires InState(f.workers, Key(id), Provisioning) == {}
    ensures Quiet(ClearPending(f, id), id) && ClearPending(f, id).workers == f.workers
  {
  }

  lemma AddReady(ws: Workers, w: string, id: ModelId)
    requires w !in ws
    ensures InState(ws[w := Tracked(id, Ready, 0)], Key(id), Ready) == InState(ws, Key(id), Ready) + {w}
    ensures |InState(ws, Key(id), Ready) + {w}| == |InState(ws, Key(id), Ready)| + 1
    ensures InState(ws[w := Tracked(id, Ready, 0)], Key(id), Provisioning) == InState(ws, Key(id), Provisioning)
  {
    hide Key;
  }

  lemma GrowByOne(g: Fleet, id: ModelId, c: Choice)
    requires c.provisioned.Some? && c.provisioned.value !in g.workers && !c.awaits && Placeholder(id) !in g.workers
    requires InState(g.workers, Key(id), Provisioning) == {}
    ensures Quiet(ScaledUp(g, id, c), id) && ReadyTracked(ScaledUp(g, id, c), id) == ReadyTracked(g, id) + 1
  {
    hide Key, InState, Placeholder;
    var w := c.provisioned.value;
    var ws := g.workers[w := Tracked(id, Ready, 0)];
    assert g.workers - {Placeholder(id)} == g.workers;
    AddReady(g.workers, w, id);
    ClearedIsQuiet(g.(workers := ws), id);
  }

  lemma ShrinkByOne(g: Fleet, id: ModelId, c: Choice)
    requires !c.cancelled && IsIdlest(g.workers, id, c.pick)
    requires InState(g.workers, Key(id), Provisioning) == {}
    ensures Quiet(Drained(g, id, c), id) && ReadyTracked(Drained(g, id, c), id) == ReadyTracked(g, id) - 1
  {
    var ws := g.workers[c.pick := g.workers[c.pick].(state := Retired)];
    assert InState(ws, Key(id), Ready) == InState(g.workers, Key(id), Ready) - {c.pick};
    assert InState(ws, Key(id), Provisioning) == {};
    ClearedIsQuiet(g.(workers := ws), id);
  }

  /** One undisturbed reconcile moves the tracked ready workers exactly as the arithmetic says. */
  lemma ReconcileMoves(f: Fleet, p: H.Policy, views: seq<WorkerView>, id: ModelId, c: Choice, active: int)
    requires Undisturbed(f, p, views, id, c, active) && Quiet(f, id)
    ensures
      var f' := Reconciled(f, p, views, id, c);
      Quiet(f', id) && ReadyTracked(f', id) == NextReady(p, active, ReadyTracked(f, id))
  {
    hide Desired, Active, InState, ScaledUp, Drained, Placeholder, IsIdlest, SeenReady;
    hide H.Applied, H.CooledDown, H.DelayPassed, H.Cleared;
    var r := ReadyTracked(f, id);
    var g := Noted(f, p, views, id, c.now);
    assert ReadyIds(f.workers, views, id) == InState(f.workers, Key(id), Ready);
    H.WindowIsIrrelevant(H.Get(f.dampers, Key(id)), Desired(p, active, r), r, p, c.now);
    H.DampedMove(1, H.Get(f.dampers, Key(id)), Desired(p, active, r), r, p, c.now);
    match Decide(f, p, views, id, c.now)
    case Grow => GrowByOne(g, id, c);
    case Shrink =>
      DesiredNonNegative(p, active, r);
      assert InState(f.workers, Key(id), Ready) != {};
      ShrinkByOne(g, id, c);
    case Keep => ClearedIsQuiet(g, id);
  }

  datatype Round = Round(views: seq<WorkerView>, choice: Choice)

  /** A run of reconciles for one model under constant load. */
  ghost predicate SteadyRun(fs: seq<Fleet>, rounds: seq<Round>, p: H.Policy, id: ModelId, active: int) {
    && |fs| == |rounds| + 1 && Quiet(fs[0], id)
    && forall n :: 0 <= n < |rounds| ==>
         && Undisturbed(fs[n], p, rounds[n].views, id, rounds[n].choice, active)
         && fs[n + 1] == Reconciled(fs[n], p, rounds[n].views, id, rounds[n].choice)
  }

  lemma {:induction false} SteadyCounts(fs: seq<Fleet>, rounds: seq<Round>, p: H.Policy, id: ModelId, active: int,
                                        n: nat)
    requires SteadyRun(fs, rounds, p, id, active) && n <= |rounds|
    ensures Quiet(fs[n], id) && ReadyTracked(fs[n], id) == Iterated(p, active, ReadyTracked(fs[0], id), n)
  {
    hide Quiet, Undisturbed, Reconciled, NextReady;
    if n > 0 {
      SteadyCounts(fs, rounds, p, id, active, n - 1);
      var k := n - 1;
      ReconcileMoves(fs[k], p, rounds[k].views, id, rounds[k].choice, active);
      assert fs[k + 1] == Reconciled(fs[k], p, rounds[k].views, id, rounds[k].choice);
    }
  }

  /** The manager converges without reversal: in every round of a steady run the number of
      ready workers moves by at most one, always in the direction of the first round, and it
      no longer moves after as many rounds as it was away from its goal. */
  lemma ManagerConverges(fs: seq<Fleet>, rounds: seq<Round>, p: H.Policy, id: ModelId, active: int, n: nat)
    requires SteadyRun(fs, rounds, p, id, active) && n < |rounds| && Sane(p)
    ensures
      var r, s, s' := ReadyTracked(fs[0], id), ReadyTracked(fs[n], id), ReadyTracked(fs[n + 1], id);
      && -1 <= s' - s <= 1
      && (Desired(p, active, r) >= r ==> s <= s')
      && (Desired(p, active, r) <= r ==> s' <= s)
      && (n >= Distance(p, active, r) ==> s' == s)
  {
    hide Desired, Distance, SteadyRun, Iterated;
    SteadyCounts(fs, rounds, p, id, active, n);
    SteadyCounts(fs, rounds, p, id, active, n + 1);
    SteadyLengths(fs, rounds, p, id, active);
    Converges(p, active, ReadyTracked(fs[0], id), n);
  }

  lemma SteadyLengths(fs: seq<Fleet>, rounds: seq<Round>, p: H.Policy, id: ModelId, active: int)
    requires SteadyRun(fs, rounds, p, id, active)
    ensures |fs| == |rounds| + 1
  {
  }
}
