/** The fleet manager: tracked workers, reconcile, scale-up and drain. */
module FleetManager {
  import opened Prelude
  import opened FleetTarget
  import opened RoutingSnapshot
  import H = FleetDamping

  datatype ModelId = ModelId(base: string, adapter: string)

  function Key(id: ModelId): string {
    Qualified(id.base, id.adapter)
  }

  /** The name of a model starts with its base, and for bases without '#' tells models apart. */
  lemma KeysDiffer(x: ModelId, y: ModelId)
    requires '#' !in x.base && '#' !in y.base
    ensures x.base <= Key(x) && (Key(x) == x.base <==> x.adapter == "")
    ensures Key(x) == Key(y) ==> x == y
  {
    if Key(x) == Key(y) {
      var n := |x.base|;
      if x.adapter != "" { assert Key(x)[n] == '#' && Key(x)[..n] == x.base && Key(x)[n + 1..] == x.adapter; }
      if y.adapter != "" {
        assert Key(y)[|y.base|] == '#' && Key(y)[..|y.base|] == y.base && Key(y)[|y.base| + 1..] == y.adapter;
      }
      assert forall i :: 0 <= i < |x.base| ==> Key(x)[i] == x.base[i];
      assert forall i :: 0 <= i < |y.base| ==> Key(y)[i] == y.base[i];
    }
  }

  datatype WorkerState = Provisioning | Ready | Draining | Retired

  datatype Tracked = Tracked(model: ModelId, state: WorkerState, inFlight: int)

  type Workers = map<string, Tracked>

  datatype Fleet = Fleet(workers: Workers, dampers: H.Dampers, desired: map<string, int>)

  // ----- Counting

  predicate Serves(v: WorkerView, id: ModelId) {
    v.baseModel == id.base && v.adapter == id.adapter
  }

  function InState(ws: Workers, key: string, s: WorkerState): set<string> {
    set w | w in ws && Key(ws[w].model) == key && ws[w].state == s
  }

  function SeenReady(views: seq<WorkerView>, id: ModelId): set<string> {
    set v | v in views && Serves(v, id) && v.healthy && v.ready :: v.id
  }

  /** A worker counts once, whether the snapshot or the manager knows it, or both. */
  function ReadyIds(ws: Workers, views: seq<WorkerView>, id: ModelId): set<string> {
    SeenReady(views, id) + InState(ws, Key(id), Ready)
  }

  /** Per worker the load of its last entry for the model. */
  function Loads(views: seq<WorkerView>, id: ModelId): map<string, int> {
    if views == [] then map[]
    else
      var before, v := Loads(views[..|views| - 1], id), views[|views| - 1];
      if Serves(v, id) then before[v.id := v.queueDepth + v.inFlight] else before
  }

  ghost function Total(m: map<string, int>): int {
    if m == map[] then 0
    else
      var k :| k in m;
      m[k] + Total(m - {k})
  }

  lemma {:induction false} TotalWithout(m: map<string, int>, k: string)
    requires k in m
    ensures Total(m) == m[k] + Total(m - {k})
    decreases |m|
  {
    var j :| j in m && Total(m) == m[j] + Total(m - {j});
    if j != k {
      TotalWithout(m - {j}, k);
      TotalWithout(m - {k}, j);
      assert m - {j} - {k} == m - {k} - {j};
    }
  }

  ghost function Active(views: seq<WorkerView>, id: ModelId): int {
    Total(Loads(views, id))
  }

  // ----- One reconcile

  /** What the outside decides during one reconcile: the clock, whether and under which name a
      worker is provisioned, whether readiness is awaited, which of the idlest workers the map
      iteration finds first, and whether the drain is interrupted. */
  datatype Choice = Choice(now: int, provisioned: Option<string>, awaits: bool, pick: string, cancelled: bool)

  function Placeholder(id: ModelId): string {
    "provisioning-" + Key(id)
  }

  function ClearPending(f: Fleet, id: ModelId): Fleet {
    f.(dampers := H.Cleared(f.dampers, Key(id)))
  }

  function ScaledUp(f: Fleet, id: ModelId, c: Choice): Fleet {
    var ws := f.workers - {Placeholder(id)};
    match c.provisioned
    case None => f.(workers := ws)
    case Some(w) =>
      ClearPending(f.(workers := ws[w := Tracked(id, if c.awaits then Provisioning else Ready, 0)]), id)
  }

  ghost predicate IsIdlest(ws: Workers, id: ModelId, w: string) {
    && w in InState(ws, Key(id), Ready)
    && forall v :: v in InState(ws, Key(id), Ready) ==> ws[w].inFlight <= ws[v].inFlight
  }

  function Drained(f: Fleet, id: ModelId, c: Choice): Fleet {
    if InState(f.workers, Key(id), Ready) == {} then ClearPending(f, id)
    else if c.pick !in f.workers then f
    else
      var w := f.workers[c.pick];
      if c.cancelled then f.(workers := f.workers[c.pick := w.(state := Draining)])
      else ClearPending(f.(workers := f.workers[c.pick := w.(state := Retired)]), id)
  }

  /** The wanted count after damping. */
  ghost function Wanted(f: Fleet, p: H.Policy, views: seq<WorkerView>, id: ModelId, now: int): (H.Damper, int) {
    var ready := |ReadyIds(f.workers, views, id)|;
    H.Applied(1, H.Get(f.dampers, Key(id)), Desired(p, Active(views, id), ready), ready, p, now)
  }

  datatype Verdict = Grow | Shrink | Keep

  ghost function Decide(f: Fleet, p: H.Policy, views: seq<WorkerView>, id: ModelId, now: int): Verdict {
    var ready := |ReadyIds(f.workers, views, id)|;
    var wanted := Wanted(f, p, views, id, now).1;
    if wanted > ready + |InState(f.workers, Key(id), Provisioning)| then Grow
    else if wanted < ready then Shrink
    else Keep
  }

  ghost function Noted(f: Fleet, p: H.Policy, views: seq<WorkerView>, id: ModelId, now: int): Fleet {
    var (d, wanted) := Wanted(f, p, views, id, now);
    f.(dampers := f.dampers[Key(id) := d], desired := f.desired[Key(id) := wanted])
  }

  ghost function Reconciled(f: Fleet, p: H.Policy, views: seq<WorkerView>, id: ModelId, c: Choice): Fleet {
    var g := Noted(f, p, views, id, c.now);
    match Decide(f, p, views, id, c.now)
    case Grow => ScaledUp(g, id, c)
    case Shrink => Drained(g, id, c)
    case Keep => ClearPending(g, id)
  }

  /** The map iteration of a drain really finds one of the idlest ready workers. */
  ghost predicate PicksIdlest(f: Fleet, id: ModelId, c: Choice) {
    InState(f.workers, Key(id), Ready) != {} ==> IsIdlest(f.workers, id, c.pick)
  }

  // ----- The imperative form

  method CollectSeen(views: seq<WorkerView>, id: ModelId) returns (seen: set<string>)
    ensures seen == SeenReady(views, id)
  {
    seen := {};
    for i := 0 to |views|
      invariant seen == SeenReady(views[..i], id)
    {
      assert views[..i + 1] == views[..i] + [views[i]];
      if Serves(views[i], id) && views[i].healthy && views[i].ready { seen := seen + {views[i].id}; }
    }
    assert views[..|views|] == views;
  }

  method CountReady(ws: Workers, views: seq<WorkerView>, id: ModelId) returns (n: nat)
    ensures n == |ReadyIds(ws, views, id)|
  {
    hide SeenReady, Key;
    var seen := CollectSeen(views, id);
    var todo := ws.Keys;
    while todo != {}
      invariant todo <= ws.Keys
      invariant seen == SeenReady(views, id) + (InState(ws, Key(id), Ready) - todo)
      decreases todo
    {
      var w :| w in todo;
      todo := todo - {w};
      if Key(ws[w].model) == Key(id) && ws[w].state == Ready { seen := seen + {w}; }
    }
    assert seen == ReadyIds(ws, views, id);
    n := |seen|;
  }

  method CountProvisioning(ws: Workers, id: ModelId) returns (n: nat)
    ensures n == |InState(ws, Key(id), Provisioning)|
  {
    hide Key;
    n := 0;
    var todo := ws.Keys;
    ghost var found: set<string> := {};
    while todo != {}
      invariant todo <= ws.Keys && n == |found|
      invariant found == InState(ws, Key(id), Provisioning) - todo
      decreases todo
    {
      var w :| w in todo;
      todo := todo - {w};
      if Key(ws[w].model) == Key(id) && ws[w].state == Provisioning {
        n := n + 1;
        found := found + {w};
      }
    }
    assert found == InState(ws, Key(id), Provisioning);
  }

  method SumActive(views: seq<WorkerView>, id: ModelId) returns (total: int)
    ensures total == Active(views, id)
  {
    var seen: map<string, int> := map[];
    for i := 0 to |views|
      invariant seen == Loads(views[..i], id)
    {
      assert views[..i + 1][..i] == views[..i];
      if Serves(views[i], id) { seen := seen[views[i].id := views[i].queueDepth + views[i].inFlight]; }
    }
    assert views[..|views|] == views;
    total := 0;
    var rest := seen;
    while rest != map[]
      invariant total + Total(rest) == Total(seen)
      decreases |rest|
    {
      var k :| k in rest;
      TotalWithout(rest, k);
      total := total + rest[k];
      rest := rest - {k};
    }
  }

  method Demand(policy: H.Policy, active: int, ready: nat) returns (d: int)
    ensures d == Desired(policy, active, ready)
  {
    var target := policy.targetConcurrency;
    if target <= 0 { target := 16; }
    var raw := CeilDiv(active, target);
    TargetTimes(policy, Max(ready, 1));
    if active > 0 && active as real / (target * Max(ready, 1)) as real < policy.scaleUpUtilization && raw <= ready {
      raw := ready;
    }
    d := Clamp(raw, policy.minReplicas, policy.maxReplicas);
  }

  method FindIdlest(ws: Workers, id: ModelId) returns (pick: Option<string>)
    ensures pick.None? <==> InState(ws, Key(id), Ready) == {}
    ensures pick.Some? ==> IsIdlest(ws, id, pick.value)
  {
    pick := None;
    var todo := ws.Keys;
    while todo != {}
      invariant todo <= ws.Keys
      invariant pick.None? ==> InState(ws, Key(id), Ready) <= todo
      invariant pick.Some? ==>
        && pick.value in InState(ws, Key(id), Ready)
        && forall v :: v in InState(ws, Key(id), Ready) - todo ==> ws[pick.value].inFlight <= ws[v].inFlight
      decreases todo
    {
      var w :| w in todo;
      todo := todo - {w};
      if Key(ws[w].model) == Key(id) && ws[w].state == Ready {
        if pick == None || ws[w].inFlight < ws[pick.value].inFlight { pick := Some(w); }
      }
    }
    assert pick.Some? ==> pick.value in InState(ws, Key(id), Ready) - todo;
  }

  class Manager {
    const hyst: H.Hysteresis
    var workers: Workers
    var desired: map<string, int>

    constructor ()
      ensures workers == map[] && desired == map[] && fresh(hyst)
      ensures hyst.dampers == map[] && hyst.step == 1
    {
      hyst := new H.Hysteresis();
      workers, desired := map[], map[];
    }

    ghost function Value(): Fleet
      reads this, hyst
    {
      Fleet(workers, hyst.dampers, desired)
    }

    method ScaleUp(id: ModelId, c: Choice)
      modifies this, hyst
      ensures Value() == ScaledUp(old(Value()), id, c)
    {
      var placeholder := "provisioning-" + Key(id);
      workers := workers[placeholder := Tracked(id, Provisioning, 0)];
      workers := workers - {placeholder};
      assert workers == old(workers) - {placeholder};
      if c.provisioned.None? { return; }
      var wid := c.provisioned.value;
      workers := workers[wid := Tracked(id, Provisioning, 0)];
      hyst.ClearPending(Key(id));
      if !c.awaits { workers := workers[wid := workers[wid].(state := Ready)]; }
      assert workers == (old(workers) - {placeholder})[wid := Tracked(id, if c.awaits then Provisioning else Ready, 0)];
    }

    /** `choice` is `c` with the worker the search settled on. */
    method DrainOne(id: ModelId, c: Choice) returns (choice: Choice)
      modifies this, hyst
      ensures choice == c.(pick := choice.pick) && PicksIdlest(old(Value()), id, choice)
      ensures Value() == Drained(old(Value()), id, choice)
    {
      choice := c;
      var pick := FindIdlest(workers, id);
      if pick.None? {
        hyst.ClearPending(Key(id));
        return;
      }
      var wid := pick.value;
      choice := c.(pick := wid);
      workers := workers[wid := workers[wid].(state := Draining)];
      if c.cancelled { return; }
      workers := workers[wid := workers[wid].(state := Retired)];
      hyst.ClearPending(Key(id));
      assert workers == old(workers)[wid := old(workers)[wid].(state := Retired)];
    }

    /** The pick of a drain is made here; the rest of `c` comes from outside. */
    method Reconcile(id: ModelId, policy: H.Policy, views: seq<WorkerView>, c: Choice) returns (choice: Choice)
      requires hyst.step == 1
      modifies this, hyst
      ensures choice == c.(pick := choice.pick)
      ensures Decide(old(Value()), policy, views, id, c.now) == Shrink ==> PicksIdlest(old(Value()), id, choice)
      ensures Value() == Reconciled(old(Value()), policy, views, id, choice)
    {
      hide ScaledUp, Drained, ReadyIds, Desired, H.Applied, Active, InState, H.Cleared, PicksIdlest;
      choice := c;
      var ready := CountReady(workers, views, id);
      var active := SumActive(views, id);
      var demand := Demand(policy, active, ready);
      var wanted := hyst.Apply(Key(id), demand, ready, policy, c.now);
      desired := desired[Key(id) := wanted];
      var pending := CountProvisioning(workers, id);
      assert Value() == Noted(old(Value()), policy, views, id, c.now);
      if wanted > ready + pending {
        ScaleUp(id, c);
      } else if wanted < ready {
        SameWorkersSamePick(old(Value()), Value(), id);
        choice := DrainOne(id, c);
      } else {
        hyst.ClearPending(Key(id));
      }
    }
  }

  // ----- What is counted

  /** A worker counts as ready exactly if some entry of the snapshot for this very model says it is
      healthy and ready, or the manager tracks it as ready under the model's name. */
  lemma ReadyMeans(ws: Workers, views: seq<WorkerView>, id: ModelId, w: string)
    ensures w in ReadyIds(ws, views, id)
            <==> || (exists k :: 0 <= k < |views| && views[k].id == w && views[k].healthy && views[k].ready
                                 && views[k].baseModel == id.base && views[k].adapter == id.adapter)
                 || (w in ws && ws[w].state == Ready && Key(ws[w].model) == Key(id))
  {
    if w in SeenReady(views, id) {
      var v :| v in views && Serves(v, id) && v.healthy && v.ready && v.id == w;
      var k :| 0 <= k < |views| && views[k] == v;
    }
  }

  /** Entry `k` is the last of worker `w` for the model. */
  ghost predicate LastFor(views: seq<WorkerView>, id: ModelId, w: string, k: nat) {
    && k < |views| && views[k].id == w && views[k].baseModel == id.base && views[k].adapter == id.adapter
    && forall j :: k < j < |views| && views[j].id == w ==>
         views[j].baseModel != id.base || views[j].adapter != id.adapter
  }

  /** A worker's load is what its last entry for this very model queues and has in flight; a worker
      without one has none. */
  lemma {:induction false} LoadsMean(views: seq<WorkerView>, id: ModelId, w: string)
    ensures w !in Loads(views, id) ==>
              forall k :: 0 <= k < |views| && views[k].id == w ==>
                views[k].baseModel != id.base || views[k].adapter != id.adapter
    ensures w in Loads(views, id) ==>
              exists k: nat ::
                LastFor(views, id, w, k) && Loads(views, id)[w] == views[k].queueDepth + views[k].inFlight
  {
    if views != [] {
      var n := |views| - 1;
      var init, v := views[..n], views[n];
      LoadsMean(init, id, w);
      if Serves(v, id) && v.id == w {
        assert LastFor(views, id, w, n);
      } else if w in Loads(init, id) {
        var k: nat :| LastFor(init, id, w, k) && Loads(init, id)[w] == init[k].queueDepth + init[k].inFlight;
        assert LastFor(views, id, w, k);
      }
    }
  }

  lemma SameWorkersSamePick(f: Fleet, g: Fleet, id: ModelId)
    requires f.workers == g.workers
    ensures forall c :: PicksIdlest(f, id, c) <==> PicksIdlest(g, id, c)
  {
  }
}
