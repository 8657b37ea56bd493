/** From the routing snapshot, one entry per worker and model, to one candidate per worker. */
module FromSnapshot {
  import opened Prelude
  import opened Filters
  import opened RoutingSnapshot
  import opened RankingProperties

  /** Local load and latency; both sources are optional. */
  datatype Sources = Sources(load: Option<string -> nat>, latency: Option<string -> real>)

  function LoadOf(src: Sources, id: string): nat {
    if src.load.Some? then src.load.value(id) else 0
  }

  function LatencyOf(src: Sources, id: string): real {
    if src.latency.Some? then src.latency.value(id) else 0.0
  }

  function ModelOf(v: WorkerView): string {
    Qualified(v.baseModel, v.adapter)
  }

  // ----- The reference: group by worker, then aggregate each field on its own

  function Group(views: seq<WorkerView>, id: string): seq<WorkerView> {
    if views == [] then []
    else
      var v := views[|views| - 1];
      Group(views[..|views| - 1], id) + if v.id == id then [v] else []
  }

  function Ids(views: seq<WorkerView>): seq<string> {
    if views == [] then []
    else
      var before, v := Ids(views[..|views| - 1]), views[|views| - 1];
      if v.id in before then before else before + [v.id]
  }

  predicate Any(g: seq<WorkerView>, test: WorkerView -> bool) {
    g != [] && (test(g[|g| - 1]) || Any(g[..|g| - 1], test))
  }

  /** The largest value of a non-negative field. */
  function Largest(g: seq<WorkerView>, field: WorkerView -> nat): nat {
    if g == [] then 0
    else
      var m := Largest(g[..|g| - 1], field);
      if field(g[|g| - 1]) > m then field(g[|g| - 1]) else m
  }

  function LargestReal(g: seq<WorkerView>, field: WorkerView -> real): real
    requires g != []
  {
    var x := field(g[|g| - 1]);
    if |g| == 1 then x
    else
      var m := LargestReal(g[..|g| - 1], field);
      if x > m then x else m
  }

  function LastText(g: seq<WorkerView>, field: WorkerView -> string): string {
    if g == [] then ""
    else if field(g[|g| - 1]) != "" then field(g[|g| - 1])
    else LastText(g[..|g| - 1], field)
  }

  function LastPrice(g: seq<WorkerView>): real
    requires g != []
  {
    var x := g[|g| - 1].costPerHour;
    if |g| == 1 || x > 0.0 then x else LastPrice(g[..|g| - 1])
  }

  function LastCapabilities(g: seq<WorkerView>): map<string, string> {
    if g == [] then map[]
    else if g[|g| - 1].capabilities != map[] then g[|g| - 1].capabilities
    else LastCapabilities(g[..|g| - 1])
  }

  function ModelIds(g: seq<WorkerView>): seq<string> {
    if g == [] then []
    else
      var before, v := ModelIds(g[..|g| - 1]), g[|g| - 1];
      if v.baseModel == "" || ModelOf(v) in before then before else before + [ModelOf(v)]
  }

  function Depth(v: WorkerView): nat { v.queueDepth + v.inFlight }
  function Context(v: WorkerView): nat { v.maxContext }
  function Vram(v: WorkerView): real { v.vramGB }
  function Endpoint(v: WorkerView): string { v.endpoint }
  function CostClass(v: WorkerView): string { v.costClass }
  function Runtime(v: WorkerView): string { v.runtime }
  function Gpu(v: WorkerView): string { v.gpu }
  predicate Healthy(v: WorkerView) { v.healthy }
  predicate Ready(v: WorkerView) { v.ready }

  function Summary(src: Sources, id: string, g: seq<WorkerView>): Candidate
    requires g != []
  {
    Candidate(id, LastText(g, Endpoint), Largest(g, Depth) + LoadOf(src, id), Any(g, Healthy), Any(g, Ready),
              LatencyOf(src, id), ModelIds(g), Largest(g, Context), LastPrice(g),
              LastText(g, CostClass), LastText(g, Runtime), LargestReal(g, Vram), LastText(g, Gpu), LastCapabilities(g))
  }

  lemma {:induction false} IdsMembers(views: seq<WorkerView>, id: string)
    ensures id in Ids(views) <==> Group(views, id) != []
  {
    if views != [] { IdsMembers(views[..|views| - 1], id); }
  }

  function Candidates(src: Sources, views: seq<WorkerView>): (r: seq<Candidate>)
    ensures |r| == |Ids(views)|
  {
    seq(|Ids(views)|, i requires 0 <= i < |Ids(views)| =>
      IdsMembers(views, Ids(views)[i]);
      Summary(src, Ids(views)[i], Group(views, Ids(views)[i])))
  }

  // ----- The imperative form: one pass that updates candidates in a map

  /** First sight of a worker. */
  function First(src: Sources, v: WorkerView): Candidate {
    Candidate(v.id, v.endpoint, v.queueDepth + v.inFlight + LoadOf(src, v.id), v.healthy, v.ready, LatencyOf(src, v.id),
              [], v.maxContext, v.costPerHour, v.costClass, v.runtime, v.vramGB, v.gpu, v.capabilities)
  }

  method Merge(src: Sources, c: Candidate, w: WorkerView) returns (r: Candidate)
    ensures r == Merged(src, c, w)
  {
    var depth, queueDepth := w.queueDepth + w.inFlight, c.queueDepth;
    if src.load.Some? { depth := depth + src.load.value(w.id); }
    if depth > queueDepth { queueDepth := depth; }
    var maxContext, vramGB, cost := c.maxContext, c.vramGB, c.costPerHour;
    if w.maxContext > maxContext { maxContext := w.maxContext; }
    if w.vramGB > vramGB { vramGB := w.vramGB; }
    if w.costPerHour > 0.0 { cost := w.costPerHour; }
    var capabilities := c.capabilities;
    if |w.capabilities| > 0 { capabilities := w.capabilities; }
    hide Newer;
    r := Candidate(c.workerID, Newer(w.endpoint, c.endpoint), queueDepth, c.healthy || w.healthy, c.ready || w.ready,
                   c.ewmaLatencyMs, c.models, maxContext, cost, Newer(w.costClass, c.costClass),
                   Newer(w.runtime, c.runtime), vramGB, Newer(w.gpu, c.gpu), capabilities);
  }

  /** A non-empty text replaces what was there. */
  function Newer(text: string, before: string): string {
    if text != "" then text else before
  }

  function Merged(src: Sources, c: Candidate, w: WorkerView): Candidate {
    var depth := w.queueDepth + w.inFlight + LoadOf(src, w.id);
    Candidate(c.workerID,
              Newer(w.endpoint, c.endpoint),
              if depth > c.queueDepth then depth else c.queueDepth,
              c.healthy || w.healthy, c.ready || w.ready, c.ewmaLatencyMs, c.models,
              if w.maxContext > c.maxContext then w.maxContext else c.maxContext,
              if w.costPerHour > 0.0 then w.costPerHour else c.costPerHour,
              Newer(w.costClass, c.costClass), Newer(w.runtime, c.runtime),
              if w.vramGB > c.vramGB then w.vramGB else c.vramGB,
              Newer(w.gpu, c.gpu),
              if w.capabilities != map[] then w.capabilities else c.capabilities)
  }

  function WithModel(c: Candidate, w: WorkerView): Candidate {
    if w.baseModel == "" || ModelOf(w) in c.models then c else c.(models := c.models + [ModelOf(w)])
  }

  lemma SummaryFirst(src: Sources, v: WorkerView)
    ensures Summary(src, v.id, [v]) == WithModel(First(src, v), v)
  {
    var g := [v];
    assert g[..|g| - 1] == [];
    assert LastCapabilities([]) == map[] && ModelIds([]) == [];
    assert Largest([], Depth) == 0 && Largest([], Context) == 0;
    assert LastText([], Endpoint) == LastText([], CostClass) == LastText([], Runtime) == LastText([], Gpu) == "";
    assert !Any([], Healthy) && !Any([], Ready);
  }

  lemma SummaryStep(src: Sources, g: seq<WorkerView>, v: WorkerView)
    requires g != []
    ensures Summary(src, v.id, g + [v]) == WithModel(Merged(src, Summary(src, v.id, g), v), v)
  {
    assert (g + [v])[..|g + [v]| - 1] == g;
  }

  /** `byID` and `order` describe the entries seen so far. */
  ghost predicate Describes(src: Sources, views: seq<WorkerView>, byID: map<string, Candidate>, order: seq<string>) {
    && order == Ids(views)
    && (forall id :: id in byID <==> Group(views, id) != [])
    && (forall id :: id in byID ==> byID[id] == Summary(src, id, Group(views, id)))
  }

  lemma DescribesStep(src: Sources, views: seq<WorkerView>, w: WorkerView, byID: map<string, Candidate>,
                      order: seq<string>, c: Candidate)
    requires Describes(src, views, byID, order)
    requires c == if w.id in byID then Merged(src, byID[w.id], w) else First(src, w)
    ensures Describes(src, views + [w], byID[w.id := WithModel(c, w)], if w.id in byID then order else order + [w.id])
  {
    hide Summary, Merged, First, WithModel, Group, Ids;
    var all := views + [w];
    IdsStep(views, w);
    IdsMembers(views, w.id);
    GroupStep(views, w, w.id);
    if w.id in byID {
      SummaryStep(src, Group(views, w.id), w);
    } else {
      SummaryFirst(src, w);
      assert Group(all, w.id) == [w];
    }
    var byID' := byID[w.id := WithModel(c, w)];
    forall id ensures id in byID' <==> Group(all, id) != [] { GroupStep(views, w, id); }
    forall id | id in byID' ensures byID'[id] == Summary(src, id, Group(all, id)) { GroupStep(views, w, id); }
  }

  lemma GroupStep(views: seq<WorkerView>, w: WorkerView, id: string)
    ensures Group(views + [w], id) == if w.id == id then Group(views, id) + [w] else Group(views, id)
  {
    assert (views + [w])[..|views + [w]| - 1] == views;
  }

  lemma IdsStep(views: seq<WorkerView>, w: WorkerView)
    ensures Ids(views + [w]) == if w.id in Ids(views) then Ids(views) else Ids(views) + [w.id]
  {
    assert (views + [w])[..|views + [w]| - 1] == views;
  }

  method CandidatesFromSnapshot(src: Sources, snap: Option<seq<WorkerView>>) returns (out: seq<Candidate>)
    ensures out == if snap.None? then [] else Candidates(src, snap.value)
  {
    hide Summary, Merged, First, WithModel;
    if snap.None? { return []; }
    var views := snap.value;
    var byID: map<string, Candidate> := map[];
    var order: seq<string> := [];
    for i := 0 to |views|
      invariant Describes(src, views[..i], byID, order)
    {
      assert views[..i + 1] == views[..i] + [views[i]];
      var w := views[i];
      var c;
      if w.id in byID {
        c := Merge(src, byID[w.id], w);
        DescribesStep(src, views[..i], w, byID, order, c);
      } else {
        c := First(src, w);
        DescribesStep(src, views[..i], w, byID, order, c);
        order := order + [w.id];
      }
      byID := byID[w.id := WithModel(c, w)];
    }
    assert views[..|views|] == views;
    out := [];
    for i := 0 to |order|
      invariant out == Candidates(src, views)[..i]
    {
      IdsMembers(views, order[i]);
      out := out + [byID[order[i]]];
    }
  }

  // ----- What the aggregates mean, in terms of the snapshot's entries

  lemma {:induction false} GroupMembers(views: seq<WorkerView>, id: string, v: WorkerView)
    ensures v in Group(views, id) <==> v in views && v.id == id
  {
    if views != [] {
      GroupMembers(views[..|views| - 1], id, v);
      assert views == views[..|views| - 1] + [views[|views| - 1]];
    }
  }

  /** `g` is the entries of `views` at `pos`, in that order, and these are all of the worker's. */
  ghost predicate Placed(views: seq<WorkerView>, id: string, g: seq<WorkerView>, pos: seq<nat>) {
    && |pos| == |g|
    && (forall i :: 0 <= i < |pos| ==> pos[i] < |views| && views[pos[i]] == g[i])
    && (forall i, j :: 0 <= i < j < |pos| ==> pos[i] < pos[j])
    && (forall k :: 0 <= k < |views| ==> (k in pos <==> views[k].id == id))
  }

  lemma PlacedStep(init: seq<WorkerView>, v: WorkerView, id: string, g: seq<WorkerView>, pos: seq<nat>)
    requires Placed(init, id, g, pos)
    ensures
      if v.id == id then Placed(init + [v], id, g + [v], pos + [|init|]) else Placed(init + [v], id, g, pos)
  {
    var views, all := init + [v], pos + [|init|];
    assert |init| !in pos;
    assert forall k :: 0 <= k < |init| ==> views[k] == init[k] && (k in all <==> k in pos);
    assert all[|pos|] == |init|;
  }

  /** A group lists all entries of its worker in the order of the snapshot. */
  lemma {:induction false} GroupInOrder(views: seq<WorkerView>, id: string) returns (pos: seq<nat>)
    ensures Placed(views, id, Group(views, id), pos)
  {
    pos := [];
    if views != [] {
      hide Placed;
      var init, v := views[..|views| - 1], views[|views| - 1];
      assert views == init + [v];
      pos := GroupInOrder(init, id);
      PlacedStep(init, v, id, Group(init, id), pos);
      if v.id == id { pos := pos + [|init|]; }
    }
  }

  lemma {:induction false} AnyMeans(g: seq<WorkerView>, test: WorkerView -> bool)
    ensures Any(g, test) <==> exists v :: v in g && test(v)
  {
    if g != [] {
      AnyMeans(g[..|g| - 1], test);
      assert g == g[..|g| - 1] + [g[|g| - 1]];
      assert forall v :: v in g <==> v in g[..|g| - 1] || v == g[|g| - 1];
    }
  }

  lemma {:induction false} LargestMeans(g: seq<WorkerView>, field: WorkerView -> nat) returns (best: WorkerView)
    requires g != []
    ensures (forall v :: v in g ==> field(v) <= Largest(g, field)) && best in g && field(best) == Largest(g, field)
  {
    var init, last := g[..|g| - 1], g[|g| - 1];
    assert g == init + [last];
    best := last;
    if init != [] {
      var b := LargestMeans(init, field);
      if field(last) <= field(b) { best := b; }
    }
  }

  lemma {:induction false} LargestRealMeans(g: seq<WorkerView>, field: WorkerView -> real) returns (best: WorkerView)
    requires g != []
    ensures forall v :: v in g ==> field(v) <= LargestReal(g, field)
    ensures best in g && field(best) == LargestReal(g, field)
  {
    var init, last := g[..|g| - 1], g[|g| - 1];
    assert g == init + [last];
    best := last;
    if init != [] {
      var b := LargestRealMeans(init, field);
      if field(last) <= field(b) { best := b; }
    }
  }

  /** The last non-empty text: everything after it in the group is empty. */
  ghost predicate LastNonEmpty(g: seq<WorkerView>, field: WorkerView -> string, text: string) {
    && (text == "" ==> forall k :: 0 <= k < |g| ==> field(g[k]) == "")
    && (text != "" ==> exists k :: 0 <= k < |g| && field(g[k]) == text && forall j :: k < j < |g| ==> field(g[j]) == "")
  }

  lemma {:induction false} LastTextMeans(g: seq<WorkerView>, field: WorkerView -> string)
    ensures LastNonEmpty(g, field, LastText(g, field))
  {
    if g != [] {
      var init, last := g[..|g| - 1], g[|g| - 1];
      var text := LastText(g, field);
      LastTextMeans(init, field);
      assert forall k :: 0 <= k < |init| ==> g[k] == init[k];
      if field(last) == "" && text != "" {
        var k :| 0 <= k < |init| && field(init[k]) == text && forall j :: k < j < |init| ==> field(init[j]) == "";
        assert g[k] == init[k] && forall j :: k < j < |g| ==> field(g[j]) == "";
      } else if field(last) != "" {
        assert g[|g| - 1] == last;
      }
    }
  }

  lemma SameField(g: seq<WorkerView>, f: WorkerView -> string, field: WorkerView -> string, text: string)
    requires forall v :: f(v) == field(v)
    ensures LastNonEmpty(g, f, text) <==> LastNonEmpty(g, field, text)
  {
    assert forall k :: 0 <= k < |g| ==> f(g[k]) == field(g[k]);
  }

  /** The last positive price, or the first entry's if none is positive after it. */
  ghost predicate LastPositive(g: seq<WorkerView>, price: real) {
    exists k :: 0 <= k < |g| && g[k].costPerHour == price && (k == 0 || price > 0.0)
                && forall j :: k < j < |g| ==> g[j].costPerHour <= 0.0
  }

  lemma {:induction false} LastPriceMeans(g: seq<WorkerView>)
    requires g != []
    ensures LastPositive(g, LastPrice(g))
  {
    var init, last := g[..|g| - 1], g[|g| - 1];
    assert g[|g| - 1] == last;
    if |g| > 1 && last.costPerHour <= 0.0 {
      LastPriceMeans(init);
      var p := LastPrice(g);
      var k :| 0 <= k < |init| && init[k].costPerHour == p && (k == 0 || p > 0.0)
               && forall j :: k < j < |init| ==> init[j].costPerHour <= 0.0;
      assert forall j :: 0 <= j < |init| ==> g[j] == init[j];
      assert g[k].costPerHour == p && forall j :: k < j < |g| ==> g[j].costPerHour <= 0.0;
    }
  }

  ghost predicate LastListed(g: seq<WorkerView>, found: map<string, string>) {
    && (found == map[] ==> forall k :: 0 <= k < |g| ==> g[k].capabilities == map[])
    && (found != map[] ==>
         exists k :: 0 <= k < |g| && g[k].capabilities == found
                     && forall j :: k < j < |g| ==> g[j].capabilities == map[])
  }

  lemma {:induction false} LastCapabilitiesMean(g: seq<WorkerView>)
    ensures LastListed(g, LastCapabilities(g))
  {
    if g != [] {
      var init, last := g[..|g| - 1], g[|g| - 1];
      var found := LastCapabilities(g);
      LastCapabilitiesMean(init);
      assert forall k :: 0 <= k < |init| ==> g[k] == init[k];
      if last.capabilities == map[] && found != map[] {
        var k :| 0 <= k < |init| && init[k].capabilities == found
                 && forall j :: k < j < |init| ==> init[j].capabilities == map[];
        assert g[k] == init[k] && forall j :: k < j < |g| ==> g[j].capabilities == map[];
      } else if last.capabilities != map[] {
        assert g[|g| - 1] == last;
      }
    }
  }

  /** `keys` lists the names entries carry in the order of their first entries, `pos`. */
  ghost predicate FirstSeen(g: seq<WorkerView>, key: WorkerView -> Option<string>, keys: seq<string>, pos: seq<nat>) {
    && |pos| == |keys|
    && (forall i :: 0 <= i < |pos| ==> pos[i] < |g| && key(g[pos[i]]) == Some(keys[i]))
    && (forall i, j :: 0 <= i < |pos| && 0 <= j < pos[i] ==> key(g[j]) != Some(keys[i]))
    && (forall i, j :: 0 <= i < j < |pos| ==> pos[i] < pos[j])
    && (forall j :: 0 <= j < |g| && key(g[j]).Some? ==> key(g[j]).value in keys)
  }

  function IdKey(v: WorkerView): Option<string> {
    Some(v.id)
  }

  function ModelKey(v: WorkerView): Option<string> {
    if v.baseModel == "" then None else Some(ModelOf(v))
  }

  lemma FirstSeenStep(init: seq<WorkerView>, v: WorkerView, key: WorkerView -> Option<string>, keys: seq<string>,
                      pos: seq<nat>)
    requires FirstSeen(init, key, keys, pos)
    ensures
      if key(v).None? || key(v).value in keys then FirstSeen(init + [v], key, keys, pos)
      else FirstSeen(init + [v], key, keys + [key(v).value], pos + [|init|])
  {
    var g := init + [v];
    assert forall j :: 0 <= j < |init| ==> g[j] == init[j];
    assert g[|init|] == v;
  }

  /** The candidates come in the order in which their workers first appear. */
  lemma {:induction false} IdsInOrder(views: seq<WorkerView>) returns (pos: seq<nat>)
    ensures FirstSeen(views, IdKey, Ids(views), pos)
  {
    hide FirstSeen;
    if views == [] {
      pos := [];
      NothingSeen(IdKey);
    } else {
      var init, v := views[..|views| - 1], views[|views| - 1];
      assert views == init + [v];
      pos := IdsInOrder(init);
      FirstSeenStep(init, v, IdKey, Ids(init), pos);
      if v.id !in Ids(init) { pos := pos + [|init|]; }
    }
  }

  lemma {:induction false} ModelsInOrder(g: seq<WorkerView>) returns (pos: seq<nat>)
    ensures FirstSeen(g, ModelKey, ModelIds(g), pos)
  {
    hide FirstSeen;
    if g == [] {
      pos := [];
      NothingSeen(ModelKey);
    } else {
      var init, v := g[..|g| - 1], g[|g| - 1];
      assert g == init + [v];
      pos := ModelsInOrder(init);
      FirstSeenStep(init, v, ModelKey, ModelIds(init), pos);
      if v.baseModel != "" && ModelOf(v) !in ModelIds(init) { pos := pos + [|init|]; }
    }
  }

  lemma NothingSeen(key: WorkerView -> Option<string>)
    ensures FirstSeen([], key, [], [])
  {
  }

  lemma {:induction false} ModelIdsMean(g: seq<WorkerView>)
    ensures forall m :: m in ModelIds(g) <==> exists v :: v in g && v.baseModel != "" && ModelOf(v) == m
    ensures forall i, j :: 0 <= i < j < |ModelIds(g)| ==> ModelIds(g)[i] != ModelIds(g)[j]
  {
    if g != [] {
      var init, last := g[..|g| - 1], g[|g| - 1];
      assert g == init + [last];
      ModelIdsMean(init);
      assert forall v :: v in g <==> v in init || v == last;
      if last.baseModel != "" { assert last in g; }
    }
  }

  /** One worker's candidate, field by field, against all entries of that worker: disjunctions for
      health and readiness, maxima for depth, context and memory, the local load added once, the
      last non-empty endpoint, cost class, runtime, GPU and capabilities, the last positive price, and
      every model once, in the order of first appearance. */
  lemma CandidateMeans(src: Sources, views: seq<WorkerView>, id: string)
    requires Group(views, id) != []
    ensures
      var c := Summary(src, id, Group(views, id));
      && (c.healthy <==> exists v :: v in views && v.id == id && v.healthy)
      && (c.ready <==> exists v :: v in views && v.id == id && v.ready)
      && (var load := if src.load.Some? then src.load.value(id) else 0;
          && (forall v :: v in views && v.id == id ==> v.queueDepth + v.inFlight + load <= c.queueDepth)
          && (exists v :: v in views && v.id == id && v.queueDepth + v.inFlight + load == c.queueDepth))
      && (forall v :: v in views && v.id == id ==> v.maxContext <= c.maxContext && v.vramGB <= c.vramGB)
      && (exists v :: v in views && v.id == id && v.maxContext == c.maxContext)
      && (exists v :: v in views && v.id == id && v.vramGB == c.vramGB)
      && (forall m :: m in c.models <==> exists v :: v in views && v.id == id && v.baseModel != ""
                                             && Qualified(v.baseModel, v.adapter) == m)
      && LastNonEmpty(Group(views, id), (v: WorkerView) => v.endpoint, c.endpoint)
      && LastNonEmpty(Group(views, id), (v: WorkerView) => v.costClass, c.costClass)
      && LastNonEmpty(Group(views, id), (v: WorkerView) => v.runtime, c.runtime)
      && LastNonEmpty(Group(views, id), (v: WorkerView) => v.gpu, c.gpu)
      && LastPositive(Group(views, id), c.costPerHour) && LastListed(Group(views, id), c.capabilities)
      && (exists pos :: FirstSeen(Group(views, id), ModelKey, c.models, pos))
      && c.workerID == id && c.ewmaLatencyMs == (if src.latency.Some? then src.latency.value(id) else 0.0)
  {
    hide Group, Any, Largest, LargestReal, LastText, LastPrice, LastCapabilities, ModelIds;
    hide LastNonEmpty, LastPositive, LastListed, FirstSeen;
    var g := Group(views, id);
    forall v ensures v in g <==> v in views && v.id == id { GroupMembers(views, id, v); }
    AnyMeans(g, Healthy);
    AnyMeans(g, Ready);
    var _ := LargestMeans(g, Depth);
    var _ := LargestMeans(g, Context);
    var _ := LargestRealMeans(g, Vram);
    LastTextMeans(g, Endpoint);
    SameField(g, Endpoint, (v: WorkerView) => v.endpoint, LastText(g, Endpoint));
    LastTextMeans(g, CostClass);
    SameField(g, CostClass, (v: WorkerView) => v.costClass, LastText(g, CostClass));
    LastTextMeans(g, Runtime);
    SameField(g, Runtime, (v: WorkerView) => v.runtime, LastText(g, Runtime));
    LastTextMeans(g, Gpu);
    SameField(g, Gpu, (v: WorkerView) => v.gpu, LastText(g, Gpu));
    LastPriceMeans(g);
    LastCapabilitiesMean(g);
    ModelIdsMean(g);
    var _ := ModelsInOrder(g);
  }

  lemma {:induction false} IdsDistinct(views: seq<WorkerView>)
    ensures forall i, j :: 0 <= i < j < |Ids(views)| ==> Ids(views)[i] != Ids(views)[j]
  {
    if views != [] { IdsDistinct(views[..|views| - 1]); }
  }

  /** One candidate per worker: in first-seen order exactly the workers of the snapshot, none
      twice, which is what the ranking needs to be independent of order. */
  lemma OneCandidatePerWorker(src: Sources, views: seq<WorkerView>)
    ensures DistinctIds(Candidates(src, views))
    ensures forall i :: 0 <= i < |Ids(views)| ==> Candidates(src, views)[i].workerID == Ids(views)[i]
    ensures forall v :: v in views ==> v.id in Ids(views)
    ensures forall id :: id in Ids(views) ==> exists v :: v in views && v.id == id
    ensures exists pos :: FirstSeen(views, IdKey, Ids(views), pos)
  {
    hide FirstSeen;
    var _ := IdsInOrder(views);
    hide Group, Ids, LastText, Largest, Any, ModelIds, LargestReal, LastPrice, LastCapabilities;
    IdsDistinct(views);
    forall v | v in views ensures v.id in Ids(views) {
      IdsMembers(views, v.id);
      GroupMembers(views, v.id, v);
    }
    forall id | id in Ids(views) ensures exists v :: v in views && v.id == id {
      IdsMembers(views, id);
      var v := Group(views, id)[0];
      GroupMembers(views, id, v);
    }
  }
}
