/** The scheduling chain: filter, score, sort. */
module SchedulingChain {
  import opened Prelude
  import opened Filters
  import opened Scoring
  import TextOrder

  datatype WeightedScorer = WeightedScorer(scorer: Scorer, weight: real)

  datatype Chain = Chain(filters: seq<Filter>, scorers: seq<WeightedScorer>)

  datatype ChainConfig = ChainConfig(
    weightLoad: real, weightLatency: real, weightAffinity: real, weightCost: real, weightPolicy: real,
    latencyRefMs: real, admissionLimit: int, affinityWindow: int, affinityBlock: int,
    policy: Option<ScoreFn>, overlap: Option<ScoreFn>, weightOverlap: real)

  function Admitting(limit: int): seq<Filter> {
    [Health, Model, Capability] + if limit > 0 then [Admission(limit)] else []
  }

  /** A scorer that takes part only with a positive weight. */
  function Optional(s: WeightedScorer): seq<WeightedScorer> {
    if s.weight > 0.0 then [s] else []
  }

  function OptionalFn(f: Option<ScoreFn>, weight: real): seq<WeightedScorer> {
    if f.Some? then Optional(WeightedScorer(External(f.value), weight)) else []
  }

  /** Without any positive base weight the default weights apply. */
  function Effective(cfg: ChainConfig): ChainConfig {
    if cfg.weightLoad <= 0.0 && cfg.weightLatency <= 0.0 && cfg.weightAffinity <= 0.0
       && cfg.weightCost <= 0.0 && cfg.weightPolicy <= 0.0
    then
      cfg.(weightLoad := 0.45, weightLatency := 0.15, weightAffinity := 0.1, weightCost := 0.15, weightPolicy := 0.15)
    else cfg
  }

  function ReferenceMs(cfg: ChainConfig): Positive {
    if cfg.latencyRefMs <= 0.0 then 100.0 else cfg.latencyRefMs
  }

  function Configured(cfg: ChainConfig): Chain {
    var eff := Effective(cfg);
    Chain(Admitting(cfg.admissionLimit),
          [WeightedScorer(LeastLoaded, eff.weightLoad)]
          + [WeightedScorer(Latency(ReferenceMs(cfg)), eff.weightLatency)]
          + Optional(WeightedScorer(Affinity(cfg.affinityWindow, cfg.affinityBlock), eff.weightAffinity))
          + Optional(WeightedScorer(Cost, eff.weightCost))
          + OptionalFn(cfg.policy, eff.weightPolicy)
          + OptionalFn(cfg.overlap, cfg.weightOverlap))
  }

  // ----- Filtering

  datatype Filtered = Survive(cands: seq<Candidate>) | Emptied(at: nat)

  function RunFilters(filters: seq<Filter>, req: Option<Request>, cands: seq<Candidate>): Filtered {
    if filters == [] then Survive(cands)
    else
      var kept := Kept(filters[0], req, cands);
      if kept == [] then Emptied(0)
      else match RunFilters(filters[1..], req, kept)
        case Survive(out) => Survive(out)
        case Emptied(i) => Emptied(i + 1)
  }

  predicate PassesAll(filters: seq<Filter>, req: Option<Request>, c: Candidate) {
    forall i :: 0 <= i < |filters| ==> Passes(filters[i], req, c)
  }

  // ----- Scoring

  datatype Scored = Scored(c: Candidate, total: real)

  function Weight(w: real): real {
    if w == 0.0 then 1.0 else w
  }

  /** Sum over the scorers of weight times score. */
  function Total(hs: Hashes, scorers: seq<WeightedScorer>, req: Option<Request>, surviving: seq<Candidate>,
                 c: Candidate): real
  {
    if scorers == [] then 0.0
    else
      var s := scorers[|scorers| - 1];
      Total(hs, scorers[..|scorers| - 1], req, surviving, c)
      + Weight(s.weight) * Score(s.scorer, PreparedFor(hs, s.scorer, req, surviving), req, c)
  }

  function ScoreAll(hs: Hashes, scorers: seq<WeightedScorer>, req: Option<Request>,
                    surviving: seq<Candidate>): (r: seq<Scored>)
    ensures |r| == |surviving|
    ensures forall i :: 0 <= i < |r| ==> r[i] == Scored(surviving[i], Total(hs, scorers, req, surviving, surviving[i]))
  {
    seq(|surviving|, i requires 0 <= i < |surviving| =>
      Scored(surviving[i], Total(hs, scorers, req, surviving, surviving[i])))
  }

  // ----- Sorting

  /** The comparison of the sort: higher total first, then the smaller name. */
  predicate Before(a: Scored, b: Scored) {
    if a.total != b.total then a.total > b.total else TextOrder.Less(a.c.workerID, b.c.workerID)
  }

  function Insert(x: Scored, s: seq<Scored>): seq<Scored> {
    if s == [] then [x]
    else if Before(x, s[0]) then [x] + s
    else [s[0]] + Insert(x, s[1..])
  }

  function Sort(s: seq<Scored>): seq<Scored> {
    if s == [] then [] else Insert(s[|s| - 1], Sort(s[..|s| - 1]))
  }

  datatype PickResult = PickResult(workerID: string, endpoint: string, score: real)

  function Picks(s: seq<Scored>): (r: seq<PickResult>)
    ensures |r| == |s| && forall i :: 0 <= i < |s| ==> r[i] == PickResult(s[i].c.workerID, s[i].c.endpoint, s[i].total)
  {
    seq(|s|, i requires 0 <= i < |s| => PickResult(s[i].c.workerID, s[i].c.endpoint, s[i].total))
  }

  datatype RankResult = Ranked(picks: seq<PickResult>) | NoCapacity | AdmissionRejected

  /** The scored survivors in ranking order. */
  function Ranking(hs: Hashes, ch: Chain, req: Option<Request>, surviving: seq<Candidate>): seq<Scored> {
    Sort(ScoreAll(hs, ch.scorers, req, surviving))
  }

  function RankOf(hs: Hashes, ch: Chain, req: Option<Request>, cands: seq<Candidate>): RankResult {
    match RunFilters(ch.filters, req, cands)
    case Emptied(i) => if i < |ch.filters| && ch.filters[i].Admission? then AdmissionRejected else NoCapacity
    case Survive(out) => Ranked(Picks(Ranking(hs, ch, req, out)))
  }

  // ----- The imperative form

  method PrepareAll(hs: Hashes, scorers: seq<WeightedScorer>, req: Option<Request>, cands: seq<Candidate>)
    returns (prep: seq<Prepared>)
    ensures |prep| == |scorers|
    ensures forall i :: 0 <= i < |scorers| ==> prep[i] == PreparedFor(hs, scorers[i].scorer, req, cands)
  {
    hide Preferred, HighestCost;
    prep := [];
    for i := 0 to |scorers|
      invariant |prep| == i
      invariant forall k :: 0 <= k < i ==> prep[k] == PreparedFor(hs, scorers[k].scorer, req, cands)
    {
      var p := Prepared("", 0.0);
      match scorers[i].scorer {
        case Affinity(w, b) =>
          var preferred := PrepareAffinity(hs, w, b, req, cands);
          p := Prepared(preferred, 0.0);
        case Cost =>
          var max := PrepareCost(cands);
          p := Prepared("", max);
        case _ =>
      }
      prep := prep + [p];
    }
  }

  method TotalOf(hs: Hashes, scorers: seq<WeightedScorer>, prep: seq<Prepared>, req: Option<Request>,
                 ghost surviving: seq<Candidate>, c: Candidate) returns (total: real)
    requires |prep| == |scorers|
    requires forall i :: 0 <= i < |scorers| ==> prep[i] == PreparedFor(hs, scorers[i].scorer, req, surviving)
    ensures total == Total(hs, scorers, req, surviving, c)
  {
    hide Score, PreparedFor;
    total := 0.0;
    for i := 0 to |scorers|
      invariant total == Total(hs, scorers[..i], req, surviving, c)
    {
      assert scorers[..i + 1][..i] == scorers[..i];
      var w := scorers[i].weight;
      if w == 0.0 { w := 1.0; }
      total := total + w * Score(scorers[i].scorer, prep[i], req, c);
    }
    assert scorers[..|scorers|] == scorers;
  }

  method Rank(hs: Hashes, ch: Chain, req: Option<Request>, cands: seq<Candidate>) returns (r: RankResult)
    ensures r == RankOf(hs, ch, req, cands)
  {
    hide Kept, Total, PreparedFor, Insert;
    var surviving := cands;
    var i := 0;
    while i < |ch.filters|
      invariant i <= |ch.filters|
      invariant
        var rest := RunFilters(ch.filters[i..], req, surviving);
        RunFilters(ch.filters, req, cands) == if rest.Survive? then rest else Emptied(rest.at + i)
    {
      assert ch.filters[i..][1..] == ch.filters[i + 1..];
      surviving := ApplyFilter(ch.filters[i], req, surviving);
      if |surviving| == 0 {
        return if ch.filters[i].Admission? then AdmissionRejected else NoCapacity;
      }
      i := i + 1;
    }
    assert ch.filters[i..] == [] && RunFilters(ch.filters, req, cands) == Survive(surviving);
    var prep := PrepareAll(hs, ch.scorers, req, surviving);
    var results: seq<Scored> := [];
    for k := 0 to |surviving|
      invariant results == ScoreAll(hs, ch.scorers, req, surviving)[..k]
    {
      var total := TotalOf(hs, ch.scorers, prep, req, surviving, surviving[k]);
      results := results + [Scored(surviving[k], total)];
    }
    assert results == ScoreAll(hs, ch.scorers, req, surviving);
    var sorted := [];
    for k := 0 to |results|
      invariant sorted == Sort(results[..k])
    {
      assert results[..k + 1][..k] == results[..k];
      sorted := Insert(results[k], sorted);
    }
    assert results[..|results|] == results;
    r := Ranked(Picks(sorted));
  }

  // ----- What the filters let through

  lemma PassesAllCons(filters: seq<Filter>, req: Option<Request>, c: Candidate)
    requires filters != []
    ensures PassesAll(filters, req, c) <==> Passes(filters[0], req, c) && PassesAll(filters[1..], req, c)
  {
    hide Passes;
    assert forall i :: 0 <= i < |filters| - 1 ==> filters[1..][i] == filters[i + 1];
    if Passes(filters[0], req, c) && PassesAll(filters[1..], req, c) {
      forall i | 0 <= i < |filters| ensures Passes(filters[i], req, c) {
        if i > 0 { assert filters[1..][i - 1] == filters[i]; }
      }
    }
  }

  /** Filters applied one after the other: the survivors are exactly the candidates passing all;
      if a filter leaves nobody, nobody passes it and all before it, but somebody passed those. */
  lemma {:induction false} FiltersMean(filters: seq<Filter>, req: Option<Request>, cands: seq<Candidate>)
    ensures match RunFilters(filters, req, cands)
      case Survive(out) => forall c :: c in out <==> c in cands && PassesAll(filters, req, c)
      case Emptied(i) =>
        && i < |filters| && (forall c :: c in cands ==> !PassesAll(filters[..i + 1], req, c))
        && (i > 0 ==> exists c :: c in cands && PassesAll(filters[..i], req, c))
  {
    hide Passes, Kept, PassesAll;
    if filters == [] {
      forall c ensures PassesAll(filters, req, c) { PassesNone(req, c); }
    } else {
      var f, rest := filters[0], filters[1..];
      var kept := Kept(f, req, cands);
      FiltersMean(rest, req, kept);
      forall c ensures c in kept <==> c in cands && Passes(f, req, c) { KeptMembers(f, req, cands, c); }
      match RunFilters(filters, req, cands)
      case Survive(out) =>
        forall c ensures c in out <==> c in cands && PassesAll(filters, req, c) { PassesAllCons(filters, req, c); }
      case Emptied(i) =>
        forall c | c in cands ensures !PassesAll(filters[..i + 1], req, c) {
          PassesAllCons(filters[..i + 1], req, c);
          assert filters[..i + 1][1..] == rest[..i];
          if i == 0 { assert c !in kept; }
        }
        if i > 0 { SomebodyPassed(filters, req, cands, kept, i); }
    }
  }

  lemma PassesNone(req: Option<Request>, c: Candidate)
    ensures PassesAll([], req, c)
  {
  }

  lemma SomebodyPassed(filters: seq<Filter>, req: Option<Request>, cands: seq<Candidate>, kept: seq<Candidate>, i: nat)
    requires 0 < i < |filters| && kept != []
    requires forall c :: c in kept <==> c in cands && Passes(filters[0], req, c)
    requires i > 1 ==> exists c :: c in kept && PassesAll(filters[1..][..i - 1], req, c)
    ensures exists c :: c in cands && PassesAll(filters[..i], req, c)
  {
    hide Passes, PassesAll;
    var c := kept[0];
    if i > 1 { c :| c in kept && PassesAll(filters[1..][..i - 1], req, c); }
    assert filters[..i][1..] == filters[1..][..i - 1];
    if i == 1 {
      assert filters[..1][1..] == [];
      PassesNone(req, c);
    }
    PassesAllCons(filters[..i], req, c);
    assert c in cands && PassesAll(filters[..i], req, c);
  }

  predicate Serviceable(req: Option<Request>, c: Candidate) {
    Passes(Health, req, c) && Passes(Model, req, c) && Passes(Capability, req, c)
  }

  /** Who may serve a request: a healthy and ready worker, for a request that names a model, that
      offers a matching name and has the context asked for, where both are known. */
  lemma ServiceableMeans(req: Option<Request>, c: Candidate)
    ensures Serviceable(req, c)
            <==> && c.healthy && c.ready && req.Some? && req.value.baseModel != ""
                 && (exists m :: m in c.models && Matches(m, req.value.baseModel, req.value.adapter))
                 && (req.value.minContext == 0 || c.maxContext == 0 || req.value.minContext <= c.maxContext)
  {
    hide Matches;
  }

  lemma PassesBasic(req: Option<Request>, c: Candidate)
    ensures PassesAll([Health, Model, Capability], req, c) <==> Serviceable(req, c)
  {
    hide Passes;
    var fs := [Health, Model, Capability];
    assert fs[0] == Health && fs[1] == Model && fs[2] == Capability;
  }

  /** The errors of a configured chain: no capacity exactly if nobody is healthy and serves the
      request; admission rejected exactly if somebody does but everybody who does is at the
      limit; otherwise a ranking of those who do and are below the limit. */
  lemma RankErrors(hs: Hashes, cfg: ChainConfig, req: Option<Request>, cands: seq<Candidate>)
    ensures
      var r := RankOf(hs, Configured(cfg), req, cands);
      && (r.NoCapacity? <==> forall c :: c in cands ==> !Serviceable(req, c))
      && (r.AdmissionRejected? <==>
            && (exists c :: c in cands && Serviceable(req, c))
            && (forall c :: c in cands && Serviceable(req, c) ==> 0 < cfg.admissionLimit <= c.queueDepth))
  {
    hide Passes, PassesAll, RunFilters, Ranking, Serviceable;
    var base, fs := [Health, Model, Capability], Admitting(cfg.admissionLimit);
    FiltersMean(fs, req, cands);
    forall c ensures PassesAll(base, req, c) <==> Serviceable(req, c) { PassesBasic(req, c); }
    match RunFilters(fs, req, cands)
    case Survive(out) =>
      FiltersSurvive(fs, req, cands, out);
      assert out[0] in out && out[0] in cands && PassesAll(fs, req, out[0]);
      AdmissionPasses(cfg.admissionLimit, req);
    case Emptied(i) =>
      if i < 3 {
        assert fs[i] == base[i] && fs[..i + 1] == base[..i + 1];
        PrefixPasses(base, base[..i + 1], req);
      } else {
        assert fs[..3] == base && fs[..4] == fs && fs[3] == Admission(cfg.admissionLimit);
        AdmissionPasses(cfg.admissionLimit, req);
      }
  }

  lemma PrefixPasses(fs: seq<Filter>, prefix: seq<Filter>, req: Option<Request>)
    requires prefix <= fs
    ensures forall c :: PassesAll(fs, req, c) ==> PassesAll(prefix, req, c)
  {
    hide Passes;
    assert forall i :: 0 <= i < |prefix| ==> prefix[i] == fs[i];
  }

  lemma AdmissionPasses(limit: int, req: Option<Request>)
    ensures forall c :: PassesAll(Admitting(limit), req, c)
                        <==> Serviceable(req, c) && (limit <= 0 || c.queueDepth < limit)
  {
    hide SatisfiesCapability, ServesModel;
    var fs := Admitting(limit);
    assert fs[0] == Health && fs[1] == Model && fs[2] == Capability && (limit > 0 ==> fs[3] == Admission(limit));
    forall c ensures PassesAll(fs, req, c) <==> Serviceable(req, c) && (limit <= 0 || c.queueDepth < limit) {
      if Serviceable(req, c) && (limit <= 0 || c.queueDepth < limit) {
        forall i | 0 <= i < |fs| ensures Passes(fs[i], req, c) { assert i == 0 || i == 1 || i == 2 || i == 3; }
      }
    }
  }

  /** A chain of at least one filter never ends with an empty list of survivors. */
  lemma {:induction false} FiltersSurvive(fs: seq<Filter>, req: Option<Request>, cands: seq<Candidate>,
                                          out: seq<Candidate>)
    requires fs != [] && RunFilters(fs, req, cands) == Survive(out)
    ensures out != []
  {
    hide Kept;
    if |fs| > 1 { FiltersSurvive(fs[1..], req, Kept(fs[0], req, cands), out); }
  }
}
