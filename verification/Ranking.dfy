/** Properties of whole rankings: they depend only on the set of candidates, contain exactly
    the survivors, and respect dominance. */
module RankingProperties {
  import opened Prelude
  import opened Filters
  import opened Scoring
  import opened SchedulingChain
  import TextOrder

  ghost predicate DistinctIds(cands: seq<Candidate>) {
    forall i, j :: 0 <= i < j < |cands| ==> cands[i].workerID != cands[j].workerID
  }

  ghost predicate DistinctScored(s: seq<Scored>) {
    forall i, j :: 0 <= i < j < |s| ==> s[i].c.workerID != s[j].c.workerID
  }

  ghost predicate SameMembers<T(!new)>(xs: seq<T>, ys: seq<T>) {
    forall x :: x in xs <==> x in ys
  }

  ghost predicate Sorted(s: seq<Scored>) {
    forall i, j :: 0 <= i < j < |s| ==> Before(s[i], s[j])
  }

  // ----- The order

  lemma BeforeTotal(a: Scored, b: Scored)
    ensures a.c.workerID != b.c.workerID ==> Before(a, b) || Before(b, a)
    ensures !(Before(a, b) && Before(b, a)) && !Before(a, a)
  {
    TextOrder.Trichotomy(a.c.workerID, b.c.workerID);
    TextOrder.Irreflexive(a.c.workerID);
    if TextOrder.Less(a.c.workerID, b.c.workerID) && TextOrder.Less(b.c.workerID, a.c.workerID) {
      TextOrder.Transitive(a.c.workerID, b.c.workerID, a.c.workerID);
    }
  }

  lemma BeforeTransitive(a: Scored, b: Scored, c: Scored)
    requires Before(a, b) && Before(b, c)
    ensures Before(a, c)
  {
    if a.total == b.total == c.total { TextOrder.Transitive(a.c.workerID, b.c.workerID, c.c.workerID); }
  }

  // ----- The sort

  lemma {:induction false} InsertSorts(x: Scored, s: seq<Scored>)
    requires Sorted(s) && forall i :: 0 <= i < |s| ==> s[i].c.workerID != x.c.workerID
    ensures Sorted(Insert(x, s)) && multiset(Insert(x, s)) == multiset(s) + multiset{x}
  {
    hide Before;
    if s != [] {
      var head, tail := s[0], s[1..];
      assert s == [head] + tail;
      BeforeTotal(x, head);
      if Before(x, head) {
        forall j | 0 <= j < |s| ensures Before(x, s[j]) {
          if j > 0 { BeforeTransitive(x, head, s[j]); }
        }
      } else {
        InsertSorts(x, tail);
        var rest := Insert(x, tail);
        assert Insert(x, s) == [head] + rest;
        forall j | 0 <= j < |rest| ensures Before(head, rest[j]) {
          assert rest[j] in multiset(rest);
          assert rest[j] in tail || rest[j] == x;
        }
      }
    }
  }

  lemma {:induction false} SortSorts(s: seq<Scored>)
    requires DistinctScored(s)
    ensures Sorted(Sort(s)) && multiset(Sort(s)) == multiset(s)
  {
    hide Insert, Before;
    if s != [] {
      var init, x := s[..|s| - 1], s[|s| - 1];
      assert s == init + [x];
      SortSorts(init);
      var t := Sort(init);
      forall i | 0 <= i < |t| ensures t[i].c.workerID != x.c.workerID {
        assert t[i] in multiset(t);
        assert t[i] in init;
      }
      InsertSorts(x, t);
    }
  }

  /** There is only one way to arrange given scored candidates in order. */
  lemma {:induction false} SortedIsUnique(xs: seq<Scored>, ys: seq<Scored>)
    requires Sorted(xs) && Sorted(ys) && SameMembers(xs, ys)
    ensures xs == ys
  {
    hide Before;
    assert xs != [] ==> xs[0] in ys;
    assert ys != [] ==> ys[0] in xs;
    if xs != [] {
      BeforeTotal(xs[0], ys[0]);
      assert xs[0] == ys[0];
      forall x ensures x in xs[1..] <==> x in ys[1..] {
        TailMember(xs, x);
        TailMember(ys, x);
      }
      SortedIsUnique(xs[1..], ys[1..]);
      assert xs == [xs[0]] + xs[1..] && ys == [ys[0]] + ys[1..];
    }
  }

  lemma TailMember(xs: seq<Scored>, x: Scored)
    requires xs != [] && Sorted(xs)
    ensures x in xs[1..] <==> x in xs && x != xs[0]
  {
    hide Before;
    BeforeTotal(x, x);
    if x in xs && x != xs[0] {
      var i :| 0 <= i < |xs| && xs[i] == x;
      assert xs[1..][i - 1] == x;
    }
    if x in xs[1..] {
      var i :| 0 <= i < |xs| - 1 && xs[1..][i] == x;
      assert xs[i + 1] == x && Before(xs[0], xs[i + 1]);
    }
  }

  /** The sorting algorithm does not matter: whatever rearrangement a library sort returns, as
      long as it never leaves a pair in the wrong order, it is this one. */
  lemma SortIsForced(s: seq<Scored>, t: seq<Scored>)
    requires DistinctScored(s) && multiset(t) == multiset(s)
    requires forall i, j :: 0 <= i < j < |t| ==> !Before(t[j], t[i])
    ensures t == Sort(s)
  {
    hide Before, Sort;
    SortSorts(s);
    DistinctRearranged(s, t);
    forall i, j | 0 <= i < j < |t| ensures Before(t[i], t[j]) { BeforeTotal(t[i], t[j]); }
    forall x ensures x in t <==> x in Sort(s) {
      assert x in t <==> x in multiset(t);
      assert x in Sort(s) <==> x in multiset(Sort(s));
    }
    SortedIsUnique(t, Sort(s));
  }

  /** Rearranging keeps names distinct. */
  lemma {:induction false} DistinctRearranged(s: seq<Scored>, t: seq<Scored>)
    requires DistinctScored(s) && multiset(t) == multiset(s)
    ensures DistinctScored(t)
  {
    forall i, j | 0 <= i < j < |t| ensures t[i].c.workerID != t[j].c.workerID {
      if t[i].c.workerID == t[j].c.workerID {
        assert t[i] in multiset(t) && t[j] in multiset(t);
        assert t[i] in s && t[j] in s;
        assert t[i] == t[j];
        TwiceIn(t, i, j);
        OnceIn(s, t[i]);
        assert false;
      }
    }
  }

  lemma TwiceIn(t: seq<Scored>, i: nat, j: nat)
    requires i < j < |t| && t[i] == t[j]
    ensures multiset(t)[t[i]] >= 2
  {
    assert t == t[..j] + [t[j]] + t[j + 1..];
    assert t[i] in t[..j] && t[i] in multiset(t[..j]);
    assert multiset(t) == multiset(t[..j]) + multiset{t[j]} + multiset(t[j + 1..]);
  }

  lemma {:induction false} OnceIn(s: seq<Scored>, x: Scored)
    requires DistinctScored(s)
    ensures multiset(s)[x] <= 1
  {
    if s != [] {
      var init := s[..|s| - 1];
      assert s == init + [s[|s| - 1]];
      OnceIn(init, x);
      if x == s[|s| - 1] { assert x !in init; }
    }
  }

  // ----- Rank depends only on the set of candidates

  lemma {:induction false} KeptDistinct(f: Filter, req: Option<Request>, cands: seq<Candidate>)
    requires DistinctIds(cands)
    ensures DistinctIds(Kept(f, req, cands))
  {
    hide Passes;
    if cands != [] {
      var init, last := cands[..|cands| - 1], cands[|cands| - 1];
      KeptDistinct(f, req, init);
      var k := Kept(f, req, init);
      forall i | 0 <= i < |k| ensures k[i].workerID != last.workerID {
        KeptMembers(f, req, init, k[i]);
      }
    }
  }

  /** Filtering commutes with reordering. */
  lemma {:induction false} FiltersIgnoreOrder(fs: seq<Filter>, req: Option<Request>, xs: seq<Candidate>,
                                              ys: seq<Candidate>)
    requires SameMembers(xs, ys) && DistinctIds(xs) && DistinctIds(ys)
    ensures
      var a, b := RunFilters(fs, req, xs), RunFilters(fs, req, ys);
      && (a.Survive? <==> b.Survive?) && (a.Emptied? ==> a == b)
      && (a.Survive? ==> SameMembers(a.cands, b.cands) && DistinctIds(a.cands) && DistinctIds(b.cands))
  {
    hide Kept, Passes, DistinctIds;
    if fs != [] {
      var kx, ky := Kept(fs[0], req, xs), Kept(fs[0], req, ys);
      KeptDistinct(fs[0], req, xs);
      KeptDistinct(fs[0], req, ys);
      forall c ensures c in kx <==> c in ky {
        KeptMembers(fs[0], req, xs, c);
        KeptMembers(fs[0], req, ys, c);
      }
      assert kx != [] ==> kx[0] in ky;
      assert ky != [] ==> ky[0] in kx;
      FiltersIgnoreOrder(fs[1..], req, kx, ky);
    }
  }

  lemma {:induction false} TotalIgnoresOrder(hs: Hashes, scorers: seq<WeightedScorer>, req: Option<Request>,
                                             xs: seq<Candidate>, ys: seq<Candidate>, c: Candidate)
    requires SameMembers(xs, ys)
    ensures Total(hs, scorers, req, xs, c) == Total(hs, scorers, req, ys, c)
  {
    hide PreparedFor, Score;
    if scorers != [] {
      TotalIgnoresOrder(hs, scorers[..|scorers| - 1], req, xs, ys, c);
      PreparedIgnoresOrder(hs, scorers[|scorers| - 1].scorer, req, xs, ys);
    }
  }

  /** The ranking is a strictly ordered rearrangement of the scored survivors. */
  lemma RankingFacts(hs: Hashes, ch: Chain, req: Option<Request>, surviving: seq<Candidate>)
    requires DistinctIds(surviving)
    ensures
      var r := Ranking(hs, ch, req, surviving);
      && Sorted(r) && multiset(r) == multiset(ScoreAll(hs, ch.scorers, req, surviving))
      && forall x :: x in r <==> x.c in surviving && x.total == Total(hs, ch.scorers, req, surviving, x.c)
  {
    hide Sort, Total, Before;
    var s := ScoreAll(hs, ch.scorers, req, surviving);
    SortSorts(s);
    var r := Ranking(hs, ch, req, surviving);
    forall x ensures x in r <==> x.c in surviving && x.total == Total(hs, ch.scorers, req, surviving, x.c) {
      assert x in r <==> x in multiset(r);
      assert x in s <==> x in multiset(s);
      if x.c in surviving && x.total == Total(hs, ch.scorers, req, surviving, x.c) {
        var i :| 0 <= i < |surviving| && surviving[i] == x.c;
        assert s[i] == x;
      }
    }
  }

  /** Two lists of the same candidates with distinct names, in whatever order, are ranked
      identically or rejected with the same error. */
  lemma RankIgnoresOrder(hs: Hashes, ch: Chain, req: Option<Request>, xs: seq<Candidate>, ys: seq<Candidate>)
    requires SameMembers(xs, ys) && DistinctIds(xs) && DistinctIds(ys)
    ensures RankOf(hs, ch, req, xs) == RankOf(hs, ch, req, ys)
  {
    hide RunFilters, Ranking, Sorted, DistinctIds, Total;
    FiltersIgnoreOrder(ch.filters, req, xs, ys);
    var a, b := RunFilters(ch.filters, req, xs), RunFilters(ch.filters, req, ys);
    if a.Survive? {
      RankingFacts(hs, ch, req, a.cands);
      RankingFacts(hs, ch, req, b.cands);
      var r, q := Ranking(hs, ch, req, a.cands), Ranking(hs, ch, req, b.cands);
      forall x ensures x in r <==> x in q { TotalIgnoresOrder(hs, ch.scorers, req, a.cands, b.cands, x.c); }
      SortedIsUnique(r, q);
    }
  }

  /** A successful `Rank` lists exactly the candidates that pass every filter, each with its
      weighted total, strictly ordered by total and then by name. */
  lemma RankListsSurvivors(hs: Hashes, ch: Chain, req: Option<Request>, cands: seq<Candidate>)
    requires DistinctIds(cands) && RankOf(hs, ch, req, cands).Ranked?
    ensures
      var out := RunFilters(ch.filters, req, cands);
      && out.Survive? && RankOf(hs, ch, req, cands).picks == Picks(Ranking(hs, ch, req, out.cands))
      && Sorted(Ranking(hs, ch, req, out.cands))
      && InOrder(RankOf(hs, ch, req, cands).picks)
      && |RankOf(hs, ch, req, cands).picks| == |out.cands|
      && forall x :: x in Ranking(hs, ch, req, out.cands) <==>
           && x.c in cands && PassesAll(ch.filters, req, x.c)
           && x.total == Total(hs, ch.scorers, req, out.cands, x.c)
  {
    hide RunFilters, Ranking, Sorted, DistinctIds, Total, PassesAll, SameMembers;
    var out := RunFilters(ch.filters, req, cands);
    FiltersMean(ch.filters, req, cands);
    AlikeItself(cands);
    FiltersIgnoreOrder(ch.filters, req, cands, cands);
    RankingFacts(hs, ch, req, out.cands);
    var r, s := Ranking(hs, ch, req, out.cands), ScoreAll(hs, ch.scorers, req, out.cands);
    assert |multiset(r)| == |r| && |multiset(s)| == |s|;
    PicksInOrder(r);
  }

  /** Higher scores first, equal ones by name. */
  ghost predicate InOrder(picks: seq<PickResult>) {
    forall i, j :: 0 <= i < j < |picks| ==>
      || picks[i].score > picks[j].score
      || (picks[i].score == picks[j].score && TextOrder.Less(picks[i].workerID, picks[j].workerID))
  }

  lemma PicksInOrder(s: seq<Scored>)
    requires Sorted(s)
    ensures InOrder(Picks(s))
  {
    forall i, j | 0 <= i < j < |s| ensures Before(s[i], s[j]) {
    }
  }

  lemma AlikeItself(xs: seq<Candidate>)
    ensures SameMembers(xs, xs)
  {
  }

  // ----- The total of a configured chain

  lemma {:induction false} TotalAppend(hs: Hashes, xs: seq<WeightedScorer>, ys: seq<WeightedScorer>,
                                       req: Option<Request>, surviving: seq<Candidate>, c: Candidate)
    ensures Total(hs, xs + ys, req, surviving, c)
            == Total(hs, xs, req, surviving, c) + Total(hs, ys, req, surviving, c)
  {
    hide Score, PreparedFor, Weight;
    if ys == [] {
      assert xs + ys == xs;
    } else {
      assert (xs + ys)[..|xs + ys| - 1] == xs + ys[..|ys| - 1];
      TotalAppend(hs, xs, ys[..|ys| - 1], req, surviving, c);
    }
  }

  lemma TotalSingle(hs: Hashes, s: WeightedScorer, req: Option<Request>, surviving: seq<Candidate>, c: Candidate)
    ensures Total(hs, [s], req, surviving, c)
            == Weight(s.weight) * Score(s.scorer, PreparedFor(hs, s.scorer, req, surviving), req, c)
    ensures Total(hs, [], req, surviving, c) == 0.0
  {
    hide Score, PreparedFor, Weight;
    var one := [s];
    assert one[..|one| - 1] == [];
  }

  /** The share of an optional scorer: nothing unless its weight is positive. */
  function Share(weight: real, score: real): real {
    if weight > 0.0 then weight * score else 0.0
  }

  lemma OptionalShare(hs: Hashes, s: WeightedScorer, req: Option<Request>, surviving: seq<Candidate>, c: Candidate)
    ensures Total(hs, Optional(s), req, surviving, c)
            == Share(s.weight, Score(s.scorer, PreparedFor(hs, s.scorer, req, surviving), req, c))
  {
    hide Score, PreparedFor, Total;
    TotalSingle(hs, s, req, surviving, c);
  }

  lemma OptionalFnShare(hs: Hashes, f: Option<ScoreFn>, weight: real, req: Option<Request>, surviving: seq<Candidate>,
                        c: Candidate)
    ensures Total(hs, OptionalFn(f, weight), req, surviving, c)
            == if f.Some? then Share(weight, f.value(req, c)) else 0.0
  {
    hide Total, Share, Optional;
    if f.Some? { OptionalShare(hs, WeightedScorer(External(f.value), weight), req, surviving, c); }
    TotalSingle(hs, WeightedScorer(Cost, 0.0), req, surviving, c);
  }

  lemma SixParts(hs: Hashes, a: seq<WeightedScorer>, b: seq<WeightedScorer>, d: seq<WeightedScorer>,
                 e: seq<WeightedScorer>, f: seq<WeightedScorer>, g: seq<WeightedScorer>, req: Option<Request>,
                 surviving: seq<Candidate>, c: Candidate)
    ensures Total(hs, a + b + d + e + f + g, req, surviving, c)
            == Total(hs, a, req, surviving, c) + Total(hs, b, req, surviving, c) + Total(hs, d, req, surviving, c)
               + Total(hs, e, req, surviving, c) + Total(hs, f, req, surviving, c) + Total(hs, g, req, surviving, c)
  {
    hide Total;
    TotalAppend(hs, a, b, req, surviving, c);
    TotalAppend(hs, a + b, d, req, surviving, c);
    TotalAppend(hs, a + b + d, e, req, surviving, c);
    TotalAppend(hs, a + b + d + e, f, req, surviving, c);
    TotalAppend(hs, a + b + d + e + f, g, req, surviving, c);
  }

  /** The weights in force: those configured if any of the five base weights is positive, otherwise
      45, 15, 10, 15 and 15 parts of a hundred; the overlap weight always as configured. */
  lemma EffectiveMeans(cfg: ChainConfig)
    ensures
      var eff := Effective(cfg);
      if 0.0 < cfg.weightLoad || 0.0 < cfg.weightLatency || 0.0 < cfg.weightAffinity || 0.0 < cfg.weightCost
         || 0.0 < cfg.weightPolicy
      then eff == cfg
      else
        && (eff.weightLoad, eff.weightLatency, eff.weightAffinity) == (0.45, 0.15, 0.1)
        && (eff.weightCost, eff.weightPolicy) == (0.15, 0.15)
  {
  }

  /** Load and latency with their weights (zero read as one), and affinity, cost, policy and
      overlap with theirs where those are positive; latency against 100 milliseconds unless a
      positive reference is configured. */
  lemma ConfiguredTotal(hs: Hashes, cfg: ChainConfig, req: Option<Request>, surviving: seq<Candidate>, c: Candidate)
    ensures
      var preferred := Preferred(hs, cfg.affinityWindow, cfg.affinityBlock, req, surviving);
      var eff := Effective(cfg);
      Total(hs, Configured(cfg).scorers, req, surviving, c)
      == (if eff.weightLoad == 0.0 then 1.0 else eff.weightLoad) * LoadScore(c.queueDepth)
         + (if eff.weightLatency == 0.0 then 1.0 else eff.weightLatency)
           * LatencyScore(if 0.0 < cfg.latencyRefMs then cfg.latencyRefMs else 100.0, c.ewmaLatencyMs)
         + Share(eff.weightAffinity, if preferred != "" && c.workerID == preferred then 1.0 else 0.0)
         + Share(eff.weightCost, CostScore(HighestCost(surviving), c.costPerHour))
         + (if cfg.policy.Some? then Share(eff.weightPolicy, cfg.policy.value(req, c)) else 0.0)
         + (if cfg.overlap.Some? then Share(cfg.weightOverlap, cfg.overlap.value(req, c)) else 0.0)
  {
    hide Total, LoadScore, LatencyScore, CostScore, HighestCost, Preferred, Share, Optional, OptionalFn;
    hide Effective;
    var eff := Effective(cfg);
    var load := WeightedScorer(LeastLoaded, eff.weightLoad);
    var latency := WeightedScorer(Latency(ReferenceMs(cfg)), eff.weightLatency);
    var affinity := WeightedScorer(Affinity(cfg.affinityWindow, cfg.affinityBlock), eff.weightAffinity);
    var cost := WeightedScorer(Cost, eff.weightCost);
    SixParts(hs, [load], [latency], Optional(affinity), Optional(cost), OptionalFn(cfg.policy, eff.weightPolicy),
             OptionalFn(cfg.overlap, cfg.weightOverlap), req, surviving, c);
    TotalSingle(hs, load, req, surviving, c);
    TotalSingle(hs, latency, req, surviving, c);
    OptionalShare(hs, affinity, req, surviving, c);
    OptionalShare(hs, cost, req, surviving, c);
    OptionalFnShare(hs, cfg.policy, eff.weightPolicy, req, surviving, c);
    OptionalFnShare(hs, cfg.overlap, cfg.weightOverlap, req, surviving, c);
  }

  /** With nothing configured and no policy or overlap: 45 parts for the load score, 15 for latency
      against 100 milliseconds, 15 for cost and 10 for affinity, out of a hundred. */
  lemma DefaultTotal(hs: Hashes, cfg: ChainConfig, req: Option<Request>, surviving: seq<Candidate>, c: Candidate)
    returns (load: real, latency: real, cost: real)
    requires cfg.weightLoad <= 0.0 && cfg.weightLatency <= 0.0 && cfg.weightAffinity <= 0.0
    requires cfg.weightCost <= 0.0 && cfg.weightPolicy <= 0.0 && cfg.latencyRefMs <= 0.0
    requires cfg.policy.None? && cfg.overlap.None? && c in surviving && c.costPerHour >= 0.0
    ensures load * (1 + c.queueDepth) as real == 1.0
    ensures if c.ewmaLatencyMs <= 0.0 then latency == 1.0 else latency * (100.0 + c.ewmaLatencyMs) == 100.0
    ensures if HighestCost(surviving) == 0.0 then cost == 1.0
            else cost * HighestCost(surviving) == HighestCost(surviving) - c.costPerHour
    ensures
      var preferred := Preferred(hs, cfg.affinityWindow, cfg.affinityBlock, req, surviving);
      Total(hs, Configured(cfg).scorers, req, surviving, c)
      == 0.45 * load + 0.15 * latency + 0.15 * cost
         + (if preferred != "" && c.workerID == preferred then 0.1 else 0.0)
  {
    hide Total, LoadScore, LatencyScore, CostScore, HighestCost, Preferred, Configured;
    load := LoadScore(c.queueDepth);
    latency := LatencyScore(100.0, c.ewmaLatencyMs);
    cost := CostScore(HighestCost(surviving), c.costPerHour);
    LoadScoreShrinks(c.queueDepth, c.queueDepth);
    LatencyScoreMeans(100.0, c.ewmaLatencyMs);
    HighestCostIsMaximum(surviving);
    CostScoreMeans(HighestCost(surviving), c.costPerHour);
    ConfiguredTotal(hs, cfg, req, surviving, c);
  }

  // ----- Dominance

  /** `a` is at least as good as `b` on everything a scorer looks at. */
  ghost predicate AtLeastAsGood(s: Scorer, req: Option<Request>, a: Candidate, b: Candidate) {
    match s
    case LeastLoaded => a.queueDepth <= b.queueDepth
    case Latency(_) => a.ewmaLatencyMs <= b.ewmaLatencyMs
    case Affinity(_, _) => true
    case Cost => a.costPerHour <= b.costPerHour
    case External(f) => f(req, a) >= f(req, b)
  }

  ghost predicate Dominates(hs: Hashes, scorers: seq<WeightedScorer>, req: Option<Request>, surviving: seq<Candidate>,
                            a: Candidate, b: Candidate) {
    forall i :: 0 <= i < |scorers| ==>
      && scorers[i].weight >= 0.0
      && AtLeastAsGood(scorers[i].scorer, req, a, b)
      && (scorers[i].scorer.Affinity? ==> PreparedFor(hs, scorers[i].scorer, req, surviving).preferred != b.workerID)
  }

  /** `a` is better than `b` on something a scorer looks at. */
  ghost predicate Better(s: Scorer, prep: Prepared, req: Option<Request>, a: Candidate, b: Candidate) {
    match s
    case LeastLoaded => a.queueDepth < b.queueDepth
    case Latency(_) => a.ewmaLatencyMs < b.ewmaLatencyMs && 0.0 < b.ewmaLatencyMs
    case Affinity(_, _) => prep.preferred != "" && prep.preferred == a.workerID
    case Cost => a.costPerHour < b.costPerHour && 0.0 < b.costPerHour <= prep.maxUSD
    case External(f) => f(req, a) > f(req, b)
  }

  ghost predicate BetterAt(hs: Hashes, s: Scorer, req: Option<Request>, surviving: seq<Candidate>,
                           a: Candidate, b: Candidate) {
    Better(s, PreparedFor(hs, s, req, surviving), req, a, b)
  }

  lemma ScoreDominates(s: Scorer, prep: Prepared, req: Option<Request>, a: Candidate, b: Candidate)
    requires AtLeastAsGood(s, req, a, b) && (s.Affinity? ==> prep.preferred != b.workerID)
    ensures Score(s, prep, req, a) >= Score(s, prep, req, b)
    ensures Better(s, prep, req, a, b) ==> Score(s, prep, req, a) > Score(s, prep, req, b)
  {
    hide LoadScore, LatencyScore, CostScore;
    match s
    case LeastLoaded => LoadScoreShrinks(a.queueDepth, b.queueDepth);
    case Latency(refMs) => LatencyScoreShrinks(refMs, a.ewmaLatencyMs, b.ewmaLatencyMs);
    case Cost => CostScoreShrinks(prep.maxUSD, a.costPerHour, b.costPerHour);
    case _ =>
  }

  lemma WeightedDominates(s: real, t: real, w: real, x: real, y: real)
    requires 0.0 < w && x >= y && s >= t
    ensures s + w * x >= t + w * y && (x > y || s > t ==> s + w * x > t + w * y)
  {
    RealScale(y, x, w);
    RealScale(x, y, w);
    SumDominates(s, t, w * x, w * y);
  }

  lemma SumDominates(s: real, t: real, p: real, q: real)
    requires s >= t && p >= q
    ensures s + p >= t + q && (p > q || s > t ==> s + p > t + q)
  {
  }

  lemma WeightPositive(w: real)
    requires 0.0 <= w
    ensures 0.0 < Weight(w)
  {
  }

  lemma TotalNone(hs: Hashes, req: Option<Request>, surviving: seq<Candidate>, a: Candidate, b: Candidate)
    ensures Total(hs, [], req, surviving, a) == Total(hs, [], req, surviving, b)
  {
  }

  lemma TotalStep(hs: Hashes, scorers: seq<WeightedScorer>, req: Option<Request>, surviving: seq<Candidate>,
                  c: Candidate)
    requires scorers != []
    ensures
      var s := scorers[|scorers| - 1];
      Total(hs, scorers, req, surviving, c)
      == Total(hs, scorers[..|scorers| - 1], req, surviving, c)
         + Weight(s.weight) * Score(s.scorer, PreparedFor(hs, s.scorer, req, surviving), req, c)
  {
    hide Weight, Score, PreparedFor;
  }

  lemma {:induction false} TotalDominates(hs: Hashes, scorers: seq<WeightedScorer>, req: Option<Request>,
                                          surviving: seq<Candidate>, a: Candidate, b: Candidate)
    requires Dominates(hs, scorers, req, surviving, a, b)
    ensures Total(hs, scorers, req, surviving, a) >= Total(hs, scorers, req, surviving, b)
    ensures (exists i :: 0 <= i < |scorers| && BetterAt(hs, scorers[i].scorer, req, surviving, a, b)) ==>
              Total(hs, scorers, req, surviving, a) > Total(hs, scorers, req, surviving, b)
  {
    hide PreparedFor, Score, AtLeastAsGood, Weight, Total, Better;
    if scorers == [] {
      assert Total(hs, scorers, req, surviving, a) == Total(hs, scorers, req, surviving, b) by {
        TotalNone(hs, req, surviving, a, b);
      }
    } else {
      var init, s := scorers[..|scorers| - 1], scorers[|scorers| - 1];
      assert forall i :: 0 <= i < |init| ==> init[i] == scorers[i];
      TotalDominates(hs, init, req, surviving, a, b);
      var prep := PreparedFor(hs, s.scorer, req, surviving);
      ScoreDominates(s.scorer, prep, req, a, b);
      WeightPositive(s.weight);
      WeightedDominates(Total(hs, init, req, surviving, a), Total(hs, init, req, surviving, b), Weight(s.weight),
                        Score(s.scorer, prep, req, a), Score(s.scorer, prep, req, b));
      TotalStep(hs, scorers, req, surviving, a);
      TotalStep(hs, scorers, req, surviving, b);
      if exists i :: 0 <= i < |scorers| && BetterAt(hs, scorers[i].scorer, req, surviving, a, b) {
        var i :| 0 <= i < |scorers| && BetterAt(hs, scorers[i].scorer, req, surviving, a, b);
        assert i < |init| ==> BetterAt(hs, init[i].scorer, req, surviving, a, b);
      }
    }
  }

  /** `a` is better than `b` on something this configuration looks at: load, latency, and with a
      positive weight affinity, cost, policy or overlap. */
  ghost predicate BetterOnSomething(hs: Hashes, cfg: ChainConfig, req: Option<Request>, surviving: seq<Candidate>,
                                    a: Candidate, b: Candidate) {
    var eff := Effective(cfg);
    var preferred := Preferred(hs, cfg.affinityWindow, cfg.affinityBlock, req, surviving);
    || a.queueDepth < b.queueDepth
    || (a.ewmaLatencyMs < b.ewmaLatencyMs && 0.0 < b.ewmaLatencyMs)
    || (eff.weightAffinity > 0.0 && preferred != "" && preferred == a.workerID)
    || (eff.weightCost > 0.0 && a.costPerHour < b.costPerHour && 0.0 < b.costPerHour)
    || (eff.weightPolicy > 0.0 && cfg.policy.Some? && cfg.policy.value(req, a) > cfg.policy.value(req, b))
    || (cfg.weightOverlap > 0.0 && cfg.overlap.Some? && cfg.overlap.value(req, a) > cfg.overlap.value(req, b))
  }

  lemma SomethingIsScored(hs: Hashes, cfg: ChainConfig, req: Option<Request>, surviving: seq<Candidate>,
                          a: Candidate, b: Candidate)
    requires b in surviving && BetterOnSomething(hs, cfg, req, surviving, a, b)
    ensures
      var scorers := Configured(cfg).scorers;
      exists i :: 0 <= i < |scorers| && BetterAt(hs, scorers[i].scorer, req, surviving, a, b)
  {
    hide Preferred, HighestCost, Effective, ReferenceMs;
    var eff, scorers := Effective(cfg), Configured(cfg).scorers;
    HighestCostIsMaximum(surviving);
    var affinity := Optional(WeightedScorer(Affinity(cfg.affinityWindow, cfg.affinityBlock), eff.weightAffinity));
    var cost := Optional(WeightedScorer(Cost, eff.weightCost));
    var policy := OptionalFn(cfg.policy, eff.weightPolicy);
    var n := 2 + |affinity|;
    assert scorers[0].scorer.LeastLoaded? && scorers[1].scorer.Latency?;
    assert affinity != [] ==> scorers[2] == affinity[0];
    assert cost != [] ==> scorers[n] == cost[0];
    assert policy != [] ==> scorers[n + |cost|] == policy[0];
    var overlap := OptionalFn(cfg.overlap, cfg.weightOverlap);
    assert overlap != [] ==> scorers[n + |cost| + |policy|] == overlap[0];
    var i :=
      if a.queueDepth < b.queueDepth then 0
      else if a.ewmaLatencyMs < b.ewmaLatencyMs && 0.0 < b.ewmaLatencyMs then 1
      else if affinity != [] && BetterAt(hs, affinity[0].scorer, req, surviving, a, b) then 2
      else if cost != [] && BetterAt(hs, cost[0].scorer, req, surviving, a, b) then n
      else if policy != [] && BetterAt(hs, policy[0].scorer, req, surviving, a, b) then n + |cost|
      else n + |cost| + |policy|;
    assert BetterAt(hs, scorers[i].scorer, req, surviving, a, b);
  }

  /** Among survivors, a candidate that is at least as good on load, latency, cost, policy and
      overlap, against a rival that is not the affinity choice, never scores below it, and
      if it is better on anything the configuration looks at, it is ranked ahead. */
  lemma DominatorRanksAhead(hs: Hashes, cfg: ChainConfig, req: Option<Request>, surviving: seq<Candidate>, i: nat,
                            j: nat)
    requires DistinctIds(surviving)
    requires
      var r := Ranking(hs, Configured(cfg), req, surviving);
      i < |r| && j < |r| && Dominates(hs, Configured(cfg).scorers, req, surviving, r[i].c, r[j].c)
    ensures
      var r := Ranking(hs, Configured(cfg), req, surviving);
      r[i].total >= r[j].total && (BetterOnSomething(hs, cfg, req, surviving, r[i].c, r[j].c) ==> i < j)
  {
    hide Ranking, Total, Dominates, BetterOnSomething, BetterAt, Configured;
    var ch := Configured(cfg);
    var r := Ranking(hs, ch, req, surviving);
    RankingFacts(hs, ch, req, surviving);
    assert r[i] in r && r[j] in r;
    TotalDominates(hs, ch.scorers, req, surviving, r[i].c, r[j].c);
    if BetterOnSomething(hs, cfg, req, surviving, r[i].c, r[j].c) {
      SomethingIsScored(hs, cfg, req, surviving, r[i].c, r[j].c);
    }
    if j < i { assert Before(r[j], r[i]); }
  }
}
