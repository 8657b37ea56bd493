/** The scorers of the scheduling chain. */
module Scoring {
  import opened Prelude
  import opened Filters
  import R = Rendezvous

  type Positive = r: real | r > 0.0 witness 1.0

  /** Policy weights and cache overlap: any score of request and candidate alone. */
  type ScoreFn = (Option<Request>, Candidate) -> real

  datatype Scorer =
    | LeastLoaded
    | Latency(refMs: Positive)
    | Affinity(window: int, blockBytes: int)
    | Cost
    | External(score: ScoreFn)

  datatype Hashes = Hashes(score: R.Score, sum: R.Sum)

  // ----- Affinity

  predicate HasLocalCache(c: Candidate) {
    && !("no_local_kv" in c.capabilities && c.capabilities["no_local_kv"] == "true")
    && !("provider" in c.capabilities && c.capabilities["provider"] == "true")
    && c.runtime != "provider"
  }

  function CacheIds(cands: seq<Candidate>): seq<string> {
    if cands == [] then []
    else
      var c := cands[|cands| - 1];
      CacheIds(cands[..|cands| - 1]) + if HasLocalCache(c) then [c.workerID] else []
  }

  function AffinityText(r: Request): string {
    if r.affinityKey != "" then r.affinityKey else r.prompt
  }

  /** The worker that gets the affinity point, or the empty name. */
  function Preferred(hs: Hashes, window: int, blockBytes: int, req: Option<Request>, cands: seq<Candidate>): string {
    if req.None? || AffinityText(req.value) == "" then ""
    else R.Pick(hs.score, R.PrefixKey(hs.sum, AffinityText(req.value), window, blockBytes), CacheIds(cands))
  }

  method PrepareAffinity(hs: Hashes, window: int, blockBytes: int, req: Option<Request>, cands: seq<Candidate>)
    returns (preferred: string)
    ensures preferred == Preferred(hs, window, blockBytes, req, cands)
  {
    preferred := "";
    if req.None? || |cands| == 0 { return; }
    var prompt := req.value.prompt;
    if req.value.affinityKey != "" { prompt := req.value.affinityKey; }
    if prompt == "" { return; }
    var ids := [];
    for i := 0 to |cands|
      invariant ids == CacheIds(cands[..i])
    {
      assert cands[..i + 1][..i] == cands[..i];
      var c := cands[i];
      if "no_local_kv" in c.capabilities && c.capabilities["no_local_kv"] == "true" { continue; }
      if "provider" in c.capabilities && c.capabilities["provider"] == "true" { continue; }
      if c.runtime == "provider" { continue; }
      ids := ids + [c.workerID];
    }
    assert cands[..|cands|] == cands;
    preferred := R.HRWPick(hs.score, R.PrefixKey(hs.sum, prompt, window, blockBytes), ids);
  }

  lemma {:induction false} CacheIdsMembers(cands: seq<Candidate>, id: string)
    ensures id in CacheIds(cands) <==> exists c :: c in cands && HasLocalCache(c) && c.workerID == id
  {
    hide HasLocalCache;
    if cands != [] {
      var init, last := cands[..|cands| - 1], cands[|cands| - 1];
      CacheIdsMembers(init, id);
      assert cands == init + [last];
      assert forall c :: c in cands <==> c in init || c == last;
    }
  }

  /** The worker keeps a cache of its own: it is no provider and does not say otherwise. */
  ghost predicate KeepsCache(c: Candidate) {
    && c.runtime != "provider"
    && ("no_local_kv" in c.capabilities ==> c.capabilities["no_local_kv"] != "true")
    && ("provider" in c.capabilities ==> c.capabilities["provider"] != "true")
  }

  /** The preferred worker is the one of highest score, then smallest name, for the key of the
      request's affinity key, or else of its prompt, among the candidates that keep a cache.
      Nobody is preferred exactly without a request, without a text, or without such candidates. */
  lemma PreferredMeans(hs: Hashes, window: int, blockBytes: int, req: Option<Request>, cands: seq<Candidate>)
    requires forall c :: c in cands ==> c.workerID != ""
    ensures
      var w := Preferred(hs, window, blockBytes, req, cands);
      var text :=
        if req.None? then "" else if req.value.affinityKey != "" then req.value.affinityKey else req.value.prompt;
      && (w == "" <==> text == "" || forall c :: c in cands ==> !KeepsCache(c))
      && (w != "" ==>
            var key := R.PrefixKey(hs.sum, text, window, blockBytes);
            && (exists c :: c in cands && KeepsCache(c) && c.workerID == w)
            && forall c :: c in cands && KeepsCache(c) && c.workerID != w ==>
                 || hs.score(key, c.workerID) < hs.score(key, w)
                 || (hs.score(key, c.workerID) == hs.score(key, w) && R.TextOrder.Less(w, c.workerID)))
  {
    hide R.Pick, R.PrefixKey, R.TextOrder.Less, CacheIds;
    assert forall c :: HasLocalCache(c) <==> KeepsCache(c);
    hide HasLocalCache, KeepsCache;
    var ids := CacheIds(cands);
    forall id ensures id in ids <==> exists c :: c in cands && HasLocalCache(c) && c.workerID == id {
      CacheIdsMembers(cands, id);
    }
    if req.Some? && AffinityText(req.value) != "" {
      var key := R.PrefixKey(hs.sum, AffinityText(req.value), window, blockBytes);
      if ids == [] {
        NoPick(hs, key);
        forall c | c in cands ensures !HasLocalCache(c) {
          assert HasLocalCache(c) ==> c.workerID in ids;
        }
      } else {
        R.PickIsBest(hs.score, key, ids);
        forall c | c in cands && HasLocalCache(c) ensures c.workerID in ids {
        }
      }
    }
  }

  lemma NoPick(hs: Hashes, key: nat)
    ensures R.Pick(hs.score, key, []) == ""
  {
  }

  /** Session affinity: two prompts that agree on their first window of bytes, a window of at
      least one block, prefer the same worker as long as that worker is still a candidate,
      whatever other candidates have gone. */
  lemma AffinityIsStable(hs: Hashes, window: int, blockBytes: int, q: Request, r: Request,
                         xs: seq<Candidate>, ys: seq<Candidate>)
    requires R.Block(blockBytes) <= R.Window(window)
    requires R.AgreeOnWindow(AffinityText(q), AffinityText(r), window)
    requires forall id :: id in CacheIds(ys) ==> id in CacheIds(xs)
    requires Preferred(hs, window, blockBytes, Some(q), xs) in CacheIds(ys)
    ensures Preferred(hs, window, blockBytes, Some(r), ys) == Preferred(hs, window, blockBytes, Some(q), xs)
  {
    hide CacheIds, R.PrefixKey, R.Pick;
    R.SameWindowSameKey(hs.sum, AffinityText(q), AffinityText(r), window, blockBytes);
    R.PickSurvives(hs.score, R.PrefixKey(hs.sum, AffinityText(q), window, blockBytes), CacheIds(xs), CacheIds(ys));
  }

  // ----- Cost

  function HighestCost(cands: seq<Candidate>): real {
    if cands == [] then 0.0
    else
      var m := HighestCost(cands[..|cands| - 1]);
      if cands[|cands| - 1].costPerHour > m then cands[|cands| - 1].costPerHour else m
  }

  method PrepareCost(cands: seq<Candidate>) returns (max: real)
    ensures max == HighestCost(cands)
  {
    max := 0.0;
    for i := 0 to |cands|
      invariant max == HighestCost(cands[..i])
    {
      assert cands[..i + 1][..i] == cands[..i];
      if cands[i].costPerHour > max { max := cands[i].costPerHour; }
    }
    assert cands[..|cands|] == cands;
  }

  lemma {:induction false} HighestCostIsMaximum(cands: seq<Candidate>)
    ensures 0.0 <= HighestCost(cands) && forall c :: c in cands ==> c.costPerHour <= HighestCost(cands)
    ensures HighestCost(cands) == 0.0 || exists c :: c in cands && c.costPerHour == HighestCost(cands)
  {
    if cands != [] {
      var init, last := cands[..|cands| - 1], cands[|cands| - 1];
      HighestCostIsMaximum(init);
      assert cands == init + [last];
      assert forall c :: c in cands <==> c in init || c == last;
    }
  }

  function CostScore(maxUSD: real, cost: real): real {
    if maxUSD <= 0.0 then 1.0
    else
      var ratio := cost / maxUSD;
      1.0 - if ratio < 0.0 then 0.0 else if ratio > 1.0 then 1.0 else ratio
  }

  // ----- Scores

  function LoadScore(depth: nat): real {
    1.0 / (1 + depth) as real
  }

  function LatencyScore(refMs: Positive, ewma: real): real {
    if ewma <= 0.0 then 1.0
    else
      PositiveQuotient(ewma, refMs);
      1.0 / (1.0 + ewma / refMs)
  }

  lemma PositiveQuotient(x: real, y: real)
    requires 0.0 < x && 0.0 < y
    ensures 0.0 < x / y
  {
    assert x / y * y == x;
    RealScale(x / y, 0.0, y);
  }

  /** What `Prepare` leaves in the scorers that have state. */
  datatype Prepared = Prepared(preferred: string, maxUSD: real)

  function PreparedFor(hs: Hashes, s: Scorer, req: Option<Request>, cands: seq<Candidate>): Prepared {
    match s
    case Affinity(w, b) => Prepared(Preferred(hs, w, b, req, cands), 0.0)
    case Cost => Prepared("", HighestCost(cands))
    case _ => Prepared("", 0.0)
  }

  function Score(s: Scorer, prep: Prepared, req: Option<Request>, c: Candidate): real {
    match s
    case LeastLoaded => LoadScore(c.queueDepth)
    case Latency(refMs) => LatencyScore(refMs, c.ewmaLatencyMs)
    case Affinity(_, _) => if prep.preferred != "" && c.workerID == prep.preferred then 1.0 else 0.0
    case Cost => CostScore(prep.maxUSD, c.costPerHour)
    case External(f) => f(req, c)
  }

  /** Preparation depends only on which candidates there are. */
  lemma PreparedIgnoresOrder(hs: Hashes, s: Scorer, req: Option<Request>, xs: seq<Candidate>, ys: seq<Candidate>)
    requires forall c :: c in xs <==> c in ys
    ensures PreparedFor(hs, s, req, xs) == PreparedFor(hs, s, req, ys)
  {
    hide CacheIds, HighestCost, HasLocalCache, R.Pick, R.PrefixKey;
    if s.Affinity? && req.Some? {
      forall id ensures id in CacheIds(xs) <==> id in CacheIds(ys) {
        CacheIdsMembers(xs, id);
        CacheIdsMembers(ys, id);
      }
      R.PickIgnoresOrder(hs.score, R.PrefixKey(hs.sum, AffinityText(req.value), s.window, s.blockBytes),
                         CacheIds(xs), CacheIds(ys));
    } else if s.Cost? {
      HighestCostIsMaximum(xs);
      HighestCostIsMaximum(ys);
    }
  }

  // ----- Monotonicity

  lemma ReciprocalShrinks(a: real, b: real)
    requires 0.0 < a <= b
    ensures 1.0 / b <= 1.0 / a && (a < b ==> 1.0 / b < 1.0 / a)
  {
    assert 1.0 / a * a == 1.0 && 1.0 / b * b == 1.0;
    RealScale(1.0 / a, 0.0, a);
    RealScale(a, b, 1.0 / a);
    RealScale(1.0 / b, 1.0 / a, b);
    RealScale(1.0 / a, 1.0 / b, b);
    RealScale(b, a, 1.0 / a);
  }

  /** The load score is the fraction of one that a queue of that depth leaves a newcomer. */
  lemma LoadScoreShrinks(a: nat, b: nat)
    requires a <= b
    ensures LoadScore(a) * (1 + a) as real == 1.0 && 0.0 < LoadScore(b)
    ensures LoadScore(b) <= LoadScore(a) && (a < b ==> LoadScore(b) < LoadScore(a))
  {
    ReciprocalShrinks((1 + a) as real, (1 + b) as real);
    PositiveQuotient(1.0, (1 + b) as real);
  }

  /** The latency score is one without a measurement, one half at the reference latency, and falls
      strictly: it is the reference's share of reference plus latency. */
  lemma LatencyScoreMeans(refMs: Positive, ewma: real)
    ensures ewma <= 0.0 ==> LatencyScore(refMs, ewma) == 1.0
    ensures ewma > 0.0 ==> 0.0 < LatencyScore(refMs, ewma) < 1.0
                           && LatencyScore(refMs, ewma) * (refMs + ewma) == refMs
  {
    if ewma > 0.0 {
      PositiveQuotient(ewma, refMs);
      var q, score := ewma / refMs, LatencyScore(refMs, ewma);
      PositiveQuotient(1.0, 1.0 + q);
      ReciprocalShrinks(1.0, 1.0 + q);
      assert q * refMs == ewma && score * (1.0 + q) == 1.0;
      Regroup(score, q, refMs);
    }
  }

  lemma Regroup(score: real, q: real, ref: real)
    requires score * (1.0 + q) == 1.0
    ensures score * (ref + q * ref) == ref
  {
    calc {
      score * (ref + q * ref);
      score * ((1.0 + q) * ref);
      (score * (1.0 + q)) * ref;
      ref;
    }
  }

  lemma LatencyScoreShrinks(refMs: Positive, a: real, b: real)
    requires a <= b
    ensures LatencyScore(refMs, b) <= LatencyScore(refMs, a)
    ensures a < b && 0.0 < b ==> LatencyScore(refMs, b) < LatencyScore(refMs, a)
  {
    if b > 0.0 {
      PositiveQuotient(b, refMs);
      ReciprocalShrinks(1.0, 1.0 + b / refMs);
      if a > 0.0 {
        PositiveQuotient(a, refMs);
        assert a / refMs * refMs == a && b / refMs * refMs == b;
        RealScale(a / refMs, b / refMs, refMs);
        RealScale(b / refMs, a / refMs, refMs);
        ReciprocalShrinks(1.0 + a / refMs, 1.0 + b / refMs);
      }
    }
  }

  /** The cost score is the share of the highest cost that a candidate saves; costs outside the
      range from zero to that count as its ends. */
  lemma CostScoreMeans(maxUSD: real, cost: real)
    ensures maxUSD <= 0.0 || cost <= 0.0 ==> CostScore(maxUSD, cost) == 1.0
    ensures 0.0 < maxUSD <= cost ==> CostScore(maxUSD, cost) == 0.0
    ensures 0.0 < maxUSD && 0.0 <= cost <= maxUSD ==>
              CostScore(maxUSD, cost) * maxUSD == maxUSD - cost && 0.0 <= CostScore(maxUSD, cost) <= 1.0
  {
    if maxUSD > 0.0 {
      var q := cost / maxUSD;
      assert q * maxUSD == cost;
      RealScale(q, 0.0, maxUSD);
      RealScale(0.0, q, maxUSD);
      RealScale(q, 1.0, maxUSD);
      RealScale(1.0, q, maxUSD);
      assert (1.0 - q) * maxUSD == maxUSD - q * maxUSD;
    }
  }

  lemma CostScoreShrinks(maxUSD: real, a: real, b: real)
    requires a <= b
    ensures CostScore(maxUSD, b) <= CostScore(maxUSD, a)
    ensures a < b && 0.0 < b <= maxUSD ==> CostScore(maxUSD, b) < CostScore(maxUSD, a)
  {
    if maxUSD > 0.0 {
      assert a / maxUSD * maxUSD == a && b / maxUSD * maxUSD == b;
      RealScale(a / maxUSD, b / maxUSD, maxUSD);
      RealScale(b / maxUSD, a / maxUSD, maxUSD);
      RealScale(b / maxUSD, 0.0, maxUSD);
      RealScale(b / maxUSD, 1.0, maxUSD);
    }
  }
}
