/** Candidates, requests and the filters that decide who may serve a request. */
module Filters {
  import opened Prelude

  datatype Candidate = Candidate(workerID: string, endpoint: string, queueDepth: nat, healthy: bool, ready: bool,
                                 ewmaLatencyMs: real, models: seq<string>, maxContext: nat, costPerHour: real,
                                 costClass: string, runtime: string, vramGB: real, gpu: string,
                                 capabilities: map<string, string>)

  datatype Request = Request(baseModel: string, adapter: string, prompt: string, affinityKey: string, minContext: nat)

  datatype Filter = Health | Model | Capability | Admission(limit: int)

  // ----- Model names

  predicate HasPrefix(s: string, p: string) {
    |p| <= |s| && s[..|p|] == p
  }

  /** Position of the first '#', or the length if there is none. */
  function Hash(s: string): (i: nat)
    ensures i <= |s| && (i < |s| ==> s[i] == '#') && forall k :: 0 <= k < i ==> s[k] != '#'
  {
    if s == "" then 0 else if s[0] == '#' then 0 else 1 + Hash(s[1..])
  }

  function BaseOf(m: string): string {
    m[..Hash(m)]
  }

  function AdapterOf(m: string): string {
    if Hash(m) < |m| then m[Hash(m) + 1..] else ""
  }

  /** One offered model name against a request. */
  predicate Matches(m: string, base: string, adapter: string) {
    || m == Qualified(base, adapter) || m == base
    || (adapter == "" && HasPrefix(m, base + "#"))
    || (m != "" && BaseOf(m) == base && (adapter == "" || AdapterOf(m) == adapter))
  }

  predicate ServesModel(models: seq<string>, base: string, adapter: string) {
    exists i :: 0 <= i < |models| && Matches(models[i], base, adapter)
  }

  method ServesModelLoop(models: seq<string>, base: string, adapter: string) returns (ok: bool)
    ensures ok == ServesModel(models, base, adapter)
  {
    var want := Qualified(base, adapter);
    for i := 0 to |models|
      invariant forall k :: 0 <= k < i ==> !Matches(models[k], base, adapter)
    {
      var m := models[i];
      if m == want || m == base { return true; }
      if adapter == "" && HasPrefix(m, base + "#") { return true; }
      if m == "" { continue; }
      var at := Hash(m);
      var ma := if at < |m| then m[at + 1..] else "";
      if m[..at] == base && (adapter == "" || ma == adapter) { return true; }
    }
    return false;
  }

  lemma {:induction false} HashOfJoin(base: string, rest: string)
    requires '#' !in base
    ensures Hash(base + "#" + rest) == |base| && Hash(base) == |base|
  {
    var m := base + "#" + rest;
    assert m[|base|] == '#' && forall k :: 0 <= k < |base| ==> m[k] == base[k];
  }

  /** Splitting a name undoes joining a base without '#' and an adapter; without an adapter the name
      is the base itself. */
  lemma SplitUndoesJoin(base: string, adapter: string)
    requires '#' !in base
    ensures BaseOf(Qualified(base, adapter)) == base && AdapterOf(Qualified(base, adapter)) == adapter
    ensures adapter == "" ==> Qualified(base, adapter) == base
    ensures adapter != "" ==> Qualified(base, adapter) == base + "#" + adapter
  {
    HashOfJoin(base, adapter);
    if adapter != "" { assert (base + "#" + adapter)[|base| + 1..] == adapter; }
  }

  /** What the four tests amount to. For a base name without '#', a model name matches exactly
      if its part before the first '#' is the base, and the request names no adapter, or the
      model has none, or both name the same one. For a base name with '#' only the literal
      comparisons can succeed. */
  lemma MatchesMeans(m: string, base: string, adapter: string)
    requires base != ""
    ensures Matches(m, base, adapter)
            <==> if '#' !in base then BaseOf(m) == base && (adapter == "" || m == base || AdapterOf(m) == adapter)
                 else m == base || m == Qualified(base, adapter) || (adapter == "" && HasPrefix(m, base + "#"))
  {
    if '#' !in base {
      HashOfJoin(base, adapter);
      if m == Qualified(base, adapter) && adapter != "" {
        assert m[|base| + 1..] == adapter;
      }
      if HasPrefix(m, base + "#") {
        HashOfJoin(base, m[|base| + 1..]);
        assert m == base + "#" + m[|base| + 1..];
      }
    }
  }

  predicate SatisfiesCapability(r: Request, c: Candidate) {
    && !(r.minContext > 0 && c.maxContext > 0 && c.maxContext < r.minContext)
    && (r.baseModel == "" || (|c.models| != 0 && ServesModel(c.models, r.baseModel, r.adapter)))
  }

  // ----- Filtering

  predicate Passes(f: Filter, req: Option<Request>, c: Candidate) {
    match f
    case Health => c.healthy && c.ready
    case Model =>
      req.Some? && req.value.baseModel != "" && ServesModel(c.models, req.value.baseModel, req.value.adapter)
    case Capability => req.None? || SatisfiesCapability(req.value, c)
    case Admission(limit) => limit <= 0 || c.queueDepth < limit
  }

  function Kept(f: Filter, req: Option<Request>, cands: seq<Candidate>): seq<Candidate> {
    if cands == [] then []
    else
      var c := cands[|cands| - 1];
      Kept(f, req, cands[..|cands| - 1]) + if Passes(f, req, c) then [c] else []
  }

  method ApplyFilter(f: Filter, req: Option<Request>, cands: seq<Candidate>) returns (out: seq<Candidate>)
    ensures out == Kept(f, req, cands)
  {
    hide SatisfiesCapability, ServesModel;
    out := [];
    for i := 0 to |cands|
      invariant out == Kept(f, req, cands[..i])
    {
      assert cands[..i + 1][..i] == cands[..i];
      var ok := CheckCandidate(f, req, cands[i]);
      if ok { out := out + [cands[i]]; }
    }
    assert cands[..|cands|] == cands;
  }

  method CheckCandidate(f: Filter, req: Option<Request>, c: Candidate) returns (ok: bool)
    ensures ok == Passes(f, req, c)
  {
    match f {
      case Health => return c.healthy && c.ready;
      case Model =>
        if req.None? || req.value.baseModel == "" { return false; }
        ok := ServesModelLoop(c.models, req.value.baseModel, req.value.adapter);
      case Capability =>
        if req.None? { return true; }
        var r := req.value;
        if r.minContext > 0 && c.maxContext > 0 && c.maxContext < r.minContext { return false; }
        if r.baseModel == "" { return true; }
        if |c.models| == 0 { return false; }
        ok := ServesModelLoop(c.models, r.baseModel, r.adapter);
      case Admission(limit) => return limit <= 0 || c.queueDepth < limit;
    }
  }

  lemma PrefixMeans(s: string, p: string)
    ensures HasPrefix(s, p) <==> exists rest :: s == p + rest
  {
    if HasPrefix(s, p) { assert s == p + s[|p|..]; }
  }

  /** What each filter lets through, on its own: health and readiness; a named model that some
      offered name matches; enough context where both are known, and a match unless no model is
      named; a queue shorter than a positive limit. Without a request the model filter lets nobody
      and the capability filter everybody through. */
  lemma PassesMeans(f: Filter, req: Option<Request>, c: Candidate)
    ensures
      var named := req.Some? && req.value.baseModel != "";
      var matched := named && exists m :: m in c.models && Matches(m, req.value.baseModel, req.value.adapter);
      Passes(f, req, c)
      <==> match f
           case Health => c.healthy && c.ready
           case Model => matched
           case Capability =>
             && (req.None? || req.value.minContext == 0 || c.maxContext == 0 || req.value.minContext <= c.maxContext)
             && (named ==> matched)
           case Admission(limit) => limit > 0 ==> c.queueDepth < limit
  {
    hide Matches;
  }

  /** A filter keeps every occurrence of what passes and nothing else. */
  lemma {:induction false} KeptCounts(f: Filter, req: Option<Request>, cands: seq<Candidate>, c: Candidate)
    ensures multiset(Kept(f, req, cands))[c] == if Passes(f, req, c) then multiset(cands)[c] else 0
  {
    hide Passes;
    if cands != [] {
      var init, last := cands[..|cands| - 1], cands[|cands| - 1];
      KeptCounts(f, req, init, c);
      assert cands == init + [last];
    }
  }

  lemma KeptMembers(f: Filter, req: Option<Request>, cands: seq<Candidate>, c: Candidate)
    ensures c in Kept(f, req, cands) <==> c in cands && Passes(f, req, c)
  {
    hide Passes, Kept;
    KeptCounts(f, req, cands, c);
    assert c in cands <==> multiset(cands)[c] > 0;
    assert c in Kept(f, req, cands) <==> multiset(Kept(f, req, cands))[c] > 0;
  }
}
