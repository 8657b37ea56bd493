/** From reports to lookups: what the registry knows about a worker after any run of events, against
    what the prefix lookup makes of it. */
module CacheLookup {
  import opened Prelude
  import opened BlockKeys
  import C = CacheIndexing

  /** Every event with which the worker stores blocks reports one whole prompt: `said[k]`, cut in
      some way, under the event's own adapter. */
  ghost predicate WholeReports(h: BlockHash, blocks: iset<Block>, log: seq<C.Event>, w: string, said: seq<seq<Tokens>>)
    requires |said| == |log|
  {
    forall k :: 0 <= k < |log| && log[k].kind == C.StoredEvent && log[k].workerID == w ==>
      && log[k].hashes == ChainHashes(h, log[k].adapter, said[k])
      && Among(h, log[k].adapter, said[k], blocks)
  }

  /** Event `k` stores the hash for the worker and no later event takes it away. */
  ghost predicate Stands(log: seq<C.Event>, w: string, x: nat, k: nat) {
    && k < |log| && C.Stores(log[k], w, x)
    && forall j :: k < j < |log| ==> !C.Forgets(log[j], w, x)
  }

  lemma {:induction false} RememberedIffStands(log: seq<C.Event>, w: string, x: nat)
    ensures C.Replay(log, w, x).Some? <==> exists k: nat :: Stands(log, w, x, k)
  {
    hide C.Stores, C.Forgets;
    if log != [] {
      var n := |log| - 1;
      var init, e := log[..n], log[n];
      RememberedIffStands(init, w, x);
      if C.Stores(e, w, x) {
        assert Stands(log, w, x, n);
      } else if C.Forgets(e, w, x) {
        assert forall k: nat :: Stands(log, w, x, k) ==> k == n;
      } else if C.Replay(init, w, x).Some? {
        var k: nat :| Stands(init, w, x, k);
        assert Stands(log, w, x, k);
      } else {
        assert forall k: nat :: Stands(log, w, x, k) ==> k < n && Stands(init, w, x, k);
      }
    }
  }

  ghost function Known(log: seq<C.Event>, w: string): map<nat, real> {
    C.GetOr(C.Run(log).byWorker, w, map[])
  }

  lemma KnownIffStands(log: seq<C.Event>, w: string, x: nat)
    ensures x in Known(log, w) <==> exists k: nat :: Stands(log, w, x, k)
  {
    hide C.Run, Stands;
    C.IndexRefinesLog(log, "", x, w);
    RememberedIffStands(log, w, x);
  }

  /** Report `k` of the worker, under the query's adapter, shares more than `i` chunks with the query
      and the worker has not since been told to forget the query's block `i`. */
  ghost predicate Covers(h: BlockHash, log: seq<C.Event>, w: string, said: seq<seq<Tokens>>, query: Prompt, i: nat,
                         k: nat)
    requires |said| == |log| && i < |query.chunks|
  {
    && k < |log| && w != "" && log[k].kind == C.StoredEvent && log[k].workerID == w
    && log[k].adapter == query.adapter && i < Shared(query.chunks, said[k])
    && forall j :: k < j < |log| ==> !C.Forgets(log[j], w, ChainHashes(h, query.adapter, query.chunks)[i])
  }

  ghost predicate Covered(h: BlockHash, log: seq<C.Event>, w: string, said: seq<seq<Tokens>>, query: Prompt, i: nat)
    requires |said| == |log| && i < |query.chunks|
  {
    exists k: nat :: Covers(h, log, w, said, query, i, k)
  }

  lemma StandsIffCovers(h: BlockHash, blocks: iset<Block>, log: seq<C.Event>, w: string, said: seq<seq<Tokens>>,
                        query: Prompt, i: nat, k: nat)
    requires Separates(h, blocks) && |said| == |log| && WholeReports(h, blocks, log, w, said)
    requires Among(h, query.adapter, query.chunks, blocks) && i < |query.chunks|
    ensures Stands(log, w, ChainHashes(h, query.adapter, query.chunks)[i], k) <==> Covers(h, log, w, said, query, i, k)
  {
    hide ChainHashes, Separates, Among, C.Forgets;
    if k < |log| && log[k].kind == C.StoredEvent && log[k].workerID == w {
      HashIsShared(h, blocks, query.adapter, query.chunks, i, log[k].adapter, said[k]);
    }
  }

  lemma KnownIffCovered(h: BlockHash, blocks: iset<Block>, log: seq<C.Event>, w: string, said: seq<seq<Tokens>>,
                        query: Prompt, i: nat)
    requires Separates(h, blocks) && |said| == |log| && WholeReports(h, blocks, log, w, said)
    requires Among(h, query.adapter, query.chunks, blocks) && i < |query.chunks|
    ensures ChainHashes(h, query.adapter, query.chunks)[i] in Known(log, w)
            <==> Covered(h, log, w, said, query, i)
  {
    hide ChainHashes, Separates, Among, WholeReports, Known, Stands, Covers;
    var x := ChainHashes(h, query.adapter, query.chunks)[i];
    KnownIffStands(log, w, x);
    forall k: nat ensures Stands(log, w, x, k) <==> Covers(h, log, w, said, query, i, k) {
      StandsIffCovers(h, blocks, log, w, said, query, i, k);
    }
  }

  /** End to end: after any run of stored, removed, cleared and unknown events of all workers,
      looking a query up in what the registry publishes for a worker counts the leading blocks
      that are each covered by a report of that worker under the query's own adapter. Reports under
      other adapters, although kept in the same map, count for nothing. */
  lemma LookupAfterAnyEvents(h: BlockHash, blocks: iset<Block>, log: seq<C.Event>, w: string, said: seq<seq<Tokens>>,
                             query: Prompt)
    requires Separates(h, blocks) && |said| == |log| && WholeReports(h, blocks, log, w, said)
    requires Among(h, query.adapter, query.chunks, blocks)
    ensures
      var n := Leading(ChainHashes(h, query.adapter, query.chunks), Known(log, w));
      && (forall i :: 0 <= i < n ==> Covered(h, log, w, said, query, i))
      && (n < |query.chunks| ==> !Covered(h, log, w, said, query, n))
  {
    hide ChainHashes, Separates, Among, WholeReports, Known, Covered;
    var n := Leading(ChainHashes(h, query.adapter, query.chunks), Known(log, w));
    forall i | 0 <= i < n ensures Covered(h, log, w, said, query, i) {
      KnownIffCovered(h, blocks, log, w, said, query, i);
    }
    if n < |query.chunks| { KnownIffCovered(h, blocks, log, w, said, query, n); }
  }

  /** From position `k` on, where the worker was new or had just been cleared, nothing of the
      worker's is removed or cleared. */
  ghost predicate NothingForgotten(log: seq<C.Event>, k: nat, w: string) {
    && k <= |log| && w != ""
    && (k == 0 || (log[k - 1].kind == C.ClearedEvent && log[k - 1].workerID == w))
    && (forall i :: k <= i < |log| && log[i].workerID == w ==>
         log[i].kind != C.RemovedEvent && log[i].kind != C.ClearedEvent)
  }

  ghost predicate ReportedSince(log: seq<C.Event>, k: nat, w: string, adapter: string, m: nat) {
    k <= m < |log| && log[m].kind == C.StoredEvent && log[m].workerID == w && log[m].adapter == adapter
  }

  lemma CoversIffReported(h: BlockHash, log: seq<C.Event>, k: nat, w: string, said: seq<seq<Tokens>>, query: Prompt,
                          i: nat, m: nat)
    requires |said| == |log| && NothingForgotten(log, k, w) && i < |query.chunks|
    ensures Covers(h, log, w, said, query, i, m)
            <==> ReportedSince(log, k, w, query.adapter, m) && i < Shared(query.chunks, said[m])
  {
    hide ChainHashes;
    var x := ChainHashes(h, query.adapter, query.chunks)[i];
    if m < k && k <= |log| { assert C.Forgets(log[k - 1], w, x) && k - 1 < |log|; }
    if m == k - 1 && k > 0 { assert log[m].kind == C.ClearedEvent; }
  }

  /** With nothing forgotten since the last clear, that is the longest leading run of chunks the
      query shares with one prompt reported since then under its adapter. */
  lemma LookupFindsReportedPrefix(h: BlockHash, blocks: iset<Block>, log: seq<C.Event>, k: nat, w: string,
                                  said: seq<seq<Tokens>>, query: Prompt)
    requires Separates(h, blocks) && |said| == |log| && WholeReports(h, blocks, log, w, said)
    requires NothingForgotten(log, k, w) && Among(h, query.adapter, query.chunks, blocks)
    ensures
      var n := Leading(ChainHashes(h, query.adapter, query.chunks), Known(log, w));
      && (forall m: nat :: ReportedSince(log, k, w, query.adapter, m) ==> Shared(query.chunks, said[m]) <= n)
      && (n > 0 ==> exists m: nat :: ReportedSince(log, k, w, query.adapter, m) && Shared(query.chunks, said[m]) == n)
  {
    hide ChainHashes, Separates, Among, Known, Covers, NothingForgotten;
    LookupAfterAnyEvents(h, blocks, log, w, said, query);
    var n := Leading(ChainHashes(h, query.adapter, query.chunks), Known(log, w));
    forall m: nat | ReportedSince(log, k, w, query.adapter, m) ensures Shared(query.chunks, said[m]) <= n {
      if n < Shared(query.chunks, said[m]) { CoversIffReported(h, log, k, w, said, query, n, m); }
    }
    if n > 0 {
      assert Covered(h, log, w, said, query, n - 1);
      var m: nat :| Covers(h, log, w, said, query, n - 1, m);
      CoversIffReported(h, log, k, w, said, query, n - 1, m);
    }
  }

  // ----- What a lookup is worth

  /** The tier named by the last event that stored the hash for the worker, if it still stands. */
  ghost function StandingTier(log: seq<C.Event>, w: string, x: nat): Option<string> {
    if log == [] then None
    else
      var e := log[|log| - 1];
      if e.workerID == w && e.kind == C.StoredEvent && w != "" && x in e.hashes then Some(e.tier)
      else if e.workerID == w && (e.kind == C.ClearedEvent || (e.kind == C.RemovedEvent && x in e.hashes)) then None
      else StandingTier(log[..|log| - 1], w, x)
  }

  lemma {:induction false} WeightFollowsTier(log: seq<C.Event>, w: string, x: nat)
    ensures
      var tier := StandingTier(log, w, x);
      C.Replay(log, w, x) == if tier.None? then None else Some(if tier.value == "cpu" then 0.8 else 1.0)
  {
    if log != [] { WeightFollowsTier(log[..|log| - 1], w, x); }
  }

  ghost function OnCpu(log: seq<C.Event>, w: string, want: seq<nat>): nat {
    if want == [] then 0
    else
      OnCpu(log, w, want[..|want| - 1]) + if StandingTier(log, w, want[|want| - 1]) == Some("cpu") then 1 else 0
  }

  /** After any events, found blocks are worth 256 each, and four fifths of that where the last report
      that stands put the block on the CPU. */
  lemma {:induction false} LookupIsWorth(log: seq<C.Event>, w: string, want: seq<nat>)
    requires forall i :: 0 <= i < |want| ==> want[i] in Known(log, w)
    ensures
      var cpu := OnCpu(log, w, want);
      cpu <= |want| && Worths(want, Known(log, w)) == 256.0 * (|want| - cpu) as real + 204.8 * cpu as real
  {
    hide Known;
    if want != [] {
      var n := |want| - 1;
      LookupIsWorth(log, w, want[..n]);
      WorthOfOne(log, w, want[n]);
    }
  }

  lemma WorthOfOne(log: seq<C.Event>, w: string, x: nat)
    requires x in Known(log, w)
    ensures Worth(Known(log, w)[x]) == if StandingTier(log, w, x) == Some("cpu") then 204.8 else 256.0
  {
    hide C.Run, StandingTier;
    C.IndexRefinesLog(log, "", x, w);
    WeightFollowsTier(log, w, x);
  }
}
