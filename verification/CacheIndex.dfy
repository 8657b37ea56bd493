/** The registry of cached blocks: two indexes of the same facts, kept by replaying events. */
module CacheIndexing {
  import opened Prelude

  datatype Location = Location(workerID: string, tier: string, weight: real)

  type Locations = map<string, Location>
  type Blocks = map<nat, Locations>

  /** Namespace to hash to worker, and worker to hash to weight. */
  datatype Index = Index(byBlock: map<string, Blocks>, byWorker: map<string, map<nat, real>>)

  const EMPTY := Index(map[], map[])

  function TierWeight(tier: string): real {
    if tier == "cpu" then 0.8 else 1.0
  }

  function GetOr<K, V>(m: map<K, V>, k: K, default: V): V {
    if k in m then m[k] else default
  }

  // ----- The three updates

  function Prepared(idx: Index, ns: string, w: string): Index {
    Index(idx.byBlock[ns := GetOr(idx.byBlock, ns, map[])], idx.byWorker[w := GetOr(idx.byWorker, w, map[])])
  }

  function StoreOne(idx: Index, ns: string, w: string, tier: string, h: nat): Index {
    var blocks := GetOr(idx.byBlock, ns, map[]);
    var locs := GetOr(blocks, h, map[])[w := Location(w, tier, TierWeight(tier))];
    Index(idx.byBlock[ns := blocks[h := locs]], idx.byWorker[w := GetOr(idx.byWorker, w, map[])[h := TierWeight(tier)]])
  }

  function StoreAll(idx: Index, ns: string, w: string, tier: string, hashes: seq<nat>): Index {
    if hashes == [] then idx
    else StoreOne(StoreAll(idx, ns, w, tier, hashes[..|hashes| - 1]), ns, w, tier, hashes[|hashes| - 1])
  }

  function Stored(idx: Index, ns: string, w: string, tier: string, hashes: seq<nat>): Index {
    if w == "" || hashes == [] then idx else StoreAll(Prepared(idx, ns, w), ns, w, tier, hashes)
  }

  function DropFrom(blocks: Blocks, h: nat, w: string): Blocks {
    if h in blocks then blocks[h := blocks[h] - {w}] else blocks
  }

  function DropEverywhere(byBlock: map<string, Blocks>, h: nat, w: string): map<string, Blocks> {
    map ns | ns in byBlock :: DropFrom(byBlock[ns], h, w)
  }

  function RemoveOne(idx: Index, w: string, h: nat): Index {
    Index(DropEverywhere(idx.byBlock, h, w),
          if w in idx.byWorker then idx.byWorker[w := idx.byWorker[w] - {h}] else idx.byWorker)
  }

  function Removed(idx: Index, w: string, hashes: seq<nat>): Index {
    if hashes == [] then idx else RemoveOne(Removed(idx, w, hashes[..|hashes| - 1]), w, hashes[|hashes| - 1])
  }

  function DropHeldFrom(blocks: Blocks, held: set<nat>, w: string): Blocks {
    map h | h in blocks :: if h in held then blocks[h] - {w} else blocks[h]
  }

  function DropHeld(byBlock: map<string, Blocks>, held: set<nat>, w: string): map<string, Blocks> {
    map ns | ns in byBlock :: DropHeldFrom(byBlock[ns], held, w)
  }

  function Cleared(idx: Index, w: string): Index {
    Index(DropHeld(idx.byBlock, GetOr(idx.byWorker, w, map[]).Keys, w), idx.byWorker - {w})
  }

  datatype Kind = StoredEvent | RemovedEvent | ClearedEvent | UnknownEvent

  datatype Event = Event(kind: Kind, workerID: string, base: string, adapter: string, tier: string, hashes: seq<nat>)

  function Applied(idx: Index, e: Event): Index {
    match e.kind
    case StoredEvent => Stored(idx, Qualified(e.base, e.adapter), e.workerID, e.tier, e.hashes)
    case RemovedEvent => Removed(idx, e.workerID, e.hashes)
    case ClearedEvent => Cleared(idx, e.workerID)
    case UnknownEvent => idx
  }

  function Run(log: seq<Event>): Index {
    if log == [] then EMPTY else Applied(Run(log[..|log| - 1]), log[|log| - 1])
  }

  // ----- The imperative form

  class CacheIndex {
    var byBlock: map<string, Blocks>
    var byWorker: map<string, map<nat, real>>

    constructor ()
      ensures Value() == EMPTY
    {
      byBlock, byWorker := map[], map[];
    }

    function Value(): Index
      reads this
    {
      Index(byBlock, byWorker)
    }

    method Store(base: string, adapter: string, workerID: string, tier: string, hashes: seq<nat>)
      modifies this
      ensures Value() == Stored(old(Value()), Qualified(base, adapter), workerID, tier, hashes)
    {
      if workerID == "" || |hashes| == 0 { return; }
      var weight := 1.0;
      if tier == "cpu" { weight := 0.8; }
      var key := Qualified(base, adapter);
      if key !in byBlock { byBlock := byBlock[key := map[]]; }
      if workerID !in byWorker { byWorker := byWorker[workerID := map[]]; }
      ghost var start := Prepared(old(Value()), key, workerID);
      assert byBlock == start.byBlock && byWorker == start.byWorker;
      for i := 0 to |hashes|
        invariant Value() == StoreAll(start, key, workerID, tier, hashes[..i])
        invariant key in byBlock && workerID in byWorker
      {
        assert hashes[..i + 1][..i] == hashes[..i];
        PutOne(key, workerID, tier, weight, hashes[i]);
      }
      assert hashes[..|hashes|] == hashes;
    }

    method PutOne(key: string, workerID: string, tier: string, weight: real, h: nat)
      requires key in byBlock && workerID in byWorker && weight == TierWeight(tier)
      modifies this
      ensures Value() == StoreOne(old(Value()), key, workerID, tier, h)
      ensures key in byBlock && workerID in byWorker
    {
      var blocks: Blocks := byBlock[key];
      if h !in blocks { blocks := blocks[h := map[]]; }
      blocks := blocks[h := blocks[h][workerID := Location(workerID, tier, weight)]];
      assert blocks == byBlock[key][h := GetOr(byBlock[key], h, map[])[workerID := Location(workerID, tier, weight)]];
      byBlock := byBlock[key := blocks];
      var mine: map<nat, real> := byWorker[workerID];
      mine := mine[h := weight];
      byWorker := byWorker[workerID := mine];
    }

    /** Delete the worker from one hash in every namespace. */
    method Drop(h: nat, workerID: string)
      modifies this`byBlock
      ensures byBlock == DropEverywhere(old(byBlock), h, workerID)
    {
      var todo := byBlock.Keys;
      while todo != {}
        invariant todo <= byBlock.Keys == old(byBlock).Keys
        invariant forall ns :: ns in byBlock ==>
          byBlock[ns] == if ns in todo then old(byBlock)[ns] else DropFrom(old(byBlock)[ns], h, workerID)
        decreases todo
      {
        var ns :| ns in todo;
        todo := todo - {ns};
        if h in byBlock[ns] { byBlock := byBlock[ns := byBlock[ns][h := byBlock[ns][h] - {workerID}]]; }
      }
    }

    method Remove(workerID: string, hashes: seq<nat>)
      modifies this
      ensures Value() == Removed(old(Value()), workerID, hashes)
    {
      for i := 0 to |hashes|
        invariant Value() == Removed(old(Value()), workerID, hashes[..i])
      {
        assert hashes[..i + 1][..i] == hashes[..i];
        if workerID in byWorker { byWorker := byWorker[workerID := byWorker[workerID] - {hashes[i]}]; }
        Drop(hashes[i], workerID);
      }
      assert hashes[..|hashes|] == hashes;
    }

    method ClearWorker(workerID: string)
      modifies this
      ensures Value() == Cleared(old(Value()), workerID)
    {
      var held: set<nat> := {};
      if workerID in byWorker { held := byWorker[workerID].Keys; }
      assert held == GetOr(byWorker, workerID, map[]).Keys;
      byWorker := byWorker - {workerID};
      var todo := held;
      DropNothing(byBlock, workerID);
      assert held - todo == {};
      hide DropHeld, DropEverywhere;
      while todo != {}
        invariant todo <= held
        invariant byBlock == DropHeld(old(byBlock), held - todo, workerID) && byWorker == old(byWorker) - {workerID}
        decreases todo
      {
        var h :| h in todo;
        DropOneMore(old(byBlock), held - todo, h, workerID);
        Drop(h, workerID);
        assert held - (todo - {h}) == held - todo + {h};
        todo := todo - {h};
      }
      assert held - todo == held;
    }

    method SnapshotForScoring() returns (out: map<string, map<nat, real>>)
      ensures out == byWorker
    {
      out := map[];
      var todo := byWorker.Keys;
      while todo != {}
        invariant todo <= byWorker.Keys && out.Keys == byWorker.Keys - todo
        invariant forall w :: w in out ==> out[w] == byWorker[w]
        decreases todo
      {
        var w :| w in todo;
        todo := todo - {w};
        var copy := CopyBlocks(byWorker[w]);
        out := out[w := copy];
      }
    }
  }

  method CopyBlocks(src: map<nat, real>) returns (copy: map<nat, real>)
    ensures copy == src
  {
    copy := map[];
    var todo := src.Keys;
    while todo != {}
      invariant todo <= src.Keys && copy.Keys == src.Keys - todo
      invariant forall h :: h in copy ==> copy[h] == src[h]
      decreases todo
    {
      var h :| h in todo;
      todo := todo - {h};
      copy := copy[h := src[h]];
    }
  }

  /** Events are applied one at a time, each followed by publishing a copy of the worker index. */
  class Service {
    const index: CacheIndex
    var published: map<string, map<nat, real>>

    constructor ()
      ensures fresh(index) && index.Value() == EMPTY && published == map[]
    {
      index := new CacheIndex();
      published := map[];
    }

    method Apply(e: Event)
      modifies this, index
      ensures index.Value() == Applied(old(index.Value()), e)
      ensures published == index.byWorker
    {
      hide Stored, Removed, Cleared;
      match e.kind {
        case StoredEvent => index.Store(e.base, e.adapter, e.workerID, e.tier, e.hashes);
        case RemovedEvent => index.Remove(e.workerID, e.hashes);
        case ClearedEvent => index.ClearWorker(e.workerID);
        case UnknownEvent =>
      }
      published := index.SnapshotForScoring();
    }
  }

  lemma DropNothing(byBlock: map<string, Blocks>, w: string)
    ensures DropHeld(byBlock, {}, w) == byBlock
  {
    forall ns | ns in byBlock ensures DropHeldFrom(byBlock[ns], {}, w) == byBlock[ns] {
    }
  }

  lemma DropOneMore(byBlock: map<string, Blocks>, held: set<nat>, h: nat, w: string)
    ensures DropEverywhere(DropHeld(byBlock, held, w), h, w) == DropHeld(byBlock, held + {h}, w)
  {
    hide DropFrom, DropHeldFrom;
    forall ns | ns in byBlock
      ensures DropFrom(DropHeldFrom(byBlock[ns], held, w), h, w) == DropHeldFrom(byBlock[ns], held + {h}, w)
    {
      DropOneMoreFrom(byBlock[ns], held, h, w);
    }
  }

  lemma DropOneMoreFrom(blocks: Blocks, held: set<nat>, h: nat, w: string)
    ensures DropFrom(DropHeldFrom(blocks, held, w), h, w) == DropHeldFrom(blocks, held + {h}, w)
  {
    var a, b := DropFrom(DropHeldFrom(blocks, held, w), h, w), DropHeldFrom(blocks, held + {h}, w);
    assert a.Keys == b.Keys == blocks.Keys;
    forall x | x in blocks ensures a[x] == b[x] {
      if x == h && h in held { assert blocks[h] - {w} - {w} == blocks[h] - {w}; }
    }
  }

  // ----- Reading the indexes

  function WeightAt(idx: Index, w: string, h: nat): Option<real> {
    if w in idx.byWorker && h in idx.byWorker[w] then Some(idx.byWorker[w][h]) else None
  }

  function LocationAt(idx: Index, ns: string, h: nat, w: string): Option<Location> {
    if ns in idx.byBlock && h in idx.byBlock[ns] && w in idx.byBlock[ns][h] then Some(idx.byBlock[ns][h][w]) else None
  }

  lemma {:induction false} StoreAllReads(idx: Index, ns: string, w: string, tier: string, hashes: seq<nat>,
                                         ns': string, w': string, h': nat)
    ensures WeightAt(StoreAll(idx, ns, w, tier, hashes), w', h')
            == if w' == w && h' in hashes then Some(TierWeight(tier)) else WeightAt(idx, w', h')
    ensures LocationAt(StoreAll(idx, ns, w, tier, hashes), ns', h', w')
            == if ns' == ns && w' == w && h' in hashes then Some(Location(w, tier, TierWeight(tier)))
               else LocationAt(idx, ns', h', w')
  {
    if hashes != [] {
      var init, h := hashes[..|hashes| - 1], hashes[|hashes| - 1];
      assert hashes == init + [h];
      StoreAllReads(idx, ns, w, tier, init, ns', w', h');
      StoreOneReads(StoreAll(idx, ns, w, tier, init), ns, w, tier, h, ns', w', h');
    }
  }

  lemma StoreOneReads(idx: Index, ns: string, w: string, tier: string, h: nat, ns': string, w': string, h': nat)
    ensures WeightAt(StoreOne(idx, ns, w, tier, h), w', h')
            == if w' == w && h' == h then Some(TierWeight(tier)) else WeightAt(idx, w', h')
    ensures LocationAt(StoreOne(idx, ns, w, tier, h), ns', h', w')
            == if ns' == ns && w' == w && h' == h then Some(Location(w, tier, TierWeight(tier)))
               else LocationAt(idx, ns', h', w')
  {
  }

  lemma PreparedReads(idx: Index, ns: string, w: string, ns': string, w': string, h': nat)
    ensures WeightAt(Prepared(idx, ns, w), w', h') == WeightAt(idx, w', h')
    ensures LocationAt(Prepared(idx, ns, w), ns', h', w') == LocationAt(idx, ns', h', w')
  {
  }

  lemma {:induction false} RemovedReads(idx: Index, w: string, hashes: seq<nat>, ns': string, w': string, h': nat)
    ensures WeightAt(Removed(idx, w, hashes), w', h') == if w' == w && h' in hashes then None else WeightAt(idx, w', h')
    ensures LocationAt(Removed(idx, w, hashes), ns', h', w')
            == if w' == w && h' in hashes then None else LocationAt(idx, ns', h', w')
  {
    if hashes != [] {
      var init, h := hashes[..|hashes| - 1], hashes[|hashes| - 1];
      assert hashes == init + [h];
      RemovedReads(idx, w, init, ns', w', h');
      RemoveOneReads(Removed(idx, w, init), w, h, ns', w', h');
    }
  }

  lemma RemoveOneReads(idx: Index, w: string, h: nat, ns': string, w': string, h': nat)
    ensures WeightAt(RemoveOne(idx, w, h), w', h') == if w' == w && h' == h then None else WeightAt(idx, w', h')
    ensures LocationAt(RemoveOne(idx, w, h), ns', h', w')
            == if w' == w && h' == h then None else LocationAt(idx, ns', h', w')
  {
  }

  lemma ClearedReads(idx: Index, w: string, ns': string, w': string, h': nat)
    ensures WeightAt(Cleared(idx, w), w', h') == if w' == w then None else WeightAt(idx, w', h')
    ensures LocationAt(Cleared(idx, w), ns', h', w')
            == if w' == w && WeightAt(idx, w, h').Some? then None else LocationAt(idx, ns', h', w')
  {
  }

  // ----- Replaying the log, last event wins

  predicate Stores(e: Event, w: string, h: nat) {
    e.kind == StoredEvent && e.workerID == w != "" && h in e.hashes
  }

  predicate Forgets(e: Event, w: string, h: nat) {
    e.workerID == w && (e.kind == ClearedEvent || (e.kind == RemovedEvent && h in e.hashes))
  }

  /** The weight the last event about this worker and hash leaves. */
  function Replay(log: seq<Event>, w: string, h: nat): Option<real> {
    if log == [] then None
    else
      var e := log[|log| - 1];
      if Stores(e, w, h) then Some(TierWeight(e.tier))
      else if Forgets(e, w, h) then None
      else Replay(log[..|log| - 1], w, h)
  }

  /** The same for one namespace. */
  function ReplayIn(log: seq<Event>, ns: string, h: nat, w: string): Option<Location> {
    if log == [] then None
    else
      var e := log[|log| - 1];
      if Stores(e, w, h) && Qualified(e.base, e.adapter) == ns then Some(Location(w, e.tier, TierWeight(e.tier)))
      else if Forgets(e, w, h) then None
      else ReplayIn(log[..|log| - 1], ns, h, w)
  }

  lemma {:induction false} ListedIsWeighted(log: seq<Event>, ns: string, h: nat, w: string)
    ensures ReplayIn(log, ns, h, w).Some? ==> Replay(log, w, h).Some?
  {
    if log != [] { ListedIsWeighted(log[..|log| - 1], ns, h, w); }
  }

  lemma {:induction false} WeightedIsListed(log: seq<Event>, h: nat, w: string) returns (ns: string)
    requires Replay(log, w, h).Some?
    ensures
      var l := ReplayIn(log, ns, h, w);
      l.Some? && l.value.weight == Replay(log, w, h).value && l.value.workerID == w
  {
    var init, e := log[..|log| - 1], log[|log| - 1];
    if Stores(e, w, h) {
      ns := Qualified(e.base, e.adapter);
    } else {
      ns := WeightedIsListed(init, h, w);
    }
  }

  /** Both indexes equal the replay of the log, after every sequence of events. */
  lemma {:induction false} IndexRefinesLog(log: seq<Event>, ns: string, h: nat, w: string)
    ensures WeightAt(Run(log), w, h) == Replay(log, w, h)
    ensures LocationAt(Run(log), ns, h, w) == ReplayIn(log, ns, h, w)
  {
    hide StoreAll, Prepared, Removed, Cleared, WeightAt, LocationAt;
    if log == [] {
      EmptyReads(ns, h, w);
    } else {
      var init, e := log[..|log| - 1], log[|log| - 1];
      IndexRefinesLog(init, ns, h, w);
      var idx, key := Run(init), Qualified(e.base, e.adapter);
      PreparedReads(idx, key, e.workerID, ns, w, h);
      StoreAllReads(Prepared(idx, key, e.workerID), key, e.workerID, e.tier, e.hashes, ns, w, h);
      RemovedReads(idx, e.workerID, e.hashes, ns, w, h);
      ClearedReads(idx, e.workerID, ns, w, h);
      ListedIsWeighted(init, ns, h, w);
    }
  }

  lemma EmptyReads(ns: string, h: nat, w: string)
    ensures WeightAt(EMPTY, w, h) == None && LocationAt(EMPTY, ns, h, w) == None
  {
  }

  /** The worker has reported something since it was last cleared. */
  predicate Reported(log: seq<Event>, w: string) {
    log != [] &&
    var e := log[|log| - 1];
    if e.workerID == w && e.kind == StoredEvent && w != "" && e.hashes != [] then true
    else if e.workerID == w && e.kind == ClearedEvent then false
    else Reported(log[..|log| - 1], w)
  }

  lemma {:induction false} StoreAllKeys(idx: Index, ns: string, w: string, tier: string, hashes: seq<nat>)
    requires w in idx.byWorker
    ensures StoreAll(idx, ns, w, tier, hashes).byWorker.Keys == idx.byWorker.Keys
  {
    if hashes != [] { StoreAllKeys(idx, ns, w, tier, hashes[..|hashes| - 1]); }
  }

  lemma {:induction false} RemovedKeys(idx: Index, w: string, hashes: seq<nat>)
    ensures Removed(idx, w, hashes).byWorker.Keys == idx.byWorker.Keys
  {
    hide DropEverywhere;
    if hashes != [] { RemovedKeys(idx, w, hashes[..|hashes| - 1]); }
  }

  /** The workers published for scoring are exactly those, even where all they reported was removed. */
  lemma {:induction false} PublishedIffReported(log: seq<Event>, w: string)
    ensures w in Run(log).byWorker <==> Reported(log, w)
  {
    hide StoreAll, Removed, DropHeld;
    if log != [] {
      var init, e := log[..|log| - 1], log[|log| - 1];
      PublishedIffReported(init, w);
      var idx, key := Run(init), Qualified(e.base, e.adapter);
      StoreAllKeys(Prepared(idx, key, e.workerID), key, e.workerID, e.tier, e.hashes);
      RemovedKeys(idx, e.workerID, e.hashes);
    }
  }

  /** The two indexes agree: a block is in a worker's map exactly if the worker is listed for it
      in some namespace, and then some listing carries the worker's weight. */
  lemma IndexesAgree(log: seq<Event>, h: nat, w: string)
    ensures WeightAt(Run(log), w, h).Some? <==> exists ns :: LocationAt(Run(log), ns, h, w).Some?
    ensures WeightAt(Run(log), w, h).Some? ==>
              exists ns :: LocationAt(Run(log), ns, h, w).Some?
                           && LocationAt(Run(log), ns, h, w).value.weight == WeightAt(Run(log), w, h).value
  {
    hide WeightAt, LocationAt, Run;
    forall ns ensures LocationAt(Run(log), ns, h, w) == ReplayIn(log, ns, h, w)
                      && (LocationAt(Run(log), ns, h, w).Some? ==> Replay(log, w, h).Some?)
    {
      IndexRefinesLog(log, ns, h, w);
      ListedIsWeighted(log, ns, h, w);
    }
    IndexRefinesLog(log, "", h, w);
    if Replay(log, w, h).Some? {
      var ns := WeightedIsListed(log, h, w);
      assert LocationAt(Run(log), ns, h, w).Some?;
    }
  }

  /** Clearing a worker leaves no trace of it in either index, although only the blocks in its
      own map are visited. */
  lemma ClearLeavesNoTrace(log: seq<Event>, e: Event, ns: string, h: nat)
    requires e.kind == ClearedEvent
    ensures
      var idx := Run(log + [e]);
      && WeightAt(idx, e.workerID, h) == None && LocationAt(idx, ns, h, e.workerID) == None
      && e.workerID !in idx.byWorker
  {
    assert (log + [e])[..|log + [e]| - 1] == log;
    IndexRefinesLog(log + [e], ns, h, e.workerID);
  }
}
