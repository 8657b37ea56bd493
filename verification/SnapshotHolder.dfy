/** Swapping in routing snapshots: any number of concurrent `StoreIfNewer` calls, fed by one
    publisher over a channel that may drop, duplicate or reorder. */
module SnapshotSwap {
  import opened Prelude

  datatype Snapshot<C> = Snapshot(epoch: nat, content: C)

  /** A thread stands at the head of the loop, or between its load and its compare-and-swap.
      Snapshots are referred to by pointer, since the swap compares pointers. */
  datatype Pc = Idle | Offering(s: nat) | Comparing(s: nat, cur: Option<nat>)

  /** `counter` is the publisher's epoch, `built` what was built at each epoch, `heap` every
      snapshot object ever offered, `held` the holder's pointer. */
  datatype State<C> = State(counter: nat, built: map<nat, C>, heap: map<nat, Snapshot<C>>,
                            held: Option<nat>, threads: map<nat, Pc>)

  function Initial<C>(): State<C> {
    State(0, map[], map[], None, map[])
  }

  function PcOf<C>(s: State<C>, t: nat): Pc {
    if t in s.threads then s.threads[t] else Idle
  }

  /** The publisher builds the next snapshot; some thread, local or fed by the channel, starts
      offering a copy of a built one, at any time and any number of times; a thread runs its
      next atomic instruction. */
  datatype Action<C> = Build(content: C) | Offer(t: nat, epoch: nat, pointer: nat) | Run(t: nat)

  function At<C>(s: State<C>, t: nat, pc: Pc): State<C> {
    s.(threads := s.threads[t := pc])
  }

  predicate NotNewer<C>(s: State<C>, p: nat, cur: Option<nat>) {
    cur.Some? && p in s.heap && cur.value in s.heap && s.heap[p].epoch <= s.heap[cur.value].epoch
  }

  function Next<C>(s: State<C>, a: Action<C>): State<C> {
    match a
    case Build(c) => s.(counter := s.counter + 1, built := s.built[s.counter + 1 := c])
    case Offer(t, epoch, p) =>
      if PcOf(s, t) == Idle && epoch in s.built && p !in s.heap
      then At(s.(heap := s.heap[p := Snapshot(epoch, s.built[epoch])]), t, Offering(p))
      else s
    case Run(t) => match PcOf(s, t)
      case Idle => s
      case Offering(p) => At(s, t, if NotNewer(s, p, s.held) then Idle else Comparing(p, s.held))
      case Comparing(p, cur) =>
        if s.held == cur then At(s.(held := Some(p)), t, Idle) else At(s, t, Offering(p))
  }

  function Reach<C>(actions: seq<Action<C>>): State<C> {
    if actions == [] then Initial() else Next(Reach(actions[..|actions| - 1]), actions[|actions| - 1])
  }

  // ----- The invariant

  ghost predicate BuiltOk<C>(s: State<C>) {
    && (forall e :: e in s.built <==> 1 <= e <= s.counter)
    && (forall p :: p in s.heap ==> s.heap[p].epoch in s.built && s.heap[p].content == s.built[s.heap[p].epoch])
    && (s.held.Some? ==> s.held.value in s.heap)
  }

  /** A thread about to swap has seen something strictly older than what it offers. */
  ghost predicate PcOk<C>(s: State<C>, pc: Pc) {
    match pc
    case Idle => true
    case Offering(p) => p in s.heap
    case Comparing(p, cur) =>
      p in s.heap && (cur.Some? ==> cur.value in s.heap && s.heap[cur.value].epoch < s.heap[p].epoch)
  }

  ghost predicate Working(pc: Pc, p: nat) {
    (pc.Offering? || pc.Comparing?) && pc.s == p
  }

  /** Something at least as new as the offered snapshot is held. */
  ghost predicate Surpassed<C>(s: State<C>, p: nat) {
    p in s.heap && s.held.Some? && s.held.value in s.heap && s.heap[p].epoch <= s.heap[s.held.value].epoch
  }

  /** An offered snapshot is surpassed unless some thread is still offering it. */
  ghost predicate OffersOk<C>(s: State<C>) {
    forall p :: p in s.heap ==> Surpassed(s, p) || exists t :: Working(PcOf(s, t), p)
  }

  ghost predicate Inv<C>(s: State<C>) {
    BuiltOk(s) && (forall t :: PcOk(s, PcOf(s, t))) && OffersOk(s)
  }

  // ----- Every step keeps it and never goes back

  ghost function HeldEpoch<C>(s: State<C>): nat {
    if s.held.Some? && s.held.value in s.heap then s.heap[s.held.value].epoch else 0
  }

  lemma PcsKeep<C>(s: State<C>, a: Action<C>)
    requires Inv(s)
    ensures var s' := Next(s, a); BuiltOk(s') && forall t :: PcOk(s', PcOf(s', t))
  {
    hide OffersOk;
    var s' := Next(s, a);
    forall t ensures PcOk(s', PcOf(s', t)) { assert PcOk(s, PcOf(s, t)); }
    if a.Run? { assert PcOk(s, PcOf(s, a.t)); }
  }

  lemma OffersKeep<C>(s: State<C>, a: Action<C>)
    requires Inv(s)
    ensures OffersOk(Next(s, a))
  {
    var s' := Next(s, a);
    if a.Run? { assert PcOk(s, PcOf(s, a.t)); }
    forall p | p in s'.heap ensures Surpassed(s', p) || exists t :: Working(PcOf(s', t), p) {
      if a.Offer? && p !in s.heap {
        assert Working(PcOf(s', a.t), p);
      } else if Surpassed(s, p) {
        assert Surpassed(s', p);
      } else {
        var t :| Working(PcOf(s, t), p);
        if !Working(PcOf(s', t), p) { assert Surpassed(s', p); }
      }
    }
  }

  /** The held epoch never decreases, and every swap strictly increases it. */
  lemma HeldOnlyGrows<C>(s: State<C>, a: Action<C>)
    requires Inv(s)
    ensures Next(s, a).held == s.held ==> HeldEpoch(Next(s, a)) == HeldEpoch(s)
    ensures Next(s, a).held != s.held ==> HeldEpoch(s) < HeldEpoch(Next(s, a))
  {
    if a.Run? {
      assert PcOk(s, PcOf(s, a.t));
      if PcOf(s, a.t).Comparing? { assert s.heap[PcOf(s, a.t).s].epoch in s.built; }
    }
  }

  lemma {:induction false} Reachable<C>(actions: seq<Action<C>>)
    ensures Inv(Reach(actions))
  {
    hide Next;
    if actions != [] {
      var s, a := Reach(actions[..|actions| - 1]), actions[|actions| - 1];
      Reachable(actions[..|actions| - 1]);
      PcsKeep(s, a);
      OffersKeep(s, a);
    }
  }

  // ----- The results

  /** In every interleaving: the holder's epoch is never ahead of the publisher and its content
      is what the publisher built at that epoch. */
  lemma HeldIsGenuine<C>(actions: seq<Action<C>>)
    ensures
      var s := Reach(actions);
      && HeldEpoch(s) <= s.counter
      && (s.held.Some? ==>
            && s.held.value in s.heap && 1 <= HeldEpoch(s) && HeldEpoch(s) in s.built
            && s.heap[s.held.value].content == s.built[HeldEpoch(s)])
  {
    Reachable(actions);
    hide Reach;
  }

  /** The held epoch is monotone along every run. */
  lemma {:induction false} HeldIsMonotone<C>(actions: seq<Action<C>>, n: nat)
    requires n <= |actions|
    ensures HeldEpoch(Reach(actions[..n])) <= HeldEpoch(Reach(actions))
    decreases |actions|
  {
    hide Next, HeldEpoch;
    if n == |actions| {
      assert actions[..n] == actions;
    } else {
      var init := actions[..|actions| - 1];
      HeldIsMonotone(init, n);
      assert init[..n] == actions[..n];
      Reachable(init);
      HeldOnlyGrows(Reach(init), actions[|actions| - 1]);
    }
  }

  /** Once all calls have finished, the newest offered snapshot is held: whatever was lost,
      repeated or reordered on the way. */
  lemma NewestWins<C>(actions: seq<Action<C>>)
    requires forall t :: PcOf(Reach(actions), t) == Idle
    ensures
      var s := Reach(actions);
      && (s.held.None? ==> s.heap == map[])
      && (s.held.Some? ==> s.held.value in s.heap)
      && forall p :: p in s.heap ==> s.heap[p].epoch <= HeldEpoch(s)
  {
    Reachable(actions);
    hide Reach;
    var s := Reach(actions);
    forall p | p in s.heap ensures s.held.Some? && s.heap[p].epoch <= HeldEpoch(s) {
      assert Surpassed(s, p) || exists t :: Working(PcOf(s, t), p);
    }
  }

  ghost function Builds<C>(actions: seq<Action<C>>): seq<C> {
    if actions == [] then []
    else
      var a := actions[|actions| - 1];
      Builds(actions[..|actions| - 1]) + if a.Build? then [a.content] else []
  }

  /** The publisher's epoch counts its builds, and epoch `e` is what its `e`-th build made. */
  lemma {:induction false} EpochsCountBuilds<C>(actions: seq<Action<C>>)
    ensures
      var s, builds := Reach(actions), Builds(actions);
      s.counter == |builds| && forall e :: 1 <= e <= |builds| ==> e in s.built && s.built[e] == builds[e - 1]
  {
    if actions != [] { EpochsCountBuilds(actions[..|actions| - 1]); }
  }

  /** A call goes on until it decides: it stores its own snapshot over an older one, or it stops
      because one at least as new is held. A lost race only makes it try again. */
  lemma OffersUntilDecided<C>(s: State<C>, a: Action<C>, t: nat, p: nat)
    requires Inv(s) && Working(PcOf(s, t), p)
    ensures
      var s' := Next(s, a);
      || Working(PcOf(s', t), p)
      || (a == Run(t) && PcOf(s', t) == Idle && s'.held == Some(p) && HeldEpoch(s) < s.heap[p].epoch)
      || (a == Run(t) && PcOf(s', t) == Idle && s'.held == s.held && s.heap[p].epoch <= HeldEpoch(s))
  {
    hide OffersOk;
    assert PcOk(s, PcOf(s, t));
    if a == Run(t) && PcOf(s, t).Comparing? { assert s.heap[p].epoch in s.built; }
  }

  /** No call is stuck: a thread that runs alone is idle after three of its steps. */
  lemma FinishesAlone<C>(s: State<C>, t: nat)
    requires Inv(s)
    ensures PcOf(Next(Next(Next(s, Run(t)), Run(t)), Run(t)), t) == Idle
  {
    hide OffersOk, BuiltOk;
    assert PcOk(s, PcOf(s, t));
  }

  lemma {:induction false} OffersAreKept<C>(actions: seq<Action<C>>, n: nat, p: nat)
    requires n <= |actions| && p in Reach(actions[..n]).heap
    ensures p in Reach(actions).heap && Reach(actions).heap[p] == Reach(actions[..n]).heap[p]
    decreases |actions|
  {
    if n == |actions| {
      assert actions[..n] == actions;
    } else {
      var init := actions[..|actions| - 1];
      assert init[..n] == actions[..n];
      OffersAreKept(init, n, p);
    }
  }

  /** Every offer counts: whatever was offered by an idle thread at any time of a run, once all calls
      have finished the held snapshot is at least as new. */
  lemma OfferedIsHeld<C>(actions: seq<Action<C>>, n: nat)
    requires n < |actions| && actions[n].Offer? && forall t :: PcOf(Reach(actions), t) == Idle
    requires
      var s := Reach(actions[..n]);
      PcOf(s, actions[n].t) == Idle && actions[n].epoch in s.built && actions[n].pointer !in s.heap
    ensures actions[n].epoch <= HeldEpoch(Reach(actions))
  {
    var after := actions[..n + 1];
    assert after[..|after| - 1] == actions[..n];
    assert Reach(after) == Next(Reach(actions[..n]), actions[n]);
    OffersAreKept(actions, n + 1, actions[n].pointer);
    NewestWins(actions);
  }
}
