/** The lock-free in-flight counters as a state machine: every atomic read, compare-and-swap
    and map operation of every thread is one step, and steps interleave arbitrarily. */
module InflightTracking {
  import opened Prelude

  /** A permit is held until its `done` function first runs, is being given back while that
      call is in `Dec`, and is released once the counter has been decremented. */
  datatype Phase = Held | Releasing | Released

  datatype Permit = Permit(worker: string, phase: Phase)

  /** Why a thread looks up a counter. */
  datatype Goal = Admit(limit: int) | Count | Release(permit: nat)

  /** Where a thread stands: after a missed lookup, at the head of the `TryTrack` loop, between
      its load and its compare-and-swap, before the unconditional increment, and the same for
      the loop of `Dec`, whose last position is before the store of zero. */
  datatype Pc =
    | Idle
    | Missed(w: string, goal: Goal)
    | Trying(w: string, cell: nat, limit: int)
    | Swapping(w: string, cell: nat, limit: int, cur: int)
    | Adding(w: string, cell: nat)
    | Dropping(w: string, cell: nat, permit: nat)
    | DropSwapping(w: string, cell: nat, permit: nat, cur: int)
    | Clamping(w: string, cell: nat, permit: nat)

  /** `table` is the shared map from worker to counter cell. */
  datatype State = State(table: map<string, nat>, cells: map<nat, int>, permits: map<nat, Permit>,
                         threads: map<nat, Pc>)

  const INITIAL := State(map[], map[], map[], map[])

  function PcOf(s: State, t: nat): Pc {
    if t in s.threads then s.threads[t] else Idle
  }

  /** A caller starts `TryTrack`, a caller invokes the `done` of some permit, or a thread
      executes its next atomic instruction, in which `name` names a new cell or permit. */
  datatype Action = Call(t: nat, w: string, limit: int) | Done(t: nat, permit: nat) | Run(t: nat, name: nat)

  function At(s: State, t: nat, pc: Pc): State {
    s.(threads := s.threads[t := pc])
  }

  /** Continue with a known counter cell. */
  function WithCell(w: string, cell: nat, goal: Goal): Pc {
    match goal
    case Admit(limit) => Trying(w, cell, limit)
    case Count => Adding(w, cell)
    case Release(p) => Dropping(w, cell, p)
  }

  /** The fast path of the counter lookup. */
  function LookUp(s: State, t: nat, w: string, goal: Goal): State {
    At(s, t, if w in s.table then WithCell(w, s.table[w], goal) else Missed(w, goal))
  }

  predicate Enabled(s: State, a: Action) {
    match a
    case Call(t, _, _) => PcOf(s, t).Idle?
    case Done(t, p) => PcOf(s, t).Idle? && p in s.permits
    case Run(t, name) =>
      !PcOf(s, t).Idle? && name !in s.permits && name !in s.cells
  }

  /** Load-or-store: use the cell that is there, or install a new one with value zero. */
  function Install(s: State, t: nat, name: nat, w: string, goal: Goal): State {
    if w in s.table then At(s, t, WithCell(w, s.table[w], goal))
    else At(s.(table := s.table[w := name], cells := s.cells[name := 0]), t, WithCell(w, name, goal))
  }

  function Grant(s: State, t: nat, name: nat, w: string, cell: nat, value: int): State {
    At(s.(cells := s.cells[cell := value], permits := s.permits[name := Permit(w, Held)]), t, Idle)
  }

  function GiveBack(s: State, t: nat, w: string, cell: nat, p: nat, value: int): State {
    At(s.(cells := s.cells[cell := value], permits := s.permits[p := Permit(w, Released)]), t, Idle)
  }

  function Value(s: State, cell: nat): int {
    if cell in s.cells then s.cells[cell] else 0
  }

  function Next(s: State, a: Action): State {
    if !Enabled(s, a) then s
    else match a
      case Call(t, w, limit) => LookUp(s, t, w, if limit <= 0 then Count else Admit(limit))
      case Done(t, p) =>
        if s.permits[p].phase != Held then s
        else
          LookUp(s.(permits := s.permits[p := s.permits[p].(phase := Releasing)]), t, s.permits[p].worker, Release(p))
      case Run(t, name) => match PcOf(s, t)
        case Idle => s
        case Missed(w, goal) => Install(s, t, name, w, goal)
        case Trying(w, c, limit) =>
          At(s, t, if Value(s, c) >= limit then Idle else Swapping(w, c, limit, Value(s, c)))
        case Swapping(w, c, limit, cur) =>
          if Value(s, c) == cur then Grant(s, t, name, w, c, cur + 1) else At(s, t, Trying(w, c, limit))
        case Adding(w, c) => Grant(s, t, name, w, c, Value(s, c) + 1)
        case Dropping(w, c, p) =>
          At(s, t, if Value(s, c) <= 0 then Clamping(w, c, p) else DropSwapping(w, c, p, Value(s, c)))
        case DropSwapping(w, c, p, cur) =>
          if Value(s, c) == cur then GiveBack(s, t, w, c, p, cur - 1) else At(s, t, Dropping(w, c, p))
        case Clamping(w, c, p) => GiveBack(s, t, w, c, p, 0)
  }

  function Reach(actions: seq<Action>): State {
    if actions == [] then INITIAL else Next(Reach(actions[..|actions| - 1]), actions[|actions| - 1])
  }

  // ----- What the counters mean

  function Granted(s: State, w: string): set<nat> {
    set p | p in s.permits && s.permits[p].worker == w
  }

  function ReleasedOf(s: State, w: string): set<nat> {
    set p | p in s.permits && s.permits[p].worker == w && s.permits[p].phase == Released
  }

  function Outstanding(s: State, w: string): set<nat> {
    set p | p in s.permits && s.permits[p].worker == w && s.permits[p].phase != Released
  }

  /** The number a reader of the counter of `w` sees. */
  function Counter(s: State, w: string): int {
    if w in s.table then Value(s, s.table[w]) else 0
  }

  // ----- The invariant

  ghost predicate TableOk(s: State) {
    && (forall w :: w in s.table ==> s.table[w] in s.cells)
    && (forall v, w :: v in s.table && w in s.table && v != w ==> s.table[v] != s.table[w])
  }

  ghost predicate Counts(s: State) {
    forall w :: Counter(s, w) == |Outstanding(s, w)|
  }

  /** The cell a thread works on is the one in the table, whoever installed it. */
  ghost predicate CellOk(s: State, pc: Pc) {
    pc.Idle? || pc.Missed? || (pc.w in s.table && s.table[pc.w] == pc.cell)
  }

  /** The permit a thread is giving back, if any. */
  ghost function InHand(pc: Pc): set<nat> {
    match pc
    case Missed(_, Release(p)) => {p}
    case Dropping(_, _, p) => {p}
    case DropSwapping(_, _, p, _) => {p}
    case Clamping(_, _, p) => {p}
    case _ => {}
  }

  ghost predicate PermitOk(s: State, pc: Pc) {
    forall p :: p in InHand(pc) ==> p in s.permits && s.permits[p] == Permit(pc.w, Releasing)
  }

  ghost predicate NoClamp(pc: Pc) {
    !pc.Clamping? && (pc.Swapping? ==> pc.cur < pc.limit)
  }

  ghost predicate ThreadsOk(s: State) {
    && (forall t :: CellOk(s, PcOf(s, t)) && PermitOk(s, PcOf(s, t)) && NoClamp(PcOf(s, t)))
    && (forall t, u :: t != u ==> InHand(PcOf(s, t)) !! InHand(PcOf(s, u)))
  }

  ghost predicate Inv(s: State) {
    TableOk(s) && Counts(s) && ThreadsOk(s)
  }

  // ----- Every step keeps it

  /** A thread that only moves on: shared data unchanged, its permit unchanged. */
  lemma MoveKeeps(s: State, t: nat, pc: Pc)
    requires Inv(s) && CellOk(s, pc) && NoClamp(pc)
    requires InHand(pc) == InHand(PcOf(s, t)) && (InHand(pc) != {} ==> pc.w == PcOf(s, t).w)
    ensures Inv(At(s, t, pc))
  {
    var s' := At(s, t, pc);
    assert forall u :: PcOf(s', u) == if u == t then pc else PcOf(s, u);
    assert PermitOk(s, PcOf(s, t));
    assert forall w :: Counter(s', w) == Counter(s, w) && Outstanding(s', w) == Outstanding(s, w);
  }

  lemma InstallKeeps(s: State, t: nat, name: nat)
    requires Inv(s) && PcOf(s, t).Missed? && name !in s.cells
    ensures Inv(Install(s, t, name, PcOf(s, t).w, PcOf(s, t).goal))
  {
    var w, goal := PcOf(s, t).w, PcOf(s, t).goal;
    if w in s.table {
      MoveKeeps(s, t, WithCell(w, s.table[w], goal));
    } else {
      var m := s.(table := s.table[w := name], cells := s.cells[name := 0]);
      forall v ensures Counter(m, v) == |Outstanding(m, v)| {
        assert Counter(s, v) == |Outstanding(s, v)|;
        assert Outstanding(m, v) == Outstanding(s, v);
      }
      forall u ensures CellOk(m, PcOf(m, u)) && PermitOk(m, PcOf(m, u)) && NoClamp(PcOf(m, u)) {
        assert PcOf(m, u) == PcOf(s, u) && CellOk(s, PcOf(s, u)) && PermitOk(s, PcOf(s, u)) && NoClamp(PcOf(s, u));
      }
      assert ThreadsOk(m) by {
        forall x, y | x != y ensures InHand(PcOf(m, x)) !! InHand(PcOf(m, y)) {
          assert PcOf(m, x) == PcOf(s, x) && PcOf(m, y) == PcOf(s, y);
        }
      }
      MoveKeeps(m, t, WithCell(w, name, goal));
    }
  }

  lemma OutstandingGrant(s: State, m: State, name: nat, w: string, v: string)
    requires name !in s.permits && m.permits == s.permits[name := Permit(w, Held)]
    ensures |Outstanding(m, v)| == |Outstanding(s, v)| + if v == w then 1 else 0
  {
    assert Outstanding(m, v) == if v == w then Outstanding(s, v) + {name} else Outstanding(s, v);
  }

  lemma OutstandingGiveBack(s: State, m: State, p: nat, w: string, v: string)
    requires p in s.permits && s.permits[p] == Permit(w, Releasing) && m.permits == s.permits[p := Permit(w, Released)]
    ensures |Outstanding(m, v)| == |Outstanding(s, v)| - if v == w then 1 else 0
  {
    assert Outstanding(m, v) == if v == w then Outstanding(s, v) - {p} else Outstanding(s, v);
  }

  /** A new outstanding permit and a counter one higher. */
  lemma GrantCounts(s: State, name: nat, w: string, cell: nat)
    requires TableOk(s) && Counts(s) && w in s.table && s.table[w] == cell && name !in s.permits
    ensures
      var m := s.(cells := s.cells[cell := Value(s, cell) + 1], permits := s.permits[name := Permit(w, Held)]);
      TableOk(m) && Counts(m)
  {
    hide Outstanding;
    var m := s.(cells := s.cells[cell := Value(s, cell) + 1], permits := s.permits[name := Permit(w, Held)]);
    forall v ensures Counter(m, v) == |Outstanding(m, v)| {
      assert Counter(s, v) == |Outstanding(s, v)|;
      OutstandingGrant(s, m, name, w, v);
    }
  }

  lemma GrantKeeps(s: State, t: nat, name: nat, w: string, cell: nat)
    requires Inv(s) && w in s.table && s.table[w] == cell && name !in s.permits
    requires InHand(PcOf(s, t)) == {}
    ensures Inv(Grant(s, t, name, w, cell, Value(s, cell) + 1))
  {
    hide TableOk, Counts, ThreadsOk;
    var m := s.(cells := s.cells[cell := Value(s, cell) + 1], permits := s.permits[name := Permit(w, Held)]);
    GrantCounts(s, name, w, cell);
    SamePlaces(s, m);
    MoveKeeps(m, t, Idle);
  }

  /** Threads stay where they are and the permits in their hands keep their phase. */
  lemma SamePlaces(s: State, m: State)
    requires ThreadsOk(s) && m.threads == s.threads && m.table == s.table
    requires forall p :: p in s.permits && s.permits[p].phase == Releasing ==>
               p in m.permits && m.permits[p] == s.permits[p]
    ensures ThreadsOk(m)
  {
    forall u ensures CellOk(m, PcOf(m, u)) && PermitOk(m, PcOf(m, u)) && NoClamp(PcOf(m, u)) {
      assert PcOf(m, u) == PcOf(s, u) && CellOk(s, PcOf(s, u)) && PermitOk(s, PcOf(s, u)) && NoClamp(PcOf(s, u));
    }
    forall x, y | x != y ensures InHand(PcOf(m, x)) !! InHand(PcOf(m, y)) {
      assert PcOf(m, x) == PcOf(s, x) && PcOf(m, y) == PcOf(s, y);
    }
  }

  /** One outstanding permit less and a counter one lower. */
  lemma GiveBackCounts(s: State, t: nat, w: string, cell: nat, p: nat)
    requires TableOk(s) && Counts(s) && w in s.table && s.table[w] == cell
    requires p in s.permits && s.permits[p] == Permit(w, Releasing)
    ensures var s' := GiveBack(s, t, w, cell, p, Value(s, cell) - 1); TableOk(s') && Counts(s')
  {
    hide Outstanding;
    var s' := GiveBack(s, t, w, cell, p, Value(s, cell) - 1);
    forall v ensures Counter(s', v) == |Outstanding(s', v)| {
      assert Counter(s, v) == |Outstanding(s, v)|;
      OutstandingGiveBack(s, s', p, w, v);
    }
  }

  /** One thread changes its place and the permit in its hand, all others keep theirs. */
  lemma OthersKeepPlaces(s: State, s': State, t: nat, p: nat, pc: Pc)
    requires ThreadsOk(s) && s'.threads == s.threads[t := pc] && s'.table == s.table
    requires forall u :: u != t ==> p !in InHand(PcOf(s, u))
    requires forall q :: q in s.permits && q != p ==> q in s'.permits && s'.permits[q] == s.permits[q]
    requires CellOk(s', pc) && PermitOk(s', pc) && NoClamp(pc) && InHand(pc) <= {p}
    ensures ThreadsOk(s')
  {
    forall u ensures CellOk(s', PcOf(s', u)) && PermitOk(s', PcOf(s', u)) && NoClamp(PcOf(s', u)) {
      assert CellOk(s, PcOf(s, u)) && PermitOk(s, PcOf(s, u)) && NoClamp(PcOf(s, u));
      assert PcOf(s', u) == if u == t then pc else PcOf(s, u);
    }
    forall x, y | x != y ensures InHand(PcOf(s', x)) !! InHand(PcOf(s', y)) {
      assert InHand(PcOf(s, x)) !! InHand(PcOf(s, y));
      assert PcOf(s', x) == if x == t then pc else PcOf(s, x);
      assert PcOf(s', y) == if y == t then pc else PcOf(s, y);
    }
  }

  lemma GiveBackKeeps(s: State, t: nat)
    requires Inv(s) && PcOf(s, t).DropSwapping?
    requires Value(s, PcOf(s, t).cell) == PcOf(s, t).cur
    ensures Inv(GiveBack(s, t, PcOf(s, t).w, PcOf(s, t).cell, PcOf(s, t).permit, PcOf(s, t).cur - 1))
  {
    hide TableOk, Counts;
    var pc := PcOf(s, t);
    assert CellOk(s, pc) && PermitOk(s, pc) && pc.permit in InHand(pc);
    GiveBackCounts(s, t, pc.w, pc.cell, pc.permit);
    forall u | u != t ensures pc.permit !in InHand(PcOf(s, u)) { assert InHand(PcOf(s, u)) !! InHand(pc); }
    OthersKeepPlaces(s, GiveBack(s, t, pc.w, pc.cell, pc.permit, pc.cur - 1), t, pc.permit, Idle);
  }

  lemma DoneCounts(s: State, s': State, p: nat)
    requires TableOk(s) && Counts(s) && s'.table == s.table && s'.cells == s.cells
    requires p in s.permits && s.permits[p].phase == Held
    requires s'.permits == s.permits[p := s.permits[p].(phase := Releasing)]
    ensures TableOk(s') && Counts(s')
  {
    forall v ensures Counter(s', v) == |Outstanding(s', v)| {
      assert Counter(s, v) == |Outstanding(s, v)|;
      assert Outstanding(s', v) == Outstanding(s, v);
    }
  }

  lemma DoneKeeps(s: State, t: nat, p: nat)
    requires Inv(s) && PcOf(s, t).Idle? && p in s.permits && s.permits[p].phase == Held
    ensures Inv(Next(s, Done(t, p)))
  {
    hide TableOk, Counts;
    var w := s.permits[p].worker;
    var pc := if w in s.table then Dropping(w, s.table[w], p) else Missed(w, Release(p));
    var s' := Next(s, Done(t, p));
    assert s' == At(s.(permits := s.permits[p := Permit(w, Releasing)]), t, pc);
    DoneCounts(s, s', p);
    forall u ensures p !in InHand(PcOf(s, u)) { assert PermitOk(s, PcOf(s, u)); }
    OthersKeepPlaces(s, s', t, p, pc);
  }

  /** A thread in `Dec` has an outstanding permit in its hand, so it never reads zero. */
  lemma DroppingReadsPositive(s: State, t: nat)
    requires Inv(s) && PcOf(s, t).Dropping?
    ensures Value(s, PcOf(s, t).cell) == |Outstanding(s, PcOf(s, t).w)| > 0
  {
    var pc := PcOf(s, t);
    assert CellOk(s, pc) && PermitOk(s, pc) && pc.permit in InHand(pc);
    assert Counter(s, pc.w) == |Outstanding(s, pc.w)|;
    assert pc.permit in Outstanding(s, pc.w);
  }

  lemma RunKeeps(s: State, t: nat, name: nat)
    requires Inv(s) && Enabled(s, Run(t, name))
    ensures Inv(Next(s, Run(t, name)))
  {
    hide TableOk, Counts, Install, Grant, GiveBack;
    var pc := PcOf(s, t);
    assert CellOk(s, pc) && NoClamp(pc);
    match pc
    case Missed(_, _) => InstallKeeps(s, t, name);
    case Trying(w, c, limit) =>
      MoveKeeps(s, t, if Value(s, c) >= limit then Idle else Swapping(w, c, limit, Value(s, c)));
    case Swapping(w, c, limit, cur) =>
      if Value(s, c) == cur { GrantKeeps(s, t, name, w, c); } else { MoveKeeps(s, t, Trying(w, c, limit)); }
    case Adding(w, c) => GrantKeeps(s, t, name, w, c);
    case Dropping(w, c, p) =>
      DroppingReadsPositive(s, t);
      MoveKeeps(s, t, DropSwapping(w, c, p, Value(s, c)));
    case DropSwapping(w, c, p, cur) =>
      if Value(s, c) == cur { GiveBackKeeps(s, t); } else { MoveKeeps(s, t, Dropping(w, c, p)); }
  }

  lemma NextKeeps(s: State, a: Action)
    requires Inv(s)
    ensures Inv(Next(s, a))
  {
    hide TableOk, Counts, ThreadsOk;
    if Enabled(s, a) {
      match a
      case Call(t, w, limit) =>
        var goal := if limit <= 0 then Count else Admit(limit);
        MoveKeeps(s, t, if w in s.table then WithCell(w, s.table[w], goal) else Missed(w, goal));
      case Done(t, p) => if s.permits[p].phase == Held { DoneKeeps(s, t, p); }
      case Run(t, name) => RunKeeps(s, t, name);
    }
  }

  lemma {:induction false} Reachable(actions: seq<Action>)
    ensures Inv(Reach(actions))
  {
    hide Next;
    if actions == [] {
      assert forall w :: Outstanding(INITIAL, w) == {};
    } else {
      Reachable(actions[..|actions| - 1]);
      NextKeeps(Reach(actions[..|actions| - 1]), actions[|actions| - 1]);
    }
  }

  // ----- The results

  /** In every interleaving, every counter equals the permits granted minus the permits
      released, and the store of zero in `Dec` is never about to run. */
  lemma CounterIsExact(actions: seq<Action>, w: string)
    ensures
      var s := Reach(actions);
      && Counter(s, w) == |Granted(s, w)| - |ReleasedOf(s, w)| >= 0
      && forall t :: !PcOf(s, t).Clamping?
  {
    Reachable(actions);
    hide Reach;
    var s := Reach(actions);
    assert Counter(s, w) == |Outstanding(s, w)|;
    assert ReleasedOf(s, w) <= Granted(s, w);
    assert Granted(s, w) == Outstanding(s, w) + ReleasedOf(s, w);
    forall t ensures !PcOf(s, t).Clamping? { assert NoClamp(PcOf(s, t)); }
  }

  /** Permits only ever move from held over releasing to released; none disappears, none
      changes its worker, and a released permit stays released. */
  lemma PermitsAreMonotone(s: State, a: Action, p: nat)
    requires Inv(s) && p in s.permits
    ensures
      var s' := Next(s, a);
      && p in s'.permits && s'.permits[p].worker == s.permits[p].worker
      && (s.permits[p].phase == Released ==> s'.permits[p].phase == Released)
      && (s.permits[p].phase == Releasing ==> s'.permits[p].phase != Held)
      && (s.permits[p].phase == Held ==> s'.permits[p].phase != Released)
  {
    if a.Run? {
      var pc := PcOf(s, a.t);
      assert NoClamp(pc) && PermitOk(s, pc);
      if pc.DropSwapping? { assert pc.permit in InHand(pc); }
    }
  }

  /** A counter goes down only when exactly one permit of that worker becomes released. */
  lemma OneReleasePerDecrement(s: State, a: Action, w: string)
    requires Inv(s) && Counter(Next(s, a), w) < Counter(s, w)
    ensures
      var s' := Next(s, a);
      && Counter(s', w) == Counter(s, w) - 1
      && exists p :: p !in ReleasedOf(s, w) && p in Granted(s, w) && ReleasedOf(s', w) == ReleasedOf(s, w) + {p}
  {
    hide Counts;
    var pc := PcOf(s, a.t);
    assert CellOk(s, pc) && PermitOk(s, pc) && NoClamp(pc);
    DecrementsWhere(s, a, w);
    assert pc.permit in InHand(pc);
    OnePermitReleased(s, a);
  }

  lemma OnePermitReleased(s: State, a: Action)
    requires a.Run? && Enabled(s, a) && PcOf(s, a.t).DropSwapping? && Value(s, PcOf(s, a.t).cell) == PcOf(s, a.t).cur
    requires PcOf(s, a.t).permit in s.permits && s.permits[PcOf(s, a.t).permit] == Permit(PcOf(s, a.t).w, Releasing)
    ensures var w, p := PcOf(s, a.t).w, PcOf(s, a.t).permit;
      && ReleasedOf(Next(s, a), w) == ReleasedOf(s, w) + {p}
      && p !in ReleasedOf(s, w) && p in Granted(s, w)
  {
    var p := PcOf(s, a.t).permit;
    assert Next(s, a).permits == s.permits[p := Permit(PcOf(s, a.t).w, Released)];
  }

  lemma DecrementsWhere(s: State, a: Action, w: string)
    requires TableOk(s) && Counter(Next(s, a), w) < Counter(s, w)
    requires CellOk(s, PcOf(s, a.t)) && NoClamp(PcOf(s, a.t))
    ensures a.Run? && Enabled(s, a) && PcOf(s, a.t).DropSwapping? && PcOf(s, a.t).w == w
    ensures Value(s, PcOf(s, a.t).cell) == PcOf(s, a.t).cur && Counter(Next(s, a), w) == Counter(s, w) - 1
  {
  }

  /** `TryTrack` refuses exactly when, at the moment of its load, as many permits are outstanding
      as its limit allows: no spurious refusal, whatever races it lost before. */
  lemma RefusesIffFull(s: State, t: nat, name: nat)
    requires Inv(s) && PcOf(s, t).Trying? && Enabled(s, Run(t, name))
    ensures PcOf(Next(s, Run(t, name)), t).Idle? <==> |Outstanding(s, PcOf(s, t).w)| >= PcOf(s, t).limit
  {
    var pc := PcOf(s, t);
    assert CellOk(s, pc);
    assert Counter(s, pc.w) == |Outstanding(s, pc.w)|;
  }

  // ----- What becomes of a call

  /** Every permit that is being given back is in the hand of some thread. */
  ghost predicate Carried(s: State) {
    forall p :: p in s.permits && s.permits[p].phase == Releasing ==> exists t :: p in InHand(PcOf(s, t))
  }

  /** A permit in a thread's hand stays there until the step of that thread that releases it; with
      that step the thread is idle and the counter has gone down by one. */
  lemma CarriedUntilReleased(s: State, a: Action, t: nat, p: nat)
    requires Inv(s) && p in InHand(PcOf(s, t))
    ensures
      var s' := Next(s, a);
      var w := PcOf(s, t).w;
      || p in InHand(PcOf(s', t))
      || (&& a.Run? && a.t == t && PcOf(s', t).Idle? && s'.permits == s.permits[p := Permit(w, Released)]
          && Counter(s', w) == Counter(s, w) - 1)
  {
    hide Counts;
    var pc := PcOf(s, t);
    assert CellOk(s, pc) && PermitOk(s, pc) && NoClamp(pc);
    if a.Run? && a.t == t && pc.Dropping? { DroppingReadsPositive(s, t); }
  }

  lemma NextCarried(s: State, a: Action)
    requires Inv(s) && Carried(s)
    ensures Carried(Next(s, a))
  {
    hide Counts, TableOk, Counter;
    var s' := Next(s, a);
    forall p | p in s'.permits && s'.permits[p].phase == Releasing ensures exists t :: p in InHand(PcOf(s', t)) {
      if p in s.permits && s.permits[p].phase == Releasing {
        var t :| p in InHand(PcOf(s, t));
        assert PermitOk(s, PcOf(s, t));
        CarriedUntilReleased(s, a, t, p);
      } else {
        NewlyReleasing(s, a, p);
      }
    }
  }

  lemma NewlyReleasing(s: State, a: Action, p: nat)
    requires p in Next(s, a).permits && Next(s, a).permits[p].phase == Releasing
    requires !(p in s.permits && s.permits[p].phase == Releasing)
    ensures a.Done? && p in InHand(PcOf(Next(s, a), a.t))
  {
  }

  lemma {:induction false} ReachCarried(actions: seq<Action>)
    ensures Carried(Reach(actions))
  {
    hide Next, Inv;
    if actions != [] {
      var init := actions[..|actions| - 1];
      ReachCarried(init);
      Reachable(init);
      NextCarried(Reach(init), actions[|actions| - 1]);
    }
  }

  /** In every interleaving each permit that is being given back is in the hand of exactly one
      thread: no `done` gives up on its permit. */
  lemma ReleasingIsInHand(actions: seq<Action>, p: nat)
    requires p in Reach(actions).permits && Reach(actions).permits[p].phase == Releasing
    ensures
      var s := Reach(actions);
      exists t :: p in InHand(PcOf(s, t)) && forall u :: p in InHand(PcOf(s, u)) ==> u == t
  {
    ReachCarried(actions);
    Reachable(actions);
    hide Reach, Counts, TableOk;
    var s := Reach(actions);
    var t :| p in InHand(PcOf(s, t));
    forall u | p in InHand(PcOf(s, u)) ensures u == t {
      assert u != t ==> InHand(PcOf(s, u)) !! InHand(PcOf(s, t));
    }
  }

  function HeldOf(s: State, w: string): set<nat> {
    set p | p in s.permits && s.permits[p].worker == w && s.permits[p].phase == Held
  }

  /** Nothing leaks: whenever all threads are idle, every permit is held or released, and each
      counter is the number of held permits. */
  lemma QuietCountsHeld(actions: seq<Action>, w: string)
    requires forall t :: PcOf(Reach(actions), t).Idle?
    ensures
      var s := Reach(actions);
      && (forall p :: p in s.permits ==> s.permits[p].phase != Releasing)
      && Counter(s, w) == |HeldOf(s, w)|
  {
    ReachCarried(actions);
    Reachable(actions);
    hide Reach;
    var s := Reach(actions);
    assert Counter(s, w) == |Outstanding(s, w)|;
    assert forall t :: InHand(PcOf(s, t)) == {};
    assert HeldOf(s, w) == Outstanding(s, w);
  }

  /** The worker and limit of the `TryTrack` call a thread is in. */
  ghost function Seeking(pc: Pc): Option<(string, int)> {
    match pc
    case Missed(w, Admit(limit)) => Some((w, limit))
    case Trying(w, _, limit) => Some((w, limit))
    case Swapping(w, _, limit, _) => Some((w, limit))
    case _ => None
  }

  /** The worker of the unlimited call a thread is in. */
  ghost function Counting(pc: Pc): Option<string> {
    match pc
    case Missed(w, Count) => Some(w)
    case Adding(w, _) => Some(w)
    case _ => None
  }

  /** One new permit of `w`, held, and a counter one higher. */
  ghost predicate GrantedIn(s: State, s': State, w: string) {
    && Counter(s', w) == Counter(s, w) + 1
    && exists p: nat :: p !in s.permits && s'.permits == s.permits[p := Permit(w, Held)]
  }

  /** A limited call goes on until it grants a permit below its limit or meets a full counter; a
      lost race only makes it try again. */
  lemma SeeksUntilDecided(s: State, a: Action, t: nat)
    requires Inv(s) && Seeking(PcOf(s, t)).Some?
    ensures
      var s', (w, limit) := Next(s, a), Seeking(PcOf(s, t)).value;
      || Seeking(PcOf(s', t)) == Seeking(PcOf(s, t))
      || (a.Run? && a.t == t && PcOf(s', t).Idle? && |Outstanding(s, w)| < limit && GrantedIn(s, s', w))
      || (a.Run? && a.t == t && PcOf(s', t).Idle? && |Outstanding(s, w)| >= limit && s'.permits == s.permits)
  {
    var pc := PcOf(s, t);
    assert CellOk(s, pc) && NoClamp(pc);
    assert Counter(s, pc.w) == |Outstanding(s, pc.w)|;
    hide Outstanding, Counts;
    if a.Run? && a.t == t && Enabled(s, a) && pc.Swapping? && Value(s, pc.cell) == pc.cur {
      assert Next(s, a).permits == s.permits[a.name := Permit(pc.w, Held)];
    }
  }

  /** An unlimited call goes on until it grants a permit. */
  lemma CountsUntilGranted(s: State, a: Action, t: nat)
    requires Inv(s) && Counting(PcOf(s, t)).Some?
    ensures
      var s', w := Next(s, a), Counting(PcOf(s, t)).value;
      || Counting(PcOf(s', t)) == Counting(PcOf(s, t))
      || (a.Run? && a.t == t && PcOf(s', t).Idle? && GrantedIn(s, s', w))
  {
    var pc := PcOf(s, t);
    assert CellOk(s, pc) && NoClamp(pc);
    hide Outstanding, Counts;
    if a.Run? && a.t == t && Enabled(s, a) && pc.Adding? {
      assert Next(s, a).permits == s.permits[a.name := Permit(pc.w, Held)];
    }
  }

  /** What a caller starts is what it asked for: a call for that worker under that limit, and a
      `done` of a held permit takes that permit in hand; any other `done` does nothing. */
  lemma StartsAsAsked(s: State, a: Action)
    requires Enabled(s, a)
    ensures a.Call? && a.limit > 0 ==> Seeking(PcOf(Next(s, a), a.t)) == Some((a.w, a.limit))
    ensures a.Call? && a.limit <= 0 ==> Counting(PcOf(Next(s, a), a.t)) == Some(a.w)
    ensures a.Done? && s.permits[a.permit].phase == Held ==> a.permit in InHand(PcOf(Next(s, a), a.t))
    ensures a.Done? && s.permits[a.permit].phase != Held ==> Next(s, a) == s
  {
  }

  function Then(s: State, actions: seq<Action>): State {
    if actions == [] then s else Next(Then(s, actions[..|actions| - 1]), actions[|actions| - 1])
  }

  /** The thread is busy after every beginning of these actions but perhaps the last. */
  ghost predicate BusyThroughout(s: State, t: nat, actions: seq<Action>) {
    forall k :: 0 <= k < |actions| ==> !PcOf(Then(s, actions[..k]), t).Idle?
  }

  lemma {:induction false} SeekingThroughout(s: State, t: nat, actions: seq<Action>)
    requires Inv(s) && Seeking(PcOf(s, t)).Some? && BusyThroughout(s, t, actions)
    ensures Inv(Then(s, actions))
    ensures !PcOf(Then(s, actions), t).Idle? ==> Seeking(PcOf(Then(s, actions), t)) == Seeking(PcOf(s, t))
  {
    if actions != [] {
      hide Inv, Seeking, Next;
      var n := |actions| - 1;
      var init := actions[..n];
      assert forall k :: 0 <= k < n ==> init[..k] == actions[..k];
      SeekingThroughout(s, t, init);
      assert !PcOf(Then(s, actions[..n]), t).Idle?;
      SeeksUntilDecided(Then(s, init), actions[n], t);
      NextKeeps(Then(s, init), actions[n]);
    }
  }

  /** A whole limited `TryTrack`, whatever other threads do meanwhile: it ends with a permit of the
      worker asked for, granted at a moment when fewer than `limit` were outstanding, or without
      one, at a moment when at least `limit` were. */
  lemma TryTrackDecides(s: State, t: nat, w: string, limit: int, actions: seq<Action>)
    requires Inv(s) && 0 < limit && PcOf(s, t).Idle? && actions != []
    requires
      var s1 := Next(s, Call(t, w, limit));
      BusyThroughout(s1, t, actions) && PcOf(Then(s1, actions), t).Idle?
    ensures
      var s1 := Next(s, Call(t, w, limit));
      var before, after := Then(s1, actions[..|actions| - 1]), Then(s1, actions);
      if |Outstanding(before, w)| < limit then GrantedIn(before, after, w) else after.permits == before.permits
  {
    hide Inv, Next, Outstanding, GrantedIn;
    var s1, n := Next(s, Call(t, w, limit)), |actions| - 1;
    NextKeeps(s, Call(t, w, limit));
    StartsAsAsked(s, Call(t, w, limit));
    var init := actions[..n];
    assert forall k :: 0 <= k < n ==> init[..k] == actions[..k];
    SeekingThroughout(s1, t, init);
    assert !PcOf(Then(s1, actions[..n]), t).Idle?;
    SeeksUntilDecided(Then(s1, init), actions[n], t);
  }

  /** How many steps a thread needs at most if no other thread interferes. */
  ghost function StepsLeft(s: State, t: nat): nat {
    match PcOf(s, t)
    case Idle => 0
    case Missed(_, goal) => if goal.Count? then 2 else 3
    case Trying(_, _, _) => 2
    case Swapping(_, c, _, cur) => if Value(s, c) == cur then 1 else 3
    case Adding(_, _) => 1
    case Dropping(_, _, _) => 2
    case DropSwapping(_, c, _, cur) => if Value(s, c) == cur then 1 else 3
    case Clamping(_, _, _) => 1
  }

  lemma StepHelps(s: State, t: nat, name: nat)
    requires name !in s.permits && name !in s.cells
    ensures StepsLeft(Next(s, Run(t, name)), t) <= if StepsLeft(s, t) == 0 then 0 else StepsLeft(s, t) - 1
  {
  }

  lemma StepNames(s: State, t: nat, name: nat, other: nat)
    requires other != name && other !in s.permits && other !in s.cells
    requires forall u :: CellOk(s, PcOf(s, u)) && PermitOk(s, PcOf(s, u))
    requires TableOk(s)
    ensures other !in Next(s, Run(t, name)).permits && other !in Next(s, Run(t, name)).cells
  {
    var pc := PcOf(s, t);
    assert CellOk(s, pc) && PermitOk(s, pc);
    if pc.DropSwapping? || pc.Clamping? { assert pc.permit in InHand(pc); }
  }

  /** No call is stuck: a thread that runs alone is idle after three of its steps. */
  lemma FinishesAlone(s: State, t: nat, x: nat, y: nat, z: nat)
    requires Inv(s) && x != y && x != z && y != z
    requires forall n :: n in {x, y, z} ==> n !in s.permits && n !in s.cells
    ensures PcOf(Next(Next(Next(s, Run(t, x)), Run(t, y)), Run(t, z)), t).Idle?
  {
    hide Next, Counts, CellOk, PermitOk, NoClamp, TableOk;
    var s1 := Next(s, Run(t, x));
    var s2 := Next(s1, Run(t, y));
    NextKeeps(s, Run(t, x));
    StepNames(s, t, x, y);
    StepNames(s, t, x, z);
    StepNames(s1, t, y, z);
    StepHelps(s, t, x);
    StepHelps(s1, t, y);
    StepHelps(s2, t, z);
  }

  // ----- The limit

  ghost predicate LimitAtMost(pc: Pc, bound: int) {
    && !pc.Adding? && (pc.Missed? ==> !pc.goal.Count? && (pc.goal.Admit? ==> pc.goal.limit <= bound))
    && (pc.Trying? || pc.Swapping? ==> pc.limit <= bound)
  }

  ghost predicate Limited(s: State, bound: int) {
    && (forall t :: LimitAtMost(PcOf(s, t), bound))
    && (forall w :: Counter(s, w) <= bound)
  }

  lemma NextLimited(s: State, a: Action, bound: int)
    requires Inv(s) && 0 < bound && Limited(s, bound) && (a.Call? ==> 0 < a.limit <= bound)
    ensures Limited(Next(s, a), bound)
  {
    var pc := PcOf(s, a.t);
    assert CellOk(s, pc) && NoClamp(pc) && LimitAtMost(pc, bound);
    assert a.Done? && a.permit in s.permits ==> Counter(s, s.permits[a.permit].worker) <= bound;
    var s' := Next(s, a);
    forall t ensures LimitAtMost(PcOf(s', t), bound) { assert LimitAtMost(PcOf(s, t), bound); }
    forall w ensures Counter(s', w) <= bound { assert Counter(s, w) <= bound; }
  }

  /** If every call uses a positive limit of at most `bound`, no counter ever exceeds `bound`. */
  lemma {:induction false} LimitHolds(actions: seq<Action>, bound: int, w: string)
    requires 0 < bound
    requires forall i :: 0 <= i < |actions| && actions[i].Call? ==> 0 < actions[i].limit <= bound
    ensures 0 <= Counter(Reach(actions), w) <= bound
  {
    CounterIsExact(actions, w);
    LimitedRun(actions, bound);
  }

  lemma {:induction false} LimitedRun(actions: seq<Action>, bound: int)
    requires 0 < bound
    requires forall i :: 0 <= i < |actions| && actions[i].Call? ==> 0 < actions[i].limit <= bound
    ensures Limited(Reach(actions), bound)
  {
    hide Next, Inv, Limited;
    if actions == [] {
      InitialLimited(bound);
    } else {
      var init := actions[..|actions| - 1];
      LimitedRun(init, bound);
      Reachable(init);
      NextLimited(Reach(init), actions[|actions| - 1], bound);
    }
  }

  lemma InitialLimited(bound: int)
    requires 0 < bound
    ensures Limited(INITIAL, bound)
  {
  }
}
