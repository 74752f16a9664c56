/** Whole runs of one ObserverList with any number of iterators: every operation of the list and of
    its iterators, in any order, and what a notification loop over the list visits meanwhile. */
module ObserverListRuns {
  import opened Options
  import opened ObserverListModel

  type IterId = nat

  /** `alive` turns false when the list is destroyed; `iters` are the iterators in existence. */
  datatype System = System(list: ListState, alive: bool, iters: map<IterId, Cursor>)

  datatype Op =
    | Add(o: Observer) | Remove(o: Observer) | Clear
    | Begin(id: IterId) | Copy(id: IterId, from: IterId) | Assign(id: IterId, from: IterId)
    | Next(id: IterId) | Drop(id: IterId)
    | Destroy

  predicate Enabled(s: System, op: Op) {
    match op
    case Add(_) => s.alive
    case Remove(_) => s.alive
    case Clear => s.alive
    case Begin(id) => s.alive && id !in s.iters
    case Copy(id, from) => id !in s.iters && from in s.iters
    case Assign(id, from) => id in s.iters && from in s.iters
    case Next(id) => id in s.iters && (s.iters[id].attached ==> !AtEnd(s.list.slots, s.iters[id]))
    case Drop(id) => id in s.iters
    case Destroy => s.alive
  }

  function Released(l: ListState, c: Cursor): ListState {
    if c.attached then Detach(l) else l
  }

  function Shared(l: ListState, c: Cursor): ListState {
    if c.attached then Attach(l) else l
  }

  function Step(s: System, op: Op): System
    requires Enabled(s, op)
  {
    match op
    case Add(o) => s.(list := Added(s.list, o))
    case Remove(o) => s.(list := Removed(s.list, o))
    case Clear => s.(list := Cleared(s.list))
    case Begin(id) =>
      if s.list.slots == [] then s.(iters := s.iters[id := DETACHED])
      else s.(list := Attach(s.list), iters := s.iters[id := First(s.list)])
    case Copy(id, from) =>
      s.(list := Shared(s.list, s.iters[from]), iters := s.iters[id := s.iters[from]])
    case Assign(id, from) =>
      if id == from then s
      else s.(list := Shared(Released(s.list, s.iters[id]), s.iters[from]),
              iters := s.iters[id := s.iters[from]])
    case Next(id) => s.(iters := s.iters[id := Advance(s.list.slots, s.iters[id])])
    case Drop(id) => s.(list := Released(s.list, s.iters[id]), iters := s.iters - {id})
    case Destroy =>
      s.(alive := false, list := s.list.(live := 0),
         iters := map i | i in s.iters :: s.iters[i].(attached := false))
  }

  // ---------- Invariant of every reachable state ----------

  function AttachedIds(iters: map<IterId, Cursor>): set<IterId> {
    set i | i in iters && iters[i].attached
  }

  function LiveIn(iters: map<IterId, Cursor>): nat {
    |AttachedIds(iters)|
  }

  ghost predicate CursorOk(l: ListState, c: Cursor) {
    c.attached ==> InRange(l.slots, c) && (c.max.None? <==> l.policy == All)
  }

  ghost predicate Inv(s: System) {
    && s.list.live == LiveIn(s.iters)
    && (s.alive ==> ListInv(s.list) && forall i :: i in s.iters ==> CursorOk(s.list, s.iters[i]))
    && (!s.alive ==> s.list.live == 0)
  }

  /** Slots only get longer, and an entry only ever changes by being marked for removal. */
  ghost predicate Grows(a: Slots, b: Slots) {
    |a| <= |b| && forall k :: 0 <= k < |a| ==> b[k] == a[k] || b[k] == None
  }

  function One(c: Cursor): nat {
    if c.attached then 1 else 0
  }

  lemma {:induction false} LiveInUpdate(iters: map<IterId, Cursor>, id: IterId, c: Cursor)
    ensures LiveIn(iters[id := c]) == LiveIn(iters) + One(c) - (if id in iters then One(iters[id]) else 0)
  {
    var was, now := AttachedIds(iters), AttachedIds(iters[id := c]);
    if c.attached {
      assert now == was + {id};
    } else {
      assert now == was - {id};
    }
  }

  lemma {:induction false} LiveInDrop(iters: map<IterId, Cursor>, id: IterId)
    requires id in iters
    ensures LiveIn(iters - {id}) == LiveIn(iters) - One(iters[id])
  {
    assert AttachedIds(iters - {id}) == AttachedIds(iters) - {id};
  }

  /** How each operation moves the number of live iterators. */
  lemma {:induction false} LiveCount(s: System, op: Op)
    requires Inv(s) && Enabled(s, op)
    ensures Step(s, op).list.live == LiveIn(Step(s, op).iters)
  {
    assert s.list.live == LiveIn(s.iters);
    match op
    case Begin(id) =>
      LiveInUpdate(s.iters, id, DETACHED);
      LiveInUpdate(s.iters, id, First(s.list));
    case Copy(id, from) => LiveInUpdate(s.iters, id, s.iters[from]);
    case Assign(id, from) => LiveInUpdate(s.iters, id, s.iters[from]);
    case Next(id) => LiveInUpdate(s.iters, id, Advance(s.list.slots, s.iters[id]));
    case Drop(id) => LiveInDrop(s.iters, id);
    case Destroy => assert AttachedIds(Step(s, op).iters) == {};
    case _ =>
  }

  /** Each operation does to the abstract list exactly what its name says; iterators do nothing. */
  lemma {:induction false} StepRefines(s: System, op: Op)
    requires Inv(s) && Enabled(s, op) && s.alive
    ensures op != Destroy ==> ListInv(Step(s, op).list)
    ensures var a, b := Contents(s.list.slots), Contents(Step(s, op).list.slots);
            match op
            case Add(o) => b == if o in a then a else a + [o]
            case Remove(o) => DeletesOne(a, o, b) && o !in b
            case Clear => b == []
            case _ => b == a
  {
    LiveCount(s, op);
    match op
    case Add(o) => AddRefines(s.list, o);
    case Remove(o) => RemoveRefines(s.list, o);
    case Clear => ClearRefines(s.list);
    case Assign(_, _) => DetachRefines(s.list);
    case Drop(_) => DetachRefines(s.list);
    case _ =>
  }

  /** While an iterator stays live, slots only grow and no live entry changes index. Slots are
      compacted only by the step that takes the last live iterator away. */
  lemma {:induction false} StepGrows(s: System, op: Op)
    requires Inv(s) && Enabled(s, op) && s.alive && s.list.live > 0
    ensures Grows(s.list.slots, Step(s, op).list.slots) || Step(s, op).list.live == 0
    ensures !Grows(s.list.slots, Step(s, op).list.slots) ==> op.Drop? || op.Assign?
  {
    LiveCount(s, op);
    AssignLeavesOne(s, op);
  }

  /** An iterator assigned from another live one of the list is not the last. */
  lemma {:induction false} AssignLeavesOne(s: System, op: Op)
    requires Inv(s) && Enabled(s, op)
    ensures op.Assign? && op.id != op.from && s.iters[op.id].attached && s.iters[op.from].attached ==> s.list.live >= 2
  {
    if op.Assign? && op.id != op.from && s.iters[op.id].attached && s.iters[op.from].attached {
      assert {op.id, op.from} <= AttachedIds(s.iters);
      SubsetCardinality({op.id, op.from}, AttachedIds(s.iters));
    }
  }

  lemma {:induction false} SubsetCardinality<T>(a: set<T>, b: set<T>)
    requires a <= b
    ensures |a| <= |b|
  {
    if a != {} {
      var x :| x in a;
      SubsetCardinality(a - {x}, b - {x});
    }
  }

  lemma {:induction false} InvStep(s: System, op: Op)
    requires Inv(s) && Enabled(s, op)
    ensures Inv(Step(s, op))
  {
    LiveCount(s, op);
    var t := Step(s, op);
    if s.alive && t.alive {
      StepRefines(s, op);
      forall i | i in t.iters ensures CursorOk(t.list, t.iters[i]) {
        if t.iters[i].attached {
          assert i in AttachedIds(t.iters);
          CursorStep(s, op, i);
        }
      }
    } else if !s.alive {
      DeadListStays(s, op);
    }
  }

  lemma {:induction false} CursorStep(s: System, op: Op, i: IterId)
    requires Inv(s) && Enabled(s, op) && s.alive && Step(s, op).alive
    requires i in Step(s, op).iters && Step(s, op).iters[i].attached
    requires Step(s, op).list.live > 0
    ensures CursorOk(Step(s, op).list, Step(s, op).iters[i])
  {
    if s.list.live > 0 {
      StepGrows(s, op);
    } else {
      assert forall j :: j in s.iters && s.iters[j].attached ==> j in AttachedIds(s.iters);
      assert AttachedIds(s.iters) == {};
    }
  }

  lemma {:induction false} DeadListStays(s: System, op: Op)
    requires Inv(s) && Enabled(s, op) && !s.alive
    ensures Step(s, op).list == s.list && !Step(s, op).alive
    ensures forall i :: i in Step(s, op).iters ==> !Step(s, op).iters[i].attached
  {
    assert AttachedIds(s.iters) == {};
    assert forall j :: j in s.iters && s.iters[j].attached ==> j in AttachedIds(s.iters);
  }

  // ---------- Runs ----------

  ghost predicate IsRun(states: seq<System>, ops: seq<Op>) {
    && |states| == |ops| + 1
    && Inv(states[0])
    && forall k :: 0 <= k < |ops| ==> Enabled(states[k], ops[k]) && states[k + 1] == Step(states[k], ops[k])
  }

  function Empty(policy: Policy): System {
    System(ListState(policy, [], 0, 0), true, map[])
  }

  lemma {:induction false} EmptyInv(policy: Policy)
    ensures Inv(Empty(policy))
  {
    assert AttachedIds(Empty(policy).iters) == {};
  }

  lemma {:induction false} RunInv(states: seq<System>, ops: seq<Op>, k: nat)
    requires IsRun(states, ops) && k <= |ops|
    ensures Inv(states[k])
  {
    if k > 0 {
      RunInv(states, ops, k - 1);
      InvStep(states[k - 1], ops[k - 1]);
    }
  }

  /** In every reachable state of a list that exists: no observer twice, the counter exact, and no
      slot marked for removal once no iterator is live. */
  lemma {:induction false} ReachableList(states: seq<System>, ops: seq<Op>, policy: Policy, k: nat)
    requires IsRun(states, ops) && states[0] == Empty(policy) && k <= |ops| && states[k].alive
    ensures Distinct(Contents(states[k].list.slots))
    ensures states[k].list.count == |Contents(states[k].list.slots)|
    ensures AttachedIds(states[k].iters) == {} ==> None !in states[k].list.slots
  {
    RunInv(states, ops, k);
    DistinctContents(states[k].list.slots);
  }

  /** Over any stretch of a run in which some iterator is live throughout, slots only grow and no live
      entry changes index. */
  lemma {:induction false} LiveSlotsGrow(states: seq<System>, ops: seq<Op>, i: nat, j: nat)
    requires IsRun(states, ops) && i <= j <= |ops|
    requires forall k :: i <= k <= j ==> states[k].alive && states[k].list.live > 0
    ensures Grows(states[i].list.slots, states[j].list.slots)
  {
    if i < j {
      LiveSlotsGrow(states, ops, i, j - 1);
      RunInv(states, ops, j - 1);
      StepGrows(states[j - 1], ops[j - 1]);
    }
  }

  /** Once the list is destroyed every iterator, old or copied later, is at its end, and nothing done
      to iterators touches the list again. */
  lemma {:induction false} AfterDestroy(states: seq<System>, ops: seq<Op>, d: nat, k: nat)
    requires IsRun(states, ops) && d < k <= |ops| && ops[d] == Destroy
    ensures !states[k].alive && states[k].list == states[d].list.(live := 0)
    ensures forall i :: i in states[k].iters ==> AtEnd(states[k].list.slots, states[k].iters[i])
    decreases k
  {
    RunInv(states, ops, k - 1);
    if k > d + 1 {
      AfterDestroy(states, ops, d, k - 1);
      DeadListStays(states[k - 1], ops[k - 1]);
    }
  }

  /** A copied or assigned iterator is equal to the original, and stays so when both are incremented:
      both then visit the same observers. */
  lemma {:induction false} CopyEqualsOriginal(states: seq<System>, ops: seq<Op>, k: nat)
    requires IsRun(states, ops) && k < |ops| && (ops[k].Copy? || ops[k].Assign?)
    ensures var s, id, from := states[k + 1], ops[k].id, ops[k].from;
            && id in s.iters && from in s.iters && (s.iters[id].attached <==> s.iters[from].attached)
            && SameCursor(s.list.slots, s.iters[id], s.iters[from], true)
            && SameCursor(s.list.slots, Advance(s.list.slots, s.iters[id]), Advance(s.list.slots, s.iters[from]), true)
            && Ended(s, id) == Ended(s, from)
  {
  }

  // ---------- One notification loop inside a run ----------

  predicate Positions(op: Op, id: IterId) {
    op == Begin(id) || op == Next(id)
  }

  predicate Retargets(op: Op, id: IterId) {
    (op.Begin? || op.Copy? || op.Assign? || op.Drop?) && op.id == id
  }

  predicate Ended(s: System, id: IterId)
    requires id in s.iters
  {
    AtEnd(s.list.slots, s.iters[id])
  }

  /** `begin()` of a list without slots is on no list: whatever is registered later, under either policy, the
      iterator stays at its end until it is used for something else. */
  lemma {:induction false} BegunEmptyStaysEnded(states: seq<System>, ops: seq<Op>, i: nat, k: nat, id: IterId)
    requires IsRun(states, ops) && i < k <= |ops| && ops[i] == Begin(id) && states[i].list.slots == []
    requires forall m :: i < m < k ==> !Retargets(ops[m], id)
    ensures id in states[k].iters && Ended(states[k], id) && !states[k].iters[id].attached
    decreases k
  {
    if k > i + 1 {
      BegunEmptyStaysEnded(states, ops, i, k - 1, id);
    }
  }

  /** `for (it = begin(); it != end(); ++it) body;` with iterator `id`: the body, between two
      positionings, is any operations on the list and on other iterators, complete nested loops
      included, and the loop stops at the first positioning that finds the end. */
  ghost predicate LoopRun(states: seq<System>, ops: seq<Op>, id: IterId) {
    && IsRun(states, ops)
    && states[0].alive
    && 0 < |ops| && ops[0] == Begin(id)
    && (forall k :: 0 < k < |ops| ==> !Retargets(ops[k], id) && ops[k] != Destroy)
    && (forall k :: 0 <= k < |ops| - 1 && Positions(ops[k], id) ==>
          id in states[k + 1].iters && !Ended(states[k + 1], id))
  }

  ghost predicate Complete(states: seq<System>, ops: seq<Op>, id: IterId)
    requires LoopRun(states, ops, id)
  {
    && Positions(ops[|ops| - 1], id)
    && id in states[|ops|].iters && Ended(states[|ops|], id)
  }

  /** The loop body entered at `time`, with the slot dereferenced there and what it held. */
  datatype Visit = Visit(time: nat, slot: nat, observer: Option<Observer>)

  function Deref(s: System, id: IterId): Option<Observer>
    requires id in s.iters
  {
    if s.iters[id].index < |s.list.slots| then s.list.slots[s.iters[id].index] else None
  }

  function Visits(states: seq<System>, ops: seq<Op>, id: IterId, n: nat): seq<Visit>
    requires n <= |ops| < |states|
  {
    if n == 0 then []
    else
      Visits(states, ops, id, n - 1) +
      if Positions(ops[n - 1], id) && id in states[n].iters && !Ended(states[n], id)
      then [Visit(n, states[n].iters[id].index, Deref(states[n], id))] else []
  }

  predicate Visited(v: seq<Visit>, k: nat) {
    exists i :: 0 <= i < |v| && v[i].slot == k
  }

  /** Iterator `id` has not come to slot `k` yet, or not started. */
  predicate NotReached(s: System, id: IterId, k: nat) {
    id in s.iters ==> s.iters[id].index < k
  }

  predicate MarkedAhead(s: System, id: IterId, k: nat) {
    NotReached(s, id, k) && k < |s.list.slots| && s.list.slots[k] == None
  }

  ghost predicate RemovedBeforeReached(states: seq<System>, id: IterId, n: nat, k: nat)
    requires n < |states|
  {
    exists t :: 0 <= t <= n && MarkedAhead(states[t], id, k)
  }

  /** How many slots the loop has dealt with after `n` operations. */
  function Frontier(states: seq<System>, ops: seq<Op>, id: IterId, n: nat): nat
    requires 0 < n <= |ops| < |states| && id in states[n].iters
  {
    if Positions(ops[n - 1], id) && Ended(states[n], id) then states[n].iters[id].index
    else states[n].iters[id].index + 1
  }

  ghost predicate Ordered(v: seq<Visit>) {
    forall i, j :: 0 <= i < j < |v| ==> v[i].slot < v[j].slot
  }

  ghost predicate VisitsHold(states: seq<System>, v: seq<Visit>, n: nat)
    requires n < |states|
  {
    forall i :: 0 <= i < |v| ==>
      && 1 <= v[i].time <= n && v[i].observer.Some?
      && v[i].slot < |states[v[i].time].list.slots|
      && states[v[i].time].list.slots[v[i].slot] == v[i].observer
  }

  /** Everything below the frontier was visited, or marked before it was reached. */
  ghost predicate Covered(states: seq<System>, id: IterId, n: nat, v: seq<Visit>, frontier: nat)
    requires n < |states|
  {
    && id in states[n].iters && frontier <= Bound(states[n].list.slots, states[n].iters[id].max)
    && (forall i :: 0 <= i < |v| ==> v[i].slot < frontier)
    && (forall k: nat {:trigger Visited(v, k)} :: k < frontier ==>
          Visited(v, k) || (states[n].list.slots[k] == None && RemovedBeforeReached(states, id, n, k)))
  }

  ghost predicate LoopInv(states: seq<System>, ops: seq<Op>, id: IterId, n: nat)
    requires 0 < n <= |ops| < |states|
  {
    var s := states[n];
    var v := Visits(states, ops, id, n);
    && Inv(s) && s.alive && id in s.iters
    && (s.iters[id].attached ==>
          && Grows(states[0].list.slots, s.list.slots)
          && (s.iters[id].max.Some? ==> s.iters[id].max == Some(|states[0].list.slots|))
          && Covered(states, id, n, v, Frontier(states, ops, id, n)))
    && (!s.iters[id].attached ==> n == |ops| == 1 && states[0].list.slots == [] && v == [])
    && s.list.policy == states[0].list.policy
    && Ordered(v) && VisitsHold(states, v, n)
  }

  lemma {:induction false} LoopStart(states: seq<System>, ops: seq<Op>, id: IterId)
    requires LoopRun(states, ops, id)
    ensures LoopInv(states, ops, id, 1)
  {
    InvStep(states[0], ops[0]);
    assert Visits(states, ops, id, 0) == [];
    if states[1].iters[id].attached {
      StartCovered(states, ops, id);
    }
  }

  lemma {:induction false} StartCovered(states: seq<System>, ops: seq<Op>, id: IterId)
    requires LoopRun(states, ops, id) && id in states[1].iters && states[1].iters[id].attached
    ensures Covered(states, id, 1, Visits(states, ops, id, 1), Frontier(states, ops, id, 1))
  {
    assert Visits(states, ops, id, 0) == [];
    var s, v, f := states[1], Visits(states, ops, id, 1), Frontier(states, ops, id, 1);
    forall k: nat | k < f
      ensures Visited(v, k) || (s.list.slots[k] == None && RemovedBeforeReached(states, id, 1, k))
    {
      if k == s.iters[id].index {
        assert v[0].slot == k;
      } else {
        assert MarkedAhead(states[0], id, k);
      }
    }
  }

  /** The increment of the loop's own iterator, seen from outside. */
  lemma {:induction false} NextStep(states: seq<System>, ops: seq<Op>, id: IterId, n: nat)
    requires LoopRun(states, ops, id) && 0 < n < |ops| && ops[n] == Next(id)
    requires id in states[n].iters && states[n].iters[id].attached && Inv(states[n]) && states[n].alive
    ensures states[n + 1].list == states[n].list && states[n + 1].alive && id in states[n + 1].iters
    ensures var c, d, slots := states[n].iters[id], states[n + 1].iters[id], states[n].list.slots;
            && d == c.(index := d.index) && c.index < d.index <= Bound(slots, c.max)
            && (forall k :: c.index < k < d.index ==> slots[k] == None)
            && Frontier(states, ops, id, n) == c.index + 1
            && (if Ended(states[n + 1], id)
                then Frontier(states, ops, id, n + 1) == d.index
                     && Visits(states, ops, id, n + 1) == Visits(states, ops, id, n)
                else Frontier(states, ops, id, n + 1) == d.index + 1
                     && d.index < Bound(slots, c.max) && slots[d.index].Some?
                     && Visits(states, ops, id, n + 1) ==
                        Visits(states, ops, id, n) + [Visit(n + 1, d.index, slots[d.index])])
  {
    assert CursorOk(states[n].list, states[n].iters[id]);
  }

  lemma {:induction false} LoopStep(states: seq<System>, ops: seq<Op>, id: IterId, n: nat)
    requires LoopRun(states, ops, id) && 0 < n < |ops| && LoopInv(states, ops, id, n)
    ensures LoopInv(states, ops, id, n + 1)
  {
    InvStep(states[n], ops[n]);
    var v, w := Visits(states, ops, id, n), Visits(states, ops, id, n + 1);
    if ops[n] == Next(id) {
      NextCovered(states, ops, id, n);
      NextStep(states, ops, id, n);
      VisitsExtend(states, v, w, n, states[n + 1].iters[id].index);
    } else {
      OtherStep(states, ops, id, n);
      assert CursorOk(states[n].list, states[n].iters[id]);
      OtherCovered(states, ops, id, n);
      VisitsExtend(states, v, w, n, |states[n].list.slots|);
    }
  }

  lemma {:induction false} VisitsExtend(states: seq<System>, v: seq<Visit>, w: seq<Visit>, n: nat, slot: nat)
    requires n + 1 < |states| && Ordered(v) && VisitsHold(states, v, n)
    requires forall i :: 0 <= i < |v| ==> v[i].slot < slot
    requires w == v || (slot < |states[n + 1].list.slots| && states[n + 1].list.slots[slot].Some?
                        && w == v + [Visit(n + 1, slot, states[n + 1].list.slots[slot])])
    ensures Ordered(w) && VisitsHold(states, w, n + 1)
  {
  }

  /** An increment deals with the slots it skips, all of them marked, and the one it stops at. */
  lemma {:induction false} NextCovered(states: seq<System>, ops: seq<Op>, id: IterId, n: nat)
    requires LoopRun(states, ops, id) && 0 < n < |ops| && ops[n] == Next(id)
    requires id in states[n].iters && states[n].iters[id].attached && Inv(states[n]) && states[n].alive
    requires Covered(states, id, n, Visits(states, ops, id, n), Frontier(states, ops, id, n))
    requires id in states[n + 1].iters
    ensures Covered(states, id, n + 1, Visits(states, ops, id, n + 1), Frontier(states, ops, id, n + 1))
  {
    NextStep(states, ops, id, n);
    var v, w := Visits(states, ops, id, n), Visits(states, ops, id, n + 1);
    forall k: nat | k < Frontier(states, ops, id, n + 1)
      ensures Visited(w, k) || (states[n].list.slots[k] == None && RemovedBeforeReached(states, id, n + 1, k))
    {
      if k <= states[n].iters[id].index {
        CoveredStays(states, id, n, v, w, k);
      } else if k < states[n + 1].iters[id].index {
        assert MarkedAhead(states[n], id, k);
      } else {
        assert w[|v|].slot == k;
      }
    }
  }

  /** Any other operation leaves the loop's iterator where it is, and slots only grow. */
  lemma {:induction false} OtherStep(states: seq<System>, ops: seq<Op>, id: IterId, n: nat)
    requires LoopRun(states, ops, id) && 0 < n < |ops| && ops[n] != Next(id)
    requires id in states[n].iters && states[n].iters[id].attached && Inv(states[n]) && states[n].alive
    ensures id in states[n + 1].iters && states[n + 1].iters[id] == states[n].iters[id]
    ensures states[n + 1].alive && states[n + 1].list.policy == states[n].list.policy
    ensures Grows(states[n].list.slots, states[n + 1].list.slots)
    ensures Visits(states, ops, id, n + 1) == Visits(states, ops, id, n)
  {
    assert id in AttachedIds(states[n].iters);
    StepGrows(states[n], ops[n]);
    LiveCount(states[n], ops[n]);
    assert id in AttachedIds(states[n + 1].iters);
  }

  lemma {:induction false} OtherCovered(states: seq<System>, ops: seq<Op>, id: IterId, n: nat)
    requires LoopRun(states, ops, id) && 0 < n < |ops| && ops[n] != Next(id)
    requires id in states[n].iters && !(Positions(ops[n - 1], id) && Ended(states[n], id))
    requires id in states[n + 1].iters && states[n + 1].iters[id] == states[n].iters[id]
    requires Grows(states[n].list.slots, states[n + 1].list.slots) && InRange(states[n].list.slots, states[n].iters[id])
    requires states[n].iters[id].attached
    requires Covered(states, id, n, Visits(states, ops, id, n), Frontier(states, ops, id, n))
    ensures Covered(states, id, n + 1, Visits(states, ops, id, n), Frontier(states, ops, id, n + 1))
  {
    var v := Visits(states, ops, id, n);
    var f := Frontier(states, ops, id, n + 1);
    assert f == Frontier(states, ops, id, n);
    forall k: nat | k < f
      ensures Visited(v, k) || (states[n + 1].list.slots[k] == None && RemovedBeforeReached(states, id, n + 1, k))
    {
      CoveredStays(states, id, n, v, v, k);
    }
  }

  lemma {:induction false} CoveredStays(states: seq<System>, id: IterId, n: nat, v: seq<Visit>, w: seq<Visit>, k: nat)
    requires n + 1 < |states| && v <= w && k < |states[n].list.slots|
    requires Visited(v, k) || (states[n].list.slots[k] == None && RemovedBeforeReached(states, id, n, k))
    ensures Visited(w, k) || (states[n].list.slots[k] == None && RemovedBeforeReached(states, id, n + 1, k))
  {
    if Visited(v, k) {
      var i :| 0 <= i < |v| && v[i].slot == k;
      assert w[i].slot == k;
    } else {
      var t :| 0 <= t <= n && MarkedAhead(states[t], id, k);
    }
  }

  lemma {:induction false} LoopInvHolds(states: seq<System>, ops: seq<Op>, id: IterId, n: nat)
    requires LoopRun(states, ops, id) && 0 < n <= |ops|
    ensures LoopInv(states, ops, id, n)
  {
    if n == 1 {
      LoopStart(states, ops, id);
    } else {
      LoopInvHolds(states, ops, id, n - 1);
      LoopStep(states, ops, id, n - 1);
    }
  }

  // ---------- What a notification loop visits ----------

  ghost predicate ExactlyOnce(v: seq<Visit>, o: Observer) {
    exists i :: 0 <= i < |v| && v[i].observer == Some(o)
      && forall j :: 0 <= j < |v| && v[j].observer == Some(o) ==> j == i
  }

  predicate Unregisters(op: Op, o: Observer) {
    op == Remove(o) || op == Clear
  }

  /** Visited slots strictly increase, and whatever is visited is registered at that moment: an
      observer removed before its turn is never visited. */
  lemma {:induction false} LoopVisitsRegisteredInOrder(states: seq<System>, ops: seq<Op>, id: IterId)
    requires LoopRun(states, ops, id)
    ensures var v := Visits(states, ops, id, |ops|);
            && Ordered(v)
            && forall i :: 0 <= i < |v| ==>
                 && 1 <= v[i].time <= |ops| && v[i].observer.Some?
                 && v[i].observer.value in Contents(states[v[i].time].list.slots)
  {
    LoopInvHolds(states, ops, id, |ops|);
  }

  /** A loop whose body destroys the list at operation `d`: a loop up to there, and then anything that
      does not reuse the loop's iterator. */
  ghost predicate DestroyedLoop(states: seq<System>, ops: seq<Op>, id: IterId, d: nat) {
    && IsRun(states, ops) && 0 < d < |ops| && ops[d] == Destroy
    && LoopRun(states[..d + 1], ops[..d], id)
    && forall k :: d < k < |ops| ==> !Retargets(ops[k], id)
  }

  lemma {:induction false} VisitsOfPrefix(states: seq<System>, ops: seq<Op>, id: IterId, d: nat, n: nat)
    requires n <= d <= |ops| < |states|
    ensures Visits(states[..d + 1], ops[..d], id, n) == Visits(states, ops, id, n)
  {
    if n > 0 {
      VisitsOfPrefix(states, ops, id, d, n - 1);
    }
  }

  lemma {:induction false} NoVisitsAtEnd(states: seq<System>, ops: seq<Op>, id: IterId, d: nat, n: nat)
    requires d <= n <= |ops| < |states|
    requires forall k :: d < k <= n && id in states[k].iters ==> Ended(states[k], id)
    ensures Visits(states, ops, id, n) == Visits(states, ops, id, d)
  {
    if n > d {
      NoVisitsAtEnd(states, ops, id, d, n - 1);
    }
  }

  /** Such a loop visits nothing after the destruction, and what it visited before it visited in order
      and registered. */
  lemma {:induction false} DestroyedLoopStops(states: seq<System>, ops: seq<Op>, id: IterId, d: nat)
    requires DestroyedLoop(states, ops, id, d)
    ensures var v := Visits(states, ops, id, |ops|);
            && Ordered(v)
            && forall i :: 0 <= i < |v| ==>
                 && 1 <= v[i].time <= d && v[i].observer.Some?
                 && v[i].observer.value in Contents(states[v[i].time].list.slots)
  {
    forall k | d < k <= |ops| && id in states[k].iters ensures Ended(states[k], id) {
      AfterDestroy(states, ops, d, k);
    }
    NoVisitsAtEnd(states, ops, id, d, |ops|);
    VisitsOfPrefix(states, ops, id, d, d);
    LoopVisitsRegisteredInOrder(states[..d + 1], ops[..d], id);
  }

  /** While the loop's iterator lives, no entry changes index, from any moment to any later one. */
  lemma {:induction false} LoopSlotsGrow(states: seq<System>, ops: seq<Op>, id: IterId, i: nat, j: nat)
    requires LoopRun(states, ops, id) && 0 <= i <= j <= |ops|
    ensures Grows(states[i].list.slots, states[j].list.slots)
  {
    if i < j {
      LoopSlotsGrow(states, ops, id, i, j - 1);
      if j > 1 {
        LoopInvHolds(states, ops, id, j - 1);
        if ops[j - 1] == Next(id) {
          NextStep(states, ops, id, j - 1);
        } else {
          OtherStep(states, ops, id, j - 1);
        }
      }
    }
  }

  lemma {:induction false} EntryStays(s: System, op: Op, k: nat, o: Observer)
    requires Inv(s) && Enabled(s, op) && s.alive && s.list.live > 0 && Step(s, op).list.live > 0
    requires k < |s.list.slots| && s.list.slots[k] == Some(o) && !Unregisters(op, o)
    ensures k < |Step(s, op).list.slots| && Step(s, op).list.slots[k] == Some(o)
  {
    if op.Remove? {
      assert Step(s, op).list == Removed(s.list, op.o);
    } else {
      StepAppends(s, op);
    }
  }

  lemma {:induction false} StepAppends(s: System, op: Op)
    requires Inv(s) && Enabled(s, op) && s.alive && s.list.live > 0 && Step(s, op).list.live > 0
    requires !op.Remove? && !op.Clear?
    ensures s.list.slots <= Step(s, op).list.slots
  {
    LiveCount(s, op);
    AssignLeavesOne(s, op);
  }

  lemma {:induction false} LoopEntryStays(
      states: seq<System>, ops: seq<Op>, id: IterId, i: nat, j: nat, k: nat, o: Observer)
    requires LoopRun(states, ops, id) && 1 <= i <= j <= |ops|
    requires k < |states[i].list.slots| && states[i].list.slots[k] == Some(o)
    requires forall m :: i <= m < |ops| ==> !Unregisters(ops[m], o)
    ensures k < |states[j].list.slots| && states[j].list.slots[k] == Some(o)
  {
    if i < j {
      LoopEntryStays(states, ops, id, i, j - 1, k, o);
      LoopInvHolds(states, ops, id, j - 1);
      LoopInvHolds(states, ops, id, j);
      assert id in AttachedIds(states[j - 1].iters) && id in AttachedIds(states[j].iters);
      EntryStays(states[j - 1], ops[j - 1], k, o);
    }
  }

  lemma {:induction false} IndexGrows(states: seq<System>, ops: seq<Op>, id: IterId, i: nat, j: nat)
    requires LoopRun(states, ops, id) && 1 <= i <= j <= |ops|
    ensures id in states[i].iters && id in states[j].iters && states[i].iters[id].index <= states[j].iters[id].index
  {
    LoopInvHolds(states, ops, id, j);
    if i < j {
      IndexGrows(states, ops, id, i, j - 1);
      LoopInvHolds(states, ops, id, j - 1);
      if ops[j - 1] == Next(id) {
        NextStep(states, ops, id, j - 1);
      } else {
        OtherStep(states, ops, id, j - 1);
      }
    }
  }

  /** A visit is where the iterator stood at its time. */
  predicate AtIndex(states: seq<System>, id: IterId, w: Visit) {
    w.time < |states| && id in states[w.time].iters && w.slot == states[w.time].iters[id].index
  }

  lemma {:induction false} VisitsAtIndex(states: seq<System>, ops: seq<Op>, id: IterId, n: nat, i: nat)
    requires n <= |ops| < |states| && i < |Visits(states, ops, id, n)|
    ensures AtIndex(states, id, Visits(states, ops, id, n)[i])
  {
    if i < |Visits(states, ops, id, n - 1)| {
      VisitsAtIndex(states, ops, id, n - 1, i);
    }
  }

  /** A slot visited at some time was not marked before that, and is behind the iterator after that. */
  lemma {:induction false} VisitedNotMarkedAhead(states: seq<System>, ops: seq<Op>, id: IterId, w: Visit, u: nat)
    requires LoopRun(states, ops, id) && 1 <= w.time <= |ops| && u <= |ops|
    requires AtIndex(states, id, w)
    requires w.slot < |states[w.time].list.slots| && states[w.time].list.slots[w.slot].Some?
    ensures !MarkedAhead(states[u], id, w.slot)
  {
    if u < w.time {
      LoopSlotsGrow(states, ops, id, u, w.time);
    } else {
      IndexGrows(states, ops, id, w.time, u);
    }
  }

  /** A complete loop visits a slot if and only if it was not marked before the loop reached it. Under
      EXISTING_ONLY this is about the slots that existed at its start. */
  lemma {:induction false} CompleteLoopMissesOnlyRemoved(states: seq<System>, ops: seq<Op>, id: IterId, k: nat)
    requires LoopRun(states, ops, id) && Complete(states, ops, id)
    requires k < |states[|ops|].list.slots|
    requires states[0].list.policy == All || k < |states[0].list.slots|
    ensures Visited(Visits(states, ops, id, |ops|), k) <==> !RemovedBeforeReached(states, id, |ops|, k)
  {
    var v := Visits(states, ops, id, |ops|);
    LoopInvHolds(states, ops, id, |ops|);
    assert CursorOk(states[|ops|].list, states[|ops|].iters[id]);
    if Visited(v, k) {
      var i :| 0 <= i < |v| && v[i].slot == k;
      VisitsAtIndex(states, ops, id, |ops|, i);
      forall u | 0 <= u <= |ops| ensures !MarkedAhead(states[u], id, k) {
        VisitedNotMarkedAhead(states, ops, id, v[i], u);
      }
    }
  }

  // ---------- One registration ----------

  /** Slot `k` holds a registration of `o` made before the loop (`t == 0`) or by operation `t - 1`. */
  ghost predicate Registration(states: seq<System>, ops: seq<Op>, t: nat, k: nat, o: Observer)
    requires t <= |ops| < |states|
  {
    if t == 0 then k < |states[0].list.slots| && states[0].list.slots[k] == Some(o)
    else ops[t - 1] == Add(o) && o !in Contents(states[t - 1].list.slots) && k == |states[t - 1].list.slots|
  }

  /** Some operation from `t` on unregisters `o` before the loop has reached slot `k`. */
  ghost predicate UnregisteredAhead(states: seq<System>, ops: seq<Op>, id: IterId, t: nat, k: nat, o: Observer)
    requires |ops| < |states|
  {
    exists m :: t <= m < |ops| && Unregisters(ops[m], o) && NotReached(states[m], id, k)
  }

  ghost predicate EntryIs(states: seq<System>, j: nat, k: nat, e: Option<Observer>) {
    j < |states| && k < |states[j].list.slots| && states[j].list.slots[k] == e
  }

  /** The first moment inside the loop at which the registration is there. */
  function Since(t: nat): nat {
    if t == 0 then 1 else t
  }

  lemma {:induction false} EntryMade(states: seq<System>, ops: seq<Op>, id: IterId, t: nat, k: nat, o: Observer)
    requires LoopRun(states, ops, id) && t <= |ops| && Registration(states, ops, t, k, o)
    ensures Since(t) <= |ops| && EntryIs(states, Since(t), k, Some(o))
  {
  }

  lemma {:induction false} EntryKeeps(
      states: seq<System>, ops: seq<Op>, id: IterId, t: nat, k: nat, o: Observer, j: nat)
    requires LoopRun(states, ops, id) && t <= |ops| && Registration(states, ops, t, k, o) && Since(t) <= j <= |ops|
    ensures EntryIs(states, j, k, Some(o)) || EntryIs(states, j, k, None)
  {
    EntryMade(states, ops, id, t, k, o);
    LoopSlotsGrow(states, ops, id, Since(t), j);
  }

  /** Live iterators at two neighbouring moments of the loop's body. */
  lemma {:induction false} LoopStaysLive(states: seq<System>, ops: seq<Op>, id: IterId, m: nat)
    requires LoopRun(states, ops, id) && 1 <= m < |ops|
    ensures Inv(states[m]) && states[m].alive && states[m].list.live > 0 && states[m + 1].list.live > 0
  {
    LoopInvHolds(states, ops, id, m);
    LoopInvHolds(states, ops, id, m + 1);
    assert id in AttachedIds(states[m].iters) && id in AttachedIds(states[m + 1].iters);
  }

  /** Only unregistering marks an entry. */
  lemma {:induction false} MarkingUnregisters(
      states: seq<System>, ops: seq<Op>, id: IterId, i: nat, u: nat, k: nat, o: Observer) returns (m: nat)
    requires LoopRun(states, ops, id) && 1 <= i <= u <= |ops| && EntryIs(states, i, k, Some(o))
    requires EntryIs(states, u, k, None)
    ensures i <= m < u && Unregisters(ops[m], o)
  {
    m := i;
    while !Unregisters(ops[m], o)
      invariant i <= m < u && EntryIs(states, m, k, Some(o))
      decreases u - m
    {
      LoopStaysLive(states, ops, id, m);
      EntryStays(states[m], ops[m], k, o);
      m := m + 1;
    }
  }

  /** Unregistering marks the entry and leaves the loop's iterator where it is. */
  lemma {:induction false} UnregisteringMarks(s: System, op: Op, k: nat, o: Observer)
    requires Inv(s) && Enabled(s, op) && s.alive && s.list.live > 0 && Unregisters(op, o)
    requires k < |s.list.slots| && (s.list.slots[k] == Some(o) || s.list.slots[k] == None)
    ensures k < |Step(s, op).list.slots| && Step(s, op).list.slots[k] == None && Step(s, op).iters == s.iters
  {
  }

  /** A registration is removed before it is reached if and only if it is unregistered ahead. */
  lemma {:induction false} RemovedIffUnregistered(
      states: seq<System>, ops: seq<Op>, id: IterId, t: nat, k: nat, o: Observer)
    requires LoopRun(states, ops, id) && t <= |ops| && Registration(states, ops, t, k, o)
    ensures RemovedBeforeReached(states, id, |ops|, k) <==> UnregisteredAhead(states, ops, id, t, k, o)
  {
    EntryMade(states, ops, id, t, k, o);
    if RemovedBeforeReached(states, id, |ops|, k) {
      var u :| 0 <= u <= |ops| && MarkedAhead(states[u], id, k);
      MarkedWasUnregistered(states, ops, id, t, k, o, u);
    }
    if UnregisteredAhead(states, ops, id, t, k, o) {
      var m :| t <= m < |ops| && Unregisters(ops[m], o) && NotReached(states[m], id, k);
      EntryKeeps(states, ops, id, t, k, o, m);
      LoopStaysLive(states, ops, id, m);
      UnregisteringMarks(states[m], ops[m], k, o);
      assert MarkedAhead(states[m + 1], id, k);
    }
  }

  lemma {:induction false} MarkedWasUnregistered(
      states: seq<System>, ops: seq<Op>, id: IterId, t: nat, k: nat, o: Observer, u: nat)
    requires LoopRun(states, ops, id) && t <= |ops| && Registration(states, ops, t, k, o)
    requires u <= |ops| && MarkedAhead(states[u], id, k)
    ensures UnregisteredAhead(states, ops, id, t, k, o)
  {
    EntryMade(states, ops, id, t, k, o);
    if u < t {
      LoopSlotsGrow(states, ops, id, u, t - 1);
    }
    var m := MarkingUnregisters(states, ops, id, Since(t), u, k, o);
    IndexGrows(states, ops, id, m, u);
  }

  ghost predicate VisitedOnceAt(v: seq<Visit>, k: nat, o: Observer) {
    exists i :: 0 <= i < |v| && v[i].slot == k && v[i].observer == Some(o)
      && forall j :: 0 <= j < |v| && v[j].slot == k ==> j == i
  }

  /** A complete loop visits a registration made before it, or under ALL during it, exactly once if and
      only if it is not unregistered before the loop reaches it: unregistering it during its own turn,
      or later, makes no difference. */
  lemma {:induction false} RegistrationVisitedExactly(
      states: seq<System>, ops: seq<Op>, id: IterId, t: nat, k: nat, o: Observer)
    requires LoopRun(states, ops, id) && Complete(states, ops, id)
    requires t <= |ops| && Registration(states, ops, t, k, o) && (t == 0 || states[0].list.policy == All)
    ensures var v := Visits(states, ops, id, |ops|);
            if UnregisteredAhead(states, ops, id, t, k, o) then !Visited(v, k) else VisitedOnceAt(v, k, o)
  {
    var v := Visits(states, ops, id, |ops|);
    RemovedIffUnregistered(states, ops, id, t, k, o);
    EntryMade(states, ops, id, t, k, o);
    EntryKeeps(states, ops, id, t, k, o, |ops|);
    CompleteLoopMissesOnlyRemoved(states, ops, id, k);
    if Visited(v, k) {
      LoopInvHolds(states, ops, id, |ops|);
      var i :| 0 <= i < |v| && v[i].slot == k;
      VisitSeesEntry(states, ops, id, t, k, o, v[i]);
    }
  }

  lemma {:induction false} VisitSeesEntry(
      states: seq<System>, ops: seq<Op>, id: IterId, t: nat, k: nat, o: Observer, w: Visit)
    requires LoopRun(states, ops, id) && t <= |ops| && Registration(states, ops, t, k, o)
    requires 1 <= w.time <= |ops| && EntryIs(states, w.time, k, w.observer) && w.observer.Some?
    ensures w.observer == Some(o)
  {
    EntryMade(states, ops, id, t, k, o);
    if w.time < Since(t) {
      LoopSlotsGrow(states, ops, id, w.time, Since(t));
    } else {
      LoopSlotsGrow(states, ops, id, Since(t), w.time);
    }
  }

  // ---------- One observer ----------

  /** `o` is registered before the loop (`t == 0`) or first by the body at operation `t - 1`, and not
      registered again afterwards. */
  ghost predicate RegisteredOnce(states: seq<System>, ops: seq<Op>, t: nat, k: nat, o: Observer)
    requires t <= |ops| < |states|
  {
    && Registration(states, ops, t, k, o)
    && (forall m :: 0 <= m < t ==> o !in Contents(states[m].list.slots))
    && forall m :: t <= m < |ops| && ops[m] == Add(o) ==> o in Contents(states[m].list.slots)
  }

  /** No slot but `k` holds `o`. */
  ghost predicate OnlySlot(s: System, k: nat, o: Observer) {
    forall x :: 0 <= x < |s.list.slots| && s.list.slots[x] == Some(o) ==> x == k
  }

  lemma {:induction false} OnlySlotStep(s: System, op: Op, k: nat, o: Observer)
    requires Inv(s) && Enabled(s, op) && s.alive && s.list.live > 0 && Step(s, op).list.live > 0
    requires OnlySlot(s, k, o) && (op == Add(o) ==> o in Contents(s.list.slots))
    ensures OnlySlot(Step(s, op), k, o)
  {
    StepGrows(s, op);
    LiveCount(s, op);
    AssignLeavesOne(s, op);
  }

  lemma {:induction false} OnlySlotOn(states: seq<System>, i: nat, j: nat, k: nat, o: Observer)
    requires i <= j < |states| && OnlySlot(states[i], k, o)
    requires forall m :: i <= m < j && OnlySlot(states[m], k, o) ==> OnlySlot(states[m + 1], k, o)
    ensures OnlySlot(states[j], k, o)
  {
    if i < j {
      OnlySlotOn(states, i, j - 1, k, o);
    }
  }

  lemma {:induction false} OnlyOneSlot(
      states: seq<System>, ops: seq<Op>, id: IterId, t: nat, k: nat, o: Observer, j: nat)
    requires LoopRun(states, ops, id) && t <= |ops| && RegisteredOnce(states, ops, t, k, o) && 1 <= j <= |ops|
    ensures OnlySlot(states[j], k, o)
  {
    EntryMade(states, ops, id, t, k, o);
    if j < t {
      assert o !in Contents(states[j].list.slots);
    } else {
      LoopInvHolds(states, ops, id, Since(t));
      forall m | Since(t) <= m < j && OnlySlot(states[m], k, o) ensures OnlySlot(states[m + 1], k, o) {
        LoopStaysLive(states, ops, id, m);
        OnlySlotStep(states[m], ops[m], k, o);
      }
      OnlySlotOn(states, Since(t), j, k, o);
    }
  }

  /** An observer registered once is visited exactly once, or, if it is unregistered before the loop
      reaches it, not at all. So one that removes itself in its own turn is visited exactly once. */
  lemma {:induction false} ObserverVisitedExactly(
      states: seq<System>, ops: seq<Op>, id: IterId, t: nat, k: nat, o: Observer)
    requires LoopRun(states, ops, id) && Complete(states, ops, id)
    requires t <= |ops| && RegisteredOnce(states, ops, t, k, o) && (t == 0 || states[0].list.policy == All)
    ensures var v := Visits(states, ops, id, |ops|);
            if UnregisteredAhead(states, ops, id, t, k, o)
            then forall i :: 0 <= i < |v| ==> v[i].observer != Some(o)
            else ExactlyOnce(v, o)
  {
    var v := Visits(states, ops, id, |ops|);
    RegistrationVisitedExactly(states, ops, id, t, k, o);
    LoopInvHolds(states, ops, id, |ops|);
    forall i | 0 <= i < |v| && v[i].observer == Some(o) ensures v[i].slot == k {
      OnlyOneSlot(states, ops, id, t, k, o, v[i].time);
    }
    OnceAtIsOnce(v, k, o);
  }

  lemma {:induction false} OnceAtIsOnce(v: seq<Visit>, k: nat, o: Observer)
    requires forall i :: 0 <= i < |v| && v[i].observer == Some(o) ==> v[i].slot == k
    ensures VisitedOnceAt(v, k, o) ==> ExactlyOnce(v, o)
    ensures !Visited(v, k) ==> forall i :: 0 <= i < |v| ==> v[i].observer != Some(o)
  {
  }

  /** Every observer registered at the start and never removed is visited exactly once; under ALL so
      is every observer registered by the loop body and not removed afterwards. */
  lemma {:induction false} StandingRegistrationVisitedOnce(
      states: seq<System>, ops: seq<Op>, id: IterId, t: nat, k: nat, o: Observer)
    requires LoopRun(states, ops, id) && Complete(states, ops, id)
    requires t <= |ops| && Registration(states, ops, t, k, o) && (t == 0 || states[0].list.policy == All)
    requires forall m :: 0 <= m < t ==> o !in Contents(states[m].list.slots)
    requires forall m :: t <= m < |ops| ==> !Unregisters(ops[m], o)
    ensures ExactlyOnce(Visits(states, ops, id, |ops|), o)
  {
    forall m | t <= m < |ops| && ops[m] == Add(o) ensures o in Contents(states[m].list.slots) {
      EntryMade(states, ops, id, t, k, o);
      LoopEntryStays(states, ops, id, Since(t), m, k, o);
    }
    ObserverVisitedExactly(states, ops, id, t, k, o);
  }

  /** Under EXISTING_ONLY a loop visits only registrations it found at its start: never one that the
      body made, not even for an observer removed and registered again. */
  lemma {:induction false} ExistingOnlyVisitsOnlyInitial(states: seq<System>, ops: seq<Op>, id: IterId)
    requires LoopRun(states, ops, id) && states[0].list.policy == ExistingOnly
    ensures var v := Visits(states, ops, id, |ops|);
            forall i :: 0 <= i < |v| ==>
              && v[i].slot < |states[0].list.slots|
              && states[0].list.slots[v[i].slot] == v[i].observer
              && v[i].observer.Some? && v[i].observer.value in Contents(states[0].list.slots)
  {
    var n, v := |ops|, Visits(states, ops, id, |ops|);
    LoopInvHolds(states, ops, id, n);
    if states[n].iters[id].attached {
      assert CursorOk(states[n].list, states[n].iters[id]);
    }
    forall i | 0 <= i < |v|
      ensures v[i].slot < |states[0].list.slots| && states[0].list.slots[v[i].slot] == v[i].observer
    {
      LoopSlotsGrow(states, ops, id, 0, v[i].time);
    }
  }
}
