/** Whole histories of a callback list: adds, cancellations and re-entrant notifications in any
    order, and what each activation of `Notify()` runs and erases. */
module CallbackListRuns {
  import opened Options
  import opened CallbackListModel

  ghost predicate IsRun(states: seq<State>, ops: seq<Op>) {
    && |states| == |ops| + 1
    && Inv(states[0])
    && forall k :: 0 <= k < |ops| ==> Enabled(states[k], ops[k]) && states[k + 1] == Step(states[k], ops[k])
  }

  function Fresh(once: bool, removal: bool): State {
    State(once, [], [], false, removal, 0, 0, map[], [])
  }

  lemma {:induction false} FreshInv(once: bool, removal: bool)
    ensures Inv(Fresh(once, removal))
  {
  }

  lemma {:induction false} ReachableInv(states: seq<State>, ops: seq<Op>, k: nat)
    requires IsRun(states, ops) && k <= |ops|
    ensures Inv(states[k])
  {
    if k > 0 {
      ReachableInv(states, ops, k - 1);
      InvStep(states[k - 1], ops[k - 1]);
    }
  }

  // ---------- Subscriptions ----------

  /** Every live subscription refers to a node with a callback in `callbacks_`, or, in a once-list, to
      a null node of `null_callbacks_`, never to both; and no two refer to one node. */
  lemma {:induction false} SubscriptionsReferToNodes(states: seq<State>, ops: seq<Op>, k: nat, u: SubId)
    requires IsRun(states, ops) && k <= |ops| && u in states[k].subs
    ensures var s, id := states[k], states[k].subs[u];
            && (Live(s.callbacks, id) || (s.once && Has(s.nulls, id) && !Live(s.nulls, id)))
            && !(Has(s.callbacks, id) && Has(s.nulls, id))
            && (!s.once ==> Live(s.callbacks, id))
            && forall v :: v in s.subs && v != u ==> s.subs[v] != id
  {
    ReachableInv(states, ops, k);
    var s, id := states[k], states[k].subs[u];
    HasIsMember(s.callbacks, id);
    HasIsMember(s.nulls, id);
  }

  /** Pruning erases no node that a live subscription refers to, and only the outermost activation
      prunes or runs the removal callback. */
  lemma {:induction false} LeaveSparesSubscribed(s: State)
    requires Inv(s) && Enabled(s, Leave)
    ensures var t := Step(s, Leave);
            && (forall u :: u in s.subs ==> (Live(s.callbacks, s.subs[u]) ==> Live(t.callbacks, s.subs[u])))
            && t.nulls == s.nulls && t.subs == s.subs
            && (|s.frames| > 1 ==> t.callbacks == s.callbacks && t.removals == s.removals && t.iterating)
            && (|s.frames| == 1 ==> Ids(t.callbacks) == LiveIds(s.callbacks) && !t.iterating)
  {
    var t := Step(s, Leave);
    PrunedIds(s.callbacks);
    assert Top(s) == s.frames[|s.frames| - 1];
    forall u | u in s.subs && Live(s.callbacks, s.subs[u]) ensures Live(t.callbacks, s.subs[u]) {
      HasIsMember(s.callbacks, s.subs[u]);
      HasIsMember(t.callbacks, s.subs[u]);
    }
  }

  /** The subscription that `Add()` returned refers to that callback's node for as long as it exists. */
  lemma {:induction false} SubscriptionStays(states: seq<State>, ops: seq<Op>, i: nat, j: nat)
    requires IsRun(states, ops) && i < j <= |ops| && ops[i].Add?
    requires forall m :: i < m < j ==> ops[m] != Cancel(ops[i].sub)
    ensures ops[i].sub in states[j].subs && states[j].subs[ops[i].sub] == states[i].nextId
  {
    if j - 1 > i {
      SubscriptionStays(states, ops, i, j - 1);
    }
    SubsStep(states[j - 1], ops[j - 1], ops[i].sub);
  }

  /** A subscription comes into being with the newest node and ends only by being destroyed. */
  lemma {:induction false} SubsStep(s: State, op: Op, u: SubId)
    requires Enabled(s, op)
    ensures u in Step(s, op).subs <==> op != Cancel(u) && (u in s.subs || (op.Add? && op.sub == u))
    ensures u in Step(s, op).subs ==> Step(s, op).subs[u] == if op.Add? && op.sub == u then s.nextId else s.subs[u]
  {
  }

  /** Destroying the subscription that `Add()` returned stops that very callback for good. */
  lemma {:induction false} CancelStopsItsCallback(states: seq<State>, ops: seq<Op>, i: nat, j: nat, k: nat)
    requires IsRun(states, ops) && i < j < k < |ops| && ops[i].Add? && ops[j] == Cancel(ops[i].sub)
    requires forall m :: i < m < j ==> ops[m] != Cancel(ops[i].sub)
    ensures !RunsNode(states[k], ops[k], states[i].nextId)
  {
    SubscriptionStays(states, ops, i, j);
    CancelledNeverRuns(states, ops, j, k);
  }

  // ---------- The removal callback ----------

  /** The operation runs the removal callback: a cancellation outside any notification that takes a
      callback out of the list, or the return of the outermost notification if it erases a node or the
      list is a once-list. */
  predicate RunsRemoval(s: State, op: Op)
    requires Enabled(s, op)
  {
    && s.removal
    && match op
       case Cancel(u) => s.frames == [] && Live(s.callbacks, s.subs[u])
       case Leave => |s.frames| == 1 && (s.once || |Step(s, op).callbacks| < |s.callbacks|)
       case _ => false
  }

  function RemovalRuns(states: seq<State>, ops: seq<Op>, n: nat): nat
    requires n <= |ops| < |states| && forall k :: 0 <= k < |ops| ==> Enabled(states[k], ops[k])
  {
    if n == 0 then 0 else RemovalRuns(states, ops, n - 1) + if RunsRemoval(states[n - 1], ops[n - 1]) then 1 else 0
  }

  lemma {:induction false} CancelRemovals(s: State, u: SubId)
    requires Inv(s) && Enabled(s, Cancel(u))
    ensures Step(s, Cancel(u)).removals ==
            s.removals + if s.removal && s.frames == [] && Live(s.callbacks, s.subs[u]) then 1 else 0
  {
    var id := s.subs[u];
    HasIsMember(s.callbacks, id);
    HasIsMember(s.nulls, id);
  }

  lemma {:induction false} RemovalStep(s: State, op: Op)
    requires Inv(s) && Enabled(s, op)
    ensures Step(s, op).removals == s.removals + if RunsRemoval(s, op) then 1 else 0
  {
    match op
    case Cancel(u) => CancelRemovals(s, u);
    case Leave => assert Top(s) == s.frames[|s.frames| - 1];
    case _ =>
  }

  /** The removal callback has run exactly as often as the history gave it cause to. */
  lemma {:induction false} RemovalsCounted(states: seq<State>, ops: seq<Op>, n: nat)
    requires IsRun(states, ops) && n <= |ops|
    ensures states[n].removals == states[0].removals + RemovalRuns(states, ops, n)
  {
    if n > 0 {
      RemovalsCounted(states, ops, n - 1);
      ReachableInv(states, ops, n - 1);
      RemovalStep(states[n - 1], ops[n - 1]);
    }
  }

  // ---------- Callbacks that are gone stay gone ----------

  /** A registered node that no longer holds a callback in the list. */
  ghost predicate Spent(s: State, id: NodeId) {
    id < s.nextId && id !in LiveIds(s.callbacks)
  }

  predicate RunsNode(s: State, op: Op, id: NodeId)
    requires Enabled(s, op)
  {
    op.Run? && s.callbacks[Target(s)].id == id
  }

  /** How the set of live nodes moves with each operation. */
  lemma {:induction false} LiveStep(s: State, op: Op)
    requires Inv(s) && Enabled(s, op)
    ensures var a, b := LiveIds(s.callbacks), LiveIds(Step(s, op).callbacks);
            match op
            case Add(_, _) => b == a + {s.nextId}
            case AddUnsafe(_) => b == a + {s.nextId}
            case Cancel(u) => b == a - {s.subs[u]}
            case Run => b == if s.once then a - {s.callbacks[Target(s)].id} else a
            case _ => b == a
    ensures Step(s, op).nextId == if op.Add? || op.AddUnsafe? then s.nextId + 1 else s.nextId
  {
    match op
    case Add(_, cb) => AppendIds(s.callbacks, Node(s.nextId, Some(cb)));
    case AddUnsafe(cb) => AppendIds(s.callbacks, Node(s.nextId, Some(cb)));
    case Cancel(u) => CancelLists(s, u);
    case Run => RunLists(s);
    case Leave => PrunedIds(s.callbacks);
    case Enter =>
  }

  lemma {:induction false} SpentStep(s: State, op: Op, id: NodeId)
    requires Inv(s) && Enabled(s, op) && Spent(s, id)
    ensures Spent(Step(s, op), id)
  {
    LiveStep(s, op);
  }

  lemma {:induction false} SpentStays(states: seq<State>, ops: seq<Op>, i: nat, j: nat, id: NodeId)
    requires IsRun(states, ops) && i <= j <= |ops| && Spent(states[i], id)
    ensures Spent(states[j], id)
  {
    if i < j {
      SpentStays(states, ops, i, j - 1, id);
      ReachableInv(states, ops, j - 1);
      SpentStep(states[j - 1], ops[j - 1], id);
    }
  }

  lemma {:induction false} SpentNotRun(states: seq<State>, ops: seq<Op>, i: nat, j: nat, id: NodeId)
    requires IsRun(states, ops) && i <= j < |ops| && Spent(states[i], id)
    ensures !RunsNode(states[j], ops[j], id)
  {
    SpentStays(states, ops, i, j, id);
    if ops[j].Run? {
      NodeIds(states[j].callbacks, Target(states[j]));
    }
  }

  lemma {:induction false} CancelledSpent(states: seq<State>, ops: seq<Op>, i: nat, j: nat)
    requires IsRun(states, ops) && i < j <= |ops| && ops[i].Cancel?
    ensures Spent(states[j], states[i].subs[ops[i].sub])
  {
    ReachableInv(states, ops, i);
    LiveStep(states[i], ops[i]);
    LiveInIds(states[i].callbacks);
    SpentStays(states, ops, i + 1, j, states[i].subs[ops[i].sub]);
  }

  /** No callback runs after its subscription has been destroyed. */
  lemma {:induction false} CancelledNeverRuns(states: seq<State>, ops: seq<Op>, i: nat, j: nat)
    requires IsRun(states, ops) && i < j < |ops| && ops[i].Cancel?
    ensures !RunsNode(states[j], ops[j], states[i].subs[ops[i].sub])
  {
    CancelledSpent(states, ops, i, i + 1);
    SpentNotRun(states, ops, i + 1, j, states[i].subs[ops[i].sub]);
  }

  /** A once-list runs each callback at most once in its whole history. */
  lemma {:induction false} OnceRunsAtMostOnce(states: seq<State>, ops: seq<Op>, i: nat, j: nat, id: NodeId)
    requires IsRun(states, ops) && i < j < |ops| && states[0].once
    requires RunsNode(states[i], ops[i], id)
    ensures !RunsNode(states[j], ops[j], id)
  {
    ReachableInv(states, ops, i);
    KindFixed(states, ops, i);
    LiveStep(states[i], ops[i]);
    NodeIds(states[i].callbacks, Target(states[i]));
    SpentNotRun(states, ops, i + 1, j, id);
  }

  /** Nodes only ever lose their callback. */
  lemma {:induction false} NodeFromBefore(s: State, op: Op, n: Node)
    requires Inv(s) && Enabled(s, op) && n in Step(s, op).callbacks && n.cb.Some? && n.id < s.nextId
    ensures n in s.callbacks
  {
    if op.Leave? {
      PrunedMembers(s.callbacks);
    } else if op.Cancel? {
      CancelKeepsNodes(s, s.subs[op.sub], n);
    }
  }

  lemma {:induction false} CancelKeepsNodes(s: State, id: NodeId, n: Node)
    requires n in CancelNode(s, id).callbacks && n.cb.Some?
    ensures n in s.callbacks
  {
  }

  ghost predicate Kept(states: seq<State>, k: nat, n: Node)
    requires k + 1 < |states|
  {
    n in states[k + 1].callbacks ==> n in states[k].callbacks
  }

  lemma {:induction false} KeptBack(states: seq<State>, i: nat, j: nat, n: Node)
    requires i <= j < |states| && n in states[j].callbacks
    requires forall k :: i <= k < j ==> Kept(states, k, n)
    ensures n in states[i].callbacks
    decreases j
  {
    if i < j {
      assert Kept(states, j - 1, n);
      KeptBack(states, i, j - 1, n);
    }
  }

  lemma {:induction false} NodeFromStart(states: seq<State>, ops: seq<Op>, i: nat, j: nat, n: Node)
    requires IsRun(states, ops) && i <= j <= |ops| && n in states[j].callbacks && n.cb.Some? && n.id < states[i].nextId
    ensures n in states[i].callbacks
  {
    forall k | i <= k < j ensures Kept(states, k, n) {
      KeptStep(states, ops, i, k, n);
    }
    KeptBack(states, i, j, n);
  }

  lemma {:induction false} KeptStep(states: seq<State>, ops: seq<Op>, i: nat, k: nat, n: Node)
    requires IsRun(states, ops) && i <= k < |ops| && n.cb.Some? && n.id < states[i].nextId
    ensures Kept(states, k, n)
  {
    NextIdGrows(states, ops, i, k);
    ReachableInv(states, ops, k);
    if n in states[k + 1].callbacks {
      NodeFromBefore(states[k], ops[k], n);
    }
  }

  lemma {:induction false} NextIdGrows(states: seq<State>, ops: seq<Op>, i: nat, j: nat)
    requires IsRun(states, ops) && i <= j <= |ops|
    ensures states[i].nextId <= states[j].nextId
  {
    forall k | 0 <= k < |ops| ensures Settled(states, k) {
      FixedStep(states[k], ops[k]);
    }
    SettledOver(states, i, j);
  }

  /** The kind of list is fixed and node identities only go up. */
  ghost predicate Settled(states: seq<State>, k: nat)
    requires k + 1 < |states|
  {
    && states[k + 1].once == states[k].once && states[k + 1].removal == states[k].removal
    && states[k].nextId <= states[k + 1].nextId
  }

  lemma {:induction false} SettledOver(states: seq<State>, i: nat, j: nat)
    requires i <= j < |states|
    requires forall k :: 0 <= k < |states| - 1 ==> Settled(states, k)
    ensures states[j].once == states[i].once && states[j].removal == states[i].removal
    ensures states[i].nextId <= states[j].nextId
    decreases j
  {
    if i < j {
      SettledOver(states, i, j - 1);
      assert Settled(states, j - 1);
    }
  }

  /** What a node runs is the callback it was registered with. */
  lemma {:induction false} RunsWhatWasAdded(states: seq<State>, ops: seq<Op>, i: nat, j: nat)
    requires IsRun(states, ops) && i < j < |ops| && (ops[i].Add? || ops[i].AddUnsafe?)
    requires RunsNode(states[j], ops[j], states[i].nextId)
    ensures states[j].callbacks[Target(states[j])] == Node(states[i].nextId, Some(ops[i].cb))
  {
    var n := states[j].callbacks[Target(states[j])];
    AddedNode(states, ops, i);
    NodeFromStart(states, ops, i + 1, j, n);
  }

  lemma {:induction false} AddedNode(states: seq<State>, ops: seq<Op>, i: nat)
    requires IsRun(states, ops) && i < |ops| && (ops[i].Add? || ops[i].AddUnsafe?)
    ensures states[i].nextId < states[i + 1].nextId
    ensures forall n :: n in states[i + 1].callbacks && n.id == states[i].nextId ==>
              n == Node(states[i].nextId, Some(ops[i].cb))
  {
    ReachableInv(states, ops, i);
    forall n | n in states[i].callbacks ensures n.id < states[i].nextId {
      assert n.id in Ids(states[i].callbacks);
    }
  }

  lemma {:induction false} FixedStep(s: State, op: Op)
    requires Enabled(s, op)
    ensures var t := Step(s, op); t.once == s.once && t.removal == s.removal && s.nextId <= t.nextId
  {
  }

  lemma {:induction false} KindFixed(states: seq<State>, ops: seq<Op>, k: nat)
    requires IsRun(states, ops) && k <= |ops|
    ensures states[k].once == states[0].once && states[k].removal == states[0].removal
  {
    forall i | 0 <= i < |ops| ensures Settled(states, i) {
      FixedStep(states[i], ops[i]);
    }
    SettledOver(states, 0, k);
  }

  // ---------- One complete activation of Notify() ----------

  /** The activation entered at operation `i` returns at operation `j`; anything may happen between,
      complete nested activations included. */
  ghost predicate Activation(states: seq<State>, ops: seq<Op>, i: nat, j: nat) {
    && IsRun(states, ops)
    && i < j < |ops| && ops[i] == Enter && !IsEmpty(states[i].callbacks)
    && ops[j] == Leave && |states[j].frames| == |states[i].frames| + 1
    && forall k :: i < k <= j ==> |states[k].frames| > |states[i].frames|
  }

  /** The activation's own frame at moment `k`. */
  function Own(states: seq<State>, i: nat, k: nat): Frame
    requires i < |states| && k < |states| && |states[i].frames| < |states[k].frames|
  {
    states[k].frames[|states[i].frames|]
  }

  lemma {:induction false} OwnInv(states: seq<State>, ops: seq<Op>, i: nat, j: nat, k: nat)
    requires Activation(states, ops, i, j) && i < k <= j
    ensures Inv(states[k]) && FrameOk(states[k], Own(states, i, k))
  {
    ReachableInv(states, ops, k);
  }

  /** Between entering and leaving, an activation's frame changes only by its own turns. */
  lemma {:induction false} OwnStep(states: seq<State>, ops: seq<Op>, i: nat, j: nat, k: nat)
    requires Activation(states, ops, i, j) && i < k < j
    ensures var s, f, g := states[k], Own(states, i, k), Own(states, i, k + 1);
            || (g == f && !(ops[k].Run? && |s.frames| == |states[i].frames| + 1))
            || (ops[k].Run? && f == Top(s)
                && g == f.(cursor := CursorAt(s.callbacks, Target(s) + 1), ran := f.ran + [s.callbacks[Target(s)].id]))
  {
  }

  /** `id` is live and the activation has yet to reach it. */
  ghost predicate Ahead(s: State, f: Frame, id: NodeId) {
    id in LiveIds(s.callbacks) && !Passed(f, id) && f.cursor.At?
  }

  /** Operation `k` cancels `id` before the activation entered at `i` has reached it. */
  ghost predicate CancelledAhead(states: seq<State>, ops: seq<Op>, i: nat, k: nat, id: NodeId)
    requires i < |states| && k < |ops| && k < |states| && |states[i].frames| < |states[k].frames|
  {
    && ops[k].Cancel? && ops[k].sub in states[k].subs && states[k].subs[ops[k].sub] == id
    && !Passed(Own(states, i, k), id)
  }

  lemma {:induction false} AheadTurn(s: State, id: NodeId)
    requires Inv(s) && Enabled(s, Run) && Ahead(s, Top(s), id)
    ensures id in Top(RunNext(s)).ran || Ahead(RunNext(s), Top(RunNext(s)), id)
  {
    assert FrameOk(s, Top(s));
    LiveInIds(s.callbacks);
    TargetNode(s);
    RunLists(s);
    AheadAfterRun(Ids(s.callbacks), LiveIds(s.callbacks), s.once, s.nextId, Top(s), id,
                  s.callbacks[Target(s)].id, CursorAt(s.callbacks, Target(s) + 1));
  }

  lemma {:induction false} AheadAfterRun(
      ids: set<NodeId>, live: set<NodeId>, once: bool, n: NodeId, f: Frame, id: NodeId, x: NodeId, c: Cursor)
    requires FrameInv(ids, live, once, n, f) && live <= ids && f.cursor.At?
    requires id in live && !Passed(f, id)
    requires forall y :: y in live && f.cursor.id <= y ==> x <= y
    requires c.End? ==> forall y :: y in ids ==> y <= x
    ensures var g := f.(cursor := c, ran := f.ran + [x]);
            id in g.ran || (id in live - {x} && !Passed(g, id) && c.At?)
  {
    assert f.cursor.id <= id && x <= id;
    assert (f.ran + [x])[|f.ran|] == x;
  }

  lemma {:induction false} AheadStep(states: seq<State>, ops: seq<Op>, i: nat, j: nat, k: nat, id: NodeId)
    requires Activation(states, ops, i, j) && i < k < j && Ahead(states[k], Own(states, i, k), id)
    requires !CancelledAhead(states, ops, i, k, id)
    ensures id in Own(states, i, k + 1).ran || Ahead(states[k + 1], Own(states, i, k + 1), id)
  {
    OwnInv(states, ops, i, j, k);
    OwnStep(states, ops, i, j, k);
    var s := states[k];
    if ops[k].Run? && |s.frames| == |states[i].frames| + 1 {
      AheadTurn(s, id);
    } else {
      LiveStep(s, ops[k]);
    }
  }

  /** The moments of an activation, while it is on the stack of frames. */
  ghost predicate During(states: seq<State>, i: nat, j: nat, k: nat) {
    i < k <= j < |states| && |states[k].frames| > |states[i].frames|
  }

  /** The activation has run `id` or has it ahead. */
  ghost predicate Reached(states: seq<State>, i: nat, j: nat, k: nat, id: NodeId) {
    During(states, i, j, k) && (id in Own(states, i, k).ran || Ahead(states[k], Own(states, i, k), id))
  }

  lemma {:induction false} ReachedStep(states: seq<State>, ops: seq<Op>, i: nat, j: nat, k: nat, id: NodeId)
    requires Activation(states, ops, i, j) && i < k < j && Reached(states, i, j, k, id)
    requires !CancelledAhead(states, ops, i, k, id)
    ensures Reached(states, i, j, k + 1, id)
  {
    if id in Own(states, i, k).ran {
      OwnStep(states, ops, i, j, k);
    } else {
      AheadStep(states, ops, i, j, k, id);
    }
  }

  lemma {:induction false} ReachedOn(states: seq<State>, i: nat, j: nat, a: nat, b: nat, id: NodeId)
    requires Reached(states, i, j, a, id) && a <= b
    requires forall k :: a <= k < b && Reached(states, i, j, k, id) ==> Reached(states, i, j, k + 1, id)
    ensures Reached(states, i, j, b, id)
  {
    if a < b {
      ReachedOn(states, i, j, a, b - 1, id);
    }
  }

  /** What is ahead stays ahead until it is run or cancelled. */
  lemma {:induction false} AheadUntilRun(states: seq<State>, ops: seq<Op>, i: nat, j: nat, a: nat, id: NodeId)
    requires Activation(states, ops, i, j) && i < a <= j && Ahead(states[a], Own(states, i, a), id)
    requires forall k :: a <= k < j ==> !CancelledAhead(states, ops, i, k, id)
    ensures Reached(states, i, j, j, id)
  {
    forall k | a <= k < j && Reached(states, i, j, k, id) ensures Reached(states, i, j, k + 1, id) {
      ReachedStep(states, ops, i, j, k, id);
    }
    ReachedOn(states, i, j, a, j, id);
  }

  /** On return nothing is left ahead. */
  lemma {:induction false} NothingAheadOnLeave(s: State, id: NodeId)
    requires Inv(s) && Enabled(s, Leave)
    ensures !Ahead(s, Top(s), id)
  {
    assert FrameOk(s, Top(s));
    LiveInIds(s.callbacks);
    if Top(s).cursor.At? && id in LiveIds(s.callbacks) {
      HasIsMember(s.callbacks, Top(s).cursor.id);
      LiveIsBehind(s.callbacks, Index(s.callbacks, Top(s).cursor.id), id);
    }
  }

  lemma {:induction false} LiveIsBehind(nodes: seq<Node>, from: nat, id: NodeId)
    requires Sorted(nodes) && from < |nodes| && FirstLive(nodes, from) == |nodes| && id in LiveIds(nodes)
    ensures id < nodes[from].id
  {
    HasIsMember(nodes, id);
    assert Index(nodes, id) < from;
  }

  ghost predicate OnceIn(ids: seq<NodeId>, id: NodeId) {
    exists p :: 0 <= p < |ids| && ids[p] == id && forall q :: 0 <= q < |ids| && ids[q] == id ==> q == p
  }

  lemma {:induction false} IncreasingOnce(ids: seq<NodeId>, id: NodeId)
    requires Increasing(ids) && id in ids
    ensures OnceIn(ids, id)
  {
    var p :| 0 <= p < |ids| && ids[p] == id;
    assert forall q :: 0 <= q < |ids| && ids[q] == id ==> q == p;
  }

  lemma {:induction false} PassedIfRan(f: Frame, id: NodeId)
    requires Increasing(f.ran) && id in f.ran
    ensures Passed(f, id)
  {
    var p :| 0 <= p < |f.ran| && f.ran[p] == id;
  }

  ghost predicate NotRun(states: seq<State>, i: nat, j: nat, k: nat, id: NodeId) {
    During(states, i, j, k) && id !in Own(states, i, k).ran
  }

  lemma {:induction false} NotRunStep(states: seq<State>, ops: seq<Op>, i: nat, j: nat, k: nat, id: NodeId)
    requires Activation(states, ops, i, j) && i < k < j && NotRun(states, i, j, k, id)
    requires !RunsNode(states[k], ops[k], id)
    ensures NotRun(states, i, j, k + 1, id)
  {
    OwnStep(states, ops, i, j, k);
  }

  lemma {:induction false} NotRunOn(states: seq<State>, i: nat, j: nat, a: nat, b: nat, id: NodeId)
    requires NotRun(states, i, j, a, id) && a <= b
    requires forall k :: a <= k < b && NotRun(states, i, j, k, id) ==> NotRun(states, i, j, k + 1, id)
    ensures NotRun(states, i, j, b, id)
  {
    if a < b {
      NotRunOn(states, i, j, a, b - 1, id);
    }
  }

  lemma {:induction false} CancelledNotRun(states: seq<State>, ops: seq<Op>, i: nat, j: nat, k: nat, id: NodeId)
    requires Activation(states, ops, i, j) && i < k < j && CancelledAhead(states, ops, i, k, id)
    ensures id !in Own(states, i, j).ran
  {
    OwnInv(states, ops, i, j, k);
    if id in Own(states, i, k).ran {
      PassedIfRan(Own(states, i, k), id);
    }
    forall m | k <= m < j && NotRun(states, i, j, m, id) ensures NotRun(states, i, j, m + 1, id) {
      if m > k {
        CancelledNeverRuns(states, ops, k, m);
      }
      NotRunStep(states, ops, i, j, m, id);
    }
    NotRunOn(states, i, j, k, j, id);
  }

  /** Whether some operation from `a` until the activation returns cancels `id` before its turn. */
  ghost predicate CancelledBeforeTurn(states: seq<State>, ops: seq<Op>, i: nat, j: nat, a: nat, id: NodeId)
    requires Activation(states, ops, i, j) && i < a
  {
    exists k :: a <= k < j && CancelledAhead(states, ops, i, k, id)
  }

  lemma {:induction false} AheadRunsOrCancelled(states: seq<State>, ops: seq<Op>, i: nat, j: nat, a: nat, id: NodeId)
    requires Activation(states, ops, i, j) && i < a <= j && Ahead(states[a], Own(states, i, a), id)
    ensures OnceIn(Own(states, i, j).ran, id) <==> !CancelledBeforeTurn(states, ops, i, j, a, id)
  {
    if CancelledBeforeTurn(states, ops, i, j, a, id) {
      var k :| a <= k < j && CancelledAhead(states, ops, i, k, id);
      CancelledNotRun(states, ops, i, j, k, id);
    } else {
      OwnInv(states, ops, i, j, j);
      AheadUntilRun(states, ops, i, j, a, id);
      NothingAheadOnLeave(states[j], id);
      IncreasingOnce(Own(states, i, j).ran, id);
    }
  }

  /** An activation runs nodes in list order and none twice, and of the callbacks registered when it was
      entered it runs exactly those not cancelled before its cursor reached them. */
  lemma {:induction false} ActivationRunsExactly(states: seq<State>, ops: seq<Op>, i: nat, j: nat, id: NodeId)
    requires Activation(states, ops, i, j)
    ensures Increasing(Own(states, i, j).ran)
    ensures id in LiveIds(states[i].callbacks) ==>
              (OnceIn(Own(states, i, j).ran, id) <==> !CancelledBeforeTurn(states, ops, i, j, i + 1, id))
  {
    OwnInv(states, ops, i, j, j);
    if id in LiveIds(states[i].callbacks) {
      EnterAhead(states, ops, i, j, id);
      AheadRunsOrCancelled(states, ops, i, j, i + 1, id);
    }
  }

  lemma {:induction false} EnterAhead(states: seq<State>, ops: seq<Op>, i: nat, j: nat, id: NodeId)
    requires Activation(states, ops, i, j) && id in LiveIds(states[i].callbacks)
    ensures Ahead(states[i + 1], Own(states, i, i + 1), id)
  {
  }

  /** Whatever an activation runs is live, in the list, at the moment its cursor reaches it. */
  lemma {:induction false} ActivationRunsOnlyLive(states: seq<State>, ops: seq<Op>, i: nat, j: nat, k: nat)
    requires Activation(states, ops, i, j) && i < k < j && Own(states, i, k + 1).ran != Own(states, i, k).ran
    ensures ops[k].Run? && exists id ::
              && Own(states, i, k + 1).ran == Own(states, i, k).ran + [id]
              && id in LiveIds(states[k].callbacks) && RunsNode(states[k], ops[k], id)
  {
    OwnStep(states, ops, i, j, k);
    NodeIds(states[k].callbacks, Target(states[k]));
  }

  /** An activation whose iterator is past the end takes no more turns, whatever is appended. */
  lemma {:induction false} EndedStep(states: seq<State>, ops: seq<Op>, i: nat, j: nat, k: nat)
    requires Activation(states, ops, i, j) && i < k < j && Own(states, i, k).cursor.End?
    ensures Own(states, i, k + 1) == Own(states, i, k)
  {
    OwnStep(states, ops, i, j, k);
  }

  lemma {:induction false} EndedStays(states: seq<State>, ops: seq<Op>, i: nat, j: nat, a: nat, b: nat)
    requires Activation(states, ops, i, j) && i < a <= b <= j && Own(states, i, a).cursor.End?
    ensures Own(states, i, b) == Own(states, i, a)
  {
    if a < b {
      EndedStays(states, ops, i, j, a, b - 1);
      EndedStep(states, ops, i, j, b - 1);
    }
  }

  /** A callback registered while the activation runs is run by it if and only if the loop's iterator
      was still on a node at that moment, that is, if the callback then running was not the last of the
      list when it was started, and the new one is not cancelled before its turn. */
  lemma {:induction false} AddedDuringActivation(states: seq<State>, ops: seq<Op>, i: nat, j: nat, t: nat)
    requires Activation(states, ops, i, j) && i < t < j && (ops[t].Add? || ops[t].AddUnsafe?)
    ensures OnceIn(Own(states, i, j).ran, states[t].nextId) <==>
            Own(states, i, t).cursor.At? && !CancelledBeforeTurn(states, ops, i, j, t + 1, states[t].nextId)
  {
    var id := states[t].nextId;
    OwnInv(states, ops, i, j, t);
    LiveStep(states[t], ops[t]);
    OwnStep(states, ops, i, j, t);
    if id in Own(states, i, t).ran {
      PassedIfRan(Own(states, i, t), id);
    }
    if Own(states, i, t).cursor.At? {
      AheadRunsOrCancelled(states, ops, i, j, t + 1, id);
    } else {
      EndedStays(states, ops, i, j, t, j);
    }
  }

  // ---------- What the outermost activation erases ----------

  lemma {:induction false} NullCountConcat(a: seq<Node>, b: seq<Node>)
    ensures NullCount(a + b) == NullCount(a) + NullCount(b)
  {
    if a == [] {
      assert a + b == b;
    } else {
      assert (a + b)[1..] == a[1..] + b;
      NullCountConcat(a[1..], b);
    }
  }

  lemma {:induction false} NullCountAround(nodes: seq<Node>, i: nat, n: Node)
    requires i < |nodes| && nodes[i].cb.Some?
    ensures NullCount(Without(nodes, i)) == NullCount(nodes)
    ensures NullCount(nodes[i := n]) == NullCount(nodes) + NullCount([n])
  {
    var a, b := nodes[..i], nodes[i + 1..];
    assert nodes == a + ([nodes[i]] + b) && nodes[i := n] == a + ([n] + b);
    NullCountConcat(a, b);
    NullCountConcat(a, [nodes[i]] + b);
    NullCountConcat([nodes[i]], b);
    NullCountConcat(a, [n] + b);
    NullCountConcat([n], b);
  }

  /** A cancellation that resets a callback of the list. In a repeating list every one does; in a
      once-list those of callbacks already run do not. */
  predicate CancelsCallback(s: State, op: Op) {
    op.Cancel? && op.sub in s.subs && (s.once ==> Live(s.callbacks, s.subs[op.sub]))
  }

  function Cancellations(states: seq<State>, ops: seq<Op>, a: nat, b: nat): nat
    requires a <= b <= |ops| < |states|
  {
    if a == b then 0
    else Cancellations(states, ops, a, b - 1) + if CancelsCallback(states[b - 1], ops[b - 1]) then 1 else 0
  }

  lemma {:induction false} NullStep(s: State, op: Op)
    requires Inv(s) && Enabled(s, op) && s.frames != [] && Step(s, op).frames != []
    ensures NullCount(Step(s, op).callbacks) == NullCount(s.callbacks) + if CancelsCallback(s, op) then 1 else 0
  {
    match op
    case Add(_, cb) => NullCountConcat(s.callbacks, [Node(s.nextId, Some(cb))]);
    case AddUnsafe(cb) => NullCountConcat(s.callbacks, [Node(s.nextId, Some(cb))]);
    case Cancel(u) => CancelNulls(s, u);
    case Run => NullCountAround(s.callbacks, Target(s), s.callbacks[Target(s)]);
    case Leave => assert Top(s) == s.frames[|s.frames| - 1];
    case Enter =>
  }

  lemma {:induction false} CancelNulls(s: State, u: SubId)
    requires Inv(s) && u in s.subs && s.iterating
    ensures NullCount(CancelNode(s, s.subs[u]).callbacks) ==
            NullCount(s.callbacks) + if CancelsCallback(s, Cancel(u)) then 1 else 0
  {
    var id := s.subs[u];
    HasIsMember(s.callbacks, id);
    HasIsMember(s.nulls, id);
    if Live(s.callbacks, id) {
      NullCountAround(s.callbacks, Index(s.callbacks, id), Node(id, None));
    }
  }

  lemma {:induction false} NoNullsOutside(s: State)
    requires Inv(s) && s.frames == []
    ensures NullCount(s.callbacks) == 0
  {
    forall k | 0 <= k < |s.callbacks| ensures s.callbacks[k].cb.Some? {
      NodeIds(s.callbacks, k);
      HasIsMember(s.callbacks, s.callbacks[k].id);
      IndexAt(s.callbacks, k);
    }
  }

  ghost predicate NullsFollow(states: seq<State>, ops: seq<Op>, k: nat)
    requires k < |ops| < |states|
  {
    NullCount(states[k + 1].callbacks) ==
    NullCount(states[k].callbacks) + if CancelsCallback(states[k], ops[k]) then 1 else 0
  }

  lemma {:induction false} NullsAddUp(states: seq<State>, ops: seq<Op>, a: nat, b: nat)
    requires a <= b <= |ops| < |states| && NullCount(states[a].callbacks) == 0
    requires forall k :: a <= k < b ==> NullsFollow(states, ops, k)
    ensures NullCount(states[b].callbacks) == Cancellations(states, ops, a, b)
  {
    if a < b {
      NullsAddUp(states, ops, a, b - 1);
      assert NullsFollow(states, ops, b - 1);
    }
  }

  lemma {:induction false} NullsAreCancellations(states: seq<State>, ops: seq<Op>, i: nat, j: nat)
    requires Activation(states, ops, i, j) && states[i].frames == []
    ensures NullCount(states[j].callbacks) == Cancellations(states, ops, i + 1, j)
  {
    ActivationStart(states, ops, i, j);
    forall k | i + 1 <= k < j ensures NullsFollow(states, ops, k) {
      ActivationNullStep(states, ops, i, j, k);
    }
    NullsAddUp(states, ops, i + 1, j);
  }

  lemma {:induction false} ActivationStart(states: seq<State>, ops: seq<Op>, i: nat, j: nat)
    requires Activation(states, ops, i, j) && states[i].frames == []
    ensures NullCount(states[i + 1].callbacks) == 0
  {
    ReachableInv(states, ops, i);
    NoNullsOutside(states[i]);
  }

  lemma {:induction false} ActivationNullStep(states: seq<State>, ops: seq<Op>, i: nat, j: nat, k: nat)
    requires Activation(states, ops, i, j) && i < k < j
    ensures NullsFollow(states, ops, k)
  {
    ReachableInv(states, ops, k);
    NullStep(states[k], ops[k]);
  }

  /** What the outermost activation erases on return is exactly what was cancelled since it was
      entered, nested activations included, and that decides whether the removal callback runs. */
  lemma {:induction false} OutermostErasesCancelled(states: seq<State>, ops: seq<Op>, i: nat, j: nat)
    requires Activation(states, ops, i, j) && states[i].frames == []
    ensures var c := Cancellations(states, ops, i + 1, j);
            && |states[j].callbacks| - |states[j + 1].callbacks| == c
            && states[j + 1].removals ==
               states[j].removals + if states[j].removal && (c > 0 || states[j].once) then 1 else 0
  {
    NullsAreCancellations(states, ops, i, j);
    ReachableInv(states, ops, j);
    assert Top(states[j]) == states[j].frames[0];
  }

  // ---------- Once-lists ----------

  /** A notification that finds the list non-empty starts by running a callback. Each callback it found
      is run by it exactly once or was cancelled before its turn, and none of them is left. */
  lemma {:induction false} OnceNotifyTakesAll(states: seq<State>, ops: seq<Op>, i: nat, j: nat)
    requires Activation(states, ops, i, j) && states[0].once
    ensures ops[i + 1].Run? && states[i].callbacks[Target(states[i + 1])].id in LiveIds(states[i].callbacks)
    ensures LiveIds(states[i].callbacks) != {}
    ensures forall id :: id in LiveIds(states[i].callbacks) ==>
              (OnceIn(Own(states, i, j).ran, id) <==> !CancelledBeforeTurn(states, ops, i, j, i + 1, id))
    ensures Ids(states[j + 1].callbacks) !! LiveIds(states[i].callbacks)
    ensures states[j].removal ==> states[j + 1].removals == states[j].removals + 1
  {
    KindFixed(states, ops, j);
    OnceFirstTurn(states, ops, i, j);
    OnceLeft(states, ops, i, j);
    forall id | id in LiveIds(states[i].callbacks)
      ensures OnceIn(Own(states, i, j).ran, id) <==> !CancelledBeforeTurn(states, ops, i, j, i + 1, id)
    {
      ActivationRunsExactly(states, ops, i, j, id);
    }
    ReachableInv(states, ops, j);
    assert Top(states[j]).saved == false;
  }

  lemma {:induction false} OnceFirstTurn(states: seq<State>, ops: seq<Op>, i: nat, j: nat)
    requires Activation(states, ops, i, j)
    ensures ops[i + 1].Run? && states[i].callbacks[Target(states[i + 1])].id in LiveIds(states[i].callbacks)
  {
    OwnInv(states, ops, i, j, i + 1);
    FirstTarget(states[i]);
    NodeIds(states[i].callbacks, Target(states[i + 1]));
  }

  /** An activation just entered has a callback to run. */
  lemma {:induction false} FirstTarget(s: State)
    requires !IsEmpty(s.callbacks)
    ensures Target(EnterNotify(s)) < |s.callbacks|
  {
    var k :| 0 <= k < |s.callbacks| && s.callbacks[k].cb.Some?;
    assert Index(s.callbacks, s.callbacks[0].id) == 0;
  }

  lemma {:induction false} OnceLeft(states: seq<State>, ops: seq<Op>, i: nat, j: nat)
    requires Activation(states, ops, i, j) && states[j].once
    ensures Ids(states[j + 1].callbacks) !! LiveIds(states[i].callbacks)
  {
    OwnInv(states, ops, i, j, j);
    PrunedIds(states[j].callbacks);
    LiveInIds(states[j].callbacks);
    LeaveSparesSubscribed(states[j]);
    forall id | id in LiveIds(states[i].callbacks) ensures id !in LiveIds(states[j].callbacks) {
      ActivationRunsExactly(states, ops, i, j, id);
      if CancelledBeforeTurn(states, ops, i, j, i + 1, id) {
        var k :| i < k < j && CancelledAhead(states, ops, i, k, id);
        CancelledSpent(states, ops, k, j);
      }
    }
  }

  // ---------- What becomes of null callbacks ----------

  /** A callback enters `null_callbacks_` by being run and leaves it only with its subscription. */
  lemma {:induction false} NullsStep(s: State, op: Op)
    requires Inv(s) && Enabled(s, op)
    ensures var t := Step(s, op);
            && Ids(t.callbacks) <= Ids(s.callbacks) + (if op.Add? || op.AddUnsafe? then {s.nextId} else {})
            && Ids(t.nulls) == match op
               case Cancel(u) => Ids(s.nulls) - {s.subs[u]}
               case Run => if s.once then Ids(s.nulls) + {s.callbacks[Target(s)].id} else Ids(s.nulls)
               case _ => Ids(s.nulls)
  {
    match op
    case Add(_, cb) => AppendIds(s.callbacks, Node(s.nextId, Some(cb)));
    case AddUnsafe(cb) => AppendIds(s.callbacks, Node(s.nextId, Some(cb)));
    case Cancel(u) => CancelLists(s, u);
    case Run =>
      RunLists(s);
      AppendIds(s.nulls, Node(s.callbacks[Target(s)].id, None));
    case Leave =>
      PrunedIds(s.callbacks);
      LiveInIds(s.callbacks);
    case Enter =>
  }

  ghost predicate Cancels(s: State, op: Op, id: NodeId) {
    op.Cancel? && op.sub in s.subs && s.subs[op.sub] == id
  }

  ghost predicate IsNullNode(s: State, id: NodeId) {
    id < s.nextId && id !in Ids(s.callbacks) && id in Ids(s.nulls)
  }

  ghost predicate Erased(s: State, id: NodeId) {
    id < s.nextId && id !in Ids(s.callbacks) && id !in Ids(s.nulls)
  }

  lemma {:induction false} NullNodeStep(s: State, op: Op, id: NodeId)
    requires Inv(s) && Enabled(s, op)
    ensures IsNullNode(s, id) ==> if Cancels(s, op, id) then Erased(Step(s, op), id) else IsNullNode(Step(s, op), id)
    ensures Erased(s, id) ==> Erased(Step(s, op), id)
  {
    NullsStep(s, op);
    LiveStep(s, op);
    if op.Run? {
      NodeIds(s.callbacks, Target(s));
    }
  }

  /** In every history, a callback that was run by a once-list stays in `null_callbacks_` until its
      subscription is destroyed, and is gone for good after that. Without a subscription it stays. */
  lemma {:induction false} NullErasedIffCancelled(states: seq<State>, ops: seq<Op>, i: nat, j: nat, id: NodeId)
    requires IsRun(states, ops) && i <= j <= |ops| && id in Ids(states[i].nulls)
    ensures if exists k :: i <= k < j && Cancels(states[k], ops[k], id)
            then Erased(states[j], id) else IsNullNode(states[j], id)
  {
    ReachableInv(states, ops, i);
    LiveInIds(states[i].callbacks);
    forall k | i <= k < j ensures NullFollows(states, ops, k, id) {
      ReachableInv(states, ops, k);
      NullNodeStep(states[k], ops[k], id);
    }
    NullFollowed(states, ops, i, j, id);
  }

  ghost predicate NullFollows(states: seq<State>, ops: seq<Op>, k: nat, id: NodeId)
    requires k < |ops| < |states|
  {
    && (IsNullNode(states[k], id) ==>
          if Cancels(states[k], ops[k], id) then Erased(states[k + 1], id) else IsNullNode(states[k + 1], id))
    && (Erased(states[k], id) ==> Erased(states[k + 1], id))
  }

  lemma {:induction false} NullFollowed(states: seq<State>, ops: seq<Op>, i: nat, j: nat, id: NodeId)
    requires i <= j <= |ops| < |states| && IsNullNode(states[i], id)
    requires forall k :: i <= k < j ==> NullFollows(states, ops, k, id)
    ensures if exists k :: i <= k < j && Cancels(states[k], ops[k], id)
            then Erased(states[j], id) else IsNullNode(states[j], id)
  {
    if i < j {
      NullFollowed(states, ops, i, j - 1, id);
      assert NullFollows(states, ops, j - 1, id);
    }
  }

  // ---------- A once-list notified inside a notification ----------

  /** A callback of a once-list notifies the list again: operations from that call on, up to its return
      at the latest, none of which notifies the list once more while it has callbacks. */
  ghost predicate NestedCall(states: seq<State>, ops: seq<Op>) {
    && |states| == |ops| + 1 && |ops| >= 2 && ops[0] == Enter
    && Inv(states[0]) && states[0].once && states[0].frames != [] && !IsEmpty(states[0].callbacks)
    && (forall k :: 0 <= k < |ops| ==> Possible(states[k], ops[k]) && states[k + 1] == Step(states[k], ops[k]))
    && forall k :: 1 <= k < |ops| ==>
         |states[k].frames| > |states[0].frames| && (ops[k] == Enter ==> IsEmpty(states[k].callbacks))
  }

  /** What remains of the invariant inside such a call; its frames are those from `d` on. */
  ghost predicate NestedInv(s: State, d: nat) {
    && NodesInv(s) && SubsInv(s) && s.once && s.iterating && d > 0
    && forall k :: d <= k < |s.frames| ==> s.frames[k].saved
  }

  /** Inside the call, a node that has left the list never comes back, and a null one never leaves. */
  ghost predicate Gone(s: State, c: NodeId) {
    c < s.nextId && c !in Ids(s.callbacks)
  }

  ghost predicate NullNode(s: State, c: NodeId) {
    c < s.nextId && c in Ids(s.callbacks) && c !in LiveIds(s.callbacks)
  }

  lemma {:induction false} NestedStep(s: State, op: Op, d: nat, c: NodeId)
    requires NestedInv(s, d) && Possible(s, op) && |s.frames| > d
    ensures NestedInv(Step(s, op), d)
    ensures Gone(s, c) ==> Gone(Step(s, op), c)
    ensures NullNode(s, c) ==> NullNode(Step(s, op), c)
  {
    match op
    case Add(_, cb) => NestedAdd(s, op);
    case AddUnsafe(cb) => NestedAdd(s, op);
    case Cancel(u) => NestedCancel(s, u);
    case Run => NestedRun(s);
    case Leave => NestedLeave(s, d);
    case Enter =>
  }

  lemma {:induction false} NestedAdd(s: State, op: Op)
    requires NodesInv(s) && SubsInv(s) && Possible(s, op) && (op.Add? || op.AddUnsafe?)
    ensures var t := Step(s, op);
            && NodesInv(t) && SubsInv(t) && t.frames == s.frames && t.once == s.once && t.iterating == s.iterating
            && Ids(t.callbacks) == Ids(s.callbacks) + {s.nextId}
            && LiveIds(t.callbacks) == LiveIds(s.callbacks) + {s.nextId}
            && t.nextId == s.nextId + 1
  {
    AppendNodes(s, op.cb);
    AppendSubs(s, op);
    AppendIds(s.callbacks, Node(s.nextId, Some(op.cb)));
    var t := Append(s, op.cb);
    assert NodesInv(Step(s, op)) by {
      assert NodesInv(t) && Step(s, op) == t.(subs := Step(s, op).subs);
    }
  }

  lemma {:induction false} NestedRun(s: State)
    requires NodesInv(s) && SubsInv(s) && Possible(s, Run) && s.once
    ensures var t, x := RunNext(s), s.callbacks[Target(s)].id;
            && NodesInv(t) && SubsInv(t) && t.once && t.iterating == s.iterating && t.nextId == s.nextId
            && |t.frames| == |s.frames| && (forall k :: 0 <= k < |s.frames| ==> t.frames[k].saved == s.frames[k].saved)
            && x in LiveIds(s.callbacks)
            && Ids(t.callbacks) == Ids(s.callbacks) - {x} && LiveIds(t.callbacks) == LiveIds(s.callbacks) - {x}
  {
    RunLists(s);
    NodeIds(s.callbacks, Target(s));
    RunKeeps(s);
  }

  lemma {:induction false} RunKeeps(s: State)
    requires s.frames != [] && Target(s) < |s.callbacks|
    ensures var t := RunNext(s);
            && t.once == s.once && t.iterating == s.iterating && t.nextId == s.nextId && |t.frames| == |s.frames|
            && forall k :: 0 <= k < |s.frames| ==> t.frames[k].saved == s.frames[k].saved
  {
  }

  lemma {:induction false} NestedLeave(s: State, d: nat)
    requires NestedInv(s, d) && Possible(s, Leave) && |s.frames| > d
    ensures LeaveNotify(s) == s.(frames := s.frames[..|s.frames| - 1])
  {
    assert Top(s) == s.frames[|s.frames| - 1];
  }

  lemma {:induction false} NestedCancel(s: State, u: SubId)
    requires NodesInv(s) && SubsInv(s) && Possible(s, Cancel(u)) && s.iterating
    ensures var t := Step(s, Cancel(u));
            && NodesInv(t) && SubsInv(t) && t.frames == s.frames && t.once == s.once
            && t.iterating && t.nextId == s.nextId
            && Ids(t.callbacks) == Ids(s.callbacks) && LiveIds(t.callbacks) <= LiveIds(s.callbacks)
  {
    CancelLists(s, u);
    var t := Step(s, Cancel(u));
    assert NodesInv(t) by {
      assert NodesInv(CancelNode(s, s.subs[u]));
    }
  }

  ghost predicate NestedAt(states: seq<State>, d: nat, k: nat, c: NodeId, gone: bool) {
    k < |states| && NestedInv(states[k], d) && if gone then Gone(states[k], c) else NullNode(states[k], c)
  }

  lemma {:induction false} NestedOn(states: seq<State>, d: nat, a: nat, b: nat, c: NodeId, gone: bool)
    requires NestedAt(states, d, a, c, gone) && a <= b
    requires forall k :: a <= k < b && NestedAt(states, d, k, c, gone) ==> NestedAt(states, d, k + 1, c, gone)
    ensures NestedAt(states, d, b, c, gone)
  {
    if a < b {
      NestedOn(states, d, a, b - 1, c, gone);
    }
  }

  lemma {:induction false} NestedRest(states: seq<State>, ops: seq<Op>, a: nat, m: nat, c: NodeId, gone: bool)
    requires NestedCall(states, ops) && 1 <= a <= m <= |ops| && NestedAt(states, |states[0].frames|, a, c, gone)
    ensures NestedAt(states, |states[0].frames|, m, c, gone)
  {
    var d := |states[0].frames|;
    forall k | a <= k < m && NestedAt(states, d, k, c, gone) ensures NestedAt(states, d, k + 1, c, gone) {
      NestedStep(states[k], ops[k], d, c);
    }
    NestedOn(states, d, a, m, c, gone);
  }

  /** The first turn of a nested call runs the outer cursor's node if that holds a callback. */
  lemma {:induction false} NestedFirstTurn(s: State, c: NodeId)
    requires Inv(s) && s.once && s.frames != [] && !IsEmpty(s.callbacks) && Top(s).cursor == At(c)
    ensures var t := EnterNotify(s);
            && t.frames != [] && Top(t).ran == [] && Target(t) < |t.callbacks|
            && (c in LiveIds(s.callbacks) ==> t.callbacks[Target(t)].id == c)
  {
    var t := EnterNotify(s);
    FirstTarget(s);
    assert FrameOk(s, Top(s));
    LiveInIds(s.callbacks);
    NodeIds(s.callbacks, 0);
    TargetNode(t);
    if c in LiveIds(s.callbacks) {
      HasIsMember(s.callbacks, c);
      assert s.callbacks[0].id <= c;
    }
  }

  /** Why a once-list must not be notified from inside a notification: from the nested call's first turn
      on, the node of the outer loop's iterator is out of the list if and only if it held a callback
      when the call was made. One that was null then is never taken away. */
  lemma {:induction false} NestedOnceNotifyStrands(states: seq<State>, ops: seq<Op>, m: nat)
    requires NestedCall(states, ops) && 2 <= m <= |ops| && Top(states[0]).cursor.At?
    ensures var c := Top(states[0]).cursor.id;
            Has(states[m].callbacks, c) <==> !Live(states[0].callbacks, c)
  {
    var s, c, d := states[0], Top(states[0]).cursor.id, |states[0].frames|;
    NestedFirstTurn(s, c);
    assert FrameOk(s, Top(s));
    HasIsMember(s.callbacks, c);
    var gone := c in LiveIds(s.callbacks);
    if gone {
      RunLists(states[1]);
      NestedStep(states[1], ops[1], d, c);
      NestedRest(states, ops, 2, m, c, true);
    } else {
      NestedRest(states, ops, 1, m, c, false);
    }
    HasIsMember(states[m].callbacks, c);
  }

  // ---------- Histories that show what can happen ----------

  lemma {:induction false} RunSnoc(states: seq<State>, ops: seq<Op>, op: Op)
    requires IsRun(states, ops) && Enabled(states[|ops|], op)
    ensures IsRun(states + [Step(states[|ops|], op)], ops + [op])
  {
    var ss, oo := states + [Step(states[|ops|], op)], ops + [op];
    forall k | 0 <= k < |oo| ensures Enabled(ss[k], oo[k]) && ss[k + 1] == Step(ss[k], oo[k]) {
      assert ss[k] == states[k];
    }
  }

  lemma {:induction false} FirstTurn(s: State)
    requires |s.frames| == 1 && s.callbacks != [] && s.callbacks[0].cb.Some?
    requires s.frames[0] == Frame(At(s.callbacks[0].id), false, [])
    ensures Target(s) == 0
    ensures RunNext(s).frames == [Frame(CursorAt(s.callbacks, 1), false, [s.callbacks[0].id])]
  {
    var n := s.callbacks[0].id;
    assert Index(s.callbacks, n) == 0;
    var g := Frame(CursorAt(s.callbacks, 1), false, [] + [n]);
    assert s.frames[0 := g] == [g] && [] + [n] == [n];
  }

  /** The only callback of a list is running. */
  lemma {:induction false} OnlyOneRunning() returns (states: seq<State>, ops: seq<Op>)
    ensures IsRun(states, ops) && states[0] == Fresh(false, false) && ops == [AddUnsafe(7), Enter, Run]
    ensures !IsEmpty(states[1].callbacks) && states[1].frames == [] && |states[2].frames| == 1
    ensures states[3] == State(false, [Node(0, Some(7))], [], true, false, 0, 1, map[], [Frame(End, false, [0])])
  {
    var s0 := Fresh(false, false);
    var s1 := Step(s0, AddUnsafe(7));
    assert s1.callbacks == [Node(0, Some(7))] && s1.callbacks[0].cb.Some?;
    var s2 := Step(s1, Enter);
    assert s2 == s1.(frames := [Frame(At(0), false, [])], iterating := true);
    FirstTurn(s2);
    var s3 := Step(s2, Run);
    states, ops := [s0, s1, s2, s3], [AddUnsafe(7), Enter, Run];
  }

  /** A callback added while the only other one runs is not run by that activation. */
  lemma {:induction false} AddedDuringLastNotRun() returns (states: seq<State>, ops: seq<Op>)
    ensures Activation(states, ops, 1, 4) && states[0] == Fresh(false, false) && ops[3].AddUnsafe?
    ensures Own(states, 1, 3).cursor.End? && states[3].nextId in LiveIds(states[4].callbacks)
    ensures !OnceIn(Own(states, 1, 4).ran, states[3].nextId)
  {
    var a, x := OnlyOneRunning();
    var s3 := a[3];
    var s4 := Step(s3, AddUnsafe(8));
    AppendIds(s3.callbacks, Node(1, Some(8)));
    RunSnoc(a, x, AddUnsafe(8));
    RunSnoc(a + [s4], x + [AddUnsafe(8)], Leave);
    states, ops := a + [s4] + [Step(s4, Leave)], x + [AddUnsafe(8)] + [Leave];
    assert states[3] == s3 && states[4] == s4 && Own(states, 1, 4).ran == [0];
  }

  lemma {:induction false} TwoAdded() returns (states: seq<State>, ops: seq<Op>)
    ensures IsRun(states, ops) && states[0] == Fresh(true, false) && |ops| == 2
    ensures states[2] == Fresh(true, false).(callbacks := [Node(0, Some(7)), Node(1, Some(8))], nextId := 2)
  {
    var s0 := Fresh(true, false);
    var s1 := Step(s0, AddUnsafe(7));
    assert s1 == s0.(callbacks := [Node(0, Some(7))], nextId := 1);
    var s2 := Step(s1, AddUnsafe(8));
    states, ops := [s0, s1, s2], [AddUnsafe(7), AddUnsafe(8)];
  }

  /** The first of two callbacks of a once-list is running and the second is next. */
  lemma {:induction false} FirstOfTwoRunning() returns (states: seq<State>, ops: seq<Op>)
    ensures IsRun(states, ops) && states[0] == Fresh(true, false) && |ops| == 4
    ensures states[4] ==
            State(true, [Node(1, Some(8))], [Node(0, None)], true, false, 0, 2, map[], [Frame(At(1), false, [0])])
  {
    var a, x := TwoAdded();
    var s2 := a[2];
    assert s2.callbacks[0].cb.Some?;
    var s3 := Step(s2, Enter);
    assert s3 == s2.(frames := [Frame(At(0), false, [])], iterating := true);
    FirstTurn(s3);
    assert Without(s3.callbacks, 0) == [Node(1, Some(8))];
    var s4 := Step(s3, Run);
    RunSnoc(a, x, Enter);
    RunSnoc(a + [s3], x + [Enter], Run);
    states, ops := a + [s3] + [s4], x + [Enter] + [Run];
  }

  /** A null callback without any subscription. */
  lemma {:induction false} NullWithoutSubscription() returns (states: seq<State>, ops: seq<Op>)
    ensures IsRun(states, ops) && states[0] == Fresh(true, false)
    ensures states[|ops|].nulls == [Node(0, None)] && states[|ops|].subs == map[]
  {
    states, ops := FirstOfTwoRunning();
  }

  /** Notified by its first callback, such a list loses the node of the outer loop's iterator. */
  lemma {:induction false} NestedOnceNotifyHappens()
    returns (states: seq<State>, ops: seq<Op>, nested: seq<State>, calls: seq<Op>)
    ensures IsRun(states, ops) && states[0] == Fresh(true, false)
    ensures NestedCall(nested, calls) && nested[0] == states[|ops|]
    ensures Top(nested[0]).cursor == At(1) && !Has(nested[2].callbacks, 1)
  {
    states, ops := FirstOfTwoRunning();
    ReachableInv(states, ops, 4);
    var s := states[4];
    assert s.callbacks[0].cb.Some?;
    NestedFirstTurn(s, 1);
    var t := Step(s, Enter);
    nested, calls := [s, t, Step(t, Run)], [Enter, Run];
    NestedOnceNotifyStrands(nested, calls, 2);
  }
}
