/** The state of a RepeatingCallbackList or OnceCallbackList as a value, with one function per
    operation, and the invariant that every reachable state satisfies.

    List nodes carry an identity, so that subscriptions and cursors are node references, as the
    `std::list` iterators of the source are. A node whose callback is null holds `None`. */
module CallbackListModel {
  import opened Options

  type NodeId = nat
  type SubId = nat
  type Callback = nat

  datatype Node = Node(id: NodeId, cb: Option<Callback>)

  /** A list iterator: a node, or the past-the-end position, which stays past the end when nodes are
      appended later. */
  datatype Cursor = At(id: NodeId) | End

  /** One activation of `Notify()`: the loop's iterator, the value that AutoReset will restore, and
      the nodes this activation has run so far. */
  datatype Frame = Frame(cursor: Cursor, saved: bool, ran: seq<NodeId>)

  /** `removal` tells whether a removal callback is set and `removals` how often it was run. */
  datatype State = State(
    once: bool, callbacks: seq<Node>, nulls: seq<Node>, iterating: bool,
    removal: bool, removals: nat, nextId: NodeId, subs: map<SubId, NodeId>, frames: seq<Frame>)

  datatype Op =
    | Add(sub: SubId, cb: Callback) | AddUnsafe(cb: Callback) | Cancel(sub: SubId)
    | Enter | Run | Leave

  // ---------- Nodes and cursors ----------

  function Index(nodes: seq<Node>, id: NodeId): (r: nat)
    ensures r <= |nodes|
    ensures r < |nodes| ==> nodes[r].id == id
    ensures forall k :: 0 <= k < r ==> nodes[k].id != id
  {
    if nodes == [] then 0
    else if nodes[0].id == id then 0
    else
      assert forall k :: 1 <= k < |nodes| ==> nodes[k] == nodes[1..][k - 1];
      Index(nodes[1..], id) + 1
  }

  predicate Has(nodes: seq<Node>, id: NodeId) {
    Index(nodes, id) < |nodes|
  }

  predicate Live(nodes: seq<Node>, id: NodeId) {
    Has(nodes, id) && nodes[Index(nodes, id)].cb.Some?
  }

  /** `next_valid`: the first node at or after `i` that is not null, or `|nodes|`. */
  function FirstLive(nodes: seq<Node>, i: nat): (r: nat)
    requires i <= |nodes|
    ensures i <= r <= |nodes|
    ensures r < |nodes| ==> nodes[r].cb.Some?
    ensures forall k :: i <= k < r ==> nodes[k].cb.None?
    decreases |nodes| - i
  {
    if i < |nodes| && nodes[i].cb.None? then FirstLive(nodes, i + 1) else i
  }

  function CursorIndex(nodes: seq<Node>, c: Cursor): (r: nat)
    ensures r <= |nodes|
  {
    if c.End? then |nodes| else Index(nodes, c.id)
  }

  function CursorAt(nodes: seq<Node>, i: nat): Cursor {
    if i < |nodes| then At(nodes[i].id) else End
  }

  predicate IsEmpty(nodes: seq<Node>) {
    forall k :: 0 <= k < |nodes| ==> nodes[k].cb.None?
  }

  function Without(nodes: seq<Node>, i: nat): seq<Node>
    requires i < |nodes|
  {
    nodes[..i] + nodes[i + 1..]
  }

  function NullCount(nodes: seq<Node>): (r: nat)
    ensures r == 0 <==> forall k :: 0 <= k < |nodes| ==> nodes[k].cb.Some?
  {
    if nodes == [] then 0
    else
      assert forall k :: 1 <= k < |nodes| ==> nodes[k] == nodes[1..][k - 1];
      NullCount(nodes[1..]) + if nodes[0].cb.None? then 1 else 0
  }

  /** `EraseIf(callbacks_, is_null)`. */
  function Pruned(nodes: seq<Node>): (r: seq<Node>)
    ensures |r| == |nodes| - NullCount(nodes)
  {
    if nodes == [] then []
    else (if nodes[0].cb.Some? then [nodes[0]] else []) + Pruned(nodes[1..])
  }

  // ---------- Operations ----------

  function Top(s: State): Frame
    requires s.frames != []
  {
    s.frames[|s.frames| - 1]
  }

  /** The node that the running activation's `next_valid` finds, or `|callbacks|`. */
  function Target(s: State): (r: nat)
    requires s.frames != []
    ensures r <= |s.callbacks|
  {
    FirstLive(s.callbacks, CursorIndex(s.callbacks, Top(s).cursor))
  }

  /** Code outside the list runs before any notification or inside a running callback. */
  predicate Outside(s: State) {
    s.frames != [] ==> Top(s).ran != []
  }

  /** What the code lets a caller do. */
  predicate Possible(s: State, op: Op) {
    match op
    case Add(sub, _) => Outside(s) && sub !in s.subs
    case AddUnsafe(_) => Outside(s)
    case Cancel(sub) => Outside(s) && sub in s.subs
    case Enter => Outside(s)
    case Run => s.frames != [] && Target(s) < |s.callbacks|
    case Leave => s.frames != [] && Target(s) == |s.callbacks|
  }

  /** What histories are made of: everything but a notification of a once-list inside another. */
  predicate Enabled(s: State, op: Op) {
    Possible(s, op) && (op.Enter? && s.once ==> s.frames == [])
  }

  function Append(s: State, cb: Callback): State {
    s.(callbacks := s.callbacks + [Node(s.nextId, Some(cb))], nextId := s.nextId + 1)
  }

  function RemovalRun(s: State, due: bool): State {
    if s.removal && due then s.(removals := s.removals + 1) else s
  }

  predicate IsNull(s: State, id: NodeId) {
    if Has(s.callbacks, id) then !Live(s.callbacks, id) else !Live(s.nulls, id)
  }

  /** `CancelCallback`, with `CancelNullCallback` of a once-list as its first branch. */
  function CancelNode(s: State, id: NodeId): State {
    var i, j := Index(s.callbacks, id), Index(s.nulls, id);
    if s.once && IsNull(s, id) then
      if j == |s.nulls| then s else s.(nulls := Without(s.nulls, j))
    else if i == |s.callbacks| then s
    else if s.iterating then s.(callbacks := s.callbacks[i := Node(id, None)])
    else RemovalRun(s.(callbacks := Without(s.callbacks, i)), true)
  }

  function EnterNotify(s: State): State {
    if IsEmpty(s.callbacks) then s
    else s.(frames := s.frames + [Frame(CursorAt(s.callbacks, 0), s.iterating, [])], iterating := true)
  }

  /** One turn of the loop: the cursor steps to the successor before the callback runs. */
  function RunNext(s: State): State
    requires s.frames != [] && Target(s) < |s.callbacks|
  {
    var i, f := Target(s), Top(s);
    var id := s.callbacks[i].id;
    var g := f.(cursor := CursorAt(s.callbacks, i + 1), ran := f.ran + [id]);
    var r := s.(frames := s.frames[|s.frames| - 1 := g]);
    if s.once then r.(callbacks := Without(s.callbacks, i), nulls := s.nulls + [Node(id, None)]) else r
  }

  function LeaveNotify(s: State): State
    requires s.frames != []
  {
    var r := s.(frames := s.frames[..|s.frames| - 1], iterating := Top(s).saved);
    if r.iterating then r
    else RemovalRun(r.(callbacks := Pruned(s.callbacks)), NullCount(s.callbacks) > 0 || s.once)
  }

  function Step(s: State, op: Op): State
    requires Possible(s, op)
  {
    match op
    case Add(sub, cb) => Append(s, cb).(subs := s.subs[sub := s.nextId])
    case AddUnsafe(cb) => Append(s, cb)
    case Cancel(sub) => CancelNode(s, s.subs[sub]).(subs := s.subs - {sub})
    case Enter => EnterNotify(s)
    case Run => RunNext(s)
    case Leave => LeaveNotify(s)
  }

  // ---------- Invariant ----------

  /** Nodes are appended with growing identities, so list order is identity order. */
  ghost predicate Sorted(nodes: seq<Node>) {
    forall i, j :: 0 <= i < j < |nodes| ==> nodes[i].id < nodes[j].id
  }

  ghost predicate Increasing(ids: seq<NodeId>) {
    forall i, j :: 0 <= i < j < |ids| ==> ids[i] < ids[j]
  }

  ghost function Ids(nodes: seq<Node>): set<NodeId> {
    set n | n in nodes :: n.id
  }

  ghost function LiveIds(nodes: seq<Node>): set<NodeId> {
    set n | n in nodes && n.cb.Some? :: n.id
  }

  ghost predicate NodesInv(s: State) {
    && Sorted(s.callbacks) && NoNodeTwice(s.nulls)
    && (forall id :: id in Ids(s.callbacks) ==> id < s.nextId)
    && (forall id :: id in Ids(s.nulls) ==> id < s.nextId)
    && Ids(s.callbacks) !! Ids(s.nulls) && LiveIds(s.nulls) == {}
    && (!s.once ==> s.nulls == [])
    && (!s.iterating ==> LiveIds(s.callbacks) == Ids(s.callbacks))
  }

  /** The null list holds no node twice; its order is the order in which callbacks were run. */
  ghost predicate NoNodeTwice(nodes: seq<Node>) {
    forall i, j :: 0 <= i < j < |nodes| ==> nodes[i].id != nodes[j].id
  }

  /** A live subscription points to a node with a callback in the list, or to a node of the null list
      of a once-list; no two point to one node. */
  ghost predicate SubsInv(s: State) {
    && (forall u :: u in s.subs ==> s.subs[u] in LiveIds(s.callbacks) || (s.once && s.subs[u] in Ids(s.nulls)))
    && (forall u, v :: u in s.subs && v in s.subs && u != v ==> s.subs[u] != s.subs[v])
  }

  predicate Passed(f: Frame, id: NodeId) {
    f.ran != [] && id <= f.ran[|f.ran| - 1]
  }

  /** An activation's cursor is right behind the nodes it has passed; of those, it has run every one
      that was not null when its turn came, in list order. */
  ghost predicate FrameInv(ids: set<NodeId>, live: set<NodeId>, once: bool, nextId: NodeId, f: Frame) {
    && Increasing(f.ran)
    && (f.ran != [] ==> f.ran[|f.ran| - 1] < nextId)
    && (f.cursor.At? ==>
          && f.cursor.id in ids && !Passed(f, f.cursor.id)
          && forall id :: id in ids && id < f.cursor.id ==> Passed(f, id))
    && (f.cursor.End? ==> f.ran != [])
    && (f.ran == [] ==> live != {})
    && (forall id :: id in live && Passed(f, id) ==> id in f.ran)
    && (once ==> forall id :: id in f.ran ==> id !in ids)
  }

  ghost predicate FrameOk(s: State, f: Frame) {
    FrameInv(Ids(s.callbacks), LiveIds(s.callbacks), s.once, s.nextId, f)
  }

  ghost predicate FramesInv(s: State) {
    && (s.iterating <==> s.frames != [])
    && (s.once ==> |s.frames| <= 1)
    && (forall k :: 0 <= k < |s.frames| ==>
          FrameOk(s, s.frames[k]) && (s.frames[k].saved <==> k > 0) && (k < |s.frames| - 1 ==> s.frames[k].ran != []))
  }

  ghost predicate Inv(s: State) {
    NodesInv(s) && SubsInv(s) && FramesInv(s)
  }

  // ---------- Lists of nodes as sets of identities ----------

  lemma {:induction false} IndexAt(nodes: seq<Node>, k: nat)
    requires NoNodeTwice(nodes) && k < |nodes|
    ensures Index(nodes, nodes[k].id) == k
  {
  }

  lemma {:induction false} HasIsMember(nodes: seq<Node>, id: NodeId)
    requires NoNodeTwice(nodes)
    ensures Has(nodes, id) <==> id in Ids(nodes)
    ensures Live(nodes, id) <==> id in LiveIds(nodes)
  {
    if id in Ids(nodes) {
      var n :| n in nodes && n.id == id;
      var k :| 0 <= k < |nodes| && nodes[k] == n;
      IndexAt(nodes, k);
    }
    if id in LiveIds(nodes) {
      var n :| n in nodes && n.id == id && n.cb.Some?;
      var k :| 0 <= k < |nodes| && nodes[k] == n;
      IndexAt(nodes, k);
    }
  }

  lemma {:induction false} LiveInIds(nodes: seq<Node>)
    ensures LiveIds(nodes) <= Ids(nodes)
  {
  }

  lemma {:induction false} AppendIds(nodes: seq<Node>, n: Node)
    ensures Ids(nodes + [n]) == Ids(nodes) + {n.id}
    ensures LiveIds(nodes + [n]) == LiveIds(nodes) + (if n.cb.Some? then {n.id} else {})
  {
    assert forall m :: m in nodes + [n] <==> m in nodes || m == n;
    assert n in nodes + [n];
  }

  lemma {:induction false} WithoutIds(nodes: seq<Node>, i: nat)
    requires NoNodeTwice(nodes) && i < |nodes|
    ensures NoNodeTwice(Without(nodes, i)) && (Sorted(nodes) ==> Sorted(Without(nodes, i)))
    ensures Ids(Without(nodes, i)) == Ids(nodes) - {nodes[i].id}
    ensures LiveIds(Without(nodes, i)) == LiveIds(nodes) - {nodes[i].id}
  {
    var r := Without(nodes, i);
    assert forall k :: 0 <= k < |r| ==> r[k] == nodes[if k < i then k else k + 1];
    forall m ensures m in r <==> m in nodes && m.id != nodes[i].id {
      if m in nodes && m.id != nodes[i].id {
        var k :| 0 <= k < |nodes| && nodes[k] == m;
        assert r[if k < i then k else k - 1] == m;
      }
    }
  }

  lemma {:induction false} MarkIds(nodes: seq<Node>, i: nat)
    requires Sorted(nodes) && i < |nodes|
    ensures var r := nodes[i := Node(nodes[i].id, None)];
            Sorted(r) && Ids(r) == Ids(nodes) && LiveIds(r) == LiveIds(nodes) - {nodes[i].id}
  {
    var n := Node(nodes[i].id, None);
    var r := nodes[i := n];
    assert forall k :: 0 <= k < |r| ==> r[k] == if k == i then n else nodes[k];
    forall m ensures m in r <==> (m in nodes && m.id != nodes[i].id) || m == n {
      if m in nodes && m.id != nodes[i].id {
        var k :| 0 <= k < |nodes| && nodes[k] == m;
        assert r[k] == m;
      }
      assert r[i] == n;
    }
    assert nodes[i] in nodes && n in r;
  }

  lemma {:induction false} PrunedMembers(nodes: seq<Node>)
    ensures forall n :: n in Pruned(nodes) <==> n in nodes && n.cb.Some?
  {
    if nodes != [] {
      PrunedMembers(nodes[1..]);
      assert nodes == [nodes[0]] + nodes[1..];
    }
  }

  lemma {:induction false} PrunedSorted(nodes: seq<Node>)
    requires Sorted(nodes)
    ensures Sorted(Pruned(nodes))
  {
    if nodes != [] {
      PrunedSorted(nodes[1..]);
      PrunedMembers(nodes[1..]);
      var r := Pruned(nodes[1..]);
      forall k | 0 <= k < |r| ensures nodes[0].id < r[k].id {
        assert r[k] in nodes[1..];
      }
    }
  }

  lemma {:induction false} PrunedIds(nodes: seq<Node>)
    requires Sorted(nodes)
    ensures Sorted(Pruned(nodes))
    ensures Ids(Pruned(nodes)) == LiveIds(Pruned(nodes)) == LiveIds(nodes)
  {
    PrunedSorted(nodes);
    PrunedMembers(nodes);
  }

  // ---------- The invariant is kept by every operation ----------

  lemma {:induction false} FrameAfterAppend(ids: set<NodeId>, live: set<NodeId>, once: bool, n: NodeId, f: Frame)
    requires FrameInv(ids, live, once, n, f) && forall id :: id in ids ==> id < n
    ensures FrameInv(ids + {n}, live + {n}, once, n + 1, f)
  {
  }

  lemma {:induction false} FrameAfterMark(
      ids: set<NodeId>, live: set<NodeId>, less: set<NodeId>, once: bool, n: NodeId, f: Frame)
    requires FrameInv(ids, live, once, n, f) && f.ran != [] && less <= live
    ensures FrameInv(ids, less, once, n, f)
  {
  }

  /** All activations under a running callback have run something. */
  lemma {:induction false} OutsideRan(s: State, k: nat)
    requires FramesInv(s) && Outside(s) && k < |s.frames|
    ensures FrameOk(s, s.frames[k]) && s.frames[k].ran != []
  {
  }

  lemma {:induction false} AppendNodes(s: State, cb: Callback)
    requires NodesInv(s)
    ensures NodesInv(Append(s, cb)) && s.nextId !in Ids(s.callbacks) + Ids(s.nulls)
  {
    AppendIds(s.callbacks, Node(s.nextId, Some(cb)));
    assert forall k :: 0 <= k < |s.callbacks| ==> s.callbacks[k].id in Ids(s.callbacks);
  }

  lemma {:induction false} AppendFrames(s: State, cb: Callback)
    requires NodesInv(s) && FramesInv(s)
    ensures FramesInv(Append(s, cb))
  {
    var t := Append(s, cb);
    AppendIds(s.callbacks, Node(s.nextId, Some(cb)));
    forall k | 0 <= k < |s.frames| ensures FrameOk(t, t.frames[k]) {
      FrameAfterAppend(Ids(s.callbacks), LiveIds(s.callbacks), s.once, s.nextId, s.frames[k]);
    }
  }

  lemma {:induction false} AddInv(s: State, op: Op)
    requires Inv(s) && Enabled(s, op) && (op.Add? || op.AddUnsafe?)
    ensures Inv(Step(s, op))
  {
    AppendNodes(s, op.cb);
    AppendFrames(s, op.cb);
    AppendSubs(s, op);
    var t := Append(s, op.cb);
    forall k | 0 <= k < |t.frames| ensures FrameOk(Step(s, op), t.frames[k]) {
      assert FrameOk(t, t.frames[k]);
    }
  }

  lemma {:induction false} AppendSubs(s: State, op: Op)
    requires NodesInv(s) && SubsInv(s) && Enabled(s, op) && (op.Add? || op.AddUnsafe?)
    ensures SubsInv(Step(s, op))
  {
    AppendNodes(s, op.cb);
    AppendIds(s.callbacks, Node(s.nextId, Some(op.cb)));
    LiveInIds(s.callbacks);
  }

  /** What cancelling does to the lists, given where subscriptions point. In particular the check in
      the repeating list's `CancelNullCallback` holds: the node cancelled is not null. */
  lemma {:induction false} CancelLists(s: State, u: SubId)
    requires NodesInv(s) && SubsInv(s) && u in s.subs
    ensures !s.once ==> Live(s.callbacks, s.subs[u])
    ensures var id, t := s.subs[u], CancelNode(s, s.subs[u]);
            && NodesInv(t) && t.frames == s.frames && t.once == s.once && t.iterating == s.iterating
            && t.nextId == s.nextId
            && LiveIds(t.callbacks) == LiveIds(s.callbacks) - {id}
            && Ids(t.callbacks) == (if s.iterating then Ids(s.callbacks) else Ids(s.callbacks) - {id})
            && Ids(t.nulls) == Ids(s.nulls) - {id}
  {
    var id := s.subs[u];
    HasIsMember(s.callbacks, id);
    HasIsMember(s.nulls, id);
    if id in LiveIds(s.callbacks) {
      CancelLive(s, id);
      assert Ids(s.nulls) - {id} == Ids(s.nulls);
    } else {
      CancelNull(s, id);
      assert Ids(s.callbacks) - {id} == Ids(s.callbacks) && LiveIds(s.callbacks) - {id} == LiveIds(s.callbacks);
    }
  }

  lemma {:induction false} CancelLive(s: State, id: NodeId)
    requires NodesInv(s) && Live(s.callbacks, id)
    ensures var t := CancelNode(s, id);
            && NodesInv(t) && t == s.(callbacks := t.callbacks, removals := t.removals)
            && LiveIds(t.callbacks) == LiveIds(s.callbacks) - {id}
            && Ids(t.callbacks) == (if s.iterating then Ids(s.callbacks) else Ids(s.callbacks) - {id})
            && id !in Ids(s.nulls)
  {
    HasIsMember(s.callbacks, id);
    var i := Index(s.callbacks, id);
    MarkIds(s.callbacks, i);
    WithoutIds(s.callbacks, i);
  }

  lemma {:induction false} CancelNull(s: State, id: NodeId)
    requires NodesInv(s) && s.once && Has(s.nulls, id)
    ensures var t := CancelNode(s, id);
            && NodesInv(t) && t == s.(nulls := t.nulls)
            && Ids(t.nulls) == Ids(s.nulls) - {id} && id !in Ids(s.callbacks) + LiveIds(s.callbacks)
  {
    HasIsMember(s.nulls, id);
    HasIsMember(s.callbacks, id);
    WithoutIds(s.nulls, Index(s.nulls, id));
  }

  lemma {:induction false} CancelInv(s: State, u: SubId)
    requires Inv(s) && Enabled(s, Cancel(u))
    ensures Inv(Step(s, Cancel(u)))
  {
    CancelLists(s, u);
    var t := Step(s, Cancel(u));
    assert NodesInv(t) by {
      assert NodesInv(CancelNode(s, s.subs[u]));
    }
    assert SubsInv(t);
    forall k | 0 <= k < |s.frames| ensures FrameOk(t, t.frames[k]) {
      OutsideRan(s, k);
      FrameAfterMark(Ids(s.callbacks), LiveIds(s.callbacks), LiveIds(t.callbacks), s.once, s.nextId, s.frames[k]);
    }
    assert FramesInv(t);
  }

  lemma {:induction false} EnterInv(s: State)
    requires Inv(s) && Enabled(s, Enter)
    ensures Inv(Step(s, Enter))
  {
    if !IsEmpty(s.callbacks) {
      var t := Step(s, Enter);
      FirstFrame(s);
      forall k | 0 <= k < |t.frames|
        ensures FrameOk(t, t.frames[k]) && (t.frames[k].saved <==> k > 0)
        ensures (k < |t.frames| - 1 ==> t.frames[k].ran != [])
      {
        if k < |s.frames| {
          OutsideRan(s, k);
        }
      }
    }
  }

  lemma {:induction false} FirstFrame(s: State)
    requires NodesInv(s) && !IsEmpty(s.callbacks)
    ensures FrameOk(s, Frame(CursorAt(s.callbacks, 0), s.iterating, []))
  {
    var j :| 0 <= j < |s.callbacks| && s.callbacks[j].cb.Some?;
    assert s.callbacks[j] in s.callbacks && s.callbacks[0] in s.callbacks;
    assert s.callbacks[j].id in LiveIds(s.callbacks);
    forall id | id in Ids(s.callbacks) ensures s.callbacks[0].id <= id {
      HasIsMember(s.callbacks, id);
    }
  }

  /** The node that a turn of the loop runs, and where the cursor goes. */
  lemma {:induction false} TargetNode(s: State)
    requires NodesInv(s) && s.frames != [] && Target(s) < |s.callbacks|
    requires Top(s).cursor.At? ==> Top(s).cursor.id in Ids(s.callbacks)
    ensures var n, c := s.callbacks[Target(s)], CursorAt(s.callbacks, Target(s) + 1);
            && n.id in LiveIds(s.callbacks) && Top(s).cursor.At? && Top(s).cursor.id <= n.id
            && (forall id :: id in LiveIds(s.callbacks) && Top(s).cursor.id <= id ==> n.id <= id)
            && (c.At? ==> c.id in Ids(s.callbacks) && n.id < c.id
                          && forall id :: id in Ids(s.callbacks) && id < c.id ==> id <= n.id)
            && (c.End? ==> forall id :: id in Ids(s.callbacks) ==> id <= n.id)
  {
    var i := Target(s);
    NodeIds(s.callbacks, i);
    SuccessorIsNext(s.callbacks, i);
    HasIsMember(s.callbacks, Top(s).cursor.id);
    FirstLiveIsLeast(s.callbacks, Index(s.callbacks, Top(s).cursor.id));
  }

  lemma {:induction false} SuccessorIsNext(nodes: seq<Node>, i: nat)
    requires Sorted(nodes) && i < |nodes|
    ensures var c := CursorAt(nodes, i + 1);
            && (c.At? ==> c.id in Ids(nodes) && nodes[i].id < c.id
                          && forall id :: id in Ids(nodes) && id < c.id ==> id <= nodes[i].id)
            && (c.End? ==> forall id :: id in Ids(nodes) ==> id <= nodes[i].id)
  {
    if i + 1 < |nodes| {
      NodeIds(nodes, i + 1);
    }
    forall id | id in Ids(nodes)
      ensures id <= nodes[i].id || (i + 1 < |nodes| && nodes[i + 1].id <= id)
    {
      HasIsMember(nodes, id);
    }
  }

  lemma {:induction false} FirstLiveIsLeast(nodes: seq<Node>, from: nat)
    requires Sorted(nodes) && from < |nodes| && FirstLive(nodes, from) < |nodes|
    ensures forall id :: id in LiveIds(nodes) && nodes[from].id <= id ==> nodes[FirstLive(nodes, from)].id <= id
  {
    forall id | id in LiveIds(nodes) && nodes[from].id <= id
      ensures nodes[FirstLive(nodes, from)].id <= id
    {
      HasIsMember(nodes, id);
    }
  }

  /** A turn of the loop keeps the activation's account exact. */
  lemma {:induction false} FrameAfterRun(
      ids: set<NodeId>, live: set<NodeId>, once: bool, n: NodeId, f: Frame, id: NodeId, c: Cursor)
    requires FrameInv(ids, live, once, n, f)
    requires id in live && live <= ids && id < n && f.cursor.At? && f.cursor.id <= id
    requires forall x :: x in live && f.cursor.id <= x ==> id <= x
    requires c.At? ==> c.id in ids && id < c.id && forall x :: x in ids && x < c.id ==> x <= id
    ensures var g := f.(cursor := c, ran := f.ran + [id]);
            FrameInv(if once then ids - {id} else ids, if once then live - {id} else live, once, n, g)
  {
    var g := f.(cursor := c, ran := f.ran + [id]);
    assert f.ran != [] ==> f.ran[|f.ran| - 1] < f.cursor.id;
    assert forall x :: x in g.ran <==> x in f.ran || x == id;
    forall x | x in live && Passed(g, x) ensures x in g.ran {
      if f.cursor.id > x {
        assert Passed(f, x);
      }
    }
  }

  lemma {:induction false} RunLists(s: State)
    requires NodesInv(s) && SubsInv(s) && s.frames != [] && Target(s) < |s.callbacks|
    ensures var t, id := RunNext(s), s.callbacks[Target(s)].id;
            && NodesInv(t) && SubsInv(t) && id < s.nextId
            && Ids(t.callbacks) == (if s.once then Ids(s.callbacks) - {id} else Ids(s.callbacks))
            && LiveIds(t.callbacks) == (if s.once then LiveIds(s.callbacks) - {id} else LiveIds(s.callbacks))
  {
    var i := Target(s);
    NodeIds(s.callbacks, i);
    if s.once {
      Splice(s, i);
    }
  }

  lemma {:induction false} NodeIds(nodes: seq<Node>, i: nat)
    requires i < |nodes|
    ensures nodes[i].id in Ids(nodes)
    ensures nodes[i].cb.Some? ==> nodes[i].id in LiveIds(nodes)
  {
    assert nodes[i] in nodes;
  }

  /** Moving a node to the null list keeps every subscription's node in one of the two lists. */
  lemma {:induction false} Splice(s: State, i: nat)
    requires NodesInv(s) && SubsInv(s) && s.once && i < |s.callbacks|
    ensures var id := s.callbacks[i].id;
            var t := s.(callbacks := Without(s.callbacks, i), nulls := s.nulls + [Node(id, None)]);
            && NodesInv(t) && SubsInv(t)
            && Ids(t.callbacks) == Ids(s.callbacks) - {id} && LiveIds(t.callbacks) == LiveIds(s.callbacks) - {id}
            && Ids(t.nulls) == Ids(s.nulls) + {id}
  {
    NodeIds(s.callbacks, i);
    WithoutIds(s.callbacks, i);
    AppendIds(s.nulls, Node(s.callbacks[i].id, None));
    forall k | 0 <= k < |s.nulls| ensures s.nulls[k].id in Ids(s.nulls) {
      NodeIds(s.nulls, k);
    }
  }

  lemma {:induction false} RunInv(s: State)
    requires Inv(s) && Enabled(s, Run)
    ensures Inv(RunNext(s))
  {
    var t, f := RunNext(s), Top(s);
    assert FrameOk(s, f);
    TargetNode(s);
    RunLists(s);
    LiveInIds(s.callbacks);
    FrameAfterRun(Ids(s.callbacks), LiveIds(s.callbacks), s.once, s.nextId, f,
                  s.callbacks[Target(s)].id, CursorAt(s.callbacks, Target(s) + 1));
    forall k | 0 <= k < |t.frames| ensures FrameOk(t, t.frames[k]) {
      if k < |s.frames| - 1 {
        assert FrameOk(s, s.frames[k]);
      }
    }
  }

  lemma {:induction false} LeaveInv(s: State)
    requires Inv(s) && Enabled(s, Leave)
    ensures Inv(LeaveNotify(s))
  {
    var t := LeaveNotify(s);
    PrunedIds(s.callbacks);
    LiveInIds(s.callbacks);
    assert Top(s) == s.frames[|s.frames| - 1];
    if |s.frames| > 1 {
      forall k | 0 <= k < |t.frames| ensures FrameOk(t, t.frames[k]) {
        assert FrameOk(s, s.frames[k]);
      }
    }
  }

  lemma {:induction false} InvStep(s: State, op: Op)
    requires Inv(s) && Enabled(s, op)
    ensures Inv(Step(s, op))
  {
    match op
    case Add(_, _) => AddInv(s, op);
    case AddUnsafe(_) => AddInv(s, op);
    case Cancel(u) => CancelInv(s, u);
    case Enter => EnterInv(s);
    case Run => RunInv(s);
    case Leave => LeaveInv(s);
  }
}
