/** The callback list as the source has it: an object whose methods update its lists in place, with
    the re-entrant loop of `Notify()`. What running callbacks do to the list is given by a script: a
    finite tree with, for each callback run, the calls it makes. Every call of `Notify()` is proved to
    be a history of CallbackListModel, so that everything proved of histories holds of it. */
module CallbackListClass {
  import opened Options
  import opened CallbackListModel
  import opened CallbackListRuns

  datatype Action =
    | DoAdd(sub: SubId, cb: Callback) | DoAddUnsafe(cb: Callback)
    | DoCancel(sub: SubId) | DoNotify(script: seq<Behaviour>)

  /** The calls one run of a callback makes. */
  datatype Behaviour = Behaviour(actions: seq<Action>)

  /** No callback of the script notifies the list again. */
  predicate Flat(script: seq<Behaviour>) {
    forall b :: b in script ==> NotifyFree(b.actions)
  }

  predicate NotifyFree(actions: seq<Action>) {
    forall a :: a in actions ==> !a.DoNotify?
  }

  /** A history leading from one state to another, with at least `d` activations throughout. */
  ghost predicate Path(states: seq<State>, ops: seq<Op>, from: State, to: State, d: nat) {
    && IsRun(states, ops) && states[0] == from && states[|ops|] == to
    && forall k :: 0 <= k < |states| ==> |states[k].frames| >= d
  }

  lemma {:induction false} PathStart(s: State, d: nat)
    requires Inv(s) && |s.frames| >= d
    ensures Path([s], [], s, s, d)
  {
  }

  lemma {:induction false} RunJoin(s1: seq<State>, o1: seq<Op>, s2: seq<State>, o2: seq<Op>)
    requires IsRun(s1, o1) && IsRun(s2, o2) && s1[|o1|] == s2[0]
    ensures IsRun(s1 + s2[1..], o1 + o2)
  {
    var ss, oo := s1 + s2[1..], o1 + o2;
    assert forall k :: |o1| <= k < |ss| ==> ss[k] == s2[k - |o1|];
    forall k | 0 <= k < |oo| ensures Enabled(ss[k], oo[k]) && ss[k + 1] == Step(ss[k], oo[k]) {
      if k < |o1| {
        assert ss[k] == s1[k] && ss[k + 1] == s1[k + 1] && oo[k] == o1[k];
      } else {
        assert oo[k] == o2[k - |o1|];
      }
    }
  }

  lemma {:induction false} PathJoin(
      s1: seq<State>, o1: seq<Op>, s2: seq<State>, o2: seq<Op>, from: State, mid: State, to: State, d: nat)
    requires Path(s1, o1, from, mid, d) && Path(s2, o2, mid, to, d)
    ensures Path(s1 + s2[1..], o1 + o2, from, to, d)
  {
    RunJoin(s1, o1, s2, o2);
    var ss := s1 + s2[1..];
    assert forall k :: 0 <= k < |ss| ==> ss[k] == if k <= |o1| then s1[k] else s2[k - |o1|];
  }

  lemma {:induction false} StepPath(s: State, op: Op, t: State, d: nat)
    requires Inv(s) && Enabled(s, op) && t == Step(s, op) && |s.frames| >= d && |t.frames| >= d
    ensures Path([s, t], [op], s, t, d)
  {
  }

  /** `b` is `a` except for the topmost activation's cursor and account. */
  ghost predicate SameBelow(a: seq<Frame>, b: seq<Frame>) {
    && |a| == |b| > 0
    && a[..|a| - 1] == b[..|a| - 1] && a[|a| - 1].saved == b[|a| - 1].saved
  }

  lemma {:induction false} CursorMovesOn(s: State, i: nat)
    requires Inv(s) && s.frames != [] && i == Target(s) < |s.callbacks|
    ensures |RunNext(s).callbacks| - Target(RunNext(s)) < |s.callbacks| - i
  {
    var t := RunNext(s);
    if i + 1 < |s.callbacks| {
      IndexAt(s.callbacks, i + 1);
      if s.once {
        WithoutIds(s.callbacks, i);
        assert t.callbacks[i] == s.callbacks[i + 1];
        IndexAt(t.callbacks, i);
      }
    }
  }

  /** A loop's own history, with the entry before it and the return after it, is an activation. */
  lemma {:induction false} CloseActivation(
      ss: seq<State>, oo: seq<Op>, before: State, entered: State, last: State, after: State)
    requires Inv(before) && Enabled(before, Enter) && !IsEmpty(before.callbacks) && entered == Step(before, Enter)
    requires Path(ss, oo, entered, last, |before.frames| + 1)
    requires Inv(last) && Enabled(last, Leave) && after == Step(last, Leave) && |last.frames| == |before.frames| + 1
    ensures Path([before] + ss + [after], [Enter] + oo + [Leave], before, after, |before.frames|)
    ensures Activation([before] + ss + [after], [Enter] + oo + [Leave], 0, |oo| + 1)
  {
    WholePath(ss, oo, before, entered, last, after);
    var states, ops := [before] + ss + [after], [Enter] + oo + [Leave];
    assert forall k :: 0 < k < |states| - 1 ==> states[k] == ss[k - 1];
    assert ops[|oo| + 1] == Leave;
  }

  lemma {:induction false} WholePath(
      ss: seq<State>, oo: seq<Op>, before: State, entered: State, last: State, after: State)
    requires Inv(before) && Enabled(before, Enter) && entered == Step(before, Enter)
    requires |entered.frames| >= |before.frames|
    requires Path(ss, oo, entered, last, |before.frames|)
    requires Inv(last) && Enabled(last, Leave) && after == Step(last, Leave) && |after.frames| >= |before.frames|
    ensures Path([before] + ss + [after], [Enter] + oo + [Leave], before, after, |before.frames|)
  {
    var d := |before.frames|;
    StepPath(before, Enter, entered, d);
    StepPath(last, Leave, after, d);
    PathJoin([before, entered], [Enter], ss, oo, before, entered, last, d);
    assert [before, entered] + ss[1..] == [before] + ss;
    PathJoin([before] + ss, [Enter] + oo, [last, after], [Leave], before, last, after, d);
    assert [last, after][1..] == [after];
  }

  // ---------- What a script's calls are ----------

  /** The history is that of the calls, in order and nothing besides. */
  ghost predicate Calls(states: seq<State>, ops: seq<Op>, actions: seq<Action>)
    requires |states| == |ops| + 1
    decreases actions
  {
    if actions == [] then ops == []
    else
      var rest, last := actions[..|actions| - 1], actions[|actions| - 1];
      exists m :: 0 <= m <= |ops| && Calls(states[..m + 1], ops[..m], rest) && Gives(states[m..], ops[m..], last)
  }

  /** One call is one operation, or none if no program can make it; a notification is the entry and, if
      there is anything to run, the turns of its loop and the return. */
  ghost predicate Gives(states: seq<State>, ops: seq<Op>, action: Action)
    requires |states| == |ops| + 1
    decreases action
  {
    match action
    case DoAdd(sub, cb) => ops == if sub in states[0].subs then [] else [Add(sub, cb)]
    case DoAddUnsafe(cb) => ops == [AddUnsafe(cb)]
    case DoCancel(sub) => ops == if sub in states[0].subs then [Cancel(sub)] else []
    case DoNotify(script) => Notified(states, ops, script)
  }

  ghost predicate Notified(states: seq<State>, ops: seq<Op>, script: seq<Behaviour>)
    requires |states| == |ops| + 1
    decreases script, 2
  {
    if IsEmpty(states[0].callbacks) then ops == [Enter]
    else
      && |ops| > 1 && ops[0] == Enter && ops[|ops| - 1] == Leave
      && Looped(states[1..|ops|], ops[1..|ops| - 1], script)
  }

  ghost predicate Looped(states: seq<State>, ops: seq<Op>, script: seq<Behaviour>)
    requires |states| == |ops| + 1
    decreases script, 1
  {
    exists k: nat :: Turned(states, ops, script, k)
  }

  /** The first `k` turns of a loop. */
  ghost predicate Turned(states: seq<State>, ops: seq<Op>, script: seq<Behaviour>, k: nat)
    requires |states| == |ops| + 1
    decreases script, 0, k + 1
  {
    if k == 0 then ops == []
    else
      exists m :: 0 <= m <= |ops| && Turned(states[..m + 1], ops[..m], script, k - 1)
                  && InTurn(states[m..], ops[m..], script, k - 1)
  }

  /** Turn `k` runs a callback, which makes the calls the script has for it. */
  ghost predicate InTurn(states: seq<State>, ops: seq<Op>, script: seq<Behaviour>, k: nat)
    requires |states| == |ops| + 1
    decreases script, 0, 0
  {
    && |ops| > 0 && ops[0] == Run
    && if k < |script| then assert script[k] in script; Calls(states[1..], ops[1..], script[k].actions) else |ops| == 1
  }

  lemma {:induction false} Rejoined(s1: seq<State>, o1: seq<Op>, s2: seq<State>, o2: seq<Op>)
    requires |s1| == |o1| + 1 && |s2| == |o2| + 1 && s1[|o1|] == s2[0]
    ensures var ss, oo := s1 + s2[1..], o1 + o2;
            ss[..|o1| + 1] == s1 && ss[|o1|..] == s2 && oo[..|o1|] == o1 && oo[|o1|..] == o2
  {
  }

  lemma {:induction false} CallsGrow(
      s1: seq<State>, o1: seq<Op>, actions: seq<Action>, s2: seq<State>, o2: seq<Op>, action: Action)
    requires |s1| == |o1| + 1 && |s2| == |o2| + 1 && s1[|o1|] == s2[0]
    requires Calls(s1, o1, actions) && Gives(s2, o2, action)
    ensures Calls(s1 + s2[1..], o1 + o2, actions + [action])
  {
    Rejoined(s1, o1, s2, o2);
    var all := actions + [action];
    assert all[..|all| - 1] == actions;
  }

  lemma {:induction false} TurnsGrow(
      s1: seq<State>, o1: seq<Op>, script: seq<Behaviour>, k: nat, s2: seq<State>, o2: seq<Op>)
    requires |s1| == |o1| + 1 && |s2| == |o2| + 1 && s1[|o1|] == s2[0]
    requires Turned(s1, o1, script, k) && InTurn(s2, o2, script, k)
    ensures Turned(s1 + s2[1..], o1 + o2, script, k + 1)
  {
    Rejoined(s1, o1, s2, o2);
  }

  /** A loop between the entry and the return is a notification. */
  lemma {:induction false} NotifiedWhole(
      before: State, ss: seq<State>, oo: seq<Op>, after: State, script: seq<Behaviour>)
    requires |ss| == |oo| + 1 && Looped(ss, oo, script) && !IsEmpty(before.callbacks)
    ensures Notified([before] + ss + [after], [Enter] + oo + [Leave], script)
  {
    var states, ops := [before] + ss + [after], [Enter] + oo + [Leave];
    assert states[1..|ops|] == ss && ops[1..|ops| - 1] == oo;
  }

  /** A path made of the calls. */
  ghost predicate Performed(states: seq<State>, ops: seq<Op>, from: State, to: State, d: nat, actions: seq<Action>) {
    Path(states, ops, from, to, d) && Calls(states, ops, actions)
  }

  lemma {:induction false} PerformedMore(
      s1: seq<State>, o1: seq<Op>, s2: seq<State>, o2: seq<Op>, from: State, mid: State, to: State, d: nat,
      actions: seq<Action>, action: Action)
    returns (states: seq<State>, ops: seq<Op>)
    requires Performed(s1, o1, from, mid, d, actions) && Path(s2, o2, mid, to, d) && Gives(s2, o2, action)
    ensures Performed(states, ops, from, to, d, actions + [action])
  {
    PathJoin(s1, o1, s2, o2, from, mid, to, d);
    CallsGrow(s1, o1, actions, s2, o2, action);
    states, ops := s1 + s2[1..], o1 + o2;
  }

  /** A path made of `k` turns. */
  ghost predicate Progress(
      states: seq<State>, ops: seq<Op>, from: State, to: State, d: nat, script: seq<Behaviour>, k: nat)
  {
    Path(states, ops, from, to, d) && Turned(states, ops, script, k)
  }

  lemma {:induction false} ProgressMore(
      s1: seq<State>, o1: seq<Op>, s2: seq<State>, o2: seq<Op>, from: State, mid: State, to: State, d: nat,
      script: seq<Behaviour>, k: nat)
    returns (states: seq<State>, ops: seq<Op>)
    requires Progress(s1, o1, from, mid, d, script, k) && Path(s2, o2, mid, to, d) && InTurn(s2, o2, script, k)
    ensures Progress(states, ops, from, to, d, script, k + 1)
  {
    PathJoin(s1, o1, s2, o2, from, mid, to, d);
    TurnsGrow(s1, o1, script, k, s2, o2);
    states, ops := s1 + s2[1..], o1 + o2;
  }

  /** The run of a callback, and the calls it makes. */
  lemma {:induction false} RunThenCalls(
      was: State, mid: State, ss: seq<State>, oo: seq<Op>, to: State, actions: seq<Action>)
    returns (states: seq<State>, ops: seq<Op>)
    requires Inv(was) && Enabled(was, Run) && mid == Step(was, Run) && |mid.frames| >= |was.frames|
    requires Performed(ss, oo, mid, to, |was.frames|, actions)
    ensures Path(states, ops, was, to, |was.frames|)
    ensures |ops| > 0 && ops[0] == Run && Calls(states[1..], ops[1..], actions)
  {
    StepPath(was, Run, mid, |was.frames|);
    PathJoin([was, mid], [Run], ss, oo, was, mid, to, |was.frames|);
    states, ops := [was, mid] + ss[1..], [Run] + oo;
    assert states[1..] == ss && ops[1..] == oo;
  }

  function Least(k: nat, n: nat): nat {
    if k < n then k else n
  }

  lemma {:induction false} SubscribedNode(s: State, u: SubId)
    requires NodesInv(s) && SubsInv(s) && u in s.subs
    ensures Live(s.callbacks, s.subs[u]) || (s.once && Has(s.nulls, s.subs[u]))
  {
    HasIsMember(s.callbacks, s.subs[u]);
    HasIsMember(s.nulls, s.subs[u]);
  }

  class CallbackList {
    const once: bool
    const removal: bool
    var callbacks: seq<Node>
    var nulls: seq<Node>
    var iterating: bool
    var removals: nat
    var nextId: NodeId
    var subs: map<SubId, NodeId>
    ghost var frames: seq<Frame>

    ghost function Model(): State
      reads this
    {
      State(once, callbacks, nulls, iterating, removal, removals, nextId, subs, frames)
    }

    ghost predicate Valid()
      reads this
    {
      Inv(Model())
    }

    constructor (once: bool, removal: bool)
      ensures Valid() && Model() == Fresh(once, removal)
    {
      this.once, this.removal := once, removal;
      callbacks, nulls, iterating, removals, nextId, subs, frames := [], [], false, 0, 0, map[], [];
      new;
      FreshInv(once, removal);
    }

    method Add(sub: SubId, cb: Callback)
      requires Valid() && Enabled(Model(), Op.Add(sub, cb))
      modifies this
      ensures Valid() && Model() == Step(old(Model()), Op.Add(sub, cb)) && frames == old(frames)
    {
      ghost var was := Model();
      callbacks := callbacks + [Node(nextId, Some(cb))];
      subs := subs[sub := nextId];
      nextId := nextId + 1;
      assert Model() == Step(was, Op.Add(sub, cb));
      InvStep(was, Op.Add(sub, cb));
    }

    method AddUnsafe(cb: Callback)
      requires Valid() && Enabled(Model(), Op.AddUnsafe(cb))
      modifies this
      ensures Valid() && Model() == Step(old(Model()), Op.AddUnsafe(cb)) && frames == old(frames)
    {
      ghost var was := Model();
      callbacks := callbacks + [Node(nextId, Some(cb))];
      nextId := nextId + 1;
      assert Model() == Step(was, Op.AddUnsafe(cb));
      InvStep(was, Op.AddUnsafe(cb));
    }

    /** Destruction of a subscription: `CancelCallback()` on the node it refers to. */
    method Cancel(sub: SubId)
      requires Valid() && Enabled(Model(), Op.Cancel(sub))
      modifies this
      ensures Valid() && Model() == Step(old(Model()), Op.Cancel(sub)) && frames == old(frames)
      ensures removals == old(removals) + if removal && !iterating && old(Live(callbacks, subs[sub])) then 1 else 0
    {
      ghost var was := Model();
      var id := subs[sub];
      SubscribedNode(was, sub);
      CancelRemovals(was, sub);
      CancelCallback(id);
      subs := subs - {sub};
      assert Model() == CancelNode(was, id).(subs := was.subs - {sub});
      InvStep(was, Op.Cancel(sub));
    }

    /** `id` is the node of the subscription being destroyed: live in the list, or null in the null list. */
    method CancelCallback(id: NodeId)
      requires NodesInv(Model()) && (Live(callbacks, id) || (once && Has(nulls, id)))
      modifies this`callbacks, this`nulls, this`removals
      ensures Model() == CancelNode(old(Model()), id)
    {
      var i, j := Index(callbacks, id), Index(nulls, id);
      HasIsMember(callbacks, id);
      HasIsMember(nulls, id);
      if once && (i == |callbacks| || callbacks[i].cb.None?) {
        nulls := nulls[..j] + nulls[j + 1..];
        return;
      }
      if iterating {
        callbacks := callbacks[i := Node(id, None)];
      } else {
        callbacks := callbacks[..i] + callbacks[i + 1..];
        if removal {
          removals := removals + 1;
        }
      }
    }

    method Empty() returns (b: bool)
      ensures b <==> IsEmpty(callbacks)
    {
      var i := 0;
      while i < |callbacks| && callbacks[i].cb.None?
        invariant 0 <= i <= |callbacks|
        invariant forall k :: 0 <= k < i ==> callbacks[k].cb.None?
      {
        i := i + 1;
      }
      b := i == |callbacks|;
    }

    method NextValid(it: Cursor) returns (i: nat)
      ensures i == FirstLive(callbacks, CursorIndex(callbacks, it))
    {
      i := CursorIndex(callbacks, it);
      while i < |callbacks| && callbacks[i].cb.None?
        invariant i <= |callbacks|
        invariant FirstLive(callbacks, i) == FirstLive(callbacks, CursorIndex(callbacks, it))
      {
        i := i + 1;
      }
    }

    /** Where the topmost activation, whose iterator is `it`, goes on. */
    method FindNext(it: Cursor) returns (i: nat)
      requires frames != [] && Top(Model()).cursor == it
      ensures i == Target(Model())
    {
      i := NextValid(it);
    }

    /** `EraseIf(callbacks_, is_null)`, with the number of nodes erased. */
    method EraseNulls() returns (erased: nat)
      modifies this`callbacks
      ensures callbacks == Pruned(old(callbacks)) && erased == NullCount(old(callbacks))
    {
      var kept: seq<Node>, i := [], 0;
      erased := 0;
      while i < |callbacks|
        invariant 0 <= i <= |callbacks|
        invariant kept + Pruned(callbacks[i..]) == Pruned(callbacks)
        invariant erased + NullCount(callbacks[i..]) == NullCount(callbacks)
      {
        assert callbacks[i..][1..] == callbacks[i + 1..];
        if callbacks[i].cb.Some? {
          kept := kept + [callbacks[i]];
        } else {
          erased := erased + 1;
        }
        i := i + 1;
      }
      callbacks := kept;
    }

    /** `Notify()`, run to completion. */
    method Notify(script: seq<Behaviour>) returns (ghost states: seq<State>, ghost ops: seq<Op>)
      requires Valid() && Enabled(Model(), Enter) && (once ==> Flat(script))
      modifies this
      ensures Valid() && frames == old(frames)
      ensures Path(states, ops, old(Model()), Model(), |old(frames)|)
      ensures !IsEmpty(old(callbacks)) ==> 0 < |ops| && Activation(states, ops, 0, |ops| - 1)
      ensures Notified(states, ops, script)
      decreases script, 4
    {
      var none := Empty();
      if none {
        StepPath(Model(), Enter, Model(), |frames|);
        states, ops := [Model(), Model()], [Enter];
      } else {
        states, ops := NotifyAll(script);
      }
    }

    /** The body of `Notify()` for a list that is not empty. */
    method NotifyAll(script: seq<Behaviour>) returns (ghost states: seq<State>, ghost ops: seq<Op>)
      requires Valid() && Enabled(Model(), Enter) && !IsEmpty(callbacks) && (once ==> Flat(script))
      modifies this
      ensures Valid() && frames == old(frames)
      ensures Path(states, ops, old(Model()), Model(), |old(frames)|)
      ensures 0 < |ops| && Activation(states, ops, 0, |ops| - 1) && Notified(states, ops, script)
      decreases script, 3
    {
      ghost var before := Model();
      var it, saved := EnterLoop();
      ghost var entered := Model();
      ghost var ss, oo := Loop(it, script);
      ghost var last := Model();
      LeaveLoop(saved);
      CloseActivation(ss, oo, before, entered, last, Model());
      NotifiedWhole(before, ss, oo, Model(), script);
      states, ops := [before] + ss + [Model()], [Enter] + oo + [Leave];
    }

    /** AutoReset sets the flag, keeping its old value, and the loop's iterator is at the front. */
    method EnterLoop() returns (it: Cursor, saved: bool)
      requires Valid() && Enabled(Model(), Enter) && !IsEmpty(callbacks)
      modifies this`iterating, this`frames
      ensures Valid() && Model() == Step(old(Model()), Enter) && saved == old(iterating)
      ensures |frames| == |old(frames)| + 1 && frames[..|old(frames)|] == old(frames)
      ensures Top(Model()).cursor == it && Top(Model()).saved == saved
    {
      ghost var was := Model();
      saved := iterating;
      iterating := true;
      it := CursorAt(callbacks, 0);
      frames := frames + [Frame(it, saved, [])];
      assert Model() == Step(was, Enter);
      InvStep(was, Enter);
    }

    /** The loop of `Notify()`, whose iterator starts at `begin`. */
    method Loop(begin: Cursor, script: seq<Behaviour>) returns (ghost states: seq<State>, ghost ops: seq<Op>)
      requires Valid() && frames != [] && begin == Top(Model()).cursor && (once ==> Flat(script))
      modifies this
      ensures Valid() && Enabled(Model(), Leave) && SameBelow(old(frames), frames)
      ensures Path(states, ops, old(Model()), Model(), |old(frames)|) && Looped(states, ops, script)
      decreases script, 2
    {
      ghost var entered, k: nat := Model(), 0;
      PathStart(entered, |frames|);
      states, ops := [entered], [];
      var turn: nat := 0;
      var i: nat := FindNext(begin);
      while i < |callbacks|
        invariant Going(i, script, turn, entered, states, ops, k)
        decreases |script| - turn, |callbacks| - i
      {
        turn, i, states, ops := TurnThenNext(i, script, turn, entered, states, ops, k);
        k := k + 1;
      }
    }

    /** The loop entered in state `entered` has made `k` turns and found node `i` next. */
    ghost predicate Going(
        i: nat, script: seq<Behaviour>, turn: nat, entered: State, states: seq<State>, ops: seq<Op>, k: nat)
      reads this
    {
      && Valid() && SameBelow(entered.frames, frames) && turn == Least(k, |script|) && i == Target(Model())
      && Progress(states, ops, entered, Model(), |entered.frames|, script, k)
    }

    method TurnThenNext(
        i: nat, script: seq<Behaviour>, turn: nat, ghost entered: State, ghost states: seq<State>,
        ghost ops: seq<Op>, ghost k: nat)
      returns (next: nat, j: nat, ghost ss: seq<State>, ghost oo: seq<Op>)
      requires Going(i, script, turn, entered, states, ops, k) && i < |callbacks| && (once ==> Flat(script))
      modifies this
      ensures Going(j, script, next, entered, ss, oo, k + 1)
      ensures turn < next || (turn == next && |callbacks| - j < old(|callbacks|) - i)
      decreases script, 1
    {
      ghost var was := Model();
      var it;
      it, next, ss, oo := TakeTurn(i, script, turn, k);
      ss, oo := ProgressMore(states, ops, ss, oo, entered, was, Model(), |entered.frames|, script, k);
      j := FindNext(it);
    }

    /** Turn `k`. The callbacks of turns after the end of the script make no calls. */
    method TakeTurn(i: nat, script: seq<Behaviour>, turn: nat, ghost k: nat)
      returns (it: Cursor, next: nat, ghost states: seq<State>, ghost ops: seq<Op>)
      requires Valid() && frames != [] && i == Target(Model()) < |callbacks| && (once ==> Flat(script))
      requires turn == Least(k, |script|)
      modifies this
      ensures Valid() && SameBelow(old(frames), frames) && it == Top(Model()).cursor
      ensures Path(states, ops, old(Model()), Model(), |old(frames)|) && InTurn(states, ops, script, k)
      ensures next == Least(k + 1, |script|)
      ensures turn < next || (turn == next && |callbacks| - Target(Model()) < old(|callbacks|) - i)
      decreases script, 0
    {
      if turn < |script| {
        assert script[turn] in script;
        it, states, ops := Turn(i, script[turn].actions);
        next := turn + 1;
      } else {
        it, states, ops := QuietTurn(i);
        next := turn;
      }
    }

    /** One turn: the callback at `i` is run, and makes the calls given. */
    method Turn(i: nat, actions: seq<Action>) returns (it: Cursor, ghost states: seq<State>, ghost ops: seq<Op>)
      requires Valid() && frames != [] && i == Target(Model()) < |callbacks| && (once ==> NotifyFree(actions))
      modifies this
      ensures Valid() && SameBelow(old(frames), frames) && it == Top(Model()).cursor
      ensures Path(states, ops, old(Model()), Model(), |old(frames)|)
      ensures |ops| > 0 && ops[0] == Run && Calls(states[1..], ops[1..], actions)
      decreases actions, 1
    {
      ghost var was := Model();
      it := RunCallback(i);
      ghost var mid := Model();
      ghost var ss, oo := Perform(actions);
      states, ops := RunThenCalls(was, mid, ss, oo, Model(), actions);
    }

    /** A turn whose callback makes no calls. */
    method QuietTurn(i: nat) returns (it: Cursor, ghost states: seq<State>, ghost ops: seq<Op>)
      requires Valid() && frames != [] && i == Target(Model()) < |callbacks|
      modifies this
      ensures Valid() && SameBelow(old(frames), frames) && it == Top(Model()).cursor
      ensures Path(states, ops, old(Model()), Model(), |old(frames)|) && ops == [Run]
      ensures |callbacks| - Target(Model()) < old(|callbacks|) - i
    {
      ghost var was := Model();
      it := RunCallback(i);
      StepPath(was, Run, Model(), |was.frames|);
      states, ops := [was, Model()], [Run];
    }

    /** One turn of the loop: the iterator moves on first, then a once-list splices the node away. */
    method RunCallback(i: nat) returns (it: Cursor)
      requires Valid() && frames != [] && i == Target(Model()) < |callbacks|
      modifies this`callbacks, this`nulls, this`frames
      ensures Valid() && Model() == Step(old(Model()), Run) && it == Top(Model()).cursor
      ensures SameBelow(old(frames), frames) && Outside(Model())
      ensures |callbacks| - Target(Model()) < old(|callbacks|) - i
    {
      ghost var was := Model();
      var n := callbacks[i];
      it := CursorAt(callbacks, i + 1);
      if once {
        nulls := nulls + [Node(n.id, None)];
        callbacks := callbacks[..i] + callbacks[i + 1..];
      }
      frames := frames[|frames| - 1 := Frame(it, Top(was).saved, Top(was).ran + [n.id])];
      assert Model() == Step(was, Run);
      InvStep(was, Run);
      CursorMovesOn(was, i);
    }

    /** What follows the loop: AutoReset restores the flag, and the outermost activation prunes. */
    method LeaveLoop(saved: bool)
      requires Valid() && Enabled(Model(), Leave) && saved == Top(Model()).saved
      modifies this
      ensures Valid() && Model() == Step(old(Model()), Leave) && frames == old(frames)[..|old(frames)| - 1]
    {
      ghost var was := Model();
      iterating := saved;
      frames := frames[..|frames| - 1];
      if !iterating {
        var erased := EraseNulls();
        if removal && (erased > 0 || once) {
          removals := removals + 1;
        }
      }
      assert Model() == Step(was, Leave);
      InvStep(was, Leave);
    }

    /** The calls of one run of a callback. Destroying a subscription that no longer exists, or adding
        one under a name in use, is nothing a program can do and is skipped. */
    method Perform(actions: seq<Action>) returns (ghost states: seq<State>, ghost ops: seq<Op>)
      requires Valid() && Outside(Model()) && (once ==> NotifyFree(actions))
      modifies this
      ensures Valid() && frames == old(frames)
      ensures Path(states, ops, old(Model()), Model(), |old(frames)|) && Calls(states, ops, actions)
      decreases actions, 0
    {
      PathStart(Model(), |frames|);
      states, ops := [Model()], [];
      for a := 0 to |actions|
        invariant Valid() && frames == old(frames)
        invariant Performed(states, ops, old(Model()), Model(), |old(frames)|, actions[..a])
      {
        ghost var was := Model();
        assert actions[a] in actions;
        ghost var ss, oo := Act(actions[a]);
        states, ops := PerformedMore(
          states, ops, ss, oo, old(Model()), was, Model(), |old(frames)|, actions[..a], actions[a]);
        assert actions[..a] + [actions[a]] == actions[..a + 1];
      }
      assert actions[..|actions|] == actions;
    }

    method Act(action: Action) returns (ghost states: seq<State>, ghost ops: seq<Op>)
      requires Valid() && Outside(Model()) && (once ==> !action.DoNotify?)
      modifies this
      ensures Valid() && frames == old(frames)
      ensures Path(states, ops, old(Model()), Model(), |old(frames)|) && Gives(states, ops, action)
      decreases action
    {
      ghost var was := Model();
      PathStart(was, |frames|);
      states, ops := [was], [];
      match action
      case DoAdd(sub, cb) =>
        if sub !in subs {
          Add(sub, cb);
          StepPath(was, Op.Add(sub, cb), Model(), |was.frames|);
          states, ops := [was, Model()], [Op.Add(sub, cb)];
        }
      case DoAddUnsafe(cb) =>
        AddUnsafe(cb);
        StepPath(was, Op.AddUnsafe(cb), Model(), |was.frames|);
        states, ops := [was, Model()], [Op.AddUnsafe(cb)];
      case DoCancel(sub) =>
        if sub in subs {
          Cancel(sub);
          StepPath(was, Op.Cancel(sub), Model(), |was.frames|);
          states, ops := [was, Model()], [Op.Cancel(sub)];
        }
      case DoNotify(inner) =>
        states, ops := Notify(inner);
    }
  }
}
