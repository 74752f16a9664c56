/** The client's loop, `for (auto& o : list) ...`, over the two classes. What the body does is given by a
    script: a finite tree with, for each turn, the calls made, nested loops over the same list included.
    Every such loop is proved to be a loop of ObserverListRuns, so that everything proved of those holds
    of it. */
module ObserverListLoops {
  import opened Options
  import opened ObserverListModel
  import opened ObserverListRuns
  import opened ObserverListClasses

  datatype Action = DoAdd(o: Observer) | DoRemove(o: Observer) | DoClear | DoLoop(script: seq<Turn>)

  /** The calls made in one turn. */
  datatype Turn = Turn(actions: seq<Action>)

  /** A list with live iterators at the given positions, numbered in this order. */
  function Numbered(list: ListState, cs: seq<Cursor>): System {
    System(list, true, map i: nat | i < |cs| :: cs[i])
  }

  lemma {:induction false} BeginNumbered(list: ListState, cs: seq<Cursor>)
    requires list.slots != []
    ensures Step(Numbered(list, cs), Begin(|cs|)) == Numbered(Attach(list), cs + [First(list)])
  {
    var s, t := Numbered(list, cs), Numbered(Attach(list), cs + [First(list)]);
    assert s.iters[|cs| := First(list)] == t.iters;
  }

  lemma {:induction false} NextNumbered(list: ListState, cs: seq<Cursor>, id: IterId)
    requires id < |cs| && Enabled(Numbered(list, cs), Next(id))
    ensures Step(Numbered(list, cs), Next(id)) == Numbered(list, cs[id := Advance(list.slots, cs[id])])
  {
    var s, t := Numbered(list, cs), Numbered(list, cs[id := Advance(list.slots, cs[id])]);
    assert s.iters[id := Advance(list.slots, cs[id])] == t.iters;
  }

  lemma {:induction false} DropNumbered(list: ListState, cs: seq<Cursor>, c: Cursor)
    requires c.attached
    ensures Step(Numbered(list, cs + [c]), Drop(|cs|)) == Numbered(Detach(list), cs)
  {
    var s, t := Numbered(list, cs + [c]), Numbered(Detach(list), cs);
    assert s.iters - {|cs|} == t.iters;
  }

  ghost function Cursors(its: seq<Iter>): (r: seq<Cursor>)
    reads its
    ensures |r| == |its| && forall i :: 0 <= i < |its| ==> r[i] == its[i].Position()
  {
    seq(|its|, i requires 0 <= i < |its| reads its => its[i].Position())
  }

  /** The list is in state `s`, its live iterators being numbered. */
  ghost predicate In(l: ObserverList, s: System)
    reads l, l.live
  {
    l.Valid() && s == Numbered(l.Model(), Cursors(l.live))
  }

  /** An operation that leaves the iterators below `n`, and the list's existence, alone. */
  predicate Above(op: Op, n: nat) {
    match op
    case Begin(id) => id >= n
    case Next(id) => id >= n
    case Drop(id) => id >= n
    case Copy(_, _) => false
    case Assign(_, _) => false
    case Destroy => false
    case _ => true
  }

  /** A run from one state to another that leaves the iterators below `n` alone. */
  ghost predicate Body(states: seq<System>, ops: seq<Op>, from: System, to: System, n: nat) {
    && IsRun(states, ops) && states[0] == from && states[|ops|] == to
    && forall k :: 0 <= k < |ops| ==> Above(ops[k], n)
  }

  lemma {:induction false} EmptyBody(s: System, n: nat)
    requires Inv(s)
    ensures Body([s], [], s, s, n)
  {
  }

  lemma {:induction false} StepBody(s: System, op: Op, n: nat)
    requires Inv(s) && Enabled(s, op) && Above(op, n)
    ensures Body([s, Step(s, op)], [op], s, Step(s, op), n)
  {
  }

  lemma {:induction false} RunJoin(a: seq<System>, x: seq<Op>, b: seq<System>, y: seq<Op>)
    requires IsRun(a, x) && IsRun(b, y) && a[|x|] == b[0]
    ensures IsRun(a + b[1..], x + y)
  {
    var ss, oo := a + b[1..], x + y;
    forall k | 0 <= k < |oo| ensures Enabled(ss[k], oo[k]) && ss[k + 1] == Step(ss[k], oo[k]) {
      if k < |x| {
        assert ss[k] == a[k] && ss[k + 1] == a[k + 1] && oo[k] == x[k];
      } else {
        assert ss[k] == b[k - |x|] && ss[k + 1] == b[k - |x| + 1] && oo[k] == y[k - |x|];
      }
    }
  }

  lemma {:induction false} BodyJoin(
      a: seq<System>, x: seq<Op>, b: seq<System>, y: seq<Op>, from: System, mid: System, to: System, n: nat)
    requires Body(a, x, from, mid, n) && Body(b, y, mid, to, n)
    ensures Body(a + b[1..], x + y, from, to, n)
  {
    RunJoin(a, x, b, y);
    assert (a + b[1..])[|x + y|] == b[|y|];
  }

  // ---------- Loops ----------

  /** A loop that has been positioned, at its end or not. */
  ghost predicate Positioned(states: seq<System>, ops: seq<Op>, id: IterId, from: System, at: System) {
    && LoopRun(states, ops, id) && states[0] == from && states[|ops|] == at && Positions(ops[|ops| - 1], id)
    && id in at.iters && (forall k :: 0 < k < |ops| ==> Above(ops[k], id))
  }

  lemma {:induction false} LoopBegins(s: System, id: IterId)
    requires Inv(s) && s.alive && Enabled(s, Begin(id))
    ensures Positioned([s, Step(s, Begin(id))], [Begin(id)], id, s, Step(s, Begin(id)))
  {
  }

  lemma {:induction false} PositionedInv(states: seq<System>, ops: seq<Op>, id: IterId, from: System, at: System)
    requires Positioned(states, ops, id, from, at)
    ensures Inv(at)
  {
    RunInv(states, ops, |ops|);
  }

  /** A loop not at its end stays so while its body runs. */
  lemma {:induction false} BodyRuns(
      states: seq<System>, ops: seq<Op>, id: IterId, from: System, at: System,
      b: seq<System>, y: seq<Op>, to: System)
    requires Positioned(states, ops, id, from, at) && !Ended(at, id) && Body(b, y, at, to, id + 1)
    ensures LoopRun(states + b[1..], ops + y, id) && (states + b[1..])[|ops + y|] == to && Inv(to) && to.alive
    ensures id in to.iters && to.iters[id].attached && Enabled(to, Next(id)) && !Ended(to, id)
  {
    var ss, oo := states + b[1..], ops + y;
    RunJoin(states, ops, b, y);
    BodyKeepsLoop(states, ops, id, b, y);
    assert ss[|oo|] == b[|y|];
    LoopInvHolds(ss, oo, id, |oo|);
    if y == [] {
      assert b[1..] == [] && to == at;
    }
  }

  lemma {:induction false} BodyKeepsLoop(states: seq<System>, ops: seq<Op>, id: IterId, b: seq<System>, y: seq<Op>)
    requires LoopRun(states, ops, id) && id in states[|ops|].iters && !Ended(states[|ops|], id)
    requires |b| == |y| + 1 && IsRun(states + b[1..], ops + y)
    requires forall k :: 0 <= k < |y| ==> Above(y[k], id + 1)
    ensures LoopRun(states + b[1..], ops + y, id)
  {
    var ss, oo := states + b[1..], ops + y;
    forall k | |ops| <= k < |oo| ensures !Retargets(oo[k], id) && oo[k] != Destroy && !Positions(oo[k], id) {
      assert oo[k] == y[k - |ops|];
    }
    forall k | 0 <= k < |ops| ensures oo[k] == ops[k] && ss[k + 1] == states[k + 1] {
    }
  }

  /** Then the iterator moves on. */
  lemma {:induction false} LoopTurns(
      states: seq<System>, ops: seq<Op>, id: IterId, from: System, at: System,
      b: seq<System>, y: seq<Op>, to: System)
    requires Positioned(states, ops, id, from, at) && !Ended(at, id) && Body(b, y, at, to, id + 1)
    requires id in to.iters && Enabled(to, Next(id))
    ensures Positioned(states + b[1..] + [Step(to, Next(id))], ops + y + [Next(id)], id, from, Step(to, Next(id)))
  {
    BodyRuns(states, ops, id, from, at, b, y, to);
    var ss, oo := states + b[1..], ops + y;
    NextAppended(ss, oo, id);
    forall k | 0 < k < |oo| ensures Above(oo[k], id) {
      if k >= |ops| {
        assert oo[k] == y[k - |ops|];
      }
    }
  }

  lemma {:induction false} NextAppended(states: seq<System>, ops: seq<Op>, id: IterId)
    requires LoopRun(states, ops, id) && id in states[|ops|].iters && !Ended(states[|ops|], id)
    requires Enabled(states[|ops|], Next(id))
    ensures LoopRun(states + [Step(states[|ops|], Next(id))], ops + [Next(id)], id)
  {
    var ss, oo := states + [Step(states[|ops|], Next(id))], ops + [Next(id)];
    forall k | 0 <= k < |oo| ensures Enabled(ss[k], oo[k]) && ss[k + 1] == Step(ss[k], oo[k]) {
      assert ss[k] == states[k];
    }
    forall k | 0 <= k < |oo| - 1 && Positions(oo[k], id) ensures id in ss[k + 1].iters && !Ended(ss[k + 1], id) {
      assert oo[k] == ops[k] && ss[k + 1] == states[k + 1];
    }
  }

  /** A loop that has ended, together with the destruction of its iterator, is part of a body. */
  lemma {:induction false} LoopCloses(states: seq<System>, ops: seq<Op>, id: IterId, from: System, at: System)
    requires Positioned(states, ops, id, from, at)
    ensures Body(states + [Step(at, Drop(id))], ops + [Drop(id)], from, Step(at, Drop(id)), id)
  {
    var ss, oo := states + [Step(at, Drop(id))], ops + [Drop(id)];
    forall k | 0 <= k < |oo| ensures Enabled(ss[k], oo[k]) && ss[k + 1] == Step(ss[k], oo[k]) {
      assert ss[k] == states[k];
    }
  }

  // ---------- What a script's calls are ----------

  function Called(action: Action): Op
    requires !action.DoLoop?
  {
    match action
    case DoAdd(o) => Add(o)
    case DoRemove(o) => Remove(o)
    case DoClear => Clear
  }

  /** The operations are those of the calls, in order and nothing besides, made while `n` iterators live. */
  ghost predicate Calls(ops: seq<Op>, actions: seq<Action>, n: nat)
    decreases actions
  {
    if actions == [] then ops == []
    else
      var rest, last := actions[..|actions| - 1], actions[|actions| - 1];
      exists m :: 0 <= m <= |ops| && Calls(ops[..m], rest, n) && Gives(ops[m..], last, n)
  }

  /** One call is one operation; a loop is the construction of its iterator, its turns, and the
      destruction of the iterator. */
  ghost predicate Gives(ops: seq<Op>, action: Action, n: nat)
    decreases action
  {
    if action.DoLoop? then
      |ops| > 0 && ops[|ops| - 1] == Drop(n) && Looped(ops[..|ops| - 1], action.script, n)
    else ops == [Called(action)]
  }

  ghost predicate Looped(ops: seq<Op>, script: seq<Turn>, n: nat)
    decreases script, 1
  {
    exists k: nat :: Turned(ops, script, k, n)
  }

  /** A loop after `k` turns. */
  ghost predicate Turned(ops: seq<Op>, script: seq<Turn>, k: nat, n: nat)
    decreases script, 0, k + 1
  {
    if k == 0 then ops == [Begin(n)]
    else
      && |ops| > 0 && ops[|ops| - 1] == Next(n)
      && exists m :: 0 <= m < |ops| && Turned(ops[..m], script, k - 1, n) && InTurn(ops[m..|ops| - 1], script, k - 1, n)
  }

  /** Turn `k` makes the calls the script has for it, with one more iterator alive. */
  ghost predicate InTurn(ops: seq<Op>, script: seq<Turn>, k: nat, n: nat)
    decreases script, 0, 0
  {
    if k < |script| then assert script[k] in script; Calls(ops, script[k].actions, n + 1) else ops == []
  }

  lemma {:induction false} CallsGrow(x: seq<Op>, actions: seq<Action>, y: seq<Op>, action: Action, n: nat)
    requires Calls(x, actions, n) && Gives(y, action, n)
    ensures Calls(x + y, actions + [action], n)
  {
    var all := actions + [action];
    assert all[..|all| - 1] == actions;
    assert (x + y)[..|x|] == x && (x + y)[|x|..] == y;
  }

  /** A body made of the calls. */
  ghost predicate Performed(
      states: seq<System>, ops: seq<Op>, from: System, to: System, n: nat, actions: seq<Action>)
  {
    Body(states, ops, from, to, n) && Calls(ops, actions, n)
  }

  lemma {:induction false} PerformedMore(
      a: seq<System>, x: seq<Op>, b: seq<System>, y: seq<Op>, from: System, mid: System, to: System, n: nat,
      actions: seq<Action>, action: Action)
    returns (states: seq<System>, ops: seq<Op>)
    requires Performed(a, x, from, mid, n, actions) && Body(b, y, mid, to, n) && Gives(y, action, n)
    ensures Inv(to) && Performed(states, ops, from, to, n, actions + [action])
  {
    RunInv(b, y, |y|);
    BodyJoin(a, x, b, y, from, mid, to, n);
    CallsGrow(x, actions, y, action, n);
    states, ops := a + b[1..], x + y;
  }

  lemma {:induction false} TurnsGrow(x: seq<Op>, script: seq<Turn>, k: nat, y: seq<Op>, n: nat)
    requires Turned(x, script, k, n) && InTurn(y, script, k, n)
    ensures Turned(x + y + [Next(n)], script, k + 1, n)
  {
    var ops := x + y + [Next(n)];
    assert ops[..|x|] == x && ops[|x|..|ops| - 1] == y;
  }

  // ---------- The client ----------

  lemma {:induction false} BodyMovesOn(
      states: seq<System>, ops: seq<Op>, id: IterId, from: System, at: System,
      b: seq<System>, y: seq<Op>, to: System)
    returns (ss: seq<System>, oo: seq<Op>, u: System)
    requires Positioned(states, ops, id, from, at) && !Ended(at, id) && Body(b, y, at, to, id + 1)
    ensures id in to.iters && Enabled(to, Next(id)) && u == Step(to, Next(id)) && u.list == to.list
    ensures Positioned(ss, oo, id, from, u) && oo == ops + y + [Next(id)]
    ensures to.iters[id].index < u.iters[id].index <= |to.list.slots|
  {
    BodyRuns(states, ops, id, from, at, b, y, to);
    u := Step(to, Next(id));
    ss, oo := states + b[1..] + [u], ops + y + [Next(id)];
    LoopTurns(states, ops, id, from, at, b, y, to);
    assert CursorOk(to.list, to.iters[id]);
    AdvanceStaysInRange(to.list.slots, to.iters[id]);
  }

  lemma {:induction false} LastLeaves<T>(s: seq<T>, x: T, r: seq<T>)
    requires Distinct(s + [x]) && DeletesOne(s + [x], x, r)
    ensures r == s
  {
    var t := s + [x];
    var i :| 0 <= i < |t| && t[i] == x && r == t[..i] + t[i + 1..];
    assert t[|s|] == x;
  }

  /** The iterator is the last one that became live on the list, and its number is `id`. */
  ghost predicate Standing(l: ObserverList, s: System, it: Iter, id: IterId)
    reads l, l.live, it
  {
    In(l, s) && it.list == l && |l.live| == id + 1 && l.live[id] == it
  }

  /** `begin()`; its iterator is on no list if the vector is empty. */
  method Enter(l: ObserverList, ghost s: System) returns (it: Iter)
    requires In(l, s)
    modifies l`live
    ensures fresh(it)
    ensures it.list == null ==> l.live == old(l.live) && In(l, s) && l.slots == []
    ensures it.list != null ==>
              && l.live == old(l.live) + [it] && Standing(l, Step(s, Begin(|old(l.live)|)), it, |old(l.live)|)
              && it.index <= |l.slots|
  {
    ghost var list, cs := l.Model(), Cursors(l.live);
    if l.slots != [] {
      BeginNumbered(list, cs);
    }
    it := l.Begin();
    if it.list != null {
      assert Cursors(l.live) == cs + [First(list)];
    }
  }

  /** The iterator is destroyed. */
  method Exit(l: ObserverList, ghost s: System, it: Iter, ghost id: IterId)
    requires Standing(l, s, it, id)
    modifies l, it`list
    ensures l.live == old(l.live)[..id] && In(l, Step(s, Drop(id)))
  {
    ghost var list, below := l.Model(), l.live[..id];
    ghost var cs := Cursors(below);
    assert l.live == below + [it];
    assert Cursors(l.live) == cs + [it.Position()];
    DropNumbered(list, cs, it.Position());
    it.Drop();
    LastLeaves(below, it, l.live);
    assert Cursors(l.live) == cs;
  }

  /** `++it`. */
  method MoveOn(l: ObserverList, ghost s: System, it: Iter, ghost id: IterId)
    requires Standing(l, s, it, id) && Enabled(s, Next(id))
    modifies it`index
    ensures Standing(l, Step(s, Next(id)), it, id)
  {
    ghost var list, cs := l.Model(), Cursors(l.live);
    NextNumbered(list, cs, id);
    assert forall i :: 0 <= i < id ==> l.live[i] != it;
    it.Next();
    assert Cursors(l.live) == cs[id := it.Position()];
  }

  method MoveAndTest(l: ObserverList, ghost s: System, it: Iter, ghost id: IterId) returns (done: bool)
    requires Standing(l, s, it, id) && Enabled(s, Next(id))
    modifies it`index
    ensures Standing(l, Step(s, Next(id)), it, id) && (done <==> Ended(Step(s, Next(id)), id))
    ensures it.index == Step(s, Next(id)).iters[id].index
  {
    MoveOn(l, s, it, id);
    done := it.IsEnd();
  }

  function Least(k: nat, n: nat): nat {
    if k < n then k else n
  }

  /** The body of turn `k`. Turns after the end of the script do nothing. */
  method TakeTurn(l: ObserverList, ghost s: System, script: seq<Turn>, turn: nat, ghost id: IterId, ghost k: nat)
    returns (next: nat, ghost states: seq<System>, ghost ops: seq<Op>, ghost t: System)
    requires In(l, s) && Inv(s) && |l.live| == id + 1 && turn == Least(k, |script|)
    modifies l
    ensures l.live == old(l.live) && In(l, t) && Body(states, ops, s, t, id + 1)
    ensures InTurn(ops, script, k, id) && next == Least(k + 1, |script|)
    ensures turn == |script| ==> t == s
    decreases script, 0
  {
    next := turn;
    if turn < |script| {
      assert script[turn] in script;
      states, ops, t := Perform(l, s, script[turn].actions);
      next := turn + 1;
    } else {
      states, ops, t := [s], [], s;
      EmptyBody(s, id + 1);
    }
  }

  /** The loop so far: its history, its last state and the number of its turns. */
  datatype Progress = Progress(states: seq<System>, ops: seq<Op>, at: System, turns: nat)

  /** The loop has made some turns, the script's calls with them, and its iterator stands at the end or not. */
  ghost predicate Going(
      l: ObserverList, it: Iter, script: seq<Turn>, turn: nat, done: bool, id: IterId, from: System, p: Progress)
    reads l, l.live, it
  {
    && Positioned(p.states, p.ops, id, from, p.at) && Standing(l, p.at, it, id) && (done <==> Ended(p.at, id))
    && it.index <= |l.slots| && Turned(p.ops, script, p.turns, id) && turn == Least(p.turns, |script|)
  }

  method RunBody(
      l: ObserverList, it: Iter, script: seq<Turn>, turn: nat, ghost id: IterId, ghost from: System, ghost p: Progress)
    returns (next: nat, ghost b: seq<System>, ghost y: seq<Op>, ghost t: System)
    requires Going(l, it, script, turn, false, id, from, p)
    modifies l
    ensures l.live == old(l.live) && Standing(l, t, it, id) && Body(b, y, p.at, t, id + 1)
    ensures Turned(p.ops + y + [Next(id)], script, p.turns + 1, id) && next == Least(p.turns + 1, |script|)
    ensures turn < next || (turn == next && |l.slots| == old(|l.slots|))
    decreases script, 1
  {
    PositionedInv(p.states, p.ops, id, from, p.at);
    next, b, y, t := TakeTurn(l, p.at, script, turn, id, p.turns);
    TurnsGrow(p.ops, script, p.turns, y, id);
  }

  /** What ends a turn: the body has run, leading to state `t`, and the iterator moves on. */
  method EndTurn(
      l: ObserverList, it: Iter, ghost script: seq<Turn>, ghost turn: nat, ghost id: IterId, ghost from: System,
      ghost p: Progress, ghost b: seq<System>, ghost y: seq<Op>, ghost t: System)
    returns (done: bool, ghost q: Progress)
    requires Positioned(p.states, p.ops, id, from, p.at) && !Ended(p.at, id) && Body(b, y, p.at, t, id + 1)
    requires Turned(p.ops + y + [Next(id)], script, p.turns + 1, id) && turn == Least(p.turns + 1, |script|)
    requires Standing(l, t, it, id)
    modifies it`index
    ensures Going(l, it, script, turn, done, id, from, q) && old(it.index) < it.index
  {
    ghost var ss, oo, u := BodyMovesOn(p.states, p.ops, id, from, p.at, b, y, t);
    done := MoveAndTest(l, t, it, id);
    q := Progress(ss, oo, u, p.turns + 1);
  }

  /** A turn: the body, `++it`, and the test for the end. */
  method WholeTurn(
      l: ObserverList, it: Iter, script: seq<Turn>, turn: nat, ghost id: IterId, ghost from: System, ghost p: Progress)
    returns (next: nat, done: bool, ghost q: Progress)
    requires Going(l, it, script, turn, false, id, from, p)
    modifies l, it`index
    ensures l.live == old(l.live) && Going(l, it, script, next, done, id, from, q)
    ensures turn < next || (turn == next && |l.slots| == old(|l.slots|) && old(it.index) < it.index)
    decreases script, 2
  {
    ghost var b, y, t;
    next, b, y, t := RunBody(l, it, script, turn, id, from, p);
    done, q := EndTurn(l, it, script, next, id, from, p, b, y, t);
  }

  /** The loop from its first positioning on. */
  method Loop(l: ObserverList, it: Iter, script: seq<Turn>, ghost id: IterId, ghost from: System, ghost first: System)
    returns (ghost states: seq<System>, ghost ops: seq<Op>, ghost s: System)
    requires Positioned([from, first], [Begin(id)], id, from, first) && Standing(l, first, it, id)
    requires it.index <= |l.slots|
    modifies l, it`index
    ensures l.live == old(l.live)
    ensures Positioned(states, ops, id, from, s) && Ended(s, id) && Standing(l, s, it, id)
    ensures Looped(ops, script, id)
    decreases script, 3
  {
    ghost var p := Progress([from, first], [Begin(id)], first, 0);
    var turn := 0;
    var done := it.IsEnd();
    while !done
      invariant l.live == old(l.live) && Going(l, it, script, turn, done, id, from, p)
      decreases |script| - turn, |l.slots| - it.index
    {
      turn, done, p := WholeTurn(l, it, script, turn, id, from, p);
    }
    states, ops, s := p.states, p.ops, p.at;
  }

  /** `for (auto& o : l) body`, with the body given by the script. */
  method ForEach(l: ObserverList, ghost s: System, script: seq<Turn>)
    returns (ghost states: seq<System>, ghost ops: seq<Op>, ghost t: System)
    requires In(l, s) && Inv(s)
    modifies l
    ensures l.live == old(l.live) && In(l, t)
    ensures LoopRun(states, ops, |l.live|) && Complete(states, ops, |l.live|) && states[0] == s
    ensures Body(states + [t], ops + [Drop(|l.live|)], s, t, |l.live|)
    ensures Looped(ops, script, |l.live|)
    decreases script, 4
  {
    ghost var id := |l.live|;
    LoopBegins(s, id);
    var it := Enter(l, s);
    if it.list != null {
      ghost var end;
      states, ops, end := Loop(l, it, script, id, s, Step(s, Begin(id)));
      Exit(l, end, it, id);
    } else {
      states, ops := [s, Step(s, Begin(id))], [Begin(id)];
      assert Turned(ops, script, 0, id);
      assert s.iters[id := DETACHED] - {id} == s.iters;
    }
    t := Step(states[|ops|], Drop(id));
    LoopCloses(states, ops, id, s, states[|ops|]);
  }

  /** The calls of one turn. */
  method Perform(l: ObserverList, ghost s: System, actions: seq<Action>)
    returns (ghost states: seq<System>, ghost ops: seq<Op>, ghost t: System)
    requires In(l, s) && Inv(s)
    modifies l
    ensures l.live == old(l.live) && In(l, t) && Body(states, ops, s, t, |l.live|)
    ensures Calls(ops, actions, |l.live|)
    decreases actions, 0
  {
    EmptyBody(s, |l.live|);
    states, ops, t := [s], [], s;
    for a := 0 to |actions|
      invariant l.live == old(l.live) && Performing(l, states, ops, s, t, actions[..a])
    {
      assert actions[a] in actions && actions[..a] + [actions[a]] == actions[..a + 1];
      states, ops, t := ActNext(l, states, ops, s, t, actions[..a], actions[a]);
    }
    assert actions[..|actions|] == actions;
  }

  /** The list is in state `t`, reached from `s` by the calls. */
  ghost predicate Performing(
      l: ObserverList, states: seq<System>, ops: seq<Op>, s: System, t: System, actions: seq<Action>)
    reads l, l.live
  {
    In(l, t) && Inv(t) && Performed(states, ops, s, t, |l.live|, actions)
  }

  method ActNext(
      l: ObserverList, ghost states: seq<System>, ghost ops: seq<Op>, ghost s: System, ghost mid: System,
      ghost actions: seq<Action>, action: Action)
    returns (ghost ss: seq<System>, ghost oo: seq<Op>, ghost t: System)
    requires Performing(l, states, ops, s, mid, actions)
    modifies l
    ensures l.live == old(l.live) && Performing(l, ss, oo, s, t, actions + [action])
    decreases action, 1
  {
    ss, oo, t := Act(l, mid, action);
    ss, oo := PerformedMore(states, ops, ss, oo, s, mid, t, |l.live|, actions, action);
  }

  method Act(l: ObserverList, ghost s: System, action: Action)
    returns (ghost states: seq<System>, ghost ops: seq<Op>, ghost t: System)
    requires In(l, s) && Inv(s)
    modifies l
    ensures l.live == old(l.live) && In(l, t) && Body(states, ops, s, t, |l.live|)
    ensures Gives(ops, action, |l.live|)
    decreases action, 0
  {
    if action.DoLoop? {
      states, ops, t := ForEach(l, s, action.script);
      assert (ops + [Drop(|l.live|)])[..|ops|] == ops;
      states, ops := states + [t], ops + [Drop(|l.live|)];
    } else {
      ghost var op := Change(l, s, action);
      StepBody(s, op, |l.live|);
      t := Step(s, op);
      states, ops := [s, t], [op];
    }
  }

  method Change(l: ObserverList, ghost s: System, action: Action) returns (ghost op: Op)
    requires In(l, s) && !action.DoLoop?
    modifies l`slots, l`count
    ensures op == Called(action) && Enabled(s, op) && In(l, Step(s, op))
  {
    op := Called(action);
    match action
    case DoAdd(o) => Register(l, s, o);
    case DoRemove(o) => Unregister(l, s, o);
    case DoClear => UnregisterAll(l, s);
  }

  method Register(l: ObserverList, ghost s: System, o: Observer)
    requires In(l, s)
    modifies l`slots, l`count
    ensures In(l, Step(s, Add(o)))
  {
    ghost var cs := Cursors(l.live);
    AddTo(l, o);
    assert Cursors(l.live) == cs;
  }

  method AddTo(l: ObserverList, o: Observer)
    requires l.Valid()
    modifies l`slots, l`count
    ensures l.Valid() && l.Model() == Added(old(l.Model()), o)
  {
    l.AddObserver(o);
  }

  method Unregister(l: ObserverList, ghost s: System, o: Observer)
    requires In(l, s)
    modifies l`slots, l`count
    ensures In(l, Step(s, Remove(o)))
  {
    ghost var cs := Cursors(l.live);
    RemoveFrom(l, o);
    assert Cursors(l.live) == cs;
  }

  method RemoveFrom(l: ObserverList, o: Observer)
    requires l.Valid()
    modifies l`slots, l`count
    ensures l.Valid() && l.Model() == Removed(old(l.Model()), o)
  {
    l.RemoveObserver(o);
  }

  method UnregisterAll(l: ObserverList, ghost s: System)
    requires In(l, s)
    modifies l`slots, l`count
    ensures In(l, Step(s, Clear))
  {
    ghost var cs := Cursors(l.live);
    l.Clear();
    assert Cursors(l.live) == cs;
  }

  /** Calls and loops from a new list on: whatever the script, the history is one of ObserverListRuns. */
  method RunScript(policy: Policy, actions: seq<Action>)
    returns (l: ObserverList, ghost states: seq<System>, ghost ops: seq<Op>, ghost t: System)
    ensures fresh(l) && In(l, t) && Body(states, ops, ObserverListRuns.Empty(policy), t, 0)
    ensures Calls(ops, actions, 0)
  {
    l := new ObserverList(policy, false);
    ghost var s := ObserverListRuns.Empty(policy);
    assert Numbered(l.Model(), Cursors(l.live)).iters == s.iters;
    EmptyInv(policy);
    states, ops, t := Perform(l, s, actions);
  }
}
