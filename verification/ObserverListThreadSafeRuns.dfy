/** What ObserverListThreadSafe promises over every interleaving, registrations again included. */
module ObserverListThreadSafeRuns {
  import opened Options
  import opened ObserverListThreadSafe
  import ObserverListModel

  // ---------- How tasks and the log move ----------

  lemma {:induction false} LogStep(s: State, op: Op)
    requires Enabled(s, op)
    ensures if op.Begin? then
              var k := Top(s.seqs[op.q].stack).ticket;
              Step(s, op).log == s.log + [Delivery(k, s.posts[k].observer, s.posts[k].note, op.q)]
            else Step(s, op).log == s.log
  {
  }

  /** The step makes the locked check of NotifyWrapper() for task `k`. */
  ghost predicate Checks(s: State, op: Op, k: Ticket)
    requires Enabled(s, op)
  {
    op == RunTask(k) || (op.SyncNext? && Top(s.seqs[op.q].stack).tickets[0] == k)
  }

  /** The step calls the observer of task `k`. */
  ghost predicate Calls(s: State, op: Op, k: Ticket)
    requires Enabled(s, op)
  {
    op.Begin? && Top(s.seqs[op.q].stack) == Checked(k)
  }

  ghost predicate Unchecked(p: Post) {
    p.status.Queued? || p.status.Held?
  }

  /** The locked check lets a task through if its observer is registered, and drops it otherwise; the call
      starts a task that was let through; nothing else touches a task. */
  lemma {:induction false} TaskStep(s: State, op: Op, k: Ticket)
    requires Inv(s) && Enabled(s, op) && k < |s.posts|
    ensures k < |Step(s, op).posts|
    ensures var p, r := s.posts[k], Step(s, op).posts[k];
            if Checks(s, op, k) then
              && (if op.RunTask? then p.status.Queued? else p.status.Held? && op.q == p.runner)
              && r == p.(status := if p.observer in s.observers then Admitted else Dropped)
            else if Calls(s, op, k) then
              p.status.Admitted? && op.q == p.runner && r == p.(status := Delivered)
            else r == p
  {
    if op.SyncNext? {
      TakeInv(s, op.q);
    } else if op.Begin? {
      assert CheckedInv(s.posts, op.q, s.seqs[op.q].stack);
    }
  }

  /** New tasks come from a notification, for the registered observers, or from a registration. */
  lemma {:induction false} NewTask(s: State, op: Op, k: Ticket)
    requires Enabled(s, op) && |s.posts| <= k < |Step(s, op).posts|
    ensures var p := Step(s, op).posts[k];
            && (p.status.Queued? || p.status.Held?)
            && ((op.Add? && AddPosts(s, op.q, op.o) == [p] && k == |s.posts| && p.observer == op.o && p.runner == op.q)
                || ((op.Notify? || op.NotifySync?) && p.observer == op.order[k - |s.posts|]
                    && p.observer in s.observers && p.runner == s.observers[p.observer] && p.note == s.nextNote))
  {
    if op.Notify? || op.NotifySync? {
      assert op.order[k - |s.posts|] in op.order;
    }
  }

  lemma {:induction false} ObserversStep(s: State, op: Op, o: Observer)
    requires Enabled(s, op)
    ensures o in Step(s, op).observers <==> !(op.Remove? && op.o == o) && (o in s.observers || (op.Add? && op.o == o))
    ensures o in s.observers && o in Step(s, op).observers ==> Step(s, op).observers[o] == s.observers[o]
    ensures op.Add? ==> Step(s, op).observers[op.o] == op.q
  {
  }

  // ---------- Where callbacks start ----------

  ghost predicate FromStart(states: seq<State>, ops: seq<Op>) {
    && IsRun(states, ops)
    && exists p, n :: states[0] == Start(p, n)
  }

  lemma {:induction false} StartedInv(states: seq<State>, ops: seq<Op>, k: nat)
    requires FromStart(states, ops) && k <= |ops|
    ensures Inv(states[k]) && states[0].observers == map[] && states[0].posts == []
  {
    var p, n :| states[0] == Start(p, n);
    StartInv(p, n);
    RunInv(states, ops, k);
  }

  lemma {:induction false} RegisteredHasAdd(states: seq<State>, ops: seq<Op>, k: nat, o: Observer) returns (m: nat)
    requires FromStart(states, ops) && k <= |ops| && o in states[k].observers
    ensures m < k && ops[m] == Add(states[k].observers[o], o)
  {
    StartedInv(states, ops, 0);
    ObserversStep(states[k - 1], ops[k - 1], o);
    if ops[k - 1].Add? && ops[k - 1].o == o {
      m := k - 1;
    } else {
      m := RegisteredHasAdd(states, ops, k - 1, o);
    }
  }

  /** Every task was posted to a sequence on which its observer was registered before. */
  lemma {:induction false} TaskHasAdd(states: seq<State>, ops: seq<Op>, k: nat, t: Ticket) returns (m: nat)
    requires FromStart(states, ops) && k <= |ops| && t < |states[k].posts|
    ensures m < k && ops[m] == Add(states[k].posts[t].runner, states[k].posts[t].observer)
  {
    StartedInv(states, ops, 0);
    StartedInv(states, ops, k - 1);
    var s, op := states[k - 1], ops[k - 1];
    if t < |s.posts| {
      TaskStep(s, op, t);
      m := TaskHasAdd(states, ops, k - 1, t);
    } else {
      NewTask(s, op, t);
      if op.Add? {
        m := k - 1;
      } else {
        m := RegisteredHasAdd(states, ops, k - 1, states[k].posts[t].observer);
      }
    }
  }

  // ---------- The locked check decides ----------

  ghost predicate Decided(s: State, t: Ticket, o: Observer, found: bool) {
    && t < |s.posts| && s.posts[t].observer == o
    && if found then s.posts[t].status.Admitted? || s.posts[t].status.Delivered? else s.posts[t].status.Dropped?
  }

  lemma {:induction false} DecidedStep(s: State, op: Op, t: Ticket, o: Observer, found: bool)
    requires Inv(s) && Enabled(s, op) && Decided(s, t, o, found)
    ensures Decided(Step(s, op), t, o, found)
  {
    TaskStep(s, op, t);
  }

  /** What a check decided stays decided: a task is let through, and may then be started, if and only if
      its observer was registered at the check, and otherwise it is dropped. */
  lemma {:induction false} CheckDecides(states: seq<State>, ops: seq<Op>, m: nat, k: nat, t: Ticket)
    requires IsRun(states, ops) && Inv(states[0]) && m < k <= |ops|
    requires t < |states[m].posts| && Checks(states[m], ops[m], t)
    ensures var o := states[m].posts[t].observer; Decided(states[k], t, o, o in states[m].observers)
  {
    RunInv(states, ops, k - 1);
    if k - 1 > m {
      CheckDecides(states, ops, m, k - 1, t);
      var o := states[m].posts[t].observer;
      DecidedStep(states[k - 1], ops[k - 1], t, o, o in states[m].observers);
    } else {
      TaskStep(states[m], ops[m], t);
    }
  }

  /** Every task that was let through, started or dropped was checked before. */
  lemma {:induction false} DecidedByCheck(states: seq<State>, ops: seq<Op>, k: nat, t: Ticket) returns (m: nat)
    requires FromStart(states, ops) && k <= |ops| && t < |states[k].posts| && !Unchecked(states[k].posts[t])
    ensures m < k && t < |states[m].posts| && Unchecked(states[m].posts[t]) && Checks(states[m], ops[m], t)
    ensures var p := states[k].posts[t];
            p.observer == states[m].posts[t].observer && (p.status.Dropped? <==> p.observer !in states[m].observers)
  {
    StartedInv(states, ops, 0);
    StartedInv(states, ops, k - 1);
    var s, op := states[k - 1], ops[k - 1];
    if t >= |s.posts| {
      NewTask(s, op, t);
    }
    TaskStep(s, op, t);
    if Unchecked(s.posts[t]) {
      m := k - 1;
    } else {
      m := DecidedByCheck(states, ops, k - 1, t);
    }
  }

  /** A callback is started only if the locked check before it found its observer registered. */
  lemma {:induction false} StartedOnlyIfRegistered(states: seq<State>, ops: seq<Op>, k: nat, i: nat)
    requires FromStart(states, ops) && k <= |ops| && i < |states[k].log|
    ensures exists m :: 0 <= m < k && CheckFoundRegistered(states, ops, m, states[k].log[i])
  {
    StartedInv(states, ops, k);
    var m := DecidedByCheck(states, ops, k, states[k].log[i].ticket);
    assert CheckFoundRegistered(states, ops, m, states[k].log[i]);
  }

  ghost predicate CheckFoundRegistered(states: seq<State>, ops: seq<Op>, m: nat, e: Delivery)
    requires IsRun(states, ops) && m < |ops|
  {
    Checks(states[m], ops[m], e.ticket) && e.observer in states[m].observers
  }

  /** Every callback starts on a sequence on which its observer was registered. */
  lemma {:induction false} DeliveredWhereRegistered(states: seq<State>, ops: seq<Op>, k: nat, i: nat)
    requires FromStart(states, ops) && k <= |ops| && i < |states[k].log|
    ensures exists m :: 0 <= m < k && ops[m] == Add(states[k].log[i].on, states[k].log[i].observer)
  {
    StartedInv(states, ops, k);
    var m := TaskHasAdd(states, ops, k, states[k].log[i].ticket);
  }

  // ---------- Removal ----------

  /** The step from `s` to `t` starts a callback of `o`. */
  ghost predicate Starts(s: State, t: State, o: Observer) {
    |t.log| > |s.log| && t.log[|t.log| - 1].observer == o
  }

  ghost predicate AdmittedFor(s: State, o: Observer) {
    exists k :: 0 <= k < |s.posts| && s.posts[k].observer == o && s.posts[k].status == Admitted
  }

  ghost predicate NoAdd(ops: seq<Op>, o: Observer) {
    forall m :: 0 <= m < |ops| && ops[m].Add? ==> ops[m].o != o
  }

  lemma {:induction false} StaysOut(states: seq<State>, ops: seq<Op>, j: nat, o: Observer)
    requires IsRun(states, ops) && j <= |ops| && o !in states[0].observers && NoAdd(ops, o)
    ensures o !in states[j].observers
  {
    if j > 0 {
      StaysOut(states, ops, j - 1, o);
      ObserversStep(states[j - 1], ops[j - 1], o);
    }
  }

  ghost predicate AdmittedTask(s: State, k: Ticket, o: Observer) {
    k < |s.posts| && s.posts[k].observer == o && s.posts[k].status == Admitted
  }

  lemma {:induction false} AdmittedStep(s: State, op: Op, k: Ticket, o: Observer)
    requires Inv(s) && Enabled(s, op) && o !in s.observers && AdmittedTask(Step(s, op), k, o)
    ensures AdmittedTask(s, k, o)
  {
    if k >= |s.posts| {
      NewTask(s, op, k);
    }
    TaskStep(s, op, k);
  }

  lemma {:induction false} AdmittedBack(states: seq<State>, j: nat, k: Ticket, o: Observer)
    requires j < |states| && AdmittedTask(states[j], k, o)
    requires forall m :: 0 <= m < j && AdmittedTask(states[m + 1], k, o) ==> AdmittedTask(states[m], k, o)
    ensures AdmittedTask(states[0], k, o)
  {
    if j > 0 {
      assert AdmittedTask(states[j - 1 + 1], k, o);
      AdmittedBack(states, j - 1, k, o);
    }
  }

  lemma {:induction false} AdmittedBefore(states: seq<State>, ops: seq<Op>, j: nat, k: Ticket, o: Observer)
    requires IsRun(states, ops) && Inv(states[0]) && j <= |ops| && o !in states[0].observers && NoAdd(ops, o)
    requires AdmittedTask(states[j], k, o)
    ensures AdmittedTask(states[0], k, o)
  {
    forall m | 0 <= m < j && AdmittedTask(states[m + 1], k, o) ensures AdmittedTask(states[m], k, o) {
      RunInv(states, ops, m);
      StaysOut(states, ops, m, o);
      AdmittedStep(states[m], ops[m], k, o);
    }
    AdmittedBack(states, j, k, o);
  }

  /** An observer that is not registered is called only by a wrapper already past its check. */
  lemma {:induction false} StartWasAdmitted(states: seq<State>, ops: seq<Op>, j: nat, o: Observer)
    requires IsRun(states, ops) && Inv(states[0]) && j < |ops| && o !in states[0].observers && NoAdd(ops, o)
    requires Starts(states[j], states[j + 1], o)
    ensures AdmittedFor(states[0], o)
  {
    RunInv(states, ops, j);
    var s, op := states[j], ops[j];
    LogStep(s, op);
    assert CheckedInv(s.posts, op.q, s.seqs[op.q].stack);
    AdmittedBefore(states, ops, j, Top(s.seqs[op.q].stack).ticket, o);
  }

  /** Some continuation calls `o` without registering it again. */
  ghost predicate CanStillStart(s: State, o: Observer) {
    exists states: seq<State>, ops: seq<Op> ::
      IsRun(states, ops) && states[0] == s && NoAdd(ops, o) && StartsIn(states, o)
  }

  ghost predicate StartsIn(states: seq<State>, o: Observer) {
    exists j :: 0 <= j < |states| - 1 && Starts(states[j], states[j + 1], o)
  }

  /** A removed observer can still be called if and only if, when it is removed, a wrapper for it is
      past its locked check and has not yet started the callback. */
  lemma {:induction false} StartsAfterRemovalIffAdmitted(s: State, q: SeqId, o: Observer)
    requires Inv(s) && Enabled(s, Remove(q, o))
    ensures CanStillStart(Step(s, Remove(q, o)), o) <==> AdmittedFor(s, o)
  {
    var t := Step(s, Remove(q, o));
    InvStep(s, Remove(q, o));
    if CanStillStart(t, o) {
      var states, ops :| IsRun(states, ops) && states[0] == t && NoAdd(ops, o) && StartsIn(states, o);
      var j :| 0 <= j < |states| - 1 && Starts(states[j], states[j + 1], o);
      StartWasAdmitted(states, ops, j, o);
    }
    if AdmittedFor(t, o) {
      AdmittedStarts(t, o);
    }
  }

  lemma {:induction false} AdmittedStarts(s: State, o: Observer)
    requires Inv(s) && AdmittedFor(s, o)
    ensures CanStillStart(s, o)
  {
    var k :| 0 <= k < |s.posts| && s.posts[k].observer == o && s.posts[k].status == Admitted;
    assert InPlace(s, k);
    var op := Begin(s.posts[k].runner);
    LogStep(s, op);
    var states, ops := [s, Step(s, op)], [op];
    assert IsRun(states, ops) && Starts(states[0], states[1], o);
  }

  /** A removal made on the observer's own sequence, the only one it was ever registered on, is final:
      unless it is registered again, the observer is never called after it. */
  lemma {:induction false} OwnRemovalIsFinal(states: seq<State>, ops: seq<Op>, i: nat)
    requires FromStart(states, ops) && i < |ops| && ops[i].Remove?
    requires forall m :: 0 <= m < i && ops[m].Add? && ops[m].o == ops[i].o ==> ops[m].q == ops[i].q
    ensures !CanStillStart(states[i + 1], ops[i].o)
  {
    var s, q, o := states[i], ops[i].q, ops[i].o;
    StartedInv(states, ops, i);
    StartsAfterRemovalIffAdmitted(s, q, o);
    forall k | 0 <= k < |s.posts| && s.posts[k].observer == o ensures s.posts[k].status != Admitted {
      var m := TaskHasAdd(states, ops, i, k);
      assert InPlace(s, k);
    }
  }

  // ---------- Runs end to end ----------

  lemma {:induction false} OneStep(s: State, op: Op)
    requires Enabled(s, op)
    ensures IsRun([s, Step(s, op)], [op])
  {
  }

  lemma {:induction false} RunCons(s: State, op: Op, states: seq<State>, ops: seq<Op>)
    requires Enabled(s, op) && IsRun(states, ops) && states[0] == Step(s, op)
    ensures IsRun([s] + states, [op] + ops)
  {
    var ss, oo := [s] + states, [op] + ops;
    forall k | 0 <= k < |oo| ensures Enabled(ss[k], oo[k]) && ss[k + 1] == Step(ss[k], oo[k]) {
      if k > 0 {
        assert ss[k] == states[k - 1] && ss[k + 1] == states[k] && oo[k] == ops[k - 1];
      }
    }
  }

  lemma {:induction false} RunJoin(a: seq<State>, x: seq<Op>, b: seq<State>, y: seq<Op>)
    requires IsRun(a, x) && IsRun(b, y) && a[|x|] == b[0]
    ensures IsRun(a + b[1..], x + y) && (a + b[1..])[0] == a[0] && (a + b[1..])[|x + y|] == b[|y|]
  {
    var ss, oo := a + b[1..], x + y;
    forall k | 0 <= k < |oo| ensures Enabled(ss[k], oo[k]) && ss[k + 1] == Step(ss[k], oo[k]) {
      if k < |x| {
        assert ss[k] == a[k] && ss[k + 1] == a[k + 1] && oo[k] == x[k];
      } else {
        assert ss[k] == b[k - |x|] && ss[k + 1] == b[k - |x| + 1] && oo[k] == y[k - |x|];
      }
    }
  }

  // ---------- Whatever is pending for a registered observer can be delivered ----------

  /** Steps that only carry on with what is queued or on a call stack. */
  predicate CarriesOn(op: Op) {
    op.RunTask? || op.SyncNext? || op.SyncEnd? || op.Begin? || op.EndDispatch?
  }

  ghost predicate AllCarryOn(ops: seq<Op>) {
    forall k :: 0 <= k < |ops| ==> CarriesOn(ops[k])
  }

  ghost predicate TaskLater(s: State, p: Post, r: Post) {
    && r == p.(status := r.status)
    && (p.status.Delivered? ==> r.status.Delivered?)
    && (r.status.Queued? ==> p.status.Queued?)
    && (r.status.Dropped? ==> p.status.Dropped? || p.observer !in s.observers)
  }

  ghost predicate Later(s: State, t: State) {
    && t.observers == s.observers && |t.posts| == |s.posts| && |t.seqs| == |s.seqs|
    && forall k :: 0 <= k < |s.posts| ==> TaskLater(s, s.posts[k], t.posts[k])
  }

  ghost predicate QueueKept(s: State, t: State)
    requires |s.posts| <= |t.posts|
  {
    forall k :: 0 <= k < |s.posts| && s.posts[k].status.Queued? ==> t.posts[k].status.Queued?
  }

  lemma {:induction false} LaterStep(s: State, op: Op)
    requires Inv(s) && Enabled(s, op) && CarriesOn(op)
    ensures Later(s, Step(s, op)) && (!op.RunTask? ==> QueueKept(s, Step(s, op)))
  {
    var t := Step(s, op);
    assert |t.posts| == |s.posts|;
    forall k | 0 <= k < |s.posts|
      ensures TaskLater(s, s.posts[k], t.posts[k])
      ensures !op.RunTask? && s.posts[k].status.Queued? ==> t.posts[k].status.Queued?
    {
      TaskStep(s, op, k);
    }
  }

  lemma {:induction false} LaterTwice(s: State, t: State, u: State)
    requires Later(s, t) && Later(t, u)
    ensures Later(s, u)
  {
    forall k | 0 <= k < |s.posts| ensures TaskLater(s, s.posts[k], u.posts[k]) {
      assert TaskLater(s, s.posts[k], t.posts[k]) && TaskLater(t, t.posts[k], u.posts[k]);
    }
  }

  /** The steps it takes at most to leave a call stack. */
  function Weight(stack: seq<Frame>): nat {
    if stack == [] then 0 else Weight(Below(stack)) + FrameWeight(Top(stack))
  }

  function FrameWeight(f: Frame): nat {
    match f
    case Dispatch(_, _) => 1
    case Checked(_) => 2
    case SyncLoop(tickets) => 3 * |tickets| + 1
  }

  lemma {:induction false} WeightPush(stack: seq<Frame>, f: Frame)
    ensures Weight(stack + [f]) == Weight(stack) + FrameWeight(f)
  {
    assert Below(stack + [f]) == stack;
  }

  /** The step with which a sequence leaves what is on top of its call stack. */
  function WayOut(q: SeqId, f: Frame): Op {
    match f
    case Dispatch(_, _) => EndDispatch(q)
    case Checked(_) => Begin(q)
    case SyncLoop(tickets) => if tickets == [] then SyncEnd(q) else SyncNext(q)
  }

  lemma {:induction false} WayOutWorks(s: State, q: SeqId)
    requires Inv(s) && q < |s.seqs| && s.seqs[q].stack != []
    ensures var op := WayOut(q, Top(s.seqs[q].stack));
            Enabled(s, op) && CarriesOn(op) && !op.RunTask? && q < |Step(s, op).seqs|
            && Weight(Step(s, op).seqs[q].stack) < Weight(s.seqs[q].stack)
  {
    var stack := s.seqs[q].stack;
    var below, f := Below(stack), Top(stack);
    assert LoopsInv(s.posts, q, stack) && CheckedInv(s.posts, q, stack);
    match f {
      case Dispatch(_, _) =>
      case Checked(k) => WeightPush(below, Dispatch(Own(s.posts[k].note), s.seqs[q].slot));
      case SyncLoop(tickets) =>
        if tickets != [] {
          TicketsTake(stack);
          WeightPush(below, SyncLoop(tickets[1..]));
          WeightPush(below + [SyncLoop(tickets[1..])], Checked(tickets[0]));
        }
    }
  }

  /** Every sequence can leave its whole call stack, and nothing queued is touched by that. */
  lemma {:induction false} Unwind(s: State, q: SeqId) returns (states: seq<State>, ops: seq<Op>)
    requires Inv(s) && q < |s.seqs|
    ensures IsRun(states, ops) && states[0] == s && AllCarryOn(ops)
    ensures var t := states[|ops|]; Inv(t) && Later(s, t) && QueueKept(s, t) && t.seqs[q].stack == []
    decreases Weight(s.seqs[q].stack)
  {
    if s.seqs[q].stack == [] {
      states, ops := [s], [];
    } else {
      var op := WayOut(q, Top(s.seqs[q].stack));
      WayOutWorks(s, q);
      InvStep(s, op);
      LaterStep(s, op);
      var next := Step(s, op);
      var rest, more := Unwind(next, q);
      RunCons(s, op, rest, more);
      LaterTwice(s, next, rest[|more|]);
      states, ops := [s] + rest, [op] + more;
    }
  }

  /** A pending task of a registered observer can always still be delivered. */
  lemma {:induction false} Deliver(s: State, k: Ticket) returns (states: seq<State>, ops: seq<Op>)
    requires Inv(s) && k < |s.posts| && s.posts[k].observer in s.observers && !s.posts[k].status.Dropped?
    ensures IsRun(states, ops) && states[0] == s && AllCarryOn(ops)
    ensures var t := states[|ops|]; Inv(t) && Later(s, t) && t.posts[k].status.Delivered?
  {
    var q := s.posts[k].runner;
    var a, x := Unwind(s, q);
    var t := a[|x|];
    assert TaskLater(s, s.posts[k], t.posts[k]);
    assert InPlace(t, k);
    if s.posts[k].status.Queued? {
      var b, y := RunQueued(t, k);
      RunJoin(a, x, b, y);
      LaterTwice(s, t, b[|y|]);
      states, ops := a + b[1..], x + y;
    } else {
      states, ops := a, x;
    }
  }

  lemma {:induction false} RunQueued(s: State, k: Ticket) returns (states: seq<State>, ops: seq<Op>)
    requires Inv(s) && Enabled(s, RunTask(k)) && s.posts[k].observer in s.observers
    ensures IsRun(states, ops) && states[0] == s && AllCarryOn(ops)
    ensures var t := states[|ops|]; Inv(t) && Later(s, t) && t.posts[k].status.Delivered?
  {
    AdmitQueued(s, k);
    var t := Step(s, RunTask(k));
    var b, y := RunAdmitted(t, k);
    LaterTwice(s, t, b[|y|]);
    RunCons(s, RunTask(k), b, y);
    states, ops := [s] + b, [RunTask(k)] + y;
  }

  lemma {:induction false} RunAdmitted(s: State, k: Ticket) returns (states: seq<State>, ops: seq<Op>)
    requires Inv(s) && k < |s.posts| && s.posts[k].status == Admitted
    ensures IsRun(states, ops) && states[0] == s && AllCarryOn(ops)
    ensures var t := states[|ops|]; Inv(t) && Later(s, t) && t.posts[k].status.Delivered?
  {
    var op := Begin(s.posts[k].runner);
    StartAdmitted(s, k);
    OneStep(s, op);
    states, ops := [s, Step(s, op)], [op];
  }

  lemma {:induction false} AdmitQueued(s: State, k: Ticket)
    requires Inv(s) && Enabled(s, RunTask(k)) && s.posts[k].observer in s.observers
    ensures var t := Step(s, RunTask(k)); Inv(t) && Later(s, t) && t.posts[k].status == Admitted
  {
    InvStep(s, RunTask(k));
    LaterStep(s, RunTask(k));
  }

  lemma {:induction false} StartAdmitted(s: State, k: Ticket)
    requires Inv(s) && k < |s.posts| && s.posts[k].status == Admitted
    ensures var op := Begin(s.posts[k].runner);
            Enabled(s, op) && Inv(Step(s, op)) && Later(s, Step(s, op)) && Step(s, op).posts[k].status.Delivered?
  {
    assert InPlace(s, k);
    var op := Begin(s.posts[k].runner);
    InvStep(s, op);
    LaterStep(s, op);
  }

  // ---------- At most once ----------

  ghost predicate SamePair(a: Post, b: Post) {
    a.observer == b.observer && a.note == b.note
  }

  /** Of two tasks for one observer and one notification, the earlier was dropped. */
  ghost predicate UniqueInv(s: State) {
    forall i, j :: 0 <= i < j < |s.posts| && SamePair(s.posts[i], s.posts[j]) ==> s.posts[i].status.Dropped?
  }

  /** The step registers an observer on a sequence that is dispatching a notification for which that
      observer already has a task, pending or delivered. */
  ghost predicate Clashes(s: State, op: Op) {
    && Enabled(s, op) && op.Add?
    && exists k :: 0 <= k < |s.posts| && ClashesWith(s, op, s.posts[k])
  }

  ghost predicate ClashesWith(s: State, op: Op, p: Post)
    requires Enabled(s, op) && op.Add?
  {
    var slot := s.seqs[op.q].slot;
    s.policy.All? && slot == Some(Own(p.note)) && p.observer == op.o && !p.status.Dropped?
  }

  ghost predicate Twice(log: seq<Delivery>) {
    exists i, j :: 0 <= i < j < |log| && log[i].observer == log[j].observer && log[i].note == log[j].note
  }

  lemma {:induction false} UniqueStep(s: State, op: Op)
    requires Inv(s) && UniqueInv(s) && Enabled(s, op) && !Clashes(s, op)
    ensures UniqueInv(Step(s, op))
  {
    var t := Step(s, op);
    forall i, j | 0 <= i < j < |t.posts| && SamePair(t.posts[i], t.posts[j]) ensures t.posts[i].status.Dropped? {
      if i < |s.posts| {
        TaskStep(s, op, i);
        if j < |s.posts| {
          TaskStep(s, op, j);
        } else {
          NewTask(s, op, j);
          assert op.Add? ==> !ClashesWith(s, op, s.posts[i]);
        }
      } else {
        NewTask(s, op, i);
        NewTask(s, op, j);
      }
    }
  }

  lemma {:induction false} RunUnique(states: seq<State>, ops: seq<Op>, k: nat)
    requires IsRun(states, ops) && Inv(states[0]) && UniqueInv(states[0]) && k <= |ops|
    requires forall m :: 0 <= m < k ==> !Clashes(states[m], ops[m])
    ensures UniqueInv(states[k])
  {
    if k > 0 {
      RunUnique(states, ops, k - 1);
      RunInv(states, ops, k - 1);
      UniqueStep(states[k - 1], ops[k - 1]);
    }
  }

  lemma {:induction false} UniqueMeansOnce(s: State)
    requires Inv(s) && UniqueInv(s)
    ensures !Twice(s.log)
  {
    forall i, j | 0 <= i < j < |s.log|
      ensures !(s.log[i].observer == s.log[j].observer && s.log[i].note == s.log[j].note)
    {
      var t, u := s.log[i].ticket, s.log[j].ticket;
      var a, b := if t < u then t else u, if t < u then u else t;
      assert s.posts[a].status.Delivered?;
      assert !SamePair(s.posts[a], s.posts[b]);
    }
  }

  /** No observer gets one notification twice in any run in which no registration clashes, however
      often observers are removed and registered again. */
  lemma {:induction false} DeliveredAtMostOnce(states: seq<State>, ops: seq<Op>, k: nat)
    requires IsRun(states, ops) && Inv(states[0]) && UniqueInv(states[0]) && k <= |ops|
    requires forall m :: 0 <= m < k ==> !Clashes(states[m], ops[m])
    ensures !Twice(states[k].log)
  {
    RunInv(states, ops, k);
    RunUnique(states, ops, k);
    UniqueMeansOnce(states[k]);
  }

  /** In particular the first registration of an observer never clashes. */
  lemma {:induction false} FirstRegistrationNeverClashes(states: seq<State>, ops: seq<Op>, k: nat)
    requires FromStart(states, ops) && k < |ops| && ops[k].Add?
    requires NoAdd(ops[..k], ops[k].o)
    ensures !Clashes(states[k], ops[k])
  {
    var s := states[k];
    forall t | 0 <= t < |s.posts| ensures s.posts[t].observer != ops[k].o {
      var m := TaskHasAdd(states, ops, k, t);
      assert ops[..k][m] == ops[m];
    }
  }

  lemma {:induction false} BothDelivered(s: State, k: Ticket, n: Ticket)
    requires Inv(s) && k < n < |s.posts| && SamePair(s.posts[k], s.posts[n])
    requires s.posts[k].status.Delivered? && s.posts[n].status.Delivered?
    ensures Twice(s.log)
  {
    assert Logged(s.log, k) && Logged(s.log, n);
    var i :| 0 <= i < |s.log| && s.log[i].ticket == k;
    var j :| 0 <= j < |s.log| && s.log[j].ticket == n;
    var a, b := if i < j then i else j, if i < j then j else i;
    assert s.log[a].observer == s.log[b].observer && s.log[a].note == s.log[b].note;
  }

  /** After a registration that clashes, what is queued is enough to deliver twice. */
  lemma {:induction false} ClashDeliversTwice(s: State, op: Op) returns (states: seq<State>, ops: seq<Op>)
    requires Inv(s) && Clashes(s, op)
    ensures IsRun(states, ops) && states[0] == Step(s, op) && AllCarryOn(ops) && Twice(states[|ops|].log)
  {
    var t, n := Step(s, op), |s.posts|;
    InvStep(s, op);
    var k :| 0 <= k < |s.posts| && ClashesWith(s, op, s.posts[k]);
    assert t.posts[k] == s.posts[k] && t.posts[n].observer == op.o && SamePair(t.posts[k], t.posts[n]);
    var a, x := Deliver(t, k);
    var u := a[|x|];
    assert TaskLater(t, t.posts[n], u.posts[n]) && TaskLater(t, t.posts[k], u.posts[k]);
    var b, y := Deliver(u, n);
    var v := b[|y|];
    assert TaskLater(u, u.posts[n], v.posts[n]) && TaskLater(u, u.posts[k], v.posts[k]);
    BothDelivered(v, k, n);
    RunJoin(a, x, b, y);
    states, ops := a + b[1..], x + y;
  }

  /** Carrying on can deliver something twice. */
  ghost predicate CanDeliverTwice(s: State) {
    exists states: seq<State>, ops: seq<Op> ::
      IsRun(states, ops) && states[0] == s && AllCarryOn(ops) && Twice(states[|ops|].log)
  }

  /** The exact condition: a registration makes a double delivery possible if and only if it clashes. */
  lemma {:induction false} TwiceIffClash(s: State, op: Op)
    requires Inv(s) && UniqueInv(s) && Enabled(s, op) && op.Add?
    ensures CanDeliverTwice(Step(s, op)) <==> Clashes(s, op)
  {
    if Clashes(s, op) {
      var states, ops := ClashDeliversTwice(s, op);
    } else {
      var t := Step(s, op);
      InvStep(s, op);
      UniqueStep(s, op);
      forall states: seq<State>, ops: seq<Op> | IsRun(states, ops) && states[0] == t && AllCarryOn(ops)
        ensures !Twice(states[|ops|].log)
      {
        DeliveredAtMostOnce(states, ops, |ops|);
      }
    }
  }

  // ---------- Registering on another sequence ----------

  /** The step registers an observer on a sequence while a task for it is pending on another one. */
  ghost predicate Strays(s: State, op: Op) {
    op.Add? && exists k :: 0 <= k < |s.posts| && StraysFrom(op, s.posts[k])
  }

  predicate StraysFrom(op: Op, p: Post)
    requires op.Add?
  {
    p.observer == op.o && Pending(p) && p.runner != op.q
  }

  /** Pending tasks of registered observers wait where the observer is registered. */
  ghost predicate HomeInv(s: State) {
    forall k :: 0 <= k < |s.posts| && Pending(s.posts[k]) && s.posts[k].observer in s.observers ==>
      s.observers[s.posts[k].observer] == s.posts[k].runner
  }

  lemma {:induction false} HomeStep(s: State, op: Op)
    requires Inv(s) && HomeInv(s) && Enabled(s, op) && !Strays(s, op)
    ensures HomeInv(Step(s, op))
  {
    var t := Step(s, op);
    forall k | 0 <= k < |t.posts| && Pending(t.posts[k]) && t.posts[k].observer in t.observers
      ensures t.observers[t.posts[k].observer] == t.posts[k].runner
    {
      ObserversStep(s, op, t.posts[k].observer);
      if k < |s.posts| {
        TaskStep(s, op, k);
        assert op.Add? ==> !StraysFrom(op, s.posts[k]);
      } else {
        NewTask(s, op, k);
      }
    }
  }

  lemma {:induction false} RunHome(states: seq<State>, ops: seq<Op>, k: nat)
    requires IsRun(states, ops) && Inv(states[0]) && HomeInv(states[0]) && k <= |ops|
    requires forall m :: 0 <= m < k ==> !Strays(states[m], ops[m])
    ensures HomeInv(states[k])
  {
    if k > 0 {
      RunHome(states, ops, k - 1);
      RunInv(states, ops, k - 1);
      HomeStep(states[k - 1], ops[k - 1]);
    }
  }

  /** The step from `s` to `t` starts a callback on a sequence other than the one its observer is
      registered on. */
  ghost predicate StartsElsewhere(s: State, t: State) {
    && |t.log| > |s.log|
    && var e := t.log[|t.log| - 1]; e.observer in s.observers && s.observers[e.observer] != e.on
  }

  ghost predicate ElsewhereIn(states: seq<State>) {
    exists j :: 0 <= j < |states| - 1 && StartsElsewhere(states[j], states[j + 1])
  }

  /** In a run in which no registration strays, a callback is only started where its observer is
      registered; between the locked check and the start it may at most have been removed. */
  lemma {:induction false} StartedAtHome(states: seq<State>, ops: seq<Op>, j: nat)
    requires IsRun(states, ops) && Inv(states[0]) && HomeInv(states[0]) && j < |ops|
    requires forall m :: 0 <= m < j ==> !Strays(states[m], ops[m])
    ensures !StartsElsewhere(states[j], states[j + 1])
  {
    RunInv(states, ops, j);
    RunHome(states, ops, j);
    LogStep(states[j], ops[j]);
    if ops[j].Begin? {
      var s, q := states[j], ops[j].q;
      assert CheckedInv(s.posts, q, s.seqs[q].stack);
    }
  }

  ghost predicate CanStartElsewhere(s: State) {
    exists states: seq<State>, ops: seq<Op> ::
      IsRun(states, ops) && states[0] == s && AllCarryOn(ops) && ElsewhereIn(states)
  }

  /** The exact condition: a registration makes it possible that a callback starts where its observer is
      not registered if and only if the registration strays. */
  lemma {:induction false} ElsewhereIffStray(s: State, op: Op)
    requires Inv(s) && HomeInv(s) && Enabled(s, op) && op.Add?
    ensures CanStartElsewhere(Step(s, op)) <==> Strays(s, op)
  {
    var t := Step(s, op);
    InvStep(s, op);
    if Strays(s, op) {
      var k :| 0 <= k < |s.posts| && StraysFrom(op, s.posts[k]);
      assert t.posts[k] == s.posts[k];
      var states, ops := Deliver(t, k);
      StartedSomewhere(states, ops, k, |ops|);
    } else {
      HomeStep(s, op);
      forall states: seq<State>, ops: seq<Op> | IsRun(states, ops) && states[0] == t && AllCarryOn(ops)
        ensures !ElsewhereIn(states)
      {
        forall j | 0 <= j < |states| - 1 ensures !StartsElsewhere(states[j], states[j + 1]) {
          StartedAtHome(states, ops, j);
        }
      }
    }
  }

  // Where the debug check on the current sequence is compiled in

  /** The debug check in the locked section: a task let through runs where its observer is registered. */
  ghost predicate DebugCheckHolds(s: State, op: Op)
    requires Enabled(s, op)
  {
    forall k :: 0 <= k < |s.posts| && Checks(s, op, k) && s.posts[k].observer in s.observers ==>
      s.observers[s.posts[k].observer] == s.posts[k].runner
  }

  /** Runs that no debug check stops. */
  ghost predicate DebugRun(states: seq<State>, ops: seq<Op>) {
    IsRun(states, ops) && forall k :: 0 <= k < |ops| ==> DebugCheckHolds(states[k], ops[k])
  }

  /** The step registers an observer for which a wrapper on another sequence is past its check. */
  ghost predicate StraysPastCheck(s: State, op: Op) {
    op.Add? && exists k :: 0 <= k < |s.posts| && s.posts[k].status.Admitted? && StraysFrom(op, s.posts[k])
  }

  ghost predicate AdmittedAtHome(s: State) {
    forall k :: 0 <= k < |s.posts| && s.posts[k].status.Admitted? && s.posts[k].observer in s.observers ==>
      s.observers[s.posts[k].observer] == s.posts[k].runner
  }

  lemma {:induction false} AdmittedHomeStep(s: State, op: Op)
    requires Inv(s) && AdmittedAtHome(s) && Enabled(s, op) && DebugCheckHolds(s, op) && !StraysPastCheck(s, op)
    ensures AdmittedAtHome(Step(s, op))
  {
    var t := Step(s, op);
    forall k | 0 <= k < |t.posts| && t.posts[k].status.Admitted? && t.posts[k].observer in t.observers
      ensures t.observers[t.posts[k].observer] == t.posts[k].runner
    {
      ObserversStep(s, op, t.posts[k].observer);
      if k >= |s.posts| {
        NewTask(s, op, k);
      }
      TaskStep(s, op, k);
      assert op.Add? && s.posts[k].status.Admitted? ==> !StraysFrom(op, s.posts[k]);
    }
  }

  lemma {:induction false} AdmittedHomeRun(states: seq<State>, ops: seq<Op>, j: nat)
    requires DebugRun(states, ops) && Inv(states[0]) && AdmittedAtHome(states[0]) && AllCarryOn(ops) && j <= |ops|
    ensures Inv(states[j]) && AdmittedAtHome(states[j])
  {
    if j > 0 {
      AdmittedHomeRun(states, ops, j - 1);
      InvStep(states[j - 1], ops[j - 1]);
      AdmittedHomeStep(states[j - 1], ops[j - 1]);
    }
  }

  ghost predicate CanStartElsewhereDebug(s: State) {
    exists states: seq<State>, ops: seq<Op> ::
      DebugRun(states, ops) && states[0] == s && AllCarryOn(ops) && ElsewhereIn(states)
  }

  /** With the debug check, a registration makes a call elsewhere possible if and only if a wrapper for
      the observer is past its check on another sequence: a task still to be checked is stopped there. */
  lemma {:induction false} ElsewhereIffStrayPastCheck(s: State, op: Op)
    requires Inv(s) && AdmittedAtHome(s) && Enabled(s, op) && op.Add?
    ensures CanStartElsewhereDebug(Step(s, op)) <==> StraysPastCheck(s, op)
  {
    var t := Step(s, op);
    InvStep(s, op);
    if StraysPastCheck(s, op) {
      var k :| 0 <= k < |s.posts| && s.posts[k].status.Admitted? && StraysFrom(op, s.posts[k]);
      assert t.posts[k] == s.posts[k];
      AdmittedStartsElsewhere(t, k);
    } else {
      AdmittedHomeStep(s, op);
      forall states: seq<State>, ops: seq<Op> | DebugRun(states, ops) && states[0] == t && AllCarryOn(ops)
        ensures !ElsewhereIn(states)
      {
        forall j | 0 <= j < |states| - 1 ensures !StartsElsewhere(states[j], states[j + 1]) {
          AdmittedHomeRun(states, ops, j);
          AdmittedStartsAtHome(states[j], ops[j]);
        }
      }
    }
  }

  lemma {:induction false} AdmittedStartsElsewhere(s: State, k: Ticket)
    requires Inv(s) && k < |s.posts| && s.posts[k].status.Admitted?
    requires s.posts[k].observer in s.observers && s.observers[s.posts[k].observer] != s.posts[k].runner
    ensures CanStartElsewhereDebug(s)
  {
    var op := Begin(s.posts[k].runner);
    assert InPlace(s, k);
    LogStep(s, op);
    OneStep(s, op);
    var states := [s, Step(s, op)];
    assert StartsElsewhere(states[0], states[1]);
    assert DebugRun(states, [op]);
  }

  lemma {:induction false} AdmittedStartsAtHome(s: State, op: Op)
    requires Inv(s) && AdmittedAtHome(s) && Enabled(s, op)
    ensures !StartsElsewhere(s, Step(s, op))
  {
    LogStep(s, op);
    if op.Begin? {
      assert CheckedInv(s.posts, op.q, s.seqs[op.q].stack);
    }
  }

  lemma {:induction false} LaterRun(states: seq<State>, ops: seq<Op>, j: nat)
    requires IsRun(states, ops) && Inv(states[0]) && AllCarryOn(ops) && j <= |ops|
    ensures Inv(states[j]) && Later(states[0], states[j])
  {
    if j > 0 {
      LaterRun(states, ops, j - 1);
      InvStep(states[j - 1], ops[j - 1]);
      LaterStep(states[j - 1], ops[j - 1]);
      LaterTwice(states[0], states[j - 1], states[j]);
    }
  }

  /** A task that is delivered by moment `j` was started by an earlier step. */
  lemma {:induction false} StartedSomewhere(states: seq<State>, ops: seq<Op>, k: Ticket, j: nat)
    requires IsRun(states, ops) && Inv(states[0]) && AllCarryOn(ops) && j <= |ops| && k < |states[0].posts|
    requires var p := states[0].posts[k];
             Pending(p) && p.observer in states[0].observers && states[0].observers[p.observer] != p.runner
    requires k < |states[j].posts| && states[j].posts[k].status.Delivered?
    ensures ElsewhereIn(states)
  {
    var s, op, t := states[j - 1], ops[j - 1], states[j];
    LaterRun(states, ops, j - 1);
    assert TaskLater(states[0], states[0].posts[k], s.posts[k]);
    TaskStep(s, op, k);
    if s.posts[k].status.Delivered? {
      StartedSomewhere(states, ops, k, j - 1);
    } else {
      LogStep(s, op);
      assert InPlace(s, k);
      assert StartsElsewhere(states[j - 1], states[j]);
    }
  }

  // ---------- Nothing is lost ----------

  ghost predicate Quiescent(s: State) {
    forall k :: 0 <= k < |s.posts| ==> !Pending(s.posts[k])
  }

  predicate Is(e: Delivery, o: Observer, note: nat) {
    e.observer == o && e.note == note
  }

  /** `t` is the only task of notification `note` for the registered observer `o`, and not dropped. */
  ghost predicate OnlyTask(s: State, o: Observer, note: nat, t: Ticket) {
    && o in s.observers && note < s.nextNote
    && t < |s.posts| && s.posts[t].observer == o && s.posts[t].note == note && !s.posts[t].status.Dropped?
    && forall k :: 0 <= k < |s.posts| && s.posts[k].observer == o && s.posts[k].note == note ==> k == t
  }

  lemma {:induction false} NotifyMakesTask(s: State, op: Op, o: Observer) returns (t: Ticket)
    requires Enabled(s, op) && (op.Notify? || op.NotifySync?) && o in s.observers
    ensures |s.posts| <= t < |Step(s, op).posts| && Step(s, op).nextNote == s.nextNote + 1 && o in Step(s, op).observers
    ensures var p := Step(s, op).posts[t]; p.observer == o && p.note == s.nextNote && !p.status.Dropped?
  {
    assert o in op.order;
    var i :| 0 <= i < |op.order| && op.order[i] == o;
    t := |s.posts| + i;
    NewTask(s, op, t);
  }

  lemma {:induction false} NotifyHasTask(s: State, op: Op, o: Observer) returns (t: Ticket)
    requires Inv(s) && Enabled(s, op) && (op.Notify? || op.NotifySync?) && o in s.observers
    ensures OnlyTask(Step(s, op), o, s.nextNote, t) && |s.posts| <= t
  {
    var r := Step(s, op);
    t := NotifyMakesTask(s, op, o);
    forall k | 0 <= k < |s.posts| ensures r.posts[k].note != s.nextNote {
      TaskStep(s, op, k);
    }
    forall k | |s.posts| <= k < |r.posts| && r.posts[k].observer == o ensures k == t {
      NotifiedOnce(s, op, k, t);
    }
  }

  lemma {:induction false} NotifiedOnce(s: State, op: Op, k: Ticket, t: Ticket)
    requires Enabled(s, op) && (op.Notify? || op.NotifySync?)
    requires |s.posts| <= k < |Step(s, op).posts| && |s.posts| <= t < |Step(s, op).posts|
    requires Step(s, op).posts[k].observer == Step(s, op).posts[t].observer
    ensures k == t
  {
    NewTask(s, op, k);
    NewTask(s, op, t);
  }

  lemma {:induction false} OnlyTaskStep(s: State, op: Op, o: Observer, note: nat, t: Ticket)
    requires Inv(s) && Enabled(s, op) && !(op.Remove? && op.o == o) && OnlyTask(s, o, note, t)
    ensures OnlyTask(Step(s, op), o, note, t)
  {
    var r := Step(s, op);
    ObserversStep(s, op, o);
    TaskStep(s, op, t);
    forall k | 0 <= k < |r.posts| && r.posts[k].observer == o && r.posts[k].note == note ensures k == t {
      if k < |s.posts| {
        TaskStep(s, op, k);
      } else {
        NewTask(s, op, k);
      }
    }
  }

  lemma {:induction false} OnlyTaskOn(states: seq<State>, i: nat, j: nat, o: Observer, note: nat, t: Ticket)
    requires i <= j < |states| && OnlyTask(states[i], o, note, t)
    requires forall m :: i <= m < j && OnlyTask(states[m], o, note, t) ==> OnlyTask(states[m + 1], o, note, t)
    ensures OnlyTask(states[j], o, note, t)
  {
    if i < j {
      OnlyTaskOn(states, i, j - 1, o, note, t);
    }
  }

  lemma {:induction false} OnlyTaskStays(
      states: seq<State>, ops: seq<Op>, i: nat, j: nat, o: Observer, note: nat, t: Ticket)
    requires IsRun(states, ops) && Inv(states[0]) && i <= j <= |ops| && OnlyTask(states[i], o, note, t)
    requires forall m :: i <= m < j ==> !(ops[m].Remove? && ops[m].o == o)
    ensures OnlyTask(states[j], o, note, t)
  {
    forall m | i <= m < j && OnlyTask(states[m], o, note, t) ensures OnlyTask(states[m + 1], o, note, t) {
      RunInv(states, ops, m);
      OnlyTaskStep(states[m], ops[m], o, note, t);
    }
    OnlyTaskOn(states, i, j, o, note, t);
  }

  /** A notification reaches, exactly once, every observer registered when it is made and not removed
      since, as soon as no task is left to run, whatever happens to the other observers. */
  lemma {:induction false} NotificationReachesAll(states: seq<State>, ops: seq<Op>, i: nat, j: nat, o: Observer)
    requires IsRun(states, ops) && Inv(states[0]) && i < j <= |ops| && (ops[i].Notify? || ops[i].NotifySync?)
    requires o in states[i].observers && Quiescent(states[j])
    requires forall m :: i <= m < j ==> !(ops[m].Remove? && ops[m].o == o)
    ensures exists e :: 0 <= e < |states[j].log| && Is(states[j].log[e], o, states[i].nextNote)
              && forall f :: 0 <= f < |states[j].log| && Is(states[j].log[f], o, states[i].nextNote) ==> f == e
  {
    RunInv(states, ops, i);
    RunInv(states, ops, j);
    var t := NotifyHasTask(states[i], ops[i], o);
    OnlyTaskStays(states, ops, i + 1, j, o, states[i].nextNote, t);
    LoggedOnce(states[j], o, states[i].nextNote, t);
  }

  lemma {:induction false} LoggedOnce(s: State, o: Observer, note: nat, t: Ticket)
    requires Inv(s) && Quiescent(s) && OnlyTask(s, o, note, t)
    ensures exists e :: 0 <= e < |s.log| && Is(s.log[e], o, note)
              && forall f :: 0 <= f < |s.log| && Is(s.log[f], o, note) ==> f == e
  {
    assert !Pending(s.posts[t]);
    assert Logged(s.log, t);
    var e :| 0 <= e < |s.log| && s.log[e].ticket == t;
    forall f | 0 <= f < |s.log| && Is(s.log[f], o, note) ensures f == e {
      assert s.log[f].ticket == t;
    }
  }

  // ---------- Notifying synchronously ----------

  /** The call of NotifySynchronously() made on sequence `q` by operation `i` returns by operation `j`. */
  ghost predicate SyncCall(states: seq<State>, ops: seq<Op>, i: nat, j: nat, q: SeqId) {
    && IsRun(states, ops) && Inv(states[0]) && i < j < |ops|
    && ops[i].NotifySync? && ops[i].q == q && ops[j] == SyncEnd(q)
    && (forall k :: i < k <= j ==> Deeper(states, i, k, q))
    && |states[j].seqs[q].stack| == |states[i].seqs[q].stack| + 1
  }

  ghost predicate Deeper(states: seq<State>, i: nat, k: nat, q: SeqId) {
    && i < |states| && k < |states| && q < |states[i].seqs| && q < |states[k].seqs|
    && |states[k].seqs[q].stack| > |states[i].seqs[q].stack|
  }

  /** The frame of the call's loop. */
  ghost function LoopFrame(states: seq<State>, i: nat, k: nat, q: SeqId): Frame
    requires Deeper(states, i, k, q)
  {
    states[k].seqs[q].stack[|states[i].seqs[q].stack|]
  }

  /** A task that the call at `i` made for an observer of its own sequence. */
  ghost predicate OwnTask(states: seq<State>, i: nat, q: SeqId, t: Ticket) {
    && i + 1 < |states| && |states[i].posts| <= t < |states[i + 1].posts|
    && states[i + 1].posts[t].runner == q
  }

  /** Nothing changes a frame below the top of a stack, and the loop on top only by taking a task. */
  lemma {:induction false} FrameStep(s: State, op: Op, q: SeqId, d: nat)
    requires Enabled(s, op) && q < |s.seqs| && |s.seqs[q].stack| > d
    requires q < |Step(s, op).seqs| && |Step(s, op).seqs[q].stack| > d && s.seqs[q].stack[d].SyncLoop?
    ensures var f, g := s.seqs[q].stack[d], Step(s, op).seqs[q].stack[d];
            if op == SyncNext(q) && |s.seqs[q].stack| == d + 1
            then f.tickets != [] && g == SyncLoop(f.tickets[1..]) && Checks(s, op, f.tickets[0])
            else g == f
  {
  }

  /** What the loop of the call has left: exactly the tasks still held, in order, and no other task that
      the call made for its sequence is waiting in a queue. */
  ghost predicate LoopHolds(states: seq<State>, i: nat, k: nat, q: SeqId) {
    && Deeper(states, i, k, q) && LoopFrame(states, i, k, q).SyncLoop? && Increasing(LoopFrame(states, i, k, q).tickets)
    && |states[i].posts| <= |states[k].posts|
    && forall t: Ticket :: OwnTask(states, i, q, t) ==> HeldInLoop(states, i, k, q, t)
  }

  ghost predicate HeldInLoop(states: seq<State>, i: nat, k: nat, q: SeqId, t: Ticket)
    requires Deeper(states, i, k, q) && LoopFrame(states, i, k, q).SyncLoop?
  {
    && t < |states[k].posts| && states[k].posts[t].runner == q && !states[k].posts[t].status.Queued?
    && (states[k].posts[t].status.Held? <==> t in LoopFrame(states, i, k, q).tickets)
  }

  lemma {:induction false} SyncCallEnters(states: seq<State>, ops: seq<Op>, i: nat, j: nat, q: SeqId)
    requires SyncCall(states, ops, i, j, q)
    ensures LoopHolds(states, i, i + 1, q)
  {
    var s, order := states[i], ops[i].order;
    var more := PostsFor(s.observers, order, s.nextNote, Some(q));
    HeldTicketsAreHeld(more, |s.posts|);
    assert Deeper(states, i, i + 1, q);
    assert LoopFrame(states, i, i + 1, q) == SyncLoop(HeldTickets(more, |s.posts|));
    forall t: Ticket | OwnTask(states, i, q, t) ensures HeldInLoop(states, i, i + 1, q, t) {
      HeldAtFirst(states[i], ops[i], t);
    }
  }

  lemma {:induction false} HeldAtFirst(s: State, op: Op, t: Ticket)
    requires Enabled(s, op) && op.NotifySync? && |s.posts| <= t < |Step(s, op).posts|
    requires Step(s, op).posts[t].runner == op.q
    ensures Step(s, op).posts[t].status.Held?
    ensures t in HeldTickets(PostsFor(s.observers, op.order, s.nextNote, Some(op.q)), |s.posts|)
  {
    var more := PostsFor(s.observers, op.order, s.nextNote, Some(op.q));
    assert Step(s, op).posts[t] == more[t - |s.posts|];
    HeldTicketIn(more, |s.posts|, t - |s.posts|);
  }

  lemma {:induction false} SyncCallStep(states: seq<State>, ops: seq<Op>, i: nat, j: nat, q: SeqId, k: nat)
    requires SyncCall(states, ops, i, j, q) && i < k < j && LoopHolds(states, i, k, q)
    ensures LoopHolds(states, i, k + 1, q)
  {
    var s, op, d := states[k], ops[k], |states[i].seqs[q].stack|;
    RunInv(states, ops, k);
    assert Deeper(states, i, k + 1, q);
    FrameStep(s, op, q, d);
    PostsOnlyGrow(s, op);
    var f := LoopFrame(states, i, k, q);
    forall t: Ticket | OwnTask(states, i, q, t) ensures HeldInLoop(states, i, k + 1, q, t) {
      assert HeldInLoop(states, i, k, q, t);
      TaskStep(s, op, t);
      HeldStep(s, op, q, d, t);
    }
  }

  lemma {:induction false} PostsOnlyGrow(s: State, op: Op)
    requires Enabled(s, op)
    ensures |s.posts| <= |Step(s, op).posts|
  {
  }

  /** A held task of the sequence stops being held exactly when the loop on top takes it. */
  lemma {:induction false} HeldStep(s: State, op: Op, q: SeqId, d: nat, t: Ticket)
    requires Inv(s) && Enabled(s, op) && q < |s.seqs| && |s.seqs[q].stack| > d && s.seqs[q].stack[d].SyncLoop?
    requires q < |Step(s, op).seqs| && |Step(s, op).seqs[q].stack| > d
    requires t < |s.posts| && s.posts[t].runner == q && !s.posts[t].status.Queued?
    requires Increasing(s.seqs[q].stack[d].tickets)
    requires s.posts[t].status.Held? <==> t in s.seqs[q].stack[d].tickets
    ensures t < |Step(s, op).posts| && Step(s, op).seqs[q].stack[d].SyncLoop?
    ensures !Step(s, op).posts[t].status.Queued?
    ensures Step(s, op).posts[t].status.Held? <==> t in Step(s, op).seqs[q].stack[d].tickets
  {
    TaskStep(s, op, t);
    FrameStep(s, op, q, d);
    if op == SyncNext(q) && |s.seqs[q].stack| > d + 1 && t in s.seqs[q].stack[d].tickets {
      assert LoopsInv(s.posts, q, s.seqs[q].stack);
      LowerLoopApart(s.seqs[q].stack, d, t);
    }
  }

  lemma {:induction false} TicketsContain(stack: seq<Frame>, d: nat, t: Ticket)
    requires d < |stack| && stack[d].SyncLoop? && t in stack[d].tickets
    ensures t in Tickets(stack)
  {
    if d < |stack| - 1 {
      TicketsContain(Below(stack), d, t);
    }
  }

  /** No task is in two loops. */
  lemma {:induction false} LowerLoopApart(stack: seq<Frame>, d: nat, t: Ticket)
    requires d < |stack| - 1 && stack[d].SyncLoop? && t in stack[d].tickets && Increasing(Tickets(stack))
    requires Top(stack).SyncLoop? && Top(stack).tickets != []
    ensures t != Top(stack).tickets[0]
  {
    var below := Tickets(Below(stack));
    TicketsContain(Below(stack), d, t);
    var i :| 0 <= i < |below| && below[i] == t;
    var ts := Tickets(stack);
    assert ts == below + Top(stack).tickets;
    assert ts[i] == t && ts[|below|] == Top(stack).tickets[0];
  }

  lemma {:induction false} LoopHoldsOn(states: seq<State>, i: nat, a: nat, b: nat, q: SeqId)
    requires a <= b && LoopHolds(states, i, a, q)
    requires forall k :: a <= k < b && LoopHolds(states, i, k, q) ==> LoopHolds(states, i, k + 1, q)
    ensures LoopHolds(states, i, b, q)
  {
    if a < b {
      LoopHoldsOn(states, i, a, b - 1, q);
    }
  }

  lemma {:induction false} SyncCallHolds(states: seq<State>, ops: seq<Op>, i: nat, j: nat, q: SeqId, k: nat)
    requires SyncCall(states, ops, i, j, q) && i < k <= j
    ensures LoopHolds(states, i, k, q)
  {
    SyncCallEnters(states, ops, i, j, q);
    forall m | i + 1 <= m < k && LoopHolds(states, i, m, q) ensures LoopHolds(states, i, m + 1, q) {
      SyncCallStep(states, ops, i, j, q, m);
    }
    LoopHoldsOn(states, i, i + 1, k, q);
  }

  /** When the call returns, every task that it made for its own sequence has been started or dropped. */
  lemma {:induction false} SyncCallLeavesNothing(states: seq<State>, ops: seq<Op>, i: nat, j: nat, q: SeqId, t: Ticket)
    requires SyncCall(states, ops, i, j, q) && OwnTask(states, i, q, t)
    ensures t < |states[j].posts| && !Pending(states[j].posts[t])
  {
    SyncCallHolds(states, ops, i, j, q, j);
    assert HeldInLoop(states, i, j, q, t);
    RunInv(states, ops, j);
    assert InPlace(states[j], t);
  }

  ghost predicate CalledOnceOn(log: seq<Delivery>, o: Observer, note: nat, q: SeqId) {
    exists e :: 0 <= e < |log| && Is(log[e], o, note) && log[e].on == q
      && forall f :: 0 <= f < |log| && Is(log[f], o, note) ==> f == e
  }

  /** NotifySynchronously() has called, before it returns, exactly once and on its own sequence, every
      observer that was registered there when it was called and has not been removed since. */
  lemma {:induction false} SyncCallReachesOwn(
      states: seq<State>, ops: seq<Op>, i: nat, j: nat, q: SeqId, o: Observer)
    requires SyncCall(states, ops, i, j, q) && o in states[i].observers && states[i].observers[o] == q
    requires forall m :: i < m < j ==> !(ops[m].Remove? && ops[m].o == o)
    ensures CalledOnceOn(states[j + 1].log, o, states[i].nextNote, q)
  {
    RunInv(states, ops, i);
    RunInv(states, ops, j);
    var s, note := states[j], states[i].nextNote;
    var t := NotifyHasTask(states[i], ops[i], o);
    NotifiedAt(states[i], ops[i], t);
    OnlyTaskStays(states, ops, i + 1, j, o, note, t);
    SyncCallLeavesNothing(states, ops, i, j, q, t);
    SyncCallHolds(states, ops, i, j, q, j);
    assert HeldInLoop(states, i, j, q, t);
    LogStep(s, ops[j]);
    LoggedAt(s, o, note, t);
  }

  lemma {:induction false} NotifiedAt(s: State, op: Op, t: Ticket)
    requires Inv(s) && Enabled(s, op) && (op.Notify? || op.NotifySync?)
    requires |s.posts| <= t < |Step(s, op).posts|
    ensures Step(s, op).posts[t].observer in s.observers
    ensures Step(s, op).posts[t].runner == s.observers[Step(s, op).posts[t].observer]
  {
    NewTask(s, op, t);
  }

  lemma {:induction false} LoggedAt(s: State, o: Observer, note: nat, t: Ticket)
    requires Inv(s) && OnlyTask(s, o, note, t) && !Pending(s.posts[t])
    ensures CalledOnceOn(s.log, o, note, s.posts[t].runner)
  {
    assert Logged(s.log, t);
    var e :| 0 <= e < |s.log| && s.log[e].ticket == t;
    forall f | 0 <= f < |s.log| && Is(s.log[f], o, note) ensures f == e {
      assert s.log[f].ticket == t;
    }
  }

  /** The call deals with its own sequence's observers in the order in which it found them: none is
      checked while an earlier one is still held. */
  lemma {:induction false} SyncCallInOrder(
      states: seq<State>, ops: seq<Op>, i: nat, j: nat, q: SeqId, k: nat, t: Ticket, u: Ticket)
    requires SyncCall(states, ops, i, j, q) && i < k <= j && t < u
    requires OwnTask(states, i, q, t) && OwnTask(states, i, q, u)
    ensures InOrder(states, k, t, u)
  {
    SyncCallStarts(states, ops, i, j, q, u);
    forall m | i + 1 <= m < k && InOrder(states, m, t, u) ensures InOrder(states, m + 1, t, u) {
      SyncCallHolds(states, ops, i, j, q, m);
      SyncCallHolds(states, ops, i, j, q, m + 1);
      OrderStep(states, ops, i, j, q, m, t, u);
    }
    InOrderOn(states, i + 1, k, t, u);
  }

  ghost predicate InOrder(states: seq<State>, k: nat, t: Ticket, u: Ticket) {
    && k < |states| && t < |states[k].posts| && u < |states[k].posts|
    && (states[k].posts[t].status.Held? ==> states[k].posts[u].status.Held?)
  }

  lemma {:induction false} InOrderOn(states: seq<State>, a: nat, b: nat, t: Ticket, u: Ticket)
    requires a <= b && InOrder(states, a, t, u)
    requires forall m :: a <= m < b && InOrder(states, m, t, u) ==> InOrder(states, m + 1, t, u)
    ensures InOrder(states, b, t, u)
  {
    if a < b {
      InOrderOn(states, a, b - 1, t, u);
    }
  }

  lemma {:induction false} SyncCallStarts(states: seq<State>, ops: seq<Op>, i: nat, j: nat, q: SeqId, u: Ticket)
    requires SyncCall(states, ops, i, j, q) && OwnTask(states, i, q, u)
    ensures states[i + 1].posts[u].status.Held?
  {
    var s := states[i];
    assert states[i + 1].posts[u] == PostsFor(s.observers, ops[i].order, s.nextNote, Some(q))[u - |s.posts|];
  }

  lemma {:induction false} OrderStep(
      states: seq<State>, ops: seq<Op>, i: nat, j: nat, q: SeqId, k: nat, t: Ticket, u: Ticket)
    requires SyncCall(states, ops, i, j, q) && i < k < j && t < u && LoopHolds(states, i, k, q)
    requires OwnTask(states, i, q, t) && OwnTask(states, i, q, u) && LoopHolds(states, i, k + 1, q)
    requires InOrder(states, k, t, u)
    ensures InOrder(states, k + 1, t, u)
  {
    assert HeldInLoop(states, i, k, q, t) && HeldInLoop(states, i, k, q, u);
    assert HeldInLoop(states, i, k + 1, q, t) && HeldInLoop(states, i, k + 1, q, u);
    RunInv(states, ops, k);
    TaskStep(states[k], ops[k], t);
    TaskStep(states[k], ops[k], u);
    FrameStep(states[k], ops[k], q, |states[i].seqs[q].stack|);
  }

  // ---------- Runs that show what can happen ----------

  const IDLE := Sequence([], None)

  /** Observer 0 has been registered on sequence 0 of `n` and a notification has been made. */
  lemma {:induction false} Notified(n: nat) returns (states: seq<State>, ops: seq<Op>)
    requires n > 0
    ensures FromStart(states, ops) && ops == [Add(0, 0), Notify([0])]
    ensures states[2] == State(ObserverListModel.All, map[0 := 0], [Post(0, 0, 0, Queued)], [], seq(n, _ => IDLE), 1)
  {
    var s0 := Start(ObserverListModel.All, n);
    var s1 := Step(s0, Add(0, 0));
    assert s1 == s0.(observers := map[0 := 0]);
    var s2 := Step(s1, Notify([0]));
    assert PostsFor(s1.observers, [0], 0, None) == [Post(0, 0, 0, Queued)];
    states, ops := [s0, s1, s2], [Add(0, 0), Notify([0])];
  }

  /** The wrapper of observer 0 passes its check on sequence 0, the observer is removed on sequence 1,
      and then its callback starts. */
  lemma {:induction false} StartAfterRemoval() returns (states: seq<State>, ops: seq<Op>)
    ensures FromStart(states, ops) && |ops| == 5 && ops[3] == Remove(1, 0) && ops[4] == Begin(0)
    ensures 0 !in states[4].observers && Starts(states[4], states[5], 0)
  {
    var a, x := Notified(2);
    StartedInv(a, x, 2);
    var b, y := RemovedBetween(a[2], 0, 1);
    RunJoin(a, x, b, y);
    states, ops := a + b[1..], x + y;
    assert states[4] == b[2] && states[5] == b[3];
  }

  lemma {:induction false} RemovedBetween(s: State, k: Ticket, q: SeqId) returns (states: seq<State>, ops: seq<Op>)
    requires Inv(s) && Enabled(s, RunTask(k)) && s.posts[k].observer in s.observers
    requires q < |s.seqs| && q != s.posts[k].runner && Free(s.seqs[q].stack)
    ensures IsRun(states, ops) && states[0] == s
    ensures ops == [RunTask(k), Remove(q, s.posts[k].observer), Begin(s.posts[k].runner)]
    ensures s.posts[k].observer !in states[2].observers && Starts(states[2], states[3], s.posts[k].observer)
  {
    var o, begin := s.posts[k].observer, Begin(s.posts[k].runner);
    AdmitQueued(s, k);
    var s1 := Step(s, RunTask(k));
    assert TaskLater(s, s.posts[k], s1.posts[k]);
    var b, y := RemovedThenCalled(s1, k, q);
    RunCons(s, RunTask(k), b, y);
    states, ops := [s] + b, [RunTask(k)] + y;
  }

  lemma {:induction false} RemovedThenCalled(s: State, k: Ticket, q: SeqId) returns (states: seq<State>, ops: seq<Op>)
    requires Inv(s) && k < |s.posts| && s.posts[k].status == Admitted && q < |s.seqs| && Free(s.seqs[q].stack)
    ensures IsRun(states, ops) && states[0] == s && ops == [Remove(q, s.posts[k].observer), Begin(s.posts[k].runner)]
    ensures s.posts[k].observer !in states[1].observers && Starts(states[1], states[2], s.posts[k].observer)
  {
    var remove, begin := Remove(q, s.posts[k].observer), Begin(s.posts[k].runner);
    InvStep(s, remove);
    var t := Step(s, remove);
    assert InPlace(t, k);
    LogStep(t, begin);
    OneStep(t, begin);
    RunCons(s, remove, [t, Step(t, begin)], [begin]);
    states, ops := [s] + [t, Step(t, begin)], [remove] + [begin];
  }

  /** An observer that removes itself in its callback and registers again gets the notification again:
      the registration is made inside the dispatch of that very notification. */
  lemma {:induction false} ReRegistrationDeliversTwice() returns (states: seq<State>, ops: seq<Op>)
    ensures FromStart(states, ops) && |ops| >= 6 && ops[2..6] == [RunTask(0), Begin(0), Remove(0, 0), Add(0, 0)]
    ensures AllCarryOn(ops[6..]) && Twice(states[|ops|].log)
  {
    var c, z := RemovedWhileHandling();
    HandlingClashes();
    states, ops := RunOnFromClash(c, z, Add(0, 0));
    assert ops[2..6] == z[2..] + [Add(0, 0)];
  }

  lemma {:induction false} HandlingClashes()
    ensures Clashes(Handling().(observers := map[]), Add(0, 0))
  {
    var s := Handling().(observers := map[]);
    assert ClashesWith(s, Add(0, 0), s.posts[0]);
  }

  /** Every run up to a registration that clashes can be carried on to a double delivery. */
  lemma {:induction false} RunOnFromClash(a: seq<State>, x: seq<Op>, op: Op) returns (states: seq<State>, ops: seq<Op>)
    requires FromStart(a, x) && Clashes(a[|x|], op)
    ensures FromStart(states, ops) && x + [op] <= ops && AllCarryOn(ops[|x| + 1..]) && Twice(states[|ops|].log)
  {
    var s := a[|x|];
    StartedInv(a, x, |x|);
    var d, w := ClashDeliversTwice(s, op);
    RunOver(a, x, op, d, w);
    states, ops := a + d, x + [op] + w;
    assert ops[|x| + 1..] == w && states[0] == a[0];
  }

  lemma {:induction false} RunOver(a: seq<State>, x: seq<Op>, op: Op, d: seq<State>, w: seq<Op>)
    requires IsRun(a, x) && Enabled(a[|x|], op) && IsRun(d, w) && d[0] == Step(a[|x|], op)
    ensures IsRun(a + d, x + [op] + w)
  {
    var ss, oo := a + d, x + [op] + w;
    forall k | 0 <= k < |oo| ensures Enabled(ss[k], oo[k]) && ss[k + 1] == Step(ss[k], oo[k]) {
      if k < |x| {
        assert ss[k] == a[k] && ss[k + 1] == a[k + 1] && oo[k] == x[k];
      } else if k > |x| {
        var m := k - |x| - 1;
        assert ss[k] == d[m] && ss[k + 1] == d[m + 1] && oo[k] == w[m];
      }
    }
  }

  lemma {:induction false} RemovedWhileHandling() returns (states: seq<State>, ops: seq<Op>)
    ensures FromStart(states, ops) && |ops| == 5 && ops[2..] == [RunTask(0), Begin(0), Remove(0, 0)]
    ensures states[5] == Handling().(observers := map[])
  {
    var a, x := Dispatched();
    var s := Step(Handling(), Remove(0, 0));
    OneStep(Handling(), Remove(0, 0));
    RunJoin(a, x, [Handling(), s], [Remove(0, 0)]);
    states, ops := a + [Handling(), s][1..], x + [Remove(0, 0)];
  }

  /** Observer 0 of a list on one sequence is handling the notification. */
  function Handling(): State {
    State(ObserverListModel.All, map[0 := 0], [Post(0, 0, 0, Delivered)], [Delivery(0, 0, 0, 0)],
          [Sequence([Dispatch(Own(0), None)], Some(Own(0)))], 1)
  }

  lemma {:induction false} Dispatched() returns (states: seq<State>, ops: seq<Op>)
    ensures FromStart(states, ops) && ops == [Add(0, 0), Notify([0]), RunTask(0), Begin(0)] && states[4] == Handling()
  {
    var a, x := Notified(1);
    var s := HandlingStarts(a[2]);
    OneStep(s, Begin(0));
    RunOver(a, x, RunTask(0), [s, Handling()], [Begin(0)]);
    states, ops := a + [s, Handling()], x + [RunTask(0)] + [Begin(0)];
    assert states[0] == a[0];
  }

  lemma {:induction false} HandlingStarts(s: State) returns (t: State)
    requires s == State(ObserverListModel.All, map[0 := 0], [Post(0, 0, 0, Queued)], [], seq(1, _ => IDLE), 1)
    ensures Enabled(s, RunTask(0)) && t == Step(s, RunTask(0))
    ensures Enabled(t, Begin(0)) && Step(t, Begin(0)) == Handling()
  {
    assert s.seqs == [IDLE];
    t := Step(s, RunTask(0));
    assert t.posts == [Post(0, 0, 0, Admitted)] && t.seqs == [Sequence([Checked(0)], None)] by {
      assert [] + [Checked(0)] == [Checked(0)];
    }
    var u := Step(t, Begin(0));
    assert u.posts == Handling().posts && u.seqs == Handling().seqs && u.log == Handling().log by {
      assert Below([Checked(0)]) + [Dispatch(Own(0), None)] == [Dispatch(Own(0), None)];
    }
  }

  /** An observer registered again on another sequence while a task for it is queued on the first one
      can be called on the first one. */
  lemma {:induction false} CalledOnOldSequence() returns (states: seq<State>, ops: seq<Op>)
    ensures FromStart(states, ops) && |ops| == 4 && ops[2..] == [Remove(0, 0), Add(1, 0)]
    ensures CanStartElsewhere(states[4])
  {
    var a, x := Notified(2);
    var s2 := a[2];
    var s3 := Step(s2, Remove(0, 0));
    var s4 := Step(s3, Add(1, 0));
    var b, y := [s2, s3, s4], [Remove(0, 0), Add(1, 0)];
    RunJoin(a, x, b, y);
    states, ops := a + b[1..], x + y;
    StartedInv(states, ops, 3);
    assert states[3] == s3 && StraysFrom(Add(1, 0), s3.posts[0]);
    ElsewhereIffStray(s3, Add(1, 0));
  }

  /** The same with the debug check compiled in: the first sequence is past it when the observer is
      registered on the other. */
  lemma {:induction false} CalledOnOldSequenceDebug() returns (states: seq<State>, ops: seq<Op>)
    ensures FromStart(states, ops) && DebugRun(states, ops)
    ensures ops == [Add(0, 0), Notify([0]), RunTask(0), Remove(1, 0), Add(1, 0)]
    ensures CanStartElsewhereDebug(states[5])
  {
    states, ops := RegisteredPastCheck();
    StartedInv(states, ops, 5);
    forall k | 0 <= k < |ops| ensures DebugCheckHolds(states[k], ops[k]) {
      if k == 2 {
        assert states[2].observers[0] == states[2].posts[0].runner;
      }
    }
    AdmittedStartsElsewhere(states[5], 0);
  }

  lemma {:induction false} RegisteredPastCheck() returns (states: seq<State>, ops: seq<Op>)
    ensures FromStart(states, ops)
    ensures ops == [Add(0, 0), Notify([0]), RunTask(0), Remove(1, 0), Add(1, 0)]
    ensures states[2].observers == map[0 := 0] && states[2].posts == [Post(0, 0, 0, Queued)]
    ensures states[5] == PastCheck().(observers := map[0 := 1])
  {
    var a, x := Notified(2);
    AdmittedOnFirst(a[2]);
    var b, y := RegisteredElsewhere();
    RunOver(a, x, RunTask(0), b, y);
    states, ops := a + b, x + [RunTask(0)] + y;
    assert states[0] == a[0] && states[2] == a[2] && states[5] == b[2];
  }

  lemma {:induction false} RegisteredElsewhere() returns (states: seq<State>, ops: seq<Op>)
    ensures IsRun(states, ops) && states[0] == PastCheck() && ops == [Remove(1, 0), Add(1, 0)]
    ensures states[2] == PastCheck().(observers := map[0 := 1])
  {
    var remove, add := Remove(1, 0), Add(1, 0);
    var s, t := Step(PastCheck(), remove), PastCheck().(observers := map[0 := 1]);
    assert t == Step(s, add);
    OneStep(s, add);
    RunCons(PastCheck(), remove, [s, t], [add]);
    states, ops := [PastCheck()] + [s, t], [remove] + [add];
  }

  /** The wrapper of observer 0 has passed its check on the first of two sequences. */
  function PastCheck(): State {
    State(ObserverListModel.All, map[0 := 0], [Post(0, 0, 0, Admitted)], [], [Sequence([Checked(0)], None), IDLE], 1)
  }

  lemma {:induction false} AdmittedOnFirst(s: State)
    requires s == State(ObserverListModel.All, map[0 := 0], [Post(0, 0, 0, Queued)], [], seq(2, _ => IDLE), 1)
    ensures Enabled(s, RunTask(0)) && Step(s, RunTask(0)) == PastCheck()
  {
    assert s.seqs == [IDLE, IDLE];
    var t := Step(s, RunTask(0));
    assert t.posts == PastCheck().posts && t.seqs == PastCheck().seqs by {
      assert [] + [Checked(0)] == [Checked(0)];
    }
  }

  /** Inside a dispatch of another list that is nested in one of this list, registering posts nothing. */
  lemma {:induction false} ForeignDispatchHidesOwn() returns (states: seq<State>, ops: seq<Op>)
    ensures FromStart(states, ops) && |ops| == 6 && ops[5] == Add(0, 1)
    ensures states[5].policy.All?
    ensures states[5].seqs[0].stack == [Dispatch(Own(0), None), Dispatch(Foreign(5), Some(Own(0)))]
    ensures states[6].posts == states[5].posts
  {
    var a, x := Dispatched();
    var foreign, add := ForeignDispatch(0, 5), Add(0, 1);
    var s5 := Step(Handling(), foreign);
    var s6 := Step(s5, add);
    OneStep(s5, add);
    RunCons(Handling(), foreign, [s5, s6], [add]);
    RunJoin(a, x, [Handling()] + [s5, s6], [foreign] + [add]);
    states, ops := a + ([Handling()] + [s5, s6])[1..], x + ([foreign] + [add]);
    assert states[5] == s5 && states[6] == s6;
  }

  /** A list on one sequence with the given tasks and call stack. */
  function OneSequence(observers: map<Observer, SeqId>, posts: seq<Post>, log: seq<Delivery>,
                       stack: seq<Frame>, slot: Option<Note>, nextNote: nat): State {
    State(ObserverListModel.All, observers, posts, log, [Sequence(stack, slot)], nextNote)
  }

  /** A synchronous call is dispatching to the only observer. */
  function Calling(): State {
    OneSequence(map[0 := 0], [Post(0, 0, 0, Delivered)], [Delivery(0, 0, 0, 0)],
                [SyncLoop([]), Dispatch(Own(0), None)], Some(Own(0)), 1)
  }

  /** An observer registered by a callback of a synchronous call gets that notification too, but by a
      task of its own, which the call does not wait for. */
  lemma {:induction false} SyncCallLeavesLateTask() returns (states: seq<State>, ops: seq<Op>)
    ensures FromStart(states, ops) && SyncCall(states, ops, 1, 6, 0) && ops[4] == Add(0, 1)
    ensures |states[7].posts| == 2 && states[7].posts[1] == Post(1, states[1].nextNote, 0, Queued)
  {
    states, ops := LateRun();
    StartedInv(states, ops, 0);
    assert Deeper(states, 1, 2, 0) && Deeper(states, 1, 3, 0) && Deeper(states, 1, 4, 0);
    assert Deeper(states, 1, 5, 0) && Deeper(states, 1, 6, 0);
  }

  /** The only sequence has `n` frames on its stack at moment `k`. */
  ghost predicate Depth(states: seq<State>, k: nat, n: nat) {
    k < |states| && |states[k].seqs| == 1 && |states[k].seqs[0].stack| == n
  }

  lemma {:induction false} LateRun() returns (states: seq<State>, ops: seq<Op>)
    ensures FromStart(states, ops)
    ensures ops == [Add(0, 0), NotifySync(0, [0]), SyncNext(0), Begin(0), Add(0, 1), EndDispatch(0), SyncEnd(0)]
    ensures states[1].nextNote == 0 && states[7].posts == [Post(0, 0, 0, Delivered), Post(1, 0, 0, Queued)]
    ensures Depth(states, 1, 0) && Depth(states, 2, 1) && Depth(states, 3, 2) && Depth(states, 4, 2)
    ensures Depth(states, 5, 2) && Depth(states, 6, 1)
  {
    var a, x := LateStart();
    var b, y := LateTurn(a[2]);
    RunJoin(a, x, b, y);
    var d, w := LateRest();
    RunJoin(a + b[1..], x + y, d, w);
    states, ops := a + b[1..] + d[1..], x + y + w;
    assert states[1] == a[1] && states[2] == a[2] && states[3] == b[1] && states[4] == b[2];
    assert states[5] == d[1] && states[6] == d[2] && states[7] == d[3];
  }

  lemma {:induction false} LateStart() returns (states: seq<State>, ops: seq<Op>)
    ensures FromStart(states, ops) && ops == [Add(0, 0), NotifySync(0, [0])]
    ensures states[0] == Start(ObserverListModel.All, 1)
    ensures |states[1].seqs| == 1 && states[1].seqs[0].stack == [] && states[1].nextNote == 0
    ensures states[2] == OneSequence(map[0 := 0], [Post(0, 0, 0, Held)], [], [SyncLoop([0])], None, 1)
  {
    var add, notify := Add(0, 0), NotifySync(0, [0]);
    var s0 := Start(ObserverListModel.All, 1);
    var s1 := OneSequence(map[0 := 0], [], [], [], None, 0);
    assert s0.seqs == [IDLE];
    assert s1 == Step(s0, add);
    var s2 := LateNotify(s1);
    OneStep(s1, notify);
    RunCons(s0, add, [s1, s2], [notify]);
    states, ops := [s0] + [s1, s2], [add] + [notify];
  }

  lemma {:induction false} LateNotify(s: State) returns (t: State)
    requires s == OneSequence(map[0 := 0], [], [], [], None, 0)
    ensures Enabled(s, NotifySync(0, [0])) && t == Step(s, NotifySync(0, [0]))
    ensures t == OneSequence(map[0 := 0], [Post(0, 0, 0, Held)], [], [SyncLoop([0])], None, 1)
  {
    assert Enabled(s, NotifySync(0, [0]));
    t := SyncNotified(s);
  }

  lemma {:induction false} SyncNotified(s: State) returns (t: State)
    requires s == OneSequence(map[0 := 0], [], [], [], None, 0) && Enabled(s, NotifySync(0, [0]))
    ensures t == Step(s, NotifySync(0, [0]))
    ensures t == OneSequence(map[0 := 0], [Post(0, 0, 0, Held)], [], [SyncLoop([0])], None, 1)
  {
    OneHeldTask(s.observers);
    var stack := s.seqs[0].stack + [SyncLoop([0])];
    assert stack == [SyncLoop([0])];
    assert s.seqs[0 := Sequence(stack, None)] == [Sequence([SyncLoop([0])], None)];
    assert s.posts + [Post(0, 0, 0, Held)] == [Post(0, 0, 0, Held)];
    t := Step(s, NotifySync(0, [0]));
  }

  lemma {:induction false} OneHeldTask(observers: map<Observer, SeqId>)
    requires observers == map[0 := 0]
    ensures PostsFor(observers, [0], 0, Some(0)) == [Post(0, 0, 0, Held)]
    ensures HeldTickets([Post(0, 0, 0, Held)], 0) == [0]
  {
    HeldAppend([], Post(0, 0, 0, Held), 0);
    assert [] + [Post(0, 0, 0, Held)] == [Post(0, 0, 0, Held)];
  }

  lemma {:induction false} LateTurn(s: State) returns (states: seq<State>, ops: seq<Op>)
    requires s == OneSequence(map[0 := 0], [Post(0, 0, 0, Held)], [], [SyncLoop([0])], None, 1)
    ensures IsRun(states, ops) && states[0] == s && ops == [SyncNext(0), Begin(0)] && states[2] == Calling()
    ensures |states[1].seqs| == 1 && |states[1].seqs[0].stack| == 2
  {
    var t := OneSequence(map[0 := 0], [Post(0, 0, 0, Admitted)], [], [SyncLoop([]), Checked(0)], None, 1);
    var a := Step(s, SyncNext(0));
    assert a.posts == t.posts && a.seqs == t.seqs by {
      assert Below([SyncLoop([0])]) == [] && [0][1..] == [];
      assert [] + [SyncLoop([])] + [Checked(0)] == [SyncLoop([]), Checked(0)];
    }
    var b := Step(t, Begin(0));
    assert b.posts == Calling().posts && b.log == Calling().log && b.seqs == Calling().seqs by {
      assert Below([SyncLoop([]), Checked(0)]) + [Dispatch(Own(0), None)] == [SyncLoop([]), Dispatch(Own(0), None)];
    }
    OneStep(t, Begin(0));
    RunCons(s, SyncNext(0), [t, Calling()], [Begin(0)]);
    states, ops := [s] + [t, Calling()], [SyncNext(0)] + [Begin(0)];
  }

  lemma {:induction false} LateRest() returns (states: seq<State>, ops: seq<Op>)
    ensures IsRun(states, ops) && states[0] == Calling() && ops == [Add(0, 1), EndDispatch(0), SyncEnd(0)]
    ensures |states[1].seqs| == 1 && |states[1].seqs[0].stack| == 2
    ensures |states[2].seqs| == 1 && |states[2].seqs[0].stack| == 1
    ensures states[3].posts == Calling().posts + [Post(1, 0, 0, Queued)]
  {
    var s := Calling();
    var t := s.(observers := map[0 := 0, 1 := 0], posts := s.posts + [Post(1, 0, 0, Queued)]);
    var u, v := t.(seqs := [Sequence([SyncLoop([])], None)]), t.(seqs := [IDLE]);
    assert t == Step(s, Add(0, 1));
    assert Step(t, EndDispatch(0)).seqs == u.seqs by {
      assert Below([SyncLoop([]), Dispatch(Own(0), None)]) == [SyncLoop([])];
    }
    assert Step(u, SyncEnd(0)).seqs == v.seqs by {
      assert Below([SyncLoop([])]) == [];
    }
    OneStep(u, SyncEnd(0));
    RunCons(t, EndDispatch(0), [u, v], [SyncEnd(0)]);
    RunCons(s, Add(0, 1), [t] + [u, v], [EndDispatch(0)] + [SyncEnd(0)]);
    states, ops := [s] + ([t] + [u, v]), [Add(0, 1)] + ([EndDispatch(0)] + [SyncEnd(0)]);
  }
}
