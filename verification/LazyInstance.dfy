/** Double-checked creation of a lazy instance by any number of threads over one atomic word.

    The word is modelled by its modification order: every value ever stored, oldest first, each with
    a flag telling whether a thread that acquires it thereby sees the finished construction. A load
    may return any value not older than what its thread has already seen; a compare-and-swap that
    succeeds reads the newest one. Acquire loads join the flag of the value they read, relaxed ones do
    not. Inside NeedsLazyInstance() only relaxed accesses are assumed. */
module LazyInstance {
  type Word = bv64
  type ThreadId = nat

  const CREATING: Word := 1

  /** What a word holds once the instance is there. */
  predicate Created(w: Word) {
    w != 0 && w != CREATING
  }

  /** The source tests `instance & kLazyInstanceCreatedMask`, the mask being all bits but the lowest. */
  lemma {:induction false} CreatedMask(w: Word)
    ensures w & !CREATING != 0 <==> Created(w)
  {
  }

  datatype Msg = Msg(value: Word, publishes: bool)

  /** Where a thread is in GetOrCreateLazyPointer(). */
  datatype Pc =
    | FastLoad | Claim | Create | Publish(instance: Word) | Wait | Reload | Done(result: Word)

  /** `seen` is the newest entry of the modification order known to the thread; `sees` tells whether
      the finished construction is visible to it. */
  datatype Thread = Thread(pc: Pc, seen: nat, sees: bool)

  datatype State = State(history: seq<Msg>, threads: seq<Thread>, creations: nat)

  datatype Op =
    | Call
    | Load(t: ThreadId, at: nat)
    | ClaimWin(t: ThreadId) | ClaimLose(t: ThreadId, at: nat)
    | Build(t: ThreadId, instance: Word) | Store(t: ThreadId)
    | Spin(t: ThreadId, at: nat) | LoadAgain(t: ThreadId, at: nat)

  predicate InState(s: State, t: ThreadId, pc: Pc) {
    t < |s.threads| && s.threads[t].pc == pc
  }

  predicate Readable(s: State, t: ThreadId, at: nat)
    requires t < |s.threads|
  {
    s.threads[t].seen <= at < |s.history|
  }

  predicate Enabled(s: State, op: Op) {
    match op
    case Call => true
    case Load(t, at) => InState(s, t, FastLoad) && Readable(s, t, at)
    case ClaimWin(t) => InState(s, t, Claim) && s.history != [] && s.history[|s.history| - 1].value == 0
    case ClaimLose(t, at) => InState(s, t, Claim) && Readable(s, t, at) && s.history[at].value != 0
    case Build(t, p) => InState(s, t, Create) && Created(p)
    case Store(t) => t < |s.threads| && s.threads[t].pc.Publish?
    case Spin(t, at) => InState(s, t, Wait) && Readable(s, t, at)
    case LoadAgain(t, at) => InState(s, t, Reload) && Readable(s, t, at)
  }

  function Acquire(s: State, th: Thread, at: nat): Thread
    requires at < |s.history|
  {
    th.(seen := at, sees := th.sees || s.history[at].publishes)
  }

  function Put(s: State, t: ThreadId, th: Thread): State
    requires t < |s.threads|
  {
    s.(threads := s.threads[t := th])
  }

  function Step(s: State, op: Op): State
    requires Enabled(s, op)
  {
    match op
    case Call => s.(threads := s.threads + [Thread(FastLoad, 0, false)])
    case Load(t, at) =>
      var w := s.history[at].value;
      Put(s, t, Acquire(s, s.threads[t], at).(pc := if Created(w) then Done(w) else Claim))
    case ClaimWin(t) =>
      Put(s, t, s.threads[t].(pc := Create, seen := |s.history|)).(history := s.history + [Msg(CREATING, false)])
    case ClaimLose(t, at) => Put(s, t, s.threads[t].(pc := Wait, seen := at))
    case Build(t, p) => Put(s, t, s.threads[t].(pc := Publish(p), sees := true)).(creations := s.creations + 1)
    case Store(t) =>
      var th := s.threads[t];
      Put(s, t, th.(pc := Done(th.pc.instance), seen := |s.history|))
        .(history := s.history + [Msg(th.pc.instance, th.sees)])
    case Spin(t, at) =>
      Put(s, t, s.threads[t].(pc := if s.history[at].value == CREATING then Wait else Reload, seen := at))
    case LoadAgain(t, at) =>
      Put(s, t, Acquire(s, s.threads[t], at).(pc := Done(s.history[at].value)))
  }

  function Start(): State {
    State([Msg(0, false)], [], 0)
  }

  // ---------- Invariant ----------

  predicate Owns(th: Thread) {
    th.pc.Create? || th.pc.Publish?
  }

  /** The word doubles as a spinlock: one thread holds it at most. */
  ghost predicate OneOwner(threads: seq<Thread>) {
    forall t, u :: 0 <= t < |threads| && 0 <= u < |threads| && Owns(threads[t]) && Owns(threads[u]) ==> t == u
  }

  ghost predicate HistoryInv(h: seq<Msg>) {
    && 1 <= |h| <= 3 && h[0] == Msg(0, false)
    && (|h| >= 2 ==> h[1] == Msg(CREATING, false))
    && (|h| == 3 ==> Created(h[2].value) && h[2].publishes)
  }

  ghost predicate ThreadInv(s: State, th: Thread) {
    && th.seen < |s.history|
    && match th.pc
       case FastLoad => true
       case Claim => true
       case Create => |s.history| == 2 && s.creations == 0
       case Publish(p) => |s.history| == 2 && s.creations == 1 && Created(p) && th.sees
       case Wait => th.seen >= 1
       case Reload => th.seen == 2
       case Done(r) => |s.history| == 3 && r == s.history[2].value && th.sees
  }

  ghost predicate Inv(s: State) {
    && HistoryInv(s.history)
    && (|s.history| == 1 ==> s.creations == 0) && (|s.history| == 3 ==> s.creations == 1)
    && (forall t :: 0 <= t < |s.threads| ==> ThreadInv(s, s.threads[t]))
    && (|s.history| == 2 ==> exists t :: 0 <= t < |s.threads| && Owns(s.threads[t]))
    && OneOwner(s.threads)
  }

  lemma {:induction false} InvStep(s: State, op: Op)
    requires Inv(s) && Enabled(s, op)
    ensures Inv(Step(s, op))
  {
    if |Step(s, op).history| == 2 {
      OwnerStep(s, op);
    }
    OneOwnerStep(s, op);
    if !op.Call? {
      assert ThreadInv(s, s.threads[op.t]);
    }
    var s' := Step(s, op);
    forall t | 0 <= t < |s'.threads| ensures ThreadInv(s', s'.threads[t]) {
      ThreadStep(s, op, t);
    }
  }

  /** No thread is left on a path that the step has overtaken. */
  lemma {:induction false} ThreadStep(s: State, op: Op, t: ThreadId)
    requires Inv(s) && Enabled(s, op) && t < |Step(s, op).threads|
    ensures ThreadInv(Step(s, op), Step(s, op).threads[t])
  {
    if t < |s.threads| {
      assert ThreadInv(s, s.threads[t]);
      if op.Build? || op.Store? {
        assert ThreadInv(s, s.threads[op.t]);
        assert t != op.t ==> !Owns(s.threads[t]);
      }
    }
  }

  lemma {:induction false} OwnerStep(s: State, op: Op)
    requires Inv(s) && Enabled(s, op) && |Step(s, op).history| == 2
    ensures exists t :: 0 <= t < |Step(s, op).threads| && Owns(Step(s, op).threads[t])
  {
    var s' := Step(s, op);
    if |s.history| == 2 {
      var o :| 0 <= o < |s.threads| && Owns(s.threads[o]);
      assert Owns(s'.threads[o]);
    } else {
      assert Owns(s'.threads[op.t]);
    }
  }

  lemma {:induction false} OneOwnerStep(s: State, op: Op)
    requires Inv(s) && Enabled(s, op)
    ensures OneOwner(Step(s, op).threads)
  {
    if op.ClaimWin? {
      forall t | 0 <= t < |s.threads| ensures !Owns(s.threads[t]) {
        assert ThreadInv(s, s.threads[t]);
      }
    }
  }

  // ---------- Every run ----------

  ghost predicate IsRun(states: seq<State>, ops: seq<Op>) {
    && |states| == |ops| + 1
    && Inv(states[0])
    && forall k :: 0 <= k < |ops| ==> Enabled(states[k], ops[k]) && states[k + 1] == Step(states[k], ops[k])
  }

  lemma {:induction false} StartInv()
    ensures Inv(Start())
  {
  }

  lemma {:induction false} RunInv(states: seq<State>, ops: seq<Op>, k: nat)
    requires IsRun(states, ops) && k <= |ops|
    ensures Inv(states[k])
  {
    if k > 0 {
      RunInv(states, ops, k - 1);
      InvStep(states[k - 1], ops[k - 1]);
    }
  }

  lemma {:induction false} HistoryGrows(states: seq<State>, ops: seq<Op>, i: nat, j: nat)
    requires IsRun(states, ops) && i <= j <= |ops|
    ensures states[i].history <= states[j].history && states[i].creations <= states[j].creations
  {
    if i < j {
      HistoryGrows(states, ops, i, j - 1);
    }
  }

  /** The word moves from 0 to "creating" to one pointer and nowhere else, and the creator runs once
      at most, and has run whenever the pointer is there. */
  lemma {:induction false} WordMovesOnce(states: seq<State>, ops: seq<Op>, k: nat)
    requires IsRun(states, ops) && k <= |ops| && states[0] == Start()
    ensures var h := states[k].history;
            && 1 <= |h| <= 3 && h[0].value == 0 && (|h| >= 2 ==> h[1].value == CREATING)
            && (|h| == 3 ==> h[2].value != 0 && h[2].value != CREATING)
            && states[k].creations <= 1 && (|h| == 3 ==> states[k].creations == 1)
  {
    RunInv(states, ops, k);
    if |states[k].history| == 2 {
      var o :| 0 <= o < |states[k].threads| && Owns(states[k].threads[o]);
      assert ThreadInv(states[k], states[k].threads[o]);
    }
  }

  /** Whatever threads return, at whatever moments: one pointer, not 0 and not "creating", to an
      object whose construction each of them sees finished. */
  lemma {:induction false} AllReturnTheSame(states: seq<State>, ops: seq<Op>, i: nat, t: ThreadId, j: nat, u: ThreadId)
    requires IsRun(states, ops) && i <= j <= |ops|
    requires t < |states[i].threads| && states[i].threads[t].pc.Done?
    requires u < |states[j].threads| && states[j].threads[u].pc.Done?
    ensures var p := states[i].threads[t].pc.result;
            && p == states[j].threads[u].pc.result && p != 0 && p != CREATING
            && states[i].threads[t].sees && states[j].threads[u].sees
  {
    RunInv(states, ops, i);
    RunInv(states, ops, j);
    assert ThreadInv(states[i], states[i].threads[t]) && ThreadInv(states[j], states[j].threads[u]);
    HistoryGrows(states, ops, i, j);
  }

  predicate Reads(op: Op) {
    op.Load? || op.ClaimLose? || op.Spin? || op.LoadAgain?
  }

  /** A thread's reads follow the order in which the word changed, and none is older than its own store. */
  lemma {:induction false} ReadsFollowChanges(states: seq<State>, ops: seq<Op>, i: nat, j: nat)
    requires IsRun(states, ops) && i < j < |ops| && Reads(ops[j]) && !ops[i].Call? && ops[i].t == ops[j].t
    ensures Reads(ops[i]) ==> ops[i].at <= ops[j].at
    ensures ops[i].ClaimWin? || ops[i].Store? ==> |states[i].history| <= ops[j].at
  {
    SeenGrows(states, ops, i + 1, j, ops[i].t);
  }

  lemma {:induction false} SeenGrows(states: seq<State>, ops: seq<Op>, i: nat, j: nat, t: ThreadId)
    requires IsRun(states, ops) && i <= j <= |ops| && t < |states[i].threads|
    ensures t < |states[j].threads| && states[i].threads[t].seen <= states[j].threads[t].seen
  {
    if i < j {
      SeenGrows(states, ops, i, j - 1, t);
      RunInv(states, ops, j - 1);
      SeenStep(states[j - 1], ops[j - 1], t);
    }
  }

  lemma {:induction false} SeenStep(s: State, op: Op, t: ThreadId)
    requires Inv(s) && Enabled(s, op) && t < |s.threads|
    ensures t < |Step(s, op).threads| && s.threads[t].seen <= Step(s, op).threads[t].seen
  {
    assert ThreadInv(s, s.threads[t]);
  }

  // ---------- Whose pointer it is ----------

  /** What a thread is about to store, or has stored, is what the creator gave it. */
  ghost predicate BuiltBy(ops: seq<Op>, k: nat, p: Word) {
    exists m :: 0 <= m < k <= |ops| && ops[m].Build? && ops[m].instance == p
  }

  lemma {:induction false} StoredWasBuilt(states: seq<State>, ops: seq<Op>, k: nat)
    requires IsRun(states, ops) && k <= |ops| && states[0] == Start()
    ensures forall t :: 0 <= t < |states[k].threads| && states[k].threads[t].pc.Publish? ==>
              BuiltBy(ops, k, states[k].threads[t].pc.instance)
    ensures |states[k].history| == 3 ==> BuiltBy(ops, k, states[k].history[2].value)
  {
    if k > 0 {
      StoredWasBuilt(states, ops, k - 1);
      RunInv(states, ops, k - 1);
      var s, op, s' := states[k - 1], ops[k - 1], states[k];
      forall t | 0 <= t < |s'.threads| && s'.threads[t].pc.Publish?
        ensures BuiltBy(ops, k, s'.threads[t].pc.instance)
      {
        if t < |s.threads| && s.threads[t].pc == s'.threads[t].pc {
          BuiltLater(ops, k - 1, s'.threads[t].pc.instance);
        } else {
          assert op == Build(t, s'.threads[t].pc.instance);
        }
      }
      if |s'.history| == 3 {
        if |s.history| == 2 {
          assert ThreadInv(s, s.threads[op.t]);
        }
        BuiltLater(ops, k - 1, s'.history[2].value);
      }
    }
  }

  lemma {:induction false} BuiltLater(ops: seq<Op>, k: nat, p: Word)
    requires BuiltBy(ops, k, p) && k < |ops|
    ensures BuiltBy(ops, k + 1, p)
  {
    var m :| 0 <= m < k <= |ops| && ops[m].Build? && ops[m].instance == p;
  }

  /** The creator is run once at most in the whole run. */
  lemma {:induction false} BuildsOnce(states: seq<State>, ops: seq<Op>, i: nat, j: nat)
    requires IsRun(states, ops) && i < |ops| && j < |ops| && ops[i].Build? && ops[j].Build?
    ensures i == j
  {
    var a, b := if i < j then i else j, if i < j then j else i;
    RunInv(states, ops, a);
    RunInv(states, ops, b);
    BuildIsFirst(states[a], ops[a]);
    BuildIsFirst(states[b], ops[b]);
    if a < b {
      HistoryGrows(states, ops, a + 1, b);
    }
  }

  lemma {:induction false} BuildIsFirst(s: State, op: Op)
    requires Inv(s) && Enabled(s, op) && op.Build?
    ensures s.creations == 0 && Step(s, op).creations == 1
  {
    assert ThreadInv(s, s.threads[op.t]);
  }

  /** What a thread returns is the pointer that the creator made, in the only call of the creator. */
  lemma {:induction false} ReturnsWhatWasCreated(states: seq<State>, ops: seq<Op>, k: nat, t: ThreadId)
    requires IsRun(states, ops) && k <= |ops| && states[0] == Start()
    requires t < |states[k].threads| && states[k].threads[t].pc.Done?
    ensures exists m :: 0 <= m < k && ops[m].Build? && ops[m].instance == states[k].threads[t].pc.result
              && forall i :: 0 <= i < |ops| && ops[i].Build? ==> i == m
  {
    var r := states[k].threads[t].pc.result;
    RunInv(states, ops, k);
    assert ThreadInv(states[k], states[k].threads[t]);
    StoredWasBuilt(states, ops, k);
    var m :| 0 <= m < k <= |ops| && ops[m].Build? && ops[m].instance == r;
    forall i | 0 <= i < |ops| && ops[i].Build? ensures i == m {
      BuildsOnce(states, ops, i, m);
    }
  }

  /** The fast path: a thread whose first load finds the instance returns it at once; any other goes on
      to claim the word, and returns nothing before. */
  lemma {:induction false} FastPath(states: seq<State>, ops: seq<Op>, k: nat)
    requires IsRun(states, ops) && k < |ops| && ops[k].Load?
    ensures var th := states[k + 1].threads[ops[k].t];
            if ops[k].at == 2 then th.pc.Done? && th.pc.result == states[k].history[2].value else th.pc.Claim?
  {
    RunInv(states, ops, k);
  }

  /** While a thread waits, the instance is stored or exactly one other thread is creating it. */
  lemma {:induction false} WaitingHasCreator(states: seq<State>, ops: seq<Op>, k: nat, t: ThreadId)
    requires IsRun(states, ops) && k <= |ops| && InState(states[k], t, Wait)
    ensures var s := states[k];
            || |s.history| == 3
            || exists o :: 0 <= o < |s.threads| && o != t && Owns(s.threads[o])
                 && forall u :: 0 <= u < |s.threads| && Owns(s.threads[u]) ==> u == o
  {
    RunInv(states, ops, k);
    var s := states[k];
    assert ThreadInv(s, s.threads[t]);
    if |s.history| == 2 {
      var o :| 0 <= o < |s.threads| && Owns(s.threads[o]);
    }
  }

  /** IsCreated(), a relaxed load: once it has answered true for a value, it answers true for that
      value and every newer one, so no thread ever sees it turn back. It is also true while the
      instance is still being created. */
  lemma {:induction false} IsCreatedMonotone(states: seq<State>, ops: seq<Op>, i: nat, j: nat, a: nat, b: nat)
    requires IsRun(states, ops) && i <= j <= |ops|
    requires a < |states[i].history| && a <= b < |states[j].history| && states[i].history[a].value != 0
    ensures states[j].history[b].value != 0
  {
    RunInv(states, ops, j);
    HistoryGrows(states, ops, i, j);
  }

  // ---------- Never stuck ----------

  function Rank(th: Thread): nat {
    match th.pc
    case FastLoad => 6
    case Claim => 5
    case Create => 4
    case Publish(_) => 3
    case Wait => 2
    case Reload => 1
    case Done(_) => 0
  }

  /** The work that the threads have left. */
  function Work(threads: seq<Thread>): nat {
    if threads == [] then 0 else Rank(threads[0]) + Work(threads[1..])
  }

  lemma {:induction false} WorkUpdate(threads: seq<Thread>, t: nat, th: Thread)
    requires t < |threads|
    ensures Work(threads[t := th]) == Work(threads) - Rank(threads[t]) + Rank(th)
  {
    if t == 0 {
      assert threads[t := th][1..] == threads[1..];
    } else {
      assert threads[t := th][1..] == threads[1..][t - 1 := th];
      WorkUpdate(threads[1..], t - 1, th);
    }
  }

  /** No step of a thread makes work, and only a turn of the waiting loop may leave it as it is. */
  lemma {:induction false} WorkStep(s: State, op: Op)
    requires Enabled(s, op) && !op.Call?
    ensures Work(Step(s, op).threads) <= Work(s.threads)
    ensures !op.Spin? ==> Work(Step(s, op).threads) < Work(s.threads)
  {
    WorkUpdate(s.threads, op.t, Step(s, op).threads[op.t]);
  }

  ghost predicate AllDone(s: State) {
    forall t :: 0 <= t < |s.threads| ==> s.threads[t].pc.Done?
  }

  /** As long as some thread has not returned, some thread has a step that leaves less work. */
  lemma {:induction false} ProgressStep(s: State) returns (op: Op)
    requires Inv(s) && !AllDone(s)
    ensures Enabled(s, op) && !op.Call? && Work(Step(s, op).threads) < Work(s.threads)
  {
    if |s.history| == 2 {
      var o :| 0 <= o < |s.threads| && Owns(s.threads[o]);
      op := if s.threads[o].pc.Create? then Build(o, 2) else Store(o);
      WorkStep(s, op);
    } else {
      var t :| 0 <= t < |s.threads| && !s.threads[t].pc.Done?;
      op := NextOf(s, t);
    }
  }

  /** With nobody creating, every thread that has not returned can go on, reading the newest value. */
  lemma {:induction false} NextOf(s: State, t: ThreadId) returns (op: Op)
    requires Inv(s) && |s.history| != 2 && t < |s.threads| && !s.threads[t].pc.Done?
    ensures Enabled(s, op) && !op.Call? && Work(Step(s, op).threads) < Work(s.threads)
  {
    assert ThreadInv(s, s.threads[t]);
    var n := |s.history| - 1;
    match s.threads[t].pc
    case FastLoad => op := Load(t, n); WorkStep(s, op);
    case Claim => op := if n == 0 then ClaimWin(t) else ClaimLose(t, n); WorkStep(s, op);
    case Wait => op := Spin(t, n); WorkUpdate(s.threads, t, Step(s, op).threads[t]);
    case Reload => op := LoadAgain(t, n); WorkStep(s, op);
  }

  /** From every reachable state there is a way for all threads to return, without new calls. */
  lemma {:induction false} CanFinish(s: State) returns (states: seq<State>, ops: seq<Op>)
    requires Inv(s)
    ensures IsRun(states, ops) && states[0] == s && AllDone(states[|ops|])
    ensures forall k :: 0 <= k < |ops| ==> !ops[k].Call?
    decreases Work(s.threads)
  {
    if AllDone(s) {
      states, ops := [s], [];
    } else {
      var op := ProgressStep(s);
      InvStep(s, op);
      var rest, more := CanFinish(Step(s, op));
      states, ops := [s] + rest, [op] + more;
      forall k | 0 <= k < |ops| ensures Enabled(states[k], ops[k]) && states[k + 1] == Step(states[k], ops[k]) {
        if k > 0 {
          assert states[k] == rest[k - 1] && states[k + 1] == rest[k] && ops[k] == more[k - 1];
        }
      }
    }
  }
}
