/** AtomicRefCount shared by any number of threads, in any interleaving of its atomic operations. A
    thread uses the object, increments and decrements only while it holds a reference, and may pass
    one on. The counter is a 32-bit word that wraps around.

    The word is modelled by its modification order: every value ever stored, oldest first. A load may
    return any value not older than what its thread has already seen; increments and decrements read
    the newest. With each value goes the set of writes to the object that a thread acquiring it
    thereby sees: a decrement acquires that set and adds its thread's own (acquire and release), an
    increment passes it on without joining it (relaxed), a load of IsOne() acquires it. Passing a
    reference to another thread also makes known to it what the giver knows. */
module AtomicRefCount {
  type ThreadId = nat
  type WriteId = nat

  const MODULUS := 0x1_0000_0000
  const MAX_INT := 0x7fff_ffff

  /** A stored word, with how often it has wrapped around. */
  datatype Msg = Msg(word: int, laps: int, view: set<WriteId>)

  /** The number of references at that moment. */
  function Refs(m: Msg): int {
    m.word + m.laps * MODULUS
  }

  /** What is stored when the word is changed by no more than an int can hold. */
  function Stored(word: int, laps: int, view: set<WriteId>): Msg {
    if word >= MODULUS then Msg(word - MODULUS, laps + 1, view)
    else if word < 0 then Msg(word + MODULUS, laps - 1, view)
    else Msg(word, laps, view)
  }

  /** How many references a thread holds, the newest value it knows of and the writes it sees. */
  datatype Thread = Thread(holds: nat, seen: nat, view: set<WriteId>)

  /** `writes` counts the writes made to the object so far. */
  datatype State = State(history: seq<Msg>, threads: seq<Thread>, writes: nat)

  datatype Op =
    | Increment(t: ThreadId, n: nat) | Decrement(t: ThreadId)
    | Pass(t: ThreadId, to: ThreadId) | IsOne(t: ThreadId, at: nat) | Write(t: ThreadId)

  predicate Enabled(s: State, op: Op) {
    && s.history != [] && op.t < |s.threads| && s.threads[op.t].holds > 0
    && (op.Increment? ==> 0 < op.n <= MAX_INT)
    && (op.Pass? ==> op.to < |s.threads|)
    && (op.IsOne? ==> s.threads[op.t].seen <= op.at < |s.history|)
  }

  function Last(s: State): Msg
    requires s.history != []
  {
    s.history[|s.history| - 1]
  }

  function Put(s: State, t: ThreadId, th: Thread): State
    requires t < |s.threads|
  {
    s.(threads := s.threads[t := th])
  }

  function Received(giver: Thread, th: Thread): Thread {
    Thread(th.holds + 1, if giver.seen > th.seen then giver.seen else th.seen, th.view + giver.view)
  }

  function Step(s: State, op: Op): State
    requires Enabled(s, op)
  {
    var th, last := s.threads[op.t], Last(s);
    match op
    case Increment(t, n) =>
      Put(s, t, th.(holds := th.holds + n, seen := |s.history|))
        .(history := s.history + [Stored(last.word + n, last.laps, last.view)])
    case Decrement(t) =>
      var view := th.view + last.view;
      Put(s, t, Thread(th.holds - 1, |s.history|, view))
        .(history := s.history + [Stored(last.word - 1, last.laps, view)])
    case Pass(t, to) =>
      if t == to then s
      else Put(Put(s, t, th.(holds := th.holds - 1)), to, Received(th, s.threads[to]))
    case IsOne(t, at) => Put(s, t, th.(seen := at, view := th.view + s.history[at].view))
    case Write(t) => Put(s, t, th.(view := th.view + {s.writes})).(writes := s.writes + 1)
  }

  /** `fetch_sub(1) != 1` is false: the caller is told that it dropped the last reference. */
  predicate DroppedLast(s: State, op: Op)
    requires Enabled(s, op)
  {
    op.Decrement? && Last(s).word == 1
  }

  /** `IsOne()` answers true. */
  predicate SawOne(s: State, op: Op)
    requires Enabled(s, op)
  {
    op.IsOne? && s.history[op.at].word == 1
  }

  function Total(threads: seq<Thread>): nat {
    if threads == [] then 0 else threads[0].holds + Total(threads[1..])
  }

  /** The references held by threads that know of nothing newer than entry `p`. */
  function HeldBy(threads: seq<Thread>, p: nat): nat {
    if threads == [] then 0 else Counted(threads[0], p) + HeldBy(threads[1..], p)
  }

  function Counted(th: Thread, p: nat): nat {
    if th.seen <= p then th.holds else 0
  }

  // ---------- Sums ----------

  lemma {:induction false} SumUpdate(threads: seq<Thread>, t: nat, th: Thread, p: nat)
    requires t < |threads|
    ensures Total(threads[t := th]) == Total(threads) - threads[t].holds + th.holds
    ensures HeldBy(threads[t := th], p) == HeldBy(threads, p) - Counted(threads[t], p) + Counted(th, p)
  {
    if t == 0 {
      assert threads[t := th][1..] == threads[1..];
    } else {
      assert threads[t := th][1..] == threads[1..][t - 1 := th];
      SumUpdate(threads[1..], t - 1, th, p);
    }
  }

  lemma {:induction false} SumBounds(threads: seq<Thread>, t: nat, p: nat)
    requires t < |threads|
    ensures threads[t].holds <= Total(threads) && Counted(threads[t], p) <= HeldBy(threads, p)
    ensures Total(threads) == threads[t].holds ==> forall u :: 0 <= u < |threads| && u != t ==> threads[u].holds == 0
  {
    var none := threads[t := Thread(0, 0, {})];
    SumUpdate(threads, t, Thread(0, 0, {}), p);
    if Total(threads) == threads[t].holds {
      TotalZero(none);
      assert forall u :: 0 <= u < |threads| && u != t ==> threads[u] == none[u];
    }
  }

  lemma {:induction false} TotalZero(threads: seq<Thread>)
    ensures Total(threads) == 0 <==> forall u :: 0 <= u < |threads| ==> threads[u].holds == 0
  {
    if threads != [] {
      TotalZero(threads[1..]);
      assert forall u :: 1 <= u < |threads| ==> threads[u] == threads[1..][u - 1];
    }
  }

  lemma {:induction false} HeldByAll(threads: seq<Thread>, p: nat)
    requires forall u :: 0 <= u < |threads| ==> threads[u].seen <= p
    ensures HeldBy(threads, p) == Total(threads)
  {
    if threads != [] {
      assert forall u :: 0 <= u < |threads[1..]| ==> threads[1..][u] == threads[u + 1];
      HeldByAll(threads[1..], p);
    }
  }

  // ---------- Invariant ----------

  ghost predicate Known(s: State, w: WriteId)
    requires s.history != []
  {
    w in Last(s).view || exists t :: 0 <= t < |s.threads| && Carries(s.threads[t], w)
  }

  predicate Sees(th: Thread, w: WriteId) {
    w in th.view
  }

  ghost predicate SeesAll(th: Thread, writes: nat) {
    forall w :: 0 <= w < writes ==> Sees(th, w)
  }

  predicate Carries(th: Thread, w: WriteId) {
    th.holds > 0 && Sees(th, w)
  }

  /** An entry that was overwritten: its references were not all held by threads that missed that. */
  ghost predicate EntryInv(s: State, p: nat)
    requires p < |s.history|
  {
    && 0 <= s.history[p].word < MODULUS && s.history[p].laps >= 0
    && (p < |s.history| - 1 ==> HeldBy(s.threads, p) < Refs(s.history[p]))
  }

  ghost predicate Inv(s: State) {
    && s.history != [] && Refs(Last(s)) == Total(s.threads)
    && (forall p :: 0 <= p < |s.history| ==> EntryInv(s, p))
    && (forall t :: 0 <= t < |s.threads| ==> s.threads[t].seen < |s.history|)
    && (forall w :: 0 <= w < s.writes ==> Known(s, w))
  }

  /** How each operation moves the number of references. */
  lemma {:induction false} TotalStep(s: State, op: Op)
    requires Enabled(s, op)
    ensures var a, b := Total(s.threads), Total(Step(s, op).threads);
            match op
            case Increment(_, n) => b == a + n
            case Decrement(_) => b == a - 1
            case _ => b == a
  {
    SumStep(s, op, 0);
  }

  /** No operation moves references to threads that have missed more, and one that changes the word
      takes its own thread's references out of every older entry's account. */
  lemma {:induction false} SumStep(s: State, op: Op, p: nat)
    requires Enabled(s, op)
    ensures var a, b := Total(s.threads), Total(Step(s, op).threads);
            match op
            case Increment(_, n) => b == a + n
            case Decrement(_) => b == a - 1
            case _ => b == a
    ensures var out := if op.Increment? || op.Decrement? then Counted(s.threads[op.t], p) else 0;
            p < |s.history| ==> HeldBy(Step(s, op).threads, p) <= HeldBy(s.threads, p) - out
  {
    var t := op.t;
    var s' := Step(s, op);
    if op.Pass? {
      if t != op.to {
        var less := s.threads[t].(holds := s.threads[t].holds - 1);
        SumUpdate(s.threads, t, less, p);
        SumUpdate(s.threads[t := less], op.to, Received(s.threads[t], s.threads[op.to]), p);
      }
    } else {
      SumUpdate(s.threads, t, s'.threads[t], p);
    }
  }

  lemma {:induction false} EntryStep(s: State, op: Op, p: nat)
    requires Inv(s) && Enabled(s, op) && p < |s.history|
    ensures EntryInv(Step(s, op), p)
  {
    SumStep(s, op, p);
    SumBounds(s.threads, op.t, p);
    assert EntryInv(s, p);
    if p == |s.history| - 1 {
      HeldByAll(s.threads, p);
    }
  }

  lemma {:induction false} NewEntry(s: State, op: Op)
    requires Inv(s) && Enabled(s, op) && (op.Increment? || op.Decrement?)
    ensures EntryInv(Step(s, op), |s.history|)
  {
    assert EntryInv(s, |s.history| - 1);
    SumBounds(s.threads, op.t, 0);
  }

  lemma {:induction false} KnownStep(s: State, op: Op, w: WriteId)
    requires Inv(s) && Enabled(s, op) && w < Step(s, op).writes
    ensures Known(Step(s, op), w)
  {
    var s' := Step(s, op);
    if w == s.writes {
      assert Carries(s'.threads[op.t], w);
    } else {
      assert Known(s, w);
      if w !in Last(s).view {
        var t :| 0 <= t < |s.threads| && Carries(s.threads[t], w);
        if op.Pass? && t == op.t {
          assert Carries(s'.threads[op.to], w);
        } else if !(op.Decrement? && t == op.t) {
          assert Carries(s'.threads[t], w);
        }
      }
    }
  }

  lemma {:induction false} InvStep(s: State, op: Op)
    requires Inv(s) && Enabled(s, op)
    ensures Inv(Step(s, op))
  {
    TotalStep(s, op);
    var s' := Step(s, op);
    forall p | 0 <= p < |s'.history| ensures EntryInv(s', p) {
      if p < |s.history| {
        EntryStep(s, op, p);
      } else {
        NewEntry(s, op);
      }
    }
    forall w | 0 <= w < s'.writes ensures Known(s', w) {
      KnownStep(s, op, w);
    }
  }

  ghost predicate IsRun(states: seq<State>, ops: seq<Op>) {
    && |states| == |ops| + 1
    && Inv(states[0])
    && forall k :: 0 <= k < |ops| ==> Enabled(states[k], ops[k]) && states[k + 1] == Step(states[k], ops[k])
  }

  function Holders(holds: seq<nat>): seq<Thread> {
    seq(|holds|, i requires 0 <= i < |holds| => Thread(holds[i], 0, {}))
  }

  /** A counter constructed with the number of references that the threads hold, an int. */
  function Start(holds: seq<nat>): State
    requires Total(Holders(holds)) <= MAX_INT
  {
    State([Msg(Total(Holders(holds)), 0, {})], Holders(holds), 0)
  }

  lemma {:induction false} StartInv(holds: seq<nat>)
    requires Total(Holders(holds)) <= MAX_INT
    ensures Inv(Start(holds)) && Dated(Start(holds))
  {
  }

  lemma {:induction false} RunInv(states: seq<State>, ops: seq<Op>, k: nat)
    requires IsRun(states, ops) && k <= |ops|
    ensures Inv(states[k])
  {
    if k > 0 {
      RunInv(states, ops, k - 1);
      InvStep(states[k - 1], ops[k - 1]);
    }
  }

  // ---------- The last reference ----------

  /** A decrement reports the last reference, given that it reports it at all, correctly if and only if
      there are no more references than the word can count. */
  lemma {:induction false} ReportIsRightIffCountable(s: State, op: Op)
    requires Inv(s) && Enabled(s, op) && DroppedLast(s, op)
    ensures Total(Step(s, op).threads) == 0 <==> Total(s.threads) <= MODULUS
  {
    TotalStep(s, op);
    SumBounds(s.threads, op.t, 0);
    assert EntryInv(s, |s.history| - 1);
  }

  /** A run of a counter constructed for one reference, in which the decrement at `k` reports the last
      reference while 2^32 are still held. */
  ghost predicate ReportsTooEarly(states: seq<State>, ops: seq<Op>, k: nat) {
    && IsRun(states, ops) && Total(Holders([1])) <= MAX_INT && states[0] == Start([1])
    && k < |ops| && DroppedLast(states[k], ops[k]) && Total(states[k + 1].threads) == MODULUS
  }

  /** Such a run exists. */
  lemma {:induction false} WrapReportsTooEarly()
    ensures exists states: seq<State>, ops: seq<Op>, k: nat :: ReportsTooEarly(states, ops, k)
  {
    assert Total(Holders([1])) == 1 + Total(Holders([1])[1..]);
    var s0 := Start([1]);
    StartInv([1]);
    var big, two, drop := Increment(0, MAX_INT), Increment(0, 2), Decrement(0);
    var s1 := Step(s0, big);
    var s2 := Step(s1, big);
    var s3 := Step(s2, two);
    TotalStep(s0, big);
    TotalStep(s1, big);
    TotalStep(s2, two);
    TotalStep(s3, drop);
    var states, ops := [s0, s1, s2, s3, Step(s3, drop)], [big, big, two, drop];
    assert ReportsTooEarly(states, ops, 3);
  }

  /** There never were more references than the word can count. */
  ghost predicate Countable(states: seq<State>) {
    forall k :: 0 <= k < |states| ==> Fits(states[k])
  }

  ghost predicate Fits(s: State) {
    forall p :: 0 <= p < |s.history| ==> Refs(s.history[p]) <= MODULUS
  }

  lemma {:induction false} LastMeansNone(states: seq<State>, ops: seq<Op>, k: nat)
    requires IsRun(states, ops) && Countable(states) && k < |ops| && DroppedLast(states[k], ops[k])
    ensures Total(states[k + 1].threads) == 0
  {
    RunInv(states, ops, k);
    assert Fits(states[k]);
    ReportIsRightIffCountable(states[k], ops[k]);
  }

  /** The decrement that reports the last reference is the last operation of the run: nobody is left
      that could count, pass a reference or look. So no second one reports it. */
  lemma {:induction false} ReportIsFinal(states: seq<State>, ops: seq<Op>, k: nat)
    requires IsRun(states, ops) && Countable(states) && k < |ops| && DroppedLast(states[k], ops[k])
    ensures k == |ops| - 1
  {
    LastMeansNone(states, ops, k);
    TotalZero(states[k + 1].threads);
  }

  /** Once all references are gone, exactly one decrement has reported the last one. */
  lemma {:induction false} ExactlyOneReports(states: seq<State>, ops: seq<Op>)
    requires IsRun(states, ops) && Countable(states)
    requires Total(states[0].threads) > 0 && Total(states[|ops|].threads) == 0
    ensures exists k :: 0 <= k < |ops| && DroppedLast(states[k], ops[k])
              && forall j :: 0 <= j < |ops| && DroppedLast(states[j], ops[j]) ==> j == k
  {
    var k := |ops| - 1;
    RunInv(states, ops, k);
    TotalStep(states[k], ops[k]);
    SumBounds(states[k].threads, ops[k].t, 0);
    assert EntryInv(states[k], |states[k].history| - 1);
    assert DroppedLast(states[k], ops[k]);
    forall j | 0 <= j < |ops| && DroppedLast(states[j], ops[j]) ensures j == k {
      ReportIsFinal(states, ops, j);
    }
  }

  /** The decrement that drops the last reference sees every write ever made to the object. */
  lemma {:induction false} LastSeesAllWrites(states: seq<State>, ops: seq<Op>, k: nat)
    requires IsRun(states, ops) && Countable(states) && k < |ops| && DroppedLast(states[k], ops[k])
    ensures SeesAll(states[k + 1].threads[ops[k].t], states[k].writes)
  {
    var s, t := states[k], ops[k].t;
    RunInv(states, ops, k);
    LastMeansNone(states, ops, k);
    TotalStep(s, ops[k]);
    SumBounds(s.threads, t, 0);
    var th := states[k + 1].threads[t];
    forall w | 0 <= w < s.writes ensures Sees(th, w) {
      assert Known(s, w);
    }
  }

  /** Entries with one reference are never overwritten behind the back of a holder. */
  lemma {:induction false} OneIsNewest(s: State, op: Op)
    requires Inv(s) && Enabled(s, op) && SawOne(s, op) && Fits(s)
    ensures op.at == |s.history| - 1 && Refs(Last(s)) == 1
  {
    assert EntryInv(s, op.at);
    SumBounds(s.threads, op.t, op.at);
  }

  /** `IsOne()`, reading the newest value, answers true if and only if there is one reference: the only
      holder is told so. And a decrement reports the last reference if and only if none is left. */
  lemma {:induction false} AnswersAreRight(states: seq<State>, ops: seq<Op>, k: nat)
    requires IsRun(states, ops) && Countable(states) && k < |ops|
    ensures ops[k].IsOne? && ops[k].at == |states[k].history| - 1 ==>
              (SawOne(states[k], ops[k]) <==> Total(states[k].threads) == 1)
    ensures ops[k].Decrement? ==> (DroppedLast(states[k], ops[k]) <==> Total(states[k + 1].threads) == 0)
  {
    var s := states[k];
    RunInv(states, ops, k);
    assert Fits(s);
    assert EntryInv(s, |s.history| - 1);
    TotalStep(s, ops[k]);
    SumBounds(s.threads, ops[k].t, 0);
  }

  /** A holder that reads a count of one, even from a load that could be stale, holds the only
      reference, and sees every write made to the object. */
  lemma {:induction false} OneMeansExclusive(states: seq<State>, ops: seq<Op>, k: nat)
    requires IsRun(states, ops) && Countable(states) && k < |ops| && SawOne(states[k], ops[k])
    ensures states[k].threads[ops[k].t].holds == 1
    ensures forall u :: 0 <= u < |states[k].threads| && u != ops[k].t ==> states[k].threads[u].holds == 0
    ensures SeesAll(states[k + 1].threads[ops[k].t], states[k].writes)
  {
    var s, t, p := states[k], ops[k].t, ops[k].at;
    RunInv(states, ops, k);
    assert Fits(s);
    OneIsNewest(s, ops[k]);
    SumBounds(s.threads, t, p);
    var th := states[k + 1].threads[t];
    forall w | 0 <= w < s.writes ensures Sees(th, w) {
      assert Known(s, w);
    }
  }

  /** A thread's loads follow the order in which the word changed, and none reads a value older than the
      thread's own last change. */
  lemma {:induction false} LoadsFollowChanges(states: seq<State>, ops: seq<Op>, i: nat, j: nat)
    requires IsRun(states, ops) && i < j < |ops| && ops[j].IsOne? && ops[i].t == ops[j].t
    ensures ops[i].IsOne? ==> ops[i].at <= ops[j].at
    ensures ops[i].Increment? || ops[i].Decrement? ==> |states[i].history| <= ops[j].at
  {
    SeenGrows(states, ops, i + 1, j, ops[i].t);
  }

  lemma {:induction false} SeenGrows(states: seq<State>, ops: seq<Op>, i: nat, j: nat, t: ThreadId)
    requires IsRun(states, ops) && i <= j <= |ops| && t < |states[i].threads|
    ensures t < |states[j].threads| && states[i].threads[t].seen <= states[j].threads[t].seen
  {
    if i < j {
      SeenGrows(states, ops, i, j - 1, t);
      RunInv(states, ops, j - 1);
      SeenStep(states[j - 1], ops[j - 1], t);
    }
  }

  lemma {:induction false} SeenStep(s: State, op: Op, t: ThreadId)
    requires Inv(s) && Enabled(s, op) && t < |s.threads|
    ensures t < |Step(s, op).threads| && s.threads[t].seen <= Step(s, op).threads[t].seen
  {
    assert s.threads[t].seen < |s.history|;
  }

  // ---------- How knowledge of a write travels ----------

  /** Writes are numbered in order, and nobody sees one that was not made yet. */
  ghost predicate Dated(s: State) {
    && (forall p, w :: 0 <= p < |s.history| && w in s.history[p].view ==> w < s.writes)
    && (forall t, w :: 0 <= t < |s.threads| && w in s.threads[t].view ==> w < s.writes)
  }

  lemma {:induction false} DatedRun(states: seq<State>, ops: seq<Op>, k: nat)
    requires IsRun(states, ops) && Dated(states[0]) && k <= |ops|
    ensures Dated(states[k])
  {
    if k > 0 {
      DatedRun(states, ops, k - 1);
    }
  }

  /** Only thread `u` sees the write, and no entry of the counter carries it. */
  ghost predicate Private(s: State, w: WriteId, u: ThreadId) {
    && (forall p :: 0 <= p < |s.history| ==> w !in s.history[p].view)
    && (forall t :: 0 <= t < |s.threads| && t != u ==> !Sees(s.threads[t], w))
  }

  /** The operation tells others of the write. */
  predicate Tells(s: State, op: Op, w: WriteId)
    requires Enabled(s, op)
  {
    (op.Decrement? || op.Pass?) && Sees(s.threads[op.t], w)
  }

  lemma {:induction false} PrivateStays(states: seq<State>, ops: seq<Op>, i: nat, k: nat, w: WriteId, u: ThreadId)
    requires IsRun(states, ops) && Dated(states[0]) && i <= k <= |ops|
    requires w < states[i].writes && Private(states[i], w, u)
    requires forall m :: i <= m < k ==> !Tells(states[m], ops[m], w)
    ensures w < states[k].writes && Private(states[k], w, u)
  {
    if i < k {
      PrivateStays(states, ops, i, k - 1, w, u);
      PrivateStep(states[k - 1], ops[k - 1], w, u);
    }
  }

  lemma {:induction false} PrivateStep(s: State, op: Op, w: WriteId, u: ThreadId)
    requires Enabled(s, op) && w < s.writes && Private(s, w, u) && !Tells(s, op, w)
    ensures w < Step(s, op).writes && Private(Step(s, op), w, u)
  {
  }

  /** A write is new: nobody has seen it before, and right after it only its thread does. */
  lemma {:induction false} WriteIsNew(states: seq<State>, ops: seq<Op>, i: nat)
    requires IsRun(states, ops) && Dated(states[0]) && i < |ops| && ops[i].Write?
    ensures Private(states[i + 1], states[i].writes, ops[i].t)
    ensures !Sees(states[i].threads[ops[i].t], states[i].writes)
    ensures Sees(states[i + 1].threads[ops[i].t], states[i].writes)
  {
    DatedRun(states, ops, i);
  }

  /** Increments and loads tell nothing: another thread sees a write only after some thread that saw it
      has decremented the counter or passed a reference on. */
  lemma {:induction false} SeenOnlyOnceTold(states: seq<State>, ops: seq<Op>, i: nat, k: nat, t: ThreadId)
    requires IsRun(states, ops) && Dated(states[0]) && i < k <= |ops| && ops[i].Write?
    requires t < |states[k].threads| && t != ops[i].t && Sees(states[k].threads[t], states[i].writes)
    ensures exists m :: i < m < k && Tells(states[m], ops[m], states[i].writes)
  {
    var w := states[i].writes;
    WriteIsNew(states, ops, i);
    if forall m :: i < m < k ==> !Tells(states[m], ops[m], w) {
      PrivateStays(states, ops, i + 1, k, w, ops[i].t);
    }
  }

  /** The operation can make thread `t` see more. */
  predicate Learns(op: Op, t: ThreadId) {
    (op.t == t && (op.Decrement? || op.IsOne? || op.Write?)) || (op.Pass? && op.to == t)
  }

  /** A thread comes to see a write by making it, by a decrement or IsOne() of its own, or by being passed a
      reference: an increment acquires nothing. */
  lemma {:induction false} LearnsByAcquiring(
      states: seq<State>, ops: seq<Op>, i: nat, k: nat, t: ThreadId, w: WriteId)
    requires IsRun(states, ops) && i <= k <= |ops| && t < |states[i].threads| && !Sees(states[i].threads[t], w)
    ensures |states[k].threads| == |states[i].threads|
    ensures Sees(states[k].threads[t], w) ==> exists m :: i <= m < k && Learns(ops[m], t)
  {
    if i < k {
      LearnsByAcquiring(states, ops, i, k - 1, t, w);
      if Sees(states[k - 1].threads[t], w) {
        var m :| i <= m < k - 1 && Learns(ops[m], t);
      } else if Sees(states[k].threads[t], w) {
        assert Learns(ops[k - 1], t);
      }
    }
  }
}
