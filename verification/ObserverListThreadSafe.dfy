/** ObserverListThreadSafe as a protocol of steps: each section under the lock, each start and end of
    a dispatched callback, and each turn of the synchronous loop is one step, interleaved in any way
    over any number of sequences. Pending tasks may be run in any order. */
module ObserverListThreadSafe {
  import opened Options
  import ObserverListModel

  type Observer = ObserverListModel.Observer
  type Policy = ObserverListModel.Policy
  type SeqId = nat
  type Ticket = nat

  /** What the thread-local slot points to: a notification of this list or of another list. */
  datatype Note = Own(id: nat) | Foreign(list: nat)

  /** A task to notify one observer: waiting in its runner's queue, held in the local vector of
      NotifySynchronously(), let through by the locked check, started, or dropped by the check. */
  datatype Status = Queued | Held | Admitted | Delivered | Dropped
  datatype Post = Post(observer: Observer, note: nat, runner: SeqId, status: Status)

  /** A callback that was started. */
  datatype Delivery = Delivery(ticket: Ticket, observer: Observer, note: nat, on: SeqId)

  /** What is on a sequence's call stack: a callback being dispatched, with the slot's previous value;
      the loop of NotifySynchronously() with the tasks it has left; or NotifyWrapper() between its
      locked check and the callback. */
  datatype Frame = Dispatch(note: Note, saved: Option<Note>) | SyncLoop(tickets: seq<Ticket>) | Checked(ticket: Ticket)

  /** A sequence: its call stack and its thread-local slot. */
  datatype Sequence = Sequence(stack: seq<Frame>, slot: Option<Note>)

  /** `posts` never shrinks, so that a task is named by its index. */
  datatype State = State(
    policy: Policy, observers: map<Observer, SeqId>, posts: seq<Post>, log: seq<Delivery>,
    seqs: seq<Sequence>, nextNote: nat)

  /** `order` is the order in which the observer map happens to be traversed. */
  datatype Op =
    | Add(q: SeqId, o: Observer) | Remove(q: SeqId, o: Observer)
    | Notify(order: seq<Observer>) | NotifySync(q: SeqId, order: seq<Observer>)
    | RunTask(k: Ticket) | SyncNext(q: SeqId) | SyncEnd(q: SeqId)
    | Begin(q: SeqId) | EndDispatch(q: SeqId) | ForeignDispatch(q: SeqId, list: nat)

  ghost predicate Traversal(observers: map<Observer, SeqId>, order: seq<Observer>) {
    && (forall i, j :: 0 <= i < j < |order| ==> order[i] != order[j])
    && (forall o :: o in order <==> o in observers)
  }

  function Top(stack: seq<Frame>): Frame
    requires stack != []
  {
    stack[|stack| - 1]
  }

  function Below(stack: seq<Frame>): seq<Frame>
    requires stack != []
  {
    stack[..|stack| - 1]
  }

  /** Whether a sequence runs code outside the list: a task of its own or a dispatched callback. */
  predicate Free(stack: seq<Frame>) {
    stack != [] ==> Top(stack).Dispatch?
  }

  ghost predicate Enabled(s: State, op: Op) {
    match op
    case Add(q, o) => q < |s.seqs| && Free(s.seqs[q].stack) && o !in s.observers
    case Remove(q, _) => q < |s.seqs| && Free(s.seqs[q].stack)
    case Notify(order) => Traversal(s.observers, order)
    case NotifySync(q, order) => q < |s.seqs| && Free(s.seqs[q].stack) && Traversal(s.observers, order)
    case RunTask(k) =>
      && k < |s.posts| && s.posts[k].status == Queued
      && s.posts[k].runner < |s.seqs| && Free(s.seqs[s.posts[k].runner].stack)
    case SyncNext(q) =>
      q < |s.seqs| && s.seqs[q].stack != [] && Top(s.seqs[q].stack).SyncLoop? && Top(s.seqs[q].stack).tickets != []
      && Top(s.seqs[q].stack).tickets[0] < |s.posts|
    case SyncEnd(q) =>
      q < |s.seqs| && s.seqs[q].stack != [] && Top(s.seqs[q].stack).SyncLoop? && Top(s.seqs[q].stack).tickets == []
    case Begin(q) =>
      q < |s.seqs| && s.seqs[q].stack != [] && Top(s.seqs[q].stack).Checked? && Top(s.seqs[q].stack).ticket < |s.posts|
    case EndDispatch(q) => q < |s.seqs| && s.seqs[q].stack != [] && Top(s.seqs[q].stack).Dispatch?
    case ForeignDispatch(q, _) => q < |s.seqs| && Free(s.seqs[q].stack)
  }

  // ---------- The loops over the observer map ----------

  /** One task per observer; those of sequence `here` are kept back when the call is synchronous. */
  ghost function PostsFor(
      observers: map<Observer, SeqId>, order: seq<Observer>, note: nat, here: Option<SeqId>): (r: seq<Post>)
    requires forall o :: o in order ==> o in observers
    ensures |r| == |order|
    ensures forall i :: 0 <= i < |r| ==>
              var q := observers[order[i]]; r[i] == Post(order[i], note, q, if here == Some(q) then Held else Queued)
  {
    seq(|order|, i requires 0 <= i < |order| =>
      Post(order[i], note, observers[order[i]], if here == Some(observers[order[i]]) then Held else Queued))
  }

  /** The tickets, counted from `base`, of the tasks kept back. */
  function HeldTickets(posts: seq<Post>, base: Ticket): seq<Ticket> {
    if posts == [] then []
    else
      var n := |posts| - 1;
      HeldTickets(posts[..n], base) + if posts[n].status == Held then [base + n] else []
  }

  lemma {:induction false} HeldTicketsAreHeld(posts: seq<Post>, base: Ticket)
    ensures var r := HeldTickets(posts, base);
            && Increasing(r)
            && forall i :: 0 <= i < |r| ==> base <= r[i] < base + |posts| && posts[r[i] - base].status == Held
  {
    if posts != [] {
      var n := |posts| - 1;
      HeldTicketsAreHeld(posts[..n], base);
      var before, r := HeldTickets(posts[..n], base), HeldTickets(posts, base);
      assert |r| > |before| ==> r[|before|] == base + n;
      assert forall i :: 0 <= i < |before| ==> r[i] == before[i] && posts[..n][r[i] - base] == posts[r[i] - base];
    }
  }

  lemma {:induction false} HeldAppend(posts: seq<Post>, p: Post, base: Ticket)
    ensures HeldTickets(posts + [p], base) ==
            HeldTickets(posts, base) + if p.status == Held then [base + |posts|] else []
  {
    assert (posts + [p])[..|posts|] == posts;
  }

  predicate Increasing(r: seq<nat>) {
    forall i, j :: 0 <= i < j < |r| ==> r[i] < r[j]
  }

  /** The loop of NotifySynchronously(), and that of Notify() when `here` is `None`: a task for each
      observer, those of the calling sequence put aside in a local vector. */
  method TraverseObservers(
      observers: map<Observer, SeqId>, order: seq<Observer>, note: nat, here: Option<SeqId>, base: Ticket)
    returns (posts: seq<Post>, held: seq<Ticket>)
    requires forall o :: o in order ==> o in observers
    ensures posts == PostsFor(observers, order, note, here) && held == HeldTickets(posts, base)
  {
    posts, held := [], [];
    for i := 0 to |order|
      invariant posts == PostsFor(observers, order, note, here)[..i]
      invariant held == HeldTickets(posts, base)
    {
      var o := order[i];
      ghost var all := PostsFor(observers, order, note, here);
      assert all[..i + 1] == all[..i] + [all[i]];
      if here == Some(observers[o]) {
        HeldAppend(posts, Post(o, note, observers[o], Held), base);
        posts := posts + [Post(o, note, observers[o], Held)];
        held := held + [base + i];
      } else {
        HeldAppend(posts, Post(o, note, observers[o], Queued), base);
        posts := posts + [Post(o, note, observers[o], Queued)];
      }
    }
  }

  // ---------- Steps ----------

  ghost function SetStack(s: State, q: SeqId, stack: seq<Frame>): State
    requires q < |s.seqs|
  {
    SetSeq(s, q, stack, s.seqs[q].slot)
  }

  ghost function SetSeq(s: State, q: SeqId, stack: seq<Frame>, slot: Option<Note>): State
    requires q < |s.seqs|
  {
    s.(seqs := s.seqs[q := Sequence(stack, slot)])
  }

  ghost function SetStatus(s: State, k: Ticket, status: Status): State
    requires k < |s.posts|
  {
    s.(posts := s.posts[k := s.posts[k].(status := status)])
  }

  /** NotifyWrapper() up to the end of its locked section. */
  ghost function Check(s: State, q: SeqId, k: Ticket): State
    requires q < |s.seqs| && k < |s.posts|
  {
    if s.posts[k].observer !in s.observers then SetStatus(s, k, Dropped)
    else SetStack(SetStatus(s, k, Admitted), q, s.seqs[q].stack + [Checked(k)])
  }

  /** NotifyWrapper() from there to the start of the callback: the slot is saved and set. The lock is
      not held, and the observer map is not looked at again. */
  ghost function Call(s: State, q: SeqId): State
    requires Enabled(s, Begin(q))
  {
    var stack, k := Below(s.seqs[q].stack), Top(s.seqs[q].stack).ticket;
    var p := s.posts[k];
    SetSeq(SetStatus(s, k, Delivered), q, stack + [Dispatch(Own(p.note), s.seqs[q].slot)], Some(Own(p.note)))
      .(log := s.log + [Delivery(k, p.observer, p.note, q)])
  }

  /** The synchronous loop of sequence `q` takes its next task. */
  ghost function Take(s: State, q: SeqId): State
    requires Enabled(s, SyncNext(q))
  {
    SetStack(s, q, Below(s.seqs[q].stack) + [SyncLoop(Top(s.seqs[q].stack).tickets[1..])])
  }

  /** What AddObserver() posts for an observer registered on sequence `q`. */
  ghost function AddPosts(s: State, q: SeqId, o: Observer): seq<Post>
    requires q < |s.seqs|
  {
    if s.policy.All? && s.seqs[q].slot.Some? && s.seqs[q].slot.value.Own?
    then [Post(o, s.seqs[q].slot.value.id, q, Queued)] else []
  }

  ghost function Step(s: State, op: Op): State
    requires Enabled(s, op)
  {
    match op
    case Add(q, o) => s.(observers := s.observers[o := q], posts := s.posts + AddPosts(s, q, o))
    case Remove(_, o) => s.(observers := s.observers - {o})
    case Notify(order) =>
      s.(posts := s.posts + PostsFor(s.observers, order, s.nextNote, None), nextNote := s.nextNote + 1)
    case NotifySync(q, order) =>
      var posts := PostsFor(s.observers, order, s.nextNote, Some(q));
      SetStack(s, q, s.seqs[q].stack + [SyncLoop(HeldTickets(posts, |s.posts|))])
        .(posts := s.posts + posts, nextNote := s.nextNote + 1)
    case RunTask(k) => Check(s, s.posts[k].runner, k)
    case SyncNext(q) => Check(Take(s, q), q, Top(s.seqs[q].stack).tickets[0])
    case SyncEnd(q) => SetStack(s, q, Below(s.seqs[q].stack))
    case Begin(q) => Call(s, q)
    case EndDispatch(q) => SetSeq(s, q, Below(s.seqs[q].stack), Top(s.seqs[q].stack).saved)
    case ForeignDispatch(q, l) =>
      SetSeq(s, q, s.seqs[q].stack + [Dispatch(Foreign(l), s.seqs[q].slot)], Some(Foreign(l)))
  }

  ghost predicate IsRun(states: seq<State>, ops: seq<Op>) {
    && |states| == |ops| + 1
    && forall k :: 0 <= k < |ops| ==> Enabled(states[k], ops[k]) && states[k + 1] == Step(states[k], ops[k])
  }

  /** A list on `n` sequences, nothing registered and nothing running. */
  function Start(policy: Policy, n: nat): State {
    State(policy, map[], [], [], seq(n, _ => Sequence([], None)), 0)
  }

  // ---------- The slot behaves like a stack ----------

  /** The notification of the innermost callback being dispatched on a call stack. */
  function Innermost(stack: seq<Frame>): Option<Note> {
    if stack == [] then None
    else if Top(stack).Dispatch? then Some(Top(stack).note)
    else Innermost(Below(stack))
  }

  ghost predicate StackInv(stack: seq<Frame>) {
    forall k :: 0 <= k < |stack| && stack[k].Dispatch? ==> stack[k].saved == Innermost(stack[..k])
  }

  ghost predicate SlotInv(s: State) {
    forall q :: 0 <= q < |s.seqs| ==> s.seqs[q].slot == Innermost(s.seqs[q].stack) && StackInv(s.seqs[q].stack)
  }

  lemma {:induction false} StackPush(stack: seq<Frame>, f: Frame)
    requires StackInv(stack) && (f.Dispatch? ==> f.saved == Innermost(stack))
    ensures StackInv(stack + [f])
    ensures Innermost(stack + [f]) == if f.Dispatch? then Some(f.note) else Innermost(stack)
  {
    var r := stack + [f];
    assert Below(r) == stack;
    assert forall k :: 0 <= k < |stack| ==> r[..k] == stack[..k];
  }

  lemma {:induction false} StackPop(stack: seq<Frame>)
    requires StackInv(stack) && stack != []
    ensures StackInv(Below(stack))
    ensures Innermost(Below(stack)) == if Top(stack).Dispatch? then Top(stack).saved else Innermost(stack)
  {
    var r := Below(stack);
    assert forall k :: 0 <= k < |r| ==> r[..k] == stack[..k];
  }

  lemma {:induction false} SlotStep(s: State, op: Op)
    requires SlotInv(s) && Enabled(s, op)
    ensures SlotInv(Step(s, op))
  {
    match op
    case NotifySync(q, order) =>
      StackPush(s.seqs[q].stack, SyncLoop(HeldTickets(PostsFor(s.observers, order, s.nextNote, Some(q)), |s.posts|)));
    case RunTask(k) => StackPush(s.seqs[s.posts[k].runner].stack, Checked(k));
    case SyncNext(q) =>
      var f, below := Top(s.seqs[q].stack), Below(s.seqs[q].stack);
      StackPop(s.seqs[q].stack);
      StackPush(below, SyncLoop(f.tickets[1..]));
      StackPush(below + [SyncLoop(f.tickets[1..])], Checked(f.tickets[0]));
    case SyncEnd(q) => StackPop(s.seqs[q].stack);
    case Begin(q) =>
      StackPop(s.seqs[q].stack);
      StackPush(Below(s.seqs[q].stack), Dispatch(Own(s.posts[Top(s.seqs[q].stack).ticket].note), s.seqs[q].slot));
    case EndDispatch(q) => StackPop(s.seqs[q].stack);
    case ForeignDispatch(q, l) => StackPush(s.seqs[q].stack, Dispatch(Foreign(l), s.seqs[q].slot));
    case _ =>
  }

  lemma {:induction false} RunSlot(states: seq<State>, ops: seq<Op>, k: nat)
    requires IsRun(states, ops) && SlotInv(states[0]) && k <= |ops|
    ensures SlotInv(states[k])
  {
    if k > 0 {
      RunSlot(states, ops, k - 1);
      SlotStep(states[k - 1], ops[k - 1]);
    }
  }

  /** For every nesting of dispatches: an observer registered under ALL is posted exactly the innermost
      notification being dispatched on its sequence, if that is one of this list's, and nothing
      otherwise; under EXISTING_ONLY nothing. */
  lemma {:induction false} AddPostsInnermost(states: seq<State>, ops: seq<Op>, k: nat)
    requires IsRun(states, ops) && SlotInv(states[0]) && k < |ops| && ops[k].Add?
    ensures var s, q, o := states[k], ops[k].q, ops[k].o;
            var inner := Innermost(s.seqs[q].stack);
            states[k + 1].posts == s.posts +
              if s.policy.All? && inner.Some? && inner.value.Own? then [Post(o, inner.value.id, q, Queued)] else []
  {
    RunSlot(states, ops, k);
  }

  // ---------- The invariant of every interleaving ----------

  /** A task that has not been started or dropped. */
  predicate Pending(p: Post) {
    p.status.Queued? || p.status.Held? || p.status.Admitted?
  }

  ghost predicate ObserversInv(s: State) {
    forall o :: o in s.observers ==> s.observers[o] < |s.seqs|
  }

  ghost predicate PostsInv(s: State) {
    forall k :: 0 <= k < |s.posts| ==> s.posts[k].note < s.nextNote && s.posts[k].runner < |s.seqs|
  }

  ghost predicate NoteInv(n: Option<Note>, next: nat) {
    n.Some? && n.value.Own? ==> n.value.id < next
  }

  ghost predicate NotesInv(s: State) {
    forall q :: 0 <= q < |s.seqs| ==>
      && NoteInv(s.seqs[q].slot, s.nextNote)
      && forall k :: 0 <= k < |s.seqs[q].stack| && s.seqs[q].stack[k].Dispatch? ==>
           NoteInv(s.seqs[q].stack[k].saved, s.nextNote)
  }

  ghost predicate Logged(log: seq<Delivery>, k: Ticket) {
    exists i :: 0 <= i < |log| && log[i].ticket == k
  }

  /** Started callbacks are exactly the tasks marked so, each started once, where it was posted to. */
  ghost predicate LogInv(s: State) {
    && (forall i :: 0 <= i < |s.log| ==>
          && s.log[i].ticket < |s.posts|
          && s.posts[s.log[i].ticket] == Post(s.log[i].observer, s.log[i].note, s.log[i].on, Delivered))
    && (forall i, j :: 0 <= i < j < |s.log| ==> s.log[i].ticket != s.log[j].ticket)
    && (forall k :: 0 <= k < |s.posts| && s.posts[k].status == Delivered ==> Logged(s.log, k))
  }

  ghost predicate DataInv(s: State) {
    ObserversInv(s) && PostsInv(s) && NotesInv(s) && LogInv(s)
  }

  /** All tasks that the synchronous loops of a call stack have left, outermost loop first. */
  function Tickets(stack: seq<Frame>): seq<Ticket> {
    if stack == [] then []
    else Tickets(Below(stack)) + if Top(stack).SyncLoop? then Top(stack).tickets else []
  }

  /** The loops of a sequence hold its own tasks, none twice. */
  ghost predicate LoopsInv(posts: seq<Post>, q: SeqId, stack: seq<Frame>) {
    && Increasing(Tickets(stack))
    && forall t :: t in Tickets(stack) ==> t < |posts| && posts[t].status == Held && posts[t].runner == q
  }

  /** Only the innermost frame can be a wrapper between check and callback, and its task is admitted. */
  ghost predicate CheckedInv(posts: seq<Post>, q: SeqId, stack: seq<Frame>) {
    forall i :: 0 <= i < |stack| && stack[i].Checked? ==>
      && i == |stack| - 1 && stack[i].ticket < |posts|
      && posts[stack[i].ticket].status == Admitted && posts[stack[i].ticket].runner == q
  }

  ghost predicate StacksInv(s: State) {
    forall q :: 0 <= q < |s.seqs| ==> LoopsInv(s.posts, q, s.seqs[q].stack) && CheckedInv(s.posts, q, s.seqs[q].stack)
  }

  /** Where a task is: a held one in a loop of its sequence, an admitted one on top of its stack. */
  ghost predicate InPlace(s: State, k: Ticket)
    requires k < |s.posts| && s.posts[k].runner < |s.seqs|
  {
    var stack := s.seqs[s.posts[k].runner].stack;
    && (s.posts[k].status.Held? ==> k in Tickets(stack))
    && (s.posts[k].status.Admitted? ==> stack != [] && Top(stack) == Checked(k))
  }

  ghost predicate PlacesInv(s: State, taken: Option<Ticket>)
    requires PostsInv(s)
  {
    forall k :: 0 <= k < |s.posts| && taken != Some(k) ==> InPlace(s, k)
  }

  ghost predicate Inv(s: State) {
    DataInv(s) && StacksInv(s) && PlacesInv(s, None)
  }

  lemma {:induction false} StartInv(policy: Policy, n: nat)
    ensures Inv(Start(policy, n)) && SlotInv(Start(policy, n))
  {
  }

  lemma {:induction false} TicketsPush(stack: seq<Frame>, f: Frame)
    ensures Tickets(stack + [f]) == if f.SyncLoop? then Tickets(stack) + f.tickets else Tickets(stack)
  {
    assert Below(stack + [f]) == stack;
  }

  // Posting

  lemma {:induction false} PostsGrow(s: State, t: State, more: seq<Post>)
    requires DataInv(s) && t.posts == s.posts + more && t.log == s.log && |t.seqs| == |s.seqs|
    requires s.nextNote <= t.nextNote
    requires forall k :: 0 <= k < |more| ==>
               more[k].note < t.nextNote && more[k].runner < |t.seqs| && more[k].status != Delivered
    ensures PostsInv(t) && LogInv(t)
  {
    forall k | 0 <= k < |t.posts| ensures t.posts[k] == if k < |s.posts| then s.posts[k] else more[k - |s.posts|] {
    }
  }

  lemma {:induction false} StacksGrow(s: State, t: State, more: seq<Post>)
    requires Inv(s) && t.posts == s.posts + more && t.seqs == s.seqs && PostsInv(t)
    requires forall k :: 0 <= k < |more| ==> more[k].status == Queued
    ensures StacksInv(t) && PlacesInv(t, None)
  {
    forall q | 0 <= q < |t.seqs|
      ensures LoopsInv(t.posts, q, t.seqs[q].stack) && CheckedInv(t.posts, q, t.seqs[q].stack)
    {
      assert LoopsInv(s.posts, q, s.seqs[q].stack) && CheckedInv(s.posts, q, s.seqs[q].stack);
    }
    forall k | 0 <= k < |t.posts| ensures InPlace(t, k) {
      if k < |s.posts| {
        assert InPlace(s, k);
      } else {
        assert t.posts[k] == more[k - |s.posts|];
      }
    }
  }

  lemma {:induction false} AddInv(s: State, q: SeqId, o: Observer)
    requires Inv(s) && Enabled(s, Add(q, o))
    ensures Inv(Step(s, Add(q, o)))
  {
    var t := Step(s, Add(q, o));
    assert NoteInv(s.seqs[q].slot, s.nextNote);
    PostsGrow(s, t, AddPosts(s, q, o));
    StacksGrow(s, t, AddPosts(s, q, o));
  }

  lemma {:induction false} PostsForOk(s: State, order: seq<Observer>, here: Option<SeqId>)
    requires ObserversInv(s) && Traversal(s.observers, order)
    ensures forall p :: p in PostsFor(s.observers, order, s.nextNote, here) ==>
              && p.note == s.nextNote && p.runner < |s.seqs|
              && (p.status == Queued || (p.status == Held && here == Some(p.runner)))
  {
    var more := PostsFor(s.observers, order, s.nextNote, here);
    forall k | 0 <= k < |more| ensures more[k].runner < |s.seqs| {
      assert order[k] in order;
    }
  }

  lemma {:induction false} NotifyInv(s: State, order: seq<Observer>)
    requires Inv(s) && Traversal(s.observers, order)
    ensures Inv(Step(s, Notify(order)))
  {
    var t, more := Step(s, Notify(order)), PostsFor(s.observers, order, s.nextNote, None);
    PostsForOk(s, order, None);
    assert forall k :: 0 <= k < |more| ==> more[k] in more;
    PostsGrow(s, t, more);
    StacksGrow(s, t, more);
  }

  lemma {:induction false} NotifySyncInv(s: State, q: SeqId, order: seq<Observer>)
    requires Inv(s) && Enabled(s, NotifySync(q, order))
    ensures Inv(Step(s, NotifySync(q, order)))
  {
    var t, more := Step(s, NotifySync(q, order)), PostsFor(s.observers, order, s.nextNote, Some(q));
    PostsForOk(s, order, Some(q));
    assert forall k :: 0 <= k < |more| ==> more[k] in more;
    PostsGrow(s, t, more);
    assert NotesInv(t);
    LoopPushed(s, q, more, t);
  }

  lemma {:induction false} LoopPushed(s: State, q: SeqId, more: seq<Post>, t: State)
    requires Inv(s) && q < |s.seqs| && Free(s.seqs[q].stack) && t.posts == s.posts + more && PostsInv(t)
    requires forall k :: 0 <= k < |more| ==> more[k].status == Queued || (more[k].status == Held && more[k].runner == q)
    requires t.seqs == s.seqs[q := Sequence(s.seqs[q].stack + [SyncLoop(HeldTickets(more, |s.posts|))], s.seqs[q].slot)]
    ensures StacksInv(t) && PlacesInv(t, None)
  {
    forall p | 0 <= p < |t.seqs|
      ensures LoopsInv(t.posts, p, t.seqs[p].stack) && CheckedInv(t.posts, p, t.seqs[p].stack)
    {
      assert LoopsInv(s.posts, p, s.seqs[p].stack) && CheckedInv(s.posts, p, s.seqs[p].stack);
      if p == q {
        LoopPushedHere(s.posts, more, q, s.seqs[q].stack);
      }
    }
    LoopPushedPlaces(s, q, more, t);
  }

  lemma {:induction false} LoopPushedPlaces(s: State, q: SeqId, more: seq<Post>, t: State)
    requires PostsInv(s) && PlacesInv(s, None) && q < |s.seqs| && Free(s.seqs[q].stack)
    requires t.posts == s.posts + more && PostsInv(t)
    requires forall k :: 0 <= k < |more| ==> more[k].status == Queued || (more[k].status == Held && more[k].runner == q)
    requires t.seqs == s.seqs[q := Sequence(s.seqs[q].stack + [SyncLoop(HeldTickets(more, |s.posts|))], s.seqs[q].slot)]
    ensures PlacesInv(t, None)
  {
    var held := HeldTickets(more, |s.posts|);
    TicketsPush(s.seqs[q].stack, SyncLoop(held));
    forall k | 0 <= k < |s.posts| ensures InPlace(t, k) {
      assert InPlace(s, k);
      PlaceKept(s, t, k);
    }
    forall k | |s.posts| <= k < |t.posts| ensures InPlace(t, k) {
      assert t.posts[k] == more[k - |s.posts|];
      HeldTicketIn(more, |s.posts|, k - |s.posts|);
    }
  }

  lemma {:induction false} LoopPushedHere(posts: seq<Post>, more: seq<Post>, q: SeqId, stack: seq<Frame>)
    requires LoopsInv(posts, q, stack)
    requires forall k :: 0 <= k < |more| ==> more[k].status == Queued || (more[k].status == Held && more[k].runner == q)
    ensures LoopsInv(posts + more, q, stack + [SyncLoop(HeldTickets(more, |posts|))])
  {
    var ts, held := Tickets(stack), HeldTickets(more, |posts|);
    TicketsPush(stack, SyncLoop(held));
    HeldTicketsAreHeld(more, |posts|);
    IncreasingConcat(ts, held, |posts|);
    var all := posts + more;
    forall k | k in held ensures k < |all| && all[k].status == Held && all[k].runner == q {
      var i :| 0 <= i < |held| && held[i] == k;
      assert all[k] == more[k - |posts|];
    }
    forall k | k in ts ensures k < |all| && all[k].status == Held && all[k].runner == q {
      assert all[k] == posts[k];
    }
  }

  lemma {:induction false} HeldTicketIn(posts: seq<Post>, base: Ticket, k: nat)
    requires k < |posts|
    ensures posts[k].status == Held ==> base + k in HeldTickets(posts, base)
  {
    var n := |posts| - 1;
    if k < n {
      HeldTicketIn(posts[..n], base, k);
    }
  }

  lemma {:induction false} IncreasingConcat(a: seq<Ticket>, b: seq<Ticket>, m: nat)
    requires Increasing(a) && Increasing(b)
    requires forall t :: t in a ==> t < m
    requires forall i :: 0 <= i < |b| ==> m <= b[i]
    ensures Increasing(a + b)
  {
    assert forall i :: 0 <= i < |a| ==> a[i] in a;
  }

  // The wrapper

  /** The status of a task that a stack does not refer to is of no concern to it. */
  lemma {:induction false} TaskElsewhere(posts: seq<Post>, k: Ticket, status: Status, q: SeqId, stack: seq<Frame>)
    requires k < |posts| && LoopsInv(posts, q, stack) && CheckedInv(posts, q, stack)
    requires k !in Tickets(stack) && Checked(k) !in stack
    ensures var r := posts[k := posts[k].(status := status)]; LoopsInv(r, q, stack) && CheckedInv(r, q, stack)
  {
    forall i | 0 <= i < |stack| && stack[i].Checked? ensures stack[i].ticket != k {
      assert stack[i] in stack;
    }
  }

  lemma {:induction false} CheckedPushed(posts: seq<Post>, k: Ticket, q: SeqId, stack: seq<Frame>)
    requires LoopsInv(posts, q, stack) && CheckedInv(posts, q, stack) && (stack != [] ==> !Top(stack).Checked?)
    requires k < |posts| && posts[k].status == Admitted && posts[k].runner == q
    ensures LoopsInv(posts, q, stack + [Checked(k)]) && CheckedInv(posts, q, stack + [Checked(k)])
  {
    TicketsPush(stack, Checked(k));
  }

  lemma {:induction false} NotChecked(posts: seq<Post>, k: Ticket, q: SeqId, stack: seq<Frame>)
    requires CheckedInv(posts, q, stack) && k < |posts| && (posts[k].status != Admitted || posts[k].runner != q)
    ensures Checked(k) !in stack
  {
  }

  /** The locked check of a task that no loop refers to. */
  lemma {:induction false} CheckInv(s: State, q: SeqId, k: Ticket)
    requires DataInv(s) && StacksInv(s) && PlacesInv(s, Some(k)) && q < |s.seqs| && k < |s.posts|
    requires s.posts[k].runner == q
    requires s.posts[k].status == Queued || s.posts[k].status == Held
    requires forall p :: 0 <= p < |s.seqs| ==> k !in Tickets(s.seqs[p].stack)
    requires s.seqs[q].stack != [] ==> !Top(s.seqs[q].stack).Checked?
    ensures Inv(Check(s, q, k))
  {
    var t := Check(s, q, k);
    CheckData(s, q, k);
    forall p | 0 <= p < |t.seqs|
      ensures LoopsInv(t.posts, p, t.seqs[p].stack) && CheckedInv(t.posts, p, t.seqs[p].stack)
    {
      assert LoopsInv(s.posts, p, s.seqs[p].stack) && CheckedInv(s.posts, p, s.seqs[p].stack);
      NotChecked(s.posts, k, p, s.seqs[p].stack);
      TaskElsewhere(s.posts, k, t.posts[k].status, p, s.seqs[p].stack);
      if p == q && t.seqs != s.seqs {
        CheckedPushed(t.posts, k, q, s.seqs[q].stack);
      }
    }
    CheckPlaces(s, q, k);
  }

  lemma {:induction false} CheckPlaces(s: State, q: SeqId, k: Ticket)
    requires PostsInv(s) && PlacesInv(s, Some(k)) && q < |s.seqs| && k < |s.posts| && s.posts[k].runner == q
    requires s.seqs[q].stack != [] ==> !Top(s.seqs[q].stack).Checked?
    ensures PostsInv(Check(s, q, k)) && PlacesInv(Check(s, q, k), None)
  {
    var t := Check(s, q, k);
    TicketsPush(s.seqs[q].stack, Checked(k));
    assert InPlace(t, k);
    forall i | 0 <= i < |t.posts| && i != k ensures InPlace(t, i) {
      assert InPlace(s, i);
      PlaceKept(s, t, i);
    }
  }

  lemma {:induction false} PlaceKept(s: State, t: State, i: Ticket)
    requires i < |s.posts| && i < |t.posts| && t.posts[i] == s.posts[i] && s.posts[i].runner < |s.seqs| == |t.seqs|
    requires InPlace(s, i)
    requires var a, b := s.seqs[s.posts[i].runner].stack, t.seqs[s.posts[i].runner].stack;
             && (i in Tickets(a) ==> i in Tickets(b))
             && (a != [] && Top(a) == Checked(i) ==> b != [] && Top(b) == Checked(i))
    ensures InPlace(t, i)
  {
  }

  lemma {:induction false} CheckData(s: State, q: SeqId, k: Ticket)
    requires DataInv(s) && q < |s.seqs| && k < |s.posts| && s.posts[k].status != Delivered
    ensures DataInv(Check(s, q, k))
  {
    var t := Check(s, q, k);
    assert forall i :: 0 <= i < |s.log| ==> s.log[i].ticket != k;
    assert forall i :: 0 <= i < |s.posts| ==> t.posts[i] == s.posts[i].(status := t.posts[i].status);
  }

  lemma {:induction false} RunTaskInv(s: State, k: Ticket)
    requires Inv(s) && Enabled(s, RunTask(k))
    ensures Inv(Step(s, RunTask(k)))
  {
    forall p | 0 <= p < |s.seqs| ensures k !in Tickets(s.seqs[p].stack) {
      assert LoopsInv(s.posts, p, s.seqs[p].stack);
    }
    CheckInv(s, s.posts[k].runner, k);
  }

  lemma {:induction false} IncreasingWithout(ts: seq<Ticket>, n: nat)
    requires Increasing(ts) && n < |ts|
    ensures var r := ts[..n] + ts[n + 1..];
            Increasing(r) && ts[n] !in r && forall t :: t in ts <==> t in r || t == ts[n]
  {
    var r := ts[..n] + ts[n + 1..];
    assert forall i :: 0 <= i < |r| ==> r[i] == ts[if i < n then i else i + 1];
    forall t | t in ts && t != ts[n] ensures t in r {
      var i :| 0 <= i < |ts| && ts[i] == t;
      assert r[if i < n then i else i - 1] == t;
    }
  }

  lemma {:induction false} TicketsTake(stack: seq<Frame>)
    requires stack != [] && Top(stack).SyncLoop? && Top(stack).tickets != [] && Increasing(Tickets(stack))
    ensures var k, r := Top(stack).tickets[0], Tickets(Below(stack) + [SyncLoop(Top(stack).tickets[1..])]);
            k in Tickets(stack) && Increasing(r) && k !in r && forall t :: t in Tickets(stack) <==> t in r || t == k
  {
    var f, below := Top(stack), Below(stack);
    var ts, n := Tickets(stack), |Tickets(below)|;
    assert ts == Tickets(below) + f.tickets && ts[n] == f.tickets[0];
    TicketsPush(below, SyncLoop(f.tickets[1..]));
    assert Tickets(below) + f.tickets[1..] == ts[..n] + ts[n + 1..];
    IncreasingWithout(ts, n);
  }

  /** Taking the first task off a loop leaves no other reference to it anywhere. */
  lemma {:induction false} TakeInv(s: State, q: SeqId)
    requires Inv(s) && Enabled(s, SyncNext(q))
    ensures var k, r := Top(s.seqs[q].stack).tickets[0], Take(s, q);
            && DataInv(r) && StacksInv(r) && PlacesInv(r, Some(k))
            && s.posts[k].status == Held && s.posts[k].runner == q
            && forall p :: 0 <= p < |r.seqs| ==> k !in Tickets(r.seqs[p].stack)
  {
    var k, r := Top(s.seqs[q].stack).tickets[0], Take(s, q);
    assert LoopsInv(s.posts, q, s.seqs[q].stack);
    TicketsTake(s.seqs[q].stack);
    forall p | 0 <= p < |r.seqs|
      ensures LoopsInv(r.posts, p, r.seqs[p].stack) && CheckedInv(r.posts, p, r.seqs[p].stack)
      ensures k !in Tickets(r.seqs[p].stack)
    {
      assert LoopsInv(s.posts, p, s.seqs[p].stack) && CheckedInv(s.posts, p, s.seqs[p].stack);
      if p == q {
        LoopTaken(s.posts, q, s.seqs[q].stack);
      }
    }
    assert NotesInv(r);
    TakePlaces(s, q);
  }

  lemma {:induction false} LoopTaken(posts: seq<Post>, q: SeqId, stack: seq<Frame>)
    requires LoopsInv(posts, q, stack) && CheckedInv(posts, q, stack)
    requires stack != [] && Top(stack).SyncLoop? && Top(stack).tickets != []
    ensures var now := Below(stack) + [SyncLoop(Top(stack).tickets[1..])];
            LoopsInv(posts, q, now) && CheckedInv(posts, q, now) && Top(stack).tickets[0] !in Tickets(now)
  {
    TicketsTake(stack);
  }

  lemma {:induction false} TakePlaces(s: State, q: SeqId)
    requires PostsInv(s) && PlacesInv(s, None) && Enabled(s, SyncNext(q)) && LoopsInv(s.posts, q, s.seqs[q].stack)
    ensures PostsInv(Take(s, q)) && PlacesInv(Take(s, q), Some(Top(s.seqs[q].stack).tickets[0]))
  {
    var k, r := Top(s.seqs[q].stack).tickets[0], Take(s, q);
    TicketsTake(s.seqs[q].stack);
    forall i | 0 <= i < |r.posts| && i != k ensures InPlace(r, i) {
      assert InPlace(s, i);
      PlaceKept(s, r, i);
    }
  }

  lemma {:induction false} SyncNextInv(s: State, q: SeqId)
    requires Inv(s) && Enabled(s, SyncNext(q))
    ensures Inv(Step(s, SyncNext(q)))
  {
    TakeInv(s, q);
    CheckInv(Take(s, q), q, Top(s.seqs[q].stack).tickets[0]);
  }

  lemma {:induction false} BeginData(s: State, q: SeqId)
    requires DataInv(s) && Enabled(s, Begin(q)) && CheckedInv(s.posts, q, s.seqs[q].stack)
    ensures DataInv(Call(s, q))
  {
    var t, k := Call(s, q), Top(s.seqs[q].stack).ticket;
    assert forall i :: 0 <= i < |s.log| ==> s.log[i].ticket != k;
    assert forall i :: 0 <= i < |s.posts| ==> t.posts[i] == s.posts[i].(status := t.posts[i].status);
    forall j | 0 <= j < |t.posts| && t.posts[j].status == Delivered ensures Logged(t.log, j) {
      if j == k {
        assert t.log[|s.log|].ticket == k;
      } else {
        assert Logged(s.log, j);
        var i :| 0 <= i < |s.log| && s.log[i].ticket == j;
        assert t.log[i] == s.log[i];
      }
    }
  }

  lemma {:induction false} BeginInv(s: State, q: SeqId)
    requires Inv(s) && Enabled(s, Begin(q))
    ensures Inv(Call(s, q))
  {
    var t, k := Call(s, q), Top(s.seqs[q].stack).ticket;
    assert LoopsInv(s.posts, q, s.seqs[q].stack) && CheckedInv(s.posts, q, s.seqs[q].stack);
    BeginData(s, q);
    forall p | 0 <= p < |t.seqs|
      ensures LoopsInv(t.posts, p, t.seqs[p].stack) && CheckedInv(t.posts, p, t.seqs[p].stack)
    {
      assert LoopsInv(s.posts, p, s.seqs[p].stack) && CheckedInv(s.posts, p, s.seqs[p].stack);
      if p == q {
        CheckedReplaced(s.posts, q, s.seqs[q].stack, Own(s.posts[k].note), s.seqs[q].slot);
      } else {
        NotChecked(s.posts, k, p, s.seqs[p].stack);
        TaskElsewhere(s.posts, k, Delivered, p, s.seqs[p].stack);
      }
    }
    BeginPlaces(s, q);
  }

  lemma {:induction false} CheckedReplaced(
      posts: seq<Post>, q: SeqId, stack: seq<Frame>, note: Note, slot: Option<Note>)
    requires stack != [] && Top(stack).Checked? && Top(stack).ticket < |posts|
    requires LoopsInv(posts, q, stack) && CheckedInv(posts, q, stack)
    ensures var k, now := Top(stack).ticket, Below(stack) + [Dispatch(note, slot)];
            var r := posts[k := posts[k].(status := Delivered)];
            LoopsInv(r, q, now) && CheckedInv(r, q, now)
  {
    PopTickets(stack);
    TicketsPush(Below(stack), Dispatch(note, slot));
  }

  lemma {:induction false} BeginPlaces(s: State, q: SeqId)
    requires PostsInv(s) && PlacesInv(s, None) && Enabled(s, Begin(q))
    ensures PostsInv(Call(s, q)) && PlacesInv(Call(s, q), None)
  {
    var t, k := Call(s, q), Top(s.seqs[q].stack).ticket;
    PopTickets(s.seqs[q].stack);
    TicketsPush(Below(s.seqs[q].stack), Dispatch(Own(s.posts[k].note), s.seqs[q].slot));
    forall i | 0 <= i < |t.posts| ensures InPlace(t, i) {
      assert InPlace(s, i);
    }
  }

  lemma {:induction false} PopTickets(stack: seq<Frame>)
    requires stack != [] && (Top(stack).SyncLoop? ==> Top(stack).tickets == [])
    ensures Tickets(Below(stack)) == Tickets(stack)
  {
  }

  /** A change to one stack that leaves its loops alone and neither takes nor puts a checked frame. */
  lemma {:induction false} StackChanged(s: State, t: State, q: SeqId)
    requires Inv(s) && q < |s.seqs| == |t.seqs| && t.posts == s.posts && t.nextNote == s.nextNote
    requires forall p :: 0 <= p < |s.seqs| && p != q ==> t.seqs[p] == s.seqs[p]
    requires Tickets(t.seqs[q].stack) == Tickets(s.seqs[q].stack)
    requires CheckedInv(t.posts, q, t.seqs[q].stack)
    requires s.seqs[q].stack != [] ==> !Top(s.seqs[q].stack).Checked?
    ensures StacksInv(t) && PostsInv(t) && PlacesInv(t, None)
  {
    forall p | 0 <= p < |t.seqs|
      ensures LoopsInv(t.posts, p, t.seqs[p].stack) && CheckedInv(t.posts, p, t.seqs[p].stack)
    {
      assert LoopsInv(s.posts, p, s.seqs[p].stack) && CheckedInv(s.posts, p, s.seqs[p].stack);
    }
    forall i | 0 <= i < |t.posts| ensures InPlace(t, i) {
      assert InPlace(s, i);
    }
  }

  lemma {:induction false} PopInv(s: State, op: Op)
    requires Inv(s) && Enabled(s, op) && (op.SyncEnd? || op.EndDispatch?)
    ensures Inv(Step(s, op))
  {
    var t := Step(s, op);
    PopTickets(s.seqs[op.q].stack);
    assert CheckedInv(s.posts, op.q, s.seqs[op.q].stack);
    StackChanged(s, t, op.q);
    assert NotesInv(t);
  }

  lemma {:induction false} ForeignInv(s: State, q: SeqId, l: nat)
    requires Inv(s) && Enabled(s, ForeignDispatch(q, l))
    ensures Inv(Step(s, ForeignDispatch(q, l)))
  {
    var t := Step(s, ForeignDispatch(q, l));
    TicketsPush(s.seqs[q].stack, Dispatch(Foreign(l), s.seqs[q].slot));
    assert CheckedInv(s.posts, q, s.seqs[q].stack);
    StackChanged(s, t, q);
    assert NotesInv(t);
  }

  lemma {:induction false} RemoveInv(s: State, q: SeqId, o: Observer)
    requires Inv(s) && Enabled(s, Remove(q, o))
    ensures Inv(Step(s, Remove(q, o)))
  {
    var t := Step(s, Remove(q, o));
    assert CheckedInv(s.posts, q, s.seqs[q].stack);
    StackChanged(s, t, q);
  }

  lemma {:induction false} InvStep(s: State, op: Op)
    requires Inv(s) && Enabled(s, op)
    ensures Inv(Step(s, op))
  {
    match op
    case Add(q, o) => AddInv(s, q, o);
    case Notify(order) => NotifyInv(s, order);
    case NotifySync(q, order) => NotifySyncInv(s, q, order);
    case RunTask(k) => RunTaskInv(s, k);
    case SyncNext(q) => SyncNextInv(s, q);
    case Begin(q) => BeginInv(s, q);
    case SyncEnd(_) => PopInv(s, op);
    case EndDispatch(_) => PopInv(s, op);
    case ForeignDispatch(q, l) => ForeignInv(s, q, l);
    case Remove(q, o) => RemoveInv(s, q, o);
  }

  lemma {:induction false} RunInv(states: seq<State>, ops: seq<Op>, k: nat)
    requires IsRun(states, ops) && Inv(states[0]) && k <= |ops|
    ensures Inv(states[k])
  {
    if k > 0 {
      RunInv(states, ops, k - 1);
      InvStep(states[k - 1], ops[k - 1]);
    }
  }
}
