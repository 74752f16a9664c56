/** CancelableCallback: a wrapper whose forwarders can be disabled. The weak pointers that forwarders
    hold are modelled by generations: invalidating them starts a new one, and a forwarder is valid
    while the generation it was issued in lasts. */
module CancelableCallback {
  import opened Options

  type Callback = nat

  /** What `callback()` returns: a null callback or a forwarder bound to a weak pointer. */
  datatype Forwarder = Null | Forward(generation: nat)

  /** The wrapper's fields. `once` tells OnceCallback from RepeatingCallback. */
  datatype Wrapper = Wrapper(once: bool, callback: Option<Callback>, generation: nat)

  function Cancelled(w: Wrapper): Wrapper {
    w.(callback := None, generation := w.generation + 1)
  }

  function IssueFrom(w: Wrapper): Forwarder {
    if w.callback.None? then Null else Forward(w.generation)
  }

  /** A call through a weak pointer that was invalidated is dropped. */
  predicate Valid(w: Wrapper, f: Forwarder) {
    f.Forward? && f.generation == w.generation
  }

  /** The wrapper after a call of `f`: running a once-callback spends it and every other forwarder. */
  function Forwarded(w: Wrapper, f: Forwarder): Wrapper {
    if w.once && Valid(w, f) then Cancelled(w) else w
  }

  class Cancelable {
    const once: bool
    var callback: Option<Callback>
    var generation: nat

    ghost function Model(): Wrapper
      reads this
    {
      Wrapper(once, callback, generation)
    }

    constructor (once: bool, cb: Option<Callback>)
      ensures Model() == Wrapper(once, cb, 0)
    {
      this.once, callback, generation := once, cb, 0;
    }

    method Cancel()
      modifies this
      ensures Model() == Cancelled(old(Model()))
    {
      generation := generation + 1;
      callback := None;
    }

    method IsCancelled() returns (b: bool)
      ensures b <==> callback == None
    {
      b := callback.None?;
    }

    method Reset(cb: Callback)
      modifies this
      ensures Model() == Cancelled(old(Model())).(callback := Some(cb))
    {
      Cancel();
      callback := Some(cb);
    }

    method GetCallback() returns (f: Forwarder)
      ensures f == IssueFrom(Model())
      ensures (f.Forward? <==> callback.Some?) && (f.Forward? ==> Valid(Model(), f))
    {
      if callback.None? {
        return Null;
      }
      f := Forward(generation);
    }

    /** Runs forwarder `f`; `ran` is the callback that the call reaches. */
    method RunForwarder(f: Forwarder) returns (ran: Option<Callback>)
      requires f.Forward?
      modifies this
      ensures Model() == Forwarded(old(Model()), f)
      ensures ran == if Valid(old(Model()), f) then old(callback) else None
    {
      ran := None;
      if f.generation == generation {
        if once {
          generation := generation + 1;
          ran, callback := callback, None;
        } else {
          ran := callback;
        }
      }
    }
  }

  // ---------- Histories ----------

  /** The wrapper with every forwarder ever issued; a once-forwarder is null after it was run. */
  datatype State = State(w: Wrapper, issued: seq<Forwarder>)

  datatype Op = Cancel | Reset(cb: Callback) | Issue | Run(f: nat)

  predicate Enabled(s: State, op: Op) {
    op.Run? ==> op.f < |s.issued| && s.issued[op.f].Forward?
  }

  function Step(s: State, op: Op): State
    requires Enabled(s, op)
  {
    match op
    case Cancel => s.(w := Cancelled(s.w))
    case Reset(cb) => s.(w := Cancelled(s.w).(callback := Some(cb)))
    case Issue => s.(issued := s.issued + [IssueFrom(s.w)])
    case Run(f) => State(Forwarded(s.w, s.issued[f]), if s.w.once then s.issued[f := Null] else s.issued)
  }

  /** The callback that the operation runs, if any. */
  function Ran(s: State, op: Op): Option<Callback>
    requires Enabled(s, op)
  {
    if op.Run? && Valid(s.w, s.issued[op.f]) then s.w.callback else None
  }

  /** A valid forwarder implies a stored callback, and no forwarder is from a later generation. */
  ghost predicate Inv(s: State) {
    forall f :: 0 <= f < |s.issued| && s.issued[f].Forward? ==>
      s.issued[f].generation <= s.w.generation && (Valid(s.w, s.issued[f]) ==> s.w.callback.Some?)
  }

  lemma {:induction false} InvStep(s: State, op: Op)
    requires Inv(s) && Enabled(s, op)
    ensures Inv(Step(s, op))
  {
  }

  ghost predicate IsRun(states: seq<State>, ops: seq<Op>) {
    && |states| == |ops| + 1
    && Inv(states[0])
    && forall k :: 0 <= k < |ops| ==> Enabled(states[k], ops[k]) && states[k + 1] == Step(states[k], ops[k])
  }

  lemma {:induction false} RunInv(states: seq<State>, ops: seq<Op>, k: nat)
    requires IsRun(states, ops) && k <= |ops|
    ensures Inv(states[k]) && states[k].w.once == states[0].w.once
  {
    if k > 0 {
      RunInv(states, ops, k - 1);
      InvStep(states[k - 1], ops[k - 1]);
    }
  }

  /** What ends a generation: a cancellation, a new callback, or a once-callback being run. */
  predicate Invalidates(s: State, op: Op)
    requires Enabled(s, op)
  {
    op.Cancel? || op.Reset? || (s.w.once && Ran(s, op).Some?)
  }

  lemma {:induction false} GenerationStep(s: State, op: Op)
    requires Inv(s) && Enabled(s, op)
    ensures Step(s, op).w.generation == s.w.generation + if Invalidates(s, op) then 1 else 0
    ensures !Invalidates(s, op) ==> Step(s, op).w == s.w
  {
  }

  lemma {:induction false} GenerationRun(states: seq<State>, ops: seq<Op>, i: nat, j: nat)
    requires IsRun(states, ops) && i <= j <= |ops|
    ensures if exists k :: i <= k < j && Invalidates(states[k], ops[k])
            then states[i].w.generation < states[j].w.generation else states[i].w == states[j].w
  {
    if i < j {
      GenerationRun(states, ops, i, j - 1);
      RunInv(states, ops, j - 1);
      GenerationStep(states[j - 1], ops[j - 1]);
    }
  }

  /** A forwarder in the hands of a client is consumed by running it if it is a once-callback, and by
      nothing else. */
  lemma {:induction false} ForwarderStays(states: seq<State>, ops: seq<Op>, i: nat, j: nat, f: nat)
    requires IsRun(states, ops) && i <= j <= |ops| && f < |states[i].issued|
    ensures f < |states[j].issued|
    ensures states[j].issued[f] ==
            if states[0].w.once && exists k :: i <= k < j && ops[k] == Run(f) then Null else states[i].issued[f]
  {
    if i < j {
      ForwarderStays(states, ops, i, j - 1, f);
      RunInv(states, ops, j - 1);
    }
  }

  /** So a once-forwarder is run once at most. */
  lemma {:induction false} OnceForwarderRunsOnce(states: seq<State>, ops: seq<Op>, i: nat, j: nat, f: nat)
    requires IsRun(states, ops) && states[0].w.once && i < |ops| && j < |ops| && ops[i] == ops[j] == Run(f)
    ensures i == j
  {
    var a, b := if i < j then i else j, if i < j then j else i;
    if a < b {
      ForwarderStays(states, ops, a, b, f);
    }
  }

  /** `callback()` gives a forwarder if and only if a callback is stored, and run at once it reaches that
      callback. */
  lemma {:induction false} IssuesForwarderIffStored(states: seq<State>, ops: seq<Op>, i: nat)
    requires IsRun(states, ops) && i < |ops| && ops[i] == Issue
    ensures var run := Run(|states[i].issued|);
            && (Enabled(states[i + 1], run) <==> states[i].w.callback.Some?)
            && (Enabled(states[i + 1], run) ==> Ran(states[i + 1], run) == states[i].w.callback)
  {
  }

  /** A forwarder runs the callback that was wrapped when it was issued, if nothing has ended that
      generation since, and otherwise nothing at all. */
  lemma {:induction false} ForwarderRunsWhatItWasIssuedFor(states: seq<State>, ops: seq<Op>, i: nat, j: nat)
    requires IsRun(states, ops) && i < j < |ops| && ops[i] == Issue && ops[j] == Run(|states[i].issued|)
    ensures states[i].w.callback.Some?
    ensures Ran(states[j], ops[j]) ==
            if exists k :: i < k < j && Invalidates(states[k], ops[k]) then None else states[i].w.callback
  {
    var f := |states[i].issued|;
    ForwarderStays(states, ops, i + 1, j, f);
    GenerationRun(states, ops, i + 1, j);
  }

  /** A callback that was set is what the next forwarder reaches, until it is cancelled, replaced or spent. */
  lemma {:induction false} ResetIsReached(states: seq<State>, ops: seq<Op>, i: nat, j: nat, k: nat)
    requires IsRun(states, ops) && i < j < k <= |ops| && ops[i].Reset? && ops[j] == Issue
    requires forall m :: i < m < k ==> !Invalidates(states[m], ops[m])
    ensures var run := Run(|states[j].issued|);
            Enabled(states[k], run) && Ran(states[k], run) == Some(ops[i].cb)
  {
    GenerationRun(states, ops, i + 1, j);
    GenerationRun(states, ops, j + 1, k);
    ForwarderStays(states, ops, j + 1, k, |states[j].issued|);
    RunInv(states, ops, k);
    assert IssueFrom(states[j].w).Forward?;
    forall m | j + 1 <= m < k && ops[m] == Run(|states[j].issued|) ensures !states[0].w.once {
      ForwarderRunsWhatItWasIssuedFor(states, ops, j, m);
      RunInv(states, ops, m);
    }
  }

  /** Between two runs of once-forwarders that reach a callback, a new callback has been set: one
      callback is run by at most one of all the forwarders issued for it. */
  lemma {:induction false} OnceCallbackRunsOnce(states: seq<State>, ops: seq<Op>, i: nat, j: nat)
    requires IsRun(states, ops) && i < j < |ops| && states[0].w.once
    requires Ran(states[i], ops[i]).Some? && Ran(states[j], ops[j]).Some?
    ensures exists k :: i < k < j && ops[k].Reset?
  {
    RunInv(states, ops, i);
    RunInv(states, ops, j);
    if forall k :: i < k < j ==> !ops[k].Reset? {
      StaysSpent(states, ops, i + 1, j);
    }
  }

  lemma {:induction false} StaysSpent(states: seq<State>, ops: seq<Op>, i: nat, j: nat)
    requires IsRun(states, ops) && i <= j <= |ops| && states[i].w.callback.None?
    requires forall k :: i <= k < j ==> !ops[k].Reset?
    ensures states[j].w.callback.None?
  {
    if i < j {
      StaysSpent(states, ops, i, j - 1);
    }
  }
}
