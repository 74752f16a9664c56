/** The state of an ObserverList and of its iterators as values, with one function per
    operation, and the refinement of the slot vector to a plain duplicate-free sequence.

    A slot is `Some(o)` for a registered observer and `None` for one marked for removal. */
module ObserverListModel {
  import opened Options

  type Observer = nat
  type Slots = seq<Option<Observer>>

  datatype Policy = All | ExistingOnly

  /** `live` is the number of nodes in `live_iterators_`. */
  datatype ListState = ListState(policy: Policy, slots: Slots, count: int, live: int)

  /** `max == None` stands for `numeric_limits<size_t>::max()`, above every vector size. */
  datatype Cursor = Cursor(attached: bool, index: nat, max: Option<nat>)

  const DETACHED := Cursor(false, 0, Some(0))

  // ---------- The abstract list ----------

  /** The registered observers, in registration order: what the container means. */
  function Contents(slots: Slots): (r: seq<Observer>)
    ensures forall o :: o in r <==> Some(o) in slots
    ensures |r| == |slots| <==> None !in slots
    ensures |r| <= |slots|
  {
    if slots == [] then []
    else
      assert slots == [slots[0]] + slots[1..];
      (if slots[0].Some? then [slots[0].value] else []) + Contents(slots[1..])
  }

  ghost predicate Distinct<T>(s: seq<T>) {
    forall i, j :: 0 <= i < j < |s| ==> s[i] != s[j]
  }

  ghost predicate NoRepeats(slots: Slots) {
    forall i, j :: 0 <= i < j < |slots| && slots[i].Some? ==> slots[i] != slots[j]
  }

  /** `r` is `s` with one occurrence of `o` taken out, or `s` itself when there is none. */
  ghost predicate DeletesOne<T>(s: seq<T>, o: T, r: seq<T>) {
    if o in s then exists i :: 0 <= i < |s| && s[i] == o && r == s[..i] + s[i + 1..]
    else r == s
  }

  lemma {:induction false} ContentsConcat(a: Slots, b: Slots)
    ensures Contents(a + b) == Contents(a) + Contents(b)
  {
    if a == [] {
      assert a + b == b;
    } else {
      assert (a + b)[1..] == a[1..] + b;
      ContentsConcat(a[1..], b);
    }
  }

  /** Splits the contents around one slot. */
  lemma {:induction false} ContentsAround(a: Slots, x: Option<Observer>, b: Slots)
    ensures Contents(a + [x] + b) == Contents(a) + (if x.Some? then [x.value] else []) + Contents(b)
  {
    ContentsConcat(a + [x], b);
    ContentsConcat(a, [x]);
  }

  lemma {:induction false} ContentsAllMarked(slots: Slots)
    requires forall k :: 0 <= k < |slots| ==> slots[k] == None
    ensures Contents(slots) == []
  {
    if slots != [] {
      ContentsAllMarked(slots[1..]);
    }
  }

  lemma {:induction false} DistinctContents(slots: Slots)
    requires NoRepeats(slots)
    ensures Distinct(Contents(slots))
  {
    if slots != [] {
      DistinctContents(slots[1..]);
      if slots[0].Some? {
        assert forall j :: 0 <= j < |slots[1..]| ==> slots[1..][j] == slots[j + 1];
        assert slots[0] !in slots[1..];
      }
    }
  }

  // ---------- Operations on the list ----------

  /** `ranges::find_if` with `IsEqual(o)`; `|slots|` stands for `end()`. */
  function Find(slots: Slots, o: Observer): (r: nat)
    ensures r <= |slots|
    ensures r < |slots| ==> slots[r] == Some(o)
    ensures forall k :: 0 <= k < r ==> slots[k] != Some(o)
  {
    if slots == [] then 0
    else if slots[0] == Some(o) then 0
    else
      var r := Find(slots[1..], o);
      assert forall k :: 1 <= k < |slots| ==> slots[k] == slots[1..][k - 1];
      r + 1
  }

  function Added(l: ListState, o: Observer): ListState {
    if Some(o) in l.slots then l
    else l.(slots := l.slots + [Some(o)], count := l.count + 1)
  }

  function Removed(l: ListState, o: Observer): ListState {
    var i := Find(l.slots, o);
    if i == |l.slots| then l
    else l.(count := l.count - 1,
            slots := if l.live == 0 then l.slots[..i] + l.slots[i + 1..] else l.slots[i := None])
  }

  function Cleared(l: ListState): ListState {
    l.(count := 0, slots := if l.live == 0 then [] else seq(|l.slots|, _ => None))
  }

  /** `EraseIf(observers_, IsMarkedForRemoval)`. */
  function Compacted(slots: Slots): Slots {
    if slots == [] then []
    else (if slots[0].Some? then [slots[0]] else []) + Compacted(slots[1..])
  }

  lemma {:induction false} CompactedContents(slots: Slots)
    ensures None !in Compacted(slots)
    ensures Contents(Compacted(slots)) == Contents(slots)
  {
    if slots != [] {
      CompactedContents(slots[1..]);
      var kept, rest := Compacted(slots), Compacted(slots[1..]);
      if slots[0].Some? {
        assert kept == [slots[0]] + rest;
        assert kept[1..] == rest;
      } else {
        assert kept == rest;
      }
    }
  }

  function Attach(l: ListState): ListState {
    l.(live := l.live + 1)
  }

  /** An iterator leaves: the only remaining one compacts first. */
  function Detach(l: ListState): ListState {
    l.(live := l.live - 1, slots := if l.live == 1 then Compacted(l.slots) else l.slots)
  }

  // ---------- Iterator positions ----------

  function MaxIndex(l: ListState): Option<nat> {
    if l.policy == All then None else Some(|l.slots|)
  }

  /** `clamped_max_index()`. */
  function Bound(slots: Slots, max: Option<nat>): (b: nat)
    ensures b <= |slots|
  {
    if max.Some? && max.value < |slots| then max.value else |slots|
  }

  /** `EnsureValidIndex()`: the first unmarked slot in `[i, bound)`, or `bound`. */
  function Settle(slots: Slots, i: nat, bound: nat): (r: nat)
    requires bound <= |slots|
    ensures i <= bound ==> i <= r <= bound
    ensures i >= bound ==> r == i
    ensures forall k :: i <= k < r ==> k < |slots| && slots[k] == None
    ensures r < bound ==> slots[r].Some?
    decreases bound - i
  {
    if i < bound && slots[i].None? then Settle(slots, i + 1, bound) else i
  }

  predicate AtEnd(slots: Slots, c: Cursor) {
    !c.attached || c.index == Bound(slots, c.max)
  }

  /** The `Iter(list)` constructor. */
  function First(l: ListState): Cursor {
    var max := MaxIndex(l);
    Cursor(true, Settle(l.slots, 0, Bound(l.slots, max)), max)
  }

  /** `operator++`. */
  function Advance(slots: Slots, c: Cursor): Cursor {
    if !c.attached then c
    else c.(index := Settle(slots, c.index + 1, Bound(slots, c.max)))
  }

  /** A position an iterator keeps while its owner respects the iterator protocol. */
  ghost predicate InRange(slots: Slots, c: Cursor) {
    c.attached ==> c.index <= Bound(slots, c.max) && (c.max.Some? ==> c.max.value <= |slots|)
  }

  /** Incrementing keeps an attached iterator in range exactly when it was not at the end:
      `operator++` does not check for the end itself. */
  lemma {:induction false} AdvanceStaysInRange(slots: Slots, c: Cursor)
    requires c.attached && InRange(slots, c)
    ensures InRange(slots, Advance(slots, c)) <==> !AtEnd(slots, c)
    ensures !AtEnd(slots, c) ==> c.index < Advance(slots, c).index
  {
  }

  /** Comparing with `end()` (`operator==` against a default iterator) is the end test. */
  predicate SameCursor(slots: Slots, a: Cursor, b: Cursor, sameList: bool) {
    (AtEnd(slots, a) && AtEnd(slots, b)) || (sameList && a.index == b.index)
  }

  lemma {:induction false} LoopGuardIsEndTest(slots: Slots, c: Cursor)
    ensures SameCursor(slots, c, DETACHED, !c.attached) <==> AtEnd(slots, c)
  {
  }

  /** Two iterators of one list that are not both at an end are equal if and only if they are at one
      position; of different lists, never. */
  lemma {:induction false} EqualIffSamePosition(slots: Slots, a: Cursor, b: Cursor)
    requires !(AtEnd(slots, a) && AtEnd(slots, b))
    ensures SameCursor(slots, a, b, true) <==> a.index == b.index
    ensures !SameCursor(slots, a, b, false)
  {
  }

  // ---------- The list refines a duplicate-free sequence ----------

  ghost predicate ListInv(l: ListState) {
    && NoRepeats(l.slots)
    && l.count == |Contents(l.slots)|
    && (l.live == 0 ==> None !in l.slots)
  }

  /** Adding appends, or does nothing for an observer already registered. */
  lemma {:induction false} AddRefines(l: ListState, o: Observer)
    requires ListInv(l)
    ensures ListInv(Added(l, o))
    ensures Contents(Added(l, o).slots) ==
            if o in Contents(l.slots) then Contents(l.slots) else Contents(l.slots) + [o]
  {
    ContentsConcat(l.slots, [Some(o)]);
  }

  /** Removing deletes the observer and nothing else, whether the slot is erased or only marked. */
  lemma {:induction false} RemoveRefines(l: ListState, o: Observer)
    requires ListInv(l)
    ensures ListInv(Removed(l, o))
    ensures DeletesOne(Contents(l.slots), o, Contents(Removed(l, o).slots))
    ensures o !in Contents(Removed(l, o).slots)
  {
    var i := Find(l.slots, o);
    if i < |l.slots| {
      NoRepeatsAround(l.slots, i, o);
      var a, b := l.slots[..i], l.slots[i + 1..];
      ContentsOfMarked(l.slots, i);
      ContentsConcat(a, b);
      ContentsOfSlot(l.slots, i, o);
      DeletesMiddle(Contents(a), o, Contents(b));
    }
  }

  lemma {:induction false} ContentsOfSlot(slots: Slots, i: nat, o: Observer)
    requires i < |slots| && slots[i] == Some(o)
    ensures Contents(slots) == Contents(slots[..i]) + [o] + Contents(slots[i + 1..])
  {
    assert slots == slots[..i] + [Some(o)] + slots[i + 1..];
    ContentsAround(slots[..i], Some(o), slots[i + 1..]);
  }

  lemma {:induction false} ContentsOfMarked(slots: Slots, i: nat)
    requires i < |slots|
    ensures Contents(slots[i := None]) == Contents(slots[..i]) + Contents(slots[i + 1..])
  {
    assert slots[i := None] == slots[..i] + [None] + slots[i + 1..];
    ContentsAround(slots[..i], None, slots[i + 1..]);
  }

  lemma {:induction false} DeletesMiddle<T>(a: seq<T>, o: T, b: seq<T>)
    ensures DeletesOne(a + [o] + b, o, a + b)
  {
    var s := a + [o] + b;
    assert s[|a|] == o && s[..|a|] + s[|a| + 1..] == a + b;
  }

  lemma {:induction false} NoRepeatsAround(slots: Slots, i: nat, o: Observer)
    requires NoRepeats(slots) && i < |slots| && slots[i] == Some(o)
    ensures var r := slots[..i] + slots[i + 1..]; NoRepeats(r) && Some(o) !in r && (None in r ==> None in slots)
    ensures var r := slots[i := None]; NoRepeats(r) && Some(o) !in r
  {
    var r := slots[..i] + slots[i + 1..];
    assert forall k :: 0 <= k < |r| ==> r[k] == slots[if k < i then k else k + 1];
  }

  lemma {:induction false} ClearRefines(l: ListState)
    ensures ListInv(Cleared(l)) && Contents(Cleared(l).slots) == []
  {
    ContentsAllMarked(Cleared(l).slots);
  }

  /** Compaction is invisible: an iterator leaving never changes the abstract list. */
  lemma {:induction false} DetachRefines(l: ListState)
    requires ListInv(l)
    ensures ListInv(Detach(l)) && Contents(Detach(l).slots) == Contents(l.slots)
  {
    CompactedNoRepeats(l.slots);
    CompactedContents(l.slots);
  }

  lemma {:induction false} CompactedNoRepeats(slots: Slots)
    requires NoRepeats(slots)
    ensures NoRepeats(Compacted(slots))
  {
    if slots != [] {
      CompactedNoRepeats(slots[1..]);
      if slots[0].Some? {
        var rest := Compacted(slots[1..]);
        assert forall j :: 0 <= j < |slots[1..]| ==> slots[1..][j] == slots[j + 1];
        assert slots[0] !in slots[1..];
        CompactedContents(slots[1..]);
        assert slots[0].value !in Contents(rest);
        assert slots[0] !in rest;
      }
    }
  }

  /** `empty()` reads only the counter, and agrees with the abstract list even mid-iteration. */
  lemma {:induction false} EmptyAgrees(l: ListState)
    requires ListInv(l)
    ensures l.count >= 0
    ensures l.count == 0 <==> Contents(l.slots) == []
  {
  }
}
