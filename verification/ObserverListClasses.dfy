/** ObserverList and its iterator as the source has them: objects whose methods update fields in
    place. Each method is proved against the functions of ObserverListModel. */
module ObserverListClasses {
  import opened Options
  import opened ObserverListModel

  class ObserverList {
    const policy: Policy
    const checkEmpty: bool
    var slots: Slots
    var count: int
    var live: seq<Iter>

    ghost function Model(): ListState
      reads this
    {
      ListState(policy, slots, count, |live|)
    }

    /** `live_iterators_` holds each attached iterator once. */
    ghost predicate Linked()
      reads this, live
    {
      Distinct(live) && forall it :: it in live ==> it.list == this
    }

    ghost predicate Valid()
      reads this, live
    {
      Linked() && ListInv(Model())
    }

    constructor (policy: Policy, checkEmpty: bool)
      ensures Valid() && this.policy == policy && this.checkEmpty == checkEmpty
      ensures slots == [] && live == []
    {
      this.policy, this.checkEmpty := policy, checkEmpty;
      slots, count, live := [], 0, [];
    }

    method FindObserver(o: Observer) returns (i: nat)
      ensures i == Find(slots, o)
    {
      i := 0;
      while i < |slots| && slots[i] != Some(o)
        invariant i <= |slots|
        invariant forall k :: 0 <= k < i ==> slots[k] != Some(o)
      {
        i := i + 1;
      }
    }

    /** A null argument is answered with false. */
    method HasObserver(o: Option<Observer>) returns (b: bool)
      ensures b <==> o.Some? && o.value in Contents(slots)
    {
      if o == None {
        return false;
      }
      var i := FindObserver(o.value);
      b := i != |slots|;
    }

    method AddObserver(o: Observer)
      requires Valid()
      modifies this`slots, this`count
      ensures Valid() && Model() == Added(old(Model()), o)
      ensures Contents(slots) == if o in old(Contents(slots)) then old(Contents(slots)) else old(Contents(slots)) + [o]
    {
      AddRefines(Model(), o);
      var has := HasObserver(Some(o));
      if has {
        return;
      }
      count := count + 1;
      slots := slots + [Some(o)];
    }

    method RemoveObserver(o: Observer)
      requires Valid()
      modifies this`slots, this`count
      ensures Valid() && Model() == Removed(old(Model()), o)
      ensures DeletesOne(old(Contents(slots)), o, Contents(slots)) && o !in Contents(slots)
    {
      ghost var was := Model();
      RemoveRefines(was, o);
      var i := FindObserver(o);
      if i == |slots| {
        return;
      }
      if slots[i].Some? {
        count := count - 1;
      }
      if live == [] {
        slots := slots[..i] + slots[i + 1..];
      } else {
        slots := slots[i := None];
      }
      assert Model() == Removed(was, o);
    }

    method Clear()
      requires Valid()
      modifies this`slots, this`count
      ensures Valid() && Model() == Cleared(old(Model()))
      ensures Contents(slots) == []
    {
      ClearRefines(Model());
      if live == [] {
        slots := [];
      } else {
        var i := 0;
        while i < |slots|
          invariant 0 <= i <= |slots| == |old(slots)|
          invariant forall k :: 0 <= k < i ==> slots[k] == None
        {
          slots := slots[i := None];
          i := i + 1;
        }
        assert slots == Cleared(old(Model())).slots;
      }
      count := 0;
    }

    method IsEmpty() returns (b: bool)
      requires Valid()
      ensures b <==> Contents(slots) == []
    {
      b := count == 0;
    }

    /** Erases the slots marked for removal, keeping the others in order. */
    method Compact()
      modifies this`slots
      ensures slots == Compacted(old(slots))
    {
      var kept: Slots, i := [], 0;
      while i < |slots|
        invariant 0 <= i <= |slots|
        invariant kept + Compacted(slots[i..]) == Compacted(slots)
      {
        assert slots[i..][0] == slots[i] && slots[i..][1..] == slots[i + 1..];
        if slots[i].Some? {
          kept := kept + [slots[i]];
        }
        i := i + 1;
      }
      slots := kept;
    }

    /** `begin()`: no live iterator is made for an empty vector. */
    method Begin() returns (it: Iter)
      requires Valid()
      modifies this`live
      ensures fresh(it) && it.Valid() && Valid()
      ensures if slots == [] then it.Position() == DETACHED && live == old(live)
              else it.list == this && it.Position() == First(Model()) && live == old(live) + [it]
    {
      if slots == [] {
        it := new Iter();
      } else {
        it := new Iter.Over(this);
      }
    }

    /** The destructor. Returns whether its final check passes. */
    method Destroy() returns (ok: bool)
      requires Valid()
      modifies this`slots, this`live, live
      ensures live == [] && forall it :: it in old(live) ==> it.list == null
      ensures forall it :: it in old(live) ==> it.index == old(it.index) && it.max == old(it.max)
      ensures ok <==> (checkEmpty ==> old(Contents(slots)) == [])
    {
      while live != []
        invariant Linked() && slots == old(slots)
        invariant forall it :: it in live ==> it in old(live)
        invariant forall it :: it in old(live) ==> it in live || it.list == null
        invariant forall it :: it in old(live) ==> it.index == old(it.index) && it.max == old(it.max)
        decreases |live|
      {
        ghost var before, head := live, live[0];
        assert head in live;
        live[0].Invalidate();
        LeavesOne(before, head, live);
      }
      ok := true;
      if checkEmpty {
        CompactedContents(slots);
        Compact();
        ok := slots == [];
      }
    }
  }

  lemma {:induction false} LeavesOne<T>(s: seq<T>, x: T, r: seq<T>)
    requires x in s && DeletesOne(s, x, r)
    ensures |r| == |s| - 1
    ensures forall y :: y in r ==> y in s
    ensures forall y :: y in s ==> y in r || y == x
    ensures Distinct(s) ==> Distinct(r) && x !in r
  {
    var i :| 0 <= i < |s| && s[i] == x && r == s[..i] + s[i + 1..];
    assert forall k :: 0 <= k < |r| ==> r[k] == s[if k < i then k else k + 1];
    forall y | y in s && y != x ensures y in r {
      var k :| 0 <= k < |s| && s[k] == y;
      assert r[if k < i then k else k - 1] == y;
    }
  }

  class Iter {
    var list: ObserverList?
    var index: nat
    var max: Option<nat>

    ghost function Position(): Cursor
      reads this
    {
      Cursor(list != null, index, max)
    }

    ghost predicate Valid()
      reads this, list, if list == null then [] else list.live
    {
      list != null ==> this in list.live && list.Valid()
    }

    /** The default iterator, which is also `end()`. */
    constructor ()
      ensures Valid() && Position() == DETACHED
    {
      list, index, max := null, 0, Some(0);
    }

    constructor Over(l: ObserverList)
      requires l.Valid()
      modifies l`live
      ensures Valid() && list == l && Position() == First(l.Model())
      ensures l.live == old(l.live) + [this] && l.Model() == Attach(old(l.Model()))
    {
      list, index := null, 0;
      max := if l.policy == All then None else Some(|l.slots|);
      new;
      SetList(l);
      EnsureValidIndex();
    }

    constructor CopyOf(other: Iter)
      requires other.Valid()
      modifies if other.list == null then {} else {other.list}`live
      ensures Valid() && Position() == other.Position() && list == other.list == old(other.list)
      ensures list != null ==>
                list.Model() == Attach(old(other.list.Model())) && list.live == old(other.list.live) + [this]
    {
      list, index, max := null, 0, None;
      new;
      Follow(other);
    }

    method SetList(l: ObserverList)
      requires list == null && l.Valid()
      modifies this`list, l`live
      ensures list == l && l.Valid() && l.live == old(l.live) + [this]
    {
      assert this !in l.live;
      list := l;
      l.live := l.live + [this];
    }

    method Invalidate()
      requires list != null ==> this in list.live && list.Linked()
      modifies this`list, if list == null then {} else {list}`live
      ensures list == null
      ensures old(list) != null ==> old(list).Linked() && DeletesOne(old(list.live), this, old(list).live)
    {
      if list != null {
        var l := list;
        list := null;
        var i :| 0 <= i < |l.live| && l.live[i] == this;
        ghost var before := l.live;
        l.live := l.live[..i] + l.live[i + 1..];
        assert DeletesOne(before, this, l.live);
        LeavesOne(before, this, l.live);
      }
    }

    method IsOnlyRemainingNode() returns (b: bool)
      requires list != null ==> this in list.live && list.Linked()
      ensures b <==> list != null && |list.live| == 1
    {
      b := list != null && list.live[0] == list.live[|list.live| - 1];
    }

    /** The destructor: the only remaining iterator compacts the list it leaves. */
    method Drop()
      requires Valid()
      modifies this`list, list
      ensures list == null && Valid()
      ensures old(list) != null ==>
                && old(list).Valid() && old(list).Model() == Detach(old(list.Model()))
                && DeletesOne(old(list.live), this, old(list).live)
                && Contents(old(list).slots) == old(Contents(list.slots))
    {
      var l := list;
      if l != null {
        DetachRefines(l.Model());
        ghost var before := l.live;
        var last := IsOnlyRemainingNode();
        if last {
          l.Compact();
        }
        Invalidate();
        LeavesOne(before, this, l.live);
      }
    }

    /** `operator=`: leaves the list this iterator was on, then joins the other's. */
    method Assign(other: Iter)
      requires Valid() && other.Valid()
      modifies this, list, other.list
      ensures Valid() && other.Valid() && other.list == old(other.list)
      ensures Position() == old(other.Position()) == other.Position() && list == other.list
      ensures list == old(list) && list != null ==> list.Model() == old(list.Model())
      ensures list != old(list) && list != null ==> list.Model() == Attach(old(other.list.Model()))
      ensures list != old(list) && old(list) != null ==>
                old(list).Valid() && old(list).Model() == Detach(old(list.Model()))
    {
      if other == this {
        return;
      }
      assert list != null && list == other.list ==> |list.live| > 1;
      var l := list;
      ghost var before := if l == null then [] else l.live;
      Drop();
      if l != null {
        LeavesOne(before, this, l.live);
      }
      Follow(other);
    }

    /** An iterator on no list takes the other's position, on the same list. */
    method Follow(other: Iter)
      requires list == null && other != this && other.Valid()
      modifies this, if other.list == null then {} else {other.list}`live
      ensures Valid() && other.Valid() && Position() == other.Position() && list == other.list
      ensures list != null ==> list.live == old(other.list.live) + [this]
    {
      if other.list != null {
        SetList(other.list);
      }
      index, max := other.index, other.max;
    }

    method EnsureValidIndex()
      requires list != null
      modifies this`index
      ensures index == Settle(list.slots, old(index), Bound(list.slots, max))
    {
      var bound := Bound(list.slots, max);
      while index < bound && list.slots[index].None?
        invariant Settle(list.slots, index, bound) == Settle(list.slots, old(index), bound)
        decreases bound - index
      {
        index := index + 1;
      }
    }

    /** `operator++`: does nothing, and looks at no list, once the list is gone. */
    method Next()
      modifies this`index
      ensures Position() == Advance(if list == null then [] else list.slots, old(Position()))
    {
      if list != null {
        index := index + 1;
        EnsureValidIndex();
      }
    }

    method IsEnd() returns (b: bool)
      ensures b <==> AtEnd(if list == null then [] else list.slots, Position())
    {
      b := list == null || index == Bound(list.slots, max);
    }

    method Equals(other: Iter) returns (b: bool)
      ensures other.list == null ==> (b <==> AtEnd(if list == null then [] else list.slots, Position()))
      ensures list == null && other.list != null ==> (b <==> AtEnd(other.list.slots, other.Position()))
      ensures list != null && other.list != null && list != other.list ==>
                (b <==> AtEnd(list.slots, Position()) && AtEnd(other.list.slots, other.Position()))
      ensures list != null && list == other.list ==> (b <==> SameCursor(list.slots, Position(), other.Position(), true))
    {
      var e1 := IsEnd();
      var e2 := other.IsEnd();
      b := (e1 && e2) || (list == other.list && index == other.index);
    }

    /** `operator*` demands an iterator that is not at its end. */
    method Current() returns (o: Option<Observer>)
      requires list != null && index < Bound(list.slots, max)
      ensures o == list.slots[index]
    {
      o := list.slots[index];
    }
  }
}
