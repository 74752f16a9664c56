/** `scoped_refptr` over an intrusively counted object, as mutable objects. References are conserved:
    each operation keeps, for every counted object, its count equal to the smart pointers referring to
    it plus the references handed out by `release()`, so any sequence of operations does. */
module ScopedRefptr {
  class RefCounted {
    var count: int
    var deleted: bool

    constructor ()
      ensures count == 0 && !deleted
    {
      count, deleted := 0, false;
    }

    method AddRef()
      requires !deleted
      modifies this
      ensures count == old(count) + 1 && !deleted
    {
      count := count + 1;
    }

    /** Deletes the object together with its last reference. */
    method Release() returns (droppedLast: bool)
      requires !deleted && count > 0
      modifies this
      ensures count == old(count) - 1
      ensures droppedLast == deleted == (count == 0)
    {
      count := count - 1;
      droppedLast := count == 0;
      if droppedLast {
        deleted := true;
      }
    }
  }

  ghost function Holders(pool: set<Refptr>, o: RefCounted): set<Refptr>
    reads pool
  {
    set p | p in pool && p.ptr == o
  }

  /** `pool` are the smart pointers in existence, `objs` all objects that were ever referred to and
      `handed` the references that `release()` has handed out and that were not yet given back. An
      object is deleted exactly when nothing refers to it any more. */
  ghost predicate Conserved(pool: set<Refptr>, objs: set<RefCounted>, handed: multiset<RefCounted>)
    reads pool, objs
  {
    && (forall p :: p in pool && p.ptr != null ==> p.ptr in objs && !p.ptr.deleted)
    && (forall o :: o in objs ==> o.count == |Holders(pool, o)| + handed[o])
    && (forall o :: o in objs ==> (o.deleted <==> o.count == 0))
    && (forall o :: o in handed ==> o in objs)
  }

  /** A raw pointer that may be turned into a reference: null, to a living object, or to a new one. */
  ghost predicate Usable(p: RefCounted?, objs: set<RefCounted>)
    reads p
  {
    p != null ==> !p.deleted && (p !in objs ==> p.count == 0)
  }

  ghost function Known(objs: set<RefCounted>, p: RefCounted?): set<RefCounted> {
    if p == null then objs else objs + {p}
  }

  /** In a conserved state an object is deleted if and only if no smart pointer and no handed-out
      reference refers to it. */
  lemma {:induction false} NoDanglingReference(
      pool: set<Refptr>, objs: set<RefCounted>, handed: multiset<RefCounted>, o: RefCounted)
    requires Conserved(pool, objs, handed) && o in objs
    ensures o.deleted <==> Holders(pool, o) == {} && handed[o] == 0
    ensures o in handed ==> o.count > 0
  {
  }

  class Refptr {
    var ptr: RefCounted?

    /** From a raw pointer, which must be null or refer to a living object. */
    constructor (
        p: RefCounted?, ghost pool: set<Refptr>, ghost objs: set<RefCounted>, ghost handed: multiset<RefCounted>)
      requires Conserved(pool, objs, handed) && Usable(p, objs)
      modifies p
      ensures ptr == p && Conserved(pool + {this}, Known(objs, p), handed)
    {
      ptr := p;
      new;
      if ptr != null {
        ptr.AddRef();
      }
      forall o | o in Known(objs, p) ensures o.count == |Holders(pool + {this}, o)| + handed[o] {
        assert o !in objs ==> old(Holders(pool, o)) == {};
        MovedHolder(old(Holders(pool, o)), Holders(pool + {this}, o), this);
      }
    }

    /** The move constructor: takes the other's reference without touching the count. */
    constructor Move(
        r: Refptr, ghost pool: set<Refptr>, ghost objs: set<RefCounted>, ghost handed: multiset<RefCounted>)
      requires r in pool && Conserved(pool, objs, handed)
      modifies r
      ensures ptr == old(r.ptr) && r.ptr == null && Conserved(pool + {this}, objs, handed)
    {
      ptr := r.ptr;
      new;
      r.ptr := null;
      forall o | o in objs ensures |Holders(pool + {this}, o)| == |old(Holders(pool, o))| {
        SwappedHolders(old(Holders(pool, o)), Holders(pool + {this}, o), this, r);
      }
    }

    /** The destructor: this pointer leaves the pool, and its object goes with the last reference. */
    method Destroy(ghost pool: set<Refptr>, ghost objs: set<RefCounted>, ghost handed: multiset<RefCounted>)
      requires this in pool && Conserved(pool, objs, handed)
      modifies ptr
      ensures Conserved(pool - {this}, objs, handed)
      ensures ptr != null ==> (ptr.deleted <==> old(Holders(pool, ptr)) == {this} && handed[ptr] == 0)
    {
      if ptr != null {
        OnlyHolder(Holders(pool, ptr), this);
        var last := ptr.Release();
      }
      forall o | o in objs ensures o.count == |Holders(pool - {this}, o)| + handed[o] {
        MovedHolder(old(Holders(pool, o)), Holders(pool - {this}, o), this);
      }
    }

    /** `release()`: the caller now owns the reference. */
    method ReleasePointer(ghost pool: set<Refptr>, ghost objs: set<RefCounted>, ghost handed: multiset<RefCounted>)
      returns (p: RefCounted?)
      requires this in pool && Conserved(pool, objs, handed)
      modifies this
      ensures ptr == null && p == old(ptr)
      ensures p == null ==> Conserved(pool, objs, handed)
      ensures p != null ==> Conserved(pool, objs, handed + multiset{p})
    {
      p := ptr;
      ptr := null;
      forall o | o in objs ensures |Holders(pool, o)| == |old(Holders(pool, o))| - if o == p then 1 else 0 {
        MovedHolder(old(Holders(pool, o)), Holders(pool, o), this);
      }
    }

    /** Assignment of a raw pointer: the new reference is taken before the old one is dropped, so that
        assigning the object already held never deletes it. */
    method AssignRaw(
        p: RefCounted?, ghost pool: set<Refptr>, ghost objs: set<RefCounted>, ghost handed: multiset<RefCounted>)
      requires this in pool && Conserved(pool, objs, handed) && Usable(p, objs)
      modifies this, ptr, p
      ensures ptr == p && Conserved(pool, Known(objs, p), handed)
    {
      assert ptr != null ==> this in Holders(pool, ptr);
      TakeThenDrop(p, ptr);
      ptr := p;
      forall o | o in Known(objs, p) ensures o.count == |Holders(pool, o)| + handed[o] {
        assert o !in objs ==> old(Holders(pool, o)) == {};
        MovedHolder(old(Holders(pool, o)), Holders(pool, o), this);
      }
      forall q | q in pool && q.ptr != null ensures !q.ptr.deleted {
        assert q in Holders(pool, q.ptr);
      }
    }

    method Assign(r: Refptr, ghost pool: set<Refptr>, ghost objs: set<RefCounted>, ghost handed: multiset<RefCounted>)
      requires this in pool && r in pool && Conserved(pool, objs, handed)
      modifies this, ptr, r.ptr
      ensures ptr == r.ptr == old(r.ptr) && Conserved(pool, objs, handed)
    {
      AssignRaw(r.ptr, pool, objs, handed);
      assert Known(objs, r.ptr) == objs;
    }

    method Swap(r: Refptr, ghost pool: set<Refptr>, ghost objs: set<RefCounted>, ghost handed: multiset<RefCounted>)
      requires this in pool && r in pool && Conserved(pool, objs, handed)
      modifies this, r
      ensures ptr == old(r.ptr) && r.ptr == old(ptr) && Conserved(pool, objs, handed)
    {
      var p := ptr;
      ptr := r.ptr;
      r.ptr := p;
      forall o | o in objs ensures |Holders(pool, o)| == |old(Holders(pool, o))| {
        SwappedHolders(old(Holders(pool, o)), Holders(pool, o), this, r);
      }
    }

    /** Move assignment: a temporary takes the other's reference, is swapped with this, and goes away
        with what this held before. */
    method MoveAssign(
        r: Refptr, ghost pool: set<Refptr>, ghost objs: set<RefCounted>, ghost handed: multiset<RefCounted>)
      requires this in pool && r in pool && Conserved(pool, objs, handed)
      modifies this, r, ptr
      ensures ptr == old(r.ptr) && (r != this ==> r.ptr == null) && Conserved(pool, objs, handed)
    {
      var temp := new Refptr.Move(r, pool, objs, handed);
      temp.Swap(this, pool + {temp}, objs, handed);
      temp.Destroy(pool + {temp}, objs, handed);
      assert pool + {temp} - {temp} == pool;
    }
  }

  /** The new reference is taken before the old one is dropped. */
  method TakeThenDrop(taken: RefCounted?, dropped: RefCounted?)
    requires taken != null ==> !taken.deleted
    requires dropped != null ==> !dropped.deleted && dropped.count > 0
    modifies taken, dropped
    ensures taken != null && taken == dropped ==> !taken.deleted && taken.count == old(taken.count)
    ensures taken != null && taken != dropped ==> !taken.deleted && taken.count == old(taken.count) + 1
    ensures dropped != null && taken != dropped ==>
              dropped.count == old(dropped.count) - 1 && (dropped.deleted <==> dropped.count == 0)
  {
    if taken != null {
      taken.AddRef();
    }
    if dropped != null {
      var last := dropped.Release();
    }
  }

  /** One smart pointer joining or leaving the holders of an object changes their number by one. */
  lemma {:induction false} MovedHolder(before: set<Refptr>, after: set<Refptr>, p: Refptr)
    requires before - {p} == after - {p}
    ensures |after| == |before| - (if p in before then 1 else 0) + (if p in after then 1 else 0)
  {
    WithoutHolder(before, p);
    WithoutHolder(after, p);
  }

  lemma {:induction false} WithoutHolder(s: set<Refptr>, p: Refptr)
    ensures |s| == |s - {p}| + if p in s then 1 else 0
  {
    assert s == if p in s then (s - {p}) + {p} else s - {p};
  }

  lemma {:induction false} OnlyHolder(holders: set<Refptr>, p: Refptr)
    requires p in holders
    ensures |holders| >= 1 && (|holders| == 1 <==> holders == {p})
  {
    assert holders == (holders - {p}) + {p};
  }

  lemma {:induction false} CountApart(s: set<Refptr>, p: Refptr, r: Refptr)
    ensures |s| == |s - {p, r}| + (if p in s then 1 else 0) + (if r in s && r != p then 1 else 0)
  {
    WithoutHolder(s, p);
    WithoutHolder(s - {p}, r);
    assert s - {p} - {r} == s - {p, r};
  }

  lemma {:induction false} SwappedHolders(before: set<Refptr>, after: set<Refptr>, p: Refptr, r: Refptr)
    requires before - {p, r} == after - {p, r}
    requires (p in after <==> r in before) && (r in after <==> p in before)
    ensures |after| == |before|
  {
    CountApart(before, p, r);
    CountApart(after, p, r);
  }

  /** Giving back a reference that `release()` had handed out. */
  method GiveBack(
      o: RefCounted, ghost pool: set<Refptr>, ghost objs: set<RefCounted>, ghost handed: multiset<RefCounted>)
    requires o in handed && Conserved(pool, objs, handed)
    modifies o
    ensures Conserved(pool, objs, handed - multiset{o})
    ensures o.deleted <==> old(Holders(pool, o)) == {} && handed[o] == 1
  {
    NoDanglingReference(pool, objs, handed, o);
    var last := o.Release();
    assert Holders(pool, o) == old(Holders(pool, o));
    assert |Holders(pool, o)| == 0 <==> Holders(pool, o) == {};
    forall q | q in pool && q.ptr != null ensures !q.ptr.deleted {
      assert q in Holders(pool, q.ptr);
    }
  }

  // ---------- Every run ----------

  lemma {:induction false} WithoutOne(s: seq<RefCounted>, k: nat)
    requires k < |s|
    ensures multiset(Omit(s, k)) == multiset(s) - multiset{s[k]}
  {
    assert s == s[..k] + [s[k]] + s[k + 1..];
  }

  /** One operation of a program; pointers and handed-out references are named by index. */
  datatype Command =
    | Create | CreateNull | CopyOf(i: nat) | MoveOf(i: nat) | Wrap(k: nat)
    | AssignNull(i: nat) | AssignGet(i: nat, j: nat) | AssignCopy(i: nat, j: nat) | AssignMove(i: nat, j: nat)
    | AssignNew(i: nat) | AssignOwned(i: nat, k: nat)
    | SwapWith(i: nat, j: nat) | Hand(i: nat) | Return(k: nat) | Drop(i: nat)

  predicate Makes(c: Command) {
    c.Create? || c.AssignNew?
  }

  /** What a program's smart pointers and the raw references it owns refer to. */
  datatype Refs = Refs(ptrs: seq<RefCounted?>, raws: seq<RefCounted>)

  function Omit<T>(s: seq<T>, i: nat): seq<T>
    requires i < |s|
  {
    s[..i] + s[i + 1..]
  }

  /** What a command does, counting left aside; `made` is the object that it makes, if it makes one.
      `AssignNew` makes a new smart pointer if there is none to assign to; other commands that name
      nothing that exists do nothing. */
  function Effect(r: Refs, c: Command, made: RefCounted?): Refs {
    var n, m := |r.ptrs|, |r.raws|;
    match c
    case Create => r.(ptrs := r.ptrs + [made])
    case CreateNull => r.(ptrs := r.ptrs + [null])
    case CopyOf(i) => if i < n then r.(ptrs := r.ptrs + [r.ptrs[i]]) else r
    case MoveOf(i) => if i < n then r.(ptrs := r.ptrs[i := null] + [r.ptrs[i]]) else r
    case Wrap(k) => if k < m then r.(ptrs := r.ptrs + [r.raws[k]]) else r
    case AssignNull(i) => if i < n then r.(ptrs := r.ptrs[i := null]) else r
    case AssignGet(i, j) => if i < n && j < n then r.(ptrs := r.ptrs[i := r.ptrs[j]]) else r
    case AssignCopy(i, j) => if i < n && j < n then r.(ptrs := r.ptrs[i := r.ptrs[j]]) else r
    case AssignMove(i, j) => if i < n && j < n && i != j then r.(ptrs := r.ptrs[i := r.ptrs[j]][j := null]) else r
    case AssignNew(i) => if i < n then r.(ptrs := r.ptrs[i := made]) else r.(ptrs := r.ptrs + [made])
    case AssignOwned(i, k) => if i < n && k < m then r.(ptrs := r.ptrs[i := r.raws[k]]) else r
    case SwapWith(i, j) => if i < n && j < n then r.(ptrs := r.ptrs[i := r.ptrs[j]][j := r.ptrs[i]]) else r
    case Hand(i) =>
      if i < n then Refs(r.ptrs[i := null], if r.ptrs[i] == null then r.raws else r.raws + [r.ptrs[i]]) else r
    case Return(k) => if k < m then r.(raws := Omit(r.raws, k)) else r
    case Drop(i) => if i < n then r.(ptrs := Omit(r.ptrs, i)) else r
  }

  lemma {:induction false} EffectOfDrop(r: Refs, i: nat)
    requires i < |r.ptrs|
    ensures Effect(r, Drop(i), null) == Refs(Omit(r.ptrs, i), r.raws)
  {
  }

  function Creations(commands: seq<Command>): nat {
    if commands == [] then 0
    else Creations(commands[..|commands| - 1]) + if Makes(commands[|commands| - 1]) then 1 else 0
  }

  /** What a program comes to that makes the objects `made`, in this order. */
  function Outcome(commands: seq<Command>, made: seq<RefCounted>): Refs
    requires Creations(commands) <= |made|
  {
    if commands == [] then Refs([], [])
    else
      var before, c := commands[..|commands| - 1], commands[|commands| - 1];
      Effect(Outcome(before, made), c, if Makes(c) then made[Creations(before)] else null)
  }

  lemma {:induction false} OutcomeOfMore(commands: seq<Command>, made: seq<RefCounted>, more: seq<RefCounted>)
    requires Creations(commands) <= |made|
    ensures Outcome(commands, made + more) == Outcome(commands, made)
  {
    if commands != [] {
      OutcomeOfMore(commands[..|commands| - 1], made, more);
    }
  }

  lemma {:induction false} OutcomeStep(commands: seq<Command>, k: nat, made: seq<RefCounted>, o: RefCounted?)
    requires k < |commands| && Creations(commands[..k]) == |made| && (Makes(commands[k]) <==> o != null)
    ensures var all := made + if o != null then [o] else [];
            && Creations(commands[..k + 1]) == |all|
            && Outcome(commands[..k + 1], all) == Effect(Outcome(commands[..k], made), commands[k], o)
  {
    assert commands[..k + 1][..k] == commands[..k];
    OutcomeOfMore(commands[..k], made, if o != null then [o] else []);
  }

  lemma {:induction false} OmitOne(s: seq<Refptr>, i: nat)
    requires i < |s| && forall j, k :: 0 <= j < k < |s| ==> s[j] != s[k]
    ensures var r := Omit(s, i);
            && (forall j, k :: 0 <= j < k < |r| ==> r[j] != r[k])
            && (forall q :: q in r <==> q in s && q != s[i])
  {
    var r := Omit(s, i);
    assert forall k :: 0 <= k < |r| ==> r[k] == s[if k < i then k else k + 1];
    forall q | q in s && q != s[i] ensures q in r {
      var k :| 0 <= k < |s| && s[k] == q;
      assert r[if k < i then k else k - 1] == q;
    }
  }

  ghost function TargetsOf(ptrs: seq<Refptr>): (r: seq<RefCounted?>)
    reads ptrs
    ensures |r| == |ptrs| && forall i :: 0 <= i < |ptrs| ==> r[i] == ptrs[i].ptr
  {
    seq(|ptrs|, i requires 0 <= i < |ptrs| reads ptrs => ptrs[i].ptr)
  }

  lemma {:induction false} TargetsOmit(ptrs: seq<Refptr>, i: nat)
    requires i < |ptrs|
    ensures TargetsOf(Omit(ptrs, i)) == Omit(TargetsOf(ptrs), i)
  {
    var r := Omit(ptrs, i);
    assert forall k :: 0 <= k < |r| ==> r[k] == ptrs[if k < i then k else k + 1];
  }

  /** A program's smart pointers and the raw references it owns. */
  class Program {
    var ptrs: seq<Refptr>
    var raws: seq<RefCounted>
    ghost var objs: set<RefCounted>

    ghost function Pool(): set<Refptr>
      reads this
    {
      set p | p in ptrs
    }

    ghost function Targets(): seq<RefCounted?>
      reads this, ptrs
    {
      TargetsOf(ptrs)
    }

    ghost function Model(): Refs
      reads this, ptrs
    {
      Refs(Targets(), raws)
    }

    ghost predicate Valid()
      reads this, Pool(), objs
    {
      && (forall i, j :: 0 <= i < j < |ptrs| ==> ptrs[i] != ptrs[j])
      && Conserved(Pool(), objs, multiset(raws))
    }

    constructor ()
      ensures Valid() && ptrs == [] && raws == [] && objs == {}
    {
      ptrs, raws, objs := [], [], {};
    }

    /** What smart pointers a step adds are new. */
    twostate predicate Extends()
      reads this
    {
      forall p :: p in Pool() ==> p in old(Pool()) || fresh(p)
    }

    /** A new smart pointer joins the pool, perhaps with a new object. */
    method Join(p: Refptr, ghost known: set<RefCounted>)
      requires p !in ptrs && Conserved(Pool() + {p}, known, multiset(raws))
      requires forall i, j :: 0 <= i < j < |ptrs| ==> ptrs[i] != ptrs[j]
      modifies this`ptrs, this`objs
      ensures Valid() && ptrs == old(ptrs) + [p] && objs == known
    {
      ghost var pool := Pool();
      ptrs, objs := ptrs + [p], known;
      assert Pool() == pool + {p};
    }

    /** Construction from a raw pointer the program may use. */
    method Construct(o: RefCounted?)
      requires Valid() && Usable(o, objs)
      modifies this`ptrs, this`objs, o
      ensures Valid() && Extends() && objs == Known(old(objs), o)
      ensures Targets() == old(Targets()) + [o]
    {
      var p := new Refptr(o, Pool(), objs, multiset(raws));
      Join(p, Known(objs, o));
    }

    method ConstructNew() returns (o: RefCounted)
      requires Valid()
      modifies this`ptrs, this`objs
      ensures Valid() && Extends() && fresh(o) && objs == old(objs) + {o}
      ensures Model() == Effect(old(Model()), Create, o)
    {
      o := new RefCounted();
      Construct(o);
    }

    method ConstructNull()
      requires Valid()
      modifies this`ptrs, this`objs
      ensures Valid() && Extends() && objs == old(objs) && Model() == Effect(old(Model()), CreateNull, null)
    {
      Construct(null);
    }

    method ConstructCopy(i: nat)
      requires Valid()
      modifies this`ptrs, this`objs, objs
      ensures Valid() && Extends() && objs == old(objs) && Model() == Effect(old(Model()), CopyOf(i), null)
    {
      if i < |ptrs| {
        assert ptrs[i] in Pool();
        Construct(ptrs[i].ptr);
      }
    }

    method ConstructFromRaw(k: nat)
      requires Valid()
      modifies this`ptrs, this`objs, objs
      ensures Valid() && Extends() && objs == old(objs) && Model() == Effect(old(Model()), Wrap(k), null)
    {
      if k < |raws| {
        NoDanglingReference(Pool(), objs, multiset(raws), raws[k]);
        Construct(raws[k]);
      }
    }

    method MovePointer(i: nat)
      requires Valid() && i < |ptrs|
      modifies this`ptrs, this`objs, ptrs[i]
      ensures Valid() && Extends() && objs == old(objs)
      ensures Targets() == old(Targets())[i := null] + [old(ptrs[i].ptr)]
    {
      assert ptrs[i] in Pool();
      var p := new Refptr.Move(ptrs[i], Pool(), objs, multiset(raws));
      Join(p, objs);
    }

    method ConstructMove(i: nat)
      requires Valid()
      modifies this`ptrs, this`objs, Pool()
      ensures Valid() && Extends() && objs == old(objs) && Model() == Effect(old(Model()), MoveOf(i), null)
    {
      if i < |ptrs| {
        assert ptrs[i] in Pool();
        MovePointer(i);
      }
    }

    method Reset(i: nat, o: RefCounted?)
      requires Valid() && i < |ptrs| && Usable(o, objs)
      modifies this`objs, ptrs[i], objs, o
      ensures Valid() && Targets() == old(Targets())[i := o] && objs == Known(old(objs), o)
    {
      assert ptrs[i] in Pool();
      ptrs[i].AssignRaw(o, Pool(), objs, multiset(raws));
      objs := Known(objs, o);
    }

    method ResetToNew(i: nat) returns (o: RefCounted)
      requires Valid()
      modifies this`ptrs, this`objs, Pool(), objs
      ensures Valid() && Extends() && fresh(o) && objs == old(objs) + {o}
      ensures Model() == Effect(old(Model()), AssignNew(i), o)
    {
      if i < |ptrs| {
        assert ptrs[i] in Pool();
        o := new RefCounted();
        Reset(i, o);
      } else {
        o := ConstructNew();
      }
    }

    method ResetToOwned(i: nat, k: nat)
      requires Valid()
      modifies this`objs, Pool(), objs
      ensures Valid() && objs == old(objs) && Model() == Effect(old(Model()), AssignOwned(i, k), null)
    {
      if i < |ptrs| && k < |raws| {
        assert ptrs[i] in Pool();
        NoDanglingReference(Pool(), objs, multiset(raws), raws[k]);
        Reset(i, raws[k]);
      }
    }

    method ResetToNull(i: nat)
      requires Valid()
      modifies this`objs, Pool(), objs
      ensures Valid() && objs == old(objs) && Model() == Effect(old(Model()), AssignNull(i), null)
    {
      if i < |ptrs| {
        assert ptrs[i] in Pool();
        Reset(i, null);
      }
    }

    method ResetToRaw(i: nat, j: nat)
      requires Valid()
      modifies this`objs, Pool(), objs
      ensures Valid() && objs == old(objs) && Model() == Effect(old(Model()), AssignGet(i, j), null)
    {
      if i < |ptrs| && j < |ptrs| {
        assert ptrs[i] in Pool() && ptrs[j] in Pool();
        Reset(i, ptrs[j].ptr);
      }
    }

    method AssignPointer(i: nat, j: nat)
      requires Valid()
      modifies Pool(), objs
      ensures Valid() && Model() == Effect(old(Model()), AssignCopy(i, j), null)
    {
      if i < |ptrs| && j < |ptrs| {
        assert ptrs[i] in Pool() && ptrs[j] in Pool();
        ptrs[i].Assign(ptrs[j], Pool(), objs, multiset(raws));
      }
    }

    method MoveAssignPointer(i: nat, j: nat)
      requires Valid()
      modifies Pool(), objs
      ensures Valid() && Model() == Effect(old(Model()), AssignMove(i, j), null)
    {
      if i < |ptrs| && j < |ptrs| {
        assert ptrs[i] in Pool() && ptrs[j] in Pool();
        ptrs[i].MoveAssign(ptrs[j], Pool(), objs, multiset(raws));
      }
    }

    method SwapPointers(i: nat, j: nat)
      requires Valid()
      modifies Pool()
      ensures Valid() && Model() == Effect(old(Model()), SwapWith(i, j), null)
    {
      if i < |ptrs| && j < |ptrs| {
        assert ptrs[i] in Pool() && ptrs[j] in Pool();
        ptrs[i].Swap(ptrs[j], Pool(), objs, multiset(raws));
      }
    }

    method ReleaseTo(i: nat)
      requires Valid() && i < |ptrs|
      modifies this`raws, ptrs[i]
      ensures Valid() && Targets() == old(Targets())[i := null]
      ensures var o := old(ptrs[i].ptr); if o == null then raws == old(raws) else raws == old(raws) + [o]
    {
      assert ptrs[i] in Pool();
      ghost var handed := multiset(raws);
      var o := ptrs[i].ReleasePointer(Pool(), objs, handed);
      if o != null {
        raws := raws + [o];
        assert multiset(raws) == handed + multiset{o};
      }
    }

    method HandOut(i: nat)
      requires Valid()
      modifies this`raws, Pool()
      ensures Valid() && Model() == Effect(old(Model()), Hand(i), null)
    {
      if i < |ptrs| {
        assert ptrs[i] in Pool();
        ReleaseTo(i);
      }
    }

    method ReturnOne(k: nat)
      requires Valid() && k < |raws|
      modifies this`raws, objs
      ensures Valid() && raws == Omit(old(raws), k)
    {
      var o := raws[k];
      WithoutOne(raws, k);
      assert o in raws;
      GiveBack(o, Pool(), objs, multiset(raws));
      raws := Omit(raws, k);
    }

    method ReturnRaw(k: nat)
      requires Valid()
      modifies this`raws, objs
      ensures Valid() && Model() == Effect(old(Model()), Return(k), null)
    {
      if k < |raws| {
        ReturnOne(k);
      }
    }

    method DropOne(i: nat)
      requires Valid() && i < |ptrs|
      modifies this`ptrs, objs
      ensures Valid() && Extends() && Targets() == Omit(old(Targets()), i)
    {
      var p := ptrs[i];
      assert p in Pool();
      OmitOne(ptrs, i);
      p.Destroy(Pool(), objs, multiset(raws));
      ghost var pool := Pool();
      TargetsOmit(ptrs, i);
      ptrs := Omit(ptrs, i);
      assert Pool() == pool - {p};
    }

    method DropPointer(i: nat)
      requires Valid()
      modifies this`ptrs, objs
      ensures Valid() && Extends() && Model() == Effect(old(Model()), Drop(i), null)
    {
      ghost var before := Model();
      if i < |ptrs| {
        DropOne(i);
        EffectOfDrop(before, i);
      }
    }

    method Execute(c: Command) returns (ghost made: RefCounted?)
      requires Valid()
      modifies this, Pool(), objs
      ensures Valid() && Extends() && Model() == Effect(old(Model()), c, made)
      ensures Makes(c) <==> made != null
      ensures made != null ==> fresh(made)
      ensures objs == Known(old(objs), made)
    {
      made := null;
      match c
      case Create => made := ConstructNew();
      case CreateNull => ConstructNull();
      case CopyOf(i) => ConstructCopy(i);
      case MoveOf(i) => ConstructMove(i);
      case Wrap(k) => ConstructFromRaw(k);
      case AssignNull(i) => ResetToNull(i);
      case AssignGet(i, j) => ResetToRaw(i, j);
      case AssignCopy(i, j) => AssignPointer(i, j);
      case AssignMove(i, j) => MoveAssignPointer(i, j);
      case AssignNew(i) => made := ResetToNew(i);
      case AssignOwned(i, k) => ResetToOwned(i, k);
      case SwapWith(i, j) => SwapPointers(i, j);
      case Hand(i) => HandOut(i);
      case Return(k) => ReturnRaw(k);
      case Drop(i) => DropPointer(i);
    }

    /** An object is deleted if and only if nothing of the program refers to it. */
    lemma {:induction false} NothingLeaks()
      requires Valid()
      ensures forall o :: o in objs ==> (o.deleted <==> o !in Model().raws && o !in Model().ptrs)
      ensures forall o :: o in Model().ptrs && o != null ==> o in objs
      ensures forall o :: o in Model().raws ==> o in objs
    {
      forall o | o in objs ensures o.deleted <==> o !in raws && o !in Model().ptrs {
        NoDanglingReference(Pool(), objs, multiset(raws), o);
        if o in Model().ptrs {
          var i :| 0 <= i < |ptrs| && Model().ptrs[i] == o;
          assert ptrs[i] in Holders(Pool(), o);
        } else {
          forall p | p in ptrs ensures p.ptr != o {
            var i :| 0 <= i < |ptrs| && ptrs[i] == p;
            assert Model().ptrs[i] == p.ptr;
          }
          assert Holders(Pool(), o) == {};
        }
      }
      forall o | o in Model().ptrs && o != null ensures o in objs {
        var i :| 0 <= i < |ptrs| && Model().ptrs[i] == o;
        assert ptrs[i] in Pool();
      }
    }
  }

  /** The program has run the commands, and these made the objects `made`, in this order. */
  ghost predicate HasRun(prog: Program, commands: seq<Command>, made: seq<RefCounted>)
    reads prog, prog.Pool(), prog.objs
  {
    && prog.Valid() && |made| == Creations(commands) && prog.Model() == Outcome(commands, made)
    && (forall o :: o in prog.objs ==> o in made) && (forall o :: o in made ==> o in prog.objs)
    && (forall i, j :: 0 <= i < j < |made| ==> made[i] != made[j])
  }

  method RunOne(prog: Program, commands: seq<Command>, k: nat, ghost made: seq<RefCounted>)
    returns (ghost all: seq<RefCounted>)
    requires k < |commands| && HasRun(prog, commands[..k], made)
    modifies prog, prog.Pool(), prog.objs
    ensures HasRun(prog, commands[..k + 1], all)
    ensures fresh(prog.Pool() - old(prog.Pool())) && fresh(prog.objs - old(prog.objs))
  {
    ghost var o := prog.Execute(commands[k]);
    OutcomeStep(commands, k, made, o);
    if o != null {
      all := made + [o];
    } else {
      all := made;
      assert made + [] == made;
    }
  }

  /** A run from nothing leaves exactly the references that its commands say, with `made` the objects
      it created, in order; and of those each is deleted if and only if nothing refers to it any more:
      nothing dangles and nothing leaks. */
  method RunProgram(commands: seq<Command>) returns (prog: Program, ghost made: seq<RefCounted>)
    ensures fresh(prog) && prog.Valid()
    ensures |made| == Creations(commands) && (forall i, j :: 0 <= i < j < |made| ==> made[i] != made[j])
    ensures prog.Model() == Outcome(commands, made)
    ensures forall o :: o in made ==> (o.deleted <==> o !in prog.Model().raws && o !in prog.Model().ptrs)
    ensures forall o :: o in prog.Model().ptrs && o != null ==> o in made
    ensures forall o :: o in prog.Model().raws ==> o in made
  {
    prog := new Program();
    made := [];
    for k := 0 to |commands|
      invariant fresh(prog) && fresh(prog.Pool()) && fresh(prog.objs)
      invariant HasRun(prog, commands[..k], made)
    {
      made := RunOne(prog, commands, k, made);
    }
    assert commands[..|commands|] == commands;
    prog.NothingLeaks();
  }
}
