/**
 The lock-order detector: registration of lock names, the per-thread sets of held locks, the
 recorded order, and the check that runs before every blocking acquire.
 */
module Lockdep {
  import opened BitPacking
  import opened LockOrder

  type Thread = nat

  /** Lock names; the detector only ever compares them. */
  type Name(==, !new)

  // ---------- abstract tables ----------

  /** What the detector knows: ids of live names, their reference counts, the locks each thread
      holds, and the order in which locks were taken. */
  datatype Tables = Tables(
    names: map<Name, int>,
    refs: map<int, int>,
    held: map<Thread, set<int>>,
    order: set<(int, int)>)

  function HeldBy(held: map<Thread, set<int>>, t: Thread): (ids: set<int>) {
    if t in held then held[t] else {}
  }

  /** One more registration of `name`, under `id`. */
  function Registered(d: Tables, name: Name, id: int): (r: Tables) {
    d.(names := d.names[name := id],
       refs := d.refs[id := 1 + if id in d.refs then d.refs[id] else 0])
  }

  /** Every lock held by `t` now precedes `id`. */
  ghost function Ordered(d: Tables, t: Thread, id: int): (r: Tables) {
    d.(held := d.held[t := HeldBy(d.held, t)],
       order := d.order + EdgesInto(HeldBy(d.held, t), id))
  }

  function Locked(d: Tables, t: Thread, id: int): (r: Tables) {
    d.(held := d.held[t := HeldBy(d.held, t) + {id}])
  }

  function Unlocked(d: Tables, t: Thread, id: int): (r: Tables) {
    d.(held := d.held[t := HeldBy(d.held, t) - {id}])
  }

  /** One registration of `id` less; the last one forgets the id altogether. */
  ghost function Unregistered(d: Tables, id: int): (r: Tables)
    requires id in d.refs
  {
    if d.refs[id] != 1 then d.(refs := d.refs[id := d.refs[id] - 1])
    else d.(names := map n | n in d.names && d.names[n] != id :: d.names[n],
            refs := d.refs - {id},
            order := Forget(d.order, id))
  }

  /** Taking `id` with those locks in hand would close a cycle in the order. */
  ghost predicate WouldCycle(d: Tables, t: Thread, id: int) {
    !Acyclic(d.order + EdgesInto(HeldBy(d.held, t), id))
  }

  // ---------- history ----------

  /** What the detector has been through, oldest first. */
  datatype Event = Taking(held: set<int>, id: int) | Freed(id: int)

  /** Some acquire of `b` went ahead with `a` held, and neither id was freed since. */
  ghost predicate Recorded(log: seq<Event>, a: int, b: int) {
    exists k :: 0 <= k < |log| && RecordedAt(log, k, a, b)
  }

  ghost predicate RecordedAt(log: seq<Event>, k: int, a: int, b: int)
    requires 0 <= k < |log|
  {
    && log[k].Taking? && log[k].id == b && a in log[k].held
    && forall j | k < j < |log| :: log[j].Freed? ==> log[j].id != a && log[j].id != b
  }

  lemma RecordedAppend(log: seq<Event>, e: Event, a: int, b: int)
    ensures Recorded(log + [e], a, b) <==>
              if e.Taking? then Recorded(log, a, b) || (b == e.id && a in e.held)
              else Recorded(log, a, b) && a != e.id && b != e.id
  {
    var l := log + [e];
    if k :| 0 <= k < |l| && RecordedAt(l, k, a, b) {
      if k < |log| {
        forall j | k < j < |log| ensures log[j].Freed? ==> log[j].id != a && log[j].id != b {
          assert l[j] == log[j];
        }
        assert RecordedAt(log, k, a, b);
        assert l[|log|] == e;
      }
    }
    if k :| 0 <= k < |log| && RecordedAt(log, k, a, b) {
      if e.Taking? || (a != e.id && b != e.id) {
        assert RecordedAt(l, k, a, b);
      }
    }
    if e.Taking? && b == e.id && a in e.held {
      assert RecordedAt(l, |log|, a, b);
    }
  }

  ghost predicate HistoryMatches(log: seq<Event>, order: Order) {
    forall a, b :: (a, b) in order <==> Recorded(log, a, b)
  }

  lemma HistoryTaking(log: seq<Event>, order: Order, held: set<int>, id: int)
    requires HistoryMatches(log, order)
    ensures HistoryMatches(log + [Taking(held, id)], order + EdgesInto(held, id))
  {
    forall a, b {
      RecordedAppend(log, Taking(held, id), a, b);
    }
  }

  lemma HistoryFreed(log: seq<Event>, order: Order, id: int)
    requires HistoryMatches(log, order)
    ensures HistoryMatches(log + [Freed(id)], Forget(order, id))
  {
    forall a, b {
      RecordedAppend(log, Freed(id), a, b);
    }
  }

  // ---------- counting ids ----------

  function IdOf(names: map<Name, int>, n: Name): (i: int)
    requires n in names
  {
    names[n]
  }

  function NameOf(ids: map<int, Name>, i: int): (n: Name)
    requires i in ids
  {
    ids[i]
  }

  ghost predicate Inverse(names: map<Name, int>, ids: map<int, Name>) {
    && (forall n {:trigger IdOf(names, n)} | n in names :: IdOf(names, n) in ids && ids[IdOf(names, n)] == n)
    && (forall i {:trigger NameOf(ids, i)} | i in ids :: NameOf(ids, i) in names && names[NameOf(ids, i)] == i)
  }

  lemma InverseRemove(names: map<Name, int>, ids: map<int, Name>, n: Name, i: int)
    requires Inverse(names, ids) && n in names && IdOf(names, n) == i
    ensures Inverse(names - {n}, ids - {i})
  {
    var names', ids' := names - {n}, ids - {i};
    forall m | m in names' ensures IdOf(names', m) in ids' && ids'[IdOf(names', m)] == m {
      assert IdOf(names, m) in ids;
    }
    forall k | k in ids' ensures NameOf(ids', k) in names' && names'[NameOf(ids', k)] == k {
      assert NameOf(ids, k) in names;
    }
  }

  lemma {:induction false} InverseSameSize(names: map<Name, int>, ids: map<int, Name>)
    requires Inverse(names, ids)
    ensures |names| == |ids|
    decreases |names|
  {
    if n :| n in names {
      var i := IdOf(names, n);
      InverseRemove(names, ids, n, i);
      InverseSameSize(names - {n}, ids - {i});
      assert names == (names - {n})[n := i];
      assert ids == (ids - {i})[i := n];
    } else {
      assert names == map[];
      forall i ensures i !in ids {
        if i in ids {
          var n := NameOf(ids, i);
        }
      }
      assert ids == map[];
    }
  }

  ghost function IdsBelow(n: int): (s: set<int>)
    requires 0 <= n <= MAX_LOCKS
  {
    set i | 0 <= i < n && IsId(i)
  }

  lemma {:induction false} IdsBelowSize(n: int)
    requires 0 <= n <= MAX_LOCKS
    ensures |IdsBelow(n)| == n
  {
    if n > 0 {
      IdsBelowSize(n - 1);
      assert IsId(n - 1);
      assert IdsBelow(n) == IdsBelow(n - 1) + {n - 1};
    } else {
      assert IdsBelow(0) == {};
    }
  }

  /** All ids are taken exactly when MAX_LOCKS names are live. */
  lemma AllTaken(names: map<Name, int>, ids: map<int, Name>)
    requires Inverse(names, ids) && forall i | i in ids :: IsId(i)
    ensures |names| == MAX_LOCKS <==> forall i | IsId(i) :: i in ids
  {
    InverseSameSize(names, ids);
    IdsBelowSize(MAX_LOCKS);
    assert AllIds() == IdsBelow(MAX_LOCKS) == (AllIds() - ids.Keys) + ids.Keys;
    assert |AllIds()| == |AllIds() - ids.Keys| + |ids.Keys|;
    assert |ids| == |ids.Keys|;
    assert AllIds() - ids.Keys == {} <==> forall i | IsId(i) :: i in ids;
  }

  // ---------- consistency of the tables, as values ----------

  /** The name tables are inverse to each other, every live id has references and lies below the
      high-water mark. */
  ghost predicate NamesConsistent(names: map<Name, int>, ids: map<int, Name>, refs: map<int, int>, maxId: int) {
    && Inverse(names, ids)
    && refs.Keys == ids.Keys && (forall i | i in refs :: refs[i] >= 1)
    && (forall i | i in ids :: IsId(i))
    && 0 <= maxId <= MAX_LOCKS && (forall i | i in ids :: i < maxId)
  }

  /** The free ids are those without a name (once the bitmap is filled); the hint is one of them. */
  ghost predicate FreeConsistent(initialized: bool, free: set<int>, used: set<int>, hint: int) {
    && (forall i :: i in free <==> initialized && IsId(i) && i !in used)
    && (initialized || used == {})
    && (hint == -1 || hint in free)
  }

  /** The order is acyclic and mentions live ids only. */
  ghost predicate EdgesConsistent(order: Order, used: set<int>) {
    (forall e | e in order :: e.0 in used && e.1 in used) && Acyclic(order)
  }

  /** So do the held sets. */
  ghost predicate OrderConsistent(order: Order, used: set<int>, held: map<Thread, set<int>>) {
    EdgesConsistent(order, used) && forall t | t in held :: held[t] <= used
  }

  ghost predicate HeldByNobody(held: map<Thread, set<int>>, id: int) {
    forall t | t in held :: id !in held[t]
  }

  lemma HeldAfterFree(held: map<Thread, set<int>>, used: set<int>, id: int)
    requires forall t | t in held :: held[t] <= used
    ensures (forall t | t in held :: held[t] <= used - {id}) <==> HeldByNobody(held, id)
  {
  }

  lemma AddName(names: map<Name, int>, ids: map<int, Name>, refs: map<int, int>, maxId: int, name: Name, id: int)
    requires NamesConsistent(names, ids, refs, maxId)
    requires name !in names && id !in ids && IsId(id)
    ensures NamesConsistent(names[name := id], ids[id := name], refs[id := 1], if maxId <= id then id + 1 else maxId)
  {
    var names', ids' := names[name := id], ids[id := name];
    forall m | m in names' ensures IdOf(names', m) in ids' && ids'[IdOf(names', m)] == m {
      if m != name {
        assert IdOf(names, m) in ids;
      }
    }
    forall k | k in ids' ensures NameOf(ids', k) in names' && names'[NameOf(ids', k)] == k {
      if k != id {
        assert NameOf(ids, k) in names;
      }
    }
  }

  lemma DropName(names: map<Name, int>, ids: map<int, Name>, refs: map<int, int>, maxId: int, id: int)
    requires NamesConsistent(names, ids, refs, maxId) && id in ids
    ensures NamesConsistent(names - {ids[id]}, ids - {id}, refs - {id}, maxId)
    ensures names - {ids[id]} == map n | n in names && names[n] != id :: names[n]
  {
    var n := NameOf(ids, id);
    assert IdOf(names, n) == id;
    InverseRemove(names, ids, n, id);
    forall m | m in names && names[m] == id ensures m == n {
      assert IdOf(names, m) in ids;
    }
  }

  lemma NonEmptySet(s: set<int>)
    ensures s == {} || exists x :: x in s
  {
    if forall x :: x !in s {
      assert s == {};
    }
  }

  // ---------- the detector ----------

  /** How a call into the detector ends: with an id, by throwing, or by aborting the process while
      `id` was being checked. */
  datatype Outcome = Done(id: int) | Threw | Aborted(id: int)

  class Detector {
    const ids: IdBitmap
    const tree: BitMatrix
    const traces: array2<bool>
    var initialized: bool
    var lastFree: int
    var nameToId: map<Name, int>
    var idToName: map<int, Name>
    var lockRef: map<int, int>
    var heldLocks: map<Thread, set<int>>
    var currentMaxId: int
    ghost var log: seq<Event>

    ghost function Abs(): (d: Tables)
      reads this, tree
    {
      Tables(nameToId, lockRef, heldLocks, tree.edges)
    }

    ghost predicate NamesOk()
      reads this, ids, ids.bytes
    {
      && ids.Valid()
      && NamesConsistent(nameToId, idToName, lockRef, currentMaxId)
      && FreeConsistent(initialized, ids.free, idToName.Keys, lastFree)
    }

    /** A backtrace is kept for exactly the edges of the order. */
    ghost predicate EdgesOk()
      reads this, tree, tree.bytes, traces
    {
      && tree.Valid()
      && traces.Length0 == MAX_LOCKS && traces.Length1 == MAX_LOCKS
      && (forall a, b | 0 <= a < MAX_LOCKS && 0 <= b < MAX_LOCKS :: traces[a, b] <==> (a, b) in tree.edges)
      && EdgesConsistent(tree.edges, idToName.Keys)
    }

    ghost predicate OrderOk()
      reads this, tree, tree.bytes, traces
    {
      EdgesOk() && OrderConsistent(tree.edges, idToName.Keys, heldLocks)
    }

    /** Everything but the held sets is in order. */
    ghost predicate TablesOk()
      reads this, ids, ids.bytes, tree, tree.bytes, traces
    {
      NamesOk() && EdgesOk() && HistoryMatches(log, tree.edges)
    }

    ghost predicate Valid()
      reads this, ids, ids.bytes, tree, tree.bytes, traces
    {
      NamesOk() && OrderOk() && HistoryMatches(log, tree.edges)
    }

    constructor ()
      ensures Valid() && Abs() == Tables(map[], map[], map[], {}) && log == []
      ensures fresh(ids) && fresh(ids.bytes) && fresh(tree) && fresh(tree.bytes) && fresh(traces)
    {
      ids := new IdBitmap();
      tree := new BitMatrix();
      traces := new bool[MAX_LOCKS, MAX_LOCKS]((_, _) => false);
      initialized, lastFree, currentMaxId := false, -1, 0;
      nameToId, idToName, lockRef, heldLocks := map[], map[], map[], map[];
      log := [];
      EmptyAcyclic();
    }

    /** Hands out the most recently freed id if there is one, else the least free id, else -1. */
    method GetFreeId() returns (id: int)
      requires NamesOk()
      modifies this`initialized, this`lastFree, ids, ids.bytes
      ensures ids.Valid() && initialized
      ensures id == -1 ==> FreeConsistent(true, ids.free, idToName.Keys, lastFree)
      ensures id == -1 <==> forall i | IsId(i) :: i in idToName
      ensures id != -1 ==> IsId(id) && id !in idToName
      ensures id != -1 ==> FreeConsistent(true, ids.free, idToName.Keys + {id}, lastFree)
      ensures old(lastFree) != -1 ==> id == old(lastFree)
      ensures old(lastFree) == -1 && id != -1 ==> forall i | IsId(i) && i < id :: i in idToName
      ensures lastFree == -1
    {
      if !initialized {
        ids.Fill();
        initialized := true;
      }
      assert FreeConsistent(true, ids.free, idToName.Keys, lastFree);
      if lastFree >= 0 {
        var hinted := ids.Test(lastFree);
        if hinted {
          id := lastFree;
          lastFree := -1;
          ids.Claim(id);
          return;
        }
      }
      id := ids.ClaimLeast();
    }

    /** Enters a new name under an id that was just claimed. */
    method EnterName(name: Name, id: int)
      requires ids.Valid() && NamesConsistent(nameToId, idToName, lockRef, currentMaxId)
      requires name !in nameToId && id !in idToName && IsId(id)
      requires FreeConsistent(initialized, ids.free, idToName.Keys + {id}, lastFree)
      modifies this`nameToId, this`idToName, this`lockRef, this`currentMaxId
      ensures NamesOk()
      ensures nameToId == old(nameToId)[name := id] && idToName == old(idToName)[id := name]
      ensures lockRef == old(lockRef)[id := 1]
    {
      AddName(nameToId, idToName, lockRef, currentMaxId, name, id);
      assert idToName[id := name].Keys == idToName.Keys + {id};
      currentMaxId := if currentMaxId <= id then id + 1 else currentMaxId;
      nameToId, idToName := nameToId[name := id], idToName[id := name];
      assert id !in lockRef;
      lockRef := lockRef[id := 1];
    }

    /** Gives a new name a free id, or answers -1 when all ids are taken. */
    method RegisterNew(name: Name) returns (id: int)
      requires NamesOk() && name !in nameToId
      modifies this`initialized, this`lastFree, this`nameToId, this`idToName, this`lockRef, this`currentMaxId
      modifies ids, ids.bytes
      ensures NamesOk()
      ensures id == -1 <==> |old(nameToId)| == MAX_LOCKS
      ensures id == -1 ==> nameToId == old(nameToId) && idToName == old(idToName) && lockRef == old(lockRef)
      ensures id != -1 ==> IsId(id) && id !in old(idToName)
      ensures id != -1 ==> nameToId == old(nameToId)[name := id] && idToName == old(idToName)[id := name]
      ensures id != -1 ==> lockRef == old(lockRef)[id := 1]
      ensures old(lastFree) != -1 ==> id == old(lastFree)
      ensures old(lastFree) == -1 && id != -1 ==> forall i | IsId(i) && i < id :: i in old(idToName)
      ensures lastFree == -1
    {
      AllTaken(nameToId, idToName);
      id := GetFreeId();
      if id < 0 {
        return;
      }
      EnterName(name, id);
    }

    /** Registers `name`: a known name gains a reference, a new one an id that no edge touches. */
    method Register(name: Name) returns (id: int)
      requires Valid()
      modifies this`initialized, this`lastFree, this`nameToId, this`idToName, this`lockRef, this`currentMaxId
      modifies ids, ids.bytes
      ensures Valid()
      ensures id == -1 <==> name !in old(nameToId) && |old(nameToId)| == MAX_LOCKS
      ensures id == -1 ==> Abs() == old(Abs())
      ensures id != -1 ==> id in idToName && Abs() == Registered(old(Abs()), name, id)
      ensures name in old(nameToId) ==> id == old(nameToId[name])
      ensures name !in old(nameToId) && id != -1 ==>
                IsId(id) && id !in old(idToName) && forall e | e in tree.edges :: e.0 != id && e.1 != id
      // a new name gets the id freed last, or else the least free id
      ensures name !in old(nameToId) && old(lastFree) != -1 ==> id == old(lastFree) && lastFree == -1
      ensures name !in old(nameToId) && old(lastFree) == -1 && id != -1 ==>
                lastFree == -1 && forall i | IsId(i) && i < id :: i in old(idToName)
      ensures name in old(nameToId) ==> lastFree == old(lastFree)
    {
      if name !in nameToId {
        id := RegisterNew(name);
      } else {
        id := IdOf(nameToId, name);
        assert nameToId[name := id] == nameToId;
        lockRef := lockRef[id := lockRef[id] + 1];
      }
    }

    /** Recursive search without a visited set; acyclicity is what makes it terminate. */
    method DoesFollow(a: int, b: int) returns (follows: bool)
      requires NamesOk() && OrderOk() && IsId(a) && IsId(b)
      ensures follows <==> Reaches(tree.edges, a, b)
      decreases ReachSet(tree.edges, a)
    {
      ReachesUnfold(tree.edges, a, b);
      var direct := tree.Test(a, b);
      if direct {
        return true;
      }
      for i := 0 to currentMaxId
        invariant forall k | 0 <= k < i && (a, k) in tree.edges :: !Reaches(tree.edges, k, b)
      {
        var step := tree.Test(a, i);
        if step {
          ReachSetShrinks(tree.edges, a, i);
          var rest := DoesFollow(i, b);
          if rest {
            return true;
          }
        }
      }
      return false;
    }

    /** One held lock: refuses an edge that would close a cycle, records any other. */
    method RecordEdge(h: int, id: int) returns (ok: bool)
      requires NamesOk() && OrderOk() && h in idToName && id in idToName
      modifies tree, tree.bytes, traces
      ensures ok <==> Acyclic(old(tree.edges) + {(h, id)})
      ensures ok ==> NamesOk() && OrderOk() && tree.edges == old(tree.edges) + {(h, id)}
    {
      assert IsId(h) && IsId(id);
      AddEdgeAcyclic(tree.edges, h, id);
      if h == id {
        return false;
      }
      var present := tree.Test(h, id);
      if present {
        assert tree.edges + {(h, id)} == tree.edges;
        return true;
      }
      var back := DoesFollow(id, h);
      if back {
        return false;
      }
      tree.Add(h, id);
      traces[h, id] := true;
      return true;
    }

    /** The loop over the held locks, in any order: stops at the first that cannot precede `id`. */
    method CheckAndRecord(t: Thread, id: int) returns (ok: bool)
      requires NamesOk() && OrderOk() && id in idToName
      modifies tree, tree.bytes, traces
      ensures ok <==> Acyclic(old(tree.edges) + EdgesInto(HeldBy(heldLocks, t), id))
      ensures ok ==> NamesOk() && OrderOk()
      ensures ok ==> tree.edges == old(tree.edges) + EdgesInto(HeldBy(heldLocks, t), id)
    {
      var held := HeldBy(heldLocks, t);
      var todo := held;
      while todo != {}
        invariant todo <= held
        invariant NamesOk() && OrderOk()
        invariant tree.edges == old(tree.edges) + EdgesInto(held - todo, id)
        decreases |todo|
      {
        NonEmptySet(todo);
        var h :| h in todo;
        ghost var next := old(tree.edges) + EdgesInto(held - (todo - {h}), id);
        assert tree.edges + {(h, id)} == next;
        var fits := RecordEdge(h, id);
        if !fits {
          CycleStays(next, old(tree.edges) + EdgesInto(held, id));
          return false;
        }
        todo := todo - {h};
      }
      assert held - todo == held;
      return true;
    }

    /** Before a blocking acquire of lock `id` (registered now if it has no id yet).  The process is
        aborted exactly when taking the lock would close a cycle, self-deadlock included; otherwise
        the order gains exactly the edges from every held lock. */
    method WillLock(t: Thread, name: Name, id: int) returns (r: Outcome)
      requires Valid() && (id < 0 || id in idToName)
      modifies this, ids, ids.bytes, tree, tree.bytes, traces
      ensures r.Threw? <==> id < 0 && name !in old(nameToId) && |old(nameToId)| == MAX_LOCKS
      ensures r.Threw? ==> Valid() && Abs() == old(Abs()) && log == old(log)
      ensures !r.Threw? && id >= 0 ==> r.id == id
      ensures !r.Threw? && id < 0 ==>
                if name in old(nameToId) then r.id == old(nameToId[name]) else r.id !in old(idToName)
      ensures r.Aborted? <==> !r.Threw? && WouldCycle(old(Abs()), t, r.id)
      ensures r.Done? ==> Valid() && r.id in idToName
      ensures r.Done? ==> Abs() == Ordered(if id < 0 then Registered(old(Abs()), name, r.id) else old(Abs()), t, r.id)
      ensures r.Done? ==> log == old(log) + [Taking(HeldBy(old(heldLocks), t), r.id)]
    {
      var lock := id;
      if id < 0 {
        lock := Register(name);
        if lock < 0 {
          return Threw;
        }
      }
      var held := HeldBy(heldLocks, t);
      heldLocks := heldLocks[t := held];
      ghost var before := tree.edges;
      var ok := CheckAndRecord(t, lock);
      if !ok {
        return Aborted(lock);
      }
      HistoryTaking(log, before, held, lock);
      log := log + [Taking(held, lock)];
      return Done(lock);
    }

    /** After an acquire: the thread now holds the lock. */
    method RecordLocked(t: Thread, name: Name, id: int) returns (r: Outcome)
      requires Valid() && (id < 0 || id in idToName)
      modifies this, ids, ids.bytes
      ensures Valid() && log == old(log) && !r.Aborted?
      ensures r.Threw? <==> id < 0 && name !in old(nameToId) && |old(nameToId)| == MAX_LOCKS
      ensures r.Threw? ==> Abs() == old(Abs())
      ensures r.Done? ==> r.id in idToName && (id >= 0 ==> r.id == id)
      ensures r.Done? ==> Abs() == Locked(if id < 0 then Registered(old(Abs()), name, r.id) else old(Abs()), t, r.id)
    {
      var lock := id;
      if id < 0 {
        lock := Register(name);
        if lock < 0 {
          return Threw;
        }
      }
      heldLocks := heldLocks[t := HeldBy(heldLocks, t) + {lock}];
      return Done(lock);
    }

    /** Before a release: the thread no longer counts as holding the lock. */
    method WillUnlock(t: Thread, id: int) returns (r: Outcome)
      requires Valid()
      modifies this`heldLocks
      ensures Valid() && log == old(log)
      ensures r == if id < -1 then Aborted(id) else Done(id)
      ensures Abs() == if id < 0 then old(Abs()) else Unlocked(old(Abs()), t, id)
    {
      if id < 0 {
        return if id == -1 then Done(id) else Aborted(id);
      }
      heldLocks := heldLocks[t := HeldBy(heldLocks, t) - {id}];
      return Done(id);
    }

    /** Clears the row and the column of `id`, up to the high-water mark of ids. */
    method ForgetEdges(id: int)
      requires EdgesOk() && IsId(id)
      requires 0 <= currentMaxId <= MAX_LOCKS && forall i | i in idToName :: i < currentMaxId
      modifies tree, tree.bytes, traces
      ensures tree.Valid() && tree.edges == Forget(old(tree.edges), id)
      ensures forall a, b | 0 <= a < MAX_LOCKS && 0 <= b < MAX_LOCKS :: traces[a, b] <==> (a, b) in tree.edges
    {
      tree.WipeRow(id);
      for i := 0 to currentMaxId
        invariant tree.Valid()
        invariant tree.edges == set e | e in old(tree.edges) && e.0 != id && (e.1 != id || e.0 >= i)
        invariant forall a, b | 0 <= a < MAX_LOCKS && 0 <= b < MAX_LOCKS ::
                    traces[a, b] <==> (a, b) in old(tree.edges) && (a != id || b >= i) && (b != id || a >= i)
      {
        traces[id, i] := false;
        traces[i, id] := false;
        tree.Remove(i, id);
      }
      assert tree.edges == Forget(old(tree.edges), id);
    }

    /** Takes the name of `id` out of the tables and makes the id free again, and the hint. */
    method FreeName(id: int)
      requires ids.Valid() && id in idToName && id in lockRef
      requires NamesConsistent(nameToId, idToName, lockRef[id := 1], currentMaxId)
      requires FreeConsistent(initialized, ids.free, idToName.Keys, lastFree)
      modifies this`nameToId, this`idToName, this`lockRef, this`lastFree, ids, ids.bytes
      ensures NamesOk() && lastFree == id && lockRef == old(lockRef) - {id} && idToName == old(idToName) - {id}
      ensures nameToId == map n | n in old(nameToId) && old(nameToId)[n] != id :: old(nameToId)[n]
    {
      DropName(nameToId, idToName, lockRef[id := 1], currentMaxId, id);
      assert lockRef[id := 1] - {id} == lockRef - {id};
      assert (idToName - {id}).Keys == idToName.Keys - {id};
      nameToId, idToName := nameToId - {idToName[id]}, idToName - {id};
      lockRef := lockRef - {id};
      ids.Release(id);
      lastFree := id;
    }

    /** The last registration of `id` is gone: its edges and its name go. */
    method FreeId(id: int)
      requires ids.Valid() && EdgesOk() && HistoryMatches(log, tree.edges) && id in idToName && id in lockRef
      requires NamesConsistent(nameToId, idToName, lockRef[id := 1], currentMaxId)
      requires FreeConsistent(initialized, ids.free, idToName.Keys, lastFree)
      modifies this`nameToId, this`idToName, this`lockRef, this`lastFree, this`log
      modifies ids, ids.bytes, tree, tree.bytes, traces
      ensures TablesOk() && lastFree == id && log == old(log) + [Freed(id)] && idToName == old(idToName) - {id}
      ensures tree.edges == Forget(old(tree.edges), id) && lockRef == old(lockRef) - {id}
      ensures nameToId == map n | n in old(nameToId) && old(nameToId)[n] != id :: old(nameToId)[n]
    {
      AcyclicMonotone(Forget(tree.edges, id), tree.edges);
      HistoryFreed(log, tree.edges, id);
      ForgetEdges(id);
      FreeName(id);
      log := log + [Freed(id)];
    }

    /** Gives up one registration of `id`.  The last one frees the id and forgets its edges, and leaves
        the held sets sound if and only if no thread is recorded as holding it; an id that was never
        registered only leaves a stray count behind. */
    method Unregister(id: int)
      requires Valid()
      modifies this, ids, ids.bytes, tree, tree.bytes, traces
      ensures id in old(idToName) ==> TablesOk() && Abs() == Unregistered(old(Abs()), id)
      ensures id in old(idToName) ==> (Valid() <==> (old(lockRef[id]) == 1 ==> HeldByNobody(heldLocks, id)))
      ensures id in old(idToName) && old(lockRef[id]) == 1 ==> lastFree == id && log == old(log) + [Freed(id)]
      ensures !(id in old(idToName) && old(lockRef[id]) == 1) ==> lastFree == old(lastFree) && log == old(log)
      ensures id !in old(idToName) ==>
                nameToId == old(nameToId) && idToName == old(idToName) && tree.edges == old(tree.edges)
      ensures id !in old(idToName) ==> lockRef == if id < 0 then old(lockRef) else old(lockRef)[id := -1]
      ensures heldLocks == old(heldLocks)
    {
      if id < 0 {
        return;
      }
      var known := id in idToName;
      var ref := (if id in lockRef then lockRef[id] else 0) - 1;
      lockRef := lockRef[id := ref];
      if ref == 0 {
        assert known;
        HeldAfterFree(heldLocks, idToName.Keys, id);
        FreeId(id);
        assert idToName.Keys == old(idToName).Keys - {id};
      }
    }
  }
}
