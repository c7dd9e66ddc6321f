/**
 The per-sandbox locks of the Docker backend. Lock objects live in a table with weak values: an entry may vanish
 whenever no thread refers to its lock any more. Locks are reentrant, deletes also need one of a bounded number
 of slots, and one process-wide mutex protects the table and the subnet allocation.
 */
module SandboxLocks {
  import opened Prelude

  /** Identity of a lock object. */
  type Lock = nat

  datatype Locks = Locks(
    table: map<Id, Lock>,            // weak-valued dictionary
    owner: map<Lock, (Tid, nat)>,    // holder and depth of a taken reentrant lock
    used: set<Lock>,                 // identities handed out so far
    mutex: Option<Tid>,
    free: nat)                       // delete slots left

  function Fresh(slots: nat): Locks {
    Locks(map[], map[], {}, None, slots)
  }

  datatype Act =
    | Lookup(id: Id, spare: Lock)
    | Take(l: Lock)
    | Drop(l: Lock)
    | TakeSlot
    | DropSlot
    | TakeMutex
    | DropMutex

  /** Whether thread `t` can do `a` now instead of waiting. */
  predicate Ready(ls: Locks, t: Tid, a: Act) {
    match a
    case Lookup(id, spare) => ls.mutex.None? && (id in ls.table || spare !in ls.used)
    case Take(l) => l in ls.owner ==> ls.owner[l].0 == t
    case Drop(l) => l in ls.owner && ls.owner[l].0 == t && ls.owner[l].1 > 0
    case TakeSlot => ls.free > 0
    case DropSlot => true
    case TakeMutex => ls.mutex.None?
    case DropMutex => ls.mutex == Some(t)
  }

  function LookupSpec(ls: Locks, id: Id, spare: Lock): (Locks, Lock) {
    if id in ls.table then (ls, ls.table[id])
    else (ls.(table := ls.table[id := spare], used := ls.used + {spare}), spare)
  }

  function TakeSpec(ls: Locks, t: Tid, l: Lock): Locks {
    ls.(owner := ls.owner[l := (t, if l in ls.owner then ls.owner[l].1 + 1 else 1)])
  }

  function DropSpec(ls: Locks, l: Lock): Locks
    requires l in ls.owner && ls.owner[l].1 > 0
  {
    var (t, depth) := ls.owner[l];
    ls.(owner := if depth == 1 then ls.owner - {l} else ls.owner[l := (t, depth - 1)])
  }

  function Apply(ls: Locks, t: Tid, a: Act): (Locks, Option<Lock>)
    requires Ready(ls, t, a)
  {
    match a
    case Lookup(id, spare) => var (ls', l) := LookupSpec(ls, id, spare); (ls', Some(l))
    case Take(l) => (TakeSpec(ls, t, l), None)
    case Drop(l) => (DropSpec(ls, l), None)
    case TakeSlot => (ls.(free := ls.free - 1), None)
    case DropSlot => (ls.(free := ls.free + 1), None)
    case TakeMutex => (ls.(mutex := Some(t)), None)
    case DropMutex => (ls.(mutex := None), None)
  }

  /** The lock table and the reentrant locks as the backend object keeps them. */
  class SandboxLockTable {
    var table: map<Id, Lock>
    var owner: map<Lock, (Tid, nat)>
    var used: set<Lock>
    var mutex: Option<Tid>
    var free: nat

    function View(): Locks
      reads this
    {
      Locks(table, owner, used, mutex, free)
    }

    constructor (slots: nat)
      ensures View() == Fresh(slots)
    {
      table, owner, used, mutex, free := map[], map[], {}, None, slots;
    }

    /** `_sandbox_lock`: find the lock of the id or enter the new object `spare`. */
    method SandboxLock(id: Id, spare: Lock) returns (l: Lock)
      requires spare !in used
      modifies this
      ensures (View(), l) == LookupSpec(old(View()), id, spare)
      ensures id in table && table[id] == l && table - {id} == old(table) - {id} && used <= old(used) + {spare}
      ensures id in old(table) ==> l == old(table)[id]
      ensures id !in old(table) ==> l == spare && spare in used
    {
      if id in table {
        return table[id];
      }
      table := table[id := spare];
      used := used + {spare};
      return spare;
    }

    method Enter(t: Tid, l: Lock) returns (taken: bool)
      modifies this
      ensures taken == Ready(old(View()), t, Take(l))
      ensures taken <==> l !in old(owner) || old(owner)[l].0 == t
      ensures taken ==> l in owner && owner[l] == (t, if l in old(owner) then old(owner)[l].1 + 1 else 1)
      ensures owner - {l} == old(owner) - {l}
      ensures View() == if taken then TakeSpec(old(View()), t, l) else old(View())
    {
      if l in owner && owner[l].0 != t {
        return false;
      }
      var depth := if l in owner then owner[l].1 else 0;
      owner := owner[l := (t, depth + 1)];
      return true;
    }

    method Leave(t: Tid, l: Lock)
      requires Ready(View(), t, Drop(l))
      modifies this
      ensures View() == DropSpec(old(View()), l)
      ensures l in owner <==> old(owner)[l].1 > 1
      ensures l in owner ==> owner[l] == (t, old(owner)[l].1 - 1)
      ensures owner - {l} == old(owner) - {l}
    {
      if owner[l].1 == 1 {
        owner := owner - {l};
      } else {
        owner := owner[l := (t, owner[l].1 - 1)];
      }
    }
  }

  // ---------------------------------------------------------------------------------------------------
  // The protocol
  // ---------------------------------------------------------------------------------------------------

  /**
   What a thread refers to: the stack of lock entries it holds, the lock it is about to take, and whether it
   has a delete slot or the process-wide mutex.
   */
  datatype Role = Role(id: Id, held: seq<Lock>, want: Option<Lock>, slot: bool, mutex: bool)

  const IDLE := Role("", [], None, false, false)

  predicate Refers(r: Role, l: Lock) {
    l in r.held || r.want == Some(l)
  }

  predicate Enabled(r: Role, a: Act) {
    match a
    case Lookup(id, _) => r.want.None? && !r.slot && !r.mutex && (r == IDLE || (r.id == id && r.held != []))
    case Take(l) => r.want == Some(l)
    case Drop(l) => r.held != [] && r.held[|r.held| - 1] == l && r.want.None? && !r.slot && !r.mutex
    case TakeSlot => r.held != [] && r.want.None? && !r.slot
    case DropSlot => r.slot
    case TakeMutex => !r.mutex && r.want.None?
    case DropMutex => r.mutex
  }

  function RoleAfter(r: Role, a: Act, l: Option<Lock>): Role
    requires Enabled(r, a)
  {
    match a
    case Lookup(id, _) => r.(id := id, want := l)
    case Take(l) => r.(held := r.held + [l], want := None)
    case Drop(_) => if |r.held| == 1 then IDLE else r.(held := r.held[..|r.held| - 1])
    case TakeSlot => r.(slot := true)
    case DropSlot => r.(slot := false)
    case TakeMutex => r.(mutex := true)
    case DropMutex => r.(mutex := false)
  }

  datatype State = State(locks: Locks, roles: map<Tid, Role>)

  function Start(slots: nat): State {
    State(Fresh(slots), map[])
  }

  datatype Label =
    | Do(t: Tid, a: Act)
    | Join(t: Tid)       // a new thread
    | Collect(id: Id)    // the entry of an unreferenced lock is reclaimed

  predicate Can(s: State, lab: Label) {
    match lab
    case Do(t, a) => t in s.roles && Enabled(s.roles[t], a) && Ready(s.locks, t, a)
    case Join(t) => t !in s.roles
    case Collect(id) =>
      id in s.locks.table && forall t | t in s.roles :: !Refers(s.roles[t], s.locks.table[id])
  }

  function Next(s: State, lab: Label): State
    requires Can(s, lab)
  {
    match lab
    case Do(t, a) =>
      var (ls, l) := Apply(s.locks, t, a);
      State(ls, s.roles[t := RoleAfter(s.roles[t], a, l)])
    case Join(t) => s.(roles := s.roles[t := IDLE])
    case Collect(id) => s.(locks := s.locks.(table := s.locks.table - {id}))
  }

  function SlotUse(roles: map<Tid, Role>): map<Tid, bool> {
    map t | t in roles :: roles[t].slot
  }

  /** Every reference is to the object that the table holds for the id, and objects are not shared by ids. */
  ghost predicate TableRight(s: State) {
    && (forall t, l | t in s.roles && Refers(s.roles[t], l) ::
          s.roles[t].id in s.locks.table && s.locks.table[s.roles[t].id] == l)
    && (forall i | i in s.locks.table :: s.locks.table[i] in s.locks.used)
    && (forall i, j | i in s.locks.table && j in s.locks.table && s.locks.table[i] == s.locks.table[j] :: i == j)
  }

  ghost predicate OwnersRight(s: State) {
    && (forall t | t in s.roles && s.roles[t].held != [] ::
          && s.roles[t].held[0] in s.locks.owner
          && s.locks.owner[s.roles[t].held[0]] == (t, |s.roles[t].held|))
    && (forall l | l in s.locks.owner ::
          && s.locks.owner[l].0 in s.roles
          && l in s.roles[s.locks.owner[l].0].held)
  }

  ghost predicate MutexRight(s: State) {
    forall t :: s.locks.mutex == Some(t) <==> t in s.roles && s.roles[t].mutex
  }

  ghost predicate SlotsRight(s: State, slots: nat) {
    s.locks.free + |Players(SlotUse(s.roles), true)| == slots
  }

  ghost predicate Inv(s: State, slots: nat) {
    TableRight(s) && OwnersRight(s) && MutexRight(s) && SlotsRight(s, slots)
  }

  lemma StartInv(slots: nat)
    ensures Inv(Start(slots), slots)
  {
    assert Players(SlotUse(Start(slots).roles), true) == {};
  }

  lemma HeldAlike(s: State, t: Tid, i: nat)
    requires TableRight(s) && t in s.roles && i < |s.roles[t].held|
    ensures s.roles[t].id in s.locks.table && s.roles[t].held[i] == s.locks.table[s.roles[t].id]
  {
    assert Refers(s.roles[t], s.roles[t].held[i]);
  }

  lemma TableAfterLookup(s: State, t: Tid, id: Id, spare: Lock)
    requires TableRight(s) && Can(s, Do(t, Lookup(id, spare)))
    ensures TableRight(Next(s, Do(t, Lookup(id, spare))))
  {
    var s' := Next(s, Do(t, Lookup(id, spare)));
    forall u, l | u in s'.roles && Refers(s'.roles[u], l)
      ensures s'.roles[u].id in s'.locks.table && s'.locks.table[s'.roles[u].id] == l
    {
      if Refers(s.roles[u], l) {
        assert s.locks.table[s.roles[u].id] == l;
      }
    }
  }

  /** The table is right as long as nobody refers to more than before. */
  lemma TableFrame(s: State, s': State)
    requires TableRight(s) && s'.locks.table == s.locks.table && s'.locks.used == s.locks.used
    requires forall t, l | t in s'.roles && Refers(s'.roles[t], l) ::
        t in s.roles && Refers(s.roles[t], l) && s.roles[t].id == s'.roles[t].id
    ensures TableRight(s')
  {
  }

  lemma RefersLess(r: Role, a: Act, l: Lock)
    requires Enabled(r, a) && !a.Lookup? && Refers(RoleAfter(r, a, None), l)
    ensures Refers(r, l) && r.id == RoleAfter(r, a, None).id
  {
  }

  lemma TableKept(s: State, lab: Label)
    requires TableRight(s) && Can(s, lab)
    ensures TableRight(Next(s, lab))
  {
    var s' := Next(s, lab);
    if lab.Do? && lab.a.Lookup? {
      TableAfterLookup(s, lab.t, lab.a.id, lab.a.spare);
    } else if lab.Do? {
      forall u, l | u in s'.roles && Refers(s'.roles[u], l)
        ensures u in s.roles && Refers(s.roles[u], l) && s.roles[u].id == s'.roles[u].id
      {
        if u == lab.t {
          RefersLess(s.roles[u], lab.a, l);
        }
      }
      TableFrame(s, s');
    } else if lab.Join? {
      TableFrame(s, s');
    }
  }

  /** What `OwnersRight` says of one thread and of one lock. */
  ghost predicate HolderRight(s: State, t: Tid)
    requires t in s.roles
  {
    s.roles[t].held != [] ==>
      && s.roles[t].held[0] in s.locks.owner
      && s.locks.owner[s.roles[t].held[0]] == (t, |s.roles[t].held|)
  }

  ghost predicate OwnerRight(s: State, l: Lock)
    requires l in s.locks.owner
  {
    s.locks.owner[l].0 in s.roles && l in s.roles[s.locks.owner[l].0].held
  }

  /** Whoever holds another lock than `l` is not the first entry's holder of `l`. */
  lemma OtherHolder(s: State, t: Tid, l: Lock, u: Tid)
    requires OwnersRight(s) && u in s.roles && u != t && s.roles[u].held != []
    requires l in s.locks.owner ==> s.locks.owner[l].0 == t
    ensures s.roles[u].held[0] != l
  {
    assert s.locks.owner[s.roles[u].held[0]].0 == u;
  }

  lemma OwnersAfterTake(s: State, t: Tid, l: Lock)
    requires TableRight(s) && OwnersRight(s) && Can(s, Do(t, Take(l)))
    ensures OwnersRight(Next(s, Do(t, Take(l))))
  {
    var s' := Next(s, Do(t, Take(l)));
    forall u | u in s'.roles ensures HolderRight(s', u) {
      TakerRight(s, t, l, u);
    }
    forall m | m in s'.locks.owner ensures OwnerRight(s', m) {
      assert m != l ==> OwnerRight(s, m);
    }
  }

  lemma TakerRight(s: State, t: Tid, l: Lock, u: Tid)
    requires TableRight(s) && OwnersRight(s) && Can(s, Do(t, Take(l))) && u in s.roles
    ensures HolderRight(Next(s, Do(t, Take(l))), u)
  {
    if u != t {
      if s.roles[u].held != [] {
        OtherHolder(s, t, l, u);
        assert HolderRight(s, u);
      }
    } else {
      assert Refers(s.roles[t], l);
      assert l in s.locks.owner ==> OwnerRight(s, l);
      if s.roles[t].held != [] {
        HeldAlike(s, t, 0);
      }
    }
  }

  lemma OwnersAfterDrop(s: State, t: Tid, l: Lock)
    requires TableRight(s) && OwnersRight(s) && Can(s, Do(t, Drop(l)))
    ensures OwnersRight(Next(s, Do(t, Drop(l))))
  {
    var s' := Next(s, Do(t, Drop(l)));
    forall u | u in s'.roles ensures HolderRight(s', u) {
      DropperRight(s, t, l, u);
    }
    forall m | m in s'.locks.owner ensures OwnerRight(s', m) {
      DroppedRight(s, t, l, m);
    }
  }

  lemma DropperRight(s: State, t: Tid, l: Lock, u: Tid)
    requires TableRight(s) && OwnersRight(s) && Can(s, Do(t, Drop(l))) && u in s.roles
    ensures HolderRight(Next(s, Do(t, Drop(l))), u)
  {
    if u != t {
      if s.roles[u].held != [] {
        OtherHolder(s, t, l, u);
        assert HolderRight(s, u);
      }
    } else {
      HeldAlike(s, t, 0);
      HeldAlike(s, t, |s.roles[t].held| - 1);
    }
  }

  lemma DroppedRight(s: State, t: Tid, l: Lock, m: Lock)
    requires TableRight(s) && OwnersRight(s) && Can(s, Do(t, Drop(l)))
    requires m in Next(s, Do(t, Drop(l))).locks.owner
    ensures OwnerRight(Next(s, Do(t, Drop(l))), m)
  {
    var held := s.roles[t].held;
    HeldAlike(s, t, 0);
    HeldAlike(s, t, |held| - 1);
    if m == l {
      assert s.locks.owner[l] == (t, |held|);
      assert held[..|held| - 1][0] == l;
    } else if k :| 0 <= k < |held| && held[k] == m {
      HeldAlike(s, t, k);
    } else {
      assert OwnerRight(s, m);
    }
  }

  lemma OwnersFrame(s: State, s': State)
    requires OwnersRight(s) && s'.locks.owner == s.locks.owner
    requires forall t | t in s.roles :: t in s'.roles && s'.roles[t].held == s.roles[t].held
    requires forall t | t in s'.roles && t !in s.roles :: s'.roles[t].held == []
    ensures OwnersRight(s')
  {
  }

  lemma OwnersKept(s: State, lab: Label)
    requires TableRight(s) && OwnersRight(s) && Can(s, lab)
    ensures OwnersRight(Next(s, lab))
  {
    if lab.Do? && lab.a.Take? {
      OwnersAfterTake(s, lab.t, lab.a.l);
    } else if lab.Do? && lab.a.Drop? {
      OwnersAfterDrop(s, lab.t, lab.a.l);
    } else {
      OwnersFrame(s, Next(s, lab));
    }
  }

  lemma MutexKept(s: State, lab: Label)
    requires MutexRight(s) && Can(s, lab)
    ensures MutexRight(Next(s, lab))
  {
  }

  lemma SlotsKept(s: State, lab: Label, slots: nat)
    requires SlotsRight(s, slots) && Can(s, lab)
    ensures SlotsRight(Next(s, lab), slots)
  {
    var s' := Next(s, lab);
    if lab.Collect? {
      return;
    }
    var t := lab.t;
    var was, now := SlotUse(s.roles), SlotUse(s'.roles);
    assert now == was[t := s'.roles[t].slot];
    if t in s.roles {
      PlayersUpdate(was, t, s.roles[t].slot, s'.roles[t].slot, true);
    } else {
      PlayersJoin(was, t, s'.roles[t].slot, true);
    }
  }

  lemma InvKept(s: State, lab: Label, slots: nat)
    requires Inv(s, slots) && Can(s, lab)
    ensures Inv(Next(s, lab), slots)
  {
    TableKept(s, lab);
    OwnersKept(s, lab);
    MutexKept(s, lab);
    SlotsKept(s, lab, slots);
  }

  /** Although entries come and go, all users of one sandbox id refer to one lock object, and other ids to others. */
  lemma OneLockPerSandbox(s: State, slots: nat, t: Tid, l: Lock, u: Tid, m: Lock)
    requires Inv(s, slots) && t in s.roles && u in s.roles
    requires Refers(s.roles[t], l) && Refers(s.roles[u], m)
    ensures s.roles[t].id == s.roles[u].id <==> l == m
  {
  }

  /** At most one thread is in the create or delete body of an id. */
  lemma BodyExclusive(s: State, slots: nat, t: Tid, u: Tid)
    requires Inv(s, slots) && t in s.roles && u in s.roles
    requires s.roles[t].held != [] && s.roles[u].held != [] && s.roles[t].id == s.roles[u].id
    ensures t == u
  {
    HeldAlike(s, t, 0);
    HeldAlike(s, u, 0);
  }

  /** A thread that already holds the lock of its id never waits for that lock again: it finds the same object. */
  lemma NestedNeverWaits(s: State, slots: nat, t: Tid)
    requires Inv(s, slots) && t in s.roles && s.roles[t].held != [] && s.roles[t].want.Some?
    ensures Ready(s.locks, t, Take(s.roles[t].want.value))
  {
    HeldAlike(s, t, 0);
    assert Refers(s.roles[t], s.roles[t].want.value);
  }

  /** At most `slots` threads are inside delete bodies. */
  lemma DeletesBounded(s: State, slots: nat)
    requires Inv(s, slots)
    ensures |set t | t in s.roles && s.roles[t].slot| <= slots
  {
    assert (set t | t in s.roles && s.roles[t].slot) == Players(SlotUse(s.roles), true);
  }

  lemma DropNeverWaits(s: State, slots: nat, t: Tid, l: Lock)
    requires Inv(s, slots) && t in s.roles && Enabled(s.roles[t], Drop(l))
    ensures Ready(s.locks, t, Drop(l))
  {
    HeldAlike(s, t, 0);
    HeldAlike(s, t, |s.roles[t].held| - 1);
  }

  /** Somebody is in the way of a thread that has to wait: the holder of what it wants. */
  lemma WhoBlocks(s: State, slots: nat, t: Tid, a: Act) returns (u: Tid)
    requires Inv(s, slots) && slots >= 1
    requires t in s.roles && Enabled(s.roles[t], a) && !Ready(s.locks, t, a)
    requires a.Lookup? ==> a.spare !in s.locks.used
    ensures u in s.roles
    ensures match a
            case Lookup(_, _) => s.roles[u].mutex
            case TakeMutex => s.roles[u].mutex
            case TakeSlot => s.roles[u].slot
            case Take(l) => l in s.roles[u].held && u != t && s.roles[t].held == []
            case _ => false
  {
    match a
    case Lookup(_, _) => u := s.locks.mutex.value;
    case TakeMutex => u := s.locks.mutex.value;
    case TakeSlot => u := SomePlayer(SlotUse(s.roles), true);
    case Take(l) =>
      u := s.locks.owner[l].0;
      if s.roles[t].held != [] {
        NestedNeverWaits(s, slots, t);
      }
    case Drop(l) => DropNeverWaits(s, slots, t, l);
    case _ =>
  }
}
