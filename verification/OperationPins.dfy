/**
 Operation pins: every proxied request pins its sandbox; a delete closes the sandbox to new pins and waits
 until the pins it found are gone. One condition variable serves all sandbox ids.

 A critical section is one step. `Condition.wait` puts the thread into `waiters` and releases the lock;
 `notify_all` empties `waiters`. A thread that is woken runs the loop test again as its next step.
 */
module OperationPins {
  import opened Prelude

  datatype Pins = Pins(active: map<Id, nat>, deleting: set<Id>, waiters: set<Tid>)

  const FRESH := Pins(map[], {}, {})

  function Held(p: Pins, id: Id): nat {
    if id in p.active then p.active[id] else 0
  }

  function AcquireSpec(p: Pins, t: Tid, id: Id): (Pins, bool) {
    if id in p.deleting
    then (p.(waiters := p.waiters + {t}), false)
    else (p.(active := p.active[id := Held(p, id) + 1]), true)
  }

  function ReleaseSpec(p: Pins, id: Id): Pins {
    if Held(p, id) <= 1
    then p.(active := p.active - {id}, waiters := {})
    else p.(active := p.active[id := Held(p, id) - 1])
  }

  /** The loop test of `begin_delete`: go on when drained, otherwise sleep. */
  function DrainSpec(p: Pins, t: Tid, id: Id): (Pins, bool) {
    if Held(p, id) > 0 then (p.(waiters := p.waiters + {t}), false) else (p, true)
  }

  function BeginSpec(p: Pins, t: Tid, id: Id): (Pins, bool) {
    DrainSpec(p.(deleting := p.deleting + {id}), t, id)
  }

  function EndSpec(p: Pins, id: Id): Pins {
    p.(deleting := p.deleting - {id}, waiters := {})
  }

  /** The object itself. A method is one critical section; `false` says that the caller now sleeps. */
  class SandboxOperationPins {
    var active: map<Id, nat>
    var deleting: set<Id>
    var waiters: set<Tid>

    function View(): Pins
      reads this
    {
      Pins(active, deleting, waiters)
    }

    constructor ()
      ensures View() == FRESH
    {
      active, deleting, waiters := map[], {}, {};
    }

    method Acquire(t: Tid, id: Id) returns (granted: bool)
      modifies this
      ensures (View(), granted) == AcquireSpec(old(View()), t, id)
      ensures deleting == old(deleting) && (granted <==> id !in deleting)
      ensures granted ==> active == old(active)[id := old(Held(View(), id)) + 1] && waiters == old(waiters)
      ensures !granted ==> active == old(active) && waiters == old(waiters) + {t}
    {
      if id in deleting {
        waiters := waiters + {t};
        return false;
      }
      var count := if id in active then active[id] else 0;
      active := active[id := count + 1];
      return true;
    }

    method Release(id: Id)
      modifies this
      ensures View() == ReleaseSpec(old(View()), id)
      ensures deleting == old(deleting)
      ensures old(Held(View(), id)) <= 1 ==> active == old(active) - {id} && waiters == {}
      ensures old(Held(View(), id)) > 1 ==> active == old(active)[id := old(active[id]) - 1] && waiters == old(waiters)
    {
      var count := if id in active then active[id] else 0;
      if count <= 1 {
        active := active - {id};
        waiters := {};
      } else {
        active := active[id := count - 1];
      }
    }

    /** First entry of `begin_delete`. */
    method BeginDelete(t: Tid, id: Id) returns (drained: bool)
      modifies this
      ensures (View(), drained) == BeginSpec(old(View()), t, id)
      ensures active == old(active) && deleting == old(deleting) + {id} && (drained <==> Held(View(), id) == 0)
      ensures waiters == old(waiters) + if drained then {} else {t}
    {
      deleting := deleting + {id};
      drained := AwaitDrain(t, id);
    }

    /** The loop test, run on entry and after every wake-up. */
    method AwaitDrain(t: Tid, id: Id) returns (drained: bool)
      modifies this
      ensures (View(), drained) == DrainSpec(old(View()), t, id)
      ensures active == old(active) && deleting == old(deleting) && (drained <==> Held(View(), id) == 0)
      ensures waiters == old(waiters) + if drained then {} else {t}
    {
      drained := !(id in active && active[id] > 0);
      if !drained {
        waiters := waiters + {t};
      }
    }

    method EndDelete(id: Id)
      modifies this
      ensures View() == EndSpec(old(View()), id)
      ensures active == old(active) && deleting == old(deleting) - {id} && waiters == {}
    {
      deleting := deleting - {id};
      waiters := {};
    }
  }

  // ---------------------------------------------------------------------------------------------------
  // The protocol: any number of threads that use the object in bracketed fashion
  // ---------------------------------------------------------------------------------------------------

  datatype Act =
    | Acquire(id: Id)
    | Release(id: Id)
    | Begin(id: Id)
    | Recheck(id: Id)
    | End(id: Id)

  /** Where a thread stands: outside, wanting or holding a pin, draining, or between begin and end. */
  datatype Role =
    | Out
    | WantPin(id: Id)
    | Pinned(id: Id)
    | Draining(id: Id)
    | Inside(id: Id)

  predicate Deletes(r: Role, id: Id) {
    r == Draining(id) || r == Inside(id)
  }

  function Deleters(roles: map<Tid, Role>, id: Id): set<Tid> {
    set t | t in roles && Deletes(roles[t], id)
  }

  function Apply(p: Pins, t: Tid, a: Act): (Pins, bool) {
    match a
    case Acquire(id) => AcquireSpec(p, t, id)
    case Release(id) => (ReleaseSpec(p, id), true)
    case Begin(id) => BeginSpec(p, t, id)
    case Recheck(id) => DrainSpec(p, t, id)
    case End(id) => (EndSpec(p, id), true)
  }

  predicate Enabled(r: Role, a: Act) {
    match a
    case Acquire(id) => r == WantPin(id)
    case Release(id) => r == Pinned(id)
    case Begin(_) => r == Out
    case Recheck(id) => r == Draining(id)
    case End(id) => r == Inside(id)
  }

  function RoleAfter(a: Act, ok: bool): Role {
    match a
    case Acquire(id) => if ok then Pinned(id) else WantPin(id)
    case Release(_) => Out
    case Begin(id) => if ok then Inside(id) else Draining(id)
    case Recheck(id) => if ok then Inside(id) else Draining(id)
    case End(_) => Out
  }

  datatype State = State(pins: Pins, roles: map<Tid, Role>)

  const START := State(FRESH, map[])

  datatype Label =
    | Do(t: Tid, a: Act)
    | Arrive(t: Tid, id: Id)  // an outside or new thread turns up at `acquire`
    | Join(t: Tid)            // a new thread that is outside

  predicate Can(s: State, l: Label) {
    match l
    case Do(t, a) => t in s.roles && t !in s.pins.waiters && Enabled(s.roles[t], a)
    case Arrive(t, _) => t in s.roles ==> s.roles[t] == Out
    case Join(t) => t !in s.roles
  }

  function Next(s: State, l: Label): State
    requires Can(s, l)
  {
    match l
    case Do(t, a) =>
      var (p, ok) := Apply(s.pins, t, a);
      State(p, s.roles[t := RoleAfter(a, ok)])
    case Arrive(t, id) => s.(roles := s.roles[t := WantPin(id)])
    case Join(t) => s.(roles := s.roles[t := Out])
  }

  /** The counter is the number of holders, and a closed id has a deleter that will reopen it. */
  ghost predicate CountsRight(s: State) {
    && (forall id :: Held(s.pins, id) == |Players(s.roles, Pinned(id))|)
    && (forall id | id in s.pins.active :: s.pins.active[id] > 0)
    && (forall id | id in s.pins.deleting :: Deleters(s.roles, id) != {})
  }

  /** No lost wake-up: whoever sleeps would still fail its loop test. */
  ghost predicate SleepersBlocked(s: State) {
    forall t | t in s.pins.waiters ::
      && t in s.roles
      && match s.roles[t]
         case WantPin(id) => id in s.pins.deleting
         case Draining(id) => Held(s.pins, id) > 0
         case _ => false
  }

  ghost predicate Inv(s: State) {
    CountsRight(s) && SleepersBlocked(s)
  }

  lemma StartInv()
    ensures Inv(START)
  {
    forall id ensures Held(START.pins, id) == |Players(START.roles, Pinned(id))| {
      assert Players(START.roles, Pinned(id)) == {};
    }
  }

  lemma HeldKept(s: State, l: Label, id: Id)
    requires CountsRight(s) && Can(s, l)
    ensures Held(Next(s, l).pins, id) == |Players(Next(s, l).roles, Pinned(id))|
  {
    var t := l.t;
    var role := Next(s, l).roles[t];
    if t in s.roles {
      PlayersUpdate(s.roles, t, s.roles[t], role, Pinned(id));
      PlayerCounts(s.roles, t);
    } else {
      PlayersJoin(s.roles, t, role, Pinned(id));
    }
  }

  lemma ClosedKept(s: State, l: Label, id: Id)
    requires CountsRight(s) && Can(s, l) && id in Next(s, l).pins.deleting
    ensures Deleters(Next(s, l).roles, id) != {}
  {
    var s' := Next(s, l);
    if l.Do? && l.a == Begin(id) {
      assert l.t in Deleters(s'.roles, id);
    } else {
      var d :| d in Deleters(s.roles, id);
      assert d in Deleters(s'.roles, id);
    }
  }

  lemma CountsKept(s: State, l: Label)
    requires CountsRight(s) && Can(s, l)
    ensures CountsRight(Next(s, l))
  {
    var s' := Next(s, l);
    forall id ensures Held(s'.pins, id) == |Players(s'.roles, Pinned(id))| {
      HeldKept(s, l, id);
    }
    forall id | id in s'.pins.deleting ensures Deleters(s'.roles, id) != {} {
      ClosedKept(s, l, id);
    }
  }

  lemma SleepersKept(s: State, l: Label)
    requires SleepersBlocked(s) && Can(s, l)
    ensures SleepersBlocked(Next(s, l))
  {
  }

  /** Counting and wake-ups are right after every step, and a closed id never gains a pin: for any number of deleters. */
  lemma InvKept(s: State, l: Label)
    requires Inv(s) && Can(s, l)
    ensures Inv(Next(s, l))
    ensures forall id | id in s.pins.deleting :: Held(Next(s, l).pins, id) <= Held(s.pins, id)
  {
    CountsKept(s, l);
    SleepersKept(s, l);
  }

  // ---------------------------------------------------------------------------------------------------
  // Exclusion of pins by a delete, and exactly when it can break
  // ---------------------------------------------------------------------------------------------------

  /** A registered deleter keeps its id closed, and inside the delete window nobody holds a pin. */
  ghost predicate Exclusive(s: State, id: Id) {
    forall t | t in s.roles && Deletes(s.roles[t], id) ::
      && id in s.pins.deleting
      && (s.roles[t] == Inside(id) ==> Held(s.pins, id) == 0)
  }

  ghost predicate Overlap(s: State, id: Id) {
    exists d, e :: d in Deleters(s.roles, id) && e in Deleters(s.roles, id) && d != e
  }

  /** The broken promise: a pin is held while some deleter is between `begin_delete` and `end_delete`. */
  ghost predicate Broken(s: State, id: Id) {
    exists d, u :: d in s.roles && u in s.roles && s.roles[d] == Inside(id) && s.roles[u] == Pinned(id)
  }

  predicate CanRun(s: State, ls: seq<Label>)
    decreases ls
  {
    ls == [] || (Can(s, ls[0]) && CanRun(Next(s, ls[0]), ls[1..]))
  }

  function RunTo(s: State, ls: seq<Label>): State
    requires CanRun(s, ls)
    decreases ls
  {
    if ls == [] then s else RunTo(Next(s, ls[0]), ls[1..])
  }

  predicate NoNewDelete(ls: seq<Label>, id: Id) {
    forall i | 0 <= i < |ls| :: ls[i].Do? ==> ls[i].a != Begin(id)
  }

  lemma {:induction false} RunAppend(s: State, a: seq<Label>, b: seq<Label>)
    requires CanRun(s, a) && CanRun(RunTo(s, a), b)
    ensures CanRun(s, a + b) && RunTo(s, a + b) == RunTo(RunTo(s, a), b)
    decreases a
  {
    if a == [] {
      assert a + b == b;
    } else {
      RunAppend(Next(s, a[0]), a[1..], b);
      assert (a + b)[1..] == a[1..] + b;
    }
  }

  lemma ExclusiveKept(s: State, l: Label, id: Id)
    requires Inv(s) && Can(s, l)
    requires Exclusive(s, id) && !Overlap(s, id) && !Overlap(Next(s, l), id)
    ensures Exclusive(Next(s, l), id)
  {
    var s' := Next(s, l);
    if l.Do? && l.a == End(id) {
      assert l.t in Deleters(s.roles, id);
      assert forall t | t in Deleters(s.roles, id) :: t == l.t;
      assert forall t | t in s'.roles && Deletes(s'.roles[t], id) :: t in Deleters(s.roles, id);
    } else if l.Do? && l.a == Begin(id) && !s'.roles[l.t].Out? {
      assert l.t in Deleters(s'.roles, id);
      forall t | t in s'.roles && Deletes(s'.roles[t], id) ensures t == l.t {
        assert t in Deleters(s'.roles, id);
      }
    }
  }

  lemma NoNewOverlap(s: State, l: Label, id: Id)
    requires Can(s, l) && !Overlap(s, id)
    requires l.Do? ==> l.a != Begin(id)
    ensures !Overlap(Next(s, l), id)
  {
    assert Deleters(Next(s, l).roles, id) <= Deleters(s.roles, id);
  }

  lemma ExclusiveNotBroken(s: State, id: Id)
    requires Inv(s) && Exclusive(s, id)
    ensures !Broken(s, id)
  {
    if d, u :| d in s.roles && u in s.roles && s.roles[d] == Inside(id) && s.roles[u] == Pinned(id) {
      PlayerCounts(s.roles, u);
    }
  }

  /** Over a whole run: exclusion holds as long as no second delete of the id starts. */
  lemma {:induction false} ExclusiveRun(s: State, ls: seq<Label>, id: Id)
    requires Inv(s) && Exclusive(s, id) && !Overlap(s, id)
    requires CanRun(s, ls) && NoNewDelete(ls, id)
    ensures Inv(RunTo(s, ls)) && Exclusive(RunTo(s, ls), id) && !Broken(RunTo(s, ls), id)
    decreases ls
  {
    if ls == [] {
      ExclusiveNotBroken(s, id);
    } else {
      InvKept(s, ls[0]);
      NoNewOverlap(s, ls[0], id);
      ExclusiveKept(s, ls[0], id);
      ExclusiveRun(Next(s, ls[0]), ls[1..], id);
    }
  }

  /** Every holder of a pin can give it back, and nobody else moves. */
  lemma {:induction false} ReleaseAll(s: State, id: Id) returns (ls: seq<Label>)
    requires Inv(s)
    ensures CanRun(s, ls) && NoNewDelete(ls, id) && Inv(RunTo(s, ls))
    ensures Held(RunTo(s, ls).pins, id) == 0
    ensures RunTo(s, ls).roles.Keys == s.roles.Keys
    ensures forall t | t in s.roles && Deletes(s.roles[t], id) :: RunTo(s, ls).roles[t] == s.roles[t]
    decreases Held(s.pins, id)
  {
    if Held(s.pins, id) == 0 {
      return [];
    }
    var t := SomePlayer(s.roles, Pinned(id));
    var l := Do(t, Release(id));
    InvKept(s, l);
    var rest := ReleaseAll(Next(s, l), id);
    ls := [l] + rest;
    assert ls[1..] == rest;
  }

  /** A registered deleter gets inside as soon as the pins are gone. */
  lemma GetInside(s: State, d: Tid, id: Id) returns (ls: seq<Label>)
    requires Inv(s) && Held(s.pins, id) == 0 && d in s.roles && Deletes(s.roles[d], id)
    ensures CanRun(s, ls) && NoNewDelete(ls, id) && Inv(RunTo(s, ls))
    ensures RunTo(s, ls) == s.(roles := s.roles[d := Inside(id)])
  {
    if s.roles[d] == Inside(id) {
      assert s.roles[d := Inside(id)] == s.roles;
      return [];
    }
    ls := [Do(d, Recheck(id))];
    InvKept(s, ls[0]);
    assert ls[1..] == [];
  }

  /** Two registered deleters can both be inside. */
  lemma BothInside(s: State, d: Tid, e: Tid, id: Id) returns (ls: seq<Label>)
    requires Inv(s) && d != e
    requires d in Deleters(s.roles, id) && e in Deleters(s.roles, id)
    ensures CanRun(s, ls) && NoNewDelete(ls, id) && Inv(RunTo(s, ls))
    ensures {d, e} <= RunTo(s, ls).roles.Keys
    ensures RunTo(s, ls).roles[d] == RunTo(s, ls).roles[e] == Inside(id)
  {
    var a := ReleaseAll(s, id);
    var s1 := RunTo(s, a);
    var b := GetInside(s1, d, id);
    var s2 := RunTo(s1, b);
    var c := GetInside(s2, e, id);
    RunAppend(s1, b, c);
    RunAppend(s, a, b + c);
    ls := a + (b + c);
  }

  lemma OneStep(s: State, l: Label)
    requires Can(s, l)
    ensures CanRun(s, [l]) && RunTo(s, [l]) == Next(s, l)
  {
    assert [l][1..] == [];
  }

  /** The first `end_delete` of the two lets a new pin in under the second. */
  lemma PinSlipsIn(s: State, d: Tid, e: Tid, id: Id) returns (ls: seq<Label>)
    requires Inv(s) && d != e && {d, e} <= s.roles.Keys && s.roles[d] == s.roles[e] == Inside(id)
    ensures CanRun(s, ls) && NoNewDelete(ls, id) && Broken(RunTo(s, ls), id)
  {
    var u := Newcomer(s.roles.Keys);
    assert u !in s.roles.Keys;
    var close, arrive, pin := Do(d, End(id)), Arrive(u, id), Do(u, Acquire(id));
    var s1 := Next(s, close);
    var s2 := Next(s1, arrive);
    var s3 := Next(s2, pin);
    ls := [close, arrive, pin];
    assert [arrive, pin][1..] == [pin] && ls[1..] == [arrive, pin];
    OneStep(s2, pin);
    assert CanRun(s1, [arrive, pin]) && RunTo(s1, [arrive, pin]) == s3;
    assert s3.roles[e] == Inside(id) && s3.roles[u] == Pinned(id);
  }

  lemma OverlapBreaks(s: State, id: Id) returns (ls: seq<Label>)
    requires Inv(s) && Overlap(s, id)
    ensures CanRun(s, ls) && NoNewDelete(ls, id) && Broken(RunTo(s, ls), id)
  {
    var d, e :| d in Deleters(s.roles, id) && e in Deleters(s.roles, id) && d != e;
    var a := BothInside(s, d, e, id);
    var b := PinSlipsIn(RunTo(s, a), d, e, id);
    RunAppend(s, a, b);
    ls := a + b;
  }

  lemma {:induction false} Newcomer(ts: set<Tid>) returns (u: Tid)
    ensures forall v | v in ts :: v < u
    decreases ts
  {
    u := 0;
    if ts != {} {
      var v :| v in ts;
      var w := Newcomer(ts - {v});
      u := if v < w then w else v + 1;
      assert forall x | x in ts :: x == v || x in ts - {v};
    }
  }

  /**
   The exact limit of the exclusion promise. From a state in which it holds, the promise can break without
   any further `begin_delete` on the id if and only if two deleters of the id are registered now.
   */
  lemma OverlapIsExactlyTheLimit(s: State, id: Id)
    requires Inv(s) && Exclusive(s, id)
    ensures Overlap(s, id) <==> exists ls :: CanRun(s, ls) && NoNewDelete(ls, id) && Broken(RunTo(s, ls), id)
  {
    if Overlap(s, id) {
      var ls := OverlapBreaks(s, id);
    } else if ls :| CanRun(s, ls) && NoNewDelete(ls, id) && Broken(RunTo(s, ls), id) {
      ExclusiveRun(s, ls, id);
    }
  }
}
