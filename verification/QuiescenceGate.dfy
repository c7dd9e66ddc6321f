/**
 The quiescence gate: creates pass through it until a migration starts; `begin` closes it for good and waits
 until the creates that were already inside have left.
 */
module QuiescenceGate {
  import opened Prelude

  datatype Gate = Gate(started: bool, creates: int, waiters: set<Tid>)

  const FRESH := Gate(false, 0, {})

  function EnterSpec(g: Gate): (Gate, bool) {
    if g.started then (g, false) else (g.(creates := g.creates + 1), true)
  }

  function LeaveSpec(g: Gate): Gate {
    g.(creates := g.creates - 1, waiters := if g.creates == 1 then {} else g.waiters)
  }

  /** The loop test of `begin`. */
  function EmptySpec(g: Gate, t: Tid): (Gate, bool) {
    if g.creates != 0 then (g.(waiters := g.waiters + {t}), false) else (g, true)
  }

  function BeginSpec(g: Gate, t: Tid): (Gate, bool) {
    EmptySpec(g.(started := true), t)
  }

  class SandboxQuiescenceGate {
    var started: bool
    var activeCreates: int
    var waiters: set<Tid>

    function View(): Gate
      reads this
    {
      Gate(started, activeCreates, waiters)
    }

    constructor ()
      ensures View() == FRESH
    {
      started, activeCreates, waiters := false, 0, {};
    }

    method Begin(t: Tid) returns (empty: bool)
      modifies this
      ensures (View(), empty) == BeginSpec(old(View()), t)
      ensures started && activeCreates == old(activeCreates) && (empty <==> activeCreates == 0)
      ensures waiters == old(waiters) + if empty then {} else {t}
    {
      started := true;
      empty := AwaitEmpty(t);
    }

    method AwaitEmpty(t: Tid) returns (empty: bool)
      modifies this
      ensures (View(), empty) == EmptySpec(old(View()), t)
      ensures started == old(started) && activeCreates == old(activeCreates) && (empty <==> activeCreates == 0)
      ensures waiters == old(waiters) + if empty then {} else {t}
    {
      empty := activeCreates == 0;
      if !empty {
        waiters := waiters + {t};
      }
    }

    /** `false` is the error that a create gets while the provisioner is quiescing. */
    method AcquireCreate() returns (admitted: bool)
      modifies this
      ensures (View(), admitted) == EnterSpec(old(View()))
      ensures started == old(started) && waiters == old(waiters) && (admitted <==> !started)
      ensures activeCreates == old(activeCreates) + if admitted then 1 else 0
    {
      if started {
        return false;
      }
      activeCreates := activeCreates + 1;
      return true;
    }

    method ReleaseCreate()
      modifies this
      ensures View() == LeaveSpec(old(View()))
      ensures started == old(started) && activeCreates == old(activeCreates) - 1
      ensures waiters == if activeCreates == 0 then {} else old(waiters)
    {
      activeCreates := activeCreates - 1;
      if activeCreates == 0 {
        waiters := {};
      }
    }
  }

  // ---------------------------------------------------------------------------------------------------
  // The protocol
  // ---------------------------------------------------------------------------------------------------

  datatype Act = Enter | Leave | Begin | Recheck

  datatype Role = Out | InCreate | Emptying | Began

  function Apply(g: Gate, t: Tid, a: Act): (Gate, bool) {
    match a
    case Enter => EnterSpec(g)
    case Leave => (LeaveSpec(g), true)
    case Begin => BeginSpec(g, t)
    case Recheck => EmptySpec(g, t)
  }

  predicate Enabled(r: Role, a: Act) {
    match a
    case Enter => r == Out
    case Leave => r == InCreate
    case Begin => r == Out
    case Recheck => r == Emptying
  }

  function RoleAfter(a: Act, ok: bool): Role {
    match a
    case Enter => if ok then InCreate else Out
    case Leave => Out
    case Begin => if ok then Began else Emptying
    case Recheck => if ok then Began else Emptying
  }

  datatype State = State(gate: Gate, roles: map<Tid, Role>)

  const START := State(FRESH, map[])

  datatype Label =
    | Do(t: Tid, a: Act)
    | Join(t: Tid)   // a new thread
    | Finish(t: Tid) // the quiesce request ends, with or without success

  predicate Can(s: State, l: Label) {
    match l
    case Do(t, a) => t in s.roles && t !in s.gate.waiters && Enabled(s.roles[t], a)
    case Join(t) => t !in s.roles
    case Finish(t) => t in s.roles && s.roles[t] == Began
  }

  function Next(s: State, l: Label): State
    requires Can(s, l)
  {
    match l
    case Do(t, a) =>
      var (g, ok) := Apply(s.gate, t, a);
      State(g, s.roles[t := RoleAfter(a, ok)])
    case Join(t) => s.(roles := s.roles[t := Out])
    case Finish(t) => s.(roles := s.roles[t := Out])
  }

  /** The counter is the number of creates inside, a sleeper would still fail its test, and begun means started. */
  ghost predicate Inv(s: State) {
    && s.gate.creates == |Players(s.roles, InCreate)|
    && (forall t | t in s.gate.waiters :: t in s.roles && s.roles[t] == Emptying && s.gate.creates != 0)
    && (forall t | t in s.roles && s.roles[t] in {Emptying, Began} :: s.gate.started)
  }

  /** The gate is shut and nobody is left inside. */
  ghost predicate Quiet(s: State) {
    s.gate.started && s.gate.creates == 0
  }

  lemma StartInv()
    ensures Inv(START)
  {
    assert Players(START.roles, InCreate) == {};
  }

  lemma InvKept(s: State, l: Label)
    requires Inv(s) && Can(s, l)
    ensures Inv(Next(s, l))
  {
    var t, role := l.t, Next(s, l).roles[l.t];
    if t in s.roles {
      PlayersUpdate(s.roles, t, s.roles[t], role, InCreate);
      PlayerCounts(s.roles, t);
    } else {
      PlayersJoin(s.roles, t, role, InCreate);
    }
  }

  predicate CanRun(s: State, ls: seq<Label>)
    decreases ls
  {
    ls == [] || (Can(s, ls[0]) && CanRun(Next(s, ls[0]), ls[1..]))
  }

  function RunTo(s: State, ls: seq<Label>): State
    requires CanRun(s, ls)
    decreases ls
  {
    if ls == [] then s else RunTo(Next(s, ls[0]), ls[1..])
  }

  lemma QuietKept(s: State, l: Label)
    requires Inv(s) && Quiet(s) && Can(s, l)
    ensures Quiet(Next(s, l))
    ensures l.t in s.roles || l.Join?
    ensures Next(s, l).roles[l.t] != InCreate
  {
    if l.t in s.roles && s.roles[l.t] == InCreate {
      PlayerCounts(s.roles, l.t);
      assert false;
    }
  }

  /** Quiescence is permanent: a quiet gate stays quiet and empty of creates in every later state. */
  lemma {:induction false} QuietForever(s: State, ls: seq<Label>)
    requires Inv(s) && Quiet(s) && CanRun(s, ls)
    ensures Inv(RunTo(s, ls)) && Quiet(RunTo(s, ls))
    ensures forall t | t in RunTo(s, ls).roles :: RunTo(s, ls).roles[t] != InCreate
    decreases ls
  {
    if ls != [] {
      InvKept(s, ls[0]);
      QuietKept(s, ls[0]);
      QuietForever(Next(s, ls[0]), ls[1..]);
    } else if t :| t in s.roles && s.roles[t] == InCreate {
      PlayerCounts(s.roles, t);
      assert false;
    }
  }

  /** The step in which a `begin` returns finds the gate quiet, and it is quiet from then on. */
  lemma BegunIsQuietForever(s: State, l: Label, ls: seq<Label>)
    requires Inv(s) && Can(s, l)
    requires l.Do? && Next(s, l).roles[l.t] == Began
    requires CanRun(Next(s, l), ls)
    ensures Quiet(RunTo(Next(s, l), ls))
    ensures forall t | t in RunTo(Next(s, l), ls).roles :: RunTo(Next(s, l), ls).roles[t] != InCreate
  {
    InvKept(s, l);
    QuietForever(Next(s, l), ls);
  }
}
