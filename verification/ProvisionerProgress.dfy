/**
 Deadlock freedom. Whatever a thread waits for has strictly lower rank, in the order quiesce round, queued job, gate,
 pin, drain, sandbox lock, delete slot, process-wide mutex. So no wait is part of a cycle, no set of threads waits only
 for itself, and every chain of waits ends at a thread that can move.
 */
module ProvisionerProgress {
  import opened Prelude
  import opened SandboxRecords
  import opened IdleReaper
  import opened Provisioner
  import opened ProvisionerInvariants
  import opened ProvisionerData
  import opened ProvisionerQuiesce
  import P = OperationPins
  import G = QuiescenceGate
  import K = SandboxLocks

  function EraseRank(e: ErasePc, nested: bool): nat {
    match e
    case EEnter => 2
    case EWait(_) => if nested then 3 else 4
    case ESlot(_) => 3
    case _ => 0
  }

  function MakeRank(m: MakePc): nat {
    match m
    case MEnter => 2
    case MWait(_) => 4
    case MNest(_, e) => EraseRank(e, true)
    case MNetWait(_) => 2
    case _ => 0
  }

  /** How far up in the wait order a thread stands. */
  function Rank(pc: Pc): nat {
    match pc
    case QJobs(_, _) => 9
    case JQueued(_, _) => 8
    case QWaitGate => 7
    case CPin(_) => 6
    case RdPin(_) => 6
    case DWait(_, _) => 5
    case CBack(_, m) => MakeRank(m)
    case RdStale(_, _, e) => EraseRank(e, false)
    case DBack(_, _, e) => EraseRank(e, false)
    case RdNetWait(_, _) => 2
    case _ => 0
  }

  /** The lock a thread is about to take. */
  function WantedLock(pc: Pc): Option<K.Lock> {
    LockRole(pc).want
  }

  predicate WantsSlot(pc: Pc) {
    match pc
    case CBack(_, m) => m.MNest? && m.e.ESlot?
    case RdStale(_, _, e) => e.ESlot?
    case DBack(_, _, e) => e.ESlot?
    case _ => false
  }

  predicate WantsMutex(pc: Pc) {
    match pc
    case CBack(_, m) => m.MEnter? || m.MNetWait? || (m.MNest? && m.e.EEnter?)
    case RdStale(_, _, e) => e.EEnter?
    case DBack(_, _, e) => e.EEnter?
    case RdNetWait(_, _) => true
    case _ => false
  }

  /** Thread `u` stands in the way of `t`. A thread may have many in its way: every pin, every job, every create. */
  predicate WaitsOn(w: World, t: Tid, u: Tid)
    requires t in w.threads && u in w.threads
  {
    var pc, other := w.threads[t], w.threads[u];
    || (PinRole(pc).WantPin? && P.Deletes(PinRole(other), PinRole(pc).id))
    || (PinRole(pc).Draining? && PinRole(other) == P.Pinned(PinRole(pc).id))
    || (pc.QWaitGate? && GateRole(other) == G.InCreate)
    || (WantedLock(pc).Some? && WantedLock(pc).value in LockRole(other).held && u != t)
    || (WantsSlot(pc) && LockRole(other).slot)
    || (WantsMutex(pc) && LockRole(other).mutex)
    || (pc.QJobs? && u in pc.jobs && !other.JDone?)
    || (pc.JQueued? && JobOwner(other) == Some(pc.owner))
  }

  /** Giving up at a deadline does not count as progress. */
  ghost predicate CanMove(cfg: Config, w: World, t: Tid) {
    exists c: Choice :: !c.giveUp && CanRun(cfg, w, t, c)
  }

  // ---------------------------------------------------------------------------------------------------
  // A choice that fits every act
  // ---------------------------------------------------------------------------------------------------

  lemma SomeListing(records: map<Id, Rec>) returns (recs: seq<Rec>)
    requires forall id | id in records :: records[id].id == id
    ensures Listing(records, recs)
  {
    recs := [];
    var todo := records.Keys;
    while todo != {}
      invariant todo <= records.Keys
      invariant forall r | r in recs :: r.id in records && records[r.id] == r && r.id !in todo
      invariant forall id | id in records && id !in todo :: records[id] in recs
      invariant forall i, j | 0 <= i < j < |recs| :: recs[i] != recs[j]
      decreases todo
    {
      var id :| id in todo;
      recs := recs + [records[id]];
      todo := todo - {id};
    }
  }

  lemma SomePass(tr: Tracker, limit: int, now: Time) returns (found: seq<(Id, Option<Gen>)>)
    ensures Collected(tr, limit, now, found)
  {
    found := [];
    if limit <= 0 {
      return;
    }
    var todo := tr.last.Keys;
    while todo != {}
      invariant todo <= tr.last.Keys
      invariant forall p | p in found :: p.0 !in todo && StillExpired(tr, limit, p.0, p.1, now)
      invariant forall id | id in tr.last && id !in todo && Expired(tr, limit, id, now) :: (id, tr.last[id].0) in found
      invariant forall i, j | 0 <= i < j < |found| :: found[i] != found[j]
      decreases todo
    {
      var id :| id in todo;
      todo := todo - {id};
      if Expired(tr, limit, id, now) {
        found := found + [(id, tr.last[id].0)];
      }
    }
  }

  ghost predicate FitsAll(cfg: Config, w: World, c: Choice) {
    && !c.giveUp && c.branch == Finish
    && c.token !in w.data.issued && c.lock !in w.locks.used && c.tid !in w.threads
    && Listing(w.data.records, c.recs)
    && Collected(w.data.tracker, cfg.limit, c.now, c.found)
  }

  lemma SomeChoice(cfg: Config, w: World) returns (c: Choice)
    requires StoreRight(w.data)
    ensures FitsAll(cfg, w, c)
  {
    var recs := SomeListing(w.data.records);
    var found := SomePass(w.data.tracker, cfg.limit, 0.0);
    var token := P.Newcomer(w.data.issued.Keys);
    var lock := P.Newcomer(w.locks.used);
    var tid := P.Newcomer(w.threads.Keys);
    assert token !in w.data.issued.Keys && lock !in w.locks.used && tid !in w.threads.Keys;
    c := Choice(0.0, token, lock, Finish, recs, found, tid, false);
  }

  // ---------------------------------------------------------------------------------------------------
  // Ranks of the parts that others wait for
  // ---------------------------------------------------------------------------------------------------

  lemma PinRanks(pc: Pc)
    ensures PinRole(pc).WantPin? ==> Rank(pc) == 6
    ensures PinRole(pc).Draining? ==> Rank(pc) == 5
    ensures PinRole(pc).Inside? || PinRole(pc).Pinned? ==> Rank(pc) <= 4
    ensures GateRole(pc) == G.InCreate ==> Rank(pc) <= 6
    ensures PinRole(pc) != P.Out || GateRole(pc) == G.InCreate || JobOwner(pc).Some? ==> !Finished(pc)
    ensures JobOwner(pc).Some? ==> Rank(pc) <= 5
  {
  }

  lemma LockRanks(pc: Pc)
    ensures LockRole(pc).slot || LockRole(pc).mutex ==> Rank(pc) == 0
    ensures LockRole(pc).held != [] ==> Rank(pc) <= 3
    ensures LockRole(pc).slot || LockRole(pc).mutex || LockRole(pc).held != [] ==> !Finished(pc)
    ensures WantsSlot(pc) ==> Rank(pc) == 3
    ensures WantsMutex(pc) ==> Rank(pc) == 2
    ensures LockRole(pc).want.Some? && LockRole(pc).held == [] ==> Rank(pc) == 4
  {
  }

  /** What an act says about the thread that is about to run it. */
  lemma ActWants(cfg: Config, pc: Pc, c: Choice)
    requires !Queueing(pc)
    ensures var a := ActOf(cfg, pc, c);
            && (a.ALock? && a.k.Take? ==> WantedLock(pc) == Some(a.k.l))
            && (a.ALock? && a.k.TakeSlot? ==> WantsSlot(pc))
            && (a.ALock? && (a.k.Lookup? || a.k.TakeMutex?) ==> WantsMutex(pc))
            && (a.ALock? && a.k.Lookup? ==> a.k.spare == c.lock)
            && (a.AData? && a.d.Make? ==> a.d.token == c.token)
            && (a.AData? && a.d.ListAll? ==> a.d.recs == c.recs)
            && (a.AData? && a.d.Collect? ==> a.d.now == c.now && a.d.found == c.found)
            && (a.AGate? && GateRole(pc) == G.Emptying ==> pc.QWaitGate?)
  {
  }

  lemma DataReady(cfg: Config, w: World, t: Tid, c: Choice)
    requires FitsAll(cfg, w, c) && t in w.threads && !Queueing(w.threads[t]) && ActOf(cfg, w.threads[t], c).AData?
    ensures Fitting(cfg, w.data, ActOf(cfg, w.threads[t], c).d)
  {
    ActWants(cfg, w.threads[t], c);
  }

  // ---------------------------------------------------------------------------------------------------
  // Whoever is blocked waits on somebody of lower rank
  // ---------------------------------------------------------------------------------------------------

  ghost predicate LowerWait(w: World, t: Tid, u: Tid) {
    && t in w.threads && u in w.threads
    && WaitsOn(w, t, u) && !Finished(w.threads[u]) && Rank(w.threads[u]) < Rank(w.threads[t])
  }

  lemma PinBlocked(w: World, t: Tid) returns (u: Tid)
    requires P.Inv(PinView(w)) && t in w.pins.waiters
    ensures LowerWait(w, t, u)
  {
    var s := PinView(w);
    assert t in s.roles;
    var r := PinRole(w.threads[t]);
    assert s.roles[t] == r;
    if r.WantPin? {
      u :| u in P.Deleters(s.roles, r.id);
      assert P.Deletes(PinRole(w.threads[u]), r.id);
    } else {
      u := SomePlayer(s.roles, P.Pinned(r.id));
      assert PinRole(w.threads[u]) == P.Pinned(r.id);
    }
    PinRanks(w.threads[t]);
    PinRanks(w.threads[u]);
  }

  lemma GateBlocked(w: World, t: Tid) returns (u: Tid)
    requires G.Inv(GateView(w)) && t in w.gate.waiters
    ensures LowerWait(w, t, u)
  {
    var s := GateView(w);
    assert t in s.roles && GateRole(w.threads[t]) == s.roles[t] == G.Emptying;
    u := SomePlayer(s.roles, G.InCreate);
    assert GateRole(w.threads[u]) == G.InCreate;
    PinRanks(w.threads[u]);
  }

  lemma LockBlocked(cfg: Config, w: World, t: Tid, c: Choice) returns (u: Tid)
    requires GoodConfig(cfg) && K.Inv(LockView(w), cfg.concurrency)
    requires t in w.threads && !Queueing(w.threads[t]) && ActOf(cfg, w.threads[t], c).ALock?
    requires c.lock !in w.locks.used
    requires !K.Ready(w.locks, t, ActOf(cfg, w.threads[t], c).k)
    ensures LowerWait(w, t, u)
  {
    var s := LockView(w);
    var pc := w.threads[t];
    var k := ActOf(cfg, pc, c).k;
    ActWants(cfg, pc, c);
    LockConformance(cfg, pc, c, Out(true, if k.Lookup? then Some(0) else None, None));
    u := K.WhoBlocks(s, cfg.concurrency, t, k);
    LockOrder(pc, w.threads[u], k);
  }

  lemma LockOrder(pc: Pc, other: Pc, k: K.Act)
    requires k.Take? ==> LockRole(pc).want.Some? && LockRole(pc).held == [] && LockRole(other).held != []
    requires k.TakeSlot? ==> WantsSlot(pc) && LockRole(other).slot
    requires k.Lookup? || k.TakeMutex? ==> WantsMutex(pc) && LockRole(other).mutex
    requires k.Take? || k.TakeSlot? || k.Lookup? || k.TakeMutex?
    ensures Rank(other) < Rank(pc) && !Finished(other)
  {
    LockRanks(pc);
    LockRanks(other);
  }

  lemma RoundBlocked(w: World, t: Tid) returns (u: Tid)
    requires RoundsInv(w) && t in w.threads && w.threads[t].QJobs?
    requires !forall u | u in w.threads[t].jobs :: u in w.threads && w.threads[u].JDone?
    ensures LowerWait(w, t, u)
  {
    var pc := w.threads[t];
    assert RoundRight(w.threads, t);
    u :| u in pc.jobs && !(u in w.threads && w.threads[u].JDone?);
    var i :| 0 <= i < |pc.jobs| && pc.jobs[i] == u;
    assert u in w.threads;
    RoundWaitsLower(w, t, u);
  }

  lemma JobBlocked(cfg: Config, w: World, t: Tid) returns (u: Tid)
    requires GoodConfig(cfg) && t in w.threads && w.threads[t].JQueued?
    requires |Running(w.threads, w.threads[t].owner)| >= cfg.concurrency
    ensures LowerWait(w, t, u)
  {
    assert |Running(w.threads, w.threads[t].owner)| > 0;
    u :| u in Running(w.threads, w.threads[t].owner);
    PinRanks(w.threads[u]);
  }

  lemma QueueBlocked(cfg: Config, w: World, t: Tid, c: Choice) returns (u: Tid)
    requires GoodConfig(cfg) && RoundsInv(w)
    requires t in w.threads && Queueing(w.threads[t]) && c.tid !in w.threads && !c.giveUp
    requires !CanQueue(cfg, w.threads, w.threads[t], c)
    ensures LowerWait(w, t, u)
  {
    if w.threads[t].QJobs? {
      u := RoundBlocked(w, t);
    } else {
      u := JobBlocked(cfg, w, t);
    }
  }

  lemma JobRanks(pc: Pc, owner: Tid, r: Rec)
    requires JobFor(pc, owner, r) && !pc.JDone?
    ensures Rank(pc) < 9 && !Finished(pc)
  {
  }

  /** The state invariants the wait order rests on. */
  ghost predicate Ordered(cfg: Config, w: World) {
    GoodConfig(cfg) && Sound(cfg, w) && StoreRight(w.data) && RoundsInv(w)
  }

  /** A thread that cannot move waits on a thread of lower rank. */
  lemma BlockedWaitsLower(cfg: Config, w: World, t: Tid) returns (u: Tid)
    requires Ordered(cfg, w) && t in w.threads && !Finished(w.threads[t]) && !CanMove(cfg, w, t)
    ensures LowerWait(w, t, u)
  {
    var c := SomeChoice(cfg, w);
    assert !CanRun(cfg, w, t, c);
    if Queueing(w.threads[t]) {
      u := QueueBlocked(cfg, w, t, c);
      return;
    }
    var a := ActOf(cfg, w.threads[t], c);
    assert !Ready(cfg, w, t, a);
    if a.APin? {
      u := PinBlocked(w, t);
    } else if a.AGate? {
      u := GateBlocked(w, t);
    } else if a.ALock? {
      u := LockBlocked(cfg, w, t, c);
    } else {
      DataReady(cfg, w, t, c);
      assert false;
    }
  }

  // ---------------------------------------------------------------------------------------------------
  // Every wait goes down
  // ---------------------------------------------------------------------------------------------------

  lemma PinWaitsLower(w: World, t: Tid, u: Tid)
    requires t in w.threads && u in w.threads
    requires var pc, other := w.threads[t], w.threads[u];
             || (PinRole(pc).WantPin? && P.Deletes(PinRole(other), PinRole(pc).id))
             || (PinRole(pc).Draining? && PinRole(other) == P.Pinned(PinRole(pc).id))
             || (pc.QWaitGate? && GateRole(other) == G.InCreate)
             || (pc.JQueued? && JobOwner(other) == Some(pc.owner))
    ensures Rank(w.threads[u]) < Rank(w.threads[t]) && !Finished(w.threads[u])
  {
    PinRanks(w.threads[t]);
    PinRanks(w.threads[u]);
  }

  /** Who wants a lock that another thread holds has no lock yet. */
  lemma WantsFirstLock(w: World, slots: nat, t: Tid, u: Tid)
    requires K.Inv(LockView(w), slots) && t in w.threads && u in w.threads && u != t
    requires WantedLock(w.threads[t]).Some? && WantedLock(w.threads[t]).value in LockRole(w.threads[u]).held
    ensures LockRole(w.threads[t]).held == []
  {
    var s := LockView(w);
    var l := WantedLock(w.threads[t]).value;
    assert s.roles[t] == LockRole(w.threads[t]) && s.roles[u] == LockRole(w.threads[u]);
    K.OneLockPerSandbox(s, slots, t, l, u, l);
    if LockRole(w.threads[t]).held != [] {
      K.BodyExclusive(s, slots, t, u);
    }
  }

  lemma LockWaitsLower(w: World, slots: nat, t: Tid, u: Tid)
    requires K.Inv(LockView(w), slots) && t in w.threads && u in w.threads
    requires var pc, other := w.threads[t], w.threads[u];
             || (WantedLock(pc).Some? && WantedLock(pc).value in LockRole(other).held && u != t)
             || (WantsSlot(pc) && LockRole(other).slot)
             || (WantsMutex(pc) && LockRole(other).mutex)
    ensures Rank(w.threads[u]) < Rank(w.threads[t]) && !Finished(w.threads[u])
  {
    var pc, other := w.threads[t], w.threads[u];
    LockRanks(pc);
    LockRanks(other);
    if WantedLock(pc).Some? && WantedLock(pc).value in LockRole(other).held && u != t {
      WantsFirstLock(w, slots, t, u);
    }
  }

  lemma RoundWaitsLower(w: World, t: Tid, u: Tid)
    requires RoundsInv(w) && t in w.threads && u in w.threads
    requires w.threads[t].QJobs? && u in w.threads[t].jobs && !w.threads[u].JDone?
    ensures Rank(w.threads[u]) < Rank(w.threads[t]) && !Finished(w.threads[u])
  {
    var pc := w.threads[t];
    assert RoundRight(w.threads, t);
    var i :| 0 <= i < |pc.jobs| && pc.jobs[i] == u;
    JobRanks(w.threads[u], t, pc.recs[i]);
  }

  /** Every wait, not only some, is for a thread of lower rank that is still on its way. */
  lemma EveryWaitGoesDown(cfg: Config, w: World, t: Tid, u: Tid)
    requires Ordered(cfg, w) && t in w.threads && u in w.threads && WaitsOn(w, t, u)
    ensures Rank(w.threads[u]) < Rank(w.threads[t]) && !Finished(w.threads[u])
  {
    var pc, other := w.threads[t], w.threads[u];
    if pc.QJobs? && u in pc.jobs && !other.JDone? {
      RoundWaitsLower(w, t, u);
    } else if || (WantedLock(pc).Some? && WantedLock(pc).value in LockRole(other).held && u != t)
              || (WantsSlot(pc) && LockRole(other).slot)
              || (WantsMutex(pc) && LockRole(other).mutex) {
      LockWaitsLower(w, cfg.concurrency, t, u);
    } else {
      PinWaitsLower(w, t, u);
    }
  }

  ghost predicate WaitChain(w: World, chain: seq<Tid>) {
    && (forall i | 0 <= i < |chain| :: chain[i] in w.threads)
    && forall i | 0 <= i < |chain| - 1 :: WaitsOn(w, chain[i], chain[i + 1])
  }

  predicate Below(w: World, u: Tid, t: Tid)
    requires t in w.threads && u in w.threads
  {
    Rank(w.threads[u]) < Rank(w.threads[t]) && !Finished(w.threads[u])
  }

  ghost predicate Descends(w: World, chain: seq<Tid>) {
    && (forall i | 0 <= i < |chain| :: chain[i] in w.threads)
    && forall i | 0 <= i < |chain| - 1 :: Below(w, chain[i + 1], chain[i])
  }

  lemma ChainDescends(cfg: Config, w: World, chain: seq<Tid>)
    requires Ordered(cfg, w) && WaitChain(w, chain)
    ensures Descends(w, chain)
  {
    forall i | 0 <= i < |chain| - 1 ensures Below(w, chain[i + 1], chain[i]) {
      EveryWaitGoesDown(cfg, w, chain[i], chain[i + 1]);
    }
  }

  lemma {:induction false} FarDown(w: World, chain: seq<Tid>, i: nat, j: nat)
    requires Descends(w, chain) && i < j < |chain|
    ensures Below(w, chain[j], chain[i])
    decreases j
  {
    assert Below(w, chain[j - 1 + 1], chain[j - 1]);
    if i < j - 1 {
      FarDown(w, chain, i, j - 1);
    }
  }

  /** A chain of waits only goes down, so it never comes back to a thread. */
  lemma ChainGoesDown(cfg: Config, w: World, chain: seq<Tid>, i: nat, j: nat)
    requires Ordered(cfg, w) && WaitChain(w, chain) && i < j < |chain|
    ensures Rank(w.threads[chain[j]]) < Rank(w.threads[chain[i]]) && !Finished(w.threads[chain[j]])
    ensures chain[i] != chain[j]
  {
    ChainDescends(cfg, w, chain);
    FarDown(w, chain, i, j);
  }

  /** A chain of waits that leads no further has reached a thread that can move. */
  lemma ChainEndMoves(cfg: Config, w: World, chain: seq<Tid>)
    requires Ordered(cfg, w) && WaitChain(w, chain) && chain != [] && !Finished(w.threads[chain[0]])
    requires forall u | u in w.threads :: !WaitsOn(w, chain[|chain| - 1], u)
    ensures CanMove(cfg, w, chain[|chain| - 1])
  {
    var last := chain[|chain| - 1];
    if |chain| > 1 {
      ChainGoesDown(cfg, w, chain, 0, |chain| - 1);
    }
    if !CanMove(cfg, w, last) {
      var u := BlockedWaitsLower(cfg, w, last);
    }
  }

  /** Of threads that wait for nobody outside themselves at least one can move. */
  lemma {:induction false} SomeMember(cfg: Config, w: World, members: set<Tid>, t: Tid) returns (u: Tid)
    requires Ordered(cfg, w) && t in members && members <= w.threads.Keys
    requires forall x | x in members :: !Finished(w.threads[x])
    requires forall x, y | x in members && y in w.threads && WaitsOn(w, x, y) :: y in members
    ensures u in members && CanMove(cfg, w, u)
    decreases Rank(w.threads[t])
  {
    if CanMove(cfg, w, t) {
      u := t;
    } else {
      var v := BlockedWaitsLower(cfg, w, t);
      u := SomeMember(cfg, w, members, v);
    }
  }

  /** From every unfinished thread a chain of waits leads to a thread that can move. */
  lemma {:induction false} ChainToMover(cfg: Config, w: World, t: Tid) returns (chain: seq<Tid>)
    requires Ordered(cfg, w) && t in w.threads && !Finished(w.threads[t])
    ensures chain != [] && chain[0] == t && WaitChain(w, chain)
    ensures CanMove(cfg, w, chain[|chain| - 1]) && !Finished(w.threads[chain[|chain| - 1]])
    decreases Rank(w.threads[t])
  {
    if CanMove(cfg, w, t) {
      return [t];
    }
    var u := BlockedWaitsLower(cfg, w, t);
    var rest := ChainToMover(cfg, w, u);
    ChainMore(w, t, rest);
    chain := [t] + rest;
  }

  lemma ChainMore(w: World, t: Tid, rest: seq<Tid>)
    requires rest != [] && WaitChain(w, rest) && t in w.threads && WaitsOn(w, t, rest[0])
    ensures WaitChain(w, [t] + rest)
  {
    var chain := [t] + rest;
    forall i | 0 <= i < |chain| - 1 ensures WaitsOn(w, chain[i], chain[i + 1]) {
      if i > 0 {
        assert chain[i] == rest[i - 1] && chain[i + 1] == rest[i];
      }
    }
  }
}
