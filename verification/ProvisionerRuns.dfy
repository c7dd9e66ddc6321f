/** Properties of whole runs of the provisioner, over all interleavings. */
module ProvisionerRuns {
  import opened Prelude
  import opened SandboxRecords
  import opened IdleReaper
  import opened Provisioner
  import opened ProvisionerInvariants
  import opened ProvisionerData
  import opened ProvisionerQuiesce
  import opened ProvisionerProgress
  import P = OperationPins
  import G = QuiescenceGate
  import K = SandboxLocks

  ghost predicate IsRun(cfg: Config, w: World, labs: seq<Label>)
    decreases |labs|, 0
  {
    labs == []
    || (IsRun(cfg, w, labs[..|labs| - 1])
        && Can(cfg, EndOf(cfg, w, labs[..|labs| - 1]), labs[|labs| - 1]))
  }

  ghost function EndOf(cfg: Config, w: World, labs: seq<Label>): World
    requires IsRun(cfg, w, labs)
    decreases |labs|, 1
  {
    if labs == [] then w else Next(cfg, EndOf(cfg, w, labs[..|labs| - 1]), labs[|labs| - 1])
  }

  /** A run of the provisioner from its start. */
  ghost predicate Runs(cfg: Config, labs: seq<Label>) {
    IsRun(cfg, Boot(cfg), labs)
  }

  lemma {:induction false} Prefix(cfg: Config, w: World, labs: seq<Label>, i: nat)
    requires IsRun(cfg, w, labs) && i <= |labs|
    ensures IsRun(cfg, w, labs[..i])
    ensures i < |labs| ==>
              && Can(cfg, EndOf(cfg, w, labs[..i]), labs[i])
              && IsRun(cfg, w, labs[..i + 1])
              && EndOf(cfg, w, labs[..i + 1]) == Next(cfg, EndOf(cfg, w, labs[..i]), labs[i])
  {
    if i == |labs| {
      assert labs[..i] == labs;
    } else {
      var init := labs[..|labs| - 1];
      Prefix(cfg, w, init, i);
      assert init[..i] == labs[..i];
      if i < |init| {
        assert init[..i + 1] == labs[..i + 1];
      } else {
        assert labs[..i + 1] == labs && init == labs[..i];
      }
    }
  }

  /** The state before step `i`. */
  ghost function At(cfg: Config, labs: seq<Label>, i: nat): World
    requires Runs(cfg, labs) && i <= |labs|
  {
    Prefix(cfg, Boot(cfg), labs, i);
    EndOf(cfg, Boot(cfg), labs[..i])
  }

  lemma StepAt(cfg: Config, labs: seq<Label>, i: nat)
    requires Runs(cfg, labs) && i < |labs|
    ensures Can(cfg, At(cfg, labs, i), labs[i]) && At(cfg, labs, i + 1) == Next(cfg, At(cfg, labs, i), labs[i])
  {
    Prefix(cfg, Boot(cfg), labs, i);
  }

  ghost predicate Inv(cfg: Config, w: World) {
    && Sound(cfg, w) && DataInv(w) && QuietInv(w) && RoundsInv(w)
    && (cfg.atomic ==> PolicyInv(w))
  }

  lemma BootInv(cfg: Config)
    ensures Inv(cfg, Boot(cfg))
  {
    var w := Boot(cfg);
    P.StartInv();
    assert PinView(w) == P.START;
    G.StartInv();
    assert GateView(w) == G.START;
    K.StartInv(cfg.concurrency);
    assert LockView(w) == K.Start(cfg.concurrency);
  }

  lemma InvKept(cfg: Config, w: World, lab: Label)
    requires Inv(cfg, w) && Can(cfg, w, lab)
    ensures Inv(cfg, Next(cfg, w, lab))
  {
    SoundKept(cfg, w, lab);
    DataKept(cfg, w, lab);
    QuietInvKept(cfg, w, lab);
    RoundsInvKept(cfg, w, lab);
    if cfg.atomic {
      PolicyInvKept(cfg, w, lab);
    }
  }

  lemma InvStep(cfg: Config, labs: seq<Label>, i: nat)
    requires Runs(cfg, labs) && i < |labs| && Inv(cfg, At(cfg, labs, i))
    ensures Inv(cfg, At(cfg, labs, i + 1))
  {
    StepAt(cfg, labs, i);
    InvKept(cfg, At(cfg, labs, i), labs[i]);
  }

  /** Every reachable state satisfies the invariant. */
  lemma {:induction false} RunInv(cfg: Config, labs: seq<Label>, i: nat)
    requires Runs(cfg, labs) && i <= |labs|
    ensures Inv(cfg, At(cfg, labs, i))
  {
    if i == 0 {
      assert labs[..0] == [];
      BootInv(cfg);
    } else {
      RunInv(cfg, labs, i - 1);
      InvStep(cfg, labs, i - 1);
    }
  }

  // ---------------------------------------------------------------------------------------------------
  // Deadlock, wake-ups, mutual exclusion
  // ---------------------------------------------------------------------------------------------------

  lemma OrderedAt(cfg: Config, labs: seq<Label>, i: nat)
    requires GoodConfig(cfg) && Runs(cfg, labs) && i <= |labs|
    ensures Ordered(cfg, At(cfg, labs, i))
  {
    RunInv(cfg, labs, i);
  }

  /**
   The wait order: in every reachable state every wait, for each of the threads that stand in the way, leads to a
   lower rank, so no chain of waits returns to a thread it has passed.
   */
  lemma WaitsNeverCircle(cfg: Config, labs: seq<Label>, k: nat, chain: seq<Tid>, i: nat, j: nat)
    requires GoodConfig(cfg) && Runs(cfg, labs) && k <= |labs|
    requires WaitChain(At(cfg, labs, k), chain) && i < j < |chain|
    ensures var w := At(cfg, labs, k);
            Rank(w.threads[chain[j]]) < Rank(w.threads[chain[i]]) && chain[i] != chain[j]
  {
    OrderedAt(cfg, labs, k);
    ChainGoesDown(cfg, At(cfg, labs, k), chain, i, j);
  }

  /**
   No deadlock, not even among some of the threads: unfinished threads that wait for nobody but each other always have
   one among them that can take a step other than giving up.
   */
  lemma NoDeadlock(cfg: Config, labs: seq<Label>, i: nat, members: set<Tid>) returns (t: Tid)
    requires GoodConfig(cfg) && Runs(cfg, labs) && i <= |labs|
    requires members != {} && members <= At(cfg, labs, i).threads.Keys
    requires forall x | x in members :: !Finished(At(cfg, labs, i).threads[x])
    requires forall x, y | x in members && y in At(cfg, labs, i).threads && WaitsOn(At(cfg, labs, i), x, y) :: y in members
    ensures t in members && CanMove(cfg, At(cfg, labs, i), t)
  {
    OrderedAt(cfg, labs, i);
    var x :| x in members;
    t := SomeMember(cfg, At(cfg, labs, i), members, x);
  }

  /** Wherever a chain of waits that starts at an unfinished thread stops, it has reached one that can move. */
  lemma EveryWaitEndsAtAMover(cfg: Config, labs: seq<Label>, i: nat, chain: seq<Tid>)
    requires GoodConfig(cfg) && Runs(cfg, labs) && i <= |labs|
    requires WaitChain(At(cfg, labs, i), chain) && chain != [] && !Finished(At(cfg, labs, i).threads[chain[0]])
    requires forall u | u in At(cfg, labs, i).threads :: !WaitsOn(At(cfg, labs, i), chain[|chain| - 1], u)
    ensures CanMove(cfg, At(cfg, labs, i), chain[|chain| - 1])
  {
    OrderedAt(cfg, labs, i);
    ChainEndMoves(cfg, At(cfg, labs, i), chain);
  }

  /** And such a chain exists from every unfinished thread. */
  lemma SomeWaitEndsAtAMover(cfg: Config, labs: seq<Label>, i: nat, t: Tid) returns (chain: seq<Tid>)
    requires GoodConfig(cfg) && Runs(cfg, labs) && i <= |labs|
    requires t in At(cfg, labs, i).threads && !Finished(At(cfg, labs, i).threads[t])
    ensures chain != [] && chain[0] == t && WaitChain(At(cfg, labs, i), chain)
    ensures CanMove(cfg, At(cfg, labs, i), chain[|chain| - 1])
  {
    OrderedAt(cfg, labs, i);
    chain := ChainToMover(cfg, At(cfg, labs, i), t);
  }

  /** No lost wake-up: a sleeping thread would still find its condition false, for any number of deleters. */
  lemma NoLostWakeup(cfg: Config, labs: seq<Label>, i: nat, t: Tid)
    requires Runs(cfg, labs) && i <= |labs|
    ensures var w := At(cfg, labs, i);
            && (t in w.pins.waiters ==>
                  && t in w.threads
                  && match w.threads[t]
                     case CPin(q) => q.id in w.pins.deleting
                     case RdPin(id) => id in w.pins.deleting
                     case DWait(id, _) => P.Held(w.pins, id) > 0
                     case _ => false)
            && (t in w.gate.waiters ==> t in w.threads && w.threads[t] == QWaitGate && w.gate.creates > 0)
  {
    RunInv(cfg, labs, i);
    var w := At(cfg, labs, i);
    if t in w.pins.waiters {
      assert PinView(w).roles[t] == PinRole(w.threads[t]);
    }
    if t in w.gate.waiters {
      assert GateView(w).roles[t] == GateRole(w.threads[t]);
    }
  }

  /** The pin counter of an id is the number of threads that hold a pin on it. */
  lemma PinsCounted(cfg: Config, labs: seq<Label>, i: nat, id: Id)
    requires Runs(cfg, labs) && i <= |labs|
    ensures var w := At(cfg, labs, i);
            P.Held(w.pins, id) == |set t | t in w.threads && PinRole(w.threads[t]) == P.Pinned(id)|
  {
    RunInv(cfg, labs, i);
    var w := At(cfg, labs, i);
    assert (set t | t in w.threads && PinRole(w.threads[t]) == P.Pinned(id))
        == Players(PinView(w).roles, P.Pinned(id));
  }

  /** Two threads are between `begin_delete` and `end_delete`, or waiting there, for the same id. */
  ghost predicate Overlapping(w: World, id: Id) {
    P.Overlap(PinView(w), id)
  }

  lemma ExclusiveStep(s: P.State, s': P.State, id: Id)
    requires P.Inv(s) && PinStep(s, s') && P.Exclusive(s, id) && !P.Overlap(s, id) && !P.Overlap(s', id)
    ensures P.Exclusive(s', id)
  {
    if s' != s {
      var l :| P.Can(s, l) && s' == P.Next(s, l);
      P.ExclusiveKept(s, l, id);
    }
  }

  lemma ExclusiveFirst(cfg: Config, labs: seq<Label>, id: Id)
    requires Runs(cfg, labs)
    ensures P.Exclusive(PinView(At(cfg, labs, 0)), id)
  {
    assert labs[..0] == [];
  }

  lemma {:induction false} ExclusiveAt(cfg: Config, labs: seq<Label>, i: nat, id: Id)
    requires Runs(cfg, labs) && i <= |labs|
    requires forall j | 0 <= j <= i :: !Overlapping(At(cfg, labs, j), id)
    ensures P.Exclusive(PinView(At(cfg, labs, i)), id)
  {
    if i == 0 {
      ExclusiveFirst(cfg, labs, id);
    } else {
      ExclusiveAt(cfg, labs, i - 1, id);
      RunInv(cfg, labs, i - 1);
      assert !Overlapping(At(cfg, labs, i - 1), id) && !Overlapping(At(cfg, labs, i), id);
      ExclusiveNext(cfg, labs, i - 1, id);
    }
  }

  lemma ExclusiveNext(cfg: Config, labs: seq<Label>, j: nat, id: Id)
    requires Runs(cfg, labs) && j < |labs| && Inv(cfg, At(cfg, labs, j))
    requires P.Exclusive(PinView(At(cfg, labs, j)), id)
    requires !Overlapping(At(cfg, labs, j), id) && !Overlapping(At(cfg, labs, j + 1), id)
    ensures P.Exclusive(PinView(At(cfg, labs, j + 1)), id)
  {
    StepAt(cfg, labs, j);
    PinRefines(cfg, At(cfg, labs, j), labs[j]);
    ExclusiveStep(PinView(At(cfg, labs, j)), PinView(At(cfg, labs, j + 1)), id);
  }

  /**
   Pins and deletes exclude each other as long as deletes of the id have not overlapped: while a thread is in its
   delete window no thread holds a pin, and the id is closed.
   */
  lemma DeleteExcludesPins(cfg: Config, labs: seq<Label>, i: nat, id: Id, d: Tid)
    requires Runs(cfg, labs) && i <= |labs|
    requires forall j | 0 <= j <= i :: !Overlapping(At(cfg, labs, j), id)
    requires d in At(cfg, labs, i).threads && PinRole(At(cfg, labs, i).threads[d]) == P.Inside(id)
    ensures var w := At(cfg, labs, i);
            && id in w.pins.deleting && P.Held(w.pins, id) == 0
            && forall t | t in w.threads :: PinRole(w.threads[t]) != P.Pinned(id)
  {
    ExclusiveAt(cfg, labs, i, id);
    RunInv(cfg, labs, i);
    var w := At(cfg, labs, i);
    assert PinView(w).roles[d] == P.Inside(id);
    if t :| t in w.threads && PinRole(w.threads[t]) == P.Pinned(id) {
      PlayerCounts(PinView(w).roles, t);
      assert false;
    }
  }

  /** In the create or delete body of a sandbox, that is, holding its lock. */
  predicate InBody(pc: Pc, id: Id) {
    LockRole(pc).held != [] && LockRole(pc).id == id
  }

  lemma OneBody(cfg: Config, w: World, id: Id, t: Tid, u: Tid)
    requires K.Inv(LockView(w), cfg.concurrency) && t in w.threads && u in w.threads
    requires InBody(w.threads[t], id) && InBody(w.threads[u], id)
    ensures t == u
  {
    var s := LockView(w);
    assert s.roles[t] == LockRole(w.threads[t]) && s.roles[u] == LockRole(w.threads[u]);
    K.BodyExclusive(s, cfg.concurrency, t, u);
  }

  lemma SlotsBounded(cfg: Config, w: World)
    requires K.Inv(LockView(w), cfg.concurrency)
    ensures |set v | v in w.threads && LockRole(w.threads[v]).slot| <= cfg.concurrency
  {
    var s := LockView(w);
    K.DeletesBounded(s, cfg.concurrency);
    assert (set v | v in w.threads && LockRole(w.threads[v]).slot) == (set v | v in s.roles && s.roles[v].slot);
  }

  /** Docker backend: one body per sandbox at a time, and at most `concurrency` delete bodies in all. */
  lemma BodiesExclusive(cfg: Config, labs: seq<Label>, i: nat, id: Id, t: Tid, u: Tid)
    requires Runs(cfg, labs) && i <= |labs|
    requires t in At(cfg, labs, i).threads && u in At(cfg, labs, i).threads
    ensures var w := At(cfg, labs, i);
            && (InBody(w.threads[t], id) && InBody(w.threads[u], id) ==> t == u)
            && |set v | v in w.threads && LockRole(w.threads[v]).slot| <= cfg.concurrency
  {
    RunInv(cfg, labs, i);
    var w := At(cfg, labs, i);
    SlotsBounded(cfg, w);
    if InBody(w.threads[t], id) && InBody(w.threads[u], id) {
      OneBody(cfg, w, id, t, u);
    }
  }

  /** Two threads that hold or want the lock of one sandbox refer to the same lock object. */
  lemma LocksShared(cfg: Config, labs: seq<Label>, i: nat, t: Tid, u: Tid, l: K.Lock, m: K.Lock)
    requires Runs(cfg, labs) && i <= |labs|
    requires t in At(cfg, labs, i).threads && u in At(cfg, labs, i).threads
    requires K.Refers(LockRole(At(cfg, labs, i).threads[t]), l) && K.Refers(LockRole(At(cfg, labs, i).threads[u]), m)
    ensures LockRole(At(cfg, labs, i).threads[t]).id == LockRole(At(cfg, labs, i).threads[u]).id <==> l == m
  {
    RunInv(cfg, labs, i);
    var s := LockView(At(cfg, labs, i));
    assert s.roles[t] == LockRole(At(cfg, labs, i).threads[t]) && s.roles[u] == LockRole(At(cfg, labs, i).threads[u]);
    K.OneLockPerSandbox(s, cfg.concurrency, t, l, u, m);
  }

  // ---------------------------------------------------------------------------------------------------
  // Quiescence
  // ---------------------------------------------------------------------------------------------------

  lemma QuietStep(cfg: Config, w: World, lab: Label)
    requires Sound(cfg, w) && Can(cfg, w, lab) && G.Quiet(GateView(w))
    ensures G.Quiet(GateView(Next(cfg, w, lab)))
    ensures Shrinks(w.data.records, Next(cfg, w, lab).data.records)
  {
    SoundKept(cfg, w, lab);
    QuietShrinks(cfg, w, lab);
  }

  lemma QuietStepAt(cfg: Config, labs: seq<Label>, j: nat)
    requires Runs(cfg, labs) && j < |labs| && G.Quiet(GateView(At(cfg, labs, j)))
    ensures G.Quiet(GateView(At(cfg, labs, j + 1)))
    ensures Shrinks(At(cfg, labs, j).data.records, At(cfg, labs, j + 1).data.records)
  {
    RunInv(cfg, labs, j);
    StepAt(cfg, labs, j);
    QuietStep(cfg, At(cfg, labs, j), labs[j]);
  }

  lemma {:induction false} QuietFrom(cfg: Config, labs: seq<Label>, i: nat, j: nat)
    requires Runs(cfg, labs) && i <= j <= |labs| && G.Quiet(GateView(At(cfg, labs, i)))
    ensures G.Quiet(GateView(At(cfg, labs, j)))
    ensures Shrinks(At(cfg, labs, i).data.records, At(cfg, labs, j).data.records)
  {
    if i < j {
      QuietFrom(cfg, labs, i, j - 1);
      QuietStepAt(cfg, labs, j - 1);
      ShrinksOn(At(cfg, labs, i).data.records, At(cfg, labs, j - 1).data.records, At(cfg, labs, j).data.records);
    }
  }

  lemma ShrinksOn(a: map<Id, Rec>, b: map<Id, Rec>, c: map<Id, Rec>)
    requires Shrinks(a, b) && Shrinks(b, c)
    ensures Shrinks(a, c)
  {
  }

  /**
   Quiescence is permanent: once some `begin` has returned, then in every later state no create is in progress
   and the inventory is part of what it was.
   */
  lemma QuiescencePermanent(cfg: Config, labs: seq<Label>, i: nat, j: nat, q: Tid)
    requires Runs(cfg, labs) && i <= j <= |labs|
    requires q in At(cfg, labs, i).threads && GateRole(At(cfg, labs, i).threads[q]) == G.Began
    ensures At(cfg, labs, j).gate.started && At(cfg, labs, j).gate.creates == 0
    ensures forall t | t in At(cfg, labs, j).threads :: GateRole(At(cfg, labs, j).threads[t]) != G.InCreate
    ensures Shrinks(At(cfg, labs, i).data.records, At(cfg, labs, j).data.records)
  {
    RunInv(cfg, labs, i);
    assert Quieting(At(cfg, labs, i).threads[q]);
    QuietFrom(cfg, labs, i, j);
    RunInv(cfg, labs, j);
    var s := GateView(At(cfg, labs, j));
    forall t | t in At(cfg, labs, j).threads ensures GateRole(At(cfg, labs, j).threads[t]) != G.InCreate {
      assert s.roles[t] == GateRole(At(cfg, labs, j).threads[t]);
      if s.roles[t] == G.InCreate {
        PlayerCounts(s.roles, t);
        assert false;
      }
    }
  }

  /** An ok answer means that the inventory is empty then and in every later state. */
  lemma OkMeansEmptyForever(cfg: Config, labs: seq<Label>, i: nat, j: nat, q: Tid)
    requires Runs(cfg, labs) && i <= j <= |labs|
    requires q in At(cfg, labs, i).threads && At(cfg, labs, i).threads[q] == QOk
    ensures At(cfg, labs, j).data.records == map[]
  {
    RunInv(cfg, labs, i);
    assert Facts(At(cfg, labs, i).data.records, At(cfg, labs, i).threads[q]);
    QuiescencePermanent(cfg, labs, i, j, q);
  }

  lemma ListingFirst(records: map<Id, Rec>, recs: seq<Rec>)
    requires Listing(records, recs)
    ensures recs != [] ==> recs[0].id in records
  {
  }

  /** A listing of the empty inventory is answered ok. */
  lemma EmptyListing(cfg: Config, w: World, q: Tid, c: Choice)
    requires q in w.threads && w.threads[q] == QList && w.data.records == map[] && CanRun(cfg, w, q, c)
    ensures Next(cfg, w, Label.Run(q, c)).threads[q] == QOk
  {
    ListingFirst(w.data.records, c.recs);
  }

  /**
   One round is enough: when a round ends with all its jobs done and none failed, the inventory is empty from then
   on, and the listing that follows is answered ok.
   */
  lemma OneRoundSuffices(cfg: Config, labs: seq<Label>, i: nat, j: nat, q: Tid, c: Choice)
    requires Runs(cfg, labs) && i < j <= |labs| && labs[i] == Label.Run(q, c)
    requires q in At(cfg, labs, i).threads && At(cfg, labs, i).threads[q].QJobs?
    requires q in At(cfg, labs, i + 1).threads && At(cfg, labs, i + 1).threads[q] == QList
    ensures At(cfg, labs, j).data.records == map[]
    ensures j < |labs| && labs[j].Run? && labs[j].t == q
            && q in At(cfg, labs, j).threads && At(cfg, labs, j).threads[q] == QList
            ==> q in At(cfg, labs, j + 1).threads && At(cfg, labs, j + 1).threads[q] == QOk
  {
    RoundLeavesNothing(cfg, labs, i, q, c);
    QuiescencePermanent(cfg, labs, i, j, q);
    if j < |labs| && labs[j].Run? && labs[j].t == q && q in At(cfg, labs, j).threads && At(cfg, labs, j).threads[q] == QList {
      StepAt(cfg, labs, j);
      EmptyListing(cfg, At(cfg, labs, j), q, labs[j].c);
    }
  }

  lemma RoundLeavesNothing(cfg: Config, labs: seq<Label>, i: nat, q: Tid, c: Choice)
    requires Runs(cfg, labs) && i < |labs| && labs[i] == Label.Run(q, c)
    requires q in At(cfg, labs, i).threads && At(cfg, labs, i).threads[q].QJobs?
    requires q in At(cfg, labs, i + 1).threads && At(cfg, labs, i + 1).threads[q] == QList
    ensures At(cfg, labs, i).data.records == map[]
  {
    StepAt(cfg, labs, i);
    RunInv(cfg, labs, i);
    RoundEmpties(cfg, At(cfg, labs, i), q, c);
  }

  // ---------------------------------------------------------------------------------------------------
  // The reaper
  // ---------------------------------------------------------------------------------------------------

  /** Step `j` is the recheck of thread `t` for this sandbox, and it found the pair still expired. */
  ghost predicate RecheckedAt(cfg: Config, labs: seq<Label>, j: nat, t: Tid, id: Id, k: Kind)
    requires Runs(cfg, labs)
  {
    && j < |labs| && labs[j].Run? && labs[j].t == t && k.Reap?
    && t in At(cfg, labs, j).threads && At(cfg, labs, j).threads[t] == RCheck(id, k)
    && StillExpired(At(cfg, labs, j).data.tracker, cfg.limit, id, k.gen, labs[j].c.now)
  }

  /** The generation is tracked, and its last activity lies at least its positive timeout before `now`. */
  ghost predicate IdleSince(tr: Tracker, limit: int, id: Id, gen: Gen, now: Time) {
    && id in tr.last && tr.last[id].0 == Some(gen)
    && exists s: int :: s > 0 && HasTimeout(tr, limit, id, s) && now - tr.last[id].1 >= s as real
  }

  predicate HasTimeout(tr: Tracker, limit: int, id: Id, s: int) {
    (id in tr.timeouts && tr.timeouts[id] == Some(s)) || ((id in tr.timeouts ==> tr.timeouts[id] == None) && limit == s)
  }

  /** A thread gets to the delete of the reaper only through a recheck that succeeded. */
  lemma BackFrom(cfg: Config, w: World, lab: Label, t: Tid)
    requires Can(cfg, w, lab)
    requires t in Next(cfg, w, lab).threads
    requires Next(cfg, w, lab).threads[t].DBack? && Next(cfg, w, lab).threads[t].k.Reap?
    ensures t in w.threads
    ensures var pc, pc' := w.threads[t], Next(cfg, w, lab).threads[t];
            || (pc.DBack? && pc.id == pc'.id && pc.k == pc'.k)
            || (lab.Run? && lab.t == t && pc == RCheck(pc'.id, pc'.k)
                && StillExpired(w.data.tracker, cfg.limit, pc.id, pc.k.gen, lab.c.now))
  {
    var w' := Next(cfg, w, lab);
    if lab.Run? && !Queueing(w.threads[lab.t]) {
      BackAfter(cfg, w, lab.t, lab.c);
    } else if lab.Run? {
      BackQueue(cfg, w, lab.t, lab.c, t);
    }
  }

  lemma BackQueue(cfg: Config, w: World, t: Tid, c: Choice, u: Tid)
    requires CanRun(cfg, w, t, c) && Queueing(w.threads[t])
    requires u in StepQueue(w, t, c).threads
    requires StepQueue(w, t, c).threads[u].DBack? && StepQueue(w, t, c).threads[u].k.Reap?
    ensures u in w.threads && StepQueue(w, t, c).threads[u] == w.threads[u]
  {
    if Submits(w.threads[t], c) {
      QueueSubmit(cfg, w, t, c);
    } else {
      QueueMove(w, t, c);
    }
  }

  lemma BackMove(cfg: Config, pc: Pc, c: Choice, o: Out)
    requires !Queueing(pc)
    ensures var pc' := After(cfg, pc, c, o);
            pc'.DBack? && pc'.k.Reap? ==>
              || (pc.DBack? && pc.id == pc'.id && pc.k == pc'.k)
              || (pc == RCheck(pc'.id, pc'.k) && o.ok)
  {
  }

  lemma BackAfter(cfg: Config, w: World, t: Tid, c: Choice)
    requires Ordinary(cfg, w, t, c)
    ensures var pc, pc' := w.threads[t], Next(cfg, w, Label.Run(t, c)).threads[t];
            pc'.DBack? && pc'.k.Reap? ==>
              || (pc.DBack? && pc.id == pc'.id && pc.k == pc'.k)
              || (pc == RCheck(pc'.id, pc'.k) && StillExpired(w.data.tracker, cfg.limit, pc.id, pc.k.gen, c.now))
    ensures forall u | u in w.threads && u != t :: Next(cfg, w, Label.Run(t, c)).threads[u] == w.threads[u]
    ensures Next(cfg, w, Label.Run(t, c)).threads.Keys == w.threads.Keys
  {
    var a, o, pc' := OrdinaryStep(cfg, w, t, c);
    ApplyEffect(cfg, w, t, a);
    BackMove(cfg, w.threads[t], c, o);
  }

  lemma RecheckedStep(cfg: Config, labs: seq<Label>, i: nat, t: Tid)
    requires Runs(cfg, labs) && 0 < i <= |labs|
    requires t in At(cfg, labs, i).threads
    requires At(cfg, labs, i).threads[t].DBack? && At(cfg, labs, i).threads[t].k.Reap?
    ensures t in At(cfg, labs, i - 1).threads
    ensures var pc, pc' := At(cfg, labs, i - 1).threads[t], At(cfg, labs, i).threads[t];
            || (pc.DBack? && pc.id == pc'.id && pc.k == pc'.k)
            || RecheckedAt(cfg, labs, i - 1, t, pc'.id, pc'.k)
  {
    StepAt(cfg, labs, i - 1);
    BackFrom(cfg, At(cfg, labs, i - 1), labs[i - 1], t);
  }

  lemma {:induction false} RecheckedBefore(cfg: Config, labs: seq<Label>, i: nat, t: Tid) returns (j: nat)
    requires Runs(cfg, labs) && i <= |labs|
    requires t in At(cfg, labs, i).threads
    requires At(cfg, labs, i).threads[t].DBack? && At(cfg, labs, i).threads[t].k.Reap?
    ensures j < i && RecheckedAt(cfg, labs, j, t, At(cfg, labs, i).threads[t].id, At(cfg, labs, i).threads[t].k)
  {
    assert labs[..0] == [];
    RecheckedStep(cfg, labs, i, t);
    if RecheckedAt(cfg, labs, i - 1, t, At(cfg, labs, i).threads[t].id, At(cfg, labs, i).threads[t].k) {
      j := i - 1;
    } else {
      j := RecheckedBefore(cfg, labs, i - 1, t);
    }
  }

  predicate Reaping(pc: Pc) {
    KindOf(pc).Some? && KindOf(pc).value.1.Reap?
  }

  /** A reaping thread changes records in the delete body only, and there under the fence of its pair. */
  lemma ReapErases(cfg: Config, pc: Pc, c: Choice)
    requires Reaping(pc) && ActOf(cfg, pc, c).AData?
    ensures var d := ActOf(cfg, pc, c).d;
            || (d.Erase? && pc.DBack? && d.id == pc.id && d.fence == FenceOf(pc.k))
            || d.Recheck? || d.Drop?
  {
  }

  lemma EraseTakes(records: map<Id, Rec>, id: Id, fence: Fence)
    ensures var after := EraseSpec(records, id, fence).0;
            && Shrinks(records, after)
            && forall other | other in records && other !in after ::
                 other == id && (fence.Exactly? ==> fence.gen == records[other].gen)
  {
  }

  /** A step of a reaping thread takes away nothing but the generation it is after. */
  lemma ReapTakesOnlyItsGeneration(cfg: Config, w: World, t: Tid, c: Choice)
    requires DataInv(w) && CanRun(cfg, w, t, c)
    requires KindOf(w.threads[t]).Some? && KindOf(w.threads[t]).value.1.Reap?
    ensures var (id, k) := KindOf(w.threads[t]).value;
            var after := Next(cfg, w, Label.Run(t, c)).data.records;
            && Shrinks(w.data.records, after)
            && forall other | other in w.data.records && other !in after ::
                 w.threads[t].DBack? && other == id && k.gen == Some(w.data.records[other].gen)
  {
    var pc := w.threads[t];
    var (id, k) := KindOf(pc).value;
    assert (id, k.gen) in Pairs(pc);
    assert IssuedPair(w.data, (id, k.gen));
    var a, o, pc' := OrdinaryStep(cfg, w, t, c);
    ApplyEffect(cfg, w, t, a);
    if a.AData? {
      ReapErases(cfg, pc, c);
      if a.d.Erase? {
        assert id == pc.id && k == pc.k && k.gen.Some?;
        EraseTakes(w.data.records, a.d.id, a.d.fence);
        assert Next(cfg, w, Label.Run(t, c)).data.records == EraseSpec(w.data.records, id, FenceOf(k)).0;
        assert FenceOf(k) == Exactly(k.gen.value);
      } else {
        assert Next(cfg, w, Label.Run(t, c)).data.records == w.data.records;
      }
    }
  }

  lemma ExpiredIsIdle(tr: Tracker, limit: int, id: Id, gen: Gen, now: Time)
    requires StillExpired(tr, limit, id, Some(gen), now)
    ensures IdleSince(tr, limit, id, gen, now)
  {
    var s := TimeoutOf(tr, limit, id);
    assert HasTimeout(tr, limit, id, s);
  }

  lemma ReapedAt(cfg: Config, labs: seq<Label>, i: nat, other: Id)
    requires Runs(cfg, labs) && i < |labs| && labs[i].Run? && labs[i].t in At(cfg, labs, i).threads
    requires var pc := At(cfg, labs, i).threads[labs[i].t]; KindOf(pc).Some? && KindOf(pc).value.1.Reap?
    requires other in At(cfg, labs, i).data.records && other !in At(cfg, labs, i + 1).data.records
    ensures var pc := At(cfg, labs, i).threads[labs[i].t];
            pc.DBack? && pc.k.Reap? && other == pc.id && pc.k.gen == Some(At(cfg, labs, i).data.records[other].gen)
  {
    RunInv(cfg, labs, i);
    StepAt(cfg, labs, i);
    ReapTakesOnlyItsGeneration(cfg, At(cfg, labs, i), labs[i].t, labs[i].c);
  }

  /**
   The reaper is fenced over all interleavings. If a step of a reaping thread removes a record, the thread was deleting
   exactly that sandbox and generation, and at an earlier recheck the pair was tracked and its last activity lay at least
   its timeout back, its own or else the global one; unless deletes of the sandbox had overlapped by then, nobody held a pin
   on it at that instant.
   */
  lemma ReaperFenced(cfg: Config, labs: seq<Label>, i: nat, other: Id) returns (j: nat)
    requires Runs(cfg, labs) && i < |labs| && labs[i].Run? && labs[i].t in At(cfg, labs, i).threads
    requires var pc := At(cfg, labs, i).threads[labs[i].t]; KindOf(pc).Some? && KindOf(pc).value.1.Reap?
    requires other in At(cfg, labs, i).data.records && other !in At(cfg, labs, i + 1).data.records
    ensures var pc := At(cfg, labs, i).threads[labs[i].t];
            && pc.DBack? && other == pc.id && pc.k.gen == Some(At(cfg, labs, i).data.records[other].gen)
            && j < i && RecheckedAt(cfg, labs, j, labs[i].t, pc.id, pc.k)
            && IdleSince(At(cfg, labs, j).data.tracker, cfg.limit, other, At(cfg, labs, i).data.records[other].gen,
                         labs[j].c.now)
            && ((forall h | 0 <= h <= j :: !Overlapping(At(cfg, labs, h), pc.id))
                ==> P.Held(At(cfg, labs, j).pins, pc.id) == 0)
  {
    ReapedAt(cfg, labs, i, other);
    var t := labs[i].t;
    var pc := At(cfg, labs, i).threads[t];
    j := RecheckedBefore(cfg, labs, i, t);
    ExpiredIsIdle(At(cfg, labs, j).data.tracker, cfg.limit, other, At(cfg, labs, i).data.records[other].gen, labs[j].c.now);
    if forall h | 0 <= h <= j :: !Overlapping(At(cfg, labs, h), pc.id) {
      DeleteExcludesPins(cfg, labs, j, pc.id, t);
    }
  }

  /**
   A resident sandbox is never reaped in a run in which `remember` and `touch` of a request are one step, whatever
   else happens: reuse, deletes and forgets, late touches of old generations, seeding.
   */
  lemma ResidentNeverReaped(cfg: Config, labs: seq<Label>, i: nat, id: Id)
    requires cfg.atomic && Runs(cfg, labs) && i < |labs| && labs[i].Run? && labs[i].t in At(cfg, labs, i).threads
    requires var pc := At(cfg, labs, i).threads[labs[i].t]; KindOf(pc).Some? && KindOf(pc).value.1.Reap?
    requires id in At(cfg, labs, i).data.records && NeverIdle(At(cfg, labs, i).data.records[id])
    ensures id in At(cfg, labs, i + 1).data.records
    ensures At(cfg, labs, i + 1).data.records[id] == At(cfg, labs, i).data.records[id]
  {
    RunInv(cfg, labs, i);
    StepAt(cfg, labs, i);
    var w := At(cfg, labs, i);
    var pc := w.threads[labs[i].t];
    ReapTakesOnlyItsGeneration(cfg, w, labs[i].t, labs[i].c);
    assert Issued(w.data, w.data.records[id]);
    assert !Condemns(pc, (id, Some(w.data.records[id].gen)));
  }

  /** In such runs whatever is tracked is tracked under its own policy. */
  lemma TrackedUnderOwnPolicy(cfg: Config, labs: seq<Label>, i: nat, id: Id)
    requires cfg.atomic && Runs(cfg, labs) && i <= |labs|
    requires id in At(cfg, labs, i).data.tracker.last && id in At(cfg, labs, i).data.records
    requires At(cfg, labs, i).data.tracker.last[id].0 == Some(At(cfg, labs, i).data.records[id].gen)
    ensures id in At(cfg, labs, i).data.tracker.timeouts
    ensures var r, policy := At(cfg, labs, i).data.records[id], At(cfg, labs, i).data.tracker.timeouts[id];
            policy == if r.idle.Some? then r.idle else if NeverIdle(r) then Some(0) else None
  {
    RunInv(cfg, labs, i);
    var d := At(cfg, labs, i).data;
    assert Issued(d, d.records[id]);
  }
}
