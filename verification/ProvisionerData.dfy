/** Records, generations and activity tracking in every reachable state. */
module ProvisionerData {
  import opened Prelude
  import opened SandboxRecords
  import opened IdleReaper
  import opened Provisioner
  import opened ProvisionerInvariants

  // ---------------------------------------------------------------------------------------------------
  // The store on its own
  // ---------------------------------------------------------------------------------------------------

  ghost predicate Issued(d: Data, r: Rec) {
    r.gen in d.issued && d.issued[r.gen] == r
  }

  ghost predicate IssuedPair(d: Data, p: (Id, Option<Gen>)) {
    p.1.Some? && p.1.value in d.issued && d.issued[p.1.value].id == p.0
  }

  /** Live records are issued under their own id, and only issued generations are tracked. */
  ghost predicate StoreRight(d: Data) {
    && (forall id | id in d.records :: d.records[id].id == id && Issued(d, d.records[id]))
    && (forall g | g in d.issued :: d.issued[g].gen == g)
    && (forall id | id in d.tracker.last :: IssuedPair(d, (id, d.tracker.last[id].0)))
  }

  /** Every tracked generation is tracked under its own policy. */
  ghost predicate PolicyRight(d: Data) {
    && d.tracker.last.Keys == d.tracker.timeouts.Keys
    && forall id | id in d.tracker.last ::
         && IssuedPair(d, (id, d.tracker.last[id].0))
         && d.tracker.timeouts[id] == RecordTimeout(d.issued[d.tracker.last[id].0.value])
  }

  function Elements<T>(s: seq<T>): set<T> {
    set x | x in s
  }

  /** The records and pairs that a critical section brings along. */
  function Brought(a: Act): set<Rec> {
    if !a.AData? then {} else
    match a.d
    case Note(r) => {r}
    case Stamp(r, _) => {r}
    case NoteAndStamp(r, _) => {r}
    case Seed(recs, _) => Elements(recs)
    case _ => {}
  }

  /** The records it hands out. */
  function Shown(a: Act, o: Out): set<Rec> {
    (if a.AData? && a.d.ListAll? then Elements(a.d.recs) else {})
    + (if o.rec.Some? then {o.rec.value} else {})
  }

  function Found(a: Act): set<(Id, Option<Gen>)> {
    if a.AData? && a.d.Collect? then Elements(a.d.found) else {}
  }

  lemma {:induction false} SeedRight(d: Data, recs: seq<Rec>, now: Time)
    requires StoreRight(d) && forall r | r in recs :: Issued(d, r)
    ensures StoreRight(d.(tracker := SeedSpec(d.tracker, recs, now)))
    ensures PolicyRight(d) ==> PolicyRight(d.(tracker := SeedSpec(d.tracker, recs, now)))
  {
    if recs != [] {
      SeedRight(d, recs[..|recs| - 1], now);
      assert recs[|recs| - 1] in recs;
    }
  }

  /** A critical section keeps the store right and forgets no generation. */
  lemma StoreKept(cfg: Config, d: Data, a: DataAct)
    requires StoreRight(d) && Fitting(cfg, d, a)
    requires forall r | r in Brought(AData(a)) :: Issued(d, r)
    ensures StoreRight(ApplyData(cfg, d, a).0)
    ensures forall g | g in d.issued :: g in ApplyData(cfg, d, a).0.issued && ApplyData(cfg, d, a).0.issued[g] == d.issued[g]
  {
    match a
    case Seed(recs, now) => SeedRight(d, recs, now);
    case Note(r) => assert r in Brought(AData(a));
    case Stamp(r, _) => assert r in Brought(AData(a));
    case NoteAndStamp(r, _) => assert r in Brought(AData(a));
    case _ =>
  }

  /** What a critical section hands out has been issued. */
  lemma ShownIssued(cfg: Config, d: Data, a: DataAct)
    requires StoreRight(d) && Fitting(cfg, d, a)
    ensures var (d', o) := ApplyData(cfg, d, a);
            && (forall r | r in Shown(AData(a), o) :: Issued(d', r))
            && (forall p | p in Found(AData(a)) :: IssuedPair(d', p))
  {
  }

  /** Tracking policies stay right unless `remember` and `touch` come one at a time. */
  lemma PolicyKept(cfg: Config, d: Data, a: DataAct)
    requires StoreRight(d) && PolicyRight(d) && Fitting(cfg, d, a)
    requires forall r | r in Brought(AData(a)) :: Issued(d, r)
    requires !a.Note? && !a.Stamp?
    ensures PolicyRight(ApplyData(cfg, d, a).0)
  {
    match a
    case Seed(recs, now) => SeedRight(d, recs, now);
    case NoteAndStamp(r, _) => assert r in Brought(AData(a));
    case _ =>
  }

  // ---------------------------------------------------------------------------------------------------
  // What the threads carry
  // ---------------------------------------------------------------------------------------------------

  function Opt(r: Option<Rec>): set<Rec> {
    if r.Some? then {r.value} else {}
  }

  function KindOf(pc: Pc): Option<(Id, Kind)> {
    match pc
    case DBegin(id, k) => Some((id, k))
    case DWait(id, k) => Some((id, k))
    case RCheck(id, k) => Some((id, k))
    case DBack(id, k, _) => Some((id, k))
    case RForget(id, k) => Some((id, k))
    case DEnd(id, k, _) => Some((id, k))
    case DForget(id, k) => Some((id, k))
    case _ => None
  }

  /** The records in the local variables of a thread. */
  function Knows(pc: Pc): set<Rec> {
    match pc
    case CBack(_, m) => if m.MUnlock? then Opt(m.made) else {}
    case CUnpin(_, made) => Opt(made)
    case CUngate(made) => Opt(made)
    case Remember(r) => {r}
    case Touch(r) => {r}
    case RdRemember(_, r) => {r}
    case RdTouch(_, r) => {r}
    case RSeed(recs) => Elements(recs)
    case QSpawn(recs, _) => Elements(recs)
    case QJobs(recs, _) => Elements(recs)
    case JQueued(_, r) => {r}
    case JDone(r, _) => {r}
    case _ => if KindOf(pc).Some? && KindOf(pc).value.1.Job? then {KindOf(pc).value.1.r} else {}
  }

  /** The pairs the reaper still has to look at. */
  function Pairs(pc: Pc): set<(Id, Option<Gen>)> {
    if KindOf(pc).Some? && KindOf(pc).value.1.Reap?
    then {(KindOf(pc).value.0, KindOf(pc).value.1.gen)} + Elements(KindOf(pc).value.1.rest)
    else {}
  }

  /** Past the recheck: the pair the reaper is going to delete. */
  predicate Condemns(pc: Pc, p: (Id, Option<Gen>)) {
    (pc.DBack? || pc.RForget?) && pc.k.Reap? && p == (pc.id, pc.k.gen)
  }

  lemma KnowsAfter(cfg: Config, pc: Pc, c: Choice, o: Out)
    requires !Queueing(pc)
    ensures Knows(After(cfg, pc, c, o)) <= Knows(pc) + Shown(ActOf(cfg, pc, c), o)
  {
    if KindOf(pc).Some? {
      KnowsAfterDelete(cfg, pc, c, o);
    } else if pc.CBack? {
      KnowsAfterCreate(cfg, pc, c, o);
    } else {
      KnowsAfterOther(cfg, pc, c, o);
    }
  }

  lemma KnowsAfterDelete(cfg: Config, pc: Pc, c: Choice, o: Out)
    requires KindOf(pc).Some?
    ensures Knows(After(cfg, pc, c, o)) <= Knows(pc) + Shown(ActOf(cfg, pc, c), o)
  {
  }

  lemma KnowsAfterCreate(cfg: Config, pc: Pc, c: Choice, o: Out)
    requires pc.CBack?
    ensures Knows(After(cfg, pc, c, o)) <= Knows(pc) + Shown(ActOf(cfg, pc, c), o)
  {
  }

  lemma KnowsAfterRead(cfg: Config, pc: Pc, c: Choice, o: Out)
    requires pc.RdDiscover? || pc.RdStale?
    ensures Knows(After(cfg, pc, c, o)) <= Shown(ActOf(cfg, pc, c), o)
  {
  }

  lemma KnowsAfterOther(cfg: Config, pc: Pc, c: Choice, o: Out)
    requires !Queueing(pc) && KindOf(pc).None? && !pc.CBack?
    ensures Knows(After(cfg, pc, c, o)) <= Knows(pc) + Shown(ActOf(cfg, pc, c), o)
  {
    if pc.RdDiscover? || pc.RdStale? {
      KnowsAfterRead(cfg, pc, c, o);
    } else if pc.RSeedList? || pc.QList? || pc.RIdle? {
      KnowsAfterList(cfg, pc, c, o);
    } else {
      KnowsAfterStep(cfg, pc, c, o);
    }
  }

  lemma KnowsAfterList(cfg: Config, pc: Pc, c: Choice, o: Out)
    requires pc.RSeedList? || pc.QList? || pc.RIdle?
    ensures Knows(After(cfg, pc, c, o)) <= Shown(ActOf(cfg, pc, c), o)
  {
  }

  lemma KnowsAfterStep(cfg: Config, pc: Pc, c: Choice, o: Out)
    requires !Queueing(pc) && KindOf(pc).None? && !pc.CBack?
    requires !pc.RdDiscover? && !pc.RdStale? && !pc.RSeedList? && !pc.QList? && !pc.RIdle?
    ensures Knows(After(cfg, pc, c, o)) <= Knows(pc)
  {
  }

  lemma BringsKnown(cfg: Config, pc: Pc, c: Choice)
    requires !Queueing(pc)
    ensures Brought(ActOf(cfg, pc, c)) <= Knows(pc)
  {
  }

  lemma NextReapPairs(rest: seq<(Id, Option<Gen>)>)
    ensures Pairs(NextReap(rest)) <= Elements(rest)
  {
    if rest != [] {
      assert rest[0] in rest && rest[0] == (rest[0].0, rest[0].1);
      assert forall p | p in rest[1..] :: p in rest;
    }
  }

  lemma PairsAfterDelete(cfg: Config, pc: Pc, c: Choice, o: Out)
    requires KindOf(pc).Some?
    ensures Pairs(After(cfg, pc, c, o)) <= Pairs(pc)
  {
    if pc.DEnd? && pc.k.Reap? {
      NextReapPairs(pc.k.rest);
    }
  }

  lemma PairsAfterOther(cfg: Config, pc: Pc, c: Choice, o: Out)
    requires !Queueing(pc) && KindOf(pc).None? && !pc.RIdle?
    ensures Pairs(After(cfg, pc, c, o)) == {}
  {
  }

  lemma PairsAfter(cfg: Config, pc: Pc, c: Choice, o: Out)
    requires !Queueing(pc)
    ensures Pairs(After(cfg, pc, c, o)) <= Pairs(pc) + Found(ActOf(cfg, pc, c))
  {
    if pc.RIdle? {
      NextReapPairs(c.found);
    } else if KindOf(pc).Some? {
      PairsAfterDelete(cfg, pc, c, o);
    } else {
      PairsAfterOther(cfg, pc, c, o);
    }
  }

  ghost predicate Carried(d: Data, threads: map<Tid, Pc>) {
    && (forall t, r | t in threads && r in Knows(threads[t]) :: Issued(d, r))
    && (forall t, p | t in threads && p in Pairs(threads[t]) :: IssuedPair(d, p))
  }

  ghost predicate DataInv(w: World) {
    StoreRight(w.data) && Carried(w.data, w.threads)
  }

  /** With `remember` and `touch` as one step: policies are right, and no resident generation is condemned. */
  ghost predicate PolicyInv(w: World) {
    PolicyRight(w.data) && forall t | t in w.threads :: Fair(w.data, w.threads[t])
  }

  /** The thread is not between `remember` and `touch`, and what it condemns has been issued and is not resident. */
  ghost predicate Fair(d: Data, pc: Pc) {
    && !pc.Touch? && !pc.RdTouch?
    && (forall p | Condemns(pc, p) :: IssuedPair(d, p) && RecordTimeout(d.issued[p.1.value]) != Some(0))
  }

  lemma FairStays(d: Data, d': Data, pc: Pc)
    requires Fair(d, pc) && forall g | g in d.issued :: g in d'.issued && d'.issued[g] == d.issued[g]
    ensures Fair(d', pc)
  {
    forall p | Condemns(pc, p) ensures IssuedPair(d', p) && RecordTimeout(d'.issued[p.1.value]) != Some(0) {
      assert IssuedPair(d, p);
    }
  }

  lemma CarriedPut(d: Data, d': Data, threads: map<Tid, Pc>, t: Tid, pc: Pc)
    requires Carried(d, threads)
    requires forall g | g in d.issued :: g in d'.issued && d'.issued[g] == d.issued[g]
    requires forall r | r in Knows(pc) :: Issued(d', r)
    requires forall p | p in Pairs(pc) :: IssuedPair(d', p)
    ensures Carried(d', threads[t := pc])
  {
    var threads' := threads[t := pc];
    forall u, r | u in threads' && r in Knows(threads'[u]) ensures Issued(d', r) {
      if u != t {
        assert u in threads && r in Knows(threads[u]);
        assert Issued(d, r);
      }
    }
    forall u, p | u in threads' && p in Pairs(threads'[u]) ensures IssuedPair(d', p) {
      if u != t {
        assert u in threads && p in Pairs(threads[u]);
        assert IssuedPair(d, p);
      }
    }
  }

  lemma SpawnKnows(w: World, t: Tid, c: Choice)
    requires t in w.threads && w.threads[t].QSpawn?
    ensures Knows(StepQueue(w, t, c).threads[t]) <= Knows(w.threads[t]) && Pairs(StepQueue(w, t, c).threads[t]) == {}
  {
  }

  lemma JobsKnow(w: World, t: Tid, c: Choice)
    requires t in w.threads && w.threads[t].QJobs?
    ensures Knows(StepQueue(w, t, c).threads[t]) <= Knows(w.threads[t]) && Pairs(StepQueue(w, t, c).threads[t]) == {}
  {
  }

  lemma QueuedKnows(w: World, t: Tid, c: Choice)
    requires t in w.threads && w.threads[t].JQueued?
    ensures Knows(StepQueue(w, t, c).threads[t]) <= Knows(w.threads[t]) && Pairs(StepQueue(w, t, c).threads[t]) == {}
  {
  }

  lemma QueueKnows(w: World, t: Tid, c: Choice)
    requires t in w.threads && Queueing(w.threads[t])
    ensures Knows(StepQueue(w, t, c).threads[t]) <= Knows(w.threads[t]) && Pairs(StepQueue(w, t, c).threads[t]) == {}
  {
    if w.threads[t].QSpawn? {
      SpawnKnows(w, t, c);
    } else if w.threads[t].QJobs? {
      JobsKnow(w, t, c);
    } else {
      QueuedKnows(w, t, c);
    }
  }

  lemma DataOrdinary(cfg: Config, w: World, t: Tid, c: Choice)
    requires Ordinary(cfg, w, t, c) && DataInv(w)
    ensures DataInv(Next(cfg, w, Run(t, c)))
  {
    var pc := w.threads[t];
    var a, o, pc' := OrdinaryStep(cfg, w, t, c);
    ApplyEffect(cfg, w, t, a);
    KnowsAfter(cfg, pc, c, o);
    BringsKnown(cfg, pc, c);
    PairsAfter(cfg, pc, c, o);
    DataMove(cfg, w, t, a, o, Apply(cfg, w, t, a).0.data, pc');
  }

  lemma DataMove(cfg: Config, w: World, t: Tid, a: Act, o: Out, d': Data, pc': Pc)
    requires DataInv(w) && t in w.threads
    requires if a.AData? then Fitting(cfg, w.data, a.d) && (d', o) == ApplyData(cfg, w.data, a.d)
             else d' == w.data && (Shown(a, o) != {} ==> o.rec.None?)
    requires Brought(a) <= Knows(w.threads[t]) && Knows(pc') <= Knows(w.threads[t]) + Shown(a, o)
    requires Pairs(pc') <= Pairs(w.threads[t]) + Found(a)
    ensures StoreRight(d') && Carried(d', w.threads[t := pc'])
  {
    if a.AData? {
      StoreKept(cfg, w.data, a.d);
      ShownIssued(cfg, w.data, a.d);
    }
    forall r | r in Knows(pc') ensures Issued(d', r) {
      if r in Knows(w.threads[t]) {
        assert Issued(w.data, r);
      }
    }
    forall p | p in Pairs(pc') ensures IssuedPair(d', p) {
      if p in Pairs(w.threads[t]) {
        assert IssuedPair(w.data, p);
      }
    }
    CarriedPut(w.data, d', w.threads, t, pc');
  }

  lemma DataQueue(cfg: Config, w: World, t: Tid, c: Choice)
    requires CanRun(cfg, w, t, c) && Queueing(w.threads[t]) && DataInv(w)
    ensures DataInv(StepQueue(w, t, c))
  {
    var pc, pc' := w.threads[t], StepQueue(w, t, c).threads[t];
    QueueKnows(w, t, c);
    if Submits(pc, c) {
      QueueSubmit(cfg, w, t, c);
      JobKnows(t, pc);
      CarriedLess(w.data, w.threads, t, c.tid, JobOf(t, pc));
      CarriedLess(w.data, w.threads[c.tid := JobOf(t, pc)], t, t, pc');
    } else {
      QueueMove(w, t, c);
      CarriedLess(w.data, w.threads, t, t, pc');
    }
  }

  lemma JobKnows(t: Tid, pc: Pc)
    requires pc.QSpawn? && |pc.jobs| < |pc.recs|
    ensures Knows(JobOf(t, pc)) <= Knows(pc) && Pairs(JobOf(t, pc)) == {}
  {
    assert pc.recs[|pc.jobs|] in Knows(pc);
  }

  /** A thread that takes over nothing but what another carries. */
  lemma CarriedLess(d: Data, threads: map<Tid, Pc>, t: Tid, u: Tid, pc: Pc)
    requires Carried(d, threads) && t in threads && Knows(pc) <= Knows(threads[t]) && Pairs(pc) == {}
    ensures Carried(d, threads[u := pc])
  {
    CarriedPut(d, d, threads, u, pc);
  }

  lemma DataKept(cfg: Config, w: World, lab: Label)
    requires Can(cfg, w, lab) && DataInv(w)
    ensures DataInv(Next(cfg, w, lab))
  {
    match lab
    case Run(t, c) =>
      if Queueing(w.threads[t]) {
        DataQueue(cfg, w, t, c);
      } else {
        DataOrdinary(cfg, w, t, c);
      }
    case Spawn(t, pc) => CarriedPut(w.data, w.data, w.threads, t, pc);
    case Reclaim(_) =>
  }

  // ---------------------------------------------------------------------------------------------------
  // Policies when `remember` and `touch` are one step
  // ---------------------------------------------------------------------------------------------------

  lemma CondemnsAfter(cfg: Config, pc: Pc, c: Choice, o: Out, p: (Id, Option<Gen>))
    requires !Queueing(pc) && Condemns(After(cfg, pc, c, o), p)
    ensures Condemns(pc, p)
         || (pc.RCheck? && pc.k.Reap? && p == (pc.id, pc.k.gen) && o.ok
             && ActOf(cfg, pc, c) == AData(Recheck(pc.id, pc.k.gen, c.now)))
  {
  }

  lemma AtomicActs(cfg: Config, pc: Pc, c: Choice, o: Out)
    requires cfg.atomic && !Queueing(pc) && !pc.Touch? && !pc.RdTouch?
    ensures !After(cfg, pc, c, o).Touch? && !After(cfg, pc, c, o).RdTouch?
    ensures ActOf(cfg, pc, c).AData? ==> !ActOf(cfg, pc, c).d.Note? && !ActOf(cfg, pc, c).d.Stamp?
  {
  }

  lemma QueueFair(d: Data, w: World, t: Tid, c: Choice, u: Tid)
    requires t in w.threads && Queueing(w.threads[t])
    requires u in StepQueue(w, t, c).threads && (u !in w.threads || u == t)
    ensures Fair(d, StepQueue(w, t, c).threads[u])
  {
  }

  lemma DataOf(cfg: Config, w: World, t: Tid, a: Act)
    requires StoreRight(w.data) && PolicyRight(w.data) && Ready(cfg, w, t, a)
    requires forall r | r in Brought(a) :: Issued(w.data, r)
    requires a.AData? ==> !a.d.Note? && !a.d.Stamp?
    ensures var d' := Apply(cfg, w, t, a).0.data;
            && PolicyRight(d')
            && forall g | g in w.data.issued :: g in d'.issued && d'.issued[g] == w.data.issued[g]
  {
    ApplyEffect(cfg, w, t, a);
    if a.AData? {
      StoreKept(cfg, w.data, a.d);
      PolicyKept(cfg, w.data, a.d);
    }
  }

  lemma FairAfter(cfg: Config, d: Data, pc: Pc, c: Choice, o: Out)
    requires cfg.atomic && !Queueing(pc) && Fair(d, pc) && PolicyRight(d)
    requires forall p | p in Pairs(pc) :: IssuedPair(d, p)
    requires pc.RCheck? && ActOf(cfg, pc, c).AData? ==> o == ApplyData(cfg, d, ActOf(cfg, pc, c).d).1
    ensures Fair(d, After(cfg, pc, c, o))
  {
    AtomicActs(cfg, pc, c, o);
    var pc' := After(cfg, pc, c, o);
    forall p | Condemns(pc', p) ensures IssuedPair(d, p) && RecordTimeout(d.issued[p.1.value]) != Some(0) {
      CondemnsAfter(cfg, pc, c, o, p);
    }
  }

  lemma PolicyOrdinary(cfg: Config, w: World, t: Tid, c: Choice)
    requires cfg.atomic
    requires Ordinary(cfg, w, t, c) && DataInv(w) && PolicyInv(w)
    ensures PolicyInv(Next(cfg, w, Run(t, c)))
  {
    var a, o, pc' := OrdinaryStep(cfg, w, t, c);
    var d' := Apply(cfg, w, t, a).0.data;
    BringsKnown(cfg, w.threads[t], c);
    AtomicActs(cfg, w.threads[t], c, o);
    ApplyEffect(cfg, w, t, a);
    DataOf(cfg, w, t, a);
    FairAfter(cfg, w.data, w.threads[t], c, o);
    var threads' := w.threads[t := pc'];
    forall u | u in threads' ensures Fair(d', threads'[u]) {
      FairStays(w.data, d', threads'[u]);
    }
  }

  lemma PolicyQueue(cfg: Config, w: World, t: Tid, c: Choice)
    requires CanRun(cfg, w, t, c) && Queueing(w.threads[t]) && PolicyInv(w)
    ensures PolicyInv(StepQueue(w, t, c))
  {
    var w' := StepQueue(w, t, c);
    if Submits(w.threads[t], c) {
      QueueSubmit(cfg, w, t, c);
    } else {
      QueueMove(w, t, c);
    }
    var threads' := w'.threads;
    forall u | u in threads' ensures Fair(w'.data, threads'[u]) {
      if u !in w.threads || u == t {
        QueueFair(w'.data, w, t, c, u);
      }
    }
  }

  /** In the one-step variant the policy invariant survives every step. */
  lemma PolicyInvKept(cfg: Config, w: World, lab: Label)
    requires cfg.atomic && Can(cfg, w, lab) && DataInv(w) && PolicyInv(w)
    ensures PolicyInv(Next(cfg, w, lab))
  {
    match lab
    case Run(t, c) =>
      if Queueing(w.threads[t]) {
        PolicyQueue(cfg, w, t, c);
      } else {
        PolicyOrdinary(cfg, w, t, c);
      }
    case Spawn(t, pc) => assert Fair(w.data, pc);
    case Reclaim(_) =>
  }
}
