/** Quiescence: from the moment a `begin` has returned the inventory only shrinks, and one round empties it. */
module ProvisionerQuiesce {
  import opened Prelude
  import opened SandboxRecords
  import opened IdleReaper
  import opened Provisioner
  import opened ProvisionerInvariants
  import opened ProvisionerData
  import P = OperationPins
  import G = QuiescenceGate

  ghost predicate Shrinks(before: map<Id, Rec>, after: map<Id, Rec>) {
    forall id | id in after :: id in before && after[id] == before[id]
  }

  /** Only a create that passed the gate makes a record. */
  lemma MakesAreCreates(cfg: Config, pc: Pc, c: Choice)
    requires ActOf(cfg, pc, c).AData? && ActOf(cfg, pc, c).d.Make?
    ensures GateRole(pc) == G.InCreate
  {
  }

  lemma QuietShrinks(cfg: Config, w: World, lab: Label)
    requires Can(cfg, w, lab) && G.Inv(GateView(w)) && G.Quiet(GateView(w))
    ensures Shrinks(w.data.records, Next(cfg, w, lab).data.records)
  {
    if lab.Run? && !Queueing(w.threads[lab.t]) {
      var a := ActOf(cfg, w.threads[lab.t], lab.c);
      if a.AData? && a.d.Make? {
        MakesAreCreates(cfg, w.threads[lab.t], lab.c);
        PlayerCounts(GateView(w).roles, lab.t);
        assert false;
      }
    }
  }

  // ---------------------------------------------------------------------------------------------------
  // What a quiesce request and its jobs know
  // ---------------------------------------------------------------------------------------------------

  predicate IsJob(pc: Pc) {
    pc.JQueued? || pc.JDone? || (KindOf(pc).Some? && KindOf(pc).value.1.Job?)
  }

  function JobRec(pc: Pc): Rec
    requires IsJob(pc)
  {
    if pc.JQueued? || pc.JDone? then pc.r else KindOf(pc).value.1.r
  }

  /** The result of the backend call, as far as it is known. */
  function Verdict(pc: Pc): Option<DelRes> {
    match pc
    case DBack(_, _, e) => if e.EFree? || e.EUnlock? then Some(e.res) else None
    case DEnd(_, _, res) => Some(res)
    case DForget(_, _) => Some(Deleted)
    case JDone(_, res) => Some(res)
    case _ => None
  }

  predicate Quieting(pc: Pc) {
    GateRole(pc) == G.Began || IsJob(pc)
  }

  /** A listed record is still the live one or is gone for good. */
  predicate LiveOrGone(records: map<Id, Rec>, r: Rec) {
    r.id in records ==> records[r.id] == r
  }

  ghost predicate Facts(records: map<Id, Rec>, pc: Pc) {
    && (pc.QSpawn? || pc.QJobs? ==>
          && (forall r | r in pc.recs :: LiveOrGone(records, r))
          && (forall id | id in records :: records[id] in pc.recs))
    && (IsJob(pc) ==>
          && !pc.RCheck? && !pc.RForget?
          && LiveOrGone(records, JobRec(pc))
          && (KindOf(pc).Some? ==> KindOf(pc).value.0 == JobRec(pc).id)
          && Verdict(pc) != Some(Mismatch) && (KindOf(pc).Some? ==> Verdict(pc) != Some(Cancelled))
          && (Verdict(pc) == Some(Deleted) ==> JobRec(pc).id !in records))
    && (pc.QOk? ==> records == map[])
  }

  lemma FactsShrink(before: map<Id, Rec>, after: map<Id, Rec>, pc: Pc)
    requires Facts(before, pc) && Shrinks(before, after)
    ensures Facts(after, pc)
  {
  }

  /** What belongs to the job that was submitted for record `r` of the round of `owner`. */
  predicate JobFor(pc: Pc, owner: Tid, r: Rec) {
    || pc == JQueued(owner, r)
    || (KindOf(pc).Some? && KindOf(pc).value.1 == Job(owner, r))
    || (pc.JDone? && pc.r == r && pc.res != Cancelled)
  }

  ghost predicate RoundRight(threads: map<Tid, Pc>, t: Tid)
    requires t in threads
  {
    var pc := threads[t];
    pc.QSpawn? || pc.QJobs? ==>
      && |pc.jobs| <= |pc.recs|
      && (pc.QJobs? ==> |pc.jobs| == |pc.recs|)
      && forall i | 0 <= i < |pc.jobs| :: pc.jobs[i] in threads && JobFor(threads[pc.jobs[i]], t, pc.recs[i])
  }

  ghost predicate QuietInv(w: World) {
    && (forall t | t in w.threads && Quieting(w.threads[t]) :: G.Quiet(GateView(w)))
    && (forall t | t in w.threads :: Facts(w.data.records, w.threads[t]))
  }

  ghost predicate RoundsRight(threads: map<Tid, Pc>) {
    forall t | t in threads :: RoundRight(threads, t)
  }

  ghost predicate RoundsInv(w: World) {
    RoundsRight(w.threads)
  }

  // ---------------------------------------------------------------------------------------------------
  // Preservation
  // ---------------------------------------------------------------------------------------------------

  lemma QuietingAfter(cfg: Config, pc: Pc, c: Choice, o: Out)
    requires !Queueing(pc) && !Finished(pc)
    ensures Quieting(After(cfg, pc, c, o)) ==>
              || Quieting(pc)
              || (o.ok && (ActOf(cfg, pc, c) == AGate(G.Begin) || ActOf(cfg, pc, c) == AGate(G.Recheck)))
  {
  }

  /** Only a listing starts a round or answers ok. */
  lemma NoNewRound(cfg: Config, pc: Pc, c: Choice, o: Out)
    requires !Queueing(pc) && !Finished(pc) && !IsJob(pc) && !pc.QList?
    ensures var pc' := After(cfg, pc, c, o); !IsJob(pc') && !pc'.QSpawn? && !pc'.QJobs? && !pc'.QOk?
  {
  }

  lemma FactsOfListing(cfg: Config, d: Data, pc: Pc, c: Choice, o: Out)
    requires pc.QList? && Listing(d.records, c.recs)
    ensures ActOf(cfg, pc, c) == AData(ListAll(c.recs)) && ApplyData(cfg, d, ListAll(c.recs)).0 == d
    ensures Facts(d.records, After(cfg, pc, c, o))
  {
  }

  lemma FactsOfRound(cfg: Config, d: Data, pc: Pc, c: Choice, o: Out)
    requires !Queueing(pc) && !Finished(pc) && !IsJob(pc)
    requires ActOf(cfg, pc, c).AData? ==> Fitting(cfg, d, ActOf(cfg, pc, c).d)
    ensures Facts(if ActOf(cfg, pc, c).AData? then ApplyData(cfg, d, ActOf(cfg, pc, c).d).0.records else d.records,
                  After(cfg, pc, c, o))
  {
    if pc.QList? {
      FactsOfListing(cfg, d, pc, c, o);
    } else {
      NoNewRound(cfg, pc, c, o);
    }
  }

  lemma FactsOfJob(cfg: Config, d: Data, pc: Pc, c: Choice, o: Out)
    requires KindOf(pc).Some? && IsJob(pc) && Facts(d.records, pc)
    requires ActOf(cfg, pc, c).AData? ==> o == ApplyData(cfg, d, ActOf(cfg, pc, c).d).1
    requires ActOf(cfg, pc, c).ALock? && ActOf(cfg, pc, c).k.Lookup? ==> o.lock.Some?
    ensures Facts(if ActOf(cfg, pc, c).AData? then ApplyData(cfg, d, ActOf(cfg, pc, c).d).0.records else d.records,
                  After(cfg, pc, c, o))
  {
  }

  /** While somebody quiesces the inventory only shrinks. */
  lemma FactsOfOthers(cfg: Config, w: World, lab: Label, pc: Pc)
    requires Can(cfg, w, lab) && G.Inv(GateView(w)) && Facts(w.data.records, pc)
    requires Quieting(pc) ==> G.Quiet(GateView(w))
    ensures Facts(Next(cfg, w, lab).data.records, pc)
  {
    if Quieting(pc) {
      QuietShrinks(cfg, w, lab);
      FactsShrink(w.data.records, Next(cfg, w, lab).data.records, pc);
    } else {
      FactsOfOutsider(Next(cfg, w, lab).data.records, pc);
    }
  }

  /** The thread that moved. */
  lemma FactsOfMover(cfg: Config, w: World, t: Tid, c: Choice)
    requires Ordinary(cfg, w, t, c) && Facts(w.data.records, w.threads[t])
    ensures Next(cfg, w, Run(t, c)).threads.Keys == w.threads.Keys
    ensures forall u | u in w.threads && u != t :: Next(cfg, w, Run(t, c)).threads[u] == w.threads[u]
    ensures Facts(Next(cfg, w, Run(t, c)).data.records, Next(cfg, w, Run(t, c)).threads[t])
  {
    var a, o, pc' := OrdinaryStep(cfg, w, t, c);
    ApplyEffect(cfg, w, t, a);
    if IsJob(w.threads[t]) {
      FactsOfJob(cfg, w.data, w.threads[t], c, o);
    } else {
      FactsOfRound(cfg, w.data, w.threads[t], c, o);
    }
  }

  /** Who starts to quiesce has passed the gate. */
  lemma QuietingMoves(cfg: Config, w: World, t: Tid, c: Choice)
    requires Ordinary(cfg, w, t, c) && G.Inv(GateView(w)) && QuietInv(w)
    ensures var w' := Next(cfg, w, Run(t, c));
            && (Quieting(w'.threads[t]) ==> G.Quiet(GateView(w')))
            && (G.Quiet(GateView(w)) ==> G.Quiet(GateView(w')))
  {
    var w' := Next(cfg, w, Run(t, c));
    var a, o, pc' := OrdinaryStep(cfg, w, t, c);
    ApplyEffect(cfg, w, t, a);
    GateOrdinary(cfg, w, t, c);
    QuietingAfter(cfg, w.threads[t], c, o);
    if Quieting(w.threads[t]) {
      assert G.Quiet(GateView(w));
    } else if Quieting(pc') {
      GateConformance(cfg, w.threads[t], c, o);
      PassedGate(GateView(w), t, a.g, w'.gate);
    }
  }

  lemma PassedGate(s: G.State, t: Tid, g: G.Act, gate: G.Gate)
    requires G.Inv(s) && t in s.roles && G.Enabled(s.roles[t], g) && (g.Begin? || g.Recheck?)
    requires (gate, true) == G.Apply(s.gate, t, g)
    ensures gate.started && gate.creates == 0
  {
  }

  lemma QuietOrdinary(cfg: Config, w: World, t: Tid, c: Choice)
    requires Ordinary(cfg, w, t, c) && G.Inv(GateView(w)) && QuietInv(w)
    ensures QuietInv(Next(cfg, w, Run(t, c)))
  {
    var w' := Next(cfg, w, Run(t, c));
    FactsOfMover(cfg, w, t, c);
    QuietingMoves(cfg, w, t, c);
    forall u | u in w'.threads ensures Facts(w'.data.records, w'.threads[u]) {
      if u != t {
        FactsOfOthers(cfg, w, Run(t, c), w.threads[u]);
      }
    }
  }

  lemma FactsOfOutsider(records: map<Id, Rec>, pc: Pc)
    requires !Quieting(pc)
    ensures Facts(records, pc)
  {
  }

  /** A thread that appears or moves on may start to quiesce only when the gate is quiet already. */
  lemma QuietPut(w: World, t: Tid, pc: Pc)
    requires G.Inv(GateView(w)) && QuietInv(w) && Harmless(w, t, pc) && Facts(w.data.records, pc)
    requires Quieting(pc) ==> G.Quiet(GateView(w))
    ensures G.Inv(GateView(Put(w, t, pc))) && QuietInv(Put(w, t, pc))
    ensures G.Quiet(GateView(w)) ==> G.Quiet(GateView(Put(w, t, pc)))
  {
    GatePut(w, t, pc);
  }

  lemma SpawnFacts(w: World, t: Tid, c: Choice)
    requires t in w.threads && w.threads[t].QSpawn? && Facts(w.data.records, w.threads[t])
    ensures Facts(w.data.records, StepQueue(w, t, c).threads[t])
    ensures Submits(w.threads[t], c) ==> Facts(w.data.records, JobOf(t, w.threads[t]))
  {
  }

  lemma JobsFacts(w: World, t: Tid, c: Choice)
    requires t in w.threads && w.threads[t].QJobs?
    ensures Facts(w.data.records, StepQueue(w, t, c).threads[t])
  {
  }

  lemma QueuedFacts(w: World, t: Tid, c: Choice)
    requires t in w.threads && w.threads[t].JQueued? && Facts(w.data.records, w.threads[t])
    ensures Facts(w.data.records, StepQueue(w, t, c).threads[t])
  {
  }

  lemma QueueFacts(w: World, t: Tid, c: Choice)
    requires t in w.threads && Queueing(w.threads[t]) && Facts(w.data.records, w.threads[t])
    ensures Facts(w.data.records, StepQueue(w, t, c).threads[t])
    ensures Submits(w.threads[t], c) ==> Facts(w.data.records, JobOf(t, w.threads[t]))
  {
    if w.threads[t].QSpawn? {
      SpawnFacts(w, t, c);
    } else if w.threads[t].QJobs? {
      JobsFacts(w, t, c);
    } else {
      QueuedFacts(w, t, c);
    }
  }

  lemma QuietSubmit(cfg: Config, w: World, t: Tid, c: Choice)
    requires CanRun(cfg, w, t, c) && Queueing(w.threads[t]) && Submits(w.threads[t], c)
    requires G.Inv(GateView(w)) && QuietInv(w) && G.Quiet(GateView(w))
    ensures QuietInv(StepQueue(w, t, c))
  {
    QueueFacts(w, t, c);
    QueueSubmit(cfg, w, t, c);
    QuietPut(w, c.tid, JobOf(t, w.threads[t]));
    QuietPut(Put(w, c.tid, JobOf(t, w.threads[t])), t, StepQueue(w, t, c).threads[t]);
  }

  lemma QuietMove(w: World, t: Tid, c: Choice)
    requires t in w.threads && Queueing(w.threads[t]) && !Submits(w.threads[t], c)
    requires G.Inv(GateView(w)) && QuietInv(w) && G.Quiet(GateView(w))
    ensures QuietInv(StepQueue(w, t, c))
  {
    QueueFacts(w, t, c);
    QueueMove(w, t, c);
    QuietPut(w, t, StepQueue(w, t, c).threads[t]);
  }

  lemma QuietQueue(cfg: Config, w: World, t: Tid, c: Choice)
    requires CanRun(cfg, w, t, c) && Queueing(w.threads[t]) && G.Inv(GateView(w)) && QuietInv(w)
    ensures QuietInv(StepQueue(w, t, c))
  {
    assert Quieting(w.threads[t]) && G.Quiet(GateView(w));
    if Submits(w.threads[t], c) {
      QuietSubmit(cfg, w, t, c);
    } else {
      QuietMove(w, t, c);
    }
  }

  lemma QuietInvKept(cfg: Config, w: World, lab: Label)
    requires Can(cfg, w, lab) && G.Inv(GateView(w)) && QuietInv(w)
    ensures QuietInv(Next(cfg, w, lab))
  {
    match lab
    case Run(t, c) =>
      if Queueing(w.threads[t]) {
        QuietQueue(cfg, w, t, c);
      } else {
        QuietOrdinary(cfg, w, t, c);
      }
    case Spawn(t, pc) => QuietPut(w, t, pc);
    case Reclaim(_) => assert GateView(Next(cfg, w, lab)) == GateView(w);
  }

  // ---------------------------------------------------------------------------------------------------
  // Rounds
  // ---------------------------------------------------------------------------------------------------

  lemma JobGoesOn(cfg: Config, pc: Pc, c: Choice, o: Out, owner: Tid, r: Rec)
    requires !Queueing(pc) && !Finished(pc) && JobFor(pc, owner, r)
    requires Verdict(pc) != Some(Cancelled)
    requires ActOf(cfg, pc, c).ALock? && ActOf(cfg, pc, c).k.Lookup? ==> o.lock.Some?
    ensures JobFor(After(cfg, pc, c, o), owner, r)
  {
  }

  /** A round is right as long as its own jobs stay jobs of the round. */
  lemma RoundFrame(threads: map<Tid, Pc>, threads': map<Tid, Pc>, u: Tid)
    requires u in threads && RoundRight(threads, u) && threads.Keys <= threads'.Keys && threads'[u] == threads[u]
    requires forall v, r | v in threads && JobFor(threads[v], u, r) && Waiting(threads, u) :: JobFor(threads'[v], u, r)
    ensures RoundRight(threads', u)
  {
  }

  /** A step outside the queue starts a round with no jobs, or is in none. */
  lemma FirstRound(cfg: Config, pc: Pc, c: Choice, o: Out)
    requires !Queueing(pc)
    ensures var pc' := After(cfg, pc, c, o); !pc'.QJobs? && (pc'.QSpawn? ==> pc'.jobs == [])
  {
  }

  lemma RoundsOrdinary(cfg: Config, w: World, t: Tid, c: Choice)
    requires Ordinary(cfg, w, t, c) && QuietInv(w) && RoundsInv(w)
    ensures RoundsInv(Next(cfg, w, Run(t, c)))
  {
    var pc := w.threads[t];
    var a, o, pc' := OrdinaryStep(cfg, w, t, c);
    ApplyEffect(cfg, w, t, a);
    assert Facts(w.data.records, pc);
    FirstRound(cfg, pc, c, o);
    JobStays(cfg, pc, c, o);
    RoundsPut(w.threads, t, pc');
  }

  lemma JobStays(cfg: Config, pc: Pc, c: Choice, o: Out)
    requires !Queueing(pc) && !Finished(pc)
    requires IsJob(pc) ==> Verdict(pc) != Some(Cancelled)
    requires ActOf(cfg, pc, c).ALock? && ActOf(cfg, pc, c).k.Lookup? ==> o.lock.Some?
    ensures forall owner, r | JobFor(pc, owner, r) :: JobFor(After(cfg, pc, c, o), owner, r)
  {
    forall owner, r | JobFor(pc, owner, r) ensures JobFor(After(cfg, pc, c, o), owner, r) {
      JobGoesOn(cfg, pc, c, o, owner, r);
    }
  }

  /** A thread moves on: it stays the job it was and is at most at the start of a round. */
  lemma RoundsPut(threads: map<Tid, Pc>, t: Tid, pc: Pc)
    requires t in threads && RoundsRight(threads)
    requires !pc.QJobs? && (pc.QSpawn? ==> pc.jobs == [])
    requires forall owner, r | JobFor(threads[t], owner, r) && Waiting(threads, owner) :: JobFor(pc, owner, r)
    ensures RoundsRight(threads[t := pc])
  {
    var threads' := threads[t := pc];
    forall u | u in threads' ensures RoundRight(threads', u) {
      if u != t {
        RoundFrame(threads, threads', u);
      }
    }
  }

  lemma RoundsSubmit(threads: map<Tid, Pc>, t: Tid, job: Tid)
    requires t in threads && threads[t].QSpawn? && |threads[t].jobs| < |threads[t].recs| && job !in threads
    requires RoundsRight(threads)
    ensures var pc := threads[t];
            var threads' := threads[job := JobOf(t, pc)][t := QSpawn(pc.recs, pc.jobs + [job])];
            RoundsRight(threads')
  {
    var pc := threads[t];
    var threads' := threads[job := JobOf(t, pc)][t := QSpawn(pc.recs, pc.jobs + [job])];
    assert RoundRight(threads, t);
    forall u | u in threads' ensures RoundRight(threads', u) {
      if u in threads && u != t {
        RoundFrame(threads, threads', u);
      }
    }
  }

  lemma RoundsSubmitted(threads: map<Tid, Pc>, t: Tid)
    requires t in threads && threads[t].QSpawn? && |threads[t].jobs| >= |threads[t].recs|
    requires RoundsRight(threads)
    ensures var threads' := threads[t := QJobs(threads[t].recs, threads[t].jobs)];
            RoundsRight(threads')
  {
    var threads' := threads[t := QJobs(threads[t].recs, threads[t].jobs)];
    assert RoundRight(threads, t);
    forall u | u in threads' ensures RoundRight(threads', u) {
      if u != t {
        RoundFrame(threads, threads', u);
      }
    }
  }

  lemma RoundsSpawn(w: World, t: Tid, c: Choice)
    requires t in w.threads && w.threads[t].QSpawn? && RoundsInv(w)
    requires c.giveUp || |w.threads[t].jobs| >= |w.threads[t].recs| || c.tid !in w.threads
    ensures RoundsInv(StepQueue(w, t, c))
  {
    if c.giveUp {
      RoundsPut(w.threads, t, Done);
    } else if Submits(w.threads[t], c) {
      RoundsSubmit(w.threads, t, c.tid);
    } else {
      RoundsSubmitted(w.threads, t);
    }
  }

  lemma RoundsStart(w: World, t: Tid, c: Choice)
    requires t in w.threads && (w.threads[t].QJobs? || w.threads[t].JQueued?) && RoundsInv(w)
    ensures RoundsInv(StepQueue(w, t, c))
  {
    RoundsPut(w.threads, t, StepQueue(w, t, c).threads[t]);
  }

  lemma RoundsInvKept(cfg: Config, w: World, lab: Label)
    requires Can(cfg, w, lab) && QuietInv(w) && RoundsInv(w)
    ensures RoundsInv(Next(cfg, w, lab))
  {
    match lab
    case Run(t, c) =>
      if Queueing(w.threads[t]) {
        if w.threads[t].QSpawn? {
          RoundsSpawn(w, t, c);
        } else {
          RoundsStart(w, t, c);
        }
      } else {
        RoundsOrdinary(cfg, w, t, c);
      }
    case Spawn(t, pc) =>
      forall u | u in w.threads ensures RoundRight(Put(w, t, pc).threads, u) {
        assert RoundRight(w.threads, u);
      }
    case Reclaim(_) =>
      assert forall u | u in w.threads :: RoundRight(w.threads, u);
  }

  lemma RoundOver(cfg: Config, w: World, t: Tid, c: Choice)
    requires CanRun(cfg, w, t, c) && w.threads[t].QJobs? && StepQueue(w, t, c).threads[t] == QList
    ensures forall u | u in w.threads[t].jobs :: u in w.threads && w.threads[u].JDone? && w.threads[u].res != Failed
  {
  }

  /** A round that ends without a failed job leaves nothing behind, and the next listing answers ok. */
  lemma RoundEmpties(cfg: Config, w: World, t: Tid, c: Choice)
    requires DataInv(w) && QuietInv(w) && RoundsInv(w)
    requires CanRun(cfg, w, t, c) && w.threads[t].QJobs? && StepQueue(w, t, c).threads[t] == QList
    ensures w.data.records == map[]
  {
    RoundOver(cfg, w, t, c);
    RoundGone(w, t);
  }

  lemma JobGone(records: map<Id, Rec>, job: Pc, owner: Tid, r: Rec)
    requires Facts(records, job) && JobFor(job, owner, r) && job.JDone? && job.res != Failed
    ensures r.id !in records
  {
  }

  lemma RoundGone(w: World, t: Tid)
    requires QuietInv(w) && RoundsInv(w) && t in w.threads && w.threads[t].QJobs?
    requires forall id | id in w.data.records :: w.data.records[id].id == id
    requires forall u | u in w.threads[t].jobs :: u in w.threads && w.threads[u].JDone? && w.threads[u].res != Failed
    ensures w.data.records == map[]
  {
    var pc := w.threads[t];
    assert RoundRight(w.threads, t);
    assert Facts(w.data.records, pc);
    if id :| id in w.data.records {
      var i :| 0 <= i < |pc.recs| && pc.recs[i] == w.data.records[id];
      assert pc.jobs[i] in pc.jobs;
      JobGone(w.data.records, w.threads[pc.jobs[i]], t, pc.recs[i]);
      assert false;
    }
  }
}
