/**
 What deletes and quiescing answer, over whole runs: a job reports what its body did, a quiesce call gives up only for
 a reason, a stale container goes, and the work on a sandbox's network is done under the mutex.
 */
module ProvisionerOutcomes {
  import opened Prelude
  import opened SandboxRecords
  import opened Provisioner
  import opened ProvisionerInvariants
  import opened ProvisionerRuns
  import opened ProvisionerActivity
  import K = SandboxLocks

  // ---------------------------------------------------------------------------------------------------
  // Deletes
  // ---------------------------------------------------------------------------------------------------

  /** The body is over with this result, and the thread is on its way to report it. */
  predicate Reporting(pc: Pc, id: Id, k: Kind, res: DelRes) {
    || (pc.DBack? && pc.id == id && pc.k == k && (pc.e.EFree? || pc.e.EUnlock?) && pc.e.res == res)
    || pc == DEnd(id, k, res)
    || (pc == DForget(id, k) && res.Deleted?)
  }

  lemma ReportStep(h: History, m: nat, t: Tid, pc: Pc, id: Id, k: Kind, res: DelRes) returns (pc': Pc)
    requires IsRunOf(h) && Own(h, m, t) && Is(h, m, t, pc) && k.Job? && Reporting(pc, id, k, res)
    ensures Is(h, m + 1, t, pc') && (Reporting(pc', id, k, res) || pc' == JDone(k.r, res))
  {
    var a, o := Moves(h, m, t, pc);
    pc' := After(h.cfg, pc, h.labs[m].c, o);
  }

  /** A finished job stays as it is. */
  lemma {:induction false} Reported(h: History, m: nat, i: nat, t: Tid, r: Rec, res: DelRes)
    requires IsRunOf(h) && m <= i <= |h.labs| && Is(h, m, t, JDone(r, res))
    ensures Is(h, i, t, JDone(r, res))
    decreases i - m
  {
    if m < i {
      if Own(h, m, t) {
        StepOf(h, m);
      } else {
        Stays(h, m, t, JDone(r, res));
      }
      Reported(h, m + 1, i, t, r, res);
    }
  }

  lemma {:induction false} ReportingReports(h: History, m: nat, i: nat, t: Tid, pc: Pc, id: Id, k: Kind,
                                            res: DelRes, end: DelRes)
    requires IsRunOf(h) && m <= i <= |h.labs| && Is(h, m, t, pc) && k.Job? && Reporting(pc, id, k, res)
    requires Is(h, i, t, JDone(k.r, end))
    ensures res == end
    decreases i - m
  {
    if Own(h, m, t) {
      var pc' := ReportStep(h, m, t, pc, id, k, res);
      if Reporting(pc', id, k, res) {
        ReportingReports(h, m + 1, i, t, pc', id, k, res, end);
      } else {
        Reported(h, m + 1, i, t, k.r, res);
      }
    } else {
      Stays(h, m, t, pc);
      ReportingReports(h, m + 1, i, t, pc, id, k, res, end);
    }
  }

  /** What the body of a job comes to. */
  lemma BodyStep(h: History, j: nat, t: Tid, id: Id, k: Kind) returns (pc': Pc, res: DelRes)
    requires IsRunOf(h) && k.Job? && (Erases(h, j, t, id, k) || Fails(h, j, t, id, k))
    ensures Is(h, j + 1, t, pc') && Reporting(pc', id, k, res)
    ensures var before := h.ws[j].data.records;
            res == if Fails(h, j, t, id, k) then Failed
                   else if id in before && before[id].gen != k.r.gen then Mismatch else Deleted
  {
    var pc := h.ws[j].threads[t];
    var a, o := Moves(h, j, t, pc);
    pc' := After(h.cfg, pc, h.labs[j].c, o);
    res := if pc'.DBack? then pc'.e.res else pc'.res;
  }

  lemma BodyWrites(h: History, j: nat, t: Tid, id: Id, k: Kind)
    requires IsRunOf(h) && k.Job? && (Erases(h, j, t, id, k) || Fails(h, j, t, id, k))
    ensures var before := h.ws[j].data.records;
            h.ws[j + 1].data.records
            == if Fails(h, j, t, id, k) || (id in before && before[id].gen != k.r.gen) then before else before - {id}
  {
    var a, o := Moves(h, j, t, h.ws[j].threads[t]);
  }

  /**
   A deletion job, from its start to its end: it answers that the body failed, or that the sandbox had another
   generation and was left alone, or that it is gone; and exactly that is what happened in the body.
   */
  lemma JobAnswers(h: History, m: nat, i: nat, t: Tid, pc: Pc, id: Id, k: Kind, end: DelRes) returns (j: nat)
    requires IsRunOf(h) && m <= i <= |h.labs| && Is(h, m, t, pc) && k.Job? && Deleting(pc, id, k)
    requires Is(h, i, t, JDone(k.r, end))
    ensures m <= j < i && Own(h, j, t)
    ensures var before, after := h.ws[j].data.records, h.ws[j + 1].data.records;
            match end
            case Failed => Fails(h, j, t, id, k) && after == before
            case Mismatch => Erases(h, j, t, id, k) && after == before && id in before && before[id].gen != k.r.gen
            case Deleted => Erases(h, j, t, id, k) && after == before - {id}
                            && (id in before ==> before[id].gen == k.r.gen)
            case Cancelled => false
  {
    j := EveryDeleteErases(h, m, i, t, pc, JDone(k.r, end), id, k);
    var pc', res := BodyStep(h, j, t, id, k);
    BodyWrites(h, j, t, id, k);
    ReportingReports(h, j + 1, i, t, pc', id, k, res, end);
  }

  /** The body has failed or found another generation. */
  predicate Kept(pc: Pc, id: Id, k: Kind) {
    || (pc.DBack? && pc.id == id && pc.k == k && (pc.e.EFree? || pc.e.EUnlock?) && pc.e.res != Deleted)
    || (pc.DEnd? && pc.id == id && pc.k == k && pc.res != Deleted)
    || pc.Done? || pc.JDone?
  }

  lemma KeptStep(h: History, m: nat, t: Tid, pc: Pc, id: Id, k: Kind) returns (pc': Pc)
    requires IsRunOf(h) && Own(h, m, t) && Is(h, m, t, pc) && Kept(pc, id, k) && !k.Reap?
    ensures Is(h, m + 1, t, pc') && Kept(pc', id, k) && h.ws[m + 1].data == h.ws[m].data
  {
    var a, o := Moves(h, m, t, pc);
    pc' := After(h.cfg, pc, h.labs[m].c, o);
  }

  lemma {:induction false} KeptStays(h: History, m: nat, t: Tid, pc: Pc, id: Id, k: Kind, n: nat)
    requires IsRunOf(h) && m <= n < |h.labs| && Is(h, m, t, pc) && Kept(pc, id, k) && !k.Reap? && Own(h, n, t)
    ensures h.ws[n + 1].data == h.ws[n].data
    decreases n - m
  {
    if Own(h, m, t) {
      var pc' := KeptStep(h, m, t, pc, id, k);
      if m < n {
        KeptStays(h, m + 1, t, pc', id, k, n);
      }
    } else {
      Stays(h, m, t, pc);
      KeptStays(h, m + 1, t, pc, id, k, n);
    }
  }

  /**
   A delete request or job whose body fails or finds another generation than expected: no step of that thread, from the
   body on, changes inventory or tracker.
   */
  lemma KeptIsNotForgotten(h: History, j: nat, t: Tid, id: Id, k: Kind, fence: Fence, n: nat)
    requires IsRunOf(h) && j <= n < |h.labs| && Own(h, n, t) && !k.Reap? && Fenced(k, fence)
    requires || Fails(h, j, t, id, k)
             || (Erases(h, j, t, id, k) && fence.Exactly? && id in h.ws[j].data.records
                 && h.ws[j].data.records[id].gen != fence.gen)
    ensures h.ws[n + 1].data == h.ws[n].data
  {
    var pc := h.ws[j].threads[t];
    var a, o := Moves(h, j, t, pc);
    var pc' := After(h.cfg, pc, h.labs[j].c, o);
    if j < n {
      KeptStays(h, j + 1, t, pc', id, k, n);
    }
  }

  // ---------------------------------------------------------------------------------------------------
  // Creates that fail
  // ---------------------------------------------------------------------------------------------------

  /** A create on its way out without a record. */
  predicate Leaving(pc: Pc) {
    || (pc.CBack? && pc.m.MUnlock? && pc.m.made.None?)
    || (pc.CUnpin? && pc.made.None?) || (pc.CUngate? && pc.made.None?) || pc.Done?
  }

  lemma LeavingStep(h: History, m: nat, t: Tid, pc: Pc) returns (pc': Pc)
    requires IsRunOf(h) && Own(h, m, t) && Is(h, m, t, pc) && Leaving(pc)
    ensures Is(h, m + 1, t, pc') && Leaving(pc') && h.ws[m + 1].data == h.ws[m].data
  {
    var a, o := Moves(h, m, t, pc);
    pc' := After(h.cfg, pc, h.labs[m].c, o);
  }

  lemma {:induction false} LeavingStays(h: History, m: nat, t: Tid, pc: Pc, n: nat)
    requires IsRunOf(h) && m <= n < |h.labs| && Is(h, m, t, pc) && Leaving(pc) && Own(h, n, t)
    ensures h.ws[n + 1].data == h.ws[n].data
    decreases n - m
  {
    if Own(h, m, t) {
      var pc' := LeavingStep(h, m, t, pc);
      if m < n {
        LeavingStays(h, m + 1, t, pc', n);
      }
    } else {
      Stays(h, m, t, pc);
      LeavingStays(h, m + 1, t, pc, n);
    }
  }

  /**
   A create that the gate refuses, that fails, or that finds a record with another work directory: no step of that thread
   from there on changes inventory or tracker.
   */
  lemma FailedCreateLeavesNoTrace(h: History, j: nat, t: Tid, q: Request, n: nat)
    requires IsRunOf(h) && j <= n < |h.labs| && Own(h, n, t)
    requires || Refused(h, j, t, q)
             || (Settles(h, j, t, q) && !Answers(h, j, t, q))
             || (Answers(h, j, t, q) && q.id in h.ws[j].data.records && h.ws[j].data.records[q.id].workdir != q.workdir)
    ensures h.ws[n + 1].data == h.ws[n].data
  {
    var pc := h.ws[j].threads[t];
    var a, o := Moves(h, j, t, pc);
    var pc' := After(h.cfg, pc, h.labs[j].c, o);
    if j < n {
      LeavingStays(h, j + 1, t, pc', n);
    }
  }

  /**
   A container that a create has started is in the inventory from then on, whatever becomes of the create: as the record
   there was, or as the one of the request under the new generation.
   */
  lemma StartedIsThere(h: History, j: nat, t: Tid, q: Request, m: MakePc)
    requires IsRunOf(h) && Own(h, j, t) && Is(h, j, t, CBack(q, m)) && m.MBody? && h.labs[j].c.branch.Launch?
    ensures var before, after := h.ws[j].data.records, h.ws[j + 1].data.records;
            after == if q.id in before then before
                     else before[q.id := Rec(q.id, h.labs[j].c.token, q.workdir, q.lifecycle, q.idle)]
  {
    var a, o := Moves(h, j, t, CBack(q, m));
  }

  // ---------------------------------------------------------------------------------------------------
  // Quiescing
  // ---------------------------------------------------------------------------------------------------

  /** A quiesce call under way. */
  predicate Quiescing(pc: Pc) {
    pc.QGate? || pc.QWaitGate? || pc.QList? || pc.QSpawn? || pc.QJobs?
  }

  /** Step `j` is one at which a quiesce call may give up: its time is over or a call failed, or a job of its round did. */
  ghost predicate Reason(h: History, j: nat, t: Tid)
    requires |h.ws| == |h.labs| + 1
  {
    Own(h, j, t) && t in h.ws[j].threads
    && var pc := h.ws[j].threads[t];
       || ((pc.QList? || pc.QSpawn? || pc.QJobs?) && h.labs[j].c.giveUp)
       || (pc.QJobs? && FailedAmong(h.ws[j].threads, pc.jobs))
  }

  predicate FailedAmong(threads: map<Tid, Pc>, jobs: seq<Tid>) {
    exists u | u in jobs :: u in threads && threads[u].JDone? && threads[u].res == Failed
  }

  lemma QueueingStep(h: History, m: nat, t: Tid, pc: Pc) returns (pc': Pc)
    requires IsRunOf(h) && Own(h, m, t) && Is(h, m, t, pc) && (pc.QSpawn? || pc.QJobs?)
    ensures Is(h, m + 1, t, pc')
    ensures Quiescing(pc') || (pc'.Done? && Reason(h, m, t))
  {
    StepOf(h, m);
    var w, c := h.ws[m], h.labs[m].c;
    assert h.ws[m + 1] == StepQueue(w, t, c);
    pc' := StepQueue(w, t, c).threads[t];
    if pc.QJobs? && !c.giveUp && pc'.Done? {
      assert FailedAmong(w.threads, pc.jobs);
    }
  }

  lemma EmptyIffListed(records: map<Id, Rec>, recs: seq<Rec>)
    requires Listing(records, recs)
    ensures recs == [] <==> records == map[]
  {
    assert recs != [] ==> recs[0].id in records;
  }

  /** One step of a quiesce call: it goes on, or it has found the inventory empty, or it gives up for a reason. */
  lemma QuiesceStep(h: History, m: nat, t: Tid, pc: Pc) returns (pc': Pc)
    requires IsRunOf(h) && Own(h, m, t) && Is(h, m, t, pc) && Quiescing(pc)
    ensures Is(h, m + 1, t, pc')
    ensures || Quiescing(pc')
            || (pc'.QOk? && h.ws[m].data.records == map[])
            || (pc'.Done? && Reason(h, m, t) && (pc.QList? ==> h.ws[m].data.records != map[]))
  {
    if Queueing(pc) {
      StepOf(h, m);
      pc' := QueueingStep(h, m, t, pc);
    } else {
      var a, o := Moves(h, m, t, pc);
      pc' := After(h.cfg, pc, h.labs[m].c, o);
      if pc.QList? {
        StepOf(h, m);
        EmptyIffListed(h.ws[m].data.records, h.labs[m].c.recs);
      }
    }
  }

  lemma {:induction false} OkStays(h: History, m: nat, i: nat, t: Tid)
    requires IsRunOf(h) && m <= i <= |h.labs| && Is(h, m, t, QOk)
    ensures Is(h, i, t, QOk)
    decreases i - m
  {
    if m < i {
      if Own(h, m, t) {
        StepOf(h, m);
      } else {
        Stays(h, m, t, QOk);
      }
      OkStays(h, m + 1, i, t);
    }
  }

  /** A quiesce call, from its start to its end, that does not answer ok had a reason to give up. */
  lemma {:induction false} QuiesceGivesUp(h: History, m: nat, i: nat, t: Tid, pc: Pc) returns (j: nat)
    requires IsRunOf(h) && m <= i <= |h.labs| && Is(h, m, t, pc) && Quiescing(pc) && Is(h, i, t, Done)
    ensures m <= j < i && Reason(h, j, t)
    decreases i - m
  {
    if !Own(h, m, t) {
      Stays(h, m, t, pc);
      j := QuiesceGivesUp(h, m + 1, i, t, pc);
    } else {
      var pc' := QuiesceStep(h, m, t, pc);
      if pc'.QOk? {
        OkStays(h, m + 1, i, t);
        assert false;
      } else if Quiescing(pc') {
        j := QuiesceGivesUp(h, m + 1, i, t, pc');
      } else {
        j := m;
      }
    }
  }

  lemma RoundBegins(h: History, m: nat, t: Tid)
    requires IsRunOf(h) && Own(h, m, t) && Is(h, m, t, QList) && !h.labs[m].c.giveUp
    ensures h.ws[m].data.records != map[] ==>
        exists recs :: Listing(h.ws[m].data.records, recs) && Is(h, m + 1, t, QSpawn(recs, []))
  {
    StepOf(h, m);
    var a, o := Moves(h, m, t, QList);
    var recs := h.labs[m].c.recs;
    assert Listing(h.ws[m].data.records, recs);
    EmptyIffListed(h.ws[m].data.records, recs);
    assert recs != [] ==> Is(h, m + 1, t, QSpawn(recs, []));
  }

  lemma JobIsSubmitted(h: History, m: nat, t: Tid, recs: seq<Rec>, jobs: seq<Tid>)
    requires IsRunOf(h) && Own(h, m, t) && Is(h, m, t, QSpawn(recs, jobs)) && !h.labs[m].c.giveUp
    ensures |jobs| < |recs| ==>
        exists u :: u !in h.ws[m].threads && Is(h, m + 1, u, JQueued(t, recs[|jobs|]))
                    && Is(h, m + 1, t, QSpawn(recs, jobs + [u]))
    ensures |jobs| >= |recs| ==> Is(h, m + 1, t, QJobs(recs, jobs))
  {
    StepOf(h, m);
    var u := h.labs[m].c.tid;
    assert |jobs| < |recs| ==> u !in h.ws[m].threads && Is(h, m + 1, u, JQueued(t, recs[|jobs|]));
  }

  /**
   A listing that is not empty, with time left, begins a round over every record; the round starts with no job, and
   hands one job for each record to the pool before it waits for them.
   */
  lemma RoundIsWhole(h: History, m: nat, t: Tid, pc: Pc)
    requires IsRunOf(h) && Own(h, m, t) && Is(h, m, t, pc) && !h.labs[m].c.giveUp
    ensures pc.QList? && h.ws[m].data.records != map[] ==>
        exists recs :: Listing(h.ws[m].data.records, recs) && Is(h, m + 1, t, QSpawn(recs, []))
    ensures pc.QSpawn? && |pc.jobs| < |pc.recs| ==>
        exists u :: u !in h.ws[m].threads && Is(h, m + 1, u, JQueued(t, pc.recs[|pc.jobs|]))
                    && Is(h, m + 1, t, QSpawn(pc.recs, pc.jobs + [u]))
    ensures pc.QSpawn? && |pc.jobs| >= |pc.recs| ==> Is(h, m + 1, t, QJobs(pc.recs, pc.jobs))
  {
    if pc.QList? {
      RoundBegins(h, m, t);
    } else if pc.QSpawn? {
      JobIsSubmitted(h, m, t, pc.recs, pc.jobs);
    }
  }

  /** A queued job starts if its call still waits for it, and is cancelled if that has given up. */
  lemma JobStarts(h: History, m: nat, t: Tid, owner: Tid, r: Rec)
    requires IsRunOf(h) && Own(h, m, t) && Is(h, m, t, JQueued(owner, r))
    ensures if owner in h.ws[m].threads && (h.ws[m].threads[owner].QSpawn? || h.ws[m].threads[owner].QJobs?)
            then Is(h, m + 1, t, DBegin(r.id, Job(owner, r))) else Is(h, m + 1, t, JDone(r, Cancelled))
  {
    StepOf(h, m);
  }

  /** Only the reaper rechecks, and forgets inside its delete window. */
  predicate Proper(pc: Pc) {
    pc.RCheck? || pc.RForget? ==> pc.k.Reap?
  }

  ghost predicate AllProper(threads: map<Tid, Pc>) {
    forall t | t in threads :: Proper(threads[t])
  }

  /** An ordinary step starts no job of a pool. */
  lemma NoJobStarts(cfg: Config, pc: Pc, c: Choice, o: Out)
    requires !Queueing(pc) && Proper(pc)
    ensures Proper(After(cfg, pc, c, o))
    ensures JobOwner(After(cfg, pc, c, o)) == JobOwner(pc) || JobOwner(After(cfg, pc, c, o)) == None
  {
  }

  lemma StartsNone(threads: map<Tid, Pc>, t: Tid, pc: Pc, owner: Tid)
    requires JobOwner(pc) != Some(owner) || (t in threads && JobOwner(threads[t]) == Some(owner))
    ensures Running(threads[t := pc], owner) <= Running(threads, owner)
  {
  }

  lemma Fewer(a: set<Tid>, b: set<Tid>)
    requires a <= b
    ensures |a| <= |b|
  {
    if a != {} {
      var x :| x in a;
      Fewer(a - {x}, b - {x});
    }
  }

  /** One more job starts if the pool has a free worker. */
  lemma OneStarts(threads: map<Tid, Pc>, t: Tid, pc: Pc, owner: Tid, n: nat)
    requires |Running(threads, owner)| < n
    ensures |Running(threads[t := pc], owner)| <= n
  {
    var runs, runs' := Running(threads, owner), Running(threads[t := pc], owner);
    assert runs' <= runs + {t};
    Fewer(runs', runs + {t});
  }

  lemma SubmitStartsNone(threads: map<Tid, Pc>, job: Tid, jpc: Pc, t: Tid, pc: Pc, owner: Tid)
    requires jpc.JQueued? && (pc.QSpawn? || pc.QJobs?)
    ensures |Running(threads[job := jpc][t := pc], owner)| <= |Running(threads, owner)|
  {
    StartsNone(threads, job, jpc, owner);
    StartsNone(threads[job := jpc], t, pc, owner);
    Fewer(Running(threads[job := jpc][t := pc], owner), Running(threads, owner));
  }

  lemma QueueProper(cfg: Config, w: World, t: Tid, c: Choice)
    requires CanRun(cfg, w, t, c) && Queueing(w.threads[t]) && AllProper(w.threads)
    ensures AllProper(StepQueue(w, t, c).threads)
  {
  }

  /** A step of a quiesce call or of a queued job starts at most one job, and only if the pool has a free worker. */
  lemma QueueStarts(cfg: Config, w: World, t: Tid, c: Choice, owner: Tid)
    requires CanRun(cfg, w, t, c) && Queueing(w.threads[t]) && |Running(w.threads, owner)| <= cfg.concurrency
    requires AllProper(w.threads)
    ensures |Running(StepQueue(w, t, c).threads, owner)| <= cfg.concurrency && AllProper(StepQueue(w, t, c).threads)
  {
    var pc := w.threads[t];
    var w' := StepQueue(w, t, c);
    QueueProper(cfg, w, t, c);
    if pc.JQueued? && Waiting(w.threads, pc.owner) && pc.owner == owner {
      OneStarts(w.threads, t, w'.threads[t], owner, cfg.concurrency);
    } else if Submits(pc, c) {
      SubmitStartsNone(w.threads, c.tid, JobOf(t, pc), t, w'.threads[t], owner);
    } else {
      StartsNone(w.threads, t, w'.threads[t], owner);
      Fewer(Running(w'.threads, owner), Running(w.threads, owner));
    }
  }

  ghost predicate PoolRight(cfg: Config, threads: map<Tid, Pc>, owner: Tid) {
    |Running(threads, owner)| <= cfg.concurrency && AllProper(threads)
  }

  /** At any time, at most as many deletion jobs of one quiesce call are at work as its pool has workers. */
  lemma {:induction false} PoolBounded(h: History, i: nat, owner: Tid)
    requires IsRunOf(h) && i <= |h.labs|
    ensures |Running(h.ws[i].threads, owner)| <= h.cfg.concurrency
    ensures PoolRight(h.cfg, h.ws[i].threads, owner)
  {
    if i == 0 {
      assert Running(h.ws[0].threads, owner) == {};
    } else {
      PoolBounded(h, i - 1, owner);
      PoolStep(h, i - 1, owner);
    }
  }

  lemma PoolStep(h: History, m: nat, owner: Tid)
    requires IsRunOf(h) && m < |h.labs| && PoolRight(h.cfg, h.ws[m].threads, owner)
    ensures PoolRight(h.cfg, h.ws[m + 1].threads, owner)
  {
    StepOf(h, m);
    PoolKept(h.cfg, h.ws[m], h.labs[m], owner);
  }

  lemma PoolKept(cfg: Config, w: World, lab: Label, owner: Tid)
    requires Can(cfg, w, lab) && PoolRight(cfg, w.threads, owner)
    ensures PoolRight(cfg, Next(cfg, w, lab).threads, owner)
  {
    if lab.Run? && Queueing(w.threads[lab.t]) {
      QueueStarts(cfg, w, lab.t, lab.c, owner);
    } else {
      OthersStart(cfg, w, lab, owner);
    }
  }

  lemma OthersStart(cfg: Config, w: World, lab: Label, owner: Tid)
    requires Can(cfg, w, lab) && !(lab.Run? && Queueing(w.threads[lab.t])) && AllProper(w.threads)
    ensures AllProper(Next(cfg, w, lab).threads)
    ensures |Running(Next(cfg, w, lab).threads, owner)| <= |Running(w.threads, owner)|
  {
    match lab
    case Run(t, c) =>
      var a, o, pc := OrdinaryStep(cfg, w, t, c);
      ApplyEffect(cfg, w, t, a);
      NoJobStarts(cfg, w.threads[t], c, o);
      StartsNone(w.threads, t, pc, owner);
      Fewer(Running(Next(cfg, w, lab).threads, owner), Running(w.threads, owner));
    case Spawn(t, pc) =>
      StartsNone(w.threads, t, pc, owner);
      Fewer(Running(Next(cfg, w, lab).threads, owner), Running(w.threads, owner));
    case Reclaim(_) =>
  }

  // ---------------------------------------------------------------------------------------------------
  // Stale containers
  // ---------------------------------------------------------------------------------------------------

  /** In the body of a Docker create, or in a lookup, the container of the sandbox turns out to be stale. */
  ghost predicate FindsStale(h: History, j: nat, t: Tid, id: Id)
    requires |h.ws| == |h.labs| + 1
  {
    Own(h, j, t) && t in h.ws[j].threads
    && var pc := h.ws[j].threads[t];
       && h.labs[j].c.branch.Nest?
       && ((pc.CBack? && pc.m.MBody? && pc.q.id == id) || (pc.RdDiscover? && pc.id == id && h.cfg.docker))
  }

  /** The thread has to delete the stale container, and has not been through the body. */
  predicate Evicting(pc: Pc, id: Id) {
    || (pc.RdStale? && pc.id == id && !pc.e.EFree? && !pc.e.EUnlock?)
    || (pc.CBack? && pc.q.id == id && pc.m.MNest? && !pc.m.e.EFree? && !pc.m.e.EUnlock?)
  }

  /** The body of that delete: it fails, and nothing changes, or whatever the id stands for is gone. */
  ghost predicate Evicts(h: History, k: nat, t: Tid, id: Id)
    requires |h.ws| == |h.labs| + 1
  {
    && Own(h, k, t)
    && h.ws[k + 1].data.records
       == if h.cfg.docker && h.labs[k].c.branch.Fail? then h.ws[k].data.records else h.ws[k].data.records - {id}
  }

  lemma EvictStep(h: History, m: nat, t: Tid, pc: Pc, id: Id) returns (pc': Pc)
    requires IsRunOf(h) && Own(h, m, t) && Is(h, m, t, pc) && Evicting(pc, id) && h.cfg.docker
    ensures Is(h, m + 1, t, pc') && (Evicting(pc', id) || Evicts(h, m, t, id))
  {
    var a, o := Moves(h, m, t, pc);
    pc' := After(h.cfg, pc, h.labs[m].c, o);
  }

  lemma {:induction false} EvictingEvicts(h: History, m: nat, i: nat, t: Tid, pc: Pc, id: Id) returns (k: nat)
    requires IsRunOf(h) && m <= i <= |h.labs| && Is(h, m, t, pc) && Evicting(pc, id) && Is(h, i, t, Done) && h.cfg.docker
    ensures m <= k < i && Evicts(h, k, t, id)
    decreases i - m
  {
    if !Own(h, m, t) {
      Stays(h, m, t, pc);
      k := EvictingEvicts(h, m + 1, i, t, pc, id);
    } else {
      var pc' := EvictStep(h, m, t, pc, id);
      if Evicts(h, m, t, id) {
        k := m;
      } else {
        k := EvictingEvicts(h, m + 1, i, t, pc', id);
      }
    }
  }

  /** Whoever finds a stale container has been through a delete of it, with no generation expected, before it is done. */
  lemma StaleIsErased(h: History, j: nat, i: nat, t: Tid, id: Id) returns (k: nat)
    requires IsRunOf(h) && h.cfg.docker && j < i <= |h.labs| && FindsStale(h, j, t, id) && Is(h, i, t, Done)
    ensures j < k < i && Evicts(h, k, t, id)
  {
    var pc := h.ws[j].threads[t];
    var a, o := Moves(h, j, t, pc);
    k := EvictingEvicts(h, j + 1, i, t, After(h.cfg, pc, h.labs[j].c, o), id);
  }

  /** A lookup that is going to answer that there is no sandbox. */
  predicate Empty(pc: Pc) {
    pc.RdStale? || pc.RdUnpin? || pc.Done?
  }

  lemma EmptyStep(h: History, m: nat, t: Tid, pc: Pc) returns (pc': Pc)
    requires IsRunOf(h) && Own(h, m, t) && Is(h, m, t, pc) && Empty(pc)
    ensures Is(h, m + 1, t, pc') && Empty(pc') && h.ws[m + 1].data.tracker == h.ws[m].data.tracker
  {
    var a, o := Moves(h, m, t, pc);
    pc' := After(h.cfg, pc, h.labs[m].c, o);
  }

  lemma {:induction false} EmptyStays(h: History, m: nat, i: nat, t: Tid, pc: Pc, n: nat)
    requires IsRunOf(h) && m <= n < i <= |h.labs| && Is(h, m, t, pc) && Empty(pc) && Own(h, n, t)
    ensures h.ws[n + 1].data.tracker == h.ws[n].data.tracker
    decreases n - m
  {
    if Own(h, m, t) {
      var pc' := EmptyStep(h, m, t, pc);
      if m < n {
        EmptyStays(h, m + 1, i, t, pc', n);
      }
    } else {
      Stays(h, m, t, pc);
      EmptyStays(h, m + 1, i, t, pc, n);
    }
  }

  /** A lookup that found the container stale answers that there is none: it notes neither policy nor activity. */
  lemma StaleIsNotTouched(h: History, j: nat, i: nat, t: Tid, id: Id, n: nat)
    requires IsRunOf(h) && h.cfg.docker && j <= n < i <= |h.labs| && Own(h, n, t)
    requires FindsStale(h, j, t, id) && h.ws[j].threads[t].RdDiscover?
    ensures h.ws[n + 1].data.tracker == h.ws[n].data.tracker
  {
    var pc := h.ws[j].threads[t];
    var a, o := Moves(h, j, t, pc);
    if j < n {
      EmptyStays(h, j + 1, i, t, After(h.cfg, pc, h.labs[j].c, o), n);
    }
  }

  // ---------------------------------------------------------------------------------------------------
  // The network of a sandbox
  // ---------------------------------------------------------------------------------------------------

  /** In the body of a Docker create, or of a lookup, the network of the sandbox turns out to be missing. */
  ghost predicate NeedsNetwork(h: History, j: nat, t: Tid)
    requires |h.ws| == |h.labs| + 1
  {
    Own(h, j, t) && t in h.ws[j].threads
    && var pc := h.ws[j].threads[t];
       && h.labs[j].c.branch.Net?
       && ((pc.CBack? && pc.m.MBody?) || (pc.RdDiscover? && h.cfg.docker))
  }

  predicate AtNet(pc: Pc) {
    pc.RdNetWait? || (pc.CBack? && pc.m.MNetWait?)
  }

  lemma TakesMutex(h: History, k: nat, t: Tid, pc: Pc)
    requires IsRunOf(h) && Own(h, k, t) && Is(h, k, t, pc) && AtNet(pc)
    ensures h.ws[k].locks.mutex == None && h.ws[k + 1].locks.mutex == Some(t)
  {
    StepOf(h, k);
    var a, o, pc' := OrdinaryStep(h.cfg, h.ws[k], t, h.labs[k].c);
    assert a == ALock(K.TakeMutex);
    ApplyEffect(h.cfg, h.ws[k], t, a);
  }

  lemma {:induction false} GetsMutex(h: History, m: nat, i: nat, t: Tid, pc: Pc) returns (k: nat)
    requires IsRunOf(h) && m <= i <= |h.labs| && Is(h, m, t, pc) && AtNet(pc) && Is(h, i, t, Done)
    ensures m <= k < i && Own(h, k, t) && h.ws[k].locks.mutex == None && h.ws[k + 1].locks.mutex == Some(t)
    decreases i - m
  {
    if Own(h, m, t) {
      TakesMutex(h, m, t, pc);
      k := m;
    } else {
      Stays(h, m, t, pc);
      k := GetsMutex(h, m + 1, i, t, pc);
    }
  }

  /** Whoever has to make a network takes the mutex for it, when nobody has it, before the request is over. */
  lemma NetworkUnderMutex(h: History, j: nat, i: nat, t: Tid) returns (k: nat)
    requires IsRunOf(h) && j < i <= |h.labs| && NeedsNetwork(h, j, t) && Is(h, i, t, Done)
    ensures j < k < i && Own(h, k, t) && h.ws[k].locks.mutex == None && h.ws[k + 1].locks.mutex == Some(t)
  {
    var pc := h.ws[j].threads[t];
    var a, o := Moves(h, j, t, pc);
    k := GetsMutex(h, j + 1, i, t, After(h.cfg, pc, h.labs[j].c, o));
  }
}
