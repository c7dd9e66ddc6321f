/**
 What requests leave behind in the reaper's tracker, over whole runs, and when the reaper acts on it: every request that
 used a sandbox has noted its policy and its activity by the time it answers, a delete has been forgotten, and a tracked
 generation is condemned at the numbers of its entry and not before.
 */
module ProvisionerActivity {
  import opened Prelude
  import opened SandboxRecords
  import opened IdleReaper
  import opened Provisioner
  import opened ProvisionerInvariants
  import opened ProvisionerData
  import opened ProvisionerRuns
  import G = QuiescenceGate
  import K = SandboxLocks

  // ---------------------------------------------------------------------------------------------------
  // Following one thread
  // ---------------------------------------------------------------------------------------------------

  /** A run with its states, one before each step and the last. */
  datatype History = History(cfg: Config, labs: seq<Label>, ws: seq<World>)

  ghost predicate IsRunOf(h: History) {
    && |h.ws| == |h.labs| + 1 && h.ws[0] == Boot(h.cfg)
    && forall i: nat | i < |h.labs| :: StepRight(h, i)
  }

  ghost predicate StepRight(h: History, i: nat)
    requires i < |h.labs| && |h.ws| == |h.labs| + 1
  {
    Can(h.cfg, h.ws[i], h.labs[i]) && h.ws[i + 1] == Next(h.cfg, h.ws[i], h.labs[i])
  }

  lemma StepOf(h: History, m: nat)
    requires IsRunOf(h) && m < |h.labs|
    ensures Can(h.cfg, h.ws[m], h.labs[m]) && h.ws[m + 1] == Next(h.cfg, h.ws[m], h.labs[m])
  {
    assert StepRight(h, m);
  }

  lemma {:induction false} StatesOfRun(h: History, i: nat)
    requires IsRunOf(h) && i <= |h.labs|
    ensures Runs(h.cfg, h.labs[..i]) && EndOf(h.cfg, Boot(h.cfg), h.labs[..i]) == h.ws[i]
  {
    if i > 0 {
      StatesOfRun(h, i - 1);
      StepOf(h, i - 1);
      RunGoesOn(h.cfg, h.labs[..i - 1], h.labs[i - 1]);
      assert h.labs[..i] == h.labs[..i - 1] + [h.labs[i - 1]];
    }
  }

  lemma RunGoesOn(cfg: Config, labs: seq<Label>, lab: Label)
    requires Runs(cfg, labs) && Can(cfg, EndOf(cfg, Boot(cfg), labs), lab)
    ensures Runs(cfg, labs + [lab])
    ensures EndOf(cfg, Boot(cfg), labs + [lab]) == Next(cfg, EndOf(cfg, Boot(cfg), labs), lab)
  {
    assert (labs + [lab])[..|labs|] == labs;
  }

  lemma InvOf(h: History, i: nat)
    requires IsRunOf(h) && i <= |h.labs|
    ensures Inv(h.cfg, h.ws[i])
  {
    StatesOfRun(h, i);
    RunInv(h.cfg, h.labs[..i], i);
    assert h.labs[..i][..i] == h.labs[..i];
  }

  /** Every run has its states. */
  lemma RunHasHistory(cfg: Config, labs: seq<Label>) returns (h: History)
    requires Runs(cfg, labs)
    ensures IsRunOf(h) && h.cfg == cfg && h.labs == labs && forall i | 0 <= i <= |labs| :: h.ws[i] == At(cfg, labs, i)
  {
    var ws := seq(|labs| + 1, (i: nat) requires i <= |labs| => At(cfg, labs, i));
    h := History(cfg, labs, ws);
    assert labs[..0] == [];
    forall i: nat | i < |labs| ensures StepRight(h, i) {
      StepAt(cfg, labs, i);
    }
  }

  ghost predicate Own(h: History, m: nat, t: Tid)
    requires |h.ws| == |h.labs| + 1
  {
    m < |h.labs| && h.labs[m].Run? && h.labs[m].t == t
  }

  ghost predicate Is(h: History, m: nat, t: Tid, pc: Pc)
    requires m < |h.ws| == |h.labs| + 1
  {
    t in h.ws[m].threads && h.ws[m].threads[t] == pc
  }

  /** A thread stays where it is while others step. */
  lemma OthersLeave(cfg: Config, w: World, lab: Label, t: Tid)
    requires Can(cfg, w, lab) && t in w.threads && !(lab.Run? && lab.t == t)
    ensures t in Next(cfg, w, lab).threads && Next(cfg, w, lab).threads[t] == w.threads[t]
  {
    if lab.Run? && !Queueing(w.threads[lab.t]) {
      var a, o, pc := OrdinaryStep(cfg, w, lab.t, lab.c);
      ApplyEffect(cfg, w, lab.t, a);
    } else if lab.Run? {
      if Submits(w.threads[lab.t], lab.c) {
        QueueSubmit(cfg, w, lab.t, lab.c);
      } else {
        QueueMove(w, lab.t, lab.c);
      }
    }
  }

  lemma Stays(h: History, m: nat, t: Tid, pc: Pc)
    requires IsRunOf(h) && m < |h.labs| && Is(h, m, t, pc) && !Own(h, m, t)
    ensures Is(h, m + 1, t, pc)
  {
    StepOf(h, m);
    OthersLeave(h.cfg, h.ws[m], h.labs[m], t);
  }

  /** The thread's own step, taken apart. */
  lemma Moves(h: History, m: nat, t: Tid, pc: Pc) returns (a: Act, o: Out)
    requires IsRunOf(h) && Own(h, m, t) && Is(h, m, t, pc) && !Queueing(pc)
    ensures Ordinary(h.cfg, h.ws[m], t, h.labs[m].c)
    ensures a == ActOf(h.cfg, pc, h.labs[m].c) && Is(h, m + 1, t, After(h.cfg, pc, h.labs[m].c, o))
    ensures var d, d' := h.ws[m].data, h.ws[m + 1].data;
            if a.AData? then (d', o) == ApplyData(h.cfg, d, a.d) else d' == d
    ensures a.AGate? ==> (h.ws[m + 1].gate, o.ok) == G.Apply(h.ws[m].gate, t, a.g)
    ensures a.ALock? ==> K.Ready(h.ws[m].locks, t, a.k) && o.ok && o.rec.None?
                         && (o.lock.Some? <==> a.k.Lookup?)
  {
    StepOf(h, m);
    var pc': Pc;
    a, o, pc' := OrdinaryStep(h.cfg, h.ws[m], t, h.labs[m].c);
    ApplyEffect(h.cfg, h.ws[m], t, a);
  }

  // ---------------------------------------------------------------------------------------------------
  // Requests that used a sandbox have noted it
  // ---------------------------------------------------------------------------------------------------

  /** Step `n` of thread `t` leaves the policy of `r` in the tracker. */
  ghost predicate Notes(h: History, n: nat, t: Tid, r: Rec)
    requires |h.ws| == |h.labs| + 1
  {
    Own(h, n, t) && r.id in h.ws[n + 1].data.tracker.timeouts
    && h.ws[n + 1].data.tracker.timeouts[r.id]
       == if r.idle.Some? then r.idle else if r.lifecycle == Some(Resident) then Some(0) else None
  }

  /** Step `k` of thread `t` leaves the generation of `r` in the tracker as active at that time. */
  ghost predicate Stamps(h: History, k: nat, t: Tid, r: Rec)
    requires |h.ws| == |h.labs| + 1
  {
    Own(h, k, t) && r.id in h.ws[k + 1].data.tracker.last
    && h.ws[k + 1].data.tracker.last[r.id] == (Some(r.gen), h.labs[k].c.now)
  }

  /** The thread has `r` and is about to touch it. */
  predicate Touching(pc: Pc, r: Rec) {
    pc == Touch(r) || (pc.RdTouch? && pc.r == r)
  }

  /** The thread has `r` and is on its way to note it. */
  predicate Carrying(pc: Pc, r: Rec) {
    || (pc.CBack? && pc.m.MUnlock? && pc.m.made == Some(r))
    || (pc.CUnpin? && pc.made == Some(r))
    || pc == CUngate(Some(r))
    || pc == Remember(r)
    || (pc.RdRemember? && pc.r == r)
  }

  lemma {:induction false} TouchingStamps(h: History, m: nat, i: nat, t: Tid, pc: Pc, r: Rec)
    returns (k: nat)
    requires IsRunOf(h) && m <= i <= |h.labs| && Is(h, m, t, pc) && Touching(pc, r) && Is(h, i, t, Done)
    ensures m <= k < i && Stamps(h, k, t, r)
    decreases i - m
  {
    if Own(h, m, t) {
      var a, o := Moves(h, m, t, pc);
      k := m;
    } else {
      Stays(h, m, t, pc);
      k := TouchingStamps(h, m + 1, i, t, pc, r);
    }
  }

  /** One step of a thread that carries a record. */
  lemma CarryStep(h: History, m: nat, t: Tid, pc: Pc, r: Rec) returns (pc': Pc)
    requires IsRunOf(h) && Own(h, m, t) && Is(h, m, t, pc) && Carrying(pc, r)
    ensures Is(h, m + 1, t, pc')
    ensures || Carrying(pc', r)
            || (Notes(h, m, t, r) && (Touching(pc', r) || Stamps(h, m, t, r)))
  {
    var a, o := Moves(h, m, t, pc);
    pc' := After(h.cfg, pc, h.labs[m].c, o);
  }

  lemma {:induction false} CarryingStamps(h: History, m: nat, i: nat, t: Tid, pc: Pc, r: Rec)
    returns (n: nat, k: nat)
    requires IsRunOf(h) && m <= i <= |h.labs| && Is(h, m, t, pc) && Carrying(pc, r) && Is(h, i, t, Done)
    ensures m <= n <= k < i && Notes(h, n, t, r) && Stamps(h, k, t, r)
    decreases i - m
  {
    if Own(h, m, t) {
      var pc' := CarryStep(h, m, t, pc, r);
      if Carrying(pc', r) {
        n, k := CarryingStamps(h, m + 1, i, t, pc', r);
      } else {
        n, k := m, m;
        if !Stamps(h, m, t, r) {
          k := TouchingStamps(h, m + 1, i, t, pc', r);
        }
      }
    } else {
      Stays(h, m, t, pc);
      n, k := CarryingStamps(h, m + 1, i, t, pc, r);
    }
  }

  /** Step `j` of thread `t` is the lookup of a get, touch or proxy request, and it found `r`. */
  ghost predicate Discovers(h: History, j: nat, t: Tid, id: Id, pin: bool, r: Rec)
    requires |h.ws| == |h.labs| + 1
  {
    Own(h, j, t) && Is(h, j, t, RdDiscover(id, pin)) && Finds(h.cfg, h.labs[j].c)
    && id in h.ws[j].data.records && h.ws[j].data.records[id] == r
  }

  /** A lookup that finds a record leads on to noting it. */
  lemma FoundIsCarried(cfg: Config, d: Data, id: Id, pin: bool, c: Choice, r: Rec)
    requires Finds(cfg, c) && id in d.records && d.records[id] == r
    ensures ActOf(cfg, RdDiscover(id, pin), c) == AData(Discover(id))
    ensures Carrying(After(cfg, RdDiscover(id, pin), c, ApplyData(cfg, d, Discover(id)).1), r)
  {
  }

  lemma DiscoverStep(h: History, j: nat, t: Tid, id: Id, pin: bool, r: Rec) returns (pc: Pc)
    requires IsRunOf(h) && j < |h.labs| && Discovers(h, j, t, id, pin, r)
    ensures Is(h, j + 1, t, pc) && Carrying(pc, r)
  {
    FoundIsCarried(h.cfg, h.ws[j].data, id, pin, h.labs[j].c, r);
    var a, o := Moves(h, j, t, RdDiscover(id, pin));
    pc := After(h.cfg, RdDiscover(id, pin), h.labs[j].c, o);
  }

  lemma RecordsOwnId(h: History, j: nat, id: Id)
    requires IsRunOf(h) && j <= |h.labs| && id in h.ws[j].data.records
    ensures h.ws[j].data.records[id].id == id
  {
    InvOf(h, j);
    RecordId(h.cfg, h.ws[j], id);
  }

  lemma RecordId(cfg: Config, w: World, id: Id)
    requires Inv(cfg, w) && id in w.data.records
    ensures w.data.records[id].id == id
  {
  }

  /** Every get, touch or proxy request that found a sandbox has noted its policy and its activity when it is done. */
  lemma DiscoveredIsTouched(h: History, j: nat, i: nat, t: Tid, id: Id, pin: bool, r: Rec)
    returns (n: nat, k: nat)
    requires IsRunOf(h) && i <= |h.labs| && j < i && Discovers(h, j, t, id, pin, r) && Is(h, i, t, Done)
    ensures j < n <= k < i && Notes(h, n, t, r) && Stamps(h, k, t, r) && r.id == id
  {
    RecordsOwnId(h, j, id);
    var pc := DiscoverStep(h, j, t, id, pin, r);
    n, k := CarryingStamps(h, j + 1, i, t, pc, r);
  }

  /** A request with a pin that has not looked its sandbox up for good. */
  predicate Looking(pc: Pc, id: Id) {
    pc == RdPin(id) || pc == RdDiscover(id, true) || pc == RdNetWait(id, true) || pc == RdNet(id, true)
  }

  lemma LookStep(h: History, m: nat, t: Tid, pc: Pc, id: Id) returns (pc': Pc)
    requires IsRunOf(h) && Own(h, m, t) && Is(h, m, t, pc) && Looking(pc, id)
    ensures Is(h, m + 1, t, pc') && (Looking(pc', id) || pc == RdDiscover(id, true))
  {
    var a, o := Moves(h, m, t, pc);
    pc' := After(h.cfg, pc, h.labs[m].c, o);
  }

  /**
   A get, touch or HTTP proxy request, from its start to its end: it has looked the sandbox up under its pin, and if
   that found a record and did not fail, policy and activity have been noted before the end.
   */
  lemma {:induction false} EveryReadTouches(h: History, m: nat, i: nat, t: Tid, pc: Pc, id: Id)
    returns (j: nat, n: nat, k: nat)
    requires IsRunOf(h) && m <= i <= |h.labs| && Is(h, m, t, pc) && Looking(pc, id) && Is(h, i, t, Done)
    ensures m <= j < i && Own(h, j, t) && Is(h, j, t, RdDiscover(id, true))
    ensures Finds(h.cfg, h.labs[j].c) && id in h.ws[j].data.records ==>
        var r := h.ws[j].data.records[id];
        j < n <= k < i && Notes(h, n, t, r) && Stamps(h, k, t, r) && r.id == id
    decreases i - m
  {
    if !Own(h, m, t) {
      Stays(h, m, t, pc);
      j, n, k := EveryReadTouches(h, m + 1, i, t, pc, id);
    } else {
      var pc' := LookStep(h, m, t, pc, id);
      if Looking(pc', id) {
        j, n, k := EveryReadTouches(h, m + 1, i, t, pc', id);
      } else {
        j, n, k := m, 0, 0;
        if Finds(h.cfg, h.labs[j].c) && id in h.ws[j].data.records {
          n, k := DiscoveredIsTouched(h, j, i, t, id, true, h.ws[j].data.records[id]);
        }
      }
    }
  }

  /** A create that has not got its answer from the backend. */
  predicate Creating(pc: Pc, q: Request) {
    pc == CGate(q) || pc == CPin(q) || (pc.CBack? && pc.q == q && !pc.m.MUnlock?)
  }

  /** Step `j` is where the backend settles a create: it is at the gate, makes or reuses a record, or fails. */
  ghost predicate Refused(h: History, j: nat, t: Tid, q: Request)
    requires |h.ws| == |h.labs| + 1
  {
    Own(h, j, t) && Is(h, j, t, CGate(q)) && h.ws[j].gate.started
  }

  ghost predicate Settles(h: History, j: nat, t: Tid, q: Request)
    requires |h.ws| == |h.labs| + 1
  {
    Own(h, j, t) && t in h.ws[j].threads
    && var pc := h.ws[j].threads[t];
       pc.CBack? && pc.q == q
       && if pc.m.MEnter? then !h.cfg.docker
          else pc.m.MBody? && (h.labs[j].c.branch.Finish? || h.labs[j].c.branch.Fail?)
  }

  /** In the Docker body everything may fail; otherwise the call answers. */
  ghost predicate Answers(h: History, j: nat, t: Tid, q: Request)
    requires |h.ws| == |h.labs| + 1
  {
    Settles(h, j, t, q) && (h.ws[j].threads[t].m.MEnter? || h.labs[j].c.branch.Finish?)
  }

  /**
   The record a create answers with: the one there was, or else a new one of the request under the new generation. It
   is an error if the one there was has another work directory; otherwise it has been noted before the end.
   */
  lemma CreatedIsTouched(h: History, j: nat, i: nat, t: Tid, q: Request) returns (n: nat, k: nat)
    requires IsRunOf(h) && j < i <= |h.labs| && Answers(h, j, t, q) && Is(h, i, t, Done)
    ensures q.id in h.ws[j + 1].data.records
    ensures h.ws[j + 1].data.records[q.id]
         == if q.id in h.ws[j].data.records then h.ws[j].data.records[q.id]
            else Rec(q.id, h.labs[j].c.token, q.workdir, q.lifecycle, q.idle)
    ensures var r := h.ws[j + 1].data.records[q.id];
            r.workdir == q.workdir ==> j < n <= k < i && Notes(h, n, t, r) && Stamps(h, k, t, r)
  {
    var pc := h.ws[j].threads[t];
    var a, o := Moves(h, j, t, pc);
    var r := h.ws[j + 1].data.records[q.id];
    n, k := 0, 0;
    if r.workdir == q.workdir {
      n, k := CarryingStamps(h, j + 1, i, t, After(h.cfg, pc, h.labs[j].c, o), r);
    }
  }

  lemma CreateStep(h: History, m: nat, t: Tid, pc: Pc, q: Request) returns (pc': Pc)
    requires IsRunOf(h) && Own(h, m, t) && Is(h, m, t, pc) && Creating(pc, q)
    ensures Is(h, m + 1, t, pc')
    ensures Creating(pc', q) || Refused(h, m, t, q) || Settles(h, m, t, q)
  {
    var a, o := Moves(h, m, t, pc);
    pc' := After(h.cfg, pc, h.labs[m].c, o);
  }

  /** A create, from its start to its end: the gate refused it, or the backend failed or answered. */
  lemma {:induction false} EveryCreateSettles(h: History, m: nat, i: nat, t: Tid, pc: Pc, q: Request)
    returns (j: nat)
    requires IsRunOf(h) && m <= i <= |h.labs| && Is(h, m, t, pc) && Creating(pc, q) && Is(h, i, t, Done)
    ensures m <= j < i && (Refused(h, j, t, q) || Settles(h, j, t, q))
    decreases i - m
  {
    if !Own(h, m, t) {
      Stays(h, m, t, pc);
      j := EveryCreateSettles(h, m + 1, i, t, pc, q);
    } else {
      var pc' := CreateStep(h, m, t, pc, q);
      if Creating(pc', q) {
        j := EveryCreateSettles(h, m + 1, i, t, pc', q);
      } else {
        j := m;
      }
    }
  }

  // ---------------------------------------------------------------------------------------------------
  // Deletes are carried out and forgotten
  // ---------------------------------------------------------------------------------------------------

  /** The fence that a delete goes by. */
  predicate Fenced(k: Kind, fence: Fence) {
    match k
    case Api(f) => fence == f
    case Job(_, r) => fence == Exactly(r.gen)
    case Reap(gen, _) => gen.Some? ==> fence == Exactly(gen.value)
  }

  /** Step `n` of thread `t` leaves the id untracked, or tracked under another generation than the fence names. */
  ghost predicate Forgets(h: History, n: nat, t: Tid, id: Id, fence: Fence)
    requires |h.ws| == |h.labs| + 1
  {
    && Own(h, n, t)
    && var tr, tr' := h.ws[n].data.tracker, h.ws[n + 1].data.tracker;
       && (fence.Absent? ==> id !in tr'.last)
       && (fence.Exactly? && id in tr'.last ==> tr'.last[id].0 != Some(fence.gen))
       && (id in tr.last && id !in tr'.last ==> id !in tr'.timeouts)
  }

  /** The backend has deleted the sandbox, and the thread has yet to forget it. */
  predicate Forgetting(pc: Pc, id: Id, k: Kind) {
    || (pc.DBack? && pc.id == id && pc.k == k && (pc.e.EFree? || pc.e.EUnlock?) && pc.e.res == Deleted)
    || (!k.Reap? && (pc == DEnd(id, k, Deleted) || pc == DForget(id, k)))
    || (k.Reap? && pc == RForget(id, k))
  }

  lemma ForgetInBackend(h: History, m: nat, t: Tid, pc: Pc, id: Id, k: Kind) returns (pc': Pc)
    requires IsRunOf(h) && Own(h, m, t) && Is(h, m, t, pc) && Forgetting(pc, id, k) && pc.DBack?
    ensures Is(h, m + 1, t, pc') && Forgetting(pc', id, k)
  {
    var a, o := Moves(h, m, t, pc);
    pc' := After(h.cfg, pc, h.labs[m].c, o);
  }

  lemma ForgetStep(h: History, m: nat, t: Tid, pc: Pc, id: Id, k: Kind, fence: Fence) returns (pc': Pc)
    requires IsRunOf(h) && Own(h, m, t) && Is(h, m, t, pc) && Forgetting(pc, id, k) && Fenced(k, fence)
    requires k.Reap? ==> k.gen.Some?
    ensures Is(h, m + 1, t, pc') && (Forgetting(pc', id, k) || Forgets(h, m, t, id, fence))
  {
    if pc.DBack? {
      pc' := ForgetInBackend(h, m, t, pc, id, k);
    } else {
      var a, o := Moves(h, m, t, pc);
      pc' := After(h.cfg, pc, h.labs[m].c, o);
    }
  }

  /** Where a thread is when it has done with a delete. */
  predicate Past(pc: Pc) {
    pc.Done? || pc.JDone? || pc.RIdle? || pc.DBegin?
  }

  lemma {:induction false} ForgettingForgets(h: History, m: nat, i: nat, t: Tid, pc: Pc, end: Pc,
                                             id: Id, k: Kind, fence: Fence) returns (n: nat)
    requires IsRunOf(h) && m <= i <= |h.labs| && Is(h, m, t, pc) && Is(h, i, t, end)
    requires Forgetting(pc, id, k) && Past(end) && Fenced(k, fence) && (k.Reap? ==> k.gen.Some?)
    ensures m <= n < i && Forgets(h, n, t, id, fence)
    decreases i - m
  {
    if !Own(h, m, t) {
      Stays(h, m, t, pc);
      n := ForgettingForgets(h, m + 1, i, t, pc, end, id, k, fence);
    } else {
      var pc' := ForgetStep(h, m, t, pc, id, k, fence);
      if Forgets(h, m, t, id, fence) {
        n := m;
      } else {
        n := ForgettingForgets(h, m + 1, i, t, pc', end, id, k, fence);
      }
    }
  }

  /** Step `j` of thread `t` is the body of a delete, and it does not fail. */
  ghost predicate Erases(h: History, j: nat, t: Tid, id: Id, k: Kind)
    requires |h.ws| == |h.labs| + 1
  {
    Own(h, j, t) && t in h.ws[j].threads
    && var pc := h.ws[j].threads[t];
       pc.DBack? && pc.id == id && pc.k == k
       && if pc.e.EEnter? then !h.cfg.docker else pc.e.EBody? && !h.labs[j].c.branch.Fail?
  }

  /**
   A delete, whoever asked for it: unless the sandbox has another generation than expected, it is gone after the body,
   and by the time the thread has done with it the tracker has forgotten that generation.
   */
  lemma DeletedIsForgotten(h: History, j: nat, i: nat, t: Tid, end: Pc, id: Id, k: Kind, fence: Fence)
    returns (n: nat)
    requires IsRunOf(h) && j < i <= |h.labs| && Erases(h, j, t, id, k) && Is(h, i, t, end) && Past(end)
    requires Fenced(k, fence) && (k.Reap? ==> k.gen.Some?)
    ensures var before, after := h.ws[j].data.records, h.ws[j + 1].data.records;
            if id in before && fence.Exactly? && before[id].gen != fence.gen then after == before
            else after == before - {id} && j < n < i && Forgets(h, n, t, id, fence)
  {
    var pc := h.ws[j].threads[t];
    var before := h.ws[j].data.records;
    var a, o := Moves(h, j, t, pc);
    n := 0;
    if !(id in before && fence.Exactly? && before[id].gen != fence.gen) {
      var pc' := After(h.cfg, pc, h.labs[j].c, o);
      n := ForgettingForgets(h, j + 1, i, t, pc', end, id, k, fence);
    }
  }

  /** A delete that has not reached its body. */
  predicate Deleting(pc: Pc, id: Id, k: Kind) {
    || pc == DBegin(id, k) || pc == DWait(id, k)
    || (pc.DBack? && pc.id == id && pc.k == k && !pc.e.EFree? && !pc.e.EUnlock?)
  }

  ghost predicate Fails(h: History, j: nat, t: Tid, id: Id, k: Kind)
    requires |h.ws| == |h.labs| + 1
  {
    Own(h, j, t) && t in h.ws[j].threads
    && var pc := h.ws[j].threads[t];
       pc.DBack? && pc.id == id && pc.k == k && pc.e.EBody? && h.labs[j].c.branch.Fail?
  }

  lemma DeleteStep(h: History, m: nat, t: Tid, pc: Pc, id: Id, k: Kind) returns (pc': Pc)
    requires IsRunOf(h) && Own(h, m, t) && Is(h, m, t, pc) && Deleting(pc, id, k) && !k.Reap?
    ensures Is(h, m + 1, t, pc')
    ensures Deleting(pc', id, k) || Erases(h, m, t, id, k) || Fails(h, m, t, id, k)
  {
    var a, o := Moves(h, m, t, pc);
    pc' := After(h.cfg, pc, h.labs[m].c, o);
  }

  /** A delete request or a quiesce job, from its start to its end: it has been through the body, or that failed. */
  lemma {:induction false} EveryDeleteErases(h: History, m: nat, i: nat, t: Tid, pc: Pc, end: Pc,
                                             id: Id, k: Kind) returns (j: nat)
    requires IsRunOf(h) && m <= i <= |h.labs| && Is(h, m, t, pc) && Is(h, i, t, end)
    requires Deleting(pc, id, k) && !k.Reap? && (end.Done? || end.JDone?)
    ensures m <= j < i && (Erases(h, j, t, id, k) || Fails(h, j, t, id, k))
    decreases i - m
  {
    if !Own(h, m, t) {
      Stays(h, m, t, pc);
      j := EveryDeleteErases(h, m + 1, i, t, pc, end, id, k);
    } else {
      var pc' := DeleteStep(h, m, t, pc, id, k);
      if Erases(h, m, t, id, k) || Fails(h, m, t, id, k) {
        j := m;
      } else {
        j := EveryDeleteErases(h, m + 1, i, t, pc', end, id, k);
      }
    }
  }

  // ---------------------------------------------------------------------------------------------------
  // When the reaper condemns
  // ---------------------------------------------------------------------------------------------------

  /** Activity and policy of the id are not touched from state `i` to state `j`. */
  ghost predicate Unwritten(h: History, i: nat, j: nat, id: Id)
    requires j < |h.ws| == |h.labs| + 1
  {
    forall m | i <= m < j :: SameEntry(h.ws[m].data.tracker, h.ws[m + 1].data.tracker, id)
  }

  predicate SameEntry(a: Tracker, b: Tracker, id: Id) {
    && (id in a.last <==> id in b.last) && (id in a.last ==> a.last[id] == b.last[id])
    && (id in a.timeouts <==> id in b.timeouts) && (id in a.timeouts ==> a.timeouts[id] == b.timeouts[id])
  }

  lemma {:induction false} StillThere(h: History, i: nat, j: nat, id: Id)
    requires IsRunOf(h) && i <= j <= |h.labs| && Unwritten(h, i, j, id)
    ensures SameEntry(h.ws[i].data.tracker, h.ws[j].data.tracker, id)
    decreases j
  {
    if i < j {
      StillThere(h, i, j - 1, id);
      assert SameEntry(h.ws[j - 1].data.tracker, h.ws[j - 1 + 1].data.tracker, id);
    }
  }

  /**
   The reaper goes by the numbers of the entry. A sandbox was active at `active`, its timeout is `s` seconds, and its
   entry is not written until a reaping thread rechecks it under that generation: the thread goes on to delete it if and
   only if `s` is positive and the clock stands at `active + s` or later.
   */
  lemma CondemnedExactly(h: History, i: nat, j: nat, t: Tid, id: Id, k: Kind, active: Time, s: int)
    requires IsRunOf(h) && i <= j && Own(h, j, t) && Is(h, j, t, RCheck(id, k)) && k.Reap?
    requires var tr := h.ws[i].data.tracker;
             && id in tr.last && tr.last[id] == (k.gen, active)
             && (if id in tr.timeouts && tr.timeouts[id].Some? then s == tr.timeouts[id].value else s == h.cfg.limit)
    requires Unwritten(h, i, j, id)
    ensures if s > 0 && h.labs[j].c.now >= active + s as real then Is(h, j + 1, t, DBack(id, k, EEnter))
            else Is(h, j + 1, t, DEnd(id, k, Failed))
  {
    StillThere(h, i, j, id);
    RecheckByNumbers(h.ws[j].data.tracker, h.cfg.limit, id, k.gen, active, s, h.labs[j].c.now);
    RecheckStep(h, j, t, id, k);
  }

  lemma RecheckByNumbers(tr: Tracker, limit: int, id: Id, gen: Option<Gen>, active: Time, s: int, now: Time)
    requires id in tr.last && tr.last[id] == (gen, active)
    requires if id in tr.timeouts && tr.timeouts[id].Some? then s == tr.timeouts[id].value else s == limit
    ensures StillExpired(tr, limit, id, gen, now) <==> s > 0 && now >= active + s as real
  {
  }

  lemma RecheckStep(h: History, j: nat, t: Tid, id: Id, k: Kind)
    requires IsRunOf(h) && Own(h, j, t) && Is(h, j, t, RCheck(id, k)) && k.Reap?
    ensures if StillExpired(h.ws[j].data.tracker, h.cfg.limit, id, k.gen, h.labs[j].c.now) then
              Is(h, j + 1, t, DBack(id, k, EEnter))
            else Is(h, j + 1, t, DEnd(id, k, Failed))
  {
    var a, o := Moves(h, j, t, RCheck(id, k));
  }

  /** A pair that is not tracked any more, or under another generation, is spared. */
  lemma SparedIfReplaced(h: History, j: nat, t: Tid, id: Id, k: Kind)
    requires IsRunOf(h) && Own(h, j, t) && Is(h, j, t, RCheck(id, k)) && k.Reap?
    requires var tr := h.ws[j].data.tracker; id in tr.last ==> tr.last[id].0 != k.gen
    ensures Is(h, j + 1, t, DEnd(id, k, Failed))
  {
    var a, o := Moves(h, j, t, RCheck(id, k));
  }

  /** In the middle of one pair of a pass. */
  predicate InPass(pc: Pc, id: Id, k: Kind) {
    || pc == RCheck(id, k) || pc == RForget(id, k)
    || (pc.DBack? && pc.id == id && pc.k == k) || (pc.DEnd? && pc.id == id && pc.k == k)
  }

  predicate BeforeCheck(pc: Pc, id: Id, k: Kind) {
    pc == DBegin(id, k) || pc == DWait(id, k)
  }

  lemma CheckStep(h: History, m: nat, t: Tid, pc: Pc, id: Id, k: Kind) returns (pc': Pc)
    requires IsRunOf(h) && Own(h, m, t) && Is(h, m, t, pc) && k.Reap? && BeforeCheck(pc, id, k)
    ensures Is(h, m + 1, t, pc') && (BeforeCheck(pc', id, k) || pc' == RCheck(id, k))
  {
    var a, o := Moves(h, m, t, pc);
    pc' := After(h.cfg, pc, h.labs[m].c, o);
  }

  lemma PassStep(h: History, m: nat, t: Tid, pc: Pc, id: Id, k: Kind) returns (pc': Pc)
    requires IsRunOf(h) && Own(h, m, t) && Is(h, m, t, pc) && k.Reap? && InPass(pc, id, k)
    ensures Is(h, m + 1, t, pc')
    ensures InPass(pc', id, k) || pc' == if k.rest == [] then RIdle else DBegin(k.rest[0].0, Reap(k.rest[0].1, k.rest[1..]))
  {
    var a, o := Moves(h, m, t, pc);
    pc' := After(h.cfg, pc, h.labs[m].c, o);
  }

  /** Step `j` of thread `t` rechecks this pair. */
  ghost predicate Rechecks(h: History, j: nat, t: Tid, pair: (Id, Option<Gen>))
    requires |h.ws| == |h.labs| + 1
  {
    Own(h, j, t) && t in h.ws[j].threads
    && var pc := h.ws[j].threads[t]; pc.RCheck? && pc.k.Reap? && (pc.id, pc.k.gen) == pair
  }

  lemma {:induction false} ToCheck(h: History, m: nat, i: nat, t: Tid, pc: Pc, id: Id, k: Kind)
    returns (j: nat)
    requires IsRunOf(h) && m <= i <= |h.labs| && Is(h, m, t, pc) && Is(h, i, t, RIdle) && k.Reap?
    requires BeforeCheck(pc, id, k) || pc == RCheck(id, k)
    ensures m <= j < i && Own(h, j, t) && Is(h, j, t, RCheck(id, k))
    decreases i - m
  {
    if !Own(h, m, t) {
      Stays(h, m, t, pc);
      j := ToCheck(h, m + 1, i, t, pc, id, k);
    } else if pc == RCheck(id, k) {
      j := m;
    } else {
      var pc' := CheckStep(h, m, t, pc, id, k);
      j := ToCheck(h, m + 1, i, t, pc', id, k);
    }
  }

  lemma {:induction false} ToNext(h: History, m: nat, i: nat, t: Tid, pc: Pc, id: Id, k: Kind)
    returns (j: nat)
    requires IsRunOf(h) && m <= i <= |h.labs| && Is(h, m, t, pc) && Is(h, i, t, RIdle) && k.Reap?
    requires InPass(pc, id, k) && k.rest != []
    ensures m < j <= i && Is(h, j, t, DBegin(k.rest[0].0, Reap(k.rest[0].1, k.rest[1..])))
    decreases i - m
  {
    if !Own(h, m, t) {
      Stays(h, m, t, pc);
      j := ToNext(h, m + 1, i, t, pc, id, k);
    } else {
      var pc' := PassStep(h, m, t, pc, id, k);
      if InPass(pc', id, k) {
        j := ToNext(h, m + 1, i, t, pc', id, k);
      } else {
        j := m + 1;
      }
    }
  }

  /** The pairs that are still to come, from this one on. */
  function Pairs(id: Id, k: Kind): seq<(Id, Option<Gen>)>
    requires k.Reap?
  {
    [(id, k.gen)] + k.rest
  }

  lemma NextPair(h: History, m: nat, i: nat, t: Tid, id: Id, k: Kind) returns (next: nat, id': Id, k': Kind)
    requires IsRunOf(h) && m <= i <= |h.labs| && Is(h, m, t, DBegin(id, k)) && Is(h, i, t, RIdle)
    requires k.Reap? && k.rest != []
    ensures m < next <= i && Is(h, next, t, DBegin(id', k')) && k'.Reap? && Pairs(id', k') == Pairs(id, k)[1..]
  {
    var j := ToCheck(h, m, i, t, DBegin(id, k), id, k);
    next := ToNext(h, j, i, t, RCheck(id, k), id, k);
    id', k' := k.rest[0].0, Reap(k.rest[0].1, k.rest[1..]);
    assert (id', k'.gen) == k.rest[0];
  }

  /** One pair of a pass, and then each of the rest: all are rechecked, in order, before the thread is idle again. */
  lemma {:induction false} PassRechecks(h: History, m: nat, i: nat, t: Tid, id: Id, k: Kind, x: nat)
    returns (j: nat)
    requires IsRunOf(h) && m <= i <= |h.labs| && Is(h, m, t, DBegin(id, k)) && Is(h, i, t, RIdle)
    requires k.Reap? && x < |Pairs(id, k)|
    ensures m <= j < i && Rechecks(h, j, t, Pairs(id, k)[x])
    decreases x
  {
    if x == 0 {
      j := ToCheck(h, m, i, t, DBegin(id, k), id, k);
    } else {
      var next, id', k' := NextPair(h, m, i, t, id, k);
      j := PassRechecks(h, next, i, t, id', k', x - 1);
    }
  }

  /** Every pair that a pass of the reaper has found is rechecked before the next pass. */
  lemma EachFoundIsRechecked(h: History, m: nat, i: nat, t: Tid, x: nat) returns (j: nat)
    requires IsRunOf(h) && m < i <= |h.labs| && Own(h, m, t) && Is(h, m, t, RIdle)
    requires Is(h, i, t, RIdle) && x < |h.labs[m].c.found|
    ensures m < j < i && Rechecks(h, j, t, h.labs[m].c.found[x])
  {
    var found := h.labs[m].c.found;
    var a, o := Moves(h, m, t, RIdle);
    var k := Reap(found[0].1, found[1..]);
    assert Pairs(found[0].0, k) == found by {
      assert (found[0].0, found[0].1) == found[0];
    }
    j := PassRechecks(h, m + 1, i, t, found[0].0, k, x);
  }

  /** What a pass finds is what is past its timeout when it looks. */
  lemma FoundByNumbers(h: History, m: nat, t: Tid, id: Id, s: int)
    requires IsRunOf(h) && Own(h, m, t) && Is(h, m, t, RIdle)
    requires var tr := h.ws[m].data.tracker;
             && id in tr.last
             && (if id in tr.timeouts && tr.timeouts[id].Some? then s == tr.timeouts[id].value else s == h.cfg.limit)
    ensures var last := h.ws[m].data.tracker.last[id];
            (id, last.0) in h.labs[m].c.found <==> h.cfg.limit > 0 && s > 0 && h.labs[m].c.now >= last.1 + s as real
  {
    var a, o := Moves(h, m, t, RIdle);
  }

  /** The reaper starts with the inventory: every sandbox there was is tracked, with a policy, before its first pass. */
  lemma {:induction false} SeededIsTracked(h: History, m: nat, i: nat, t: Tid, pc: Pc, recs: seq<Rec>)
    returns (n: nat)
    requires IsRunOf(h) && m <= i <= |h.labs| && Is(h, m, t, pc) && pc == RSeed(recs) && Is(h, i, t, RIdle)
    ensures m <= n < i && Own(h, n, t)
    ensures forall r | r in recs ::
        r.id in h.ws[n + 1].data.tracker.last && r.id in h.ws[n + 1].data.tracker.timeouts
    decreases i - m
  {
    if !Own(h, m, t) {
      Stays(h, m, t, pc);
      n := SeededIsTracked(h, m + 1, i, t, pc, recs);
    } else {
      var a, o := Moves(h, m, t, pc);
      n := m;
      var tr := h.ws[m].data.tracker;
      forall r | r in recs
        ensures r.id in h.ws[n + 1].data.tracker.last && r.id in h.ws[n + 1].data.tracker.timeouts
      {
        SeedKeepsTracked(tr, recs, h.labs[m].c.now, r.id);
      }
    }
  }
}
