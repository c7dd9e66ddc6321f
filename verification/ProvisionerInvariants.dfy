/** What every reachable state of the provisioner satisfies. */
module ProvisionerInvariants {
  import opened Prelude
  import opened SandboxRecords
  import opened IdleReaper
  import opened Provisioner
  import P = OperationPins
  import G = QuiescenceGate
  import K = SandboxLocks

  // ---------------------------------------------------------------------------------------------------
  // Every step of the provisioner is a step of each component protocol, or invisible to it
  // ---------------------------------------------------------------------------------------------------

  /** A critical section touches one component and no thread. */
  lemma ApplyEffect(cfg: Config, w: World, t: Tid, a: Act)
    requires Ready(cfg, w, t, a)
    ensures var (w', o) := Apply(cfg, w, t, a);
            && w'.threads == w.threads
            && (if a.APin? then t !in w.pins.waiters && (w'.pins, o.ok) == P.Apply(w.pins, t, a.p)
                else w'.pins == w.pins)
            && (if a.AGate? then t !in w.gate.waiters && (w'.gate, o.ok) == G.Apply(w.gate, t, a.g)
                else w'.gate == w.gate)
            && (if a.ALock? then K.Ready(w.locks, t, a.k) && (w'.locks, o.lock) == K.Apply(w.locks, t, a.k)
                else w'.locks == w.locks)
            && (if a.AData? then Fitting(cfg, w.data, a.d) && (w'.data, o) == ApplyData(cfg, w.data, a.d)
                else w'.data == w.data)
  {
  }

  /** An ordinary step, taken apart. */
  ghost predicate Ordinary(cfg: Config, w: World, t: Tid, c: Choice) {
    CanRun(cfg, w, t, c) && !Queueing(w.threads[t])
  }

  lemma OrdinaryStep(cfg: Config, w: World, t: Tid, c: Choice) returns (a: Act, o: Out, pc: Pc)
    requires Ordinary(cfg, w, t, c)
    ensures Ready(cfg, w, t, a) && o == Apply(cfg, w, t, a).1
    ensures Next(cfg, w, Run(t, c)) == Put(Apply(cfg, w, t, a).0, t, pc)
    ensures a == ActOf(cfg, w.threads[t], c) && pc == After(cfg, w.threads[t], c, o)
  {
    a := ActOf(cfg, w.threads[t], c);
    o := Apply(cfg, w, t, a).1;
    pc := After(cfg, w.threads[t], c, o);
  }

  /** One step of the pin protocol, or none. */
  ghost predicate PinStep(s: P.State, s': P.State) {
    s' == s || exists l :: P.Can(s, l) && s' == P.Next(s, l)
  }

  lemma PinStepKept(s: P.State, s': P.State)
    requires P.Inv(s) && PinStep(s, s')
    ensures P.Inv(s')
  {
    if s' != s {
      var l :| P.Can(s, l) && s' == P.Next(s, l);
      P.InvKept(s, l);
    }
  }

  lemma PinMove(s: P.State, t: Tid, a: Act, o: Out, r: P.Role, s': P.State)
    requires t in s.roles
    requires FitsPin(a, o, s.roles[t], r) && s'.roles == s.roles[t := r]
    requires if a.APin? then t !in s.pins.waiters && (s'.pins, o.ok) == P.Apply(s.pins, t, a.p) else s'.pins == s.pins
    ensures PinStep(s, s')
  {
    if a.APin? {
      assert P.Can(s, P.Do(t, a.p)) && s' == P.Next(s, P.Do(t, a.p));
    } else if r != s.roles[t] {
      assert P.Can(s, P.Arrive(t, r.id)) && s' == P.Next(s, P.Arrive(t, r.id));
    } else {
      assert s' == s;
    }
  }

  lemma GateMove(s: G.State, t: Tid, a: Act, o: Out, r: G.Role, s': G.State)
    requires G.Inv(s) && t in s.roles
    requires FitsGate(a, o, s.roles[t], r) && s'.roles == s.roles[t := r]
    requires if a.AGate? then t !in s.gate.waiters && (s'.gate, o.ok) == G.Apply(s.gate, t, a.g) else s'.gate == s.gate
    ensures G.Inv(s') && (G.Quiet(s) ==> G.Quiet(s'))
  {
    if a.AGate? {
      G.InvKept(s, G.Do(t, a.g));
      if G.Quiet(s) {
        G.QuietKept(s, G.Do(t, a.g));
      }
    } else if r != s.roles[t] {
      G.InvKept(s, G.Finish(t));
    } else {
      assert s' == s;
    }
  }

  lemma LockMove(s: K.State, slots: nat, t: Tid, a: Act, o: Out, r: K.Role, s': K.State)
    requires K.Inv(s, slots) && t in s.roles
    requires FitsLock(a, o, s.roles[t], r) && s'.roles == s.roles[t := r]
    requires if a.ALock? then K.Ready(s.locks, t, a.k) && (s'.locks, o.lock) == K.Apply(s.locks, t, a.k)
             else s'.locks == s.locks
    ensures K.Inv(s', slots)
  {
    if a.ALock? {
      K.InvKept(s, K.Do(t, a.k), slots);
    } else {
      assert s' == s;
    }
  }

  /** The three component invariants. */
  ghost predicate Sound(cfg: Config, w: World) {
    && P.Inv(PinView(w))
    && G.Inv(GateView(w))
    && K.Inv(LockView(w), cfg.concurrency)
  }

  lemma PinViews(w: World, t: Tid, pc: Pc)
    ensures PinView(Put(w, t, pc)) == P.State(w.pins, PinRoles(w.threads)[t := PinRole(pc)])
  {
    assert PinRoles(w.threads[t := pc]) == PinRoles(w.threads)[t := PinRole(pc)];
  }

  lemma GateViews(w: World, t: Tid, pc: Pc)
    ensures GateView(Put(w, t, pc)) == G.State(w.gate, GateRoles(w.threads)[t := GateRole(pc)])
  {
    assert GateRoles(w.threads[t := pc]) == GateRoles(w.threads)[t := GateRole(pc)];
  }

  lemma LockViews(w: World, t: Tid, pc: Pc)
    ensures LockView(Put(w, t, pc)) == K.State(w.locks, LockRoles(w.threads)[t := LockRole(pc)])
  {
    assert LockRoles(w.threads[t := pc]) == LockRoles(w.threads)[t := LockRole(pc)];
  }

  lemma PinOrdinary(cfg: Config, w: World, t: Tid, c: Choice)
    requires Ordinary(cfg, w, t, c)
    ensures PinStep(PinView(w), PinView(Next(cfg, w, Run(t, c))))
  {
    var a, o, pc := OrdinaryStep(cfg, w, t, c);
    ApplyEffect(cfg, w, t, a);
    PinViews(Apply(cfg, w, t, a).0, t, pc);
    PinConformance(cfg, w.threads[t], c, o);
    PinMove(PinView(w), t, a, o, PinRole(pc), PinView(Next(cfg, w, Run(t, c))));
  }

  lemma GateOrdinary(cfg: Config, w: World, t: Tid, c: Choice)
    requires Ordinary(cfg, w, t, c) && G.Inv(GateView(w))
    ensures G.Inv(GateView(Next(cfg, w, Run(t, c))))
    ensures G.Quiet(GateView(w)) ==> G.Quiet(GateView(Next(cfg, w, Run(t, c))))
  {
    var a, o, pc := OrdinaryStep(cfg, w, t, c);
    ApplyEffect(cfg, w, t, a);
    GateViews(Apply(cfg, w, t, a).0, t, pc);
    GateConformance(cfg, w.threads[t], c, o);
    GateMove(GateView(w), t, a, o, GateRole(pc), GateView(Next(cfg, w, Run(t, c))));
  }

  lemma LockOrdinary(cfg: Config, w: World, t: Tid, c: Choice)
    requires Ordinary(cfg, w, t, c) && K.Inv(LockView(w), cfg.concurrency)
    ensures K.Inv(LockView(Next(cfg, w, Run(t, c))), cfg.concurrency)
  {
    var a, o, pc := OrdinaryStep(cfg, w, t, c);
    ApplyEffect(cfg, w, t, a);
    LockViews(Apply(cfg, w, t, a).0, t, pc);
    LockConformance(cfg, w.threads[t], c, o);
    LockMove(LockView(w), cfg.concurrency, t, a, o, LockRole(pc), LockView(Next(cfg, w, Run(t, c))));
  }

  lemma SameRole<R>(roles: map<Tid, R>, t: Tid, r: R)
    requires t in roles && roles[t] == r
    ensures roles[t := r] == roles
  {
  }

  lemma PinPut(w: World, t: Tid, pc: Pc)
    requires if t in w.threads then PinRole(pc) == PinRole(w.threads[t]) else PinRole(pc) == P.Out || PinRole(pc).WantPin?
    ensures PinStep(PinView(w), PinView(Put(w, t, pc)))
    ensures t in w.threads ==> PinView(Put(w, t, pc)) == PinView(w)
  {
    PinViews(w, t, pc);
    var s, s' := PinView(w), PinView(Put(w, t, pc));
    if t in w.threads {
      SameRole(s.roles, t, PinRole(pc));
    } else if PinRole(pc) == P.Out {
      assert P.Can(s, P.Join(t)) && s' == P.Next(s, P.Join(t));
    } else {
      assert P.Can(s, P.Arrive(t, PinRole(pc).id)) && s' == P.Next(s, P.Arrive(t, PinRole(pc).id));
    }
  }

  lemma GatePut(w: World, t: Tid, pc: Pc)
    requires G.Inv(GateView(w))
    requires if t in w.threads
             then GateRole(pc) == GateRole(w.threads[t]) || (GateRole(w.threads[t]) == G.Began && GateRole(pc) == G.Out)
             else GateRole(pc) == G.Out
    ensures G.Inv(GateView(Put(w, t, pc)))
    ensures G.Quiet(GateView(w)) ==> G.Quiet(GateView(Put(w, t, pc)))
  {
    GateViews(w, t, pc);
    var s := GateView(w);
    if t !in w.threads {
      G.InvKept(s, G.Join(t));
    } else if GateRole(pc) == GateRole(w.threads[t]) {
      SameRole(s.roles, t, GateRole(pc));
    } else {
      G.InvKept(s, G.Finish(t));
    }
  }

  lemma LockPut(w: World, slots: nat, t: Tid, pc: Pc)
    requires K.Inv(LockView(w), slots)
    requires if t in w.threads then LockRole(pc) == LockRole(w.threads[t]) else LockRole(pc) == K.IDLE
    ensures K.Inv(LockView(Put(w, t, pc)), slots)
  {
    LockViews(w, t, pc);
    var s := LockView(w);
    if t in w.threads {
      SameRole(s.roles, t, LockRole(pc));
    } else {
      K.InvKept(s, K.Join(t), slots);
    }
  }

  /** A thread appears, or moves on without touching a component. */
  predicate Harmless(w: World, t: Tid, pc: Pc) {
    if t in w.threads then
      && PinRole(pc) == PinRole(w.threads[t])
      && LockRole(pc) == LockRole(w.threads[t])
      && (GateRole(pc) == GateRole(w.threads[t]) || (GateRole(w.threads[t]) == G.Began && GateRole(pc) == G.Out))
    else
      && (PinRole(pc) == P.Out || PinRole(pc).WantPin?)
      && LockRole(pc) == K.IDLE
      && GateRole(pc) == G.Out
  }

  lemma SoundPut(cfg: Config, w: World, t: Tid, pc: Pc)
    requires Sound(cfg, w) && Harmless(w, t, pc)
    ensures Sound(cfg, Put(w, t, pc))
    ensures G.Quiet(GateView(w)) ==> G.Quiet(GateView(Put(w, t, pc)))
  {
    PinPut(w, t, pc);
    PinStepKept(PinView(w), PinView(Put(w, t, pc)));
    GatePut(w, t, pc);
    LockPut(w, cfg.concurrency, t, pc);
  }

  /** Submitting adds the queued job and leaves every part as it was. */
  lemma QueueSubmit(cfg: Config, w: World, t: Tid, c: Choice)
    requires CanRun(cfg, w, t, c) && Queueing(w.threads[t]) && Submits(w.threads[t], c)
    ensures var job, pc := JobOf(t, w.threads[t]), StepQueue(w, t, c).threads[t];
            && c.tid !in w.threads && Harmless(w, c.tid, job)
            && StepQueue(w, t, c) == Put(Put(w, c.tid, job), t, pc) && Harmless(Put(w, c.tid, job), t, pc)
  {
  }

  lemma SpawnMove(w: World, t: Tid, c: Choice)
    requires t in w.threads && w.threads[t].QSpawn? && !Submits(w.threads[t], c)
    ensures var pc := StepQueue(w, t, c).threads[t];
            StepQueue(w, t, c) == Put(w, t, pc) && Harmless(w, t, pc)
  {
  }

  lemma JobsMove(w: World, t: Tid, c: Choice)
    requires t in w.threads && w.threads[t].QJobs?
    ensures var pc := StepQueue(w, t, c).threads[t];
            StepQueue(w, t, c) == Put(w, t, pc) && Harmless(w, t, pc)
  {
  }

  lemma QueuedMove(w: World, t: Tid, c: Choice)
    requires t in w.threads && w.threads[t].JQueued?
    ensures var pc := StepQueue(w, t, c).threads[t];
            StepQueue(w, t, c) == Put(w, t, pc) && Harmless(w, t, pc)
  {
  }

  lemma QueueMove(w: World, t: Tid, c: Choice)
    requires t in w.threads && Queueing(w.threads[t]) && !Submits(w.threads[t], c)
    ensures var pc := StepQueue(w, t, c).threads[t];
            StepQueue(w, t, c) == Put(w, t, pc) && Harmless(w, t, pc)
  {
    if w.threads[t].QSpawn? {
      SpawnMove(w, t, c);
    } else if w.threads[t].QJobs? {
      JobsMove(w, t, c);
    } else {
      QueuedMove(w, t, c);
    }
  }

  lemma SoundQueue(cfg: Config, w: World, t: Tid, c: Choice)
    requires CanRun(cfg, w, t, c) && Queueing(w.threads[t]) && Sound(cfg, w)
    ensures Sound(cfg, StepQueue(w, t, c))
    ensures G.Quiet(GateView(w)) ==> G.Quiet(GateView(StepQueue(w, t, c)))
  {
    var pc := StepQueue(w, t, c).threads[t];
    if Submits(w.threads[t], c) {
      QueueSubmit(cfg, w, t, c);
      SoundPut(cfg, w, c.tid, JobOf(t, w.threads[t]));
      SoundPut(cfg, Put(w, c.tid, JobOf(t, w.threads[t])), t, pc);
    } else {
      QueueMove(w, t, c);
      SoundPut(cfg, w, t, pc);
    }
  }

  /** Every step of the provisioner is at most one step of the pin protocol. */
  lemma PinRefines(cfg: Config, w: World, lab: Label)
    requires Can(cfg, w, lab)
    ensures PinStep(PinView(w), PinView(Next(cfg, w, lab)))
  {
    match lab
    case Run(t, c) =>
      if Queueing(w.threads[t]) {
        var pc := StepQueue(w, t, c).threads[t];
        if Submits(w.threads[t], c) {
          QueueSubmit(cfg, w, t, c);
          PinPut(w, c.tid, JobOf(t, w.threads[t]));
          PinPut(Put(w, c.tid, JobOf(t, w.threads[t])), t, pc);
        } else {
          QueueMove(w, t, c);
          PinPut(w, t, pc);
        }
      } else {
        PinOrdinary(cfg, w, t, c);
      }
    case Spawn(t, pc) => PinPut(w, t, pc);
    case Reclaim(_) => assert PinView(Next(cfg, w, lab)) == PinView(w);
  }

  lemma SoundReclaim(cfg: Config, w: World, id: Id)
    requires Can(cfg, w, Reclaim(id)) && Sound(cfg, w)
    ensures Sound(cfg, Next(cfg, w, Reclaim(id)))
  {
    assert forall u | u in w.threads :: LockView(w).roles[u] == LockRole(w.threads[u]);
    K.InvKept(LockView(w), K.Collect(id), cfg.concurrency);
  }

  lemma PinsKept(cfg: Config, w: World, t: Tid, c: Choice)
    requires Ordinary(cfg, w, t, c) && P.Inv(PinView(w))
    ensures P.Inv(PinView(Next(cfg, w, Run(t, c))))
  {
    PinOrdinary(cfg, w, t, c);
    PinStepKept(PinView(w), PinView(Next(cfg, w, Run(t, c))));
  }

  lemma SoundOrdinary(cfg: Config, w: World, t: Tid, c: Choice)
    requires Ordinary(cfg, w, t, c) && Sound(cfg, w)
    ensures Sound(cfg, Next(cfg, w, Run(t, c)))
    ensures G.Quiet(GateView(w)) ==> G.Quiet(GateView(Next(cfg, w, Run(t, c))))
  {
    PinsKept(cfg, w, t, c);
    GateOrdinary(cfg, w, t, c);
    LockOrdinary(cfg, w, t, c);
  }

  /** Counting, wake-ups, locks and slots are right after every step; a quiet gate stays quiet. */
  lemma SoundKept(cfg: Config, w: World, lab: Label)
    requires Can(cfg, w, lab) && Sound(cfg, w)
    ensures Sound(cfg, Next(cfg, w, lab))
    ensures G.Quiet(GateView(w)) ==> G.Quiet(GateView(Next(cfg, w, lab)))
  {
    match lab
    case Run(t, c) =>
      if Queueing(w.threads[t]) {
        SoundQueue(cfg, w, t, c);
      } else {
        SoundOrdinary(cfg, w, t, c);
      }
    case Spawn(t, pc) => SoundPut(cfg, w, t, pc);
    case Reclaim(id) => SoundReclaim(cfg, w, id);
  }
}
