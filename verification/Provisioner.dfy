/**
 The provisioner as a whole: request handlers, the idle reaper and the quiesce workers as threads that interleave
 freely. A thread is a program counter; one step is one critical section of one shared object. The bodies of
 backend calls are finite steps, and what they decide from the outside world is a free choice.

 Both backends are covered: with the memory backend a backend call is one atomic step; with the Docker backend it
 takes the lock of the sandbox, may delete a stale container first, needs the process-wide mutex for
 networks, and deletes under a slot.
 */
module Provisioner {
  import opened Prelude
  import opened SandboxRecords
  import opened IdleReaper
  import P = OperationPins
  import G = QuiescenceGate
  import K = SandboxLocks

  datatype Config = Config(
    docker: bool,         // Docker or memory backend
    atomic: bool,         // whether `remember` and `touch` of a request are one step
    limit: int,           // global idle timeout
    concurrency: nat)     // delete slots and workers of a quiesce pool

  ghost predicate GoodConfig(cfg: Config) {
    cfg.concurrency >= 1
  }

  // ---------------------------------------------------------------------------------------------------
  // Program counters
  // ---------------------------------------------------------------------------------------------------

  datatype DelRes = Deleted | Mismatch | Failed | Cancelled

  /** Inside `backend.delete`. */
  datatype ErasePc =
    | EEnter
    | EWait(l: K.Lock)
    | ESlot(l: K.Lock)
    | EBody(l: K.Lock)
    | EFree(l: K.Lock, res: DelRes)
    | EUnlock(l: K.Lock, res: DelRes)

  /** Inside `backend.create`. */
  datatype MakePc =
    | MEnter
    | MWait(l: K.Lock)
    | MBody(l: K.Lock)
    | MNest(l: K.Lock, e: ErasePc)      // delete of a stale container, with the lock held
    | MNetWait(l: K.Lock)
    | MNet(l: K.Lock)
    | MUnlock(l: K.Lock, made: Option<Rec>)

  /** Why a sandbox is being deleted. */
  datatype Kind =
    | Api(fence: Fence)
    | Job(owner: Tid, r: Rec)
    | Reap(gen: Option<Gen>, rest: seq<(Id, Option<Gen>)>)

  datatype Pc =
    // create
    | CGate(q: Request)
    | CPin(q: Request)
    | CBack(q: Request, m: MakePc)
    | CUnpin(q: Request, made: Option<Rec>)
    | CUngate(made: Option<Rec>)
    | Remember(r: Rec)
    | Touch(r: Rec)
    // get, touch and proxy; the terminal proxy is the one that takes no pin
    | RdPin(id: Id)
    | RdDiscover(id: Id, pin: bool)
    | RdStale(id: Id, pin: bool, e: ErasePc)
    | RdNetWait(id: Id, pin: bool)
    | RdNet(id: Id, pin: bool)
    | RdRemember(id: Id, r: Rec)
    | RdTouch(id: Id, r: Rec)
    | RdUnpin(id: Id)
    // delete, for a request, the reaper or a quiesce worker
    | DBegin(id: Id, k: Kind)
    | DWait(id: Id, k: Kind)
    | RCheck(id: Id, k: Kind)
    | DBack(id: Id, k: Kind, e: ErasePc)
    | RForget(id: Id, k: Kind)
    | DEnd(id: Id, k: Kind, res: DelRes)
    | DForget(id: Id, k: Kind)
    // reaper
    | RSeedList
    | RSeed(recs: seq<Rec>)
    | RIdle
    // quiesce
    | QGate
    | QWaitGate
    | QList
    | QSpawn(recs: seq<Rec>, jobs: seq<Tid>)
    | QJobs(recs: seq<Rec>, jobs: seq<Tid>)
    | QOk
    | JQueued(owner: Tid, r: Rec)
    | JDone(r: Rec, res: DelRes)
    | Done

  predicate Finished(pc: Pc) {
    pc.Done? || pc.JDone? || pc.QOk?
  }

  /** What a new thread may start with. */
  predicate Initial(pc: Pc) {
    || pc.CGate? || pc.RdPin? || (pc.RdDiscover? && !pc.pin)
    || (pc.DBegin? && pc.k.Api?) || pc.RSeedList? || pc.QGate?
  }

  // ---------------------------------------------------------------------------------------------------
  // Shared state and the critical sections
  // ---------------------------------------------------------------------------------------------------

  /** `issued` remembers every generation ever handed out. */
  datatype Data = Data(records: map<Id, Rec>, issued: map<Gen, Rec>, tracker: Tracker)

  datatype World = World(
    pins: P.Pins,
    gate: G.Gate,
    locks: K.Locks,
    data: Data,
    threads: map<Tid, Pc>)

  function Boot(cfg: Config): World {
    World(P.FRESH, G.FRESH, K.Fresh(cfg.concurrency), Data(map[], map[], Tracker(map[], map[])), map[])
  }

  datatype DataAct =
    | Make(q: Request, token: Gen)
    | Erase(id: Id, fence: Fence)
    | Discover(id: Id)
    | ListAll(recs: seq<Rec>)
    | Note(r: Rec)
    | Stamp(r: Rec, now: Time)
    | NoteAndStamp(r: Rec, now: Time)
    | Drop(id: Id, fence: Fence)
    | Seed(recs: seq<Rec>, now: Time)
    | Collect(now: Time, found: seq<(Id, Option<Gen>)>)
    | Recheck(id: Id, gen: Option<Gen>, now: Time)

  datatype Act =
    | APin(p: P.Act)
    | AGate(g: G.Act)
    | ALock(k: K.Act)
    | AData(d: DataAct)
    | ALocal

  /** What a critical section tells its caller. */
  datatype Out = Out(ok: bool, lock: Option<K.Lock>, rec: Option<Rec>)

  const PLAIN := Out(true, None, None)

  /** The token is new, and a listing or a reaper pass shows what is there. */
  ghost predicate Fitting(cfg: Config, d: Data, a: DataAct) {
    match a
    case Make(_, token) => token !in d.issued
    case ListAll(recs) => Listing(d.records, recs)
    case Collect(now, found) => Collected(d.tracker, cfg.limit, now, found)
    case _ => true
  }

  function ApplyData(cfg: Config, d: Data, a: DataAct): (Data, Out) {
    match a
    case Make(q, token) =>
      var (records, r) := CreateSpec(d.records, q, token);
      (d.(records := records, issued := if q.id in d.records then d.issued else d.issued[token := NewRec(q, token)]),
       Out(r.Some?, None, r))
    case Erase(id, fence) =>
      var (records, ok) := EraseSpec(d.records, id, fence);
      (d.(records := records), Out(ok, None, None))
    case Discover(id) => (d, Out(true, None, if id in d.records then Some(d.records[id]) else None))
    case ListAll(recs) => (d, PLAIN)
    case Note(r) => (d.(tracker := RememberSpec(d.tracker, r)), PLAIN)
    case Stamp(r, now) => (d.(tracker := TouchSpec(d.tracker, r.id, Some(r.gen), now)), PLAIN)
    case NoteAndStamp(r, now) =>
      (d.(tracker := TouchSpec(RememberSpec(d.tracker, r), r.id, Some(r.gen), now)), PLAIN)
    case Drop(id, fence) => (d.(tracker := ForgetSpec(d.tracker, id, fence)), PLAIN)
    case Seed(recs, now) => (d.(tracker := SeedSpec(d.tracker, recs, now)), PLAIN)
    case Collect(_, _) => (d, PLAIN)
    case Recheck(id, gen, now) => (d, Out(StillExpired(d.tracker, cfg.limit, id, gen, now), None, None))
  }

  /** Whether thread `t` can run the critical section now. */
  ghost predicate Ready(cfg: Config, w: World, t: Tid, a: Act) {
    match a
    case APin(_) => t !in w.pins.waiters
    case AGate(_) => t !in w.gate.waiters
    case ALock(k) => K.Ready(w.locks, t, k)
    case AData(d) => Fitting(cfg, w.data, d)
    case ALocal => true
  }

  ghost function Apply(cfg: Config, w: World, t: Tid, a: Act): (World, Out)
    requires Ready(cfg, w, t, a)
  {
    match a
    case APin(p) => var (p', ok) := P.Apply(w.pins, t, p); (w.(pins := p'), Out(ok, None, None))
    case AGate(g) => var (g', ok) := G.Apply(w.gate, t, g); (w.(gate := g'), Out(ok, None, None))
    case ALock(k) => var (k', l) := K.Apply(w.locks, t, k); (w.(locks := k'), Out(true, l, None))
    case AData(d) => var (d', o) := ApplyData(cfg, w.data, d); (w.(data := d'), o)
    case ALocal => (w, PLAIN)
  }

  // ---------------------------------------------------------------------------------------------------
  // The programs
  // ---------------------------------------------------------------------------------------------------

  datatype Branch = Finish | Launch | Nest | Net | Fail

  /** What the outside world decides for one step. */
  datatype Choice = Choice(
    now: Time,
    token: Gen,
    lock: K.Lock,
    branch: Branch,
    recs: seq<Rec>,
    found: seq<(Id, Option<Gen>)>,
    tid: Tid,
    giveUp: bool)

  function FenceOf(k: Kind): Fence {
    match k
    case Api(fence) => fence
    case Job(_, r) => Exactly(r.gen)
    case Reap(gen, _) => if gen.Some? then Exactly(gen.value) else Absent
  }

  datatype EStep = EGo(e: ErasePc) | EEnd(res: DelRes)

  function EraseAct(cfg: Config, e: ErasePc, id: Id, fence: Fence, c: Choice): Act {
    match e
    case EEnter => if cfg.docker then ALock(K.Lookup(id, c.lock)) else AData(Erase(id, fence))
    case EWait(l) => ALock(K.Take(l))
    case ESlot(_) => ALock(K.TakeSlot)
    case EBody(_) => if c.branch.Fail? then ALocal else AData(Erase(id, fence))
    case EFree(_, _) => ALock(K.DropSlot)
    case EUnlock(l, _) => ALock(K.Drop(l))
  }

  function EraseAfter(cfg: Config, e: ErasePc, c: Choice, o: Out): EStep {
    var res := if o.ok then Deleted else Mismatch;
    match e
    case EEnter => if cfg.docker && o.lock.Some? then EGo(EWait(o.lock.value)) else EEnd(res)
    case EWait(l) => EGo(ESlot(l))
    case ESlot(l) => EGo(EBody(l))
    case EBody(l) => EGo(EFree(l, if c.branch.Fail? then Failed else res))
    case EFree(l, r) => EGo(EUnlock(l, r))
    case EUnlock(_, r) => EEnd(r)
  }

  datatype MStep = MGo(m: MakePc) | MEnd(res: Option<Rec>)

  function MakeAct(cfg: Config, m: MakePc, q: Request, c: Choice): Act {
    match m
    case MEnter => if cfg.docker then ALock(K.Lookup(q.id, c.lock)) else AData(Make(q, c.token))
    case MWait(l) => ALock(K.Take(l))
    case MBody(_) => if c.branch.Finish? || c.branch.Launch? then AData(Make(q, c.token)) else ALocal
    case MNest(_, e) => EraseAct(cfg, e, q.id, Absent, c)
    case MNetWait(_) => ALock(K.TakeMutex)
    case MNet(_) => ALock(K.DropMutex)
    case MUnlock(l, _) => ALock(K.Drop(l))
  }

  function MakeAfter(cfg: Config, m: MakePc, c: Choice, o: Out): MStep {
    match m
    case MEnter => if cfg.docker && o.lock.Some? then MGo(MWait(o.lock.value)) else MEnd(o.rec)
    case MWait(l) => MGo(MBody(l))
    case MBody(l) =>
      (match c.branch
       case Finish => MGo(MUnlock(l, o.rec))
       case Launch => MGo(MBody(l))
       case Nest => MGo(MNest(l, EEnter))
       case Net => MGo(MNetWait(l))
       case Fail => MGo(MUnlock(l, None)))
    case MNest(l, e) =>
      (match EraseAfter(cfg, e, c, o)
       case EGo(e') => MGo(MNest(l, e'))
       case EEnd(_) => MGo(MBody(l)))
    case MNetWait(l) => MGo(MNet(l))
    case MNet(l) => MGo(MBody(l))
    case MUnlock(_, res) => MEnd(res)
  }

  /** The lookup of a request succeeds. One that fails, or whose proxied call does, goes on as if there were no record. */
  predicate Finds(cfg: Config, c: Choice) {
    c.branch.Finish? || (!cfg.docker && !c.branch.Fail?)
  }

  /** The critical section a thread is about to run. Queue bookkeeping of quiesce is in `Step`. */
  function ActOf(cfg: Config, pc: Pc, c: Choice): Act {
    match pc
    case CGate(_) => AGate(G.Enter)
    case CPin(q) => APin(P.Acquire(q.id))
    case CBack(q, m) => MakeAct(cfg, m, q, c)
    case CUnpin(q, _) => APin(P.Release(q.id))
    case CUngate(_) => AGate(G.Leave)
    case Remember(r) => AData(if cfg.atomic then NoteAndStamp(r, c.now) else Note(r))
    case Touch(r) => AData(Stamp(r, c.now))
    case RdPin(id) => APin(P.Acquire(id))
    case RdDiscover(id, _) => if Finds(cfg, c) then AData(Discover(id)) else ALocal
    case RdStale(id, _, e) => EraseAct(cfg, e, id, Absent, c)
    case RdNetWait(_, _) => ALock(K.TakeMutex)
    case RdNet(_, _) => ALock(K.DropMutex)
    case RdRemember(_, r) => AData(if cfg.atomic then NoteAndStamp(r, c.now) else Note(r))
    case RdTouch(_, r) => AData(Stamp(r, c.now))
    case RdUnpin(id) => APin(P.Release(id))
    case DBegin(id, _) => APin(P.Begin(id))
    case DWait(id, _) => APin(P.Recheck(id))
    case RCheck(id, k) => AData(Recheck(id, if k.Reap? then k.gen else None, c.now))
    case DBack(id, k, e) => EraseAct(cfg, e, id, FenceOf(k), c)
    case RForget(id, k) => AData(Drop(id, FenceOf(k)))
    case DEnd(id, _, _) => APin(P.End(id))
    case DForget(id, k) => AData(Drop(id, FenceOf(k)))
    case RSeedList => AData(ListAll(c.recs))
    case RSeed(recs) => AData(Seed(recs, c.now))
    case RIdle => AData(Collect(c.now, c.found))
    case QGate => AGate(G.Begin)
    case QWaitGate => AGate(G.Recheck)
    case QList => AData(ListAll(c.recs))
    case _ => ALocal
  }

  function EnterWindow(id: Id, k: Kind): Pc {
    if k.Reap? then RCheck(id, k) else DBack(id, k, EEnter)
  }

  function NextReap(rest: seq<(Id, Option<Gen>)>): Pc {
    if rest == [] then RIdle else DBegin(rest[0].0, Reap(rest[0].1, rest[1..]))
  }

  function AfterForget(k: Kind): Pc {
    if k.Job? then JDone(k.r, Deleted) else Done
  }

  function AfterEnd(id: Id, k: Kind, res: DelRes): Pc {
    match k
    case Reap(_, rest) => NextReap(rest)
    case Api(_) => if res.Deleted? then DForget(id, k) else Done
    case Job(_, r) => if res.Deleted? then DForget(id, k) else JDone(r, res)
  }

  function AfterDiscover(id: Id, pin: bool, rec: Option<Rec>): Pc {
    match rec
    case Some(r) => if pin then RdRemember(id, r) else Remember(r)
    case None => if pin then RdUnpin(id) else Done
  }

  function After(cfg: Config, pc: Pc, c: Choice, o: Out): Pc {
    match pc
    case CGate(q) => if o.ok then CPin(q) else Done
    case CPin(q) => if o.ok then CBack(q, MEnter) else pc
    case CBack(q, m) =>
      (match MakeAfter(cfg, m, c, o)
       case MGo(m') => CBack(q, m')
       case MEnd(res) => CUnpin(q, res))
    case CUnpin(_, res) => CUngate(res)
    case CUngate(res) => if res.Some? then Remember(res.value) else Done
    case Remember(r) => if cfg.atomic then Done else Touch(r)
    case Touch(_) => Done
    case RdPin(id) => if o.ok then RdDiscover(id, true) else pc
    case RdDiscover(id, pin) =>
      if Finds(cfg, c) then AfterDiscover(id, pin, o.rec)
      else if c.branch.Nest? then RdStale(id, pin, EEnter)
      else if c.branch.Net? then RdNetWait(id, pin)
      else AfterDiscover(id, pin, None)
    case RdStale(id, pin, e) =>
      (match EraseAfter(cfg, e, c, o)
       case EGo(e') => RdStale(id, pin, e')
       case EEnd(_) => AfterDiscover(id, pin, None))
    case RdNetWait(id, pin) => RdNet(id, pin)
    case RdNet(id, pin) => RdDiscover(id, pin)
    case RdRemember(id, r) => if cfg.atomic then RdUnpin(id) else RdTouch(id, r)
    case RdTouch(id, _) => RdUnpin(id)
    case RdUnpin(_) => Done
    case DBegin(id, k) => if o.ok then EnterWindow(id, k) else DWait(id, k)
    case DWait(id, k) => if o.ok then EnterWindow(id, k) else pc
    case RCheck(id, k) => if o.ok then DBack(id, k, EEnter) else DEnd(id, k, Failed)
    case DBack(id, k, e) =>
      (match EraseAfter(cfg, e, c, o)
       case EGo(e') => DBack(id, k, e')
       case EEnd(res) => if res.Deleted? && k.Reap? then RForget(id, k) else DEnd(id, k, res))
    case RForget(id, k) => DEnd(id, k, Deleted)
    case DEnd(id, k, res) => AfterEnd(id, k, res)
    case DForget(_, k) => AfterForget(k)
    case RSeedList => if c.giveUp then RIdle else RSeed(c.recs)
    case RSeed(_) => RIdle
    case RIdle => NextReap(c.found)
    case QGate => if o.ok then QList else QWaitGate
    case QWaitGate => if o.ok then QList else pc
    case QList => if c.recs == [] then QOk else if c.giveUp then Done else QSpawn(c.recs, [])
    case _ => pc
  }

  // ---------------------------------------------------------------------------------------------------
  // Steps
  // ---------------------------------------------------------------------------------------------------

  /** The quiesce pool that a started deletion job counts for. */
  function JobOwner(pc: Pc): Option<Tid> {
    match pc
    case DBegin(_, k) => if k.Job? then Some(k.owner) else None
    case DWait(_, k) => if k.Job? then Some(k.owner) else None
    case DBack(_, k, _) => if k.Job? then Some(k.owner) else None
    case DEnd(_, k, _) => if k.Job? then Some(k.owner) else None
    case DForget(_, k) => if k.Job? then Some(k.owner) else None
    case _ => None
  }

  function Running(threads: map<Tid, Pc>, owner: Tid): set<Tid> {
    set u | u in threads && JobOwner(threads[u]) == Some(owner)
  }

  predicate Queueing(pc: Pc) {
    pc.QSpawn? || pc.QJobs? || pc.JQueued?
  }

  predicate Waiting(threads: map<Tid, Pc>, owner: Tid) {
    owner in threads && (threads[owner].QSpawn? || threads[owner].QJobs?)
  }

  datatype Label =
    | Run(t: Tid, c: Choice)
    | Spawn(t: Tid, pc: Pc)
    | Reclaim(id: Id)          // the garbage collector drops an unreferenced lock entry

  /** Quiesce bookkeeping: a free thread id to submit with, all jobs done, or a free worker. */
  predicate CanQueue(cfg: Config, threads: map<Tid, Pc>, pc: Pc, c: Choice)
    requires Queueing(pc)
  {
    if pc.QSpawn? then c.giveUp || |pc.jobs| >= |pc.recs| || c.tid !in threads
    else if pc.QJobs? then c.giveUp || forall u | u in pc.jobs :: u in threads && threads[u].JDone?
    else Waiting(threads, pc.owner) ==> |Running(threads, pc.owner)| < cfg.concurrency
  }

  ghost predicate CanRun(cfg: Config, w: World, t: Tid, c: Choice) {
    && t in w.threads
    && !Finished(w.threads[t])
    && if Queueing(w.threads[t]) then CanQueue(cfg, w.threads, w.threads[t], c)
       else Ready(cfg, w, t, ActOf(cfg, w.threads[t], c))
  }

  ghost predicate Can(cfg: Config, w: World, lab: Label) {
    match lab
    case Run(t, c) => CanRun(cfg, w, t, c)
    case Spawn(t, pc) => t !in w.threads && Initial(pc)
    case Reclaim(id) =>
      id in w.locks.table
      && forall t | t in w.threads :: !K.Refers(LockRole(w.threads[t]), w.locks.table[id])
  }

  function Put(w: World, t: Tid, pc: Pc): World {
    w.(threads := w.threads[t := pc])
  }

  /** The next step of the thread submits one more job. */
  predicate Submits(pc: Pc, c: Choice) {
    pc.QSpawn? && !c.giveUp && |pc.jobs| < |pc.recs|
  }

  function JobOf(t: Tid, pc: Pc): Pc
    requires pc.QSpawn? && |pc.jobs| < |pc.recs|
  {
    JQueued(t, pc.recs[|pc.jobs|])
  }

  /** Submitting, starting and collecting the deletion jobs of one quiesce round. */
  function StepQueue(w: World, t: Tid, c: Choice): World
    requires t in w.threads && Queueing(w.threads[t])
  {
    var pc := w.threads[t];
    if pc.QSpawn? then
      if c.giveUp then Put(w, t, Done)
      else if Submits(pc, c) then Put(Put(w, c.tid, JobOf(t, pc)), t, QSpawn(pc.recs, pc.jobs + [c.tid]))
      else Put(w, t, QJobs(pc.recs, pc.jobs))
    else if pc.QJobs? then
      if c.giveUp || exists u | u in pc.jobs :: u in w.threads && w.threads[u].JDone? && w.threads[u].res == Failed
      then Put(w, t, Done)
      else Put(w, t, QList)
    else
      if Waiting(w.threads, pc.owner) then Put(w, t, DBegin(pc.r.id, Job(pc.owner, pc.r)))
      else Put(w, t, JDone(pc.r, Cancelled))
  }

  ghost function Next(cfg: Config, w: World, lab: Label): World
    requires Can(cfg, w, lab)
  {
    match lab
    case Run(t, c) =>
      var pc := w.threads[t];
      if Queueing(pc) then StepQueue(w, t, c)
      else
        var (w', o) := Apply(cfg, w, t, ActOf(cfg, pc, c));
        Put(w', t, After(cfg, pc, c, o))
    case Spawn(t, pc) => Put(w, t, pc)
    case Reclaim(id) => w.(locks := w.locks.(table := w.locks.table - {id}))
  }

  // ---------------------------------------------------------------------------------------------------
  // The part that a program counter plays in each component
  // ---------------------------------------------------------------------------------------------------

  function PinRole(pc: Pc): P.Role {
    match pc
    case CPin(q) => P.WantPin(q.id)
    case RdPin(id) => P.WantPin(id)
    case CBack(q, _) => P.Pinned(q.id)
    case CUnpin(q, _) => P.Pinned(q.id)
    case RdDiscover(id, pin) => if pin then P.Pinned(id) else P.Out
    case RdStale(id, pin, _) => if pin then P.Pinned(id) else P.Out
    case RdNetWait(id, pin) => if pin then P.Pinned(id) else P.Out
    case RdNet(id, pin) => if pin then P.Pinned(id) else P.Out
    case RdRemember(id, _) => P.Pinned(id)
    case RdTouch(id, _) => P.Pinned(id)
    case RdUnpin(id) => P.Pinned(id)
    case DWait(id, _) => P.Draining(id)
    case RCheck(id, _) => P.Inside(id)
    case DBack(id, _, _) => P.Inside(id)
    case RForget(id, _) => P.Inside(id)
    case DEnd(id, _, _) => P.Inside(id)
    case _ => P.Out
  }

  function GateRole(pc: Pc): G.Role {
    match pc
    case CPin(_) => G.InCreate
    case CBack(_, _) => G.InCreate
    case CUnpin(_, _) => G.InCreate
    case CUngate(_) => G.InCreate
    case QWaitGate => G.Emptying
    case QList => G.Began
    case QSpawn(_, _) => G.Began
    case QJobs(_, _) => G.Began
    case QOk => G.Began
    case _ => G.Out
  }

  function EraseRole(id: Id, held: seq<K.Lock>, e: ErasePc): K.Role {
    match e
    case EEnter => if held == [] then K.IDLE else K.Role(id, held, None, false, false)
    case EWait(l) => K.Role(id, held, Some(l), false, false)
    case ESlot(l) => K.Role(id, held + [l], None, false, false)
    case EBody(l) => K.Role(id, held + [l], None, true, false)
    case EFree(l, _) => K.Role(id, held + [l], None, true, false)
    case EUnlock(l, _) => K.Role(id, held + [l], None, false, false)
  }

  function MakeRole(id: Id, m: MakePc): K.Role {
    match m
    case MEnter => K.IDLE
    case MWait(l) => K.Role(id, [], Some(l), false, false)
    case MBody(l) => K.Role(id, [l], None, false, false)
    case MNest(l, e) => EraseRole(id, [l], e)
    case MNetWait(l) => K.Role(id, [l], None, false, false)
    case MNet(l) => K.Role(id, [l], None, false, true)
    case MUnlock(l, _) => K.Role(id, [l], None, false, false)
  }

  function LockRole(pc: Pc): K.Role {
    match pc
    case CBack(q, m) => MakeRole(q.id, m)
    case RdStale(id, _, e) => EraseRole(id, [], e)
    case RdNet(_, _) => K.IDLE.(mutex := true)
    case DBack(id, _, e) => EraseRole(id, [], e)
    case _ => K.IDLE
  }

  function PinRoles(threads: map<Tid, Pc>): map<Tid, P.Role> {
    map t | t in threads :: PinRole(threads[t])
  }

  function PinView(w: World): P.State {
    P.State(w.pins, PinRoles(w.threads))
  }

  function GateRoles(threads: map<Tid, Pc>): map<Tid, G.Role> {
    map t | t in threads :: GateRole(threads[t])
  }

  function GateView(w: World): G.State {
    G.State(w.gate, GateRoles(w.threads))
  }

  function LockRoles(threads: map<Tid, Pc>): map<Tid, K.Role> {
    map t | t in threads :: LockRole(threads[t])
  }

  function LockView(w: World): K.State {
    K.State(w.locks, LockRoles(w.threads))
  }

  // ---------------------------------------------------------------------------------------------------
  // Programs use every component in the bracketed fashion its protocol asks for
  // ---------------------------------------------------------------------------------------------------

  predicate FitsPin(a: Act, o: Out, r: P.Role, r': P.Role) {
    if a.APin? then P.Enabled(r, a.p) && r' == P.RoleAfter(a.p, o.ok)
    else r' == r || (r == P.Out && r'.WantPin?)
  }

  predicate FitsGate(a: Act, o: Out, r: G.Role, r': G.Role) {
    if a.AGate? then G.Enabled(r, a.g) && r' == G.RoleAfter(a.g, o.ok)
    else r' == r || (r == G.Began && r' == G.Out)
  }

  predicate InBackend(pc: Pc) {
    pc.CBack? || pc.RdStale? || pc.DBack?
  }

  /** Thread that is at the pins or the gate. */
  predicate AtPins(pc: Pc) {
    pc.CPin? || pc.CUnpin? || pc.RdPin? || pc.RdUnpin? || pc.DBegin? || pc.DWait? || pc.DEnd?
  }

  predicate AtGate(pc: Pc) {
    pc.CGate? || pc.CUngate? || pc.QGate? || pc.QWaitGate?
  }

  /** The backend's own critical sections. */
  predicate Inner(a: Act) {
    a.ALock? || a.AData? || a.ALocal?
  }

  lemma BackendIsInner(cfg: Config, pc: Pc, c: Choice)
    requires InBackend(pc)
    ensures Inner(ActOf(cfg, pc, c))
  {
  }

  lemma BackendKeepsRoles(cfg: Config, pc: Pc, c: Choice, o: Out)
    requires InBackend(pc)
    ensures PinRole(After(cfg, pc, c, o)) == PinRole(pc) || (PinRole(pc) == P.Out && PinRole(After(cfg, pc, c, o)).WantPin?)
    ensures GateRole(After(cfg, pc, c, o)) == GateRole(pc)
  {
  }

  lemma PinActs(cfg: Config, pc: Pc, c: Choice, o: Out)
    requires AtPins(pc)
    ensures FitsPin(ActOf(cfg, pc, c), o, PinRole(pc), PinRole(After(cfg, pc, c, o)))
    ensures !ActOf(cfg, pc, c).AGate? && GateRole(After(cfg, pc, c, o)) == GateRole(pc)
  {
  }

  lemma GateActs(cfg: Config, pc: Pc, c: Choice, o: Out)
    requires AtGate(pc)
    ensures FitsGate(ActOf(cfg, pc, c), o, GateRole(pc), GateRole(After(cfg, pc, c, o)))
    ensures FitsPin(ActOf(cfg, pc, c), o, PinRole(pc), PinRole(After(cfg, pc, c, o)))
  {
  }

  lemma OtherActs(cfg: Config, pc: Pc, c: Choice)
    requires !Queueing(pc) && !InBackend(pc) && !AtPins(pc) && !AtGate(pc)
    ensures Inner(ActOf(cfg, pc, c))
  {
  }

  lemma OtherRoles(cfg: Config, pc: Pc, c: Choice, o: Out)
    requires !Queueing(pc) && !InBackend(pc) && !AtPins(pc) && !AtGate(pc)
    ensures PinRole(After(cfg, pc, c, o)) == PinRole(pc)
    ensures FitsGate(ALocal, o, GateRole(pc), GateRole(After(cfg, pc, c, o)))
  {
  }

  lemma PinConformance(cfg: Config, pc: Pc, c: Choice, o: Out)
    requires !Queueing(pc)
    ensures FitsPin(ActOf(cfg, pc, c), o, PinRole(pc), PinRole(After(cfg, pc, c, o)))
  {
    if InBackend(pc) {
      BackendIsInner(cfg, pc, c);
      BackendKeepsRoles(cfg, pc, c, o);
    } else if AtPins(pc) {
      PinActs(cfg, pc, c, o);
    } else if AtGate(pc) {
      GateActs(cfg, pc, c, o);
    } else {
      OtherActs(cfg, pc, c);
      OtherRoles(cfg, pc, c, o);
    }
  }

  lemma GateConformance(cfg: Config, pc: Pc, c: Choice, o: Out)
    requires !Queueing(pc)
    ensures FitsGate(ActOf(cfg, pc, c), o, GateRole(pc), GateRole(After(cfg, pc, c, o)))
  {
    if InBackend(pc) {
      BackendIsInner(cfg, pc, c);
      BackendKeepsRoles(cfg, pc, c, o);
    } else if AtPins(pc) {
      PinActs(cfg, pc, c, o);
    } else if AtGate(pc) {
      GateActs(cfg, pc, c, o);
    } else {
      OtherActs(cfg, pc, c);
      OtherRoles(cfg, pc, c, o);
    }
  }

  /** The role moves as the lock protocol says for the critical section `a` with outcome `o`. */
  predicate FitsLock(a: Act, o: Out, r: K.Role, r': K.Role) {
    if a.ALock? then K.Enabled(r, a.k) && (o.lock.Some? == a.k.Lookup? ==> r' == K.RoleAfter(r, a.k, o.lock))
    else r' == r
  }

  lemma EraseConformance(cfg: Config, e: ErasePc, id: Id, fence: Fence, held: seq<K.Lock>, c: Choice, o: Out)
    requires |held| <= 1
    ensures var s := EraseAfter(cfg, e, c, o);
            FitsLock(EraseAct(cfg, e, id, fence, c), o, EraseRole(id, held, e),
                     if s.EGo? then EraseRole(id, held, s.e)
                     else if held == [] then K.IDLE else K.Role(id, held, None, false, false))
  {
    if e.EUnlock? {
      assert (held + [e.l])[..|held|] == held;
    }
  }

  lemma MakeConformance(cfg: Config, m: MakePc, q: Request, c: Choice, o: Out)
    ensures var s := MakeAfter(cfg, m, c, o);
            FitsLock(MakeAct(cfg, m, q, c), o, MakeRole(q.id, m), if s.MGo? then MakeRole(q.id, s.m) else K.IDLE)
  {
    if m.MNest? {
      EraseConformance(cfg, m.e, q.id, Absent, [m.l], c, o);
    }
  }

  lemma BackendConformance(cfg: Config, pc: Pc, c: Choice, o: Out)
    requires InBackend(pc)
    ensures FitsLock(ActOf(cfg, pc, c), o, LockRole(pc), LockRole(After(cfg, pc, c, o)))
  {
    match pc
    case CBack(q, m) => MakeConformance(cfg, m, q, c, o);
    case RdStale(id, _, e) => EraseConformance(cfg, e, id, Absent, [], c, o);
    case DBack(id, k, e) => EraseConformance(cfg, e, id, FenceOf(k), [], c, o);
  }

  predicate AtNetwork(pc: Pc) {
    pc.RdNetWait? || pc.RdNet?
  }

  lemma NetworkActs(cfg: Config, pc: Pc, c: Choice, o: Out)
    requires AtNetwork(pc)
    ensures FitsLock(ActOf(cfg, pc, c), o, LockRole(pc), LockRole(After(cfg, pc, c, o)))
  {
  }

  lemma UnlockedActs(cfg: Config, pc: Pc, c: Choice)
    requires !Queueing(pc) && !InBackend(pc) && !AtNetwork(pc)
    ensures !ActOf(cfg, pc, c).ALock?
  {
  }

  lemma UnlockedRoles(cfg: Config, pc: Pc, c: Choice, o: Out)
    requires !Queueing(pc) && !InBackend(pc) && !AtNetwork(pc)
    ensures LockRole(pc) == LockRole(After(cfg, pc, c, o)) == K.IDLE
  {
  }

  lemma LockConformance(cfg: Config, pc: Pc, c: Choice, o: Out)
    requires !Queueing(pc)
    ensures FitsLock(ActOf(cfg, pc, c), o, LockRole(pc), LockRole(After(cfg, pc, c, o)))
  {
    if InBackend(pc) {
      BackendConformance(cfg, pc, c, o);
    } else if AtNetwork(pc) {
      NetworkActs(cfg, pc, c, o);
    } else {
      UnlockedActs(cfg, pc, c);
      UnlockedRoles(cfg, pc, c, o);
    }
  }
}
