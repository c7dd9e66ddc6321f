/**
 Two runs in which a resident sandbox is reaped. In the first the unconditional `forget` of an older delete falls between
 `remember` and `touch` of a create, and the new generation is tracked without its policy. In the second nothing falls
 between any such pair: a create whose sandbox is already deleted comes late with its `remember`, and the policy of the
 dead generation replaces that of the live one.
 */
module ProvisionerLimits {
  import opened Prelude
  import opened SandboxRecords
  import opened IdleReaper
  import opened Provisioner
  import opened ProvisionerRuns
  import P = OperationPins
  import G = QuiescenceGate

  function Pick(now: Time, token: Gen, found: seq<(Id, Option<Gen>)>): Choice {
    Choice(now, token, 0, Finish, [], found, 0, false)
  }

  lemma Go(cfg: Config, w: World, labs: seq<Label>, lab: Label)
    requires IsRun(cfg, w, labs) && Can(cfg, EndOf(cfg, w, labs), lab)
    ensures IsRun(cfg, w, labs + [lab])
    ensures EndOf(cfg, w, labs + [lab]) == Next(cfg, EndOf(cfg, w, labs), lab)
  {
    assert (labs + [lab])[..|labs|] == labs;
  }

  /** A world with the given store and threads, and nobody between two calls of the pins or the gate. */
  function Still(cfg: Config, d: Data, threads: map<Tid, Pc>): World {
    Boot(cfg).(data := d, threads := threads)
  }

  /** Memory backend, two steps, reaper switched on. */
  predicate Plainly(cfg: Config) {
    !cfg.docker && !cfg.atomic && cfg.limit > 0
  }

  /** Thread `t` turns `w` into `w'` in one step with choice `c`. */
  ghost predicate Makes(cfg: Config, w: World, t: Tid, c: Choice, w': World) {
    Can(cfg, w, Label.Run(t, c)) && Next(cfg, w, Label.Run(t, c)) == w'
  }

  lemma Then(cfg: Config, w0: World, labs: seq<Label>, t: Tid, c: Choice, w': World) returns (more: seq<Label>)
    requires IsRun(cfg, w0, labs) && Makes(cfg, EndOf(cfg, w0, labs), t, c, w')
    ensures IsRun(cfg, w0, more) && EndOf(cfg, w0, more) == w'
    ensures more == labs + [Label.Run(t, c)]
  {
    Go(cfg, w0, labs, Label.Run(t, c));
    more := labs + [Label.Run(t, c)];
  }

  lemma Starts(cfg: Config, w0: World, labs: seq<Label>, t: Tid, pc: Pc) returns (more: seq<Label>)
    requires IsRun(cfg, w0, labs) && t !in EndOf(cfg, w0, labs).threads && Initial(pc)
    ensures IsRun(cfg, w0, more) && EndOf(cfg, w0, more) == Put(EndOf(cfg, w0, labs), t, pc)
  {
    Go(cfg, w0, labs, Spawn(t, pc));
    more := labs + [Spawn(t, pc)];
  }

  lemma PutTwice(threads: map<Tid, Pc>, t: Tid, a: Pc, b: Pc)
    ensures threads[t := a][t := b] == threads[t := b]
  {
  }

  const GATE_USED := G.Gate(false, 1, {})

  function Pinning(id: Id): P.Pins {
    P.Pins(map[id := 1], {}, {})
  }

  /** One ordinary step, with its critical section given. */
  lemma OneStep(cfg: Config, w: World, t: Tid, pc: Pc, c: Choice, a: Act, w1: World, o: Out, pc': Pc)
    requires !Queueing(pc) && !Finished(pc) && a == ActOf(cfg, pc, c)
    requires Ready(cfg, Put(w, t, pc), t, a) && (Put(w1, t, pc), o) == Apply(cfg, Put(w, t, pc), t, a)
    requires pc' == After(cfg, pc, c, o)
    ensures Makes(cfg, Put(w, t, pc), t, c, Put(w1, t, pc'))
  {
    PutTwice(w1.threads, t, pc, pc');
  }

  lemma GateStep(cfg: Config, w: World, t: Tid, q: Request, c: Choice)
    requires w.gate == G.FRESH
    ensures Makes(cfg, Put(w, t, CGate(q)), t, c, Put(w.(gate := GATE_USED), t, CPin(q)))
  {
    OneStep(cfg, w, t, CGate(q), c, AGate(G.Enter), w.(gate := GATE_USED), PLAIN, CPin(q));
  }

  lemma PinOnStep(cfg: Config, w: World, t: Tid, q: Request, c: Choice)
    requires w.pins == P.FRESH
    ensures Makes(cfg, Put(w, t, CPin(q)), t, c, Put(w.(pins := Pinning(q.id)), t, CBack(q, MEnter)))
  {
    OneStep(cfg, w, t, CPin(q), c, APin(P.Acquire(q.id)), w.(pins := Pinning(q.id)), PLAIN, CBack(q, MEnter));
  }

  lemma MakeStep(cfg: Config, w: World, t: Tid, q: Request, c: Choice, d: Data)
    requires !cfg.docker && q.id !in w.data.records && c.token !in w.data.issued
    requires var r := NewRec(q, c.token);
             d == Data(w.data.records[q.id := r], w.data.issued[c.token := r], w.data.tracker)
    ensures Makes(cfg, Put(w, t, CBack(q, MEnter)), t, c, Put(w.(data := d), t, CUnpin(q, Some(NewRec(q, c.token)))))
  {
    var r := NewRec(q, c.token);
    OneStep(cfg, w, t, CBack(q, MEnter), c, AData(Make(q, c.token)), w.(data := d), Out(true, None, Some(r)),
            CUnpin(q, Some(r)));
  }

  lemma PinOffStep(cfg: Config, w: World, t: Tid, q: Request, r: Rec, c: Choice)
    requires w.pins == Pinning(q.id)
    ensures Makes(cfg, Put(w, t, CUnpin(q, Some(r))), t, c, Put(w.(pins := P.FRESH), t, CUngate(Some(r))))
  {
    assert Pinning(q.id).active - {q.id} == map[];
    OneStep(cfg, w, t, CUnpin(q, Some(r)), c, APin(P.Release(q.id)), w.(pins := P.FRESH), PLAIN, CUngate(Some(r)));
  }

  lemma UngateStep(cfg: Config, w: World, t: Tid, r: Rec, c: Choice)
    requires w.gate == GATE_USED
    ensures Makes(cfg, Put(w, t, CUngate(Some(r))), t, c, Put(w.(gate := G.FRESH), t, Remember(r)))
  {
    OneStep(cfg, w, t, CUngate(Some(r)), c, AGate(G.Leave), w.(gate := G.FRESH), PLAIN, Remember(r));
  }

  lemma NoteStep(cfg: Config, w: World, t: Tid, r: Rec, c: Choice, d: Data)
    requires !cfg.atomic && d == w.data.(tracker := RememberSpec(w.data.tracker, r))
    ensures Makes(cfg, Put(w, t, Remember(r)), t, c, Put(w.(data := d), t, Touch(r)))
  {
    OneStep(cfg, w, t, Remember(r), c, AData(Note(r)), w.(data := d), PLAIN, Touch(r));
  }

  /** Gate, pin, record, pin back, gate back; the policy is still to be noted. */
  lemma Creates(cfg: Config, w0: World, labs: seq<Label>, d: Data, ts: map<Tid, Pc>, t: Tid, q: Request, c: Choice)
    returns (more: seq<Label>)
    requires Plainly(cfg) && q.id !in d.records && c.token !in d.issued
    requires IsRun(cfg, w0, labs) && EndOf(cfg, w0, labs) == Put(Still(cfg, d, ts), t, CGate(q))
    ensures var r := NewRec(q, c.token);
            && IsRun(cfg, w0, more)
            && EndOf(cfg, w0, more)
            == Put(Still(cfg, Data(d.records[q.id := r], d.issued[c.token := r], d.tracker), ts), t, Remember(r))
  {
    var r := NewRec(q, c.token);
    var d' := Data(d.records[q.id := r], d.issued[c.token := r], d.tracker);
    var w, w' := Still(cfg, d, ts).(gate := GATE_USED), Still(cfg, d', ts).(gate := GATE_USED);
    var p, p' := w.(pins := Pinning(q.id)), w'.(pins := Pinning(q.id));
    GateStep(cfg, Still(cfg, d, ts), t, q, c);
    more := Then(cfg, w0, labs, t, c, Put(w, t, CPin(q)));
    PinOnStep(cfg, w, t, q, c);
    more := Then(cfg, w0, more, t, c, Put(p, t, CBack(q, MEnter)));
    MakeStep(cfg, p, t, q, c, d');
    more := Then(cfg, w0, more, t, c, Put(p', t, CUnpin(q, Some(r))));
    PinOffStep(cfg, p', t, q, r, c);
    more := Then(cfg, w0, more, t, c, Put(w', t, CUngate(Some(r))));
    UngateStep(cfg, w', t, r, c);
    more := Then(cfg, w0, more, t, c, Put(Still(cfg, d', ts), t, Remember(r)));
  }

  /** The same and the policy noted; the touch is still to come. */
  lemma CreatesAndNotes(cfg: Config, w0: World, labs: seq<Label>, d: Data, ts: map<Tid, Pc>, t: Tid, q: Request, c: Choice)
    returns (more: seq<Label>)
    requires Plainly(cfg) && q.id !in d.records && c.token !in d.issued
    requires IsRun(cfg, w0, labs) && EndOf(cfg, w0, labs) == Put(Still(cfg, d, ts), t, CGate(q))
    ensures var r := NewRec(q, c.token);
            && IsRun(cfg, w0, more)
            && EndOf(cfg, w0, more)
            == Put(Still(cfg, Data(d.records[q.id := r], d.issued[c.token := r], RememberSpec(d.tracker, r)), ts), t, Touch(r))
  {
    var r := NewRec(q, c.token);
    var d' := Data(d.records[q.id := r], d.issued[c.token := r], d.tracker);
    var last := d'.(tracker := RememberSpec(d.tracker, r));
    more := Creates(cfg, w0, labs, d, ts, t, q, c);
    NoteStep(cfg, Still(cfg, d', ts), t, r, c, last);
    more := Then(cfg, w0, more, t, c, Put(Still(cfg, last, ts), t, Touch(r)));
  }

  lemma TouchStep(cfg: Config, w: World, t: Tid, r: Rec, c: Choice, d: Data)
    requires d == w.data.(tracker := TouchSpec(w.data.tracker, r.id, Some(r.gen), c.now))
    ensures Makes(cfg, Put(w, t, Touch(r)), t, c, Put(w.(data := d), t, Done))
  {
    OneStep(cfg, w, t, Touch(r), c, AData(Stamp(r, c.now)), w.(data := d), PLAIN, Done);
  }

  function Closed(id: Id): P.Pins {
    P.Pins(map[], {id}, {})
  }

  lemma BeginStep(cfg: Config, w: World, t: Tid, id: Id, k: Kind, c: Choice)
    requires w.pins == P.FRESH
    ensures Makes(cfg, Put(w, t, DBegin(id, k)), t, c, Put(w.(pins := Closed(id)), t, EnterWindow(id, k)))
  {
    assert {} + {id} == {id};
    assert P.BeginSpec(w.pins, t, id) == (Closed(id), true);
    OneStep(cfg, w, t, DBegin(id, k), c, APin(P.Begin(id)), w.(pins := Closed(id)), PLAIN, EnterWindow(id, k));
  }

  lemma EraseStep(cfg: Config, w: World, t: Tid, id: Id, k: Kind, c: Choice, d: Data)
    requires !cfg.docker && d == w.data.(records := w.data.records - {id})
    requires EraseSpec(w.data.records, id, FenceOf(k)).1
    ensures Makes(cfg, Put(w, t, DBack(id, k, EEnter)), t, c,
                  Put(w.(data := d), t, if k.Reap? then RForget(id, k) else DEnd(id, k, Deleted)))
  {
    OneStep(cfg, w, t, DBack(id, k, EEnter), c, AData(Erase(id, FenceOf(k))), w.(data := d), PLAIN,
            if k.Reap? then RForget(id, k) else DEnd(id, k, Deleted));
  }

  lemma EndStep(cfg: Config, w: World, t: Tid, id: Id, k: Kind, c: Choice)
    requires w.pins == Closed(id) && k.Api?
    ensures Makes(cfg, Put(w, t, DEnd(id, k, Deleted)), t, c, Put(w.(pins := P.FRESH), t, DForget(id, k)))
  {
    assert {id} - {id} == {};
    assert P.EndSpec(w.pins, id) == P.FRESH;
    OneStep(cfg, w, t, DEnd(id, k, Deleted), c, APin(P.End(id)), w.(pins := P.FRESH), PLAIN, DForget(id, k));
  }

  lemma ForgetStep(cfg: Config, w: World, t: Tid, id: Id, k: Kind, c: Choice, d: Data)
    requires k.Api? && d == w.data.(tracker := ForgetSpec(w.data.tracker, id, FenceOf(k)))
    ensures Makes(cfg, Put(w, t, DForget(id, k)), t, c, Put(w.(data := d), t, Done))
  {
    OneStep(cfg, w, t, DForget(id, k), c, AData(Drop(id, FenceOf(k))), w.(data := d), PLAIN, Done);
  }

  lemma SeedSteps(cfg: Config, w: World, t: Tid, c: Choice)
    requires w.data.records == map[] && c.recs == [] && !c.giveUp
    ensures Makes(cfg, Put(w, t, RSeedList), t, c, Put(w, t, RSeed([])))
    ensures Makes(cfg, Put(w, t, RSeed([])), t, c, Put(w, t, RIdle))
  {
    OneStep(cfg, w, t, RSeedList, c, AData(ListAll([])), w, PLAIN, RSeed([]));
    OneStep(cfg, w, t, RSeed([]), c, AData(Seed([], c.now)), w, PLAIN, RIdle);
  }

  lemma CollectStep(cfg: Config, w: World, t: Tid, id: Id, gen: Option<Gen>, c: Choice)
    requires c.found == [(id, gen)] && Collected(w.data.tracker, cfg.limit, c.now, c.found)
    ensures Makes(cfg, Put(w, t, RIdle), t, c, Put(w, t, DBegin(id, Reap(gen, []))))
  {
    assert c.found[1..] == [] && c.found[0] == (id, gen);
    OneStep(cfg, w, t, RIdle, c, AData(Collect(c.now, c.found)), w, PLAIN, DBegin(id, Reap(gen, [])));
  }

  lemma RecheckStep(cfg: Config, w: World, t: Tid, id: Id, k: Kind, c: Choice)
    requires k.Reap? && StillExpired(w.data.tracker, cfg.limit, id, k.gen, c.now)
    ensures Makes(cfg, Put(w, t, RCheck(id, k)), t, c, Put(w, t, DBack(id, k, EEnter)))
  {
    OneStep(cfg, w, t, RCheck(id, k), c, AData(Recheck(id, k.gen, c.now)), w, PLAIN, DBack(id, k, EEnter));
  }

  // ---------------------------------------------------------------------------------------------------
  // A forget between remember and touch
  // ---------------------------------------------------------------------------------------------------

  const REAPER: Tid := 0
  const FIRST: Tid := 1
  const DELETER: Tid := 2
  const SECOND: Tid := 3

  lemma Focus(w: World, t: Tid)
    requires t in w.threads
    ensures w == Put(w, t, w.threads[t])
  {
    assert w.threads[t := w.threads[t]] == w.threads;
  }

  /** Tracked under generation 0, record gone; the delete still has its `forget` to do. */
  function Deleting(q: Request): Data {
    var first := NewRec(q, 0);
    Data(map[], map[0 := first],
         Tracker(map[q.id := (Some(0), 0.0)], map[q.id := RecordTimeout(first)]))
  }

  lemma ReaperReady(cfg: Config) returns (labs: seq<Label>)
    ensures Runs(cfg, labs) && EndOf(cfg, Boot(cfg), labs) == Put(Boot(cfg), REAPER, RIdle)
  {
    var b, c := Boot(cfg), Pick(0.0, 0, []);
    labs := Starts(cfg, b, [], REAPER, RSeedList);
    SeedSteps(cfg, b, REAPER, c);
    labs := Then(cfg, b, labs, REAPER, c, Put(b, REAPER, RSeed([])));
    labs := Then(cfg, b, labs, REAPER, c, Put(b, REAPER, RIdle));
  }

  /** Generation 0 is live and tracked. */
  function Created(q: Request): Data {
    var first := NewRec(q, 0);
    Data(map[q.id := first], map[0 := first], Tracker(map[q.id := (Some(0), 0.0)], map[q.id := RecordTimeout(first)]))
  }

  lemma UntilCreated(cfg: Config, q: Request) returns (labs: seq<Label>)
    requires Plainly(cfg)
    ensures Runs(cfg, labs)
    ensures EndOf(cfg, Boot(cfg), labs) == Put(Still(cfg, Created(q), map[REAPER := RIdle]), FIRST, Done)
  {
    var b, c, ts := Boot(cfg), Pick(0.0, 0, []), map[REAPER := RIdle];
    var first := NewRec(q, 0);
    labs := ReaperReady(cfg);
    labs := Starts(cfg, b, labs, FIRST, CGate(q));
    assert Put(b, REAPER, RIdle) == Still(cfg, b.data, ts);
    labs := CreatesAndNotes(cfg, b, labs, b.data, ts, FIRST, q, c);
    var d1 := Data(map[q.id := first], map[0 := first], Tracker(map[], map[q.id := RecordTimeout(first)]));
    TouchStep(cfg, Still(cfg, d1, ts), FIRST, first, c, Created(q));
    labs := Then(cfg, b, labs, FIRST, c, Put(Still(cfg, Created(q), ts), FIRST, Done));
  }

  lemma DeletesOld(cfg: Config, labs: seq<Label>, q: Request, d: Data, ts: map<Tid, Pc>, c: Choice) returns (more: seq<Label>)
    requires Plainly(cfg) && Runs(cfg, labs) && EndOf(cfg, Boot(cfg), labs) == Still(cfg, d, ts) && DELETER !in ts
    ensures Runs(cfg, more)
    ensures EndOf(cfg, Boot(cfg), more)
         == Put(Still(cfg, d.(records := d.records - {q.id}), ts), DELETER, DForget(q.id, Api(Absent)))
  {
    var b, w, k := Boot(cfg), Still(cfg, d, ts), Api(Absent);
    var d' := d.(records := d.records - {q.id});
    more := Starts(cfg, b, labs, DELETER, DBegin(q.id, k));
    BeginStep(cfg, w, DELETER, q.id, k, c);
    more := Then(cfg, b, more, DELETER, c, Put(w.(pins := Closed(q.id)), DELETER, DBack(q.id, k, EEnter)));
    EraseStep(cfg, w.(pins := Closed(q.id)), DELETER, q.id, k, c, d');
    var w' := Still(cfg, d', ts);
    more := Then(cfg, b, more, DELETER, c, Put(w'.(pins := Closed(q.id)), DELETER, DEnd(q.id, k, Deleted)));
    EndStep(cfg, w'.(pins := Closed(q.id)), DELETER, q.id, k, c);
    more := Then(cfg, b, more, DELETER, c, Put(w', DELETER, DForget(q.id, k)));
  }

  lemma UntilDeleted(cfg: Config, q: Request) returns (labs: seq<Label>)
    requires Plainly(cfg)
    ensures Runs(cfg, labs)
    ensures EndOf(cfg, Boot(cfg), labs) == Still(cfg, Deleting(q), AfterDelete(q))
  {
    var ts := map[REAPER := RIdle, FIRST := Done];
    labs := UntilCreated(cfg, q);
    assert Put(Still(cfg, Created(q), map[REAPER := RIdle]), FIRST, Done) == Still(cfg, Created(q), ts);
    labs := DeletesOld(cfg, labs, q, Created(q), ts, Pick(0.0, 0, []));
    assert Created(q).(records := Created(q).records - {q.id}) == Deleting(q);
    assert ts[DELETER := DForget(q.id, Api(Absent))] == AfterDelete(q);
  }

  function AfterDelete(q: Request): map<Tid, Pc> {
    map[REAPER := RIdle, FIRST := Done, DELETER := DForget(q.id, Api(Absent))]
  }

  /** The second create has noted the policy of generation 1; the old tracking entry is still there. */
  function Noted(q: Request): Data {
    Data(map[q.id := NewRec(q, 1)], map[0 := NewRec(q, 0), 1 := NewRec(q, 1)],
         Tracker(map[q.id := (Some(0), 0.0)], map[q.id := RecordTimeout(NewRec(q, 1))]))
  }

  lemma UntilNoted(cfg: Config, q: Request) returns (labs: seq<Label>)
    requires Plainly(cfg)
    ensures Runs(cfg, labs)
    ensures EndOf(cfg, Boot(cfg), labs) == Put(Still(cfg, Noted(q), AfterDelete(q)), SECOND, Touch(NewRec(q, 1)))
  {
    var b := Boot(cfg);
    labs := UntilDeleted(cfg, q);
    labs := Starts(cfg, b, labs, SECOND, CGate(q));
    labs := CreatesAndNotes(cfg, b, labs, Deleting(q), AfterDelete(q), SECOND, q, Pick(0.0, 1, []));
  }

  /** The new generation is live and tracked, and its policy entry is gone. */
  function Exposed(q: Request): Data {
    Data(map[q.id := NewRec(q, 1)], map[0 := NewRec(q, 0), 1 := NewRec(q, 1)],
         Tracker(map[q.id := (Some(1), 0.0)], map[]))
  }

  lemma UntilExposed(cfg: Config, q: Request) returns (labs: seq<Label>, ts: map<Tid, Pc>)
    requires Plainly(cfg)
    ensures Runs(cfg, labs) && EndOf(cfg, Boot(cfg), labs) == Still(cfg, Exposed(q), ts)
    ensures REAPER in ts && ts[REAPER] == RIdle
  {
    var b, c, rec := Boot(cfg), Pick(0.0, 1, []), NewRec(q, 1);
    labs := UntilNoted(cfg, q);
    ts := AfterDelete(q)[SECOND := Touch(rec)];
    var w := Still(cfg, Noted(q), ts);
    assert Put(Still(cfg, Noted(q), AfterDelete(q)), SECOND, Touch(rec)) == w;
    Focus(w, DELETER);
    var d := Noted(q).(tracker := Tracker(map[], map[]));
    assert ForgetSpec(Noted(q).tracker, q.id, Absent) == Tracker(map[], map[]);
    ForgetStep(cfg, w, DELETER, q.id, Api(Absent), c, d);
    labs := Then(cfg, b, labs, DELETER, c, Put(Still(cfg, d, ts), DELETER, Done));
    ts := ts[DELETER := Done];
    Focus(Still(cfg, d, ts), SECOND);
    TouchStep(cfg, Still(cfg, d, ts), SECOND, rec, c, Exposed(q));
    labs := Then(cfg, b, labs, SECOND, c, Put(Still(cfg, Exposed(q), ts), SECOND, Done));
    ts := ts[SECOND := Done];
  }

  /** Generation 1 of the sandbox is live and tracked since time 0 under the global timeout. */
  ghost predicate Endangered(cfg: Config, d: Data, id: Id) {
    && id in d.records && d.records[id].gen == 1
    && d.tracker.last == map[id := (Some(1), 0.0)] && TimeoutOf(d.tracker, cfg.limit, id) == cfg.limit
  }

  /** The reaper finds it expired, closes the sandbox and rechecks. */
  lemma CondemnsIt(cfg: Config, labs: seq<Label>, d: Data, ts: map<Tid, Pc>, id: Id) returns (more: seq<Label>)
    requires Plainly(cfg) && Runs(cfg, labs) && EndOf(cfg, Boot(cfg), labs) == Still(cfg, d, ts)
    requires REAPER in ts && ts[REAPER] == RIdle && Endangered(cfg, d, id)
    ensures Runs(cfg, more)
    ensures EndOf(cfg, Boot(cfg), more)
         == Put(Still(cfg, d, ts).(pins := Closed(id)), REAPER, DBack(id, Reap(Some(1), []), EEnter))
  {
    var b, w, k := Boot(cfg), Still(cfg, d, ts), Reap(Some(1), []);
    var c := Pick(cfg.limit as real, 2, [(id, Some(1))]);
    Focus(w, REAPER);
    CollectStep(cfg, w, REAPER, id, Some(1), c);
    more := Then(cfg, b, labs, REAPER, c, Put(w, REAPER, DBegin(id, k)));
    BeginStep(cfg, w, REAPER, id, k, c);
    var closed := w.(pins := Closed(id));
    more := Then(cfg, b, more, REAPER, c, Put(closed, REAPER, RCheck(id, k)));
    RecheckStep(cfg, closed, REAPER, id, k, c);
    more := Then(cfg, b, more, REAPER, c, Put(closed, REAPER, DBack(id, k, EEnter)));
  }

  /** The last step of the run is a delete by the reaper that takes the live record of a resident sandbox. */
  ghost predicate ReapsResident(cfg: Config, labs: seq<Label>, id: Id) {
    && Runs(cfg, labs) && |labs| > 0
    && var i := |labs| - 1;
       && labs[i].Run? && labs[i].t in At(cfg, labs, i).threads
       && At(cfg, labs, i).threads[labs[i].t].DBack? && At(cfg, labs, i).threads[labs[i].t].k.Reap?
       && id in At(cfg, labs, i).data.records
       && NeverIdle(At(cfg, labs, i).data.records[id])
       && id !in At(cfg, labs, i + 1).data.records
  }

  lemma Reaps(cfg: Config, labs: seq<Label>, d: Data, ts: map<Tid, Pc>, id: Id) returns (more: seq<Label>)
    requires Plainly(cfg) && Runs(cfg, labs) && EndOf(cfg, Boot(cfg), labs) == Still(cfg, d, ts)
    requires REAPER in ts && ts[REAPER] == RIdle && Endangered(cfg, d, id)
    requires NeverIdle(d.records[id])
    ensures ReapsResident(cfg, more, id)
  {
    var before := CondemnsIt(cfg, labs, d, ts, id);
    var b, w, c := Boot(cfg), Still(cfg, d, ts).(pins := Closed(id)), Pick(0.0, 2, []);
    var d' := d.(records := d.records - {id});
    EraseStep(cfg, w, REAPER, id, Reap(Some(1), []), c, d');
    more := Then(cfg, b, before, REAPER, c, Put(w.(data := d'), REAPER, RForget(id, Reap(Some(1), []))));
    assert more[..|more| - 1] == before && more[..|more|] == more;
  }

  /**
   With `remember` and `touch` as two steps, as the code has them, a resident sandbox can be reaped: for every request
   there is a run in which a late `forget` takes its policy away.
   */
  lemma LateForgetReapsResident(cfg: Config, q: Request) returns (labs: seq<Label>)
    requires Plainly(cfg) && NeverIdle(NewRec(q, 1))
    ensures ReapsResident(cfg, labs, q.id)
  {
    var before, ts := UntilExposed(cfg, q);
    labs := Reaps(cfg, before, Exposed(q), ts, q.id);
  }

  // ---------------------------------------------------------------------------------------------------
  // A remember that comes after its sandbox is gone
  // ---------------------------------------------------------------------------------------------------

  /** The first create has made generation 0 and not noted its policy; a delete has removed it and has forgotten nothing. */
  lemma UntilGone(cfg: Config, q: Request) returns (labs: seq<Label>, ts: map<Tid, Pc>)
    requires Plainly(cfg)
    ensures Runs(cfg, labs)
    ensures EndOf(cfg, Boot(cfg), labs) == Still(cfg, Data(map[], map[0 := NewRec(q, 0)], Tracker(map[], map[])), ts)
    ensures ts == map[REAPER := RIdle, FIRST := Remember(NewRec(q, 0)), DELETER := Done]
  {
    var b, c, r := Boot(cfg), Pick(0.0, 0, []), NewRec(q, 0);
    var made := Data(map[q.id := r], map[0 := r], Tracker(map[], map[]));
    var gone := made.(records := map[]);
    ts := map[REAPER := RIdle];
    labs := ReaperReady(cfg);
    assert Put(b, REAPER, RIdle) == Still(cfg, b.data, ts);
    labs := Starts(cfg, b, labs, FIRST, CGate(q));
    labs := Creates(cfg, b, labs, b.data, ts, FIRST, q, c);
    ts := ts[FIRST := Remember(r)];
    assert Put(Still(cfg, made, map[REAPER := RIdle]), FIRST, Remember(r)) == Still(cfg, made, ts);
    labs := DeletesOld(cfg, labs, q, made, ts, c);
    assert made.(records := made.records - {q.id}) == gone;
    ForgetStep(cfg, Still(cfg, gone, ts), DELETER, q.id, Api(Absent), c, gone);
    labs := Then(cfg, b, labs, DELETER, c, Put(Still(cfg, gone, ts), DELETER, Done));
    ts := ts[DELETER := Done];
  }

  lemma Touches(cfg: Config, labs: seq<Label>, d: Data, ts: map<Tid, Pc>, t: Tid, r: Rec, c: Choice, d': Data)
    returns (more: seq<Label>)
    requires Runs(cfg, labs) && EndOf(cfg, Boot(cfg), labs) == Put(Still(cfg, d, ts), t, Touch(r))
    requires d' == d.(tracker := TouchSpec(d.tracker, r.id, Some(r.gen), c.now))
    ensures Runs(cfg, more) && EndOf(cfg, Boot(cfg), more) == Still(cfg, d', ts[t := Done])
  {
    TouchStep(cfg, Still(cfg, d, ts), t, r, c, d');
    more := Then(cfg, Boot(cfg), labs, t, c, Put(Still(cfg, d', ts), t, Done));
  }

  /** The second create has made generation 1, noted its policy and touched it, back to back. */
  lemma UntilLive(cfg: Config, q0: Request, q1: Request) returns (labs: seq<Label>, ts: map<Tid, Pc>)
    requires Plainly(cfg) && q0.id == q1.id
    ensures Runs(cfg, labs)
    ensures EndOf(cfg, Boot(cfg), labs)
         == Still(cfg, Data(map[q1.id := NewRec(q1, 1)], map[0 := NewRec(q0, 0), 1 := NewRec(q1, 1)],
                            Tracker(map[q1.id := (Some(1), 0.0)], map[q1.id := RecordTimeout(NewRec(q1, 1))])), ts)
    ensures REAPER in ts && ts[REAPER] == RIdle && FIRST in ts && ts[FIRST] == Remember(NewRec(q0, 0))
  {
    var b, c, r := Boot(cfg), Pick(0.0, 1, []), NewRec(q1, 1);
    labs, ts := UntilGone(cfg, q0);
    var gone := Data(map[], map[0 := NewRec(q0, 0)], Tracker(map[], map[]));
    labs := Starts(cfg, b, labs, SECOND, CGate(q1));
    labs := CreatesAndNotes(cfg, b, labs, gone, ts, SECOND, q1, c);
    var noted := Data(map[q1.id := r], map[0 := NewRec(q0, 0), 1 := r], Tracker(map[], map[q1.id := RecordTimeout(r)]));
    var live := noted.(tracker := Tracker(map[q1.id := (Some(1), 0.0)], map[q1.id := RecordTimeout(r)]));
    labs := Touches(cfg, labs, noted, ts, SECOND, r, c, live);
    ts := ts[SECOND := Done];
  }

  /**
   A second way: a sandbox is made under the global timeout and deleted before its create gets to `remember`; a resident one
   takes its id and is noted and touched without anything in between; then the first create notes its policy.
   */
  lemma StaleRememberReapsResident(cfg: Config, q0: Request, q1: Request) returns (labs: seq<Label>)
    requires Plainly(cfg) && q0.id == q1.id
    requires RecordTimeout(NewRec(q0, 0)) == None && NeverIdle(NewRec(q1, 1))
    ensures ReapsResident(cfg, labs, q1.id)
  {
    var before, ts := UntilLive(cfg, q0, q1);
    var b, c, r0 := Boot(cfg), Pick(0.0, 1, []), NewRec(q0, 0);
    var d := EndOf(cfg, b, before).data;
    var d' := d.(tracker := RememberSpec(d.tracker, r0));
    Focus(Still(cfg, d, ts), FIRST);
    NoteStep(cfg, Still(cfg, d, ts), FIRST, r0, c, d');
    before := Then(cfg, b, before, FIRST, c, Put(Still(cfg, d', ts), FIRST, Touch(r0)));
    assert Put(Still(cfg, d', ts), FIRST, Touch(r0)) == Still(cfg, d', ts[FIRST := Touch(r0)]);
    labs := Reaps(cfg, before, d', ts[FIRST := Touch(r0)], q1.id);
  }
}
