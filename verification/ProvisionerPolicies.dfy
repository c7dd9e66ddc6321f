/**
 Idle policies over whole runs of the code as it is, where `remember` and `touch` are two steps. The policy of a sandbox id
 is whatever was written last, by a `remember`, a `forget` that finds something, or a seeding that fills a gap; so a
 resident sandbox that is tracked can be reaped exactly when the last of these writes was not its own.
 */
module ProvisionerPolicies {
  import opened Prelude
  import opened SandboxRecords
  import opened IdleReaper
  import opened Provisioner
  import opened ProvisionerInvariants
  import opened ProvisionerData
  import opened ProvisionerRuns
  import P = OperationPins

  /** What a step does to the policy entry of an id. */
  datatype Write = Keeps | Sets(policy: Policy) | Drops

  function FirstOf(recs: seq<Rec>, id: Id): Option<Rec> {
    if recs == [] then None else if recs[0].id == id then Some(recs[0]) else FirstOf(recs[1..], id)
  }

  function WriteOf(tr: Tracker, a: DataAct, id: Id): Write {
    if (a.Note? || a.NoteAndStamp?) && a.r.id == id then Sets(RecordTimeout(a.r))
    else if a.Drop? && a.id == id && Hits(tr, id, a.fence) then Drops
    else if a.Seed? && id !in tr.timeouts && FirstOf(a.recs, id).Some? then Sets(RecordTimeout(FirstOf(a.recs, id).value))
    else Keeps
  }

  /** The policy entry of an id. */
  function Entry(tr: Tracker, id: Id): Option<Policy> {
    if id in tr.timeouts then Some(tr.timeouts[id]) else None
  }

  function Overwrite(entry: Option<Policy>, write: Write): Option<Policy> {
    match write
    case Keeps => entry
    case Sets(p) => Some(p)
    case Drops => None
  }

  lemma {:induction false} FirstSnoc(recs: seq<Rec>, r: Rec, id: Id)
    ensures FirstOf(recs + [r], id)
         == if FirstOf(recs, id).Some? then FirstOf(recs, id) else if r.id == id then Some(r) else None
  {
    if recs == [] {
      assert [] + [r] == [r] && [r][1..] == [];
    } else {
      assert (recs + [r])[1..] == recs[1..] + [r];
      FirstSnoc(recs[1..], r, id);
    }
  }

  /** Seeding fills a gap with the first record of the id and leaves everything else. */
  lemma {:induction false} SeedWrites(tr: Tracker, recs: seq<Rec>, now: Time, id: Id)
    ensures Entry(SeedSpec(tr, recs, now), id) == Overwrite(Entry(tr, id), WriteOf(tr, Seed(recs, now), id))
  {
    if recs != [] {
      var init, r := recs[..|recs| - 1], recs[|recs| - 1];
      SeedWrites(tr, init, now, id);
      assert recs == init + [r];
      FirstSnoc(init, r, id);
    }
  }

  lemma ActWrites(cfg: Config, d: Data, a: DataAct, id: Id)
    ensures Entry(ApplyData(cfg, d, a).0.tracker, id) == Overwrite(Entry(d.tracker, id), WriteOf(d.tracker, a, id))
  {
    if a.Seed? {
      SeedWrites(d.tracker, a.recs, a.now, id);
    }
  }

  /** What a step of the whole system does to the policy entry of an id. */
  ghost function StepWrite(cfg: Config, w: World, lab: Label, id: Id): Write
    requires Can(cfg, w, lab)
  {
    if lab.Run? && !Queueing(w.threads[lab.t]) && ActOf(cfg, w.threads[lab.t], lab.c).AData?
    then WriteOf(w.data.tracker, ActOf(cfg, w.threads[lab.t], lab.c).d, id)
    else Keeps
  }

  lemma StepWrites(cfg: Config, w: World, lab: Label, id: Id)
    requires Can(cfg, w, lab)
    ensures Entry(Next(cfg, w, lab).data.tracker, id)
         == Overwrite(Entry(w.data.tracker, id), StepWrite(cfg, w, lab, id))
  {
    if lab.Run? && !Queueing(w.threads[lab.t]) {
      var a, o, pc := OrdinaryStep(cfg, w, lab.t, lab.c);
      ApplyEffect(cfg, w, lab.t, a);
      if a.AData? {
        ActWrites(cfg, w.data, a.d, id);
      }
    }
  }

  /** What the first `i` steps of a run do to the policy entry of an id, step by step. */
  ghost function Writes(cfg: Config, labs: seq<Label>, i: nat, id: Id): (ws: seq<Write>)
    requires Runs(cfg, labs) && i <= |labs|
    ensures |ws| == i
  {
    if i == 0 then []
    else
      StepAt(cfg, labs, i - 1);
      Writes(cfg, labs, i - 1, id) + [StepWrite(cfg, At(cfg, labs, i - 1), labs[i - 1], id)]
  }

  function EntryAfter(ws: seq<Write>): Option<Policy> {
    if ws == [] then None else Overwrite(EntryAfter(ws[..|ws| - 1]), ws[|ws| - 1])
  }

  lemma {:induction false} EntryFollowsWrites(cfg: Config, labs: seq<Label>, i: nat, id: Id)
    requires Runs(cfg, labs) && i <= |labs|
    ensures Entry(At(cfg, labs, i).data.tracker, id) == EntryAfter(Writes(cfg, labs, i, id))
  {
    if i > 0 {
      EntryFollowsWrites(cfg, labs, i - 1, id);
      StepAt(cfg, labs, i - 1);
      StepWrites(cfg, At(cfg, labs, i - 1), labs[i - 1], id);
      var ws := Writes(cfg, labs, i, id);
      assert ws[..i - 1] == Writes(cfg, labs, i - 1, id);
    }
  }

  /** Write `k` is the last one that is not `Keeps`. */
  predicate LastWrite(ws: seq<Write>, k: nat)
    requires k < |ws|
  {
    ws[k] != Keeps && forall l | k < l < |ws| :: ws[l] == Keeps
  }

  lemma {:induction false} LastWriteDecides(ws: seq<Write>, p: Policy)
    ensures EntryAfter(ws) == Some(p) <==> exists k: nat | k < |ws| :: LastWrite(ws, k) && ws[k] == Sets(p)
  {
    if ws != [] {
      var init, n := ws[..|ws| - 1], |ws| - 1;
      LastWriteDecides(init, p);
      if ws[n] == Keeps {
        assert forall k: nat | k < n :: LastWrite(ws, k) <==> LastWrite(init, k);
      } else {
        assert LastWrite(ws, n);
        assert forall k: nat | k < n :: !LastWrite(ws, k);
      }
    }
  }

  predicate HasPolicy(tr: Tracker, id: Id, p: Policy) {
    id in tr.timeouts && tr.timeouts[id] == p
  }

  /** Step `k` of a run is the last to write the policy of the id before step `i`, and it sets `p`. */
  ghost predicate LastSets(cfg: Config, labs: seq<Label>, k: nat, i: nat, id: Id, p: Policy)
    requires Runs(cfg, labs) && k < i <= |labs|
  {
    var ws := Writes(cfg, labs, i, id);
    LastWrite(ws, k) && ws[k] == Sets(p)
  }

  /** Over all runs: an id has a policy if and only if the last step that wrote its entry set that policy. */
  lemma PolicyIsLastWrite(cfg: Config, labs: seq<Label>, i: nat, id: Id, p: Policy)
    requires Runs(cfg, labs) && i <= |labs|
    ensures HasPolicy(At(cfg, labs, i).data.tracker, id, p) <==> exists k: nat | k < i :: LastSets(cfg, labs, k, i, id, p)
  {
    EntryFollowsWrites(cfg, labs, i, id);
    var ws := Writes(cfg, labs, i, id);
    LastWriteDecides(ws, p);
    assert forall k: nat | k < i :: LastSets(cfg, labs, k, i, id, p) <==> LastWrite(ws, k) && ws[k] == Sets(p);
  }

  /**
   After step `n`, a record's own `remember`, its policy stands if and only if of the later steps that write the entry
   none is the last and writes something else: no other `remember`, no `forget` that finds something.
   */
  lemma OwnPolicyStands(cfg: Config, labs: seq<Label>, n: nat, i: nat, id: Id, p: Policy)
    requires Runs(cfg, labs) && n < i <= |labs| && Writes(cfg, labs, i, id)[n] == Sets(p)
    ensures var ws := Writes(cfg, labs, i, id);
            HasPolicy(At(cfg, labs, i).data.tracker, id, p)
            <==> !exists l: nat | n < l < i :: LastWrite(ws, l) && ws[l] != Sets(p)
  {
    EntryFollowsWrites(cfg, labs, i, id);
    StandsUnlessLast(Writes(cfg, labs, i, id), n, p);
  }

  lemma {:induction false} StandsUnlessLast(ws: seq<Write>, n: nat, p: Policy)
    requires n < |ws| && ws[n] == Sets(p)
    ensures EntryAfter(ws) == Some(p) <==> !exists l: nat | n < l < |ws| :: LastWrite(ws, l) && ws[l] != Sets(p)
  {
    var init, last := ws[..|ws| - 1], |ws| - 1;
    if n < last {
      StandsUnlessLast(init, n, p);
      if ws[last] == Keeps {
        assert forall l: nat | l < last :: LastWrite(ws, l) <==> LastWrite(init, l);
      } else {
        assert LastWrite(ws, last);
        assert forall l: nat | l < last :: !LastWrite(ws, l);
      }
    }
  }

  // ---------------------------------------------------------------------------------------------------
  // Resident sandboxes
  // ---------------------------------------------------------------------------------------------------

  const NEVER: Policy := Some(0)

  /** At some time the recheck of the reaper would condemn the tracked generation. */
  ghost predicate AtRisk(cfg: Config, tr: Tracker, id: Id, gen: Gen) {
    exists now: Time :: StillExpired(tr, cfg.limit, id, Some(gen), now)
  }

  /**
   The exact condition, over all runs of the code as it is: a tracked generation can be condemned if and only if the last
   step that wrote the policy of its id did not set "never". For a resident sandbox that is: not its own `remember`.
   */
  lemma AtRiskExactly(cfg: Config, labs: seq<Label>, i: nat, id: Id, gen: Gen)
    requires Runs(cfg, labs) && i <= |labs| && cfg.limit > 0
    requires id in At(cfg, labs, i).data.tracker.last && At(cfg, labs, i).data.tracker.last[id].0 == Some(gen)
    ensures AtRisk(cfg, At(cfg, labs, i).data.tracker, id, gen)
            <==> !exists k: nat | k < i :: LastSets(cfg, labs, k, i, id, NEVER)
  {
    PolicyIsLastWrite(cfg, labs, i, id, NEVER);
    RiskIsPolicy(cfg, At(cfg, labs, i).data.tracker, id, gen);
  }

  lemma RiskIsPolicy(cfg: Config, tr: Tracker, id: Id, gen: Gen)
    requires cfg.limit > 0 && id in tr.last && tr.last[id].0 == Some(gen)
    ensures AtRisk(cfg, tr, id, gen) <==> !HasPolicy(tr, id, NEVER)
  {
    if !HasPolicy(tr, id, NEVER) {
      var late := tr.last[id].1 + TimeoutOf(tr, cfg.limit, id) as real;
      assert StillExpired(tr, cfg.limit, id, Some(gen), late);
    }
  }

  /**
   Whatever run of the code as it is: if the reaper removes a live resident sandbox, then at an earlier recheck that
   generation was tracked under a policy not its own, because the last write to the policy of its id set another one or
   dropped it.
   */
  lemma ReapedUnderForeignPolicy(cfg: Config, labs: seq<Label>, i: nat, other: Id) returns (j: nat)
    requires Runs(cfg, labs) && i < |labs| && labs[i].Run? && labs[i].t in At(cfg, labs, i).threads
    requires var pc := At(cfg, labs, i).threads[labs[i].t]; KindOf(pc).Some? && KindOf(pc).value.1.Reap?
    requires other in At(cfg, labs, i).data.records && other !in At(cfg, labs, i + 1).data.records
    requires NeverIdle(At(cfg, labs, i).data.records[other])
    ensures j < i
    ensures var tr, gen := At(cfg, labs, j).data.tracker, At(cfg, labs, i).data.records[other].gen;
            && other in tr.last && tr.last[other].0 == Some(gen)
            && !HasPolicy(tr, other, NEVER)
            && !exists k: nat | k < j :: LastSets(cfg, labs, k, j, other, NEVER)
  {
    j := ReaperFenced(cfg, labs, i, other);
    PolicyIsLastWrite(cfg, labs, j, other, NEVER);
  }
}
