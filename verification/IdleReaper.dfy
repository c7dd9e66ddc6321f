/** Activity tracking and the expiry rule of the idle reaper. */
module IdleReaper {
  import opened Prelude
  import opened SandboxRecords

  type Time = real

  /** `None` is the global timeout, zero means never. */
  type Policy = Option<nat>

  datatype Tracker = Tracker(last: map<Id, (Option<Gen>, Time)>, timeouts: map<Id, Policy>)

  const FRESH := Tracker(map[], map[])

  function RecordTimeout(r: Rec): Policy {
    if r.idle.Some? then r.idle
    else if r.lifecycle == Some(Resident) then Some(0)
    else None
  }

  /** The record is not to be reaped: by its own timeout, or as a resident one that has none. */
  predicate NeverIdle(r: Rec) {
    r.idle == Some(0) || (r.idle == None && r.lifecycle == Some(Resident))
  }

  function TouchSpec(tr: Tracker, id: Id, gen: Option<Gen>, now: Time): Tracker {
    var observed := if gen.Some? then gen else if id in tr.last then tr.last[id].0 else None;
    tr.(last := tr.last[id := (observed, now)])
  }

  function RememberSpec(tr: Tracker, r: Rec): Tracker {
    tr.(timeouts := tr.timeouts[r.id := RecordTimeout(r)])
  }

  /** Whether `forget` finds something to forget. The empty string is compared like a token. */
  predicate Hits(tr: Tracker, id: Id, fence: Fence) {
    id in tr.last && match fence
                     case Absent => true
                     case Blank => false
                     case Exactly(g) => tr.last[id].0 == Some(g)
  }

  function ForgetSpec(tr: Tracker, id: Id, fence: Fence): Tracker {
    if Hits(tr, id, fence) then Tracker(tr.last - {id}, tr.timeouts - {id}) else tr
  }

  function SeedOne(tr: Tracker, r: Rec, now: Time): Tracker {
    Tracker(
      if r.id in tr.last then tr.last else tr.last[r.id := (Some(r.gen), now)],
      if r.id in tr.timeouts then tr.timeouts else tr.timeouts[r.id := RecordTimeout(r)])
  }

  function SeedSpec(tr: Tracker, recs: seq<Rec>, now: Time): Tracker {
    if recs == [] then tr else SeedOne(SeedSpec(tr, recs[..|recs| - 1], now), recs[|recs| - 1], now)
  }

  /** The timeout that applies to a tracked id. */
  function TimeoutOf(tr: Tracker, limit: int, id: Id): int {
    if id in tr.timeouts && tr.timeouts[id].Some? then tr.timeouts[id].value else limit
  }

  predicate Expired(tr: Tracker, limit: int, id: Id, now: Time)
    requires id in tr.last
  {
    TimeoutOf(tr, limit, id) > 0 && tr.last[id].1 <= now - TimeoutOf(tr, limit, id) as real
  }

  /** The recheck under the tracker lock, just before the delete is issued. */
  predicate StillExpired(tr: Tracker, limit: int, id: Id, gen: Option<Gen>, now: Time) {
    id in tr.last && tr.last[id].0 == gen && Expired(tr, limit, id, now)
  }

  /** A pass of the reaper yields each expired pair once; nothing when the reaper is disabled. */
  ghost predicate Collected(tr: Tracker, limit: int, now: Time, found: seq<(Id, Option<Gen>)>) {
    && (forall i | 0 <= i < |found| ::
          limit > 0 && StillExpired(tr, limit, found[i].0, found[i].1, now))
    && (limit > 0 ==> forall id | id in tr.last && Expired(tr, limit, id, now) :: (id, tr.last[id].0) in found)
    && (forall i, j | 0 <= i < j < |found| :: found[i] != found[j])
  }

  class SandboxIdleReaper {
    var last: map<Id, (Option<Gen>, Time)>
    var timeouts: map<Id, Policy>
    const idleTimeout: int

    function View(): Tracker
      reads this
    {
      Tracker(last, timeouts)
    }

    /** A positive limit that a running command could outlive is raised past the command timeout. */
    constructor (configured: int, execTimeout: int)
      ensures View() == FRESH
      ensures !(0 < idleTimeout <= execTimeout)
      ensures idleTimeout == configured || (0 < configured <= execTimeout && idleTimeout == execTimeout + 30)
      ensures configured <= 0 ==> idleTimeout <= 0
    {
      last, timeouts := map[], map[];
      idleTimeout := if 0 < configured <= execTimeout then execTimeout + 30 else configured;
    }

    method Touch(id: Id, gen: Option<Gen>, now: Time)
      modifies this
      ensures View() == TouchSpec(old(View()), id, gen, now)
      ensures timeouts == old(timeouts) && last - {id} == old(last) - {id}
      ensures id in last && last[id].1 == now
      ensures last[id].0 == if gen.None? && id in old(last) then old(last)[id].0 else gen
    {
      var observed := gen;
      if observed.None? && id in last {
        observed := last[id].0;
      }
      last := last[id := (observed, now)];
    }

    method Remember(r: Rec)
      modifies this
      ensures View() == RememberSpec(old(View()), r)
      ensures r.id in timeouts && (timeouts[r.id] == Some(0) <==> NeverIdle(r))
      ensures forall n: nat | n > 0 :: timeouts[r.id] == Some(n) <==> r.idle == Some(n)
    {
      timeouts := timeouts[r.id := RecordTimeout(r)];
    }

    method Forget(id: Id, fence: Fence)
      modifies this
      ensures View() == ForgetSpec(old(View()), id, fence)
      ensures if id in old(last) && (fence.Absent? || (fence.Exactly? && old(last)[id].0 == Some(fence.gen))) then
                last == old(last) - {id} && timeouts == old(timeouts) - {id}
              else last == old(last) && timeouts == old(timeouts)
    {
      if id !in last {
        return;
      }
      if fence.Blank? || (fence.Exactly? && last[id].0 != Some(fence.gen)) {
        return;
      }
      last := last - {id};
      timeouts := timeouts - {id};
    }

    method SeedExisting(recs: seq<Rec>, now: Time)
      modifies this
      ensures View() == SeedSpec(old(View()), recs, now)
    {
      for i := 0 to |recs|
        invariant View() == SeedSpec(old(View()), recs[..i], now)
      {
        var r := recs[i];
        if r.id !in last {
          last := last[r.id := (Some(r.gen), now)];
        }
        if r.id !in timeouts {
          timeouts := timeouts[r.id := RecordTimeout(r)];
        }
        assert recs[..i + 1][..i] == recs[..i];
      }
      assert recs[..|recs|] == recs;
    }

    /** A tracked pair is found if and only if it has its own timeout, not zero, or else the global one, behind it. */
    method CollectExpired(now: Time) returns (found: seq<(Id, Option<Gen>)>)
      ensures Collected(View(), idleTimeout, now, found)
      ensures forall p | p in found :: p.0 in last && p.1 == last[p.0].0
      ensures forall id | id in last && id in timeouts && timeouts[id].Some? ::
          (id, last[id].0) in found
          <==> idleTimeout > 0 && timeouts[id].value > 0 && now - last[id].1 >= timeouts[id].value as real
      ensures forall id | id in last && (id in timeouts ==> timeouts[id].None?) ::
          (id, last[id].0) in found <==> idleTimeout > 0 && now - last[id].1 >= idleTimeout as real
    {
      found := [];
      if idleTimeout <= 0 {
        return;
      }
      var todo := last.Keys;
      while todo != {}
        invariant todo <= last.Keys
        invariant forall p | p in found ::
            p.0 !in todo && StillExpired(View(), idleTimeout, p.0, p.1, now)
        invariant forall id | id in last && id !in todo && Expired(View(), idleTimeout, id, now) ::
            (id, last[id].0) in found
        invariant forall i, j | 0 <= i < j < |found| :: found[i] != found[j]
        decreases todo
      {
        var id :| id in todo;
        todo := todo - {id};
        var timeout := if id in timeouts && timeouts[id].Some? then timeouts[id].value else idleTimeout;
        if timeout > 0 && last[id].1 <= now - timeout as real {
          found := found + [(id, last[id].0)];
        }
      }
    }

    method Recheck(id: Id, gen: Option<Gen>, now: Time) returns (doomed: bool)
      ensures doomed == StillExpired(View(), idleTimeout, id, gen, now)
      ensures id !in last || last[id].0 != gen ==> !doomed
      ensures id in last && last[id].0 == gen && id in timeouts && timeouts[id].Some? ==>
          (doomed <==> timeouts[id].value > 0 && now - last[id].1 >= timeouts[id].value as real)
      ensures id in last && last[id].0 == gen && (id in timeouts ==> timeouts[id].None?) ==>
          (doomed <==> idleTimeout > 0 && now - last[id].1 >= idleTimeout as real)
    {
      if id !in last || last[id].0 != gen {
        return false;
      }
      var timeout := if id in timeouts && timeouts[id].Some? then timeouts[id].value else idleTimeout;
      return !(timeout <= 0 || last[id].1 > now - timeout as real);
    }
  }

  lemma {:induction false} SeedKeepsTracked(tr: Tracker, recs: seq<Rec>, now: Time, id: Id)
    ensures id in tr.last ==> id in SeedSpec(tr, recs, now).last && SeedSpec(tr, recs, now).last[id] == tr.last[id]
    ensures id in tr.timeouts ==>
        id in SeedSpec(tr, recs, now).timeouts && SeedSpec(tr, recs, now).timeouts[id] == tr.timeouts[id]
    ensures (exists i | 0 <= i < |recs| :: recs[i].id == id) ==>
        id in SeedSpec(tr, recs, now).last && id in SeedSpec(tr, recs, now).timeouts
  {
    if recs != [] {
      SeedKeepsTracked(tr, recs[..|recs| - 1], now, id);
    }
  }

  /** What seeding adds: the generation as active at that time, and the record's own policy. */
  lemma {:induction false} SeedFillsGaps(tr: Tracker, recs: seq<Rec>, now: Time, k: nat)
    requires k < |recs| && forall i, j | 0 <= i < j < |recs| :: recs[i].id != recs[j].id
    ensures var r, seeded := recs[k], SeedSpec(tr, recs, now);
            && (r.id !in tr.last ==> r.id in seeded.last && seeded.last[r.id] == (Some(r.gen), now))
            && (r.id !in tr.timeouts ==>
                && r.id in seeded.timeouts
                && (seeded.timeouts[r.id] == Some(0) <==> NeverIdle(r))
                && (forall n: nat | n > 0 :: seeded.timeouts[r.id] == Some(n) <==> r.idle == Some(n)))
  {
    var init, last := recs[..|recs| - 1], recs[|recs| - 1];
    if k < |init| {
      SeedFillsGaps(tr, init, now, k);
    } else {
      SeedLeavesOthers(tr, init, now, last.id);
    }
  }

  lemma {:induction false} SeedLeavesOthers(tr: Tracker, recs: seq<Rec>, now: Time, id: Id)
    requires forall r | r in recs :: r.id != id
    ensures var seeded := SeedSpec(tr, recs, now);
            (id in seeded.last <==> id in tr.last) && (id in seeded.timeouts <==> id in tr.timeouts)
  {
    if recs != [] {
      SeedLeavesOthers(tr, recs[..|recs| - 1], now, id);
    }
  }

  // ---------------------------------------------------------------------------------------------------
  // Remember and touch are two steps: what may fall between them
  // ---------------------------------------------------------------------------------------------------

  /** Something another thread does to the tracker for the same sandbox id. */
  datatype Other =
    | OtherRemember(r: Rec)
    | OtherTouch(gen: Option<Gen>, now: Time)
    | OtherForget(fence: Fence)

  function Interfere(tr: Tracker, id: Id, o: Other): Tracker
    requires o.OtherRemember? ==> o.r.id == id
  {
    match o
    case OtherRemember(r) => RememberSpec(tr, r)
    case OtherTouch(gen, now) => TouchSpec(tr, id, gen, now)
    case OtherForget(fence) => ForgetSpec(tr, id, fence)
  }

  predicate SameId(id: Id, os: seq<Other>) {
    forall i | 0 <= i < |os| :: os[i].OtherRemember? ==> os[i].r.id == id
  }

  function InterfereAll(tr: Tracker, id: Id, os: seq<Other>): Tracker
    requires SameId(id, os)
  {
    if os == [] then tr else Interfere(InterfereAll(tr, id, os[..|os| - 1]), id, os[|os| - 1])
  }

  /** `os[i]` replaces or drops the policy entry of the id. */
  predicate Writes(tr: Tracker, id: Id, os: seq<Other>, i: nat)
    requires SameId(id, os) && i < |os|
  {
    match os[i]
    case OtherRemember(_) => true
    case OtherTouch(_, _) => false
    case OtherForget(fence) => Hits(InterfereAll(tr, id, os[..i]), id, fence)
  }

  /** `os[i]` is the last write, and it does not write `policy`. */
  ghost predicate LosesPolicy(tr: Tracker, id: Id, os: seq<Other>, policy: Policy, i: nat)
    requires SameId(id, os) && i < |os|
  {
    && Writes(tr, id, os, i)
    && !(os[i].OtherRemember? && RecordTimeout(os[i].r) == policy)
    && forall j | i < j < |os| :: !Writes(tr, id, os, j)
  }

  lemma {:induction false} PolicyAfter(tr: Tracker, id: Id, os: seq<Other>, policy: Policy)
    requires SameId(id, os)
    requires id in tr.timeouts && tr.timeouts[id] == policy
    ensures var after := InterfereAll(tr, id, os);
            (id in after.timeouts && after.timeouts[id] == policy)
            <==> !exists i | 0 <= i < |os| :: LosesPolicy(tr, id, os, policy, i)
  {
    if os != [] {
      var n := |os| - 1;
      var init := os[..n];
      PolicyAfter(tr, id, init, policy);
      forall i | 0 <= i < n ensures Writes(tr, id, os, i) <==> Writes(tr, id, init, i) {
        assert os[..i] == init[..i];
      }
      if Writes(tr, id, os, n) {
        assert forall i | 0 <= i < n :: !LosesPolicy(tr, id, os, policy, i);
        assert (exists i | 0 <= i < |os| :: LosesPolicy(tr, id, os, policy, i)) <==> LosesPolicy(tr, id, os, policy, n);
      } else {
        assert forall i | 0 <= i < n :: LosesPolicy(tr, id, os, policy, i) <==> LosesPolicy(tr, id, init, policy, i);
      }
    }
  }

  /**
   The exact limit of the policy promise. A thread remembers a record, others do anything to the same id, and then
   the thread touches it: the generation it touched is tracked under its own policy if and only if no write of the
   others in between was the last one and wrote something else. A `forget` without an expected generation
   always counts as such a write when the id is tracked.
   */
  lemma TwoStepLimit(tr: Tracker, r: Rec, os: seq<Other>, now: Time)
    requires SameId(r.id, os)
    ensures var before := RememberSpec(tr, r);
            var after := TouchSpec(InterfereAll(before, r.id, os), r.id, Some(r.gen), now);
            && r.id in after.last && after.last[r.id] == (Some(r.gen), now)
            && ((r.id in after.timeouts && after.timeouts[r.id] == RecordTimeout(r))
                <==> !exists i | 0 <= i < |os| :: LosesPolicy(before, r.id, os, RecordTimeout(r), i))
  {
    PolicyAfter(RememberSpec(tr, r), r.id, os, RecordTimeout(r));
  }
}
