/** The authoritative inventory: one record per sandbox id, each with a generation token of its own. */
module SandboxRecords {
  import opened Prelude

  type Gen = nat

  datatype Lifecycle = Ephemeral | Persistent | Resident

  /** The part of a sandbox record that the provisioner decides on. */
  datatype Rec = Rec(
    id: Id,
    gen: Gen,
    workdir: Option<string>,
    lifecycle: Option<Lifecycle>,
    idle: Option<nat>)

  datatype Request = Request(
    id: Id,
    workdir: Option<string>,
    lifecycle: Option<Lifecycle>,
    idle: Option<nat>)

  /** The `expected_generation` argument: not given, the empty string, or a token. */
  datatype Fence = Absent | Blank | Exactly(gen: Gen)

  function NewRec(q: Request, gen: Gen): Rec {
    Rec(q.id, gen, q.workdir, q.lifecycle, q.idle)
  }

  /** Get or create; `None` is the error for an existing generation with another workdir. */
  function CreateSpec(records: map<Id, Rec>, q: Request, gen: Gen): (map<Id, Rec>, Option<Rec>) {
    if q.id in records then
      (records, if records[q.id].workdir == q.workdir then Some(records[q.id]) else None)
    else
      (records[q.id := NewRec(q, gen)], Some(NewRec(q, gen)))
  }

  /** Only a non-empty token fences the delete; `false` is the generation mismatch error. */
  function EraseSpec(records: map<Id, Rec>, id: Id, fence: Fence): (map<Id, Rec>, bool) {
    if id in records && fence.Exactly? && records[id].gen != fence.gen
    then (records, false)
    else (records - {id}, true)
  }

  /** `list` returns every record once, in an order that nobody relies on. */
  ghost predicate Listing(records: map<Id, Rec>, recs: seq<Rec>) {
    && (forall i | 0 <= i < |recs| :: recs[i].id in records && records[recs[i].id] == recs[i])
    && (forall id | id in records :: records[id] in recs)
    && (forall i, j | 0 <= i < j < |recs| :: recs[i] != recs[j])
  }

  function Lookup(records: map<Id, Rec>, id: Id): Option<Rec> {
    if id in records then Some(records[id]) else None
  }

  /**
   What callers get. A create is refused if and only if there is a record with another work directory. A lookup sees the
   record that a create returned, and so does every further create for the same work directory, until a delete with its
   generation or none; after that delete there is nothing, and a create makes a new generation. A fenced delete of
   another generation changes nothing.
   */
  lemma LookupSees(records: map<Id, Rec>, q: Request, again: Request, gen: Gen, later: Gen, fence: Fence)
    requires again.id == q.id && (forall id | id in records :: records[id].id == id)
    ensures var (made, r) := CreateSpec(records, q, gen);
            var (kept, r') := CreateSpec(made, again, later);
            var (left, ok) := EraseSpec(kept, q.id, fence);
            var (renewed, r'') := CreateSpec(left, again, later);
            && (r.None? <==> q.id in records && records[q.id].workdir != q.workdir)
            && (r.None? ==> made == records)
            && (r.Some? ==>
              && r' == (if again.workdir == q.workdir then r else None)
              && (ok ==> r'' == Some(Rec(again.id, later, again.workdir, again.lifecycle, again.idle)))
              && r == Some(if q.id in records then records[q.id] else Rec(q.id, gen, q.workdir, q.lifecycle, q.idle))
              && Lookup(made, q.id) == Lookup(kept, q.id) == r && r.value.id == q.id && r.value.workdir == q.workdir
              && (ok <==> !fence.Exactly? || fence.gen == r.value.gen)
              && Lookup(left, q.id) == (if ok then None else r)
              && forall id | id != q.id :: Lookup(left, id) == Lookup(records, id))
  {
    var (made, r) := CreateSpec(records, q, gen);
    if r.Some? {
      assert q.id in made && made[q.id] == r.value;
    }
  }

  class MemoryProvisionerBackend {
    var records: map<Id, Rec>

    constructor ()
      ensures records == map[]
    {
      records := map[];
    }

    method Create(q: Request, token: Gen) returns (r: Option<Rec>)
      modifies this
      ensures (records, r) == CreateSpec(old(records), q, token)
      ensures r.None? <==> q.id in old(records) && old(records)[q.id].workdir != q.workdir
      ensures r.Some? ==> q.id in records && r.value == records[q.id]
      ensures q.id in old(records) ==> records == old(records)
      ensures q.id !in old(records) ==>
          records == old(records)[q.id := Rec(q.id, token, q.workdir, q.lifecycle, q.idle)]
    {
      if q.id in records {
        var existing := records[q.id];
        if existing.workdir != q.workdir {
          return None;
        }
        return Some(existing);
      }
      var record := NewRec(q, token);
      records := records[q.id := record];
      return Some(record);
    }

    method Discover(id: Id) returns (r: Option<Rec>)
      ensures r == Lookup(records, id)
    {
      r := if id in records then Some(records[id]) else None;
    }

    method List() returns (recs: seq<Rec>)
      requires forall id | id in records :: records[id].id == id
      ensures Listing(records, recs)
    {
      recs := [];
      var todo := records.Keys;
      while todo != {}
        invariant todo <= records.Keys
        invariant forall r | r in recs :: r.id in records && records[r.id] == r && r.id !in todo
        invariant forall id | id in records && id !in todo :: records[id] in recs
        invariant forall i, j | 0 <= i < j < |recs| :: recs[i] != recs[j]
        decreases todo
      {
        var id :| id in todo;
        recs := recs + [records[id]];
        todo := todo - {id};
      }
    }

    method Delete(id: Id, fence: Fence) returns (ok: bool)
      modifies this
      ensures (records, ok) == EraseSpec(old(records), id, fence)
      ensures ok <==> id !in old(records) || !fence.Exactly? || old(records)[id].gen == fence.gen
      ensures records == if ok then old(records) - {id} else old(records)
    {
      if id in records && fence.Exactly? && records[id].gen != fence.gen {
        return false;
      }
      records := records - {id};
      return true;
    }
  }
}
