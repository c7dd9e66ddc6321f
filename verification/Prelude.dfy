/** Names, small counting facts and concatenation, shared by the other modules. */
module Prelude {

  datatype Option<+T> = None | Some(value: T)

  /** A thread of the provisioner: a request handler, the reaper or a worker of the quiesce pool. */
  type Tid = nat

  /** A sandbox id, the key every table of the provisioner is indexed by. */
  type Id = string

  /** The threads that play exactly the role `r`. */
  function Players<R(==)>(roles: map<Tid, R>, r: R): set<Tid> {
    set t | t in roles && roles[t] == r
  }

  lemma PlayersUpdate<R>(roles: map<Tid, R>, t: Tid, was: R, now: R, r: R)
    requires t in roles && roles[t] == was
    ensures |Players(roles[t := now], r)|
         == |Players(roles, r)| + (if now == r then 1 else 0) - (if was == r then 1 else 0)
  {
    var before, after := Players(roles, r), Players(roles[t := now], r);
    if now == r {
      assert after == before + {t};
    } else {
      assert after == before - {t};
    }
  }

  /** A thread that takes part for the first time adds itself to one role. */
  lemma PlayersJoin<R>(roles: map<Tid, R>, t: Tid, now: R, r: R)
    requires t !in roles
    ensures |Players(roles[t := now], r)| == |Players(roles, r)| + (if now == r then 1 else 0)
  {
    var before, after := Players(roles, r), Players(roles[t := now], r);
    assert after == if now == r then before + {t} else before;
  }

  lemma SomePlayer<R>(roles: map<Tid, R>, r: R) returns (t: Tid)
    requires |Players(roles, r)| > 0
    ensures t in roles && roles[t] == r
  {
    t :| t in Players(roles, r);
  }

  lemma PlayerCounts<R>(roles: map<Tid, R>, t: Tid)
    requires t in roles
    ensures |Players(roles, roles[t])| > 0
  {
    assert t in Players(roles, roles[t]);
  }

  function Concat(parts: seq<string>): string {
    if parts == [] then "" else parts[0] + Concat(parts[1..])
  }

  lemma {:induction false} ConcatSnoc(parts: seq<string>, i: nat)
    requires i < |parts|
    ensures Concat(parts[..i + 1]) == Concat(parts[..i]) + parts[i]
  {
    if i == 0 {
      assert parts[..1] == [parts[0]] && parts[..0] == [] && [parts[0]][1..] == [];
      assert Concat([parts[0]]) == parts[0] + Concat([]);
    } else {
      ConcatSnoc(parts[1..], i - 1);
      assert parts[..i + 1][1..] == parts[1..][..i] && parts[..i][1..] == parts[1..][..i - 1];
    }
  }
}
