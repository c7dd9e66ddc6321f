/**
 First-fit allocation of one subnet per sandbox network from an aligned IPv4 pool, with a retry when another
 provisioner wins the race for a subnet. Prefixes are as in section 3.1 of RFC 4632.
 */
module SubnetAllocator {
  import opened Prelude

  const MAX_PREFIX := 29
  const ADDRESSES := 0x1_0000_0000

  function Pow2(n: nat): (p: nat)
    ensures p >= 1
  {
    if n == 0 then 1 else 2 * Pow2(n - 1)
  }

  datatype Net = Net(base: nat, prefix: nat)

  function Size(n: Net): (s: nat)
    ensures s >= 1
  {
    if n.prefix <= 32 then Pow2(32 - n.prefix) else 1
  }

  function Broadcast(n: Net): nat {
    n.base + Size(n) - 1
  }

  predicate IsNet(n: Net) {
    n.prefix <= 32 && n.base % Size(n) == 0 && n.base + Size(n) <= ADDRESSES
  }

  predicate Covers(n: Net, addr: nat) {
    n.base <= addr <= Broadcast(n)
  }

  /** The library's overlap test: one of four end points lies in the other network. */
  predicate Overlaps(a: Net, b: Net) {
    Covers(a, b.base) || Covers(a, Broadcast(b)) || Covers(b, a.base) || Covers(b, Broadcast(a))
  }

  predicate Within(inner: Net, outer: Net) {
    outer.base <= inner.base && Broadcast(inner) <= Broadcast(outer)
  }

  predicate GoodPool(pool: Net, prefix: nat) {
    IsNet(pool) && pool.prefix <= prefix <= MAX_PREFIX
  }

  function Count(pool: Net, prefix: nat): (c: nat)
    requires GoodPool(pool, prefix)
    ensures c >= 1
  {
    Pow2(prefix - pool.prefix)
  }

  lemma TimesNat(a: nat, b: nat)
    ensures a * b >= 0
  {
  }

  /** The `k`-th subnet of the pool. */
  function Candidate(pool: Net, prefix: nat, k: nat): Net
    requires GoodPool(pool, prefix)
  {
    TimesNat(k, Pow2(32 - prefix));
    Net(pool.base + k * Pow2(32 - prefix), prefix)
  }

  // ---------------------------------------------------------------------------------------------------
  // Alignment
  // ---------------------------------------------------------------------------------------------------

  lemma {:induction false} PowAdd(a: nat, b: nat)
    ensures Pow2(a + b) == Pow2(a) * Pow2(b)
  {
    if a > 0 {
      PowAdd(a - 1, b);
    }
  }

  lemma MulKeepsOrder(a: nat, b: nat, s: nat)
    requires a <= b
    ensures a * s <= b * s
  {
  }

  lemma MulCancels(a: nat, b: nat, s: nat)
    requires a * s < b * s
    ensures a < b
  {
    if b <= a {
      MulKeepsOrder(b, a, s);
    }
  }

  lemma Multiple(x: nat, s: nat) returns (i: nat)
    requires s >= 1 && x % s == 0
    ensures x == i * s && i == x / s
  {
    i := x / s;
  }

  lemma DivUnique(x: nat, s: nat, q: nat)
    requires s >= 1 && x == q * s
    ensures x % s == 0 && x / s == q
  {
    var d, r := x / s, x % s;
    assert x == d * s + r;
    assert (q + 1) * s == q * s + s && (d + 1) * s == d * s + s;
    if q < d {
      MulKeepsOrder(q + 1, d, s);
    } else if d < q {
      MulKeepsOrder(d + 1, q, s);
    }
  }

  /** A block of size `s` and one of size `q * s`, both aligned: they are nested or clear of each other. */
  lemma BlockInBlock(b: nat, s: nat, large: nat, q: nat, i: nat, j: nat)
    requires q >= 1 && s >= 1 && b == i * s && large == (j * q) * s
    requires b < large + q * s && large < b + s
    ensures large <= b && b + s <= large + q * s
  {
    assert (i + 1) * s == b + s;
    assert (j * q + q) * s == large + q * s;
    MulCancels(i, j * q + q, s);
    MulCancels(j * q, i + 1, s);
    MulKeepsOrder(j * q, i, s);
    MulKeepsOrder(i + 1, j * q + q, s);
  }

  lemma Assoc(a: nat, b: nat, c: nat)
    ensures a * (b * c) == (a * b) * c
  {
  }

  lemma SizeFactor(small: Net, large: Net) returns (q: nat)
    requires small.prefix <= 32 && large.prefix <= small.prefix
    ensures q >= 1 && q == Pow2(small.prefix - large.prefix) && Size(large) == q * Size(small)
  {
    q := Pow2(small.prefix - large.prefix);
    PowAdd(small.prefix - large.prefix, 32 - small.prefix);
  }

  /** The end point test means what it should, and aligned networks overlap only by nesting. */
  lemma OverlapMeans(a: Net, b: Net)
    requires IsNet(a) && IsNet(b)
    ensures Overlaps(a, b) <==> exists addr: nat :: Covers(a, addr) && Covers(b, addr)
    ensures Overlaps(a, b) <==> Within(a, b) || Within(b, a)
  {
    if Overlaps(a, b) {
      var shared := if a.base <= b.base then b.base else a.base;
      assert Covers(a, shared) && Covers(b, shared);
      if a.prefix >= b.prefix {
        Nests(a, b);
      } else {
        Nests(b, a);
      }
    }
  }

  lemma Nests(small: Net, large: Net)
    requires IsNet(small) && IsNet(large) && large.prefix <= small.prefix && Overlaps(small, large)
    ensures Within(small, large)
  {
    var q := SizeFactor(small, large);
    var s := Size(small);
    var i := Multiple(small.base, s);
    var j := Multiple(large.base, Size(large));
    Assoc(j, q, s);
    BlockInBlock(small.base, s, large.base, q, i, j);
  }

  // ---------------------------------------------------------------------------------------------------
  // The candidates are exactly the subnets of the pool with the required prefix
  // ---------------------------------------------------------------------------------------------------

  lemma SubBlock(b: nat, s: nat, q: nat, j: nat, k: nat)
    requires s >= 1 && b == (j * q) * s && k < q
    ensures (b + k * s) % s == 0 && b + k * s + s <= b + q * s
  {
    assert b + k * s == (j * q + k) * s;
    DivUnique(b + k * s, s, j * q + k);
    assert (k + 1) * s == k * s + s;
    MulKeepsOrder(k + 1, q, s);
  }

  lemma CandidateGood(pool: Net, prefix: nat, k: nat)
    requires GoodPool(pool, prefix) && k < Count(pool, prefix)
    ensures IsNet(Candidate(pool, prefix, k)) && Within(Candidate(pool, prefix, k), pool)
  {
    var c := Candidate(pool, prefix, k);
    var s := Size(c);
    var q := SizeFactor(c, pool);
    var j := Multiple(pool.base, Size(pool));
    var start := pool.base;
    assert start == (j * q) * s by {
      Assoc(j, q, s);
    }
    assert c.base % s == 0 && c.base + s <= start + Size(pool) by {
      SubBlock(start, s, q, j, k);
    }
  }

  function Quotient(x: nat, s: nat): nat
    requires s >= 1
  {
    x / s
  }

  /** The index of the candidate that a network of the pool lies in. */
  function IndexOf(pool: Net, prefix: nat, n: Net): nat
    requires n.base >= pool.base && prefix <= 32
  {
    Quotient(n.base - pool.base, Pow2(32 - prefix))
  }

  lemma BlockIndex(n: nat, b: nat, s: nat, q: nat, i: nat, j: nat)
    requires s >= 1 && n == i * s && b == (j * q) * s && b <= n && n + s <= b + q * s
    ensures Quotient(n - b, s) < q && n == b + Quotient(n - b, s) * s
  {
    assert (i + 1) * s == n + s && (j * q + q) * s == b + q * s;
    MulCancels(j * q, i + 1, s);
    var k := i - j * q;
    assert n - b == k * s;
    DivUnique(n - b, s, k);
    MulCancels(i, j * q + q, s);
  }

  lemma EverySubnetIsACandidate(pool: Net, prefix: nat, n: Net)
    requires GoodPool(pool, prefix) && IsNet(n) && n.prefix == prefix && Within(n, pool)
    ensures IndexOf(pool, prefix, n) < Count(pool, prefix)
    ensures n == Candidate(pool, prefix, IndexOf(pool, prefix, n))
  {
    var s := Size(n);
    var q := SizeFactor(n, pool);
    var i := Multiple(n.base, s);
    var j := Multiple(pool.base, Size(pool));
    Assoc(j, q, s);
    BlockIndex(n.base, pool.base, s, q, i, j);
  }

  lemma CandidatesDisjoint(pool: Net, prefix: nat, j: nat, k: nat)
    requires GoodPool(pool, prefix) && j < k < Count(pool, prefix)
    ensures !Overlaps(Candidate(pool, prefix, j), Candidate(pool, prefix, k))
    ensures !Overlaps(Candidate(pool, prefix, k), Candidate(pool, prefix, j))
  {
    var s := Pow2(32 - prefix);
    MulKeepsOrder(j + 1, k, s);
    assert (j + 1) * s == j * s + s;
  }

  // ---------------------------------------------------------------------------------------------------
  // Choosing a subnet
  // ---------------------------------------------------------------------------------------------------

  predicate Clear(n: Net, nets: set<Net>) {
    forall m | m in nets :: !Overlaps(n, m)
  }

  method AnyOverlap(n: Net, nets: set<Net>) returns (hit: bool)
    ensures hit == !Clear(n, nets)
  {
    var todo := nets;
    while todo != {}
      invariant todo <= nets && forall m | m in nets - todo :: !Overlaps(n, m)
      decreases todo
    {
      var m :| m in todo;
      if Overlaps(n, m) {
        return true;
      }
      todo := todo - {m};
    }
    return false;
  }

  /** Lowest subnet of the pool that is clear of everything unavailable; `None` is the capacity error. */
  method NextNetworkSubnet(pool: Net, prefix: nat, existing: set<Net>, excluded: set<Net>) returns (r: Option<Net>)
    requires GoodPool(pool, prefix)
    ensures r.Some? ==>
        && IsNet(r.value) && r.value.prefix == prefix && Within(r.value, pool)
        && Clear(r.value, existing + excluded)
        && forall n | IsNet(n) && n.prefix == prefix && Within(n, pool) && Clear(n, existing + excluded) ::
             r.value.base <= n.base
    ensures r.None? ==> forall n | IsNet(n) && n.prefix == prefix && Within(n, pool) :: !Clear(n, existing + excluded)
    ensures r.Some? ==> exists k :: 0 <= k < Count(pool, prefix) && r.value == Candidate(pool, prefix, k)
  {
    var unavailable := excluded + existing;
    assert unavailable == existing + excluded;
    var k := 0;
    var step := Pow2(32 - prefix);
    var addr := pool.base;
    while k < Count(pool, prefix)
      invariant k <= Count(pool, prefix) && addr == pool.base + k * step
      invariant forall j: nat | j < k :: !Clear(Candidate(pool, prefix, j), unavailable)
    {
      var candidate := Net(addr, prefix);
      assert candidate == Candidate(pool, prefix, k);
      CandidateGood(pool, prefix, k);
      if candidate in unavailable {
        assert Overlaps(candidate, candidate);
      } else {
        var hit := AnyOverlap(candidate, unavailable);
        if !hit {
          LowestClear(pool, prefix, unavailable, k);
          return Some(candidate);
        }
      }
      assert (k + 1) * step == k * step + step;
      k, addr := k + 1, addr + step;
    }
    NothingClear(pool, prefix, unavailable);
    return None;
  }

  lemma LowestClear(pool: Net, prefix: nat, nets: set<Net>, k: nat)
    requires GoodPool(pool, prefix) && k < Count(pool, prefix)
    requires forall j: nat | j < k :: !Clear(Candidate(pool, prefix, j), nets)
    ensures forall n | IsNet(n) && n.prefix == prefix && Within(n, pool) && Clear(n, nets) ::
              Candidate(pool, prefix, k).base <= n.base
  {
    forall n | IsNet(n) && n.prefix == prefix && Within(n, pool) && Clear(n, nets)
      ensures Candidate(pool, prefix, k).base <= n.base
    {
      EverySubnetIsACandidate(pool, prefix, n);
      MulKeepsOrder(k, IndexOf(pool, prefix, n), Pow2(32 - prefix));
    }
  }

  lemma NothingClear(pool: Net, prefix: nat, nets: set<Net>)
    requires GoodPool(pool, prefix)
    requires forall j: nat | j < Count(pool, prefix) :: !Clear(Candidate(pool, prefix, j), nets)
    ensures forall n | IsNet(n) && n.prefix == prefix && Within(n, pool) :: !Clear(n, nets)
  {
    forall n | IsNet(n) && n.prefix == prefix && Within(n, pool) ensures !Clear(n, nets) {
      EverySubnetIsACandidate(pool, prefix, n);
    }
  }

  // ---------------------------------------------------------------------------------------------------
  // Room: small networks block at most one candidate each
  // ---------------------------------------------------------------------------------------------------

  lemma BlocksOnlyOne(pool: Net, prefix: nat, j: nat, k: nat, m: Net)
    requires GoodPool(pool, prefix) && j < Count(pool, prefix) && k < Count(pool, prefix)
    requires IsNet(m) && prefix <= m.prefix
    requires Overlaps(Candidate(pool, prefix, j), m) && Overlaps(Candidate(pool, prefix, k), m)
    ensures j == k
  {
    CandidateGood(pool, prefix, j);
    CandidateGood(pool, prefix, k);
    Nests(m, Candidate(pool, prefix, j));
    Nests(m, Candidate(pool, prefix, k));
    if j < k {
      CandidatesDisjoint(pool, prefix, j, k);
    } else if k < j {
      CandidatesDisjoint(pool, prefix, k, j);
    }
  }

  function Blockers(pool: Net, prefix: nat, nets: set<Net>, n: nat): set<Net>
    requires GoodPool(pool, prefix)
  {
    set m | m in nets && exists k: nat :: k < n && Overlaps(Candidate(pool, prefix, k), m)
  }

  lemma NewBlocker(pool: Net, prefix: nat, nets: set<Net>, n: nat) returns (m: Net)
    requires GoodPool(pool, prefix) && n < Count(pool, prefix)
    requires forall x | x in nets :: IsNet(x) && prefix <= x.prefix
    requires !Clear(Candidate(pool, prefix, n), nets)
    ensures m in nets && Overlaps(Candidate(pool, prefix, n), m) && m !in Blockers(pool, prefix, nets, n)
  {
    m :| m in nets && Overlaps(Candidate(pool, prefix, n), m);
    if m in Blockers(pool, prefix, nets, n) {
      var k: nat :| k < n && Overlaps(Candidate(pool, prefix, k), m);
      BlocksOnlyOne(pool, prefix, k, n, m);
    }
  }

  lemma {:induction false} BlockersGrow(pool: Net, prefix: nat, nets: set<Net>, n: nat)
    requires GoodPool(pool, prefix) && n <= Count(pool, prefix)
    requires forall m | m in nets :: IsNet(m) && prefix <= m.prefix
    requires forall k: nat | k < n :: !Clear(Candidate(pool, prefix, k), nets)
    ensures |Blockers(pool, prefix, nets, n)| >= n
  {
    if n > 0 {
      BlockersGrow(pool, prefix, nets, n - 1);
      var was, now := Blockers(pool, prefix, nets, n - 1), Blockers(pool, prefix, nets, n);
      var m := NewBlocker(pool, prefix, nets, n - 1);
      assert was + {m} <= now;
      Subset(was + {m}, now);
    }
  }

  lemma Subset<T>(a: set<T>, b: set<T>)
    requires a <= b
    ensures |a| <= |b|
  {
    assert b == a + (b - a);
  }

  /**
   A pool of 2^d subnets serves 2^d networks: when nothing in the way is larger than a subnet, and there are fewer
   networks than candidates, some candidate is clear.
   */
  lemma EnoughRoom(pool: Net, prefix: nat, nets: set<Net>)
    requires GoodPool(pool, prefix) && |nets| < Count(pool, prefix)
    requires forall m | m in nets :: IsNet(m) && prefix <= m.prefix
    ensures exists n :: IsNet(n) && n.prefix == prefix && Within(n, pool) && Clear(n, nets)
  {
    if forall k: nat | k < Count(pool, prefix) :: !Clear(Candidate(pool, prefix, k), nets) {
      BlockersGrow(pool, prefix, nets, Count(pool, prefix));
      Subset(Blockers(pool, prefix, nets, Count(pool, prefix)), nets);
      assert false;
    }
    var k: nat :| k < Count(pool, prefix) && Clear(Candidate(pool, prefix, k), nets);
    CandidateGood(pool, prefix, k);
  }

  // ---------------------------------------------------------------------------------------------------
  // Creating a network, against other provisioners
  // ---------------------------------------------------------------------------------------------------

  /** What Docker says to one attempt: done, somebody else took an overlapping subnet, or another error. */
  datatype Answer = Made | Conflict | Broken

  datatype Allocation = Network(net: Net) | NoCapacity | Error

  function Tried(tried: seq<Net>): set<Net> {
    set n | n in tried
  }

  function Indices(n: nat): (s: set<nat>)
    ensures |s| == n && forall k: nat :: k in s <==> k < n
  {
    if n == 0 then {} else Indices(n - 1) + {n - 1}
  }

  /** `tried` are different candidates, and each attempt was answered by a conflict. */
  ghost predicate AllConflicts(pool: Net, prefix: nat, answer: nat -> Answer, tried: seq<Net>) {
    && (forall i | 0 <= i < |tried| ::
          answer(i) == Conflict && IsNet(tried[i]) && tried[i].prefix == prefix && Within(tried[i], pool))
    && (forall i, j | 0 <= i < j < |tried| :: tried[i] != tried[j])
  }

  lemma {:induction false} IndicesOf(pool: Net, prefix: nat, answer: nat -> Answer, tried: seq<Net>) returns (used: set<nat>)
    requires GoodPool(pool, prefix) && AllConflicts(pool, prefix, answer, tried)
    ensures |used| == |tried|
    ensures forall k | k in used :: k < Count(pool, prefix) && Candidate(pool, prefix, k) in tried
  {
    if tried == [] {
      return {};
    }
    var n := |tried| - 1;
    var init := tried[..n];
    used := IndicesOf(pool, prefix, answer, init);
    EverySubnetIsACandidate(pool, prefix, tried[n]);
    var k := IndexOf(pool, prefix, tried[n]);
    assert tried[n] !in init;
    used := used + {k};
  }

  /** There are no more attempts than candidates. */
  lemma TriedBounded(pool: Net, prefix: nat, answer: nat -> Answer, tried: seq<Net>)
    requires GoodPool(pool, prefix) && AllConflicts(pool, prefix, answer, tried)
    ensures |tried| <= Count(pool, prefix)
  {
    var used := IndicesOf(pool, prefix, answer, tried);
    Subset(used, Indices(Count(pool, prefix)));
  }

  /**
   The retry loop. `inventory(i)` is what the scan before attempt `i` sees, `answer(i)` what Docker replies; both may
   change as other provisioners act. The loop ends after at most as many attempts as there are candidates.
   */
  method CreateNetwork(pool: Net, prefix: nat, inventory: nat -> set<Net>, answer: nat -> Answer)
    returns (r: Allocation, tried: seq<Net>)
    requires GoodPool(pool, prefix)
    ensures AllConflicts(pool, prefix, answer, tried) && |tried| <= Count(pool, prefix)
    ensures r.Network? ==>
        && answer(|tried|) == Made
        && IsNet(r.net) && r.net.prefix == prefix && Within(r.net, pool)
        && Clear(r.net, inventory(|tried|)) && r.net !in tried
        && forall n | IsNet(n) && n.prefix == prefix && Within(n, pool) && Clear(n, inventory(|tried|)) && n !in tried ::
             r.net.base <= n.base
    ensures r.NoCapacity? ==>
        forall n | IsNet(n) && n.prefix == prefix && Within(n, pool) :: n in tried || !Clear(n, inventory(|tried|))
    ensures r.Error? ==> answer(|tried|) == Broken
  {
    var attempted: set<Net> := {};
    var round := 0;
    tried := [];
    while true
      invariant |tried| == round && attempted == Tried(tried)
      invariant AllConflicts(pool, prefix, answer, tried)
      invariant round <= Count(pool, prefix)
      decreases Count(pool, prefix) - round
    {
      var next := NextNetworkSubnet(pool, prefix, inventory(round), attempted);
      ClearOfTried(pool, prefix, inventory(round), tried);
      if next.None? {
        return NoCapacity, tried;
      }
      var subnet := next.value;
      match answer(round) {
        case Made => return Network(subnet), tried;
        case Broken => return Error, tried;
        case Conflict =>
      }
      attempted := attempted + {subnet};
      tried := tried + [subnet];
      round := round + 1;
      TriedBounded(pool, prefix, answer, tried);
    }
  }

  /** Being clear of attempted candidates is no more than not being one of them. */
  lemma ClearOfTried(pool: Net, prefix: nat, existing: set<Net>, tried: seq<Net>)
    requires GoodPool(pool, prefix)
    requires forall m | m in tried :: IsNet(m) && m.prefix == prefix && Within(m, pool)
    ensures forall n | IsNet(n) && n.prefix == prefix && Within(n, pool) ::
              Clear(n, existing + Tried(tried)) <==> Clear(n, existing) && n !in tried
  {
    forall n | IsNet(n) && n.prefix == prefix && Within(n, pool)
      ensures Clear(n, existing + Tried(tried)) <==> Clear(n, existing) && n !in tried
    {
      if n in tried {
        assert Overlaps(n, n) && n in existing + Tried(tried);
      } else {
        forall m | m in tried ensures !Overlaps(n, m) {
          SamePrefix(pool, prefix, n, m);
        }
      }
    }
  }

  lemma SamePrefix(pool: Net, prefix: nat, a: Net, b: Net)
    requires GoodPool(pool, prefix) && a != b
    requires IsNet(a) && a.prefix == prefix && Within(a, pool) && IsNet(b) && b.prefix == prefix && Within(b, pool)
    ensures !Overlaps(a, b)
  {
    EverySubnetIsACandidate(pool, prefix, a);
    EverySubnetIsACandidate(pool, prefix, b);
    var j, k := IndexOf(pool, prefix, a), IndexOf(pool, prefix, b);
    if j < k {
      CandidatesDisjoint(pool, prefix, j, k);
    } else {
      CandidatesDisjoint(pool, prefix, k, j);
    }
  }

  /** The sandbox networks of one provisioner. Scan and create run under its process lock. */
  class SandboxNetworks {
    const pool: Net
    const prefix: nat
    var networks: map<Id, Net>

    /** Every network is a subnet of the pool, and no two share an address. */
    ghost predicate Valid()
      reads this
    {
      && GoodPool(pool, prefix)
      && (forall id | id in networks ::
            IsNet(networks[id]) && networks[id].prefix == prefix && Within(networks[id], pool))
      && (forall i, j | i in networks && j in networks && i != j :: !Overlaps(networks[i], networks[j]))
    }

    constructor (pool: Net, prefix: nat)
      requires GoodPool(pool, prefix)
      ensures Valid() && networks == map[]
    {
      this.pool, this.prefix, this.networks := pool, prefix, map[];
    }

    /** Use the network of the id or create it; the scan sees our own networks and whatever others have. */
    method EnsureNetwork(id: Id, foreign: nat -> set<Net>, answer: nat -> Answer) returns (r: Allocation)
      requires Valid()
      modifies this
      ensures Valid()
      ensures id in old(networks) ==> networks == old(networks) && r == Network(networks[id])
      ensures id !in old(networks) ==> networks == if r.Network? then old(networks)[id := r.net] else old(networks)
    {
      if id in networks {
        return Network(networks[id]);
      }
      ghost var tried;
      var ours := networks.Values;
      var inventory := (i: nat) => ours + foreign(i);
      r, tried := CreateNetwork(pool, prefix, inventory, answer);
      if r.Network? {
        forall i | i in networks ensures !Overlaps(r.net, networks[i]) && !Overlaps(networks[i], r.net) {
          assert networks[i] in inventory(|tried|);
        }
        networks := networks[id := r.net];
      }
    }

    method DeleteNetwork(id: Id)
      requires Valid()
      modifies this
      ensures Valid() && networks == old(networks) - {id}
    {
      networks := networks - {id};
    }
  }
}
