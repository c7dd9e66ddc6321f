/**
 The start-up script that gives a user's tree its new owner and modes once. Names, links and files are inodes; the names
 in the tree do not change while the script runs. Descriptors and the creation of the two directories are left out.
 */
module StorageInit {
  import opened Prelude

  type Ino = nat

  type Mode = bv16

  datatype Owner = Owner(uid: nat, gid: nat)

  datatype Node =
    | Dir(owner: Owner, mode: Mode, children: map<string, Ino>)
    | Link(owner: Owner, target: string)
    | File(owner: Owner, mode: Mode)

  const RUNTIME := Owner(1000, 1000)
  const EXEC_BITS: Mode := 0x49
  const RWX: Mode := 0x1C0
  const RW: Mode := 0x180

  type Nodes = map<Ino, Node>

  /** A file that anyone could execute stays executable for its owner. */
  function FileMode(mode: Mode): Mode {
    if mode & EXEC_BITS != 0 then RWX else RW
  }

  function Fix(n: Node): Node {
    match n
    case Dir(_, _, children) => Dir(RUNTIME, RWX, children)
    case Link(_, target) => Link(RUNTIME, target)
    case File(_, mode) => File(RUNTIME, FileMode(mode))
  }

  lemma FixTwice(n: Node)
    ensures Fix(Fix(n)) == Fix(n)
    ensures forall m: Mode :: FileMode(FileMode(m)) == FileMode(m)
  {
    assert RWX & EXEC_BITS != 0 && RW & EXEC_BITS == 0;
  }

  ghost predicate Closed(nodes: Nodes) {
    forall i, name | i in nodes && nodes[i].Dir? && name in nodes[i].children :: nodes[i].children[name] in nodes
  }

  /** Where a path of names leads; links are not followed. */
  function Walk(nodes: Nodes, i: Ino, path: seq<string>): Option<Ino>
    decreases |path|
  {
    if i !in nodes then None
    else if path == [] then Some(i)
    else if nodes[i].Dir? && path[0] in nodes[i].children then Walk(nodes, nodes[i].children[path[0]], path[1..])
    else None
  }

  ghost predicate Reaches(nodes: Nodes, i: Ino, j: Ino) {
    exists path :: Walk(nodes, i, path) == Some(j)
  }

  /** `after` is `before` with exactly the nodes of `which` fixed. */
  ghost predicate FixedExactly(before: Nodes, after: Nodes, which: iset<Ino>) {
    && after.Keys == before.Keys
    && forall j | j in before :: after[j] == if j in which then Fix(before[j]) else before[j]
  }

  ghost function Under(nodes: Nodes, i: Ino): iset<Ino> {
    iset j | Reaches(nodes, i, j)
  }

  /** What is reached through some of the names of a directory. */
  ghost function UnderNames(nodes: Nodes, i: Ino, names: set<string>): iset<Ino>
    requires i in nodes && nodes[i].Dir?
  {
    iset j | Through(nodes, i, names, j)
  }

  ghost predicate Through(nodes: Nodes, i: Ino, names: set<string>, j: Ino)
    requires i in nodes && nodes[i].Dir?
  {
    exists name :: name in names && name in nodes[i].children && Reaches(nodes, nodes[i].children[name], j)
  }

  ghost predicate SameShape(a: Nodes, b: Nodes) {
    && a.Keys == b.Keys
    && forall i | i in a :: a[i].Dir? == b[i].Dir? && (a[i].Dir? ==> a[i].children == b[i].children)
  }

  lemma {:induction false} SameWalk(a: Nodes, b: Nodes, i: Ino, path: seq<string>)
    requires SameShape(a, b)
    ensures Walk(a, i, path) == Walk(b, i, path)
    decreases |path|
  {
    if i in a && path != [] && a[i].Dir? && path[0] in a[i].children {
      SameWalk(a, b, a[i].children[path[0]], path[1..]);
    }
  }

  lemma SameUnder(a: Nodes, b: Nodes, i: Ino)
    requires SameShape(a, b)
    ensures Under(a, i) == Under(b, i)
  {
    forall j: Ino ensures Reaches(a, i, j) <==> Reaches(b, i, j) {
      if Reaches(a, i, j) {
        var path :| Walk(a, i, path) == Some(j);
        SameWalk(a, b, i, path);
      }
      if Reaches(b, i, j) {
        var path :| Walk(b, i, path) == Some(j);
        SameWalk(a, b, i, path);
      }
    }
  }

  /** A directory reaches itself and what its names reach. */
  lemma UnderDir(nodes: Nodes, i: Ino)
    requires i in nodes && nodes[i].Dir?
    ensures Under(nodes, i) == iset{i} + UnderNames(nodes, i, nodes[i].children.Keys)
  {
    forall j: Ino ensures Reaches(nodes, i, j) <==> j == i || j in UnderNames(nodes, i, nodes[i].children.Keys) {
      if Reaches(nodes, i, j) {
        var path :| Walk(nodes, i, path) == Some(j);
        if path != [] {
          assert Walk(nodes, nodes[i].children[path[0]], path[1..]) == Some(j);
        }
      }
      if j == i {
        assert Walk(nodes, i, []) == Some(i);
      }
      if j in UnderNames(nodes, i, nodes[i].children.Keys) {
        var name :| name in nodes[i].children && Reaches(nodes, nodes[i].children[name], j);
        var path :| Walk(nodes, nodes[i].children[name], path) == Some(j);
        assert ([name] + path)[1..] == path;
        assert Walk(nodes, i, [name] + path) == Some(j);
      }
    }
  }

  lemma UnderLeaf(nodes: Nodes, i: Ino)
    requires i in nodes && !nodes[i].Dir?
    ensures Under(nodes, i) == iset{i}
  {
    assert Walk(nodes, i, []) == Some(i);
    forall j: Ino | Reaches(nodes, i, j) ensures j == i {
      var path :| Walk(nodes, i, path) == Some(j);
    }
  }

  lemma FixMore(a: Nodes, b: Nodes, c: Nodes, s: iset<Ino>, t: iset<Ino>)
    requires FixedExactly(a, b, s) && FixedExactly(b, c, t)
    ensures FixedExactly(a, c, s + t)
  {
    forall j | j in a ensures c[j] == if j in s + t then Fix(a[j]) else a[j] {
      FixTwice(a[j]);
    }
  }

  lemma FixedShape(a: Nodes, b: Nodes, s: iset<Ino>)
    requires FixedExactly(a, b, s)
    ensures SameShape(a, b)
  {
  }

  /** Heights: every entry of a directory is lower than it. */
  ghost predicate Ranked(nodes: Nodes, rank: map<Ino, nat>) {
    && nodes.Keys <= rank.Keys
    && forall i, name | i in nodes && nodes[i].Dir? && name in nodes[i].children && nodes[i].children[name] in nodes ::
         rank[nodes[i].children[name]] < rank[i]
  }

  class FileSystem {
    var nodes: Nodes

    constructor (nodes: Nodes)
      ensures this.nodes == nodes
    {
      this.nodes := nodes;
    }

    method Chown(i: Ino)
      requires i in nodes
      modifies this
      ensures nodes == old(nodes)[i := old(nodes)[i].(owner := RUNTIME)]
    {
      nodes := nodes[i := nodes[i].(owner := RUNTIME)];
    }

    method Chmod(i: Ino, mode: Mode)
      requires i in nodes && !nodes[i].Link?
      modifies this
      ensures nodes == old(nodes)[i := old(nodes)[i].(mode := mode)]
    {
      nodes := nodes[i := nodes[i].(mode := mode)];
    }

    /** One entry that is not a directory. */
    method NormalizeLeaf(i: Ino)
      requires i in nodes && !nodes[i].Dir?
      modifies this
      ensures FixedExactly(old(nodes), nodes, iset{i})
    {
      var item := nodes[i];
      if item.Link? {
        Chown(i);
      } else {
        var mode := if item.mode & EXEC_BITS != 0 then RWX else RW;
        Chown(i);
        Chmod(i, mode);
      }
    }

    /** Exactly what is reachable without following links gets the fixed owner and mode. */
    method Normalize(i: Ino, ghost rank: map<Ino, nat>)
      requires Closed(nodes) && Ranked(nodes, rank) && i in nodes && nodes[i].Dir?
      modifies this
      ensures FixedExactly(old(nodes), nodes, Under(old(nodes), i))
      decreases rank[i], 0
    {
      ghost var start := nodes;
      TakeDirectory(i);
      var names := nodes[i].children.Keys;
      var todo := names;
      ghost var done: set<string> := {};
      UnderNone(start, i);
      while todo != {}
        invariant todo <= names && done == names - todo && names == start[i].children.Keys
        invariant Progress(start, nodes, i, done)
        decreases |todo|
      {
        var name :| name in todo;
        Entered(start, nodes, i, done, name, rank);
        ghost var before := nodes;
        NormalizeEntry(nodes[i].children[name], rank);
        NameDone(start, before, nodes, i, done, name);
        todo, done := todo - {name}, done + {name};
      }
      assert done == names;
      UnderDir(start, i);
    }

    method TakeDirectory(i: Ino)
      requires i in nodes && nodes[i].Dir?
      modifies this
      ensures FixedExactly(old(nodes), nodes, iset{i})
    {
      Chown(i);
      Chmod(i, RWX);
    }

    method NormalizeEntry(child: Ino, ghost rank: map<Ino, nat>)
      requires Closed(nodes) && Ranked(nodes, rank) && child in nodes
      modifies this
      ensures FixedExactly(old(nodes), nodes, Under(old(nodes), child))
      decreases rank[child], 1
    {
      if nodes[child].Dir? {
        Normalize(child, rank);
      } else {
        UnderLeaf(nodes, child);
        NormalizeLeaf(child);
      }
    }
  }

  /** The directory and everything through the names that are done is fixed. */
  ghost predicate Progress(start: Nodes, now: Nodes, i: Ino, done: set<string>) {
    i in start && start[i].Dir? && FixedExactly(start, now, iset{i} + UnderNames(start, i, done))
  }

  lemma UnderNone(nodes: Nodes, i: Ino)
    requires i in nodes && nodes[i].Dir?
    ensures iset{i} + UnderNames(nodes, i, {}) == iset{i}
  {
  }

  /** What holds when an entry is about to be handled. */
  lemma Entered(start: Nodes, now: Nodes, i: Ino, done: set<string>, name: string, rank: map<Ino, nat>)
    requires Progress(start, now, i, done) && Closed(start) && Ranked(start, rank)
    requires name in start[i].children
    ensures Closed(now) && Ranked(now, rank) && i in now && now[i].Dir? && now[i].children == start[i].children
    ensures start[i].children[name] in now && rank[start[i].children[name]] < rank[i]
  {
    FixedShape(start, now, iset{i} + UnderNames(start, i, done));
    ShapeKeeps(start, now, rank);
  }

  lemma NameDone(start: Nodes, before: Nodes, after: Nodes, i: Ino, done: set<string>, name: string)
    requires Progress(start, before, i, done) && name in start[i].children
    requires FixedExactly(before, after, Under(before, start[i].children[name]))
    ensures Progress(start, after, i, done + {name})
  {
    var fixed, child := iset{i} + UnderNames(start, i, done), start[i].children[name];
    FixedShape(start, before, fixed);
    SameUnder(start, before, child);
    FixMore(start, before, after, fixed, Under(start, child));
    OneMoreName(start, i, done, name);
    assert iset{i} + UnderNames(start, i, done + {name}) == fixed + Under(start, child);
  }

  lemma ShapeKeeps(a: Nodes, b: Nodes, rank: map<Ino, nat>)
    requires SameShape(a, b) && Closed(a) && Ranked(a, rank)
    ensures Closed(b) && Ranked(b, rank)
  {
  }

  lemma OneMoreName(nodes: Nodes, i: Ino, done: set<string>, name: string)
    requires i in nodes && nodes[i].Dir? && name in nodes[i].children
    ensures UnderNames(nodes, i, done + {name}) == UnderNames(nodes, i, done) + Under(nodes, nodes[i].children[name])
  {
    var child := nodes[i].children[name];
    forall j: Ino ensures j in UnderNames(nodes, i, done + {name}) <==> j in UnderNames(nodes, i, done) || Reaches(nodes, child, j) {
      if Reaches(nodes, child, j) {
        assert name in done + {name};
      }
      if j in UnderNames(nodes, i, done) {
        var n :| n in done && n in nodes[i].children && Reaches(nodes, nodes[i].children[n], j);
        assert n in done + {name};
      }
    }
  }

  /** A second pass changes nothing. */
  lemma SecondPassIsIdle(a: Nodes, b: Nodes, c: Nodes, i: Ino)
    requires FixedExactly(a, b, Under(a, i)) && FixedExactly(b, c, Under(b, i))
    ensures c == b
  {
    FixedShape(a, b, Under(a, i));
    SameUnder(a, b, i);
    forall j | j in b ensures c[j] == b[j] {
      FixTwice(a[j]);
    }
  }

  // ---------------------------------------------------------------------------------------------------
  // Several processes, any of which may die at any step
  // ---------------------------------------------------------------------------------------------------

  /** A system call that a pass still has to make, with what it has seen so far. */
  datatype Task =
    | ChownDir(i: Ino)
    | ChmodDir(i: Ino)
    | ListDir(i: Ino)
    | Look(i: Ino)
    | ChownLink(i: Ino)
    | ChownFile(i: Ino, mode: Mode)
    | ChmodFile(i: Ino, mode: Mode)

  datatype Proc = Begun | Walking(todo: seq<Task>) | Finished

  type Pid = nat

  datatype World = World(nodes: Nodes, marker: bool, procs: map<Pid, Proc>)

  datatype Label =
    | Spawn(p: Pid)
    | Crash(p: Pid)
    | CheckMarker(p: Pid)
    | Call(p: Pid, order: seq<string>)
    | CreateMarker(p: Pid)

  /** The names of a directory, in the order the system lists them. */
  ghost predicate Lists(order: seq<string>, names: set<string>) {
    forall name :: name in names <==> name in order
  }

  ghost predicate Can(root: Ino, w: World, l: Label) {
    match l
    case Spawn(p) => p !in w.procs
    case Crash(p) => p in w.procs
    case CheckMarker(p) => p in w.procs && w.procs[p].Begun?
    case Call(p, order) =>
      && p in w.procs && w.procs[p].Walking? && w.procs[p].todo != []
      && var t := w.procs[p].todo[0];
         t.i in w.nodes && (t.ListDir? ==> w.nodes[t.i].Dir? && Lists(order, w.nodes[t.i].children.Keys))
    case CreateMarker(p) => p in w.procs && w.procs[p] == Walking([])
  }

  function Looks(children: map<string, Ino>, order: seq<string>): seq<Task> {
    if order == [] then []
    else if order[0] in children then [Look(children[order[0]])] + Looks(children, order[1..])
    else Looks(children, order[1..])
  }

  /** The tree after one call. */
  function Write(nodes: Nodes, t: Task): Nodes
    requires t.i in nodes
  {
    var n := nodes[t.i];
    match t
    case ChownDir(i) => nodes[i := n.(owner := RUNTIME)]
    case ChmodDir(i) => if n.Dir? then nodes[i := n.(mode := RWX)] else nodes
    case ListDir(_) => nodes
    case Look(_) => nodes
    case ChownLink(i) => nodes[i := n.(owner := RUNTIME)]
    case ChownFile(i, _) => nodes[i := n.(owner := RUNTIME)]
    case ChmodFile(i, mode) => if n.File? then nodes[i := n.(mode := mode)] else nodes
  }

  /** What takes the place of a call once it has returned. */
  function Follow(nodes: Nodes, t: Task, order: seq<string>): seq<Task>
    requires t.i in nodes
  {
    var n := nodes[t.i];
    match t
    case ChownDir(i) => [ChmodDir(i)]
    case ChmodDir(i) => [ListDir(i)]
    case ListDir(i) => if n.Dir? then Looks(n.children, order) else []
    case Look(i) =>
      if n.Link? then [ChownLink(i)] else if n.Dir? then [ChownDir(i)] else [ChownFile(i, FileMode(n.mode))]
    case ChownLink(_) => []
    case ChownFile(i, mode) => [ChmodFile(i, mode)]
    case ChmodFile(_, _) => []
  }

  function Next(root: Ino, w: World, l: Label): World {
    match l
    case Spawn(p) => w.(procs := w.procs[p := Begun])
    case Crash(p) => w.(procs := w.procs - {p})
    case CheckMarker(p) => w.(procs := w.procs[p := if w.marker then Finished else Walking([ChownDir(root)])])
    case Call(p, order) =>
      if p in w.procs && w.procs[p].Walking? && w.procs[p].todo != [] && w.procs[p].todo[0].i in w.nodes then
        var t := w.procs[p].todo[0];
        World(Write(w.nodes, t), w.marker,
              w.procs[p := Walking(Follow(w.nodes, t, order) + w.procs[p].todo[1..])])
      else w
    case CreateMarker(p) => w.(marker := true, procs := w.procs[p := Finished])
  }

  predicate IsFixed(n: Node) {
    Fix(n) == n
  }

  predicate OwnerFixed(n: Node) {
    n.owner == RUNTIME
  }

  /** A task fits the node it is about, and the calls before it have taken effect for good. */
  predicate TaskFits(nodes: Nodes, t: Task) {
    t.i in nodes
    && var n := nodes[t.i];
       match t
       case ChownDir(_) => n.Dir?
       case ChmodDir(_) => n.Dir? && OwnerFixed(n)
       case ListDir(_) => n.Dir? && IsFixed(n)
       case Look(_) => true
       case ChownLink(_) => n.Link?
       case ChownFile(_, mode) => n.File? && mode == FileMode(n.mode)
       case ChmodFile(_, mode) => n.File? && mode == FileMode(n.mode) && OwnerFixed(n)
  }

  /** The nodes a task still has to fix, itself or through what it leads to. */
  ghost predicate Covers(nodes: Nodes, t: Task, j: Ino) {
    if t.ListDir? then j != t.i && Reaches(nodes, t.i, j)
    else if t.ChownDir? || t.ChmodDir? || t.Look? then Reaches(nodes, t.i, j)
    else j == t.i
  }

  ghost predicate Covered(nodes: Nodes, todo: seq<Task>, j: Ino) {
    exists k :: 0 <= k < |todo| && Covers(nodes, todo[k], j)
  }

  /** A pass: every reachable node is fixed or still ahead of it. */
  ghost predicate PassRight(root: Ino, nodes: Nodes, todo: seq<Task>) {
    && (forall k | 0 <= k < |todo| :: TaskFits(nodes, todo[k]))
    && (forall j | j in nodes && Reaches(nodes, root, j) :: IsFixed(nodes[j]) || Covered(nodes, todo, j))
  }

  ghost predicate AllFixed(root: Ino, nodes: Nodes) {
    forall j | j in nodes && Reaches(nodes, root, j) :: IsFixed(nodes[j])
  }

  ghost predicate Inv(root: Ino, w: World) {
    && Closed(w.nodes) && root in w.nodes && w.nodes[root].Dir?
    && (w.marker ==> AllFixed(root, w.nodes))
    && forall p | p in w.procs && w.procs[p].Walking? :: PassRight(root, w.nodes, w.procs[p].todo)
  }

  /** What a call may do to a node: nothing, or set its owner or its mode to the final one. */
  predicate Nearer(a: Node, b: Node) {
    b == a || b == a.(owner := RUNTIME) || (a.Dir? && b == a.(mode := RWX)) || (a.File? && b == a.(mode := FileMode(a.mode)))
  }

  ghost predicate NearerTree(a: Nodes, b: Nodes) {
    b.Keys == a.Keys && forall j | j in a :: Nearer(a[j], b[j])
  }

  lemma NearerNode(a: Node, b: Node)
    requires Nearer(a, b)
    ensures a.Dir? == b.Dir? && a.Link? == b.Link? && (a.Dir? ==> a.children == b.children)
    ensures a.File? ==> FileMode(a.mode) == FileMode(b.mode)
    ensures IsFixed(a) ==> b == a
    ensures OwnerFixed(a) ==> OwnerFixed(b)
  {
    FixTwice(a);
  }

  lemma WriteNearer(nodes: Nodes, t: Task)
    requires TaskFits(nodes, t)
    ensures NearerTree(nodes, Write(nodes, t))
  {
  }

  lemma NearerShape(a: Nodes, b: Nodes)
    requires NearerTree(a, b)
    ensures SameShape(a, b) && (Closed(a) ==> Closed(b))
    ensures forall i, j :: Reaches(a, i, j) <==> Reaches(b, i, j)
  {
    forall i | i in a ensures a[i].Dir? == b[i].Dir? && (a[i].Dir? ==> a[i].children == b[i].children) {
      NearerNode(a[i], b[i]);
    }
    forall i, j ensures Reaches(a, i, j) <==> Reaches(b, i, j) {
      SameUnder(a, b, i);
      assert j in Under(a, i) <==> j in Under(b, i);
    }
  }

  /** The calls of one process do not disturb the pass of another, even one that acts on what it saw before. */
  lemma OthersUndisturbed(root: Ino, a: Nodes, b: Nodes, todo: seq<Task>)
    requires NearerTree(a, b) && PassRight(root, a, todo)
    ensures PassRight(root, b, todo)
  {
    NearerShape(a, b);
    forall k | 0 <= k < |todo| ensures TaskFits(b, todo[k]) {
      assert TaskFits(a, todo[k]);
      NearerNode(a[todo[k].i], b[todo[k].i]);
    }
    forall j | j in b && Reaches(b, root, j) ensures IsFixed(b[j]) || Covered(b, todo, j) {
      NearerNode(a[j], b[j]);
      if Covered(a, todo, j) {
        var k :| 0 <= k < |todo| && Covers(a, todo[k], j);
        assert Covers(b, todo[k], j);
      }
    }
  }

  lemma AllFixedStays(root: Ino, a: Nodes, b: Nodes)
    requires NearerTree(a, b) && AllFixed(root, a)
    ensures AllFixed(root, b)
  {
    NearerShape(a, b);
    forall j | j in b && Reaches(b, root, j) ensures IsFixed(b[j]) {
      NearerNode(a[j], b[j]);
    }
  }

  lemma {:induction false} LooksRight(children: map<string, Ino>, order: seq<string>)
    ensures forall k | 0 <= k < |Looks(children, order)| ::
        Looks(children, order)[k].Look? && Looks(children, order)[k].i in children.Values
    ensures forall name | name in order && name in children :: Look(children[name]) in Looks(children, order)
  {
    if order != [] {
      LooksRight(children, order[1..]);
    }
  }

  /** What a task has to fix is fixed by its call or left to what follows it. */
  lemma CallCovers(nodes: Nodes, t: Task, order: seq<string>, j: Ino)
    requires TaskFits(nodes, t) && Closed(nodes) && j in nodes && Covers(nodes, t, j)
    requires t.ListDir? ==> Lists(order, nodes[t.i].children.Keys)
    ensures IsFixed(Write(nodes, t)[j]) || Covered(nodes, Follow(nodes, t, order), j)
  {
    var n, follow := nodes[t.i], Follow(nodes, t, order);
    if t.ListDir? {
      UnderDir(nodes, t.i);
      assert j in Under(nodes, t.i);
      assert Through(nodes, t.i, n.children.Keys, j);
      var name :| name in n.children && Reaches(nodes, n.children[name], j);
      LooksRight(n.children, order);
      assert Look(n.children[name]) in follow;
      var k :| 0 <= k < |follow| && follow[k] == Look(n.children[name]);
      assert Covers(nodes, follow[k], j);
    } else if t.ChmodDir? {
      if j != t.i {
        assert Covers(nodes, follow[0], j);
      }
    } else if t.Look? && !n.Dir? {
      UnderLeaf(nodes, t.i);
      assert j in Under(nodes, t.i);
      assert Covers(nodes, follow[0], j);
    } else if t.ChownDir? || t.Look? || t.ChownFile? {
      assert Covers(nodes, follow[0], j);
    } else {
      FixTwice(n);
    }
  }

  lemma FollowFits(nodes: Nodes, t: Task, order: seq<string>)
    requires TaskFits(nodes, t) && Closed(nodes)
    ensures forall k | 0 <= k < |Follow(nodes, t, order)| :: TaskFits(Write(nodes, t), Follow(nodes, t, order)[k])
  {
    var n, follow, after := nodes[t.i], Follow(nodes, t, order), Write(nodes, t);
    if t.ListDir? {
      LooksRight(n.children, order);
      forall k | 0 <= k < |follow| ensures TaskFits(after, follow[k]) {
        assert Looks(n.children, order)[k].i in n.children.Values;
        var name :| name in n.children && n.children[name] == follow[k].i;
      }
    } else {
      FixTwice(n);
    }
  }

  lemma FitsAfterCall(root: Ino, nodes: Nodes, todo: seq<Task>, order: seq<string>, k: nat)
    requires PassRight(root, nodes, todo) && Closed(nodes) && todo != []
    requires todo[0].ListDir? ==> Lists(order, nodes[todo[0].i].children.Keys)
    requires k < |Follow(nodes, todo[0], order) + todo[1..]|
    ensures TaskFits(Write(nodes, todo[0]), (Follow(nodes, todo[0], order) + todo[1..])[k])
  {
    var follow, after := Follow(nodes, todo[0], order), Write(nodes, todo[0]);
    assert TaskFits(nodes, todo[0]);
    WriteNearer(nodes, todo[0]);
    FollowFits(nodes, todo[0], order);
    if k >= |follow| {
      var x := todo[k - |follow| + 1];
      assert TaskFits(nodes, x) && (follow + todo[1..])[k] == x;
      NearerNode(nodes[x.i], after[x.i]);
    }
  }

  /** What a later task covers it still covers, and what the first one covers is fixed or passed on. */
  lemma CoveredAfterCall(root: Ino, nodes: Nodes, todo: seq<Task>, order: seq<string>, j: Ino)
    requires PassRight(root, nodes, todo) && Closed(nodes) && todo != []
    requires todo[0].ListDir? ==> Lists(order, nodes[todo[0].i].children.Keys)
    requires j in Write(nodes, todo[0]) && Reaches(Write(nodes, todo[0]), root, j)
    ensures IsFixed(Write(nodes, todo[0])[j])
         || Covered(Write(nodes, todo[0]), Follow(nodes, todo[0], order) + todo[1..], j)
  {
    var follow, after := Follow(nodes, todo[0], order), Write(nodes, todo[0]);
    var todo' := follow + todo[1..];
    assert TaskFits(nodes, todo[0]);
    WriteNearer(nodes, todo[0]);
    NearerShape(nodes, after);
    NearerNode(nodes[j], after[j]);
    assert Reaches(nodes, root, j);
    if !IsFixed(nodes[j]) {
      var k :| 0 <= k < |todo| && Covers(nodes, todo[k], j);
      if k > 0 {
        assert todo'[k - 1 + |follow|] == todo[k] && Covers(after, todo[k], j);
      } else {
        CallCovers(nodes, todo[0], order, j);
        if Covered(nodes, follow, j) {
          var m :| 0 <= m < |follow| && Covers(nodes, follow[m], j);
          assert todo'[m] == follow[m] && Covers(after, follow[m], j);
        }
      }
    }
  }

  /** A process that makes its next call keeps its pass right. */
  lemma OwnCall(root: Ino, nodes: Nodes, todo: seq<Task>, order: seq<string>)
    requires PassRight(root, nodes, todo) && Closed(nodes) && todo != []
    requires todo[0].ListDir? ==> Lists(order, nodes[todo[0].i].children.Keys)
    ensures PassRight(root, Write(nodes, todo[0]), Follow(nodes, todo[0], order) + todo[1..])
  {
    var after, todo' := Write(nodes, todo[0]), Follow(nodes, todo[0], order) + todo[1..];
    assert TaskFits(nodes, todo[0]);
    WriteNearer(nodes, todo[0]);
    NearerShape(nodes, after);
    forall k | 0 <= k < |todo'| ensures TaskFits(after, todo'[k]) {
      FitsAfterCall(root, nodes, todo, order, k);
    }
    forall j | j in after && Reaches(after, root, j) ensures IsFixed(after[j]) || Covered(after, todo', j) {
      CoveredAfterCall(root, nodes, todo, order, j);
    }
  }

  lemma InvKept(root: Ino, w: World, l: Label)
    requires Inv(root, w) && Can(root, w, l)
    ensures Inv(root, Next(root, w, l))
  {
    match l
    case Spawn(_) =>
    case Crash(_) =>
    case CheckMarker(_) =>
      forall j | j in w.nodes && Reaches(w.nodes, root, j) ensures Covered(w.nodes, [ChownDir(root)], j) {
        assert Covers(w.nodes, [ChownDir(root)][0], j);
      }
      assert PassRight(root, w.nodes, [ChownDir(root)]);
    case CreateMarker(p) =>
      assert PassRight(root, w.nodes, []);
      assert forall j :: !Covered(w.nodes, [], j);
    case Call(p, order) => CallKept(root, w, p, order);
  }

  lemma CallKept(root: Ino, w: World, p: Pid, order: seq<string>)
    requires Inv(root, w) && Can(root, w, Call(p, order))
    ensures Inv(root, Next(root, w, Call(p, order)))
  {
    var t, after := w.procs[p].todo[0], Write(w.nodes, w.procs[p].todo[0]);
    assert PassRight(root, w.nodes, w.procs[p].todo);
    assert TaskFits(w.nodes, t);
    WriteNearer(w.nodes, t);
    NearerShape(w.nodes, after);
    OwnCall(root, w.nodes, w.procs[p].todo, order);
    var w' := Next(root, w, Call(p, order));
    forall q | q in w'.procs && w'.procs[q].Walking? ensures PassRight(root, after, w'.procs[q].todo) {
      if q != p {
        OthersUndisturbed(root, w.nodes, after, w.procs[q].todo);
      }
    }
    if w.marker {
      AllFixedStays(root, w.nodes, after);
    }
  }

  function At(root: Ino, nodes: Nodes, labels: seq<Label>): World {
    if labels == [] then World(nodes, false, map[])
    else Next(root, At(root, nodes, labels[..|labels| - 1]), labels[|labels| - 1])
  }

  ghost predicate Possible(root: Ino, nodes: Nodes, labels: seq<Label>) {
    labels == []
    || (&& Possible(root, nodes, labels[..|labels| - 1])
        && Can(root, At(root, nodes, labels[..|labels| - 1]), labels[|labels| - 1]))
  }

  /** In every run of any number of processes that may die anywhere: the marker exists only when the tree is fixed. */
  lemma {:induction false} MarkerMeansFixed(root: Ino, nodes: Nodes, labels: seq<Label>)
    requires Closed(nodes) && root in nodes && nodes[root].Dir? && Possible(root, nodes, labels)
    ensures Inv(root, At(root, nodes, labels))
    ensures var w := At(root, nodes, labels); w.marker ==> AllFixed(root, w.nodes)
  {
    if labels != [] {
      MarkerMeansFixed(root, nodes, labels[..|labels| - 1]);
      InvKept(root, At(root, nodes, labels[..|labels| - 1]), labels[|labels| - 1]);
    }
  }

  /** Whatever has run so far, every node still has the kind, names, target and executability it started with. */
  lemma {:induction false} OnlyOwnerAndMode(root: Ino, nodes: Nodes, labels: seq<Label>)
    requires Closed(nodes) && root in nodes && nodes[root].Dir? && Possible(root, nodes, labels)
    ensures var w := At(root, nodes, labels);
            && w.nodes.Keys == nodes.Keys
            && forall j | j in nodes :: Fix(w.nodes[j]) == Fix(nodes[j])
  {
    if labels != [] {
      var init, l := labels[..|labels| - 1], labels[|labels| - 1];
      OnlyOwnerAndMode(root, nodes, init);
      MarkerMeansFixed(root, nodes, init);
      var w := At(root, nodes, init);
      if l.Call? {
        var t := w.procs[l.p].todo[0];
        assert PassRight(root, w.nodes, w.procs[l.p].todo);
        assert TaskFits(w.nodes, t);
        WriteNearer(w.nodes, t);
        forall j | j in nodes ensures Fix(Write(w.nodes, t)[j]) == Fix(nodes[j]) {
          NearerNode(w.nodes[j], Write(w.nodes, t)[j]);
        }
      }
    }
  }
}
