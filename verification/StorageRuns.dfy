/**
 Whole runs of the start-up script: what the tree is like when the marker is there, that nothing outside the tree is
 touched, and that a process which is left alone comes to its end, whatever others have left behind.
 */
module StorageRuns {
  import opened Prelude
  import opened StorageInit

  // ---------------------------------------------------------------------------------------------------
  // What the script makes of a node
  // ---------------------------------------------------------------------------------------------------

  /** The owner, the group or others may execute it. */
  predicate Executable(mode: Mode) {
    (mode / 0x40) % 2 == 1 || (mode / 0x8) % 2 == 1 || mode % 2 == 1
  }

  lemma ExecutableBits(mode: Mode)
    ensures Executable(mode) <==> mode & EXEC_BITS != 0
  {
    assert mode & 0x49 != 0 <==> mode & 0x40 != 0 || mode & 0x8 != 0 || mode & 0x1 != 0;
    assert mode & 0x40 != 0 <==> (mode / 0x40) % 2 == 1;
    assert mode & 0x8 != 0 <==> (mode / 0x8) % 2 == 1;
    assert mode & 0x1 != 0 <==> mode % 2 == 1;
  }

  /** What a node is to become: owned by 1000, private, and executable for its owner if it was for anyone. */
  predicate Made(before: Node, after: Node) {
    && after.owner == Owner(1000, 1000)
    && match before
       case Dir(_, _, children) => after.Dir? && after.mode == 7 * 64 && after.children == children
       case Link(_, target) => after.Link? && after.target == target
       case File(_, mode) => after.File? && after.mode == if Executable(mode) then 7 * 64 else 6 * 64
  }

  lemma FixMakes(before: Node, after: Node)
    ensures Made(before, after) <==> after == Fix(before)
  {
    if before.File? {
      ExecutableBits(before.mode);
    }
  }

  // ---------------------------------------------------------------------------------------------------
  // The tree over a run
  // ---------------------------------------------------------------------------------------------------

  /** Every call that is ahead is about a node of the tree. */
  ghost predicate Inside(root: Ino, nodes: Nodes, w: World) {
    forall p, k | p in w.procs && w.procs[p].Walking? && 0 <= k < |w.procs[p].todo| ::
      Reaches(nodes, root, w.procs[p].todo[k].i)
  }

  lemma ReachesOn(nodes: Nodes, i: Ino, path: seq<string>, j: Ino, name: string)
    requires Walk(nodes, i, path) == Some(j) && j in nodes && nodes[j].Dir? && name in nodes[j].children
    requires nodes[j].children[name] in nodes
    ensures Reaches(nodes, i, nodes[j].children[name])
    decreases |path|
  {
    if path == [] {
      assert Walk(nodes, nodes[j].children[name], []) == Some(nodes[j].children[name]);
      assert [name][1..] == [];
      assert Walk(nodes, i, [name]) == Some(nodes[j].children[name]);
    } else {
      var child := nodes[i].children[path[0]];
      ReachesOn(nodes, child, path[1..], j, name);
      var rest :| Walk(nodes, child, rest) == Some(nodes[j].children[name]);
      assert ([path[0]] + rest)[1..] == rest;
      assert Walk(nodes, i, [path[0]] + rest) == Some(nodes[j].children[name]);
    }
  }

  /** What follows a call is about the same node or one of its entries. */
  lemma FollowInside(root: Ino, nodes: Nodes, w: World, t: Task, order: seq<string>)
    requires SameShape(nodes, w.nodes) && Closed(w.nodes) && t.i in w.nodes && Reaches(nodes, root, t.i)
    ensures forall k | 0 <= k < |Follow(w.nodes, t, order)| :: Reaches(nodes, root, Follow(w.nodes, t, order)[k].i)
  {
    var follow := Follow(w.nodes, t, order);
    if t.ListDir? && w.nodes[t.i].Dir? {
      var children := w.nodes[t.i].children;
      LooksRight(children, order);
      forall k | 0 <= k < |follow| ensures Reaches(nodes, root, follow[k].i) {
        assert Looks(children, order)[k].i in children.Values;
        var name :| name in children && children[name] == follow[k].i;
        var path :| Walk(nodes, root, path) == Some(t.i);
        ReachesOn(nodes, root, path, t.i, name);
      }
    }
  }

  ghost predicate OutsideKept(root: Ino, nodes: Nodes, w: World) {
    nodes.Keys == w.nodes.Keys && forall j | j in nodes && !Reaches(nodes, root, j) :: w.nodes[j] == nodes[j]
  }

  lemma CallInside(root: Ino, nodes: Nodes, w: World, p: Pid, order: seq<string>)
    requires Inv(root, w) && Can(root, w, Call(p, order))
    requires SameShape(nodes, w.nodes) && Inside(root, nodes, w) && OutsideKept(root, nodes, w)
    ensures var w' := Next(root, w, Call(p, order));
            SameShape(nodes, w'.nodes) && Inside(root, nodes, w') && OutsideKept(root, nodes, w')
  {
    var todo := w.procs[p].todo;
    var t := todo[0];
    assert PassRight(root, w.nodes, todo);
    assert TaskFits(w.nodes, t);
    WriteNearer(w.nodes, t);
    NearerShape(w.nodes, Write(w.nodes, t));
    FollowInside(root, nodes, w, t, order);
    CallsInside(root, nodes, w, p, order);
  }

  lemma CallsInside(root: Ino, nodes: Nodes, w: World, p: Pid, order: seq<string>)
    requires Can(root, w, Call(p, order)) && Inside(root, nodes, w)
    requires var follow := Follow(w.nodes, w.procs[p].todo[0], order);
             forall k | 0 <= k < |follow| :: Reaches(nodes, root, follow[k].i)
    ensures Inside(root, nodes, Next(root, w, Call(p, order)))
  {
    var follow, rest := Follow(w.nodes, w.procs[p].todo[0], order), w.procs[p].todo[1..];
    var w' := Next(root, w, Call(p, order));
    forall q, k | q in w'.procs && w'.procs[q].Walking? && 0 <= k < |w'.procs[q].todo|
      ensures Reaches(nodes, root, w'.procs[q].todo[k].i)
    {
      if q == p {
        assert (follow + rest)[k] == if k < |follow| then follow[k] else w.procs[p].todo[k - |follow| + 1];
      } else {
        assert w'.procs[q] == w.procs[q];
      }
    }
  }

  /** The shape stays, calls stay inside the tree, and nothing outside it is touched. */
  lemma {:induction false} OnlyTreeTouched(root: Ino, nodes: Nodes, labels: seq<Label>)
    requires Closed(nodes) && root in nodes && nodes[root].Dir? && Possible(root, nodes, labels)
    ensures var w := At(root, nodes, labels);
            SameShape(nodes, w.nodes) && Inside(root, nodes, w) && OutsideKept(root, nodes, w)
  {
    if labels == [] {
    } else {
      var init, l := labels[..|labels| - 1], labels[|labels| - 1];
      OnlyTreeTouched(root, nodes, init);
      MarkerMeansFixed(root, nodes, init);
      var w := At(root, nodes, init);
      if l.Call? {
        CallInside(root, nodes, w, l.p, l.order);
      } else if l.CheckMarker? {
        assert Walk(nodes, root, []) == Some(root);
      }
    }
  }

  /**
   When the marker is there, every node of the tree is what it is to become, measured by what it was before any process
   ran; the rest of the file system is as it was all the time.
   */
  lemma MarkerMeansMade(root: Ino, nodes: Nodes, labels: seq<Label>)
    requires Closed(nodes) && root in nodes && nodes[root].Dir? && Possible(root, nodes, labels)
    requires At(root, nodes, labels).marker
    ensures var w := At(root, nodes, labels);
            && w.nodes.Keys == nodes.Keys
            && forall j | j in nodes ::
                 if Reaches(nodes, root, j) then Made(nodes[j], w.nodes[j]) else w.nodes[j] == nodes[j]
  {
    var w := At(root, nodes, labels);
    OnlyTreeTouched(root, nodes, labels);
    MarkerMeansFixed(root, nodes, labels);
    OnlyOwnerAndMode(root, nodes, labels);
    SameUnder(nodes, w.nodes, root);
    forall j | j in nodes && Reaches(nodes, root, j) ensures Made(nodes[j], w.nodes[j]) {
      assert j in Under(nodes, root);
      FixMakes(nodes[j], w.nodes[j]);
    }
  }

  // ---------------------------------------------------------------------------------------------------
  // The marker over a run
  // ---------------------------------------------------------------------------------------------------

  /** A process that is done has left the marker or found it, and the marker stays. */
  lemma {:induction false} FinishedMeansMarked(root: Ino, nodes: Nodes, labels: seq<Label>)
    requires Possible(root, nodes, labels)
    ensures var w := At(root, nodes, labels); (exists p :: p in w.procs && w.procs[p].Finished?) ==> w.marker
    ensures labels != [] && At(root, nodes, labels[..|labels| - 1]).marker ==> At(root, nodes, labels).marker
  {
    if labels != [] {
      FinishedMeansMarked(root, nodes, labels[..|labels| - 1]);
    }
  }

  ghost predicate Leads(root: Ino, w: World, labels: seq<Label>, w': World)
    decreases |labels|
  {
    if labels == [] then w' == w
    else Can(root, w, labels[0]) && Leads(root, Next(root, w, labels[0]), labels[1..], w')
  }

  lemma {:induction false} LeadsOn(root: Ino, a: World, ls: seq<Label>, b: World, ms: seq<Label>, c: World)
    requires Leads(root, a, ls, b) && Leads(root, b, ms, c)
    ensures Leads(root, a, ls + ms, c)
    decreases |ls|
  {
    if ls == [] {
      assert ls + ms == ms;
    } else {
      LeadsOn(root, Next(root, a, ls[0]), ls[1..], b, ms, c);
      assert (ls + ms)[1..] == ls[1..] + ms;
    }
  }

  ghost predicate Idle(w: World) {
    w.marker && forall p | p in w.procs :: !w.procs[p].Walking?
  }

  /** Once the marker is there and no pass is under way, starts find it, and nothing in the tree changes any more. */
  lemma {:induction false} MarkedStartsAreIdle(root: Ino, w: World, labels: seq<Label>, w': World)
    requires Idle(w) && Leads(root, w, labels, w')
    ensures Idle(w') && w'.nodes == w.nodes
    decreases |labels|
  {
    if labels != [] {
      MarkedStartsAreIdle(root, Next(root, w, labels[0]), labels[1..], w');
    }
  }

  // ---------------------------------------------------------------------------------------------------
  // A process that is left alone
  // ---------------------------------------------------------------------------------------------------

  /** How many calls a task still leads to at its own node, at most. */
  function Stage(t: Task): nat {
    match t
    case Look(_) => 4
    case ChownDir(_) => 3
    case ChmodDir(_) => 2
    case ListDir(_) => 1
    case ChownFile(_, _) => 2
    case ChmodFile(_, _) => 1
    case ChownLink(_) => 1
  }

  /** The process has these calls ahead, in a tree whose entries are lower than their directories. */
  ghost predicate Ahead(root: Ino, w: World, p: Pid, todo: seq<Task>, rank: map<Ino, nat>) {
    Inv(root, w) && p in w.procs && w.procs[p] == Walking(todo) && Ranked(w.nodes, rank)
  }

  /** Only the process `p` has moved, to this list of calls, and the marker is as it was. */
  ghost predicate Came(w: World, w': World, p: Pid, todo: seq<Task>) {
    w'.procs == w.procs[p := Walking(todo)] && w'.marker == w.marker
  }

  lemma Listed(names: set<string>) returns (order: seq<string>)
    ensures Lists(order, names)
  {
    if names == {} {
      order := [];
    } else {
      var name :| name in names;
      order := Listed(names - {name});
      order := [name] + order;
    }
  }

  predicate Nearing(rank: map<Ino, nat>, t: Task, follow: seq<Task>, k: nat)
    requires k < |follow| && t.i in rank && follow[k].i in rank
  {
    rank[follow[k].i] < rank[t.i] || (|follow| == 1 && follow[k].i == t.i && Stage(follow[k]) < Stage(t))
  }

  lemma MakeCall(root: Ino, w: World, p: Pid, t: Task, rest: seq<Task>, rank: map<Ino, nat>)
    returns (l: Label, w': World, follow: seq<Task>)
    requires Ahead(root, w, p, [t] + rest, rank)
    ensures l.Call? && l.p == p && Can(root, w, l) && w' == Next(root, w, l)
    ensures Ahead(root, w', p, follow + rest, rank) && Came(w, w', p, follow + rest)
    ensures t.i in rank && forall k | 0 <= k < |follow| :: follow[k].i in rank && Nearing(rank, t, follow, k)
  {
    assert PassRight(root, w.nodes, [t] + rest);
    assert TaskFits(w.nodes, ([t] + rest)[0]);
    var order := [];
    if t.ListDir? {
      order := Listed(w.nodes[t.i].children.Keys);
    }
    l := Call(p, order);
    w' := Next(root, w, l);
    follow := Follow(w.nodes, t, order);
    assert ([t] + rest)[1..] == rest;
    InvKept(root, w, l);
    WriteNearer(w.nodes, t);
    NearerShape(w.nodes, w'.nodes);
    ShapeKeeps(w.nodes, w'.nodes, rank);
    FollowLower(w.nodes, t, order, rank);
  }

  /** What follows a call is about a lower node, or is the only call that follows, and about the same node further on. */
  lemma FollowLower(nodes: Nodes, t: Task, order: seq<string>, rank: map<Ino, nat>)
    requires Closed(nodes) && TaskFits(nodes, t) && Ranked(nodes, rank)
    ensures var follow := Follow(nodes, t, order);
            forall k | 0 <= k < |follow| :: follow[k].i in rank && Nearing(rank, t, follow, k)
  {
    var follow := Follow(nodes, t, order);
    if t.ListDir? {
      LooksLower(nodes, t.i, order, rank);
      assert follow == Looks(nodes[t.i].children, order);
      forall k | 0 <= k < |follow| ensures follow[k].i in rank && Nearing(rank, t, follow, k) {
      }
    }
  }

  lemma LooksLower(nodes: Nodes, i: Ino, order: seq<string>, rank: map<Ino, nat>)
    requires Closed(nodes) && i in nodes && nodes[i].Dir? && Ranked(nodes, rank)
    ensures var looks := Looks(nodes[i].children, order);
            forall k | 0 <= k < |looks| :: looks[k].i in rank && rank[looks[k].i] < rank[i]
  {
    var children := nodes[i].children;
    LooksRight(children, order);
    forall k | 0 <= k < |Looks(children, order)|
      ensures Looks(children, order)[k].i in rank && rank[Looks(children, order)[k].i] < rank[i]
    {
      assert Looks(children, order)[k].i in children.Values;
      var name :| name in children && children[name] == Looks(children, order)[k].i;
    }
  }

  /** One task comes to its end, with everything it leads to. */
  lemma DoTask(root: Ino, w: World, p: Pid, t: Task, rest: seq<Task>, rank: map<Ino, nat>)
    returns (labels: seq<Label>, w': World)
    requires Ahead(root, w, p, [t] + rest, rank) && t.i in rank
    ensures Leads(root, w, labels, w') && Ahead(root, w', p, rest, rank) && Came(w, w', p, rest)
    decreases rank[t.i], Stage(t), 0
  {
    var l, w1, follow := MakeCall(root, w, p, t, rest, rank);
    var ms: seq<Label>;
    if |follow| == 1 && follow[0].i == t.i {
      assert follow == [follow[0]];
      ms, w' := DoTask(root, w1, p, follow[0], rest, rank);
    } else {
      ms, w' := DoTasks(root, w1, p, follow, rest, rank, rank[t.i]);
    }
    labels := [l] + ms;
    assert labels[1..] == ms;
  }

  lemma DoTasks(root: Ino, w: World, p: Pid, tasks: seq<Task>, rest: seq<Task>, rank: map<Ino, nat>, bound: nat)
    returns (labels: seq<Label>, w': World)
    requires Ahead(root, w, p, tasks + rest, rank)
    requires forall k | 0 <= k < |tasks| :: tasks[k].i in rank && rank[tasks[k].i] < bound
    ensures Leads(root, w, labels, w') && Ahead(root, w', p, rest, rank) && Came(w, w', p, rest)
    decreases bound, 0, |tasks|
  {
    if tasks == [] {
      labels, w' := [], w;
      assert tasks + rest == rest;
    } else {
      assert tasks + rest == [tasks[0]] + (tasks[1..] + rest);
      var ls, w1 := DoTask(root, w, p, tasks[0], tasks[1..] + rest, rank);
      var ms, w2 := DoTasks(root, w1, p, tasks[1..], rest, rank, bound);
      LeadsOn(root, w, ls, w1, ms, w2);
      labels, w' := ls + ms, w2;
    }
  }

  lemma AllInRank(root: Ino, w: World, p: Pid, todo: seq<Task>, rank: map<Ino, nat>) returns (bound: nat)
    requires Ahead(root, w, p, todo, rank)
    ensures forall k | 0 <= k < |todo| :: todo[k].i in rank && rank[todo[k].i] < bound
  {
    assert PassRight(root, w.nodes, todo);
    assert forall k | 0 <= k < |todo| :: TaskFits(w.nodes, todo[k]);
    bound := Above(rank, todo);
  }

  lemma Above(rank: map<Ino, nat>, todo: seq<Task>) returns (bound: nat)
    requires forall k | 0 <= k < |todo| :: todo[k].i in rank
    ensures forall k | 0 <= k < |todo| :: rank[todo[k].i] < bound
  {
    bound := 0;
    if todo != [] {
      bound := Above(rank, todo[1..]);
      bound := bound + rank[todo[0].i] + 1;
      assert forall k | 0 < k < |todo| :: todo[k] == todo[1..][k - 1];
    }
  }

  /**
   A process that is left alone comes to its end, from any state that other processes, dead or alive, may have left: then
   the marker is there, and no other process has moved.
   */
  lemma FinishesAlone(root: Ino, w: World, p: Pid, rank: map<Ino, nat>) returns (labels: seq<Label>, w': World)
    requires Inv(root, w) && p in w.procs && (w.procs[p].Finished? ==> w.marker) && Ranked(w.nodes, rank)
    ensures Leads(root, w, labels, w')
    ensures w'.procs == w.procs[p := Finished] && w'.marker && AllFixed(root, w'.nodes)
  {
    match w.procs[p]
    case Finished =>
      labels, w' := [], w;
    case Walking(todo) =>
      labels, w' := FinishesWalking(root, w, p, todo, rank);
    case Begun =>
      var w1 := Next(root, w, CheckMarker(p));
      InvKept(root, w, CheckMarker(p));
      if w.marker {
        labels, w' := [CheckMarker(p)], w1;
      } else {
        var ls;
        ls, w' := FinishesWalking(root, w1, p, [ChownDir(root)], rank);
        labels := [CheckMarker(p)] + ls;
        assert labels[1..] == ls;
      }
  }

  lemma FinishesWalking(root: Ino, w: World, p: Pid, todo: seq<Task>, rank: map<Ino, nat>)
    returns (labels: seq<Label>, w': World)
    requires Ahead(root, w, p, todo, rank)
    ensures Leads(root, w, labels, w')
    ensures w'.procs == w.procs[p := Finished] && w'.marker && AllFixed(root, w'.nodes)
  {
    var bound := AllInRank(root, w, p, todo, rank);
    assert todo + [] == todo;
    var ls, w1 := DoTasks(root, w, p, todo, [], rank, bound);
    w' := Next(root, w1, CreateMarker(p));
    InvKept(root, w1, CreateMarker(p));
    var last := [CreateMarker(p)];
    assert last[1..] == [];
    assert Leads(root, w1, last, w');
    LeadsOn(root, w, ls, w1, last, w');
    labels := ls + last;
  }

  /** Starting, dying and looking for the marker touch neither the tree nor another process. */
  lemma ProcessesApart(root: Ino, w: World, l: Label)
    requires Can(root, w, l)
    ensures forall p | p != l.p ::
        (p in Next(root, w, l).procs <==> p in w.procs)
        && (p in w.procs ==> Next(root, w, l).procs[p] == w.procs[p])
    ensures !l.Call? ==> Next(root, w, l).nodes == w.nodes
    ensures !l.CreateMarker? ==> Next(root, w, l).marker == w.marker
    ensures l.Spawn? ==> l.p in Next(root, w, l).procs && Next(root, w, l).procs[l.p] == Begun
    ensures l.Crash? <==> l.p !in Next(root, w, l).procs
  {
  }
}
