/**
 The task list of the web client. Every operation that waits for the server is split at the wait: issuing a request
 captures what the closure captures, and the answer comes back at any later time, in any order, or never.
 Toasts, sorting and the payload of a task are left out.
 */
module TaskerStore {
  import opened Prelude

  datatype Task = Task(id: Id, status: string, body: string)

  type TimerId = nat

  /** What an asynchronous operation remembers while it waits; `no` tells requests apart. */
  datatype Request =
    | ListRequest(id: nat, revision: nat)
    | DetailRequest(no: nat, task: Id, listId: nat)
    | CancelRequest(no: nat, task: Id, generation: nat)
    | DeleteRequest(no: nat, task: Id, generation: nat)
    | Registration(no: nat, generation: nat)

  datatype Answer = Failed | Listed(tasks: seq<Task>, active: nat) | Detail(found: Option<Task>) | Done

  datatype Store = Store(
    tasks: seq<Task>,
    activeCount: nat,
    loading: bool,
    failed: bool,
    drawer: bool,
    admin: bool,
    pollingTimer: Option<TimerId>,
    pollingFailures: nat,
    generation: nat,
    listRequestId: nat,
    taskRevision: nat,
    detailRequests: map<Id, nat>,
    nextNo: nat,
    timers: set<TimerId>,
    inFlight: set<Request>)

  const FRESH := Store([], 0, false, false, false, false, None, 0, 0, 0, 0, map[], 0, {}, {})

  predicate Active(status: string) {
    status == "pending" || status == "running" || status == "queued"
  }

  predicate HasActiveTasks(s: Store) {
    s.activeCount > 0 || exists i | 0 <= i < |s.tasks| :: Active(s.tasks[i].status)
  }

  // ---------------------------------------------------------------------------------------------------
  // What the operations do
  // ---------------------------------------------------------------------------------------------------

  function StopPolling(s: Store): Store {
    s.(pollingTimer := None, timers := if s.pollingTimer.Some? then s.timers - {s.pollingTimer.value} else s.timers)
  }

  function StartPolling(s: Store): Store {
    if s.pollingTimer.Some? || s.loading then s
    else s.(pollingTimer := Some(s.nextNo), timers := s.timers + {s.nextNo}, nextNo := s.nextNo + 1)
  }

  function SyncPolling(s: Store): Store {
    if s.admin && (s.drawer || HasActiveTasks(s)) then StartPolling(s) else StopPolling(s)
  }

  function Reset(s: Store): Store {
    var s1 := StopPolling(s);
    s1.(generation := s1.generation + 1, listRequestId := s1.listRequestId + 1, detailRequests := map[],
        pollingFailures := 0, loading := false, tasks := [], failed := false, drawer := false, activeCount := 0)
  }

  function Put(tasks: seq<Task>, task: Task): seq<Task> {
    if tasks == [] then []
    else if tasks[0].id == task.id then [task] + tasks[1..]
    else [tasks[0]] + Put(tasks[1..], task)
  }

  predicate Has(tasks: seq<Task>, id: Id) {
    exists i | 0 <= i < |tasks| :: tasks[i].id == id
  }

  function Upsert(s: Store, task: Task): Store {
    if task.id == "" then s
    else s.(taskRevision := s.taskRevision + 1,
            tasks := if Has(s.tasks, task.id) then Put(s.tasks, task) else [task] + s.tasks)
  }

  /** Takes the first entry with the id out. */
  function Cut(tasks: seq<Task>, id: Id): seq<Task> {
    if tasks == [] then [] else if tasks[0].id == id then tasks[1..] else [tasks[0]] + Cut(tasks[1..], id)
  }

  function LoadTasks(s: Store): Store {
    if !s.admin then Reset(s)
    else
      var s1 := StopPolling(s.(listRequestId := s.listRequestId + 1));
      s1.(loading := true, failed := false, inFlight := s1.inFlight + {ListRequest(s1.listRequestId, s1.taskRevision)})
  }

  function RefreshTask(s: Store, task: Id): Store {
    if task == "" then s
    else s.(detailRequests := s.detailRequests[task := s.nextNo], nextNo := s.nextNo + 1,
            inFlight := s.inFlight + {DetailRequest(s.nextNo, task, s.listRequestId)})
  }

  function WithList(s: Store, r: Request, a: Answer): Store
    requires r.ListRequest?
  {
    if r.id != s.listRequestId || r.revision != s.taskRevision then s
    else if a.Listed? then s.(activeCount := a.active, tasks := a.tasks, pollingFailures := 0)
    else s.(failed := true, pollingFailures := s.pollingFailures + 1)
  }

  /** The part of an operation after its wait. */
  function Resume(s: Store, r: Request, a: Answer): Store {
    match r
    case ListRequest(id, revision) =>
      var s1 := WithList(s, r, a);
      if id == s1.listRequestId then SyncPolling(s1.(loading := false)) else s1
    case DetailRequest(no, task, listId) =>
      var mine := task in s.detailRequests && s.detailRequests[task] == no;
      var s1 := if !mine || listId != s.listRequestId then s
                else if a.Failed? then s.(failed := true)
                else if a.Detail? && a.found.Some? then Upsert(s, a.found.value)
                else s;
      if mine then s1.(detailRequests := s1.detailRequests - {task}) else s1
    case CancelRequest(_, task, generation) =>
      if generation != s.generation || a.Failed? then s else RefreshTask(s, task)
    case DeleteRequest(_, task, generation) =>
      if generation != s.generation || a.Failed? then s
      else s.(taskRevision := s.taskRevision + 1, detailRequests := s.detailRequests - {task}, tasks := Cut(s.tasks, task))
    case Registration(_, generation) =>
      if generation != s.generation || !s.admin || !a.Detail? || a.found.None? || a.found.value.id == "" then s
      else SyncPolling(Upsert(s, a.found.value))
  }

  datatype Label =
    | Load
    | Refresh(task: Id)
    | Cancel(task: Id)
    | Delete(task: Id)
    | Register
    | Answered(r: Request, a: Answer)
    | Drawer(open: bool)
    | TimerFires(hidden: bool)
    | SetUser(admin: bool)
    | ResetStore

  predicate Can(s: Store, l: Label) {
    match l
    case Answered(r, a) => r in s.inFlight
    case TimerFires(_) => s.pollingTimer.Some?
    case _ => true
  }

  function Next(s: Store, l: Label): Store {
    match l
    case Load => LoadTasks(s)
    case Refresh(task) => RefreshTask(s, task)
    case Cancel(task) => Issue(s, CancelRequest(s.nextNo, task, s.generation))
    case Delete(task) => Issue(s, DeleteRequest(s.nextNo, task, s.generation))
    case Register => Issue(s, Registration(s.nextNo, s.generation))
    case Answered(r, a) => Finished(Resume(s, r, a), r)
    case Drawer(open) => SyncPolling(s.(drawer := open))
    case TimerFires(hidden) =>
      var fired := StopPolling(s);
      if hidden then SyncPolling(fired) else LoadTasks(fired)
    case SetUser(admin) => Reset(s.(admin := admin))
    case ResetStore => Reset(s)
  }

  /** An answered request is over; a registration is a function that may be called again. */
  function Finished(s: Store, r: Request): Store {
    if r.Registration? then s else s.(inFlight := s.inFlight - {r})
  }

  function Issue(s: Store, r: Request): Store {
    s.(nextNo := s.nextNo + 1, inFlight := s.inFlight + {r})
  }

  // ---------------------------------------------------------------------------------------------------
  // The store itself
  // ---------------------------------------------------------------------------------------------------

  class Tasker {
    var tasks: seq<Task>
    var activeCount: nat
    var loading: bool
    var failed: bool
    var drawer: bool
    var admin: bool
    var pollingTimer: Option<TimerId>
    var pollingFailures: nat
    var generation: nat
    var listRequestId: nat
    var taskRevision: nat
    var detailRequests: map<Id, nat>
    var nextNo: nat
    ghost var timers: set<TimerId>
    ghost var inFlight: set<Request>

    ghost function View(): Store
      reads this
    {
      Store(tasks, activeCount, loading, failed, drawer, admin, pollingTimer, pollingFailures, generation,
            listRequestId, taskRevision, detailRequests, nextNo, timers, inFlight)
    }

    constructor ()
      ensures View() == FRESH && Inv(View())
    {
      FreshInv();
      tasks, activeCount, loading, failed, drawer, admin := [], 0, false, false, false, false;
      pollingTimer, pollingFailures, generation, listRequestId, taskRevision := None, 0, 0, 0, 0;
      detailRequests, nextNo, timers, inFlight := map[], 0, {}, {};
    }

    method EndPolling()
      modifies this`pollingTimer, this`timers
      ensures View() == StopPolling(old(View()))
    {
      if pollingTimer.Some? {
        timers := timers - {pollingTimer.value};
        pollingTimer := None;
      }
    }

    method BeginPolling()
      modifies this`pollingTimer, this`timers, this`nextNo
      ensures View() == StartPolling(old(View()))
    {
      if pollingTimer.Some? || loading {
        return;
      }
      pollingTimer, timers := Some(nextNo), timers + {nextNo};
      nextNo := nextNo + 1;
    }

    method Sync()
      modifies this`pollingTimer, this`timers, this`nextNo
      ensures View() == SyncPolling(old(View()))
    {
      if admin && (drawer || activeCount > 0 || exists i | 0 <= i < |tasks| :: Active(tasks[i].status)) {
        BeginPolling();
      } else {
        EndPolling();
      }
    }

    method ResetAll()
      modifies this
      ensures View() == Reset(old(View()))
    {
      EndPolling();
      generation, listRequestId, detailRequests := generation + 1, listRequestId + 1, map[];
      pollingFailures, loading := 0, false;
      tasks, failed, drawer, activeCount := [], false, false, 0;
    }

    method Save(task: Task)
      modifies this`taskRevision, this`tasks
      ensures View() == Upsert(old(View()), task)
    {
      if task.id == "" {
        return;
      }
      taskRevision := taskRevision + 1;
      var i := 0;
      while i < |tasks| && tasks[i].id != task.id
        invariant 0 <= i <= |tasks|
        invariant forall j | 0 <= j < i :: tasks[j].id != task.id
      {
        i := i + 1;
      }
      if i < |tasks| {
        PutAt(tasks, i, task);
        tasks := tasks[i := task];
      } else {
        tasks := [task] + tasks;
      }
    }

    method BeginLoad() returns (r: Option<Request>)
      modifies this
      ensures View() == LoadTasks(old(View()))
      ensures r == if old(admin) then Some(ListRequest(listRequestId, taskRevision)) else None
    {
      if !admin {
        ResetAll();
        r := None;
      } else {
        var q := NewList();
        r := Some(q);
      }
    }

    method NewList() returns (r: Request)
      requires admin
      modifies this
      ensures View() == LoadTasks(old(View()))
      ensures r == ListRequest(listRequestId, taskRevision)
    {
      listRequestId := listRequestId + 1;
      r := ListRequest(listRequestId, taskRevision);
      EndPolling();
      loading, failed := true, false;
      inFlight := inFlight + {r};
    }

    method EndLoad(r: Request, a: Answer)
      requires r.ListRequest?
      modifies this
      ensures View() == Resume(old(View()), r, a)
    {
      TakeList(r, a);
      if r.id == listRequestId {
        loading := false;
        Sync();
      }
    }

    /** The part of a load that a later request or a local write makes void. */
    method TakeList(r: Request, a: Answer)
      requires r.ListRequest?
      modifies this`activeCount, this`tasks, this`pollingFailures, this`failed
      ensures View() == WithList(old(View()), r, a)
    {
      if r.id != listRequestId || r.revision != taskRevision {
        return;
      }
      if a.Listed? {
        activeCount, tasks, pollingFailures := a.active, a.tasks, 0;
      } else {
        failed, pollingFailures := true, pollingFailures + 1;
      }
    }

    method BeginRefresh(task: Id)
      modifies this`detailRequests, this`nextNo, this`inFlight
      ensures View() == RefreshTask(old(View()), task)
    {
      if task == "" {
        return;
      }
      detailRequests := detailRequests[task := nextNo];
      inFlight := inFlight + {DetailRequest(nextNo, task, listRequestId)};
      nextNo := nextNo + 1;
    }

    method EndRefresh(r: Request, a: Answer)
      requires r.DetailRequest?
      modifies this`tasks, this`taskRevision, this`failed, this`detailRequests
      ensures View() == Resume(old(View()), r, a)
    {
      var mine := r.task in detailRequests && detailRequests[r.task] == r.no;
      if mine && r.listId == listRequestId {
        if a.Failed? {
          failed := true;
        } else if a.Detail? && a.found.Some? {
          Save(a.found.value);
        }
      }
      if mine {
        detailRequests := detailRequests - {r.task};
      }
    }

    method EndCancel(r: Request, a: Answer)
      requires r.CancelRequest?
      modifies this`detailRequests, this`nextNo, this`inFlight
      ensures View() == Resume(old(View()), r, a)
    {
      if r.generation == generation && !a.Failed? {
        BeginRefresh(r.task);
      }
    }

    method EndDelete(r: Request, a: Answer)
      requires r.DeleteRequest?
      modifies this`tasks, this`taskRevision, this`detailRequests
      ensures View() == Resume(old(View()), r, a)
    {
      if r.generation != generation || a.Failed? {
        return;
      }
      taskRevision := taskRevision + 1;
      detailRequests := detailRequests - {r.task};
      var i := 0;
      while i < |tasks| && tasks[i].id != r.task
        invariant 0 <= i <= |tasks|
        invariant forall j | 0 <= j < i :: tasks[j].id != r.task
      {
        i := i + 1;
      }
      CutAt(tasks, i, r.task);
      if i < |tasks| {
        tasks := tasks[..i] + tasks[i + 1..];
      }
    }

    method RegisterQueued(r: Request, task: Task)
      requires r.Registration?
      modifies this`tasks, this`taskRevision, this`pollingTimer, this`timers, this`nextNo
      ensures View() == Resume(old(View()), r, Detail(Some(task)))
    {
      if r.generation != generation || !admin || task.id == "" {
        return;
      }
      Save(task);
      Sync();
    }

    method OnTimer(hidden: bool)
      requires pollingTimer.Some?
      modifies this
      ensures View() == Next(old(View()), TimerFires(hidden))
    {
      timers := timers - {pollingTimer.value};
      pollingTimer := None;
      if hidden {
        Sync();
      } else {
        var _ := BeginLoad();
      }
    }

    method SetDrawer(open: bool)
      modifies this`drawer, this`pollingTimer, this`timers, this`nextNo
      ensures View() == Next(old(View()), Drawer(open))
    {
      drawer := open;
      Sync();
    }

    method OnUserChange(isAdmin: bool)
      modifies this
      ensures View() == Next(old(View()), SetUser(isAdmin))
    {
      admin := isAdmin;
      ResetAll();
    }
  }

  lemma {:induction false} PutAt(tasks: seq<Task>, i: nat, task: Task)
    requires i < |tasks| && tasks[i].id == task.id && forall j | 0 <= j < i :: tasks[j].id != task.id
    ensures Put(tasks, task) == tasks[i := task]
  {
    if i > 0 {
      PutAt(tasks[1..], i - 1, task);
      assert tasks[i := task] == [tasks[0]] + tasks[1..][i - 1 := task];
    } else {
      assert tasks[0 := task] == [task] + tasks[1..];
    }
  }

  lemma {:induction false} CutAt(tasks: seq<Task>, i: nat, id: Id)
    requires i <= |tasks| && (forall j | 0 <= j < i :: tasks[j].id != id) && (i < |tasks| ==> tasks[i].id == id)
    ensures Cut(tasks, id) == if i < |tasks| then tasks[..i] + tasks[i + 1..] else tasks
  {
    if i > 0 {
      CutAt(tasks[1..], i - 1, id);
      if i < |tasks| {
        assert tasks[1..][..i - 1] == tasks[1..i] && tasks[..i] == [tasks[0]] + tasks[1..i];
      }
    }
  }

  // ---------------------------------------------------------------------------------------------------
  // Invariant and whole runs
  // ---------------------------------------------------------------------------------------------------

  predicate NumberedBelow(r: Request, s: Store) {
    match r
    case ListRequest(id, revision) => id <= s.listRequestId && revision <= s.taskRevision
    case DetailRequest(no, _, listId) => no < s.nextNo && listId <= s.listRequestId
    case CancelRequest(no, _, generation) => no < s.nextNo && generation <= s.generation
    case DeleteRequest(no, _, generation) => no < s.nextNo && generation <= s.generation
    case Registration(no, generation) => no < s.nextNo && generation <= s.generation
  }

  predicate InFlightList(r: Request, s: Store) {
    r in s.inFlight && r.ListRequest? && r.id == s.listRequestId
  }

  /**
   At most one poll timer exists and none while loading; the loading flag is set exactly while the current list request
   is under way; there is at most one such request.
   */
  ghost predicate Inv(s: Store) {
    && s.timers == (if s.pollingTimer.Some? then {s.pollingTimer.value} else {})
    && (s.pollingTimer.Some? ==> !s.loading)
    && (s.loading <==> exists r :: InFlightList(r, s))
    && (forall r, q | InFlightList(r, s) && InFlightList(q, s) :: r == q)
    && (forall r | r in s.inFlight :: NumberedBelow(r, s))
    && (forall t | t in s.detailRequests :: s.detailRequests[t] < s.nextNo)
  }

  lemma StopKept(s: Store)
    requires Inv(s)
    ensures Inv(StopPolling(s)) && StopPolling(s).timers == {}
  {
    assert forall r :: InFlightList(r, StopPolling(s)) <==> InFlightList(r, s);
  }

  lemma SyncKept(s: Store)
    requires Inv(s)
    ensures Inv(SyncPolling(s))
  {
    StopKept(s);
    var s1 := StartPolling(s);
    assert forall r :: InFlightList(r, s1) <==> InFlightList(r, s);
    assert Inv(s1);
  }

  /** The parts of the state that the other operations leave alone. */
  predicate SameRequests(s: Store, s': Store) {
    && s'.timers == s.timers && s'.pollingTimer == s.pollingTimer && s'.loading == s.loading
    && s'.inFlight == s.inFlight && s'.listRequestId == s.listRequestId && s'.generation == s.generation
    && s'.nextNo >= s.nextNo && s'.taskRevision >= s.taskRevision
    && (forall t | t in s'.detailRequests :: s'.detailRequests[t] < s'.nextNo)
  }

  lemma SameKept(s: Store, s': Store)
    requires Inv(s) && SameRequests(s, s')
    ensures Inv(s')
  {
    assert forall r :: InFlightList(r, s') <==> InFlightList(r, s);
    forall r | r in s'.inFlight ensures NumberedBelow(r, s') {
      assert NumberedBelow(r, s);
    }
  }

  lemma ResetKept(s: Store)
    requires Inv(s)
    ensures Inv(Reset(s))
  {
    StopKept(s);
    var s' := Reset(s);
    forall r | r in s'.inFlight ensures NumberedBelow(r, s') && !InFlightList(r, s') {
      assert NumberedBelow(r, s);
    }
  }

  lemma LoadKept(s: Store)
    requires Inv(s)
    ensures Inv(LoadTasks(s))
  {
    if s.admin {
      var s' := LoadTasks(s);
      var r := ListRequest(s'.listRequestId, s'.taskRevision);
      assert InFlightList(r, s');
      forall q | q in s'.inFlight ensures NumberedBelow(q, s') && (InFlightList(q, s') ==> q == r) {
        assert q != r ==> NumberedBelow(q, s);
      }
    } else {
      ResetKept(s);
    }
  }

  /** More in flight, none of it a list request. */
  lemma IssueKept(s: Store, s': Store, r: Request)
    requires Inv(s) && !r.ListRequest? && SameRequests(s, s'.(inFlight := s.inFlight))
    requires s'.inFlight == s.inFlight + {r} && NumberedBelow(r, s')
    ensures Inv(s')
  {
    var s1 := s'.(inFlight := s.inFlight);
    SameKept(s, s1);
    assert forall q :: InFlightList(q, s') <==> InFlightList(q, s1);
    forall q | q in s'.inFlight ensures NumberedBelow(q, s') {
      assert q != r ==> NumberedBelow(q, s1);
    }
  }

  lemma RefreshKept(s: Store, task: Id)
    requires Inv(s)
    ensures Inv(RefreshTask(s, task))
  {
    if task != "" {
      IssueKept(s, RefreshTask(s, task), DetailRequest(s.nextNo, task, s.listRequestId));
    }
  }

  lemma DoneKept(s: Store, r: Request)
    requires Inv(s) && !InFlightList(r, s)
    ensures Inv(s.(inFlight := s.inFlight - {r}))
  {
    var s' := s.(inFlight := s.inFlight - {r});
    assert forall q :: InFlightList(q, s') <==> InFlightList(q, s);
    forall q | q in s'.inFlight ensures NumberedBelow(q, s') {
      assert NumberedBelow(q, s);
    }
  }

  lemma ListEnds(s: Store, r: Request)
    requires Inv(s) && InFlightList(r, s)
    ensures Inv(s.(loading := false, inFlight := s.inFlight - {r}))
  {
    var s2 := s.(loading := false, inFlight := s.inFlight - {r});
    forall q | q in s2.inFlight ensures NumberedBelow(q, s2) && !InFlightList(q, s2) {
      assert NumberedBelow(q, s);
      assert InFlightList(q, s2) ==> InFlightList(q, s) && InFlightList(r, s);
    }
  }

  /** What is in flight plays no part in polling. */
  lemma SyncApart(s: Store, r: Request)
    ensures SyncPolling(s).(inFlight := SyncPolling(s).inFlight - {r}) == SyncPolling(s.(inFlight := s.inFlight - {r}))
  {
  }

  /** The answer to a list request that is still the current one. */
  lemma ListDone(s: Store, r: Request, a: Answer)
    requires Inv(s) && InFlightList(r, s)
    ensures Inv(Next(s, Answered(r, a)))
  {
    var s1 := WithList(s, r, a);
    SameKept(s, s1);
    ListEnds(s1, r);
    SyncKept(s1.(loading := false, inFlight := s1.inFlight - {r}));
    SyncApart(s1.(loading := false), r);
  }

  lemma AnswerKept(s: Store, r: Request, a: Answer)
    requires Inv(s) && r in s.inFlight
    ensures Inv(Next(s, Answered(r, a)))
  {
    if InFlightList(r, s) {
      ListDone(s, r, a);
    } else {
      OtherAnswerKept(s, r, a);
      if !r.Registration? {
        DoneKept(Resume(s, r, a), r);
      }
    }
  }

  lemma DetailKept(s: Store, r: Request, a: Answer)
    requires Inv(s) && r.DetailRequest?
    ensures Inv(Resume(s, r, a))
  {
    DetailSame(s, r, a);
    SameKept(s, Resume(s, r, a));
  }

  lemma DetailSame(s: Store, r: Request, a: Answer)
    requires r.DetailRequest? && forall t | t in s.detailRequests :: s.detailRequests[t] < s.nextNo
    ensures SameRequests(s, Resume(s, r, a))
  {
  }

  lemma OtherAnswerKept(s: Store, r: Request, a: Answer)
    requires Inv(s) && r in s.inFlight && !InFlightList(r, s)
    ensures Inv(Resume(s, r, a)) && !InFlightList(r, Resume(s, r, a))
  {
    if r.DetailRequest? {
      DetailKept(s, r, a);
    } else if r.CancelRequest? {
      RefreshKept(s, r.task);
    } else if r.DeleteRequest? {
      SameKept(s, Resume(s, r, a));
    } else if r.Registration? {
      RegistrationKept(s, r, a);
    }
  }

  lemma RegistrationKept(s: Store, r: Request, a: Answer)
    requires Inv(s) && r.Registration?
    ensures Inv(Resume(s, r, a))
  {
    if a.Detail? && a.found.Some? {
      SameKept(s, Upsert(s, a.found.value));
      SyncKept(Upsert(s, a.found.value));
    }
  }

  lemma InvKept(s: Store, l: Label)
    requires Inv(s) && Can(s, l)
    ensures Inv(Next(s, l))
  {
    match l
    case Load => LoadKept(s);
    case Refresh(task) => RefreshKept(s, task);
    case Cancel(task) => IssueKept(s, Next(s, l), CancelRequest(s.nextNo, task, s.generation));
    case Delete(task) => IssueKept(s, Next(s, l), DeleteRequest(s.nextNo, task, s.generation));
    case Register => IssueKept(s, Next(s, l), Registration(s.nextNo, s.generation));
    case Answered(r, a) => AnswerKept(s, r, a);
    case Drawer(open) =>
      SameKept(s, s.(drawer := open));
      SyncKept(s.(drawer := open));
    case TimerFires(_) =>
      StopKept(s);
      SyncKept(StopPolling(s));
      LoadKept(StopPolling(s));
    case SetUser(admin) =>
      SameKept(s, s.(admin := admin));
      ResetKept(s.(admin := admin));
    case ResetStore => ResetKept(s);
  }

  // ---------------------------------------------------------------------------------------------------
  // When the list is polled
  // ---------------------------------------------------------------------------------------------------

  /** A task is on its way: the server counts one, or one in the list is pending, queued or running. */
  predicate Busy(s: Store) {
    s.activeCount > 0 || exists i | 0 <= i < |s.tasks| :: s.tasks[i].status in {"pending", "queued", "running"}
  }

  /** A timer runs if and only if an admin has the drawer open or a task is on its way, and no list is under way. */
  predicate Polled(s: Store) {
    s.pollingTimer.Some? <==> s.admin && (s.drawer || Busy(s)) && !s.loading
  }

  lemma BusyMeans(s: Store)
    ensures HasActiveTasks(s) <==> Busy(s)
  {
  }

  lemma SyncPolls(s: Store)
    requires s.pollingTimer.Some? ==> !s.loading
    ensures Polled(SyncPolling(s))
  {
    var s' := SyncPolling(s);
    BusyMeans(s);
    BusyMeans(s');
    assert s'.tasks == s.tasks;
  }

  /** A detail that was taken or a deletion that was carried out; these leave the timer to the next list. */
  predicate ChangesTasks(s: Store, l: Label) {
    l.Answered? && !l.r.Registration? && AnswerWrites(s, l.r, l.a)
  }

  lemma Unpolled(s: Store)
    requires Inv(s)
    ensures Polled(Reset(s)) && Polled(LoadTasks(s))
  {
  }

  lemma SamePolled(s: Store, s': Store)
    requires Polled(s) && s'.tasks == s.tasks && s'.activeCount == s.activeCount && s'.admin == s.admin
    requires s'.drawer == s.drawer && s'.loading == s.loading && s'.pollingTimer == s.pollingTimer
    ensures Polled(s')
  {
  }

  lemma ListPolled(s: Store, r: Request, a: Answer)
    requires Inv(s) && Polled(s) && r.ListRequest?
    ensures Polled(Resume(s, r, a))
  {
    var s1 := WithList(s, r, a);
    if r.id == s1.listRequestId {
      SyncPolls(s1.(loading := false));
    } else {
      SamePolled(s, s1);
    }
  }

  lemma AnswerPolled(s: Store, r: Request, a: Answer)
    requires Inv(s) && Polled(s) && !ChangesTasks(s, Answered(r, a))
    ensures Polled(Resume(s, r, a))
  {
    if r.ListRequest? {
      ListPolled(s, r, a);
    } else if r.Registration? {
      if a.Detail? && a.found.Some? {
        SyncPolls(Upsert(s, a.found.value));
      }
    } else {
      SamePolled(s, Resume(s, r, a));
    }
  }

  /** Every step keeps the timer right, except an answer that changes the tasks by itself. */
  lemma StepPolled(s: Store, l: Label)
    requires Inv(s) && Polled(s) && Can(s, l) && !ChangesTasks(s, l)
    ensures Polled(Next(s, l))
  {
    match l
    case Load => Unpolled(s);
    case Answered(r, a) =>
      AnswerPolled(s, r, a);
      SamePolled(Resume(s, r, a), Next(s, l));
    case Drawer(open) => SyncPolls(s.(drawer := open));
    case TimerFires(_) =>
      StopKept(s);
      SyncPolls(StopPolling(s));
      Unpolled(StopPolling(s));
    case SetUser(admin) =>
      SameKept(s, s.(admin := admin));
      Unpolled(s.(admin := admin));
    case ResetStore => Unpolled(s);
    case Refresh(_) => SamePolled(s, Next(s, l));
    case Cancel(_) => SamePolled(s, Next(s, l));
    case Delete(_) => SamePolled(s, Next(s, l));
    case Register => SamePolled(s, Next(s, l));
  }

  /** These put it right whatever it was: the answer of the current list, the drawer, a timer, a new user, a reset, a load. */
  lemma StepSyncs(s: Store, l: Label)
    requires Inv(s) && Can(s, l)
    requires match l
             case Answered(r, _) => r.ListRequest? && r.id == s.listRequestId
             case Drawer(_) => true
             case TimerFires(_) => true
             case SetUser(_) => true
             case ResetStore => true
             case Load => true
             case _ => false
    ensures Polled(Next(s, l))
  {
    match l
    case Load => Unpolled(s);
    case Answered(r, a) =>
      SyncPolls(WithList(s, r, a).(loading := false));
      SamePolled(Resume(s, r, a), Next(s, l));
    case Drawer(open) => SyncPolls(s.(drawer := open));
    case TimerFires(_) =>
      StopKept(s);
      SyncPolls(StopPolling(s));
      Unpolled(StopPolling(s));
    case SetUser(admin) =>
      SameKept(s, s.(admin := admin));
      Unpolled(s.(admin := admin));
    case ResetStore => Unpolled(s);
    case _ =>
  }

  function From(s: Store, labels: seq<Label>): Store {
    if labels == [] then s else Next(From(s, labels[..|labels| - 1]), labels[|labels| - 1])
  }

  predicate Possible(s: Store, labels: seq<Label>) {
    labels == []
    || (Possible(s, labels[..|labels| - 1]) && Can(From(s, labels[..|labels| - 1]), labels[|labels| - 1]))
  }

  /** In every state of every run there is at most one poll timer, and loading means that the current list is under way. */
  lemma {:induction false} AlwaysInv(s: Store, labels: seq<Label>)
    requires Inv(s) && Possible(s, labels)
    ensures var s' := From(s, labels);
            Inv(s') && |s'.timers| <= 1 && (s'.loading <==> exists r :: InFlightList(r, s'))
  {
    if labels != [] {
      AlwaysInv(s, labels[..|labels| - 1]);
      InvKept(From(s, labels[..|labels| - 1]), labels[|labels| - 1]);
    }
    var s' := From(s, labels);
    assert s'.timers == {} || exists t :: s'.timers == {t};
  }

  predicate NoneChangesTasks(s: Store, labels: seq<Label>) {
    labels == []
    || (&& NoneChangesTasks(s, labels[..|labels| - 1])
        && !ChangesTasks(From(s, labels[..|labels| - 1]), labels[|labels| - 1]))
  }

  /** So the timer is right in every state of every run without such answers, from any state in which it is. */
  lemma {:induction false} AlwaysPolled(s: Store, labels: seq<Label>)
    requires Inv(s) && Polled(s) && Possible(s, labels) && NoneChangesTasks(s, labels)
    ensures Polled(From(s, labels))
  {
    if labels != [] {
      AlwaysPolled(s, labels[..|labels| - 1]);
      AlwaysInv(s, labels[..|labels| - 1]);
      StepPolled(From(s, labels[..|labels| - 1]), labels[|labels| - 1]);
    }
  }

  /**
   What a local write leaves: a task that is taken stands at the first place it had, or first of all if it had none; a
   task that was deleted has lost its first place; all others stand as they stood.
   */
  lemma WritesRight(s: Store, task: Task, i: nat)
    requires task.id != "" && i <= |s.tasks| && (forall j | 0 <= j < i :: s.tasks[j].id != task.id)
    requires i < |s.tasks| ==> s.tasks[i].id == task.id
    ensures Upsert(s, task).tasks == if i < |s.tasks| then s.tasks[..i] + [task] + s.tasks[i + 1..] else [task] + s.tasks
    ensures Cut(s.tasks, task.id) == if i < |s.tasks| then s.tasks[..i] + s.tasks[i + 1..] else s.tasks
  {
    CutAt(s.tasks, i, task.id);
    if i < |s.tasks| {
      PutAt(s.tasks, i, task);
      assert Has(s.tasks, task.id);
      assert s.tasks[i := task] == s.tasks[..i] + [task] + s.tasks[i + 1..];
    }
  }

  lemma FreshInv()
    ensures Inv(FRESH)
  {
    assert forall r :: !InFlightList(r, FRESH);
  }

  // ---------------------------------------------------------------------------------------------------
  // Answers that come too late
  // ---------------------------------------------------------------------------------------------------

  /** A request of a session that is over. */
  predicate Stale(r: Request, s: Store) {
    match r
    case ListRequest(id, _) => id < s.listRequestId
    case DetailRequest(no, task, listId) =>
      listId < s.listRequestId && no < s.nextNo && !(task in s.detailRequests && s.detailRequests[task] == no)
    case CancelRequest(_, _, generation) => generation < s.generation
    case DeleteRequest(_, _, generation) => generation < s.generation
    case Registration(_, generation) => generation < s.generation
  }

  /** Counters only go up, and a detail entry is an old one or has a new number. */
  predicate Grows(s: Store, s': Store) {
    && s'.listRequestId >= s.listRequestId && s'.generation >= s.generation && s'.nextNo >= s.nextNo
    && (forall t | t in s'.detailRequests ::
          (t in s.detailRequests && s.detailRequests[t] == s'.detailRequests[t]) || s'.detailRequests[t] >= s.nextNo)
  }

  /** What answering `r` adds to the revision of the tasks. */
  predicate AnswerWrites(s: Store, r: Request, a: Answer) {
    || (r.DeleteRequest? && r.generation == s.generation && !a.Failed?)
    || (&& r.DetailRequest? && r.task in s.detailRequests && s.detailRequests[r.task] == r.no
        && r.listId == s.listRequestId && a.Detail? && a.found.Some? && a.found.value.id != "")
    || (r.Registration? && r.generation == s.generation && s.admin && a.Detail? && a.found.Some? && a.found.value.id != "")
  }

  /** A step of the store: everything grows, and the revision counts the local writes. */
  predicate Steps(s: Store, s': Store, writes: bool) {
    Grows(s, s') && s'.taskRevision == s.taskRevision + if writes then 1 else 0
  }

  lemma SyncSteps(s: Store)
    ensures Steps(s, SyncPolling(s), false) && Steps(s, StopPolling(s), false)
  {
  }

  lemma LoadSteps(s: Store)
    ensures Steps(s, Reset(s), false) && Steps(s, LoadTasks(s), false)
  {
    SyncSteps(s);
  }

  lemma ListSteps(s: Store, r: Request, a: Answer)
    requires r.ListRequest?
    ensures Steps(s, Resume(s, r, a), false)
  {
    SyncSteps(WithList(s, r, a).(loading := false));
  }

  lemma RegistrationSteps(s: Store, r: Request, a: Answer)
    requires r.Registration?
    ensures Steps(s, Resume(s, r, a), AnswerWrites(s, r, a))
  {
    if a.Detail? && a.found.Some? {
      SyncSteps(Upsert(s, a.found.value));
    }
  }

  lemma AnswerSteps(s: Store, r: Request, a: Answer)
    ensures Steps(s, Resume(s, r, a), AnswerWrites(s, r, a))
  {
    if r.ListRequest? {
      ListSteps(s, r, a);
    } else if r.Registration? {
      RegistrationSteps(s, r, a);
    }
  }

  /** The tasks were written locally: an upsert, or a deletion that was carried out. */
  predicate Writes(s: Store, l: Label) {
    l.Answered? && AnswerWrites(s, l.r, l.a)
  }

  lemma TimerSteps(s: Store, hidden: bool)
    ensures Steps(s, Next(s, TimerFires(hidden)), false)
  {
    SyncSteps(s);
    SyncSteps(StopPolling(s));
    LoadSteps(StopPolling(s));
  }

  lemma EveryStep(s: Store, l: Label)
    ensures Steps(s, Next(s, l), Writes(s, l))
  {
    match l
    case Load => LoadSteps(s);
    case Refresh(_) =>
    case Cancel(_) =>
    case Delete(_) =>
    case Register =>
    case Answered(r, a) => AnswerSteps(s, r, a);
    case Drawer(open) => SyncSteps(s.(drawer := open));
    case TimerFires(hidden) => TimerSteps(s, hidden);
    case SetUser(admin) => LoadSteps(s.(admin := admin));
    case ResetStore => LoadSteps(s);
  }

  lemma StaysStale(s: Store, s': Store, r: Request)
    requires Stale(r, s) && Grows(s, s')
    ensures Stale(r, s')
  {
  }

  /** A reset makes everything that is under way stale. */
  lemma ResetStales(s: Store, r: Request)
    requires Inv(s) && r in s.inFlight
    ensures Stale(r, Reset(s))
  {
    assert NumberedBelow(r, s);
  }

  /**
   An answer to a request made before a reset, whenever and however often it comes and whatever it says, changes nothing: the list, the
   flags, the timer and the requests of the new session stay as they are.
   */
  lemma {:induction false} LateAnswerIsSilent(s: Store, r: Request, labels: seq<Label>, a: Answer)
    requires Inv(s) && r in s.inFlight
    ensures var s' := From(Reset(s), labels);
            Stale(r, s') && Next(s', Answered(r, a)) == Finished(s', r)
  {
    if labels == [] {
      ResetStales(s, r);
    } else {
      LateAnswerIsSilent(s, r, labels[..|labels| - 1], a);
      EveryStep(From(Reset(s), labels[..|labels| - 1]), labels[|labels| - 1]);
      StaysStale(From(Reset(s), labels[..|labels| - 1]), From(Reset(s), labels), r);
    }
    StaleIsSilent(From(Reset(s), labels), r, a);
  }

  lemma StaleIsSilent(s: Store, r: Request, a: Answer)
    requires Stale(r, s)
    ensures Resume(s, r, a) == s
  {
  }

  predicate WroteSince(s: Store, labels: seq<Label>) {
    labels != []
    && (WroteSince(s, labels[..|labels| - 1]) || Writes(From(s, labels[..|labels| - 1]), labels[|labels| - 1]))
  }

  lemma {:induction false} RevisionCounts(s: Store, labels: seq<Label>)
    ensures From(s, labels).taskRevision >= s.taskRevision && From(s, labels).listRequestId >= s.listRequestId
    ensures From(s, labels).taskRevision > s.taskRevision <==> WroteSince(s, labels)
  {
    if labels != [] {
      RevisionCounts(s, labels[..|labels| - 1]);
      EveryStep(From(s, labels[..|labels| - 1]), labels[|labels| - 1]);
    }
  }

  /**
   A list that was requested in state `s` is taken exactly when, since then, no other list was requested, nothing was
   reset and no task was written locally; otherwise tasks, counts and error stay as they are.
   */
  lemma ListTakenIffUntouched(s: Store, labels: seq<Label>, tasks: seq<Task>, active: nat)
    requires s.admin
    ensures var r := ListRequest(s.listRequestId + 1, s.taskRevision);
            var s1 := From(LoadTasks(s), labels);
            var s2 := Next(s1, Answered(r, Listed(tasks, active)));
            if s1.listRequestId == s.listRequestId + 1 && !WroteSince(LoadTasks(s), labels) then
              s2.tasks == tasks && s2.activeCount == active && s2.pollingFailures == 0
            else
              s2.tasks == s1.tasks && s2.activeCount == s1.activeCount && s2.failed == s1.failed
              && s2.pollingFailures == s1.pollingFailures
  {
    RevisionCounts(LoadTasks(s), labels);
    var r := ListRequest(s.listRequestId + 1, s.taskRevision);
    Settled(WithList(From(LoadTasks(s), labels), r, Listed(tasks, active)).(loading := false));
  }

  /**
   An error of the list is shown, and counted for the next poll, exactly when the list would have been taken; the tasks stay
   as they are.
   */
  lemma ListFailedIffUntouched(s: Store, labels: seq<Label>)
    requires s.admin
    ensures var r := ListRequest(s.listRequestId + 1, s.taskRevision);
            var s1 := From(LoadTasks(s), labels);
            var s2 := Next(s1, Answered(r, Failed));
            && !LoadTasks(s).failed
            && s2.tasks == s1.tasks && s2.activeCount == s1.activeCount
            && if s1.listRequestId == s.listRequestId + 1 && !WroteSince(LoadTasks(s), labels) then
                 s2.failed && s2.pollingFailures == s1.pollingFailures + 1
               else s2.failed == s1.failed && s2.pollingFailures == s1.pollingFailures
  {
    RevisionCounts(LoadTasks(s), labels);
    var r := ListRequest(s.listRequestId + 1, s.taskRevision);
    Settled(WithList(From(LoadTasks(s), labels), r, Failed).(loading := false));
  }

  /**
   Refreshing a task puts a request for it under way that is the latest of its task; a cancellation that succeeded in its
   session does the same, one that failed or comes late does nothing; the answer to the latest request ends it.
   */
  lemma RefreshRight(s: Store, task: Id, no: nat, listId: nat, a: Answer)
    requires task != ""
    ensures var s' := Next(s, Refresh(task));
            exists r :: r in s'.inFlight && r.DetailRequest? && r.task == task && r.listId == s.listRequestId
                        && task in s'.detailRequests && s'.detailRequests[task] == r.no
    ensures Resume(s, CancelRequest(no, task, s.generation), Done) == Next(s, Refresh(task))
    ensures Resume(s, CancelRequest(no, task, s.generation), Failed) == s
    ensures task in s.detailRequests && s.detailRequests[task] == no ==>
        task !in Resume(s, DetailRequest(no, task, listId), a).detailRequests
  {
    assert DetailRequest(s.nextNo, task, s.listRequestId) in Next(s, Refresh(task)).inFlight;
  }

  /** A timer that fires on a visible page requests the list; on a hidden one it requests nothing and keeps the page polled. */
  lemma TimerRight(s: Store, hidden: bool)
    requires Inv(s) && Can(s, TimerFires(hidden)) && s.admin
    ensures var s' := Next(s, TimerFires(hidden));
            && s'.tasks == s.tasks && Polled(s')
            && if hidden then s'.inFlight == s.inFlight && s'.loading == s.loading
               else s'.loading && ListRequest(s.listRequestId + 1, s.taskRevision) in s'.inFlight
  {
    StopKept(s);
    SyncPolls(StopPolling(s));
    Unpolled(StopPolling(s));
    Settled(StopPolling(s));
  }

  /** An error of a detail is shown if and only if that detail would have been taken; a reset shows an empty, quiet page. */
  lemma DetailFailure(s: Store, r: Request)
    requires r.DetailRequest?
    ensures Resume(s, r, Failed).failed
        == (s.failed || (r.task in s.detailRequests && s.detailRequests[r.task] == r.no && r.listId == s.listRequestId))
    ensures Resume(s, r, Failed).tasks == s.tasks
    ensures var s' := Reset(s);
            && s'.tasks == [] && s'.activeCount == 0 && !s'.loading && !s'.failed && !s'.drawer
            && s'.pollingTimer.None? && s'.pollingFailures == 0 && s'.detailRequests == map[]
  {
  }

  lemma Settled(s: Store)
    ensures var s' := SyncPolling(s);
            && s'.tasks == s.tasks && s'.activeCount == s.activeCount && s'.failed == s.failed
            && s'.pollingFailures == s.pollingFailures
  {
  }
}