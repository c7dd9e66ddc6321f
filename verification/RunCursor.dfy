/**
 The browser's cursor over a run's event log: which events of a run are taken when streams break, are replayed and are
 opened again. Positions are stream ids "major-minor"; a malformed id counts as 0-0.
 */
module RunCursor {
  import opened Prelude

  datatype Pos = Pos(major: nat, minor: nat)

  const ZERO := Pos(0, 0)

  /** Positive when `a` is later than `b`, as the comparison of the two numbers one after the other. */
  function Compare(a: Pos, b: Pos): int {
    if a.major > b.major then 1
    else if a.major < b.major then -1
    else if a.minor > b.minor then 1
    else if a.minor < b.minor then -1
    else 0
  }

  /** The order in which a stream hands out its ids: the time first, and within one time the counter. */
  predicate Later(a: Pos, b: Pos) {
    a.major > b.major || (a.major == b.major && a.minor > b.minor)
  }

  /** The browser's comparison is that order: a larger major is later whatever the minors, then the larger minor. */
  lemma Ordered(a: Pos, b: Pos, c: Pos)
    ensures a.major > b.major ==> Compare(a, b) > 0
    ensures a.major == b.major ==> (Compare(a, b) > 0 <==> a.minor > b.minor)
    ensures Compare(a, b) > 0 <==> Later(a, b)
    ensures Compare(a, b) == -Compare(b, a) && (Compare(a, b) == 0 <==> a == b)
    ensures Compare(a, b) > 0 && Compare(b, c) >= 0 ==> Compare(a, c) > 0
  {
  }

  type RunId = nat

  type StreamId = nat

  /** The final event log of every run; ids go up and start after 0-0. A server sends parts of it as they exist. */
  type Logs = RunId -> seq<Pos>

  ghost predicate GoodLogs(logs: Logs) {
    forall r: RunId :: Upward(logs(r))
  }

  predicate Upward(log: seq<Pos>) {
    && (forall i | 0 <= i < |log| :: Later(log[i], ZERO))
    && (forall i, j | 0 <= i < j < |log| :: Later(log[j], log[i]))
  }

  /** What the server sends first to a client that has everything up to `last`. */
  function Behind(log: seq<Pos>, last: Pos): nat {
    if log == [] || Later(log[|log| - 1], last) then
      if log == [] then 0 else Behind(log[..|log| - 1], last)
    else |log|
  }

  /** A subscription: its run, and the place in the log of the event that comes next. */
  datatype Stream = Stream(run: RunId, place: nat)

  /** An event that reached the handler: its place, and whether it carried its id. */
  datatype Handled = Handled(place: nat, withId: bool)

  /**
   `handled` is what was handled of the active run since what was shown was last cleared or the run was started; `base` is
   the place of the event that was due then.
   */
  datatype Client = Client(
    active: Option<RunId>,
    last: Pos,
    streams: map<StreamId, Stream>,
    base: nat,
    handled: seq<Handled>)

  const FRESH := Client(None, ZERO, map[], 0, [])

  datatype Label =
    | Start(s: StreamId, run: RunId, after: Pos)
    | Clear
    | Deliver(s: StreamId)
    | Malformed(s: StreamId)
    | DeliverCut(s: StreamId)
    | Break(s: StreamId)
    | Finalize(idle: bool, interrupted: bool)

  predicate Can(logs: Logs, c: Client, l: Label) {
    match l
    case Start(s, _, _) => s !in c.streams
    case Clear => true
    case Deliver(s) => s in c.streams && c.streams[s].place < |logs(c.streams[s].run)|
    case DeliverCut(s) => s in c.streams && c.streams[s].place < |logs(c.streams[s].run)|
    case Malformed(s) => s in c.streams
    case Break(s) => s in c.streams
    case Finalize(_, _) => true
  }

  /** The handler of one event: `id` is the normalized id it carries, if it carries one. */
  function Handle(c: Client, run: RunId, place: nat, id: Option<Pos>): Client {
    if c.active != Some(run) then c
    else if id.None? then c.(handled := c.handled + [Handled(place, false)])
    else if Compare(id.value, c.last) <= 0 then c
    else c.(last := id.value, handled := c.handled + [Handled(place, true)])
  }

  /** The places of the events taken with their id. */
  function Taken(handled: seq<Handled>): seq<nat> {
    if handled == [] then []
    else
      var init, x := handled[..|handled| - 1], handled[|handled| - 1];
      Taken(init) + if x.withId then [x.place] else []
  }

  /** The place of the event that is due. */
  function Due(c: Client): nat {
    c.base + |Taken(c.handled)|
  }

  function Next(logs: Logs, c: Client, l: Label): Client {
    match l
    // `after` may have been read long before the call; connections that were told to stop may still be draining
    case Start(s, run, after) =>
      var stream := Stream(run, Behind(logs(run), after));
      if c.active == Some(run) && c.handled != [] then c.(last := after, streams := c.streams[s := stream])
      else Client(Some(run), after, c.streams[s := stream], stream.place, [])
    case Clear => c.(base := Due(c), handled := [])
    case Deliver(s) =>
      if Can(logs, c, l) then
        var m := c.streams[s];
        Handle(c, m.run, m.place, Some(logs(m.run)[m.place])).(streams := c.streams[s := m.(place := m.place + 1)])
      else c
    case Malformed(s) => if s in c.streams then Handle(c, c.streams[s].run, 0, Some(ZERO)) else c
    // the response ended between the data and the id of an event: it is handled without id, and the stream is over
    case DeliverCut(s) =>
      if s in c.streams then Handle(c, c.streams[s].run, c.streams[s].place, None).(streams := c.streams - {s}) else c
    case Break(s) => c.(streams := c.streams - {s})
    case Finalize(idle, interrupted) =>
      if interrupted then c else c.(active := None, last := if idle then ZERO else c.last)
  }

  /** The fields of a thread's state that the callbacks assign; the ghost ones are what happened around them. */
  class ThreadRunState {
    var activeRunId: Option<RunId>
    var runLastSeq: Pos
    ghost var streams: map<StreamId, Stream>
    ghost var base: nat
    ghost var handled: seq<Handled>

    ghost function View(): Client
      reads this
    {
      Client(activeRunId, runLastSeq, streams, base, handled)
    }

    constructor ()
      ensures View() == FRESH
    {
      activeRunId, runLastSeq, streams, base, handled := None, ZERO, map[], 0, [];
    }

    /** A stream of `run` from `after`, whatever the fields say by now. */
    method StartRunStream(ghost logs: Logs, ghost s: StreamId, run: RunId, after: Pos)
      modifies this
      ensures View() == Next(logs, old(View()), Start(s, run, after))
    {
      ghost var stream := Stream(run, Behind(logs(run), after));
      streams := streams[s := stream];
      if activeRunId != Some(run) || handled == [] {
        base, handled := stream.place, [];
      }
      activeRunId := Some(run);
      runLastSeq := after;
    }

    /** The event handler of a stream of `run`; `id` is the normalized id of the event if it has one. */
    method OnEvent(run: RunId, id: Option<Pos>, ghost place: nat) returns (dispatched: bool)
      modifies this`runLastSeq, this`handled
      ensures View() == Handle(old(View()), run, place, id)
      ensures dispatched <==> handled != old(handled)
      ensures dispatched <==> activeRunId == Some(run) && (id.Some? ==>
          id.value.major > old(runLastSeq).major
          || (id.value.major == old(runLastSeq).major && id.value.minor > old(runLastSeq).minor))
    {
      if activeRunId != Some(run) {
        return false;
      }
      if id.Some? {
        if Compare(id.value, runLastSeq) <= 0 {
          return false;
        }
        runLastSeq := id.value;
      }
      handled := handled + [Handled(place, id.Some?)];
      assert |handled| == |old(handled)| + 1;
      return true;
    }

    /** `interrupted`: the run waits for an answer of the user, so it stays the active one. */
    method FinalizeRunStream(ghost logs: Logs, expectedRun: Option<RunId>, idle: bool, interrupted: bool) returns (settled: bool)
      modifies this`activeRunId, this`runLastSeq
      ensures settled <==> old(activeRunId) == expectedRun
      ensures View() == if settled then Next(logs, old(View()), Finalize(idle, interrupted)) else old(View())
      ensures activeRunId == if settled && !interrupted then None else old(activeRunId)
      ensures runLastSeq == if settled && !interrupted && idle then ZERO else old(runLastSeq)
    {
      if activeRunId != expectedRun {
        return false;
      }
      if !interrupted {
        if idle {
          runLastSeq := ZERO;
        }
        activeRunId := None;
      }
      return true;
    }
  }

  /** Counted from `base`, the n-th event taken is the n-th of the log; an event without id is due or was taken already. */
  ghost predicate InOrder(base: nat, handled: seq<Handled>) {
    if handled == [] then true
    else
      var init, x := handled[..|handled| - 1], handled[|handled| - 1];
      && InOrder(base, init)
      && if x.withId then x.place == base + |Taken(init)| else x.place <= base + |Taken(init)|
  }

  /** No subscription of the run has an event to bring that comes after the one that is due. */
  predicate NoneAhead(logs: Logs, streams: map<StreamId, Stream>, run: RunId, due: nat) {
    forall s | s in streams && streams[s].run == run :: streams[s].place <= due || streams[s].place >= |logs(run)|
  }

  ghost predicate Inv(logs: Logs, c: Client) {
    && InOrder(c.base, c.handled)
    && (c.active.Some? ==>
          && Behind(logs(c.active.value), c.last) == Due(c)
          && NoneAhead(logs, c.streams, c.active.value, Due(c)))
  }

  /**
   A stream may be started: while something of the same run is shown, from the cursor of now; and no older connection of
   the run that still drains is beyond the cursor.
   */
  predicate Safe(logs: Logs, c: Client, l: Label) {
    l.Start? ==>
      && (c.active == Some(l.run) && c.handled != [] ==> Behind(logs(l.run), l.after) == Due(c))
      && NoneAhead(logs, c.streams, l.run, Behind(logs(l.run), l.after))
  }

  /** The first event behind a cursor is where the ids begin to be later than it. */
  lemma {:induction false} BehindMeans(log: seq<Pos>, last: Pos)
    requires Upward(log)
    ensures Behind(log, last) <= |log|
    ensures forall i | 0 <= i < |log| :: Later(log[i], last) <==> i >= Behind(log, last)
  {
    if log != [] {
      var init, top := log[..|log| - 1], log[|log| - 1];
      assert forall i | 0 <= i < |init| :: init[i] == log[i] && Later(top, log[i]);
      BehindMeans(init, last);
      if !Later(top, last) {
        forall i | 0 <= i < |log| ensures !Later(log[i], last) {
          assert i < |init| ==> Later(top, log[i]);
        }
      }
    }
  }

  /** Behind an event of the log comes the next one. */
  lemma BehindNext(log: seq<Pos>, place: nat)
    requires Upward(log) && place < |log|
    ensures Behind(log, log[place]) == place + 1
  {
    var n := Behind(log, log[place]);
    BehindMeans(log, log[place]);
    Ordered(log[place], log[place], log[place]);
    assert n > place;
    assert place + 1 < |log| ==> Compare(log[place + 1], log[place]) > 0;
  }

  lemma TakenMore(base: nat, handled: seq<Handled>, x: Handled)
    ensures Taken(handled + [x]) == Taken(handled) + if x.withId then [x.place] else []
    ensures InOrder(base, handled + [x]) <==>
            InOrder(base, handled)
            && if x.withId then x.place == base + |Taken(handled)| else x.place <= base + |Taken(handled)|
  {
    assert (handled + [x])[..|handled|] == handled;
  }

  lemma DeliverKept(logs: Logs, c: Client, s: StreamId)
    requires GoodLogs(logs) && Inv(logs, c) && Can(logs, c, Deliver(s))
    ensures Inv(logs, Next(logs, c, Deliver(s)))
    ensures c.active == Some(c.streams[s].run) && c.streams[s].place == Due(c) ==>
        Due(Next(logs, c, Deliver(s))) == Due(c) + 1
  {
    var m := c.streams[s];
    if c.active == Some(m.run) {
      var log := logs(m.run);
      assert Upward(log);
      BehindMeans(log, c.last);
      if m.place == Due(c) {
        BehindNext(log, m.place);
        TakenMore(c.base, c.handled, Handled(m.place, true));
      }
    }
  }

  lemma MalformedKept(logs: Logs, c: Client, s: StreamId)
    requires Can(logs, c, Malformed(s))
    ensures Next(logs, c, Malformed(s)) == c
  {
  }

  lemma StartKept(logs: Logs, c: Client, l: Label)
    requires GoodLogs(logs) && Inv(logs, c) && l.Start? && Safe(logs, c, l)
    ensures Inv(logs, Next(logs, c, l))
  {
    assert Upward(logs(l.run));
    BehindMeans(logs(l.run), l.after);
  }

  lemma InvKept(logs: Logs, c: Client, l: Label)
    requires GoodLogs(logs) && Inv(logs, c) && Can(logs, c, l) && Safe(logs, c, l)
    ensures Inv(logs, Next(logs, c, l))
  {
    match l
    case Start(_, _, _) => StartKept(logs, c, l);
    case Clear =>
    case Deliver(s) => DeliverKept(logs, c, s);
    case Malformed(s) => MalformedKept(logs, c, s);
    case DeliverCut(s) => TakenMore(c.base, c.handled, Handled(c.streams[s].place, false));
    case Break(_) =>
    case Finalize(_, _) =>
  }

  // ---------------------------------------------------------------------------------------------------
  // Whole runs
  // ---------------------------------------------------------------------------------------------------

  function From(logs: Logs, c: Client, labels: seq<Label>): Client {
    if labels == [] then c else Next(logs, From(logs, c, labels[..|labels| - 1]), labels[|labels| - 1])
  }

  predicate Possible(logs: Logs, c: Client, labels: seq<Label>) {
    labels == []
    || (&& Possible(logs, c, labels[..|labels| - 1])
        && Can(logs, From(logs, c, labels[..|labels| - 1]), labels[|labels| - 1]))
  }

  /** Every stream in the run is started safely. */
  predicate AllSafe(logs: Logs, c: Client, labels: seq<Label>) {
    labels == []
    || (&& AllSafe(logs, c, labels[..|labels| - 1])
        && Safe(logs, From(logs, c, labels[..|labels| - 1]), labels[|labels| - 1]))
  }

  lemma {:induction false} RunInv(logs: Logs, c: Client, labels: seq<Label>)
    requires GoodLogs(logs) && Inv(logs, c) && Possible(logs, c, labels) && AllSafe(logs, c, labels)
    ensures Inv(logs, From(logs, c, labels))
  {
    if labels != [] {
      RunInv(logs, c, labels[..|labels| - 1]);
      InvKept(logs, From(logs, c, labels[..|labels| - 1]), labels[|labels| - 1]);
    }
  }

  lemma {:induction false} InOrderCounts(base: nat, handled: seq<Handled>)
    requires InOrder(base, handled)
    ensures forall i | 0 <= i < |Taken(handled)| :: Taken(handled)[i] == base + i
  {
    if handled != [] {
      InOrderCounts(base, handled[..|handled| - 1]);
    }
  }

  /**
   Exactly once, in every run whose streams are all started safely: after any disconnections, replays and reconnections
   the events of the active run taken with their id follow each other in its log without a gap, each once, and the server
   sends the next one first to whoever asks from the cursor.
   */
  lemma TakenOnceInOrder(logs: Logs, labels: seq<Label>)
    requires GoodLogs(logs) && Possible(logs, FRESH, labels) && AllSafe(logs, FRESH, labels)
    requires From(logs, FRESH, labels).active.Some?
    ensures var c := From(logs, FRESH, labels);
            var log, taken := logs(c.active.value), Taken(c.handled);
            && c.base + |taken| <= |log|
            && (forall i | 0 <= i < |taken| :: taken[i] == c.base + i)
            && Behind(log, c.last) == c.base + |taken|
  {
    RunInv(logs, FRESH, labels);
    var c := From(logs, FRESH, labels);
    InOrderCounts(c.base, c.handled);
    assert Upward(logs(c.active.value));
    BehindMeans(logs(c.active.value), c.last);
  }

  /** The subscription brings `n` events and nothing else happens. */
  function Deliveries(logs: Logs, c: Client, s: StreamId, n: nat): Client {
    if n == 0 then c else Next(logs, Deliveries(logs, c, s, n - 1), Deliver(s))
  }

  /** Nothing is missed: a reconnection from the cursor that stays up brings every event that is left. */
  lemma {:induction false} CatchesUp(logs: Logs, c: Client, s: StreamId, n: nat)
    requires GoodLogs(logs) && Inv(logs, c) && c.active.Some? && s !in c.streams
    requires n <= |logs(c.active.value)| - Due(c)
    ensures var c' := Deliveries(logs, Next(logs, c, Start(s, c.active.value, c.last)), s, n);
            && c'.active == c.active && Inv(logs, c')
            && s in c'.streams && c'.streams[s] == Stream(c.active.value, Due(c) + n)
            && Due(c') == Due(c) + n
  {
    if n == 0 {
      StartKept(logs, c, Start(s, c.active.value, c.last));
    } else {
      CatchesUp(logs, c, s, n - 1);
      DeliverKept(logs, Deliveries(logs, Next(logs, c, Start(s, c.active.value, c.last)), s, n - 1), s);
    }
  }

  // ---------------------------------------------------------------------------------------------------
  // Streams started from a cursor of the past
  // ---------------------------------------------------------------------------------------------------

  lemma OneLabel(logs: Logs, c: Client, l: Label)
    ensures From(logs, c, [l]) == Next(logs, c, l)
    ensures Possible(logs, c, [l]) <==> Can(logs, c, l)
    ensures AllSafe(logs, c, [l]) <==> Safe(logs, c, l)
  {
    assert [l][..0] == [];
  }

  /** Whatever is done safely after `c`, the events taken stay in order and each once. */
  ghost predicate StaysInOrder(logs: Logs, c: Client) {
    forall more | Possible(logs, c, more) && AllSafe(logs, c, more) ::
      InOrder(From(logs, c, more).base, From(logs, c, more).handled)
  }

  /**
   The exact condition for starting a stream of a run with an event left after the cursor: the events taken stay in order
   and each once, whatever follows, if and only if the start is safe.
   */
  lemma StartIsSafeExactly(logs: Logs, c: Client, s: StreamId, run: RunId, after: Pos)
    requires GoodLogs(logs) && Inv(logs, c) && s !in c.streams
    requires Behind(logs(run), after) < |logs(run)|
    ensures Safe(logs, c, Start(s, run, after)) <==> StaysInOrder(logs, Next(logs, c, Start(s, run, after)))
  {
    var l := Start(s, run, after);
    var c1 := Next(logs, c, l);
    if Safe(logs, c, l) {
      StartKept(logs, c, l);
      forall more | Possible(logs, c1, more) && AllSafe(logs, c1, more)
        ensures InOrder(From(logs, c1, more).base, From(logs, c1, more).handled)
      {
        RunInv(logs, c1, more);
      }
    } else {
      var bad := UnsafeDelivery(logs, c, s, run, after);
      OneLabel(logs, c1, Deliver(bad));
      assert !InOrder(From(logs, c1, [Deliver(bad)]).base, From(logs, c1, [Deliver(bad)]).handled);
    }
  }

  /** After an unsafe start some connection brings an event that is taken out of order. */
  lemma UnsafeDelivery(logs: Logs, c: Client, s: StreamId, run: RunId, after: Pos) returns (bad: StreamId)
    requires GoodLogs(logs) && Inv(logs, c) && s !in c.streams
    requires Behind(logs(run), after) < |logs(run)| && !Safe(logs, c, Start(s, run, after))
    ensures var c1 := Next(logs, c, Start(s, run, after));
            Can(logs, c1, Deliver(bad)) && Safe(logs, c1, Deliver(bad))
            && !InOrder(Next(logs, c1, Deliver(bad)).base, Next(logs, c1, Deliver(bad)).handled)
  {
    if c.active == Some(run) && c.handled != [] {
      assert Behind(logs(run), after) != Due(c);
      bad := s;
      StaleDelivery(logs, c, s, run, after);
    } else {
      bad :| bad in c.streams && c.streams[bad].run == run
             && Behind(logs(run), after) < c.streams[bad].place < |logs(run)|;
      var place := c.streams[bad].place;
      assert Upward(logs(run));
      BehindMeans(logs(run), after);
      TakenMore(Behind(logs(run), after), [], Handled(place, true));
      assert [] + [Handled(place, true)] == [Handled(place, true)];
    }
  }

  /** The first event after a start from another cursor is taken although it is not the one that is due. */
  lemma StaleDelivery(logs: Logs, c: Client, s: StreamId, run: RunId, after: Pos)
    requires GoodLogs(logs) && Inv(logs, c) && c.active == Some(run) && c.handled != [] && s !in c.streams
    requires Behind(logs(run), after) != Due(c) && Behind(logs(run), after) < |logs(run)|
    ensures var c1 := Next(logs, c, Start(s, run, after));
            && Can(logs, c1, Deliver(s))
            && Next(logs, c1, Deliver(s)).handled == c.handled + [Handled(Behind(logs(run), after), true)]
            && Next(logs, c1, Deliver(s)).last == logs(run)[Behind(logs(run), after)]
            && !InOrder(c.base, Next(logs, c1, Deliver(s)).handled)
  {
    var log, m := logs(run), Behind(logs(run), after);
    assert Upward(log);
    BehindMeans(log, after);
    BehindMeans(log, c.last);
    TakenMore(c.base, c.handled, Handled(m, true));
  }

  lemma {:induction false} TakenPlaces(base: nat, handled: seq<Handled>, place: nat)
    requires InOrder(base, handled) && base <= place < base + |Taken(handled)|
    ensures place in Taken(handled)
  {
    InOrderCounts(base, handled);
    assert Taken(handled)[place - base] == place;
  }

  /**
   So an event that is shown is taken a second time: the next delivery after a start from the past takes an event that was
   taken since the last clearing, when the start goes back no further than that.
   */
  lemma StaleStartTakesTwice(logs: Logs, c: Client, s: StreamId, run: RunId, after: Pos)
    requires GoodLogs(logs) && Inv(logs, c) && c.active == Some(run) && s !in c.streams
    requires c.base <= Behind(logs(run), after) < Due(c)
    ensures var m := Behind(logs(run), after);
            var c2 := Next(logs, Next(logs, c, Start(s, run, after)), Deliver(s));
            && Can(logs, Next(logs, c, Start(s, run, after)), Deliver(s))
            && m in Taken(c.handled) && Taken(c2.handled) == Taken(c.handled) + [m]
  {
    var m := Behind(logs(run), after);
    assert c.handled != [];
    assert Upward(logs(run));
    BehindMeans(logs(run), c.last);
    StaleDelivery(logs, c, s, run, after);
    TakenPlaces(c.base, c.handled, m);
    TakenMore(c.base, c.handled, Handled(m, true));
  }

  /**
   A run in which it happens: a resume reads its cursor 0-0 and waits for the server; meanwhile a timer opens a stream that
   brings the first event; then the resume opens its stream and the event is taken again.
   */
  lemma LateResumeTakesTwice(logs: Logs, run: RunId)
    requires GoodLogs(logs) && |logs(run)| > 0
    ensures var labels := [Start(0, run, ZERO), Deliver(0), Start(1, run, ZERO), Deliver(1)];
            Possible(logs, FRESH, labels) && Taken(From(logs, FRESH, labels).handled) == [0, 0]
  {
    var a, b, d, e := Start(0, run, ZERO), Deliver(0), Start(1, run, ZERO), Deliver(1);
    FourLabels(logs, FRESH, a, b, d, e);
    FirstIsTaken(logs, run, Next(logs, FRESH, a));
    StaleStartTakesTwice(logs, Next(logs, Next(logs, FRESH, a), b), 1, run, ZERO);
    assert [0] + [0] == [0, 0];
  }

  lemma OneMore(logs: Logs, c: Client, labels: seq<Label>, l: Label)
    ensures From(logs, c, labels + [l]) == Next(logs, From(logs, c, labels), l)
    ensures Possible(logs, c, labels + [l]) <==> Possible(logs, c, labels) && Can(logs, From(logs, c, labels), l)
  {
    assert (labels + [l])[..|labels|] == labels;
  }

  lemma FourLabels(logs: Logs, c: Client, a: Label, b: Label, d: Label, e: Label)
    ensures var c3 := Next(logs, Next(logs, Next(logs, c, a), b), d);
            && From(logs, c, [a, b, d, e]) == Next(logs, c3, e)
            && (Possible(logs, c, [a, b, d, e]) <==>
                  && Can(logs, c, a) && Can(logs, Next(logs, c, a), b) && Can(logs, Next(logs, Next(logs, c, a), b), d)
                  && Can(logs, c3, e))
  {
    OneLabel(logs, c, a);
    OneMore(logs, c, [a], b);
    OneMore(logs, c, [a] + [b], d);
    OneMore(logs, c, [a] + [b] + [d], e);
    assert [a] + [b] + [d] + [e] == [a, b, d, e];
  }

  lemma FirstIsDue(logs: Logs, run: RunId)
    requires GoodLogs(logs) && |logs(run)| > 0
    ensures Behind(logs(run), ZERO) == 0 && Compare(logs(run)[0], ZERO) > 0
    ensures Next(logs, FRESH, Start(0, run, ZERO)) == Client(Some(run), ZERO, map[0 := Stream(run, 0)], 0, [])
    ensures Inv(logs, Next(logs, FRESH, Start(0, run, ZERO)))
  {
    assert Upward(logs(run));
    BehindMeans(logs(run), ZERO);
    assert Compare(logs(run)[0], ZERO) > 0;
    StartKept(logs, FRESH, Start(0, run, ZERO));
  }

  lemma DeliverDue(logs: Logs, c: Client, s: StreamId)
    requires GoodLogs(logs) && Inv(logs, c) && Can(logs, c, Deliver(s))
    requires c.active == Some(c.streams[s].run) && c.streams[s].place == Due(c)
    ensures var c' := Next(logs, c, Deliver(s));
            && Inv(logs, c') && c'.active == c.active && c'.base == c.base && c'.streams.Keys == c.streams.Keys
            && Taken(c'.handled) == Taken(c.handled) + [Due(c)]
  {
    var log := logs(c.streams[s].run);
    assert Upward(log);
    BehindMeans(log, c.last);
    DeliverKept(logs, c, s);
    TakenMore(c.base, c.handled, Handled(c.streams[s].place, true));
  }

  lemma FirstIsTaken(logs: Logs, run: RunId, c1: Client)
    requires GoodLogs(logs) && |logs(run)| > 0
    requires c1 == Next(logs, FRESH, Start(0, run, ZERO))
    ensures var c2 := Next(logs, c1, Deliver(0));
            && Behind(logs(run), ZERO) == 0
            && Can(logs, c1, Deliver(0)) && Inv(logs, c2) && c2.active == Some(run) && c2.streams.Keys == {0}
            && c2.base == 0 && Taken(c2.handled) == [0]
  {
    FirstIsDue(logs, run);
    DeliverDue(logs, c1, 0);
    assert Taken(c1.handled) + [0] == [0];
  }

  // ---------------------------------------------------------------------------------------------------
  // Events cut off from their id
  // ---------------------------------------------------------------------------------------------------

  /** No event is handled twice: neither of these, nor one that was handled before the first of them was due. */
  predicate Once(base: nat, handled: seq<Handled>) {
    && (forall i | 0 <= i < |handled| :: handled[i].place >= base)
    && (forall i, j | 0 <= i < j < |handled| :: handled[i].place != handled[j].place)
  }

  /** All events carry their id, except that the last may be one that is due and has lost it. */
  predicate AtMostLastCut(base: nat, handled: seq<Handled>) {
    && (forall i | 0 <= i < |handled| - 1 :: handled[i].withId)
    && (handled != [] && !handled[|handled| - 1].withId ==> handled[|handled| - 1].place == base + |handled| - 1)
  }

  lemma {:induction false} AllWithId(base: nat, handled: seq<Handled>)
    requires InOrder(base, handled) && forall i | 0 <= i < |handled| :: handled[i].withId
    ensures |Taken(handled)| == |handled| && forall i | 0 <= i < |handled| :: handled[i].place == base + i
  {
    if handled != [] {
      AllWithId(base, handled[..|handled| - 1]);
    }
  }

  /**
   Handling events once: it holds exactly as long as no event that lost its id was a replay or was followed by another
   event. So a cut between data and id makes the next connection handle that event a second time.
   */
  lemma {:induction false} OnceIffLastCut(base: nat, handled: seq<Handled>)
    requires InOrder(base, handled)
    ensures Once(base, handled) <==> AtMostLastCut(base, handled)
  {
    if handled != [] {
      var init, x := handled[..|handled| - 1], handled[|handled| - 1];
      if forall i | 0 <= i < |init| :: init[i].withId {
        AllWithId(base, init);
        if base <= x.place < base + |init| {
          SamePlace(base, handled, x.place - base, |init|);
        }
      } else {
        CutThenMore(base, init, x);
        assert handled == init + [x];
        OnceIffLastCut(base, init);
      }
    }
  }

  /** An event after one that lost its id: one of the events was handled twice. */
  lemma CutThenMore(base: nat, init: seq<Handled>, x: Handled)
    requires InOrder(base, init + [x]) && exists i :: 0 <= i < |init| && !init[i].withId
    ensures !AtMostLastCut(base, init + [x])
    ensures AtMostLastCut(base, init) ==> !Once(base, init + [x])
    ensures Once(base, init + [x]) ==> Once(base, init)
  {
    var handled := init + [x];
    var k :| 0 <= k < |init| && !init[k].withId;
    assert !AtMostLastCut(base, handled) by { assert !handled[k].withId; }
    assert forall i | 0 <= i < |init| :: init[i] == handled[i];
    if AtMostLastCut(base, init) && x.place >= base {
      assert handled == init[..|init| - 1] + [init[|init| - 1]] + [x];
      AroundCut(base, init[..|init| - 1], init[|init| - 1], x);
      SamePlace(base, handled, x.place - base, |init|);
    } else if x.place < base {
      assert handled[|init|].place < base;
    }
  }

  /** Where the events around one that lost its id are. */
  lemma AroundCut(base: nat, before: seq<Handled>, cut: Handled, x: Handled)
    requires InOrder(base, before + [cut] + [x]) && !cut.withId && forall i | 0 <= i < |before| :: before[i].withId
    ensures x.place <= base + |before| && cut.place <= base + |before|
    ensures forall i | 0 <= i < |before| :: before[i].place == base + i
  {
    TakenMore(base, before + [cut], x);
    TakenMore(base, before, cut);
    AllWithId(base, before);
  }

  lemma SamePlace(base: nat, handled: seq<Handled>, i: nat, j: nat)
    requires i < j < |handled| && handled[i].place == handled[j].place
    ensures !Once(base, handled)
  {
  }
}
