/**
 The server side of a coding session's event stream: a loop that polls the stored events above a cursor, prints them
 and stops when the session is finished and nothing is left to print.
 */
module CodingTail {
  import opened Prelude

  const PAGE := 200

  datatype LogEvent = LogEvent(seqNo: int, body: string)

  datatype Item = Printed(event: LogEvent) | KeepAlive | End(status: string) | NotFound

  predicate Terminal(status: string) {
    status == "completed" || status == "failed" || status == "cancelled"
  }

  /** Stored events are numbered upwards. */
  predicate Numbered(log: seq<LogEvent>) {
    forall i, j | 0 <= i < j < |log| :: log[i].seqNo < log[j].seqNo
  }

  /** The stored events above a cursor, in order. */
  function Above(log: seq<LogEvent>, cursor: int): seq<LogEvent> {
    if log == [] then []
    else
      var init, last := log[..|log| - 1], log[|log| - 1];
      Above(init, cursor) + if last.seqNo > cursor then [last] else []
  }

  function Page(log: seq<LogEvent>, cursor: int): seq<LogEvent> {
    var found := Above(log, cursor);
    if |found| <= PAGE then found else found[..PAGE]
  }

  function Printing(events: seq<LogEvent>): seq<Item> {
    if events == [] then [] else Printing(events[..|events| - 1]) + [Printed(events[|events| - 1])]
  }

  function Events(output: seq<Item>): seq<LogEvent> {
    if output == [] then []
    else
      var init, last := output[..|output| - 1], output[|output| - 1];
      Events(init) + if last.Printed? then [last.event] else []
  }

  datatype Tail = Tail(cursor: int, output: seq<Item>, done: bool)

  function CursorAfter(cursor: int, events: seq<LogEvent>): int {
    if events == [] then cursor
    else
      var before := CursorAfter(cursor, events[..|events| - 1]);
      if events[|events| - 1].seqNo > before then events[|events| - 1].seqNo else before
  }

  /** One round of the loop, for the session it looked up (None: no session of this user) and the page it then read. */
  function PollSpec(t: Tail, session: Option<string>, page: seq<LogEvent>): Tail {
    if session.None? then t.(output := t.output + [NotFound], done := true)
    else
      var t1 := Tail(CursorAfter(t.cursor, page), t.output + Printing(page), false);
      if page != [] then t1
      else if Terminal(session.value) then t1.(output := t1.output + [End(session.value)], done := true)
      else t1.(output := t1.output + [KeepAlive])
  }

  /** The generator's locals and what it has yielded. */
  class SessionEventTail {
    var cursor: int
    var output: seq<Item>
    var done: bool

    function View(): Tail
      reads this
    {
      Tail(cursor, output, done)
    }

    constructor (after: nat)
      ensures View() == Tail(after, [], false)
    {
      cursor, output, done := after, [], false;
    }

    method Poll(session: Option<string>, page: seq<LogEvent>)
      requires !done
      modifies this
      ensures View() == PollSpec(old(View()), session, page)
    {
      if session.None? {
        output := output + [NotFound];
        done := true;
        return;
      }
      var i := 0;
      assert page[..0] == [] && output == output + Printing([]);
      while i < |page|
        invariant 0 <= i <= |page|
        invariant cursor == CursorAfter(old(cursor), page[..i])
        invariant output == old(output) + Printing(page[..i])
        invariant done == old(done)
      {
        assert page[..i + 1][..i] == page[..i];
        cursor := if page[i].seqNo > cursor then page[i].seqNo else cursor;
        output := output + [Printed(page[i])];
        i := i + 1;
      }
      assert page[..|page|] == page;
      if Terminal(session.value) && page == [] {
        output := output + [End(session.value)];
        done := true;
        return;
      }
      if page == [] {
        output := output + [KeepAlive];
      }
    }
  }

  // ---------------------------------------------------------------------------------------------------
  // The loop beside the writers of the session
  // ---------------------------------------------------------------------------------------------------

  /** `looked` is the session row of the round that is under way. */
  datatype World = World(log: seq<LogEvent>, session: Option<string>, tail: Tail, looked: Option<Option<string>>)

  datatype Label =
    | Append(event: LogEvent)
    | SetStatus(status: string)
    | Remove
    | LookUp
    | ReadPage

  /**
   Writers add events at any time, also after the session has ended: attaching a terminal does, and so does a worker whose
   session was cancelled meanwhile. The status moves until it is terminal. The loop reads the row first, the page later.
   */
  predicate Can(w: World, l: Label) {
    match l
    case Append(e) => w.session.Some? && Numbered(w.log + [e])
    case SetStatus(_) => w.session.Some? && !Terminal(w.session.value)
    case Remove => w.session.Some?
    case LookUp => !w.tail.done && w.looked.None?
    case ReadPage => !w.tail.done && w.looked.Some?
  }

  function Next(w: World, l: Label): World {
    match l
    case Append(e) => w.(log := w.log + [e])
    case SetStatus(s) => w.(session := Some(s))
    case Remove => w.(session := None)
    case LookUp => w.(looked := Some(w.session))
    case ReadPage =>
      w.(looked := None, tail := PollSpec(w.tail, if w.looked.Some? then w.looked.value else None, Page(w.log, w.tail.cursor)))
  }

  function Start(log: seq<LogEvent>, session: Option<string>, after: nat): World {
    World(log, session, Tail(after, [], false), None)
  }

  ghost predicate Ended(output: seq<Item>) {
    exists s :: End(s) in output
  }

  /** `after` is where the client started. What was printed and what is still above the cursor is all it asked for. */
  ghost predicate TailRight(log: seq<LogEvent>, t: Tail, after: nat) {
    && Events(t.output) + Above(log, t.cursor) == Above(log, after)
    && (t.cursor == after || exists i | 0 <= i < |log| :: log[i].seqNo == t.cursor > after)
    && (Ended(t.output) ==> t.done)
  }

  ghost predicate Inv(w: World, after: nat) {
    Numbered(w.log) && TailRight(w.log, w.tail, after)
  }

  lemma {:induction false} EventsAppend(a: seq<Item>, b: seq<Item>)
    ensures Events(a + b) == Events(a) + Events(b)
    decreases b
  {
    if b == [] {
      assert a + b == a;
    } else {
      EventsAppend(a, b[..|b| - 1]);
      assert (a + b)[..|a + b| - 1] == a + b[..|b| - 1];
    }
  }

  lemma {:induction false} PrintingRight(events: seq<LogEvent>)
    ensures Events(Printing(events)) == events
    ensures forall x | x in Printing(events) :: x.Printed?
  {
    if events != [] {
      PrintingRight(events[..|events| - 1]);
      assert Printing(events)[..|Printing(events)| - 1] == Printing(events[..|events| - 1]);
    }
  }

  /** In a numbered log the events above a cursor are those from some place on. */
  lemma {:induction false} AboveIsSuffix(log: seq<LogEvent>, cursor: int) returns (m: nat)
    requires Numbered(log)
    ensures m <= |log| && Above(log, cursor) == log[m..]
    ensures forall i | 0 <= i < m :: log[i].seqNo <= cursor
    ensures forall i | m <= i < |log| :: log[i].seqNo > cursor
  {
    if log == [] {
      m := 0;
    } else if log[|log| - 1].seqNo > cursor {
      var init := log[..|log| - 1];
      m := AboveIsSuffix(init, cursor);
      assert init[m..] + [log[|log| - 1]] == log[m..];
      assert forall i | 0 <= i < |init| :: init[i] == log[i];
    } else {
      m := |log|;
      NoneAbove(log, cursor);
    }
  }

  lemma {:induction false} NoneAbove(log: seq<LogEvent>, cursor: int)
    requires forall i | 0 <= i < |log| :: log[i].seqNo <= cursor
    ensures Above(log, cursor) == []
  {
    if log != [] {
      NoneAbove(log[..|log| - 1], cursor);
    }
  }

  /** Moving the cursor over the first `k` found events leaves the others. */
  lemma AboveAgain(log: seq<LogEvent>, cursor: int, k: nat)
    requires Numbered(log) && 0 < k <= |Above(log, cursor)|
    ensures Above(log, Above(log, cursor)[k - 1].seqNo) == Above(log, cursor)[k..]
  {
    var m := AboveIsSuffix(log, cursor);
    var n := AboveIsSuffix(log, log[m + k - 1].seqNo);
    var e := log[m + k - 1];
    assert m + k < |log| ==> log[m + k].seqNo > e.seqNo;
    assert n == m + k;
    assert log[m..][k..] == log[n..];
  }

  /** The cursor ends at the last printed event. */
  lemma {:induction false} CursorRight(cursor: int, events: seq<LogEvent>)
    requires Numbered(events) && forall i | 0 <= i < |events| :: events[i].seqNo > cursor
    ensures CursorAfter(cursor, events) == if events == [] then cursor else events[|events| - 1].seqNo
  {
    if |events| > 0 {
      CursorRight(cursor, events[..|events| - 1]);
    }
  }

  /** A page moves events from above the cursor to the output. */
  lemma PageRight(log: seq<LogEvent>, cursor: int)
    requires Numbered(log)
    ensures var page := Page(log, cursor);
            && page + Above(log, CursorAfter(cursor, page)) == Above(log, cursor)
            && (page == [] <==> Above(log, cursor) == [])
            && |page| <= 200 && (|page| < 200 ==> Above(log, CursorAfter(cursor, page)) == [])
            && (page != [] ==> page[|page| - 1] in log && CursorAfter(cursor, page) == page[|page| - 1].seqNo > cursor)
  {
    var page, found := Page(log, cursor), Above(log, cursor);
    FoundRight(log, cursor);
    CursorRight(cursor, page);
    if page != [] {
      AboveAgain(log, cursor, |page|);
      assert page + found[|page|..] == found;
    }
  }

  lemma FoundRight(log: seq<LogEvent>, cursor: int)
    requires Numbered(log)
    ensures Numbered(Above(log, cursor))
    ensures forall i | 0 <= i < |Above(log, cursor)| :: Above(log, cursor)[i].seqNo > cursor && Above(log, cursor)[i] in log
  {
    var m := AboveIsSuffix(log, cursor);
  }

  lemma OneMore(output: seq<Item>, x: Item)
    requires !x.Printed?
    ensures Events(output + [x]) == Events(output)
    ensures Ended(output + [x]) <==> Ended(output) || x.End?
  {
    assert (output + [x])[..|output|] == output;
    if Ended(output) {
      var s :| End(s) in output;
      assert End(s) in output + [x];
    }
    if x.End? {
      assert End(x.status) in output + [x];
    }
  }

  lemma PrintPage(output: seq<Item>, page: seq<LogEvent>)
    ensures Events(output + Printing(page)) == Events(output) + page
    ensures Ended(output + Printing(page)) <==> Ended(output)
  {
    PrintingRight(page);
    EventsAppend(output, Printing(page));
    if Ended(output) {
      var s :| End(s) in output;
      assert End(s) in output + Printing(page);
    }
  }

  lemma PollKept(w: World, after: nat)
    requires Inv(w, after) && Can(w, ReadPage)
    ensures Inv(Next(w, ReadPage), after)
  {
    var t, session, page := w.tail, w.looked.value, Page(w.log, w.tail.cursor);
    if session.None? {
      ItemKept(w.log, t, after, NotFound, true);
    } else {
      var t1 := Tail(CursorAfter(t.cursor, page), t.output + Printing(page), false);
      PageKept(w.log, t, after);
      ItemKept(w.log, t1, after, End(session.value), true);
      ItemKept(w.log, t1, after, KeepAlive, false);
    }
  }

  lemma ItemKept(log: seq<LogEvent>, t: Tail, after: nat, x: Item, done: bool)
    requires TailRight(log, t, after) && !x.Printed? && (Ended(t.output) || x.End? ==> done)
    ensures TailRight(log, t.(output := t.output + [x], done := done), after)
  {
    OneMore(t.output, x);
  }

  /** Printing a page keeps what was sent and what is left together. */
  lemma PageKept(log: seq<LogEvent>, t: Tail, after: nat)
    requires Numbered(log) && TailRight(log, t, after) && !t.done
    ensures var page := Page(log, t.cursor);
            var t1 := Tail(CursorAfter(t.cursor, page), t.output + Printing(page), false);
            TailRight(log, t1, after) && !Ended(t1.output)
  {
    var page := Page(log, t.cursor);
    PageRight(log, t.cursor);
    PrintPage(t.output, page);
    MovedOver(Events(t.output), page, Above(log, CursorAfter(t.cursor, page)), Above(log, after));
    if page != [] {
      var i :| 0 <= i < |log| && log[i] == page[|page| - 1];
    }
  }

  lemma MovedOver(sent: seq<LogEvent>, page: seq<LogEvent>, left: seq<LogEvent>, all: seq<LogEvent>)
    requires sent + (page + left) == all
    ensures (sent + page) + left == all
  {
  }

  lemma AboveMore(log: seq<LogEvent>, e: LogEvent, cursor: int)
    ensures Above(log + [e], cursor) == Above(log, cursor) + if e.seqNo > cursor then [e] else []
  {
    assert (log + [e])[..|log|] == log;
  }

  lemma AppendKept(w: World, after: nat, e: LogEvent)
    requires Inv(w, after) && Numbered(w.log + [e])
    ensures Inv(Next(w, Append(e)), after)
  {
    var log, more := w.log + [e], if e.seqNo > after then [e] else [];
    AboveMore(w.log, e, after);
    AboveMore(w.log, e, w.tail.cursor);
    if w.tail.cursor != after {
      var i :| 0 <= i < |w.log| && w.log[i].seqNo == w.tail.cursor;
      assert log[i].seqNo < log[|w.log|].seqNo;
    }
    assert Events(w.tail.output) + (Above(w.log, w.tail.cursor) + more)
        == (Events(w.tail.output) + Above(w.log, w.tail.cursor)) + more;
  }

  lemma InvKept(w: World, after: nat, l: Label)
    requires Inv(w, after) && Can(w, l)
    ensures Inv(Next(w, l), after)
  {
    match l
    case ReadPage => PollKept(w, after);
    case Append(e) =>
      AppendKept(w, after, e);
    case SetStatus(_) =>
    case Remove =>
    case LookUp =>
  }

  // ---------------------------------------------------------------------------------------------------
  // Whole runs
  // ---------------------------------------------------------------------------------------------------

  function At(w: World, labels: seq<Label>): World {
    if labels == [] then w else Next(At(w, labels[..|labels| - 1]), labels[|labels| - 1])
  }

  predicate Possible(w: World, labels: seq<Label>) {
    labels == []
    || (Possible(w, labels[..|labels| - 1]) && Can(At(w, labels[..|labels| - 1]), labels[|labels| - 1]))
  }

  lemma {:induction false} RunInv(log: seq<LogEvent>, session: Option<string>, after: nat, labels: seq<Label>)
    requires Numbered(log) && Possible(Start(log, session, after), labels)
    ensures Inv(At(Start(log, session, after), labels), after)
  {
    if labels != [] {
      RunInv(log, session, after, labels[..|labels| - 1]);
      InvKept(At(Start(log, session, after), labels[..|labels| - 1]), after, labels[|labels| - 1]);
    }
  }

  /** At every moment the events sent are a gap-free prefix of those stored above the client's start, each once. */
  lemma SentIsPrefix(log: seq<LogEvent>, session: Option<string>, after: nat, labels: seq<Label>)
    requires Numbered(log) && Possible(Start(log, session, after), labels)
    ensures var w := At(Start(log, session, after), labels);
            && Events(w.tail.output) <= Above(w.log, after)
            && Numbered(Events(w.tail.output))
  {
    RunInv(log, session, after, labels);
    var w := At(Start(log, session, after), labels);
    var m := AboveIsSuffix(w.log, after);
    var sent := Events(w.tail.output);
    assert forall i | 0 <= i < |sent| :: sent[i] == Above(w.log, after)[i];
  }

  /** The read of the page that turned out empty in a finished session: everything stored by then has been sent. */
  lemma EndRead(w: World, after: nat)
    requires Inv(w, after) && Can(w, ReadPage) && Ended(Next(w, ReadPage).tail.output)
    ensures Events(Next(w, ReadPage).tail.output) == Above(w.log, after)
  {
    var t, session := w.tail, w.looked.value;
    var page := Page(w.log, t.cursor);
    PageRight(w.log, t.cursor);
    PrintPage(t.output, page);
    if session.None? {
      OneMore(t.output, NotFound);
    } else if page == [] {
      OneMore(t.output + Printing(page), End(session.value));
      assert Events(t.output) + [] == Events(t.output);
    }
  }

  /** Step `k` was the last read of a page, and everything stored by then has been sent, and nothing else. */
  ghost predicate EndedAt(w0: World, labels: seq<Label>, k: nat, after: nat) {
    && k < |labels| && labels[k] == ReadPage
    && Events(At(w0, labels).tail.output) == Above(At(w0, labels[..k]).log, after)
    && forall l | l in labels[k + 1..] :: !l.LookUp? && !l.ReadPage?
  }

  /** When the end has been announced, everything stored up to the last read of a page has been sent. */
  lemma {:induction false} EndMeansAll(log: seq<LogEvent>, session: Option<string>, after: nat, labels: seq<Label>) returns (k: nat)
    requires Numbered(log) && Possible(Start(log, session, after), labels)
    requires Ended(At(Start(log, session, after), labels).tail.output)
    ensures EndedAt(Start(log, session, after), labels, k, after)
  {
    LastStep(log, session, after, labels);
    var w0, init := Start(log, session, after), labels[..|labels| - 1];
    if Ended(At(w0, init).tail.output) {
      k := EndMeansAll(log, session, after, init);
      EndedLater(w0, labels, k, after);
    } else {
      k := |init|;
      EndedNow(w0, labels, after);
    }
  }

  /** The last step of a run whose end has been announced. */
  lemma LastStep(log: seq<LogEvent>, session: Option<string>, after: nat, labels: seq<Label>)
    requires Numbered(log) && Possible(Start(log, session, after), labels)
    requires Ended(At(Start(log, session, after), labels).tail.output)
    ensures labels != []
    ensures var w0, init := Start(log, session, after), labels[..|labels| - 1];
            && Possible(w0, init) && Can(At(w0, init), labels[|labels| - 1]) && Inv(At(w0, init), after)
            && (Ended(At(w0, init).tail.output) ==> At(w0, init).tail.done)
  {
    RunInv(log, session, after, labels[..|labels| - 1]);
  }

  lemma EndedLater(w0: World, labels: seq<Label>, k: nat, after: nat)
    requires labels != [] && EndedAt(w0, labels[..|labels| - 1], k, after)
    requires var w := At(w0, labels[..|labels| - 1]); w.tail.done && Can(w, labels[|labels| - 1])
    ensures EndedAt(w0, labels, k, after)
  {
    var init, l := labels[..|labels| - 1], labels[|labels| - 1];
    DoneIsQuiet(At(w0, init), l);
    assert init[..k] == labels[..k];
    assert labels[k + 1..] == init[k + 1..] + [l];
  }

  lemma EndedNow(w0: World, labels: seq<Label>, after: nat)
    requires labels != []
    requires var w := At(w0, labels[..|labels| - 1]);
             Inv(w, after) && !Ended(w.tail.output) && Can(w, labels[|labels| - 1])
    requires Ended(At(w0, labels).tail.output)
    ensures EndedAt(w0, labels, |labels| - 1, after)
  {
    var w := At(w0, labels[..|labels| - 1]);
    OnlyReadsEnd(w, labels[|labels| - 1]);
    EndRead(w, after);
    assert labels[|labels|..] == [];
  }

  lemma DoneIsQuiet(w: World, l: Label)
    requires w.tail.done && Can(w, l)
    ensures Next(w, l).tail == w.tail && !l.LookUp? && !l.ReadPage?
  {
  }

  lemma OnlyReadsEnd(w: World, l: Label)
    requires !Ended(w.tail.output) && Ended(Next(w, l).tail.output)
    ensures l == ReadPage
  {
  }

  // ---------------------------------------------------------------------------------------------------
  // What the last line says
  // ---------------------------------------------------------------------------------------------------

  predicate Over(status: string) {
    status in {"completed", "failed", "cancelled"}
  }

  predicate Last(output: seq<Item>, x: Item) {
    output != [] && output[|output| - 1] == x
  }

  /** An end or an error is the last line, and there is one exactly when the loop has stopped. */
  predicate Shaped(t: Tail) {
    && (forall i | 0 <= i < |t.output| - 1 :: t.output[i].Printed? || t.output[i].KeepAlive?)
    && (t.done <==> t.output != [] && (t.output[|t.output| - 1].End? || t.output[|t.output| - 1].NotFound?))
  }

  /** What was looked up or announced is the status of the session still, unless the session is gone. */
  predicate Told(w: World) {
    && (w.looked == Some(None) ==> w.session == None)
    && (w.looked.Some? && w.looked.value.Some? && Over(w.looked.value.value) ==>
          w.session == None || w.session == w.looked.value)
    && (forall i | 0 <= i < |w.tail.output| ::
          && (w.tail.output[i].End? ==>
                && Over(w.tail.output[i].status)
                && (w.session == None || w.session == Some(w.tail.output[i].status)))
          && (w.tail.output[i].NotFound? ==> w.session == None))
  }

  lemma OneLineMore(t: Tail, x: Item, done: bool)
    requires Shaped(t) && !t.done && (done <==> x.End? || x.NotFound?)
    ensures Shaped(t.(output := t.output + [x], done := done))
  {
  }

  lemma PrintedMore(t: Tail, page: seq<LogEvent>, cursor: int)
    requires Shaped(t) && !t.done
    ensures Shaped(Tail(cursor, t.output + Printing(page), false))
    ensures forall i | 0 <= i < |t.output + Printing(page)| ::
        if i < |t.output| then (t.output + Printing(page))[i] == t.output[i] else (t.output + Printing(page))[i].Printed?
  {
    PrintingRight(page);
    assert forall i | 0 <= i < |Printing(page)| :: Printing(page)[i] in Printing(page);
  }

  lemma PollTells(w: World)
    requires Shaped(w.tail) && Told(w) && Can(w, ReadPage)
    ensures Shaped(Next(w, ReadPage).tail) && Told(Next(w, ReadPage))
  {
    var t, session, page := w.tail, w.looked.value, Page(w.log, w.tail.cursor);
    if session.None? {
      OneLineMore(t, NotFound, true);
    } else {
      PrintedMore(t, page, CursorAfter(t.cursor, page));
      var t1 := Tail(CursorAfter(t.cursor, page), t.output + Printing(page), false);
      OneLineMore(t1, End(session.value), true);
      OneLineMore(t1, KeepAlive, false);
    }
  }

  lemma TellsKept(w: World, l: Label)
    requires Shaped(w.tail) && Told(w) && Can(w, l)
    ensures Shaped(Next(w, l).tail) && Told(Next(w, l))
  {
    if l.ReadPage? {
      PollTells(w);
    }
  }

  lemma {:induction false} TellsAlways(log: seq<LogEvent>, session: Option<string>, after: nat, labels: seq<Label>)
    requires Possible(Start(log, session, after), labels)
    ensures var w := At(Start(log, session, after), labels); Shaped(w.tail) && Told(w)
  {
    if labels != [] {
      TellsAlways(log, session, after, labels[..|labels| - 1]);
      TellsKept(At(Start(log, session, after), labels[..|labels| - 1]), labels[|labels| - 1]);
    }
  }

  /**
   The stream's last line is right. It has ended if and only if its last line is an end or an error; an announced end names
   the terminal status that the session has, unless the session has been removed since; an error means it is gone.
   */
  lemma EndTells(log: seq<LogEvent>, session: Option<string>, after: nat, labels: seq<Label>)
    requires Possible(Start(log, session, after), labels)
    ensures var w := At(Start(log, session, after), labels);
            && (w.tail.done <==> Last(w.tail.output, NotFound) || exists s :: Last(w.tail.output, End(s)))
            && (forall s | Last(w.tail.output, End(s)) ::
                  (s == "completed" || s == "failed" || s == "cancelled") && (w.session == None || w.session == Some(s)))
            && (Last(w.tail.output, NotFound) ==> w.session == None)
  {
    TellsAlways(log, session, after, labels);
    var w := At(Start(log, session, after), labels);
    if w.tail.done && !Last(w.tail.output, NotFound) {
      assert Last(w.tail.output, End(w.tail.output[|w.tail.output| - 1].status));
    }
  }

  /** No round is silent: a page, an end, an error or a keep-alive. */
  lemma EveryRoundSpeaks(w: World)
    requires Can(w, ReadPage)
    ensures |Next(w, ReadPage).tail.output| > |w.tail.output|
    ensures w.looked.value == None || (Page(w.log, w.tail.cursor) == [] && Over(w.looked.value.value))
            <==> Next(w, ReadPage).tail.done
  {
  }

  function Appended(labels: seq<Label>): seq<LogEvent> {
    if labels == [] then []
    else
      var l := labels[|labels| - 1];
      Appended(labels[..|labels| - 1]) + if l.Append? then [l.event] else []
  }

  lemma {:induction false} LogGrows(w0: World, labels: seq<Label>, k: nat)
    requires k <= |labels|
    ensures At(w0, labels).log == At(w0, labels[..k]).log + Appended(labels[k..])
  {
    if k < |labels| {
      var init := labels[..|labels| - 1];
      LogGrows(w0, init, k);
      assert init[..k] == labels[..k] && labels[k..][..|labels[k..]| - 1] == init[k..];
    } else {
      assert labels[..k] == labels && labels[k..] == [];
    }
  }

  lemma {:induction false} AboveAppend(a: seq<LogEvent>, b: seq<LogEvent>, cursor: int)
    ensures Above(a + b, cursor) == Above(a, cursor) + Above(b, cursor)
    decreases b
  {
    if b == [] {
      assert a + b == a;
    } else {
      AboveAppend(a, b[..|b| - 1], cursor);
      assert (a + b)[..|a + b| - 1] == a + b[..|b| - 1];
    }
  }

  lemma {:induction false} NothingAppended(labels: seq<Label>, cursor: int)
    ensures Above(Appended(labels), cursor) == []
            <==> forall l | l in labels :: !AppendsAbove(l, cursor)
  {
    if labels != [] {
      var init, l := labels[..|labels| - 1], labels[|labels| - 1];
      NothingAppended(init, cursor);
      assert labels == init + [l];
      assert forall x :: x in labels <==> x in init || x == l;
      assert l in labels;
      if l.Append? {
        AboveMore(Appended(init), l.event, cursor);
      } else {
        assert Appended(init) + [] == Appended(init);
      }
    }
  }

  predicate AppendsAbove(l: Label, cursor: int) {
    l.Append? && l.event.seqNo > cursor
  }

  /**
   Everything ever stored is sent if and only if, after that read, nothing was appended above the client's start. (Every
   append is, unless the client started beyond the end.)
   */
  lemma AllSentIffNoLateAppend(log: seq<LogEvent>, session: Option<string>, after: nat, labels: seq<Label>) returns (k: nat)
    requires Numbered(log) && Possible(Start(log, session, after), labels)
    requires Ended(At(Start(log, session, after), labels).tail.output)
    ensures EndedAt(Start(log, session, after), labels, k, after)
    ensures var w := At(Start(log, session, after), labels);
            Events(w.tail.output) == Above(w.log, after)
            <==> forall l | l in labels[k + 1..] :: !AppendsAbove(l, after)
  {
    k := EndMeansAll(log, session, after, labels);
    SentIffQuiet(Start(log, session, after), labels, k, after);
  }

  lemma SentIffQuiet(w0: World, labels: seq<Label>, k: nat, after: nat)
    requires EndedAt(w0, labels, k, after)
    ensures var w := At(w0, labels);
            Events(w.tail.output) == Above(w.log, after)
            <==> forall l | l in labels[k + 1..] :: !AppendsAbove(l, after)
  {
    LogGrows(w0, labels, k);
    AboveAppend(At(w0, labels[..k]).log, Appended(labels[k..]), after);
    LongerBy(Above(At(w0, labels[..k]).log, after), Above(Appended(labels[k..]), after));
    NothingAppended(labels[k..], after);
    AfterTheRead(labels, k, after);
  }

  lemma AfterTheRead(labels: seq<Label>, k: nat, after: int)
    requires k < |labels| && labels[k] == ReadPage
    ensures (forall l | l in labels[k..] :: !AppendsAbove(l, after)) <==> forall l | l in labels[k + 1..] :: !AppendsAbove(l, after)
  {
    assert labels[k..] == [ReadPage] + labels[k + 1..];
    assert forall l :: l in labels[k..] <==> l == ReadPage || l in labels[k + 1..];
  }

  lemma LongerBy(sent: seq<LogEvent>, late: seq<LogEvent>)
    ensures sent == sent + late <==> late == []
  {
    assert |sent + late| == |sent| + |late|;
  }

  /** A run that loses an event: it is stored after the end of a finished session has been announced. */
  lemma LateAppendIsLost(e: LogEvent)
    requires e.seqNo > 0
    ensures var w0, labels := Start([], Some("completed"), 0), [LookUp, ReadPage, Append(e)];
            && Possible(w0, labels)
            && Ended(At(w0, labels).tail.output)
            && Events(At(w0, labels).tail.output) == [] && Above(At(w0, labels).log, 0) == [e]
  {
    var w0, l1, l2, l3 := Start([], Some("completed"), 0), [LookUp], [LookUp, ReadPage], [LookUp, ReadPage, Append(e)];
    assert l3[..2] == l2 && l2[..1] == l1 && l1[..0] == [];
    var w1 := w0.(looked := Some(Some("completed")));
    var w2 := w1.(looked := None, tail := Tail(0, [End("completed")], true));
    OneStep(w0, [], LookUp);
    OneStep(w0, l1, ReadPage);
    assert Page([], 0) == [] && Printing([]) == [];
    assert At(w0, l1) == w1 && At(w0, l2) == w2;
    OneStep(w0, l2, Append(e));
    assert End("completed") in w2.tail.output;
    OneMore([], End("completed"));
    AboveMore([], e, 0);
    assert [] + [e] == [e] && [] + [End("completed")] == [End("completed")];
  }

  lemma OneStep(w: World, labels: seq<Label>, l: Label)
    ensures At(w, labels + [l]) == Next(At(w, labels), l)
    ensures Possible(w, labels + [l]) <==> Possible(w, labels) && Can(At(w, labels), l)
  {
    assert (labels + [l])[..|labels|] == labels;
  }

  /** A whole round without interference. */
  function Round(w: World): World {
    Next(Next(w, LookUp), ReadPage)
  }

  /** How many pages so many events take. */
  function Pages(left: nat): nat {
    if left == 0 then 0 else if left <= PAGE then 1 else 1 + Pages(left - PAGE)
  }

  function Left(w: World): nat {
    |Above(w.log, w.tail.cursor)|
  }

  /** The loop is between two rounds of a finished session. */
  ghost predicate Finishing(w: World, after: nat) {
    Inv(w, after) && w.looked.None? && w.session.Some? && Terminal(w.session.value) && !w.tail.done
  }

  lemma OneRound(w: World, after: nat)
    requires Finishing(w, after)
    ensures Left(w) == 0 ==> Round(w).tail.done
    ensures Round(w).tail.done || (Finishing(Round(w), after) && Left(Round(w)) == if Left(w) <= PAGE then 0 else Left(w) - PAGE)
  {
    var w1 := Next(w, LookUp);
    InvKept(w, after, LookUp);
    InvKept(w1, after, ReadPage);
    PageRight(w.log, w.tail.cursor);
    assert Left(w) == |Page(w.log, w.tail.cursor)| + Left(Round(w));
  }

  /** Once the session is finished, the loop ends within one round for every page that is left and one more. */
  lemma {:induction false} EndsInTime(ws: seq<World>, after: nat)
    requires ws != [] && |ws| > Pages(Left(ws[0])) + 1 && Finishing(ws[0], after)
    requires forall i | 0 < i < |ws| && !ws[i - 1].tail.done :: ws[i] == Round(ws[i - 1])
    ensures exists i | 0 <= i < |ws| :: ws[i].tail.done
  {
    OneRound(ws[0], after);
    assert ws[1] == Round(ws[0]);
    if !ws[1].tail.done {
      EndsInTime(ws[1..], after);
      var i :| 0 <= i < |ws[1..]| && ws[1..][i].tail.done;
      assert ws[i + 1].tail.done;
    }
  }
}
