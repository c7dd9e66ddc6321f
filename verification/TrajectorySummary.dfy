/**
 The summary of a run's tool calls from its events. Calls with an id are known by it; a call without one gets a made-up
 key, and its finish is matched to the oldest start of the same name. Keys are strings, as in the program.
 */
module TrajectorySummary {
  import opened Prelude

  datatype Phase = Started | Finished | OtherPhase

  /** The part of a chunk that says a call was streamed, and the tool event it carries; an empty id is no id. */
  datatype Chunk = Chunk(streamed: Option<Call>, tool: Option<ToolEvent>)

  datatype Call = Call(id: string, name: string)

  datatype ToolEvent = ToolEvent(phase: Phase, id: string, name: string, error: bool)

  /** An event with its chunks; `failed` when its type is "error". */
  datatype Event = Event(failed: bool, chunks: seq<Chunk>)

  // ---------------------------------------------------------------------------------------------------
  // Made-up keys
  // ---------------------------------------------------------------------------------------------------

  function Decimal(n: nat): (s: string)
    ensures (n >= 10 <==> |s| >= 2) && s != "" && forall i | 0 <= i < |s| :: '0' <= s[i] <= '9'
  {
    var digit := ['0' + (n % 10) as char];
    if n < 10 then digit else Decimal(n / 10) + digit
  }

  function MadeUp(name: string, index: nat): string {
    "name:" + name + ":" + Decimal(index)
  }

  lemma {:induction false} DecimalInjective(m: nat, n: nat)
    requires Decimal(m) == Decimal(n)
    ensures m == n
  {
    var a, b := Decimal(m), Decimal(n);
    assert a[|a| - 1] == '0' + (m % 10) as char && b[|b| - 1] == '0' + (n % 10) as char;
    if m >= 10 && n >= 10 {
      assert a[..|a| - 1] == Decimal(m / 10) && b[..|b| - 1] == Decimal(n / 10);
      DecimalInjective(m / 10, n / 10);
    }
  }

  predicate NoColon(s: string) {
    forall i | 0 <= i < |s| :: s[i] != ':'
  }

  /** The last colon of `a:d` is not before any other. */
  lemma LastColon(a: string, d: string, at: nat)
    requires NoColon(d) && at < |a + ":" + d| && (a + ":" + d)[at] == ':'
    ensures at <= |a|
  {
    var s := a + ":" + d;
    assert forall p | |a| < p < |s| :: s[p] == d[p - |a| - 1];
  }

  /** What follows the last colon. */
  lemma TailAfterColon(a: string, d: string, b: string, e: string)
    requires a + ":" + d == b + ":" + e && NoColon(d) && NoColon(e)
    ensures d == e
  {
    var s, z := a + ":" + d, b + ":" + e;
    assert s[|a|] == ':' && z[|b|] == ':';
    LastColon(a, d, |b|);
    LastColon(b, e, |a|);
    assert s[|a| + 1..] == d && z[|b| + 1..] == e;
  }

  /** Different numbers make different keys, whatever the names. */
  lemma MadeUpInjective(a: string, m: nat, b: string, n: nat)
    requires MadeUp(a, m) == MadeUp(b, n)
    ensures m == n
  {
    TailAfterColon("name:" + a, Decimal(m), "name:" + b, Decimal(n));
    DecimalInjective(m, n);
  }

  // ---------------------------------------------------------------------------------------------------
  // Collecting calls and errors
  // ---------------------------------------------------------------------------------------------------

  /** What happened to calls without id: `Opened` and `Loose` made a key up, `Matched` used an opened one. */
  datatype Entry = Opened(name: string, key: string) | Matched(name: string, key: string) | Loose(name: string, key: string)

  /** `log` is only there for the proofs. */
  datatype Tally = Tally(calls: map<string, string>, errors: set<string>, open: map<string, seq<string>>, fallback: nat,
                         log: seq<Entry>)

  const FRESH := Tally(map[], {}, map[], 0, [])

  function OpenOf(t: Tally, name: string): seq<string> {
    if name in t.open then t.open[name] else []
  }

  function ToolKey(t: Tally, id: string, name: string, start: bool, finish: bool): (Tally, string) {
    if id != "" then (t, id)
    else if finish && OpenOf(t, name) != [] then
      var key := OpenOf(t, name)[0];
      (t.(open := t.open[name := OpenOf(t, name)[1..]], log := t.log + [Matched(name, key)]), key)
    else
      var key := MadeUp(name, t.fallback);
      if start && !finish then
        (t.(fallback := t.fallback + 1, open := t.open[name := OpenOf(t, name) + [key]], log := t.log + [Opened(name, key)]), key)
      else (t.(fallback := t.fallback + 1, log := t.log + [Loose(name, key)]), key)
  }

  function NameOr(name: string): string {
    if name == "" then "unknown" else name
  }

  /** The first name of a key stays. */
  function Known(calls: map<string, string>, key: string, name: string): map<string, string> {
    if key in calls then calls else calls[key := name]
  }

  function WithStreamed(t: Tally, c: Chunk): Tally {
    if c.streamed.None? then t
    else
      var name := NameOr(c.streamed.value.name);
      var (t1, key) := ToolKey(t, c.streamed.value.id, name, true, false);
      t1.(calls := Known(t1.calls, key, name))
  }

  function WithTool(t: Tally, c: Chunk, failed: bool): Tally {
    if c.tool.None? then t
    else
      var e := c.tool.value;
      var name := NameOr(e.name);
      var (t1, key) := ToolKey(t, e.id, name, e.phase.Started?, e.phase.Finished?);
      t1.(calls := Known(t1.calls, key, name), errors := if e.error || failed then t1.errors + {key} else t1.errors)
  }

  function TallyChunks(t: Tally, chunks: seq<Chunk>, failed: bool): Tally {
    if chunks == [] then t
    else
      WithTool(WithStreamed(TallyChunks(t, chunks[..|chunks| - 1], failed), chunks[|chunks| - 1]), chunks[|chunks| - 1], failed)
  }

  function TallyEvents(events: seq<Event>): Tally {
    if events == [] then FRESH
    else
      var last := events[|events| - 1];
      TallyChunks(TallyEvents(events[..|events| - 1]), last.chunks, last.failed)
  }

  // ---------------------------------------------------------------------------------------------------
  // What every tally keeps
  // ---------------------------------------------------------------------------------------------------

  function OpenedKeys(log: seq<Entry>, name: string): seq<string> {
    if log == [] then []
    else
      var x := log[|log| - 1];
      OpenedKeys(log[..|log| - 1], name) + if x.Opened? && x.name == name then [x.key] else []
  }

  function MatchedKeys(log: seq<Entry>, name: string): seq<string> {
    if log == [] then []
    else
      var x := log[|log| - 1];
      MatchedKeys(log[..|log| - 1], name) + if x.Matched? && x.name == name then [x.key] else []
  }

  /** The keys that were made up, in order. */
  function MadeUpKeys(log: seq<Entry>): seq<string> {
    if log == [] then []
    else
      var x := log[|log| - 1];
      MadeUpKeys(log[..|log| - 1]) + if x.Matched? then [] else [x.key]
  }

  /** Starts of a name are matched in the order they were opened: what is matched and what is open is all that was opened. */
  ghost predicate Fifo(t: Tally) {
    forall name :: MatchedKeys(t.log, name) + OpenOf(t, name) == OpenedKeys(t.log, name)
  }

  /** The i-th key made up carries the number i, so no key is made up twice. */
  ghost predicate Numbered(t: Tally) {
    && |MadeUpKeys(t.log)| == t.fallback
    && forall i | 0 <= i < t.fallback :: HasNumber(MadeUpKeys(t.log)[i], i)
  }

  ghost predicate HasNumber(key: string, i: nat) {
    exists name :: key == MadeUp(name, i)
  }

  ghost predicate Inv(t: Tally) {
    t.errors <= t.calls.Keys && Fifo(t) && Numbered(t)
  }

  lemma LogMore(log: seq<Entry>, x: Entry)
    ensures forall name :: OpenedKeys(log + [x], name)
                        == OpenedKeys(log, name) + if x.Opened? && x.name == name then [x.key] else []
    ensures forall name :: MatchedKeys(log + [x], name)
                        == MatchedKeys(log, name) + if x.Matched? && x.name == name then [x.key] else []
    ensures MadeUpKeys(log + [x]) == MadeUpKeys(log) + if x.Matched? then [] else [x.key]
  {
    assert (log + [x])[..|log|] == log;
  }

  lemma NumberedMore(t: Tally, t': Tally, name: string)
    requires Numbered(t) && t'.fallback == t.fallback + 1
    requires MadeUpKeys(t'.log) == MadeUpKeys(t.log) + [MadeUp(name, t.fallback)]
    ensures Numbered(t')
  {
    assert HasNumber(MadeUp(name, t.fallback), t.fallback);
    forall i | 0 <= i < t'.fallback ensures HasNumber(MadeUpKeys(t'.log)[i], i) {
      assert i < t.fallback ==> MadeUpKeys(t'.log)[i] == MadeUpKeys(t.log)[i];
    }
  }

  lemma ToolKeyKept(t: Tally, id: string, name: string, start: bool, finish: bool)
    requires Inv(t)
    ensures Inv(ToolKey(t, id, name, start, finish).0)
  {
    var (t', key) := ToolKey(t, id, name, start, finish);
    if id == "" {
      var x := t'.log[|t.log|];
      LogMore(t.log, x);
      forall n ensures MatchedKeys(t'.log, n) + OpenOf(t', n) == OpenedKeys(t'.log, n) {
        assert MatchedKeys(t.log, n) + OpenOf(t, n) == OpenedKeys(t.log, n);
      }
      if !x.Matched? {
        NumberedMore(t, t', name);
      }
    }
  }

  lemma ChunkKept(t: Tally, c: Chunk, failed: bool)
    requires Inv(t)
    ensures Inv(WithTool(WithStreamed(t, c), c, failed))
  {
    StreamedKept(t, c);
    ToolKept(WithStreamed(t, c), c, failed);
  }

  lemma SameLog(t: Tally, t': Tally)
    requires Inv(t) && t'.open == t.open && t'.fallback == t.fallback && t'.log == t.log && t'.errors <= t'.calls.Keys
    ensures Inv(t')
  {
    forall n ensures MatchedKeys(t'.log, n) + OpenOf(t', n) == OpenedKeys(t'.log, n) {
      assert MatchedKeys(t.log, n) + OpenOf(t, n) == OpenedKeys(t.log, n);
    }
  }

  lemma StreamedKept(t: Tally, c: Chunk)
    requires Inv(t)
    ensures Inv(WithStreamed(t, c))
  {
    if c.streamed.Some? {
      ToolKeyKept(t, c.streamed.value.id, NameOr(c.streamed.value.name), true, false);
      SameLog(ToolKey(t, c.streamed.value.id, NameOr(c.streamed.value.name), true, false).0, WithStreamed(t, c));
    }
  }

  lemma ToolKept(t: Tally, c: Chunk, failed: bool)
    requires Inv(t)
    ensures Inv(WithTool(t, c, failed))
  {
    if c.tool.Some? {
      var e := c.tool.value;
      ToolKeyKept(t, e.id, NameOr(e.name), e.phase.Started?, e.phase.Finished?);
      SameLog(ToolKey(t, e.id, NameOr(e.name), e.phase.Started?, e.phase.Finished?).0, WithTool(t, c, failed));
    }
  }

  lemma {:induction false} ChunksKept(t: Tally, chunks: seq<Chunk>, failed: bool)
    requires Inv(t)
    ensures Inv(TallyChunks(t, chunks, failed))
    decreases chunks
  {
    if chunks != [] {
      ChunksKept(t, chunks[..|chunks| - 1], failed);
      ChunkKept(TallyChunks(t, chunks[..|chunks| - 1], failed), chunks[|chunks| - 1], failed);
    }
  }

  /** For every list of events: errors belong to calls, matching is first in first out, made-up keys are numbered. */
  lemma {:induction false} TallyRight(events: seq<Event>)
    ensures Inv(TallyEvents(events))
  {
    if events != [] {
      TallyRight(events[..|events| - 1]);
      var last := events[|events| - 1];
      ChunksKept(TallyEvents(events[..|events| - 1]), last.chunks, last.failed);
    }
  }

  /** No key is made up twice. */
  lemma MadeUpOnce(events: seq<Event>, i: nat, j: nat)
    requires i < j < |MadeUpKeys(TallyEvents(events).log)|
    ensures var keys := MadeUpKeys(TallyEvents(events).log); keys[i] != keys[j]
  {
    TallyRight(events);
    var t := TallyEvents(events);
    var keys := MadeUpKeys(t.log);
    assert HasNumber(keys[i], i) && HasNumber(keys[j], j);
    var a :| keys[i] == MadeUp(a, i);
    var b :| keys[j] == MadeUp(b, j);
    if keys[i] == keys[j] {
      MadeUpInjective(a, i, b, j);
    }
  }

  /**
   At any moment, also between the chunks of one event: a finish without id, when starts of its name are open, stands for
   the oldest of them.
   */
  lemma FinishTakesOldest(t: Tally, name: string)
    requires Inv(t) && OpenOf(t, name) != []
    ensures var matched := |MatchedKeys(t.log, name)|;
            && matched < |OpenedKeys(t.log, name)|
            && ToolKey(t, "", name, false, true).1 == OpenedKeys(t.log, name)[matched]
  {
    assert MatchedKeys(t.log, name) + OpenOf(t, name) == OpenedKeys(t.log, name);
  }

  // ---------------------------------------------------------------------------------------------------
  // Ids of events and made-up keys
  // ---------------------------------------------------------------------------------------------------

  function One(id: string): set<string> {
    if id == "" then {} else {id}
  }

  /** The ids that the events carry. */
  function GivenBy(chunks: seq<Chunk>): set<string> {
    if chunks == [] then {}
    else
      var c := chunks[|chunks| - 1];
      GivenBy(chunks[..|chunks| - 1])
      + (if c.streamed.Some? then One(c.streamed.value.id) else {}) + if c.tool.Some? then One(c.tool.value.id) else {}
  }

  function Given(events: seq<Event>): set<string> {
    if events == [] then {} else Given(events[..|events| - 1]) + GivenBy(events[|events| - 1].chunks)
  }

  function MadeUpSet(log: seq<Entry>): set<string> {
    set k | k in MadeUpKeys(log)
  }

  /** The calls are those with an id of an event and those with a made-up key. */
  predicate Collected(t: Tally, given: set<string>) {
    t.calls.Keys == given + MadeUpSet(t.log)
  }

  lemma {:induction false} OpenedIsMadeUp(log: seq<Entry>, name: string, key: string)
    requires key in OpenedKeys(log, name)
    ensures key in MadeUpKeys(log)
  {
    var x := log[|log| - 1];
    if key in OpenedKeys(log[..|log| - 1], name) {
      OpenedIsMadeUp(log[..|log| - 1], name, key);
    }
  }

  lemma MatchCollected(t: Tally, name: string)
    requires Inv(t) && OpenOf(t, name) != []
    ensures var (t1, key) := ToolKey(t, "", name, false, true);
            key in MadeUpSet(t.log) && MadeUpSet(t1.log) == MadeUpSet(t.log)
  {
    var (t1, key) := ToolKey(t, "", name, false, true);
    LogMore(t.log, Matched(name, key));
    assert MatchedKeys(t.log, name) + OpenOf(t, name) == OpenedKeys(t.log, name);
    assert key == (MatchedKeys(t.log, name) + OpenOf(t, name))[|MatchedKeys(t.log, name)|];
    OpenedIsMadeUp(t.log, name, key);
  }

  lemma MadeUpMore(log: seq<Entry>, x: Entry)
    requires !x.Matched?
    ensures MadeUpSet(log + [x]) == MadeUpSet(log) + {x.key}
  {
    LogMore(log, x);
  }

  /** One use of a key, whatever name is noted for it. */
  lemma KeyCollected(t: Tally, id: string, name: string, start: bool, finish: bool, given: set<string>)
    requires Inv(t) && Collected(t, given)
    ensures var (t1, key) := ToolKey(t, id, name, start, finish);
            t1.calls.Keys + {key} == given + One(id) + MadeUpSet(t1.log)
  {
    var (t1, key) := ToolKey(t, id, name, start, finish);
    if id == "" {
      if finish && OpenOf(t, name) != [] {
        MatchCollected(t, name);
      } else {
        MadeUpMore(t.log, t1.log[|t.log|]);
      }
    }
  }

  lemma ChunkCollected(t: Tally, c: Chunk, failed: bool, given: set<string>)
    requires Inv(t) && Collected(t, given)
    ensures Collected(WithTool(WithStreamed(t, c), c, failed),
                      given + (if c.streamed.Some? then One(c.streamed.value.id) else {})
                      + if c.tool.Some? then One(c.tool.value.id) else {})
  {
    StreamedCollected(t, c, given);
    StreamedKept(t, c);
    ToolCollected(WithStreamed(t, c), c, failed, given + if c.streamed.Some? then One(c.streamed.value.id) else {});
  }

  lemma StreamedCollected(t: Tally, c: Chunk, given: set<string>)
    requires Inv(t) && Collected(t, given)
    ensures Collected(WithStreamed(t, c), given + if c.streamed.Some? then One(c.streamed.value.id) else {})
  {
    if c.streamed.Some? {
      KeyCollected(t, c.streamed.value.id, NameOr(c.streamed.value.name), true, false, given);
    }
  }

  lemma ToolCollected(t: Tally, c: Chunk, failed: bool, given: set<string>)
    requires Inv(t) && Collected(t, given)
    ensures Collected(WithTool(t, c, failed), given + if c.tool.Some? then One(c.tool.value.id) else {})
  {
    if c.tool.Some? {
      var e := c.tool.value;
      KeyCollected(t, e.id, NameOr(e.name), e.phase.Started?, e.phase.Finished?, given);
    }
  }

  lemma {:induction false} ChunksCollected(t: Tally, chunks: seq<Chunk>, failed: bool, given: set<string>)
    requires Inv(t) && Collected(t, given)
    ensures Collected(TallyChunks(t, chunks, failed), given + GivenBy(chunks))
    decreases chunks
  {
    if chunks == [] {
      assert given + {} == given;
    } else {
      var init := chunks[..|chunks| - 1];
      ChunksCollected(t, init, failed, given);
      ChunksKept(t, init, failed);
      ChunkCollected(TallyChunks(t, init, failed), chunks[|chunks| - 1], failed, given + GivenBy(init));
      GivenMore(given, chunks);
    }
  }

  lemma GivenMore(given: set<string>, chunks: seq<Chunk>)
    requires chunks != []
    ensures var c := chunks[|chunks| - 1];
            given + GivenBy(chunks[..|chunks| - 1]) + (if c.streamed.Some? then One(c.streamed.value.id) else {})
            + (if c.tool.Some? then One(c.tool.value.id) else {}) == given + GivenBy(chunks)
  {
  }

  lemma {:induction false} AllCollected(events: seq<Event>)
    ensures Collected(TallyEvents(events), Given(events))
  {
    if events != [] {
      var init, last := events[..|events| - 1], events[|events| - 1];
      AllCollected(init);
      TallyRight(init);
      ChunksCollected(TallyEvents(init), last.chunks, last.failed, Given(init));
    }
  }

  lemma {:induction false} DistinctCount(keys: seq<string>)
    requires forall i, j | 0 <= i < j < |keys| :: keys[i] != keys[j]
    ensures |set k | k in keys| == |keys|
  {
    if keys != [] {
      var init, last := keys[..|keys| - 1], keys[|keys| - 1];
      DistinctCount(init);
      assert (set k | k in keys) == (set k | k in init) + {last};
    }
  }

  lemma Union(a: set<string>, b: set<string>)
    ensures |a + b| == |a| + |b| <==> a !! b
  {
    assert |a + b| + |a * b| == |a| + |b|;
    if a !! b {
      assert a * b == {};
    } else {
      var k :| k in a && k in b;
      assert k in a * b;
    }
  }

  /**
   The exact condition for counting every call: there is one call for each id of an event and one for each key that was
   made up, all different, if and only if no id of an event is one of the made-up keys.
   */
  lemma CountedApartExactly(events: seq<Event>)
    ensures var t := TallyEvents(events);
            |t.calls| == |Given(events)| + t.fallback <==> forall k | k in MadeUpKeys(t.log) :: k !in Given(events)
  {
    var t := TallyEvents(events);
    AllCollected(events);
    TallyRight(events);
    forall i, j | 0 <= i < j < |MadeUpKeys(t.log)| ensures MadeUpKeys(t.log)[i] != MadeUpKeys(t.log)[j] {
      MadeUpOnce(events, i, j);
    }
    DistinctCount(MadeUpKeys(t.log));
    Union(Given(events), MadeUpSet(t.log));
    assert |t.calls| == |t.calls.Keys|;
    assert forall k :: k in MadeUpSet(t.log) <==> k in MadeUpKeys(t.log);
  }

  lemma OneMoreEvent(events: seq<Event>, failed: bool, c: Chunk)
    ensures TallyEvents(events + [Event(failed, [c])])
         == WithTool(WithStreamed(TallyEvents(events), c), c, failed)
  {
    var last := Event(failed, [c]);
    assert (events + [last])[..|events|] == events;
    assert last.chunks[..0] == [];
    assert TallyChunks(TallyEvents(events), [c], failed) == WithTool(WithStreamed(TallyEvents(events), c), c, failed);
  }

  /** A tool event that starts a call of "x". */
  function StartOfX(id: string): Chunk {
    Chunk(None, Some(ToolEvent(Started, id, "x", false)))
  }

  // ---------------------------------------------------------------------------------------------------
  // What counts as a start
  // ---------------------------------------------------------------------------------------------------

  /** The chunk streams a call of `name` without id, or its tool event says that one has started; it may do both. */
  function StartsBy(c: Chunk, name: string): nat {
    (if c.streamed.Some? && c.streamed.value.id == "" && NameOr(c.streamed.value.name) == name then 1 else 0)
    + if c.tool.Some? && c.tool.value.id == "" && c.tool.value.phase == Started && NameOr(c.tool.value.name) == name
      then 1 else 0
  }

  function StartsIn(chunks: seq<Chunk>, name: string): nat {
    if chunks == [] then 0 else StartsIn(chunks[..|chunks| - 1], name) + StartsBy(chunks[|chunks| - 1], name)
  }

  function Starts(events: seq<Event>, name: string): nat {
    if events == [] then 0 else Starts(events[..|events| - 1], name) + StartsIn(events[|events| - 1].chunks, name)
  }

  lemma ChunkStarts(t: Tally, c: Chunk, failed: bool, name: string)
    ensures |OpenedKeys(WithTool(WithStreamed(t, c), c, failed).log, name)|
         == |OpenedKeys(t.log, name)| + StartsBy(c, name)
  {
    var t1 := WithStreamed(t, c);
    if c.streamed.Some? {
      KeyOpens(t, c.streamed.value.id, NameOr(c.streamed.value.name), true, false, name);
    }
    if c.tool.Some? {
      var e := c.tool.value;
      KeyOpens(t1, e.id, NameOr(e.name), e.phase.Started?, e.phase.Finished?, name);
    }
  }

  lemma KeyOpens(t: Tally, id: string, n: string, start: bool, finish: bool, name: string)
    requires !(start && finish)
    ensures |OpenedKeys(ToolKey(t, id, n, start, finish).0.log, name)|
         == |OpenedKeys(t.log, name)| + if id == "" && start && n == name then 1 else 0
  {
    var t1 := ToolKey(t, id, n, start, finish).0;
    if id == "" {
      LogMore(t.log, t1.log[|t.log|]);
    }
  }

  lemma {:induction false} ChunksStart(t: Tally, chunks: seq<Chunk>, failed: bool, name: string)
    ensures |OpenedKeys(TallyChunks(t, chunks, failed).log, name)| == |OpenedKeys(t.log, name)| + StartsIn(chunks, name)
    decreases chunks
  {
    if chunks != [] {
      ChunksStart(t, chunks[..|chunks| - 1], failed, name);
      ChunkStarts(TallyChunks(t, chunks[..|chunks| - 1], failed), chunks[|chunks| - 1], failed, name);
    }
  }

  /** Exactly the starts without id are opened, for each name: an event of another phase stands for a call of its own. */
  lemma {:induction false} OpenedAreStarts(events: seq<Event>, name: string)
    ensures |OpenedKeys(TallyEvents(events).log, name)| == Starts(events, name)
  {
    if events != [] {
      var init, last := events[..|events| - 1], events[|events| - 1];
      OpenedAreStarts(init, name);
      ChunksStart(TallyEvents(init), last.chunks, last.failed, name);
    }
  }

  // ---------------------------------------------------------------------------------------------------
  // Which calls have errors
  // ---------------------------------------------------------------------------------------------------

  /** The ids whose tool events say error, or stand in a failed event. */
  function BadBy(chunks: seq<Chunk>, failed: bool): set<string> {
    if chunks == [] then {}
    else
      var c := chunks[|chunks| - 1];
      BadBy(chunks[..|chunks| - 1], failed)
      + if c.tool.Some? && c.tool.value.id != "" && (c.tool.value.error || failed) then {c.tool.value.id} else {}
  }

  function Bad(events: seq<Event>): set<string> {
    if events == [] then {}
    else Bad(events[..|events| - 1]) + BadBy(events[|events| - 1].chunks, events[|events| - 1].failed)
  }

  /** Made-up keys aside, the calls with an error are `bad`. */
  ghost predicate ErrorsAre(t: Tally, bad: set<string>) {
    forall k | k !in MadeUpSet(t.log) :: k in t.errors <==> k in bad
  }

  /** A tool event with an error, or in a failed event, marks the call it stands for, and no other marks any. */
  lemma ErrorMarks(t: Tally, c: Chunk, failed: bool)
    requires c.tool.Some?
    ensures var e := c.tool.value;
            var key := ToolKey(t, e.id, if e.name == "" then "unknown" else e.name, e.phase.Started?, e.phase.Finished?).1;
            WithTool(t, c, failed).errors == t.errors + if e.error || failed then {key} else {}
    ensures WithStreamed(t, c).errors == t.errors
  {
  }

  /** A call keeps the name under which it was first seen; a new one gets the name at hand, or "unknown". */
  lemma FirstNameStays(t: Tally, c: Chunk, failed: bool)
    ensures forall k | k in t.calls :: k in WithStreamed(t, c).calls && WithStreamed(t, c).calls[k] == t.calls[k]
    ensures forall k | k in t.calls :: k in WithTool(t, c, failed).calls && WithTool(t, c, failed).calls[k] == t.calls[k]
    ensures forall k | k in WithStreamed(t, c).calls && k !in t.calls ::
        WithStreamed(t, c).calls[k] == if c.streamed.value.name == "" then "unknown" else c.streamed.value.name
    ensures forall k | k in WithTool(t, c, failed).calls && k !in t.calls ::
        WithTool(t, c, failed).calls[k] == if c.tool.value.name == "" then "unknown" else c.tool.value.name
  {
  }

  lemma KeyAside(t: Tally, id: string, name: string, start: bool, finish: bool)
    requires Inv(t)
    ensures var (t1, key) := ToolKey(t, id, name, start, finish);
            && MadeUpSet(t.log) <= MadeUpSet(t1.log) && t1.errors == t.errors
            && (id == "" ==> key in MadeUpSet(t1.log)) && (id != "" ==> key == id)
  {
    if id == "" {
      if finish && OpenOf(t, name) != [] {
        MatchCollected(t, name);
      } else {
        var t1 := ToolKey(t, id, name, start, finish).0;
        MadeUpMore(t.log, t1.log[|t.log|]);
      }
    }
  }

  lemma ToolErrors(t: Tally, c: Chunk, failed: bool, bad: set<string>)
    requires Inv(t) && ErrorsAre(t, bad)
    ensures ErrorsAre(WithTool(t, c, failed),
                      bad + if c.tool.Some? && c.tool.value.id != "" && (c.tool.value.error || failed)
                            then {c.tool.value.id} else {})
  {
    if c.tool.Some? {
      var e := c.tool.value;
      KeyAside(t, e.id, NameOr(e.name), e.phase.Started?, e.phase.Finished?);
    }
  }

  lemma StreamedErrors(t: Tally, c: Chunk, bad: set<string>)
    requires Inv(t) && ErrorsAre(t, bad)
    ensures ErrorsAre(WithStreamed(t, c), bad)
  {
    if c.streamed.Some? {
      KeyAside(t, c.streamed.value.id, NameOr(c.streamed.value.name), true, false);
    }
  }

  lemma {:induction false} ChunksErrors(t: Tally, chunks: seq<Chunk>, failed: bool, bad: set<string>)
    requires Inv(t) && ErrorsAre(t, bad)
    ensures ErrorsAre(TallyChunks(t, chunks, failed), bad + BadBy(chunks, failed))
    decreases chunks
  {
    if chunks == [] {
      assert bad + {} == bad;
    } else {
      var init, c := chunks[..|chunks| - 1], chunks[|chunks| - 1];
      var t1 := TallyChunks(t, init, failed);
      ChunksErrors(t, init, failed, bad);
      ChunksKept(t, init, failed);
      StreamedErrors(t1, c, bad + BadBy(init, failed));
      StreamedKept(t1, c);
      ToolErrors(WithStreamed(t1, c), c, failed, bad + BadBy(init, failed));
      BadMore(bad, chunks, failed);
    }
  }

  lemma BadMore(bad: set<string>, chunks: seq<Chunk>, failed: bool)
    requires chunks != []
    ensures var c := chunks[|chunks| - 1];
            bad + BadBy(chunks[..|chunks| - 1], failed)
            + (if c.tool.Some? && c.tool.value.id != "" && (c.tool.value.error || failed) then {c.tool.value.id} else {})
            == bad + BadBy(chunks, failed)
  {
  }

  /** A call with an id that is no made-up key has an error if and only if one of its tool events says so. */
  lemma {:induction false} ErrorsRight(events: seq<Event>)
    ensures ErrorsAre(TallyEvents(events), Bad(events))
  {
    if events != [] {
      var init, last := events[..|events| - 1], events[|events| - 1];
      ErrorsRight(init);
      TallyRight(init);
      ChunksErrors(TallyEvents(init), last.chunks, last.failed, Bad(init));
    }
  }

  /** A call whose id looks like a made-up key, and then a call of the same tool without id: they count as one. */
  lemma IdTakesMadeUpKey()
    ensures MadeUp("x", 0) == "name:x:0"
    ensures var events := [Event(false, [StartOfX(MadeUp("x", 0))])] + [Event(false, [StartOfX("")])];
            TallyEvents(events).calls == map[MadeUp("x", 0) := "x"]
  {
    assert Decimal(0) == "0" && "name:" + "x" + ":" + "0" == "name:x:0";
    OneMoreEvent([], false, StartOfX(MadeUp("x", 0)));
    assert [] + [Event(false, [StartOfX(MadeUp("x", 0))])] == [Event(false, [StartOfX(MadeUp("x", 0))])];
    OneMoreEvent([Event(false, [StartOfX(MadeUp("x", 0))])], false, StartOfX(""));
  }

  // ---------------------------------------------------------------------------------------------------
  // Counting per tool
  // ---------------------------------------------------------------------------------------------------

  datatype Count = Count(calls: nat, errors: nat)

  function CountOf(tools: map<string, Count>, name: string): Count {
    if name in tools then tools[name] else Count(0, 0)
  }

  ghost function Total(tools: map<string, Count>): Count {
    if tools == map[] then Count(0, 0)
    else
      var name :| name in tools;
      var rest := Total(tools - {name});
      Count(tools[name].calls + rest.calls, tools[name].errors + rest.errors)
  }

  lemma {:induction false} TotalWithout(tools: map<string, Count>, name: string)
    requires name in tools
    ensures var rest := Total(tools - {name});
            Total(tools) == Count(tools[name].calls + rest.calls, tools[name].errors + rest.errors)
    decreases |tools|
  {
    var picked :| picked in tools && Total(tools) ==
        Count(tools[picked].calls + Total(tools - {picked}).calls, tools[picked].errors + Total(tools - {picked}).errors);
    if picked != name {
      assert |tools - {picked}| < |tools| && |tools - {name}| < |tools|;
      TotalWithout(tools - {picked}, name);
      TotalWithout(tools - {name}, picked);
      assert tools - {picked} - {name} == tools - {name} - {picked};
    }
  }

  lemma TotalMore(tools: map<string, Count>, name: string, c: Count)
    requires c.calls >= CountOf(tools, name).calls && c.errors >= CountOf(tools, name).errors
    ensures var before := Total(tools);
            Total(tools[name := c]) == Count(before.calls + c.calls - CountOf(tools, name).calls,
                                             before.errors + c.errors - CountOf(tools, name).errors)
  {
    var more := tools[name := c];
    TotalWithout(more, name);
    assert more - {name} == tools - {name};
    if name in tools {
      TotalWithout(tools, name);
    } else {
      assert tools - {name} == tools;
    }
  }

  /** The keys of a tool. */
  function KeysOf(calls: map<string, string>, keys: set<string>, name: string): set<string> {
    set k | k in keys && k in calls && calls[k] == name
  }

  /** The last loop: counts per tool, for each the calls of its name and those among them with an error. */
  method CountTools(calls: map<string, string>, errors: set<string>) returns (tools: map<string, Count>)
    requires errors <= calls.Keys
    ensures tools.Keys == calls.Values
    ensures forall name | name in tools ::
        tools[name] == Count(|KeysOf(calls, calls.Keys, name)|, |KeysOf(calls, errors, name)|)
    ensures Total(tools) == Count(|calls|, |errors|)
  {
    tools := map[];
    var done: set<string> := {};
    while done != calls.Keys
      invariant done <= calls.Keys && tools.Keys == NamesOf(calls, done)
      invariant CountsRight(calls, errors, done, tools)
      invariant Total(tools) == Count(|done|, |errors * done|)
      decreases |calls.Keys - done|
    {
      var k :| k in calls.Keys - done;
      tools := CountCall(calls, errors, done, tools, k);
      done := done + {k};
    }
    assert errors * done == errors;
    AllCounted(calls, errors, tools);
  }

  /** One call more. */
  method CountCall(calls: map<string, string>, errors: set<string>, ghost done: set<string>, tools: map<string, Count>, k: string)
    returns (more: map<string, Count>)
    requires k in calls && k !in done
    requires tools.Keys == NamesOf(calls, done) && CountsRight(calls, errors, done, tools)
    requires Total(tools) == Count(|done|, |errors * done|)
    ensures more.Keys == NamesOf(calls, done + {k}) && CountsRight(calls, errors, done + {k}, more)
    ensures Total(more) == Count(|done + {k}|, |errors * (done + {k})|)
  {
    var name := calls[k];
    var item := CountOf(tools, name);
    CountsMore(calls, errors, done, tools, k);
    TotalsMore(errors, done, tools, name, k);
    NamesMore(calls, done, k);
    more := tools[name := Count(item.calls + 1, item.errors + if k in errors then 1 else 0)];
  }

  /** The counts of every name once the calls of `done` have been looked at. */
  ghost predicate CountsRight(calls: map<string, string>, errors: set<string>, done: set<string>, tools: map<string, Count>) {
    forall name :: CountOf(tools, name) == Count(|KeysOf(calls, done, name)|, |KeysOf(calls, errors * done, name)|)
  }

  function NamesOf(calls: map<string, string>, keys: set<string>): set<string> {
    set k | k in keys && k in calls :: calls[k]
  }

  lemma AllCounted(calls: map<string, string>, errors: set<string>, tools: map<string, Count>)
    requires errors * calls.Keys == errors && CountsRight(calls, errors, calls.Keys, tools)
    ensures NamesOf(calls, calls.Keys) == calls.Values
    ensures forall name | name in tools ::
        tools[name] == Count(|KeysOf(calls, calls.Keys, name)|, |KeysOf(calls, errors, name)|)
  {
    forall name | name in tools
      ensures tools[name] == Count(|KeysOf(calls, calls.Keys, name)|, |KeysOf(calls, errors, name)|)
    {
      assert CountOf(tools, name) == Count(|KeysOf(calls, calls.Keys, name)|, |KeysOf(calls, errors * calls.Keys, name)|);
    }
  }

  lemma NamesMore(calls: map<string, string>, done: set<string>, k: string)
    requires k in calls
    ensures NamesOf(calls, done + {k}) == NamesOf(calls, done) + {calls[k]}
  {
  }

  lemma TotalsMore(errors: set<string>, done: set<string>, tools: map<string, Count>, name: string, k: string)
    requires Total(tools) == Count(|done|, |errors * done|) && k !in done
    ensures var item := CountOf(tools, name);
            Total(tools[name := Count(item.calls + 1, item.errors + if k in errors then 1 else 0)])
            == Count(|done + {k}|, |errors * (done + {k})|)
  {
    var item := CountOf(tools, name);
    OneMoreError(errors, done, k);
    assert |done + {k}| == |done| + 1;
    TotalMore(tools, name, Count(item.calls + 1, item.errors + if k in errors then 1 else 0));
  }

  lemma CountsMore(calls: map<string, string>, errors: set<string>, done: set<string>, tools: map<string, Count>, k: string)
    requires k in calls && k !in done && CountsRight(calls, errors, done, tools)
    ensures var item := CountOf(tools, calls[k]);
            CountsRight(calls, errors, done + {k},
                        tools[calls[k] := Count(item.calls + 1, item.errors + if k in errors then 1 else 0)])
  {
    var item := CountOf(tools, calls[k]);
    var more := tools[calls[k] := Count(item.calls + 1, item.errors + if k in errors then 1 else 0)];
    forall n ensures CountOf(more, n) == Count(|KeysOf(calls, done + {k}, n)|, |KeysOf(calls, errors * (done + {k}), n)|) {
      OneMoreKey(calls, errors, done, k, n);
      assert CountOf(tools, n) == Count(|KeysOf(calls, done, n)|, |KeysOf(calls, errors * done, n)|);
    }
  }

  lemma OneMoreKey(calls: map<string, string>, errors: set<string>, done: set<string>, k: string, n: string)
    requires k in calls && k !in done
    ensures |KeysOf(calls, done + {k}, n)| == |KeysOf(calls, done, n)| + if n == calls[k] then 1 else 0
    ensures |KeysOf(calls, errors * (done + {k}), n)|
         == |KeysOf(calls, errors * done, n)| + if k in errors && n == calls[k] then 1 else 0
  {
    assert KeysOf(calls, done + {k}, n) == KeysOf(calls, done, n) + if n == calls[k] then {k} else {};
    assert KeysOf(calls, errors * (done + {k}), n)
        == KeysOf(calls, errors * done, n) + if k in errors && n == calls[k] then {k} else {};
  }

  lemma OneMoreError(errors: set<string>, done: set<string>, k: string)
    requires k !in done
    ensures |errors * (done + {k})| == |errors * done| + if k in errors then 1 else 0
  {
    assert errors * (done + {k}) == errors * done + if k in errors then {k} else {};
  }

  /** The whole summary: the counts of the tools add up to the two totals. */
  method BuildTrajectorySummary(events: seq<Event>) returns (tools: map<string, Count>, callCount: nat, errorCount: nat)
    ensures var t := TallyEvents(events);
            && callCount == |t.calls| && errorCount == |t.errors|
            && Total(tools) == Count(callCount, errorCount)
            && tools.Keys == t.calls.Values
            && forall name | name in tools ::
                 tools[name] == Count(|KeysOf(t.calls, t.calls.Keys, name)|, |KeysOf(t.calls, t.errors, name)|)
  {
    var t := FRESH;
    var i := 0;
    while i < |events|
      invariant 0 <= i <= |events| && t == TallyEvents(events[..i])
    {
      var chunks, failed := events[i].chunks, events[i].failed;
      var j := 0;
      while j < |chunks|
        invariant 0 <= j <= |chunks| && t == TallyChunks(TallyEvents(events[..i]), chunks[..j], failed)
      {
        assert chunks[..j + 1][..j] == chunks[..j];
        t := WithStreamed(t, chunks[j]);
        t := WithTool(t, chunks[j], failed);
        j := j + 1;
      }
      assert chunks[..|chunks|] == chunks && events[..i + 1][..i] == events[..i];
      i := i + 1;
    }
    assert events[..|events|] == events;
    TallyRight(events);
    tools := CountTools(t.calls, t.errors);
    callCount, errorCount := |t.calls|, |t.errors|;
  }
}
