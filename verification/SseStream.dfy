/**
 The event stream: the server prints frames, the browser parses whatever pieces of text the connection hands it.
 Text is a sequence of characters; decoding bytes is left out, and whether data is acceptable JSON is a parameter.
 The format is that of section 9.2.6 of the WHATWG HTML Standard, restricted to what the parser does.
 */
module SseStream {
  import opened Prelude

  // ---------------------------------------------------------------------------------------------------
  // Strings as the browser sees them
  // ---------------------------------------------------------------------------------------------------

  /** What trimming removes: white space and line terminators of the language. */
  predicate JsSpace(c: char) {
    var n := c as int;
    || 0x09 <= n <= 0x0D || n == 0x20 || n == 0xA0 || n == 0x1680 || 0x2000 <= n <= 0x200A
    || n == 0x2028 || n == 0x2029 || n == 0x202F || n == 0x205F || n == 0x3000 || n == 0xFEFF
  }

  /** White space and line terminators, of section 12 of ECMA-262: the separators, the space, those of Unicode, the mark. */
  function Spaces(): string {
    "\t\n\U{0B}\U{0C}\r \U{A0}\U{1680}"
    + "\U{2000}\U{2001}\U{2002}\U{2003}\U{2004}\U{2005}\U{2006}\U{2007}\U{2008}\U{2009}\U{200A}"
    + "\U{2028}\U{2029}\U{202F}\U{205F}\U{3000}\U{FEFF}"
  }

  lemma SpacesExactly(c: char)
    ensures JsSpace(c) <==> c in Spaces()
  {
    assert |Spaces()| == 25 && Spaces()[5] == ' ' && Spaces()[6] == '\U{A0}' && Spaces()[7] == '\U{1680}';
    assert forall i | 0 <= i < |Spaces()| :: JsSpace(Spaces()[i]);
    var n := c as int;
    if 0x09 <= n <= 0x0D {
      assert Spaces()[n - 9] == c;
    } else if 0x2000 <= n <= 0x200A {
      assert Spaces()[n - 0x2000 + 8] == c;
    } else if JsSpace(c) {
      assert Spaces()[19] == '\U{2028}' && Spaces()[20] == '\U{2029}' && Spaces()[21] == '\U{202F}';
      assert Spaces()[22] == '\U{205F}' && Spaces()[23] == '\U{3000}' && Spaces()[24] == '\U{FEFF}';
    }
  }

  function TrimStart(s: string): string {
    if s != "" && JsSpace(s[0]) then TrimStart(s[1..]) else s
  }

  function TrimEnd(s: string): string {
    if s != "" && JsSpace(s[|s| - 1]) then TrimEnd(s[..|s| - 1]) else s
  }

  function Trim(s: string): string {
    TrimEnd(TrimStart(s))
  }

  /** What is left of a trimmed text begins and ends with other characters, and only such characters are gone. */
  lemma TrimExactly(s: string)
    ensures var t := Trim(s);
            && (t != "" ==> !JsSpace(t[0]) && !JsSpace(t[|t| - 1]))
            && exists a: nat, b: nat :: TrimmedAt(s, a, b) && t == s[a..b]
  {
    var a := TrimStartAt(s);
    var b := TrimEndAt(s[a..]);
    assert forall i | a + b <= i < |s| :: s[i] == s[a..][i - a];
    assert TrimmedAt(s, a, a + b);
    assert s[a..a + b] == s[a..][..b];
  }

  predicate TrimmedAt(s: string, a: nat, b: nat) {
    a <= b <= |s| && (forall i | 0 <= i < a :: JsSpace(s[i])) && forall i | b <= i < |s| :: JsSpace(s[i])
  }

  lemma {:induction false} TrimStartAt(s: string) returns (a: nat)
    ensures a <= |s| && TrimStart(s) == s[a..] && (forall i | 0 <= i < a :: JsSpace(s[i]))
    ensures a < |s| ==> !JsSpace(s[a])
  {
    a := 0;
    if s != "" && JsSpace(s[0]) {
      a := TrimStartAt(s[1..]);
      assert forall i | 1 <= i < a + 1 :: s[i] == s[1..][i - 1];
      a := a + 1;
    }
  }

  lemma {:induction false} TrimEndAt(s: string) returns (b: nat)
    ensures b <= |s| && TrimEnd(s) == s[..b] && (forall i | b <= i < |s| :: JsSpace(s[i]))
    ensures b > 0 ==> !JsSpace(s[b - 1])
  {
    b := |s|;
    if s != "" && JsSpace(s[|s| - 1]) {
      b := TrimEndAt(s[..|s| - 1]);
      assert s[..|s| - 1][..b] == s[..b];
    }
  }

  function StripCr(s: string): string {
    if s != "" && s[|s| - 1] == '\r' then s[..|s| - 1] else s
  }

  predicate StartsWith(s: string, prefix: string) {
    |prefix| <= |s| && s[..|prefix|] == prefix
  }

  function JoinLines(lines: seq<string>): string {
    if lines == [] then "" else if |lines| == 1 then lines[0] else lines[0] + "\n" + JoinLines(lines[1..])
  }

  /** The finished lines of a text. */
  function Lines(s: string): seq<string> {
    if s == "" then []
    else
      var init := s[..|s| - 1];
      if s[|s| - 1] == '\n' then Lines(init) + [Rest(init)] else Lines(init)
  }

  /** What follows the last line feed. */
  function Rest(s: string): (r: string)
    ensures '\n' !in r
  {
    if s == "" then ""
    else if s[|s| - 1] == '\n' then "" else Rest(s[..|s| - 1]) + [s[|s| - 1]]
  }

  // ---------------------------------------------------------------------------------------------------
  // The parser
  // ---------------------------------------------------------------------------------------------------

  datatype Event = Event(kind: string, data: string, id: Option<string>)

  /** The event that is being put together. */
  datatype Pending = Pending(kind: string, id: Option<string>, data: seq<string>)

  const EMPTY := Pending("message", None, [])

  /** What the handler gets for `p`; data that is not JSON is dropped. */
  function Dispatch(json: string -> bool, p: Pending): seq<Event> {
    if p.data == [] || !json(JoinLines(p.data)) then [] else [Event(p.kind, JoinLines(p.data), p.id)]
  }

  function AfterLine(p: Pending, raw: string): Pending {
    var line := StripCr(raw);
    if line == "" then EMPTY
    else if StartsWith(line, ":") then p
    else if StartsWith(line, "event:") then p.(kind := if Trim(line[6..]) == "" then "message" else Trim(line[6..]))
    else if StartsWith(line, "data:") then p.(data := p.data + [TrimStart(line[5..])])
    else if StartsWith(line, "id:") then p.(id := Some(Trim(line[3..])))
    else p
  }

  function After(lines: seq<string>): Pending {
    if lines == [] then EMPTY else AfterLine(After(lines[..|lines| - 1]), lines[|lines| - 1])
  }

  /** The events of finished lines: one at every blank line. */
  function Emitted(json: string -> bool, lines: seq<string>): seq<Event> {
    if lines == [] then []
    else
      var init, last := lines[..|lines| - 1], lines[|lines| - 1];
      Emitted(json, init) + if StripCr(last) == "" then Dispatch(json, After(init)) else []
  }

  /** The events of a whole response read at once; an event whose blank line is missing is dispatched at the end. */
  function ParseText(json: string -> bool, text: string): seq<Event> {
    Emitted(json, Lines(text)) + Dispatch(json, After(Lines(text)))
  }

  /** The same when the connection breaks instead of ending: the read fails, and nothing more is dispatched. */
  function Handed(json: string -> bool, text: string, broken: bool): seq<Event> {
    if broken then Emitted(json, Lines(text)) else ParseText(json, text)
  }

  lemma {:induction false} NoLineFeed(s: string)
    requires '\n' !in s
    ensures Lines(s) == [] && Rest(s) == s
  {
    if s != "" {
      NoLineFeed(s[..|s| - 1]);
      assert s == s[..|s| - 1] + [s[|s| - 1]];
    }
  }

  lemma SplitSnoc(s: string, c: char)
    ensures Lines(s + [c]) == if c == '\n' then Lines(s) + [Rest(s)] else Lines(s)
    ensures Rest(s + [c]) == if c == '\n' then "" else Rest(s) + [c]
  {
    assert (s + [c])[..|s|] == s;
  }

  /** Splitting a longer text only continues the unfinished line. */
  lemma {:induction false} SplitAppend(a: string, b: string)
    ensures Lines(a + b) == Lines(a) + Lines(Rest(a) + b)
    ensures Rest(a + b) == Rest(Rest(a) + b)
    decreases |b|
  {
    if b == "" {
      assert a + b == a && Rest(a) + b == Rest(a);
      NoLineFeed(Rest(a));
    } else {
      SplitAppend(a, b[..|b| - 1]);
      SplitAppendStep(Lines(a), a + b[..|b| - 1], Rest(a) + b[..|b| - 1], b[|b| - 1]);
      assert a + b == (a + b[..|b| - 1]) + [b[|b| - 1]];
      assert Rest(a) + b == (Rest(a) + b[..|b| - 1]) + [b[|b| - 1]];
    }
  }

  lemma SplitAppendStep(before: seq<string>, whole: string, tail: string, c: char)
    requires Lines(whole) == before + Lines(tail) && Rest(whole) == Rest(tail)
    ensures Lines(whole + [c]) == before + Lines(tail + [c]) && Rest(whole + [c]) == Rest(tail + [c])
  {
    SplitSnoc(whole, c);
    SplitSnoc(tail, c);
  }

  lemma StepSnoc(json: string -> bool, lines: seq<string>, line: string)
    ensures After(lines + [line]) == AfterLine(After(lines), line)
    ensures Emitted(json, lines + [line])
         == Emitted(json, lines) + if StripCr(line) == "" then Dispatch(json, After(lines)) else []
  {
    assert (lines + [line])[..|lines|] == lines;
  }

  /**
   The read loop; after the pieces the response ends or, if `broken`, the next read fails. However the text is cut into
   pieces, the events are those of the whole text.
   */
  method ProcessRunSse(json: string -> bool, pieces: seq<string>, broken: bool) returns (events: seq<Event>)
    ensures events == Handed(json, Concat(pieces), broken)
  {
    var buffer := "";
    var pending := EMPTY;
    events := [];
    var i := 0;
    while i < |pieces|
      invariant 0 <= i <= |pieces|
      invariant pending == After(Lines(Concat(pieces[..i]))) && events == Emitted(json, Lines(Concat(pieces[..i])))
      invariant buffer == Rest(Concat(pieces[..i]))
    {
      ghost var before := Concat(pieces[..i]);
      ConcatSnoc(pieces, i);
      SplitAppend(before, pieces[i]);
      buffer := buffer + pieces[i];
      var lines := Lines(buffer);
      buffer := Rest(buffer);
      pending, events := ProcessLines(json, lines, pending, events, Lines(before));
      i := i + 1;
    }
    assert pieces[..|pieces|] == pieces;
    if !broken {
      events := events + Dispatch(json, pending);
    }
  }

  /** One line after the lines `seen`. */
  method ProcessLine(json: string -> bool, raw: string, pending: Pending, ghost seen: seq<string>)
    returns (pending': Pending, out: seq<Event>)
    requires pending == After(seen)
    ensures pending' == After(seen + [raw]) && Emitted(json, seen) + out == Emitted(json, seen + [raw])
  {
    StepSnoc(json, seen, raw);
    var line := StripCr(raw);
    pending', out := pending, [];
    if line == "" {
      out := Dispatch(json, pending);
      pending' := EMPTY;
    } else if StartsWith(line, ":") {
    } else if StartsWith(line, "event:") {
      var kind := Trim(line[6..]);
      pending' := pending.(kind := if kind == "" then "message" else kind);
    } else if StartsWith(line, "data:") {
      pending' := pending.(data := pending.data + [TrimStart(line[5..])]);
    } else if StartsWith(line, "id:") {
      pending' := pending.(id := Some(Trim(line[3..])));
    }
  }

  /** The loop over the lines of one piece; `known` are the lines before. */
  method ProcessLines(json: string -> bool, lines: seq<string>, pending: Pending, events: seq<Event>, ghost known: seq<string>)
    returns (pending': Pending, events': seq<Event>)
    requires pending == After(known) && events == Emitted(json, known)
    ensures pending' == After(known + lines) && events' == Emitted(json, known + lines)
  {
    pending', events' := pending, events;
    var i := 0;
    ghost var seen := known;
    AllLinesSeen(known, lines);
    while i < |lines|
      invariant 0 <= i <= |lines| && seen == known + lines[..i]
      invariant pending' == After(seen) && events' == Emitted(json, seen)
    {
      var out: seq<Event>;
      pending', out := ProcessLine(json, lines[i], pending', seen);
      events' := events' + out;
      OneMoreLine(known, lines, i);
      seen := seen + [lines[i]];
      i := i + 1;
    }
    AllLinesSeen(known, lines);
  }

  lemma OneMoreLine(known: seq<string>, lines: seq<string>, i: nat)
    requires i < |lines|
    ensures known + lines[..i + 1] == known + lines[..i] + [lines[i]]
  {
  }

  lemma AllLinesSeen(known: seq<string>, lines: seq<string>)
    ensures known + lines[..|lines|] == known + lines && known + lines[..0] == known
  {
  }

  // ---------------------------------------------------------------------------------------------------
  // What the lines between two blank lines mean
  // ---------------------------------------------------------------------------------------------------

  /** The line is the field `name` with `value`, with or without a carriage return at its end. */
  predicate Field(raw: string, name: string, value: string) {
    StripCr(raw) == name + ":" + value
  }

  ghost predicate HasField(raw: string, name: string) {
    exists value :: Field(raw, name, value)
  }

  /** The lines from `from` on are those since the last blank line. */
  predicate BlockFrom(lines: seq<string>, from: nat) {
    && from <= |lines| && (from > 0 ==> StripCr(lines[from - 1]) == "")
    && forall i | from <= i < |lines| :: StripCr(lines[i]) != ""
  }

  lemma FieldOf(raw: string, name: string, value: string)
    requires Field(raw, name, value) && (name == "event" || name == "data" || name == "id")
    ensures StartsWith(StripCr(raw), name + ":") && StripCr(raw)[|name| + 1..] == value && StripCr(raw) != ""
    ensures StripCr(raw)[0] == name[0]
  {
    assert StripCr(raw)[..|name| + 1] == name + ":";
    assert StripCr(raw)[0] == (name + ":" + value)[0] == name[0];
  }

  lemma FieldBack(raw: string, name: string)
    requires StartsWith(StripCr(raw), name + ":")
    ensures HasField(raw, name)
  {
    assert Field(raw, name, StripCr(raw)[|name| + 1..]);
  }

  /** One line, read from its fields. */
  lemma LineMeans(p: Pending, raw: string, value: string)
    requires StripCr(raw) != ""
    ensures Field(raw, "event", value) ==>
        AfterLine(p, raw) == p.(kind := if Trim(value) == "" then "message" else Trim(value))
    ensures Field(raw, "data", value) ==> AfterLine(p, raw) == p.(data := p.data + [TrimStart(value)])
    ensures Field(raw, "id", value) ==> AfterLine(p, raw) == p.(id := Some(Trim(value)))
    ensures !HasField(raw, "event") ==> AfterLine(p, raw).kind == p.kind
    ensures !HasField(raw, "data") ==> AfterLine(p, raw).data == p.data
    ensures !HasField(raw, "id") ==> AfterLine(p, raw).id == p.id
  {
    var line := StripCr(raw);
    if Field(raw, "event", value) {
      FieldOf(raw, "event", value);
      assert !StartsWith(line, ":");
    }
    if Field(raw, "data", value) {
      FieldOf(raw, "data", value);
      assert !StartsWith(line, ":") && !StartsWith(line, "event:");
    }
    if Field(raw, "id", value) {
      FieldOf(raw, "id", value);
      assert !StartsWith(line, ":") && !StartsWith(line, "event:") && !StartsWith(line, "data:");
    }
    if StartsWith(line, "event:") {
      FieldBack(raw, "event");
    } else if StartsWith(line, "data:") {
      FieldBack(raw, "data");
    } else if StartsWith(line, "id:") {
      FieldBack(raw, "id");
    }
  }

  /** The last line of a block that has the field, if any. */
  ghost predicate LastField(lines: seq<string>, from: nat, name: string, i: nat, value: string) {
    from <= i < |lines| && Field(lines[i], name, value) && forall j | i < j < |lines| :: !HasField(lines[j], name)
  }

  ghost predicate NoField(lines: seq<string>, from: nat, name: string) {
    forall j | from <= j < |lines| :: !HasField(lines[j], name)
  }

  /** The lines of a block that have data, in order, and what they add. */
  ghost predicate DataAt(lines: seq<string>, from: nat, kept: seq<nat>, data: seq<string>) {
    && |data| == |kept|
    && (forall x, y | 0 <= x < y < |kept| :: kept[x] < kept[y])
    && (forall i: nat | i < |lines| :: i in kept <==> from <= i && HasField(lines[i], "data"))
    && forall x | 0 <= x < |kept| :: kept[x] < |lines| && AddsData(lines[kept[x]], data[x])
  }

  ghost predicate AddsData(raw: string, d: string) {
    forall value | Field(raw, "data", value) :: d == TrimStart(value)
  }

  ghost predicate KindSays(lines: seq<string>, from: nat, kind: string) {
    && (NoField(lines, from, "event") ==> kind == "message")
    && forall i: nat, value | LastField(lines, from, "event", i, value) ::
         kind == if Trim(value) == "" then "message" else Trim(value)
  }

  ghost predicate IdSays(lines: seq<string>, from: nat, id: Option<string>) {
    && (NoField(lines, from, "id") ==> id == None)
    && forall i: nat, value | LastField(lines, from, "id", i, value) :: id == Some(Trim(value))
  }

  ghost predicate BlockSays(lines: seq<string>, from: nat, p: Pending, kept: seq<nat>) {
    KindSays(lines, from, p.kind) && IdSays(lines, from, p.id) && DataAt(lines, from, kept, p.data)
  }

  /** Whether a block has the field is decided at its last line or before it. */
  lemma FieldBefore(init: seq<string>, last: string, from: nat, name: string)
    requires from <= |init|
    ensures NoField(init + [last], from, name) ==> NoField(init, from, name) && !HasField(last, name)
    ensures forall i: nat, value | LastField(init + [last], from, name, i, value) ::
        if i == |init| then Field(last, name, value)
        else LastField(init, from, name, i, value) && !HasField(last, name)
  {
    var lines := init + [last];
    assert lines[|init|] == last;
    assert forall k | 0 <= k < |init| :: lines[k] == init[k];
  }

  lemma KindGoesOn(init: seq<string>, last: string, from: nat)
    requires from <= |init| && StripCr(last) != "" && KindSays(init, from, After(init).kind)
    ensures KindSays(init + [last], from, AfterLine(After(init), last).kind)
  {
    var lines, p := init + [last], After(init);
    FieldBefore(init, last, from, "event");
    LineMeans(p, last, "");
    forall i: nat, value | LastField(lines, from, "event", i, value)
      ensures AfterLine(p, last).kind == if Trim(value) == "" then "message" else Trim(value)
    {
      LineMeans(p, last, value);
    }
  }

  lemma IdGoesOn(init: seq<string>, last: string, from: nat)
    requires from <= |init| && StripCr(last) != "" && IdSays(init, from, After(init).id)
    ensures IdSays(init + [last], from, AfterLine(After(init), last).id)
  {
    var lines, p := init + [last], After(init);
    FieldBefore(init, last, from, "id");
    LineMeans(p, last, "");
    forall i: nat, value | LastField(lines, from, "id", i, value) ensures AfterLine(p, last).id == Some(Trim(value)) {
      LineMeans(p, last, value);
    }
  }

  lemma OneValue(raw: string, value: string)
    requires Field(raw, "data", value)
    ensures AddsData(raw, TrimStart(value))
  {
    forall v | Field(raw, "data", v) ensures TrimStart(value) == TrimStart(v) {
      FieldOf(raw, "data", v);
      FieldOf(raw, "data", value);
    }
  }

  lemma DataOneMore(init: seq<string>, last: string, from: nat, kept: seq<nat>, data: seq<string>, d: string)
    requires from <= |init| && DataAt(init, from, kept, data) && HasField(last, "data") && AddsData(last, d)
    ensures DataAt(init + [last], from, kept + [|init|], data + [d])
  {
    var lines, kept' := init + [last], kept + [|init|];
    assert lines[|init|] == last && kept'[|kept|] == |init|;
    assert forall k | 0 <= k < |init| :: lines[k] == init[k];
    assert forall x | 0 <= x < |kept| :: kept'[x] == kept[x] && kept[x] < |init|;
  }

  lemma DataNoMore(init: seq<string>, last: string, from: nat, kept: seq<nat>, data: seq<string>)
    requires from <= |init| && DataAt(init, from, kept, data) && !HasField(last, "data")
    ensures DataAt(init + [last], from, kept, data)
  {
    var lines := init + [last];
    assert lines[|init|] == last;
    assert forall k | 0 <= k < |init| :: lines[k] == init[k];
  }

  lemma DataGoesOn(init: seq<string>, last: string, from: nat, kept: seq<nat>) returns (kept': seq<nat>)
    requires from <= |init| && StripCr(last) != "" && DataAt(init, from, kept, After(init).data)
    ensures DataAt(init + [last], from, kept', AfterLine(After(init), last).data)
  {
    var p := After(init);
    if HasField(last, "data") {
      var value :| Field(last, "data", value);
      LineMeans(p, last, value);
      OneValue(last, value);
      DataOneMore(init, last, from, kept, p.data, TrimStart(value));
      kept' := kept + [|init|];
    } else {
      LineMeans(p, last, "");
      DataNoMore(init, last, from, kept, p.data);
      kept' := kept;
    }
  }

  /**
   The event that is being put together is what the lines since the last blank line say: its kind is the trimmed value of
   the last `event` line, or "message" if there is none or it is empty; its id that of the last `id` line, if there is one;
   its data are the `data` lines, in order, without the white space before their values. Anything else is passed over.
   */
  lemma {:induction false} BlockMeans(lines: seq<string>, from: nat) returns (kept: seq<nat>)
    requires BlockFrom(lines, from)
    ensures BlockSays(lines, from, After(lines), kept)
    decreases |lines|
  {
    if from == |lines| {
      EmptyBlock(lines);
      kept := [];
    } else {
      var init, last := lines[..|lines| - 1], lines[|lines| - 1];
      assert lines == init + [last];
      kept := BlockMeans(init, from);
      kept := OneLineMore(init, last, from, kept);
    }
  }

  lemma OneLineMore(init: seq<string>, last: string, from: nat, kept: seq<nat>) returns (kept': seq<nat>)
    requires from <= |init| && StripCr(last) != ""
    requires BlockSays(init, from, After(init), kept)
    ensures BlockSays(init + [last], from, After(init + [last]), kept')
  {
    KindGoesOn(init, last, from);
    IdGoesOn(init, last, from);
    kept' := DataGoesOn(init, last, from, kept);
    assert (init + [last])[..|init|] == init;
  }

  lemma EmptyBlock(lines: seq<string>)
    requires BlockFrom(lines, |lines|)
    ensures After(lines) == Pending("message", None, [])
  {
  }

  /** A line that is not blank yields nothing by itself; a blank one yields the block before it, if it has data that parse. */
  lemma BlankYields(json: string -> bool, lines: seq<string>, line: string)
    ensures StripCr(line) != "" ==> Emitted(json, lines + [line]) == Emitted(json, lines)
    ensures StripCr(line) == "" ==>
        var p := After(lines);
        && After(lines + [line]) == Pending("message", None, [])
        && Emitted(json, lines + [line])
           == Emitted(json, lines)
              + if p.data != [] && json(JoinLines(p.data)) then [Event(p.kind, JoinLines(p.data), p.id)] else []
  {
    assert (lines + [line])[..|lines|] == lines;
  }

  lemma OneLineFirst(first: string, text: string)
    requires '\n' !in first
    ensures Lines(first + "\n" + text) == [first] + Lines(text) && Rest(first + "\n" + text) == Rest(text)
  {
    var head := first + "\n";
    NoLineFeed(first);
    SplitSnoc(first, '\n');
    SplitAppend(head, text);
    assert Rest(head) + text == text;
  }

  /** Several data lines are one text, whose lines they are. */
  lemma {:induction false} JoinedLines(data: seq<string>)
    requires data != [] && forall d | d in data :: '\n' !in d
    ensures Lines(JoinLines(data)) == data[..|data| - 1] && Rest(JoinLines(data)) == data[|data| - 1]
    decreases |data|
  {
    if |data| == 1 {
      NoLineFeed(data[0]);
    } else {
      JoinedLines(data[1..]);
      OneLineFirst(data[0], JoinLines(data[1..]));
      assert JoinLines(data) == data[0] + "\n" + JoinLines(data[1..]);
      assert data[..|data| - 1] == [data[0]] + data[1..][..|data| - 2];
    }
  }

  // ---------------------------------------------------------------------------------------------------
  // The printer
  // ---------------------------------------------------------------------------------------------------

  /** What the server sends; an empty id is not printed. */
  datatype Frame = Message(kind: string, data: string, id: string) | Comment(text: string)

  function FrameLines(f: Frame): (lines: seq<string>)
    ensures |lines| >= 2
  {
    match f
    case Message(kind, data, id) =>
      ["event: " + kind, "data: " + data] + (if id != "" then ["id: " + id] else []) + [""]
    case Comment(text) => [": " + text, ""]
  }

  function Print(f: Frame): string {
    JoinLines(FrameLines(f)) + "\n"
  }

  function Stream(frames: seq<Frame>): string {
    if frames == [] then "" else Print(frames[0]) + Stream(frames[1..])
  }

  /** A name that trimming leaves alone. */
  predicate Clean(s: string) {
    s != "" && !JsSpace(s[0]) && !JsSpace(s[|s| - 1])
  }

  /** Single-line payloads under clean names. */
  predicate SingleLine(f: Frame) {
    match f
    case Message(kind, data, id) =>
      '\n' !in kind && '\n' !in data && '\n' !in id && Clean(kind) && (id == "" || Clean(id))
    case Comment(text) => '\n' !in text
  }

  /** Data as the parser hands it on. */
  function Got(data: string): string {
    TrimStart(StripCr(data))
  }

  function Received(json: string -> bool, f: Frame): seq<Event> {
    if f.Comment? || !json(Got(f.data)) then []
    else [Event(f.kind, Got(f.data), if f.id == "" then None else Some(f.id))]
  }

  function ReceivedAll(json: string -> bool, frames: seq<Frame>): seq<Event> {
    if frames == [] then [] else Received(json, frames[0]) + ReceivedAll(json, frames[1..])
  }

  function Unlines(lines: seq<string>): string {
    if lines == [] then "" else lines[0] + "\n" + Unlines(lines[1..])
  }

  function AllLines(frames: seq<Frame>): seq<string> {
    if frames == [] then [] else FrameLines(frames[0]) + AllLines(frames[1..])
  }

  lemma {:induction false} JoinIsUnlines(lines: seq<string>)
    requires lines != []
    ensures JoinLines(lines) + "\n" == Unlines(lines)
  {
    if |lines| == 1 {
      assert Unlines(lines[1..]) == "";
      assert lines[0] + "\n" + "" == lines[0] + "\n";
    } else {
      JoinIsUnlines(lines[1..]);
      assert (lines[0] + "\n" + JoinLines(lines[1..])) + "\n" == lines[0] + "\n" + (JoinLines(lines[1..]) + "\n");
    }
  }

  lemma {:induction false} UnlinesAppend(a: seq<string>, b: seq<string>)
    ensures Unlines(a + b) == Unlines(a) + Unlines(b)
  {
    if a == [] {
      assert a + b == b;
    } else {
      UnlinesAppend(a[1..], b);
      assert (a + b)[1..] == a[1..] + b;
    }
  }

  lemma {:induction false} StreamIsUnlines(frames: seq<Frame>)
    ensures Stream(frames) == Unlines(AllLines(frames))
  {
    if frames != [] {
      StreamIsUnlines(frames[1..]);
      JoinIsUnlines(FrameLines(frames[0]));
      UnlinesAppend(FrameLines(frames[0]), AllLines(frames[1..]));
    }
  }

  /** How many of the lines are complete in the first `n` characters of their print. */
  function WholeLines(lines: seq<string>, n: nat): (k: nat)
    ensures k <= |lines|
  {
    if lines == [] || n <= |lines[0]| then 0 else 1 + WholeLines(lines[1..], n - |lines[0]| - 1)
  }

  predicate NoFeeds(lines: seq<string>) {
    forall i | 0 <= i < |lines| :: '\n' !in lines[i]
  }

  lemma FirstLine(line: string, tail: string)
    requires '\n' !in line
    ensures Lines(line + "\n" + tail) == [line] + Lines(tail)
  {
    SplitSnoc(line, '\n');
    NoLineFeed(line);
    assert line + ['\n'] == line + "\n";
    SplitAppend(line + "\n", tail);
    assert "" + tail == tail;
  }

  /** The complete lines of a cut print are the leading lines that were printed. */
  lemma {:induction false} CutLines(lines: seq<string>, n: nat)
    requires NoFeeds(lines) && n <= |Unlines(lines)|
    ensures Lines(Unlines(lines)[..n]) == lines[..WholeLines(lines, n)]
  {
    if lines != [] {
      var head := lines[0] + "\n";
      if n <= |lines[0]| {
        assert Unlines(lines)[..n] == lines[0][..n];
        NoLineFeed(lines[0][..n]);
      } else {
        var m := n - |lines[0]| - 1;
        CutLines(lines[1..], m);
        assert Unlines(lines)[..n] == head + Unlines(lines[1..])[..m];
        FirstLine(lines[0], Unlines(lines[1..])[..m]);
        assert lines[..WholeLines(lines, n)] == [lines[0]] + lines[1..][..WholeLines(lines[1..], m)];
      }
    }
  }

  // ---------------------------------------------------------------------------------------------------
  // One printed line
  // ---------------------------------------------------------------------------------------------------

  lemma StripAfter(field: string, s: string)
    requires field != "" && field[|field| - 1] == ' '
    ensures StripCr(field + s) == field + StripCr(s)
  {
    if s != "" && s[|s| - 1] == '\r' {
      assert (field + s)[..|field + s| - 1] == field + s[..|s| - 1];
    }
  }

  lemma TrimClean(s: string)
    requires Clean(s)
    ensures Trim(" " + s) == s && StripCr(s) == s
  {
    assert JsSpace(' ') && JsSpace('\r');
    assert (" " + s)[0] == ' ' && (" " + s)[1..] == s;
    assert TrimStart(" " + s) == TrimStart(s) == s;
  }

  lemma EventLine(p: Pending, kind: string)
    requires Clean(kind)
    ensures AfterLine(p, "event: " + kind) == p.(kind := kind) && StripCr("event: " + kind) != ""
  {
    StripAfter("event: ", kind);
    TrimClean(kind);
    var line := "event: " + kind;
    assert line[0] == 'e' && line[..6] == "event:" && line[6..] == " " + kind;
  }

  lemma DataLine(p: Pending, data: string)
    ensures AfterLine(p, "data: " + data) == p.(data := p.data + [Got(data)]) && StripCr("data: " + data) != ""
  {
    StripAfter("data: ", data);
    var s := StripCr(data);
    var line := "data: " + s;
    assert line[0] == 'd' && line[..5] == "data:" && line[5..] == " " + s;
    assert (" " + s)[1..] == s;
  }

  lemma IdLine(p: Pending, id: string)
    requires Clean(id)
    ensures AfterLine(p, "id: " + id) == p.(id := Some(id)) && StripCr("id: " + id) != ""
  {
    StripAfter("id: ", id);
    TrimClean(id);
    var line := "id: " + id;
    assert line[0] == 'i' && line[..3] == "id:" && line[3..] == " " + id;
  }

  lemma CommentLine(p: Pending, text: string)
    ensures AfterLine(p, ": " + text) == p && StripCr(": " + text) != ""
  {
    StripAfter(": ", text);
    var line := ": " + StripCr(text);
    assert line[..1] == ":";
  }

  // ---------------------------------------------------------------------------------------------------
  // What arrives, for whole streams and for streams that are cut
  // ---------------------------------------------------------------------------------------------------

  /** The events of the first `k` lines of a frame once the stream has ended there. */
  function CutFrame(json: string -> bool, f: Frame, k: nat): seq<Event> {
    if f.Comment? || k <= 1 then []
    else if k == 2 then Received(json, f.(id := ""))
    else Received(json, f)
  }

  function CutFrames(json: string -> bool, frames: seq<Frame>, k: nat): seq<Event> {
    if frames == [] then []
    else if k >= |FrameLines(frames[0])| then
      Received(json, frames[0]) + CutFrames(json, frames[1..], k - |FrameLines(frames[0])|)
    else CutFrame(json, frames[0], k)
  }

  /** A blank line dispatches what is pending. */
  lemma Blank(json: string -> bool, lines: seq<string>)
    ensures After(lines + [""]) == EMPTY
    ensures Emitted(json, lines + [""]) == Emitted(json, lines) + Dispatch(json, After(lines))
  {
    StepSnoc(json, lines, "");
  }

  lemma Dispatched(json: string -> bool, kind: string, data: string, id: string)
    ensures Dispatch(json, Pending(kind, if id == "" then None else Some(id), [Got(data)]))
         == Received(json, Message(kind, data, id))
    ensures Dispatch(json, EMPTY) == []
  {
  }

  /** A whole frame: its event, and the parser is as before. */
  lemma WholeFrame(json: string -> bool, known: seq<string>, f: Frame)
    requires SingleLine(f) && After(known) == EMPTY
    ensures After(known + FrameLines(f)) == EMPTY
    ensures Emitted(json, known + FrameLines(f)) == Emitted(json, known) + Received(json, f)
  {
    if f.Comment? {
      WholeComment(json, known, f.text);
    } else {
      WholeMessage(json, known, f.kind, f.data, f.id);
    }
  }

  lemma WholeComment(json: string -> bool, known: seq<string>, text: string)
    requires After(known) == EMPTY
    ensures var lines := known + FrameLines(Comment(text));
            After(lines) == EMPTY && Emitted(json, lines) == Emitted(json, known) + []
  {
    Commented(json, known, text);
    Blank(json, known + [": " + text]);
    Dispatched(json, "", "", "");
    assert known + FrameLines(Comment(text)) == (known + [": " + text]) + [""];
  }

  lemma WholeMessage(json: string -> bool, known: seq<string>, kind: string, data: string, id: string)
    requires Clean(kind) && (id == "" || Clean(id)) && After(known) == EMPTY
    ensures var lines := known + FrameLines(Message(kind, data, id));
            After(lines) == EMPTY && Emitted(json, lines) == Emitted(json, known) + Received(json, Message(kind, data, id))
  {
    var lines := known + MessageHead(kind, data, id);
    Headed(json, known, kind, data, id);
    Blank(json, lines);
    Dispatched(json, kind, data, id);
    assert known + FrameLines(Message(kind, data, id)) == lines + [""];
  }

  function MessageHead(kind: string, data: string, id: string): seq<string> {
    ["event: " + kind, "data: " + data] + if id != "" then ["id: " + id] else []
  }

  lemma Commented(json: string -> bool, known: seq<string>, text: string)
    ensures After(known + [": " + text]) == After(known)
    ensures Emitted(json, known + [": " + text]) == Emitted(json, known)
  {
    StepSnoc(json, known, ": " + text);
    CommentLine(After(known), text);
  }

  /** The lines of a message before the blank one. */
  lemma Headed(json: string -> bool, known: seq<string>, kind: string, data: string, id: string)
    requires Clean(kind) && (id == "" || Clean(id)) && After(known) == EMPTY
    ensures var lines := known + MessageHead(kind, data, id);
            && After(lines) == Pending(kind, if id == "" then None else Some(id), [Got(data)])
            && Emitted(json, lines) == Emitted(json, known)
  {
    NamedAndData(json, known, kind, data);
    HeadLines(known, kind, data, id);
    if id != "" {
      Identified(json, known + ["event: " + kind] + ["data: " + data], id);
    }
  }

  lemma HeadLines(known: seq<string>, kind: string, data: string, id: string)
    ensures id == "" ==> known + MessageHead(kind, data, id) == known + ["event: " + kind] + ["data: " + data]
    ensures id != "" ==>
        known + MessageHead(kind, data, id) == known + ["event: " + kind] + ["data: " + data] + ["id: " + id]
  {
  }

  lemma Identified(json: string -> bool, lines: seq<string>, id: string)
    requires Clean(id)
    ensures After(lines + ["id: " + id]) == After(lines).(id := Some(id))
    ensures Emitted(json, lines + ["id: " + id]) == Emitted(json, lines)
  {
    StepSnoc(json, lines, "id: " + id);
    IdLine(After(lines), id);
  }

  lemma NamedAndData(json: string -> bool, known: seq<string>, kind: string, data: string)
    requires Clean(kind) && After(known) == EMPTY
    ensures After(known + ["event: " + kind] + ["data: " + data]) == Pending(kind, None, [Got(data)])
    ensures Emitted(json, known + ["event: " + kind] + ["data: " + data]) == Emitted(json, known)
  {
    Named(json, known, kind);
    StepSnoc(json, known + ["event: " + kind], "data: " + data);
    DataLine(EMPTY.(kind := kind), data);
  }

  lemma Named(json: string -> bool, known: seq<string>, kind: string)
    requires Clean(kind) && After(known) == EMPTY
    ensures After(known + ["event: " + kind]) == EMPTY.(kind := kind)
    ensures Emitted(json, known + ["event: " + kind]) == Emitted(json, known)
  {
    StepSnoc(json, known, "event: " + kind);
    EventLine(EMPTY, kind);
  }

  /** A frame cut after `k` of its lines. */
  lemma PartOfFrame(json: string -> bool, known: seq<string>, f: Frame, k: nat)
    requires SingleLine(f) && After(known) == EMPTY && 0 < k < |FrameLines(f)|
    ensures var lines := known + FrameLines(f)[..k];
            Emitted(json, lines) == Emitted(json, known) && Dispatch(json, After(lines)) == CutFrame(json, f, k)
  {
    if f.Comment? || k == 1 {
      PartWithoutData(json, known, f, k);
    } else {
      PartWithData(json, known, f, k);
    }
  }

  lemma PartWithoutData(json: string -> bool, known: seq<string>, f: Frame, k: nat)
    requires SingleLine(f) && After(known) == EMPTY && 0 < k < |FrameLines(f)| && (f.Comment? || k == 1)
    ensures var lines := known + FrameLines(f)[..k];
            Emitted(json, lines) == Emitted(json, known) && Dispatch(json, After(lines)) == CutFrame(json, f, k)
  {
    Dispatched(json, "", "", "");
    if f.Comment? {
      Commented(json, known, f.text);
      assert FrameLines(f)[..k] == [": " + f.text];
    } else {
      Named(json, known, f.kind);
      assert FrameLines(f)[..k] == ["event: " + f.kind];
    }
  }

  lemma PartWithData(json: string -> bool, known: seq<string>, f: Frame, k: nat)
    requires SingleLine(f) && After(known) == EMPTY && 1 < k < |FrameLines(f)| && f.Message?
    ensures var lines := known + FrameLines(f)[..k];
            Emitted(json, lines) == Emitted(json, known) && Dispatch(json, After(lines)) == CutFrame(json, f, k)
  {
    var id := if k == 2 then "" else f.id;
    Headed(json, known, f.kind, f.data, id);
    Dispatched(json, f.kind, f.data, id);
    assert FrameLines(f)[..k] == MessageHead(f.kind, f.data, id);
  }

  /** What the handler has got when the stream ends after `lines`. */
  function Ended(json: string -> bool, lines: seq<string>): seq<Event> {
    Emitted(json, lines) + Dispatch(json, After(lines))
  }

  lemma CutInFirst(json: string -> bool, known: seq<string>, frames: seq<Frame>, k: nat)
    requires frames != [] && SingleLine(frames[0]) && After(known) == EMPTY && k < |FrameLines(frames[0])|
    ensures Ended(json, known + AllLines(frames)[..k]) == Emitted(json, known) + CutFrames(json, frames, k)
  {
    var first := FrameLines(frames[0]);
    assert AllLines(frames)[..k] == first[..k];
    if k == 0 {
      assert known + first[..k] == known;
      Dispatched(json, "", "", "");
    } else {
      PartOfFrame(json, known, frames[0], k);
    }
  }

  lemma {:induction false} CutParses(json: string -> bool, known: seq<string>, frames: seq<Frame>, k: nat)
    requires (forall i | 0 <= i < |frames| :: SingleLine(frames[i])) && After(known) == EMPTY && k <= |AllLines(frames)|
    ensures Ended(json, known + AllLines(frames)[..k]) == Emitted(json, known) + CutFrames(json, frames, k)
    decreases frames
  {
    if frames == [] {
      assert known + AllLines(frames)[..k] == known;
      Dispatched(json, "", "", "");
    } else if k < |FrameLines(frames[0])| {
      CutInFirst(json, known, frames, k);
    } else {
      var first := FrameLines(frames[0]);
      WholeFrame(json, known, frames[0]);
      CutParses(json, known + first, frames[1..], k - |first|);
      CutAppend(known, first, AllLines(frames[1..]), k);
      CutFramesAppend(json, Emitted(json, known), frames, k);
    }
  }

  lemma CutFramesAppend(json: string -> bool, known: seq<Event>, frames: seq<Frame>, k: nat)
    requires frames != [] && k >= |FrameLines(frames[0])|
    ensures (known + Received(json, frames[0])) + CutFrames(json, frames[1..], k - |FrameLines(frames[0])|)
         == known + CutFrames(json, frames, k)
  {
    var a, b := Received(json, frames[0]), CutFrames(json, frames[1..], k - |FrameLines(frames[0])|);
    assert CutFrames(json, frames, k) == a + b;
    assert (known + a) + b == known + (a + b);
  }

  lemma CutAppend(known: seq<string>, first: seq<string>, later: seq<string>, k: nat)
    requires |first| <= k <= |first + later|
    ensures known + (first + later)[..k] == (known + first) + later[..k - |first|]
  {
  }

  lemma {:induction false} LinesAreSingle(frames: seq<Frame>)
    requires forall i | 0 <= i < |frames| :: SingleLine(frames[i])
    ensures NoFeeds(AllLines(frames))
  {
    if frames != [] {
      LinesAreSingle(frames[1..]);
    }
  }

  /** A response that ends after `n` characters yields the events of the lines that were complete. */
  lemma CutStream(json: string -> bool, frames: seq<Frame>, n: nat)
    requires (forall i | 0 <= i < |frames| :: SingleLine(frames[i])) && n <= |Stream(frames)|
    ensures ParseText(json, Stream(frames)[..n]) == CutFrames(json, frames, WholeLines(AllLines(frames), n))
  {
    LinesAreSingle(frames);
    StreamIsUnlines(frames);
    CutLines(AllLines(frames), n);
    var k := WholeLines(AllLines(frames), n);
    CutParses(json, [], frames, k);
    assert [] + AllLines(frames)[..k] == AllLines(frames)[..k];
  }

  lemma {:induction false} AllLinesWhole(lines: seq<string>)
    ensures WholeLines(lines, |Unlines(lines)|) == |lines|
  {
    if lines != [] {
      AllLinesWhole(lines[1..]);
    }
  }

  lemma {:induction false} AllFramesReceived(json: string -> bool, frames: seq<Frame>)
    ensures CutFrames(json, frames, |AllLines(frames)|) == ReceivedAll(json, frames)
  {
    if frames != [] {
      AllFramesReceived(json, frames[1..]);
    }
  }

  /** Round trip: the frames that were printed, comments left out, are the events that are parsed, however it is read. */
  lemma RoundTrip(json: string -> bool, frames: seq<Frame>)
    requires forall i | 0 <= i < |frames| :: SingleLine(frames[i])
    ensures ParseText(json, Stream(frames)) == ReceivedAll(json, frames)
  {
    var text := Stream(frames);
    CutStream(json, frames, |text|);
    assert text[..|text|] == text;
    StreamIsUnlines(frames);
    AllLinesWhole(AllLines(frames));
    AllFramesReceived(json, frames);
  }

  lemma {:induction false} TrimStartShorter(s: string)
    ensures |TrimStart(s)| <= |s|
  {
    if s != "" && JsSpace(s[0]) {
      TrimStartShorter(s[1..]);
    }
  }

  /** Data survives exactly when it neither starts with a space nor ends with a carriage return. */
  lemma DataSurvives(data: string)
    ensures Got(data) == data <==> data == "" || (!JsSpace(data[0]) && data[|data| - 1] != '\r')
  {
    assert JsSpace('\r');
    TrimStartShorter(StripCr(data));
    if data != "" && JsSpace(data[0]) && StripCr(data) != "" {
      TrimStartShorter(StripCr(data)[1..]);
    }
  }

  /** The frames of which everything arrived are received; of the next one at most the event without its id. */
  ghost predicate CutBetween(json: string -> bool, frames: seq<Frame>, m: nat, events: seq<Event>) {
    && m <= |frames|
    && (|| events == ReceivedAll(json, frames[..m])
        || (&& m < |frames| && frames[m].Message?
            && events == ReceivedAll(json, frames[..m]) + Received(json, frames[m].(id := ""))))
  }

  lemma {:induction false} CutSomewhere(json: string -> bool, frames: seq<Frame>, k: nat) returns (m: nat)
    ensures CutBetween(json, frames, m, CutFrames(json, frames, k))
  {
    if frames == [] {
      m := 0;
    } else if k >= |FrameLines(frames[0])| {
      var m1 := CutSomewhere(json, frames[1..], k - |FrameLines(frames[0])|);
      m := m1 + 1;
      var events := CutFrames(json, frames[1..], k - |FrameLines(frames[0])|);
      assert CutFrames(json, frames, k) == Received(json, frames[0]) + events;
      CutLater(json, frames, m1, events);
    } else {
      m := CutInside(json, frames, k);
    }
  }

  lemma CutLater(json: string -> bool, frames: seq<Frame>, m: nat, events: seq<Event>)
    requires frames != [] && CutBetween(json, frames[1..], m, events)
    ensures CutBetween(json, frames, m + 1, Received(json, frames[0]) + events)
  {
    assert frames[..m + 1][1..] == frames[1..][..m];
    if m < |frames| - 1 && frames[1..][m].Message? {
      assert Received(json, frames[0]) + (ReceivedAll(json, frames[1..][..m]) + Received(json, frames[m + 1].(id := "")))
          == (Received(json, frames[0]) + ReceivedAll(json, frames[1..][..m])) + Received(json, frames[m + 1].(id := ""));
    }
  }

  lemma CutInside(json: string -> bool, frames: seq<Frame>, k: nat) returns (m: nat)
    requires frames != [] && k < |FrameLines(frames[0])|
    ensures CutBetween(json, frames, m, CutFrames(json, frames, k))
  {
    assert frames[..0] == [] && frames[..1][1..] == [] && frames[..1][0] == frames[0];
    m := if k > 2 && frames[0].Message? then 1 else 0;
  }

  /**
   A response that ends early gives whole frames, and possibly one more event that has lost its id: that happens when the
   end falls after the data line of a frame and before the end of its id line.
   */
  lemma CutLosesAtMostAnId(json: string -> bool, frames: seq<Frame>, n: nat) returns (m: nat)
    requires (forall i | 0 <= i < |frames| :: SingleLine(frames[i])) && n <= |Stream(frames)|
    ensures CutBetween(json, frames, m, ParseText(json, Stream(frames)[..n]))
  {
    CutStream(json, frames, n);
    m := CutSomewhere(json, frames, WholeLines(AllLines(frames), n));
  }

  // ---------------------------------------------------------------------------------------------------
  // Connections that break
  // ---------------------------------------------------------------------------------------------------

  /** How many frames are there in full in the first `n` characters of the stream. */
  function Arrived(frames: seq<Frame>, n: nat): (m: nat)
    ensures m <= |frames|
  {
    if frames == [] || n < |Print(frames[0])| then 0 else 1 + Arrived(frames[1..], n - |Print(frames[0])|)
  }

  lemma {:induction false} ArrivedMeans(frames: seq<Frame>, n: nat)
    ensures var m := Arrived(frames, n);
            |Stream(frames[..m])| <= n && (m < |frames| ==> n < |Stream(frames[..m + 1])|)
  {
    if frames != [] && n >= |Print(frames[0])| {
      ArrivedMeans(frames[1..], n - |Print(frames[0])|);
      var m := Arrived(frames, n);
      assert frames[..m][1..] == frames[1..][..m - 1];
      if m < |frames| {
        assert frames[..m + 1][1..] == frames[1..][..m];
      }
    } else if frames != [] {
      assert frames[..1][1..] == [] && frames[..1][0] == frames[0];
    }
  }

  lemma {:induction false} FewerLines(lines: seq<string>, n: nat)
    requires n < |Unlines(lines)|
    ensures WholeLines(lines, n) < |lines|
  {
    if n > |lines[0]| {
      FewerLines(lines[1..], n - |lines[0]| - 1);
    }
  }

  lemma {:induction false} EndsFed(lines: seq<string>)
    requires lines != []
    ensures Unlines(lines) != "" && Unlines(lines)[|Unlines(lines)| - 1] == '\n'
  {
    if |lines| > 1 {
      EndsFed(lines[1..]);
    }
  }

  lemma WholeText(lines: seq<string>)
    requires lines != [] && NoFeeds(lines)
    ensures Lines(Unlines(lines)) == lines && Rest(Unlines(lines)) == ""
  {
    var text := Unlines(lines);
    CutLines(lines, |text|);
    AllLinesWhole(lines);
    assert text[..|text|] == text && lines[..|lines|] == lines;
    EndsFed(lines);
  }

  lemma LinesOfUnlines(lines: seq<string>, tail: string)
    requires lines != [] && NoFeeds(lines)
    ensures Lines(Unlines(lines) + tail) == lines + Lines(tail)
  {
    WholeText(lines);
    SplitAppend(Unlines(lines), tail);
    assert "" + tail == tail;
  }

  lemma FrameIsSingle(f: Frame)
    requires SingleLine(f)
    ensures NoFeeds(FrameLines(f)) && Print(f) == Unlines(FrameLines(f))
  {
    JoinIsUnlines(FrameLines(f));
  }

  /** Nothing is handed on from a frame before its blank line. */
  lemma BrokenInside(json: string -> bool, known: seq<string>, f: Frame, n: nat)
    requires SingleLine(f) && After(known) == EMPTY && n < |Print(f)|
    ensures Emitted(json, known + Lines(Print(f)[..n])) == Emitted(json, known)
  {
    FrameIsSingle(f);
    CutLines(FrameLines(f), n);
    FewerLines(FrameLines(f), n);
    var k := WholeLines(FrameLines(f), n);
    if k == 0 {
      assert known + FrameLines(f)[..k] == known;
    } else {
      PartOfFrame(json, known, f, k);
    }
  }

  lemma {:induction false} BrokenParses(json: string -> bool, known: seq<string>, frames: seq<Frame>, n: nat)
    requires (forall i | 0 <= i < |frames| :: SingleLine(frames[i])) && After(known) == EMPTY && n <= |Stream(frames)|
    ensures Emitted(json, known + Lines(Stream(frames)[..n]))
         == Emitted(json, known) + ReceivedAll(json, frames[..Arrived(frames, n)])
    decreases frames
  {
    if frames == [] {
      assert known + Lines(Stream(frames)[..n]) == known;
    } else if n < |Print(frames[0])| {
      assert Stream(frames)[..n] == Print(frames[0])[..n];
      BrokenInside(json, known, frames[0], n);
    } else {
      BrokenLater(json, known, frames, n);
      BrokenParses(json, known + FrameLines(frames[0]), frames[1..], n - |Print(frames[0])|);
      ReceivedFirst(json, Emitted(json, known), frames, Arrived(frames, n));
    }
  }

  lemma BrokenLater(json: string -> bool, known: seq<string>, frames: seq<Frame>, n: nat)
    requires frames != [] && SingleLine(frames[0]) && After(known) == EMPTY && |Print(frames[0])| <= n <= |Stream(frames)|
    ensures var later := Stream(frames[1..])[..n - |Print(frames[0])|];
            known + Lines(Stream(frames)[..n]) == (known + FrameLines(frames[0])) + Lines(later)
    ensures After(known + FrameLines(frames[0])) == EMPTY
    ensures Emitted(json, known + FrameLines(frames[0])) == Emitted(json, known) + Received(json, frames[0])
  {
    var later := Stream(frames[1..])[..n - |Print(frames[0])|];
    WholeFrame(json, known, frames[0]);
    FrameIsSingle(frames[0]);
    TakeLater(Print(frames[0]), Stream(frames[1..]), n);
    LinesOfUnlines(FrameLines(frames[0]), later);
    Regroup(known, FrameLines(frames[0]), Lines(later));
  }

  lemma TakeLater(first: string, later: string, n: nat)
    requires |first| <= n <= |first + later|
    ensures (first + later)[..n] == first + later[..n - |first|]
  {
  }

  lemma Regroup(a: seq<string>, b: seq<string>, c: seq<string>)
    ensures a + (b + c) == (a + b) + c
  {
  }

  lemma ReceivedFirst(json: string -> bool, known: seq<Event>, frames: seq<Frame>, m: nat)
    requires 0 < m <= |frames|
    ensures (known + Received(json, frames[0])) + ReceivedAll(json, frames[1..][..m - 1])
         == known + ReceivedAll(json, frames[..m])
  {
    assert frames[..m][1..] == frames[1..][..m - 1];
  }

  /** A connection that breaks after `n` characters gives the frames that arrived in full, with their ids, and no more. */
  lemma BrokenStream(json: string -> bool, frames: seq<Frame>, n: nat) returns (m: nat)
    requires (forall i | 0 <= i < |frames| :: SingleLine(frames[i])) && n <= |Stream(frames)|
    ensures m <= |frames| && |Stream(frames[..m])| <= n && (m < |frames| ==> n < |Stream(frames[..m + 1])|)
    ensures Handed(json, Stream(frames)[..n], true) == ReceivedAll(json, frames[..m])
  {
    m := Arrived(frames, n);
    ArrivedMeans(frames, n);
    BrokenParses(json, [], frames, n);
    assert [] + Lines(Stream(frames)[..n]) == Lines(Stream(frames)[..n]);
  }
}
