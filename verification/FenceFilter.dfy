/**
 The filter that hides fenced code blocks of a Markdown text, with block quotes and one level of list items as
 containers. Lines come from a text that is already split; the patterns are written out as functions on strings.
 Fences are those of section 4.5 of the CommonMark Spec.
 */
module FenceFilter {
  import opened Prelude

  // ---------------------------------------------------------------------------------------------------
  // Patterns
  // ---------------------------------------------------------------------------------------------------

  predicate PySpace(c: char) {
    var n := c as int;
    || 0x09 <= n <= 0x0D || 0x1C <= n <= 0x20 || n == 0x85 || n == 0xA0 || n == 0x1680 || 0x2000 <= n <= 0x200A
    || n == 0x2028 || n == 0x2029 || n == 0x202F || n == 0x205F || n == 0x3000
  }

  predicate Blank(s: string) {
    forall i | 0 <= i < |s| :: PySpace(s[i])
  }

  /** What Python strips: the separators below U+0020, the space, and the spaces of Unicode with the line separators. */
  function Spaces(): string {
    "\t\n\U{0B}\U{0C}\r\U{1C}\U{1D}\U{1E}\U{1F} \U{85}\U{A0}\U{1680}"
    + "\U{2000}\U{2001}\U{2002}\U{2003}\U{2004}\U{2005}\U{2006}\U{2007}\U{2008}\U{2009}\U{200A}"
    + "\U{2028}\U{2029}\U{202F}\U{205F}\U{3000}"
  }

  /** A line is blank if and only if every character of it is one of these. */
  lemma BlankExactly(s: string)
    ensures Blank(s) <==> forall c | c in s :: c in Spaces()
  {
    forall c | c in s ensures PySpace(c) <==> c in Spaces() {
      SpacesExactly(c);
    }
  }

  lemma SpacesExactly(c: char)
    ensures PySpace(c) <==> c in Spaces()
  {
    assert Spaces()[9] == ' ' && Spaces()[10] == '\U{85}' && |Spaces()| == 29;
    assert forall i | 0 <= i < |Spaces()| :: PySpace(Spaces()[i]);
    var n := c as int;
    if 0x09 <= n <= 0x0D {
      assert Spaces()[n - 9] == c;
    } else if 0x1C <= n <= 0x20 {
      assert Spaces()[n - 0x17] == c;
    } else if 0x2000 <= n <= 0x200A {
      assert Spaces()[n - 0x2000 + 13] == c;
    } else if n == 0x85 || n == 0xA0 || n == 0x1680 {
      assert c == Spaces()[10] || c == Spaces()[11] || c == Spaces()[12];
    } else if PySpace(c) {
      assert Spaces()[24] == '\U{2028}' && Spaces()[25] == '\U{2029}' && Spaces()[26] == '\U{202F}';
    }
  }

  predicate Digit(c: char) {
    '0' <= c <= '9'
  }

  /** How many times `c` stands at the start. */
  function Run(s: string, c: char): (n: nat)
    ensures n <= |s|
  {
    if s != "" && s[0] == c then 1 + Run(s[1..], c) else 0
  }

  function Leading(s: string): (n: nat)
    ensures n <= |s|
  {
    Run(s, ' ')
  }

  function DigitRun(s: string): (n: nat)
    ensures n <= |s|
  {
    if s != "" && Digit(s[0]) then 1 + DigitRun(s[1..]) else 0
  }

  /** The end of a block quote mark: at most three spaces, the sign, at most one space; 0 when there is none. */
  function QuoteEnd(line: string): (n: nat)
    ensures n <= |line|
  {
    var sp := Leading(line);
    if sp > 3 || sp == |line| || line[sp] != '>' then 0
    else if sp + 1 < |line| && line[sp + 1] == ' ' then sp + 2
    else sp + 1
  }

  /** The length of a list marker at the start of `s`; 0 when there is none. */
  function MarkerLength(s: string): (n: nat)
    ensures n <= |s|
  {
    if s == "" then 0
    else if s[0] in "-+*" then 1
    else
      var d := DigitRun(s);
      if 1 <= d <= 9 && d < |s| && s[d] in ".)" then d + 1 else 0
  }

  /** Where the content of a list item starts; None when the line is not one. */
  function ItemIndent(line: string): (r: Option<nat>)
    ensures r.Some? ==> 0 < r.value <= |line|
  {
    var sp := Leading(line);
    if sp > 3 then None
    else
      var m := MarkerLength(line[sp..]);
      var gap := Leading(line[sp + m..]);
      if m == 0 || gap == 0 then None else Some(sp + m + if gap > 4 then 4 else gap)
  }

  /** The character and length of an opening fence. */
  function Opening(body: string): Option<(char, nat)> {
    var sp := Leading(body);
    if sp > 3 || sp == |body| || body[sp] !in "`~" then None
    else
      var n := Run(body[sp..], body[sp]);
      if n >= 3 && (body[sp] == '~' || '`' !in body[sp + n..]) then Some((body[sp], n)) else None
  }

  /** A closing fence for `n` times `c`. */
  predicate Closes(candidate: string, c: char, n: nat) {
    var sp := Leading(candidate);
    var r := Run(candidate[sp..], c);
    sp <= 3 && r >= n && forall i | sp + r <= i < |candidate| :: candidate[i] in " \t"
  }

  // ---------------------------------------------------------------------------------------------------
  // What the patterns match, position by position
  // ---------------------------------------------------------------------------------------------------

  /** From `i` up to `j` there is nothing but `c`. */
  predicate Copies(s: string, i: nat, j: nat, c: char) {
    i <= j <= |s| && forall k | i <= k < j :: s[k] == c
  }

  lemma {:induction false} RunIs(s: string, c: char)
    ensures Copies(s, 0, Run(s, c), c) && (Run(s, c) < |s| ==> s[Run(s, c)] != c)
  {
    if s != "" && s[0] == c {
      RunIs(s[1..], c);
      assert forall k | 1 <= k < Run(s, c) :: s[k] == s[1..][k - 1];
    }
  }

  /** A run is as long as there are copies at the start, when something else follows. */
  lemma RunOf(s: string, c: char, n: nat)
    requires Copies(s, 0, n, c) && (n < |s| ==> s[n] != c)
    ensures Run(s, c) == n
  {
    RunIs(s, c);
  }

  /** `a` spaces, at most three, then `k` copies of `c`, at least `n`, then only spaces and tabs. */
  predicate ClosesAt(line: string, a: nat, k: nat, c: char, n: nat) {
    && a <= 3 && k >= n && Copies(line, 0, a, ' ') && Copies(line, a, a + k, c)
    && forall i | a + k <= i < |line| :: line[i] in " \t"
  }

  lemma ClosesExactly(line: string, c: char, n: nat)
    requires c !in " \t" && n >= 1
    ensures Closes(line, c, n) <==> exists a: nat, k: nat :: ClosesAt(line, a, k, c, n)
  {
    RunIs(line, ' ');
    var sp := Leading(line);
    RunIs(line[sp..], c);
    var r := Run(line[sp..], c);
    assert forall i | sp <= i < sp + r :: line[i] == line[sp..][i - sp];
    if Closes(line, c, n) {
      assert ClosesAt(line, sp, r, c, n);
    }
    if a: nat, k: nat :| ClosesAt(line, a, k, c, n) {
      ClosesHere(line, a, k, c, n);
    }
  }

  lemma ClosesHere(line: string, a: nat, k: nat, c: char, n: nat)
    requires c !in " \t" && n >= 1 && ClosesAt(line, a, k, c, n)
    ensures Closes(line, c, n)
  {
    RunOf(line, ' ', a);
    assert forall i | 0 <= i < k :: line[a..][i] == line[a + i];
    RunOf(line[a..], c, k);
  }

  /** `a` spaces, at most three, then exactly `n` copies of `c`; backticks are not followed by further ones. */
  predicate OpensAs(line: string, a: nat, c: char, n: nat) {
    && a <= 3 && Copies(line, 0, a, ' ') && Copies(line, a, a + n, c) && (a + n < |line| ==> line[a + n] != c)
    && (c == '`' ==> forall i | a + n <= i < |line| :: line[i] != '`')
  }

  lemma OpeningExactly(line: string, c: char, n: nat)
    ensures Opening(line) == Some((c, n)) <==>
            (c == '`' || c == '~') && n >= 3 && exists a: nat :: OpensAs(line, a, c, n)
  {
    RunIs(line, ' ');
    var sp := Leading(line);
    if sp < |line| {
      RunIs(line[sp..], line[sp]);
      var r := Run(line[sp..], line[sp]);
      assert forall i | sp <= i < sp + r :: line[i] == line[sp..][i - sp];
      assert forall i | sp + r <= i < |line| :: line[i] == line[sp + r..][i - sp - r];
      assert '`' !in line[sp + r..] <==> forall i | sp + r <= i < |line| :: line[i] != '`';
      if Opening(line) == Some((c, n)) {
        assert OpensAs(line, sp, c, n);
      }
    }
    if (c == '`' || c == '~') && n >= 3 && exists a: nat :: OpensAs(line, a, c, n) {
      var a: nat :| OpensAs(line, a, c, n);
      OpeningHere(line, a, c, n);
    }
  }

  lemma OpeningHere(line: string, a: nat, c: char, n: nat)
    requires (c == '`' || c == '~') && n >= 3 && OpensAs(line, a, c, n)
    ensures Opening(line) == Some((c, n))
  {
    RunOf(line, ' ', a);
    assert forall i | 0 <= i < n :: line[a..][i] == line[a + i];
    RunOf(line[a..], c, n);
    assert c == '`' ==> '`' !in line[a + n..];
  }

  /** At most three spaces and the sign, and one space more if there is one. */
  predicate QuotedAt(line: string, a: nat, end: nat) {
    && a <= 3 && Copies(line, 0, a, ' ') && a < |line| && line[a] == '>'
    && end == if a + 1 < |line| && line[a + 1] == ' ' then a + 2 else a + 1
  }

  lemma QuoteExactly(line: string, end: nat)
    requires end > 0
    ensures QuoteEnd(line) == end <==> exists a: nat :: QuotedAt(line, a, end)
  {
    RunIs(line, ' ');
    if QuoteEnd(line) == end {
      assert QuotedAt(line, Leading(line), end);
    } else if a: nat :| QuotedAt(line, a, end) {
      RunOf(line, ' ', a);
    }
  }

  /** A bullet, or one to nine digits and a full stop or bracket, from `i` up to `j`. */
  predicate MarkerAt(line: string, i: nat, j: nat) {
    || (j == i + 1 <= |line| && (line[i] == '-' || line[i] == '+' || line[i] == '*'))
    || (i + 2 <= j <= i + 10 && j <= |line| && (line[j - 1] == '.' || line[j - 1] == ')')
        && forall k | i <= k < j - 1 :: '0' <= line[k] <= '9')
  }

  /** At most three spaces, a marker, and one to four spaces: the content of the item begins at `w`. */
  predicate ItemAt(line: string, a: nat, m: nat, w: nat) {
    && a <= 3 && Copies(line, 0, a, ' ') && MarkerAt(line, a, m)
    && m < w <= m + 4 && Copies(line, m, w, ' ') && (w < m + 4 && w < |line| ==> line[w] != ' ')
  }

  lemma {:induction false} DigitRunIs(s: string)
    ensures forall k | 0 <= k < DigitRun(s) :: Digit(s[k])
    ensures DigitRun(s) < |s| ==> !Digit(s[DigitRun(s)])
  {
    if s != "" && Digit(s[0]) {
      DigitRunIs(s[1..]);
      assert forall k | 1 <= k < DigitRun(s) :: s[k] == s[1..][k - 1];
    }
  }

  lemma MarkerExactly(line: string, i: nat, j: nat)
    requires i <= |line|
    ensures j > i && MarkerLength(line[i..]) == j - i <==> MarkerAt(line, i, j)
  {
    var s := line[i..];
    DigitRunIs(s);
    assert forall k | 0 <= k < |s| :: s[k] == line[i + k];
    if MarkerAt(line, i, j) && j > i + 1 {
      assert forall k | 0 <= k < j - 1 - i :: Digit(s[k]);
      assert !Digit(s[j - 1 - i]);
      assert DigitRun(s) == j - 1 - i;
    }
  }

  lemma MarkerIsNoSpace(line: string, i: nat, j: nat)
    requires MarkerAt(line, i, j)
    ensures i < |line| && line[i] != ' '
  {
  }

  lemma ItemExactly(line: string, w: nat)
    ensures ItemIndent(line) == Some(w) <==> exists a: nat, m: nat :: ItemAt(line, a, m, w)
  {
    if ItemIndent(line) == Some(w) {
      ItemThere(line, w);
    }
    if a: nat, m: nat :| ItemAt(line, a, m, w) {
      ItemHere(line, a, m, w);
    }
  }

  lemma ItemThere(line: string, w: nat)
    requires ItemIndent(line) == Some(w)
    ensures exists a: nat, m: nat :: ItemAt(line, a, m, w)
  {
    var a := Leading(line);
    var m := a + MarkerLength(line[a..]);
    RunIs(line, ' ');
    MarkerExactly(line, a, m);
    ItemGap(line, m);
    assert ItemAt(line, a, m, w);
  }

  lemma ItemHere(line: string, a: nat, m: nat, w: nat)
    requires ItemAt(line, a, m, w)
    ensures ItemIndent(line) == Some(w)
  {
    MarkerIsNoSpace(line, a, m);
    RunOf(line, ' ', a);
    MarkerExactly(line, a, m);
    ItemGap(line, m);
  }

  lemma ItemGap(line: string, m: nat)
    requires m <= |line|
    ensures var gap := Leading(line[m..]);
            Copies(line, m, m + gap, ' ') && (m + gap < |line| ==> line[m + gap] != ' ')
  {
    RunIs(line[m..], ' ');
    assert forall k | 0 <= k < |line| - m :: line[m..][k] == line[m + k];
  }

  // ---------------------------------------------------------------------------------------------------
  // Containers
  // ---------------------------------------------------------------------------------------------------

  /** Removes block quote marks, up to a depth if one is given. */
  function Strip(line: string, maxDepth: Option<nat>, depth: nat): (string, nat)
    decreases |line|
  {
    if (maxDepth.Some? && depth >= maxDepth.value) || QuoteEnd(line) == 0 then (line, depth)
    else Strip(line[QuoteEnd(line)..], maxDepth, depth + 1)
  }

  method StripBlockquotePrefixes(line: string, maxDepth: Option<nat>) returns (body: string, depth: nat)
    ensures (body, depth) == Strip(line, maxDepth, 0)
  {
    body, depth := line, 0;
    while maxDepth.None? || depth < maxDepth.value
      invariant Strip(body, maxDepth, depth) == Strip(line, maxDepth, 0)
      decreases |body|
    {
      var end := QuoteEnd(body);
      if end == 0 {
        return;
      }
      body, depth := body[end..], depth + 1;
    }
  }

  datatype Body = Body(text: string, depth: nat, active: Option<nat>)

  /** The text of a line inside its containers, and the list indent that is active after it. */
  function BodyLine(line: string, active: Option<nat>): Body {
    var (body, depth) := Strip(line, None, 0);
    if active.Some? && Blank(body) then Body("", depth, active)
    else if active.Some? && Leading(body) >= active.value then
      var stripped := body[active.value..];
      var item := ItemIndent(stripped);
      if item.Some? then Body(stripped[item.value..], depth, Some(active.value + item.value))
      else Body(stripped, depth, active)
    else
      var item := ItemIndent(body);
      if item.Some? then Body(body[item.value..], depth, item) else Body(body, depth, None)
  }

  /** A line as seen from the container of an open fence; None when it has left it. */
  function ContainerLine(line: string, depth: nat, indent: Option<nat>): Option<string> {
    var (body, reached) := Strip(line, Some(depth), 0);
    if reached < depth then None
    else if indent.None? then Some(body)
    else if Leading(body) < indent.value then None
    else Some(body[indent.value..])
  }

  // ---------------------------------------------------------------------------------------------------
  // The filter
  // ---------------------------------------------------------------------------------------------------

  datatype Fence = Fence(c: char, length: nat, depth: nat, indent: Option<nat>)

  datatype State = State(fence: Option<Fence>, active: Option<nat>)

  const START := State(None, None)

  datatype Step = Step(state: State, shown: bool)

  /** The line belongs to the open fence. */
  predicate Inside(s: State, line: string) {
    s.fence.Some? && (ContainerLine(line, s.fence.value.depth, s.fence.value.indent).Some? || Blank(line))
  }

  function StepOutside(active: Option<nat>, line: string): Step {
    var body := BodyLine(line, active);
    var opening := Opening(body.text);
    if opening.Some? then
      Step(State(Some(Fence(opening.value.0, opening.value.1, body.depth, body.active)), body.active), false)
    else Step(State(None, body.active), true)
  }

  function StepLine(s: State, line: string): Step {
    if Inside(s, line) then
      var f := s.fence.value;
      var candidate := ContainerLine(line, f.depth, f.indent);
      Step(if candidate.Some? && Closes(candidate.value, f.c, f.length) then s.(fence := None) else s, false)
    else StepOutside(s.active, line)
  }

  function After(lines: seq<string>): State {
    if lines == [] then START else StepLine(After(lines[..|lines| - 1]), lines[|lines| - 1]).state
  }

  /** Line `i` is in the output. */
  predicate Visible(lines: seq<string>, i: nat)
    requires i < |lines|
  {
    StepLine(After(lines[..i]), lines[i]).shown
  }

  /** Line `i` is read outside a fence and opens one. */
  predicate OpensAt(lines: seq<string>, i: nat)
    requires i < |lines|
  {
    var s := After(lines[..i]);
    !Inside(s, lines[i]) && Opening(BodyLine(lines[i], s.active).text).Some?
  }

  /** The output that the visible lines make. */
  function Shown(lines: seq<string>, upTo: nat): seq<(nat, string)>
    requires upTo <= |lines|
  {
    if upTo == 0 then []
    else Shown(lines, upTo - 1) + if Visible(lines, upTo - 1) then [(upTo, lines[upTo - 1])] else []
  }

  /** The loop over the lines, with its four fence variables. */
  method VisibleNumberedLines(lines: seq<string>) returns (visible: seq<(nat, string)>)
    ensures visible == Shown(lines, |lines|)
  {
    visible := [];
    var fence: Option<Fence> := None;
    var active: Option<nat> := None;
    var i := 0;
    while i < |lines|
      invariant 0 <= i <= |lines|
      invariant State(fence, active) == After(lines[..i])
      invariant visible == Shown(lines, i)
    {
      var line := lines[i];
      assert lines[..i + 1][..i] == lines[..i];
      i := i + 1;
      if fence.Some? {
        var f := fence.value;
        var candidate := ContainerLine(line, f.depth, f.indent);
        if candidate.None? && !Blank(line) {
          fence := None;
        } else {
          if candidate.Some? && Closes(candidate.value, f.c, f.length) {
            fence := None;
          }
          continue;
        }
      }
      var body := BodyLine(line, active);
      active := body.active;
      var opening := Opening(body.text);
      if opening.Some? {
        fence := Some(Fence(opening.value.0, opening.value.1, body.depth, active));
        continue;
      }
      visible := visible + [(i, line)];
    }
    assert lines[..|lines|] == lines;
  }

  /** `out` is exactly the lines up to `upTo` that `visible` picks, with their numbers, unchanged and in order. */
  ghost predicate IsSelection(lines: seq<string>, visible: nat -> bool, upTo: nat, out: seq<(nat, string)>)
    requires upTo <= |lines|
  {
    && (forall x | x in out :: Picked(lines, visible, upTo, x))
    && (forall j, k | 0 <= j < k < |out| :: out[j].0 < out[k].0)
    && (forall i: nat | i < upTo && visible(i) :: (i + 1, lines[i]) in out)
  }

  predicate Picked(lines: seq<string>, visible: nat -> bool, upTo: nat, x: (nat, string))
    requires upTo <= |lines|
  {
    1 <= x.0 <= upTo && x.1 == lines[x.0 - 1] && visible(x.0 - 1)
  }

  lemma {:induction false} ShownRight(lines: seq<string>, upTo: nat)
    requires upTo <= |lines|
    ensures IsSelection(lines, (i: nat) => i < |lines| && Visible(lines, i), upTo, Shown(lines, upTo))
  {
    if upTo > 0 {
      ShownRight(lines, upTo - 1);
      SelectOne(lines, (i: nat) => i < |lines| && Visible(lines, i), upTo, Shown(lines, upTo - 1));
    }
  }

  lemma SelectOne(lines: seq<string>, visible: nat -> bool, upTo: nat, out: seq<(nat, string)>)
    requires 0 < upTo <= |lines| && IsSelection(lines, visible, upTo - 1, out)
    ensures IsSelection(lines, visible, upTo, out + if visible(upTo - 1) then [(upTo, lines[upTo - 1])] else [])
  {
    if visible(upTo - 1) {
      var x := (upTo, lines[upTo - 1]);
      SelectOrder(out, x);
      forall i: nat | i < upTo && visible(i) ensures (i + 1, lines[i]) in out + [x] {
        assert i < upTo - 1 ==> (i + 1, lines[i]) in out;
      }
    } else {
      assert out + [] == out;
    }
  }

  lemma SelectOrder(out: seq<(nat, string)>, x: (nat, string))
    requires (forall j, k | 0 <= j < k < |out| :: out[j].0 < out[k].0) && forall y | y in out :: y.0 < x.0
    ensures forall j, k | 0 <= j < k < |out + [x]| :: (out + [x])[j].0 < (out + [x])[k].0
  {
  }

  /** A maximal run of hidden lines starts with an opening fence. */
  lemma HiddenRunOpens(lines: seq<string>, i: nat)
    requires i < |lines| && !Visible(lines, i) && (i == 0 || Visible(lines, i - 1))
    ensures OpensAt(lines, i)
  {
    if i > 0 {
      assert lines[..i][..i - 1] == lines[..i - 1] && lines[..i][i - 1] == lines[i - 1];
      assert After(lines[..i]) == StepLine(After(lines[..i - 1]), lines[i - 1]).state;
    } else {
      assert lines[..0] == [];
    }
  }

  // ---------------------------------------------------------------------------------------------------
  // Text without containers
  // ---------------------------------------------------------------------------------------------------

  /** The number of lines up to and with the closing fence; all of them when there is none. */
  function ThroughClose(lines: seq<string>, c: char, n: nat): (k: nat)
    ensures k <= |lines|
  {
    if lines == [] then 0 else if Closes(lines[0], c, n) then 1 else 1 + ThroughClose(lines[1..], c, n)
  }

  /**
   The definition of fenced code blocks: an opening fence hides everything up to the first line that is a fence of the
   same character, at least as long, or everything that is left.
   */
  function OutsideFences(lines: seq<string>): seq<string>
    decreases |lines|
  {
    if lines == [] then []
    else if Opening(lines[0]).Some? then
      var (c, n) := Opening(lines[0]).value;
      OutsideFences(lines[1..][ThroughClose(lines[1..], c, n)..])
    else [lines[0]] + OutsideFences(lines[1..])
  }

  predicate Plain(line: string) {
    QuoteEnd(line) == 0 && ItemIndent(line).None?
  }

  /** Every line outside a fence is free of containers. */
  predicate PlainOutside(lines: seq<string>)
    decreases |lines|
  {
    lines == []
    || (&& Plain(lines[0])
        && if Opening(lines[0]).Some? then
             var (c, n) := Opening(lines[0]).value;
             PlainOutside(lines[1..][ThroughClose(lines[1..], c, n)..])
           else PlainOutside(lines[1..]))
  }

  /** What the filter shows of `lines` from a given state. */
  function ShownFrom(s: State, lines: seq<string>): seq<string>
    decreases |lines|
  {
    if lines == [] then []
    else
      var step := StepLine(s, lines[0]);
      (if step.shown then [lines[0]] else []) + ShownFrom(step.state, lines[1..])
  }

  function Texts(out: seq<(nat, string)>): seq<string> {
    if out == [] then [] else Texts(out[..|out| - 1]) + [out[|out| - 1].1]
  }

  lemma TextsMore(out: seq<(nat, string)>, x: (nat, string))
    ensures Texts(out + [x]) == Texts(out) + [x.1]
  {
    assert (out + [x])[..|out|] == out;
  }

  /** The two ways to read the output, from the front and from the back, agree. */
  lemma {:induction false} ShownFromRest(lines: seq<string>, i: nat)
    requires i <= |lines|
    ensures ShownFrom(START, lines) == Texts(Shown(lines, i)) + ShownFrom(After(lines[..i]), lines[i..])
  {
    if i == 0 {
      assert lines[..0] == [] && lines[0..] == lines;
      assert Texts([]) + ShownFrom(START, lines) == ShownFrom(START, lines);
    } else {
      ShownFromRest(lines, i - 1);
      OneLineFurther(lines, i, Shown(lines, i - 1));
    }
  }

  lemma OneLineFurther(lines: seq<string>, i: nat, before: seq<(nat, string)>)
    requires 0 < i <= |lines|
    ensures var shown := if Visible(lines, i - 1) then [(i, lines[i - 1])] else [];
            Texts(before) + ShownFrom(After(lines[..i - 1]), lines[i - 1..])
            == Texts(before + shown) + ShownFrom(After(lines[..i]), lines[i..])
  {
    var s := After(lines[..i - 1]);
    assert lines[..i][..i - 1] == lines[..i - 1];
    assert lines[i - 1..][1..] == lines[i..] && lines[i - 1..][0] == lines[i - 1];
    FirstShown(s, lines[i - 1..]);
    Regroup(before, i, lines[i - 1], ShownFrom(After(lines[..i]), lines[i..]));
  }

  lemma FirstShown(s: State, lines: seq<string>)
    requires lines != []
    ensures var step := StepLine(s, lines[0]);
            ShownFrom(s, lines) == (if step.shown then [lines[0]] else []) + ShownFrom(step.state, lines[1..])
  {
  }

  lemma Associate(a: seq<string>, b: seq<string>, c: seq<string>)
    ensures a + (b + c) == (a + b) + c && [] + c == c && a + [] == a
  {
  }

  lemma Regroup(before: seq<(nat, string)>, i: nat, line: string, later: seq<string>)
    ensures Texts(before) + ([line] + later) == Texts(before + [(i, line)]) + later
    ensures Texts(before) + ([] + later) == Texts(before + []) + later
  {
    TextsMore(before, (i, line));
    assert before + [] == before;
    Associate(Texts(before), [line], later);
    Associate(Texts(before), [], later);
  }

  lemma ShownTexts(lines: seq<string>)
    ensures Texts(Shown(lines, |lines|)) == ShownFrom(START, lines)
  {
    ShownFromRest(lines, |lines|);
    assert lines[|lines|..] == [];
    assert Texts(Shown(lines, |lines|)) + [] == Texts(Shown(lines, |lines|));
  }

  lemma PlainStep(line: string)
    requires Plain(line)
    ensures BodyLine(line, None) == Body(line, 0, None)
  {
  }

  /** Inside a fence that is in no container everything is hidden through the closing fence. */
  lemma {:induction false} HiddenThroughClose(c: char, n: nat, lines: seq<string>)
    ensures ShownFrom(State(Some(Fence(c, n, 0, None)), None), lines) == ShownFrom(START, lines[ThroughClose(lines, c, n)..])
    decreases |lines|
  {
    if lines != [] {
      var s := State(Some(Fence(c, n, 0, None)), None);
      assert ContainerLine(lines[0], 0, None) == Some(lines[0]);
      assert [] + ShownFrom(StepLine(s, lines[0]).state, lines[1..]) == ShownFrom(StepLine(s, lines[0]).state, lines[1..]);
      if !Closes(lines[0], c, n) {
        HiddenThroughClose(c, n, lines[1..]);
        assert lines[1..][ThroughClose(lines[1..], c, n)..] == lines[ThroughClose(lines, c, n)..];
      }
    }
  }

  /** A line with `k` copies of `d` after its spaces closes only fences of that character that are not longer. */
  lemma ClosesOnlyAlike(line: string, a: nat, k: nat, d: char, b: nat, j: nat, c: char, n: nat)
    requires Copies(line, 0, a, ' ') && Copies(line, a, a + k, d) && (a + k < |line| ==> line[a + k] != d)
    requires d !in " \t" && c !in " \t" && k >= 1 && n >= 1 && ClosesAt(line, b, j, c, n)
    ensures a == b && d == c && k >= n
  {
    assert line[a] == d && line[b] == c;
  }

  lemma {:induction false} NothingCloses(c: char, n: nat, inner: seq<string>, rest: seq<string>)
    requires c !in " \t" && n >= 1
    requires forall i, a: nat, k: nat | 0 <= i < |inner| :: !ClosesAt(inner[i], a, k, c, n)
    ensures ThroughClose(inner + rest, c, n) == |inner| + ThroughClose(rest, c, n)
    decreases inner
  {
    if inner == [] {
      assert inner + rest == rest;
    } else {
      ClosesExactly(inner[0], c, n);
      NothingCloses(c, n, inner[1..], rest);
      assert (inner + rest)[1..] == inner[1..] + rest;
    }
  }

  /**
   A fenced code block in text without containers: after an opening of `n` copies of `c`, everything is hidden up to the
   first line that is at most three spaces, at least `n` copies of `c`, and blanks; and everything that is left if there
   is no such line.
   */
  lemma FenceHides(opening: string, a: nat, c: char, n: nat, inner: seq<string>, closing: string, b: nat, k: nat,
                   rest: seq<string>)
    requires Plain(opening) && (c == '`' || c == '~') && n >= 3 && OpensAs(opening, a, c, n)
    requires forall i, x: nat, y: nat | 0 <= i < |inner| :: !ClosesAt(inner[i], x, y, c, n)
    requires ClosesAt(closing, b, k, c, n)
    ensures ShownFrom(START, [opening] + (inner + ([closing] + rest))) == ShownFrom(START, rest)
    ensures ShownFrom(START, [opening] + inner) == []
  {
    OpeningHere(opening, a, c, n);
    HiddenUntilClosed(opening, c, n, inner, closing, b, k, rest);
    HiddenToTheEnd(opening, c, n, inner);
  }

  lemma HiddenUntilClosed(opening: string, c: char, n: nat, inner: seq<string>, closing: string, b: nat, k: nat,
                          rest: seq<string>)
    requires Plain(opening) && (c == '`' || c == '~') && n >= 3 && Opening(opening) == Some((c, n))
    requires forall i, x: nat, y: nat | 0 <= i < |inner| :: !ClosesAt(inner[i], x, y, c, n)
    requires ClosesAt(closing, b, k, c, n)
    ensures ShownFrom(START, [opening] + (inner + ([closing] + rest))) == ShownFrom(START, rest)
  {
    HiddenAfter(opening, c, n, inner + ([closing] + rest));
    ClosesHere(closing, b, k, c, n);
    NothingCloses(c, n, inner, [closing] + rest);
    assert ThroughClose([closing] + rest, c, n) == 1;
    AfterThem(inner, closing, rest);
  }

  lemma AfterThem(inner: seq<string>, closing: string, rest: seq<string>)
    ensures (inner + ([closing] + rest))[|inner| + 1..] == rest
  {
  }

  lemma HiddenToTheEnd(opening: string, c: char, n: nat, inner: seq<string>)
    requires Plain(opening) && (c == '`' || c == '~') && n >= 3 && Opening(opening) == Some((c, n))
    requires forall i, x: nat, y: nat | 0 <= i < |inner| :: !ClosesAt(inner[i], x, y, c, n)
    ensures ShownFrom(START, [opening] + inner) == []
  {
    HiddenAfter(opening, c, n, inner);
    NothingCloses(c, n, inner, []);
    assert inner + [] == inner && inner[|inner|..] == [];
  }

  lemma HiddenAfter(opening: string, c: char, n: nat, later: seq<string>)
    requires Plain(opening) && Opening(opening) == Some((c, n))
    ensures ShownFrom(START, [opening] + later) == ShownFrom(START, later[ThroughClose(later, c, n)..])
  {
    PlainStep(opening);
    var s := State(Some(Fence(c, n, 0, None)), None);
    assert StepLine(START, opening) == Step(s, false);
    ShownFirst(START, opening, later, Step(s, false));
    assert [] + ShownFrom(s, later) == ShownFrom(s, later);
    HiddenThroughClose(c, n, later);
  }

  /**
   How a line without quote marks is read while the content of a list item begins at `w`: a blank one belongs to the item,
   and so does one whose first `w` characters are spaces, with a further item in it or not; any other ends the item.
   */
  lemma ReadInItem(line: string, w: nat)
    requires QuoteEnd(line) == 0
    ensures Blank(line) ==> BodyLine(line, Some(w)) == Body("", 0, Some(w))
    ensures !Blank(line) && Copies(line, 0, w, ' ') ==>
        match ItemIndent(line[w..])
        case Some(v) => BodyLine(line, Some(w)) == Body(line[w + v..], 0, Some(w + v))
        case None => BodyLine(line, Some(w)) == Body(line[w..], 0, Some(w))
    ensures !Blank(line) && !Copies(line, 0, w, ' ') ==> BodyLine(line, Some(w)) == BodyLine(line, None)
    ensures match ItemIndent(line)
            case Some(v) => BodyLine(line, None) == Body(line[v..], 0, Some(v))
            case None => BodyLine(line, None) == Body(line, 0, None)
  {
    RunIs(line, ' ');
    if Copies(line, 0, w, ' ') && ItemIndent(line[w..]).Some? {
      var v := ItemIndent(line[w..]).value;
      assert line[w..][v..] == line[w + v..];
    }
  }

  /** A limited strip takes the marks there are, up to the limit. */
  lemma {:induction false} StripUpTo(line: string, max: nat, depth: nat)
    requires depth <= max
    ensures var all := Strip(line, None, depth).1;
            Strip(line, Some(max), depth).1 == if all < max then all else max
    decreases |line|
  {
    StripDeeper(line, depth);
    if depth < max && QuoteEnd(line) != 0 {
      StripUpTo(line[QuoteEnd(line)..], max, depth + 1);
    }
  }

  lemma {:induction false} StripDeeper(line: string, depth: nat)
    ensures Strip(line, None, depth).1 >= depth
    decreases |line|
  {
    if QuoteEnd(line) != 0 {
      StripDeeper(line[QuoteEnd(line)..], depth + 1);
    }
  }

  /**
   When a fence in a container goes on: on blank lines, and on lines that have all its quote marks and, for a fence in a
   list item, at least the spaces of the item after them. Any other line is read as if there were no fence.
   */
  lemma LeavesContainer(f: Fence, active: Option<nat>, line: string)
    ensures Inside(State(Some(f), active), line) <==>
            || Blank(line)
            || (&& Strip(line, None, 0).1 >= f.depth
                && (f.indent.Some? ==> Leading(Strip(line, Some(f.depth), 0).0) >= f.indent.value))
    ensures !Inside(State(Some(f), active), line) ==> StepLine(State(Some(f), active), line) == StepOutside(active, line)
  {
    StripUpTo(line, f.depth, 0);
  }

  /** On text without containers outside its fences the filter is the definition. */
  lemma {:induction false} PlainIsDefinition(lines: seq<string>)
    requires PlainOutside(lines)
    ensures ShownFrom(START, lines) == OutsideFences(lines)
    decreases |lines|
  {
    if lines != [] {
      PlainStep(lines[0]);
      if Opening(lines[0]).Some? {
        var (c, n) := Opening(lines[0]).value;
        HiddenThroughClose(c, n, lines[1..]);
        PlainIsDefinition(lines[1..][ThroughClose(lines[1..], c, n)..]);
        var s := StepLine(START, lines[0]).state;
        assert [] + ShownFrom(s, lines[1..]) == ShownFrom(s, lines[1..]);
      } else {
        PlainIsDefinition(lines[1..]);
      }
    }
  }

  // ---------------------------------------------------------------------------------------------------
  // Filtering twice
  // ---------------------------------------------------------------------------------------------------

  /** No opening fence starts, ends or deepens a list item. */
  predicate Steady(s: State, lines: seq<string>)
    decreases |lines|
  {
    lines == []
    || (var step := StepLine(s, lines[0]);
        (!step.shown ==> step.state.active == s.active) && Steady(step.state, lines[1..]))
  }

  /** What is shown once is shown again. */
  lemma {:induction false} FilteredIsClean(s: State, lines: seq<string>)
    requires Steady(s, lines)
    ensures var out := ShownFrom(s, lines); ShownFrom(State(None, s.active), out) == out
    decreases |lines|
  {
    if lines != [] {
      var step := StepLine(s, lines[0]);
      var later := ShownFrom(step.state, lines[1..]);
      FilteredIsClean(step.state, lines[1..]);
      if step.shown {
        assert StepLine(State(None, s.active), lines[0]) == step;
        assert ([lines[0]] + later)[1..] == later;
      } else {
        assert [] + later == later;
      }
    }
  }

  lemma {:induction false} PlainIsSteady(lines: seq<string>)
    requires PlainOutside(lines)
    ensures Steady(START, lines)
    decreases |lines|
  {
    if lines != [] {
      PlainStep(lines[0]);
      if Opening(lines[0]).Some? {
        var (c, n) := Opening(lines[0]).value;
        PlainIsSteady(lines[1..][ThroughClose(lines[1..], c, n)..]);
        SteadyInside(c, n, lines[1..]);
      } else {
        PlainIsSteady(lines[1..]);
      }
    }
  }

  lemma {:induction false} SteadyInside(c: char, n: nat, lines: seq<string>)
    requires Steady(START, lines[ThroughClose(lines, c, n)..])
    ensures Steady(State(Some(Fence(c, n, 0, None)), None), lines)
    decreases |lines|
  {
    if lines != [] {
      assert ContainerLine(lines[0], 0, None) == Some(lines[0]);
      if !Closes(lines[0], c, n) {
        assert lines[1..][ThroughClose(lines[1..], c, n)..] == lines[ThroughClose(lines, c, n)..];
        SteadyInside(c, n, lines[1..]);
      }
    }
  }

  /** On text without containers filtering the output hides nothing more. */
  lemma RefilterHidesNothing(lines: seq<string>)
    requires PlainOutside(lines)
    ensures var out := Texts(Shown(lines, |lines|)); Texts(Shown(out, |out|)) == out
  {
    PlainIsSteady(lines);
    FilteredIsClean(START, lines);
    ShownTexts(lines);
    ShownTexts(ShownFrom(START, lines));
  }

  /** No line is an opening fence when each is read with the list indent that the lines before it leave. */
  predicate NoneOpens(lines: seq<string>, active: Option<nat>)
    decreases |lines|
  {
    lines == []
    || (var body := BodyLine(lines[0], active);
        Opening(body.text).None? && NoneOpens(lines[1..], body.active))
  }

  lemma {:induction false} ShownIsShorter(s: State, lines: seq<string>)
    ensures |ShownFrom(s, lines)| <= |lines|
    decreases |lines|
  {
    if lines != [] {
      ShownIsShorter(StepLine(s, lines[0]).state, lines[1..]);
    }
  }

  /** The filter leaves a text alone if and only if none of its lines is an opening fence. */
  lemma {:induction false} UnchangedExactly(lines: seq<string>, active: Option<nat>)
    ensures ShownFrom(State(None, active), lines) == lines <==> NoneOpens(lines, active)
    decreases |lines|
  {
    if lines != [] {
      var step := StepOutside(active, lines[0]);
      var later := ShownFrom(step.state, lines[1..]);
      FirstShown(State(None, active), lines);
      if step.shown {
        UnchangedExactly(lines[1..], step.state.active);
        OneMoreShown(lines, later);
      } else {
        ShownIsShorter(step.state, lines[1..]);
        assert [] + later == later;
      }
    }
  }

  lemma OneMoreShown(lines: seq<string>, later: seq<string>)
    requires lines != []
    ensures [lines[0]] + later == lines <==> later == lines[1..]
  {
    assert ([lines[0]] + later)[1..] == later;
    assert [lines[0]] + lines[1..] == lines;
  }

  /**
   Filtering twice hides nothing more if and only if no shown line, read with the list indent that the shown lines before
   it leave, is an opening fence.
   */
  lemma RefilterExactly(lines: seq<string>)
    ensures var out := Texts(Shown(lines, |lines|)); Texts(Shown(out, |out|)) == out <==> NoneOpens(out, None)
  {
    var out := Texts(Shown(lines, |lines|));
    ShownTexts(out);
    UnchangedExactly(out, None);
  }

  lemma ShownFirst(s: State, line: string, rest: seq<string>, step: Step)
    requires StepLine(s, line) == step
    ensures ShownFrom(s, [line] + rest) == (if step.shown then [line] else []) + ShownFrom(step.state, rest)
  {
    FirstShown(s, [line] + rest);
    assert ([line] + rest)[1..] == rest;
  }

  function InList(indent: nat): State {
    State(None, Some(indent))
  }

  const INNER_FENCE := State(Some(Fence('`', 3, 0, Some(2))), Some(2))

  lemma FirstItem()
    ensures StepLine(START, "1.  x") == Step(InList(4), true)
  {
    var line := "1.  x";
    FirstIndent();
    EntersList(line, 4);
    assert line[4..] == "x";
    assert Opening("x").None?;
  }

  lemma FirstIndent()
    ensures ItemIndent("1.  x") == Some(4) && QuoteEnd("1.  x") == 0
  {
    var line := "1.  x";
    assert Leading(line) == 0 && line[0..] == line;
    assert MarkerLength(line) == 2 by {
      assert line[1..] == ".  x";
    }
    assert line[2..] == "  x";
    assert Leading("  x") == 2 by {
      assert "  x"[1..] == " x";
    }
  }

  lemma EntersList(line: string, item: nat)
    requires QuoteEnd(line) == 0 && ItemIndent(line) == Some(item)
    ensures BodyLine(line, None) == Body(line[item..], 0, Some(item))
  {
    assert Strip(line, None, 0) == (line, 0);
  }

  lemma LeavesList(line: string, active: nat, item: nat)
    requires QuoteEnd(line) == 0 && !Blank(line) && Leading(line) < active && ItemIndent(line) == Some(item)
    ensures BodyLine(line, Some(active)) == Body(line[item..], 0, Some(item))
  {
    assert Strip(line, None, 0) == (line, 0);
  }

  lemma StaysInList(line: string, active: nat)
    requires QuoteEnd(line) == 0 && !Blank(line) && Leading(line) >= active && ItemIndent(line[active..]).None?
    ensures BodyLine(line, Some(active)) == Body(line[active..], 0, Some(active))
  {
    assert Strip(line, None, 0) == (line, 0);
  }

  lemma SecondIndent()
    ensures ItemIndent("- ```") == Some(2) && QuoteEnd("- ```") == 0 && Leading("- ```") == 0 && !Blank("- ```")
  {
    var line := "- ```";
    assert line[0] == '-' && !PySpace('-');
    assert line[0..] == line && line[1..] == " ```";
    assert Leading(" ```") == 1 by {
      assert " ```"[1..] == "```";
    }
  }

  lemma FenceText()
    ensures Opening("```") == Some(('`', 3))
  {
    assert "```"[0..] == "```";
  }

  lemma OpensFrom(line: string, active: nat, body: Body, c: char, n: nat)
    requires BodyLine(line, Some(active)) == body && Opening(body.text) == Some((c, n))
    ensures StepLine(InList(active), line) == Step(State(Some(Fence(c, n, body.depth, body.active)), body.active), false)
  {
  }

  lemma SecondItem()
    ensures StepLine(InList(4), "- ```") == Step(INNER_FENCE, false)
  {
    var line := "- ```";
    SecondIndent();
    LeavesList(line, 4, 2);
    assert line[2..] == "```";
    FenceText();
    OpensFrom(line, 4, Body("```", 0, Some(2)), '`', 3);
  }

  lemma ClosingLine()
    ensures StepLine(INNER_FENCE, "  ```") == Step(InList(2), false)
  {
    assert Leading("  ```") == 2 && "  ```"[2..] == "```";
    assert Closes("```", '`', 3);
  }

  lemma IndentedFence()
    ensures ItemIndent("  ```").None? && Opening("  ```") == Some(('`', 3))
  {
    var line := "  ```";
    assert Leading(line) == 2 && line[2..] == "```";
    assert MarkerLength("```") == 0;
  }

  lemma IndentedText()
    ensures ItemIndent("    ```").None? && Opening("    ```").None?
  {
    assert Leading("    ```") == 4;
  }

  lemma DeepLine()
    ensures var line := "      ```"; Leading(line) == 6 && !Blank(line) && QuoteEnd(line) == 0
  {
    var line := "      ```";
    assert line[6] == '`' && !PySpace('`');
  }

  lemma IndentedLine()
    ensures StepLine(InList(2), "      ```") == Step(InList(2), true)
    ensures !StepLine(InList(4), "      ```").shown
  {
    var line := "      ```";
    DeepLine();
    assert line[2..] == "    ```" && line[4..] == "  ```";
    IndentedFence();
    IndentedText();
    StaysInList(line, 2);
    StaysInList(line, 4);
  }

  /** With list items it can hide more: the fence opened inside the second item ended the wider indent of the first. */
  lemma RefilterCanHideInLists()
    ensures var lines := ["1.  x"] + (["- ```"] + (["  ```"] + (["      ```"] + [])));
            var out := ShownFrom(START, lines);
            out == ["1.  x", "      ```"] && ShownFrom(START, out) == ["1.  x"]
  {
    FirstItem();
    SecondItem();
    ClosingLine();
    IndentedLine();
    ListChain("1.  x", "- ```", "  ```", "      ```", INNER_FENCE);
  }

  lemma ListChain(l0: string, l1: string, l2: string, l3: string, f: State)
    requires StepLine(START, l0) == Step(InList(4), true)
    requires StepLine(InList(4), l1) == Step(f, false)
    requires StepLine(f, l2) == Step(InList(2), false)
    requires StepLine(InList(2), l3) == Step(InList(2), true)
    requires !StepLine(InList(4), l3).shown
    ensures ShownFrom(START, [l0] + ([l1] + ([l2] + ([l3] + [])))) == [l0, l3]
    ensures ShownFrom(START, [l0, l3]) == [l0]
  {
    ShownFirst(START, l0, [l1] + ([l2] + ([l3] + [])), Step(InList(4), true));
    ShownFirst(InList(4), l1, [l2] + ([l3] + []), Step(f, false));
    ShownFirst(f, l2, [l3] + [], Step(InList(2), false));
    ShownFirst(InList(2), l3, [], Step(InList(2), true));
    ShownFirst(START, l0, [l3], Step(InList(4), true));
    ShownFirst(InList(4), l3, [], StepLine(InList(4), l3));
    assert [l0] + [l3] == [l0, l3] && [l3] + [] == [l3];
  }
}