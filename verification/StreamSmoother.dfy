/**
 Smooth playback of streamed text. Text is buffered per message and drained frame by frame: a rate controller earns
 credit over time, a frame spends whole units of it, and cuts fall on grapheme boundaries.
 Lengths are code units; the segmentation itself and the exponential weights come from outside.
 */
module StreamSmoother {
  import opened Prelude

  const START_BUFFER_MS := 180.0
  const RATE_SAMPLE_MS := 200.0
  const CATCH_UP_MS := 600.0
  const MAX_FRAME_MS := 64.0
  const MIN_CHARS_PER_SECOND := 32.0

  type Segmenter = string -> seq<string>

  /** Segments are nonempty, at most `longest` units, and add up to the text. */
  ghost predicate Lawful(seg: Segmenter, longest: nat) {
    && longest >= 1
    && forall s :: Concat(seg(s)) == s && forall i | 0 <= i < |seg(s)| :: 1 <= |seg(s)[i]| <= longest
  }

  // ---------------------------------------------------------------------------------------------------
  // Cutting a buffer
  // ---------------------------------------------------------------------------------------------------

  /** How many leading segments go out when `done` units are out already. */
  function Taken(segs: seq<string>, count: int, done: nat): (k: nat)
    ensures k <= |segs|
  {
    if segs == [] then 0
    else if done + |segs[0]| > count && done > 0 then 0
    else if done + |segs[0]| >= count then 1
    else 1 + Taken(segs[1..], count, done + |segs[0]|)
  }

  /** The cut of `value` for a budget of `count` units: what goes out and what stays. */
  function Cut(seg: Segmenter, value: string, count: int): (string, string) {
    if value == "" || count <= 0 then ("", value)
    else if count >= |value| then (value, "")
    else var k := Taken(seg(value), count, 0); (Concat(seg(value)[..k]), Concat(seg(value)[k..]))
  }

  lemma {:induction false} ConcatSplit(parts: seq<string>, k: nat)
    requires k <= |parts|
    ensures Concat(parts[..k]) + Concat(parts[k..]) == Concat(parts)
  {
    if k > 0 {
      ConcatSplit(parts[1..], k - 1);
      assert parts[..k][1..] == parts[1..][..k - 1] && parts[k..] == parts[1..][k - 1..];
    } else {
      assert parts[..0] == [] && parts[0..] == parts;
    }
  }

  lemma {:induction false} TakenBounds(segs: seq<string>, count: int, done: nat, longest: nat)
    requires longest >= 1 && forall i | 0 <= i < |segs| :: 1 <= |segs[i]| <= longest
    requires done == 0 ==> count > 0
    requires done > 0 ==> done < count
    ensures var n := done + |Concat(segs[..Taken(segs, count, done)])|;
            && n < count + longest
            && (segs != [] && done == 0 ==> Taken(segs, count, done) >= 1 && n >= 1)
            && (Taken(segs, count, done) < |segs| ==> n > count - longest)
  {
    if segs != [] {
      var k := Taken(segs, count, done);
      var out := done + |segs[0]|;
      if out > count && done > 0 {
        assert segs[..0] == [];
      } else if out >= count {
        assert segs[..1] == [segs[0]] && [segs[0]][1..] == [];
        assert Concat([segs[0]]) == segs[0] + Concat([]);
      } else {
        TakenBounds(segs[1..], count, out, longest);
        assert segs[..k][1..] == segs[1..][..k - 1];
        assert Concat(segs[..k]) == segs[0] + Concat(segs[1..][..k - 1]);
      }
    }
  }

  /**
   A cut loses nothing, overshoots a positive budget by less than one segment, takes something when there is budget
   and text, and leaves text only when less than one segment of the budget is unused.
   */
  lemma CutRight(seg: Segmenter, value: string, count: int, longest: nat)
    requires Lawful(seg, longest)
    ensures var (out, rest) := Cut(seg, value, count);
            && out + rest == value
            && (count <= 0 ==> out == "")
            && (count > 0 ==> |out| < count + longest)
            && (count > 0 && value != "" ==> out != "")
            && (count > 0 && rest != "" ==> |out| > count - longest)
  {
    if value != "" && 0 < count < |value| {
      var segs := seg(value);
      var k := Taken(segs, count, 0);
      assert Concat(segs) == value;
      ConcatSplit(segs, k);
      TakenBounds(segs, count, 0, longest);
      if k == |segs| {
        assert segs[k..] == [];
      }
    }
  }

  /** The loop over segments. */
  method TakeFromBuffer(seg: Segmenter, value: string, count: int, ghost longest: nat) returns (out: string, rest: string)
    requires Lawful(seg, longest)
    ensures (out, rest) == Cut(seg, value, count)
  {
    if value == "" || count <= 0 {
      return "", value;
    }
    if count >= |value| {
      return value, "";
    }
    var segs := seg(value);
    assert Concat(segs) == value;
    var end, i := 0, 0;
    ghost var k := Taken(segs, count, 0);
    ConcatSplit(segs, 0);
    while i < |segs|
      invariant 0 <= i <= |segs| && end == |Concat(segs[..i])| <= |value|
      invariant k == i + Taken(segs[i..], count, end)
      invariant end > 0 ==> end < count
      invariant i > 0 ==> end > 0
    {
      ConcatSplit(segs, i + 1);
      ConcatSnoc(segs, i);
      assert segs[i..][0] == segs[i] && segs[i..][1..] == segs[i + 1..];
      var next := end + |segs[i]|;
      if next > count && end > 0 {
        break;
      }
      end := next;
      i := i + 1;
      if end >= count {
        break;
      }
    }
    ConcatSplit(segs, k);
    return value[..end], value[end..];
  }

  // ---------------------------------------------------------------------------------------------------
  // Rate and credit of one message
  // ---------------------------------------------------------------------------------------------------

  type FrameId = nat

  datatype Controller = Controller(
    content: string,
    reasoning: string,
    lastFrameAt: real,
    sampleAt: real,
    sampleChars: nat,
    arrivalRate: real,
    rate: real,
    credit: real,
    frame: Option<FrameId>)

  function Buffered(c: Controller): nat {
    |c.content| + |c.reasoning|
  }

  function Max(a: real, b: real): real {
    if a >= b then a else b
  }

  function TargetRate(c: Controller): real {
    Max(Max(MIN_CHARS_PER_SECOND, c.arrivalRate), (Buffered(c) as real) * 1000.0 / CATCH_UP_MS)
  }

  /** Frame time that counts; the time of a hidden page or a long task is capped. */
  function Elapsed(c: Controller, now: real): real {
    if now <= c.lastFrameAt then 0.0
    else if now - c.lastFrameAt <= MAX_FRAME_MS then now - c.lastFrameAt
    else MAX_FRAME_MS
  }

  function Share(step: real, w: real): real {
    step * w
  }

  /** `w` is the exponential weight of the frame. */
  function NewRate(c: Controller, w: real): real {
    var target := TargetRate(c);
    var r := if c.rate == 0.0 then target else c.rate;
    r + Share(target - r, w)
  }

  function Earning(rate: real, elapsed: real): real {
    rate * elapsed / 1000.0
  }

  function Accrual(c: Controller, now: real, w: real): real {
    Earning(NewRate(c, w), Elapsed(c, now))
  }

  datatype Ticked = Ticked(c: Controller, content: string, reasoning: string, shown: bool)

  /** One frame of one message: what stays, what is shown. */
  function TickSpec(seg: Segmenter, c: Controller, now: real, w: real): Ticked {
    TickWith(seg, c, now, NewRate(c, w), Accrual(c, now, w))
  }

  /** The frame, given its new rate and what it earns. */
  function TickWith(seg: Segmenter, c: Controller, now: real, rate: real, earned: real): Ticked {
    if now <= c.lastFrameAt then Ticked(c, "", "", false)
    else
      var c1 := Stamped(c, now, rate, c.credit + earned);
      if c1.credit.Floor <= 0 then Ticked(c1, "", "", false)
      else
        var (content, contentRest) := Cut(seg, c.content, c1.credit.Floor);
        var (reasoning, reasoningRest) := Cut(seg, c.reasoning, c1.credit.Floor - |content|);
        Spent(c1, content, contentRest, reasoning, reasoningRest)
  }

  function Stamped(c: Controller, now: real, rate: real, credit: real): Controller {
    c.(lastFrameAt := now, rate := rate, credit := credit)
  }

  /** What is shown is paid for. */
  function Spent(c: Controller, content: string, contentRest: string, reasoning: string, reasoningRest: string): Ticked {
    Ticked(c.(content := contentRest, reasoning := reasoningRest, credit := c.credit - (|content| + |reasoning|) as real),
           content, reasoning, true)
  }

  /** What a live controller keeps between frames. */
  ghost predicate Paced(c: Controller, longest: nat) {
    && 1.0 - longest as real <= c.credit < longest as real
    && (c.rate == 0.0 || c.rate >= MIN_CHARS_PER_SECOND)
  }

  lemma MulOrder(a: real, b: real, x: real)
    requires a >= b && x >= 0.0
    ensures a * x >= b * x
  {
  }

  lemma ShareOfDrop(x: real, w: real)
    requires w < 1.0 && x <= 0.0
    ensures Share(x, w) >= x
  {
    var v := 1.0 - w;
    MulOrder(v, 0.0, -x);
    assert v * (-x) == x * w - x;
  }

  /** A weighted mean stays above what both ends are above. */
  lemma Mix(r: real, t: real, w: real, low: real)
    requires r >= low && t >= low && 0.0 < w < 1.0
    ensures r + Share(t - r, w) >= low
  {
    var x := t - r;
    if x >= 0.0 {
      MulOrder(w, 0.0, x);
      assert Share(x, w) >= 0.0;
    } else {
      ShareOfDrop(x, w);
    }
  }

  lemma RateFloor(c: Controller, now: real, w: real)
    requires c.rate == 0.0 || c.rate >= MIN_CHARS_PER_SECOND
    requires 0.0 < w < 1.0
    ensures NewRate(c, w) >= MIN_CHARS_PER_SECOND
    ensures Accrual(c, now, w) >= MIN_CHARS_PER_SECOND * Elapsed(c, now) / 1000.0
  {
    var target := TargetRate(c);
    var r := if c.rate == 0.0 then target else c.rate;
    Mix(r, target, w, MIN_CHARS_PER_SECOND);
    var rate, elapsed := NewRate(c, w), Elapsed(c, now);
    assert rate == r + Share(target - r, w);
    EarnsAtLeast(rate, elapsed);
  }

  lemma EarnsAtLeast(rate: real, elapsed: real)
    requires rate >= MIN_CHARS_PER_SECOND && elapsed >= 0.0
    ensures Earning(rate, elapsed) >= MIN_CHARS_PER_SECOND * elapsed / 1000.0
  {
    MulOrder(rate, MIN_CHARS_PER_SECOND, elapsed);
  }

  /**
   One frame: text is conserved in order, credit is what was earned minus what was shown, it stays above 1 - G, so no
   more is shown than earned plus G - 1, and while text is left it stays below G.
   */
  lemma TickRight(seg: Segmenter, c: Controller, now: real, w: real, longest: nat)
    requires Lawful(seg, longest) && Paced(c, longest) && 0.0 < w < 1.0
    ensures FrameRight(c, now, Accrual(c, now, w), TickSpec(seg, c, now, w), longest)
  {
    RateFloor(c, now, w);
    TickWithRight(seg, c, now, NewRate(c, w), Accrual(c, now, w), longest);
  }

  lemma TickWithRight(seg: Segmenter, c: Controller, now: real, rate: real, earned: real, longest: nat)
    requires Lawful(seg, longest) && Paced(c, longest) && rate >= MIN_CHARS_PER_SECOND && earned >= 0.0
    ensures FrameRight(c, now, earned, TickWith(seg, c, now, rate, earned), longest)
  {
    if now <= c.lastFrameAt {
      StillRight(c, now, earned, longest);
    } else if (c.credit + earned).Floor <= 0 {
      SavedRight(c, now, earned, rate, longest);
    } else {
      var content, contentRest, reasoning, reasoningRest := CutBoth(seg, c, (c.credit + earned).Floor, longest);
      SpentRight(c, now, earned, rate, content, contentRest, reasoning, reasoningRest, longest);
      SpentTick(seg, c, now, rate, earned, content, contentRest, reasoning, reasoningRest);
    }
  }

  lemma SpentTick(seg: Segmenter, c: Controller, now: real, rate: real, earned: real,
                  content: string, contentRest: string, reasoning: string, reasoningRest: string)
    requires now > c.lastFrameAt && (c.credit + earned).Floor > 0
    requires Cut(seg, c.content, (c.credit + earned).Floor) == (content, contentRest)
    requires Cut(seg, c.reasoning, (c.credit + earned).Floor - |content|) == (reasoning, reasoningRest)
    ensures TickWith(seg, c, now, rate, earned)
         == Spent(Stamped(c, now, rate, c.credit + earned), content, contentRest, reasoning, reasoningRest)
  {
  }

  lemma StillRight(c: Controller, now: real, earned: real, longest: nat)
    requires now <= c.lastFrameAt && earned >= 0.0 && Paced(c, longest)
    ensures FrameRight(c, now, earned, Ticked(c, "", "", false), longest)
  {
  }

  lemma SavedRight(c: Controller, now: real, earned: real, rate: real, longest: nat)
    requires now > c.lastFrameAt && earned >= 0.0 && Paced(c, longest) && rate >= MIN_CHARS_PER_SECOND && longest >= 1
    requires (c.credit + earned).Floor <= 0
    ensures FrameRight(c, now, earned, Ticked(Stamped(c, now, rate, c.credit + earned), "", "", false), longest)
  {
  }

  lemma SpentRight(c: Controller, now: real, earned: real, rate: real, content: string, contentRest: string,
                   reasoning: string, reasoningRest: string, longest: nat)
    requires now > c.lastFrameAt && rate >= MIN_CHARS_PER_SECOND
    requires content + contentRest == c.content && reasoning + reasoningRest == c.reasoning
    requires |content| + |reasoning| < (c.credit + earned).Floor + longest
    requires contentRest != "" || reasoningRest != "" ==> |content| + |reasoning| > (c.credit + earned).Floor - longest
    ensures FrameRight(c, now, earned, Spent(Stamped(c, now, rate, c.credit + earned), content, contentRest,
                                             reasoning, reasoningRest), longest)
  {
    CreditLeft(c.credit + earned, |content| + |reasoning|, longest);
  }

  /** What a frame that earns `earned` does. */
  predicate FrameRight(c: Controller, now: real, earned: real, t: Ticked, longest: nat) {
    && t.content + t.c.content == c.content && t.reasoning + t.c.reasoning == c.reasoning
    && (now > c.lastFrameAt ==> t.c.credit == c.credit + earned - (|t.content| + |t.reasoning|) as real)
    && (now <= c.lastFrameAt ==> t.c == c && !t.shown)
    && t.c.credit >= 1.0 - longest as real
    && (|t.content| + |t.reasoning|) as real <= c.credit + earned + (longest - 1) as real
    && (t.c.rate == 0.0 || t.c.rate >= MIN_CHARS_PER_SECOND)
    && (Buffered(t.c) > 0 ==> t.c.credit < longest as real)
    && (!t.shown ==> t.content == "" && t.reasoning == "")
  }

  /** The two cuts of a frame share one budget. */
  lemma CutBoth(seg: Segmenter, c: Controller, budget: nat, longest: nat)
    returns (content: string, contentRest: string, reasoning: string, reasoningRest: string)
    requires Lawful(seg, longest) && budget > 0
    ensures (content, contentRest) == Cut(seg, c.content, budget) && content + contentRest == c.content
    ensures (reasoning, reasoningRest) == Cut(seg, c.reasoning, budget - |content|)
    ensures reasoning + reasoningRest == c.reasoning
    ensures |content| + |reasoning| < budget + longest
    ensures contentRest != "" || reasoningRest != "" ==> |content| + |reasoning| > budget - longest
  {
    content, contentRest := Cut(seg, c.content, budget).0, Cut(seg, c.content, budget).1;
    reasoning := Cut(seg, c.reasoning, budget - |content|).0;
    reasoningRest := Cut(seg, c.reasoning, budget - |content|).1;
    CutRight(seg, c.content, budget, longest);
    CutRight(seg, c.reasoning, budget - |content|, longest);
  }

  lemma CreditLeft(credit: real, shown: nat, longest: nat)
    requires shown < credit.Floor + longest
    ensures credit - shown as real >= 1.0 - longest as real
    ensures shown > credit.Floor - longest ==> credit - shown as real < longest as real
  {
    assert credit.Floor as real <= credit < (credit.Floor + 1) as real;
    assert shown <= credit.Floor + longest - 1;
    assert shown > credit.Floor - longest ==> shown >= credit.Floor - longest + 1;
  }

  // ---------------------------------------------------------------------------------------------------
  // Draining a backlog
  // ---------------------------------------------------------------------------------------------------

  /** Frames of one message: when each runs, and its weight. */
  datatype Frame = Frame(now: real, w: real)

  predicate Weighted(fs: seq<Frame>) {
    forall i | 0 <= i < |fs| :: 0.0 < fs[i].w < 1.0
  }

  function TickAll(seg: Segmenter, c: Controller, fs: seq<Frame>): Controller
    decreases fs
  {
    if fs == [] then c else TickAll(seg, TickSpec(seg, c, fs[0].now, fs[0].w).c, fs[1..])
  }

  /** Counted frame time. */
  function Counted(seg: Segmenter, c: Controller, fs: seq<Frame>): real
    decreases fs
  {
    if fs == [] then 0.0
    else Elapsed(c, fs[0].now) + Counted(seg, TickSpec(seg, c, fs[0].now, fs[0].w).c, fs[1..])
  }

  lemma {:induction false} EmptyStaysEmpty(seg: Segmenter, c: Controller, fs: seq<Frame>)
    requires Buffered(c) == 0
    ensures Buffered(TickAll(seg, c, fs)) == 0
    decreases fs
  {
    if fs != [] {
      EmptyStaysEmpty(seg, TickSpec(seg, c, fs[0].now, fs[0].w).c, fs[1..]);
    }
  }

  /** One frame of text that is still left afterwards. */
  lemma FrameShows(seg: Segmenter, c: Controller, f: Frame, longest: nat)
    requires Lawful(seg, longest) && Paced(c, longest) && 0.0 < f.w < 1.0
    requires Buffered(TickSpec(seg, c, f.now, f.w).c) > 0
    ensures var c' := TickSpec(seg, c, f.now, f.w).c;
            && Paced(c', longest)
            && (Buffered(c) - Buffered(c')) as real
               >= c.credit - c'.credit + MIN_CHARS_PER_SECOND * Elapsed(c, f.now) / 1000.0
  {
    TickRight(seg, c, f.now, f.w, longest);
    RateFloor(c, f.now, f.w);
    var t := TickSpec(seg, c, f.now, f.w);
    assert |c.content| == |t.content| + |t.c.content| && |c.reasoning| == |t.reasoning| + |t.c.reasoning|;
  }

  /** While text is left, what has been shown is at least what the minimum rate earns, up to one segment. */
  lemma {:induction false} ShownAtLeast(seg: Segmenter, c: Controller, fs: seq<Frame>, longest: nat)
    requires Lawful(seg, longest) && Paced(c, longest) && Weighted(fs)
    requires Buffered(TickAll(seg, c, fs)) > 0
    ensures (Buffered(c) - Buffered(TickAll(seg, c, fs))) as real
            >= c.credit - TickAll(seg, c, fs).credit + MIN_CHARS_PER_SECOND * Counted(seg, c, fs) / 1000.0
    ensures Paced(TickAll(seg, c, fs), longest)
    decreases fs
  {
    if fs != [] {
      var c' := TickSpec(seg, c, fs[0].now, fs[0].w).c;
      if Buffered(c') == 0 {
        EmptyStaysEmpty(seg, c', fs[1..]);
      }
      FrameShows(seg, c, fs[0], longest);
      ShownAtLeast(seg, c', fs[1..], longest);
    }
  }

  /** One frame shows exactly what the credit pays for. */
  lemma FrameEarns(seg: Segmenter, c: Controller, f: Frame, longest: nat)
    requires Lawful(seg, longest) && Paced(c, longest) && 0.0 < f.w < 1.0
    ensures var c' := TickSpec(seg, c, f.now, f.w).c;
            && c'.credit >= 1.0 - longest as real
            && Paid(c, TickSpec(seg, c, f.now, f.w), Accrual(c, f.now, f.w))
            && (Buffered(c') > 0 ==> Paced(c', longest))
  {
    TickRight(seg, c, f.now, f.w, longest);
    if f.now <= c.lastFrameAt {
      NothingEarned(NewRate(c, f.w));
    }
  }

  lemma NothingEarned(rate: real)
    ensures Earning(rate, 0.0) == 0.0
  {
  }

  /** The credit after a frame is what there was and what was earned, less one for each unit shown. */
  predicate Paid(c: Controller, t: Ticked, earned: real) {
    t.c.credit == c.credit + earned - (|t.content| + |t.reasoning|) as real
  }

  /**
   Bounded drain: a backlog of L units that gets no further text is gone before the counted frame time reaches
   (L + G - credit) * 1000 / 32 milliseconds; a new message starts with credit 0.
   */
  lemma BacklogDrains(seg: Segmenter, c: Controller, fs: seq<Frame>, longest: nat)
    requires Lawful(seg, longest) && Paced(c, longest) && Weighted(fs)
    requires Counted(seg, c, fs) >= ((Buffered(c) + longest) as real - c.credit) * 1000.0 / MIN_CHARS_PER_SECOND
    ensures Buffered(TickAll(seg, c, fs)) == 0
  {
    if Buffered(TickAll(seg, c, fs)) > 0 {
      ShownAtLeast(seg, c, fs, longest);
      assert false;
    }
  }

  // ---------------------------------------------------------------------------------------------------
  // The rate follows backlog and arrivals
  // ---------------------------------------------------------------------------------------------------

  /** `t` is the largest of 32, the arrival rate, and what clears the backlog in 600 ms. */
  predicate Largest(t: real, c: Controller) {
    var backlog := (|c.content| + |c.reasoning|) as real;
    && t >= 32.0 && t >= c.arrivalRate && t >= backlog * 1000.0 / 600.0
    && (t == 32.0 || t == c.arrivalRate || t == backlog * 1000.0 / 600.0)
  }

  lemma ShareBetween(x: real, w: real)
    requires 0.0 < w < 1.0
    ensures x > 0.0 ==> 0.0 < Share(x, w) < x
    ensures x < 0.0 ==> x < Share(x, w) < 0.0
    ensures x == 0.0 ==> Share(x, w) == 0.0
  {
    var v := 1.0 - w;
    assert x * w + x * v == x;
    if x > 0.0 {
      assert x * w > 0.0 && x * v > 0.0;
    } else if x < 0.0 {
      assert x * w < 0.0 && x * v < 0.0;
    }
  }

  /**
   The first frame of a message plays at the largest of the three; every later frame moves the rate strictly towards the
   largest of the three as they are then, and not past it.
   */
  lemma RateFollows(seg: Segmenter, c: Controller, now: real, w: real, t: real)
    requires 0.0 < w < 1.0 && now > c.lastFrameAt && Largest(t, c)
    ensures var r := TickSpec(seg, c, now, w).c.rate;
            && (c.rate == 0.0 ==> r == t)
            && (0.0 != c.rate < t ==> c.rate < r < t)
            && (0.0 != c.rate > t ==> t < r < c.rate)
            && (c.rate == t ==> r == t)
  {
    assert TargetRate(c) == t;
    ShareBetween(if c.rate == 0.0 then 0.0 else t - c.rate, w);
  }

  /** The part of the backlog `b` that 600 ms would clear in `ms`. */
  function Part(b: real, ms: real): real {
    b * ms / 600.0
  }

  lemma PartAdds(b: real, ms: real, more: real)
    ensures Part(b, ms) + Part(b, more) == Part(b, ms + more)
  {
    assert b * ms + b * more == b * (ms + more);
  }

  lemma PartGrows(b: real, less: real, ms: real)
    requires b >= less && ms >= 0.0
    ensures Part(b, ms) >= Part(less, ms)
  {
    MulOrder(b, less, ms);
  }

  /** A rate that would clear the backlog in 600 ms earns the part of it. */
  lemma EarnsPart(rate: real, b: real, ms: real)
    requires rate >= b * 1000.0 / 600.0 && ms >= 0.0
    ensures Earning(rate, ms) >= Part(b, ms)
  {
    MulOrder(rate, b * 1000.0 / 600.0, ms);
    assert (b * 1000.0 / 600.0) * ms / 1000.0 == b * ms / 600.0;
  }

  lemma FirstEarns(c: Controller, now: real, w: real)
    requires 0.0 < w < 1.0 && c.rate == 0.0 && 0.0 < now - c.lastFrameAt <= 64.0
    ensures Accrual(c, now, w) >= Part(Buffered(c) as real, now - c.lastFrameAt)
    ensures Part(Buffered(c) as real, now - c.lastFrameAt) <= Buffered(c) as real
  {
    ShareBetween(0.0, w);
    EarnsPart(NewRate(c, w), Buffered(c) as real, now - c.lastFrameAt);
    PartAtMost(Buffered(c) as real, now - c.lastFrameAt);
  }

  /**
   A first frame of `e` milliseconds, at most 64, shows more than `backlog * e / 600` units less one segment, so that text
   that comes in bulk appears at once.
   */
  lemma FirstFrameShows(seg: Segmenter, c: Controller, now: real, w: real, longest: nat)
    requires Lawful(seg, longest) && Paced(c, longest) && 0.0 < w < 1.0 && c.rate == 0.0 && c.credit >= 0.0
    requires 0.0 < now - c.lastFrameAt <= 64.0
    ensures var t := TickSpec(seg, c, now, w);
            (|t.content| + |t.reasoning|) as real
            > Part((|c.content| + |c.reasoning|) as real, now - c.lastFrameAt) - longest as real
  {
    FirstEarns(c, now, w);
    TickRight(seg, c, now, w, longest);
    FirstFrameOf(c, now, Accrual(c, now, w), TickSpec(seg, c, now, w), Part(Buffered(c) as real, now - c.lastFrameAt), longest);
  }

  lemma FirstFrameOf(c: Controller, now: real, earned: real, t: Ticked, part: real, longest: nat)
    requires FrameRight(c, now, earned, t, longest) && now > c.lastFrameAt && longest >= 1 && c.credit >= 0.0
    requires earned >= part && part <= Buffered(c) as real
    ensures (|t.content| + |t.reasoning|) as real > part - longest as real
  {
    assert |c.content| == |t.content| + |t.c.content| && |c.reasoning| == |t.reasoning| + |t.c.reasoning|;
    ShowsThePart(Buffered(t.c), |t.content| + |t.reasoning|, c.credit, earned, t.c.credit, part, longest);
  }

  lemma PartAtMost(b: real, ms: real)
    requires b >= 0.0 && 0.0 <= ms <= 600.0
    ensures Part(b, ms) <= b
  {
    MulOrder(600.0, ms, b);
  }

  lemma PartAtLeast(b: real, ms: real)
    requires b >= 0.0 && ms >= 600.0
    ensures Part(b, ms) >= b
  {
    MulOrder(ms, 600.0, b);
  }

  lemma ShowsThePart(left: nat, shown: nat, credit: real, earned: real, after: real, part: real, longest: nat)
    requires longest >= 1 && credit >= 0.0 && earned >= part && part <= (left + shown) as real
    requires after == credit + earned - shown as real && (left > 0 ==> after < longest as real)
    ensures shown as real > part - longest as real
  {
  }

  /** No frame counts for more than 64 ms, whatever happened to the page meanwhile. */
  lemma LongFramesAreCut(c: Controller, now: real, w: real)
    requires 0.0 < w < 1.0 && (c.rate == 0.0 || c.rate >= 32.0)
    ensures now > c.lastFrameAt + 64.0 ==> Accrual(c, now, w) == Accrual(c, c.lastFrameAt + 64.0, w)
    ensures c.lastFrameAt < now <= c.lastFrameAt + 64.0 ==> Accrual(c, now, w) == NewRate(c, w) * (now - c.lastFrameAt) / 1000.0
  {
  }

  /** A frame hands something over to the thread if and only if a unit has been earned; else the buffers stay as they are. */
  lemma ShownIffEarned(seg: Segmenter, c: Controller, now: real, w: real)
    ensures var t := TickSpec(seg, c, now, w);
            && (t.shown <==> now > c.lastFrameAt && c.credit + Accrual(c, now, w) >= 1.0)
            && (!t.shown ==> t.content == "" == t.reasoning
                             && t.c.content == c.content && t.c.reasoning == c.reasoning)
  {
  }

  /** A new message plays nothing for 180 ms. */
  lemma NewMessageWaits(seg: Segmenter, chunk: Chunk, at: real, w: real, now: real, v: real)
    requires now <= at + 180.0
    ensures var c := Joined(None, chunk, at, w);
            TickSpec(seg, c, now, v) == Ticked(c, "", "", false) && c.rate == 0.0 && c.credit == 0.0
  {
  }

  /**
   The arrival rate is sampled over at least 200 ms: then it moves strictly towards what arrived per second since the last
   sample; before, it stays as it is and the text is counted.
   */
  lemma ArrivalsAreSampled(c: Controller, chunk: Chunk, now: real, w: real)
    requires 0.0 < w < 1.0
    ensures var c' := Joined(Some(c), chunk, now, w);
            var n := c.sampleChars + |chunk.content| + |chunk.reasoning|;
            if now - c.sampleAt < 200.0 then
              c'.arrivalRate == c.arrivalRate && c'.sampleChars == n && c'.sampleAt == c.sampleAt
            else
              var observed := n as real * 1000.0 / (now - c.sampleAt);
              && c'.sampleChars == 0 && c'.sampleAt == now
              && (observed > c.arrivalRate ==> c.arrivalRate < c'.arrivalRate < observed)
              && (observed < c.arrivalRate ==> observed < c'.arrivalRate < c.arrivalRate)
              && (observed == c.arrivalRate ==> c'.arrivalRate == observed)
  {
    if now - c.sampleAt >= 200.0 {
      var n := c.sampleChars + |chunk.content| + |chunk.reasoning|;
      ShareBetween(n as real * 1000.0 / (now - c.sampleAt) - c.arrivalRate, w);
    }
  }

  /** The message has not been played yet, or its rate would clear the backlog in 600 ms. */
  predicate Fast(c: Controller) {
    c.rate == 0.0 || c.rate >= (Buffered(c) as real) * 1000.0 / 600.0
  }

  /** A frame keeps a fast message fast, and earns its part of the backlog. */
  lemma FrameIsFast(seg: Segmenter, c: Controller, f: Frame, longest: nat)
    requires Lawful(seg, longest) && Paced(c, longest) && 0.0 < f.w < 1.0 && Fast(c)
    ensures Accrual(c, f.now, f.w) >= Part(Buffered(c) as real, Elapsed(c, f.now))
    ensures Fast(TickSpec(seg, c, f.now, f.w).c)
  {
    var target, low := TargetRate(c), (Buffered(c) as real) * 1000.0 / 600.0;
    var r := if c.rate == 0.0 then target else c.rate;
    Mix(r, target, f.w, low);
    EarnsPart(NewRate(c, f.w), Buffered(c) as real, Elapsed(c, f.now));
    TickRight(seg, c, f.now, f.w, longest);
    var t := TickSpec(seg, c, f.now, f.w);
    assert |c.content| == |t.content| + |t.c.content| && |c.reasoning| == |t.reasoning| + |t.c.reasoning|;
  }

  /** While text is left, what has been shown is at least the part that the text still left would have earned. */
  lemma {:induction false} ShownFast(seg: Segmenter, c: Controller, fs: seq<Frame>, longest: nat)
    requires Lawful(seg, longest) && Paced(c, longest) && Weighted(fs) && Fast(c)
    requires Buffered(TickAll(seg, c, fs)) > 0
    ensures var end := TickAll(seg, c, fs);
            && (Buffered(c) - Buffered(end)) as real
               >= c.credit - end.credit + Part(Buffered(end) as real, Counted(seg, c, fs))
            && Paced(end, longest) && Fast(end) && Buffered(c) >= Buffered(end)
    decreases fs
  {
    if fs != [] {
      var c', end := TickSpec(seg, c, fs[0].now, fs[0].w).c, TickAll(seg, c, fs);
      if Buffered(c') == 0 {
        EmptyStaysEmpty(seg, c', fs[1..]);
      }
      FrameShowsFast(seg, c, fs[0], longest);
      ShownFast(seg, c', fs[1..], longest);
      PartGrows(Buffered(c) as real, Buffered(end) as real, Elapsed(c, fs[0].now));
      PartAdds(Buffered(end) as real, Elapsed(c, fs[0].now), Counted(seg, c', fs[1..]));
    }
  }

  lemma FrameShowsFast(seg: Segmenter, c: Controller, f: Frame, longest: nat)
    requires Lawful(seg, longest) && Paced(c, longest) && 0.0 < f.w < 1.0 && Fast(c)
    requires Buffered(TickSpec(seg, c, f.now, f.w).c) > 0
    ensures var c' := TickSpec(seg, c, f.now, f.w).c;
            && Paced(c', longest) && Fast(c') && Buffered(c') <= Buffered(c)
            && (Buffered(c) - Buffered(c')) as real
               >= c.credit - c'.credit + Part(Buffered(c) as real, Elapsed(c, f.now))
  {
    FrameIsFast(seg, c, f, longest);
    FrameEarns(seg, c, f, longest);
    TickRight(seg, c, f.now, f.w, longest);
    var t := TickSpec(seg, c, f.now, f.w);
    assert |c.content| == |t.content| + |t.c.content| && |c.reasoning| == |t.reasoning| + |t.c.reasoning|;
  }

  /** 600 ms of counted frame time halve a backlog that gets no further text, up to one segment. */
  lemma BacklogHalves(seg: Segmenter, c: Controller, fs: seq<Frame>, longest: nat)
    requires Lawful(seg, longest) && Paced(c, longest) && Weighted(fs) && Fast(c)
    requires Counted(seg, c, fs) >= 600.0
    ensures var end := TickAll(seg, c, fs);
            Buffered(end) > 0 ==>
              && 2 * Buffered(end) < Buffered(c) + 2 * longest
              && Paced(end, longest) && Fast(end)
  {
    var end := TickAll(seg, c, fs);
    if Buffered(end) > 0 {
      ShownFast(seg, c, fs, longest);
      PartAtLeast(Buffered(end) as real, Counted(seg, c, fs));
      LessThanHalf(Buffered(c), Buffered(end), c.credit, end.credit, Part(Buffered(end) as real, Counted(seg, c, fs)), longest);
    }
  }

  lemma LessThanHalf(before: nat, left: nat, credit: real, after: real, part: real, longest: nat)
    requires left <= before && (before - left) as real >= credit - after + part && part >= left as real
    requires credit >= 1.0 - longest as real && after < longest as real
    ensures 2 * left < before + 2 * longest
  {
    assert (before - left) as real > (left - 2 * longest) as real;
  }

  function Doubled(k: nat): (d: nat)
    ensures d >= 1
  {
    if k == 0 then 1 else 2 * Doubled(k - 1)
  }

  /** Frames in stretches, one after the other. */
  function PlayAll(seg: Segmenter, c: Controller, stretches: seq<seq<Frame>>): Controller
    decreases stretches
  {
    if stretches == [] then c else PlayAll(seg, TickAll(seg, c, stretches[0]), stretches[1..])
  }

  /** Each of the stretches counts for at least 600 ms. */
  predicate Long(seg: Segmenter, c: Controller, stretches: seq<seq<Frame>>)
    decreases stretches
  {
    stretches == []
    || (&& Weighted(stretches[0]) && Counted(seg, c, stretches[0]) >= 600.0
        && Long(seg, TickAll(seg, c, stretches[0]), stretches[1..]))
  }

  lemma {:induction false} EmptyStaysEmptyLong(seg: Segmenter, c: Controller, stretches: seq<seq<Frame>>)
    requires Buffered(c) == 0
    ensures Buffered(PlayAll(seg, c, stretches)) == 0
    decreases stretches
  {
    if stretches != [] {
      EmptyStaysEmpty(seg, c, stretches[0]);
      EmptyStaysEmptyLong(seg, TickAll(seg, c, stretches[0]), stretches[1..]);
    }
  }

  /** At most the `d`-th part of the backlog is left, and two segments. */
  predicate Within(left: nat, d: nat, before: nat, longest: nat) {
    left * d <= before + 2 * longest * (d - 1)
  }

  /**
   Fast drain: after k stretches of 600 ms of counted frame time at most 1 / 2^k of a backlog that gets no further text is
   left, and two segments. So a long backlog takes a time that grows with its logarithm, not with its length.
   */
  lemma {:induction false} DrainsByHalves(seg: Segmenter, c: Controller, stretches: seq<seq<Frame>>, longest: nat)
    requires Lawful(seg, longest) && Paced(c, longest) && Fast(c) && Long(seg, c, stretches)
    ensures Within(Buffered(PlayAll(seg, c, stretches)), Doubled(|stretches|), Buffered(c), longest)
    decreases stretches
  {
    if stretches == [] {
      WithinOne(Buffered(c), longest);
    } else {
      var k, next := |stretches|, TickAll(seg, c, stretches[0]);
      if Buffered(next) == 0 {
        EmptyStaysEmptyLong(seg, next, stretches[1..]);
        WithinNothing(Doubled(k), Buffered(c), longest);
      } else {
        BacklogHalves(seg, c, stretches[0], longest);
        DrainsByHalves(seg, next, stretches[1..], longest);
        WithinTwice(Buffered(PlayAll(seg, next, stretches[1..])), Doubled(k - 1), Buffered(next), Buffered(c), longest);
      }
    }
  }

  lemma WithinOne(before: nat, longest: nat)
    ensures Within(before, 1, before, longest)
  {
  }

  lemma WithinNothing(d: nat, before: nat, longest: nat)
    requires d >= 1
    ensures Within(0, d, before, longest)
  {
  }

  lemma WithinTwice(left: nat, d: nat, now: nat, before: nat, longest: nat)
    requires Within(left, d, now, longest) && 2 * now < before + 2 * longest
    ensures Within(left, 2 * d, before, longest)
  {
    assert left * (2 * d) == 2 * (left * d);
    assert 2 * longest * (2 * d - 1) == 2 * (2 * longest * (d - 1)) + 2 * longest;
  }

  // ---------------------------------------------------------------------------------------------------
  // All messages of all threads
  // ---------------------------------------------------------------------------------------------------

  datatype Key = Key(thread: Id, message: Id)

  datatype Chunk = Chunk(id: Id, content: string, reasoning: string, hasToolCalls: bool)

  /** The two text channels of a message. */
  datatype Text = Text(content: string, reasoning: string)

  const NO_TEXT := Text("", "")

  function Plus(a: Text, b: Text): Text {
    Text(a.content + b.content, a.reasoning + b.reasoning)
  }

  function TextOf(c: Chunk): Text {
    Text(c.content, c.reasoning)
  }

  /** The text a reader of the message sees: all its chunks in order. */
  function Shown(chunks: seq<Chunk>): Text {
    if chunks == [] then NO_TEXT else Plus(Shown(chunks[..|chunks| - 1]), TextOf(chunks[|chunks| - 1]))
  }

  lemma ShownMore(chunks: seq<Chunk>, c: Chunk)
    ensures Shown(chunks + [c]) == Plus(Shown(chunks), TextOf(c))
  {
    assert (chunks + [c])[..|chunks|] == chunks;
  }

  lemma PlusAssociates(a: Text, b: Text, c: Text)
    ensures Plus(Plus(a, b), c) == Plus(a, Plus(b, c))
    ensures Plus(a, NO_TEXT) == a == Plus(NO_TEXT, a)
  {
    assert (a.content + b.content) + c.content == a.content + (b.content + c.content);
    assert (a.reasoning + b.reasoning) + c.reasoning == a.reasoning + (b.reasoning + c.reasoning);
    assert a.content + "" == a.content && a.reasoning + "" == a.reasoning;
  }

  function ChunksIn(delivered: map<Key, seq<Chunk>>, k: Key): seq<Chunk> {
    if k in delivered then delivered[k] else []
  }

  function BufferIn(controllers: map<Key, Controller>, k: Key): Text {
    if k in controllers then Text(controllers[k].content, controllers[k].reasoning) else NO_TEXT
  }

  function OwedIn(pushed: map<Key, Text>, k: Key): Text {
    if k in pushed then pushed[k] else NO_TEXT
  }

  /** Live controllers and scheduled frames match one to one. */
  ghost predicate FramesRight(controllers: map<Key, Controller>, frames: map<FrameId, Key>, nextFrame: FrameId) {
    && (forall k | k in controllers ::
          controllers[k].frame.Some? && controllers[k].frame.value in frames && frames[controllers[k].frame.value] == k)
    && (forall f | f in frames ::
          f < nextFrame && frames[f] in controllers && controllers[frames[f]].frame == Some(f))
  }

  /** The controllers without those of `k`. */
  function Without<K, V>(m: map<K, V>, k: K): map<K, V> {
    m - {k}
  }

  /** What was handed over is what is shown followed by what is still buffered. */
  ghost predicate Keeps(delivered: map<Key, seq<Chunk>>, controllers: map<Key, Controller>, pushed: map<Key, Text>, k: Key) {
    Plus(Shown(ChunksIn(delivered, k)), BufferIn(controllers, k)) == OwedIn(pushed, k)
  }

  ghost predicate Conserved(threads: set<Id>, delivered: map<Key, seq<Chunk>>, controllers: map<Key, Controller>,
                            pushed: map<Key, Text>) {
    forall k: Key | k.thread in threads :: Keeps(delivered, controllers, pushed, k)
  }

  ghost predicate Live(controllers: map<Key, Controller>, longest: nat) {
    forall k | k in controllers :: k.message != "" && Paced(controllers[k], longest) && Buffered(controllers[k]) > 0
  }

  lemma FramesWithout(controllers: map<Key, Controller>, frames: map<FrameId, Key>, nextFrame: FrameId, k: Key)
    requires FramesRight(controllers, frames, nextFrame) && k in controllers
    ensures FramesRight(Without(controllers, k), Without(frames, controllers[k].frame.value), nextFrame)
    ensures forall f | f in Without(frames, controllers[k].frame.value) :: frames[f] != k
  {
  }

  /** Text is conserved when only `k` changes and `k` keeps its own. */
  lemma Elsewhere(threads: set<Id>, k: Key,
                  d0: map<Key, seq<Chunk>>, c0: map<Key, Controller>, p0: map<Key, Text>,
                  d1: map<Key, seq<Chunk>>, c1: map<Key, Controller>, p1: map<Key, Text>)
    requires Conserved(threads, d0, c0, p0)
    requires forall x | x != k ::
        ChunksIn(d1, x) == ChunksIn(d0, x) && BufferIn(c1, x) == BufferIn(c0, x) && OwedIn(p1, x) == OwedIn(p0, x)
    requires k.thread in threads ==> Keeps(d1, c1, p1, k)
    ensures Conserved(threads, d1, c1, p1)
  {
    forall x: Key | x.thread in threads ensures Keeps(d1, c1, p1, x) {
      if x != k {
        assert Keeps(d0, c0, p0, x);
      }
    }
  }

  /** One more chunk of the message, if the thread has a state. */
  function Deliver(threads: set<Id>, delivered: map<Key, seq<Chunk>>, k: Key, chunk: Chunk): map<Key, seq<Chunk>> {
    if k.thread in threads then delivered[k := ChunksIn(delivered, k) + [chunk]] else delivered
  }

  /** What is left of a message as one chunk. */
  function Rest(k: Key, c: Controller): Chunk {
    Chunk(k.message, c.content, c.reasoning, false)
  }

  lemma DeliverShows(threads: set<Id>, delivered: map<Key, seq<Chunk>>, k: Key, chunk: Chunk)
    requires k.thread in threads
    ensures Shown(ChunksIn(Deliver(threads, delivered, k, chunk), k)) == Plus(Shown(ChunksIn(delivered, k)), TextOf(chunk))
  {
    ShownMore(ChunksIn(delivered, k), chunk);
  }

  /** Delivering the rest of `k` shows all its text and conserves all text. */
  lemma FlushSound(threads: set<Id>, delivered: map<Key, seq<Chunk>>, controllers: map<Key, Controller>,
                   pushed: map<Key, Text>, k: Key)
    requires Conserved(threads, delivered, controllers, pushed) && k in controllers
    ensures var after := Deliver(threads, delivered, k, Rest(k, controllers[k]));
            && (k.thread in threads ==> Shown(ChunksIn(after, k)) == OwedIn(pushed, k))
            && Conserved(threads, after, Without(controllers, k), pushed)
  {
    var after := Deliver(threads, delivered, k, Rest(k, controllers[k]));
    if k.thread in threads {
      DeliverShows(threads, delivered, k, Rest(k, controllers[k]));
      assert Keeps(delivered, controllers, pushed, k);
      PlusAssociates(OwedIn(pushed, k), NO_TEXT, NO_TEXT);
    }
    Elsewhere(threads, k, delivered, controllers, pushed, after, Without(controllers, k), pushed);
  }

  /** A message without a controller shows all it is owed. */
  lemma NothingLeft(threads: set<Id>, delivered: map<Key, seq<Chunk>>, controllers: map<Key, Controller>,
                    pushed: map<Key, Text>, k: Key)
    requires Conserved(threads, delivered, controllers, pushed) && k !in controllers && k.thread in threads
    ensures Shown(ChunksIn(delivered, k)) == OwedIn(pushed, k)
  {
    assert Keeps(delivered, controllers, pushed, k);
    PlusAssociates(Shown(ChunksIn(delivered, k)), NO_TEXT, NO_TEXT);
  }

  function FindIn(controllers: map<Key, Controller>, k: Key): Option<Controller> {
    if k in controllers then Some(controllers[k]) else None
  }

  /** The controller of a message once it has taken a chunk; `w` is the exponential weight of the sample. */
  function Joined(known: Option<Controller>, chunk: Chunk, now: real, w: real): Controller {
    var c0 := if known.Some? then known.value
              else Controller("", "", now + START_BUFFER_MS, now, 0, 0.0, 0.0, 0.0, None);
    var c := c0.(content := c0.content + chunk.content, reasoning := c0.reasoning + chunk.reasoning,
                 sampleChars := c0.sampleChars + |chunk.content| + |chunk.reasoning|);
    if now - c.sampleAt < RATE_SAMPLE_MS then c
    else
      var observed := (c.sampleChars as real) * 1000.0 / (now - c.sampleAt);
      c.(arrivalRate := c.arrivalRate + Share(observed - c.arrivalRate, w), sampleChars := 0, sampleAt := now)
  }

  lemma JoinedRight(known: Option<Controller>, chunk: Chunk, now: real, w: real, longest: nat)
    requires longest >= 1 && TextOf(chunk) != NO_TEXT
    requires known.Some? ==> Paced(known.value, longest)
    ensures Paced(Joined(known, chunk, now, w), longest) && Buffered(Joined(known, chunk, now, w)) > 0
    ensures var c := Joined(known, chunk, now, w);
            Text(c.content, c.reasoning)
            == Plus(if known.Some? then Text(known.value.content, known.value.reasoning) else NO_TEXT, TextOf(chunk))
    ensures Joined(known, chunk, now, w).frame == if known.Some? then known.value.frame else None
  {
  }

  /** Scheduling a frame for a message that has none. */
  lemma FramesWith(controllers: map<Key, Controller>, frames: map<FrameId, Key>, nextFrame: FrameId, k: Key, c: Controller)
    requires FramesRight(controllers, frames, nextFrame)
    requires c.frame == if k in controllers then controllers[k].frame else None
    ensures c.frame.Some? ==> FramesRight(controllers[k := c], frames, nextFrame)
    ensures c.frame == None ==>
        FramesRight(controllers[k := c.(frame := Some(nextFrame))], frames[nextFrame := k], nextFrame + 1)
  {
  }

  /** A chunk delivered at once keeps the order when nothing is buffered before it or it has no text. */
  lemma PushDelivered(threads: set<Id>, delivered: map<Key, seq<Chunk>>, controllers: map<Key, Controller>,
                      pushed: map<Key, Text>, k: Key, chunk: Chunk)
    requires Conserved(threads, delivered, controllers, pushed) && k.thread in threads
    requires k !in controllers || TextOf(chunk) == NO_TEXT
    ensures Conserved(threads, Deliver(threads, delivered, k, chunk), controllers,
                      pushed[k := Plus(OwedIn(pushed, k), TextOf(chunk))])
  {
    var after, owed := Deliver(threads, delivered, k, chunk), pushed[k := Plus(OwedIn(pushed, k), TextOf(chunk))];
    DeliverShows(threads, delivered, k, chunk);
    assert Keeps(delivered, controllers, pushed, k);
    PlusAssociates(Shown(ChunksIn(delivered, k)), NO_TEXT, NO_TEXT);
    PlusAssociates(OwedIn(pushed, k), TextOf(chunk), NO_TEXT);
    PlusAssociates(Plus(Shown(ChunksIn(delivered, k)), TextOf(chunk)), NO_TEXT, NO_TEXT);
    Elsewhere(threads, k, delivered, controllers, pushed, after, controllers, owed);
  }

  /** An empty chunk shows nothing. */
  lemma EmptyKeeps(threads: set<Id>, delivered: map<Key, seq<Chunk>>, controllers: map<Key, Controller>,
                   pushed: map<Key, Text>, k: Key, chunk: Chunk)
    requires Conserved(threads, delivered, controllers, pushed) && k.thread in threads && TextOf(chunk) == NO_TEXT
    ensures Conserved(threads, Deliver(threads, delivered, k, chunk), controllers, pushed)
    ensures Shown(ChunksIn(Deliver(threads, delivered, k, chunk), k)) == Shown(ChunksIn(delivered, k))
  {
    var after := Deliver(threads, delivered, k, chunk);
    DeliverShows(threads, delivered, k, chunk);
    PlusAssociates(Shown(ChunksIn(delivered, k)), NO_TEXT, NO_TEXT);
    assert Keeps(delivered, controllers, pushed, k);
    Elsewhere(threads, k, delivered, controllers, pushed, after, controllers, pushed);
  }

  lemma LastDelivered(threads: set<Id>, delivered: map<Key, seq<Chunk>>, k: Key, chunk: Chunk)
    requires k.thread in threads
    ensures var all := ChunksIn(Deliver(threads, delivered, k, chunk), k);
            |all| > 0 && all[|all| - 1] == chunk && all[..|all| - 1] == ChunksIn(delivered, k)
  {
  }

  /** A chunk that joins the buffer comes after everything else of its message. */
  lemma PushBuffered(threads: set<Id>, delivered: map<Key, seq<Chunk>>, controllers: map<Key, Controller>,
                     pushed: map<Key, Text>, k: Key, chunk: Chunk, c: Controller)
    requires Conserved(threads, delivered, controllers, pushed) && k.thread in threads
    requires Text(c.content, c.reasoning) == Plus(BufferIn(controllers, k), TextOf(chunk))
    ensures Conserved(threads, delivered, controllers[k := c], pushed[k := Plus(OwedIn(pushed, k), TextOf(chunk))])
  {
    assert Keeps(delivered, controllers, pushed, k);
    PlusAssociates(Shown(ChunksIn(delivered, k)), BufferIn(controllers, k), TextOf(chunk));
    Elsewhere(threads, k, delivered, controllers, pushed,
              delivered, controllers[k := c], pushed[k := Plus(OwedIn(pushed, k), TextOf(chunk))]);
  }

  lemma LiveWith(controllers: map<Key, Controller>, k: Key, c: Controller, longest: nat)
    requires Live(controllers, longest) && k.message != "" && Paced(c, longest) && Buffered(c) > 0
    ensures Live(controllers[k := c], longest)
  {
  }

  /** The fired frame gives way to a new one. */
  lemma FramesAgain(controllers: map<Key, Controller>, frames: map<FrameId, Key>, nextFrame: FrameId, f: FrameId, c: Controller)
    requires FramesRight(controllers, frames, nextFrame) && f in frames
    ensures FramesRight(controllers[frames[f] := c.(frame := Some(nextFrame))], Without(frames, f)[nextFrame := frames[f]], nextFrame + 1)
  {
  }

  /** What is delivered once a frame has run. */
  function AfterFrame(threads: set<Id>, delivered: map<Key, seq<Chunk>>, k: Key, t: Ticked): map<Key, seq<Chunk>> {
    if t.shown then Deliver(threads, delivered, k, Chunk(k.message, t.content, t.reasoning, false)) else delivered
  }

  /** A frame moves text from the front of the buffer to the end of what is shown. */
  lemma TickKeeps(threads: set<Id>, delivered: map<Key, seq<Chunk>>, controllers: map<Key, Controller>,
                  pushed: map<Key, Text>, k: Key, t: Ticked, c1: map<Key, Controller>)
    requires Conserved(threads, delivered, controllers, pushed) && k.thread in threads && k in controllers
    requires Plus(Text(t.content, t.reasoning), Text(t.c.content, t.c.reasoning)) == BufferIn(controllers, k)
    requires !t.shown ==> t.content == t.reasoning == ""
    requires BufferIn(c1, k) == Text(t.c.content, t.c.reasoning) && Without(c1, k) == Without(controllers, k)
    ensures Conserved(threads, AfterFrame(threads, delivered, k, t), c1, pushed)
  {
    var chunk := Chunk(k.message, t.content, t.reasoning, false);
    var after := AfterFrame(threads, delivered, k, t);
    var before := Shown(ChunksIn(delivered, k));
    assert Keeps(delivered, controllers, pushed, k);
    DeliverShows(threads, delivered, k, chunk);
    PlusAssociates(before, TextOf(chunk), Text(t.c.content, t.c.reasoning));
    PlusAssociates(before, NO_TEXT, NO_TEXT);
    forall x | x != k ensures BufferIn(c1, x) == BufferIn(controllers, x) {
      assert x in Without(c1, k) <==> x in Without(controllers, k);
    }
    Elsewhere(threads, k, delivered, controllers, pushed, after, c1, pushed);
  }

  lemma TickKeepsOn(threads: set<Id>, delivered: map<Key, seq<Chunk>>, controllers: map<Key, Controller>,
                    pushed: map<Key, Text>, k: Key, t: Ticked, c: Controller)
    requires Conserved(threads, delivered, controllers, pushed) && k.thread in threads && k in controllers
    requires Plus(Text(t.content, t.reasoning), Text(t.c.content, t.c.reasoning)) == BufferIn(controllers, k)
    requires !t.shown ==> t.content == t.reasoning == ""
    requires c.content == t.c.content && c.reasoning == t.c.reasoning
    ensures Conserved(threads, AfterFrame(threads, delivered, k, t), controllers[k := c], pushed)
  {
    WithoutSame(controllers, k, c);
    TickKeeps(threads, delivered, controllers, pushed, k, t, controllers[k := c]);
  }

  lemma TickKeepsOut(threads: set<Id>, delivered: map<Key, seq<Chunk>>, controllers: map<Key, Controller>,
                     pushed: map<Key, Text>, k: Key, t: Ticked)
    requires Conserved(threads, delivered, controllers, pushed) && k.thread in threads && k in controllers
    requires Plus(Text(t.content, t.reasoning), Text(t.c.content, t.c.reasoning)) == BufferIn(controllers, k)
    requires !t.shown ==> t.content == t.reasoning == ""
    requires Buffered(t.c) == 0
    ensures Conserved(threads, AfterFrame(threads, delivered, k, t), Without(controllers, k), pushed)
  {
    WithoutSame(controllers, k, t.c);
    TickKeeps(threads, delivered, controllers, pushed, k, t, Without(controllers, k));
  }

  lemma WithoutSame<K, V>(m: map<K, V>, k: K, v: V)
    ensures Without(m[k := v], k) == Without(m, k) == Without(Without(m, k), k)
  {
  }

  function OfOthers(controllers: map<Key, Controller>, t: Id): map<Key, Controller> {
    controllers - set k | k in controllers && k.thread == t
  }

  /** Text that is thrown away is no longer owed. */
  function DropOwed(pushed: map<Key, Text>, delivered: map<Key, seq<Chunk>>, gone: set<Key>): map<Key, Text> {
    pushed + map k | k in gone :: Shown(ChunksIn(delivered, k))
  }

  /** What is delivered for the threads other than `t`. */
  function DeliveredOutside(delivered: map<Key, seq<Chunk>>, t: Id): map<Key, seq<Chunk>> {
    delivered - set k | k in delivered && k.thread == t
  }

  lemma OthersDelivered(threads: set<Id>, delivered: map<Key, seq<Chunk>>, k: Key, chunk: Chunk)
    ensures DeliveredOutside(Deliver(threads, delivered, k, chunk), k.thread) == DeliveredOutside(delivered, k.thread)
  {
  }

  lemma OthersWithout(controllers: map<Key, Controller>, k: Key)
    ensures OfOthers(Without(controllers, k), k.thread) == OfOthers(controllers, k.thread)
  {
  }

  /** A thread without controllers shows all it is owed. */
  lemma AllShown(threads: set<Id>, delivered: map<Key, seq<Chunk>>, controllers: map<Key, Controller>,
                 pushed: map<Key, Text>, t: Id)
    requires Conserved(threads, delivered, controllers, pushed) && t in threads
    requires forall k | k in controllers :: k.thread != t
    ensures forall k: Key | k.thread == t :: Shown(ChunksIn(delivered, k)) == OwedIn(pushed, k)
  {
    forall k: Key | k.thread == t ensures Shown(ChunksIn(delivered, k)) == OwedIn(pushed, k) {
      NothingLeft(threads, delivered, controllers, pushed, k);
    }
  }

  /** The controllers a reset leaves. */
  function AfterReset(controllers: map<Key, Controller>, which: Option<Id>): map<Key, Controller> {
    if which.Some? then OfOthers(controllers, which.value) else map[]
  }

  function FramesOf(frames: map<FrameId, Key>, controllers: map<Key, Controller>): map<FrameId, Key> {
    frames - set f | f in frames && frames[f] !in controllers
  }

  lemma ResetRight(threads: set<Id>, delivered: map<Key, seq<Chunk>>, controllers: map<Key, Controller>,
                   frames: map<FrameId, Key>, nextFrame: FrameId, pushed: map<Key, Text>, which: Option<Id>, longest: nat)
    requires Conserved(threads, delivered, controllers, pushed) && FramesRight(controllers, frames, nextFrame)
    requires Live(controllers, longest)
    ensures var left := AfterReset(controllers, which);
            && Live(left, longest)
            && FramesRight(left, FramesOf(frames, left), nextFrame)
            && Conserved(threads, delivered, left, DropOwed(pushed, delivered, controllers.Keys - left.Keys))
  {
    var left := AfterReset(controllers, which);
    var owed := DropOwed(pushed, delivered, controllers.Keys - left.Keys);
    forall k: Key | k.thread in threads ensures Keeps(delivered, left, owed, k) {
      if k in controllers && k !in left {
        PlusAssociates(Shown(ChunksIn(delivered, k)), NO_TEXT, NO_TEXT);
      } else {
        assert Keeps(delivered, controllers, pushed, k);
      }
    }
  }

  /** What a thread with a new state is owed: what is still buffered for it. */
  function OwedAnew(pushed: map<Key, Text>, controllers: map<Key, Controller>, t: Id): map<Key, Text> {
    (pushed - set k | k in pushed && k.thread == t)
    + (map k | k in controllers && k.thread == t :: BufferIn(controllers, k))
  }

  lemma AttachKeeps(threads: set<Id>, t: Id, delivered: map<Key, seq<Chunk>>, controllers: map<Key, Controller>,
                    pushed: map<Key, Text>)
    requires Conserved(threads, delivered, controllers, pushed) && t !in threads
    requires forall k | k in delivered :: k.thread in threads
    ensures Conserved(threads + {t}, delivered, controllers, OwedAnew(pushed, controllers, t))
  {
    var owed := OwedAnew(pushed, controllers, t);
    forall k: Key | k.thread in threads + {t} ensures Keeps(delivered, controllers, owed, k) {
      if k.thread == t {
        PlusAssociates(BufferIn(controllers, k), NO_TEXT, NO_TEXT);
      } else {
        assert Keeps(delivered, controllers, pushed, k);
      }
    }
  }

  /** What happens to a message while it is played: a frame, or text that arrives; with its time and its weight. */
  datatype Op = Frames(now: real, w: real) | Arrives(chunk: Chunk, now: real, w: real)

  predicate GoodOps(ops: seq<Op>) {
    forall i | 0 <= i < |ops| :: 0.0 < ops[i].w < 1.0 && (ops[i].Arrives? ==> TextOf(ops[i].chunk) != NO_TEXT)
  }

  function Played(seg: Segmenter, c: Controller, op: Op): Controller {
    match op
    case Frames(now, w) => TickSpec(seg, c, now, w).c
    case Arrives(chunk, now, w) => Joined(Some(c), chunk, now, w)
  }

  function PlayedAll(seg: Segmenter, c: Controller, ops: seq<Op>): Controller {
    if ops == [] then c else Played(seg, PlayedAll(seg, c, ops[..|ops| - 1]), ops[|ops| - 1])
  }

  /** Units shown. */
  function ShownUnits(seg: Segmenter, c: Controller, ops: seq<Op>): nat {
    if ops == [] then 0
    else
      var before, op := PlayedAll(seg, c, ops[..|ops| - 1]), ops[|ops| - 1];
      ShownUnits(seg, c, ops[..|ops| - 1])
      + if op.Frames? then
          var t := TickSpec(seg, before, op.now, op.w);
          |t.content| + |t.reasoning|
        else 0
  }

  /** Credit earned. */
  function Earned(seg: Segmenter, c: Controller, ops: seq<Op>): real {
    if ops == [] then 0.0
    else
      var before, op := PlayedAll(seg, c, ops[..|ops| - 1]), ops[|ops| - 1];
      Earned(seg, c, ops[..|ops| - 1]) + if op.Frames? then Accrual(before, op.now, op.w) else 0.0
  }

  /** The message is played all the time: text is left before every one of these. */
  predicate AlwaysLeft(seg: Segmenter, c: Controller, ops: seq<Op>) {
    ops == []
    || (AlwaysLeft(seg, c, ops[..|ops| - 1]) && Buffered(PlayedAll(seg, c, ops[..|ops| - 1])) > 0)
  }

  /**
   Pacing: however frames and arriving text are mixed, what a message has shown is what it earned less the credit that is
   left, and never more than the credit it had and earned, plus less than one segment. A new message has no credit.
   */
  lemma {:induction false} ShownAtMost(seg: Segmenter, c: Controller, ops: seq<Op>, longest: nat)
    requires Lawful(seg, longest) && Paced(c, longest) && GoodOps(ops) && AlwaysLeft(seg, c, ops)
    ensures ShownUnits(seg, c, ops) as real == c.credit + Earned(seg, c, ops) - PlayedAll(seg, c, ops).credit
    ensures ShownUnits(seg, c, ops) as real <= c.credit + Earned(seg, c, ops) + (longest - 1) as real
    ensures PlayedAll(seg, c, ops).credit >= 1.0 - longest as real
    ensures Buffered(PlayedAll(seg, c, ops)) > 0 ==> Paced(PlayedAll(seg, c, ops), longest)
  {
    if ops != [] {
      var before, op := PlayedAll(seg, c, ops[..|ops| - 1]), ops[|ops| - 1];
      ShownAtMost(seg, c, ops[..|ops| - 1], longest);
      match op
      case Frames(now, w) => FrameEarns(seg, before, Frame(now, w), longest);
      case Arrives(chunk, now, w) => JoinedRight(Some(before), chunk, now, w, longest);
    }
  }

  /** The totals of a message while it has a controller: credit earned, units shown. */
  datatype Book = Book(earned: real, shown: nat)

  ghost predicate Booked(controllers: map<Key, Controller>, books: map<Key, Book>) {
    forall k | k in controllers :: k in books && controllers[k].credit == books[k].earned - books[k].shown as real
  }

  function BookFrame(books: map<Key, Book>, k: Key, earned: real, t: Ticked): map<Key, Book>
    requires k in books
  {
    books[k := Book(books[k].earned + earned, books[k].shown + |t.content| + |t.reasoning|)]
  }

  ghost predicate Sound(threads: set<Id>, delivered: map<Key, seq<Chunk>>, controllers: map<Key, Controller>,
                        frames: map<FrameId, Key>, nextFrame: FrameId, pushed: map<Key, Text>, books: map<Key, Book>,
                        longest: nat) {
    && FramesRight(controllers, frames, nextFrame)
    && Live(controllers, longest)
    && Conserved(threads, delivered, controllers, pushed)
    && Booked(controllers, books)
    && (forall k | k in delivered :: k.thread in threads)
  }

  /** What a frame `t` that earned `earned` has to be for the controller `c`. */
  predicate FrameOf(c: Controller, t: Ticked, earned: real) {
    && Plus(Text(t.content, t.reasoning), Text(t.c.content, t.c.reasoning)) == Text(c.content, c.reasoning)
    && (!t.shown ==> t.content == t.reasoning == "")
    && Paid(c, t, earned)
  }

  lemma FrameDelivered(threads: set<Id>, delivered: map<Key, seq<Chunk>>, k: Key, t: Ticked)
    requires (forall x | x in delivered :: x.thread in threads) && k.thread in threads
    ensures forall x | x in AfterFrame(threads, delivered, k, t) :: x.thread in threads
  {
  }

  /** A frame after which text is left. */
  lemma OnSound(threads: set<Id>, delivered: map<Key, seq<Chunk>>, controllers: map<Key, Controller>,
                frames: map<FrameId, Key>, nextFrame: FrameId, pushed: map<Key, Text>, books: map<Key, Book>,
                longest: nat, f: FrameId, k: Key, t: Ticked, earned: real)
    requires Sound(threads, delivered, controllers, frames, nextFrame, pushed, books, longest)
    requires f in frames && k == frames[f] && k.thread in threads && k in controllers && k in books
    requires FrameOf(controllers[k], t, earned) && Buffered(t.c) > 0 && Paced(t.c, longest)
    ensures Sound(threads, AfterFrame(threads, delivered, k, t), controllers[k := t.c.(frame := Some(nextFrame))],
                  Without(frames, f)[nextFrame := k], nextFrame + 1, pushed, BookFrame(books, k, earned, t), longest)
  {
    var c := t.c.(frame := Some(nextFrame));
    FramesAgain(controllers, frames, nextFrame, f, t.c);
    LiveWith(controllers, k, c, longest);
    TickKeepsOn(threads, delivered, controllers, pushed, k, t, c);
    BookedOn(controllers, books, k, t, c, earned);
    FrameDelivered(threads, delivered, k, t);
  }

  lemma BookedOn(controllers: map<Key, Controller>, books: map<Key, Book>, k: Key, t: Ticked, c: Controller, earned: real)
    requires Booked(controllers, books) && k in controllers && k in books && Paid(controllers[k], t, earned)
    requires c.credit == t.c.credit
    ensures Booked(controllers[k := c], BookFrame(books, k, earned, t))
  {
  }

  lemma LiveWithout(controllers: map<Key, Controller>, books: map<Key, Book>, k: Key, earned: real, t: Ticked, longest: nat)
    requires Live(controllers, longest) && Booked(controllers, books) && k in books
    ensures Live(Without(controllers, k), longest) && Booked(Without(controllers, k), BookFrame(books, k, earned, t))
  {
  }

  /** A frame that shows the last of the text. */
  lemma OutSound(threads: set<Id>, delivered: map<Key, seq<Chunk>>, controllers: map<Key, Controller>,
                 frames: map<FrameId, Key>, nextFrame: FrameId, pushed: map<Key, Text>, books: map<Key, Book>,
                 longest: nat, f: FrameId, k: Key, t: Ticked, earned: real)
    requires Sound(threads, delivered, controllers, frames, nextFrame, pushed, books, longest)
    requires f in frames && k == frames[f] && k.thread in threads && k in controllers && k in books
    requires FrameOf(controllers[k], t, earned) && Buffered(t.c) == 0
    ensures Sound(threads, AfterFrame(threads, delivered, k, t), Without(controllers, k), Without(frames, f), nextFrame,
                  pushed, BookFrame(books, k, earned, t), longest)
  {
    FrameOfOwner(controllers, frames, nextFrame, f);
    FramesWithout(controllers, frames, nextFrame, k);
    LiveWithout(controllers, books, k, earned, t, longest);
    TickKeepsOut(threads, delivered, controllers, pushed, k, t);
    FrameDelivered(threads, delivered, k, t);
  }

  lemma FrameOfOwner(controllers: map<Key, Controller>, frames: map<FrameId, Key>, nextFrame: FrameId, f: FrameId)
    requires FramesRight(controllers, frames, nextFrame) && f in frames
    ensures frames[f] in controllers && controllers[frames[f]].frame == Some(f)
  {
  }

  lemma HasMessage(controllers: map<Key, Controller>, k: Key, longest: nat)
    requires Live(controllers, longest) && k in controllers
    ensures k.message != ""
  {
  }

  /** The controller with new text fits the controllers there are. */
  predicate Fits(controllers: map<Key, Controller>, k: Key, chunk: Chunk, c: Controller) {
    && Text(c.content, c.reasoning) == Plus(BufferIn(controllers, k), TextOf(chunk))
    && (c.frame == if k in controllers then controllers[k].frame else None)
    && (c.credit == if k in controllers then controllers[k].credit else 0.0)
  }

  lemma JoinedFits(controllers: map<Key, Controller>, k: Key, chunk: Chunk, now: real, w: real, longest: nat)
    requires Live(controllers, longest) && longest >= 1 && TextOf(chunk) != NO_TEXT
    ensures var c := Joined(FindIn(controllers, k), chunk, now, w);
            Fits(controllers, k, chunk, c) && Paced(c, longest) && Buffered(c) > 0
  {
    JoinedRight(FindIn(controllers, k), chunk, now, w, longest);
  }

  /** A message that is new in the books starts at nothing. */
  function BookNew(controllers: map<Key, Controller>, books: map<Key, Book>, k: Key): map<Key, Book> {
    if k in controllers then books else books[k := Book(0.0, 0)]
  }

  /** Text that is buffered, under a frame that is scheduled. */
  lemma JoinSound(threads: set<Id>, delivered: map<Key, seq<Chunk>>, controllers: map<Key, Controller>,
                  frames: map<FrameId, Key>, nextFrame: FrameId, pushed: map<Key, Text>, books: map<Key, Book>,
                  longest: nat, k: Key, chunk: Chunk, c: Controller, f: Option<FrameId>,
                  frames': map<FrameId, Key>, nextFrame': FrameId)
    requires Sound(threads, delivered, controllers, frames, nextFrame, pushed, books, longest)
    requires k.thread in threads && k.message != "" && Fits(controllers, k, chunk, c)
    requires Paced(c, longest) && Buffered(c) > 0
    requires FramesRight(controllers[k := c.(frame := f)], frames', nextFrame')
    ensures Sound(threads, delivered, controllers[k := c.(frame := f)], frames', nextFrame',
                  pushed[k := Plus(OwedIn(pushed, k), TextOf(chunk))], BookNew(controllers, books, k), longest)
  {
    LiveWith(controllers, k, c.(frame := f), longest);
    PushBuffered(threads, delivered, controllers, pushed, k, chunk, c.(frame := f));
    BookedNew(controllers, books, k, c.(frame := f));
  }

  lemma BookedNew(controllers: map<Key, Controller>, books: map<Key, Book>, k: Key, c: Controller)
    requires Booked(controllers, books) && c.credit == if k in controllers then controllers[k].credit else 0.0
    ensures Booked(controllers[k := c], BookNew(controllers, books, k))
  {
  }

  /** The messages of a thread that have a controller. */
  function KeysFor(controllers: map<Key, Controller>, t: Id): set<Key> {
    set k | k in controllers && k.thread == t
  }

  lemma KeysWithout(controllers: map<Key, Controller>, k: Key)
    ensures KeysFor(Without(controllers, k), k.thread) == KeysFor(controllers, k.thread) - {k}
  {
  }

  /** A chunk that is passed on. */
  lemma PassSound(threads: set<Id>, delivered: map<Key, seq<Chunk>>, controllers: map<Key, Controller>,
                  frames: map<FrameId, Key>, nextFrame: FrameId, pushed: map<Key, Text>, books: map<Key, Book>,
                  longest: nat, k: Key, chunk: Chunk)
    requires Sound(threads, delivered, controllers, frames, nextFrame, pushed, books, longest)
    requires k.thread in threads && (k !in controllers || TextOf(chunk) == NO_TEXT)
    ensures Sound(threads, Deliver(threads, delivered, k, chunk), controllers, frames, nextFrame,
                  pushed[k := Plus(OwedIn(pushed, k), TextOf(chunk))], books, longest)
  {
    PushDelivered(threads, delivered, controllers, pushed, k, chunk);
  }

  class StreamSmoother {
    const seg: Segmenter
    ghost const longest: nat
    /** Threads that have a state to deliver into. */
    var threads: set<Id>
    var delivered: map<Key, seq<Chunk>>
    var controllers: map<Key, Controller>
    /** Frames the browser will run. */
    var frames: map<FrameId, Key>
    var nextFrame: FrameId
    /** All text handed over for a message and not discarded by a reset. */
    ghost var pushed: map<Key, Text>
    ghost var books: map<Key, Book>

    ghost predicate Valid()
      reads this
    {
      Lawful(seg, longest) && Sound(threads, delivered, controllers, frames, nextFrame, pushed, books, longest)
    }

    ghost function ShownFor(k: Key): Text
      reads this
    {
      Shown(ChunksIn(delivered, k))
    }

    ghost function Owed(k: Key): Text
      reads this
    {
      OwedIn(pushed, k)
    }

    constructor (seg: Segmenter, ghost longest: nat)
      requires Lawful(seg, longest)
      ensures Valid() && threads == {} && controllers == map[] && this.seg == seg && this.longest == longest
    {
      this.seg := seg;
      this.longest := longest;
      threads := {};
      delivered := map[];
      controllers := map[];
      frames := map[];
      nextFrame := 0;
      pushed := map[];
      books := map[];
    }

    /** A thread gets a new, empty state; text still buffered for it is what it is owed. */
    method Attach(t: Id)
      requires Valid()
      modifies this
      ensures Valid() && threads == old(threads) + {t} && controllers == old(controllers) && frames == old(frames)
    {
      if t !in threads {
        threads := threads + {t};
        AttachKeeps(old(threads), t, delivered, controllers, pushed);
        pushed := OwedAnew(pushed, controllers, t);
      }
    }

    /** The state of a thread goes away with the messages in it. */
    method Detach(t: Id)
      requires Valid()
      modifies this`threads, this`delivered
      ensures Valid() && threads == old(threads) - {t}
      ensures forall k | k in delivered :: k in old(delivered) && delivered[k] == old(delivered)[k]
    {
      threads := threads - {t};
      delivered := delivered - set k | k in delivered && k.thread == t;
      forall k: Key | k.thread in threads ensures Keeps(delivered, controllers, pushed, k) {
        assert Keeps(old(delivered), controllers, pushed, k);
      }
    }

    /** Appends to the message's chunks, if there is a state and an id. */
    method Append(k: Key, chunk: Chunk)
      requires k.message == chunk.id
      modifies this`delivered
      ensures k.message == "" ==> delivered == old(delivered)
      ensures k.message != "" ==> delivered == Deliver(threads, old(delivered), k, chunk)
    {
      if k.thread !in threads || chunk.id == "" {
        return;
      }
      if k !in delivered {
        delivered := delivered[k := []];
      }
      delivered := delivered[k := delivered[k] + [chunk]];
    }

    /** Delivers what is left of a message at once and cancels its frame. */
    method FlushMessage(k: Key)
      requires Valid()
      modifies this`delivered, this`controllers, this`frames
      ensures Valid() && k !in controllers
      ensures k.thread in threads ==> ShownFor(k) == Owed(k)
      ensures controllers == Without(old(controllers), k)
      ensures k !in old(controllers) ==> delivered == old(delivered) && frames == old(frames)
      ensures k in old(controllers) ==>
          && delivered == Deliver(threads, old(delivered), k, Rest(k, old(controllers)[k]))
          && frames == Without(old(frames), old(controllers)[k].frame.value)
    {
      if k in controllers {
        FlushLive(k);
      } else {
        assert controllers == Without(controllers, k);
        if k.thread in threads {
          NothingLeft(threads, delivered, controllers, pushed, k);
        }
      }
    }

    method FlushLive(k: Key)
      requires Valid() && k in controllers
      modifies this`delivered, this`controllers, this`frames
      ensures Valid() && k !in controllers
      ensures k.thread in threads ==> ShownFor(k) == Owed(k)
      ensures delivered == Deliver(threads, old(delivered), k, Rest(k, old(controllers)[k]))
      ensures controllers == Without(old(controllers), k)
      ensures frames == Without(old(frames), old(controllers)[k].frame.value)
    {
      var c := controllers[k];
      FramesWithout(controllers, frames, nextFrame, k);
      FlushSound(threads, delivered, controllers, pushed, k);
      if c.frame.Some? {
        frames := Without(frames, c.frame.value);
      }
      if Buffered(c) > 0 {
        var delta := Chunk(k.message, c.content, c.reasoning, false);
        Append(k, delta);
      }
      controllers := Without(controllers, k);
    }

    /**
     A chunk arrives. A chunk with tool calls, and any chunk under reduced motion, is delivered at once after all text
     already handed over; a chunk without text is passed on; other text is buffered and a frame is scheduled.
     */
    method PushChunk(chunk: Chunk, thread: Id, now: real, w: real, reduceMotion: bool)
      requires Valid() && 0.0 < w < 1.0
      modifies this
      ensures Valid() && threads == old(threads)
      ensures thread !in threads || chunk.id == "" ==>
          delivered == old(delivered) && controllers == old(controllers) && frames == old(frames) && pushed == old(pushed)
      ensures thread in threads && chunk.id != "" ==>
          var k := Key(thread, chunk.id);
          && pushed == old(pushed)[k := Plus(old(Owed(k)), TextOf(chunk))]
          && (chunk.hasToolCalls || reduceMotion ==>
                && controllers == Without(old(controllers), k)
                && var all := ChunksIn(delivered, k);
                   |all| > 0 && all[|all| - 1] == chunk && Shown(all[..|all| - 1]) == old(Owed(k)))
          && (!chunk.hasToolCalls && !reduceMotion && TextOf(chunk) == NO_TEXT ==>
                && delivered == Deliver(threads, old(delivered), k, chunk)
                && controllers == old(controllers) && frames == old(frames))
          && (!chunk.hasToolCalls && !reduceMotion && TextOf(chunk) != NO_TEXT ==>
                && ShownFor(k) == old(ShownFor(k))
                && k in controllers
                && books == BookNew(old(controllers), old(books), k)
                && controllers == old(controllers)[k :=
                     Joined(FindIn(old(controllers), k), chunk, now, w).(frame := controllers[k].frame)])
    {
      if thread !in threads || chunk.id == "" {
        return;
      }
      var k := Key(thread, chunk.id);
      if chunk.hasToolCalls || reduceMotion {
        DeliverNow(k, chunk);
      } else if chunk.content == "" && chunk.reasoning == "" {
        PassOn(k, chunk);
      } else {
        JoinedFits(controllers, k, chunk, now, w, longest);
        var c := Joined(FindIn(controllers, k), chunk, now, w);
        Buffer(k, chunk, c);
      }
    }

    /** A chunk that has nothing buffered before it, or no text, is passed on. */
    method PassOn(k: Key, chunk: Chunk)
      requires Valid() && k.thread in threads && k.message == chunk.id != ""
      requires k !in controllers || TextOf(chunk) == NO_TEXT
      modifies this`delivered, this`pushed
      ensures Valid()
      ensures pushed == old(pushed)[k := Plus(old(Owed(k)), TextOf(chunk))]
      ensures delivered == Deliver(threads, old(delivered), k, chunk)
    {
      PassSound(threads, delivered, controllers, frames, nextFrame, pushed, books, longest, k, chunk);
      Deposit(k, chunk, Deliver(threads, delivered, k, chunk), pushed[k := Plus(OwedIn(pushed, k), TextOf(chunk))]);
    }

    /** The chunk is shown, and its text is owed. */
    method Deposit(k: Key, chunk: Chunk, ghost after: map<Key, seq<Chunk>>, ghost owed: map<Key, Text>)
      requires k.message == chunk.id != "" && Lawful(seg, longest) && after == Deliver(threads, delivered, k, chunk)
      requires Sound(threads, after, controllers, frames, nextFrame, owed, books, longest)
      modifies this`delivered, this`pushed
      ensures Valid() && pushed == owed && delivered == after
    {
      pushed := owed;
      Append(k, chunk);
      assert delivered == after;
    }

    /** The immediate branch of a push. */
    method DeliverNow(k: Key, chunk: Chunk)
      requires Valid() && k.thread in threads && k.message == chunk.id != ""
      modifies this`delivered, this`controllers, this`frames, this`pushed
      ensures Valid()
      ensures pushed == old(pushed)[k := Plus(old(Owed(k)), TextOf(chunk))]
      ensures controllers == Without(old(controllers), k)
      ensures var all := ChunksIn(delivered, k);
              |all| > 0 && all[|all| - 1] == chunk && Shown(all[..|all| - 1]) == old(Owed(k))
    {
      FlushMessage(k);
      LastDelivered(threads, delivered, k, chunk);
      PassOn(k, chunk);
    }

    /** The buffering branch of a push; `c` is the controller with the new text. */
    method Buffer(k: Key, chunk: Chunk, c: Controller)
      requires Valid() && k.thread in threads && k.message == chunk.id != ""
      requires Fits(controllers, k, chunk, c) && Paced(c, longest) && Buffered(c) > 0
      modifies this`delivered, this`controllers, this`frames, this`nextFrame, this`pushed, this`books
      ensures Valid()
      ensures books == BookNew(old(controllers), old(books), k)
      ensures pushed == old(pushed)[k := Plus(old(Owed(k)), TextOf(chunk))]
      ensures k in controllers && controllers == old(controllers)[k := c.(frame := controllers[k].frame)]
      ensures ShownFor(k) == old(ShownFor(k))
    {
      Announce(k);
      FramesWith(controllers, frames, nextFrame, k, c);
      if c.frame == None {
        JoinSound(threads, delivered, controllers, frames, nextFrame, pushed, books, longest, k, chunk, c,
                  Some(nextFrame), frames[nextFrame := k], nextFrame + 1);
        Note(k, chunk, c.(frame := Some(nextFrame)));
        frames := frames[nextFrame := k];
        nextFrame := nextFrame + 1;
      } else {
        JoinSound(threads, delivered, controllers, frames, nextFrame, pushed, books, longest, k, chunk, c,
                  c.frame, frames, nextFrame);
        Note(k, chunk, c);
      }
    }

    /** The controller is kept, and its text is owed. */
    method Note(k: Key, chunk: Chunk, c: Controller)
      modifies this`controllers, this`pushed, this`books
      ensures controllers == old(controllers)[k := c]
      ensures pushed == old(pushed)[k := Plus(old(Owed(k)), TextOf(chunk))]
      ensures books == BookNew(old(controllers), old(books), k)
    {
      books := BookNew(controllers, books, k);
      controllers := controllers[k := c];
      pushed := pushed[k := Plus(Owed(k), TextOf(chunk))];
    }

    /** A message that starts to be buffered gets an empty chunk first. */
    method Announce(k: Key)
      requires Valid() && k.thread in threads && k.message != ""
      modifies this`delivered
      ensures Valid() && ShownFor(k) == old(ShownFor(k))
    {
      if k !in controllers {
        var skeleton := Chunk(k.message, "", "", false);
        EmptyKeeps(threads, delivered, controllers, pushed, k, skeleton);
        Append(k, skeleton);
      }
    }

    /** One frame of a controller, field by field. */
    method Advance(c: Controller, now: real, rate: real, earned: real) returns (t: Ticked)
      requires Lawful(seg, longest)
      ensures t == TickWith(seg, c, now, rate, earned)
    {
      if now <= c.lastFrameAt {
        return Ticked(c, "", "", false);
      }
      var c1 := Stamped(c, now, rate, c.credit + earned);
      var budget := c1.credit.Floor;
      if budget <= 0 {
        return Ticked(c1, "", "", false);
      }
      t := Spend(c1, budget);
    }

    /** The loop over the two buffers. */
    method Spend(c: Controller, budget: nat) returns (t: Ticked)
      requires Lawful(seg, longest)
      ensures var (content, contentRest) := Cut(seg, c.content, budget);
              var (reasoning, reasoningRest) := Cut(seg, c.reasoning, budget - |content|);
              t == Spent(c, content, contentRest, reasoning, reasoningRest)
    {
      var remaining: int := budget;
      var content, contentRest := TakeFromBuffer(seg, c.content, remaining, longest);
      remaining := remaining - |content|;
      var reasoning, reasoningRest := TakeFromBuffer(seg, c.reasoning, remaining, longest);
      remaining := remaining - |reasoning|;
      t := Ticked(c.(content := contentRest, reasoning := reasoningRest, credit := c.credit - (budget - remaining) as real),
                  content, reasoning, true);
    }

    /** The browser runs a frame. */
    method Tick(f: FrameId, now: real, w: real)
      requires Valid() && f in frames && 0.0 < w < 1.0
      modifies this`delivered, this`controllers, this`frames, this`nextFrame, this`books
      ensures Valid() && old(frames[f]) in old(controllers) && old(frames[f]) in old(books)
      ensures var k := old(frames[f]);
              if k.thread !in threads then
                && controllers == Without(old(controllers), k) && frames == Without(old(frames), f)
                && delivered == old(delivered) && books == old(books)
              else
                var t := TickSpec(seg, old(controllers[k]), now, w);
                && delivered == AfterFrame(threads, old(delivered), k, t)
                && books == BookFrame(old(books), k, Accrual(old(controllers[k]), now, w), t)
                && books[k].shown as real <= books[k].earned + (longest - 1) as real
                && if Buffered(t.c) == 0 then
                     controllers == Without(old(controllers), k) && frames == Without(old(frames), f)
                   else
                     controllers == old(controllers)[k := t.c.(frame := Some(old(nextFrame)))]
    {
      var k := frames[f];
      FramesWithout(controllers, frames, nextFrame, k);
      if k.thread !in threads {
        Elsewhere(threads, k, delivered, controllers, pushed, delivered, Without(controllers, k), pushed);
        frames := Without(frames, f);
        controllers := Without(controllers, k);
        return;
      }
      var c := controllers[k];
      var t := Advance(c, now, NewRate(c, w), Accrual(c, now, w));
      TickRight(seg, c, now, w, longest);
      FrameEarns(seg, c, Frame(now, w), longest);
      Play(f, k, t, Accrual(c, now, w));
    }

    /** The frame's text is delivered; the message waits for its next frame or is done. */
    method Play(f: FrameId, k: Key, t: Ticked, ghost earned: real)
      requires Valid() && f in frames && k == frames[f] && k.thread in threads && k in controllers && k in books
      requires FrameOf(controllers[k], t, earned) && (Buffered(t.c) > 0 ==> Paced(t.c, longest))
      modifies this`delivered, this`controllers, this`frames, this`nextFrame, this`books
      ensures Valid()
      ensures delivered == AfterFrame(threads, old(delivered), k, t)
      ensures books == BookFrame(old(books), k, earned, t)
      ensures if Buffered(t.c) == 0 then
                controllers == Without(old(controllers), k) && frames == Without(old(frames), f)
              else
                controllers == old(controllers)[k := t.c.(frame := Some(old(nextFrame)))]
    {
      if Buffered(t.c) > 0 {
        PlayOn(f, k, t, earned);
      } else {
        PlayOut(f, k, t, earned);
      }
    }

    method PlayOn(f: FrameId, k: Key, t: Ticked, ghost earned: real)
      requires Valid() && f in frames && k == frames[f] && k.thread in threads && k in controllers && k in books
      requires FrameOf(controllers[k], t, earned) && Buffered(t.c) > 0 && Paced(t.c, longest)
      modifies this`delivered, this`controllers, this`frames, this`nextFrame, this`books
      ensures Valid()
      ensures delivered == AfterFrame(threads, old(delivered), k, t)
      ensures books == BookFrame(old(books), k, earned, t)
      ensures controllers == old(controllers)[k := t.c.(frame := Some(old(nextFrame)))]
    {
      OnSound(threads, delivered, controllers, frames, nextFrame, pushed, books, longest, f, k, t, earned);
      HasMessage(controllers, k, longest);
      Settle(k, t, controllers[k := t.c.(frame := Some(nextFrame))], Without(frames, f)[nextFrame := k], nextFrame + 1,
             BookFrame(books, k, earned, t));
    }

    method PlayOut(f: FrameId, k: Key, t: Ticked, ghost earned: real)
      requires Valid() && f in frames && k == frames[f] && k.thread in threads && k in controllers && k in books
      requires FrameOf(controllers[k], t, earned) && Buffered(t.c) == 0
      modifies this`delivered, this`controllers, this`frames, this`nextFrame, this`books
      ensures Valid()
      ensures delivered == AfterFrame(threads, old(delivered), k, t)
      ensures books == BookFrame(old(books), k, earned, t)
      ensures controllers == Without(old(controllers), k) && frames == Without(old(frames), f)
    {
      OutSound(threads, delivered, controllers, frames, nextFrame, pushed, books, longest, f, k, t, earned);
      HasMessage(controllers, k, longest);
      Settle(k, t, Without(controllers, k), Without(frames, f), nextFrame, BookFrame(books, k, earned, t));
    }

    /** The frame's text is delivered, and the controllers and frames are what they are after it. */
    method Settle(k: Key, t: Ticked, controllers': map<Key, Controller>, frames': map<FrameId, Key>, nextFrame': FrameId,
                  ghost books': map<Key, Book>)
      requires k.thread in threads && k.message != "" && Lawful(seg, longest)
      requires Sound(threads, AfterFrame(threads, delivered, k, t), controllers', frames', nextFrame', pushed, books', longest)
      modifies this`delivered, this`controllers, this`frames, this`nextFrame, this`books
      ensures Valid()
      ensures delivered == AfterFrame(threads, old(delivered), k, t)
      ensures controllers == controllers' && frames == frames' && nextFrame == nextFrame' && books == books'
    {
      Show(k, t);
      controllers, frames, nextFrame, books := controllers', frames', nextFrame', books';
    }

    method Show(k: Key, t: Ticked)
      requires k.thread in threads && k.message != ""
      modifies this`delivered
      ensures delivered == AfterFrame(threads, old(delivered), k, t)
    {
      if t.shown {
        Append(k, Chunk(k.message, t.content, t.reasoning, false));
      }
    }

    /** Delivers everything still buffered for a thread: nothing is left behind and no frame is pending. */
    method FlushThread(t: Id)
      requires Valid()
      modifies this`delivered, this`controllers, this`frames
      ensures Valid()
      ensures controllers == OfOthers(old(controllers), t)
      ensures forall f | f in frames :: frames[f].thread != t
      ensures t in threads ==> forall k: Key | k.thread == t :: ShownFor(k) == Owed(k)
      ensures DeliveredOutside(delivered, t) == DeliveredOutside(old(delivered), t)
    {
      var ks := KeysFor(controllers, t);
      while ks != {}
        invariant Valid()
        invariant ks == KeysFor(controllers, t)
        invariant OfOthers(controllers, t) == OfOthers(old(controllers), t)
        invariant DeliveredOutside(delivered, t) == DeliveredOutside(old(delivered), t)
        decreases |ks|
      {
        var k :| k in ks;
        OthersWithout(controllers, k);
        KeysWithout(controllers, k);
        OthersDelivered(threads, delivered, k, Rest(k, controllers[k]));
        FlushMessage(k);
        ks := ks - {k};
      }
      assert controllers == OfOthers(controllers, t);
      if t in threads {
        AllShown(threads, delivered, controllers, pushed, t);
      }
    }

    /** Drops what is buffered for one thread, or for all, with its frames; nothing more is written to old messages. */
    method ResetThread(which: Option<Id>)
      requires Valid()
      modifies this`controllers, this`frames, this`pushed
      ensures Valid()
      ensures controllers == AfterReset(old(controllers), which)
      ensures pushed == DropOwed(old(pushed), delivered, old(controllers).Keys - controllers.Keys)
    {
      ResetRight(threads, delivered, controllers, frames, nextFrame, pushed, which, longest);
      var left := AfterReset(controllers, which);
      frames := FramesOf(frames, left);
      pushed := DropOwed(pushed, delivered, controllers.Keys - left.Keys);
      controllers := left;
    }
  }
}
