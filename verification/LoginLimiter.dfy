/**
 The sliding-window limiter of login attempts, per client address. Time comes from a monotonic clock. Reading the address
 from a request and the other endpoints are left out.
 */
module LoginLimiter {
  const MAX_ATTEMPTS := 10
  const WINDOW := 60.0

  datatype Outcome = Admitted | Rejected(retryAfter: int)

  function Prune(history: seq<real>, now: real): seq<real> {
    if history != [] && now - history[0] > WINDOW then Prune(history[1..], now) else history
  }

  /** Seconds a rejected client is told to wait; the fraction is cut off. */
  function RetryAfter(oldest: real, now: real): int {
    var left := WINDOW - (now - oldest);
    if left > 1.0 then left.Floor else 1
  }

  function AttemptSpec(history: seq<real>, now: real): (seq<real>, Outcome) {
    var kept := Prune(history, now);
    if |kept| >= MAX_ATTEMPTS then (kept, Rejected(RetryAfter(kept[0], now)))
    else (kept + [now], Admitted)
  }

  /** The attempts of `admitted` in the closed window that ends at `now`. */
  function InWindow(admitted: seq<real>, now: real): seq<real> {
    if admitted == [] then []
    else
      var init, last := admitted[..|admitted| - 1], admitted[|admitted| - 1];
      InWindow(init, now) + if now - last <= WINDOW then [last] else []
  }

  predicate Upward(times: seq<real>, latest: real) {
    && (forall i, j | 0 <= i < j < |times| :: times[i] <= times[j])
    && (forall i | 0 <= i < |times| :: times[i] <= latest)
  }

  /** Any eleven attempts in a row spread over more than the window. */
  predicate Spread(times: seq<real>) {
    forall i | 0 <= i && i + MAX_ATTEMPTS < |times| :: times[i + MAX_ATTEMPTS] - times[i] > WINDOW
  }

  /** The state of one address: the deque is what was admitted, as far as it was in the window at the last access. */
  ghost predicate Inv(history: seq<real>, admitted: seq<real>, latest: real) {
    Upward(admitted, latest) && history == InWindow(admitted, latest) && Spread(admitted)
  }

  lemma {:induction false} InWindowIsSuffix(admitted: seq<real>, now: real) returns (m: nat)
    requires Upward(admitted, now)
    ensures m <= |admitted| && InWindow(admitted, now) == admitted[m..]
    ensures forall i | 0 <= i < m :: now - admitted[i] > WINDOW
    ensures forall i | m <= i < |admitted| :: now - admitted[i] <= WINDOW
  {
    if admitted == [] {
      m := 0;
    } else {
      var init, last := admitted[..|admitted| - 1], admitted[|admitted| - 1];
      m := InWindowIsSuffix(init, now);
      assert forall i | 0 <= i < |init| :: init[i] == admitted[i] <= last;
      assert admitted == init + [last];
      m := SuffixMore(init, last, now, m);
    }
  }

  lemma SuffixMore(init: seq<real>, last: real, now: real, m: nat) returns (k: nat)
    requires m <= |init| && InWindow(init, now) == init[m..] && forall i | 0 <= i < |init| :: init[i] <= last
    requires forall i | 0 <= i < m :: now - init[i] > WINDOW
    requires forall i | m <= i < |init| :: now - init[i] <= WINDOW
    ensures k <= |init + [last]| && InWindow(init + [last], now) == (init + [last])[k..]
    ensures forall i | 0 <= i < k :: now - (init + [last])[i] > WINDOW
    ensures forall i | k <= i < |init + [last]| :: now - (init + [last])[i] <= WINDOW
  {
    assert (init + [last])[..|init|] == init;
    assert m < |init| ==> now - init[m] <= WINDOW && init[m] <= last;
    if now - last <= WINDOW {
      k := m;
      assert init[m..] + [last] == (init + [last])[m..];
    } else {
      k := |init| + 1;
    }
  }

  lemma {:induction false} PruneSuffix(admitted: seq<real>, from: nat, m: nat, now: real)
    requires from <= m <= |admitted|
    requires forall i | from <= i < m :: now - admitted[i] > WINDOW
    requires forall i | m <= i < |admitted| :: now - admitted[i] <= WINDOW
    ensures Prune(admitted[from..], now) == admitted[m..]
    decreases m - from
  {
    if from < m {
      assert admitted[from..][1..] == admitted[from + 1..];
      PruneSuffix(admitted, from + 1, m, now);
    }
  }

  /** Dropping from the left is restricting to the window. */
  lemma PruneRight(history: seq<real>, admitted: seq<real>, latest: real, now: real)
    requires Inv(history, admitted, latest) && latest <= now
    ensures Prune(history, now) == InWindow(admitted, now)
  {
    var from := InWindowIsSuffix(admitted, latest);
    var m := InWindowIsSuffix(admitted, now);
    assert forall i | 0 <= i < from :: now - admitted[i] > WINDOW;
    if m < |admitted| {
      var x := admitted[m];
      assert now - x <= WINDOW;
    }
    PruneSuffix(admitted, from, m, now);
  }

  /** The window after one more attempt. */
  lemma InWindowMore(admitted: seq<real>, now: real)
    ensures InWindow(admitted + [now], now) == InWindow(admitted, now) + [now]
  {
    assert (admitted + [now])[..|admitted|] == admitted;
  }

  /** One more attempt keeps the spread when the window has room. */
  lemma SpreadMore(admitted: seq<real>, latest: real, now: real)
    requires Upward(admitted, latest) && latest <= now && Spread(admitted) && |InWindow(admitted, now)| < MAX_ATTEMPTS
    ensures Spread(admitted + [now])
  {
    var m := InWindowIsSuffix(admitted, now);
    var more := admitted + [now];
    forall i | 0 <= i && i + MAX_ATTEMPTS < |more| ensures more[i + MAX_ATTEMPTS] - more[i] > WINDOW {
      if i + MAX_ATTEMPTS == |admitted| {
        assert i < m && now - admitted[i] > WINDOW;
      } else {
        assert admitted[i + MAX_ATTEMPTS] - admitted[i] > WINDOW;
      }
    }
  }

  /**
   One attempt: it is admitted exactly when fewer than ten admitted attempts are in the window that ends now; either way
   the state stays right.
   */
  lemma AttemptKept(history: seq<real>, admitted: seq<real>, latest: real, now: real)
    requires Inv(history, admitted, latest) && latest <= now
    ensures var (h, o) := AttemptSpec(history, now);
            && (o.Admitted? <==> |InWindow(admitted, now)| < MAX_ATTEMPTS)
            && Inv(h, if o.Admitted? then admitted + [now] else admitted, now)
  {
    PruneRight(history, admitted, latest, now);
    InWindowMore(admitted, now);
    if |InWindow(admitted, now)| < MAX_ATTEMPTS {
      SpreadMore(admitted, latest, now);
    }
  }

  /** No closed window, wherever it lies, holds more than ten of the attempts admitted between successful logins. */
  lemma WindowBound(admitted: seq<real>, latest: real, i: nat, j: nat)
    requires Upward(admitted, latest) && Spread(admitted)
    requires i <= j < |admitted| && admitted[j] - admitted[i] <= WINDOW
    ensures j - i + 1 <= MAX_ATTEMPTS
  {
    forall k | i + MAX_ATTEMPTS <= k < |admitted| ensures admitted[k] - admitted[i] > WINDOW {
      assert admitted[i + MAX_ATTEMPTS] - admitted[i] > WINDOW;
      assert admitted[i + MAX_ATTEMPTS] <= admitted[k];
    }
  }

  /** A rejected client that waits the told time and one second more, with no other attempt, is admitted. */
  lemma WaitingHelps(history: seq<real>, admitted: seq<real>, latest: real, now: real, later: real)
    requires Inv(history, admitted, latest) && latest <= now
    requires AttemptSpec(history, now).1.Rejected?
    requires later >= now + (AttemptSpec(history, now).1.retryAfter + 1) as real
    ensures AttemptSpec(AttemptSpec(history, now).0, later).1 == Admitted
  {
    var h := RejectedFull(history, admitted, latest, now);
    PruneShorter(h[1..], later);
  }

  /**
   Waiting exactly the told time is enough if and only if the oldest attempt had less than a second left: the header is
   cut off to whole seconds, and the comparison with the window is strict.
   */
  lemma ToldTimeIsShort(history: seq<real>, admitted: seq<real>, latest: real, now: real)
    requires Inv(history, admitted, latest) && latest <= now
    requires AttemptSpec(history, now).1.Rejected?
    ensures var (h, o) := AttemptSpec(history, now);
            && |h| == MAX_ATTEMPTS
            && (AttemptSpec(h, now + o.retryAfter as real).1 == Admitted <==> WINDOW - (now - h[0]) < 1.0)
  {
    var h := RejectedFull(history, admitted, latest, now);
    PruneShorter(h[1..], now + RetryAfter(h[0], now) as real);
  }

  lemma {:induction false} PruneShorter(history: seq<real>, now: real)
    ensures |Prune(history, now)| <= |history|
  {
    if history != [] && now - history[0] > WINDOW {
      PruneShorter(history[1..], now);
    }
  }

  /** A rejection leaves exactly ten attempts, the oldest still in the window. */
  lemma RejectedFull(history: seq<real>, admitted: seq<real>, latest: real, now: real) returns (h: seq<real>)
    requires Inv(history, admitted, latest) && latest <= now
    requires AttemptSpec(history, now).1.Rejected?
    ensures h == AttemptSpec(history, now).0 && |h| == MAX_ATTEMPTS && now - h[0] <= WINDOW
  {
    PruneRight(history, admitted, latest, now);
    var m := InWindowIsSuffix(admitted, now);
    h := admitted[m..];
    WindowBound(admitted, latest, m, |admitted| - 1);
  }

  method DropOld(history: seq<real>, now: real) returns (kept: seq<real>)
    ensures kept == Prune(history, now)
  {
    kept := history;
    while kept != [] && now - kept[0] > WINDOW
      invariant Prune(kept, now) == Prune(history, now)
      decreases |kept|
    {
      kept := kept[1..];
    }
  }

  ghost predicate AllRight(attempts: map<string, seq<real>>, known: map<string, (seq<real>, real)>, latest: real) {
    && attempts.Keys == known.Keys
    && forall ip | ip in known :: known[ip].1 <= latest && Inv(attempts[ip], known[ip].0, known[ip].1)
  }

  lemma OneRight(attempts: map<string, seq<real>>, known: map<string, (seq<real>, real)>, latest: real,
                 ip: string, history: seq<real>, admitted: seq<real>, now: real)
    requires AllRight(attempts, known, latest) && latest <= now && Inv(history, admitted, now)
    ensures AllRight(attempts[ip := history], known[ip := (admitted, now)], now)
  {
  }

  class LoginRateLimiter {
    /** The deque of every address that was seen; a default one is empty. */
    var attempts: map<string, seq<real>>
    /** What was admitted since the address last logged in, and when its deque was last looked at. */
    ghost var known: map<string, (seq<real>, real)>
    ghost var latest: real

    function History(ip: string): seq<real>
      reads this
    {
      if ip in attempts then attempts[ip] else []
    }

    ghost function AdmittedOf(ip: string): seq<real>
      reads this
    {
      if ip in known then known[ip].0 else []
    }

    ghost predicate Valid()
      reads this
    {
      AllRight(attempts, known, latest)
    }

    constructor (now: real)
      ensures Valid() && latest == now && attempts == map[]
    {
      attempts, known, latest := map[], map[], now;
    }

    method Attempt(ip: string, now: real) returns (o: Outcome)
      requires Valid() && latest <= now
      modifies this
      ensures Valid() && latest == now
      ensures o == AttemptSpec(old(History(ip)), now).1
      ensures o.Admitted? <==> |InWindow(old(AdmittedOf(ip)), now)| < MAX_ATTEMPTS
      ensures attempts == old(attempts)[ip := AttemptSpec(old(History(ip)), now).0]
      ensures known == old(known)[ip := (old(AdmittedOf(ip)) + (if o.Admitted? then [now] else []), now)]
    {
      var history: seq<real>;
      ghost var admitted := AdmittedOf(ip);
      AttemptKept(History(ip), admitted, if ip in known then known[ip].1 else now, now);
      history, o := Decide(History(ip), now);
      if o.Admitted? {
        admitted := admitted + [now];
      } else {
        assert admitted == admitted + [];
      }
      OneRight(attempts, known, latest, ip, history, admitted, now);
      latest := now;
      known := known[ip := (admitted, now)];
      attempts := attempts[ip := history];
    }

    /** The critical section on the deque. */
    static method Decide(history: seq<real>, now: real) returns (kept: seq<real>, o: Outcome)
      ensures (kept, o) == AttemptSpec(history, now)
    {
      kept := DropOld(history, now);
      if |kept| >= MAX_ATTEMPTS {
        var left := WINDOW - (now - kept[0]);
        o := Rejected((if left > 1.0 then left else 1.0).Floor);
      } else {
        kept := kept + [now];
        o := Admitted;
      }
    }

    /** A response below 400 forgets the address. */
    method Succeeded(ip: string)
      requires Valid()
      modifies this`attempts, this`known
      ensures Valid() && attempts == old(attempts) - {ip} && known == old(known) - {ip}
    {
      attempts := attempts - {ip};
      known := known - {ip};
    }
  }
}
