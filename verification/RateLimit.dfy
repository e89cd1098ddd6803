/**
 Two sliding-window rate limiters, one in process memory and one in a shared sorted set, against
 one specification: a log of every admission ever made (packages/core/src/policies).
 */
module RateLimit {
  import opened Base

  /* --------------------------------------------------------------- the specification */

  /** Admissions still inside the window; `fresh` keeps exactly the times less than a window ago. */
  function Window(log: seq<int>, now: int, w: int): seq<int> {
    if log == [] then []
    else (if now - log[0] < w then [log[0]] else []) + Window(log[1..], now, w)
  }

  /** A call is admitted when fewer than `max` admissions are in the window. */
  predicate Admits(log: seq<int>, now: int, max: int, w: int) { |Window(log, now, w)| < max }

  function Logged(log: seq<int>, now: int, max: int, w: int): seq<int> {
    if Admits(log, now, max, w) then log + [now] else log
  }

  /** Oldest first, none later than `clock`. */
  ghost predicate Timed(log: seq<int>, clock: int) {
    && (forall i, j :: 0 <= i < j < |log| ==> log[i] <= log[j])
    && forall i :: 0 <= i < |log| ==> log[i] <= clock
  }

  /** Any admission is a whole window later than the one `max` before it. */
  ghost predicate Spaced(log: seq<int>, max: int, w: int) {
    forall i, j :: 0 <= i && i + max <= j < |log| && max >= 1 ==> log[j] - log[i] >= w
  }

  /** Whether an admission is still inside the window. */
  predicate Recent(t: int, now: int, w: int) { now - t < w }

  lemma RecentThroughout(log: seq<int>, now: int, w: int)
    requires Timed(log, now) && log != [] && Recent(log[0], now, w)
    ensures forall i :: 0 <= i < |log| ==> Recent(log[i], now, w)
  {}

  /** In a log kept in order the window is its end. */
  lemma {:induction false} WindowIsEnd(log: seq<int>, now: int, w: int) returns (from: nat)
    requires Timed(log, now)
    ensures from <= |log| && Window(log, now, w) == log[from..]
    ensures forall i :: 0 <= i < |log| ==> (i >= from <==> Recent(log[i], now, w))
  {
    if log == [] {
      from := 0;
    } else if Recent(log[0], now, w) {
      from := 0;
      RecentThroughout(log, now, w);
      AllRecent(log, now, w);
    } else {
      var rest := WindowIsEnd(log[1..], now, w);
      from := rest + 1;
      assert forall i :: 0 < i < |log| ==> log[i] == log[1..][i - 1];
    }
  }

  lemma {:induction false} AllRecent(log: seq<int>, now: int, w: int)
    requires forall i :: 0 <= i < |log| ==> Recent(log[i], now, w)
    ensures Window(log, now, w) == log
  {
    if log != [] {
      AllRecent(log[1..], now, w);
      assert log == [log[0]] + log[1..];
    }
  }

  lemma TimedNext(log: seq<int>, now: int)
    requires Timed(log, now)
    ensures Timed(log + [now], now)
  {}

  /** Admitting by the rule, under any limit up to `max`, keeps admissions spaced. */
  lemma LoggedSpaced(log: seq<int>, now: int, limit: int, max: int, w: int)
    requires Timed(log, now) && Spaced(log, max, w) && limit <= max
    ensures Timed(Logged(log, now, limit, w), now) && Spaced(Logged(log, now, limit, w), max, w)
  {
    if Admits(log, now, limit, w) {
      var from := WindowIsEnd(log, now, w);
      var more := log + [now];
      forall i, j | 0 <= i && i + max <= j < |more| && max >= 1 ensures more[j] - more[i] >= w {
        if j == |log| { assert i < from; }
      }
    }
  }

  /** So no window of the given length, wherever it starts, holds more than `max` admissions. */
  lemma AtMostMaxInAnyWindow(log: seq<int>, clock: int, max: int, w: int, t: int)
    requires Timed(log, clock) && Spaced(log, max, w) && max >= 1
    ensures |set i | 0 <= i < |log| && t <= log[i] < t + w| <= max
  {
    var inside := set i | 0 <= i < |log| && t <= log[i] < t + w;
    if inside != {} {
      var some :| some in inside;
      var first := Least(inside, some);
      forall i | i in inside ensures first <= i < first + max { CloseTogether(log, first, i, max, w); }
      FitsIn(inside, first, max);
    }
  }

  lemma CloseTogether(log: seq<int>, i: int, j: int, max: int, w: int)
    requires Spaced(log, max, w) && 0 <= i <= j < |log| && log[j] - log[i] < w && max >= 1
    ensures j < i + max
  {}

  lemma {:induction false} Least(s: set<int>, some: int) returns (least: int)
    requires some in s
    ensures least in s && forall x | x in s :: least <= x
    decreases |s|
  {
    least := some;
    if !(forall x | x in s :: some <= x) {
      var x :| x in s && x < some;
      least := Least(s - {some}, x);
      assert x in s - {some} && least <= x;
      forall y | y in s ensures least <= y { assert y == some || y in s - {some}; }
    }
  }

  lemma {:induction false} FitsIn(s: set<int>, first: int, n: int)
    requires n >= 0 && forall x | x in s :: first <= x < first + n
    ensures |s| <= n
    decreases n
  {
    if n == 0 {
      assert forall x :: x !in s;
      assert s == {};
    } else {
      FitsIn(s - {first + n - 1}, first, n - 1);
    }
  }

  /** A call, and the limit of the policy that decides it. */
  datatype Attempt = Attempt(now: int, limit: int)

  /** The log one key has after these calls. */
  function LogAfter(calls: seq<Attempt>, w: int): seq<int> {
    if calls == [] then []
    else
      var last := calls[|calls| - 1];
      Logged(LogAfter(calls[..|calls| - 1], w), last.now, last.limit, w)
  }

  ghost predicate Nondecreasing(calls: seq<Attempt>) {
    forall i, j :: 0 <= i < j < |calls| ==> calls[i].now <= calls[j].now
  }

  /**
   Over any run of calls, whoever makes them and whichever policies decide them, no window anywhere
   holds more admissions than the largest limit.
   */
  lemma {:induction false} RunsAreLimited(calls: seq<Attempt>, max: int, w: int, t: int)
    requires Nondecreasing(calls) && calls != [] && max >= 1
    requires forall i :: 0 <= i < |calls| ==> calls[i].limit <= max
    ensures var log := LogAfter(calls, w);
      && Timed(log, calls[|calls| - 1].now) && Spaced(log, max, w)
      && |set i | 0 <= i < |log| && t <= log[i] < t + w| <= max
    decreases |calls|
  {
    var n := |calls| - 1;
    var before := LogAfter(calls[..n], w);
    if n > 0 { RunsAreLimited(calls[..n], max, w, t); }
    LoggedSpaced(before, calls[n].now, calls[n].limit, max, w);
    AtMostMaxInAnyWindow(LogAfter(calls, w), calls[n].now, max, w, t);
  }

  /** What the log says once everything before `from` has left the window. */
  lemma {:induction false} WindowOfEnd(log: seq<int>, now: int, w: int, from: nat)
    requires from <= |log| && forall i :: 0 <= i < from ==> now - log[i] >= w
    ensures Window(log, now, w) == Window(log[from..], now, w)
  {
    if from == 0 {
      assert log[0..] == log;
    } else {
      WindowOfEnd(log[1..], now, w, from - 1);
      assert log[1..][from - 1..] == log[from..];
    }
  }

  /* ---------------------------------------------------- what a limiter holds of the log */

  /** The end of the log; whatever was let go had left the window by `clock`. */
  ghost predicate Remembers(held: seq<int>, log: seq<int>, clock: int, w: int) {
    exists from: nat :: RemembersFrom(held, log, clock, w, from)
  }

  ghost predicate RemembersFrom(held: seq<int>, log: seq<int>, clock: int, w: int, from: nat) {
    from <= |log| && held == log[from..] && forall i :: 0 <= i < from ==> clock - log[i] >= w
  }

  /** It decides by its memory as the log would. */
  lemma MemoryDecides(held: seq<int>, log: seq<int>, clock: int, w: int, now: int)
    requires Remembers(held, log, clock, w) && clock <= now
    ensures Window(held, now, w) == Window(log, now, w)
  {
    var from: nat :| RemembersFrom(held, log, clock, w, from);
    WindowOfEnd(log, now, w, from);
  }

  /** Letting go of what has left the window, at any time, remembers enough. */
  lemma PruningRemembers(held: seq<int>, log: seq<int>, clock: int, w: int, now: int)
    requires Remembers(held, log, clock, w) && clock <= now && Timed(log, now)
    ensures Remembers(Window(held, now, w), log, now, w)
  {
    MemoryDecides(held, log, clock, w, now);
    var from := WindowIsEnd(log, now, w);
    assert RemembersFrom(Window(held, now, w), log, now, w, from);
  }

  lemma AdmittingRemembers(held: seq<int>, log: seq<int>, now: int, w: int)
    requires Remembers(held, log, now, w)
    ensures Remembers(held + [now], log + [now], now, w)
  {
    var from: nat :| RemembersFrom(held, log, now, w, from);
    assert (log + [now])[from..] == held + [now];
    assert RemembersFrom(held + [now], log + [now], now, w, from);
  }

  lemma RemembersLater(held: seq<int>, log: seq<int>, clock: int, w: int, now: int)
    requires Remembers(held, log, clock, w) && clock <= now
    ensures Remembers(held, log, now, w)
  {
    var from: nat :| RemembersFrom(held, log, clock, w, from);
    assert RemembersFrom(held, log, now, w, from);
  }

  datatype Decision = Allow | Deny(retryAfterSeconds: int)

  function CeilDiv(a: int, b: int): int
    requires b > 0
  {
    (a + b - 1) / b
  }

  function RetryAfter(ms: int): int { if CeilDiv(ms, 1000) < 1 then 1 else CeilDiv(ms, 1000) }

  lemma RetryCovers(ms: int)
    ensures RetryAfter(ms) * 1000 >= ms && RetryAfter(ms) >= 1
  {}

  function Oldest(window: seq<int>, now: int): int { if window == [] then now else window[0] }

  /** The answer to a call: a denial says when the oldest admission leaves the window. */
  function Verdict(log: seq<int>, now: int, max: int, w: int): Decision {
    if Admits(log, now, max, w) then Allow else Deny(RetryAfter(Oldest(Window(log, now, w), now) + w - now))
  }

  /* ------------------------------------------------------------------ in process memory */

  const WINDOW_MS := 60_000

  /** The history every policy of the process shares, with the log it stands for. */
  class History {
    var history: map<string, seq<int>>
    var lastSweepAt: int
    ghost var logs: map<string, seq<int>>
    ghost var clock: int

    constructor ()
      ensures Valid() && logs == map[] && clock == 0
    {
      history, lastSweepAt, logs, clock := map[], 0, map[], 0;
      new;
      assert RemembersFrom([], [], 0, WINDOW_MS, 0);
    }

    function Held(key: string): seq<int>
      reads this`history
    {
      if key in history then history[key] else []
    }

    ghost function Log(key: string): seq<int>
      reads this`logs
    {
      if key in logs then logs[key] else []
    }

    ghost predicate Ok(key: string)
      reads this`history, this`logs, this`clock
    {
      Timed(Log(key), clock) && Remembers(Held(key), Log(key), clock, WINDOW_MS)
    }

    ghost predicate Valid()
      reads this`history, this`logs, this`clock
    {
      forall key :: Ok(key)
    }

    /** Lets go of every admission that has left its window, at most once per interval. */
    method SweepExpiredEntries(now: int, interval: int)
      requires Valid() && clock <= now
      modifies this
      ensures Valid() && clock == now && logs == old(logs)
    {
      clock := now;
      forall key ensures Ok(key) {
        assert old(Ok(key)) && Log(key) == old(Log(key)) && Held(key) == old(Held(key));
        RemembersLater(Held(key), Log(key), old(clock), WINDOW_MS, now);
      }
      if now - lastSweepAt < interval { return; }
      label swept:
      lastSweepAt := now;
      forall key ensures Ok(key) { assert old@swept(Ok(key)); }
      var todo := history.Keys;
      while todo != {}
        invariant todo <= history.Keys && clock == now && logs == old(logs)
        invariant Valid()
        decreases |todo|
      {
        var key :| key in todo;
        SweepKey(key, now);
        todo := todo - {key};
      }
    }

    method SweepKey(key: string, now: int)
      requires Valid() && clock == now && key in history
      modifies `history
      ensures Valid() && history.Keys + {key} == old(history.Keys)
    {
      var recent := Window(history[key], now, WINDOW_MS);
      assert Ok(key);
      PruningRemembers(Held(key), Log(key), clock, WINDOW_MS, now);
      if recent == [] {
        history := history - {key};
      } else if |recent| != |history[key]| {
        history := history[key := recent];
      }
      forall k ensures Ok(k) {
        assert old(Ok(k)) && (k != key ==> Held(k) == old(Held(k)));
        assert Log(k) == old(Log(k));
        if k == key { WindowWhole(old(Held(key)), now, WINDOW_MS); }
      }
    }
  }

  /** Nothing left the window if nothing is missing. */
  lemma {:induction false} WindowWhole(log: seq<int>, now: int, w: int)
    ensures |Window(log, now, w)| <= |log|
    ensures |Window(log, now, w)| == |log| ==> Window(log, now, w) == log
  {
    if log != [] { WindowWhole(log[1..], now, w); }
  }

  class RateLimitPolicy {
    const shared: History
    const maxCalls: int
    const sweepIntervalMs: int

    constructor (shared: History, maxCalls: int, sweepIntervalMs: int)
      ensures this.shared == shared && this.maxCalls == maxCalls && this.sweepIntervalMs == sweepIntervalMs
    {
      this.shared, this.maxCalls, this.sweepIntervalMs := shared, maxCalls, sweepIntervalMs;
    }

    /** Decides, and logs, as the specification does over the whole log. */
    method Evaluate(key: string, now: int) returns (d: Decision)
      requires shared.Valid() && shared.clock <= now
      modifies shared
      ensures shared.Valid() && shared.clock == now
      ensures d == Verdict(old(shared.Log(key)), now, maxCalls, WINDOW_MS)
      ensures shared.Log(key) == Logged(old(shared.Log(key)), now, maxCalls, WINDOW_MS)
      ensures forall k | k != key :: shared.Log(k) == old(shared.Log(k))
    {
      shared.SweepExpiredEntries(now, sweepIntervalMs);
      ghost var log := shared.Log(key);
      assert shared.Ok(key);
      var timestamps := Window(shared.Held(key), now, WINDOW_MS);
      Pruned(shared.Held(key), log, now);
      if |timestamps| >= maxCalls {
        Keep(key, timestamps, log);
        d := Deny(RetryAfter(Oldest(timestamps, now) + WINDOW_MS - now));
      } else {
        Keep(key, timestamps + [now], log + [now]);
        d := Allow;
      }
    }

    lemma Pruned(held: seq<int>, log: seq<int>, now: int)
      requires Timed(log, now) && Remembers(held, log, now, WINDOW_MS)
      ensures var window := Window(held, now, WINDOW_MS);
        && window == Window(log, now, WINDOW_MS) && Remembers(window, log, now, WINDOW_MS)
        && Remembers(window + [now], log + [now], now, WINDOW_MS) && Timed(log + [now], now)
    {
      var window := Window(held, now, WINDOW_MS);
      MemoryDecides(held, log, now, WINDOW_MS, now);
      PruningRemembers(held, log, now, WINDOW_MS, now);
      AdmittingRemembers(window, log, now, WINDOW_MS);
      TimedNext(log, now);
    }

    method Keep(key: string, held: seq<int>, ghost log: seq<int>)
      requires shared.Valid() && Timed(log, shared.clock) && Remembers(held, log, shared.clock, WINDOW_MS)
      modifies shared`history, shared`logs
      ensures shared.Valid() && shared.Held(key) == held && shared.Log(key) == log
      ensures forall k | k != key :: shared.Log(k) == old(shared.Log(k))
    {
      shared.history := shared.history[key := held];
      shared.logs := shared.logs[key := log];
      forall k ensures shared.Ok(k) {
        assert old(shared.Ok(k));
        assert k != key ==> shared.Held(k) == old(shared.Held(k)) && shared.Log(k) == old(shared.Log(k));
      }
    }
  }

  /* ------------------------------------------------------------------ in a sorted set */

  /** One key of the store: scores in order, and when the key expires. */
  class SortedSet {
    var scores: seq<int>
    var expireAt: Option<int>
    ghost var log: seq<int>
    ghost var clock: int

    constructor ()
      ensures scores == [] && log == [] && clock == 0 && expireAt.None?
    {
      scores, expireAt, log, clock := [], None, [], 0;
    }

    ghost predicate Valid(w: int)
      reads this
    {
      && Timed(log, clock) && Remembers(scores, log, clock, w)
      && (expireAt.Some? ==> forall i :: 0 <= i < |log| ==> log[i] + w <= expireAt.value)
    }

    /** Removes members scored at most `limit`. */
    method RemoveUpTo(limit: int, ghost now: int, ghost w: int)
      requires limit == now - w
      modifies `scores
      ensures scores == Window(old(scores), now, w)
    {
      var kept: seq<int> := [];
      var was := scores;
      for i := 0 to |was|
        invariant kept + Window(was[i..], now, w) == Window(was, now, w) && scores == was
      {
        assert was[i..][1..] == was[i + 1..];
        Assoc(kept, if was[i] > limit then [was[i]] else [], Window(was[i + 1..], now, w));
        if was[i] > limit { kept := kept + [was[i]]; }
      }
      assert was[|was|..] == [] && kept + [] == kept;
      scores := kept;
    }

    /** The key expires on its own, and the script evicts what has left the window. */
    method Evict(now: int, w: int)
      requires Valid(w) && clock <= now && w >= 1
      modifies `scores, `expireAt, `clock
      ensures Valid(w) && clock == now && scores == Window(log, now, w)
    {
      ghost var from := WindowIsEnd(log, now, w);
      ghost var before := scores;
      if expireAt.Some? && now >= expireAt.value {
        scores, expireAt := [], None;
        assert RemembersFrom(scores, log, now, w, |log|);
      }
      RemembersNow(before, scores, clock, w, now);
      clock := now;
      MemoryDecides(scores, log, now, w, now);
      PruningRemembers(scores, log, now, w, now);
      RemoveUpTo(now - w, now, w);
    }

    method Admit(now: int, w: int)
      requires Valid(w) && clock == now && w >= 1
      modifies `scores, `expireAt, `log
      ensures Valid(w) && log == old(log) + [now]
    {
      AdmittingRemembers(scores, log, now, w);
      scores, expireAt := scores + [now], Some(now + w);
      log := log + [now];
    }

    /** The script, with the key expiring on its own: it decides as the log does. */
    method Script(now: int, w: int, maxCalls: int) returns (allowed: bool, retryAfterMs: int)
      requires Valid(w) && clock <= now && maxCalls >= 1 && w >= 1
      modifies this
      ensures Valid(w) && clock == now
      ensures allowed <==> Admits(old(log), now, maxCalls, w)
      ensures log == Logged(old(log), now, maxCalls, w)
      ensures !allowed ==> retryAfterMs == Window(old(log), now, w)[0] + w - now && retryAfterMs > 0
    {
      Evict(now, w);
      if |scores| >= maxCalls {
        ghost var from := WindowIsEnd(log, now, w);
        retryAfterMs := if scores == [] then w else scores[0] + w - now;
        if retryAfterMs < 0 { retryAfterMs := 0; }
        return false, retryAfterMs;
      }
      Admit(now, w);
      return true, 0;
    }

    lemma RemembersNow(before: seq<int>, held: seq<int>, earlier: int, w: int, now: int)
      requires Remembers(before, log, earlier, w) && earlier <= now
      requires held == before || Remembers(held, log, now, w)
      ensures Remembers(held, log, now, w)
    {
      if held == before { RemembersLater(before, log, earlier, w, now); }
    }
  }

  /* ------------------------------------------------------------------- the retry hint */

  /** A call is admitted exactly when the admission `max` before it, if there is one, has left the window. */
  lemma AdmitsIff(log: seq<int>, now: int, max: int, w: int)
    requires Timed(log, now) && max >= 1
    ensures Admits(log, now, max, w) <==> |log| < max || now - log[|log| - max] >= w
  {
    var from := WindowIsEnd(log, now, w);
  }

  /** When a denied caller is told to come back. */
  function HintedAt(log: seq<int>, now: int, w: int): int {
    now + RetryAfter(Oldest(Window(log, now, w), now) + w - now) * 1000
  }

  /**
   Waiting as long as told, with no one admitted in between, is enough exactly when by then the
   admission `max` before has left the window; it has whenever the window is exactly full.
   */
  lemma HintIsEnoughIff(log: seq<int>, now: int, max: int, w: int)
    requires Timed(log, now) && max >= 1 && !Admits(log, now, max, w)
    ensures |log| >= max
    ensures (forall later | later >= HintedAt(log, now, w) :: Admits(log, later, max, w))
      <==> HintedAt(log, now, w) - log[|log| - max] >= w
    ensures |Window(log, now, w)| == max ==> HintedAt(log, now, w) - log[|log| - max] >= w
  {
    var from := WindowIsEnd(log, now, w);
    RetryCovers(Oldest(Window(log, now, w), now) + w - now);
    AdmitsIff(log, HintedAt(log, now, w), max, w);
    forall later | later >= HintedAt(log, now, w)
      ensures HintedAt(log, now, w) - log[|log| - max] >= w ==> Admits(log, later, max, w)
    {
      AdmitsIff(log, later, max, w);
    }
  }

  /** With one limit per key, of at least 1, the window is never more than full, so the hint is enough. */
  lemma HintIsEnough(log: seq<int>, now: int, max: int, w: int, later: int)
    requires Timed(log, now) && Spaced(log, max, w) && max >= 1 && !Admits(log, now, max, w)
    requires later >= HintedAt(log, now, w)
    ensures Admits(log, later, max, w)
  {
    var from := WindowIsEnd(log, now, w);
    CloseTogether(log, from, |log| - 1, max, w);
    HintIsEnoughIff(log, now, max, w);
  }

  /** A limit of 0 or less, which the in-process policy accepts, denies for ever and still gives a hint. */
  lemma ZeroLimitNeverAdmits(log: seq<int>, later: int, max: int, w: int)
    requires max <= 0
    ensures !Admits(log, later, max, w)
  {}

  /**
   Two policies with different limits share a history: the stricter one's hint looks only at the
   oldest admission, and can be too short for it.
   */
  lemma SharedHistoryHintTooShort()
    ensures var log := [0, 30_000];
      && Logged(Logged([], 0, 2, WINDOW_MS), 30_000, 2, WINDOW_MS) == log
      && !Admits(log, 30_000, 1, WINDOW_MS)
      && !Admits(log, HintedAt(log, 30_000, WINDOW_MS), 1, WINDOW_MS)
  {
    var log := [0, 30_000];
    assert log[1..] == [30_000] && [30_000][1..] == [] && [0][1..] == [];
    assert Window([], 0, WINDOW_MS) == [] && [] + [0] == [0];
    assert Window([0], 30_000, WINDOW_MS) == [0];
    assert Window(log, 30_000, WINDOW_MS) == [0, 30_000];
    assert Window(log, 60_000, WINDOW_MS) == [30_000];
  }
}
