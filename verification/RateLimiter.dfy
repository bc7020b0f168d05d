/** The fixed-window rate limiter: one counter per key, expiring a window after its first increment. */
module RateLimiter {
  import opened Base

  /** Times in milliseconds: a key exists until its expiry time. */
  datatype Counter = Counter(count: nat, expires: int)

  /** EXPIRE takes whole seconds, at least one. */
  function Span(windowNanos: int): (ms: int)
    ensures ms >= 1000 && ms % 1000 == 0
    ensures windowNanos < 1_000_000_000 ==> ms == 1000
    ensures windowNanos >= 1_000_000_000 ==> ms * 1_000_000 <= windowNanos < (ms + 1000) * 1_000_000
  {
    var seconds := windowNanos / 1_000_000_000;
    1000 * if seconds <= 0 then 1 else seconds
  }

  predicate Alive(c: Option<Counter>, now: int) {
    c.Some? && now < c.value.expires
  }

  predicate Refuses(c: Option<Counter>, limit: int, now: int) {
    Alive(c, now) && c.value.count >= limit
  }

  /** The counter after a request that was let through. */
  function Counted(c: Option<Counter>, span: int, now: int): Counter {
    if Alive(c, now) then Counter(c.value.count + 1, c.value.expires) else Counter(1, now + span)
  }

  class Client {
    var counters: map<string, Counter>

    constructor ()
      ensures counters == map[]
    {
      counters := map[];
    }

    function Get(key: string): Option<Counter>
      reads this
    {
      if key in counters then Some(counters[key]) else None
    }

    /** The script: refuse without touching anything, or increment and start the window on the first hit. */
    method Allow(key: string, limit: int, windowNanos: int, now: int) returns (allowed: bool)
      modifies this
      ensures !allowed <==> key in old(counters) && now < old(counters)[key].expires && old(counters)[key].count >= limit
      ensures allowed ==>
                key in counters
                && if key in old(counters) && now < old(counters)[key].expires
                   then counters[key].count == old(counters)[key].count + 1 && counters[key].expires == old(counters)[key].expires
                   else counters[key].count == 1 && counters[key].expires == now + Span(windowNanos)
      ensures forall other :: other != key ==>
                (other in counters <==> other in old(counters)) && (other in counters ==> counters[other] == old(counters)[other])
      ensures allowed == !Refuses(old(Get(key)), limit, now)
      ensures !allowed ==> counters == old(counters)
      ensures allowed ==> counters == old(counters)[key := Counted(old(Get(key)), Span(windowNanos), now)]
    {
      var seconds := windowNanos / 1_000_000_000;
      if seconds <= 0 {
        seconds := 1;
      }
      var current := Get(key);
      if current.Some? && !(now < current.value.expires) {
        current := None;
      }
      if current.Some? && current.value.count >= limit {
        return false;
      }
      var count, expires := 1, now;
      if current.Some? {
        count, expires := current.value.count + 1, current.value.expires;
      }
      counters := counters[key := Counter(count, if current.None? then now + 1000 * seconds else expires)];
      return true;
    }
  }

  // ---- Runs of one key ----

  /** The counter, the clock and the times of all allowed requests. */
  datatype Trace = Trace(counter: Option<Counter>, clock: int, allowed: seq<int>)

  function Request(tr: Trace, limit: int, span: int, now: int): Trace {
    if Refuses(tr.counter, limit, now) then tr.(clock := now)
    else Trace(Some(Counted(tr.counter, span, now)), now, tr.allowed + [now])
  }

  function Requests(limit: int, span: int, start: int, times: seq<int>): Trace {
    if times == [] then Trace(None, start, [])
    else Request(Requests(limit, span, start, times[..|times| - 1]), limit, span, times[|times| - 1])
  }

  /** A clock that never runs backwards. */
  predicate Ordered(start: int, times: seq<int>) {
    && (forall i :: 0 <= i < |times| ==> start <= times[i])
    && (forall i, j :: 0 <= i < j < |times| ==> times[i] <= times[j])
  }

  /** How many times lie in the half-open interval. */
  function Count(times: seq<int>, from: int, until: int): nat {
    if times == [] then 0
    else
      var t := times[|times| - 1];
      Count(times[..|times| - 1], from, until) + if from <= t < until then 1 else 0
  }

  lemma CountAppend(times: seq<int>, t: int, from: int, until: int)
    ensures Count(times + [t], from, until) == Count(times, from, until) + if from <= t < until then 1 else 0
  {
    assert (times + [t])[..|times|] == times;
  }

  lemma {:induction false} CountSplit(times: seq<int>, from: int, middle: int, until: int)
    requires from <= middle <= until
    ensures Count(times, from, until) == Count(times, from, middle) + Count(times, middle, until)
  {
    if times != [] {
      CountSplit(times[..|times| - 1], from, middle, until);
    }
  }

  lemma {:induction false} CountWithin(times: seq<int>, from: int, until: int, from': int, until': int)
    requires from <= from' && until' <= until
    ensures Count(times, from', until') <= Count(times, from, until)
  {
    if times != [] {
      CountWithin(times[..|times| - 1], from, until, from', until');
    }
  }

  lemma {:induction false} CountNone(times: seq<int>, from: int, until: int)
    requires forall i :: 0 <= i < |times| ==> times[i] < from
    ensures Count(times, from, until) == 0
  {
    if times != [] {
      CountNone(times[..|times| - 1], from, until);
    }
  }

  /** A limit below one still lets one request through per window. */
  function Effective(limit: int): nat {
    if limit < 1 then 1 else limit
  }

  /** Just before the current window, an interval shorter than a window has seen fewer than the limit. */
  ghost predicate QuietBefore(tr: Trace, start: int, span: int, limit: int) {
    forall a :: start - span < a <= start ==> Count(tr.allowed, a, start) <= Effective(limit) - 1
  }

  /** No interval of window length holds more than twice the limit minus one. */
  ghost predicate Bounded(tr: Trace, span: int, limit: int) {
    forall a, b :: b <= a + span ==> Count(tr.allowed, a, b) <= 2 * Effective(limit) - 1
  }

  ghost predicate TraceFine(tr: Trace, limit: int, span: int) {
    && Bounded(tr, span, limit)
    && (forall i :: 0 <= i < |tr.allowed| ==> tr.allowed[i] <= tr.clock)
    && (tr.counter.None? ==> tr.allowed == [])
    && (tr.counter.Some? ==>
          var c := tr.counter.value;
          var start := c.expires - span;
          && start <= tr.clock < c.expires
          && c.count <= Effective(limit)
          && Count(tr.allowed, start, c.expires) == c.count
          && Count(tr.allowed, start + 1, c.expires) <= c.count - 1
          && QuietBefore(tr, start, span, limit))
  }

  lemma RefusedFine(tr: Trace, limit: int, span: int, now: int)
    requires TraceFine(tr, limit, span) && tr.clock <= now && Refuses(tr.counter, limit, now)
    ensures TraceFine(Request(tr, limit, span, now), limit, span)
  {
  }

  /** A request inside the running window. */
  lemma SameWindowFine(tr: Trace, limit: int, span: int, now: int)
    requires span >= 1 && TraceFine(tr, limit, span) && tr.clock <= now
    requires Alive(tr.counter, now) && !Refuses(tr.counter, limit, now)
    ensures TraceFine(Request(tr, limit, span, now), limit, span)
  {
    var c := tr.counter.value;
    var start := c.expires - span;
    var next := Request(tr, limit, span, now);
    forall a, b ensures Count(next.allowed, a, b) == Count(tr.allowed, a, b) + if a <= now < b then 1 else 0 {
      CountAppend(tr.allowed, now, a, b);
    }
    forall a, b | b <= a + span ensures Count(next.allowed, a, b) <= 2 * Effective(limit) - 1 {
      if a <= now < b {
        if a < start {
          CountSplit(next.allowed, a, start, b);
          CountWithin(next.allowed, start, c.expires, start, b);
          assert Count(tr.allowed, a, start) <= Effective(limit) - 1;
        } else {
          CountBeyond(next.allowed, start, c.expires, a, b, next.clock);
        }
      }
    }
    if now == start {
      CountNone(next.allowed, start + 1, c.expires);
    }
  }

  /** Nothing lies after the clock, so an interval starting in the window counts at most the window. */
  lemma {:induction false} CountBeyond(times: seq<int>, from: int, until: int, a: int, b: int, clock: int)
    requires from <= a && clock < until
    requires forall i :: 0 <= i < |times| ==> times[i] <= clock
    ensures Count(times, a, b) <= Count(times, from, until)
  {
    if times != [] {
      CountBeyond(times[..|times| - 1], from, until, a, b, clock);
    }
  }

  /** A request that finds no counter, or an expired one, and starts a window. */
  lemma NewWindowFine(tr: Trace, limit: int, span: int, now: int)
    requires span >= 1 && TraceFine(tr, limit, span) && tr.clock <= now && !Alive(tr.counter, now)
    ensures TraceFine(Request(tr, limit, span, now), limit, span)
  {
    var next := Request(tr, limit, span, now);
    forall a, b ensures Count(next.allowed, a, b) == Count(tr.allowed, a, b) + if a <= now < b then 1 else 0 {
      CountAppend(tr.allowed, now, a, b);
    }
    NothingFrom(tr, limit, span, now);
    forall a | now - span < a <= now ensures Count(next.allowed, a, now) <= Effective(limit) - 1 {
      LateHits(tr, limit, span, now, a);
    }
    forall a, b | b <= a + span ensures Count(next.allowed, a, b) <= 2 * Effective(limit) - 1 {
      if a <= now < b {
        CountSplit(next.allowed, a, now, b);
        assert Count(next.allowed, a, now) <= Effective(limit) - 1;
        assert Count(tr.allowed, now, b) == 0;
      }
    }
  }

  lemma NothingFrom(tr: Trace, limit: int, span: int, now: int)
    requires TraceFine(tr, limit, span) && tr.clock <= now && !Alive(tr.counter, now)
    ensures forall a, b :: now <= a ==> Count(tr.allowed, a, b) == 0
  {
    forall a, b | now <= a ensures Count(tr.allowed, a, b) == 0 {
      if tr.counter.Some? {
        CountNone(tr.allowed, a, b);
      }
    }
  }

  lemma LateHits(tr: Trace, limit: int, span: int, now: int, a: int)
    requires span >= 1 && TraceFine(tr, limit, span) && tr.clock <= now && !Alive(tr.counter, now) && now - span < a <= now
    ensures Count(tr.allowed, a, now) <= Effective(limit) - 1
  {
    if tr.counter.Some? {
      var c := tr.counter.value;
      CountBeyond(tr.allowed, c.expires - span + 1, c.expires, a, now, tr.clock);
    }
  }

  lemma {:induction false} RequestsFine(limit: int, span: int, start: int, times: seq<int>)
    requires span >= 1 && Ordered(start, times)
    ensures TraceFine(Requests(limit, span, start, times), limit, span)
    ensures Requests(limit, span, start, times).clock == if times == [] then start else times[|times| - 1]
  {
    if times != [] {
      var n := |times| - 1;
      RequestsFine(limit, span, start, times[..n]);
      var tr := Requests(limit, span, start, times[..n]);
      hide TraceFine;
      if Refuses(tr.counter, limit, times[n]) {
        RefusedFine(tr, limit, span, times[n]);
      } else if Alive(tr.counter, times[n]) {
        SameWindowFine(tr, limit, span, times[n]);
      } else {
        NewWindowFine(tr, limit, span, times[n]);
      }
    }
  }

  /** Over any run, an interval as long as a counter lives holds at most 2 * limit - 1 allowed requests,
      and a counter's own window at most limit. */
  lemma SpanBound(limit: int, windowNanos: int, start: int, times: seq<int>, a: int)
    requires Ordered(start, times)
    ensures var after := Requests(limit, Span(windowNanos), start, times);
            && Count(after.allowed, a, a + Span(windowNanos)) <= 2 * Effective(limit) - 1
            && (after.counter.Some? ==>
                  var end := after.counter.value.expires;
                  Count(after.allowed, end - Span(windowNanos), end) <= Effective(limit))
  {
    RequestsFine(limit, Span(windowNanos), start, times);
  }

  // ---- The bound is reached ----

  function Repeat(t: int, n: nat): seq<int> {
    if n == 0 then [] else Repeat(t, n - 1) + [t]
  }

  lemma {:induction false} CountRepeat(times: seq<int>, t: int, n: nat, from: int, until: int)
    requires from <= t < until
    ensures Count(times + Repeat(t, n), from, until) == Count(times, from, until) + n
  {
    if n == 0 {
      assert times + Repeat(t, 0) == times;
    } else {
      hide Count;
      CountRepeat(times, t, n - 1, from, until);
      assert Repeat(t, n) == Repeat(t, n - 1) + [t];
      hide Repeat;
      assert times + Repeat(t, n) == (times + Repeat(t, n - 1)) + [t];
      CountAppend(times + Repeat(t, n - 1), t, from, until);
    }
  }

  lemma RequestsAppend(limit: int, span: int, start: int, times: seq<int>, t: int)
    ensures Requests(limit, span, start, times + [t]) == Request(Requests(limit, span, start, times), limit, span, t)
  {
    assert (times + [t])[..|times|] == times;
  }

  /** n more requests at one moment of a live window with room for them are all let through. */
  lemma {:induction false} Fill(limit: int, span: int, start: int, times: seq<int>, t: int, n: nat)
    requires var c := Requests(limit, span, start, times).counter; Alive(c, t) && c.value.count + n <= Effective(limit)
    requires Requests(limit, span, start, times).counter.value.count >= 1
    ensures var before, after := Requests(limit, span, start, times), Requests(limit, span, start, times + Repeat(t, n));
            && after.allowed == before.allowed + Repeat(t, n)
            && after.counter == Some(Counter(before.counter.value.count + n, before.counter.value.expires))
  {
    hide Requests;
    var before := Requests(limit, span, start, times);
    if n == 0 {
      assert times + Repeat(t, 0) == times;
      assert before.allowed + Repeat(t, 0) == before.allowed;
    } else {
      Fill(limit, span, start, times, t, n - 1);
      var longer := times + Repeat(t, n - 1);
      RequestsAppend(limit, span, start, longer, t);
      assert Repeat(t, n) == Repeat(t, n - 1) + [t];
      hide Repeat;
      assert times + Repeat(t, n) == longer + [t];
      assert before.allowed + Repeat(t, n) == (before.allowed + Repeat(t, n - 1)) + [t];
    }
  }

  /** One request, the rest of the limit early or late in its window, and the whole limit at the start of the next. */
  function Burst(limit: int, span: int, extra: int): seq<int> {
    [0] + Repeat(extra, Effective(limit) - 1) + [span] + Repeat(span, Effective(limit) - 1)
  }

  lemma FirstRequest(limit: int, span: int)
    ensures Requests(limit, span, 0, [0]) == Trace(Some(Counter(1, span)), 0, [0])
  {
    assert [0][..0] == [];
  }

  /** All of the burst is let through. */
  lemma BurstAllowed(limit: int, span: int, extra: int)
    requires 0 <= extra < span
    ensures Requests(limit, span, 0, Burst(limit, span, extra)).allowed == Burst(limit, span, extra)
  {
    hide Requests, Repeat;
    var more := Effective(limit) - 1;
    FirstRequest(limit, span);
    Fill(limit, span, 0, [0], extra, more);
    var two := [0] + Repeat(extra, more);
    RequestsAppend(limit, span, 0, two, span);
    Fill(limit, span, 0, two + [span], span, more);
  }

  lemma BurstOrdered(limit: int, span: int, extra: int)
    requires 0 <= extra < span
    ensures Ordered(0, Burst(limit, span, extra))
  {
    hide Repeat;
    RepeatAll(extra, Effective(limit) - 1);
    RepeatAll(span, Effective(limit) - 1);
  }

  lemma BurstCount(limit: int, span: int, extra: int, from: int, until: int)
    requires 0 <= extra < span && from <= extra && span < until
    ensures Count(Burst(limit, span, extra), from, until) == 2 * Effective(limit) - 1 + if from <= 0 then 1 else 0
  {
    hide Repeat, Count;
    var more := Effective(limit) - 1;
    CountStart(from, until);
    CountRepeat([0], extra, more, from, until);
    var two := [0] + Repeat(extra, more);
    CountAppend(two, span, from, until);
    CountRepeat(two + [span], span, more, from, until);
  }

  lemma CountStart(from: int, until: int)
    requires until > 0
    ensures Count([0], from, until) == if from <= 0 then 1 else 0
  {
    assert [0][..0] == [];
  }

  /** Twice the limit minus one within one counter's lifetime is possible for every limit and window. */
  lemma BoundIsReached(limit: int, windowNanos: int)
    ensures var span := Span(windowNanos);
            var times := Burst(limit, span, span - 1);
            && Ordered(0, times)
            && Count(Requests(limit, span, 0, times).allowed, 1, 1 + span) == 2 * Effective(limit) - 1
  {
    hide Requests, Count, Burst, Ordered;
    var span := Span(windowNanos);
    BurstAllowed(limit, span, span - 1);
    BurstOrdered(limit, span, span - 1);
    BurstCount(limit, span, span - 1, 1, 1 + span);
  }

  lemma {:induction false} RepeatAll(t: int, n: nat)
    ensures |Repeat(t, n)| == n && forall i :: 0 <= i < n ==> Repeat(t, n)[i] == t
  {
    if n > 0 {
      RepeatAll(t, n - 1);
    }
  }

  // ---- The window the caller asked for ----

  const MILLI := 1_000_000
  const SECOND := 1_000_000_000

  /** How many of these times (milliseconds) lie in the window that starts at from (nanoseconds). */
  function InWindow(times: seq<int>, from: int, windowNanos: int): nat {
    if times == [] then 0
    else
      var t := times[|times| - 1];
      InWindow(times[..|times| - 1], from, windowNanos) + if from <= t * MILLI < from + windowNanos then 1 else 0
  }

  function Ceiling(nanos: int): int {
    (nanos + MILLI - 1) / MILLI
  }

  lemma {:induction false} InWindowIsCount(times: seq<int>, from: int, windowNanos: int)
    ensures InWindow(times, from, windowNanos) == Count(times, Ceiling(from), Ceiling(from + windowNanos))
  {
    if times != [] {
      InWindowIsCount(times[..|times| - 1], from, windowNanos);
    }
  }

  /** The bound for the window asked for, over all runs with a clock that never runs backwards. */
  ghost predicate WindowBounded(limit: int, windowNanos: int) {
    forall start: int, times: seq<int>, from: int :: Ordered(start, times) ==>
      InWindow(Requests(limit, Span(windowNanos), start, times).allowed, from, windowNanos) <= 2 * Effective(limit) - 1
  }

  /**
   * The limiter keeps to 2 * limit - 1 in every window of the length asked for exactly when that length is a
   * whole number of seconds, or at most one second: the expiry drops the fraction of a second.
   */
  lemma WindowBound(limit: int, windowNanos: int)
    ensures WindowBounded(limit, windowNanos) <==> windowNanos <= SECOND || windowNanos % SECOND == 0
  {
    if windowNanos <= MILLI * Span(windowNanos) {
      forall start: int, times: seq<int>, from: int | Ordered(start, times)
        ensures InWindow(Requests(limit, Span(windowNanos), start, times).allowed, from, windowNanos) <= 2 * Effective(limit) - 1
      {
        WithinSpan(limit, windowNanos, start, times, from);
      }
    } else {
      BeyondSpan(limit, windowNanos);
    }
  }

  lemma WithinSpan(limit: int, windowNanos: int, start: int, times: seq<int>, from: int)
    requires Ordered(start, times) && windowNanos <= MILLI * Span(windowNanos)
    ensures InWindow(Requests(limit, Span(windowNanos), start, times).allowed, from, windowNanos) <= 2 * Effective(limit) - 1
  {
    var span := Span(windowNanos);
    var allowed := Requests(limit, span, start, times).allowed;
    hide Requests, Count, InWindow, Span, Ordered;
    InWindowIsCount(allowed, from, windowNanos);
    SpanBound(limit, windowNanos, start, times, Ceiling(from));
    assert Ceiling(from + windowNanos) <= Ceiling(from) + span;
    CountWithin(allowed, Ceiling(from), Ceiling(from) + span, Ceiling(from), Ceiling(from + windowNanos));
  }

  /** Twice the limit within a window whose fraction of a second was dropped. */
  lemma BeyondSpan(limit: int, windowNanos: int)
    requires windowNanos > MILLI * Span(windowNanos)
    ensures var times := Burst(limit, Span(windowNanos), 0);
            && Ordered(0, times)
            && InWindow(Requests(limit, Span(windowNanos), 0, times).allowed, 0, windowNanos) == 2 * Effective(limit)
  {
    var span := Span(windowNanos);
    hide Requests, Count, InWindow, Burst, Ordered, Span;
    BurstAllowed(limit, span, 0);
    BurstOrdered(limit, span, 0);
    InWindowIsCount(Burst(limit, span, 0), 0, windowNanos);
    assert Ceiling(0) == 0 && Ceiling(windowNanos) > span;
    BurstCount(limit, span, 0, 0, Ceiling(windowNanos));
  }
}
