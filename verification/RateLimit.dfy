/** The fixed-window rate limiter: one counter per key, refined against a limiter that keeps
    every allowed timestamp, and bounded over arbitrary intervals of time. */
module RateLimit {
  import opened Foundations

  datatype Window = Window(startedAt: real, count: nat)

  datatype Answer = Answer(allowed: bool, retryAfter: real)

  datatype Limits = Limits(maxRequests: int, windowSeconds: real)

  /** What the constructor accepts. */
  predicate Accepted(limits: Limits) {
    limits.maxRequests >= 1 && limits.windowSeconds > 0.0
  }

  function NonNegative(x: real): real {
    if x < 0.0 then 0.0 else x
  }

  /** One check against one key's window: the window afterwards, and the answer. */
  function CheckWindow(window: Option<Window>, now: real, limits: Limits): (Window, Answer) {
    if window.None? || now - window.value.startedAt >= limits.windowSeconds then
      (Window(now, 1), Answer(true, 0.0))
    else if window.value.count < limits.maxRequests then
      (window.value.(count := window.value.count + 1), Answer(true, 0.0))
    else
      (window.value, Answer(false, NonNegative(limits.windowSeconds - (now - window.value.startedAt))))
  }

  function WindowOf(windows: map<string, Window>, key: string): Option<Window> {
    if key in windows then Some(windows[key]) else None
  }

  class InMemoryRateLimiter {
    const limits: Limits
    var windows: map<string, Window>

    constructor (limits: Limits)
      requires Accepted(limits)
      ensures this.limits == limits && windows == map[]
    {
      this.limits := limits;
      windows := map[];
    }

    /** Out-of-range parameters raise before anything is built. */
    static method Build(limits: Limits) returns (limiter: InMemoryRateLimiter?)
      ensures limiter != null <==> Accepted(limits)
      ensures limiter != null ==> fresh(limiter) && limiter.limits == limits && limiter.windows == map[]
    {
      if limits.maxRequests < 1 || limits.windowSeconds <= 0.0 {
        return null;
      }
      limiter := new InMemoryRateLimiter(limits);
    }

    method Check(key: string, now: real) returns (allowed: bool, retryAfter: real)
      modifies this
      ensures var (window, answer) := CheckWindow(WindowOf(old(windows), key), now, limits);
        windows == old(windows)[key := window] && allowed == answer.allowed && retryAfter == answer.retryAfter
    {
      if key !in windows || now - windows[key].startedAt >= limits.windowSeconds {
        windows := windows[key := Window(now, 1)];
        return true, 0.0;
      }
      var window := windows[key];
      if window.count < limits.maxRequests {
        windows := windows[key := window.(count := window.count + 1)];
        return true, 0.0;
      }
      var remaining := limits.windowSeconds - (now - window.startedAt);
      retryAfter := if remaining < 0.0 then 0.0 else remaining;
      assert windows[key := window] == windows;
      return false, retryAfter;
    }
  }

  // ---------------------------------------------------------------------------
  // Histories of calls on the one-counter limiter

  datatype Call = Call(key: string, now: real)

  function After(h: seq<Call>, limits: Limits): map<string, Window> {
    if h == [] then map[]
    else
      var windows, call := After(h[..|h| - 1], limits), h[|h| - 1];
      windows[call.key := CheckWindow(WindowOf(windows, call.key), call.now, limits).0]
  }

  /** The answer to a call made after history `h`. */
  function AnswerTo(h: seq<Call>, call: Call, limits: Limits): Answer {
    CheckWindow(WindowOf(After(h, limits), call.key), call.now, limits).1
  }

  /** The times at which `key` itself was called. */
  function Times(h: seq<Call>, key: string): seq<real> {
    if h == [] then []
    else Times(h[..|h| - 1], key) + (if h[|h| - 1].key == key then [h[|h| - 1].now] else [])
  }

  // ---------------------------------------------------------------------------
  // The specification keeps every allowed timestamp

  /** The position that opened the window the last timestamp belongs to. */
  function Opener(log: seq<real>, width: real): (o: nat)
    requires log != []
    ensures o < |log|
  {
    if |log| == 1 then 0
    else
      var last := |log| - 1;
      var o := Opener(log[..last], width);
      if log[last] - log[o] >= width then last else o
  }

  /** The live window's timestamps are those from its opener on. */
  function LogAnswer(log: seq<real>, now: real, limits: Limits): Answer {
    if log == [] || now - log[Opener(log, limits.windowSeconds)] >= limits.windowSeconds then Answer(true, 0.0)
    else
      var o := Opener(log, limits.windowSeconds);
      if |log| - o < limits.maxRequests then Answer(true, 0.0)
      else Answer(false, NonNegative(limits.windowSeconds - (now - log[o])))
  }

  function LogAfter(times: seq<real>, limits: Limits): seq<real> {
    if times == [] then []
    else
      var log, now := LogAfter(times[..|times| - 1], limits), times[|times| - 1];
      if LogAnswer(log, now, limits).allowed then log + [now] else log
  }

  /** The counter is a summary of the log: when its live window opened and how many it has. */
  predicate Summarises(window: Option<Window>, log: seq<real>, limits: Limits) {
    if log == [] then window == None
    else
      var o := Opener(log, limits.windowSeconds);
      window == Some(Window(log[o], |log| - o))
  }

  lemma OpenerAppend(log: seq<real>, now: real, width: real)
    requires log != []
    ensures Opener(log + [now], width) == if now - log[Opener(log, width)] >= width then |log| else Opener(log, width)
  {
    assert (log + [now])[..|log|] == log;
  }

  lemma SummaryStep(window: Option<Window>, log: seq<real>, now: real, limits: Limits)
    requires Accepted(limits) && Summarises(window, log, limits)
    ensures CheckWindow(window, now, limits).1 == LogAnswer(log, now, limits)
    ensures var (next, answer) := CheckWindow(window, now, limits);
      Summarises(Some(next), if answer.allowed then log + [now] else log, limits)
  {
    if log != [] {
      OpenerAppend(log, now, limits.windowSeconds);
    }
  }

  /** The one-counter limiter refines the log: whatever was called in between, a key's window
      summarises the timestamps its own calls were allowed at. */
  lemma {:induction false} CounterRefinesLog(h: seq<Call>, key: string, limits: Limits)
    requires Accepted(limits)
    ensures Summarises(WindowOf(After(h, limits), key), LogAfter(Times(h, key), limits), limits)
  {
    if h != [] {
      var front, call := h[..|h| - 1], h[|h| - 1];
      CounterRefinesLog(front, key, limits);
      if call.key == key {
        var times := Times(front, key);
        assert (times + [call.now])[..|times|] == times;
        SummaryStep(WindowOf(After(front, limits), key), LogAfter(times, limits), call.now, limits);
      } else {
        assert Times(h, key) == Times(front, key);
      }
    }
  }

  /** The answer to a call is the log's answer over the key's own calls, so calls on other
      keys never matter. */
  lemma AnswersDependOnOwnCallsOnly(h: seq<Call>, other: seq<Call>, call: Call, limits: Limits)
    requires Accepted(limits) && Times(h, call.key) == Times(other, call.key)
    ensures AnswerTo(h, call, limits) == LogAnswer(LogAfter(Times(h, call.key), limits), call.now, limits)
    ensures AnswerTo(h, call, limits) == AnswerTo(other, call, limits)
  {
    CounterRefinesLog(h, call.key, limits);
    CounterRefinesLog(other, call.key, limits);
    SummaryStep(WindowOf(After(h, limits), call.key), LogAfter(Times(h, call.key), limits), call.now, limits);
    SummaryStep(WindowOf(After(other, limits), call.key), LogAfter(Times(other, call.key), limits), call.now, limits);
  }

  // ---------------------------------------------------------------------------
  // The shape of the log when time does not go backwards

  predicate Ordered(times: seq<real>) {
    forall i, j | 0 <= i < j < |times| :: times[i] <= times[j]
  }

  /** The log falls into windows of at most maxRequests timestamps, each within one width of
      its opener, the openers at least one width apart. */
  predicate Windowed(log: seq<real>, limits: Limits)
    decreases |log|
  {
    log == [] || (
      var o := Opener(log, limits.windowSeconds);
      && |log| - o <= limits.maxRequests
      && (forall i | o <= i < |log| :: log[o] <= log[i] < log[o] + limits.windowSeconds)
      && (o > 0 ==> log[o] - log[Opener(log[..o], limits.windowSeconds)] >= limits.windowSeconds)
      && Windowed(log[..o], limits))
  }

  lemma WindowedAppend(log: seq<real>, now: real, limits: Limits)
    requires Accepted(limits) && Windowed(log, limits) && LogAnswer(log, now, limits).allowed
    requires forall t | t in log :: t <= now
    ensures Windowed(log + [now], limits)
  {
    var more := log + [now];
    if log == [] {
      assert more == [now];
    } else {
      var o := Opener(log, limits.windowSeconds);
      OpenerAppend(log, now, limits.windowSeconds);
      if now - log[o] >= limits.windowSeconds {
        assert more[..|log|] == log;
      } else {
        assert log[o] in log;
        assert more[..o] == log[..o];
        assert forall i | o <= i < |log| :: more[i] == log[i];
        assert Opener(more, limits.windowSeconds) == o;
        assert Windowed(more[..o], limits);
      }
    }
  }

  lemma LogGrowth(log: seq<real>, times: seq<real>, now: real, limits: Limits)
    requires Accepted(limits) && Windowed(log, limits) && Ordered(log) && (forall t | t in log :: t in times)
    requires Ordered(times + [now])
    ensures var more := if LogAnswer(log, now, limits).allowed then log + [now] else log;
      Windowed(more, limits) && Ordered(more) && (forall t | t in more :: t in times + [now])
  {
    hide LogAnswer, Windowed;
    OrderedFront(times, now);
    assert forall i | 0 <= i < |log| :: log[i] in log;
    if LogAnswer(log, now, limits).allowed {
      WindowedAppend(log, now, limits);
    }
  }

  lemma OrderedFront(times: seq<real>, now: real)
    requires Ordered(times + [now])
    ensures Ordered(times) && forall t | t in times :: t <= now
  {
    var more := times + [now];
    assert forall i | 0 <= i < |times| :: more[i] == times[i];
    assert more[|times|] == now;
  }

  /** The log of an ordered history is an ordered, windowed selection of its times. */
  lemma {:induction false} LogShape(times: seq<real>, limits: Limits)
    requires Accepted(limits) && Ordered(times)
    ensures Windowed(LogAfter(times, limits), limits) && Ordered(LogAfter(times, limits))
    ensures forall t | t in LogAfter(times, limits) :: t in times
  {
    if times != [] {
      var front, now := times[..|times| - 1], times[|times| - 1];
      assert times == front + [now];
      OrderedFront(front, now);
      hide LogAnswer, Windowed, Ordered;
      LogShape(front, limits);
      LogGrowth(LogAfter(front, limits), front, now, limits);
    }
  }

  // ---------------------------------------------------------------------------
  // The bound over any half-open interval

  function Within(a: real, b: real): real -> bool {
    (t: real) => a <= t < b
  }

  function Ceil(x: real): int {
    -((-x).Floor)
  }

  lemma {:induction false} CountAtMost(xs: seq<real>, p: real -> bool)
    ensures Count(xs, p) <= |xs|
  {
    if xs != [] {
      CountAtMost(xs[..|xs| - 1], p);
    }
  }

  lemma {:induction false} CountNone(xs: seq<real>, p: real -> bool)
    requires forall t | t in xs :: !p(t)
    ensures Count(xs, p) == 0
  {
    if Count(xs, p) > 0 {
      var t := CountWitness(xs, p);
    }
  }

  /** A window that opened before `a` has at most its other timestamps from `a` on. */
  lemma OldWindow(last: seq<real>, a: real, b: real)
    requires last != [] && last[0] < a
    ensures Count(last, Within(a, b)) <= |last| - 1
  {
    assert last == [last[0]] + last[1..];
    CountConcat([last[0]], last[1..], Within(a, b));
    CountAtMost(last[1..], Within(a, b));
    CountNone([last[0]], Within(a, b));
  }

  /** The time `n` consecutive windows span. */
  function Span(n: nat, width: real): real {
    n as real * width
  }

  lemma OneMoreWidth(j: nat, width: real)
    ensures Span(0, width) == 0.0 && Span(j + 1, width) == Span(j, width) + width
  {
  }

  /** What `k` whole windows and the tail of an older one can hold. */
  function Hold(max: int, k: nat): int {
    max * (k + 1) - 1
  }

  lemma OneMoreWindow(max: int, j: nat)
    ensures Hold(max, 0) == max - 1 && Hold(max, j + 1) == Hold(max, j) + max
  {
    assert max * (j + 2) == max * (j + 1) + max;
  }

  /** Counting a log by its live window and everything older. */
  lemma SplitAtOpener(log: seq<real>, o: nat, a: real, b: real)
    requires Ordered(log) && o < |log|
    ensures Count(log, Within(a, b)) == Count(log[..o], Within(a, b)) + Count(log[o..], Within(a, b))
    ensures Count(log[o..], Within(a, b)) <= |log| - o
    ensures log[o] < a ==> Count(log[..o], Within(a, b)) == 0 && Count(log[o..], Within(a, b)) <= |log| - o - 1
  {
    var older, last := log[..o], log[o..];
    assert log == older + last;
    CountConcat(older, last, Within(a, b));
    CountAtMost(last, Within(a, b));
    if log[o] < a {
      assert forall i | 0 <= i < o :: older[i] == log[i] <= log[o];
      CountNone(older, Within(a, b));
      OldWindow(last, a, b);
    }
  }

  lemma WindowParts(log: seq<real>, limits: Limits)
    requires Windowed(log, limits) && Ordered(log) && log != []
    ensures var o := Opener(log, limits.windowSeconds);
      && |log| - o <= limits.maxRequests
      && Windowed(log[..o], limits) && Ordered(log[..o])
      && (o > 0 ==> log[o] - log[Opener(log[..o], limits.windowSeconds)] >= limits.windowSeconds)
  {
  }

  /** Timestamps from `a` on: those of the `k` windows opened at or after `a`, and of one
      older window less its opener. */
  lemma {:induction false} WindowsSince(log: seq<real>, a: real, b: real, limits: Limits) returns (k: nat)
    requires Accepted(limits) && Windowed(log, limits) && Ordered(log) && log != []
    ensures Count(log, Within(a, b)) <= Hold(limits.maxRequests, k)
    ensures k > 0 ==> Span(k - 1, limits.windowSeconds) <= log[Opener(log, limits.windowSeconds)] - a
    ensures log[Opener(log, limits.windowSeconds)] < a ==> k == 0
    decreases |log|
  {
    hide Count, Span, Hold, Within, Windowed, Ordered;
    var o := Opener(log, limits.windowSeconds);
    WindowParts(log, limits);
    SplitAtOpener(log, o, a, b);
    OneMoreWindow(limits.maxRequests, 0);
    if log[o] < a {
      k := 0;
    } else {
      OneMoreWidth(0, limits.windowSeconds);
      if o == 0 {
        CountEmpty(log[..o], a, b);
        k := 1;
      } else {
        var j := WindowsSince(log[..o], a, b, limits);
        OneMoreWindow(limits.maxRequests, j);
        if j > 0 {
          OneMoreWidth(j - 1, limits.windowSeconds);
        }
        k := j + 1;
      }
    }
  }

  lemma CountEmpty(log: seq<real>, a: real, b: real)
    requires log == []
    ensures Count(log, Within(a, b)) == 0
  {
  }

  lemma SpanBelow(k: nat, m: nat, width: real)
    requires k > 0 && width > 0.0 && Span(k - 1, width) < Span(m, width)
    ensures k <= m
  {
  }

  lemma HoldGrows(max: int, k: nat, m: nat)
    requires max >= 1 && k <= m
    ensures max - 1 <= Hold(max, k) <= Hold(max, m)
  {
    assert max * (k + 1) <= max * (m + 1);
    assert max * (k + 1) >= max;
  }

  /** A window that opens at or after `b` contributes nothing before `b`. */
  lemma SkipNewest(log: seq<real>, o: nat, a: real, b: real)
    requires Ordered(log) && o < |log| && log[o] >= b
    ensures Count(log, Within(a, b)) == Count(log[..o], Within(a, b))
  {
    var older, last := log[..o], log[o..];
    assert log == older + last;
    CountConcat(older, last, Within(a, b));
    CountNone(last, Within(a, b));
  }

  lemma {:induction false} HeldInInterval(log: seq<real>, a: real, b: real, m: nat, limits: Limits)
    requires Accepted(limits) && Windowed(log, limits) && Ordered(log)
    requires a < b && b - a <= Span(m, limits.windowSeconds)
    ensures Count(log, Within(a, b)) <= Hold(limits.maxRequests, m)
    decreases |log|
  {
    HoldGrows(limits.maxRequests, 0, m);
    hide Hold, Span, Within;
    if log != [] {
      var o := Opener(log, limits.windowSeconds);
      if log[o] >= b {
        SkipNewest(log, o, a, b);
        HeldInInterval(log[..o], a, b, m, limits);
      } else {
        var k := WindowsSince(log, a, b, limits);
        if k > 0 {
          SpanBelow(k, m, limits.windowSeconds);
        }
        HoldGrows(limits.maxRequests, k, m);
      }
    }
  }

  /** The times of the calls on `key` that the limiter allowed. */
  function AllowedTimes(h: seq<Call>, key: string, limits: Limits): seq<real> {
    if h == [] then []
    else
      var front, call := h[..|h| - 1], h[|h| - 1];
      AllowedTimes(front, key, limits)
        + (if call.key == key && AnswerTo(front, call, limits).allowed then [call.now] else [])
  }

  lemma {:induction false} AllowedTimesAreTheLog(h: seq<Call>, key: string, limits: Limits)
    requires Accepted(limits)
    ensures AllowedTimes(h, key, limits) == LogAfter(Times(h, key), limits)
  {
    if h != [] {
      var front, call := h[..|h| - 1], h[|h| - 1];
      AllowedTimesAreTheLog(front, key, limits);
      if call.key == key {
        AnswersDependOnOwnCallsOnly(front, front, call, limits);
        assert (Times(front, key) + [call.now])[..|Times(front, key)|] == Times(front, key);
      } else {
        assert Times(h, key) == Times(front, key);
      }
    }
  }

  lemma Scale(x: real, y: real, width: real)
    requires width > 0.0
    ensures x < y ==> x * width < y * width
    ensures x <= y ==> x * width <= y * width
  {
  }

  lemma CeilIsNext(x: real)
    ensures (Ceil(x) - 1) as real < x <= Ceil(x) as real
  {
  }

  lemma Quotient(length: real, width: real)
    requires length > 0.0 && width > 0.0
    ensures length / width > 0.0 && length / width * width == length
  {
  }

  /** `q` widths, rounded up, cover what `q` widths make up, and one width less does not. */
  lemma RoundedUpCovers(q: real, width: real, m: nat)
    requires width > 0.0 && m >= 1 && (m - 1) as real < q <= m as real
    ensures Span(m - 1, width) < q * width <= Span(m, width)
  {
    Scale(q, m as real, width);
    Scale((m - 1) as real, q, width);
  }

  lemma WidthsCover(length: real, width: real) returns (m: nat)
    requires length > 0.0 && width > 0.0
    ensures m == Ceil(length / width) && m >= 1 && length <= Span(m, width)
    ensures Span(m - 1, width) < length
  {
    hide Ceil, Span;
    Quotient(length, width);
    CeilIsNext(length / width);
    m := Ceil(length / width);
    RoundedUpCovers(length / width, width, m);
  }

  /** In any half-open interval of positive length the limiter allows a key at most
      maxRequests * (ceil(length / window) + 1) - 1 requests. */
  lemma AllowedInAnyInterval(h: seq<Call>, key: string, a: real, length: real, limits: Limits)
    requires Accepted(limits) && Ordered(Times(h, key)) && length > 0.0
    ensures Count(AllowedTimes(h, key, limits), Within(a, a + length))
      <= limits.maxRequests * (Ceil(length / limits.windowSeconds) + 1) - 1
  {
    hide Count, Windowed, Ordered, LogAfter, AllowedTimes, Span, Ceil, Within;
    AllowedTimesAreTheLog(h, key, limits);
    LogShape(Times(h, key), limits);
    var m := WidthsCover(length, limits.windowSeconds);
    HeldInInterval(LogAfter(Times(h, key), limits), a, a + length, m, limits);
  }

  // ---------------------------------------------------------------------------
  // The bound is reached, for every limiter and every length

  function Repeat(t: real, n: nat): (s: seq<real>)
    ensures |s| == n && (n > 0 ==> s[n - 1] == t)
  {
    if n == 0 then [] else Repeat(t, n - 1) + [t]
  }

  lemma {:induction false} CountRepeat(t: real, n: nat, p: real -> bool)
    requires p(t)
    ensures Count(Repeat(t, n), p) == n
  {
    if n > 0 {
      CountRepeat(t, n - 1, p);
      CountAppend(Repeat(t, n - 1), t, p);
    }
  }

  /** A stretch of calls that are all allowed, the last window opened at `o`. */
  predicate AllAllowed(times: seq<real>, o: nat, limits: Limits) {
    o < |times| && o == Opener(times, limits.windowSeconds) && LogAfter(times, limits) == times && Ordered(times)
  }

  lemma AllowOne(times: seq<real>, o: nat, t: real, limits: Limits)
    requires AllAllowed(times, o, limits) && times[|times| - 1] <= t
    requires t - times[o] >= limits.windowSeconds || |times| - o < limits.maxRequests
    ensures AllAllowed(times + [t], if t - times[o] >= limits.windowSeconds then |times| else o, limits)
  {
    assert (times + [t])[..|times|] == times;
    OpenerAppend(times, t, limits.windowSeconds);
  }

  /** Calls inside the live window are allowed until it is full. */
  lemma {:induction false} AllowMore(times: seq<real>, o: nat, t: real, n: nat, limits: Limits)
    requires o < |times| && AllAllowed(times, o, limits) && times[|times| - 1] <= t
    requires t - times[o] < limits.windowSeconds && |times| - o + n <= limits.maxRequests
    ensures AllAllowed(times + Repeat(t, n), o, limits)
  {
    hide AllAllowed;
    if n == 0 {
      assert times + Repeat(t, 0) == times;
    } else {
      AllowMore(times, o, t, n - 1, limits);
      var more := times + Repeat(t, n - 1);
      assert more[o] == times[o];
      AllowOne(more, o, t, limits);
      assert more + [t] == times + Repeat(t, n);
    }
  }

  /** A whole window of calls at one moment, once the live window has expired. */
  lemma AllowWindow(times: seq<real>, o: nat, t: real, limits: Limits)
    requires Accepted(limits) && o < |times| && AllAllowed(times, o, limits) && times[|times| - 1] <= t
    requires t - times[o] >= limits.windowSeconds
    ensures AllAllowed(times + Repeat(t, limits.maxRequests), |times|, limits)
  {
    hide AllAllowed;
    AllowOne(times, o, t, limits);
    AllowMore(times + [t], |times|, t, limits.maxRequests - 1, limits);
    RepeatFirst(t, limits.maxRequests);
    assert times + Repeat(t, limits.maxRequests) == times + [t] + Repeat(t, limits.maxRequests - 1);
  }

  lemma {:induction false} RepeatFirst(t: real, n: nat)
    requires n > 0
    ensures Repeat(t, n) == [t] + Repeat(t, n - 1)
  {
    if n > 1 {
      RepeatFirst(t, n - 1);
    }
  }

  /** A call just before time 0, the rest of its window at time 0, then `n` full windows
      each at the moment it opens: all of it allowed. */
  lemma {:induction false} Burst(early: real, n: nat, length: real, limits: Limits) returns (times: seq<real>, o: nat)
    requires Accepted(limits) && 0.0 < early < limits.windowSeconds
    requires length > 0.0 && Span(n, limits.windowSeconds) - early < length
    ensures o < |times| && AllAllowed(times, o, limits)
    ensures times[o] == Span(n, limits.windowSeconds) - early
    ensures times[|times| - 1] <= (if n == 0 then 0.0 else times[o])
    ensures Count(times, Within(0.0, length)) == Hold(limits.maxRequests, n)
  {
    hide AllAllowed, Span, Hold, Count;
    if n == 0 {
      BurstStart(early, length, limits);
      OneMoreWidth(0, limits.windowSeconds);
      times, o := [-early] + Repeat(0.0, limits.maxRequests - 1), 0;
    } else {
      OneMoreWidth(n - 1, limits.windowSeconds);
      SpanNonNegative(n - 1, limits.windowSeconds);
      var before, p := Burst(early, n - 1, length, limits);
      var t := Span(n, limits.windowSeconds) - early;
      AllowWindow(before, p, t, limits);
      times, o := before + Repeat(t, limits.maxRequests), |before|;
      AddedWindow(before, t, length, limits.maxRequests);
      OneMoreWindow(limits.maxRequests, n - 1);
    }
  }

  lemma AddedWindow(before: seq<real>, t: real, length: real, n: nat)
    requires 0.0 <= t < length && n > 0
    ensures Count(before + Repeat(t, n), Within(0.0, length)) == Count(before, Within(0.0, length)) + n
    ensures (before + Repeat(t, n))[|before|] == t
  {
    CountConcat(before, Repeat(t, n), Within(0.0, length));
    CountRepeat(t, n, Within(0.0, length));
    RepeatFirst(t, n);
  }

  lemma SpanNonNegative(n: nat, width: real)
    requires width > 0.0
    ensures Span(n, width) >= 0.0
  {
  }

  lemma FirstAllowed(t: real, limits: Limits)
    requires Accepted(limits)
    ensures AllAllowed([t], 0, limits)
  {
    assert [t][..0] == [];
    assert LogAfter([], limits) == [];
    assert [] + [t] == [t];
  }

  lemma BurstStart(early: real, length: real, limits: Limits)
    requires Accepted(limits) && 0.0 < early < limits.windowSeconds && length > 0.0
    ensures AllAllowed([-early] + Repeat(0.0, limits.maxRequests - 1), 0, limits)
    ensures Count([-early] + Repeat(0.0, limits.maxRequests - 1), Within(0.0, length)) == Hold(limits.maxRequests, 0)
  {
    hide AllAllowed, Count, Hold;
    FirstAllowed(-early, limits);
    AllowMore([-early], 0, 0.0, limits.maxRequests - 1, limits);
    CountConcat([-early], Repeat(0.0, limits.maxRequests - 1), Within(0.0, length));
    CountNone([-early], Within(0.0, length));
    CountRepeat(0.0, limits.maxRequests - 1, Within(0.0, length));
    OneMoreWindow(limits.maxRequests, 0);
  }

  function CallsAt(key: string, times: seq<real>): seq<Call> {
    if times == [] then [] else CallsAt(key, times[..|times| - 1]) + [Call(key, times[|times| - 1])]
  }

  lemma {:induction false} TimesOfCallsAt(key: string, times: seq<real>)
    ensures Times(CallsAt(key, times), key) == times
  {
    if times != [] {
      var front, call := CallsAt(key, times[..|times| - 1]), Call(key, times[|times| - 1]);
      TimesOfCallsAt(key, times[..|times| - 1]);
      assert (front + [call])[..|front|] == front;
    }
  }

  /** The bound is exact: some history reaches it, whatever the limits and the length. */
  lemma BoundIsReached(key: string, length: real, limits: Limits) returns (h: seq<Call>)
    requires Accepted(limits) && length > 0.0
    ensures Ordered(Times(h, key))
    ensures Count(AllowedTimes(h, key, limits), Within(0.0, 0.0 + length))
      == limits.maxRequests * (Ceil(length / limits.windowSeconds) + 1) - 1
  {
    var m := WidthsCover(length, limits.windowSeconds);
    OneMoreWidth(m - 1, limits.windowSeconds);
    var early := (Span(m, limits.windowSeconds) - length + limits.windowSeconds) / 2.0;
    var times, o := Burst(early, m, length, limits);
    h := CallsAt(key, times);
    TimesOfCallsAt(key, times);
    AllowedTimesAreTheLog(h, key, limits);
  }

  // ---------------------------------------------------------------------------
  // Denials

  /** Over an ordered history a denial means exactly maxRequests calls of this key were
      allowed since the live window opened, and the wait is positive and at most one window. */
  lemma DenialMeansWindowIsFull(h: seq<Call>, call: Call, limits: Limits)
    requires Accepted(limits) && Ordered(Times(h + [call], call.key)) && !AnswerTo(h, call, limits).allowed
    ensures var log, answer := AllowedTimes(h, call.key, limits), AnswerTo(h, call, limits);
      && log != []
      && var o := Opener(log, limits.windowSeconds);
         && |log| - o == limits.maxRequests
         && (forall i | o <= i < |log| :: log[o] <= log[i] <= call.now < log[o] + limits.windowSeconds)
         && answer.retryAfter == log[o] + limits.windowSeconds - call.now
         && 0.0 < answer.retryAfter <= limits.windowSeconds
  {
    var times := Times(h, call.key);
    assert (h + [call])[..|h|] == h;
    assert Times(h + [call], call.key) == times + [call.now];
    OrderedFront(times, call.now);
    AllowedTimesAreTheLog(h, call.key, limits);
    LogShape(times, limits);
    AnswersDependOnOwnCallsOnly(h, h, call, limits);
    FullWindow(LogAfter(times, limits), call.now, limits);
  }

  lemma FullWindow(log: seq<real>, now: real, limits: Limits)
    requires Accepted(limits) && Windowed(log, limits) && (forall t | t in log :: t <= now)
    requires !LogAnswer(log, now, limits).allowed
    ensures log != []
    ensures var o, answer := Opener(log, limits.windowSeconds), LogAnswer(log, now, limits);
      && |log| - o == limits.maxRequests
      && (forall i | o <= i < |log| :: log[o] <= log[i] <= now < log[o] + limits.windowSeconds)
      && answer.retryAfter == log[o] + limits.windowSeconds - now
      && 0.0 < answer.retryAfter <= limits.windowSeconds
  {
    assert forall i | 0 <= i < |log| :: log[i] in log;
  }

  /** Whatever other keys do meanwhile, a denied caller's next call is allowed once the wait
      it was told is over. */
  lemma DenialEndsAfterTheWait(h: seq<Call>, call: Call, others: seq<Call>, later: Call, limits: Limits)
    requires Accepted(limits) && !AnswerTo(h, call, limits).allowed
    requires Times(others, call.key) == [] && later.key == call.key
    requires later.now >= call.now + AnswerTo(h, call, limits).retryAfter
    ensures AnswerTo(h + [call] + others, later, limits).allowed
  {
    var key := call.key;
    var times := Times(h, key);
    assert (h + [call])[..|h|] == h;
    TimesConcat(h + [call], others, key);
    assert Times(h + [call] + others, key) == times + [call.now];
    assert (times + [call.now])[..|times|] == times;
    AnswersDependOnOwnCallsOnly(h, h, call, limits);
    AnswersDependOnOwnCallsOnly(h + [call] + others, h + [call] + others, later, limits);
  }

  lemma {:induction false} TimesConcat(h: seq<Call>, more: seq<Call>, key: string)
    ensures Times(h + more, key) == Times(h, key) + Times(more, key)
  {
    if more == [] {
      assert h + more == h;
    } else {
      assert (h + more)[..|h + more| - 1] == h + more[..|more| - 1];
      TimesConcat(h, more[..|more| - 1], key);
    }
  }

  // ---------------------------------------------------------------------------
  // The middleware

  datatype Response = Forwarded | TooManyRequests(retryAfterHeader: int)

  class RateLimitMiddleware {
    const globalLimiter: InMemoryRateLimiter
    const authLimiter: InMemoryRateLimiter
    const authPathPrefixes: seq<string>
    const exemptPaths: set<string>

    constructor (globalLimiter: InMemoryRateLimiter, authLimiter: InMemoryRateLimiter,
                 authPathPrefixes: seq<string>, exemptPaths: set<string>)
      ensures this.globalLimiter == globalLimiter && this.authLimiter == authLimiter
      ensures this.authPathPrefixes == authPathPrefixes && this.exemptPaths == exemptPaths
    {
      this.globalLimiter := globalLimiter;
      this.authLimiter := authLimiter;
      this.authPathPrefixes := authPathPrefixes;
      this.exemptPaths := exemptPaths;
    }

    predicate IsAuthPath(path: string) {
      exists prefix | prefix in authPathPrefixes :: prefix <= path
    }

    /** Exempt paths touch no limiter; every other request is one check of its tier's limiter,
        under a key no other tier and address share. A refused client that waits the header's
        seconds and calls next is past the wait the limiter asked for. */
    method Dispatch(path: string, ip: string, now: real) returns (response: Response)
      modifies globalLimiter, authLimiter
      ensures path in exemptPaths ==>
        response == Forwarded && unchanged(globalLimiter) && unchanged(authLimiter)
      ensures path !in exemptPaths ==>
        var limiter, idle := if IsAuthPath(path) then authLimiter else globalLimiter,
                             if IsAuthPath(path) then globalLimiter else authLimiter;
        var key := (if IsAuthPath(path) then "auth:" else "global:") + ip;
        var (window, answer) := CheckWindow(WindowOf(old(limiter.windows), key), now, limiter.limits);
        && (idle != limiter ==> unchanged(idle))
        && limiter.windows == old(limiter.windows)[key := window]
        && (response == Forwarded <==> answer.allowed)
        && (response.TooManyRequests? ==>
              limiter.windows == old(limiter.windows)
              && answer.retryAfter < response.retryAfterHeader as real <= answer.retryAfter + 1.0)
    {
      if path in exemptPaths {
        return Forwarded;
      }
      var isAuthPath := IsAuthPath(path);
      var limiter := if isAuthPath then authLimiter else globalLimiter;
      var tier := if isAuthPath then "auth" else "global";
      var allowed, retryAfter := limiter.Check(tier + ":" + ip, now);
      assert "auth" + ":" == "auth:" && "global" + ":" == "global:";
      if !allowed {
        return TooManyRequests(retryAfter.Floor + 1);
      }
      return Forwarded;
    }
  }
}
