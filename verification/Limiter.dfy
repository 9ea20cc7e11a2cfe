// Sliding-window rate limit on approval-requiring calls, per being.
module Limiter {
  import opened Types

  type Hits = map<string, seq<Timestamp>>

  datatype Limits = Limits(windowSecs: int, maxPerWindow: nat) {
    // A non-positive window is treated as an instant.
    function Window(): nat { if windowSecs < 0 then 0 else windowSecs }
  }

  function QueueOf(hits: Hits, being: string): seq<Timestamp> {
    if being in hits then hits[being] else []
  }

  function DropOld(q: seq<Timestamp>, cutoff: Timestamp): seq<Timestamp> {
    if q != [] && q[0] < cutoff then DropOld(q[1..], cutoff) else q
  }

  function Admits(l: Limits, hits: Hits, being: string, now: Timestamp): bool {
    |DropOld(QueueOf(hits, being), now - l.Window())| < l.maxPerWindow
  }

  function Recorded(l: Limits, hits: Hits, being: string, now: Timestamp): Hits {
    var q := DropOld(QueueOf(hits, being), now - l.Window());
    hits[being := if |q| < l.maxPerWindow then q + [now] else q]
  }

  // Cutting the first k instants off a queue drops exactly its old head.
  predicate Cuts(q: seq<Timestamp>, k: nat, cutoff: Timestamp) {
    && k <= |q| && (forall i :: 0 <= i < k ==> q[i] < cutoff) && (k < |q| ==> q[k] >= cutoff)
  }

  lemma {:induction false} DropOldCuts(q: seq<Timestamp>, cutoff: Timestamp) returns (k: nat)
    ensures Cuts(q, k, cutoff) && DropOld(q, cutoff) == q[k..]
  {
    k := 0;
    if q != [] && q[0] < cutoff {
      k := DropOldCuts(q[1..], cutoff);
      k := k + 1;
    }
  }

  // The instant before which calls are forgotten.
  function Cutoff(l: Limits, now: Timestamp): Timestamp { now - (if l.windowSecs > 0 then l.windowSecs else 0) }

  // One call, on any queue: it drops the k oldest, those before the cutoff, is
  // admitted exactly if what is left is fewer than the cap, and is recorded
  // exactly then.
  predicate WasCalled(l: Limits, hits: Hits, hits': Hits, being: string, now: Timestamp, admitted: bool, k: nat) {
    var q := if being in hits then hits[being] else [];
    && Cuts(q, k, Cutoff(l, now)) && (admitted <==> |q| - k < l.maxPerWindow)
    && hits' == hits[being := if admitted then q[k..] + [now] else q[k..]]
  }

  lemma CallExactly(l: Limits, hits: Hits, being: string, now: Timestamp) returns (k: nat)
    ensures WasCalled(l, hits, Recorded(l, hits, being, now), being, now, Admits(l, hits, being, now), k)
  {
    k := DropOldCuts(QueueOf(hits, being), Cutoff(l, now));
  }

  class DangerousToolRateLimiter {
    const limits: Limits
    var hits: Hits

    constructor (limits: Limits)
      ensures this.limits == limits && hits == map[]
    {
      this.limits := limits;
      hits := map[];
    }

    method CheckAndRecord(being: string, now: Timestamp) returns (r: Result<(), ActionError>)
      modifies this
      ensures r.Ok? <==> Admits(limits, old(hits), being, now)
      ensures r.Err? ==> r.error.PolicyDenied?
      ensures hits == Recorded(limits, old(hits), being, now)
      ensures exists k: nat :: WasCalled(limits, old(hits), hits, being, now, r.Ok?, k)
    {
      ghost var k := CallExactly(limits, hits, being, now);
      var cutoff := now - limits.Window();
      var entry := if being in hits then hits[being] else [];
      while entry != [] && entry[0] < cutoff
        invariant DropOld(entry, cutoff) == DropOld(QueueOf(hits, being), cutoff)
        decreases |entry|
      {
        entry := entry[1..];
      }
      if |entry| >= limits.maxPerWindow {
        hits := hits[being := entry];
        return Err(PolicyDenied(being));
      }
      hits := hits[being := entry + [now]];
      r := Ok(());
    }

    method CountInWindow(being: string, now: Timestamp) returns (n: nat)
      modifies this
      ensures n == |DropOld(QueueOf(old(hits), being), now - limits.Window())|
      ensures being in old(hits) ==> hits == old(hits)[being := DropOld(old(hits)[being], now - limits.Window())]
      ensures being !in old(hits) ==> hits == old(hits) && n == 0
    {
      if being !in hits { return 0; }
      var cutoff := now - limits.Window();
      var entry := hits[being];
      while entry != [] && entry[0] < cutoff
        invariant DropOld(entry, cutoff) == DropOld(hits[being], cutoff)
        decreases |entry|
      {
        entry := entry[1..];
      }
      hits := hits[being := entry];
      n := |entry|;
    }
  }

  // ----- whole histories of calls -----

  datatype Call = Call(being: string, now: Timestamp)

  function HitsAfter(l: Limits, calls: seq<Call>): Hits {
    if calls == [] then map[]
    else
      var last := calls[|calls| - 1];
      Recorded(l, HitsAfter(l, calls[..|calls| - 1]), last.being, last.now)
  }

  // The instants of this being's accepted calls, oldest first.
  function Accepted(l: Limits, calls: seq<Call>, being: string): seq<Timestamp> {
    if calls == [] then []
    else
      var front, last := calls[..|calls| - 1], calls[|calls| - 1];
      Accepted(l, front, being)
      + (if last.being == being && Admits(l, HitsAfter(l, front), being, last.now) then [last.now] else [])
  }

  // This being's clock never runs backwards.
  predicate ClockAdvances(calls: seq<Call>, being: string) {
    forall i, j :: 0 <= i < j < |calls| && calls[i].being == being && calls[j].being == being ==>
      calls[i].now <= calls[j].now
  }

  function CountIn(times: seq<Timestamp>, lo: Timestamp, hi: Timestamp): nat {
    if times == [] then 0
    else CountIn(times[..|times| - 1], lo, hi) + (if lo <= times[|times| - 1] <= hi then 1 else 0)
  }

  predicate Sorted(times: seq<Timestamp>) {
    forall i, j :: 0 <= i < j < |times| ==> times[i] <= times[j]
  }

  // Accepted calls at least max positions apart are more than a window apart.
  predicate Spaced(l: Limits, times: seq<Timestamp>) {
    forall i, j :: 0 <= i < |times| && 0 <= j < |times| && j - i >= l.maxPerWindow ==> times[i] + l.Window() < times[j]
  }

  predicate BoundedBy(times: seq<Timestamp>, t: Timestamp) {
    forall i :: 0 <= i < |times| ==> times[i] <= t
  }

  // The queue is the accepted history minus a prefix older than the cutoff.
  predicate IsTail(q: seq<Timestamp>, times: seq<Timestamp>, cutoff: Timestamp) {
    && |q| <= |times|
    && q == times[|times| - |q|..]
    && forall i :: 0 <= i < |times| - |q| ==> times[i] < cutoff
  }

  lemma {:induction false} DropOldTail(q: seq<Timestamp>, times: seq<Timestamp>, cutoff: Timestamp, later: Timestamp)
    requires Sorted(times) && IsTail(q, times, cutoff) && cutoff <= later
    ensures IsTail(DropOld(q, later), times, later)
    ensures DropOld(q, later) != [] ==> DropOld(q, later)[0] >= later
    decreases |q|
  {
    if q != [] && q[0] < later {
      DropOldTail(q[1..], times, later, later);
    }
  }

  // If the first k instants lie before lo, at most the rest are counted; and
  // all of the rest are when they lie within the interval.
  lemma {:induction false} CountFrom(times: seq<Timestamp>, lo: Timestamp, hi: Timestamp, k: nat)
    requires k <= |times| && forall i :: 0 <= i < k ==> times[i] < lo
    ensures CountIn(times, lo, hi) <= |times| - k
    ensures (forall i :: k <= i < |times| ==> lo <= times[i] <= hi) ==> CountIn(times, lo, hi) == |times| - k
  {
    if times != [] {
      var n := |times| - 1;
      CountFrom(times[..n], lo, hi, if k > n then n else k);
    }
  }

  // Accepted calls are sorted and spaced, and the queue is their recent tail.
  predicate Shape(l: Limits, q: seq<Timestamp>, times: seq<Timestamp>, now: Timestamp) {
    Sorted(times) && Spaced(l, times) && BoundedBy(times, now) && IsTail(q, times, now - l.Window())
  }

  lemma EmptyShape(l: Limits, now: Timestamp)
    ensures Shape(l, [], [], now)
  {
  }

  lemma {:induction false} HistoryShape(l: Limits, calls: seq<Call>, being: string, now: Timestamp)
    requires ClockAdvances(calls, being)
    requires forall i :: 0 <= i < |calls| && calls[i].being == being ==> calls[i].now <= now
    ensures Shape(l, QueueOf(HitsAfter(l, calls), being), Accepted(l, calls, being), now)
    decreases |calls|
  {
    hide Spaced, IsTail, DropOld;
    if calls == [] {
      EmptyShape(l, now);
    } else {
      var n := |calls| - 1;
      var front, last := calls[..n], calls[n];
      if last.being == being {
        HistoryShape(l, front, being, last.now);
        var q, times := QueueOf(HitsAfter(l, front), being), Accepted(l, front, being);
        StepShape(l, q, times, last.now, now);
        assert !Admits(l, HitsAfter(l, front), being, last.now) ==> Accepted(l, calls, being) == times;
      } else {
        HistoryShape(l, front, being, now);
        assert Accepted(l, calls, being) == Accepted(l, front, being);
      }
    }
  }

  lemma PushSorted(times: seq<Timestamp>, at: Timestamp, now: Timestamp)
    requires Sorted(times) && BoundedBy(times, at) && at <= now
    ensures Sorted(times + [at]) && BoundedBy(times + [at], now)
  {
  }

  lemma PushSpaced(l: Limits, q: seq<Timestamp>, times: seq<Timestamp>, at: Timestamp)
    requires Spaced(l, times) && IsTail(q, times, at - l.Window()) && |q| < l.maxPerWindow
    ensures Spaced(l, times + [at])
  {
    var longer := times + [at];
    forall i, j | 0 <= i < |longer| && 0 <= j < |longer| && j - i >= l.maxPerWindow
      ensures longer[i] + l.Window() < longer[j]
    {
      assert i < |times| && longer[i] == times[i];
      if j < |times| { assert longer[j] == times[j]; }
    }
  }

  lemma PushTail(q: seq<Timestamp>, times: seq<Timestamp>, at: Timestamp, cutoff: Timestamp)
    requires IsTail(q, times, cutoff)
    ensures IsTail(q + [at], times + [at], cutoff)
  {
    var k := |times| - |q|;
    assert (times + [at])[k..] == times[k..] + [at];
  }

  lemma StepShape(l: Limits, q: seq<Timestamp>, times: seq<Timestamp>, at: Timestamp, now: Timestamp)
    requires Shape(l, q, times, at) && at <= now
    ensures var q' := DropOld(q, at - l.Window());
            if |q'| < l.maxPerWindow then Shape(l, q' + [at], times + [at], now) else Shape(l, q', times, now)
  {
    DropOldTail(q, times, at - l.Window(), at - l.Window());
    var q' := DropOld(q, at - l.Window());
    if |q'| < l.maxPerWindow {
      PushSorted(times, at, now);
      PushSpaced(l, q', times, at);
      PushTail(q', times, at, now - l.Window());
    }
  }

  // The tail kept after eviction is exactly the window's share of the history.
  lemma TailCounts(q: seq<Timestamp>, times: seq<Timestamp>, cutoff: Timestamp, now: Timestamp)
    requires Sorted(times) && BoundedBy(times, now) && IsTail(q, times, cutoff)
    requires q != [] ==> q[0] >= cutoff
    ensures CountIn(times, cutoff, now) == |q|
  {
    var k := |times| - |q|;
    assert q != [] ==> times[k] == q[0];
    CountFrom(times, cutoff, now, k);
  }

  lemma AdmitsWhileRoom(l: Limits, hits: Hits, being: string, times: seq<Timestamp>, now: Timestamp)
    requires Shape(l, QueueOf(hits, being), times, now)
    ensures Admits(l, hits, being, now) <==> CountIn(times, now - l.Window(), now) < l.maxPerWindow
  {
    var q, cutoff := QueueOf(hits, being), now - l.Window();
    DropOldTail(q, times, cutoff, cutoff);
    TailCounts(DropOld(q, cutoff), times, cutoff, now);
  }

  // A call is refused exactly when the window ending now already holds the cap.
  lemma RefusedExactlyWhenFull(l: Limits, calls: seq<Call>, being: string, now: Timestamp)
    requires ClockAdvances(calls, being)
    requires forall i :: 0 <= i < |calls| && calls[i].being == being ==> calls[i].now <= now
    ensures Admits(l, HitsAfter(l, calls), being, now)
       <==> CountIn(Accepted(l, calls, being), Cutoff(l, now), now) < l.maxPerWindow
  {
    hide CountIn, Accepted, HitsAfter, DropOld, Shape, Admits;
    assert Cutoff(l, now) == now - l.Window();
    HistoryShape(l, calls, being, now);
    AdmitsWhileRoom(l, HitsAfter(l, calls), being, Accepted(l, calls, being), now);
  }

  // No closed interval as long as the window holds more accepted calls than the
  // cap.  A cap of two or more needs a clock that does not run backwards; a
  // smaller one needs nothing.
  lemma WindowCap(l: Limits, calls: seq<Call>, being: string, lo: Timestamp)
    requires l.maxPerWindow <= 1 || ClockAdvances(calls, being)
    ensures CountIn(Accepted(l, calls, being), lo, lo + l.Window()) <= l.maxPerWindow
  {
    if l.maxPerWindow <= 1 {
      SmallCapShape(l, calls, being);
    } else {
      HistoryShape(l, calls, being, Latest(calls));
    }
    SpacedMeansCapped(l, Accepted(l, calls, being), lo);
  }

  function LastOnly(times: seq<Timestamp>): seq<Timestamp> {
    if times == [] then [] else [times[|times| - 1]]
  }

  // Under a cap of one the queue is the last accepted call alone, and a call is
  // accepted only more than a window after it, whatever the clock does.
  lemma {:induction false} SmallCapShape(l: Limits, calls: seq<Call>, being: string)
    requires l.maxPerWindow <= 1
    ensures var times := Accepted(l, calls, being);
            Sorted(times) && Spaced(l, times) && QueueOf(HitsAfter(l, calls), being) == LastOnly(times)
    decreases |calls|
  {
    hide Sorted, Spaced, DropOld, LastOnly;
    if calls == [] {
      EmptySmall(l);
    } else {
      var n := |calls| - 1;
      var front, last := calls[..n], calls[n];
      SmallCapShape(l, front, being);
      var q, times := QueueOf(HitsAfter(l, front), being), Accepted(l, front, being);
      if last.being == being {
        SmallCapStep(l, q, times, last.now);
        assert !Admits(l, HitsAfter(l, front), being, last.now) ==> Accepted(l, calls, being) == times;
      } else {
        assert Accepted(l, calls, being) == times;
      }
    }
  }

  lemma EmptySmall(l: Limits)
    ensures Sorted([]) && Spaced(l, []) && LastOnly([]) == []
  {
  }

  lemma SmallCapStep(l: Limits, q: seq<Timestamp>, times: seq<Timestamp>, at: Timestamp)
    requires l.maxPerWindow <= 1 && Sorted(times) && Spaced(l, times) && q == LastOnly(times)
    ensures var q' := DropOld(q, at - l.Window());
            if |q'| < l.maxPerWindow then
              Sorted(times + [at]) && Spaced(l, times + [at]) && q' + [at] == LastOnly(times + [at])
            else q' == q
  {
  }

  function Latest(calls: seq<Call>): (t: Timestamp)
    ensures forall i :: 0 <= i < |calls| ==> calls[i].now <= t
  {
    if calls == [] then 0
    else
      var t := Latest(calls[..|calls| - 1]);
      var last := calls[|calls| - 1].now;
      if last <= t then t else last
  }

  lemma {:induction false} SpacedMeansCapped(l: Limits, times: seq<Timestamp>, lo: Timestamp)
    requires Sorted(times) && Spaced(l, times)
    ensures CountIn(times, lo, lo + l.Window()) <= l.maxPerWindow
    decreases |times|
  {
    var hi := lo + l.Window();
    if |times| <= l.maxPerWindow {
      CountFrom(times, lo, hi, 0);
    } else if lo <= times[|times| - 1] <= hi {
      CrowdedEnd(l, times, lo);
    } else {
      SpacedMeansCapped(l, times[..|times| - 1], lo);
    }
  }

  lemma CrowdedEnd(l: Limits, times: seq<Timestamp>, lo: Timestamp)
    requires Sorted(times) && Spaced(l, times) && |times| > l.maxPerWindow
    requires times[|times| - 1] <= lo + l.Window()
    ensures CountIn(times, lo, lo + l.Window()) <= l.maxPerWindow
  {
    var n, k := |times| - 1, |times| - l.maxPerWindow;
    forall i | 0 <= i < k ensures times[i] < lo {
      assert times[i] + l.Window() < times[n];
    }
    CountFrom(times, lo, lo + l.Window(), k);
  }

  function CallsOf(calls: seq<Call>, being: string): seq<Call> {
    if calls == [] then []
    else
      var last := calls[|calls| - 1];
      CallsOf(calls[..|calls| - 1], being) + (if last.being == being then [last] else [])
  }

  // Beings do not affect one another, whatever their clocks do.
  lemma {:induction false} BeingsAreIndependent(l: Limits, calls: seq<Call>, being: string)
    ensures QueueOf(HitsAfter(l, calls), being) == QueueOf(HitsAfter(l, CallsOf(calls, being)), being)
    ensures Accepted(l, calls, being) == Accepted(l, CallsOf(calls, being), being)
  {
    hide DropOld;
    if calls != [] {
      var n := |calls| - 1;
      var own := CallsOf(calls[..n], being);
      BeingsAreIndependent(l, calls[..n], being);
      if calls[n].being == being {
        assert (own + [calls[n]])[..|own|] == own;
      } else {
        assert CallsOf(calls, being) == own;
      }
    }
  }

  // ----- a clock that runs backwards -----

  // No call of the being lies more than d before an earlier one.
  predicate SkewAtMost(calls: seq<Call>, being: string, d: nat) {
    forall i, j :: 0 <= i < j < |calls| && calls[i].being == being && calls[j].being == being ==>
      calls[i].now - d <= calls[j].now
  }

  function Repeat(being: string, n: nat): seq<Call> {
    if n == 0 then [] else Repeat(being, n - 1) + [Call(being, 0)]
  }

  // The cap's worth of calls at 0, one just past the window, and one second back.
  function Overrun(l: Limits, being: string): seq<Call> {
    Repeat(being, l.maxPerWindow) + [Call(being, l.Window() + 1)] + [Call(being, l.Window())]
  }

  predicate AllZero(times: seq<Timestamp>) { forall i :: 0 <= i < |times| ==> times[i] == 0 }

  // One more accepted call.
  lemma OneCall(l: Limits, calls: seq<Call>, being: string, now: Timestamp)
    requires |DropOld(QueueOf(HitsAfter(l, calls), being), now - l.Window())| < l.maxPerWindow
    ensures var longer := calls + [Call(being, now)];
            && QueueOf(HitsAfter(l, longer), being)
               == DropOld(QueueOf(HitsAfter(l, calls), being), now - l.Window()) + [now]
            && Accepted(l, longer, being) == Accepted(l, calls, being) + [now]
  {
    assert (calls + [Call(being, now)])[..|calls|] == calls;
  }

  lemma {:induction false} DropAllOld(q: seq<Timestamp>, cutoff: Timestamp)
    requires AllZero(q)
    ensures DropOld(q, cutoff) == if cutoff > 0 then [] else q
  {
    if q != [] { DropAllOld(q[1..], cutoff); }
  }

  lemma NoCalls(l: Limits, being: string)
    ensures QueueOf(HitsAfter(l, []), being) == [] && Accepted(l, [], being) == []
  {
  }

  lemma {:induction false} RepeatAccepted(l: Limits, being: string, n: nat)
    requires n <= l.maxPerWindow
    ensures var q, times := QueueOf(HitsAfter(l, Repeat(being, n)), being), Accepted(l, Repeat(being, n), being);
            q == times && |times| == n && AllZero(times)
  {
    hide DropOld, HitsAfter, Accepted;
    if n == 0 {
      NoCalls(l, being);
    } else {
      RepeatAccepted(l, being, n - 1);
      DropAllOld(QueueOf(HitsAfter(l, Repeat(being, n - 1)), being), 0 - l.Window());
      OneCall(l, Repeat(being, n - 1), being, 0);
    }
  }

  lemma OverrunAccepted(l: Limits, being: string)
    requires l.maxPerWindow >= 2
    ensures var zeros := Accepted(l, Repeat(being, l.maxPerWindow), being);
            && |zeros| == l.maxPerWindow && AllZero(zeros)
            && Accepted(l, Overrun(l, being), being) == zeros + [l.Window() + 1] + [l.Window()]
  {
    var w, c1 := l.Window(), Repeat(being, l.maxPerWindow);
    RepeatAccepted(l, being, l.maxPerWindow);
    DropAllOld(QueueOf(HitsAfter(l, c1), being), 1);
    OneCall(l, c1, being, w + 1);
    OneCall(l, c1 + [Call(being, w + 1)], being, w);
  }

  lemma CountSnoc(times: seq<Timestamp>, t: Timestamp, lo: Timestamp, hi: Timestamp)
    ensures CountIn(times + [t], lo, hi) == CountIn(times, lo, hi) + (if lo <= t <= hi then 1 else 0)
  {
    assert (times + [t])[..|times|] == times;
  }

  // One second back is enough to break every cap of two or more, whatever the
  // window: eviction at Window() + 1 forgets the calls at 0, so the call at
  // Window() is accepted beside them.
  lemma BackwardClockBreaksCap(l: Limits, being: string)
    requires l.maxPerWindow >= 2
    ensures SkewAtMost(Overrun(l, being), being, 1)
    ensures CountIn(Accepted(l, Overrun(l, being), being), 0, l.Window()) == l.maxPerWindow + 1
  {
    hide Accepted, Overrun, SkewAtMost, CountIn;
    var w, zeros := l.Window(), Accepted(l, Repeat(being, l.maxPerWindow), being);
    OverrunAccepted(l, being);
    OverrunSkew(l, being);
    CountFrom(zeros, 0, w, 0);
    CountSnoc(zeros, w + 1, 0, w);
    CountSnoc(zeros + [w + 1], w, 0, w);
  }

  lemma {:induction false} RepeatIsZero(being: string, n: nat)
    ensures |Repeat(being, n)| == n && forall i :: 0 <= i < n ==> Repeat(being, n)[i] == Call(being, 0)
  {
    if n > 0 { RepeatIsZero(being, n - 1); }
  }

  lemma OverrunSkew(l: Limits, being: string)
    ensures SkewAtMost(Overrun(l, being), being, 1)
  {
    RepeatIsZero(being, l.maxPerWindow);
  }

  // No closed interval starting at lo, as long as the window, holds more.
  predicate Capped(l: Limits, calls: seq<Call>, being: string, lo: Timestamp) {
    CountIn(Accepted(l, calls, being), lo, lo + l.Window()) <= l.maxPerWindow
  }

  // Every history of the given skew keeps the cap.
  ghost predicate KeepsCap(l: Limits, being: string, d: nat) {
    forall calls: seq<Call>, lo: Timestamp :: SkewAtMost(calls, being, d) ==> Capped(l, calls, being, lo)
  }

  // The cap holds for all histories of a skew if and only if there is no skew,
  // or the cap is at most one.
  lemma CapHoldsExactly(l: Limits, being: string, d: nat)
    ensures KeepsCap(l, being, d) <==> d == 0 || l.maxPerWindow <= 1
  {
    if d == 0 || l.maxPerWindow <= 1 {
      forall calls: seq<Call>, lo: Timestamp | SkewAtMost(calls, being, d) ensures Capped(l, calls, being, lo) {
        WindowCap(l, calls, being, lo);
      }
    } else {
      BackwardClockBreaksCap(l, being);
      MoreSkew(Overrun(l, being), being, d);
      assert !Capped(l, Overrun(l, being), being, 0);
    }
  }

  lemma MoreSkew(calls: seq<Call>, being: string, d: nat)
    requires SkewAtMost(calls, being, 1) && d >= 1
    ensures SkewAtMost(calls, being, d)
  {
  }
}
