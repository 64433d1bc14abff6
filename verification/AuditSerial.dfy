/** The audit throttle under calls that do not overlap.

    Such calls are judged one after the other, each by the window that is open or by one
    it opens. What follows are the traces they leave, the windows that lie in them, what
    falls into an interval as long as a window, and the calls at which the most falls
    into one. */
module AuditSerial {
  import opened Seqs
  import opened AuditThrottle

  /** One call: its clock reading, the start of the window that judged it, the answer. */
  datatype Judged = Judged(at: int, start: int, admitted: bool)

  /** Successive throttleAdmit calls of one capped type at the given times. */
  function Play(rule: Rule, times: seq<int>): (Bucket, seq<Judged>)
    requires times != []
  {
    var n := |times| - 1;
    var now := times[n];
    var (before, trace) := if n == 0 then (Fresh(rule, now), []) else Play(rule, times[..n]);
    var b := Settle(before, rule, now);
    var (after, admitted) := Decide(b);
    (after, trace + [Judged(now, b.windowStart, admitted)])
  }

  predicate Nondecreasing(times: seq<int>) {
    forall i, j :: 0 <= i < j < |times| ==> times[i] <= times[j]
  }

  function AdmittedIn(start: int): Judged -> bool { (j: Judged) => j.admitted && j.start == start }

  /** Admitted by the window at `start`, except at the instant it opened. */
  function AdmittedLaterIn(start: int): Judged -> bool {
    (j: Judged) => j.admitted && j.start == start && j.at != start
  }

  function AdmittedDuring(from: int, window: int): Judged -> bool {
    (j: Judged) => j.admitted && from <= j.at < from + window
  }

  predicate SameOrApart(rule: Rule, a: Judged, b: Judged) {
    a.start == b.start || a.start + rule.window <= b.start
  }

  predicate Opener(start: int, trace: seq<Judged>) {
    Judged(start, start, true) in trace
  }

  /** What the calls so far say about each other and about the bucket they left. */
  ghost predicate TraceInv(rule: Rule, b: Bucket, trace: seq<Judged>) {
    && b.rule == rule
    && trace != [] && trace[|trace| - 1].start == b.windowStart
    && (forall i | 0 <= i < |trace| :: trace[i].start <= trace[i].at < trace[i].start + rule.window)
    && (forall i, j | 0 <= i < j < |trace| :: SameOrApart(rule, trace[i], trace[j]))
    && (forall i | 0 <= i < |trace| :: Opener(trace[i].start, trace))
    && Count(trace, AdmittedIn(b.windowStart)) == b.count
    && forall s :: Count(trace, AdmittedIn(s)) <= rule.max
  }

  lemma FirstCall(rule: Rule, now: int)
    requires rule.max > 0 && rule.window > 0
    ensures TraceInv(rule, Play(rule, [now]).0, Play(rule, [now]).1)
  {
    var last := Judged(now, now, true);
    assert Play(rule, [now]) == (Bucket(rule, now, 1, 0), [] + [last]);
    forall s
      ensures Count([] + [last], AdmittedIn(s)) == if s == now then 1 else 0
    {
      CountAppend([], last, AdmittedIn(s));
    }
  }

  lemma NextCall(rule: Rule, before: Bucket, trace: seq<Judged>, now: int)
    requires TraceInv(rule, before, trace) && trace[|trace| - 1].at <= now
    requires rule.max > 0 && rule.window > 0
    ensures
      var b := Settle(before, rule, now);
      TraceInv(rule, Decide(b).0, trace + [Judged(now, b.windowStart, Decide(b).1)])
  {
    var b := Settle(before, rule, now);
    var last := Judged(now, b.windowStart, Decide(b).1);
    var trace' := trace + [last];
    NoneYet(rule, before, trace, now);
    forall s
      ensures Count(trace', AdmittedIn(s)) == Count(trace, AdmittedIn(s)) + (if AdmittedIn(s)(last) then 1 else 0)
    {
      CountAppend(trace, last, AdmittedIn(s));
    }
    forall i | 0 <= i < |trace'|
      ensures Opener(trace'[i].start, trace')
    {
      if i < |trace| {
        assert Opener(trace[i].start, trace);
      } else if RollsOver(before, now) {
        assert trace'[i] == Judged(now, now, true);
      } else {
        assert Opener(trace[|trace| - 1].start, trace);
      }
    }
    forall i, j | 0 <= i < j < |trace'|
      ensures SameOrApart(rule, trace'[i], trace'[j])
    {
      if j == |trace| && i < |trace| - 1 {
        assert SameOrApart(rule, trace[i], trace[|trace| - 1]);
      }
    }
  }

  /** When the window has run out by `now`, every window so far has, and a window
      opening now has admitted nothing. */
  lemma NoneYet(rule: Rule, before: Bucket, trace: seq<Judged>, now: int)
    requires TraceInv(rule, before, trace) && rule.window > 0
    ensures RollsOver(before, now) ==> forall i | 0 <= i < |trace| :: trace[i].start + rule.window <= now
    ensures RollsOver(before, now) ==> Count(trace, AdmittedIn(now)) == 0
  {
    if RollsOver(before, now) {
      forall i | 0 <= i < |trace|
        ensures trace[i].start + rule.window <= now
      {
        assert i == |trace| - 1 || SameOrApart(rule, trace[i], trace[|trace| - 1]);
      }
      CountNone(trace, AdmittedIn(now));
    }
  }

  lemma {:induction false} PlayTimes(rule: Rule, times: seq<int>)
    requires times != []
    ensures |Play(rule, times).1| == |times|
    ensures forall i | 0 <= i < |times| :: Play(rule, times).1[i].at == times[i]
  {
    hide Settle, Decide;
    if |times| > 1 {
      PlayTimes(rule, times[..|times| - 1]);
    }
  }

  lemma {:induction false} PlayKeepsInv(rule: Rule, times: seq<int>)
    requires times != [] && Nondecreasing(times)
    requires rule.max > 0 && rule.window > 0
    ensures TraceInv(rule, Play(rule, times).0, Play(rule, times).1)
  {
    var n := |times| - 1;
    if n == 0 {
      assert times == [times[0]];
      FirstCall(rule, times[0]);
    } else {
      hide TraceInv;
      PlayKeepsInv(rule, times[..n]);
      PlayTimes(rule, times[..n]);
      var (before, trace) := Play(rule, times[..n]);
      assert trace[n - 1].at == times[n - 1] <= times[n];
      NextCall(rule, before, trace, times[n]);
    }
  }

  /** What one window's length can admit: two windows' worth but for the opening event
      of the earlier one; a window of a single nanosecond cannot be met in part. */
  function SerialMost(rule: Rule): int { if rule.window == 1 then rule.max else 2 * rule.max - 1 }

  lemma TraceBound(rule: Rule, b: Bucket, trace: seq<Judged>, from: int)
    requires TraceInv(rule, b, trace)
    requires rule.max > 0 && rule.window > 0
    ensures Count(trace, AdmittedDuring(from, rule.window)) <= SerialMost(rule)
  {
    var during := AdmittedDuring(from, rule.window);
    if i :| 0 <= i < |trace| && during(trace[i]) {
      if j :| 0 <= j < |trace| && during(trace[j]) && trace[j].start != trace[i].start {
        if i < j {
          TwoWindows(rule, b, trace, from, i, j);
        } else {
          TwoWindows(rule, b, trace, from, j, i);
        }
      } else {
        OneWindow(rule, b, trace, from, trace[i].start);
      }
    } else {
      CountNone(trace, during);
    }
  }

  lemma OneWindow(rule: Rule, b: Bucket, trace: seq<Judged>, from: int, start: int)
    requires TraceInv(rule, b, trace) && rule.max > 0
    requires forall k | 0 <= k < |trace| && AdmittedDuring(from, rule.window)(trace[k]) :: trace[k].start == start
    ensures Count(trace, AdmittedDuring(from, rule.window)) <= rule.max
  {
    CountMonotone(trace, AdmittedDuring(from, rule.window), AdmittedIn(start));
    assert Count(trace, AdmittedIn(start)) <= rule.max;
  }

  lemma TwoWindows(rule: Rule, b: Bucket, trace: seq<Judged>, from: int, i: nat, j: nat)
    requires TraceInv(rule, b, trace) && rule.window > 0
    requires i < j < |trace| && trace[i].start != trace[j].start
    requires AdmittedDuring(from, rule.window)(trace[i]) && AdmittedDuring(from, rule.window)(trace[j])
    ensures Count(trace, AdmittedDuring(from, rule.window)) <= SerialMost(rule)
  {
    var during := AdmittedDuring(from, rule.window);
    var early, late := trace[i].start, trace[j].start;
    assert SameOrApart(rule, trace[i], trace[j]);
    forall x | x in trace && during(x)
      ensures AdmittedLaterIn(early)(x) || AdmittedIn(late)(x)
    {
      var k :| 0 <= k < |trace| && trace[k] == x;
      assert k == i || (k < i && SameOrApart(rule, trace[k], trace[i]))
        || (i < k && SameOrApart(rule, trace[i], trace[k]));
      assert k == j || (k < j && SameOrApart(rule, trace[k], trace[j]))
        || (j < k && SameOrApart(rule, trace[j], trace[k]));
    }
    CountCover(trace, during, AdmittedLaterIn(early), AdmittedIn(late));
    assert Opener(early, trace);
    CountStrict(trace, AdmittedLaterIn(early), AdmittedIn(early), Judged(early, early, true));
    assert Count(trace, AdmittedIn(early)) <= rule.max;
    assert Count(trace, AdmittedIn(late)) <= rule.max;
  }

  // ----- The bound is attained -----

  /** One call opens a window, Max - 1 follow at its very end, Max more as the next one opens. */
  function WorstCase(rule: Rule, n: nat): seq<int> {
    seq(n, i => if i == 0 then 0 else if i < rule.max then rule.window - 1 else rule.window)
  }

  function WorstCaseBucket(rule: Rule, n: nat): Bucket {
    if n <= rule.max then Bucket(rule, 0, n, 0) else Bucket(rule, rule.window, n - rule.max, 0)
  }

  function WorstCaseCall(rule: Rule, n: nat): Judged
    requires n > 0
  {
    Judged(WorstCase(rule, n)[n - 1], if n <= rule.max then 0 else rule.window, true)
  }

  lemma WorstCaseStep(rule: Rule, n: nat)
    requires rule.max > 0 && rule.window > 0 && 1 <= n <= 2 * rule.max
    ensures
      var now := WorstCase(rule, n)[n - 1];
      var b := Settle(if n == 1 then Fresh(rule, now) else WorstCaseBucket(rule, n - 1), rule, now);
      Decide(b) == (WorstCaseBucket(rule, n), true) && Judged(now, b.windowStart, true) == WorstCaseCall(rule, n)
    ensures AdmittedDuring(rule.window - 1, rule.window)(WorstCaseCall(rule, n))
            <==> if rule.window == 1 then n <= rule.max else n > 1
  {
  }

  lemma {:induction false} WorstCasePlay(rule: Rule, n: nat)
    requires rule.max > 0 && rule.window > 0 && 1 <= n <= 2 * rule.max
    ensures Play(rule, WorstCase(rule, n)).0 == WorstCaseBucket(rule, n)
    ensures Count(Play(rule, WorstCase(rule, n)).1, AdmittedDuring(rule.window - 1, rule.window))
            == if rule.window > 1 then n - 1 else if n <= rule.max then n else rule.max
  {
    hide *;
    var during := AdmittedDuring(rule.window - 1, rule.window);
    WorstCaseTimes(rule, n);
    PlayStep(rule, WorstCase(rule, n));
    WorstCaseStep(rule, n);
    if n == 1 {
      CountNone([], during);
      CountAppend([], WorstCaseCall(rule, n), during);
    } else {
      WorstCasePlay(rule, n - 1);
      CountAppend(Play(rule, WorstCase(rule, n - 1)).1, WorstCaseCall(rule, n), during);
    }
  }

  lemma WorstCaseTimes(rule: Rule, n: nat)
    requires n > 0
    ensures |WorstCase(rule, n)| == n && WorstCase(rule, n)[0] == 0
    ensures WorstCase(rule, n)[..n - 1] == WorstCase(rule, n - 1)
  {
  }

  lemma PlayStep(rule: Rule, times: seq<int>)
    requires times != []
    ensures
      var n := |times| - 1;
      var (before, trace) := if n == 0 then (Fresh(rule, times[0]), []) else Play(rule, times[..n]);
      var b := Settle(before, rule, times[n]);
      Play(rule, times) == (Decide(b).0, trace + [Judged(times[n], b.windowStart, Decide(b).1)])
  {
  }
}
