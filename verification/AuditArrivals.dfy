/** Windows, late calls and arrivals of the audit throttle, for calls that overlap.

    A call is judged by the window open when it takes the mutex, which may have opened
    after its clock reading. What follows are the windows' invariant, step by step, the
    calls that open them, and arrivals of calls from which the worst interleavings are
    put together. */
module AuditArrivals {
  import opened Seqs
  import opened AuditThrottle

  predicate IsJudged(c: Call) { c.phase.Writing? || c.phase.Logged? || c.phase.Discarded? }

  predicate IsAdmitted(c: Call) { c.phase.Writing? || c.phase.Logged? }

  /** Judged by a window that opened after the call read its clock. */
  predicate IsLate(c: Call) { IsJudged(c) && c.now < c.start }

  /** Rolled a window over and has not been judged yet. */
  predicate IsPending(c: Call) { c.phase.Summarising? || c.phase.Relocking? }

  /** A call not judged and not waiting to be, as far as the bucket is concerned. */
  predicate Untouched(c: Call) { c.phase.Filtered? || c.phase.Waiting? }

  function AdmittedIn(t: string, start: int): Call -> bool {
    (c: Call) => c.msgType == t && IsAdmitted(c) && c.start == start
  }

  function AdmittedDuring(t: string, from: int, window: int): Call -> bool {
    (c: Call) => c.msgType == t && IsAdmitted(c) && from <= c.now < from + window
  }

  function LateDuring(t: string, from: int, window: int): Call -> bool {
    (c: Call) => c.msgType == t && IsAdmitted(c) && from <= c.now < from + window && IsLate(c)
  }

  function OnTimeDuring(t: string, from: int, window: int): Call -> bool {
    (c: Call) => c.msgType == t && IsAdmitted(c) && from <= c.now < from + window && !IsLate(c)
  }

  predicate SameOrBefore(a: int, b: int, window: int) { a == b || a + window <= b }

  predicate Apart(a: int, b: int, window: int) { a + window <= b || b + window <= a }

  // ----- Every interleaving -----

  /** How one call of the type stands to the window now open at `open`. */
  predicate CallSound(c: Call, open: int, window: int) {
    && (IsJudged(c) ==> SameOrBefore(c.start, open, window) && c.now < c.start + window)
    && (IsPending(c) ==> c.now <= open)
  }

  predicate PairSound(c: Call, d: Call, window: int) {
    IsJudged(c) && IsJudged(d) ==> c.start == d.start || Apart(c.start, d.start, window)
  }

  ghost predicate CallsSound(calls: seq<Call>, t: string, open: int, window: int) {
    && (forall i | 0 <= i < |calls| && calls[i].msgType == t :: CallSound(calls[i], open, window))
    && (forall i, j | 0 <= i < j < |calls| && calls[i].msgType == t && calls[j].msgType == t ::
          PairSound(calls[i], calls[j], window))
  }

  ghost predicate WindowsBounded(calls: seq<Call>, t: string, max: int) {
    forall start :: Count(calls, AdmittedIn(t, start)) <= max
  }

  /** Windows start at least a window apart, each admits at most Max, and no call is
      judged by a window that ended before the call read its clock. */
  ghost predicate WindowInv(s: State, t: string) {
    Capped(s.throttle, t) ==>
      var rule := EffectiveRule(s.throttle, t);
      if t in s.buckets then
        && s.buckets[t].rule == rule
        && CallsSound(s.calls, t, s.buckets[t].windowStart, rule.window)
        && WindowsBounded(s.calls, t, rule.max)
        && Count(s.calls, AdmittedIn(t, s.buckets[t].windowStart)) == s.buckets[t].count
        && s.buckets[t].count <= rule.max
      else
        forall i | 0 <= i < |s.calls| && s.calls[i].msgType == t :: Untouched(s.calls[i])
  }

  /** Replacing call i by one that stands well keeps all calls sound. */
  lemma ReplaceKeepsSound(calls: seq<Call>, i: nat, c: Call, t: string, open: int, window: int)
    requires i < |calls| && c.msgType == calls[i].msgType
    requires CallsSound(calls, t, open, window)
    requires c.msgType == t ==> CallSound(c, open, window)
    requires c.msgType == t ==>
               forall j | 0 <= j < |calls| && j != i && calls[j].msgType == t :: PairSound(c, calls[j], window)
    ensures CallsSound(calls[i := c], t, open, window)
  {
    hide CallSound;
    var calls' := calls[i := c];
    forall j, k | 0 <= j < k < |calls'| && calls'[j].msgType == t && calls'[k].msgType == t
      ensures PairSound(calls'[j], calls'[k], window)
    {
      if j == i {
        assert PairSound(c, calls[k], window);
      } else if k == i {
        assert PairSound(c, calls[j], window);
      } else {
        assert PairSound(calls[j], calls[k], window);
      }
    }
  }

  /** A call may move on between rolling over and being judged, and after being judged. */
  lemma SameStanding(calls: seq<Call>, i: nat, c: Call, t: string, open: int, window: int)
    requires i < |calls| && CallsSound(calls, t, open, window)
    requires c == calls[i].(phase := c.phase)
    requires IsJudged(c) == IsJudged(calls[i]) && IsPending(c) == IsPending(calls[i])
    ensures CallsSound(calls[i := c], t, open, window)
  {
    if c.msgType == t {
      assert CallSound(calls[i], open, window);
      forall j | 0 <= j < |calls| && j != i && calls[j].msgType == t
        ensures PairSound(c, calls[j], window)
      {
        if i < j {
          assert PairSound(calls[i], calls[j], window);
        } else {
          assert PairSound(calls[j], calls[i], window);
        }
      }
    }
    ReplaceKeepsSound(calls, i, c, t, open, window);
  }

  /** A call judged by the open window stands well with everyone. */
  lemma JudgedNow(calls: seq<Call>, i: nat, c: Call, t: string, open: int, window: int)
    requires i < |calls| && CallsSound(calls, t, open, window) && window > 0
    requires c.msgType == calls[i].msgType == t && c.now == calls[i].now && c.start == open && IsJudged(c)
    requires c.now < open + window
    ensures CallsSound(calls[i := c], t, open, window)
  {
    forall j | 0 <= j < |calls| && j != i && calls[j].msgType == t
      ensures PairSound(c, calls[j], window)
    {
      assert CallSound(calls[j], open, window);
    }
    ReplaceKeepsSound(calls, i, c, t, open, window);
  }

  /** A window opens: the call that opens it stands well with everyone. */
  lemma RolledNow(calls: seq<Call>, i: nat, c: Call, t: string, open: int, window: int)
    requires i < |calls| && CallsSound(calls, t, open, window) && window > 0
    requires c == calls[i].(phase := c.phase) && c.msgType == t && open + window <= c.now && IsPending(c)
    ensures CallsSound(calls[i := c], t, c.now, window)
    ensures Count(calls[i := c], AdmittedIn(t, c.now)) == 0
  {
    forall j | 0 <= j < |calls| && calls[j].msgType == t
      ensures CallSound(calls[j], c.now, window) && (IsJudged(calls[j]) ==> calls[j].start < c.now)
    {
      assert CallSound(calls[j], open, window);
    }
    ReplaceKeepsSound(calls, i, c, t, c.now, window);
    CountNone(calls[i := c], AdmittedIn(t, c.now));
  }

  /** The first call of a type. */
  lemma FirstNow(calls: seq<Call>, i: nat, c: Call, t: string, window: int)
    requires i < |calls| && window > 0
    requires forall j | 0 <= j < |calls| && calls[j].msgType == t :: Untouched(calls[j])
    requires c.msgType == calls[i].msgType == t && c.now == c.start && IsAdmitted(c)
    ensures CallsSound(calls[i := c], t, c.now, window)
    ensures forall start :: Count(calls, AdmittedIn(t, start)) == 0
  {
    forall start ensures Count(calls, AdmittedIn(t, start)) == 0 {
      CountNone(calls, AdmittedIn(t, start));
    }
    assert CallsSound(calls, t, c.now, window);
    ReplaceKeepsSound(calls, i, c, t, c.now, window);
  }

  predicate CountsNow(before: Call, c: Call, t: string, start: int) {
    c.msgType == t && IsAdmitted(c) && !IsAdmitted(before) && c.start == start
  }

  /** Judging one call moves the count of the open window only. */
  lemma WindowCounts(calls: seq<Call>, i: nat, c: Call, t: string)
    requires i < |calls| && c.msgType == calls[i].msgType
    requires !IsAdmitted(calls[i]) || (IsAdmitted(c) && c.start == calls[i].start)
    ensures forall start :: Count(calls[i := c], AdmittedIn(t, start))
                            == Count(calls, AdmittedIn(t, start))
                               + (if CountsNow(calls[i], c, t, start) then 1 else 0)
  {
    forall start
      ensures Count(calls[i := c], AdmittedIn(t, start))
              == Count(calls, AdmittedIn(t, start))
                 + (if CountsNow(calls[i], c, t, start) then 1 else 0)
    {
      CountUpdate(calls, i, c, AdmittedIn(t, start));
    }
  }

  lemma OfferKeepsWindows(s: State, step: Step, t: string)
    requires step.Offer? && WindowInv(s, t)
    ensures WindowInv(Next(s, step), t)
  {
    var c := Next(s, step).calls[|s.calls|];
    forall start ensures Count(s.calls + [c], AdmittedIn(t, start)) == Count(s.calls, AdmittedIn(t, start)) {
      CountAppend(s.calls, c, AdmittedIn(t, start));
    }
    if Capped(s.throttle, t) && t in s.buckets {
      OfferedSound(s.calls, c, t, s.buckets[t].windowStart, EffectiveRule(s.throttle, t).window);
    }
  }

  lemma OfferedSound(calls: seq<Call>, c: Call, t: string, open: int, window: int)
    requires CallsSound(calls, t, open, window) && Untouched(c)
    ensures CallsSound(calls + [c], t, open, window)
  {
  }

  /** A step of another type leaves the calls of this one alone. */
  lemma OtherTypeKeepsWindows(s: State, s': State, i: nat, t: string)
    requires WindowInv(s, t) && i < |s.calls| == |s'.calls| && s.calls[i].msgType != t
    requires s'.throttle == s.throttle && s'.calls == s.calls[i := s'.calls[i]]
    requires s'.calls[i].msgType == s.calls[i].msgType
    requires t in s'.buckets <==> t in s.buckets
    requires t in s.buckets ==> s'.buckets[t] == s.buckets[t]
    ensures WindowInv(s', t)
  {
    forall start ensures Count(s'.calls, AdmittedIn(t, start)) == Count(s.calls, AdmittedIn(t, start)) {
      CountUpdate(s.calls, i, s'.calls[i], AdmittedIn(t, start));
    }
    if Capped(s.throttle, t) && t in s.buckets {
      ReplaceKeepsSound(s.calls, i, s'.calls[i], t, s.buckets[t].windowStart, EffectiveRule(s.throttle, t).window);
    }
  }

  /** A step that only moves a call along. */
  lemma PhaseKeepsWindows(s: State, s': State, i: nat, t: string)
    requires WindowInv(s, t) && i < |s.calls| == |s'.calls| && s.calls[i].msgType == t
    requires s'.throttle == s.throttle && s'.buckets == s.buckets
    requires s'.calls == s.calls[i := s.calls[i].(phase := s'.calls[i].phase)]
    requires IsJudged(s'.calls[i]) == IsJudged(s.calls[i]) && IsPending(s'.calls[i]) == IsPending(s.calls[i])
    requires IsAdmitted(s'.calls[i]) == IsAdmitted(s.calls[i]) && !Untouched(s.calls[i])
    ensures WindowInv(s', t)
  {
    WindowCounts(s.calls, i, s'.calls[i], t);
    if Capped(s.throttle, t) && t in s.buckets {
      SameStanding(s.calls, i, s'.calls[i], t, s.buckets[t].windowStart, EffectiveRule(s.throttle, t).window);
    }
  }

  /** Call i is judged by the bucket as it stands. */
  lemma JudgeKeepsWindows(s: State, s': State, i: nat, t: string)
    requires WindowInv(s, t) && Capped(s.throttle, t) && i < |s.calls| == |s'.calls| && s.calls[i].msgType == t
    requires t in s.buckets && s'.throttle == s.throttle
    requires s'.calls == Judge(s, i, s.buckets[t]).calls && s'.buckets == Judge(s, i, s.buckets[t]).buckets
    requires IsPending(s.calls[i]) || (s.calls[i].phase.Waiting? && !RollsOver(s.buckets[t], s.calls[i].now))
    ensures WindowInv(s', t)
  {
    var c := s'.calls[i];
    var rule := EffectiveRule(s.throttle, t);
    assert rule.window > 0;
    assert CallSound(s.calls[i], s.buckets[t].windowStart, rule.window);
    WindowCounts(s.calls, i, c, t);
    JudgedNow(s.calls, i, c, t, s.buckets[t].windowStart, rule.window);
    hide CallsSound;
    assert WindowsBounded(s'.calls, t, rule.max);
  }

  lemma LockKeepsWindows(s: State, i: nat, t: string)
    requires WindowInv(s, t) && Enabled(s, Lock(i)) && s.calls[i].msgType == t && Capped(s.throttle, t)
    ensures WindowInv(Next(s, Lock(i)), t)
  {
    hide CallsSound, WindowsBounded;
    var now := s.calls[i].now;
    var rule := EffectiveRule(s.throttle, t);
    var s' := Next(s, Lock(i));
    var c := s'.calls[i];
    assert rule.window > 0;
    if t !in s.buckets {
      assert c == s.calls[i].(start := now, phase := Writing) && s'.buckets[t] == Bucket(rule, now, 1, 0);
      WindowCounts(s.calls, i, c, t);
      FirstNow(s.calls, i, c, t, rule.window);
      WindowsStay(s.calls, s'.calls, t, now, rule.max);
    } else if RollsOver(s.buckets[t], now) {
      assert s'.buckets[t] == Fresh(rule, now);
      WindowCounts(s.calls, i, c, t);
      RolledNow(s.calls, i, c, t, s.buckets[t].windowStart, rule.window);
      WindowsStay(s.calls, s'.calls, t, now, rule.max);
    } else {
      JudgeKeepsWindows(s, s', i, t);
    }
  }

  lemma WindowsStay(calls: seq<Call>, calls': seq<Call>, t: string, open: int, max: int)
    requires max > 0 && Count(calls', AdmittedIn(t, open)) <= max
    requires (forall start :: Count(calls, AdmittedIn(t, start)) == 0) || WindowsBounded(calls, t, max)
    requires forall start | start != open :: Count(calls', AdmittedIn(t, start)) <= Count(calls, AdmittedIn(t, start))
    ensures WindowsBounded(calls', t, max)
  {
  }

  /** The most that the windows meeting an interval of one window's length can admit. */
  function OnTimeMost(rule: Rule): int { if rule.window == 1 then rule.max else 2 * rule.max }

  /** The calls on time were judged by at most two windows. */
  lemma TwoWindowsOnTime(calls: seq<Call>, t: string, open: int, rule: Rule, from: int)
    requires CallsSound(calls, t, open, rule.window) && WindowsBounded(calls, t, rule.max)
    requires rule.max > 0 && rule.window > 0
    ensures Count(calls, OnTimeDuring(t, from, rule.window)) <= OnTimeMost(rule)
  {
    hide WindowsBounded;
    var during := OnTimeDuring(t, from, rule.window);
    if i :| 0 <= i < |calls| && during(calls[i]) {
      var first := calls[i].start;
      var second := if j :| 0 <= j < |calls| && during(calls[j]) && calls[j].start != first
                    then calls[j].start else first;
      forall x | x in calls && during(x)
        ensures AdmittedIn(t, first)(x) || AdmittedIn(t, second)(x)
      {
        var k :| 0 <= k < |calls| && calls[k] == x;
        if second != first {
          var j :| 0 <= j < |calls| && during(calls[j]) && calls[j].start == second;
          ThreeStarts(calls, t, open, rule.window, from, i, j, k);
        }
      }
      WindowBound(calls, t, rule.max, first);
      WindowBound(calls, t, rule.max, second);
      if first == second {
        CountMonotone(calls, during, AdmittedIn(t, first));
      } else {
        var j :| 0 <= j < |calls| && during(calls[j]) && calls[j].start == second;
        ThreeStarts(calls, t, open, rule.window, from, i, j, j);
        CountCover(calls, during, AdmittedIn(t, first), AdmittedIn(t, second));
      }
    } else {
      CountNone(calls, during);
    }
  }

  lemma WindowBound(calls: seq<Call>, t: string, max: int, start: int)
    requires WindowsBounded(calls, t, max)
    ensures Count(calls, AdmittedIn(t, start)) <= max
  {
  }

  lemma StartsApart(calls: seq<Call>, t: string, open: int, window: int, i: nat, j: nat)
    requires CallsSound(calls, t, open, window) && i < |calls| && j < |calls|
    requires calls[i].msgType == calls[j].msgType == t && IsJudged(calls[i]) && IsJudged(calls[j])
    ensures calls[i].start == calls[j].start || Apart(calls[i].start, calls[j].start, window)
  {
    if i < j {
      assert PairSound(calls[i], calls[j], window);
    } else if j < i {
      assert PairSound(calls[j], calls[i], window);
    }
  }

  lemma ThreeStarts(calls: seq<Call>, t: string, open: int, window: int, from: int, i: nat, j: nat, k: nat)
    requires CallsSound(calls, t, open, window) && i < |calls| && j < |calls| && k < |calls|
    requires OnTimeDuring(t, from, window)(calls[i]) && OnTimeDuring(t, from, window)(calls[j])
    requires OnTimeDuring(t, from, window)(calls[k]) && calls[i].start != calls[j].start
    ensures calls[k].start in {calls[i].start, calls[j].start}
    ensures window != 1
  {
    StartsApart(calls, t, open, window, i, j);
    StartsApart(calls, t, open, window, i, k);
    StartsApart(calls, t, open, window, j, k);
    assert CallSound(calls[i], open, window) && CallSound(calls[j], open, window) && CallSound(calls[k], open, window);
  }

  // ----- Calls that take the mutex in the order of their clock readings -----

  /** Rolled a window over and was not judged by the window it opened. */
  predicate IsRoller(c: Call) { IsPending(c) || IsLate(c) }

  predicate ClockedStep(s: State, step: Step, t: string, latest: int)
    requires Enabled(s, step)
  {
    step.Lock? && s.calls[step.call].msgType == t ==> latest <= s.calls[step.call].now
  }

  function Latest(s: State, step: Step, t: string, latest: int): int
    requires Enabled(s, step)
  {
    if step.Lock? && s.calls[step.call].msgType == t then s.calls[step.call].now else latest
  }

  predicate ClockedRun(s: State, steps: seq<Step>, t: string, latest: int)
    decreases |steps|
  {
    steps == [] || (Enabled(s, steps[0]) && ClockedStep(s, steps[0], t, latest)
                    && ClockedRun(Next(s, steps[0]), steps[1..], t, Latest(s, steps[0], t, latest)))
  }

  ghost predicate RollersApart(calls: seq<Call>, t: string, open: int, window: int) {
    && (forall i | 0 <= i < |calls| && calls[i].msgType == t && IsRoller(calls[i]) ::
          SameOrBefore(calls[i].now, open, window))
    && (forall i, j | 0 <= i < j < |calls| && calls[i].msgType == t && calls[j].msgType == t ::
          IsRoller(calls[i]) && IsRoller(calls[j]) ==> Apart(calls[i].now, calls[j].now, window))
  }

  /** Those that rolled over read their clocks at least a window apart. */
  ghost predicate RollInv(s: State, t: string, latest: int) {
    Capped(s.throttle, t) && t in s.buckets ==>
      var rule := EffectiveRule(s.throttle, t);
      && s.buckets[t].rule == rule
      && s.buckets[t].windowStart <= latest < s.buckets[t].windowStart + rule.window
      && RollersApart(s.calls, t, s.buckets[t].windowStart, rule.window)
  }

  /** Replacing a call by one that is no roller, or was one already, keeps rollers apart. */
  lemma ReplaceKeepsRollers(calls: seq<Call>, i: nat, c: Call, t: string, open: int, window: int)
    requires i < |calls| && c.msgType == calls[i].msgType && c.now == calls[i].now
    requires RollersApart(calls, t, open, window)
    requires c.msgType == t && IsRoller(c) ==> IsRoller(calls[i])
    ensures RollersApart(calls[i := c], t, open, window)
  {
  }

  lemma RolledApart(calls: seq<Call>, i: nat, c: Call, t: string, open: int, window: int)
    requires i < |calls| && RollersApart(calls, t, open, window) && window > 0
    requires c.msgType == calls[i].msgType && open + window <= c.now
    ensures RollersApart(calls[i := c], t, c.now, window)
  {
  }

  lemma NoRollers(calls: seq<Call>, i: nat, c: Call, t: string, window: int)
    requires i < |calls| && c.msgType == calls[i].msgType == t && !IsRoller(c)
    requires forall j | 0 <= j < |calls| && calls[j].msgType == t :: Untouched(calls[j])
    ensures RollersApart(calls[i := c], t, c.now, window)
  {
  }

  lemma LockKeepsRollers(s: State, i: nat, t: string, latest: int)
    requires WindowInv(s, t) && RollInv(s, t, latest) && Enabled(s, Lock(i)) && s.calls[i].msgType == t
    requires latest <= s.calls[i].now && Capped(s.throttle, t)
    ensures RollInv(Next(s, Lock(i)), t, s.calls[i].now)
  {
    hide RollersApart, CallsSound, WindowsBounded;
    var rule := EffectiveRule(s.throttle, t);
    var s' := Next(s, Lock(i));
    var c := s'.calls[i];
    assert rule.window > 0;
    if t !in s.buckets {
      NoRollers(s.calls, i, c, t, rule.window);
    } else if RollsOver(s.buckets[t], s.calls[i].now) {
      RolledApart(s.calls, i, c, t, s.buckets[t].windowStart, rule.window);
    } else {
      ReplaceKeepsRollers(s.calls, i, c, t, s.buckets[t].windowStart, rule.window);
    }
  }

  lemma OtherStepKeepsRollers(s: State, step: Step, t: string, latest: int)
    requires WindowInv(s, t) && RollInv(s, t, latest) && Enabled(s, step) && Capped(s.throttle, t) && InvFor(s, t)
    requires step.Lock? ==> s.calls[step.call].msgType != t
    ensures RollInv(Next(s, step), t, latest)
  {
    hide CallsSound, WindowsBounded, InvFor;
    if t in s.buckets && !step.Offer? {
      var open, window := s.buckets[t].windowStart, EffectiveRule(s.throttle, t).window;
      var c := Next(s, step).calls[step.call];
      assert CallsSound(s.calls, t, open, window);
      ReplaceKeepsRollers(s.calls, step.call, c, t, open, window);
    }
  }

  lemma StepKeepsRollers(s: State, step: Step, t: string, latest: int)
    requires WindowInv(s, t) && RollInv(s, t, latest) && Enabled(s, step) && ClockedStep(s, step, t, latest)
    requires Capped(s.throttle, t) && InvFor(s, t)
    ensures RollInv(Next(s, step), t, Latest(s, step, t, latest))
  {
    hide RollInv, WindowInv, InvFor;
    if step.Lock? && s.calls[step.call].msgType == t {
      LockKeepsRollers(s, step.call, t, latest);
    } else {
      OtherStepKeepsRollers(s, step, t, latest);
    }
  }

  // ----- The bound is attained -----

  /** One more event of the type is offered at `now` and takes the mutex at once. */
  function Arrive(s: State, t: string, now: int): State {
    var s1 := Next(s, Offer(t, "", "", "", now));
    if Enabled(s1, Lock(|s.calls|)) then Next(s1, Lock(|s.calls|)) else s1
  }

  function Arrival(s: State, t: string, now: int): seq<Step> {
    [Offer(t, "", "", "", now), Lock(|s.calls|)]
  }

  /** The configuration, and the open window of type t with nothing dropped in it. */
  predicate Open(s: State, t: string, rule: Rule, start: int, count: nat) {
    && Capped(s.throttle, t) && EffectiveRule(s.throttle, t) == rule && ShouldAudit(s.auditTypes, t)
    && t in s.buckets && s.buckets[t] == Bucket(rule, start, count, 0)
  }

  lemma ArriveAdmitted(s: State, t: string, rule: Rule, start: int, count: nat, now: int)
    requires Open(s, t, rule, start, count) && start <= now < start + rule.window && count < rule.max
    ensures var s' := Arrive(s, t, now);
            && Open(s', t, rule, start, count + 1)
            && s'.calls == s.calls + [Call(t, "", "", "", now, start, Writing)]
    ensures Enabled(Next(s, Offer(t, "", "", "", now)), Lock(|s.calls|))
  {
  }

  lemma ArriveFirst(s: State, t: string)
    requires Initial(s) && Capped(s.throttle, t) && ShouldAudit(s.auditTypes, t)
    ensures s.calls == []
    ensures var s' := Arrive(s, t, 0);
            && Open(s', t, EffectiveRule(s.throttle, t), 0, 1)
            && s'.calls == s.calls + [Call(t, "", "", "", 0, 0, Writing)]
    ensures Enabled(Next(s, Offer(t, "", "", "", 0)), Lock(|s.calls|))
  {
  }

  lemma ArriveRolls(s: State, t: string, rule: Rule, start: int, count: nat, now: int)
    requires Open(s, t, rule, start, count) && start + rule.window <= now
    ensures var s' := Arrive(s, t, now);
            && Open(s', t, rule, now, 0)
            && s'.calls == s.calls + [Call(t, "", "", "", now, now, Relocking)]
    ensures Enabled(Next(s, Offer(t, "", "", "", now)), Lock(|s.calls|))
  {
  }

  lemma ArrivalThen(s: State, t: string, now: int, rest: seq<Step>, latest: int)
    requires ShouldAudit(s.auditTypes, t) && latest <= now
    requires Enabled(Next(s, Offer(t, "", "", "", now)), Lock(|s.calls|))
    requires ClockedRun(Arrive(s, t, now), rest, t, now) && ValidRun(Arrive(s, t, now), rest)
    ensures ClockedRun(s, Arrival(s, t, now) + rest, t, latest)
    ensures ValidRun(s, Arrival(s, t, now) + rest)
    ensures Run(s, Arrival(s, t, now) + rest) == Run(Arrive(s, t, now), rest)
  {
    var steps := Arrival(s, t, now) + rest;
    var s1 := Next(s, steps[0]);
    assert steps[1..][0] == Lock(|s.calls|) && steps[1..][1..] == rest;
    assert Next(s1, steps[1..][0]) == Arrive(s, t, now);
    assert ClockedRun(s1, steps[1..], t, latest);
  }

  /** The last step: the rollover that waited is counted by a window that opened later. */
  lemma LateOne(s: State, t: string, rule: Rule, late: nat, from: int) returns (steps: seq<Step>)
    requires rule.max > 0 && rule.window > 0 && from <= 2 * rule.window < from + rule.window
    requires Open(s, t, rule, 2 * rule.window, rule.max)
    requires late < |s.calls| && s.calls[late] == Call(t, "", "", "", 2 * rule.window, 2 * rule.window, Relocking)
    ensures ClockedRun(s, steps, t, 2 * rule.window) && ValidRun(s, steps)
    ensures var during := AdmittedDuring(t, from, rule.window);
            Count(Run(s, steps).calls, during) == Count(s.calls, during) + 1
  {
    var during := AdmittedDuring(t, from, rule.window);
    var now := 3 * rule.window;
    ArriveRolls(s, t, rule, 2 * rule.window, rule.max, now);
    var s1 := Arrive(s, t, now);
    CountAppend(s.calls, s1.calls[|s.calls|], during);
    assert s1.calls[late] == s.calls[late];
    var s2 := Next(s1, Relock(late));
    assert s2.calls == s1.calls[late := Call(t, "", "", "", 2 * rule.window, now, Writing)];
    CountUpdate(s1.calls, late, s2.calls[late], during);
    assert Count(s2.calls, during) == Count(s1.calls, during) + 1;
    assert ClockedRun(s2, [], t, now);
    assert [Relock(late)][1..] == [];
    assert Run(s1, [Relock(late)]) == s2;
    ArrivalThen(s, t, now, [Relock(late)], 2 * rule.window);
    steps := Arrival(s, t, now) + [Relock(late)];
  }

  /** The later window fills up while the call that opened it waits. */
  lemma {:induction false} FillLater(s: State, t: string, rule: Rule, n: nat, late: nat, from: int)
    returns (steps: seq<Step>)
    requires n <= rule.max && rule.max > 0 && rule.window > 0 && from <= 2 * rule.window < from + rule.window
    requires Open(s, t, rule, 2 * rule.window, rule.max - n)
    requires late < |s.calls| && s.calls[late] == Call(t, "", "", "", 2 * rule.window, 2 * rule.window, Relocking)
    ensures ClockedRun(s, steps, t, 2 * rule.window) && ValidRun(s, steps)
    ensures var during := AdmittedDuring(t, from, rule.window);
            Count(Run(s, steps).calls, during) == Count(s.calls, during) + n + 1
    decreases n
  {
    if n == 0 {
      steps := LateOne(s, t, rule, late, from);
    } else {
      hide Next, Arrive, Arrival, ClockedRun, ValidRun, Run, Count;
      var now := 2 * rule.window;
      var s1 := Arrive(s, t, now);
      ArriveAdmitted(s, t, rule, now, rule.max - n, now);
      CountAppend(s.calls, s1.calls[|s.calls|], AdmittedDuring(t, from, rule.window));
      assert s1.calls[late] == s.calls[late];
      var rest := FillLater(s1, t, rule, n - 1, late, from);
      ArrivalThen(s, t, now, rest, now);
      steps := Arrival(s, t, now) + rest;
    }
  }

  /** The later window opens, fills up, and its opener is late. */
  lemma OpenLater(s: State, t: string, rule: Rule, count: nat, from: int, latest: int) returns (steps: seq<Step>)
    requires rule.max > 0 && rule.window > 0
    requires from <= 2 * rule.window < from + rule.window && latest <= 2 * rule.window
    requires Open(s, t, rule, rule.window, count)
    ensures ClockedRun(s, steps, t, latest) && ValidRun(s, steps)
    ensures var during := AdmittedDuring(t, from, rule.window);
            Count(Run(s, steps).calls, during) == Count(s.calls, during) + rule.max + 1
  {
    hide Next, Arrive, Arrival, ClockedRun, ValidRun, Run, Count;
    var now := 2 * rule.window;
    var s1 := Arrive(s, t, now);
    ArriveRolls(s, t, rule, rule.window, count, now);
    CountAppend(s.calls, s1.calls[|s.calls|], AdmittedDuring(t, from, rule.window));
    var rest := FillLater(s1, t, rule, rule.max, |s.calls|, from);
    ArrivalThen(s, t, now, rest, latest);
    steps := Arrival(s, t, now) + rest;
  }

  /** The earlier window fills up at its very end; then the later one opens. */
  lemma {:induction false} FillEarlier(s: State, t: string, rule: Rule, n: nat, latest: int) returns (steps: seq<Step>)
    requires n <= rule.max && rule.max > 0 && rule.window >= 2 && latest <= 2 * rule.window - 1
    requires Open(s, t, rule, rule.window, rule.max - n)
    ensures ClockedRun(s, steps, t, latest) && ValidRun(s, steps)
    ensures var during := AdmittedDuring(t, 2 * rule.window - 1, rule.window);
            Count(Run(s, steps).calls, during) == Count(s.calls, during) + n + rule.max + 1
    decreases n
  {
    if n == 0 {
      steps := OpenLater(s, t, rule, rule.max, 2 * rule.window - 1, latest);
    } else {
      hide Next, Arrive, Arrival, ClockedRun, ValidRun, Run, Count;
      var now := 2 * rule.window - 1;
      var s1 := Arrive(s, t, now);
      ArriveAdmitted(s, t, rule, rule.window, rule.max - n, now);
      CountAppend(s.calls, s1.calls[|s.calls|], AdmittedDuring(t, now, rule.window));
      var rest := FillEarlier(s1, t, rule, n - 1, now);
      ArrivalThen(s, t, now, rest, latest);
      steps := Arrival(s, t, now) + rest;
    }
  }

  // ----- Without that order there is no bound -----

  /** The clock readings of the calls, in the order the calls are made, never go back. */
  predicate ReadingsInOrder(steps: seq<Step>, from: int)
    decreases |steps|
  {
    steps == []
    || (if steps[0].Offer? then from <= steps[0].now && ReadingsInOrder(steps[1..], steps[0].now)
        else ReadingsInOrder(steps[1..], from))
  }

  /** The calls from `i` on, n of them, have read the clock at zero and wait for the mutex. */
  predicate AllWait(s: State, t: string, i: nat, n: nat) {
    i + n <= |s.calls| && forall j | i <= j < i + n :: s.calls[j] == Call(t, "", "", "", 0, 0, Waiting)
  }

  /** One step in front of a run that is already known. */
  lemma StepThen(s: State, step: Step, rest: seq<Step>, from: int, next: int)
    requires Enabled(s, step) && ValidRun(Next(s, step), rest) && ReadingsInOrder(rest, next)
    requires if step.Offer? then from <= step.now == next else from == next
    ensures ValidRun(s, [step] + rest) && Run(s, [step] + rest) == Run(Next(s, step), rest)
    ensures ReadingsInOrder([step] + rest, from)
  {
    assert ([step] + rest)[1..] == rest;
  }

  /** A call that waits is overtaken by one that opens a window, and admitted by it. */
  lemma OvertakenOne(s: State, t: string, rule: Rule, start: int, count: nat, i: nat)
    requires Open(s, t, rule, start, count) && start >= 0 && rule.max > 0 && rule.window > 0
    requires AllWait(s, t, i, 1)
    ensures
      var s1 := Arrive(s, t, start + rule.window);
      && Enabled(Next(s, Offer(t, "", "", "", start + rule.window)), Lock(|s.calls|)) && Enabled(s1, Lock(i))
      && Open(Next(s1, Lock(i)), t, rule, start + rule.window, 1)
      && Next(s1, Lock(i)).calls
         == (s.calls + [Call(t, "", "", "", start + rule.window, start + rule.window, Relocking)])
              [i := Call(t, "", "", "", 0, start + rule.window, Writing)]
  {
    ArriveRolls(s, t, rule, start, count, start + rule.window);
    var s1 := Arrive(s, t, start + rule.window);
    assert s1.calls[i] == s.calls[i];
    hide Arrive;
  }

  /** One call after another is overtaken. */
  lemma {:induction false} OvertakenMany(s: State, t: string, rule: Rule, start: int, count: nat, i: nat, n: nat)
    returns (steps: seq<Step>)
    requires Open(s, t, rule, start, count) && start >= 0 && rule.max > 0 && rule.window > 0
    requires AllWait(s, t, i, n)
    ensures ValidRun(s, steps) && ReadingsInOrder(steps, start)
    ensures var during := AdmittedDuring(t, 0, rule.window);
            Count(Run(s, steps).calls, during) == Count(s.calls, during) + n
    decreases n
  {
    if n == 0 {
      steps := [];
    } else {
      var now := start + rule.window;
      var during := AdmittedDuring(t, 0, rule.window);
      var offer := Offer(t, "", "", "", now);
      OvertakenOne(s, t, rule, start, count, i);
      var s0 := Next(s, offer);
      var s1 := Next(s0, Lock(|s.calls|));
      var s2 := Next(s1, Lock(i));
      OvertakenCounts(s.calls, s2.calls, t, rule.window, now, i, n);
      hide Next, Enabled, Open, Run, ValidRun, ReadingsInOrder, Count;
      var rest := OvertakenMany(s2, t, rule, now, 1, i + 1, n - 1);
      StepThen(s1, Lock(i), rest, now, now);
      StepThen(s0, Lock(|s.calls|), [Lock(i)] + rest, now, now);
      StepThen(s, offer, [Lock(|s.calls|)] + ([Lock(i)] + rest), start, now);
      steps := [offer] + ([Lock(|s.calls|)] + ([Lock(i)] + rest));
    }
  }

  lemma OvertakenCounts(calls: seq<Call>, calls': seq<Call>, t: string, window: int, now: int, i: nat, n: nat)
    requires window > 0 && n > 0 && i + n <= |calls|
    requires forall j | i <= j < i + n :: calls[j] == Call(t, "", "", "", 0, 0, Waiting)
    requires calls' == (calls + [Call(t, "", "", "", now, now, Relocking)])[i := Call(t, "", "", "", 0, now, Writing)]
    ensures Count(calls', AdmittedDuring(t, 0, window)) == Count(calls, AdmittedDuring(t, 0, window)) + 1
    ensures |calls'| == |calls| + 1
    ensures forall j | i + 1 <= j < i + n :: calls'[j] == Call(t, "", "", "", 0, 0, Waiting)
  {
    var opener := Call(t, "", "", "", now, now, Relocking);
    CountAppend(calls, opener, AdmittedDuring(t, 0, window));
    CountUpdate(calls + [opener], i, Call(t, "", "", "", 0, now, Writing), AdmittedDuring(t, 0, window));
  }

  /** n more calls read the clock at zero and wait. */
  function Crowd(s: State, t: string, n: nat): State
    decreases n
  {
    if n == 0 then s else Crowd(Next(s, Offer(t, "", "", "", 0)), t, n - 1)
  }

  lemma {:induction false} CrowdThen(s: State, t: string, n: nat, rest: seq<Step>) returns (steps: seq<Step>)
    requires ValidRun(Crowd(s, t, n), rest) && ReadingsInOrder(rest, 0)
    ensures ValidRun(s, steps) && Run(s, steps) == Run(Crowd(s, t, n), rest) && ReadingsInOrder(steps, 0)
    decreases n
  {
    if n == 0 {
      steps := rest;
    } else {
      var offer := Offer(t, "", "", "", 0);
      var more := CrowdThen(Next(s, offer), t, n - 1, rest);
      StepThen(s, offer, more, 0, 0);
      steps := [offer] + more;
    }
  }

  lemma {:induction false} CrowdWaits(s: State, t: string, n: nat)
    requires ShouldAudit(s.auditTypes, t)
    ensures var c := Crowd(s, t, n);
            && c == s.(calls := c.calls) && |c.calls| == |s.calls| + n && c.calls[..|s.calls|] == s.calls
            && AllWait(c, t, |s.calls|, n)
    decreases n
  {
    if n > 0 {
      var s1 := Next(s, Offer(t, "", "", "", 0));
      CrowdWaits(s1, t, n - 1);
      var c := Crowd(s, t, n);
      assert s1.calls[..|s.calls|] == s.calls;
      assert c.calls[|s.calls|] == c.calls[..|s1.calls|][|s.calls|];
      assert c.calls[..|s.calls|] == c.calls[..|s1.calls|][..|s.calls|];
    }
  }
}
