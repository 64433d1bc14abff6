/** The throttle's bound when calls overlap. */
module AuditOverlap {

  // How many events the throttle lets through in any interval as long as its window. A
  // call reads its clock before it takes the mutex, and gives the mutex up again to write
  // a summary, so it may be judged by a window that opened after its reading: such a call
  // is late.

  import opened Seqs
  import opened AuditThrottle
  import opened AuditArrivals

  // ----- Every interleaving -----

  /** Every critical section keeps it, taken by any call at any time. */
  lemma StepKeepsWindows(s: State, step: Step, t: string)
    requires WindowInv(s, t) && Enabled(s, step) && Capped(s.throttle, t) && InvFor(s, t)
    ensures WindowInv(Next(s, step), t)
  {
    hide WindowInv, InvFor;
    var s' := Next(s, step);
    if step.Offer? {
      OfferKeepsWindows(s, step, t);
    } else {
      var i := step.call;
      if s.calls[i].msgType != t {
        OtherTypeKeepsWindows(s, s', i, t);
      } else {
        match step
        case Lock(_) => LockKeepsWindows(s, i, t);
        case Summarise(_, at) => PhaseKeepsWindows(s, s', i, t);
        case Relock(_) => JudgeKeepsWindows(s, s', i, t);
        case Append(_, at) => PhaseKeepsWindows(s, s', i, t);
      }
    }
  }

  lemma {:induction false} RunKeepsWindows(s: State, steps: seq<Step>, t: string)
    requires WindowInv(s, t) && Inv(s) && ValidRun(s, steps) && Capped(s.throttle, t)
    ensures WindowInv(Run(s, steps), t) && Run(s, steps).throttle == s.throttle
    decreases |steps|
  {
    if steps != [] {
      assert InvFor(s, t);
      StepKeepsWindows(s, steps[0], t);
      StepKeepsInv(s, steps[0]);
      RunKeepsWindows(Next(s, steps[0]), steps[1..], t);
    }
  }

  /** In every interleaving: of the events that read their clock in any half-open
      interval as long as the window, at most 2*Max are admitted on time (Max when the
      window is a single nanosecond). Every further one is late. */
  lemma OverlappingBurstBound(s0: State, steps: seq<Step>, t: string, from: int)
    requires Initial(s0) && Capped(s0.throttle, t) && ValidRun(s0, steps)
    ensures
      var rule := EffectiveRule(s0.throttle, t);
      var calls := Run(s0, steps).calls;
      Count(calls, AdmittedDuring(t, from, rule.window)) <= OnTimeMost(rule)
        + Count(calls, LateDuring(t, from, rule.window))
  {
    var rule := EffectiveRule(s0.throttle, t);
    RunKeepsWindows(s0, steps, t);
    var s := Run(s0, steps);
    if t in s.buckets {
      TwoWindowsOnTime(s.calls, t, s.buckets[t].windowStart, rule, from);
      CountCover(s.calls, AdmittedDuring(t, from, rule.window),
                 OnTimeDuring(t, from, rule.window), LateDuring(t, from, rule.window));
    } else {
      CountNone(s.calls, AdmittedDuring(t, from, rule.window));
    }
  }

  // ----- Calls that take the mutex in the order of their clock readings -----

  lemma {:induction false} RunKeepsRollers(s: State, steps: seq<Step>, t: string, latest: int) returns (end: int)
    requires WindowInv(s, t) && RollInv(s, t, latest) && Inv(s) && ClockedRun(s, steps, t, latest)
    requires Capped(s.throttle, t)
    ensures ValidRun(s, steps) && RollInv(Run(s, steps), t, end)
    decreases |steps|
  {
    end := latest;
    if steps != [] {
      assert InvFor(s, t);
      StepKeepsRollers(s, steps[0], t, latest);
      StepKeepsWindows(s, steps[0], t);
      StepKeepsInv(s, steps[0]);
      end := RunKeepsRollers(Next(s, steps[0]), steps[1..], t, Latest(s, steps[0], t, latest));
    }
  }

  /** When the calls of a type also take the mutex in the order of their clock readings,
      at most one late one falls into the interval. */
  lemma LockOrderedBurstBound(s0: State, steps: seq<Step>, t: string, latest: int, from: int)
    requires Initial(s0) && Capped(s0.throttle, t) && ClockedRun(s0, steps, t, latest)
    ensures ValidRun(s0, steps)
    ensures
      var rule := EffectiveRule(s0.throttle, t);
      var calls := Run(s0, steps).calls;
      && Count(calls, LateDuring(t, from, rule.window)) <= 1
      && Count(calls, AdmittedDuring(t, from, rule.window)) <= OnTimeMost(rule) + 1
  {
    var rule := EffectiveRule(s0.throttle, t);
    var end := RunKeepsRollers(s0, steps, t, latest);
    RunKeepsWindows(s0, steps, t);
    OverlappingBurstBound(s0, steps, t, from);
    var s := Run(s0, steps);
    if t in s.buckets {
      AtMostOne(s.calls, LateDuring(t, from, rule.window));
    } else {
      CountNone(s.calls, LateDuring(t, from, rule.window));
    }
  }

  // ----- The bound is attained -----

  /** The bound for lock-ordered calls is reached, whatever the rule. */
  lemma LockOrderedBoundIsTight(s0: State, t: string) returns (steps: seq<Step>, from: int)
    requires Initial(s0) && Capped(s0.throttle, t) && ShouldAudit(s0.auditTypes, t)
    ensures ClockedRun(s0, steps, t, 0) && ValidRun(s0, steps)
    ensures
      var rule := EffectiveRule(s0.throttle, t);
      Count(Run(s0, steps).calls, AdmittedDuring(t, from, rule.window)) == OnTimeMost(rule) + 1
  {
    hide Next, Arrive, Arrival, ClockedRun, ValidRun, Run, Initial, Enabled;
    var rule := EffectiveRule(s0.throttle, t);
    assert rule.window > 0;
    from := if rule.window == 1 then 2 else 2 * rule.window - 1;
    var during := AdmittedDuring(t, from, rule.window);
    var s1 := Arrive(s0, t, 0);
    ArriveFirst(s0, t);
    CountAppend(s0.calls, s1.calls[0], during);
    var s2 := Arrive(s1, t, rule.window);
    ArriveRolls(s1, t, rule, 0, 1, rule.window);
    CountAppend(s1.calls, s2.calls[1], during);
    var rest;
    if rule.window == 1 {
      rest := OpenLater(s2, t, rule, 0, from, rule.window);
    } else {
      rest := FillEarlier(s2, t, rule, rule.max, rule.window);
    }
    ArrivalThen(s1, t, rule.window, rest, 0);
    rest := Arrival(s1, t, rule.window) + rest;
    ArrivalThen(s0, t, 0, rest, 0);
    steps := Arrival(s0, t, 0) + rest;
  }

  // ----- Without that order there is no bound -----

  /** Clock readings in order do not help when the mutex is taken out of order: for every
      rule and every n some run admits more than n events that read their clock within
      one window's length. */
  lemma OvertakingHasNoBound(s0: State, t: string, n: nat) returns (steps: seq<Step>)
    requires Initial(s0) && Capped(s0.throttle, t) && ShouldAudit(s0.auditTypes, t)
    ensures ValidRun(s0, steps) && ReadingsInOrder(steps, 0)
    ensures Count(Run(s0, steps).calls, AdmittedDuring(t, 0, EffectiveRule(s0.throttle, t).window)) > n
  {
    var rule := EffectiveRule(s0.throttle, t);
    var during := AdmittedDuring(t, 0, rule.window);
    var s1 := Crowd(s0, t, n + 1);
    CrowdWaits(s0, t, n + 1);
    assert rule.window > 0 && s1.calls[0] == Call(t, "", "", "", 0, 0, Waiting);
    var s2 := Next(s1, Lock(0));
    assert Open(s2, t, rule, 0, 1) && s2.calls == s1.calls[0 := Call(t, "", "", "", 0, 0, Writing)];
    CountUpdate(s1.calls, 0, s2.calls[0], during);
    assert AllWait(s2, t, 1, n);
    hide Crowd, Next, Open, AllWait;
    var rest := OvertakenMany(s2, t, rule, 0, 1, 1, n);
    StepThen(s1, Lock(0), rest, 0, 0);
    steps := CrowdThen(s0, t, n + 1, [Lock(0)] + rest);
  }
}
