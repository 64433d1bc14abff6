/** The auditbot's fixed-window throttle. */
module AuditThrottle {

  // Concurrent calls to recordPresence share one mutex, but a window rollover releases
  // it to write a summary and takes it again. The interleavings are the runs of a state
  // machine whose steps are the code's critical sections. The class in AuditBot is the
  // code, each method proved to perform those steps.

  import opened Seqs

  const DEFAULT_PRESENCE_WINDOW := 300_000_000_000 // five minutes, in nanoseconds
  const MAX_RECENT_AUDIT := 100
  const EVENT_AUDIT_THROTTLED := "system.audit.throttled"

  datatype Rule = Rule(max: int, window: int)

  datatype Bucket = Bucket(rule: Rule, windowStart: int, count: nat, dropped: nat)

  datatype Kind = KindIrc | KindRegistry | KindSystem

  /** Free text, or the fields a throttle summary prints. */
  datatype Detail = Text(text: string) | Throttled(msgType: string, dropped: nat, window: int)

  datatype Entry = Entry(at: int, kind: Kind, channel: string, nick: string, messageType: string, detail: Detail)

  /** How far one recordPresence call has come. */
  datatype Phase =
    | Filtered                             // rejected by the audit-type filter
    | Waiting                              // clock read, mutex not yet taken
    | Summarising(held: nat, window: int)  // rolled over, about to report `held` drops
    | Relocking                            // rolled over, about to take the mutex again
    | Writing                              // admitted, entry not yet stored
    | Logged
    | Discarded

  /** `now` is the call's clock reading. `start` is when the window that counted or
      dropped it began; the code keeps no such field. */
  datatype Call = Call(msgType: string, channel: string, nick: string, detail: string, now: int, start: int,
                       phase: Phase)

  /** `windows` counts the windows started for each type; the code has no such field. */
  datatype State = State(
    auditTypes: set<string>,
    throttle: map<string, Rule>,
    buckets: map<string, Bucket>,
    log: seq<Entry>,
    calls: seq<Call>,
    windows: map<string, nat>)

  datatype Step =
    | Offer(msgType: string, channel: string, nick: string, detail: string, now: int)
    | Lock(call: nat)
    | Summarise(call: nat, at: int)
    | Relock(call: nat)
    | Append(call: nat, at: int)

  predicate ShouldAudit(auditTypes: set<string>, msgType: string) {
    auditTypes == {} || msgType in auditTypes
  }

  predicate Capped(throttle: map<string, Rule>, msgType: string) {
    msgType in throttle && throttle[msgType].max > 0
  }

  function EffectiveRule(throttle: map<string, Rule>, msgType: string): Rule
    requires msgType in throttle
  {
    var rule := throttle[msgType];
    Rule(rule.max, if rule.window <= 0 then DEFAULT_PRESENCE_WINDOW else rule.window)
  }

  function Fresh(rule: Rule, now: int): Bucket { Bucket(rule, now, 0, 0) }

  function Lookup(buckets: map<string, Bucket>, msgType: string, rule: Rule, now: int): Bucket {
    if msgType in buckets then buckets[msgType] else Fresh(rule, now)
  }

  predicate RollsOver(b: Bucket, now: int) { now - b.windowStart >= b.rule.window }

  /** The count-or-drop decision taken with the mutex held. */
  function Decide(b: Bucket): (Bucket, bool) {
    if b.count < b.rule.max then (b.(count := b.count + 1), true) else (b.(dropped := b.dropped + 1), false)
  }

  /** The bucket an uninterrupted call decides on: rolled over when its window has passed. */
  function Settle(b: Bucket, rule: Rule, now: int): Bucket {
    if RollsOver(b, now) then Fresh(rule, now) else b
  }

  function Finished(c: Call, start: int, admitted: bool): Call {
    c.(start := start, phase := Verdict(admitted))
  }

  function Verdict(admitted: bool): Phase { if admitted then Writing else Discarded }

  function PresenceEntry(c: Call, at: int): Entry {
    Entry(at, KindIrc, c.channel, c.nick, c.msgType, Text(c.detail))
  }

  function SummaryEntry(msgType: string, dropped: nat, window: int, at: int): Entry {
    Entry(at, KindSystem, "", "", EVENT_AUDIT_THROTTLED, Throttled(msgType, dropped, window))
  }

  predicate Enabled(s: State, step: Step) {
    match step
    case Offer(_, _, _, _, _) => true
    case Lock(i) => i < |s.calls| && s.calls[i].phase.Waiting?
    case Summarise(i, _) => i < |s.calls| && s.calls[i].phase.Summarising?
    case Relock(i) => i < |s.calls| && s.calls[i].phase.Relocking? && s.calls[i].msgType in s.buckets
    case Append(i, _) => i < |s.calls| && s.calls[i].phase.Writing?
  }

  function Advance(s: State, i: nat, phase: Phase): State
    requires i < |s.calls|
  {
    s.(calls := s.calls[i := s.calls[i].(phase := phase)])
  }

  /** Call i is counted or dropped by bucket b. */
  function Judge(s: State, i: nat, b: Bucket): State
    requires i < |s.calls|
  {
    s.(calls := s.calls[i := s.calls[i].(start := b.windowStart, phase := Verdict(Decide(b).1))],
       buckets := s.buckets[s.calls[i].msgType := Decide(b).0])
  }

  function LockStep(s: State, i: nat): State
    requires i < |s.calls| && s.calls[i].phase.Waiting?
  {
    var t := s.calls[i].msgType;
    if !Capped(s.throttle, t) then Advance(s, i, Writing)
    else
      var now := s.calls[i].now;
      var rule := EffectiveRule(s.throttle, t);
      var b := Lookup(s.buckets, t, rule, now);
      var nth := if t in s.buckets && t in s.windows then s.windows[t] else 1;
      if RollsOver(b, now) then
        Advance(s, i, if b.dropped > 0 then Summarising(b.dropped, rule.window) else Relocking)
          .(buckets := s.buckets[t := Fresh(rule, now)], windows := s.windows[t := nth + 1])
      else
        Judge(s, i, b).(windows := s.windows[t := nth])
  }

  function Next(s: State, step: Step): State
    requires Enabled(s, step)
  {
    match step
    case Offer(t, channel, nick, detail, now) =>
      var phase := if ShouldAudit(s.auditTypes, t) then Waiting else Filtered;
      s.(calls := s.calls + [Call(t, channel, nick, detail, now, now, phase)])
    case Lock(i) => LockStep(s, i)
    case Summarise(i, at) =>
      var c := s.calls[i];
      Advance(s, i, Relocking).(log := s.log + [SummaryEntry(c.msgType, c.phase.held, c.phase.window, at)])
    case Relock(i) =>
      Judge(s, i, s.buckets[s.calls[i].msgType])
    case Append(i, at) =>
      Advance(s, i, Logged).(log := s.log + [PresenceEntry(s.calls[i], at)])
  }

  /** A fresh bot: no buckets, nothing logged, nobody calling. */
  predicate Initial(s: State) {
    s.buckets == map[] && s.log == [] && s.calls == [] && s.windows == map[]
  }

  predicate ValidRun(s: State, steps: seq<Step>)
    decreases |steps|
  {
    steps == [] || (Enabled(s, steps[0]) && ValidRun(Next(s, steps[0]), steps[1..]))
  }

  function Run(s: State, steps: seq<Step>): State
    requires ValidRun(s, steps)
    decreases |steps|
  {
    if steps == [] then s else Run(Next(s, steps[0]), steps[1..])
  }

  lemma {:induction false} RunExtend(s: State, steps: seq<Step>, step: Step)
    requires ValidRun(s, steps) && Enabled(Run(s, steps), step)
    ensures ValidRun(s, steps + [step])
    ensures Run(s, steps + [step]) == Next(Run(s, steps), step)
    decreases |steps|
  {
    if steps != [] {
      assert (steps + [step])[1..] == steps[1..] + [step];
      RunExtend(Next(s, steps[0]), steps[1..], step);
    } else {
      assert steps + [step] == [step];
      assert ValidRun(Next(s, step), [step][1..]);
    }
  }

  // ----- What is counted, per event type -----

  function OfferedOf(t: string): Call -> bool { (c: Call) => c.msgType == t && !c.phase.Filtered? }
  function LoggedOf(t: string): Call -> bool { (c: Call) => c.msgType == t && c.phase.Logged? }
  function DroppedOf(t: string): Call -> bool { (c: Call) => c.msgType == t && c.phase.Discarded? }
  function AdmittedOf(t: string): Call -> bool { (c: Call) => c.msgType == t && (c.phase.Writing? || c.phase.Logged?) }
  function InProgressOf(t: string): Call -> bool {
    (c: Call) => c.msgType == t && !c.phase.Filtered? && !c.phase.Logged? && !c.phase.Discarded?
  }
  function HeldOf(t: string): Call -> nat {
    (c: Call) => if c.msgType == t && c.phase.Summarising? then c.phase.held else 0
  }
  function EntriesOf(t: string): Entry -> bool { (e: Entry) => e.kind.KindIrc? && e.messageType == t }
  function ReportedOf(t: string): Entry -> nat {
    (e: Entry) => if e.kind.KindSystem? && e.detail.Throttled? && e.detail.msgType == t then e.detail.dropped else 0
  }
  function Pending(s: State, t: string): nat { if t in s.buckets then s.buckets[t].dropped else 0 }

  // ----- The invariant -----

  ghost predicate DropsAccounted(s: State, t: string) {
    Count(s.calls, DroppedOf(t)) == Sum(s.log, ReportedOf(t)) + Sum(s.calls, HeldOf(t)) + Pending(s, t)
  }

  ghost predicate EntriesMatchCalls(s: State, t: string) {
    Count(s.log, EntriesOf(t)) == Count(s.calls, LoggedOf(t))
  }

  ghost predicate BucketSound(s: State, t: string) {
    t in s.buckets ==>
      && Capped(s.throttle, t)
      && s.buckets[t].rule == EffectiveRule(s.throttle, t)
      && s.buckets[t].count <= s.buckets[t].rule.max
      && t in s.windows && s.windows[t] >= 1
  }

  ghost predicate AdmissionsBounded(s: State, t: string) {
    Capped(s.throttle, t) ==>
      if t in s.buckets && t in s.windows
      then Count(s.calls, AdmittedOf(t)) + s.throttle[t].max <= s.throttle[t].max * s.windows[t] + s.buckets[t].count
      else Count(s.calls, AdmittedOf(t)) == 0
  }

  ghost predicate RolledCallsHaveBuckets(s: State, t: string) {
    forall i | 0 <= i < |s.calls| ::
      s.calls[i].msgType == t && (s.calls[i].phase.Summarising? || s.calls[i].phase.Relocking?) ==> t in s.buckets
  }

  ghost predicate InvFor(s: State, t: string) {
    && DropsAccounted(s, t)
    && EntriesMatchCalls(s, t)
    && BucketSound(s, t)
    && AdmissionsBounded(s, t)
    && RolledCallsHaveBuckets(s, t)
  }

  ghost predicate Inv(s: State) { forall t :: InvFor(s, t) }

  /** How every count moves when one call moves on. */
  lemma CallCounts(s: State, i: nat, c': Call, t: string)
    requires i < |s.calls| && c'.msgType == s.calls[i].msgType
    ensures
      var c := s.calls[i];
      var calls' := s.calls[i := c'];
      && Count(calls', DroppedOf(t)) + (if DroppedOf(t)(c) then 1 else 0)
         == Count(s.calls, DroppedOf(t)) + (if DroppedOf(t)(c') then 1 else 0)
      && Count(calls', LoggedOf(t)) + (if LoggedOf(t)(c) then 1 else 0)
         == Count(s.calls, LoggedOf(t)) + (if LoggedOf(t)(c') then 1 else 0)
      && Count(calls', AdmittedOf(t)) + (if AdmittedOf(t)(c) then 1 else 0)
         == Count(s.calls, AdmittedOf(t)) + (if AdmittedOf(t)(c') then 1 else 0)
      && Sum(calls', HeldOf(t)) + HeldOf(t)(c) == Sum(s.calls, HeldOf(t)) + HeldOf(t)(c')
  {
    CountUpdate(s.calls, i, c', DroppedOf(t));
    CountUpdate(s.calls, i, c', LoggedOf(t));
    CountUpdate(s.calls, i, c', AdmittedOf(t));
    SumUpdate(s.calls, i, c', HeldOf(t));
  }

  lemma OfferKeeps(s: State, step: Step, t: string)
    requires step.Offer? && InvFor(s, t)
    ensures InvFor(Next(s, step), t)
  {
    var c := Next(s, step).calls[|s.calls|];
    CountAppend(s.calls, c, DroppedOf(t));
    CountAppend(s.calls, c, LoggedOf(t));
    CountAppend(s.calls, c, AdmittedOf(t));
    SumAppend(s.calls, c, HeldOf(t));
  }

  lemma OneMoreWindow(max: int, windows: nat)
    ensures max * (windows + 1) == max * windows + max
  {}

  lemma LockLeavesOthersAlone(s: State, i: nat, t: string)
    requires Enabled(s, Lock(i)) && t != s.calls[i].msgType
    ensures
      var s' := Next(s, Lock(i));
      && s'.log == s.log && s'.throttle == s.throttle
      && (t in s'.buckets <==> t in s.buckets) && (t in s.buckets ==> s'.buckets[t] == s.buckets[t])
      && (t in s'.windows <==> t in s.windows) && (t in s.windows ==> s'.windows[t] == s.windows[t])
      && |s'.calls| == |s.calls|
      && s'.calls == s.calls[i := s'.calls[i]] && s'.calls[i].msgType == s.calls[i].msgType
  {}

  lemma LockKeepsOthers(s: State, i: nat, t: string)
    requires Enabled(s, Lock(i)) && InvFor(s, t) && t != s.calls[i].msgType
    ensures InvFor(Next(s, Lock(i)), t)
  {
    var s' := Next(s, Lock(i));
    CallCounts(s, i, s'.calls[i], t);
    LockLeavesOthersAlone(s, i, t);
  }

  /** What a Lock does with its call and with the drops pending in the bucket. */
  lemma LockOutcome(s: State, i: nat)
    requires Enabled(s, Lock(i))
    requires BucketSound(s, s.calls[i].msgType)
    ensures
      var s' := Next(s, Lock(i));
      var t := s.calls[i].msgType;
      && |s'.calls| == |s.calls| && s'.calls == s.calls[i := s'.calls[i]] && s'.log == s.log
      && s'.calls[i].msgType == t
      && match s'.calls[i].phase
         case Writing => Pending(s', t) == Pending(s, t)
         case Discarded => Pending(s', t) == Pending(s, t) + 1
         case Summarising(held, _) => held == Pending(s, t) && Pending(s', t) == 0
         case Relocking => Pending(s, t) == 0 == Pending(s', t)
         case _ => false
  {
  }

  lemma LockKeepsOwnCounts(s: State, i: nat)
    requires Enabled(s, Lock(i)) && InvFor(s, s.calls[i].msgType)
    ensures
      var t := s.calls[i].msgType;
      DropsAccounted(Next(s, Lock(i)), t) && EntriesMatchCalls(Next(s, Lock(i)), t)
  {
    hide Next, Pending;
    LockOutcome(s, i);
    CallCounts(s, i, Next(s, Lock(i)).calls[i], s.calls[i].msgType);
  }

  lemma LockKeepsOwnBounds(s: State, i: nat)
    requires Enabled(s, Lock(i)) && InvFor(s, s.calls[i].msgType)
    ensures AdmissionsBounded(Next(s, Lock(i)), s.calls[i].msgType)
  {
    var t := s.calls[i].msgType;
    CallCounts(s, i, Next(s, Lock(i)).calls[i], t);
    if Capped(s.throttle, t) && t in s.windows {
      OneMoreWindow(s.throttle[t].max, s.windows[t]);
    }
  }

  lemma LockKeepsOwn(s: State, i: nat)
    requires Enabled(s, Lock(i)) && InvFor(s, s.calls[i].msgType)
    ensures InvFor(Next(s, Lock(i)), s.calls[i].msgType)
  {
    LockKeepsOwnCounts(s, i);
    LockKeepsOwnBounds(s, i);
    var t := s.calls[i].msgType;
    var s' := Next(s, Lock(i));
    assert BucketSound(s', t);
    assert RolledCallsHaveBuckets(s', t);
  }

  lemma SummariseKeeps(s: State, i: nat, at: int, t: string)
    requires Enabled(s, Summarise(i, at)) && InvFor(s, t)
    ensures InvFor(Next(s, Summarise(i, at)), t)
  {
    var c := s.calls[i];
    CallCounts(s, i, c.(phase := Relocking), t);
    var e := SummaryEntry(c.msgType, c.phase.held, c.phase.window, at);
    SumAppend(s.log, e, ReportedOf(t));
    CountAppend(s.log, e, EntriesOf(t));
  }

  lemma RelockKeeps(s: State, i: nat, t: string)
    requires Enabled(s, Relock(i)) && InvFor(s, t)
    ensures InvFor(Next(s, Relock(i)), t)
  {
    CallCounts(s, i, Next(s, Relock(i)).calls[i], t);
  }

  lemma AppendKeeps(s: State, i: nat, at: int, t: string)
    requires Enabled(s, Append(i, at)) && InvFor(s, t)
    ensures InvFor(Next(s, Append(i, at)), t)
  {
    var c' := s.calls[i].(phase := Logged);
    CallCounts(s, i, c', t);
    LogCounts(s.log, PresenceEntry(s.calls[i], at), t);
    AppendMeans(s, i, at);
    hide Next, LoggedOf, AdmittedOf, DroppedOf, HeldOf, EntriesOf, ReportedOf;
    var s' := Next(s, Append(i, at));
    assert AdmissionsBounded(s', t);
    assert RolledCallsHaveBuckets(s', t);
  }

  lemma AppendMeans(s: State, i: nat, at: int)
    requires Enabled(s, Append(i, at))
    ensures Next(s, Append(i, at))
            == s.(log := s.log + [PresenceEntry(s.calls[i], at)], calls := s.calls[i := s.calls[i].(phase := Logged)])
  {
  }

  lemma LogCounts(log: seq<Entry>, e: Entry, t: string)
    ensures Sum(log + [e], ReportedOf(t)) == Sum(log, ReportedOf(t)) + ReportedOf(t)(e)
    ensures Count(log + [e], EntriesOf(t)) == Count(log, EntriesOf(t)) + (if EntriesOf(t)(e) then 1 else 0)
  {
    SumAppend(log, e, ReportedOf(t));
    CountAppend(log, e, EntriesOf(t));
  }

  /** Every critical section, taken by any call at any time, keeps the invariant. */
  lemma StepKeepsInv(s: State, step: Step)
    requires Inv(s) && Enabled(s, step)
    ensures Inv(Next(s, step))
  {
    forall t
      ensures InvFor(Next(s, step), t)
    {
      assert InvFor(s, t);
      match step
      case Offer(_, _, _, _, _) => OfferKeeps(s, step, t);
      case Lock(i) =>
        if t == s.calls[i].msgType {
          LockKeepsOwn(s, i);
        } else {
          LockKeepsOthers(s, i, t);
        }
      case Summarise(i, at) => SummariseKeeps(s, i, at, t);
      case Relock(i) => RelockKeeps(s, i, t);
      case Append(i, at) => AppendKeeps(s, i, at, t);
    }
  }

  lemma {:induction false} RunKeepsInv(s: State, steps: seq<Step>)
    requires Inv(s) && ValidRun(s, steps)
    ensures Inv(Run(s, steps))
    ensures Run(s, steps).throttle == s.throttle
    decreases |steps|
  {
    if steps != [] {
      StepKeepsInv(s, steps[0]);
      RunKeepsInv(Next(s, steps[0]), steps[1..]);
    }
  }

  lemma {:induction false} CallsPartition(calls: seq<Call>, t: string)
    ensures Count(calls, OfferedOf(t))
         == Count(calls, LoggedOf(t)) + Count(calls, DroppedOf(t)) + Count(calls, InProgressOf(t))
  {
    if calls != [] {
      CallsPartition(calls[..|calls| - 1], t);
    }
  }

  lemma {:induction false} NothingHeldWhenIdle(calls: seq<Call>, t: string)
    requires Count(calls, InProgressOf(t)) == 0
    ensures Sum(calls, HeldOf(t)) == 0
  {
    if calls != [] {
      NothingHeldWhenIdle(calls[..|calls| - 1], t);
    }
  }

  /** Conservation under every interleaving: the events offered for a type are
      exactly those stored as entries, those reported in summaries, those held by
      summaries in flight, those still pending in the bucket, and the calls that
      have not finished. No drop is lost and none is reported twice. */
  lemma EveryEventIsAccountedFor(s0: State, steps: seq<Step>, t: string)
    requires Initial(s0) && ValidRun(s0, steps)
    ensures
      var s := Run(s0, steps);
      && Count(s.calls, OfferedOf(t))
         == Count(s.log, EntriesOf(t)) + Sum(s.log, ReportedOf(t)) + Sum(s.calls, HeldOf(t))
            + Pending(s, t) + Count(s.calls, InProgressOf(t))
      && Count(s.calls, DroppedOf(t)) == Sum(s.log, ReportedOf(t)) + Sum(s.calls, HeldOf(t)) + Pending(s, t)
  {
    RunKeepsInv(s0, steps);
    var s := Run(s0, steps);
    assert InvFor(s, t);
    CallsPartition(s.calls, t);
  }

  /** Once every call of the type has returned, the log and the bucket alone
      account for every event offered. */
  lemma QuiescentLogIsComplete(s0: State, steps: seq<Step>, t: string)
    requires Initial(s0) && ValidRun(s0, steps)
    requires Count(Run(s0, steps).calls, InProgressOf(t)) == 0
    ensures
      var s := Run(s0, steps);
      Count(s.calls, OfferedOf(t)) == Count(s.log, EntriesOf(t)) + Sum(s.log, ReportedOf(t)) + Pending(s, t)
  {
    EveryEventIsAccountedFor(s0, steps, t);
    NothingHeldWhenIdle(Run(s0, steps).calls, t);
  }

  /** Under every interleaving no window admits more than Max, so a capped type
      is admitted at most Max times per window opened. */
  lemma AdmissionsPerWindow(s0: State, steps: seq<Step>, t: string)
    requires Initial(s0) && ValidRun(s0, steps)
    requires Capped(s0.throttle, t)
    ensures
      var s := Run(s0, steps);
      if t in s.buckets && t in s.windows
      then s.buckets[t].count <= s0.throttle[t].max
           && Count(s.calls, AdmittedOf(t)) <= s0.throttle[t].max * s.windows[t]
      else Count(s.calls, AdmittedOf(t)) == 0
  {
    RunKeepsInv(s0, steps);
    var s := Run(s0, steps);
    assert InvFor(s, t);
  }

  /** A call waiting to take the mutex again is never stuck: its bucket exists. */
  lemma RelockAlwaysEnabled(s0: State, steps: seq<Step>, i: nat)
    requires Initial(s0) && ValidRun(s0, steps)
    requires i < |Run(s0, steps).calls| && Run(s0, steps).calls[i].phase.Relocking?
    ensures Enabled(Run(s0, steps), Relock(i))
  {
    RunKeepsInv(s0, steps);
    assert InvFor(Run(s0, steps), Run(s0, steps).calls[i].msgType);
  }

  lemma {:induction false} RunConcat(s: State, a: seq<Step>, b: seq<Step>)
    requires ValidRun(s, a) && ValidRun(Run(s, a), b)
    ensures ValidRun(s, a + b) && Run(s, a + b) == Run(Run(s, a), b)
    decreases |a|
  {
    if a == [] {
      assert a + b == b;
    } else {
      assert (a + b)[1..] == a[1..] + b;
      RunConcat(Next(s, a[0]), a[1..], b);
    }
  }
}
