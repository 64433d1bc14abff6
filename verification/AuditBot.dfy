/** The auditbot's code: each method performs steps of the machine in AuditThrottle. */
module AuditBot {
  import opened Seqs
  import opened AuditThrottle

  /** What the first critical section leaves to do. */
  datatype FirstSection = Decided(admitted: bool) | RolledOver(dropped: nat)

  class Bot {
    const auditTypes: set<string>
    var throttle: map<string, Rule>
    var buckets: map<string, Bucket>
    var store: seq<Entry>   // the append-only audit store
    var recent: seq<Entry>  // the last entries, for QUERY and RECENT
    ghost var calls: seq<Call>
    ghost var windows: map<string, nat>

    constructor (auditTypes: set<string>, throttle: map<string, Rule>)
      ensures Abs() == State(auditTypes, throttle, map[], [], [], map[]) && Initial(Abs())
      ensures recent == []
    {
      this.auditTypes, this.throttle := auditTypes, throttle;
      buckets, store, recent := map[], [], [];
      calls, windows := [], map[];
    }

    ghost function Abs(): State
      reads this
    {
      State(auditTypes, throttle, buckets, store, calls, windows)
    }

    /** Replaces the throttle configuration and forgets every bucket. */
    method SetThrottle(cfg: map<string, Rule>)
      modifies this
      ensures throttle == cfg && buckets == map[]
      ensures unchanged(`store) && unchanged(`recent) && unchanged(`calls)
      ensures windows == map[]
    {
      throttle := cfg;
      buckets := map[];
      windows := map[];
    }

    /** Stores an entry and keeps the last MAX_RECENT_AUDIT of them at hand. */
    method Write(e: Entry, at: int)
      modifies `store, `recent
      ensures store == old(store) + [e.(at := at)]
      ensures recent == LastN(old(recent) + [e.(at := at)], 100)
    {
      var stamped := e.(at := at);
      store := store + [stamped];
      recent := recent + [stamped];
      if |recent| > MAX_RECENT_AUDIT {
        recent := recent[|recent| - MAX_RECENT_AUDIT..];
      }
    }

    /** throttleAdmit up to its first unlock. */
    method AdmitFirst(msgType: string, now: int, ghost i: nat) returns (r: FirstSection)
      requires Enabled(Abs(), Lock(i)) && calls[i].msgType == msgType && calls[i].now == now
      modifies `buckets, `calls, `windows
      ensures Abs() == Next(old(Abs()), Lock(i))
      ensures match r
              case Decided(admitted) => calls[i].phase == Verdict(admitted)
              case RolledOver(dropped) =>
                msgType in throttle && msgType in buckets &&
                calls[i].phase ==
                  if dropped > 0 then Summarising(dropped, EffectiveRule(throttle, msgType).window) else Relocking
    {
      ghost var s := Abs();
      if msgType !in throttle || throttle[msgType].max <= 0 {
        calls := Next(s, Lock(i)).calls;
        return Decided(true);
      }
      var window := throttle[msgType].window;
      if window <= 0 {
        window := DEFAULT_PRESENCE_WINDOW;
      }
      var rule := Rule(throttle[msgType].max, window);
      if msgType !in buckets {
        buckets := buckets[msgType := Bucket(rule, now, 0, 0)];
      }
      var bk := buckets[msgType];
      calls, windows := Next(s, Lock(i)).calls, Next(s, Lock(i)).windows;
      if now - bk.windowStart >= bk.rule.window {
        buckets := buckets[msgType := Bucket(rule, now, 0, 0)];
        r := RolledOver(bk.dropped);
      } else {
        var ok := AdmitLocked(msgType);
        r := Decided(ok);
      }
    }

    /** The tail of throttleAdmit: count the event or drop it. */
    method AdmitLocked(msgType: string) returns (ok: bool)
      requires msgType in buckets
      modifies `buckets
      ensures buckets == old(buckets)[msgType := Decide(old(buckets[msgType])).0]
      ensures ok == Decide(old(buckets[msgType])).1
    {
      var bk := buckets[msgType];
      if bk.count < bk.rule.max {
        buckets := buckets[msgType := bk.(count := bk.count + 1)];
        return true;
      }
      buckets := buckets[msgType := bk.(dropped := bk.dropped + 1)];
      return false;
    }

    method WriteThrottleSummary(msgType: string, dropped: nat, window: int, at: int, ghost i: nat)
      requires Enabled(Abs(), Summarise(i, at)) && calls[i].msgType == msgType
      requires calls[i].phase == Summarising(dropped, window)
      modifies `store, `recent, `calls
      ensures Abs() == Next(old(Abs()), Summarise(i, at))
      ensures recent == LastN(old(recent) + [SummaryEntry(msgType, dropped, window, at)], MAX_RECENT_AUDIT)
    {
      calls := Next(Abs(), Summarise(i, at)).calls;
      Write(Entry(0, KindSystem, "", "", EVENT_AUDIT_THROTTLED, Throttled(msgType, dropped, window)), at);
    }

    /** throttleAdmit after it has taken the mutex again. */
    method AdmitSecond(msgType: string, ghost i: nat) returns (ok: bool)
      requires Enabled(Abs(), Relock(i)) && calls[i].msgType == msgType
      modifies `buckets, `calls
      ensures Abs() == Next(old(Abs()), Relock(i))
      ensures i < |calls| && calls == old(calls)[i := Finished(old(calls)[i], calls[i].start, ok)]
      ensures buckets == old(buckets)[msgType := Decide(old(buckets)[msgType]).0]
      ensures ok == Decide(old(buckets)[msgType]).1
    {
      calls := Next(Abs(), Relock(i)).calls;
      ok := AdmitLocked(msgType);
    }

    /** What throttleAdmit does after a rollover: report the drops, then decide. */
    method AdmitAfterRollover(msgType: string, dropped: nat, at: int, ghost i: nat)
      returns (ok: bool, ghost steps: seq<Step>)
      requires msgType in throttle && msgType in buckets
      requires i < |calls| && calls[i].msgType == msgType
      requires calls[i].phase ==
               if dropped > 0 then Summarising(dropped, EffectiveRule(throttle, msgType).window) else Relocking
      modifies this
      ensures ValidRun(old(Abs()), steps) && Abs() == Run(old(Abs()), steps)
      ensures i < |calls| && calls == old(calls)[i := Finished(old(calls)[i], calls[i].start, ok)]
      ensures throttle == old(throttle)
      ensures buckets == old(buckets)[msgType := Decide(old(buckets)[msgType]).0]
      ensures ok == Decide(old(buckets)[msgType]).1
    {
      ghost var s := Abs();
      steps := [];
      if dropped > 0 {
        var window := throttle[msgType].window;
        if window <= 0 {
          window := DEFAULT_PRESENCE_WINDOW;
        }
        WriteThrottleSummary(msgType, dropped, window, at, i);
        RunExtend(s, steps, Summarise(i, at));
        steps := steps + [Summarise(i, at)];
      }
      ok := AdmitSecond(msgType, i);
      RunExtend(s, steps, Relock(i));
      steps := steps + [Relock(i)];
    }

    /** One uninterrupted throttleAdmit is the run of its critical sections. */
    method ThrottleAdmit(msgType: string, now: int, at: int, ghost i: nat) returns (ok: bool, ghost steps: seq<Step>)
      requires Enabled(Abs(), Lock(i)) && calls[i].msgType == msgType && calls[i].now == now
      modifies this
      ensures ValidRun(old(Abs()), steps) && Abs() == Run(old(Abs()), steps)
      ensures i < |calls| && calls == old(calls)[i := Finished(old(calls)[i], calls[i].start, ok)]
      ensures throttle == old(throttle)
      ensures
        if Capped(throttle, msgType) then
          var rule := EffectiveRule(throttle, msgType);
          var (b, admitted) := Decide(Settle(Lookup(old(buckets), msgType, rule, now), rule, now));
          buckets == old(buckets)[msgType := b] && ok == admitted
        else
          buckets == old(buckets) && ok
    {
      ghost var s := Abs();
      RunExtend(s, [], Lock(i));
      steps := [] + [Lock(i)];
      var first := AdmitFirst(msgType, now, i);
      if first.Decided? {
        return first.admitted, steps;
      }
      ghost var more;
      ok, more := AdmitAfterRollover(msgType, first.dropped, at, i);
      RunConcat(s, steps, more);
      steps := steps + more;
    }

    /** The write at the end of recordPresence. */
    method WritePresence(msgType: string, channel: string, nick: string, detail: string, at: int, ghost i: nat)
      requires Enabled(Abs(), Append(i, at))
      requires var c := calls[i]; c == Call(msgType, channel, nick, detail, c.now, c.start, c.phase)
      modifies `store, `recent, `calls
      ensures Abs() == Next(old(Abs()), Append(i, at))
      ensures i < |calls| == |old(calls)| && calls == old(calls)[i := old(calls)[i].(phase := Logged)]
      ensures store != [] && recent != [] && recent[|recent| - 1] == store[|store| - 1]
      ensures var e := store[|store| - 1];
              && e.kind.KindIrc? && e.channel == channel && e.nick == nick && e.messageType == msgType
              && e.detail == Text(detail) && e.at == at
    {
      ghost var s := Abs();
      Write(Entry(0, KindIrc, channel, nick, msgType, Text(detail)), at);
      calls := Next(s, Append(i, at)).calls;
    }

    /** One uninterrupted recordPresence: a run of the machine that starts by
        offering the event and leaves its call finished. */
    method RecordPresence(msgType: string, channel: string, nick: string, detail: string,
                          now: int, summaryAt: int, at: int)
      returns (ghost steps: seq<Step>)
      modifies this
      ensures ValidRun(old(Abs()), steps) && Abs() == Run(old(Abs()), steps)
      ensures steps != [] && steps[0] == Offer(msgType, channel, nick, detail, now)
      ensures |calls| == |old(calls)| + 1 && calls[..|old(calls)|] == old(calls)
      ensures calls[|old(calls)|].phase in {Filtered, Logged, Discarded}
      ensures calls[|old(calls)|].phase == Filtered <==> auditTypes != {} && msgType !in auditTypes
      ensures calls[|old(calls)|].phase == Filtered ==> store == old(store) && recent == old(recent)
      ensures calls[|old(calls)|].phase == Logged ==>
                && store != [] && recent != [] && recent[|recent| - 1] == store[|store| - 1]
                && var e := store[|store| - 1];
                   && e.kind.KindIrc? && e.channel == channel && e.nick == nick && e.messageType == msgType
                   && e.detail == Text(detail) && e.at == at
    {
      hide LockStep, Decide, Settle, Lookup, EffectiveRule, Capped, LastN;
      ghost var s := Abs();
      ghost var offer := Offer(msgType, channel, nick, detail, now);
      ghost var i := |calls|;
      calls := Next(s, offer).calls;
      steps := [offer];
      RunExtend(s, [], offer);
      assert [] + [offer] == [offer];
      if !(auditTypes == {} || msgType in auditTypes) {
        return;
      }
      ghost var s1 := Abs();
      ghost var more;
      var ok;
      ok, more := ThrottleAdmit(msgType, now, summaryAt, i);
      RunConcat(s, steps, more);
      steps := steps + more;
      if !ok {
        return;
      }
      WritePresence(msgType, channel, nick, detail, at, i);
      RunExtend(s, steps, Append(i, at));
      steps := steps + [Append(i, at)];
    }
  }
}
