/** What the audit log says: which events, with which fields, in which order. */
module AuditEntries {
  import opened Seqs
  import opened AuditThrottle

  /** An event as it was offered. */
  datatype Event = Event(channel: string, nick: string, msgType: string, detail: string)

  /** The events offered in a run, in order: call i offers the i-th. */
  function Offers(steps: seq<Step>): seq<Event> {
    if steps == [] then []
    else
      var init, last := Offers(steps[..|steps| - 1]), steps[|steps| - 1];
      if last.Offer? then init + [Event(last.channel, last.nick, last.msgType, last.detail)] else init
  }

  /** A call's last step: its number and the clock reading that stamps its entry. */
  datatype Stored = Stored(call: nat, at: int)

  function Appends(steps: seq<Step>): seq<Stored> {
    if steps == [] then []
    else
      var init, last := Appends(steps[..|steps| - 1]), steps[|steps| - 1];
      if last.Append? then init + [Stored(last.call, last.at)] else init
  }

  function IsPresence(): Entry -> bool { (e: Entry) => e.kind.KindIrc? }

  /** The entry tells that event, stamped with that time. */
  predicate Tells(e: Entry, event: Event, at: int) {
    && e.channel == event.channel && e.nick == event.nick && e.messageType == event.msgType
    && e.detail == Text(event.detail) && e.at == at
  }

  predicate CallOf(c: Call, event: Event) {
    c.channel == event.channel && c.nick == event.nick && c.msgType == event.msgType && c.detail == event.detail
  }

  /** A type is filtered out when types are configured and it is not among them. */
  predicate FilteredOut(auditTypes: set<string>, msgType: string) {
    (exists t :: t in auditTypes) && msgType !in auditTypes
  }

  /** A summary names a capped type and its configured window, five minutes when that is
      not positive, and carries no channel or nick. */
  predicate SummaryRight(throttle: map<string, Rule>, e: Entry) {
    && e.kind.KindSystem? && e.channel == "" && e.nick == "" && e.messageType == "system.audit.throttled"
    && e.detail.Throttled? && e.detail.dropped > 0
    && e.detail.msgType in throttle && throttle[e.detail.msgType].max > 0
    && e.detail.window == if throttle[e.detail.msgType].window > 0 then throttle[e.detail.msgType].window
                          else 300_000_000_000
  }

  predicate HoldsRight(throttle: map<string, Rule>, c: Call) {
    c.phase.Summarising? ==>
      && c.phase.held > 0 && c.msgType in throttle && throttle[c.msgType].max > 0
      && c.phase.window == if throttle[c.msgType].window > 0 then throttle[c.msgType].window else 300_000_000_000
  }

  /** The log and the calls, told from the steps alone. */
  ghost predicate Told(s: State, steps: seq<Step>) {
    var offers, appends, entries := Offers(steps), Appends(steps), Filter(s.log, IsPresence());
    && |s.calls| == |offers|
    && (forall i | 0 <= i < |offers| :: CallOf(s.calls[i], offers[i]))
    && (forall i | 0 <= i < |offers| :: s.calls[i].phase.Filtered? <==> FilteredOut(s.auditTypes, offers[i].msgType))
    && |entries| == |appends|
    && (forall k | 0 <= k < |appends| ::
          appends[k].call < |offers| && Tells(entries[k], offers[appends[k].call], appends[k].at))
    && (forall i | 0 <= i < |offers| ::
          s.calls[i].phase.Logged? <==> exists k :: 0 <= k < |appends| && appends[k].call == i)
    && (forall j, k | 0 <= j < k < |appends| :: appends[j].call != appends[k].call)
  }

  ghost predicate SummariesRight(s: State) {
    && (forall e | e in s.log && !e.kind.KindIrc? :: SummaryRight(s.throttle, e))
    && (forall c | c in s.calls :: HoldsRight(s.throttle, c))
  }

  lemma OfferTells(s: State, steps: seq<Step>, step: Step)
    requires Told(s, steps) && step.Offer?
    ensures Told(Next(s, step), steps + [step])
  {
    assert (steps + [step])[..|steps|] == steps;
  }

  /** Call j keeps its event and neither leaves nor enters the filtered or the logged ones. */
  predicate MovesOn(s: State, s': State, j: nat)
    requires |s'.calls| == |s.calls| && j < |s.calls|
  {
    var c, c' := s.calls[j], s'.calls[j];
    && CallOf(c', Event(c.channel, c.nick, c.msgType, c.detail))
    && (c'.phase.Filtered? <==> c.phase.Filtered?) && (c'.phase.Logged? <==> c.phase.Logged?)
  }

  /** A step of one call that stores no presence entry. */
  lemma OtherTells(s: State, steps: seq<Step>, step: Step, s': State)
    requires Told(s, steps) && !step.Offer? && !step.Append?
    requires |s'.calls| == |s.calls| && s'.auditTypes == s.auditTypes
    requires Filter(s'.log, IsPresence()) == Filter(s.log, IsPresence())
    requires forall j: nat | j < |s.calls| :: MovesOn(s, s', j)
    ensures Told(s', steps + [step])
  {
    assert (steps + [step])[..|steps|] == steps;
    assert Offers(steps + [step]) == Offers(steps) && Appends(steps + [step]) == Appends(steps);
    hide Tells, FilteredOut, Offers, Appends, Filter;
    forall i | 0 <= i < |s.calls|
      ensures CallOf(s'.calls[i], Offers(steps)[i])
      ensures s'.calls[i].phase.Filtered? <==> s.calls[i].phase.Filtered?
      ensures s'.calls[i].phase.Logged? <==> s.calls[i].phase.Logged?
    {
      assert MovesOn(s, s', i) && CallOf(s.calls[i], Offers(steps)[i]);
    }
  }

  lemma OtherMoves(s: State, step: Step)
    requires Enabled(s, step) && !step.Offer? && !step.Append?
    ensures |Next(s, step).calls| == |s.calls| && Next(s, step).auditTypes == s.auditTypes
    ensures forall j: nat | j < |s.calls| :: MovesOn(s, Next(s, step), j)
  {
  }

  lemma OtherLogs(s: State, step: Step)
    requires Enabled(s, step) && !step.Append?
    ensures Filter(Next(s, step).log, IsPresence()) == Filter(s.log, IsPresence())
  {
    if step.Summarise? {
      var c := s.calls[step.call];
      FilterAppend(s.log, SummaryEntry(c.msgType, c.phase.held, c.phase.window, step.at), IsPresence());
    }
  }

  lemma AppendTells(s: State, steps: seq<Step>, i: nat, at: int)
    requires Told(s, steps) && Enabled(s, Append(i, at))
    ensures Told(Next(s, Append(i, at)), steps + [Append(i, at)])
  {
    var s' := Next(s, Append(i, at));
    var step := Append(i, at);
    assert (steps + [step])[..|steps|] == steps;
    FilterAppend(s.log, s'.log[|s.log|], IsPresence());
    assert Tells(s'.log[|s.log|], Offers(steps)[i], at);
    AppendMeans(s, i, at);
    hide Next, Enabled, Tells, CallOf, FilteredOut, Filter, IsPresence, Offers;
    var appends, appends' := Appends(steps), Appends(steps + [step]);
    assert appends' == appends + [Stored(i, at)];
    assert forall k | 0 <= k < |appends| :: appends'[k] == appends[k];
    assert appends'[|appends|].call == i;
  }

  lemma {:induction false} RunTells(s0: State, steps: seq<Step>)
    requires Initial(s0) && ValidRun(s0, steps)
    ensures Told(Run(s0, steps), steps)
    decreases |steps|
  {
    if steps != [] {
      var n := |steps| - 1;
      var init, step := steps[..n], steps[n];
      RunInit(s0, steps);
      RunTells(s0, init);
      var s := Run(s0, init);
      assert steps == init + [step];
      hide Told, Run, Next;
      match step
      case Offer(_, _, _, _, _) => OfferTells(s, init, step);
      case Append(i, at) => AppendTells(s, init, i, at);
      case _ =>
        OtherLogs(s, step);
        OtherMoves(s, step);
        OtherTells(s, init, step, Next(s, step));
    }
  }

  lemma {:induction false} RunInit(s: State, steps: seq<Step>)
    requires ValidRun(s, steps) && steps != []
    ensures ValidRun(s, steps[..|steps| - 1]) && Enabled(Run(s, steps[..|steps| - 1]), steps[|steps| - 1])
    ensures Run(s, steps) == Next(Run(s, steps[..|steps| - 1]), steps[|steps| - 1])
    decreases |steps|
  {
    if |steps| > 1 {
      var rest := steps[1..];
      RunInit(Next(s, steps[0]), rest);
      assert steps[..|steps| - 1][1..] == rest[..|rest| - 1];
    } else {
      assert steps[..0] == [] && steps[1..] == [];
    }
  }

  lemma StepSummarises(s: State, step: Step)
    requires SummariesRight(s) && Enabled(s, step) && forall t :: BucketSound(s, t)
    ensures SummariesRight(Next(s, step))
  {
    var s' := Next(s, step);
    forall e | e in s'.log && !e.kind.KindIrc? ensures SummaryRight(s'.throttle, e) {
      if step.Summarise? && e !in s.log {
        assert HoldsRight(s.throttle, s.calls[step.call]);
      }
    }
    forall c | c in s'.calls ensures HoldsRight(s'.throttle, c) {
      if c !in s.calls && c.phase.Summarising? {
        assert step.Lock?;
      }
    }
  }

  /** The presence entries of the log, in every interleaving: in order, they tell the
      channel, nick, type and detail of the events whose calls stored them, each of these
      calls once, and stamped when it did; those calls are the logged ones; and what is
      filtered out is exactly the events of a type that is not configured, when any is. */
  lemma LogTellsEvents(s0: State, steps: seq<Step>)
    requires Initial(s0) && ValidRun(s0, steps)
    ensures
      var s := Run(s0, steps);
      var offers, appends, entries := Offers(steps), Appends(steps), Filter(s.log, IsPresence());
      && |s.calls| == |offers| && |entries| == |appends|
      && (forall k | 0 <= k < |appends| ::
            appends[k].call < |offers| && Tells(entries[k], offers[appends[k].call], appends[k].at))
      && (forall j, k | 0 <= j < k < |appends| :: appends[j].call != appends[k].call)
      && (forall i | 0 <= i < |offers| ::
            s.calls[i].phase.Logged? <==> exists k :: 0 <= k < |appends| && appends[k].call == i)
      && (forall i | 0 <= i < |offers| ::
            s.calls[i].phase.Filtered? <==> FilteredOut(s0.auditTypes, offers[i].msgType))
  {
    RunTells(s0, steps);
    SameTypes(s0, steps);
    hide Run, Tells, FilteredOut;
  }

  lemma {:induction false} SameTypes(s: State, steps: seq<Step>)
    requires ValidRun(s, steps)
    ensures Run(s, steps).auditTypes == s.auditTypes
    decreases |steps|
  {
    if steps != [] {
      SameTypes(Next(s, steps[0]), steps[1..]);
    }
  }

  /** Every other entry is a summary with the configured window. */
  lemma {:induction false} SummariesTellWindow(s: State, steps: seq<Step>)
    requires Inv(s) && SummariesRight(s) && ValidRun(s, steps)
    ensures SummariesRight(Run(s, steps))
    decreases |steps|
  {
    if steps != [] {
      forall t ensures BucketSound(s, t) {
        assert InvFor(s, t);
      }
      StepSummarises(s, steps[0]);
      StepKeepsInv(s, steps[0]);
      hide Next;
      SummariesTellWindow(Next(s, steps[0]), steps[1..]);
    }
  }
}
