/** When the stored last-seen time of an agent is the one in memory, over any run. */
module RegistrySaves {
  import opened Options
  import opened Registry
  import opened RegistryRuns

  predicate MinutePassed(seen: Option<int>, now: int) { seen.None? || now - seen.value >= MINUTE }

  /** The operation writes the nick's row. */
  predicate Saves(s: State, op: Op, nick: string) {
    match op
    case Register(n, _, cfg, _, create, change, _) =>
      n == nick && ValidConfig(cfg) && !Active(s, nick) && Provisioned(create, change)
    case Adopt(n, _, cfg, _) => n == nick && ValidConfig(cfg) && !Active(s, nick)
    case Revoke(n, _, change) => n == nick && Active(s, nick) && change.Accepted?
    case UpdateChannels(n, _) => n == nick && Active(s, nick)
    case Update(n, _) => n == nick && nick in s.agents
    case Touch(n, now) => n == nick && Active(s, nick) && MinutePassed(s.agents[nick].lastSeen, now)
    case _ => false
  }

  /** A touch that reaches memory only. */
  predicate TouchesMemory(s: State, op: Op, nick: string) {
    op.Touch? && op.nick == nick && Active(s, nick) && !Saves(s, op, nick)
  }

  /** Since the row was last written there was a touch that reached memory only. */
  predicate Behind(s: State, ops: seq<Op>, nick: string, behind: bool)
    decreases |ops|
  {
    if ops == [] then behind
    else
      var now := if Saves(s, ops[0], nick) then false else behind || TouchesMemory(s, ops[0], nick);
      Behind(Step(s, ops[0]).0, ops[1..], nick, now)
  }

  predicate ClockAdvances(ops: seq<Op>, clock: int)
    decreases |ops|
  {
    ops == []
    || (StepClocked(ops[0], clock) && (ops[0].Touch? ==> clock < ops[0].now)
        && ClockAdvances(ops[1..], Clock(ops[0], clock)))
  }

  ghost predicate Current(s: State, nick: string) {
    nick in s.agents ==> nick in s.rows && s.rows[nick].lastSeen == s.agents[nick].lastSeen
  }

  lemma SaveIsCurrent(s: State, op: Op, nick: string)
    requires Saves(s, op, nick)
    ensures Current(Step(s, op).0, nick)
  {
    hide ValidConfig, Marshals, Provisioned;
  }

  lemma TouchFallsBehind(s: State, op: Op, nick: string, clock: int)
    requires Mirror(s, clock) && TouchesMemory(s, op, nick) && clock < op.now
    ensures nick in Step(s, op).0.agents && !Current(Step(s, op).0, nick)
  {
    MirrorMeans(s, nick, clock);
    hide Mirror;
  }

  lemma OtherwiseSame(s: State, op: Op, nick: string, clock: int)
    requires Mirror(s, clock) && !Saves(s, op, nick) && !TouchesMemory(s, op, nick)
    ensures nick in Step(s, op).0.agents ==> nick in s.agents && (Current(Step(s, op).0, nick) <==> Current(s, nick))
  {
    if NickOf(op).None? {
      ReapOrListSame(s, op, nick);
    } else if NickOf(op) == Some(nick) {
      OwnSame(s, op, nick);
    } else {
      StepLeavesAlone(s, op, nick);
    }
    hide Step, Saves, TouchesMemory, Mirror;
  }

  lemma ReapOrListSame(s: State, op: Op, nick: string)
    requires NickOf(op).None?
    ensures nick in Step(s, op).0.agents ==> nick in s.agents && (Current(Step(s, op).0, nick) <==> Current(s, nick))
  {
    hide Expired;
  }

  lemma OwnSame(s: State, op: Op, nick: string)
    requires NickOf(op) == Some(nick) && !Saves(s, op, nick) && !TouchesMemory(s, op, nick)
    ensures var s' := Step(s, op).0;
            nick in s'.agents ==> s'.agents == s.agents && s'.rows == s.rows
  {
    hide ValidConfig, Marshals, Provisioned;
  }

  /** Over any run the stored last-seen time is up to date if and only if no touch that
      reached memory only has come since the row was last written, by whatever operation. */
  lemma {:induction false} StoredTimeCurrentInRuns(s: State, ops: seq<Op>, nick: string, clock: int, behind: bool)
    requires Mirror(s, clock) && ClockAdvances(ops, clock)
    requires nick in s.agents ==> (Current(s, nick) <==> !behind)
    ensures nick in Run(s, ops).agents ==> (Current(Run(s, ops), nick) <==> !Behind(s, ops, nick, behind))
    decreases |ops|
  {
    if ops != [] {
      hide Saves, TouchesMemory, Current, Mirror, Step;
      var op := ops[0];
      StepKeepsMirror(s, op, clock);
      if Saves(s, op, nick) {
        SaveIsCurrent(s, op, nick);
        StoredTimeCurrentInRuns(Step(s, op).0, ops[1..], nick, Clock(op, clock), false);
      } else if TouchesMemory(s, op, nick) {
        TouchIsTouch(s, op, nick);
        TouchFallsBehind(s, op, nick, clock);
        StoredTimeCurrentInRuns(Step(s, op).0, ops[1..], nick, Clock(op, clock), true);
      } else {
        OtherwiseSame(s, op, nick, clock);
        StoredTimeCurrentInRuns(Step(s, op).0, ops[1..], nick, Clock(op, clock), behind);
      }
    }
  }

  lemma TouchIsTouch(s: State, op: Op, nick: string)
    requires TouchesMemory(s, op, nick)
    ensures op.Touch?
  {
  }
}
