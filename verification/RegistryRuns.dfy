/** What every run of the registry keeps: the database mirrors memory, a reload gives
    the agents back, and a handed-out credential works exactly while it should. */
module RegistryRuns {
  import opened Options
  import opened Registry

  function Run(s: State, ops: seq<Op>): State
    decreases |ops|
  {
    if ops == [] then s else Run(Step(s, ops[0]).0, ops[1..])
  }

  function Empty(accounts: map<string, string>): State { State(map[], map[], accounts, [], accounts.Values) }

  // ----- The database mirrors the agents -----

  /** The record's own lists repeat its config's, and it was not seen in the future. */
  predicate Consistent(a: Agent, clock: int) {
    && a.channels == a.config.channels && a.permissions == a.config.permissions
    && (a.lastSeen.Some? ==> a.lastSeen.value <= clock)
  }

  /** Touches come in the order of their times; updates store consistent records. */
  predicate StepClocked(op: Op, clock: int) {
    && (op.Touch? ==> clock <= op.now)
    && (op.Update? ==> Consistent(op.agent, clock))
  }

  function Clock(op: Op, from: int): int { if op.Touch? then op.now else from }

  predicate Clocked(ops: seq<Op>, from: int)
    decreases |ops|
  {
    ops == [] || (StepClocked(ops[0], from) && Clocked(ops[1..], Clock(ops[0], from)))
  }

  function ClockAfter(ops: seq<Op>, from: int): int
    decreases |ops|
  {
    if ops == [] then from else ClockAfter(ops[1..], Clock(ops[0], from))
  }

  predicate Mirrors(a: Agent, r: Row, clock: int) {
    && r.agentType == a.agentType && r.team == a.team && r.revoked == a.revoked
    && r.config == Encode(a.config) && r.createdAt == ToSecond(a.createdAt)
    && a.channels == a.config.channels && a.permissions == a.config.permissions
    && (r.lastSeen.None? <==> a.lastSeen.None?)
    && (a.lastSeen.Some? ==> r.lastSeen.value <= a.lastSeen.value <= clock)
  }

  ghost predicate Mirror(s: State, clock: int) {
    && s.rows.Keys == s.agents.Keys
    && forall n | n in s.agents :: Mirrors(s.agents[n], s.rows[n], clock)
  }

  /** Memory and database are changed together, or neither is. */
  lemma MirrorSame(s: State, s': State, clock: int, later: int)
    requires Mirror(s, clock) && clock <= later && s'.agents == s.agents && s'.rows == s.rows
    ensures Mirror(s', later)
  {
    forall n | n in s.agents ensures Mirrors(s.agents[n], s.rows[n], later) {}
  }

  lemma MirrorSave(s: State, nick: string, a: Agent, clock: int)
    requires Mirror(s, clock) && (a.lastSeen.Some? ==> a.lastSeen.value <= clock)
    requires a.channels == a.config.channels && a.permissions == a.config.permissions
    ensures Mirror(Save(s, nick, a), clock)
  {
  }

  lemma MirrorWithout(s: State, gone: set<string>, clock: int)
    requires Mirror(s, clock)
    ensures Mirror(Without(s, gone), clock)
  {
  }

  /** Only what the database does not hold changes, or the last-seen time moves on. */
  lemma MirrorMemory(s: State, s': State, clock: int)
    requires Mirror(s, clock) && s'.rows == s.rows && s'.agents.Keys == s.agents.Keys
    requires forall n | n in s.agents ::
               && s'.agents[n] == s.agents[n].(online := s'.agents[n].online, lastSeen := s'.agents[n].lastSeen)
               && (s'.agents[n].lastSeen == s.agents[n].lastSeen
                   || (s.agents[n].lastSeen.Some? && s'.agents[n].lastSeen == Some(clock)))
    ensures Mirror(s', clock)
  {
  }

  lemma MirrorMeans(s: State, nick: string, clock: int)
    requires Mirror(s, clock) && nick in s.agents
    ensures Mirrors(s.agents[nick], s.rows[nick], clock)
  {
  }

  lemma RegisterKeepsMirror(s: State, op: Op, clock: int)
    requires Mirror(s, clock) && op.Register?
    ensures Mirror(Step(s, op).0, clock)
  {
    hide Mirror, Save, ValidConfig, Marshals, Provisioned;
    var s' := Step(s, op).0;
    if s' != s {
      var locked := SetPassword(s, op.nick, op.pass);
      var a := NewAgent(op.agentType, op.cfg, op.now);
      MirrorSame(s, locked, clock, clock);
      MirrorSave(locked, op.nick, a, clock);
      MirrorSame(Save(locked, op.nick, a), s', clock, clock);
    }
  }

  lemma TouchKeepsMirror(s: State, nick: string, now: int, clock: int)
    requires Mirror(s, clock) && clock <= now
    ensures Mirror(Step(s, Touch(nick, now)).0, now)
  {
    hide Mirror, Save;
    var s' := Step(s, Touch(nick, now)).0;
    MirrorSame(s, s, clock, now);
    if Active(s, nick) {
      var a := s.agents[nick].(lastSeen := Some(now));
      MirrorMeans(s, nick, clock);
      MirrorSave(s, nick, a, now);
      if s' != Save(s, nick, a) {
        MirrorMemory(s, s', now);
      }
    }
  }

  lemma StepKeepsMirror(s: State, op: Op, clock: int)
    requires Mirror(s, clock)
    requires StepClocked(op, clock)
    ensures Mirror(Step(s, op).0, Clock(op, clock))
  {
    hide Mirror, Save, Without, ValidConfig, Marshals, Provisioned, Gone, Listed;
    var s' := Step(s, op).0;
    match op
    case Register(nick, agentType, cfg, pass, create, change, now) =>
      RegisterKeepsMirror(s, op, clock);
    case Adopt(nick, agentType, cfg, now) =>
      MirrorSave(s, nick, NewAgent(agentType, cfg, now), clock);
    case Rotate(nick, pass, change) =>
      MirrorSame(s, s', clock, clock);
    case Revoke(nick, pass, change) =>
      if Active(s, nick) {
        MirrorMeans(s, nick, clock);
        MirrorSame(s, SetPassword(s, nick, pass), clock, clock);
        MirrorSave(SetPassword(s, nick, pass), nick, s.agents[nick].(revoked := true), clock);
      }
    case Delete(nick, pass, change) =>
      MirrorSame(s, SetPassword(s, nick, pass), clock, clock);
      MirrorWithout(SetPassword(s, nick, pass), {nick}, clock);
      MirrorWithout(s, {nick}, clock);
      WithoutMeans(s, {nick});
      WithoutMeans(SetPassword(s, nick, pass), {nick});
    case UpdateChannels(nick, channels) =>
      if Active(s, nick) {
        var a := s.agents[nick];
        MirrorMeans(s, nick, clock);
        MirrorSave(s, nick, a.(channels := channels, config := a.config.(channels := channels)), clock);
      }
    case Update(nick, agent) =>
      MirrorSave(s, nick, agent, clock);
    case Touch(nick, now) =>
      TouchKeepsMirror(s, nick, now, clock);
    case Reap(maxAge, now) =>
      WithoutMeans(s, Gone(s, now - maxAge));
      MirrorWithout(s, Gone(s, now - maxAge), clock);
    case List(now, timeout) =>
      forall n | n in s.agents
        ensures Listed(s.agents[n], now, timeout) == s.agents[n].(online := Listed(s.agents[n], now, timeout).online)
      {
        ListedMeans(s.agents[n], now, timeout);
      }
      MirrorMemory(s, s', clock);
  }

  lemma WithoutMeans(s: State, gone: set<string>)
    ensures Without(s, gone) == s.(agents := s.agents - gone, rows := s.rows - gone)
  {
  }

  lemma {:induction false} RunKeepsMirror(s: State, ops: seq<Op>, clock: int)
    requires Mirror(s, clock) && Clocked(ops, clock)
    ensures Mirror(Run(s, ops), ClockAfter(ops, clock))
    decreases |ops|
  {
    if ops != [] {
      StepKeepsMirror(s, ops[0], clock);
      RunKeepsMirror(Step(s, ops[0]).0, ops[1..], Clock(ops[0], clock));
    }
  }

  /** The agent a and what a reload made of b: everything but the skills, which are lost,
      the exact times, and who is online. */
  predicate SameAgent(a: Agent, b: Agent) {
    && a.skills == []
    && a.agentType == b.agentType && a.team == b.team && a.revoked == b.revoked && a.config == b.config
    && a.channels == b.channels && a.permissions == b.permissions
    && a.createdAt % 1_000_000_000 == 0 && 0 <= b.createdAt - a.createdAt < 1_000_000_000
    && (a.lastSeen.None? <==> b.lastSeen.None?)
    && (a.lastSeen.Some? ==> a.lastSeen.value <= b.lastSeen.value)
  }

  ghost predicate SameAgents(xs: map<string, Agent>, ys: map<string, Agent>) {
    xs.Keys == ys.Keys && forall n | n in xs :: SameAgent(xs[n], ys[n])
  }

  /** A reload works exactly when every agent's config can be written as JSON, and then
      gives the same agents back: over every run from an empty registry. */
  lemma ReloadRestores(accounts: map<string, string>, ops: seq<Op>, clock: int)
    requires Clocked(ops, clock)
    ensures var s := Run(Empty(accounts), ops);
            && s.rows.Keys == s.agents.Keys
            && (Decodable(s.rows) <==> forall n | n in s.agents :: Marshals(s.agents[n].config))
            && (Decodable(s.rows) ==> SameAgents(Reloaded(s.rows), s.agents))
  {
    assert Mirror(Empty(accounts), clock);
    RunKeepsMirror(Empty(accounts), ops, clock);
    hide Run, SameAgent, FromRow, Marshals, Mirrors;
    var s := Run(Empty(accounts), ops);
    forall n | n in s.agents
      ensures s.rows[n].config.Json? <==> Marshals(s.agents[n].config)
      ensures s.rows[n].config.Json? ==> SameAgent(FromRow(s.rows[n]), s.agents[n])
    {
      MirrorMeans(s, n, ClockAfter(ops, clock));
      RowGivesAgent(s.agents[n], s.rows[n], ClockAfter(ops, clock));
    }
  }

  lemma RowGivesAgent(a: Agent, r: Row, clock: int)
    requires Mirrors(a, r, clock)
    ensures r.config.Json? <==> Marshals(a.config)
    ensures r.config.Json? ==> SameAgent(FromRow(r), a)
  {
    hide Marshals;
  }

  /** Reloading changes nothing further: the reloaded registry is mirrored too. */
  lemma ReloadKeepsMirror(s: State, clock: int)
    requires Mirror(s, clock) && Decodable(s.rows)
    ensures Mirror(s.(agents := Reloaded(s.rows)), clock)
  {
    forall n | n in s.agents ensures ToSecond(s.rows[n].createdAt) == s.rows[n].createdAt {}
  }

  /** The nick an operation is about. */
  function NickOf(op: Op): Option<string> {
    match op
    case Register(nick, _, _, _, _, _, _) => Some(nick)
    case Adopt(nick, _, _, _) => Some(nick)
    case Rotate(nick, _, _) => Some(nick)
    case Revoke(nick, _, _) => Some(nick)
    case Delete(nick, _, _) => Some(nick)
    case UpdateChannels(nick, _) => Some(nick)
    case Update(nick, _) => Some(nick)
    case Touch(nick, _) => Some(nick)
    case _ => None
  }

  /** What is known of a nick anywhere. */
  predicate SameFor(s: State, s': State, nick: string) {
    && (nick in s'.agents <==> nick in s.agents) && (nick in s.agents ==> s'.agents[nick] == s.agents[nick])
    && (nick in s'.rows <==> nick in s.rows) && (nick in s.rows ==> s'.rows[nick] == s.rows[nick])
    && (nick in s'.accounts <==> nick in s.accounts) && (nick in s.accounts ==> s'.accounts[nick] == s.accounts[nick])
  }

  predicate NobodyActs(ops: seq<Op>, nick: string) {
    forall i | 0 <= i < |ops| :: NickOf(ops[i]).Some? && NickOf(ops[i]) != Some(nick)
  }

  /** Operations on other nicks leave a nick's agent, row and account alone. */
  lemma {:induction false} OthersLeaveAlone(s: State, ops: seq<Op>, nick: string)
    requires NobodyActs(ops, nick)
    ensures SameFor(s, Run(s, ops), nick)
    decreases |ops|
  {
    if ops != [] {
      StepLeavesAlone(s, ops[0], nick);
      assert forall i | 0 <= i < |ops| - 1 :: ops[1..][i] == ops[i + 1];
      OthersLeaveAlone(Step(s, ops[0]).0, ops[1..], nick);
    }
  }

  lemma StepLeavesAlone(s: State, op: Op, nick: string)
    requires NickOf(op).Some? && NickOf(op) != Some(nick)
    ensures SameFor(s, Step(s, op).0, nick)
  {
    hide ValidConfig, Marshals, Provisioned;
  }

  /** What was registered is what a reload gives back, whatever happened to others since. */
  lemma RegistrationSurvives(s: State, op: Op, ops: seq<Op>)
    requires op.Register? && Step(s, op).1.Credentials? && NobodyActs(ops, op.nick)
    ensures
      var s' := Run(Step(s, op).0, ops);
      && Step(s, op).1 == Credentials(op.nick, op.pass)
      && op.nick in s'.accounts && s'.accounts[op.nick] == op.pass
      && op.nick in s'.rows && s'.rows[op.nick].config.Json?
      && FromRow(s'.rows[op.nick]) == Agent(op.agentType, "", op.cfg.channels, op.cfg.permissions, op.cfg,
                                            [], ToSecond(op.now), false, None, false)
  {
    hide ValidConfig, Provisioned;
    OthersLeaveAlone(Step(s, op).0, ops, op.nick);
  }

  /** New channels of an active agent are in force in memory and after a reload alike,
      and only its channels change. */
  lemma ChannelsSurvive(s: State, nick: string, channels: seq<string>, ops: seq<Op>)
    requires Active(s, nick) && Marshals(s.agents[nick].config) && NobodyActs(ops, nick)
    ensures
      var s' := Run(Step(s, UpdateChannels(nick, channels)).0, ops);
      var a := s.agents[nick].(channels := channels, config := s.agents[nick].config.(channels := channels));
      && Step(s, UpdateChannels(nick, channels)).1.Done?
      && nick in s'.agents && s'.agents[nick] == a
      && nick in s'.rows && s'.rows[nick].config.Json?
      && FromRow(s'.rows[nick])
         == a.(createdAt := ToSecond(a.createdAt), permissions := a.config.permissions, skills := [], online := false)
  {
    OthersLeaveAlone(Step(s, UpdateChannels(nick, channels)).0, ops, nick);
  }

  /** What the API's handlers change of an agent before they store it again. */
  predicate Amends(a: Agent, b: Agent) {
    b == a.(team := b.team, skills := b.skills,
            config := a.config.(temperature := b.config.temperature, rest := b.config.rest))
  }

  /** Such an amendment is in force at once and stays so, a reload keeps all of it but the
      skills, and nothing else of the agent changes, whatever happens to others since. */
  lemma AmendmentSurvives(s: State, nick: string, b: Agent, clock: int, ops: seq<Op>)
    requires Mirror(s, clock) && nick in s.agents && Amends(s.agents[nick], b) && NobodyActs(ops, nick)
    ensures StepClocked(Update(nick, b), clock)
    ensures
      var s' := Run(Step(s, Update(nick, b)).0, ops);
      && nick in s'.agents && s'.agents[nick] == b
      && (Active(s', nick) <==> Active(s, nick))
      && (nick in s'.accounts <==> nick in s.accounts)
      && (nick in s.accounts ==> s'.accounts[nick] == s.accounts[nick])
      && nick in s'.rows
      && (Marshals(b.config) ==>
            s'.rows[nick].config.Json?
            && FromRow(s'.rows[nick]) == b.(createdAt := ToSecond(b.createdAt), skills := [], online := false))
  {
    MirrorMeans(s, nick, clock);
    OthersLeaveAlone(Step(s, Update(nick, b)).0, ops, nick);
    hide Mirror, Run;
  }

  // ----- Credentials -----

  function PassOf(op: Op): Option<string> {
    match op
    case Register(_, _, _, pass, _, _, _) => Some(pass)
    case Rotate(_, pass, _) => Some(pass)
    case Revoke(_, pass, _) => Some(pass)
    case Delete(_, pass, _) => Some(pass)
    case _ => None
  }

  /** A generated passphrase has never existed before. */
  predicate FreshPass(s: State, op: Op) { PassOf(op).Some? ==> PassOf(op).value !in s.used }

  /** Register or Adopt on a config that passes validation but cannot be signed. */
  predicate SignsTooLate(s: State, op: Op) {
    match op
    case Register(nick, _, cfg, _, create, change, _) =>
      ValidConfig(cfg) && !Active(s, nick) && Provisioned(create, change) && !Marshals(cfg)
    case Adopt(nick, _, cfg, _) => ValidConfig(cfg) && !Active(s, nick) && !Marshals(cfg)
    case _ => false
  }

  /** A failing call leaves memory, the database and the account server as they were,
      unless it failed in the final signing step, when it never does. */
  lemma FailureChangesNothing(s: State, op: Op)
    requires Step(s, op).1.Failed?
    ensures Step(s, op).0 == s <==> !SignsTooLate(s, op)
  {
    if SignsTooLate(s, op) {
      assert Active(Step(s, op).0, op.nick) && !Active(s, op.nick);
    }
  }

  /** The calls of a run that do not fail. */
  function Succeeding(s: State, ops: seq<Op>): seq<Op>
    decreases |ops|
  {
    if ops == [] then []
    else
      var (s', r) := Step(s, ops[0]);
      (if r.Failed? then [] else [ops[0]]) + Succeeding(s', ops[1..])
  }

  ghost predicate SignsInTime(s: State, ops: seq<Op>)
    decreases |ops|
  {
    ops == [] || (!SignsTooLate(s, ops[0]) && SignsInTime(Step(s, ops[0]).0, ops[1..]))
  }

  /** So over whole runs the failing calls might as well not have been made. */
  lemma {:induction false} FailuresDropOut(s: State, ops: seq<Op>)
    requires SignsInTime(s, ops)
    ensures Run(s, Succeeding(s, ops)) == Run(s, ops)
    decreases |ops|
  {
    if ops != [] {
      var (s', r) := Step(s, ops[0]);
      var rest := Succeeding(s', ops[1..]);
      FailuresDropOut(s', ops[1..]);
      if r.Failed? {
        FailureChangesNothing(s, ops[0]);
        assert Succeeding(s, ops) == rest;
      } else {
        assert ([ops[0]] + rest)[1..] == rest;
      }
    }
  }

  /** Such a call: the caller is told it failed, yet the agent is registered, its account
      has a passphrase nobody was given, and no later reload will succeed. */
  lemma FailureCanRegister(s: State, nick: string, pass: string)
    requires nick !in s.agents
    ensures var cfg := EngagementConfig([], [], [], NaN, 0, [], None, "");
            var (s', r) := Step(s, Register(nick, "worker", cfg, pass, Accepted, Accepted, 0));
            && r.Failed? && Active(s', nick) && s'.accounts == s.accounts[nick := pass]
            && s'.returned == s.returned && !Decodable(s'.rows)
  {
    var cfg := EngagementConfig([], [], [], NaN, 0, [], None, "");
    var s' := Step(s, Register(nick, "worker", cfg, pass, Accepted, Accepted, 0)).0;
    assert s'.rows[nick].config.NoJson?;
  }

  /** Which operations leave every credential in its right: an Adopt does so only by
      failing (the passphrase is its caller's own), a Reap when it drops revoked agents
      only (it locks nobody out), an Update when it revokes and reinstates nobody. */
  ghost predicate KeepsCredentials(s: State, op: Op) {
    match op
    case Register(_, _, _, _, _, _, _) => !SignsTooLate(s, op)
    case Adopt(nick, _, cfg, _) => !ValidConfig(cfg) || Active(s, nick)
    case Reap(maxAge, now) => maxAge > 0 ==> forall n | n in Gone(s, now - maxAge) :: s.agents[n].revoked
    case Update(nick, agent) => nick in s.agents ==> agent.revoked == s.agents[nick].revoked
    case _ => true
  }

  ghost predicate CoveredRun(s: State, ops: seq<Op>)
    decreases |ops|
  {
    ops == []
    || (FreshPass(s, ops[0]) && KeepsCredentials(s, ops[0]) && CoveredRun(Step(s, ops[0]).0, ops[1..]))
  }

  /** The i-th credential handed out is the last one for its nick. */
  predicate Latest(s: State, i: nat)
    requires i < |s.returned|
  {
    forall j | i < j < |s.returned| :: s.returned[j].0 != s.returned[i].0
  }

  /** The account server lets the i-th credential in. */
  predicate Works(s: State, i: nat)
    requires i < |s.returned|
  {
    s.returned[i].0 in s.accounts && s.accounts[s.returned[i].0] == s.returned[i].1
  }

  ghost predicate Known(s: State) {
    && (forall n | n in s.accounts :: s.accounts[n] in s.used)
    && (forall i | 0 <= i < |s.returned| :: s.returned[i].1 in s.used)
  }

  ghost predicate Told(s: State, nick: string) {
    exists i: nat | i < |s.returned| :: s.returned[i].0 == nick
  }

  /** A passphrase handed out for one nick opens no other nick's account. */
  ghost predicate OnlyOwn(s: State) {
    forall n, i: nat | n in s.accounts && i < |s.returned| && s.accounts[n] == s.returned[i].1 :: s.returned[i].0 == n
  }

  /** Each credential works exactly when it is the latest of an active agent, and every
      active agent has been given one. */
  ghost predicate CredentialsRight(s: State) {
    && Known(s) && OnlyOwn(s)
    && (forall i: nat | i < |s.returned| :: Works(s, i) <==> Active(s, s.returned[i].0) && Latest(s, i))
    && (forall n | Active(s, n) :: Told(s, n))
  }

  /** A nick's account is given a passphrase never seen before; nothing is handed out. */
  lemma LockOut(s: State, s': State, nick: string, pass: string)
    requires CredentialsRight(s) && pass !in s.used
    requires s'.accounts == s.accounts[nick := pass] && s'.used == s.used + {pass} && s'.returned == s.returned
    requires !Active(s', nick) && forall n | n != nick :: Active(s', n) <==> Active(s, n)
    ensures CredentialsRight(s')
  {
    forall i: nat | i < |s'.returned|
      ensures Works(s', i) <==> Active(s', s'.returned[i].0) && Latest(s', i)
    {
      assert s.returned[i].1 in s.used;
      assert Latest(s', i) <==> Latest(s, i);
      assert Works(s, i) <==> Active(s, s.returned[i].0) && Latest(s, i);
    }
    forall n | Active(s', n) ensures Told(s', n) {
      assert Active(s, n) && Told(s, n);
    }
  }

  /** The same, and the passphrase is handed out. */
  lemma HandOut(s: State, s': State, nick: string, pass: string)
    requires CredentialsRight(s) && pass !in s.used
    requires s'.accounts == s.accounts[nick := pass] && s'.used == s.used + {pass}
    requires s'.returned == s.returned + [(nick, pass)]
    requires Active(s', nick) && forall n | n != nick :: Active(s', n) <==> Active(s, n)
    ensures CredentialsRight(s')
  {
    forall i: nat | i < |s'.returned|
      ensures Works(s', i) <==> Active(s', s'.returned[i].0) && Latest(s', i)
    {
      HandOutEach(s, s', nick, pass, i);
    }
    hide Works, Latest, Told;
    forall n | Active(s', n) ensures Told(s', n) {
      StillTold(s, s', nick, pass, n);
    }
  }

  lemma StillTold(s: State, s': State, nick: string, pass: string, n: string)
    requires s'.returned == s.returned + [(nick, pass)] && (n == nick || Told(s, n))
    ensures Told(s', n)
  {
    if n == nick {
      assert s'.returned[|s.returned|].0 == n;
    } else {
      var i: nat :| i < |s.returned| && s.returned[i].0 == n;
      assert s'.returned[i].0 == n;
    }
  }

  lemma HandOutEach(s: State, s': State, nick: string, pass: string, i: nat)
    requires CredentialsRight(s) && pass !in s.used
    requires s'.accounts == s.accounts[nick := pass] && s'.returned == s.returned + [(nick, pass)]
    requires Active(s', nick) && forall n | n != nick :: Active(s', n) <==> Active(s, n)
    requires i < |s'.returned|
    ensures Works(s', i) <==> Active(s', s'.returned[i].0) && Latest(s', i)
  {
    hide Active;
    var last := |s.returned|;
    assert s'.returned[last] == (nick, pass);
    if i < last {
      assert s'.returned[i] == s.returned[i] && s.returned[i].1 in s.used;
      assert Works(s, i) <==> Active(s, s.returned[i].0) && Latest(s, i);
      if s.returned[i].0 != nick {
        LatestStays(s, s', i);
      }
    }
  }

  lemma LatestStays(s: State, s': State, i: nat)
    requires i < |s.returned| && |s'.returned| == |s.returned| + 1 && s'.returned[..|s.returned|] == s.returned
    requires s'.returned[|s.returned|].0 != s.returned[i].0
    ensures s'.returned[i] == s.returned[i] && (Latest(s', i) <==> Latest(s, i))
  {
    assert forall j | 0 <= j < |s.returned| :: s'.returned[j] == s'.returned[..|s.returned|][j];
  }

  /** Nothing about credentials changes. */
  lemma SameCredentials(s: State, s': State)
    requires CredentialsRight(s)
    requires s'.accounts == s.accounts && s'.used == s.used && s'.returned == s.returned
    requires forall n :: Active(s', n) <==> Active(s, n)
    ensures CredentialsRight(s')
  {
    forall i: nat | i < |s'.returned|
      ensures Works(s', i) <==> Active(s', s'.returned[i].0) && Latest(s', i)
    {
      assert Latest(s', i) <==> Latest(s, i);
      assert Works(s, i) <==> Active(s, s.returned[i].0) && Latest(s, i);
    }
    forall n | Active(s', n) ensures Told(s', n) {
      assert Active(s, n) && Told(s, n);
    }
  }

  /** Somebody becomes active, or stops being so, while the accounts stay as they are. */
  lemma StatusChangeBreaks(s: State, s': State, nick: string)
    requires CredentialsRight(s)
    requires s'.accounts == s.accounts && s'.returned == s.returned
    requires Active(s', nick) != Active(s, nick)
    ensures !CredentialsRight(s')
  {
    if Told(s, nick) {
      var i := LastFor(s, nick, |s.returned|);
      assert Works(s, i) <==> Active(s, nick) && Latest(s, i);
      assert Works(s', i) == Works(s, i) && Latest(s', i);
    } else {
      assert Active(s', nick) && !Told(s', nick);
    }
  }

  /** An active agent whose account has a passphrase nobody was given. */
  lemma UntoldBreaks(s: State, s': State, nick: string, pass: string)
    requires CredentialsRight(s) && pass !in s.used
    requires s'.accounts == s.accounts[nick := pass] && s'.returned == s.returned && Active(s', nick)
    ensures !CredentialsRight(s')
  {
    if Told(s', nick) {
      var i := LastFor(s', nick, |s'.returned|);
      assert s.returned[i].1 in s.used;
      assert !Works(s', i);
    }
  }

  /** Whatever the account server refuses, with fresh passphrases these operations are
      the ones that keep credentials right, and no others do. */
  lemma StepKeepsCredentials(s: State, op: Op)
    requires CredentialsRight(s) && FreshPass(s, op)
    ensures CredentialsRight(Step(s, op).0) <==> KeepsCredentials(s, op)
  {
    hide CredentialsRight, ValidConfig, Marshals, Provisioned;
    var (s', r) := Step(s, op);
    match op
    case Register(nick, agentType, cfg, pass, create, change, now) =>
      if SignsTooLate(s, op) {
        UntoldBreaks(s, s', nick, pass);
      } else if r.Credentials? {
        HandOut(s, s', nick, pass);
      }
    case Adopt(nick, agentType, cfg, now) =>
      if !KeepsCredentials(s, op) { StatusChangeBreaks(s, s', nick); }
    case Rotate(nick, pass, change) =>
      if r.Credentials? { HandOut(s, s', nick, pass); }
    case Revoke(nick, pass, change) =>
      if r.Done? { LockOut(s, s', nick, pass); }
    case Delete(nick, pass, change) =>
      if Active(s, nick) {
        if r.Done? { LockOut(s, s', nick, pass); }
      } else {
        SameCredentials(s, s');
      }
    case UpdateChannels(nick, channels) => SameCredentials(s, s');
    case Update(nick, agent) =>
      if KeepsCredentials(s, op) { SameCredentials(s, s'); } else { StatusChangeBreaks(s, s', nick); }
    case Touch(nick, now) => SameCredentials(s, s');
    case Reap(maxAge, now) => ReapKeepsCredentials(s, maxAge, now);
    case List(now, timeout) => SameCredentials(s, s');
  }

  lemma ReapKeepsCredentials(s: State, maxAge: int, now: int)
    requires CredentialsRight(s)
    ensures CredentialsRight(Step(s, Reap(maxAge, now)).0) <==> KeepsCredentials(s, Reap(maxAge, now))
  {
    hide CredentialsRight, Gone;
    var s' := Step(s, Reap(maxAge, now)).0;
    if KeepsCredentials(s, Reap(maxAge, now)) {
      GoneAreAgents(s, now - maxAge);
      SameCredentials(s, s');
    } else {
      GoneAreAgents(s, now - maxAge);
      var n :| n in Gone(s, now - maxAge) && !s.agents[n].revoked;
      StatusChangeBreaks(s, s', n);
    }
  }

  lemma GoneAreAgents(s: State, cutoff: int)
    ensures Gone(s, cutoff) <= s.agents.Keys
  {
  }

  /** The Update that breaks them, as it can come about: a handler reads the agent's record,
      the agent is revoked (which marks that very record), the nick is registered again,
      and the handler stores the record it read. The nick is then revoked, while its
      account holds a passphrase that was handed out. */
  lemma StaleUpdateRevokes(s: State, nick: string, lock: string, register: Op, amended: Agent)
    requires CredentialsRight(s) && Active(s, nick) && lock !in s.used
    requires register.Register? && register.nick == nick && register.pass !in s.used + {lock}
    requires Amends(s.agents[nick].(revoked := true), amended)
    ensures
      var s1 := Step(s, Revoke(nick, lock, Accepted)).0;
      var (s2, r) := Step(s1, register);
      var s3 := Step(s2, Update(nick, amended)).0;
      r.Credentials? ==>
        && s3.agents[nick].revoked
        && s3.accounts[nick] == register.pass && (nick, register.pass) in s3.returned
        && !CredentialsRight(s3)
  {
    hide Step, CredentialsRight, KeepsCredentials, Active;
    var s1 := Step(s, Revoke(nick, lock, Accepted)).0;
    RevokeMeans(s, nick, lock);
    StepKeepsCredentials(s, Revoke(nick, lock, Accepted));
    var (s2, r) := Step(s1, register);
    if r.Credentials? {
      RegisterMeans(s1, register);
      StepKeepsCredentials(s1, register);
      UpdateMeans(s2, nick, amended);
      StatusChangeBreaks(s2, Step(s2, Update(nick, amended)).0, nick);
    }
  }

  lemma RevokeMeans(s: State, nick: string, lock: string)
    requires Active(s, nick)
    ensures FreshPass(s, Revoke(nick, lock, Accepted)) <==> lock !in s.used
    ensures KeepsCredentials(s, Revoke(nick, lock, Accepted))
    ensures Step(s, Revoke(nick, lock, Accepted)).0.used == s.used + {lock}
  {
  }

  lemma RegisterMeans(s: State, op: Op)
    requires op.Register? && Step(s, op).1.Credentials?
    ensures KeepsCredentials(s, op) && Active(Step(s, op).0, op.nick) && op.nick in Step(s, op).0.agents
    ensures Step(s, op).0.accounts == s.accounts[op.nick := op.pass]
    ensures Step(s, op).0.returned == s.returned + [(op.nick, op.pass)]
  {
    hide ValidConfig, Provisioned;
  }

  lemma UpdateMeans(s: State, nick: string, b: Agent)
    requires nick in s.agents
    ensures var s' := Step(s, Update(nick, b)).0;
            && s'.agents == s.agents[nick := b] && s'.accounts == s.accounts && s'.returned == s.returned
            && (Active(s', nick) <==> !b.revoked)
  {
  }

  lemma {:induction false} RunKeepsCredentials(s: State, ops: seq<Op>)
    requires CredentialsRight(s) && CoveredRun(s, ops)
    ensures CredentialsRight(Run(s, ops))
    decreases |ops|
  {
    if ops != [] {
      StepKeepsCredentials(s, ops[0]);
      RunKeepsCredentials(Step(s, ops[0]).0, ops[1..]);
    }
  }

  /** Over every run of such operations, whatever the account server refuses: an active agent's
      account holds the passphrase last handed out for it, no passphrase handed out for
      one nick opens another's account, and none at all opens the account of a nick that
      is revoked, deleted or never registered. */
  lemma CredentialLifecycle(accounts: map<string, string>, ops: seq<Op>)
    requires CoveredRun(Empty(accounts), ops)
    ensures var s := Run(Empty(accounts), ops);
            && (forall i: nat | i < |s.returned| :: Works(s, i) <==> Active(s, s.returned[i].0) && Latest(s, i))
            && (forall n, i: nat | n in s.accounts && i < |s.returned| && s.accounts[n] == s.returned[i].1 ::
                  s.returned[i].0 == n && Active(s, n))
            && (forall n | Active(s, n) :: exists i: nat | i < |s.returned| ::
                  s.returned[i].0 == n && Latest(s, i) && Works(s, i))
  {
    var s := Run(Empty(accounts), ops);
    RunKeepsCredentials(Empty(accounts), ops);
    forall n, i: nat | n in s.accounts && i < |s.returned| && s.accounts[n] == s.returned[i].1
      ensures s.returned[i].0 == n && Active(s, n)
    {
      assert Works(s, i) <==> Active(s, s.returned[i].0) && Latest(s, i);
    }
    forall n | Active(s, n)
      ensures exists i: nat | i < |s.returned| :: s.returned[i].0 == n && Latest(s, i) && Works(s, i)
    {
      assert Told(s, n);
      var i := LastFor(s, n, |s.returned|);
    }
  }

  lemma {:induction false} LastFor(s: State, nick: string, n: nat) returns (i: nat)
    requires n <= |s.returned|
    requires forall j: nat | n <= j < |s.returned| :: s.returned[j].0 != nick
    requires Told(s, nick)
    ensures i < |s.returned| && s.returned[i].0 == nick && Latest(s, i)
    decreases n
  {
    if n > 0 && s.returned[n - 1].0 != nick {
      i := LastFor(s, nick, n - 1);
    } else {
      i := n - 1;
    }
  }

  /** Reaping an agent leaves its last credential working, unless the agent was revoked. */
  lemma ReapedCredentialStillWorks(s: State, maxAge: int, now: int, i: nat)
    requires CredentialsRight(s) && i < |s.returned| && maxAge > 0
    requires s.returned[i].0 in Gone(s, now - maxAge)
    ensures var s' := Step(s, Reap(maxAge, now)).0;
            && s.returned[i].0 !in s'.agents
            && (Works(s', i) <==> !s.agents[s.returned[i].0].revoked && Latest(s, i))
  {
    assert Works(s, i) <==> Active(s, s.returned[i].0) && Latest(s, i);
  }
}
