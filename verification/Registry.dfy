/** The agent registry: agents in memory, mirrored row by row into a database, and
    their passphrases on an external account server. Every outside answer (the
    server's replies, generated passphrases, the clock) is a parameter. */
module Registry {
  import opened Options

  // ----- Entities -----

  /** A Go float: only finite ones can be written as JSON. */
  datatype Number = Finite(r: real) | NaN | PosInf | NegInf

  /** `rest` stands for the fields nothing here looks at. */
  datatype EngagementConfig = EngagementConfig(
    channels: seq<string>, opsChannels: seq<string>, permissions: seq<string>,
    messagesPerSecond: Number, burst: int, respondToTypes: seq<string>,
    temperature: Option<Number>, rest: string)

  datatype Agent = Agent(
    agentType: string, team: string, channels: seq<string>, permissions: seq<string>,
    config: EngagementConfig, skills: seq<string>, createdAt: int, revoked: bool, lastSeen: Option<int>, online: bool)

  /** A config as stored: json.Marshal's output, or nothing when it failed. */
  datatype Blob = Json(config: EngagementConfig) | NoJson

  /** The agents table has no column for the skills. */
  datatype Row = Row(agentType: string, team: string, config: Blob, createdAt: int, revoked: bool,
                     lastSeen: Option<int>)

  /** The account server's answer to one call. */
  datatype Reply = Accepted | Refused(error: string)

  const SECOND := 1_000_000_000
  const MINUTE := 60 * SECOND

  // ----- Configuration checks -----

  predicate ValidChannel(ch: string) {
    && "#" <= ch && |ch| >= 2
    && forall c | c in ch :: c !in {' ', '\t', '\r', '\n', ','}
  }

  predicate Negative(n: Number) { n.NegInf? || (n.Finite? && n.r < 0.0) }

  predicate ValidConfig(cfg: EngagementConfig) {
    && (forall ch | ch in cfg.channels :: ValidChannel(ch))
    && (forall ch | ch in cfg.opsChannels :: ch in cfg.channels)
    && !Negative(cfg.messagesPerSecond) && cfg.burst >= 0
    && "" !in cfg.respondToTypes
  }

  /** Validation lets NaN and infinity through; json.Marshal does not. */
  predicate Marshals(cfg: EngagementConfig) {
    cfg.messagesPerSecond.Finite? && (cfg.temperature.Some? ==> cfg.temperature.value.Finite?)
  }

  function Encode(cfg: EngagementConfig): Blob { if Marshals(cfg) then Json(cfg) else NoJson }

  predicate Contains(s: string, sub: string) {
    exists i | 0 <= i <= |s| :: sub <= s[i..]
  }

  // ----- The state -----

  /** `returned` lists the credentials handed out, latest last; `used` every
      passphrase that has existed anywhere. Neither is a field of the code. */
  datatype State = State(
    agents: map<string, Agent>,
    rows: map<string, Row>,
    accounts: map<string, string>,
    returned: seq<(string, string)>,
    used: set<string>)

  datatype Op =
    | Register(nick: string, agentType: string, cfg: EngagementConfig,
               pass: string, create: Reply, change: Reply, now: int)
    | Adopt(nick: string, agentType: string, cfg: EngagementConfig, now: int)
    | Rotate(nick: string, pass: string, change: Reply)
    | Revoke(nick: string, pass: string, change: Reply)
    | Delete(nick: string, pass: string, change: Reply)
    | UpdateChannels(nick: string, channels: seq<string>)
    | Update(nick: string, agent: Agent)
    | Touch(nick: string, now: int)
    | Reap(maxAge: int, now: int)
    | List(now: int, timeout: int)

  datatype Result = Done | Credentials(nick: string, pass: string) | Failed

  predicate Active(s: State, nick: string) { nick in s.agents && !s.agents[nick].revoked }

  /** The creation time is stored to the second, the last-seen time in full. */
  function ToSecond(t: int): int { t - t % SECOND }

  function RowOf(a: Agent): Row {
    Row(a.agentType, a.team, Encode(a.config), ToSecond(a.createdAt), a.revoked, a.lastSeen)
  }

  /** saveOne, with the database write succeeding. */
  function Save(s: State, nick: string, a: Agent): State {
    s.(agents := s.agents[nick := a], rows := s.rows[nick := RowOf(a)])
  }

  function NewAgent(agentType: string, cfg: EngagementConfig, now: int): Agent {
    Agent(agentType, "", cfg.channels, cfg.permissions, cfg, [], now, false, None, false)
  }

  /** RegisterAccount, or ChangePassword when the account already exists. */
  predicate Provisioned(create: Reply, change: Reply) {
    create.Accepted? || (Contains(create.error, "ACCOUNT_EXISTS") && change.Accepted?)
  }

  function SetPassword(s: State, nick: string, pass: string): State {
    s.(accounts := s.accounts[nick := pass], used := s.used + {pass})
  }

  function Return(s: State, nick: string, pass: string): (State, Result) {
    (s.(returned := s.returned + [(nick, pass)]), Credentials(nick, pass))
  }

  predicate Expired(a: Agent, cutoff: int) {
    !a.online && (if a.lastSeen.Some? then a.lastSeen.value else a.createdAt) < cutoff
  }

  function Gone(s: State, cutoff: int): set<string> {
    set nick | nick in s.agents && Expired(s.agents[nick], cutoff)
  }

  function Listed(a: Agent, now: int, timeout: int): Agent {
    a.(online := a.lastSeen.Some? && now - a.lastSeen.value < timeout)
  }

  function Step(s: State, op: Op): (State, Result) {
    match op
    case Register(nick, agentType, cfg, pass, create, change, now) =>
      if !ValidConfig(cfg) || Active(s, nick) || !Provisioned(create, change) then (s, Failed)
      else
        var stored := Save(SetPassword(s, nick, pass), nick, NewAgent(agentType, cfg, now));
        if Marshals(cfg) then Return(stored, nick, pass) else (stored, Failed)
    case Adopt(nick, agentType, cfg, now) =>
      if !ValidConfig(cfg) || Active(s, nick) then (s, Failed)
      else (Save(s, nick, NewAgent(agentType, cfg, now)), if Marshals(cfg) then Done else Failed)
    case Rotate(nick, pass, change) =>
      if !Active(s, nick) || change.Refused? then (s, Failed)
      else Return(SetPassword(s, nick, pass), nick, pass)
    case Revoke(nick, pass, change) =>
      if !Active(s, nick) || change.Refused? then (s, Failed)
      else (Save(SetPassword(s, nick, pass), nick, s.agents[nick].(revoked := true)), Done)
    case Delete(nick, pass, change) =>
      if nick !in s.agents then (s, Failed)
      else if Active(s, nick) && change.Refused? then (s, Failed)
      else
        var locked := if Active(s, nick) then SetPassword(s, nick, pass) else s;
        (locked.(agents := locked.agents - {nick}, rows := locked.rows - {nick}), Done)
    case UpdateChannels(nick, channels) =>
      if !Active(s, nick) then (s, Failed)
      else
        var a := s.agents[nick];
        (Save(s, nick, a.(channels := channels, config := a.config.(channels := channels))), Done)
    case Update(nick, agent) =>
      if nick !in s.agents then (s, Failed) else (Save(s, nick, agent), Done)
    case Touch(nick, now) =>
      if !Active(s, nick) then (s, Done)
      else
        var a := s.agents[nick];
        var a' := a.(lastSeen := Some(now));
        if a.lastSeen.None? || now - a.lastSeen.value >= MINUTE then (Save(s, nick, a'), Done)
        else (s.(agents := s.agents[nick := a']), Done)
    case Reap(maxAge, now) =>
      if maxAge <= 0 then (s, Done)
      else
        var gone := Gone(s, now - maxAge);
        (s.(agents := s.agents - gone, rows := s.rows - gone), Done)
    case List(now, timeout) =>
      (s.(agents := map nick | nick in s.agents :: Listed(s.agents[nick], now, timeout)), Done)
  }

  // ----- The code -----

  class Registry {
    var agents: map<string, Agent>
    var rows: map<string, Row>           // the database
    var accounts: map<string, string>    // the account server
    ghost var returned: seq<(string, string)>
    ghost var used: set<string>

    constructor (accounts: map<string, string>)
      ensures Abs() == State(map[], map[], accounts, [], accounts.Values)
    {
      agents, rows, this.accounts := map[], map[], accounts;
      returned, used := [], accounts.Values;
    }

    ghost function Abs(): State
      reads this
    {
      State(agents, rows, accounts, returned, used)
    }

    method SaveOne(nick: string)
      requires nick in agents
      modifies `rows
      ensures rows == old(rows)[nick := RowOf(agents[nick])]
    {
      var a := agents[nick];
      rows := rows[nick := Row(a.agentType, a.team, Encode(a.config), ToSecond(a.createdAt), a.revoked, a.lastSeen)];
    }

    /** One call to the account server that sets a passphrase, if it is accepted. */
    method CallServer(nick: string, pass: string, reply: Reply) returns (ok: bool)
      modifies `accounts, `used
      ensures ok == reply.Accepted?
      ensures accounts == if ok then old(accounts)[nick := pass] else old(accounts)
      ensures used == if ok then old(used) + {pass} else old(used)
    {
      if reply.Refused? {
        return false;
      }
      accounts := accounts[nick := pass];
      used := used + {pass};
      return true;
    }

    /** The active agent of that nick, if there is one. */
    method Find(nick: string) returns (found: bool)
      ensures found == Active(Abs(), nick)
    {
      if nick !in agents {
        return false;
      }
      return !agents[nick].revoked;
    }

    method RegisterAgent(nick: string, agentType: string, cfg: EngagementConfig,
                         pass: string, create: Reply, change: Reply, now: int) returns (r: Result)
      modifies this
      ensures (Abs(), r) == Step(old(Abs()), Register(nick, agentType, cfg, pass, create, change, now))
    {
      if !ValidConfig(cfg) {
        return Failed;
      }
      if nick in agents && !agents[nick].revoked {
        return Failed;
      }
      var ok := CallServer(nick, pass, create);
      if !ok {
        if !Contains(create.error, "ACCOUNT_EXISTS") {
          return Failed;
        }
        ok := CallServer(nick, pass, change);
        if !ok {
          return Failed;
        }
      }
      agents := agents[nick := NewAgent(agentType, cfg, now)];
      SaveOne(nick);
      if !Marshals(cfg) {
        return Failed;
      }
      returned := returned + [(nick, pass)];
      return Credentials(nick, pass);
    }

    method AdoptAgent(nick: string, agentType: string, cfg: EngagementConfig, now: int) returns (r: Result)
      modifies this
      ensures (Abs(), r) == Step(old(Abs()), Adopt(nick, agentType, cfg, now))
    {
      if !ValidConfig(cfg) {
        return Failed;
      }
      if nick in agents && !agents[nick].revoked {
        return Failed;
      }
      agents := agents[nick := NewAgent(agentType, cfg, now)];
      SaveOne(nick);
      return if Marshals(cfg) then Done else Failed;
    }

    method RotatePassphrase(nick: string, pass: string, change: Reply) returns (r: Result)
      modifies this
      ensures (Abs(), r) == Step(old(Abs()), Rotate(nick, pass, change))
    {
      var found := Find(nick);
      if !found {
        return Failed;
      }
      var ok := CallServer(nick, pass, change);
      if !ok {
        return Failed;
      }
      returned := returned + [(nick, pass)];
      return Credentials(nick, pass);
    }

    method RevokeAgent(nick: string, pass: string, change: Reply) returns (r: Result)
      modifies this
      ensures (Abs(), r) == Step(old(Abs()), Revoke(nick, pass, change))
    {
      var found := Find(nick);
      if !found {
        return Failed;
      }
      var ok := CallServer(nick, pass, change);
      if !ok {
        return Failed;
      }
      agents := agents[nick := agents[nick].(revoked := true)];
      SaveOne(nick);
      return Done;
    }

    /** A revoked agent is already locked out, so only an active one is locked first. */
    method DeleteAgent(nick: string, pass: string, change: Reply) returns (r: Result)
      modifies this
      ensures (Abs(), r) == Step(old(Abs()), Delete(nick, pass, change))
    {
      if nick !in agents {
        return Failed;
      }
      if !agents[nick].revoked {
        var ok := CallServer(nick, pass, change);
        if !ok {
          return Failed;
        }
      }
      agents := agents - {nick};
      rows := rows - {nick};
      return Done;
    }

    method ReplaceChannels(nick: string, channels: seq<string>) returns (r: Result)
      modifies this
      ensures (Abs(), r) == Step(old(Abs()), UpdateChannels(nick, channels))
    {
      var found := Find(nick);
      if !found {
        return Failed;
      }
      var a := agents[nick];
      agents := agents[nick := a.(channels := channels, config := a.config.(channels := channels))];
      SaveOne(nick);
      return Done;
    }

    /** Stores a record its caller has amended. */
    method UpdateAgent(nick: string, agent: Agent) returns (r: Result)
      modifies this
      ensures (Abs(), r) == Step(old(Abs()), Update(nick, agent))
    {
      if nick !in agents {
        return Failed;
      }
      agents := agents[nick := agent];
      SaveOne(nick);
      return Done;
    }

    /** Records the time in memory always, in the database at most once a minute. */
    method TouchAgent(nick: string, now: int)
      modifies this
      ensures Abs() == Step(old(Abs()), Touch(nick, now)).0
    {
      if nick !in agents || agents[nick].revoked {
        return;
      }
      var a := agents[nick];
      var shouldPersist := a.lastSeen.None? || now - a.lastSeen.value >= MINUTE;
      agents := agents[nick := a.(lastSeen := Some(now))];
      if shouldPersist {
        SaveOne(nick);
      }
    }

    /** Drops every offline agent not seen since the cutoff, in the map's own order. */
    method ReapAgents(maxAge: int, now: int) returns (reaped: nat)
      modifies this
      ensures Abs() == Step(old(Abs()), Reap(maxAge, now)).0
      ensures reaped == |old(agents)| - |agents|
    {
      hide Step, Expired, Reaping, Without, Gone;
      ReapStep(Abs(), maxAge, now);
      if maxAge <= 0 {
        return 0;
      }
      var cutoff := now - maxAge;
      ghost var s := Abs();
      ghost var gone: set<string> := {};
      reaped := 0;
      var todo := agents.Keys;
      DropNone(s);
      while todo != {}
        invariant Reaping(s, Abs(), todo, gone, cutoff)
        invariant reaped == |s.agents| - |agents|
      {
        var nick :| nick in todo;
        ReapingOn(s, Abs(), todo, gone, cutoff, nick);
        todo := todo - {nick};
        var a := agents[nick];
        ExpiredMeans(a, cutoff);
        if !a.online {
          var ref := if a.lastSeen.Some? then a.lastSeen.value else a.createdAt;
          if ref < cutoff {
            agents := agents - {nick};
            rows := rows - {nick};
            gone := gone + {nick};
            reaped := reaped + 1;
          }
        }
      }
      ReapingDone(s, Abs(), gone, cutoff);
    }

    /** Computes who is online, in memory only. */
    method ListAgents(now: int, timeout: int) returns (listed: set<string>)
      modifies this
      ensures Abs() == Step(old(Abs()), List(now, timeout)).0
      ensures listed == old(agents).Keys
    {
      hide Step, Listed;
      ghost var was := agents;
      listed := {};
      var todo := agents.Keys;
      while todo != {}
        invariant todo <= was.Keys == agents.Keys && listed == was.Keys - todo
        invariant forall n | n in todo :: agents[n] == was[n]
        invariant forall n | n in listed :: agents[n] == Listed(was[n], now, timeout)
        invariant rows == old(rows) && accounts == old(accounts) && returned == old(returned) && used == old(used)
      {
        var nick :| nick in todo;
        todo := todo - {nick};
        var a := agents[nick];
        ListedMeans(a, now, timeout);
        agents := agents[nick := a.(online := a.lastSeen.Some? && now - a.lastSeen.value < timeout)];
        listed := listed + {nick};
      }
      ListStep(old(Abs()), now, timeout);
      assert agents == map n | n in was :: Listed(was[n], now, timeout);
    }

    /** SetStore: the agents become what the rows say, unless some row's config does not
        decode; then only some of those that do are there, whichever came first. */
    method Reload() returns (ok: bool)
      modifies `agents
      ensures ok == Decodable(rows)
      ensures ok ==> agents == Reloaded(rows)
      ensures !ok ==> agents.Keys < rows.Keys
                      && forall n | n in agents :: rows[n].config.Json? && agents[n] == FromRow(rows[n])
    {
      agents := map[];
      var todo := rows.Keys;
      while todo != {}
        invariant todo <= rows.Keys
        invariant forall n | n in rows && n !in todo :: rows[n].config.Json?
        invariant agents == map n | n in rows && n !in todo && rows[n].config.Json? :: FromRow(rows[n])
      {
        var nick :| nick in todo;
        todo := todo - {nick};
        if rows[nick].config.NoJson? {
          return false;
        }
        agents := agents[nick := FromRow(rows[nick])];
      }
      return true;
    }
  }

  lemma DropOne<K, V>(m: map<K, V>, k: K)
    requires k in m
    ensures |m - {k}| == |m| - 1
  {
    assert (m - {k}).Keys == m.Keys - {k};
  }

  function Without(s: State, gone: set<string>): State {
    s.(agents := s.agents - gone, rows := s.rows - gone)
  }

  /** Part of the way through a reap of `s`: `todo` not looked at yet, `gone` dropped. */
  ghost predicate Reaping(s: State, s': State, todo: set<string>, gone: set<string>, cutoff: int) {
    && todo <= s.agents.Keys
    && gone == Gone(s, cutoff) - todo
    && s' == Without(s, gone)
  }

  lemma DropNone(s: State)
    ensures forall cutoff :: Reaping(s, s, s.agents.Keys, {}, cutoff)
  {
    assert Without(s, {}) == s;
  }

  lemma ReapingOn(s: State, s': State, todo: set<string>, gone: set<string>, cutoff: int, nick: string)
    requires Reaping(s, s', todo, gone, cutoff) && nick in todo
    ensures nick in s'.agents
    ensures |s'.agents - {nick}| == |s'.agents| - 1
    ensures if Expired(s'.agents[nick], cutoff)
            then Reaping(s, Without(s', {nick}), todo - {nick}, gone + {nick}, cutoff)
            else Reaping(s, s', todo - {nick}, gone, cutoff)
    ensures Without(s', {nick}) == s'.(agents := s'.agents - {nick}, rows := s'.rows - {nick})
  {
    hide Expired;
    assert nick !in gone && nick in s'.agents && s'.agents[nick] == s.agents[nick];
    DropOne(s'.agents, nick);
    assert Without(Without(s, gone), {nick}) == Without(s, gone + {nick});
  }

  lemma ReapingDone(s: State, s': State, gone: set<string>, cutoff: int)
    requires Reaping(s, s', {}, gone, cutoff)
    ensures s' == Without(s, Gone(s, cutoff))
  {
  }

  lemma ExpiredMeans(a: Agent, cutoff: int)
    ensures Expired(a, cutoff) <==> !a.online && (if a.lastSeen.Some? then a.lastSeen.value else a.createdAt) < cutoff
  {
  }

  lemma ReapStep(s: State, maxAge: int, now: int)
    ensures Step(s, Reap(maxAge, now)).0 == if maxAge <= 0 then s else Without(s, Gone(s, now - maxAge))
  {
  }

  lemma ListedMeans(a: Agent, now: int, timeout: int)
    ensures Listed(a, now, timeout) == a.(online := a.lastSeen.Some? && now - a.lastSeen.value < timeout)
  {
  }

  lemma ListStep(s: State, now: int, timeout: int)
    ensures Step(s, List(now, timeout)).0
            == s.(agents := map nick | nick in s.agents :: Listed(s.agents[nick], now, timeout))
  {
  }

  function FromRow(r: Row): Agent
    requires r.config.Json?
  {
    Agent(r.agentType, r.team, r.config.config.channels, r.config.config.permissions, r.config.config, [],
          r.createdAt, r.revoked, r.lastSeen, false)
  }

  predicate Decodable(rows: map<string, Row>) { forall n | n in rows :: rows[n].config.Json? }

  function Reloaded(rows: map<string, Row>): map<string, Agent> {
    map n | n in rows && rows[n].config.Json? :: FromRow(rows[n])
  }
}
