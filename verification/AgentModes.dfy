/** Reconciling ChanServ's AMODE entries with the registered agents: the commands the
    API server sends, and the table they leave whatever order the agents come in. */
module AgentModes {
  import opened Seqs
  import opened Options

  const OPERATOR := "operator"
  const ORCHESTRATOR := "orchestrator"
  const WORKER := "worker"

  /** The prefixes the code checks, and those its comments name. */
  const PREFIXES: seq<string> := ["claude-", "codex-", "gemini-"]
  const DOCUMENTED: seq<string> := PREFIXES + ["openclaw-"]

  datatype Mode = Op | Voice

  datatype Command = Command(channel: string, on: bool, mode: Mode, nick: string)

  /** A live `MODE channel -o nick`. */
  datatype Deop = Deop(channel: string, nick: string)

  datatype Agent = Agent(nick: string, agentType: string, channels: seq<string>, opsChannels: seq<string>,
                         revoked: bool)

  // ----- The declared policy -----

  predicate HasPrefix(nick: string, prefixes: seq<string>) { exists p | p in prefixes :: p <= nick }

  predicate Prefixed(nick: string) { HasPrefix(nick, PREFIXES) }

  predicate ModeBearing(a: Agent) { a.agentType in {OPERATOR, ORCHESTRATOR, WORKER} }

  /** The mode an agent is meant to have on one of its channels. */
  function Declared(a: Agent, channel: string): Mode {
    if Prefixed(a.nick) then Voice
    else if a.agentType == OPERATOR then Op
    else if a.agentType == ORCHESTRATOR && channel in a.opsChannels then Op
    else Voice
  }

  /** The agents whose entry for this channel and nick is to be written. */
  predicate Covers(a: Agent, channel: string, nick: string) {
    a.nick == nick && !a.revoked && ModeBearing(a) && channel in a.channels
  }

  /** An orchestrator on its allowlist path, which sends no live commands. */
  predicate UsesAllowlist(a: Agent) {
    a.agentType == ORCHESTRATOR && a.opsChannels != [] && !Prefixed(a.nick)
  }

  // ----- The commands of one pass -----

  function ChannelCommands(a: Agent, channel: string): seq<Command> {
    [Command(channel, false, Op, a.nick), Command(channel, false, Voice, a.nick),
     Command(channel, true, Declared(a, channel), a.nick)]
  }

  function CommandsOn(a: Agent, channels: seq<string>): seq<Command> {
    if channels == [] then []
    else CommandsOn(a, channels[..|channels| - 1]) + ChannelCommands(a, channels[|channels| - 1])
  }

  function AgentCommands(a: Agent): seq<Command> {
    if ModeBearing(a) then CommandsOn(a, a.channels) else []
  }

  function ReconcileCommands(listing: seq<Agent>): seq<Command> {
    if listing == [] then []
    else
      var a := listing[|listing| - 1];
      ReconcileCommands(listing[..|listing| - 1]) + if a.revoked then [] else AgentCommands(a)
  }

  function Deops(nick: string, channels: seq<string>): seq<Deop> {
    seq(|channels|, i requires 0 <= i < |channels| => Deop(channels[i], nick))
  }

  predicate DeopsLive(a: Agent) {
    ModeBearing(a) && !UsesAllowlist(a) && (a.agentType != OPERATOR || Prefixed(a.nick))
  }

  function AgentDeops(a: Agent): seq<Deop> { if DeopsLive(a) then Deops(a.nick, a.channels) else [] }

  function ReconcileDeops(listing: seq<Agent>): seq<Deop> {
    if listing == [] then []
    else
      var a := listing[|listing| - 1];
      ReconcileDeops(listing[..|listing| - 1]) + if a.revoked then [] else AgentDeops(a)
  }

  // ----- The code -----

  /** The topology manager: an IRC client, when connected, and what was sent through it. */
  class Topology {
    var client: bool
    var sent: seq<Command>
    var deops: seq<Deop>

    constructor (client: bool)
      ensures this.client == client && sent == [] && deops == []
    {
      this.client, sent, deops := client, [], [];
    }

    method RevokeAccess(nick: string, channel: string)
      modifies `sent
      ensures sent == old(sent) + if client
                      then [Command(channel, false, Op, nick), Command(channel, false, Voice, nick)] else []
    {
      if !client {
        return;
      }
      sent := sent + [Command(channel, false, Op, nick)];
      sent := sent + [Command(channel, false, Voice, nick)];
    }

    method GrantAccess(nick: string, channel: string, level: string)
      modifies `sent
      ensures sent == old(sent) + (if !client then []
                                   else if level == "OP" then [Command(channel, true, Op, nick)]
                                   else if level == "VOICE" then [Command(channel, true, Voice, nick)] else [])
    {
      if !client || level == "" {
        return;
      }
      if level == "OP" {
        sent := sent + [Command(channel, true, Op, nick)];
      } else if level == "VOICE" {
        sent := sent + [Command(channel, true, Voice, nick)];
      }
    }

    method SetChannelMode(channel: string, nick: string)
      modifies `deops
      ensures deops == old(deops) + if client then [Deop(channel, nick)] else []
    {
      if client {
        deops := deops + [Deop(channel, nick)];
      }
    }
  }

  method HasAnyPrefix(s: string, prefixes: seq<string>) returns (found: bool)
    ensures found == HasPrefix(s, prefixes)
  {
    for i := 0 to |prefixes|
      invariant !HasPrefix(s, prefixes[..i])
    {
      if prefixes[i] <= s {
        assert prefixes[i] in prefixes;
        return true;
      }
      assert prefixes[..i + 1] == prefixes[..i] + [prefixes[i]];
    }
    assert prefixes[..|prefixes|] == prefixes;
    return false;
  }

  method AgentModeLevel(agentType: string) returns (level: string)
    ensures level == if agentType == OPERATOR then "OP" else if agentType in {ORCHESTRATOR, WORKER} then "VOICE" else ""
  {
    if agentType == OPERATOR {
      return "OP";
    } else if agentType == ORCHESTRATOR || agentType == WORKER {
      return "VOICE";
    }
    return "";
  }

  class Server {
    const topo: Topology?

    constructor (topo: Topology?)
      ensures this.topo == topo
    {
      this.topo := topo;
    }

    method SetLevel(a: Agent, ch: string, level: string)
      requires topo != null
      requires level == LevelName(Declared(a, ch))
      modifies topo`sent
      ensures topo.sent == old(topo.sent) + Via(topo.client, ChannelCommands(a, ch))
    {
      topo.RevokeAccess(a.nick, ch);
      topo.GrantAccess(a.nick, ch, level);
    }

    /** Revokes, then grants the agent's level, on each of its channels; then takes a stale
        +o away from the live session, except on the allowlist path. */
    method SetAgentModes(a: Agent)
      modifies if topo == null then {} else {topo}
      ensures topo != null ==>
                && topo.client == old(topo.client)
                && topo.sent == old(topo.sent) + Via(topo.client, AgentCommands(a))
                && topo.deops == old(topo.deops) + Via(topo.client, AgentDeops(a))
    {
      hide Via, ChannelCommands, CommandsOn, Prefixed, Declared, HasPrefix;
      if topo == null {
        return;
      }
      var client := topo.client;
      NothingVia<Command>(client);
      NothingVia<Deop>(client);
      var level := AgentModeLevel(a.agentType);
      if level == "" {
        return;
      }
      var prefixed := HasAnyPrefix(a.nick, PREFIXES);
      DeclaredMeans(a);
      if prefixed && level == "OP" {
        level := "VOICE";
      }
      if a.agentType == ORCHESTRATOR && |a.opsChannels| > 0 && !prefixed {
        ApplyAllowlist(a);
        return;
      }
      ApplyLevel(a, level);
      if level != "OP" {
        DropLiveOps(a.nick, a.channels);
      }
    }

    /** Every channel at the allowlist's choice of level. */
    method ApplyAllowlist(a: Agent)
      requires topo != null && UsesAllowlist(a)
      modifies topo`sent
      ensures topo.sent == old(topo.sent) + Via(topo.client, CommandsOn(a, a.channels))
    {
      hide Via, ChannelCommands, CommandsOn, Prefixed, Declared, HasPrefix;
      var opsSet := set ch | ch in a.opsChannels;
      NoCommands(a);
      NothingVia<Command>(topo.client);
      DeclaredMeans(a);
      for i := 0 to |a.channels|
        invariant topo.sent == old(topo.sent) + Via(topo.client, CommandsOn(a, a.channels[..i]))
      {
        var ch := a.channels[i];
        CommandsOnStep(a, a.channels, i);
        ViaConcat(topo.client, CommandsOn(a, a.channels[..i]), ChannelCommands(a, ch));
        SetLevel(a, ch, if ch in opsSet then "OP" else "VOICE");
      }
      assert a.channels[..|a.channels|] == a.channels;
    }

    /** Every channel at the same level. */
    method ApplyLevel(a: Agent, level: string)
      requires topo != null
      requires forall ch | ch in a.channels :: level == LevelName(Declared(a, ch))
      modifies topo`sent
      ensures topo.sent == old(topo.sent) + Via(topo.client, CommandsOn(a, a.channels))
    {
      hide Via, ChannelCommands, CommandsOn, Declared;
      NoCommands(a);
      NothingVia<Command>(topo.client);
      for i := 0 to |a.channels|
        invariant topo.sent == old(topo.sent) + Via(topo.client, CommandsOn(a, a.channels[..i]))
      {
        var ch := a.channels[i];
        CommandsOnStep(a, a.channels, i);
        ViaConcat(topo.client, CommandsOn(a, a.channels[..i]), ChannelCommands(a, ch));
        SetLevel(a, ch, level);
      }
      assert a.channels[..|a.channels|] == a.channels;
    }

    method DropLiveOps(nick: string, channels: seq<string>)
      requires topo != null
      modifies topo`deops
      ensures topo.deops == old(topo.deops) + Via(topo.client, Deops(nick, channels))
    {
      for i := 0 to |channels|
        invariant topo.deops == old(topo.deops) + Via(topo.client, Deops(nick, channels[..i]))
      {
        topo.SetChannelMode(channels[i], nick);
        assert Deops(nick, channels[..i + 1]) == Deops(nick, channels[..i]) + [Deop(channels[i], nick)];
      }
      assert channels[..|channels|] == channels;
    }

    /** `listing` is the registry's List, in whatever order it came. */
    method ReconcileAgentModes(listing: seq<Agent>)
      modifies if topo == null then {} else {topo}
      ensures topo != null ==>
                && topo.client == old(topo.client)
                && topo.sent == old(topo.sent) + Via(topo.client, ReconcileCommands(listing))
                && topo.deops == old(topo.deops) + Via(topo.client, ReconcileDeops(listing))
    {
      hide AgentCommands, AgentDeops, Via, ReconcileCommands, ReconcileDeops;
      if topo == null {
        return;
      }
      var client := topo.client;
      NothingVia<Command>(client);
      NothingVia<Deop>(client);
      ReconcileNone();
      for i := 0 to |listing|
        invariant topo.client == client
        invariant topo.sent == old(topo.sent) + Via(client, ReconcileCommands(listing[..i]))
        invariant topo.deops == old(topo.deops) + Via(client, ReconcileDeops(listing[..i]))
      {
        var a := listing[i];
        ReconcileStep(client, listing, i);
        if !a.revoked {
          SetAgentModes(a);
        }
      }
      assert listing[..|listing|] == listing;
    }
  }

  function LevelName(m: Mode): string { if m == Op then "OP" else "VOICE" }

  /** Without a connected client nothing is sent. */
  function Via<T>(client: bool, msgs: seq<T>): seq<T> { if client then msgs else [] }

  lemma NothingVia<T>(client: bool)
    ensures Via<T>(client, []) == []
  {
  }

  lemma ViaConcat<T>(client: bool, a: seq<T>, b: seq<T>)
    ensures Via(client, a + b) == Via(client, a) + Via(client, b)
  {
  }

  lemma NoCommands(a: Agent)
    ensures CommandsOn(a, []) == []
  {
  }

  lemma ReconcileNone()
    ensures ReconcileCommands([]) == [] && ReconcileDeops([]) == []
  {
  }

  lemma ReconcileStep(client: bool, listing: seq<Agent>, i: nat)
    requires i < |listing|
    ensures var a := listing[i];
            && Via(client, ReconcileCommands(listing[..i + 1]))
               == Via(client, ReconcileCommands(listing[..i]))
                 + (if a.revoked then [] else Via(client, AgentCommands(a)))
            && Via(client, ReconcileDeops(listing[..i + 1]))
               == Via(client, ReconcileDeops(listing[..i])) + if a.revoked then [] else Via(client, AgentDeops(a))
  {
    assert listing[..i + 1][..i] == listing[..i];
  }

  lemma DeclaredMeans(a: Agent)
    ensures Prefixed(a.nick) <==> HasPrefix(a.nick, PREFIXES)
    ensures forall ch :: Declared(a, ch) ==
                         if Prefixed(a.nick) then Voice
                         else if a.agentType == OPERATOR then Op
                         else if a.agentType == ORCHESTRATOR && ch in a.opsChannels then Op
                         else Voice
  {
  }

  lemma CommandsOnStep(a: Agent, channels: seq<string>, i: nat)
    requires i < |channels|
    ensures CommandsOn(a, channels[..i + 1]) == CommandsOn(a, channels[..i]) + ChannelCommands(a, channels[i])
  {
    assert channels[..i + 1][..i] == channels[..i];
  }

  // ----- ChanServ's table -----

  /** The modes ChanServ gives each nick on joining each channel. */
  type Table = map<(string, string), set<Mode>>

  function Lookup(t: Table, channel: string, nick: string): Option<set<Mode>> {
    if (channel, nick) in t then Some(t[(channel, nick)]) else None
  }

  function Obey(t: Table, c: Command): Table {
    var was := if (c.channel, c.nick) in t then t[(c.channel, c.nick)] else {};
    t[(c.channel, c.nick) := if c.on then was + {c.mode} else was - {c.mode}]
  }

  function Replay(t: Table, cmds: seq<Command>): Table {
    if cmds == [] then t else Obey(Replay(t, cmds[..|cmds| - 1]), cmds[|cmds| - 1])
  }

  lemma {:induction false} ReplayConcat(t: Table, a: seq<Command>, b: seq<Command>)
    ensures Replay(t, a + b) == Replay(Replay(t, a), b)
  {
    if b == [] {
      assert a + b == a;
    } else {
      assert (a + b)[..|a + b| - 1] == a + b[..|b| - 1];
      ReplayConcat(t, a, b[..|b| - 1]);
    }
  }

  lemma ChannelReplay(t: Table, a: Agent, channel: string, ch: string, nick: string)
    ensures Lookup(Replay(t, ChannelCommands(a, channel)), ch, nick)
            == if ch == channel && nick == a.nick then Some({Declared(a, channel)}) else Lookup(t, ch, nick)
  {
    hide Declared;
    var cmds := ChannelCommands(a, channel);
    assert cmds[..2][..1] == cmds[..1] && cmds[..1][..0] == [];
    assert Replay(t, cmds[..1]) == Obey(t, cmds[0]);
    assert Replay(t, cmds[..2]) == Obey(Obey(t, cmds[0]), cmds[1]);
    assert Replay(t, cmds) == Obey(Obey(Obey(t, cmds[0]), cmds[1]), cmds[2]);
    if ch == channel && nick == a.nick {
      forall m: Mode ensures m in Replay(t, cmds)[(ch, nick)] <==> m == Declared(a, channel) {}
      assert Replay(t, cmds)[(ch, nick)] == {Declared(a, channel)};
    }
  }

  lemma {:induction false} ChannelsReplay(t: Table, a: Agent, channels: seq<string>, ch: string, nick: string)
    ensures Lookup(Replay(t, CommandsOn(a, channels)), ch, nick)
            == if nick == a.nick && ch in channels then Some({Declared(a, ch)}) else Lookup(t, ch, nick)
  {
    hide Declared, Lookup, ChannelCommands;
    if channels != [] {
      var n := |channels| - 1;
      var before := CommandsOn(a, channels[..n]);
      ChannelsReplay(t, a, channels[..n], ch, nick);
      ReplayConcat(t, before, ChannelCommands(a, channels[n]));
      ChannelReplay(Replay(t, before), a, channels[n], ch, nick);
    }
  }

  predicate Distinct(listing: seq<Agent>) {
    forall i, j | 0 <= i < j < |listing| :: listing[i].nick != listing[j].nick
  }

  lemma OnlyOne(listing: seq<Agent>, a: Agent, b: Agent)
    requires Distinct(listing) && a in listing && b in listing && a.nick == b.nick
    ensures a == b
  {
    var i :| 0 <= i < |listing| && listing[i] == a;
    var j :| 0 <= j < |listing| && listing[j] == b;
    assert i == j;
  }

  predicate Covered(listing: seq<Agent>, ch: string, nick: string) {
    exists a | a in listing :: Covers(a, ch, nick)
  }

  /** The whole table after a pass, entry by entry: a covered entry is the covering
      agent's declared level, whatever it was; any other entry is what it was. */
  lemma {:induction false} ReconcileMeans(t: Table, listing: seq<Agent>, ch: string, nick: string)
    requires Distinct(listing)
    ensures forall a | a in listing && Covers(a, ch, nick) ::
              Lookup(Replay(t, ReconcileCommands(listing)), ch, nick) == Some({Declared(a, ch)})
    ensures !Covered(listing, ch, nick) ==>
              Lookup(Replay(t, ReconcileCommands(listing)), ch, nick) == Lookup(t, ch, nick)
  {
    hide Declared, Lookup, Prefixed;
    if listing != [] {
      var n := |listing| - 1;
      var init, b := listing[..n], listing[n];
      var before := ReconcileCommands(init);
      ReconcileMeans(t, init, ch, nick);
      ReplayConcat(t, before, if b.revoked then [] else AgentCommands(b));
      ChannelsReplay(Replay(t, before), b, b.channels, ch, nick);
      assert forall a | a in listing :: a in init || a == b;
      if Covers(b, ch, nick) {
        forall a | a in listing && Covers(a, ch, nick) ensures a == b {
          OnlyOne(listing, a, b);
        }
      }
    }
  }

  lemma SameLookups(t: Table, u: Table)
    requires forall ch, nick :: Lookup(t, ch, nick) == Lookup(u, ch, nick)
    ensures t == u
  {
    forall k: (string, string) ensures (k in t <==> k in u) && (k in t ==> t[k] == u[k]) {
      assert k == (k.0, k.1) && Lookup(t, k.0, k.1) == Lookup(u, k.0, k.1);
    }
  }

  /** The registry's map may be listed in any order: the table comes out the same. */
  lemma AnyOrderSameTable(t: Table, listing: seq<Agent>, listing': seq<Agent>)
    requires Distinct(listing) && Distinct(listing')
    requires forall a :: a in listing <==> a in listing'
    ensures Replay(t, ReconcileCommands(listing)) == Replay(t, ReconcileCommands(listing'))
  {
    hide Lookup, Declared, Covers;
    var u, u' := Replay(t, ReconcileCommands(listing)), Replay(t, ReconcileCommands(listing'));
    forall ch, nick ensures Lookup(u, ch, nick) == Lookup(u', ch, nick) {
      ReconcileMeans(t, listing, ch, nick);
      ReconcileMeans(t, listing', ch, nick);
      if Covered(listing, ch, nick) {
        var a :| a in listing && Covers(a, ch, nick);
      }
    }
    SameLookups(u, u');
  }

  /** A second pass changes nothing. */
  lemma ReconcileIdempotent(t: Table, listing: seq<Agent>)
    requires Distinct(listing)
    ensures var once := Replay(t, ReconcileCommands(listing));
            Replay(once, ReconcileCommands(listing)) == once
  {
    hide Lookup, Declared, Covers;
    var once := Replay(t, ReconcileCommands(listing));
    var twice := Replay(once, ReconcileCommands(listing));
    forall ch, nick ensures Lookup(once, ch, nick) == Lookup(twice, ch, nick) {
      ReconcileMeans(t, listing, ch, nick);
      ReconcileMeans(once, listing, ch, nick);
      if Covered(listing, ch, nick) {
        var a :| a in listing && Covers(a, ch, nick);
      }
    }
    SameLookups(once, twice);
  }

  /** After a pass, which listed agents hold +o on their channels: humans who are
      operators, and orchestrators on the channels they asked for. So never a nick with
      one of the prefixes the code checks. */
  lemma WhoHoldsOp(t: Table, listing: seq<Agent>, a: Agent, ch: string)
    requires Distinct(listing) && a in listing && Covers(a, ch, a.nick)
    ensures var u := Replay(t, ReconcileCommands(listing));
            && (ch, a.nick) in u
            && (Op in u[(ch, a.nick)] <==>
                  && !Prefixed(a.nick)
                  && (a.agentType == OPERATOR || (a.agentType == ORCHESTRATOR && ch in a.opsChannels)))
            && (Voice in u[(ch, a.nick)] <==> Op !in u[(ch, a.nick)])
  {
    ReconcileMeans(t, listing, ch, a.nick);
    var u := Replay(t, ReconcileCommands(listing));
    assert Lookup(u, ch, a.nick) == Some({Declared(a, ch)});
  }

  /** The comments promise the rule for four prefixes; the code checks three. For a nick
      with a documented prefix, no registration can ever give +o exactly when that prefix
      is not openclaw-. */
  lemma DocumentedPrefixesNeverOp(nick: string)
    requires HasPrefix(nick, DOCUMENTED)
    ensures (forall a: Agent, ch | a.nick == nick :: Declared(a, ch) == Voice) <==> !("openclaw-" <= nick)
  {
    if "openclaw-" <= nick {
      assert nick[0] == 'o';
      assert !Prefixed(nick);
      assert Declared(Agent(nick, OPERATOR, [], [], false), "") == Op;
    } else {
      var p :| p in DOCUMENTED && p <= nick;
      assert p in PREFIXES;
    }
  }

  /** A pass takes a stale +o away from the sessions already in a channel exactly for the
      entries it sets to +v, except those of an orchestrator with an allowlist. */
  lemma {:induction false} LiveDeops(listing: seq<Agent>, ch: string, nick: string)
    ensures Deop(ch, nick) in ReconcileDeops(listing) <==>
            exists a | a in listing :: Covers(a, ch, nick) && Declared(a, ch) == Voice && !UsesAllowlist(a)
  {
    if listing != [] {
      var n := |listing| - 1;
      LiveDeops(listing[..n], ch, nick);
      LiveDeopsOf(listing[n], ch, nick);
      assert forall a :: a in listing <==> a in listing[..n] || a == listing[n];
    }
  }

  lemma LiveDeopsOf(a: Agent, ch: string, nick: string)
    ensures Deop(ch, nick) in AgentDeops(a) <==>
            a.nick == nick && ModeBearing(a) && ch in a.channels && Declared(a, ch) == Voice && !UsesAllowlist(a)
  {
    if DeopsLive(a) {
      assert forall i | 0 <= i < |a.channels| :: Deops(a.nick, a.channels)[i] == Deop(a.channels[i], a.nick);
      if Deop(ch, nick) in Deops(a.nick, a.channels) {
        var i :| 0 <= i < |a.channels| && Deops(a.nick, a.channels)[i] == Deop(ch, nick);
      }
      if ch in a.channels && nick == a.nick {
        var i :| 0 <= i < |a.channels| && a.channels[i] == ch;
        assert Deops(a.nick, a.channels)[i] == Deop(ch, nick);
      }
    }
  }

  // ----- Concurrent calls -----

  predicate About(c: Command, nick: string) { c.nick == nick }

  function ForNick(nick: string): Command -> bool { (c: Command) => About(c, nick) }

  /** A nick's entries depend only on the commands that name it. */
  lemma {:induction false} OwnCommandsDecide(t: Table, cmds: seq<Command>, ch: string, nick: string)
    ensures Lookup(Replay(t, cmds), ch, nick) == Lookup(Replay(t, Filter(cmds, ForNick(nick))), ch, nick)
  {
    if cmds != [] {
      var n := |cmds| - 1;
      OwnCommandsDecide(t, cmds[..n], ch, nick);
      if cmds[n].nick == nick {
        var own := Filter(cmds[..n], ForNick(nick));
        assert (own + [cmds[n]])[..|own|] == own;
      }
    }
  }

  /** The server sets modes from several goroutines at once: however their commands are
      merged, the table is the same as long as each nick's own commands stay in order. */
  lemma AnyMergeSameTable(t: Table, cmds: seq<Command>, merged: seq<Command>)
    requires forall nick :: Filter(merged, ForNick(nick)) == Filter(cmds, ForNick(nick))
    ensures Replay(t, merged) == Replay(t, cmds)
  {
    hide Lookup, ForNick;
    forall ch, nick ensures Lookup(Replay(t, merged), ch, nick) == Lookup(Replay(t, cmds), ch, nick) {
      OwnCommandsDecide(t, merged, ch, nick);
      OwnCommandsDecide(t, cmds, ch, nick);
      assert Filter(merged, ForNick(nick)) == Filter(cmds, ForNick(nick));
    }
    SameLookups(Replay(t, merged), Replay(t, cmds));
  }
}
