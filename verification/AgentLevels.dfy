/** What a pass leaves an agent with on a channel, told from the agent's own fields. */
module AgentLevels {
  import opened Options
  import opened AgentModes

  predicate NeverOp(nick: string) { "claude-" <= nick || "codex-" <= nick || "gemini-" <= nick }

  predicate InPolicy(a: Agent, ch: string) {
    && !a.revoked && ch in a.channels
    && (a.agentType == "operator" || a.agentType == "orchestrator" || a.agentType == "worker")
  }

  lemma PrefixedMeans(nick: string)
    ensures Prefixed(nick) <==> NeverOp(nick)
  {
    assert PREFIXES[0] == "claude-" && PREFIXES[1] == "codex-" && PREFIXES[2] == "gemini-";
    if NeverOp(nick) {
      var p := if "claude-" <= nick then PREFIXES[0] else if "codex-" <= nick then PREFIXES[1] else PREFIXES[2];
      assert p in PREFIXES && p <= nick;
    }
  }

  lemma CoversMeans(a: Agent, ch: string)
    ensures Covers(a, ch, a.nick) <==> InPolicy(a, ch)
  {
  }

  /** After a pass, an operator, orchestrator or worker that is not revoked has on each of
      its channels exactly one mode: +o if it is an operator, or an orchestrator that listed
      the channel, and its nick has none of the three prefixes; +v otherwise. The entries of
      any other listed agent, and those on other channels, are as they were. */
  lemma LevelExactly(t: Table, listing: seq<Agent>, a: Agent, ch: string)
    requires Distinct(listing) && a in listing
    ensures
      var u := Replay(t, ReconcileCommands(listing));
      if InPolicy(a, ch) then
        && (ch, a.nick) in u
        && u[(ch, a.nick)] ==
           if !NeverOp(a.nick)
              && (a.agentType == "operator" || (a.agentType == "orchestrator" && ch in a.opsChannels))
           then {Op} else {Voice}
      else Lookup(u, ch, a.nick) == Lookup(t, ch, a.nick)
  {
    ReconcileMeans(t, listing, ch, a.nick);
    CoversMeans(a, ch);
    PrefixedMeans(a.nick);
    DeclaredMeans(a);
    hide Covers, InPolicy, Replay, ReconcileCommands, Prefixed, NeverOp, Declared;
    forall b | b in listing ensures Covers(b, ch, a.nick) ==> Covers(a, ch, a.nick) {
      if Covers(b, ch, a.nick) {
        CoveredBySelf(listing, a, b, ch);
      }
    }
    if Covers(a, ch, a.nick) {
      assert Lookup(Replay(t, ReconcileCommands(listing)), ch, a.nick) == Some({Declared(a, ch)});
    }
  }

  lemma CoveredBySelf(listing: seq<Agent>, a: Agent, b: Agent, ch: string)
    requires Distinct(listing) && a in listing && b in listing && Covers(b, ch, a.nick)
    ensures a == b
  {
    OnlyOne(listing, a, b);
  }

  /** A live -o goes out for it on the channel exactly when it is left with +v there, unless
      it is an orchestrator without such a prefix that listed some channel. */
  lemma LiveDeopExactly(listing: seq<Agent>, a: Agent, ch: string)
    requires Distinct(listing) && a in listing
    ensures Deop(ch, a.nick) in ReconcileDeops(listing) <==>
            && InPolicy(a, ch)
            && (NeverOp(a.nick) || a.agentType == "worker" || (a.agentType == "orchestrator" && a.opsChannels == []))
  {
    LiveDeops(listing, ch, a.nick);
    CoversMeans(a, ch);
    PrefixedMeans(a.nick);
    DeclaredMeans(a);
    forall b | b in listing && Covers(b, ch, a.nick) ensures a == b {
      CoveredBySelf(listing, a, b, ch);
    }
    hide Covers, Prefixed, NeverOp, Declared, ReconcileDeops;
  }
}
