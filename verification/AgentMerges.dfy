/** Two passes over one nick at once: what their merged commands can leave. */
module AgentMerges {
  import opened Seqs
  import opened AgentModes
  import opened AgentWords

  // ----- The last word -----

  /** After any commands an entry holds a mode if and only if the last of them that names
      it is a grant, or none does and it held it before. */
  lemma {:induction false} LastWordDecides(t: Table, cmds: seq<Command>, ch: string, nick: string, m: Mode)
    ensures Holds(Replay(t, cmds), ch, nick, m) <==> LastWordGrants(cmds, ch, nick, m, Holds(t, ch, nick, m))
  {
    if cmds != [] {
      LastWordDecides(t, cmds[..|cmds| - 1], ch, nick, m);
    }
  }

  // ----- Two passes -----

  /** Two passes for one nick at once, for records that may declare different levels (the
      agent was registered again while an earlier pass was still running), leave on each
      channel both assign one of the two levels or both, and nothing else; and exactly
      the second one's if and only if the levels are the same or the last command
      about the first one's is a revocation. */
  lemma MergedPasses(t: Table, a: Agent, b: Agent, merged: seq<Command>, ch: string)
    requires Merge(AgentCommands(a), AgentCommands(b), merged)
    requires a.nick == b.nick && ModeBearing(a) && ModeBearing(b) && ch in a.channels && ch in b.channels
    ensures
      var u := Replay(t, merged);
      var first, second := Declared(a, ch), Declared(b, ch);
      && (ch, a.nick) in u
      && u[(ch, a.nick)] != {} && u[(ch, a.nick)] <= {first, second}
      && (u[(ch, a.nick)] == {second} <==> first == second || !LastWordGrants(merged, ch, a.nick, first, false))
  {
    var entry := ForEntry(ch, a.nick);
    var xs, ys, zs := Filter(AgentCommands(a), entry), Filter(AgentCommands(b), entry), Filter(merged, entry);
    var first, second := Declared(a, ch), Declared(b, ch);
    PassSays(a, a.channels, ch);
    PassSays(b, b.channels, ch);
    MergeFilters(AgentCommands(a), AgentCommands(b), merged, entry);
    FilterMembers(AgentCommands(a), entry);
    FilterMembers(AgentCommands(b), entry);
    MergedLeaves(t, xs, ys, merged, ch, a.nick, first, second);
    hide *;
  }

  lemma MergedLeaves(t: Table, xs: seq<Command>, ys: seq<Command>, merged: seq<Command>, ch: string, nick: string,
                     first: Mode, second: Mode)
    requires Merge(xs, ys, Filter(merged, ForEntry(ch, nick))) && Says(xs, first) && Says(ys, second)
    requires forall c | c in xs || c in ys :: OnEntry(c, ch, nick)
    ensures
      var u := Replay(t, merged);
      && (ch, nick) in u
      && u[(ch, nick)] != {} && u[(ch, nick)] <= {first, second}
      && (u[(ch, nick)] == {second} <==> first == second || !LastWordGrants(merged, ch, nick, first, false))
  {
    var zs := Filter(merged, ForEntry(ch, nick));
    var before := (m: Mode) => Holds(t, ch, nick, m);
    MergedEntry(xs, ys, zs, ch, nick, first, second, before);
    forall m: Mode
      ensures Holds(Replay(t, merged), ch, nick, m) <==> LastWordGrants(zs, ch, nick, m, before(m))
    {
      LastWordDecides(t, merged, ch, nick, m);
      LastWordFiltered(merged, ch, nick, m, before(m));
    }
    MergeMembers(xs, ys, zs);
    Forgotten(zs, ch, nick, first, before(first), false);
    LastWordFiltered(merged, ch, nick, first, false);
    hide Merge, Says, LastWordGrants, Filter, Replay;
    var u := Replay(t, merged);
    forall m | (ch, nick) in u && m in u[(ch, nick)] ensures m == first || m == second {
      assert Holds(u, ch, nick, m);
    }
  }

  // ----- Both levels -----

  /** Any two such passes have a merge that leaves both levels. */
  lemma BothLevelsCanStay(t: Table, a: Agent, b: Agent, ch: string) returns (merged: seq<Command>)
    requires a.nick == b.nick && ModeBearing(a) && ModeBearing(b) && ch in a.channels && ch in b.channels
    ensures Merge(AgentCommands(a), AgentCommands(b), merged)
    ensures
      var u := Replay(t, merged);
      (ch, a.nick) in u && u[(ch, a.nick)] == {Declared(a, ch), Declared(b, ch)}
  {
    var x1, x2 := LastGrant(a, a.channels, ch);
    var y1, y2 := LastGrant(b, b.channels, ch);
    var x, y := GrantOf(a, ch), GrantOf(b, ch);
    merged := x1 + y1 + ([x] + [y]) + (x2 + y2);
    var nick := a.nick;
    assert Merge(AgentCommands(a), AgentCommands(b), merged) by {
      hide Merge, CommandsOn;
      InTurn(x1, y1);
      InTurn([x], [y]);
      InTurn(x2, y2);
      MergeConcat(x1, y1, x1 + y1, [x], [y], [x] + [y]);
      MergeConcat(x1 + [x], y1 + [y], x1 + y1 + ([x] + [y]), x2, y2, x2 + y2);
    }
    MergedPasses(t, a, b, merged, ch);
    hide Merge, CommandsOn, AgentCommands, Declared, Replay, LastWordGrants, ModeBearing;
    assert merged == x1 + y1 + [x] + [y] + (x2 + y2);
    forall m | m == x.mode || m == y.mode ensures Holds(Replay(t, merged), ch, nick, m) {
      var held := Holds(t, ch, nick, m);
      TwoGrants(x1 + y1, x, y, ch, nick, m, held);
      OthersSkipped(x1 + y1 + [x] + [y], x2 + y2, ch, nick, m, held);
      LastWordDecides(t, merged, ch, nick, m);
    }
    assert Holds(Replay(t, merged), ch, nick, x.mode) && Holds(Replay(t, merged), ch, nick, y.mode);
  }
}
