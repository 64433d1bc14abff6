/** What commands say about one ChanServ entry.

    An entry holds what the last word about each mode left there. What follows says what
    the last word is, what a pass over an agent has to say about an entry, and what
    remains of it when the commands of another pass come in between. */
module AgentWords {
  import opened Seqs
  import opened AgentModes

  predicate OnEntry(c: Command, ch: string, nick: string) { c.channel == ch && c.nick == nick }

  function ForEntry(ch: string, nick: string): Command -> bool { (c: Command) => OnEntry(c, ch, nick) }

  // ----- The last word -----

  /** The last command on the entry that names the mode, if there is one, is a grant. */
  predicate LastWordGrants(cmds: seq<Command>, ch: string, nick: string, m: Mode, before: bool) {
    if cmds == [] then before
    else
      var c := cmds[|cmds| - 1];
      if OnEntry(c, ch, nick) && c.mode == m then c.on
      else LastWordGrants(cmds[..|cmds| - 1], ch, nick, m, before)
  }

  predicate Holds(t: Table, ch: string, nick: string, m: Mode) { (ch, nick) in t && m in t[(ch, nick)] }

  // ----- One pass -----

  /** What a pass that covers the entry says about it: both modes revoked, then the
      declared one granted, and nothing else granted. */
  predicate Says(cmds: seq<Command>, level: Mode) {
    && cmds != [] && cmds[|cmds| - 1].on && cmds[|cmds| - 1].mode == level
    && (exists c | c in cmds :: !c.on && c.mode == Op) && (exists c | c in cmds :: !c.on && c.mode == Voice)
    && forall c | c in cmds && c.on :: c.mode == level
  }

  lemma ChannelSays(a: Agent, channel: string)
    ensures Says(ChannelCommands(a, channel), Declared(a, channel))
    ensures forall c | c in ChannelCommands(a, channel) :: OnEntry(c, channel, a.nick)
  {
    hide Declared;
    var cmds := ChannelCommands(a, channel);
    assert cmds[0] in cmds && cmds[1] in cmds;
  }

  lemma SaysMore(before: seq<Command>, cmds: seq<Command>, level: Mode)
    requires Says(cmds, level) && (before == [] || Says(before, level))
    ensures Says(before + cmds, level)
  {
    var all := before + cmds;
    assert all[|all| - 1] == cmds[|cmds| - 1];
    assert forall c :: c in all <==> c in before || c in cmds;
  }

  lemma {:induction false} PassSays(a: Agent, channels: seq<string>, ch: string)
    ensures
      var own := Filter(CommandsOn(a, channels), ForEntry(ch, a.nick));
      if ch in channels then Says(own, Declared(a, ch)) else own == []
  {
    if channels != [] {
      var n := |channels| - 1;
      var init, last := channels[..n], channels[n];
      var cmds := ChannelCommands(a, last);
      PassSays(a, init, ch);
      FilterConcat(CommandsOn(a, init), cmds, ForEntry(ch, a.nick));
      ChannelSays(a, last);
      assert channels == init + [last];
      var before := Filter(CommandsOn(a, init), ForEntry(ch, a.nick));
      if last == ch {
        FilterAll(cmds, ForEntry(ch, a.nick));
        SaysMore(before, cmds, Declared(a, ch));
      } else {
        FilterNone(cmds, ForEntry(ch, a.nick));
        assert before + [] == before;
      }
      hide Says, ChannelCommands, Declared;
    }
  }

  // ----- Two passes -----

  /** Some command on the entry names the mode, so what was there before is forgotten. */
  lemma {:induction false} Forgotten(cmds: seq<Command>, ch: string, nick: string, m: Mode, b: bool, b': bool)
    requires exists c | c in cmds :: OnEntry(c, ch, nick) && c.mode == m
    ensures LastWordGrants(cmds, ch, nick, m, b) == LastWordGrants(cmds, ch, nick, m, b')
  {
    var n := |cmds| - 1;
    if !(OnEntry(cmds[n], ch, nick) && cmds[n].mode == m) {
      assert cmds == cmds[..n] + [cmds[n]];
      Forgotten(cmds[..n], ch, nick, m, b, b');
    }
  }

  lemma {:induction false} NeverGranted(cmds: seq<Command>, ch: string, nick: string, m: Mode)
    requires forall c | c in cmds && OnEntry(c, ch, nick) && c.on :: c.mode != m
    ensures !LastWordGrants(cmds, ch, nick, m, false)
  {
    if cmds != [] {
      NeverGranted(cmds[..|cmds| - 1], ch, nick, m);
    }
  }

  /** The entry alone decides: commands on other entries change no last word. */
  lemma {:induction false} LastWordFiltered(cmds: seq<Command>, ch: string, nick: string, m: Mode, b: bool)
    ensures LastWordGrants(Filter(cmds, ForEntry(ch, nick)), ch, nick, m, b) == LastWordGrants(cmds, ch, nick, m, b)
  {
    if cmds != [] {
      var n := |cmds| - 1;
      var own := Filter(cmds[..n], ForEntry(ch, nick));
      LastWordFiltered(cmds[..n], ch, nick, m, b);
      assert (own + [cmds[n]])[..|own|] == own;
    }
  }

  /** What the merged commands of two passes on one entry leave there. */
  lemma MergedEntry(xs: seq<Command>, ys: seq<Command>, zs: seq<Command>, ch: string, nick: string, first: Mode,
                    second: Mode,
                    before: Mode -> bool)
    requires Merge(xs, ys, zs) && Says(xs, first) && Says(ys, second)
    requires forall c | c in xs || c in ys :: OnEntry(c, ch, nick)
    ensures
      && (LastWordGrants(zs, ch, nick, first, before(first)) || LastWordGrants(zs, ch, nick, second, before(second)))
      && (forall m: Mode | LastWordGrants(zs, ch, nick, m, before(m)) :: m == first || m == second)
  {
    MergeMembers(xs, ys, zs);
    var z := zs[|zs| - 1];
    assert z == xs[|xs| - 1] || z == ys[|ys| - 1];
    assert LastWordGrants(zs, ch, nick, z.mode, before(z.mode));
    forall m: Mode | m != first && m != second ensures !LastWordGrants(zs, ch, nick, m, before(m)) {
      Forgotten(zs, ch, nick, m, before(m), false);
      NeverGranted(zs, ch, nick, m);
    }
  }

  // ----- Both levels -----

  function GrantOf(a: Agent, ch: string): Command { Command(ch, true, Declared(a, ch), a.nick) }

  /** The last a pass says about an entry is its grant. */
  lemma {:induction false} LastGrant(a: Agent, channels: seq<string>, ch: string)
    returns (before: seq<Command>, after: seq<Command>)
    requires ch in channels
    ensures CommandsOn(a, channels) == before + [GrantOf(a, ch)] + after
    ensures forall c | c in after :: !OnEntry(c, ch, a.nick)
  {
    hide Declared;
    var init, last := channels[..|channels| - 1], channels[|channels| - 1];
    if last == ch {
      var cmds := ChannelCommands(a, ch);
      before, after := CommandsOn(a, init) + cmds[..2], [];
      assert cmds == cmds[..2] + [GrantOf(a, ch)];
    } else {
      var rest;
      before, rest := LastGrant(a, init, ch);
      after := rest + ChannelCommands(a, last);
    }
  }

  lemma {:induction false} OthersSkipped(cmds: seq<Command>, more: seq<Command>, ch: string, nick: string, m: Mode,
                                         held: bool)
    requires forall c | c in more :: !OnEntry(c, ch, nick)
    ensures LastWordGrants(cmds + more, ch, nick, m, held) == LastWordGrants(cmds, ch, nick, m, held)
  {
    if more == [] {
      assert cmds + more == cmds;
    } else {
      var all := cmds + more;
      assert all[..|all| - 1] == cmds + more[..|more| - 1] && all[|all| - 1] in more;
      OthersSkipped(cmds, more[..|more| - 1], ch, nick, m, held);
    }
  }

  lemma TwoGrants(cmds: seq<Command>, x: Command, y: Command, ch: string, nick: string, m: Mode, held: bool)
    requires OnEntry(x, ch, nick) && OnEntry(y, ch, nick) && x.on && y.on && (x.mode == m || y.mode == m)
    ensures LastWordGrants(cmds + [x] + [y], ch, nick, m, held)
  {
    var first := cmds + [x];
    assert (first + [y])[..|first|] == first && first[..|cmds|] == cmds;
    assert x.mode == m ==> LastWordGrants(first, ch, nick, m, held);
  }
}
