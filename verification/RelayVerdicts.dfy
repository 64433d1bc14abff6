/** What the relay does with a message, told from the message's own fields. */
module RelayVerdicts {
  import opened Seqs
  import opened RelayFilter

  /** Our own post or a service bot's. */
  predicate Skipped(s: Session, m: Message) { m.service || m.nick == s.nick }

  function NotSkipped(s: Session): Message -> bool { (m: Message) => !Skipped(s, m) }

  // ----- Skipped messages -----

  lemma SkippedHandled(s: Session, budgets: Budgets, m: Message)
    requires Skipped(s, m)
    ensures Handle(s, budgets, m) == (budgets, Ignored)
  {
  }

  lemma OneHandled(s: Session, since: int, budgets: Budgets, ordered: seq<Message>, m: Message)
    ensures
      var before, after := HandleAll(s, since, budgets, ordered), HandleAll(s, since, budgets, ordered + [m]);
      var (budgets', verdict) := Handle(s, before.budgets, m);
      && after.budgets == (if m.at != 0 && m.at > since then budgets' else before.budgets)
      && Accepted(after.processed)
         == Accepted(before.processed) + if m.at != 0 && m.at > since && verdict.Passed? then [m] else []
  {
    assert (ordered + [m])[..|ordered|] == ordered;
    var before := HandleAll(s, since, budgets, ordered);
    AcceptedAppend(before.processed, Processed(m, Handle(s, before.budgets, m).1));
  }

  /** What we or service bots posted might as well not be listed: leaving it out changes
      neither what a poll accepts nor the budgets it leaves, whatever they were before. */
  lemma {:induction false} SkippedChangeNothing(s: Session, since: int, budgets: Budgets, ordered: seq<Message>)
    ensures
      var all := HandleAll(s, since, budgets, ordered);
      var rest := HandleAll(s, since, budgets, Filter(ordered, NotSkipped(s)));
      Accepted(rest.processed) == Accepted(all.processed) && rest.budgets == all.budgets
  {
    if ordered != [] {
      var init, m := ordered[..|ordered| - 1], ordered[|ordered| - 1];
      SkippedChangeNothing(s, since, budgets, init);
      assert ordered == init + [m];
      OneHandled(s, since, budgets, init, m);
      FilterAppend(init, m, NotSkipped(s));
      if Skipped(s, m) {
        SkippedHandled(s, HandleAll(s, since, budgets, init).budgets, m);
      } else {
        OneHandled(s, since, budgets, Filter(init, NotSkipped(s)), m);
      }
      hide HandleAll, Handle, Accepted, Filter, Skipped;
    }
  }

  // ----- Verdicts over whole runs -----

  /** Agents' messages accepted on the channel since the last post there by anybody who is
      no agent, no service bot and not us. */
  function HopsTaken(s: Session, history: seq<Processed>, channel: string): nat {
    if history == [] then 0
    else
      var p := history[|history| - 1];
      var before := HopsTaken(s, history[..|history| - 1], channel);
      if p.msg.channel != channel then before
      else if !p.msg.activity then (if p.msg.service || p.msg.nick == s.nick then before else 0)
      else if p.verdict.Passed? then before + 1 else before
  }

  lemma {:induction false} HopsTakenAreHops(s: Session, history: seq<Processed>, channel: string)
    requires VerdictsRight(s, history)
    ensures HopsTaken(s, history, channel) == HopsSinceOperator(s, history, channel)
  {
    if history != [] {
      var n := |history| - 1;
      RightPrefix(s, history, n);
      HopsTakenAreHops(s, history[..n], channel);
      assert VerdictRight(s, history, n);
      hide VerdictsRight;
    }
  }

  lemma RightPrefix(s: Session, history: seq<Processed>, n: nat)
    requires VerdictsRight(s, history) && n <= |history|
    ensures VerdictsRight(s, history[..n])
  {
    forall k | 0 <= k < n ensures VerdictRight(s, history[..n], k) {
      assert VerdictRight(s, history, k);
      assert history[..n][..k] == history[..k];
    }
  }

  /** Over any run, a processed message passes if and only if it is neither ours nor a
      service bot's, and: an agent's mentions our nick, with a hop left on its channel if it
      names one; anybody else's mentions our nick or one of our groups. */
  lemma PassesExactly(s: Session, since: int, polls: seq<seq<Message>>, k: nat)
    requires k < |Concat(Run(s, since, polls).1)|
    ensures
      var history := Concat(Run(s, since, polls).1);
      var m := history[k].msg;
      history[k].verdict.Passed? <==>
      && !m.service && m.nick != s.nick
      && if m.activity
         then m.mention && (m.channel == "" || HopsTaken(s, history[..k], m.channel) < s.grant)
         else m.mention || m.groupMention
  {
    var history := Concat(Run(s, since, polls).1);
    VerdictsFollowHistory(s, since, polls);
    assert VerdictRight(s, history, k);
    RightPrefix(s, history, k);
    HopsTakenAreHops(s, history[..k], history[k].msg.channel);
    hide Run, Concat, VerdictsRight;
  }

  /** Everything listed that is newer than the cursor and has a time is processed, in the
      order of the list, and nothing else is. */
  lemma {:induction false} ProcessedExactly(s: Session, since: int, budgets: Budgets, ordered: seq<Message>)
    ensures
      var processed := HandleAll(s, since, budgets, ordered).processed;
      var newer := Filter(ordered, NewerThan(since));
      |processed| == |newer| && forall k | 0 <= k < |newer| :: processed[k].msg == newer[k]
  {
    if ordered != [] {
      ProcessedExactly(s, since, budgets, ordered[..|ordered| - 1]);
      hide Handle;
    }
  }

  function NewerThan(since: int): Message -> bool { (m: Message) => m.at != 0 && m.at > since }
}
