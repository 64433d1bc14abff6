/** Every operator post can grant twice. */
module RelayWorstCase {
  import opened Seqs
  import opened RelayFilter
  import opened RelayBudget
  import opened RelayRounds

  /** From a cursor with no hops left: the agents ask in vain, a post grants too late for
      this poll; in the next the same agents pass, the post grants again, and more pass. */
  lemma RefusedPassesNext(s: Session, c: Cursor, channel: string)
    requires s.grant > 0 && channel != "" && c.lastSeen >= 0 && Budget(c.budgets, channel, s.grant) == 0
    ensures
      var g, t := Granted(s), c.lastSeen + 1;
      var (c1, first) := Poll(s, c, Round(s, channel, t, g + 1));
      var (c2, second) := Poll(s, c1, Round(s, channel, t, 2 * g + 1));
      && first == Outcomes(s, channel, t, g + 1, true) && c1.lastSeen == c.lastSeen
      && second == Outcomes(s, channel, t, 2 * g + 1, false) && c2.lastSeen == t + 2 * g
      && Budget(c2.budgets, channel, s.grant) == 0
  {
    RefusedPoll(s, c, channel);
    PassingPoll(s, Poll(s, c, Round(s, channel, c.lastSeen + 1, Granted(s) + 1)).0, channel);
    hide *;
  }

  /** The bound on hops is reached, for every grant and every number of posts: each post,
      refused agents before it and others after it, costs two grants. */
  lemma PostsGrantTwice(s: Session, since: int, channel: string, n: nat) returns (polls: seq<seq<Message>>)
    requires channel != ""
    ensures GoodLists(s, since, polls)
    ensures
      var all := Concat(Run(s, since, polls).1);
      && |Posts(s, all, channel)| == n
      && Count(all, HopsOn(channel)) == MostHops(Granted(s), n)
  {
    if s.grant > 0 {
      polls := WorstRun(s, since, channel, n);
    } else {
      polls := NoGrantRun(s, since, channel, n);
    }
  }
}
