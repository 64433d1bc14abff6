/** Rounds of messages in which an operator post grants twice.

    A round is as many messages of an agent that names us as a post grants hops, a post
    that does not name us, and as many messages of the agent again. Listed up to the post
    when no hops are left, it is refused; listed whole in the next poll, it passes
    throughout, and the post has granted in both. */
module RelayRounds {
  import opened Seqs
  import opened RelayFilter
  import opened RelayBudget

  /** The i-th message of a round that starts at time t: grant messages of an agent that
      name us, a post that does not, and the agent again. */
  function Msg(s: Session, channel: string, t: int, i: nat): Message {
    if i == Granted(s) then PostAt(s, channel, t + i)
    else Message(t + i, channel, s.nick + "a", false, true, true, false)
  }

  function PostAt(s: Session, channel: string, t: int): Message {
    Message(t, channel, s.nick + "o", false, false, false, false)
  }

  /** The first k messages of a round. */
  function Round(s: Session, channel: string, t: int, k: nat): seq<Message> {
    seq(k, i requires 0 <= i < k => Msg(s, channel, t, i))
  }

  /** What becomes of them: the agent is refused up to the post, or passes throughout. */
  function Outcomes(s: Session, channel: string, t: int, k: nat, refused: bool): seq<Processed> {
    seq(k, i requires 0 <= i < k =>
      Processed(Msg(s, channel, t, i), if i == Granted(s) then Ignored else if refused then Exhausted else Passed))
  }

  /** The hops left after the first k messages, when `left` were there before. */
  function LeftAfter(s: Session, k: nat, left: int): int {
    if k <= Granted(s) then (if left == 0 then 0 else left - k) else Granted(s) - (k - Granted(s) - 1)
  }

  lemma RoundLists(s: Session, channel: string, t: int, k: nat)
    ensures SortedByTime(Round(s, channel, t, k)) && NoRepeats(Round(s, channel, t, k))
    ensures forall m | m in Round(s, channel, t, k) :: t <= m.at < t + k
  {
  }

  /** What the first k messages of a round come to. */
  ghost predicate RoundDone(s: Session, out: Outcome, since: int, channel: string, t: int, k: nat, refused: bool) {
    && out.processed == Outcomes(s, channel, t, k, refused)
    && Budget(out.budgets, channel, s.grant) == LeftAfter(s, k, if refused then 0 else s.grant)
    && out.newest == if k == 0 then since else t + k - 1
  }

  /** A round that finds no hops left, cut after the post, or one that finds them all. */
  lemma {:induction false} RoundHandled(s: Session, since: int, budgets: Budgets, channel: string, t: int, k: nat,
                                        refused: bool)
    requires s.grant > 0 && channel != "" && since < t && 0 < t
    requires k <= if refused then Granted(s) + 1 else 2 * Granted(s) + 1
    requires Budget(budgets, channel, s.grant) == if refused then 0 else s.grant
    ensures RoundDone(s, HandleAll(s, since, budgets, Round(s, channel, t, k)), since, channel, t, k, refused)
  {
    hide *;
    if k == 0 {
      RoundStarts(s, since, budgets, channel, t, refused);
    } else {
      RoundHandled(s, since, budgets, channel, t, k - 1, refused);
      RoundMore(s, channel, t, k - 1, refused);
      MsgFresh(s, since, channel, t, k - 1);
      HandledMore(s, since, budgets, Round(s, channel, t, k - 1), Msg(s, channel, t, k - 1));
      OneDoneMore(s, HandleAll(s, since, budgets, Round(s, channel, t, k - 1)), since, channel, t, k - 1, refused);
    }
  }

  lemma RoundStarts(s: Session, since: int, budgets: Budgets, channel: string, t: int, refused: bool)
    requires Budget(budgets, channel, s.grant) == if refused then 0 else s.grant
    ensures RoundDone(s, HandleAll(s, since, budgets, Round(s, channel, t, 0)), since, channel, t, 0, refused)
  {
    assert Round(s, channel, t, 0) == [] && Outcomes(s, channel, t, 0, refused) == [];
  }

  lemma OneDoneMore(s: Session, out: Outcome, since: int, channel: string, t: int, k: nat, refused: bool)
    requires s.grant > 0 && channel != "" && since < t && RoundDone(s, out, since, channel, t, k, refused)
    requires k < if refused then Granted(s) + 1 else 2 * Granted(s) + 1
    ensures
      var m := Msg(s, channel, t, k);
      var (budgets', verdict) := Handle(s, out.budgets, m);
      var newest := if m.at > out.newest then m.at else out.newest;
      var out' := Outcome(out.processed + [Processed(m, verdict)], newest, budgets');
      RoundDone(s, out', since, channel, t, k + 1, refused)
  {
    RoundMore(s, channel, t, k, refused);
    LeftMore(s, k, refused);
    MessageHandled(s, out.budgets, channel, t, k);
    hide Handle, Outcomes, Budget, LeftAfter, Msg;
  }

  lemma MsgFresh(s: Session, since: int, channel: string, t: int, i: nat)
    requires since < t && 0 < t
    ensures Fresh(Msg(s, channel, t, i), since)
  {
  }

  lemma LeftMore(s: Session, k: nat, refused: bool)
    requires s.grant > 0
    ensures
      var left := if refused then 0 else s.grant;
      && (k == Granted(s) ==> LeftAfter(s, k + 1, left) == s.grant)
      && (k < Granted(s) && refused ==> LeftAfter(s, k, left) == 0 == LeftAfter(s, k + 1, left))
      && (k != Granted(s) && !refused ==> LeftAfter(s, k + 1, left) == LeftAfter(s, k, left) - 1)
      && (k != Granted(s) && !refused && k < 2 * Granted(s) + 1 ==> LeftAfter(s, k, left) > 0)
  {
  }

  lemma RoundMore(s: Session, channel: string, t: int, k: nat, refused: bool)
    ensures Round(s, channel, t, k + 1) == Round(s, channel, t, k) + [Msg(s, channel, t, k)]
    ensures
      var verdict := if k == Granted(s) then Ignored else if refused then Exhausted else Passed;
      Outcomes(s, channel, t, k + 1, refused)
      == Outcomes(s, channel, t, k, refused) + [Processed(Msg(s, channel, t, k), verdict)]
    ensures Msg(s, channel, t, k).at == t + k
  {
    hide Granted;
  }

  lemma HandledMore(s: Session, since: int, budgets: Budgets, list: seq<Message>, m: Message)
    requires Fresh(m, since)
    ensures
      var before := HandleAll(s, since, budgets, list);
      var (budgets', verdict) := Handle(s, before.budgets, m);
      var newest := if m.at > before.newest then m.at else before.newest;
      HandleAll(s, since, budgets, list + [m])
      == Outcome(before.processed + [Processed(m, verdict)], newest, budgets')
  {
    assert (list + [m])[..|list|] == list;
  }

  lemma MessageHandled(s: Session, budgets: Budgets, channel: string, t: int, i: nat)
    requires s.grant > 0 && channel != ""
    ensures
      var (budgets', verdict) := Handle(s, budgets, Msg(s, channel, t, i));
      var left := Budget(budgets, channel, s.grant);
      if i == Granted(s) then verdict == Ignored && Budget(budgets', channel, s.grant) == s.grant
      else if left <= 0 then verdict == Exhausted && Budget(budgets', channel, s.grant) == left
      else verdict == Passed && Budget(budgets', channel, s.grant) == left - 1
  {
    assert |s.nick + "a"| != |s.nick| && |s.nick + "o"| != |s.nick|;
  }

  lemma {:induction false} OutcomesCount(s: Session, channel: string, t: int, k: nat, refused: bool)
    ensures
      var out := Outcomes(s, channel, t, k, refused);
      && Count(out, HopsOn(channel)) == (if refused then 0 else if k <= Granted(s) then k else k - 1)
      && (Accepted(out) == [] <==> refused || Count(out, HopsOn(channel)) == 0)
  {
    if k > 0 {
      OutcomesCount(s, channel, t, k - 1, refused);
      hide *;
      RoundMore(s, channel, t, k - 1, refused);
      var before := Outcomes(s, channel, t, k - 1, refused);
      var verdict := if k - 1 == Granted(s) then Ignored else if refused then Exhausted else Passed;
      MsgHops(s, channel, t, k - 1, verdict);
      CountAppend(before, Processed(Msg(s, channel, t, k - 1), verdict), HopsOn(channel));
      AcceptedAppend(before, Processed(Msg(s, channel, t, k - 1), verdict));
    }
  }

  lemma MsgHops(s: Session, channel: string, t: int, i: nat, verdict: Verdict)
    ensures HopsOn(channel)(Processed(Msg(s, channel, t, i), verdict)) <==> i != Granted(s) && verdict.Passed?
  {
  }

  lemma OutcomesPosts(s: Session, channel: string, t: int, k: nat, refused: bool)
    ensures Posts(s, Outcomes(s, channel, t, k, refused), channel)
            == if k <= Granted(s) then {} else {PostAt(s, channel, t + Granted(s))}
  {
    var out := Outcomes(s, channel, t, k, refused);
    assert |s.nick + "o"| != |s.nick|;
    if k > Granted(s) {
      assert out[Granted(s)] in out;
    }
  }

  lemma RefusedPoll(s: Session, c: Cursor, channel: string)
    requires s.grant > 0 && channel != "" && c.lastSeen >= 0 && Budget(c.budgets, channel, s.grant) == 0
    ensures
      var g, t := Granted(s), c.lastSeen + 1;
      var (c1, first) := Poll(s, c, Round(s, channel, t, g + 1));
      && first == Outcomes(s, channel, t, g + 1, true) && c1.lastSeen == c.lastSeen
      && Budget(c1.budgets, channel, s.grant) == s.grant
  {
    RoundHandled(s, c.lastSeen, c.budgets, channel, c.lastSeen + 1, Granted(s) + 1, true);
    OutcomesCount(s, channel, c.lastSeen + 1, Granted(s) + 1, true);
    hide HandleAll, Accepted, Count, Round, Outcomes;
  }

  lemma PassingPoll(s: Session, c: Cursor, channel: string)
    requires s.grant > 0 && channel != "" && c.lastSeen >= 0 && Budget(c.budgets, channel, s.grant) == s.grant
    ensures
      var g, t := Granted(s), c.lastSeen + 1;
      var (c2, second) := Poll(s, c, Round(s, channel, t, 2 * g + 1));
      && second == Outcomes(s, channel, t, 2 * g + 1, false) && c2.lastSeen == t + 2 * g
      && Budget(c2.budgets, channel, s.grant) == 0
  {
    RoundHandled(s, c.lastSeen, c.budgets, channel, c.lastSeen + 1, 2 * Granted(s) + 1, false);
    OutcomesCount(s, channel, c.lastSeen + 1, 2 * Granted(s) + 1, false);
    hide HandleAll, Accepted, Count, Round, Outcomes;
  }

  // ----- Whole runs -----

  lemma RunOneMore(s: Session, since: int, polls: seq<seq<Message>>, next: seq<Message>)
    ensures
      var (c, history) := Run(s, since, polls);
      var (c', last) := Poll(s, c, next);
      Run(s, since, polls + [next]) == (c', history + [last])
  {
    assert (polls + [next])[..|polls|] == polls;
  }

  lemma GoodMore(s: Session, since: int, polls: seq<seq<Message>>, next: seq<Message>)
    requires GoodLists(s, since, polls) && SortedByTime(next) && NoRepeats(next)
    requires polls != [] ==> Carries(Run(s, since, polls).0.lastSeen, polls[|polls| - 1], next)
    ensures GoodLists(s, since, polls + [next])
  {
    var both := polls + [next];
    forall k, after | 0 <= k && after == k + 1 < |both|
      ensures Carries(Run(s, since, both[..after]).0.lastSeen, both[k], both[after])
    {
      if after == |polls| {
        assert both[..after] == polls;
      } else {
        assert both[..after] == polls[..after];
        assert Carries(Run(s, since, polls[..after]).0.lastSeen, polls[k], polls[after]);
      }
    }
  }

  /** n posts so far, all passed by the cursor, and every hop they can bring spent. */
  ghost predicate Spent(s: Session, c: Cursor, history: seq<seq<Processed>>, channel: string, n: nat) {
    && c.lastSeen >= 0 && Budget(c.budgets, channel, s.grant) == 0
    && Count(Concat(history), HopsOn(channel)) == MostHops(Granted(s), n)
    && |Posts(s, Concat(history), channel)| == n
    && (forall m | m in Posts(s, Concat(history), channel) :: m.at <= c.lastSeen)
  }

  predicate NoneAfter(list: seq<Message>, time: int) { forall m | m in list :: m.at <= time }

  ghost predicate Worst(s: Session, since: int, polls: seq<seq<Message>>, channel: string, n: nat) {
    && polls != [] && GoodLists(s, since, polls)
    && Spent(s, Run(s, since, polls).0, Run(s, since, polls).1, channel, n)
    && NoneAfter(polls[|polls| - 1], Run(s, since, polls).0.lastSeen)
  }

  lemma FirstRound(s: Session, since: int, channel: string) returns (polls: seq<seq<Message>>)
    requires s.grant > 0 && channel != ""
    ensures Worst(s, since, polls, channel, 0)
  {
    var t, g := if since < 0 then 1 else since + 1, Granted(s);
    assert g > 0;
    hide Run, Poll, GoodLists, Spent, NoneAfter, Round, Outcomes, Granted, Budget, SortedByTime, NoRepeats;
    polls := [Round(s, channel, t, g)];
    FirstPoll(s, since, channel, t);
    RoundLists(s, channel, t, g);
    OneList(s, since, Round(s, channel, t, g));
    FirstSpent(s, Run(s, since, polls).0, channel, t);
    FirstEnds(s, channel, t);
  }

  lemma FirstEnds(s: Session, channel: string, t: int)
    ensures NoneAfter(Round(s, channel, t, Granted(s)), t + Granted(s) - 1)
  {
  }

  lemma FirstSpent(s: Session, c: Cursor, channel: string, t: int)
    requires s.grant > 0 && c.lastSeen >= 0 && Budget(c.budgets, channel, s.grant) == 0
    ensures Spent(s, c, [Outcomes(s, channel, t, Granted(s), false)], channel, 0)
  {
    var out := Outcomes(s, channel, t, Granted(s), false);
    OutcomesCount(s, channel, t, Granted(s), false);
    OutcomesPosts(s, channel, t, Granted(s), false);
    assert MostHops(Granted(s), 0) == Granted(s);
    ConcatOne(out);
    hide Outcomes, Concat, Count, Posts, MostHops, Budget, Accepted;
  }

  lemma ConcatOne<T>(a: seq<T>)
    ensures Concat([a]) == a
  {
    assert [a][..0] == [];
    assert Concat([a]) == Concat([]) + a;
  }

  lemma OneList(s: Session, since: int, list: seq<Message>)
    requires SortedByTime(list) && NoRepeats(list)
    ensures GoodLists(s, since, [list])
    ensures var (c, last) := Poll(s, Cursor(since, map[]), list);
            Run(s, since, [list]) == (c, [last])
  {
    hide Poll, SortedByTime, NoRepeats;
    var last := Poll(s, Cursor(since, map[]), list).1;
    assert [list][..0] == [] && Run(s, since, []) == (Cursor(since, map[]), []);
    assert [] + [last] == [last];
  }

  lemma FirstPoll(s: Session, since: int, channel: string, t: int)
    requires s.grant > 0 && channel != "" && since < t && 0 < t
    ensures
      var (c, out) := Poll(s, Cursor(since, map[]), Round(s, channel, t, Granted(s)));
      && out == Outcomes(s, channel, t, Granted(s), false) && c.lastSeen == t + Granted(s) - 1
      && Budget(c.budgets, channel, s.grant) == 0
  {
    RoundHandled(s, since, map[], channel, t, Granted(s), false);
    OutcomesCount(s, channel, t, Granted(s), false);
    hide HandleAll, Accepted, Count, Round, Outcomes;
  }

  lemma NextRound(s: Session, since: int, polls: seq<seq<Message>>, channel: string, n: nat)
    returns (more: seq<seq<Message>>)
    requires s.grant > 0 && channel != "" && Worst(s, since, polls, channel, n)
    ensures Worst(s, since, more, channel, n + 1)
  {
    hide Run, GoodLists, Round, NoneAfter, Outcomes, Count, Posts, Concat, Budget, Granted, MostHops;
    var (c, history) := Run(s, since, polls);
    var g, t := Granted(s), c.lastSeen + 1;
    assert c.lastSeen >= 0 && Budget(c.budgets, channel, s.grant) == 0;
    hide Spent;
    more := polls + [Round(s, channel, t, g + 1)] + [Round(s, channel, t, 2 * g + 1)];
    RoundRuns(s, since, polls, channel);
    RoundEnds(s, channel, t);
    SpentMore(s, c, history, Run(s, since, more).0, channel, n);
  }

  lemma RoundEnds(s: Session, channel: string, t: int)
    ensures NoneAfter(Round(s, channel, t, 2 * Granted(s) + 1), t + 2 * Granted(s))
  {
  }

  lemma PostApart(posts: set<Message>, post: Message, time: int)
    requires forall m | m in posts :: m.at <= time
    requires post.at > time
    ensures |posts + {post}| == |posts| + 1
  {
  }

  lemma MostHopsMore(grant: nat, n: nat)
    ensures MostHops(grant, n + 1) == MostHops(grant, n) + 2 * grant
  {
  }

  lemma PollMore(s: Session, since: int, polls: seq<seq<Message>>, next: seq<Message>)
    requires polls != [] && GoodLists(s, since, polls) && SortedByTime(next) && NoRepeats(next)
    requires Carries(Run(s, since, polls).0.lastSeen, polls[|polls| - 1], next)
    ensures GoodLists(s, since, polls + [next])
    ensures
      var (c, history) := Run(s, since, polls);
      var (c', last) := Poll(s, c, next);
      Run(s, since, polls + [next]) == (c', history + [last])
  {
    RunOneMore(s, since, polls, next);
    GoodMore(s, since, polls, next);
    hide *;
  }

  lemma RoundCarries(s: Session, channel: string, t: int, list: seq<Message>, time: int)
    requires NoneAfter(list, time)
    ensures Carries(time, list, Round(s, channel, t, Granted(s) + 1))
    ensures Carries(time, Round(s, channel, t, Granted(s) + 1), Round(s, channel, t, 2 * Granted(s) + 1))
  {
    var a, b := Round(s, channel, t, Granted(s) + 1), Round(s, channel, t, 2 * Granted(s) + 1);
    assert a == b[..Granted(s) + 1];
  }

  /** The two polls of a round. */
  lemma RoundRuns(s: Session, since: int, polls: seq<seq<Message>>, channel: string)
    requires s.grant > 0 && channel != "" && polls != [] && GoodLists(s, since, polls)
    requires Run(s, since, polls).0.lastSeen >= 0 && Budget(Run(s, since, polls).0.budgets, channel, s.grant) == 0
    requires NoneAfter(polls[|polls| - 1], Run(s, since, polls).0.lastSeen)
    ensures
      var (c, history) := Run(s, since, polls);
      var g, t := Granted(s), c.lastSeen + 1;
      var more := polls + [Round(s, channel, t, g + 1)] + [Round(s, channel, t, 2 * g + 1)];
      var (c2, history2) := Run(s, since, more);
      && GoodLists(s, since, more)
      && history2 == history + [Outcomes(s, channel, t, g + 1, true)] + [Outcomes(s, channel, t, 2 * g + 1, false)]
      && c2.lastSeen == t + 2 * g && Budget(c2.budgets, channel, s.grant) == 0
  {
    hide *;
    var c := Run(s, since, polls).0;
    var g, t := Granted(s), c.lastSeen + 1;
    var a, b := Round(s, channel, t, g + 1), Round(s, channel, t, 2 * g + 1);
    RoundLists(s, channel, t, g + 1);
    RoundLists(s, channel, t, 2 * g + 1);
    RoundCarries(s, channel, t, polls[|polls| - 1], c.lastSeen);
    RefusedPoll(s, c, channel);
    PassingPoll(s, Poll(s, c, a).0, channel);
    PollMore(s, since, polls, a);
    assert (polls + [a])[|polls + [a]| - 1] == a;
    PollMore(s, since, polls + [a], b);
  }

  lemma TwoMore(s: Session, history: seq<seq<Processed>>, a: seq<Processed>, b: seq<Processed>, channel: string)
    ensures
      var all := Concat(history + [a] + [b]);
      && Count(all, HopsOn(channel))
         == Count(Concat(history), HopsOn(channel)) + Count(a, HopsOn(channel)) + Count(b, HopsOn(channel))
      && Posts(s, all, channel) == Posts(s, Concat(history), channel) + Posts(s, a, channel) + Posts(s, b, channel)
  {
    hide *;
    ConcatAppend(history, a);
    ConcatAppend(history + [a], b);
    CountConcat(Concat(history) + a, b, HopsOn(channel));
    CountConcat(Concat(history), a, HopsOn(channel));
    BothPosts(s, Concat(history), a, b, channel);
  }

  lemma SpentMore(s: Session, c: Cursor, history: seq<seq<Processed>>, c': Cursor, channel: string, n: nat)
    requires s.grant > 0 && Spent(s, c, history, channel, n)
    requires c'.lastSeen == c.lastSeen + 1 + 2 * Granted(s) && Budget(c'.budgets, channel, s.grant) == 0
    ensures
      var g, t := Granted(s), c.lastSeen + 1;
      Spent(s, c', history + [Outcomes(s, channel, t, g + 1, true)] + [Outcomes(s, channel, t, 2 * g + 1, false)],
            channel, n + 1)
  {
    hide Outcomes, Count, Posts, Concat, MostHops, Budget, Granted;
    var g, t := Granted(s), c.lastSeen + 1;
    RoundAdds(s, history, channel, t);
    MostHopsMore(g, n);
    PostApart(Posts(s, Concat(history), channel), PostAt(s, channel, t + g), c.lastSeen);
  }

  /** What the two polls of a round add to the history. */
  lemma RoundAdds(s: Session, history: seq<seq<Processed>>, channel: string, t: int)
    requires s.grant > 0
    ensures
      var g := Granted(s);
      var all := Concat(history + [Outcomes(s, channel, t, g + 1, true)] + [Outcomes(s, channel, t, 2 * g + 1, false)]);
      && Count(all, HopsOn(channel)) == Count(Concat(history), HopsOn(channel)) + 2 * g
      && Posts(s, all, channel) == Posts(s, Concat(history), channel) + {PostAt(s, channel, t + g)}
  {
    hide *;
    var g := Granted(s);
    var a, b := Outcomes(s, channel, t, g + 1, true), Outcomes(s, channel, t, 2 * g + 1, false);
    OutcomesCount(s, channel, t, g + 1, true);
    OutcomesCount(s, channel, t, 2 * g + 1, false);
    OutcomesPosts(s, channel, t, g + 1, true);
    OutcomesPosts(s, channel, t, 2 * g + 1, false);
    TwoMore(s, history, a, b, channel);
    Twice(Posts(s, Concat(history), channel), PostAt(s, channel, t + g));
  }

  lemma Twice<T>(a: set<T>, x: T)
    ensures a + {x} + {x} == a + {x}
  {
  }

  lemma BothPosts(s: Session, a: seq<Processed>, b: seq<Processed>, c: seq<Processed>, channel: string)
    ensures Posts(s, a + b + c, channel) == Posts(s, a, channel) + Posts(s, b, channel) + Posts(s, c, channel)
  {
    hide OperatorPostsOn;
    assert forall p :: p in a + b + c <==> p in a || p in b || p in c;
  }

  lemma {:induction false} WorstRun(s: Session, since: int, channel: string, n: nat) returns (polls: seq<seq<Message>>)
    requires s.grant > 0 && channel != ""
    ensures Worst(s, since, polls, channel, n)
    decreases n
  {
    if n == 0 {
      polls := FirstRound(s, since, channel);
    } else {
      polls := WorstRun(s, since, channel, n - 1);
      polls := NextRound(s, since, polls, channel, n - 1);
    }
  }

  // ----- When nothing is granted -----

  function PostList(s: Session, channel: string, t: int, n: nat): seq<Message> {
    seq(n, i requires 0 <= i < n => PostAt(s, channel, t + i))
  }

  function MessagesIn(list: seq<Message>): set<Message> { set m | m in list }

  lemma {:induction false} AsManyMessages(list: seq<Message>)
    requires NoRepeats(list)
    ensures |MessagesIn(list)| == |list|
  {
    if list == [] {
      assert MessagesIn(list) == {};
    } else {
      var n := |list| - 1;
      AsManyMessages(list[..n]);
      assert list == list[..n] + [list[n]];
      assert MessagesIn(list) == MessagesIn(list[..n]) + {list[n]};
      assert list[n] !in list[..n];
    }
  }

  lemma PostListMeans(s: Session, since: int, channel: string, t: int, n: nat)
    requires since < t && 0 < t
    ensures
      var list := PostList(s, channel, t, n);
      && SortedByTime(list) && NoRepeats(list)
      && forall m | m in list :: m.channel == channel && OperatorPost(s, m) && Fresh(m, since)
  {
    var list := PostList(s, channel, t, n);
    assert |s.nick + "o"| != |s.nick|;
    forall i | 0 <= i < n ensures list[i] == PostAt(s, channel, t + i) {}
    forall i, j | 0 <= i < j < n ensures list[i].at < list[j].at {}
  }

  lemma PostListPosts(s: Session, since: int, channel: string, list: seq<Message>)
    requires NoRepeats(list)
    requires forall m | m in list :: m.channel == channel && OperatorPost(s, m) && Fresh(m, since)
    ensures Posts(s, Poll(s, Cursor(since, map[]), list).1, channel) == MessagesIn(list)
  {
    var out := Poll(s, Cursor(since, map[]), list).1;
    ProcessedOnce(s, since, map[], list);
    hide HandleAll, OperatorPost, Fresh;
    forall m | m in list ensures m in Posts(s, out, channel) {
      assert Has(out, m);
    }
  }

  lemma NoGrantRun(s: Session, since: int, channel: string, n: nat) returns (polls: seq<seq<Message>>)
    requires s.grant <= 0 && channel != ""
    ensures GoodLists(s, since, polls)
    ensures
      var all := Concat(Run(s, since, polls).1);
      |Posts(s, all, channel)| == n && Count(all, HopsOn(channel)) == 0
  {
    var t := if since < 0 then 1 else since + 1;
    var list := PostList(s, channel, t, n);
    assert |list| == n && Granted(s) == 0 && MostHops(0, n) == 0;
    hide Run, Poll, Concat, Posts, PostList, GoodLists, MostHops, Count, OperatorPost, Fresh, SortedByTime, NoRepeats;
    polls := [list];
    PostListMeans(s, since, channel, t, n);
    OneList(s, since, list);
    PostListPosts(s, since, channel, list);
    AsManyMessages(list);
    HopsPerPost(s, since, polls, channel);
    ConcatOne(Poll(s, Cursor(since, map[]), list).1);
  }
}
