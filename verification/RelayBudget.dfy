/** How many agent-to-agent hops a relay accepts in all.

    Hops are counted against the operator posts people actually made. A poll that accepts
    nothing leaves the cursor where it is, so its messages are processed again by the next
    poll: a post can grant twice, and a hop refused for want of budget can pass on the
    grant of a later post. */
module RelayBudget {
  import opened Seqs
  import opened RelayFilter

  predicate NoRepeats(ms: seq<Message>) { forall i, j | 0 <= i < j < |ms| :: ms[i] != ms[j] }

  /** Every list still holds what the one before it held and the cursor has not passed. */
  ghost predicate KeepsUnread(s: Session, since: int, polls: seq<seq<Message>>) {
    forall k, next | 0 <= k && next == k + 1 < |polls| ::
      Carries(Run(s, since, polls[..next]).0.lastSeen, polls[k], polls[next])
  }

  predicate Carries(lastSeen: int, list: seq<Message>, later: seq<Message>) {
    forall m | m in list && Fresh(m, lastSeen) :: m in later
  }

  ghost predicate GoodLists(s: Session, since: int, polls: seq<seq<Message>>) {
    && (forall k | 0 <= k < |polls| :: SortedByTime(polls[k]) && NoRepeats(polls[k]))
    && KeepsUnread(s, since, polls)
  }

  /** The distinct operator posts on the channel among what was processed. */
  function Posts(s: Session, processed: seq<Processed>, channel: string): set<Message> {
    set p | p in processed && OperatorPostsOn(s, channel)(p) :: p.msg
  }

  /** Hops left on the channel. */
  function Left(s: Session, budgets: Budgets, channel: string): nat {
    var left := Budget(budgets, channel, s.grant);
    if left > 0 then left else 0
  }

  /** What the last poll processed, or nothing before the first. */
  function LastProcessed(s: Session, since: int, polls: seq<seq<Message>>): seq<Processed> {
    if polls == [] then []
    else Poll(s, Run(s, since, polls[..|polls| - 1]).0, polls[|polls| - 1]).1
  }

  /** Posts processed by a poll that accepted something: the cursor has passed them. */
  function Settled(s: Session, since: int, polls: seq<seq<Message>>, channel: string): set<Message> {
    if polls == [] then {}
    else
      var last := LastProcessed(s, since, polls);
      Settled(s, since, polls[..|polls| - 1], channel) + if Accepted(last) == [] then {} else Posts(s, last, channel)
  }

  /** Posts of a last poll that accepted nothing: they will be processed again. */
  function Waiting(s: Session, since: int, polls: seq<seq<Message>>, channel: string): set<Message> {
    var last := LastProcessed(s, since, polls);
    if Accepted(last) == [] then Posts(s, last, channel) else {}
  }

  // ----- One poll -----

  /** A list spends no more hops than were left and its operator posts grant. */
  lemma {:induction false} ListSpends(s: Session, since: int, budgets: Budgets, ordered: seq<Message>, channel: string)
    requires channel != "" && Left(s, budgets, channel) <= Granted(s)
    ensures
      var out := HandleAll(s, since, budgets, ordered);
      && Left(s, out.budgets, channel) <= Granted(s)
      && Count(out.processed, HopsOn(channel)) + Left(s, out.budgets, channel)
         <= Left(s, budgets, channel) + Granted(s) * Count(out.processed, OperatorPostsOn(s, channel))
  {
    if ordered != [] {
      var init, m := ordered[..|ordered| - 1], ordered[|ordered| - 1];
      ListSpends(s, since, budgets, init, channel);
      if Fresh(m, since) {
        var before := HandleAll(s, since, budgets, init);
        var p := Processed(m, Handle(s, before.budgets, m).1);
        MessageSpends(s, before.budgets, m, channel);
        CountAppend(before.processed, p, HopsOn(channel));
        CountAppend(before.processed, p, OperatorPostsOn(s, channel));
        OneMoreGrant(Granted(s), Count(before.processed, OperatorPostsOn(s, channel)));
      }
    }
  }

  lemma MessageSpends(s: Session, budgets: Budgets, m: Message, channel: string)
    requires channel != "" && Left(s, budgets, channel) <= Granted(s)
    ensures
      var (budgets', verdict) := Handle(s, budgets, m);
      var p := Processed(m, verdict);
      && Left(s, budgets', channel) <= Granted(s)
      && (if HopsOn(channel)(p) then 1 else 0) + Left(s, budgets', channel)
         <= Left(s, budgets, channel) + if OperatorPostsOn(s, channel)(p) then Granted(s) else 0
  {
  }

  /** Each message is processed as often as it is listed, and only the fresh ones are. */
  ghost predicate ProcessesOnce(processed: seq<Processed>, ordered: seq<Message>, since: int) {
    && (forall p | p in processed :: p.msg in ordered && Fresh(p.msg, since))
    && (forall i, j | 0 <= i < j < |processed| :: processed[i].msg != processed[j].msg)
    && (forall m | m in ordered && Fresh(m, since) :: Has(processed, m))
  }

  predicate Has(processed: seq<Processed>, m: Message) {
    exists i :: 0 <= i < |processed| && processed[i].msg == m
  }

  lemma {:induction false} ProcessedOnce(s: Session, since: int, budgets: Budgets, ordered: seq<Message>)
    requires NoRepeats(ordered)
    ensures ProcessesOnce(HandleAll(s, since, budgets, ordered).processed, ordered, since)
  {
    if ordered != [] {
      var n := |ordered| - 1;
      var init, m := ordered[..n], ordered[n];
      ProcessedOnce(s, since, budgets, init);
      var before := HandleAll(s, since, budgets, init);
      assert m !in init && ordered == init + [m];
      if Fresh(m, since) {
        OneProcessedMore(before.processed, init, since, Processed(m, Handle(s, before.budgets, m).1));
      }
      hide Handle, ProcessesOnce;
    }
  }

  lemma OneProcessedMore(processed: seq<Processed>, ordered: seq<Message>, since: int, p: Processed)
    requires ProcessesOnce(processed, ordered, since) && p.msg !in ordered && Fresh(p.msg, since)
    ensures ProcessesOnce(processed + [p], ordered + [p.msg], since)
  {
    var more := processed + [p];
    assert more[|processed|].msg == p.msg;
    forall m | m in ordered && Fresh(m, since) ensures Has(more, m) {
      var i :| 0 <= i < |processed| && processed[i].msg == m;
      assert more[i].msg == m;
    }
  }

  lemma {:induction false} PostsCounted(s: Session, processed: seq<Processed>, channel: string)
    requires forall i, j | 0 <= i < j < |processed| :: processed[i].msg != processed[j].msg
    ensures Count(processed, OperatorPostsOn(s, channel)) == |Posts(s, processed, channel)|
  {
    if processed != [] {
      var n := |processed| - 1;
      PostsCounted(s, processed[..n], channel);
      PostsAppend(s, processed[..n], processed[n], channel);
      assert processed == processed[..n] + [processed[n]];
      hide Posts, OperatorPostsOn;
    }
  }

  lemma PostsAppend(s: Session, before: seq<Processed>, p: Processed, channel: string)
    requires forall q | q in before :: q.msg != p.msg
    ensures |Posts(s, before + [p], channel)|
            == |Posts(s, before, channel)| + if OperatorPostsOn(s, channel)(p) then 1 else 0
  {
    hide OperatorPost;
    if OperatorPostsOn(s, channel)(p) {
      assert Posts(s, before + [p], channel) == Posts(s, before, channel) + {p.msg};
      assert p.msg !in Posts(s, before, channel);
    } else {
      assert Posts(s, before + [p], channel) == Posts(s, before, channel);
    }
  }

  lemma {:induction false} NothingAccepted(processed: seq<Processed>, channel: string)
    requires Accepted(processed) == []
    ensures Count(processed, HopsOn(channel)) == 0
  {
    if processed != [] {
      NothingAccepted(processed[..|processed| - 1], channel);
    }
  }

  // ----- Whole runs -----

  /** Two grants for each post, and one to begin with. */
  function MostHops(grant: nat, posts: nat): nat { grant * (2 * posts + 1) }

  ghost predicate SpendInv(s: Session, since: int, polls: seq<seq<Message>>, channel: string) {
    var (c, history) := Run(s, since, polls);
    var settled := |Settled(s, since, polls, channel)|;
    var hops := Count(Concat(history), HopsOn(channel));
    && Left(s, c.budgets, channel) <= Granted(s)
    && (forall m | m in Settled(s, since, polls, channel) :: m.at <= c.lastSeen)
    && hops + (if Waiting(s, since, polls, channel) == {} then Left(s, c.budgets, channel) else 0)
       <= MostHops(Granted(s), settled)
  }

  /** What the last poll adds: its hops, and its posts when it accepted something. */
  ghost predicate PollAdds(s: Session, since: int, polls: seq<seq<Message>>, channel: string)
    requires polls != []
  {
    var (c, history) := Run(s, since, polls[..|polls| - 1]);
    var (c', history') := Run(s, since, polls);
    var last := LastProcessed(s, since, polls);
    var hops := Count(last, HopsOn(channel));
    && Count(Concat(history'), HopsOn(channel)) == Count(Concat(history), HopsOn(channel)) + hops
    && Left(s, c'.budgets, channel) <= Granted(s)
    && hops + Left(s, c'.budgets, channel)
       <= Left(s, c.budgets, channel) + Granted(s) * |Posts(s, last, channel)|
    && (forall m | m in Posts(s, last, channel) :: c.lastSeen < m.at && (Accepted(last) != [] ==> m.at <= c'.lastSeen))
    && (if Accepted(last) == [] then hops == 0 && c'.lastSeen == c.lastSeen else c.lastSeen <= c'.lastSeen)
  }

  lemma OnePoll(s: Session, since: int, polls: seq<seq<Message>>, channel: string)
    requires polls != [] && channel != "" && SortedByTime(polls[|polls| - 1]) && NoRepeats(polls[|polls| - 1])
    requires Left(s, Run(s, since, polls[..|polls| - 1]).0.budgets, channel) <= Granted(s)
    ensures PollAdds(s, since, polls, channel)
  {
    var (c, history) := Run(s, since, polls[..|polls| - 1]);
    var ordered := polls[|polls| - 1];
    var out := HandleAll(s, c.lastSeen, c.budgets, ordered);
    ListSpends(s, c.lastSeen, c.budgets, ordered, channel);
    ProcessedOnce(s, c.lastSeen, c.budgets, ordered);
    PostsCounted(s, out.processed, channel);
    HandleAllInWindow(s, c.lastSeen, c.budgets, ordered);
    ConcatAppend(history, out.processed);
    CountConcat(Concat(history), out.processed, HopsOn(channel));
    if Accepted(out.processed) == [] {
      NothingAccepted(out.processed, channel);
    }
  }

  lemma LastPoll(s: Session, since: int, polls: seq<seq<Message>>)
    requires polls != []
    ensures
      var c := Run(s, since, polls[..|polls| - 1]).0;
      var last := LastProcessed(s, since, polls);
      && last == HandleAll(s, c.lastSeen, c.budgets, polls[|polls| - 1]).processed
      && (Accepted(last) == [] ==> Run(s, since, polls).0.lastSeen == c.lastSeen)
  {
  }

  /** Posts that wait are processed again by the next poll. */
  lemma WaitingReturn(s: Session, since: int, polls: seq<seq<Message>>, channel: string)
    requires polls != [] && GoodLists(s, since, polls)
    ensures Waiting(s, since, polls[..|polls| - 1], channel) <= Posts(s, LastProcessed(s, since, polls), channel)
  {
    hide Run, HandleAll, LastProcessed, Accepted;
    var n := |polls| - 1;
    var init := polls[..n];
    var c := Run(s, since, init).0;
    LastPoll(s, since, polls);
    ProcessedOnce(s, c.lastSeen, c.budgets, polls[n]);
    var processed := LastProcessed(s, since, polls);
    if init == [] {
      assert LastProcessed(s, since, init) == [] by { NoPollNothing(s, since); }
    } else {
      assert init[n - 1] == polls[n - 1] && init[..n - 1] == polls[..n - 1];
      var before := Run(s, since, init[..n - 1]).0;
      LastPoll(s, since, init);
      ProcessedOnce(s, before.lastSeen, before.budgets, init[n - 1]);
      assert Carries(c.lastSeen, polls[n - 1], polls[n]);
      forall m | m in Waiting(s, since, init, channel) ensures m in Posts(s, processed, channel) {
        assert Fresh(m, c.lastSeen) && m in polls[n];
        var i :| 0 <= i < |processed| && processed[i].msg == m;
        assert processed[i] in processed && OperatorPostsOn(s, channel)(processed[i]);
      }
    }
  }

  lemma NoPollNothing(s: Session, since: int)
    ensures LastProcessed(s, since, []) == []
  {
  }

  lemma MostHopsGrows(grant: nat, posts: nat, more: nat)
    requires posts <= more
    ensures MostHops(grant, posts) <= MostHops(grant, more)
  {
  }

  /** A poll that accepts something: its posts pay for its hops, and for what waited. */
  lemma AcceptingPollPaid(grant: nat, settled: nat, posts: nat, hops: nat, left: nat, more: nat, left': nat,
                          waited: bool)
    requires hops + (if waited then 0 else left) <= MostHops(grant, settled) && left <= grant
    requires more + left' <= left + grant * posts && (waited ==> posts >= 1)
    ensures hops + more + left' <= MostHops(grant, settled + posts)
  {
    assert MostHops(grant, settled + posts) == MostHops(grant, settled) + grant * posts + grant * posts;
    assert waited ==> grant * posts >= grant;
  }

  /** A poll that accepts nothing: nothing is spent, and what it grants will return. */
  lemma EmptyPollPaid(grant: nat, settled: nat, posts: nat, hops: nat, left: nat, left': nat, waited: bool)
    requires hops + (if waited then 0 else left) <= MostHops(grant, settled)
    requires left' <= left + grant * posts && (posts == 0 ==> !waited)
    ensures hops + (if posts > 0 then 0 else left') <= MostHops(grant, settled)
  {
  }

  lemma GoodPrefix(s: Session, since: int, polls: seq<seq<Message>>)
    requires polls != [] && GoodLists(s, since, polls)
    ensures GoodLists(s, since, polls[..|polls| - 1])
  {
    var init := polls[..|polls| - 1];
    forall k, next | 0 <= k && next == k + 1 < |init|
      ensures Carries(Run(s, since, init[..next]).0.lastSeen, init[k], init[next])
    {
      assert init[..next] == polls[..next];
      assert Carries(Run(s, since, polls[..next]).0.lastSeen, polls[k], polls[next]);
    }
  }

  lemma {:induction false} RunSpends(s: Session, since: int, polls: seq<seq<Message>>, channel: string)
    requires channel != "" && GoodLists(s, since, polls)
    ensures SpendInv(s, since, polls, channel)
  {
    if polls != [] {
      var init := polls[..|polls| - 1];
      GoodPrefix(s, since, polls);
      RunSpends(s, since, init, channel);
      OnePoll(s, since, polls, channel);
      WaitingReturn(s, since, polls, channel);
      SpendsOn(s, since, polls, channel);
    }
  }

  lemma SpendsOn(s: Session, since: int, polls: seq<seq<Message>>, channel: string)
    requires polls != [] && SpendInv(s, since, polls[..|polls| - 1], channel)
    requires PollAdds(s, since, polls, channel)
    requires Waiting(s, since, polls[..|polls| - 1], channel) <= Posts(s, LastProcessed(s, since, polls), channel)
    ensures SpendInv(s, since, polls, channel)
  {
    hide Run, Left, Posts, Concat, Count, LastProcessed, Accepted, MostHops;
    var init := polls[..|polls| - 1];
    var last := LastProcessed(s, since, polls);
    var settled, posts := Settled(s, since, init, channel), Posts(s, last, channel);
    var (c, history) := Run(s, since, init);
    var waited := Waiting(s, since, init, channel) != {};
    var hops, more := Count(Concat(history), HopsOn(channel)), Count(last, HopsOn(channel));
    var left, left' := Left(s, c.budgets, channel), Left(s, Run(s, since, polls).0.budgets, channel);
    NextPosts(s, since, polls, channel);
    SettledApart(s, since, polls, channel);
    EmptyOrNot(posts);
    hide Settled, Waiting;
    if Accepted(last) == [] {
      EmptyPollPaid(Granted(s), |settled|, |posts|, hops, left, left', waited);
    } else {
      assert |settled + posts| == |settled| + |posts|;
      AcceptingPollPaid(Granted(s), |settled|, |posts|, hops, left, more, left', waited);
    }
  }

  lemma SettledApart(s: Session, since: int, polls: seq<seq<Message>>, channel: string)
    requires polls != [] && SpendInv(s, since, polls[..|polls| - 1], channel)
    requires PollAdds(s, since, polls, channel)
    ensures Settled(s, since, polls[..|polls| - 1], channel) !! Posts(s, LastProcessed(s, since, polls), channel)
    ensures forall m | m in Settled(s, since, polls, channel) :: m.at <= Run(s, since, polls).0.lastSeen
  {
    NextPosts(s, since, polls, channel);
    hide Run, Left, Posts, Concat, Count, LastProcessed, Accepted, MostHops, Settled, Waiting;
  }

  lemma NextPosts(s: Session, since: int, polls: seq<seq<Message>>, channel: string)
    requires polls != []
    ensures
      var last := LastProcessed(s, since, polls);
      var settled, posts := Settled(s, since, polls[..|polls| - 1], channel), Posts(s, last, channel);
      && Settled(s, since, polls, channel) == (if Accepted(last) == [] then settled else settled + posts)
      && Waiting(s, since, polls, channel) == (if Accepted(last) == [] then posts else {})
  {
    hide LastProcessed, Posts, Accepted;
  }

  lemma EmptyOrNot<T>(a: set<T>)
    ensures a == {} <==> |a| == 0
  {
  }

  lemma {:induction false} SettledWereProcessed(s: Session, since: int, polls: seq<seq<Message>>, channel: string)
    ensures Settled(s, since, polls, channel) <= Posts(s, Concat(Run(s, since, polls).1), channel)
  {
    if polls != [] {
      var init := polls[..|polls| - 1];
      SettledWereProcessed(s, since, init, channel);
      var (c, history) := Run(s, since, init);
      var last := LastProcessed(s, since, polls);
      ConcatAppend(history, last);
      assert forall p | p in Concat(history) || p in last :: p in Concat(history) + last;
    }
  }

  /** Over any run of polls whose lists keep what is unread, the hops accepted on a channel
      number at most two grants for each operator post there, and one more. */
  lemma HopsPerPost(s: Session, since: int, polls: seq<seq<Message>>, channel: string)
    requires channel != "" && GoodLists(s, since, polls)
    ensures
      var all := Concat(Run(s, since, polls).1);
      Count(all, HopsOn(channel)) <= MostHops(Granted(s), |Posts(s, all, channel)|)
  {
    RunSpends(s, since, polls, channel);
    SettledWereProcessed(s, since, polls, channel);
    hide *;
    var settled, posts := Settled(s, since, polls, channel), Posts(s, Concat(Run(s, since, polls).1), channel);
    SubsetSize(settled, posts);
    MostHopsGrows(Granted(s), |settled|, |posts|);
  }
}
