/** When an operator post grants its hops once. */
module RelayPosts {
  import opened Seqs
  import opened RelayFilter
  import opened RelayBudget

  /** The code's comment has each operator message grant its hops once. That is so exactly
      when the polls before the last accept something whenever they process a post. */

  /** Every poll with a post on the channel accepts something. */
  predicate Clean(s: Session, processed: seq<Processed>, channel: string) {
    Posts(s, processed, channel) == {} || Accepted(processed) != []
  }

  predicate AllClean(s: Session, history: seq<seq<Processed>>, channel: string) {
    forall k | 0 <= k < |history| :: Clean(s, history[k], channel)
  }

  predicate CleanBeforeLast(s: Session, history: seq<seq<Processed>>, channel: string) {
    forall k | 0 <= k < |history| - 1 :: Clean(s, history[k], channel)
  }

  ghost predicate OrderedLists(polls: seq<seq<Message>>) {
    forall k | 0 <= k < |polls| :: SortedByTime(polls[k]) && NoRepeats(polls[k])
  }

  predicate GrantsOnce(s: Session, all: seq<Processed>, channel: string) {
    Count(all, OperatorPostsOn(s, channel)) == |Posts(s, all, channel)|
  }

  // ----- The next poll -----

  /** A post is processed again by the next poll if and only if its own accepted nothing. */
  lemma PostReturnsIff(s: Session, since: int, polls: seq<seq<Message>>, next: seq<Message>, channel: string,
                       m: Message)
    requires GoodLists(s, since, polls + [next]) && m in Posts(s, LastProcessed(s, since, polls), channel)
    ensures m in Posts(s, LastProcessed(s, since, polls + [next]), channel)
            <==> Accepted(LastProcessed(s, since, polls)) == []
  {
    var both := polls + [next];
    assert both[..|both| - 1] == polls && polls != [];
    assert both[|polls| - 1] == polls[|polls| - 1];
    hide Run, HandleAll, LastProcessed, Accepted;
    WaitingReturn(s, since, both, channel);
    ProcessedAfter(s, since, both);
    CursorPasses(s, since, polls);
    if Accepted(LastProcessed(s, since, polls)) != [] {
      assert m.at <= Run(s, since, polls).0.lastSeen;
    }
  }

  /** What the last poll processes is newer than the cursor it found ... */
  lemma ProcessedAfter(s: Session, since: int, polls: seq<seq<Message>>)
    requires polls != [] && SortedByTime(polls[|polls| - 1])
    ensures forall p | p in LastProcessed(s, since, polls) :: Run(s, since, polls[..|polls| - 1]).0.lastSeen < p.msg.at
  {
    var c := Run(s, since, polls[..|polls| - 1]).0;
    HandleAllInWindow(s, c.lastSeen, c.budgets, polls[|polls| - 1]);
  }

  /** ... and no newer than the cursor it leaves, when it accepts something. */
  lemma CursorPasses(s: Session, since: int, polls: seq<seq<Message>>)
    requires polls != [] && SortedByTime(polls[|polls| - 1])
    ensures Run(s, since, polls[..|polls| - 1]).0.lastSeen <= Run(s, since, polls).0.lastSeen
    ensures Accepted(LastProcessed(s, since, polls)) != [] ==>
              forall p | p in LastProcessed(s, since, polls) :: p.msg.at <= Run(s, since, polls).0.lastSeen
  {
    var c := Run(s, since, polls[..|polls| - 1]).0;
    HandleAllInWindow(s, c.lastSeen, c.budgets, polls[|polls| - 1]);
  }

  // ----- Whole runs -----

  lemma PostsUnion(s: Session, a: seq<Processed>, b: seq<Processed>, channel: string)
    ensures Posts(s, a + b, channel) == Posts(s, a, channel) + Posts(s, b, channel)
  {
    hide OperatorPostsOn;
    assert forall p :: p in a + b <==> p in a || p in b;
  }

  /** One more poll: what it adds to the history, and to the posts in it. */
  lemma OneMorePoll(s: Session, since: int, polls: seq<seq<Message>>, channel: string)
    requires polls != [] && OrderedLists(polls)
    ensures
      var before, after := Run(s, since, polls[..|polls| - 1]).1, Run(s, since, polls).1;
      var last := LastProcessed(s, since, polls);
      && after == before + [last]
      && Posts(s, Concat(after), channel) == Posts(s, Concat(before), channel) + Posts(s, last, channel)
      && Count(Concat(after), OperatorPostsOn(s, channel))
         == Count(Concat(before), OperatorPostsOn(s, channel)) + |Posts(s, last, channel)|
  {
    var (c, before) := Run(s, since, polls[..|polls| - 1]);
    var ordered := polls[|polls| - 1];
    var last := LastProcessed(s, since, polls);
    assert last == HandleAll(s, c.lastSeen, c.budgets, ordered).processed;
    ProcessedOnce(s, c.lastSeen, c.budgets, ordered);
    PostsCounted(s, last, channel);
    ConcatAppend(before, last);
    PostsUnion(s, Concat(before), last, channel);
    CountConcat(Concat(before), last, OperatorPostsOn(s, channel));
  }

  /** Each post was processed once, and the cursor has passed them all. */
  ghost predicate PostsPassed(s: Session, c: Cursor, history: seq<seq<Processed>>, channel: string) {
    && GrantsOnce(s, Concat(history), channel)
    && forall m | m in Posts(s, Concat(history), channel) :: m.at <= c.lastSeen
  }

  ghost predicate After(last: seq<Processed>, from: int, to: int) {
    && (forall p | p in last :: from < p.msg.at)
    && from <= to && (Accepted(last) != [] ==> forall p | p in last :: p.msg.at <= to)
  }

  lemma PassedMore(s: Session, c: Cursor, history: seq<seq<Processed>>, c': Cursor, last: seq<Processed>,
                   channel: string)
    requires PostsPassed(s, c, history, channel) && After(last, c.lastSeen, c'.lastSeen)
    requires Posts(s, last, channel) == {} || Accepted(last) != []
    requires Posts(s, Concat(history + [last]), channel) == Posts(s, Concat(history), channel) + Posts(s, last, channel)
    requires Count(Concat(history + [last]), OperatorPostsOn(s, channel))
          == Count(Concat(history), OperatorPostsOn(s, channel)) + |Posts(s, last, channel)|
    ensures PostsPassed(s, c', history + [last], channel)
  {
    PostsProcessed(s, last, channel);
    hide Posts, Concat, Count, Accepted;
    UnionApart(Posts(s, Concat(history), channel), Posts(s, last, channel));
  }

  lemma LastIsAfter(s: Session, since: int, polls: seq<seq<Message>>)
    requires polls != [] && SortedByTime(polls[|polls| - 1])
    ensures After(LastProcessed(s, since, polls), Run(s, since, polls[..|polls| - 1]).0.lastSeen,
        Run(s, since, polls).0.lastSeen)
  {
    ProcessedAfter(s, since, polls);
    CursorPasses(s, since, polls);
    hide Run, LastProcessed, Accepted;
  }

  lemma {:induction false} CleanRunPassed(s: Session, since: int, polls: seq<seq<Message>>, channel: string)
    requires OrderedLists(polls) && AllClean(s, Run(s, since, polls).1, channel)
    ensures PostsPassed(s, Run(s, since, polls).0, Run(s, since, polls).1, channel)
  {
    if polls != [] {
      var init := polls[..|polls| - 1];
      assert OrderedLists(init) && SortedByTime(polls[|polls| - 1]);
      hide *;
      var (c, before) := Run(s, since, init);
      var last := LastProcessed(s, since, polls);
      OneMorePoll(s, since, polls, channel);
      CleanPrefix(s, before, last, channel);
      CleanRunPassed(s, since, init, channel);
      LastIsAfter(s, since, polls);
      PassedMore(s, c, before, Run(s, since, polls).0, last, channel);
    }
  }

  lemma CleanPrefix(s: Session, before: seq<seq<Processed>>, last: seq<Processed>, channel: string)
    requires AllClean(s, before + [last], channel)
    ensures AllClean(s, before, channel) && (Posts(s, last, channel) == {} || Accepted(last) != [])
  {
    var after := before + [last];
    assert after[|before|] == last && Clean(s, after[|before|], channel);
    forall k | 0 <= k < |before| ensures Clean(s, before[k], channel) {
      assert after[k] == before[k];
    }
  }

  lemma PostsProcessed(s: Session, processed: seq<Processed>, channel: string)
    ensures forall m | m in Posts(s, processed, channel) :: exists p | p in processed :: p.msg == m
  {
  }

  /** Each post grants once when every poll before the last that processes one accepts
      something, whatever the lists keep. */
  lemma CleanRunGrantsOnce(s: Session, since: int, polls: seq<seq<Message>>, channel: string)
    requires OrderedLists(polls) && CleanBeforeLast(s, Run(s, since, polls).1, channel)
    ensures GrantsOnce(s, Concat(Run(s, since, polls).1), channel)
  {
    if polls != [] {
      var init := polls[..|polls| - 1];
      var before, after := Run(s, since, init).1, Run(s, since, polls).1;
      OneMorePoll(s, since, polls, channel);
      CleanInit(s, before, after, channel);
      CleanRunPassed(s, since, init, channel);
      ProcessedAfter(s, since, polls);
      PostsProcessed(s, LastProcessed(s, since, polls), channel);
      hide Run, LastProcessed, Concat, Count, Posts;
      UnionApart(Posts(s, Concat(before), channel), Posts(s, LastProcessed(s, since, polls), channel));
    }
  }

  lemma CleanInit(s: Session, before: seq<seq<Processed>>, after: seq<seq<Processed>>, channel: string)
    requires CleanBeforeLast(s, after, channel) && |after| == |before| + 1 && after[..|before|] == before
    ensures AllClean(s, before, channel)
  {
    forall k | 0 <= k < |before| ensures Clean(s, before[k], channel) {
      assert after[k] == before[k];
    }
  }

  lemma {:induction false} CountedAtLeastOnce(s: Session, all: seq<Processed>, channel: string)
    ensures |Posts(s, all, channel)| <= Count(all, OperatorPostsOn(s, channel))
  {
    if all != [] {
      var n := |all| - 1;
      CountedAtLeastOnce(s, all[..n], channel);
      assert all == all[..n] + [all[n]];
      OnePost(s, all[n], channel);
      hide Posts, OperatorPostsOn;
      PostsUnion(s, all[..n], [all[n]], channel);
      CountAppend(all[..n], all[n], OperatorPostsOn(s, channel));
      UnionSize(Posts(s, all[..n], channel), Posts(s, [all[n]], channel));
    }
  }

  lemma OnePost(s: Session, p: Processed, channel: string)
    ensures |Posts(s, [p], channel)| == if OperatorPostsOn(s, channel)(p) then 1 else 0
  {
    hide OperatorPost;
    assert Posts(s, [p], channel) == if OperatorPostsOn(s, channel)(p) then {p.msg} else {};
  }

  /** Over any run whose lists keep what is unread, every post grants once if and only if
      each poll before the last that processes a post accepts something. */
  lemma {:induction false} GrantsOnceIff(s: Session, since: int, polls: seq<seq<Message>>, channel: string)
    requires GoodLists(s, since, polls)
    ensures GrantsOnce(s, Concat(Run(s, since, polls).1), channel)
            <==> CleanBeforeLast(s, Run(s, since, polls).1, channel)
  {
    var after := Run(s, since, polls).1;
    if CleanBeforeLast(s, after, channel) {
      CleanRunGrantsOnce(s, since, polls, channel);
    } else {
      var init := polls[..|polls| - 1];
      var before := Run(s, since, init).1;
      var last := LastProcessed(s, since, polls);
      OneMorePoll(s, since, polls, channel);
      GoodPrefix(s, since, polls);
      GrantsOnceIff(s, since, init, channel);
      CountedAtLeastOnce(s, Concat(before), channel);
      UnionSize(Posts(s, Concat(before), channel), Posts(s, last, channel));
      if CleanBeforeLast(s, before, channel) {
        DirtyLast(s, since, polls, channel);
      }
      hide Run, LastProcessed, Concat, Count, CleanBeforeLast;
    }
  }

  /** The first poll that is not clean is followed by one that processes its posts again. */
  lemma DirtyLast(s: Session, since: int, polls: seq<seq<Message>>, channel: string)
    requires polls != [] && GoodLists(s, since, polls)
    requires !CleanBeforeLast(s, Run(s, since, polls).1, channel)
    requires CleanBeforeLast(s, Run(s, since, polls[..|polls| - 1]).1, channel)
    ensures
      var before := Concat(Run(s, since, polls[..|polls| - 1]).1);
      !(Posts(s, before, channel) !! Posts(s, LastProcessed(s, since, polls), channel))
  {
    var init := polls[..|polls| - 1];
    var before, after := Run(s, since, init).1, Run(s, since, polls).1;
    OneMorePoll(s, since, polls, channel);
    WaitingReturn(s, since, polls, channel);
    hide Run, LastProcessed, Concat, Count, Posts, Accepted, GoodLists;
    assert !Clean(s, before[|before| - 1], channel) by {
      var k :| 0 <= k < |after| - 1 && !Clean(s, after[k], channel);
      assert before[k] == after[k];
    }
    SameLength(s, since, init);
    GoodListsOrdered(s, since, polls);
    OneMorePoll(s, since, init, channel);
    var m :| m in Posts(s, before[|before| - 1], channel);
  }

  lemma GoodListsOrdered(s: Session, since: int, polls: seq<seq<Message>>)
    requires polls != [] && GoodLists(s, since, polls)
    ensures OrderedLists(polls) && OrderedLists(polls[..|polls| - 1])
  {
    hide SortedByTime, NoRepeats, KeepsUnread;
  }

  lemma {:induction false} SameLength(s: Session, since: int, polls: seq<seq<Message>>)
    ensures |Run(s, since, polls).1| == |polls|
  {
    if polls != [] {
      SameLength(s, since, polls[..|polls| - 1]);
    }
  }

  /** Then the hops accepted on the channel number at most a grant for each post and one more. */
  lemma HopsWhenGrantedOnce(s: Session, since: int, polls: seq<seq<Message>>, channel: string)
    requires channel != "" && OrderedLists(polls) && CleanBeforeLast(s, Run(s, since, polls).1, channel)
    ensures
      var all := Concat(Run(s, since, polls).1);
      Count(all, HopsOn(channel)) <= Granted(s) * (|Posts(s, all, channel)| + 1)
  {
    CleanRunGrantsOnce(s, since, polls, channel);
    HandoffSafety(s, since, polls, channel);
  }

  // ----- The condition a caller can check -----

  /** Every post on the channel is addressed to us. */
  predicate PostsAddressed(s: Session, polls: seq<seq<Message>>, channel: string) {
    forall k, m | 0 <= k < |polls| && m in polls[k] && m.channel == channel && OperatorPost(s, m) :: Addressed(s, m)
  }

  lemma {:induction false} AddressedPostsPass(s: Session, since: int, budgets: Budgets, ordered: seq<Message>,
                                              channel: string)
    requires forall m | m in ordered && m.channel == channel && OperatorPost(s, m) :: Addressed(s, m)
    ensures Clean(s, HandleAll(s, since, budgets, ordered).processed, channel)
  {
    if ordered != [] {
      var init, m := ordered[..|ordered| - 1], ordered[|ordered| - 1];
      AddressedPostsPass(s, since, budgets, init, channel);
      if Fresh(m, since) {
        var before := HandleAll(s, since, budgets, init);
        var p := Processed(m, Handle(s, before.budgets, m).1);
        AcceptedAppend(before.processed, p);
        PostsUnion(s, before.processed, [p], channel);
        assert Posts(s, [p], channel) != {} ==> p.verdict.Passed?;
        hide HandleAll, Accepted;
        assert HandleAll(s, since, budgets, ordered).processed == before.processed + [p] by {
          OneMessage(s, since, budgets, ordered);
        }
      }
    }
  }

  lemma OneMessage(s: Session, since: int, budgets: Budgets, ordered: seq<Message>)
    requires ordered != [] && Fresh(ordered[|ordered| - 1], since)
    ensures
      var before := HandleAll(s, since, budgets, ordered[..|ordered| - 1]);
      var m := ordered[|ordered| - 1];
      HandleAll(s, since, budgets, ordered).processed
        == before.processed + [Processed(m, Handle(s, before.budgets, m).1)]
  {
  }

  lemma {:induction false} AddressedRunClean(s: Session, since: int, polls: seq<seq<Message>>, channel: string)
    requires PostsAddressed(s, polls, channel)
    ensures |Run(s, since, polls).1| == |polls| && AllClean(s, Run(s, since, polls).1, channel)
  {
    if polls != [] {
      var n := |polls| - 1;
      AddressedRunClean(s, since, polls[..n], channel);
      var c := Run(s, since, polls[..n]).0;
      AddressedPostsPass(s, c.lastSeen, c.budgets, polls[n], channel);
      hide HandleAll, Clean;
    }
  }

  /** When every post on the channel is addressed to us, each grants once. */
  lemma AddressedPostsGrantOnce(s: Session, since: int, polls: seq<seq<Message>>, channel: string)
    requires channel != "" && OrderedLists(polls) && PostsAddressed(s, polls, channel)
    ensures
      var all := Concat(Run(s, since, polls).1);
      && GrantsOnce(s, all, channel)
      && Count(all, HopsOn(channel)) <= Granted(s) * (|Posts(s, all, channel)| + 1)
  {
    AddressedRunClean(s, since, polls, channel);
    CleanRunGrantsOnce(s, since, polls, channel);
    HopsWhenGrantedOnce(s, since, polls, channel);
  }
}
