/** The relay's input side: which polled messages reach the agent, the budget of
    agent-to-agent hops per channel, and the cursor between polls. */
module RelayFilter {
  import opened Seqs

  /** A polled message with what the filter reads off it: whether the sender is a
      service bot, whether its nick carries an activity prefix (another agent), and
      whether the text mentions this nick or one of its groups. `at` counts from
      Go's zero time, so 0 is a missing timestamp. */
  datatype Message = Message(
    at: int, channel: string, nick: string,
    service: bool, activity: bool, mention: bool, groupMention: bool)

  /** What became of a message. Stale ones are not processed at all. */
  datatype Verdict = Ignored | Exhausted | Passed

  datatype Processed = Processed(msg: Message, verdict: Verdict)

  type Budgets = map<string, int>

  /** The relay session: its nick and the grant an operator post restores. */
  datatype Session = Session(nick: string, grant: int)

  predicate Fresh(m: Message, since: int) { m.at != 0 && m.at > since }

  /** Neither our own post nor a service bot's. */
  predicate Foreign(s: Session, m: Message) { m.nick != s.nick && !m.service }

  predicate OperatorPost(s: Session, m: Message) { Foreign(s, m) && !m.activity }

  /** Addressed to us: agents must name the nick, operators may name a group. */
  predicate Addressed(s: Session, m: Message) {
    Foreign(s, m) && if m.activity then m.mention else m.mention || m.groupMention
  }

  function Budget(budgets: Budgets, channel: string, grant: int): int {
    if channel in budgets then budgets[channel] else grant
  }

  /** One fresh message: the budgets it leaves and its verdict. */
  function Handle(s: Session, budgets: Budgets, m: Message): (Budgets, Verdict) {
    if OperatorPost(s, m) then
      var budgets' := if m.channel == "" then budgets else budgets[m.channel := s.grant];
      (budgets', if Addressed(s, m) then Passed else Ignored)
    else if !Addressed(s, m) then (budgets, Ignored)
    else if m.channel == "" then (budgets, Passed)
    else
      var left := Budget(budgets, m.channel, s.grant);
      if left <= 0 then (budgets[m.channel := left], Exhausted)
      else (budgets[m.channel := left - 1], Passed)
  }

  /** The outcome of handling a list: every processed message with its verdict,
      the newest timestamp, and the budgets. */
  datatype Outcome = Outcome(processed: seq<Processed>, newest: int, budgets: Budgets)

  function HandleAll(s: Session, since: int, budgets: Budgets, ordered: seq<Message>): Outcome {
    if ordered == [] then Outcome([], since, budgets)
    else
      var before := HandleAll(s, since, budgets, ordered[..|ordered| - 1]);
      var m := ordered[|ordered| - 1];
      if !Fresh(m, since) then before
      else
        var (budgets', verdict) := Handle(s, before.budgets, m);
        var newest := if m.at > before.newest then m.at else before.newest;
        Outcome(before.processed + [Processed(m, verdict)], newest, budgets')
  }

  function Accepted(processed: seq<Processed>): seq<Message> {
    if processed == [] then []
    else
      var last := processed[|processed| - 1];
      Accepted(processed[..|processed| - 1]) + (if last.verdict.Passed? then [last.msg] else [])
  }

  predicate SortedByTime(ms: seq<Message>) {
    forall i, j :: 0 <= i < j < |ms| ==> ms[i].at <= ms[j].at
  }

  /** `ordered` is one of the lists sort.Slice may produce: the sort is not stable. */
  ghost predicate SortOf(ms: seq<Message>, ordered: seq<Message>) {
    multiset(ordered) == multiset(ms) && SortedByTime(ordered)
  }

  // ----- The code -----

  class RelayState {
    var handoffBudget: Budgets

    constructor ()
      ensures handoffBudget == map[]
    {
      handoffBudget := map[];
    }

    method ResetHandoff(channel: string, budget: int)
      modifies this
      ensures handoffBudget == if channel == "" then old(handoffBudget) else old(handoffBudget)[channel := budget]
    {
      if channel == "" {
        return;
      }
      handoffBudget := handoffBudget[channel := budget];
    }

    /** True when there was budget to consume; a channel never seen starts at `initial`. */
    method ConsumeHandoff(channel: string, initial: int) returns (ok: bool)
      modifies this
      ensures ok == (channel == "" || Budget(old(handoffBudget), channel, initial) > 0)
      ensures handoffBudget ==
              if channel == "" then old(handoffBudget)
              else old(handoffBudget)[channel := Budget(old(handoffBudget), channel, initial) - (if ok then 1 else 0)]
    {
      if channel == "" {
        return true;
      }
      if channel !in handoffBudget {
        handoffBudget := handoffBudget[channel := initial];
      }
      if handoffBudget[channel] <= 0 {
        return false;
      }
      handoffBudget := handoffBudget[channel := handoffBudget[channel] - 1];
      return true;
    }
  }

  function InsertByTime(ordered: seq<Message>, m: Message): (r: seq<Message>)
    requires SortedByTime(ordered)
    ensures SortedByTime(r) && multiset(r) == multiset(ordered) + multiset{m}
    ensures |r| == |ordered| + 1
    ensures r[|r| - 1].at == if ordered == [] || ordered[|ordered| - 1].at <= m.at then m.at
                             else ordered[|ordered| - 1].at
  {
    var n := |ordered| - 1;
    if ordered == [] || ordered[n].at <= m.at then ordered + [m]
    else
      assert ordered == ordered[..n] + [ordered[n]];
      InsertByTime(ordered[..n], m) + [ordered[n]]
  }

  /** Stands for sort.Slice; callers know only that the result is sorted. */
  method SortByTime(ms: seq<Message>) returns (ordered: seq<Message>)
    ensures SortOf(ms, ordered)
  {
    ordered := [];
    for i := 0 to |ms|
      invariant SortOf(ms[..i], ordered)
    {
      ordered := InsertByTime(ordered, ms[i]);
      assert ms[..i + 1] == ms[..i] + [ms[i]];
    }
    assert ms[..|ms|] == ms;
  }

  /** The filter's loop body for a message newer than the cursor. */
  method FilterFresh(msg: Message, nick: string, state: RelayState, budget: int) returns (pass: bool)
    modifies state
    ensures var (budgets, verdict) := Handle(Session(nick, budget), old(state.handoffBudget), msg);
            state.handoffBudget == budgets && (pass <==> verdict.Passed?)
    ensures msg.service || msg.nick == nick ==> !pass && state.handoffBudget == old(state.handoffBudget)
    ensures !msg.service && msg.nick != nick && !msg.activity ==> pass == (msg.mention || msg.groupMention)
    ensures !msg.service && msg.nick != nick && msg.activity ==>
              pass == (msg.mention && (msg.channel == "" || Budget(old(state.handoffBudget), msg.channel, budget) > 0))
  {
    if msg.nick == nick {
      return false;
    }
    if msg.service {
      return false;
    }
    if !msg.activity {
      state.ResetHandoff(msg.channel, budget);
    }
    if msg.activity && !msg.mention {
      return false;
    }
    if !msg.mention && !msg.groupMention {
      return false;
    }
    if msg.activity {
      var ok := state.ConsumeHandoff(msg.channel, budget);
      if !ok {
        return false;
      }
    }
    return true;
  }

  lemma AcceptedAppend(processed: seq<Processed>, p: Processed)
    ensures Accepted(processed + [p]) == Accepted(processed) + (if p.verdict.Passed? then [p.msg] else [])
  {
    assert (processed + [p])[..|processed|] == processed;
  }

  lemma HandleOneMore(s: Session, since: int, budgets: Budgets, ordered: seq<Message>, i: nat)
    requires i < |ordered|
    ensures
      var before := HandleAll(s, since, budgets, ordered[..i]);
      var after := HandleAll(s, since, budgets, ordered[..i + 1]);
      var m := ordered[i];
      if !Fresh(m, since) then after == before
      else
        var (budgets', verdict) := Handle(s, before.budgets, m);
        && after.budgets == budgets'
        && after.newest == (if m.at > before.newest then m.at else before.newest)
        && Accepted(after.processed) == Accepted(before.processed) + (if verdict.Passed? then [m] else [])
  {
    assert ordered[..i + 1][..i] == ordered[..i];
    var before := HandleAll(s, since, budgets, ordered[..i]);
    AcceptedAppend(before.processed, Processed(ordered[i], Handle(s, before.budgets, ordered[i]).1));
  }

  method FilterMessagesState(messages: seq<Message>, since: int, nick: string, state: RelayState, budget: int)
    returns (filtered: seq<Message>, newest: int, ghost ordered: seq<Message>)
    modifies state
    ensures SortOf(messages, ordered)
    ensures var out := HandleAll(Session(nick, budget), since, old(state.handoffBudget), ordered);
            filtered == Accepted(out.processed) && newest == out.newest && state.handoffBudget == out.budgets
  {
    filtered := [];
    newest := since;
    var inOrder := SortByTime(messages);
    ordered := inOrder;
    ghost var session := Session(nick, budget);
    ghost var budgets0 := state.handoffBudget;
    for i := 0 to |inOrder|
      invariant filtered == Accepted(HandleAll(session, since, budgets0, ordered[..i]).processed)
      invariant newest == HandleAll(session, since, budgets0, ordered[..i]).newest
      invariant state.handoffBudget == HandleAll(session, since, budgets0, ordered[..i]).budgets
    {
      var msg := inOrder[i];
      HandleOneMore(session, since, budgets0, ordered, i);
      if msg.at == 0 || msg.at <= since {
        continue;
      }
      if msg.at > newest {
        newest := msg.at;
      }
      var pass := FilterFresh(msg, nick, state, budget);
      if pass {
        filtered := filtered + [msg];
      }
    }
    assert ordered[..|ordered|] == ordered;
  }

  // ----- The input loop -----

  /** What relayInputLoop carries from one poll to the next. */
  datatype Cursor = Cursor(lastSeen: int, budgets: Budgets)

  /** One poll, given the order the sort chose: the cursor moves only when
      something was accepted, the budgets always do. */
  function Poll(s: Session, c: Cursor, ordered: seq<Message>): (Cursor, seq<Processed>) {
    var out := HandleAll(s, c.lastSeen, c.budgets, ordered);
    (Cursor(if Accepted(out.processed) == [] then c.lastSeen else out.newest, out.budgets), out.processed)
  }

  /** A run of polls from a session that has seen no channel yet: the cursor it
      ends with and what each poll processed. */
  function Run(s: Session, since: int, polls: seq<seq<Message>>): (Cursor, seq<seq<Processed>>) {
    if polls == [] then (Cursor(since, map[]), [])
    else
      var (c, history) := Run(s, since, polls[..|polls| - 1]);
      var (c', processed) := Poll(s, c, polls[|polls| - 1]);
      (c', history + [processed])
  }

  class RelayInput {
    const nick: string
    const grant: int
    const state: RelayState
    var lastSeen: int

    constructor (nick: string, grant: int, state: RelayState, since: int)
      ensures this.nick == nick && this.grant == grant && this.state == state && lastSeen == since
    {
      this.nick, this.grant, this.state, lastSeen := nick, grant, state, since;
    }

    ghost function Abs(): Cursor
      reads this, state
    {
      Cursor(lastSeen, state.handoffBudget)
    }

    /** One tick of relayInputLoop. */
    method PollOnce(messages: seq<Message>) returns (batch: seq<Message>, ghost ordered: seq<Message>)
      modifies this, state
      ensures SortOf(messages, ordered)
      ensures Abs() == Poll(Session(nick, grant), old(Abs()), ordered).0
      ensures batch == Accepted(Poll(Session(nick, grant), old(Abs()), ordered).1)
    {
      var newest;
      batch, newest, ordered := FilterMessagesState(messages, lastSeen, nick, state, grant);
      if |batch| == 0 {
        return;
      }
      lastSeen := newest;
    }
  }

  // ----- Handoff safety -----

  /** Agent-to-agent messages accepted on the channel since the last operator post there. */
  function HopsSinceOperator(s: Session, history: seq<Processed>, channel: string): nat {
    if history == [] then 0
    else
      var last := history[|history| - 1];
      if last.msg.channel == channel && OperatorPost(s, last.msg) then 0
      else
        HopsSinceOperator(s, history[..|history| - 1], channel)
        + (if last.msg.channel == channel && last.msg.activity && last.verdict.Passed? then 1 else 0)
  }

  /** Operator posts and agent-to-agent acceptances on the channel, over the whole history. */
  function OperatorPostsOn(s: Session, channel: string): Processed -> bool {
    (p: Processed) => p.msg.channel == channel && OperatorPost(s, p.msg)
  }

  function HopsOn(channel: string): Processed -> bool {
    (p: Processed) => p.msg.channel == channel && p.msg.activity && p.verdict.Passed?
  }

  function Granted(s: Session): nat { if s.grant > 0 then s.grant else 0 }

  ghost predicate BudgetInv(s: Session, history: seq<Processed>, budgets: Budgets, channel: string) {
    var hops := HopsSinceOperator(s, history, channel);
    && hops <= Granted(s)
    && (if channel in budgets then budgets[channel] == s.grant - hops else hops == 0)
    && Count(history, HopsOn(channel)) <= Granted(s) * Count(history, OperatorPostsOn(s, channel)) + hops
  }

  lemma HandleKeepsBudget(s: Session, history: seq<Processed>, budgets: Budgets, m: Message, channel: string)
    requires channel != "" && BudgetInv(s, history, budgets, channel)
    ensures
      var (budgets', verdict) := Handle(s, budgets, m);
      BudgetInv(s, history + [Processed(m, verdict)], budgets', channel)
  {
    var (budgets', verdict) := Handle(s, budgets, m);
    var p := Processed(m, verdict);
    assert (history + [p])[..|history|] == history;
    CountAppend(history, p, HopsOn(channel));
    CountAppend(history, p, OperatorPostsOn(s, channel));
    OneMoreGrant(Granted(s), Count(history, OperatorPostsOn(s, channel)));
  }

  lemma OneMoreGrant(grant: nat, posts: nat)
    ensures grant * (posts + 1) == grant * posts + grant
  {}

  lemma {:induction false} HandleAllKeepsBudget(
      s: Session, history: seq<Processed>, since: int, budgets: Budgets, ordered: seq<Message>, channel: string)
    requires channel != "" && BudgetInv(s, history, budgets, channel)
    ensures
      var out := HandleAll(s, since, budgets, ordered);
      BudgetInv(s, history + out.processed, out.budgets, channel)
  {
    if ordered == [] {
      assert history + [] == history;
    } else {
      var init := ordered[..|ordered| - 1];
      var m := ordered[|ordered| - 1];
      HandleAllKeepsBudget(s, history, since, budgets, init, channel);
      if Fresh(m, since) {
        var before := HandleAll(s, since, budgets, init);
        HandleKeepsBudget(s, history + before.processed, before.budgets, m, channel);
        var p := Processed(m, Handle(s, before.budgets, m).1);
        assert history + (before.processed + [p]) == (history + before.processed) + [p];
      }
    }
  }

  lemma {:induction false} RunKeepsBudget(s: Session, since: int, polls: seq<seq<Message>>, channel: string)
    requires channel != ""
    ensures
      var (c, history) := Run(s, since, polls);
      BudgetInv(s, Concat(history), c.budgets, channel)
  {
    if polls != [] {
      RunKeepsBudget(s, since, polls[..|polls| - 1], channel);
      var (c, history) := Run(s, since, polls[..|polls| - 1]);
      var ordered := polls[|polls| - 1];
      HandleAllKeepsBudget(s, Concat(history), c.lastSeen, c.budgets, ordered, channel);
      ConcatAppend(history, Poll(s, c, ordered).1);
    }
  }

  /** Handoff safety over any run of polls: since the last operator post processed
      on a channel, at most the grant's worth of agent-to-agent messages has been
      accepted there; the stored budget is what remains of the grant, a channel
      not stored has accepted none; and over the whole run the acceptances are
      bounded by one grant more than the operator posts. */
  lemma HandoffSafety(s: Session, since: int, polls: seq<seq<Message>>, channel: string)
    requires channel != ""
    ensures
      var (c, history) := Run(s, since, polls);
      var all := Concat(history);
      var hops := HopsSinceOperator(s, all, channel);
      && hops <= Granted(s)
      && (if channel in c.budgets then c.budgets[channel] == s.grant - hops else hops == 0)
      && Count(all, HopsOn(channel)) <= Granted(s) * (Count(all, OperatorPostsOn(s, channel)) + 1)
  {
    RunKeepsBudget(s, since, polls, channel);
    OneMoreGrant(Granted(s), Count(Concat(Run(s, since, polls).1), OperatorPostsOn(s, channel)));
  }

  /** The verdict on the k-th message processed, read off the history alone: what is
      not addressed to us is ignored, and an agent's message on a channel passes
      exactly while hops are left since the last operator post there. */
  ghost predicate VerdictRight(s: Session, history: seq<Processed>, k: nat)
    requires k < |history|
  {
    var m := history[k].msg;
    var spent := m.activity && m.channel != "" && HopsSinceOperator(s, history[..k], m.channel) >= Granted(s);
    history[k].verdict == if !Addressed(s, m) then Ignored else if spent then Exhausted else Passed
  }

  ghost predicate VerdictsRight(s: Session, history: seq<Processed>) {
    forall k | 0 <= k < |history| :: VerdictRight(s, history, k)
  }

  ghost predicate BudgetsRight(s: Session, history: seq<Processed>, budgets: Budgets) {
    forall channel | channel != "" :: BudgetInv(s, history, budgets, channel)
  }

  lemma HandleJudgesRight(s: Session, history: seq<Processed>, budgets: Budgets, m: Message)
    requires BudgetsRight(s, history, budgets) && VerdictsRight(s, history)
    ensures
      var (budgets', verdict) := Handle(s, budgets, m);
      && BudgetsRight(s, history + [Processed(m, verdict)], budgets')
      && VerdictsRight(s, history + [Processed(m, verdict)])
  {
    var (budgets', verdict) := Handle(s, budgets, m);
    var p := Processed(m, verdict);
    forall channel | channel != "" ensures BudgetInv(s, history + [p], budgets', channel) {
      HandleKeepsBudget(s, history, budgets, m, channel);
    }
    forall k | 0 <= k < |history + [p]| ensures VerdictRight(s, history + [p], k) {
      assert (history + [p])[..k] == if k < |history| then history[..k] else history;
      if k < |history| {
        assert VerdictRight(s, history, k);
      } else {
        assert m.channel != "" ==> BudgetInv(s, history, budgets, m.channel);
      }
    }
  }

  lemma {:induction false} HandleAllJudgesRight(
      s: Session, history: seq<Processed>, since: int, budgets: Budgets, ordered: seq<Message>)
    requires BudgetsRight(s, history, budgets) && VerdictsRight(s, history)
    ensures
      var out := HandleAll(s, since, budgets, ordered);
      BudgetsRight(s, history + out.processed, out.budgets) && VerdictsRight(s, history + out.processed)
  {
    hide BudgetsRight, VerdictsRight;
    if ordered == [] {
      assert history + [] == history;
    } else {
      var init := ordered[..|ordered| - 1];
      var m := ordered[|ordered| - 1];
      HandleAllJudgesRight(s, history, since, budgets, init);
      if Fresh(m, since) {
        var before := HandleAll(s, since, budgets, init);
        HandleJudgesRight(s, history + before.processed, before.budgets, m);
        var p := Processed(m, Handle(s, before.budgets, m).1);
        assert history + (before.processed + [p]) == (history + before.processed) + [p];
      }
    }
  }

  /** Over any run of polls, every verdict is what the processed history alone calls for:
      the budgets the relay stores are an exact summary of it. */
  lemma {:induction false} VerdictsFollowHistory(s: Session, since: int, polls: seq<seq<Message>>)
    ensures BudgetsRight(s, Concat(Run(s, since, polls).1), Run(s, since, polls).0.budgets)
    ensures VerdictsRight(s, Concat(Run(s, since, polls).1))
  {
    if polls != [] {
      hide VerdictsRight, HandleAll;
      VerdictsFollowHistory(s, since, polls[..|polls| - 1]);
      var (c, history) := Run(s, since, polls[..|polls| - 1]);
      var ordered := polls[|polls| - 1];
      HandleAllJudgesRight(s, Concat(history), c.lastSeen, c.budgets, ordered);
      ConcatAppend(history, Poll(s, c, ordered).1);
    }
  }

  // ----- The delivery cursor -----

  lemma {:induction false} AcceptedWereProcessed(processed: seq<Processed>, m: Message)
    requires m in Accepted(processed)
    ensures Processed(m, Passed) in processed
  {
    var last := processed[|processed| - 1];
    assert processed == processed[..|processed| - 1] + [last];
    if m in Accepted(processed[..|processed| - 1]) {
      AcceptedWereProcessed(processed[..|processed| - 1], m);
    }
  }

  /** What a poll processes is newer than the cursor, no newer than the timestamp
      it reports, and in time order. */
  lemma {:induction false} HandleAllInWindow(s: Session, since: int, budgets: Budgets, ordered: seq<Message>)
    requires SortedByTime(ordered)
    ensures
      var out := HandleAll(s, since, budgets, ordered);
      && since <= out.newest
      && (forall p | p in out.processed :: since < p.msg.at <= out.newest)
      && (forall i, j | 0 <= i < j < |out.processed| :: out.processed[i].msg.at <= out.processed[j].msg.at)
      && (forall p | p in out.processed :: p.msg in ordered)
  {
    if ordered != [] {
      var init := ordered[..|ordered| - 1];
      HandleAllInWindow(s, since, budgets, init);
      var before := HandleAll(s, since, budgets, init);
      assert forall p | p in before.processed :: p.msg in init && p.msg.at <= ordered[|ordered| - 1].at;
    }
  }

  lemma {:induction false} AcceptedInOrder(processed: seq<Processed>)
    requires forall i, j | 0 <= i < j < |processed| :: processed[i].msg.at <= processed[j].msg.at
    ensures SortedByTime(Accepted(processed))
  {
    if processed != [] {
      var init := processed[..|processed| - 1];
      AcceptedInOrder(init);
      forall m | m in Accepted(init)
        ensures m.at <= processed[|processed| - 1].msg.at
      {
        AcceptedWereProcessed(init, m);
      }
    }
  }

  ghost predicate AllSorted(polls: seq<seq<Message>>) {
    forall i | 0 <= i < |polls| :: SortedByTime(polls[i])
  }

  /** What each poll delivered. */
  function Batches(history: seq<seq<Processed>>): (r: seq<seq<Message>>)
    ensures |r| == |history| && forall k | 0 <= k < |r| :: r[k] == Accepted(history[k])
  {
    seq(|history|, k requires 0 <= k < |history| => Accepted(history[k]))
  }

  predicate NoneNewer(batch: seq<Message>, time: int) { forall m | m in batch :: m.at <= time }

  predicate StrictlyNewer(early: seq<Message>, late: seq<Message>) {
    forall m, n | m in early && n in late :: m.at < n.at
  }

  ghost predicate CursorInv(lastSeen: int, batches: seq<seq<Message>>) {
    && (forall k | 0 <= k < |batches| :: NoneNewer(batches[k], lastSeen) && SortedByTime(batches[k]))
    && (forall i, j | 0 <= i < j < |batches| :: StrictlyNewer(batches[i], batches[j]))
  }

  lemma CursorExtend(lastSeen: int, batches: seq<seq<Message>>, batch: seq<Message>, newest: int)
    requires CursorInv(lastSeen, batches) && SortedByTime(batch)
    requires forall m | m in batch :: lastSeen < m.at <= newest
    ensures CursorInv(if batch == [] then lastSeen else newest, batches + [batch])
  {
    var lastSeen' := if batch == [] then lastSeen else newest;
    if batch != [] {
      assert lastSeen < batch[0].at <= newest;
    }
    assert lastSeen <= lastSeen';
    forall k | 0 <= k < |batches|
      ensures NoneNewer(batches[k], lastSeen') && StrictlyNewer(batches[k], batch)
    {
      assert NoneNewer(batches[k], lastSeen);
    }
  }

  lemma PollDelivers(s: Session, c: Cursor, ordered: seq<Message>)
    requires SortedByTime(ordered)
    ensures
      var out := HandleAll(s, c.lastSeen, c.budgets, ordered);
      && SortedByTime(Accepted(out.processed))
      && forall m | m in Accepted(out.processed) :: c.lastSeen < m.at <= out.newest
  {
    HandleAllInWindow(s, c.lastSeen, c.budgets, ordered);
    var out := HandleAll(s, c.lastSeen, c.budgets, ordered);
    AcceptedInOrder(out.processed);
    forall m | m in Accepted(out.processed)
      ensures c.lastSeen < m.at <= out.newest
    {
      AcceptedWereProcessed(out.processed, m);
    }
  }

  lemma {:induction false} RunKeepsCursor(s: Session, since: int, polls: seq<seq<Message>>)
    requires AllSorted(polls)
    ensures CursorInv(Run(s, since, polls).0.lastSeen, Batches(Run(s, since, polls).1))
  {
    if polls != [] {
      var init, ordered := polls[..|polls| - 1], polls[|polls| - 1];
      assert AllSorted(init);
      RunKeepsCursor(s, since, init);
      var (c, history) := Run(s, since, init);
      PollDelivers(s, c, ordered);
      var out := HandleAll(s, c.lastSeen, c.budgets, ordered);
      CursorExtend(c.lastSeen, Batches(history), Accepted(out.processed), out.newest);
      assert Batches(history + [out.processed]) == Batches(history) + [Accepted(out.processed)];
    }
  }

  /** Messages accepted by a later poll are strictly newer than all those accepted
      by an earlier one, so none is delivered in two polls; within a poll they come
      in time order. */
  lemma DeliveredOnceInOrder(s: Session, since: int, polls: seq<seq<Message>>, i: nat, j: nat)
    requires AllSorted(polls) && i <= j < |Run(s, since, polls).1|
    ensures
      var batches := Batches(Run(s, since, polls).1);
      && SortedByTime(batches[i])
      && (i < j ==> StrictlyNewer(batches[i], batches[j]))
      && (i < j ==> forall m | m in batches[i] :: m !in batches[j])
  {
    RunKeepsCursor(s, since, polls);
  }

  // ----- The order of the list -----

  /** No two different messages share a timestamp. */
  predicate TimesIdentify(ms: seq<Message>) {
    forall i, j | 0 <= i < |ms| && 0 <= j < |ms| && ms[i].at == ms[j].at :: ms[i] == ms[j]
  }

  lemma SameLast(a: seq<Message>, b: seq<Message>)
    requires multiset(a) == multiset(b) && SortedByTime(a) && SortedByTime(b)
    requires TimesIdentify(a) && a != []
    ensures |b| == |a| && b[|b| - 1] == a[|a| - 1]
  {
    assert |a| == |multiset(a)| == |multiset(b)| == |b|;
    var n := |a| - 1;
    assert a[n] in multiset(b) && b[n] in multiset(a);
    var i :| 0 <= i < |b| && b[i] == a[n];
    var j :| 0 <= j < |a| && a[j] == b[n];
    assert a[j].at <= a[n].at && b[i].at <= b[n].at;
  }

  lemma PrefixesKeep(a: seq<Message>, n: nat)
    requires n <= |a|
    ensures SortedByTime(a) ==> SortedByTime(a[..n])
    ensures TimesIdentify(a) ==> TimesIdentify(a[..n])
  {}

  lemma {:induction false} SortIsUnique(a: seq<Message>, b: seq<Message>)
    requires multiset(a) == multiset(b) && SortedByTime(a) && SortedByTime(b)
    requires TimesIdentify(a)
    ensures a == b
  {
    hide *;
    if a == [] {
      assert |multiset(b)| == 0;
    } else {
      var n := |a| - 1;
      SameLast(a, b);
      MultisetDropLast(a);
      MultisetDropLast(b);
      PrefixesKeep(a, n);
      PrefixesKeep(b, n);
      SortIsUnique(a[..n], b[..n]);
      EqualByInit(a, b);
    }
  }

  /** With distinct timestamps a poll's outcome does not depend on the order in
      which the messages are listed, nor on how the sort breaks ties. */
  lemma PollIgnoresListOrder(s: Session, c: Cursor, list: seq<Message>, shuffled: seq<Message>,
                             ordered: seq<Message>, orderedToo: seq<Message>)
    requires multiset(list) == multiset(shuffled) && TimesIdentify(list)
    requires SortOf(list, ordered) && SortOf(shuffled, orderedToo)
    ensures Poll(s, c, ordered) == Poll(s, c, orderedToo)
  {
    forall i, j | 0 <= i < |ordered| && 0 <= j < |ordered| && ordered[i].at == ordered[j].at
      ensures ordered[i] == ordered[j]
    {
      assert ordered[i] in multiset(list) && ordered[j] in multiset(list);
      assert ordered[i] in list && ordered[j] in list;
    }
    SortIsUnique(ordered, orderedToo);
  }

  /** Two agents name us on a channel with one hop left: the first gets it. */
  lemma OneHopLeft(s: Session, since: int, a: Message, b: Message)
    requires s.grant == 1 && a.channel == b.channel != ""
    requires Fresh(a, since) && Addressed(s, a) && a.activity
    requires Fresh(b, since) && Addressed(s, b) && b.activity
    ensures Accepted(HandleAll(s, since, map[], [a, b]).processed) == [a]
  {
    LastHop(s, a, b);
    HandleNothing(s, since, map[]);
    hide *;
    assert [a, b][..0] == [] && [a, b][..1] == [a] && [a, b][..2] == [a, b];
    HandleOneMore(s, since, map[], [a, b], 0);
    HandleOneMore(s, since, map[], [a, b], 1);
  }

  lemma TieHasTwoSorts(a: Message, b: Message)
    requires a.at == b.at
    ensures SortOf([a, b], [a, b]) && SortOf([a, b], [b, a])
  {
    SwapPair(a, b);
  }

  lemma HandleNothing(s: Session, since: int, budgets: Budgets)
    ensures HandleAll(s, since, budgets, []) == Outcome([], since, budgets)
    ensures Accepted([]) == []
  {}

  lemma LastHop(s: Session, a: Message, b: Message)
    requires s.grant == 1 && a.channel == b.channel != ""
    requires Addressed(s, a) && a.activity && Addressed(s, b) && b.activity
    ensures Handle(s, map[], a) == (map[a.channel := 0], Passed)
    ensures Handle(s, map[a.channel := 0], b).1 == Exhausted
  {}

  /** With equal timestamps the order does matter: when two agents name us at the
      same instant on a channel with one hop left, the tie decides who is heard. */
  lemma TiesMatter(s: Session, since: int, a: Message, b: Message)
    requires s.grant == 1 && a.channel == b.channel != "" && a != b && a.at == b.at
    requires Fresh(a, since) && Addressed(s, a) && a.activity
    requires Fresh(b, since) && Addressed(s, b) && b.activity
    ensures SortOf([a, b], [a, b]) && SortOf([a, b], [b, a])
    ensures Accepted(Poll(s, Cursor(since, map[]), [a, b]).1) == [a]
    ensures Accepted(Poll(s, Cursor(since, map[]), [b, a]).1) == [b]
  {
    OneHopLeft(s, since, a, b);
    OneHopLeft(s, since, b, a);
    TieHasTwoSorts(a, b);
    hide HandleAll, Accepted, SortOf, Fresh, Addressed;
  }
}
