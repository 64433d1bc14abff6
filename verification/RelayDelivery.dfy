/** Which messages addressed to us are never delivered. */
module RelayDelivery {
  import opened RelayFilter
  import opened RelayBudget
  import opened RelayPosts

  predicate Listed(polls: seq<seq<Message>>, m: Message) { exists k | 0 <= k < |polls| :: m in polls[k] }

  predicate Delivered(history: seq<seq<Processed>>, m: Message) {
    exists k | 0 <= k < |history| :: m in Accepted(history[k])
  }

  /** Refused for want of budget by a poll that accepted something else. */
  predicate RefusedForGood(history: seq<seq<Processed>>, m: Message) {
    exists k | 0 <= k < |history| :: Refuses(history[k], m) && Accepted(history[k]) != []
  }

  predicate Refuses(processed: seq<Processed>, m: Message) { Processed(m, Exhausted) in processed }

  /** First listed by poll k, when the cursor had already reached it. */
  predicate LateAt(s: Session, since: int, polls: seq<seq<Message>>, m: Message, k: nat) {
    k < |polls| && m in polls[k] && !Listed(polls[..k], m) && m.at <= Run(s, since, polls[..k]).0.lastSeen
  }

  ghost predicate ListedTooLate(s: Session, since: int, polls: seq<seq<Message>>, m: Message) {
    exists k: nat :: LateAt(s, since, polls, m, k)
  }

  // ----- One poll -----

  lemma {:induction false} AcceptedPassed(processed: seq<Processed>, m: Message)
    ensures m in Accepted(processed) <==> Processed(m, Passed) in processed
  {
    if processed != [] {
      var n := |processed| - 1;
      AcceptedPassed(processed[..n], m);
      assert processed == processed[..n] + [processed[n]];
    }
  }

  lemma {:induction false} AddressedNotIgnored(s: Session, since: int, budgets: Budgets, ordered: seq<Message>,
                                               m: Message)
    requires Addressed(s, m)
    ensures Processed(m, Ignored) !in HandleAll(s, since, budgets, ordered).processed
  {
    if ordered != [] {
      AddressedNotIgnored(s, since, budgets, ordered[..|ordered| - 1], m);
    }
  }

  /** A fresh message addressed to us either passes or is refused, and only then is it so. */
  lemma OneVerdict(s: Session, since: int, budgets: Budgets, ordered: seq<Message>, m: Message)
    requires NoRepeats(ordered) && Addressed(s, m)
    ensures
      var processed := HandleAll(s, since, budgets, ordered).processed;
      if m in ordered && Fresh(m, since) then m in Accepted(processed) <==> !Refuses(processed, m)
      else m !in Accepted(processed) && !Refuses(processed, m)
  {
    var processed := HandleAll(s, since, budgets, ordered).processed;
    ProcessedOnce(s, since, budgets, ordered);
    AddressedNotIgnored(s, since, budgets, ordered, m);
    AcceptedPassed(processed, m);
    hide HandleAll, Accepted, Addressed, NoRepeats, Fresh;
    if m in ordered && Fresh(m, since) {
      var i :| 0 <= i < |processed| && processed[i].msg == m;
      assert processed[i] in processed;
      assert processed[i] == Processed(m, processed[i].verdict);
    }
  }

  /** What the last poll of a run does with the message. */
  lemma LastPollVerdict(s: Session, since: int, polls: seq<seq<Message>>, m: Message)
    requires polls != [] && SortedByTime(polls[|polls| - 1]) && NoRepeats(polls[|polls| - 1])
    requires Addressed(s, m) && m.at != 0
    ensures
      var from, to := Run(s, since, polls[..|polls| - 1]).0.lastSeen, Run(s, since, polls).0.lastSeen;
      var last := LastProcessed(s, since, polls);
      && from <= to && (Accepted(last) == [] ==> from == to)
      && (if m in polls[|polls| - 1] && m.at > from
          then (m in Accepted(last) <==> !Refuses(last, m)) && (Accepted(last) != [] ==> m.at <= to)
          else m !in Accepted(last) && !Refuses(last, m))
  {
    var c := Run(s, since, polls[..|polls| - 1]).0;
    LastPoll(s, since, polls);
    CursorPasses(s, since, polls);
    OneVerdict(s, c.lastSeen, c.budgets, polls[|polls| - 1], m);
    var last := LastProcessed(s, since, polls);
    AcceptedPassed(last, m);
    hide Run, HandleAll, LastProcessed, Accepted, Addressed;
    if m in Accepted(last) {
      assert Processed(m, Passed) in last;
    } else if Refuses(last, m) {
      assert Processed(m, Exhausted) in last;
    }
  }

  // ----- Whole runs -----

  lemma HistoryMore(before: seq<seq<Processed>>, last: seq<Processed>, m: Message)
    ensures Delivered(before + [last], m) <==> Delivered(before, m) || m in Accepted(last)
    ensures RefusedForGood(before + [last], m)
            <==> RefusedForGood(before, m) || (Refuses(last, m) && Accepted(last) != [])
  {
    hide Accepted, Refuses;
    var after := before + [last];
    assert after[|before|] == last;
    assert forall k | 0 <= k < |before| :: after[k] == before[k];
  }

  lemma ListedMore(polls: seq<seq<Message>>, m: Message)
    requires polls != []
    ensures Listed(polls, m) <==> Listed(polls[..|polls| - 1], m) || m in polls[|polls| - 1]
  {
    var init := polls[..|polls| - 1];
    assert forall k | 0 <= k < |init| :: init[k] == polls[k];
  }

  lemma LateMore(s: Session, since: int, polls: seq<seq<Message>>, m: Message)
    requires polls != []
    ensures
      var init := polls[..|polls| - 1];
      ListedTooLate(s, since, polls, m)
      <==> ListedTooLate(s, since, init, m)
           || (m in polls[|polls| - 1] && !Listed(init, m) && m.at <= Run(s, since, init).0.lastSeen)
  {
    hide Run, Listed;
    var n := |polls| - 1;
    var init := polls[..n];
    forall k: nat | k < n ensures LateAt(s, since, polls, m, k) <==> LateAt(s, since, init, m, k) {
      assert polls[..k] == init[..k] && polls[k] == init[k];
    }
    var lastSeen := Run(s, since, init).0.lastSeen;
    assert LateAt(s, since, polls, m, n) <==> m in polls[n] && !Listed(init, m) && m.at <= lastSeen;
  }

  /** Where a message stands: not listed yet; still to be listed again; or behind the
      cursor, and then delivered unless it was listed too late or refused for good. */
  ghost predicate Stands(s: Session, since: int, polls: seq<seq<Message>>, m: Message) {
    var (c, history) := Run(s, since, polls);
    var lost := ListedTooLate(s, since, polls, m) || RefusedForGood(history, m);
    if Listed(polls, m) && m.at <= c.lastSeen then Delivered(history, m) <==> !lost
    else !lost && !Delivered(history, m) && (Listed(polls, m) ==> polls != [] && m in polls[|polls| - 1])
  }

  lemma {:induction false} StandsAlways(s: Session, since: int, polls: seq<seq<Message>>, m: Message)
    requires GoodLists(s, since, polls) && Addressed(s, m) && m.at != 0
    ensures Stands(s, since, polls, m)
  {
    if polls != [] {
      var init := polls[..|polls| - 1];
      GoodPrefix(s, since, polls);
      StandsAlways(s, since, init, m);
      RunMore(s, since, polls);
      HistoryMore(Run(s, since, init).1, LastProcessed(s, since, polls), m);
      ListedMore(polls, m);
      LateMore(s, since, polls, m);
      LastPollVerdict(s, since, polls, m);
      hide Run, LastProcessed, Accepted, Refuses, Delivered, RefusedForGood, Listed, ListedTooLate, Addressed;
      if Listed(init, m) && m.at > Run(s, since, init).0.lastSeen {
        assert m in init[|init| - 1] && init[|init| - 1] == polls[|polls| - 2];
        CarriedOn(s, since, polls, m);
      }
    }
  }

  lemma RunMore(s: Session, since: int, polls: seq<seq<Message>>)
    requires polls != []
    ensures Run(s, since, polls).1 == Run(s, since, polls[..|polls| - 1]).1 + [LastProcessed(s, since, polls)]
  {
  }

  lemma CarriedOn(s: Session, since: int, polls: seq<seq<Message>>, m: Message)
    requires GoodLists(s, since, polls) && |polls| >= 2 && m.at != 0
    requires m in polls[|polls| - 2] && m.at > Run(s, since, polls[..|polls| - 1]).0.lastSeen
    ensures m in polls[|polls| - 1]
  {
    hide Run;
    var next := |polls| - 1;
    assert Carries(Run(s, since, polls[..next]).0.lastSeen, polls[next - 1], polls[next]);
  }

  /** Over any run whose lists keep what is unread, a message addressed to us that has been
      listed is lost - the cursor is past it and it was not delivered - if and only if it
      was first listed when the cursor had reached it, or was refused for want of budget by
      a poll that accepted something. */
  lemma LostIff(s: Session, since: int, polls: seq<seq<Message>>, m: Message)
    requires GoodLists(s, since, polls) && Addressed(s, m) && m.at != 0 && Listed(polls, m)
    ensures
      var (c, history) := Run(s, since, polls);
      (m.at <= c.lastSeen && !Delivered(history, m))
      <==> ListedTooLate(s, since, polls, m) || RefusedForGood(history, m)
  {
    StandsAlways(s, since, polls, m);
    hide Run, Delivered, RefusedForGood, Listed, ListedTooLate, Addressed;
  }

  /** What is lost stays lost: no later poll delivers a message the cursor has passed. */
  lemma {:induction false} PassedStaysPassed(s: Session, since: int, polls: seq<seq<Message>>,
                                             more: seq<seq<Message>>, m: Message)
    requires OrderedLists(polls + more) && Addressed(s, m) && m.at != 0
    requires m.at <= Run(s, since, polls).0.lastSeen
    ensures m.at <= Run(s, since, polls + more).0.lastSeen
    ensures Delivered(Run(s, since, polls + more).1, m) <==> Delivered(Run(s, since, polls).1, m)
  {
    if more == [] {
      assert polls + more == polls;
    } else {
      var all, init := polls + more, more[..|more| - 1];
      assert all[..|all| - 1] == polls + init;
      assert OrderedLists(polls + init) && SortedByTime(all[|all| - 1]) && NoRepeats(all[|all| - 1]) by {
        assert forall k | 0 <= k < |polls + init| :: (polls + init)[k] == all[k];
      }
      PassedStaysPassed(s, since, polls, init, m);
      RunMore(s, since, all);
      HistoryMore(Run(s, since, polls + init).1, LastProcessed(s, since, all), m);
      LastPollVerdict(s, since, all, m);
      hide Run, LastProcessed, Accepted, Refuses, Delivered, RefusedForGood, Addressed;
    }
  }
}
