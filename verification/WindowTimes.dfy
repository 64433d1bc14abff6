/** The sliding windows' answers, told from the times of the events alone. */
module WindowTimes {
  import opened Seqs
  import opened Windows
  import opened WindowSets

  // ----- Logins -----

  /** An attempt is allowed if and only if its address made at most ten, this one and
      refused ones included, less than sixty seconds ago. */
  lemma LoginAllowedInTimes(attempts: seq<Attempt>, k: nat)
    requires InOrder(attempts) && k < |attempts|
    ensures LoginAllowed(attempts, k) <==> |InMinute(attempts, k)| <= 10
  {
    hide LoginAllowed, TimesOf, Count, InMinute, MadeAfter, InOrder;
    LoginAllowedExact(attempts, k);
    MadeAreCounted(attempts, attempts[k].ip, k + 1, attempts[k].at - LOGIN_WINDOW);
    MinuteIsAfter(attempts, k);
  }

  // ----- Floods -----

  /** A check finds a flood if and only if enough messages came less than the window ago. */
  lemma FloodInTimes(cfg: SnitchConfig, events: seq<Event>, k: nat)
    requires EventsInOrder(events) && k < |events| && events[k].Check?
    ensures Raised(cfg, events, k) <==> |RecentMsgs(cfg, events, k)| >= cfg.floodMessages
  {
    FloodExact(cfg, events, k);
    var cutoff := events[k].at - cfg.floodWindow;
    MsgsAreCounted(events, k, cutoff);
    hide Raised, MsgTimes, CountAfter;
    assert RecentMsgs(cfg, events, k) == MsgsAfter(events, k, cutoff);
  }

  // ----- Cycling -----

  /** A join or part reports cycling if and only if, with those since the last report that
      came less than the window ago, it reaches the threshold. */
  lemma CyclingInTimes(cfg: SnitchConfig, events: seq<Event>, r: nat, k: nat)
    requires EventsInOrder(events) && r <= k < |events| && events[k].JoinPart? && QuietSince(cfg, events, r, k)
    ensures Raised(cfg, events, k) <==> |RecentJoinParts(cfg, events, r, k)| + 1 >= cfg.joinPartThreshold
  {
    hide *;
    CyclingExact(cfg, events, k);
    JoinPartsAreCounted(cfg, events, r, k, events[k].at - cfg.joinPartWindow);
    RecentAreAfter(cfg, events, r, k);
  }
}
