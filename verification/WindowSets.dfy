/** Attempts, messages, joins and parts as sets of events.

    The sliding windows keep lists of times. What follows counts those lists by the
    events whose times they hold: which attempts of an address, which messages, and
    which joins and parts since the last report lie after a given time. */
module WindowSets {
  import opened Seqs
  import opened Windows

  // ----- Logins -----

  /** The attempts of attempt k's address in the minute that ends with it. */
  function InMinute(attempts: seq<Attempt>, k: nat): set<nat>
    requires k < |attempts|
  {
    set j: nat | j <= k && attempts[j].ip == attempts[k].ip && attempts[k].at - attempts[j].at < 60_000_000_000
  }

  function MadeAfter(attempts: seq<Attempt>, ip: string, n: nat, cutoff: int): set<nat>
    requires n <= |attempts|
  {
    set j: nat | j < n && attempts[j].ip == ip && attempts[j].at > cutoff
  }

  lemma {:induction false} MadeAreCounted(attempts: seq<Attempt>, ip: string, n: nat, cutoff: int)
    requires n <= |attempts|
    ensures |MadeAfter(attempts, ip, n, cutoff)| == Count(TimesOf(attempts[..n], ip), After(cutoff))
  {
    hide *;
    if n == 0 {
      NoneMade(attempts, ip, cutoff);
    } else {
      MadeAreCounted(attempts, ip, n - 1, cutoff);
      CountOneMore(attempts, ip, n - 1, cutoff);
      OneMoreMade(attempts, ip, n, cutoff);
    }
  }

  lemma NoneMade(attempts: seq<Attempt>, ip: string, cutoff: int)
    ensures |MadeAfter(attempts, ip, 0, cutoff)| == Count(TimesOf(attempts[..0], ip), After(cutoff))
  {
    assert MadeAfter(attempts, ip, 0, cutoff) == {};
  }

  lemma OneMoreMade(attempts: seq<Attempt>, ip: string, n: nat, cutoff: int)
    requires 0 < n <= |attempts|
    ensures |MadeAfter(attempts, ip, n, cutoff)|
            == |MadeAfter(attempts, ip, n - 1, cutoff)|
               + if attempts[n - 1].ip == ip && attempts[n - 1].at > cutoff then 1 else 0
  {
    var before := MadeAfter(attempts, ip, n - 1, cutoff);
    var now := attempts[n - 1].ip == ip && attempts[n - 1].at > cutoff;
    assert MadeAfter(attempts, ip, n, cutoff) == if now then before + {n - 1} else before;
  }

  lemma MinuteIsAfter(attempts: seq<Attempt>, k: nat)
    requires k < |attempts|
    ensures InMinute(attempts, k) == MadeAfter(attempts, attempts[k].ip, k + 1, attempts[k].at - LOGIN_WINDOW)
  {
  }

  // ----- Floods -----

  /** The messages recorded before event k, less than the flood window ago. */
  function RecentMsgs(cfg: SnitchConfig, events: seq<Event>, k: nat): set<nat>
    requires k < |events|
  {
    set j: nat | j < k && events[j].Msg? && events[k].at - events[j].at < cfg.floodWindow
  }

  function MsgsAfter(events: seq<Event>, n: nat, cutoff: int): set<nat>
    requires n <= |events|
  {
    set j: nat | j < n && events[j].Msg? && events[j].at > cutoff
  }

  lemma {:induction false} MsgsAreCounted(events: seq<Event>, n: nat, cutoff: int)
    requires n <= |events|
    ensures |MsgsAfter(events, n, cutoff)| == CountAfter(MsgTimes(events[..n]), cutoff)
  {
    hide *;
    if n == 0 {
      NoMsgs(events, cutoff);
    } else {
      MsgsAreCounted(events, n - 1, cutoff);
      OneMoreCounted(MsgTimes(events[..n - 1]), events[n - 1].at, cutoff);
      MsgTimesStep(events, n);
      OneMoreMsg(events, n, cutoff);
    }
  }

  lemma NoMsgs(events: seq<Event>, cutoff: int)
    ensures |MsgsAfter(events, 0, cutoff)| == CountAfter(MsgTimes(events[..0]), cutoff)
  {
    assert MsgsAfter(events, 0, cutoff) == {};
  }

  lemma MsgTimesStep(events: seq<Event>, n: nat)
    requires 0 < n <= |events|
    ensures
      var before := MsgTimes(events[..n - 1]);
      MsgTimes(events[..n]) == if events[n - 1].Msg? then before + [events[n - 1].at] else before
  {
    assert events[..n][..n - 1] == events[..n - 1];
  }

  lemma OneMoreMsg(events: seq<Event>, n: nat, cutoff: int)
    requires 0 < n <= |events|
    ensures |MsgsAfter(events, n, cutoff)|
            == |MsgsAfter(events, n - 1, cutoff)| + if events[n - 1].Msg? && events[n - 1].at > cutoff then 1 else 0
  {
    var e, before := events[n - 1], MsgsAfter(events, n - 1, cutoff);
    assert MsgsAfter(events, n, cutoff) == if e.Msg? && e.at > cutoff then before + {n - 1} else before;
  }

  // ----- Cycling -----

  /** Cycling was reported by event r - 1, or r is the start, and not since. */
  predicate QuietSince(cfg: SnitchConfig, events: seq<Event>, r: nat, k: nat)
    requires r <= k <= |events|
  {
    && (r > 0 ==> events[r - 1].JoinPart? && Raised(cfg, events, r - 1))
    && forall j | r <= j < k && events[j].JoinPart? :: !Raised(cfg, events, j)
  }

  /** The joins and parts from event r on, before event k and less than the window ago. */
  function RecentJoinParts(cfg: SnitchConfig, events: seq<Event>, r: nat, k: nat): set<nat>
    requires k < |events|
  {
    set j: nat | r <= j < k && events[j].JoinPart? && events[k].at - events[j].at < cfg.joinPartWindow
  }

  function JoinPartsAfter(events: seq<Event>, r: nat, n: nat, cutoff: int): set<nat>
    requires n <= |events|
  {
    set j: nat | r <= j < n && events[j].JoinPart? && events[j].at > cutoff
  }

  lemma {:induction false} JoinPartsAreCounted(cfg: SnitchConfig, events: seq<Event>, r: nat, n: nat, cutoff: int)
    requires EventsInOrder(events) && r <= n <= |events| && QuietSince(cfg, events, r, n)
    ensures |JoinPartsAfter(events, r, n, cutoff)| == CountAfter(JoinPartsSinceAlert(cfg, events[..n]), cutoff)
  {
    hide *;
    NoneCounted(cutoff);
    if n == r {
      NoneAfter(events, r, cutoff);
      StartsEmpty(cfg, events, r);
    } else {
      QuietBefore(cfg, events, r, n);
      JoinPartsAreCounted(cfg, events, r, n - 1, cutoff);
      OneMoreAfter(events, r, n, cutoff);
      OneMoreSince(cfg, events, r, n);
      OneMoreCounted(JoinPartsSinceAlert(cfg, events[..n - 1]), events[n - 1].at, cutoff);
    }
  }

  lemma NoneAfter(events: seq<Event>, r: nat, cutoff: int)
    requires r <= |events|
    ensures JoinPartsAfter(events, r, r, cutoff) == {}
  {
  }

  lemma OneMoreAfter(events: seq<Event>, r: nat, n: nat, cutoff: int)
    requires r < n <= |events|
    ensures |JoinPartsAfter(events, r, n, cutoff)|
            == |JoinPartsAfter(events, r, n - 1, cutoff)|
               + if events[n - 1].JoinPart? && events[n - 1].at > cutoff then 1 else 0
  {
    var e, was := events[n - 1], JoinPartsAfter(events, r, n - 1, cutoff);
    assert JoinPartsAfter(events, r, n, cutoff) == if e.JoinPart? && e.at > cutoff then was + {n - 1} else was;
  }

  lemma QuietBefore(cfg: SnitchConfig, events: seq<Event>, r: nat, n: nat)
    requires r < n <= |events| && QuietSince(cfg, events, r, n)
    ensures QuietSince(cfg, events, r, n - 1) && (events[n - 1].JoinPart? ==> !Raised(cfg, events, n - 1))
  {
    hide Raised;
  }

  /** After a report, or at the start, there are none. */
  lemma StartsEmpty(cfg: SnitchConfig, events: seq<Event>, r: nat)
    requires EventsInOrder(events) && r <= |events| && QuietSince(cfg, events, r, r)
    ensures JoinPartsSinceAlert(cfg, events[..r]) == []
  {
    hide Raised, CountAfter;
    if r > 0 {
      assert events[..r][..r - 1] == events[..r - 1];
      CyclingExact(cfg, events, r - 1);
    }
  }

  lemma JoinPartsStep(cfg: SnitchConfig, events: seq<Event>)
    requires events != []
    ensures
      var before, e := JoinPartsSinceAlert(cfg, events[..|events| - 1]), events[|events| - 1];
      JoinPartsSinceAlert(cfg, events) ==
      if !e.JoinPart? then before
      else if CountAfter(before, e.at - cfg.joinPartWindow) + 1 >= cfg.joinPartThreshold then []
      else before + [e.at]
  {
    hide *;
    EventStep(cfg, events);
  }

  lemma OneMoreSince(cfg: SnitchConfig, events: seq<Event>, r: nat, n: nat)
    requires EventsInOrder(events) && r < n <= |events| && QuietSince(cfg, events, r, n)
    ensures
      var before := JoinPartsSinceAlert(cfg, events[..n - 1]);
      JoinPartsSinceAlert(cfg, events[..n]) == if events[n - 1].JoinPart? then before + [events[n - 1].at] else before
  {
    hide *;
    QuietBefore(cfg, events, r, n);
    assert events[..n][..n - 1] == events[..n - 1] && events[..n][n - 1] == events[n - 1];
    JoinPartsStep(cfg, events[..n]);
    if events[n - 1].JoinPart? {
      CyclingExact(cfg, events, n - 1);
    }
  }

  lemma NoneCounted(cutoff: int)
    ensures CountAfter([], cutoff) == 0
  {
  }

  lemma OneMoreCounted(times: seq<int>, t: int, cutoff: int)
    ensures CountAfter(times + [t], cutoff) == CountAfter(times, cutoff) + if t > cutoff then 1 else 0
  {
    CountAppend(times, t, After(cutoff));
  }

  lemma RecentAreAfter(cfg: SnitchConfig, events: seq<Event>, r: nat, k: nat)
    requires k < |events|
    ensures RecentJoinParts(cfg, events, r, k) == JoinPartsAfter(events, r, k, events[k].at - cfg.joinPartWindow)
  {
  }
}
