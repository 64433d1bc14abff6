/** How far the stored last-seen time of an agent falls behind the one in memory. */
module RegistryTouches {
  import opened Options
  import opened Registry
  import opened RegistryRuns
  import opened TouchTimes

  /** Touches at any times: in memory the agent was last seen at the last of them, in the
      database at the last one that came at least a minute after the one before it. */
  lemma {:induction false} TouchesStored(s: State, nick: string, times: seq<int>)
    requires Active(s, nick)
    ensures
      var s' := Run(s, Touches(nick, times));
      && Active(s', nick)
      && s'.agents[nick].lastSeen == SeenBefore(s.agents[nick].lastSeen, times, |times|)
      && StoredRight(s.agents[nick].lastSeen, times, s, s', nick)
    decreases |times|
  {
    if times == [] {
      assert Touches(nick, times) == [];
    } else {
      hide Run, Step, Touches, Spaced, StoredAs, StoredRight, NoneSpaced, LastSpaced;
      var s1 := Step(s, Touch(nick, times[0])).0;
      TouchesStep(s, nick, times);
      TouchesStored(s1, nick, times[1..]);
      StoredRightStep(s.agents[nick].lastSeen, times, s, s1, Run(s, Touches(nick, times)), nick);
    }
  }

  /** With the clock running on, the database is up to date after the touches if and only
      if the last one came at least a minute after the one before it. */
  lemma StoredTimeCurrent(s: State, nick: string, times: seq<int>, clock: int)
    requires Mirror(s, clock) && Active(s, nick) && Increasing(s.agents[nick].lastSeen, times)
    ensures
      var s' := Run(s, Touches(nick, times));
      && nick in s'.agents && nick in s'.rows
      && (s'.rows[nick].lastSeen == s'.agents[nick].lastSeen
          <==> if times == [] then s.rows[nick].lastSeen == s.agents[nick].lastSeen
               else Spaced(s.agents[nick].lastSeen, times, |times| - 1))
  {
    MirrorMeans(s, nick, clock);
    TouchesStored(s, nick, times);
    RowPresent(s, Run(s, Touches(nick, times)), nick, times, clock);
    hide Run, Mirror, Touches, Spaced, LastSpaced, NoneSpaced, Increasing, Active, Encode;
    var s' := Run(s, Touches(nick, times));
    CurrentIff(s.agents[nick].lastSeen, s.rows[nick].lastSeen, times, s'.rows[nick].lastSeen);
  }

  /** So an agent that reports more often than once a minute is written to the database
      once and never again, however long it goes on. */
  lemma FrequentTouchesNeverStored(s: State, nick: string, gap: int, n: nat)
    requires Active(s, nick) && s.agents[nick].lastSeen.Some? && gap < MINUTE
    ensures var s' := Run(s, Beats(nick, s.agents[nick].lastSeen.value, gap, n));
            && s'.rows == s.rows
            && Active(s', nick)
            && s'.agents[nick].lastSeen == Some(s.agents[nick].lastSeen.value + gap * n)
  {
    var from := s.agents[nick].lastSeen.value;
    hide *;
    BeatsAre(nick, from, gap, n);
    TouchesStored(s, nick, BeatTimes(from, gap, n));
    BeatsNotSpaced(from, gap, n);
  }
}
