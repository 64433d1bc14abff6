/** Touches of an agent and the times between them.

    A touch reaches the database when it comes at least a minute after the one before.
    What follows says which touches of a run do so and which of these is the last, what
    each leaves stored, and how far the stored time lies behind the last touch. */
module TouchTimes {
  import opened Options
  import opened Registry
  import opened RegistryRuns

  function Touches(nick: string, times: seq<int>): seq<Op> {
    seq(|times|, i requires 0 <= i < |times| => Touch(nick, times[i]))
  }

  /** When the agent was last seen before the k-th touch. */
  function SeenBefore(seen: Option<int>, times: seq<int>, k: nat): Option<int>
    requires k <= |times|
  {
    if k == 0 then seen else Some(times[k - 1])
  }

  /** The k-th touch comes at least a minute after the one before it. */
  predicate Spaced(seen: Option<int>, times: seq<int>, k: nat) {
    k < |times| && (SeenBefore(seen, times, k).None? || times[k] - SeenBefore(seen, times, k).value >= 60_000_000_000)
  }

  predicate LastSpaced(seen: Option<int>, times: seq<int>, k: nat) {
    Spaced(seen, times, k) && forall j | k < j < |times| :: !Spaced(seen, times, j)
  }

  predicate NoneSpaced(seen: Option<int>, times: seq<int>) {
    forall k: nat | k < |times| :: !Spaced(seen, times, k)
  }

  predicate StoredAs(s: State, nick: string, time: int) {
    nick in s.rows && s.rows[nick].lastSeen == Some(time)
  }

  lemma TouchesStep(s: State, nick: string, times: seq<int>)
    requires Active(s, nick) && times != []
    ensures
      var seen := s.agents[nick].lastSeen;
      var s1 := Step(s, Touch(nick, times[0])).0;
      && Run(s, Touches(nick, times)) == Run(s1, Touches(nick, times[1..]))
      && Active(s1, nick) && s1.agents[nick].lastSeen == Some(times[0])
      && (if Spaced(seen, times, 0) then StoredAs(s1, nick, times[0]) else s1.rows == s.rows)
  {
    assert Touches(nick, times)[0] == Touch(nick, times[0]);
    assert Touches(nick, times)[1..] == Touches(nick, times[1..]);
  }

  /** The row holds the time of the last spaced touch; without one it is as it was. */
  ghost predicate StoredRight(seen: Option<int>, times: seq<int>, s: State, s': State, nick: string) {
    && (forall k: nat | LastSpaced(seen, times, k) :: StoredAs(s', nick, times[k]))
    && (NoneSpaced(seen, times) ==> s'.rows == s.rows)
  }

  lemma StoredRightStep(seen: Option<int>, times: seq<int>, s: State, s1: State, s': State, nick: string)
    requires times != [] && StoredRight(Some(times[0]), times[1..], s1, s', nick)
    requires if Spaced(seen, times, 0) then StoredAs(s1, nick, times[0]) else s1.rows == s.rows
    ensures StoredRight(seen, times, s, s', nick)
  {
    SpacedInRest(seen, times);
    hide Spaced, LastSpaced, NoneSpaced, StoredAs;
    forall k: nat | LastSpaced(seen, times, k) ensures StoredAs(s', nick, times[k]) {
      if k > 0 {
        assert LastSpaced(seen, times, (k - 1) + 1);
        assert StoredAs(s', nick, times[1..][k - 1]);
      } else {
        SameRow(s1, s', nick, times[0]);
      }
    }
  }

  lemma SameRow(s: State, s': State, nick: string, time: int)
    ensures s'.rows == s.rows && StoredAs(s, nick, time) ==> StoredAs(s', nick, time)
  {
  }

  lemma SpacedInRest(seen: Option<int>, times: seq<int>)
    requires times != []
    ensures forall k: nat :: Spaced(Some(times[0]), times[1..], k) <==> Spaced(seen, times, k + 1)
    ensures forall k: nat | LastSpaced(seen, times, k + 1) ::
              LastSpaced(Some(times[0]), times[1..], k) && k < |times| - 1
    ensures LastSpaced(seen, times, 0) ==> NoneSpaced(Some(times[0]), times[1..]) && Spaced(seen, times, 0)
    ensures NoneSpaced(seen, times) ==> NoneSpaced(Some(times[0]), times[1..]) && !Spaced(seen, times, 0)
  {
    forall k: nat ensures Spaced(Some(times[0]), times[1..], k) <==> Spaced(seen, times, k + 1) {}
  }

  predicate Increasing(seen: Option<int>, times: seq<int>) {
    forall k: nat | k < |times| :: SeenBefore(seen, times, k).Some? ==> SeenBefore(seen, times, k).value < times[k]
  }

  lemma {:induction false} FindLastSpaced(seen: Option<int>, times: seq<int>, n: nat) returns (k: nat)
    requires n <= |times| && forall j | n <= j < |times| :: !Spaced(seen, times, j)
    requires !NoneSpaced(seen, times)
    ensures LastSpaced(seen, times, k)
    decreases n
  {
    k := n - 1;
    if !Spaced(seen, times, k) {
      k := FindLastSpaced(seen, times, k);
    }
  }

  lemma {:induction false} IncreasingOrder(seen: Option<int>, times: seq<int>, i: nat, j: nat)
    requires Increasing(seen, times) && i < j <= |times|
    ensures times[i] <= times[j - 1]
    ensures j < |times| ==> times[i] < times[j]
    decreases j
  {
    if j < |times| {
      assert SeenBefore(seen, times, j).value < times[j];
    }
    if i < j - 1 {
      IncreasingOrder(seen, times, i, j - 1);
    }
  }

  lemma RowPresent(s: State, s': State, nick: string, times: seq<int>, clock: int)
    requires Mirror(s, clock) && nick in s.agents
    requires forall k: nat | LastSpaced(s.agents[nick].lastSeen, times, k) :: StoredAs(s', nick, times[k])
    requires NoneSpaced(s.agents[nick].lastSeen, times) ==> s'.rows == s.rows
    ensures nick in s'.rows
  {
    hide Spaced, LastSpaced, NoneSpaced;
    if !NoneSpaced(s.agents[nick].lastSeen, times) {
      var k := FindLastSpaced(s.agents[nick].lastSeen, times, |times|);
    }
  }

  /** The same of the times alone: what was seen and stored before, and what is stored after. */
  lemma CurrentIff(seen: Option<int>, before: Option<int>, times: seq<int>, after: Option<int>)
    requires Increasing(seen, times)
    requires (seen.None? <==> before.None?) && (seen.Some? ==> before.value <= seen.value)
    requires forall k: nat | LastSpaced(seen, times, k) :: after == Some(times[k])
    requires NoneSpaced(seen, times) ==> after == before
    ensures after == SeenBefore(seen, times, |times|)
            <==> if times == [] then before == seen else Spaced(seen, times, |times| - 1)
  {
    if times == [] {
      assert NoneSpaced(seen, times);
    } else {
      hide Spaced, LastSpaced, NoneSpaced, Increasing;
      if Spaced(seen, times, |times| - 1) {
        LastIsLast(seen, times);
      } else if NoneSpaced(seen, times) {
        NoneSpacedBehind(seen, times);
      } else {
        var k := FindLastSpaced(seen, times, |times|);
        LastSpacedBehind(seen, times, k);
      }
    }
  }

  lemma LastIsLast(seen: Option<int>, times: seq<int>)
    requires times != [] && Spaced(seen, times, |times| - 1)
    ensures LastSpaced(seen, times, |times| - 1)
  {
  }

  lemma NoneSpacedBehind(seen: Option<int>, times: seq<int>)
    requires times != [] && Increasing(seen, times) && NoneSpaced(seen, times)
    ensures seen.Some? && seen.value < times[|times| - 1]
  {
    assert !Spaced(seen, times, 0);
    assert SeenBefore(seen, times, 0) == seen;
    IncreasingOrder(seen, times, 0, |times|);
  }

  lemma LastSpacedBehind(seen: Option<int>, times: seq<int>, k: nat)
    requires times != [] && Increasing(seen, times) && LastSpaced(seen, times, k) && !Spaced(seen, times, |times| - 1)
    ensures k < |times| - 1 && times[k] < times[|times| - 1]
  {
    assert Spaced(seen, times, k);
    IncreasingOrder(seen, times, k, |times| - 1);
  }

  function BeatTimes(from: int, gap: int, n: nat): seq<int> { seq(n, i => from + gap * (i + 1)) }

  function Beats(nick: string, from: int, gap: int, n: nat): seq<Op> { Touches(nick, BeatTimes(from, gap, n)) }

  lemma BeatsAre(nick: string, from: int, gap: int, n: nat)
    ensures Beats(nick, from, gap, n) == Touches(nick, BeatTimes(from, gap, n))
  {
    hide Touches, BeatTimes;
  }

  lemma BeatsNotSpaced(from: int, gap: int, n: nat)
    requires gap < MINUTE
    ensures |BeatTimes(from, gap, n)| == n && NoneSpaced(Some(from), BeatTimes(from, gap, n))
    ensures SeenBefore(Some(from), BeatTimes(from, gap, n), n) == Some(from + gap * n)
  {
    forall k: nat | k < n ensures !Spaced(Some(from), BeatTimes(from, gap, n), k) {
      assert gap * (k + 1) == gap * k + gap;
    }
  }
}
