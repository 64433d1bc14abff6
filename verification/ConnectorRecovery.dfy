/** What brings a connector back once its client is dead. */
module ConnectorRecovery {
  import opened Options
  import opened Connector

  predicate TakesError(step: Step) { step.TakeError? || step.ConnectError? }

  /** An error waits, whatever else happens, until a Connect or a keepAlive takes it. */
  lemma {:induction false} ErrorWaits(s: State, steps: seq<Step>)
    requires s.errPending && ValidRun(s, steps) && forall k | 0 <= k < |steps| :: !TakesError(steps[k])
    ensures Run(s, steps).errPending
    decreases |steps|
  {
    if steps != [] {
      assert !TakesError(steps[0]) && forall k | 0 <= k < |steps| - 1 :: steps[1..][k] == steps[k + 1];
      assert Next(s, steps[0]).errPending;
      hide Next;
      ErrorWaits(Next(s, steps[0]), steps[1..]);
    }
  }

  /** A Touch that finds its client dead closes it and leaves an error; as long as nobody has
      taken that, a keepAlive at the top of its loop goes on to reconnect. */
  lemma TouchWakes(s: State, i: nat, steps: seq<Step>, j: nat)
    requires i < |s.threads| && s.threads[i].Touching?
    ensures Enabled(s, ShutHeld(i)) && s.threads[i].seen in Next(s, ShutHeld(i)).shut
    ensures ValidRun(Next(s, ShutHeld(i)), steps) && (forall k | 0 <= k < |steps| :: !TakesError(steps[k])) ==>
              var s' := Run(Next(s, ShutHeld(i)), steps);
              j < |s'.threads| && s'.threads[j].Watching? ==> Enabled(s', TakeError(j))
  {
    var s1 := Next(s, ShutHeld(i));
    assert s1.errPending;
    if ValidRun(s1, steps) && forall k | 0 <= k < |steps| :: !TakesError(steps[k]) {
      ErrorWaits(s1, steps);
    }
  }

  /** A Connect that sees its client join leaves a keepAlive at the top of its loop, with a
      fresh backoff. */
  lemma JoinedIsWatched(s: State, i: nat)
    requires i < |s.threads| && s.threads[i].Awaiting?
    ensures Enabled(s, ConnectJoined(i))
    ensures
      var s' := Next(s, ConnectJoined(i));
      && |s'.threads| == |s.threads| + 1 && s'.threads[|s.threads|] == Watching(2)
      && s'.threads[i] == Finished && s'.installed == s.installed && s'.shut == s.shut
  {
  }

  /** From the moment Close starts, every keepAlive at the top of its loop or in its backoff
      can stop, whatever else happens. */
  lemma CloseStopsKeepAlive(s: State, i: nat, steps: seq<Step>, j: nat)
    requires i < |s.threads| && s.threads[i].CloseStart?
    ensures Enabled(s, Cancel(i))
    ensures ValidRun(Next(s, Cancel(i)), steps) ==>
              var s' := Run(Next(s, Cancel(i)), steps);
              j < |s'.threads| && (s'.threads[j].Watching? || s'.threads[j].Backoff?) ==> Enabled(s', StopWatching(j))
  {
    if ValidRun(Next(s, Cancel(i)), steps) {
      StaysCancelled(Next(s, Cancel(i)), steps);
    }
  }

  lemma {:induction false} StaysCancelled(s: State, steps: seq<Step>)
    requires s.cancelled && ValidRun(s, steps)
    ensures Run(s, steps).cancelled
    decreases |steps|
  {
    if steps != [] {
      assert Next(s, steps[0]).cancelled;
      hide Next;
      StaysCancelled(Next(s, steps[0]), steps[1..]);
    }
  }

  /** A Connect that gives up closes the client that is installed. */
  lemma GivingUpCloses(s: State, i: nat)
    requires i < |s.threads| && s.threads[i].Awaiting?
    ensures Enabled(s, ConnectTimeout(i))
    ensures s.installed.Some? ==> s.installed.value in Next(s, ConnectTimeout(i)).shut
    ensures Next(s, ConnectTimeout(i)).installed == s.installed
  {
  }

  /** The backoff a keepAlive would wait next. */
  function WaitOf(p: Phase): int
    requires KeepsAlive(p)
  {
    match p
    case Dialling(_, caller) => caller.wait
    case Aborting(_, caller) => caller.wait
    case _ => p.wait
  }

  /** A client that rejoins sets the backoff back to two seconds, wherever keepAlive stands,
      and touches nothing else. */
  lemma RejoinResets(s: State, i: nat)
    requires i < |s.threads| && KeepsAlive(s.threads[i])
    ensures Enabled(s, RejoinResetsBackoff(i))
    ensures
      var s' := Next(s, RejoinResetsBackoff(i));
      && s' == s.(threads := s'.threads) && |s'.threads| == |s.threads|
      && (forall j | 0 <= j < |s.threads| && j != i :: s'.threads[j] == s.threads[j])
      && KeepsAlive(s'.threads[i]) && WaitOf(s'.threads[i]) == 2
      && (s.threads[i].Watching? <==> s'.threads[i].Watching?) && (s.threads[i].Backoff? <==> s'.threads[i].Backoff?)
      && forall c :: Holds(s'.threads[i], c) <==> Holds(s.threads[i], c)
  {
  }

  function Reconnect(j: nat): seq<Step> {
    [TakeError(j), Detach(j), ShutHeld(j), TimerFires(j)] + [CreateClient(j), Install(j)]
  }

  lemma Redial(s: State, j: nat, wait: int)
    requires j < |s.threads| && s.threads[j] == Refreshing(wait) && !s.closed
    ensures
      var steps := [CreateClient(j), Install(j)];
      && ValidRun(s, steps)
      && Run(s, steps).installed == Some(s.created) && s.shut <= Run(s, steps).shut
      && j < |Run(s, steps).threads| && Run(s, steps).threads[j] == Watching(NextWait(wait))
  {
    var s1 := Next(s, CreateClient(j));
    var s2 := Next(s1, Install(j));
    assert s2.threads[j] == Watching(NextWait(wait));
    assert ValidRun(s2, []) && Run(s2, []) == s2;
    RunCons(s1, Install(j), []);
    RunCons(s, CreateClient(j), [Install(j)]);
    hide Next;
    assert [Install(j)] + [] == [Install(j)];
    assert [CreateClient(j)] + [Install(j)] == [CreateClient(j), Install(j)];
  }

  /** The four steps up to the renewal of the credentials. */
  lemma StartShape(s: State, j: nat, wait: int)
    requires Watches(s, j, wait)
    ensures
      var steps := [TakeError(j), Detach(j), ShutHeld(j), TimerFires(j)];
      && ValidRun(s, steps)
      && Run(s, steps) == s.(threads := s.threads[j := Refreshing(wait)], errPending := false, installed := None,
                             shut := WithClosed(s.shut, s.installed))
  {
    AttemptStarts(s, j, wait);
    var s1 := Next(s, TakeError(j));
    var s2 := Next(s1, Detach(j));
    var s3 := Next(s2, ShutHeld(j));
    var s4 := Next(s3, TimerFires(j));
    var steps := [TakeError(j), Detach(j), ShutHeld(j), TimerFires(j)];
    assert steps[1..] == [Detach(j), ShutHeld(j), TimerFires(j)] && steps[1..][1..] == [ShutHeld(j), TimerFires(j)];
    assert steps[1..][1..][1..] == [TimerFires(j)] && steps[1..][1..][1..][1..] == [];
    assert s4.threads == s.threads[j := Refreshing(wait)];
    assert s4 == s.(threads := s.threads[j := Refreshing(wait)], errPending := false, installed := None,
                    shut := WithClosed(s.shut, s.installed));
    hide Next;
    assert Run(s3, [TimerFires(j)]) == s4;
    assert Run(s2, [ShutHeld(j), TimerFires(j)]) == s4;
    assert Run(s1, [Detach(j), ShutHeld(j), TimerFires(j)]) == s4;
  }

  /** From there keepAlive can always bring the connector back while it is not closed: the
      client that was installed is closed, and a new one takes its place. */
  lemma ReconnectRestores(s: State, j: nat, wait: int)
    requires Watches(s, j, wait) && !s.closed
    ensures ValidRun(s, Reconnect(j))
    ensures
      var s' := Run(s, Reconnect(j));
      && s'.installed == Some(s.created)
      && (s.installed.Some? ==> s.installed.value in s'.shut)
      && j < |s'.threads| && s'.threads[j] == Watching(NextWait(wait))
  {
    hide Run, ValidRun, Next, Enabled;
    StartShape(s, j, wait);
    var start := [TakeError(j), Detach(j), ShutHeld(j), TimerFires(j)];
    Redial(Run(s, start), j, wait);
    RunConcat(s, start, [CreateClient(j), Install(j)]);
  }
}
