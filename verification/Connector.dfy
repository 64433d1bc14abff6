/** The IRC connector's client lifecycle. */
module Connector {

  // Connect, dial, keepAlive, Touch and Close run on their own goroutines around one
  // mutex. Clients are numbered in the order they are created. A run is any interleaving
  // of the steps below, each of which is one critical section, one channel operation or
  // one library call of one goroutine.

  import opened Options

  const RECONNECT_MIN := 2
  const RECONNECT_MAX := 30

  /** Who called dial: Connect, or keepAlive with its current backoff. */
  datatype Dialler = FromConnect | FromKeepAlive(wait: int)

  /** Where a goroutine stands; the client it holds, if any, is a parameter. */
  datatype Phase =
    | ConnectStart
    | Dialling(client: nat, caller: Dialler)   // created, mutex not yet taken
    | Aborting(client: nat, caller: Dialler)   // found the connector closed
    | Awaiting                             // Connect's select
    | Watching(wait: int)                  // keepAlive, top of the loop
    | Detaching(wait: int)
    | Retiring(taken: Option<nat>, wait: int)
    | Backoff(wait: int)
    | Refreshing(wait: int)                // renewing credentials
    | CloseStart
    | CloseLocking
    | Closing(taken: Option<nat>)
    | TouchStart
    | Touching(seen: nat)                  // shares the installed client
    | Finished

  datatype State = State(
    created: nat,
    installed: Option<nat>,
    shut: set<nat>,        // clients whose Close has been called
    closed: bool,          // the connector's own flag
    cancelled: bool,       // keepAliveCtx
    errPending: bool,      // errCh, capacity one
    threads: seq<Phase>)

  datatype Step =
    | Spawn(start: Phase)
    | CreateClient(i: nat)
    | CredentialsFail(i: nat)
    | Install(i: nat)
    | ShutHeld(i: nat)
    | ConnectTimeout(i: nat)
    | ConnectError(i: nat)
    | ConnectJoined(i: nat)
    | TakeError(i: nat)
    | Detach(i: nat)
    | TimerFires(i: nat)
    | StopWatching(i: nat)
    | Cancel(i: nat)
    | TakeForClose(i: nat)
    | ReadForTouch(i: nat)
    | TouchHealthy(i: nat)
    | NetworkError
    | RejoinResetsBackoff(i: nat)

  function Min(a: int, b: int): int { if a < b then a else b }

  function NextWait(wait: int): int { Min(wait * 2, RECONNECT_MAX) }

  function AfterDial(caller: Dialler): Phase {
    match caller
    case FromConnect => Awaiting
    case FromKeepAlive(wait) => Watching(wait)
  }

  /** A keepAlive goroutine, wherever it stands. */
  predicate KeepsAlive(p: Phase) {
    match p
    case Dialling(_, caller) => caller.FromKeepAlive?
    case Aborting(_, caller) => caller.FromKeepAlive?
    case _ => p.Watching? || p.Detaching? || p.Retiring? || p.Backoff? || p.Refreshing?
  }

  /** keepAlive's backoff variable, set back by a handler that saw its client rejoin. */
  function WaitReset(p: Phase): Phase {
    match p
    case Dialling(c, FromKeepAlive(_)) => Dialling(c, FromKeepAlive(RECONNECT_MIN))
    case Aborting(c, FromKeepAlive(_)) => Aborting(c, FromKeepAlive(RECONNECT_MIN))
    case Watching(_) => Watching(RECONNECT_MIN)
    case Detaching(_) => Detaching(RECONNECT_MIN)
    case Retiring(taken, _) => Retiring(taken, RECONNECT_MIN)
    case Backoff(_) => Backoff(RECONNECT_MIN)
    case Refreshing(_) => Refreshing(RECONNECT_MIN)
    case _ => p
  }

  predicate Holds(p: Phase, c: nat) {
    match p
    case Dialling(client, _) => client == c
    case Aborting(client, _) => client == c
    case Retiring(taken, _) => taken == Some(c)
    case Closing(taken) => taken == Some(c)
    case _ => false
  }

  function WithClosed(shut: set<nat>, c: Option<nat>): set<nat> {
    if c.Some? then shut + {c.value} else shut
  }

  predicate Enabled(s: State, step: Step) {
    match step
    case Spawn(start) => start in {ConnectStart, CloseStart, TouchStart}
    case NetworkError => true
    case CreateClient(i) => i < |s.threads| && (s.threads[i].ConnectStart? || s.threads[i].Refreshing?)
    case CredentialsFail(i) => i < |s.threads| && (s.threads[i].ConnectStart? || s.threads[i].Refreshing?)
    case Install(i) => i < |s.threads| && s.threads[i].Dialling?
    case ShutHeld(i) =>
      && i < |s.threads|
      && (s.threads[i].Aborting? || s.threads[i].Retiring? || s.threads[i].Closing? || s.threads[i].Touching?)
    case ConnectTimeout(i) => i < |s.threads| && s.threads[i].Awaiting?
    case ConnectError(i) => i < |s.threads| && s.threads[i].Awaiting? && s.errPending
    case ConnectJoined(i) => i < |s.threads| && s.threads[i].Awaiting?
    case TakeError(i) => i < |s.threads| && s.threads[i].Watching? && s.errPending
    case Detach(i) => i < |s.threads| && s.threads[i].Detaching?
    case TimerFires(i) => i < |s.threads| && s.threads[i].Backoff?
    case StopWatching(i) => i < |s.threads| && (s.threads[i].Watching? || s.threads[i].Backoff?) && s.cancelled
    case Cancel(i) => i < |s.threads| && s.threads[i].CloseStart?
    case TakeForClose(i) => i < |s.threads| && s.threads[i].CloseLocking?
    case ReadForTouch(i) => i < |s.threads| && s.threads[i].TouchStart?
    case TouchHealthy(i) => i < |s.threads| && s.threads[i].Touching?
    case RejoinResetsBackoff(i) => i < |s.threads| && KeepsAlive(s.threads[i])
  }

  function At(s: State, i: nat, p: Phase): State
    requires i < |s.threads|
  {
    s.(threads := s.threads[i := p])
  }

  /** dial's critical section: give up when closed, otherwise replace the installed client. */
  function InstallStep(s: State, i: nat): State
    requires i < |s.threads| && s.threads[i].Dialling?
  {
    var c, caller := s.threads[i].client, s.threads[i].caller;
    if s.closed then At(s, i, Aborting(c, caller))
    else
      At(s, i, AfterDial(caller)).(
        shut := if s.installed.Some? && s.installed != Some(c) then s.shut + {s.installed.value} else s.shut,
        installed := Some(c))
  }

  /** A Close call on the client the goroutine holds, then on to its next phase. */
  function ShutStep(s: State, i: nat): State
    requires Enabled(s, ShutHeld(i))
  {
    match s.threads[i]
    case Aborting(c, caller) => At(s, i, AfterDial(caller)).(shut := s.shut + {c})
    case Retiring(taken, wait) => At(s, i, Backoff(wait)).(shut := WithClosed(s.shut, taken))
    case Closing(taken) => At(s, i, Finished).(shut := WithClosed(s.shut, taken))
    case Touching(c) => At(s, i, Finished).(shut := s.shut + {c}, errPending := true)
  }

  function Next(s: State, step: Step): State
    requires Enabled(s, step)
  {
    match step
    case Spawn(start) => s.(threads := s.threads + [start])
    case NetworkError => s.(errPending := true)
    case CreateClient(i) =>
      var who := if s.threads[i].ConnectStart? then FromConnect else FromKeepAlive(NextWait(s.threads[i].wait));
      At(s, i, Dialling(s.created, who)).(created := s.created + 1)
    case CredentialsFail(i) =>
      if s.threads[i].ConnectStart? then At(s, i, Finished)
      else At(s, i, Watching(NextWait(s.threads[i].wait)))
    case Install(i) => InstallStep(s, i)
    case ShutHeld(i) => ShutStep(s, i)
    case ConnectTimeout(i) => At(s, i, Finished).(shut := WithClosed(s.shut, s.installed))
    case ConnectError(i) => At(s, i, Finished).(errPending := false)
    case ConnectJoined(i) => At(s, i, Finished).(threads := s.threads[i := Finished] + [Watching(RECONNECT_MIN)])
    case TakeError(i) => At(s, i, Detaching(s.threads[i].wait)).(errPending := false)
    case Detach(i) => At(s, i, Retiring(s.installed, s.threads[i].wait)).(installed := None)
    case TimerFires(i) => At(s, i, Refreshing(s.threads[i].wait))
    case StopWatching(i) => At(s, i, Finished)
    case Cancel(i) => At(s, i, CloseLocking).(cancelled := true)
    case TakeForClose(i) => At(s, i, Closing(s.installed)).(installed := None, closed := true)
    case ReadForTouch(i) => At(s, i, if s.installed.Some? then Touching(s.installed.value) else Finished)
    case TouchHealthy(i) => At(s, i, Finished)
    case RejoinResetsBackoff(i) => At(s, i, WaitReset(s.threads[i]))
  }

  predicate Initial(s: State) {
    s == State(0, None, {}, false, false, false, [])
  }

  predicate ValidRun(s: State, steps: seq<Step>)
    decreases |steps|
  {
    steps == [] || (Enabled(s, steps[0]) && ValidRun(Next(s, steps[0]), steps[1..]))
  }

  function Run(s: State, steps: seq<Step>): State
    requires ValidRun(s, steps)
    decreases |steps|
  {
    if steps == [] then s else Run(Next(s, steps[0]), steps[1..])
  }

  // ----- The invariant -----

  ghost predicate Held(s: State, c: nat) {
    exists i :: 0 <= i < |s.threads| && Holds(s.threads[i], c)
  }

  ghost predicate Accounted(s: State, c: nat) {
    c in s.shut || s.installed == Some(c) || Held(s, c)
  }

  predicate WaitInRange(p: Phase) {
    match p
    case Dialling(_, FromKeepAlive(wait)) => RECONNECT_MIN <= wait <= RECONNECT_MAX
    case Aborting(_, FromKeepAlive(wait)) => RECONNECT_MIN <= wait <= RECONNECT_MAX
    case Watching(wait) => RECONNECT_MIN <= wait <= RECONNECT_MAX
    case Detaching(wait) => RECONNECT_MIN <= wait <= RECONNECT_MAX
    case Retiring(_, wait) => RECONNECT_MIN <= wait <= RECONNECT_MAX
    case Backoff(wait) => RECONNECT_MIN <= wait <= RECONNECT_MAX
    case Refreshing(wait) => RECONNECT_MIN <= wait <= RECONNECT_MAX
    case _ => true
  }

  /** A client some goroutine holds has been created and is not installed. */
  predicate HoldingSound(s: State, p: Phase) {
    match p
    case Dialling(c, _) => c < s.created && s.installed != Some(c)
    case Aborting(c, _) => c < s.created && s.installed != Some(c)
    case Retiring(Some(c), _) => c < s.created && s.installed != Some(c)
    case Closing(Some(c)) => c < s.created && s.installed != Some(c)
    case Touching(c) => c < s.created
    case _ => true
  }

  /** Two goroutines never hold the same client. */
  ghost predicate HeldOnce(s: State) {
    forall i, j, c | 0 <= i < |s.threads| && 0 <= j < |s.threads| ::
      Holds(s.threads[i], c) && Holds(s.threads[j], c) ==> i == j
  }

  ghost predicate Inv(s: State) {
    && (s.installed.Some? ==> s.installed.value < s.created)
    && (s.closed ==> s.installed == None)
    && (forall i | 0 <= i < |s.threads| :: HoldingSound(s, s.threads[i]) && WaitInRange(s.threads[i]))
    && HeldOnce(s)
    && forall c: nat | c < s.created :: Accounted(s, c)
  }

  /** The goroutine that takes the step; the network and newcomers act for nobody. */
  function Actor(s: State, step: Step): nat {
    match step
    case Spawn(_) => |s.threads|
    case NetworkError => |s.threads|
    case _ => step.i
  }

  /** A step moves one goroutine and may start one that holds nothing. */
  lemma StepShape(s: State, step: Step)
    requires Enabled(s, step)
    ensures
      var s' := Next(s, step);
      var i := Actor(s, step);
      && |s.threads| <= |s'.threads|
      && (forall j | 0 <= j < |s.threads| && j != i :: s'.threads[j] == s.threads[j])
      && (forall j, c | |s.threads| <= j < |s'.threads| :: !Holds(s'.threads[j], c))
      && (forall j | |s.threads| <= j < |s'.threads| :: HoldingSound(s', s'.threads[j]) && WaitInRange(s'.threads[j]))
  {
    hide Holds, HoldingSound, WaitInRange;
    forall j | |s.threads| <= j < |Next(s, step).threads|
      ensures HoldingSound(Next(s, step), Next(s, step).threads[j]) && WaitInRange(Next(s, step).threads[j])
      ensures forall c :: !Holds(Next(s, step).threads[j], c)
    {
      NewcomerIsFresh(s, step, j);
      FreshHoldsNothing(Next(s, step), Next(s, step).threads[j]);
    }
  }

  lemma NewcomerIsFresh(s: State, step: Step, j: nat)
    requires Enabled(s, step) && |s.threads| <= j < |Next(s, step).threads|
    ensures Next(s, step).threads[j] in {ConnectStart, CloseStart, TouchStart, Watching(RECONNECT_MIN)}
  {
  }

  lemma FreshHoldsNothing(s: State, p: Phase)
    requires p in {ConnectStart, CloseStart, TouchStart, Watching(RECONNECT_MIN)}
    ensures HoldingSound(s, p) && WaitInRange(p) && forall c :: !Holds(p, c)
  {
  }

  lemma InstalledComesFromMover(s: State, step: Step)
    requires Enabled(s, step)
    ensures
      var s' := Next(s, step);
      var i := Actor(s, step);
      && s.created <= s'.created && s.shut <= s'.shut
      && (s'.installed == s.installed || s'.installed == None
          || (i < |s.threads| && Holds(s.threads[i], s'.installed.value)))
  {}

  /** What the mover holds afterwards, and what becomes of what it let go. */
  lemma MoverShape(s: State, step: Step)
    requires Enabled(s, step) && Actor(s, step) < |s.threads|
    ensures
      var s' := Next(s, step);
      var i := Actor(s, step);
      && (forall c | Holds(s'.threads[i], c) ::
            Holds(s.threads[i], c) || s.installed == Some(c) || (c == s.created && s'.created == s.created + 1))
      && (forall c | Holds(s.threads[i], c) :: Holds(s'.threads[i], c) || c in s'.shut || s'.installed == Some(c))
      && (s.installed.Some? && s'.installed != s.installed ==>
            s.installed.value in s'.shut || Holds(s'.threads[i], s.installed.value))
      && (s'.created > s.created ==> s'.created == s.created + 1 && Holds(s'.threads[i], s.created))
  {}

  lemma StepAccounts(s: State, step: Step, c: nat)
    requires Inv(s) && Enabled(s, step) && c < Next(s, step).created
    ensures Accounted(Next(s, step), c)
  {
    StepShape(s, step);
    InstalledComesFromMover(s, step);
    if Actor(s, step) < |s.threads| {
      MoverShape(s, step);
      if c < s.created {
        assert Accounted(s, c);
      }
    } else {
      assert Accounted(s, c);
    }
  }

  lemma MoverStaysSound(s: State, step: Step)
    requires Inv(s) && Enabled(s, step) && Actor(s, step) < |s.threads|
    ensures
      var p := Next(s, step).threads[Actor(s, step)];
      HoldingSound(Next(s, step), p) && WaitInRange(p)
  {
    var p := s.threads[Actor(s, step)];
    assert HoldingSound(s, p) && WaitInRange(p);
    MoverHoldsSoundly(s, step);
    MoverWaitInRange(s, step);
  }

  lemma MoverHoldsSoundly(s: State, step: Step)
    requires Enabled(s, step) && Actor(s, step) < |s.threads| && HoldingSound(s, s.threads[Actor(s, step)])
    requires s.installed.Some? ==> s.installed.value < s.created
    ensures HoldingSound(Next(s, step), Next(s, step).threads[Actor(s, step)])
  {
    match step
    case Install(i) =>
    case ShutHeld(i) =>
    case Detach(i) =>
    case TakeForClose(i) =>
    case RejoinResetsBackoff(i) =>
    case _ =>
  }

  lemma MoverWaitInRange(s: State, step: Step)
    requires Enabled(s, step) && Actor(s, step) < |s.threads| && WaitInRange(s.threads[Actor(s, step)])
    ensures WaitInRange(Next(s, step).threads[Actor(s, step)])
  {
    match step
    case Install(i) =>
    case ShutHeld(i) =>
    case CreateClient(i) =>
    case RejoinResetsBackoff(i) =>
    case _ =>
  }

  lemma StepKeepsSound(s: State, step: Step, j: nat)
    requires Inv(s) && Enabled(s, step) && j < |Next(s, step).threads|
    ensures HoldingSound(Next(s, step), Next(s, step).threads[j])
    ensures WaitInRange(Next(s, step).threads[j])
  {
    StepShape(s, step);
    InstalledComesFromMover(s, step);
    if j == Actor(s, step) < |s.threads| {
      MoverStaysSound(s, step);
    } else if j < |s.threads| {
      assert HoldingSound(s, s.threads[j]) && WaitInRange(s.threads[j]);
    }
  }

  lemma StepKeepsHeldOnce(s: State, step: Step)
    requires Inv(s) && Enabled(s, step)
    ensures HeldOnce(Next(s, step))
  {
    StepShape(s, step);
    InstalledComesFromMover(s, step);
    if Actor(s, step) < |s.threads| {
      MoverShape(s, step);
    }
    var s' := Next(s, step);
    forall i, j, c | 0 <= i < |s'.threads| && 0 <= j < |s'.threads|
      && Holds(s'.threads[i], c) && Holds(s'.threads[j], c)
      ensures i == j
    {
      assert i < |s.threads| ==> HoldingSound(s, s.threads[i]);
      assert j < |s.threads| ==> HoldingSound(s, s.threads[j]);
    }
  }

  /** Every step of every goroutine keeps the invariant. */
  lemma StepKeepsInv(s: State, step: Step)
    requires Inv(s) && Enabled(s, step)
    ensures Inv(Next(s, step))
    ensures s.closed ==> Next(s, step).closed
  {
    var s' := Next(s, step);
    forall j | 0 <= j < |s'.threads|
      ensures HoldingSound(s', s'.threads[j]) && WaitInRange(s'.threads[j])
    {
      StepKeepsSound(s, step, j);
    }
    forall c: nat | c < s'.created
      ensures Accounted(s', c)
    {
      StepAccounts(s, step, c);
    }
    StepKeepsHeldOnce(s, step);
    if step.Install? {
      assert HoldingSound(s, s.threads[step.i]);
    }
  }

  lemma {:induction false} RunKeepsInv(s: State, steps: seq<Step>)
    requires Inv(s) && ValidRun(s, steps)
    ensures Inv(Run(s, steps))
    ensures s.closed ==> Run(s, steps).closed
    decreases |steps|
  {
    if steps != [] {
      StepKeepsInv(s, steps[0]);
      RunKeepsInv(Next(s, steps[0]), steps[1..]);
    }
  }

  /** In every interleaving, each client ever created is the installed one, has
      had Close called on it, or is held by exactly one goroutine that has yet to
      install or close it. */
  lemma EveryClientIsAccountedFor(s0: State, steps: seq<Step>, c: nat)
    requires Initial(s0) && ValidRun(s0, steps) && c < Run(s0, steps).created
    ensures
      var s := Run(s0, steps);
      c in s.shut || s.installed == Some(c)
      || exists i :: 0 <= i < |s.threads| && Holds(s.threads[i], c)
           && forall j | 0 <= j < |s.threads| :: Holds(s.threads[j], c) ==> j == i
  {
    RunKeepsInv(s0, steps);
    assert Accounted(Run(s0, steps), c);
  }

  /** Once a Close has set the flag, no later step of any goroutine installs a client. */
  lemma ClosedStaysEmpty(s0: State, before: seq<Step>, after: seq<Step>)
    requires Initial(s0) && ValidRun(s0, before) && ValidRun(Run(s0, before), after)
    requires Run(s0, before).closed
    ensures Run(Run(s0, before), after).closed && Run(Run(s0, before), after).installed == None
  {
    RunKeepsInv(s0, before);
    RunKeepsInv(Run(s0, before), after);
  }

  /** No leak: when the connector is closed and no goroutine holds a client it has yet to
      install or close, every client ever created has been closed. */
  lemma NoClientOutlivesClose(s0: State, steps: seq<Step>)
    requires Initial(s0) && ValidRun(s0, steps)
    requires Run(s0, steps).closed
    requires forall i, c | 0 <= i < |Run(s0, steps).threads| :: !Holds(Run(s0, steps).threads[i], c)
    ensures forall c: nat :: c < Run(s0, steps).created ==> c in Run(s0, steps).shut
  {
    RunKeepsInv(s0, steps);
    forall c: nat | c < Run(s0, steps).created
      ensures c in Run(s0, steps).shut
    {
      assert Accounted(Run(s0, steps), c);
    }
  }

  /** Backoff stays between two and thirty seconds in every interleaving. */
  lemma BackoffStaysInRange(s0: State, steps: seq<Step>, i: nat)
    requires Initial(s0) && ValidRun(s0, steps)
    requires i < |Run(s0, steps).threads| && Run(s0, steps).threads[i].Backoff?
    ensures 2 <= Run(s0, steps).threads[i].wait <= 30
  {
    RunKeepsInv(s0, steps);
    assert WaitInRange(Run(s0, steps).threads[i]);
  }

  // ----- A row of failures -----

  /** Why one attempt to reconnect comes to nothing. */
  datatype Failure = NoCredentials | ConnectionLost

  /** keepAlive, goroutine i, from one received error to the next: what was installed is
      taken out and closed, the backoff passes, and the attempt fails. On a closed
      connector the new client is not installed but closed. */
  function FailedAttempt(closed: bool, i: nat, f: Failure): seq<Step> {
    [TakeError(i), Detach(i), ShutHeld(i), TimerFires(i)]
    + (if f.NoCredentials? then [CredentialsFail(i)]
       else [CreateClient(i), Install(i)] + if closed then [ShutHeld(i)] else [])
    + [NetworkError]
  }

  function FailedAttempts(closed: bool, i: nat, fs: seq<Failure>): seq<Step> {
    if fs == [] then [] else FailedAttempt(closed, i, fs[0]) + FailedAttempts(closed, i, fs[1..])
  }

  predicate Watches(s: State, i: nat, wait: int) {
    i < |s.threads| && s.threads[i] == Watching(wait) && s.errPending
  }

  lemma RunCons(s: State, step: Step, rest: seq<Step>)
    requires Enabled(s, step) && ValidRun(Next(s, step), rest)
    ensures ValidRun(s, [step] + rest) && Run(s, [step] + rest) == Run(Next(s, step), rest)
  {
    assert ([step] + rest)[1..] == rest;
  }

  lemma {:induction false} RunConcat(s: State, a: seq<Step>, b: seq<Step>)
    requires ValidRun(s, a) && ValidRun(Run(s, a), b)
    ensures ValidRun(s, a + b) && Run(s, a + b) == Run(Run(s, a), b)
    decreases |a|
  {
    if a == [] {
      assert a + b == b;
    } else {
      RunConcat(Next(s, a[0]), a[1..], b);
      RunCons(s, a[0], a[1..] + b);
      assert [a[0]] + (a[1..] + b) == a + b;
    }
  }

  /** Up to the renewal of the credentials. */
  lemma AttemptStarts(s: State, i: nat, wait: int)
    requires Watches(s, i, wait)
    ensures
      var steps := [TakeError(i), Detach(i), ShutHeld(i), TimerFires(i)];
      && ValidRun(s, steps)
      && i < |Run(s, steps).threads| && Run(s, steps).threads[i] == Refreshing(wait)
      && Run(s, steps).closed == s.closed
  {
    var s1 := Next(s, TakeError(i));
    var s2 := Next(s1, Detach(i));
    var s3 := Next(s2, ShutHeld(i));
    var s4 := Next(s3, TimerFires(i));
    assert s4.threads[i] == Refreshing(wait) && s4.closed == s.closed;
    hide Next;
    RunCons(s3, TimerFires(i), []);
    RunCons(s2, ShutHeld(i), [TimerFires(i)]);
    RunCons(s1, Detach(i), [ShutHeld(i), TimerFires(i)]);
    RunCons(s, TakeError(i), [Detach(i), ShutHeld(i), TimerFires(i)]);
    assert [TimerFires(i)] + [] == [TimerFires(i)];
    assert [ShutHeld(i)] + [TimerFires(i)] == [ShutHeld(i), TimerFires(i)];
    assert [Detach(i)] + [ShutHeld(i), TimerFires(i)] == [Detach(i), ShutHeld(i), TimerFires(i)];
    assert [TakeError(i)] + [Detach(i), ShutHeld(i), TimerFires(i)]
      == [TakeError(i), Detach(i), ShutHeld(i), TimerFires(i)];
  }

  lemma ErrorThen(s: State, i: nat, wait: int)
    requires i < |s.threads| && s.threads[i] == Watching(wait)
    ensures ValidRun(s, [NetworkError]) && Watches(Run(s, [NetworkError]), i, wait)
    ensures Run(s, [NetworkError]).closed == s.closed
  {
    assert [NetworkError][1..] == [];
  }

  /** The credentials are refused. */
  lemma CredentialsRefused(s: State, i: nat, wait: int)
    requires i < |s.threads| && s.threads[i] == Refreshing(wait)
    ensures
      var steps := [CredentialsFail(i)] + [NetworkError];
      ValidRun(s, steps) && Watches(Run(s, steps), i, NextWait(wait)) && Run(s, steps).closed == s.closed
  {
    ErrorThen(Next(s, CredentialsFail(i)), i, NextWait(wait));
    RunCons(s, CredentialsFail(i), [NetworkError]);
  }

  /** The new client loses its connection before it joins, or comes too late. */
  lemma DialComesToNothing(s: State, i: nat, wait: int)
    requires i < |s.threads| && s.threads[i] == Refreshing(wait)
    ensures
      var steps := ([CreateClient(i), Install(i)] + if s.closed then [ShutHeld(i)] else []) + [NetworkError];
      ValidRun(s, steps) && Watches(Run(s, steps), i, NextWait(wait)) && Run(s, steps).closed == s.closed
  {
    var s1 := Next(s, CreateClient(i));
    var s2 := Next(s1, Install(i));
    if s.closed {
      var s3 := Next(s2, ShutHeld(i));
      ErrorThen(s3, i, NextWait(wait));
      RunCons(s2, ShutHeld(i), [NetworkError]);
      RunCons(s1, Install(i), [ShutHeld(i)] + [NetworkError]);
      RunCons(s, CreateClient(i), [Install(i)] + ([ShutHeld(i)] + [NetworkError]));
      assert [CreateClient(i)] + ([Install(i)] + ([ShutHeld(i)] + [NetworkError]))
          == ([CreateClient(i), Install(i)] + [ShutHeld(i)]) + [NetworkError];
    } else {
      ErrorThen(s2, i, NextWait(wait));
      RunCons(s1, Install(i), [NetworkError]);
      RunCons(s, CreateClient(i), [Install(i)] + [NetworkError]);
      assert [CreateClient(i)] + ([Install(i)] + [NetworkError])
        == ([CreateClient(i), Install(i)] + []) + [NetworkError];
    }
  }

  /** One failed attempt, of either kind, moves the backoff on once. */
  lemma AttemptDoubles(s: State, i: nat, wait: int, f: Failure)
    requires Watches(s, i, wait)
    ensures
      var steps := FailedAttempt(s.closed, i, f);
      ValidRun(s, steps) && Watches(Run(s, steps), i, NextWait(wait)) && Run(s, steps).closed == s.closed
  {
    hide Run, ValidRun, Next, Enabled;
    var start := [TakeError(i), Detach(i), ShutHeld(i), TimerFires(i)];
    var tail := if f.NoCredentials? then [CredentialsFail(i)]
                else [CreateClient(i), Install(i)] + if s.closed then [ShutHeld(i)] else [];
    AttemptStarts(s, i, wait);
    if f.NoCredentials? {
      CredentialsRefused(Run(s, start), i, wait);
    } else {
      DialComesToNothing(Run(s, start), i, wait);
    }
    RunConcat(s, start, tail + [NetworkError]);
    assert start + (tail + [NetworkError]) == start + tail + [NetworkError];
  }

  function Pow2(n: nat): nat { if n == 0 then 1 else 2 * Pow2(n - 1) }

  /** From a fresh backoff, any n failed attempts in a row, for whatever reasons, leave it
      at 2^(n+1) seconds, capped at thirty. */
  lemma BackoffDoubles(s: State, i: nat, fs: seq<Failure>)
    requires Watches(s, i, RECONNECT_MIN)
    ensures
      var steps := FailedAttempts(s.closed, i, fs);
      ValidRun(s, steps) && Watches(Run(s, steps), i, Min(Pow2(|fs| + 1), 30))
  {
    assert Pow2(1) == 2;
    BackoffGrows(s, i, 0, fs);
  }

  lemma {:induction false} BackoffGrows(s: State, i: nat, k: nat, fs: seq<Failure>)
    requires Watches(s, i, Min(Pow2(k + 1), RECONNECT_MAX))
    ensures
      var steps := FailedAttempts(s.closed, i, fs);
      ValidRun(s, steps) && Watches(Run(s, steps), i, Min(Pow2(k + |fs| + 1), RECONNECT_MAX))
    decreases |fs|
  {
    if fs != [] {
      hide Run, ValidRun, FailedAttempt;
      var wait := Min(Pow2(k + 1), RECONNECT_MAX);
      assert NextWait(wait) == Min(Pow2(k + 2), RECONNECT_MAX);
      AttemptDoubles(s, i, wait, fs[0]);
      var s1 := Run(s, FailedAttempt(s.closed, i, fs[0]));
      BackoffGrows(s1, i, k + 1, fs[1..]);
      RunConcat(s, FailedAttempt(s.closed, i, fs[0]), FailedAttempts(s.closed, i, fs[1..]));
    }
  }

  lemma {:induction false} RunExtend(s: State, steps: seq<Step>, step: Step)
    requires ValidRun(s, steps) && Enabled(Run(s, steps), step)
    ensures ValidRun(s, steps + [step])
    ensures Run(s, steps + [step]) == Next(Run(s, steps), step)
    decreases |steps|
  {
    if steps == [] {
      assert steps + [step] == [step];
      assert ValidRun(Next(s, step), [step][1..]);
    } else {
      assert (steps + [step])[1..] == steps[1..] + [step];
      RunExtend(Next(s, steps[0]), steps[1..], step);
    }
  }

  // ----- The code -----

  class IrcConnector {
    var client: Option<nat>
    var closed: bool
    var cancelled: bool    // keepAliveCtx
    var errPending: bool   // errCh
    var created: nat       // clients the library has made,
    var shut: set<nat>     // and those it has been asked to close
    ghost var threads: seq<Phase>

    constructor ()
      ensures Initial(Abs())
    {
      client, closed, cancelled, errPending := None, false, false, false;
      created, shut, threads := 0, {}, [];
    }

    ghost function Abs(): State
      reads this
    {
      State(created, client, shut, closed, cancelled, errPending, threads)
    }

    /** girc's Close. */
    method Shut(c: nat)
      modifies `shut
      ensures shut == old(shut) + {c}
    {
      shut := shut + {c};
    }

    /** dial up to its unlock: install the new client unless Close came first. */
    method DialLocked(c: nat, ghost i: nat) returns (abort: bool)
      requires Enabled(Abs(), Install(i)) && threads[i].client == c
      modifies `client, `shut, `threads
      ensures Abs() == Next(old(Abs()), Install(i))
      ensures abort == closed
      ensures client == if closed then old(client) else Some(c)
    {
      threads := Next(Abs(), Install(i)).threads;
      if closed {
        return true;
      }
      if client.Some? && client != Some(c) {
        Shut(client.value);
      }
      client := Some(c);
      return false;
    }

    /** One uninterrupted dial. Afterwards the new client is installed or closed. */
    method Dial(ghost i: nat) returns (ghost steps: seq<Step>)
      requires Enabled(Abs(), CreateClient(i))
      modifies `client, `shut, `created, `threads
      ensures ValidRun(old(Abs()), steps) && Abs() == Run(old(Abs()), steps)
      ensures created == old(created) + 1
      ensures if closed then client == old(client) && old(created) in shut else client == Some(old(created))
    {
      ghost var s := Abs();
      var c := created;
      threads := Next(s, CreateClient(i)).threads;
      created := created + 1;
      RunExtend(s, [], CreateClient(i));
      steps := [] + [CreateClient(i)];
      var abort := DialLocked(c, i);
      RunExtend(s, steps, Install(i));
      steps := steps + [Install(i)];
      if abort {
        threads := Next(Abs(), ShutHeld(i)).threads;
        Shut(c);
        RunExtend(s, steps, ShutHeld(i));
        steps := steps + [ShutHeld(i)];
      }
    }

    /** keepAlive's critical section: take the client out. */
    method DetachLocked(ghost i: nat) returns (taken: Option<nat>)
      requires Enabled(Abs(), Detach(i))
      modifies `client, `threads
      ensures Abs() == Next(old(Abs()), Detach(i))
      ensures taken == old(client) && client == None
    {
      threads := Next(Abs(), Detach(i)).threads;
      taken := client;
      client := None;
    }

    /** Close's critical section: raise the flag and take the client out. */
    method CloseLocked(ghost i: nat) returns (taken: Option<nat>)
      requires Enabled(Abs(), TakeForClose(i))
      modifies `client, `closed, `threads
      ensures Abs() == Next(old(Abs()), TakeForClose(i))
      ensures taken == old(client) && client == None && closed
    {
      threads := Next(Abs(), TakeForClose(i)).threads;
      closed := true;
      taken := client;
      client := None;
    }

    /** Close the client taken out, if there was one, outside the mutex. */
    method ShutTaken(taken: Option<nat>, ghost i: nat)
      requires i < |threads| && (threads[i] == Closing(taken) || (threads[i].Retiring? && threads[i].taken == taken))
      modifies `shut, `threads
      ensures Abs() == Next(old(Abs()), ShutHeld(i))
      ensures shut == WithClosed(old(shut), taken)
    {
      threads := Next(Abs(), ShutHeld(i)).threads;
      if taken.Some? {
        Shut(taken.value);
      }
    }

    /** keepAlive from a received error to its backoff: take the client out and close it. */
    method RetireLost(ghost i: nat)
      requires Enabled(Abs(), TakeError(i))
      modifies `client, `shut, `errPending, `threads
      ensures var steps := [TakeError(i), Detach(i), ShutHeld(i)];
              ValidRun(old(Abs()), steps) && Abs() == Run(old(Abs()), steps)
      ensures client == None && (old(client).Some? ==> old(client).value in shut)
    {
      ghost var s := Abs();
      threads := Next(s, TakeError(i)).threads;
      errPending := false;
      ghost var s1 := Abs();
      var taken := DetachLocked(i);
      ghost var s2 := Abs();
      ShutTaken(taken, i);
      RunOfThree(s, TakeError(i), s1, Detach(i), s2, ShutHeld(i));
    }

    /** Touch, up to its answer: `dead` is what the library or the server's start time says of
        the client found. A dead one is closed and an error left for keepAlive. */
    method Touch(dead: bool, ghost i: nat) returns (alive: bool, ghost steps: seq<Step>)
      requires Enabled(Abs(), ReadForTouch(i))
      modifies `shut, `errPending, `threads
      ensures ValidRun(old(Abs()), steps) && Abs() == Run(old(Abs()), steps)
      ensures alive == (client.Some? && !dead)
      ensures client.Some? && dead ==> client.value in shut && errPending
      ensures client.None? || !dead ==> shut == old(shut) && errPending == old(errPending)
    {
      ghost var s := Abs();
      threads := Next(s, ReadForTouch(i)).threads;
      RunExtend(s, [], ReadForTouch(i));
      steps := [] + [ReadForTouch(i)];
      if client.None? {
        return false, steps;
      }
      ghost var last := if dead then ShutHeld(i) else TouchHealthy(i);
      threads := Next(Abs(), last).threads;
      if dead {
        Shut(client.value);
        errPending := true;
      }
      RunExtend(s, steps, last);
      return !dead, steps + [last];
    }

    /** One uninterrupted Close. */
    method Close(ghost i: nat)
      requires Enabled(Abs(), Cancel(i))
      modifies `client, `shut, `cancelled, `closed, `threads
      ensures var steps := [Cancel(i), TakeForClose(i), ShutHeld(i)];
              ValidRun(old(Abs()), steps) && Abs() == Run(old(Abs()), steps)
      ensures closed && cancelled && client == None && (old(client).Some? ==> old(client).value in shut)
    {
      ghost var s := Abs();
      threads := Next(s, Cancel(i)).threads;
      cancelled := true;
      ghost var s1 := Abs();
      var taken := CloseLocked(i);
      ghost var s2 := Abs();
      ShutTaken(taken, i);
      RunOfThree(s, Cancel(i), s1, TakeForClose(i), s2, ShutHeld(i));
    }
  }

  lemma RunOfThree(s: State, a: Step, s1: State, b: Step, s2: State, c: Step)
    requires Enabled(s, a) && s1 == Next(s, a)
    requires Enabled(s1, b) && s2 == Next(s1, b)
    requires Enabled(s2, c)
    ensures ValidRun(s, [a, b, c]) && Run(s, [a, b, c]) == Next(s2, c)
  {
    RunExtend(s, [], a);
    RunExtend(s, [a], b);
    RunExtend(s, [a, b], c);
    assert [] + [a] == [a];
    assert [a] + [b] == [a, b];
    assert [a, b] + [c] == [a, b, c];
  }
}
