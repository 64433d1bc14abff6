/** Sliding windows that forget: the login limiter rebuilds its list of attempts,
    snitch filters its lists in place. Either way the list tells exactly what the
    whole history would. Times are nanoseconds. */
module Windows {
  import opened Seqs
  import Cooldown

  function After(cutoff: int): int -> bool { (t: int) => t > cutoff }

  predicate Nondecreasing(times: seq<int>) {
    forall i, j :: 0 <= i < j < |times| ==> times[i] <= times[j]
  }

  /** What is left of a list after an early trim can stand for the whole at any later cutoff. */
  lemma TrimThenTrim(times: seq<int>, early: int, late: int)
    requires early <= late
    ensures Filter(Filter(times, After(early)), After(late)) == Filter(times, After(late))
  {
    FilterTwice(times, After(early), After(late));
  }

  // ----- The login limiter -----

  const LOGIN_MAX_ATTEMPTS := 10
  const LOGIN_WINDOW := 60_000_000_000

  function Rebuilt(prev: seq<int>, now: int): seq<int> { Filter(prev, After(now - LOGIN_WINDOW)) + [now] }

  function Stored(windows: map<string, seq<int>>, ip: string): seq<int> {
    if ip in windows then windows[ip] else []
  }

  class LoginRateLimiter {
    var windows: map<string, seq<int>>

    constructor ()
      ensures windows == map[]
    {
      windows := map[];
    }

    method Allow(ip: string, now: int) returns (ok: bool)
      modifies this
      ensures windows == old(windows)[ip := Rebuilt(Stored(old(windows), ip), now)]
      ensures ok == (|Rebuilt(Stored(old(windows), ip), now)| <= LOGIN_MAX_ATTEMPTS)
    {
      var cutoff := now - LOGIN_WINDOW;
      var prev := if ip in windows then windows[ip] else [];
      var kept: seq<int> := [];
      for i := 0 to |prev|
        invariant kept == Filter(prev[..i], After(cutoff))
        invariant windows == old(windows)
      {
        FilterAppend(prev[..i], prev[i], After(cutoff));
        assert prev[..i + 1] == prev[..i] + [prev[i]];
        if prev[i] > cutoff {
          kept := kept + [prev[i]];
        }
      }
      assert prev[..|prev|] == prev;
      kept := kept + [now];
      windows := windows[ip := kept];
      return |kept| <= LOGIN_MAX_ATTEMPTS;
    }
  }

  datatype Attempt = Attempt(ip: string, at: int)

  /** The stored lists after a run of attempts from any addresses. */
  function LoginRun(attempts: seq<Attempt>): map<string, seq<int>> {
    if attempts == [] then map[]
    else
      var before := LoginRun(attempts[..|attempts| - 1]);
      var a := attempts[|attempts| - 1];
      before[a.ip := Rebuilt(Stored(before, a.ip), a.at)]
  }

  /** When one address tried, over the whole run. */
  function TimesOf(attempts: seq<Attempt>, ip: string): seq<int> {
    if attempts == [] then []
    else
      var a := attempts[|attempts| - 1];
      TimesOf(attempts[..|attempts| - 1], ip) + (if a.ip == ip then [a.at] else [])
  }

  /** The answer to attempt k. */
  predicate LoginAllowed(attempts: seq<Attempt>, k: nat)
    requires k < |attempts|
  {
    |Stored(LoginRun(attempts[..k + 1]), attempts[k].ip)| <= LOGIN_MAX_ATTEMPTS
  }

  predicate InOrder(attempts: seq<Attempt>) {
    forall i, j :: 0 <= i < j < |attempts| ==> attempts[i].at <= attempts[j].at
  }

  lemma {:induction false} TimesAreBounded(attempts: seq<Attempt>, ip: string)
    requires InOrder(attempts)
    ensures forall t | t in TimesOf(attempts, ip) :: t <= attempts[|attempts| - 1].at
    ensures Nondecreasing(TimesOf(attempts, ip))
  {
    if attempts != [] {
      var init := attempts[..|attempts| - 1];
      TimesAreBounded(init, ip);
      var before := TimesOf(init, ip);
      if init != [] {
        assert init[|init| - 1].at <= attempts[|attempts| - 1].at;
      }
      assert forall i | 0 <= i < |before| :: before[i] in before && before[i] <= attempts[|attempts| - 1].at;
    }
  }

  function LastOf(times: seq<int>): int
    requires times != []
  {
    times[|times| - 1]
  }

  /** A history cut to the window that ends with its last entry. */
  function Cut(times: seq<int>): seq<int> {
    if times == [] then [] else Filter(times, After(LastOf(times) - LOGIN_WINDOW))
  }

  lemma RebuiltExact(times: seq<int>, now: int)
    requires times != [] ==> LastOf(times) <= now
    ensures Rebuilt(Cut(times), now) == Cut(times + [now])
  {
    FilterAppend(times, now, After(now - LOGIN_WINDOW));
    if times != [] {
      TrimThenTrim(times, LastOf(times) - LOGIN_WINDOW, now - LOGIN_WINDOW);
    }
  }

  /** The stored list is the address's whole history, cut to the window that ends
      with its last attempt. */
  lemma {:induction false} LoginWindowExact(attempts: seq<Attempt>, ip: string)
    requires InOrder(attempts)
    ensures Stored(LoginRun(attempts), ip) == Cut(TimesOf(attempts, ip))
  {
    if attempts == [] {
      NoAttempts(ip);
    } else {
      hide LoginRun, TimesOf, Rebuilt, Stored, Cut;
      var init := attempts[..|attempts| - 1];
      var a := attempts[|attempts| - 1];
      LoginWindowExact(init, ip);
      LastAttempt(attempts, ip);
      RebuiltExact(TimesOf(init, ip), a.at);
      LoginStep(attempts, ip);
    }
  }

  lemma NoAttempts(ip: string)
    ensures Stored(LoginRun([]), ip) == Cut(TimesOf([], ip))
  {}

  lemma LastAttempt(attempts: seq<Attempt>, ip: string)
    requires InOrder(attempts) && attempts != []
    ensures
      var before := TimesOf(attempts[..|attempts| - 1], ip);
      before != [] ==> LastOf(before) <= attempts[|attempts| - 1].at
  {
    var init := attempts[..|attempts| - 1];
    TimesAreBounded(init, ip);
    var before := TimesOf(init, ip);
    if before != [] {
      assert LastOf(before) in before;
      assert init != [] && init[|init| - 1].at <= attempts[|attempts| - 1].at;
    }
  }

  lemma LoginStep(attempts: seq<Attempt>, ip: string)
    requires attempts != []
    ensures
      var init, a := attempts[..|attempts| - 1], attempts[|attempts| - 1];
      && (a.ip == ip ==>
            && TimesOf(attempts, ip) == TimesOf(init, ip) + [a.at]
            && Stored(LoginRun(attempts), ip) == Rebuilt(Stored(LoginRun(init), ip), a.at))
      && (a.ip != ip ==>
            && TimesOf(attempts, ip) == TimesOf(init, ip)
            && Stored(LoginRun(attempts), ip) == Stored(LoginRun(init), ip))
  {
    hide Rebuilt;
  }

  /** How many attempts the address has made in the minute that ends with attempt k. */
  function MadeInWindow(attempts: seq<Attempt>, k: nat): nat
    requires k < |attempts|
  {
    Count(TimesOf(attempts[..k + 1], attempts[k].ip), After(attempts[k].at - LOGIN_WINDOW))
  }

  /** An attempt is allowed exactly when the address has made at most ten in the
      minute that ends with it, refused ones included. */
  lemma LoginAllowedExact(attempts: seq<Attempt>, k: nat)
    requires InOrder(attempts) && k < |attempts|
    ensures LoginAllowed(attempts, k) <==> MadeInWindow(attempts, k) <= LOGIN_MAX_ATTEMPTS
  {
    var upTo := attempts[..k + 1];
    var ip := attempts[k].ip;
    assert upTo[..|upTo| - 1] == attempts[..k];
    LoginWindowExact(upTo, ip);
    var times := TimesOf(upTo, ip);
    assert times == TimesOf(attempts[..k], ip) + [attempts[k].at];
    CountIsFilterLength(times, After(attempts[k].at - LOGIN_WINDOW));
  }

  predicate AllowedWithin(attempts: seq<Attempt>, ip: string, end: int, k: nat)
    requires k < |attempts|
  {
    attempts[k].ip == ip && end - LOGIN_WINDOW < attempts[k].at <= end && LoginAllowed(attempts, k)
  }

  /** How many of the first n attempts were allowed with times in (end - window, end]. */
  function AllowedIn(attempts: seq<Attempt>, ip: string, end: int, n: nat): nat
    requires n <= |attempts|
  {
    if n == 0 then 0
    else AllowedIn(attempts, ip, end, n - 1) + (if AllowedWithin(attempts, ip, end, n - 1) then 1 else 0)
  }

  lemma CountOneMore(attempts: seq<Attempt>, ip: string, n: nat, cutoff: int)
    requires n < |attempts|
    ensures Count(TimesOf(attempts[..n + 1], ip), After(cutoff)) ==
            Count(TimesOf(attempts[..n], ip), After(cutoff))
            + (if attempts[n].ip == ip && attempts[n].at > cutoff then 1 else 0)
  {
    assert attempts[..n + 1][..n] == attempts[..n];
    CountAppend(TimesOf(attempts[..n], ip), attempts[n].at, After(cutoff));
    assert TimesOf(attempts[..n], ip) + [] == TimesOf(attempts[..n], ip);
  }

  lemma {:induction false} AllowedWereMade(attempts: seq<Attempt>, ip: string, end: int, n: nat, cutoff: int)
    requires n <= |attempts| && cutoff <= end - LOGIN_WINDOW
    ensures AllowedIn(attempts, ip, end, n) <= Count(TimesOf(attempts[..n], ip), After(cutoff))
  {
    hide TimesOf, Count, LoginAllowed;
    if n > 0 {
      AllowedWereMade(attempts, ip, end, n - 1, cutoff);
      CountOneMore(attempts, ip, n - 1, cutoff);
    }
  }

  /** In any one-minute window, wherever it lies, an address gets at most ten attempts. */
  lemma {:induction false} LoginBound(attempts: seq<Attempt>, ip: string, end: int, n: nat)
    requires InOrder(attempts) && n <= |attempts|
    ensures AllowedIn(attempts, ip, end, n) <= LOGIN_MAX_ATTEMPTS
  {
    hide TimesOf, Count, LoginAllowed;
    if n > 0 {
      if AllowedWithin(attempts, ip, end, n - 1) {
        LoginAllowedExact(attempts, n - 1);
        AllowedWereMade(attempts, ip, end, n, attempts[n - 1].at - LOGIN_WINDOW);
      } else {
        LoginBound(attempts, ip, end, n - 1);
      }
    }
  }

  // ----- Snitch -----

  const ALERT_COOLDOWN := 60_000_000_001 // strictly more than sixty seconds

  datatype SnitchConfig = SnitchConfig(
    floodMessages: int, floodWindow: int, joinPartThreshold: int, joinPartWindow: int)

  /** What happens to one nick in one channel. */
  datatype Event = Msg(at: int) | Check(at: int) | JoinPart(at: int)

  datatype WindowState = WindowState(msgs: seq<int>, joinPart: seq<int>)

  function Trimmed(cfg: SnitchConfig, w: WindowState, now: int): WindowState {
    WindowState(Filter(w.msgs, After(now - cfg.floodWindow)), Filter(w.joinPart, After(now - cfg.joinPartWindow)))
  }

  /** The window after an event, and whether the event raised its condition: a
      flood at a check, cycling at a join or part. */
  function Apply(cfg: SnitchConfig, w: WindowState, e: Event): (WindowState, bool) {
    var t := Trimmed(cfg, w, e.at);
    match e
    case Msg(at) => (t.(msgs := t.msgs + [at]), false)
    case Check(at) => (t, |t.msgs| >= cfg.floodMessages)
    case JoinPart(at) =>
      var joinPart := t.joinPart + [at];
      if |joinPart| >= cfg.joinPartThreshold then (t.(joinPart := []), true) else (t.(joinPart := joinPart), false)
  }

  /** Keeps, in place, the first n elements that are after the cutoff. */
  method FilterInPlace(a: array<int>, n: nat, cutoff: int) returns (kept: nat)
    requires n <= a.Length
    modifies a
    ensures kept <= n && a[..kept] == Filter(old(a[..n]), After(cutoff))
  {
    kept := 0;
    ghost var before := a[..n];
    for i := 0 to n
      invariant kept <= i
      invariant a[..kept] == Filter(before[..i], After(cutoff))
      invariant forall k | i <= k < n :: a[k] == before[k]
    {
      FilterAppend(before[..i], before[i], After(cutoff));
      assert before[..i + 1] == before[..i] + [before[i]];
      if a[i] > cutoff {
        a[kept] := a[i];
        kept := kept + 1;
      }
    }
    assert before[..n] == before;
  }

  /** A slice: the first `len` elements of a backing array that appends may replace. */
  class TimeSlice {
    var data: array<int>
    var len: nat

    ghost predicate Valid()
      reads this
    {
      len <= data.Length
    }

    ghost function Contents(): seq<int>
      requires Valid()
      reads this, data
    {
      data[..len]
    }

    constructor ()
      ensures Valid() && fresh(data) && Contents() == []
    {
      data := new int[0];
      len := 0;
    }

    method Trim(cutoff: int)
      requires Valid()
      modifies this, data
      ensures Valid() && data == old(data) && Contents() == Filter(old(Contents()), After(cutoff))
    {
      len := FilterInPlace(data, len, cutoff);
    }

    method Append(t: int)
      requires Valid()
      modifies this, data
      ensures Valid() && (data == old(data) || fresh(data)) && Contents() == old(Contents()) + [t]
    {
      if len == data.Length {
        var bigger := new int[2 * len + 1];
        forall k | 0 <= k < len {
          bigger[k] := data[k];
        }
        assert bigger[..len] == data[..len];
        data := bigger;
      }
      data[len] := t;
      len := len + 1;
    }

    method Clear()
      requires Valid()
      modifies this
      ensures Valid() && data == old(data) && Contents() == []
    {
      len := 0;
    }
  }

  class NickWindow {
    const msgs: TimeSlice
    const joinPart: TimeSlice

    ghost predicate Valid()
      reads this, msgs, joinPart
    {
      msgs != joinPart && msgs.data != joinPart.data && msgs.Valid() && joinPart.Valid()
    }

    ghost function Abs(): WindowState
      requires Valid()
      reads this, msgs, joinPart, msgs.data, joinPart.data
    {
      WindowState(msgs.Contents(), joinPart.Contents())
    }

    constructor ()
      ensures Valid() && fresh(msgs) && fresh(joinPart) && fresh(msgs.data) && fresh(joinPart.data)
      ensures Abs() == WindowState([], [])
    {
      msgs := new TimeSlice();
      joinPart := new TimeSlice();
    }

    method Trim(cfg: SnitchConfig, now: int)
      requires Valid()
      modifies msgs, joinPart, msgs.data, joinPart.data
      ensures Valid() && msgs.data == old(msgs.data) && joinPart.data == old(joinPart.data)
      ensures Abs() == Trimmed(cfg, old(Abs()), now)
    {
      msgs.Trim(now - cfg.floodWindow);
      joinPart.Trim(now - cfg.joinPartWindow);
    }

    method RecordMsg(cfg: SnitchConfig, now: int)
      requires Valid()
      modifies msgs, joinPart, msgs.data, joinPart.data
      ensures Valid() && Abs() == Apply(cfg, old(Abs()), Msg(now)).0
    {
      Trim(cfg, now);
      msgs.Append(now);
    }

    method RecordJoinPart(cfg: SnitchConfig, now: int) returns (alert: bool)
      requires Valid()
      modifies msgs, joinPart, msgs.data, joinPart.data
      ensures Valid() && Abs() == Apply(cfg, old(Abs()), JoinPart(now)).0
      ensures alert == Apply(cfg, old(Abs()), JoinPart(now)).1
    {
      Trim(cfg, now);
      joinPart.Append(now);
      alert := joinPart.len >= cfg.joinPartThreshold;
      if alert {
        joinPart.Clear();
      }
    }

    /** The flood test, before the alert cooldown. */
    method CheckFlood(cfg: SnitchConfig, now: int) returns (flood: bool)
      requires Valid()
      modifies msgs, joinPart, msgs.data, joinPart.data
      ensures Valid() && Abs() == Apply(cfg, old(Abs()), Check(now)).0
      ensures flood == Apply(cfg, old(Abs()), Check(now)).1
    {
      Trim(cfg, now);
      flood := msgs.len >= cfg.floodMessages;
    }
  }

  class Snitch {
    const cfg: SnitchConfig
    var alerted: Cooldown.TimeMap

    constructor (cfg: SnitchConfig)
      ensures this.cfg == cfg && alerted == map[]
    {
      this.cfg := cfg;
      alerted := map[];
    }

    /** checkFlood on the nick's window: alert unless one was raised at most sixty seconds ago. */
    method CheckFlood(w: NickWindow, channel: string, nick: string, now: int, pruneAt: int) returns (alert: bool)
      requires w.Valid()
      modifies `alerted, w.msgs, w.joinPart, w.msgs.data, w.joinPart.data
      ensures w.Valid() && w.Abs() == Apply(cfg, old(w.Abs()), Check(now)).0
      ensures
        var (m, act) := Cooldown.Step(ALERT_COOLDOWN, old(alerted),
                                      Cooldown.Act(FloodKey(channel, nick), now, now, pruneAt));
        if Apply(cfg, old(w.Abs()), Check(now)).1 then alert == act && alerted == m
        else !alert && alerted == old(alerted)
      ensures
        var key := FloodKey(channel, nick);
        alert <==> && Apply(cfg, old(w.Abs()), Check(now)).1
                   && (key in old(alerted) ==> now - old(alerted)[key] > 60_000_000_000)
    {
      var flood := w.CheckFlood(cfg, now);
      alert := false;
      if flood {
        var key := "flood:" + channel + ":" + nick;
        if key !in alerted || now - alerted[key] > 60_000_000_000 {
          alerted := alerted[key := now];
          alerted := Cooldown.PruneTimeMap(alerted, pruneAt, Cooldown.DAY);
          alert := true;
        }
      }
    }
  }

  function FloodKey(channel: string, nick: string): string { "flood:" + channel + ":" + nick }

  // ----- Trimming loses nothing that matters -----

  function Play(cfg: SnitchConfig, events: seq<Event>): WindowState {
    if events == [] then WindowState([], [])
    else Apply(cfg, Play(cfg, events[..|events| - 1]), events[|events| - 1]).0
  }

  /** Whether event k raised its condition. */
  predicate Raised(cfg: SnitchConfig, events: seq<Event>, k: nat)
    requires k < |events|
  {
    Apply(cfg, Play(cfg, events[..k]), events[k]).1
  }

  predicate EventsInOrder(events: seq<Event>) {
    forall i, j :: 0 <= i < j < |events| ==> events[i].at <= events[j].at
  }

  /** Every message ever recorded. */
  function MsgTimes(events: seq<Event>): seq<int> {
    if events == [] then []
    else
      var e := events[|events| - 1];
      MsgTimes(events[..|events| - 1]) + (if e.Msg? then [e.at] else [])
  }

  /** Every join or part since cycling was last reported, judged on the full history. */
  function JoinPartsSinceAlert(cfg: SnitchConfig, events: seq<Event>): seq<int> {
    if events == [] then []
    else
      var before := JoinPartsSinceAlert(cfg, events[..|events| - 1]);
      var e := events[|events| - 1];
      if !e.JoinPart? then before
      else if CountAfter(before, e.at - cfg.joinPartWindow) + 1 >= cfg.joinPartThreshold then []
      else before + [e.at]
  }

  function CountAfter(times: seq<int>, cutoff: int): nat { Count(times, After(cutoff)) }

  /** Two lists that no question about the time after the cutoff can tell apart. */
  ghost predicate SameAfter(a: seq<int>, b: seq<int>, cutoff: int) {
    forall c | c >= cutoff :: Filter(a, After(c)) == Filter(b, After(c))
  }

  lemma TrimmedIsSame(a: seq<int>, b: seq<int>, cutoff: int)
    requires SameAfter(a, b, cutoff)
    ensures SameAfter(Filter(a, After(cutoff)), b, cutoff)
  {
    forall c | c >= cutoff
      ensures Filter(Filter(a, After(cutoff)), After(c)) == Filter(b, After(c))
    {
      TrimThenTrim(a, cutoff, c);
    }
  }

  lemma AppendedIsSame(a: seq<int>, b: seq<int>, cutoff: int, t: int)
    requires SameAfter(a, b, cutoff)
    ensures SameAfter(a + [t], b + [t], cutoff)
  {
    forall c | c >= cutoff
      ensures Filter(a + [t], After(c)) == Filter(b + [t], After(c))
    {
      FilterAppend(a, t, After(c));
      FilterAppend(b, t, After(c));
    }
  }

  lemma SameCount(a: seq<int>, b: seq<int>, cutoff: int)
    requires SameAfter(a, b, cutoff)
    ensures |Filter(a, After(cutoff))| == CountAfter(b, cutoff)
  {
    CountIsFilterLength(b, After(cutoff));
  }

  /** The trimmed lists answer every question about the recent past as the full
      histories do. */
  ghost predicate Faithful(cfg: SnitchConfig, events: seq<Event>, from: int) {
    && SameAfter(Play(cfg, events).msgs, MsgTimes(events), from - cfg.floodWindow)
    && SameAfter(Play(cfg, events).joinPart, JoinPartsSinceAlert(cfg, events), from - cfg.joinPartWindow)
  }

  lemma {:induction false} PlayIsFaithful(cfg: SnitchConfig, events: seq<Event>, from: int)
    requires EventsInOrder(events) && (events != [] ==> events[|events| - 1].at <= from)
    ensures Faithful(cfg, events, from)
  {
    hide Apply, Filter, SameAfter, Play, MsgTimes, JoinPartsSinceAlert;
    if events != [] {
      var init, e := events[..|events| - 1], events[|events| - 1];
      PlayIsFaithful(cfg, init, e.at);
      ApplyKeepsMsgs(cfg, Play(cfg, init), MsgTimes(init), e);
      ApplyKeepsJoinParts(cfg, Play(cfg, init), JoinPartsSinceAlert(cfg, init), e);
      EventStep(cfg, events);
      SameLater(Play(cfg, events).msgs, MsgTimes(events), e.at - cfg.floodWindow, from - cfg.floodWindow);
      SameLater(Play(cfg, events).joinPart, JoinPartsSinceAlert(cfg, events),
                e.at - cfg.joinPartWindow, from - cfg.joinPartWindow);
    } else {
      NothingYet(cfg, from);
    }
  }

  lemma NothingYet(cfg: SnitchConfig, from: int)
    ensures Faithful(cfg, [], from)
  {}

  lemma SameLater(a: seq<int>, b: seq<int>, early: int, late: int)
    requires SameAfter(a, b, early) && early <= late
    ensures SameAfter(a, b, late)
  {}

  lemma EventStep(cfg: SnitchConfig, events: seq<Event>)
    requires events != []
    ensures
      var init, e := events[..|events| - 1], events[|events| - 1];
      && Play(cfg, events) == Apply(cfg, Play(cfg, init), e).0
      && MsgTimes(events) == MsgTimes(init) + (if e.Msg? then [e.at] else [])
      && JoinPartsSinceAlert(cfg, events) ==
         var before := JoinPartsSinceAlert(cfg, init);
         if !e.JoinPart? then before
         else if CountAfter(before, e.at - cfg.joinPartWindow) + 1 >= cfg.joinPartThreshold then []
         else before + [e.at]
  {}

  lemma ApplyKeepsMsgs(cfg: SnitchConfig, w: WindowState, all: seq<int>, e: Event)
    requires SameAfter(w.msgs, all, e.at - cfg.floodWindow)
    ensures SameAfter(Apply(cfg, w, e).0.msgs, all + (if e.Msg? then [e.at] else []), e.at - cfg.floodWindow)
  {
    var cutoff := e.at - cfg.floodWindow;
    TrimmedIsSame(w.msgs, all, cutoff);
    AppendedIsSame(Filter(w.msgs, After(cutoff)), all, cutoff, e.at);
    assert all + [] == all;
  }

  lemma ApplyKeepsJoinParts(cfg: SnitchConfig, w: WindowState, all: seq<int>, e: Event)
    requires SameAfter(w.joinPart, all, e.at - cfg.joinPartWindow)
    ensures
      var all' := if !e.JoinPart? then all
                  else if CountAfter(all, e.at - cfg.joinPartWindow) + 1 >= cfg.joinPartThreshold then []
                  else all + [e.at];
      SameAfter(Apply(cfg, w, e).0.joinPart, all', e.at - cfg.joinPartWindow)
  {
    var cutoff := e.at - cfg.joinPartWindow;
    TrimmedIsSame(w.joinPart, all, cutoff);
    AppendedIsSame(Filter(w.joinPart, After(cutoff)), all, cutoff, e.at);
    SameCount(w.joinPart, all, cutoff);
  }

  /** A check finds a flood exactly when at least FloodMessages of all the messages
      ever recorded lie within the flood window. */
  lemma FloodExact(cfg: SnitchConfig, events: seq<Event>, k: nat)
    requires EventsInOrder(events) && k < |events| && events[k].Check?
    ensures Raised(cfg, events, k) <==>
            CountAfter(MsgTimes(events[..k]), events[k].at - cfg.floodWindow) >= cfg.floodMessages
  {
    hide Play, SameAfter, Filter, MsgTimes, JoinPartsSinceAlert, CountAfter;
    assert k > 0 ==> events[..k][k - 1] == events[k - 1] && events[k - 1].at <= events[k].at;
    PlayIsFaithful(cfg, events[..k], events[k].at);
    SameCount(Play(cfg, events[..k]).msgs, MsgTimes(events[..k]), events[k].at - cfg.floodWindow);
  }

  /** Cycling is reported exactly when this join or part and those since the last
      report that lie within the window reach the threshold. */
  lemma CyclingExact(cfg: SnitchConfig, events: seq<Event>, k: nat)
    requires EventsInOrder(events) && k < |events| && events[k].JoinPart?
    ensures Raised(cfg, events, k) <==>
            CountAfter(JoinPartsSinceAlert(cfg, events[..k]), events[k].at - cfg.joinPartWindow) + 1
            >= cfg.joinPartThreshold
  {
    hide Play, SameAfter, Filter, MsgTimes, JoinPartsSinceAlert, CountAfter;
    assert k > 0 ==> events[..k][k - 1] == events[k - 1] && events[k - 1].at <= events[k].at;
    PlayIsFaithful(cfg, events[..k], events[k].at);
    SameCount(Play(cfg, events[..k]).joinPart, JoinPartsSinceAlert(cfg, events[..k]),
      events[k].at - cfg.joinPartWindow);
  }
}
