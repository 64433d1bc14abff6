/** The per-key cooldowns of sentinel, steward and snitch. All three remember when
    they last acted on a key, refuse to act again too soon, and drop memories older
    than a day each time they act. Times are nanoseconds. */
module Cooldown {

  const DAY := 86_400_000_000_000

  type TimeMap = map<string, int>

  /** One request to act on a key, with the clock readings the code takes: to
      check the cooldown, to stamp the action, to prune; or an operator's
      dismissal, which forgets the key. */
  datatype Request = Act(key: string, check: int, stamp: int, prune: int) | Forget(key: string)

  /** Still cooling: less than `wait` since the last action. */
  predicate Cooling(m: TimeMap, key: string, now: int, wait: int) {
    key in m && now - m[key] < wait
  }

  function Pruned(m: TimeMap, cutoff: int): TimeMap {
    map k | k in m && m[k] >= cutoff :: m[k]
  }

  /** The code: act unless cooling, stamp the key, prune what is older than a day. */
  function Step(wait: int, m: TimeMap, r: Request): (TimeMap, bool) {
    match r
    case Forget(key) => (m - {key}, false)
    case Act(key, check, stamp, prune) =>
      if Cooling(m, key, check, wait) then (m, false)
      else (Pruned(m[key := stamp], prune - DAY), true)
  }

  /** The same without pruning. */
  function StepKeepingAll(wait: int, m: TimeMap, r: Request): (TimeMap, bool) {
    match r
    case Forget(key) => (m - {key}, false)
    case Act(key, check, stamp, prune) =>
      if Cooling(m, key, check, wait) then (m, false) else (m[key := stamp], true)
  }

  function Run(wait: int, rs: seq<Request>): (TimeMap, seq<bool>) {
    if rs == [] then (map[], [])
    else
      var (m, acted) := Run(wait, rs[..|rs| - 1]);
      var (m', act) := Step(wait, m, rs[|rs| - 1]);
      (m', acted + [act])
  }

  function RunKeepingAll(wait: int, rs: seq<Request>): (TimeMap, seq<bool>) {
    if rs == [] then (map[], [])
    else
      var (m, acted) := RunKeepingAll(wait, rs[..|rs| - 1]);
      var (m', act) := StepKeepingAll(wait, m, rs[|rs| - 1]);
      (m', acted + [act])
  }

  /** The clock never goes back, within a request or from one to the next. */
  predicate ClockRuns(rs: seq<Request>) {
    && (forall i | 0 <= i < |rs| && rs[i].Act? :: rs[i].check <= rs[i].stamp <= rs[i].prune)
    && (forall i, j | 0 <= i < j < |rs| && rs[i].Act? && rs[j].Act? :: rs[i].prune <= rs[j].check)
  }

  /** The pruned map agrees with the full one, except that it may lack memories
      more than a day older than some prune that has already happened. */
  ghost predicate Agree(m: TimeMap, full: TimeMap, rs: seq<Request>) {
    && (forall k | k in m :: k in full && full[k] == m[k])
    && (forall k | k in full && k !in m ::
          exists i | 0 <= i < |rs| :: rs[i].Act? && full[k] < rs[i].prune - DAY)
  }

  lemma AgreeDecides(wait: int, m: TimeMap, full: TimeMap, rs: seq<Request>, r: Request)
    requires Agree(m, full, rs) && wait <= DAY + 1
    requires r.Act? && forall i | 0 <= i < |rs| && rs[i].Act? :: rs[i].prune <= r.check
    ensures Cooling(m, r.key, r.check, wait) <==> Cooling(full, r.key, r.check, wait)
  {
    if r.key in full && r.key !in m {
      var i :| 0 <= i < |rs| && rs[i].Act? && full[r.key] < rs[i].prune - DAY;
      assert rs[i].prune <= r.check;
    }
  }

  lemma AgreeStep(wait: int, m: TimeMap, full: TimeMap, rs: seq<Request>, r: Request)
    requires Agree(m, full, rs) && wait <= DAY + 1
    requires r.Act? ==> forall i | 0 <= i < |rs| && rs[i].Act? :: rs[i].prune <= r.check
    ensures Step(wait, m, r).1 == StepKeepingAll(wait, full, r).1
    ensures Agree(Step(wait, m, r).0, StepKeepingAll(wait, full, r).0, rs + [r])
  {
    var rs' := rs + [r];
    if r.Act? {
      AgreeDecides(wait, m, full, rs, r);
    }
    var m', full' := Step(wait, m, r).0, StepKeepingAll(wait, full, r).0;
    forall k | k in full' && k !in m'
      ensures exists i | 0 <= i < |rs'| :: rs'[i].Act? && full'[k] < rs'[i].prune - DAY
    {
      if r.Act? && (k in m || k == r.key) {
        assert rs'[|rs|] == r;
      } else {
        var i :| 0 <= i < |rs| && rs[i].Act? && full[k] < rs[i].prune - DAY;
        assert rs'[i] == rs[i];
      }
    }
  }

  lemma {:induction false} RunsAgree(wait: int, rs: seq<Request>)
    requires ClockRuns(rs) && wait <= DAY + 1
    ensures Run(wait, rs).1 == RunKeepingAll(wait, rs).1
    ensures Agree(Run(wait, rs).0, RunKeepingAll(wait, rs).0, rs)
  {
    if rs != [] {
      var n := |rs| - 1;
      RunsAgree(wait, rs[..n]);
      AgreeStep(wait, Run(wait, rs[..n]).0, RunKeepingAll(wait, rs[..n]).0, rs[..n], rs[n]);
      assert rs == rs[..n] + [rs[n]];
    }
  }

  /** A run on which pruning shows: two keys, more than a day apart, then the first again. */
  function Revealing(): seq<Request> {
    [Act("a", 0, 0, 0), Act("b", DAY + 1, DAY + 1, DAY + 1), Act("a", DAY + 1, DAY + 1, DAY + 1)]
  }

  lemma RevealingDiffers(wait: int)
    requires wait > DAY + 1
    ensures ClockRuns(Revealing())
    ensures Run(wait, Revealing()).1 != RunKeepingAll(wait, Revealing()).1
  {
    var a, b, c := Revealing()[0], Revealing()[1], Revealing()[2];
    var m1, m2 := map["a" := 0], map["b" := DAY + 1];
    var m0: TimeMap := map[];
    assert Step(wait, m0, a).0 == m1 && StepKeepingAll(wait, m0, a).0 == m1;
    assert Step(wait, m1, b).0 == m2;
    RunOneMore(wait, [], a);
    RunOneMore(wait, [a], b);
    RunOneMore(wait, [a, b], c);
    assert [] + [a] == [a] && [a] + [b] == [a, b] && [a, b] + [c] == Revealing();
    assert Run(wait, [a, b]).0 == m2 && |Run(wait, [a, b]).1| == 2;
    assert Run(wait, Revealing()).1[2] && !RunKeepingAll(wait, Revealing()).1[2];
  }

  lemma RunOneMore(wait: int, rs: seq<Request>, r: Request)
    ensures
      var (m, acted) := Run(wait, rs);
      Run(wait, rs + [r]) == (Step(wait, m, r).0, acted + [Step(wait, m, r).1])
    ensures
      var (full, acted) := RunKeepingAll(wait, rs);
      RunKeepingAll(wait, rs + [r]) == (StepKeepingAll(wait, full, r).0, acted + [StepKeepingAll(wait, full, r).1])
  {
    assert (rs + [r])[..|rs|] == rs;
  }

  /** Pruning never changes a decision, on any run with a forward clock, exactly
      when the cooldown is at most a day and a nanosecond. */
  lemma PruningInvisible(wait: int)
    ensures wait <= 86_400_000_000_001 <==> forall rs | ClockRuns(rs) :: Run(wait, rs).1 == RunKeepingAll(wait, rs).1
  {
    if wait <= DAY + 1 {
      forall rs | ClockRuns(rs)
        ensures Run(wait, rs).1 == RunKeepingAll(wait, rs).1
      {
        RunsAgree(wait, rs);
      }
    } else {
      RevealingDiffers(wait);
    }
  }

  // ----- Spacing -----

  lemma {:induction false} RunLength(wait: int, rs: seq<Request>)
    ensures |Run(wait, rs).1| == |rs| && |RunKeepingAll(wait, rs).1| == |rs|
    ensures forall n | 0 <= n <= |rs| ::
              |Run(wait, rs[..n]).1| == n && Run(wait, rs[..n]).1 == Run(wait, rs).1[..n]
    ensures forall n | 0 <= n <= |rs| ::
              |RunKeepingAll(wait, rs[..n]).1| == n && RunKeepingAll(wait, rs[..n]).1 == RunKeepingAll(wait, rs).1[..n]
  {
    if rs != [] {
      var last := |rs| - 1;
      RunLength(wait, rs[..last]);
      forall n | 0 <= n <= |rs|
        ensures |Run(wait, rs[..n]).1| == n && Run(wait, rs[..n]).1 == Run(wait, rs).1[..n]
        ensures |RunKeepingAll(wait, rs[..n]).1| == n
        ensures RunKeepingAll(wait, rs[..n]).1 == RunKeepingAll(wait, rs).1[..n]
      {
        if n == |rs| {
          assert rs[..n] == rs;
        } else {
          assert rs[..last][..n] == rs[..n];
        }
      }
    }
  }

  predicate NotForgotten(rs: seq<Request>, key: string, i: nat, j: nat)
    requires i <= j <= |rs|
  {
    forall k | i <= k < j :: rs[k] != Forget(key)
  }

  /** After acting on a key, the full map remembers that action or a later one. */
  lemma {:induction false} StampRemembered(wait: int, rs: seq<Request>, i: nat, n: nat)
    requires ClockRuns(rs) && i < n <= |rs| && rs[i].Act?
    requires |RunKeepingAll(wait, rs).1| == |rs| && RunKeepingAll(wait, rs).1[i]
    requires NotForgotten(rs, rs[i].key, i + 1, n)
    ensures
      var full := RunKeepingAll(wait, rs[..n]).0;
      rs[i].key in full && full[rs[i].key] >= rs[i].stamp
    decreases n
  {
    RunLength(wait, rs);
    var last := n - 1;
    assert rs[..n][..last] == rs[..last];
    if i < last {
      StampRemembered(wait, rs, i, last);
      assert rs[last] != Forget(rs[i].key);
      assert rs[last].Act? ==> rs[i].prune <= rs[last].check;
    } else {
      assert RunKeepingAll(wait, rs[..n]).1[i] == RunKeepingAll(wait, rs).1[i];
    }
  }

  /** Two actions on one key that nobody forgot in between are at least the
      cooldown apart, pruning notwithstanding. */
  lemma ActionsSpaced(wait: int, rs: seq<Request>, i: nat, j: nat)
    requires ClockRuns(rs) && wait <= DAY + 1
    requires i < j < |rs| && rs[i].Act? && rs[j].Act? && rs[i].key == rs[j].key
    requires NotForgotten(rs, rs[i].key, i + 1, j)
    requires |Run(wait, rs).1| == |rs| && Run(wait, rs).1[i] && Run(wait, rs).1[j]
    ensures rs[j].check - rs[i].stamp >= wait
  {
    RunsAgree(wait, rs);
    RunLength(wait, rs);
    StampRemembered(wait, rs, i, j);
    assert rs[..j + 1][..j] == rs[..j];
    assert RunKeepingAll(wait, rs[..j + 1]).1[j] == RunKeepingAll(wait, rs).1[j];
  }

  /** What the full map remembers is an action nobody forgot since. */
  lemma {:induction false} StampComesFrom(wait: int, rs: seq<Request>, key: string, n: nat) returns (i: nat)
    requires n <= |rs| && key in RunKeepingAll(wait, rs[..n]).0
    ensures |RunKeepingAll(wait, rs).1| == |rs|
    ensures i < n && rs[i].Act? && rs[i].key == key && RunKeepingAll(wait, rs).1[i]
    ensures rs[i].stamp == RunKeepingAll(wait, rs[..n]).0[key] && NotForgotten(rs, key, i + 1, n)
    decreases n
  {
    RunLength(wait, rs);
    var last := n - 1;
    assert rs[..n][..last] == rs[..last];
    var before := RunKeepingAll(wait, rs[..last]).0;
    if rs[last].Act? && rs[last].key == key && StepKeepingAll(wait, before, rs[last]).1 {
      i := last;
      assert RunKeepingAll(wait, rs[..n]).1[last] == RunKeepingAll(wait, rs).1[last];
    } else {
      i := StampComesFrom(wait, rs, key, last);
    }
  }

  /** Pruning notwithstanding, a request is acted on exactly when every earlier action
      on its key that nobody forgot in between is at least the cooldown old. */
  lemma ActsExactly(wait: int, rs: seq<Request>, j: nat)
    requires ClockRuns(rs) && wait <= DAY + 1 && j < |rs|
    ensures |Run(wait, rs).1| == |rs|
    ensures Run(wait, rs).1[j] <==>
            rs[j].Act?
            && forall i | 0 <= i < j && IsActionOn(wait, rs, i, rs[j].key) && NotForgotten(rs, rs[j].key, i + 1, j) ::
              rs[j].check - rs[i].stamp >= wait
  {
    RunsAgree(wait, rs);
    RunLength(wait, rs);
    assert rs[..j + 1][..j] == rs[..j];
    assert RunKeepingAll(wait, rs[..j + 1]).1[j] == RunKeepingAll(wait, rs).1[j];
    var full := RunKeepingAll(wait, rs[..j]).0;
    if rs[j].Act? {
      if Cooling(full, rs[j].key, rs[j].check, wait) {
        var i := StampComesFrom(wait, rs, rs[j].key, j);
        assert IsActionOn(wait, rs, i, rs[j].key);
      } else {
        forall i | 0 <= i < j && IsActionOn(wait, rs, i, rs[j].key) && NotForgotten(rs, rs[j].key, i + 1, j)
          ensures rs[j].check - rs[i].stamp >= wait
        {
          StampRemembered(wait, rs, i, j);
        }
      }
    }
  }

  predicate IsActionOn(wait: int, rs: seq<Request>, i: nat, key: string) {
    i < |rs| && i < |Run(wait, rs).1| && rs[i].Act? && rs[i].key == key && Run(wait, rs).1[i]
  }

  // ----- The code -----

  /** Deletes, in the map's own order, every key stamped before the cutoff. */
  method PruneTimeMap(m: TimeMap, now: int, maxAge: int) returns (kept: TimeMap)
    ensures kept == Pruned(m, now - maxAge)
  {
    var cutoff := now - maxAge;
    kept := m;
    var todo := m.Keys;
    while todo != {}
      invariant todo <= m.Keys
      invariant kept == map k | k in m && (k in todo || m[k] >= cutoff) :: m[k]
    {
      var k :| k in todo;
      todo := todo - {k};
      if m[k] < cutoff {
        kept := kept - {k};
      }
    }
  }
}
