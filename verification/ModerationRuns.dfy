/** Which lines sentinel posts and which messages steward acts on, over any run. */
module ModerationRuns {
  import opened Seqs
  import opened Strings
  import opened IncidentText
  import opened Cooldown
  import opened Moderation

  // ----- One line at sentinel -----

  /** The first eight characters are "incident", in any letter case. */
  predicate StartsIncident(line: string) {
    |line| >= 8 && forall i | 0 <= i < 8 :: line[i] == "incident"[i] || line[i] == "INCIDENT"[i]
  }

  /** Low is below medium is below high; a severity that is none of them is never too low,
      and a minimum that is none of them shuts nothing out. */
  predicate SevereEnough(minimum: string, severity: string) {
    && (severity == "low" ==> minimum != "medium" && minimum != "high")
    && (severity == "medium" ==> minimum != "high")
  }

  predicate Wanted(minimum: string, line: string) {
    StartsIncident(line) && SevereEnough(minimum, ParsedLine(line).severity)
  }

  function KeyOf(channel: string, line: string): string { channel + ":" + ParsedLine(line).nick }

  /** No report on the line's nick and channel is remembered that is younger than `wait`. */
  predicate Quiet(wait: int, s: SentinelState, channel: string, line: string, now: int) {
    var key := KeyOf(channel, line);
    key in s.cooldown ==> now - s.cooldown[key] >= wait
  }

  lemma IncidentLineMeans(line: string)
    ensures IsIncidentLine(line) <==> StartsIncident(line)
  {
    if |line| >= 8 {
      var low := Lower(line);
      assert "incident" <= low <==> forall i | 0 <= i < 8 :: low[i] == "incident"[i];
      forall i | 0 <= i < 8
        ensures low[i] == "incident"[i] <==> line[i] == "incident"[i] || line[i] == "INCIDENT"[i]
      {
        LetterCases(line[i], i);
      }
    }
  }

  lemma LetterCases(c: char, i: nat)
    requires i < 8
    ensures LowerChar(c) == "incident"[i] <==> c == "incident"[i] || c == "INCIDENT"[i]
  {
  }

  /** A line is posted if and only if it starts as an incident, is severe enough and comes
      from a quiet nick; otherwise nothing at all changes. */
  lemma PostsExactly(minimum: string, wait: int, s: SentinelState, channel: string, line: string, clk: Clock)
    ensures
      var s' := Consider(minimum, wait, s, channel, line, clk);
      var i := ParsedLine(line);
      if Wanted(minimum, line) && Quiet(wait, s, channel, line, clk.check) then
        && s'.posts == s.posts + [Report(channel, i)]
        && s'.recent == LastN(s.recent + [Posted(clk.prune, channel, i)], 50)
        && s'.cooldown == Pruned(s.cooldown[KeyOf(channel, line) := clk.stamp], clk.prune - DAY)
      else s' == s
  {
    IncidentLineMeans(line);
    hide ParsedLine, IsIncidentLine, Report, StartsIncident, Pruned;
  }

  /** An answer none of whose lines would be posted changes nothing. */
  lemma {:induction false} QuietAnswer(minimum: string, wait: int, s: SentinelState, channel: string,
                                       lines: seq<string>, clocks: seq<Clock>)
    requires |lines| == |clocks|
    requires forall k | 0 <= k < |lines| ::
               !Wanted(minimum, TrimSpace(lines[k])) || !Quiet(wait, s, channel, TrimSpace(lines[k]), clocks[k].check)
    ensures ConsiderAll(minimum, wait, s, channel, lines, clocks) == s
    decreases |lines|
  {
    if lines != [] {
      PostsExactly(minimum, wait, s, channel, TrimSpace(lines[0]), clocks[0]);
      hide Consider, Wanted, Quiet, TrimSpace;
      assert forall k | 0 <= k < |lines| - 1 :: lines[1..][k] == lines[k + 1] && clocks[1..][k] == clocks[k + 1];
      QuietAnswer(minimum, wait, s, channel, lines[1..], clocks[1..]);
    }
  }

  // ----- Runs of sentinel -----

  /** One line of an answer about a channel, and the clock readings taken for it. */
  datatype Seen = Seen(channel: string, line: string, clk: Clock)

  function Watch(minimum: string, wait: int, seen: seq<Seen>): SentinelState {
    if seen == [] then SentinelState(map[], [], [])
    else
      var n := |seen| - 1;
      Consider(minimum, wait, Watch(minimum, wait, seen[..n]), seen[n].channel, seen[n].line, seen[n].clk)
  }

  predicate IsPosted(minimum: string, wait: int, seen: seq<Seen>, k: nat)
    requires k < |seen|
  {
    |Watch(minimum, wait, seen[..k + 1]).posts| > |Watch(minimum, wait, seen[..k]).posts|
  }

  /** The clock never goes back, within a line or from one to the next. */
  predicate SeenInOrder(seen: seq<Seen>) {
    && (forall i | 0 <= i < |seen| :: seen[i].clk.check <= seen[i].clk.stamp <= seen[i].clk.prune)
    && (forall i, j | 0 <= i < j < |seen| :: seen[i].clk.prune <= seen[j].clk.check)
  }

  /** What a line asks of the cooldowns; a line that is not wanted forgets a key nobody has. */
  function RequestOf(minimum: string, e: Seen): Request {
    if Wanted(minimum, e.line) then Ask(KeyOf(e.channel, e.line), e.clk) else Forget("")
  }

  function Requests(minimum: string, seen: seq<Seen>): (r: seq<Request>)
    ensures |r| == |seen| && forall k | 0 <= k < |seen| :: r[k] == RequestOf(minimum, seen[k])
  {
    seq(|seen|, k requires 0 <= k < |seen| => RequestOf(minimum, seen[k]))
  }

  lemma OneLine(minimum: string, wait: int, s: SentinelState, e: Seen)
    requires "" !in s.cooldown
    ensures
      var s' := Consider(minimum, wait, s, e.channel, e.line, e.clk);
      var (cooldown, act) := Step(wait, s.cooldown, RequestOf(minimum, e));
      && s'.cooldown == cooldown && "" !in cooldown
      && s'.posts == s.posts + if act then [Report(e.channel, ParsedLine(e.line))] else []
  {
    PostsExactly(minimum, wait, s, e.channel, e.line, e.clk);
    hide ParsedLine, Report, Wanted, Consider;
    assert KeyOf(e.channel, e.line) != "";
  }

  /** Sentinel's cooldowns are those of its wanted lines, and it posts when they act. */
  lemma {:induction false} WatchIsCooldown(minimum: string, wait: int, seen: seq<Seen>)
    ensures
      var (cooldown, acted) := Run(wait, Requests(minimum, seen));
      && Watch(minimum, wait, seen).cooldown == cooldown && "" !in cooldown
      && |acted| == |seen| && forall k: nat | k < |seen| :: acted[k] <==> IsPosted(minimum, wait, seen, k)
  {
    hide *;
    if seen == [] {
      WatchNothing(minimum, wait);
    } else {
      var n := |seen| - 1;
      var init := seen[..n];
      WatchIsCooldown(minimum, wait, init);
      RequestsStep(minimum, wait, seen);
      LastPosted(minimum, wait, seen);
      forall k: nat | k < n ensures IsPosted(minimum, wait, seen, k) <==> IsPosted(minimum, wait, init, k) {
        PostedBefore(minimum, wait, seen, k);
      }
    }
  }

  lemma WatchNothing(minimum: string, wait: int)
    ensures Watch(minimum, wait, []).cooldown == map[] && Run(wait, Requests(minimum, [])) == (map[], [])
  {
  }

  lemma RequestsStep(minimum: string, wait: int, seen: seq<Seen>)
    requires seen != []
    ensures
      var n := |seen| - 1;
      var (m, acted) := Run(wait, Requests(minimum, seen[..n]));
      var (m', act) := Step(wait, m, RequestOf(minimum, seen[n]));
      Run(wait, Requests(minimum, seen)) == (m', acted + [act])
  {
    var n := |seen| - 1;
    assert Requests(minimum, seen)[..n] == Requests(minimum, seen[..n]);
    hide RequestOf, Step;
  }

  lemma LastPosted(minimum: string, wait: int, seen: seq<Seen>)
    requires seen != [] && "" !in Watch(minimum, wait, seen[..|seen| - 1]).cooldown
    ensures
      var n := |seen| - 1;
      var (m', act) := Step(wait, Watch(minimum, wait, seen[..n]).cooldown, RequestOf(minimum, seen[n]));
      && Watch(minimum, wait, seen).cooldown == m' && "" !in m'
      && (act <==> IsPosted(minimum, wait, seen, n))
  {
    var n := |seen| - 1;
    OneLine(minimum, wait, Watch(minimum, wait, seen[..n]), seen[n]);
    assert seen[..n + 1] == seen;
    hide Consider, RequestOf, Step;
  }

  lemma PostedBefore(minimum: string, wait: int, seen: seq<Seen>, k: nat)
    requires k + 1 < |seen|
    ensures IsPosted(minimum, wait, seen, k) <==> IsPosted(minimum, wait, seen[..|seen| - 1], k)
  {
    var init := seen[..|seen| - 1];
    assert seen[..k] == init[..k] && seen[..k + 1] == init[..k + 1];
    hide Watch;
  }

  /** Over any run, a line is posted if and only if it is wanted and every earlier post on
      its channel and nick is at least the cooldown old. */
  lemma PostedExactly(minimum: string, wait: int, seen: seq<Seen>, j: nat)
    requires SeenInOrder(seen) && wait <= DAY + 1 && j < |seen|
    ensures IsPosted(minimum, wait, seen, j) <==>
            && Wanted(minimum, seen[j].line)
            && forall i: nat | i < j && IsPosted(minimum, wait, seen, i)
                               && KeyOf(seen[i].channel, seen[i].line) == KeyOf(seen[j].channel, seen[j].line) ::
                 seen[j].clk.check - seen[i].clk.stamp >= wait
  {
    var rs := Requests(minimum, seen);
    WatchIsCooldown(minimum, wait, seen);
    hide IsPosted, Wanted, KeyOf;
    ActsExactly(wait, rs, j);
    KeysNotEmpty(seen);
    if Wanted(minimum, seen[j].line) {
      forall i: nat | i < j
        ensures NotForgotten(rs, rs[j].key, i + 1, j)
        ensures IsActionOn(wait, rs, i, rs[j].key) <==>
                && IsPosted(minimum, wait, seen, i)
                && KeyOf(seen[i].channel, seen[i].line) == KeyOf(seen[j].channel, seen[j].line)
      {
        if IsPosted(minimum, wait, seen, i) {
          ActsExactly(wait, rs, i);
        }
      }
    }
  }

  lemma KeysNotEmpty(seen: seq<Seen>)
    ensures forall k | 0 <= k < |seen| :: KeyOf(seen[k].channel, seen[k].line) != ""
  {
    hide ParsedLine;
  }

  // ----- Steward -----

  /** A message is acted on if and only if it starts with the tag, names a nick and a
      channel, and steward is not cooling on the nick; otherwise nothing changes. */
  lemma ActsOnExactly(cfg: StewardConfig, s: StewardState, text: string, clk: Clock, muteAt: int)
    ensures
      var (s', action) := Handle(cfg, s, text, clk, muteAt);
      var seen := ParsedReport(text);
      var nick := seen.incident.nick;
      if |text| >= 10 && text[..10] == "[sentinel]" && nick != "" && seen.channel != ""
         && (nick in s.cooldown ==> clk.check - s.cooldown[nick] >= cfg.wait)
      then ActedOn(cfg, s, seen.channel, seen.incident, clk, muteAt, s', action)
      else s' == s && action == NoAction
  {
    hide ParsedReport, MuteKey, Pruned;
    assert "[sentinel]" <= text <==> |text| >= 10 && text[..10] == "[sentinel]";
  }
}
