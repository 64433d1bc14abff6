/** Sentinel and steward around the report that links them: sentinel decides which
    incidents to post, steward which reports to act on. */
module Moderation {
  import opened Seqs
  import opened Strings
  import opened IncidentText
  import opened Incidents
  import opened Cooldown

  const MAX_RECENT_INCIDENTS := 50

  /** The clock readings one decision takes. */
  datatype Clock = Clock(check: int, stamp: int, prune: int)

  function Ask(key: string, clk: Clock): Request { Act(key, clk.check, clk.stamp, clk.prune) }

  // ----- Sentinel -----

  datatype Posted = Posted(at: int, channel: string, incident: Incident)

  datatype SentinelState = SentinelState(cooldown: TimeMap, recent: seq<Posted>, posts: seq<string>)

  function Rank(severity: string): int {
    if severity == "low" then 0 else if severity == "medium" then 1 else if severity == "high" then 2 else -1
  }

  /** An unknown minimum counts as "low"; an unknown severity is always reported. */
  predicate MeetsMinimum(minimum: string, severity: string) {
    Rank(severity) == -1 || Rank(severity) >= Rank(minimum)
  }

  predicate IsIncidentLine(line: string) { "incident" <= Lower(line) }

  /** One line of the LLM's answer. */
  function Consider(minimum: string, wait: int, s: SentinelState, channel: string, line: string,
                    clk: Clock): SentinelState {
    var i := ParsedLine(line);
    if !IsIncidentLine(line) || !MeetsMinimum(minimum, i.severity) then s
    else
      var (cooldown, act) := Step(wait, s.cooldown, Ask(channel + ":" + i.nick, clk));
      if !act then s
      else
        SentinelState(cooldown,
                      LastN(s.recent + [Posted(clk.prune, channel, i)], MAX_RECENT_INCIDENTS),
                      s.posts + [Report(channel, i)])
  }

  function ConsiderAll(minimum: string, wait: int, s: SentinelState, channel: string,
                       lines: seq<string>, clocks: seq<Clock>): SentinelState
    requires |lines| == |clocks|
    decreases |lines|
  {
    if lines == [] then s
    else
      ConsiderAll(minimum, wait, Consider(minimum, wait, s, channel, TrimSpace(lines[0]), clocks[0]),
                  channel, lines[1..], clocks[1..])
  }

  class Sentinel {
    const minSeverity: string
    const cooldownPerNick: int
    var cooldown: TimeMap
    var recent: seq<Posted>
    var posts: seq<string>   // sent to the moderation channel

    constructor (minSeverity: string, cooldownPerNick: int)
      ensures this.minSeverity == minSeverity && this.cooldownPerNick == cooldownPerNick
      ensures Abs() == SentinelState(map[], [], [])
    {
      this.minSeverity, this.cooldownPerNick := minSeverity, cooldownPerNick;
      cooldown, recent, posts := map[], [], [];
    }

    ghost function Abs(): SentinelState
      reads this
    {
      SentinelState(cooldown, recent, posts)
    }

    method RecordIncident(channel: string, i: Incident, at: int)
      modifies `recent
      ensures recent == LastN(old(recent) + [Posted(at, channel, i)], MAX_RECENT_INCIDENTS)
    {
      recent := recent + [Posted(at, channel, i)];
      if |recent| > MAX_RECENT_INCIDENTS {
        recent := recent[|recent| - MAX_RECENT_INCIDENTS..];
      }
    }

    method ConsiderLine(channel: string, line: string, clk: Clock)
      modifies this
      ensures Abs() == Consider(minSeverity, cooldownPerNick, old(Abs()), channel, line, clk)
    {
      if !IsIncidentLine(line) {
        return;
      }
      var nick, severity, reason := ParseIncidentLine(line);
      if !MeetsMinimum(minSeverity, severity) {
        return;
      }
      var coolKey := channel + ":" + nick;
      if coolKey in cooldown && clk.check - cooldown[coolKey] < cooldownPerNick {
        return;
      }
      cooldown := cooldown[coolKey := clk.stamp];
      cooldown := PruneTimeMap(cooldown, clk.prune, DAY);
      RecordIncident(channel, Incident(nick, severity, reason), clk.prune);
      posts := posts + [Report(channel, Incident(nick, severity, reason))];
    }

    method ParseAndReport(channel: string, answer: string, clocks: seq<Clock>)
      requires |clocks| == |Split(TrimSpace(answer), '\n')|
      modifies this
      ensures Abs() == ConsiderAll(minSeverity, cooldownPerNick, old(Abs()), channel,
                                   Split(TrimSpace(answer), '\n'), clocks)
    {
      var lines := Split(TrimSpace(answer), '\n');
      hide Consider, TrimSpace, Split;
      for i := 0 to |lines|
        invariant ConsiderAll(minSeverity, cooldownPerNick, Abs(), channel, lines[i..], clocks[i..])
               == ConsiderAll(minSeverity, cooldownPerNick, old(Abs()), channel, lines, clocks)
      {
        assert lines[i..][1..] == lines[i + 1..] && clocks[i..][1..] == clocks[i + 1..];
        ConsiderLine(channel, TrimSpace(lines[i]), clocks[i]);
      }
    }
  }

  // ----- Steward -----

  datatype Action =
    | NoAction
    | Kick(channel: string, nick: string, reason: string)
    | WarnAndMute(channel: string, nick: string, reason: string)
    | Warn(channel: string, nick: string, reason: string)

  datatype StewardState = StewardState(cooldown: TimeMap, mutes: TimeMap)

  datatype StewardConfig = StewardConfig(wait: int, muteDuration: int, silenceLow: bool)

  function ActionFor(cfg: StewardConfig, channel: string, i: Incident): Action {
    if i.severity == "high" then Kick(channel, i.nick, i.reason)
    else if i.severity == "medium" then WarnAndMute(channel, i.nick, i.reason)
    else if i.severity == "low" && !cfg.silenceLow then Warn(channel, i.nick, i.reason)
    else NoAction
  }

  /** A message in the moderation channel; `muteAt` is the clock when a mute is set. */
  function Handle(cfg: StewardConfig, s: StewardState, text: string, clk: Clock, muteAt: int): (StewardState, Action) {
    var seen := ParsedReport(text);
    if !("[sentinel]" <= text) || seen.incident.nick == "" || seen.channel == "" then (s, NoAction)
    else
      var (cooldown, act) := Step(cfg.wait, s.cooldown, Ask(seen.incident.nick, clk));
      if !act then (s, NoAction)
      else
        var action := ActionFor(cfg, seen.channel, seen.incident);
        var mutes := if action.WarnAndMute?
                     then s.mutes[MuteKey(seen.channel, seen.incident.nick) := muteAt + cfg.muteDuration]
                     else s.mutes;
        (StewardState(cooldown, mutes), action)
  }

  function MuteKey(channel: string, nick: string): string { channel + ":" + nick }

  class Steward {
    const cfg: StewardConfig
    var cooldown: TimeMap
    var mutes: TimeMap

    constructor (cfg: StewardConfig)
      ensures this.cfg == cfg && Abs() == StewardState(map[], map[])
    {
      this.cfg := cfg;
      cooldown, mutes := map[], map[];
    }

    ghost function Abs(): StewardState
      reads this
    {
      StewardState(cooldown, mutes)
    }

    method HandleReport(text: string, clk: Clock, muteAt: int) returns (action: Action)
      modifies this
      ensures Abs() == Handle(cfg, old(Abs()), text, clk, muteAt).0
      ensures action == Handle(cfg, old(Abs()), text, clk, muteAt).1
    {
      hide ParsedReport, ActionFor, Pruned;
      if !("[sentinel]" <= text) {
        return NoAction;
      }
      var channel, nick, severity, reason := ParseSentinelReport(text);
      if nick == "" || channel == "" {
        return NoAction;
      }
      if nick in cooldown && clk.check - cooldown[nick] < cfg.wait {
        return NoAction;
      }
      cooldown := cooldown[nick := clk.stamp];
      cooldown := PruneTimeMap(cooldown, clk.prune, DAY);
      action := TakeAction(channel, Incident(nick, severity, reason), muteAt);
    }

    method TakeAction(channel: string, i: Incident, muteAt: int) returns (action: Action)
      modifies `mutes
      ensures action == ActionFor(cfg, channel, i)
      ensures mutes == if action.WarnAndMute? then old(mutes)[MuteKey(channel, i.nick) := muteAt + cfg.muteDuration]
                       else old(mutes)
    {
      if i.severity == "high" {
        action := Kick(channel, i.nick, i.reason);
      } else if i.severity == "medium" {
        Mute(channel, i.nick, muteAt);
        action := WarnAndMute(channel, i.nick, i.reason);
      } else if i.severity == "low" && !cfg.silenceLow {
        action := Warn(channel, i.nick, i.reason);
      } else {
        action := NoAction;
      }
    }

    method Mute(channel: string, nick: string, now: int)
      modifies `mutes
      ensures mutes == old(mutes)[MuteKey(channel, nick) := now + cfg.muteDuration]
    {
      mutes := mutes[channel + ":" + nick := now + cfg.muteDuration];
    }

    /** One tick of unmuteLoop: the keys whose time has passed leave the map. */
    method CollectExpired(now: int) returns (expired: set<string>)
      modifies `mutes
      ensures expired == set k | k in old(mutes) && now > old(mutes)[k]
      ensures mutes == old(mutes) - expired
    {
      expired := {};
      var todo := mutes.Keys;
      while todo != {}
        invariant todo <= old(mutes).Keys
        invariant expired == set k | k in old(mutes) && k !in todo && now > old(mutes)[k]
        invariant mutes == old(mutes) - expired
      {
        var key :| key in todo;
        todo := todo - {key};
        if now > mutes[key] {
          expired := expired + {key};
          mutes := mutes - {key};
        }
      }
    }
  }

  /** The state and action after steward reads an incident of that severity. */
  ghost predicate ActedOn(cfg: StewardConfig, s: StewardState, channel: string, i: Incident, clk: Clock, muteAt: int,
                          s': StewardState, action: Action)
  {
    if Cooling(s.cooldown, i.nick, clk.check, cfg.wait) then s' == s && action == NoAction
    else
      && s'.cooldown == Pruned(s.cooldown[i.nick := clk.stamp], clk.prune - DAY)
      && (i.severity == "high" ==> action == Kick(channel, i.nick, i.reason))
      && (i.severity == "medium" ==> action == WarnAndMute(channel, i.nick, i.reason))
      && (i.severity == "low" ==> action == if cfg.silenceLow then NoAction else Warn(channel, i.nick, i.reason))
      && (i.severity !in {"high", "medium", "low"} ==> action == NoAction)
      && s'.mutes == if i.severity != "medium" then s.mutes
                     else s.mutes[MuteKey(channel, i.nick) := muteAt + cfg.muteDuration]
  }

  lemma SightingActedOn(cfg: StewardConfig, s: StewardState, text: string, channel: string, i: Incident,
                        clk: Clock, muteAt: int)
    requires "[sentinel]" <= text && ParsedReport(text) == Sighting(channel, i) && i.nick != "" && channel != ""
    ensures var (s', action) := Handle(cfg, s, text, clk, muteAt);
            ActedOn(cfg, s, channel, i, clk, muteAt, s', action)
  {
    hide ParsedReport, MuteKey, Pruned;
  }

  /** Sentinel's judgement carries through: a posted incident makes steward take
      the action its severity calls for, on that nick and channel and for that
      reason, unless steward is still cooling on the nick. */
  lemma ReportTriggersAction(cfg: StewardConfig, s: StewardState, channel: string, line: string, clk: Clock,
                             muteAt: int)
    requires Trimmed(channel) && '|' !in channel && channel != ""
    ensures
      var i := ParsedLine(line);
      var (s', action) := Handle(cfg, s, TrimSpace(Report(channel, i)), clk, muteAt);
      ActedOn(cfg, s, channel, i, clk, muteAt, s', action)
  {
    var i := ParsedLine(line);
    var text := TrimSpace(Report(channel, i));
    assert "[sentinel]" <= text && ParsedReport(text) == Sighting(channel, i) && i.nick != "" by {
      ParsedLineReportable(line);
      ArrivedShape(channel, i);
      HeadAndTailEnds(channel, i);
      ReportRoundTrip(line, channel);
      hide ParsedReport, TrimSpace, Report, ParsedLine;
    }
    hide *;
    SightingActedOn(cfg, s, text, channel, i, clk, muteAt);
  }

  /** From the LLM to the moderation action: an incident in the prompted format, severe
      enough and not cooling at sentinel, is posted as it was written, and the post
      makes steward act on it. */
  lemma PromptedIncidentActedOn(
      minimum: string, wait: int, watch: SentinelState, cfg: StewardConfig, s: StewardState,
      channel: string, i: Incident, seen: Clock, clk: Clock, muteAt: int)
    requires Trimmed(i.nick) && Trimmed(i.reason) && '|' !in i.nick && '|' !in i.reason && i.nick != ""
    requires i.severity in {"low", "medium", "high"} && Rank(minimum) <= Rank(i.severity)
    requires Trimmed(channel) && '|' !in channel && channel != ""
    requires !Cooling(watch.cooldown, channel + ":" + i.nick, seen.check, wait)
    ensures
      var watch' := Consider(minimum, wait, watch, channel, TrimSpace(PromptedLine(i)), seen);
      var (s', action) := Handle(cfg, s, TrimSpace(Report(channel, i)), clk, muteAt);
      && watch'.posts == watch.posts + [Report(channel, i)]
      && ActedOn(cfg, s, channel, i, clk, muteAt, s', action)
  {
    hide *;
    var line := TrimSpace(PromptedLine(i));
    PromptedLineRecognised(i);
    IncidentPosted(minimum, wait, watch, channel, line, seen);
    ReportTriggersAction(cfg, s, channel, line, clk, muteAt);
  }

  lemma PromptedLineRecognised(i: Incident)
    requires Trimmed(i.nick) && Trimmed(i.reason) && '|' !in i.nick && '|' !in i.reason && i.nick != ""
    requires i.severity in {"low", "medium", "high"}
    ensures IsIncidentLine(TrimSpace(PromptedLine(i))) && ParsedLine(TrimSpace(PromptedLine(i))) == i
  {
    var line := TrimSpace(PromptedLine(i));
    LowWordsLower();
    PromptedLineReads(i);
    PromptedLineStarts(i);
    hide ParsedLine, TrimSpace, PromptedLine, Lower;
    HeadingRecognised(line);
  }

  lemma HeadingRecognised(line: string)
    requires "INCIDENT" <= line
    ensures IsIncidentLine(line)
  {
    LowerPrefix("INCIDENT", line[8..]);
    assert Lower("INCIDENT") == "incident";
    assert line == "INCIDENT" + line[8..];
  }

  lemma IncidentPosted(minimum: string, wait: int, s: SentinelState, channel: string, line: string, clk: Clock)
    requires IsIncidentLine(line)
    requires ParsedLine(line).severity in {"low", "medium", "high"} && Rank(minimum) <= Rank(ParsedLine(line).severity)
    requires !Cooling(s.cooldown, channel + ":" + ParsedLine(line).nick, clk.check, wait)
    ensures Consider(minimum, wait, s, channel, line, clk).posts == s.posts + [Report(channel, ParsedLine(line))]
  {
    hide ParsedLine, IsIncidentLine, Report;
  }

  lemma LowWordsLower()
    ensures forall w | w in {"low", "medium", "high"} :: Lower(w) == w && Trimmed(w) && '|' !in w
  {
    assert Lower("low") == "low" && Lower("medium") == "medium" && Lower("high") == "high";
  }

  /** What unmuteLoop takes a key apart into: everything before its first colon, and the rest. */
  function MutedAt(key: string): (string, string) {
    var at := IndexOf(key, ':');
    if at == -1 then ("", "") else (key[..at], key[at + 1..])
  }

  /** An expired mute is lifted where it was set exactly when the channel name has no colon. */
  lemma UnmuteFindsItsTarget(channel: string, nick: string)
    ensures MutedAt(MuteKey(channel, nick)) == (channel, nick) <==> ':' !in channel
  {
    var key := MuteKey(channel, nick);
    var at := IndexOf(key, ':');
    assert key[|channel|] == ':';
    hide IndexOf;
    if ':' !in channel {
      assert at == |channel|;
      assert key[..at] == channel && key[at + 1..] == nick;
    } else {
      assert ':' !in key[..at];
    }
  }
}
