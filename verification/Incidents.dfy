/** Moderation incidents: sentinel reads them off an LLM's answer and posts a
    report; steward, unless its command router claims the message, reads the
    report back. */
module Incidents {
  import opened Strings
  import opened IncidentText

  // ----- Reading the fields -----

  method ParseParts(start: Incident, parts: seq<string>) returns (nick: string, severity: string, reason: string)
    ensures Incident(nick, severity, reason) == ReadParts(start, parts)
  {
    nick, severity, reason := start.nick, start.severity, start.reason;
    for i := 0 to |parts|
      invariant ReadParts(Incident(nick, severity, reason), parts[i..]) == ReadParts(start, parts)
    {
      var p := TrimSpace(parts[i]);
      assert parts[i..][1..] == parts[i + 1..];
      if NICK_TAG <= p {
        nick := TrimSpace(p[|NICK_TAG|..]);
      } else if SEVERITY_TAG <= p {
        severity := Lower(TrimSpace(p[|SEVERITY_TAG|..]));
      } else if REASON_TAG <= p {
        reason := TrimSpace(p[|REASON_TAG|..]);
      }
    }
  }

  method ParseIncidentLine(line: string) returns (nick: string, severity: string, reason: string)
    ensures Incident(nick, severity, reason) == ParsedLine(line)
  {
    nick, severity, reason := ParseParts(NOTHING_READ, Split(line, '|'));
    if nick == "" {
      nick := "unknown";
    }
    if severity == "" {
      severity := "medium";
    }
  }

  // ----- The report -----

  method ParseSentinelReport(text: string)
    returns (channel: string, nick: string, severity: string, reason: string)
    ensures Sighting(channel, Incident(nick, severity, reason)) == ParsedReport(text)
  {
    channel, nick, severity, reason := "", "", "", "";
    var idx := FindFirst(Lower(text), MARKER);
    FindFirstInRange(Lower(text), MARKER);
    if idx == -1 {
      return;
    }
    var rest := text[idx + |MARKER|..];
    var parts := Split(rest, '|');
    channel := TrimSpace(parts[0]);
    nick, severity, reason := ParseParts(NOTHING_READ, parts[1..]);
  }

  // ----- What sentinel reads can be written between bars -----

  lemma ParsedLineReportable(line: string)
    ensures Reportable(ParsedLine(line))
  {
    SplitHasNoSep(line, '|');
    assert Lower("") == "";
    ReadPartsClean(NOTHING_READ, Split(line, '|'));
    DefaultsReportable(ReadParts(NOTHING_READ, Split(line, '|')));
  }

  // ----- The line the prompt asks for -----

  /** A line in the prompted format reads back: any trimmed, bar-free nick, severity and
      reason, the severity in lower case. */
  lemma PromptedLineReads(i: Incident)
    requires Trimmed(i.nick) && Trimmed(i.severity) && Trimmed(i.reason)
    requires '|' !in i.nick && '|' !in i.severity && '|' !in i.reason
    ensures ParsedLine(TrimSpace(PromptedLine(i))) == WithDefaults(i.(severity := Lower(i.severity)))
  {
    var after := if i.reason == "" then "" else " " + i.reason;
    var last := " reason:" + after;
    var p1, p2 := " nick: " + i.nick + " ", " severity: " + i.severity + " ";
    PromptedLineTrims(i);
    forall acc ensures ReadPart(acc, TrimSpace(last)) == acc.(reason := i.reason) {
      LastPartReads(i, acc);
    }
    ReadThreeParts(i, last);
    HeadingIgnored();
    BarsSplit("INCIDENT", i, last);
    var parts := ["INCIDENT" + " ", p1, p2, last];
    ReadsOn(parts, [p1, p2, last]);
    hide Split, ReadPart, ReadParts, TrimSpace, Lower, Bars;
  }

  /** Whatever the text, a channel steward reads is trimmed and has no bar in it. */
  lemma SightedChannelIsClean(text: string)
    ensures Trimmed(ParsedReport(text).channel) && '|' !in ParsedReport(text).channel
  {
    hide FindFirst, Lower, Split, TrimSpace, ReadParts;
    var idx := FindFirst(Lower(text), MARKER);
    if 0 <= idx && idx + |MARKER| <= |text| {
      var rest := text[idx + |MARKER|..];
      SplitHasNoSep(rest, '|');
      var first := Split(rest, '|')[0];
      assert first in Split(rest, '|');
      assert first[0..] == first;
      TrimClean(first, 0);
    }
  }

  /** The round trip: for every LLM line, what sentinel read off it is what steward
      reads off the posted report, exactly when the channel name is trimmed and
      holds no bar. */
  lemma ReportRoundTrip(line: string, channel: string)
    ensures ParsedReport(TrimSpace(Report(channel, ParsedLine(line)))) == Sighting(channel, ParsedLine(line))
            <==> Trimmed(channel) && '|' !in channel
  {
    ParsedLineReportable(line);
    SightedChannelIsClean(TrimSpace(Report(channel, ParsedLine(line))));
    if Trimmed(channel) && '|' !in channel {
      CleanReportReadsBack(channel, ParsedLine(line));
    }
  }

  // ----- The command router in between -----

  /** Dispatch, up to the command lookup. */
  method Dispatch(botNick: string, sender: string, target: string, message: string) returns (r: Routing)
    ensures r == Routed(botNick, sender, target, message)
  {
    var nick, text := sender, TrimSpace(message);
    if text == "" {
      return NotACommand;
    }
    if "[" <= text {
      var end := FindFirst(text, "] ");
      FindFirstInRange(text, "] ");
      if end > 1 {
        var realNick := text[1..end];
        if IsValidNick(realNick) {
          nick := realNick;
          text := TrimSpace(text[end + 2..]);
          if text == "" {
            return NotACommand;
          }
        }
      }
    }
    var isChannel := "#" <= target;
    var cmdLine;
    if !isChannel {
      cmdLine := text;
    } else if "!" <= text {
      cmdLine := text[1..];
    } else if IsAddressed(botNick, text) {
      cmdLine := StripAddress(botNick, text);
    } else {
      assert TrimSpace("") == "";
      return NotACommand;
    }
    cmdLine := TrimSpace(cmdLine);
    if cmdLine == "" {
      return NotACommand;
    }
    return Command(nick, cmdLine);
  }

  /** A bot whose nick holds no space never takes a sentinel report posted to a
      channel for a command; posted to anything else it always does. */
  lemma RouterIgnoresReport(botNick: string, sender: string, target: string, line: string, channel: string)
    requires ' ' !in botNick
    ensures Routed(botNick, sender, target, Report(channel, ParsedLine(line))) == NotACommand <==> "#" <= target
  {
    var i := ParsedLine(line);
    ParsedLineReportable(line);
    ArrivedShape(channel, i);
    HeadAndTailEnds(channel, i);
    var after := if i.reason == "" then "" else " " + i.reason;
    var text := HeadAndTail(channel, i, after);
    BridgeStripLeavesMarker(sender, channel, i, after);
    var body := StripBridgePrefix(sender, text).1;
    hide HeadAndTail, StripBridgePrefix;
    AddressNeedsNick(botNick, body);
    assert body[0] == 'i';
    assert TrimSpace("") == "";
    assert TrimSpace(body) != "" by {
      TrimKeepsInk(body);
    }
  }

  /** From the LLM's line to steward's hands: the report passes the router, starts
      with the tag steward looks for, and reads back exactly. */
  lemma ReportReachesSteward(botNick: string, sender: string, target: string, line: string, channel: string)
    requires ' ' !in botNick && "#" <= target && Trimmed(channel) && '|' !in channel
    ensures
      var arrived := TrimSpace(Report(channel, ParsedLine(line)));
      && Routed(botNick, sender, target, Report(channel, ParsedLine(line))) == NotACommand
      && "[sentinel]" <= arrived
      && ParsedReport(arrived) == Sighting(channel, ParsedLine(line))
  {
    ParsedLineReportable(line);
    ArrivedShape(channel, ParsedLine(line));
    HeadAndTailEnds(channel, ParsedLine(line));
    RouterIgnoresReport(botNick, sender, target, line, channel);
    ReportRoundTrip(line, channel);
  }
}
