/** The text of an incident, from the line that names it to the report about it.

    A line or report is a row of parts between bars, each a tag and a value; a field is
    read off the part with its tag. What follows are those readings, the report as it is
    printed, what the command router makes of a message, and what the round trip from
    line to report and back rests on. */
module IncidentText {
  import opened Strings

  datatype Incident = Incident(nick: string, severity: string, reason: string)

  const NICK_TAG := "nick:"

  const SEVERITY_TAG := "severity:"

  const REASON_TAG := "reason:"

  // ----- Reading the fields -----

  /** One `tag: value` part, already trimmed; the first tag that fits decides. */
  function ReadPart(acc: Incident, p: string): Incident {
    if NICK_TAG <= p then acc.(nick := TrimSpace(p[|NICK_TAG|..]))
    else if SEVERITY_TAG <= p then acc.(severity := Lower(TrimSpace(p[|SEVERITY_TAG|..])))
    else if REASON_TAG <= p then acc.(reason := TrimSpace(p[|REASON_TAG|..]))
    else acc
  }

  function ReadParts(acc: Incident, parts: seq<string>): Incident
    decreases |parts|
  {
    if parts == [] then acc else ReadParts(ReadPart(acc, TrimSpace(parts[0])), parts[1..])
  }

  const NOTHING_READ := Incident("", "", "")

  function WithDefaults(i: Incident): Incident {
    Incident(if i.nick == "" then "unknown" else i.nick, if i.severity == "" then "medium" else i.severity, i.reason)
  }

  /** What sentinel makes of an INCIDENT line. */
  function ParsedLine(line: string): Incident { WithDefaults(ReadParts(NOTHING_READ, Split(line, '|'))) }

  // ----- The report -----

  const REPORT_TAG := "[sentinel] "

  const MARKER := "incident in"

  function Report(channel: string, i: Incident): string {
    REPORT_TAG + MARKER
    + (" " + channel + " | nick: " + i.nick + " | severity: " + i.severity + " | reason: " + i.reason)
  }

  datatype Sighting = Sighting(channel: string, incident: Incident)

  /** What steward reads off a report. */
  function ParsedReport(text: string): Sighting {
    var idx := FindFirst(Lower(text), MARKER);
    if idx == -1 || idx + |MARKER| > |text| || idx < 0 then Sighting("", NOTHING_READ)
    else
      var parts := Split(text[idx + |MARKER|..], '|');
      Sighting(TrimSpace(parts[0]), ReadParts(NOTHING_READ, parts[1..]))
  }

  // ----- What sentinel reads can be written between bars -----

  /** The values a report carries: trimmed, free of bars, the severity lower-case,
      nick and severity present. */
  ghost predicate Reportable(i: Incident) {
    && Trimmed(i.nick) && Trimmed(i.severity) && Trimmed(i.reason)
    && '|' !in i.nick && '|' !in i.severity && '|' !in i.reason
    && i.nick != "" && i.severity != "" && Lower(i.severity) == i.severity
  }

  /** The same, before the defaults are filled in. */
  ghost predicate Clean(i: Incident) {
    && Trimmed(i.nick) && Trimmed(i.severity) && Trimmed(i.reason)
    && '|' !in i.nick && '|' !in i.severity && '|' !in i.reason
    && Lower(i.severity) == i.severity
  }

  lemma TrimClean(s: string, from: nat)
    requires from <= |s| && '|' !in s
    ensures Trimmed(TrimSpace(s[from..])) && '|' !in TrimSpace(s[from..])
  {
    var before, after := TrimShape(s[from..]);
    assert forall c | c in TrimSpace(s[from..]) :: c in s[from..];
  }

  lemma ReadPartClean(acc: Incident, p: string)
    requires Clean(acc) && '|' !in p
    ensures Clean(ReadPart(acc, p))
  {
    if NICK_TAG <= p {
      TrimClean(p, |NICK_TAG|);
    } else if SEVERITY_TAG <= p {
      TrimClean(p, |SEVERITY_TAG|);
      LowerKeeps(TrimSpace(p[|SEVERITY_TAG|..]));
    } else if REASON_TAG <= p {
      TrimClean(p, |REASON_TAG|);
    }
  }

  lemma {:induction false} ReadPartsClean(acc: Incident, parts: seq<string>)
    requires Clean(acc) && forall p | p in parts :: '|' !in p
    ensures Clean(ReadParts(acc, parts))
    decreases |parts|
  {
    if parts != [] {
      var p := parts[0];
      assert p[0..] == p;
      TrimClean(p, 0);
      ReadPartClean(acc, TrimSpace(p));
      ReadPartsClean(ReadPart(acc, TrimSpace(p)), parts[1..]);
    }
  }

  lemma DefaultsReportable(i: Incident)
    requires Clean(i)
    ensures Reportable(WithDefaults(i))
  {
    assert Lower("medium") == "medium";
    assert '|' !in "unknown" && '|' !in "medium";
    hide Lower;
  }

  // ----- The round trip -----

  lemma PartIsTrimmed(tag: string, value: string, before: string, after: string)
    requires Blank(before) && Blank(after) && Trimmed(tag) && tag != "" && Trimmed(value)
    ensures value != "" ==> TrimSpace(before + tag + " " + value + after) == tag + " " + value
    ensures value == "" ==> TrimSpace(before + tag + " " + value + after) == tag
  {
    if value != "" {
      TrimFinds(before, tag + " " + value, after);
      assert before + (tag + " " + value) + after == before + tag + " " + value + after;
    } else {
      TrimFinds(before, tag, " " + after);
      assert before + tag + (" " + after) == before + tag + " " + value + after;
    }
  }

  /** What follows a tag in a report is the value again. */
  lemma ValueComesBack(tag: string, value: string, before: string, after: string)
    requires Blank(before) && Blank(after) && Trimmed(tag) && tag != "" && Trimmed(value)
    ensures
      var p := TrimSpace(before + tag + " " + value + after);
      tag <= p && TrimSpace(p[|tag|..]) == value
  {
    PartIsTrimmed(tag, value, before, after);
    var p := TrimSpace(before + tag + " " + value + after);
    if value != "" {
      assert p[|tag|..] == " " + value + "";
      TrimFinds(" ", value, "");
    } else {
      assert p[|tag|..] == "" + "" + "";
      TrimFinds("", "", "");
    }
  }

  lemma ReadNick(acc: Incident, value: string)
    requires Trimmed(value)
    ensures ReadPart(acc, TrimSpace(" nick: " + value + " ")) == acc.(nick := value)
  {
    ValueComesBack(NICK_TAG, value, " ", " ");
    assert " " + NICK_TAG + " " + value + " " == " nick: " + value + " ";
  }

  lemma ReadSeverity(acc: Incident, value: string)
    requires Trimmed(value)
    ensures ReadPart(acc, TrimSpace(" severity: " + value + " ")) == acc.(severity := Lower(value))
  {
    ValueComesBack(SEVERITY_TAG, value, " ", " ");
    assert " " + SEVERITY_TAG + " " + value + " " == " severity: " + value + " ";
    var p := TrimSpace(" severity: " + value + " ");
    assert p[0] == 's';
  }

  lemma ReadReason(acc: Incident, value: string)
    requires Trimmed(value)
    ensures ReadPart(acc, TrimSpace(" reason: " + value)) == acc.(reason := value)
  {
    ValueComesBack(REASON_TAG, value, " ", "");
    assert " " + REASON_TAG + " " + value + "" == " reason: " + value;
    var p := TrimSpace(" reason: " + value);
    assert p[0] == 'r';
  }

  lemma Glue(s: string, heading: string, tag: string, value: string, after: string)
    requires heading == " |" + tag
    ensures s + heading + value + after == (s + " ") + ['|'] + (tag + value + after)
  {
    assert heading == " " + ['|'] + tag;
  }

  lemma Rotate(a: string, b: string, c: string, d: string, bar: string)
    ensures ((a + bar + b) + bar + c) + bar + d == a + bar + (b + bar + (c + bar + d))
  {
    assert (a + bar + b) + bar + c == a + bar + (b + bar + c);
  }

  /** The fields of an incident after some heading, bar by bar. */
  function Bars(head: string, i: Incident, last: string): string {
    head + " " + ['|'] + (" nick: " + i.nick + " " + ['|'] + (" severity: " + i.severity + " " + ['|'] + last))
  }

  /** The part of a report after its marker. */
  function Tail(channel: string, i: Incident, last: string): string { Bars(" " + channel, i, last) }

  lemma BarsSplit(head: string, i: Incident, last: string)
    requires '|' !in head && '|' !in i.nick && '|' !in i.severity && '|' !in last
    ensures Split(Bars(head, i, last), '|')
         == [head + " ", " nick: " + i.nick + " ", " severity: " + i.severity + " ", last]
  {
    hide Split;
    var p0, p1, p2 := head + " ", " nick: " + i.nick + " ", " severity: " + i.severity + " ";
    SplitAtSep(p0, p1 + ['|'] + (p2 + ['|'] + last), '|');
    SplitAtSep(p1, p2 + ['|'] + last, '|');
    SplitAtSep(p2, last, '|');
    SplitWhole(last, '|');
  }

  lemma TailSplits(channel: string, i: Incident, last: string)
    requires '|' !in channel && '|' !in i.nick && '|' !in i.severity && '|' !in last
    ensures Split(Tail(channel, i, last), '|')
         == [" " + channel + " ", " nick: " + i.nick + " ", " severity: " + i.severity + " ", last]
  {
    BarsSplit(" " + channel, i, last);
  }

  /** Spaces stand on both sides of each bar; here they belong to the parts. */
  lemma BarsShape(head: string, i: Incident, after: string)
    ensures head + " | nick: " + i.nick + " | severity: " + i.severity + " | reason:" + after
         == Bars(head, i, " reason:" + after)
  {
    var p1, p2 := " nick: " + i.nick + " ", " severity: " + i.severity + " ";
    var s1 := head + " | nick: " + i.nick;
    var s2 := s1 + " | severity: " + i.severity;
    Glue(head, " | nick: ", " nick: ", i.nick, " ");
    Glue(s1, " | severity: ", " severity: ", i.severity, " ");
    Glue(s2, " | reason:", " reason:", after, "");
    assert " reason:" + after + "" == " reason:" + after;
    assert s2 + " | reason:" + after + "" == s2 + " | reason:" + after;
    Rotate(head + " ", p1, p2, " reason:" + after, ['|']);
  }

  lemma TailShape(channel: string, i: Incident, after: string)
    ensures " " + channel + " | nick: " + i.nick + " | severity: " + i.severity + " | reason:" + after
         == Tail(channel, i, " reason:" + after)
  {
    BarsShape(" " + channel, i, after);
  }

  /** The marker's first occurrence in a report is the one right after "[sentinel] ". */
  lemma {:induction false} MarkerPlace(tail: string)
    ensures FindFirst(REPORT_TAG + MARKER + tail, MARKER) == 11
  {
    var head := REPORT_TAG;
    var s := head + MARKER + tail;
    forall j | 0 <= j < 11
      ensures !(MARKER <= s[j..])
    {
      assert s[j] == head[j] && s[j..][0] == s[j];
      assert j == 5 ==> s[j..][2] == s[7] == head[7];
    }
    assert s[11..] == MARKER + tail;
    FindSkips(s, MARKER, 0, 11);
    assert s[0..] == s;
  }

  function HeadAndTail(channel: string, i: Incident, after: string): string {
    REPORT_TAG + MARKER + Tail(channel, i, " reason:" + after)
  }

  /** A report is its marker and the fields after it. */
  lemma ReportShape(channel: string, i: Incident)
    ensures Report(channel, i) == HeadAndTail(channel, i, " " + i.reason)
  {
    TailShape(channel, i, " " + i.reason);
    SpaceMoves(" " + channel + " | nick: " + i.nick + " | severity: " + i.severity, i.reason);
    hide Tail;
  }

  lemma SpaceMoves(s: string, reason: string)
    ensures s + " | reason: " + reason == s + " | reason:" + (" " + reason)
  {
    assert " | reason: " == " | reason:" + " ";
  }

  /** What arrives at steward: the report without the space an empty reason leaves at its end. */
  lemma ArrivedShape(channel: string, i: Incident)
    requires Trimmed(i.reason)
    ensures TrimSpace(Report(channel, i)) == HeadAndTail(channel, i, if i.reason == "" then "" else " " + i.reason)
  {
    hide HeadAndTail, TrimSpace, Report, Tail, Bars;
    ReportShape(channel, i);
    var arrived := HeadAndTail(channel, i, if i.reason == "" then "" else " " + i.reason);
    HeadAndTailEnds(channel, i);
    if i.reason == "" {
      TailDropsLast(channel, i);
      TrimFinds("", arrived, " ");
      assert "" + arrived + " " == arrived + " ";
      assert " " + i.reason == " ";
    } else {
      TrimFinds("", arrived, "");
      assert "" + arrived + "" == arrived;
    }
  }

  lemma HeadAndTailEnds(channel: string, i: Incident)
    requires Trimmed(i.reason)
    ensures
      var arrived := HeadAndTail(channel, i, if i.reason == "" then "" else " " + i.reason);
      Trimmed(arrived) && "[sentinel]" <= arrived
  {
    var after := if i.reason == "" then "" else " " + i.reason;
    var last := " reason:" + after;
    assert last[|last| - 1] == if i.reason == "" then ':' else i.reason[|i.reason| - 1];
    var tail := Tail(channel, i, last);
    assert tail[|tail| - 1] == last[|last| - 1];
    hide Tail;
    var arrived := HeadAndTail(channel, i, after);
    assert arrived[|arrived| - 1] == tail[|tail| - 1];
    assert arrived[0] == '[';
  }

  lemma TailDropsLast(channel: string, i: Incident)
    ensures HeadAndTail(channel, i, " ") == HeadAndTail(channel, i, "") + " "
  {
    var p0, p1, p2 := " " + channel + " ", " nick: " + i.nick + " ", " severity: " + i.severity + " ";
    assert " reason:" + " " == (" reason:" + "") + " ";
    assert Tail(channel, i, " reason:" + " ") == Tail(channel, i, " reason:" + "") + " ";
  }

  lemma LowerPrefix(head: string, tail: string)
    ensures Lower(head + tail) == Lower(head) + Lower(tail)
  {}

  lemma MarkerFound(channel: string, i: Incident, after: string)
    ensures FindFirst(Lower(HeadAndTail(channel, i, after)), MARKER) == 11
  {
    var tail := Tail(channel, i, " reason:" + after);
    LowerPrefix(REPORT_TAG + MARKER, tail);
    assert Lower(REPORT_TAG + MARKER) == REPORT_TAG + MARKER;
    MarkerPlace(Lower(tail));
  }

  lemma ReadThreeParts(i: Incident, last: string)
    requires Trimmed(i.nick) && Trimmed(i.severity)
    requires forall acc :: ReadPart(acc, TrimSpace(last)) == acc.(reason := i.reason)
    ensures ReadParts(NOTHING_READ, [" nick: " + i.nick + " ", " severity: " + i.severity + " ", last])
         == i.(severity := Lower(i.severity))
  {
    var parts := [" nick: " + i.nick + " ", " severity: " + i.severity + " ", last];
    ReadNick(NOTHING_READ, i.nick);
    var a1 := Incident(i.nick, "", "");
    ReadSeverity(a1, i.severity);
    var a2 := Incident(i.nick, Lower(i.severity), "");
    hide ReadPart, TrimSpace, Lower;
    assert parts[1..] == [parts[1], last] && parts[2..] == [last];
    assert parts[1..][1..] == parts[2..] && parts[2..][1..] == [];
    assert ReadParts(NOTHING_READ, parts) == ReadParts(a1, parts[1..]);
    assert ReadParts(a1, parts[1..]) == ReadParts(a2, parts[2..]);
    assert ReadParts(a2, parts[2..]) == ReadParts(i.(severity := Lower(i.severity)), []);
  }

  lemma LastPartReads(i: Incident, acc: Incident)
    requires Trimmed(i.reason)
    ensures
      var last := " reason:" + (if i.reason == "" then "" else " " + i.reason);
      ReadPart(acc, TrimSpace(last)) == acc.(reason := i.reason)
  {
    if i.reason == "" {
      TrimFinds(" ", REASON_TAG, "");
      assert " " + REASON_TAG + "" == " reason:" + "";
      assert REASON_TAG[0] == 'r';
    } else {
      ReadReason(acc, i.reason);
      assert " reason:" + (" " + i.reason) == " reason: " + i.reason;
    }
  }

  lemma ParsedAtMarker(text: string, rest: string, parts: seq<string>)
    requires FindFirst(Lower(text), MARKER) == 11 && 11 + |MARKER| <= |text| && text[11 + |MARKER|..] == rest
    requires parts == Split(rest, '|')
    ensures ParsedReport(text) == Sighting(TrimSpace(parts[0]), ReadParts(NOTHING_READ, parts[1..]))
  {}

  lemma HeadLength(channel: string, i: Incident, after: string)
    ensures
      var text := HeadAndTail(channel, i, after);
      11 + |MARKER| <= |text| && text[11 + |MARKER|..] == Tail(channel, i, " reason:" + after)
  {
    hide Tail;
  }

  lemma CleanReportReadsBack(channel: string, i: Incident)
    requires Reportable(i) && Trimmed(channel) && '|' !in channel
    ensures ParsedReport(TrimSpace(Report(channel, i))) == Sighting(channel, i)
  {
    var after := if i.reason == "" then "" else " " + i.reason;
    var last := " reason:" + after;
    var parts := [" " + channel + " ", " nick: " + i.nick + " ", " severity: " + i.severity + " ", last];
    TailSplits(channel, i, last);
    forall acc
      ensures ReadPart(acc, TrimSpace(last)) == acc.(reason := i.reason)
    {
      LastPartReads(i, acc);
    }
    ReadThreeParts(i, last);
    TrimFinds(" ", channel, " ");
    ArrivedShape(channel, i);
    MarkerFound(channel, i, after);
    HeadLength(channel, i, after);
    hide *;
    ParsedAtMarker(HeadAndTail(channel, i, after), Tail(channel, i, last), parts);
    assert parts[1..] == [" nick: " + i.nick + " ", " severity: " + i.severity + " ", last];
  }

  // ----- The line the prompt asks for -----

  /** An incident in the one format sentinel's prompt allows the LLM. */
  function PromptedLine(i: Incident): string {
    "INCIDENT | nick: " + i.nick + " | severity: " + i.severity + " | reason: " + i.reason
  }

  /** The prompted line without the space an empty reason leaves at its end. */
  function PromptedShape(i: Incident, after: string): string { Bars("INCIDENT", i, " reason:" + after) }

  lemma PromptedLineShape(i: Incident)
    ensures PromptedLine(i) == PromptedShape(i, " " + i.reason)
  {
    BarsShape("INCIDENT", i, " " + i.reason);
    SpaceMoves("INCIDENT | nick: " + i.nick + " | severity: " + i.severity, i.reason);
    hide Bars;
  }

  lemma PromptedLineTrims(i: Incident)
    requires Trimmed(i.reason)
    ensures TrimSpace(PromptedLine(i)) == PromptedShape(i, if i.reason == "" then "" else " " + i.reason)
  {
    PromptedLineShape(i);
    var after := if i.reason == "" then "" else " " + i.reason;
    var line := PromptedShape(i, after);
    assert line[0] == 'I';
    assert (" reason:" + after)[|" reason:" + after| - 1] == if i.reason == "" then ':' else i.reason[|i.reason| - 1];
    assert line[|line| - 1] == (" reason:" + after)[|" reason:" + after| - 1];
    if i.reason == "" {
      assert " reason:" + " " == " reason:" + "" + " ";
      assert PromptedShape(i, " ") == line + " ";
      assert " " + i.reason == " ";
      hide TrimSpace, PromptedShape;
      TrimFinds("", line, " ");
      assert "" + line + " " == line + " ";
    } else {
      hide TrimSpace, PromptedShape;
      TrimFinds("", line, "");
      assert "" + line + "" == line;
    }
  }

  lemma ReadsOn(parts: seq<string>, rest: seq<string>)
    requires parts != [] && parts[1..] == rest && ReadPart(NOTHING_READ, TrimSpace(parts[0])) == NOTHING_READ
    ensures ReadParts(NOTHING_READ, parts) == ReadParts(NOTHING_READ, rest)
  {
  }

  lemma PromptedLineStarts(i: Incident)
    requires Trimmed(i.reason)
    ensures "INCIDENT" <= TrimSpace(PromptedLine(i))
  {
    PromptedLineTrims(i);
    hide TrimSpace, PromptedLine;
  }

  lemma HeadingIgnored()
    ensures ReadPart(NOTHING_READ, TrimSpace("INCIDENT" + " ")) == NOTHING_READ
  {
    TrimFinds("", "INCIDENT", " ");
    assert "" + "INCIDENT" + " " == "INCIDENT" + " ";
    hide TrimSpace;
    assert "INCIDENT"[0] == 'I';
  }

  // ----- The command router in between -----

  /** What the router makes of a message: nothing, or a command line from someone. */
  datatype Routing = NotACommand | Command(from: string, line: string)

  predicate NickChar(c: char) {
    'a' <= c <= 'z' || 'A' <= c <= 'Z' || '0' <= c <= '9'
    || c in {'-', '_', '[', ']', '\\', '^', '{', '}', '|', '`'}
  }

  predicate IsValidNick(s: string) {
    s != "" && |s| <= 32 && forall i | 0 <= i < |s| :: NickChar(s[i])
  }

  predicate IsAddressed(botNick: string, text: string) {
    var lower := Lower(text);
    botNick + ": " <= lower || botNick + "," <= lower || botNick + ":" <= lower
  }

  function StripAddress(botNick: string, text: string): string {
    var lower := Lower(text);
    if botNick + ": " <= lower then TrimSpace(text[|botNick| + 2..])
    else if botNick + "," <= lower then TrimSpace(text[|botNick| + 1..])
    else if botNick + ":" <= lower then TrimSpace(text[|botNick| + 1..])
    else text
  }

  /** "[nick] text" as the bridge relays it: the real sender and the text. */
  function StripBridgePrefix(nick: string, text: string): (string, string) {
    if !("[" <= text) then (nick, text)
    else
      var end := FindFirst(text, "] ");
      if end > 1 && end + 2 <= |text| && IsValidNick(text[1..end]) then (text[1..end], TrimSpace(text[end + 2..]))
      else (nick, text)
  }

  /** The message body, once it is known not to be empty. */
  function RouteBody(botNick: string, nick: string, target: string, text: string): Routing {
    var line :=
      if !("#" <= target) then text
      else if "!" <= text then text[1..]
      else if IsAddressed(botNick, text) then StripAddress(botNick, text)
      else "";
    if TrimSpace(line) == "" then NotACommand else Command(nick, TrimSpace(line))
  }

  function Routed(botNick: string, nick: string, target: string, text: string): Routing {
    var trimmed := TrimSpace(text);
    var (from, body) := StripBridgePrefix(nick, trimmed);
    if trimmed == "" || body == "" then NotACommand else RouteBody(botNick, from, target, body)
  }

  lemma AddressNeedsNick(botNick: string, text: string)
    requires ' ' !in botNick && MARKER <= text
    ensures !IsAddressed(botNick, text)
  {
    var lower := Lower(text);
    assert lower[..|MARKER|] == MARKER by {
      assert text[..|MARKER|] == MARKER;
      LowerPrefix(MARKER, text[|MARKER|..]);
      assert text == MARKER + text[|MARKER|..];
      assert Lower(MARKER) == MARKER;
    }
    assert forall k | 0 <= k < |MARKER| :: lower[k] == MARKER[k];
    assert forall k | 0 <= k < 8 :: MARKER[k] != ':' && MARKER[k] != ',';
    NotAPrefix(botNick, ':', lower);
    NotAPrefix(botNick, ',', lower);
    assert botNick + ": " <= lower ==> botNick + [':'] <= lower by {
      assert botNick + ": " == (botNick + [':']) + " ";
    }
  }

  lemma NotAPrefix(nick: string, c: char, lower: string)
    requires ' ' !in nick && (c == ':' || c == ',')
    requires |MARKER| <= |lower| && forall k | 0 <= k < |MARKER| :: lower[k] == MARKER[k]
    ensures !(nick + [c] <= lower)
  {
    var n := |nick|;
    assert (nick + [c])[n] == c;
    assert n > 8 ==> (nick + [c])[8] == nick[8];
    assert lower[8] == ' ';
    assert n < 8 ==> lower[n] == MARKER[n];
  }

  lemma BridgeStripLeavesMarker(nick: string, channel: string, i: Incident, after: string)
    requires Trimmed(HeadAndTail(channel, i, after))
    ensures StripBridgePrefix(nick, HeadAndTail(channel, i, after)).0 == "sentinel"
    ensures MARKER <= StripBridgePrefix(nick, HeadAndTail(channel, i, after)).1
  {
    var text := HeadAndTail(channel, i, after);
    var rest := MARKER + Tail(channel, i, " reason:" + after);
    assert text == REPORT_TAG + rest;
    hide Tail, HeadAndTail, StripBridgePrefix;
    assert rest[0] == 'i' && rest[|rest| - 1] == text[|text| - 1];
    StripTag(nick, rest);
  }

  /** The report's own tag looks to the router like the name of a bridged sender. */
  lemma StripTag(nick: string, rest: string)
    requires Trimmed(rest) && rest != ""
    ensures StripBridgePrefix(nick, REPORT_TAG + rest) == ("sentinel", rest)
  {
    var text := REPORT_TAG + rest;
    BracketPlace(rest);
    hide FindFirst, TrimSpace;
    assert text[1..9] == "sentinel" && IsValidNick("sentinel");
    TrimFinds("", rest, "");
    assert "" + rest + "" == rest && text[11..] == rest;
  }

  lemma BracketPlace(rest: string)
    ensures FindFirst(REPORT_TAG + rest, "] ") == 9
  {
    var head := REPORT_TAG;
    var s := head + rest;
    forall j | 0 <= j < 9
      ensures !("] " <= s[j..])
    {
      assert s[j] == head[j] && s[j..][0] == s[j];
    }
    assert s[9..] == "] " + rest;
    FindSkips(s, "] ", 0, 9);
    assert s[0..] == s;
  }

  lemma TrimKeepsInk(s: string)
    requires s != "" && !IsSpace(s[0])
    ensures TrimSpace(s) != ""
  {
    var before, after := TrimShape(s);
  }
}
