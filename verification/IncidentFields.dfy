/** Which part of a line or report each field is read off. */
module IncidentFields {
  import opened Strings
  import opened IncidentText

  predicate NoneTagged(parts: seq<string>, tag: string) { forall p | p in parts :: !(tag <= TrimSpace(p)) }

  /** What stands behind the tag. */
  function Value(part: string, tag: string): string
    requires tag <= TrimSpace(part)
  {
    TrimSpace(TrimSpace(part)[|tag|..])
  }

  lemma {:induction false} ReadInTwo(acc: Incident, a: seq<string>, b: seq<string>)
    ensures ReadParts(acc, a + b) == ReadParts(ReadParts(acc, a), b)
    decreases |a|
  {
    if a == [] {
      assert a + b == b;
    } else {
      assert (a + b)[1..] == a[1..] + b;
      ReadInTwo(ReadPart(acc, TrimSpace(a[0])), a[1..], b);
    }
  }

  /** A part sets the field whose tag it starts with, and no other. */
  lemma PartSets(acc: Incident, p: string)
    ensures
      var i := ReadPart(acc, p);
      && i.nick == (if "nick:" <= p then TrimSpace(p[5..]) else acc.nick)
      && i.severity == (if "severity:" <= p then Lower(TrimSpace(p[9..])) else acc.severity)
      && i.reason == (if "reason:" <= p then TrimSpace(p[7..]) else acc.reason)
  {
    assert "nick:" <= p ==> p[0] == 'n';
    assert "severity:" <= p ==> p[0] == 's';
    assert "reason:" <= p ==> p[0] == 'r';
  }

  lemma {:induction false} UntaggedLeave(acc: Incident, parts: seq<string>)
    ensures
      var i := ReadParts(acc, parts);
      && (NoneTagged(parts, "nick:") ==> i.nick == acc.nick)
      && (NoneTagged(parts, "severity:") ==> i.severity == acc.severity)
      && (NoneTagged(parts, "reason:") ==> i.reason == acc.reason)
    decreases |parts|
  {
    if parts != [] {
      PartSets(acc, TrimSpace(parts[0]));
      hide ReadPart, TrimSpace;
      assert parts[0] in parts && forall p | p in parts[1..] :: p in parts;
      UntaggedLeave(ReadPart(acc, TrimSpace(parts[0])), parts[1..]);
    }
  }

  /** What the parts say, whatever was read before: of the parts with a tag the last one
      counts, and a field none of them carries stays as it was. */
  lemma LastPartCounts(acc: Incident, front: seq<string>, p: string, back: seq<string>)
    ensures
      var i := ReadParts(acc, front + [p] + back);
      && ("nick:" <= TrimSpace(p) && NoneTagged(back, "nick:") ==> i.nick == Value(p, "nick:"))
      && ("severity:" <= TrimSpace(p) && NoneTagged(back, "severity:") ==> i.severity == Lower(Value(p, "severity:")))
      && ("reason:" <= TrimSpace(p) && NoneTagged(back, "reason:") ==> i.reason == Value(p, "reason:"))
  {
    ReadInTwo(acc, front + [p], back);
    ReadInTwo(acc, front, [p]);
    var before := ReadParts(acc, front);
    assert ReadParts(before, [p]) == ReadPart(before, TrimSpace(p));
    PartSets(before, TrimSpace(p));
    UntaggedLeave(ReadPart(before, TrimSpace(p)), back);
    hide ReadPart, ReadParts, TrimSpace, NoneTagged;
  }

  /** An incident line's fields: what stands behind the last part with the tag, and
      "unknown" or "medium" when that is empty or there is no such part. */
  lemma LineFields(line: string, front: seq<string>, p: string, back: seq<string>)
    requires Split(line, '|') == front + [p] + back
    ensures
      var i := ParsedLine(line);
      && ("nick:" <= TrimSpace(p) && NoneTagged(back, "nick:") ==>
            i.nick == if Value(p, "nick:") == "" then "unknown" else Value(p, "nick:"))
      && ("severity:" <= TrimSpace(p) && NoneTagged(back, "severity:") ==>
            i.severity == if Value(p, "severity:") == "" then "medium" else Lower(Value(p, "severity:")))
      && ("reason:" <= TrimSpace(p) && NoneTagged(back, "reason:") ==> i.reason == Value(p, "reason:"))
  {
    LastPartCounts(NOTHING_READ, front, p, back);
    hide ReadParts, TrimSpace, NoneTagged, Split;
  }

  lemma LineWithoutField(line: string)
    ensures
      var i := ParsedLine(line);
      && (NoneTagged(Split(line, '|'), "nick:") ==> i.nick == "unknown")
      && (NoneTagged(Split(line, '|'), "severity:") ==> i.severity == "medium")
      && (NoneTagged(Split(line, '|'), "reason:") ==> i.reason == "")
  {
    UntaggedLeave(NOTHING_READ, Split(line, '|'));
    hide ReadParts, TrimSpace, NoneTagged, Split;
  }

  /** A report's fields are read the same way off what follows its first "incident in", in
      any letter case; the channel is the first part, and nothing is filled in. */
  lemma ReportFields(before: string, marker: string, rest: string)
    requires Lower(marker) == "incident in"
    requires forall i | 0 <= i < |before| :: !("incident in" <= Lower(before + marker + rest)[i..])
    ensures
      var parts := Split(rest, '|');
      ParsedReport(before + marker + rest) == Sighting(TrimSpace(parts[0]), ReadParts(NOTHING_READ, parts[1..]))
  {
    var text := before + marker + rest;
    var low := Lower(text);
    assert low[|before|..][..|marker|] == Lower(marker) by {
      assert forall i | 0 <= i < |marker| :: low[|before| + i] == LowerChar(marker[i]);
    }
    assert |marker| == |Lower(marker)| == 11;
    assert MARKER <= low[|before|..];
    FindSkips(low, MARKER, 0, |before|);
    assert low[0..] == low;
    assert text[|before| + |MARKER|..] == rest;
    hide Split, TrimSpace, FindFirst, Lower;
  }

  /** A text that says it nowhere reports nothing. */
  lemma NotAReport(text: string)
    requires forall i | 0 <= i <= |text| :: !("incident in" <= Lower(text)[i..])
    ensures ParsedReport(text) == Sighting("", Incident("", "", ""))
  {
    FoundNowhere(Lower(text), MARKER);
    hide Split, TrimSpace, FindFirst, Lower;
  }

  lemma {:induction false} FoundNowhere(s: string, pattern: string)
    requires forall i | 0 <= i <= |s| :: !(pattern <= s[i..])
    ensures FindFirst(s, pattern) == -1
  {
    assert s[0..] == s;
    if s != "" {
      forall i | 0 <= i <= |s[1..]| ensures !(pattern <= s[1..][i..]) {
        assert s[1..][i..] == s[i + 1..];
      }
      FoundNowhere(s[1..], pattern);
    }
  }
}
