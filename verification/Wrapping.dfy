/** What the relay's line wrapper computes, and what it keeps of a text.

    A text is split at its line ends, each line is trimmed, and one that is longer than
    360 characters is cut at its last space within the limit, or at the limit, over and
    over. Nothing but white space is dropped, and no word is broken that is not longer
    than a line. */
module Wrapping {
  import opened Strings

  const MIRROR_LINE_MAX := 360

  // ----- The specification -----

  function CrlfToLf(text: string): string {
    if |text| < 2 then text
    else if text[0] == '\r' && text[1] == '\n' then ['\n'] + CrlfToLf(text[2..])
    else [text[0]] + CrlfToLf(text[1..])
  }

  function CrToLf(text: string): (r: string)
    ensures |r| == |text| && '\r' !in r
  {
    seq(|text|, i requires 0 <= i < |text| => if text[i] == '\r' then '\n' else text[i])
  }

  function Lines(text: string): seq<string> { Split(CrToLf(CrlfToLf(text)), '\n') }

  /** Where an over-long line is cut: at its last space within the limit, or at the limit. */
  function CutPoint(line: string): nat
    requires |line| > MIRROR_LINE_MAX
  {
    var at := LastIndexOf(line[..MIRROR_LINE_MAX], ' ');
    if at <= 0 then MIRROR_LINE_MAX else at
  }

  function Rest(line: string): (r: string)
    requires |line| > MIRROR_LINE_MAX
    ensures |r| < |line|
  {
    var tail := line[CutPoint(line)..];
    TrimShorter(tail);
    TrimSpace(tail)
  }

  lemma TrimShorter(s: string)
    ensures |TrimSpace(s)| <= |s|
  {
    var before, after := TrimShape(s);
  }

  function WrapLine(line: string): seq<string>
    decreases |line|
  {
    if line == "" then []
    else if |line| <= MIRROR_LINE_MAX then [line]
    else [line[..CutPoint(line)]] + WrapLine(Rest(line))
  }

  function WrapAll(lines: seq<string>): seq<string> {
    if lines == [] then [] else WrapLine(TrimSpace(lines[0])) + WrapAll(lines[1..])
  }

  // ----- Shape of the output -----

  /** Every output line is non-empty, at most 360 long, and has no line break in it. */
  predicate GoodLine(line: string) {
    0 < |line| <= MIRROR_LINE_MAX && '\n' !in line && '\r' !in line
  }

  lemma RestKeepsLine(line: string)
    requires |line| > MIRROR_LINE_MAX
    ensures forall c | c in Rest(line) :: c in line
    ensures Trimmed(Rest(line))
  {
    var tail := line[CutPoint(line)..];
    var before, after := TrimShape(tail);
    assert tail == before + Rest(line) + after;
    assert forall c | c in Rest(line) :: c in tail;
  }

  lemma {:induction false} WrapLineGood(line: string)
    requires '\n' !in line && '\r' !in line
    ensures forall p | p in WrapLine(line) :: GoodLine(p)
    decreases |line|
  {
    if |line| > MIRROR_LINE_MAX {
      RestKeepsLine(line);
      WrapLineGood(Rest(line));
    }
  }

  lemma {:induction false} WrapAllGood(lines: seq<string>)
    requires forall l | l in lines :: '\n' !in l && '\r' !in l
    ensures forall p | p in WrapAll(lines) :: GoodLine(p)
  {
    if lines != [] {
      var before, after := TrimShape(lines[0]);
      assert forall c | c in TrimSpace(lines[0]) :: c in lines[0];
      WrapLineGood(TrimSpace(lines[0]));
      WrapAllGood(lines[1..]);
    }
  }

  /** What one cut does. */
  lemma CutStep(line: string)
    requires |line| > MIRROR_LINE_MAX
    ensures
      var cut := CutPoint(line);
      && 0 < cut <= MIRROR_LINE_MAX
      && WrapLine(line) == [line[..cut]] + WrapLine(Rest(line))
      && WrapLine(line) != [] && WrapLine(line)[1..] == WrapLine(Rest(line))
      && line == line[..cut] + line[cut..]
      && Rest(line) == TrimSpace(line[cut..])
  {
    assert 0 < CutPoint(line) <= MIRROR_LINE_MAX;
    hide CutPoint;
    var pieces := WrapLine(Rest(line));
    assert WrapLine(line) == [line[..CutPoint(line)]] + pieces;
    hide WrapLine, LastIndexOf, TrimSpace;
  }

  // ----- Nothing but white space is lost -----

  function InkOf(parts: seq<string>): string {
    if parts == [] then "" else Ink(parts[0]) + InkOf(parts[1..])
  }

  lemma {:induction false} InkOfConcat(a: seq<string>, b: seq<string>)
    ensures InkOf(a + b) == InkOf(a) + InkOf(b)
  {
    if a == [] {
      assert a + b == b;
    } else {
      assert (a + b)[1..] == a[1..] + b;
      InkOfConcat(a[1..], b);
    }
  }

  lemma {:induction false} WrapLineKeepsInk(line: string)
    ensures InkOf(WrapLine(line)) == Ink(line)
    decreases |line|
  {
    if |line| > MIRROR_LINE_MAX {
      var cut := CutPoint(line);
      CutStep(line);
      hide CutPoint, Rest, WrapLine, TrimSpace;
      WrapLineKeepsInk(Rest(line));
      InkTrim(line[cut..]);
      InkConcat(line[..cut], line[cut..]);
    } else if line != "" {
      assert InkOf([line]) == Ink(line) + InkOf([]);
    }
  }

  lemma {:induction false} WrapAllKeepsInk(lines: seq<string>)
    ensures InkOf(WrapAll(lines)) == InkOf(lines)
  {
    if lines != [] {
      WrapLineKeepsInk(TrimSpace(lines[0]));
      InkTrim(lines[0]);
      InkOfConcat(WrapLine(TrimSpace(lines[0])), WrapAll(lines[1..]));
      WrapAllKeepsInk(lines[1..]);
    }
  }

  lemma {:induction false} SplitKeepsInk(s: string, sep: char)
    requires IsSpace(sep)
    ensures InkOf(Split(s, sep)) == Ink(s)
  {
    var i := IndexOf(s, sep);
    SplitStep(s, sep);
    hide Split, IndexOf;
    if i == -1 {
      assert InkOf([s]) == Ink(s) + InkOf([]);
    } else {
      SplitKeepsInk(s[i + 1..], sep);
      InkConcat(s[..i] + [sep], s[i + 1..]);
      InkConcat(s[..i], [sep]);
      InkBlank([sep]);
    }
  }

  lemma {:induction false} CrlfKeepsInk(text: string)
    ensures Ink(CrlfToLf(text)) == Ink(text)
  {
    if |text| >= 2 {
      if text[0] == '\r' && text[1] == '\n' {
        CrlfKeepsInk(text[2..]);
        assert text == text[..2] + text[2..];
        InkConcat(text[..2], text[2..]);
        InkConcat(['\n'], CrlfToLf(text[2..]));
        InkBlank(text[..2]);
        InkBlank(['\n']);
      } else {
        CrlfKeepsInk(text[1..]);
        assert text == [text[0]] + text[1..];
        InkConcat([text[0]], text[1..]);
        InkConcat([text[0]], CrlfToLf(text[1..]));
      }
    }
  }

  lemma {:induction false} CrKeepsInk(text: string)
    ensures Ink(CrToLf(text)) == Ink(text)
  {
    if text != "" {
      var n := |text| - 1;
      assert CrToLf(text)[..n] == CrToLf(text[..n]);
      CrKeepsInk(text[..n]);
    }
  }

  // ----- Only words longer than a line are broken -----

  /** The line put back together: each piece followed by the white space dropped after it. */
  function Weave(pieces: seq<string>, gaps: seq<string>): string
    requires |pieces| == |gaps|
  {
    if pieces == [] then "" else pieces[0] + gaps[0] + Weave(pieces[1..], gaps[1..])
  }

  /** Between piece k and the next nothing was dropped, so a word was broken there. */
  predicate BreaksWord(pieces: seq<string>, gaps: seq<string>, k: nat)
    requires |pieces| == |gaps| && k + 1 < |pieces|
  {
    gaps[k] == ""
  }

  /** The input line is its pieces with white space between them; and where none
      was dropped, the piece is a full line holding no space at all and the next
      one goes on with the same word. */
  ghost predicate Reassembles(line: string, pieces: seq<string>, gaps: seq<string>) {
    && |gaps| == |pieces|
    && Weave(pieces, gaps) == line
    && (forall k | 0 <= k < |gaps| :: Blank(gaps[k]))
    && (forall k | 0 <= k < |pieces| :: pieces[k] != "" && !IsSpace(pieces[k][0]))
    && (forall k: nat | k + 1 < |gaps| && BreaksWord(pieces, gaps, k) ::
          |pieces[k]| == MIRROR_LINE_MAX && ' ' !in pieces[k])
  }

  lemma ReassembleCons(line: string, piece: string, gap: string, pieces: seq<string>, gaps: seq<string>, rest: string)
    requires Reassembles(rest, pieces, gaps) && line == piece + gap + rest
    requires piece != "" && !IsSpace(piece[0]) && Blank(gap)
    requires gap == "" ==> |piece| == MIRROR_LINE_MAX && ' ' !in piece
    ensures Reassembles(line, [piece] + pieces, [gap] + gaps)
  {
    var pieces', gaps' := [piece] + pieces, [gap] + gaps;
    assert pieces'[1..] == pieces && gaps'[1..] == gaps;
    forall k: nat | k + 1 < |gaps'| && BreaksWord(pieces', gaps', k)
      ensures |pieces'[k]| == MIRROR_LINE_MAX && ' ' !in pieces'[k]
    {
      if k > 0 {
        assert BreaksWord(pieces, gaps, k - 1);
      }
    }
  }

  lemma ReassembleOne(line: string)
    requires Trimmed(line) && line != ""
    ensures Reassembles(line, [line], [""])
  {
    assert Weave([line], [""]) == line + "" + Weave([], []);
  }

  lemma GapAfterCut(line: string) returns (gap: string)
    requires |line| > MIRROR_LINE_MAX && Trimmed(line)
    ensures Blank(gap) && line == line[..CutPoint(line)] + gap + Rest(line)
    ensures gap == "" ==> |line[..CutPoint(line)]| == MIRROR_LINE_MAX && ' ' !in line[..CutPoint(line)]
    ensures line[..CutPoint(line)] != "" && !IsSpace(line[..CutPoint(line)][0])
  {
    var cut := CutPoint(line);
    var before, after := TrimShape(line[cut..]);
    TailTrims(line, cut, before, after);
    gap := before;
    CutInTwo(line, cut, gap, Rest(line), after);
    FirstIsNotSpace(line);
    if before == "" {
      RestKeepsLine(line);
      CutWithoutGap(line, before, after);
    }
    hide TrimSpace, Rest, CutPoint;
  }

  lemma CutInTwo(line: string, cut: nat, gap: string, rest: string, after: string)
    requires cut <= |line| && line[cut..] == gap + rest + after && after == ""
    ensures line == line[..cut] + gap + rest
  {
  }

  /** A trimmed line loses nothing off the end of its tail. */
  lemma TailTrims(line: string, cut: nat, before: string, after: string)
    requires Trimmed(line) && cut < |line| && Blank(after)
    requires line[cut..] == before + TrimSpace(line[cut..]) + after
    ensures after == ""
  {
    var tail := line[cut..];
    assert tail[|tail| - 1] == line[|line| - 1];
  }

  lemma CutWithoutGap(line: string, before: string, after: string)
    requires |line| > MIRROR_LINE_MAX && Trimmed(line) && before == ""
    requires line[CutPoint(line)..] == before + Rest(line) + after && Trimmed(Rest(line)) && after == ""
    ensures |line[..CutPoint(line)]| == MIRROR_LINE_MAX && ' ' !in line[..CutPoint(line)]
  {
    FirstIsNotSpace(line);
    assert line[CutPoint(line)..][0] == line[CutPoint(line)];
  }

  /** A stretch longer than a line without any space. */
  predicate LongRunAt(line: string, i: nat) {
    i + MIRROR_LINE_MAX < |line| && ' ' !in line[i..i + MIRROR_LINE_MAX + 1]
  }

  predicate HasLongRun(line: string) {
    exists i: nat | i < |line| :: LongRunAt(line, i)
  }

  function FieldsOf(parts: seq<string>): seq<string> {
    if parts == [] then [] else Fields(parts[0]) + FieldsOf(parts[1..])
  }

  lemma {:induction false} FieldsOfConcat(a: seq<string>, b: seq<string>)
    ensures FieldsOf(a + b) == FieldsOf(a) + FieldsOf(b)
  {
    if a == [] {
      assert a + b == b;
    } else {
      assert (a + b)[1..] == a[1..] + b;
      FieldsOfConcat(a[1..], b);
    }
  }

  lemma SliceOfSlice(s: string, i: nat, j: nat, a: nat, b: nat)
    requires i <= j <= |s| && a <= b <= j - i
    ensures s[i..j][a..b] == s[i + a..i + b]
  {
    forall k | 0 <= k < b - a ensures s[i..j][a..b][k] == s[i + a..i + b][k] {
      assert s[i..j][a + k] == s[i + a + k];
    }
  }

  lemma NoLongRunWithin(s: string, i: nat, j: nat)
    requires i <= j <= |s| && !HasLongRun(s)
    ensures !HasLongRun(s[i..j])
  {
    var t := s[i..j];
    forall k: nat | k < |t|
      ensures !LongRunAt(t, k)
    {
      assert !LongRunAt(s, i + k);
      if k + MIRROR_LINE_MAX < |t| {
        SliceOfSlice(s, i, j, k, k + MIRROR_LINE_MAX + 1);
      }
    }
  }

  lemma NoLongRunAfter(s: string, i: nat)
    requires i <= |s| && !HasLongRun(s)
    ensures !HasLongRun(TrimSpace(s[i..]))
  {
    NoLongRunWithin(s, i, |s|);
    assert s[i..|s|] == s[i..];
    NoLongRunTrim(s[i..]);
  }

  lemma NoLongRunTrim(s: string)
    requires !HasLongRun(s)
    ensures !HasLongRun(TrimSpace(s))
  {
    var before, after := TrimShape(s);
    NoLongRunWithin(s, |before|, |before| + |TrimSpace(s)|);
    assert s[|before|..|before| + |TrimSpace(s)|] == TrimSpace(s);
  }

  /** A trimmed line has no space within the limit unless it has one past its start. */
  lemma FirstIsNotSpace(line: string)
    requires |line| > MIRROR_LINE_MAX && Trimmed(line)
    ensures LastIndexOf(line[..MIRROR_LINE_MAX], ' ') <= 0 ==> ' ' !in line[..MIRROR_LINE_MAX]
  {
    assert line[..MIRROR_LINE_MAX][0] == line[0];
  }

  lemma CutAtSpace(line: string)
    requires |line| > MIRROR_LINE_MAX && !HasLongRun(line) && Trimmed(line)
    ensures line[CutPoint(line)] == ' '
  {
    var at := LastIndexOf(line[..MIRROR_LINE_MAX], ' ');
    if at <= 0 {
      FirstIsNotSpace(line);
      assert !LongRunAt(line, 0);
      assert line[0..0 + MIRROR_LINE_MAX + 1] == line[..MIRROR_LINE_MAX] + [line[MIRROR_LINE_MAX]];
    }
  }

  lemma {:induction false} WrapLineKeepsWords(line: string)
    requires Trimmed(line) && !HasLongRun(line)
    ensures FieldsOf(WrapLine(line)) == Fields(line)
    decreases |line|
  {
    if |line| > MIRROR_LINE_MAX {
      var cut := CutPoint(line);
      CutStep(line);
      CutAtSpace(line);
      RestKeepsLine(line);
      hide CutPoint, Rest, WrapLine, TrimSpace, HasLongRun;
      NoLongRunAfter(line, cut);
      WrapLineKeepsWords(Rest(line));
      FieldsTrim(line[cut..]);
      FieldsCut(line[..cut], line[cut..]);
    } else if line != "" {
      assert FieldsOf([line]) == Fields(line) + FieldsOf([]);
    }
  }

  lemma {:induction false} WrapAllKeepsWords(lines: seq<string>)
    requires forall l | l in lines :: !HasLongRun(l)
    ensures FieldsOf(WrapAll(lines)) == FieldsOf(lines)
  {
    if lines != [] {
      var before, after := TrimShape(lines[0]);
      NoLongRunTrim(lines[0]);
      WrapLineKeepsWords(TrimSpace(lines[0]));
      FieldsTrim(lines[0]);
      FieldsOfConcat(WrapLine(TrimSpace(lines[0])), WrapAll(lines[1..]));
      WrapAllKeepsWords(lines[1..]);
    }
  }

  lemma {:induction false} SplitKeepsWords(s: string, sep: char)
    requires IsSpace(sep)
    ensures FieldsOf(Split(s, sep)) == Fields(s)
  {
    var i := IndexOf(s, sep);
    SplitStep(s, sep);
    hide Split, IndexOf;
    if i == -1 {
      assert FieldsOf([s]) == Fields(s) + FieldsOf([]);
    } else {
      SplitKeepsWords(s[i + 1..], sep);
      FieldsAfterSpace(s[..i] + [sep], s[i + 1..]);
      FieldsSpace(s[..i], sep);
    }
  }

  lemma BreakSeparates(before: string, rest: string)
    ensures Fields(before + ['\r', '\n'] + rest) == Fields(before) + Fields(rest)
    ensures Fields(before + ['\n'] + rest) == Fields(before) + Fields(rest)
  {
    FieldsAfterSpace(before + ['\r', '\n'], rest);
    FieldsAfterSpace(before + ['\n'], rest);
    FieldsSpace(before, '\n');
    FieldsSpace(before, '\r');
    FieldsSpace(before + ['\r'], '\n');
    assert (before + ['\r']) + ['\n'] == before + ['\r', '\n'];
  }

  lemma CrlfStep(text: string)
    requires |text| >= 2
    ensures CrlfToLf(text) ==
            if text[0] == '\r' && text[1] == '\n' then ['\n'] + CrlfToLf(text[2..]) else [text[0]] + CrlfToLf(text[1..])
  {}

  lemma {:induction false} CrlfKeepsWords(before: string, text: string)
    ensures Fields(before + CrlfToLf(text)) == Fields(before + text)
    decreases |text|
  {
    hide Fields, IsSpace;
    if |text| >= 2 {
      CrlfStep(text);
      hide CrlfToLf;
      if text[0] == '\r' && text[1] == '\n' {
        var rest := text[2..];
        CrlfKeepsWords("", rest);
        BreakSeparates(before, rest);
        BreakSeparates(before, CrlfToLf(rest));
        assert "" + rest == rest && "" + CrlfToLf(rest) == CrlfToLf(rest);
        assert before + text == before + ['\r', '\n'] + rest;
        assert before + CrlfToLf(text) == before + ['\n'] + CrlfToLf(rest);
      } else {
        CrlfKeepsWords(before + [text[0]], text[1..]);
        assert before + text == (before + [text[0]]) + text[1..];
        assert before + CrlfToLf(text) == (before + [text[0]]) + CrlfToLf(text[1..]);
      }
    }
  }

  lemma {:induction false} CrKeepsScan(text: string)
    ensures ScanWords(CrToLf(text)) == ScanWords(text)
  {
    if text != "" {
      var n := |text| - 1;
      assert CrToLf(text)[..n] == CrToLf(text[..n]);
      CrKeepsScan(text[..n]);
    }
  }

  lemma CutIs(line: string, cut: nat)
    requires |line| > MIRROR_LINE_MAX
    requires var at := LastIndexOf(line[..MIRROR_LINE_MAX], ' '); cut == if at <= 0 then MIRROR_LINE_MAX else at
    ensures cut <= |line| && WrapLine(line) == [line[..cut]] + WrapLine(TrimSpace(line[cut..]))
    ensures |TrimSpace(line[cut..])| < |line|
  {
    TrimShorter(line[cut..]);
  }
}
