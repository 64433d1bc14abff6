/** The line wrapper is greedy: it cuts no line before it must, and nothing else cuts so. */
module GreedyWrap {
  import opened Strings
  import opened Wrapping
  import opened GreedyCuts

  /** Every piece of a line is what a greedy cut takes off what was left of it. */
  lemma {:induction false} WrapIsGreedy(line: string) returns (gaps: seq<string>)
    requires Trimmed(line)
    ensures Reassembles(line, WrapLine(line), gaps) && AllGreedy(WrapLine(line), gaps)
    decreases |line|
  {
    if line == "" {
      gaps := [];
    } else if |line| <= MIRROR_LINE_MAX {
      gaps := [""];
      ReassembleOne(line);
      assert From([line], gaps, 0) == line;
    } else {
      var before := GapAfterCut(line);
      CutStep(line);
      RestKeepsLine(line);
      CutIsGreedy(line);
      hide CutPoint, Rest, WrapLine, TrimSpace, Greedy, AllGreedy;
      var more := WrapIsGreedy(Rest(line));
      gaps := [before] + more;
      ReassembleCons(line, line[..CutPoint(line)], before, WrapLine(Rest(line)), more, Rest(line));
      GreedyCons(line[..CutPoint(line)], before, WrapLine(Rest(line)), more);
    }
  }

  // ----- No other wrapping is -----

  /** Pieces that give the line back with white space between them, each taken greedily, are
      the ones the wrapper makes. */
  lemma {:induction false} GreedyIsUnique(line: string, pieces: seq<string>, gaps: seq<string>)
    requires Trimmed(line) && Reassembles(line, pieces, gaps) && AllGreedy(pieces, gaps)
    ensures pieces == WrapLine(line)
    decreases |line|
  {
    if pieces == [] {
    } else {
      WovenStart(pieces, gaps);
      GreedyTail(pieces, gaps);
      if |line| <= MIRROR_LINE_MAX {
        assert pieces[0] == line;
        assert pieces == [line];
      } else {
        GreedyDecides(line, pieces[0]);
        TailWoven(line, pieces, gaps);
        CutStep(line);
        hide CutPoint, Rest, WrapLine, TrimSpace, Greedy, AllGreedy, Reassembles;
        GreedyIsUnique(Rest(line), pieces[1..], gaps[1..]);
        assert pieces == [pieces[0]] + pieces[1..];
      }
    }
  }

  // ----- What a reader sees -----

  /** The characters before the first space. */
  function FirstWord(s: string): string {
    if s == "" || s[0] == ' ' then "" else [s[0]] + FirstWord(s[1..])
  }

  lemma {:induction false} FirstWordEnds(s: string)
    ensures |FirstWord(s)| <= |s| && (|FirstWord(s)| < |s| ==> s[|FirstWord(s)|] == ' ')
  {
    if s != "" && s[0] != ' ' {
      FirstWordEnds(s[1..]);
    }
  }

  /** No piece has room left for the word that begins the next: with the white space between
      them, the two take 360 characters or more. */
  lemma NextWordDoesNotFit(line: string, gaps: seq<string>, k: nat)
    requires Reassembles(line, WrapLine(line), gaps) && AllGreedy(WrapLine(line), gaps) && k + 1 < |WrapLine(line)|
    ensures |WrapLine(line)[k]| + |gaps[k]| + |FirstWord(WrapLine(line)[k + 1])| >= 360
  {
    var pieces := WrapLine(line);
    hide WrapLine;
    var here, next := From(pieces, gaps, k), From(pieces, gaps, k + 1);
    var piece, gap, word := pieces[k], gaps[k], FirstWord(pieces[k + 1]);
    assert Greedy(here, piece) && Greedy(next, pieces[k + 1]);
    assert pieces[k..][1..] == pieces[k + 1..] && gaps[k..][1..] == gaps[k + 1..];
    assert here == piece + gap + next;
    assert next == pieces[k + 1] + gaps[k + 1] + Weave(pieces[k + 1..][1..], gaps[k + 1..][1..]);
    assert pieces[k + 1] != "";
    FirstWordEnds(pieces[k + 1]);
    var at := |piece| + |gap| + |word|;
    assert |here| > 360;
    assert |word| < |pieces[k + 1]| ==> next[|word|] == ' ';
    if |word| < |next| && next[|word|] == ' ' {
      assert here[at] == next[|word|];
      SpacesLieBeyond(here, piece, at);
    }
  }

  function TrimmedLines(lines: seq<string>): seq<string> {
    if lines == [] then []
    else (if TrimSpace(lines[0]) == "" then [] else [TrimSpace(lines[0])]) + TrimmedLines(lines[1..])
  }

  /** A text whose trimmed lines all have at most 360 characters comes out as those of them
      that are not empty. */
  lemma {:induction false} ShortLinesStay(lines: seq<string>)
    requires forall l | l in lines :: |TrimSpace(l)| <= 360
    ensures WrapAll(lines) == TrimmedLines(lines)
  {
    if lines != [] {
      ShortLinesStay(lines[1..]);
    }
  }
}
