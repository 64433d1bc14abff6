/** Greedy cuts of a line.

    A cut is greedy when the piece it takes off the front of a line has no room for
    another word. What follows says what such a cut is, that the wrapper makes it, and
    that a line, its pieces and the white space between them leave no choice of where
    else to cut. */
module GreedyCuts {
  import opened Strings
  import opened Wrapping

  /** `piece` is what a greedy cut takes off the front of a line: all of a line that fits in
      360 characters; of a longer one, what lies before the last space among its first 360,
      or the first 360 when no space past the start lies among them. */
  predicate Greedy(line: string, piece: string) {
    && piece <= line
    && (|line| <= 360 ==> piece == line)
    && (|line| > 360 ==>
          && 0 < |piece| <= 360
          && (|piece| < 360 ==> line[|piece|] == ' ' && ' ' !in line[|piece| + 1..360])
          && (|piece| == 360 ==> ' ' !in line[1..360]))
  }

  /** What is left of the line from piece k on: the pieces still to come and the white space
      dropped after each. */
  function From(pieces: seq<string>, gaps: seq<string>, k: nat): string
    requires |pieces| == |gaps| && k <= |pieces|
  {
    Weave(pieces[k..], gaps[k..])
  }

  ghost predicate AllGreedy(pieces: seq<string>, gaps: seq<string>) {
    && |pieces| == |gaps|
    && forall k: nat | k < |pieces| :: Greedy(From(pieces, gaps, k), pieces[k])
  }

  lemma CutIsGreedy(line: string)
    requires |line| > MIRROR_LINE_MAX
    ensures Greedy(line, line[..CutPoint(line)])
  {
    var at := LastIndexOf(line[..MIRROR_LINE_MAX], ' ');
    assert line[..MIRROR_LINE_MAX][at + 1..] == line[at + 1..MIRROR_LINE_MAX];
    assert at == 0 ==> line[1..360] == line[at + 1..MIRROR_LINE_MAX];
    if at == -1 {
      assert forall i | 1 <= i < 360 :: line[i] == line[..MIRROR_LINE_MAX][i];
    }
  }

  lemma GreedyCons(piece: string, gap: string, pieces: seq<string>, gaps: seq<string>)
    requires AllGreedy(pieces, gaps) && Greedy(piece + gap + Weave(pieces, gaps), piece)
    ensures AllGreedy([piece] + pieces, [gap] + gaps)
  {
    var pieces', gaps' := [piece] + pieces, [gap] + gaps;
    forall k: nat | k < |pieces'| ensures Greedy(From(pieces', gaps', k), pieces'[k]) {
      assert pieces'[1..] == pieces && gaps'[1..] == gaps;
      if k > 0 {
        assert pieces'[k..] == pieces[k - 1..] && gaps'[k..] == gaps[k - 1..];
        assert Greedy(From(pieces, gaps, k - 1), pieces[k - 1]);
      }
    }
  }

  // ----- No other wrapping is -----

  lemma GreedyDecides(line: string, piece: string)
    requires |line| > MIRROR_LINE_MAX && Greedy(line, piece)
    ensures piece == line[..CutPoint(line)]
  {
    CutIsGreedy(line);
    NoGreedier(line, piece, line[..CutPoint(line)]);
    NoGreedier(line, line[..CutPoint(line)], piece);
  }

  lemma NoGreedier(line: string, a: string, b: string)
    requires |line| > 360 && Greedy(line, a) && Greedy(line, b)
    ensures |a| <= |b|
  {
    assert |b| < 360 ==> forall i | |b| < i < 360 :: line[i] in line[|b| + 1..360];
    assert forall i | 1 <= i < 360 :: line[i] in line[1..360];
  }

  lemma {:induction false} WovenStart(pieces: seq<string>, gaps: seq<string>)
    requires |pieces| == |gaps| && pieces != []
    ensures pieces[0] <= Weave(pieces, gaps)
    ensures |pieces| > 1 && pieces[1] != "" ==> |Weave(pieces, gaps)| > |pieces[0]|
  {
    if |pieces| > 1 {
      WovenStart(pieces[1..], gaps[1..]);
    }
  }

  lemma TailWoven(line: string, pieces: seq<string>, gaps: seq<string>)
    requires Trimmed(line) && |line| > MIRROR_LINE_MAX && pieces != []
    requires Reassembles(line, pieces, gaps) && pieces[0] == line[..CutPoint(line)]
    ensures Rest(line) == Weave(pieces[1..], gaps[1..]) && Reassembles(Rest(line), pieces[1..], gaps[1..])
  {
    var cut := CutPoint(line);
    var gap, rest := gaps[0], Weave(pieces[1..], gaps[1..]);
    assert 0 < cut < |line|;
    assert line == pieces[0] + gap + rest;
    assert line[cut..] == gap + rest;
    assert (gap + rest)[|gap + rest| - 1] == line[|line| - 1];
    assert Trimmed(rest) by {
      if |pieces| > 1 {
        WovenStart(pieces[1..], gaps[1..]);
        assert rest[0] == pieces[1][0];
        assert rest[|rest| - 1] == line[|line| - 1];
      }
    }
    TrimFinds(gap, rest, "");
    assert gap + rest + "" == gap + rest;
    hide CutPoint, TrimSpace, Weave, Blank;
    forall k: nat | k + 1 < |gaps[1..]| && BreaksWord(pieces[1..], gaps[1..], k)
      ensures |pieces[1..][k]| == MIRROR_LINE_MAX && ' ' !in pieces[1..][k]
    {
      assert BreaksWord(pieces, gaps, k + 1);
    }
  }

  lemma GreedyTail(pieces: seq<string>, gaps: seq<string>)
    requires AllGreedy(pieces, gaps) && pieces != []
    ensures AllGreedy(pieces[1..], gaps[1..]) && Greedy(Weave(pieces, gaps), pieces[0])
  {
    hide Greedy, Weave;
    assert pieces[0..] == pieces && gaps[0..] == gaps;
    assert Greedy(From(pieces, gaps, 0), pieces[0]);
    forall k: nat | k < |pieces[1..]| ensures Greedy(From(pieces[1..], gaps[1..], k), pieces[1..][k]) {
      assert pieces[1..][k..] == pieces[k + 1..] && gaps[1..][k..] == gaps[k + 1..];
      assert Greedy(From(pieces, gaps, k + 1), pieces[k + 1]);
    }
  }

  // ----- What a reader sees -----

  lemma SpacesLieBeyond(line: string, piece: string, at: nat)
    requires Greedy(line, piece) && |line| > 360 && |piece| < at < |line| && line[at] == ' '
    ensures at >= 360
  {
    assert |piece| < 360 ==> forall i | |piece| < i < 360 :: line[i] in line[|piece| + 1..360];
  }
}
