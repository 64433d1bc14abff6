/** The relay's line wrapper: terminal output becomes IRC-sized lines. */
module MirrorText {
  import opened Strings
  import opened Wrapping

  // ----- The code -----

  method SplitMirrorText(text: string) returns (out: seq<string>)
    ensures out == WrapAll(Lines(text))
  {
    var clean := CrToLf(CrlfToLf(text));
    var raw := Split(clean, '\n');
    hide Split, CrToLf, CrlfToLf, TrimSpace, WrapLine;
    out := [];
    for i := 0 to |raw|
      invariant out + WrapAll(raw[i..]) == WrapAll(raw)
    {
      assert raw[i..][1..] == raw[i + 1..];
      var line := TrimSpace(raw[i]);
      out := AppendWrapped(out, line);
    }
  }

  /** The inner loop: append one trimmed line, cut to size. */
  method AppendWrapped(lines: seq<string>, whole: string) returns (out: seq<string>)
    ensures out == lines + WrapLine(whole)
  {
    hide TrimSpace, CutPoint, Rest, LastIndexOf;
    out := lines;
    var line := whole;
    while |line| > MIRROR_LINE_MAX
      invariant out + WrapLine(line) == lines + WrapLine(whole)
      decreases |line|
    {
      var cut := LastIndexOf(line[..MIRROR_LINE_MAX], ' ');
      if cut <= 0 {
        cut := MIRROR_LINE_MAX;
      }
      CutIs(line, cut);
      out := out + [line[..cut]];
      line := TrimSpace(line[cut..]);
    }
    if line != "" {
      out := out + [line];
    }
  }

  // ----- What it keeps -----

  lemma OutputLinesAreGood(text: string)
    ensures forall p | p in WrapAll(Lines(text)) :: GoodLine(p)
  {
    SplitHasNoSep(CrToLf(CrlfToLf(text)), '\n');
    WrapAllGood(Lines(text));
  }

  /** The characters of the output, white space aside, are those of the input in order. */
  lemma ContentPreserved(text: string)
    ensures InkOf(WrapAll(Lines(text))) == Ink(text)
  {
    var clean := CrToLf(CrlfToLf(text));
    WrapAllKeepsInk(Lines(text));
    SplitKeepsInk(clean, '\n');
    CrKeepsInk(CrlfToLf(text));
    CrlfKeepsInk(text);
  }

  /** The pieces of a line, and the white space between them, give the line back. */
  lemma {:induction false} WrapReassembles(line: string) returns (gaps: seq<string>)
    requires Trimmed(line)
    ensures Reassembles(line, WrapLine(line), gaps)
    decreases |line|
  {
    if line == "" {
      gaps := [];
    } else if |line| <= MIRROR_LINE_MAX {
      gaps := [""];
      ReassembleOne(line);
    } else {
      var before := GapAfterCut(line);
      CutStep(line);
      RestKeepsLine(line);
      hide CutPoint, Rest, WrapLine, TrimSpace, Reassembles;
      var more := WrapReassembles(Rest(line));
      gaps := [before] + more;
      ReassembleCons(line, line[..CutPoint(line)], before, WrapLine(Rest(line)), more, Rest(line));
    }
  }

  /** When no line has more than 360 characters in a row without a space, the
      output has exactly the words of the input, whole and in order. */
  lemma WordsPreserved(text: string)
    requires forall l | l in Lines(text) :: !HasLongRun(l)
    ensures FieldsOf(WrapAll(Lines(text))) == Fields(text)
  {
    var clean := CrToLf(CrlfToLf(text));
    WrapAllKeepsWords(Lines(text));
    SplitKeepsWords(clean, '\n');
    CrKeepsScan(CrlfToLf(text));
    CrlfKeepsWords("", text);
    assert "" + text == text && "" + CrlfToLf(text) == CrlfToLf(text);
  }
}
