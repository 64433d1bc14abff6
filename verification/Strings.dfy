/** The string operations the modelled code takes from Go's standard library, on
    sequences of characters:

      Lower            strings.ToLower, for ASCII letters
      TrimSpace        strings.TrimSpace
      IndexOf, Split   strings.IndexByte, strings.Split with a one-character separator
      FindFirst        strings.Index
      Fields           strings.Fields */
module Strings {
  import opened Seqs

  /** White space as Go's unicode.IsSpace defines it. */
  predicate IsSpace(c: char) {
    '\t' <= c <= '\r' || c == ' ' || c == '\U{0085}' || c == '\U{00A0}' || c == '\U{1680}'
    || '\U{2000}' <= c <= '\U{200A}' || c in {'\U{2028}', '\U{2029}', '\U{202F}', '\U{205F}', '\U{3000}'}
  }

  /** Lower-casing of ASCII letters; every other character stays. */
  function LowerChar(c: char): char {
    if 'A' <= c <= 'Z' then c - 'A' + 'a' else c
  }

  function Lower(s: string): (r: string)
    ensures |r| == |s| && forall i | 0 <= i < |s| :: r[i] == LowerChar(s[i])
  {
    seq(|s|, i requires 0 <= i < |s| => LowerChar(s[i]))
  }

  predicate Blank(s: string) { forall i | 0 <= i < |s| :: IsSpace(s[i]) }

  function TrimLeft(s: string): string {
    if s != "" && IsSpace(s[0]) then TrimLeft(s[1..]) else s
  }

  function TrimRight(s: string): string {
    if s != "" && IsSpace(s[|s| - 1]) then TrimRight(s[..|s| - 1]) else s
  }

  function TrimSpace(s: string): string { TrimRight(TrimLeft(s)) }

  /** Neither end is white space. */
  predicate Trimmed(s: string) { s != "" ==> !IsSpace(s[0]) && !IsSpace(s[|s| - 1]) }

  function IndexOf(s: string, c: char): (r: int)
    ensures -1 <= r < |s|
    ensures r == -1 ==> c !in s
    ensures r != -1 ==> s[r] == c && c !in s[..r]
  {
    if s == "" then -1
    else if s[0] == c then 0
    else
      var r := IndexOf(s[1..], c);
      assert s == [s[0]] + s[1..];
      if r == -1 then -1 else (assert s[..r + 1] == [s[0]] + s[1..][..r]; r + 1)
  }

  function LastIndexOf(s: string, c: char): (r: int)
    ensures -1 <= r < |s|
    ensures r == -1 ==> c !in s
    ensures r != -1 ==> s[r] == c && c !in s[r + 1..]
  {
    if s == "" then -1
    else if s[|s| - 1] == c then |s| - 1
    else
      var r := LastIndexOf(s[..|s| - 1], c);
      assert s == s[..|s| - 1] + [s[|s| - 1]];
      assert s[r + 1..] == s[..|s| - 1][r + 1..] + [s[|s| - 1]];
      r
  }

  /** The pieces between separators; always at least one. */
  function Split(s: string, sep: char): (parts: seq<string>)
    ensures parts != []
  {
    var i := IndexOf(s, sep);
    if i == -1 then [s] else [s[..i]] + Split(s[i + 1..], sep)
  }

  /** The white-space-separated words of a string: those completed, and the one in progress. */
  function ScanWords(s: string): (seq<string>, string) {
    if s == "" then ([], "")
    else
      var (done, word) := ScanWords(s[..|s| - 1]);
      var c := s[|s| - 1];
      if !IsSpace(c) then (done, word + [c])
      else if word == "" then (done, "")
      else (done + [word], "")
  }

  function Fields(s: string): seq<string> {
    var (done, word) := ScanWords(s);
    if word == "" then done else done + [word]
  }

  function NotSpace(): char -> bool { (c: char) => !IsSpace(c) }

  /** The string without its white space. */
  function Ink(s: string): string { Filter(s, NotSpace()) }

  // ----- Trimming -----

  /** Trimming takes white space off both ends and nothing else. */
  lemma {:induction false} TrimLeftShape(s: string) returns (i: nat)
    ensures i <= |s| && TrimLeft(s) == s[i..] && Blank(s[..i])
    ensures TrimLeft(s) != "" ==> !IsSpace(TrimLeft(s)[0])
  {
    if s != "" && IsSpace(s[0]) {
      var j := TrimLeftShape(s[1..]);
      i := j + 1;
      assert s[..i] == [s[0]] + s[1..][..j];
    } else {
      i := 0;
    }
  }

  lemma {:induction false} TrimRightShape(s: string) returns (j: nat)
    ensures j <= |s| && TrimRight(s) == s[..j] && Blank(s[j..])
    ensures TrimRight(s) != "" ==> !IsSpace(TrimRight(s)[|TrimRight(s)| - 1])
  {
    if s != "" && IsSpace(s[|s| - 1]) {
      var n := |s| - 1;
      j := TrimRightShape(s[..n]);
      assert s[j..] == s[..n][j..] + [s[n]];
    } else {
      j := |s|;
    }
  }

  lemma TrimShape(s: string) returns (before: string, after: string)
    ensures s == before + TrimSpace(s) + after && Blank(before) && Blank(after)
    ensures Trimmed(TrimSpace(s))
    ensures |TrimSpace(s)| <= |s|
  {
    var i := TrimLeftShape(s);
    var t := TrimLeft(s);
    var j := TrimRightShape(t);
    before, after := s[..i], t[j..];
    assert t == TrimSpace(s) + after;
  }

  /** A string that is already trimmed, between any white space, is what trimming finds. */
  lemma TrimFinds(before: string, core: string, after: string)
    requires Blank(before) && Blank(after) && Trimmed(core)
    ensures TrimSpace(before + core + after) == core
  {
    if core == "" {
      BlankTrims(before + core + after);
    } else {
      TrimLeftDrops(before, core + after);
      assert before + core + after == before + (core + after);
      TrimRightDrops(core, after);
    }
  }

  lemma {:induction false} BlankTrims(s: string)
    requires Blank(s)
    ensures TrimLeft(s) == "" && TrimSpace(s) == ""
  {
    if s != "" {
      BlankTrims(s[1..]);
    }
  }

  lemma {:induction false} TrimLeftDrops(before: string, s: string)
    requires Blank(before) && s != "" && !IsSpace(s[0])
    ensures TrimLeft(before + s) == s
  {
    if before == "" {
      assert before + s == s;
    } else {
      assert (before + s)[1..] == before[1..] + s;
      TrimLeftDrops(before[1..], s);
    }
  }

  lemma {:induction false} TrimRightDrops(s: string, after: string)
    requires Blank(after) && s != "" && !IsSpace(s[|s| - 1])
    ensures TrimRight(s + after) == s
  {
    if after == "" {
      assert s + after == s;
    } else {
      var n := |after| - 1;
      assert (s + after)[..|s + after| - 1] == s + after[..n];
      TrimRightDrops(s, after[..n]);
    }
  }

  // ----- Splitting -----

  lemma SplitAtSep(a: string, b: string, sep: char)
    requires sep !in a
    ensures Split(a + [sep] + b, sep) == [a] + Split(b, sep)
  {
    var s := a + [sep] + b;
    var i := IndexOf(s, sep);
    assert s[|a|] == sep;
    assert i == |a|;
    assert s[..i] == a && s[i + 1..] == b;
  }

  lemma SplitStep(s: string, sep: char)
    ensures
      var i := IndexOf(s, sep);
      if i == -1 then Split(s, sep) == [s]
      else
        && Split(s, sep) == [s[..i]] + Split(s[i + 1..], sep)
        && Split(s, sep)[1..] == Split(s[i + 1..], sep)
        && s == s[..i] + [sep] + s[i + 1..]
  {
    hide IndexOf;
    var i := IndexOf(s, sep);
    if i != -1 {
      var rest := Split(s[i + 1..], sep);
      assert Split(s, sep) == [s[..i]] + rest;
      hide Split;
      assert s == s[..i] + [s[i]] + s[i + 1..];
    }
  }

  lemma {:induction false} SplitHasNoSep(s: string, sep: char)
    ensures forall p | p in Split(s, sep) :: sep !in p
    ensures forall p, c | p in Split(s, sep) && c in p :: c in s
  {
    hide IndexOf;
    var i := IndexOf(s, sep);
    if i != -1 {
      SplitHasNoSep(s[i + 1..], sep);
    }
  }

  // ----- Words -----

  lemma ScanAppend(s: string, c: char)
    ensures ScanWords(s + [c]) ==
            var (done, word) := ScanWords(s);
            if !IsSpace(c) then (done, word + [c]) else if word == "" then (done, "") else (done + [word], "")
  {
    assert (s + [c])[..|s|] == s;
  }

  /** After white space, scanning starts afresh. */
  lemma {:induction false} ScanAfterSpace(a: string, b: string)
    requires a == "" || IsSpace(a[|a| - 1])
    ensures ScanWords(a + b) == (ScanWords(a).0 + ScanWords(b).0, ScanWords(b).1)
  {
    if b == "" {
      assert a + b == a && ScanWords(a).0 + [] == ScanWords(a).0;
    } else {
      var n := |b| - 1;
      ScanAfterSpace(a, b[..n]);
      assert a + b == (a + b[..n]) + [b[n]];
      ScanAppend(a + b[..n], b[n]);
      var (done, word) := ScanWords(b[..n]);
      assert ScanWords(a).0 + (done + [word]) == (ScanWords(a).0 + done) + [word];
    }
  }

  lemma FieldsAfterSpace(a: string, b: string)
    requires a == "" || IsSpace(a[|a| - 1])
    ensures Fields(a + b) == Fields(a) + Fields(b)
  {
    ScanAfterSpace(a, b);
  }

  lemma FieldsSpace(a: string, c: char)
    requires IsSpace(c)
    ensures Fields(a + [c]) == Fields(a)
  {
    ScanAppend(a, c);
  }

  /** A string cut where its right part starts with white space keeps its words. */
  lemma FieldsCut(a: string, b: string)
    requires b != "" && IsSpace(b[0])
    ensures Fields(a + b) == Fields(a) + Fields(b)
  {
    var rest := b[1..];
    assert a + b == (a + [b[0]]) + rest && b == [b[0]] + rest;
    FieldsAfterSpace(a + [b[0]], rest);
    FieldsSpace(a, b[0]);
    FieldsAfterSpace([b[0]], rest);
    FieldsSpace("", b[0]);
    assert "" + [b[0]] == [b[0]];
  }

  lemma {:induction false} FieldsBlank(s: string)
    requires Blank(s)
    ensures Fields(s) == []
  {
    if s != "" {
      FieldsBlank(s[..|s| - 1]);
    }
  }

  lemma FieldsTrim(s: string)
    ensures Fields(TrimSpace(s)) == Fields(s)
  {
    var before, after := TrimShape(s);
    var t := TrimSpace(s);
    FieldsBlank(before);
    FieldsBlank(after);
    assert s == before + (t + after);
    FieldsAfterSpace(before, t + after);
    if after == "" {
      assert t + after == t;
    } else {
      FieldsCut(t, after);
    }
  }

  // ----- Ink -----

  lemma InkConcat(a: string, b: string)
    ensures Ink(a + b) == Ink(a) + Ink(b)
  {
    FilterConcat(a, b, NotSpace());
  }

  lemma InkBlank(s: string)
    requires Blank(s)
    ensures Ink(s) == ""
  {
    FilterNone(s, NotSpace());
  }

  lemma InkTrim(s: string)
    ensures Ink(TrimSpace(s)) == Ink(s)
  {
    var before, after := TrimShape(s);
    InkConcat(before + TrimSpace(s), after);
    InkConcat(before, TrimSpace(s));
    InkBlank(before);
    InkBlank(after);
  }

  /** The first place where the pattern occurs, or -1. */
  function FindFirst(s: string, pattern: string): int {
    if pattern <= s then 0
    else if s == "" then -1
    else
      var r := FindFirst(s[1..], pattern);
      if r == -1 then -1 else r + 1
  }

  lemma {:induction false} FindFirstInRange(s: string, pattern: string)
    ensures FindFirst(s, pattern) == -1 || (0 <= FindFirst(s, pattern) && FindFirst(s, pattern) + |pattern| <= |s|)
  {
    if !(pattern <= s) && s != "" {
      FindFirstInRange(s[1..], pattern);
    }
  }

  /** Looking from place i, where the pattern fits nowhere before place k. */
  lemma {:induction false} FindSkips(s: string, pattern: string, i: nat, k: nat)
    requires pattern != "" && i <= k <= |s|
    requires forall j | i <= j < k :: !(pattern <= s[j..])
    requires pattern <= s[k..]
    ensures FindFirst(s[i..], pattern) == k - i
    decreases k - i
  {
    if i < k {
      assert s[i..][1..] == s[i + 1..];
      FindSkips(s, pattern, i + 1, k);
    }
  }

  lemma SplitWhole(s: string, sep: char)
    requires sep !in s
    ensures Split(s, sep) == [s]
  {
  }

  lemma LowerKeeps(s: string)
    ensures Lower(Lower(s)) == Lower(s)
    ensures Trimmed(s) ==> Trimmed(Lower(s))
    ensures '|' !in s ==> '|' !in Lower(s)
  {
    assert forall c :: LowerChar(LowerChar(c)) == LowerChar(c);
    assert forall c :: IsSpace(LowerChar(c)) ==> IsSpace(c);
    assert forall c :: LowerChar(c) == '|' ==> c == '|';
  }

  lemma TrimmedAfter(gap: string, line: string)
    requires Blank(gap) && Trimmed(line)
    ensures TrimSpace(gap + line) == line
  {
    TrimFinds(gap, line, "");
    assert gap + line + "" == gap + line;
  }

  lemma EmptyTrims()
    ensures TrimSpace("") == ""
  {
  }

  lemma LeadingSpace(s: string)
    ensures TrimSpace(" " + s) == TrimSpace(s)
  {
    assert (" " + s)[1..] == s;
  }

  lemma TrimTwice(s: string)
    ensures TrimSpace(TrimSpace(s)) == TrimSpace(s)
  {
    var before, after := TrimShape(s);
    TrimmedAfter("", TrimSpace(s));
    assert "" + TrimSpace(s) == TrimSpace(s);
  }
}
