/** Which channels share a log file, and how it is called. */
module ScribeNames {
  import opened ScribeStore

  predicate SafeName(name: string) {
    forall c | c in name :: c !in "/\\:*?\"<>|"
  }

  /** A channel without its hash sign, when it has one. */
  function Bare(channel: string): string {
    if channel != "" && channel[0] == '#' then channel[1..] else channel
  }

  predicate Clash(c: char, d: char) {
    c == d || (c in "/\\:*?\"<>|_" && d in "/\\:*?\"<>|_")
  }

  lemma SanitizedAt(channel: string)
    ensures
      var s := SanitizeChannel(channel);
      |s| == |Bare(channel)|
      && forall i | 0 <= i < |s| :: s[i] == if Bare(channel)[i] in "/\\:*?\"<>|" then '_' else Bare(channel)[i]
  {
    assert forall c :: Unsafe(c) <==> c in "/\\:*?\"<>|";
    assert "#" <= channel <==> channel != "" && channel[0] == '#';
  }

  /** With per-channel files the entries of "#name" and of "name" go to name.jsonl, when the
      name holds nothing a file name must not. */
  lemma PlainFile(name: string)
    requires name != "" && name[0] != '#' && SafeName(name)
    ensures FilePath(AppendKey(Config(true, 0), "#" + name)) == name + ".jsonl"
    ensures FilePath(AppendKey(Config(true, 0), name)) == name + ".jsonl"
    ensures FilePath(KeyFor(true, "#" + name)) == name + ".jsonl"
  {
    SanitizedAt("#" + name);
    SanitizedAt(name);
    assert ("#" + name)[1..] == name;
    assert forall i | 0 <= i < |name| :: name[i] in name;
    assert SanitizeChannel("#" + name) == name && SanitizeChannel(name) == name;
  }

  /** Two channels share a file exactly when, hash signs aside, they are as long and differ
      only where both have an underscore or a character that becomes one. */
  lemma SharedFile(a: string, b: string)
    ensures FilePath(AppendKey(Config(true, 0), a)) == FilePath(AppendKey(Config(true, 0), b)) <==>
            |Bare(a)| == |Bare(b)| && forall i | 0 <= i < |Bare(a)| :: Clash(Bare(a)[i], Bare(b)[i])
  {
    PathsDistinct(SanitizeChannel(a), SanitizeChannel(b));
    SanitizedAt(a);
    SanitizedAt(b);
    var s, t := SanitizeChannel(a), SanitizeChannel(b);
    hide SanitizeChannel, Bare, FilePath;
    if |s| == |t| {
      forall i | 0 <= i < |s| ensures s[i] == t[i] <==> Clash(Bare(a)[i], Bare(b)[i]) {
      }
      assert (forall i | 0 <= i < |s| :: s[i] == t[i]) <==> s == t;
    }
  }
}
