/** Scribe's two stores answer queries alike: the file store's scan of a JSON-lines
    file against the in-memory list, without rotation. */
module ScribeQuery {
  import opened Seqs
  import opened Strings
  import opened ScribeStore

  /** The longest line, without its newline, that bufio.Scanner accepts by default:
      line and newline must fit in 64 KiB. */
  const MAX_SCAN_LINE := 65535

  datatype Result = Ok(entries: seq<Entry>) | TooLong

  // ----- The in-memory store -----

  function InChannel(channel: string): Entry -> bool { (e: Entry) => channel == "" || e.channel == channel }

  function Limited<T>(s: seq<T>, limit: int): seq<T> {
    if limit > 0 then LastN(s, limit) else s
  }

  function MemoryAnswer(history: seq<Entry>, channel: string, limit: int): seq<Entry> {
    Limited(Filter(history, InChannel(channel)), limit)
  }

  class MemoryStore {
    var entries: seq<Entry>

    constructor ()
      ensures entries == []
    {
      entries := [];
    }

    method Append(e: Entry)
      modifies this
      ensures entries == old(entries) + [e]
    {
      entries := entries + [e];
    }

    method Query(channel: string, limit: int) returns (out: seq<Entry>)
      ensures out == MemoryAnswer(entries, channel, limit)
    {
      out := [];
      for i := 0 to |entries|
        invariant out == Filter(entries[..i], InChannel(channel))
      {
        FilterAppend(entries[..i], entries[i], InChannel(channel));
        assert entries[..i + 1] == entries[..i] + [entries[i]];
        if channel == "" || entries[i].channel == channel {
          out := out + [entries[i]];
        }
      }
      assert entries[..|entries|] == entries;
      if limit > 0 && |out| > limit {
        out := out[|out| - limit..];
      }
    }
  }

  // ----- The file scan -----

  /** The scanner's raw lines: what lies between newlines, and a last piece without one. */
  function RawLines(text: string): seq<string> {
    var parts := Split(text, '\n');
    if parts[|parts| - 1] == "" then parts[..|parts| - 1] else parts
  }

  function DropCr(line: string): string {
    if line != "" && line[|line| - 1] == '\r' then line[..|line| - 1] else line
  }

  predicate AllFit(lines: seq<string>) { forall i | 0 <= i < |lines| :: |lines[i]| <= MAX_SCAN_LINE }

  /** The entries the lines decode to, skipping empty and garbled ones. */
  function DecodeLines(codec: Codec, lines: seq<string>): seq<Entry> {
    if lines == [] then []
    else
      var line := DropCr(lines[|lines| - 1]);
      var d := codec.decode(line);
      DecodeLines(codec, lines[..|lines| - 1]) + (if line != "" && d.Decoded? then [d.entry] else [])
  }

  function FileAnswer(cfg: Config, codec: Codec, disk: Disk, channel: string, limit: int): Result {
    var path := FilePath(KeyFor(cfg.perChannel, channel));
    if path !in disk then Ok([])
    else if !AllFit(RawLines(disk[path])) then TooLong
    else Ok(Limited(Filter(DecodeLines(codec, RawLines(disk[path])), InChannel(channel)), limit))
  }

  lemma DecodeOneMore(codec: Codec, lines: seq<string>, i: nat)
    requires i < |lines|
    ensures
      var line := DropCr(lines[i]);
      var d := codec.decode(line);
      var before := DecodeLines(codec, lines[..i]);
      DecodeLines(codec, lines[..i + 1]) == if line != "" && d.Decoded? then before + [d.entry] else before
  {
    assert lines[..i + 1][..i] == lines[..i];
    assert DecodeLines(codec, lines[..i]) + [] == DecodeLines(codec, lines[..i]);
  }

  /** What one raw line adds to a query's entries. */
  function ScanLine(codec: Codec, channel: string, raw: string): seq<Entry> {
    var line := DropCr(raw);
    var d := codec.decode(line);
    if line != "" && d.Decoded? && InChannel(channel)(d.entry) then [d.entry] else []
  }

  function Scanned(codec: Codec, lines: seq<string>, channel: string): seq<Entry> {
    Filter(DecodeLines(codec, lines), InChannel(channel))
  }

  lemma ScanOneMore(codec: Codec, lines: seq<string>, channel: string, i: nat)
    requires i < |lines|
    ensures Scanned(codec, lines[..i + 1], channel)
            == Scanned(codec, lines[..i], channel) + ScanLine(codec, channel, lines[i])
  {
    DecodeOneMore(codec, lines, i);
    var before := DecodeLines(codec, lines[..i]);
    var d := codec.decode(DropCr(lines[i]));
    if d.Decoded? {
      FilterAppend(before, d.entry, InChannel(channel));
    }
  }

  /** Query's scanning loop over the raw lines. */
  method ScanEntries(codec: Codec, lines: seq<string>, channel: string) returns (r: Result)
    ensures r == if AllFit(lines) then Ok(Scanned(codec, lines, channel)) else TooLong
  {
    assert Scanned(codec, lines[..0], channel) == [];
    hide Scanned;
    var entries: seq<Entry> := [];
    for i := 0 to |lines|
      invariant entries == Scanned(codec, lines[..i], channel)
      invariant forall k | 0 <= k < i :: |lines[k]| <= MAX_SCAN_LINE
    {
      if |lines[i]| > MAX_SCAN_LINE {
        return TooLong;
      }
      ScanOneMore(codec, lines, channel, i);
      var line := DropCr(lines[i]);
      if line == "" {
        continue;
      }
      var d := codec.decode(line);
      if d.Garbled? {
        continue;
      }
      if channel == "" || d.entry.channel == channel {
        entries := entries + [d.entry];
      }
    }
    assert lines[..|lines|] == lines;
    return Ok(entries);
  }

  /** FileStore.Query: scan, decode, filter, limit; an over-long line fails the whole query. */
  method Query(store: FileStore, channel: string, limit: int) returns (r: Result)
    ensures r == FileAnswer(store.cfg, store.codec, store.disk, channel, limit)
  {
    var path := FilePath(KeyFor(store.cfg.perChannel, channel));
    if path !in store.disk {
      return Ok([]);
    }
    r := ScanEntries(store.codec, RawLines(store.disk[path]), channel);
    if r.TooLong? {
      return;
    }
    var entries := r.entries;
    if limit > 0 && |entries| > limit {
      entries := entries[|entries| - limit..];
    }
    return Ok(entries);
  }

  // ----- Refinement -----

  /** Decoding undoes encoding, and an encoded entry is one non-empty line. */
  ghost predicate Lossless(codec: Codec) {
    forall e: Entry ::
      var line := codec.encode(e);
      && codec.decode(line) == Decoded(e)
      && line != "" && '\n' !in line && line[|line| - 1] != '\r'
  }

  /** Lines, each with its newline. */
  function Joined(lines: seq<string>): string {
    if lines == [] then "" else lines[0] + "\n" + Joined(lines[1..])
  }

  lemma {:induction false} JoinedAppend(lines: seq<string>, line: string)
    ensures Joined(lines + [line]) == Joined(lines) + line + "\n"
  {
    if lines == [] {
      assert [] + [line] == [line] && [line][1..] == [];
      assert Joined([line]) == line + "\n" + Joined([]);
    } else {
      JoinedAppend(lines[1..], line);
      assert (lines + [line])[1..] == lines[1..] + [line];
    }
  }

  /** Scanning joined lines gives them back. */
  lemma {:induction false} JoinedSplits(lines: seq<string>)
    requires forall i | 0 <= i < |lines| :: '\n' !in lines[i]
    ensures Split(Joined(lines), '\n') == lines + [""]
  {
    if lines == [] {
      assert Split("", '\n') == [""];
    } else {
      hide Split;
      JoinedSplits(lines[1..]);
      var rest := Joined(lines[1..]);
      assert Joined(lines) == lines[0] + ['\n'] + rest;
      hide Joined;
      SplitAtSep(lines[0], rest, '\n');
    }
  }

  function EncodeAll(codec: Codec, entries: seq<Entry>): seq<string> {
    if entries == [] then []
    else EncodeAll(codec, entries[..|entries| - 1]) + [codec.encode(entries[|entries| - 1])]
  }

  lemma {:induction false} EncodedAreLines(codec: Codec, entries: seq<Entry>)
    requires Lossless(codec)
    ensures |EncodeAll(codec, entries)| == |entries|
    ensures forall i | 0 <= i < |entries| :: EncodeAll(codec, entries)[i] == codec.encode(entries[i])
    ensures forall i | 0 <= i < |entries| :: '\n' !in EncodeAll(codec, entries)[i]
    ensures DecodeLines(codec, EncodeAll(codec, entries)) == entries
  {
    if entries != [] {
      var init, e := entries[..|entries| - 1], entries[|entries| - 1];
      EncodedAreLines(codec, init);
      var lines := EncodeAll(codec, init);
      var line := codec.encode(e);
      assert EncodeAll(codec, entries) == lines + [line];
      assert (lines + [line])[..|lines|] == lines;
      assert DropCr(line) == line && codec.decode(line) == Decoded(e);
      assert entries == init + [e];
    }
  }

  /** The entries a history puts under one key. */
  function UnderKey(cfg: Config, key: string): Entry -> bool { (e: Entry) => AppendKey(cfg, e.channel) == key }

  lemma {:induction false} WrittenIsJoined(cfg: Config, codec: Codec, history: seq<Entry>, key: string)
    ensures Written(cfg, codec, history, key) == Joined(EncodeAll(codec, Filter(history, UnderKey(cfg, key))))
  {
    if history != [] {
      var init, e := history[..|history| - 1], history[|history| - 1];
      WrittenIsJoined(cfg, codec, init, key);
      var mine := Filter(init, UnderKey(cfg, key));
      if AppendKey(cfg, e.channel) == key {
        assert (mine + [e])[..|mine|] == mine;
        JoinedAppend(EncodeAll(codec, mine), codec.encode(e));
      }
    }
  }

  lemma {:induction false} NeverRotated(cfg: Config, codec: Codec, history: seq<Entry>, key: string)
    requires cfg.maxSize == 0
    ensures LogFor(cfg, codec, history, key).rotated == []
  {
    if history != [] {
      NeverRotated(cfg, codec, history[..|history| - 1], key);
    }
  }

  /** Without rotation a used key's file holds every line written under it. */
  lemma FileHoldsAll(cfg: Config, codec: Codec, history: seq<Entry>, key: string)
    requires cfg.maxSize == 0
    ensures
      var disk := RunAppends(cfg, codec, history).disk;
      if Used(cfg, history, key)
      then FilePath(key) in disk && disk[FilePath(key)] == Joined(EncodeAll(codec, Filter(history, UnderKey(cfg, key))))
      else FilePath(key) !in disk && Filter(history, UnderKey(cfg, key)) == []
  {
    RunHolds(cfg, codec, history, key);
    LogIsSound(cfg, codec, history, key);
    NeverRotated(cfg, codec, history, key);
    WrittenIsJoined(cfg, codec, history, key);
    hide FilePath, RunAppends, EncodeAll, Joined, Written, LogSound;
    if !Used(cfg, history, key) {
      FilterNone(history, UnderKey(cfg, key));
    } else {
      assert AllText([]) == "";
      var log := LogFor(cfg, codec, history, key);
      assert Everything(log) == Text(log.current);
    }
  }

  predicate LinesFit(codec: Codec, entries: seq<Entry>) {
    forall i | 0 <= i < |entries| :: |codec.encode(entries[i])| <= MAX_SCAN_LINE
  }

  /** What a query reads: the entries under its key, or an error when a line is too long. */
  lemma FileAnswerMeans(cfg: Config, codec: Codec, history: seq<Entry>, channel: string, limit: int)
    requires Lossless(codec) && cfg.maxSize == 0
    ensures
      var mine := Filter(history, UnderKey(cfg, KeyFor(cfg.perChannel, channel)));
      FileAnswer(cfg, codec, RunAppends(cfg, codec, history).disk, channel, limit)
      == if LinesFit(codec, mine) then Ok(MemoryAnswer(mine, channel, limit)) else TooLong
  {
    var key := KeyFor(cfg.perChannel, channel);
    var mine := Filter(history, UnderKey(cfg, key));
    FileHoldsAll(cfg, codec, history, key);
    EncodedAreLines(codec, mine);
    RawJoined(EncodeAll(codec, mine));
    EncodedFit(codec, mine);
    NothingFound(channel, limit);
    hide FilePath, RunAppends, EncodeAll, Joined, RawLines, DecodeLines, Used, Lossless, Filter, AllFit, LinesFit;
  }

  lemma RawJoined(lines: seq<string>)
    requires forall i | 0 <= i < |lines| :: '\n' !in lines[i]
    ensures RawLines(Joined(lines)) == lines
  {
    JoinedSplits(lines);
    hide Split, Joined;
    assert (lines + [""])[..|lines|] == lines;
  }

  lemma EncodedFit(codec: Codec, entries: seq<Entry>)
    requires |EncodeAll(codec, entries)| == |entries|
    requires forall i | 0 <= i < |entries| :: EncodeAll(codec, entries)[i] == codec.encode(entries[i])
    ensures AllFit(EncodeAll(codec, entries)) <==> LinesFit(codec, entries)
    ensures LinesFit(codec, [])
  {
    hide EncodeAll;
    var lines := EncodeAll(codec, entries);
    assert forall i | 0 <= i < |entries| :: |lines[i]| == |codec.encode(entries[i])|;
  }

  lemma NothingFound(channel: string, limit: int)
    ensures MemoryAnswer([], channel, limit) == []
  {}

  /** The fast store refines the simple one. For any history and any named channel,
      per-channel files or not, the file store answers as the in-memory store does,
      unless some line in the file it scans is too long, and then it fails. */
  lemma FileStoreRefinesMemory(cfg: Config, codec: Codec, history: seq<Entry>, channel: string, limit: int)
    requires Lossless(codec) && cfg.maxSize == 0
    requires channel != "" || !cfg.perChannel
    ensures
      var mine := Filter(history, UnderKey(cfg, KeyFor(cfg.perChannel, channel)));
      FileAnswer(cfg, codec, RunAppends(cfg, codec, history).disk, channel, limit)
      == if LinesFit(codec, mine) then Ok(MemoryAnswer(history, channel, limit)) else TooLong
  {
    var key := KeyFor(cfg.perChannel, channel);
    FileAnswerMeans(cfg, codec, history, channel, limit);
    FilterTwice(history, UnderKey(cfg, key), InChannel(channel));
  }

  /** The empty channel asks for everything, but with per-channel files only one
      file is scanned. The answers agree exactly when the entries the in-memory
      store returns all belong to that file. */
  lemma EverythingQuery(cfg: Config, codec: Codec, history: seq<Entry>, limit: int)
    requires Lossless(codec) && cfg.maxSize == 0 && cfg.perChannel
    requires LinesFit(codec, Filter(history, UnderKey(cfg, "_all")))
    ensures FileAnswer(cfg, codec, RunAppends(cfg, codec, history).disk, "", limit)
            == Ok(MemoryAnswer(history, "", limit))
            <==> forall e | e in MemoryAnswer(history, "", limit) :: SanitizeChannel(e.channel) == "_all"
  {
    FileAnswerMeans(cfg, codec, history, "", limit);
    var mine := Filter(history, UnderKey(cfg, "_all"));
    FilterAll(history, InChannel(""));
    FilterAll(mine, InChannel(""));
    FilterMembers(history, UnderKey(cfg, "_all"));
    if forall e | e in Limited(history, limit) :: SanitizeChannel(e.channel) == "_all" {
      LimitedTail(history, limit, UnderKey(cfg, "_all"));
    } else {
      LimitedMembers(mine, limit);
    }
  }

  lemma LimitedMembers<T>(s: seq<T>, limit: int)
    ensures forall x | x in Limited(s, limit) :: x in s
  {}

  /** When the last elements all pass the test, they are the last that pass. */
  lemma LimitedTail<T>(s: seq<T>, limit: int, keep: T -> bool)
    requires forall x | x in Limited(s, limit) :: keep(x)
    ensures Limited(Filter(s, keep), limit) == Limited(s, limit)
  {
    if limit > 0 && |s| > limit {
      var cut := |s| - limit;
      assert s == s[..cut] + s[cut..];
      FilterConcat(s[..cut], s[cut..], keep);
      FilterAll(s[cut..], keep);
    } else {
      FilterAll(s, keep);
    }
  }
}
