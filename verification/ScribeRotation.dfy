/** What a query finds once size rotation has moved lines away. */
module ScribeRotation {
  import opened Seqs
  import opened ScribeStore
  import opened ScribeQuery

  predicate Rotates(cfg: Config, log: Log) { cfg.maxSize > 0 && |Text(log.current)| >= cfg.maxSize }

  /** The entries under a key that were appended since its file was last rotated. */
  function SinceRotation(cfg: Config, codec: Codec, history: seq<Entry>, key: string): seq<Entry> {
    if history == [] then []
    else
      var init, e := history[..|history| - 1], history[|history| - 1];
      var before := SinceRotation(cfg, codec, init, key);
      if AppendKey(cfg, e.channel) != key then before
      else if Rotates(cfg, LogFor(cfg, codec, init, key)) then [e]
      else before + [e]
  }

  lemma {:induction false} SinceRotationWritten(cfg: Config, codec: Codec, history: seq<Entry>, key: string)
    ensures Text(LogFor(cfg, codec, history, key).current)
            == Joined(EncodeAll(codec, SinceRotation(cfg, codec, history, key)))
  {
    if history != [] {
      var init, e := history[..|history| - 1], history[|history| - 1];
      SinceRotationWritten(cfg, codec, init, key);
      var before := SinceRotation(cfg, codec, init, key);
      EncodedMore(codec, before, e);
      EncodedMore(codec, [], e);
      assert [] + [e] == [e];
      hide EncodeAll, Joined, AppendKey;
    } else {
      assert Text(FIRST_LOG.current) == "";
    }
  }

  lemma EncodedMore(codec: Codec, entries: seq<Entry>, e: Entry)
    ensures Joined(EncodeAll(codec, entries + [e])) == Joined(EncodeAll(codec, entries)) + LineOf(codec, e)
    ensures Joined(EncodeAll(codec, [])) == ""
    ensures "" + LineOf(codec, e) == LineOf(codec, e)
  {
    assert (entries + [e])[..|entries|] == entries;
    JoinedAppend(EncodeAll(codec, entries), codec.encode(e));
  }

  lemma {:induction false} SinceRotationIsEnd(cfg: Config, codec: Codec, history: seq<Entry>, key: string)
    ensures IsSuffix(SinceRotation(cfg, codec, history, key), Filter(history, UnderKey(cfg, key)))
  {
    if history != [] {
      var init, e := history[..|history| - 1], history[|history| - 1];
      SinceRotationIsEnd(cfg, codec, init, key);
      hide LogFor, Rotates;
    }
  }

  /** With size rotation a query answers as the in-memory store would if it held only what
      was written since the last rotation; without it, that is everything under the key. */
  lemma RotatedAnswerMeans(cfg: Config, codec: Codec, history: seq<Entry>, channel: string, limit: int)
    requires Lossless(codec)
    ensures
      var current := SinceRotation(cfg, codec, history, KeyFor(cfg.perChannel, channel));
      FileAnswer(cfg, codec, RunAppends(cfg, codec, history).disk, channel, limit)
      == if LinesFit(codec, current) then Ok(MemoryAnswer(current, channel, limit)) else TooLong
  {
    var key := KeyFor(cfg.perChannel, channel);
    var current := SinceRotation(cfg, codec, history, key);
    FileHoldsCurrent(cfg, codec, history, key);
    EncodedAreLines(codec, current);
    RawJoined(EncodeAll(codec, current));
    EncodedFit(codec, current);
    NothingFound(channel, limit);
    hide FilePath, RunAppends, EncodeAll, Joined, RawLines, DecodeLines, Used, Lossless, Filter, AllFit, LinesFit,
      SinceRotation;
  }

  lemma FileHoldsCurrent(cfg: Config, codec: Codec, history: seq<Entry>, key: string)
    ensures
      var disk := RunAppends(cfg, codec, history).disk;
      var current := SinceRotation(cfg, codec, history, key);
      if Used(cfg, history, key) then FilePath(key) in disk && disk[FilePath(key)] == Joined(EncodeAll(codec, current))
      else FilePath(key) !in disk && current == []
  {
    RunHolds(cfg, codec, history, key);
    SinceRotationWritten(cfg, codec, history, key);
    SinceRotationIsEnd(cfg, codec, history, key);
    if !Used(cfg, history, key) {
      FilterNone(history, UnderKey(cfg, key));
    }
    hide FilePath, RunAppends, EncodeAll, Joined, LogFor, SinceRotation, Text;
  }

  /** The last `limit` of a suffix are the last of the whole exactly when it has that many. */
  lemma LimitedSuffix<T>(a: seq<T>, b: seq<T>, limit: int)
    requires IsSuffix(a, b)
    ensures Limited(a, limit) == Limited(b, limit) <==> |Limited(b, limit)| <= |a|
  {
  }

  /** The file store then answers as the in-memory store does over the whole history if and
      only if every entry wanted was written since the last rotation. */
  lemma RotatedAnswerAgreesIff(cfg: Config, codec: Codec, history: seq<Entry>, channel: string, limit: int)
    requires Lossless(codec) && (channel != "" || !cfg.perChannel)
    requires LinesFit(codec, SinceRotation(cfg, codec, history, KeyFor(cfg.perChannel, channel)))
    ensures
      var current := SinceRotation(cfg, codec, history, KeyFor(cfg.perChannel, channel));
      FileAnswer(cfg, codec, RunAppends(cfg, codec, history).disk, channel, limit)
        == Ok(MemoryAnswer(history, channel, limit))
      <==> |MemoryAnswer(history, channel, limit)| <= |Filter(current, InChannel(channel))|
  {
    var key := KeyFor(cfg.perChannel, channel);
    var current := SinceRotation(cfg, codec, history, key);
    var mine := Filter(history, UnderKey(cfg, key));
    RotatedAnswerMeans(cfg, codec, history, channel, limit);
    SinceRotationIsEnd(cfg, codec, history, key);
    FilterTwice(history, UnderKey(cfg, key), InChannel(channel));
    SuffixFiltered(current, mine, InChannel(channel));
    LimitedSuffix(Filter(current, InChannel(channel)), Filter(mine, InChannel(channel)), limit);
    hide FileAnswer, RunAppends, SinceRotation, Filter, Lossless, LinesFit, Limited;
  }
}
