/** Which entries an answer holds, and in which order. */
module ScribeAnswers {
  import opened Seqs
  import opened ScribeStore
  import opened ScribeQuery

  lemma {:induction false} FilterIsSubsequence<T>(s: seq<T>, keep: T -> bool)
    ensures Subsequence(Filter(s, keep), s)
  {
    if s != [] {
      var n := |s| - 1;
      FilterIsSubsequence(s[..n], keep);
      assert s == s[..n] + [s[n]];
      SubsequenceExtend(Filter(s[..n], keep), s[..n], s[n]);
    }
  }

  lemma {:induction false} FilterCounts<T>(s: seq<T>, keep: T -> bool, x: T)
    ensures multiset(Filter(s, keep))[x] == if keep(x) then multiset(s)[x] else 0
  {
    if s != [] {
      var n := |s| - 1;
      FilterCounts(s[..n], keep, x);
      assert s == s[..n] + [s[n]];
    }
  }

  lemma {:induction false} DropFront<T>(front: seq<T>, a: seq<T>, b: seq<T>)
    requires Subsequence(front + a, b)
    ensures Subsequence(a, b)
    decreases |b|
  {
    if a != [] {
      var all := front + a;
      assert all[..|all| - 1] == front + a[..|a| - 1];
      if all[|all| - 1] == b[|b| - 1] {
        DropFront(front, a[..|a| - 1], b[..|b| - 1]);
      } else {
        DropFront(front, a, b[..|b| - 1]);
      }
    }
  }

  /** A limit of zero or less asks for every entry of the channel, the empty channel for
      those of all channels; a positive limit for the last so many of these. Answers come in
      the order of the history. */
  lemma AnswerExactly(history: seq<Entry>, channel: string, limit: int)
    ensures
      var answer, all := MemoryAnswer(history, channel, limit), MemoryAnswer(history, channel, 0);
      && Subsequence(answer, history)
      && (forall e :: multiset(all)[e] == if channel == "" || e.channel == channel then multiset(history)[e] else 0)
      && (limit <= 0 || |all| <= limit ==> answer == all)
      && (0 < limit < |all| ==> |answer| == limit && answer == all[|all| - limit..])
  {
    var all := Filter(history, InChannel(channel));
    FilterIsSubsequence(history, InChannel(channel));
    forall e: Entry
      ensures multiset(all)[e] == if channel == "" || e.channel == channel then multiset(history)[e] else 0
    {
      FilterCounts(history, InChannel(channel), e);
    }
    if 0 < limit < |all| {
      var cut := |all| - limit;
      assert all == all[..cut] + all[cut..];
      DropFront(all[..cut], all[cut..], history);
    }
  }

  /** Without rotation a query fails if and only if some entry under the key it reads was
      written as a line of more than 65535 characters. */
  lemma FailsExactly(cfg: Config, codec: Codec, history: seq<Entry>, channel: string, limit: int)
    requires Lossless(codec) && cfg.maxSize == 0
    ensures FileAnswer(cfg, codec, RunAppends(cfg, codec, history).disk, channel, limit).TooLong? <==>
            exists e | e in history ::
              AppendKey(cfg, e.channel) == KeyFor(cfg.perChannel, channel) && |codec.encode(e)| > 65535
  {
    var key := KeyFor(cfg.perChannel, channel);
    var mine := Filter(history, UnderKey(cfg, key));
    FileAnswerMeans(cfg, codec, history, channel, limit);
    FilterMembers(history, UnderKey(cfg, key));
    hide FileAnswer, RunAppends, Lossless, MemoryAnswer, Filter;
    if !LinesFit(codec, mine) {
      var i :| 0 <= i < |mine| && |codec.encode(mine[i])| > MAX_SCAN_LINE;
      assert mine[i] in mine;
    } else {
      forall e | e in history && AppendKey(cfg, e.channel) == key ensures |codec.encode(e)| <= 65535 {
        assert e in mine;
      }
    }
  }

  // ----- What is in a file besides entries -----

  /** Lines that are empty or do not decode, with a carriage return at the end or without,
      add nothing to an answer, wherever they stand. */
  lemma {:induction false} NoiseIgnored(codec: Codec, front: seq<string>, line: string, back: seq<string>)
    requires line == "" || line == "\r" || codec.decode(DropCr(line)).Garbled?
    ensures DecodeLines(codec, front + [line] + back) == DecodeLines(codec, front + back)
  {
    if back == [] {
      assert front + [line] + back == front + [line] && front + back == front;
      assert (front + [line])[..|front|] == front;
    } else {
      var n := |back| - 1;
      var with, without := front + [line] + back, front + back;
      assert with[..|with| - 1] == front + [line] + back[..n];
      assert without[..|without| - 1] == front + back[..n];
      NoiseIgnored(codec, front, line, back[..n]);
    }
  }

  /** A line reads the same with a carriage return behind it. */
  lemma {:induction false} CarriageReturnIgnored(codec: Codec, front: seq<string>, line: string, back: seq<string>)
    requires line != "" && line[|line| - 1] != '\r'
    ensures DecodeLines(codec, front + [line + "\r"] + back) == DecodeLines(codec, front + [line] + back)
  {
    var with, without := front + [line + "\r"] + back, front + [line] + back;
    if back == [] {
      assert with[..|with| - 1] == front && without[..|without| - 1] == front;
      assert (line + "\r")[..|line|] == line;
    } else {
      var n := |back| - 1;
      assert with[..|with| - 1] == front + [line + "\r"] + back[..n];
      assert without[..|without| - 1] == front + [line] + back[..n];
      CarriageReturnIgnored(codec, front, line, back[..n]);
    }
  }
}
