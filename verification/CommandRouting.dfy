/** Which messages the command router takes for commands, and from whom. */
module CommandRouting {
  import opened Strings
  import opened IncidentText

  /** What comes before a command in a channel: an exclamation mark, or the bot's nick, in
      any letter case, with a colon or a comma. */
  predicate Calls(bot: string, head: string) {
    head == "!" || Lower(head) == bot + ":" || Lower(head) == bot + ","
  }

  /** The text is a call, white space, and the command. */
  ghost predicate CallsWith(bot: string, text: string, line: string) {
    && line != "" && Trimmed(line)
    && exists head, gap :: Calls(bot, head) && Blank(gap) && text == head + gap + line
  }

  /** Trimming what follows the head of a text that ends in no white space. */
  lemma TailIsCall(text: string, n: nat) returns (gap: string)
    requires Trimmed(text) && n <= |text| && TrimSpace(text[n..]) != ""
    ensures Blank(gap) && text == text[..n] + gap + TrimSpace(text[n..]) && Trimmed(TrimSpace(text[n..]))
  {
    var before, after := TrimShape(text[n..]);
    gap := before;
    var tail := text[n..];
    assert tail[|tail| - 1] == text[|text| - 1];
    hide TrimSpace;
  }

  lemma AddressedAt(bot: string, text: string)
    requires IsAddressed(bot, text)
    ensures |bot| < |text| && Calls(bot, text[..|bot| + 1])
    ensures StripAddress(bot, text) == TrimSpace(text[|bot| + 1..])
  {
    var low, head := Lower(text), text[..|bot| + 1];
    assert Lower(head) == low[..|bot| + 1];
    if bot + ": " <= low {
      assert low[..|bot| + 1] == (bot + ": ")[..|bot| + 1] == bot + ":";
      assert low[|bot| + 1] == (bot + ": ")[|bot| + 1] == ' ';
      assert text[|bot| + 1] == ' ';
      LeadingSpace(text[|bot| + 2..]);
      assert text[|bot| + 1..] == " " + text[|bot| + 2..];
    }
  }

  lemma CallIsAddress(bot: string, head: string, rest: string)
    requires Calls(bot, head) && head != "!" && (bot != "" ==> bot[0] != '!')
    ensures |head| == |bot| + 1 && IsAddressed(bot, head + rest) && !("!" <= head + rest)
  {
    var low := Lower(head + rest);
    assert |Lower(head)| == |head|;
    assert low[..|head|] == Lower(head);
    assert low[0] == Lower(head)[0];
  }

  lemma PlainRouted(bot: string, sender: string, target: string, text: string)
    requires Trimmed(text) && !("[" <= text)
    ensures Routed(bot, sender, target, text)
            == if text == "" then NotACommand else RouteBody(bot, sender, target, text)
  {
    TrimmedAfter("", text);
    assert "" + text == text;
    hide TrimSpace, RouteBody;
  }

  /** Where the command of a call starts, if the text is one. */
  lemma ChannelBody(bot: string, sender: string, target: string, text: string)
    requires "#" <= target && text != ""
    ensures
      var n := if "!" <= text then 1 else |bot| + 1;
      if ("!" <= text || IsAddressed(bot, text)) && n <= |text| && TrimSpace(text[n..]) != ""
      then RouteBody(bot, sender, target, text) == Command(sender, TrimSpace(text[n..]))
      else RouteBody(bot, sender, target, text) == NotACommand
  {
    EmptyTrims();
    if "!" <= text {
    } else if IsAddressed(bot, text) {
      AddressedAt(bot, text);
      TrimTwice(text[|bot| + 1..]);
    }
    hide TrimSpace, IsAddressed, StripAddress;
  }

  /** In a channel an untagged message is a command if and only if it is a call with
      something behind it, and the command is what is behind it. */
  lemma ChannelCommand(bot: string, sender: string, target: string, text: string, line: string)
    requires "#" <= target && Trimmed(text) && !("[" <= text) && (bot != "" ==> bot[0] != '!')
    ensures Routed(bot, sender, target, text) == Command(sender, line) <==> CallsWith(bot, text, line)
  {
    hide Routed, RouteBody, TrimSpace, IsAddressed, StripAddress, Calls, Blank;
    PlainRouted(bot, sender, target, text);
    if text != "" {
      ChannelBody(bot, sender, target, text);
      if Routed(bot, sender, target, text) == Command(sender, line) {
        IsACall(bot, text, line);
      }
    }
    if CallsWith(bot, text, line) {
      var head, gap :| Calls(bot, head) && Blank(gap) && text == head + gap + line;
      BehindTheCall(bot, head, gap, line);
    }
  }

  lemma IsACall(bot: string, text: string, line: string)
    requires Trimmed(text) && ("!" <= text || IsAddressed(bot, text))
    requires
      var n := if "!" <= text then 1 else |bot| + 1;
      n <= |text| && line != "" && line == TrimSpace(text[n..])
    ensures CallsWith(bot, text, line)
  {
    var n := if "!" <= text then 1 else |bot| + 1;
    if !("!" <= text) {
      AddressedAt(bot, text);
    }
    hide TrimSpace, IsAddressed;
    var gap := TailIsCall(text, n);
    assert Calls(bot, text[..n]);
  }

  lemma BehindTheCall(bot: string, head: string, gap: string, line: string)
    requires Calls(bot, head) && Blank(gap) && Trimmed(line) && (bot != "" ==> bot[0] != '!')
    ensures
      var text := head + gap + line;
      var n := if "!" <= text then 1 else |bot| + 1;
      ("!" <= text || IsAddressed(bot, text)) && n <= |text| && TrimSpace(text[n..]) == line
  {
    var text := head + gap + line;
    TrimmedAfter(gap, line);
    assert text == head + (gap + line);
    if head != "!" {
      CallIsAddress(bot, head, gap + line);
    }
    assert text[|head|..] == gap + line;
    hide TrimSpace, IsAddressed, Calls;
  }

  /** Sent to the bot itself, any untagged message that is not blank is a command. */
  lemma DirectCommand(bot: string, sender: string, target: string, text: string)
    requires !("#" <= target) && Trimmed(text) && !("[" <= text) && text != ""
    ensures Routed(bot, sender, target, text) == Command(sender, text)
  {
    TrimmedAfter("", text);
    assert "" + text == text;
  }

  /** White space around a message does not matter. */
  lemma OuterSpace(bot: string, sender: string, target: string, text: string)
    ensures Routed(bot, sender, target, text) == Routed(bot, sender, target, TrimSpace(text))
  {
    TrimTwice(text);
  }

  /** One to 32 letters, digits and the signs a nick may hold. */
  predicate NickLike(n: string) {
    && 1 <= |n| <= 32
    && forall c | c in n ::
         'a' <= c <= 'z' || 'A' <= c <= 'Z' || '0' <= c <= '9' || c in "-_[]\\^{}|`"
  }

  lemma NickLikeMeans(n: string)
    ensures IsValidNick(n) <==> NickLike(n)
  {
    assert forall c :: NickChar(c) <==>
                       'a' <= c <= 'z' || 'A' <= c <= 'Z' || '0' <= c <= '9' || c in "-_[]\\^{}|`";
    assert forall i | 0 <= i < |n| :: n[i] in n;
  }

  /** What the bridge relays as "[nick] text" counts as sent by that nick. */
  lemma BridgedSpeaksAs(bot: string, sender: string, n: string, target: string, text: string)
    requires NickLike(n) && Trimmed(text) && text != "" && !("[" <= text)
    ensures Routed(bot, sender, target, "[" + n + "] " + text) == Routed(bot, n, target, text)
  {
    TagStripped(sender, n, text);
    assert Trimmed("[" + n + "] " + text) by {
      var all := "[" + n + "] " + text;
      assert all[0] == '[' && all[|all| - 1] == text[|text| - 1];
    }
    PlainRouted(bot, n, target, text);
    hide RouteBody, StripBridgePrefix, NickLike, TrimSpace;
    var all := "[" + n + "] " + text;
    assert TrimSpace(all) == all by {
      TrimmedAfter("", all);
      assert "" + all == all;
    }
  }

  lemma TagStripped(sender: string, n: string, text: string)
    requires NickLike(n) && Trimmed(text)
    ensures StripBridgePrefix(sender, "[" + n + "] " + text) == (n, text)
  {
    var all := "[" + n + "] " + text;
    NickLikeMeans(n);
    TagEnds(n, text);
    TrimmedAfter("", text);
    assert "" + text == text;
    assert all[1..|n| + 1] == n && all[|n| + 3..] == text;
    hide TrimSpace, FindFirst, IsValidNick;
  }

  lemma TagEnds(n: string, text: string)
    requires NickLike(n)
    ensures FindFirst("[" + n + "] " + text, "] ") == |n| + 1
  {
    var all := "[" + n + "] " + text;
    forall j | 0 <= j < |n| + 1 ensures !("] " <= all[j..]) {
      assert all[j..][1] == all[j + 1];
      assert j < |n| ==> all[j + 1] == n[j] && n[j] in n;
      assert j == |n| ==> all[j + 1] == ']';
    }
    assert all[|n| + 1..] == "] " + text;
    FindSkips(all, "] ", 0, |n| + 1);
    assert all[0..] == all;
  }
}
