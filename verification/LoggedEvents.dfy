/** What the logger records of every kind of message, in terms of the message and not of its line. */
module LoggedEvents {
  import opened Options
  import opened GoStrings
  import opened Ircv3
  import opened MessageRoundTrip
  import opened LineRouting
  import opened RoutingAgreement

  /** The printed parameters without the space before them. */
  function Body(params: seq<string>): string {
    if params == [] then "" else ParamsText(params)[1..]
  }

  /** What the logger keeps of a parameter list: empty parameters before the last fall out, and so does
      everything at the end that neither shows nor has a colon before it; then the end is trimmed. */
  function Kept(params: seq<string>): seq<string> {
    if params == [] then []
    else
      var p := params[0];
      if |params| == 1 then
        if NeedsColon(p) || Shows(p) then [TrimRight(p, IsSpace)] else []
      else Joined(p, Kept(params[1..]))
  }

  /** What is kept of a parameter and of those behind it. */
  function Joined(p: string, kept: seq<string>): seq<string> {
    if kept != [] then (if p == "" then [] else [p]) + kept
    else if Shows(p) then [TrimRight(p, IsSpace)]
    else []
  }

  // ---- Reading the printed parameters ---------------------------------------------------------------

  lemma BodyOne(p: string)
    ensures Body([p]) == (if NeedsColon(p) then ":" else "") + p
    ensures ParamsText([p]) == " " + Body([p])
  {
    TextOfOne(p);
    BlankFirst(ParamsText([p]));
  }

  lemma BodyMore(params: seq<string>)
    requires |params| > 1
    ensures ParamsText(params) == " " + Body(params)
    ensures Body(params) == params[0] + [' '] + Body(params[1..])
  {
    BodyText(params[1..]);
    TextOfMore(params);
  }

  lemma {:induction false} BodyText(params: seq<string>)
    requires params != []
    ensures ParamsText(params) == " " + Body(params) && StartsWith(ParamsText(params), ' ')
  {
    if |params| == 1 {
      TextOfOne(params[0]);
    } else {
      HeadBlank(params[0], ParamsText(params[1..]));
    }
    BlankFirst(ParamsText(params));
  }

  lemma HeadBlank(p: string, more: string)
    ensures StartsWith(" " + p + more, ' ')
  {
  }

  lemma BlankFirst(text: string)
    requires StartsWith(text, ' ')
    ensures text == " " + text[1..]
  {
  }

  /** The end of a parameter and what follows it. */
  lemma TrimJoined(p: string, rest: string)
    ensures TrimRight(p + [' '] + rest, IsSpace)
         == if Shows(rest) then p + [' '] + TrimRight(rest, IsSpace) else TrimRight(p, IsSpace)
  {
    if Shows(rest) {
      TrimRightConcat(p + [' '], rest, IsSpace);
    } else {
      DropAll(p + [' '], rest);
      assert (p + [' '])[..|p|] == p;
    }
  }

  lemma KeptOne(p: string)
    ensures WordsOf(TrimRight(Body([p]), IsSpace)) == Kept([p])
    ensures Shows(Body([p])) <==> Kept([p]) != []
  {
    BodyOne(p);
    var kept := TrimRight(p, IsSpace);
    if NeedsColon(p) {
      ColonKept(p);
      WordsOfTrailing(kept);
    } else {
      assert "" + p == p;
      if kept != "" {
        WordsOfOne(kept);
      }
    }
  }

  lemma WordsOfBlank(rest: string)
    requires Shows(rest)
    ensures WordsOf("" + [' '] + TrimRight(rest, IsSpace)) == WordsOf(TrimRight(rest, IsSpace))
  {
    var kept := TrimRight(rest, IsSpace);
    assert ("" + [' '] + kept)[1..] == kept;
  }

  /** What splitParams reads from a printed parameter list whose end was trimmed. */
  lemma {:induction false} KeptWords(params: seq<string>)
    requires params != [] && CleanParams(params)
    ensures WordsOf(TrimRight(Body(params), IsSpace)) == Kept(params)
    ensures Shows(Body(params)) <==> Kept(params) != []
  {
    var p := params[0];
    if |params| == 1 {
      assert params == [p];
      KeptOne(p);
    } else {
      var rest := Body(params[1..]);
      KeptWords(params[1..]);
      BodyMore(params);
      TrimJoined(p, rest);
      if Shows(rest) {
        if p == "" { WordsOfBlank(rest); } else { WordsOfMore(p, TrimRight(rest, IsSpace)); }
      } else if Shows(p) {
        WordsOfOne(TrimRight(p, IsSpace));
      }
    }
  }

  // ---- Entries ---------------------------------------------------------------------------------------

  /** A message of `nick`, whom the logger does not skip, and of a command that it records. */
  predicate Recorded(m: Message, nick: string) {
    && Prefixed(m) && SentBy(m.prefix, nick) && !StartsWith(m.prefix, '*')
    && m.command in {"PRIVMSG", "NOTICE", "JOIN", "PART", "QUIT", "KICK", "TOPIC", "MODE"}
    && m.params != [] && CleanParams(m.params)
  }

  /** The entry of every such message, whatever its parameters hold. */
  lemma LoggedEntry(m: Message, nick: string, order: seq<(string, string)>, now: int,
                    readTime: string -> Option<int>)
    requires IsOrder(order, m.tags) && Recorded(m, nick)
    ensures var kept, rest := Kept(m.params), TrimRight(Body(m.params), IsSpace);
            EntryOf(Print(order, m), now, readTime)
            == EntryOfWords(m.command, nick, kept, rest, TimeOr(TagTime(m.tags, readTime), now))
  {
    SenderIs(m.prefix, nick);
    RoutedWord(m.command);
    BodyText(m.params);
    LoggedLine(m, order, Body(m.params), now, readTime);
    KeptWords(m.params);
  }

  /** Parameter i is still there after trimming: it shows, or it is the last one and has a colon. */
  predicate Remains(params: seq<string>, i: nat)
    requires i < |params|
  {
    Shows(params[i]) || (i == |params| - 1 && NeedsColon(params[i]))
  }

  lemma {:induction false} KeptSome(params: seq<string>)
    ensures Kept(params) != [] <==> exists i :: 0 <= i < |params| && Remains(params, i)
  {
    if |params| == 1 {
      assert Remains(params, 0) <==> NeedsColon(params[0]) || Shows(params[0]);
    } else if |params| > 1 {
      var rest := params[1..];
      KeptSome(rest);
      forall i | 0 <= i < |rest|
        ensures Remains(rest, i) <==> Remains(params, i + 1)
      {
      }
      assert Remains(params, 0) <==> Shows(params[0]);
      forall i | 0 < i < |params| && Remains(params, i)
        ensures Kept(rest) != []
      {
        assert Remains(rest, i - 1);
      }
    }
  }

  /** Some parameter after the first remains. */
  predicate Followed(params: seq<string>) {
    exists i :: 0 < i < |params| && Remains(params, i)
  }

  lemma KeptChannel(params: seq<string>)
    requires params != [] && CleanTarget(params[0]) && IsChannel(params[0])
    ensures var kept := Kept(params);
            && kept != []
            && kept[0] == (if Followed(params) then params[0] else TrimRight(params[0], IsSpace))
            && (|kept| > 1 <==> Followed(params))
  {
    FirstKept(params[0]);
    if |params| > 1 {
      var rest := params[1..];
      KeptSome(rest);
      forall i | 0 <= i < |rest|
        ensures Remains(rest, i) <==> Remains(params, i + 1)
      {
      }
      if Followed(params) {
        var i :| 0 < i < |params| && Remains(params, i);
        assert Remains(rest, i - 1);
      }
    }
  }

  predicate ChannelEvent(cmd: string) {
    cmd in {"TOPIC", "JOIN", "PART", "KICK", "MODE"}
  }

  lemma EntryChannel(cmd: string, nick: string, words: seq<string>, rest: string, time: int)
    requires ChannelEvent(cmd) && words != [] && IsChannel(words[0])
    ensures var entry := EntryOfWords(cmd, nick, words, rest, time);
            && (entry.Some? <==> cmd != "KICK" || |words| > 1)
            && (entry.Some? ==> entry.value.channel == words[0])
  {
  }

  /** The logger files a channel event under its channel exactly when some later parameter remains after
      trimming or, except for KICK, the channel itself does not end in white space. */
  lemma LoggedChannel(m: Message, nick: string, order: seq<(string, string)>, now: int,
                      readTime: string -> Option<int>)
    requires IsOrder(order, m.tags) && Recorded(m, nick) && ChannelEvent(m.command)
    requires CleanTarget(m.params[0]) && IsChannel(m.params[0])
    ensures var entry := EntryOf(Print(order, m), now, readTime);
            entry.Some? && entry.value.channel == m.params[0]
            <==> Followed(m.params) || (m.command != "KICK" && NoTrailingSpace(m.params[0]))
  {
    LoggedEntry(m, nick, order, now, readTime);
    KeptChannel(m.params);
    FirstKept(m.params[0]);
    TrimmedOrNot(m.params[0]);
    EntryChannel(m.command, nick, Kept(m.params), TrimRight(Body(m.params), IsSpace),
                 TimeOr(TagTime(m.tags, readTime), now));
  }

  // ---- Whole parameter lists -------------------------------------------------------------------------

  predicate FullMiddles(params: seq<string>) {
    forall i :: 0 <= i < |params| - 1 ==> params[i] != ""
  }

  lemma {:induction false} KeptWeight(params: seq<string>)
    ensures |Kept(params)| <= |params|
  {
    if |params| > 1 {
      KeptWeight(params[1..]);
    }
  }

  lemma {:induction false} KeptAll(params: seq<string>)
    requires params != []
    ensures Kept(params) == params <==> FullMiddles(params) && NoTrailingSpace(params[|params| - 1])
  {
    var p := params[0];
    if |params| == 1 {
      TrimmedOrNot(p);
    } else {
      var rest := params[1..];
      KeptAll(rest);
      KeptWeight(rest);
      assert params == [p] + rest;
      FullFrom(params);
    }
  }

  lemma TrimmedOrNot(p: string)
    ensures TrimRight(p, IsSpace) == p <==> NoTrailingSpace(p)
  {
    if NoTrailingSpace(p) {
      TrimRightKeeps(p, IsSpace);
    }
  }

  // ---- Against the parser ----------------------------------------------------------------------------

  /** What the parser makes of a printed parameter list: CR and LF at the end of the line are cut off. */
  function Parsed(params: seq<string>): seq<string> {
    if params == [] then []
    else
      var n := |params| - 1;
      var kept := TrimRight(params[n], IsCRLF);
      params[..n] + if kept == "" && !NeedsColon(params[n]) then [] else [kept]
  }

  lemma ParsedMore(params: seq<string>)
    requires |params| > 1
    ensures Parsed(params) == [params[0]] + Parsed(params[1..])
  {
    var n := |params| - 1;
    assert params[..n] == [params[0]] + params[1..][..n - 1];
  }

  lemma ParsedOne(p: string)
    ensures ParamsOf(TrimRight(Body([p]), IsCRLF)) == Parsed([p])
  {
    BodyOne(p);
    var kept := TrimRight(p, IsCRLF);
    if NeedsColon(p) {
      TrimRightConcat(":", p, IsCRLF);
      assert (":" + kept)[1..] == kept;
    } else {
      assert "" + p == p && "" + kept == kept;
      if kept != "" {
        ParamsOfLast(kept);
      }
    }
  }

  lemma {:induction false} ParsedBody(params: seq<string>)
    requires params != [] && CleanParams(params)
    ensures ParamsOf(TrimRight(Body(params), IsCRLF)) == Parsed(params)
  {
    if |params| == 1 {
      assert params == [params[0]];
      ParsedOne(params[0]);
    } else {
      var p, rest := params[0], Body(params[1..]);
      ParsedBody(params[1..]);
      ParsedMore(params);
      BodyMore(params);
      TrimRightConcat(p + [' '], rest, IsCRLF);
      ParamsOfMiddle(p, TrimRight(rest, IsCRLF));
    }
  }

  lemma ParsedHead(tags: map<string, string>, m: Message, b: string)
    requires Prefixed(m) && CommandWord(m.command)
    ensures UntaggedOf(tags, Head(m) + b) == Message(tags, m.prefix, m.command, ParamsOf(b))
    ensures !StartsWith(Head(m) + b, '@')
  {
    HeadText(m, b);
    UntaggedOfPrefix(tags, m.prefix, m.command + [' '] + b);
    BodyOfSpace(tags, m.prefix, m.command, b);
  }

  /** What the parser makes of every such line. */
  lemma ParsedPrinted(m: Message, order: seq<(string, string)>)
    requires IsOrder(order, m.tags) && Prefixed(m) && CommandWord(m.command)
    requires m.params != [] && CleanParams(m.params)
    ensures var p := MessageOf(Print(order, m));
            && p.prefix == m.prefix && p.command == m.command && p.params == Parsed(m.params)
            && (CleanTags(m.tags) ==> p.tags == m.tags)
  {
    var b := Body(m.params);
    var b1 := TrimRight(b, IsCRLF);
    BodyText(m.params);
    PrintHead(m, order, b);
    TrimFront(TagBlock(order), Head(m), b);
    ParsedBody(m.params);
    ParsedFront(m, order, b1);
  }

  /** The tags of a line whose end is clean, and what follows them. */
  lemma ParsedFront(m: Message, order: seq<(string, string)>, b: string)
    requires IsOrder(order, m.tags) && Prefixed(m) && CommandWord(m.command)
    ensures var p := LineOf(TagBlock(order) + (Head(m) + b));
            && p.prefix == m.prefix && p.command == m.command && p.params == ParamsOf(b)
            && (CleanTags(m.tags) ==> p.tags == m.tags)
  {
    if order == [] {
      ParsedHead(map[], m, b);
      assert TagBlock(order) + (Head(m) + b) == Head(m) + b;
      assert m.tags == map[];
    } else {
      TaggedLine(order, Head(m) + b);
      ParsedHead(TagsOf(TagTexts(order)), m, b);
      if CleanTags(m.tags) {
        TagsReadBack(order);
        OrderRebuildsMap(order, m.tags);
      }
    }
  }

  lemma {:induction false} KeptShorter(params: seq<string>)
    ensures |Kept(params)| <= |Parsed(params)|
    ensures Parsed(params) == [] ==> |params| <= 1
  {
    if |params| == 1 {
      TrimTwice(params[0]);
    } else if |params| > 1 {
      KeptShorter(params[1..]);
      ParsedMore(params);
    }
  }

  /** The parameters that the parser reads are there before any trimming of white space. */
  predicate Settled(params: seq<string>) {
    params == [] || NoTrailingSpace(params[|params| - 1])
  }

  lemma KeptParsedOne(p: string)
    ensures Kept([p]) == Parsed([p]) <==> Settled(Parsed([p]))
  {
    TrimTwice(p);
    TrimmedOrNot(TrimRight(p, IsCRLF));
  }

  lemma KeptParsedMore(p: string, rest: seq<string>, kept: seq<string>, parsed: seq<string>)
    requires |kept| <= |parsed| && (parsed == [] ==> FullMiddles(rest))
    requires kept == parsed <==> FullMiddles(rest) && Settled(parsed)
    ensures Joined(p, kept) == [p] + parsed <==> p != "" && FullMiddles(rest) && Settled([p] + parsed)
  {
    TrimmedOrNot(p);
    if parsed == [] {
      assert [p] + parsed == [p];
    } else {
      var all := [p] + parsed;
      assert all[|all| - 1] == parsed[|parsed| - 1] && all[1..] == parsed && all[0] == p;
      if kept != [] && p != "" {
        assert Joined(p, kept)[1..] == kept;
      }
    }
  }

  lemma {:induction false} KeptParsed(params: seq<string>)
    requires params != []
    ensures Kept(params) == Parsed(params) <==> FullMiddles(params) && Settled(Parsed(params))
  {
    var p, rest := params[0], params[1..];
    if |params| == 1 {
      assert params == [p];
      KeptParsedOne(p);
    } else {
      KeptParsed(rest);
      KeptShorter(rest);
      ParsedMore(params);
      FullFrom(params);
      KeptParsedMore(p, rest, Kept(rest), Parsed(rest));
    }
  }

  lemma FullFrom(params: seq<string>)
    requires |params| > 1
    ensures FullMiddles(params) <==> params[0] != "" && FullMiddles(params[1..])
  {
    var rest := params[1..];
    assert forall i :: 0 <= i < |rest| - 1 ==> rest[i] == params[i + 1];
    assert forall i :: 0 < i < |params| - 1 ==> params[i] == rest[i - 1];
  }

  /** The logger reads the parameters that the parser reads exactly when no parameter before the last is
      empty and the last one that the parser reads does not end in white space. */
  lemma ParametersAgree(m: Message, order: seq<(string, string)>)
    requires IsOrder(order, m.tags) && Prefixed(m) && CommandWord(m.command)
    requires m.params != [] && CleanParams(m.params)
    ensures var read := MessageOf(Print(order, m)).params;
            WordsOf(TrimRight(Body(m.params), IsSpace)) == read <==> FullMiddles(m.params) && Settled(read)
  {
    ParsedPrinted(m, order);
    KeptWords(m.params);
    KeptParsed(m.params);
  }

  lemma ParsedText(m: Message, order: seq<(string, string)>)
    requires IsOrder(order, m.tags) && ChannelText(m) && CleanTags(m.tags)
    ensures MessageOf(Print(order, m)) == m <==> EndsClean(m.params[1])
  {
    ParsedPrinted(m, order);
    var text := m.params[1];
    if EndsClean(text) {
      TrimRightKeeps(text, IsCRLF);
    } else {
      assert TrimRight(text, IsCRLF) != text;
    }
    assert m.params == [m.params[0], text];
  }

  /** The entry that a parsed channel message calls for: none without a text. */
  function TextEntry(m: Message, nick: string, time: int): Option<Entry> {
    if |m.params| < 2 then None
    else Some(Entry(m.params[0], nick, m.command, m.params[1], time))
  }

  /** The three readings of one printed channel message against each other: the routing key is always the
      parsed channel, and the logger records just the parsed message exactly when its text, if it has
      one, does not end in white space. */
  lemma ReadingsAgree(m: Message, nick: string, order: seq<(string, string)>, now: int,
                      readTime: string -> Option<int>)
    requires IsOrder(order, m.tags) && ChannelText(m) && CleanTags(m.tags) && SentBy(m.prefix, nick)
    ensures var read := MessageOf(Print(order, m));
            && SentBy(read.prefix, nick)
            && read.params != [] && ChannelFromLine(Print(order, m)) == read.params[0]
            && (EntryOf(Print(order, m), now, readTime)
                == TextEntry(read, nick, TimeOr(TagTime(read.tags, readTime), now))
                <==> |read.params| < 2 || NoTrailingSpace(read.params[1]))
  {
    var text := m.params[1];
    RoutedWord(m.command);
    ParsedPrinted(m, order);
    RoutingKey(m, order);
    LoggedText(m, nick, order, now, readTime);
    TrimTwice(text);
    TrimmedOrNot(TrimRight(text, IsCRLF));
    assert m.params[..1] == [m.params[0]];
  }

  /** And against the message that was printed: the routing key is its channel, the logger records its text
      exactly when that has no trailing white space, the parser gives it back exactly when its text does
      not end in CR or LF. */
  lemma ReadingsFaithful(m: Message, nick: string, order: seq<(string, string)>, now: int,
                         readTime: string -> Option<int>)
    requires IsOrder(order, m.tags) && ChannelText(m) && CleanTags(m.tags) && SentBy(m.prefix, nick)
    ensures ChannelFromLine(Print(order, m)) == m.params[0]
    ensures EntryOf(Print(order, m), now, readTime) == TextEntry(m, nick, TimeOr(TagTime(m.tags, readTime), now))
            <==> NoTrailingSpace(m.params[1])
    ensures MessageOf(Print(order, m)) == m <==> EndsClean(m.params[1])
  {
    RoutingKey(m, order);
    LoggedTextKept(m, nick, order, now, readTime);
    ParsedText(m, order);
  }

  // ---- Sentences -------------------------------------------------------------------------------------

  /** A message whose parameters the logger reads as they are. */
  predicate ReadWhole(m: Message) {
    m.params != [] && FullMiddles(m.params) && NoTrailingSpace(m.params[|m.params| - 1])
  }

  predicate Talk(cmd: string) {
    cmd in {"PRIVMSG", "NOTICE"}
  }

  /** Is there an entry? */
  predicate HasSentence(cmd: string, ps: seq<string>) {
    (cmd == "KICK" ==> |ps| > 1) && (cmd == "TOPIC" ==> |ps| > 0)
  }

  /** The sentence that any recorded message but a PRIVMSG or NOTICE leaves in the history, told from what
      is kept of its parameters, which is all of them when the logger reads them as they are. */
  lemma Sentences(m: Message, nick: string, order: seq<(string, string)>, now: int, readTime: string -> Option<int>)
    requires IsOrder(order, m.tags) && Recorded(m, nick) && !Talk(m.command)
    ensures var e, kept := EntryOf(Print(order, m), now, readTime), Kept(m.params);
            && (e.Some? <==> HasSentence(m.command, kept))
            && (e.Some? ==>
                  && Tells(e.value.text, nick, m.command, kept, TrimRight(Body(m.params), IsSpace))
                  && FiledUnder(e.value.channel, m.command, kept)
                  && e.value.nick == nick && e.value.kind == m.command
                  && e.value.time == TimeOr(TagTime(m.tags, readTime), now))
    ensures ReadWhole(m) ==> Kept(m.params) == m.params && TrimRight(Body(m.params), IsSpace) == Body(m.params)
  {
    LoggedEntry(m, nick, order, now, readTime);
    if ReadWhole(m) {
      KeptAll(m.params);
      BodyKept(m.params);
    }
    SentenceOfWords(m.command, nick, Kept(m.params), TrimRight(Body(m.params), IsSpace),
                    TimeOr(TagTime(m.tags, readTime), now));
  }

  lemma SentenceOfWords(cmd: string, nick: string, ps: seq<string>, rest: string, time: int)
    requires Loggable(cmd) && !Talk(cmd)
    ensures var e := EntryOfWords(cmd, nick, ps, rest, time);
            && (e.Some? <==> HasSentence(cmd, ps))
            && (e.Some? ==>
                  && Tells(e.value.text, nick, cmd, ps, rest) && FiledUnder(e.value.channel, cmd, ps)
                  && e.value.nick == nick && e.value.kind == cmd && e.value.time == time)
  {
    if cmd == "PART" {
      var left := nick + " left " + Param(ps, 0);
      assert left + "" == left;
      assert |ps| > 1 ==> left + (" (" + ps[1] + ")") == left + " (" + ps[1] + ")";
    } else if cmd == "KICK" && |ps| > 1 {
      var kicked := nick + " kicked " + ps[1];
      assert kicked + "" == kicked;
      assert |ps| > 2 ==> kicked + (": " + ps[2]) == kicked + ": " + ps[2];
    }
  }

  /** A PRIVMSG or NOTICE, to a channel or to a nick: filed under its target if that is a channel. */
  lemma TalkLogged(m: Message, nick: string, order: seq<(string, string)>, now: int,
                   readTime: string -> Option<int>)
    requires IsOrder(order, m.tags) && Recorded(m, nick) && Talk(m.command)
    ensures var e, kept := EntryOf(Print(order, m), now, readTime), Kept(m.params);
            && (e.Some? <==> |kept| > 1)
            && (e.Some? ==>
                  && e.value.channel == (if IsChannel(kept[0]) then kept[0] else "") && e.value.text == kept[1]
                  && e.value.nick == nick && e.value.kind == m.command
                  && e.value.time == TimeOr(TagTime(m.tags, readTime), now))
  {
    LoggedEntry(m, nick, order, now, readTime);
  }

  /** The channel of an entry: the first parameter, of a MODE only if it is a channel, and none of a QUIT. */
  predicate FiledUnder(channel: string, cmd: string, ps: seq<string>) {
    match cmd
    case "QUIT" => channel == ""
    case "MODE" => channel == if ps != [] && IsChannel(ps[0]) then ps[0] else ""
    case _ => channel == if ps != [] then ps[0] else ""
  }

  /** Nothing is recorded of any other command, nor of a sender whose prefix starts with `*`. */
  lemma NotRecorded(m: Message, order: seq<(string, string)>, now: int, readTime: string -> Option<int>)
    requires IsOrder(order, m.tags) && Prefixed(m) && m.params != []
    requires CommandWord(m.command)
    requires StartsWith(m.prefix, '*')
             || m.command !in {"PRIVMSG", "NOTICE", "JOIN", "PART", "QUIT", "KICK", "TOPIC", "MODE"}
    ensures EntryOf(Print(order, m), now, readTime) == None
  {
    BodyText(m.params);
    LoggedLine(m, order, Body(m.params), now, readTime);
  }

  predicate Tells(text: string, nick: string, cmd: string, ps: seq<string>, rest: string)
    requires HasSentence(cmd, ps)
  {
    match cmd
    case "JOIN" => text == nick + " joined " + Param(ps, 0)
    case "PART" =>
      if Param(ps, 1) == "" then text == nick + " left " + Param(ps, 0)
      else text == nick + " left " + Param(ps, 0) + " (" + ps[1] + ")"
    case "QUIT" => text == nick + " quit (" + Param(ps, 0) + ")"
    case "KICK" =>
      if |ps| == 2 then text == nick + " kicked " + ps[1]
      else text == nick + " kicked " + ps[1] + ": " + ps[2]
    case "TOPIC" => text == nick + " set topic: " + Param(ps, 1)
    case _ => text == nick + " set mode: " + rest
  }

  lemma {:induction false} BodyKept(params: seq<string>)
    requires params != [] && NoTrailingSpace(params[|params| - 1])
    ensures TrimRight(Body(params), IsSpace) == Body(params) && Shows(Body(params))
  {
    if |params| == 1 {
      BodyOne(params[0]);
      assert params == [params[0]];
      TrimmedOrNot(Body(params));
    } else {
      BodyMore(params);
      BodyKept(params[1..]);
      TrimJoined(params[0], Body(params[1..]));
    }
  }
}
