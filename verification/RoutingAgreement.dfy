/** On printed messages, the bouncer's routing key, the logger's entry and the parser agree. */
module RoutingAgreement {
  import opened Options
  import opened GoStrings
  import opened TagEscape
  import opened Ircv3
  import opened MessageRoundTrip
  import opened LineRouting

  predicate CleanTarget(p: string) {
    p != "" && ' ' !in p && !StartsWith(p, ':')
  }

  predicate Routed(cmd: string) {
    cmd in {"PRIVMSG", "NOTICE", "TOPIC", "JOIN", "PART", "KICK", "MODE"}
  }

  predicate Prefixed(m: Message) {
    && (forall k :: k in m.tags ==> CleanKey(k))
    && m.prefix != "" && ' ' !in m.prefix
  }

  /** A message with a prefix whose first parameter is a plain word. */
  predicate Addressed(m: Message) {
    && Prefixed(m)
    && m.params != [] && CleanTarget(m.params[0])
  }

  lemma RoutedWord(cmd: string)
    requires Loggable(cmd)
    ensures CommandWord(cmd)
  {
  }

  // ---- The bouncer's routing key ---------------------------------------------------------------

  lemma SplitWord(target: string, tail: string, n: nat)
    requires ' ' !in target && (tail == "" || tail[0] == ' ') && n > 1
    ensures var parts := SplitN(target + tail, ' ', n); |parts| >= 1 && parts[0] == target
  {
    if tail == "" {
      assert target + tail == target;
    } else {
      assert target + tail == target + [' '] + tail[1..];
      SplitNFirst(target, ' ', tail[1..], n);
    }
  }

  lemma SplitTwoWords(first: string, cmd: string, rest: string, n: nat)
    requires ' ' !in first && ' ' !in cmd && n > 2
    ensures SplitN(first + [' '] + (cmd + [' '] + rest), ' ', n) == [first, cmd] + SplitN(rest, ' ', n - 2)
  {
    SplitNFirst(first, ' ', cmd + [' '] + rest, n);
    SplitNFirst(cmd, ' ', rest, n - 1);
    TwoAndMore(first, cmd, SplitN(rest, ' ', n - 2));
  }

  lemma TwoAndMore(a: string, b: string, more: seq<string>)
    ensures [a] + ([b] + more) == [a, b] + more
  {
  }

  lemma Regroup(prefix: string, cmd: string, b: string)
    ensures ":" + prefix + " " + (cmd + (" " + b)) == (":" + prefix) + [' '] + (cmd + [' '] + b)
  {
  }

  lemma SplitAddressed(prefix: string, cmd: string, target: string, tail: string)
    requires ' ' !in prefix && ' ' !in cmd && ' ' !in target && (tail == "" || tail[0] == ' ')
    ensures var parts := SplitN(":" + prefix + " " + (cmd + (" " + (target + tail))), ' ', 4);
            |parts| >= 3 && parts[0] == ":" + prefix && parts[1] == cmd && parts[2] == target
  {
    Regroup(prefix, cmd, target + tail);
    SplitTwoWords(":" + prefix, cmd, target + tail, 4);
    SplitWord(target, tail, 2);
  }

  /** The text of the parameters after the first. */
  function TailText(params: seq<string>): string
    requires params != []
  {
    if |params| == 1 then "" else ParamsText(params[1..])
  }

  lemma TextFrom(params: seq<string>)
    requires params != [] && CleanTarget(params[0])
    ensures ParamsText(params) == " " + (params[0] + TailText(params))
    ensures TailText(params) == "" || TailText(params)[0] == ' '
  {
    if |params| == 1 {
      assert ParamsText(params) == " " + "" + params[0];
    }
  }

  lemma BareKey(m: Message)
    requires Addressed(m) && Routed(m.command)
    ensures ChannelOfBare(PrefixText(m.prefix) + (m.command + ParamsText(m.params)))
         == if IsChannel(m.params[0]) then m.params[0] else ""
  {
    TextFrom(m.params);
    RoutedWord(m.command);
    SplitAddressed(m.prefix, m.command, m.params[0], TailText(m.params));
  }

  lemma WordAfterAt(block: string, rest: string)
    requires ' ' !in block
    ensures var line := "@" + block + " " + rest;
            Index(line, ' ') == |block| + 1 && line[1..|block| + 1] == block && line[|block| + 2..] == rest
  {
    CutAfter("@" + block, ' ', rest);
    assert "@" + block + " " + rest == ("@" + block) + [' '] + rest;
  }

  lemma TagBlockWord(order: seq<(string, string)>, rest: string)
    requires order != [] && CleanOrder(order)
    ensures var block := Join(TagTexts(order), ';');
            var line := TagBlock(order) + rest;
            Index(line, ' ') == |block| + 1 && line[1..|block| + 1] == block && line[|block| + 2..] == rest
    ensures Split(Join(TagTexts(order), ';'), ';') == TagTexts(order)
  {
    BlockClean(order);
    WordAfterAt(Join(TagTexts(order), ';'), rest);
  }

  /** The four parts of a line with a prefix, when something follows the first parameter. */
  lemma FourParts(prefix: string, cmd: string, target: string, rest: string, n: nat)
    requires ' ' !in prefix && ' ' !in cmd && ' ' !in target && n == 4
    ensures SplitN(":" + prefix + " " + (cmd + (" " + (target + (" " + rest)))), ' ', n)
         == [":" + prefix, cmd, target, rest]
  {
    var more := target + (" " + rest);
    Regroup(prefix, cmd, more);
    SplitTwoWords(":" + prefix, cmd, more, n);
    SplitLast(target, rest, more, n - 2);
    FourOf(":" + prefix, cmd, target, rest);
  }

  lemma SplitLast(target: string, rest: string, more: string, n: nat)
    requires ' ' !in target && more == target + (" " + rest) && n == 2
    ensures SplitN(more, ' ', n) == [target, rest]
  {
    assert more == target + [' '] + rest;
    SplitNFirst(target, ' ', rest, n);
    assert [target] + [rest] == [target, rest];
  }

  lemma FourOf(a: string, b: string, c: string, d: string)
    ensures [a, b] + [c, d] == [a, b, c, d]
  {
  }

  predicate NamesNumeric(m: Message) {
    && Addressed(m) && |m.params| > 1 && CleanTarget(m.params[1])
    && (m.command == "366" || (m.command == "353" && |m.params| > 2 && CleanTarget(m.params[2])))
  }

  /** The routing key of a line whose first parameter is followed by `rest`. */
  lemma FourPartsKey(m: Message, rest: string)
    requires Addressed(m) && ParamsText(m.params) == " " + (m.params[0] + (" " + rest))
    requires ToUpper(m.command) == m.command && ' ' !in m.command
    ensures ChannelOfBare(PrefixText(m.prefix) + (m.command + ParamsText(m.params)))
         == ChannelOfParts(m.command, m.params[0], [":" + m.prefix, m.command, m.params[0], rest])
  {
    FourParts(m.prefix, m.command, m.params[0], rest, 4);
  }

  lemma Key353(parts: seq<string>, sign: string, chan: string, tail: string)
    requires |parts| == 4 && parts[3] == sign + [' '] + (chan + tail)
    requires ' ' !in sign && ' ' !in chan && (tail == "" || tail[0] == ' ')
    ensures ChannelOfParts("353", parts[2], parts) == if IsChannel(chan) then chan else ""
  {
    SplitNFirst(sign, ' ', chan + tail, 3);
    SplitWord(chan, tail, 2);
  }

  lemma Key366(parts: seq<string>, chan: string, tail: string)
    requires |parts| == 4 && parts[3] == chan + tail && ' ' !in chan && (tail == "" || tail[0] == ' ')
    ensures ChannelOfParts("366", parts[2], parts) == if IsChannel(chan) then chan else ""
  {
    SplitWord(chan, tail, 2);
  }

  lemma TwoTexts(params: seq<string>)
    requires |params| > 1 && CleanTarget(params[0]) && CleanTarget(params[1])
    ensures ParamsText(params) == " " + (params[0] + (" " + (params[1] + TailText(params[1..]))))
    ensures var tail := TailText(params[1..]); tail == "" || tail[0] == ' '
  {
    TextFrom(params);
    TextFrom(params[1..]);
  }

  function NamesChannel(m: Message): string
    requires NamesNumeric(m)
  {
    m.params[if m.command == "353" then 2 else 1]
  }

  lemma NamesBare(m: Message)
    requires NamesNumeric(m)
    ensures ChannelOfBare(PrefixText(m.prefix) + (m.command + ParamsText(m.params)))
         == if IsChannel(NamesChannel(m)) then NamesChannel(m) else ""
  {
    var rest := m.params[1] + TailText(m.params[1..]);
    TwoTexts(m.params);
    FourPartsKey(m, rest);
    NamesParts(m, [":" + m.prefix, m.command, m.params[0], rest]);
  }

  lemma NamesParts(m: Message, parts: seq<string>)
    requires NamesNumeric(m)
    requires |parts| == 4 && parts[2] == m.params[0] && parts[3] == m.params[1] + TailText(m.params[1..])
    ensures ChannelOfParts(m.command, m.params[0], parts)
         == if IsChannel(NamesChannel(m)) then NamesChannel(m) else ""
  {
    var ps := m.params;
    if m.command == "353" {
      TwoTexts(ps[1..]);
      assert ps[1..][1..] == ps[2..];
      var tail := TailText(ps[2..]);
      assert parts[3] == ps[1] + [' '] + (ps[2] + tail);
      Key353(parts, ps[1], ps[2], tail);
    } else {
      TextFrom(ps[1..]);
      Key366(parts, ps[1], TailText(ps[1..]));
    }
  }

  /** The numerics of NAMES: 353 is kept under its third parameter, 366 under its second. */
  lemma NamesKey(m: Message, order: seq<(string, string)>)
    requires IsOrder(order, m.tags) && NamesNumeric(m)
    ensures ChannelFromLine(Print(order, m)) == if IsChannel(NamesChannel(m)) then NamesChannel(m) else ""
  {
    NamesBare(m);
    BehindTags(m, order);
  }

  /** Tags do not change the routing key. */
  lemma BehindTags(m: Message, order: seq<(string, string)>)
    requires IsOrder(order, m.tags) && Prefixed(m)
    ensures ChannelFromLine(Print(order, m))
         == ChannelOfBare(PrefixText(m.prefix) + (m.command + ParamsText(m.params)))
  {
    var rest := PrefixText(m.prefix) + (m.command + ParamsText(m.params));
    if order == [] {
      assert Print(order, m) == rest;
    } else {
      BlockClean(order);
      ChannelBehind(Join(TagTexts(order), ';'), rest);
    }
  }

  lemma ChannelBehind(block: string, rest: string)
    requires ' ' !in block && !StartsWith(rest, ' ')
    ensures ChannelFromLine("@" + block + " " + rest) == ChannelOfBare(rest)
  {
    WordAfterAt(block, rest);
    assert TrimLeft(rest, IsBlank) == rest;
  }

  /** channelFromLine is the first parameter when that starts with a channel mark, and "" when it does not. */
  lemma RoutingKey(m: Message, order: seq<(string, string)>)
    requires IsOrder(order, m.tags) && Addressed(m) && Routed(m.command)
    ensures var p := m.params[0];
            ChannelFromLine(Print(order, m)) == if p[0] == '#' || p[0] == '&' then p else ""
  {
    BareKey(m);
    BehindTags(m, order);
  }

  /** Any other command has no routing key. */
  lemma NoKey(m: Message, order: seq<(string, string)>)
    requires IsOrder(order, m.tags) && Addressed(m) && CommandWord(m.command)
    requires m.command !in {"PRIVMSG", "NOTICE", "TOPIC", "JOIN", "PART", "KICK", "MODE", "353", "366"}
    ensures ChannelFromLine(Print(order, m)) == ""
  {
    TextFrom(m.params);
    SplitAddressed(m.prefix, m.command, m.params[0], TailText(m.params));
    BehindTags(m, order);
  }

  /** A channel printed as a trailing parameter is found behind its colon for four of the commands only. */
  lemma ColonKey(block: string, prefix: string, cmd: string, chan: string, tail: string)
    requires ' ' !in block && ' ' !in prefix && ' ' !in chan && (tail == "" || tail[0] == ' ')
    requires Routed(cmd) && chan != "" && (chan[0] == '#' || chan[0] == '&')
    ensures var line := ":" + prefix + " " + (cmd + (" " + (":" + chan + tail)));
            ChannelFromLine(if block == "" then line else "@" + block + " " + line)
            == if cmd in {"PRIVMSG", "NOTICE", "TOPIC", "JOIN"} then chan else ""
  {
    var line := ":" + prefix + " " + (cmd + (" " + (":" + chan + tail)));
    var parts := SplitN(line, ' ', 4);
    RoutedWord(cmd);
    SplitAddressed(prefix, cmd, ":" + chan, tail);
    ColonParts(cmd, chan, parts);
    BareFromParts(line, cmd, ":" + chan, parts);
    ColonKeyBehind(block, line);
  }

  lemma ColonParts(cmd: string, chan: string, parts: seq<string>)
    requires Routed(cmd) && chan != "" && (chan[0] == '#' || chan[0] == '&')
    ensures ChannelOfParts(cmd, ":" + chan, parts)
         == if cmd in {"PRIVMSG", "NOTICE", "TOPIC", "JOIN"} then chan else ""
  {
    assert (":" + chan)[1..] == chan;
  }

  lemma BareFromParts(line: string, cmd: string, target: string, parts: seq<string>)
    requires parts == SplitN(line, ' ', 4) && |parts| >= 3 && StartsWith(parts[0], ':')
    requires parts[1] == cmd && parts[2] == target && ToUpper(cmd) == cmd
    ensures ChannelOfBare(line) == ChannelOfParts(cmd, target, parts)
  {
  }

  lemma ColonKeyBehind(block: string, line: string)
    requires ' ' !in block && StartsWith(line, ':')
    ensures ChannelFromLine(if block == "" then line else "@" + block + " " + line) == ChannelOfBare(line)
  {
    if block != "" {
      ChannelBehind(block, line);
    }
  }

  // ---- Time tags -------------------------------------------------------------------------------

  /** What the one `time` tag of a message says, if it has one with a value. */
  function TagTime(tags: map<string, string>, readTime: string -> Option<int>): Option<int> {
    if "time" in tags && tags["time"] != "" then readTime(EscapeTagValue(tags["time"])) else None
  }

  lemma {:induction false} FirstTimeAt(tags: seq<string>, i: nat, readTime: string -> Option<int>)
    requires i < |tags| && forall j :: 0 <= j < |tags| && IsTimeTag(tags[j]) ==> j == i
    ensures FirstTime(tags, readTime) == if IsTimeTag(tags[i]) then readTime(tags[i][5..]) else None
  {
    if i > 0 {
      FirstTimeAt(tags[1..], i - 1, readTime);
    } else if |tags| > 1 {
      FirstTimeAt(tags[1..], 0, readTime);
    }
  }

  lemma {:induction false} LastTimeAt(tags: seq<string>, i: nat, readTime: string -> Option<int>)
    requires i < |tags| && forall j :: 0 <= j < |tags| && IsTimeTag(tags[j]) ==> j == i
    ensures LastTime(tags, readTime) == if IsTimeTag(tags[i]) then readTime(tags[i][5..]) else None
  {
    var n := |tags| - 1;
    if i < n {
      LastTimeAt(tags[..n], i, readTime);
    } else if n > 0 {
      LastTimeAt(tags[..n], 0, readTime);
    }
  }

  /** Tag i is a time that can be read. */
  predicate Readable(tags: seq<string>, i: nat, readTime: string -> Option<int>)
    requires i < |tags|
  {
    "time=" <= tags[i] && readTime(tags[i][5..]).Some?
  }

  /** The bouncer takes the first readable time, whatever the tags. */
  lemma {:induction false} FirstTimeIs(tags: seq<string>, readTime: string -> Option<int>)
    ensures FirstTime(tags, readTime).None? <==> forall i :: 0 <= i < |tags| ==> !Readable(tags, i, readTime)
    ensures forall i :: 0 <= i < |tags| && Readable(tags, i, readTime)
                        && (forall j :: 0 <= j < i ==> !Readable(tags, j, readTime)) ==>
              FirstTime(tags, readTime) == readTime(tags[i][5..])
  {
    if tags != [] && !Readable(tags, 0, readTime) {
      var rest := tags[1..];
      FirstTimeIs(rest, readTime);
      assert forall i :: 0 <= i < |rest| ==> (Readable(rest, i, readTime) <==> Readable(tags, i + 1, readTime));
      assert forall i :: 0 < i < |tags| ==> (Readable(tags, i, readTime) <==> Readable(rest, i - 1, readTime));
    }
  }

  /** The logger takes the last one. */
  lemma {:induction false} LastTimeIs(tags: seq<string>, readTime: string -> Option<int>)
    ensures LastTime(tags, readTime).None? <==> forall i :: 0 <= i < |tags| ==> !Readable(tags, i, readTime)
    ensures forall i :: 0 <= i < |tags| && Readable(tags, i, readTime)
                        && (forall j :: i < j < |tags| ==> !Readable(tags, j, readTime)) ==>
              LastTime(tags, readTime) == readTime(tags[i][5..])
  {
    var n := |tags| - 1;
    if tags != [] && !Readable(tags, n, readTime) {
      var init := tags[..n];
      LastTimeIs(init, readTime);
      assert forall i :: 0 <= i < n ==> (Readable(init, i, readTime) <==> Readable(tags, i, readTime));
    }
  }

  lemma TimeTagKey(tag: (string, string))
    requires CleanKey(tag.0)
    ensures IsTimeTag(TagText(tag)) <==> tag.0 == "time" && tag.1 != ""
    ensures IsTimeTag(TagText(tag)) ==> TagText(tag)[5..] == EscapeTagValue(tag.1)
  {
    var text := TagText(tag);
    if tag.1 != "" {
      var v := EscapeTagValue(tag.1);
      assert text == tag.0 + ['='] + v;
      CutAfter(tag.0, '=', v);
    } else {
      assert text == tag.0;
    }
    if IsTimeTag(text) {
      assert text == "time" + ['='] + text[5..];
      IndexAfter("time", '=', text[5..]);
      assert tag.0 == text[..4];
    }
  }

  lemma TimesAgree(order: seq<(string, string)>, tags: map<string, string>, readTime: string -> Option<int>)
    requires IsOrder(order, tags) && order != [] && CleanOrder(order)
    ensures LastTime(TagTexts(order), readTime) == TagTime(tags, readTime)
    ensures FirstTime(TagTexts(order), readTime) == TagTime(tags, readTime)
  {
    var texts := TagTexts(order);
    forall i | 0 <= i < |texts|
      ensures IsTimeTag(texts[i]) <==> order[i].0 == "time" && order[i].1 != ""
      ensures IsTimeTag(texts[i]) ==> texts[i][5..] == EscapeTagValue(order[i].1)
    {
      TimeTagKey(order[i]);
    }
    var i := 0;
    if "time" in tags {
      i :| 0 <= i < |order| && order[i] == ("time", tags["time"]);
    }
    assert forall j :: 0 <= j < |order| && order[j].0 == "time" ==> j == i by {
      forall j | 0 <= j < |order| && order[j].0 == "time"
        ensures j == i
      {
        assert order[i].0 == "time";
      }
    }
    FirstTimeAt(texts, i, readTime);
    LastTimeAt(texts, i, readTime);
  }

  // ---- The logger ------------------------------------------------------------------------------

  lemma TrimTwice(s: string)
    ensures TrimRight(TrimRight(s, IsCRLF), IsSpace) == TrimRight(s, IsSpace)
    ensures TrimRight(TrimRight(s, IsSpace), IsSpace) == TrimRight(s, IsSpace)
  {
    TrimRightKeeps(TrimRight(s, IsSpace), IsSpace);
    TrimWider(s, TrimRight(s, IsCRLF));
  }

  /** What CR and LF leave is trimmed like the whole. */
  lemma TrimWider(s: string, t: string)
    requires t <= s && forall i :: |t| <= i < |s| ==> IsCRLF(s[i])
    ensures TrimRight(t, IsSpace) == TrimRight(s, IsSpace)
  {
    var r := TrimRight(t, IsSpace);
    assert t == s[..|t|];
    forall i | |r| <= i < |s|
      ensures IsSpace(s[i])
    {
      assert i < |t| ==> t[i] == s[i];
    }
    TrimRightIs(s, IsSpace, r);
  }

  /** Something is left of `b` when white space is trimmed. */
  predicate Shows(b: string) {
    TrimRight(b, IsSpace) != ""
  }

  lemma FirstKept(b: string)
    requires b != "" && !IsSpace(b[0])
    ensures Shows(b) && TrimRight(b, IsSpace)[0] == b[0]
  {
  }

  lemma TrimSpaceTail(a: string, b: string)
    requires a != "" && !IsSpace(a[0]) && Shows(b)
    ensures TrimSpace(a + b) == a + TrimRight(b, IsSpace)
  {
    TrimRightConcat(a, b, IsSpace);
    assert TrimLeft(a + b, IsSpace) == a + b;
  }

  /** A command as it is printed: one upper-case word. */
  predicate CommandWord(cmd: string) {
    Solid(cmd) && ' ' !in cmd && ToUpper(cmd) == cmd
  }

  lemma LoggedBody(prefix: string, cmd: string, rest: string, time: int)
    requires CommandWord(cmd)
    ensures EntryOfBody(prefix, cmd + [' '] + rest, time) == EntryOfCommand(prefix, cmd, rest, time)
    ensures EntryOfBody(prefix, cmd, time) == EntryOfCommand(prefix, cmd, "", time)
  {
    CutAfter(cmd, ' ', rest);
  }

  predicate Solid(a: string) {
    a != "" && !IsSpace(a[0]) && !IsSpace(a[|a| - 1])
  }

  /** Trimming a word and what follows it: when nothing else shows, the space goes too. */
  lemma TrimAfter(a: string, b: string)
    requires Solid(a)
    ensures TrimSpace(a + [' '] + b) == if Shows(b) then a + [' '] + TrimRight(b, IsSpace) else a
    ensures TrimSpace(a) == a
  {
    TrimRightKeeps(a, IsSpace);
    if Shows(b) {
      TrimSpaceTail(a + [' '], b);
    } else {
      assert TrimLeft(a + [' '] + b, IsSpace) == a + [' '] + b;
      DropAll(a + [' '], b);
      assert (a + [' '])[..|a|] == a;
    }
  }

  lemma UntaggedWord(prefix: string, rest: string, time: int)
    requires ' ' !in prefix
    ensures EntryOfUntagged(":" + prefix + " " + rest, time) == EntryOfBody(prefix, TrimSpace(rest), time)
  {
    var line := (":" + prefix) + [' '] + rest;
    assert line == ":" + prefix + " " + rest;
    CutAfter(":" + prefix, ' ', rest);
    assert line[1..|prefix| + 1] == prefix;
  }

  /** From a line without tags to its command: the prefix is cut off and the end trimmed. */
  lemma LoggedUntagged(prefix: string, cmd: string, b: string, time: int)
    requires ' ' !in prefix && CommandWord(cmd)
    ensures EntryOfUntagged(":" + prefix + " " + (cmd + [' '] + b), time)
         == EntryOfCommand(prefix, cmd, TrimRight(b, IsSpace), time)
    ensures EntryOfUntagged(":" + prefix + " " + cmd, time) == EntryOfCommand(prefix, cmd, "", time)
  {
    UntaggedWord(prefix, cmd + [' '] + b, time);
    UntaggedWord(prefix, cmd, time);
    TrimAfter(cmd, b);
    LoggedBody(prefix, cmd, TrimRight(b, IsSpace), time);
  }

  function TimeOr(t: Option<int>, now: int): int {
    if t.Some? then t.value else now
  }

  lemma LoggedTagged(order: seq<(string, string)>, tags: map<string, string>, rest: string, now: int,
                     readTime: string -> Option<int>)
    requires IsOrder(order, tags) && CleanOrder(order) && order != []
    requires TrimRight(TagBlock(order) + rest, IsCRLF) == TagBlock(order) + rest
    ensures EntryOf(TagBlock(order) + rest, now, readTime)
         == EntryOfUntagged(TrimSpace(rest), TimeOr(TagTime(tags, readTime), now))
  {
    TagBlockWord(order, rest);
    TimesAgree(order, tags, readTime);
  }

  lemma TrimmedFirst(raw: string, now: int, readTime: string -> Option<int>)
    ensures EntryOf(raw, now, readTime) == EntryOf(TrimRight(raw, IsCRLF), now, readTime)
  {
    TrimRightKeeps(TrimRight(raw, IsCRLF), IsCRLF);
  }

  function Head(m: Message): string {
    ":" + m.prefix + " " + (m.command + [' '])
  }

  lemma HeadText(m: Message, b: string)
    ensures Head(m) + b == ":" + m.prefix + " " + (m.command + [' '] + b)
    ensures Head(m) + b == (":" + m.prefix + " " + m.command) + [' '] + b
  {
  }

  lemma HeadSolid(prefix: string, cmd: string)
    requires CommandWord(cmd)
    ensures Solid(":" + prefix + " " + cmd)
  {
  }

  /** With tags, the end of the line is trimmed before the prefix is cut off; that changes nothing. */
  lemma LoggedTrimmed(m: Message, b: string, time: int)
    requires ' ' !in m.prefix && CommandWord(m.command)
    ensures EntryOfUntagged(TrimSpace(Head(m) + b), time)
         == EntryOfCommand(m.prefix, m.command, TrimRight(b, IsSpace), time)
  {
    var a, b2 := ":" + m.prefix + " " + m.command, TrimRight(b, IsSpace);
    HeadText(m, b);
    HeadText(m, b2);
    HeadSolid(m.prefix, m.command);
    TrimTwice(b);
    LoggedUntagged(m.prefix, m.command, b2, time);
    HeadTrimmed(a, b, Head(m) + b, Head(m) + b2);
  }

  lemma HeadTrimmed(a: string, b: string, line: string, line2: string)
    requires Solid(a) && line == a + [' '] + b && line2 == a + [' '] + TrimRight(b, IsSpace)
    ensures TrimSpace(line) == if Shows(b) then line2 else a
  {
    TrimAfter(a, b);
  }

  lemma LoggedHead(m: Message, order: seq<(string, string)>, b: string, now: int, readTime: string -> Option<int>)
    requires IsOrder(order, m.tags) && Prefixed(m) && CommandWord(m.command)
    requires TrimRight(TagBlock(order) + (Head(m) + b), IsCRLF) == TagBlock(order) + (Head(m) + b)
    ensures EntryOf(TagBlock(order) + (Head(m) + b), now, readTime)
         == EntryOfCommand(m.prefix, m.command, TrimRight(b, IsSpace), TimeOr(TagTime(m.tags, readTime), now))
  {
    if order == [] {
      assert m.tags == map[];
      HeadUntagged(m, b, now);
      assert TagBlock(order) + (Head(m) + b) == Head(m) + b;
    } else {
      LoggedTagged(order, m.tags, Head(m) + b, now, readTime);
      LoggedTrimmed(m, b, TimeOr(TagTime(m.tags, readTime), now));
    }
  }

  lemma HeadUntagged(m: Message, b: string, time: int)
    requires ' ' !in m.prefix && CommandWord(m.command)
    ensures EntryOfUntagged(Head(m) + b, time) == EntryOfCommand(m.prefix, m.command, TrimRight(b, IsSpace), time)
    ensures !StartsWith(Head(m) + b, '@')
  {
    HeadText(m, b);
    LoggedUntagged(m.prefix, m.command, b, time);
  }

  lemma PrintHead(m: Message, order: seq<(string, string)>, b: string)
    requires m.prefix != "" && ParamsText(m.params) == " " + b
    ensures Print(order, m) == TagBlock(order) + (Head(m) + b)
  {
    assert PrefixText(m.prefix) + (m.command + (" " + b)) == Head(m) + b;
  }

  /** On any message the logger reads what is left of the parameters' text. */
  lemma LoggedLine(m: Message, order: seq<(string, string)>, b: string, now: int, readTime: string -> Option<int>)
    requires IsOrder(order, m.tags) && Prefixed(m) && CommandWord(m.command)
    requires ParamsText(m.params) == " " + b
    ensures var time := TimeOr(TagTime(m.tags, readTime), now);
            EntryOf(Print(order, m), now, readTime) == EntryOfCommand(m.prefix, m.command, TrimRight(b, IsSpace), time)
  {
    var b1 := TrimRight(b, IsCRLF);
    PrintHead(m, order, b);
    TrimFront(TagBlock(order), Head(m), b);
    TrimTwice(b);
    TrimmedFirst(TagBlock(order) + (Head(m) + b), now, readTime);
    LoggedHead(m, order, b1, now, readTime);
  }

  lemma TrimFront(block: string, head: string, b: string)
    requires head != "" && !IsCRLF(head[|head| - 1])
    ensures var b1 := TrimRight(b, IsCRLF);
            && TrimRight(block + (head + b), IsCRLF) == block + (head + b1)
            && TrimRight(block + (head + b1), IsCRLF) == block + (head + b1)
  {
    var b1 := TrimRight(b, IsCRLF);
    TrimRightConcat(block + head, b, IsCRLF);
    assert block + (head + b) == (block + head) + b;
    assert block + (head + b1) == (block + head) + b1;
    TrimRightConcat(block + head, b1, IsCRLF);
    TrimRightKeeps(b1, IsCRLF);
  }

  /** A line that is one word of tags, or one word behind a colon, leaves no entry. */
  lemma OneWordLogged(line: string, now: int, readTime: string -> Option<int>)
    requires ' ' !in line && EndsClean(line) && (StartsWith(line, '@') || StartsWith(line, ':'))
    ensures EntryOf(line, now, readTime) == None
  {
    TrimRightKeeps(line, IsCRLF);
  }

  /** Without a prefix the sender is the empty nick, and only CR and LF are cut off the end. */
  lemma LoggedUnprefixed(cmd: string, b: string, now: int, readTime: string -> Option<int>)
    requires CommandWord(cmd) && cmd[0] != '@' && cmd[0] != ':'
    ensures EntryOf(cmd + [' '] + b, now, readTime)
         == if cmd in {"PRIVMSG", "NOTICE", "JOIN", "PART", "QUIT", "KICK", "TOPIC", "MODE"}
              then EntryFor(cmd, "", TrimRight(b, IsCRLF), now)
            else None
  {
    TrimRightConcat(cmd + [' '], b, IsCRLF);
    LoggedBody("", cmd, TrimRight(b, IsCRLF), now);
    SentOnce("", "");
  }

  /** A channel message or notice, with any text. */
  predicate ChannelText(m: Message) {
    && Addressed(m) && !StartsWith(m.prefix, '*')
    && (m.command == "PRIVMSG" || m.command == "NOTICE")
    && |m.params| == 2 && IsChannel(m.params[0])
  }

  lemma WordsOfMore(word: string, rest: string)
    requires CleanTarget(word)
    ensures WordsOf(word + [' '] + rest) == [word] + WordsOf(rest)
  {
    CutAfter(word, ' ', rest);
  }

  lemma WordsOfOne(word: string)
    requires CleanTarget(word)
    ensures WordsOf(word) == [word]
  {
    assert Index(word, ' ') < 0;
  }

  lemma WordsOfTrailing(text: string)
    ensures WordsOf(":" + text) == [text]
  {
    assert (":" + text)[1..] == text;
  }

  lemma ParamsOfChannelText(m: Message)
    requires ChannelText(m)
    ensures ParamsText(m.params)
         == " " + (m.params[0] + [' '] + ((if NeedsColon(m.params[1]) then ":" else "") + m.params[1]))
  {
    var text := m.params[1];
    assert m.params[1..] == [text];
    assert ParamsText([text]) == " " + (if NeedsColon(text) then ":" else "") + text;
  }

  /** The logged parameters: the channel and the trimmed text, unless the text vanishes. */
  lemma WordsOfText(chan: string, text: string)
    requires IsChannel(chan) && CleanTarget(chan)
    ensures var b := chan + [' '] + ((if NeedsColon(text) then ":" else "") + text);
            var kept := TrimRight(text, IsSpace);
            var words := WordsOf(TrimRight(b, IsSpace));
            if kept == "" && !NeedsColon(text) then |words| == 1 else words == [chan, kept]
  {
    if NeedsColon(text) {
      WordsOfColonText(chan, text);
    } else {
      assert "" + text == text;
      WordsOfBareText(chan, text);
    }
  }

  lemma WordsOfColonText(chan: string, text: string)
    requires CleanTarget(chan)
    ensures WordsOf(TrimRight(chan + [' '] + (":" + text), IsSpace)) == [chan, TrimRight(text, IsSpace)]
  {
    var kept := TrimRight(text, IsSpace);
    ColonKept(text);
    TrimRightConcat(chan + [' '], ":" + text, IsSpace);
    WordsOfMore(chan, ":" + kept);
    WordsOfTrailing(kept);
    assert [chan] + [kept] == [chan, kept];
  }

  lemma ColonKept(text: string)
    ensures TrimRight(":" + text, IsSpace) == ":" + TrimRight(text, IsSpace)
  {
    TrimRightConcat(":", text, IsSpace);
  }

  lemma WordsOfBareText(chan: string, text: string)
    requires IsChannel(chan) && CleanTarget(chan) && !NeedsColon(text)
    ensures var kept := TrimRight(text, IsSpace);
            var words := WordsOf(TrimRight(chan + [' '] + text, IsSpace));
            if kept == "" then |words| == 1 else words == [chan, kept]
  {
    var kept := TrimRight(text, IsSpace);
    if kept != "" {
      TrimRightConcat(chan + [' '], text, IsSpace);
      WordsOfMore(chan, kept);
      WordsOfOne(kept);
      assert [chan] + [kept] == [chan, kept];
    } else {
      AllSpaceTail(chan, text);
    }
  }

  /** What the logger records of a channel message, for every text: the text without its trailing
      white space, or nothing at all when the text was printed bare and is all white space. */
  lemma LoggedText(m: Message, nick: string, order: seq<(string, string)>, now: int,
                   readTime: string -> Option<int>)
    requires IsOrder(order, m.tags) && ChannelText(m) && SentBy(m.prefix, nick)
    ensures var entry := EntryOf(Print(order, m), now, readTime);
            var kept := TrimRight(m.params[1], IsSpace);
            entry == if kept == "" && !NeedsColon(m.params[1]) then None
                     else Some(Entry(m.params[0], nick, m.command, kept, TimeOr(TagTime(m.tags, readTime), now)))
  {
    var chan, text := m.params[0], m.params[1];
    SenderIs(m.prefix, nick);
    RoutedWord(m.command);
    ParamsOfChannelText(m);
    WordsOfText(chan, text);
    LoggedLine(m, order, chan + [' '] + ((if NeedsColon(text) then ":" else "") + text), now, readTime);
  }

  lemma AllSpaceTail(chan: string, text: string)
    requires IsChannel(chan) && CleanTarget(chan) && TrimRight(text, IsSpace) == ""
    ensures |WordsOf(TrimRight((chan + [' ']) + text, IsSpace))| == 1
  {
    DropAll(chan + [' '], text);
    assert (chan + [' '])[..|chan|] == chan;
    FirstKept(chan);
    var kept := TrimRight(chan, IsSpace);
    assert TrimRight((chan + [' ']) + text, IsSpace) == kept;
    WordsOfOne(kept);
  }

  lemma {:induction false} DropAll(a: string, b: string)
    requires TrimRight(b, IsSpace) == ""
    ensures TrimRight(a + b, IsSpace) == TrimRight(a, IsSpace)
    decreases |b|
  {
    if b == "" {
      assert a + b == a;
    } else {
      assert (a + b)[..|a + b| - 1] == a + b[..|b| - 1];
      DropAll(a, b[..|b| - 1]);
    }
  }

  predicate NoTrailingSpace(text: string) {
    text == "" || !IsSpace(text[|text| - 1])
  }

  lemma LoggedTextKept(m: Message, nick: string, order: seq<(string, string)>, now: int,
                       readTime: string -> Option<int>)
    requires IsOrder(order, m.tags) && ChannelText(m) && SentBy(m.prefix, nick)
    ensures var entry := Entry(m.params[0], nick, m.command, m.params[1], TimeOr(TagTime(m.tags, readTime), now));
            EntryOf(Print(order, m), now, readTime) == Some(entry) <==> NoTrailingSpace(m.params[1])
  {
    var text := m.params[1];
    LoggedText(m, nick, order, now, readTime);
    if NoTrailingSpace(text) {
      TrimRightKeeps(text, IsSpace);
    } else {
      assert TrimRight(text, IsSpace) != text;
    }
  }
}
