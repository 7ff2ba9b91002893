/** What `buffer` does to a line before it is pushed: the time stamp, and the classification that
    decides whether the line is ever replayed. */
module Stamping {
  import opened Options
  import opened GoStrings
  import opened TagEscape
  import opened Ircv3
  import opened MessageRoundTrip
  import opened LineRouting
  import opened RoutingAgreement
  import Handoff

  /** strings.Contains */
  predicate Contains(s: string, part: string) {
    exists i :: 0 <= i <= |s| && At(s, part, i)
  }

  predicate At(s: string, part: string, i: nat) {
    i + |part| <= |s| && s[i..i + |part|] == part
  }

  const TimeMark := "time="

  /** The test by which `buffer` decides that a line needs no stamp: the mark may stand anywhere in
      the first word. */
  predicate HasTime(line: string) {
    StartsWith(line, '@') && Contains(SplitN(line + " ", ' ', 2)[0], TimeMark)
  }

  /** `ts` is the printed receive time. */
  function Stamp(line: string, ts: string): string {
    if HasTime(line) then line
    else if StartsWith(line, '@') then "@" + ((TimeMark + ts) + ";" + line[1..])
    else "@" + (TimeMark + ts) + " " + line
  }

  predicate IsMembershipCommand(cmd: string) {
    cmd in {"JOIN", "PART", "QUIT", "KICK", "MODE"}
  }

  predicate IsMembershipBare(line: string) {
    var parts := SplitN(line, ' ', 4);
    var idx := if StartsWith(parts[0], ':') then 1 else 0;
    idx < |parts| && IsMembershipCommand(ToUpper(parts[idx]))
  }

  predicate IsMembershipReplayLine(line: string) {
    if StartsWith(line, '@') then
      var sp := Index(line, ' ');
      sp >= 0 && IsMembershipBare(line[sp + 1..])
    else IsMembershipBare(line)
  }

  /** A receive time as it is printed, and read back. */
  predicate ClockText(ts: string, readTime: string -> Option<int>) {
    (forall c :: c in ts ==> c in "0123456789-:.TZ+") && readTime(ts).Some?
  }

  lemma ClockClean(ts: string, readTime: string -> Option<int>)
    requires ClockText(ts, readTime)
    ensures ' ' !in ts && ';' !in ts && '\\' !in ts
  {
    assert ' ' !in "0123456789-:.TZ+" && ';' !in "0123456789-:.TZ+" && '\\' !in "0123456789-:.TZ+";
  }

  // ---- Stamping -----------------------------------------------------------------------------------

  /** What is read from a line whose tag block is `block`. */
  lemma TaggedReading(block: string, rest: string, readTime: string -> Option<int>)
    requires ' ' !in block
    ensures var line := "@" + block + " " + rest;
            && ParseTimeTag(line, readTime) == FirstTime(Split(block, ';'), readTime)
            && (IsMembershipReplayLine(line) <==> IsMembershipBare(rest))
  {
    WordAfterAt(block, rest);
  }

  lemma Regrouped(mark: string, tags: string, rest: string)
    ensures "@" + (mark + ";" + (tags + " " + rest)) == "@" + (mark + ";" + tags) + " " + rest
  {
  }

  lemma FirstWord(line: string)
    requires StartsWith(line, '@') && ' ' in line
    ensures var sp := Index(line, ' ');
            sp > 0 && ' ' !in line[1..sp] && line[1..] == line[1..sp] + " " + line[sp + 1..]
            && line == "@" + line[1..sp] + " " + line[sp + 1..]
  {
  }

  lemma SplitMark(mark: string, tags: string)
    requires ';' !in mark
    ensures Split(mark + ";" + tags, ';') == [mark] + Split(tags, ';') && Split(mark, ';') == [mark]
  {
    CutAfter(mark, ';', tags);
    assert mark + ";" + tags == mark + [';'] + tags;
  }

  lemma MarkRead(ts: string, tags: seq<string>, readTime: string -> Option<int>)
    requires readTime(ts).Some?
    ensures FirstTime([TimeMark + ts] + tags, readTime) == readTime(ts)
  {
    assert (TimeMark + ts)[5..] == ts && IsTimeTag(TimeMark + ts);
  }

  /** A line that gets a stamp: the time it then carries, and that its membership stays as it was. */
  lemma Stamped(line: string, ts: string, readTime: string -> Option<int>)
    requires ClockText(ts, readTime) && !HasTime(line) && (StartsWith(line, '@') ==> ' ' in line)
    ensures ParseTimeTag(Stamp(line, ts), readTime) == readTime(ts)
    ensures IsMembershipReplayLine(Stamp(line, ts)) <==> IsMembershipReplayLine(line)
  {
    var mark := TimeMark + ts;
    ClockClean(ts, readTime);
    if StartsWith(line, '@') {
      StampedTags(line, ts, readTime);
    } else {
      TaggedReading(mark, line, readTime);
      SplitMark(mark, "");
      MarkRead(ts, [], readTime);
      assert [mark] + [] == [mark];
    }
  }

  lemma MarkedBlock(ts: string, tags: string, readTime: string -> Option<int>)
    requires ClockText(ts, readTime) && ' ' !in tags
    ensures var block := (TimeMark + ts) + ";" + tags;
            ' ' !in block && FirstTime(Split(block, ';'), readTime) == readTime(ts)
  {
    ClockClean(ts, readTime);
    SplitMark(TimeMark + ts, tags);
    MarkRead(ts, Split(tags, ';'), readTime);
  }

  lemma StampedTags(line: string, ts: string, readTime: string -> Option<int>)
    requires ClockText(ts, readTime) && StartsWith(line, '@') && ' ' in line
    ensures var stamped := "@" + ((TimeMark + ts) + ";" + line[1..]);
            && ParseTimeTag(stamped, readTime) == readTime(ts)
            && (IsMembershipReplayLine(stamped) <==> IsMembershipReplayLine(line))
  {
    FirstWord(line);
    var sp := Index(line, ' ');
    var tags, rest := line[1..sp], line[sp + 1..];
    var block := (TimeMark + ts) + ";" + tags;
    Regrouped(TimeMark + ts, tags, rest);
    MarkedBlock(ts, tags, readTime);
    TaggedReading(tags, rest, readTime);
    TaggedReading(block, rest, readTime);
  }

  /** A tag block that never ends. */
  lemma NoSpace(line: string, ts: string, readTime: string -> Option<int>)
    requires StartsWith(line, '@') && ' ' !in line && ClockText(ts, readTime)
    ensures ParseTimeTag(Stamp(line, ts), readTime) == None == ParseTimeTag(line, readTime)
    ensures !IsMembershipReplayLine(Stamp(line, ts)) && !IsMembershipReplayLine(line)
  {
    ClockClean(ts, readTime);
    assert ' ' !in TimeMark;
    assert ' ' !in Stamp(line, ts);
  }

  /** The time a buffered line carries: the receive time if the line was stamped, and otherwise only
      what its own tags say. */
  lemma StampTime(line: string, ts: string, readTime: string -> Option<int>)
    requires ClockText(ts, readTime)
    ensures ParseTimeTag(Stamp(line, ts), readTime)
         == if HasTime(line) || (StartsWith(line, '@') && ' ' !in line) then ParseTimeTag(line, readTime)
            else readTime(ts)
  {
    if HasTime(line) {
    } else if StartsWith(line, '@') && ' ' !in line {
      NoSpace(line, ts, readTime);
    } else {
      Stamped(line, ts, readTime);
    }
  }

  /** Stamping does not change whether a line is a membership event. */
  lemma StampKeepsMembership(line: string, ts: string, readTime: string -> Option<int>)
    requires ClockText(ts, readTime)
    ensures IsMembershipReplayLine(Stamp(line, ts)) <==> IsMembershipReplayLine(line)
  {
    if HasTime(line) {
    } else if StartsWith(line, '@') && ' ' !in line {
      NoSpace(line, ts, readTime);
    } else {
      Stamped(line, ts, readTime);
    }
  }

  // ---- What a stamped line says --------------------------------------------------------------------

  lemma {:induction false} UnescapePlain(s: string)
    requires '\\' !in s
    ensures Unescape(s) == s
  {
    if s != "" {
      UnescapePlain(s[1..]);
    }
  }

  lemma AddTagMerged(before: map<string, string>, tags: map<string, string>, tag: string)
    ensures AddTag(before + tags, tag) == before + AddTag(tags, tag)
  {
  }

  lemma {:induction false} TagsOfFront(tag: string, parts: seq<string>)
    ensures TagsOf([tag] + parts) == AddTag(map[], tag) + TagsOf(parts)
  {
    var n := |parts| - 1;
    if parts == [] {
      assert [tag] + parts == [tag] && [tag][..0] == [];
    } else {
      assert ([tag] + parts)[..|parts|] == [tag] + parts[..n];
      TagsOfFront(tag, parts[..n]);
      AddTagMerged(AddTag(map[], tag), TagsOf(parts[..n]), parts[n]);
    }
  }

  lemma MarkTag(ts: string)
    requires '\\' !in ts
    ensures AddTag(map[], TimeMark + ts) == map["time" := ts]
  {
    var text := "time" + ['='] + ts;
    CutAfter("time", '=', ts);
    assert TimeMark + ts == text;
    UnescapePlain(ts);
  }

  lemma UntaggedWith(tags: map<string, string>, other: map<string, string>, s: string)
    ensures UntaggedOf(tags, s) == UntaggedOf(other, s).(tags := tags)
  {
  }

  /** A message with the time tag put in front: a time tag of its own, as it comes later, wins. */
  function Timed(m: Message, ts: string): Message {
    m.(tags := map["time" := ts] + m.tags)
  }

  lemma TimedTagged(ts: string, tags: string, rest: string)
    requires ' ' !in ts && ';' !in ts && '\\' !in ts && ' ' !in tags
    ensures LineOf("@" + ((TimeMark + ts) + ";" + tags) + " " + rest) == Timed(LineOf("@" + tags + " " + rest), ts)
  {
    var block := (TimeMark + ts) + ";" + tags;
    SplitMark(TimeMark + ts, tags);
    assert ' ' !in block;
    LineOfTags(block, rest);
    LineOfTags(tags, rest);
    TagsOfFront(TimeMark + ts, Split(tags, ';'));
    MarkTag(ts);
    UntaggedWith(TagsOf(Split(block, ';')), TagsOf(Split(tags, ';')), rest);
  }

  lemma TimedUntagged(ts: string, line: string)
    requires ' ' !in ts && ';' !in ts && '\\' !in ts && !StartsWith(line, '@')
    ensures LineOf("@" + (TimeMark + ts) + " " + line) == Timed(LineOf(line), ts)
  {
    SplitMark(TimeMark + ts, "");
    assert ' ' !in TimeMark + ts;
    LineOfTags(TimeMark + ts, line);
    MarkTag(ts);
    TagsOfFront(TimeMark + ts, []);
    assert [TimeMark + ts] + [] == [TimeMark + ts];
    UntaggedWith(map["time" := ts], map[], line);
  }

  /** Trimming the end of a line does not reach its tag block. */
  lemma TrimmedTags(line: string, ts: string)
    requires StartsWith(line, '@') && ' ' in line
    ensures var kept := TrimRight(line, IsCRLF);
            && StartsWith(kept, '@') && ' ' in kept
            && TrimRight("@" + ((TimeMark + ts) + ";" + line[1..]), IsCRLF)
               == "@" + ((TimeMark + ts) + ";" + kept[1..])
  {
    var rest := line[1..];
    var kept := TrimRight(rest, IsCRLF);
    assert line == "@" + rest;
    SpaceStays(rest);
    TrimRightConcat("@", rest, IsCRLF);
    TrimmedBehind("@" + ((TimeMark + ts) + ";"), TimeMark + ts, rest, kept);
  }

  lemma TrimmedBehind(head: string, mark: string, rest: string, kept: string)
    requires head == "@" + (mark + ";") && kept == TrimRight(rest, IsCRLF) && kept != ""
    ensures TrimRight("@" + (mark + ";" + rest), IsCRLF) == "@" + (mark + ";" + kept)
  {
    TrimRightConcat(head, rest, IsCRLF);
    assert head + rest == "@" + (mark + ";" + rest);
    assert head + kept == "@" + (mark + ";" + kept);
  }

  lemma SpaceStays(rest: string)
    requires ' ' in rest
    ensures ' ' in TrimRight(rest, IsCRLF)
  {
    var i :| 0 <= i < |rest| && rest[i] == ' ';
    assert i < |TrimRight(rest, IsCRLF)|;
  }

  /** What the parser makes of a buffered line: the message of the line itself, with the receive time in
      front of its tags if the line was stamped. Nothing else is added or lost. */
  lemma StampParsed(line: string, ts: string, readTime: string -> Option<int>)
    requires ClockText(ts, readTime)
    ensures MessageOf(Stamp(line, ts))
         == if HasTime(line) || (StartsWith(line, '@') && ' ' !in line) then MessageOf(line)
            else Timed(MessageOf(line), ts)
  {
    ClockClean(ts, readTime);
    if HasTime(line) {
    } else if StartsWith(line, '@') && ' ' !in line {
      EmptyTagLine(line);
      EmptyTagLine(Stamp(line, ts));
    } else if StartsWith(line, '@') {
      TaggedParsed(line, ts);
    } else {
      UntaggedParsed(line, ts);
    }
  }

  lemma TaggedParsed(line: string, ts: string)
    requires ' ' !in ts && ';' !in ts && '\\' !in ts && StartsWith(line, '@') && ' ' in line
    ensures MessageOf("@" + ((TimeMark + ts) + ";" + line[1..])) == Timed(MessageOf(line), ts)
  {
    TrimmedTags(line, ts);
    ParsedStampTagged(TrimRight(line, IsCRLF), ts);
  }

  lemma UntaggedParsed(line: string, ts: string)
    requires ' ' !in ts && ';' !in ts && '\\' !in ts && !StartsWith(line, '@')
    ensures MessageOf("@" + (TimeMark + ts) + " " + line) == Timed(MessageOf(line), ts)
  {
    TrimRightConcat("@" + (TimeMark + ts) + " ", line, IsCRLF);
    TimedUntagged(ts, TrimRight(line, IsCRLF));
  }

  lemma ParsedStampTagged(kept: string, ts: string)
    requires ' ' !in ts && ';' !in ts && '\\' !in ts && StartsWith(kept, '@') && ' ' in kept
    ensures LineOf("@" + ((TimeMark + ts) + ";" + kept[1..])) == Timed(LineOf(kept), ts)
  {
    FirstWord(kept);
    var sp := Index(kept, ' ');
    Regrouped(TimeMark + ts, kept[1..sp], kept[sp + 1..]);
    TimedTagged(ts, kept[1..sp], kept[sp + 1..]);
  }

  /** A line that is one word of tags parses to nothing. */
  lemma EmptyTagLine(line: string)
    requires StartsWith(line, '@') && ' ' !in line
    ensures MessageOf(line) == Message(map[], "", "", [])
  {
    var kept := TrimRight(line, IsCRLF);
    assert kept <= line && ' ' !in kept;
  }

  /** The routing key of a buffered line is that of the line, which loses leading spaces if it had no tags. */
  lemma StampRouted(line: string, ts: string, readTime: string -> Option<int>)
    requires ClockText(ts, readTime)
    ensures ChannelFromLine(Stamp(line, ts))
         == if StartsWith(line, '@') then ChannelFromLine(line) else ChannelOfBare(TrimLeft(line, IsBlank))
    ensures !StartsWith(line, ' ') ==> ChannelFromLine(Stamp(line, ts)) == ChannelFromLine(line)
  {
    ClockClean(ts, readTime);
    if HasTime(line) {
    } else if StartsWith(line, '@') && ' ' !in line {
      RoutedOneWord(line);
      RoutedOneWord(Stamp(line, ts));
    } else if StartsWith(line, '@') {
      RoutedTagged(line, TimeMark + ts);
    } else {
      RoutedBehind(TimeMark + ts, line);
      if !StartsWith(line, ' ') {
        UntaggedKey(line);
      }
    }
  }

  lemma RoutedOneWord(line: string)
    requires StartsWith(line, '@') && ' ' !in line
    ensures ChannelFromLine(line) == ""
  {
  }

  lemma UntaggedKey(line: string)
    requires !StartsWith(line, '@') && !StartsWith(line, ' ')
    ensures ChannelOfBare(TrimLeft(line, IsBlank)) == ChannelFromLine(line)
  {
    TrimLeftIs(line, IsBlank, 0);
  }

  /** Behind tags the routing key is read from what follows them. */
  lemma RoutedBehind(block: string, rest: string)
    requires ' ' !in block
    ensures ChannelFromLine("@" + block + " " + rest) == ChannelOfBare(TrimLeft(rest, IsBlank))
  {
    WordAfterAt(block, rest);
  }

  lemma RoutedTagged(line: string, mark: string)
    requires ' ' !in mark && StartsWith(line, '@') && ' ' in line
    ensures ChannelFromLine("@" + (mark + ";" + line[1..])) == ChannelFromLine(line)
  {
    FirstWord(line);
    var sp := Index(line, ' ');
    var tags, rest := line[1..sp], line[sp + 1..];
    Regrouped(mark, tags, rest);
    RoutedBehind(mark + ";" + tags, rest);
    RoutedBehind(tags, rest);
  }

  // ---- Which messages are replayed ------------------------------------------------------------------

  lemma Found(s: string, part: string, i: nat)
    requires At(s, part, i)
    ensures Contains(s, part)
  {
  }

  /** A mark without the separator is found in one of the two sides or nowhere. */
  lemma ContainsConcat(a: string, c: char, b: string, part: string)
    requires part != "" && c !in part
    ensures Contains(a + [c] + b, part) <==> Contains(a, part) || Contains(b, part)
  {
    var s := a + [c] + b;
    if Contains(s, part) {
      var i :| 0 <= i <= |s| && At(s, part, i);
      Side(a, c, b, part, i);
    }
    if Contains(a, part) {
      var i :| 0 <= i <= |a| && At(a, part, i);
      AtSide(a, c, b, part, i);
      Found(s, part, i);
    }
    if Contains(b, part) {
      var i :| 0 <= i <= |b| && At(b, part, i);
      AtSide(a, c, b, part, i);
      Found(s, part, |a| + 1 + i);
    }
  }

  lemma AtSide(a: string, c: char, b: string, part: string, i: nat)
    ensures At(a, part, i) ==> At(a + [c] + b, part, i)
    ensures At(b, part, i) ==> At(a + [c] + b, part, |a| + 1 + i)
  {
    var s := a + [c] + b;
    if At(a, part, i) {
      assert s[i..i + |part|] == a[i..i + |part|];
    }
    if At(b, part, i) {
      assert s[|a| + 1 + i..|a| + 1 + i + |part|] == b[i..i + |part|];
    }
  }

  lemma AtInside(s: string, part: string, i: nat)
    requires At(s, part, i)
    ensures forall j :: i <= j < i + |part| ==> s[j] in part
  {
    forall j | i <= j < i + |part|
      ensures s[j] in part
    {
      assert part[j - i] == s[j];
    }
  }

  lemma Side(a: string, c: char, b: string, part: string, i: nat)
    requires part != "" && c !in part && At(a + [c] + b, part, i)
    ensures Contains(a, part) || Contains(b, part)
  {
    var s := a + [c] + b;
    AtInside(s, part, i);
    assert s[|a|] == c;
    if i + |part| <= |a| {
      assert a[i..i + |part|] == s[i..i + |part|];
      Found(a, part, i);
    } else if i > |a| {
      assert b[i - |a| - 1..i - |a| - 1 + |part|] == s[i..i + |part|];
      Found(b, part, i - |a| - 1);
    }
  }

  lemma {:induction false} ContainsJoin(parts: seq<string>, c: char, part: string)
    requires parts != [] && part != "" && c !in part
    ensures Contains(Join(parts, c), part) <==> exists i :: 0 <= i < |parts| && Contains(parts[i], part)
  {
    if |parts| > 1 {
      ContainsConcat(parts[0], c, Join(parts[1..], c), part);
      ContainsJoin(parts[1..], c, part);
      assert parts == [parts[0]] + parts[1..];
    } else {
      assert Contains(parts[0], part) <==> exists i :: 0 <= i < |parts| && Contains(parts[i], part);
    }
  }

  /** Some tag, as it is printed, has the mark in it. */
  predicate Marked(tags: map<string, string>) {
    exists k :: k in tags && Contains(TagText((k, tags[k])), TimeMark)
  }

  lemma MarkedInOrder(order: seq<(string, string)>, tags: map<string, string>)
    requires IsOrder(order, tags)
    ensures Marked(tags) <==> exists i :: 0 <= i < |order| && Contains(TagText(order[i]), TimeMark)
  {
    if Marked(tags) {
      var k :| k in tags && Contains(TagText((k, tags[k])), TimeMark);
      var i :| 0 <= i < |order| && order[i] == (k, tags[k]);
      assert Contains(TagText(order[i]), TimeMark);
    }
    forall i | 0 <= i < |order| && Contains(TagText(order[i]), TimeMark)
      ensures Marked(tags)
    {
      assert order[i] == (order[i].0, tags[order[i].0]);
    }
  }

  lemma FirstWordOf(block: string, rest: string)
    requires ' ' !in block
    ensures HasTime("@" + block + " " + rest) <==> Contains(block, TimeMark)
  {
    var line := "@" + block + " " + rest;
    assert line + " " == ("@" + block) + [' '] + (rest + " ");
    SplitNFirst("@" + block, ' ', rest + " ", 2);
    assert "@" + block == "" + ['@'] + block;
    ContainsConcat("", '@', block, TimeMark);
  }

  /** The tag block of a printed message: one word, with the mark in it when a tag has it. */
  lemma BlockOfPrinted(order: seq<(string, string)>, tags: map<string, string>)
    requires IsOrder(order, tags) && CleanOrder(order) && order != []
    ensures var block := Join(TagTexts(order), ';');
            ' ' !in block && (Contains(block, TimeMark) <==> Marked(tags))
  {
    var texts := TagTexts(order);
    BlockClean(order);
    ContainsJoin(texts, ';', TimeMark);
    MarkedInOrder(order, tags);
  }

  /** A printed message is left unstamped exactly when some tag has the mark in it. */
  lemma HasTimeOfPrinted(order: seq<(string, string)>, tags: map<string, string>, rest: string)
    requires IsOrder(order, tags) && CleanOrder(order)
    ensures HasTime(TagBlock(order) + rest) <==> Marked(tags) || (order == [] && HasTime(rest))
  {
    if order == [] {
      MarkedInOrder(order, tags);
      assert TagBlock(order) + rest == rest;
    } else {
      BlockOfPrinted(order, tags);
      FirstWordOf(Join(TagTexts(order), ';'), rest);
    }
  }

  /** The time and the membership of a printed message. */
  lemma PrintedReading(order: seq<(string, string)>, m: Message, readTime: string -> Option<int>)
    requires IsOrder(order, m.tags) && Prefixed(m) && CommandWord(m.command)
    ensures ParseTimeTag(Print(order, m), readTime) == TagTime(m.tags, readTime)
    ensures IsMembershipReplayLine(Print(order, m))
            <==> m.command in {"JOIN", "PART", "QUIT", "KICK", "MODE"}
    ensures !StartsWith(Print(order, m), '@') || ' ' in Print(order, m)
  {
    var rest := PrefixText(m.prefix) + (m.command + ParamsText(m.params));
    PrefixedBare(m);
    if order == [] {
      assert Print(order, m) == rest;
    } else {
      TagBlockWord(order, rest);
      TimesAgree(order, m.tags, readTime);
    }
  }

  lemma PrefixedBare(m: Message)
    requires Prefixed(m) && CommandWord(m.command)
    ensures IsMembershipBare(PrefixText(m.prefix) + (m.command + ParamsText(m.params)))
            <==> IsMembershipCommand(m.command)
  {
    TextFollows(m.params);
    SecondWord(":" + m.prefix, m.command, ParamsText(m.params), 4);
    assert PrefixText(m.prefix) + (m.command + ParamsText(m.params))
           == (":" + m.prefix) + [' '] + (m.command + ParamsText(m.params));
  }

  lemma TextFollows(params: seq<string>)
    ensures ParamsText(params) == "" || ParamsText(params)[0] == ' '
  {
  }

  lemma SecondWord(first: string, cmd: string, tail: string, n: nat)
    requires ' ' !in first && ' ' !in cmd && (tail == "" || tail[0] == ' ') && n > 2
    ensures var parts := SplitN(first + [' '] + (cmd + tail), ' ', n);
            |parts| > 1 && parts[0] == first && parts[1] == cmd
  {
    SplitNFirst(first, ' ', cmd + tail, n);
    SplitWord(cmd, tail, n - 1);
  }

  /** So on a printed message: what is replayed parses to the message that was received, with the receive
      time in front of its tags unless one of them, as printed, has "time=" in it. */
  lemma StampedMessage(m: Message, order: seq<(string, string)>, ts: string, readTime: string -> Option<int>)
    requires IsOrder(order, m.tags) && Prefixed(m) && CommandWord(m.command) && ClockText(ts, readTime)
    ensures var line := Print(order, m);
            && MessageOf(Stamp(line, ts)) == (if Marked(m.tags) then MessageOf(line) else Timed(MessageOf(line), ts))
            && ChannelFromLine(Stamp(line, ts)) == ChannelFromLine(line)
  {
    var line := Print(order, m);
    PrintedReading(order, m, readTime);
    PrintedStart(order, m);
    HasTimeOfPrinted(order, m.tags, PrefixText(m.prefix) + (m.command + ParamsText(m.params)));
    StampParsed(line, ts, readTime);
    StampRouted(line, ts, readTime);
  }

  /** A message with a prefix starts with its tags or with the colon of the prefix. */
  lemma PrintedStart(order: seq<(string, string)>, m: Message)
    requires Prefixed(m)
    ensures !StartsWith(Print(order, m), ' ')
    ensures !StartsWith(PrefixText(m.prefix) + (m.command + ParamsText(m.params)), '@')
    ensures order == [] ==> !StartsWith(Print(order, m), '@')
  {
  }

  /** The line that the hand-off counts, as the bouncer classifies it. */
  function Classified(id: nat, line: string, ts: string, readTime: string -> Option<int>): Handoff.Line {
    var stamped := Stamp(line, ts);
    Handoff.Line(id, ChannelFromLine(line), ParseTimeTag(stamped, readTime).Some?, IsMembershipReplayLine(stamped))
  }

  /** A message of one of the seven commands that the bouncer files under a channel. */
  predicate ToChannel(m: Message) {
    Addressed(m) && Routed(m.command) && IsChannel(m.params[0])
  }

  /** Such a message is kept under its channel, and is replayed exactly when it is no membership event and
      its own time tag is readable or none of its tags, as printed, has "time=" in it. */
  lemma MessageReplayable(id: nat, m: Message, order: seq<(string, string)>, ts: string,
                          readTime: string -> Option<int>)
    requires IsOrder(order, m.tags) && ToChannel(m) && ClockText(ts, readTime)
    ensures var line := Classified(id, Print(order, m), ts, readTime);
            && Handoff.Key(line) == m.params[0]
            && (Handoff.Replayable(line) <==>
                  && m.command !in {"JOIN", "PART", "KICK", "MODE"}
                  && (TagTime(m.tags, readTime).Some? || !Marked(m.tags)))
  {
    var line := Print(order, m);
    RoutedWord(m.command);
    RoutingKey(m, order);
    PrintedReading(order, m, readTime);
    StampTime(line, ts, readTime);
    StampKeepsMembership(line, ts, readTime);
    HasTimeOfPrinted(order, m.tags, PrefixText(m.prefix) + (m.command + ParamsText(m.params)));
  }

  lemma LifetimeMarked()
    ensures Marked(map["lifetime" := "1"])
  {
    var tags := map["lifetime" := "1"];
    assert "lifetime" in tags;
    PassesAreOneMap("1");
    var text := TagText(("lifetime", tags["lifetime"]));
    assert text == "lifetime" + ("=" + "1");
    assert text[4..9] == TimeMark;
    Found(text, TimeMark, 4);
  }

  /** A tag whose key only ends in "time" keeps its message from being stamped, and so from every replay. */
  lemma NeverStamped(id: nat, m: Message, ts: string, readTime: string -> Option<int>)
    requires ClockText(ts, readTime) && ToChannel(m.(tags := map[])) && m.tags == map["lifetime" := "1"]
    ensures IsOrder([("lifetime", "1")], m.tags)
    ensures !Handoff.Replayable(Classified(id, Print([("lifetime", "1")], m), ts, readTime))
  {
    LifetimeMarked();
    var order := [("lifetime", "1")];
    assert IsOrder(order, m.tags);
    MessageReplayable(id, m, order, ts, readTime);
  }
}
