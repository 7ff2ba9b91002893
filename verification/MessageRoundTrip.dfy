/** Parse undoes Format, and Format after Parse is a normal form. */
module MessageRoundTrip {
  import opened GoStrings
  import opened TagEscape
  import opened Ircv3

  predicate CleanKey(k: string) {
    '=' !in k && ';' !in k && ' ' !in k
  }

  /** A tag whose printed text is not empty. */
  predicate Visible(tag: (string, string)) {
    tag.0 != "" || tag.1 != ""
  }

  predicate CleanTags(tags: map<string, string>) {
    forall k :: k in tags ==> CleanKey(k) && Visible((k, tags[k]))
  }

  predicate CleanParams(params: seq<string>) {
    forall i :: 0 <= i < |params| - 1 ==> ' ' !in params[i] && !StartsWith(params[i], ':')
  }

  /** The command cannot be taken for a tag block or a prefix. */
  predicate CommandStandsAlone(m: Message) {
    m.prefix == "" ==> !StartsWith(m.command, ':') && (m.tags == map[] ==> !StartsWith(m.command, '@'))
  }

  predicate EndsClean(s: string) {
    s == "" || !IsCRLF(s[|s| - 1])
  }

  predicate WellFormed(m: Message) {
    && CleanTags(m.tags)
    && ' ' !in m.prefix
    && ToUpper(m.command) == m.command && ' ' !in m.command && CommandStandsAlone(m)
    && CleanParams(m.params)
    && EndsClean(if m.params == [] then m.command else m.params[|m.params| - 1])
  }

  // ---- Parse(Format(m)) == m ------------------------------------------------------------------

  lemma ParamsOfMiddle(p: string, rest: string)
    requires ' ' !in p && !StartsWith(p, ':')
    ensures ParamsOf(p + [' '] + rest) == [p] + ParamsOf(rest)
  {
    CutAfter(p, ' ', rest);
    var s := p + [' '] + rest;
    assert s[0] == if p == "" then ' ' else p[0];
  }

  lemma ParamsOfLast(p: string)
    ensures ParamsOf((if NeedsColon(p) then ":" else "") + p) == [p]
  {
    if NeedsColon(p) {
      assert (":" + p)[1..] == p;
    } else {
      assert "" + p == p;
    }
  }

  lemma {:induction false} ParamsRoundTrip(params: seq<string>)
    requires params != [] && CleanParams(params)
    ensures StartsWith(ParamsText(params), ' ')
    ensures ParamsOf(ParamsText(params)[1..]) == params
  {
    if |params| == 1 {
      ParamsOfLast(params[0]);
      TextOfOne(params[0]);
      assert params == [params[0]];
    } else {
      var rest := params[1..];
      assert CleanParams(rest) by {
        assert forall i :: 0 <= i < |rest| - 1 ==> rest[i] == params[i + 1];
      }
      ParamsRoundTrip(rest);
      ParamsOfMiddle(params[0], ParamsText(rest)[1..]);
      TextOfMore(params);
      assert params == [params[0]] + rest;
    }
  }

  lemma TextOfOne(p: string)
    ensures ParamsText([p]) != "" && ParamsText([p])[0] == ' '
    ensures ParamsText([p])[1..] == (if NeedsColon(p) then ":" else "") + p
  {
  }

  lemma TextOfMore(params: seq<string>)
    requires |params| > 1 && StartsWith(ParamsText(params[1..]), ' ')
    ensures ParamsText(params) != "" && ParamsText(params)[0] == ' '
    ensures ParamsText(params)[1..] == params[0] + [' '] + ParamsText(params[1..])[1..]
  {
    DropSpace(params[0], ParamsText(params[1..]));
  }

  lemma DropSpace(p: string, rest: string)
    requires StartsWith(rest, ' ')
    ensures " " + p + rest != "" && (" " + p + rest)[0] == ' '
    ensures (" " + p + rest)[1..] == p + [' '] + rest[1..]
  {
    assert rest == [' '] + rest[1..];
  }

  lemma BodyOfSpace(tags: map<string, string>, prefix: string, command: string, rest: string)
    requires ' ' !in command
    ensures BodyOf(tags, prefix, command + [' '] + rest) == Message(tags, prefix, ToUpper(command), ParamsOf(rest))
  {
    CutAfter(command, ' ', rest);
  }

  lemma BodyRoundTrip(tags: map<string, string>, m: Message)
    requires ToUpper(m.command) == m.command && ' ' !in m.command && CleanParams(m.params)
    ensures BodyOf(tags, m.prefix, m.command + ParamsText(m.params)) == m.(tags := tags)
  {
    var text := ParamsText(m.params);
    if m.params == [] {
      assert m.command + text == m.command;
    } else {
      ParamsRoundTrip(m.params);
      assert m.command + text == m.command + [' '] + text[1..];
      BodyOfSpace(tags, m.prefix, m.command, text[1..]);
    }
  }

  lemma UntaggedOfPrefix(tags: map<string, string>, prefix: string, rest: string)
    requires ' ' !in prefix
    ensures UntaggedOf(tags, ":" + prefix + " " + rest) == BodyOf(tags, prefix, rest)
  {
    CutAfter(prefix, ' ', rest);
    assert (":" + prefix + " " + rest)[1..] == prefix + [' '] + rest;
  }

  /** The text from the command on, which starts with a colon only if the command does. */
  lemma BodyHead(m: Message, c: char)
    requires c != ' ' && CleanParams(m.params)
    ensures StartsWith(m.command + ParamsText(m.params), c) <==> StartsWith(m.command, c)
  {
    if m.command == "" {
      assert m.command + ParamsText(m.params) == ParamsText(m.params);
      if m.params != [] { ParamsRoundTrip(m.params); }
    }
  }

  lemma UntaggedRoundTrip(tags: map<string, string>, m: Message)
    requires ToUpper(m.command) == m.command && ' ' !in m.command && CleanParams(m.params)
    requires ' ' !in m.prefix && (m.prefix == "" ==> !StartsWith(m.command, ':'))
    ensures UntaggedOf(tags, PrefixText(m.prefix) + (m.command + ParamsText(m.params))) == m.(tags := tags)
  {
    var body := m.command + ParamsText(m.params);
    BodyRoundTrip(tags, m);
    if m.prefix == "" {
      BodyHead(m, ':');
      assert "" + body == body;
    } else {
      UntaggedOfPrefix(tags, m.prefix, body);
    }
  }

  function MapOf(order: seq<(string, string)>): map<string, string> {
    if order == [] then map[] else MapOf(order[..|order| - 1])[order[|order| - 1].0 := order[|order| - 1].1]
  }

  lemma {:induction false} MapOfOrder(order: seq<(string, string)>)
    requires forall i, j :: 0 <= i < j < |order| ==> order[i].0 != order[j].0
    ensures forall i :: 0 <= i < |order| ==> order[i].0 in MapOf(order) && MapOf(order)[order[i].0] == order[i].1
    ensures forall k :: k in MapOf(order) ==> exists i :: 0 <= i < |order| && order[i].0 == k
  {
    if order != [] {
      var n := |order| - 1;
      MapOfOrder(order[..n]);
      forall k | k in MapOf(order)
        ensures exists i :: 0 <= i < |order| && order[i].0 == k
      {
        if k == order[n].0 {
        } else {
          var i :| 0 <= i < n && order[..n][i].0 == k;
          assert order[i].0 == k;
        }
      }
      forall i | 0 <= i < |order|
        ensures order[i].0 in MapOf(order) && MapOf(order)[order[i].0] == order[i].1
      {
        if i < n { assert order[..n][i] == order[i]; }
      }
    }
  }

  lemma OrderRebuildsMap(order: seq<(string, string)>, tags: map<string, string>)
    requires IsOrder(order, tags)
    ensures MapOf(order) == tags
  {
    MapOfOrder(order);
    forall k | k in tags
      ensures k in MapOf(order) && MapOf(order)[k] == tags[k]
    {
      var i :| 0 <= i < |order| && order[i] == (k, tags[k]);
      assert order[i].0 == k;
    }
    assert MapOf(order).Keys == tags.Keys;
  }

  lemma CutTagText(tag: (string, string))
    requires CleanKey(tag.0)
    ensures Cut(TagText(tag)) == (tag.0, EscapeTagValue(tag.1))
    ensures Unescape(Cut(TagText(tag)).1) == tag.1
  {
    EscapeRoundTrip(tag.1);
    if tag.1 == "" {
      assert TagText(tag) == tag.0;
    } else {
      var v := EscapeTagValue(tag.1);
      assert TagText(tag) == tag.0 + ['='] + v;
      IndexAfter(tag.0, '=', v);
      assert TagText(tag)[..|tag.0|] == tag.0 && TagText(tag)[|tag.0| + 1..] == v;
    }
  }

  predicate CleanOrder(order: seq<(string, string)>) {
    forall i :: 0 <= i < |order| ==> CleanKey(order[i].0)
  }

  lemma AddTagText(tags: map<string, string>, tag: (string, string))
    requires CleanKey(tag.0)
    ensures AddTag(tags, TagText(tag)) == if Visible(tag) then tags[tag.0 := tag.1] else tags
  {
    CutTagText(tag);
    assert Visible(tag) <==> TagText(tag) != "";
  }

  lemma TagsOfMore(order: seq<(string, string)>)
    requires order != []
    ensures var n := |order| - 1;
            TagsOf(TagTexts(order)) == AddTag(TagsOf(TagTexts(order[..n])), TagText(order[n]))
  {
    var n := |order| - 1;
    assert TagTexts(order)[..n] == TagTexts(order[..n]);
  }

  lemma {:induction false} TagsReadBack(order: seq<(string, string)>)
    requires CleanOrder(order) && forall i :: 0 <= i < |order| ==> Visible(order[i])
    ensures TagsOf(TagTexts(order)) == MapOf(order)
  {
    if order != [] {
      var n := |order| - 1;
      TagsReadBack(order[..n]);
      TagsOfMore(order);
      AddTagText(TagsOf(TagTexts(order[..n])), order[n]);
    }
  }

  /** A tag with neither key nor value is not read, so without a value no empty key is. */
  lemma {:induction false} EmptyKeyUnread(order: seq<(string, string)>)
    requires CleanOrder(order) && forall i :: 0 <= i < |order| && order[i].0 == "" ==> order[i].1 == ""
    ensures "" !in TagsOf(TagTexts(order))
  {
    if order != [] {
      var n := |order| - 1;
      EmptyKeyUnread(order[..n]);
      TagsOfMore(order);
      AddTagText(TagsOf(TagTexts(order[..n])), order[n]);
    }
  }

  lemma {:induction false} JoinWithout(parts: seq<string>, sep: char, c: char)
    requires c != sep && forall i :: 0 <= i < |parts| ==> c !in parts[i]
    ensures c !in Join(parts, sep)
  {
    if |parts| > 1 {
      JoinWithout(parts[1..], sep, c);
    }
  }

  lemma LineOfTags(block: string, rest: string)
    requires ' ' !in block
    ensures LineOf("@" + block + " " + rest) == UntaggedOf(TagsOf(Split(block, ';')), rest)
  {
    CutAfter(block, ' ', rest);
    var line := block + [' '] + rest;
    AtHead(block, rest, line);
  }

  lemma AtHead(block: string, rest: string, line: string)
    requires line == block + [' '] + rest
    ensures var text := "@" + block + " " + rest; StartsWith(text, '@') && text[1..] == line
  {
  }

  lemma TagTextClean(tag: (string, string))
    requires CleanKey(tag.0)
    ensures ';' !in TagText(tag) && ' ' !in TagText(tag)
  {
    EscapeRoundTrip(tag.1);
  }

  /** The printed tags are one word, from which they are split again. */
  lemma BlockClean(order: seq<(string, string)>)
    requires order != [] && CleanOrder(order)
    ensures ' ' !in Join(TagTexts(order), ';') && Split(Join(TagTexts(order), ';'), ';') == TagTexts(order)
  {
    var texts := TagTexts(order);
    forall i | 0 <= i < |texts|
      ensures ';' !in texts[i] && ' ' !in texts[i]
    {
      TagTextClean(order[i]);
    }
    SplitJoin(texts, ';');
    JoinWithout(texts, ';', ' ');
  }

  /** The tag block of a line is found and split exactly as it was put together. */
  lemma TaggedLine(order: seq<(string, string)>, rest: string)
    requires order != [] && CleanOrder(order)
    ensures LineOf(TagBlock(order) + rest) == UntaggedOf(TagsOf(TagTexts(order)), rest)
  {
    BlockClean(order);
    LineOfTags(Join(TagTexts(order), ';'), rest);
  }

  /** Of several tags of one key the last one counts. */
  lemma LastTagWins(block: string, key: string, value: string, rest: string)
    requires ' ' !in block && CleanKey(key) && value != ""
    ensures var line := "@" + (block + ";" + (key + "=" + EscapeTagValue(value))) + " " + rest;
            key in LineOf(line).tags && LineOf(line).tags[key] == value
  {
    var text := TagText((key, value));
    assert text == key + "=" + EscapeTagValue(value);
    TagTextClean((key, value));
    var whole := block + ";" + text;
    assert ' ' !in whole;
    LineOfTags(whole, rest);
    SplitBehind(block, text, ';');
    var parts := Split(block, ';');
    assert (parts + [text])[..|parts|] == parts;
    AddTagText(TagsOf(parts), (key, value));
  }

  /** A part behind the last separator. */
  lemma {:induction false} SplitBehind(a: string, b: string, c: char)
    requires c !in b
    ensures Split(a + [c] + b, c) == Split(a, c) + [b]
    decreases |a|
  {
    var e := Index(a, c);
    if e < 0 {
      SplitFirst(a, c, b);
    } else {
      var x, y := a[..e], a[e + 1..];
      assert a == x + [c] + y;
      SplitBehind(y, b, c);
      SplitBehindMore(x, y, a, b, c);
    }
  }

  lemma SplitBehindMore(x: string, y: string, a: string, b: string, c: char)
    requires c !in x && a == x + [c] + y && Split(y + [c] + b, c) == Split(y, c) + [b]
    ensures Split(a + [c] + b, c) == Split(a, c) + [b]
  {
    var more := y + [c] + b;
    assert a + [c] + b == x + [c] + more;
    SplitFirst(x, c, more);
    SplitFirst(x, c, y);
    assert [x] + (Split(y, c) + [b]) == [x] + Split(y, c) + [b];
  }

  /** Lines that end early: one word of tags says nothing, and one word behind a colon is all prefix. */
  lemma EarlyEnds(word: string)
    requires ' ' !in word && EndsClean(word)
    ensures MessageOf("@" + word) == Message(map[], "", "", [])
    ensures MessageOf(":" + word) == Message(map[], word, "", [])
  {
    TrimRightKeeps("@" + word, IsCRLF);
    TrimRightKeeps(":" + word, IsCRLF);
    assert ("@" + word)[1..] == word && (":" + word)[1..] == word;
  }

  lemma PrintEndsClean(order: seq<(string, string)>, m: Message)
    requires EndsClean(if m.params == [] then m.command else m.params[|m.params| - 1])
    ensures TrimRight(Print(order, m), IsCRLF) == Print(order, m)
  {
    if m.params != [] {
      ParamsTextEnd(m.params);
    }
    FrontEndsClean(order, m.prefix);
    ThreeEndClean(TagBlock(order), PrefixText(m.prefix), m.command, ParamsText(m.params));
    TrimRightKeeps(Print(order, m), IsCRLF);
  }

  lemma FrontEndsClean(order: seq<(string, string)>, prefix: string)
    ensures EndsClean(TagBlock(order)) && EndsClean(PrefixText(prefix))
  {
    EndsCleanAfter("@" + Join(TagTexts(order), ';'), " ");
    EndsCleanAfter(":" + prefix, " ");
  }

  lemma ThreeEndClean(block: string, prefix: string, command: string, text: string)
    requires EndsClean(block) && EndsClean(prefix) && EndsClean(text) && (text == "" ==> EndsClean(command))
    ensures EndsClean(block + (prefix + (command + text)))
  {
    EndsCleanAfter(command, text);
    EndsCleanAfter(prefix, command + text);
    EndsCleanAfter(block, prefix + (command + text));
  }

  lemma EndsCleanAfter(a: string, b: string)
    requires EndsClean(b) && (b == "" ==> EndsClean(a))
    ensures EndsClean(a + b)
  {
    if b == "" {
      assert a + b == a;
    }
  }

  lemma {:induction false} ParamsTextEnd(params: seq<string>)
    requires params != []
    ensures var t, p := ParamsText(params), params[|params| - 1];
            t != "" && t[|t| - 1] == if p == "" then ':' else p[|p| - 1]
  {
    if |params| > 1 {
      ParamsTextEnd(params[1..]);
    }
  }

  /** A line without tags is read from its first character on. */
  lemma UntaggedLine(m: Message)
    requires CleanParams(m.params) && (m.prefix == "" ==> !StartsWith(m.command, '@'))
    ensures var rest := PrefixText(m.prefix) + (m.command + ParamsText(m.params));
            LineOf(rest) == UntaggedOf(map[], rest)
  {
    if m.prefix == "" {
      BodyHead(m, '@');
      assert "" + (m.command + ParamsText(m.params)) == m.command + ParamsText(m.params);
    }
  }

  lemma LineRoundTrip(m: Message, order: seq<(string, string)>)
    requires WellFormed(m) && IsOrder(order, m.tags)
    ensures LineOf(Print(order, m)) == m
  {
    UntaggedRoundTrip(m.tags, m);
    OrderRebuildsMap(order, m.tags);
    var rest := PrefixText(m.prefix) + (m.command + ParamsText(m.params));
    if order == [] {
      assert m.tags == map[];
      UntaggedLine(m);
      assert Print(order, m) == rest;
    } else {
      TaggedLine(order, rest);
      TagsReadBack(order);
    }
  }

  /** Parsing a printed well-formed message gives the message back, in whatever order its tags were printed. */
  lemma ParseUndoesFormat(m: Message, order: seq<(string, string)>)
    requires WellFormed(m) && IsOrder(order, m.tags)
    ensures MessageOf(Print(order, m)) == m
  {
    PrintEndsClean(order, m);
    LineRoundTrip(m, order);
  }

  /** The same for the two methods: whatever order Format takes, Parse gives the message back. */
  method FormatThenParse(m: Message) returns (back: Message)
    requires WellFormed(m)
    ensures back == m
  {
    var line := Format(m);
    ghost var order :| IsOrder(order, m.tags) && line == Print(order, m);
    ParseUndoesFormat(m, order);
    back := Parse(line);
  }
}
