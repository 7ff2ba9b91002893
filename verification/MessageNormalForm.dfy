/** Printing what was parsed and parsing it again changes nothing, on exactly the lines found here. */
module MessageNormalForm {
  import opened GoStrings
  import opened Ircv3
  import opened MessageRoundTrip

  /** What a parsed message must satisfy for its printed line to mean the same:
      its command cannot pass for a tag block or a prefix, and it has no tag that prints as nothing. */
  predicate Reprintable(m: Message) {
    CommandStandsAlone(m) && !("" in m.tags && m.tags[""] == "")
  }

  predicate OneLine(raw: string) {
    '\r' !in raw && '\n' !in raw
  }

  // ---- What parsing guarantees ----------------------------------------------------------------

  /** The part of well-formedness that every parsed message has. */
  predicate Shaped(m: Message) {
    && ' ' !in m.prefix
    && ToUpper(m.command) == m.command && ' ' !in m.command
    && CleanParams(m.params)
    && EndsClean(if m.params == [] then m.command else m.params[|m.params| - 1])
  }

  predicate CleanKeys(tags: map<string, string>) {
    forall k :: k in tags ==> CleanKey(k)
  }

  lemma {:induction false} ParsedTags(parts: seq<string>)
    requires forall i :: 0 <= i < |parts| ==> ';' !in parts[i] && ' ' !in parts[i]
    ensures CleanKeys(TagsOf(parts))
  {
    if parts != [] {
      ParsedTags(parts[..|parts| - 1]);
      assert CleanKey(Cut(parts[|parts| - 1]).0);
    }
  }

  lemma {:induction false} ParsedParams(s: string)
    ensures CleanParams(ParamsOf(s))
    ensures OneLine(s) ==> forall i :: 0 <= i < |ParamsOf(s)| ==> OneLine(ParamsOf(s)[i])
    decreases |s|
  {
    var e := Index(s, ' ');
    if s != "" && s[0] != ':' && e >= 0 {
      ParsedParams(s[e + 1..]);
      assert s[..e] == "" || s[..e][0] == s[0];
    }
  }

  lemma ParsedBody(tags: map<string, string>, prefix: string, s: string)
    requires OneLine(s) && ' ' !in prefix
    ensures Shaped(BodyOf(tags, prefix, s))
  {
    var e := Index(s, ' ');
    var word := if e < 0 then s else s[..e];
    ParsedWord(word);
    if e >= 0 {
      ParsedParams(s[e + 1..]);
    }
  }

  lemma ParsedWord(word: string)
    requires OneLine(word) && ' ' !in word
    ensures var cmd := ToUpper(word); ToUpper(cmd) == cmd && ' ' !in cmd && OneLine(cmd)
  {
    ToUpperIdempotent(word);
    ToUpperKeeps(word, ' ');
    ToUpperKeeps(word, '\r');
    ToUpperKeeps(word, '\n');
  }

  lemma ParsedPrefixed(tags: map<string, string>, s: string)
    requires OneLine(s)
    ensures Shaped(PrefixedOf(tags, s))
  {
    var e := Index(s, ' ');
    if e >= 0 {
      ParsedBody(tags, s[..e], s[e + 1..]);
    } else {
      assert ToUpper("") == "";
    }
  }

  lemma ParsedUntagged(tags: map<string, string>, s: string)
    requires OneLine(s)
    ensures Shaped(UntaggedOf(tags, s))
  {
    if StartsWith(s, ':') {
      ParsedPrefixed(tags, s[1..]);
    } else {
      ParsedBody(tags, "", s);
    }
  }

  lemma ParsedLine(raw: string)
    requires OneLine(raw)
    ensures Shaped(LineOf(raw)) && CleanKeys(LineOf(raw).tags)
  {
    if StartsWith(raw, '@') {
      var e := Index(raw[1..], ' ');
      if e >= 0 {
        var block := raw[1..][..e];
        SplitParts(block, ';');
        ParsedTags(Split(block, ';'));
        ParsedUntagged(TagsOf(Split(block, ';')), raw[1..][e + 1..]);
      } else {
        assert LineOf(raw) == Message(map[], "", "", []);
        assert ToUpper("") == "";
      }
    } else {
      ParsedUntagged(map[], raw);
    }
  }

  /** Parsing leaves open only the two conditions of Reprintable. */
  lemma ParsedMessage(raw: string)
    requires OneLine(raw)
    ensures var m := MessageOf(raw); Shaped(m) && CleanKeys(m.tags) && (Reprintable(m) <==> WellFormed(m))
  {
    assert raw == "" || raw[|raw| - 1] in raw;
    TrimRightKeeps(raw, IsCRLF);
    ParsedLine(raw);
  }

  // ---- Why the other messages do not survive --------------------------------------------------

  /** The characters the parameters need, counting one separator each. */
  function Weight(params: seq<string>): nat {
    if params == [] then 0 else |params[0]| + 1 + Weight(params[1..])
  }

  lemma {:induction false} WeightOfText(params: seq<string>)
    ensures |ParamsText(params)| <= Weight(params) + 1
  {
    if params != [] {
      WeightOfText(params[1..]);
    }
  }

  lemma {:induction false} WeightOfParams(s: string)
    ensures Weight(ParamsOf(s)) <= |s| + 1
    decreases |s|
  {
    var e := Index(s, ' ');
    if s == "" {
    } else if s[0] == ':' {
      WeightOne(s[1..]);
    } else if e < 0 {
      WeightOne(s);
    } else {
      WeightOfParams(s[e + 1..]);
      WeightMore(s[..e], ParamsOf(s[e + 1..]));
    }
  }

  lemma WeightOne(p: string)
    ensures Weight([p]) == |p| + 1
  {
    WeightMore(p, []);
    assert [p] + [] == [p];
  }

  lemma WeightMore(p: string, params: seq<string>)
    ensures Weight([p] + params) == |p| + 1 + Weight(params)
  {
    assert ([p] + params)[1..] == params;
  }

  lemma WeightOfBody(tags: map<string, string>, prefix: string, s: string)
    ensures var m := BodyOf(tags, prefix, s); |m.command| + Weight(m.params) <= |s|
  {
    var e := Index(s, ' ');
    if e >= 0 { WeightOfParams(s[e + 1..]); }
  }

  lemma WeightOfPrefixed(tags: map<string, string>, s: string)
    ensures var m := PrefixedOf(tags, s); |m.command| + Weight(m.params) <= |s|
  {
    var e := Index(s, ' ');
    if e >= 0 {
      WeightOfBody(tags, s[..e], s[e + 1..]);
    }
  }

  lemma WeightOfUntagged(tags: map<string, string>, s: string)
    ensures var m := UntaggedOf(tags, s); |m.command| + Weight(m.params) <= |s|
  {
    if StartsWith(s, ':') {
      WeightOfPrefixed(tags, s[1..]);
    } else {
      WeightOfBody(tags, "", s);
    }
  }

  lemma ColonCommandLost(tags: map<string, string>, m: Message)
    requires m.prefix == "" && StartsWith(m.command, ':') && ' ' !in m.command && CleanParams(m.params)
    ensures UntaggedOf(tags, m.command + ParamsText(m.params)) != m
  {
    var text := ParamsText(m.params);
    var s := m.command + text;
    if m.params == [] {
      assert s == m.command;
    } else {
      ParamsRoundTrip(m.params);
      assert s == ":" + m.command[1..] + " " + text[1..];
      UntaggedOfPrefix(tags, m.command[1..], text[1..]);
      WeightOfText(m.params);
      WeightOfBody(tags, m.command[1..], text[1..]);
    }
  }

  lemma AtCommandLost(m: Message)
    requires StartsWith(m.command, '@') && ' ' !in m.command && CleanParams(m.params)
    ensures LineOf(m.command + ParamsText(m.params)) != m
  {
    var text := ParamsText(m.params);
    var s := m.command + text;
    if m.params == [] {
      assert s == m.command;
    } else {
      ParamsRoundTrip(m.params);
      assert s == "@" + m.command[1..] + " " + text[1..];
      LineOfTags(m.command[1..], text[1..]);
      WeightOfText(m.params);
      WeightOfUntagged(TagsOf(Split(m.command[1..], ';')), text[1..]);
    }
  }

  lemma InvisibleTagLost(m: Message, order: seq<(string, string)>)
    requires IsOrder(order, m.tags) && CleanKeys(m.tags) && "" in m.tags && m.tags[""] == ""
    ensures LineOf(Print(order, m)) != m
  {
    assert ("", "") in order;
    var rest := PrefixText(m.prefix) + (m.command + ParamsText(m.params));
    TaggedLine(order, rest);
    EmptyKeyUnread(order);
  }

  lemma CommandLost(m: Message, order: seq<(string, string)>)
    requires IsOrder(order, m.tags) && CleanKeys(m.tags) && !CommandStandsAlone(m)
    requires ' ' !in m.command && CleanParams(m.params)
    ensures LineOf(Print(order, m)) != m
  {
    var body := m.command + ParamsText(m.params);
    assert PrefixText(m.prefix) + body == body;
    if order != [] {
      TaggedLine(order, body);
      assert order[0].0 in m.tags;
      ColonCommandLost(TagsOf(TagTexts(order)), m);
    } else {
      assert Print(order, m) == body;
      if StartsWith(m.command, '@') {
        AtCommandLost(m);
      } else {
        BodyHead(m, '@');
        ColonCommandLost(map[], m);
      }
    }
  }

  /** Format after Parse is a normal form on a line without CR or LF exactly when the parsed message is reprintable. */
  lemma ParseFormatParse(raw: string, order: seq<(string, string)>)
    requires OneLine(raw) && IsOrder(order, MessageOf(raw).tags)
    ensures var m := MessageOf(raw); MessageOf(Print(order, m)) == m <==> Reprintable(m)
  {
    var m := MessageOf(raw);
    ParsedMessage(raw);
    if Reprintable(m) {
      ParseUndoesFormat(m, order);
    } else {
      PrintEndsClean(order, m);
      if CommandStandsAlone(m) { InvisibleTagLost(m, order); } else { CommandLost(m, order); }
    }
  }

  /** Two lines whose second reading differs: a tag with neither key nor value, and an empty prefix before a colon. */
  lemma NotNormalForms()
    ensures MessageOf("@= A") == Message(map["" := ""], "", "A", []) && !Reprintable(MessageOf("@= A"))
    ensures MessageOf(": :X") == Message(map[], "", ":X", []) && !Reprintable(MessageOf(": :X"))
  {
    TrimRightKeeps("@= A", IsCRLF);
    CutAfter("=", ' ', "A");
    assert "@= A"[1..] == "=" + [' '] + "A";
    assert LineOf("@= A") == UntaggedOf(TagsOf(Split("=", ';')), "A");
    assert Split("=", ';') == ["="];
    assert TagsOf(["="]) == AddTag(TagsOf([]), "=");
    CutAfter("", '=', "");
    assert "=" == "" + ['='] + "";
    assert ToUpper("A") == "A";
    TrimRightKeeps(": :X", IsCRLF);
    CutAfter("", ' ', ":X");
    assert ": :X"[1..] == "" + [' '] + ":X";
    assert LineOf(": :X") == BodyOf(map[], "", ":X");
    assert ToUpper(":X") == ":X";
  }
}
