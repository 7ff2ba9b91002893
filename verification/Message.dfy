/** IRCv3 messages: the parser, the printer, and how each undoes the other. */
module Ircv3 {
  import opened GoStrings
  import opened TagEscape

  datatype Message = Message(tags: map<string, string>, prefix: string, command: string, params: seq<string>)

  // ---- What a line means ----------------------------------------------------------------------

  function Cut(tag: string): (string, string) {
    var e := Index(tag, '=');
    if e < 0 then (tag, "") else (tag[..e], tag[e + 1..])
  }

  function AddTag(tags: map<string, string>, tag: string): map<string, string> {
    if tag == "" then tags else var (k, v) := Cut(tag); tags[k := Unescape(v)]
  }

  /** Later tags override earlier ones. */
  function TagsOf(parts: seq<string>): map<string, string> {
    if parts == [] then map[] else AddTag(TagsOf(parts[..|parts| - 1]), parts[|parts| - 1])
  }

  function ParamsOf(s: string): seq<string>
    decreases |s|
  {
    if s == "" then []
    else if s[0] == ':' then [s[1..]]
    else
      var e := Index(s, ' ');
      if e < 0 then [s] else [s[..e]] + ParamsOf(s[e + 1..])
  }

  function BodyOf(tags: map<string, string>, prefix: string, s: string): (m: Message)
    ensures m.tags == tags && m.prefix == prefix
  {
    var e := Index(s, ' ');
    if e < 0 then Message(tags, prefix, ToUpper(s), [])
    else Message(tags, prefix, ToUpper(s[..e]), ParamsOf(s[e + 1..]))
  }

  function PrefixedOf(tags: map<string, string>, s: string): (m: Message)
    ensures m.tags == tags
  {
    var e := Index(s, ' ');
    if e < 0 then Message(tags, s, "", []) else BodyOf(tags, s[..e], s[e + 1..])
  }

  function UntaggedOf(tags: map<string, string>, s: string): (m: Message)
    ensures m.tags == tags
  {
    if StartsWith(s, ':') then PrefixedOf(tags, s[1..]) else BodyOf(tags, "", s)
  }

  function LineOf(s: string): Message {
    if StartsWith(s, '@') then
      var e := Index(s[1..], ' ');
      if e < 0 then Message(map[], "", "", [])
      else UntaggedOf(TagsOf(Split(s[1..][..e], ';')), s[1..][e + 1..])
    else UntaggedOf(map[], s)
  }

  function MessageOf(raw: string): Message {
    LineOf(TrimRight(raw, IsCRLF))
  }

  method Parse(raw: string) returns (msg: Message)
    ensures msg == MessageOf(raw)
  {
    var line := TrimRight(raw, IsCRLF);
    var tags: map<string, string> := map[];
    var pos := 0;
    if |line| > pos && line[pos] == '@' {
      pos := pos + 1;
      var end := Index(line[pos..], ' ');
      if end == -1 {
        return Message(tags, "", "", []);
      }
      tags := ParseTags(line[pos..][..end]);
      assert line[1..][end + 1..] == line[1 + end + 1..];
      pos := pos + end + 1;
    }
    msg := ParseUntagged(tags, line, pos);
  }

  method ParseTags(tagStr: string) returns (tags: map<string, string>)
    ensures tags == TagsOf(Split(tagStr, ';'))
  {
    tags := map[];
    var parts := Split(tagStr, ';');
    for i := 0 to |parts|
      invariant tags == TagsOf(parts[..i])
    {
      assert parts[..i + 1][..i] == parts[..i];
      if parts[i] != "" {
        var (k, v) := Cut(parts[i]);
        var value := UnescapeTagValue(v);
        tags := tags[k := value];
      }
    }
    assert parts[..|parts|] == parts;
  }

  method ParseUntagged(tags: map<string, string>, line: string, start: nat) returns (msg: Message)
    requires start <= |line|
    ensures msg == UntaggedOf(tags, line[start..])
  {
    if |line| > start && line[start] == ':' {
      TailOfTail(line, start, 1);
      msg := ParsePrefixed(tags, line, start + 1);
    } else {
      msg := ParseBody(tags, "", line, start);
    }
  }

  /** From behind the colon of the prefix on. */
  method ParsePrefixed(tags: map<string, string>, line: string, start: nat) returns (msg: Message)
    requires start <= |line|
    ensures msg == PrefixedOf(tags, line[start..])
  {
    var end := Index(line[start..], ' ');
    if end == -1 {
      return Message(tags, line[start..], "", []);
    }
    msg := ParseBody(tags, line[start..start + end], line, start + end + 1);
    PrefixedAt(tags, line, start, end, msg);
  }

  lemma PrefixedAt(tags: map<string, string>, line: string, start: nat, end: nat, msg: Message)
    requires start <= |line| && end == Index(line[start..], ' ')
    requires msg == BodyOf(tags, line[start..start + end], line[start + end + 1..])
    ensures msg == PrefixedOf(tags, line[start..])
  {
    CutTail(line, start, end);
  }

  method ParseBody(tags: map<string, string>, prefix: string, line: string, start: nat) returns (msg: Message)
    requires start <= |line|
    ensures msg == BodyOf(tags, prefix, line[start..])
  {
    var end := Index(line[start..], ' ');
    BodyAt(tags, prefix, line, start, end);
    if end == -1 {
      return Message(tags, prefix, ToUpper(line[start..]), []);
    }
    var params := ParseParams(line, start + end + 1);
    msg := Message(tags, prefix, ToUpper(line[start..start + end]), params);
  }

  lemma BodyAt(tags: map<string, string>, prefix: string, line: string, start: nat, end: int)
    requires start <= |line| && end == Index(line[start..], ' ')
    ensures BodyOf(tags, prefix, line[start..])
         == if end < 0 then Message(tags, prefix, ToUpper(line[start..]), [])
            else Message(tags, prefix, ToUpper(line[start..start + end]), ParamsOf(line[start + end + 1..]))
  {
    if end >= 0 { CutTail(line, start, end); }
  }

  /** The parameter loop: every turn moves `pos` forward by at least one character. */
  method ParseParams(line: string, start: nat) returns (params: seq<string>)
    requires start <= |line|
    ensures params == ParamsOf(line[start..])
  {
    params := [];
    var pos := start;
    while pos < |line|
      invariant start <= pos <= |line|
      invariant ParamsOf(line[start..]) == params + ParamsOf(line[pos..])
    {
      var end := Index(line[pos..], ' ');
      ParamsAt(line, pos, end);
      if line[pos] == ':' {
        params := params + [line[pos + 1..]];
        return;
      }
      if end == -1 {
        params := params + [line[pos..]];
        return;
      }
      Regrouped(params, line[pos..pos + end], ParamsOf(line[pos + end + 1..]));
      params := params + [line[pos..pos + end]];
      pos := pos + end + 1;
    }
  }

  lemma ParamsAt(line: string, pos: nat, end: int)
    requires pos < |line| && end == Index(line[pos..], ' ')
    ensures ParamsOf(line[pos..])
         == if line[pos] == ':' then [line[pos + 1..]]
            else if end < 0 then [line[pos..]]
            else [line[pos..pos + end]] + ParamsOf(line[pos + end + 1..])
  {
    TailOfTail(line, pos, 1);
    if end >= 0 { CutTail(line, pos, end); }
  }

  lemma Regrouped(params: seq<string>, p: string, later: seq<string>)
    ensures params + ([p] + later) == params + [p] + later
  {
  }

  // ---- Printing --------------------------------------------------------------------------------

  /** One order in which a range over the tag map may visit it. */
  predicate IsOrder(order: seq<(string, string)>, tags: map<string, string>) {
    && (forall i :: 0 <= i < |order| ==> order[i].0 in tags && tags[order[i].0] == order[i].1)
    && (forall i, j :: 0 <= i < j < |order| ==> order[i].0 != order[j].0)
    && (forall k :: k in tags ==> (k, tags[k]) in order)
  }

  function TagText(tag: (string, string)): string {
    tag.0 + if tag.1 != "" then "=" + EscapeTagValue(tag.1) else ""
  }

  function TagTexts(order: seq<(string, string)>): (r: seq<string>)
    ensures |r| == |order|
    ensures forall i :: 0 <= i < |order| ==> r[i] == TagText(order[i])
  {
    seq(|order|, i requires 0 <= i < |order| => TagText(order[i]))
  }

  function TagBlock(order: seq<(string, string)>): string {
    if order == [] then "" else "@" + Join(TagTexts(order), ';') + " "
  }

  predicate NeedsColon(p: string) {
    ' ' in p || StartsWith(p, ':') || p == ""
  }

  function ParamsText(params: seq<string>): string {
    if params == [] then ""
    else if |params| == 1 then " " + (if NeedsColon(params[0]) then ":" else "") + params[0]
    else " " + params[0] + ParamsText(params[1..])
  }

  function PrefixText(prefix: string): string {
    if prefix == "" then "" else ":" + prefix + " "
  }

  function Print(order: seq<(string, string)>, m: Message): string {
    TagBlock(order) + (PrefixText(m.prefix) + (m.command + ParamsText(m.params)))
  }

  lemma JoinSnoc(parts: seq<string>, p: string, c: char)
    requires parts != []
    ensures Join(parts + [p], c) == Join(parts, c) + [c] + p
  {
    if |parts| > 1 {
      assert (parts + [p])[1..] == parts[1..] + [p];
      JoinSnoc(parts[1..], p, c);
    }
  }

  lemma ParamsTextSnoc(params: seq<string>, i: nat)
    requires i < |params|
    ensures ParamsText(params) == MiddlesText(params[..i]) + ParamsText(params[i..])
  {
    if i > 0 {
      ParamsTextSnoc(params[1..], i - 1);
      assert params[1..][..i - 1] == params[..i][1..] && params[1..][i - 1..] == params[i..];
    } else {
      assert params[0..] == params;
    }
  }

  function MiddlesText(params: seq<string>): string {
    if params == [] then "" else " " + params[0] + MiddlesText(params[1..])
  }

  lemma MiddlesTextSnoc(params: seq<string>, p: string)
    ensures MiddlesText(params + [p]) == MiddlesText(params) + " " + p
  {
    if params != [] {
      assert (params + [p])[1..] == params[1..] + [p];
      MiddlesTextSnoc(params[1..], p);
    }
  }

  /** The tags come out in whatever order the map is ranged over. */
  method FormatTags(tags: map<string, string>) returns (text: string)
    ensures exists order :: IsOrder(order, tags) && text == TagBlock(order)
  {
    text := "";
    ghost var order := [];
    if |tags| > 0 {
      text := "@";
      var first := true;
      var left := tags.Keys;
      while left != {}
        invariant left <= tags.Keys && Visited(order, tags, left)
        invariant first <==> order == []
        invariant first ==> left != {}
        invariant text == "@" + Join(TagTexts(order), ';')
        decreases left
      {
        var k :| k in left;
        var piece := k;
        if tags[k] != "" {
          piece := piece + ("=" + EscapeTagValue(tags[k]));
        }
        assert piece == TagText((k, tags[k]));
        TagTextsSnoc(order, (k, tags[k]));
        VisitNext(order, tags, left, k);
        text := AppendTag(text, first, piece);
        order := order + [(k, tags[k])];
        first := false;
        left := left - {k};
      }
      text := text + " ";
    }
    assert IsOrder(order, tags) && text == TagBlock(order);
  }

  /** `order` has visited the tags whose keys are not `left`. */
  ghost predicate Visited(order: seq<(string, string)>, tags: map<string, string>, left: set<string>) {
    && (forall i :: 0 <= i < |order| ==> order[i].0 in tags && order[i].0 !in left && tags[order[i].0] == order[i].1)
    && (forall i, j :: 0 <= i < j < |order| ==> order[i].0 != order[j].0)
    && (forall k :: k in tags && k !in left ==> (k, tags[k]) in order)
  }

  lemma VisitNext(order: seq<(string, string)>, tags: map<string, string>, left: set<string>, k: string)
    requires Visited(order, tags, left) && k in left && k in tags
    ensures Visited(order + [(k, tags[k])], tags, left - {k})
  {
    var next := order + [(k, tags[k])];
    assert next[|order|] == (k, tags[k]);
    forall x | x in tags && x !in left - {k}
      ensures (x, tags[x]) in next
    {
      assert x == k || (x, tags[x]) in order;
    }
  }

  function AppendTag(text: string, first: bool, piece: string): string {
    if first then text + piece else text + ";" + piece
  }

  lemma TagTextsSnoc(order: seq<(string, string)>, tag: (string, string))
    ensures Join(TagTexts(order + [tag]), ';')
         == AppendTag(Join(TagTexts(order), ';'), order == [], TagText(tag))
    ensures "@" + Join(TagTexts(order + [tag]), ';')
         == AppendTag("@" + Join(TagTexts(order), ';'), order == [], TagText(tag))
  {
    assert TagTexts(order + [tag]) == TagTexts(order) + [TagText(tag)];
    if order != [] {
      JoinSnoc(TagTexts(order), TagText(tag), ';');
    }
  }

  method FormatParams(params: seq<string>) returns (text: string)
    ensures text == ParamsText(params)
  {
    text := "";
    for i := 0 to |params|
      invariant i < |params| ==> text == MiddlesText(params[..i])
      invariant i == |params| ==> text == ParamsText(params)
    {
      ParamsTextSnoc(params, i);
      MiddlesTextSnoc(params[..i], params[i]);
      assert params[..i + 1] == params[..i] + [params[i]];
      text := text + " ";
      if i == |params| - 1 && NeedsColon(params[i]) {
        text := text + ":";
      }
      text := text + params[i];
    }
  }

  method Format(m: Message) returns (line: string)
    ensures exists order :: IsOrder(order, m.tags) && line == Print(order, m)
  {
    line := FormatTags(m.tags);
    ghost var order :| IsOrder(order, m.tags) && line == TagBlock(order);
    if m.prefix != "" {
      line := line + ":" + m.prefix + " ";
    }
    var params := FormatParams(m.params);
    line := line + m.command + params;
    PrintParts(TagBlock(order), m);
    assert line == Print(order, m);
  }

  lemma PrintParts(block: string, m: Message)
    ensures (if m.prefix != "" then block + ":" + m.prefix + " " else block) + m.command + ParamsText(m.params)
         == block + (PrefixText(m.prefix) + (m.command + ParamsText(m.params)))
  {
  }
}
