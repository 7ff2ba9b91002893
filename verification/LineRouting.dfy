/** The bouncer and the logger each re-parse IRC lines by hand. RoutingAgreement and LoggedEvents show
    when they agree with the message parser. */
module LineRouting {
  import opened Options
  import opened GoStrings

  predicate IsChannel(s: string) {
    StartsWith(s, '#') || StartsWith(s, '&')
  }

  function NickFrom(prefix: string): string {
    var e := Index(prefix, '!');
    if e < 0 then prefix else prefix[..e]
  }

  /** The prefix is the nick alone, or the nick, a `!` and the rest. */
  predicate SentBy(prefix: string, nick: string) {
    '!' !in nick && nick <= prefix && (prefix == nick || prefix[|nick|] == '!')
  }

  lemma NickSends(prefix: string)
    ensures SentBy(prefix, NickFrom(prefix))
  {
    var e := Index(prefix, '!');
    assert e >= 0 ==> prefix[..e] <= prefix;
  }

  lemma SentOnce(prefix: string, nick: string)
    requires SentBy(prefix, nick)
    ensures NickFrom(prefix) == nick
  {
    if prefix != nick {
      var host := prefix[|nick| + 1..];
      assert prefix == nick + ['!'] + host;
      CutAfter(nick, '!', host);
    }
  }

  /** nickFrom finds the sender, and no other nick is the sender. */
  lemma SenderIs(prefix: string, nick: string)
    ensures SentBy(prefix, nick) <==> nick == NickFrom(prefix)
  {
    NickSends(prefix);
    if SentBy(prefix, nick) {
      SentOnce(prefix, nick);
    }
  }

  // ---- The bouncer ----------------------------------------------------------------------------

  /** The routing key of a line: the channel it targets, or "". */
  function ChannelFromLine(line: string): string {
    if StartsWith(line, '@') then
      var sp := Index(line, ' ');
      if sp < 0 then "" else ChannelOfBare(TrimLeft(line[sp + 1..], IsBlank))
    else ChannelOfBare(line)
  }

  function ChannelOfBare(line: string): string {
    var parts := SplitN(line, ' ', 4);
    if |parts| < 3 then ""
    else
      var idx := if StartsWith(parts[0], ':') then 1 else 0;
      ChannelOfParts(ToUpper(parts[idx]), parts[idx + 1], parts)
  }

  function ChannelOfParts(cmd: string, target: string, parts: seq<string>): string {
    if cmd in {"PRIVMSG", "NOTICE", "TOPIC", "JOIN"} then
      var ch := TrimPrefix(target, ':');
      if IsChannel(ch) then ch else ""
    else if cmd in {"PART", "KICK", "MODE"} then
      if IsChannel(target) then target else ""
    else if cmd == "353" && |parts| >= 4 then
      var sub := SplitN(parts[3], ' ', 3);
      if |sub| >= 2 && IsChannel(sub[1]) then sub[1] else ""
    else if cmd == "366" && |parts| >= 4 then
      var ch := SplitN(parts[3], ' ', 2)[0];
      if IsChannel(ch) then ch else ""
    else ""
  }

  /** parseTimeTag: the first readable `time=` tag. `readTime` stands for time.Parse. */
  function ParseTimeTag(line: string, readTime: string -> Option<int>): Option<int> {
    if !StartsWith(line, '@') then None
    else
      var sp := Index(line, ' ');
      if sp < 0 then None else FirstTime(Split(line[1..sp], ';'), readTime)
  }

  predicate IsTimeTag(tag: string) {
    "time=" <= tag
  }

  function FirstTime(tags: seq<string>, readTime: string -> Option<int>): Option<int> {
    if tags == [] then None
    else if IsTimeTag(tags[0]) && readTime(tags[0][5..]).Some? then readTime(tags[0][5..])
    else FirstTime(tags[1..], readTime)
  }

  // ---- The logger -----------------------------------------------------------------------------

  datatype Entry = Entry(channel: string, nick: string, kind: string, text: string, time: int)

  /** The logger's loop keeps the last readable `time=` tag. */
  function LastTime(tags: seq<string>, readTime: string -> Option<int>): Option<int> {
    if tags == [] then None
    else
      var tag := tags[|tags| - 1];
      if IsTimeTag(tag) && readTime(tag[5..]).Some? then readTime(tag[5..])
      else LastTime(tags[..|tags| - 1], readTime)
  }

  function WordsOf(s: string): seq<string>
    decreases |s|
  {
    if s == "" then [] else WordsOfTrimmed(TrimLeftBlanks(s))
  }

  function TrimLeftBlanks(s: string): (r: string)
    ensures |r| <= |s|
    ensures !StartsWith(r, ' ')
  {
    if StartsWith(s, ' ') then TrimLeftBlanks(s[1..]) else s
  }

  function WordsOfTrimmed(s: string): seq<string>
    requires !StartsWith(s, ' ')
    decreases |s|, 0
  {
    if StartsWith(s, ':') then [s[1..]]
    else
      var sp := Index(s, ' ');
      if sp < 0 then [s]
      else [s[..sp]] + (if s[sp + 1..] == "" then [] else WordsOfTrimmed(TrimLeftBlanks(s[sp + 1..])))
  }

  method SplitParams(line: string) returns (out: seq<string>)
    ensures out == WordsOf(line)
  {
    var s := line;
    out := [];
    while |s| > 0
      invariant WordsOf(line) == out + WordsOf(s)
      decreases |s|
    {
      s := TrimLeftBlanks(s);
      if StartsWith(s, ':') {
        out := out + [s[1..]];
        return;
      }
      var sp := Index(s, ' ');
      if sp < 0 {
        out := out + [s];
        return;
      }
      assert WordsOfTrimmed(s) == [s[..sp]] + WordsOf(s[sp + 1..]);
      out := out + [s[..sp]];
      s := s[sp + 1..];
    }
  }

  function Param(params: seq<string>, i: nat): string {
    if i < |params| then params[i] else ""
  }

  predicate Loggable(cmd: string) {
    cmd in {"PRIVMSG", "NOTICE", "JOIN", "PART", "QUIT", "KICK", "TOPIC", "MODE"}
  }

  function EntryFor(cmd: string, nick: string, rest: string, time: int): Option<Entry> {
    EntryOfWords(cmd, nick, WordsOf(rest), rest, time)
  }

  function EntryOfWords(cmd: string, nick: string, params: seq<string>, rest: string, time: int): Option<Entry> {
    if cmd == "PRIVMSG" || cmd == "NOTICE" then
      if |params| < 2 then None
      else Some(Entry(if IsChannel(params[0]) then params[0] else "", nick, cmd, params[1], time))
    else if cmd == "JOIN" then
      Some(Entry(Param(params, 0), nick, cmd, nick + " joined " + Param(params, 0), time))
    else if cmd == "PART" then
      var reason := Param(params, 1);
      Some(Entry(Param(params, 0), nick, cmd,
                 nick + " left " + Param(params, 0) + (if reason != "" then " (" + reason + ")" else ""), time))
    else if cmd == "QUIT" then
      Some(Entry("", nick, cmd, nick + " quit (" + Param(params, 0) + ")", time))
    else if cmd == "KICK" then
      if |params| < 2 then None
      else Some(Entry(params[0], nick, cmd,
                      nick + " kicked " + params[1] + (if |params| > 2 then ": " + params[2] else ""), time))
    else if cmd == "TOPIC" then
      if |params| < 1 then None
      else Some(Entry(params[0], nick, cmd, nick + " set topic: " + Param(params, 1), time))
    else
      Some(Entry(if |params| > 0 && IsChannel(params[0]) then params[0] else "", nick, cmd,
                 nick + " set mode: " + rest, time))
  }

  /** From the command on. */
  function EntryOfBody(prefix: string, s: string, time: int): Option<Entry> {
    var sp := Index(s, ' ');
    var cmd := ToUpper(if sp < 0 then s else s[..sp]);
    var rest := if sp < 0 then "" else s[sp + 1..];
    EntryOfCommand(prefix, cmd, rest, time)
  }

  function EntryOfCommand(prefix: string, cmd: string, rest: string, time: int): Option<Entry> {
    if !Loggable(cmd) || StartsWith(prefix, '*') then None
    else EntryFor(cmd, NickFrom(prefix), rest, time)
  }

  function EntryOfUntagged(line: string, time: int): Option<Entry> {
    if StartsWith(line, ':') then
      var sp := Index(line, ' ');
      if sp < 0 then None else EntryOfBody(line[1..sp], TrimSpace(line[sp + 1..]), time)
    else EntryOfBody("", line, time)
  }

  function EntryOf(raw: string, now: int, readTime: string -> Option<int>): Option<Entry> {
    EntryOfTrimmed(TrimRight(raw, IsCRLF), now, readTime)
  }

  function EntryOfTrimmed(line: string, now: int, readTime: string -> Option<int>): Option<Entry> {
    if StartsWith(line, '@') then
      var sp := Index(line, ' ');
      if sp < 0 then None
      else
        var t := LastTime(Split(line[1..sp], ';'), readTime);
        EntryOfUntagged(TrimSpace(line[sp + 1..]), if t.Some? then t.value else now)
    else EntryOfUntagged(line, now)
  }

  lemma TaggedEntry(line: string, sp: nat, t: Option<int>, time: int, now: int, readTime: string -> Option<int>)
    requires StartsWith(line, '@') && sp == Index(line, ' ')
    requires t == LastTime(Split(line[1..sp], ';'), readTime) && time == if t.Some? then t.value else now
    ensures EntryOfTrimmed(line, now, readTime) == EntryOfUntagged(TrimSpace(line[sp + 1..]), time)
  {
  }

  /** parseIRCLine. The network's id and name are copied into the entry unread and left out here. */
  method ParseIRCLine(raw: string, now: int, readTime: string -> Option<int>) returns (e: Option<Entry>)
    ensures e == EntryOf(raw, now, readTime)
  {
    var line := TrimRight(raw, IsCRLF);
    var time := now;
    if StartsWith(line, '@') {
      var sp := Index(line, ' ');
      if sp < 0 {
        return None;
      }
      var serverTime := ReadServerTime(line[1..sp], readTime);
      if serverTime.Some? {
        time := serverTime.value;
      }
      TaggedEntry(line, sp, serverTime, time, now, readTime);
      line := TrimSpace(line[sp + 1..]);
    }
    e := ParseUntaggedLine(line, time);
  }

  method ParseUntaggedLine(line: string, time: int) returns (e: Option<Entry>)
    ensures e == EntryOfUntagged(line, time)
  {
    var prefix := "";
    var rest := line;
    if StartsWith(rest, ':') {
      var sp := Index(rest, ' ');
      if sp < 0 {
        return None;
      }
      prefix := rest[1..sp];
      rest := TrimSpace(rest[sp + 1..]);
    }
    e := ParseCommand(prefix, rest, time);
  }

  lemma LastTimeSnoc(tags: seq<string>, tag: string, readTime: string -> Option<int>)
    ensures LastTime(tags + [tag], readTime)
         == if IsTimeTag(tag) && readTime(tag[5..]).Some? then readTime(tag[5..]) else LastTime(tags, readTime)
  {
    assert (tags + [tag])[..|tags|] == tags;
  }

  method ReadServerTime(tagStr: string, readTime: string -> Option<int>) returns (t: Option<int>)
    ensures t == LastTime(Split(tagStr, ';'), readTime)
  {
    t := None;
    var tags := Split(tagStr, ';');
    for i := 0 to |tags|
      invariant t == LastTime(tags[..i], readTime)
    {
      LastTimeSnoc(tags[..i], tags[i], readTime);
      assert tags[..i + 1] == tags[..i] + [tags[i]];
      if IsTimeTag(tags[i]) {
        var parsed := readTime(tags[i][5..]);
        if parsed.Some? {
          t := parsed;
        }
      }
    }
    assert tags[..|tags|] == tags;
  }

  method ParseCommand(prefix: string, line: string, time: int) returns (e: Option<Entry>)
    ensures e == EntryOfBody(prefix, line, time)
  {
    var rest := line;
    var sp := Index(rest, ' ');
    var cmd;
    if sp < 0 {
      cmd := ToUpper(rest);
      rest := "";
    } else {
      cmd := ToUpper(rest[..sp]);
      rest := rest[sp + 1..];
    }
    if !Loggable(cmd) || StartsWith(prefix, '*') {
      return None;
    }
    var params := SplitParams(rest);
    e := FillEntry(cmd, NickFrom(prefix), rest, params, time);
  }

  method FillEntry(cmd: string, nick: string, rest: string, params: seq<string>, time: int) returns (e: Option<Entry>)
    requires Loggable(cmd) && params == WordsOf(rest)
    ensures e == EntryFor(cmd, nick, rest, time)
  {
    var channel, text := "", "";
    if cmd == "PRIVMSG" || cmd == "NOTICE" {
      if |params| < 2 { return None; }
      if IsChannel(params[0]) { channel := params[0]; }
      text := params[1];
    } else if cmd == "JOIN" {
      if |params| > 0 { channel := params[0]; }
      text := nick + " joined " + channel;
    } else if cmd == "PART" {
      if |params| > 0 { channel := params[0]; }
      var reason := "";
      if |params| > 1 { reason := params[1]; }
      text := nick + " left " + channel;
      if reason != "" { text := text + (" (" + reason + ")"); }
      assert nick + " left " + channel + "" == nick + " left " + channel;
    } else if cmd == "QUIT" {
      var reason := "";
      if |params| > 0 { reason := params[0]; }
      text := nick + " quit (" + reason + ")";
    } else if cmd == "KICK" {
      if |params| < 2 { return None; }
      channel := params[0];
      var reason := "";
      if |params| > 2 { reason := ": " + params[2]; }
      text := nick + " kicked " + params[1] + reason;
    } else if cmd == "TOPIC" {
      if |params| < 1 { return None; }
      channel := params[0];
      var topic := "";
      if |params| > 1 { topic := params[1]; }
      text := nick + " set topic: " + topic;
    } else {
      if |params| > 0 && IsChannel(params[0]) { channel := params[0]; }
      text := nick + " set mode: " + rest;
    }
    e := Some(Entry(channel, nick, cmd, text, time));
  }
}
