/** IRCv3 tag values: escaping, unescaping, and the browser's own decoder. */
module TagEscape {

  /** strings.ReplaceAll with a one-character needle. */
  function ReplaceChar(s: string, needle: char, fill: string): string {
    if s == "" then "" else (if s[0] == needle then fill else [s[0]]) + ReplaceChar(s[1..], needle, fill)
  }

  /** The five chained passes of escapeTagValue. */
  function EscapeTagValue(s: string): string {
    var s1 := ReplaceChar(s, '\\', "\\\\");
    var s2 := ReplaceChar(s1, ';', "\\:");
    var s3 := ReplaceChar(s2, ' ', "\\s");
    var s4 := ReplaceChar(s3, '\r', "\\r");
    ReplaceChar(s4, '\n', "\\n")
  }

  /** The table of the "Escaping values" section of IRCv3 Message Tags. */
  function EscapeChar(c: char): string {
    match c
    case ';' => "\\:"
    case ' ' => "\\s"
    case '\\' => "\\\\"
    case '\r' => "\\r"
    case '\n' => "\\n"
    case _ => [c]
  }

  function EscapeEach(s: string): string {
    if s == "" then "" else EscapeChar(s[0]) + EscapeEach(s[1..])
  }

  /** What one escape letter stands for; an unknown letter stands for itself. */
  function UnescapeChar(c: char): char {
    match c
    case ':' => ';'
    case 's' => ' '
    case 'r' => '\r'
    case 'n' => '\n'
    case _ => c
  }

  /** The meaning of an escaped value: a backslash that is not last takes the next character with it. */
  function Unescape(s: string): (v: string)
    ensures v == "" <==> s == ""
  {
    if s == "" then ""
    else if s[0] == '\\' && |s| > 1 then [UnescapeChar(s[1])] + Unescape(s[2..])
    else [s[0]] + Unescape(s[1..])
  }

  method UnescapeTagValue(s: string) returns (v: string)
    ensures v == Unescape(s)
  {
    v := "";
    var i := 0;
    while i < |s|
      invariant 0 <= i <= |s|
      invariant Unescape(s) == v + Unescape(s[i..])
    {
      var out;
      UnescapeStep(s, i);
      if s[i] == '\\' && i + 1 < |s| {
        i := i + 1;
        match s[i] {
          case ':' => out := ';';
          case 's' => out := ' ';
          case '\\' => out := '\\';
          case 'r' => out := '\r';
          case 'n' => out := '\n';
          case _ => out := s[i];
        }
      } else {
        out := s[i];
      }
      i := i + 1;
      Moved(v, out, Unescape(s[i..]));
      v := v + [out];
    }
  }

  lemma UnescapeStep(s: string, i: nat)
    requires i < |s|
    ensures Unescape(s[i..])
         == if s[i] == '\\' && i + 1 < |s| then [UnescapeChar(s[i + 1])] + Unescape(s[i + 2..])
            else [s[i]] + Unescape(s[i + 1..])
  {
    var rest := s[i..];
    assert rest[1..] == s[i + 1..];
    if |rest| > 1 { assert rest[2..] == s[i + 2..]; }
  }

  lemma Moved(v: string, c: char, rest: string)
    ensures v + ([c] + rest) == v + [c] + rest
  {
  }

  lemma {:induction false} ReplaceCharConcat(a: string, b: string, needle: char, fill: string)
    ensures ReplaceChar(a + b, needle, fill) == ReplaceChar(a, needle, fill) + ReplaceChar(b, needle, fill)
  {
    if a == "" {
      assert a + b == b;
    } else {
      assert (a + b)[1..] == a[1..] + b;
      ReplaceCharConcat(a[1..], b, needle, fill);
    }
  }

  lemma EscapePassesConcat(a: string, b: string)
    ensures EscapeTagValue(a + b) == EscapeTagValue(a) + EscapeTagValue(b)
  {
    ReplaceCharConcat(a, b, '\\', "\\\\");
    var a1, b1 := ReplaceChar(a, '\\', "\\\\"), ReplaceChar(b, '\\', "\\\\");
    ReplaceCharConcat(a1, b1, ';', "\\:");
    var a2, b2 := ReplaceChar(a1, ';', "\\:"), ReplaceChar(b1, ';', "\\:");
    ReplaceCharConcat(a2, b2, ' ', "\\s");
    var a3, b3 := ReplaceChar(a2, ' ', "\\s"), ReplaceChar(b2, ' ', "\\s");
    ReplaceCharConcat(a3, b3, '\r', "\\r");
    var a4, b4 := ReplaceChar(a3, '\r', "\\r"), ReplaceChar(b3, '\r', "\\r");
    ReplaceCharConcat(a4, b4, '\n', "\\n");
  }

  lemma {:induction false} ReplaceCharAbsent(s: string, needle: char, fill: string)
    requires needle !in s
    ensures ReplaceChar(s, needle, fill) == s
  {
    if s != "" {
      ReplaceCharAbsent(s[1..], needle, fill);
    }
  }

  lemma ReplaceCharOne(c: char, needle: char, fill: string)
    ensures ReplaceChar([c], needle, fill) == if c == needle then fill else [c]
  {
    assert [c][1..] == "";
  }

  /** On one character the passes after the one that fires find nothing left to replace. */
  lemma EscapePassesOne(c: char)
    ensures EscapeTagValue([c]) == EscapeChar(c)
  {
    ReplaceCharOne(c, '\\', "\\\\");
    var s1 := if c == '\\' then "\\\\" else [c];
    if c == ';' { ReplaceCharOne(c, ';', "\\:"); } else { ReplaceCharAbsent(s1, ';', "\\:"); }
    var s2 := if c == ';' then "\\:" else s1;
    if c == ' ' { ReplaceCharOne(c, ' ', "\\s"); } else { ReplaceCharAbsent(s2, ' ', "\\s"); }
    var s3 := if c == ' ' then "\\s" else s2;
    if c == '\r' { ReplaceCharOne(c, '\r', "\\r"); } else { ReplaceCharAbsent(s3, '\r', "\\r"); }
    var s4 := if c == '\r' then "\\r" else s3;
    if c == '\n' { ReplaceCharOne(c, '\n', "\\n"); } else { ReplaceCharAbsent(s4, '\n', "\\n"); }
  }

  /** The five characters that are escaped, and what they become; any other stays. */
  lemma EscapedAs(c: char)
    ensures EscapeTagValue([c])
         == if c == ';' then ['\\', ':']
            else if c == ' ' then ['\\', 's']
            else if c == '\\' then ['\\', '\\']
            else if c == '\r' then ['\\', 'r']
            else if c == '\n' then ['\\', 'n']
            else [c]
  {
    EscapePassesOne(c);
  }

  /** What each pair stands for when it is read: an unknown letter stands for itself without the backslash,
      and a backslash at the very end for itself. */
  lemma UnescapedAs(c: char, rest: string)
    ensures Unescape(['\\', c] + rest)
         == [if c == ':' then ';' else if c == 's' then ' ' else if c == 'r' then '\r' else if c == 'n' then '\n'
             else c]
            + Unescape(rest)
    ensures Unescape(['\\']) == ['\\']
    ensures c != '\\' ==> Unescape([c] + rest) == [c] + Unescape(rest)
  {
    var pair := ['\\', c] + rest;
    assert pair[2..] == rest;
    assert ([c] + rest)[1..] == rest;
    assert ['\\'][1..] == "";
  }

  /** The order of the passes does not show: together they are one per-character map. */
  lemma {:induction false} PassesAreOneMap(s: string)
    ensures EscapeTagValue(s) == EscapeEach(s)
  {
    if s != "" {
      EscapePassesConcat([s[0]], s[1..]);
      assert [s[0]] + s[1..] == s;
      EscapePassesOne(s[0]);
      PassesAreOneMap(s[1..]);
    }
  }

  predicate Delimiter(c: char) {
    c == ';' || c == ' ' || c == '\r' || c == '\n'
  }

  lemma {:induction false} EscapeEachClean(s: string)
    ensures forall c :: c in EscapeEach(s) ==> !Delimiter(c)
  {
    if s != "" {
      EscapeEachClean(s[1..]);
      assert forall c :: c in EscapeChar(s[0]) ==> !Delimiter(c);
    }
  }

  lemma UnescapeOne(c: char, rest: string)
    ensures Unescape(EscapeChar(c) + rest) == [c] + Unescape(rest)
  {
    var e := EscapeChar(c);
    if |e| == 1 {
      assert (e + rest)[1..] == rest;
    } else {
      assert (e + rest)[2..] == rest;
    }
  }

  lemma {:induction false} UnescapeEscapeEach(v: string)
    ensures Unescape(EscapeEach(v)) == v
  {
    if v != "" {
      UnescapeEscapeEach(v[1..]);
      UnescapeOne(v[0], EscapeEach(v[1..]));
      assert v == [v[0]] + v[1..];
    }
  }

  /** Unescaping undoes escaping, and an escaped value never breaks the tag block. */
  lemma EscapeRoundTrip(v: string)
    ensures Unescape(EscapeTagValue(v)) == v
    ensures forall c :: c in EscapeTagValue(v) ==> !Delimiter(c)
    ensures EscapeTagValue(v) == "" <==> v == ""
  {
    PassesAreOneMap(v);
    UnescapeEscapeEach(v);
    EscapeEachClean(v);
  }
}
