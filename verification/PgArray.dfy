/** The Postgres array literals in which channel lists are stored: printer and parser. */
module PgArray {

  function EscapeOne(c: char): string {
    if c == '"' || c == '\\' then ['\\', c] else [c]
  }

  function Escaped(s: string): string {
    if s == "" then "" else Escaped(s[..|s| - 1]) + EscapeOne(s[|s| - 1])
  }

  function Quoted(s: string): string {
    "\"" + Escaped(s) + "\""
  }

  method EscapePostgresString(s: string) returns (result: string)
    ensures result == Escaped(s)
  {
    result := "";
    for i := 0 to |s|
      invariant result == Escaped(s[..i])
    {
      assert s[..i + 1][..i] == s[..i];
      ghost var before := result;
      if s[i] == '"' || s[i] == '\\' {
        result := result + "\\";
      }
      result := result + [s[i]];
      assert result == before + EscapeOne(s[i]);
    }
    assert s[..|s|] == s;
  }

  /** One element as Postgres may print it: quoted, or bare where the manual allows it. */
  datatype Element = Element(text: string, bare: bool)

  /** Section 8.15.6 of the PostgreSQL manual quotes at least the elements that are empty or hold a
      delimiter, a quote or a backslash. */
  predicate Printable(e: Element) {
    e.bare ==> e.text != "" && ',' !in e.text && '"' !in e.text && '\\' !in e.text
  }

  function ElementText(e: Element): string {
    if e.bare then e.text else Quoted(e.text)
  }

  /** The elements separated by commas. */
  function Listed(es: seq<Element>): string {
    if es == [] then ""
    else if |es| == 1 then ElementText(es[0])
    else Listed(es[..|es| - 1]) + "," + ElementText(es[|es| - 1])
  }

  function Literal(es: seq<Element>): string {
    "{" + Listed(es) + "}"
  }

  function Texts(es: seq<Element>): (r: seq<string>)
    ensures |r| == |es| && forall i :: 0 <= i < |es| ==> r[i] == es[i].text
  {
    seq(|es|, i requires 0 <= i < |es| => es[i].text)
  }

  function AllQuoted(chans: seq<string>): (r: seq<Element>)
    ensures |r| == |chans| && forall i :: 0 <= i < |chans| ==> r[i] == Element(chans[i], false)
  {
    seq(|chans|, i requires 0 <= i < |chans| => Element(chans[i], false))
  }

  /** The quoted elements of a list, separated by commas. */
  function QuotedList(chans: seq<string>): string {
    if chans == [] then ""
    else if |chans| == 1 then Quoted(chans[0])
    else QuotedList(chans[..|chans| - 1]) + "," + Quoted(chans[|chans| - 1])
  }

  lemma {:induction false} QuotedListIs(chans: seq<string>)
    ensures QuotedList(chans) == Listed(AllQuoted(chans))
  {
    if |chans| > 1 {
      var n := |chans| - 1;
      QuotedListIs(chans[..n]);
      assert AllQuoted(chans)[..n] == AllQuoted(chans[..n]);
    }
  }

  lemma QuotedListSnoc(chans: seq<string>, i: nat)
    requires i < |chans|
    ensures "{" + QuotedList(chans[..i + 1])
         == (if i > 0 then "{" + QuotedList(chans[..i]) + "," else "{" + QuotedList(chans[..i])) + Quoted(chans[i])
  {
    assert chans[..i + 1][..i] == chans[..i];
  }

  method AutoJoinToDB(chans: seq<string>) returns (text: string)
    ensures text == Literal(AllQuoted(chans))
  {
    QuotedListIs(chans);
    if |chans| == 0 {
      return "{}";
    }
    var out := "{";
    for i := 0 to |chans|
      invariant out == "{" + QuotedList(chans[..i])
    {
      QuotedListSnoc(chans, i);
      if i > 0 {
        out := out + ",";
      }
      var s := EscapePostgresString(chans[i]);
      var quoted := "\"" + s + "\"";
      out := out + quoted;
    }
    assert chans[..|chans|] == chans;
    text := out + "}";
  }

  // ---- The parser's automaton -------------------------------------------------------------------

  datatype State = State(result: seq<string>, cur: string, inQuote: bool, escaped: bool)

  const Start := State([], "", false, false)

  function Step(st: State, c: char): State {
    if st.escaped then st.(cur := st.cur + [c], escaped := false)
    else if c == '\\' then st.(escaped := true)
    else if c == '"' then st.(inQuote := !st.inQuote)
    else if c == ',' && !st.inQuote then st.(result := st.result + [st.cur], cur := "")
    else st.(cur := st.cur + [c])
  }

  function Run(st: State, s: string): State {
    if s == "" then st else Step(Run(st, s[..|s| - 1]), s[|s| - 1])
  }

  function Finish(st: State): seq<string> {
    if st.cur != "" || |st.result| > 0 then st.result + [st.cur] else []
  }

  /** A literal from the database is "" or has its two braces. */
  predicate Braced(s: string) {
    s == "" || |s| >= 2
  }

  function ArrayOf(s: string): seq<string>
    requires Braced(s)
  {
    if s == "{}" || s == "" then [] else Finish(Run(Start, s[1..|s| - 1]))
  }

  method ParsePostgresArray(s: string) returns (result: seq<string>)
    requires Braced(s)
    ensures result == ArrayOf(s)
  {
    if s == "{}" || s == "" {
      return [];
    }
    var inner := s[1..|s| - 1];
    result := [];
    var cur := "";
    var inQuote := false;
    var escaped := false;
    for i := 0 to |inner|
      invariant State(result, cur, inQuote, escaped) == Run(Start, inner[..i])
    {
      var c := inner[i];
      assert inner[..i + 1][..i] == inner[..i];
      if escaped {
        cur := cur + [c];
        escaped := false;
      } else if c == '\\' {
        escaped := true;
      } else if c == '"' {
        inQuote := !inQuote;
      } else if c == ',' && !inQuote {
        result := result + [cur];
        cur := "";
      } else {
        cur := cur + [c];
      }
    }
    assert inner[..|inner|] == inner;
    if cur != "" || |result| > 0 {
      result := result + [cur];
    }
  }

  // ---- Parsing undoes printing ------------------------------------------------------------------

  lemma {:induction false} RunConcat(st: State, a: string, b: string)
    ensures Run(st, a + b) == Run(Run(st, a), b)
  {
    if b == "" {
      assert a + b == a;
    } else {
      assert (a + b)[..|a + b| - 1] == a + b[..|b| - 1];
      RunConcat(st, a, b[..|b| - 1]);
    }
  }

  lemma RunOne(st: State, c: char)
    ensures Run(st, [c]) == Step(st, c)
  {
    assert [c][..0] == "";
  }

  lemma RunTwo(st: State, a: char, b: char)
    ensures Run(st, [a, b]) == Step(Step(st, a), b)
  {
    assert [a, b][..1] == [a];
    RunOne(st, a);
  }

  /** No more is escaped than quotes and backslashes. */
  lemma {:induction false} EscapedLength(s: string)
    ensures |Escaped(s)| == |s| + |Specials(s)|
    ensures '"' !in s && '\\' !in s ==> Escaped(s) == s
  {
    if s != "" {
      var n := |s| - 1;
      EscapedLength(s[..n]);
      assert s == s[..n] + [s[n]];
    }
  }

  /** The quotes and backslashes of a text. */
  function Specials(s: string): string {
    if s == "" then ""
    else Specials(s[..|s| - 1]) + if s[|s| - 1] == '"' || s[|s| - 1] == '\\' then [s[|s| - 1]] else ""
  }

  /** A backslash takes the next character with it, inside quotes and outside. */
  lemma EscapedAnywhere(st: State, c: char)
    requires !st.escaped
    ensures Run(st, ['\\', c]) == st.(cur := st.cur + [c])
  {
    RunTwo(st, '\\', c);
  }

  lemma RunEscapedOne(st: State, c: char)
    requires st.inQuote && !st.escaped
    ensures Run(st, EscapeOne(c)) == st.(cur := st.cur + [c])
  {
    if c == '"' || c == '\\' {
      RunTwo(st, '\\', c);
    } else {
      RunOne(st, c);
    }
  }

  lemma RunEscapedMore(st: State, text: string, mid: State, c: char)
    requires Run(st, text) == mid && mid.inQuote && !mid.escaped
    ensures Run(st, text + EscapeOne(c)) == mid.(cur := mid.cur + [c])
  {
    RunConcat(st, text, EscapeOne(c));
    RunEscapedOne(mid, c);
  }

  lemma Grown(cur: string, s: string)
    requires s != ""
    ensures cur + s[..|s| - 1] + [s[|s| - 1]] == cur + s
  {
  }

  /** Inside quotes, escaped text is read back character by character. */
  lemma {:induction false} RunEscaped(st: State, s: string)
    requires st.inQuote && !st.escaped
    ensures Run(st, Escaped(s)) == st.(cur := st.cur + s)
  {
    if s == "" {
      assert st.cur + s == st.cur;
    } else {
      var n := |s| - 1;
      RunEscaped(st, s[..n]);
      RunEscapedMore(st, Escaped(s[..n]), st.(cur := st.cur + s[..n]), s[n]);
      Grown(st.cur, s);
    }
  }

  lemma RunQuoted(st: State, s: string)
    requires !st.inQuote && !st.escaped
    ensures Run(st, Quoted(s)) == st.(cur := st.cur + s)
  {
    var inside := st.(inQuote := true);
    RunConcat(st, "\"" + Escaped(s), "\"");
    RunConcat(st, "\"", Escaped(s));
    RunOne(st, '"');
    RunEscaped(inside, s);
    RunOne(inside.(cur := st.cur + s), '"');
  }

  lemma {:induction false} RunBare(st: State, s: string)
    requires !st.inQuote && !st.escaped
    requires ',' !in s && '"' !in s && '\\' !in s
    ensures Run(st, s) == st.(cur := st.cur + s)
  {
    if s == "" {
      assert st.cur + s == st.cur;
    } else {
      var n := |s| - 1;
      RunBare(st, s[..n]);
      assert s == s[..n] + [s[n]];
      assert st.cur + s[..n] + [s[n]] == st.cur + s;
    }
  }

  lemma RunElement(st: State, e: Element)
    requires !st.inQuote && !st.escaped && Printable(e)
    ensures Run(st, ElementText(e)) == st.(cur := st.cur + e.text)
  {
    if e.bare { RunBare(st, e.text); } else { RunQuoted(st, e.text); }
  }

  /** A comma ends the current element and the next one follows. */
  lemma RunNext(text: string, done: seq<string>, cur: string, e: Element)
    requires Run(Start, text) == State(done, cur, false, false) && Printable(e)
    ensures Run(Start, text + "," + ElementText(e)) == State(done + [cur], e.text, false, false)
  {
    RunConcat(Start, text + ",", ElementText(e));
    RunConcat(Start, text, ",");
    RunOne(State(done, cur, false, false), ',');
    RunElement(State(done + [cur], "", false, false), e);
    assert "" + e.text == e.text;
  }

  lemma RunFirst(e: Element)
    requires Printable(e)
    ensures Run(Start, ElementText(e)) == State([], e.text, false, false)
  {
    RunElement(Start, e);
    assert "" + e.text == e.text;
  }

  lemma TextsSnoc(es: seq<Element>)
    requires es != []
    ensures Texts(es[..|es| - 1]) + [es[|es| - 1].text] == Texts(es)
  {
  }

  /** After a printed list the automaton holds all elements but the last, and the last one as current text. */
  lemma {:induction false} RunListed(es: seq<Element>)
    requires es != [] && forall i :: 0 <= i < |es| ==> Printable(es[i])
    ensures Run(Start, Listed(es)) == State(Texts(es[..|es| - 1]), es[|es| - 1].text, false, false)
  {
    var n := |es| - 1;
    var init := es[..n];
    if n == 0 {
      RunFirst(es[n]);
      assert Texts(init) == [];
    } else {
      RunListed(init);
      TextsSnoc(init);
      RunNext(Listed(init), Texts(init[..n - 1]), init[n - 1].text, es[n]);
    }
  }

  lemma ListedEmpty(es: seq<Element>)
    requires forall i :: 0 <= i < |es| ==> Printable(es[i])
    ensures Listed(es) == "" <==> es == []
  {
    if es != [] {
      assert ElementText(es[|es| - 1]) != "";
    }
  }

  lemma LiteralInside(es: seq<Element>)
    ensures |Literal(es)| == |Listed(es)| + 2 && Literal(es)[1..|Literal(es)| - 1] == Listed(es)
  {
  }

  lemma FinishListed(es: seq<Element>)
    requires es != []
    ensures Finish(State(Texts(es[..|es| - 1]), es[|es| - 1].text, false, false))
         == if Texts(es) == [""] then [] else Texts(es)
  {
    TextsSnoc(es);
    assert |Texts(es[..|es| - 1])| == |es| - 1;
  }

  /** What the parser makes of any printed list. */
  lemma ArrayOfLiteral(es: seq<Element>)
    requires forall i :: 0 <= i < |es| ==> Printable(es[i])
    ensures ArrayOf(Literal(es)) == if Texts(es) == [""] then [] else Texts(es)
  {
    LiteralInside(es);
    ListedEmpty(es);
    if es == [] {
      assert Literal(es) == "{}";
    } else {
      RunListed(es);
      FinishListed(es);
    }
  }

  /** Reading back what was printed gives the list, quoted or bare element by element, exactly when
      the list is not the one empty string. */
  lemma ParseUndoesPrint(es: seq<Element>)
    requires forall i :: 0 <= i < |es| ==> Printable(es[i])
    ensures ArrayOf(Literal(es)) == Texts(es) <==> Texts(es) != [""]
  {
    ArrayOfLiteral(es);
  }

  /** The round trip of the two methods, for every list of channels but the one empty name. */
  method SaveThenLoad(chans: seq<string>) returns (back: seq<string>)
    ensures back == if chans == [""] then [] else chans
  {
    var text := AutoJoinToDB(chans);
    LiteralInside(AllQuoted(chans));
    ArrayOfLiteral(AllQuoted(chans));
    assert Texts(AllQuoted(chans)) == chans;
    back := ParsePostgresArray(text);
  }
}
