/** The browser decodes tag values with five chained regular-expression replacements.
    This module finds exactly the values on which that agrees with the server's unescaping. */
module BrowserTags {
  import opened GoStrings
  import opened TagEscape

  /** str.replace(/\\b/g, fill): every backslash followed by `b`, left to right, without overlap. */
  function ReplacePair(s: string, b: char, fill: char): string {
    if |s| < 2 then s
    else if s[0] == '\\' && s[1] == b then [fill] + ReplacePair(s[2..], b, fill)
    else [s[0]] + ReplacePair(s[1..], b, fill)
  }

  function BrowserDecode(s: string): string {
    var s1 := ReplacePair(s, ':', ';');
    var s2 := ReplacePair(s1, 's', ' ');
    var s3 := ReplacePair(s2, 'r', '\r');
    var s4 := ReplacePair(s3, 'n', '\n');
    ReplacePair(s4, '\\', '\\')
  }

  /** A backslash directly followed by one of the four escape letters. */
  predicate Misread(v: string) {
    exists i :: 0 <= i < |v| - 1 && v[i] == '\\' && v[i + 1] in {':', 's', 'r', 'n'}
  }

  // ---- Values without such a pair decode correctly -------------------------------------------

  function Letter(k: nat): char {
    if k == 0 then ':' else if k == 1 then 's' else if k == 2 then 'r' else if k == 3 then 'n' else '\\'
  }

  function Target(k: nat): char {
    if k == 0 then ';' else if k == 1 then ' ' else if k == 2 then '\r' else if k == 3 then '\n' else '\\'
  }

  /** Escaping restricted to the characters that passes k, k+1, ... still have to undo. */
  function EscapeFrom(v: string, k: nat): string {
    if v == "" then "" else EscapeCharFrom(v[0], k) + EscapeFrom(v[1..], k)
  }

  function Rank(c: char): int {
    if c == ';' then 0 else if c == ' ' then 1 else if c == '\r' then 2 else if c == '\n' then 3
    else if c == '\\' then 4 else -1
  }

  function EscapeCharFrom(c: char, k: nat): string {
    if Rank(c) >= k then EscapeChar(c) else [c]
  }

  lemma {:induction false} EscapeFromZero(v: string)
    ensures EscapeFrom(v, 0) == EscapeEach(v)
  {
    if v != "" {
      EscapeFromZero(v[1..]);
    }
  }

  lemma KeepHead(c: char, rest: string, b: char, fill: char)
    requires c != '\\' || rest == "" || rest[0] != b
    ensures ReplacePair([c] + rest, b, fill) == [c] + ReplacePair(rest, b, fill)
  {
    assert ([c] + rest)[1..] == rest;
  }

  lemma KeepTwo(x: char, rest: string, b: char, fill: char)
    requires x != b && (x != '\\' || rest == "" || rest[0] != b)
    ensures ReplacePair(['\\', x] + rest, b, fill) == ['\\', x] + ReplacePair(rest, b, fill)
  {
    KeepHead(x, rest, b, fill);
    KeepHead('\\', [x] + rest, b, fill);
    assert ['\\', x] + rest == ['\\'] + ([x] + rest);
  }

  lemma TakePair(b: char, rest: string, fill: char)
    ensures ReplacePair(['\\', b] + rest, b, fill) == [fill] + ReplacePair(rest, b, fill)
  {
    assert (['\\', b] + rest)[2..] == rest;
  }

  /** How pass k treats the first character of a partly escaped value. */
  lemma PassHead(c: char, rest: string, k: nat)
    requires k < 4
    requires c != '\\' || rest == "" || rest[0] != Letter(k)
    ensures ReplacePair(EscapeCharFrom(c, k) + rest, Letter(k), Target(k))
         == EscapeCharFrom(c, k + 1) + ReplacePair(rest, Letter(k), Target(k))
  {
    var b, fill := Letter(k), Target(k);
    if Rank(c) == k {
      TakePair(b, rest, fill);
    } else if Rank(c) > k {
      KeepTwo(Letter(Rank(c)), rest, b, fill);
    } else {
      KeepHead(c, rest, b, fill);
    }
  }

  /** Pass k undoes the escaping of its own character and nothing else. */
  lemma {:induction false} GoodPass(v: string, k: nat)
    requires k < 4
    requires forall i :: 0 <= i < |v| - 1 && v[i] == '\\' ==> v[i + 1] != Letter(k)
    ensures ReplacePair(EscapeFrom(v, k), Letter(k), Target(k)) == EscapeFrom(v, k + 1)
  {
    if v != "" {
      var w := v[1..];
      forall i | 0 <= i < |w| - 1 && w[i] == '\\'
        ensures w[i + 1] != Letter(k)
      {
        assert v[i + 1] == '\\';
      }
      GoodPass(w, k);
      if w != "" && v[0] == '\\' {
        EscapeFromHead(w, k);
      }
      PassHead(v[0], EscapeFrom(w, k), k);
    }
  }

  lemma EscapeFromHead(v: string, k: nat)
    requires k < 4 && v != "" && v[0] != Letter(k)
    ensures EscapeFrom(v, k) != "" && EscapeFrom(v, k)[0] != Letter(k)
  {
  }

  lemma {:induction false} LastPass(v: string)
    ensures ReplacePair(EscapeFrom(v, 4), '\\', '\\') == v
  {
    if v != "" {
      var rest := EscapeFrom(v[1..], 4);
      LastPass(v[1..]);
      if v[0] == '\\' {
        TakePair('\\', rest, '\\');
      } else {
        KeepHead(v[0], rest, '\\', '\\');
      }
      assert v == [v[0]] + v[1..];
    }
  }

  lemma DecodeGood(v: string)
    requires !Misread(v)
    ensures BrowserDecode(EscapeEach(v)) == v
  {
    EscapeFromZero(v);
    assert ReplacePair(EscapeFrom(v, 0), ':', ';') == EscapeFrom(v, 1) by { GoodPass(v, 0); }
    assert ReplacePair(EscapeFrom(v, 1), 's', ' ') == EscapeFrom(v, 2) by { GoodPass(v, 1); }
    assert ReplacePair(EscapeFrom(v, 2), 'r', '\r') == EscapeFrom(v, 3) by { GoodPass(v, 2); }
    assert ReplacePair(EscapeFrom(v, 3), 'n', '\n') == EscapeFrom(v, 4) by { GoodPass(v, 3); }
    LastPass(v);
  }

  // ---- Every such pair is turned into one delimiter too many ----------------------------------

  function Pairs(s: string, b: char): nat {
    if |s| < 2 then 0 else (if s[0] == '\\' && s[1] == b then 1 else 0) + Pairs(s[1..], b)
  }

  lemma {:induction false} PairsFound(s: string, i: nat, b: char)
    requires i < |s| - 1 && s[i] == '\\' && s[i + 1] == b
    ensures Pairs(s, b) > 0
  {
    if i > 0 {
      PairsFound(s[1..], i - 1, b);
    }
  }

  lemma {:induction false} CountOwn(s: string, b: char, fill: char)
    requires b != '\\' && fill != '\\' && fill != b
    ensures Count(ReplacePair(s, b, fill), fill) == Count(s, fill) + Pairs(s, b)
    decreases |s|
  {
    if |s| >= 2 {
      if s[0] == '\\' && s[1] == b {
        CountOwn(s[2..], b, fill);
        assert s[1..][1..] == s[2..];
        assert ReplacePair(s, b, fill)[1..] == ReplacePair(s[2..], b, fill);
      } else {
        CountOwn(s[1..], b, fill);
        assert ReplacePair(s, b, fill)[1..] == ReplacePair(s[1..], b, fill);
      }
    } else if |s| == 1 {
      assert s[1..] == "";
    }
  }

  lemma {:induction false} CountOther(s: string, b: char, fill: char, x: char)
    requires x != '\\' && x != b && x != fill
    ensures Count(ReplacePair(s, b, fill), x) == Count(s, x)
    decreases |s|
  {
    if |s| >= 2 {
      if s[0] == '\\' && s[1] == b {
        CountOther(s[2..], b, fill, x);
        assert s[1..][1..] == s[2..];
        assert ReplacePair(s, b, fill)[1..] == ReplacePair(s[2..], b, fill);
      } else {
        CountOther(s[1..], b, fill, x);
        assert ReplacePair(s, b, fill)[1..] == ReplacePair(s[1..], b, fill);
      }
    }
  }

  lemma {:induction false} PairsOther(s: string, b: char, fill: char, b2: char)
    requires b != '\\' && fill != '\\' && b2 != '\\' && b2 != b && fill != b2
    ensures Pairs(ReplacePair(s, b, fill), b2) == Pairs(s, b2)
    decreases |s|
  {
    if |s| >= 2 {
      var r := ReplacePair(s, b, fill);
      if s[0] == '\\' && s[1] == b {
        PairsOther(s[2..], b, fill, b2);
        assert s[1..][1..] == s[2..];
        assert r[1..] == ReplacePair(s[2..], b, fill);
      } else {
        PairsOther(s[1..], b, fill, b2);
        assert r[1..] == ReplacePair(s[1..], b, fill);
      }
    }
  }

  /** In an escaped value, the pairs of pass k are the delimiters it stands for plus the pairs already in
      the value. */
  lemma {:induction false} PairsOfEscaped(v: string, k: nat)
    requires k < 4
    ensures Pairs(EscapeEach(v), Letter(k)) == Count(v, Target(k)) + Pairs(v, Letter(k))
  {
    if v != "" {
      var e, rest := EscapeChar(v[0]), EscapeEach(v[1..]);
      PairsOfEscaped(v[1..], k);
      PairsHead(e, rest, Letter(k));
      EscapedHead(v[1..], k);
    }
  }

  /** Escaping neither makes nor removes a letter at the front. */
  lemma EscapedHead(v: string, k: nat)
    requires k < 4
    ensures var e := EscapeEach(v);
            (e == "" <==> v == "") && (v != "" ==> (e[0] == Letter(k) <==> v[0] == Letter(k)))
  {
  }

  /** No delimiter is left in an escaped value. */
  lemma {:induction false} NoneEscaped(v: string, k: nat)
    requires k < 4
    ensures Count(EscapeEach(v), Target(k)) == 0
  {
    if v != "" {
      NoneEscaped(v[1..], k);
      CountHead(EscapeChar(v[0]), EscapeEach(v[1..]), Target(k));
    }
  }

  /** The pairs of a text behind one escaped character. */
  lemma PairsHead(e: string, rest: string, b: char)
    requires |e| == 1 || (|e| == 2 && e[0] == '\\')
    ensures Pairs(e + rest, b)
         == Pairs(rest, b)
            + (if |e| == 2 then (if e[1] == b then 1 else 0) else 0)
            + (if e[|e| - 1] == '\\' && rest != "" && rest[0] == b then 1 else 0)
  {
    if |e| == 1 {
      assert (e + rest)[1..] == rest;
    } else {
      assert (e + rest)[1..] == [e[1]] + rest;
      assert ([e[1]] + rest)[1..] == rest;
    }
  }

  lemma CountHead(e: string, rest: string, x: char)
    requires |e| == 1 || |e| == 2
    ensures Count(e + rest, x)
         == Count(rest, x) + (if e[0] == x then 1 else 0) + (if |e| == 2 && e[1] == x then 1 else 0)
  {
    if |e| == 1 {
      assert (e + rest)[1..] == rest;
    } else {
      assert (e + rest)[1..] == [e[1]] + rest;
      assert ([e[1]] + rest)[1..] == rest;
    }
  }

  lemma {:induction false} CountDecoded(v: string, k: nat)
    requires k < 4
    ensures Count(BrowserDecode(EscapeEach(v)), Target(k)) == Count(v, Target(k)) + Pairs(v, Letter(k))
  {
    PairsOfEscaped(v, k);
    NoneEscaped(v, k);
    var s0 := EscapeEach(v);
    var s1 := ReplacePair(s0, ':', ';');
    var s2 := ReplacePair(s1, 's', ' ');
    var s3 := ReplacePair(s2, 'r', '\r');
    var s4 := ReplacePair(s3, 'n', '\n');
    var b, t := Letter(k), Target(k);
    if k == 0 { CountOwn(s0, b, t); } else { CountOther(s0, ':', ';', t); PairsOther(s0, ':', ';', b); }
    if k == 1 { CountOwn(s1, b, t); } else { CountOther(s1, 's', ' ', t); if k > 1 { PairsOther(s1, 's', ' ', b); } }
    if k == 2 { CountOwn(s2, b, t); } else { CountOther(s2, 'r', '\r', t); if k > 2 { PairsOther(s2, 'r', '\r', b); } }
    if k == 3 { CountOwn(s3, b, t); } else { CountOther(s3, 'n', '\n', t); }
    CountOther(s4, '\\', '\\', t);
  }

  /** The browser reads back what the server escaped exactly when the value holds no backslash
      directly followed by `:`, `s`, `r` or `n`; in particular on every value without a backslash. */
  lemma BrowserAgrees(v: string)
    ensures BrowserDecode(EscapeTagValue(v)) == Unescape(EscapeTagValue(v)) <==> !Misread(v)
    ensures '\\' !in v ==> !Misread(v)
  {
    PassesAreOneMap(v);
    EscapeRoundTrip(v);
    if Misread(v) {
      var i :| 0 <= i < |v| - 1 && v[i] == '\\' && v[i + 1] in {':', 's', 'r', 'n'};
      var k := if v[i + 1] == ':' then 0 else if v[i + 1] == 's' then 1 else if v[i + 1] == 'r' then 2 else 3;
      PairsFound(v, i, Letter(k));
      CountDecoded(v, k);
    } else {
      DecodeGood(v);
    }
  }

  /** The smallest such value: a backslash and an `s`. */
  lemma BrowserMisreads()
    ensures Unescape(EscapeTagValue("\\s")) == "\\s"
    ensures BrowserDecode(EscapeTagValue("\\s")) != "\\s"
  {
    EscapeRoundTrip("\\s");
    assert "\\s"[0] == '\\' && "\\s"[1] == 's';
    BrowserAgrees("\\s");
  }
}
