/** How the words of a CAP line are found: only behind a colon. */
module CapLine {
  import opened GoStrings

  /** strings.Fields */
  function Fields(s: string): seq<string> {
    FieldsFrom(s, "")
  }

  /** `word` is the part of a field already read. */
  function FieldsFrom(s: string, word: string): seq<string> {
    if s == "" then Closed(word)
    else if IsSpace(s[0]) then Closed(word) + FieldsFrom(s[1..], "")
    else FieldsFrom(s[1..], word + [s[0]])
  }

  function Closed(word: string): seq<string> {
    if word == "" then [] else [word]
  }

  /** The text of the list among the parts behind the subcommand: everything from the first part with a
      colon on, and nothing if there is none. */
  function CapsText(parts: seq<string>): string {
    if parts == [] then ""
    else if StartsWith(parts[0], ':') then Join(parts, ' ')[1..]
    else CapsText(parts[1..])
  }

  /** Is there a `*` before the list? */
  predicate Continued(parts: seq<string>) {
    parts != [] && (parts[0] == "*" || (!StartsWith(parts[0], ':') && Continued(parts[1..])))
  }

  lemma JoinHead(parts: seq<string>, c: char)
    requires parts != [] && parts[0] != ""
    ensures Join(parts, c) != "" && Join(parts, c)[0] == parts[0][0]
  {
  }

  /** The loop over the parts of a line from behind the subcommand on. */
  method CollectCaps(parts: seq<string>, start: nat) returns (isContinuation: bool, caps: string)
    requires start <= |parts|
    ensures caps == CapsText(parts[start..])
    ensures isContinuation <==> Continued(parts[start..])
  {
    isContinuation, caps := false, "";
    for i := start to |parts|
      invariant caps == "" && CapsText(parts[start..]) == CapsText(parts[i..])
      invariant Continued(parts[start..]) <==> isContinuation || Continued(parts[i..])
    {
      assert parts[i..][1..] == parts[i + 1..];
      if parts[i] == "*" {
        isContinuation := true;
      } else if StartsWith(parts[i], ':') {
        caps := TrimPrefix(Join(parts[i..], ' '), ':');
        JoinHead(parts[i..], ' ');
        return;
      }
    }
  }

  // ---- Printed lists ----------------------------------------------------------------------------------

  predicate CapWord(w: string) {
    w != "" && !StartsWith(w, ':') && forall c :: c in w ==> !IsSpace(c)
  }

  /** A list as the last parameter of a line, cut into parts. */
  function ListParts(words: seq<string>, colon: bool): seq<string> {
    Split((if colon then ":" else "") + Join(words, ' '), ' ')
  }

  /** The words that the handlers go through. */
  function Heard(words: seq<string>, colon: bool): seq<string> {
    Fields(CapsText(ListParts(words, colon)))
  }

  lemma {:induction false} JoinSplit(s: string, c: char)
    ensures Join(Split(s, c), c) == s
    decreases |s|
  {
    var e := Index(s, c);
    if e >= 0 {
      JoinSplit(s[e + 1..], c);
      assert s == s[..e] + [c] + s[e + 1..];
    }
  }

  lemma {:induction false} FieldsWord(w: string, rest: string, word: string)
    requires forall c :: c in w ==> !IsSpace(c)
    ensures FieldsFrom(w + rest, word) == FieldsFrom(rest, word + w)
  {
    if w == "" {
      assert w + rest == rest && word + w == word;
    } else {
      assert (w + rest)[1..] == w[1..] + rest;
      FieldsWord(w[1..], rest, word + [w[0]]);
      assert word + [w[0]] + w[1..] == word + w;
    }
  }

  lemma {:induction false} FieldsJoin(words: seq<string>)
    requires forall i :: 0 <= i < |words| ==> CapWord(words[i])
    ensures Fields(Join(words, ' ')) == words
  {
    if |words| == 1 {
      FieldsWord(words[0], "", "");
      assert words[0] + "" == words[0] && "" + words[0] == words[0];
    } else if |words| > 1 {
      var rest := Join(words[1..], ' ');
      FieldsJoin(words[1..]);
      FieldsWord(words[0], [' '] + rest, "");
      assert words[0] + [' '] + rest == words[0] + ([' '] + rest) && "" + words[0] == words[0];
      assert ([' '] + rest)[1..] == rest;
      assert words == [words[0]] + words[1..];
    }
  }

  /** Any run of white space parts two fields, and no field holds any or is empty. */
  lemma {:induction false} FieldsParted(a: string, c: char, b: string, word: string)
    requires IsSpace(c)
    ensures FieldsFrom(a + [c] + b, word) == FieldsFrom(a, word) + Fields(b)
  {
    if a == "" {
      assert a + [c] + b == [c] + b && ([c] + b)[1..] == b;
    } else {
      assert (a + [c] + b)[1..] == a[1..] + [c] + b;
      FieldsParted(a[1..], c, b, if IsSpace(a[0]) then "" else word + [a[0]]);
    }
  }

  lemma {:induction false} FieldsAreWords(s: string, word: string)
    requires forall c :: c in word ==> !IsSpace(c)
    ensures forall f :: f in FieldsFrom(s, word) ==> f != "" && forall c :: c in f ==> !IsSpace(c)
  {
    if s != "" {
      FieldsAreWords(s[1..], if IsSpace(s[0]) then "" else word + [s[0]]);
    }
  }

  /** A list that goes on in the next line has a `*` before it, and is read the same. */
  lemma StarBefore(words: seq<string>)
    ensures !Continued(ListParts(words, true)) && Continued(["*"] + ListParts(words, true))
    ensures CapsText(["*"] + ListParts(words, true)) == CapsText(ListParts(words, true))
  {
    var parts := ListParts(words, true);
    ColonFirst(Join(words, ' '));
    assert (["*"] + parts)[1..] == parts;
  }

  lemma ColonFirst(text: string)
    ensures var parts := Split(":" + text, ' '); StartsWith(parts[0], ':')
  {
  }

  /** Behind a colon every list is heard as it is. */
  lemma HeardWithColon(words: seq<string>)
    requires forall i :: 0 <= i < |words| ==> CapWord(words[i])
    ensures Heard(words, true) == words
  {
    var text := Join(words, ' ');
    ColonFirst(text);
    JoinSplit(":" + text, ' ');
    assert (":" + text)[1..] == text;
    FieldsJoin(words);
  }

  /** Without one, a single word is not heard at all. */
  lemma HeardBare(words: seq<string>)
    requires |words| <= 1 && forall i :: 0 <= i < |words| ==> CapWord(words[i])
    ensures Heard(words, false) == []
  {
    var text := Join(words, ' ');
    assert "" + text == text;
    assert IsSpace(' ');
    assert ' ' !in text && !StartsWith(text, ':');
    assert Split(text, ' ') == [text] && CapsText([text]) == CapsText([text][1..]);
  }
}
