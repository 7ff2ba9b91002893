/** The parts of Go's `strings` package that the modelled code uses, as functions on `string`. */
module GoStrings {

  /** strings.Index for a one-character needle: the first position of `c`, or -1. */
  function Index(s: string, c: char): (r: int)
    ensures -1 <= r < |s|
    ensures r >= 0 ==> s[r] == c && c !in s[..r]
    ensures r < 0 ==> c !in s
  {
    FirstFrom(s, c, 0);
    IndexFrom(s, c, 0)
  }

  function IndexFrom(s: string, c: char, i: nat): (r: int)
    requires i <= |s|
    ensures -1 <= r < |s|
    decreases |s| - i
  {
    if i == |s| then -1
    else if s[i] == c then i
    else IndexFrom(s, c, i + 1)
  }

  lemma {:induction false} FirstFrom(s: string, c: char, i: nat)
    requires i <= |s|
    ensures var r := IndexFrom(s, c, i);
            && (r >= 0 ==> i <= r && s[r] == c && c !in s[i..r])
            && (r < 0 ==> c !in s[i..])
    decreases |s| - i
  {
    if i < |s| && s[i] != c {
      FirstFrom(s, c, i + 1);
      var r := IndexFrom(s, c, i);
      if r >= 0 {
        assert s[i..r] == [s[i]] + s[i + 1..r];
      } else {
        assert s[i..] == [s[i]] + s[i + 1..];
      }
    }
  }

  lemma {:induction false} IndexFromIs(s: string, c: char, k: nat, i: nat)
    requires i <= k < |s| && s[k] == c && c !in s[..k]
    ensures IndexFrom(s, c, i) == k
    decreases k - i
  {
    if i < k {
      assert s[..k][i] == s[i];
      IndexFromIs(s, c, k, i + 1);
    }
  }

  lemma IndexAfter(a: string, c: char, b: string)
    requires c !in a
    ensures Index(a + [c] + b, c) == |a|
  {
    var s := a + [c] + b;
    assert s[..|a|] == a;
    IndexFromIs(s, c, |a|, 0);
  }

  lemma CutAfter(a: string, c: char, b: string)
    requires c !in a
    ensures var s := a + [c] + b; Index(s, c) == |a| && s[..|a|] == a && s[|a| + 1..] == b
  {
    IndexAfter(a, c, b);
  }

  /** strings.HasPrefix for a one-character prefix. */
  predicate StartsWith(s: string, c: char) {
    s != "" && s[0] == c
  }

  function TrimPrefix(s: string, c: char): string {
    if StartsWith(s, c) then s[1..] else s
  }

  /** strings.Split on a one-character separator. */
  function Split(s: string, c: char): (parts: seq<string>)
    ensures |parts| > 0
    decreases |s|
  {
    var e := Index(s, c);
    if e < 0 then [s] else [s[..e]] + Split(s[e + 1..], c)
  }

  /** strings.SplitN on a one-character separator: at most `n` parts, the last one unsplit. */
  function SplitN(s: string, c: char, n: nat): seq<string>
    decreases n
  {
    if n <= 1 then [s]
    else
      var e := Index(s, c);
      if e < 0 then [s] else [s[..e]] + SplitN(s[e + 1..], c, n - 1)
  }

  lemma TailOfTail(s: string, i: nat, k: nat)
    requires i + k <= |s|
    ensures s[i..][k..] == s[i + k..]
  {
  }

  /** What lies before and behind position `end` of a tail. */
  lemma CutTail(s: string, start: nat, end: nat)
    requires start + end < |s|
    ensures s[start..][..end] == s[start..start + end] && s[start..][end + 1..] == s[start + end + 1..]
  {
  }

  lemma SplitFirst(a: string, c: char, b: string)
    requires c !in a
    ensures Split(a + [c] + b, c) == [a] + Split(b, c)
  {
    CutAfter(a, c, b);
  }

  lemma SplitNFirst(a: string, c: char, b: string, n: nat)
    requires c !in a && n > 1
    ensures SplitN(a + [c] + b, c, n) == [a] + SplitN(b, c, n - 1)
  {
    IndexAfter(a, c, b);
    var s := a + [c] + b;
    assert s[..|a|] == a && s[|a| + 1..] == b;
  }

  function Join(parts: seq<string>, c: char): string {
    if parts == [] then ""
    else if |parts| == 1 then parts[0]
    else parts[0] + [c] + Join(parts[1..], c)
  }

  /** Splitting undoes joining when no part holds the separator. */
  lemma {:induction false} SplitJoin(parts: seq<string>, c: char)
    requires parts != []
    requires forall i :: 0 <= i < |parts| ==> c !in parts[i]
    ensures Split(Join(parts, c), c) == parts
  {
    if |parts| == 1 {
      assert Index(parts[0], c) < 0;
    } else {
      var rest := Join(parts[1..], c);
      IndexAfter(parts[0], c, rest);
      var s := parts[0] + [c] + rest;
      assert s[..|parts[0]|] == parts[0] && s[|parts[0]| + 1..] == rest;
      SplitJoin(parts[1..], c);
    }
  }

  /** No part of a split holds the separator, and every part is made of characters of `s`. */
  lemma {:induction false} SplitParts(s: string, c: char)
    ensures forall i :: 0 <= i < |Split(s, c)| ==> c !in Split(s, c)[i]
    ensures forall i, x :: 0 <= i < |Split(s, c)| && x in Split(s, c)[i] ==> x in s
    decreases |s|
  {
    var e := Index(s, c);
    if e >= 0 {
      var rest := Split(s[e + 1..], c);
      SplitParts(s[e + 1..], c);
      forall i, x | 0 <= i < |Split(s, c)| && x in Split(s, c)[i]
        ensures x in s
      {
        assert i > 0 ==> x in rest[i - 1] && x in s[e + 1..];
      }
    }
  }

  function UpperChar(c: char): char {
    if 'a' <= c <= 'z' then c - 'a' + 'A' else c
  }

  /** strings.ToUpper on the ASCII letters. */
  function ToUpper(s: string): (u: string)
    ensures |u| == |s|
    ensures forall i :: 0 <= i < |s| ==> u[i] == UpperChar(s[i])
  {
    seq(|s|, i requires 0 <= i < |s| => UpperChar(s[i]))
  }

  /** Letter by letter: position k of the one alphabet becomes position k of the other, all else stays. */
  lemma ToUpperLetters(s: string, i: nat)
    requires i < |s|
    ensures (exists k :: 0 <= k < 26 && s[i] == "abcdefghijklmnopqrstuvwxyz"[k]
                         && ToUpper(s)[i] == "ABCDEFGHIJKLMNOPQRSTUVWXYZ"[k])
            || (s[i] !in "abcdefghijklmnopqrstuvwxyz" && ToUpper(s)[i] == s[i])
  {
    if 'a' <= s[i] <= 'z' {
      var k := s[i] as int - 'a' as int;
      Alphabet(k);
      assert s[i] == "abcdefghijklmnopqrstuvwxyz"[k];
    }
  }

  lemma Alphabet(k: nat)
    requires k < 26
    ensures "abcdefghijklmnopqrstuvwxyz"[k] as int == 'a' as int + k
    ensures "ABCDEFGHIJKLMNOPQRSTUVWXYZ"[k] as int == 'A' as int + k
  {
  }

  lemma ToUpperIdempotent(s: string)
    ensures ToUpper(ToUpper(s)) == ToUpper(s)
  {
  }

  /** Upper-casing neither makes nor removes a character that is not a letter. */
  lemma ToUpperKeeps(s: string, c: char)
    requires !('a' <= c <= 'z') && !('A' <= c <= 'Z')
    ensures c in ToUpper(s) <==> c in s
    ensures StartsWith(ToUpper(s), c) <==> StartsWith(s, c)
  {
    if c in s {
      var i :| 0 <= i < |s| && s[i] == c;
      assert ToUpper(s)[i] == c;
    }
  }

  /** strings.TrimRight / TrimRightFunc. */
  function TrimRight(s: string, drop: char -> bool): (r: string)
    ensures r <= s
    ensures r != "" ==> !drop(r[|r| - 1])
    ensures forall i :: |r| <= i < |s| ==> drop(s[i])
  {
    s[..KeptLength(s, drop, |s|)]
  }

  /** How much of the first `n` characters is left when their end is trimmed. */
  function KeptLength(s: string, drop: char -> bool, n: nat): (k: nat)
    requires n <= |s|
    ensures k <= n && (k > 0 ==> !drop(s[k - 1]))
    ensures forall i :: k <= i < n ==> drop(s[i])
  {
    if n > 0 && drop(s[n - 1]) then KeptLength(s, drop, n - 1) else n
  }

  /** There is only one way to trim. */
  lemma TrimRightIs(s: string, drop: char -> bool, r: string)
    requires r <= s && (r == "" || !drop(r[|r| - 1]))
    requires forall i :: |r| <= i < |s| ==> drop(s[i])
    ensures TrimRight(s, drop) == r
  {
    var t := TrimRight(s, drop);
    assert t == s[..|t|] && r == s[..|r|];
  }

  lemma TrimRightKeeps(s: string, drop: char -> bool)
    requires s == "" || !drop(s[|s| - 1])
    ensures TrimRight(s, drop) == s
  {
    TrimRightIs(s, drop, s);
  }

  /** Trimming a concatenation only trims its last part, unless that part vanishes. */
  lemma TrimRightConcat(a: string, b: string, drop: char -> bool)
    requires TrimRight(b, drop) != "" || a == "" || !drop(a[|a| - 1])
    ensures TrimRight(a + b, drop) == a + TrimRight(b, drop)
  {
    var kept := TrimRight(b, drop);
    assert a + kept <= a + b;
    forall i | |a + kept| <= i < |a + b|
      ensures drop((a + b)[i])
    {
      assert (a + b)[i] == b[i - |a|];
    }
    TrimRightIs(a + b, drop, a + kept);
  }

  /** strings.TrimLeft / TrimLeftFunc. */
  function TrimLeft(s: string, drop: char -> bool): string {
    s[DroppedLength(s, drop, 0)..]
  }

  function DroppedLength(s: string, drop: char -> bool, n: nat): (k: nat)
    requires n <= |s|
    ensures n <= k <= |s| && (k < |s| ==> !drop(s[k]))
    ensures forall i :: n <= i < k ==> drop(s[i])
    decreases |s| - n
  {
    if n < |s| && drop(s[n]) then DroppedLength(s, drop, n + 1) else n
  }

  /** unicode.IsSpace. */
  predicate IsSpace(c: char) {
    var u := c as int;
    0x09 <= u <= 0x0D || u == 0x20 || u == 0x85 || u == 0xA0 || u == 0x1680
    || 0x2000 <= u <= 0x200A || u == 0x2028 || u == 0x2029 || u == 0x202F || u == 0x205F || u == 0x3000
  }

  /** The 25 characters with the White_Space property. */
  lemma SpacesAre(c: char)
    ensures IsSpace(c) <==>
            c as int in {9, 10, 11, 12, 13, 32, 133, 160, 5760, 8192, 8193, 8194, 8195, 8196, 8197, 8198, 8199, 8200,
                         8201, 8202, 8232, 8233, 8239, 8287, 12288}
  {
  }

  function TrimSpace(s: string): string {
    TrimRight(TrimLeft(s, IsSpace), IsSpace)
  }

  lemma {:induction false} DroppedIs(s: string, drop: char -> bool, n: nat, k: nat)
    requires n <= k <= |s| && (k < |s| ==> !drop(s[k])) && forall i :: n <= i < k ==> drop(s[i])
    ensures DroppedLength(s, drop, n) == k
    decreases k - n
  {
    if n < k {
      DroppedIs(s, drop, n + 1, k);
    }
  }

  lemma TrimLeftIs(s: string, drop: char -> bool, k: nat)
    requires k <= |s| && (k < |s| ==> !drop(s[k])) && forall i :: 0 <= i < k ==> drop(s[i])
    ensures TrimLeft(s, drop) == s[k..]
  {
    DroppedIs(s, drop, 0, k);
  }

  /** Only the white space at the two ends goes. */
  lemma TrimSpaceIs(a: string, w: string, b: string)
    requires forall c :: c in a || c in b ==> IsSpace(c)
    requires w == "" || (!IsSpace(w[0]) && !IsSpace(w[|w| - 1]))
    ensures TrimSpace(a + w + b) == w
  {
    var s := a + w + b;
    if w == "" {
      TrimLeftIs(s, IsSpace, |s|);
      TrimRightIs("", IsSpace, "");
    } else {
      TrimLeftIs(s, IsSpace, |a|);
      assert s[|a|..] == w + b && w <= w + b;
      TrimRightIs(w + b, IsSpace, w);
    }
  }

  predicate IsBlank(c: char) {
    c == ' '
  }

  predicate IsCRLF(c: char) {
    c == '\r' || c == '\n'
  }

  /** strings.Repeat of one character. */
  function Repeat(c: char, n: nat): (r: string)
    ensures |r| == n
    ensures forall i :: 0 <= i < n ==> r[i] == c
  {
    seq(n, i => c)
  }

  function Count(s: string, c: char): nat {
    if s == "" then 0 else (if s[0] == c then 1 else 0) + Count(s[1..], c)
  }
}
