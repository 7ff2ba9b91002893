/** The fixed-capacity circular buffer behind every channel. */
module Ring {
  import opened Options

  /** The last `k` elements of a sequence. */
  function Last<T>(s: seq<T>, k: nat): (r: seq<T>)
    ensures |r| == if |s| < k then |s| else k
    ensures forall i :: 0 <= i < |r| ==> r[i] == s[|s| - |r| + i]
  {
    if |s| <= k then s else s[|s| - k..]
  }

  /** Keeping the last k after every push is keeping the last k of everything pushed. */
  lemma LastOfLast<T>(s: seq<T>, x: T, k: nat)
    requires k > 0
    ensures Last(Last(s, k) + [x], k) == Last(s + [x], k)
  {
  }

  /** The `n` entries that end just before position `head`, oldest first. */
  function Held<T>(buf: seq<T>, head: nat, n: nat): (r: seq<T>)
    requires head <= |buf| && n <= |buf|
    ensures |r| == n
  {
    if n <= head then buf[head - n..head] else buf[|buf| + head - n..] + buf[..head]
  }

  lemma HeldAt<T>(buf: seq<T>, head: nat, n: nat, i: nat)
    requires head < |buf| && i < n <= |buf|
    ensures var at := head + |buf| - n + i;
            Held(buf, head, n)[i] == buf[if at < |buf| then at else at - |buf|]
  {
  }

  /** Entry i after a write at `head`: the new one if it is the last, else an entry from before. */
  lemma HeldAtAfterPush<T>(buf: seq<T>, head: nat, n: nat, x: T, i: nat)
    requires head < |buf| && n <= |buf|
    requires i < if n < |buf| then n + 1 else n
    ensures var head' := if head + 1 < |buf| then head + 1 else 0;
            var n' := if n < |buf| then n + 1 else n;
            Held(buf[head := x], head', n')[i]
            == if i == n' - 1 then x else Held(buf, head, n)[i + n + 1 - n']
  {
    var n' := if n < |buf| then n + 1 else n;
    HeldAt(buf[head := x], if head + 1 < |buf| then head + 1 else 0, n', i);
    if i < n' - 1 {
      HeldAt(buf, head, n, i + n + 1 - n');
    }
  }

  /** Writing at `head` drops the oldest entry of a full buffer and appends to the rest. */
  lemma HeldAfterPush<T>(buf: seq<T>, head: nat, n: nat, x: T)
    requires head < |buf| && n <= |buf|
    ensures var head' := if head + 1 < |buf| then head + 1 else 0;
            var n' := if n < |buf| then n + 1 else n;
            Held(buf[head := x], head', n') == Last(Held(buf, head, n) + [x], |buf|)
  {
    var n' := if n < |buf| then n + 1 else n;
    var next := Held(buf[head := x], if head + 1 < |buf| then head + 1 else 0, n');
    var before := Held(buf, head, n);
    forall i | 0 <= i < n'
      ensures next[i] == Last(before + [x], |buf|)[i]
    {
      HeldAtAfterPush(buf, head, n, x, i);
    }
  }

  class RingBuffer<T(0)> {
    const buf: array<T>
    var head: nat  // next write position
    var n: nat     // number of valid entries
    const cap: nat
    /** Everything ever pushed. */
    ghost var log: seq<T>

    ghost predicate Valid()
      reads this, buf
    {
      && cap > 0 && buf.Length == cap && head < cap && n <= cap
      && Held(buf[..], head, n) == Last(log, cap)
    }

    ghost function Contents(): (r: seq<T>)
      reads this, buf
      requires Valid()
    {
      Last(log, cap)
    }

    constructor (cap: nat)
      requires cap > 0
      ensures Valid() && fresh(buf) && this.cap == cap && log == [] && Contents() == []
    {
      this.buf := new T[cap];
      this.cap := cap;
      this.head := 0;
      this.n := 0;
      this.log := [];
    }

    method Push(line: T)
      requires Valid()
      modifies this, buf
      ensures Valid() && log == old(log) + [line]
      ensures Contents() == Last(old(Contents()) + [line], cap)
    {
      HeldAfterPush(buf[..], head, n, line);
      LastOfLast(log, line, cap);
      buf[head] := line;
      assert buf[..] == old(buf[..])[head := line];
      head := Wrap(head + 1, cap);
      if n < cap {
        n := n + 1;
      }
      log := log + [line];
    }

    /** The oldest line still held, if any line is. */
    method OldestLine() returns (line: Option<T>)
      requires Valid()
      ensures line == if Contents() == [] then None else Some(Contents()[0])
    {
      if n == 0 {
        return None;
      }
      var start := Wrap(head + cap - n, cap);
      HeldAt(buf[..], head, n, 0);
      line := Some(buf[start]);
    }

    method Lines() returns (lines: seq<T>)
      requires Valid()
      ensures lines == Contents()
    {
      if n == 0 {
        return [];
      }
      ghost var held := Held(buf[..], head, n);
      var out := new T[n];
      var start := Wrap(head + cap - n, cap);
      for i := 0 to n
        invariant buf[..] == old(buf[..])
        invariant forall k :: 0 <= k < i ==> out[k] == held[k]
      {
        HeldAt(buf[..], head, n, i);
        var at := Wrap(start + i, cap);
        assert buf[..][at] == held[i];
        out[i] := buf[at];
      }
      lines := out[..];
    }
  }

  /** The source's `% cap` on a position less than two laps round. */
  function Wrap(x: nat, cap: nat): (r: nat)
    requires 0 < cap && x < 2 * cap
    ensures r == if x < cap then x else x - cap
  {
    WrapIsMod(x, cap);
    x % cap
  }

  lemma WrapIsMod(x: nat, cap: nat)
    requires 0 < cap && x < 2 * cap
    ensures x % cap == if x < cap then x else x - cap
  {
    if x >= cap {
      assert x == cap * 1 + (x - cap);
      assert (x - cap) % cap == x - cap;
      assert x % cap == (x - cap) % cap;
    }
  }
}
