/** Sorting messages by time: what a stable sort is, that there is only one, and what its tail holds. */
module StableSort {
  import opened Options

  /** A message as the client keeps it: an id ("" for none), and a time in milliseconds if it has one. */
  datatype Msg = Msg(id: string, nick: string, time: Option<int>, text: string)

  function When(m: Msg): int {
    if m.time.Some? then m.time.value else 0
  }

  predicate AllTimed(xs: seq<Msg>) {
    forall i :: 0 <= i < |xs| ==> xs[i].time.Some?
  }

  predicate Sorted(xs: seq<Msg>) {
    forall i, j :: 0 <= i < j < |xs| ==> When(xs[i]) <= When(xs[j])
  }

  /** The messages of one time, in order. */
  function OfTime(xs: seq<Msg>, t: int): seq<Msg> {
    if xs == [] then []
    else OfTime(xs[..|xs| - 1], t) + if When(xs[|xs| - 1]) == t then [xs[|xs| - 1]] else []
  }

  /** In time order, and messages of the same time keep their order. */
  ghost predicate IsStableSort(xs: seq<Msg>, ys: seq<Msg>) {
    Sorted(ys) && forall t :: OfTime(ys, t) == OfTime(xs, t)
  }

  /** Insert behind everything that is not later. */
  function Insert(ys: seq<Msg>, m: Msg): seq<Msg> {
    if ys == [] || When(ys[|ys| - 1]) <= When(m) then ys + [m]
    else Insert(ys[..|ys| - 1], m) + [ys[|ys| - 1]]
  }

  /** A reference sort. */
  function InTimeOrder(xs: seq<Msg>): seq<Msg> {
    if xs == [] then [] else Insert(InTimeOrder(xs[..|xs| - 1]), xs[|xs| - 1])
  }

  lemma OfTimeSnoc(xs: seq<Msg>, m: Msg, t: int)
    ensures OfTime(xs + [m], t) == OfTime(xs, t) + if When(m) == t then [m] else []
  {
    assert (xs + [m])[..|xs + [m]| - 1] == xs;
  }

  lemma {:induction false} OfTimeLater(xs: seq<Msg>, t: int)
    requires forall i :: 0 <= i < |xs| ==> When(xs[i]) != t
    ensures OfTime(xs, t) == []
  {
    if xs != [] {
      OfTimeLater(xs[..|xs| - 1], t);
    }
  }

  lemma {:induction false} InsertSorted(ys: seq<Msg>, m: Msg)
    requires Sorted(ys)
    ensures Sorted(Insert(ys, m))
    ensures forall i :: 0 <= i < |Insert(ys, m)| ==> Insert(ys, m)[i] == m || Insert(ys, m)[i] in ys
  {
    if !(ys == [] || When(ys[|ys| - 1]) <= When(m)) {
      InsertSorted(ys[..|ys| - 1], m);
    }
  }

  lemma {:induction false} InsertPermutes(ys: seq<Msg>, m: Msg)
    ensures multiset(Insert(ys, m)) == multiset(ys) + multiset{m}
  {
    if !(ys == [] || When(ys[|ys| - 1]) <= When(m)) {
      InsertPermutes(ys[..|ys| - 1], m);
      assert ys == ys[..|ys| - 1] + [ys[|ys| - 1]];
    }
  }

  /** Messages of different times may change places. */
  lemma OfTimeSwapped(base: seq<Msg>, m: Msg, last: Msg, t: int)
    requires When(m) != When(last)
    ensures base + (if When(m) == t then [m] else []) + (if When(last) == t then [last] else [])
         == base + (if When(last) == t then [last] else []) + (if When(m) == t then [m] else [])
  {
  }

  lemma {:induction false} InsertKeepsTimes(ys: seq<Msg>, m: Msg, t: int)
    requires Sorted(ys)
    ensures OfTime(Insert(ys, m), t) == OfTime(ys, t) + if When(m) == t then [m] else []
  {
    if ys == [] || When(ys[|ys| - 1]) <= When(m) {
      OfTimeSnoc(ys, m, t);
    } else {
      var n := |ys| - 1;
      var init, last := ys[..n], ys[n];
      InsertKeepsTimes(init, m, t);
      OfTimeSnoc(Insert(init, m), last, t);
      OfTimeSnoc(init, last, t);
      assert ys == init + [last];
      OfTimeSwapped(OfTime(init, t), m, last, t);
    }
  }

  lemma {:induction false} InTimeOrderIsStable(xs: seq<Msg>)
    ensures IsStableSort(xs, InTimeOrder(xs)) && multiset(InTimeOrder(xs)) == multiset(xs)
  {
    if xs != [] {
      var n := |xs| - 1;
      var ys := InTimeOrder(xs[..n]);
      InTimeOrderIsStable(xs[..n]);
      InsertSorted(ys, xs[n]);
      InsertPermutes(ys, xs[n]);
      assert xs == xs[..n] + [xs[n]];
      forall t
        ensures OfTime(InTimeOrder(xs), t) == OfTime(xs, t)
      {
        InsertKeepsTimes(ys, xs[n], t);
      }
    }
  }

  lemma OfTimeAtMax(ys: seq<Msg>)
    requires ys != []
    ensures var t := OfTime(ys, When(ys[|ys| - 1])); t != [] && t[|t| - 1] == ys[|ys| - 1]
  {
  }

  /** There is only one stable sort. */
  lemma {:induction false} StableSortUnique(xs: seq<Msg>, ys: seq<Msg>)
    requires Sorted(xs) && Sorted(ys) && forall t :: OfTime(xs, t) == OfTime(ys, t)
    ensures xs == ys
  {
    if xs == [] {
      if ys != [] {
        OfTimeAtMax(ys);
      }
    } else if ys == [] {
      OfTimeAtMax(xs);
    } else {
      var n, m := |xs| - 1, |ys| - 1;
      OfTimeAtMax(xs);
      OfTimeAtMax(ys);
      if When(xs[n]) > When(ys[m]) {
        OfTimeLater(ys, When(xs[n]));
      } else if When(ys[m]) > When(xs[n]) {
        OfTimeLater(xs, When(ys[m]));
      }
      assert xs[n] == ys[m];
      forall t
        ensures OfTime(xs[..n], t) == OfTime(ys[..m], t)
      {
        var a, b := OfTime(xs[..n], t), OfTime(ys[..m], t);
        var tail := if When(xs[n]) == t then [xs[n]] else [];
        assert OfTime(xs, t) == a + tail && OfTime(ys, t) == b + tail;
        assert a == (a + tail)[..|a + tail| - |tail|] && b == (b + tail)[..|b + tail| - |tail|];
      }
      StableSortUnique(xs[..n], ys[..m]);
      assert xs == xs[..n] + [xs[n]] && ys == ys[..m] + [ys[m]];
    }
  }

  /** What any engine's sort may be relied on for: it permutes its input, and by a comparison of valid
      times it is the stable sort (ECMAScript leaves the order open when a time is missing). */
  ghost predicate EngineSort(sort: seq<Msg> -> seq<Msg>) {
    forall xs :: multiset(sort(xs)) == multiset(xs) && (AllTimed(xs) ==> IsStableSort(xs, sort(xs)))
  }

  lemma EngineSortIsReference(sort: seq<Msg> -> seq<Msg>, xs: seq<Msg>)
    requires EngineSort(sort) && AllTimed(xs)
    ensures sort(xs) == InTimeOrder(xs)
  {
    InTimeOrderIsStable(xs);
    assert IsStableSort(xs, sort(xs));
    StableSortUnique(sort(xs), InTimeOrder(xs));
  }
}
