/** NICK events repeated per shared channel: the de-duplication table with eviction. */
module NickDedup {
  import opened GoStrings

  /** Five seconds, in nanoseconds. */
  const Window: int := 5_000_000_000

  type Table = map<string, int>

  function PairKey(from: string, to: string): string {
    from + "\0" + to
  }

  function Evicted(table: Table, now: int): Table {
    map k | k in table && now - table[k] < Window :: table[k]
  }

  predicate Duplicate(table: Table, key: string, now: int) {
    key in table && now - table[key] < Window
  }

  function Recorded(table: Table, key: string, now: int): Table {
    if Duplicate(table, key, now) then table else Evicted(table[key := now], now)
  }

  class NickFilter {
    var recentNicks: Table

    constructor ()
      ensures recentNicks == map[]
    {
      recentNicks := map[];
    }

    method IsDuplicate(from: string, to: string, now: int) returns (dup: bool)
      modifies this
      ensures dup == Duplicate(old(recentNicks), PairKey(from, to), now)
      ensures recentNicks == Recorded(old(recentNicks), PairKey(from, to), now)
    {
      var key := PairKey(from, to);
      if key in recentNicks && now - recentNicks[key] < Window {
        return true;
      }
      recentNicks := recentNicks[key := now];
      ghost var full := recentNicks;
      var left := recentNicks.Keys;
      while left != {}
        invariant left <= full.Keys
        invariant recentNicks == map k | k in full && (k in left || now - full[k] < Window) :: full[k]
        decreases left
      {
        var k :| k in left;
        if now - recentNicks[k] >= Window {
          recentNicks := recentNicks - {k};
        }
        left := left - {k};
      }
      return false;
    }
  }

  // ---- Runs -------------------------------------------------------------------------------------------

  datatype Event = Event(from: string, to: string, now: int)

  /** Nicks hold no NUL, as no IRC line does. */
  predicate Plain(e: Event) {
    '\0' !in e.from && '\0' !in e.to
  }

  /** The clock never goes back. */
  predicate Ordered(run: seq<Event>) {
    forall i, j :: 0 <= i < j < |run| ==> run[i].now <= run[j].now
  }

  function TableAfter(run: seq<Event>): Table {
    if run == [] then map[]
    else
      var e := run[|run| - 1];
      Recorded(TableAfter(run[..|run| - 1]), PairKey(e.from, e.to), e.now)
  }

  /** The reference table keeps the time of the last accepted event of every pair for ever. */
  function ReferenceAfter(run: seq<Event>): Table {
    if run == [] then map[]
    else
      var e := run[|run| - 1];
      var table := ReferenceAfter(run[..|run| - 1]);
      var key := PairKey(e.from, e.to);
      if Duplicate(table, key, e.now) then table else table[key := e.now]
  }

  predicate Accepted(run: seq<Event>, i: nat)
    requires i < |run|
  {
    !Duplicate(TableAfter(run[..i]), PairKey(run[i].from, run[i].to), run[i].now)
  }

  lemma PairKeyInjective(a: Event, b: Event)
    requires Plain(a) && Plain(b)
    ensures PairKey(a.from, a.to) == PairKey(b.from, b.to) <==> a.from == b.from && a.to == b.to
  {
    CutAfter(a.from, '\0', a.to);
    CutAfter(b.from, '\0', b.to);
  }

  /** The small table is the large one without entries too old to matter at `now` or later. */
  predicate Trimmed(t: Table, r: Table, now: int) {
    && (forall k :: k in t ==> k in r && r[k] == t[k])
    && (forall k :: k in r ==> r[k] <= now)
    && (forall k :: k in r && k !in t ==> now - r[k] >= Window)
  }

  lemma TrimmedStep(t: Table, r: Table, key: string, now: int, later: int)
    requires Trimmed(t, r, now) && now <= later
    ensures Trimmed(Recorded(t, key, now), if Duplicate(r, key, now) then r else r[key := now], later)
  {
    assert Duplicate(t, key, now) <==> Duplicate(r, key, now);
  }

  /** What eviction removed is too old to matter at any later time. */
  lemma {:induction false} TablesAgree(run: seq<Event>, now: int)
    requires Ordered(run) && (run != [] ==> run[|run| - 1].now <= now)
    ensures Trimmed(TableAfter(run), ReferenceAfter(run), now)
  {
    if run != [] {
      var n := |run| - 1;
      var e := run[n];
      assert n > 0 ==> run[n - 1].now <= e.now;
      TablesAgree(run[..n], e.now);
      TrimmedStep(TableAfter(run[..n]), ReferenceAfter(run[..n]), PairKey(e.from, e.to), e.now, now);
    }
  }

  /** The evicting table decides every event as the table that never evicts. */
  lemma EvictionUnseen(run: seq<Event>, e: Event)
    requires Ordered(run + [e])
    ensures var key := PairKey(e.from, e.to);
            Duplicate(TableAfter(run), key, e.now) <==> Duplicate(ReferenceAfter(run), key, e.now)
  {
    assert Ordered(run) by {
      assert forall i :: 0 <= i < |run| ==> (run + [e])[i] == run[i];
    }
    assert run != [] ==> run[|run| - 1].now <= e.now by {
      assert run != [] ==> (run + [e])[|run| - 1].now <= (run + [e])[|run|].now;
    }
    TablesAgree(run, e.now);
  }

  /** Whether an event is accepted is settled when it happens. */
  lemma AcceptedBefore(run: seq<Event>, n: nat)
    requires n <= |run|
    ensures forall i :: 0 <= i < n ==> (Accepted(run[..n], i) <==> Accepted(run, i))
  {
    forall i | 0 <= i < n
      ensures Accepted(run[..n], i) <==> Accepted(run, i)
    {
      assert run[..n][..i] == run[..i];
    }
  }

  /** The reference table holds, for each pair, the time of its last accepted event. */
  lemma {:induction false} ReferenceIsLastAccepted(run: seq<Event>, key: string)
    requires Ordered(run)
    ensures key in ReferenceAfter(run) ==>
              exists i :: 0 <= i < |run| && Accepted(run, i) && PairKey(run[i].from, run[i].to) == key
                       && run[i].now == ReferenceAfter(run)[key]
    ensures forall i :: 0 <= i < |run| && Accepted(run, i) && PairKey(run[i].from, run[i].to) == key ==>
              key in ReferenceAfter(run) && run[i].now <= ReferenceAfter(run)[key]
  {
    if run != [] {
      var n := |run| - 1;
      var init, e := run[..n], run[n];
      ReferenceIsLastAccepted(init, key);
      assert init + [e] == run;
      EvictionUnseen(init, e);
      TablesAgree(init, e.now);
      AcceptedBefore(run, n);
      if key in ReferenceAfter(init) {
        var i :| 0 <= i < n && Accepted(init, i) && PairKey(init[i].from, init[i].to) == key
                 && init[i].now == ReferenceAfter(init)[key];
        assert Accepted(run, i);
      }
    }
  }

  /** Which events get through, said without any table: an event is accepted exactly when every accepted
      earlier event of the same nick change is at least five seconds old. */
  lemma AcceptedExactly(run: seq<Event>, j: nat)
    requires Ordered(run) && j < |run| && forall i :: 0 <= i < |run| ==> Plain(run[i])
    ensures Accepted(run, j) <==>
            forall i :: 0 <= i < j && Accepted(run, i) && run[i].from == run[j].from && run[i].to == run[j].to ==>
              run[j].now - run[i].now >= 5_000_000_000
  {
    var init, e := run[..j], run[j];
    var key := PairKey(e.from, e.to);
    assert Ordered(init + [e]) by {
      assert forall i :: 0 <= i <= j ==> (init + [e])[i] == run[i];
    }
    assert Ordered(init);
    EvictionUnseen(init, e);
    ReferenceIsLastAccepted(init, key);
    AcceptedBefore(run, j);
    forall i | 0 <= i < j
      ensures init[i] == run[i]
      ensures PairKey(run[i].from, run[i].to) == key <==> run[i].from == e.from && run[i].to == e.to
    {
      PairKeyInjective(run[i], e);
    }
    if Duplicate(ReferenceAfter(init), key, e.now) {
      var i :| 0 <= i < |init| && Accepted(init, i) && PairKey(init[i].from, init[i].to) == key
               && init[i].now == ReferenceAfter(init)[key];
      assert Accepted(run, i) && run[i].from == e.from && run[i].to == e.to;
    }
  }
}
