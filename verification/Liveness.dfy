/** When a silent upstream is given up, and how long the bouncer waits before dialling again. */
module Liveness {
  import opened Options

  // Milliseconds.
  const KeepaliveInterval: int := 30_000
  const KeepaliveTimeout: int := 90_000

  // Seconds.
  const InitialBackoff: nat := 2
  const MaxBackoff: nat := 30

  // ---- Keepalive ----------------------------------------------------------------------------------------

  /** The time of the latest data at `t`: an arrival, or the start of the read loop. */
  function LastData(start: int, arrivals: seq<int>, t: int): int {
    if arrivals == [] then start
    else
      var last := LastData(start, arrivals[..|arrivals| - 1], t);
      var a := arrivals[|arrivals| - 1];
      if last < a <= t then a else last
  }

  lemma {:induction false} LastDataBounds(start: int, arrivals: seq<int>, t: int, u: int)
    requires start <= t <= u
    ensures start <= LastData(start, arrivals, t) <= t
    ensures LastData(start, arrivals, t) <= LastData(start, arrivals, u)
    ensures forall i :: 0 <= i < |arrivals| && arrivals[i] <= t ==> arrivals[i] <= LastData(start, arrivals, t)
    ensures LastData(start, arrivals, t) == start || LastData(start, arrivals, t) in arrivals
  {
    if arrivals != [] {
      LastDataBounds(start, arrivals[..|arrivals| - 1], t, u);
    }
  }

  /** The k-th tick of the keepalive goroutine. */
  function Tick(start: int, k: nat): int {
    start + KeepaliveInterval * k
  }

  predicate TimedOut(start: int, arrivals: seq<int>, k: nat) {
    Tick(start, k) - LastData(start, arrivals, Tick(start, k)) > KeepaliveTimeout
  }

  /** The goroutine for up to `ticks` ticks: at each it closes the connection or sends a PING. */
  method Keepalive(start: int, arrivals: seq<int>, ticks: nat) returns (closedAt: Option<nat>, pings: seq<int>)
    ensures closedAt.Some? ==>
              1 <= closedAt.value <= ticks && TimedOut(start, arrivals, closedAt.value)
              && |pings| == closedAt.value - 1
    ensures closedAt.None? ==> |pings| == ticks
    ensures forall i :: 0 <= i < |pings| ==> pings[i] == Tick(start, i + 1)
    ensures forall k :: 1 <= k <= |pings| ==> !TimedOut(start, arrivals, k)
  {
    pings := [];
    for k := 1 to ticks + 1
      invariant |pings| == k - 1
      invariant forall i :: 0 <= i < |pings| ==> pings[i] == Tick(start, i + 1)
      invariant forall i :: 1 <= i <= |pings| ==> !TimedOut(start, arrivals, i)
    {
      var now := Tick(start, k);
      var last := LastData(start, arrivals, now);
      if now - last > KeepaliveTimeout {
        return Some(k), pings;
      }
      pings := pings + [now];
    }
    closedAt := None;
  }

  /** A connection is only closed more than 90 s, and at most 120 s, after its last data. */
  lemma ClosedInWindow(start: int, arrivals: seq<int>, k: nat)
    requires k >= 1 && TimedOut(start, arrivals, k)
    requires forall i :: 1 <= i < k ==> !TimedOut(start, arrivals, i)
    ensures var gap := Tick(start, k) - LastData(start, arrivals, Tick(start, k));
            90_000 < gap <= 120_000
  {
    var before := Tick(start, k - 1);
    LastDataBounds(start, arrivals, before, Tick(start, k));
    if k > 1 {
      assert !TimedOut(start, arrivals, k - 1);
    }
  }

  /** Once data stops it is closed: some tick within 120 s of the last data finds the time-out. */
  lemma SilenceIsNoticed(start: int, arrivals: seq<int>, last: int) returns (k: nat)
    requires start <= last && (last == start || last in arrivals)
    requires forall i :: 0 <= i < |arrivals| ==> arrivals[i] <= last
    ensures k >= 1 && TimedOut(start, arrivals, k)
    ensures last + 90_000 < Tick(start, k) <= last + 120_000
  {
    k := (last + KeepaliveTimeout - start) / KeepaliveInterval + 1;
    LastDataBounds(start, arrivals, Tick(start, k), Tick(start, k));
  }

  /** Run long enough after the last data, the goroutine closes the connection: more than 90 s and at most
      120 s after the latest data it had seen, and so at most 120 s after the last data of all. */
  method GiveUp(start: int, arrivals: seq<int>, ticks: nat, ghost last: int)
    returns (closedAt: Option<nat>, pings: seq<int>)
    requires start <= last && (last == start || last in arrivals)
    requires forall i :: 0 <= i < |arrivals| ==> arrivals[i] <= last
    requires last + 120_000 <= Tick(start, ticks)
    ensures closedAt.Some?
    ensures var now := Tick(start, closedAt.value);
            && 90_000 < now - LastData(start, arrivals, now) <= 120_000
            && now <= last + 120_000
    ensures |pings| == closedAt.value - 1
  {
    closedAt, pings := Keepalive(start, arrivals, ticks);
    ghost var k := SilenceIsNoticed(start, arrivals, last);
    assert k <= ticks;
    ClosedInWindow(start, arrivals, closedAt.value);
  }

  // ---- Reconnecting -------------------------------------------------------------------------------------

  function Power2(n: nat): nat {
    if n == 0 then 1 else 2 * Power2(n - 1)
  }

  /** How many waits there have been since the last dial that reached a 001, including the next one. */
  function Attempt(welcomed: seq<bool>): nat
    requires welcomed != []
  {
    if welcomed[|welcomed| - 1] || |welcomed| == 1 then 1 else Attempt(welcomed[..|welcomed| - 1]) + 1
  }

  function Capped(n: nat): nat {
    if n < MaxBackoff then n else MaxBackoff
  }

  /** The attempt number after dial n is the number of dials since, and with, the latest one that reached
      a 001, or of all dials if none did. */
  lemma {:induction false} AttemptCounts(welcomed: seq<bool>, since: nat)
    requires since < |welcomed| && (since == 0 || welcomed[since])
    requires forall i :: since < i < |welcomed| ==> !welcomed[i]
    ensures Attempt(welcomed) == |welcomed| - since
  {
    var n := |welcomed| - 1;
    if since < n {
      AttemptCounts(welcomed[..n], since);
    }
  }

  /** The waits in seconds: 2, 4, 8, 16, and 30 from then on. */
  lemma WaitsAre(n: nat)
    requires n > 0
    ensures Capped(Power2(n)) == if n <= 4 then [2, 4, 8, 16][n - 1] else 30
  {
    if n > 4 {
      AtLeast32(n);
    } else {
      assert Power2(1) == 2 && Power2(2) == 4 && Power2(3) == 8 && Power2(4) == 16;
    }
  }

  lemma {:induction false} AtLeast32(n: nat)
    requires n >= 5
    ensures Power2(n) >= 32
  {
    if n > 5 {
      AtLeast32(n - 1);
    } else {
      assert Power2(1) == 2 && Power2(2) == 4 && Power2(3) == 8 && Power2(4) == 16;
    }
  }

  /** connectLoop over dials that each end, with or without a 001 on the way: the waits and attempt numbers. */
  method ConnectLoop(welcomed: seq<bool>) returns (waits: seq<nat>, retries: seq<nat>)
    ensures |waits| == |retries| == |welcomed|
    ensures forall i :: 0 <= i < |waits| ==>
              retries[i] == Attempt(welcomed[..i + 1]) && waits[i] == Capped(Power2(retries[i]))
  {
    var backoff := InitialBackoff;
    var retryCount := 0;
    waits, retries := [], [];
    for i := 0 to |welcomed|
      invariant |waits| == |retries| == i
      invariant i == 0 ==> backoff == InitialBackoff && retryCount == 0
      invariant i > 0 ==> retryCount == Attempt(welcomed[..i]) && backoff == Capped(Power2(retryCount + 1))
      invariant forall j :: 0 <= j < i ==>
                  retries[j] == Attempt(welcomed[..j + 1]) && waits[j] == Capped(Power2(retries[j]))
    {
      if welcomed[i] {
        backoff := InitialBackoff;
        retryCount := 0;
      }
      retryCount := retryCount + 1;
      assert welcomed[..i + 1][..i] == welcomed[..i];
      assert Power2(1) == 2;
      waits := waits + [backoff];
      retries := retries + [retryCount];
      backoff := backoff * 2;
      if backoff > MaxBackoff {
        backoff := MaxBackoff;
      }
    }
  }
}
