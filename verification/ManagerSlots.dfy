/** The manager's connection slots, over every interleaving of its calls.
    Each event is one critical section of one call, or one move of one connection's own loop. */
module ManagerSlots {
  import opened Options

  /** Where a connection's goroutine stands in connectLoop. */
  datatype Loop = NotStarted | AtTop | PassedCheck | Dialling | DialReturned | Waiting | Exited

  datatype ConnState = ConnState(net: string, stops: nat, loop: Loop, dialsAfterStop: nat)

  /** A call in flight, between two of its critical sections. */
  datatype Call =
    | Created(net: string, conn: nat)          // startConn has made a Conn and not yet installed it
    | Displacing(prior: nat, conn: nat)         // startConn has installed it over `prior`, still to be stopped
    | Starting(conn: nat)                      // startConn has only Start left to call
    | Removing(conn: nat)                      // Remove- or DisconnectNetwork has taken it out, still to be stopped

  datatype World = World(slots: map<string, nat>, calls: map<nat, Call>, conns: map<nat, ConnState>)

  const Empty := World(map[], map[], map[])

  datatype Event =
    | Begin(call: nat, net: string, conn: nat)     // Start, RestartNetwork, ReconnectNetwork
    | Add(call: nat, net: string, conn: nat)       // AddNetwork: does nothing if the slot is taken
    | Install(call: nat)
    | StopOld(call: nat)
    | StartLoop(call: nat)
    | Take(call: nat, net: string)                 // RemoveNetwork, DisconnectNetwork
    | StopTaken(call: nat)
    | Move(conn: nat, timer: bool)                 // `timer`: the wait ends by its timer

  predicate Enabled(w: World, e: Event) {
    match e
    case Begin(k, _, c) => k !in w.calls && c !in w.conns
    case Add(k, _, c) => k !in w.calls && c !in w.conns
    case Install(k) => k in w.calls && w.calls[k].Created?
    case StopOld(k) => k in w.calls && w.calls[k].Displacing? && w.calls[k].prior in w.conns
    case StartLoop(k) => k in w.calls && w.calls[k].Starting? && w.calls[k].conn in w.conns
    case Take(k, _) => k !in w.calls
    case StopTaken(k) => k in w.calls && w.calls[k].Removing? && w.calls[k].conn in w.conns
    case Move(c, timer) =>
      c in w.conns && w.conns[c].loop != NotStarted && w.conns[c].loop != Exited
      && (w.conns[c].loop == Waiting && !timer ==> w.conns[c].stops > 0)
  }

  function Stopped(s: ConnState): ConnState {
    s.(stops := s.stops + 1)
  }

  /** connectLoop: look at the stop flag, dial, look again, wait for the timer or the stop channel. */
  function Moved(s: ConnState, timer: bool): ConnState {
    match s.loop
    case AtTop => s.(loop := if s.stops > 0 then Exited else PassedCheck)
    case PassedCheck =>
      s.(loop := Dialling, dialsAfterStop := s.dialsAfterStop + if s.stops > 0 then 1 else 0)
    case Dialling => s.(loop := DialReturned)
    case DialReturned => s.(loop := if s.stops > 0 then Exited else Waiting)
    case Waiting => s.(loop := if timer then AtTop else Exited)
    case _ => s
  }

  function Next(w: World, e: Event): World
    requires Enabled(w, e)
  {
    match e
    case Begin(k, net, c) => Made(w, k, net, c)
    case Add(k, net, c) => if net in w.slots then w else Made(w, k, net, c)
    case Install(k) =>
      var Created(net, c) := w.calls[k];
      w.(slots := w.slots[net := c],
         calls := w.calls[k := if net in w.slots then Displacing(w.slots[net], c) else Starting(c)])
    case StopOld(k) =>
      var Displacing(o, c) := w.calls[k];
      w.(conns := w.conns[o := Stopped(w.conns[o])], calls := w.calls[k := Starting(c)])
    case StartLoop(k) =>
      var c := w.calls[k].conn;
      w.(conns := w.conns[c := w.conns[c].(loop := AtTop)], calls := w.calls - {k})
    case Take(k, net) =>
      if net in w.slots then w.(slots := w.slots - {net}, calls := w.calls[k := Removing(w.slots[net])])
      else w
    case StopTaken(k) =>
      var c := w.calls[k].conn;
      w.(conns := w.conns[c := Stopped(w.conns[c])], calls := w.calls - {k})
    case Move(c, timer) => w.(conns := w.conns[c := Moved(w.conns[c], timer)])
  }

  function Made(w: World, k: nat, net: string, c: nat): World {
    w.(conns := w.conns[c := ConnState(net, 0, NotStarted, 0)], calls := w.calls[k := Created(net, c)])
  }

  predicate Legal(run: seq<Event>)
    decreases |run|, 0
  {
    run == [] || (Legal(run[..|run| - 1]) && Enabled(After(run[..|run| - 1]), run[|run| - 1]))
  }

  function After(run: seq<Event>): World
    requires Legal(run)
    decreases |run|, 1
  {
    if run == [] then Empty else Next(After(run[..|run| - 1]), run[|run| - 1])
  }

  // ---- The invariant ------------------------------------------------------------------------------------

  /** The un-stopped connection a call alone answers for: not yet installed, or taken out of its slot. */
  function Owned(k: Call): Option<nat> {
    match k
    case Created(_, c) => Some(c)
    case Displacing(o, _) => Some(o)
    case Starting(_) => None
    case Removing(c) => Some(c)
  }

  /** The connection a call is still to start. */
  function Unstarted(k: Call): Option<nat> {
    match k
    case Created(_, c) => Some(c)
    case Displacing(_, c) => Some(c)
    case Starting(c) => Some(c)
    case Removing(_) => None
  }

  predicate InSlot(w: World, c: nat) {
    c in w.conns && w.conns[c].net in w.slots && w.slots[w.conns[c].net] == c
  }

  predicate OwnedBy(w: World, k: nat, c: nat) {
    k in w.calls && Owned(w.calls[k]) == Some(c)
  }

  ghost predicate HeldByCall(w: World, c: nat) {
    exists k :: OwnedBy(w, k, c)
  }

  predicate SlotsSound(w: World) {
    forall net :: net in w.slots ==>
      var c := w.slots[net];
      c in w.conns && w.conns[c].net == net && w.conns[c].stops == 0
  }

  /** A call's own connection is un-stopped, in no slot, and no other call's. */
  ghost predicate OwnersSound(w: World) {
    && (forall k, c :: OwnedBy(w, k, c) ==> c in w.conns && w.conns[c].stops == 0 && !InSlot(w, c))
    && (forall k, j, c :: OwnedBy(w, k, c) && OwnedBy(w, j, c) ==> k == j)
    && (forall k :: k in w.calls && w.calls[k].Created? ==>
          w.calls[k].conn in w.conns && w.conns[w.calls[k].conn].net == w.calls[k].net)
  }

  ghost predicate StartsSound(w: World) {
    && (forall k, c :: ToStart(w, k, c) ==> c in w.conns && w.conns[c].loop == NotStarted)
    && (forall k, j, c :: ToStart(w, k, c) && ToStart(w, j, c) ==> k == j)
  }

  predicate LoopSound(s: ConnState) {
    && s.stops <= 1 && s.dialsAfterStop <= 1
    && (s.dialsAfterStop == 1 ==> s.stops == 1 && s.loop in {Dialling, DialReturned, Exited})
  }

  /** Every un-stopped connection is not yet installed, in its slot, or held by the call that took it out. */
  ghost predicate Placed(w: World) {
    forall c :: c in w.conns && w.conns[c].stops == 0 ==> InSlot(w, c) || HeldByCall(w, c)
  }

  ghost predicate Inv(w: World) {
    && SlotsSound(w) && OwnersSound(w) && StartsSound(w) && Placed(w)
    && forall c :: c in w.conns ==> LoopSound(w.conns[c])
  }

  lemma PlacedNext(w: World, w2: World, changed: set<nat>)
    requires Placed(w)
    requires forall c :: c in w2.conns && c !in changed ==>
               c in w.conns && w.conns[c].stops == w2.conns[c].stops && w.conns[c].net == w2.conns[c].net
    requires forall c :: c in w2.conns && c !in changed && InSlot(w, c) ==> InSlot(w2, c)
    requires forall k, c :: OwnedBy(w, k, c) && c !in changed ==> OwnedBy(w2, k, c)
    requires forall c :: c in changed && c in w2.conns && w2.conns[c].stops == 0 ==> InSlot(w2, c) || HeldByCall(w2, c)
    ensures Placed(w2)
  {
    forall c | c in w2.conns && w2.conns[c].stops == 0
      ensures InSlot(w2, c) || HeldByCall(w2, c)
    {
      if c !in changed && !InSlot(w, c) {
        var k :| OwnedBy(w, k, c);
        assert OwnedBy(w2, k, c);
      }
    }
  }

  /** Call k changes; every other call and the connection it answers for stay as they were. */
  lemma OwnersNext(w: World, w2: World, k: nat)
    requires OwnersSound(w) && SameOtherCalls(w, w2, k)
    requires forall j, d :: j != k && OwnedBy(w, j, d) ==>
               d in w2.conns && w2.conns[d].stops == 0 && w2.conns[d].net == w.conns[d].net && !InSlot(w2, d)
    requires forall d :: OwnedBy(w2, k, d) ==>
               d in w2.conns && w2.conns[d].stops == 0 && !InSlot(w2, d) && forall j :: j != k ==> !OwnedBy(w, j, d)
    requires k in w2.calls && w2.calls[k].Created? ==>
               w2.calls[k].conn in w2.conns && w2.conns[w2.calls[k].conn].net == w2.calls[k].net
    ensures OwnersSound(w2)
  {
    forall j, d | OwnedBy(w2, j, d)
      ensures d in w2.conns && w2.conns[d].stops == 0 && !InSlot(w2, d)
      ensures j != k ==> OwnedBy(w, j, d)
    {
      if j != k {
        assert j in w.calls && w2.calls[j] == w.calls[j];
        assert OwnedBy(w, j, d);
      }
    }
    forall j | j in w2.calls && w2.calls[j].Created?
      ensures w2.calls[j].conn in w2.conns && w2.conns[w2.calls[j].conn].net == w2.calls[j].net
    {
      assert OwnedBy(w2, j, w2.calls[j].conn);
    }
  }

  predicate SameOtherCalls(w: World, w2: World, k: nat) {
    && (forall j :: j in w.calls && j != k ==> j in w2.calls && w2.calls[j] == w.calls[j])
    && (forall j :: j in w2.calls && j != k ==> j in w.calls)
  }

  predicate ToStart(w: World, k: nat, c: nat) {
    k in w.calls && Unstarted(w.calls[k]) == Some(c)
  }

  /** Call k goes on with the same connection to start, or with none, or with a connection new to the world. */
  lemma StartsNext(w: World, w2: World, k: nat)
    requires StartsSound(w) && SameOtherCalls(w, w2, k)
    requires forall c :: ToStart(w2, k, c) ==>
               (ToStart(w, k, c) || c !in w.conns) && c in w2.conns && w2.conns[c].loop == NotStarted
    requires forall j, c :: j != k && ToStart(w, j, c) ==> c in w2.conns && w2.conns[c].loop == NotStarted
    ensures StartsSound(w2)
  {
    forall j, c | ToStart(w2, j, c)
      ensures c in w2.conns && w2.conns[c].loop == NotStarted
      ensures j != k ==> ToStart(w, j, c)
    {
      if j != k {
        assert j in w.calls && w2.calls[j] == w.calls[j];
        assert ToStart(w, j, c);
      }
    }
  }

  lemma InvMade(w: World, k: nat, net: string, c: nat)
    requires Inv(w) && k !in w.calls && c !in w.conns
    ensures Inv(Made(w, k, net, c))
  {
    var w2 := Made(w, k, net, c);
    assert OwnedBy(w2, k, c);
    assert forall d :: InSlot(w2, d) ==> InSlot(w, d);
    OwnersNext(w, w2, k);
    StartsNext(w, w2, k);
    PlacedNext(w, w2, {c});
  }

  lemma InvInstall(w: World, k: nat)
    requires Inv(w) && k in w.calls && w.calls[k].Created?
    ensures Inv(Next(w, Install(k)))
  {
    if w.calls[k].net in w.slots { InvDisplace(w, k); } else { InvInstallEmpty(w, k); }
  }

  lemma InvDisplace(w: World, k: nat)
    requires Inv(w) && k in w.calls && w.calls[k].Created? && w.calls[k].net in w.slots
    ensures Inv(Next(w, Install(k)))
  {
    var Created(net, c) := w.calls[k];
    var o := w.slots[net];
    var w2 := Next(w, Install(k));
    assert OwnedBy(w, k, c) && ToStart(w, k, c) && InSlot(w2, c);
    assert InSlot(w, o) && !InSlot(w2, o) && OwnedBy(w2, k, o);
    assert forall d :: InSlot(w2, d) ==> d == c || InSlot(w, d);
    OwnersNext(w, w2, k);
    StartsNext(w, w2, k);
    PlacedNext(w, w2, {c, o});
  }

  lemma InvInstallEmpty(w: World, k: nat)
    requires Inv(w) && k in w.calls && w.calls[k].Created? && w.calls[k].net !in w.slots
    ensures Inv(Next(w, Install(k)))
  {
    var c := w.calls[k].conn;
    var w2 := Next(w, Install(k));
    assert OwnedBy(w, k, c) && ToStart(w, k, c) && InSlot(w2, c);
    assert forall d :: InSlot(w2, d) ==> d == c || InSlot(w, d);
    OwnersNext(w, w2, k);
    StartsNext(w, w2, k);
    PlacedNext(w, w2, {c});
  }

  lemma InvStop(w: World, k: nat, c: nat, w2: World)
    requires Inv(w) && OwnedBy(w, k, c)
    requires w2.slots == w.slots && w2.conns == w.conns[c := Stopped(w.conns[c])]
    requires w2.calls == (if w.calls[k].Displacing? then w.calls[k := Starting(w.calls[k].conn)] else w.calls - {k})
    requires !w.calls[k].Created?
    ensures Inv(w2)
  {
    assert forall d :: InSlot(w2, d) <==> InSlot(w, d);
    assert forall d :: !OwnedBy(w2, k, d);
    assert w.calls[k].Displacing? ==> ToStart(w, k, w.calls[k].conn);
    OwnersNext(w, w2, k);
    StartsNext(w, w2, k);
    PlacedNext(w, w2, {c});
  }

  /** Taking a connection out empties its slot and no other. */
  lemma TakenSlots(w: World, k: nat, net: string)
    requires Inv(w) && k !in w.calls && net in w.slots
    ensures var w2 := Next(w, Take(k, net));
            && SlotsSound(w2) && !InSlot(w2, w.slots[net])
            && (forall d :: d != w.slots[net] ==> (InSlot(w2, d) <==> InSlot(w, d)))
  {
  }

  lemma InvTake(w: World, k: nat, net: string)
    requires Inv(w) && k !in w.calls && net in w.slots
    ensures Inv(Next(w, Take(k, net)))
  {
    var w2 := Next(w, Take(k, net));
    var o := w.slots[net];
    assert InSlot(w, o) && OwnedBy(w2, k, o);
    TakenSlots(w, k, net);
    OwnersNext(w, w2, k);
    StartsNext(w, w2, k);
    PlacedNext(w, w2, {o});
  }

  /** Moves of a connection's goroutine leave slots, stops and calls alone. */
  lemma InvMove(w: World, c: nat, s: ConnState, w2: World)
    requires Inv(w) && c in w.conns && w.conns[c].loop != NotStarted
    requires s.net == w.conns[c].net && s.stops == w.conns[c].stops && LoopSound(s)
    requires w2 == w.(conns := w.conns[c := s])
    ensures Inv(w2)
  {
    assert forall d :: InSlot(w2, d) <==> InSlot(w, d);
    assert forall j, d :: OwnedBy(w2, j, d) <==> OwnedBy(w, j, d);
    assert forall j, d :: ToStart(w2, j, d) <==> ToStart(w, j, d);
    assert forall j :: j in w.calls && w.calls[j].Created? ==> OwnedBy(w, j, w.calls[j].conn);
    PlacedNext(w, w2, {});
  }

  /** Starting a loop leaves the slots and what each call answers for. */
  lemma StartedOwns(w: World, k: nat)
    requires Enabled(w, StartLoop(k))
    ensures var w2 := Next(w, StartLoop(k));
            && (forall d :: InSlot(w2, d) <==> InSlot(w, d))
            && (forall j, d :: OwnedBy(w2, j, d) <==> OwnedBy(w, j, d))
  {
  }

  lemma InvStartLoop(w: World, k: nat)
    requires Inv(w) && Enabled(w, StartLoop(k))
    ensures Inv(Next(w, StartLoop(k)))
  {
    var w2 := Next(w, StartLoop(k));
    var c := w.calls[k].conn;
    assert ToStart(w, k, c);
    StartedOwns(w, k);
    StartedConns(w, k);
    OwnersNext(w, w2, k);
    StartsNext(w, w2, k);
    PlacedNext(w, w2, {});
  }

  lemma StartedConns(w: World, k: nat)
    requires Inv(w) && Enabled(w, StartLoop(k))
    ensures var w2 := Next(w, StartLoop(k));
            && w2.conns.Keys == w.conns.Keys && SlotsSound(w2)
            && (forall c :: c in w2.conns ==>
                  && w2.conns[c].net == w.conns[c].net && w2.conns[c].stops == w.conns[c].stops
                  && LoopSound(w2.conns[c]))
  {
    assert ToStart(w, k, w.calls[k].conn);
  }

  lemma InvNext(w: World, e: Event)
    requires Inv(w) && Enabled(w, e)
    ensures Inv(Next(w, e))
  {
    var w2 := Next(w, e);
    match e
    case Begin(k, net, c) => InvMade(w, k, net, c);
    case Add(k, net, c) => if net !in w.slots { InvMade(w, k, net, c); }
    case Install(k) => InvInstall(w, k);
    case StopOld(k) => InvStop(w, k, w.calls[k].prior, w2);
    case StartLoop(k) => InvStartLoop(w, k);
    case Take(k, net) => if net in w.slots { InvTake(w, k, net); }
    case StopTaken(k) => InvStop(w, k, w.calls[k].conn, w2);
    case Move(c, _) => InvMove(w, c, w2.conns[c], w2);
  }

  lemma {:induction false} InvAlways(run: seq<Event>)
    requires Legal(run)
    ensures Inv(After(run))
  {
    if run != [] {
      InvAlways(run[..|run| - 1]);
      InvNext(After(run[..|run| - 1]), run[|run| - 1]);
    }
  }

  // ---- Main results ---------------------------------------------------------------------------------------

  /** In every interleaving each connection is stopped at most once, an un-stopped one is not yet
      installed, in its slot, or held by the one call that displaced it, and at most one dial begins after a stop. */
  lemma EveryConnAccountedFor(run: seq<Event>, c: nat)
    requires Legal(run) && c in After(run).conns
    ensures var w := After(run);
            && w.conns[c].stops <= 1
            && w.conns[c].dialsAfterStop <= 1
            && (w.conns[c].stops == 0 <==> InSlot(w, c) || HeldByCall(w, c))
            && !(InSlot(w, c) && HeldByCall(w, c))
            && (forall k, j :: OwnedBy(w, k, c) && OwnedBy(w, j, c) ==> k == j)
  {
    InvAlways(run);
  }

  /** With no call in flight, the un-stopped connections are exactly those in the slots, so each
      network has at most one. */
  lemma QuietMeansOnePerNetwork(run: seq<Event>, c: nat, d: nat)
    requires Legal(run) && After(run).calls == map[]
    requires c in After(run).conns && d in After(run).conns
    ensures var w := After(run);
            && (w.conns[c].stops == 0 <==> InSlot(w, c))
            && (w.conns[c].stops == 0 && w.conns[d].stops == 0 && w.conns[c].net == w.conns[d].net ==> c == d)
  {
    InvAlways(run);
  }

  // ---- The loop of one connection -----------------------------------------------------------------------

  /** One event moves a connection's loop by one step at most, and the stop flag is never taken back. */
  lemma LoopNext(w: World, e: Event, c: nat)
    requires Inv(w) && Enabled(w, e) && c in w.conns
    ensures var w2 := Next(w, e);
            c in w2.conns && w2.conns[c].stops >= w.conns[c].stops && OneMove(w.conns[c], w2.conns[c], e, c)
  {
    if e.StartLoop? {
      assert ToStart(w, e.call, w.calls[e.call].conn);
    }
  }

  predicate OneMove(s: ConnState, s2: ConnState, e: Event, c: nat) {
    || (s2.loop == s.loop && s2.dialsAfterStop == s.dialsAfterStop)
    || (s.loop == NotStarted && s2 == s.(loop := AtTop))
    || (e.Move? && e.conn == c && s2 == Moved(s, e.timer))
  }

  /** Has the loop still to look at the flag before it can dial? */
  predicate LooksFirst(s: ConnState) {
    s.stops > 0 && s.loop != PassedCheck
  }

  /** A dial begins after the stop only if the stop came between the look at the flag and the dial: once
      stopped anywhere else, a connection never dials again, in any run. */
  lemma {:induction false} NoDialOnceStopped(run: seq<Event>, k: nat, c: nat)
    requires Legal(run) && k <= |run| && Legal(run[..k])
    requires c in After(run[..k]).conns && LooksFirst(After(run[..k]).conns[c])
    ensures c in After(run).conns && LooksFirst(After(run).conns[c])
    ensures After(run).conns[c].dialsAfterStop == After(run[..k]).conns[c].dialsAfterStop
  {
    if k == |run| {
      assert run[..k] == run;
    } else {
      var n := |run| - 1;
      assert run[..n][..k] == run[..k];
      NoDialOnceStopped(run[..n], k, c);
      InvAlways(run[..n]);
      LoopNext(After(run[..n]), run[n], c);
    }
  }

  /** The loop of a stopped connection ends within three of its own moves. */
  lemma EndsSoon(s: ConnState, t1: bool, t2: bool, t3: bool)
    requires s.stops > 0 && s.loop != NotStarted
    ensures Moved(Moved(Moved(s, t1), t2), t3).loop == Exited
  {
  }

  /** Only a stopped connection's loop ends. */
  lemma {:induction false} OnlyStoppedEnds(run: seq<Event>, c: nat)
    requires Legal(run) && c in After(run).conns
    ensures After(run).conns[c].loop == Exited ==> After(run).conns[c].stops > 0
  {
    if run != [] {
      var n := |run| - 1;
      InvAlways(run[..n]);
      if c in After(run[..n]).conns {
        OnlyStoppedEnds(run[..n], c);
        EndsStopped(After(run[..n]), run[n], c);
      }
    }
  }

  lemma EndsStopped(w: World, e: Event, c: nat)
    requires Inv(w) && Enabled(w, e) && c in w.conns && (w.conns[c].loop == Exited ==> w.conns[c].stops > 0)
    ensures var w2 := Next(w, e);
            c in w2.conns && (w2.conns[c].loop == Exited ==> w2.conns[c].stops > 0)
  {
    LoopNext(w, e, c);
  }
}
