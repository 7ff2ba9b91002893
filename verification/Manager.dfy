/** The manager as an object: what each call does when no other call comes in between.
    ManagerSlots interleaves the critical sections of the same calls. */
module Manager {
  import opened Options
  import Slots = ManagerSlots

  class Conn {
    const net: string
    var stopped: bool
    var started: bool

    constructor (net: string)
      ensures this.net == net && !stopped && !started
    {
      this.net := net;
      stopped, started := false, false;
    }

    method Start()
      modifies this
      ensures started && stopped == old(stopped)
    {
      started := true;
    }

    method Stop()
      modifies this
      ensures stopped && started == old(started)
    {
      stopped := true;
    }
  }

  class Manager {
    var conns: map<string, Conn>

    /** Every slot holds a running connection of its own network. */
    ghost predicate Valid()
      reads this, conns.Values
    {
      forall n :: n in conns ==> conns[n].net == n && conns[n].started && !conns[n].stopped
    }

    constructor ()
      ensures Valid() && conns == map[]
    {
      conns := map[];
    }

    /** The new connection takes the slot; whoever was there is stopped, and no one else is touched. */
    method StartConn(n: string) returns (c: Conn)
      requires Valid()
      modifies this, if n in conns then {conns[n]} else {}
      ensures Valid() && fresh(c) && conns == old(conns)[n := c]
      ensures n in old(conns) ==> old(conns[n]).stopped
    {
      c := new Conn(n);
      var hadOld := n in conns;
      var prior := if hadOld then Some(conns[n]) else None;
      conns := conns[n := c];
      if hadOld {
        prior.value.Stop();
      }
      c.Start();
    }

    method AddNetwork(n: string) returns (c: Option<Conn>)
      requires Valid()
      modifies this
      ensures Valid()
      ensures if n in old(conns) then conns == old(conns) && c == None
              else c.Some? && fresh(c.value) && conns == old(conns)[n := c.value]
    {
      if n in conns {
        return None;
      }
      var made := StartConn(n);
      c := Some(made);
    }

    /** RemoveNetwork and DisconnectNetwork differ only in the status they set. */
    method RemoveNetwork(n: string)
      requires Valid()
      modifies this, if n in conns then {conns[n]} else {}
      ensures Valid() && conns == old(conns) - {n}
      ensures n in old(conns) ==> old(conns[n]).stopped
    {
      if n in conns {
        var c := conns[n];
        conns := conns - {n};
        c.Stop();
      }
    }

    /** RestartNetwork and ReconnectNetwork. */
    method RestartNetwork(n: string) returns (c: Conn)
      requires Valid()
      modifies this, if n in conns then {conns[n]} else {}
      ensures Valid() && fresh(c) && conns == old(conns)[n := c]
      ensures n in old(conns) ==> old(conns[n]).stopped
    {
      c := StartConn(n);
    }
  }

  /** AddNetwork alone does nothing when the slot is taken, and otherwise what startConn does. */
  lemma AddAloneEffect(w: Slots.World, k: nat, net: string, c: nat)
    requires Slots.Inv(w) && k !in w.calls && c !in w.conns
    ensures var added := Slots.Next(w, Slots.Add(k, net, c));
            if net in w.slots then added == w else added == Slots.Next(w, Slots.Begin(k, net, c))
  {
  }

  /** RemoveNetwork alone empties the slot and stops its connection, once; nothing else changes. */
  lemma RemoveAloneEffect(w: Slots.World, k: nat, net: string)
    requires Slots.Inv(w) && k !in w.calls
    ensures var taken := Slots.Next(w, Slots.Take(k, net));
            if net !in w.slots then taken == w
            else
              Slots.Enabled(taken, Slots.StopTaken(k))
              && var w2 := Slots.Next(taken, Slots.StopTaken(k));
                 && w2.slots == w.slots - {net} && w2.calls == w.calls
                 && w2.conns.Keys == w.conns.Keys && w2.conns[w.slots[net]].stops == 1
                 && forall d :: d in w.conns && d != w.slots[net] ==> w2.conns[d] == w.conns[d]
  {
    if net in w.slots {
      assert w.slots[net] in w.conns && w.conns[w.slots[net]].stops == 0;
    }
  }

  /** startConn run alone, section by section. */
  function StartAlone(w: Slots.World, k: nat, net: string, c: nat): Slots.World
    requires Slots.Inv(w) && k !in w.calls && c !in w.conns
  {
    var w1 := Slots.Next(w, Slots.Begin(k, net, c));
    var w2 := Slots.Next(w1, Slots.Install(k));
    var w3 := if net in w.slots then Slots.Next(w2, Slots.StopOld(k)) else w2;
    Slots.Next(w3, Slots.StartLoop(k))
  }

  /** Alone, startConn has the effect of the method: the slot changes hands, the connection it held is
      stopped, the new one is started, and nothing else changes. */
  lemma StartAloneEffect(w: Slots.World, k: nat, net: string, c: nat)
    requires Slots.Inv(w) && k !in w.calls && c !in w.conns
    ensures var w2 := StartAlone(w, k, net, c);
            && w2.slots == w.slots[net := c]
            && w2.calls == w.calls
            && c in w2.conns && w2.conns[c] == Slots.ConnState(net, 0, Slots.AtTop, 0)
            && (net in w.slots ==> w2.conns[w.slots[net]].stops == 1)
            && (forall d :: d in w.conns && !(net in w.slots && d == w.slots[net]) ==>
                  d in w2.conns && w2.conns[d] == w.conns[d])
  {
  }
}
