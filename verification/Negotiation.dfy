/** Registration against a server that answers each request once: what every step of every run keeps,
    over any number of reconnects. */
module Negotiation {
  import opened GoStrings
  import opened CapLine
  import opened Registration

  /** Where the server stands. */
  datatype Phase =
    | Offline
    | Listing                     // CAP LS was sent
    | Asking(caps: seq<string>)   // this request is unanswered
    | Authing                     // AUTHENTICATE was sent, no outcome yet
    | Succeeded                   // a 900 or 903 was received
    | Ended                       // CAP END was sent, no more SASL numerics follow

  /** `colon`: the list of the answer was printed as a trailing parameter. */
  datatype Event =
    | Dial
    | Ls(caps: seq<string>, more: bool)
    | Ack(colon: bool)
    | Nak(colon: bool)
    | Challenge(payload: string)
    | Numeric(code: nat)

  /** The connection object's state, the server's, and the fate of the capabilities wanted since the last dial:
      those the server granted or rejected, and among the granted ones those acknowledged without a colon.
      `base` is how much had been sent before that dial, `answers` how many requests were answered since. */
  datatype World = World(reg: Reg, phase: Phase, wanted: seq<string>, granted: set<string>, rejected: set<string>,
                         unheard: set<string>, base: nat, answers: nat)

  const Start := World(Reg({}, {}, [], false, false, []), Offline, [], {}, {}, {}, 0, 0)

  /** The server answers each REQ with one ACK or NAK of the same list, in which a list of several words has
      a colon, and sends SASL numerics only as one outcome of AUTHENTICATE: some successes, or one failure. */
  predicate Allowed(w: World, e: Event) {
    match e
    case Dial => true
    case Ls(_, _) => w.phase == Listing
    case Ack(colon) => w.phase.Asking? && (!colon ==> |w.phase.caps| <= 1)
    case Nak(colon) => w.phase.Asking? && (!colon ==> |w.phase.caps| <= 1)
    case Challenge(_) => w.phase == Authing
    case Numeric(code) =>
      if code in {900, 903} then w.phase == Authing || w.phase == Succeeded
      else code in {902, 904, 905, 906, 907} && w.phase == Authing
  }

  /** What an answer leaves the server waiting for. */
  function PhaseAfter(reg: Reg): Phase {
    if reg.sent == [] then Offline
    else match reg.sent[|reg.sent| - 1]
      case CapReq(caps) => Asking(caps)
      case Authenticate(_) => Authing
      case _ => Ended
  }

  function Next(mechanism: string, w: World, e: Event): World
    requires Allowed(w, e)
  {
    match e
    case Dial => World(OnDial(w.reg), Listing, [], {}, {}, {}, |w.reg.sent|, 0)
    case Ls(caps, more) =>
      var reg := OnLS(mechanism, w.reg, caps, more);
      if more then w.(reg := reg)
      else w.(reg := reg, phase := PhaseAfter(reg), wanted := Wanted(mechanism, reg.serverCaps))
    case Ack(colon) =>
      var caps := w.phase.caps;
      var reg := OnAck(mechanism, w.reg, Heard(caps, colon));
      w.(reg := reg, phase := PhaseAfter(reg), answers := w.answers + 1, granted := w.granted + Elements(caps),
         unheard := if colon then w.unheard else w.unheard + Elements(caps))
    case Nak(colon) =>
      var caps := w.phase.caps;
      var reg := OnNak(mechanism, w.reg, Heard(caps, colon));
      w.(reg := reg, phase := PhaseAfter(reg), answers := w.answers + 1,
         rejected := if |caps| > 1 then w.rejected else w.rejected + Elements(caps))
    case Challenge(payload) => w.(reg := OnAuthenticate(mechanism, w.reg, payload))
    case Numeric(code) =>
      w.(reg := OnNumeric(w.reg, code), phase := if code in {900, 903} then Succeeded else Ended)
  }

  function Elements(s: seq<string>): set<string> {
    set x | x in s
  }

  predicate Legal(mechanism: string, run: seq<Event>)
    decreases |run|, 0
  {
    run == [] || (Legal(mechanism, run[..|run| - 1]) && Allowed(After(mechanism, run[..|run| - 1]), run[|run| - 1]))
  }

  function After(mechanism: string, run: seq<Event>): World
    requires Legal(mechanism, run)
    decreases |run|, 1
  {
    if run == [] then Start
    else Next(mechanism, After(mechanism, run[..|run| - 1]), run[|run| - 1])
  }

  // ---- Counting what was sent ---------------------------------------------------------------------

  function CountOut(outs: seq<Out>, p: Out -> bool): nat {
    if outs == [] then 0 else CountOut(outs[..|outs| - 1], p) + if p(outs[|outs| - 1]) then 1 else 0
  }

  /** Requests, CAP ENDs and AUTHENTICATEs sent since the last dial. */
  function Reqs(w: World): nat
    requires w.base <= |w.reg.sent|
  {
    CountOut(w.reg.sent[w.base..], (o: Out) => o.CapReq?)
  }

  function Ends(w: World): nat
    requires w.base <= |w.reg.sent|
  {
    CountOut(w.reg.sent[w.base..], (o: Out) => o.CapEnd?)
  }

  function Auths(w: World): nat
    requires w.base <= |w.reg.sent|
  {
    CountOut(w.reg.sent[w.base..], (o: Out) => o.Authenticate?)
  }

  /** How sending one more line changes the three counts. */
  lemma Sending(w: World, w2: World, o: Out)
    requires w.base == w2.base <= |w.reg.sent| && w2.reg.sent == w.reg.sent + [o]
    ensures Reqs(w2) == Reqs(w) + (if o.CapReq? then 1 else 0)
    ensures Ends(w2) == Ends(w) + (if o.CapEnd? then 1 else 0)
    ensures Auths(w2) == Auths(w) + (if o.Authenticate? then 1 else 0)
  {
    var s, s2 := w.reg.sent[w.base..], w2.reg.sent[w.base..];
    assert s2 == s + [o];
    assert s2[..|s2| - 1] == s;
  }

  // ---- The capabilities wanted --------------------------------------------------------------------

  predicate Distinct(s: seq<string>) {
    forall i, j :: 0 <= i < j < |s| ==> s[i] != s[j]
  }

  predicate KnownCap(cap: string) {
    cap in {"batch", "server-time", "message-tags", "echo-message", "chathistory", "draft/chathistory",
            "multi-prefix", "sasl"}
  }

  lemma LowerLiteral(s: string)
    requires forall i :: 0 <= i < |s| ==> !('A' <= s[i] <= 'Z')
    requires s != "" && s[0] != '-'
    ensures AckedName(s) == s
  {
    assert ToLower(s) == s;
  }

  lemma KnownCapName(cap: string)
    requires KnownCap(cap)
    ensures AckedName(cap) == cap && cap != ""
  {
    LowerLiteral(cap);
  }

  lemma {:induction false} WantedIsDistinct(desired: seq<string>, serverCaps: set<string>)
    requires Distinct(desired) && "draft/chathistory" !in desired
    requires forall i :: 0 <= i < |desired| ==> KnownCap(desired[i])
    ensures Distinct(WantedFrom(desired, serverCaps))
    ensures forall c :: c in WantedFrom(desired, serverCaps) ==>
              KnownCap(c) && (c in desired || (c == "draft/chathistory" && "chathistory" in desired))
  {
    if desired != [] {
      var n := |desired| - 1;
      WantedIsDistinct(desired[..n], serverCaps);
      assert desired[n] !in desired[..n];
    }
  }

  lemma WantedIsKnown(mechanism: string, serverCaps: set<string>)
    ensures Distinct(Wanted(mechanism, serverCaps))
    ensures forall c :: c in Wanted(mechanism, serverCaps) ==> KnownCap(c)
  {
    var desired := Desired(mechanism);
    assert Distinct(desired) && "draft/chathistory" !in desired
           && forall i :: 0 <= i < |desired| ==> KnownCap(desired[i]) by {
      if mechanism != "" {
        assert desired ==
               ["batch", "server-time", "message-tags", "echo-message", "chathistory", "multi-prefix", "sasl"];
      } else {
        assert desired == ["batch", "server-time", "message-tags", "echo-message", "chathistory", "multi-prefix"];
      }
    }
    WantedIsDistinct(desired, serverCaps);
  }

  // ---- The invariant --------------------------------------------------------------------------------

  function Outstanding(w: World): seq<string> {
    if w.phase.Asking? then w.phase.caps else []
  }

  /** Every wanted capability is in exactly one place: granted, rejected, outstanding or queued. */
  predicate Conserved(w: World) {
    var asked, queued := Elements(Outstanding(w)), Elements(w.reg.capQueue);
    && Elements(w.wanted) == w.granted + w.rejected + asked + queued
    && w.granted !! w.rejected !! asked !! queued
    && Distinct(w.wanted) && Distinct(Outstanding(w)) && Distinct(w.reg.capQueue)
    && forall c :: c in w.wanted ==> KnownCap(c)
  }

  function Unanswered(w: World): nat {
    if w.phase.Asking? then 1 else 0
  }

  /** What the bouncer has recorded: all that was granted, except what it did not hear. */
  predicate Recorded(w: World) {
    w.reg.ackedCaps == w.granted - w.unheard && w.unheard <= w.granted
  }

  predicate SaslGranted(mechanism: string, w: World) {
    mechanism != "" && "sasl" in w.granted
  }

  predicate SaslAgreed(mechanism: string, w: World) {
    SaslGranted(mechanism, w) && "sasl" !in w.unheard
  }

  predicate Negotiated(w: World) {
    w.phase == Authing || w.phase == Succeeded || w.phase == Ended
  }

  predicate Inv(mechanism: string, w: World) {
    && w.base <= |w.reg.sent|
    && Conserved(w) && Recorded(w)
    && Reqs(w) == w.answers + Unanswered(w)
    && Ends(w) == (if w.phase == Succeeded || w.phase == Ended then 1 else 0)
    && Auths(w) == (if Negotiated(w) && SaslAgreed(mechanism, w) then 1 else 0)
    && (w.phase == Listing || w.phase == Offline ==>
          w.granted == {} && w.unheard == {} && w.rejected == {} && w.reg.capQueue == [] && Reqs(w) == 0)
    && (w.phase.Asking? && |w.phase.caps| > 1 ==>
          w.phase.caps == w.wanted && w.reg.capQueue == [] && Reqs(w) == 1)
    && (!(w.phase.Asking? && |w.phase.caps| > 1) ==> Reqs(w) + |w.reg.capQueue| <= |w.wanted| + 1)
    && (Negotiated(w) ==> w.reg.capQueue == [])
    && (w.phase == Authing || w.phase == Succeeded ==> SaslAgreed(mechanism, w))
    && (w.phase == Succeeded <== w.reg.saslDone)
    && (w.phase == Succeeded ==> w.reg.saslDone)
  }

  lemma AckedNamesAre(caps: seq<string>)
    requires forall c :: c in caps ==> KnownCap(c)
    ensures AckedNames(caps) == Elements(caps)
  {
    forall i | 0 <= i < |caps|
      ensures AckedName(caps[i]) == caps[i]
    {
      KnownCapName(caps[i]);
    }
    forall x | x in Elements(caps)
      ensures x in AckedNames(caps)
    {
      var i :| 0 <= i < |caps| && caps[i] == x;
      assert AckedName(caps[i]) == x;
    }
  }

  /** What Proceed sends and leaves queued. */
  lemma ProceedShape(mechanism: string, r: Reg)
    requires forall c :: c in r.capQueue ==> KnownCap(c)
    ensures var r2 := Proceed(mechanism, r);
            var sasl := mechanism != "" && "sasl" in r.ackedCaps;
            if r.capQueue != [] then
              r2.capQueue == r.capQueue[1..] && r2.sent == r.sent + [CapReq([r.capQueue[0]])]
              && PhaseAfter(r2) == Asking([r.capQueue[0]])
            else
              r2.capQueue == [] && PhaseAfter(r2) == (if sasl then Authing else Ended)
              && r2.sent == r.sent + [if sasl then Authenticate(mechanism) else CapEnd]
  {
    if r.capQueue != [] {
      assert r.capQueue[0] in r.capQueue;
      KnownCapName(r.capQueue[0]);
    }
  }

  lemma QueueKnown(w: World)
    requires Conserved(w)
    ensures forall c :: c in w.reg.capQueue ==> KnownCap(c)
    ensures forall c :: c in Outstanding(w) ==> KnownCap(c)
  {
    forall c | c in w.reg.capQueue || c in Outstanding(w)
      ensures KnownCap(c)
    {
      assert c in Elements(w.reg.capQueue) + Elements(Outstanding(w));
      assert c in Elements(w.wanted);
    }
  }

  lemma TakeFirst(s: seq<string>)
    requires s != [] && Distinct(s)
    ensures Elements(s) == {s[0]} + Elements(s[1..]) && Elements([s[0]]) == {s[0]}
    ensures Distinct(s[1..]) && s[0] !in Elements(s[1..])
  {
  }

  /** Settling a request whose capabilities have found their place keeps the invariant. */
  lemma Settled(mechanism: string, w: World, w1: World, w2: World)
    requires Inv(mechanism, w) && w.phase.Asking?
    requires w1.phase == Ended && Conserved(w1) && Recorded(w1) && w1.wanted == w.wanted && w1.base == w.base
    requires w1.reg.capQueue == w.reg.capQueue && w1.reg.sent == w.reg.sent && w1.reg.saslDone == w.reg.saslDone
    requires w2.reg == Proceed(mechanism, w1.reg) && w2.phase == PhaseAfter(w2.reg)
    requires w2.wanted == w1.wanted && w2.rejected == w1.rejected && w2.base == w1.base
    requires w2.granted == w1.granted && w2.unheard == w1.unheard
    requires w2.answers == w.answers + 1
    ensures Inv(mechanism, w2)
    ensures w2.phase != Listing && w2.phase != Offline
  {
    var queue := w1.reg.capQueue;
    QueueKnown(w1);
    ProceedShape(mechanism, w1.reg);
    Sending(w, w2, w2.reg.sent[|w2.reg.sent| - 1]);
    if queue != [] {
      TakeFirst(queue);
    }
  }

  lemma KnownCapWord(cap: string)
    requires KnownCap(cap)
    ensures CapWord(cap)
  {
    if cap in {"batch", "server-time", "message-tags", "echo-message"} {
      ShortCapWord(cap);
    } else {
      LongCapWord(cap);
    }
  }

  lemma ShortCapWord(cap: string)
    requires cap in {"batch", "server-time", "message-tags", "echo-message"}
    ensures CapWord(cap)
  {
  }

  lemma LongCapWord(cap: string)
    requires cap in {"chathistory", "draft/chathistory", "multi-prefix", "sasl"}
    ensures CapWord(cap)
  {
  }

  /** The answer's words as the handlers go through them. */
  lemma HeardIs(caps: seq<string>, colon: bool)
    requires forall c :: c in caps ==> KnownCap(c)
    requires !colon ==> |caps| <= 1
    ensures Heard(caps, colon) == if colon then caps else []
  {
    forall i | 0 <= i < |caps|
      ensures CapWord(caps[i])
    {
      KnownCapWord(caps[i]);
    }
    if colon { HeardWithColon(caps); } else { HeardBare(caps); }
  }

  lemma InvAck(mechanism: string, w: World, colon: bool)
    requires Inv(mechanism, w) && Allowed(w, Ack(colon))
    ensures Inv(mechanism, Next(mechanism, w, Ack(colon)))
  {
    var caps := w.phase.caps;
    var heard := if colon then caps else [];
    QueueKnown(w);
    HeardIs(caps, colon);
    AckedNamesAre(heard);
    var w1 := w.(phase := Ended, reg := w.reg.(ackedCaps := w.reg.ackedCaps + AckedNames(heard)),
                 granted := w.granted + Elements(caps),
                 unheard := if colon then w.unheard else w.unheard + Elements(caps));
    Settled(mechanism, w, w1, Next(mechanism, w, Ack(colon)));
  }

  lemma InvNak(mechanism: string, w: World, colon: bool)
    requires Inv(mechanism, w) && Allowed(w, Nak(colon))
    ensures Inv(mechanism, Next(mechanism, w, Nak(colon)))
  {
    QueueKnown(w);
    HeardIs(w.phase.caps, colon);
    if |w.phase.caps| > 1 { InvBulkNak(mechanism, w); } else { InvSingleNak(mechanism, w, colon); }
  }

  lemma InvBulkNak(mechanism: string, w: World)
    requires Inv(mechanism, w) && w.phase.Asking? && |w.phase.caps| > 1
    requires Heard(w.phase.caps, true) == w.phase.caps
    ensures Inv(mechanism, Next(mechanism, w, Nak(true)))
    ensures var w2 := Next(mechanism, w, Nak(true));
            w2.phase == Asking([w.phase.caps[0]]) && w2.reg.capQueue == w.phase.caps[1..]
  {
    var caps := w.phase.caps;
    var w2 := Next(mechanism, w, Nak(true));
    Sending(w, w2, CapReq([caps[0]]));
    assert w2.phase == Asking([caps[0]]) && w2.reg.capQueue == caps[1..];
    TakeFirst(caps);
    assert Elements(w.reg.capQueue) == {};
  }

  lemma InvSingleNak(mechanism: string, w: World, colon: bool)
    requires Inv(mechanism, w) && w.phase.Asking? && |w.phase.caps| <= 1
    requires |Heard(w.phase.caps, colon)| <= 1
    ensures Inv(mechanism, Next(mechanism, w, Nak(colon)))
  {
    var w1 := w.(phase := Ended, rejected := w.rejected + Elements(w.phase.caps));
    Settled(mechanism, w, w1, Next(mechanism, w, Nak(colon)));
  }

  lemma InvLs(mechanism: string, w: World, caps: seq<string>, more: bool)
    requires Inv(mechanism, w) && w.phase == Listing
    ensures Inv(mechanism, Next(mechanism, w, Ls(caps, more)))
  {
    var w2 := Next(mechanism, w, Ls(caps, more));
    if !more {
      WantedIsKnown(mechanism, w2.reg.serverCaps);
      Sending(w, w2, CapReq(w2.wanted));
    }
  }

  lemma InvDial(mechanism: string, w: World)
    ensures Inv(mechanism, Next(mechanism, w, Dial))
  {
    var w2 := Next(mechanism, w, Dial);
    assert w2.reg.sent[w2.base..] == [CapLS];
    assert [CapLS][..0] == [];
  }

  lemma InvChallenge(mechanism: string, w: World, payload: string)
    requires Inv(mechanism, w) && w.phase == Authing
    ensures Inv(mechanism, Next(mechanism, w, Challenge(payload)))
  {
    var w2 := Next(mechanism, w, Challenge(payload));
    if payload == "+" {
      Sending(w, w2, w2.reg.sent[|w2.reg.sent| - 1]);
    }
  }

  lemma InvNumeric(mechanism: string, w: World, code: nat)
    requires Inv(mechanism, w) && Allowed(w, Numeric(code))
    ensures Inv(mechanism, Next(mechanism, w, Numeric(code)))
  {
    var w2 := Next(mechanism, w, Numeric(code));
    if w2.reg.sent != w.reg.sent {
      Sending(w, w2, CapEnd);
    }
  }

  lemma {:induction false} InvAlways(mechanism: string, run: seq<Event>)
    requires Legal(mechanism, run)
    ensures Inv(mechanism, After(mechanism, run))
  {
    if run != [] {
      var e := run[|run| - 1];
      var w := After(mechanism, run[..|run| - 1]);
      InvAlways(mechanism, run[..|run| - 1]);
      match e
      case Ls(caps, more) => InvLs(mechanism, w, caps, more);
      case Ack(colon) => InvAck(mechanism, w, colon);
      case Nak(colon) => InvNak(mechanism, w, colon);
      case Dial => InvDial(mechanism, w);
      case Challenge(payload) => InvChallenge(mechanism, w, payload);
      case Numeric(code) => InvNumeric(mechanism, w, code);
    }
  }

  // ---- Main results -----------------------------------------------------------------------------------

  /** At every step of every run: the wanted capabilities are the disjoint union of granted, rejected,
      outstanding and queued, the bouncer has recorded what was granted except what it did not hear, at
      most one of the requests sent is unanswered, and no more than |wanted| + 1 requests have been sent. */
  lemma NegotiationConserves(mechanism: string, run: seq<Event>)
    requires Legal(mechanism, run)
    ensures var w := After(mechanism, run);
            w.base <= |w.reg.sent| && Conserved(w) && Recorded(w)
            && w.answers <= Reqs(w) <= w.answers + 1 && Reqs(w) <= |w.wanted| + 1
  {
    InvAlways(mechanism, run);
  }

  /** Once no request is outstanding, negotiation has ended in one AUTHENTICATE or one CAP END. It is the
      one that the promise asks for, AUTHENTICATE just when SASL is configured and was granted, exactly
      when the grant was not a lone `sasl` acknowledged without a colon. */
  lemma NegotiationOutcome(mechanism: string, run: seq<Event>)
    requires Legal(mechanism, run) && Negotiated(After(mechanism, run))
    ensures var w := After(mechanism, run);
            w.base <= |w.reg.sent|
            && Elements(w.wanted) == w.granted + w.rejected
            && Auths(w) == (if SaslAgreed(mechanism, w) then 1 else 0)
            && (Auths(w) == 0 ==> Ends(w) == 1)
            && ((Auths(w) == 1 <==> SaslGranted(mechanism, w)) <==> !(mechanism != "" && "sasl" in w.unheard))
  {
    InvAlways(mechanism, run);
  }

  /** A server that grants `sasl` as the only word of its answer, and prints it bare, ends without SASL. */
  lemma BareAckLosesSasl(mechanism: string)
    requires mechanism != ""
    ensures var run := [Dial, Ls(["sasl"], false), Ack(false)];
            Legal(mechanism, run)
            && var w := After(mechanism, run);
            && SaslGranted(mechanism, w) && w.phase == Ended && w.reg.sent == [CapLS, CapReq(["sasl"]), CapEnd]
  {
    var r1, r2, run := [Dial], [Dial, Ls(["sasl"], false)], [Dial, Ls(["sasl"], false), Ack(false)];
    assert r1[..0] == [] && r2[..1] == r1 && run[..2] == r2;
    assert Legal(mechanism, r1) && After(mechanism, r1) == Next(mechanism, Start, Dial);
    AskedForSasl(mechanism);
    assert Legal(mechanism, r2) && After(mechanism, r2) == AfterSaslOffer();
    BareAckStep(mechanism);
  }

  function AfterSaslOffer(): World {
    World(Reg({"sasl"}, {}, [], false, false, [CapLS, CapReq(["sasl"])]), Asking(["sasl"]), ["sasl"], {}, {}, {}, 0, 0)
  }

  lemma AskedForSasl(mechanism: string)
    requires mechanism != ""
    ensures Next(mechanism, Next(mechanism, Start, Dial), Ls(["sasl"], false)) == AfterSaslOffer()
  {
    var w := Next(mechanism, Start, Dial);
    assert w == World(Reg({}, {}, [], false, false, [CapLS]), Listing, [], {}, {}, {}, 0, 0);
    OnlySasl(mechanism, w.reg);
    var asked := AfterSaslOffer().reg;
    assert w.reg.sent + [CapReq(["sasl"])] == asked.sent;
    LsFinal(mechanism, w, ["sasl"], asked);
  }

  lemma LsFinal(mechanism: string, w: World, caps: seq<string>, reg: Reg)
    requires w.phase == Listing && reg == OnLS(mechanism, w.reg, caps, false)
    ensures Next(mechanism, w, Ls(caps, false))
         == w.(reg := reg, phase := PhaseAfter(reg), wanted := Wanted(mechanism, reg.serverCaps))
  {
  }

  lemma BareAckStep(mechanism: string)
    requires mechanism != ""
    ensures var w := Next(mechanism, AfterSaslOffer(), Ack(false));
            "sasl" in w.granted && w.phase == Ended && w.reg.sent == [CapLS, CapReq(["sasl"]), CapEnd]
  {
    HeardIs(["sasl"], false);
    assert AckedNames([]) == {};
  }

  lemma SaslAdvertised()
    ensures AdvertisedNames(["sasl"]) == {"sasl"}
  {
    assert Index("sasl", '=') < 0;
    assert ToLower("sasl") == "sasl";
    assert AdvertisedName("sasl") == "sasl";
  }

  lemma OnlySasl(mechanism: string, r: Reg)
    requires mechanism != "" && r.serverCaps == {}
    ensures OnLS(mechanism, r, ["sasl"], false)
         == r.(serverCaps := {"sasl"}, sent := r.sent + [CapReq(["sasl"])])
    ensures Wanted(mechanism, {"sasl"}) == ["sasl"]
  {
    SaslAdvertised();
    assert {} + {"sasl"} == {"sasl"};
    WantedNone(DesiredCaps);
    WantedLast(DesiredCaps, {"sasl"});
    assert Desired(mechanism) == DesiredCaps + ["sasl"];
  }

  lemma WantedLast(desired: seq<string>, serverCaps: set<string>)
    requires WantedFrom(desired, serverCaps) == [] && "sasl" in serverCaps
    ensures WantedFrom(desired + ["sasl"], serverCaps) == ["sasl"]
  {
    assert (desired + ["sasl"])[..|desired|] == desired;
  }

  lemma {:induction false} WantedNone(desired: seq<string>)
    requires "sasl" !in desired
    ensures WantedFrom(desired, {"sasl"}) == []
  {
    if desired != [] {
      WantedNone(desired[..|desired| - 1]);
    }
  }

  /** CAP END is sent once since the last dial when registration has completed, and not before. */
  lemma CapEndOnce(mechanism: string, run: seq<Event>)
    requires Legal(mechanism, run)
    ensures var w := After(mechanism, run);
            w.base <= |w.reg.sent| && Ends(w) == (if w.phase == Succeeded || w.phase == Ended then 1 else 0)
  {
    InvAlways(mechanism, run);
  }

  /** How many more answers the server can be asked for. */
  function Budget(w: World): nat {
    if !w.phase.Asking? then 0
    else (if |w.phase.caps| > 1 then |w.phase.caps| + 1 else 1) + |w.reg.capQueue|
  }

  predicate Answers(w: World, e: Event) {
    (e.Ack? || e.Nak?) && Allowed(w, e)
  }

  lemma AnswerSpends(mechanism: string, w: World, e: Event)
    requires Inv(mechanism, w) && Answers(w, e)
    ensures Budget(Next(mechanism, w, e)) < Budget(w)
  {
    QueueKnown(w);
    HeardIs(w.phase.caps, e.colon);
    if e.Ack? {
      AckSpends(mechanism, w, e.colon);
    } else if |w.phase.caps| > 1 {
      InvBulkNak(mechanism, w);
    } else {
      ProceedShape(mechanism, w.reg);
    }
  }

  lemma AckSpends(mechanism: string, w: World, colon: bool)
    requires Allowed(w, Ack(colon)) && forall c :: c in w.reg.capQueue ==> KnownCap(c)
    ensures Budget(Next(mechanism, w, Ack(colon))) < Budget(w)
  {
    var heard := Heard(w.phase.caps, colon);
    ProceedShape(mechanism, w.reg.(ackedCaps := w.reg.ackedCaps + AckedNames(heard)));
  }

  /** Worlds that follow one another by an ACK or a NAK each. */
  ghost predicate Answering(mechanism: string, ws: seq<World>) {
    forall i :: 0 <= i < |ws| - 1 ==> Answered(mechanism, ws[i], ws[i + 1])
  }

  ghost predicate Answered(mechanism: string, w: World, w2: World) {
    exists e :: Answers(w, e) && w2 == Next(mechanism, w, e)
  }

  lemma AnsweredOnce(mechanism: string, w: World, w2: World)
    requires Inv(mechanism, w) && Answered(mechanism, w, w2)
    ensures Inv(mechanism, w2) && Budget(w2) < Budget(w)
  {
    var e :| Answers(w, e) && w2 == Next(mechanism, w, e);
    AnswerSpends(mechanism, w, e);
    if e.Ack? { InvAck(mechanism, w, e.colon); } else { InvNak(mechanism, w, e.colon); }
  }

  lemma {:induction false} AnswersBounded(mechanism: string, ws: seq<World>)
    requires ws != [] && Inv(mechanism, ws[0]) && Answering(mechanism, ws)
    ensures |ws| - 1 <= Budget(ws[0])
  {
    if |ws| > 1 {
      AnsweredOnce(mechanism, ws[0], ws[1]);
      AnswersBounded(mechanism, ws[1..]);
    }
  }

  /** Negotiation terminates: from no point of any run can more answers follow one another than there
      are wanted capabilities, plus one. */
  lemma NegotiationTerminates(mechanism: string, run: seq<Event>, ws: seq<World>)
    requires Legal(mechanism, run) && ws != [] && ws[0] == After(mechanism, run) && Answering(mechanism, ws)
    ensures |ws| - 1 <= |ws[0].wanted| + 1
  {
    InvAlways(mechanism, run);
    AnswersBounded(mechanism, ws);
    QueueWithinWanted(ws[0]);
  }

  lemma {:induction false} DistinctSize(s: seq<string>)
    requires Distinct(s)
    ensures |Elements(s)| == |s|
  {
    if s != [] {
      TakeFirst(s);
      DistinctSize(s[1..]);
    }
  }

  lemma QueueWithinWanted(w: World)
    requires Conserved(w)
    requires w.phase.Asking? && |w.phase.caps| > 1 ==> w.reg.capQueue == []
    ensures Budget(w) <= |w.wanted| + 1
  {
    DistinctSize(w.wanted);
    DistinctSize(w.reg.capQueue);
    DistinctSize(Outstanding(w));
    var asked, queued := Elements(Outstanding(w)), Elements(w.reg.capQueue);
    assert asked + queued <= Elements(w.wanted);
    SubsetSize(asked + queued, Elements(w.wanted));
  }

  lemma {:induction false} SubsetSize(a: set<string>, b: set<string>)
    requires a <= b
    ensures |a| <= |b|
  {
    if a != {} {
      var x :| x in a;
      SubsetSize(a - {x}, b - {x});
    }
  }

  // ---- Numerics outside the protocol ------------------------------------------------------------------

  function OnNumerics(r: Reg, codes: seq<nat>): Reg {
    if codes == [] then r else OnNumeric(OnNumerics(r, codes[..|codes| - 1]), codes[|codes| - 1])
  }

  function Failures(codes: seq<nat>): nat {
    if codes == [] then 0
    else Failures(codes[..|codes| - 1]) + if codes[|codes| - 1] in {902, 904, 905, 906, 907} then 1 else 0
  }

  function Successes(codes: seq<nat>): nat {
    if codes == [] then 0 else Successes(codes[..|codes| - 1]) + if codes[|codes| - 1] in {900, 903} then 1 else 0
  }

  function CapEnds(outs: seq<Out>): nat {
    CountOut(outs, (o: Out) => o.CapEnd?)
  }

  /** What one numeric adds. */
  lemma NumericAdds(r: Reg, code: nat)
    ensures var r2 := OnNumeric(r, code);
            r2.saslDone == (r.saslDone || IsSuccess(code))
            && CapEnds(r2.sent)
               == CapEnds(r.sent) + if IsFailure(code) || (IsSuccess(code) && !r.saslDone) then 1 else 0
  {
    var r2 := OnNumeric(r, code);
    if r2.sent != r.sent {
      assert r2.sent[..|r2.sent| - 1] == r.sent;
    }
  }

  /** For any numerics whatever after AUTHENTICATE: one CAP END per failure and one for all successes
      together. So exactly one is sent just when there is one failure and no success, or some success
      and no failure. */
  lemma {:induction false} NumericsCount(r: Reg, codes: seq<nat>)
    requires !r.saslDone
    ensures var r2 := OnNumerics(r, codes);
            r2.saslDone == (Successes(codes) > 0)
            && CapEnds(r2.sent) == CapEnds(r.sent) + Failures(codes) + if Successes(codes) > 0 then 1 else 0
  {
    if codes != [] {
      var n := |codes| - 1;
      NumericsCount(r, codes[..n]);
      NumericAdds(OnNumerics(r, codes[..n]), codes[n]);
    }
  }
}
