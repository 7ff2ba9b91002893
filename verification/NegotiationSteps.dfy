/** What every step of a negotiation makes the bouncer send, and what it asks for, told without its handlers. */
module NegotiationSteps {
  import opened GoStrings
  import opened CapLine
  import opened Registration
  import opened Negotiation

  /** PLAIN in any mixture of cases. */
  predicate IsPlain(mechanism: string) {
    && |mechanism| == 5 && mechanism[0] in "Pp" && mechanism[1] in "Ll" && mechanism[2] in "Aa"
    && mechanism[3] in "Ii" && mechanism[4] in "Nn"
  }

  lemma PlainIs(mechanism: string)
    ensures ToUpper(mechanism) == "PLAIN" <==> IsPlain(mechanism)
  {
    var upper := ToUpper(mechanism);
    if |mechanism| == 5 {
      assert upper == "PLAIN" <==>
             upper[0] == 'P' && upper[1] == 'L' && upper[2] == 'A' && upper[3] == 'I' && upper[4] == 'N';
    }
  }

  /** What a settled request is followed by. */
  function FollowUp(mechanism: string, queue: seq<string>, acked: set<string>): Out {
    if queue != [] then CapReq([queue[0]])
    else if mechanism != "" && "sasl" in acked then Authenticate(mechanism)
    else CapEnd
  }

  /** The lines that event `e` makes the bouncer write. */
  function Replies(mechanism: string, w: World, e: Event): seq<Out>
    requires Allowed(w, e)
  {
    match e
    case Dial => [CapLS]
    case Ls(_, more) => if more then [] else [CapReq(Next(mechanism, w, e).wanted)]
    case Ack(colon) =>
      var caps := w.phase.caps;
      [FollowUp(mechanism, w.reg.capQueue, w.reg.ackedCaps + if colon then Elements(caps) else {})]
    case Nak(_) =>
      var caps := w.phase.caps;
      if |caps| > 1 then [CapReq([caps[0]])] else [FollowUp(mechanism, w.reg.capQueue, w.reg.ackedCaps)]
    case Challenge(payload) => if payload != "+" then [] else if IsPlain(mechanism) then [Credentials] else [AuthAbort]
    case Numeric(code) => if code in {900, 903} && w.phase == Succeeded then [] else [CapEnd]
  }

  /** At every step of every run the bouncer writes just these lines. */
  lemma StepSends(mechanism: string, run: seq<Event>, e: Event)
    requires Legal(mechanism, run + [e])
    ensures Legal(mechanism, run) && Allowed(After(mechanism, run), e)
    ensures var w := After(mechanism, run);
            After(mechanism, run + [e]).reg.sent == w.reg.sent + Replies(mechanism, w, e)
  {
    assert (run + [e])[..|run + [e]| - 1] == run;
    InvAlways(mechanism, run);
    EventSends(mechanism, After(mechanism, run), e);
  }

  lemma EventSends(mechanism: string, w: World, e: Event)
    requires Inv(mechanism, w) && Allowed(w, e)
    ensures Next(mechanism, w, e).reg.sent == w.reg.sent + Replies(mechanism, w, e)
  {
    match e
    case Ack(colon) => AckSends(mechanism, w, colon);
    case Nak(colon) => NakSends(mechanism, w, colon);
    case Challenge(_) => PlainIs(mechanism);
    case _ =>
  }

  lemma AckSends(mechanism: string, w: World, colon: bool)
    requires Inv(mechanism, w) && Allowed(w, Ack(colon))
    ensures Next(mechanism, w, Ack(colon)).reg.sent == w.reg.sent + Replies(mechanism, w, Ack(colon))
  {
    var heard := if colon then w.phase.caps else [];
    QueueKnown(w);
    HeardIs(w.phase.caps, colon);
    AckedNamesAre(heard);
    ProceedShape(mechanism, w.reg.(ackedCaps := w.reg.ackedCaps + AckedNames(heard)));
  }

  lemma NakSends(mechanism: string, w: World, colon: bool)
    requires Inv(mechanism, w) && Allowed(w, Nak(colon))
    ensures Next(mechanism, w, Nak(colon)).reg.sent == w.reg.sent + Replies(mechanism, w, Nak(colon))
  {
    QueueKnown(w);
    HeardIs(w.phase.caps, colon);
    ProceedShape(mechanism, w.reg);
  }

  /** Credentials go out in no other step than the answer to `+` under PLAIN, and every AUTHENTICATE that
      opens SASL names the configured mechanism. */
  lemma SecretsOnly(mechanism: string, run: seq<Event>, e: Event)
    requires Legal(mechanism, run + [e])
    ensures var before, after := After(mechanism, run).reg.sent, After(mechanism, run + [e]).reg.sent;
            && before <= after && |after| <= |before| + 1
            && (Credentials in after[|before|..] <==> e == Challenge("+") && IsPlain(mechanism))
            && (AuthAbort in after[|before|..] <==> e == Challenge("+") && !IsPlain(mechanism))
            && forall name :: Authenticate(name) in after[|before|..] ==> name == mechanism
  {
    StepSends(mechanism, run, e);
    var before, after := After(mechanism, run).reg.sent, After(mechanism, run + [e]).reg.sent;
    ReplySecrets(mechanism, After(mechanism, run), e);
    Appended(before, Replies(mechanism, After(mechanism, run), e), after);
  }

  lemma Appended(before: seq<Out>, more: seq<Out>, after: seq<Out>)
    requires after == before + more
    ensures before <= after && after[|before|..] == more
  {
  }

  lemma ReplySecrets(mechanism: string, w: World, e: Event)
    requires Allowed(w, e)
    ensures var r := Replies(mechanism, w, e);
            && |r| <= 1
            && (Credentials in r <==> e == Challenge("+") && IsPlain(mechanism))
            && (AuthAbort in r <==> e == Challenge("+") && !IsPlain(mechanism))
            && forall name :: Authenticate(name) in r ==> name == mechanism
  {
  }

  /** The request was for several names and none of them was granted. */
  predicate Refused(w: World, e: Event)
    requires Answers(w, e)
  {
    e.Nak? && |w.phase.caps| > 1
  }

  /** The world asks for the first of these names and has the others queued, in order. */
  predicate AsksThrough(w: World, names: seq<string>) {
    names != [] && w.phase == Asking([names[0]]) && w.reg.capQueue == names[1..]
  }

  /** A list that was rejected as a whole is asked for again name by name, in its order. */
  lemma OneByOne(mechanism: string, run: seq<Event>, e: Event)
    requires Legal(mechanism, run) && Answers(After(mechanism, run), e) && Legal(mechanism, run + [e])
    ensures var w, w2 := After(mechanism, run), After(mechanism, run + [e]);
            && (Refused(w, e) ==> AsksThrough(w2, w.phase.caps))
            && (!Refused(w, e) && w.reg.capQueue != [] ==> AsksThrough(w2, w.reg.capQueue))
  {
    assert (run + [e])[..|run + [e]| - 1] == run;
    InvAlways(mechanism, run);
    QueueStep(mechanism, After(mechanism, run), e);
  }

  lemma QueueStep(mechanism: string, w: World, e: Event)
    requires Inv(mechanism, w) && Answers(w, e)
    ensures var w2 := Next(mechanism, w, e);
            && (Refused(w, e) ==> AsksThrough(w2, w.phase.caps))
            && (!Refused(w, e) && w.reg.capQueue != [] ==> AsksThrough(w2, w.reg.capQueue))
  {
    QueueKnown(w);
    HeardIs(w.phase.caps, e.colon);
    if Refused(w, e) {
      InvBulkNak(mechanism, w);
    } else if w.reg.capQueue != [] {
      if e.Ack? { AckQueue(mechanism, w, e.colon); } else { NakQueue(mechanism, w, e.colon); }
    }
  }

  lemma AckQueue(mechanism: string, w: World, colon: bool)
    requires Allowed(w, Ack(colon)) && w.reg.capQueue != [] && forall c :: c in w.reg.capQueue ==> KnownCap(c)
    ensures AsksThrough(Next(mechanism, w, Ack(colon)), w.reg.capQueue)
  {
    var heard := Heard(w.phase.caps, colon);
    ProceedShape(mechanism, w.reg.(ackedCaps := w.reg.ackedCaps + AckedNames(heard)));
  }

  lemma NakQueue(mechanism: string, w: World, colon: bool)
    requires Allowed(w, Nak(colon)) && w.reg.capQueue != [] && forall c :: c in w.reg.capQueue ==> KnownCap(c)
    requires |Heard(w.phase.caps, colon)| <= 1
    ensures AsksThrough(Next(mechanism, w, Nak(colon)), w.reg.capQueue)
  {
    ProceedShape(mechanism, w.reg);
  }

  // ---- What is asked for ----------------------------------------------------------------------------

  /** The names that the server has listed since the last dial, over all the lines of its list. */
  function Listed(run: seq<Event>): set<string> {
    if run == [] then {}
    else
      var before := Listed(run[..|run| - 1]);
      match run[|run| - 1]
      case Dial => {}
      case Ls(caps, _) => before + set i | 0 <= i < |caps| :: AdvertisedName(caps[i])
      case _ => before
  }

  lemma {:induction false} ListedAlways(mechanism: string, run: seq<Event>)
    requires Legal(mechanism, run)
    ensures After(mechanism, run).reg.serverCaps == Listed(run)
  {
    if run != [] {
      ListedAlways(mechanism, run[..|run| - 1]);
    }
  }

  /** The name is what stands before the `=`, in lower case. */
  lemma NameListed(name: string, value: string)
    requires '=' !in name
    ensures AdvertisedName(name) == ToLower(name) && AdvertisedName(name + "=" + value) == ToLower(name)
  {
    assert name + "=" + value == name + ['='] + value;
    SplitNFirst(name, '=', value, 2);
    assert Index(name, '=') < 0;
  }

  /** Letter by letter: position k of the one alphabet becomes position k of the other, all else stays. */
  lemma ToLowerLetters(s: string, i: nat)
    requires i < |s|
    ensures (exists k :: 0 <= k < 26 && s[i] == "ABCDEFGHIJKLMNOPQRSTUVWXYZ"[k]
                         && ToLower(s)[i] == "abcdefghijklmnopqrstuvwxyz"[k])
            || (s[i] !in "ABCDEFGHIJKLMNOPQRSTUVWXYZ" && ToLower(s)[i] == s[i])
  {
    if 'A' <= s[i] <= 'Z' {
      var k := s[i] as int - 'A' as int;
      Alphabet(k);
      assert s[i] == "ABCDEFGHIJKLMNOPQRSTUVWXYZ"[k];
    }
  }

  /** A granted name is recorded in lower case and without a `-` before it. */
  lemma NameAcked(name: string)
    requires !StartsWith(name, '-')
    ensures AckedName(name) == ToLower(name) && AckedName("-" + name) == ToLower(name)
  {
    assert ("-" + name)[1..] == name;
  }

  /** Which names are wanted of those on offer. */
  predicate Wants(mechanism: string, offer: set<string>, c: string) {
    || (c in {"batch", "server-time", "message-tags", "echo-message", "chathistory", "multi-prefix"} && c in offer)
    || (c == "sasl" && mechanism != "" && c in offer)
    || (c == "draft/chathistory" && c in offer && "chathistory" !in offer)
  }

  lemma {:induction false} WantedFromIs(desired: seq<string>, offer: set<string>, c: string)
    requires "draft/chathistory" !in desired
    ensures c in WantedFrom(desired, offer) <==>
            || (c in desired && c in offer)
            || (c == "draft/chathistory" && "chathistory" in desired && c in offer && "chathistory" !in offer)
  {
    if desired != [] {
      var n := |desired| - 1;
      WantedFromIs(desired[..n], offer, c);
      assert desired == desired[..n] + [desired[n]];
    }
  }

  /** The request names every capability on offer that is wanted, and no other. */
  lemma WantedExactly(mechanism: string, offer: set<string>, c: string)
    ensures c in Wanted(mechanism, offer) <==> Wants(mechanism, offer, c)
  {
    var desired := Desired(mechanism);
    assert forall x :: x in DesiredCaps <==>
             x in {"batch", "server-time", "message-tags", "echo-message", "chathistory", "multi-prefix"};
    assert forall x :: x in desired <==> x in DesiredCaps || (x == "sasl" && mechanism != "");
    WantedFromIs(desired, offer, c);
  }

  /** When the last line of the list has come, the bouncer asks once, for exactly the wanted names of all
      the lines. */
  lemma AsksForOffered(mechanism: string, run: seq<Event>, caps: seq<string>, c: string)
    requires Legal(mechanism, run + [Ls(caps, false)])
    ensures var w := After(mechanism, run + [Ls(caps, false)]);
            && w.phase == Asking(w.wanted) && w.reg.sent != [] && w.reg.sent[|w.reg.sent| - 1] == CapReq(w.wanted)
            && (c in w.wanted <==> Wants(mechanism, Listed(run + [Ls(caps, false)]), c))
  {
    var longer := run + [Ls(caps, false)];
    assert longer[..|longer| - 1] == run;
    StepSends(mechanism, run, Ls(caps, false));
    ListedAlways(mechanism, longer);
    WantedExactly(mechanism, Listed(longer), c);
  }

  // ---- The flag -------------------------------------------------------------------------------------

  /** `capInflight` is set for all requests but the first: it is no count of what is outstanding. */
  lemma {:induction false} InflightMeans(mechanism: string, run: seq<Event>)
    requires Legal(mechanism, run)
    ensures var w := After(mechanism, run); w.reg.capInflight <==> w.phase.Asking? && w.answers > 0
  {
    if run != [] {
      var n := |run| - 1;
      InflightMeans(mechanism, run[..n]);
      InvAlways(mechanism, run[..n]);
      InflightStep(mechanism, After(mechanism, run[..n]), run[n]);
    }
  }

  lemma InflightStep(mechanism: string, w: World, e: Event)
    requires Inv(mechanism, w) && Allowed(w, e) && (w.reg.capInflight <==> w.phase.Asking? && w.answers > 0)
    ensures var w2 := Next(mechanism, w, e); w2.reg.capInflight <==> w2.phase.Asking? && w2.answers > 0
  {
    match e
    case Ack(colon) =>
      var heard := if colon then w.phase.caps else [];
      QueueKnown(w);
      HeardIs(w.phase.caps, colon);
      ProceedShape(mechanism, w.reg.(ackedCaps := w.reg.ackedCaps + AckedNames(heard)));
    case Nak(colon) =>
      QueueKnown(w);
      HeardIs(w.phase.caps, colon);
      ProceedShape(mechanism, w.reg);
    case Ls(_, more) => if !more { FirstAsk(mechanism, w); }
    case _ =>
  }

  lemma FirstAsk(mechanism: string, w: World)
    requires Inv(mechanism, w) && w.phase == Listing
    ensures w.answers == 0
  {
  }
}
