/** Capability negotiation and SASL during registration: the handlers of one connection object. */
module Registration {
  import opened GoStrings

  /** What the bouncer writes upstream during registration. */
  datatype Out =
    | CapLS
    | CapReq(caps: seq<string>)
    | Authenticate(mechanism: string)
    | Credentials            // AUTHENTICATE with the encoded user name and password
    | AuthAbort              // AUTHENTICATE *
    | CapEnd

  /** The registration fields of a connection, and everything written so far. */
  datatype Reg = Reg(serverCaps: set<string>, ackedCaps: set<string>, capQueue: seq<string>,
                     capInflight: bool, saslDone: bool, sent: seq<Out>)

  function LowerChar(c: char): char {
    if 'A' <= c <= 'Z' then c - 'A' + 'a' else c
  }

  function ToLower(s: string): (l: string)
    ensures |l| == |s| && forall i :: 0 <= i < |s| ==> l[i] == LowerChar(s[i])
  {
    seq(|s|, i requires 0 <= i < |s| => LowerChar(s[i]))
  }

  /** The name in an advertised "name" or "name=value". */
  function AdvertisedName(token: string): string {
    ToLower(SplitN(token, '=', 2)[0])
  }

  function AckedName(token: string): string {
    ToLower(TrimPrefix(token, '-'))
  }

  function AckedNames(caps: seq<string>): set<string> {
    set i | 0 <= i < |caps| :: AckedName(caps[i])
  }

  const DesiredCaps: seq<string> :=
    ["batch", "server-time", "message-tags", "echo-message", "chathistory", "multi-prefix"]

  function Desired(mechanism: string): seq<string> {
    DesiredCaps + if mechanism != "" then ["sasl"] else []
  }

  /** What is requested for one desired capability, given what the server advertises. */
  function Offered(cap: string, serverCaps: set<string>): seq<string> {
    if cap in serverCaps then [cap]
    else if cap == "chathistory" && "draft/chathistory" in serverCaps then ["draft/chathistory"]
    else []
  }

  function WantedFrom(desired: seq<string>, serverCaps: set<string>): seq<string> {
    if desired == [] then []
    else WantedFrom(desired[..|desired| - 1], serverCaps) + Offered(desired[|desired| - 1], serverCaps)
  }

  function Wanted(mechanism: string, serverCaps: set<string>): seq<string> {
    WantedFrom(Desired(mechanism), serverCaps)
  }

  // ---- What each handler does to the state --------------------------------------------------------

  function OnDial(r: Reg): Reg {
    Reg({}, {}, [], false, false, r.sent + [CapLS])
  }

  function AdvertisedNames(caps: seq<string>): set<string> {
    set i | 0 <= i < |caps| :: AdvertisedName(caps[i])
  }

  function OnLS(mechanism: string, r: Reg, caps: seq<string>, more: bool): Reg {
    var known := r.serverCaps + AdvertisedNames(caps);
    var r1 := r.(serverCaps := known);
    if more then r1 else r1.(sent := r.sent + [CapReq(Wanted(mechanism, known))])
  }

  /** The current request is settled: send the next queued one, or finish. */
  function Proceed(mechanism: string, r: Reg): Reg {
    var next := if r.capQueue == [] then "" else r.capQueue[0];
    var r1 := if r.capQueue == [] then r.(capInflight := false)
              else r.(capInflight := true, capQueue := r.capQueue[1..]);
    var out := if next != "" then CapReq([next])
               else if mechanism != "" && "sasl" in r.ackedCaps then Authenticate(mechanism)
               else CapEnd;
    r1.(sent := r.sent + [out])
  }

  function OnAck(mechanism: string, r: Reg, caps: seq<string>): Reg {
    Proceed(mechanism, r.(ackedCaps := r.ackedCaps + AckedNames(caps)))
  }

  function OnNak(mechanism: string, r: Reg, caps: seq<string>): Reg {
    if |caps| > 1 then
      r.(capQueue := r.capQueue + caps[1..], capInflight := true, sent := r.sent + [CapReq([caps[0]])])
    else Proceed(mechanism, r)
  }

  function OnAuthenticate(mechanism: string, r: Reg, payload: string): Reg {
    if payload != "+" then r
    else r.(sent := r.sent + [if ToUpper(mechanism) == "PLAIN" then Credentials else AuthAbort])
  }

  predicate IsSuccess(code: nat) {
    code == 900 || code == 903
  }

  predicate IsFailure(code: nat) {
    code == 902 || 904 <= code <= 907
  }

  function OnNumeric(r: Reg, code: nat): Reg {
    if IsSuccess(code) then
      r.(saslDone := true, sent := if r.saslDone then r.sent else r.sent + [CapEnd])
    else if IsFailure(code) then r.(sent := r.sent + [CapEnd])
    else r
  }

  // ---- The connection object ----------------------------------------------------------------------

  class Conn {
    const mechanism: string
    var serverCaps: set<string>
    var ackedCaps: set<string>
    var capQueue: seq<string>
    var capInflight: bool
    var saslDone: bool
    /** Everything written upstream. */
    var sent: seq<Out>

    ghost function State(): Reg
      reads this
    {
      Reg(serverCaps, ackedCaps, capQueue, capInflight, saslDone, sent)
    }

    constructor (mechanism: string)
      ensures this.mechanism == mechanism && State() == Reg({}, {}, [], false, false, [])
    {
      this.mechanism := mechanism;
      serverCaps, ackedCaps, capQueue, capInflight, saslDone, sent := {}, {}, [], false, false, [];
    }

    method SendRaw(line: Out)
      modifies this`sent
      ensures sent == old(sent) + [line]
    {
      sent := sent + [line];
    }

    method Dial()
      modifies this
      ensures State() == OnDial(old(State()))
    {
      saslDone := false;
      capQueue := [];
      capInflight := false;
      serverCaps := {};
      ackedCaps := {};
      SendRaw(CapLS);
    }

    method CapLs(caps: seq<string>, isContinuation: bool)
      modifies this
      ensures State() == OnLS(mechanism, old(State()), caps, isContinuation)
    {
      AddAdvertised(caps);
      if isContinuation {
        return;
      }
      var wantCaps := WantCaps();
      SendRaw(CapReq(wantCaps));
    }

    /** The loop over the advertised names. */
    method AddAdvertised(caps: seq<string>)
      modifies this`serverCaps
      ensures serverCaps == old(serverCaps) + AdvertisedNames(caps)
    {
      for i := 0 to |caps|
        invariant serverCaps == old(serverCaps) + AdvertisedNames(caps[..i])
      {
        assert AdvertisedNames(caps[..i + 1]) == AdvertisedNames(caps[..i]) + {AdvertisedName(caps[i])} by {
          assert caps[..i + 1][i] == caps[i];
          assert forall j :: 0 <= j < i ==> caps[..i + 1][j] == caps[..i][j];
        }
        serverCaps := serverCaps + {AdvertisedName(caps[i])};
      }
      assert caps[..|caps|] == caps;
    }

    /** The loop over the desired ones. */
    method WantCaps() returns (wantCaps: seq<string>)
      ensures wantCaps == Wanted(mechanism, serverCaps)
    {
      var desired := DesiredCaps;
      if mechanism != "" {
        desired := desired + ["sasl"];
      }
      wantCaps := [];
      for i := 0 to |desired|
        invariant wantCaps == WantedFrom(desired[..i], serverCaps)
      {
        assert desired[..i + 1][..i] == desired[..i];
        if desired[i] in serverCaps {
          wantCaps := wantCaps + [desired[i]];
        } else if desired[i] == "chathistory" && "draft/chathistory" in serverCaps {
          wantCaps := wantCaps + ["draft/chathistory"];
        }
      }
      assert desired[..|desired|] == desired && desired == Desired(mechanism);
    }

    method CapAck(caps: seq<string>)
      modifies this
      ensures State() == OnAck(mechanism, old(State()), caps)
    {
      for i := 0 to |caps|
        invariant ackedCaps == old(ackedCaps) + AckedNames(caps[..i])
        invariant State() == old(State()).(ackedCaps := ackedCaps)
      {
        assert AckedNames(caps[..i + 1]) == AckedNames(caps[..i]) + {AckedName(caps[i])} by {
          assert caps[..i + 1][i] == caps[i];
          assert forall j :: 0 <= j < i ==> caps[..i + 1][j] == caps[..i][j];
        }
        ackedCaps := ackedCaps + {AckedName(caps[i])};
      }
      assert caps[..|caps|] == caps;
      SettleRequest();
    }

    method CapNak(caps: seq<string>)
      modifies this
      ensures State() == OnNak(mechanism, old(State()), caps)
    {
      if |caps| > 1 {
        capQueue := capQueue + caps[1..];
        capInflight := true;
        SendRaw(CapReq([caps[0]]));
      } else {
        SettleRequest();
      }
    }

    /** The common tail of ACK and of a single NAK. */
    method SettleRequest()
      modifies this
      ensures State() == Proceed(mechanism, old(State()))
    {
      capInflight := false;
      var nextCap := "";
      if |capQueue| > 0 {
        nextCap := capQueue[0];
        capQueue := capQueue[1..];
        capInflight := true;
      }
      if nextCap != "" {
        SendRaw(CapReq([nextCap]));
      } else if mechanism != "" && "sasl" in ackedCaps {
        SendRaw(Authenticate(mechanism));
      } else {
        SendRaw(CapEnd);
      }
    }

    method AuthenticateReply(payload: string)
      modifies this
      ensures State() == OnAuthenticate(mechanism, old(State()), payload)
    {
      if payload != "+" {
        return;
      }
      if ToUpper(mechanism) == "PLAIN" {
        SendRaw(Credentials);
      } else {
        SendRaw(AuthAbort);
      }
    }

    method SaslNumeric(code: nat)
      modifies this
      ensures State() == OnNumeric(old(State()), code)
    {
      if code == 900 || code == 903 {
        var alreadyDone := saslDone;
        saslDone := true;
        if !alreadyDone {
          SendRaw(CapEnd);
        }
      } else if code == 902 || code == 904 || code == 905 || code == 906 || code == 907 {
        SendRaw(CapEnd);
      }
    }
  }
}
