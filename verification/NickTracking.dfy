/** The bouncer's idea of its own nick and channels, against the server's, over runs with reconnects. */
module NickTracking {
  import opened GoStrings

  /** The network's configured nicks. */
  datatype Config = Config(nick: string, altNick: string)

  datatype Track = Track(currentNick: string, nickRetries: nat, joined: set<string>)

  /** The nick tried on the k-th rejection since the dial. */
  function Retry(cfg: Config, k: nat): string {
    if k == 1 && cfg.altNick != "" then cfg.altNick else cfg.nick + Repeat('_', k)
  }

  function OnDial(cfg: Config, t: Track): Track {
    t.(currentNick := cfg.nick, nickRetries := 0)
  }

  function OnInUse(cfg: Config, t: Track): Track {
    t.(currentNick := Retry(cfg, t.nickRetries + 1), nickRetries := t.nickRetries + 1)
  }

  function OnNick(t: Track, from: string, raw: string): Track {
    if from == t.currentNick then t.(currentNick := TrimPrefix(raw, ':')) else t
  }

  function OnJoin(t: Track, from: string, raw: string): Track {
    if from == t.currentNick then t.(joined := t.joined + {TrimPrefix(raw, ':')}) else t
  }

  function OnPart(t: Track, from: string, raw: string): Track {
    if from == t.currentNick then t.(joined := t.joined - {raw}) else t
  }

  function OnKick(t: Track, chan: string, raw: string): Track {
    if raw == t.currentNick then t.(joined := t.joined - {chan}) else t
  }

  /** The tracking fields of a connection. A `raw` parameter is given as it stands on the line, with the
      colon of a trailing parameter where the server printed one. */
  class Conn {
    const cfg: Config
    var currentNick: string
    var nickRetries: nat
    var joinedChans: set<string>
    /** The NICK lines sent on rejections. */
    var nickSent: seq<string>

    ghost function State(): Track
      reads this
    {
      Track(currentNick, nickRetries, joinedChans)
    }

    constructor (cfg: Config, persisted: seq<string>)
      ensures this.cfg == cfg && nickSent == []
      ensures State() == Track(cfg.nick, 0, set c | c in persisted && c != "")
    {
      this.cfg := cfg;
      currentNick, nickRetries, nickSent := cfg.nick, 0, [];
      joinedChans := set c | c in persisted && c != "";
    }

    method Dial()
      modifies this
      ensures State() == OnDial(cfg, old(State())) && nickSent == old(nickSent)
    {
      nickRetries := 0;
      currentNick := cfg.nick;
    }

    /** 001: the server's name for us is the truth; the channels joined before are kept. */
    method Welcome(nick: string) returns (prevChans: set<string>)
      modifies this
      ensures State() == old(State()).(currentNick := nick) && nickSent == old(nickSent)
      ensures prevChans == old(joinedChans)
    {
      currentNick := nick;
      prevChans := joinedChans;
      joinedChans := {};
      var left := prevChans;
      while left != {}
        invariant left <= prevChans && joinedChans == prevChans - left
        invariant currentNick == nick && nickRetries == old(nickRetries) && nickSent == old(nickSent)
        decreases left
      {
        var ch :| ch in left;
        joinedChans := joinedChans + {ch};
        left := left - {ch};
      }
    }

    /** 433 */
    method NickInUse()
      modifies this
      ensures State() == OnInUse(cfg, old(State()))
      ensures nickSent == old(nickSent) + [currentNick]
    {
      nickRetries := nickRetries + 1;
      var next;
      if nickRetries == 1 && cfg.altNick != "" {
        next := cfg.altNick;
      } else {
        next := cfg.nick + Repeat('_', nickRetries);
      }
      currentNick := next;
      nickSent := nickSent + [next];
    }

    method Nick(from: string, raw: string)
      modifies this
      ensures State() == OnNick(old(State()), from, raw) && nickSent == old(nickSent)
    {
      if from == currentNick {
        currentNick := TrimPrefix(raw, ':');
      }
    }

    method Join(from: string, raw: string)
      modifies this
      ensures State() == OnJoin(old(State()), from, raw) && nickSent == old(nickSent)
    {
      if from == currentNick {
        joinedChans := joinedChans + {TrimPrefix(raw, ':')};
      }
    }

    method Part(from: string, raw: string)
      modifies this
      ensures State() == OnPart(old(State()), from, raw) && nickSent == old(nickSent)
    {
      if from == currentNick {
        joinedChans := joinedChans - {raw};
      }
    }

    method Kick(chan: string, raw: string)
      modifies this
      ensures State() == OnKick(old(State()), chan, raw) && nickSent == old(nickSent)
    {
      if raw == currentNick {
        joinedChans := joinedChans - {chan};
      }
    }
  }

  // ---- The server's side ----------------------------------------------------------------------------

  /** `colon`: the last parameter that matters here was printed as a trailing one. For a KICK that is the
      target; the channel before it, like the nick of a 001, is never the last parameter. */
  datatype Event =
    | Dial
    | InUse
    | Welcome(nick: string)
    | Nick(from: string, to: string, colon: bool)
    | Join(who: string, chan: string, colon: bool)
    | Part(who: string, chan: string, colon: bool)
    | Kick(chan: string, target: string, colon: bool)
    | Refused(chan: string)      // a JOIN of ours failed: 471, 473, 474, 475, 477 or 485

  /** The server knows our nick from the 001 on. */
  datatype Server = Registering | Registered(nick: string)

  function Raw(word: string, colon: bool): string {
    if colon then ":" + word else word
  }

  /** A word that can stand as a parameter without a colon, as every nick and channel can. */
  predicate Word(s: string) {
    !StartsWith(s, ':')
  }

  /** Rejections come only while registering, other events only afterwards. A NICK line may be repeated. */
  predicate Allowed(sv: Server, e: Event) {
    match e
    case Dial => true
    case InUse => sv == Registering
    case Welcome(nick) => sv == Registering && Word(nick)
    case Nick(from, to, _) => sv.Registered? && Word(to)
    case Join(_, chan, _) => sv.Registered? && Word(chan)
    case Part(_, chan, _) => sv.Registered? && Word(chan)
    case Kick(chan, target, _) => sv.Registered? && Word(chan) && Word(target)
    case Refused(_) => sv.Registered?
  }

  function ServerNext(sv: Server, e: Event): Server {
    match e
    case Dial => Registering
    case Welcome(nick) => Registered(nick)
    case Nick(from, to, _) => if sv == Registered(from) then Registered(to) else sv
    case _ => sv
  }

  function TrackNext(cfg: Config, t: Track, e: Event): Track {
    match e
    case Dial => OnDial(cfg, t)
    case InUse => OnInUse(cfg, t)
    case Welcome(nick) => t.(currentNick := nick)
    case Nick(from, to, colon) => OnNick(t, from, Raw(to, colon))
    case Join(who, chan, colon) => OnJoin(t, who, Raw(chan, colon))
    case Part(who, chan, colon) => OnPart(t, who, Raw(chan, colon))
    case Kick(chan, target, colon) => OnKick(t, chan, Raw(target, colon))
    case Refused(_) => t
  }

  function ServerAfter(run: seq<Event>): Server {
    if run == [] then Registering else ServerNext(ServerAfter(run[..|run| - 1]), run[|run| - 1])
  }

  function TrackAfter(cfg: Config, seed: set<string>, run: seq<Event>): Track {
    if run == [] then Track(cfg.nick, 0, seed)
    else TrackNext(cfg, TrackAfter(cfg, seed, run[..|run| - 1]), run[|run| - 1])
  }

  predicate Legal(run: seq<Event>) {
    run == [] || (Legal(run[..|run| - 1]) && Allowed(ServerAfter(run[..|run| - 1]), run[|run| - 1]))
  }

  /** The channels the server has us in: none after a dial, then as our own events say. */
  function Members(run: seq<Event>): set<string> {
    if run == [] then {}
    else
      var before, sv := Members(run[..|run| - 1]), ServerAfter(run[..|run| - 1]);
      match run[|run| - 1]
      case Dial => {}
      case Join(who, chan, _) => if sv == Registered(who) then before + {chan} else before
      case Part(who, chan, _) => if sv == Registered(who) then before - {chan} else before
      case Kick(chan, target, _) => if sv == Registered(target) then before - {chan} else before
      case _ => before
  }

  /** Does event i of the run put us into, or take us out of, the channel, by the server's own idea of who we are? */
  predicate Enters(run: seq<Event>, i: nat, chan: string)
    requires i < |run|
  {
    run[i].Join? && run[i].chan == chan && ServerAfter(run[..i]) == Registered(run[i].who)
  }

  /** With `any`, by any PART or KICK of ours; without, only by those whose last parameter was printed bare. */
  predicate Leaves(run: seq<Event>, i: nat, chan: string, any: bool)
    requires i < |run|
  {
    var e := run[i];
    && (e.Part? || e.Kick?)
    && e.chan == chan && (any || !e.colon)
    && ServerAfter(run[..i]) == Registered(if e.Part? then e.who else e.target)
  }

  /** The channel's latest self event is a JOIN, or it was seeded and has none. */
  ghost predicate Believed(seed: set<string>, run: seq<Event>, chan: string, any: bool) {
    || (exists i :: 0 <= i < |run| && Enters(run, i, chan) && Stays(run, i + 1, chan, any))
    || (chan in seed && Stays(run, 0, chan, any))
  }

  /** The channel was stored, or was ours at the latest dial, and no event of ours has concerned it since. */
  ghost predicate Carried(seed: set<string>, run: seq<Event>, chan: string) {
    if run == [] then chan in seed
    else
      var n := |run| - 1;
      if run[n].Dial? then Believed(seed, run, chan, true)
      else Carried(seed, run[..n], chan) && !Enters(run, n, chan) && !Leaves(run, n, chan, true)
  }

  /** A PART or KICK of ours with a colon found the channel tracked, and nothing the bouncer hears has
      put us into the channel or taken us out of it since. */
  ghost predicate StaleAt(seed: set<string>, run: seq<Event>, chan: string, i: nat)
    requires i < |run|
  {
    && Leaves(run, i, chan, true) && run[i].colon
    && Believed(seed, run[..i], chan, false)
    && Untouched(run, i + 1, chan)
  }

  predicate Untouched(run: seq<Event>, i: nat, chan: string) {
    forall j :: i <= j < |run| ==> !Enters(run, j, chan) && !Leaves(run, j, chan, false)
  }

  ghost predicate Stale(seed: set<string>, run: seq<Event>, chan: string) {
    exists i :: 0 <= i < |run| && StaleAt(seed, run, chan, i)
  }

  /** No PART or KICK of ours had its last parameter printed as a trailing one. */
  predicate BareLeaves(run: seq<Event>, chan: string) {
    forall i :: 0 <= i < |run| && Leaves(run, i, chan, true) ==> !run[i].colon
  }

  // ---- Refinement -----------------------------------------------------------------------------------

  /** From each 001 on, through every nick change, currentNick is the server's nick for us. */
  lemma {:induction false} NickRefines(cfg: Config, seed: set<string>, run: seq<Event>)
    requires Legal(run)
    ensures ServerAfter(run).Registered? ==>
              TrackAfter(cfg, seed, run).currentNick == ServerAfter(run).nick && Word(ServerAfter(run).nick)
  {
    if run != [] {
      NickRefines(cfg, seed, run[..|run| - 1]);
      var e := run[|run| - 1];
      if e.Nick? && e.colon {
        assert (":" + e.to)[1..] == e.to;
      }
    }
  }

  /** A server that prints our NICK once per shared channel is covered: the copies change nothing. */
  lemma RepeatedNick(from: string, to: string, colon: bool)
    requires Word(from) && Word(to) && from != to
    ensures var once := [Dial, Welcome(from), Nick(from, to, colon)];
            var twice := once + [Nick(from, to, colon)];
            && Legal(twice) && ServerAfter(twice) == Registered(to)
            && forall cfg, seed :: TrackAfter(cfg, seed, twice) == TrackAfter(cfg, seed, once)
  {
    var r1, r2 := [Dial], [Dial, Welcome(from)];
    var once := [Dial, Welcome(from), Nick(from, to, colon)];
    var twice := once + [Nick(from, to, colon)];
    assert r1[..0] == [] && r2[..1] == r1 && once[..2] == r2 && twice[..3] == once;
    assert ServerAfter(r1) == Registering && ServerAfter(r2) == Registered(from) && ServerAfter(once) == Registered(to);
    assert Legal(r1) && Legal(r2) && Legal(once);
    forall cfg, seed
      ensures TrackAfter(cfg, seed, twice) == TrackAfter(cfg, seed, once)
    {
      NickRefines(cfg, seed, once);
    }
  }

  lemma SameBefore(run: seq<Event>, i: nat, chan: string, any: bool)
    requires i < |run| - 1
    ensures var init := run[..|run| - 1];
            && (Enters(init, i, chan) <==> Enters(run, i, chan))
            && (Leaves(init, i, chan, any) <==> Leaves(run, i, chan, any))
  {
    assert run[..|run| - 1][..i] == run[..i];
  }

  /** No event from i on takes us out of the channel. */
  predicate Stays(run: seq<Event>, i: nat, chan: string, any: bool) {
    forall j :: i <= j < |run| ==> !Leaves(run, j, chan, any)
  }

  lemma StaysStep(run: seq<Event>, i: nat, chan: string, any: bool)
    requires i < |run|
    ensures Stays(run, i, chan, any) <==> Stays(run[..|run| - 1], i, chan, any) && !Leaves(run, |run| - 1, chan, any)
  {
    var init := run[..|run| - 1];
    if Stays(run, i, chan, any) {
      forall j | i <= j < |init|
        ensures !Leaves(init, j, chan, any)
      {
        SameBefore(run, j, chan, any);
      }
      assert !Leaves(run, |run| - 1, chan, any);
    }
    if Stays(init, i, chan, any) && !Leaves(run, |run| - 1, chan, any) {
      forall j | i <= j < |run|
        ensures !Leaves(run, j, chan, any)
      {
        if j < |init| {
          SameBefore(run, j, chan, any);
          assert !Leaves(init, j, chan, any);
        }
      }
    }
  }

  lemma BelievedStep(seed: set<string>, run: seq<Event>, chan: string, any: bool)
    requires run != []
    ensures var n := |run| - 1;
            Believed(seed, run, chan, any) <==>
            Enters(run, n, chan) || (Believed(seed, run[..n], chan, any) && !Leaves(run, n, chan, any))
  {
    var n := |run| - 1;
    var init := run[..n];
    StaysStep(run, 0, chan, any);
    forall i | 0 <= i < n
      ensures Enters(init, i, chan) && Stays(init, i + 1, chan, any) && !Leaves(run, n, chan, any)
              <==> Enters(run, i, chan) && Stays(run, i + 1, chan, any)
    {
      SameBefore(run, i, chan, any);
      StaysStep(run, i + 1, chan, any);
    }
    assert Stays(run, n + 1, chan, any);
    assert forall i :: 0 <= i < |init| && Enters(init, i, chan) ==> i < n;
  }

  /** One event changes the joined channels as it changes the belief. */
  lemma JoinedStep(cfg: Config, t: Track, sv: Server, run: seq<Event>, chan: string)
    requires run != [] && Allowed(sv, run[|run| - 1]) && sv == ServerAfter(run[..|run| - 1])
    requires sv.Registered? ==> t.currentNick == sv.nick && Word(sv.nick)
    requires Word(chan)
    ensures var n := |run| - 1;
            chan in TrackNext(cfg, t, run[n]).joined <==>
            Enters(run, n, chan) || (chan in t.joined && !Leaves(run, n, chan, false))
  {
    var e := run[|run| - 1];
    if e.Join? && e.colon {
      assert (":" + e.chan)[1..] == e.chan;
    }
    if e.Part? && e.colon {
      assert Raw(e.chan, true)[0] == ':';
    }
    if e.Kick? && e.colon {
      assert Raw(e.target, true)[0] == ':';
    }
  }

  /** In every run, over any number of reconnects and nick changes, the joined channels are those whose
      latest self event is a JOIN, or that were seeded and have none, a PART or KICK counting only when
      its last parameter was printed bare. */
  lemma {:induction false} JoinedExactly(cfg: Config, seed: set<string>, run: seq<Event>, chan: string)
    requires Legal(run) && Word(chan)
    ensures chan in TrackAfter(cfg, seed, run).joined <==> Believed(seed, run, chan, false)
  {
    if run != [] {
      var init := run[..|run| - 1];
      JoinedExactly(cfg, seed, init, chan);
      NickRefines(cfg, seed, init);
      BelievedStep(seed, run, chan, false);
      JoinedStep(cfg, TrackAfter(cfg, seed, init), ServerAfter(init), run, chan);
    }
  }

  /** What one event does to the condition for a wrong belief. */
  lemma StaleStep(seed: set<string>, run: seq<Event>, chan: string)
    requires run != []
    ensures var n := |run| - 1;
            Stale(seed, run, chan) <==>
            || (Stale(seed, run[..n], chan) && !Enters(run, n, chan) && !Leaves(run, n, chan, false))
            || (Leaves(run, n, chan, true) && run[n].colon && Believed(seed, run[..n], chan, false))
  {
    var n := |run| - 1;
    var init := run[..n];
    forall i | 0 <= i < n
      ensures StaleAt(seed, run, chan, i) <==>
              StaleAt(seed, init, chan, i) && !Enters(run, n, chan) && !Leaves(run, n, chan, false)
    {
      StaleAtStep(seed, run, chan, i);
    }
    assert Untouched(run, n + 1, chan);
    assert StaleAt(seed, run, chan, n) <==>
           Leaves(run, n, chan, true) && run[n].colon && Believed(seed, init, chan, false);
  }

  lemma StaleAtStep(seed: set<string>, run: seq<Event>, chan: string, i: nat)
    requires i < |run| - 1
    ensures var n := |run| - 1;
            StaleAt(seed, run, chan, i) <==>
            StaleAt(seed, run[..n], chan, i) && !Enters(run, n, chan) && !Leaves(run, n, chan, false)
  {
    var n := |run| - 1;
    var init := run[..n];
    assert init[..i] == run[..i];
    forall j | 0 <= j < n
      ensures Enters(init, j, chan) <==> Enters(run, j, chan)
      ensures Leaves(init, j, chan, false) <==> Leaves(run, j, chan, false)
    {
      SameBefore(run, j, chan, false);
    }
    assert Untouched(run, i + 1, chan) <==>
           Untouched(init, i + 1, chan) && !Enters(run, n, chan) && !Leaves(run, n, chan, false);
  }

  /** Counting only the bare PARTs and KICKs errs exactly on the stale channels, and only by keeping them. */
  lemma {:induction false} StaleExactly(seed: set<string>, run: seq<Event>, chan: string)
    ensures Believed(seed, run, chan, true) ==> Believed(seed, run, chan, false)
    ensures Stale(seed, run, chan) <==> Believed(seed, run, chan, false) && !Believed(seed, run, chan, true)
  {
    if run != [] {
      StaleExactly(seed, run[..|run| - 1], chan);
      BelievedStep(seed, run, chan, true);
      BelievedStep(seed, run, chan, false);
      StaleStep(seed, run, chan);
    }
  }

  /** What one event does to the belief that counts every PART and KICK: the server's own list, and what
      is only carried over. */
  lemma CarriedStep(seed: set<string>, run: seq<Event>, chan: string)
    requires run != []
    ensures var n := |run| - 1;
            && (run[n].Dial? ==> (Carried(seed, run, chan) <==> Believed(seed, run[..n], chan, true)))
            && (!run[n].Dial? ==>
                  (chan in Members(run) <==>
                     Enters(run, n, chan) || (chan in Members(run[..n]) && !Leaves(run, n, chan, true))))
  {
    BelievedStep(seed, run, chan, true);
  }

  /** The belief is the server's list and, apart from it, the channels carried over. */
  lemma {:induction false} MembersOrCarried(seed: set<string>, run: seq<Event>, chan: string)
    ensures Believed(seed, run, chan, true) <==> chan in Members(run) || Carried(seed, run, chan)
    ensures !(chan in Members(run) && Carried(seed, run, chan))
  {
    if run != [] {
      MembersOrCarried(seed, run[..|run| - 1], chan);
      BelievedStep(seed, run, chan, true);
      CarriedStep(seed, run, chan);
    }
  }

  /** In every run a channel is tracked exactly when the server has us in it, unless it is carried over from
      before the last dial or stale; and where the two differ, the bouncer has the channel too many. */
  lemma JoinedRefines(cfg: Config, seed: set<string>, run: seq<Event>, chan: string)
    requires Legal(run) && Word(chan)
    ensures (chan in TrackAfter(cfg, seed, run).joined <==> chan in Members(run))
            <==> !Carried(seed, run, chan) && !Stale(seed, run, chan)
    ensures chan in Members(run) ==> chan in TrackAfter(cfg, seed, run).joined
    ensures BareLeaves(run, chan) ==> !Stale(seed, run, chan)
  {
    JoinedExactly(cfg, seed, run, chan);
    StaleExactly(seed, run, chan);
    MembersOrCarried(seed, run, chan);
  }

  /** A rejoin that the server refuses after a reconnect leaves the channel tracked. */
  lemma RefusedRejoinStays()
    ensures var run := [Dial, Welcome("me"), Join("me", "#c", true), Dial, Welcome("me"), Refused("#c")];
            Legal(run) && "#c" in TrackAfter(Config("me", ""), {}, run).joined
            && Members(run) == {} && Carried({}, run, "#c")
  {
    var r4 := [Dial, Welcome("me"), Join("me", "#c", true), Dial];
    var r5 := [Dial, Welcome("me"), Join("me", "#c", true), Dial, Welcome("me")];
    var run := [Dial, Welcome("me"), Join("me", "#c", true), Dial, Welcome("me"), Refused("#c")];
    assert r5[..4] == r4 && run[..5] == r5 && r4[..3] == [Dial, Welcome("me"), Join("me", "#c", true)];
    JoinedThen(Dial);
    var cfg := Config("me", "");
    assert TrackAfter(cfg, {}, r4) == Track("me", 0, {"#c"});
    assert ServerAfter(r4) == Registering && ServerAfter(r5) == Registered("me");
    assert Legal(r5);
    assert TrackAfter(cfg, {}, r5) == Track("me", 0, {"#c"});
    assert Members(r4) == {} && Members(r5) == {};
    JoinedRefines(cfg, {}, run, "#c");
    BareRun(run);
  }

  lemma BareRun(run: seq<Event>)
    requires forall i :: 0 <= i < |run| ==> !run[i].Part? && !run[i].Kick?
    ensures BareLeaves(run, "#c")
  {
  }

  /** A run with two events after the 001: our JOIN of a channel and `last`. */
  lemma JoinedThen(last: Event)
    requires Allowed(Registered("me"), last)
    ensures var run := [Dial, Welcome("me"), Join("me", "#c", true), last];
            Legal(run) && ServerAfter(run[..3]) == Registered("me")
            && TrackAfter(Config("me", ""), {}, run[..3]) == Track("me", 0, {"#c"})
  {
    var r1 := [Dial];
    var r2 := [Dial, Welcome("me")];
    var r3 := [Dial, Welcome("me"), Join("me", "#c", true)];
    var run := [Dial, Welcome("me"), Join("me", "#c", true), last];
    assert r1[..0] == [] && r2[..1] == r1 && r3[..2] == r2 && run[..3] == r3;
    assert ServerAfter(r1) == Registering && ServerAfter(r2) == Registered("me") && ServerAfter(r3) == Registered("me");
    assert Legal(r1) && Legal(r2) && Legal(r3);
    assert (":" + "#c")[1..] == "#c";
    var cfg := Config("me", "");
    assert TrackAfter(cfg, {}, r1) == Track("me", 0, {});
    assert TrackAfter(cfg, {}, r2) == Track("me", 0, {});
  }

  /** JOIN strips the colon of a trailing parameter but PART does not, so the channel stays tracked. */
  lemma ColonPartStays()
    ensures var run := [Dial, Welcome("me"), Join("me", "#c", true), Part("me", "#c", true)];
            Legal(run) && "#c" in TrackAfter(Config("me", ""), {}, run).joined && Stale({}, run, "#c")
  {
    var run := [Dial, Welcome("me"), Join("me", "#c", true), Part("me", "#c", true)];
    JoinedThen(run[3]);
    assert ":" + "#c" != "#c";
    LastStays(run);
  }

  /** Nor does KICK strip the colon of its target, which then is not taken for us. */
  lemma ColonKickStays()
    ensures var run := [Dial, Welcome("me"), Join("me", "#c", true), Kick("#c", "me", true)];
            Legal(run) && "#c" in TrackAfter(Config("me", ""), {}, run).joined && Stale({}, run, "#c")
  {
    var run := [Dial, Welcome("me"), Join("me", "#c", true), Kick("#c", "me", true)];
    JoinedThen(run[3]);
    assert ":" + "me" != "me";
    LastStays(run);
  }

  lemma LastStays(run: seq<Event>)
    requires |run| == 4 && Legal(run) && Leaves(run, 3, "#c", true)
    requires "#c" in TrackAfter(Config("me", ""), {}, run).joined
    ensures Stale({}, run, "#c")
  {
    JoinedExactly(Config("me", ""), {}, run, "#c");
    BelievedStep({}, run, "#c", true);
    StaleExactly({}, run, "#c");
  }

  // ---- The nick fallback ------------------------------------------------------------------------------

  /** The nicks offered after a dial: the configured one, then one per rejection. */
  function Attempt(cfg: Config, k: nat): string {
    if k == 0 then cfg.nick else Retry(cfg, k)
  }

  function Rejections(k: nat): seq<Event> {
    [Dial] + seq(k, i => InUse)
  }

  /** After a dial and k rejections the connection uses the k-th attempt. */
  lemma {:induction false} AttemptsFollow(cfg: Config, seed: set<string>, run: seq<Event>, k: nat)
    ensures var t := TrackAfter(cfg, seed, run + Rejections(k)); t.currentNick == Attempt(cfg, k) && t.nickRetries == k
  {
    var r := run + Rejections(k);
    if k == 0 {
      assert r[..|r| - 1] == run;
    } else {
      assert r[..|r| - 1] == run + Rejections(k - 1);
      AttemptsFollow(cfg, seed, run, k - 1);
    }
  }

  /** `nick` is `base` and k underscores behind it. */
  predicate Padded(nick: string, base: string, k: nat) {
    |nick| == |base| + k && base <= nick && forall i :: |base| <= i < |nick| ==> nick[i] == '_'
  }

  /** The nicks that are offered after any dial, in order: the configured one, on the first rejection the
      alternate one if there is any, and on every other rejection the configured one with as many
      underscores as there were rejections. */
  lemma Offers(cfg: Config, seed: set<string>, run: seq<Event>, k: nat)
    ensures var nick := TrackAfter(cfg, seed, run + Rejections(k)).currentNick;
            if k == 1 && cfg.altNick != "" then nick == cfg.altNick else Padded(nick, cfg.nick, k)
  {
    AttemptsFollow(cfg, seed, run, k);
  }

  lemma {:induction false} DistinctIn(s: seq<string>, taken: set<string>)
    requires forall i, j :: 0 <= i < j < |s| ==> s[i] != s[j]
    requires forall i :: 0 <= i < |s| ==> s[i] in taken
    ensures |s| <= |taken|
  {
    if s != [] {
      var n := |s| - 1;
      DistinctIn(s[..n], taken - {s[n]});
    }
  }

  /** Whatever finite set of nicks is taken, and whatever the alternate nick is, one of the first
      |taken| + 1 retries (or the configured nick itself) is free; without an alternate nick, one of the
      first |taken|. */
  lemma FallbackFindsFree(cfg: Config, taken: set<string>)
    ensures exists k :: 0 <= k <= |taken| + (if cfg.altNick != "" then 1 else 0) && Attempt(cfg, k) !in taken
  {
    var bound := |taken| + if cfg.altNick != "" then 1 else 0;
    if forall k :: 0 <= k <= bound ==> Attempt(cfg, k) in taken {
      assert Attempt(cfg, 0) in taken;
      // The configured nick and the retries that append underscores are pairwise distinct.
      var skip := if cfg.altNick != "" then 1 else 0;
      var tries :=
        seq(|taken| + 1, i requires 0 <= i <= |taken| => if i == 0 then cfg.nick else Attempt(cfg, i + skip));
      forall i | 0 <= i < |tries|
        ensures tries[i] in taken && (i > 0 ==> |tries[i]| == |cfg.nick| + i + skip)
      {
        assert i > 0 ==> tries[i] == Attempt(cfg, i + skip);
      }
      assert |tries[0]| == |cfg.nick|;
      forall i, j | 0 <= i < j < |tries|
        ensures tries[i] != tries[j]
      {
        assert |tries[i]| < |tries[j]|;
      }
      DistinctIn(tries, taken);
    }
  }

  /** The bound is met: with the alternate nick equal to the configured one and that nick taken, two
      rejections are needed. */
  lemma FallbackBoundMet(nick: string)
    requires nick != ""
    ensures var cfg := Config(nick, nick);
            Attempt(cfg, 0) in {nick} && Attempt(cfg, 1) in {nick} && Attempt(cfg, 2) !in {nick}
  {
    assert |Attempt(Config(nick, nick), 2)| == |nick| + 2;
  }

  // ---- Rejoining --------------------------------------------------------------------------------------

  /** The channel a listed name stands for; "" for a blank name. */
  function JoinName(ch: string): string {
    var name := TrimSpace(ch);
    if name == "" then "" else if StartsWith(name, '#') then name else "#" + name
  }

  /** A listed name stands for itself without the white space around it, with a `#` in front unless it has
      one; a blank name stands for none. */
  lemma JoinNameIs(before: string, name: string, after: string)
    requires forall c :: c in before || c in after ==> IsSpace(c)
    requires name == "" || (!IsSpace(name[0]) && !IsSpace(name[|name| - 1]))
    ensures JoinName(before + name + after)
         == if name == "" then "" else if name[0] == '#' then name else "#" + name
  {
    TrimSpaceIs(before, name, after);
  }

  /** `at` lists, from first to last, where in `all` each channel of the list is named first. */
  predicate FirstNamed(at: seq<nat>, all: seq<string>, chans: seq<string>) {
    && |at| == |chans|
    && (forall i :: 0 <= i < |at| ==> at[i] < |all| && JoinName(all[at[i]]) == chans[i])
    && (forall i, j :: 0 <= i < |at| && 0 <= j < at[i] ==> JoinName(all[j]) != chans[i])
    && (forall i, j :: 0 <= i < j < |at| ==> at[i] < at[j])
  }

  /** The list after the first `n` names. */
  predicate ListedTo(at: seq<nat>, all: seq<string>, chans: seq<string>, n: nat) {
    && n <= |all| && FirstNamed(at, all, chans)
    && (forall i :: 0 <= i < |at| ==> at[i] < n)
    && (forall i :: 0 <= i < n ==> JoinName(all[i]) == "" || JoinName(all[i]) in chans)
    && "" !in chans
  }

  lemma ListedSkip(at: seq<nat>, all: seq<string>, chans: seq<string>, n: nat)
    requires ListedTo(at, all, chans, n) && n < |all| && (JoinName(all[n]) == "" || JoinName(all[n]) in chans)
    ensures ListedTo(at, all, chans, n + 1)
  {
  }

  lemma ListedTake(at: seq<nat>, all: seq<string>, chans: seq<string>, n: nat)
    requires ListedTo(at, all, chans, n) && n < |all| && JoinName(all[n]) != "" && JoinName(all[n]) !in chans
    ensures ListedTo(at + [n], all, chans + [JoinName(all[n])], n + 1)
  {
  }

  lemma ListedAll(at: seq<nat>, all: seq<string>, chans: seq<string>)
    requires ListedTo(at, all, chans, |all|)
    ensures forall i, j :: 0 <= i < j < |chans| ==> chans[i] != chans[j]
    ensures forall c :: c in chans <==> c != "" && exists i :: 0 <= i < |all| && JoinName(all[i]) == c
  {
    forall i, j | 0 <= i < j < |chans|
      ensures chans[i] != chans[j]
    {
      assert JoinName(all[at[i]]) == chans[i] && at[i] < at[j];
    }
    forall c | c in chans
      ensures exists i :: 0 <= i < |all| && JoinName(all[i]) == c
    {
      var i :| 0 <= i < |chans| && chans[i] == c;
      assert JoinName(all[at[i]]) == c;
    }
  }

  /** The rejoin list after 001: configured channels, then the ones joined before the reconnect. */
  method RejoinList(autoJoin: seq<string>, prevChans: seq<string>) returns (chans: seq<string>)
    ensures forall i, j :: 0 <= i < j < |chans| ==> chans[i] != chans[j]
    ensures forall c :: c in chans <==>
              c != "" && exists i :: 0 <= i < |autoJoin + prevChans| && JoinName((autoJoin + prevChans)[i]) == c
    ensures exists at :: FirstNamed(at, autoJoin + prevChans, chans)
  {
    var all := autoJoin + prevChans;
    ghost var at: seq<nat> := [];
    var seen: set<string> := {};
    chans := [];
    for i := 0 to |all|
      invariant ListedTo(at, all, chans, i) && forall c :: c in chans <==> c in seen
    {
      var name := TrimSpace(all[i]);
      if name != "" && !StartsWith(name, '#') {
        name := "#" + name;
      }
      assert JoinName(all[i]) == name;
      if name == "" || name in seen {
        ListedSkip(at, all, chans, i);
      } else {
        ListedTake(at, all, chans, i);
        seen := seen + {name};
        chans := chans + [name];
        at := at + [i];
      }
    }
    ListedAll(at, all, chans);
  }

  lemma {:induction false} TrimmedHash(ch: string)
    requires StartsWith(ch, '#') && !IsSpace(ch[|ch| - 1])
    ensures JoinName(ch) == ch
  {
    TrimRightKeeps(ch, IsSpace);
  }

  /** Every `#` channel of either list is rejoined, and once. */
  method RejoinsEachOnce(autoJoin: seq<string>, prevChans: seq<string>, ch: string) returns (chans: seq<string>)
    requires ch in autoJoin || ch in prevChans
    requires StartsWith(ch, '#') && !IsSpace(ch[|ch| - 1])
    ensures multiset(chans)[ch] == 1
  {
    chans := RejoinList(autoJoin, prevChans);
    TrimmedHash(ch);
    var all := autoJoin + prevChans;
    assert ch in all;
    assert ch in chans by {
      var i :| 0 <= i < |all| && all[i] == ch;
      assert JoinName(all[i]) == ch;
    }
    OnceInDistinct(chans, ch);
  }

  lemma {:induction false} OnceInDistinct(s: seq<string>, x: string)
    requires forall i, j :: 0 <= i < j < |s| ==> s[i] != s[j]
    ensures multiset(s)[x] == if x in s then 1 else 0
  {
    if s != [] {
      var n := |s| - 1;
      OnceInDistinct(s[..n], x);
      assert s == s[..n] + [s[n]];
    }
  }
}
