/** From lines to the tracking events: how `intercept` takes a line apart, and that on printed lines it
    hears just the events of NickTracking. */
module TrackedLines {
  import opened GoStrings
  import Go = GoStrings
  import opened LineRouting
  import opened NickTracking

  /** The words of a line without its tags; a line that is only tags has none. */
  function PartsOf(line: string): seq<string> {
    if StartsWith(line, '@') then
      var sp := Index(line, ' ');
      if sp < 0 then [] else Split(TrimLeft(line[sp + 1..], IsBlank), ' ')
    else Split(line, ' ')
  }

  /** The tracking fields after a line. */
  function Heard(cfg: Config, t: Track, line: string): Track {
    var parts := PartsOf(line);
    if |parts| < 2 then t
    else
      var idx := if StartsWith(parts[0], ':') then 1 else 0;
      HeardParts(cfg, t, TrimPrefix(parts[0], ':'), ToUpper(parts[idx]), parts[idx + 1..], idx == 1)
  }

  /** `params` are the words behind the command, `first` the first word of the line less its colon. */
  function HeardParts(cfg: Config, t: Track, first: string, cmd: string, params: seq<string>, prefixed: bool): Track {
    if cmd == "001" then t.(currentNick := if params == [] then "" else params[0])
    else if cmd == "433" then OnInUse(cfg, t)
    else if cmd == "NICK" && params != [] then OnNick(t, if prefixed then NickFrom(first) else "", params[0])
    else if cmd == "JOIN" && params != [] then OnJoin(t, NickFrom(first), params[0])
    else if cmd == "PART" && params != [] then OnPart(t, NickFrom(first), params[0])
    else if cmd == "KICK" && |params| > 1 then OnKick(t, params[0], params[1])
    else t
  }

  /** `intercept`, as far as it concerns the tracking fields. */
  method Intercept(c: Conn, line: string)
    modifies c
    ensures c.State() == Heard(c.cfg, old(c.State()), line)
  {
    var body := line;
    if StartsWith(line, '@') {
      var sp := Index(line, ' ');
      if sp < 0 {
        return;
      }
      body := TrimLeft(line[sp + 1..], IsBlank);
    }
    var parts := Split(body, ' ');
    if |parts| < 2 {
      return;
    }
    var idx := if StartsWith(parts[0], ':') then 1 else 0;
    var from := NickFrom(TrimPrefix(parts[0], ':'));
    Dispatch(c, if idx == 1 then from else "", from, ToUpper(parts[idx]), parts[idx + 1..]);
  }

  method Dispatch(c: Conn, sender: string, from: string, cmd: string, params: seq<string>)
    modifies c
    ensures forall first, prefixed :: NickFrom(first) == from && sender == (if prefixed then from else "") ==>
              c.State() == HeardParts(c.cfg, old(c.State()), first, cmd, params, prefixed)
  {
    match cmd {
      case "001" =>
        var prevChans := c.Welcome(if |params| > 0 then params[0] else "");
      case "433" => c.NickInUse();
      case "NICK" => if |params| > 0 { c.Nick(sender, params[0]); }
      case "JOIN" => if |params| > 0 { c.Join(from, params[0]); }
      case "PART" => if |params| > 0 { c.Part(from, params[0]); }
      case "KICK" => if |params| > 1 { c.Kick(params[0], params[1]); }
      case _ =>
    }
  }

  // ---- Printed events ---------------------------------------------------------------------------------

  /** What a line holds beside its event: the tag block ("" for none), the prefix, whatever follows the
      parameters that matter, and the numeric of a refusal. */
  datatype Around = Around(block: string, prefix: string, rest: string, numeric: string)

  /** The command and the parameters that matter. */
  function Words(e: Event, x: Around): seq<string> {
    match e
    case Dial => []
    case InUse => ["433"]
    case Welcome(nick) => ["001", nick]
    case Nick(_, to, colon) => ["NICK", Raw(to, colon)]
    case Join(_, chan, colon) => ["JOIN", Raw(chan, colon)]
    case Part(_, chan, colon) => ["PART", Raw(chan, colon)]
    case Kick(chan, target, colon) => ["KICK", chan, Raw(target, colon)]
    case Refused(chan) => [x.numeric]
  }

  function Text(words: seq<string>, x: Around): string {
    ":" + x.prefix + " " + (Go.Join(words, ' ') + x.rest)
  }

  function Printed(e: Event, x: Around): string {
    (if x.block == "" then "" else "@" + x.block + " ") + Text(Words(e, x), x)
  }

  predicate Spaceless(s: string) {
    ' ' !in s
  }

  predicate Follows(rest: string) {
    rest == "" || rest[0] == ' '
  }

  predicate Trailing(e: Event) {
    match e
    case Nick(_, _, colon) => colon
    case Join(_, _, colon) => colon
    case Part(_, _, colon) => colon
    case Kick(_, _, colon) => colon
    case _ => false
  }

  /** The line is one that a server may print for the event: its prefix names the sender, and nothing
      follows a trailing parameter. */
  predicate Fits(e: Event, x: Around) {
    && !e.Dial? && Spaceless(x.block) && Spaceless(x.prefix) && Follows(x.rest)
    && (forall i :: 0 <= i < |Words(e, x)| ==> Spaceless(Words(e, x)[i]))
    && (e.Nick? ==> SentBy(x.prefix, e.from))
    && (e.Join? || e.Part? ==> SentBy(x.prefix, e.who))
    && (Trailing(e) ==> x.rest == "")
    && (e.Refused? ==> x.numeric in {"471", "473", "474", "475", "477", "485"})
  }

  lemma {:induction false} SplitWords(words: seq<string>, rest: string)
    requires words != [] && Follows(rest) && forall i :: 0 <= i < |words| ==> Spaceless(words[i])
    ensures var parts := Split(Go.Join(words, ' ') + rest, ' ');
            |parts| >= |words| && parts[..|words|] == words
  {
    if |words| == 1 {
      SplitOneWord(words[0], rest);
    } else {
      SplitWords(words[1..], rest);
      SplitMoreWords(words[0], words[1..], rest, Go.Join(words[1..], ' '));
      assert words == [words[0]] + words[1..];
    }
  }

  lemma SplitOneWord(w: string, rest: string)
    requires Spaceless(w) && Follows(rest)
    ensures Split(w + rest, ' ')[0] == w
  {
    if rest == "" {
      assert w + rest == w;
    } else {
      assert w + rest == w + [' '] + rest[1..];
      SplitFirst(w, ' ', rest[1..]);
    }
  }

  lemma SplitMoreWords(w: string, words: seq<string>, rest: string, joined: string)
    requires Spaceless(w)
    requires var parts := Split(joined + rest, ' '); |parts| >= |words| && parts[..|words|] == words
    ensures var parts := Split(w + [' '] + joined + rest, ' ');
            |parts| > |words| && parts[..|words| + 1] == [w] + words
  {
    assert w + [' '] + joined + rest == w + [' '] + (joined + rest);
    SplitFirst(w, ' ', joined + rest);
    InFront(w, words, Split(joined + rest, ' '));
  }

  lemma InFront(w: string, words: seq<string>, parts: seq<string>)
    requires |words| <= |parts| && parts[..|words|] == words
    ensures ([w] + parts)[..|words| + 1] == [w] + words && ([w] + parts)[1..|words| + 1] == words
  {
  }

  /** The parts of a printed line: prefix and words come first. */
  lemma PartsOfText(words: seq<string>, x: Around)
    requires words != [] && Follows(x.rest) && Spaceless(x.prefix)
    requires forall i :: 0 <= i < |words| ==> Spaceless(words[i])
    ensures var parts := Split(Text(words, x), ' ');
            |parts| > |words| && parts[0] == ":" + x.prefix && parts[1..|words| + 1] == words
  {
    var more, first := Go.Join(words, ' ') + x.rest, ":" + x.prefix;
    SplitWords(words, x.rest);
    assert Text(words, x) == first + [' '] + more;
    SplitFirst(first, ' ', more);
    InFront(first, words, Split(more, ' '));
  }

  lemma PartsOfPrinted(e: Event, x: Around)
    requires Fits(e, x)
    ensures var parts, words := PartsOf(Printed(e, x)), Words(e, x);
            |parts| > |words| > 0 && parts[0] == ":" + x.prefix && parts[1..|words| + 1] == words
  {
    var text := Text(Words(e, x), x);
    PartsOfText(Words(e, x), x);
    if x.block == "" {
      assert "" + text == text;
    } else {
      BehindBlock(x.block, text);
    }
  }

  lemma BehindBlock(block: string, text: string)
    requires Spaceless(block) && StartsWith(text, ':')
    ensures PartsOf("@" + block + " " + text) == Split(text, ' ')
  {
    CutAfter("@" + block, ' ', text);
    assert "@" + block + " " + text == ("@" + block) + [' '] + text;
    assert TrimLeft(text, IsBlank) == text;
  }

  lemma CommandUpper(e: Event, x: Around)
    requires Fits(e, x)
    ensures ToUpper(Words(e, x)[0]) == Words(e, x)[0]
  {
  }

  /** On a printed line the bouncer hears the event. */
  lemma HeardPrinted(cfg: Config, t: Track, e: Event, x: Around)
    requires Fits(e, x)
    ensures Heard(cfg, t, Printed(e, x)) == TrackNext(cfg, t, e)
  {
    var parts, words := PartsOf(Printed(e, x)), Words(e, x);
    PartsOfPrinted(e, x);
    CommandUpper(e, x);
    assert parts[1] == words[0] && TrimPrefix(parts[0], ':') == x.prefix;
    var params := parts[2..];
    assert params[..|words| - 1] == parts[1..|words| + 1][1..];
    HeardWords(cfg, t, e, x, params);
  }

  lemma HeardWords(cfg: Config, t: Track, e: Event, x: Around, params: seq<string>)
    requires Fits(e, x) && |params| >= |Words(e, x)| - 1
    requires params[..|Words(e, x)| - 1] == Words(e, x)[1..]
    ensures HeardParts(cfg, t, x.prefix, Words(e, x)[0], params, true) == TrackNext(cfg, t, e)
  {
    var words := Words(e, x);
    SenderIs(x.prefix, NickFrom(x.prefix));
    if e.Nick? { SenderIs(x.prefix, e.from); }
    if e.Join? || e.Part? { SenderIs(x.prefix, e.who); }
    if |words| > 1 {
      assert params[0] == params[..|words| - 1][0] == words[1];
    }
    if |words| > 2 {
      assert params[1] == params[..|words| - 1][1] == words[2];
    }
  }

  /** Lines that change nothing: those of other commands, and a NICK, JOIN or PART without a prefix unless
      its own first word passes for our nick. */
  lemma Unheard(cfg: Config, t: Track, line: string)
    requires var parts := PartsOf(line);
             || |parts| < 2
             || ToUpper(parts[if StartsWith(parts[0], ':') then 1 else 0])
                !in {"001", "433", "NICK", "JOIN", "PART", "KICK"}
             || (!StartsWith(parts[0], ':') && ToUpper(parts[0]) in {"NICK", "JOIN", "PART"}
                 && t.currentNick != "" && !SentBy(parts[0], t.currentNick))
    ensures Heard(cfg, t, line) == t
  {
    var parts := PartsOf(line);
    if |parts| >= 2 {
      SenderIs(parts[0], t.currentNick);
    }
  }

  /** A line of a history batch is heard like any other: an old PART of ours, whatever its batch, takes
      the channel off the list. */
  lemma BatchedPartHeard(cfg: Config, t: Track, batch: string, prefix: string, chan: string)
    requires Spaceless(batch) && Spaceless(prefix) && Spaceless(chan) && SentBy(prefix, t.currentNick)
    ensures var x := Around("batch=" + batch, prefix, "", "");
            Heard(cfg, t, Printed(Part(t.currentNick, chan, false), x)) == t.(joined := t.joined - {chan})
  {
    HeardPrinted(cfg, t, Part(t.currentNick, chan, false), Around("batch=" + batch, prefix, "", ""));
  }

  // ---- Runs of lines ----------------------------------------------------------------------------------

  datatype Input = Redial | Received(line: string)

  function LinesAfter(cfg: Config, seed: set<string>, inputs: seq<Input>): Track {
    if inputs == [] then Track(cfg.nick, 0, seed)
    else
      var t := LinesAfter(cfg, seed, inputs[..|inputs| - 1]);
      match inputs[|inputs| - 1]
      case Redial => OnDial(cfg, t)
      case Received(line) => Heard(cfg, t, line)
  }

  /** The inputs are the events, each printed in some way. */
  ghost predicate Prints(inputs: seq<Input>, run: seq<Event>) {
    |inputs| == |run| && forall i :: 0 <= i < |run| ==> PrintsOne(inputs[i], run[i])
  }

  ghost predicate PrintsOne(input: Input, e: Event) {
    match input
    case Redial => e.Dial?
    case Received(line) => exists x :: Fits(e, x) && line == Printed(e, x)
  }

  /** Over any run of printed lines and reconnects, the tracking fields are those of the run of events. */
  lemma {:induction false} LinesTrack(cfg: Config, seed: set<string>, inputs: seq<Input>, run: seq<Event>)
    requires Prints(inputs, run)
    ensures LinesAfter(cfg, seed, inputs) == TrackAfter(cfg, seed, run)
  {
    if run != [] {
      var n := |run| - 1;
      LinesTrack(cfg, seed, inputs[..n], run[..n]);
      assert PrintsOne(inputs[n], run[n]);
      if inputs[n].Received? {
        var x :| Fits(run[n], x) && inputs[n].line == Printed(run[n], x);
        HeardPrinted(cfg, TrackAfter(cfg, seed, run[..n]), run[n], x);
      }
    }
  }

  /** So, on lines: what the bouncer tracks against the server's list. */
  lemma LinesRefine(cfg: Config, seed: set<string>, inputs: seq<Input>, run: seq<Event>, chan: string)
    requires Prints(inputs, run) && Legal(run) && Word(chan)
    ensures (chan in LinesAfter(cfg, seed, inputs).joined <==> chan in Members(run))
            <==> !Carried(seed, run, chan) && !Stale(seed, run, chan)
    ensures ServerAfter(run).Registered? ==> LinesAfter(cfg, seed, inputs).currentNick == ServerAfter(run).nick
  {
    LinesTrack(cfg, seed, inputs, run);
    JoinedRefines(cfg, seed, run, chan);
    NickRefines(cfg, seed, run);
  }
}
