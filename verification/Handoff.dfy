/** Replay and live delivery as critical sections on one mutex, in any interleaving.
    A run is the sequence in which the sections of all writers and subscribers were entered. */
module Handoff {
  import opened Ring

  /** Lines retained per channel. */
  const BufferSize: nat := 5000

  const ServerKey := "__server__"

  /** A line as the bouncer classifies it: its routing key ("" for none), whether its time tag is
      readable once `buffer` has stamped it, and whether it is a membership event. */
  datatype Line = Line(id: nat, chan: string, timed: bool, membership: bool)

  function Key(line: Line): string {
    if line.chan == "" then ServerKey else line.chan
  }

  datatype Event =
    | Buffer(line: Line)        // the push of `buffer`
    | FanOut(line: Line)        // the snapshot of subscribers that `fanOut` sends to
    | Subscribe(id: string)     // phase 1 of Subscribe
    | Unsubscribe(id: string)
    | Welcome                   // 001 starts a new server buffer

  /** `subs` maps a session id to the number of the Subscribe event that attached it. Each such
      attachment has a replay snapshot per channel and the lines fanned out to it. */
  datatype State = State(bufs: map<string, seq<Line>>, subs: map<string, nat>,
                         replays: map<nat, map<string, seq<Line>>>, live: map<nat, seq<Line>>)

  const Init := State(map[], map[], map[], map[])

  function Pushed(bufs: map<string, seq<Line>>, line: Line): map<string, seq<Line>> {
    var key := Key(line);
    bufs[key := Last((if key in bufs then bufs[key] else []) + [line], BufferSize)]
  }

  predicate Replayable(line: Line) {
    line.timed && !line.membership
  }

  function Filter(lines: seq<Line>): seq<Line> {
    if lines == [] then []
    else Filter(lines[..|lines| - 1]) + (if Replayable(lines[|lines| - 1]) then [lines[|lines| - 1]] else [])
  }

  function Snapshot(bufs: map<string, seq<Line>>): map<string, seq<Line>> {
    map c | c in bufs && c != ServerKey :: Filter(bufs[c])
  }

  function Sent(live: map<nat, seq<Line>>, targets: set<nat>, line: Line): map<nat, seq<Line>> {
    map s | s in live :: if s in targets then live[s] + [line] else live[s]
  }

  function Step(s: State, e: Event, now: nat): State {
    match e
    case Buffer(line) => s.(bufs := Pushed(s.bufs, line))
    case FanOut(line) => s.(live := Sent(s.live, s.subs.Values, line))
    case Subscribe(id) =>
      s.(subs := s.subs[id := now], replays := s.replays[now := Snapshot(s.bufs)], live := s.live[now := []])
    case Unsubscribe(id) => s.(subs := s.subs - {id})
    case Welcome => s.(bufs := s.bufs[ServerKey := []])
  }

  function After(run: seq<Event>): State {
    if run == [] then Init
    else Step(After(run[..|run| - 1]), run[|run| - 1], |run| - 1)
  }

  // ---- Replay -------------------------------------------------------------------------------------

  /** Everything buffered under a channel, in order. For a channel it is the lines that target it. */
  function LogOf(run: seq<Event>, chan: string): seq<Line> {
    if run == [] then []
    else
      var e := run[|run| - 1];
      LogOf(run[..|run| - 1], chan) + if e.Buffer? && Key(e.line) == chan then [e.line] else []
  }

  function BufOf(bufs: map<string, seq<Line>>, chan: string): seq<Line> {
    if chan in bufs then bufs[chan] else []
  }

  /** A line with a channel is kept under that channel. */
  lemma {:induction false} LogOfChannel(run: seq<Event>, chan: string)
    requires chan != "" && chan != ServerKey
    ensures forall line :: line in LogOf(run, chan) <==> line.chan == chan && Buffer(line) in run
  {
    if run != [] {
      var n := |run| - 1;
      LogOfChannel(run[..n], chan);
      assert run == run[..n] + [run[n]];
    }
  }

  lemma BufOfStep(s: State, e: Event, now: nat, chan: string)
    requires chan != ServerKey
    ensures BufOf(Step(s, e, now).bufs, chan)
         == if e.Buffer? && Key(e.line) == chan then Last(BufOf(s.bufs, chan) + [e.line], BufferSize)
            else BufOf(s.bufs, chan)
  {
  }

  /** A channel's buffer refines the unbounded log: it is the log's last BufferSize lines, in order. */
  lemma {:induction false} BufferIsLogSuffix(run: seq<Event>, chan: string)
    requires chan != ServerKey
    ensures BufOf(After(run).bufs, chan) == Last(LogOf(run, chan), BufferSize)
  {
    if run != [] {
      var n := |run| - 1;
      BufferIsLogSuffix(run[..n], chan);
      BufOfStep(After(run[..n]), run[n], n, chan);
      if run[n].Buffer? && Key(run[n].line) == chan {
        LastOfLast(LogOf(run[..n], chan), run[n].line, BufferSize);
      } else {
        assert LogOf(run, chan) == LogOf(run[..n], chan);
      }
    }
  }

  lemma {:induction false} ReplayFixed(run: seq<Event>, t: nat)
    requires t < |run| && run[t].Subscribe?
    ensures t in After(run).replays && After(run).replays[t] == Snapshot(After(run[..t]).bufs)
    ensures t in After(run).live
  {
    var n := |run| - 1;
    if t < n {
      assert run[..n][..t] == run[..t];
      ReplayFixed(run[..n], t);
    }
  }

  function ReplayOf(run: seq<Event>, t: nat, chan: string): seq<Line>
    requires t < |run| && run[t].Subscribe?
  {
    ReplayFixed(run, t);
    var replay := After(run).replays[t];
    if chan in replay then replay[chan] else []
  }

  /** A subscriber's replay of a channel is the order-preserving filter, to timed lines that are not
      membership events, of the last BufferSize lines buffered before it registered. */
  lemma ReplayIsFilteredSuffix(run: seq<Event>, t: nat, chan: string)
    requires t < |run| && run[t].Subscribe? && chan != ServerKey
    ensures ReplayOf(run, t, chan) == Filter(Last(LogOf(run[..t], chan), BufferSize))
  {
    ReplayFixed(run, t);
    BufferIsLogSuffix(run[..t], chan);
  }

  /** `at` lists, from first to last, the positions of exactly those lines that carry a readable time and
      are no membership events, and `kept` holds the lines at these positions. */
  predicate Selects(at: seq<nat>, lines: seq<Line>, kept: seq<Line>) {
    && |at| == |kept|
    && (forall i :: 0 <= i < |at| ==> at[i] < |lines| && kept[i] == lines[at[i]])
    && (forall i, j :: 0 <= i < j < |at| ==> at[i] < at[j])
    && (forall p: nat :: p < |lines| ==> (p in at <==> lines[p].timed && !lines[p].membership))
  }

  /** The positions of these lines. */
  function Positions(lines: seq<Line>): seq<nat> {
    if lines == [] then []
    else
      var n := |lines| - 1;
      Positions(lines[..n]) + if lines[n].timed && !lines[n].membership then [n] else []
  }

  /** The replay filter keeps the order of the buffer. */
  lemma {:induction false} FilterSelects(lines: seq<Line>)
    ensures Selects(Positions(lines), lines, Filter(lines))
  {
    if lines != [] {
      FilterSelects(lines[..|lines| - 1]);
      SelectsMore(Positions(lines[..|lines| - 1]), lines, Filter(lines[..|lines| - 1]));
    }
  }

  lemma SelectsMore(at: seq<nat>, lines: seq<Line>, kept: seq<Line>)
    requires lines != [] && Selects(at, lines[..|lines| - 1], kept)
    ensures var n := |lines| - 1;
            var here := lines[n].timed && !lines[n].membership;
            Selects(at + (if here then [n] else []), lines, kept + if here then [lines[n]] else [])
  {
    var n := |lines| - 1;
    assert forall i :: 0 <= i < |at| ==> at[i] in at;
    assert n !in at;
    var more := at + if lines[n].timed && !lines[n].membership then [n] else [];
    forall p: nat | p < |lines|
      ensures p in more <==> lines[p].timed && !lines[p].membership
    {
      assert p < n ==> lines[..n][p] == lines[p];
    }
  }

  /** In every run a subscriber's replay of a channel holds, in the order in which they were buffered,
      exactly the timed lines that are no membership events of the last 5000 lines that were buffered
      under the channel before it registered. */
  lemma ReplayInOrder(run: seq<Event>, t: nat, chan: string)
    requires t < |run| && run[t].Subscribe? && chan != ServerKey
    ensures var lines := Last(LogOf(run[..t], chan), 5000);
            Selects(Positions(lines), lines, ReplayOf(run, t, chan))
  {
    ReplayIsFilteredSuffix(run, t, chan);
    FilterSelects(Last(LogOf(run[..t], chan), BufferSize));
  }

  // ---- The server buffer --------------------------------------------------------------------------

  /** The lines without a channel since the last 001. */
  function ServerLog(run: seq<Event>): seq<Line> {
    if run == [] then []
    else
      var e, before := run[|run| - 1], ServerLog(run[..|run| - 1]);
      if e.Welcome? then []
      else before + if e.Buffer? && (e.line.chan == "" || e.line.chan == "__server__") then [e.line] else []
  }

  /** Lines without a channel are kept in the server buffer, which holds the last 5000 since the last 001. */
  lemma {:induction false} ServerBufferIsSuffix(run: seq<Event>)
    ensures BufOf(After(run).bufs, "__server__") == Last(ServerLog(run), 5000)
  {
    if run != [] {
      var n := |run| - 1;
      ServerBufferIsSuffix(run[..n]);
      ServerStep(After(run[..n]), run[n], n);
      if run[n].Buffer? && (run[n].line.chan == "" || run[n].line.chan == "__server__") {
        LastOfLast(ServerLog(run[..n]), run[n].line, BufferSize);
      } else if !run[n].Welcome? {
        assert ServerLog(run) == ServerLog(run[..n]);
      }
    }
  }

  lemma ServerStep(s: State, e: Event, now: nat)
    ensures BufOf(Step(s, e, now).bufs, ServerKey)
         == if e.Welcome? then []
            else if e.Buffer? && (e.line.chan == "" || e.line.chan == "__server__")
              then Last(BufOf(s.bufs, ServerKey) + [e.line], BufferSize)
            else BufOf(s.bufs, ServerKey)
  {
  }

  // ---- Live delivery ------------------------------------------------------------------------------

  /** No event of these ends the attachment of session `id`. */
  predicate Attached(events: seq<Event>, id: string) {
    Subscribe(id) !in events && Unsubscribe(id) !in events
  }

  /** Sessions are attached under the number of their latest Subscribe. */
  lemma {:induction false} SubsNumbers(run: seq<Event>, id: string)
    ensures id in After(run).subs ==> After(run).subs[id] < |run| && run[After(run).subs[id]] == Subscribe(id)
  {
    if run != [] {
      SubsNumbers(run[..|run| - 1], id);
    }
  }

  lemma {:induction false} AttachedMeansInSubs(run: seq<Event>, t: nat, id: string)
    requires t < |run| && run[t] == Subscribe(id)
    ensures t in After(run).subs.Values <==> Attached(run[t + 1..], id)
  {
    var n := |run| - 1;
    if t == n {
      assert After(run).subs[id] == t;
      assert run[t + 1..] == [];
    } else {
      AttachedMeansInSubs(run[..n], t, id);
      var before := After(run[..n]);
      assert run[t + 1..] == run[..n][t + 1..] + [run[n]];
      forall x | x in before.subs && before.subs[x] == t
        ensures x == id
      {
        SubsNumbers(run[..n], x);
      }
      SubsStep(before, run[n], n, t, id);
    }
  }

  /** An attachment ends when its session is detached or attached anew. */
  lemma SubsStep(s: State, e: Event, now: nat, t: nat, id: string)
    requires t < now && forall x :: x in s.subs && s.subs[x] == t ==> x == id
    ensures t in Step(s, e, now).subs.Values <==>
            t in s.subs.Values && e != Subscribe(id) && e != Unsubscribe(id)
  {
    var subs := Step(s, e, now).subs;
    if t in s.subs.Values {
      assert id in s.subs && s.subs[id] == t;
      if e != Subscribe(id) && e != Unsubscribe(id) {
        assert id in subs && subs[id] == t;
      }
    }
  }

  function LiveOf(run: seq<Event>, t: nat): seq<Line>
    requires t < |run| && run[t].Subscribe?
  {
    ReplayFixed(run, t);
    After(run).live[t]
  }

  function Times(lines: seq<Line>, line: Line): nat {
    multiset(lines)[line]
  }

  lemma TimesConcat(a: seq<Line>, b: seq<Line>, line: Line)
    ensures Times(a + b, line) == Times(a, line) + Times(b, line)
  {
  }

  /** `e` happens at position i of the run and nowhere else. */
  predicate Once(run: seq<Event>, i: nat, e: Event) {
    i < |run| && run[i] == e && forall j :: 0 <= j < |run| && run[j] == e ==> j == i
  }

  lemma OnceBefore(run: seq<Event>, i: nat, e: Event)
    requires Once(run, i, e) && i < |run| - 1
    ensures Once(run[..|run| - 1], i, e)
  {
    assert forall j :: 0 <= j < |run| - 1 ==> run[..|run| - 1][j] == run[j];
  }

  lemma {:induction false} NeverFanned(run: seq<Event>, t: nat, line: Line)
    requires t < |run| && run[t].Subscribe?
    requires forall j :: t <= j < |run| ==> run[j] != FanOut(line)
    ensures Times(LiveOf(run, t), line) == 0
  {
    var n := |run| - 1;
    ReplayFixed(run, t);
    if t < n {
      NeverFanned(run[..n], t, line);
      ReplayFixed(run[..n], t);
    }
  }

  lemma LiveUnchanged(run: seq<Event>, line: Line, t: nat)
    requires t < |run| && run[t].Subscribe? && run[|run| - 1] != FanOut(line)
    ensures var n := |run| - 1;
            Times(LiveOf(run, t), line) == if t < n then Times(LiveOf(run[..n], t), line) else 0
  {
    var n := |run| - 1;
    ReplayFixed(run, t);
    if t < n {
      ReplayFixed(run[..n], t);
    }
  }

  lemma LiveNow(run: seq<Event>, line: Line, t: nat, id: string)
    requires run != [] && Once(run, |run| - 1, FanOut(line)) && t < |run| - 1 && run[t] == Subscribe(id)
    ensures Times(LiveOf(run, t), line) == if Attached(run[t + 1..|run| - 1], id) then 1 else 0
  {
    var n := |run| - 1;
    NeverFanned(run[..n], t, line);
    ReplayFixed(run, t);
    ReplayFixed(run[..n], t);
    AttachedMeansInSubs(run[..n], t, id);
    assert run[..n][t + 1..] == run[t + 1..n];
    TimesConcat(LiveOf(run[..n], t), [line], line);
  }

  /** A line reaches an attachment live, and once, exactly when it is fanned out while the session
      is attached. */
  lemma {:induction false} LiveDelivery(run: seq<Event>, f: nat, line: Line, t: nat, id: string)
    requires Once(run, f, FanOut(line)) && t < |run| && run[t] == Subscribe(id)
    ensures Times(LiveOf(run, t), line) == if t < f && Attached(run[t + 1..f], id) then 1 else 0
  {
    var n := |run| - 1;
    ReplayFixed(run, t);
    if f < t {
      NeverFanned(run, t, line);
    } else if f < n {
      OnceBefore(run, f, FanOut(line));
      LiveDelivery(run[..n], f, line, t, id);
      assert run[n] != FanOut(line);
      LiveUnchanged(run, line, t);
      if t < f { assert run[..n][t + 1..f] == run[t + 1..f]; }
    } else {
      LiveNow(run, line, t, id);
    }
  }

  // ---- Counting in the replay ---------------------------------------------------------------------

  lemma {:induction false} LogOfConcat(a: seq<Event>, b: seq<Event>, chan: string)
    ensures LogOf(a + b, chan) == LogOf(a, chan) + LogOf(b, chan)
  {
    if b == [] {
      assert a + b == a;
    } else {
      assert (a + b)[..|a + b| - 1] == a + b[..|b| - 1];
      LogOfConcat(a, b[..|b| - 1], chan);
    }
  }

  lemma {:induction false} NeverBuffered(run: seq<Event>, chan: string, line: Line)
    requires Buffer(line) !in run
    ensures line !in LogOf(run, chan)
  {
    if run != [] {
      NeverBuffered(run[..|run| - 1], chan, line);
    }
  }

  lemma {:induction false} TimesInFilter(lines: seq<Line>, line: Line)
    ensures Times(Filter(lines), line) == if Replayable(line) then Times(lines, line) else 0
  {
    if lines != [] {
      var n := |lines| - 1;
      TimesInFilter(lines[..n], line);
      assert lines == lines[..n] + [lines[n]];
      TimesConcat(lines[..n], [lines[n]], line);
      TimesConcat(Filter(lines[..n]), if Replayable(lines[n]) then [lines[n]] else [], line);
    }
  }

  /** The lines buffered under a channel during part of a run. */
  function Pushes(events: seq<Event>, chan: string): nat {
    |LogOf(events, chan)|
  }

  lemma TimesInSuffix(a: seq<Line>, line: Line, b: seq<Line>, k: nat)
    requires line !in a && line !in b
    ensures Times(Last(a + [line] + b, k), line) == if |b| < k then 1 else 0
  {
    var s := a + [line] + b;
    if |b| < k {
      var kept := Last(a, k - |b| - 1);
      assert Last(s, k) == kept + [line] + b;
      forall x | x in kept
        ensures x in a
      {
      }
      TimesConcat(kept + [line], b, line);
      TimesConcat(kept, [line], line);
    } else {
      assert Last(s, k) == Last(b, k);
      forall x | x in Last(b, k)
        ensures x in b
      {
      }
    }
  }

  lemma SplitLog(run: seq<Event>, b: nat, line: Line, t: nat)
    requires Once(run, b, Buffer(line)) && b < t <= |run|
    ensures LogOf(run[..t], Key(line))
         == LogOf(run[..b], Key(line)) + [line] + LogOf(run[b + 1..t], Key(line))
    ensures line !in LogOf(run[..b], Key(line)) && line !in LogOf(run[b + 1..t], Key(line))
  {
    var chan := Key(line);
    assert run[..t] == run[..b + 1] + run[b + 1..t];
    LogOfConcat(run[..b + 1], run[b + 1..t], chan);
    assert run[..b + 1][..b] == run[..b];
    NeverBuffered(run[..b], chan, line);
    NeverBuffered(run[b + 1..t], chan, line);
  }

  /** A line reaches an attachment by replay, and once, exactly when it was buffered before the
      registration, may be replayed, and fewer than BufferSize lines entered its channel in between. */
  lemma ReplayDelivery(run: seq<Event>, b: nat, line: Line, t: nat)
    requires Once(run, b, Buffer(line)) && Key(line) != ServerKey
    requires t < |run| && run[t].Subscribe?
    ensures Times(ReplayOf(run, t, Key(line)), line)
         == if Replayable(line) && b < t && Pushes(run[b + 1..t], Key(line)) < BufferSize then 1 else 0
  {
    var chan := Key(line);
    ReplayIsFilteredSuffix(run, t, chan);
    var kept := Last(LogOf(run[..t], chan), BufferSize);
    TimesInFilter(kept, line);
    if b < t {
      SplitLog(run, b, line, t);
      TimesInSuffix(LogOf(run[..b], chan), line, LogOf(run[b + 1..t], chan), BufferSize);
    } else {
      assert forall j :: 0 <= j < t ==> run[..t][j] == run[j] && run[j] != Buffer(line);
      NeverBuffered(run[..t], chan, line);
      assert forall x :: x in kept ==> x in LogOf(run[..t], chan);
    }
  }

  // ---- The hand-off -------------------------------------------------------------------------------

  /** One channel line from buffering to fan-out, and one attachment that is in place when the line
      is fanned out or made afterwards. */
  predicate Handed(run: seq<Event>, b: nat, f: nat, line: Line, t: nat, id: string) {
    && b < f && Once(run, b, Buffer(line)) && Once(run, f, FanOut(line))
    && Replayable(line) && Key(line) != ServerKey
    && t < |run| && run[t] == Subscribe(id)
    && (t < f ==> Attached(run[t + 1..f], id))
  }

  /** In every interleaving, the line reaches the subscriber by replay or live unless at least
      BufferSize later lines entered its channel before the subscriber registered. It arrives by both
      exactly when registration falls between the line's two steps (and it was not evicted by then). */
  lemma NothingLost(run: seq<Event>, b: nat, f: nat, line: Line, t: nat, id: string)
    requires Handed(run, b, f, line, t, id)
    ensures var replayed := Times(ReplayOf(run, t, Key(line)), line);
            var sent := Times(LiveOf(run, t), line);
            var evicted := b < t && Pushes(run[b + 1..t], Key(line)) >= 5000;
            && replayed <= 1 && sent <= 1
            && (replayed + sent == 0 <==> f < t && evicted)
            && (replayed + sent == 2 <==> b < t < f && !evicted)
  {
    ReplayDelivery(run, b, line, t);
    LiveDelivery(run, f, line, t, id);
  }

  /** Live delivery is in fan-out order: later events only append. */
  lemma {:induction false} LiveGrows(run: seq<Event>, k: nat, t: nat)
    requires t < k <= |run| && run[t].Subscribe?
    ensures LiveOf(run[..k], t) <= LiveOf(run, t)
  {
    if k == |run| {
      assert run[..k] == run;
    } else {
      LiveStep(run, t);
      LiveGrows(run[..|run| - 1], k, t);
      assert run[..|run| - 1][..k] == run[..k];
    }
  }

  lemma LiveStep(run: seq<Event>, t: nat)
    requires t < |run| - 1 && run[t].Subscribe?
    ensures LiveOf(run[..|run| - 1], t) <= LiveOf(run, t)
  {
    var n := |run| - 1;
    ReplayFixed(run[..n], t);
    ReplayFixed(run, t);
  }
}
