/** The browser's message reducer: de-duplication, sorted prepending, truncation and unread counts. */
module Reducer {
  import opened Options
  import opened Ring
  import opened StableSort

  const MaxMessages: nat := 1000
  const RecentWindow: nat := 30

  function ChanKey(net: string, chan: string): string {
    net + "::" + chan
  }

  /** Sender, minute and the first 40 characters. */
  datatype Fingerprint = Fingerprint(nick: string, minute: Option<int>, head: string)

  function Print(m: Msg): Fingerprint {
    Fingerprint(m.nick, if m.time.Some? then Some(m.time.value / 60_000) else None,
                if |m.text| <= 40 then m.text else m.text[..40])
  }

  /** `channels` maps a channel to whether it was left; topics, members, nicks and presence play no part here. */
  datatype State = State(
    networkOrder: seq<string>,
    channels: map<string, bool>,
    messages: map<string, seq<Msg>>,
    unread: map<string, nat>,
    activeNet: Option<string>,
    activeChan: map<string, string>,
    seenMsgIds: set<string>,
    replaying: set<string>)

  const Initial := State([], map[], map[], map[], None, map[], {}, {})

  /** `next` is the channel that becomes active when one is parted: the last remaining one in the
      object's key order, which is not modelled, or the status channel, or none. */
  datatype Action =
    | NetAdd(net: string)
    | NetReorder(order: seq<string>)
    | NetRemove(net: string)                       // NET_REMOVE and NET_DEL
    | SetActiveNet(active: Option<string>)
    | SetActiveChan(net: string, chan: string)
    | ChanJoin(net: string, chan: string)
    | ChanPart(net: string, chan: string, next: Option<string>)
    | ChanRejoin(net: string, chan: string)
    | ChanPartRemove(net: string, chan: string, next: Option<string>)
    | AddMsg(net: string, chan: string, msg: Msg)
    | PrependMsgs(net: string, chan: string, msgs: seq<Msg>)
    | ReplayStart(net: string)
    | ReplayDone(net: string)
    | SortMsgs(net: string)
    | ClearUnread(net: string, chan: string)

  function MessagesAt(s: State, k: string): seq<Msg> {
    if k in s.messages then s.messages[k] else []
  }

  function UnreadAt(s: State, k: string): nat {
    if k in s.unread then s.unread[k] else 0
  }

  /** Keys of one network start with its id and "::". */
  predicate OfNetwork(k: string, net: string) {
    net + "::" <= k
  }

  function Without<V>(m: map<string, V>, net: string): map<string, V> {
    map k | k in m && !OfNetwork(k, net) :: m[k]
  }

  predicate Seen(s: State, m: Msg) {
    m.id != "" && m.id in s.seenMsgIds
  }

  function Prints(ms: seq<Msg>): set<Fingerprint> {
    set i | 0 <= i < |ms| :: Print(ms[i])
  }

  /** ADD_MSG drops a message whose id was seen or whose fingerprint is among the messages it is
      compared with: all of them during a replay, otherwise the last 30. */
  predicate Dropped(s: State, net: string, k: string, m: Msg) {
    var existing := MessagesAt(s, k);
    Seen(s, m) || Print(m) in Prints(if net in s.replaying then existing else Last(existing, RecentWindow))
  }

  predicate IsActive(s: State, net: string, chan: string) {
    s.activeNet == Some(net) && net in s.activeChan && s.activeChan[net] == chan
  }

  function Added(s: State, net: string, chan: string, m: Msg): State {
    var k := ChanKey(net, chan);
    if Dropped(s, net, k, m) then s
    else s.(messages := s.messages[k := Last(MessagesAt(s, k) + [m], MaxMessages)],
            seenMsgIds := if m.id != "" then s.seenMsgIds + {m.id} else s.seenMsgIds,
            unread := if net in s.replaying then s.unread
                      else s.unread[k := if IsActive(s, net, chan) then 0 else UnreadAt(s, k) + 1])
  }

  /** The filter of PREPEND_MSGS, with the two sets it fills as it goes. */
  datatype Filtered = Filtered(added: seq<Msg>, seen: set<string>, prints: set<Fingerprint>)

  function FilterOne(f: Filtered, m: Msg): Filtered {
    if m.id != "" && m.id in f.seen then f
    else
      var seen := if m.id != "" then f.seen + {m.id} else f.seen;
      if Print(m) in f.prints then f.(seen := seen)
      else Filtered(f.added + [m], seen, f.prints + {Print(m)})
  }

  function FilterAll(f: Filtered, ms: seq<Msg>): Filtered {
    if ms == [] then f else FilterOne(FilterAll(f, ms[..|ms| - 1]), ms[|ms| - 1])
  }

  function FilterFor(s: State, k: string, ms: seq<Msg>): Filtered {
    FilterAll(Filtered([], s.seenMsgIds, Prints(MessagesAt(s, k))), ms)
  }

  function Prepended(s: State, k: string, ms: seq<Msg>, sort: seq<Msg> -> seq<Msg>): State {
    var f := FilterFor(s, k, ms);
    if f.added == [] then s
    else s.(messages := s.messages[k := Last(sort(f.added + MessagesAt(s, k)), MaxMessages)], seenMsgIds := f.seen)
  }

  function Activated(active: map<string, string>, net: string, next: Option<string>): map<string, string> {
    if next.Some? then active[net := next.value] else active - {net}
  }

  function Reduce(s: State, a: Action, sort: seq<Msg> -> seq<Msg>): State {
    match a
    case NetAdd(net) => s.(networkOrder := if net in s.networkOrder then s.networkOrder else s.networkOrder + [net])
    case NetReorder(order) => s.(networkOrder := order)
    case NetRemove(net) =>
      var order := RemoveAll(s.networkOrder, net);
      s.(networkOrder := order, channels := Without(s.channels, net), messages := Without(s.messages, net),
         unread := Without(s.unread, net), activeChan := s.activeChan - {net},
         activeNet := if s.activeNet != Some(net) then s.activeNet
                      else if order == [] then None else Some(order[0]))
    case SetActiveNet(active) => s.(activeNet := active)
    case SetActiveChan(net, chan) => s.(activeChan := s.activeChan[net := chan])
    case ChanJoin(net, chan) =>
      var k := ChanKey(net, chan);
      s.(channels := s.channels[k := false], messages := s.messages[k := MessagesAt(s, k)],
         unread := s.unread[k := UnreadAt(s, k)],
         activeChan := if net in s.activeChan && s.activeChan[net] != "" then s.activeChan
                       else s.activeChan[net := chan],
         activeNet := if s.activeNet.Some? && s.activeNet.value != "" then s.activeNet else Some(net))
    case ChanPart(net, chan, next) =>
      var k := ChanKey(net, chan);
      s.(channels := s.channels[k := true], unread := s.unread[k := 0],
         activeChan := Activated(s.activeChan, net, next))
    case ChanRejoin(net, chan) =>
      var k := ChanKey(net, chan);
      if k in s.channels then s.(channels := s.channels[k := false]) else s
    case ChanPartRemove(net, chan, next) =>
      var k := ChanKey(net, chan);
      s.(channels := s.channels - {k}, messages := s.messages - {k}, unread := s.unread - {k},
         activeChan := Activated(s.activeChan, net, next))
    case AddMsg(net, chan, m) => Added(s, net, chan, m)
    case PrependMsgs(net, chan, ms) => Prepended(s, ChanKey(net, chan), ms, sort)
    case ReplayStart(net) => s.(replaying := s.replaying + {net})
    case ReplayDone(net) => s.(replaying := s.replaying - {net})
    case SortMsgs(net) =>
      s.(messages := map k | k in s.messages :: if OfNetwork(k, net) then sort(s.messages[k]) else s.messages[k])
    case ClearUnread(net, chan) => s.(unread := s.unread[ChanKey(net, chan) := 0])
  }

  function RemoveAll(order: seq<string>, net: string): seq<string> {
    if order == [] then []
    else RemoveAll(order[..|order| - 1], net) + if order[|order| - 1] == net then [] else [order[|order| - 1]]
  }

  function After(run: seq<Action>, sort: seq<Msg> -> seq<Msg>): State {
    if run == [] then Initial else Reduce(After(run[..|run| - 1], sort), run[|run| - 1], sort)
  }

  // ---- Counting ids ---------------------------------------------------------------------------------------

  function CountId(xs: seq<Msg>, id: string): nat {
    if xs == [] then 0 else CountId(xs[..|xs| - 1], id) + if xs[|xs| - 1].id == id then 1 else 0
  }

  lemma {:induction false} CountIdConcat(a: seq<Msg>, b: seq<Msg>, id: string)
    ensures CountId(a + b, id) == CountId(a, id) + CountId(b, id)
  {
    if b == [] {
      assert a + b == a;
    } else {
      assert (a + b)[..|a + b| - 1] == a + b[..|b| - 1];
      CountIdConcat(a, b[..|b| - 1], id);
    }
  }

  lemma CountIdRemove(xs: seq<Msg>, i: nat, id: string)
    requires i < |xs|
    ensures CountId(xs, id) == CountId(xs[..i] + xs[i + 1..], id) + if xs[i].id == id then 1 else 0
  {
    assert xs == xs[..i] + ([xs[i]] + xs[i + 1..]);
    CountIdConcat(xs[..i], [xs[i]] + xs[i + 1..], id);
    CountIdConcat([xs[i]], xs[i + 1..], id);
    CountIdConcat(xs[..i], xs[i + 1..], id);
    assert [xs[i]][..0] == [];
  }

  lemma RemoveOne(ys: seq<Msg>, j: nat)
    requires j < |ys|
    ensures multiset(ys[..j] + ys[j + 1..]) == multiset(ys) - multiset{ys[j]}
  {
    assert ys == ys[..j] + [ys[j]] + ys[j + 1..];
  }

  lemma {:induction false} CountIdPermuted(xs: seq<Msg>, ys: seq<Msg>, id: string)
    requires multiset(xs) == multiset(ys)
    ensures CountId(xs, id) == CountId(ys, id)
    decreases |xs|
  {
    if xs == [] {
      assert |multiset(ys)| == 0;
    } else {
      var n := |xs| - 1;
      assert xs[n] in multiset(xs);
      var j :| 0 <= j < |ys| && ys[j] == xs[n];
      RemoveOne(xs, n);
      assert xs[..n] + xs[n + 1..] == xs[..n];
      RemoveOne(ys, j);
      CountIdPermuted(xs[..n], ys[..j] + ys[j + 1..], id);
      CountIdRemove(ys, j, id);
    }
  }

  lemma CountIdLast(xs: seq<Msg>, k: nat, id: string)
    ensures CountId(Last(xs, k), id) <= CountId(xs, id)
  {
    if |xs| > k {
      assert xs == xs[..|xs| - k] + xs[|xs| - k..];
      CountIdConcat(xs[..|xs| - k], xs[|xs| - k..], id);
    }
  }

  // ---- The invariant --------------------------------------------------------------------------------------

  /** Lists are bounded, every id was seen, none occurs twice in a list or in two lists. */
  ghost predicate Inv(s: State) {
    && (forall k :: k in s.messages ==> |s.messages[k]| <= MaxMessages)
    && (forall k, id :: k in s.messages && id != "" ==> CountId(s.messages[k], id) <= 1)
    && (forall k, id :: k in s.messages && id != "" && CountId(s.messages[k], id) > 0 ==> id in s.seenMsgIds)
    && (forall k, l, id | k in s.messages && l in s.messages && k != l && id != "" ::
          CountId(s.messages[k], id) == 0 || CountId(s.messages[l], id) == 0)
  }

  /** Replacing one list keeps the invariant if the new one holds each id at most once, and holds only
      ids that its old list held or that were unseen. */
  lemma InvReplace(s: State, k: string, ms: seq<Msg>, seen: set<string>, s2: State)
    requires Inv(s) && s.seenMsgIds <= seen && |ms| <= MaxMessages
    requires s2.messages == s.messages[k := ms] && s2.seenMsgIds == seen
    requires forall id :: id != "" ==> CountId(ms, id) <= 1
    requires forall id :: id != "" && CountId(ms, id) > 0 ==>
               id in seen && (CountId(MessagesAt(s, k), id) > 0 || id !in s.seenMsgIds)
    ensures Inv(s2)
  {
  }

  lemma AddedCounts(existing: seq<Msg>, m: Msg, id: string)
    ensures CountId(Last(existing + [m], MaxMessages), id) <= CountId(existing, id) + if m.id == id then 1 else 0
  {
    CountIdLast(existing + [m], MaxMessages, id);
    CountIdConcat(existing, [m], id);
    assert [m][..0] == [];
  }

  lemma AddedList(s: State, k: string, m: Msg)
    requires Inv(s)
    ensures var ms := Last(MessagesAt(s, k) + [m], MaxMessages);
            && |ms| <= MaxMessages
            && (forall id :: CountId(ms, id) <= CountId(MessagesAt(s, k), id) + if m.id == id then 1 else 0)
  {
    var ms := Last(MessagesAt(s, k) + [m], MaxMessages);
    forall id
      ensures CountId(ms, id) <= CountId(MessagesAt(s, k), id) + if m.id == id then 1 else 0
    {
      AddedCounts(MessagesAt(s, k), m, id);
    }
  }

  lemma OldCounts(s: State, k: string, id: string)
    requires Inv(s) && id != ""
    ensures CountId(MessagesAt(s, k), id) <= 1
    ensures CountId(MessagesAt(s, k), id) > 0 ==> id in s.seenMsgIds
  {
  }

  /** A list with one more message, whose id was unseen, keeps the conditions of InvReplace. */
  lemma AddedIds(s: State, k: string, m: Msg)
    requires Inv(s) && !Seen(s, m)
    ensures var ms := Last(MessagesAt(s, k) + [m], MaxMessages);
            && (forall id :: id != "" ==> CountId(ms, id) <= 1)
            && (forall id :: id != "" && CountId(ms, id) > 0 ==>
                  id == m.id || CountId(MessagesAt(s, k), id) > 0)
  {
    AddedList(s, k, m);
    forall id | id != ""
      ensures CountId(MessagesAt(s, k), id) <= 1
      ensures CountId(MessagesAt(s, k), id) > 0 ==> id in s.seenMsgIds
    {
      OldCounts(s, k, id);
    }
  }

  lemma InvAdded(s: State, net: string, chan: string, m: Msg)
    requires Inv(s)
    ensures Inv(Added(s, net, chan, m))
  {
    var k := ChanKey(net, chan);
    if !Dropped(s, net, k, m) {
      AddedIds(s, k, m);
      AddedSeen(s, net, chan, m);
    }
  }

  lemma AddedSeen(s: State, net: string, chan: string, m: Msg)
    requires var k := ChanKey(net, chan);
             var ms := Last(MessagesAt(s, k) + [m], MaxMessages);
             && Inv(s) && !Dropped(s, net, k, m)
             && (forall id :: id != "" ==> CountId(ms, id) <= 1)
             && (forall id :: id != "" && CountId(ms, id) > 0 ==>
                   id == m.id || CountId(MessagesAt(s, k), id) > 0)
    ensures Inv(Added(s, net, chan, m))
  {
    var k := ChanKey(net, chan);
    var s2 := Added(s, net, chan, m);
    InvReplace(s, k, Last(MessagesAt(s, k) + [m], MaxMessages), s2.seenMsgIds, s2);
  }

  lemma FilterOneCounts(f: Filtered, m: Msg, id: string)
    requires id != ""
    ensures var g := FilterOne(f, m);
            && f.seen <= g.seen && (m.id != "" ==> m.id in g.seen)
            && CountId(g.added, id) == CountId(f.added, id) + (if g.added != f.added && m.id == id then 1 else 0)
            && (g.added != f.added && m.id == id ==> id !in f.seen)
  {
    CountIdConcat(f.added, [m], id);
    assert [m][..0] == [];
  }

  /** What the filter lets through: each id once and only unseen ones, all of them recorded. */
  lemma {:induction false} FilterIds(f: Filtered, ms: seq<Msg>, id: string)
    requires id != "" && f.added == []
    ensures var g := FilterAll(f, ms);
            && f.seen <= g.seen
            && CountId(g.added, id) <= 1
            && (CountId(g.added, id) > 0 ==> id in g.seen && id !in f.seen)
            && (forall i :: 0 <= i < |ms| && ms[i].id != "" ==> ms[i].id in g.seen)
  {
    if ms != [] {
      var n := |ms| - 1;
      FilterIds(f, ms[..n], id);
      FilterOneCounts(FilterAll(f, ms[..n]), ms[n], id);
    }
  }

  lemma PrependedCounts(s: State, k: string, ms: seq<Msg>, sort: seq<Msg> -> seq<Msg>, id: string)
    requires EngineSort(sort) && id != ""
    ensures var f := FilterFor(s, k, ms);
            CountId(Last(sort(f.added + MessagesAt(s, k)), MaxMessages), id)
            <= CountId(f.added, id) + CountId(MessagesAt(s, k), id)
  {
    var f := FilterFor(s, k, ms);
    var all := f.added + MessagesAt(s, k);
    CountIdLast(sort(all), MaxMessages, id);
    CountIdPermuted(sort(all), all, id);
    CountIdConcat(f.added, MessagesAt(s, k), id);
  }

  lemma InvPrepended(s: State, k: string, ms: seq<Msg>, sort: seq<Msg> -> seq<Msg>)
    requires Inv(s) && EngineSort(sort)
    ensures Inv(Prepended(s, k, ms, sort))
  {
    var f := FilterFor(s, k, ms);
    if f.added != [] {
      var kept := Last(sort(f.added + MessagesAt(s, k)), MaxMessages);
      FilterIds(Filtered([], s.seenMsgIds, Prints(MessagesAt(s, k))), ms, "x");
      forall id | id != ""
        ensures CountId(kept, id) <= 1
        ensures CountId(kept, id) > 0 ==> id in f.seen && (CountId(MessagesAt(s, k), id) > 0 || id !in s.seenMsgIds)
      {
        PrependedCounts(s, k, ms, sort, id);
        FilterIds(Filtered([], s.seenMsgIds, Prints(MessagesAt(s, k))), ms, id);
      }
      InvReplace(s, k, kept, f.seen, Prepended(s, k, ms, sort));
    }
  }

  lemma InvSorted(s: State, net: string, sort: seq<Msg> -> seq<Msg>)
    requires Inv(s) && EngineSort(sort)
    ensures Inv(Reduce(s, SortMsgs(net), sort))
  {
    var s2 := Reduce(s, SortMsgs(net), sort);
    forall k | k in s2.messages
      ensures k in s.messages && |s2.messages[k]| == |s.messages[k]|
      ensures forall id :: CountId(s2.messages[k], id) == CountId(s.messages[k], id)
    {
      if OfNetwork(k, net) {
        var ms := s.messages[k];
        assert multiset(sort(ms)) == multiset(ms);
        assert |multiset(sort(ms))| == |sort(ms)| && |multiset(ms)| == |ms|;
        forall id
          ensures CountId(sort(ms), id) == CountId(ms, id)
        {
          CountIdPermuted(sort(ms), ms, id);
        }
      }
    }
  }

  /** Lists may go, and everything that the invariant does not speak of may change. */
  lemma InvFewer(s: State, s2: State)
    requires Inv(s) && s2.seenMsgIds == s.seenMsgIds
    requires forall k :: k in s2.messages ==> k in s.messages && s2.messages[k] == s.messages[k]
    ensures Inv(s2)
  {
  }

  lemma InvJoined(s: State, k: string, s2: State)
    requires Inv(s) && s2.seenMsgIds == s.seenMsgIds && s2.messages == s.messages[k := MessagesAt(s, k)]
    ensures Inv(s2)
  {
    InvReplace(s, k, MessagesAt(s, k), s.seenMsgIds, s2);
  }

  lemma InvReduce(s: State, a: Action, sort: seq<Msg> -> seq<Msg>)
    requires Inv(s) && EngineSort(sort)
    ensures Inv(Reduce(s, a, sort))
  {
    match a
    case AddMsg(net, chan, m) => InvAdded(s, net, chan, m);
    case PrependMsgs(net, chan, ms) => InvPrepended(s, ChanKey(net, chan), ms, sort);
    case SortMsgs(net) => InvSorted(s, net, sort);
    case ChanJoin(net, chan) => InvJoined(s, ChanKey(net, chan), Reduce(s, a, sort));
    case _ => InvFewer(s, Reduce(s, a, sort));
  }

  /** Over every sequence of actions: at most 1000 messages a list, every id in seenMsgIds and nowhere twice. */
  lemma {:induction false} ReducerInvariant(run: seq<Action>, sort: seq<Msg> -> seq<Msg>)
    requires EngineSort(sort)
    ensures Inv(After(run, sort)) && forall ms :: ms in After(run, sort).messages.Values ==> |ms| <= 1000
  {
    if run != [] {
      ReducerInvariant(run[..|run| - 1], sort);
      InvReduce(After(run[..|run| - 1], sort), run[|run| - 1], sort);
    }
  }

  // ---- PREPEND_MSGS -----------------------------------------------------------------------------------------

  /** Which of the given messages are new: message i is taken when its id is unseen and is no earlier
      message's, and its fingerprint is no existing message's and no earlier taken one's. */
  ghost predicate Taken(seen: set<string>, prints: set<Fingerprint>, ms: seq<Msg>, i: nat)
    requires i < |ms|
    decreases i
  {
    && (ms[i].id != "" ==> ms[i].id !in seen && forall j :: 0 <= j < i ==> ms[j].id != ms[i].id)
    && Print(ms[i]) !in prints
    && forall j :: 0 <= j < i && Taken(seen, prints, ms, j) ==> Print(ms[j]) != Print(ms[i])
  }

  /** The taken messages, in the order given. */
  ghost function TakenOf(seen: set<string>, prints: set<Fingerprint>, ms: seq<Msg>, n: nat): seq<Msg>
    requires n <= |ms|
  {
    if n == 0 then []
    else TakenOf(seen, prints, ms, n - 1) + if Taken(seen, prints, ms, n - 1) then [ms[n - 1]] else []
  }

  /** The filter's state after the first n messages, said without the filter. */
  ghost predicate FilteredTo(f: Filtered, g: Filtered, ms: seq<Msg>, n: nat)
    requires n <= |ms|
  {
    && g.added == TakenOf(f.seen, f.prints, ms, n)
    && (forall id :: id in g.seen <==> (id in f.seen || IdAmong(ms, n, id)))
    && (forall p :: p in g.prints <==> (p in f.prints || PrintTaken(f, ms, n, p)))
  }

  predicate IdAmong(ms: seq<Msg>, n: nat, id: string)
    requires n <= |ms|
  {
    id != "" && exists i :: 0 <= i < n && ms[i].id == id
  }

  ghost predicate PrintTaken(f: Filtered, ms: seq<Msg>, n: nat, p: Fingerprint)
    requires n <= |ms|
  {
    exists i :: 0 <= i < n && Taken(f.seen, f.prints, ms, i) && Print(ms[i]) == p
  }

  lemma TakenMeans(f: Filtered, g: Filtered, ms: seq<Msg>, n: nat)
    requires n < |ms| && FilteredTo(f, g, ms, n)
    ensures Taken(f.seen, f.prints, ms, n) <==> (ms[n].id == "" || ms[n].id !in g.seen) && Print(ms[n]) !in g.prints
  {
    assert ms[n].id in g.seen <==> (ms[n].id in f.seen || IdAmong(ms, n, ms[n].id));
    assert Print(ms[n]) in g.prints <==> (Print(ms[n]) in f.prints || PrintTaken(f, ms, n, Print(ms[n])));
  }

  lemma IdsStep(ms: seq<Msg>, n: nat, id: string)
    requires n < |ms|
    ensures IdAmong(ms, n + 1, id) <==> IdAmong(ms, n, id) || (id != "" && ms[n].id == id)
  {
  }

  lemma PrintsStep(f: Filtered, ms: seq<Msg>, n: nat, p: Fingerprint)
    requires n < |ms|
    ensures PrintTaken(f, ms, n + 1, p) <==>
            PrintTaken(f, ms, n, p) || (Taken(f.seen, f.prints, ms, n) && Print(ms[n]) == p)
  {
  }

  lemma FilteredStep(f: Filtered, g: Filtered, ms: seq<Msg>, n: nat)
    requires n < |ms| && FilteredTo(f, g, ms, n)
    ensures FilteredTo(f, FilterOne(g, ms[n]), ms, n + 1)
  {
    TakenMeans(f, g, ms, n);
    forall id { IdsStep(ms, n, id); }
    forall p { PrintsStep(f, ms, n, p); }
  }

  lemma {:induction false} FilterTakes(f: Filtered, ms: seq<Msg>, n: nat)
    requires f.added == [] && n <= |ms|
    ensures FilteredTo(f, FilterAll(f, ms[..n]), ms, n)
  {
    if n > 0 {
      FilterTakes(f, ms, n - 1);
      assert ms[..n][..n - 1] == ms[..n - 1];
      FilteredStep(f, FilterAll(f, ms[..n - 1]), ms, n - 1);
    }
  }

  /** The messages of a PREPEND_MSGS that are new to channel `k`. */
  ghost function News(s: State, k: string, ms: seq<Msg>): seq<Msg> {
    TakenOf(s.seenMsgIds, Prints(MessagesAt(s, k)), ms, |ms|)
  }

  function IdsOf(ms: seq<Msg>): set<string> {
    set i | 0 <= i < |ms| && ms[i].id != "" :: ms[i].id
  }

  lemma MergedList(s: State, k: string, ms: seq<Msg>, sort: seq<Msg> -> seq<Msg>)
    requires EngineSort(sort) && AllTimed(ms) && AllTimed(MessagesAt(s, k))
    ensures sort(News(s, k, ms) + MessagesAt(s, k)) == InTimeOrder(News(s, k, ms) + MessagesAt(s, k))
  {
    TakenTimed(s.seenMsgIds, Prints(MessagesAt(s, k)), ms, |ms|);
    EngineSortIsReference(sort, News(s, k, ms) + MessagesAt(s, k));
  }

  /** PREPEND_MSGS with valid times: when some message is new, the list becomes the newest 1000 of the
      stable time order of the new ones followed by the existing ones, every id given is recorded, and
      nothing else changes; when none is new, nothing changes at all. */
  lemma PrependIsSortedMerge(s: State, k: string, ms: seq<Msg>, sort: seq<Msg> -> seq<Msg>)
    requires EngineSort(sort) && AllTimed(ms) && AllTimed(MessagesAt(s, k))
    ensures Prepended(s, k, ms, sort)
         == if News(s, k, ms) == [] then s
            else s.(messages := s.messages[k := Last(InTimeOrder(News(s, k, ms) + MessagesAt(s, k)), 1000)],
                    seenMsgIds := s.seenMsgIds + IdsOf(ms))
  {
    FilterForTakes(s, k, ms);
    MergedList(s, k, ms, sort);
  }

  lemma FilterForTakes(s: State, k: string, ms: seq<Msg>)
    ensures FilterFor(s, k, ms).added == News(s, k, ms)
    ensures FilterFor(s, k, ms).seen == s.seenMsgIds + IdsOf(ms)
  {
    var f := Filtered([], s.seenMsgIds, Prints(MessagesAt(s, k)));
    FilterTakes(f, ms, |ms|);
    assert ms[..|ms|] == ms;
    assert forall id :: IdAmong(ms, |ms|, id) <==> id in IdsOf(ms);
  }

  lemma {:induction false} TakenTimed(seen: set<string>, prints: set<Fingerprint>, ms: seq<Msg>, n: nat)
    requires n <= |ms| && AllTimed(ms)
    ensures AllTimed(TakenOf(seen, prints, ms, n))
  {
    if n > 0 {
      TakenTimed(seen, prints, ms, n - 1);
    }
  }

  /** The kept tail of a stable order is the newest part: nothing cut off is later than anything kept. */
  lemma NewestKept(xs: seq<Msg>, k: nat)
    ensures var ys := InTimeOrder(xs);
            forall i, j :: 0 <= i < |ys| - |Last(ys, k)| && 0 <= j < |Last(ys, k)| ==>
                             When(ys[i]) <= When(Last(ys, k)[j])
  {
    InTimeOrderIsStable(xs);
  }

  lemma {:induction false} AllSeenFiltersNothing(f: Filtered, ms: seq<Msg>)
    requires forall i :: 0 <= i < |ms| ==> ms[i].id != "" && ms[i].id in f.seen
    ensures FilterAll(f, ms) == f
  {
    if ms != [] {
      AllSeenFiltersNothing(f, ms[..|ms| - 1]);
    }
  }

  /** Repeating a PREPEND_MSGS of messages that all carry ids changes nothing. */
  lemma PrependIdempotent(s: State, net: string, chan: string, ms: seq<Msg>, sort: seq<Msg> -> seq<Msg>)
    requires forall i :: 0 <= i < |ms| ==> ms[i].id != ""
    ensures var a := PrependMsgs(net, chan, ms);
            Reduce(Reduce(s, a, sort), a, sort) == Reduce(s, a, sort)
  {
    var k := ChanKey(net, chan);
    var s2 := Reduce(s, PrependMsgs(net, chan, ms), sort);
    if s2 != s {
      FilterIds(Filtered([], s.seenMsgIds, Prints(MessagesAt(s, k))), ms, "x");
      AllSeenFiltersNothing(Filtered([], s2.seenMsgIds, Prints(MessagesAt(s2, k))), ms);
    }
  }

  // ---- Unread counts ----------------------------------------------------------------------------------------

  /** An unread count only ever rises by one, and exactly when a message is accepted by ADD_MSG into a
      channel that is not the active one, outside a replay. */
  lemma UnreadRises(s: State, a: Action, sort: seq<Msg> -> seq<Msg>, k: string)
    ensures var s2 := Reduce(s, a, sort);
            && UnreadAt(s2, k) <= UnreadAt(s, k) + 1
            && (UnreadAt(s2, k) == UnreadAt(s, k) + 1 <==>
                  a.AddMsg? && k == ChanKey(a.net, a.chan) && !Dropped(s, a.net, k, a.msg)
                  && a.net !in s.replaying && !IsActive(s, a.net, a.chan))
  {
  }
}
