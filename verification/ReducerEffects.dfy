/** What each action of the message reducer does to the state, and what it leaves alone. */
module ReducerEffects {
  import opened Options
  import opened GoStrings
  import opened Ring
  import opened StableSort
  import opened Reducer

  // ---- ADD_MSG ----------------------------------------------------------------------------------------------

  predicate InMinute(t: int, q: int) {
    60_000 * q <= t < 60_000 * (q + 1)
  }

  /** The same minute of the same hour, or no time at all. */
  ghost predicate SameMinute(a: Option<int>, b: Option<int>) {
    && (a.Some? <==> b.Some?)
    && (a.Some? ==> exists q :: InMinute(a.value, q) && InMinute(b.value, q))
  }

  /** The same characters up to the fortieth. */
  predicate SameStart(a: string, b: string) {
    && (|a| == |b| || (|a| >= 40 && |b| >= 40))
    && forall i :: 0 <= i < 40 && i < |a| && i < |b| ==> a[i] == b[i]
  }

  ghost predicate Alike(a: Msg, b: Msg) {
    a.nick == b.nick && SameMinute(a.time, b.time) && SameStart(a.text, b.text)
  }

  lemma MinuteOf(t: int, q: int)
    ensures InMinute(t, q) <==> q == t / 60_000
  {
  }

  lemma MinutesAgree(a: Option<int>, b: Option<int>)
    ensures SameMinute(a, b) <==>
            (if a.Some? then Some(a.value / 60_000) else None) == (if b.Some? then Some(b.value / 60_000) else None)
  {
    if a.Some? && b.Some? {
      MinuteOf(a.value, a.value / 60_000);
      forall q
        ensures InMinute(a.value, q) <==> q == a.value / 60_000
        ensures InMinute(b.value, q) <==> q == b.value / 60_000
      {
        MinuteOf(a.value, q);
        MinuteOf(b.value, q);
      }
    }
  }

  lemma StartsAgree(a: string, b: string)
    ensures SameStart(a, b) <==> (if |a| <= 40 then a else a[..40]) == (if |b| <= 40 then b else b[..40])
  {
    var x, y := if |a| <= 40 then a else a[..40], if |b| <= 40 then b else b[..40];
    if x == y {
      assert forall i :: 0 <= i < 40 && i < |a| && i < |b| ==> a[i] == x[i] && b[i] == y[i];
    }
    if SameStart(a, b) {
      assert |x| == |y| && forall i :: 0 <= i < |x| ==> x[i] == a[i] && y[i] == b[i];
    }
  }

  /** Two messages have one fingerprint exactly when they are alike. */
  lemma PrintsAgree(a: Msg, b: Msg)
    ensures Print(a) == Print(b) <==> Alike(a, b)
  {
    MinutesAgree(a.time, b.time);
    StartsAgree(a.text, b.text);
  }

  /** A message is dropped exactly when its id was seen or it is like one of the last 30 messages of its
      channel, or of all of them during a replay. */
  lemma DroppedExactly(s: State, net: string, k: string, m: Msg)
    ensures var had := MessagesAt(s, k);
            Dropped(s, net, k, m) <==>
            || (m.id != "" && m.id in s.seenMsgIds)
            || (exists i :: 0 <= i < |had| && (net in s.replaying || i >= |had| - 30) && Alike(had[i], m))
  {
    var had := MessagesAt(s, k);
    if net in s.replaying {
      PrintedAmong(had, m);
    } else {
      PrintedAmong(Last(had, RecentWindow), m);
      AlikeInLast(had, m);
    }
  }

  lemma PrintedAmong(ms: seq<Msg>, m: Msg)
    ensures Print(m) in Prints(ms) <==> exists i :: 0 <= i < |ms| && Alike(ms[i], m)
  {
    forall i | 0 <= i < |ms|
      ensures Alike(ms[i], m) <==> Print(ms[i]) == Print(m)
    {
      PrintsAgree(ms[i], m);
    }
  }

  lemma AlikeInLast(had: seq<Msg>, m: Msg)
    ensures var window := Last(had, RecentWindow);
            (exists j :: 0 <= j < |window| && Alike(window[j], m))
            <==> exists i :: 0 <= i < |had| && i >= |had| - 30 && Alike(had[i], m)
  {
    var window := Last(had, RecentWindow);
    var first := |had| - |window|;
    if j :| 0 <= j < |window| && Alike(window[j], m) {
      assert Alike(had[first + j], m);
    }
    if i :| 0 <= i < |had| && i >= |had| - 30 && Alike(had[i], m) {
      assert window[i - first] == had[i];
    }
  }

  /** ADD_MSG, when it does not drop the message: the channel's list ends in it, and before it stand the last
      999 messages there were, in order; its id is recorded; the unread count goes up by one, or to nought
      in the active channel, or stays during a replay. Everything else stays, and so does all of the state
      when the message is dropped. */
  lemma AddMsgEffect(s: State, net: string, chan: string, m: Msg, sort: seq<Msg> -> seq<Msg>)
    ensures var k, s2 := net + "::" + chan, Reduce(s, AddMsg(net, chan, m), sort);
            && (Dropped(s, net, k, m) ==> s2 == s)
            && (!Dropped(s, net, k, m) ==>
                  && MessageAdded(s, s2, k, m) && Counted(s, s2, net, chan, k)
                  && s2 == s.(messages := s2.messages, seenMsgIds := s2.seenMsgIds, unread := s2.unread))
  {
    var k := ChanKey(net, chan);
    if !Dropped(s, net, k, m) {
      AddedMessage(s, net, chan, k, m);
      AddedCount(s, net, chan, k, m);
    }
  }

  predicate MessageAdded(s: State, s2: State, k: string, m: Msg) {
    && k in s2.messages && Appended(MessagesAt(s, k), m, s2.messages[k])
    && s2.messages - {k} == s.messages - {k}
    && s2.seenMsgIds == s.seenMsgIds + (if m.id == "" then {} else {m.id})
  }

  predicate Counted(s: State, s2: State, net: string, chan: string, k: string) {
    && s2.unread - {k} == s.unread - {k}
    && UnreadAt(s2, k) == (if net in s.replaying then UnreadAt(s, k)
                           else if IsActive(s, net, chan) then 0 else UnreadAt(s, k) + 1)
  }

  lemma AddedMessage(s: State, net: string, chan: string, k: string, m: Msg)
    requires k == ChanKey(net, chan) && !Dropped(s, net, k, m)
    ensures MessageAdded(s, Added(s, net, chan, m), k, m)
  {
    LastAppended(MessagesAt(s, k), m);
    assert Added(s, net, chan, m).messages - {k} == s.messages - {k};
  }

  lemma AddedCount(s: State, net: string, chan: string, k: string, m: Msg)
    requires k == ChanKey(net, chan) && !Dropped(s, net, k, m)
    ensures Counted(s, Added(s, net, chan, m), net, chan, k)
  {
    assert Added(s, net, chan, m).unread - {k} == s.unread - {k};
  }

  predicate Appended(had: seq<Msg>, m: Msg, list: seq<Msg>) {
    var kept := if |had| < 999 then |had| else 999;
    && |list| == kept + 1 && list[kept] == m
    && forall i :: 0 <= i < kept ==> list[i] == had[|had| - kept + i]
  }

  lemma LastAppended(had: seq<Msg>, m: Msg)
    ensures Appended(had, m, Last(had + [m], MaxMessages))
  {
  }

  // ---- The other actions --------------------------------------------------------------------------------------

  /** The only actions that change the messages of a channel, and those that record ids. */
  lemma HistoryKept(s: State, a: Action, sort: seq<Msg> -> seq<Msg>, k: string)
    ensures var s2 := Reduce(s, a, sort);
            && (MessagesAt(s2, k) != MessagesAt(s, k) ==>
                  || (a.AddMsg? && k == ChanKey(a.net, a.chan))
                  || (a.PrependMsgs? && k == ChanKey(a.net, a.chan))
                  || (a.SortMsgs? && OfNetwork(k, a.net))
                  || (a.NetRemove? && OfNetwork(k, a.net))
                  || (a.ChanPartRemove? && k == ChanKey(a.net, a.chan)))
            && (s2.seenMsgIds != s.seenMsgIds ==> a.AddMsg? || a.PrependMsgs?)
  {
  }

  /** SORT_MSGS sorts every list of its network and no other. */
  lemma SortedLists(s: State, net: string, sort: seq<Msg> -> seq<Msg>, k: string)
    requires EngineSort(sort) && AllTimed(MessagesAt(s, k)) && k in s.messages
    ensures var s2 := Reduce(s, SortMsgs(net), sort);
            MessagesAt(s2, k) == if net + "::" <= k then InTimeOrder(s.messages[k]) else s.messages[k]
  {
    if net + "::" <= k {
      EngineSortIsReference(sort, s.messages[k]);
    }
  }

  /** Removing a network forgets all its channels and those only, and the next network becomes active if
      it was. */
  lemma NetworkForgotten(s: State, net: string, sort: seq<Msg> -> seq<Msg>)
    ensures var s2 := Reduce(s, NetRemove(net), sort);
            && (forall k :: k in s2.messages <==> k in s.messages && !(net + "::" <= k))
            && (forall k :: k in s2.channels <==> k in s.channels && !(net + "::" <= k))
            && (forall k :: k in s2.unread <==> k in s.unread && !(net + "::" <= k))
            && (forall k :: k in s2.messages ==> s2.messages[k] == s.messages[k])
            && (forall k :: k in s2.channels ==> s2.channels[k] == s.channels[k])
            && (forall k :: k in s2.unread ==> s2.unread[k] == s.unread[k])
            && net !in s2.networkOrder && net !in s2.activeChan && s2.activeNet != Some(net)
            && (s.activeNet != Some(net) ==> s2.activeNet == s.activeNet)
            && (s.activeNet == Some(net) && s2.networkOrder != [] ==> s2.activeNet == Some(s2.networkOrder[0]))
  {
    NoneLeft(s.networkOrder, net);
  }

  lemma {:induction false} NoneLeft(order: seq<string>, net: string)
    ensures net !in RemoveAll(order, net)
    ensures net !in order ==> RemoveAll(order, net) == order
  {
    if order != [] {
      NoneLeft(order[..|order| - 1], net);
    }
  }

  /** A network added is listed last, unless it is listed; the order given by NET_REORDER is taken over. */
  lemma NetworkListed(s: State, net: string, order: seq<string>, sort: seq<Msg> -> seq<Msg>)
    ensures var s2 := Reduce(s, NetAdd(net), sort);
            && net in s2.networkOrder && s.networkOrder <= s2.networkOrder
            && |s2.networkOrder| == |s.networkOrder| + (if net in s.networkOrder then 0 else 1)
    ensures Reduce(s, NetReorder(order), sort) == s.(networkOrder := order)
  {
  }

  /** The other networks keep their order. */
  lemma {:induction false} OrderKept(a: seq<string>, b: seq<string>, net: string)
    ensures RemoveAll(a + b, net) == RemoveAll(a, net) + RemoveAll(b, net)
  {
    if b == [] {
      assert a + b == a;
    } else {
      var n := |b| - 1;
      assert (a + b)[..|a + b| - 1] == a + b[..n];
      OrderKept(a, b[..n], net);
    }
  }

  /** Keys of different networks never meet when their ids hold no colon. */
  lemma KeysApart(net: string, other: string, chan: string)
    requires ':' !in net && ':' !in other
    ensures OfNetwork(ChanKey(net, chan), other) <==> net == other
  {
    var k := ChanKey(net, chan);
    assert k == net + [':'] + (":" + chan);
    CutAfter(net, ':', ":" + chan);
    if OfNetwork(k, other) {
      var rest := k[|other| + 1..];
      assert k == other + [':'] + rest;
      CutAfter(other, ':', rest);
    }
    if net == other {
      assert other + "::" == k[..|other| + 2];
    }
  }

  /** Nothing but the one channel, and what its network shows, has changed. */
  predicate OnlyChannel(s: State, s2: State, net: string, chan: string) {
    var k := net + "::" + chan;
    && s2.channels - {k} == s.channels - {k} && s2.messages - {k} == s.messages - {k}
    && s2.unread - {k} == s.unread - {k} && s2.activeChan - {net} == s.activeChan - {net}
    && s2.seenMsgIds == s.seenMsgIds && s2.replaying == s.replaying && s2.networkOrder == s.networkOrder
  }

  /** Joining lists the channel and keeps what it holds; the first one joined is shown. */
  lemma JoinEffect(s: State, net: string, chan: string, sort: seq<Msg> -> seq<Msg>)
    ensures var k, s2 := net + "::" + chan, Reduce(s, ChanJoin(net, chan), sort);
            && OnlyChannel(s, s2, net, chan)
            && k in s2.channels && !s2.channels[k] && k in s2.messages && k in s2.unread
            && MessagesAt(s2, k) == MessagesAt(s, k) && UnreadAt(s2, k) == UnreadAt(s, k)
            && (net !in s.activeChan && s.activeNet == None ==> IsActive(s2, net, chan))
  {
  }

  /** Leaving keeps the messages, marks the channel as left and clears its count. */
  lemma PartEffect(s: State, net: string, chan: string, next: Option<string>, sort: seq<Msg> -> seq<Msg>)
    ensures var k, s2 := net + "::" + chan, Reduce(s, ChanPart(net, chan, next), sort);
            && OnlyChannel(s, s2, net, chan)
            && k in s2.channels && s2.channels[k] && s2.messages == s.messages && UnreadAt(s2, k) == 0
  {
  }

  /** Coming back takes the mark off a channel that is listed, and does nothing to one that is not. */
  lemma RejoinEffect(s: State, net: string, chan: string, sort: seq<Msg> -> seq<Msg>)
    ensures var k, s2 := net + "::" + chan, Reduce(s, ChanRejoin(net, chan), sort);
            && OnlyChannel(s, s2, net, chan) && s2.messages == s.messages && s2.unread == s.unread
            && (k in s2.channels <==> k in s.channels) && (k in s2.channels ==> !s2.channels[k])
  {
  }

  /** Closing forgets the channel and its messages, though not the ids seen. */
  lemma CloseEffect(s: State, net: string, chan: string, next: Option<string>, sort: seq<Msg> -> seq<Msg>)
    ensures var k, s2 := net + "::" + chan, Reduce(s, ChanPartRemove(net, chan, next), sort);
            && OnlyChannel(s, s2, net, chan)
            && k !in s2.channels && k !in s2.messages && k !in s2.unread
  {
  }

  /** A network is replaying from its REPLAY_START to its next REPLAY_DONE. */
  lemma {:induction false} ReplayingWhen(run: seq<Action>, sort: seq<Msg> -> seq<Msg>, net: string)
    ensures net in After(run, sort).replaying <==> ReplayOpen(run, net)
  {
    if run != [] {
      ReplayingWhen(run[..|run| - 1], sort, net);
    }
  }

  /** The latest of the two is a start. */
  predicate ReplayOpen(run: seq<Action>, net: string) {
    if run == [] then false
    else if run[|run| - 1] == ReplayStart(net) then true
    else if run[|run| - 1] == ReplayDone(net) then false
    else ReplayOpen(run[..|run| - 1], net)
  }

  /** The channel shown is the one last selected, and reading it clears its count. */
  lemma Selected(s: State, net: string, chan: string, sort: seq<Msg> -> seq<Msg>)
    ensures var s1 := Reduce(s, SetActiveNet(Some(net)), sort);
            var s2 := Reduce(s1, SetActiveChan(net, chan), sort);
            var s3 := Reduce(s2, ClearUnread(net, chan), sort);
            && IsActive(s2, net, chan) && s2.messages == s.messages && s2.unread == s.unread
            && UnreadAt(s3, ChanKey(net, chan)) == 0
            && forall k :: k != ChanKey(net, chan) ==> UnreadAt(s3, k) == UnreadAt(s, k)
  {
  }
}
