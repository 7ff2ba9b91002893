/** The buffers and subscribers of one bouncer connection, as the object whose critical sections
    the Handoff module interleaves. */
module BouncerBuffers {
  import opened Ring
  import opened Handoff

  /** The replays of the channels in `order`, one after the other. */
  function Flat(order: seq<string>, replays: map<string, seq<Line>>): seq<Line> {
    if order == [] then []
    else Flat(order[..|order| - 1], replays) + BufOf(replays, order[|order| - 1])
  }

  /** `order` lists the channels of a snapshot, each once. */
  predicate Lists(order: seq<string>, chans: set<string>) {
    multiset(order) == multiset(chans)
  }

  lemma PushedIs(bufs: map<string, seq<Line>>, line: Line)
    ensures var key := Key(line);
            var made := if key in bufs then bufs else bufs[key := []];
            Pushed(bufs, line) == made[key := Last(made[key] + [line], BufferSize)]
  {
  }

  lemma FlatMore(order: seq<string>, replays: map<string, seq<Line>>, c: string)
    ensures Flat(order + [c], replays) == Flat(order, replays) + BufOf(replays, c)
  {
    assert (order + [c])[..|order|] == order;
  }

  lemma ListsMore(order: seq<string>, all: set<string>, left: set<string>, c: string)
    requires Lists(order, all - left) && left <= all && c in left
    ensures Lists(order + [c], all - (left - {c}))
  {
    assert all - (left - {c}) == (all - left) + {c};
    assert multiset((all - left) + {c}) == multiset(all - left) + multiset{c};
  }

  lemma ListsNone(all: set<string>)
    ensures Lists([], all - all)
  {
    assert all - all == {};
  }

  lemma ListsAll(order: seq<string>, all: set<string>)
    requires Lists(order, all - {})
    ensures Lists(order, all)
  {
    assert all - {} == all;
  }

  /** `replay` holds the replays of the channels in `order`, which are the channels `done`. */
  predicate Collected(replays: map<string, seq<Line>>, replay: seq<Line>, order: seq<string>, done: set<string>) {
    Lists(order, done) && replay == Flat(order, replays)
  }

  lemma NoneCollected(replays: map<string, seq<Line>>)
    ensures Collected(replays, [], [], replays.Keys - replays.Keys)
  {
    ListsNone(replays.Keys);
  }

  lemma CollectedMore(replays: map<string, seq<Line>>, replay: seq<Line>, order: seq<string>,
                      left: set<string>, c: string)
    requires left <= replays.Keys && c in left && Collected(replays, replay, order, replays.Keys - left)
    ensures Collected(replays, replay + BufOf(replays, c), order + [c], replays.Keys - (left - {c}))
  {
    ListsMore(order, replays.Keys, left, c);
    FlatMore(order, replays, c);
  }

  lemma AllCollected(replays: map<string, seq<Line>>, replay: seq<Line>, order: seq<string>)
    requires Collected(replays, replay, order, replays.Keys - {})
    ensures Lists(order, replays.Keys) && replay == Flat(order, replays)
  {
    ListsAll(order, replays.Keys);
  }

  /** The attachments of the sessions in `ids`. */
  predicate AttachedAs(targets: seq<nat>, ids: seq<string>, subs: map<string, nat>) {
    |targets| == |ids| && forall i :: 0 <= i < |ids| ==> ids[i] in subs && targets[i] == subs[ids[i]]
  }

  lemma ListedOnce(order: seq<string>, chans: set<string>)
    requires Lists(order, chans)
    ensures forall i, j :: 0 <= i < j < |order| ==> order[i] != order[j]
    ensures forall c :: c in order <==> c in chans
  {
    forall i, j | 0 <= i < j < |order|
      ensures order[i] != order[j]
    {
      assert order == order[..i] + [order[i]] + order[i + 1..j] + [order[j]] + order[j + 1..];
      assert multiset(order)[order[i]] <= 1;
    }
    forall c
      ensures c in order <==> c in chans
    {
      assert c in order <==> c in multiset(order);
    }
  }

  class Conn {
    var buffers: map<string, RingBuffer<Line>>
    /** Active sessions, by id; the number tells apart two attachments of the same id. */
    var subs: map<string, nat>
    ghost var Repr: set<object>
    /** Which key a ring buffer and its array serve, so that no two keys share one. */
    ghost var keyOf: map<object, string>
    /** What every buffer holds. */
    ghost var bufs: map<string, seq<Line>>

    ghost predicate Owned(c: string)
      reads this, Repr
      requires c in buffers
    {
      var ring := buffers[c];
      && ring in Repr && ring.buf in Repr
      && ring in keyOf && ring.buf in keyOf && keyOf[ring] == c && keyOf[ring.buf] == c
      && ring.Valid() && ring.cap == BufferSize
      && c in bufs && ring.Contents() == bufs[c]
    }

    ghost predicate Valid()
      reads this, Repr
    {
      && this in Repr
      && buffers.Keys == bufs.Keys
      && forall c :: c in buffers ==> Owned(c)
    }

    constructor ()
      ensures Valid() && fresh(Repr) && bufs == Init.bufs && subs == Init.subs
    {
      buffers := map[];
      subs := map[];
      keyOf := map[];
      bufs := map[];
      Repr := {this};
    }

    /** Under the lock, a line is pushed on the buffer of its key, which is made if it is missing. */
    method Buffer(line: Line)
      requires Valid()
      modifies Repr
      ensures Valid() && fresh(Repr - old(Repr))
      ensures bufs == Pushed(old(bufs), line) && subs == old(subs)
    {
      var key := Key(line);
      PushedIs(bufs, line);
      if key !in buffers {
        MakeBuffer(key);
        PushOn(key, line);
      } else {
        PushOn(key, line);
      }
    }

    /** 001 replaces the server buffer by an empty one. */
    method ResetServerBuffer()
      requires Valid()
      modifies this
      ensures Valid() && fresh(Repr - old(Repr))
      ensures bufs == old(bufs)[ServerKey := []] && subs == old(subs)
    {
      MakeBuffer(ServerKey);
    }

    method MakeBuffer(key: string)
      requires Valid()
      modifies this
      ensures Valid() && fresh(Repr - old(Repr)) && old(Repr) <= Repr
      ensures bufs == old(bufs)[key := []] && subs == old(subs)
    {
      var made := new RingBuffer<Line>(BufferSize);
      buffers := buffers[key := made];
      bufs := bufs[key := []];
      Repr := Repr + {made, made.buf};
      keyOf := keyOf[made := key][made.buf := key];
      forall c | c in buffers
        ensures Owned(c)
      {
        assert c != key ==> old(Owned(c));
      }
    }

    method PushOn(key: string, line: Line)
      requires Valid() && key in buffers
      modifies Repr
      ensures Valid() && Repr == old(Repr)
      ensures bufs == old(bufs)[key := Last(old(bufs)[key] + [line], BufferSize)] && subs == old(subs)
    {
      var target := buffers[key];
      assert Owned(key);
      bufs := bufs[key := Last(bufs[key] + [line], BufferSize)];
      target.Push(line);
      forall c | c in buffers
        ensures Owned(c)
      {
        assert old(Owned(c));
      }
    }

    /** The sessions a line is sent to: everyone attached at the snapshot, each once. */
    method FanOut(line: Line) returns (targets: seq<nat>)
      requires Valid()
      ensures exists ids :: Lists(ids, subs.Keys) && AttachedAs(targets, ids, subs)
    {
      targets := [];
      ghost var ids := [];
      var left := subs.Keys;
      while left != {}
        invariant left <= subs.Keys && Lists(ids, subs.Keys - left) && AttachedAs(targets, ids, subs)
        decreases left
      {
        var id :| id in left;
        ListsMore(ids, subs.Keys, left, id);
        targets := targets + [subs[id]];
        ids := ids + [id];
        left := left - {id};
      }
      ListsAll(ids, subs.Keys);
    }

    /** Phase 1 of Subscribe: attach, then collect the server lines and the replay of every channel. */
    method Subscribe(id: string, number: nat) returns (replay: seq<Line>)
      requires Valid()
      modifies this`subs
      ensures Valid()
      ensures subs == old(subs)[id := number]
      ensures exists order :: Lists(order, Snapshot(bufs).Keys)
                           && replay == BufOf(bufs, ServerKey) + Flat(order, Snapshot(bufs))
    {
      subs := subs[id := number];
      StillOwned();
      var server := ServerReplay();
      var channels := ChannelReplay();
      replay := server + channels;
    }

    /** Changing `subs` leaves the buffers as they were. */
    twostate lemma StillOwned()
      requires old(Valid()) && unchanged(this`buffers, this`Repr, this`keyOf, this`bufs)
      requires forall o :: o in Repr && o != this ==> unchanged(o)
      ensures Valid()
    {
      forall c | c in buffers
        ensures Owned(c)
      {
        assert old(Owned(c));
      }
    }

    method ServerReplay() returns (replay: seq<Line>)
      requires Valid()
      ensures replay == BufOf(bufs, ServerKey)
    {
      replay := [];
      if ServerKey in buffers {
        assert Owned(ServerKey);
        replay := buffers[ServerKey].Lines();
      }
    }

    method ReplayOfBuffer(c: string) returns (kept: seq<Line>)
      requires Valid() && c in buffers && c != ServerKey
      ensures kept == BufOf(Snapshot(bufs), c)
    {
      assert Owned(c);
      var lines := buffers[c].Lines();
      kept := ReplayLines(lines);
    }

    method ChannelReplay() returns (replay: seq<Line>)
      requires Valid()
      ensures exists order :: Lists(order, Snapshot(bufs).Keys) && replay == Flat(order, Snapshot(bufs))
    {
      var left := buffers.Keys - {ServerKey};
      ghost var snap := Snapshot(bufs);
      assert snap.Keys == left;
      replay := [];
      ghost var order := [];
      NoneCollected(snap);
      while left != {}
        invariant left <= buffers.Keys - {ServerKey}
        invariant left <= snap.Keys && Collected(snap, replay, order, snap.Keys - left)
        decreases left
      {
        var c :| c in left;
        var kept := ReplayOfBuffer(c);
        CollectedMore(snap, replay, order, left, c);
        replay := replay + kept;
        order := order + [c];
        left := left - {c};
      }
      AllCollected(snap, replay, order);
    }

    method Unsubscribe(id: string)
      requires Valid()
      modifies this`subs
      ensures Valid() && subs == old(subs) - {id}
    {
      subs := subs - {id};
    }
  }

  /** The two passes over one channel's buffer: is there any readable time, and if so, which lines
      are replayed. Without any readable time the buffer is skipped. */
  method ReplayLines(lines: seq<Line>) returns (kept: seq<Line>)
    ensures kept == Filter(lines)
    ensures exists at :: Selects(at, lines, kept)
  {
    FilterSelects(lines);
    var cutoffFound := false;
    var i := 0;
    while i < |lines| && !cutoffFound
      invariant 0 <= i <= |lines|
      invariant !cutoffFound ==> forall j :: 0 <= j < i ==> !lines[j].timed
    {
      cutoffFound := lines[i].timed;
      i := i + 1;
    }
    kept := [];
    if cutoffFound {
      for k := 0 to |lines|
        invariant kept == Filter(lines[..k])
      {
        assert lines[..k + 1][..k] == lines[..k];
        if lines[k].timed && !lines[k].membership {
          kept := kept + [lines[k]];
        }
      }
      assert lines[..|lines|] == lines;
    } else {
      NothingTimed(lines);
    }
  }

  lemma {:induction false} NothingTimed(lines: seq<Line>)
    requires forall j :: 0 <= j < |lines| ==> !lines[j].timed
    ensures Filter(lines) == []
  {
    if lines != [] {
      NothingTimed(lines[..|lines| - 1]);
    }
  }

  // ---- What a subscriber is sent is what the hand-off counts ----------------------------------------

  predicate Keyed(bufs: map<string, seq<Line>>) {
    forall c, i :: c in bufs && 0 <= i < |bufs[c]| ==> Key(bufs[c][i]) == c
  }

  lemma {:induction false} BufsKeyed(run: seq<Event>)
    ensures Keyed(After(run).bufs)
  {
    if run != [] {
      BufsKeyed(run[..|run| - 1]);
    }
  }

  lemma {:induction false} FilterSubset(lines: seq<Line>, line: Line)
    ensures line in Filter(lines) ==> line in lines
  {
    if lines != [] {
      FilterSubset(lines[..|lines| - 1], line);
    }
  }

  lemma {:induction false} FlatTimes(order: seq<string>, replays: map<string, seq<Line>>, line: Line)
    requires forall i, j :: 0 <= i < j < |order| ==> order[i] != order[j]
    requires forall c :: c in replays && c != Key(line) ==> line !in replays[c]
    ensures Times(Flat(order, replays), line)
         == if Key(line) in order then Times(BufOf(replays, Key(line)), line) else 0
  {
    if order != [] {
      var n := |order| - 1;
      FlatTimes(order[..n], replays, line);
      TimesConcat(Flat(order[..n], replays), BufOf(replays, order[n]), line);
      assert order == order[..n] + [order[n]];
    }
  }

  /** In whatever order Subscribe ranges over the channels, it sends a channel line exactly as often as
      the channel's replay snapshot holds it. */
  lemma SentAsOftenAsSnapshot(run: seq<Event>, t: nat, order: seq<string>, line: Line)
    requires t < |run| && run[t].Subscribe? && Key(line) != ServerKey
    requires var bufs := After(run[..t]).bufs; Lists(order, Snapshot(bufs).Keys)
    ensures var bufs := After(run[..t]).bufs;
            Times(BufOf(bufs, ServerKey) + Flat(order, Snapshot(bufs)), line)
            == Times(ReplayOf(run, t, Key(line)), line)
  {
    var bufs := After(run[..t]).bufs;
    var snap := Snapshot(bufs);
    BufsKeyed(run[..t]);
    ReplayFixed(run, t);
    forall c | c in snap && c != Key(line)
      ensures line !in snap[c]
    {
      FilterSubset(bufs[c], line);
    }
    ListedOnce(order, snap.Keys);
    FlatTimes(order, snap, line);
    assert line !in BufOf(bufs, ServerKey);
    TimesConcat(BufOf(bufs, ServerKey), Flat(order, snap), line);
  }
}
