/** A browser session's bounded send queue and the pump that batches it into WebSocket frames. */
module SendQueue {

  const SendBufSize: nat := 8192
  const MaxBatch: nat := 63

  /** The queue and the writer as an object, with no producer running during a frame. */
  class Session {
    var sendCh: seq<string>
    var frames: seq<seq<string>>

    constructor ()
      ensures sendCh == [] && frames == []
    {
      sendCh, frames := [], [];
    }

    /** sendFn: never waits; a line that finds the queue full is dropped. */
    method SendFn(line: string) returns (accepted: bool)
      modifies this`sendCh
      ensures accepted <==> |old(sendCh)| < 8192
      ensures sendCh == if accepted then old(sendCh) + [line] else old(sendCh)
    {
      accepted := |sendCh| < SendBufSize;
      if accepted {
        sendCh := sendCh + [line];
      }
    }

    /** One turn of writePump with a line waiting. */
    method WriteFrame()
      requires sendCh != []
      modifies this
      ensures exists n :: 1 <= n <= 64 && n <= |old(sendCh)| && (n == 64 || n == |old(sendCh)|)
                && frames == old(frames) + [old(sendCh)[..n]] && sendCh == old(sendCh)[n..]
    {
      ghost var waiting := sendCh;
      var frame := [sendCh[0]];
      sendCh := sendCh[1..];
      var n := |sendCh|;
      if n > MaxBatch {
        n := MaxBatch;
      }
      for i := 0 to n
        invariant frame == waiting[..i + 1] && sendCh == waiting[i + 1..]
        invariant frames == old(frames)
      {
        frame := frame + [sendCh[0]];
        sendCh := sendCh[1..];
      }
      frames := frames + [frame];
      assert frame == waiting[..n + 1] && sendCh == waiting[n + 1..];
    }
  }

  // ---- Any number of producers beside the one writer ----------------------------------------------------

  datatype Writer =
    | Idle
    | Got(line: string)                            // the first line of a frame was received
    | Draining(frame: seq<string>, left: nat)      // `left` more lines are to be received

  /** `accepted` is every line that entered the queue, in order. */
  datatype State = State(queue: seq<string>, writer: Writer, frames: seq<seq<string>>, accepted: seq<string>)

  const Init := State([], Idle, [], [])

  datatype Event =
    | Send(line: string)
    | Receive
    | ReadLength
    | Drain
    | CloseFrame

  predicate Enabled(s: State, e: Event) {
    match e
    case Send(_) => true
    case Receive => s.writer == Idle && s.queue != []
    case ReadLength => s.writer.Got?
    case Drain => s.writer.Draining? && s.writer.left > 0 && s.queue != []
    case CloseFrame => s.writer.Draining? && s.writer.left == 0
  }

  function Next(s: State, e: Event): State
    requires Enabled(s, e)
  {
    match e
    case Send(line) =>
      if |s.queue| < SendBufSize then s.(queue := s.queue + [line], accepted := s.accepted + [line]) else s
    case Receive => s.(writer := Got(s.queue[0]), queue := s.queue[1..])
    case ReadLength =>
      s.(writer := Draining([s.writer.line], if |s.queue| > MaxBatch then MaxBatch else |s.queue|))
    case Drain =>
      s.(writer := Draining(s.writer.frame + [s.queue[0]], s.writer.left - 1), queue := s.queue[1..])
    case CloseFrame => s.(writer := Idle, frames := s.frames + [s.writer.frame])
  }

  predicate Legal(run: seq<Event>)
    decreases |run|, 0
  {
    run == [] || (Legal(run[..|run| - 1]) && Enabled(After(run[..|run| - 1]), run[|run| - 1]))
  }

  function After(run: seq<Event>): State
    requires Legal(run)
    decreases |run|, 1
  {
    if run == [] then Init else Next(After(run[..|run| - 1]), run[|run| - 1])
  }

  function Flat(frames: seq<seq<string>>): seq<string> {
    if frames == [] then [] else Flat(frames[..|frames| - 1]) + frames[|frames| - 1]
  }

  /** The lines of the frame being written. */
  function InHand(w: Writer): seq<string> {
    match w
    case Idle => []
    case Got(line) => [line]
    case Draining(frame, _) => frame
  }

  predicate Inv(s: State) {
    && |s.queue| <= SendBufSize
    && Flat(s.frames) + InHand(s.writer) + s.queue == s.accepted
    && (forall i :: 0 <= i < |s.frames| ==> 1 <= |s.frames[i]| <= MaxBatch + 1)
    && (s.writer.Draining? ==>
          1 <= |s.writer.frame| && |s.writer.frame| + s.writer.left <= MaxBatch + 1 && s.writer.left <= |s.queue|)
  }

  lemma Shift(done: seq<string>, hand: seq<string>, queue: seq<string>)
    requires queue != []
    ensures done + (hand + [queue[0]]) + queue[1..] == done + hand + queue
  {
    assert queue == [queue[0]] + queue[1..];
  }

  lemma InvWriter(s: State, e: Event)
    requires Inv(s) && Enabled(s, e) && (e.Receive? || e.Drain?)
    ensures Inv(Next(s, e))
  {
    Shift(Flat(s.frames), InHand(s.writer), s.queue);
    assert [] + [s.queue[0]] == [s.queue[0]];
  }

  lemma InvClose(s: State)
    requires Inv(s) && Enabled(s, CloseFrame)
    ensures Inv(Next(s, CloseFrame))
  {
    var frames := s.frames + [s.writer.frame];
    assert frames[..|frames| - 1] == s.frames;
    assert Flat(frames) + [] == Flat(s.frames) + s.writer.frame;
  }

  lemma InvNext(s: State, e: Event)
    requires Inv(s) && Enabled(s, e)
    ensures Inv(Next(s, e))
  {
    match e
    case Send(line) =>
      var before := Flat(s.frames) + InHand(s.writer);
      assert before + (s.queue + [line]) == before + s.queue + [line];
    case Receive => InvWriter(s, e);
    case ReadLength =>
    case Drain => InvWriter(s, e);
    case CloseFrame => InvClose(s);
  }

  lemma {:induction false} InvAlways(run: seq<Event>)
    requires Legal(run)
    ensures Inv(After(run))
  {
    if run != [] {
      InvAlways(run[..|run| - 1]);
      InvNext(After(run[..|run| - 1]), run[|run| - 1]);
    }
  }

  /** Whatever the producers do: the lines already framed, in hand and queued are the accepted lines in
      order; every frame holds 1 to 64 lines; and the inner drain always finds a line to receive. */
  lemma FramesKeepOrder(run: seq<Event>)
    requires Legal(run)
    ensures var s := After(run);
            && Flat(s.frames) + InHand(s.writer) + s.queue == s.accepted
            && (forall i :: 0 <= i < |s.frames| ==> 1 <= |s.frames[i]| <= 64)
            && (s.writer.Draining? && s.writer.left > 0 ==> Enabled(s, Drain))
  {
    InvAlways(run);
  }

  /** How many lines the writer has received. */
  function Received(run: seq<Event>): nat {
    if run == [] then 0
    else Received(run[..|run| - 1]) + if run[|run| - 1].Receive? || run[|run| - 1].Drain? then 1 else 0
  }

  /** The queue holds what was accepted and not yet received. */
  lemma {:induction false} QueueLength(run: seq<Event>)
    requires Legal(run)
    ensures |After(run).queue| + Received(run) == |After(run).accepted|
  {
    if run != [] {
      QueueLength(run[..|run| - 1]);
    }
  }

  /** A line is dropped exactly when 8192 accepted lines have not been received yet; that many is also
      the most there ever are. */
  lemma DroppedOnlyWhenBehind(run: seq<Event>, line: string)
    requires Legal(run)
    ensures var accepted := After(run).accepted;
            && Received(run) <= |accepted| <= Received(run) + 8192
            && Next(After(run), Send(line)).accepted
               == (if |accepted| == Received(run) + 8192 then accepted else accepted + [line])
            && (|accepted| == Received(run) + 8192 <==> Next(After(run), Send(line)) == After(run))
  {
    InvAlways(run);
    QueueLength(run);
  }

  /** The writer's inner loop, `n` lines long. */
  function Drained(s: State, n: nat): State
    requires s.writer.Draining? && n <= s.writer.left && n <= |s.queue|
    ensures Drained(s, n)
         == s.(writer := Draining(s.writer.frame + s.queue[..n], s.writer.left - n), queue := s.queue[n..])
  {
    if n == 0 then
      assert s.writer.frame + s.queue[..0] == s.writer.frame && s.queue[0..] == s.queue;
      s
    else
      var before := Drained(s, n - 1);
      assert before.writer.frame + [s.queue[n - 1]] == s.writer.frame + s.queue[..n];
      assert before.queue[1..] == s.queue[n..];
      Next(before, Drain)
  }

  /** One frame of the machine, with no producer in between, is what WriteFrame does. */
  lemma FrameAlone(s: State)
    requires s.writer == Idle && s.queue != []
    ensures var reading := Next(Next(s, Receive), ReadLength);
            var n := reading.writer.left + 1;
            && (n == 64 || n == |s.queue|) && n <= 64 && n <= |s.queue|
            && Next(Drained(reading, n - 1), CloseFrame)
               == s.(queue := s.queue[n..], frames := s.frames + [s.queue[..n]])
  {
    var reading := Next(Next(s, Receive), ReadLength);
    var n := reading.writer.left + 1;
    assert [s.queue[0]] + s.queue[1..][..n - 1] == s.queue[..n];
    assert s.queue[1..][n - 1..] == s.queue[n..];
  }
}
