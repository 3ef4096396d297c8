/**
 * The per-connection screenshot stream of the server's WebSocket (src/server.js):
 * a `startStream` message starts one repeating timer, `stopStream` and the
 * socket closing clear it. Timers are modelled by their ids and periods; a
 * timer firing is an explicit `Tick`, and a capture finishing is an explicit
 * `CaptureDone` carrying the screenshot's outcome and the clock reading.
 */
module Stream {
  import opened Common

  /** A repeating timer: its id and its period in milliseconds. */
  datatype Timer = Timer(id: nat, period: real)

  /** The `action` of a parsed message; `fps` is None when the message has none. */
  datatype Message = StartStream(fps: Option<real>) | StopStream | OtherAction

  /** A frame sent to the client: the captured image and when it was sent. */
  datatype Frame = Frame(data: Blob, timestamp: nat)

  /** The frame rate asked for, where a missing or zero rate means 5 per second. */
  function EffectiveFps(fps: Option<real>): real {
    if fps.None? || fps.value == 0.0 then 5.0 else fps.value
  }

  /** The timer period for the rate asked for. */
  function Period(fps: Option<real>): (p: real)
    ensures p * EffectiveFps(fps) == 1000.0
  {
    1000.0 / EffectiveFps(fps)
  }

  /** Without a usable rate the stream runs at 5 frames a second, one every 200 ms. */
  lemma DefaultPeriod()
    ensures Period(None) == 200.0 && Period(Some(0.0)) == 200.0
  {
  }

  /** A faster rate asked for gives a shorter period. */
  lemma {:induction false} FasterIsShorter(f1: real, f2: real)
    requires 0.0 < f1 < f2
    ensures Period(Some(f2)) < Period(Some(f1))
  {
    var p1, p2 := Period(Some(f1)), Period(Some(f2));
    assert p1 * f1 == 1000.0 && p2 * f2 == 1000.0;
    ShorterPeriod(p1, p2, f1, f2);
  }

  lemma ShorterPeriod(p1: real, p2: real, f1: real, f2: real)
    requires 0.0 < f1 < f2 && p1 * f1 == 1000.0 && p2 * f2 == 1000.0
    ensures p2 < p1
  {
    PositiveFactor(p2, f2);
    MulStrict(p2, f1, f2);
    var q := p2 * f2;
    assert p2 * f1 < q && q == p1 * f1;
    CancelFactor(p2, p1, f1);
  }

  lemma PositiveFactor(p: real, f: real)
    requires f > 0.0 && p * f > 0.0
    ensures p > 0.0
  {
  }

  lemma MulStrict(a: real, x: real, y: real)
    requires a > 0.0 && x < y
    ensures a * x < a * y
  {
  }

  lemma CancelFactor(x: real, y: real, c: real)
    requires c > 0.0 && x * c < y * c
    ensures x < y
  {
  }

  /** The state the server keeps for one WebSocket connection. */
  class Connection {
    var streaming: bool
    /** The `streamInterval` variable: the timer it last stored, if any. */
    var streamInterval: Option<Timer>
    /** Ids of the timers that were set and not yet cleared. */
    var live: set<nat>
    var nextId: nat
    var open: bool
    /** Captures started, and those of them not finished yet. */
    var captures: nat
    var inFlight: nat
    var sent: seq<Frame>

    /** At most one timer runs, and it is the stored one exactly while streaming. */
    ghost predicate Valid()
      reads this
    {
      (streaming ==> streamInterval.Some? && live == {streamInterval.value.id})
      && (!streaming ==> live == {})
      && (forall i :: i in live ==> i < nextId)
      && |sent| + inFlight <= captures
    }

    constructor ()
      ensures Valid()
      ensures !streaming && streamInterval == None && live == {} && nextId == 0 && open
      ensures captures == 0 && inFlight == 0 && sent == []
    {
      streaming := false;
      streamInterval := None;
      live := {};
      nextId := 0;
      open := true;
      captures := 0;
      inFlight := 0;
      sent := [];
    }

    /** `startStream`: ignored while streaming, otherwise one new timer at the asked rate. */
    method Start(fps: Option<real>)
      requires Valid()
      modifies this
      ensures Valid()
      ensures old(streaming) ==> unchanged(this)
      ensures !old(streaming) ==> (streaming && streamInterval == Some(Timer(old(nextId), Period(fps)))
        && live == {old(nextId)} && nextId == old(nextId) + 1)
      ensures !old(streaming) ==> (open == old(open) && captures == old(captures)
        && inFlight == old(inFlight) && sent == old(sent))
    {
      if streaming {
        return;
      }
      streaming := true;
      var interval := 1000.0 / EffectiveFps(fps);
      var t := Timer(nextId, interval);
      nextId := nextId + 1;
      live := live + {t.id};
      streamInterval := Some(t);
    }

    /** `stopStream`: no longer streaming, the stored timer cleared and forgotten. */
    method Stop()
      requires Valid()
      modifies this
      ensures Valid()
      ensures !streaming && streamInterval == None && live == {}
      ensures nextId == old(nextId) && open == old(open) && captures == old(captures)
        && inFlight == old(inFlight) && sent == old(sent)
    {
      streaming := false;
      if streamInterval.Some? {
        live := live - {streamInterval.value.id};
        streamInterval := None;
      }
    }

    /** The socket closing: no longer streaming and the timer cleared, but still stored. */
    method Close()
      requires Valid()
      modifies this
      ensures Valid()
      ensures !streaming && !open && live == {} && streamInterval == old(streamInterval)
      ensures nextId == old(nextId) && captures == old(captures)
        && inFlight == old(inFlight) && sent == old(sent)
    {
      open := false;
      streaming := false;
      if streamInterval.Some? {
        live := live - {streamInterval.value.id};
      }
    }

    /** One message: the two actions it may name are checked one after the other. */
    method OnMessage(msg: Message)
      requires Valid()
      modifies this
      ensures Valid()
      ensures msg.OtherAction? ==> unchanged(this)
      ensures msg.StopStream? ==> !streaming && live == {}
      ensures msg.StartStream? ==> streaming && |live| == 1
    {
      if msg.StartStream? {
        Start(msg.fps);
      }
      if msg.StopStream? {
        Stop();
      }
    }

    /** The timer fires: a new capture starts, whether or not one is still running. */
    method Tick()
      requires Valid() && live != {}
      modifies this
      ensures Valid()
      ensures captures == old(captures) + 1 && inFlight == old(inFlight) + 1
      ensures streaming == old(streaming) && streamInterval == old(streamInterval) && live == old(live)
        && nextId == old(nextId) && open == old(open) && sent == old(sent)
    {
      captures := captures + 1;
      inFlight := inFlight + 1;
    }

    /**
     * A capture finishes with the image, or None when it failed: the frame is
     * sent if the socket is open, even after the stream stopped; a failure is
     * dropped.
     */
    method CaptureDone(shot: Option<Blob>, now: nat)
      requires Valid() && inFlight > 0
      modifies this
      ensures Valid()
      ensures inFlight == old(inFlight) - 1
      ensures sent == if shot.Some? && open then old(sent) + [Frame(shot.value, now)] else old(sent)
      ensures streaming == old(streaming) && streamInterval == old(streamInterval) && live == old(live)
        && nextId == old(nextId) && open == old(open) && captures == old(captures)
    {
      inFlight := inFlight - 1;
      if shot.Some? && open {
        sent := sent + [Frame(shot.value, now)];
      }
    }
  }

  /** However the messages, ticks and captures interleave, at most one timer runs per connection. */
  lemma AtMostOneTimer(c: Connection)
    requires c.Valid()
    ensures |c.live| <= 1
    ensures c.live != {} ==> c.streaming && c.streamInterval.Some?
  {
  }

  /** A second `startStream` keeps the first timer: no second timer is ever set. */
  method StartTwice(f1: Option<real>, f2: Option<real>) returns (c: Connection)
    ensures c.Valid() && c.streaming
    ensures c.streamInterval == Some(Timer(0, Period(f1))) && c.live == {0}
  {
    c := new Connection();
    c.Start(f1);
    c.Start(f2);
  }

  /** After `stopStream`, a `startStream` is accepted again with the new rate. */
  method StopThenRestart(f1: Option<real>, f2: Option<real>) returns (c: Connection)
    ensures c.Valid() && c.streaming
    ensures c.streamInterval == Some(Timer(1, Period(f2))) && c.live == {1}
  {
    c := new Connection();
    c.Start(f1);
    c.Stop();
    c.Start(f2);
  }

  /** Two ticks without a finished capture: two captures run at once. */
  method OverlappingCaptures(fps: Option<real>) returns (c: Connection)
    ensures c.Valid() && c.inFlight == 2
  {
    c := new Connection();
    c.Start(fps);
    c.Tick();
    c.Tick();
  }

  /** A capture that finishes after `stopStream` is still sent while the socket is open. */
  method FrameAfterStop(fps: Option<real>, shot: Blob, now: nat) returns (c: Connection)
    ensures c.Valid() && !c.streaming && c.sent == [Frame(shot, now)]
  {
    c := new Connection();
    c.Start(fps);
    c.Tick();
    c.Stop();
    c.CaptureDone(Some(shot), now);
  }

  /** A capture that finishes after the socket closed sends nothing. */
  method NoFrameAfterClose(fps: Option<real>, shot: Blob, now: nat) returns (c: Connection)
    ensures c.Valid() && c.sent == []
  {
    c := new Connection();
    c.Start(fps);
    c.Tick();
    c.Close();
    c.CaptureDone(Some(shot), now);
  }
}
