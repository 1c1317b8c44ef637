/**
 The live writer of a run (MacOS/brain/engine.ts): frames at most every 50 ms, one of them persisted at most every
 second, and a trailing timer for the end of a burst.
 */
module FrameThrottle {
  import opened Options

  const STREAM_THROTTLE_MS := 50
  const CHECKPOINT_MS := 1000

  /** `flush` is the number of the call that produced the value. */
  datatype Value = Value(flush: nat, output: string)

  datatype Frame = Frame(at: int, value: Value, persisted: bool)

  /** `trailer` is the time before which the armed timer does not fire. */
  datatype Stream = Stream(
    lastFrame: int, lastCheckpoint: int, trailer: Option<int>, settled: bool, pending: Option<Value>, flushes: nat,
    frames: seq<Frame>)

  const STARTED := Stream(0, 0, None, false, None, 0, [])

  function SendFrame(s: Stream, now: int): Stream {
    if s.settled || s.pending.None? then s
    else
      var persist := now - s.lastCheckpoint >= CHECKPOINT_MS;
      s.(lastFrame := now, lastCheckpoint := if persist then now else s.lastCheckpoint,
         frames := s.frames + [Frame(now, s.pending.value, persist)])
  }

  function Flush(s: Stream, output: string, now: int): Stream {
    var s1 := s.(pending := Some(Value(s.flushes, output)), flushes := s.flushes + 1);
    var wait := STREAM_THROTTLE_MS - (now - s.lastFrame);
    if wait <= 0 then SendFrame(s1.(trailer := None), now)
    else if s.trailer.None? then s1.(trailer := Some(now + wait))
    else s1
  }

  function TrailerFires(s: Stream, now: int): Stream {
    SendFrame(s.(trailer := None), now)
  }

  function SettleStream(s: Stream): Stream {
    s.(settled := true, trailer := None)
  }

  /** The closure variables of the source, assigned by `flush`, `sendFrame` and `settleStream`. */
  class LiveWriter {
    var lastFrame: int
    var lastCheckpoint: int
    var trailer: Option<int>
    var settled: bool
    var pending: Option<Value>
    var flushes: nat
    var frames: seq<Frame>

    constructor ()
      ensures Model() == STARTED
    {
      lastFrame, lastCheckpoint, trailer, settled, pending, flushes, frames := 0, 0, None, false, None, 0, [];
    }

    function Model(): Stream
      reads this
    {
      Stream(lastFrame, lastCheckpoint, trailer, settled, pending, flushes, frames)
    }

    method Send(now: int)
      modifies this
      ensures Model() == SendFrame(old(Model()), now)
    {
      if settled || pending.None? {
        return;
      }
      lastFrame := now;
      if now - lastCheckpoint >= CHECKPOINT_MS {
        lastCheckpoint := now;
        frames := frames + [Frame(now, pending.value, true)];
      } else {
        frames := frames + [Frame(now, pending.value, false)];
      }
    }

    method OnProgress(output: string, now: int)
      modifies this
      ensures Model() == Flush(old(Model()), output, now)
    {
      pending := Some(Value(flushes, output));
      flushes := flushes + 1;
      var wait := STREAM_THROTTLE_MS - (now - lastFrame);
      if wait <= 0 {
        trailer := None;
        Send(now);
      } else if trailer.None? {
        trailer := Some(now + wait);
      }
    }

    method OnTrailer(now: int)
      modifies this
      ensures Model() == TrailerFires(old(Model()), now)
    {
      trailer := None;
      Send(now);
    }

    method Settle()
      modifies this
      ensures Model() == SettleStream(old(Model()))
    {
      settled := true;
      trailer := None;
    }
  }

  // ---- runs ----

  datatype Event = Flushed(output: string, now: int) | TimerFired(now: int) | Settled

  /** Timers never fire early, and time does not run backwards. */
  predicate Enabled(s: Stream, e: Event, clock: int) {
    match e
    case Flushed(_, now) => clock <= now
    case TimerFired(now) => s.trailer.Some? && s.trailer.value <= now && clock <= now
    case Settled => true
  }

  function Next(s: Stream, e: Event): Stream {
    match e
    case Flushed(output, now) => Flush(s, output, now)
    case TimerFired(now) => TrailerFires(s, now)
    case Settled => SettleStream(s)
  }

  function Clock(events: seq<Event>): int {
    if events == [] then 0
    else if events[|events| - 1].Settled? then Clock(events[..|events| - 1])
    else events[|events| - 1].now
  }

  function After(events: seq<Event>): Stream {
    if events == [] then STARTED else Next(After(events[..|events| - 1]), events[|events| - 1])
  }

  ghost predicate IsRun(events: seq<Event>) {
    events != [] ==>
      var init := events[..|events| - 1];
      IsRun(init) && Enabled(After(init), events[|events| - 1], Clock(init))
  }

  ghost predicate Spaced(frames: seq<Frame>) {
    && (forall i, j :: 0 <= i < j < |frames| ==>
          frames[j].at - frames[i].at >= STREAM_THROTTLE_MS && frames[i].value.flush < frames[j].value.flush)
    && (forall i, j :: 0 <= i < j < |frames| && frames[i].persisted && frames[j].persisted ==>
          frames[j].at - frames[i].at >= CHECKPOINT_MS)
  }

  /** The latest flush has been sent. */
  predicate UpToDate(s: Stream) {
    s.frames != [] && s.pending == Some(s.frames[|s.frames| - 1].value)
  }

  /** No frame has carried the latest flush. */
  ghost predicate Unsent(s: Stream) {
    s.pending.Some? && forall i :: 0 <= i < |s.frames| ==> s.frames[i].value.flush < s.pending.value.flush
  }

  ghost predicate Core(s: Stream, clock: int) {
    && 0 <= s.lastFrame <= clock && 0 <= s.lastCheckpoint && Spaced(s.frames)
    && (forall i :: 0 <= i < |s.frames| ==> s.frames[i].at <= s.lastFrame && s.frames[i].value.flush < s.flushes)
    && (forall i :: 0 <= i < |s.frames| && s.frames[i].persisted ==> s.frames[i].at <= s.lastCheckpoint)
    && (if s.pending.Some? then s.flushes > 0 && s.pending.value.flush == s.flushes - 1 else s.frames == [] && s.flushes == 0)
  }

  ghost predicate Inv(s: Stream, clock: int) {
    && Core(s, clock)
    && (s.trailer.Some? ==> s.trailer.value == s.lastFrame + STREAM_THROTTLE_MS)
    && (!s.settled ==> if s.pending.None? || UpToDate(s) then s.trailer.None? else Unsent(s) && s.trailer.Some?)
  }

  lemma SendKeeps(s: Stream, clock: int, now: int)
    requires Core(s, clock) && clock <= now && s.trailer.None? && s.lastFrame + STREAM_THROTTLE_MS <= now
    requires s.settled || Unsent(s)
    ensures Inv(SendFrame(s, now), now)
    ensures !s.settled ==> UpToDate(SendFrame(s, now))
  {
    var s' := SendFrame(s, now);
    if !s.settled {
      assert Spaced(s'.frames);
    }
  }

  /** A new value is unsent, and changes nothing else. */
  lemma NewValueKeepsCore(s: Stream, output: string, trailer: Option<int>, clock: int, now: int)
    requires Core(s, clock) && clock <= now
    ensures var s1 := s.(pending := Some(Value(s.flushes, output)), flushes := s.flushes + 1, trailer := trailer);
      Core(s1, now) && Unsent(s1) && !UpToDate(s1)
  {
  }

  lemma FlushKeeps(s: Stream, output: string, clock: int, now: int)
    requires Inv(s, clock) && clock <= now
    ensures Inv(Flush(s, output, now), now)
  {
    var wait := STREAM_THROTTLE_MS - (now - s.lastFrame);
    var trailer := if wait <= 0 then None else if s.trailer.None? then Some(now + wait) else s.trailer;
    NewValueKeepsCore(s, output, trailer, clock, now);
    hide Core, Unsent, UpToDate;
    if wait <= 0 {
      SendKeeps(s.(pending := Some(Value(s.flushes, output)), flushes := s.flushes + 1, trailer := None), now, now);
    }
  }

  lemma TimerKeeps(s: Stream, clock: int, now: int)
    requires Inv(s, clock) && Enabled(s, TimerFired(now), clock)
    ensures Inv(TrailerFires(s, now), now)
  {
    SendKeeps(s.(trailer := None), clock, now);
  }

  lemma {:induction false} RunKeeps(events: seq<Event>)
    requires IsRun(events)
    ensures Inv(After(events), Clock(events))
    decreases |events|
  {
    if events != [] {
      var init, e := events[..|events| - 1], events[|events| - 1];
      RunKeeps(init);
      match e
      case Flushed(output, now) => FlushKeeps(After(init), output, Clock(init), now);
      case TimerFired(now) => TimerKeeps(After(init), Clock(init), now);
      case Settled =>
    }
  }

  /** Frames are at least 50 ms apart, persisted frames at least a second, and each carries a later flush than the one
      before it: no value is sent twice, and none out of order. */
  lemma FramesAreSpaced(events: seq<Event>, i: nat, j: nat)
    requires IsRun(events) && i < j < |After(events).frames|
    ensures var frames := After(events).frames;
      && frames[j].at - frames[i].at >= STREAM_THROTTLE_MS && frames[i].value.flush < frames[j].value.flush
      && (frames[i].persisted && frames[j].persisted ==> frames[j].at - frames[i].at >= CHECKPOINT_MS)
  {
    RunKeeps(events);
  }

  // ---- exactly what is sent, and when ----

  /** The output last flushed. */
  function LastOutput(events: seq<Event>): Option<string> {
    if events == [] then None
    else if events[|events| - 1].Flushed? then Some(events[|events| - 1].output)
    else LastOutput(events[..|events| - 1])
  }

  /** When the last frame was sent, 0 before the first. */
  function LastAt(frames: seq<Frame>): int {
    if frames == [] then 0 else frames[|frames| - 1].at
  }

  function LastPersistedAt(frames: seq<Frame>): int {
    if frames == [] then 0
    else if frames[|frames| - 1].persisted then frames[|frames| - 1].at
    else LastPersistedAt(frames[..|frames| - 1])
  }

  ghost predicate Recalls(s: Stream, events: seq<Event>) {
    && s.lastFrame == LastAt(s.frames) && s.lastCheckpoint == LastPersistedAt(s.frames)
    && (s.settled <==> Settled in events)
    && (if s.pending.Some? then LastOutput(events) == Some(s.pending.value.output) else LastOutput(events) == None)
  }

  lemma SendRecalls(s: Stream, now: int)
    requires s.lastFrame == LastAt(s.frames) && s.lastCheckpoint == LastPersistedAt(s.frames)
    ensures var s' := SendFrame(s, now); s'.lastFrame == LastAt(s'.frames) && s'.lastCheckpoint == LastPersistedAt(s'.frames)
  {
    var s' := SendFrame(s, now);
    assert |s'.frames| > |s.frames| ==> s'.frames[..|s.frames|] == s.frames;
  }

  lemma EventRecalls(events: seq<Event>, s: Stream, e: Event)
    requires Recalls(s, events)
    ensures Recalls(Next(s, e), events + [e])
  {
    assert (events + [e])[..|events|] == events;
    match e
    case Flushed(output, now) =>
      SendRecalls(s.(pending := Some(Value(s.flushes, output)), flushes := s.flushes + 1, trailer := None), now);
      hide LastAt, LastPersistedAt;
    case TimerFired(now) =>
      SendRecalls(s.(trailer := None), now);
      hide LastAt, LastPersistedAt;
    case Settled => hide LastAt, LastPersistedAt;
  }

  lemma {:induction false} RunRecalls(events: seq<Event>)
    ensures Recalls(After(events), events)
    decreases |events|
  {
    if events != [] {
      var init, e := events[..|events| - 1], events[|events| - 1];
      RunRecalls(init);
      assert events == init + [e];
      hide Recalls, Next;
      EventRecalls(init, After(init), e);
    }
  }

  /** Until the stream is settled, a flush sends its own output at once exactly if the last frame is 50 ms old, and the
      timer sends the output flushed last; a frame is persisted exactly if the last persisted one is a second old. */
  lemma EventSends(events: seq<Event>, e: Event)
    requires IsRun(events + [e])
    ensures var frames, frames' := After(events).frames, After(events + [e]).frames;
      var sends := Settled !in events && match e case Flushed(_, now) => now - LastAt(frames) >= 50 case TimerFired(_) => true case Settled => false;
      if !sends then frames' == frames
      else
        && |frames'| == |frames| + 1 && frames'[..|frames|] == frames && frames'[|frames|].at == e.now
        && Some(frames'[|frames|].value.output) == (if e.Flushed? then Some(e.output) else LastOutput(events))
        && (frames'[|frames|].persisted <==> e.now - LastPersistedAt(frames) >= 1000)
  {
    assert (events + [e])[..|events + [e]| - 1] == events;
    RunKeeps(events);
    RunRecalls(events);
    hide After, LastAt, LastPersistedAt, LastOutput, IsRun, Spaced;
  }

  /** While the stream is not settled, the newest output flushed has been sent, or the timer is armed, due 50 ms after the
      last frame, and when it fires it sends that output. */
  lemma NewestIsSentOrDue(events: seq<Event>)
    requires IsRun(events) && Settled !in events && LastOutput(events).Some?
    ensures var s := After(events);
      if s.trailer.None? then s.frames != [] && s.frames[|s.frames| - 1].value.output == LastOutput(events).value
      else
        && s.trailer.value == LastAt(s.frames) + 50 && !UpToDate(s)
        && forall now :: s.trailer.value <= now && Clock(events) <= now ==>
             && Enabled(s, TimerFired(now), Clock(events))
             && var frames := TrailerFires(s, now).frames; frames != [] && frames[|frames| - 1].value.output == LastOutput(events).value
  {
    RunKeeps(events);
    RunRecalls(events);
    hide After, LastAt, LastPersistedAt, LastOutput, IsRun;
  }

  /** After the stream is settled no event sends a frame, and no timer is left to fire unless a late flush arms one. */
  lemma NothingAfterSettling(s: Stream, e: Event)
    requires s.settled
    ensures Next(s, e).settled && Next(s, e).frames == s.frames
    ensures SettleStream(s).trailer == None
  {
  }

  lemma {:induction false} SettledForGood(events: seq<Event>, more: seq<Event>)
    requires After(events).settled
    ensures After(events + more).settled && After(events + more).frames == After(events).frames
    decreases |more|
  {
    if more == [] {
      assert events + more == events;
    } else {
      var init := more[..|more| - 1];
      assert (events + more)[..|events + more| - 1] == events + init;
      SettledForGood(events, init);
      NothingAfterSettling(After(events + init), more[|more| - 1]);
    }
  }

  /** The value a frame carries is one that was flushed, as it was flushed. */
  predicate WasFlushed(events: seq<Event>, v: Value) {
    exists i :: 0 <= i < |events| && events[i].Flushed? && events[i].output == v.output && After(events[..i]).flushes == v.flush
  }

  lemma {:induction false} ValuesAreFlushed(events: seq<Event>)
    ensures var s := After(events);
      && (s.pending.Some? ==> WasFlushed(events, s.pending.value))
      && forall f :: f in s.frames ==> WasFlushed(events, f.value)
    decreases |events|
  {
    if events != [] {
      var init, e := events[..|events| - 1], events[|events| - 1];
      ValuesAreFlushed(init);
      forall v | WasFlushed(init, v) ensures WasFlushed(events, v) {
        var i :| 0 <= i < |init| && init[i].Flushed? && init[i].output == v.output && After(init[..i]).flushes == v.flush;
        assert events[..i] == init[..i] && events[i] == init[i];
      }
      if e.Flushed? {
        assert events[|init|] == e && events[..|init|] == init;
        assert WasFlushed(events, Value(After(init).flushes, e.output));
      }
    }
  }
}
