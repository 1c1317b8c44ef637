/**
 The schedule runner (MacOS/brain/cron.ts): what ticks do to a schedule over a whole run, interleaved with
 restarts of the app and with the user switching the schedule off, on, or pausing it.
 */
module CronRunners {
  import opened Options
  import opened Cron

  const TICK_MS := 30_000

  /** An automatic fire; `key` identifies the occurrence when the job is claimed. */
  datatype Fire = Fire(at: int, dueAt: int, late: bool, key: int)

  predicate Truthy(o: Option<int>) {
    o.Some? && o.value != 0
  }

  predicate IsOneShot(s: Schedule) {
    Truthy(s.fireAt)
  }

  /** The user switches a schedule; switching off forgets its next run. */
  function Switched(s: Schedule, on: bool): Schedule {
    if on then s.(enabled := true) else s.(enabled := false, nextRun := None)
  }

  function Started(s: Schedule, now: int): Schedule {
    if !s.enabled then s.(nextRun := None)
    else s.(nextRun := if s.fireAt.Some? then s.fireAt else if s.nextRun.Some? then s.nextRun else NextOccurrence(s, now))
  }

  /** How long after a slot it may still be caught up. */
  function Window(s: Schedule, dueAt: int): int {
    if s.catchUpWindowMs.Some? then s.catchUpWindowMs.value else EndOfDayWindow(dueAt)
  }

  /** A slot missed by more than the tolerance that may still be caught up. */
  predicate CatchesUp(s: Schedule, next: int, now: int) {
    && s.catchUp && s.lastDueAt != Some(next)
    && now <= next + Window(s, next)
  }

  function OccurrenceKey(s: Schedule): int {
    if s.lastDueAt.Some? then s.lastDueAt.value else if s.fireAt.Some? then s.fireAt.value else 0
  }

  function Marked(s: Schedule, now: int, next: Option<int>, dueAt: Option<int>, late: bool): Schedule {
    s.(lastRun := Some(now), nextRun := next, lastDueAt := if dueAt.Some? then dueAt else s.lastDueAt, lastFireLate := late)
  }

  function TickOneShot(s: Schedule, now: int): (Schedule, Option<Fire>)
    requires IsOneShot(s)
  {
    if s.fireAt.value > now then (s.(nextRun := s.fireAt), None)
    else if Truthy(s.lastRun) then (Switched(s, false), None)
    else
      var s' := Switched(Marked(s, now, None, None, false), false);
      (s', Some(Fire(now, s.fireAt.value, false, OccurrenceKey(s'))))
  }

  function TickRecurring(s: Schedule, now: int): (Schedule, Option<Fire>) {
    var due := if s.nextRun.Some? then s.nextRun else NextOccurrence(s, now);
    if due.None? then (s, None)
    else if due.value > now then (s.(nextRun := due), None)
    else if Truthy(s.lastRun) && now - s.lastRun.value < MIN_SPACING_MS then (s, None)
    else
      var late := now - due.value > LATE_TOLERANCE_MS;
      if late && !IsInterval(s) && !CatchesUp(s, due.value, now) then (s.(nextRun := NextOccurrence(s, now)), None)
      else
        var s' := Marked(s, now, NextOccurrence(s, now), due, late);
        (s', Some(Fire(now, due.value, late, OccurrenceKey(s'))))
  }

  function TickOne(s: Schedule, now: int): (Schedule, Option<Fire>) {
    if !s.enabled || s.paused then (s.(nextRun := None), None)
    else if IsOneShot(s) then TickOneShot(s, now)
    else TickRecurring(s, now)
  }

  // ---- the runner object ----

  /** The fires of one tick over the whole list, in list order. */
  function TickFires(schedules: seq<Schedule>, now: int): seq<Fire>
    decreases |schedules|
  {
    if schedules == [] then []
    else
      var f := TickOne(schedules[|schedules| - 1], now).1;
      TickFires(schedules[..|schedules| - 1], now) + if f.Some? then [f.value] else []
  }

  class CronRunner {
    var schedules: seq<Schedule>
    var fired: seq<Fire>

    constructor (schedules: seq<Schedule>)
      ensures this.schedules == schedules && fired == []
    {
      this.schedules, fired := schedules, [];
    }

    method Start(now: int)
      modifies `schedules
      ensures |schedules| == |old(schedules)|
      ensures forall i :: 0 <= i < |schedules| ==> schedules[i] == Started(old(schedules)[i], now)
    {
      hide Started;
      var i := 0;
      while i < |schedules|
        invariant i <= |schedules| == |old(schedules)|
        invariant forall k :: 0 <= k < i ==> schedules[k] == Started(old(schedules)[k], now)
        invariant forall k :: i <= k < |schedules| ==> schedules[k] == old(schedules)[k]
      {
        StartSchedule(i, now);
        i := i + 1;
      }
    }

    method StartSchedule(i: nat, now: int)
      requires i < |schedules|
      modifies `schedules
      ensures schedules == old(schedules)[i := Started(old(schedules)[i], now)]
    {
      var s := schedules[i];
      if !s.enabled {
        schedules := schedules[i := s.(nextRun := None)];
        return;
      }
      var next := s.fireAt;
      if next.None? {
        next := s.nextRun;
      }
      if next.None? {
        next := ComputeNextOccurrence(s, now);
      }
      schedules := schedules[i := s.(nextRun := next)];
    }

    method Tick(now: int)
      modifies this
      ensures |schedules| == |old(schedules)|
      ensures forall i :: 0 <= i < |schedules| ==> schedules[i] == TickOne(old(schedules)[i], now).0
      ensures fired == old(fired) + TickFires(old(schedules), now)
    {
      hide TickOne;
      var i := 0;
      assert fired == fired + TickFires(schedules[..0], now);
      while i < |schedules|
        invariant i <= |schedules| == |old(schedules)|
        invariant forall k :: 0 <= k < i ==> schedules[k] == TickOne(old(schedules)[k], now).0
        invariant forall k :: i <= k < |schedules| ==> schedules[k] == old(schedules)[k]
        invariant fired == old(fired) + TickFires(old(schedules)[..i], now)
      {
        assert old(schedules)[..i + 1][..i] == old(schedules)[..i];
        TickSchedule(i, now);
        i := i + 1;
      }
      assert old(schedules)[..i] == old(schedules);
    }

    method TickSchedule(i: nat, now: int)
      requires i < |schedules|
      modifies this
      ensures schedules == old(schedules)[i := TickOne(old(schedules)[i], now).0]
      ensures var f := TickOne(old(schedules)[i], now).1; fired == old(fired) + if f.Some? then [f.value] else []
    {
      hide NextOccurrence, EndOfDayWindow, TickOneShot, TickRecurring;
      var s := schedules[i];
      if !s.enabled || s.paused {
        schedules := schedules[i := s.(nextRun := None)];
        return;
      }
      if s.fireAt.Some? && s.fireAt.value != 0 {
        FireOneShot(i, now);
      } else {
        FireRecurring(i, now);
      }
    }

    method FireOneShot(i: nat, now: int)
      requires i < |schedules| && IsOneShot(schedules[i])
      modifies this
      ensures schedules == old(schedules)[i := TickOneShot(old(schedules)[i], now).0]
      ensures var f := TickOneShot(old(schedules)[i], now).1; fired == old(fired) + if f.Some? then [f.value] else []
    {
      var s := schedules[i];
      if s.fireAt.value > now {
        schedules := schedules[i := s.(nextRun := s.fireAt)];
        return;
      }
      if s.lastRun.Some? && s.lastRun.value != 0 {
        schedules := schedules[i := Switched(s, false)];
        return;
      }
      s := Marked(s, now, None, None, false);
      s := Switched(s, false);
      schedules := schedules[i := s];
      fired := fired + [Fire(now, s.fireAt.value, false, OccurrenceKey(s))];
    }

    method FireRecurring(i: nat, now: int)
      requires i < |schedules|
      modifies this
      ensures schedules == old(schedules)[i := TickRecurring(old(schedules)[i], now).0]
      ensures var f := TickRecurring(old(schedules)[i], now).1; fired == old(fired) + if f.Some? then [f.value] else []
    {
      hide NextOccurrence, EndOfDayWindow;
      var s := schedules[i];
      var next := s.nextRun;
      if next.None? {
        next := ComputeNextOccurrence(s, now);
      }
      if next.None? {
        return;
      }
      if next.value > now {
        schedules := schedules[i := s.(nextRun := next)];
        return;
      }
      if s.lastRun.Some? && s.lastRun.value != 0 && now - s.lastRun.value < MIN_SPACING_MS {
        return;
      }
      var late := now - next.value > LATE_TOLERANCE_MS;
      var isInterval := s.everyMinutes.Some? && s.everyMinutes.value > 0;
      var after := ComputeNextOccurrence(s, now);
      if late && !isInterval {
        var windowMs := if s.catchUpWindowMs.Some? then s.catchUpWindowMs.value else EndOfDayWindow(next.value);
        var withinWindow := now <= next.value + windowMs;
        var alreadyDone := s.lastDueAt == next;
        if !s.catchUp || !withinWindow || alreadyDone {
          schedules := schedules[i := s.(nextRun := after)];
          return;
        }
      }
      s := Marked(s, now, after, next, late);
      schedules := schedules[i := s];
      fired := fired + [Fire(now, next.value, late, OccurrenceKey(s))];
    }
  }

  // ---- runs ----

  datatype Event = Tick(now: int) | Start(now: int) | Switch(on: bool) | Pause(on: bool)

  function Apply(s: Schedule, e: Event): (Schedule, Option<Fire>) {
    match e
    case Tick(now) => TickOne(s, now)
    case Start(now) => (Started(s, now), None)
    case Switch(on) => (Switched(s, on), None)
    case Pause(on) => (s.(paused := on), None)
  }

  /** The schedule after the events, and every automatic fire on the way. */
  function Run(s: Schedule, events: seq<Event>): (Schedule, seq<Fire>)
    decreases |events|
  {
    if events == [] then (s, [])
    else
      var (s1, fires) := Run(s, events[..|events| - 1]);
      var (s2, f) := Apply(s1, events[|events| - 1]);
      (s2, fires + if f.Some? then [f.value] else [])
  }

  predicate Timed(e: Event) {
    e.Tick? || e.Start?
  }

  /** The clock runs forward, and later than the epoch. */
  ghost predicate Clocked(events: seq<Event>) {
    && (forall i :: 0 <= i < |events| && Timed(events[i]) ==> events[i].now > 0)
    && (forall i, j :: 0 <= i < j < |events| && Timed(events[i]) && Timed(events[j]) ==> events[i].now <= events[j].now)
  }

  /** What no event of a run edits. */
  predicate SameSchedule(s: Schedule, t: Schedule) {
    && s.time == t.time && s.cadence == t.cadence && s.createdAt == t.createdAt && s.everyMinutes == t.everyMinutes
    && s.anchorAt == t.anchorAt && s.fireAt == t.fireAt && s.catchUp == t.catchUp && s.catchUpWindowMs == t.catchUpWindowMs
  }

  lemma SameOccurrences(s: Schedule, t: Schedule)
    requires SameSchedule(s, t)
    ensures forall u :: Slot(s, u) <==> Slot(t, u)
    ensures forall from :: NextOccurrence(s, from) == NextOccurrence(t, from)
  {
    forall u ensures Slot(s, u) <==> Slot(t, u) {
      hide ParseHHMM, CadenceDays;
    }
  }

  ghost predicate Spaced(fires: seq<Fire>) {
    forall i, j :: 0 <= i < j < |fires| ==> fires[i].at < fires[j].dueAt && fires[i].at + MIN_SPACING_MS <= fires[j].at
  }

  ghost predicate Genuine(s: Schedule, fires: seq<Fire>) {
    forall i :: 0 <= i < |fires| ==> Slot(s, fires[i].dueAt) && fires[i].dueAt <= fires[i].at && fires[i].key == fires[i].dueAt
  }

  /** What a run keeps about a recurring schedule whose last event time was at most `now`. */
  ghost predicate Tracks(s: Schedule, fires: seq<Fire>, now: int) {
    && Spaced(fires) && Genuine(s, fires)
    && (s.nextRun.Some? ==> Slot(s, s.nextRun.value))
    && (fires != [] ==>
          var last := fires[|fires| - 1];
          && last.at > 0 && last.at <= now && s.lastRun == Some(last.at)
          && (s.nextRun.Some? ==> s.nextRun.value > last.at))
  }

  /** Whatever moves the next run to a later slot, or forgets it, without firing. */
  lemma QuietTracks(s: Schedule, s': Schedule, fires: seq<Fire>, before: int, now: int)
    requires Tracks(s, fires, before) && before <= now && SameSchedule(s, s') && s'.lastRun == s.lastRun
    requires s'.nextRun.Some? && s'.nextRun != s.nextRun ==> Slot(s, s'.nextRun.value) && s'.nextRun.value > now
    ensures Tracks(s', fires, now)
  {
    SameOccurrences(s, s');
    hide Slot, Spaced;
  }

  lemma FiringTracks(s: Schedule, s': Schedule, fires: seq<Fire>, before: int, f: Fire)
    requires Tracks(s, fires, before) && before <= f.at && 0 < f.at && SameSchedule(s, s') && s.nextRun == Some(f.dueAt) && f.dueAt <= f.at
    requires f.key == f.dueAt && s'.lastRun == Some(f.at) && s'.nextRun == NextOccurrence(s, f.at)
    requires Truthy(s.lastRun) ==> f.at - s.lastRun.value >= MIN_SPACING_MS
    ensures Tracks(s', fires + [f], f.at)
  {
    SameOccurrences(s, s');
    NextOccurrenceIsLeast(s, f.at);
    hide Slot, NextOccurrence, SameSchedule;
    assert Genuine(s', fires + [f]);
  }

  lemma TickEffect(s: Schedule, now: int)
    requires s.fireAt.None?
    ensures var (s', f) := TickOne(s, now);
      && SameSchedule(s, s')
      && (f.None? ==>
            && s'.lastRun == s.lastRun
            && (s'.nextRun.None? || s'.nextRun == s.nextRun || s'.nextRun == NextOccurrence(s, now)))
      && (f.Some? ==>
            && s.nextRun == Some(f.value.dueAt) && f.value.dueAt <= f.value.at == now && f.value.key == f.value.dueAt
            && s'.lastRun == Some(now) && s'.nextRun == NextOccurrence(s, now)
            && (Truthy(s.lastRun) ==> now - s.lastRun.value >= MIN_SPACING_MS))
  {
    NextOccurrenceIsLeast(s, now);
    hide NextOccurrence, Slot, EndOfDayWindow;
  }

  lemma TickTracks(s: Schedule, fires: seq<Fire>, before: int, now: int)
    requires Tracks(s, fires, before) && before <= now && 0 < now && s.fireAt.None?
    ensures var (s', f) := TickOne(s, now); SameSchedule(s, s') && Tracks(s', fires + if f.Some? then [f.value] else [], now)
  {
    var (s', f) := TickOne(s, now);
    TickEffect(s, now);
    NextOccurrenceIsLeast(s, now);
    hide NextOccurrence, Slot, TickOne, Tracks, SameSchedule;
    if f.Some? {
      FiringTracks(s, s', fires, before, f.value);
    } else {
      QuietTracks(s, s', fires, before, now);
      assert fires + [] == fires;
    }
  }

  lemma ApplyTracks(s: Schedule, e: Event, fires: seq<Fire>, before: int, now: int)
    requires Tracks(s, fires, before) && before <= now && s.fireAt.None?
    requires Timed(e) ==> e.now == now && now > 0
    ensures var (s', f) := Apply(s, e); SameSchedule(s, s') && Tracks(s', fires + if f.Some? then [f.value] else [], now)
  {
    if e.Tick? {
      hide TickOne, Tracks, SameSchedule;
      TickTracks(s, fires, before, now);
    } else {
      var s' := Apply(s, e).0;
      NextOccurrenceIsLeast(s, now);
      assert fires + [] == fires;
      hide NextOccurrence, Slot, Tracks, TickOne;
      QuietTracks(s, s', fires, before, now);
    }
  }

  /** The last time named in the events. */
  function LastTime(events: seq<Event>): int
    decreases |events|
  {
    if events == [] then 0
    else if Timed(events[|events| - 1]) then events[|events| - 1].now
    else LastTime(events[..|events| - 1])
  }

  lemma {:induction false} LastTimeIsLatest(events: seq<Event>)
    requires Clocked(events)
    ensures forall i :: 0 <= i < |events| && Timed(events[i]) ==> events[i].now <= LastTime(events)
    ensures LastTime(events) == 0 || exists i :: 0 <= i < |events| && Timed(events[i]) && events[i].now == LastTime(events)
    decreases |events|
  {
    if events != [] {
      var init := events[..|events| - 1];
      LastTimeIsLatest(init);
      if !Timed(events[|events| - 1]) && LastTime(init) != 0 {
        var i :| 0 <= i < |init| && Timed(init[i]) && init[i].now == LastTime(init);
        assert Timed(events[i]) && events[i].now == LastTime(init);
      }
    }
  }

  lemma LastTimeGrows(events: seq<Event>)
    requires Clocked(events) && events != []
    ensures LastTime(events[..|events| - 1]) <= LastTime(events)
  {
    var init := events[..|events| - 1];
    LastTimeIsLatest(events);
    LastTimeIsLatest(init);
    if LastTime(init) != 0 {
      var i :| 0 <= i < |init| && Timed(init[i]) && init[i].now == LastTime(init);
      assert Timed(events[i]);
    } else if LastTime(events) != 0 {
      var i :| 0 <= i < |events| && Timed(events[i]) && events[i].now == LastTime(events);
    }
  }

  lemma {:induction false} RunTracks(s: Schedule, events: seq<Event>)
    requires s.fireAt.None? && Clocked(events) && (s.nextRun.Some? ==> Slot(s, s.nextRun.value))
    ensures var (s', fires) := Run(s, events); SameSchedule(s, s') && Tracks(s', fires, LastTime(events))
    decreases |events|
  {
    if events != [] {
      var init, e := events[..|events| - 1], events[|events| - 1];
      RunTracks(s, init);
      LastTimeGrows(events);
      var (s1, fires) := Run(s, init);
      ApplyTracks(s1, e, fires, LastTime(init), LastTime(events));
    }
  }

  /** Over any run of ticks, restarts and switches, with the clock running forward and nothing edited, the automatic
      fires of a recurring schedule are for genuine slots, each fired no earlier than it is due and each due only
      after the fire before it: due times strictly increase, fires are at least 90 s apart, every slot between a
      due time and its fire is skipped for good, and no two fires claim the same occurrence. */
  lemma RecurringFires(s: Schedule, events: seq<Event>, i: nat, j: nat)
    requires s.fireAt.None? && Clocked(events) && (s.nextRun.Some? ==> Slot(s, s.nextRun.value))
    requires i < j < |Run(s, events).1|
    ensures var fires := Run(s, events).1;
      && Slot(s, fires[i].dueAt) && Slot(s, fires[j].dueAt)
      && fires[i].dueAt <= fires[i].at < fires[j].dueAt <= fires[j].at
      && fires[j].at - fires[i].at >= MIN_SPACING_MS && fires[i].key != fires[j].key
  {
    RunTracks(s, events);
    SameOccurrences(s, Run(s, events).0);
  }

  // ---- one-shots ----

  ghost predicate FiresOnce(s: Schedule, fires: seq<Fire>) {
    && IsOneShot(s) && |fires| <= 1 && (Truthy(s.lastRun) <==> |fires| == 1)
    && forall f :: f in fires ==> f.at >= s.fireAt.value && f.dueAt == s.fireAt.value
                                  && f.key == if s.lastDueAt.Some? then s.lastDueAt.value else f.dueAt
  }

  lemma ApplyFiresOnce(s: Schedule, e: Event, fires: seq<Fire>)
    requires FiresOnce(s, fires) && (Timed(e) ==> e.now > 0)
    ensures var (s', f) := Apply(s, e); SameSchedule(s, s') && FiresOnce(s', fires + if f.Some? then [f.value] else [])
  {
    hide NextOccurrence, TickRecurring;
    assert fires + [] == fires;
    if Apply(s, e).1.Some? {
      assert fires == [];
    }
  }

  /** A one-shot that has not run yet fires at most once, never before its time, whatever switches and restarts do
      afterwards. */
  lemma {:induction false} OneShotFiresAtMostOnce(s: Schedule, events: seq<Event>)
    requires IsOneShot(s) && !Truthy(s.lastRun) && Clocked(events)
    ensures var (s', fires) := Run(s, events); SameSchedule(s, s') && FiresOnce(s', fires)
    decreases |events|
  {
    if events != [] {
      var init, e := events[..|events| - 1], events[|events| - 1];
      OneShotFiresAtMostOnce(s, init);
      var (s1, fires) := Run(s, init);
      ApplyFiresOnce(s1, e, fires);
    }
  }

  /** And it does fire: a tick at or after its time that meets it switched on and not paused leaves exactly one fire, and
      the schedule switched off. */
  lemma OneShotFires(s: Schedule, events: seq<Event>)
    requires IsOneShot(s) && !Truthy(s.lastRun) && Clocked(events) && events != [] && events[|events| - 1].Tick?
    requires var s1 := Run(s, events[..|events| - 1]).0; s1.enabled && !s1.paused
    requires events[|events| - 1].now >= s.fireAt.value
    ensures |Run(s, events).1| == 1 && !Run(s, events).0.enabled
  {
    OneShotFiresAtMostOnce(s, events[..|events| - 1]);
  }

  // ---- missed slots ----

  /** A slot missed by more than the tolerance is caught up within the schedule's own window, or without one on its day. */
  predicate StillOpen(s: Schedule, missed: int, now: int) {
    if s.catchUpWindowMs.Some? then now - missed <= s.catchUpWindowMs.value else now / 86_400_000 == missed / 86_400_000
  }

  lemma WindowIsOpen(s: Schedule, missed: int, now: int)
    requires missed <= now
    ensures now <= missed + Window(s, missed) <==> StillOpen(s, missed, now)
  {
    DefaultWindowIsTheDay(missed, now);
  }

  ghost predicate Punctual(s: Schedule, fires: seq<Fire>) {
    forall f :: f in fires ==>
      && (f.late <==> f.at - f.dueAt > LATE_TOLERANCE_MS)
      && (f.late ==> IsInterval(s) || (s.catchUp && StillOpen(s, f.dueAt, f.at)))
  }

  lemma ApplyIsPunctual(s: Schedule, e: Event)
    requires s.fireAt.None?
    ensures var (s', f) := Apply(s, e); SameSchedule(s, s') && Punctual(s, if f.Some? then [f.value] else [])
  {
    hide NextOccurrence, EndOfDayWindow, StillOpen;
    var f := Apply(s, e).1;
    if f.Some? { WindowIsOpen(s, f.value.dueAt, f.value.at); }
  }

  /** A clock-mode schedule fires more than 90 s late only to catch up: it must allow that, and the slot's window must
      not have passed. By `DefaultWindowIsTheDay`, without a window of its own it fires on the slot's day or not at all. */
  lemma {:induction false} LateFiresAreCatchUps(s: Schedule, events: seq<Event>)
    requires s.fireAt.None?
    ensures SameSchedule(s, Run(s, events).0) && Punctual(s, Run(s, events).1)
    decreases |events|
  {
    if events != [] {
      var init := events[..|events| - 1];
      LateFiresAreCatchUps(s, init);
      ApplyIsPunctual(Run(s, init).0, events[|events| - 1]);
      hide Apply;
    }
  }

  /** The app was awake until `now` and ticks again at `later`, however much later. Only the first slot missed counts: 90 s
      after the last run it fires, if that is still on time, or in interval mode, or if it may be caught up and has not
      been; every later slot that has passed is dropped. */
  lemma WakingUp(s: Schedule, now: int, later: int)
    requires s.enabled && !s.paused && s.fireAt.None? && s.nextRun == NextOccurrence(s, now) && now <= later
    ensures var (s', f) := TickOne(s, later);
      if s.nextRun.None? || s.nextRun.value > later then s' == s && f == None && forall t :: now < t <= later ==> !Slot(s, t)
      else
        var missed := s.nextRun.value;
        && now < missed && Slot(s, missed) && (forall t :: now < t < missed ==> !Slot(s, t))
        && (f.Some? <==>
              && (Truthy(s.lastRun) ==> later - s.lastRun.value >= 90_000)
              && (later - missed <= 90_000 || IsInterval(s)
                  || (s.catchUp && s.lastDueAt != Some(missed) && StillOpen(s, missed, later))))
        && (f.Some? ==> f.value.dueAt == missed)
        && (Truthy(s.lastRun) && later - s.lastRun.value < 90_000 ==> s' == s)
        && (s' == s || (s'.nextRun == NextOccurrence(s, later) && forall t :: later < t < s'.nextRun.value ==> !Slot(s, t)))
  {
    NextOccurrenceIsLeast(s, now);
    NextOccurrenceIsLeast(s, later);
    hide NextOccurrence, EndOfDayWindow, Slot;
    if s.nextRun.None? {
      NoNextNoSlot(s, now);
    } else if s.nextRun.value <= later {
      WindowIsOpen(s, s.nextRun.value, later);
      hide StillOpen;
    }
  }

  /** So after more than a day of sleep, a slot missed on the very day of waking is not caught up, although its own
      window is still open: the window looked at is that of the first slot missed. */
  lemma TodaysMissIsForgotten(s: Schedule, now: int, missed: int, today: int)
    requires s.enabled && !s.paused && s.fireAt.None? && !IsInterval(s) && s.catchUp && s.catchUpWindowMs.None?
    requires s.nextRun == Some(missed) && missed < today <= now && Slot(s, today) && Day(missed) < Day(today) == Day(now)
    requires Truthy(s.lastRun) ==> now - s.lastRun.value >= MIN_SPACING_MS
    requires now - missed > LATE_TOLERANCE_MS
    ensures today <= now <= today + EndOfDayWindow(today)
    ensures var (s', f) := TickOne(s, now); f == None && s'.nextRun.Some? && s'.nextRun.value > now
  {
    DefaultWindowIsTheDay(today, now);
    DefaultWindowIsTheDay(missed, now);
    NextOccurrenceIsLeast(s, now);
    hide NextOccurrence, EndOfDayWindow;
  }

  lemma NoNextNoSlot(s: Schedule, now: int)
    requires NextOccurrence(s, now).None?
    ensures forall t :: !Slot(s, t)
  {
    NextOccurrenceIsLeast(s, now);
  }

  // ---- no slot is lost while the app stays awake ----

  /** The app ticks without a gap, starting at `from`, and the user leaves the schedule alone. */
  ghost predicate Awake(events: seq<Event>, from: int) {
    forall i :: 0 <= i < |events| ==>
      && events[i].Tick?
      && var before := if i == 0 then from else LastTime(events[..i]);
         before <= events[i].now <= before + TICK_MS
  }

  /** Distinct slots are at least this far apart. */
  function Period(s: Schedule): int {
    if IsInterval(s) then Every(s) else DAY_MS
  }

  lemma MultiplesApart(p: int, q: int, d: int)
    requires d > 0 && p * d < q * d
    ensures q * d - p * d >= d
  {
    ProductOfDifference(q, p, d);
    if q > p {
      AtLeastOnce(q - p, d);
    } else if q < p {
      ProductOfDifference(p, q, d);
      AtLeastOnce(p - q, d);
    }
  }

  lemma SlotsArePeriodApart(s: Schedule, t: int, u: int)
    requires Slot(s, t) && Slot(s, u) && t < u
    ensures u - t >= Period(s)
  {
    if IsInterval(s) {
      var every := Every(s);
      var x, y := t - Anchor(s), u - Anchor(s);
      assert x == x / every * every && y == y / every * every;
      ProductOfDifference(y / every, x / every, every);
      MultiplesApart(x / every, y / every, every);
    } else {
      assert TimeOfDay(t) == TimeOfDay(u);
      assert t == Day(t) * DAY_MS + TimeOfDay(t) && u == Day(u) * DAY_MS + TimeOfDay(u);
    }
  }

  ghost predicate HasFired(fires: seq<Fire>, t: int) {
    exists i :: 0 <= i < |fires| && fires[i].dueAt == t
  }

  /** The spacing guard will not hold up the next run. */
  predicate LastRunIsClear(s: Schedule) {
    Truthy(s.lastRun) && s.nextRun.Some? ==> s.lastRun.value + MIN_SPACING_MS <= s.nextRun.value
  }

  /** After a tick at `now`: the next run is the first slot still ahead, the slots passed since `from` have fired,
      each within a tick of its due time. */
  ghost predicate KeepsUp(s: Schedule, fires: seq<Fire>, from: int, now: int) {
    && s.enabled && !s.paused && s.fireAt.None? && s.nextRun == NextOccurrence(s, now) && from <= now
    && (forall t :: from < t <= now && Slot(s, t) ==> HasFired(fires, t))
    && (forall i :: 0 <= i < |fires| ==> from < fires[i].dueAt && fires[i].at <= fires[i].dueAt + TICK_MS)
    && LastRunIsClear(s)
  }

  lemma SameNext(s: Schedule, now: int, later: int)
    requires now <= later && (NextOccurrence(s, now).Some? ==> NextOccurrence(s, now).value > later)
    ensures NextOccurrence(s, later) == NextOccurrence(s, now)
  {
    NextOccurrenceIsLeast(s, now);
    NextOccurrenceIsLeast(s, later);
  }

  lemma OnTimeTick(s: Schedule, now: int, later: int)
    requires s.enabled && !s.paused && s.fireAt.None? && s.nextRun.Some? && now < s.nextRun.value
    requires now <= later <= now + TICK_MS && (Truthy(s.lastRun) && s.nextRun.value <= later ==> later - s.lastRun.value >= MIN_SPACING_MS)
    ensures var (s', f) := TickOne(s, later);
      if s.nextRun.value > later then s' == s && f == None
      else s' == Marked(s, later, NextOccurrence(s, later), s.nextRun, false)
           && f == Some(Fire(later, s.nextRun.value, false, s.nextRun.value))
  {
    hide NextOccurrence, EndOfDayWindow;
  }

  lemma FiringKeepsUp(s: Schedule, fires: seq<Fire>, from: int, now: int, later: int)
    requires KeepsUp(s, fires, from, now) && now <= later <= now + TICK_MS
    requires s.nextRun.Some? && now < s.nextRun.value <= later && Slot(s, s.nextRun.value)
    requires forall u :: now < u < s.nextRun.value ==> !Slot(s, u)
    requires Period(s) >= MIN_SPACING_MS + TICK_MS
    ensures KeepsUp(Marked(s, later, NextOccurrence(s, later), s.nextRun, false),
                    fires + [Fire(later, s.nextRun.value, false, s.nextRun.value)], from, later)
  {
    var s' := Marked(s, later, NextOccurrence(s, later), s.nextRun, false);
    var due := s.nextRun.value;
    var fires' := fires + [Fire(later, due, false, due)];
    SameOccurrences(s, s');
    NextOccurrenceIsLeast(s, later);
    if s'.nextRun.Some? { SlotsArePeriodApart(s, due, s'.nextRun.value); }
    forall t | from < t <= later && Slot(s', t) ensures HasFired(fires', t) {
      assert Slot(s, t);
      if t <= now {
        assert HasFired(fires, t);
        var i :| 0 <= i < |fires| && fires[i].dueAt == t;
        assert fires'[i].dueAt == t;
      } else if t == due {
        assert fires'[|fires|].dueAt == t;
      } else {
        SlotsArePeriodApart(s, due, t);
      }
    }
  }

  lemma TickKeepsUp(s: Schedule, fires: seq<Fire>, from: int, now: int, later: int)
    requires KeepsUp(s, fires, from, now) && now <= later <= now + TICK_MS && Period(s) >= MIN_SPACING_MS + TICK_MS
    ensures var (s', f) := TickOne(s, later);
      SameSchedule(s, s') && KeepsUp(s', fires + if f.Some? then [f.value] else [], from, later)
  {
    NextOccurrenceIsLeast(s, now);
    assert fires + [] == fires;
    if s.nextRun.None? {
      NoNextNoSlot(s, now);
      SameNext(s, now, later);
      assert TickOne(s, later) == (s, None);
    } else {
      var due := s.nextRun.value;
      if due <= later {
        OnTimeTick(s, now, later);
        FiringKeepsUp(s, fires, from, now, later);
      } else {
        OnTimeTick(s, now, later);
        SameNext(s, now, later);
      }
    }
  }

  lemma {:induction false} RunKeepsUp(s: Schedule, events: seq<Event>, from: int)
    requires s.enabled && !s.paused && s.fireAt.None? && LastRunIsClear(s) && s.nextRun == NextOccurrence(s, from)
    requires Awake(events, from) && from >= 0 && Period(s) >= MIN_SPACING_MS + TICK_MS
    ensures var (s', fires) := Run(s, events);
      SameSchedule(s, s') && KeepsUp(s', fires, from, if events == [] then from else LastTime(events))
    decreases |events|
  {
    if events != [] {
      var init, e := events[..|events| - 1], events[|events| - 1];
      assert forall i :: 0 <= i < |init| ==> init[..i] == events[..i] && init[i] == events[i];
      RunKeepsUp(s, init, from);
      var (s1, fires) := Run(s, init);
      TickKeepsUp(s1, fires, from, if init == [] then from else LastTime(init), e.now);
    }
  }

  lemma ClockGoesOn(events: seq<Event>, e: Event)
    requires Clocked(events) && e.Tick? && e.now > 0
    requires forall i :: 0 <= i < |events| && Timed(events[i]) ==> events[i].now <= e.now
    ensures Clocked(events + [e])
  {
  }

  /** The events but the last, and the last. */
  lemma AwakeSnoc(events: seq<Event>, from: int)
    requires Awake(events, from) && events != []
    ensures var init, e := events[..|events| - 1], events[|events| - 1];
      && Awake(init, from) && e.Tick? && events == init + [e]
      && (if init == [] then from else LastTime(init)) <= e.now == LastTime(events)
  {
    var init := events[..|events| - 1];
    assert forall i :: 0 <= i < |init| ==> init[..i] == events[..i] && init[i] == events[i];
  }

  lemma {:induction false} AwakeIsClocked(events: seq<Event>, from: int)
    requires Awake(events, from) && from > 0
    ensures Clocked(events) && (events != [] ==> LastTime(events) >= from)
    decreases |events|
  {
    if events != [] {
      var init := events[..|events| - 1];
      AwakeSnoc(events, from);
      AwakeIsClocked(init, from);
      LastTimeIsLatest(init);
      hide Awake, Clocked, LastTime;
      assert forall i :: 0 <= i < |init| && Timed(init[i]) ==> init[i].now <= events[|events| - 1].now by {
        assert init != [] ==> LastTime(init) <= events[|events| - 1].now;
      }
      ClockGoesOn(init, events[|events| - 1]);
    }
  }

  /** While the app stays awake, the schedule's period is at least two minutes and its last run, if any, was at least
      90 s before its next, every slot fires, on time to within a tick, and by `RecurringFires` only once: the fires are
      exactly the slots that have passed. */
  lemma EverySlotFires(s: Schedule, events: seq<Event>, from: int, t: int)
    requires s.enabled && !s.paused && s.fireAt.None? && LastRunIsClear(s) && s.nextRun == NextOccurrence(s, from)
    requires Awake(events, from) && from > 0 && Period(s) >= MIN_SPACING_MS + TICK_MS && events != []
    ensures var fires := Run(s, events).1;
      from < t <= LastTime(events) && Slot(s, t) <==> exists i :: 0 <= i < |fires| && fires[i].dueAt == t
    ensures forall f :: f in Run(s, events).1 ==> f.at <= f.dueAt + TICK_MS
  {
    RunKeepsUp(s, events, from);
    AwakeIsClocked(events, from);
    NextOccurrenceIsLeast(s, from);
    RunTracks(s, events);
    SameOccurrences(s, Run(s, events).0);
    hide Run, NextOccurrence, Slot, Awake, Clocked;
    PassedSlotsFired(Run(s, events).0, Run(s, events).1, from, LastTime(events), t);
  }

  /** It is the same for a schedule without a next run, such as one just switched on, from the first launch or tick that
      meets it on, if it last ran at least 90 s before. */
  lemma EverySlotFiresOnceMet(s: Schedule, first: Event, events: seq<Event>, t: int)
    requires s.enabled && !s.paused && s.fireAt.None? && s.nextRun.None? && Timed(first) && first.now > 0
    requires Truthy(s.lastRun) ==> s.lastRun.value + MIN_SPACING_MS <= first.now
    requires Awake(events, first.now) && Period(s) >= MIN_SPACING_MS + TICK_MS && events != []
    ensures Apply(s, first).1 == None
    ensures var fires := Run(Apply(s, first).0, events).1;
      first.now < t <= LastTime(events) && Slot(s, t) <==> exists i :: 0 <= i < |fires| && fires[i].dueAt == t
  {
    var s' := Apply(s, first).0;
    MetWithoutNextRun(s, first);
    hide Run, Apply, NextOccurrence, Slot, Awake, Period;
    EverySlotFires(s', events, first.now, t);
  }

  lemma MetWithoutNextRun(s: Schedule, first: Event)
    requires s.enabled && !s.paused && s.fireAt.None? && s.nextRun.None? && Timed(first)
    requires Truthy(s.lastRun) ==> s.lastRun.value + MIN_SPACING_MS <= first.now
    ensures var (s', f) := Apply(s, first);
      && f == None && s'.enabled && !s'.paused && s'.fireAt.None? && LastRunIsClear(s') && Period(s') == Period(s)
      && s'.nextRun == NextOccurrence(s', first.now) && forall u :: Slot(s, u) <==> Slot(s', u)
  {
    var s' := Apply(s, first).0;
    NextOccurrenceIsLeast(s, first.now);
    assert SameSchedule(s, s') && s'.nextRun == NextOccurrence(s, first.now) && Period(s') == Period(s) by {
      hide NextOccurrence, Slot;
    }
    SameOccurrences(s, s');
    hide NextOccurrence, Slot, Period, EndOfDayWindow;
  }

  /** A next run that has been set, or the time of a one-shot, is what the record shows through every launch and tick before
      it, and nothing fires. */
  lemma {:induction false} NextRunStays(s: Schedule, events: seq<Event>, due: int)
    requires s.enabled && !s.paused && (if s.fireAt.Some? then s.fireAt == Some(due) && due != 0 else s.nextRun == Some(due))
    requires forall i :: 0 <= i < |events| ==> Timed(events[i]) && events[i].now < due
    ensures var (s', fires) := Run(s, events);
      && fires == [] && s'.enabled && !s'.paused && s'.fireAt == s.fireAt
      && (events != [] || s.fireAt.None? ==> s'.nextRun == Some(due))
    decreases |events|
  {
    if events != [] {
      NextRunStays(s, events[..|events| - 1], due);
      hide NextOccurrence, EndOfDayWindow, CatchesUp;
    }
  }

  lemma PassedSlotsFired(s: Schedule, fires: seq<Fire>, from: int, now: int, t: int)
    requires KeepsUp(s, fires, from, now) && Tracks(s, fires, now)
    ensures from < t <= now && Slot(s, t) <==> exists i :: 0 <= i < |fires| && fires[i].dueAt == t
    ensures forall f :: f in fires ==> f.at <= f.dueAt + TICK_MS
  {
    assert HasFired(fires, t) <==> exists i :: 0 <= i < |fires| && fires[i].dueAt == t;
    hide Slot;
    if i :| 0 <= i < |fires| && fires[i].dueAt == t {
      assert fires[i].at <= fires[|fires| - 1].at;
    }
  }

  // ---- switched off or paused ----

  /** What the user last said, or what was so at first. */
  function OnSaid(s: Schedule, events: seq<Event>): bool {
    if events == [] then s.enabled
    else if events[|events| - 1].Switch? then events[|events| - 1].on
    else OnSaid(s, events[..|events| - 1])
  }

  function PausedSaid(s: Schedule, events: seq<Event>): bool {
    if events == [] then s.paused
    else if events[|events| - 1].Pause? then events[|events| - 1].on
    else PausedSaid(s, events[..|events| - 1])
  }

  lemma ApplyObeys(s: Schedule, e: Event)
    ensures var (s', f) := Apply(s, e);
      && (f.Some? ==> e.Tick? && s.enabled && !s.paused)
      && s'.paused == (if e.Pause? then e.on else s.paused)
      && (if e.Switch? then s'.enabled == e.on else (s'.enabled ==> s.enabled) && (s.fireAt.None? ==> s'.enabled == s.enabled))
      && s'.fireAt == s.fireAt
  {
    hide NextOccurrence, EndOfDayWindow, CatchesUp;
  }

  lemma {:induction false} RunObeys(s: Schedule, events: seq<Event>)
    ensures var s' := Run(s, events).0;
      && s'.paused == PausedSaid(s, events) && (s'.enabled ==> OnSaid(s, events)) && (s.fireAt.None? ==> s'.enabled == OnSaid(s, events))
      && s'.fireAt == s.fireAt
    decreases |events|
  {
    if events != [] {
      RunObeys(s, events[..|events| - 1]);
      ApplyObeys(Run(s, events[..|events| - 1]).0, events[|events| - 1]);
      hide Apply;
    }
  }

  /** A schedule that is switched off or paused does not fire: over every run, whatever fires does so at a tick, switched
      on and not paused. */
  lemma OnlyFiresWhileOn(s: Schedule, events: seq<Event>, e: Event)
    requires |Run(s, events + [e]).1| != |Run(s, events).1|
    ensures e.Tick? && OnSaid(s, events) && !PausedSaid(s, events)
    ensures Run(s, events + [e]).1[..|Run(s, events).1|] == Run(s, events).1
    ensures |Run(s, events + [e]).1| == |Run(s, events).1| + 1 && Run(s, events + [e]).1[|Run(s, events).1|].at == e.now
  {
    assert (events + [e])[..|events + [e]| - 1] == events;
    RunObeys(s, events);
    ApplyObeys(Run(s, events).0, e);
    FiresNow(Run(s, events).0, e);
    hide Apply;
  }

  lemma FiresNow(s: Schedule, e: Event)
    ensures var f := Apply(s, e).1; f.Some? ==> e.Tick? && f.value.at == e.now
  {
    hide NextOccurrence, EndOfDayWindow, CatchesUp;
  }

  /** The event finds the schedule, or leaves it, unable to fire. */
  predicate Shelves(s: Schedule, events: seq<Event>, i: nat)
    requires i < |events|
  {
    match events[i]
    case Tick(_) => !OnSaid(s, events[..i]) || PausedSaid(s, events[..i])
    case Start(_) => !OnSaid(s, events[..i])
    case Switch(on) => !on
    case Pause(_) => false
  }

  /** Nothing due at or before `u` is left to fire, nor has it fired since there were `n` fires. */
  ghost predicate Forgets(s: Schedule, fires: seq<Fire>, n: nat, u: int) {
    && (s.nextRun.Some? ==> s.nextRun.value > u) && s.fireAt.None?
    && forall k :: n <= k < |fires| ==> fires[k].dueAt > u
  }

  lemma StillForgets(s: Schedule, e: Event, fires: seq<Fire>, n: nat, u: int)
    requires Forgets(s, fires, n, u) && (Timed(e) ==> u <= e.now)
    ensures var (s', f) := Apply(s, e); Forgets(s', fires + if f.Some? then [f.value] else [], n, u)
  {
    assert fires + [] == fires;
    if Timed(e) {
      NextOccurrenceIsLeast(s, e.now);
      hide NextOccurrence, EndOfDayWindow, Slot;
      if e.Tick? { TickEffect(s, e.now); hide TickOne; }
    }
  }

  lemma ShelvedForgets(s: Schedule, events: seq<Event>, i: nat)
    requires s.fireAt.None? && i < |events| && Shelves(s, events, i)
    ensures Run(s, events[..i + 1]).0.nextRun == None && Run(s, events[..i + 1]).0.fireAt == None
    ensures Run(s, events[..i + 1]).1 == Run(s, events[..i]).1
  {
    var past := events[..i + 1];
    assert past[..|past| - 1] == events[..i] && past[|past| - 1] == events[i];
    RunObeys(s, events[..i]);
    var s1 := Run(s, events[..i]).0;
    assert Apply(s1, events[i]).0.nextRun == None && Apply(s1, events[i]).1 == None;
    assert Run(s, events[..i]).1 + [] == Run(s, events[..i]).1;
    ApplyObeys(s1, events[i]);
    hide Apply;
  }

  lemma RunSnoc(s: Schedule, events: seq<Event>, n: nat)
    requires n < |events|
    ensures var (s1, fires) := Run(s, events[..n]);
      var (s2, f) := Apply(s1, events[n]);
      Run(s, events[..n + 1]) == (s2, fires + if f.Some? then [f.value] else [])
  {
    var past := events[..n + 1];
    assert past[..|past| - 1] == events[..n] && past[|past| - 1] == events[n];
    hide Apply;
  }

  lemma {:induction false} ForgottenUpTo(s: Schedule, events: seq<Event>, i: nat, n: nat)
    requires s.fireAt.None? && Clocked(events) && i < n <= |events| && Shelves(s, events, i)
    ensures Forgets(Run(s, events[..n]).0, Run(s, events[..n]).1, |Run(s, events[..i]).1|, LastTime(events[..i + 1]))
    decreases n - i
  {
    hide Run, Apply, Shelves, LastTime, Clocked;
    ShelvedForgets(s, events, i);
    if n > i + 1 {
      ForgottenUpTo(s, events, i, n - 1);
      RunSnoc(s, events, n - 1);
      LatestUpTo(events, i + 1, n - 1);
      hide Forgets;
      StillForgets(Run(s, events[..n - 1]).0, events[n - 1], Run(s, events[..n - 1]).1, |Run(s, events[..i]).1|, LastTime(events[..i + 1]));
    }
  }

  lemma LatestUpTo(events: seq<Event>, i: nat, n: nat)
    requires Clocked(events) && i <= n < |events|
    ensures Timed(events[n]) ==> LastTime(events[..i]) <= events[n].now
  {
    LastTimeIsLatest(events[..i]);
  }

  /** What a recurring schedule misses while it is off or paused stays missed: once a tick or a launch has met it so, or it
      has been switched off, nothing that was due by then fires any more. */
  lemma MissedWhileOffStaysMissed(s: Schedule, events: seq<Event>, i: nat, k: nat)
    requires s.fireAt.None? && Clocked(events) && i < |events| && Shelves(s, events, i)
    requires |Run(s, events[..i]).1| <= k < |Run(s, events).1|
    ensures Run(s, events).1[k].dueAt > LastTime(events[..i + 1])
  {
    assert events[..|events|] == events;
    hide Run, Shelves;
    ForgottenUpTo(s, events, i, |events|);
  }

  /** The record tells of the last fire. */
  lemma {:induction false} RecordIsTheLastFire(s: Schedule, events: seq<Event>)
    ensures var (s', fires) := Run(s, events);
      if fires == [] then s'.lastRun == s.lastRun && s'.lastDueAt == s.lastDueAt && s'.lastFireLate == s.lastFireLate
      else
        var last := fires[|fires| - 1];
        && s'.lastRun == Some(last.at) && s'.lastFireLate == last.late
        && s'.lastDueAt == if Truthy(s.fireAt) then s.lastDueAt else Some(last.dueAt)
    ensures Run(s, events).0.fireAt == s.fireAt
    decreases |events|
  {
    if events != [] {
      var init := events[..|events| - 1];
      RecordIsTheLastFire(s, init);
      FireIsRecorded(Run(s, init).0, events[|events| - 1]);
      assert Run(s, init).1 + [] == Run(s, init).1;
      hide Apply;
    }
  }

  lemma FireIsRecorded(s: Schedule, e: Event)
    ensures var (s', f) := Apply(s, e);
      && s'.fireAt == s.fireAt
      && (f.None? ==> s'.lastRun == s.lastRun && s'.lastDueAt == s.lastDueAt && s'.lastFireLate == s.lastFireLate)
      && (f.Some? ==>
            && s'.lastRun == Some(f.value.at) && s'.lastFireLate == f.value.late
            && s'.lastDueAt == if Truthy(s.fireAt) then s.lastDueAt else Some(f.value.dueAt))
  {
    hide NextOccurrence, EndOfDayWindow, CatchesUp;
  }

  // ---- where the code departs from its own comments ----

  /** The runner is said never to fire for times missed while the app was closed, and interval schedules never to
      catch up. Every interval schedule whose next run has passed does fire that stale slot at the first tick after
      a restart, once and marked late, however old the slot is. */
  lemma StaleIntervalSlotFires(s: Schedule, now: int, due: int)
    requires s.enabled && !s.paused && s.fireAt.None? && IsInterval(s) && s.nextRun == Some(due) && due + LATE_TOLERANCE_MS < now
    requires Truthy(s.lastRun) ==> s.lastRun.value <= due
    ensures TickOne(Started(s, now), now).1 == Some(Fire(now, due, true, due))
  {
    hide NextOccurrence;
  }

  function EveryMinute(nextRun: int): Schedule {
    Schedule("", "interval", 0, Some(1), None, true, false, None, Some(nextRun), None, None, false, false, None)
  }

  predicate Minutely(s: Schedule, next: int, last: Option<int>) {
    && IsInterval(s) && s.everyMinutes == Some(1) && Anchor(s) == 0 && s.enabled && !s.paused && s.fireAt.None?
    && s.nextRun == Some(next) && s.lastRun == last
  }

  /** One more tick of an every-minute schedule that has a next run. */
  lemma MinuteTick(s: Schedule, events: seq<Event>, now: int, next: int, last: Option<int>)
    requires Minutely(Run(s, events).0, next, last) && last != Some(0)
    ensures var (s', fires) := Run(s, events + [Tick(now)]);
      if next > now || (last.Some? && now - last.value < MIN_SPACING_MS) then Minutely(s', next, last) && fires == Run(s, events).1
      else Minutely(s', (now / MINUTE_MS + 1) * MINUTE_MS, Some(now))
           && fires == Run(s, events).1 + [Fire(now, next, now - next > LATE_TOLERANCE_MS, next)]
  {
    assert (events + [Tick(now)])[..|events + [Tick(now)]| - 1] == events;
    MinuteEffect(Run(s, events).0, now, next, last);
    hide TickOne, Minutely;
  }

  lemma MinutelyNext(s: Schedule, next: int, last: Option<int>)
    requires Minutely(s, next, last)
    ensures s.nextRun == Some(next)
  {
  }

  lemma MinuteEffect(s: Schedule, now: int, next: int, last: Option<int>)
    requires Minutely(s, next, last) && last != Some(0)
    ensures var (s', f) := TickOne(s, now);
      if next > now || (last.Some? && now - last.value < MIN_SPACING_MS) then Minutely(s', next, last) && f == None
      else Minutely(s', (now / MINUTE_MS + 1) * MINUTE_MS, Some(now)) && f == Some(Fire(now, next, now - next > LATE_TOLERANCE_MS, next))
  {
  }

  ghost predicate FiresFor(fires: seq<Fire>, i: nat, due: int) {
    i < |fires| && fires[i].dueAt == due
  }

  lemma EarlierFire(s: Schedule, events: seq<Event>, i: nat, t: int, j: nat, u: int)
    requires s.fireAt.None? && Clocked(events) && (s.nextRun.Some? ==> Slot(s, s.nextRun.value)) && t < u
    requires FiresFor(Run(s, events).1, i, t) && FiresFor(Run(s, events).1, j, u)
    ensures var fires := Run(s, events).1; t <= fires[i].at < u <= fires[j].at && fires[i].at + MIN_SPACING_MS <= fires[j].at
  {
    RunTracks(s, events);
    hide Run, Slot, Clocked;
    if j < i {
      RecurringFires(s, events, j, i);
    } else if i < j {
      RecurringFires(s, events, i, j);
    }
  }

  /** The two-minute bound is needed: the 90 s guard keeps a schedule meant to run every minute from firing four of its
      slots in a row, whatever the ticks. */
  lemma MinuteSchedulesLoseSlots(s: Schedule, events: seq<Event>, t: int)
    requires s.fireAt.None? && Clocked(events) && (s.nextRun.Some? ==> Slot(s, s.nextRun.value))
    ensures exists k :: 0 <= k < 4 && !HasFired(Run(s, events).1, t + k * MINUTE_MS)
  {
    var fires := Run(s, events).1;
    if forall k :: 0 <= k < 4 ==> HasFired(fires, t + k * MINUTE_MS) {
      var a := FireOf(fires, t, 0);
      var b := FireOf(fires, t, 1);
      var c := FireOf(fires, t, 2);
      var d := FireOf(fires, t, 3);
      EarlierFire(s, events, a, t, b, t + MINUTE_MS);
      EarlierFire(s, events, b, t + MINUTE_MS, c, t + 2 * MINUTE_MS);
      EarlierFire(s, events, c, t + 2 * MINUTE_MS, d, t + 3 * MINUTE_MS);
    }
  }

  lemma FireOf(fires: seq<Fire>, t: int, k: int) returns (i: nat)
    requires HasFired(fires, t + k * MINUTE_MS)
    ensures FiresFor(fires, i, t + k * MINUTE_MS)
  {
    i :| 0 <= i < |fires| && fires[i].dueAt == t + k * MINUTE_MS;
  }

  /** The first slot lost on ticks every 30 s without fail is that at 300 s. */
  lemma FirstMinuteSlotLost()
    ensures var s := EveryMinute(120_000);
      var events := [Tick(120_000), Tick(150_000), Tick(180_000), Tick(210_000), Tick(240_000), Tick(270_000), Tick(300_000)];
      && Slot(s, 300_000) && Run(s, events).0.nextRun == Some(360_000)
      && Run(s, events).1 == [Fire(120_000, 120_000, false, 120_000), Fire(210_000, 180_000, false, 180_000), Fire(300_000, 240_000, false, 240_000)]
  {
    var s := EveryMinute(120_000);
    var e1 := [] + [Tick(120_000)];
    var e3, e5 := e1 + [Tick(150_000)] + [Tick(180_000)], e1 + [Tick(150_000)] + [Tick(180_000)] + [Tick(210_000)] + [Tick(240_000)];
    var e6 := e5 + [Tick(270_000)];
    assert Minutely(Run(s, []).0, 120_000, None) && Run(s, []).1 == [] && IsInterval(s) && Slot(s, 300_000);
    hide Run, Minutely, Slot;
    MinuteTick(s, [], 120_000, 120_000, None);
    MinuteTick(s, e1, 150_000, 180_000, Some(120_000));
    MinuteTick(s, e1 + [Tick(150_000)], 180_000, 180_000, Some(120_000));
    MinuteTick(s, e3, 210_000, 180_000, Some(120_000));
    MinuteTick(s, e3 + [Tick(210_000)], 240_000, 240_000, Some(210_000));
    MinuteTick(s, e5, 270_000, 240_000, Some(210_000));
    MinuteTick(s, e6, 300_000, 240_000, Some(210_000));
    assert e6 + [Tick(300_000)] ==
           [Tick(120_000), Tick(150_000), Tick(180_000), Tick(210_000), Tick(240_000), Tick(270_000), Tick(300_000)];
    MinutelyNext(Run(s, e6 + [Tick(300_000)]).0, 360_000, Some(300_000));
  }
}
