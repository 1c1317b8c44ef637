/** Browser watches over whole runs: how long a watch is active, when it evaluates, and what its record shows. */
module BrowserWatchPace {
  import opened Options
  import opened BrowserWatches
  import opened BrowserWatchRuns

  // ---- what ends a watch ----

  /** Event `m` cancels a watch that is still active. */
  ghost predicate Ending(views: seq<View>, events: seq<Event>, born: int, m: nat)
    requires IsRun(views, events, born) && m < |events|
  {
    match events[m]
    case Ticked(now, _) => views[0].rec.expiresAt <= now
    case Answered(_, _) => TrailingErrors(HistoryOf(views, events, m + 1).results) == 5
    case Posted(_, ok) => ok && !views[0].rec.repeat
    case Cancelled => true
  }

  function ReasonOf(e: Event): Reason {
    match e
    case Ticked(_, _) => Expired
    case Answered(_, _) => InvalidCondition
    case Posted(_, _) => FiredOnce
    case Cancelled => Manual
  }

  lemma NextRecord(v: View, e: Event)
    requires Enabled(v, e)
    ensures var w, w' := v.rec, Next(v, e).rec;
      && (!w.active ==> !w'.active && w'.cancelReason == w.cancelReason)
      && (w.active && !w'.active ==> w'.cancelReason == Some(ReasonOf(e)))
      && (w.active && !e.Answered? ==>
            (w'.active <==> match e case Ticked(now, _) => now < w.expiresAt case Posted(_, ok) => !ok || w.repeat case _ => false))
      && (w.active && w'.active ==> w'.cancelReason == w.cancelReason)
  {
  }

  lemma NextKeepsTerms(v: View, e: Event)
    requires Enabled(v, e)
    ensures var w, w' := v.rec, Next(v, e).rec;
      w'.intervalMs == w.intervalMs && w'.expiresAt == w.expiresAt && w'.repeat == w.repeat && w'.createdAt == w.createdAt
  {
  }

  lemma AnswerEnds(v: View, h: History, e: Event)
    requires StreakTracks(v, h) && Enabled(v, e) && e.Answered? && v.rec.active
    ensures Next(v, e).rec.active <==> TrailingErrors(Note(h, v, e).results) != 5
  {
    SnocTrailing(h.results, e.result);
    hide TrailingErrors;
  }

  lemma {:induction false} RecordKept(views: seq<View>, events: seq<Event>, born: int, n: nat)
    requires IsRun(views, events, born) && n < |views|
    ensures var w, w' := views[0].rec, views[n].rec;
      w'.intervalMs == w.intervalMs && w'.expiresAt == w.expiresAt && w'.repeat == w.repeat && w'.createdAt == w.createdAt
  {
    if n > 0 {
      RecordKept(views, events, born, n - 1);
      RunStep(views, events, born, n - 1);
      hide IsRun, Inv, Next, Enabled;
      NextKeepsTerms(views[n - 1], events[n - 1]);
    }
  }

  /** One event of a run, and whether it ends the watch. */
  lemma EventEnds(views: seq<View>, events: seq<Event>, born: int, n: nat)
    requires IsRun(views, events, born) && n < |events|
    ensures views[n + 1].rec.active <==> views[n].rec.active && !Ending(views, events, born, n)
    ensures views[n].rec.active && !views[n + 1].rec.active ==> views[n + 1].rec.cancelReason == Some(ReasonOf(events[n]))
    ensures views[n].rec.active == views[n + 1].rec.active ==> views[n + 1].rec.cancelReason == views[n].rec.cancelReason
  {
    RunStep(views, events, born, n);
    RecordKept(views, events, born, n);
    var h := HistoryOf(views, events, n);
    assert StreakTracks(views[n], h) by { InvTracks(views[n], h, Clock(events, n, born)); }
    hide IsRun, Inv, Next, Enabled, Note, HistoryOf, StreakTracks, TrailingErrors, Clock;
    NextRecord(views[n], events[n]);
    if events[n].Answered? && views[n].rec.active { AnswerEnds(views[n], h, events[n]); }
  }

  /** A watch is active until it is cancelled, expires at a tick, sees five identical errors in a row, or, a one-shot, has
      posted. */
  lemma {:induction false} ActiveUntilEnded(views: seq<View>, events: seq<Event>, born: int, n: nat)
    requires IsRun(views, events, born) && n < |views|
    ensures views[n].rec.active <==> forall m :: 0 <= m < n ==> !Ending(views, events, born, m)
    ensures views[n].rec.active ==> views[n].rec.cancelReason == None
  {
    if n > 0 {
      ActiveUntilEnded(views, events, born, n - 1);
      EventEnds(views, events, born, n - 1);
      hide IsRun, Ending;
    }
  }

  /** And from then on it gives that as the reason. */
  lemma {:induction false} ReasonIsTheFirstEnd(views: seq<View>, events: seq<Event>, born: int, m: nat, n: nat)
    requires IsRun(views, events, born) && m < n < |views| && views[m].rec.active && Ending(views, events, born, m)
    ensures !views[n].rec.active && views[n].rec.cancelReason == Some(ReasonOf(events[m]))
    decreases n - m
  {
    EventEnds(views, events, born, n - 1);
    if m + 1 < n { ReasonIsTheFirstEnd(views, events, born, m, n - 1); }
    hide IsRun, Ending;
  }

  // ---- when a watch looks at its page ----

  /** The tick at `n` finds the watch due: active, not expired, no evaluation under way, and its interval, less the
      tolerance of 200 ms, gone by since it last looked or was created. */
  ghost predicate Looks(views: seq<View>, events: seq<Event>, born: int, n: nat)
    requires n < |events| && n < |views|
    decreases n, 1
  {
    && events[n].Ticked? && views[n].rec.active && events[n].now < views[0].rec.expiresAt && views[n].pending == []
    && events[n].now - LastLook(views, events, born, n) >= views[0].rec.intervalMs - 200
  }

  ghost function LastLook(views: seq<View>, events: seq<Event>, born: int, n: nat): int
    requires n <= |events| && n <= |views|
    decreases n, 0
  {
    if n == 0 then born
    else if Looks(views, events, born, n - 1) then events[n - 1].now
    else LastLook(views, events, born, n - 1)
  }

  /** What the record shows: the last result that came back, a post included, or that there was no browser. */
  ghost function LastShown(views: seq<View>, events: seq<Event>, born: int, n: nat): Option<Shown>
    requires n <= |events| && n <= |views|
  {
    if n == 0 then None
    else
      match events[n - 1]
      case Ticked(_, browser) =>
        if Looks(views, events, born, n - 1) && !browser then Some(NoBrowser) else LastShown(views, events, born, n - 1)
      case Answered(_, result) =>
        if result == True && !Known(views[n - 1]) then LastShown(views, events, born, n - 1) else Some(Evaluated(result))
      case Posted(_, _) => Some(Evaluated(True))
      case Cancelled => LastShown(views, events, born, n - 1)
  }

  /** The look that the watch goes by is the last one, and the record shows what came of it. */
  ghost predicate GoesBy(v: View, look: int, shown: Option<Shown>) {
    && (v.pending == [] && v.rec.active ==> LastEval(v.rec) == look)
    && (v.pending != [] ==> v.pending[0].at == look)
    && v.rec.lastResult == shown
  }

  lemma TickGoesBy(v: View, h: History, e: Event, look: int, shown: Option<Shown>)
    requires OneEvaluation(v) && GoesBy(v, look, shown) && e.Ticked?
    ensures var looks := v.rec.active && e.now < v.rec.expiresAt && v.pending == [] && e.now - look >= v.rec.intervalMs - 200;
      && GoesBy(Next(v, e), if looks then e.now else look, if looks && !e.browser then Some(NoBrowser) else shown)
      && Note(h, v, e).starts == h.starts + (if looks && e.browser then [e.now] else [])
      && (looks && !e.browser ==> Next(v, e).rec.lastEvalAt == Some(e.now))
  {
    assert h.starts + [] == h.starts;
  }

  lemma ReturnGoesBy(v: View, e: Event, look: int, shown: Option<Shown>)
    requires OneEvaluation(v) && GoesBy(v, look, shown) && Enabled(v, e) && !e.Ticked?
    ensures GoesBy(Next(v, e), look,
                   if e.Cancelled? || (e.Answered? && e.result == True && !Known(v)) then shown
                   else Some(Evaluated(if e.Answered? then e.result else True)))
  {
    if e.Answered? || e.Posted? {
      assert e.eval == 0 && v.pending == [v.pending[0]] && v.pending[..0] + v.pending[1..] == [];
    }
  }

  lemma InvOneEvaluation(v: View, h: History, now: int)
    requires Inv(v, h, now)
    ensures OneEvaluation(v)
  {
  }

  lemma {:induction false} RunGoesBy(views: seq<View>, events: seq<Event>, born: int, n: nat)
    requires IsRun(views, events, born) && n < |views|
    ensures GoesBy(views[n], LastLook(views, events, born, n), LastShown(views, events, born, n))
  {
    if n > 0 {
      RunGoesBy(views, events, born, n - 1);
      RunStep(views, events, born, n - 1);
      RecordKept(views, events, born, n - 1);
      InvOneEvaluation(views[n - 1], HistoryOf(views, events, n - 1), Clock(events, n - 1, born));
      hide IsRun, Inv, Next, Enabled, Note, HistoryOf, OneEvaluation, GoesBy, Known, Clock;
      var v, look, shown := views[n - 1], LastLook(views, events, born, n - 1), LastShown(views, events, born, n - 1);
      var looks := Looks(views, events, born, n - 1);
      assert LastLook(views, events, born, n) == if looks then events[n - 1].now else look;
      if events[n - 1].Ticked? {
        TickGoesBy(v, HistoryOf(views, events, n - 1), events[n - 1], look, shown);
        assert looks <==> v.rec.active && events[n - 1].now < v.rec.expiresAt && v.pending == [] && events[n - 1].now - look >= v.rec.intervalMs - 200;
      } else {
        ReturnGoesBy(v, events[n - 1], look, shown);
        assert !looks;
      }
    }
  }

  /** A tick starts an evaluation if and only if it finds the watch due and a browser connected. Without a browser it only
      notes that; the next look is an interval later all the same. */
  lemma LooksExactlyWhenDue(views: seq<View>, events: seq<Event>, born: int, n: nat)
    requires IsRun(views, events, born) && n < |events| && events[n].Ticked?
    ensures var looks := Looks(views, events, born, n);
      && HistoryOf(views, events, n + 1).starts == HistoryOf(views, events, n).starts + (if looks && events[n].browser then [events[n].now] else [])
      && (looks && !events[n].browser ==> views[n + 1].rec.lastEvalAt == Some(events[n].now))
  {
    RunGoesBy(views, events, born, n);
    RunStep(views, events, born, n);
    RecordKept(views, events, born, n);
    InvOneEvaluation(views[n], HistoryOf(views, events, n), Clock(events, n, born));
    hide IsRun, Inv, Next, Enabled, Note, HistoryOf, OneEvaluation, GoesBy, Clock;
    TickGoesBy(views[n], HistoryOf(views, events, n), events[n], LastLook(views, events, born, n), LastShown(views, events, born, n));
  }

  /** The record shows the last result that came back, or that no browser was there; and whether a post ever failed. */
  lemma {:induction false} RecordShowsTheLast(views: seq<View>, events: seq<Event>, born: int, n: nat)
    requires IsRun(views, events, born) && n < |views|
    ensures views[n].rec.lastResult == LastShown(views, events, born, n)
    ensures views[n].rec.fireFailed <==> exists m :: 0 <= m < n && events[m].Posted? && !events[m].ok
  {
    RunGoesBy(views, events, born, n);
    if n > 0 {
      RecordShowsTheLast(views, events, born, n - 1);
      RunStep(views, events, born, n - 1);
      hide IsRun, Inv;
      FailureIsNoted(views[n - 1], events[n - 1]);
    }
  }

  lemma FailureIsNoted(v: View, e: Event)
    requires Enabled(v, e)
    ensures Next(v, e).rec.fireFailed <==> v.rec.fireFailed || (e.Posted? && !e.ok)
  {
  }

  // ---- how late an evaluation can be ----

  /** From event `m` to event `n` ticks are at most `period` apart, and find a browser and no evaluation under way. */
  ghost predicate Regular(views: seq<View>, events: seq<Event>, born: int, m: nat, n: nat, period: nat)
    requires IsRun(views, events, born)
  {
    forall k :: m <= k < n && k < |events| && events[k].Ticked? ==>
      && events[k].now <= Clock(events, k, born) + period
      && events[k].browser && views[k].rec.active && views[k].pending == [] && events[k].now < views[0].rec.expiresAt
  }

  /** As long as evaluations return before the next is due, one starts at most an interval and the time between two ticks
      after the watch last looked. */
  lemma {:induction false} EvaluatesInTime(views: seq<View>, events: seq<Event>, born: int, m: nat, n: nat, period: nat)
    requires IsRun(views, events, born) && m <= n < |views| && Regular(views, events, born, m, n, period)
    requires var due := LastLook(views, events, born, m) + views[0].rec.intervalMs - 200;
      Clock(events, m, born) < due && due + period < Clock(events, n, born)
    ensures var due := LastLook(views, events, born, m) + views[0].rec.intervalMs - 200;
      exists start :: start in HistoryOf(views, events, n).starts && due <= start <= due + period
    decreases n - m
  {
    var due := LastLook(views, events, born, m) + views[0].rec.intervalMs - 200;
    var k := FirstDue(events, born, m, n, due);
    NoLookBefore(views, events, born, m, k);
    LooksExactlyWhenDue(views, events, born, k);
    assert Looks(views, events, born, k);
    assert events[k].now in HistoryOf(views, events, k + 1).starts;
    StartsStay(views, events, born, k + 1, n, events[k].now);
    hide IsRun, HistoryOf, Looks;
  }

  /** The first tick at or after `due`. */
  lemma FirstDue(events: seq<Event>, born: int, m: nat, n: nat, due: int) returns (k: nat)
    requires m <= n <= |events| && Clock(events, m, born) < due <= Clock(events, n, born)
    ensures m <= k < n && events[k].Ticked? && events[k].now >= due
    ensures forall i :: m <= i <= k ==> Clock(events, i, born) < due
  {
    k := m;
    while Clock(events, k + 1, born) < due
      invariant m <= k < n && forall i :: m <= i <= k ==> Clock(events, i, born) < due
      decreases n - k
    {
      k := k + 1;
    }
    assert Clock(events, k, born) < due;
  }

  lemma {:induction false} NoLookBefore(views: seq<View>, events: seq<Event>, born: int, m: nat, k: nat)
    requires IsRun(views, events, born) && m <= k < |views|
    requires forall i :: m <= i <= k ==> Clock(events, i, born) < LastLook(views, events, born, m) + views[0].rec.intervalMs - 200
    ensures LastLook(views, events, born, k) == LastLook(views, events, born, m)
    decreases k - m
  {
    if m < k {
      NoLookBefore(views, events, born, m, k - 1);
      assert events[k - 1].Ticked? ==> events[k - 1].now == Clock(events, k, born);
    }
  }

  lemma {:induction false} StartsStay(views: seq<View>, events: seq<Event>, born: int, m: nat, n: nat, start: int)
    requires IsRun(views, events, born) && m <= n < |views| && start in HistoryOf(views, events, m).starts
    ensures start in HistoryOf(views, events, n).starts
    decreases n - m
  {
    if m < n { StartsStay(views, events, born, m, n - 1, start); }
  }
}
