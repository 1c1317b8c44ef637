/** Browser watches over whole runs: evaluations, rising edges, posts and error streaks. */
module BrowserWatchRuns {
  import opened Options
  import opened BrowserWatches

  datatype Event =
    | Ticked(now: int, browser: bool)
    | Answered(eval: nat, result: Result)
    | Posted(eval: nat, ok: bool)
    | Cancelled

  /** What an observer writes down: the results in the order in which they came back, the attempts to post, the posts
      that succeeded, and when evaluations started. */
  datatype History = History(results: seq<Result>, attempts: nat, posts: nat, starts: seq<int>)

  predicate Enabled(v: View, e: Event) {
    match e
    case Answered(i, _) => i < |v.pending| && v.pending[i].stage == Evaluating
    case Posted(i, _) => i < |v.pending| && v.pending[i].stage == Firing
    case _ => true
  }

  function Next(v: View, e: Event): View
    requires Enabled(v, e)
  {
    match e
    case Ticked(now, browser) => TickOne(v, now, browser)
    case Answered(i, result) => EvalReturns(v, i, result)
    case Posted(i, ok) => FireReturns(v, i, ok)
    case Cancelled => Cancel(v)
  }

  function Note(h: History, v: View, e: Event): History
    requires Enabled(v, e)
  {
    var v' := Next(v, e);
    match e
    case Ticked(now, _) => if |v'.pending| > |v.pending| then h.(starts := h.starts + [now]) else h
    case Answered(i, result) =>
      h.(results := h.results + [result], attempts := h.attempts + if |v'.pending| == |v.pending| then 1 else 0)
    case Posted(_, ok) => h.(posts := h.posts + if ok then 1 else 0)
    case Cancelled => h
  }

  // ---- reading a history ----

  function NonErrors(results: seq<Result>): seq<Result> {
    if results == [] then []
    else NonErrors(results[..|results| - 1]) + if results[|results| - 1].Error? then [] else [results[|results| - 1]]
  }

  function LastOf(results: seq<Result>): Result {
    if results == [] then False else results[|results| - 1]
  }

  /** How often the sequence turns true, coming from false. */
  function RisingEdges(results: seq<Result>): nat {
    if results == [] then 0
    else RisingEdges(results[..|results| - 1])
         + if results[|results| - 1] == True && LastOf(results[..|results| - 1]) != True then 1 else 0
  }

  /** Length of the maximal run of one and the same error at the end. */
  function TrailingErrors(results: seq<Result>): nat {
    if results == [] || !results[|results| - 1].Error? then 0
    else
      var init := results[..|results| - 1];
      1 + if init != [] && init[|init| - 1] == results[|results| - 1] then TrailingErrors(init) else 0
  }

  function StreakOf(results: seq<Result>): Option<Streak> {
    if TrailingErrors(results) == 0 then None
    else Some(Streak(results[|results| - 1].sig, TrailingErrors(results)))
  }

  // ---- the invariant ----

  predicate Posting(v: View) {
    v.pending != [] && v.pending[0].stage == Firing
  }

  ghost predicate OneEvaluation(v: View) {
    && |v.pending| <= 1 && (v.rec.active ==> (v.inflight <==> |v.pending| == 1))
  }

  ghost predicate EdgesFire(v: View, h: History) {
    var seen := NonErrors(h.results);
    && h.attempts == RisingEdges(seen) && v.rec.fireCount == h.posts
    && (v.rec.lastWasTrue || Posting(v) <==> LastOf(seen) == True) && !(v.rec.lastWasTrue && Posting(v))
  }

  ghost predicate PostsOnce(v: View, h: History) {
    !v.rec.repeat ==> h.posts <= 1 && (h.posts == 1 ==> !v.rec.active && v.pending == [])
  }

  ghost predicate StreakTracks(v: View, h: History) {
    v.rec.active ==> v.streak == StreakOf(h.results) && TrailingErrors(h.results) < INVALID_CONDITION_STREAK
  }

  ghost predicate Spaced(starts: seq<int>, gap: int) {
    forall i, j :: 0 <= i < j < |starts| ==> starts[i] + gap <= starts[j]
  }

  ghost predicate Unhurried(v: View, h: History, now: int) {
    && LastEval(v.rec) <= now && v.rec.intervalMs >= MIN_INTERVAL_MS
    && Spaced(h.starts, v.rec.intervalMs - DUE_TOLERANCE_MS)
    && (v.pending != [] ==> h.starts != [])
    && (h.starts != [] ==>
          var last := h.starts[|h.starts| - 1];
          last <= now && (if v.pending == [] then last <= LastEval(v.rec) else v.pending[0].at == last))
  }

  ghost predicate Inv(v: View, h: History, now: int) {
    && OneEvaluation(v) && EdgesFire(v, h) && PostsOnce(v, h) && StreakTracks(v, h) && Unhurried(v, h, now)
  }

  lemma SnocNonErrors(results: seq<Result>, r: Result)
    ensures var seen := NonErrors(results);
      && NonErrors(results + [r]) == seen + (if r.Error? then [] else [r])
      && LastOf(NonErrors(results + [r])) == (if r.Error? then LastOf(seen) else r)
      && RisingEdges(NonErrors(results + [r])) == RisingEdges(seen) + (if r == True && LastOf(seen) != True then 1 else 0)
  {
    assert (results + [r])[..|results|] == results;
    var seen := NonErrors(results);
    if r.Error? {
      assert seen + [] == seen;
    } else {
      assert (seen + [r])[..|seen|] == seen;
    }
  }

  lemma SnocTrailing(results: seq<Result>, r: Result)
    ensures TrailingErrors(results + [r]) ==
            if !r.Error? then 0 else 1 + if results != [] && results[|results| - 1] == r then TrailingErrors(results) else 0
  {
    assert (results + [r])[..|results|] == results;
  }

  lemma TickKeepsPace(v: View, h: History, before: int, e: Event)
    requires Unhurried(v, h, before) && OneEvaluation(v) && e.Ticked? && before <= e.now
    ensures Unhurried(Next(v, e), Note(h, v, e), e.now) && OneEvaluation(Next(v, e))
  {
  }

  lemma TickKeeps(v: View, h: History, before: int, e: Event)
    requires Inv(v, h, before) && e.Ticked? && before <= e.now
    ensures Inv(Next(v, e), Note(h, v, e), e.now)
  {
    TickKeepsPace(v, h, before, e);
    hide Unhurried, StreakOf, RisingEdges, NonErrors, TrailingErrors;
  }

  lemma CancelKeeps(v: View, h: History, now: int)
    requires Inv(v, h, now)
    ensures Inv(Next(v, Cancelled), Note(h, v, Cancelled), now)
  {
  }

  lemma AnswerKeepsStreak(v: View, h: History, e: Event)
    requires StreakTracks(v, h) && e.Answered? && Enabled(v, e)
    ensures StreakTracks(Next(v, e), Note(h, v, e))
  {
    SnocTrailing(h.results, e.result);
  }

  lemma AnswerKeepsPace(v: View, h: History, now: int, e: Event)
    requires Unhurried(v, h, now) && OneEvaluation(v) && e.Answered? && Enabled(v, e)
    ensures Unhurried(Next(v, e), Note(h, v, e), now) && OneEvaluation(Next(v, e))
  {
  }

  lemma AnswerKeepsPosts(v: View, h: History, e: Event)
    requires PostsOnce(v, h) && OneEvaluation(v) && e.Answered? && Enabled(v, e)
    ensures PostsOnce(Next(v, e), Note(h, v, e))
  {
    assert v.pending != [];
    AnswerNotes(h, v, e);
    AnswerKeepsRepeat(v, e);
    hide Next, Note, Enabled, OneEvaluation;
  }

  lemma AnswerKeepsRepeat(v: View, e: Event)
    requires e.Answered? && Enabled(v, e)
    ensures Next(v, e).rec.repeat == v.rec.repeat
  {
  }

  lemma InvParts(v: View, h: History, now: int)
    ensures Inv(v, h, now) <==> OneEvaluation(v) && EdgesFire(v, h) && PostsOnce(v, h) && StreakTracks(v, h) && Unhurried(v, h, now)
  {
    hide OneEvaluation, EdgesFire, PostsOnce, StreakTracks, Unhurried;
  }

  lemma AnswerKeeps(v: View, h: History, now: int, e: Event)
    requires Inv(v, h, now) && e.Answered? && Enabled(v, e)
    ensures Inv(Next(v, e), Note(h, v, e), now)
  {
    hide Inv, OneEvaluation, EdgesFire, PostsOnce, StreakTracks, Unhurried, Next, Note, Enabled;
    InvParts(v, h, now);
    AnswerKeepsStreak(v, h, e);
    AnswerKeepsPace(v, h, now, e);
    AnswerKeepsEdges(v, h, e);
    AnswerKeepsPosts(v, h, e);
    InvParts(Next(v, e), Note(h, v, e), now);
  }

  /** The only evaluation under way is over, or goes on to post. */
  lemma AnswerShape(v: View, e: Event)
    requires OneEvaluation(v) && e.Answered? && Enabled(v, e)
    ensures var v' := Next(v, e);
      && v'.rec.fireCount == v.rec.fireCount && !Posting(v)
      && (Posting(v') <==> e.result == True && !v.rec.lastWasTrue)
      && (|v'.pending| == |v.pending| <==> Posting(v'))
      && (v'.rec.lastWasTrue <==> if e.result.Error? || Posting(v') then v.rec.lastWasTrue else e.result == True)
  {
    assert e.eval == 0 && v.pending == [v.pending[0]] && v.pending[..0] + v.pending[1..] == [];
  }

  /** What an answer adds to the history. */
  lemma AnswerNotes(h: History, v: View, e: Event)
    requires OneEvaluation(v) && e.Answered? && Enabled(v, e)
    ensures var h' := Note(h, v, e);
      && h'.results == h.results + [e.result] && h'.posts == h.posts && h'.starts == h.starts
      && h'.attempts == h.attempts + if e.result == True && !v.rec.lastWasTrue then 1 else 0
  {
    AnswerShape(v, e);
  }

  lemma AnswerKeepsEdges(v: View, h: History, e: Event)
    requires EdgesFire(v, h) && OneEvaluation(v) && e.Answered? && Enabled(v, e)
    ensures EdgesFire(Next(v, e), Note(h, v, e))
  {
    SnocNonErrors(h.results, e.result);
    AnswerShape(v, e);
    AnswerNotes(h, v, e);
    var v', h' := Next(v, e), Note(h, v, e);
    var was, isTrue := v.rec.lastWasTrue, e.result == True;
    assert was <==> LastOf(NonErrors(h.results)) == True;
    hide *;
    assert LastOf(NonErrors(h'.results)) == True <==> (if e.result.Error? then was else isTrue);
    assert h'.attempts == RisingEdges(NonErrors(h'.results)) && v'.rec.fireCount == h'.posts;
    assert Posting(v') <==> isTrue && !was;
    assert v'.rec.lastWasTrue <==> if e.result.Error? || Posting(v') then was else isTrue;
    EdgesAdd(v', h');
  }

  lemma EdgesAdd(v: View, h: History)
    requires h.attempts == RisingEdges(NonErrors(h.results)) && v.rec.fireCount == h.posts
    requires (v.rec.lastWasTrue || Posting(v) <==> LastOf(NonErrors(h.results)) == True) && !(v.rec.lastWasTrue && Posting(v))
    ensures EdgesFire(v, h)
  {
    hide RisingEdges, NonErrors, LastOf, Posting;
  }

  lemma PostKeeps(v: View, h: History, now: int, e: Event)
    requires Inv(v, h, now) && e.Posted? && Enabled(v, e)
    ensures Inv(Next(v, e), Note(h, v, e), now)
  {
  }

  // ---- runs ----

  /** A run of one watch from its creation at `born`: each event is possible where it happens, and ticks are in the
      order of the clock. */
  ghost predicate IsRun(views: seq<View>, events: seq<Event>, born: int) {
    && |views| == |events| + 1 && Fresh(views[0]) && views[0].rec.createdAt == born
    && views[0].rec.intervalMs >= MIN_INTERVAL_MS
    && (forall i :: 0 <= i < |events| ==> Enabled(views[i], events[i]) && views[i + 1] == Next(views[i], events[i]))
    && (forall i :: 0 <= i < |events| && events[i].Ticked? ==> Clock(events, i, born) <= events[i].now)
  }

  /** The time of the last tick among the first `n` events. */
  function Clock(events: seq<Event>, n: nat, born: int): int
    requires n <= |events|
  {
    if n == 0 then born
    else if events[n - 1].Ticked? then events[n - 1].now
    else Clock(events, n - 1, born)
  }

  ghost function HistoryOf(views: seq<View>, events: seq<Event>, n: nat): History
    requires n < |views| && n <= |events| && forall i :: 0 <= i < |events| && i < |views| ==> Enabled(views[i], events[i])
  {
    if n == 0 then History([], 0, 0, [])
    else Note(HistoryOf(views, events, n - 1), views[n - 1], events[n - 1])
  }

  lemma NextKeeps(v: View, h: History, before: int, now: int, e: Event)
    requires Inv(v, h, before) && Enabled(v, e) && (if e.Ticked? then before <= e.now == now else now == before)
    ensures Inv(Next(v, e), Note(h, v, e), now)
  {
    hide Inv, Next, Note, Enabled;
    match e
    case Ticked(_, _) => TickKeeps(v, h, before, e);
    case Answered(_, _) => AnswerKeeps(v, h, now, e);
    case Posted(_, _) => PostKeeps(v, h, now, e);
    case Cancelled => CancelKeeps(v, h, now);
  }

  lemma {:induction false} RunKeeps(views: seq<View>, events: seq<Event>, born: int, n: nat)
    requires IsRun(views, events, born) && n < |views|
    ensures Inv(views[n], HistoryOf(views, events, n), Clock(events, n, born))
  {
    if n > 0 {
      RunKeeps(views, events, born, n - 1);
      NextKeeps(views[n - 1], HistoryOf(views, events, n - 1), Clock(events, n - 1, born), Clock(events, n, born), events[n - 1]);
    }
  }

  /** Evaluations of a watch never overlap, and start at least its interval, less the tolerance, apart. */
  lemma EvaluationsAreApart(views: seq<View>, events: seq<Event>, born: int, n: nat, i: nat, j: nat)
    requires IsRun(views, events, born) && n < |views| && i < j < |HistoryOf(views, events, n).starts|
    ensures |views[n].pending| <= 1
    ensures var starts := HistoryOf(views, events, n).starts; starts[j] - starts[i] >= views[n].rec.intervalMs - DUE_TOLERANCE_MS
  {
    RunKeeps(views, events, born, n);
  }

  /** The watch tries to post exactly once for each time its condition turns true, errors left aside, counting from
      false; the record counts the posts, and a one-shot posts at most once. */
  lemma AttemptsAreRisingEdges(views: seq<View>, events: seq<Event>, born: int, n: nat)
    requires IsRun(views, events, born) && n < |views|
    ensures var h := HistoryOf(views, events, n);
      && h.attempts == RisingEdges(NonErrors(h.results)) && h.posts == views[n].rec.fireCount
      && (!views[n].rec.repeat ==> h.posts <= 1)
  {
    RunKeeps(views, events, born, n);
  }

  /** While a watch is active its streak is the length of the run of identical errors it last saw, always below five. */
  lemma StreakIsTheTrailingRun(views: seq<View>, events: seq<Event>, born: int, n: nat)
    requires IsRun(views, events, born) && n < |views| && views[n].rec.active
    ensures var h := HistoryOf(views, events, n);
      && TrailingErrors(h.results) < INVALID_CONDITION_STREAK
      && views[n].streak == if TrailingErrors(h.results) == 0 then None
                            else Some(Streak(h.results[|h.results| - 1].sig, TrailingErrors(h.results)))
  {
    RunKeeps(views, events, born, n);
  }

  /** An active watch is cancelled as invalid exactly by the evaluation that completes a run of five identical errors. */
  lemma InvalidExactlyAtFive(views: seq<View>, events: seq<Event>, born: int, n: nat)
    requires IsRun(views, events, born) && n < |events| && views[n].rec.active
    ensures views[n + 1].rec.cancelReason == Some(InvalidCondition) <==>
            events[n].Answered? && TrailingErrors(HistoryOf(views, events, n + 1).results) == INVALID_CONDITION_STREAK
  {
    RunKeeps(views, events, born, n);
    ActiveHasNoReason(views, events, born, n);
    var v, e, h := views[n], events[n], HistoryOf(views, events, n);
    assert views[n + 1] == Next(v, e) && HistoryOf(views, events, n + 1) == Note(h, v, e);
    hide IsRun, HistoryOf, Inv;
    assert StreakTracks(v, h) by { InvTracks(v, h, Clock(events, n, born)); }
    InvalidAtFive(v, h, e);
  }

  lemma InvTracks(v: View, h: History, now: int)
    requires Inv(v, h, now)
    ensures StreakTracks(v, h)
  {
  }

  lemma InvalidAtFive(v: View, h: History, e: Event)
    requires StreakTracks(v, h) && Enabled(v, e) && v.rec.active && v.rec.cancelReason == None
    ensures Next(v, e).rec.cancelReason == Some(InvalidCondition) <==>
            e.Answered? && TrailingErrors(Note(h, v, e).results) == INVALID_CONDITION_STREAK
  {
    if e.Answered? {
      SnocTrailing(h.results, e.result);
    }
    hide TrailingErrors;
  }

  lemma {:induction false} ActiveHasNoReason(views: seq<View>, events: seq<Event>, born: int, n: nat)
    requires IsRun(views, events, born) && n < |views|
    ensures views[n].rec.active ==> views[n].rec.cancelReason == None
  {
    if n > 0 {
      ActiveHasNoReason(views, events, born, n - 1);
      assert views[n] == Next(views[n - 1], events[n - 1]);
    }
  }

  // ---- what happens between two points of a run ----

  datatype Kind = AnyAnswer | ATrue | AFalse | AnyPost | ASuccess

  predicate Is(e: Event, kind: Kind) {
    match kind
    case AnyAnswer => e.Answered?
    case ATrue => e.Answered? && e.result == True
    case AFalse => e.Answered? && e.result == False
    case AnyPost => e.Posted?
    case ASuccess => e.Posted? && e.ok
  }

  ghost predicate Sees(events: seq<Event>, m: nat, n: nat, kind: Kind) {
    exists p :: m <= p < n && p < |events| && Is(events[p], kind)
  }

  /** The condition was false, and then true. */
  ghost predicate TurnsTrue(events: seq<Event>, m: nat, n: nat) {
    exists q :: m <= q < n && q < |events| && Is(events[q], ATrue) && Sees(events, m, q, AFalse)
  }

  lemma SeesOneMore(events: seq<Event>, m: nat, n: nat, kind: Kind)
    requires m <= n < |events|
    ensures Sees(events, m, n + 1, kind) <==> Sees(events, m, n, kind) || Is(events[n], kind)
  {
  }

  lemma NothingBetween(events: seq<Event>, m: nat)
    ensures !TurnsTrue(events, m, m) && forall kind :: !Sees(events, m, m, kind)
  {
  }

  lemma TurnsOneMore(events: seq<Event>, m: nat, n: nat)
    requires m <= n < |events|
    ensures TurnsTrue(events, m, n + 1) <==> TurnsTrue(events, m, n) || (Is(events[n], ATrue) && Sees(events, m, n, AFalse))
  {
    hide Sees, Is;
  }

  /** The condition was true when last seen: the post is done, given up or under way. */
  predicate Known(v: View) {
    v.rec.lastWasTrue || Posting(v)
  }

  lemma StepKnows(h: History, v: View, e: Event, now: int)
    requires Inv(v, h, now) && Enabled(v, e)
    ensures Known(Next(v, e)) <==> Is(e, ATrue) || (Known(v) && !Is(e, AFalse))
    ensures Note(h, v, e).attempts == h.attempts + if Is(e, ATrue) && !Known(v) then 1 else 0
  {
    if e.Answered? {
      AnswerShape(v, e);
      AnswerNotes(h, v, e);
    } else {
      assert e.Posted? ==> e.eval == 0 && v.pending == [v.pending[0]] && v.pending[..0] + v.pending[1..] == [];
    }
    hide Inv, Note;
  }

  lemma RunStep(views: seq<View>, events: seq<Event>, born: int, n: nat)
    requires IsRun(views, events, born) && n < |events|
    ensures Enabled(views[n], events[n]) && views[n + 1] == Next(views[n], events[n])
    ensures Inv(views[n], HistoryOf(views, events, n), Clock(events, n, born))
    ensures HistoryOf(views, events, n + 1) == Note(HistoryOf(views, events, n), views[n], events[n])
  {
    hide Inv, Note, Next, Enabled, Clock;
    RunKeeps(views, events, born, n);
  }

  /** Ticks that find no browser, or come too early, break no streak: as long as nothing is answered the results stay,
      and with them, while the watch is active, the streak. */
  lemma {:induction false} NoBrowserIsNeutral(views: seq<View>, events: seq<Event>, born: int, m: nat, n: nat)
    requires IsRun(views, events, born) && m <= n < |views| && !Sees(events, m, n, AnyAnswer)
    ensures HistoryOf(views, events, n).results == HistoryOf(views, events, m).results
    ensures views[n].rec.active ==> views[m].rec.active && views[n].streak == views[m].streak
    decreases n - m
  {
    if m < n {
      SeesOneMore(events, m, n - 1, AnyAnswer);
      NoBrowserIsNeutral(views, events, born, m, n - 1);
      assert views[n] == Next(views[n - 1], events[n - 1]) && HistoryOf(views, events, n) == Note(HistoryOf(views, events, n - 1), views[n - 1], events[n - 1]);
      hide IsRun, HistoryOf;
      UnansweredKeepsStreak(HistoryOf(views, events, n - 1), views[n - 1], events[n - 1]);
    }
  }

  lemma UnansweredKeepsStreak(h: History, v: View, e: Event)
    requires Enabled(v, e) && !e.Answered?
    ensures Note(h, v, e).results == h.results && (Next(v, e).rec.active ==> v.rec.active && Next(v, e).streak == v.streak)
  {
  }

  // ---- where the code departs from its own comments ----

  /** From a point at which the condition was last seen true, there is another attempt to post if and only if the
      condition is seen false, and then true. Until it is seen false, it stays known and nothing is attempted. */
  lemma {:induction false} NextAttemptIsExact(views: seq<View>, events: seq<Event>, born: int, m: nat, n: nat)
    requires IsRun(views, events, born) && m <= n < |views| && Known(views[m])
    ensures HistoryOf(views, events, n).attempts >= HistoryOf(views, events, m).attempts
    ensures HistoryOf(views, events, n).attempts > HistoryOf(views, events, m).attempts <==> TurnsTrue(events, m, n)
    ensures !TurnsTrue(events, m, n) ==> (Known(views[n]) <==> !Sees(events, m, n, AFalse))
    decreases n - m
  {
    hide HistoryOf, Known, Note, Next, Enabled, Inv, TurnsTrue, Sees, Clock, Fresh;
    if m == n {
      NothingBetween(events, m);
    } else {
      NextAttemptIsExact(views, events, born, m, n - 1);
      RunStep(views, events, born, n - 1);
      StepKnows(HistoryOf(views, events, n - 1), views[n - 1], events[n - 1], Clock(events, n - 1, born));
      SeesOneMore(events, m, n - 1, AFalse);
      TurnsOneMore(events, m, n - 1);
    }
  }

  /** A post deferred because the chat is busy is said to be tried again at the next interval. It is not: the record
      already says the condition was true. Whatever ticks, further true answers and errors follow, nothing is being
      posted again before a false answer, and an attempt follows if and only if a true answer follows a false one. */
  lemma DeferredPostIsNotRetried(views: seq<View>, events: seq<Event>, born: int, m: nat, n: nat)
    requires IsRun(views, events, born) && m < n < |views| && events[m].Posted? && !events[m].ok
    ensures HistoryOf(views, events, n).attempts > HistoryOf(views, events, m).attempts <==> TurnsTrue(events, m + 1, n)
    ensures !Sees(events, m + 1, n, AFalse) ==> views[n].rec.lastWasTrue && !Posting(views[n])
    ensures views[m + 1].rec.fireFailed && HistoryOf(views, events, n).attempts >= HistoryOf(views, events, m).attempts
  {
    RunStep(views, events, born, m);
    DeferralIsKnown(HistoryOf(views, events, m), views[m], events[m], Clock(events, m, born));
    hide IsRun, HistoryOf, Note, Next, Enabled, Inv, Clock;
    NextAttemptIsExact(views, events, born, m + 1, n);
    if !Sees(events, m + 1, n, AFalse) { StaysUnposted(views, events, born, m + 1, n); }
  }

  lemma DeferralIsKnown(h: History, v: View, e: Event, now: int)
    requires Inv(v, h, now) && Enabled(v, e) && e.Posted? && !e.ok
    ensures Next(v, e).rec.lastWasTrue && !Posting(Next(v, e)) && Next(v, e).rec.fireFailed && Note(h, v, e).attempts == h.attempts
  {
    assert e.eval == 0 && v.pending == [v.pending[0]] && v.pending[..0] + v.pending[1..] == [];
    hide Inv;
  }

  lemma {:induction false} StaysUnposted(views: seq<View>, events: seq<Event>, born: int, m: nat, n: nat)
    requires IsRun(views, events, born) && m <= n < |views| && views[m].rec.lastWasTrue && !Posting(views[m]) && !Sees(events, m, n, AFalse)
    ensures views[n].rec.lastWasTrue && !Posting(views[n])
    decreases n - m
  {
    hide HistoryOf, Note, Next, Enabled, Inv, Sees, Clock, Is, Posting, Fresh;
    if m < n {
      SeesOneMore(events, m, n - 1, AFalse);
      StaysUnposted(views, events, born, m, n - 1);
      RunStep(views, events, born, n - 1);
      TrueStaysTrue(HistoryOf(views, events, n - 1), views[n - 1], events[n - 1], Clock(events, n - 1, born));
    }
  }

  lemma TrueStaysTrue(h: History, v: View, e: Event, now: int)
    requires Inv(v, h, now) && Enabled(v, e) && v.rec.lastWasTrue && !Posting(v) && !Is(e, AFalse)
    ensures Next(v, e).rec.lastWasTrue && !Posting(Next(v, e))
  {
    if e.Answered? { AnswerShape(v, e); }
    hide Inv;
  }

  // ---- what a cancelled watch still does ----

  /** Since the watch was found inactive: the evaluation then under way is still awaited, or it came back and its
      message is being posted, or all is over. */
  ghost predicate Late(v: View, h: History, v': View, h': History, answered: bool, isTrue: bool, tried: bool, ok: bool) {
    var attempted := isTrue && !v.rec.lastWasTrue;
    && !v'.rec.active && h'.attempts == h.attempts + (if attempted then 1 else 0) && h'.posts == h.posts + (if ok then 1 else 0)
    && (isTrue ==> answered) && (ok ==> tried) && (answered ==> !Posting(v) && v.pending != [])
    && (if tried then v'.pending == [] && (Posting(v) || attempted)
        else if answered then |v'.pending| == (if attempted then 1 else 0) && (Posting(v') <==> attempted)
        else v'.pending == v.pending && v'.rec.lastWasTrue == v.rec.lastWasTrue)
  }

  lemma LateStep(v: View, h: History, v': View, h': History, e: Event, now: int, answered: bool, isTrue: bool, tried: bool, ok: bool)
    requires Late(v, h, v', h', answered, isTrue, tried, ok) && Enabled(v', e) && Inv(v', h', now)
    ensures Late(v, h, Next(v', e), Note(h', v', e), answered || Is(e, AnyAnswer), isTrue || Is(e, ATrue), tried || Is(e, AnyPost), ok || Is(e, ASuccess))
  {
    if e.Answered? {
      AnswerShape(v', e);
      AnswerNotes(h', v', e);
      hide Inv, Note;
      assert e.eval == 0 && v'.pending == [v'.pending[0]] && v'.pending[..0] + v'.pending[1..] == [];
    } else {
      assert e.Posted? ==> e.eval == 0 && v'.pending == [v'.pending[0]] && v'.pending[..0] + v'.pending[1..] == [];
      hide Inv;
    }
  }

  lemma LateStart(v: View, h: History)
    requires !v.rec.active
    ensures Late(v, h, v, h, false, false, false, false)
  {
  }

  lemma {:induction false} LateRun(views: seq<View>, events: seq<Event>, born: int, m: nat, n: nat)
    requires IsRun(views, events, born) && m <= n < |views| && !views[m].rec.active
    ensures Late(views[m], HistoryOf(views, events, m), views[n], HistoryOf(views, events, n), Sees(events, m, n, AnyAnswer),
                 Sees(events, m, n, ATrue), Sees(events, m, n, AnyPost), Sees(events, m, n, ASuccess))
    decreases n - m
  {
    hide HistoryOf, Note, Next, Enabled, Inv, Clock, Sees, Fresh, Is, TurnsTrue, Late;
    if m == n {
      NothingBetween(events, m);
      LateStart(views[m], HistoryOf(views, events, m));
    } else {
      LateRun(views, events, born, m, n - 1);
      RunStep(views, events, born, n - 1);
      SeesOneMore(events, m, n - 1, AnyAnswer);
      SeesOneMore(events, m, n - 1, ATrue);
      SeesOneMore(events, m, n - 1, AnyPost);
      SeesOneMore(events, m, n - 1, ASuccess);
      LateStep(views[m], HistoryOf(views, events, m), views[n - 1], HistoryOf(views, events, n - 1), events[n - 1], Clock(events, n - 1, born),
               Sees(events, m, n - 1, AnyAnswer), Sees(events, m, n - 1, ATrue), Sees(events, m, n - 1, AnyPost), Sees(events, m, n - 1, ASuccess));
    }
  }

  /** Cancelling does not call back an evaluation under way. From a point at which the watch is inactive, whatever
      follows: it attempts to post once more if and only if that evaluation comes back true while the condition was not
      known to be true, and every post it makes is of that attempt or of one already under way. */
  lemma CancelledWatchCanStillPost(views: seq<View>, events: seq<Event>, born: int, m: nat, n: nat)
    requires IsRun(views, events, born) && m <= n < |views| && !views[m].rec.active
    ensures var attempted := Sees(events, m, n, ATrue) && !views[m].rec.lastWasTrue;
      var h, h' := HistoryOf(views, events, m), HistoryOf(views, events, n);
      && h'.attempts == h.attempts + (if attempted then 1 else 0)
      && h'.posts == h.posts + (if Sees(events, m, n, ASuccess) then 1 else 0)
      && (Sees(events, m, n, AnyPost) ==> Posting(views[m]) || attempted)
      && (Sees(events, m, n, AnyAnswer) ==> views[m].pending != [] && !Posting(views[m]))
  {
    LateRun(views, events, born, m, n);
    hide IsRun, HistoryOf, Sees;
  }
}
