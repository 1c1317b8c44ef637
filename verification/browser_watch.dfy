/**
 Browser watches (MacOS/brain/browser-watch.ts): a condition is evaluated in the browser at intervals, and a
 message is posted when it becomes true.

 Watches do not interact, so the transitions are given for one watch; the `BrowserWatcher` object below applies
 them to its maps.
 */
module BrowserWatches {
  import opened Options

  const MIN_INTERVAL_MS := 500
  const MAX_INTERVAL_MS := 300_000
  const DEFAULT_INTERVAL_MS := 5_000
  const DEFAULT_DURATION_MS := 1_800_000
  const MAX_DURATION_MS := 86_400_000
  const DUE_TOLERANCE_MS := 200
  const INVALID_CONDITION_STREAK := 5

  type WatchId = nat

  datatype Reason = Manual | Expired | InvalidCondition | FiredOnce

  /** What an evaluation came back with. */
  datatype Result = True | False | Error(sig: string)

  datatype Shown = NoBrowser | Evaluated(result: Result)

  datatype Watch = Watch(
    intervalMs: int, expiresAt: int, repeat: bool, createdAt: int, active: bool, cancelReason: Option<Reason>,
    lastEvalAt: Option<int>, lastResult: Option<Shown>, lastWasTrue: bool, fireCount: nat, fireFailed: bool)

  datatype Streak = Streak(lastError: string, count: nat)

  datatype Stage = Evaluating | Firing

  /** An evaluation under way since `at`: waiting for the browser, or for its message to be posted. */
  datatype Pending = Pending(at: int, stage: Stage)

  /** One watch as the watcher sees it. */
  datatype View = View(rec: Watch, inflight: bool, streak: Option<Streak>, pending: seq<Pending>)

  function Max(a: int, b: int): int { if a < b then b else a }

  function Min(a: int, b: int): int { if a < b then a else b }

  /** A missing, unreadable or zero number counts as not given. */
  function Given(n: Option<int>, default: int): int {
    if n.Some? && n.value != 0 then n.value else default
  }

  function ClampInterval(n: Option<int>): int {
    Max(MIN_INTERVAL_MS, Min(MAX_INTERVAL_MS, Given(n, DEFAULT_INTERVAL_MS)))
  }

  function ClampDuration(n: Option<int>, intervalMs: int): int {
    Max(intervalMs * 2, Min(MAX_DURATION_MS, Given(n, DEFAULT_DURATION_MS)))
  }

  function Created(interval: Option<int>, duration: Option<int>, repeat: bool, now: int): (v: View)
    ensures MIN_INTERVAL_MS <= v.rec.intervalMs <= MAX_INTERVAL_MS
    ensures now + 2 * v.rec.intervalMs <= v.rec.expiresAt <= now + MAX_DURATION_MS
    ensures Fresh(v)
  {
    var intervalMs := ClampInterval(interval);
    View(Watch(intervalMs, now + ClampDuration(duration, intervalMs), repeat, now, true, None, None, None, false, 0, false),
         false, None, [])
  }

  /** A number within its bounds is kept, one beyond them is moved to the nearest bound, and one not given stands for 5 s,
      or 30 minutes; a watch lasts two intervals at least. */
  lemma CreatedKeepsWhatIsAsked(interval: Option<int>, duration: Option<int>, repeat: bool, now: int)
    ensures var w := Created(interval, duration, repeat, now).rec;
      && (interval in {None, Some(0)} ==> w.intervalMs == 5_000)
      && (interval.Some? && interval.value != 0 ==>
            w.intervalMs == if interval.value < 500 then 500 else if interval.value > 300_000 then 300_000 else interval.value)
      && (duration in {None, Some(0)} ==> w.expiresAt - now == 1_800_000)
      && (duration.Some? && duration.value != 0 ==>
            w.expiresAt - now == if duration.value < 2 * w.intervalMs then 2 * w.intervalMs
                                 else if duration.value > 86_400_000 then 86_400_000 else duration.value)
      && w.repeat == repeat && w.createdAt == now
  {
  }

  predicate Fresh(v: View) {
    && v.rec.active && v.rec.cancelReason == None && v.rec.lastEvalAt == None && v.rec.lastResult == None && !v.rec.lastWasTrue
    && v.rec.fireCount == 0 && !v.rec.fireFailed
    && !v.inflight && v.streak == None && v.pending == []
  }

  // ---- transitions of one watch ----

  function CancelRecord(w: Watch, reason: Reason): Watch {
    if w.active then w.(active := false, cancelReason := Some(reason)) else w
  }

  function LastEval(w: Watch): int {
    if w.lastEvalAt.Some? then w.lastEvalAt.value else w.createdAt
  }

  function TickOne(v: View, now: int, browser: bool): View {
    if !v.rec.active then v
    else if v.rec.expiresAt <= now then v.(rec := CancelRecord(v.rec, Expired), inflight := false, streak := None)
    else if v.inflight then v
    else if now - LastEval(v.rec) + DUE_TOLERANCE_MS < v.rec.intervalMs then v
    else if !browser then v.(rec := v.rec.(lastEvalAt := Some(now), lastResult := Some(NoBrowser)))
    else v.(inflight := true, pending := v.pending + [Pending(now, Evaluating)])
  }

  /** Evaluation `i` is over and the record is updated. */
  function Finished(v: View, i: nat, rec: Watch): View
    requires i < |v.pending|
  {
    v.(rec := rec, inflight := false, pending := v.pending[..i] + v.pending[i + 1..])
  }

  /** One more error; the fifth identical one in a row cancels the watch. */
  function Failed(v: View, i: nat, sig: string, seen: Watch): View
    requires i < |v.pending|
  {
    var count := if v.streak.Some? && v.streak.value.lastError == sig then v.streak.value.count + 1 else 1;
    if count > 1 && count >= INVALID_CONDITION_STREAK then
      Finished(v.(streak := None), i, CancelRecord(seen, InvalidCondition))
    else Finished(v.(streak := Some(Streak(sig, count))), i, seen)
  }

  function EvalReturns(v: View, i: nat, result: Result): View
    requires i < |v.pending| && v.pending[i].stage == Evaluating
  {
    var seen := v.rec.(lastEvalAt := Some(v.pending[i].at), lastResult := Some(Evaluated(result)));
    match result
    case Error(sig) => Failed(v, i, sig, seen)
    case _ =>
      if result == True && !v.rec.lastWasTrue then
        v.(streak := None, pending := v.pending[i := v.pending[i].(stage := Firing)])
      else Finished(v.(streak := None), i, seen.(lastWasTrue := result == True))
  }

  /** The attempt to post the message came back. */
  function FireReturns(v: View, i: nat, posted: bool): View
    requires i < |v.pending| && v.pending[i].stage == Firing
  {
    var seen := v.rec.(lastEvalAt := Some(v.pending[i].at), lastResult := Some(Evaluated(True)), lastWasTrue := true);
    if posted then
      var fired := seen.(fireCount := seen.fireCount + 1);
      Finished(v, i, if v.rec.repeat then fired else CancelRecord(fired, FiredOnce))
    else Finished(v, i, seen.(fireFailed := true))
  }

  function Cancel(v: View): View {
    v.(rec := CancelRecord(v.rec, Manual))
  }

  // ---- the watcher object ----

  class BrowserWatcher {
    var order: seq<WatchId>
    var watches: map<WatchId, Watch>
    var inflight: set<WatchId>
    var streaks: map<WatchId, Streak>
    var pending: map<WatchId, seq<Pending>>

    constructor ()
      ensures Valid() && order == []
    {
      order, watches, inflight, streaks, pending := [], map[], {}, map[], map[];
    }

    ghost predicate Valid()
      reads this
    {
      && (forall i, j :: 0 <= i < j < |order| ==> order[i] != order[j])
      && (forall id :: id in order <==> id in watches) && pending.Keys == watches.Keys
      && inflight <= watches.Keys && streaks.Keys <= watches.Keys
    }

    function ViewOf(id: WatchId): View
      requires id in watches && id in pending
      reads this
    {
      View(watches[id], id in inflight, if id in streaks then Some(streaks[id]) else None, pending[id])
    }

    /** The watch `id` is now as `v` says, and nothing else has changed. */
    twostate predicate Became(id: WatchId, v: View)
      reads this
    {
      && order == old(order) && watches == old(watches)[id := v.rec] && pending == old(pending)[id := v.pending]
      && inflight == (if v.inflight then old(inflight) + {id} else old(inflight) - {id})
      && streaks == (if v.streak.Some? then old(streaks)[id := v.streak.value] else old(streaks) - {id})
    }

    /** Newest first. */
    method Create(id: WatchId, interval: Option<int>, duration: Option<int>, repeat: bool, now: int)
      requires Valid() && id !in watches
      modifies this
      ensures Valid() && order == [id] + old(order) && watches.Keys == old(watches).Keys + {id}
      ensures ViewOf(id) == Created(interval, duration, repeat, now)
      ensures forall k :: k in old(watches) ==> ViewOf(k) == old(ViewOf(k))
    {
      var intervalMs := ClampInterval(interval);
      var maxDurationMs := ClampDuration(duration, intervalMs);
      watches := watches[id := Watch(intervalMs, now + maxDurationMs, repeat, now, true, None, None, None, false, 0, false)];
      pending := pending[id := []];
      order := [id] + order;
    }

    method Tick(now: int, browser: bool)
      requires Valid()
      modifies this
      ensures Valid() && order == old(order) && watches.Keys == old(watches).Keys
      ensures forall id :: id in watches ==> ViewOf(id) == TickOne(old(ViewOf(id)), now, browser)
    {
      hide TickOne;
      var n := 0;
      while n < |order|
        invariant n <= |order| && Valid() && order == old(order) && watches.Keys == old(watches).Keys
        invariant forall id :: id in watches ==>
          ViewOf(id) == if id in order[..n] then TickOne(old(ViewOf(id)), now, browser) else old(ViewOf(id))
      {
        var id := order[n];
        assert order[..n + 1] == order[..n] + [id] && id !in order[..n];
        TickListed(id, now, browser);
        n := n + 1;
      }
      assert order[..n] == order;
    }

    method TickListed(id: WatchId, now: int, browser: bool)
      requires Valid() && id in watches
      modifies this
      ensures Valid() && order == old(order) && watches.Keys == old(watches).Keys
      ensures ViewOf(id) == TickOne(old(ViewOf(id)), now, browser)
      ensures forall k :: k in watches && k != id ==> ViewOf(k) == old(ViewOf(k))
    {
      hide TickOne;
      TickWatch(id, now, browser);
    }

    method TickWatch(id: WatchId, now: int, browser: bool)
      requires id in watches && id in pending
      modifies this
      ensures Became(id, TickOne(old(ViewOf(id)), now, browser))
    {
      var w := watches[id];
      if !w.active {
        return;
      }
      if w.expiresAt <= now {
        watches := watches[id := CancelRecord(w, Expired)];
        inflight := inflight - {id};
        streaks := streaks - {id};
        return;
      }
      if id in inflight {
        return;
      }
      var lastEval := if w.lastEvalAt.Some? then w.lastEvalAt.value else w.createdAt;
      if now - lastEval + DUE_TOLERANCE_MS < w.intervalMs {
        return;
      }
      if !browser {
        watches := watches[id := w.(lastEvalAt := Some(now), lastResult := Some(NoBrowser))];
        return;
      }
      inflight := inflight + {id};
      pending := pending[id := pending[id] + [Pending(now, Evaluating)]];
    }

    method Finish(id: WatchId, i: nat, rec: Watch)
      requires id in watches && id in pending && i < |pending[id]|
      modifies this
      ensures Became(id, Finished(old(ViewOf(id)), i, rec))
    {
      watches := watches[id := rec];
      pending := pending[id := pending[id][..i] + pending[id][i + 1..]];
      inflight := inflight - {id};
    }

    /** `evalOnce` from the browser's answer on. */
    method EvalOnce(id: WatchId, i: nat, result: Result)
      requires id in watches && id in pending && i < |pending[id]| && pending[id][i].stage == Evaluating
      modifies this
      ensures Became(id, EvalReturns(old(ViewOf(id)), i, result))
    {
      hide Finished, CancelRecord, Failed;
      var w := watches[id];
      var seen := w.(lastEvalAt := Some(pending[id][i].at), lastResult := Some(Evaluated(result)));
      if result.Error? {
        EvalFailed(id, i, result.sig, seen);
        return;
      }
      if result == True && !w.lastWasTrue {
        streaks := streaks - {id};
        pending := pending[id := pending[id][i := pending[id][i].(stage := Firing)]];
        return;
      }
      streaks := streaks - {id};
      Finish(id, i, seen.(lastWasTrue := result == True));
    }

    method EvalFailed(id: WatchId, i: nat, sig: string, seen: Watch)
      requires id in watches && id in pending && i < |pending[id]|
      modifies this
      ensures Became(id, Failed(old(ViewOf(id)), i, sig, seen))
    {
      hide CancelRecord, Finished;
      var count := if id in streaks && streaks[id].lastError == sig then streaks[id].count + 1 else 1;
      if count > 1 && count >= INVALID_CONDITION_STREAK {
        streaks := streaks - {id};
        Finish(id, i, CancelRecord(seen, InvalidCondition));
      } else {
        streaks := streaks[id := Streak(sig, count)];
        Finish(id, i, seen);
      }
    }

    method Fired(id: WatchId, i: nat, posted: bool)
      requires id in watches && id in pending && i < |pending[id]| && pending[id][i].stage == Firing
      modifies this
      ensures Became(id, FireReturns(old(ViewOf(id)), i, posted))
    {
      hide Finished;
      var w := watches[id];
      var seen := w.(lastEvalAt := Some(pending[id][i].at), lastResult := Some(Evaluated(True)), lastWasTrue := true);
      if posted {
        seen := seen.(fireCount := w.fireCount + 1);
        if !w.repeat {
          seen := CancelRecord(seen, FiredOnce);
        }
      } else {
        seen := seen.(fireFailed := true);
      }
      Finish(id, i, seen);
    }

    method CancelWatch(id: WatchId)
      requires id in watches && id in pending
      modifies this
      ensures Became(id, Cancel(old(ViewOf(id))))
    {
      if watches[id].active {
        watches := watches[id := watches[id].(active := false, cancelReason := Some(Manual))];
      }
    }
  }
}
