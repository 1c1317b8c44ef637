/**
 Progress of the session lease lifecycle: exactly which denied lock attempts leave a session without anybody to serve
 its queue, and what becomes of the queue then.
 */
module SessionLeaseAttended {
  import opened Options
  import opened SessionRunQueue
  import opened SessionLease
  import opened SessionLeaseProof
  import opened SessionLeaseExact
  import opened SessionLeaseRuns

  /** Every session with a lease has a live activation, unless a sweep is armed. */
  ghost predicate Attended(s: Engine) {
    s.timers == [] ==> forall k :: k in s.leases ==> SessionLive(s, k)
  }

  /** A step the engine takes by itself: a body ends or retries its release, a continuation or a timer runs. */
  ghost predicate CanAct(s: Engine) {
    s.live != map[] || s.timers != [] || exists c :: c in s.dispatches && c in s.answers
  }

  // ---- the jobs a step dispatches to sessions nobody serves ----

  /** The first waiter behind a stale owner, when `run` passes the owner over. */
  function PromotedBy(s: Engine, j: JobId, now: int, denied: set<JobId>): set<JobId> {
    if j !in s.jobs || j in s.running || s.jobs[j].session.None? || j in denied then {}
    else
      var claim := Acquire(LeaseOf(s.leases, s.jobs[j].session.value), j, now, SELF).1;
      if claim.Queued? && claim.promoted.Some? && claim.promoted.value !in s.running + {j} then {claim.promoted.value} else {}
  }

  /** The next in line, when the release of the activation answering `c` is granted. */
  function HandedTo(s: Engine, c: CallerId, now: int, lockOk: bool): set<JobId>
    requires c in s.live
  {
    if s.live[c].session.None? || !lockOk then {}
    else
      var next := Release(LeaseOf(s.leases, s.live[c].session.value), s.live[c].job, now, SELF).1;
      if next.Some? && next.value !in s.running + {s.live[c].job} then {next.value} else {}
  }

  ghost predicate Unserved(s: Engine, j: JobId) {
    j in s.jobs && s.jobs[j].session.Some? && !SessionLive(s, s.jobs[j].session.value)
  }

  /** The owners a sweep of all sessions finds without a body. */
  ghost function SweptUp(s: Engine, order: seq<SessionId>, healed: nat, now: int): set<JobId> {
    if healed < |order| then {} else set j | j in Heal(s.leases, s.jobs, order, now).1 && Unserved(s, j)
  }

  ghost function DispatchedBy(s: Engine, step: Step): set<JobId>
    requires Enabled(s, step)
  {
    match step
    case BootSwept(order, healed, now, _) => SweptUp(s, order, healed, now)
    case Triggered(j, now, denied) => PromotedBy(s, j, now, denied)
    case BodyEnded(c, _, now, lockOk, _) => HandedTo(s, c, now, lockOk)
    case Retried(c, now, lockOk, _) => HandedTo(s, c, now, lockOk)
    case Recovered(_, order, healed, now, _) => SweptUp(s, order, healed, now)
    case _ => {}
  }

  function DeniedIn(step: Step): set<JobId> {
    match step
    case BootSwept(_, _, _, denied) => denied
    case Triggered(_, _, denied) => denied
    case BodyEnded(_, _, _, _, denied) => denied
    case Retried(_, _, _, denied) => denied
    case Recovered(_, _, _, _, denied) => denied
    case _ => {}
  }

  /** A sweep gets the lock of every session. */
  predicate SweepsAll(step: Step) {
    step.BootSwept? || step.Recovered? ==> step.healed >= |step.order|
  }

  /** A sweep is armed after the step, or it is denied no lock: neither one of its own sweep nor one of a job that it
      dispatches to a session nobody serves. */
  ghost predicate Clear(s: Engine, step: Step)
    requires Enabled(s, step)
  {
    Next(s, step).timers != [] || (SweepsAll(step) && DispatchedBy(s, step) !! DeniedIn(step))
  }

  /** A sweep, a release and every job the step dispatches get the locks they ask for. */
  ghost predicate Granted(s: Engine, step: Step)
    requires Enabled(s, step)
  {
    SweepsAll(step) && DispatchedBy(s, step) !! DeniedIn(step) && (step.BodyEnded? || step.Retried? ==> step.lockOk)
  }

  // ---- a step keeps every session attended exactly when it is clear ----

  lemma LiveStays(s: Engine, s': Engine, k: SessionId)
    requires SessionLive(s, k) && forall c :: c in s.live && s.live[c].session == Some(k) ==> c in s'.live && s'.live[c].session == Some(k)
    ensures SessionLive(s', k)
  {
    var c :| c in s.live && s.live[c].session == Some(k);
    assert c in s'.live && s'.live[c].session == Some(k);
  }

  lemma OwnerIsFresh(s: Engine, j: JobId, now: int, k: SessionId)
    requires Exclusive(s) && SessionLive(s, k) && TriggerSafe(s, j, now) && OfSession(s, j, k) && j !in s.running && k in s.leases
    ensures s.leases[k].owner.Some? && s.leases[k].owner != Some(j) && !IsStale(s.leases[k], now)
  {
    var c :| c in s.live && s.live[c].session == Some(k);
    assert Holds(s, k, s.live[c].job);
  }

  lemma UnclaimedTrigger(s: Engine, j: JobId, now: int, denied: set<JobId>)
    requires j !in s.jobs || j in s.running || s.jobs[j].session.None? || j in denied
    requires s.nextCaller !in s.live
    ensures var s' := Trigger(s, j, now, denied);
      s'.leases == s.leases && (forall c :: c in s.live ==> c in s'.live && s'.live[c] == s.live[c])
  {
  }

  /** An outside trigger, denied or not, dispatches nobody where every session is attended. */
  lemma TriggerKeepsAttended(s: Engine, j: JobId, now: int, denied: set<JobId>)
    requires Inv(s) && Attended(s) && s.timers == [] && (TriggerSafe(s, j, now) || j in denied)
    ensures Attended(Trigger(s, j, now, denied)) && PromotedBy(s, j, now, denied) == {}
  {
    assert s.nextCaller !in s.live;
    if j in s.jobs && j !in s.running && s.jobs[j].session.Some? && j !in denied {
      var k := s.jobs[j].session.value;
      if k in s.leases {
        OwnerIsFresh(s, j, now, k);
      }
      hide Inv, TriggerSafe, Trigger, PromotedBy, Attended;
      TriggerKeepsSessionsLive(s, j, now, k, denied);
    } else {
      hide Inv, TriggerSafe, Trigger, SessionLive;
      UnclaimedTrigger(s, j, now, denied);
      forall i | i in s.leases ensures SessionLive(Trigger(s, j, now, denied), i) { LiveStays(s, Trigger(s, j, now, denied), i); }
    }
  }

  lemma TriggerKeepsSessionsLive(s: Engine, j: JobId, now: int, k: SessionId, denied: set<JobId>)
    requires OfSession(s, j, k) && j !in s.running && j !in denied && s.nextCaller !in s.live && Attended(s) && s.timers == []
    requires k in s.leases ==> s.leases[k].owner.Some? && s.leases[k].owner != Some(j) && !IsStale(s.leases[k], now)
    ensures Attended(Trigger(s, j, now, denied)) && PromotedBy(s, j, now, denied) == {}
  {
    var s' := Trigger(s, j, now, denied);
    if k !in s.leases { assert s'.live[s.nextCaller].session == Some(k); }
    forall i | i in s.leases ensures SessionLive(s', i) { LiveStays(s, s', i); }
  }

  lemma {:induction false} RunKeepsTimers(s: Engine, j: JobId, c: CallerId, now: int, denied: set<JobId>)
    ensures Run(s, j, c, now, denied).timers == s.timers
    decreases StaleSessions(s.leases, now)
  {
    if j in s.jobs && j !in s.running && s.jobs[j].session.Some? && j !in denied {
      var k := s.jobs[j].session.value;
      var (rec, claim) := Acquire(LeaseOf(s.leases, k), j, now, SELF);
      var s1 := s.(leases := PutLease(s.leases, k, rec));
      if claim.Queued? && claim.promoted.Some? && claim.promoted.value != j && claim.promoted.value !in s1.running {
        assert k in StaleSessions(s.leases, now) && k !in StaleSessions(s1.leases, now);
        RunKeepsTimers(s1.(nextCaller := s1.nextCaller + 1, dispatches := s1.dispatches[s1.nextCaller := claim.promoted.value]),
                       claim.promoted.value, s1.nextCaller, now, denied);
      }
    }
  }

  /** The engine between a granted release of the activation answering `c` and what it dispatches. */
  function Handing(s: Engine, c: CallerId, out: Outcome, now: int): Engine
    requires c in s.live && s.live[c].session.Some?
  {
    var k := s.live[c].session.value;
    Answer(s.(leases := PutLease(s.leases, k, Release(LeaseOf(s.leases, k), s.live[c].job, now, SELF).0), live := s.live - {c}), c, out)
  }

  lemma HandingShape(s: Engine, c: CallerId, out: Outcome, now: int)
    requires Exclusive(s) && c in s.live && s.live[c].session.Some?
    ensures var k, s1, next := s.live[c].session.value, Handing(s, c, out, now), HandedTo(s, c, now, true);
      && !SessionLive(s1, k) && (forall i :: i != k ==> (i in s1.leases <==> i in s.leases))
      && (if k in s1.leases then exists p :: next == {p} && Dispatchable(s1, p) && OfSession(s1, p, k) else next == {})
  {
    var j, k := s.live[c].job, s.live[c].session.value;
    assert Holds(s, k, j);
    ReleaseServesTheHead(s.leases[k], j, now, SELF);
    if s.leases[k].waiters != [] {
      var p := s.leases[k].waiters[0];
      assert p in s.leases[k].waiters && OfSession(s, p, k);
      WaiterIsNotRunning(s, k, p);
      var s1 := Handing(s, c, out, now);
      assert Dispatchable(s1, p) && OfSession(s1, p, k) && HandedTo(s, c, now, true) == {p};
    }
  }

  lemma GrantedReleaseShape(s: Engine, c: CallerId, out: Outcome, n: nat, now: int, denied: set<JobId>)
    requires c in s.live && s.live[c].session.Some?
    ensures var s1, next, s' := Handing(s, c, out, now), HandedTo(s, c, now, true), ReleaseAttempt(s, c, out, n, now, true, denied);
      if next == {} then s' == s1 else exists p :: next == {p} && s' == Dispatch(s1, p, now, denied)
  {
    hide Release, Dispatch, PutLease;
    var next := HandedTo(s, c, now, true);
    if next != {} {
      var p :| p in next;
      assert next == {p};
    }
  }

  /** Whoever a live owner hands its lease to starts at once, unless it is denied the lock. */
  lemma HandOverAttendance(s: Engine, c: CallerId, out: Outcome, n: nat, now: int, denied: set<JobId>)
    requires Exclusive(s) && Attended(s) && c in s.live && s.live[c].session.Some? && s.nextCaller !in s.live
    ensures var s' := ReleaseAttempt(s, c, out, n, now, true, denied);
      Attended(s') <==> s'.timers != [] || HandedTo(s, c, now, true) !! denied
  {
    var s1 := Handing(s, c, out, now);
    HandingShape(s, c, out, now);
    GrantedReleaseShape(s, c, out, n, now, denied);
    assert s1.live == s.live - {c} && s1.timers == s.timers && s1.nextCaller == s.nextCaller;
    hide Exclusive, Handing, HandedTo, ReleaseAttempt;
    HandedAttendance(s, s1, c, ReleaseAttempt(s, c, out, n, now, true, denied), HandedTo(s, c, now, true), now, denied);
  }

  lemma HandedAttendance(s: Engine, s1: Engine, c: CallerId, s': Engine, next: set<JobId>, now: int, denied: set<JobId>)
    requires Attended(s) && c in s.live && s.live[c].session.Some? && s1.live == s.live - {c} && s1.timers == s.timers && s1.nextCaller !in s.live
    requires !SessionLive(s1, s.live[c].session.value) && (forall i :: i != s.live[c].session.value ==> (i in s1.leases <==> i in s.leases))
    requires if s.live[c].session.value in s1.leases then exists p :: next == {p} && Dispatchable(s1, p) && OfSession(s1, p, s.live[c].session.value) else next == {}
    requires if next == {} then s' == s1 else exists p :: next == {p} && s' == Dispatch(s1, p, now, denied)
    ensures Attended(s') <==> s'.timers != [] || next !! denied
  {
    var k := s.live[c].session.value;
    if next != {} {
      var p :| next == {p} && Dispatchable(s1, p) && OfSession(s1, p, k);
      assert s' == Dispatch(s1, p, now, denied) by {
        var q :| next == {q} && s' == Dispatch(s1, q, now, denied);
        assert q in {p};
      }
      hide Dispatch;
      DispatchFrame(s1, p, now, denied);
      if p in denied { DeniedStartsNothing(s1, p, now, denied); } else { assert s'.live[s1.nextCaller].session == Some(k); }
    }
    forall i | s.timers == [] && i in s'.leases && i != k ensures SessionLive(s', i) {
      assert SessionLive(s, i);
      LiveStays(s, s', i);
    }
  }

  lemma DeniedStartsNothing(s: Engine, j: JobId, now: int, denied: set<JobId>)
    requires Dispatchable(s, j) && j in denied
    ensures Dispatch(s, j, now, denied).live == s.live && Dispatch(s, j, now, denied).leases == s.leases
  {
    DispatchShape(s, j, now, denied);
  }

  lemma ReleaseAttendance(s: Engine, c: CallerId, out: Outcome, n: nat, now: int, lockOk: bool, denied: set<JobId>)
    requires Inv(s) && Attended(s) && c in s.live && s.live[c].session.Some? && s.live[c].job !in s.running
    ensures var s' := ReleaseAttempt(s, c, out, n, now, lockOk, denied);
      Attended(s') <==> s'.timers != [] || HandedTo(s, c, now, lockOk) !! denied
  {
    if lockOk {
      HandOverAttendance(s, c, out, n, now, denied);
    } else {
      var s' := ReleaseAttempt(s, c, out, n, now, lockOk, denied);
      forall i | s'.timers == [] && i in s'.leases ensures SessionLive(s', i) {
        LiveStays(s, s', i);
      }
    }
  }

  lemma BodyEndsAttendance(s: Engine, c: CallerId, out: Outcome, now: int, lockOk: bool, denied: set<JobId>)
    requires Inv(s) && Attended(s) && c in s.live && s.live[c].phase.Executing?
    ensures var s' := BodyEnds(s, c, out, now, lockOk, denied);
      Attended(s') <==> s'.timers != [] || HandedTo(s, c, now, lockOk) !! denied
  {
    var s1 := s.(running := s.running - {s.live[c].job});
    Unwound(s, c, now, lockOk);
    hide Inv, HandedTo, Attended, ReleaseAttempt;
    if s.live[c].session.Some? {
      ReleaseAttendance(s1, c, out, 0, now, lockOk, denied);
    } else {
      SessionlessEndKeepsAttended(s, c, out, now, lockOk, denied);
    }
  }

  lemma SessionlessEndKeepsAttended(s: Engine, c: CallerId, out: Outcome, now: int, lockOk: bool, denied: set<JobId>)
    requires Attended(s) && c in s.live && s.live[c].phase.Executing? && s.live[c].session.None?
    ensures Attended(BodyEnds(s, c, out, now, lockOk, denied)) && HandedTo(s, c, now, lockOk) == {}
  {
    var s' := BodyEnds(s, c, out, now, lockOk, denied);
    forall k | k in s.leases && SessionLive(s, k) ensures SessionLive(s', k) { LiveStays(s, s', k); }
  }

  /** The `running` entry of a body that has returned is gone. */
  lemma Unwound(s: Engine, c: CallerId, now: int, lockOk: bool)
    requires Inv(s) && Attended(s) && c in s.live && s.live[c].phase.Executing?
    ensures var s1 := s.(running := s.running - {s.live[c].job});
      Inv(s1) && Attended(s1) && HandedTo(s1, c, now, lockOk) == HandedTo(s, c, now, lockOk)
  {
    var j := s.live[c].job;
    var s1 := s.(running := s.running - {j});
    LiveJobChangeKeeps(s, c, s.jobs[j].status, true);
    assert SetStatus(s.jobs, j, s.jobs[j].status) == s.jobs;
    hide Inv;
    assert s1.running + {j} == s.running + {j};
    forall k | k in s.leases && SessionLive(s, k) ensures SessionLive(s1, k) { LiveStays(s, s1, k); }
  }

  lemma FullSweepAttendance(s: Engine, order: seq<SessionId>, now: int, denied: set<JobId>)
    requires Exclusive(s) && SweepOrder(s, order) && forall c :: c in s.live ==> c < s.nextCaller
    ensures var s' := RecoverSessionRuns(s, order, |order|, now, denied);
      s'.timers == s.timers && (Attended(s') <==> s'.timers != [] || SweptUp(s, order, |order|, now) !! denied)
  {
    assert LeasesSound(s);
    FullSweepShape(s, order, now, denied);
    var s1, found := Healed(s, order, now), Heal(s.leases, s.jobs, order, now).1;
    var s', swept := DispatchAll(s1, found, now, denied), SweptUp(s, order, |order|, now);
    assert forall j :: j in swept <==> j in found && Unserved(s, j);
    hide SweptUp, Heal, DispatchAll, RecoverSessionRuns, FoundOwners, LeasesSound, OwnedHere, Exclusive, Attended, Recover;
    FoundAreOwnedHere(s1, order, found);
    DispatchAllOnlyAdds(s1, found, now, denied);
    if swept !! denied {
      forall k | k in s'.leases ensures SessionLive(s', k) { FoundIsLive(s, s1, s', order, found, denied, k); }
      EveryLeaseIsLive(s');
    } else {
      var j :| j in swept && j in denied;
      DeniedIsNotLive(s1, s', order, found, j, denied);
      NotLiveNotAttended(s', s.jobs[j].session.value);
    }
  }

  lemma EveryLeaseIsLive(s: Engine)
    requires forall k :: k in s.leases ==> SessionLive(s, k)
    ensures Attended(s)
  {
  }

  lemma NotLiveNotAttended(s: Engine, k: SessionId)
    requires k in s.leases && !SessionLive(s, k)
    ensures Attended(s) <==> s.timers != []
  {
  }

  /** A job the sweep found in a session without a body, and whose lock attempt is denied, is left heading a line
      nobody serves. */
  lemma DeniedIsNotLive(s1: Engine, s': Engine, order: seq<SessionId>, found: seq<JobId>, j: JobId, denied: set<JobId>)
    requires FoundOwners(s1.jobs, order, s1.leases, found) && j in found && Unserved(s1, j) && j in denied
    requires OnlyAdds(s1, s') && LiveOnlyFrom(s1, s', found, denied)
    ensures s1.jobs[j].session.value in s'.leases && !SessionLive(s', s1.jobs[j].session.value)
  {
    assert FoundOwner(s1.jobs, order, s1.leases, j);
    var k := s1.jobs[j].session.value;
    forall i | i in found && OfSession(s1, i, k) ensures i == j { assert FoundOwner(s1.jobs, order, s1.leases, i); }
  }

  lemma FoundIsLive(s: Engine, s1: Engine, s': Engine, order: seq<SessionId>, found: seq<JobId>, denied: set<JobId>, k: SessionId)
    requires Exclusive(s) && FoundOwners(s.jobs, order, s1.leases, found) && LeasesSound(s1) && (forall i :: i in s1.leases ==> i in order)
    requires s1 == s.(leases := s1.leases) && OnlyAdds(s1, s') && k in s'.leases
    requires forall j :: j in found && j !in s1.running && j !in denied ==> Started(s1, s', j)
    requires forall j :: j in found && Unserved(s, j) ==> j !in denied
    ensures SessionLive(s', k)
  {
    var j := s1.leases[k].owner.value;
    assert j in found && OfSession(s1, j, k);
    if SessionLive(s, k) {
      LiveStays(s, s', k);
    } else {
      assert Unserved(s, j);
      assert j !in s.running by { if j in s.running { RunningIsLive(s, j); } }
      var c :| c !in s1.live && c in s'.live && j in s1.jobs && s'.live[c].session == s1.jobs[j].session;
    }
  }

  lemma RunningIsLive(s: Engine, j: JobId)
    requires Exclusive(s) && j in s.running
    ensures !Unserved(s, j)
  {
    assert HasBody(s, j);
    var c :| c in s.live && s.live[c].job == j && s.live[c].phase.Executing?;
    assert s.live[c].session == s.jobs[j].session;
  }

  lemma SweptUpIgnoresTimers(s: Engine, timers: seq<nat>, order: seq<SessionId>, healed: nat, now: int)
    ensures SweptUp(s.(timers := timers), order, healed, now) == SweptUp(s, order, healed, now)
  {
    assert forall j :: Unserved(s.(timers := timers), j) <==> Unserved(s, j);
    hide Heal, Unserved;
  }

  lemma SweepAttendance(s: Engine, i: nat, order: seq<SessionId>, healed: nat, now: int, denied: set<JobId>)
    requires Inv(s) && i < |s.timers| && SweepOrder(s, order) && healed <= |order|
    ensures var s' := RecoveryFires(s, i, order, healed, now, denied);
      Attended(s') <==> s'.timers != [] || (healed == |order| && SweptUp(s, order, healed, now) !! denied)
  {
    if healed == |order| {
      var s0 := s.(timers := s.timers[..i] + s.timers[i + 1..]);
      hide Inv, SweptUp, Heal, DispatchAll, Attended, Exclusive, RecoverSessionRuns;
      CallersAreOld(s);
      OtherTimersAreExclusive(s, s0.timers);
      SweptUpIgnoresTimers(s, s0.timers, order, healed, now);
      FullSweepAttendance(s0, order, now, denied);
    }
  }

  /** What the sweep at boot leads to: every session is attended exactly if it got the locks it asked for. Otherwise it
      is not tried again. */
  lemma BootAttendance(s: Engine, order: seq<SessionId>, healed: nat, now: int, denied: set<JobId>)
    requires Booted(s) && SweepOrder(s, order) && healed <= |order|
    ensures var s' := RecoverSessionRuns(s, order, healed, now, denied);
      && s'.timers == []
      && (Attended(s') <==> healed == |order| && SweptUp(s, order, healed, now) !! denied)
  {
    BootedIsSound(s, []);
    assert s.(timers := []) == s;
    if healed == |order| {
      CallersAreOld(s);
      hide Inv, SweptUp, Heal, DispatchAll, Attended, RecoverSessionRuns, Exclusive;
      FullSweepAttendance(s, order, now, denied);
    } else {
      hide Inv, Attended, SweptUp;
      UnhealedIsNotAttended(s, order, healed, now);
    }
  }

  lemma UnhealedIsNotAttended(s: Engine, order: seq<SessionId>, healed: nat, now: int)
    requires Booted(s) && SweepOrder(s, order) && healed < |order|
    ensures !Attended(s.(leases := Heal(s.leases, s.jobs, order[..healed], now).0))
  {
    assert order[healed] in s.leases && order[healed] !in order[..healed];
    HealEach(s, order[..healed], now);
    var s' := s.(leases := Heal(s.leases, s.jobs, order[..healed], now).0);
    hide Heal, FoundOwners, Recover;
    assert LeaseOf(s'.leases, order[healed]) == s.leases[order[healed]] && s.leases[order[healed]].owner.Some?;
    assert order[healed] in s'.leases && !SessionLive(s', order[healed]);
  }

  lemma CancelLeavesLive(s: Engine, j: JobId, lockOk: bool)
    ensures var s' := Cancel(s, j, lockOk); s'.live == s.live && s'.timers == s.timers && s'.leases.Keys <= s.leases.Keys
  {
    hide Dequeue, SetStatus, AnswerAll;
  }

  lemma CancelKeepsAttended(s: Engine, j: JobId, lockOk: bool)
    requires Attended(s)
    ensures Attended(Cancel(s, j, lockOk))
  {
    CancelLeavesLive(s, j, lockOk);
    hide Cancel;
    var s' := Cancel(s, j, lockOk);
    forall k | s.timers == [] && k in s'.leases ensures SessionLive(s', k) { LiveStays(s, s', k); }
  }

  lemma BeatKeepsAttended(s: Engine, c: CallerId, now: int)
    requires Inv(s) && Attended(s) && c in s.live && s.live[c].session.Some?
    ensures Attended(Beat(s, c, now))
  {
    var s' := Beat(s, c, now);
    assert Holds(s, s.live[c].session.value, s.live[c].job);
    hide Inv;
    forall k | k in s.leases && SessionLive(s, k) ensures SessionLive(s', k) { LiveStays(s, s', k); }
  }

  lemma TriggerAttendance(s: Engine, j: JobId, now: int, denied: set<JobId>)
    requires Inv(s) && Attended(s) && (TriggerSafe(s, j, now) || j in denied)
    ensures var s' := Trigger(s, j, now, denied); Attended(s') && (s'.timers != [] || PromotedBy(s, j, now, denied) == {})
  {
    hide Inv, TriggerSafe, PromotedBy, SessionLive;
    if s.timers == [] {
      hide Trigger, Attended;
      TriggerKeepsAttended(s, j, now, denied);
    } else {
      hide Run;
      RunKeepsTimers(s.(nextCaller := s.nextCaller + 1), j, s.nextCaller, now, denied);
    }
  }

  lemma WriteKeepsAttended(s: Engine, c: CallerId, status: Status, drop: bool)
    requires Attended(s) && c in s.live && s.live[c].phase.Executing?
    ensures Attended(BodyWrites(s, c, status, drop))
  {
    forall k | k in s.leases && SessionLive(s, k) ensures SessionLive(BodyWrites(s, c, status, drop), k) {
      LiveStays(s, BodyWrites(s, c, status, drop), k);
    }
  }

  lemma SettleKeepsAttended(s: Engine, c: CallerId)
    requires Attended(s) && c in s.dispatches && c in s.answers
    ensures Attended(Settle(s, c))
  {
    forall k | k in s.leases && SessionLive(s, k) ensures SessionLive(Settle(s, c), k) { LiveStays(s, Settle(s, c), k); }
  }

  /** From a state in which every session is attended, a safe step leaves every session attended if and only if it
      denies the lock to none of the jobs it dispatches, or leaves a sweep armed. */
  lemma AttendanceIsExact(s: Engine, step: Step)
    requires Inv(s) && Attended(s) && Enabled(s, step) && Safe(s, step)
    ensures Attended(Next(s, step)) <==> Clear(s, step)
  {
    hide Inv, Trigger, BodyEnds, ReleaseAttempt, RecoveryFires, RecoverSessionRuns, Cancel, Beat, HandedTo, PromotedBy, SweptUp, TriggerSafe, SweepSafe, Attended, Booted;
    match step
    case BootSwept(order, healed, now, denied) => BootAttendance(s, order, healed, now, denied);
    case Triggered(j, now, denied) => TriggerAttendance(s, j, now, denied);
    case BodyWrote(c, status, drop) => WriteKeepsAttended(s, c, status, drop);
    case BodyEnded(c, out, now, lockOk, denied) => BodyEndsAttendance(s, c, out, now, lockOk, denied);
    case Retried(c, now, lockOk, denied) =>
      CallersAreOld(s);
      ReleasingIsNotRunning(s, c);
      ReleaseAttendance(s, c, s.live[c].phase.outcome, s.live[c].phase.attempts, now, lockOk, denied);
    case Settled(c) => SettleKeepsAttended(s, c);
    case Cancelling(j, lockOk) => CancelKeepsAttended(s, j, lockOk);
    case Recovered(i, order, healed, now, denied) => SweepAttendance(s, i, order, healed, now, denied);
    case Beating(c, now) => BeatKeepsAttended(s, c, now);
  }

  /** From the boot sweep on. */
  ghost predicate AttendedUpTo(states: seq<Engine>, n: nat)
    requires n < |states|
  {
    forall m :: 1 <= m <= n ==> Attended(states[m])
  }

  ghost predicate ClearUpTo(states: seq<Engine>, steps: seq<Step>, n: nat)
    requires n < |states| && n <= |steps| && forall i :: 0 <= i < |steps| ==> i < |states| && Enabled(states[i], steps[i])
  {
    forall m :: 0 <= m < n ==> Clear(states[m], steps[m])
  }

  lemma BootStepAttendance(s: Engine, step: Step)
    requires Enabled(s, step) && step.BootSwept?
    ensures Attended(Next(s, step)) <==> Clear(s, step)
  {
    hide Attended, SweptUp, RecoverSessionRuns, Booted;
    BootAttendance(s, step.order, step.healed, step.now, step.denied);
  }

  /** Over every safe run, whatever leases were persisted: from the sweep at boot on, every session stays attended if and
      only if that sweep and every later step is clear. */
  lemma {:induction false} AttendedThroughout(states: seq<Engine>, steps: seq<Step>, n: nat)
    requires IsRun(states, steps) && n < |states|
    ensures AttendedUpTo(states, n) <==> ClearUpTo(states, steps, n)
  {
    if n > 0 {
      hide Inv, Attended, Clear, Next, Safe, Enabled, Booted;
      AttendedThroughout(states, steps, n - 1);
      RunStep(states, steps, n - 1);
      if n == 1 {
        BootStepAttendance(states[0], steps[0]);
      } else if Attended(states[n - 1]) {
        AttendanceIsExact(states[n - 1], steps[n - 1]);
      }
    }
  }
}
