/** What each call of `run` comes to: whether it starts, waits or is answered at once, and what it is answered in the end. */
module SessionLeaseAnswers {
  import opened Options
  import opened SessionRunQueue
  import opened SessionLease
  import opened SessionLeaseProof
  import opened SessionLeaseExact
  import opened SessionLeaseRuns
  import opened SessionLeaseHeartbeats

  // ---- a call ----

  ghost predicate IsAnswered(s: Engine, c: CallerId, out: Outcome) {
    c in s.answers && s.answers[c] == out
  }

  ghost predicate Starts(s: Engine, c: CallerId, j: JobId, session: Option<SessionId>) {
    c in s.live && s.live[c] == Activation(j, session, Executing) && j in s.running
  }

  ghost predicate Waits(s: Engine, c: CallerId, j: JobId) {
    ParkedOn(s, j, c) && j in s.jobs && s.jobs[j].status == Pending
  }

  lemma UnknownCall(s: Engine, j: JobId, now: int, denied: set<JobId>)
    requires j !in s.jobs || j in s.running || s.jobs[j].session.None?
    ensures var s', c := Trigger(s, j, now, denied), s.nextCaller;
      if j !in s.jobs then IsAnswered(s', c, Threw)
      else if j in s.running then IsAnswered(s', c, Finished(s.jobs[j].status))
      else Starts(s', c, j, None)
  {
    hide Acquire, SettleParked, SetStatus;
  }

  lemma DeniedCall(s: Engine, j: JobId, now: int, denied: set<JobId>)
    requires j in s.jobs && j !in s.running && s.jobs[j].session.Some? && j in denied
    ensures var s', c := Trigger(s, j, now, denied), s.nextCaller;
      && IsAnswered(s', c, Finished(Failed)) && s'.jobs[j].status == Failed && j !in s'.parked && s'.leases == s.leases && s'.live == s.live
      && forall d :: ParkedOn(s, j, d) ==> d in s'.answers && s'.answers[d] == Finished(Failed)
  {
    hide Acquire;
  }

  lemma ParkedShape(s: Engine, j: JobId, c: CallerId)
    requires j in s.jobs
    ensures Waits(Park(s, j, c), c, j)
  {
  }

  lemma ContendedShape(s: Engine, j: JobId, k: SessionId, now: int, denied: set<JobId>)
    requires OfSession(s, j, k) && j !in s.running && j !in denied && Acquire(LeaseOf(s.leases, k), j, now, SELF).1.Contended?
    ensures IsAnswered(Trigger(s, j, now, denied), s.nextCaller, Finished(s.jobs[j].status))
  {
    hide Acquire;
  }

  lemma GrantedShape(s: Engine, j: JobId, k: SessionId, now: int, denied: set<JobId>)
    requires OfSession(s, j, k) && j !in s.running && j !in denied && Acquire(LeaseOf(s.leases, k), j, now, SELF).1 in {Acquired, Owned}
    ensures Starts(Trigger(s, j, now, denied), s.nextCaller, j, Some(k))
  {
    hide Acquire;
  }

  lemma DispatchStarts(s: Engine, p: JobId, k: SessionId, now: int, denied: set<JobId>)
    requires Dispatchable(s, p) && OfSession(s, p, k) && p !in denied
    ensures Starts(Dispatch(s, p, now, denied), s.nextCaller, p, Some(k))
  {
    DispatchShape(s, p, now, denied);
  }

  lemma ParkKeepsBodies(s: Engine, j: JobId, c: CallerId)
    ensures Park(s, j, c).live == s.live && Park(s, j, c).running == s.running
  {
  }

  lemma QueuedShape(s: Engine, j: JobId, k: SessionId, now: int, denied: set<JobId>)
    requires Inv(s) && OfSession(s, j, k) && j !in s.running && j !in denied && Acquire(LeaseOf(s.leases, k), j, now, SELF).1.Queued?
    ensures Waits(Trigger(s, j, now, denied), s.nextCaller, j)
    ensures var promoted := Acquire(LeaseOf(s.leases, k), j, now, SELF).1.promoted;
      promoted.Some? && promoted.value !in denied ==> Starts(Trigger(s, j, now, denied), s.nextCaller + 1, promoted.value, Some(k))
  {
    var cur := LeaseOf(s.leases, k);
    var claim := Acquire(cur, j, now, SELF).1;
    SoundRecord(s, k);
    AcquireStamps(cur, j, now);
    if claim.promoted.Some? {
      var p := claim.promoted.value;
      assert p in cur.waiters && k in s.leases && s.nextCaller + 1 !in s.live;
      WaiterIsNotRunning(s, k, p);
      hide Inv, Trigger, Acquire, Starts, Waits;
      StaleQueuedShape(s, j, k, p, now, denied);
    } else {
      hide Inv, Acquire;
    }
  }

  lemma StaleQueuedShape(s: Engine, j: JobId, k: SessionId, p: JobId, now: int, denied: set<JobId>)
    requires OfSession(s, j, k) && j !in s.running && j !in denied && OfSession(s, p, k) && p !in s.running && p != j && s.nextCaller + 1 !in s.live
    requires var (rec, claim) := Acquire(LeaseOf(s.leases, k), j, now, SELF); claim == Queued(Some(p)) && rec.owner == Some(p) && rec.token == None
    ensures var s' := Trigger(s, j, now, denied);
      Waits(s', s.nextCaller, j) && (p !in denied ==> Starts(s', s.nextCaller + 1, p, Some(k)))
  {
    var s1 := s.(nextCaller := s.nextCaller + 1, leases := PutLease(s.leases, k, Acquire(LeaseOf(s.leases, k), j, now, SELF).0));
    assert Dispatchable(s1, p);
    hide Trigger, Acquire, Dispatchable, Park;
    StaleClaimShape(s, s1, j, k, p, now, denied);
    var s2 := Dispatch(s1, p, now, denied);
    DispatchFrame(s1, p, now, denied);
    if p !in denied { DispatchStarts(s1, p, k, now, denied); }
    ParkedShape(s2, j, s.nextCaller);
    ParkKeepsBodies(s2, j, s.nextCaller);
  }

  /** A call made from outside: of a missing job it is rejected; of a running one it is answered with the job as it is; a
      job without a session starts at once; one that is denied the lock fails, and with it all its parked callers. Else it
      starts if nobody holds the session's lease, or its own job does, or the holder has shown no sign of life for two
      minutes and nobody else is next; it is answered as it is if another process holds the lease for that same job; and it
      waits in all other cases. Where the holder was silent and somebody else is next, that one starts. */
  lemma WhatACallComesTo(s: Engine, j: JobId, now: int, denied: set<JobId>)
    requires Inv(s)
    ensures var s', c := Trigger(s, j, now, denied), s.nextCaller;
      if j !in s.jobs then IsAnswered(s', c, Threw)
      else if j in s.running then IsAnswered(s', c, Finished(s.jobs[j].status))
      else if s.jobs[j].session.None? then Starts(s', c, j, None)
      else if j in denied then IsAnswered(s', c, Finished(Failed)) && forall d :: ParkedOn(s, j, d) ==> IsAnswered(s', d, Finished(Failed))
      else
        var k := s.jobs[j].session.value;
        if k !in s.leases then Starts(s', c, j, Some(k))
        else
          var rec := s.leases[k];
          var stale := now - rec.heartbeatAt > 120_000;
          if rec.owner == Some(j) then
            if rec.token in {None, Some(SELF)} || stale then Starts(s', c, j, Some(k)) else IsAnswered(s', c, Finished(s.jobs[j].status))
          else if stale && (rec.waiters == [] || rec.waiters[0] == j) then Starts(s', c, j, Some(k))
          else Waits(s', c, j) && (stale && rec.waiters[0] !in denied ==> Starts(s', c + 1, rec.waiters[0], Some(k)))
  {
    if j in s.jobs && j !in s.running && s.jobs[j].session.Some? {
      if j in denied {
        hide Inv, Trigger;
        DeniedCall(s, j, now, denied);
      } else {
        ClaimedCall(s, j, s.jobs[j].session.value, now, denied);
      }
    } else {
      hide Inv, Trigger;
      UnknownCall(s, j, now, denied);
    }
  }

  lemma ClaimedCall(s: Engine, j: JobId, k: SessionId, now: int, denied: set<JobId>)
    requires Inv(s) && OfSession(s, j, k) && j !in s.running && j !in denied
    ensures var s', c := Trigger(s, j, now, denied), s.nextCaller;
      if k !in s.leases then Starts(s', c, j, Some(k))
      else
        var rec := s.leases[k];
        var stale := now - rec.heartbeatAt > 120_000;
        if rec.owner == Some(j) then
          if rec.token in {None, Some(SELF)} || stale then Starts(s', c, j, Some(k)) else IsAnswered(s', c, Finished(s.jobs[j].status))
        else if stale && (rec.waiters == [] || rec.waiters[0] == j) then Starts(s', c, j, Some(k))
        else Waits(s', c, j) && (stale && rec.waiters[0] !in denied ==> Starts(s', c + 1, rec.waiters[0], Some(k)))
  {
    assert k in s.leases ==> s.leases[k].owner.Some? by { assert LeasesSound(s); }
    hide Inv, Trigger, Starts, Waits, IsAnswered;
    var claim := Acquire(LeaseOf(s.leases, k), j, now, SELF).1;
    match claim
    case Contended => ContendedShape(s, j, k, now, denied);
    case Queued(_) => QueuedShape(s, j, k, now, denied);
    case _ => GrantedShape(s, j, k, now, denied);
  }

  // ---- the end of a turn ----

  /** The turn that answers `c` has ended with `out`: it has been answered so, or its release is being retried. */
  ghost predicate EndedWith(s: Engine, c: CallerId, out: Outcome) {
    IsAnswered(s, c, out) || (c in s.live && s.live[c].phase.Releasing? && s.live[c].phase.outcome == out)
  }

  lemma ReleaseAnswers(s: Engine, c: CallerId, out: Outcome, n: nat, now: int, lockOk: bool, denied: set<JobId>)
    requires Inv(s) && c in s.live && s.live[c].session.Some? && s.live[c].job !in s.running
    ensures EndedWith(ReleaseAttempt(s, c, out, n, now, lockOk, denied), c, out)
    ensures IsAnswered(ReleaseAttempt(s, c, out, n, now, lockOk, denied), c, out) <==> lockOk || n + 1 >= 5
  {
    if lockOk {
      var k := s.live[c].session.value;
      assert Holds(s, k, s.live[c].job) && ValidLease(s.leases[k]) && forall p :: p in s.leases[k].waiters ==> OfSession(s, p, k) by {
        assert LeasesSound(s);
      }
      assert c < s.nextCaller && c !in s.answers && forall j :: !ParkedOn(s, j, c);
      if s.leases[k].waiters != [] {
        assert s.leases[k].waiters[0] in s.leases[k].waiters;
        WaiterIsNotRunning(s, k, s.leases[k].waiters[0]);
      }
      hide Inv, ValidLease;
      GrantedReleaseAnswers(s, c, out, n, now, denied);
    } else {
      hide Inv;
    }
  }

  lemma GrantedReleaseAnswers(s: Engine, c: CallerId, out: Outcome, n: nat, now: int, denied: set<JobId>)
    requires c in s.live && s.live[c].session.Some? && c < s.nextCaller && c !in s.answers && forall j :: !ParkedOn(s, j, c)
    requires var k := s.live[c].session.value;
      && Holds(s, k, s.live[c].job) && ValidLease(s.leases[k])
      && (s.leases[k].waiters != [] ==> OfSession(s, s.leases[k].waiters[0], k) && s.leases[k].waiters[0] !in s.running)
    ensures IsAnswered(ReleaseAttempt(s, c, out, n, now, true, denied), c, out)
  {
    var k := s.live[c].session.value;
    ReleaseRecord(s.leases[k], s.live[c].job, now);
    hide ValidLease;
    var (rec, next) := Release(s.leases[k], s.live[c].job, now, SELF);
    var s1 := Answer(s.(leases := PutLease(s.leases, k, rec), live := s.live - {c}), c, out);
    assert ReleaseAttempt(s, c, out, n, now, true, denied) == if next.Some? then Dispatch(s1, next.value, now, denied) else s1;
    if next.Some? {
      assert Dispatchable(s1, next.value);
      forall j ensures !ParkedOn(s1, j, c) { SameParking(s, s1, j, c); }
      hide Release, Dispatchable, Dispatch, Holds, ParkedOn, ReleaseAttempt;
      DispatchKeepsAnswer(s1, next.value, now, denied, c);
    }
  }

  lemma SameParking(s: Engine, s': Engine, j: JobId, c: CallerId)
    requires s'.parked == s.parked && !ParkedOn(s, j, c)
    ensures !ParkedOn(s', j, c)
  {
  }

  lemma DispatchKeepsAnswer(s: Engine, j: JobId, now: int, denied: set<JobId>, c: CallerId)
    requires Dispatchable(s, j) && c in s.answers && c < s.nextCaller && !ParkedOn(s, j, c)
    ensures var s' := Dispatch(s, j, now, denied); c in s'.answers && s'.answers[c] == s.answers[c]
  {
    DispatchShape(s, j, now, denied);
  }

  lemma EndAnswers(s: Engine, step: Step, c: CallerId)
    requires Inv(s) && Enabled(s, step) && (step.BodyEnded? || step.Retried?) && step.caller == c
    ensures EndedWith(Next(s, step), c, if step.BodyEnded? then step.outcome else s.live[c].phase.outcome)
  {
    hide EndedWith, ReleaseAttempt;
    if step.Retried? {
      ReleasingIsNotRunning(s, c);
      hide Inv;
      ReleaseAnswers(s, c, s.live[c].phase.outcome, s.live[c].phase.attempts, step.now, step.lockOk, step.denied);
    } else if s.live[c].session.Some? {
      var s1 := s.(running := s.running - {s.live[c].job});
      LiveJobChangeKeeps(s, c, s.jobs[s.live[c].job].status, true);
      assert SetStatus(s.jobs, s.live[c].job, s.jobs[s.live[c].job].status) == s.jobs;
      hide Inv;
      ReleaseAnswers(s1, c, step.outcome, 0, step.now, step.lockOk, step.denied);
    } else {
      hide Inv;
      SessionlessEndAnswers(s, step);
    }
  }

  lemma SessionlessEndAnswers(s: Engine, step: Step)
    requires Enabled(s, step) && step.BodyEnded? && s.live[step.caller].session.None?
    ensures EndedWith(Next(s, step), step.caller, step.outcome)
  {
  }

  lemma EndedStays(s: Engine, step: Step, c: CallerId, out: Outcome)
    requires Inv(s) && Enabled(s, step) && Safe(s, step) && EndedWith(s, c, out)
    ensures EndedWith(Next(s, step), c, out)
  {
    StepKeeps(s, step);
    if !IsAnswered(s, c, out) {
      assert c < s.nextCaller;
      hide Inv, Next;
      if (step.BodyEnded? || step.Retried?) && step.caller == c {
        EndAnswers(s, step, c);
      } else {
        StepKeepsOtherBodies(s, step, c);
      }
    } else {
      hide Inv, Next;
    }
  }

  lemma RunLength(states: seq<Engine>, steps: seq<Step>)
    requires IsRun(states, steps)
    ensures |states| == |steps| + 1
  {
    hide Booted, Enabled, Safe, Next;
  }

  /** The caller whose turn ends is answered with what the turn came to, and with nothing else: at once, or when one of the
      retries of its release is granted the lock or the last has failed. */
  lemma {:induction false} TurnsAnswerTheirOutcome(states: seq<Engine>, steps: seq<Step>, m: nat, n: nat)
    requires IsRun(states, steps) && m < n < |states| && m < |steps| && steps[m].BodyEnded?
    ensures EndedWith(states[n], steps[m].caller, steps[m].outcome)
    decreases n - m
  {
    hide IsRun, IsPath, Booted, Inv, Next, Enabled, Safe, EndedWith;
    RunLength(states, steps);
    RunStep(states, steps, n - 1);
    if m + 1 == n {
      EndAnswers(states[m], steps[m], steps[m].caller);
    } else {
      TurnsAnswerTheirOutcome(states, steps, m, n - 1);
      EndedStays(states[n - 1], steps[n - 1], steps[m].caller, steps[m].outcome);
    }
  }

  // ---- cancelling ----

  /** Cancelling a running job drops its handle, and leaves lease, body and callers to the body. A queued job leaves the
      line, nobody else does, and all its callers are told. Anything else is not touched. */
  lemma WhatACancelDoes(s: Engine, j: JobId, lockOk: bool)
    requires Inv(s)
    ensures var s' := Cancel(s, j, lockOk);
      if j in s.running then
        && s' == s.(running := s.running - {j}, jobs := s'.jobs) && SameSessions(s, s')
        && forall i :: i in s.jobs ==> s'.jobs[i].status == if i == j && s.jobs[j].status == Running then Cancelled else s.jobs[i].status
      else if lockOk && exists k :: k in s.leases && j in s.leases[k].waiters then
        && (forall d :: ParkedOn(s, j, d) ==> IsAnswered(s', d, Finished(Cancelled)))
        && j !in s'.parked && j in s'.jobs && s'.jobs[j].status == Cancelled && s'.live == s.live && s'.running == s.running
        && s'.leases.Keys == s.leases.Keys
        && forall k :: k in s.leases ==> Line(s'.leases[k]) == Without(Line(s.leases[k]), j)
      else s' == s
  {
    SoundLeases(s);
    hide Inv, Cancel, Line, Without, ValidLease;
    if j !in s.running && lockOk && exists k :: k in s.leases && j in s.leases[k].waiters {
      var k :| k in s.leases && j in s.leases[k].waiters;
      assert OfSession(s, j, k) && s.leases[k].owner.Some? && ValidLease(s.leases[k]);
      WaiterIsNoOwner(s.leases[k], j);
      DequeueLeavesTheOwner(s.leases[k], j);
      forall i | i in s.leases && i != k ensures Without(Line(s.leases[i]), j) == Line(s.leases[i]) {
        LineOfOther(s, i, k, j);
      }
      hide LeasesSound;
      QueuedCancel(s, j, k);
    } else {
      OtherCancel(s, j, lockOk);
    }
  }

  lemma SoundLeases(s: Engine)
    requires Inv(s)
    ensures LeasesSound(s)
  {
  }

  lemma WaiterIsNoOwner(rec: Lease, j: JobId)
    requires ValidLease(rec) && j in rec.waiters
    ensures rec.owner != Some(j)
  {
  }

  lemma OtherCancel(s: Engine, j: JobId, lockOk: bool)
    requires j in s.running || !lockOk || forall k :: k in s.leases ==> j !in s.leases[k].waiters
    ensures var s' := Cancel(s, j, lockOk);
      if j in s.running then
        && s' == s.(running := s.running - {j}, jobs := s'.jobs) && SameSessions(s, s')
        && forall i :: i in s.jobs ==> s'.jobs[i].status == if i == j && s.jobs[j].status == Running then Cancelled else s.jobs[i].status
      else s' == s
  {
    hide Dequeue, SettleParked;
  }

  lemma LineOfOther(s: Engine, i: SessionId, k: SessionId, j: JobId)
    requires LeasesSound(s) && i in s.leases && OfSession(s, j, k) && i != k
    ensures Without(Line(s.leases[i]), j) == Line(s.leases[i])
  {
    assert j !in Line(s.leases[i]);
    WithoutMembers(Line(s.leases[i]), j);
  }

  lemma QueuedCancel(s: Engine, j: JobId, k: SessionId)
    requires j !in s.running && OfSession(s, j, k) && k in s.leases && j in s.leases[k].waiters && s.leases[k].owner.Some?
    requires Dequeue(s.leases[k], j).owner == s.leases[k].owner
    ensures var s' := Cancel(s, j, true);
      && (forall d :: ParkedOn(s, j, d) ==> IsAnswered(s', d, Finished(Cancelled)))
      && j !in s'.parked && j in s'.jobs && s'.jobs[j].status == Cancelled && s'.live == s.live && s'.running == s.running
      && s'.leases == s.leases[k := Dequeue(s.leases[k], j)]
  {
    hide Dequeue;
  }

  // ---- what sweeps start ----

  /** A sweep starts only jobs that had not finished: pending, or still marked as running. */
  lemma SweepsStartTheUnfinished(s: Engine, order: seq<SessionId>, healed: nat, now: int, denied: set<JobId>, k: SessionId)
    requires LeasesSound(s) && SweepOrder(s, order) && healed <= |order| && (forall c :: c in s.live ==> c < s.nextCaller)
    requires SessionLive(RecoverSessionRuns(s, order, healed, now, denied), k) && !SessionLive(s, k)
    ensures exists j :: OfSession(s, j, k) && j !in denied && s.jobs[j].status in {Pending, Running}
  {
    hide Heal, DispatchAll, LeasesSound;
    PartialStartsNothing(s, order, healed, now, denied, k);
    assert healed == |order|;
    FullSweepShape(s, order, now, denied);
    var s1, found := Healed(s, order, now), Heal(s.leases, s.jobs, order, now).1;
    hide RecoverSessionRuns, SessionLive;
    FoundAreOwnedHere(s1, order, found);
    DispatchAllOnlyAdds(s1, found, now, denied);
    SameBodies(s, s1, k);
    var j :| j in found && j !in denied && OfSession(s1, j, k);
    assert FoundOwner(s.jobs, order, s1.leases, j);
  }

  lemma PartialStartsNothing(s: Engine, order: seq<SessionId>, healed: nat, now: int, denied: set<JobId>, k: SessionId)
    requires healed <= |order|
    ensures healed < |order| ==> (SessionLive(RecoverSessionRuns(s, order, healed, now, denied), k) <==> SessionLive(s, k))
  {
    hide Heal;
    if healed < |order| { SameBodies(s, RecoverSessionRuns(s, order, healed, now, denied), k); }
  }

  lemma SameBodies(s: Engine, s': Engine, k: SessionId)
    requires s'.live == s.live
    ensures SessionLive(s', k) <==> SessionLive(s, k)
  {
  }
}
