/** What a denied dispatch leaves behind: a line that nobody serves until somebody outside asks for one of its jobs. */
module SessionLeaseStalls {
  import opened Options
  import opened SessionRunQueue
  import opened SessionLease
  import opened SessionLeaseProof
  import opened SessionLeaseExact
  import opened SessionLeaseRuns
  import opened SessionLeaseAttended

  ghost predicate Stalled(s: Engine, k: SessionId) {
    k in s.leases && !SessionLive(s, k) && s.timers == []
  }

  /** Every step that is not clear leaves a stalled session, the sweep at boot included. */
  lemma UnclearStepStalls(s: Engine, step: Step)
    requires Inv(s) && (Attended(s) || step.BootSwept?) && Enabled(s, step) && Safe(s, step)
    ensures Clear(s, step) <==> !exists k :: Stalled(Next(s, step), k)
  {
    if step.BootSwept? { BootStepAttendance(s, step); } else { AttendanceIsExact(s, step); }
    hide Inv, Clear, Safe, Next, Enabled, SessionLive;
    var t := Next(s, step);
    if Attended(t) {
      forall k ensures !Stalled(t, k) { }
    } else {
      var k :| k in t.leases && !SessionLive(t, k);
      assert Stalled(t, k);
    }
  }

  /** The step is not a call of `run` or a cancel for a job of `k`. */
  ghost predicate Elsewhere(s: Engine, step: Step, k: SessionId) {
    (step.Triggered? || step.Cancelling?) ==> !OfSession(s, step.job, k)
  }

  /** The lease of `k` stays, no body of `k` starts, and callers parked on its undispatched jobs stay parked. */
  ghost predicate Untouched(s: Engine, s': Engine, k: SessionId) {
    && SameSessions(s, s') && (k in s.leases ==> k in s'.leases && s'.leases[k] == s.leases[k])
    && (SessionLive(s', k) ==> SessionLive(s, k))
    && forall j :: OfSession(s, j, k) && !Promised(s, j) ==> SameParking(s, s', j)
  }

  ghost predicate SameParking(s: Engine, s': Engine, j: JobId) {
    !Promised(s', j) && (j in s.parked ==> j in s'.parked && s'.parked[j] == s.parked[j])
  }

  lemma UntouchedTrans(s: Engine, s1: Engine, s2: Engine, k: SessionId)
    requires Untouched(s, s1, k) && Untouched(s1, s2, k)
    ensures Untouched(s, s2, k)
  {
    hide Promised, SessionLive;
    forall j | OfSession(s, j, k) && !Promised(s, j) ensures SameParking(s, s2, j) {
      assert SameParking(s, s1, j) && SameParking(s1, s2, j);
    }
  }

  /** What `run` does short of a claim, of a job of another session. */
  lemma NoNewPromise(s: Engine, s': Engine, k: SessionId)
    requires forall j :: OfSession(s, j, k) && Promised(s', j) ==> Promised(s, j)
    requires SameSessions(s, s') && (k in s.leases ==> k in s'.leases && s'.leases[k] == s.leases[k])
    requires forall c :: c in s'.live && s'.live[c].session == Some(k) ==> c in s.live && s.live[c].session == Some(k)
    requires forall j :: OfSession(s, j, k) && !Promised(s, j) && j in s.parked ==> j in s'.parked && s'.parked[j] == s.parked[j]
    ensures Untouched(s, s', k)
  {
  }

  lemma ExecuteElsewhere(s: Engine, j: JobId, session: Option<SessionId>, c: CallerId, k: SessionId)
    requires session != Some(k)
    ensures Untouched(s, Execute(s, j, session, c), k)
  {
    NoNewPromise(s, Execute(s, j, session, c), k);
  }

  lemma DeniedElsewhere(s: Engine, j: JobId, c: CallerId, k: SessionId)
    requires !OfSession(s, j, k)
    ensures Untouched(s, ClaimDenied(s, j, c), k)
  {
    NoNewPromise(s, ClaimDenied(s, j, c), k);
  }

  lemma ParkElsewhere(s: Engine, j: JobId, c: CallerId, k: SessionId)
    requires !OfSession(s, j, k)
    ensures Untouched(s, Park(s, j, c), k)
  {
    NoNewPromise(s, Park(s, j, c), k);
  }

  lemma LeaseElsewhere(s: Engine, i: SessionId, rec: Lease, k: SessionId)
    requires i != k
    ensures Untouched(s, s.(leases := PutLease(s.leases, i, rec)), k)
  {
    NoNewPromise(s, s.(leases := PutLease(s.leases, i, rec)), k);
  }

  lemma RegisterElsewhere(s: Engine, j: JobId, k: SessionId)
    requires !OfSession(s, j, k)
    ensures Untouched(s, Registered(s, j), k)
  {
    forall i | OfSession(s, i, k) && Promised(Registered(s, j), i) ensures Promised(s, i) {
      var c :| c in Registered(s, j).dispatches && Registered(s, j).dispatches[c] == i;
      assert c in s.dispatches && s.dispatches[c] == i;
    }
    NoNewPromise(s, Registered(s, j), k);
  }

  lemma DispatchElsewhere(s: Engine, j: JobId, now: int, denied: set<JobId>, k: SessionId)
    requires Dispatchable(s, j) && !OfSession(s, j, k)
    ensures Untouched(s, Dispatch(s, j, now, denied), k)
  {
    DispatchShape(s, j, now, denied);
    var s1, i := Registered(s, j), s.jobs[j].session.value;
    assert !OfSession(s1, j, k) && i != k && i in s1.leases;
    RegisterElsewhere(s, j, k);
    hide Dispatch, Untouched, Dispatchable, ClaimDenied, Execute;
    if j in denied {
      DeniedElsewhere(s1, j, s.nextCaller, k);
      UntouchedTrans(s, s1, ClaimDenied(s1, j, s.nextCaller), k);
    } else {
      var rec := s1.leases[i].(token := Some(SELF), heartbeatAt := now);
      var s2 := Claimed(s1, i, now);
      assert s2 == s1.(leases := s1.leases[i := rec]);
      LeaseElsewhere(s1, i, rec, k);
      assert PutLease(s1.leases, i, rec) == s1.leases[i := rec] by { assert rec.owner.Some?; }
      ExecuteElsewhere(s2, j, Some(i), s.nextCaller, k);
      UntouchedTrans(s, s1, s2, k);
      UntouchedTrans(s, s2, Execute(s2, j, Some(i), s.nextCaller), k);
    }
  }

  /** The claim of a job of another session, granted the lock. */
  lemma ClaimElsewhere(s: Engine, j: JobId, i: SessionId, c: CallerId, now: int, denied: set<JobId>, k: SessionId)
    requires LeasesSound(s) && OfSession(s, j, i) && i != k && j !in s.running && j !in denied
    ensures Untouched(s, Run(s, j, c, now, denied), k)
  {
    var cur := LeaseOf(s.leases, i);
    var (rec, claim) := Acquire(cur, j, now, SELF);
    var s1 := s.(leases := PutLease(s.leases, i, rec));
    assert !OfSession(s1, j, k);
    if claim.Queued? && claim.promoted.Some? && claim.promoted.value != j && claim.promoted.value !in s1.running {
      var p := claim.promoted.value;
      assert p in cur.waiters && OfSession(s1, p, i) && !OfSession(s1, p, k) && Dispatchable(s1, p);
      var s2 := Dispatch(s1, p, now, denied);
      assert Run(s, j, c, now, denied) == Park(s2, j, c);
      hide LeasesSound, Acquire, Untouched, Run, Dispatch, Park, Dispatchable;
      LeaseElsewhere(s, i, rec, k);
      DispatchElsewhere(s1, p, now, denied, k);
      UntouchedTrans(s, s1, s2, k);
      assert !OfSession(s2, j, k) by { Sessions(s, s2, k); }
      ParkElsewhere(s2, j, c, k);
      UntouchedTrans(s, s2, Park(s2, j, c), k);
    } else {
      var s2 := Run(s, j, c, now, denied);
      assert s2 in {Answer(s1, c, Finished(s.jobs[j].status)), Park(s1, j, c), Execute(s1, j, Some(i), c)};
      hide LeasesSound, Acquire, Untouched, Run, Dispatch, Park;
      LeaseElsewhere(s, i, rec, k);
      if s2 == Park(s1, j, c) {
        ParkElsewhere(s1, j, c, k);
      } else if s2 == Execute(s1, j, Some(i), c) {
        ExecuteElsewhere(s1, j, Some(i), c, k);
      } else {
        AnswerElsewhere(s1, c, Finished(s.jobs[j].status), k);
      }
      UntouchedTrans(s, s1, s2, k);
    }
  }

  lemma Sessions(s: Engine, s': Engine, k: SessionId)
    requires Untouched(s, s', k)
    ensures SameSessions(s, s')
  {
  }

  lemma AnswerElsewhere(s: Engine, c: CallerId, out: Outcome, k: SessionId)
    ensures Untouched(s, Answer(s, c, out), k)
  {
    NoNewPromise(s, Answer(s, c, out), k);
  }

  lemma RunElsewhere(s: Engine, j: JobId, c: CallerId, now: int, denied: set<JobId>, k: SessionId)
    requires LeasesSound(s) && !OfSession(s, j, k)
    ensures Untouched(s, Run(s, j, c, now, denied), k)
  {
    if j in s.jobs && j !in s.running && s.jobs[j].session.Some? && j !in denied {
      ClaimElsewhere(s, j, s.jobs[j].session.value, c, now, denied, k);
    } else if j in s.jobs && j !in s.running && s.jobs[j].session.None? {
      ExecuteElsewhere(s, j, None, c, k);
    } else if j in s.jobs && j !in s.running {
      DeniedElsewhere(s, j, c, k);
    } else {
      AnswerElsewhere(s, c, if j in s.jobs then Finished(s.jobs[j].status) else Threw, k);
    }
  }

  lemma HandingElsewhere(s: Engine, c: CallerId, out: Outcome, now: int, k: SessionId)
    requires c in s.live && s.live[c].session.Some? && s.live[c].session != Some(k)
    ensures Untouched(s, Handing(s, c, out, now), k)
  {
    hide Release;
    NoNewPromise(s, Handing(s, c, out, now), k);
  }

  lemma RetryElsewhere(s: Engine, c: CallerId, out: Outcome, n: nat, now: int, denied: set<JobId>, k: SessionId)
    requires c in s.live && s.live[c].session.Some? && s.live[c].session != Some(k)
    ensures Untouched(s, ReleaseAttempt(s, c, out, n, now, false, denied), k)
  {
    NoNewPromise(s, ReleaseAttempt(s, c, out, n, now, false, denied), k);
  }

  lemma ReleaseElsewhere(s: Engine, c: CallerId, out: Outcome, n: nat, now: int, lockOk: bool, denied: set<JobId>, k: SessionId)
    requires Exclusive(s) && c in s.live && s.live[c].session.Some? && s.live[c].session != Some(k)
    ensures Untouched(s, ReleaseAttempt(s, c, out, n, now, lockOk, denied), k)
  {
    if lockOk {
      var s1, next, i := Handing(s, c, out, now), HandedTo(s, c, now, true), s.live[c].session.value;
      HandingShape(s, c, out, now);
      GrantedReleaseShape(s, c, out, n, now, denied);
      HandingElsewhere(s, c, out, now, k);
      hide Exclusive, Handing, HandedTo, ReleaseAttempt, Dispatchable, Untouched, Dispatch;
      if next != {} {
        var p :| next == {p} && Dispatchable(s1, p) && OfSession(s1, p, i);
        var q :| next == {q} && ReleaseAttempt(s, c, out, n, now, true, denied) == Dispatch(s1, q, now, denied);
        assert q in {p} && !OfSession(s1, p, k);
        DispatchElsewhere(s1, p, now, denied, k);
        UntouchedTrans(s, s1, Dispatch(s1, p, now, denied), k);
      }
    } else {
      hide Exclusive;
      RetryElsewhere(s, c, out, n, now, denied, k);
    }
  }

  lemma SettleElsewhere(s: Engine, c: CallerId, k: SessionId)
    requires c in s.dispatches && c in s.answers
    ensures Untouched(s, Settle(s, c), k)
  {
    var s' := Settle(s, c);
    forall j | Promised(s', j) ensures Promised(s, j) {
      var d :| d in s'.dispatches && s'.dispatches[d] == j;
      assert d in s.dispatches && s.dispatches[d] == j;
    }
    forall j | j in s.parked && !Promised(s, j) ensures j in s'.parked && s'.parked[j] == s.parked[j] {
      assert j != s.dispatches[c];
    }
    NoNewPromise(s, s', k);
  }

  lemma SettleParkedElsewhere(s: Engine, j: JobId, out: Outcome, k: SessionId)
    requires !OfSession(s, j, k)
    ensures Untouched(s, SettleParked(s, j, out), k)
  {
    NoNewPromise(s, SettleParked(s, j, out), k);
  }

  lemma StatusElsewhere(s: Engine, j: JobId, status: Status, running: set<JobId>, k: SessionId)
    ensures Untouched(s, s.(jobs := SetStatus(s.jobs, j, status), running := running), k)
  {
    NoNewPromise(s, s.(jobs := SetStatus(s.jobs, j, status), running := running), k);
  }

  lemma CancelQueuedElsewhere(s: Engine, j: JobId, i: SessionId, k: SessionId)
    requires OfSession(s, j, i) && i != k && i in s.leases
    ensures Untouched(s, SettleParked(s.(leases := PutLease(s.leases, i, Dequeue(s.leases[i], j)), jobs := SetStatus(s.jobs, j, Cancelled)), j, Finished(Cancelled)), k)
  {
    var s1 := s.(leases := PutLease(s.leases, i, Dequeue(s.leases[i], j)));
    var s2 := s1.(jobs := SetStatus(s.jobs, j, Cancelled));
    assert s2 == s1.(jobs := SetStatus(s1.jobs, j, Cancelled), running := s1.running) && !OfSession(s2, j, k);
    assert s2 == s.(leases := PutLease(s.leases, i, Dequeue(s.leases[i], j)), jobs := SetStatus(s.jobs, j, Cancelled));
    hide Untouched, SetStatus, PutLease, SettleParked;
    LeaseElsewhere(s, i, Dequeue(s.leases[i], j), k);
    StatusElsewhere(s1, j, Cancelled, s1.running, k);
    SettleParkedElsewhere(s2, j, Finished(Cancelled), k);
    UntouchedTrans(s, s1, s2, k);
    UntouchedTrans(s, s2, SettleParked(s2, j, Finished(Cancelled)), k);
  }

  lemma NothingElsewhere(s: Engine, running: set<JobId>, k: SessionId)
    ensures Untouched(s, s.(running := running), k)
  {
    NoNewPromise(s, s.(running := running), k);
  }

  lemma CancelElsewhere(s: Engine, j: JobId, lockOk: bool, k: SessionId)
    requires !OfSession(s, j, k)
    ensures Untouched(s, Cancel(s, j, lockOk), k)
  {
    hide Untouched, SetStatus, PutLease, SettleParked;
    if j in s.running {
      StatusElsewhere(s, j, Cancelled, s.running - {j}, k);
      NothingElsewhere(s, s.running - {j}, k);
    } else if j in s.jobs && s.jobs[j].session.Some? && s.jobs[j].session.value in s.leases {
      CancelQueuedElsewhere(s, j, s.jobs[j].session.value, k);
      NothingElsewhere(s, s.running, k);
    } else {
      NothingElsewhere(s, s.running, k);
    }
  }

  lemma NewCallerElsewhere(s: Engine, k: SessionId)
    requires LeasesSound(s)
    ensures var s0 := s.(nextCaller := s.nextCaller + 1); Untouched(s, s0, k) && LeasesSound(s0)
  {
    var s0 := s.(nextCaller := s.nextCaller + 1);
    assert LeasesSound(s0);
    hide LeasesSound, Untouched;
    NoNewPromise(s, s0, k);
  }

  lemma TriggerElsewhere(s: Engine, j: JobId, now: int, denied: set<JobId>, k: SessionId)
    requires LeasesSound(s) && !OfSession(s, j, k)
    ensures Untouched(s, Trigger(s, j, now, denied), k)
  {
    var s0 := s.(nextCaller := s.nextCaller + 1);
    NewCallerElsewhere(s, k);
    hide LeasesSound, Untouched, Run;
    RunElsewhere(s0, j, s.nextCaller, now, denied, k);
    UntouchedTrans(s, s0, Trigger(s, j, now, denied), k);
  }

  lemma BeatElsewhere(s: Engine, c: CallerId, now: int, k: SessionId)
    requires c in s.live && s.live[c].session.Some? && s.live[c].session != Some(k)
    ensures Untouched(s, Beat(s, c, now), k)
  {
    hide Heartbeat;
    NoNewPromise(s, Beat(s, c, now), k);
  }

  /** A stalled session stays as it is, whatever the other sessions do, until a sweep is armed or somebody asks for or
      cancels one of its jobs. */
  lemma StalledStays(s: Engine, step: Step, k: SessionId)
    requires Inv(s) && Stalled(s, k) && Enabled(s, step) && Safe(s, step) && Elsewhere(s, step, k) && !step.BootSwept?
    ensures Untouched(s, Next(s, step), k)
  {
    assert forall c :: c in s.live ==> s.live[c].session != Some(k);
    assert LeasesSound(s) && Exclusive(s);
    hide Inv, LeasesSound, Exclusive, Untouched, Safe, OfSession, Trigger, BodyEnds, ReleaseAttempt, Settle, Cancel, Beat, SetStatus;
    match step
    case Triggered(j, now, denied) => TriggerElsewhere(s, j, now, denied, k);
    case BodyWrote(c, status, drop) =>
      StatusElsewhere(s, s.live[c].job, status, if drop then s.running - {s.live[c].job} else s.running, k);
    case BodyEnded(c, out, now, lockOk, denied) => BodyEndsElsewhere(s, c, out, now, lockOk, denied, k);
    case Retried(c, now, lockOk, denied) =>
      ReleaseElsewhere(s, c, s.live[c].phase.outcome, s.live[c].phase.attempts, now, lockOk, denied, k);
    case Settled(c) => SettleElsewhere(s, c, k);
    case Cancelling(j, lockOk) => CancelElsewhere(s, j, lockOk, k);
    case Beating(c, now) => BeatElsewhere(s, c, now, k);
    case Recovered(_, _, _, _, _) =>
    case BootSwept(_, _, _, _) =>
  }

  lemma BodyEndsElsewhere(s: Engine, c: CallerId, out: Outcome, now: int, lockOk: bool, denied: set<JobId>, k: SessionId)
    requires Inv(s) && c in s.live && s.live[c].phase.Executing? && s.live[c].session != Some(k)
    ensures Untouched(s, BodyEnds(s, c, out, now, lockOk, denied), k)
  {
    var s1 := s.(running := s.running - {s.live[c].job});
    if s.live[c].session.Some? {
      forall j | j in s1.running ensures HasBody(s1, j) { assert HasBody(s, j); }
      assert Exclusive(s1);
      hide Inv, Exclusive, Untouched, ReleaseAttempt;
      NoNewPromise(s, s1, k);
      ReleaseElsewhere(s1, c, out, 0, now, lockOk, denied, k);
      UntouchedTrans(s, s1, BodyEnds(s, c, out, now, lockOk, denied), k);
    } else {
      hide Inv, Untouched;
      NoNewPromise(s, BodyEnds(s, c, out, now, lockOk, denied), k);
    }
  }

  /** `c` is parked on the undispatched job `j` of the stalled session `k`. */
  ghost predicate Stranded(s: Engine, k: SessionId, j: JobId, c: CallerId) {
    Stalled(s, k) && OfSession(s, j, k) && ParkedOn(s, j, c) && !Promised(s, j)
  }

  lemma StrandedStays(s: Engine, step: Step, k: SessionId, j: JobId, c: CallerId)
    requires Inv(s) && Stranded(s, k, j, c) && Enabled(s, step) && Safe(s, step) && Elsewhere(s, step, k) && Next(s, step).timers == []
    ensures Stranded(Next(s, step), k, j, c)
  {
    assert s.parked != map[] && !step.BootSwept?;
    StalledStays(s, step, k);
    hide Inv, Next, Enabled, Safe, SessionLive, Promised;
    assert SameParking(s, Next(s, step), j);
  }

  lemma ParkedIsUnanswered(s: Engine, j: JobId, c: CallerId)
    requires Inv(s) && ParkedOn(s, j, c)
    ensures c !in s.answers
  {
  }

  /** So the callers parked in a session that a denied dispatch has stalled stay parked, unanswered, for as long as
      nobody asks for or cancels a job of that session and no other session's failed release arms a sweep. */
  lemma {:induction false} StalledCallersStay(states: seq<Engine>, steps: seq<Step>, m: nat, n: nat, k: SessionId, j: JobId, c: CallerId)
    requires IsRun(states, steps) && m <= n < |states| && Stranded(states[m], k, j, c)
    requires (forall i :: m <= i < n ==> Elsewhere(states[i], steps[i], k)) && forall i :: m <= i <= n ==> states[i].timers == []
    ensures Stranded(states[n], k, j, c) && c !in states[n].answers
    decreases n - m
  {
    hide Inv, Stranded, Safe, Next, Enabled, Booted, Elsewhere;
    RunKeepsInv(states, steps, n);
    if m < n {
      StalledCallersStay(states, steps, m, n - 1, k, j, c);
      RunKeepsInv(states, steps, n - 1);
      var s, step := states[n - 1], steps[n - 1];
      assert Enabled(s, step) && Safe(s, step) && states[n] == Next(s, step) && Elsewhere(s, step, k);
      StrandedStays(s, step, k, j, c);
    }
    StrandedIsParked(states[n], k, j, c);
    ParkedIsUnanswered(states[n], j, c);
  }

  lemma StrandedIsParked(s: Engine, k: SessionId, j: JobId, c: CallerId)
    requires Stranded(s, k, j, c)
    ensures ParkedOn(s, j, c)
  {
  }
}
