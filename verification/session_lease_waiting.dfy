/**
 What waiting callers keep from step to step: they stay parked until they are answered, nobody overtakes their job, and
 no granted step arms a sweep.
 */
module SessionLeaseWaiting {
  import opened Options
  import opened SessionRunQueue
  import opened SessionLease
  import opened SessionLeaseProof
  import opened SessionLeaseExact
  import opened SessionLeaseRuns
  import opened SessionLeaseAttended
  import opened SessionLeaseFifo
  import Settles = SessionLeaseSettles

  // ---- parked callers stay parked until they are answered ----

  /** Callers stay parked on their job until they are answered, and dispatched runs are remembered. */
  ghost predicate Carries(s: Engine, s': Engine) {
    && SameSessions(s, s') && s.nextCaller <= s'.nextCaller && s.answers.Keys <= s'.answers.Keys
    && (forall j, c :: ParkedOn(s, j, c) ==> c in s'.answers || ParkedOn(s', j, c))
    && (forall d :: d in s.dispatches && d < s.nextCaller ==> d in s'.dispatches && s'.dispatches[d] == s.dispatches[d])
  }

  lemma CarriesTrans(s: Engine, s1: Engine, s2: Engine)
    requires Carries(s, s1) && Carries(s1, s2)
    ensures Carries(s, s2)
  {
    hide ParkedOn;
  }

  lemma SameCarries(s: Engine, s': Engine)
    requires SameSessions(s, s') && s'.nextCaller == s.nextCaller && s'.answers == s.answers && s'.parked == s.parked && s'.dispatches == s.dispatches
    ensures Carries(s, s')
  {
  }

  lemma SettleParkedCarries(s: Engine, j: JobId, out: Outcome)
    ensures Carries(s, SettleParked(s, j, out))
    ensures forall c :: ParkedOn(s, j, c) ==> c in SettleParked(s, j, out).answers
  {
  }

  lemma AnswerCarries(s: Engine, c: CallerId, out: Outcome)
    ensures Carries(s, Answer(s, c, out))
  {
    assert forall j, d :: ParkedOn(s, j, d) ==> ParkedOn(Answer(s, c, out), j, d);
  }

  lemma DeniedCarries(s: Engine, j: JobId, c: CallerId)
    ensures Carries(s, ClaimDenied(s, j, c))
  {
    var s1 := s.(jobs := SetStatus(s.jobs, j, Failed));
    var s2 := SettleParked(s1, j, Finished(Failed));
    assert SameSessions(s, s1);
    hide Carries, SettleParked, SetStatus;
    SameCarries(s, s1);
    SettleParkedCarries(s1, j, Finished(Failed));
    AnswerCarries(s2, c, Finished(Failed));
    CarriesTrans(s, s1, s2);
    CarriesTrans(s, s2, ClaimDenied(s, j, c));
  }

  lemma ParkCarries(s: Engine, j: JobId, c: CallerId)
    ensures Carries(s, Park(s, j, c))
  {
    assert forall i, d :: ParkedOn(s, i, d) ==> ParkedOn(Park(s, j, c), i, d);
  }

  lemma RegisterCarries(s: Engine, j: JobId)
    ensures Carries(s, Registered(s, j))
  {
    assert forall i, d :: ParkedOn(s, i, d) ==> ParkedOn(Registered(s, j), i, d);
  }

  lemma {:induction false} RunCarries(s: Engine, j: JobId, c: CallerId, now: int, denied: set<JobId>)
    ensures Carries(s, Run(s, j, c, now, denied))
    decreases StaleSessions(s.leases, now)
  {
    hide Carries, ClaimDenied, Park;
    if j in s.jobs && j !in s.running && s.jobs[j].session.Some? && j !in denied {
      var k := s.jobs[j].session.value;
      var (rec, claim) := Acquire(LeaseOf(s.leases, k), j, now, SELF);
      var s1 := s.(leases := PutLease(s.leases, k, rec));
      SameCarries(s, s1);
      if claim.Queued? && claim.promoted.Some? && claim.promoted.value != j && claim.promoted.value !in s1.running {
        assert k in StaleSessions(s.leases, now) && k !in StaleSessions(s1.leases, now);
        PromotedCarries(s, s1, j, claim.promoted.value, c, now, denied);
      } else {
        EndOfRunCarries(s1, j, Some(k), c, s.jobs[j].status);
        CarriesTrans(s, s1, Run(s, j, c, now, denied));
      }
    } else if j in s.jobs && j !in s.running && s.jobs[j].session.Some? {
      DeniedCarries(s, j, c);
    } else {
      EndOfRunCarries(s, j, None, c, if j in s.jobs then s.jobs[j].status else Failed);
      AnswerCarries(s, c, Threw);
    }
  }

  lemma EndOfRunCarries(s: Engine, j: JobId, session: Option<SessionId>, c: CallerId, status: Status)
    ensures Carries(s, Park(s, j, c)) && Carries(s, Execute(s, j, session, c)) && Carries(s, Answer(s, c, Finished(status)))
  {
    hide Carries;
    ParkCarries(s, j, c);
    AnswerCarries(s, c, Finished(status));
    SameCarries(s, Execute(s, j, session, c));
  }

  lemma {:induction false} PromotedCarries(s: Engine, s1: Engine, j: JobId, p: JobId, c: CallerId, now: int, denied: set<JobId>)
    requires Carries(s, s1) && StaleSessions(s1.leases, now) < StaleSessions(s.leases, now)
    ensures Carries(s, Park(Dispatch(s1, p, now, denied), j, c))
    decreases StaleSessions(s.leases, now), 0
  {
    var s2 := Registered(s1, p);
    var s3 := Run(s2, p, s1.nextCaller, now, denied);
    assert Dispatch(s1, p, now, denied) == s3;
    hide Carries, Run, Dispatch, Park;
    RegisterCarries(s1, p);
    RunCarries(s2, p, s1.nextCaller, now, denied);
    ParkCarries(s3, j, c);
    CarriesTrans(s, s1, s2);
    CarriesTrans(s, s2, s3);
    CarriesTrans(s, s3, Park(s3, j, c));
  }

  lemma DispatchCarries(s: Engine, j: JobId, now: int, denied: set<JobId>)
    ensures Carries(s, Dispatch(s, j, now, denied))
  {
    hide Carries, Run;
    RegisterCarries(s, j);
    RunCarries(Registered(s, j), j, s.nextCaller, now, denied);
    CarriesTrans(s, Registered(s, j), Dispatch(s, j, now, denied));
  }

  lemma {:induction false} DispatchAllCarries(s: Engine, found: seq<JobId>, now: int, denied: set<JobId>)
    ensures Carries(s, DispatchAll(s, found, now, denied))
    decreases |found|
  {
    hide Carries, Dispatch;
    if found == [] {
      SameCarries(s, s);
    } else {
      var prefix, j := found[..|found| - 1], found[|found| - 1];
      var s1 := DispatchAll(s, prefix, now, denied);
      DispatchAllCarries(s, prefix, now, denied);
      DispatchCarries(s1, j, now, denied);
      CarriesTrans(s, s1, Dispatch(s1, j, now, denied));
    }
  }

  lemma SweepCarries(s: Engine, order: seq<SessionId>, healed: nat, now: int, denied: set<JobId>)
    requires healed <= |order|
    ensures Carries(s, RecoverSessionRuns(s, order, healed, now, denied))
  {
    var (leases, found) := Heal(s.leases, s.jobs, order[..healed], now);
    var s1 := s.(leases := leases);
    hide Carries, Heal, DispatchAll;
    SameCarries(s, s1);
    if healed == |order| {
      DispatchAllCarries(s1, found, now, denied);
      CarriesTrans(s, s1, DispatchAll(s1, found, now, denied));
    }
  }

  lemma RecoveryCarries(s: Engine, i: nat, order: seq<SessionId>, healed: nat, now: int, denied: set<JobId>)
    requires i < |s.timers| && healed <= |order|
    ensures Carries(s, RecoveryFires(s, i, order, healed, now, denied))
  {
    var s0 := s.(timers := s.timers[..i] + s.timers[i + 1..]);
    var s1 := RecoverSessionRuns(s0, order, healed, now, denied);
    hide Carries, RecoverSessionRuns;
    SameCarries(s, s0);
    SweepCarries(s0, order, healed, now, denied);
    SameCarries(s1, s1.(timers := s1.timers + [s.timers[i] + 1]));
    CarriesTrans(s, s0, s1);
    CarriesTrans(s, s1, s1.(timers := s1.timers + [s.timers[i] + 1]));
  }

  lemma SurrenderCarries(s: Engine, s1: Engine, c: CallerId, out: Outcome)
    requires SameSessions(s, s1) && s1.nextCaller == s.nextCaller && s1.answers == s.answers && s1.parked == s.parked && s1.dispatches == s.dispatches
    ensures Carries(s, Answer(s1, c, out))
  {
    hide Carries;
    SameCarries(s, s1);
    AnswerCarries(s1, c, out);
    CarriesTrans(s, s1, Answer(s1, c, out));
  }

  lemma ReleaseCarries(s: Engine, c: CallerId, out: Outcome, n: nat, now: int, lockOk: bool, denied: set<JobId>)
    requires c in s.live && s.live[c].session.Some?
    ensures Carries(s, ReleaseAttempt(s, c, out, n, now, lockOk, denied))
  {
    var j, k := s.live[c].job, s.live[c].session.value;
    var (rec, next) := Release(LeaseOf(s.leases, k), j, now, SELF);
    var s0 := s.(leases := PutLease(s.leases, k, rec), live := s.live - {c});
    var s1 := Answer(s0, c, out);
    hide Carries, Release, PutLease, Dispatch, Answer;
    SurrenderCarries(s, s0, c, out);
    SurrenderCarries(s, s.(live := s.live - {c}, timers := s.timers + [0]), c, out);
    SameCarries(s, s.(live := s.live[c := s.live[c].(phase := Releasing(n + 1, out))]));
    if next.Some? {
      DispatchCarries(s1, next.value, now, denied);
      CarriesTrans(s, s1, Dispatch(s1, next.value, now, denied));
    }
  }

  lemma BodyEndsCarries(s: Engine, c: CallerId, out: Outcome, now: int, lockOk: bool, denied: set<JobId>)
    requires c in s.live && s.live[c].phase.Executing?
    ensures Carries(s, BodyEnds(s, c, out, now, lockOk, denied))
  {
    var s1 := s.(running := s.running - {s.live[c].job});
    hide Carries, ReleaseAttempt, Answer;
    SameCarries(s, s1);
    if s.live[c].session.Some? {
      ReleaseCarries(s1, c, out, 0, now, lockOk, denied);
      CarriesTrans(s, s1, BodyEnds(s, c, out, now, lockOk, denied));
    } else {
      SurrenderCarries(s, s1.(live := s1.live - {c}), c, out);
    }
  }

  lemma CancelCarries(s: Engine, j: JobId, lockOk: bool)
    ensures Carries(s, Cancel(s, j, lockOk))
  {
    var jobs := SetStatus(s.jobs, j, Cancelled);
    assert SameSessions(s, s.(jobs := jobs));
    hide Carries, SetStatus, PutLease, SettleParked, Dequeue, SameSessions;
    SameSessionsAsBefore(s);
    SameCarries(s, s.(jobs := jobs, running := s.running - {j}));
    SameCarries(s, s.(running := s.running - {j}));
    SameCarries(s, s);
    if j in s.jobs && s.jobs[j].session.Some? && s.jobs[j].session.value in s.leases {
      var k := s.jobs[j].session.value;
      var s1 := s.(leases := PutLease(s.leases, k, Dequeue(s.leases[k], j)), jobs := jobs);
      SameCarries(s, s1);
      SettleParkedCarries(s1, j, Finished(Cancelled));
      CarriesTrans(s, s1, SettleParked(s1, j, Finished(Cancelled)));
    }
  }

  lemma SameSessionsAsBefore(s: Engine)
    ensures forall t: Engine :: t.jobs == s.jobs ==> SameSessions(s, t)
    ensures forall t: Engine, u: Engine :: SameSessions(s, t) && u.jobs == t.jobs ==> SameSessions(s, u)
  {
  }

  lemma WriteCarries(s: Engine, c: CallerId, status: Status, drop: bool)
    requires c in s.live && s.live[c].phase.Executing?
    ensures Carries(s, BodyWrites(s, c, status, drop))
  {
    SameCarries(s, BodyWrites(s, c, status, drop));
  }

  /** Any step but a continuation. */
  lemma StepCarries(s: Engine, step: Step)
    requires Enabled(s, step) && !step.Settled?
    ensures Carries(s, Next(s, step))
  {
    hide Carries, Run, BodyEnds, ReleaseAttempt, RecoverSessionRuns, RecoveryFires, Cancel, BodyWrites, Heartbeat, Booted;
    match step
    case BootSwept(order, healed, now, denied) => SweepCarries(s, order, healed, now, denied);
    case Triggered(j, now, denied) =>
      var s0 := s.(nextCaller := s.nextCaller + 1);
      NewCallerCarries(s);
      RunCarries(s0, j, s.nextCaller, now, denied);
      CarriesTrans(s, s0, Next(s, step));
    case BodyWrote(c, status, drop) => WriteCarries(s, c, status, drop);
    case BodyEnded(c, out, now, lockOk, denied) => BodyEndsCarries(s, c, out, now, lockOk, denied);
    case Retried(c, now, lockOk, denied) => ReleaseCarries(s, c, s.live[c].phase.outcome, s.live[c].phase.attempts, now, lockOk, denied);
    case Cancelling(j, lockOk) => CancelCarries(s, j, lockOk);
    case Recovered(i, order, healed, now, denied) => RecoveryCarries(s, i, order, healed, now, denied);
    case Beating(c, now) => SameCarries(s, Next(s, step));
  }

  lemma NewCallerCarries(s: Engine)
    ensures Carries(s, s.(nextCaller := s.nextCaller + 1))
  {
    assert forall i, d :: ParkedOn(s, i, d) ==> ParkedOn(s.(nextCaller := s.nextCaller + 1), i, d);
  }

  /** A continuation answers the callers parked on its job and forgets only its own dispatch. */
  lemma SettleForgets(s: Engine, d: CallerId)
    requires d in s.dispatches && d in s.answers
    ensures var s', j := Settle(s, d), s.dispatches[d];
      && SameSessions(s, s') && s'.nextCaller == s.nextCaller && s.answers.Keys <= s'.answers.Keys
      && s'.dispatches == s.dispatches - {d}
      && (forall i, c :: ParkedOn(s, i, c) ==> if i == j then c in s'.answers else ParkedOn(s', i, c))
  {
  }

  // ---- nobody overtakes ----

  /** The jobs before `j` in a line. */
  function Ahead(line: seq<JobId>, j: JobId): set<JobId> {
    if line == [] || line[0] == j then {} else {line[0]} + Ahead(line[1..], j)
  }

  /** No job gets in before another. */
  ghost predicate NoneOvertakes(line: seq<JobId>, line': seq<JobId>) {
    forall j :: j in line && j in line' ==> Ahead(line', j) <= Ahead(line, j)
  }

  lemma {:induction false} AheadOfEnqueued(line: seq<JobId>, x: JobId, j: JobId)
    requires j in line
    ensures Ahead(line + [x], j) == Ahead(line, j)
  {
    assert (line + [x])[0] == line[0] && (line + [x])[1..] == line[1..] + [x];
    if line[0] != j { AheadOfEnqueued(line[1..], x, j); }
  }

  lemma {:induction false} AheadIsInLine(line: seq<JobId>, j: JobId)
    ensures forall x :: x in Ahead(line, j) ==> x in line
  {
    if line != [] && line[0] != j { AheadIsInLine(line[1..], j); }
  }

  lemma {:induction false} AheadWithout(line: seq<JobId>, x: JobId, j: JobId)
    requires j != x
    ensures Ahead(Without(line, x), j) <= Ahead(line, j)
  {
    if line != [] {
      AheadWithout(line[1..], x, j);
      if line[0] != x { assert ([line[0]] + Without(line[1..], x))[1..] == Without(line[1..], x); }
    }
  }

  /** With the head gone, there are fewer before each of the others. */
  lemma HeadLeaves(line: seq<JobId>, j: JobId)
    requires Distinct(line) && line != [] && j in line[1..]
    ensures Ahead(line[1..], j) < Ahead(line, j)
  {
    AheadIsInLine(line[1..], j);
    assert line[0] in Ahead(line, j) && line[0] !in Ahead(line[1..], j);
  }

  lemma EnqueueOvertakesNone(line: seq<JobId>, x: JobId)
    ensures NoneOvertakes(line, Enqueue(line, x))
  {
    forall j | j in line && j in Enqueue(line, x) ensures Ahead(Enqueue(line, x), j) <= Ahead(line, j) {
      if x !in line { AheadOfEnqueued(line, x, j); }
    }
  }

  lemma WithoutOvertakesNone(line: seq<JobId>, x: JobId)
    ensures NoneOvertakes(line, Without(line, x))
  {
    WithoutMembers(line, x);
    forall j | j in line && j in Without(line, x) ensures Ahead(Without(line, x), j) <= Ahead(line, j) {
      AheadWithout(line, x, j);
    }
  }

  lemma TailOvertakesNone(line: seq<JobId>)
    requires Distinct(line) && line != []
    ensures NoneOvertakes(line, line[1..])
  {
    forall j | j in line && j in line[1..] ensures Ahead(line[1..], j) <= Ahead(line, j) { HeadLeaves(line, j); }
  }

  /** What a granted release does to the lines: that of its session loses its head. */
  lemma ReleaseLines(s: Engine, c: CallerId, out: Outcome, n: nat, now: int, denied: set<JobId>, k: SessionId)
    requires Exclusive(s) && c in s.live && s.live[c].session.Some?
    ensures var s' := ReleaseAttempt(s, c, out, n, now, true, denied);
      && (s.live[c].session == Some(k) ==> LineOf(s, k) != [] && LineOf(s, k)[0] == s.live[c].job)
      && LineOf(s', k) == if s.live[c].session == Some(k) then LineOf(s, k)[1..] else LineOf(s, k)
  {
    var s1, next := Handing(s, c, out, now), HandedTo(s, c, now, true);
    HandingLines(s, c, out, now, k);
    HandingShape(s, c, out, now);
    GrantedReleaseShape(s, c, out, n, now, denied);
    hide Exclusive, Handing, HandedTo, ReleaseAttempt, Dispatchable, LineOf;
    if next != {} {
      var p :| next == {p} && Dispatchable(s1, p);
      var q :| next == {q} && ReleaseAttempt(s, c, out, n, now, true, denied) == Dispatch(s1, q, now, denied);
      assert q in {p};
      hide Dispatch;
      DispatchKeepsLines(s1, p, now, denied, k);
    }
  }

  lemma HandingLines(s: Engine, c: CallerId, out: Outcome, now: int, k: SessionId)
    requires Exclusive(s) && c in s.live && s.live[c].session.Some?
    ensures (s.live[c].session == Some(k) ==> LineOf(s, k) != [] && LineOf(s, k)[0] == s.live[c].job)
    ensures LineOf(Handing(s, c, out, now), k) == if s.live[c].session == Some(k) then LineOf(s, k)[1..] else LineOf(s, k)
  {
    var j, i := s.live[c].job, s.live[c].session.value;
    assert Holds(s, i, j);
    ReleaseServesTheHead(s.leases[i], j, now, SELF);
  }

  lemma DispatchKeepsLines(s: Engine, j: JobId, now: int, denied: set<JobId>, k: SessionId)
    requires Dispatchable(s, j)
    ensures LineOf(Dispatch(s, j, now, denied), k) == LineOf(s, k)
  {
    DispatchShape(s, j, now, denied);
  }

  lemma EndLines(s: Engine, c: CallerId, out: Outcome, now: int, denied: set<JobId>, k: SessionId)
    requires Inv(s) && c in s.live && s.live[c].phase.Executing?
    ensures var s' := BodyEnds(s, c, out, now, true, denied);
      && (s.live[c].session == Some(k) ==> LineOf(s, k) != [] && LineOf(s, k)[0] == s.live[c].job)
      && LineOf(s', k) == if s.live[c].session == Some(k) then LineOf(s, k)[1..] else LineOf(s, k)
  {
    var s1 := s.(running := s.running - {s.live[c].job});
    Settles.Unwinding(s, c);
    assert LineOf(s1, k) == LineOf(s, k);
    hide Inv, Exclusive, ReleaseAttempt;
    if s.live[c].session.Some? {
      ReleaseLines(s1, c, out, 0, now, denied, k);
    }
  }

  lemma TriggerLines(s: Engine, j: JobId, now: int, denied: set<JobId>, k: SessionId)
    requires Inv(s) && Attended(s) && s.timers == [] && (TriggerSafe(s, j, now) || j in denied)
    ensures NoneOvertakes(LineOf(s, k), LineOf(Trigger(s, j, now, denied), k))
  {
    assert s.nextCaller !in s.live;
    EnqueueOvertakesNone(LineOf(s, k), j);
    if j in s.jobs && j !in s.running && s.jobs[j].session.Some? && j !in denied {
      var i := s.jobs[j].session.value;
      if i in s.leases { OwnerIsFresh(s, j, now, i); }
      hide Inv, TriggerSafe, Attended, NoneOvertakes;
      ClaimLines(s, j, i, now, denied, k);
      NothingOvertakesItself(LineOf(s, k));
    } else {
      hide Inv, TriggerSafe, Attended, Trigger, NoneOvertakes;
      UnclaimedTrigger(s, j, now, denied);
      NothingOvertakesItself(LineOf(s, k));
    }
  }

  lemma NothingOvertakesItself(line: seq<JobId>)
    ensures NoneOvertakes(line, line)
  {
  }

  lemma ClaimLines(s: Engine, j: JobId, i: SessionId, now: int, denied: set<JobId>, k: SessionId)
    requires OfSession(s, j, i) && j !in s.running && j !in denied
    requires i in s.leases ==> s.leases[i].owner.Some? && s.leases[i].owner != Some(j) && !IsStale(s.leases[i], now)
    ensures LineOf(Trigger(s, j, now, denied), k) == if i == k then Enqueue(LineOf(s, k), j) else LineOf(s, k)
  {
    var s' := Trigger(s, j, now, denied);
    if i in s.leases {
      var cur := s.leases[i];
      assert s'.leases == s.leases[i := cur.(waiters := Enqueue(cur.waiters, j))];
      EnqueueBehind(cur.owner.value, cur.waiters, j);
    } else {
      assert s'.leases == s.leases[i := Lease(Some(j), Some(SELF), now, now, [])];
    }
  }

  lemma CancelLines(s: Engine, j: JobId, lockOk: bool, k: SessionId)
    requires LeasesSound(s)
    ensures NoneOvertakes(LineOf(s, k), LineOf(Cancel(s, j, lockOk), k))
  {
    var line := LineOf(s, k);
    LineIsDistinct(s, k);
    CancelEffect(s, j, lockOk, k);
    hide Cancel, LineOf, NoneOvertakes;
    NothingOvertakesItself(line);
    if Leaves(s, Cancel(s, j, lockOk), k, j) {
      assert line == [line[0]] + line[1..];
      assert line[0] != j;
      assert ([line[0]] + Without(line[1..], j)) == Without(line, j);
      WithoutOvertakesNone(line, j);
    }
  }

  ghost predicate EndsTurn(step: Step, c: CallerId) {
    (step.BodyEnded? || step.Retried?) && step.caller == c
  }

  lemma EndedTurnLines(s: Engine, step: Step, k: SessionId)
    requires Inv(s) && Enabled(s, step) && Granted(s, step) && (step.BodyEnded? || step.Retried?)
    ensures var s', c := Next(s, step), step.caller;
      && (s.live[c].session == Some(k) ==> LineOf(s, k) != [] && LineOf(s, k)[0] == s.live[c].job)
      && LineOf(s', k) == if s.live[c].session == Some(k) then LineOf(s, k)[1..] else LineOf(s, k)
  {
    assert Exclusive(s);
    hide Inv, Exclusive, BodyEnds, ReleaseAttempt, LineOf, DispatchedBy;
    if step.BodyEnded? {
      EndLines(s, step.caller, step.outcome, step.now, step.denied, k);
    } else {
      ReleaseLines(s, step.caller, s.live[step.caller].phase.outcome, s.live[step.caller].phase.attempts, step.now, step.denied, k);
    }
  }

  lemma SameLeasesSameLines(s: Engine, s': Engine, k: SessionId)
    requires s'.leases == s.leases
    ensures NoneOvertakes(LineOf(s, k), LineOf(s', k))
  {
    NothingOvertakesItself(LineOf(s, k));
  }

  lemma BeatLines(s: Engine, c: CallerId, now: int, k: SessionId)
    requires Inv(s) && c in s.live && s.live[c].session.Some?
    ensures NoneOvertakes(LineOf(s, k), LineOf(Beat(s, c, now), k))
  {
    assert Holds(s, s.live[c].session.value, s.live[c].job);
    hide Inv, NoneOvertakes;
    BeatEffect(s, c, now, k);
    NothingOvertakesItself(LineOf(s, k));
  }

  lemma SettleKeepsLeases(s: Engine, c: CallerId)
    requires c in s.dispatches && c in s.answers
    ensures Settle(s, c).leases == s.leases
  {
  }

  lemma AttendedBootHasNoLine(s: Engine, k: SessionId)
    requires Booted(s) && Attended(s)
    ensures LineOf(s, k) == []
  {
    assert k in s.leases ==> SessionLive(s, k);
  }

  /** While every session is attended and no sweep is armed, no safe and granted step lets anybody overtake. */
  lemma StepOvertakesNone(s: Engine, step: Step, k: SessionId)
    requires Inv(s) && Attended(s) && s.timers == [] && Enabled(s, step) && Safe(s, step) && Granted(s, step)
    ensures NoneOvertakes(LineOf(s, k), LineOf(Next(s, step), k))
  {
    assert LeasesSound(s);
    hide Inv, LeasesSound, Attended, Trigger, BodyEnds, ReleaseAttempt, RecoverSessionRuns, Cancel, Settle, LineOf, NoneOvertakes, Booted, TriggerSafe, DispatchedBy;
    match step
    case BootSwept(_, _, _, _) =>
      AttendedBootHasNoLine(s, k);
      NothingToOvertake(LineOf(Next(s, step), k));
    case Triggered(j, now, denied) => TriggerLines(s, j, now, denied, k);
    case BodyWrote(c, status, drop) => SameLeasesSameLines(s, Next(s, step), k);
    case BodyEnded(_, _, _, _, _) => TurnOvertakesNone(s, step, k);
    case Retried(_, _, _, _) => TurnOvertakesNone(s, step, k);
    case Settled(c) =>
      SettleKeepsLeases(s, c);
      SameLeasesSameLines(s, Next(s, step), k);
    case Cancelling(j, lockOk) => CancelLines(s, j, lockOk, k);
    case Beating(c, now) => BeatLines(s, c, now, k);
    case Recovered(_, _, _, _, _) =>
  }

  lemma NothingToOvertake(line: seq<JobId>)
    ensures NoneOvertakes([], line)
  {
  }

  lemma TurnOvertakesNone(s: Engine, step: Step, k: SessionId)
    requires Inv(s) && Enabled(s, step) && Granted(s, step) && (step.BodyEnded? || step.Retried?)
    ensures NoneOvertakes(LineOf(s, k), LineOf(Next(s, step), k))
  {
    assert LeasesSound(s);
    LineIsDistinct(s, k);
    hide Inv, LeasesSound, Granted, NoneOvertakes, LineOf, Next, Enabled;
    EndedTurnLines(s, step, k);
    NothingOvertakesItself(LineOf(s, k));
    if LineOf(s, k) != [] { TailOvertakesNone(LineOf(s, k)); }
  }

  // ---- armed sweeps ----

  lemma ReleaseKeepsTimers(s: Engine, c: CallerId, out: Outcome, n: nat, now: int, denied: set<JobId>)
    requires c in s.live && s.live[c].session.Some?
    ensures ReleaseAttempt(s, c, out, n, now, true, denied).timers == s.timers
  {
    var s1, next := Handing(s, c, out, now), HandedTo(s, c, now, true);
    GrantedReleaseShape(s, c, out, n, now, denied);
    assert s1.timers == s.timers;
    hide Handing, HandedTo, ReleaseAttempt, Run;
    if next != {} {
      var q :| next == {q} && ReleaseAttempt(s, c, out, n, now, true, denied) == Dispatch(s1, q, now, denied);
      RunKeepsTimers(Registered(s1, q), q, s1.nextCaller, now, denied);
    }
  }

  lemma CancelKeepsTimers(s: Engine, j: JobId, lockOk: bool)
    ensures Cancel(s, j, lockOk).timers == s.timers
  {
    CancelLeavesLive(s, j, lockOk);
  }

  /** A granted step arms no sweep, and a sweep that fires is not armed again. */
  lemma StepTimers(s: Engine, step: Step)
    requires Enabled(s, step) && Granted(s, step)
    ensures |Next(s, step).timers| <= |s.timers| && (step.Recovered? ==> |Next(s, step).timers| < |s.timers|)
  {
    hide DispatchedBy, Run, ReleaseAttempt, Cancel, SettleParked, SetStatus, Booted, Heal;
    match step
    case BootSwept(order, healed, now, denied) =>
      var (leases, found) := Heal(s.leases, s.jobs, order[..healed], now);
      Settles.DispatchAllTimers(s.(leases := leases), found, now, denied);
    case Triggered(j, now, denied) => RunKeepsTimers(s.(nextCaller := s.nextCaller + 1), j, s.nextCaller, now, denied);
    case BodyWrote(_, _, _) =>
    case BodyEnded(c, out, now, _, denied) =>
      if s.live[c].session.Some? { ReleaseKeepsTimers(s.(running := s.running - {s.live[c].job}), c, out, 0, now, denied); }
    case Retried(c, now, _, denied) => ReleaseKeepsTimers(s, c, s.live[c].phase.outcome, s.live[c].phase.attempts, now, denied);
    case Settled(c) => SettleKeepsTimers(s, c);
    case Cancelling(j, lockOk) => CancelKeepsTimers(s, j, lockOk);
    case Recovered(i, order, healed, now, denied) => Settles.SweepDescends(s, i, order, now, denied);
    case Beating(_, _) =>
  }

  lemma SettleKeepsTimers(s: Engine, c: CallerId)
    requires c in s.dispatches && c in s.answers
    ensures Settle(s, c).timers == s.timers
  {
  }
}
