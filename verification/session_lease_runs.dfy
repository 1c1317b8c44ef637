/**
 The session lease lifecycle over whole runs: mutual exclusion, no caller lost or answered twice.
 */
module SessionLeaseRuns {
  import opened Options
  import opened SessionRunQueue
  import opened SessionLease
  import opened SessionLeaseProof
  import opened SessionLeaseExact

  datatype Step =
    | BootSwept(order: seq<SessionId>, healed: nat, now: int, denied: set<JobId>)
    | Triggered(job: JobId, now: int, denied: set<JobId>)
    | BodyWrote(caller: CallerId, status: Status, drop: bool)
    | BodyEnded(caller: CallerId, outcome: Outcome, now: int, lockOk: bool, denied: set<JobId>)
    | Retried(caller: CallerId, now: int, lockOk: bool, denied: set<JobId>)
    | Settled(caller: CallerId)
    | Cancelling(job: JobId, lockOk: bool)
    | Recovered(timer: nat, order: seq<SessionId>, healed: nat, now: int, denied: set<JobId>)
    | Beating(caller: CallerId, now: int)

  ghost predicate Enabled(s: Engine, step: Step) {
    match step
    case BootSwept(order, healed, _, _) => Booted(s) && healed <= |order| && SweepOrder(s, order)
    case Triggered(_, _, _) => true
    case BodyWrote(c, _, _) => c in s.live && s.live[c].phase.Executing?
    case BodyEnded(c, _, _, _, _) => c in s.live && s.live[c].phase.Executing?
    case Retried(c, _, _, _) => c in s.live && s.live[c].session.Some? && s.live[c].phase.Releasing?
    case Settled(c) => c in s.dispatches && c in s.answers
    case Cancelling(_, _) => true
    case Recovered(i, order, healed, _, _) => i < |s.timers| && healed <= |order| && SweepOrder(s, order)
    case Beating(c, _) => c in s.live && s.live[c].session.Some?
  }

  ghost function Next(s: Engine, step: Step): Engine
    requires Enabled(s, step)
  {
    match step
    case BootSwept(order, healed, now, denied) => RecoverSessionRuns(s, order, healed, now, denied)
    case Triggered(j, now, denied) => Trigger(s, j, now, denied)
    case BodyWrote(c, status, drop) => BodyWrites(s, c, status, drop)
    case BodyEnded(c, out, now, lockOk, denied) => BodyEnds(s, c, out, now, lockOk, denied)
    case Retried(c, now, lockOk, denied) =>
      ReleaseAttempt(s, c, s.live[c].phase.outcome, s.live[c].phase.attempts, now, lockOk, denied)
    case Settled(c) => Settle(s, c)
    case Cancelling(j, lockOk) => Cancel(s, j, lockOk)
    case Recovered(i, order, healed, now, denied) => RecoveryFires(s, i, order, healed, now, denied)
    case Beating(c, now) => Beat(s, c, now)
  }

  /** The two hypotheses about the environment. */
  ghost predicate Safe(s: Engine, step: Step)
    requires Enabled(s, step)
  {
    && (step.Triggered? ==> TriggerSafe(s, step.job, step.now) || step.job in step.denied)
    && (step.Recovered? ==> SweepSafe(s, step.order, step.healed, step.denied))
  }

  lemma StepKeeps(s: Engine, step: Step)
    requires Inv(s) && Enabled(s, step) && Safe(s, step)
    ensures Inv(Next(s, step)) && AnswersKept(s, Next(s, step))
  {
    match step
    case BootSwept(order, healed, now, denied) => BootSweepKeeps(s, order, healed, now, denied);
    case Triggered(j, now, denied) => TriggerKeeps(s, j, now, denied);
    case BodyWrote(c, status, drop) => LiveJobChangeKeeps(s, c, status, drop);
    case BodyEnded(c, out, now, lockOk, denied) => BodyEndsKeeps(s, c, out, now, lockOk, denied);
    case Retried(c, now, lockOk, denied) =>
      ReleasingIsNotRunning(s, c);
      ReleaseKeeps(s, c, s.live[c].phase.outcome, s.live[c].phase.attempts, now, lockOk, denied);
    case Settled(c) => SettleKeeps(s, c);
    case Cancelling(j, lockOk) => CancelKeeps(s, j, lockOk);
    case Recovered(i, order, healed, now, denied) => RecoveryKeeps(s, i, order, healed, now, denied);
    case Beating(c, now) => BeatKeeps(s, c, now);
  }

  /** The hypotheses are exact: of the steps possible in a state that keeps the invariant, those that keep one live body
      per session, the lease owner's, and forget nobody parked are the safe ones. */
  lemma SafetyIsExact(s: Engine, step: Step)
    requires Inv(s) && Enabled(s, step)
    ensures Guarantees(Next(s, step)) <==> Safe(s, step)
  {
    hide Inv, Guarantees, TriggerSafe, SweepSafe;
    if Safe(s, step) {
      StepKeeps(s, step);
      InvGuarantees(Next(s, step));
    } else if step.Triggered? {
      TriggerSafetyIsExact(s, step.job, step.now, step.denied);
    } else {
      SweepSafetyIsExact(s, step.timer, step.order, step.healed, step.now, step.denied);
    }
  }

  ghost predicate IsPath(states: seq<Engine>, steps: seq<Step>) {
    && |states| == |steps| + 1
    && forall i :: 0 <= i < |steps| ==>
         Enabled(states[i], steps[i]) && Safe(states[i], steps[i]) && states[i + 1] == Next(states[i], steps[i])
  }

  /** A run starts with the one sweep at boot. */
  ghost predicate IsRun(states: seq<Engine>, steps: seq<Step>) {
    && IsPath(states, steps) && Booted(states[0])
    && forall i :: 0 <= i < |steps| ==> (steps[i].BootSwept? <==> i == 0)
  }

  lemma {:induction false} PathKeepsInv(states: seq<Engine>, steps: seq<Step>, n: nat)
    requires IsPath(states, steps) && n < |states| && Inv(states[0])
    ensures Inv(states[n])
  {
    if n > 0 {
      hide Inv;
      PathKeepsInv(states, steps, n - 1);
      StepKeeps(states[n - 1], steps[n - 1]);
    }
  }

  lemma RunKeepsInv(states: seq<Engine>, steps: seq<Step>, n: nat)
    requires IsRun(states, steps) && n < |states|
    ensures Inv(states[n])
  {
    BootedIsSound(states[0], []);
    assert states[0].(timers := []) == states[0];
    hide Inv, Booted;
    PathKeepsInv(states, steps, n);
  }

  lemma RunStep(states: seq<Engine>, steps: seq<Step>, n: nat)
    requires IsRun(states, steps) && n < |steps|
    ensures Inv(states[n]) && Enabled(states[n], steps[n]) && Safe(states[n], steps[n]) && states[n + 1] == Next(states[n], steps[n])
  {
    hide Inv, Enabled, Safe, Next, Booted;
    RunKeepsInv(states, steps, n);
  }

  /** In every state of every safe run, each session has at most one live turn body, post-turn work and release
      retries included, and it is the lease owner's. */
  lemma OneBodyPerSession(states: seq<Engine>, steps: seq<Step>, n: nat, c: CallerId, d: CallerId)
    requires IsRun(states, steps) && n < |states|
    requires c in states[n].live && d in states[n].live && states[n].live[c].session.Some?
    requires states[n].live[c].session == states[n].live[d].session
    ensures c == d
    ensures LeaseOf(states[n].leases, states[n].live[c].session.value).owner == Some(states[n].live[c].job)
  {
    RunKeepsInv(states, steps, n);
    assert Holds(states[n], states[n].live[c].session.value, states[n].live[c].job);
  }

  /** `d` is live and will stay so. */
  ghost predicate Survives(s: Engine, s': Engine, d: CallerId) {
    d in s'.live && d in s.live && s'.live[d] == s.live[d] && d < s'.nextCaller
  }

  /** A run starts bodies, it never ends one. */
  lemma {:induction false} RunKeepsLive(s: Engine, j: JobId, c: CallerId, now: int, denied: set<JobId>, d: CallerId)
    requires d in s.live && d != c && d < s.nextCaller
    ensures Survives(s, Run(s, j, c, now, denied), d)
    decreases StaleSessions(s.leases, now)
  {
    hide SettleParked, SetStatus;
    if j in s.jobs && j !in s.running && s.jobs[j].session.Some? && j !in denied {
      var k := s.jobs[j].session.value;
      var (rec, claim) := Acquire(LeaseOf(s.leases, k), j, now, SELF);
      var s1 := s.(leases := PutLease(s.leases, k, rec));
      if claim.Queued? && claim.promoted.Some? && claim.promoted.value != j && claim.promoted.value !in s1.running {
        assert k in StaleSessions(s.leases, now) && k !in StaleSessions(s1.leases, now);
        RunKeepsLive(Registered(s1, claim.promoted.value), claim.promoted.value, s1.nextCaller, now, denied, d);
      }
    } else if j in s.jobs && j !in s.running && j in denied {
      DeniedKeepsLive(s, j, c, d);
    }
  }

  lemma DeniedKeepsLive(s: Engine, j: JobId, c: CallerId, d: CallerId)
    requires d in s.live && d < s.nextCaller
    ensures Survives(s, ClaimDenied(s, j, c), d)
  {
  }

  lemma {:induction false} DispatchAllKeepsLive(s: Engine, found: seq<JobId>, now: int, denied: set<JobId>, d: CallerId)
    requires d in s.live && d < s.nextCaller
    ensures Survives(s, DispatchAll(s, found, now, denied), d)
    decreases |found|
  {
    if found != [] {
      var prefix, j := found[..|found| - 1], found[|found| - 1];
      DispatchAllKeepsLive(s, prefix, now, denied, d);
      DispatchKeepsLive(DispatchAll(s, prefix, now, denied), j, now, denied, d);
    }
  }

  lemma DispatchKeepsLive(s: Engine, j: JobId, now: int, denied: set<JobId>, d: CallerId)
    requires d in s.live && d < s.nextCaller
    ensures Survives(s, Dispatch(s, j, now, denied), d)
  {
    hide Run;
    RunKeepsLive(Registered(s, j), j, s.nextCaller, now, denied, d);
  }

  lemma ReleaseKeepsOthers(s: Engine, c: CallerId, out: Outcome, n: nat, now: int, lockOk: bool, denied: set<JobId>, d: CallerId)
    requires c in s.live && s.live[c].session.Some? && d in s.live && d < s.nextCaller && d != c
    ensures var s' := ReleaseAttempt(s, c, out, n, now, lockOk, denied); d in s'.live && s'.live[d] == s.live[d]
  {
    if lockOk {
      var (rec, next) := Release(LeaseOf(s.leases, s.live[c].session.value), s.live[c].job, now, SELF);
      var s1 := Answer(s.(leases := PutLease(s.leases, s.live[c].session.value, rec), live := s.live - {c}), c, out);
      hide Dispatch, Release, PutLease;
      if next.Some? {
        DispatchKeepsLive(s1, next.value, now, denied, d);
      }
    }
  }

  lemma StepKeepsOtherBodies(s: Engine, step: Step, d: CallerId)
    requires Enabled(s, step) && d in s.live && d < s.nextCaller && ((step.BodyEnded? || step.Retried?) ==> step.caller != d)
    ensures var s' := Next(s, step); d in s'.live && s'.live[d] == s.live[d]
  {
    hide Run, Dispatch, ReleaseAttempt, DispatchAll, Heal;
    match step
    case Triggered(j, now, denied) => RunKeepsLive(s.(nextCaller := s.nextCaller + 1), j, s.nextCaller, now, denied, d);
    case BodyEnded(c, out, now, lockOk, denied) =>
      if s.live[c].session.Some? {
        ReleaseKeepsOthers(s.(running := s.running - {s.live[c].job}), c, out, 0, now, lockOk, denied, d);
      }
    case Retried(c, now, lockOk, denied) =>
      ReleaseKeepsOthers(s, c, s.live[c].phase.outcome, s.live[c].phase.attempts, now, lockOk, denied, d);
    case Recovered(i, order, healed, now, denied) =>
      var (leases, found) := Heal(s.leases, s.jobs, order[..healed], now);
      DispatchAllKeepsLive(s.(timers := s.timers[..i] + s.timers[i + 1..], leases := leases), found, now, denied, d);
    case _ =>
  }

  /** The lease leaves a job only after its body has returned, post-turn work included: as long as the body's own
      end or release retry is not the step taken, the activation stays live and its job keeps the lease. */
  lemma LeaseStaysUntilTheBodyReturns(s: Engine, step: Step, d: CallerId)
    requires Inv(s) && Enabled(s, step) && Safe(s, step) && d in s.live && s.live[d].session.Some?
    requires (step.BodyEnded? || step.Retried?) ==> step.caller != d
    ensures var s' := Next(s, step);
      d in s'.live && s'.live[d] == s.live[d] && LeaseOf(s'.leases, s.live[d].session.value).owner == Some(s.live[d].job)
  {
    StepKeeps(s, step);
    var s' := Next(s, step);
    assert d < s.nextCaller;
    StepKeepsOtherBodies(s, step, d);
    hide Next;
    assert Holds(s', s'.live[d].session.value, s'.live[d].job);
  }

  /** No caller is lost: in every state of every safe run a caller has been answered, or a live activation will
      answer it, or it is parked on a job that still waits, has a dispatched run, or awaits an armed sweep. */
  lemma NoCallerIsLost(states: seq<Engine>, steps: seq<Step>, n: nat, c: CallerId)
    requires IsRun(states, steps) && n < |states| && c < states[n].nextCaller
    ensures c in states[n].answers || c in states[n].live || exists j :: ParkedOn(states[n], j, c) && Accounted(states[n], j)
  {
    RunKeepsInv(states, steps, n);
    if InPark(states[n], c) {
      var j :| ParkedOn(states[n], j, c);
      assert Accounted(states[n], j);
    }
  }

  /** No caller is answered twice: an answer, once given, stays, and an answered caller is parked nowhere. */
  lemma {:induction false} AnswersAreFinal(states: seq<Engine>, steps: seq<Step>, m: nat, n: nat, c: CallerId)
    requires IsRun(states, steps) && m <= n < |states| && c in states[m].answers
    ensures c in states[n].answers && states[n].answers[c] == states[m].answers[c]
    ensures c !in states[n].live && !InPark(states[n], c)
    decreases n - m
  {
    hide Inv, Next, Safe, Enabled, InPark;
    RunKeepsInv(states, steps, n);
    if m < n {
      AnswersAreFinal(states, steps, m, n - 1, c);
      RunKeepsInv(states, steps, n - 1);
      StepKeeps(states[n - 1], steps[n - 1]);
      assert AnswersKept(states[n - 1], states[n]);
    }
    AnsweredIsNowhereElse(states[n], c);
  }

  lemma AnsweredIsNowhereElse(s: Engine, c: CallerId)
    requires Inv(s) && c in s.answers
    ensures c !in s.live && !InPark(s, c)
  {
    forall j ensures !ParkedOn(s, j, c) { }
  }

  /** When a continuation settles a job, every caller parked on that job gets the dispatched run's answer. */
  lemma DuplicatesShareTheAnswer(s: Engine, c: CallerId)
    requires Inv(s) && c in s.dispatches && c in s.answers
    ensures forall d :: ParkedOn(s, s.dispatches[c], d) ==> d in Settle(s, c).answers && Settle(s, c).answers[d] == s.answers[c]
  {
    var s1 := s.(dispatches := s.dispatches - {c});
    var j := s.dispatches[c];
    SameParkedOn(s, s1);
    assert CallersPlaced(s1, {});
    if j in s.parked {
      SettleParkedKeepsPlaces(s1, j, s.answers[c], {});
    }
  }
}
