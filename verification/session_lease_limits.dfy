/** Runs that leave the guarantees of the session lease, one for each way a hypothesis can fail. */
module SessionLeaseLimits {
  import opened Options
  import opened SessionRunQueue
  import opened SessionLease
  import opened SessionLeaseProof
  import opened SessionLeaseExact
  import opened SessionLeaseRuns
  import opened SessionLeaseAttended
  import opened SessionLeaseStalls

  const A: JobId := 0
  const B: JobId := 1
  const C: JobId := 2
  const CHAT: SessionId := 7

  function Fresh(): Engine {
    Engine(map[A := Job(Some(CHAT), Pending), B := Job(Some(CHAT), Pending), C := Job(Some(CHAT), Pending)],
           map[], {}, map[], map[], map[], map[], [], 0)
  }

  /** `A` runs (caller 0), `B` and `C` are parked behind it (callers 1 and 2). */
  function Three(): Engine {
    Engine(map[A := Job(Some(CHAT), Pending), B := Job(Some(CHAT), Pending), C := Job(Some(CHAT), Pending)],
           map[CHAT := Lease(Some(A), Some(SELF), 0, 0, [B, C])], {A}, map[B := [1], C := [2]],
           map[0 := Activation(A, Some(CHAT), Executing)], map[], map[], [], 3)
  }

  function One(): Engine {
    Fresh().(leases := map[CHAT := Lease(Some(A), Some(SELF), 0, 0, [])], running := {A}, nextCaller := 1,
             live := map[0 := Activation(A, Some(CHAT), Executing)])
  }

  function Two(): Engine {
    One().(leases := map[CHAT := Lease(Some(A), Some(SELF), 0, 0, [B])], parked := map[B := [1]], nextCaller := 2)
  }

  lemma OneIsReached()
    ensures Booted(Fresh()) && TriggerSafe(Fresh(), A, 0) && Trigger(Fresh(), A, 0, {}) == One() && Inv(One())
  {
    BootedIsSound(Fresh(), []);
    assert Fresh().(timers := []) == Fresh();
    TriggerKeeps(Fresh(), A, 0, {});
    assert Trigger(Fresh(), A, 0, {}) == One();
  }

  lemma TwoIsReached()
    ensures TriggerSafe(One(), B, 0) && Trigger(One(), B, 0, {}) == Two() && Inv(Two())
  {
    OneIsReached();
    hide Inv;
    TriggerKeeps(One(), B, 0, {});
    assert [] + [B] == [B];
    assert Acquire(One().leases[CHAT], B, 0, SELF) == (Lease(Some(A), Some(SELF), 0, 0, [B]), Queued(None));
    assert [] + [1] == [1];
    assert Trigger(One(), B, 0, {}) == Two();
  }

  lemma ThreeIsReached()
    ensures TriggerSafe(Two(), C, 0) && Trigger(Two(), C, 0, {}) == Three() && Inv(Three())
  {
    TwoIsReached();
    hide Inv;
    TriggerKeeps(Two(), C, 0, {});
    assert [B] + [C] == [B, C] && [] + [2] == [2];
    assert Acquire(Two().leases[CHAT], C, 0, SELF) == (Lease(Some(A), Some(SELF), 0, 0, [B, C]), Queued(None));
    assert Trigger(Two(), C, 0, {}) == Three();
  }

  /** A job cancelled and triggered again before its body has unwound runs twice at once: the cancel drops the
      `running` entry, and the lease still names the job. */
  lemma RetriggerAfterCancelOverlaps()
    ensures var s := Trigger(Cancel(BodyWrites(Three(), 0, Running, false), A, true), A, 1, {});
      && 0 in s.live && 3 in s.live && s.live[0] == s.live[3] == Activation(A, Some(CHAT), Executing)
  {
    var s1 := BodyWrites(Three(), 0, Running, false);
    var s2 := Cancel(s1, A, true);
    assert s1.jobs[A].status == Running && s2.running == {} && A !in s2.running;
    assert s2.jobs[A] == Job(Some(CHAT), Cancelled);
    assert Acquire(s2.leases[CHAT], A, 1, SELF).1 == Owned;
    var s3 := Trigger(s2, A, 1, {});
    assert s3.live == s2.live[3 := Activation(A, Some(CHAT), Executing)];
  }

  lemma SurvivingBoth(terminal: JobId -> bool)
    requires !terminal(B) && !terminal(C)
    ensures Surviving([B, C], terminal) == [B, C]
  {
    assert [B, C][1..] == [C] && [C][1..] == [];
    assert Surviving([C], terminal) == [C] + Surviving([], terminal);
  }

  /** A sweep, armed by another session's failed release, that meets a body doing its post-turn work under a
      terminal status starts the next turn beside it. */
  lemma SweepDuringPostTurnOverlaps()
    ensures var s0 := BodyWrites(Three(), 0, Done, false).(timers := [0]);
      var s := RecoveryFires(s0, 0, [CHAT], 1, 1, {});
      && Inv(s0) && 0 in s.live && 3 in s.live
      && s.live[0] == Activation(A, Some(CHAT), Executing) && s.live[3] == Activation(B, Some(CHAT), Executing)
  {
    ThreeIsReached();
    LiveJobChangeKeeps(Three(), 0, Done, false);
    RearmKeeps(BodyWrites(Three(), 0, Done, false), [0]);
    SweepStartsB();
  }

  lemma SweepStartsB()
    ensures var s1 := BodyWrites(Three(), 0, Done, false).(timers := [0]);
      var s2 := s1.(timers := [], leases := map[CHAT := Lease(Some(B), Some(SELF), 1, 1, [C])]);
      && RecoveryFires(s1, 0, [CHAT], 1, 1, {}) == Dispatch(s2, B, 1, {})
      && Dispatch(s2, B, 1, {}).live == s1.live[3 := Activation(B, Some(CHAT), Executing)]
  {
    var s1 := BodyWrites(Three(), 0, Done, false).(timers := [0]);
    var terminal := TerminalTest(s1.jobs);
    assert terminal(A) && !terminal(B) && !terminal(C);
    SurvivingBoth(terminal);
    var rec := Lease(Some(B), Some(SELF), 1, 1, [C]);
    assert [B, C][1..] == [C];
    assert Recover(s1.leases[CHAT], terminal, 1, SELF) == (rec, Some(B));
    var healed := map[CHAT := rec];
    HealOfOne(s1.leases, s1.jobs, 1);
    assert PutLease(s1.leases, CHAT, rec) == healed;
    var s2 := s1.(timers := [], leases := healed);
    assert [CHAT][..1] == [CHAT] && s1.timers[..0] + s1.timers[1..] == [];
    hide Heal, Recover, Dispatch, TerminalTest;
    DispatchOne(s2);
    DispatchShape(s2, B, 1, {});
  }

  lemma DispatchOne(s: Engine)
    requires B !in s.running
    ensures DispatchAll(s, [B], 1, {}) == Dispatch(s, B, 1, {})
  {
    assert [B][..0] == [];
    assert DispatchAll(s, [], 1, {}) == s;
  }

  lemma HealOfOne(leases: map<SessionId, Lease>, jobs: map<JobId, Job>, now: int)
    requires CHAT in leases && Recover(leases[CHAT], TerminalTest(jobs), now, SELF).1 == Some(B)
    ensures Heal(leases, jobs, [CHAT], now) == (PutLease(leases, CHAT, Recover(leases[CHAT], TerminalTest(jobs), now, SELF).0), [B])
  {
    assert [CHAT][..0] == [];
    assert Heal(leases, jobs, [], now) == (leases, []);
    assert [] + [B] == [B];
  }

  /** `A` has ended and failed `n` times to get the lock for its release. */
  function GivingUp(n: nat): Engine {
    Two().(jobs := Two().jobs[A := Job(Some(CHAT), Done)], running := {},
           live := map[0 := Activation(A, Some(CHAT), Releasing(n, Finished(Done)))])
  }

  /** `A` has given its release up. `B`'s first caller is parked behind it, and a sweep is armed. */
  function StaleOwner(): Engine {
    GivingUp(4).(live := map[], answers := map[0 := Finished(Done)], timers := [0])
  }

  lemma GivingUpIsReached()
    ensures BodyEnds(BodyWrites(Two(), 0, Done, false), 0, Finished(Done), 0, false, {}) == GivingUp(1)
    ensures forall n: nat :: 1 <= n < 4 ==> ReleaseAttempt(GivingUp(n), 0, Finished(Done), n, 0, false, {}) == GivingUp(n + 1)
    ensures ReleaseAttempt(GivingUp(4), 0, Finished(Done), 4, 0, false, {}) == StaleOwner()
  {
    assert Two().running - {A} == {};
    assert GivingUp(4).live - {0} == map[] && [] + [0] == [0];
  }

  /** A second call of `run` for `B`, made before the sweep, reclaims the stale lease for itself. It runs `B` and is
      answered, but nothing ever settles the caller parked on `B` before it: nothing is live, dispatched or leased any
      more, and the sweep finds nothing to do. */
  lemma ReclaimByAWaiterStrandsItsCallers()
    ensures var s1 := Trigger(StaleOwner(), B, LEASE_STALE_MS + 1, {});
      var s2 := BodyEnds(s1, 2, Finished(Done), LEASE_STALE_MS + 2, true, {});
      var s3 := RecoveryFires(s2, 0, [], 0, LEASE_STALE_MS + 3, {});
      && Inv(StaleOwner()) && s1.live == map[2 := Activation(B, Some(CHAT), Executing)]
      && s3.answers == map[0 := Finished(Done), 2 := Finished(Done)] && s3.parked == map[B := [1]]
      && s3.leases == map[] && s3.live == map[] && s3.dispatches == map[] && s3.timers == []
  {
    StaleOwnerIsSound();
    hide Inv;
    SecondCallReclaims();
    var s1, at := Reclaimed(), LEASE_STALE_MS + 1;
    assert Release(s1.leases[CHAT], B, at + 1, SELF) == (EMPTY_LEASE, None);
    var s2 := BodyEnds(s1, 2, Finished(Done), at + 1, true, {});
    assert s2.leases == map[] && s2.live == map[];
    assert Heal(s2.leases, s2.jobs, [], at + 2) == (map[], []);
  }

  function Reclaimed(): Engine {
    StaleOwner().(nextCaller := 3, running := {B}, live := map[2 := Activation(B, Some(CHAT), Executing)],
                  leases := map[CHAT := Lease(Some(B), Some(SELF), LEASE_STALE_MS + 1, LEASE_STALE_MS + 1, [])])
  }

  lemma SecondCallReclaims()
    ensures Trigger(StaleOwner(), B, LEASE_STALE_MS + 1, {}) == Reclaimed()
  {
    var at := LEASE_STALE_MS + 1;
    assert Acquire(StaleOwner().leases[CHAT], B, at, SELF) == (Lease(Some(B), Some(SELF), at, at, []), Acquired) by {
      assert [B][1..] == [];
    }
  }

  lemma StaleOwnerIsSound()
    ensures Inv(StaleOwner())
  {
    assert Exclusive(StaleOwner()) by { assert Distinct([B]) by { assert [B][1..] == []; } }
    hide Exclusive;
    StaleOwnerKeepsPromises();
  }

  lemma StaleOwnerKeepsPromises()
    ensures Promises(StaleOwner(), {}, {})
  {
    var s := StaleOwner();
    assert s.parked == map[B := [1]] && s.live == map[] && s.dispatches == map[] && s.answers == map[0 := Finished(Done)] && s.nextCaller == 2;
    assert Waiting(s, B);
    assert ParkedOn(s, B, 1) && InPark(s, 1);
    assert Distinct(s.parked[B]) by { assert s.parked[B][1..] == []; }
    hide StaleOwner, Waiting;
    assert forall j: JobId, c: CallerId :: ParkedOn(s, j, c) ==> j == B && c == 1;
  }

  /** `A` has ended; the run of `B` that the drain dispatched was denied the lock. */
  function Denied(): Engine {
    Three().(running := {}, leases := map[CHAT := Lease(Some(B), None, 1, 1, [C])], live := map[], parked := map[C := [2]],
             jobs := Three().jobs[B := Job(Some(CHAT), Failed)], dispatches := map[3 := B],
             answers := map[0 := Finished(Done), 1 := Finished(Failed), 3 := Finished(Failed)], nextCaller := 4)
  }

  lemma DeniedIsReached()
    ensures BodyEnds(Three(), 0, Finished(Done), 1, true, {B}) == Denied()
  {
    var s0 := Three();
    assert Release(s0.leases[CHAT], A, 1, SELF) == (Lease(Some(B), None, 1, 1, [C]), Some(B)) by {
      assert [B, C][1..] == [C];
    }
    var s2 := s0.(running := {}, leases := map[CHAT := Lease(Some(B), None, 1, 1, [C])], live := map[], answers := map[0 := Finished(Done)]);
    assert BodyEnds(s0, 0, Finished(Done), 1, true, {B}) == Dispatch(s2, B, 1, {B}) by {
      assert s0.running - {A} == {};
      assert PutLease(s0.leases, CHAT, Lease(Some(B), None, 1, 1, [C])) == s2.leases;
      assert s0.live - {0} == map[];
    }
    hide BodyEnds, Dispatch;
    DispatchShape(s2, B, 1, {B});
    assert forall c :: c in s2.parked[B] <==> c == 1;
    assert s2.parked - {B} == map[C := [2]];
    assert ClaimDenied(Registered(s2, B), B, 3) == Denied();
  }

  /** The lock is denied to the run that the drain dispatches: `B` fails and its caller is answered, but the lease
      names `B`, `C` stays parked behind it, and no step of the engine is left to take. */
  lemma DeniedDispatchStallsTheQueue()
    ensures var s1 := BodyEnds(Three(), 0, Finished(Done), 1, true, {B});
      && 3 in s1.dispatches && 3 in s1.answers
      && var s := Settle(s1, 3);
      && s.parked == map[C := [2]] && CHAT in s.leases && s.leases[CHAT].owner == Some(B) && s.leases[CHAT].waiters == [C]
      && 1 in s.answers && s.answers[1] == Finished(Failed) && !CanAct(s)
  {
    DeniedIsReached();
    hide BodyEnds;
    assert Denied().dispatches - {3} == map[];
    assert Settle(Denied(), 3) == Denied().(dispatches := map[]);
  }

  /** A restart after a crash under `A`'s turn: `A` has been failed, its lease is persisted, `B` was never asked for. */
  function Crashed(): Engine {
    Engine(map[A := Job(Some(CHAT), Failed), B := Job(Some(CHAT), Pending)],
           map[CHAT := Lease(Some(A), Some(SELF), 100, 100, [])], {}, map[], map[], map[], map[], [], 0)
  }

  /** `B` has been asked for: its caller is parked behind `A`. */
  function Behind(): Engine {
    Crashed().(leases := map[CHAT := Lease(Some(A), Some(SELF), 100, 100, [B])], parked := map[B := [0]], nextCaller := 1)
  }

  /** The sweep at boot is denied the one lock it asks for. It throws, and arms nothing; the next call of `run` in that
      session, well before the lease is stale, parks its caller. */
  lemma DeniedBootSweepLeavesTheLease()
    ensures Booted(Crashed()) && RecoverSessionRuns(Crashed(), [CHAT], 0, 101, {}) == Crashed()
    ensures TriggerSafe(Crashed(), B, 102) && Trigger(Crashed(), B, 102, {}) == Behind()
    ensures Stranded(Behind(), CHAT, B, 0) && !CanAct(Behind())
  {
    var s := Crashed();
    assert [CHAT][..0] == [] && s.(leases := s.leases) == s;
    assert Acquire(s.leases[CHAT], B, 102, SELF) == (Lease(Some(A), Some(SELF), 100, 100, [B]), Queued(None)) by {
      assert [] + [B] == [B];
    }
    assert [] + [0] == [0];
    assert Trigger(s, B, 102, {}) == Behind();
  }

  ghost predicate StartsDenied(states: seq<Engine>, steps: seq<Step>) {
    && IsRun(states, steps) && |steps| >= 2 && states[0] == Crashed()
    && steps[0] == BootSwept([CHAT], 0, 101, {}) && steps[1] == Triggered(B, 102, {})
  }

  /** So in every run that starts like that the caller stays parked, unanswered, until somebody asks for or cancels a job
      of the session or another session's failed release arms a sweep. */
  lemma DeniedBootSweepStallsTheQueue(states: seq<Engine>, steps: seq<Step>, n: nat)
    requires StartsDenied(states, steps) && 2 <= n < |states|
    requires (forall i :: 2 <= i < n ==> Elsewhere(states[i], steps[i], CHAT)) && forall i :: 2 <= i <= n ==> states[i].timers == []
    ensures ParkedOn(states[n], B, 0) && 0 !in states[n].answers && !Clear(states[0], steps[0])
  {
    DeniedBootSweepLeavesTheLease();
    FirstTwoSteps(states, steps);
    StalledCallersStay(states, steps, 2, n, CHAT, B, 0);
    StrandedIsParked(states[n], CHAT, B, 0);
  }

  lemma FirstTwoSteps(states: seq<Engine>, steps: seq<Step>)
    requires StartsDenied(states, steps)
    ensures states[1] == Crashed() && states[2] == Behind() && !Clear(states[0], steps[0])
  {
    DeniedBootSweepLeavesTheLease();
    hide RecoverSessionRuns, Trigger, TriggerSafe, Booted, Stranded;
    assert Enabled(states[0], steps[0]) && states[1] == Next(states[0], steps[0]);
    assert Enabled(states[1], steps[1]) && states[2] == Next(states[1], steps[1]);
  }
}
