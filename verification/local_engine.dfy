/**
 `LocalEngine` as the source writes it: an object whose maps are reassigned step by step. Each method is
 proved against the transition of the same name in `SessionLease`, so everything proved about runs of those
 transitions holds of this object.
 */
module LocalEngines {
  import opened Options
  import opened SessionRunQueue
  import opened SessionLease

  lemma AnswerOneMore(answers: map<CallerId, Outcome>, callers: seq<CallerId>, i: nat, out: Outcome)
    requires i < |callers|
    ensures AnswerAll(answers, callers[..i], out)[callers[i] := out] == AnswerAll(answers, callers[..i + 1], out)
  {
    assert callers[..i + 1] == callers[..i] + [callers[i]];
  }

  class LocalEngine {
    var jobs: map<JobId, Job>
    var leases: map<SessionId, Lease>
    var running: set<JobId>
    var parked: map<JobId, seq<CallerId>>
    var live: map<CallerId, Activation>
    var dispatches: map<CallerId, JobId>
    var answers: map<CallerId, Outcome>
    var timers: seq<nat>
    var nextCaller: CallerId

    /** Boot: the store's jobs and leases survive, everything in memory is empty. The sweep at boot is a call of
        `RecoverSessionRuns` by the host, which only logs that it threw. */
    constructor (jobs: map<JobId, Job>, leases: map<SessionId, Lease>)
      ensures Model() == Engine(jobs, leases, {}, map[], map[], map[], map[], [], 0)
    {
      this.jobs, this.leases := jobs, leases;
      running, parked, live, dispatches, answers, timers, nextCaller := {}, map[], map[], map[], map[], [], 0;
    }

    ghost function Model(): Engine
      reads this
    {
      Engine(jobs, leases, running, parked, live, dispatches, answers, timers, nextCaller)
    }

    method SettleParked(j: JobId, out: Outcome)
      modifies `parked, `answers
      ensures Model() == SessionLease.SettleParked(old(Model()), j, out)
    {
      if j !in parked {
        return;
      }
      var callers := parked[j];
      parked := parked - {j};
      var i := 0;
      assert AnswerAll(answers, [], out) == answers;
      while i < |callers|
        invariant i <= |callers| && parked == old(parked) - {j} && answers == AnswerAll(old(answers), callers[..i], out)
      {
        AnswerOneMore(old(answers), callers, i, out);
        answers := answers[callers[i] := out];
        i := i + 1;
      }
      assert callers[..|callers|] == callers;
    }

    /** The entry guard of `run`. */
    method Run(j: JobId, c: CallerId, now: int, denied: set<JobId>)
      modifies this
      ensures Model() == SessionLease.Run(old(Model()), j, c, now, denied)
      decreases StaleSessions(leases, now), 1
    {
      if j !in jobs {
        answers := answers[c := Threw];
      } else if j in running {
        answers := answers[c := Finished(jobs[j].status)];
      } else {
        RunWithSessionLease(jobs[j].session, j, c, now, denied);
      }
    }

    method RunWithSessionLease(session: Option<SessionId>, j: JobId, c: CallerId, now: int, denied: set<JobId>)
      requires j in jobs && session == jobs[j].session && j !in running
      modifies this
      ensures Model() == SessionLease.Run(old(Model()), j, c, now, denied)
      decreases StaleSessions(leases, now), 0
    {
      if session.None? {
        running, live := running + {j}, live[c := Activation(j, session, Executing)];
        return;
      }
      if j in denied {
        jobs := jobs[j := jobs[j].(status := Failed)];
        SettleParked(j, Finished(Failed));
        answers := answers[c := Finished(Failed)];
        return;
      }
      var k := session.value;
      var (rec, claim) := Acquire(LeaseOf(leases, k), j, now, SELF);
      leases := PutLease(leases, k, rec);
      match claim {
        case Queued(promoted) =>
          if promoted.Some? && promoted.value != j && promoted.value !in running {
            assert k in StaleSessions(old(leases), now) && k !in StaleSessions(leases, now);
            Dispatch(promoted.value, now, denied);
          }
          jobs := SetStatus(jobs, j, Pending);
          var callers := if j in parked then parked[j] else [];
          parked := parked[j := callers + [c]];
        case Contended =>
          answers := answers[c := Finished(jobs[j].status)];
        case _ =>
          running, live := running + {j}, live[c := Activation(j, session, Executing)];
      }
    }

    /** `void this.dispatchRun(j).then(settleParked)` */
    method Dispatch(j: JobId, now: int, denied: set<JobId>)
      modifies this
      ensures Model() == SessionLease.Dispatch(old(Model()), j, now, denied)
      decreases StaleSessions(leases, now), 2
    {
      hide SessionLease.Run;
      var c := nextCaller;
      nextCaller := nextCaller + 1;
      dispatches := dispatches[c := j];
      Run(j, c, now, denied);
    }

    method Trigger(j: JobId, now: int, denied: set<JobId>) returns (c: CallerId)
      modifies this
      ensures c == old(nextCaller) && Model() == SessionLease.Trigger(old(Model()), j, now, denied)
    {
      c := nextCaller;
      nextCaller := nextCaller + 1;
      Run(j, c, now, denied);
    }

    /** The `finally` of the lease wrapper. */
    method BodyEnds(c: CallerId, out: Outcome, now: int, lockOk: bool, denied: set<JobId>)
      requires c in live && live[c].phase.Executing?
      modifies this
      ensures Model() == SessionLease.BodyEnds(old(Model()), c, out, now, lockOk, denied)
    {
      running := running - {live[c].job};
      if live[c].session.None? {
        live := live - {c};
        answers := answers[c := out];
      } else {
        ReleaseAndDrainSession(c, out, 0, now, lockOk, denied);
      }
    }

    /** One turn of the retry loop of `releaseAndDrainSession`, after `n` failed ones. */
    method ReleaseAndDrainSession(c: CallerId, out: Outcome, n: nat, now: int, lockOk: bool, denied: set<JobId>)
      requires c in live && live[c].session.Some?
      modifies this
      ensures Model() == ReleaseAttempt(old(Model()), c, out, n, now, lockOk, denied)
    {
      if !lockOk {
        if n + 1 < RELEASE_ATTEMPTS {
          live := live[c := live[c].(phase := Releasing(n + 1, out))];
          return;
        }
        live := live - {c};
        timers := timers + [0];
        answers := answers[c := out];
        return;
      }
      var j, k := live[c].job, live[c].session.value;
      var (rec, next) := Release(LeaseOf(leases, k), j, now, SELF);
      leases := PutLease(leases, k, rec);
      live := live - {c};
      answers := answers[c := out];
      if next.Some? && next.value != j && next.value !in running {
        Dispatch(next.value, now, denied);
      }
    }

    /** The continuation of a dispatched run. */
    method Settle(c: CallerId)
      requires c in dispatches && c in answers
      modifies this
      ensures Model() == SessionLease.Settle(old(Model()), c)
    {
      var j, out := dispatches[c], answers[c];
      dispatches := dispatches - {c};
      SettleParked(j, out);
    }

    method Cancel(j: JobId, lockOk: bool)
      modifies this
      ensures Model() == SessionLease.Cancel(old(Model()), j, lockOk)
    {
      if j !in running {
        if j in jobs && jobs[j].session.Some? {
          var k := jobs[j].session.value;
          if k in leases && j in leases[k].waiters && lockOk {
            leases := PutLease(leases, k, Dequeue(leases[k], j));
            jobs := jobs[j := jobs[j].(status := Cancelled)];
            SettleParked(j, Finished(Cancelled));
          }
        }
        return;
      }
      if j in jobs && jobs[j].status == Running {
        jobs := jobs[j := jobs[j].(status := Cancelled)];
      }
      running := running - {j};
    }

    /** Heal the persisted sessions one lock at a time, then dispatch what was found; the first lock denied throws. */
    method RecoverSessionRuns(order: seq<SessionId>, healed: nat, now: int, denied: set<JobId>) returns (threw: bool)
      requires healed <= |order|
      modifies this
      ensures Model() == SessionLease.RecoverSessionRuns(old(Model()), order, healed, now, denied)
      ensures threw <==> healed < |order|
    {
      var found: seq<JobId> := [];
      var n := 0;
      while n < healed
        modifies `leases
        invariant n <= healed && (leases, found) == Heal(old(leases), jobs, order[..n], now)
      {
        var k := order[n];
        var (rec, next) := Recover(LeaseOf(leases, k), TerminalTest(jobs), now, SELF);
        leases := PutLease(leases, k, rec);
        if next.Some? {
          found := found + [next.value];
        }
        assert order[..n + 1][..n] == order[..n];
        n := n + 1;
      }
      threw := healed < |order|;
      if !threw {
        DispatchFound(found, now, denied);
      }
    }

    /** The timer of `scheduleReleaseRecovery`: a sweep that throws is armed again. */
    method RecoveryTimer(i: nat, order: seq<SessionId>, healed: nat, now: int, denied: set<JobId>)
      requires i < |timers| && healed <= |order|
      modifies this
      ensures Model() == RecoveryFires(old(Model()), i, order, healed, now, denied)
    {
      hide SessionLease.RecoverSessionRuns;
      var attempt := timers[i];
      timers := timers[..i] + timers[i + 1..];
      var threw := RecoverSessionRuns(order, healed, now, denied);
      if threw {
        timers := timers + [attempt + 1];
      }
    }

    method DispatchFound(found: seq<JobId>, now: int, denied: set<JobId>)
      modifies this
      ensures Model() == DispatchAll(old(Model()), found, now, denied)
    {
      var n := 0;
      while n < |found|
        invariant n <= |found| && Model() == DispatchAll(old(Model()), found[..n], now, denied)
      {
        assert found[..n + 1][..n] == found[..n];
        if found[n] !in running {
          Dispatch(found[n], now, denied);
        }
        n := n + 1;
      }
      assert found[..|found|] == found;
    }

    method HeartbeatFires(c: CallerId, now: int)
      requires c in live && live[c].session.Some?
      modifies this
      ensures Model() == Beat(old(Model()), c, now)
    {
      var k := live[c].session.value;
      leases := PutLease(leases, k, Heartbeat(LeaseOf(leases, k), live[c].job, now, SELF));
    }
  }
}
