/**
 Every caller is answered, whatever else goes on: outside calls, cancels and heartbeats may come between the engine's own
 steps at any time. It is enough that bodies end, continuations run and sweeps fire.
 */
module SessionLeaseFair {
  import opened Options
  import opened SessionRunQueue
  import opened SessionLease
  import opened SessionLeaseProof
  import opened SessionLeaseExact
  import opened SessionLeaseRuns
  import opened SessionLeaseAttended
  import opened SessionLeaseFifo
  import opened SessionLeaseWaiting

  // ---- endless runs ----

  ghost predicate Taken(s: Engine, step: Step, s': Engine) {
    Enabled(s, step) && Safe(s, step) && Granted(s, step) && s' == Next(s, step)
  }

  /** Safe and granted steps without end, from an attended state. */
  ghost predicate Path(states: nat -> Engine, steps: nat -> Step) {
    Inv(states(0)) && Attended(states(0)) && forall i: nat :: Taken(states(i), steps(i), states(i + 1))
  }

  ghost predicate TurnEndsLater(steps: nat -> Step, i: nat, c: CallerId) {
    exists n: nat :: i <= n && EndsTurn(steps(n), c)
  }

  ghost predicate SettledLater(steps: nat -> Step, i: nat, c: CallerId) {
    exists n: nat :: i <= n && steps(n) == Settled(c)
  }

  ghost predicate SweptLater(steps: nat -> Step, i: nat) {
    exists n: nat :: i <= n && steps(n).Recovered?
  }

  /** Bodies end, continuations of answered runs are run, armed sweeps fire. */
  ghost predicate Fair(states: nat -> Engine, steps: nat -> Step) {
    && (forall i: nat, c :: c in states(i).live ==> TurnEndsLater(steps, i, c))
    && (forall i: nat, c :: c in states(i).dispatches && c in states(i).answers ==> SettledLater(steps, i, c))
    && (forall i: nat :: states(i).timers != [] ==> SweptLater(steps, i))
  }

  lemma TakenKeeps(s: Engine, step: Step, s': Engine)
    requires Inv(s) && Attended(s) && Taken(s, step, s')
    ensures Inv(s') && Attended(s') && AnswersKept(s, s')
  {
    hide Inv, Attended, Enabled, Safe, Next, DispatchedBy;
    StepKeeps(s, step);
    AttendanceIsExact(s, step);
  }

  lemma {:induction false} PathKeeps(states: nat -> Engine, steps: nat -> Step, n: nat)
    requires Path(states, steps)
    ensures Inv(states(n)) && Attended(states(n)) && Taken(states(n), steps(n), states(n + 1))
  {
    hide Inv, Attended, Taken;
    if n > 0 {
      PathKeeps(states, steps, n - 1);
      TakenKeeps(states(n - 1), steps(n - 1), states(n));
    }
  }

  lemma {:induction false} AnsweredStays(states: nat -> Engine, steps: nat -> Step, i: nat, n: nat, c: CallerId)
    requires Path(states, steps) && i <= n && c in states(i).answers
    ensures c in states(n).answers
    decreases n - i
  {
    hide Path, Inv, Attended, Taken;
    if i < n {
      AnsweredStays(states, steps, i, n - 1, c);
      PathKeeps(states, steps, n - 1);
      TakenKeeps(states(n - 1), steps(n - 1), states(n));
    }
  }

  // ---- a live body answers its caller ----

  lemma ReleaseAnswers(s: Engine, c: CallerId, out: Outcome, n: nat, now: int, denied: set<JobId>)
    requires c in s.live && s.live[c].session.Some?
    ensures c in ReleaseAttempt(s, c, out, n, now, true, denied).answers
  {
    var s1, next := Handing(s, c, out, now), HandedTo(s, c, now, true);
    GrantedReleaseShape(s, c, out, n, now, denied);
    assert c in s1.answers;
    hide Handing, HandedTo, ReleaseAttempt, Dispatch;
    if next != {} {
      var q :| next == {q} && ReleaseAttempt(s, c, out, n, now, true, denied) == Dispatch(s1, q, now, denied);
      DispatchCarries(s1, q, now, denied);
    }
  }

  lemma EndedTurnAnswers(s: Engine, step: Step)
    requires Enabled(s, step) && Granted(s, step) && (step.BodyEnded? || step.Retried?)
    ensures step.caller in Next(s, step).answers
  {
    hide ReleaseAttempt, DispatchedBy;
    if step.BodyEnded? {
      if s.live[step.caller].session.Some? {
        ReleaseAnswers(s.(running := s.running - {s.live[step.caller].job}), step.caller, step.outcome, 0, step.now, step.denied);
      }
    } else {
      ReleaseAnswers(s, step.caller, s.live[step.caller].phase.outcome, s.live[step.caller].phase.attempts, step.now, step.denied);
    }
  }

  lemma LiveIsOld(s: Engine, c: CallerId)
    requires Inv(s) && (c in s.live || c in s.dispatches)
    ensures c < s.nextCaller
  {
  }

  /** The first end of the turn of `c`, up to which it stays live. */
  lemma {:induction false} FirstEnd(states: nat -> Engine, steps: nat -> Step, i: nat, n0: nat, c: CallerId) returns (n: nat)
    requires Path(states, steps) && c in states(i).live && i <= n0 && EndsTurn(steps(n0), c)
    ensures i <= n <= n0 && EndsTurn(steps(n), c) && c in states(n).live && states(n).live[c].session == states(i).live[c].session
    ensures states(n).live[c].job == states(i).live[c].job && c in states(n + 1).answers
    decreases n0 - i
  {
    n := i;
    hide Path, Inv, Attended, Safe, Next, Enabled, DispatchedBy;
    PathKeeps(states, steps, i);
    if EndsTurn(steps(i), c) {
      EndedTurnAnswers(states(i), steps(i));
    } else {
      LiveIsOld(states(i), c);
      StepKeepsOtherBodies(states(i), steps(i), c);
      n := FirstEnd(states, steps, i + 1, n0, c);
    }
  }

  // ---- a dispatched run answers the callers parked on its job ----

  ghost predicate Dispatched(s: Engine, d: CallerId, j: JobId) {
    d in s.dispatches && s.dispatches[d] == j
  }

  /** One step of a path: a parked caller is answered or stays parked, and a dispatch is forgotten only in answering. */
  lemma ParkedStep(s: Engine, step: Step, j: JobId, c: CallerId)
    requires Inv(s) && Enabled(s, step) && ParkedOn(s, j, c)
    ensures var s' := Next(s, step);
      && SameSessions(s, s') && (c in s'.answers || ParkedOn(s', j, c))
      && (forall d :: Dispatched(s, d, j) ==> c in s'.answers || Dispatched(s', d, j))
      && (step.Settled? && Dispatched(s, step.caller, j) ==> c in s'.answers)
  {
    forall d | d in s.dispatches ensures d < s.nextCaller { LiveIsOld(s, d); }
    hide Inv, ParkedOn, Enabled;
    if step.Settled? {
      assert step.caller in s.dispatches && step.caller in s.answers by { SettledIsEnabled(s, step.caller); }
      SettleForgets(s, step.caller);
      assert Next(s, step) == Settle(s, step.caller);
      hide Settle, Next;
    } else {
      StepCarries(s, step);
      hide Next;
    }
  }

  lemma SettledIsEnabled(s: Engine, d: CallerId)
    requires Enabled(s, Settled(d))
    ensures d in s.dispatches && d in s.answers
  {
  }

  lemma {:induction false} ParkedUntilAnswered(states: nat -> Engine, steps: nat -> Step, i: nat, n: nat, j: JobId, c: CallerId)
    requires Path(states, steps) && i <= n && ParkedOn(states(i), j, c)
    ensures c in states(n).answers || ParkedOn(states(n), j, c)
    ensures forall d :: Dispatched(states(i), d, j) ==> c in states(n).answers || Dispatched(states(n), d, j)
    ensures c in states(n).answers || |states(n).timers| <= |states(i).timers|
    ensures SameSessions(states(i), states(n)) || c in states(n).answers
    decreases n - i
  {
    hide Path, Inv, Attended, Safe, Next, Enabled, DispatchedBy, Dispatched, ParkedOn, Granted;
    if i < n {
      ParkedUntilAnswered(states, steps, i, n - 1, j, c);
      PathKeeps(states, steps, n - 1);
      if c in states(n - 1).answers {
        AnsweredStays(states, steps, n - 1, n, c);
      } else {
        ParkedStep(states(n - 1), steps(n - 1), j, c);
        StepTimers(states(n - 1), steps(n - 1));
      }
    } else {
      assert SameSessions(states(i), states(i));
    }
  }

  lemma DispatchAnswersOrLives(s: Engine, d: CallerId, j: JobId)
    requires Inv(s) && Dispatched(s, d, j)
    ensures d in s.answers || d in s.live
  {
  }

  lemma RunIsAnswered(states: nat -> Engine, steps: nat -> Step, i: nat, d: CallerId, j: JobId) returns (n: nat)
    requires Path(states, steps) && Fair(states, steps) && Dispatched(states(i), d, j)
    ensures i <= n && d in states(n).answers
  {
    n := i;
    PathKeeps(states, steps, i);
    DispatchAnswersOrLives(states(i), d, j);
    if d in states(i).live {
      var n0: nat :| i <= n0 && EndsTurn(steps(n0), d);
      hide Path, Fair, Inv, Attended, Taken;
      n := FirstEnd(states, steps, i, n0, d);
      n := n + 1;
    }
  }

  lemma PromisedIsAnswered(states: nat -> Engine, steps: nat -> Step, i: nat, j: JobId, c: CallerId) returns (n: nat)
    requires Path(states, steps) && Fair(states, steps) && ParkedOn(states(i), j, c) && Promised(states(i), j)
    ensures i <= n && c in states(n).answers
  {
    var d :| d in states(i).dispatches && states(i).dispatches[d] == j;
    assert Dispatched(states(i), d, j);
    hide Path, Inv, Attended, Taken, ParkedOn;
    n := RunIsAnswered(states, steps, i, d, j);
    ParkedUntilAnswered(states, steps, i, n, j, c);
    if c !in states(n).answers {
      assert SettledLater(steps, n, d);
      var m: nat :| n <= m && steps(m) == Settled(d);
      hide Fair;
      ParkedUntilAnswered(states, steps, n, m, j, c);
      PathKeeps(states, steps, m);
      if c !in states(m).answers { SettlesCaller(states(m), steps(m), states(m + 1), d, j, c); }
      AnsweredBy(states, steps, m, c);
      n := m + 1;
    }
  }

  lemma SettlesCaller(s: Engine, step: Step, s': Engine, d: CallerId, j: JobId, c: CallerId)
    requires Inv(s) && Taken(s, step, s') && step == Settled(d) && Dispatched(s, d, j) && ParkedOn(s, j, c)
    ensures c in s'.answers
  {
    hide Inv, Enabled, Next, Safe, Granted, Dispatched, ParkedOn;
    ParkedStep(s, step, j, c);
  }

  lemma AnsweredBy(states: nat -> Engine, steps: nat -> Step, m: nat, c: CallerId)
    requires Path(states, steps)
    ensures c in states(m).answers ==> c in states(m + 1).answers
  {
    if c in states(m).answers { AnsweredStays(states, steps, m, m + 1, c); }
  }

  // ---- a waiting job gets its turn ----

  /** `c` is parked on `j`, which waits in the line of `k`. */
  ghost predicate WaitsIn(s: Engine, k: SessionId, j: JobId, c: CallerId) {
    s.timers == [] && OfSession(s, j, k) && ParkedOn(s, j, c) && k in s.leases && j in s.leases[k].waiters
  }

  lemma WaiterIsInTail(s: Engine, k: SessionId, j: JobId)
    requires LeasesSound(s) && k in s.leases && j in s.leases[k].waiters
    ensures var line := LineOf(s, k); line != [] && Distinct(line) && j in line[1..]
  {
    LineIsDistinct(s, k);
    assert LineOf(s, k)[1..] == s.leases[k].waiters;
  }

  lemma ParkedWaitsOrIsPromised(s: Engine, k: SessionId, j: JobId, c: CallerId)
    requires Inv(s) && s.timers == [] && OfSession(s, j, k) && ParkedOn(s, j, c)
    ensures Promised(s, j) || WaitsIn(s, k, j, c)
  {
    assert Accounted(s, j);
  }

  lemma SoundLeases(s: Engine)
    requires Inv(s)
    ensures LeasesSound(s)
  {
  }

  lemma WaitsOn(s: Engine, step: Step, s': Engine, k: SessionId, j: JobId, c: CallerId)
    requires Inv(s) && Attended(s) && Taken(s, step, s') && WaitsIn(s, k, j, c)
    ensures c in s'.answers || (ParkedOn(s', j, c) && (Promised(s', j) || WaitsIn(s', k, j, c)))
  {
    TakenKeeps(s, step, s');
    hide Inv, Attended, Enabled, Safe, Next, Granted, ParkedOn, Promised;
    ParkedStep(s, step, j, c);
    StepTimers(s, step);
    if c !in s'.answers { ParkedWaitsOrIsPromised(s', k, j, c); }
  }

  lemma FewerAhead(s: Engine, step: Step, s': Engine, k: SessionId, j: JobId)
    requires Inv(s) && Attended(s) && Taken(s, step, s') && s.timers == [] && k in s.leases && j in s.leases[k].waiters
    requires LeasesSound(s') && k in s'.leases && j in s'.leases[k].waiters
    ensures Ahead(LineOf(s', k), j) <= Ahead(LineOf(s, k), j)
    ensures (step.BodyEnded? || step.Retried?) && s.live[step.caller].session == Some(k) ==>
              Ahead(LineOf(s', k), j) < Ahead(LineOf(s, k), j)
  {
    SoundLeases(s);
    WaiterIsInTail(s, k, j);
    WaiterIsInTail(s', k, j);
    hide Inv, Attended, Safe, Next, Granted, LeasesSound, LineOf;
    StepOvertakesNone(s, step, k);
    if (step.BodyEnded? || step.Retried?) && s.live[step.caller].session == Some(k) {
      EndedTurnLines(s, step, k);
      HeadLeaves(LineOf(s, k), j);
    }
  }

  /** One step: the caller is answered, its job dispatched, or it waits on with no more jobs ahead of it; fewer, if the
      turn of the session's body ends. */
  lemma WaitStep(s: Engine, step: Step, s': Engine, k: SessionId, j: JobId, c: CallerId)
    requires Inv(s) && Attended(s) && Taken(s, step, s') && WaitsIn(s, k, j, c)
    ensures c in s'.answers || (ParkedOn(s', j, c) && (Promised(s', j) || WaitsIn(s', k, j, c)))
    ensures WaitsIn(s', k, j, c) ==> Ahead(LineOf(s', k), j) <= Ahead(LineOf(s, k), j)
    ensures WaitsIn(s', k, j, c) && (step.BodyEnded? || step.Retried?) && s.live[step.caller].session == Some(k) ==>
              Ahead(LineOf(s', k), j) < Ahead(LineOf(s, k), j)
  {
    WaitsOn(s, step, s', k, j, c);
    TakenKeeps(s, step, s');
    SoundLeases(s');
    hide Inv, Attended, Safe, Next, Granted, LeasesSound, LineOf, ParkedOn, Promised;
    if WaitsIn(s', k, j, c) { FewerAhead(s, step, s', k, j); }
  }

  /** Up to `n`, or up to when the caller is answered or its job dispatched. */
  lemma {:induction false} WaitsUntil(states: nat -> Engine, steps: nat -> Step, i: nat, n: nat, k: SessionId, j: JobId, c: CallerId)
    returns (m: nat)
    requires Path(states, steps) && i <= n && WaitsIn(states(i), k, j, c)
    ensures i <= m <= n
    ensures c in states(m).answers || (ParkedOn(states(m), j, c) && Promised(states(m), j))
            || (m == n && WaitsIn(states(n), k, j, c) && Ahead(LineOf(states(n), k), j) <= Ahead(LineOf(states(i), k), j))
    decreases n - i
  {
    m := i;
    if i < n {
      hide Path, Inv, Attended, Taken, WaitsIn, LineOf, ParkedOn, Promised;
      PathKeeps(states, steps, i);
      WaitStep(states(i), steps(i), states(i + 1), k, j, c);
      m := i + 1;
      if c !in states(i + 1).answers && !Promised(states(i + 1), j) {
        m := WaitsUntil(states, steps, i + 1, n, k, j, c);
      }
    }
  }

  lemma SomebodyIsLive(s: Engine, k: SessionId, j: JobId, c: CallerId) returns (e: CallerId)
    requires Attended(s) && WaitsIn(s, k, j, c)
    ensures e in s.live && s.live[e].session == Some(k)
  {
    assert SessionLive(s, k);
    e :| e in s.live && s.live[e].session == Some(k);
  }

  lemma {:induction false} WaitingIsAnswered(states: nat -> Engine, steps: nat -> Step, i: nat, k: SessionId, j: JobId, c: CallerId)
    returns (n: nat)
    requires Path(states, steps) && Fair(states, steps) && WaitsIn(states(i), k, j, c)
    ensures i <= n && c in states(n).answers
    decreases Ahead(LineOf(states(i), k), j)
  {
    PathKeeps(states, steps, i);
    var e := SomebodyIsLive(states(i), k, j, c);
    assert TurnEndsLater(steps, i, e);
    var n0: nat :| i <= n0 && EndsTurn(steps(n0), e);
    hide Path, Fair, Inv, Attended, Taken, WaitsIn, LineOf, ParkedOn, Promised;
    var n1 := FirstEnd(states, steps, i, n0, e);
    n := WaitsUntil(states, steps, i, n1, k, j, c);
    if c !in states(n).answers {
      if Promised(states(n), j) && ParkedOn(states(n), j, c) {
        n := PromisedIsAnswered(states, steps, n, j, c);
      } else {
        PathKeeps(states, steps, n1);
        WaitStep(states(n1), steps(n1), states(n1 + 1), k, j, c);
        n := n1 + 1;
        if c !in states(n).answers {
          if Promised(states(n), j) {
            n := PromisedIsAnswered(states, steps, n, j, c);
          } else {
            n := WaitingIsAnswered(states, steps, n, k, j, c);
          }
        }
      }
    }
  }

  lemma ParkedHasSession(s: Engine, j: JobId, c: CallerId) returns (k: SessionId)
    requires Inv(s) && ParkedOn(s, j, c) && !Promised(s, j)
    ensures OfSession(s, j, k)
  {
    assert Accounted(s, j);
    k := s.jobs[j].session.value;
  }

  /** One step with a sweep armed: the caller is answered or stays parked; if the sweep fires, fewer are armed. */
  lemma SweepStep(s: Engine, step: Step, s': Engine, j: JobId, c: CallerId)
    requires Inv(s) && Taken(s, step, s') && ParkedOn(s, j, c)
    ensures c in s'.answers || ParkedOn(s', j, c)
    ensures step.Recovered? ==> |s'.timers| < |s.timers|
  {
    hide Inv, Enabled, Safe, Next, Granted, ParkedOn;
    ParkedStep(s, step, j, c);
    StepTimers(s, step);
  }

  lemma {:induction false} ParkedIsAnswered(states: nat -> Engine, steps: nat -> Step, i: nat, j: JobId, c: CallerId) returns (n: nat)
    requires Path(states, steps) && Fair(states, steps) && ParkedOn(states(i), j, c)
    ensures i <= n && c in states(n).answers
    decreases |states(i).timers|
  {
    PathKeeps(states, steps, i);
    if Promised(states(i), j) {
      n := PromisedIsAnswered(states, steps, i, j, c);
    } else if states(i).timers == [] {
      var k := ParkedHasSession(states(i), j, c);
      ParkedWaitsOrIsPromised(states(i), k, j, c);
      n := WaitingIsAnswered(states, steps, i, k, j, c);
    } else {
      assert SweptLater(steps, i);
      var n0: nat :| i <= n0 && steps(n0).Recovered?;
      hide Path, Fair, Inv, Attended, Taken, ParkedOn, Promised;
      n := n0;
      ParkedUntilAnswered(states, steps, i, n0, j, c);
      if c !in states(n0).answers {
        PathKeeps(states, steps, n0);
        SweepStep(states(n0), steps(n0), states(n0 + 1), j, c);
        n := n0 + 1;
        if c !in states(n).answers { n := ParkedIsAnswered(states, steps, n, j, c); }
      }
    }
  }

  lemma CallerIsSomewhere(s: Engine, c: CallerId)
    requires Inv(s) && c < s.nextCaller
    ensures c in s.answers || c in s.live || exists j :: ParkedOn(s, j, c)
  {
    if InPark(s, c) {
      var j :| ParkedOn(s, j, c);
    }
  }

  /** Whatever outside calls, cancels, heartbeats and status writes come in between, safely and without end: as long as
      bodies end, continuations run, armed sweeps fire and the engine gets the locks it asks for, every caller there has
      been is answered. */
  lemma EveryCallerIsServed(states: nat -> Engine, steps: nat -> Step, i: nat, c: CallerId) returns (n: nat)
    requires Path(states, steps) && Fair(states, steps) && c < states(i).nextCaller
    ensures i <= n && c in states(n).answers
  {
    n := i;
    PathKeeps(states, steps, i);
    CallerIsSomewhere(states(i), c);
    if c in states(i).live {
      assert TurnEndsLater(steps, i, c);
      var n0: nat :| i <= n0 && EndsTurn(steps(n0), c);
      hide Path, Fair, Inv, Attended, Taken;
      n := FirstEnd(states, steps, i, n0, c);
      n := n + 1;
    } else if c !in states(i).answers {
      var j :| ParkedOn(states(i), j, c);
      hide Path, Fair, Inv, Attended, Taken;
      n := ParkedIsAnswered(states, steps, i, j, c);
    }
  }
}
