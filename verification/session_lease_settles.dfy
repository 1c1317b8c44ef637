/**
 Every parked caller settles: while the lock is granted, the engine's own steps come to an end, and they end only when
 every call of `run` has been answered and no lease is left.
 */
module SessionLeaseSettles {
  import opened Options
  import opened SessionRunQueue
  import opened SessionLease
  import opened SessionLeaseProof
  import opened SessionLeaseExact
  import opened SessionLeaseRuns
  import opened SessionLeaseAttended

  /** A body returns or retries its release, a continuation runs, a sweep fires; whatever asks for the lock gets it. */
  ghost predicate OwnStep(s: Engine, step: Step) {
    && Enabled(s, step) && Safe(s, step) && Granted(s, step)
    && (step.BodyEnded? || step.Retried? || step.Settled? || step.Recovered?)
  }

  // ---- an own step descends ----

  /** The places of all lines. */
  function Places(leases: map<SessionId, Lease>): set<(SessionId, nat)> {
    set k, i | k in leases && 0 <= i < |Line(leases[k])| :: (k, i)
  }

  ghost predicate Descends(s: Engine, s': Engine) {
    || |s'.timers| < |s.timers|
    || (|s'.timers| == |s.timers| &&
          (|| Places(s'.leases) < Places(s.leases)
           || (Places(s'.leases) == Places(s.leases) &&
                 (|| s'.live.Keys < s.live.Keys
                  || (s'.live.Keys == s.live.Keys && s'.dispatches.Keys < s.dispatches.Keys)))))
  }

  lemma ShorterLine(leases: map<SessionId, Lease>, leases': map<SessionId, Lease>, k: SessionId)
    requires k in leases && 0 < |Line(leases[k])| && forall i :: i != k ==> (i in leases' <==> i in leases) && (i in leases ==> |Line(leases'[i])| == |Line(leases[i])|)
    requires k in leases' ==> |Line(leases'[k])| < |Line(leases[k])|
    ensures Places(leases') < Places(leases)
  {
    var last: nat := |Line(leases[k])| - 1;
    assert (k, last) in Places(leases) && (k, last) !in Places(leases');
  }

  lemma HandedLines(s: Engine, c: CallerId, out: Outcome, now: int)
    requires Exclusive(s) && c in s.live && s.live[c].session.Some?
    ensures Places(Handing(s, c, out, now).leases) < Places(s.leases)
  {
    var j, k := s.live[c].job, s.live[c].session.value;
    assert Holds(s, k, j);
    ReleaseServesTheHead(s.leases[k], j, now, SELF);
    var leases := Handing(s, c, out, now).leases;
    assert k in leases ==> Line(leases[k]) == Line(s.leases[k])[1..];
    assert forall i :: i != k ==> LeaseOf(leases, i) == LeaseOf(s.leases, i);
    hide Release, Line, Exclusive;
    assert 0 < |Line(s.leases[k])| by { LineOfOwned(s.leases[k]); }
    ShorterLine(s.leases, leases, k);
  }

  lemma LineOfOwned(rec: Lease)
    requires rec.owner.Some?
    ensures |Line(rec)| == 1 + |rec.waiters|
  {
  }

  lemma DispatchKeepsPlaces(s: Engine, j: JobId, now: int, denied: set<JobId>)
    requires Dispatchable(s, j)
    ensures Places(Dispatch(s, j, now, denied).leases) == Places(s.leases) && Dispatch(s, j, now, denied).timers == s.timers
  {
    DispatchShape(s, j, now, denied);
    var s' := Dispatch(s, j, now, denied);
    assert s'.leases.Keys == s.leases.Keys;
    assert forall k :: k in s.leases ==> s'.leases[k].owner == s.leases[k].owner && s'.leases[k].waiters == s.leases[k].waiters;
    hide Dispatch, Dispatchable;
  }

  lemma ReleaseDescends(s: Engine, c: CallerId, out: Outcome, n: nat, now: int, denied: set<JobId>)
    requires Exclusive(s) && c in s.live && s.live[c].session.Some?
    ensures var s' := ReleaseAttempt(s, c, out, n, now, true, denied); s'.timers == s.timers && Places(s'.leases) < Places(s.leases)
  {
    var s1, k, next := Handing(s, c, out, now), s.live[c].session.value, HandedTo(s, c, now, true);
    HandedLines(s, c, out, now);
    HandingShape(s, c, out, now);
    GrantedReleaseShape(s, c, out, n, now, denied);
    assert s1.timers == s.timers;
    hide Exclusive, Handing, HandedTo, ReleaseAttempt, Dispatchable;
    if next != {} {
      var p :| next == {p} && Dispatchable(s1, p);
      assert ReleaseAttempt(s, c, out, n, now, true, denied) == Dispatch(s1, p, now, denied) by {
        var q :| next == {q} && ReleaseAttempt(s, c, out, n, now, true, denied) == Dispatch(s1, q, now, denied);
        assert q in {p};
      }
      hide Dispatch;
      DispatchKeepsPlaces(s1, p, now, denied);
    }
  }

  lemma {:induction false} DispatchAllTimers(s: Engine, found: seq<JobId>, now: int, denied: set<JobId>)
    ensures DispatchAll(s, found, now, denied).timers == s.timers
    decreases |found|
  {
    if found != [] {
      var prefix, j := found[..|found| - 1], found[|found| - 1];
      DispatchAllTimers(s, prefix, now, denied);
      var s1 := DispatchAll(s, prefix, now, denied);
      RunKeepsTimers(Registered(s1, j), j, s1.nextCaller, now, denied);
    }
  }

  lemma SweepDescends(s: Engine, i: nat, order: seq<SessionId>, now: int, denied: set<JobId>)
    requires i < |s.timers|
    ensures |RecoveryFires(s, i, order, |order|, now, denied).timers| < |s.timers|
  {
    var (leases, found) := Heal(s.leases, s.jobs, order[..|order|], now);
    DispatchAllTimers(s.(timers := s.timers[..i] + s.timers[i + 1..], leases := leases), found, now, denied);
  }

  lemma SettleDescends(s: Engine, c: CallerId)
    requires c in s.dispatches && c in s.answers
    ensures Descends(s, Settle(s, c))
  {
    assert Settle(s, c).dispatches.Keys < s.dispatches.Keys by { assert c in s.dispatches.Keys; }
  }

  lemma OwnStepDescends(s: Engine, step: Step)
    requires Inv(s) && OwnStep(s, step)
    ensures Descends(s, Next(s, step))
  {
    match step
    case BodyEnded(c, out, now, _, denied) =>
      if s.live[c].session.Some? {
        Unwinding(s, c);
        hide Inv, ReleaseAttempt, Safe, DispatchedBy;
        ReleaseDescends(s.(running := s.running - {s.live[c].job}), c, out, 0, now, denied);
      } else {
        assert Next(s, step).live.Keys < s.live.Keys by { assert c in s.live.Keys; }
      }
    case Retried(c, now, _, denied) =>
      assert Exclusive(s);
      hide Inv, ReleaseAttempt, Safe, DispatchedBy;
      ReleaseDescends(s, c, s.live[c].phase.outcome, s.live[c].phase.attempts, now, denied);
    case Settled(c) => SettleDescends(s, c);
    case Recovered(i, order, healed, now, denied) => SweepDescends(s, i, order, now, denied);
    case _ =>
  }

  lemma Unwinding(s: Engine, c: CallerId)
    requires Inv(s) && c in s.live
    ensures Exclusive(s.(running := s.running - {s.live[c].job}))
  {
    var s1 := s.(running := s.running - {s.live[c].job});
    forall j | j in s1.running ensures HasBody(s1, j) { assert HasBody(s, j); }
  }

  // ---- own steps run out only when everybody is answered ----

  ghost predicate AllAnswered(s: Engine) {
    s.parked == map[] && s.live == map[] && s.leases == map[] && s.timers == [] && forall c: CallerId :: c < s.nextCaller ==> c in s.answers
  }

  lemma {:induction false} InSomeOrder(sessions: set<SessionId>) returns (order: seq<SessionId>)
    ensures (forall k :: k in order <==> k in sessions) && forall i, j :: 0 <= i < j < |order| ==> order[i] != order[j]
  {
    order := [];
    if sessions != {} {
      var k :| k in sessions;
      order := InSomeOrder(sessions - {k});
      assert sessions == sessions - {k} + {k};
      order := order + [k];
    }
  }

  lemma NothingLeft(s: Engine)
    requires Inv(s) && Attended(s) && s.live == map[] && s.timers == [] && s.dispatches == map[]
    ensures AllAnswered(s)
  {
    assert forall k :: k in s.leases ==> SessionLive(s, k);
    assert s.leases == map[];
    assert forall j :: j in s.parked ==> Accounted(s, j);
    assert s.parked == map[];
    assert forall c: CallerId :: !InPark(s, c);
  }

  lemma OwnStepIsPossible(s: Engine)
    requires Inv(s) && Attended(s)
    ensures AllAnswered(s) || exists step :: OwnStep(s, step)
  {
    if s.live != map[] {
      var c :| c in s.live;
      var step := if s.live[c].phase.Executing? then BodyEnded(c, Threw, 0, true, {}) else Retried(c, 0, true, {});
      assert OwnStep(s, step);
    } else if s.timers != [] {
      var order := InSomeOrder(s.leases.Keys);
      var step := Recovered(0, order, |order|, 0, {});
      assert OwnStep(s, step);
    } else if s.dispatches != map[] {
      var c :| c in s.dispatches;
      assert OwnStep(s, Settled(c));
    } else {
      NothingLeft(s);
    }
  }

  /** The engine takes its own steps for as long as it can. */
  ghost predicate Proceeds(s: Engine, step: Step, s': Engine) {
    if exists own :: OwnStep(s, own) then OwnStep(s, step) && s' == Next(s, step) else s' == s
  }

  /** In whatever order the engine takes its own steps, as long as what asks for the lock gets it, it reaches a state
      in which every caller there has been is answered, nobody is parked and no lease is left. */
  lemma {:induction false} EveryCallerIsAnswered(states: nat -> Engine, steps: nat -> Step, m: nat) returns (n: nat)
    requires Inv(states(m)) && Attended(states(m)) && forall i: nat :: m <= i ==> Proceeds(states(i), steps(i), states(i + 1))
    ensures m <= n && AllAnswered(states(n))
    decreases |states(m).timers|, Places(states(m).leases), states(m).live.Keys, states(m).dispatches.Keys
  {
    n := m;
    var s, step := states(m), steps(m);
    if !AllAnswered(s) {
      OwnStepIsPossible(s);
      assert Proceeds(s, step, states(m + 1));
      assert states(m + 1) == Next(s, step) && OwnStep(s, step);
      OwnStepDescends(s, step);
      StepKeeps(s, step);
      AttendanceIsExact(s, step);
      hide Inv, Attended, AllAnswered, Next, Safe, Enabled, DispatchedBy, Proceeds;
      n := EveryCallerIsAnswered(states, steps, m + 1);
    }
  }

  /** So after the sweep at boot, whatever leases were persisted: as long as every step of a safe run, that sweep
      included, is clear, either every caller is answered or the engine can take such a step. */
  lemma ParkedCallersMakeProgress(states: seq<Engine>, steps: seq<Step>, n: nat)
    requires IsRun(states, steps) && 1 <= n < |states| && ClearUpTo(states, steps, n)
    ensures Inv(states[n]) && Attended(states[n]) && (AllAnswered(states[n]) || exists step :: OwnStep(states[n], step))
  {
    RunKeepsInv(states, steps, n);
    AttendedThroughout(states, steps, n);
    assert Attended(states[n]);
    hide Inv, Attended, IsRun, Clear;
    OwnStepIsPossible(states[n]);
  }
}
