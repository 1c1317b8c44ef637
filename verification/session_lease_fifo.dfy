/**
 Runs in which releases and drained jobs get the lock: turn bodies of a session start in the order in which their
 jobs joined its line, once per enqueue, and the line drains.
 */
module SessionLeaseFifo {
  import opened Options
  import opened SessionRunQueue
  import opened SessionLease
  import opened SessionLeaseProof
  import opened SessionLeaseExact
  import opened SessionLeaseRuns
  import opened SessionLeaseAttended

  function Waiters(s: Engine, k: SessionId): seq<JobId> {
    LeaseOf(s.leases, k).waiters
  }

  function LineOf(s: Engine, k: SessionId): seq<JobId> {
    Line(LeaseOf(s.leases, k))
  }

  /** No lock attempt has failed: no sweep is armed, no release is being retried, every lease is attended. */
  ghost predicate Smooth(s: Engine) {
    && Inv(s) && s.timers == [] && Attended(s)
    && AllExecuting(s)
  }

  ghost predicate IsNewBody(s: Engine, s': Engine, k: SessionId, c: CallerId) {
    c !in s.live && c in s'.live && s'.live[c].session == Some(k)
  }

  // ---- observing a run ----

  /** `joined`: the jobs that entered the line of the session, those cancelled while waiting struck out.
      `started`: the jobs whose bodies have started, in order. */
  datatype Trace = Trace(joined: seq<JobId>, started: seq<JobId>)

  function StrikeOut(jobs: seq<JobId>, j: JobId): seq<JobId> {
    if jobs == [] then []
    else if jobs[|jobs| - 1] == j then jobs[..|jobs| - 1]
    else StrikeOut(jobs[..|jobs| - 1], j) + [jobs[|jobs| - 1]]
  }

  ghost function Observe(t: Trace, s: Engine, step: Step, s': Engine, k: SessionId): Trace {
    Trace(
      if step.Triggered? && step.job !in LineOf(s, k) && step.job in LineOf(s', k) then t.joined + [step.job]
      else if step.Cancelling? && step.job in LineOf(s, k) && step.job !in LineOf(s', k) then StrikeOut(t.joined, step.job)
      else t.joined,
      if exists c :: IsNewBody(s, s', k, c) then var c :| IsNewBody(s, s', k, c); t.started + [s'.live[c].job] else t.started)
  }

  /** At the start, the whole line has joined and its head has started. */
  function InitialTrace(s: Engine, k: SessionId): Trace {
    var line := LineOf(s, k);
    Trace(line, if line == [] then [] else [line[0]])
  }

  ghost function TraceOf(states: seq<Engine>, steps: seq<Step>, n: nat, k: SessionId): Trace
    requires n < |states| && n <= |steps|
  {
    if n == 0 then InitialTrace(states[0], k)
    else Observe(TraceOf(states, steps, n - 1, k), states[n - 1], steps[n - 1], states[n], k)
  }

  // ---- what one step does to one session ----

  ghost predicate Quiet(s: Engine, s': Engine, k: SessionId) {
    LineOf(s', k) == LineOf(s, k) && forall c :: !IsNewBody(s, s', k, c)
  }

  /** `j` starts at once in an idle session. */
  ghost predicate StartsIdle(s: Engine, s': Engine, k: SessionId, j: JobId) {
    LineOf(s, k) == [] && LineOf(s', k) == [j] && (exists c :: IsNewBody(s, s', k, c) && s'.live[c].job == j)
  }

  ghost predicate JoinsBehind(s: Engine, s': Engine, k: SessionId, j: JobId) {
    LineOf(s, k) != [] && j !in LineOf(s, k) && LineOf(s', k) == LineOf(s, k) + [j] && forall c :: !IsNewBody(s, s', k, c)
  }

  /** The head leaves; the next in line, if any, starts. */
  ghost predicate HandsOver(s: Engine, s': Engine, k: SessionId) {
    && LineOf(s, k) != [] && LineOf(s', k) == LineOf(s, k)[1..]
    && (if LineOf(s', k) == [] then forall c :: !IsNewBody(s, s', k, c)
        else exists c :: IsNewBody(s, s', k, c) && s'.live[c].job == LineOf(s', k)[0])
  }

  ghost predicate Leaves(s: Engine, s': Engine, k: SessionId, j: JobId) {
    && LineOf(s, k) != [] && j in LineOf(s, k)[1..] && LineOf(s', k) == [LineOf(s, k)[0]] + Without(LineOf(s, k)[1..], j)
    && forall c :: !IsNewBody(s, s', k, c)
  }

  lemma SmoothOwnerIsLive(s: Engine, k: SessionId, j: JobId, now: int)
    requires Smooth(s) && k in s.leases && OfSession(s, j, k) && TriggerSafe(s, j, now) && j !in s.running
    ensures s.leases[k].owner.Some? && s.leases[k].owner != Some(j) && !IsStale(s.leases[k], now)
  {
    assert SessionLive(s, k);
    var c :| c in s.live && s.live[c].session == Some(k);
    assert Holds(s, k, s.live[c].job);
  }

  /** While lock attempts succeed and heartbeats arrive in time, the only trigger that is not safe is one of the very
      job whose body is still unwinding after it was cancelled or ended. */
  lemma OnlyUnwindingJobsAreUnsafe(s: Engine, j: JobId, k: SessionId, now: int)
    requires Smooth(s) && OfSession(s, j, k) && (k in s.leases ==> !IsStale(s.leases[k], now))
    ensures TriggerSafe(s, j, now) <==> j in s.running || LeaseOf(s.leases, k).owner != Some(j)
  {
    if k in s.leases {
      assert SessionLive(s, k);
      var c :| c in s.live && s.live[c].session == Some(k);
      assert Holds(s, k, s.live[c].job);
    }
  }

  ghost predicate AllExecuting(s: Engine) {
    forall c :: c in s.live ==> s.live[c].phase.Executing?
  }

  lemma QueuedTriggerEffect(s: Engine, j: JobId, i: SessionId, now: int, k: SessionId)
    requires OfSession(s, j, i) && i in s.leases && j !in s.running && s.leases[i].owner.Some? && s.leases[i].owner != Some(j)
    requires !IsStale(s.leases[i], now)
    ensures var s' := Trigger(s, j, now, {});
      (Quiet(s, s', k) || JoinsBehind(s, s', k, j)) && s'.timers == s.timers && s'.live == s.live
  {
    var s' := Trigger(s, j, now, {});
    var cur := s.leases[i];
    assert s'.leases == s.leases[i := cur.(waiters := Enqueue(cur.waiters, j))];
    assert Line(cur) + [j] == [cur.owner.value] + (cur.waiters + [j]);
    assert j in Line(cur) <==> j in cur.waiters;
  }

  lemma GrantedTriggerEffect(s: Engine, j: JobId, i: SessionId, now: int, k: SessionId)
    requires OfSession(s, j, i) && i !in s.leases && j !in s.running && s.nextCaller !in s.live && AllExecuting(s)
    ensures var s' := Trigger(s, j, now, {});
      (Quiet(s, s', k) || StartsIdle(s, s', k, j)) && s'.timers == s.timers && AllExecuting(s')
  {
    var s' := Trigger(s, j, now, {});
    var c := s.nextCaller;
    assert s'.leases == s.leases[i := Lease(Some(j), Some(SELF), now, now, [])];
    assert s'.live == s.live[c := Activation(j, Some(i), Executing)];
    assert IsNewBody(s, s', i, c);
  }

  lemma UnclaimedTriggerEffect(s: Engine, j: JobId, now: int, denied: set<JobId>, k: SessionId)
    requires (j !in s.jobs || j in s.running || s.jobs[j].session.None? || j in denied) && AllExecuting(s)
    ensures var s' := Trigger(s, j, now, denied); Quiet(s, s', k) && s'.timers == s.timers && AllExecuting(s')
  {
  }

  /** A trigger that is granted the lock and dispatches nobody does not depend on what else is denied. */
  lemma GrantedTrigger(s: Engine, j: JobId, now: int, denied: set<JobId>)
    requires j !in denied && PromotedBy(s, j, now, denied) == {}
    ensures Trigger(s, j, now, denied) == Trigger(s, j, now, {})
  {
    hide Acquire, SettleParked;
  }

  lemma TriggerEffect(s: Engine, j: JobId, now: int, denied: set<JobId>, k: SessionId)
    requires Smooth(s) && (TriggerSafe(s, j, now) || j in denied)
    ensures var s' := Trigger(s, j, now, denied);
      && (Quiet(s, s', k) || StartsIdle(s, s', k, j) || JoinsBehind(s, s', k, j)) && s'.timers == [] && AllExecuting(s')
  {
    assert s.nextCaller !in s.live;
    TriggerKeepsAttended(s, j, now, denied);
    if j !in denied { GrantedTrigger(s, j, now, denied); }
    if j !in s.jobs || j in s.running || s.jobs[j].session.None? || j in denied {
      hide Inv, Attended, TriggerSafe;
      UnclaimedTriggerEffect(s, j, now, denied, k);
    } else if s.jobs[j].session.value in s.leases {
      SmoothOwnerIsLive(s, s.jobs[j].session.value, j, now);
      hide Inv, Attended, TriggerSafe;
      QueuedTriggerEffect(s, j, s.jobs[j].session.value, now, k);
    } else {
      hide Inv, Attended, TriggerSafe;
      GrantedTriggerEffect(s, j, s.jobs[j].session.value, now, k);
    }
  }

  lemma HandOverEffect(s: Engine, c: CallerId, out: Outcome, now: int, denied: set<JobId>, k: SessionId)
    requires Smooth(s) && c in s.live && HandedTo(s, c, now, true) !! denied
    ensures var s' := BodyEnds(s, c, out, now, true, denied);
      && (if s.live[c].session == Some(k) then HandsOver(s, s', k) else Quiet(s, s', k)) && s'.timers == [] && AllExecuting(s')
  {
    if s.live[c].session.Some? {
      var j, i := s.live[c].job, s.live[c].session.value;
      assert Holds(s, i, j);
      if s.leases[i].waiters != [] {
        var p := s.leases[i].waiters[0];
        assert p in s.leases[i].waiters && OfSession(s, p, i) && p != j;
        WaiterIsNotRunning(s, i, p);
      }
      assert s.nextCaller !in s.live;
      hide Inv, Attended;
      OwnedHandOverEffect(s, c, out, now, denied, i, k);
    }
  }

  lemma OwnedHandOverEffect(s: Engine, c: CallerId, out: Outcome, now: int, denied: set<JobId>, i: SessionId, k: SessionId)
    requires c in s.live && s.live[c].session == Some(i) && Holds(s, i, s.live[c].job) && AllExecuting(s) && s.nextCaller !in s.live
    requires s.leases[i].waiters != [] ==> var p := s.leases[i].waiters[0]; OfSession(s, p, i) && p !in s.running && p != s.live[c].job
    requires HandedTo(s, c, now, true) !! denied
    ensures var s' := BodyEnds(s, c, out, now, true, denied);
      && (if i == k then HandsOver(s, s', k) else Quiet(s, s', k)) && s'.timers == s.timers && AllExecuting(s')
  {
    var s' := BodyEnds(s, c, out, now, true, denied);
    var j := s.live[c].job;
    var cur := s.leases[i];
    var (rec, next) := Release(cur, j, now, SELF);
    assert Line(cur)[1..] == cur.waiters && LineOf(s, i) == Line(cur);
    if next.Some? {
      var s1 := Answer(s.(running := s.running - {j}, leases := PutLease(s.leases, i, rec), live := s.live - {c}), c, out);
      HandOverDispatches(s, s1, s', i, next.value, rec, now, denied);
      assert cur.waiters == [next.value] + cur.waiters[1..];
    }
  }

  lemma HandOverDispatches(s: Engine, s1: Engine, s': Engine, i: SessionId, p: JobId, rec: Lease, now: int, denied: set<JobId>)
    requires s1.leases == s.leases[i := rec] && s1.live.Keys <= s.live.Keys && rec.owner == Some(p) && rec.token == None
    requires forall d :: d in s1.live ==> s1.live[d] == s.live[d]
    requires OfSession(s1, p, i) && p !in s1.running && s' == Dispatch(s1, p, now, denied) && p !in denied
    requires s1.nextCaller !in s.live && forall d :: d in s.live ==> s.live[d].phase.Executing?
    ensures s'.leases == s.leases[i := rec.(token := Some(SELF), heartbeatAt := now)] && s'.timers == s1.timers
    ensures forall d :: d in s'.live ==> s'.live[d].phase.Executing?
    ensures IsNewBody(s, s', i, s1.nextCaller) && s'.live[s1.nextCaller].job == p
    ensures forall k, d :: k != i ==> !IsNewBody(s, s', k, d)
  {
    DispatchShape(s1, p, now, denied);
  }

  ghost predicate CancelsQueued(s: Engine, j: JobId, i: SessionId, lockOk: bool) {
    j !in s.running && OfSession(s, j, i) && i in s.leases && j in s.leases[i].waiters && lockOk
  }

  lemma CancelLeases(s: Engine, j: JobId, lockOk: bool)
    ensures var s' := Cancel(s, j, lockOk);
      && s'.timers == s.timers && s'.live == s.live
      && (forall i :: CancelsQueued(s, j, i, lockOk) ==> s'.leases == PutLease(s.leases, i, Dequeue(s.leases[i], j)))
      && ((forall i :: !CancelsQueued(s, j, i, lockOk)) ==> s'.leases == s.leases)
  {
    if !(j in s.running) && j in s.jobs && s.jobs[j].session.Some? && s.jobs[j].session.value in s.leases
       && j in s.leases[s.jobs[j].session.value].waiters && lockOk {
      assert CancelsQueued(s, j, s.jobs[j].session.value, lockOk);
    }
  }

  lemma CancelEffect(s: Engine, j: JobId, lockOk: bool, k: SessionId)
    requires LeasesSound(s)
    ensures var s' := Cancel(s, j, lockOk);
      && (Quiet(s, s', k) || Leaves(s, s', k, j)) && s'.timers == s.timers && s'.live == s.live
  {
    CancelLeases(s, j, lockOk);
    var s' := Cancel(s, j, lockOk);
    hide Cancel;
    if CancelsQueued(s, j, k, lockOk) {
      var cur := s.leases[k];
      assert Line(cur)[1..] == cur.waiters && LineOf(s, k) == Line(cur);
      assert s'.leases[k] == cur.(waiters := Without(cur.waiters, j));
    } else if i :| CancelsQueued(s, j, i, lockOk) {
      assert LeaseOf(s'.leases, k) == LeaseOf(s.leases, k);
    }
  }

  // ---- first come, first served ----

  lemma {:induction false} StrikeOutOfTheLine(before: seq<JobId>, line: seq<JobId>, j: JobId)
    requires Distinct(line) && j in line
    ensures StrikeOut(before + line, j) == before + Without(line, j)
    decreases |line|
  {
    var init, last := line[..|line| - 1], line[|line| - 1];
    assert line == init + [last];
    LastIsNew(init, last);
    assert (before + line)[..|before + line| - 1] == before + init;
    WithoutOfSnoc(init, last, j);
    if last == j {
      WithoutMembers(init, j);
    } else {
      StrikeOutOfTheLine(before, init, j);
      assert before + Without(init, j) + [last] == before + (Without(init, j) + [last]);
    }
  }

  lemma {:induction false} WithoutOfSnoc(jobs: seq<JobId>, last: JobId, j: JobId)
    ensures Without(jobs + [last], j) == Without(jobs, j) + (if last == j then [] else [last])
  {
    if jobs == [] {
      assert jobs + [last] == [last] && [last][1..] == [];
    } else {
      assert (jobs + [last])[0] == jobs[0] && (jobs + [last])[1..] == jobs[1..] + [last];
      WithoutOfSnoc(jobs[1..], last, j);
    }
  }

  /** Bodies started so far, then the line behind the one executing, make up the jobs that joined. */
  ghost predicate InOrder(t: Trace, s: Engine, k: SessionId) {
    var line := LineOf(s, k);
    if line == [] then t.joined == t.started
    else t.started != [] && t.started[|t.started| - 1] == line[0] && t.joined == t.started + line[1..]
  }

  ghost predicate StepEffect(s: Engine, step: Step, s': Engine, k: SessionId) {
    match step
    case Triggered(j, _, _) => Quiet(s, s', k) || StartsIdle(s, s', k, j) || JoinsBehind(s, s', k, j)
    case Cancelling(j, _) => Quiet(s, s', k) || Leaves(s, s', k, j)
    case _ => Quiet(s, s', k) || HandsOver(s, s', k)
  }

  lemma StartIsObserved(t: Trace, s: Engine, step: Step, s': Engine, k: SessionId, c: CallerId)
    requires OneBody(s') && IsNewBody(s, s', k, c)
    ensures Observe(t, s, step, s', k).started == t.started + [s'.live[c].job]
  {
    assert forall d :: IsNewBody(s, s', k, d) ==> d == c;
  }

  lemma TriggerKeepsOrder(t: Trace, s: Engine, step: Step, s': Engine, k: SessionId)
    requires InOrder(t, s, k) && OneBody(s') && step.Triggered? && StepEffect(s, step, s', k)
    ensures InOrder(Observe(t, s, step, s', k), s', k)
  {
    var line := LineOf(s, k);
    if StartsIdle(s, s', k, step.job) {
      var c :| IsNewBody(s, s', k, c) && s'.live[c].job == step.job;
      StartIsObserved(t, s, step, s', k, c);
    } else if JoinsBehind(s, s', k, step.job) {
      assert (line + [step.job])[1..] == line[1..] + [step.job];
    }
  }

  lemma CancelKeepsOrder(t: Trace, s: Engine, step: Step, s': Engine, k: SessionId)
    requires InOrder(t, s, k) && step.Cancelling? && StepEffect(s, step, s', k) && Distinct(LineOf(s, k))
    ensures InOrder(Observe(t, s, step, s', k), s', k)
  {
    var line, line' := LineOf(s, k), LineOf(s', k);
    var t' := Observe(t, s, step, s', k);
    assert (forall c :: !IsNewBody(s, s', k, c)) && t'.started == t.started;
    if Leaves(s, s', k, step.job) {
      var rest := line[1..];
      WithoutMembers(rest, step.job);
      hide LineOf, IsNewBody;
      assert line == [line[0]] + rest && step.job in line && line' == [line[0]] + Without(rest, step.job);
      assert line'[1..] == Without(rest, step.job) && line[0] !in rest;
      assert t'.joined == StrikeOut(t.joined, step.job);
      StrikeOutOfTheLine(t.started, rest, step.job);
    }
  }

  /** The next in line moves from the queue to the started ones. */
  lemma NextStarts(joined: seq<JobId>, started: seq<JobId>, line: seq<JobId>)
    requires |line| > 1 && joined == started + line[1..]
    ensures joined == (started + [line[1]]) + line[1..][1..]
  {
    assert line[1..] == [line[1]] + line[1..][1..];
  }

  lemma HandOverKeepsOrder(t: Trace, s: Engine, step: Step, s': Engine, k: SessionId)
    requires InOrder(t, s, k) && OneBody(s') && !step.Triggered? && !step.Cancelling? && StepEffect(s, step, s', k)
    ensures InOrder(Observe(t, s, step, s', k), s', k)
  {
    var line := LineOf(s, k);
    var t' := Observe(t, s, step, s', k);
    assert t'.joined == t.joined;
    if Quiet(s, s', k) {
      assert t'.started == t.started;
    } else if line[1..] == [] {
      assert HandsOver(s, s', k) && t'.started == t.started;
    } else {
      assert HandsOver(s, s', k);
      var c :| IsNewBody(s, s', k, c) && s'.live[c].job == LineOf(s', k)[0];
      StartIsObserved(t, s, step, s', k, c);
      hide OneBody, Observe, IsNewBody, LineOf;
      NextStarts(t.joined, t.started, line);
    }
  }

  lemma BeatEffect(s: Engine, c: CallerId, now: int, k: SessionId)
    requires c in s.live && s.live[c].session.Some? && Holds(s, s.live[c].session.value, s.live[c].job)
    ensures var s' := Beat(s, c, now); Quiet(s, s', k) && s'.timers == s.timers && s'.live == s.live
  {
  }

  lemma SmoothMeans(s: Engine)
    requires Smooth(s)
    ensures LeasesSound(s) && s.timers == [] && AllExecuting(s)
  {
    hide AllExecuting;
  }

  lemma SmoothBodyHolds(s: Engine, c: CallerId)
    requires Smooth(s) && c in s.live && s.live[c].session.Some?
    ensures Holds(s, s.live[c].session.value, s.live[c].job)
  {
  }

  lemma NothingIsRetried(s: Engine, c: CallerId)
    requires Smooth(s) && c in s.live
    ensures !s.live[c].phase.Releasing?
  {
  }

  lemma SameBodies(s: Engine, s': Engine)
    requires AllExecuting(s) && s'.live == s.live
    ensures AllExecuting(s')
  {
  }

  lemma WriteEffect(s: Engine, c: CallerId, status: Status, drop: bool, k: SessionId)
    requires c in s.live && s.live[c].phase.Executing? && AllExecuting(s)
    ensures var s' := BodyWrites(s, c, status, drop); Quiet(s, s', k) && s'.timers == s.timers && AllExecuting(s')
  {
  }

  lemma SettleEffect(s: Engine, c: CallerId, k: SessionId)
    requires c in s.dispatches && c in s.answers && AllExecuting(s)
    ensures var s' := Settle(s, c); Quiet(s, s', k) && s'.timers == s.timers && AllExecuting(s')
  {
  }

  lemma NothingToSweep(s: Engine, order: seq<SessionId>, healed: nat, now: int, denied: set<JobId>, k: SessionId)
    requires Smooth(s) && Booted(s) && SweepOrder(s, order) && healed <= |order|
    ensures var s' := RecoverSessionRuns(s, order, healed, now, denied); Quiet(s, s', k) && s'.timers == s.timers && AllExecuting(s')
  {
    NoLeaseAtSmoothBoot(s);
    SweptHaveLeases(s, order);
    assert order == [] && s.(leases := s.leases) == s;
  }

  lemma SweptHaveLeases(s: Engine, order: seq<SessionId>)
    requires SweepOrder(s, order)
    ensures order != [] ==> s.leases != map[]
  {
    if order != [] { assert order[0] in s.leases; }
  }

  lemma NoLeaseAtSmoothBoot(s: Engine)
    requires Smooth(s) && Booted(s)
    ensures s.leases == map[]
  {
    assert forall k :: k in s.leases ==> SessionLive(s, k);
  }

  lemma SmoothStepEffect(s: Engine, step: Step, k: SessionId)
    requires Smooth(s) && Enabled(s, step) && Safe(s, step) && Granted(s, step)
    ensures StepEffect(s, step, Next(s, step), k) && Next(s, step).timers == [] && AllExecuting(Next(s, step))
  {
    hide TriggerSafe, Trigger, BodyEnds, Cancel, Beat, Settle, BodyWrites, Quiet, StartsIdle, JoinsBehind, HandsOver, Leaves, AllExecuting, HandedTo, Smooth;
    assert LeasesSound(s) && s.timers == [] && AllExecuting(s) by { SmoothMeans(s); }
    match step
    case BootSwept(order, healed, now, denied) => NothingToSweep(s, order, healed, now, denied, k);
    case Triggered(j, now, denied) => TriggerEffect(s, j, now, denied, k);
    case BodyEnded(c, out, now, _, denied) => HandOverEffect(s, c, out, now, denied, k);
    case Cancelling(j, lockOk) =>
      CancelEffect(s, j, lockOk, k);
      SameBodies(s, Cancel(s, j, lockOk));
    case Beating(c, now) =>
      SmoothBodyHolds(s, c);
      BeatEffect(s, c, now, k);
      SameBodies(s, Beat(s, c, now));
    case BodyWrote(c, status, drop) => WriteEffect(s, c, status, drop, k);
    case Settled(c) => SettleEffect(s, c, k);
    case Retried(c, _, _, _) => NothingIsRetried(s, c);
    case Recovered(_, _, _, _, _) =>
  }

  lemma SmoothStepKeeps(t: Trace, s: Engine, step: Step, k: SessionId)
    requires Smooth(s) && Enabled(s, step) && Safe(s, step) && Granted(s, step) && InOrder(t, s, k)
    ensures Smooth(Next(s, step)) && InOrder(Observe(t, s, step, Next(s, step), k), Next(s, step), k)
  {
    var s' := Next(s, step);
    StepKeeps(s, step);
    AttendanceIsExact(s, step);
    SmoothStepEffect(s, step, k);
    LineIsDistinct(s, k);
    assert OneBody(s');
    hide Inv, Attended, Next, InOrder, Observe, StepEffect, OneBody;
    if step.Triggered? {
      TriggerKeepsOrder(t, s, step, s', k);
    } else if step.Cancelling? {
      CancelKeepsOrder(t, s, step, s', k);
    } else {
      HandOverKeepsOrder(t, s, step, s', k);
    }
  }

  lemma LineIsDistinct(s: Engine, k: SessionId)
    requires LeasesSound(s)
    ensures Distinct(LineOf(s, k))
  {
    if k in s.leases {
      assert Line(s.leases[k])[1..] == s.leases[k].waiters;
    }
  }

  ghost predicate IsSmoothPath(states: seq<Engine>, steps: seq<Step>) {
    && IsPath(states, steps) && Smooth(states[0])
    && forall i :: 0 <= i < |steps| ==> Granted(states[i], steps[i])
  }

  lemma {:induction false} SmoothPathKeeps(states: seq<Engine>, steps: seq<Step>, n: nat, k: SessionId)
    requires IsSmoothPath(states, steps) && n < |states|
    ensures Smooth(states[n]) && InOrder(TraceOf(states, steps, n, k), states[n], k)
  {
    if n > 0 {
      hide Smooth, InOrder, Observe, Next, Safe, DispatchedBy;
      SmoothPathKeeps(states, steps, n - 1, k);
      SmoothStepKeeps(TraceOf(states, steps, n - 1, k), states[n - 1], steps[n - 1], k);
    } else {
      var line := LineOf(states[0], k);
      assert line != [] ==> line == [line[0]] + line[1..];
    }
  }

  /** From any smooth state, while releases and drained jobs get the lock: the bodies of a session start in the order
      in which their jobs joined the line, one body per joining; a job cancelled while waiting is the only one passed
      over. What has not started yet is exactly the queue behind the owner. */
  lemma FirstComeFirstServed(states: seq<Engine>, steps: seq<Step>, n: nat, k: SessionId)
    requires IsSmoothPath(states, steps) && n < |states|
    ensures var t := TraceOf(states, steps, n, k); t.joined == t.started + Waiters(states[n], k)
  {
    SmoothPathKeeps(states, steps, n, k);
    var line := LineOf(states[n], k);
    assert Inv(states[n]);
    if k in states[n].leases {
      assert line[1..] == Waiters(states[n], k);
    } else {
      assert line == [] && Waiters(states[n], k) == [];
    }
  }

  // ---- smooth from the boot on ----

  lemma {:induction false} DispatchAllExecutes(s: Engine, found: seq<JobId>, now: int, denied: set<JobId>)
    requires AllExecuting(s) && Distinct(found) && (forall j :: j in found ==> OwnedHere(s, j)) && forall c :: c in s.live ==> c < s.nextCaller
    ensures AllExecuting(DispatchAll(s, found, now, denied))
    decreases |found|
  {
    if found != [] {
      var prefix, j := found[..|found| - 1], found[|found| - 1];
      assert found == prefix + [j];
      LastIsNew(prefix, j);
      DispatchAllExecutes(s, prefix, now, denied);
      DispatchAllOnlyAdds(s, prefix, now, denied);
      var s1 := DispatchAll(s, prefix, now, denied);
      if j !in s1.running {
        assert OwnedHere(s, j) && OwnedHere(s1, j);
        DispatchShape(s1, j, now, denied);
      }
    }
  }

  lemma BootSweepExecutes(s: Engine, order: seq<SessionId>, now: int, denied: set<JobId>)
    requires Booted(s) && SweepOrder(s, order)
    ensures AllExecuting(RecoverSessionRuns(s, order, |order|, now, denied))
  {
    var s1, found := Healed(s, order, now), Heal(s.leases, s.jobs, order, now).1;
    assert LeasesSound(s) && s1.live == map[];
    hide Booted, Heal, FoundOwners, DispatchAll, RecoverSessionRuns, LeasesSound;
    FullSweepShape(s, order, now, denied);
    FoundAreOwnedHere(s1, order, found);
    DispatchAllExecutes(s1, found, now, denied);
  }

  /** The sweep at boot leads to a smooth state, whatever leases were persisted, if and only if it gets every lock it asks
      for. */
  lemma BootSweepIsSmooth(s: Engine, order: seq<SessionId>, healed: nat, now: int, denied: set<JobId>)
    requires Booted(s) && SweepOrder(s, order) && healed <= |order|
    ensures Smooth(RecoverSessionRuns(s, order, healed, now, denied)) <==> healed == |order| && SweptUp(s, order, healed, now) !! denied
  {
    hide Inv, Attended, Booted, RecoverSessionRuns, SweptUp, AllExecuting;
    BootSweepKeeps(s, order, healed, now, denied);
    BootAttendance(s, order, healed, now, denied);
    if healed == |order| { BootSweepExecutes(s, order, now, denied); }
  }

  // ---- draining ----

  /** How and when a turn ends. */
  datatype Ending = Ending(outcome: Outcome, now: int)

  ghost predicate Turn(s: Engine, k: SessionId, c: CallerId) {
    c in s.live && s.live[c].session == Some(k) && s.live[c].phase.Executing?
  }

  /** Ends the executing turn of `k`, once for each of `endings`. */
  ghost function EndTurns(s: Engine, k: SessionId, endings: seq<Ending>): Engine
    decreases |endings|
  {
    if endings == [] then s
    else if exists c :: Turn(s, k, c) then
      var c :| Turn(s, k, c);
      EndTurns(BodyEnds(s, c, endings[0].outcome, endings[0].now, true, {}), k, endings[1..])
    else s
  }

  /** Each turn that ends takes the head off the line. */
  lemma {:induction false} TurnsTakeTheLine(s: Engine, k: SessionId, endings: seq<Ending>)
    requires Smooth(s) && |endings| <= |LineOf(s, k)|
    ensures var s' := EndTurns(s, k, endings); Smooth(s') && LineOf(s', k) == LineOf(s, k)[|endings|..]
    decreases |endings|
  {
    hide Smooth, BodyEnds, LineOf, EndTurns;
    if endings != [] {
      var e := endings[0];
      var c := TurnEnds(s, k, e);
      var s1 := BodyEnds(s, c, e.outcome, e.now, true, {});
      OneTurnEnds(s, k, c, endings);
      TurnsTakeTheLine(s1, k, endings[1..]);
      DropOneMore(LineOf(s, k), |endings|);
    } else {
      NoTurnEnds(s, k);
    }
  }

  lemma DropOneMore(line: seq<JobId>, n: nat)
    requires 0 < n <= |line|
    ensures line[1..][n - 1..] == line[n..]
  {
  }

  lemma NoTurnEnds(s: Engine, k: SessionId)
    ensures EndTurns(s, k, []) == s && LineOf(s, k)[0..] == LineOf(s, k)
  {
  }

  lemma EmptyLineNoLease(s: Engine, k: SessionId)
    requires Smooth(s) && LineOf(s, k) == []
    ensures k !in s.leases
  {
    SmoothMeans(s);
    hide Smooth;
  }

  /** A session drains in as many turns as its line is long, however and whenever they end, and every caller still parked
      on one of its jobs then has a dispatched run that has answered: settling its continuation answers them all. */
  lemma SessionDrains(s: Engine, k: SessionId, endings: seq<Ending>)
    requires Smooth(s) && |endings| == |LineOf(s, k)|
    ensures var s' := EndTurns(s, k, endings);
      && k !in s'.leases
      && forall j :: j in s'.parked && OfSession(s', j, k) ==> exists c :: Answering(s', c, j)
  {
    TurnsTakeTheLine(s, k, endings);
    var s' := EndTurns(s, k, endings);
    EmptyLineNoLease(s', k);
    assert Inv(s');
    hide Inv, Smooth, Answering, EndTurns, LineOf;
    forall j | j in s'.parked && OfSession(s', j, k) ensures exists c :: Answering(s', c, j) {
      DrainedIsAnswered(s', j, k);
    }
  }

  lemma OneTurnEnds(s: Engine, k: SessionId, c: CallerId, endings: seq<Ending>)
    requires endings != [] && Turn(s, k, c) && forall d :: Turn(s, k, d) ==> d == c
    ensures EndTurns(s, k, endings) == EndTurns(BodyEnds(s, c, endings[0].outcome, endings[0].now, true, {}), k, endings[1..])
  {
    hide BodyEnds, Turn;
  }

  /** The one body executing in `k` is the one whose turn `EndTurns` ends. */
  lemma TurnEnds(s: Engine, k: SessionId, e: Ending) returns (c: CallerId)
    requires Smooth(s) && LineOf(s, k) != []
    ensures Turn(s, k, c) && forall d :: Turn(s, k, d) ==> d == c
    ensures var s' := BodyEnds(s, c, e.outcome, e.now, true, {}); Smooth(s') && LineOf(s', k) == LineOf(s, k)[1..]
  {
    assert SessionLive(s, k);
    c :| c in s.live && s.live[c].session == Some(k) && s.live[c].phase.Executing?;
    assert OneBody(s);
    hide Inv, Attended, BodyEnds, HandedTo;
    HandOverEffect(s, c, e.outcome, e.now, {}, k);
    BodyEndsKeeps(s, c, e.outcome, e.now, true, {});
    BodyEndsAttendance(s, c, e.outcome, e.now, true, {});
  }

  /** The continuation of the run `c` of `j` can settle the callers parked on `j`. */
  ghost predicate Answering(s: Engine, c: CallerId, j: JobId) {
    c in s.dispatches && s.dispatches[c] == j && c in s.answers
  }

  lemma DrainedIsAnswered(s: Engine, j: JobId, k: SessionId)
    requires Inv(s) && k !in s.leases && j in s.parked && OfSession(s, j, k)
    ensures exists c :: Answering(s, c, j)
  {
    assert Accounted(s, j);
    var c :| c in s.dispatches && s.dispatches[c] == j;
    assert Answering(s, c, j);
  }
}
