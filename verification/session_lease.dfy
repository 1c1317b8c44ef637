/**
 The session lease lifecycle of `LocalEngine` (MacOS/brain/engine.ts): what one process does to the lease
 records, the `running` and `parked` maps, its live turn bodies and its armed recovery timers.

 A state is the engine between two synchronous stretches of code; a step is one such stretch (a trigger, a
 body's store write, the end of a body, one release attempt, a `.then(settleParked)` continuation, a
 cancel, a recovery timer). Every call of `run` gets a caller id, which stands for the promise it returned.
 */
module SessionLease {
  import opened Options
  import opened SessionRunQueue

  type SessionId = nat
  type CallerId = nat

  datatype Status = Pending | Running | Done | Failed | Cancelled | Gated

  datatype Job = Job(session: Option<SessionId>, status: Status)

  /** What a promise of `run` settles with: a job snapshot or a rejection. */
  datatype Outcome = Finished(status: Status) | Threw

  /** A body is executing (post-turn git and failure cleanup included) or its release is being retried. */
  datatype Phase = Executing | Releasing(attempts: nat, outcome: Outcome)

  datatype Activation = Activation(job: JobId, session: Option<SessionId>, phase: Phase)

  /**
   `live` holds the activations whose lease is not yet surrendered, keyed by the caller they answer;
   `dispatches` holds the drained jobs whose `.then(settleParked)` continuation has not run yet;
   `answers` records the promises that have settled; `timers` the attempt number of each armed recovery.
   */
  datatype Engine = Engine(
    jobs: map<JobId, Job>,
    leases: map<SessionId, Lease>,
    running: set<JobId>,
    parked: map<JobId, seq<CallerId>>,
    live: map<CallerId, Activation>,
    dispatches: map<CallerId, JobId>,
    answers: map<CallerId, Outcome>,
    timers: seq<nat>,
    nextCaller: CallerId)

  /** The token this process stamps on the leases it holds. */
  const SELF: Token := 1

  /** Length of the release backoff schedule. */
  const RELEASE_ATTEMPTS := 5

  predicate Terminal(status: Status) {
    status != Pending && status != Running
  }

  function TerminalTest(jobs: map<JobId, Job>): JobId -> bool {
    (j: JobId) => j !in jobs || Terminal(jobs[j].status)
  }

  function LeaseOf(leases: map<SessionId, Lease>, k: SessionId): Lease {
    if k in leases then leases[k] else EMPTY_LEASE
  }

  /** An empty record is dropped from the persisted map. */
  function PutLease(leases: map<SessionId, Lease>, k: SessionId, rec: Lease): map<SessionId, Lease> {
    if IsEmpty(rec) then leases - {k} else leases[k := rec]
  }

  function SetStatus(jobs: map<JobId, Job>, j: JobId, status: Status): map<JobId, Job> {
    if j in jobs then jobs[j := jobs[j].(status := status)] else jobs
  }

  function AnswerAll(answers: map<CallerId, Outcome>, callers: seq<CallerId>, out: Outcome): map<CallerId, Outcome> {
    answers + map c | c in callers :: out
  }

  function Answer(s: Engine, c: CallerId, out: Outcome): Engine {
    s.(answers := s.answers[c := out])
  }

  // ---- the steps ----

  function SettleParked(s: Engine, j: JobId, out: Outcome): Engine {
    if j !in s.parked then s
    else s.(parked := s.parked - {j}, answers := AnswerAll(s.answers, s.parked[j], out))
  }

  /** The lease lock could not be taken: fail closed, without executing. */
  function ClaimDenied(s: Engine, j: JobId, c: CallerId): Engine {
    Answer(SettleParked(s.(jobs := SetStatus(s.jobs, j, Failed)), j, Finished(Failed)), c, Finished(Failed))
  }

  function Execute(s: Engine, j: JobId, session: Option<SessionId>, c: CallerId): Engine {
    s.(running := s.running + {j}, live := s.live[c := Activation(j, session, Executing)])
  }

  function Park(s: Engine, j: JobId, c: CallerId): Engine {
    var before := if j in s.parked then s.parked[j] else [];
    s.(jobs := SetStatus(s.jobs, j, Pending), parked := s.parked[j := before + [c]])
  }

  function StaleSessions(leases: map<SessionId, Lease>, now: int): set<SessionId> {
    set k | k in leases && IsStale(leases[k], now)
  }

  /** `run` for the caller `c`. `denied` holds the jobs whose lock attempt times out within this step. */
  function Run(s: Engine, j: JobId, c: CallerId, now: int, denied: set<JobId>): Engine
    decreases StaleSessions(s.leases, now), 1
  {
    if j !in s.jobs then Answer(s, c, Threw)
    else if j in s.running then Answer(s, c, Finished(s.jobs[j].status))
    else if s.jobs[j].session.None? then Execute(s, j, None, c)
    else if j in denied then ClaimDenied(s, j, c)
    else
      var k := s.jobs[j].session.value;
      var (rec, claim) := Acquire(LeaseOf(s.leases, k), j, now, SELF);
      var s1 := s.(leases := PutLease(s.leases, k, rec));
      match claim
      case Contended => Answer(s1, c, Finished(s.jobs[j].status))
      case Queued(promoted) =>
        if promoted.Some? && promoted.value != j && promoted.value !in s1.running then
          assert k in StaleSessions(s.leases, now) && k !in StaleSessions(s1.leases, now);
          Park(Dispatch(s1, promoted.value, now, denied), j, c)
        else Park(s1, j, c)
      case _ => Execute(s1, j, Some(k), c)
  }

  /** Runs a promoted job and remembers to settle its parked callers with whatever that run answers. */
  function Dispatch(s: Engine, j: JobId, now: int, denied: set<JobId>): Engine
    decreases StaleSessions(s.leases, now), 2
  {
    Run(s.(nextCaller := s.nextCaller + 1, dispatches := s.dispatches[s.nextCaller := j]), j, s.nextCaller, now, denied)
  }

  /** An outside call of `run`. */
  function Trigger(s: Engine, j: JobId, now: int, denied: set<JobId>): Engine {
    Run(s.(nextCaller := s.nextCaller + 1), j, s.nextCaller, now, denied)
  }

  /** A live body writes its own job's status, and may drop its own `running` entry. */
  function BodyWrites(s: Engine, c: CallerId, status: Status, drop: bool): Engine
    requires c in s.live && s.live[c].phase.Executing?
  {
    s.(jobs := SetStatus(s.jobs, s.live[c].job, status), running := if drop then s.running - {s.live[c].job} else s.running)
  }

  /** One release attempt of the activation answering `c`, after `n` failed ones. */
  function ReleaseAttempt(s: Engine, c: CallerId, out: Outcome, n: nat, now: int, lockOk: bool, denied: set<JobId>): Engine
    requires c in s.live && s.live[c].session.Some?
  {
    var j, k := s.live[c].job, s.live[c].session.value;
    if lockOk then
      var (rec, next) := Release(LeaseOf(s.leases, k), j, now, SELF);
      var s1 := Answer(s.(leases := PutLease(s.leases, k, rec), live := s.live - {c}), c, out);
      if next.Some? && next.value != j && next.value !in s1.running then Dispatch(s1, next.value, now, denied) else s1
    else if n + 1 < RELEASE_ATTEMPTS then
      s.(live := s.live[c := s.live[c].(phase := Releasing(n + 1, out))])
    else
      Answer(s.(live := s.live - {c}, timers := s.timers + [0]), c, out)
  }

  /** The body returned or threw: the `finally` of the wrapper, up to and including its first release attempt. */
  function BodyEnds(s: Engine, c: CallerId, out: Outcome, now: int, lockOk: bool, denied: set<JobId>): Engine
    requires c in s.live && s.live[c].phase.Executing?
  {
    var s1 := s.(running := s.running - {s.live[c].job});
    if s.live[c].session.None? then Answer(s1.(live := s1.live - {c}), c, out)
    else ReleaseAttempt(s1, c, out, 0, now, lockOk, denied)
  }

  /** The continuation of a dispatched run: its answer goes to every caller parked on that job. */
  function Settle(s: Engine, c: CallerId): Engine
    requires c in s.dispatches && c in s.answers
  {
    SettleParked(s.(dispatches := s.dispatches - {c}), s.dispatches[c], s.answers[c])
  }

  function Cancel(s: Engine, j: JobId, lockOk: bool): Engine {
    if j in s.running then
      if j in s.jobs && s.jobs[j].status == Running then
        s.(jobs := SetStatus(s.jobs, j, Cancelled), running := s.running - {j})
      else s.(running := s.running - {j})
    else if j in s.jobs && s.jobs[j].session.Some? && s.jobs[j].session.value in s.leases
            && j in s.leases[s.jobs[j].session.value].waiters && lockOk then
      var k := s.jobs[j].session.value;
      SettleParked(s.(leases := PutLease(s.leases, k, Dequeue(s.leases[k], j)), jobs := SetStatus(s.jobs, j, Cancelled)),
                   j, Finished(Cancelled))
    else s
  }

  /** Heals the leases of `order` in turn; the second component lists the jobs to dispatch. */
  function Heal(leases: map<SessionId, Lease>, jobs: map<JobId, Job>, order: seq<SessionId>, now: int)
    : (map<SessionId, Lease>, seq<JobId>)
    decreases |order|
  {
    if order == [] then (leases, [])
    else
      var (before, found) := Heal(leases, jobs, order[..|order| - 1], now);
      var k := order[|order| - 1];
      var (rec, next) := Recover(LeaseOf(before, k), TerminalTest(jobs), now, SELF);
      (PutLease(before, k, rec), if next.Some? then found + [next.value] else found)
  }

  function DispatchAll(s: Engine, found: seq<JobId>, now: int, denied: set<JobId>): Engine
    decreases |found|
  {
    if found == [] then s
    else
      var s1 := DispatchAll(s, found[..|found| - 1], now, denied);
      var j := found[|found| - 1];
      if j in s1.running then s1 else Dispatch(s1, j, now, denied)
  }

  /** The sweep visits every persisted session once. */
  ghost predicate SweepOrder(s: Engine, order: seq<SessionId>) {
    && (forall i, j :: 0 <= i < j < |order| ==> order[i] != order[j])
    && (forall k :: k in order <==> k in s.leases)
  }

  /** One sweep. The lock is granted for the first `healed` sessions; if that is not all of them the sweep throws
      and dispatches nothing. */
  function RecoverSessionRuns(s: Engine, order: seq<SessionId>, healed: nat, now: int, denied: set<JobId>): Engine
    requires healed <= |order|
  {
    var (leases, found) := Heal(s.leases, s.jobs, order[..healed], now);
    if healed < |order| then s.(leases := leases) else DispatchAll(s.(leases := leases), found, now, denied)
  }

  /** Recovery timer `i` fires: a sweep, armed again if it throws. */
  function RecoveryFires(s: Engine, i: nat, order: seq<SessionId>, healed: nat, now: int, denied: set<JobId>): Engine
    requires i < |s.timers| && healed <= |order|
  {
    var s1 := RecoverSessionRuns(s.(timers := s.timers[..i] + s.timers[i + 1..]), order, healed, now, denied);
    if healed < |order| then s1.(timers := s1.timers + [s.timers[i] + 1]) else s1
  }

  /** The heartbeat interval of a live activation. */
  function Beat(s: Engine, c: CallerId, now: int): Engine
    requires c in s.live && s.live[c].session.Some?
  {
    var k := s.live[c].session.value;
    s.(leases := PutLease(s.leases, k, Heartbeat(LeaseOf(s.leases, k), s.live[c].job, now, SELF)))
  }
}
