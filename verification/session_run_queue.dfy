/**
 The per-session lease record and its transitions (MacOS/brain/session-run-queue.ts).

 A record names the job that may execute (`owner`) and the jobs queued behind it. Read together as
 `Line`, the record is a FIFO line whose head is the owner; each transition is characterised below by
 what it does to that line.
 */
module SessionRunQueue {
  import opened Options

  type JobId = nat
  type Token = nat

  datatype Lease = Lease(owner: Option<JobId>, token: Option<Token>, acquiredAt: int, heartbeatAt: int,
                         waiters: seq<JobId>)

  datatype Claim = Acquired | Owned | Queued(promoted: Option<JobId>) | Contended

  const EMPTY_LEASE := Lease(None, None, 0, 0, [])

  /** How long after its last heartbeat an owner is presumed dead. */
  const LEASE_STALE_MS := 120_000

  predicate IsEmpty(rec: Lease) {
    rec.owner.None? && rec.waiters == []
  }

  predicate IsStale(rec: Lease, now: int) {
    now - rec.heartbeatAt > LEASE_STALE_MS
  }

  function Without(jobs: seq<JobId>, job: JobId): seq<JobId> {
    if jobs == [] then []
    else if jobs[0] == job then Without(jobs[1..], job)
    else [jobs[0]] + Without(jobs[1..], job)
  }

  /** The jobs of `jobs` for which `terminal` does not hold, in order. */
  function Surviving(jobs: seq<JobId>, terminal: JobId -> bool): seq<JobId> {
    if jobs == [] then []
    else if terminal(jobs[0]) then Surviving(jobs[1..], terminal)
    else [jobs[0]] + Surviving(jobs[1..], terminal)
  }

  function Enqueue(jobs: seq<JobId>, job: JobId): seq<JobId> {
    if job in jobs then jobs else jobs + [job]
  }

  // ---- transitions ----

  function Acquire(cur: Lease, job: JobId, now: int, token: Token): (Lease, Claim) {
    if cur.owner == Some(job) then
      if cur.token.None? || cur.token == Some(token) || IsStale(cur, now) then
        (cur.(token := Some(token), heartbeatAt := now), if IsStale(cur, now) then Acquired else Owned)
      else (cur, Contended)
    else if cur.owner.None? then
      (Lease(Some(job), Some(token), now, now, Without(cur.waiters, job)), Acquired)
    else if IsStale(cur, now) then
      if cur.waiters == [] || cur.waiters[0] == job then
        (Lease(Some(job), Some(token), now, now, if cur.waiters == [] then [] else Without(cur.waiters[1..], job)), Acquired)
      else
        (Lease(Some(cur.waiters[0]), None, now, now, Enqueue(cur.waiters[1..], job)), Queued(Some(cur.waiters[0])))
    else
      (cur.(waiters := Enqueue(cur.waiters, job)), Queued(None))
  }

  function Release(cur: Lease, job: JobId, now: int, token: Token): (Lease, Option<JobId>) {
    if cur.owner != Some(job) || (cur.token.Some? && cur.token != Some(token)) then
      (cur.(waiters := Without(cur.waiters, job)), None)
    else if cur.waiters == [] then (EMPTY_LEASE, None)
    else (Lease(Some(cur.waiters[0]), None, now, now, cur.waiters[1..]), Some(cur.waiters[0]))
  }

  function Dequeue(cur: Lease, job: JobId): Lease {
    if cur.owner == Some(job) then cur else cur.(waiters := Without(cur.waiters, job))
  }

  function Heartbeat(cur: Lease, job: JobId, now: int, token: Token): Lease {
    if cur.owner == Some(job) && (cur.token.None? || cur.token == Some(token)) then
      cur.(token := Some(token), heartbeatAt := now)
    else cur
  }

  function Recover(cur: Lease, terminal: JobId -> bool, now: int, token: Token): (Lease, Option<JobId>) {
    var waiting := Surviving(cur.waiters, terminal);
    if cur.owner.Some? && !terminal(cur.owner.value) then
      (Lease(cur.owner, Some(token), if cur.acquiredAt == 0 then now else cur.acquiredAt, now, waiting), cur.owner)
    else if waiting != [] then
      (Lease(Some(waiting[0]), Some(token), now, now, waiting[1..]), Some(waiting[0]))
    else (EMPTY_LEASE, None)
  }

  // ---- the line a record stands for ----

  function Line(rec: Lease): seq<JobId> {
    if rec.owner.None? then rec.waiters else [rec.owner.value] + rec.waiters
  }

  predicate Distinct(jobs: seq<JobId>) {
    jobs == [] || (jobs[0] !in jobs[1..] && Distinct(jobs[1..]))
  }

  /** No job appears twice in the line, and only an empty line has no head. */
  predicate ValidLease(rec: Lease) {
    && Distinct(rec.waiters)
    && (rec.owner.Some? ==> rec.owner.value !in rec.waiters)
    && (rec.owner.None? ==> rec.waiters == [])
  }

  lemma {:induction false} WithoutMembers(jobs: seq<JobId>, job: JobId)
    ensures forall x :: x in Without(jobs, job) <==> x in jobs && x != job
    ensures Distinct(jobs) ==> Distinct(Without(jobs, job))
    ensures job !in jobs ==> Without(jobs, job) == jobs
  {
    if jobs != [] {
      WithoutMembers(jobs[1..], job);
      assert jobs == [jobs[0]] + jobs[1..];
    }
  }

  lemma {:induction false} SurvivingMembers(jobs: seq<JobId>, terminal: JobId -> bool)
    ensures forall x :: x in Surviving(jobs, terminal) <==> x in jobs && !terminal(x)
    ensures Distinct(jobs) ==> Distinct(Surviving(jobs, terminal))
  {
    if jobs != [] {
      SurvivingMembers(jobs[1..], terminal);
      assert jobs == [jobs[0]] + jobs[1..];
    }
  }

  lemma {:induction false} EnqueueKeepsDistinct(jobs: seq<JobId>, job: JobId)
    requires Distinct(jobs)
    ensures Distinct(Enqueue(jobs, job))
  {
    if jobs != [] && job !in jobs {
      EnqueueKeepsDistinct(jobs[1..], job);
      assert (jobs + [job])[1..] == jobs[1..] + [job];
    }
  }

  /** Claiming never moves a live owner: the job joins the end of the line once, however often it asks.
      A stale head is dropped first, and the rest keep their order ahead of the newcomer. */
  lemma AcquireJoinsTheLine(cur: Lease, job: JobId, now: int, token: Token)
    requires ValidLease(cur)
    ensures var (rec, claim) := Acquire(cur, job, now, token);
      && ValidLease(rec) && rec.owner.Some?
      && Line(rec) == (if cur.owner.Some? && cur.owner.value != job && IsStale(cur, now)
                       then Enqueue(Line(cur)[1..], job) else Enqueue(Line(cur), job))
      && (claim in {Acquired, Owned} ==> rec.owner == Some(job) && rec.token == Some(token))
      && (claim.Queued? ==> job in rec.waiters)
      && (claim.Queued? ==> claim.promoted == if IsStale(cur, now) then rec.owner else None)
      && (claim.Queued? && claim.promoted.Some? ==> rec.token == None)
      && (claim.Owned? <==> cur.owner == Some(job) && cur.token in {None, Some(token)} && !IsStale(cur, now))
      && (claim.Contended? <==> cur.owner == Some(job) && cur.token.Some? && cur.token != Some(token) && !IsStale(cur, now))
  {
    if cur.owner.Some? && cur.owner.value != job {
      assert Line(cur)[1..] == cur.waiters;
      if !IsStale(cur, now) {
        EnqueueKeepsDistinct(cur.waiters, job);
        EnqueueBehind(cur.owner.value, cur.waiters, job);
      } else if cur.waiters != [] {
        assert cur.waiters == [cur.waiters[0]] + cur.waiters[1..];
        WithoutMembers(cur.waiters[1..], job);
        EnqueueKeepsDistinct(cur.waiters[1..], job);
        EnqueueBehind(cur.waiters[0], cur.waiters[1..], job);
      }
    }
  }

  lemma EnqueueBehind(head: JobId, rest: seq<JobId>, job: JobId)
    ensures Enqueue([head] + rest, job) == if head == job then [head] + rest else [head] + Enqueue(rest, job)
  {
    assert ([head] + rest) + [job] == [head] + (rest + [job]);
    assert job in [head] + rest <==> head == job || job in rest;
  }

  /** Releasing as the owner serves exactly the head: the next in line becomes the owner, nobody else moves.
      Releasing as anyone else only leaves the line. */
  lemma ReleaseServesTheHead(cur: Lease, job: JobId, now: int, token: Token)
    requires ValidLease(cur)
    ensures var (rec, next) := Release(cur, job, now, token);
      && ValidLease(rec)
      && (cur.owner == Some(job) && (cur.token.None? || cur.token == Some(token)) ==>
            Line(rec) == Line(cur)[1..] && next == rec.owner)
      && (cur.owner.Some? && cur.owner != Some(job) ==>
            Line(rec) == [cur.owner.value] + Without(cur.waiters, job) && next == None)
      && (cur.owner == Some(job) && cur.token.Some? && cur.token != Some(token) ==> rec == cur && next == None)
      && (next.Some? ==> rec.token == None)
  {
    WithoutMembers(cur.waiters, job);
    assert cur.waiters != [] ==> cur.waiters == [cur.waiters[0]] + cur.waiters[1..];
    assert cur.owner.Some? ==> Line(cur)[1..] == cur.waiters;
  }

  /** Cancelling a queued job removes that job alone and never moves the owner. */
  lemma DequeueLeavesTheOwner(cur: Lease, job: JobId)
    requires ValidLease(cur)
    ensures var rec := Dequeue(cur, job);
      && ValidLease(rec) && rec.owner == cur.owner && rec.token == cur.token && rec.heartbeatAt == cur.heartbeatAt
      && (cur.owner != Some(job) ==> Line(rec) == Without(Line(cur), job))
      && (forall x :: x in rec.waiters <==> x in cur.waiters && x != job)
  {
    WithoutMembers(cur.waiters, job);
    if cur.owner.Some? {
      assert Line(cur)[1..] == cur.waiters;
    }
  }

  /** Recovery is one rule: the terminal jobs leave the line, the order of the others is kept, and the job
      then at the head is the one to dispatch. */
  lemma RecoverDropsTheTerminal(cur: Lease, terminal: JobId -> bool, now: int, token: Token)
    requires ValidLease(cur)
    ensures var (rec, next) := Recover(cur, terminal, now, token);
      && ValidLease(rec) && Line(rec) == Surviving(Line(cur), terminal)
      && next == rec.owner && (rec.owner.Some? ==> rec.token == Some(token))
  {
    SurvivingMembers(cur.waiters, terminal);
    if cur.owner.Some? {
      assert Line(cur)[1..] == cur.waiters;
    }
    var waiting := Surviving(cur.waiters, terminal);
    assert waiting != [] ==> waiting == [waiting[0]] + waiting[1..];
  }

  /** A beat of the owner's process holds the lease for two minutes: meanwhile no other process takes it over, no other job
      gets it, and the process itself finds it its own. */
  lemma BeatHoldsTheLease(cur: Lease, job: JobId, now: int, token: Token, other: JobId, stranger: Token, later: int)
    requires cur.owner == Some(job) && cur.token in {None, Some(token)} && later - now <= 120_000
    requires other != job && stranger != token
    ensures var rec := Heartbeat(cur, job, now, token);
      && Line(rec) == Line(cur)
      && Acquire(rec, job, later, token).1 == Owned && Acquire(rec, job, later, stranger).1 == Contended
      && Acquire(rec, other, later, stranger).1 == Queued(None) && Release(rec, job, later, stranger).0.owner == Some(job)
  {
  }

  /** A beat of any other process or job holds nothing: every later claim is answered as if it had not been. */
  lemma ForeignBeatsHoldNothing(cur: Lease, job: JobId, now: int, token: Token, other: JobId, claimant: Token, later: int)
    requires cur.owner != Some(job) || (cur.token.Some? && cur.token != Some(token))
    ensures Acquire(Heartbeat(cur, job, now, token), other, later, claimant) == Acquire(cur, other, later, claimant)
  {
  }

  /** A lease that changes hands says since when; one that does not keeps saying it. */
  ghost predicate SinceItChangedHands(cur: Lease, rec: Lease, now: int) {
    rec.owner.Some? ==>
      if rec.owner == cur.owner then rec.acquiredAt == (if cur.acquiredAt == 0 then rec.acquiredAt else cur.acquiredAt)
      else rec.acquiredAt == now && rec.heartbeatAt == now
  }

  lemma AcquiredAtIsTheHandover(cur: Lease, job: JobId, terminal: JobId -> bool, now: int, token: Token)
    requires ValidLease(cur)
    ensures SinceItChangedHands(cur, Acquire(cur, job, now, token).0, now) && SinceItChangedHands(cur, Release(cur, job, now, token).0, now)
    ensures SinceItChangedHands(cur, Dequeue(cur, job), now) && SinceItChangedHands(cur, Heartbeat(cur, job, now, token), now)
    ensures SinceItChangedHands(cur, Recover(cur, terminal, now, token).0, now)
  {
    SurvivingMembers(cur.waiters, terminal);
  }
}
