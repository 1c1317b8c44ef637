/** When a lease shows a sign of life, and that a lease passes on exactly when it has shown none for two minutes. */
module SessionLeaseHeartbeats {
  import opened Options
  import opened SessionRunQueue
  import opened SessionLease
  import opened SessionLeaseProof
  import opened SessionLeaseRuns

  // ---- signs of life ----

  ghost predicate NewOwner(s: Engine, s': Engine, k: SessionId) {
    LeaseOf(s'.leases, k).owner != LeaseOf(s.leases, k).owner
  }

  ghost predicate NewBody(s: Engine, s': Engine, k: SessionId) {
    exists c :: c in s'.live && c !in s.live && s'.live[c].session == Some(k)
  }

  /** A new owner or a body that starts stamps the lease, and nothing else does. */
  ghost predicate Stamps(s: Engine, s': Engine, k: SessionId, now: int) {
    k in s'.leases ==>
      s'.leases[k].heartbeatAt == if NewOwner(s, s', k) || NewBody(s, s', k) then now else LeaseOf(s.leases, k).heartbeatAt
  }

  ghost predicate OnlyMore(s: Engine, s': Engine) {
    forall c :: c in s.live ==> c in s'.live && s'.live[c] == s.live[c]
  }

  /** `Dispatch` of an owner leaves all owners in place. */
  lemma DispatchStamps(s: Engine, j: JobId, now: int, denied: set<JobId>, k: SessionId)
    requires Dispatchable(s, j) && s.nextCaller !in s.live
    ensures var s' := Dispatch(s, j, now, denied);
      && !NewOwner(s, s', k) && Stamps(s, s', k, now) && OnlyMore(s, s') && s'.leases.Keys == s.leases.Keys
      && (NewBody(s, s', k) ==> s.jobs[j].session == Some(k))
  {
    DispatchShape(s, j, now, denied);
    var s' := Dispatch(s, j, now, denied);
    hide Dispatch, Dispatchable;
    if j !in denied { assert s.nextCaller in s'.live; }
  }

  /** First the lease changes, and maybe a body ends; then the owner is dispatched. */
  lemma ThenDispatched(s: Engine, s1: Engine, s2: Engine, k: SessionId, now: int)
    requires Stamps(s, s1, k, now) && !NewBody(s, s1, k) && s1.live.Keys <= s.live.Keys
    requires !NewOwner(s1, s2, k) && Stamps(s1, s2, k, now) && s2.leases.Keys == s1.leases.Keys
    requires forall c :: c in s2.live && c !in s1.live ==> c !in s.live
    ensures Stamps(s, s2, k, now)
  {
    assert NewBody(s, s2, k) <==> NewBody(s1, s2, k) by {
      assert forall c :: c in s2.live && s2.live[c].session == Some(k) && c !in s1.live ==> c !in s.live;
      forall c | c in s2.live && c !in s.live ensures c !in s1.live { }
    }
  }

  lemma SameStamps(s: Engine, s': Engine, k: SessionId, now: int)
    requires s'.leases == s.leases && s'.live.Keys <= s.live.Keys
    ensures Stamps(s, s', k, now)
  {
  }

  // ---- an outside call ----

  /** What a claim does to the record: whoever gets the lease, the claimant or the first waiter, has it stamped. */
  lemma AcquireStamps(cur: Lease, j: JobId, now: int)
    requires ValidLease(cur)
    ensures var (rec, claim) := Acquire(cur, j, now, SELF);
      && !IsEmpty(rec)
      && (rec.owner != cur.owner || claim in {Acquired, Owned} ==> rec.heartbeatAt == now)
      && (rec.owner == cur.owner && claim !in {Acquired, Owned} ==> rec.heartbeatAt == cur.heartbeatAt)
      && (claim.Queued? && claim.promoted.Some? ==>
            cur.waiters != [] && claim.promoted == Some(cur.waiters[0]) == rec.owner && rec.token == None && cur.owner != rec.owner && claim.promoted != Some(j))
  {
    AcquireJoinsTheLine(cur, j, now, SELF);
  }

  /** The lease of session `i` is put back, and nobody starts. */
  lemma PutStamps(s: Engine, s': Engine, i: SessionId, rec: Lease, k: SessionId, now: int)
    requires s'.leases == PutLease(s.leases, i, rec) && s'.live.Keys <= s.live.Keys
    requires rec.heartbeatAt == if rec.owner != LeaseOf(s.leases, i).owner then now else LeaseOf(s.leases, i).heartbeatAt
    ensures Stamps(s, s', k, now) && !NewBody(s, s', k)
  {
  }

  lemma GrantStamps(s: Engine, s1: Engine, j: JobId, i: SessionId, rec: Lease, c: CallerId, k: SessionId, now: int)
    requires s1.leases == PutLease(s.leases, i, rec) && s1.live == s.live && rec.heartbeatAt == now && !IsEmpty(rec) && c !in s.live
    ensures Stamps(s, Execute(s1, j, Some(i), c), k, now)
  {
    var s' := Execute(s1, j, Some(i), c);
    assert c in s'.live && s'.live[c].session == Some(i);
    if k == i { assert NewBody(s, s', k); }
  }

  lemma StaleQueueStamps(s: Engine, s1: Engine, p: JobId, i: SessionId, rec: Lease, now: int, denied: set<JobId>, k: SessionId)
    requires s1 == s.(leases := s1.leases, nextCaller := s1.nextCaller) && s1.leases == PutLease(s.leases, i, rec) && s1.nextCaller !in s.live
    requires rec.heartbeatAt == now && rec.owner == Some(p) && rec.owner != LeaseOf(s.leases, i).owner && rec.token == None
    requires OfSession(s, p, i) && p !in s.running
    ensures Stamps(s, Dispatch(s1, p, now, denied), k, now)
  {
    PutStamps(s, s1, i, rec, k, now);
    assert Dispatchable(s1, p);
    hide Stamps, NewOwner, NewBody, Dispatchable;
    DispatchStamps(s1, p, now, denied, k);
    ThenDispatched(s, s1, Dispatch(s1, p, now, denied), k, now);
  }

  lemma ClaimStamps(s: Engine, j: JobId, i: SessionId, now: int, denied: set<JobId>, k: SessionId)
    requires Inv(s) && OfSession(s, j, i) && j !in s.running && j !in denied
    ensures Stamps(s, Trigger(s, j, now, denied), k, now)
  {
    var c, cur := s.nextCaller, LeaseOf(s.leases, i);
    assert c !in s.live && c + 1 !in s.live;
    SoundRecord(s, i);
    var (rec, claim) := Acquire(cur, j, now, SELF);
    var s1 := s.(nextCaller := c + 1, leases := PutLease(s.leases, i, rec));
    AcquireStamps(cur, j, now);
    if claim.Queued? && claim.promoted.Some? {
      var p := claim.promoted.value;
      assert p in cur.waiters && i in s.leases;
      WaiterIsNotRunning(s, i, p);
      hide Trigger, Inv, Acquire, Stamps;
      StaleClaimShape(s, s1, j, i, p, now, denied);
      StaleQueueStamps(s, s1, p, i, rec, now, denied, k);
      ParkedStamps(s, Dispatch(s1, p, now, denied), j, c, k, now);
    } else {
      ClaimShape(s, s1, j, i, claim, now, denied);
      hide Trigger, Inv, Acquire, Stamps;
      if claim in {Acquired, Owned} {
        GrantStamps(s, s1, j, i, rec, c, k, now);
      } else {
        PutStamps(s, Trigger(s, j, now, denied), i, rec, k, now);
      }
    }
  }

  lemma SoundRecord(s: Engine, i: SessionId)
    requires Inv(s)
    ensures var cur := LeaseOf(s.leases, i); ValidLease(cur) && forall p :: p in cur.waiters ==> OfSession(s, p, i)
  {
    assert LeasesSound(s);
  }

  lemma StaleClaimShape(s: Engine, s1: Engine, j: JobId, i: SessionId, p: JobId, now: int, denied: set<JobId>)
    requires OfSession(s, j, i) && j !in s.running && j !in denied && p !in s.running && p != j
    requires Acquire(LeaseOf(s.leases, i), j, now, SELF).1 == Queued(Some(p))
    requires s1 == s.(nextCaller := s.nextCaller + 1, leases := PutLease(s.leases, i, Acquire(LeaseOf(s.leases, i), j, now, SELF).0))
    ensures Trigger(s, j, now, denied) == Park(Dispatch(s1, p, now, denied), j, s.nextCaller)
  {
    hide Acquire, Dispatch, Park;
  }

  lemma ClaimShape(s: Engine, s1: Engine, j: JobId, i: SessionId, claim: Claim, now: int, denied: set<JobId>)
    requires OfSession(s, j, i) && j !in s.running && j !in denied
    requires claim == Acquire(LeaseOf(s.leases, i), j, now, SELF).1 && (claim.Queued? ==> claim.promoted.None?)
    requires s1 == s.(nextCaller := s.nextCaller + 1, leases := PutLease(s.leases, i, Acquire(LeaseOf(s.leases, i), j, now, SELF).0))
    ensures var s' := Trigger(s, j, now, denied);
      if claim in {Acquired, Owned} then s' == Execute(s1, j, Some(i), s.nextCaller) else s'.leases == s1.leases && s'.live == s.live
  {
    hide Acquire;
  }

  lemma ParkedStamps(s: Engine, s1: Engine, j: JobId, c: CallerId, k: SessionId, now: int)
    requires Stamps(s, s1, k, now)
    ensures Stamps(s, Park(s1, j, c), k, now)
  {
  }

  lemma TriggerStamps(s: Engine, j: JobId, now: int, denied: set<JobId>, k: SessionId)
    requires Inv(s)
    ensures Stamps(s, Trigger(s, j, now, denied), k, now)
  {
    if j in s.jobs && j !in s.running && s.jobs[j].session.Some? && j !in denied {
      hide Inv, Trigger, Stamps;
      ClaimStamps(s, j, s.jobs[j].session.value, now, denied, k);
    } else {
      hide Inv, Trigger;
      UnclaimedShape(s, j, now, denied);
    }
  }

  lemma UnclaimedShape(s: Engine, j: JobId, now: int, denied: set<JobId>)
    requires !(j in s.jobs && j !in s.running && s.jobs[j].session.Some? && j !in denied)
    ensures var s' := Trigger(s, j, now, denied);
      s'.leases == s.leases && forall c :: c in s'.live && c !in s.live ==> s'.live[c].session == None
  {
    hide SetStatus, AnswerAll, Acquire;
  }

  // ---- the end of a turn ----

  lemma ReleaseRecord(cur: Lease, j: JobId, now: int)
    requires ValidLease(cur) && cur.owner == Some(j) && cur.token == Some(SELF)
    ensures var (rec, next) := Release(cur, j, now, SELF);
      && rec.owner == next && next != cur.owner
      && if cur.waiters == [] then IsEmpty(rec) else next == Some(cur.waiters[0]) && rec.heartbeatAt == now && rec.token == None
  {
    ReleaseServesTheHead(cur, j, now, SELF);
    assert cur.waiters != [] ==> cur.waiters[0] in cur.waiters;
  }

  lemma HandedOnStamps(s: Engine, s1: Engine, i: SessionId, rec: Lease, k: SessionId, now: int)
    requires s1.leases == PutLease(s.leases, i, rec) && s1.live.Keys <= s.live.Keys && rec.owner != LeaseOf(s.leases, i).owner
    requires IsEmpty(rec) || rec.heartbeatAt == now
    ensures Stamps(s, s1, k, now) && !NewBody(s, s1, k)
  {
  }

  lemma ReleaseStamps(s: Engine, c: CallerId, out: Outcome, n: nat, now: int, lockOk: bool, denied: set<JobId>, k: SessionId)
    requires Inv(s) && c in s.live && s.live[c].session.Some? && s.live[c].job !in s.running
    ensures Stamps(s, ReleaseAttempt(s, c, out, n, now, lockOk, denied), k, now)
  {
    if lockOk {
      var j, i := s.live[c].job, s.live[c].session.value;
      assert Holds(s, i, j) && s.nextCaller !in s.live && c < s.nextCaller;
      var cur := s.leases[i];
      assert ValidLease(cur) && forall p :: p in cur.waiters ==> OfSession(s, p, i) by { assert LeasesSound(s); }
      ReleaseRecord(cur, j, now);
      var (rec, next) := Release(cur, j, now, SELF);
      if cur.waiters != [] {
        assert cur.waiters[0] in cur.waiters;
        WaiterIsNotRunning(s, i, cur.waiters[0]);
      }
      hide Inv, Stamps, Release;
      GrantedReleaseStamps(s, c, out, n, now, denied, k, rec, next);
    } else {
      hide Inv;
      SameStamps(s, ReleaseAttempt(s, c, out, n, now, lockOk, denied), k, now);
    }
  }

  lemma GrantedReleaseStamps(s: Engine, c: CallerId, out: Outcome, n: nat, now: int, denied: set<JobId>, k: SessionId, rec: Lease, next: Option<JobId>)
    requires c in s.live && s.live[c].session.Some? && c < s.nextCaller && s.nextCaller !in s.live && s.live[c].session.value in s.leases
    requires var i := s.live[c].session.value;
      && (rec, next) == Release(s.leases[i], s.live[c].job, now, SELF) && rec.owner == next && next != s.leases[i].owner
      && s.leases[i].owner == Some(s.live[c].job)
      && (if next.None? then IsEmpty(rec) else rec.heartbeatAt == now && rec.token == None && OfSession(s, next.value, i) && next.value !in s.running)
    ensures Stamps(s, ReleaseAttempt(s, c, out, n, now, true, denied), k, now)
  {
    var i := s.live[c].session.value;
    var s1 := Answer(s.(leases := PutLease(s.leases, i, rec), live := s.live - {c}), c, out);
    assert ReleaseAttempt(s, c, out, n, now, true, denied) == if next.Some? then Dispatch(s1, next.value, now, denied) else s1;
    HandedOnStamps(s, s1, i, rec, k, now);
    if next.Some? {
      assert Dispatchable(s1, next.value);
      hide Release, Dispatchable, Stamps, NewOwner, NewBody;
      DispatchStamps(s1, next.value, now, denied, k);
      DispatchAddsOne(s1, next.value, now, denied);
      ThenDispatched(s, s1, Dispatch(s1, next.value, now, denied), k, now);
    }
  }

  lemma DispatchAddsOne(s: Engine, j: JobId, now: int, denied: set<JobId>)
    requires Dispatchable(s, j)
    ensures forall c :: c in Dispatch(s, j, now, denied).live && c !in s.live ==> c == s.nextCaller
  {
    DispatchShape(s, j, now, denied);
  }

  lemma BodyEndsStamps(s: Engine, c: CallerId, out: Outcome, now: int, lockOk: bool, denied: set<JobId>, k: SessionId)
    requires Inv(s) && c in s.live && s.live[c].phase.Executing?
    ensures Stamps(s, BodyEnds(s, c, out, now, lockOk, denied), k, now)
  {
    var s1 := s.(running := s.running - {s.live[c].job});
    if s.live[c].session.Some? {
      LiveJobChangeKeeps(s, c, s.jobs[s.live[c].job].status, true);
      assert SetStatus(s.jobs, s.live[c].job, s.jobs[s.live[c].job].status) == s.jobs;
      hide Inv;
      ReleaseStamps(s1, c, out, 0, now, lockOk, denied, k);
    } else {
      hide Inv;
      SameStamps(s, BodyEnds(s, c, out, now, lockOk, denied), k, now);
    }
  }

  // ---- sweeps ----

  /** A sweep stamps every lease that it heals. */
  lemma {:induction false} HealStamps(leases: map<SessionId, Lease>, jobs: map<JobId, Job>, order: seq<SessionId>, now: int)
    ensures var healed := Heal(leases, jobs, order, now).0;
      forall k :: k in healed ==> if k in order then healed[k].heartbeatAt == now else k in leases && healed[k] == leases[k]
    decreases |order|
  {
    if order != [] {
      HealStamps(leases, jobs, order[..|order| - 1], now);
      assert order == order[..|order| - 1] + [order[|order| - 1]];
    }
  }

  ghost predicate CallersAreOld(s: Engine) {
    forall c :: c in s.live ==> c < s.nextCaller
  }

  lemma DispatchKeepsOld(s: Engine, j: JobId, now: int, denied: set<JobId>)
    requires Dispatchable(s, j) && CallersAreOld(s)
    ensures CallersAreOld(Dispatch(s, j, now, denied))
  {
    DispatchShape(s, j, now, denied);
  }

  ghost predicate StampsAll(s: Engine, s': Engine, now: int) {
    s'.leases.Keys == s.leases.Keys && forall k :: !NewOwner(s, s', k) && Stamps(s, s', k, now)
  }

  lemma StampsAllTrans(s: Engine, s1: Engine, s2: Engine, now: int)
    requires StampsAll(s, s1, now) && StampsAll(s1, s2, now) && OnlyMore(s, s1) && OnlyMore(s1, s2)
    ensures StampsAll(s, s2, now) && OnlyMore(s, s2)
  {
    forall k ensures !NewOwner(s, s2, k) && Stamps(s, s2, k, now) {
      assert !NewOwner(s, s1, k) && Stamps(s, s1, k, now) && !NewOwner(s1, s2, k) && Stamps(s1, s2, k, now);
      assert NewBody(s, s2, k) <==> NewBody(s, s1, k) || NewBody(s1, s2, k);
    }
  }

  lemma {:induction false} DispatchAllStamps(s: Engine, found: seq<JobId>, now: int, denied: set<JobId>)
    requires CallersAreOld(s) && Distinct(found) && forall j :: j in found ==> ReadyOrRunning(s, j, denied)
    ensures var s' := DispatchAll(s, found, now, denied);
      && StampsAll(s, s', now) && OnlyMore(s, s') && CallersAreOld(s')
      && (forall j :: Owner(s, j) && j !in found ==> Undisturbed(s, s', j))
    decreases |found|
  {
    hide Dispatch, ReadyOrRunning, Undisturbed, Stamps, NewOwner, NewBody;
    if found == [] {
      UndisturbedAtFirst(s);
      NothingStamps(s, now);
    } else {
      var prefix, j := found[..|found| - 1], found[|found| - 1];
      assert found == prefix + [j];
      LastIsNew(prefix, j);
      DispatchAllStamps(s, prefix, now, denied);
      var s1 := DispatchAll(s, prefix, now, denied);
      ReadyIsOwner(s, found, denied);
      RunningUnchanged(s, s1, j, denied);
      if j !in s1.running {
        var s2 := Dispatch(s1, j, now, denied);
        OneMoreStamps(s1, j, now, denied);
        forall i | Owner(s, i) && i !in found ensures Undisturbed(s, s2, i) {
          OwnerStays(s, s1, i);
          DispatchUndisturbs(s1, j, i, now, denied);
          UndisturbedTrans(s, s1, s2, i);
        }
        hide StampsAll, OnlyMore, CallersAreOld, Owner;
        StampsAllTrans(s, s1, s2, now);
      }
    }
  }

  lemma NothingStamps(s: Engine, now: int)
    ensures StampsAll(s, s, now)
  {
  }

  lemma OneMoreStamps(s: Engine, j: JobId, now: int, denied: set<JobId>)
    requires Dispatchable(s, j) && CallersAreOld(s)
    ensures var s' := Dispatch(s, j, now, denied); StampsAll(s, s', now) && OnlyMore(s, s') && CallersAreOld(s')
  {
    DispatchKeepsOld(s, j, now, denied);
    hide Dispatch, Dispatchable, Stamps, NewOwner, NewBody;
    DispatchStamps(s, j, now, denied, 0);
    forall k ensures !NewOwner(s, Dispatch(s, j, now, denied), k) && Stamps(s, Dispatch(s, j, now, denied), k, now) {
      DispatchStamps(s, j, now, denied, k);
    }
  }

  lemma InvMeansOld(s: Engine)
    requires Inv(s)
    ensures CallersAreOld(s)
  {
  }

  /** After a sweep every lease it healed is stamped, and no other. `timers` are those armed after it. */
  lemma FullSweepStamps(s: Engine, timers: seq<nat>, order: seq<SessionId>, now: int, denied: set<JobId>, k: SessionId)
    requires Inv(s) && SweepSafe(s, order, |order|, denied) && s.timers != [] && SweepOrder(s, order)
    ensures var (leases, found) := Heal(s.leases, s.jobs, order, now);
      var s' := DispatchAll(s.(timers := timers, leases := leases), found, now, denied);
      k in s'.leases ==> k in order && s'.leases[k].heartbeatAt == now
  {
    hide Inv, Exclusive, Promises, FoundOwners, ReadyOrRunning, Heal, DispatchAll, SweepSafe, Unfinished, Unstarted, Stamps, Undisturbed;
    SafeMeansUnfinished(s, order, |order|, denied);
    assert order[..|order|] == order;
    var (leases, found) := Heal(s.leases, s.jobs, order, now);
    HealKeeps(s, order, now);
    HealVisits(s.leases, s.jobs, order, now);
    HealStamps(s.leases, s.jobs, order, now);
    var s2, s3 := s.(leases := leases), s.(timers := timers, leases := leases);
    SafetyIgnoresLeases(s, leases, order, |order|, denied);
    SweptAreFound(s2, timers, order, found, denied);
    assert s2.(timers := timers) == s3;
    InvMeansOld(s);
    assert CallersAreOld(s3);
    DispatchAllStamps(s3, found, now, denied);
    var s' := DispatchAll(s3, found, now, denied);
    hide CallersAreOld, OnlyMore, SweepOrder;
    if k in s'.leases {
      assert !NewOwner(s3, s', k) && Stamps(s3, s', k, now);
      StampedTwice(s3, s', k, now);
    }
  }

  lemma StampedTwice(s: Engine, s': Engine, k: SessionId, now: int)
    requires Stamps(s, s', k, now) && k in s'.leases && k in s.leases && s.leases[k].heartbeatAt == now
    ensures s'.leases[k].heartbeatAt == now
  {
  }

  lemma PartialSweepStamps(s: Engine, timers: seq<nat>, order: seq<SessionId>, healed: nat, now: int, k: SessionId)
    requires healed <= |order| && SweepOrder(s, order)
    ensures var s' := s.(timers := timers, leases := Heal(s.leases, s.jobs, order[..healed], now).0);
      k in s'.leases ==> (k in order[..healed] || k in s.leases)
                         && s'.leases[k].heartbeatAt == if k in order[..healed] then now else LeaseOf(s.leases, k).heartbeatAt
  {
    HealStamps(s.leases, s.jobs, order[..healed], now);
  }

  lemma BootSweepStamps(s: Engine, order: seq<SessionId>, healed: nat, now: int, denied: set<JobId>, k: SessionId)
    requires Booted(s) && SweepOrder(s, order) && healed <= |order|
    ensures var s' := RecoverSessionRuns(s, order, healed, now, denied);
      k in s'.leases ==> (k in order[..healed] || k in s.leases)
                         && s'.leases[k].heartbeatAt == if k in order[..healed] then now else LeaseOf(s.leases, k).heartbeatAt
  {
    if healed < |order| {
      hide Heal, SweepOrder;
      PartialSweepStamps(s, s.timers, order, healed, now, k);
    } else {
      var s0 := s.(timers := [0]);
      BootedIsSound(s, [0]);
      assert forall k :: Unfinished(s0, k);
      assert SweepSafe(s0, order, |order|, denied) && order[..|order|] == order;
      hide Inv, Heal, DispatchAll, SweepSafe;
      FullSweepStamps(s0, [], order, now, denied, k);
      assert s0.(timers := [], leases := Heal(s.leases, s.jobs, order, now).0) == s.(leases := Heal(s.leases, s.jobs, order, now).0);
    }
  }

  lemma RecoveryStamps(s: Engine, i: nat, order: seq<SessionId>, healed: nat, now: int, denied: set<JobId>, k: SessionId)
    requires Inv(s) && i < |s.timers| && SweepOrder(s, order) && healed <= |order| && SweepSafe(s, order, healed, denied)
    ensures var s' := RecoveryFires(s, i, order, healed, now, denied);
      k in s'.leases ==> (k in order[..healed] || k in s.leases)
                         && s'.leases[k].heartbeatAt == if k in order[..healed] then now else LeaseOf(s.leases, k).heartbeatAt
  {
    hide Inv, Heal, DispatchAll, SweepSafe;
    var left := s.timers[..i] + s.timers[i + 1..];
    if healed < |order| {
      PartialSweepStamps(s, left + [s.timers[i] + 1], order, healed, now, k);
    } else {
      assert order[..healed] == order;
      FullSweepStamps(s, left, order, now, denied, k);
    }
  }

  // ---- steps ----

  predicate Timed(step: Step) {
    !step.BodyWrote? && !step.Settled? && !step.Cancelling?
  }

  function TimeOf(step: Step): int
    requires Timed(step)
  {
    step.now
  }

  /** What counts as a sign of life of session `k`: its lease gets a new owner, one of its bodies starts, the heartbeat of
      its body goes off, or a sweep gets its lock. Calls of jobs that only join the queue do not. */
  ghost predicate Signs(s: Engine, step: Step, s': Engine, k: SessionId) {
    && Timed(step)
    && match step
       case BootSwept(order, healed, _, _) => healed <= |order| && k in order[..healed]
       case Recovered(_, order, healed, _, _) => healed <= |order| && k in order[..healed]
       case Beating(c, _) => c in s.live && s.live[c].session == Some(k)
       case _ => NewOwner(s, s', k) || NewBody(s, s', k)
  }

  lemma CancelStamps(s: Engine, j: JobId, lockOk: bool, k: SessionId)
    requires LeasesSound(s)
    ensures k in Cancel(s, j, lockOk).leases ==> k in s.leases && Cancel(s, j, lockOk).leases[k].heartbeatAt == s.leases[k].heartbeatAt
  {
    hide SettleParked, SetStatus, Without;
    assert forall out, s1 :: SettleParked(s1, j, out).leases == s1.leases by {
      forall out, s1 ensures SettleParked(s1, j, out).leases == s1.leases { SettledLeases(s1, j, out); }
    }
  }

  lemma SettledLeases(s: Engine, j: JobId, out: Outcome)
    ensures SettleParked(s, j, out).leases == s.leases
  {
  }

  lemma BeatStamps(s: Engine, c: CallerId, now: int, k: SessionId)
    requires Exclusive(s) && c in s.live && s.live[c].session.Some?
    ensures k in Beat(s, c, now).leases ==>
      k in s.leases && Beat(s, c, now).leases[k].heartbeatAt == if s.live[c].session == Some(k) then now else s.leases[k].heartbeatAt
  {
    assert Holds(s, s.live[c].session.value, s.live[c].job);
  }

  /** A step stamps a lease exactly when it is a sign of life. */
  lemma StepStamps(s: Engine, step: Step, k: SessionId)
    requires Inv(s) && Enabled(s, step) && Safe(s, step)
    ensures var s' := Next(s, step);
      k in s'.leases ==> s'.leases[k].heartbeatAt == if Signs(s, step, s', k) then TimeOf(step) else LeaseOf(s.leases, k).heartbeatAt
  {
    assert LeasesSound(s) && Exclusive(s);
    match step
    case BootSwept(order, healed, now, denied) =>
      hide Inv, Exclusive, RecoverSessionRuns;
      BootSweepStamps(s, order, healed, now, denied, k);
    case Triggered(j, now, denied) =>
      hide Inv, Exclusive, Trigger;
      TriggerStamps(s, j, now, denied, k);
    case BodyWrote(_, _, _) =>
    case BodyEnded(c, out, now, lockOk, denied) =>
      hide Inv, Exclusive, BodyEnds;
      BodyEndsStamps(s, c, out, now, lockOk, denied, k);
    case Retried(c, now, lockOk, denied) =>
      ReleasingIsNotRunning(s, c);
      hide Inv, Exclusive, ReleaseAttempt;
      ReleaseStamps(s, c, s.live[c].phase.outcome, s.live[c].phase.attempts, now, lockOk, denied, k);
    case Settled(c) => SettledLeases(s.(dispatches := s.dispatches - {c}), s.dispatches[c], s.answers[c]);
    case Cancelling(j, lockOk) =>
      hide Inv, Exclusive, Cancel;
      CancelStamps(s, j, lockOk, k);
    case Recovered(i, order, healed, now, denied) =>
      hide Inv, Exclusive, RecoveryFires;
      RecoveryStamps(s, i, order, healed, now, denied, k);
    case Beating(c, now) =>
      hide Inv, Beat;
      BeatStamps(s, c, now, k);
  }

  /** And a lease that shows none was there before. */
  lemma UnsignedWasThere(s: Engine, step: Step, k: SessionId)
    requires Inv(s) && Enabled(s, step) && Safe(s, step) && k in Next(s, step).leases && !Signs(s, step, Next(s, step), k)
    ensures k in s.leases
  {
    StepKeeps(s, step);
    assert LeasesSound(Next(s, step));
    match step
    case BootSwept(order, healed, now, denied) => BootSweepStamps(s, order, healed, now, denied, k);
    case Recovered(i, order, healed, now, denied) => RecoveryStamps(s, i, order, healed, now, denied, k);
    case _ => hide Inv; UnstampedWasThere(s, step, k);
  }

  lemma UnstampedWasThere(s: Engine, step: Step, k: SessionId)
    requires Exclusive(s) && Enabled(s, step) && !step.BootSwept? && !step.Recovered?
    requires k in Next(s, step).leases && LeasesSound(Next(s, step)) && !Signs(s, step, Next(s, step), k)
    ensures k in s.leases
  {
    if step.BodyWrote? || step.Settled? {
      if step.Settled? { SettledLeases(s.(dispatches := s.dispatches - {step.caller}), s.dispatches[step.caller], s.answers[step.caller]); }
    } else if step.Cancelling? {
      hide Cancel;
      CancelStamps(s, step.job, step.lockOk, k);
    } else if step.Beating? {
      hide Beat;
      BeatStamps(s, step.caller, step.now, k);
    } else {
      hide Next;
      assert !NewOwner(s, Next(s, step), k);
    }
  }

  // ---- runs ----

  /** When session `k` last showed a sign of life, or what was persisted of that. */
  ghost function LastSign(states: seq<Engine>, steps: seq<Step>, n: nat, k: SessionId): int
    requires n < |states| && n <= |steps|
  {
    if n == 0 then LeaseOf(states[0].leases, k).heartbeatAt
    else if Signs(states[n - 1], steps[n - 1], states[n], k) then TimeOf(steps[n - 1])
    else LastSign(states, steps, n - 1, k)
  }

  lemma {:induction false} HeartbeatIsTheLastSign(states: seq<Engine>, steps: seq<Step>, n: nat, k: SessionId)
    requires IsRun(states, steps) && n < |states| && k in states[n].leases
    ensures states[n].leases[k].heartbeatAt == LastSign(states, steps, n, k)
  {
    if n > 0 {
      RunStep(states, steps, n - 1);
      hide IsRun, Inv, Next, Enabled, Safe, Signs;
      StepStamps(states[n - 1], steps[n - 1], k);
      if !Signs(states[n - 1], steps[n - 1], states[n], k) {
        UnsignedWasThere(states[n - 1], steps[n - 1], k);
        HeartbeatIsTheLastSign(states, steps, n - 1, k);
      }
    }
  }

  /** What becomes of a call of another job than the owner's. */
  lemma RivalCall(s: Engine, k: SessionId, j: JobId, now: int, denied: set<JobId>)
    requires Inv(s) && k in s.leases && OfSession(s, j, k) && s.leases[k].owner != Some(j) && j !in denied
    ensures var s' := Trigger(s, j, now, denied);
      && k in s'.leases
      && if now - s.leases[k].heartbeatAt <= 120_000
         then s'.leases[k].owner == s.leases[k].owner && s'.live == s.live && ParkedOn(s', j, s.nextCaller)
         else s'.leases[k].owner == if s.leases[k].waiters == [] then Some(j) else Some(s.leases[k].waiters[0])
  {
    assert LeasesSound(s) && s.nextCaller !in s.live && s.nextCaller + 1 !in s.live;
    if j in s.running { RunningOwns(s, j); }
    var cur := s.leases[k];
    var (rec, claim) := Acquire(cur, j, now, SELF);
    var s1 := s.(nextCaller := s.nextCaller + 1, leases := PutLease(s.leases, k, rec));
    AcquireStamps(cur, j, now);
    if claim.Queued? && claim.promoted.Some? {
      var p := claim.promoted.value;
      assert p in cur.waiters;
      WaiterIsNotRunning(s, k, p);
      hide Inv, Trigger;
      StaleClaimShape(s, s1, j, k, p, now, denied);
      assert Dispatchable(s1, p);
      hide Dispatchable, Acquire;
      DispatchFrame(s1, p, now, denied);
    } else {
      hide Inv, Trigger;
      ClaimShape(s, s1, j, k, claim, now, denied);
      if claim.Queued? {
        hide Acquire;
        QueuedIsParked(s, s1, j, now, denied, claim);
      }
    }
  }

  lemma RunningOwns(s: Engine, j: JobId)
    requires Exclusive(s) && j in s.running && j in s.jobs && s.jobs[j].session.Some?
    ensures Holds(s, s.jobs[j].session.value, j)
  {
    assert HasBody(s, j);
  }

  lemma QueuedIsParked(s: Engine, s1: Engine, j: JobId, now: int, denied: set<JobId>, claim: Claim)
    requires j in s.jobs && j !in s.running && s.jobs[j].session.Some? && j !in denied && claim == Queued(None)
    requires claim == Acquire(LeaseOf(s.leases, s.jobs[j].session.value), j, now, SELF).1
    ensures ParkedOn(Trigger(s, j, now, denied), j, s.nextCaller)
  {
    hide Acquire;
  }

  /** Over every run, a call of another job of the session takes the lease from its owner, for itself or for the first in
      line, exactly if the session has shown no sign of life for more than two minutes; else its caller is parked, and no
      body starts. */
  lemma LeasePassesExactlyWhenSilent(states: seq<Engine>, steps: seq<Step>, n: nat, k: SessionId, j: JobId, now: int, denied: set<JobId>)
    requires IsRun(states, steps) && n < |states| && k in states[n].leases
    requires OfSession(states[n], j, k) && states[n].leases[k].owner != Some(j) && j !in denied
    ensures var s, s' := states[n], Trigger(states[n], j, now, denied);
      && k in s'.leases
      && (s'.leases[k].owner == s.leases[k].owner <==> now - LastSign(states, steps, n, k) <= 120_000)
      && (s'.leases[k].owner == s.leases[k].owner ==> s'.live == s.live && ParkedOn(s', j, s.nextCaller))
      && (s'.leases[k].owner != s.leases[k].owner ==>
            s'.leases[k].owner == if s.leases[k].waiters == [] then Some(j) else Some(s.leases[k].waiters[0]))
  {
    RunKeepsInv(states, steps, n);
    HeartbeatIsTheLastSign(states, steps, n, k);
    var s := states[n];
    assert LeasesSound(s);
    assert s.leases[k].owner.Some? && ValidLease(s.leases[k]);
    assert s.leases[k].waiters != [] ==> s.leases[k].waiters[0] in s.leases[k].waiters;
    hide IsRun, Inv, Trigger, LastSign;
    RivalCall(s, k, j, now, denied);
  }

  /** Time does not run backwards. */
  ghost predicate Clocked(steps: seq<Step>) {
    forall i, j :: 0 <= i < j < |steps| && Timed(steps[i]) && Timed(steps[j]) ==> TimeOf(steps[i]) <= TimeOf(steps[j])
  }

  /** Step `i` is the claim of the activation `c`, or a heartbeat of it. */
  ghost predicate LifeOf(states: seq<Engine>, steps: seq<Step>, i: nat, c: CallerId)
    requires i < |steps| && |states| == |steps| + 1
  {
    && Timed(steps[i]) && c in states[i + 1].live
    && (c !in states[i].live || (steps[i].Beating? && steps[i].caller == c))
  }

  lemma {:induction false} SignsOnlyGetLater(states: seq<Engine>, steps: seq<Step>, i: nat, n: nat, k: SessionId)
    requires |states| == |steps| + 1 && i < n < |states| && Clocked(steps) && Timed(steps[i]) && Signs(states[i], steps[i], states[i + 1], k)
    ensures LastSign(states, steps, n, k) >= TimeOf(steps[i])
    decreases n - i
  {
    assert Signs(states[n - 1], steps[n - 1], states[n], k) ==> Timed(steps[n - 1]);
    hide Signs;
    if i + 1 < n { SignsOnlyGetLater(states, steps, i, n - 1, k); }
  }

  /** A body that a sweep starts is of a session that it healed. */
  lemma SweptStarts(s: Engine, step: Step, k: SessionId, c: CallerId)
    requires Inv(s) && Enabled(s, step) && Safe(s, step) && (step.BootSwept? || step.Recovered?) && k in Next(s, step).leases
    requires c in Next(s, step).live && c !in s.live
    ensures k in step.order[..step.healed]
  {
    hide Inv, Heal, DispatchAll, Booted;
    assert step.healed == |step.order| && step.order[..step.healed] == step.order;
    hide RecoverSessionRuns, RecoveryFires;
    if step.BootSwept? {
      BootSweepStamps(s, step.order, step.healed, step.now, step.denied, k);
    } else {
      RecoveryStamps(s, step.timer, step.order, step.healed, step.now, step.denied, k);
    }
  }

  lemma StartSigns(s: Engine, step: Step, s': Engine, c: CallerId, k: SessionId)
    requires Timed(step) && c in s'.live && s'.live[c].session == Some(k) && c !in s.live
    requires step.BootSwept? || step.Recovered? ==> step.healed <= |step.order| && k in step.order[..step.healed]
    requires !step.Beating?
    ensures Signs(s, step, s', k)
  {
    assert NewBody(s, s', k);
  }

  /** A claim is a sign of life, and so is a heartbeat. */
  lemma LifeSigns(states: seq<Engine>, steps: seq<Step>, i: nat, c: CallerId, k: SessionId)
    requires IsRun(states, steps) && i < |steps| && LifeOf(states, steps, i, c) && states[i + 1].live[c].session == Some(k)
    ensures Signs(states[i], steps[i], states[i + 1], k)
  {
    RunStep(states, steps, i);
    RunKeepsInv(states, steps, i + 1);
    var s, step, s' := states[i], steps[i], states[i + 1];
    assert Holds(s', k, s'.live[c].job);
    assert k in s'.leases;
    hide IsRun, Inv, Holds, Safe;
    if step.Beating? {
      hide Heartbeat, PutLease;
      assert s'.live == s.live;
    } else {
      if step.BootSwept? || step.Recovered? { SweptStarts(s, step, k, c); }
      hide Next;
      StartSigns(s, step, s', c, k);
    }
  }

  /** As long as a live body's heartbeat goes off every two minutes, a call of another job of its session changes nothing
      but to join the queue: the lease stays, no body starts, the caller is parked. */
  lemma BeatingKeepsTheLease(states: seq<Engine>, steps: seq<Step>, i: nat, n: nat, c: CallerId, j: JobId, now: int, denied: set<JobId>)
    requires IsRun(states, steps) && Clocked(steps) && i < n < |states| && LifeOf(states, steps, i, c) && c in states[n].live
    requires states[i + 1].live[c].session.Some? && states[i + 1].live[c].session == states[n].live[c].session
    requires OfSession(states[n], j, states[n].live[c].session.value) && j != states[n].live[c].job && j !in denied
    requires now - TimeOf(steps[i]) <= 120_000
    ensures var s, s', k := states[n], Trigger(states[n], j, now, denied), states[n].live[c].session.value;
      && k in s'.leases && s'.leases[k].owner == Some(s.live[c].job) && s'.live == s.live && ParkedOn(s', j, s.nextCaller)
  {
    var k := states[n].live[c].session.value;
    RunKeepsInv(states, steps, n);
    assert Holds(states[n], k, states[n].live[c].job);
    LifeSigns(states, steps, i, c, k);
    SignsOnlyGetLater(states, steps, i, n, k);
    hide Inv, Trigger, LastSign, LifeOf, Signs;
    LeasePassesExactlyWhenSilent(states, steps, n, k, j, now, denied);
  }
}
