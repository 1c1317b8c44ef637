/**
 What every step of the session lease lifecycle keeps: one live body per session, which is the lease
 owner's; no caller lost or answered twice.
 */
module SessionLeaseProof {
  import opened Options
  import opened SessionRunQueue
  import opened SessionLease

  // ---- the invariant ----

  ghost predicate OfSession(s: Engine, j: JobId, k: SessionId) {
    j in s.jobs && s.jobs[j].session == Some(k)
  }

  ghost predicate LeasesSound(s: Engine) {
    forall k :: k in s.leases ==>
      && ValidLease(s.leases[k]) && s.leases[k].owner.Some?
      && OfSession(s, s.leases[k].owner.value, k)
      && (forall j :: j in s.leases[k].waiters ==> OfSession(s, j, k))
  }

  ghost predicate Holds(s: Engine, k: SessionId, j: JobId) {
    k in s.leases && s.leases[k].owner == Some(j) && s.leases[k].token == Some(SELF)
  }

  /** Every live activation holds its session's lease; only those have a release to retry. */
  ghost predicate BodiesOwn(s: Engine) {
    forall c :: c in s.live ==>
      && s.live[c].job in s.jobs && s.live[c].session == s.jobs[s.live[c].job].session
      && (s.live[c].phase.Releasing? ==> s.live[c].session.Some?)
      && (s.live[c].session.Some? ==> Holds(s, s.live[c].session.value, s.live[c].job))
  }

  /** At most one live activation per session. */
  ghost predicate OneBody(s: Engine) {
    forall c, d :: c in s.live && d in s.live && s.live[c].session.Some? && s.live[c].session == s.live[d].session ==> c == d
  }

  ghost predicate HasBody(s: Engine, j: JobId) {
    exists c :: c in s.live && s.live[c].job == j && s.live[c].phase.Executing?
  }

  ghost predicate RunningHasBody(s: Engine) {
    forall j :: j in s.running ==> HasBody(s, j)
  }

  ghost predicate SessionLive(s: Engine, k: SessionId) {
    exists c :: c in s.live && s.live[c].session == Some(k)
  }

  ghost predicate Waiting(s: Engine, j: JobId) {
    && j in s.jobs && s.jobs[j].session.Some? && !Terminal(s.jobs[j].status)
    && s.jobs[j].session.value in s.leases && j in s.leases[s.jobs[j].session.value].waiters
  }

  /** A dispatched run of `j` has yet to hand its answer to the callers parked on `j`. */
  ghost predicate Promised(s: Engine, j: JobId) {
    exists c :: c in s.dispatches && s.dispatches[c] == j
  }

  /** Promoted by a sweep that then lost the lock: the next sweep dispatches it. */
  ghost predicate AwaitsSweep(s: Engine, j: JobId) {
    && j in s.jobs && s.jobs[j].session.Some? && !Terminal(s.jobs[j].status)
    && s.jobs[j].session.value in s.leases && s.leases[s.jobs[j].session.value].owner == Some(j)
    && !SessionLive(s, s.jobs[j].session.value) && s.timers != []
  }

  ghost predicate Accounted(s: Engine, j: JobId) {
    Waiting(s, j) || Promised(s, j) || AwaitsSweep(s, j)
  }

  ghost predicate ParkedAccounted(s: Engine, exempt: set<JobId>) {
    forall j :: j in s.parked && j !in exempt ==> Accounted(s, j)
  }

  ghost predicate ParkedOn(s: Engine, j: JobId, c: CallerId) {
    j in s.parked && c in s.parked[j]
  }

  ghost predicate InPark(s: Engine, c: CallerId) {
    exists j :: ParkedOn(s, j, c)
  }

  /** Each caller so far is answered, answered by a live activation, or parked: in exactly one place, once.
      `loose` holds the callers a step has created but not placed yet. */
  ghost predicate CallersPlaced(s: Engine, loose: set<CallerId>) {
    && (forall c :: c in s.answers ==> c < s.nextCaller && c !in s.live && c !in loose)
    && (forall c :: c in s.live ==> c < s.nextCaller && c !in loose)
    && (forall c :: c in loose ==> c < s.nextCaller)
    && (forall j: JobId, c: CallerId :: ParkedOn(s, j, c) ==> c < s.nextCaller && c !in s.answers && c !in s.live && c !in loose)
    && (forall j: JobId, j': JobId, c: CallerId :: ParkedOn(s, j, c) && ParkedOn(s, j', c) ==> j == j')
    && (forall j :: j in s.parked ==> Distinct(s.parked[j]))
    && (forall c: CallerId :: c < s.nextCaller ==> c in s.answers || c in s.live || c in loose || InPark(s, c))
  }

  ghost predicate DispatchesPending(s: Engine, loose: set<CallerId>) {
    forall c :: c in s.dispatches ==> c in s.answers || c in loose || (c in s.live && s.live[c].job == s.dispatches[c])
  }

  /** The half about bodies and leases. */
  ghost predicate Exclusive(s: Engine) {
    LeasesSound(s) && BodiesOwn(s) && OneBody(s) && RunningHasBody(s)
  }

  /** The half about promises. */
  ghost predicate Promises(s: Engine, exempt: set<JobId>, loose: set<CallerId>) {
    ParkedAccounted(s, exempt) && CallersPlaced(s, loose) && DispatchesPending(s, loose)
  }

  ghost predicate Inv(s: Engine) {
    Exclusive(s) && Promises(s, {}, {})
  }

  /** The engine after a restart: leases and jobs as persisted, nothing in memory. */
  ghost predicate Booted(s: Engine) {
    && LeasesSound(s) && s.running == {} && s.parked == map[] && s.live == map[] && s.dispatches == map[]
    && s.answers == map[] && s.timers == [] && s.nextCaller == 0
  }

  /** No promise that has settled settles again. */
  ghost predicate AnswersKept(s: Engine, s': Engine) {
    forall c :: c in s.answers ==> c in s'.answers && s'.answers[c] == s.answers[c]
  }

  ghost predicate SameSessions(s: Engine, s': Engine) {
    s'.jobs.Keys == s.jobs.Keys && forall j :: j in s.jobs ==> s'.jobs[j].session == s.jobs[j].session
  }

  // ---- building blocks ----

  lemma ExclusiveFrame(s: Engine, s': Engine)
    requires Exclusive(s) && SameSessions(s, s')
    requires s'.leases == s.leases && s'.live == s.live && s'.running <= s.running
    ensures Exclusive(s')
  {
    forall j | j in s'.running ensures HasBody(s', j) {
      assert HasBody(s, j);
    }
  }

  lemma SameParkedOn(s: Engine, s': Engine)
    requires s'.parked == s.parked
    ensures forall j, c :: ParkedOn(s', j, c) <==> ParkedOn(s, j, c)
    ensures forall c :: InPark(s', c) <==> InPark(s, c)
  {
    forall c ensures InPark(s', c) <==> InPark(s, c) {
      if j :| ParkedOn(s, j, c) { assert ParkedOn(s', j, c); }
      if j :| ParkedOn(s', j, c) { assert ParkedOn(s, j, c); }
    }
  }

  lemma AnswerKeepsPromises(s: Engine, c: CallerId, out: Outcome, exempt: set<JobId>, loose: set<CallerId>)
    requires Promises(s, exempt, loose) && c in loose
    ensures Promises(Answer(s, c, out), exempt, loose - {c}) && AnswersKept(s, Answer(s, c, out))
  {
    var s' := Answer(s, c, out);
    SameParkedOn(s, s');
    forall j | j in s.parked && j !in exempt ensures Accounted(s', j) { assert Accounted(s, j); }
  }

  lemma SettleParkedKeepsPlaces(s: Engine, j: JobId, out: Outcome, loose: set<CallerId>)
    requires CallersPlaced(s, loose) && j in s.parked
    ensures CallersPlaced(SettleParked(s, j, out), loose) && AnswersKept(s, SettleParked(s, j, out))
    ensures forall c :: c in s.parked[j] ==> SettleParked(s, j, out).answers[c] == out
  {
    var s' := SettleParked(s, j, out);
    assert forall c :: c in s'.answers <==> c in s.answers || ParkedOn(s, j, c);
    assert forall c :: c in s.answers ==> !ParkedOn(s, j, c);
    assert forall i, c :: ParkedOn(s', i, c) <==> ParkedOn(s, i, c) && i != j;
    forall d: CallerId | d < s'.nextCaller ensures d in s'.answers || d in s'.live || d in loose || InPark(s', d) {
      if InPark(s, d) {
        var i :| ParkedOn(s, i, d);
        assert i == j || ParkedOn(s', i, d);
      }
    }
  }

  lemma SettleParkedKeepsPromises(s: Engine, j: JobId, out: Outcome, exempt: set<JobId>, loose: set<CallerId>)
    requires Promises(s, exempt + {j}, loose)
    ensures Promises(SettleParked(s, j, out), exempt, loose) && AnswersKept(s, SettleParked(s, j, out))
  {
    var s' := SettleParked(s, j, out);
    if j in s.parked { SettleParkedKeepsPlaces(s, j, out, loose); }
    forall i | i in s'.parked && i !in exempt ensures Accounted(s', i) { assert Accounted(s, i); }
  }

  /** Parking a caller on a job that waits. A dispatched run's caller never parks. */
  lemma ParkKeepsPromises(s: Engine, j: JobId, c: CallerId, exempt: set<JobId>, loose: set<CallerId>)
    requires Promises(s, exempt + {j}, loose) && c in loose && c !in s.dispatches
    requires j in s.jobs && s.jobs[j].session.Some? && s.jobs[j].session.value in s.leases
    requires j in s.leases[s.jobs[j].session.value].waiters
    ensures Promises(Park(s, j, c), exempt, loose - {c}) && AnswersKept(s, Park(s, j, c))
  {
    var s' := Park(s, j, c);
    var before := if j in s.parked then s.parked[j] else [];
    assert forall i, d :: ParkedOn(s', i, d) <==> ParkedOn(s, i, d) || (i == j && d == c);
    assert c !in before by { assert j in s.parked ==> !ParkedOn(s, j, c); }
    EnqueueKeepsDistinct(before, c);
    forall d: CallerId | d < s'.nextCaller ensures d in s'.answers || d in s'.live || d in loose - {c} || InPark(s', d) {
      if d == c {
        assert ParkedOn(s', j, c);
      } else if InPark(s, d) {
        var i :| ParkedOn(s, i, d);
        assert ParkedOn(s', i, d);
      }
    }
    forall i | i in s'.parked && i !in exempt ensures Accounted(s', i) {
      if i != j { assert Accounted(s, i); }
    }
  }

  lemma ExecuteKeepsExclusive(s: Engine, j: JobId, session: Option<SessionId>, c: CallerId)
    requires Exclusive(s) && j in s.jobs && s.jobs[j].session == session && c !in s.live
    requires session.Some? ==> Holds(s, session.value, j) && !SessionLive(s, session.value)
    ensures Exclusive(Execute(s, j, session, c))
  {
    var s' := Execute(s, j, session, c);
    forall i | i in s'.running ensures HasBody(s', i) {
      if i == j {
        assert s'.live[c].job == j;
      } else {
        assert HasBody(s, i);
        var d :| d in s.live && s.live[d].job == i && s.live[d].phase.Executing?;
        assert d in s'.live && s'.live[d] == s.live[d];
      }
    }
  }

  lemma ExecuteKeepsPromises(s: Engine, j: JobId, session: Option<SessionId>, c: CallerId, exempt: set<JobId>, loose: set<CallerId>)
    requires Promises(s, exempt, loose) && c in loose && (c in s.dispatches ==> s.dispatches[c] == j)
    requires j in s.jobs && s.jobs[j].session == session
    requires session.Some? ==> session.value in s.leases && s.leases[session.value].owner == Some(j)
    requires j in s.parked ==> j in exempt || Promised(s, j) || Waiting(s, j)
    ensures Promises(Execute(s, j, session, c), exempt, loose - {c})
  {
    var s' := Execute(s, j, session, c);
    SameParkedOn(s, s');
    forall i | i in s'.parked && i !in exempt ensures Accounted(s', i) {
      assert Accounted(s, i);
      if !Waiting(s, i) && !Promised(s, i) {
        assert !SessionLive(s', s.jobs[i].session.value);
      }
    }
  }

  // ---- dispatching the head of a line ----

  /** `j` heads its session's line in this process and nothing of that session is live. */
  ghost predicate Dispatchable(s: Engine, j: JobId) {
    && j in s.jobs && s.jobs[j].session.Some? && s.jobs[j].session.value in s.leases
    && s.leases[s.jobs[j].session.value].owner == Some(j)
    && s.leases[s.jobs[j].session.value].token in {None, Some(SELF)}
    && j !in s.running
  }

  function Registered(s: Engine, j: JobId): Engine {
    s.(nextCaller := s.nextCaller + 1, dispatches := s.dispatches[s.nextCaller := j])
  }

  function Claimed(s: Engine, k: SessionId, now: int): Engine
    requires k in s.leases
  {
    s.(leases := s.leases[k := s.leases[k].(token := Some(SELF), heartbeatAt := now)])
  }

  /** Dispatching the head of a line claims the lease again and starts the body in the same stretch. */
  lemma DispatchShape(s: Engine, j: JobId, now: int, denied: set<JobId>)
    requires Dispatchable(s, j)
    ensures Dispatch(s, j, now, denied) ==
            if j in denied then ClaimDenied(Registered(s, j), j, s.nextCaller)
            else Execute(Claimed(Registered(s, j), s.jobs[j].session.value, now), j, s.jobs[j].session, s.nextCaller)
  {
  }

  /** What dispatching the head `j` of a line leaves alone. */
  lemma DispatchFrame(s: Engine, j: JobId, now: int, denied: set<JobId>)
    requires Dispatchable(s, j) && s.nextCaller !in s.live
    ensures var s' := Dispatch(s, j, now, denied);
      && SameSessions(s, s') && s'.leases.Keys == s.leases.Keys
      && (forall k :: k in s.leases ==> s'.leases[k].owner == s.leases[k].owner && s'.leases[k].waiters == s.leases[k].waiters)
      && (forall c :: c in s.live ==> c in s'.live && s'.live[c] == s.live[c])
      && (forall i :: i in s.parked && i != j ==> i in s'.parked)
      && s'.dispatches == s.dispatches[s.nextCaller := j] && s'.timers == s.timers
      && (j !in denied ==> s.nextCaller in s'.live && s'.live[s.nextCaller].session == s.jobs[j].session)
  {
    DispatchShape(s, j, now, denied);
  }

  lemma RegisterKeeps(s: Engine, j: JobId, exempt: set<JobId>, loose: set<CallerId>)
    requires Exclusive(s) && Promises(s, exempt + {j}, loose)
    ensures Exclusive(Registered(s, j)) && Promises(Registered(s, j), exempt, loose + {s.nextCaller})
    ensures Promised(Registered(s, j), j)
  {
    var s' := Registered(s, j);
    SameParkedOn(s, s');
    ExclusiveFrame(s, s');
    assert s'.dispatches[s.nextCaller] == j;
    forall c | c in s.dispatches ensures c != s.nextCaller { }
    assert forall i :: Promised(s, i) ==> Promised(s', i) by {
      forall i | Promised(s, i) ensures Promised(s', i) {
        var c :| c in s.dispatches && s.dispatches[c] == i;
        assert c in s'.dispatches && s'.dispatches[c] == i;
      }
    }
    forall i | i in s'.parked && i !in exempt ensures Accounted(s', i) {
      if i != j { assert Accounted(s, i); }
    }
  }

  lemma ClaimKeeps(s: Engine, k: SessionId, now: int, exempt: set<JobId>, loose: set<CallerId>)
    requires Exclusive(s) && Promises(s, exempt, loose) && k in s.leases
    ensures Exclusive(Claimed(s, k, now)) && Promises(Claimed(s, k, now), exempt, loose)
  {
    var s' := Claimed(s, k, now);
    SameParkedOn(s, s');
    forall j | j in s'.running ensures HasBody(s', j) { assert HasBody(s, j); }
    forall i | i in s'.parked && i !in exempt ensures Accounted(s', i) { assert Accounted(s, i); }
  }

  lemma StatusKeepsPromises(s: Engine, j: JobId, status: Status, running: set<JobId>, exempt: set<JobId>, loose: set<CallerId>)
    requires Promises(s, exempt, loose) && (j in s.parked ==> j in exempt || Promised(s, j))
    ensures Promises(s.(jobs := SetStatus(s.jobs, j, status), running := running), exempt, loose)
  {
    var s' := s.(jobs := SetStatus(s.jobs, j, status), running := running);
    SameParkedOn(s, s');
    forall i | i in s'.parked && i !in exempt ensures Accounted(s', i) {
      assert Accounted(s, i);
      assert Promised(s, i) ==> Promised(s', i);
      assert AwaitsSweep(s, i) && i != j ==> AwaitsSweep(s', i);
    }
  }

  lemma ClaimDeniedKeeps(s: Engine, j: JobId, c: CallerId, exempt: set<JobId>, loose: set<CallerId>)
    requires Exclusive(s) && Promises(s, exempt + {j}, loose) && c in loose
    ensures Exclusive(ClaimDenied(s, j, c)) && Promises(ClaimDenied(s, j, c), exempt, loose - {c})
    ensures AnswersKept(s, ClaimDenied(s, j, c))
  {
    var s1 := s.(jobs := SetStatus(s.jobs, j, Failed));
    assert SameSessions(s, s1);
    ExclusiveFrame(s, ClaimDenied(s, j, c));
    hide Exclusive, Promises, SetStatus, Accounted, Promised, SameSessions;
    StatusKeepsPromises(s, j, Failed, s.running, exempt + {j}, loose);
    assert s1 == s.(jobs := SetStatus(s.jobs, j, Failed), running := s.running);
    SettleParkedKeepsPromises(s1, j, Finished(Failed), exempt, loose);
    AnswerKeepsPromises(SettleParked(s1, j, Finished(Failed)), c, Finished(Failed), exempt, loose);
  }

  lemma DispatchKeeps(s: Engine, j: JobId, now: int, denied: set<JobId>, exempt: set<JobId>, loose: set<CallerId>)
    requires Exclusive(s) && Promises(s, exempt + {j}, loose) && Dispatchable(s, j)
    requires (j in denied || !SessionLive(s, s.jobs[j].session.value)) && s.nextCaller !in loose
    ensures var s' := Dispatch(s, j, now, denied);
      Exclusive(s') && Promises(s', exempt, loose) && AnswersKept(s, s')
  {
    DispatchShape(s, j, now, denied);
    var s1 := Registered(s, j);
    var c := s.nextCaller;
    RegisterKeeps(s, j, exempt, loose);
    assert loose + {c} - {c} == loose;
    if j in denied {
      ClaimDeniedKeeps(s1, j, c, exempt, loose + {c});
    } else {
      var k := s.jobs[j].session.value;
      ClaimKeeps(s1, k, now, exempt, loose + {c});
      var s2 := Claimed(s1, k, now);
      assert s2.dispatches[c] == j && Promised(s2, j);
      ExecuteKeepsExclusive(s2, j, Some(k), c);
      ExecuteKeepsPromises(s2, j, Some(k), c, exempt, loose + {c});
    }
  }

  // ---- one session's lease changes ----

  ghost predicate SoundFor(s: Engine, k: SessionId, rec: Lease) {
    && ValidLease(rec) && (IsEmpty(rec) || rec.owner.Some?)
    && (rec.owner.Some? ==> OfSession(s, rec.owner.value, k))
    && (forall j :: j in rec.waiters ==> OfSession(s, j, k))
  }

  lemma LeaseChangeKeeps(s: Engine, k: SessionId, rec: Lease, exempt: set<JobId>, exempt': set<JobId>, loose: set<CallerId>)
    requires Exclusive(s) && Promises(s, exempt, loose) && SoundFor(s, k, rec)
    requires SessionLive(s, k) ==> k in s.leases && rec.owner == s.leases[k].owner && rec.token == s.leases[k].token
    requires forall j :: j in s.parked && j !in exempt' ==>
      if OfSession(s, j, k) then Accounted(s.(leases := PutLease(s.leases, k, rec)), j) else j !in exempt
    ensures var s' := s.(leases := PutLease(s.leases, k, rec)); Exclusive(s') && Promises(s', exempt', loose)
  {
    var s' := s.(leases := PutLease(s.leases, k, rec));
    LeaseChangeKeepsExclusive(s, k, rec);
    SameParkedOn(s, s');
    hide Exclusive, SoundFor, ParkedOn;
    forall i | i in s'.parked && i !in exempt' ensures Accounted(s', i) {
      if !OfSession(s, i, k) {
        assert Accounted(s, i);
        if AwaitsSweep(s, i) { assert AwaitsSweep(s', i); }
      }
    }
  }

  lemma LeaseChangeKeepsExclusive(s: Engine, k: SessionId, rec: Lease)
    requires Exclusive(s) && SoundFor(s, k, rec)
    requires SessionLive(s, k) ==> k in s.leases && rec.owner == s.leases[k].owner && rec.token == s.leases[k].token
    ensures Exclusive(s.(leases := PutLease(s.leases, k, rec)))
  {
    var s' := s.(leases := PutLease(s.leases, k, rec));
    forall j | j in s'.running ensures HasBody(s', j) { assert HasBody(s, j); }
    forall c | c in s.live && s.live[c].session == Some(k) ensures Holds(s', k, s.live[c].job) {
      assert SessionLive(s, k);
      assert Holds(s, k, s.live[c].job);
    }
  }

  // ---- an outside trigger ----

  /** What an outside call of `run` must not meet. The claim would pass to `j`, or past a stale owner, while
      an activation of the session is still live, or while callers parked on the job concerned have no
      dispatched run to answer them. */
  ghost predicate TriggerSafe(s: Engine, j: JobId, now: int) {
    j in s.jobs && j !in s.running && s.jobs[j].session.Some? && s.jobs[j].session.value in s.leases ==>
      var k := s.jobs[j].session.value;
      var rec := s.leases[k];
      var claim := Acquire(rec, j, now, SELF).1;
      && (rec.owner == Some(j) && !claim.Contended? ==> !SessionLive(s, k))
      && (rec.owner.Some? && rec.owner != Some(j) && IsStale(rec, now) ==>
            !SessionLive(s, k) && (rec.owner.value in s.parked ==> Promised(s, rec.owner.value)))
      && (claim in {Acquired, Owned} && j in s.parked ==> Promised(s, j))
  }

  /** A newcomer meets a stale owner with a queue behind it: the first waiter becomes the owner. */
  lemma StaleReclaimKeeps(s: Engine, j: JobId, k: SessionId, now: int, loose: set<CallerId>)
    requires Exclusive(s) && Promises(s, {}, loose) && OfSession(s, j, k) && k in s.leases && !SessionLive(s, k)
    requires s.leases[k].owner.value in s.parked ==> Promised(s, s.leases[k].owner.value)
    requires s.leases[k].owner != Some(j) && IsStale(s.leases[k], now) && s.leases[k].waiters != [] && s.leases[k].waiters[0] != j
    ensures var p := s.leases[k].waiters[0];
      var s1 := s.(leases := PutLease(s.leases, k, Acquire(s.leases[k], j, now, SELF).0));
      && Exclusive(s1) && Promises(s1, {p}, loose)
      && k in s1.leases && j in s1.leases[k].waiters && Dispatchable(s1, p) && !SessionLive(s1, k) && OfSession(s1, p, k)
  {
    var cur := s.leases[k];
    var rec := Acquire(cur, j, now, SELF).0;
    AcquireJoinsTheLine(cur, j, now, SELF);
    var p := cur.waiters[0];
    assert cur.waiters == [p] + cur.waiters[1..];
    var s1 := s.(leases := PutLease(s.leases, k, rec));
    forall i | i in s.parked && i != p && OfSession(s, i, k) ensures Accounted(s1, i) {
      assert Accounted(s, i);
      if !Waiting(s, i) {
        assert Promised(s, i);
        assert Promised(s1, i);
      }
    }
    LeaseChangeKeeps(s, k, rec, {}, {p}, loose);
    assert !HasBody(s, p) by { assert HasBody(s, p) ==> SessionLive(s, k); }
  }

  /** The promoted waiter is dispatched, the newcomer parks. */
  lemma StaleQueueKeeps(s: Engine, j: JobId, k: SessionId, c: CallerId, now: int, denied: set<JobId>)
    requires Exclusive(s) && Promises(s, {}, {c}) && c !in s.dispatches && c < s.nextCaller
    requires OfSession(s, j, k) && k in s.leases && !SessionLive(s, k)
    requires s.leases[k].owner.value in s.parked ==> Promised(s, s.leases[k].owner.value)
    requires s.leases[k].owner != Some(j) && IsStale(s.leases[k], now) && s.leases[k].waiters != [] && s.leases[k].waiters[0] != j
    ensures var s1 := s.(leases := PutLease(s.leases, k, Acquire(s.leases[k], j, now, SELF).0));
      var s' := Park(Dispatch(s1, s.leases[k].waiters[0], now, denied), j, c);
      s.leases[k].waiters[0] !in s1.running && Inv(s') && AnswersKept(s, s')
  {
    var p := s.leases[k].waiters[0];
    var s1 := s.(leases := PutLease(s.leases, k, Acquire(s.leases[k], j, now, SELF).0));
    StaleReclaimKeeps(s, j, k, now, {c});
    assert {} + {p} == {p};
    assert p !in s1.running && s1.jobs[p].session == Some(k) && s1.nextCaller == s.nextCaller && s1.dispatches == s.dispatches;
    LooseIsNew(s1, {p}, c);
    hide *;
    StaleDispatchParks(s1, p, j, k, c, now, denied);
  }

  lemma LooseIsNew(s: Engine, exempt: set<JobId>, c: CallerId)
    requires Promises(s, exempt, {c})
    ensures s.nextCaller != c && s.nextCaller !in s.live
  {
  }

  lemma StaleDispatchParks(s: Engine, p: JobId, j: JobId, k: SessionId, c: CallerId, now: int, denied: set<JobId>)
    requires Exclusive(s) && Promises(s, {} + {p}, {c}) && Dispatchable(s, p) && OfSession(s, p, k) && !SessionLive(s, k)
    requires OfSession(s, j, k) && k in s.leases && j in s.leases[k].waiters && c !in s.dispatches && s.nextCaller != c && s.nextCaller !in s.live
    ensures var s' := Park(Dispatch(s, p, now, denied), j, c); Inv(s') && AnswersKept(s, s')
  {
    hide Exclusive, Promises, Dispatch, SessionLive, Park;
    DispatchKeeps(s, p, now, denied, {}, {c});
    DispatchFrame(s, p, now, denied);
    ParkKeeps(Dispatch(s, p, now, denied), j, c);
  }

  /** A live owner: the newcomer waits. */
  lemma LiveQueueKeeps(s: Engine, j: JobId, c: CallerId, now: int)
    requires Exclusive(s) && Promises(s, {}, {c}) && c !in s.dispatches
    requires j in s.jobs && s.jobs[j].session.Some? && s.jobs[j].session.value in s.leases
    requires var k := s.jobs[j].session.value; s.leases[k].owner != Some(j) && !IsStale(s.leases[k], now)
    ensures var k := s.jobs[j].session.value;
      var s' := Park(s.(leases := PutLease(s.leases, k, Acquire(s.leases[k], j, now, SELF).0)), j, c);
      Inv(s') && AnswersKept(s, s')
  {
    var k := s.jobs[j].session.value;
    var cur := s.leases[k];
    var rec := Acquire(cur, j, now, SELF).0;
    AcquireJoinsTheLine(cur, j, now, SELF);
    var s1 := s.(leases := PutLease(s.leases, k, rec));
    forall i | i in s.parked && OfSession(s, i, k) ensures Accounted(s1, i) {
      assert Accounted(s, i);
      assert Promised(s, i) ==> Promised(s1, i);
    }
    LeaseChangeKeeps(s, k, rec, {}, {}, {c});
    ParkKeeps(s1, j, c);
  }

  lemma ParkKeeps(s: Engine, j: JobId, c: CallerId)
    requires Exclusive(s) && Promises(s, {}, {c}) && c !in s.dispatches
    requires j in s.jobs && s.jobs[j].session.Some? && s.jobs[j].session.value in s.leases
    requires j in s.leases[s.jobs[j].session.value].waiters
    ensures Inv(Park(s, j, c)) && AnswersKept(s, Park(s, j, c))
  {
    ExclusiveFrame(s, Park(s, j, c));
    ParkKeepsPromises(s, j, c, {}, {c});
  }

  /** The lease passes to `j` itself: it was free, or stale with nobody ahead of `j`, or already `j`'s. */
  lemma GrantKeeps(s: Engine, j: JobId, k: SessionId, now: int, loose: set<CallerId>)
    requires Exclusive(s) && Promises(s, {}, loose) && OfSession(s, j, k) && !SessionLive(s, k)
    requires j in s.parked ==> Promised(s, j) || k !in s.leases
    requires k in s.leases && s.leases[k].owner != Some(j) && s.leases[k].owner.value in s.parked ==> Promised(s, s.leases[k].owner.value)
    requires Acquire(LeaseOf(s.leases, k), j, now, SELF).1 in {Acquired, Owned}
    ensures var s1 := s.(leases := PutLease(s.leases, k, Acquire(LeaseOf(s.leases, k), j, now, SELF).0));
      && Exclusive(s1) && Promises(s1, {}, loose) && Holds(s1, k, j) && !SessionLive(s1, k)
      && (j in s1.parked ==> Promised(s1, j))
  {
    var cur := LeaseOf(s.leases, k);
    var rec := Acquire(cur, j, now, SELF).0;
    AcquireJoinsTheLine(cur, j, now, SELF);
    assert cur.owner.Some? ==> Line(cur)[1..] == cur.waiters;
    assert Line(rec)[1..] == rec.waiters;
    var s1 := s.(leases := PutLease(s.leases, k, rec));
    forall i | i in s.parked && OfSession(s, i, k) ensures Accounted(s1, i) {
      assert Accounted(s, i);
      assert Promised(s, i) ==> Promised(s1, i);
    }
    if j in s.parked { assert Accounted(s, j); assert Promised(s1, j); }
    LeaseChangeKeeps(s, k, rec, {}, {}, loose);
  }

  lemma GrantedTriggerKeeps(s: Engine, j: JobId, k: SessionId, c: CallerId, now: int)
    requires Exclusive(s) && Promises(s, {}, {c}) && c !in s.dispatches && c !in s.live && OfSession(s, j, k) && !SessionLive(s, k)
    requires j in s.parked ==> Promised(s, j) || k !in s.leases
    requires k in s.leases && s.leases[k].owner != Some(j) && s.leases[k].owner.value in s.parked ==> Promised(s, s.leases[k].owner.value)
    requires Acquire(LeaseOf(s.leases, k), j, now, SELF).1 in {Acquired, Owned}
    ensures var s' := Execute(s.(leases := PutLease(s.leases, k, Acquire(LeaseOf(s.leases, k), j, now, SELF).0)), j, Some(k), c);
      Inv(s') && AnswersKept(s, s')
  {
    GrantKeeps(s, j, k, now, {c});
    var s1 := s.(leases := PutLease(s.leases, k, Acquire(LeaseOf(s.leases, k), j, now, SELF).0));
    ExecuteKeepsExclusive(s1, j, Some(k), c);
    ExecuteKeepsPromises(s1, j, Some(k), c, {}, {c});
  }

  lemma AnsweredAtOnceKeeps(s: Engine, c: CallerId, out: Outcome)
    requires Exclusive(s) && Promises(s, {}, {c})
    ensures Inv(Answer(s, c, out)) && AnswersKept(s, Answer(s, c, out))
  {
    assert {c} - {c} == {};
    AnswerKeepsPromises(s, c, out, {}, {c});
    ExclusiveFrame(s, Answer(s, c, out));
  }

  lemma SessionlessKeeps(s: Engine, j: JobId, c: CallerId)
    requires Exclusive(s) && Promises(s, {}, {c}) && j in s.jobs && s.jobs[j].session == None
    requires c !in s.live && c !in s.dispatches
    ensures Inv(Execute(s, j, None, c)) && AnswersKept(s, Execute(s, j, None, c))
  {
    assert {c} - {c} == {};
    assert j in s.parked ==> Accounted(s, j);
    ExecuteKeepsExclusive(s, j, None, c);
    ExecuteKeepsPromises(s, j, None, c, {}, {c});
  }

  /** `run` for a caller not yet placed. */
  lemma RunKeeps(s: Engine, j: JobId, c: CallerId, now: int, denied: set<JobId>)
    requires Exclusive(s) && Promises(s, {}, {c}) && c !in s.live && c !in s.dispatches && c < s.nextCaller
    requires TriggerSafe(s, j, now) || j in denied
    ensures Inv(Run(s, j, c, now, denied)) && AnswersKept(s, Run(s, j, c, now, denied))
  {
    if j !in s.jobs {
      AnsweredAtOnceKeeps(s, c, Threw);
    } else if j in s.running {
      AnsweredAtOnceKeeps(s, c, Finished(s.jobs[j].status));
    } else if s.jobs[j].session.None? {
      SessionlessKeeps(s, j, c);
    } else if j in denied {
      assert {c} - {c} == {};
      ClaimDeniedKeeps(s, j, c, {}, {c});
    } else {
      var k := s.jobs[j].session.value;
      if k !in s.leases {
        NoLeaseNoBody(s, k);
        GrantedTriggerKeeps(s, j, k, c, now);
      } else {
        ClaimedRunKeeps(s, j, k, c, now, denied);
      }
    }
  }

  lemma ClaimedRunKeeps(s: Engine, j: JobId, k: SessionId, c: CallerId, now: int, denied: set<JobId>)
    requires Exclusive(s) && Promises(s, {}, {c}) && c !in s.live && c !in s.dispatches && c < s.nextCaller
    requires OfSession(s, j, k) && k in s.leases && j !in s.running && j !in denied && TriggerSafe(s, j, now)
    ensures Inv(Run(s, j, c, now, denied)) && AnswersKept(s, Run(s, j, c, now, denied))
  {
    var cur := s.leases[k];
    match Acquire(cur, j, now, SELF).1
    case Contended =>
      assert PutLease(s.leases, k, cur) == s.leases;
      AnsweredAtOnceKeeps(s, c, Finished(s.jobs[j].status));
    case Queued(_) =>
      if IsStale(cur, now) {
        StaleQueueKeeps(s, j, k, c, now, denied);
      } else {
        LiveQueueKeeps(s, j, c, now);
      }
    case _ => GrantedTriggerKeeps(s, j, k, c, now);
  }

  lemma NewCallerIsPlaced(s: Engine)
    requires CallersPlaced(s, {})
    ensures CallersPlaced(s.(nextCaller := s.nextCaller + 1), {s.nextCaller})
  {
    SameParkedOn(s, s.(nextCaller := s.nextCaller + 1));
    hide ParkedOn, InPark;
  }

  lemma NewCallerKeepsAccounts(s: Engine)
    requires ParkedAccounted(s, {})
    ensures ParkedAccounted(s.(nextCaller := s.nextCaller + 1), {})
  {
    var s' := s.(nextCaller := s.nextCaller + 1);
    forall i | i in s'.parked ensures Accounted(s', i) { assert Accounted(s, i); }
  }

  lemma NewCallerKeeps(s: Engine)
    requires Inv(s)
    ensures var s' := s.(nextCaller := s.nextCaller + 1);
      && Exclusive(s') && Promises(s', {}, {s.nextCaller})
      && s.nextCaller !in s.live && s.nextCaller !in s.dispatches
  {
    NewCallerIsPlaced(s);
    NewCallerKeepsAccounts(s);
    ExclusiveFrame(s, s.(nextCaller := s.nextCaller + 1));
    hide Exclusive, ParkedAccounted;
  }

  lemma SafetyIgnoresNewCallers(s: Engine, j: JobId, now: int)
    ensures TriggerSafe(s.(nextCaller := s.nextCaller + 1), j, now) <==> TriggerSafe(s, j, now)
  {
    var s' := s.(nextCaller := s.nextCaller + 1);
    forall k: SessionId ensures SessionLive(s', k) <==> SessionLive(s, k) { }
    forall i ensures Promised(s', i) <==> Promised(s, i) { }
    hide SessionLive, Promised;
  }

  /** A safe trigger keeps the invariant, whatever the lock does. */
  lemma TriggerKeeps(s: Engine, j: JobId, now: int, denied: set<JobId>)
    requires Inv(s) && (TriggerSafe(s, j, now) || j in denied)
    ensures Inv(Trigger(s, j, now, denied)) && AnswersKept(s, Trigger(s, j, now, denied))
  {
    var c := s.nextCaller;
    hide Run, Exclusive, Promises, TriggerSafe;
    NewCallerKeeps(s);
    SafetyIgnoresNewCallers(s, j, now);
    var s0 := s.(nextCaller := c + 1);
    assert Trigger(s, j, now, denied) == Run(s0, j, c, now, denied);
    RunKeeps(s0, j, c, now, denied);
  }

  lemma NoLeaseNoBody(s: Engine, k: SessionId)
    requires Exclusive(s) && k !in s.leases
    ensures !SessionLive(s, k)
  {
  }

  // ---- the end of a body, and releasing ----

  /** A job with a live activation is answered for by a dispatch, if anyone is parked on it. */
  lemma LiveIsPromised(s: Engine, c: CallerId, exempt: set<JobId>, loose: set<CallerId>)
    requires Exclusive(s) && Promises(s, exempt, loose) && c in s.live
    ensures s.live[c].job in s.parked && s.live[c].job !in exempt ==> Promised(s, s.live[c].job)
  {
    var j := s.live[c].job;
    if j in s.parked && j !in exempt {
      assert Accounted(s, j);
    }
  }

  lemma ReleasingIsNotRunning(s: Engine, c: CallerId)
    requires Exclusive(s) && c in s.live && s.live[c].session.Some? && s.live[c].phase.Releasing?
    ensures s.live[c].job !in s.running
  {
  }

  /** The activation leaves and its caller is answered, with its timer armed if `arm`. */
  function Surrendered(s: Engine, c: CallerId, out: Outcome, arm: bool): Engine {
    Answer(s.(live := s.live - {c}, timers := if arm then s.timers + [0] else s.timers), c, out)
  }

  lemma BodiesStay(s: Engine, s': Engine, c: CallerId)
    requires Exclusive(s) && c in s.live && s.live[c].job !in s.running && s'.running == s.running
    requires forall d :: d in s.live && d != c ==> d in s'.live && s'.live[d] == s.live[d]
    ensures RunningHasBody(s')
  {
    forall i | i in s'.running ensures HasBody(s', i) {
      assert HasBody(s, i);
      var d :| d in s.live && s.live[d].job == i && s.live[d].phase.Executing?;
      assert d in s'.live && s'.live[d] == s.live[d];
    }
  }

  lemma SurrenderKeepsPromises(s: Engine, c: CallerId, out: Outcome, arm: bool)
    requires Promises(s, {}, {}) && c in s.live && (s.live[c].job in s.parked ==> Promised(s, s.live[c].job))
    ensures Promises(Surrendered(s, c, out, arm), {}, {}) && AnswersKept(s, Surrendered(s, c, out, arm))
  {
    var s' := Surrendered(s, c, out, arm);
    SameParkedOn(s, s');
    forall i | i in s'.parked ensures Accounted(s', i) {
      assert Accounted(s, i);
      assert Promised(s, i) ==> Promised(s', i);
    }
  }

  lemma SurrenderKeeps(s: Engine, c: CallerId, out: Outcome, arm: bool)
    requires Inv(s) && c in s.live && s.live[c].job !in s.running
    ensures Inv(Surrendered(s, c, out, arm)) && AnswersKept(s, Surrendered(s, c, out, arm))
    ensures s.live[c].session.Some? ==> !SessionLive(Surrendered(s, c, out, arm), s.live[c].session.value)
  {
    LiveIsPromised(s, c, {}, {});
    hide Exclusive, Promises, Surrendered;
    SurrenderKeepsPromises(s, c, out, arm);
    SurrenderKeepsExclusive(s, c, out, arm);
  }

  lemma SurrenderKeepsExclusive(s: Engine, c: CallerId, out: Outcome, arm: bool)
    requires Exclusive(s) && c in s.live && s.live[c].job !in s.running
    ensures Exclusive(Surrendered(s, c, out, arm))
    ensures s.live[c].session.Some? ==> !SessionLive(Surrendered(s, c, out, arm), s.live[c].session.value)
  {
    BodiesStay(s, Surrendered(s, c, out, arm), c);
  }

  lemma RetryKeepsPromises(s: Engine, c: CallerId, phase: Phase)
    requires Promises(s, {}, {}) && c in s.live && phase.Releasing?
    ensures var s' := s.(live := s.live[c := s.live[c].(phase := phase)]); Promises(s', {}, {}) && AnswersKept(s, s')
  {
    var s' := s.(live := s.live[c := s.live[c].(phase := phase)]);
    SameParkedOn(s, s');
    forall k: SessionId ensures SessionLive(s', k) <==> SessionLive(s, k) {
      if d :| d in s.live && s.live[d].session == Some(k) { assert s'.live[d].session == Some(k); }
    }
    forall i | i in s'.parked ensures Accounted(s', i) {
      assert Accounted(s, i);
      assert Promised(s, i) ==> Promised(s', i);
    }
  }

  lemma RetryKeeps(s: Engine, c: CallerId, phase: Phase)
    requires Inv(s) && c in s.live && s.live[c].job !in s.running && s.live[c].session.Some? && phase.Releasing?
    ensures var s' := s.(live := s.live[c := s.live[c].(phase := phase)]); Inv(s') && AnswersKept(s, s')
  {
    RetryKeepsPromises(s, c, phase);
    hide Promises;
    BodiesStay(s, s.(live := s.live[c := s.live[c].(phase := phase)]), c);
  }

  lemma WaiterIsNotRunning(s: Engine, k: SessionId, p: JobId)
    requires Exclusive(s) && k in s.leases && p in s.leases[k].waiters
    ensures p !in s.running
  {
  }

  lemma HandOverAccounts(s: Engine, j: JobId, k: SessionId, now: int)
    requires LeasesSound(s) && ParkedAccounted(s, {}) && Holds(s, k, j) && (j in s.parked ==> Promised(s, j))
    ensures var (rec, next) := Release(s.leases[k], j, now, SELF);
      forall i :: i in s.parked && Some(i) != next && OfSession(s, i, k) ==> Accounted(s.(leases := PutLease(s.leases, k, rec)), i)
  {
    var (rec, next) := Release(s.leases[k], j, now, SELF);
    var s' := s.(leases := PutLease(s.leases, k, rec));
    var waiters := s.leases[k].waiters;
    assert waiters != [] ==> waiters == [waiters[0]] + waiters[1..];
    forall i | i in s.parked && Some(i) != next && OfSession(s, i, k) ensures Accounted(s', i) {
      assert Accounted(s, i);
      assert Promised(s, i) ==> Promised(s', i);
    }
  }

  /** The owner of `k`, no longer live, hands its lease on. */
  lemma HandOverKeeps(s: Engine, j: JobId, k: SessionId, now: int)
    requires Inv(s) && Holds(s, k, j) && !SessionLive(s, k) && (j in s.parked ==> Promised(s, j))
    ensures var (rec, next) := Release(LeaseOf(s.leases, k), j, now, SELF);
      var s' := s.(leases := PutLease(s.leases, k, rec));
      && Exclusive(s') && Promises(s', if next.Some? then {next.value} else {}, {}) && !SessionLive(s', k)
      && (next.Some? ==> next.value != j && Dispatchable(s', next.value) && s'.jobs[next.value].session == Some(k))
  {
    var cur := s.leases[k];
    var (rec, next) := Release(cur, j, now, SELF);
    ReleaseServesTheHead(cur, j, now, SELF);
    var exempt := if next.Some? then {next.value} else {};
    var s' := s.(leases := PutLease(s.leases, k, rec));
    HandOverAccounts(s, j, k, now);
    if next.Some? {
      assert cur.waiters == [next.value] + cur.waiters[1..];
      assert next.value !in s.running by { WaiterIsNotRunning(s, k, next.value); }
    }
    assert SoundFor(s, k, rec);
    hide Exclusive, Promises, Accounted, SoundFor;
    LeaseChangeKeeps(s, k, rec, {}, exempt, {});
  }

  lemma GrantedReleaseKeeps(s: Engine, c: CallerId, out: Outcome, n: nat, now: int, denied: set<JobId>)
    requires Inv(s) && c in s.live && s.live[c].session.Some? && s.live[c].job !in s.running
    ensures var s' := ReleaseAttempt(s, c, out, n, now, true, denied); Inv(s') && AnswersKept(s, s')
  {
    var j, k := s.live[c].job, s.live[c].session.value;
    assert Holds(s, k, j);
    var sA := Surrendered(s, c, out, false);
    SurrenderKeeps(s, c, out, false);
    LiveIsPromised(s, c, {}, {});
    assert Promised(s, j) ==> Promised(sA, j);
    hide Inv, Exclusive, Promises, Dispatch, SessionLive, Promised, AnswersKept;
    HandOverKeeps(sA, j, k, now);
    var (rec, next) := Release(LeaseOf(s.leases, k), j, now, SELF);
    hide Release, Dispatchable, Holds, IsEmpty;
    var s1 := sA.(leases := PutLease(s.leases, k, rec));
    assert s1 == Answer(s.(leases := PutLease(s.leases, k, rec), live := s.live - {c}), c, out);
    HandOverFinishes(sA, s1, next, k, now, denied);
  }

  /** The lease leaves a job only after its body has returned, and goes to the next in line, which starts. */
  lemma ReleaseKeeps(s: Engine, c: CallerId, out: Outcome, n: nat, now: int, lockOk: bool, denied: set<JobId>)
    requires Inv(s) && c in s.live && s.live[c].session.Some? && s.live[c].job !in s.running
    ensures var s' := ReleaseAttempt(s, c, out, n, now, lockOk, denied); Inv(s') && AnswersKept(s, s')
  {
    hide Inv;
    if lockOk {
      GrantedReleaseKeeps(s, c, out, n, now, denied);
    } else if n + 1 < RELEASE_ATTEMPTS {
      RetryKeeps(s, c, Releasing(n + 1, out));
    } else {
      SurrenderKeeps(s, c, out, true);
    }
  }

  lemma HandOverFinishes(sA: Engine, s1: Engine, next: Option<JobId>, k: SessionId, now: int, denied: set<JobId>)
    requires AnswersKept(sA, s1) && Exclusive(s1) && Promises(s1, if next.Some? then {next.value} else {}, {}) && !SessionLive(s1, k)
    requires next.Some? ==> Dispatchable(s1, next.value) && s1.jobs[next.value].session == Some(k)
    ensures var s' := if next.Some? then Dispatch(s1, next.value, now, denied) else s1; Inv(s') && AnswersKept(sA, s')
  {
    if next.Some? {
      assert {} + {next.value} == {next.value};
      DispatchKeeps(s1, next.value, now, denied, {}, {});
    }
  }

  lemma StatusKeepsSessions(s: Engine, j: JobId, status: Status)
    ensures forall running :: SameSessions(s, s.(jobs := SetStatus(s.jobs, j, status), running := running))
  {
  }

  /** Statuses and `running` entries of live jobs may change under a live body. */
  lemma LiveJobChangeKeeps(s: Engine, c: CallerId, status: Status, drop: bool)
    requires Inv(s) && c in s.live
    ensures var j := s.live[c].job;
      var s' := s.(jobs := SetStatus(s.jobs, j, status), running := if drop then s.running - {j} else s.running);
      Inv(s') && AnswersKept(s, s')
  {
    var j := s.live[c].job;
    var s' := s.(jobs := SetStatus(s.jobs, j, status), running := if drop then s.running - {j} else s.running);
    LiveIsPromised(s, c, {}, {});
    StatusKeepsSessions(s, j, status);
    hide Exclusive, Promises, SetStatus, SameSessions, Promised;
    ExclusiveFrame(s, s');
    StatusKeepsPromises(s, j, status, s'.running, {}, {});
  }

  lemma BodyEndsKeeps(s: Engine, c: CallerId, out: Outcome, now: int, lockOk: bool, denied: set<JobId>)
    requires Inv(s) && c in s.live && s.live[c].phase.Executing?
    ensures var s' := BodyEnds(s, c, out, now, lockOk, denied); Inv(s') && AnswersKept(s, s')
  {
    var j := s.live[c].job;
    var s1 := s.(running := s.running - {j});
    LiveJobChangeKeeps(s, c, s.jobs[j].status, true);
    assert SetStatus(s.jobs, j, s.jobs[j].status) == s.jobs;
    hide Inv;
    if s.live[c].session.None? {
      SurrenderKeeps(s1, c, out, false);
      assert Surrendered(s1, c, out, false) == BodyEnds(s, c, out, now, lockOk, denied);
    } else {
      ReleaseKeeps(s1, c, out, 0, now, lockOk, denied);
    }
  }

  lemma SettleKeeps(s: Engine, c: CallerId)
    requires Inv(s) && c in s.dispatches && c in s.answers
    ensures Inv(Settle(s, c)) && AnswersKept(s, Settle(s, c))
  {
    var j := s.dispatches[c];
    var s1 := s.(dispatches := s.dispatches - {c});
    SameParkedOn(s, s1);
    ExclusiveFrame(s, Settle(s, c));
    forall i | i in s1.parked && i !in {j} ensures Accounted(s1, i) {
      assert Accounted(s, i);
      if Promised(s, i) {
        var d :| d in s.dispatches && s.dispatches[d] == i;
        assert d in s1.dispatches && s1.dispatches[d] == i;
      }
    }
    assert {} + {j} == {j};
    SettleParkedKeepsPromises(s1, j, s.answers[c], {}, {});
  }

  lemma DequeueKeeps(s: Engine, j: JobId, k: SessionId)
    requires Inv(s) && OfSession(s, j, k) && k in s.leases && j in s.leases[k].waiters
    ensures var s1 := s.(leases := PutLease(s.leases, k, Dequeue(s.leases[k], j)));
      Exclusive(s1) && Promises(s1, {j}, {})
  {
    var rec := Dequeue(s.leases[k], j);
    DequeueLeavesTheOwner(s.leases[k], j);
    var s1 := s.(leases := PutLease(s.leases, k, rec));
    forall i | i in s.parked && i != j && OfSession(s, i, k) ensures Accounted(s1, i) {
      assert Accounted(s, i);
      assert Promised(s, i) ==> Promised(s1, i);
    }
    LeaseChangeKeeps(s, k, rec, {}, {j}, {});
  }

  /** Cancelling a queued job answers its callers and leaves every other job of the session where it was. */
  lemma CancelQueuedKeeps(s: Engine, j: JobId, k: SessionId)
    requires Inv(s) && OfSession(s, j, k) && k in s.leases && j in s.leases[k].waiters
    ensures var s' := SettleParked(s.(leases := PutLease(s.leases, k, Dequeue(s.leases[k], j)), jobs := SetStatus(s.jobs, j, Cancelled)),
                                   j, Finished(Cancelled));
      Inv(s') && AnswersKept(s, s')
  {
    DequeueKeeps(s, j, k);
    var s1 := s.(leases := PutLease(s.leases, k, Dequeue(s.leases[k], j)));
    var s2 := s1.(jobs := SetStatus(s1.jobs, j, Cancelled));
    hide Exclusive, Promises;
    StatusKeepsPromises(s1, j, Cancelled, s1.running, {j}, {});
    assert {} + {j} == {j};
    SettleParkedKeepsPromises(s2, j, Finished(Cancelled), {}, {});
    ExclusiveFrame(s1, SettleParked(s2, j, Finished(Cancelled)));
  }

  lemma CancelKeeps(s: Engine, j: JobId, lockOk: bool)
    requires Inv(s)
    ensures Inv(Cancel(s, j, lockOk)) && AnswersKept(s, Cancel(s, j, lockOk))
  {
    if j in s.running {
      assert HasBody(s, j);
      var c :| c in s.live && s.live[c].job == j;
      LiveJobChangeKeeps(s, c, if s.jobs[j].status == Running then Cancelled else s.jobs[j].status, true);
      assert s.jobs[j].status != Running ==> SetStatus(s.jobs, j, s.jobs[j].status) == s.jobs;
    } else if j in s.jobs && s.jobs[j].session.Some? && s.jobs[j].session.value in s.leases
              && j in s.leases[s.jobs[j].session.value].waiters && lockOk {
      CancelQueuedKeeps(s, j, s.jobs[j].session.value);
    }
  }

  lemma BeatKeeps(s: Engine, c: CallerId, now: int)
    requires Inv(s) && c in s.live && s.live[c].session.Some?
    ensures Inv(Beat(s, c, now)) && AnswersKept(s, Beat(s, c, now))
  {
    var k := s.live[c].session.value;
    assert Holds(s, k, s.live[c].job);
    ClaimKeeps(s, k, now, {}, {});
  }

  // ---- the recovery sweep ----

  /** No live activation of the session is of a job that has already been given a terminal status. */
  ghost predicate Unfinished(s: Engine, k: SessionId) {
    forall c :: c in s.live && s.live[c].session == Some(k) ==> !TerminalTest(s.jobs)(s.live[c].job)
  }

  /** What a sweep must not meet in a session whose lock it gets: a live activation whose job has already been given a
      terminal status; nor, if it gets through, one whose job has lost its `running` entry and would be run again. */
  ghost predicate SweepSafe(s: Engine, order: seq<SessionId>, healed: nat, denied: set<JobId>)
    requires healed <= |order|
  {
    && (forall k :: k in order[..healed] ==> Unfinished(s, k))
    && (healed == |order| ==> forall c :: c in s.live && s.live[c].session.Some? && s.live[c].session.value in order ==>
          s.live[c].job in s.running + denied)
  }

  lemma HealedIsSound(s: Engine, k: SessionId, now: int)
    requires Exclusive(s) && Unfinished(s, k)
    ensures var cur := LeaseOf(s.leases, k);
      var (rec, next) := Recover(cur, TerminalTest(s.jobs), now, SELF);
      && SoundFor(s, k, rec) && next == rec.owner && (rec.owner.Some? ==> rec.token == Some(SELF))
      && (rec.owner.None? ==> IsEmpty(rec)) && (rec.owner.Some? ==> !TerminalTest(s.jobs)(rec.owner.value))
      && Line(rec) == Surviving(Line(cur), TerminalTest(s.jobs))
      && (SessionLive(s, k) ==> k in s.leases && rec.owner == cur.owner && rec.token == cur.token)
  {
    var cur := LeaseOf(s.leases, k);
    RecoverDropsTheTerminal(cur, TerminalTest(s.jobs), now, SELF);
    var waiting := Surviving(cur.waiters, TerminalTest(s.jobs));
    SurvivingMembers(cur.waiters, TerminalTest(s.jobs));
    assert waiting != [] ==> waiting == [waiting[0]] + waiting[1..] && waiting[0] in waiting;
    if SessionLive(s, k) {
      var c :| c in s.live && s.live[c].session == Some(k);
      assert Holds(s, k, s.live[c].job);
    }
  }

  lemma HealedIsAccounted(s: Engine, i: JobId, k: SessionId, rec: Lease)
    requires Exclusive(s) && s.timers != [] && k in s.leases && OfSession(s, i, k)
    requires SessionLive(s, k) ==> rec.owner == s.leases[k].owner
    requires Line(rec) == Surviving(Line(s.leases[k]), TerminalTest(s.jobs))
    requires Accounted(s, i)
    ensures Accounted(s.(leases := PutLease(s.leases, k, rec)), i)
  {
    var s' := s.(leases := PutLease(s.leases, k, rec));
    if Promised(s, i) {
      assert Promised(s', i);
    } else {
      SurvivingMembers(Line(s.leases[k]), TerminalTest(s.jobs));
      assert i in Line(s.leases[k]);
      assert i in Line(rec);
    }
  }

  /** Healing one session. `timers` is non-empty, so a job promoted here still counts as accounted for. */
  lemma HealOneKeeps(s: Engine, k: SessionId, now: int)
    requires Inv(s) && Unfinished(s, k) && s.timers != []
    ensures var (rec, next) := Recover(LeaseOf(s.leases, k), TerminalTest(s.jobs), now, SELF);
      Inv(s.(leases := PutLease(s.leases, k, rec)))
  {
    var (rec, next) := Recover(LeaseOf(s.leases, k), TerminalTest(s.jobs), now, SELF);
    HealedIsSound(s, k, now);
    forall i | i in s.parked && OfSession(s, i, k) ensures Accounted(s.(leases := PutLease(s.leases, k, rec)), i) {
      assert Accounted(s, i);
      if k in s.leases {
        HealedIsAccounted(s, i, k, rec);
      } else {
        assert Promised(s.(leases := PutLease(s.leases, k, rec)), i);
      }
    }
    hide Exclusive, Promises;
    LeaseChangeKeeps(s, k, rec, {}, {}, {});
  }

  ghost predicate FoundOwner(jobs: map<JobId, Job>, order: seq<SessionId>, leases: map<SessionId, Lease>, j: JobId) {
    && j in jobs && jobs[j].session.Some? && !TerminalTest(jobs)(j)
    && jobs[j].session.value in order && jobs[j].session.value in leases
    && leases[jobs[j].session.value].owner == Some(j)
  }

  /** What a sweep has found after healing the sessions of `order`: their owners, each once. */
  ghost predicate FoundOwners(jobs: map<JobId, Job>, order: seq<SessionId>, leases: map<SessionId, Lease>, found: seq<JobId>) {
    && (forall k :: k in order && k in leases ==> leases[k].token == Some(SELF) && leases[k].owner.Some? && leases[k].owner.value in found)
    && (forall j :: j in found ==> FoundOwner(jobs, order, leases, j))
    && Distinct(found)
  }

  lemma FoundExtends(s: Engine, prefix: seq<SessionId>, k: SessionId, before: map<SessionId, Lease>, found: seq<JobId>, rec: Lease)
    requires FoundOwners(s.jobs, prefix, before, found) && k !in prefix && SoundFor(s, k, rec)
    requires rec.owner.Some? ==> rec.token == Some(SELF) && !TerminalTest(s.jobs)(rec.owner.value)
    requires rec.owner.None? ==> IsEmpty(rec)
    ensures FoundOwners(s.jobs, prefix + [k], PutLease(before, k, rec), if rec.owner.Some? then found + [rec.owner.value] else found)
  {
    if rec.owner.Some? {
      var j := rec.owner.value;
      assert j !in found by { assert j in found ==> FoundOwner(s.jobs, prefix, before, j); }
      EnqueueKeepsDistinct(found, j);
    }
  }

  lemma NothingFound(s: Engine)
    ensures FoundOwners(s.jobs, [], s.leases, [])
  {
  }

  lemma InvIsExclusive(s: Engine)
    requires Inv(s)
    ensures Exclusive(s) && Promises(s, {}, {})
  {
  }

  lemma {:induction false} HealKeeps(s: Engine, order: seq<SessionId>, now: int)
    requires Inv(s) && s.timers != [] && (forall i, j :: 0 <= i < j < |order| ==> order[i] != order[j])
    requires forall k :: k in order ==> Unfinished(s, k)
    ensures var (leases, found) := Heal(s.leases, s.jobs, order, now);
      && Inv(s.(leases := leases)) && FoundOwners(s.jobs, order, leases, found)
    decreases |order|
  {
    hide Inv, Exclusive, Promises, FoundOwners, Recover;
    if order == [] {
      assert s.(leases := s.leases) == s;
      NothingFound(s);
    } else {
      var prefix := order[..|order| - 1];
      var k := order[|order| - 1];
      var (before, found) := Heal(s.leases, s.jobs, prefix, now);
      HealKeeps(s, prefix, now);
      var s1 := s.(leases := before);
      assert order == prefix + [k] && k !in prefix;
      assert Unfinished(s, k) && Unfinished(s1, k);
      hide Unfinished;
      HealOneKeeps(s1, k, now);
      var (rec, next) := Recover(LeaseOf(before, k), TerminalTest(s.jobs), now, SELF);
      InvIsExclusive(s1);
      HealedIsSound(s1, k, now);
      assert SoundFor(s, k, rec);
      FoundExtends(s, prefix, k, before, found, rec);
    }
  }

  ghost predicate Owner(s: Engine, j: JobId) {
    && j in s.jobs && s.jobs[j].session.Some? && s.jobs[j].session.value in s.leases
    && s.leases[s.jobs[j].session.value].owner == Some(j)
  }

  /** Nothing about the session that `j` owns has changed. */
  ghost predicate Undisturbed(s: Engine, s': Engine, j: JobId)
    requires Owner(s, j)
  {
    var k := s.jobs[j].session.value;
    && OfSession(s', j, k) && k in s'.leases && s'.leases[k] == s.leases[k]
    && (j in s'.running <==> j in s.running)
    && (forall c :: c in s'.live && s'.live[c].session == Some(k) <==> c in s.live && s.live[c].session == Some(k))
  }

  lemma DispatchUndisturbs(s: Engine, i: JobId, j: JobId, now: int, denied: set<JobId>)
    requires Dispatchable(s, i) && Owner(s, j) && i != j && s.nextCaller !in s.live
    ensures Undisturbed(s, Dispatch(s, i, now, denied), j)
  {
    DispatchShape(s, i, now, denied);
  }

  /** A run of `j`, if it is not denied the lock, would be the only one of its session. */
  ghost predicate ReadyOrRunning(s: Engine, j: JobId, denied: set<JobId>) {
    && Owner(s, j)
    && (j in s.running || (Dispatchable(s, j) && (j in denied || !SessionLive(s, s.jobs[j].session.value))))
  }

  lemma ReadyIsOwner(s: Engine, found: seq<JobId>, denied: set<JobId>)
    requires forall j :: j in found ==> ReadyOrRunning(s, j, denied)
    ensures forall j :: j in found ==> Owner(s, j)
  {
  }

  lemma OwnerStays(s: Engine, s': Engine, j: JobId)
    requires Owner(s, j) && Undisturbed(s, s', j)
    ensures Owner(s', j)
  {
  }

  lemma UndisturbedAtFirst(s: Engine)
    ensures forall j :: Owner(s, j) ==> Undisturbed(s, s, j)
  {
  }

  lemma RunningUnchanged(s: Engine, s': Engine, j: JobId, denied: set<JobId>)
    requires ReadyOrRunning(s, j, denied) && Undisturbed(s, s', j)
    ensures j in s'.running <==> j in s.running
    ensures j !in s'.running ==> Dispatchable(s', j) && (j in denied || !SessionLive(s', s'.jobs[j].session.value))
  {
  }

  lemma UndisturbedTrans(s: Engine, s1: Engine, s2: Engine, j: JobId)
    requires Owner(s, j) && Undisturbed(s, s1, j) && Owner(s1, j) && Undisturbed(s1, s2, j)
    ensures Owner(s1, j) && Undisturbed(s, s2, j)
  {
  }

  lemma LiveCallersAreOld(s: Engine, exempt: set<JobId>)
    requires Promises(s, exempt, {})
    ensures s.nextCaller !in s.live
  {
  }

  /** The jobs a sweep found are dispatched one by one, except those running here already. */
  lemma {:induction false} DispatchAllKeeps(s: Engine, found: seq<JobId>, now: int, denied: set<JobId>, exempt: set<JobId>)
    requires Exclusive(s) && Promises(s, exempt + Unstarted(s, found), {}) && Distinct(found)
    requires forall j :: j in found ==> ReadyOrRunning(s, j, denied)
    ensures var s' := DispatchAll(s, found, now, denied);
      && Exclusive(s') && Promises(s', exempt, {}) && AnswersKept(s, s')
      && (forall j :: Owner(s, j) && j !in found ==> Undisturbed(s, s', j))
    decreases |found|
  {
    hide Exclusive, Promises, Dispatch, ReadyOrRunning, Undisturbed;
    if found == [] {
      UndisturbedAtFirst(s);
      assert exempt + Unstarted(s, found) == exempt;
    } else {
      var prefix, j := found[..|found| - 1], found[|found| - 1];
      assert found == prefix + [j];
      LastIsNew(prefix, j);
      var rest := if j in s.running then exempt else exempt + {j};
      assert exempt + Unstarted(s, found) == rest + Unstarted(s, prefix);
      DispatchAllKeeps(s, prefix, now, denied, rest);
      var s1 := DispatchAll(s, prefix, now, denied);
      ReadyIsOwner(s, found, denied);
      RunningUnchanged(s, s1, j, denied);
      if j !in s1.running {
        LiveCallersAreOld(s1, rest);
        DispatchKeeps(s1, j, now, denied, exempt, {});
        var s2 := Dispatch(s1, j, now, denied);
        forall i | Owner(s, i) && i !in found ensures Undisturbed(s, s2, i) {
          OwnerStays(s, s1, i);
          DispatchUndisturbs(s1, j, i, now, denied);
          UndisturbedTrans(s, s1, s2, i);
        }
      }
    }
  }

  function Unstarted(s: Engine, found: seq<JobId>): set<JobId> {
    set j | j in found && j !in s.running
  }

  lemma {:induction false} LastIsNew(prefix: seq<JobId>, j: JobId)
    requires Distinct(prefix + [j])
    ensures j !in prefix && Distinct(prefix)
  {
    if prefix != [] {
      assert (prefix + [j])[1..] == prefix[1..] + [j];
      LastIsNew(prefix[1..], j);
    }
  }

  lemma {:induction false} HealVisits(leases: map<SessionId, Lease>, jobs: map<JobId, Job>, order: seq<SessionId>, now: int)
    ensures forall k :: k in Heal(leases, jobs, order, now).0 ==> k in leases || k in order
    decreases |order|
  {
    if order != [] {
      HealVisits(leases, jobs, order[..|order| - 1], now);
    }
  }

  lemma RearmKeeps(s: Engine, timers: seq<nat>)
    requires Inv(s) && timers != []
    ensures Inv(s.(timers := timers))
  {
    var s' := s.(timers := timers);
    SameParkedOn(s, s');
    ExclusiveFrame(s, s');
    forall i | i in s'.parked ensures Accounted(s', i) {
      assert Accounted(s, i);
      assert Promised(s, i) ==> Promised(s', i);
    }
  }

  /** After a full sweep the jobs that were only waiting for one are exactly among those it dispatches. */
  lemma SweptAreFound(s: Engine, timers: seq<nat>, order: seq<SessionId>, found: seq<JobId>, denied: set<JobId>)
    requires Inv(s) && SweepSafe(s, order, |order|, denied) && FoundOwners(s.jobs, order, s.leases, found)
    requires forall k :: k in s.leases ==> k in order
    ensures var s' := s.(timers := timers);
      && Exclusive(s') && Promises(s', {} + Unstarted(s', found), {}) && Distinct(found)
      && forall j :: j in found ==> ReadyOrRunning(s', j, denied)
  {
    var s' := s.(timers := timers);
    SameParkedOn(s, s');
    ExclusiveFrame(s, s');
    forall i | i in s'.parked && i !in {} + Unstarted(s', found) ensures Accounted(s', i) {
      assert Accounted(s, i);
      assert Promised(s, i) ==> Promised(s', i);
      if AwaitsSweep(s, i) {
        assert i in found && i !in Unstarted(s', found);
        assert HasBody(s, i);
      }
    }
    forall j | j in found ensures ReadyOrRunning(s', j, denied) {
      assert FoundOwner(s.jobs, order, s.leases, j);
    }
  }

  lemma SafetyIgnoresLeases(s: Engine, leases: map<SessionId, Lease>, order: seq<SessionId>, healed: nat, denied: set<JobId>)
    requires healed <= |order| && SweepSafe(s, order, healed, denied)
    ensures SweepSafe(s.(leases := leases), order, healed, denied)
  {
    assert forall k :: Unfinished(s, k) ==> Unfinished(s.(leases := leases), k);
  }

  lemma FullSweepKeeps(s: Engine, timers: seq<nat>, order: seq<SessionId>, now: int, denied: set<JobId>)
    requires Inv(s) && SweepSafe(s, order, |order|, denied) && s.timers != [] && SweepOrder(s, order)
    ensures var (leases, found) := Heal(s.leases, s.jobs, order, now);
      var s' := DispatchAll(s.(timers := timers, leases := leases), found, now, denied); Inv(s') && AnswersKept(s, s')
  {
    hide Inv, Exclusive, Promises, FoundOwners, ReadyOrRunning, Heal, DispatchAll, SweepSafe, Unfinished, Unstarted;
    SafeMeansUnfinished(s, order, |order|, denied);
    assert order[..|order|] == order;
    var (leases, found) := Heal(s.leases, s.jobs, order, now);
    HealKeeps(s, order, now);
    HealVisits(s.leases, s.jobs, order, now);
    var s2 := s.(leases := leases);
    SafetyIgnoresLeases(s, leases, order, |order|, denied);
    SweptAreFound(s2, timers, order, found, denied);
    var s3 := s.(timers := timers, leases := leases);
    assert s2.(timers := timers) == s3;
    DispatchAllKeeps(s3, found, now, denied, {});
    ExclusiveAndPromises(DispatchAll(s3, found, now, denied));
  }

  lemma PartialSweepKeeps(s: Engine, timers: seq<nat>, order: seq<SessionId>, now: int)
    requires Inv(s) && s.timers != [] && timers != [] && (forall i, j :: 0 <= i < j < |order| ==> order[i] != order[j])
    requires forall k :: k in order ==> Unfinished(s, k)
    ensures Inv(s.(timers := timers, leases := Heal(s.leases, s.jobs, order, now).0))
  {
    hide Inv, FoundOwners, Heal, Unfinished;
    var leases := Heal(s.leases, s.jobs, order, now).0;
    HealKeeps(s, order, now);
    RearmKeeps(s.(leases := leases), timers);
    assert s.(leases := leases).(timers := timers) == s.(timers := timers, leases := leases);
  }

  /** A recovery timer keeps the invariant, whether or not its sweep gets through, when the sweep is safe. */
  lemma RecoveryKeeps(s: Engine, i: nat, order: seq<SessionId>, healed: nat, now: int, denied: set<JobId>)
    requires Inv(s) && i < |s.timers| && SweepOrder(s, order) && healed <= |order| && SweepSafe(s, order, healed, denied)
    ensures var s' := RecoveryFires(s, i, order, healed, now, denied); Inv(s') && AnswersKept(s, s')
  {
    hide Inv, Heal, DispatchAll;
    var left := s.timers[..i] + s.timers[i + 1..];
    if healed < |order| {
      hide SweepSafe, Unfinished;
      assert forall k :: k in order[..healed] ==> Unfinished(s, k) by { SafeMeansUnfinished(s, order, healed, denied); }
      PartialSweepKeeps(s, left + [s.timers[i] + 1], order[..healed], now);
    } else {
      assert order[..healed] == order;
      hide SweepSafe;
      FullSweepKeeps(s, left, order, now, denied);
    }
  }

  lemma SafeMeansUnfinished(s: Engine, order: seq<SessionId>, healed: nat, denied: set<JobId>)
    requires healed <= |order| && SweepSafe(s, order, healed, denied)
    ensures forall k :: k in order[..healed] ==> Unfinished(s, k)
  {
  }

  lemma BootedIsSound(s: Engine, timers: seq<nat>)
    requires Booted(s)
    ensures Inv(s.(timers := timers))
  {
  }

  /** The one sweep at boot keeps the invariant, whatever locks it gets. If it throws, nothing has started. */
  lemma BootSweepKeeps(s: Engine, order: seq<SessionId>, healed: nat, now: int, denied: set<JobId>)
    requires Booted(s) && SweepOrder(s, order) && healed <= |order|
    ensures var s' := RecoverSessionRuns(s, order, healed, now, denied);
      Inv(s') && AnswersKept(s, s') && (healed < |order| ==> Booted(s'))
  {
    var s0 := s.(timers := [0]);
    BootedIsSound(s, [0]);
    assert forall k :: Unfinished(s0, k);
    if healed < |order| {
      var leases := Heal(s.leases, s.jobs, order[..healed], now).0;
      HealKeeps(s0, order[..healed], now);
      InvIsExclusive(s0.(leases := leases));
      hide Inv, Heal, Promises;
      BootedIsSound(s.(leases := leases), []);
    } else {
      assert SweepSafe(s0, order, |order|, denied) && order[..|order|] == order;
      hide Inv, Heal, DispatchAll, SweepSafe;
      FullSweepKeeps(s0, [], order, now, denied);
      assert s0.(timers := [], leases := Heal(s.leases, s.jobs, order, now).0) == s.(leases := Heal(s.leases, s.jobs, order, now).0);
    }
  }

  lemma ExclusiveAndPromises(s: Engine)
    requires Exclusive(s) && Promises(s, {}, {})
    ensures Inv(s)
  {
  }
}
