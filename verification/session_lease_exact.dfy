/**
 The two steps that can break the guarantees, an outside trigger and a recovery sweep, break them exactly when
 their safety conditions fail.
 */
module SessionLeaseExact {
  import opened Options
  import opened SessionRunQueue
  import opened SessionLease
  import opened SessionLeaseProof

  /** One live body per session, the lease owner's; and nobody parked is forgotten. */
  ghost predicate Guarantees(s: Engine) {
    OneBody(s) && BodiesOwn(s) && ParkedAccounted(s, {})
  }

  /** Where the lease passes to `j`, an unsafe trigger leaves two live activations in one session, or callers
      parked on `j` that no run will answer. */
  lemma UnsafeGrantBreaks(s: Engine, j: JobId, k: SessionId, c: CallerId, rec: Lease)
    requires Exclusive(s) && OfSession(s, j, k) && k in s.leases && c !in s.live && ValidLease(rec) && rec.owner == Some(j)
    requires SessionLive(s, k) || (j in s.parked && !Promised(s, j))
    ensures !Guarantees(Execute(s.(leases := PutLease(s.leases, k, rec)), j, Some(k), c))
  {
    var s' := Execute(s.(leases := PutLease(s.leases, k, rec)), j, Some(k), c);
    if SessionLive(s, k) {
      var d :| d in s.live && s.live[d].session == Some(k);
      assert s'.live[d].session == s'.live[c].session && d != c;
    } else {
      assert s'.live[c].session == Some(k);
      assert SessionLive(s', k);
      assert !Accounted(s', j);
    }
  }

  /** Where a stale owner `x` is passed over, an unsafe trigger leaves a live activation without its lease, or
      callers parked on `x` that no run will answer. */
  lemma UnsafeReclaimBreaks(s: Engine, s': Engine, x: JobId, k: SessionId)
    requires Exclusive(s) && k in s.leases && s.leases[k].owner == Some(x)
    requires SessionLive(s, k) || (x in s.parked && !Promised(s, x))
    requires SameSessions(s, s') && (forall c :: c in s.live ==> c in s'.live && s'.live[c] == s.live[c])
    requires k in s'.leases && s'.leases[k].owner != Some(x) && x !in s'.leases[k].waiters
    requires (x in s.parked ==> x in s'.parked) && (Promised(s', x) ==> Promised(s, x))
    ensures !Guarantees(s')
  {
    if SessionLive(s, k) {
      var d :| d in s.live && s.live[d].session == Some(k);
      assert s.live[d].job == x;
      assert !Holds(s', k, x);
    } else {
      assert OfSession(s', x, k);
      assert !Accounted(s', x);
    }
  }

  lemma ParkShape(s: Engine, j: JobId, c: CallerId)
    ensures var s' := Park(s, j, c);
      && SameSessions(s, s') && s'.live == s.live && s'.leases == s.leases && s'.dispatches == s.dispatches
      && s'.parked.Keys == s.parked.Keys + {j}
  {
  }

  /** The engine after a newcomer met a stale owner `x` and a first waiter `p`. */
  lemma StaleQueueShape(s: Engine, j: JobId, k: SessionId, c: CallerId, now: int, denied: set<JobId>)
    requires Exclusive(s) && OfSession(s, j, k) && k in s.leases && s.nextCaller !in s.live
    requires s.leases[k].owner != Some(j) && IsStale(s.leases[k], now) && s.leases[k].waiters != [] && s.leases[k].waiters[0] != j
    ensures var p, x := s.leases[k].waiters[0], s.leases[k].owner.value;
      var s1 := s.(leases := PutLease(s.leases, k, Acquire(s.leases[k], j, now, SELF).0));
      var s' := Park(Dispatch(s1, p, now, denied), j, c);
      && p !in s1.running && p != x && SameSessions(s, s')
      && (forall d :: d in s.live ==> d in s'.live && s'.live[d] == s.live[d])
      && k in s'.leases && s'.leases[k].owner == Some(p) && x !in s'.leases[k].waiters
      && (x in s.parked ==> x in s'.parked)
      && s'.dispatches == s.dispatches[s.nextCaller := p]
  {
    var cur := s.leases[k];
    var p := cur.waiters[0];
    AcquireJoinsTheLine(cur, j, now, SELF);
    assert cur.waiters == [p] + cur.waiters[1..];
    WaiterIsNotRunning(s, k, p);
    assert p in cur.waiters && OfSession(s, p, k) && cur.owner.value !in cur.waiters;
    var rec := Acquire(cur, j, now, SELF).0;
    assert rec == Lease(Some(p), None, now, now, Enqueue(cur.waiters[1..], j));
    assert cur.owner.value !in rec.waiters;
    hide Exclusive, Acquire, ValidLease, Dispatch, Enqueue, IsStale, Distinct;
    var s1 := s.(leases := s.leases[k := rec]);
    assert PutLease(s.leases, k, rec) == s.leases[k := rec];
    DispatchFrame(s1, p, now, denied);
    hide Dispatchable, SetStatus;
    ParkShape(Dispatch(s1, p, now, denied), j, c);
  }

  lemma UnsafeStaleQueueBreaks(s: Engine, j: JobId, k: SessionId, c: CallerId, now: int, denied: set<JobId>)
    requires Exclusive(s) && OfSession(s, j, k) && k in s.leases && s.nextCaller !in s.live
    requires s.leases[k].owner != Some(j) && IsStale(s.leases[k], now) && s.leases[k].waiters != [] && s.leases[k].waiters[0] != j
    requires SessionLive(s, k) || (s.leases[k].owner.value in s.parked && !Promised(s, s.leases[k].owner.value))
    ensures var s1 := s.(leases := PutLease(s.leases, k, Acquire(s.leases[k], j, now, SELF).0));
      s.leases[k].waiters[0] !in s1.running && !Guarantees(Park(Dispatch(s1, s.leases[k].waiters[0], now, denied), j, c))
  {
    var p, x := s.leases[k].waiters[0], s.leases[k].owner.value;
    var s1 := s.(leases := PutLease(s.leases, k, Acquire(s.leases[k], j, now, SELF).0));
    StaleQueueShape(s, j, k, c, now, denied);
    var s' := Park(Dispatch(s1, p, now, denied), j, c);
    hide Dispatch, Park, Acquire, Inv;
    if Promised(s', x) {
      var d :| d in s'.dispatches && s'.dispatches[d] == x;
      assert d in s.dispatches && s.dispatches[d] == x;
    }
    UnsafeReclaimBreaks(s, s', x, k);
  }

  lemma UnsafeGrantedTriggerBreaks(s: Engine, j: JobId, k: SessionId, c: CallerId, now: int)
    requires Exclusive(s) && OfSession(s, j, k) && k in s.leases && c !in s.live && j !in s.running
    requires !TriggerSafe(s, j, now) && Acquire(s.leases[k], j, now, SELF).1 in {Acquired, Owned}
    ensures !Guarantees(Execute(s.(leases := PutLease(s.leases, k, Acquire(s.leases[k], j, now, SELF).0)), j, Some(k), c))
  {
    var cur := s.leases[k];
    var rec := Acquire(cur, j, now, SELF).0;
    AcquireJoinsTheLine(cur, j, now, SELF);
    hide Inv;
    if SessionLive(s, k) || (j in s.parked && !Promised(s, j)) {
      UnsafeGrantBreaks(s, j, k, c, rec);
    } else {
      var x := cur.owner.value;
      assert x in s.parked && !Promised(s, x) && x != j;
      assert Line(cur)[1..] == cur.waiters && Line(rec)[1..] == rec.waiters;
      var s' := Execute(s.(leases := PutLease(s.leases, k, rec)), j, Some(k), c);
      assert Promised(s', x) ==> Promised(s, x);
      UnsafeReclaimBreaks(s, s', x, k);
    }
  }

  lemma UnsafeRunBreaks(s: Engine, j: JobId, k: SessionId, c: CallerId, now: int, denied: set<JobId>)
    requires Exclusive(s) && OfSession(s, j, k) && k in s.leases && c !in s.live && s.nextCaller !in s.live
    requires j !in s.running && j !in denied && !TriggerSafe(s, j, now)
    ensures !Guarantees(Run(s, j, c, now, denied))
  {
    var cur := s.leases[k];
    UnsafeMeans(s, j, k, now);
    hide Inv, TriggerSafe;
    if Acquire(cur, j, now, SELF).1 in {Acquired, Owned} {
      UnsafeGrantedTriggerBreaks(s, j, k, c, now);
    } else {
      UnsafeStaleQueueBreaks(s, j, k, c, now, denied);
      QueuedRunShape(s, j, k, c, now, denied);
    }
  }

  lemma UnsafeMeans(s: Engine, j: JobId, k: SessionId, now: int)
    requires LeasesSound(s) && OfSession(s, j, k) && k in s.leases && !TriggerSafe(s, j, now)
    ensures var cur := s.leases[k];
      Acquire(cur, j, now, SELF).1 in {Acquired, Owned} || (
        && cur.owner != Some(j) && IsStale(cur, now) && cur.waiters != [] && cur.waiters[0] != j
        && Acquire(cur, j, now, SELF).1 == Queued(Some(cur.waiters[0]))
        && (SessionLive(s, k) || (cur.owner.value in s.parked && !Promised(s, cur.owner.value))))
  {
  }

  lemma SafetyIgnoresCallers(s: Engine, s0: Engine, j: JobId, now: int)
    requires s0 == s.(nextCaller := s0.nextCaller)
    ensures TriggerSafe(s0, j, now) <==> TriggerSafe(s, j, now)
  {
    forall k: SessionId ensures SessionLive(s0, k) <==> SessionLive(s, k) { }
    forall i ensures Promised(s0, i) <==> Promised(s, i) { }
  }

  lemma UnsafeMeansClaimable(s: Engine, j: JobId, now: int)
    requires Inv(s) && !TriggerSafe(s, j, now)
    ensures j in s.jobs && j !in s.running && s.jobs[j].session.Some? && s.jobs[j].session.value in s.leases
    ensures s.nextCaller !in s.live && s.nextCaller + 1 !in s.live
    ensures var s0 := s.(nextCaller := s.nextCaller + 1); Exclusive(s0) && OfSession(s0, j, s.jobs[j].session.value)
  {
    ExclusiveFrame(s, s.(nextCaller := s.nextCaller + 1));
  }

  lemma UnsafeTriggerBreaks(s: Engine, j: JobId, now: int, denied: set<JobId>)
    requires Inv(s) && !TriggerSafe(s, j, now) && j !in denied
    ensures !Guarantees(Trigger(s, j, now, denied))
  {
    var s0 := s.(nextCaller := s.nextCaller + 1);
    hide Inv, Guarantees, Run, TriggerSafe, Exclusive, OfSession, SessionLive, Promised;
    assert Trigger(s, j, now, denied) == Run(s0, j, s.nextCaller, now, denied);
    hide Trigger;
    UnsafeMeansClaimable(s, j, now);
    SafetyIgnoresCallers(s, s0, j, now);
    UnsafeRunBreaks(s0, j, s.jobs[j].session.value, s.nextCaller, now, denied);
  }

  lemma QueuedRunShape(s: Engine, j: JobId, k: SessionId, c: CallerId, now: int, denied: set<JobId>)
    requires OfSession(s, j, k) && k in s.leases && j !in s.running && j !in denied && s.leases[k].waiters != []
    requires Acquire(s.leases[k], j, now, SELF).1 == Queued(Some(s.leases[k].waiters[0])) && s.leases[k].waiters[0] != j
    requires s.leases[k].waiters[0] !in s.running
    ensures var s1 := s.(leases := PutLease(s.leases, k, Acquire(s.leases[k], j, now, SELF).0));
      Run(s, j, c, now, denied) == Park(Dispatch(s1, s.leases[k].waiters[0], now, denied), j, c)
  {
  }

  lemma InvGuarantees(s: Engine)
    requires Inv(s)
    ensures Guarantees(s)
  {
  }

  /** An outside trigger keeps the guarantees, and the whole invariant, if and only if it is safe or denied the lock. */
  lemma TriggerSafetyIsExact(s: Engine, j: JobId, now: int, denied: set<JobId>)
    requires Inv(s)
    ensures var s' := Trigger(s, j, now, denied);
      (Guarantees(s') <==> TriggerSafe(s, j, now) || j in denied) && (Guarantees(s') ==> Inv(s'))
  {
    hide Inv, Guarantees, TriggerSafe, Trigger;
    if TriggerSafe(s, j, now) || j in denied {
      TriggerKeeps(s, j, now, denied);
      InvGuarantees(Trigger(s, j, now, denied));
    } else {
      UnsafeTriggerBreaks(s, j, now, denied);
    }
  }

  /** Healing visits each session of `order` once and no other. */
  lemma {:induction false} HealEach(s: Engine, order: seq<SessionId>, now: int)
    requires LeasesSound(s) && (forall i, j :: 0 <= i < j < |order| ==> order[i] != order[j])
    ensures var (leases, found) := Heal(s.leases, s.jobs, order, now);
      && LeasesSound(s.(leases := leases)) && FoundOwners(s.jobs, order, leases, found)
      && (forall k :: k in order ==> LeaseOf(leases, k) == Recover(LeaseOf(s.leases, k), TerminalTest(s.jobs), now, SELF).0)
      && (forall k :: k !in order ==> LeaseOf(leases, k) == LeaseOf(s.leases, k))
    decreases |order|
  {
    hide FoundOwners, Recover, LeasesSound, TerminalTest;
    if order == [] {
      NothingFound(s);
      assert s.(leases := s.leases) == s;
    } else {
      var prefix := order[..|order| - 1];
      var k := order[|order| - 1];
      assert order == prefix + [k] && k !in prefix;
      HealEach(s, prefix, now);
      var (before, found) := Heal(s.leases, s.jobs, prefix, now);
      var rec := Recover(LeaseOf(before, k), TerminalTest(s.jobs), now, SELF).0;
      RecoverIsSound(s.(leases := before), k, now);
      FoundExtends(s, prefix, k, before, found, rec);
    }
  }

  lemma RecoverIsSound(s: Engine, k: SessionId, now: int)
    requires LeasesSound(s)
    ensures var (rec, next) := Recover(LeaseOf(s.leases, k), TerminalTest(s.jobs), now, SELF);
      && SoundFor(s, k, rec) && next == rec.owner && LeasesSound(s.(leases := PutLease(s.leases, k, rec)))
      && (rec.owner.Some? ==> rec.token == Some(SELF) && !TerminalTest(s.jobs)(rec.owner.value))
      && (rec.owner.None? ==> rec == EMPTY_LEASE)
  {
    var cur := LeaseOf(s.leases, k);
    RecoverDropsTheTerminal(cur, TerminalTest(s.jobs), now, SELF);
    var waiting := Surviving(cur.waiters, TerminalTest(s.jobs));
    SurvivingMembers(cur.waiters, TerminalTest(s.jobs));
    assert waiting != [] ==> waiting == [waiting[0]] + waiting[1..] && waiting[0] in waiting;
  }

  /** Dispatching owners leaves every line and every live activation in place, and adds a live activation to
      the session of each job it starts. */
  ghost predicate OnlyAdds(s: Engine, s': Engine) {
    && SameSessions(s, s') && s'.leases.Keys == s.leases.Keys && s'.timers == s.timers
    && (forall k :: k in s.leases ==> s'.leases[k].owner == s.leases[k].owner)
    && (forall c :: c in s.live ==> c in s'.live && s'.live[c] == s.live[c])
  }

  ghost predicate Started(s: Engine, s': Engine, j: JobId) {
    exists c :: c !in s.live && c in s'.live && j in s.jobs && s'.live[c].session == s.jobs[j].session
  }

  ghost predicate OwnedHere(s: Engine, j: JobId) {
    Owner(s, j) && s.leases[s.jobs[j].session.value].token == Some(SELF)
  }

  /** A session gains a live activation only from a job of `found` that is not denied the lock. */
  ghost predicate LiveOnlyFrom(s: Engine, s': Engine, found: seq<JobId>, denied: set<JobId>) {
    forall k: SessionId :: SessionLive(s', k) && !SessionLive(s, k) ==> exists j :: j in found && j !in denied && OfSession(s, j, k)
  }

  lemma DispatchOnlyAdds(s: Engine, j: JobId, now: int, denied: set<JobId>)
    requires OwnedHere(s, j) && j !in s.running && (forall c :: c in s.live ==> c < s.nextCaller)
    ensures var s' := Dispatch(s, j, now, denied);
      && OnlyAdds(s, s') && (j !in denied ==> Started(s, s', j)) && s'.running == (if j in denied then s.running else s.running + {j})
      && LiveOnlyFrom(s, s', [j], denied)
      && (forall c :: c in s'.live ==> c < s'.nextCaller)
      && (forall i :: OwnedHere(s, i) ==> OwnedHere(s', i))
  {
    DispatchShape(s, j, now, denied);
    var s' := Dispatch(s, j, now, denied);
    if j !in denied { assert s.nextCaller !in s.live && s'.live[s.nextCaller].session == s.jobs[j].session; }
    forall k: SessionId | SessionLive(s', k) && !SessionLive(s, k) ensures j !in denied && OfSession(s, j, k) {
      var c :| c in s'.live && s'.live[c].session == Some(k);
      assert c !in s.live;
    }
    assert j in [j];
  }

  lemma {:induction false} DispatchAllOnlyAdds(s: Engine, found: seq<JobId>, now: int, denied: set<JobId>)
    requires (forall j :: j in found ==> OwnedHere(s, j)) && (forall c :: c in s.live ==> c < s.nextCaller) && Distinct(found)
    ensures var s' := DispatchAll(s, found, now, denied);
      && OnlyAdds(s, s') && (forall j :: j in found && j !in s.running && j !in denied ==> Started(s, s', j))
      && LiveOnlyFrom(s, s', found, denied)
      && (forall j :: j !in found ==> (j in s'.running <==> j in s.running))
      && (forall c :: c in s'.live ==> c < s'.nextCaller) && (forall i :: OwnedHere(s, i) ==> OwnedHere(s', i))
    decreases |found|
  {
    if found != [] {
      var prefix, j := found[..|found| - 1], found[|found| - 1];
      assert found == prefix + [j];
      LastIsNew(prefix, j);
      DispatchAllOnlyAdds(s, prefix, now, denied);
      var s1 := DispatchAll(s, prefix, now, denied);
      hide Dispatch, OwnedHere, LiveOnlyFrom, SessionLive, OnlyAdds;
      OnlyAddsKeepsJobs(s, s1);
      if j in s1.running {
        LiveOnlyFromMore(s, s1, s1, prefix, j, denied);
      } else {
        DispatchOnlyAdds(s1, j, now, denied);
        var s2 := Dispatch(s1, j, now, denied);
        OnlyAddsTrans(s, s1, s2);
        LiveOnlyFromMore(s, s1, s2, prefix, j, denied);
        forall i | i in found && i !in s.running && i !in denied ensures Started(s, s2, i) {
          StartedStays(s, s1, s2, i, j);
        }
      }
    }
  }

  lemma OnlyAddsTrans(s: Engine, s1: Engine, s2: Engine)
    requires OnlyAdds(s, s1) && OnlyAdds(s1, s2)
    ensures OnlyAdds(s, s2)
  {
  }

  lemma OnlyAddsKeepsJobs(s: Engine, s': Engine)
    requires OnlyAdds(s, s')
    ensures SameSessions(s, s')
  {
  }

  lemma LiveOnlyFromMore(s: Engine, s1: Engine, s2: Engine, prefix: seq<JobId>, j: JobId, denied: set<JobId>)
    requires SameSessions(s, s1) && LiveOnlyFrom(s, s1, prefix, denied) && (s2 == s1 || LiveOnlyFrom(s1, s2, [j], denied))
    ensures LiveOnlyFrom(s, s2, prefix + [j], denied)
  {
    forall k: SessionId | SessionLive(s2, k) && !SessionLive(s, k) ensures exists i :: i in prefix + [j] && i !in denied && OfSession(s, i, k) {
      hide SessionLive;
      if SessionLive(s1, k) {
        var i :| i in prefix && i !in denied && OfSession(s, i, k);
        assert i in prefix + [j];
      } else {
        var i :| i in [j] && i !in denied && OfSession(s1, i, k);
        assert i in prefix + [j] && OfSession(s, i, k);
      }
    }
  }

  lemma StartedStays(s: Engine, s1: Engine, s2: Engine, i: JobId, j: JobId)
    requires OnlyAdds(s, s1) && OnlyAdds(s1, s2) && if i == j then Started(s1, s2, j) && j in s.jobs else Started(s, s1, i)
    ensures Started(s, s2, i)
  {
    if i == j {
      var c :| c !in s1.live && c in s2.live && j in s1.jobs && s2.live[c].session == s1.jobs[j].session;
      assert c !in s.live && s2.live[c].session == s.jobs[i].session;
    } else {
      var c :| c !in s.live && c in s1.live && i in s.jobs && s1.live[c].session == s.jobs[i].session;
      assert c in s2.live && s2.live[c].session == s.jobs[i].session;
    }
  }

  /** The engine after a sweep has healed the leases of `order`, before it dispatches anything. */
  function Healed(s: Engine, order: seq<SessionId>, now: int): Engine {
    s.(leases := Heal(s.leases, s.jobs, order, now).0)
  }

  lemma FullSweepShape(s: Engine, order: seq<SessionId>, now: int, denied: set<JobId>)
    requires LeasesSound(s) && SweepOrder(s, order)
    ensures var s1, found := Healed(s, order, now), Heal(s.leases, s.jobs, order, now).1;
      && RecoverSessionRuns(s, order, |order|, now, denied) == DispatchAll(s1, found, now, denied)
      && LeasesSound(s1) && FoundOwners(s.jobs, order, s1.leases, found)
      && (forall k :: k in s.leases ==> k in order) && (forall k :: k in s1.leases ==> k in order)
      && (forall k :: k in order ==> LeaseOf(s1.leases, k) == Recover(LeaseOf(s.leases, k), TerminalTest(s.jobs), now, SELF).0)
  {
    HealEach(s, order, now);
    HealVisits(s.leases, s.jobs, order, now);
    assert order[..|order|] == order;
    hide Heal, DispatchAll, LeasesSound, FoundOwners, Recover;
  }

  lemma CallersAreOld(s: Engine)
    requires Inv(s)
    ensures Exclusive(s) && LeasesSound(s) && forall c :: c in s.live ==> c < s.nextCaller
  {
  }

  /** A live activation of a finished job loses its lease to the sweep. */
  lemma FinishedBodyBreaks(s: Engine, s': Engine, k: SessionId, now: int)
    requires Exclusive(s) && !Unfinished(s, k) && (forall c :: c in s.live ==> c in s'.live && s'.live[c] == s.live[c])
    requires LeaseOf(s'.leases, k).owner == Recover(LeaseOf(s.leases, k), TerminalTest(s.jobs), now, SELF).0.owner
    ensures !Guarantees(s')
  {
    var d :| d in s.live && s.live[d].session == Some(k) && TerminalTest(s.jobs)(s.live[d].job);
    assert Holds(s, k, s.live[d].job);
    RecoverIsSound(s, k, now);
    assert !Holds(s', k, s.live[d].job);
  }

  lemma PartialSweepBreaks(s: Engine, s': Engine, order: seq<SessionId>, k: SessionId, now: int)
    requires Exclusive(s) && k in order && (forall i, j :: 0 <= i < j < |order| ==> order[i] != order[j]) && !Unfinished(s, k)
    requires s'.live == s.live && s'.leases == Heal(s.leases, s.jobs, order, now).0
    ensures !Guarantees(s')
  {
    assert LeasesSound(s);
    hide Exclusive, LeasesSound, FoundOwners, Recover, Heal, Unfinished;
    HealEach(s, order, now);
    FinishedBodyBreaks(s, s', k, now);
  }

  /** A live activation whose job is no longer marked as running is given a second one beside it. */
  lemma UnmarkedBodyBreaks(s: Engine, s1: Engine, s': Engine, order: seq<SessionId>, found: seq<JobId>, d: CallerId, now: int)
    requires Exclusive(s) && d in s.live && s.live[d].session.Some? && s.live[d].session.value in order && Unfinished(s, s.live[d].session.value)
    requires OnlyAdds(s1, s') && s1.live == s.live && s1.jobs == s.jobs && LeasesSound(s1) && FoundOwners(s.jobs, order, s1.leases, found)
    requires LeaseOf(s1.leases, s.live[d].session.value) ==
             Recover(LeaseOf(s.leases, s.live[d].session.value), TerminalTest(s.jobs), now, SELF).0
    requires s.live[d].job in found ==> Started(s1, s', s.live[d].job)
    ensures !Guarantees(s')
  {
    var x, k := s.live[d].job, s.live[d].session.value;
    assert Holds(s, k, x) && s'.live[d] == s.live[d];
    assert LeaseOf(s1.leases, k).owner == Some(x);
    assert Started(s1, s', x);
    var c :| c !in s1.live && c in s'.live && s'.live[c].session == s1.jobs[x].session;
  }

  lemma UnsafeFullSweepBreaks(s: Engine, order: seq<SessionId>, now: int, denied: set<JobId>)
    requires Exclusive(s) && !SweepSafe(s, order, |order|, denied) && SweepOrder(s, order) && forall c :: c in s.live ==> c < s.nextCaller
    ensures !Guarantees(RecoverSessionRuns(s, order, |order|, now, denied))
  {
    assert LeasesSound(s);
    FullSweepShape(s, order, now, denied);
    var s1, found := Healed(s, order, now), Heal(s.leases, s.jobs, order, now).1;
    var s' := DispatchAll(s1, found, now, denied);
    assert order[..|order|] == order;
    hide Heal, DispatchAll, OwnedHere, Guarantees, Exclusive, FoundOwners, LeasesSound, Recover, RecoverSessionRuns;
    FoundAreOwnedHere(s1, order, found);
    DispatchAllOnlyAdds(s1, found, now, denied);
    if k :| k in order && !Unfinished(s, k) {
      SameOwners(s1, s', k);
      FinishedBodyBreaks(s, s', k, now);
    } else {
      var d :| d in s.live && s.live[d].session.Some? && s.live[d].session.value in order && s.live[d].job !in s.running + denied;
      hide Unfinished;
      UnmarkedBodyBreaks(s, s1, s', order, found, d, now);
    }
  }

  lemma SameOwners(s: Engine, s': Engine, k: SessionId)
    requires OnlyAdds(s, s')
    ensures LeaseOf(s'.leases, k).owner == LeaseOf(s.leases, k).owner
  {
  }

  lemma UnsafeSweepBreaks(s: Engine, i: nat, order: seq<SessionId>, healed: nat, now: int, denied: set<JobId>)
    requires Inv(s) && i < |s.timers| && healed <= |order| && SweepOrder(s, order) && !SweepSafe(s, order, healed, denied)
    ensures !Guarantees(RecoveryFires(s, i, order, healed, now, denied))
  {
    hide Inv, Guarantees, Heal, DispatchAll, Exclusive, Unfinished, LeasesSound;
    CallersAreOld(s);
    if healed == |order| {
      hide SweepSafe;
      var s0 := s.(timers := s.timers[..i] + s.timers[i + 1..]);
      OtherTimersAreExclusive(s, s0.timers);
      SafetyIgnoresTimers(s, s0.timers, order, healed, denied);
      UnsafeFullSweepBreaks(s0, order, now, denied);
    } else {
      var k :| k in order[..healed] && !Unfinished(s, k);
      PartialSweepBreaks(s, RecoveryFires(s, i, order, healed, now, denied), order[..healed], k, now);
    }
  }

  lemma OtherTimersAreExclusive(s: Engine, timers: seq<nat>)
    requires Exclusive(s)
    ensures Exclusive(s.(timers := timers))
  {
    ExclusiveFrame(s, s.(timers := timers));
  }

  lemma SafetyIgnoresTimers(s: Engine, timers: seq<nat>, order: seq<SessionId>, healed: nat, denied: set<JobId>)
    requires healed <= |order|
    ensures SweepSafe(s.(timers := timers), order, healed, denied) <==> SweepSafe(s, order, healed, denied)
  {
    assert forall k :: Unfinished(s.(timers := timers), k) <==> Unfinished(s, k);
  }

  lemma FoundAreOwnedHere(s: Engine, order: seq<SessionId>, found: seq<JobId>)
    requires FoundOwners(s.jobs, order, s.leases, found)
    ensures Distinct(found) && forall j :: j in found ==> OwnedHere(s, j)
  {
    forall j | j in found ensures OwnedHere(s, j) {
      assert FoundOwner(s.jobs, order, s.leases, j);
    }
  }

  /** However many locks it gets, and whichever of the jobs it dispatches are denied one, a recovery sweep keeps the
      guarantees, and the whole invariant, if and only if it is safe. */
  lemma SweepSafetyIsExact(s: Engine, i: nat, order: seq<SessionId>, healed: nat, now: int, denied: set<JobId>)
    requires Inv(s) && i < |s.timers| && healed <= |order| && SweepOrder(s, order)
    ensures var s' := RecoveryFires(s, i, order, healed, now, denied);
      (Guarantees(s') <==> SweepSafe(s, order, healed, denied)) && (Guarantees(s') ==> Inv(s'))
  {
    hide Inv, Guarantees, SweepSafe, RecoveryFires;
    if SweepSafe(s, order, healed, denied) {
      RecoveryKeeps(s, i, order, healed, now, denied);
      InvGuarantees(RecoveryFires(s, i, order, healed, now, denied));
    } else {
      UnsafeSweepBreaks(s, i, order, healed, now, denied);
    }
  }
}
