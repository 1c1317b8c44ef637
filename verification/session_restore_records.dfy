/**
 Restoring any saved records whatever, of any shape: which of them come back and as what, which of several records of one
 client wins, and who owns the tabs.
 */
module SessionRestoreRecords {
  import opened Options
  import opened SessionRestore

  // ---- one record ----

  /** The tab is still in the browser, in the record's group. */
  predicate Kept(raw: Saved, browser: Browser, t: TabId) {
    raw.tabs.Some? && t in raw.tabs.value && t in browser && browser[t].group == raw.group
  }

  ghost predicate Restores(raw: Saved, browser: Browser) {
    raw.client != "" && exists t :: Kept(raw, browser, t)
  }

  /** Something of the record is missing, or has not survived. */
  ghost predicate Damaged(raw: Saved, browser: Browser) {
    raw.client == "" || raw.tabs.None? || raw.tabs.value == [] || exists t :: t in raw.tabs.value && !Kept(raw, browser, t)
  }

  /** `tabs` lists what it lists once, in the order in which `all` first lists it. */
  ghost predicate OnceInOrder(all: seq<TabId>, tabs: seq<TabId>) {
    && (forall i, j :: 0 <= i < j < |tabs| ==> tabs[i] != tabs[j])
    && forall i, j :: 0 <= i < j < |tabs| ==> exists k :: 0 <= k < |all| && all[k] == tabs[i] && tabs[j] !in all[..k]
  }

  lemma {:induction false} DistinctlyInOrder(all: seq<TabId>, browser: Browser, group: GroupId)
    ensures OnceInOrder(all, Distinctly(Survivors(browser, all, group)))
    decreases |all|
  {
    if all != [] {
      var init, t := all[..|all| - 1], all[|all| - 1];
      DistinctlyInOrder(init, browser, group);
      var before, after := Distinctly(Survivors(browser, init, group)), Distinctly(Survivors(browser, all, group));
      DistinctlyMembers(Survivors(browser, init, group));
      SurvivorsMembers(browser, init, group);
      SnocSurvivor(all, browser, group);
      hide Distinctly, Survivors;
      assert t in init && Survives(browser, t, group) ==> t in before;
      assert forall x :: x in before ==> x in init;
      OneMoreInOrder(all, before, after);
    }
  }

  lemma OneMoreInOrder(all: seq<TabId>, before: seq<TabId>, after: seq<TabId>)
    requires all != [] && OnceInOrder(all[..|all| - 1], before) && forall x :: x in before ==> x in all[..|all| - 1]
    requires after == before || (after == before + [all[|all| - 1]] && all[|all| - 1] !in all[..|all| - 1])
    ensures OnceInOrder(all, after)
  {
    forall i, j | 0 <= i < j < |after| ensures exists k :: 0 <= k < |all| && all[k] == after[i] && after[j] !in all[..k] {
      EarlierIn(all, before, after, i, j);
    }
    assert forall i :: 0 <= i < |before| ==> before[i] in before;
  }

  lemma SnocSurvivor(all: seq<TabId>, browser: Browser, group: GroupId)
    requires all != []
    ensures var init, t := all[..|all| - 1], all[|all| - 1];
      var before := Distinctly(Survivors(browser, init, group));
      Distinctly(Survivors(browser, all, group)) == if Survives(browser, t, group) && t !in before then before + [t] else before
  {
    var init, t := Survivors(browser, all[..|all| - 1], group), all[|all| - 1];
    if Survives(browser, t, group) {
      assert (init + [t])[..|init|] == init;
    } else {
      assert init + [] == init;
    }
  }

  lemma EarlierIn(all: seq<TabId>, before: seq<TabId>, after: seq<TabId>, i: nat, j: nat)
    requires all != [] && i < j < |after| && OnceInOrder(all[..|all| - 1], before)
    requires after == before || (after == before + [all[|all| - 1]] && all[|all| - 1] !in all[..|all| - 1])
    requires forall t :: t in before ==> t in all[..|all| - 1]
    ensures exists k :: 0 <= k < |all| && all[k] == after[i] && after[j] !in all[..k]
  {
    var init := all[..|all| - 1];
    if j < |before| {
      var k :| 0 <= k < |init| && init[k] == before[i] && before[j] !in init[..k];
      assert all[k] == after[i] && all[..k] == init[..k];
    } else {
      assert before[i] in before;
      var k :| 0 <= k < |init| && init[k] == before[i];
      assert all[k] == after[i] && all[..k] == init[..k];
      assert forall x :: x in init[..k] ==> x in init;
    }
  }

  /** A record comes back exactly if it names a client and lists a tab still in the browser, in its group: with exactly
      those tabs, once each and in their order; with its primary tab, or the first if that one is gone; in its window, or
      that of the primary tab if it names none; under its identifier, or a new one. */
  lemma RecordComesBack(raw: Saved, freshId: string, browser: Browser)
    ensures var one := RestoreOne(raw, freshId, browser);
      && (one.Some? <==> Restores(raw, browser))
      && (one.Some? ==>
            var s := one.value;
            && s.client == raw.client && s.group == raw.group && s.ownsWindow == raw.ownsWindow
            && s.id == (if raw.id == "" then freshId else raw.id)
            && s.tabs != [] && (forall t :: t in s.tabs <==> Kept(raw, browser, t)) && OnceInOrder(raw.tabs.value, s.tabs)
            && s.primary == (if raw.primary.Some? && raw.primary.value in s.tabs then raw.primary else Some(s.tabs[0]))
            && s.primary.value in browser
            && s.window == if raw.window.Some? then raw.window.value else browser[s.primary.value].window)
  {
    if raw.tabs.Some? {
      var valid := Survivors(browser, raw.tabs.value, raw.group);
      SurvivorsMembers(browser, raw.tabs.value, raw.group);
      SurvivorsAreKept(raw, browser);
      hide OnceInOrder, Survivors, Restores, Rebuilt;
      if valid != [] { RebuiltIs(raw, freshId, browser, valid); }
    }
  }

  lemma SurvivorsAreKept(raw: Saved, browser: Browser)
    requires raw.tabs.Some?
    ensures var valid := Survivors(browser, raw.tabs.value, raw.group);
      && (forall t :: t in valid <==> Kept(raw, browser, t)) && (raw.client != "" ==> (Restores(raw, browser) <==> valid != []))
      && OnceInOrder(raw.tabs.value, Distinctly(valid))
  {
    var valid := Survivors(browser, raw.tabs.value, raw.group);
    SurvivorsMembers(browser, raw.tabs.value, raw.group);
    DistinctlyInOrder(raw.tabs.value, browser, raw.group);
    hide OnceInOrder, Survivors;
    if valid != [] { assert valid[0] in valid && Kept(raw, browser, valid[0]); }
  }

  lemma RebuiltIs(raw: Saved, freshId: string, browser: Browser, valid: seq<TabId>)
    requires valid != [] && forall t :: t in valid ==> t in browser
    ensures var s := Rebuilt(raw, freshId, browser, valid);
      && s.client == raw.client && s.group == raw.group && s.ownsWindow == raw.ownsWindow
      && s.id == (if raw.id == "" then freshId else raw.id)
      && s.tabs == Distinctly(valid) && s.tabs != [] && (forall t :: t in s.tabs <==> t in valid)
      && s.primary == (if raw.primary.Some? && raw.primary.value in s.tabs then raw.primary else Some(s.tabs[0]))
      && s.primary.value in browser
      && s.window == if raw.window.Some? then raw.window.value else browser[s.primary.value].window
  {
    DistinctlyMembers(valid);
    FirstIsFirst(valid);
    hide Distinctly;
    assert Distinctly(valid)[0] in Distinctly(valid);
  }

  lemma {:induction false} FirstIsFirst(tabs: seq<TabId>)
    ensures tabs != [] ==> Distinctly(tabs) != [] && Distinctly(tabs)[0] == tabs[0]
    decreases |tabs|
  {
    if |tabs| > 1 {
      FirstIsFirst(tabs[..|tabs| - 1]);
    } else if |tabs| == 1 {
      assert tabs[..0] == [];
    }
  }

  lemma DamageIsLoss(raw: Saved, browser: Browser)
    ensures Lost(raw, browser) <==> Damaged(raw, browser)
  {
    if raw.tabs.Some? {
      assert forall t :: t in raw.tabs.value ==> (Survives(browser, t, raw.group) <==> Kept(raw, browser, t));
    }
  }

  // ---- all records ----

  /** Of the records of its client that come back, record `i` is the last. */
  ghost predicate IsLast(saved: seq<Saved>, browser: Browser, i: nat) {
    && i < |saved| && Restores(saved[i], browser)
    && forall k :: i < k < |saved| && Restores(saved[k], browser) ==> saved[k].client != saved[i].client
  }

  ghost predicate IsFirst(saved: seq<Saved>, browser: Browser, i: nat) {
    && i < |saved| && Restores(saved[i], browser)
    && forall k :: 0 <= k < i && Restores(saved[k], browser) ==> saved[k].client != saved[i].client
  }

  ghost predicate OneEach(sessions: seq<Session>) {
    forall j, k :: 0 <= j < k < |sessions| ==> sessions[j].client != sessions[k].client
  }

  /** The session is what the last record of some client has become. */
  ghost predicate FromLast(saved: seq<Saved>, freshIds: seq<string>, browser: Browser, s: Session)
    requires |freshIds| == |saved|
  {
    exists i :: 0 <= i < |saved| && IsLast(saved, browser, i) && RestoreOne(saved[i], freshIds[i], browser) == Some(s)
  }

  /** The restored sessions are what the last record of each client that comes back becomes. */
  ghost predicate LastWins(saved: seq<Saved>, freshIds: seq<string>, browser: Browser, sessions: seq<Session>)
    requires |freshIds| == |saved|
  {
    OneEach(sessions) && forall s :: s in sessions <==> FromLast(saved, freshIds, browser, s)
  }

  lemma SetSessionMembers(sessions: seq<Session>, s: Session)
    requires OneEach(sessions)
    ensures var sessions' := SetSession(sessions, s);
      && OneEach(sessions') && s in sessions'
      && forall x :: x in sessions' <==> x == s || (x in sessions && x.client != s.client)
  {
    var i := IndexOf(sessions, s.client);
    if i.Some? {
      assert sessions[i.value := s][i.value] == s;
      forall x | x in sessions && x.client != s.client ensures x in sessions[i.value := s] {
        var k :| 0 <= k < |sessions| && sessions[k] == x;
        assert sessions[i.value := s][k] == x;
      }
    }
  }

  lemma {:induction false} LastRecordsComeBack(saved: seq<Saved>, freshIds: seq<string>, browser: Browser)
    requires |freshIds| == |saved|
    ensures LastWins(saved, freshIds, browser, Restore(saved, freshIds, browser).sessions)
    decreases |saved|
  {
    if saved != [] {
      var n := |saved| - 1;
      var init, ids := saved[..n], freshIds[..n];
      LastRecordsComeBack(init, ids, browser);
      var before, one := Restore(init, ids, browser).sessions, RestoreOne(saved[n], freshIds[n], browser);
      var after := Restore(saved, freshIds, browser).sessions;
      assert after == if one.Some? then SetSession(before, one.value) else before;
      RecordComesBack(saved[n], freshIds[n], browser);
      if one.Some? { SetSessionMembers(before, one.value); }
      hide Restore, RestoreOne, SetSession, Restores, OnceInOrder;
      OneMoreRecord(saved, freshIds, browser, before, after, one);
    }
  }

  /** `after` is `before` with the session `one` put in, in place of its client's. */
  ghost predicate PutIn(before: seq<Session>, after: seq<Session>, one: Option<Session>) {
    if one.None? then after == before
    else OneEach(after) && forall x :: x in after <==> x == one.value || (x in before && x.client != one.value.client)
  }

  lemma LastStaysLast(saved: seq<Saved>, browser: Browser, i: nat)
    requires saved != []
    ensures var n := |saved| - 1;
      IsLast(saved, browser, i) <==>
        if i == n then Restores(saved[n], browser)
        else IsLast(saved[..n], browser, i) && !(Restores(saved[n], browser) && saved[n].client == saved[i].client)
  {
    hide Restores;
  }

  lemma OneMoreRecord(saved: seq<Saved>, freshIds: seq<string>, browser: Browser, before: seq<Session>, after: seq<Session>, one: Option<Session>)
    requires saved != [] && |freshIds| == |saved| && PutIn(before, after, one)
    requires var n := |saved| - 1;
      && LastWins(saved[..n], freshIds[..n], browser, before) && one == RestoreOne(saved[n], freshIds[n], browser)
      && (one.Some? <==> Restores(saved[n], browser)) && (one.Some? ==> one.value.client == saved[n].client)
    requires forall i :: 0 <= i < |saved| && RestoreOne(saved[i], freshIds[i], browser).Some? ==>
               RestoreOne(saved[i], freshIds[i], browser).value.client == saved[i].client
    ensures LastWins(saved, freshIds, browser, after)
  {
    var n := |saved| - 1;
    hide RestoreOne, Restores, IsLast, FromLast;
    forall s ensures s in after <==> FromLast(saved, freshIds, browser, s) {
      FromOneMore(saved, freshIds, browser, one, s);
    }
  }

  lemma FromOneMore(saved: seq<Saved>, freshIds: seq<string>, browser: Browser, one: Option<Session>, s: Session)
    requires saved != [] && |freshIds| == |saved|
    requires var n := |saved| - 1;
      && one == RestoreOne(saved[n], freshIds[n], browser)
      && (one.Some? <==> Restores(saved[n], browser)) && (one.Some? ==> one.value.client == saved[n].client)
    requires forall i :: 0 <= i < |saved| && RestoreOne(saved[i], freshIds[i], browser).Some? ==>
               RestoreOne(saved[i], freshIds[i], browser).value.client == saved[i].client
    ensures var n := |saved| - 1;
      FromLast(saved, freshIds, browser, s) <==>
        one == Some(s) || (FromLast(saved[..n], freshIds[..n], browser, s) && (one.Some? ==> s.client != one.value.client))
  {
    hide RestoreOne, Restores, IsLast;
    var n := |saved| - 1;
    if FromLast(saved, freshIds, browser, s) {
      var i :| 0 <= i < |saved| && IsLast(saved, browser, i) && RestoreOne(saved[i], freshIds[i], browser) == Some(s);
      LastStaysLast(saved, browser, i);
      if i < n { assert saved[..n][i] == saved[i] && freshIds[..n][i] == freshIds[i]; }
    }
    if one == Some(s) {
      LastStaysLast(saved, browser, n);
    } else if FromLast(saved[..n], freshIds[..n], browser, s) && (one.Some? ==> s.client != one.value.client) {
      var i :| 0 <= i < n && IsLast(saved[..n], browser, i) && RestoreOne(saved[..n][i], freshIds[..n][i], browser) == Some(s);
      assert saved[..n][i] == saved[i] && freshIds[..n][i] == freshIds[i];
      LastStaysLast(saved, browser, i);
    }
  }

  // ---- the order, the owners, and what is asked for ----

  /** Session `j` is that of the client whose first record coming back is `i`. */
  ghost predicate Opens(saved: seq<Saved>, browser: Browser, sessions: seq<Session>, i: nat, j: nat) {
    i < |saved| && j < |sessions| && IsFirst(saved, browser, i) && sessions[j].client == saved[i].client
  }

  /** Sessions come in the order in which their clients' first records come. */
  ghost predicate FirstComesFirst(saved: seq<Saved>, browser: Browser, sessions: seq<Session>) {
    forall a: nat, b: nat, j: nat, k: nat :: Opens(saved, browser, sessions, a, j) && Opens(saved, browser, sessions, b, k) && a < b ==> j < k
  }

  lemma FirstStaysFirst(saved: seq<Saved>, browser: Browser, i: nat)
    requires saved != [] && i < |saved| - 1
    ensures IsFirst(saved, browser, i) <==> IsFirst(saved[..|saved| - 1], browser, i)
  {
    hide Restores;
  }

  lemma {:induction false} RecordsKeepTheirOrder(saved: seq<Saved>, freshIds: seq<string>, browser: Browser)
    requires |freshIds| == |saved|
    ensures FirstComesFirst(saved, browser, Restore(saved, freshIds, browser).sessions)
    decreases |saved|
  {
    hide Restore, Restores, OnceInOrder, IsFirst;
    if saved == [] {
      NothingRestored(browser);
    } else {
      var n := |saved| - 1;
      var init, ids := saved[..n], freshIds[..n];
      RecordsKeepTheirOrder(init, ids, browser);
      LastRecordsComeBack(init, ids, browser);
      SessionsAdd(saved, freshIds, browser);
      var before, after := Restore(init, ids, browser).sessions, Restore(saved, freshIds, browser).sessions;
      hide LastWins;
      forall a: nat, b: nat, j: nat, k: nat | Opens(saved, browser, after, a, j) && Opens(saved, browser, after, b, k) && a < b
        ensures j < k
      {
        FirstStaysFirst(saved, browser, a);
        FirstIsThere(init, ids, browser, before, a);
        if b < n {
          FirstStaysFirst(saved, browser, b);
          FirstIsThere(init, ids, browser, before, b);
          assert Opens(init, browser, before, a, j) && Opens(init, browser, before, b, k);
        } else {
          NewIsNotThere(saved, freshIds, browser, before);
        }
      }
    }
  }

  lemma SessionsAdd(saved: seq<Saved>, freshIds: seq<string>, browser: Browser)
    requires saved != [] && |freshIds| == |saved|
    requires OneEach(Restore(saved[..|saved| - 1], freshIds[..|saved| - 1], browser).sessions)
    ensures var n := |saved| - 1;
      var before, after := Restore(saved[..n], freshIds[..n], browser).sessions, Restore(saved, freshIds, browser).sessions;
      && |before| <= |after| <= |before| + 1 && OneEach(after)
      && (forall j :: 0 <= j < |before| ==> after[j].client == before[j].client)
      && (|after| > |before| ==> after[|before|].client == saved[n].client)
  {
    var n := |saved| - 1;
    RecordComesBack(saved[n], freshIds[n], browser);
    hide RestoreOne, SetSession, SetOwners, Lost, Restores, OnceInOrder;
    SameClients(Restore(saved[..n], freshIds[..n], browser).sessions, RestoreOne(saved[n], freshIds[n], browser));
  }

  /** Putting a session in moves no client, and adds a new one at the end. */
  lemma SameClients(sessions: seq<Session>, one: Option<Session>)
    requires OneEach(sessions)
    ensures var after := if one.Some? then SetSession(sessions, one.value) else sessions;
      && OneEach(after) && |sessions| <= |after| <= |sessions| + 1
      && (forall j :: 0 <= j < |sessions| ==> after[j].client == sessions[j].client)
      && (|after| > |sessions| ==> one.Some? && after[|sessions|].client == one.value.client)
  {
  }

  /** The client of a record that came first among those coming back has a session. */
  lemma FirstIsThere(saved: seq<Saved>, freshIds: seq<string>, browser: Browser, sessions: seq<Session>, i: nat)
    requires |freshIds| == |saved| && LastWins(saved, freshIds, browser, sessions) && IsFirst(saved, browser, i)
    ensures exists j :: 0 <= j < |sessions| && sessions[j].client == saved[i].client
  {
    var l := LastFrom(saved, browser, i);
    RecordComesBack(saved[l], freshIds[l], browser);
    var s := RestoreOne(saved[l], freshIds[l], browser).value;
    assert FromLast(saved, freshIds, browser, s);
    hide RestoreOne, Restores, IsLast, FromLast, OnceInOrder;
    var j :| 0 <= j < |sessions| && sessions[j] == s;
  }

  lemma LastFrom(saved: seq<Saved>, browser: Browser, i: nat) returns (l: nat)
    requires i < |saved| && Restores(saved[i], browser)
    ensures i <= l < |saved| && IsLast(saved, browser, l) && saved[l].client == saved[i].client
    decreases |saved| - i
  {
    hide Restores;
    if k :| i < k < |saved| && Restores(saved[k], browser) && saved[k].client == saved[i].client {
      l := LastFrom(saved, browser, k);
    } else {
      l := i;
    }
  }

  /** The client of a last record that is also a first one has no session before. */
  lemma NewIsNotThere(saved: seq<Saved>, freshIds: seq<string>, browser: Browser, before: seq<Session>)
    requires saved != [] && |freshIds| == |saved| && LastWins(saved[..|saved| - 1], freshIds[..|saved| - 1], browser, before)
    requires IsFirst(saved, browser, |saved| - 1)
    ensures forall j :: 0 <= j < |before| ==> before[j].client != saved[|saved| - 1].client
  {
    var n := |saved| - 1;
    forall j | 0 <= j < |before| ensures before[j].client != saved[n].client {
      assert before[j] in before && FromLast(saved[..n], freshIds[..n], browser, before[j]);
      var i :| 0 <= i < n && IsLast(saved[..n], browser, i) && RestoreOne(saved[..n][i], freshIds[..n][i], browser) == Some(before[j]);
      RecordComesBack(saved[i], freshIds[i], browser);
    }
  }

  /** Record `i` brings back tab `t`. */
  predicate Claims(saved: seq<Saved>, browser: Browser, i: nat, t: TabId) {
    i < |saved| && saved[i].client != "" && Kept(saved[i], browser, t)
  }

  ghost predicate LastClaims(saved: seq<Saved>, browser: Browser, i: nat, t: TabId) {
    Claims(saved, browser, i, t) && forall k :: i < k < |saved| ==> !Claims(saved, browser, k, t)
  }

  lemma {:induction false} LastClaimOwns(saved: seq<Saved>, freshIds: seq<string>, browser: Browser, t: TabId)
    requires |freshIds| == |saved|
    ensures var owner := Restore(saved, freshIds, browser).owner;
      && (t in owner <==> exists i: nat :: Claims(saved, browser, i, t))
      && forall i: nat :: LastClaims(saved, browser, i, t) ==> t in owner && owner[t] == saved[i].client
    decreases |saved|
  {
    hide Restore, Kept;
    if saved == [] {
      NothingRestored(browser);
    } else {
      var n := |saved| - 1;
      LastClaimOwns(saved[..n], freshIds[..n], browser, t);
      OwnersAdd(saved, freshIds, browser, t);
      assert forall i :: 0 <= i < n ==> (Claims(saved[..n], browser, i, t) <==> Claims(saved, browser, i, t));
      assert forall i: nat :: Claims(saved, browser, i, t) ==> i <= n;
      hide Claims;
      var before, after := Restore(saved[..n], freshIds[..n], browser).owner, Restore(saved, freshIds, browser).owner;
      forall i: nat | LastClaims(saved, browser, i, t) ensures t in after && after[t] == saved[i].client {
        if i < n { assert LastClaims(saved[..n], browser, i, t); }
      }
    }
  }

  /** The last record gives its client the tabs it brings back. */
  lemma OwnersAdd(saved: seq<Saved>, freshIds: seq<string>, browser: Browser, t: TabId)
    requires saved != [] && |freshIds| == |saved|
    ensures var n := |saved| - 1;
      var before, after := Restore(saved[..n], freshIds[..n], browser).owner, Restore(saved, freshIds, browser).owner;
      && (t in after <==> t in before || Claims(saved, browser, n, t))
      && (t in after ==> after[t] == if Claims(saved, browser, n, t) then saved[n].client else before[t])
  {
    var n := |saved| - 1;
    RecordComesBack(saved[n], freshIds[n], browser);
    var one := RestoreOne(saved[n], freshIds[n], browser);
    assert if one.Some? then t in one.value.tabs <==> Claims(saved, browser, n, t) else !Claims(saved, browser, n, t);
    hide RestoreOne, Restores, OnceInOrder, SetSession, Lost;
  }

  lemma ChangesAdd(saved: seq<Saved>, freshIds: seq<string>, browser: Browser)
    requires saved != [] && |freshIds| == |saved|
    ensures var n := |saved| - 1;
      Restore(saved, freshIds, browser).changed <==> Restore(saved[..n], freshIds[..n], browser).changed || Lost(saved[n], browser)
  {
    hide RestoreOne, Lost, SetSession, SetOwners;
  }

  lemma NothingRestored(browser: Browser)
    ensures Restore([], [], browser) == Restored([], map[], false)
  {
  }

  lemma {:induction false} DamageAsksToPersist(saved: seq<Saved>, freshIds: seq<string>, browser: Browser)
    requires |freshIds| == |saved|
    ensures Restore(saved, freshIds, browser).changed <==> exists i :: 0 <= i < |saved| && Damaged(saved[i], browser)
    decreases |saved|
  {
    hide Restore, Damaged, Lost;
    if saved == [] {
      NothingRestored(browser);
    } else {
      var n := |saved| - 1;
      DamageAsksToPersist(saved[..n], freshIds[..n], browser);
      DamageIsLoss(saved[n], browser);
      ChangesAdd(saved, freshIds, browser);
      assert forall i :: 0 <= i < n ==> saved[..n][i] == saved[i];
    }
  }

  /** Whatever was stored: the sessions restored are what the last record of each client that comes back has become, in
      the order of their clients' first ones; a tab belongs to the client of the last record that brings it back; and the
      result is persisted again exactly if something was missing or has not survived. */
  lemma AnyRecordsRestore(saved: seq<Saved>, freshIds: seq<string>, browser: Browser)
    requires |freshIds| == |saved|
    ensures var r := Restore(saved, freshIds, browser);
      && LastWins(saved, freshIds, browser, r.sessions) && FirstComesFirst(saved, browser, r.sessions)
      && (forall t :: t in r.owner <==> exists i: nat :: Claims(saved, browser, i, t))
      && (forall i: nat, t :: LastClaims(saved, browser, i, t) ==> t in r.owner && r.owner[t] == saved[i].client)
      && (r.changed <==> exists i :: 0 <= i < |saved| && Damaged(saved[i], browser))
  {
    LastRecordsComeBack(saved, freshIds, browser);
    RecordsKeepTheirOrder(saved, freshIds, browser);
    DamageAsksToPersist(saved, freshIds, browser);
    hide Restore, LastWins, FirstComesFirst, Damaged, Claims, LastClaims;
    forall t {
      LastClaimOwns(saved, freshIds, browser, t);
    }
  }
}
