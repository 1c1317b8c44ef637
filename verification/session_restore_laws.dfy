/** What restoring gives back: the saved sessions cut down to the tabs that survive, and exactly when it gives back all. */
module SessionRestoreLaws {
  import opened Options
  import opened SessionRestore

  predicate DistinctTabs(tabs: seq<TabId>) {
    forall i, j :: 0 <= i < j < |tabs| ==> tabs[i] != tabs[j]
  }

  predicate Disjoint(a: Session, b: Session) {
    a.client != b.client && forall t :: t in a.tabs ==> t !in b.tabs
  }

  /** Live sessions: named, identified, sharing neither clients nor tabs. Their primary tabs may be anything. */
  predicate Consistent(sessions: seq<Session>) {
    && (forall i :: 0 <= i < |sessions| ==>
          sessions[i].client != "" && sessions[i].id != "" && DistinctTabs(sessions[i].tabs))
    && (forall i, j :: 0 <= i < j < |sessions| ==> Disjoint(sessions[i], sessions[j]))
  }

  /** `r` is `s` cut down to the tabs that survive, its primary tab replaced if it is not one of them. */
  predicate CutDown(s: Session, r: Session, browser: Browser) {
    var kept := Survivors(browser, s.tabs, s.group);
    && kept != [] && r.tabs == kept
    && r.id == s.id && r.client == s.client && r.group == s.group && r.window == s.window && r.ownsWindow == s.ownsWindow
    && r.primary == Some(if s.primary.Some? && s.primary.value in kept then s.primary.value else kept[0])
  }

  function Image(s: Session, browser: Browser): Option<Session> {
    RestoreOne(SaveOne(s), "", browser)
  }

  /** The cut-down sessions, in order, without those that lost every tab. */
  function Kept(sessions: seq<Session>, browser: Browser): seq<Session> {
    if sessions == [] then []
    else
      var one := Image(sessions[|sessions| - 1], browser);
      Kept(sessions[..|sessions| - 1], browser) + if one.Some? then [one.value] else []
  }

  ghost predicate OwnersMatch(sessions: seq<Session>, owner: map<TabId, ClientId>) {
    && (forall i, t :: 0 <= i < |sessions| && t in sessions[i].tabs ==> t in owner && owner[t] == sessions[i].client)
    && (forall t :: t in owner ==> Lists(sessions, t))
  }

  predicate Lists(sessions: seq<Session>, t: TabId) {
    exists i :: 0 <= i < |sessions| && t in sessions[i].tabs
  }

  // ---- one session ----

  lemma {:induction false} DistinctlyOfDistinct(tabs: seq<TabId>)
    requires DistinctTabs(tabs)
    ensures Distinctly(tabs) == tabs
    decreases |tabs|
  {
    if tabs != [] {
      var init := tabs[..|tabs| - 1];
      DistinctlyOfDistinct(init);
      assert tabs == init + [tabs[|tabs| - 1]];
    }
  }

  lemma {:induction false} SurvivorsStayDistinct(browser: Browser, tabs: seq<TabId>, group: GroupId)
    requires DistinctTabs(tabs)
    ensures DistinctTabs(Survivors(browser, tabs, group))
    decreases |tabs|
  {
    if tabs != [] {
      var init := tabs[..|tabs| - 1];
      SurvivorsStayDistinct(browser, init, group);
      SurvivorsMembers(browser, init, group);
      var kept := Survivors(browser, init, group);
      assert forall i :: 0 <= i < |kept| ==> kept[i] in kept;
    }
  }

  lemma ImageIsCutDown(s: Session, freshId: string, browser: Browser)
    requires s.client != "" && s.id != "" && DistinctTabs(s.tabs)
    ensures RestoreOne(SaveOne(s), freshId, browser) == Image(s, browser)
    ensures Image(s, browser).None? <==> Survivors(browser, s.tabs, s.group) == []
    ensures Image(s, browser).Some? ==> CutDown(s, Image(s, browser).value, browser)
  {
    SurvivorsStayDistinct(browser, s.tabs, s.group);
    DistinctlyOfDistinct(Survivors(browser, s.tabs, s.group));
  }

  // ---- the whole state ----

  /** One of the sessions is what `r` was cut down from. */
  predicate CutFromOne(sessions: seq<Session>, r: Session, browser: Browser) {
    exists i :: 0 <= i < |sessions| && CutDown(sessions[i], r, browser)
  }

  predicate IsRestored(s: Session, kept: seq<Session>, browser: Browser) {
    exists k :: 0 <= k < |kept| && CutDown(s, kept[k], browser)
  }

  lemma CutFromMore(init: seq<Session>, last: Session, r: Session, browser: Browser)
    ensures CutFromOne(init, r, browser) || CutDown(last, r, browser) ==> CutFromOne(init + [last], r, browser)
  {
    var all := init + [last];
    if i :| 0 <= i < |init| && CutDown(init[i], r, browser) { assert CutDown(all[i], r, browser); }
    if CutDown(last, r, browser) { assert CutDown(all[|init|], r, browser); }
  }

  lemma RestoredAmongMore(s: Session, kept: seq<Session>, more: seq<Session>, browser: Browser)
    ensures IsRestored(s, kept, browser) || IsRestored(s, more, browser) ==> IsRestored(s, kept + more, browser)
  {
    var all := kept + more;
    if k :| 0 <= k < |kept| && CutDown(s, kept[k], browser) { assert CutDown(s, all[k], browser); }
    if k :| 0 <= k < |more| && CutDown(s, more[k], browser) { assert CutDown(s, all[|kept| + k], browser); }
  }

  lemma {:induction false} KeptComesFrom(sessions: seq<Session>, browser: Browser)
    requires Consistent(sessions)
    ensures forall r :: r in Kept(sessions, browser) ==> CutFromOne(sessions, r, browser)
    decreases |sessions|
  {
    if sessions != [] {
      var init, last := sessions[..|sessions| - 1], sessions[|sessions| - 1];
      KeptComesFrom(init, browser);
      ImageIsCutDown(last, "", browser);
      KeptSnoc(sessions, browser);
      assert sessions == init + [last];
      hide CutDown, CutFromOne, Kept, Image, Consistent;
      forall r | r in Kept(sessions, browser) ensures CutFromOne(init + [last], r, browser) { CutFromMore(init, last, r, browser); }
    }
  }

  lemma {:induction false} SurvivingAreKept(sessions: seq<Session>, browser: Browser)
    requires Consistent(sessions)
    ensures forall s :: s in sessions && Survivors(browser, s.tabs, s.group) != [] ==> IsRestored(s, Kept(sessions, browser), browser)
    decreases |sessions|
  {
    if sessions != [] {
      var init, last := sessions[..|sessions| - 1], sessions[|sessions| - 1];
      SurvivingAreKept(init, browser);
      ImageIsCutDown(last, "", browser);
      KeptSnoc(sessions, browser);
      var one, before := Image(last, browser), Kept(init, browser);
      assert sessions == init + [last];
      hide CutDown, IsRestored, Kept, Survivors, Image, Consistent;
      forall s | s in sessions && Survivors(browser, s.tabs, s.group) != [] ensures IsRestored(s, Kept(sessions, browser), browser) {
        RestoredAmongMore(s, before, if one.Some? then [one.value] else [], browser);
        if s !in init { OneIsRestored(last, one, browser); }
      }
    }
  }

  lemma OneIsRestored(s: Session, one: Option<Session>, browser: Browser)
    requires one.Some? && CutDown(s, one.value, browser)
    ensures IsRestored(s, [one.value], browser)
  {
    assert CutDown(s, [one.value][0], browser);
  }

  lemma ConsistentPrefix(sessions: seq<Session>)
    requires Consistent(sessions) && sessions != []
    ensures Consistent(sessions[..|sessions| - 1])
  {
  }

  /** The last session shares nothing with what was kept of those before it. */
  lemma LastIsApart(sessions: seq<Session>, browser: Browser)
    requires Consistent(sessions) && sessions != []
    ensures var init, last := sessions[..|sessions| - 1], sessions[|sessions| - 1];
      forall k :: 0 <= k < |Kept(init, browser)| ==> Disjoint(Kept(init, browser)[k], last)
  {
    var init, last := sessions[..|sessions| - 1], sessions[|sessions| - 1];
    ConsistentPrefix(sessions);
    KeptComesFrom(init, browser);
    var kept := Kept(init, browser);
    forall k | 0 <= k < |kept| ensures Disjoint(kept[k], last) {
      assert kept[k] in kept && CutFromOne(init, kept[k], browser);
      var i :| 0 <= i < |init| && CutDown(init[i], kept[k], browser);
      assert Disjoint(sessions[i], sessions[|sessions| - 1]);
      SurvivorsMembers(browser, init[i].tabs, init[i].group);
    }
  }

  lemma SetOwnersMatches(sessions: seq<Session>, owner: map<TabId, ClientId>, s: Session)
    requires OwnersMatch(sessions, owner) && forall k :: 0 <= k < |sessions| ==> Disjoint(sessions[k], s)
    ensures OwnersMatch(sessions + [s], SetOwners(owner, s.tabs, s.client))
  {
    var after, owner' := sessions + [s], SetOwners(owner, s.tabs, s.client);
    forall t | t in owner' ensures Lists(after, t) {
      if t in s.tabs {
        assert t in after[|sessions|].tabs;
      } else {
        assert Lists(sessions, t);
        var i :| 0 <= i < |sessions| && t in sessions[i].tabs;
        assert t in after[i].tabs;
      }
    }
    forall i, t | 0 <= i < |after| && t in after[i].tabs ensures t in owner' && owner'[t] == after[i].client {
      if i < |sessions| { assert Disjoint(sessions[i], s); }
    }
  }

  lemma RestoreSnoc(sessions: seq<Session>, freshIds: seq<string>, browser: Browser)
    requires |freshIds| == |sessions| > 0
    ensures var n := |sessions| - 1;
      Restore(Serialize(sessions), freshIds, browser) ==
      RestoreStep(Restore(Serialize(sessions[..n]), freshIds[..n], browser), SaveOne(sessions[n]), freshIds[n], browser)
  {
    var n := |sessions| - 1;
    assert Serialize(sessions)[..n] == Serialize(sessions[..n]);
    hide RestoreStep;
  }

  /** One of the first `n` sessions lost something. */
  ghost predicate AnyLost(sessions: seq<Session>, n: nat, browser: Browser)
    requires n <= |sessions|
  {
    exists i :: 0 <= i < n && Lost(SaveOne(sessions[i]), browser)
  }

  lemma AnyLostSnoc(sessions: seq<Session>, browser: Browser)
    requires sessions != []
    ensures var n := |sessions| - 1;
      AnyLost(sessions, n + 1, browser) <==> AnyLost(sessions[..n], n, browser) || Lost(SaveOne(sessions[n]), browser)
  {
    var n := |sessions| - 1;
    assert forall i :: 0 <= i < n ==> sessions[..n][i] == sessions[i];
    hide Lost, SaveOne;
  }

  lemma {:induction false} RestoreKeeps(sessions: seq<Session>, freshIds: seq<string>, browser: Browser)
    requires Consistent(sessions) && |freshIds| == |sessions|
    ensures var r := Restore(Serialize(sessions), freshIds, browser);
      && r.sessions == Kept(sessions, browser) && OwnersMatch(r.sessions, r.owner)
      && (r.changed <==> AnyLost(sessions, |sessions|, browser))
    decreases |sessions|
  {
    if sessions != [] {
      var n := |sessions| - 1;
      var init, last := sessions[..n], sessions[n];
      ConsistentPrefix(sessions);
      RestoreKeeps(init, freshIds[..n], browser);
      RestoreSnoc(sessions, freshIds, browser);
      ImageIsCutDown(last, freshIds[n], browser);
      LastIsApart(sessions, browser);
      KeptSnoc(sessions, browser);
      var before := Restore(Serialize(init), freshIds[..n], browser);
      AnyLostSnoc(sessions, browser);
      hide Consistent, Kept, Restore, Serialize, Lost, AnyLost, OwnersMatch, Disjoint, CutDown, Image;
      LastIsRestored(before, last, freshIds[n], browser);
    }
  }

  lemma KeptSnoc(sessions: seq<Session>, browser: Browser)
    requires sessions != []
    ensures var one := Image(sessions[|sessions| - 1], browser);
      Kept(sessions, browser) == Kept(sessions[..|sessions| - 1], browser) + if one.Some? then [one.value] else []
  {
  }

  lemma LastIsRestored(before: Restored, last: Session, freshId: string, browser: Browser)
    requires OwnersMatch(before.sessions, before.owner) && forall k :: 0 <= k < |before.sessions| ==> Disjoint(before.sessions[k], last)
    requires RestoreOne(SaveOne(last), freshId, browser) == Image(last, browser)
    requires Image(last, browser).Some? ==> CutDown(last, Image(last, browser).value, browser)
    ensures var r := RestoreStep(before, SaveOne(last), freshId, browser);
      && r.sessions == before.sessions + (if Image(last, browser).Some? then [Image(last, browser).value] else [])
      && OwnersMatch(r.sessions, r.owner)
  {
    var one := Image(last, browser);
    if one.Some? {
      SurvivorsMembers(browser, last.tabs, last.group);
      assert forall k :: 0 <= k < |before.sessions| ==> Disjoint(before.sessions[k], last) && Disjoint(before.sessions[k], one.value);
      hide Image, RestoreOne;
      SetOwnersMatches(before.sessions, before.owner, one.value);
    } else {
      assert before.sessions + [] == before.sessions;
    }
  }

  /** The sessions cut down from earlier ones come earlier, and no client has two. */
  ghost predicate InOrder(sessions: seq<Session>, kept: seq<Session>, browser: Browser) {
    forall i, j, k, l :: 0 <= i <= j < |sessions| && 0 <= k < |kept| && 0 <= l < |kept|
                         && CutDown(sessions[i], kept[k], browser) && CutDown(sessions[j], kept[l], browser) ==>
                           if i == j then k == l else k < l
  }

  lemma {:induction false} KeptInOrder(sessions: seq<Session>, browser: Browser)
    requires Consistent(sessions)
    ensures InOrder(sessions, Kept(sessions, browser), browser)
    decreases |sessions|
  {
    if sessions != [] {
      var n := |sessions| - 1;
      ConsistentPrefix(sessions);
      KeptInOrder(sessions[..n], browser);
      KeptSnoc(sessions, browser);
      LastKeptIsApart(sessions, browser);
      var before, kept := Kept(sessions[..n], browser), Kept(sessions, browser);
      hide Consistent, Kept, Image, InOrder;
      assert kept[..|before|] == before;
      SnocInOrder(sessions, kept, browser, |before|);
    }
  }

  /** Only the last session, and of the kept ones only what it became, has its client. */
  lemma LastKeptIsApart(sessions: seq<Session>, browser: Browser)
    requires Consistent(sessions) && sessions != []
    ensures var n, before, kept := |sessions| - 1, Kept(sessions[..|sessions| - 1], browser), Kept(sessions, browser);
      && |before| <= |kept| <= |before| + 1
      && (forall i :: 0 <= i < n ==> sessions[i].client != sessions[n].client)
      && (forall k :: 0 <= k < |kept| ==> (kept[k].client == sessions[n].client <==> k == |before|))
  {
    var n := |sessions| - 1;
    LastIsApart(sessions, browser);
    KeptSnoc(sessions, browser);
    ImageIsCutDown(sessions[n], "", browser);
    var before, one := Kept(sessions[..n], browser), Image(sessions[n], browser);
    assert forall i :: 0 <= i < n ==> Disjoint(sessions[i], sessions[n]);
    assert forall k :: 0 <= k < |before| ==> Disjoint(before[k], sessions[n]);
    hide Consistent, Kept, Image;
    assert one.Some? ==> one.value.client == sessions[n].client;
  }

  lemma SnocInOrder(sessions: seq<Session>, kept: seq<Session>, browser: Browser, m: nat)
    requires sessions != [] && m <= |kept| <= m + 1 && InOrder(sessions[..|sessions| - 1], kept[..m], browser)
    requires forall i :: 0 <= i < |sessions| - 1 ==> sessions[i].client != sessions[|sessions| - 1].client
    requires forall k :: 0 <= k < |kept| ==> (kept[k].client == sessions[|sessions| - 1].client <==> k == m)
    ensures InOrder(sessions, kept, browser)
  {
    var n := |sessions| - 1;
    forall i, j, k, l | 0 <= i <= j < |sessions| && 0 <= k < |kept| && 0 <= l < |kept|
                        && CutDown(sessions[i], kept[k], browser) && CutDown(sessions[j], kept[l], browser)
      ensures if i == j then k == l else k < l
    {
      assert (i == n <==> k == m) && (j == n <==> l == m);
      if j < n {
        assert CutDown(sessions[..n][i], kept[..m][k], browser) && CutDown(sessions[..n][j], kept[..m][l], browser);
      }
    }
  }

  /** Restoring what was saved of consistent sessions gives exactly the sessions that kept a tab, once each and in their
      order, each cut down to its surviving tabs in their order with the primary tab repaired, and ownership of exactly
      the tabs they list; it is persisted again exactly when something was lost. */
  lemma RestoreIsRestriction(sessions: seq<Session>, freshIds: seq<string>, browser: Browser)
    requires Consistent(sessions) && |freshIds| == |sessions|
    ensures var r := Restore(Serialize(sessions), freshIds, browser);
      && (forall k :: 0 <= k < |r.sessions| ==> CutFromOne(sessions, r.sessions[k], browser))
      && (forall i, t :: 0 <= i < |sessions| && t in sessions[i].tabs && Survives(browser, t, sessions[i].group) ==>
            IsRestored(sessions[i], r.sessions, browser))
      && InOrder(sessions, r.sessions, browser) && OwnersMatch(r.sessions, r.owner)
      && (r.changed <==> AnyLost(sessions, |sessions|, browser))
  {
    RestoreKeeps(sessions, freshIds, browser);
    KeptComesFrom(sessions, browser);
    SurvivingAreKept(sessions, browser);
    KeptInOrder(sessions, browser);
    hide Consistent, CutFromOne, IsRestored, InOrder, OwnersMatch, Lost, Restore;
    forall i, t | 0 <= i < |sessions| && t in sessions[i].tabs && Survives(browser, t, sessions[i].group)
      ensures IsRestored(sessions[i], Kept(sessions, browser), browser)
    {
      SurvivorsMembers(browser, sessions[i].tabs, sessions[i].group);
      assert sessions[i] in sessions;
    }
  }

  // ---- round trips ----

  /** Every tab is still in its group. */
  predicate AllSurvive(sessions: seq<Session>, browser: Browser) {
    forall i, t :: 0 <= i < |sessions| && t in sessions[i].tabs ==> Survives(browser, t, sessions[i].group)
  }

  lemma {:induction false} AllSurvivors(browser: Browser, tabs: seq<TabId>, group: GroupId)
    requires forall t :: t in tabs ==> Survives(browser, t, group)
    ensures Survivors(browser, tabs, group) == tabs
    decreases |tabs|
  {
    if tabs != [] {
      AllSurvivors(browser, tabs[..|tabs| - 1], group);
      assert tabs == tabs[..|tabs| - 1] + [tabs[|tabs| - 1]];
    }
  }

  /** The session has a primary tab, and it is one of its tabs. */
  predicate Complete(s: Session) {
    s.primary.Some? && s.primary.value in s.tabs
  }

  lemma ImageOfSurviving(s: Session, browser: Browser)
    requires s.client != "" && s.id != "" && DistinctTabs(s.tabs)
    requires forall t :: t in s.tabs ==> Survives(browser, t, s.group)
    ensures Image(s, browser) == Some(s) <==> Complete(s)
    ensures Image(s, browser).None? <==> s.tabs == []
  {
    AllSurvivors(browser, s.tabs, s.group);
    ImageIsCutDown(s, "", browser);
  }

  lemma {:induction false} KeptIsShorter(sessions: seq<Session>, browser: Browser)
    ensures |Kept(sessions, browser)| <= |sessions|
    decreases |sessions|
  {
    if sessions != [] { KeptIsShorter(sessions[..|sessions| - 1], browser); }
  }

  predicate AllComplete(sessions: seq<Session>) {
    forall i :: 0 <= i < |sessions| ==> Complete(sessions[i])
  }

  lemma AllCompleteSnoc(sessions: seq<Session>)
    requires sessions != []
    ensures var n := |sessions| - 1; AllComplete(sessions) <==> AllComplete(sessions[..n]) && Complete(sessions[n])
  {
    var n := |sessions| - 1;
    assert forall i :: 0 <= i < n ==> sessions[..n][i] == sessions[i];
    hide Complete;
  }

  lemma LastSurvives(sessions: seq<Session>, browser: Browser)
    requires Consistent(sessions) && AllSurvive(sessions, browser) && sessions != []
    ensures var n := |sessions| - 1;
      && Consistent(sessions[..n]) && AllSurvive(sessions[..n], browser)
      && (Image(sessions[n], browser) == Some(sessions[n]) <==> Complete(sessions[n]))
  {
    var n := |sessions| - 1;
    ConsistentPrefix(sessions);
    assert forall t :: t in sessions[n].tabs ==> Survives(browser, t, sessions[n].group);
    ImageOfSurviving(sessions[n], browser);
    hide Image, Complete;
  }

  lemma NothingKept(browser: Browser)
    ensures Kept([], browser) == [] && AllComplete([])
  {
  }

  lemma {:induction false} KeptIsAll(sessions: seq<Session>, browser: Browser)
    requires Consistent(sessions) && AllSurvive(sessions, browser)
    ensures Kept(sessions, browser) == sessions <==> AllComplete(sessions)
    decreases |sessions|
  {
    if sessions == [] {
      NothingKept(browser);
    } else {
      hide Image, Consistent, AllSurvive, Complete, AllComplete, Kept;
      var n := |sessions| - 1;
      var init, last := sessions[..n], sessions[n];
      LastSurvives(sessions, browser);
      KeptIsAll(init, browser);
      KeptIsShorter(init, browser);
      KeptSnoc(sessions, browser);
      AllCompleteSnoc(sessions);
      SnocEquality(Kept(init, browser), init, Image(last, browser), last);
      assert sessions == init + [last];
    }
  }

  lemma SnocEquality(a: seq<Session>, b: seq<Session>, one: Option<Session>, last: Session)
    requires |a| <= |b|
    ensures a + (if one.Some? then [one.value] else []) == b + [last] <==> a == b && one == Some(last)
  {
    var left, right := a + (if one.Some? then [one.value] else []), b + [last];
    if left == right {
      assert |a| == |b| && left[..|a|] == a && right[..|b|] == b && left[|a|] == last;
    }
  }

  /** When every tab survives, sessions, order, ids, groups, windows, tabs and primary tabs come back unchanged, with the
      owners they had, exactly if every session's primary tab is one of its tabs. The other states are reachable: a
      session without tabs, one that was given a tab but no primary one, and one whose primary tab is not listed. */
  lemma RoundTripIsExact(sessions: seq<Session>, freshIds: seq<string>, browser: Browser)
    requires Consistent(sessions) && |freshIds| == |sessions| && AllSurvive(sessions, browser)
    ensures var r := Restore(Serialize(sessions), freshIds, browser);
      && OwnersMatch(r.sessions, r.owner)
      && (r.sessions == sessions <==>
            forall i :: 0 <= i < |sessions| ==> sessions[i].primary.Some? && sessions[i].primary.value in sessions[i].tabs)
  {
    RestoreKeeps(sessions, freshIds, browser);
    KeptIsAll(sessions, browser);
    assert forall i :: 0 <= i < |sessions| ==>
      (Complete(sessions[i]) <==> sessions[i].primary.Some? && sessions[i].primary.value in sessions[i].tabs);
    hide Consistent, Restore, OwnersMatch, AllSurvive, Kept;
  }

  lemma {:induction false} KeptIsConsistent(sessions: seq<Session>, browser: Browser)
    requires Consistent(sessions)
    ensures Consistent(Kept(sessions, browser)) && AllSurvive(Kept(sessions, browser), browser)
    ensures forall k :: 0 <= k < |Kept(sessions, browser)| ==> Complete(Kept(sessions, browser)[k])
    decreases |sessions|
  {
    if sessions != [] {
      var n := |sessions| - 1;
      var init, last := sessions[..n], sessions[n];
      ConsistentPrefix(sessions);
      KeptIsConsistent(init, browser);
      LastIsApart(sessions, browser);
      KeptSnoc(sessions, browser);
      assert last.client != "" && last.id != "" && DistinctTabs(last.tabs);
      hide Consistent, Kept, AllSurvive, DistinctTabs, Image, CutDown, Complete, Disjoint;
      if Image(last, browser).Some? {
        ImageIsComplete(last, browser);
        var r := Image(last, browser).value;
        forall k | 0 <= k < |Kept(init, browser)| ensures Disjoint(Kept(init, browser)[k], r) {
          DisjointFromFewer(Kept(init, browser)[k], last, r);
        }
        AppendConsistent(Kept(init, browser), r, browser);
      }
    }
  }

  lemma DisjointFromFewer(a: Session, s: Session, r: Session)
    requires Disjoint(a, s) && r.client == s.client && forall t :: t in r.tabs ==> t in s.tabs
    ensures Disjoint(a, r)
  {
  }

  lemma ImageIsComplete(s: Session, browser: Browser)
    requires s.client != "" && s.id != "" && DistinctTabs(s.tabs) && Image(s, browser).Some?
    ensures var r := Image(s, browser).value;
      && CutDown(s, r, browser) && r.client == s.client && r.id == s.id && DistinctTabs(r.tabs) && Complete(r)
      && r.primary.value in r.tabs && (forall t :: t in r.tabs ==> t in s.tabs && Survives(browser, t, r.group))
  {
    ImageIsCutDown(s, "", browser);
    SurvivorsMembers(browser, s.tabs, s.group);
    SurvivorsStayDistinct(browser, s.tabs, s.group);
  }

  lemma AppendConsistent(kept: seq<Session>, s: Session, browser: Browser)
    requires Consistent(kept) && AllSurvive(kept, browser) && s.client != "" && s.id != "" && DistinctTabs(s.tabs)
    requires s.primary.Some? && s.primary.value in s.tabs && (forall t :: t in s.tabs ==> Survives(browser, t, s.group))
    requires forall k :: 0 <= k < |kept| ==> Disjoint(kept[k], s)
    ensures Consistent(kept + [s]) && AllSurvive(kept + [s], browser)
  {
  }

  /** Restored sessions are a fixed point: persisting and restoring them again, with the same tabs open, changes nothing. */
  lemma RestoreIsIdempotent(sessions: seq<Session>, freshIds: seq<string>, again: seq<string>, browser: Browser)
    requires Consistent(sessions) && |freshIds| == |sessions|
    requires |again| == |Restore(Serialize(sessions), freshIds, browser).sessions|
    ensures var r := Restore(Serialize(sessions), freshIds, browser);
      var r' := Restore(Serialize(r.sessions), again, browser);
      r'.sessions == r.sessions && OwnersMatch(r.sessions, r'.owner) && !r'.changed
  {
    RestoreKeeps(sessions, freshIds, browser);
    KeptIsConsistent(sessions, browser);
    var kept := Kept(sessions, browser);
    RoundTripIsExact(kept, again, browser);
    RestoreKeeps(kept, again, browser);
    forall k | 0 <= k < |kept| ensures !Lost(SaveOne(kept[k]), browser) { assert Complete(kept[k]); }
  }
}
