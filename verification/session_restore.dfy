/**
 Persisting the extension's sessions and restoring them after the script was unloaded (extension/background.js).

 Sessions are kept in the insertion order of the source's map; a session's tabs in that of its set.
 */
module SessionRestore {
  import opened Options

  type TabId = nat
  type GroupId = nat
  type WindowId = nat
  type ClientId = string

  datatype Session = Session(
    id: string, client: ClientId, group: GroupId, window: WindowId, primary: Option<TabId>, tabs: seq<TabId>, ownsWindow: bool)

  /** A record read back from storage, which may lack fields. */
  datatype Saved = Saved(
    id: string, client: ClientId, group: GroupId, window: Option<WindowId>, primary: Option<TabId>, tabs: Option<seq<TabId>>,
    ownsWindow: bool)

  datatype Tab = Tab(group: GroupId, window: WindowId)

  type Browser = map<TabId, Tab>

  /** What a restore rebuilds; `changed` asks for the result to be persisted again. */
  datatype Restored = Restored(sessions: seq<Session>, owner: map<TabId, ClientId>, changed: bool)

  // ---- persisting ----

  function SaveOne(s: Session): Saved {
    Saved(s.id, s.client, s.group, Some(s.window), s.primary, Some(s.tabs), s.ownsWindow)
  }

  function Serialize(sessions: seq<Session>): seq<Saved> {
    seq(|sessions|, i requires 0 <= i < |sessions| => SaveOne(sessions[i]))
  }

  // ---- restoring ----

  /** The tab still exists, in the group it was saved with. */
  predicate Survives(browser: Browser, t: TabId, group: GroupId) {
    t in browser && browser[t].group == group
  }

  function Survivors(browser: Browser, tabs: seq<TabId>, group: GroupId): seq<TabId> {
    if tabs == [] then []
    else Survivors(browser, tabs[..|tabs| - 1], group) + if Survives(browser, tabs[|tabs| - 1], group) then [tabs[|tabs| - 1]] else []
  }

  /** Insertion into a set that remembers the order. */
  function Distinctly(tabs: seq<TabId>): seq<TabId> {
    if tabs == [] then []
    else
      var init := Distinctly(tabs[..|tabs| - 1]);
      if tabs[|tabs| - 1] in init then init else init + [tabs[|tabs| - 1]]
  }

  function Rebuilt(raw: Saved, freshId: string, browser: Browser, valid: seq<TabId>): Session
    requires valid != [] && forall t :: t in valid ==> t in browser
  {
    var primary := if raw.primary.Some? && raw.primary.value in valid then raw.primary.value else valid[0];
    Session(if raw.id == "" then freshId else raw.id, raw.client, raw.group,
            if raw.window.Some? then raw.window.value else browser[primary].window,
            Some(primary), Distinctly(valid), raw.ownsWindow)
  }

  lemma {:induction false} SurvivorsMembers(browser: Browser, tabs: seq<TabId>, group: GroupId)
    ensures forall t :: t in Survivors(browser, tabs, group) <==> t in tabs && Survives(browser, t, group)
    ensures |Survivors(browser, tabs, group)| <= |tabs|
    ensures |Survivors(browser, tabs, group)| == |tabs| ==> Survivors(browser, tabs, group) == tabs
    decreases |tabs|
  {
    if tabs != [] {
      SurvivorsMembers(browser, tabs[..|tabs| - 1], group);
      assert tabs == tabs[..|tabs| - 1] + [tabs[|tabs| - 1]];
    }
  }

  predicate WellFormed(raw: Saved) {
    raw.client != "" && raw.tabs.Some? && raw.tabs.value != []
  }

  function RestoreOne(raw: Saved, freshId: string, browser: Browser): Option<Session> {
    if !WellFormed(raw) then None
    else
      var valid := Survivors(browser, raw.tabs.value, raw.group);
      if valid == [] then None
      else
        SurvivorsMembers(browser, raw.tabs.value, raw.group);
        Some(Rebuilt(raw, freshId, browser, valid))
  }

  function IndexOf(sessions: seq<Session>, c: ClientId): (r: Option<nat>)
    ensures r.None? <==> forall i :: 0 <= i < |sessions| ==> sessions[i].client != c
    ensures r.Some? ==> r.value < |sessions| && sessions[r.value].client == c
  {
    if sessions == [] then None
    else if sessions[|sessions| - 1].client == c then Some(|sessions| - 1)
    else IndexOf(sessions[..|sessions| - 1], c)
  }

  function SetSession(sessions: seq<Session>, s: Session): seq<Session> {
    var i := IndexOf(sessions, s.client);
    if i.Some? then sessions[i.value := s] else sessions + [s]
  }

  function SetOwners(owner: map<TabId, ClientId>, tabs: seq<TabId>, c: ClientId): map<TabId, ClientId> {
    owner + map t | t in tabs :: c
  }

  /** Something of the record did not survive. */
  predicate Lost(raw: Saved, browser: Browser) {
    !WellFormed(raw) || exists t :: t in raw.tabs.value && !Survives(browser, t, raw.group)
  }

  function RestoreStep(r: Restored, raw: Saved, freshId: string, browser: Browser): Restored {
    var one := RestoreOne(raw, freshId, browser);
    Restored(if one.Some? then SetSession(r.sessions, one.value) else r.sessions,
             if one.Some? then SetOwners(r.owner, one.value.tabs, raw.client) else r.owner,
             r.changed || Lost(raw, browser))
  }

  /** `freshIds` are the identifiers drawn for records without one. */
  function Restore(saved: seq<Saved>, freshIds: seq<string>, browser: Browser): Restored
    requires |freshIds| == |saved|
  {
    if saved == [] then Restored([], map[], false)
    else RestoreStep(Restore(saved[..|saved| - 1], freshIds[..|saved| - 1], browser), saved[|saved| - 1], freshIds[|saved| - 1], browser)
  }

  // ---- the script ----

  lemma {:induction false} DistinctlyMembers(tabs: seq<TabId>)
    ensures forall t :: t in Distinctly(tabs) <==> t in tabs
    decreases |tabs|
  {
    if tabs != [] {
      DistinctlyMembers(tabs[..|tabs| - 1]);
      assert tabs == tabs[..|tabs| - 1] + [tabs[|tabs| - 1]];
    }
  }

  class Background {
    var sessions: seq<Session>
    var tabOwner: map<TabId, ClientId>

    constructor ()
      ensures sessions == [] && tabOwner == map[]
    {
      sessions, tabOwner := [], map[];
    }

    method SerializeSessions() returns (saved: seq<Saved>)
      ensures saved == Serialize(sessions)
    {
      saved := [];
      var i := 0;
      while i < |sessions|
        invariant i == |saved| <= |sessions| && forall k :: 0 <= k < i ==> saved[k] == SaveOne(sessions[k])
      {
        var s := sessions[i];
        saved := saved + [Saved(s.id, s.client, s.group, Some(s.window), s.primary, Some(s.tabs), s.ownsWindow)];
        i := i + 1;
      }
    }

    method ValidTabs(tabs: seq<TabId>, group: GroupId, browser: Browser) returns (valid: seq<TabId>, changed: bool)
      ensures valid == Survivors(browser, tabs, group)
      ensures changed <==> exists t :: t in tabs && !Survives(browser, t, group)
    {
      valid, changed := [], false;
      var i := 0;
      while i < |tabs|
        invariant i <= |tabs| && valid == Survivors(browser, tabs[..i], group)
        invariant changed <==> exists t :: t in tabs[..i] && !Survives(browser, t, group)
      {
        var t := tabs[i];
        assert tabs[..i + 1] == tabs[..i] + [t];
        assert tabs[..i + 1][..i] == tabs[..i];
        if t !in browser || browser[t].group != group {
          assert t in tabs[..i + 1] && !Survives(browser, t, group);
          changed := true;
        } else {
          valid := valid + [t];
        }
        i := i + 1;
      }
      assert tabs[..i] == tabs;
    }

    method OwnTabs(tabs: seq<TabId>, c: ClientId)
      modifies `tabOwner
      ensures tabOwner == SetOwners(old(tabOwner), tabs, c)
    {
      var i := 0;
      assert SetOwners(tabOwner, [], c) == tabOwner;
      while i < |tabs|
        invariant i <= |tabs| && tabOwner == SetOwners(old(tabOwner), tabs[..i], c)
      {
        assert tabs[..i + 1] == tabs[..i] + [tabs[i]];
        assert SetOwners(old(tabOwner), tabs[..i], c)[tabs[i] := c] == SetOwners(old(tabOwner), tabs[..i + 1], c);
        tabOwner := tabOwner[tabs[i] := c];
        i := i + 1;
      }
      assert tabs[..i] == tabs;
    }

    method Rebuild(raw: Saved, freshId: string, browser: Browser, valid: seq<TabId>) returns (s: Session)
      requires valid != [] && forall t :: t in valid ==> t in browser
      ensures s == Rebuilt(raw, freshId, browser, valid)
    {
      var primary := if raw.primary.Some? && raw.primary.value in valid then raw.primary.value else valid[0];
      var window := if raw.window.Some? then raw.window.value else browser[primary].window;
      s := Session(if raw.id == "" then freshId else raw.id, raw.client, raw.group, window, Some(primary), Distinctly(valid), raw.ownsWindow);
    }

    /** One record of the restore loop. */
    method RestoreRecord(raw: Saved, freshId: string, browser: Browser) returns (changed: bool)
      modifies this
      ensures var one := RestoreOne(raw, freshId, browser);
        && sessions == (if one.Some? then SetSession(old(sessions), one.value) else old(sessions))
        && tabOwner == (if one.Some? then SetOwners(old(tabOwner), one.value.tabs, raw.client) else old(tabOwner))
      ensures changed == Lost(raw, browser)
    {
      hide SetSession, SetOwners, Survivors, Rebuilt;
      if raw.client == "" || raw.tabs.None? || |raw.tabs.value| == 0 {
        return true;
      }
      var valid, lost := ValidTabs(raw.tabs.value, raw.group, browser);
      SurvivorsMembers(browser, raw.tabs.value, raw.group);
      if |valid| == 0 {
        assert raw.tabs.value[0] in raw.tabs.value;
        return true;
      }
      var s := Rebuild(raw, freshId, browser, valid);
      sessions := SetSession(sessions, s);
      OwnTabs(s.tabs, raw.client);
      changed := lost;
    }

    method RestoreSessions(saved: seq<Saved>, freshIds: seq<string>, browser: Browser) returns (changed: bool)
      requires |freshIds| == |saved| && sessions == [] && tabOwner == map[]
      modifies this
      ensures Restored(sessions, tabOwner, changed) == Restore(saved, freshIds, browser)
    {
      hide RestoreStep, RestoreOne, SetSession, SetOwners, Lost;
      changed := false;
      var i := 0;
      while i < |saved|
        invariant i <= |saved| && Restored(sessions, tabOwner, changed) == Restore(saved[..i], freshIds[..i], browser)
      {
        assert saved[..i + 1][..i] == saved[..i] && freshIds[..i + 1][..i] == freshIds[..i];
        ghost var before := Restored(sessions, tabOwner, changed);
        var lost := RestoreRecord(saved[i], freshIds[i], browser);
        StepIs(before, saved[i], freshIds[i], browser);
        changed := changed || lost;
        i := i + 1;
      }
      assert saved[..i] == saved && freshIds[..i] == freshIds;
    }
  }

  lemma StepIs(r: Restored, raw: Saved, freshId: string, browser: Browser)
    ensures var one := RestoreOne(raw, freshId, browser);
      RestoreStep(r, raw, freshId, browser) ==
      Restored(if one.Some? then SetSession(r.sessions, one.value) else r.sessions,
               if one.Some? then SetOwners(r.owner, one.value.tabs, raw.client) else r.owner, r.changed || Lost(raw, browser))
  {
  }
}
