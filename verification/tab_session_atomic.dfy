/**
 What more holds of tab ownership when no handler is interrupted: ownership and listing coincide, and the primary
 tab is one of the listed ones.
 */
module TabSessionAtomic {
  import opened Options
  import opened TabSessions
  import opened TabSessionRuns

  /** A handler from its start to its end, with what the browser gave it: new tabs, groups and object identities. */
  datatype Handler =
    | Start(client: ClientId, ref: Ref, group: GroupId, tab: TabId)
    | End(client: ClientId)
    | Open(client: ClientId, tab: TabId, makePrimary: bool)
    | Close(client: ClientId, tab: TabId)
    | Spawn(tab: TabId, opener: TabId)
    | Regroup(tab: TabId, group: GroupId)
    | Remove(tab: TabId)
    | DropGroup(client: ClientId)

  predicate Allowed(s: State, h: Handler) {
    match h
    case Start(_, ref, _, t) => ref !in s.objs && t !in s.owner
    case Open(_, t, _) => t !in s.owner
    case Spawn(t, _) => t !in s.owner
    case _ => true
  }

  function OwnedBy(s: State, c: ClientId): set<TabId> {
    set t | t in s.owner && s.owner[t] == c
  }

  function Handle(s: State, h: Handler): State {
    match h
    case Start(c, ref, group, t) =>
      var s1 := DropSession(s, c);
      Commit(s1.(owner := s1.owner - OwnedBy(s1, c)), c, ref, group, t)
    case End(c) => DropSession(s, c)
    case Open(c, t, makePrimary) => if Current(s, c).Some? then OpenDone(s, s.live[c], t, makePrimary) else s
    case Close(c, t) =>
      if Current(s, c).Some? && t in s.objs[s.live[c]].tabs && s.objs[s.live[c]].primary != Some(t) then CloseDone(s, s.live[c], t) else s
    case Spawn(t, opener) =>
      var ref := OwningSession(s, opener);
      if ref.Some? && ref.value in s.objs then OpenDone(s, ref.value, t, false) else s
    case Regroup(t, group) => OnRegrouped(s, t, group)
    case Remove(t) => OnRemoved(s, t)
    case DropGroup(c) => DropSession(s, c)
  }

  /** Every owned tab is listed in its owner's live session. */
  ghost predicate Listed(s: State) {
    forall t :: t in s.owner ==> s.owner[t] in s.live && s.live[s.owner[t]] in s.objs && t in s.objs[s.live[s.owner[t]]].tabs
  }

  ghost predicate PrimarySound(s: State) {
    forall c :: c in s.live && s.live[c] in s.objs ==>
      s.objs[s.live[c]].primary.None? || s.objs[s.live[c]].primary.value in s.objs[s.live[c]].tabs
  }

  ghost predicate Whole(s: State) {
    LiveSound(s) && Owned(s) && Listed(s) && PrimarySound(s)
  }

  lemma AddKeeps(s: State, c: ClientId, t: TabId, makePrimary: bool)
    requires Whole(s) && c in s.live && t !in s.owner
    ensures Whole(OpenDone(s, s.live[c], t, makePrimary))
  {
    assert forall x :: x in Add(s.objs[s.live[c]].tabs, t) <==> x in s.objs[s.live[c]].tabs || x == t;
  }

  lemma ReleaseKeepsWhole(s: State, s': State, t: TabId, o: Session)
    requires Whole(s) && t in s.owner && o == Released(s.objs[s.live[s.owner[t]]], t)
    requires s' == s.(objs := s.objs[s.live[s.owner[t]] := o], owner := s.owner - {t}, live := s'.live)
    requires s'.live == s.live || (o.tabs == [] && s'.live == s.live - {s.owner[t]})
    ensures Whole(s')
  {
    WithoutMembers(s.objs[s.live[s.owner[t]]].tabs, t);
  }

  lemma DropKeepsOwned(s: State, c: ClientId)
    requires Owned(s) && Listed(s) && LiveSound(s)
    ensures Owned(DropSession(s, c)) && Listed(DropSession(s, c))
  {
    var s' := DropSession(s, c);
    forall d, t | d in s'.live && s'.live[d] in s'.objs && t in s'.objs[s'.live[d]].tabs ensures t in s'.owner && s'.owner[t] == d {
      assert t in s.owner && s.owner[t] == d;
    }
  }

  lemma DropKeepsWhole(s: State, c: ClientId)
    requires Whole(s)
    ensures Whole(DropSession(s, c)) && c !in DropSession(s, c).live
    ensures forall t :: t in DropSession(s, c).owner ==> t in s.owner && DropSession(s, c).owner[t] != c
  {
    DropKeepsOwned(s, c);
    hide Owned;
  }

  lemma CommitKeepsWhole(s: State, c: ClientId, ref: Ref, group: GroupId, t: TabId)
    requires Whole(s) && c !in s.live && ref !in s.objs && t !in s.owner
    ensures Whole(Commit(s, c, ref, group, t))
  {
  }

  lemma HandleKeeps(s: State, h: Handler)
    requires Whole(s) && Allowed(s, h)
    ensures Whole(Handle(s, h))
  {
    match h
    case Start(c, ref, group, t) =>
      DropKeepsWhole(s, c);
      var s1 := DropSession(s, c);
      assert OwnedBy(s1, c) == {} && s1.owner - {} == s1.owner;
      assert s1.(owner := s1.owner - OwnedBy(s1, c)) == s1;
      hide Whole, Owned, DropSession, Commit;
      assert ref !in s1.objs by { DropKeepsObjs(s, c); }
      CommitKeepsWhole(s1, c, ref, group, t);
    case Open(c, t, makePrimary) => if c in s.live { AddKeeps(s, c, t, makePrimary); }
    case Close(c, t) =>
      if c in s.live && t in s.objs[s.live[c]].tabs && s.objs[s.live[c]].primary != Some(t) {
        ReleaseKeepsWhole(s, Handle(s, h), t, Released(s.objs[s.live[c]], t));
      }
    case Spawn(t, opener) => if opener in s.owner { AddKeeps(s, s.owner[opener], t, false); }
    case Regroup(t, group) =>
      if t in s.owner && group != s.objs[s.live[s.owner[t]]].group {
        ReleaseKeepsWhole(s, Handle(s, h), t, Released(s.objs[s.live[s.owner[t]]], t));
      }
    case Remove(t) =>
      if t in s.owner {
        ReleaseKeepsWhole(s, Handle(s, h), t, Released(s.objs[s.live[s.owner[t]]], t));
      } else {
        assert s.owner - {t} == s.owner;
      }
    case _ => DropKeepsWhole(s, h.client);
  }

  lemma DropKeepsObjs(s: State, c: ClientId)
    ensures DropSession(s, c).objs == s.objs
  {
  }

  function After(handlers: seq<Handler>): State {
    if handlers == [] then State(map[], map[], map[], map[], map[], map[], [])
    else Handle(After(handlers[..|handlers| - 1]), handlers[|handlers| - 1])
  }

  ghost predicate AllAllowed(handlers: seq<Handler>) {
    forall i :: 0 <= i < |handlers| ==> Allowed(After(handlers[..i]), handlers[i])
  }

  lemma {:induction false} AfterIsWhole(handlers: seq<Handler>)
    requires AllAllowed(handlers)
    ensures Whole(After(handlers))
    decreases |handlers|
  {
    if handlers != [] {
      var init := handlers[..|handlers| - 1];
      assert forall i :: 0 <= i < |init| ==> init[..i] == handlers[..i] && init[i] == handlers[i];
      AfterIsWhole(init);
      assert Allowed(After(init), handlers[|handlers| - 1]);
      hide Whole, Handle, Allowed;
      HandleKeeps(After(init), handlers[|handlers| - 1]);
    }
  }

  /** With handlers run one at a time to their end, a client owns exactly the tabs its live session lists, and a
      session's primary tab is absent or one of them. */
  lemma OwnershipIsListing(handlers: seq<Handler>, c: ClientId, t: TabId)
    requires AllAllowed(handlers)
    ensures var s := After(handlers);
      && (t in s.owner && s.owner[t] == c <==> c in s.live && s.live[c] in s.objs && t in s.objs[s.live[c]].tabs)
      && (c in s.live && s.live[c] in s.objs && s.objs[s.live[c]].primary.Some? ==>
            s.objs[s.live[c]].primary.value in s.objs[s.live[c]].tabs)
  {
    AfterIsWhole(handlers);
  }
}
