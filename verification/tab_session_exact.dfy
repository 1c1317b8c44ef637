/**
 Exactly which steps, at await granularity, keep what uninterrupted handlers keep: ownership as listing, listed primary
 tabs, and a primary tab in every session that has tabs; and runs that lose each of them.
 */
module TabSessionExact {
  import opened Options
  import opened TabSessions
  import opened TabSessionRuns
  import opened TabSessionAtomic

  // ---- listing and primary tabs ----

  /** At await granularity, the steps that leave listing and primary tabs sound: a tab is adopted into its client's
      live session, or one that lists it already; an opened tab finds its client's session live; the tab closed is not
      the primary one of a live session; and what an ending session owns is what was snapshotted when it began to end. */
  ghost predicate Undisturbed(s: State, step: Step)
    requires Enabled(s, step)
  {
    match step
    case Adopted(t) =>
      var c := s.objs[s.adopting[t]].client;
      c in s.live && s.live[c] in s.objs && (s.live[c] == s.adopting[t] || t in s.objs[s.live[c]].tabs)
    case OpenCommitted(c) => c in s.live
    case CloseCommitted(c) => c in s.live ==> s.objs[s.commands[c].ref].primary != Some(s.commands[c].tab)
    case EndResumed(c) => OwnedBy(s, c) <= set t | t in s.commands[c].ids
    case PopupResumed(i) => OwnedBy(s, s.popups[i].client) <= set t | t in s.popups[i].ids
    case _ => true
  }

  lemma AddMembers(tabs: seq<TabId>, t: TabId)
    ensures forall x :: x in Add(tabs, t) <==> x in tabs || x == t
  {
  }

  /** A tab is added to an object and owned by its client; it is listed if the object is, or it was before. */
  lemma OpenIsExact(s: State, ref: Ref, t: TabId, makePrimary: bool)
    requires Inv(s) && Listed(s) && PrimarySound(s) && ref in s.objs && Homed(s, t, s.objs[ref].client)
    ensures var s', c := OpenDone(s, ref, t, makePrimary), s.objs[ref].client;
      (Listed(s') <==> c in s.live && (s.live[c] == ref || t in s.objs[s.live[c]].tabs)) && PrimarySound(s')
  {
    var s', c := OpenDone(s, ref, t, makePrimary), s.objs[ref].client;
    AddMembers(s.objs[ref].tabs, t);
    hide Add, CommandsSound, AdoptingSound;
    if c in s.live && (s.live[c] == ref || t in s.objs[s.live[c]].tabs) {
      forall x | x in s'.owner ensures s'.owner[x] in s'.live && s'.live[s'.owner[x]] in s'.objs && x in s'.objs[s'.live[s'.owner[x]]].tabs {
        assert x != t ==> x in s.owner;
      }
    } else {
      assert t in s'.owner && s'.owner[t] == c;
    }
  }

  lemma CloseIsExact(s: State, c: ClientId)
    requires Inv(s) && Listed(s) && PrimarySound(s) && Enabled(s, CloseCommitted(c))
    ensures var s' := Next(s, CloseCommitted(c)); Listed(s') && (PrimarySound(s') <==> Undisturbed(s, CloseCommitted(c)))
  {
    var s', ref, t := Next(s, CloseCommitted(c)), s.commands[c].ref, s.commands[c].tab;
    assert CommandSound(s, c, s.commands[c]);
    WithoutMembers(s.objs[ref].tabs, t);
    hide Without, CommandsSound, AdoptingSound;
    if !Undisturbed(s, CloseCommitted(c)) {
      assert s'.objs[s'.live[c]].primary == Some(t) && t !in s'.objs[s'.live[c]].tabs;
    }
  }

  lemma EndIsExact(s: State, s': State, c: ClientId, ids: seq<TabId>)
    requires LiveSound(s) && Owned(s) && Listed(s) && PrimarySound(s)
    requires s'.objs == s.objs && s'.live == s.live - {c} && s'.owner == s.owner - set t | t in ids
    ensures PrimarySound(s') && (Listed(s') <==> OwnedBy(s, c) <= set t | t in ids)
  {
    if OwnedBy(s, c) <= set t | t in ids {
      forall x | x in s'.owner ensures s'.owner[x] in s'.live {
        assert s.owner[x] == c ==> x in OwnedBy(s, c);
      }
    } else {
      var x :| x in OwnedBy(s, c) && x !in ids;
      assert x in s'.owner && s'.owner[x] == c && c !in s'.live;
    }
  }

  lemma StartKeepsListing(s: State, step: Step)
    requires Inv(s) && Listed(s) && PrimarySound(s) && Enabled(s, step) && (step.StartCommitted? || step.CleanResumed?)
    ensures Listed(Next(s, step)) && PrimarySound(Next(s, step))
  {
    assert CommandSound(s, step.client, s.commands[step.client]);
    hide CommandsSound, AdoptingSound;
    forall x | x in s.owner ensures s.owner[x] != step.client { }
  }

  lemma ListenersKeepListing(s: State, step: Step)
    requires Inv(s) && Listed(s) && PrimarySound(s) && (step.Regrouped? || step.Removed? || step.GroupRemoved?)
    ensures Listed(Next(s, step)) && PrimarySound(Next(s, step))
  {
    assert Whole(s);
    var h := match step case Regrouped(t, group) => Regroup(t, group) case Removed(t) => Remove(t) case GroupRemoved(c) => DropGroup(c);
    assert Next(s, step) == Handle(s, h);
    hide Inv, Handle, Next;
    HandleKeeps(s, h);
  }

  lemma ListingFrame(s: State, s': State)
    requires s'.objs == s.objs && s'.live == s.live && s'.owner == s.owner
    ensures Listed(s') <==> Listed(s)
    ensures PrimarySound(s') <==> PrimarySound(s)
  {
  }

  lemma AdoptedIsExact(s: State, t: TabId)
    requires Inv(s) && Listed(s) && PrimarySound(s) && Enabled(s, Adopted(t))
    ensures Listed(Next(s, Adopted(t))) && PrimarySound(Next(s, Adopted(t))) <==> Undisturbed(s, Adopted(t))
  {
    hide Listed, PrimarySound, OpenDone;
    OpenIsExact(s, s.adopting[t], t, false);
    ListingFrame(OpenDone(s, s.adopting[t], t, false), Next(s, Adopted(t)));
  }

  lemma OpenedIsExact(s: State, c: ClientId)
    requires Inv(s) && Listed(s) && PrimarySound(s) && Enabled(s, OpenCommitted(c))
    ensures Listed(Next(s, OpenCommitted(c))) && PrimarySound(Next(s, OpenCommitted(c))) <==> Undisturbed(s, OpenCommitted(c))
  {
    assert CommandSound(s, c, s.commands[c]);
    hide Listed, PrimarySound, OpenDone, OwnersAreHome, TabsAreHome, Owned, CommandsSound, AdoptingSound, PopupsSound;
    OpenIsExact(s, s.commands[c].ref, s.commands[c].tab, s.commands[c].makePrimary);
    ListingFrame(OpenDone(s, s.commands[c].ref, s.commands[c].tab, s.commands[c].makePrimary), Next(s, OpenCommitted(c)));
  }

  lemma EndedIsExact(s: State, step: Step)
    requires Inv(s) && Listed(s) && PrimarySound(s) && Enabled(s, step) && (step.EndResumed? || step.PopupResumed?)
    ensures Listed(Next(s, step)) && PrimarySound(Next(s, step)) <==> Undisturbed(s, step)
  {
    hide Listed, PrimarySound, OwnedBy, CommandsSound, AdoptingSound, PopupsSound, OwnersAreHome, TabsAreHome;
    if step.EndResumed? {
      EndIsExact(s, Next(s, step), step.client, s.commands[step.client].ids);
    } else {
      EndIsExact(s, Next(s, step), s.popups[step.popup].client, s.popups[step.popup].ids);
    }
  }

  /** The steps that touch neither sessions nor owners. */
  lemma RecordKeepsListing(s: State, step: Step)
    requires Listed(s) && PrimarySound(s) && Enabled(s, step)
    requires !step.Adopted? && !step.OpenCommitted? && !step.CloseCommitted? && !step.EndResumed? && !step.PopupResumed?
    requires !step.StartCommitted? && !step.CleanResumed? && !step.Regrouped? && !step.Removed? && !step.GroupRemoved?
    ensures Listed(Next(s, step)) && PrimarySound(Next(s, step)) && Undisturbed(s, step)
  {
    hide Listed, PrimarySound;
    ListingFrame(s, Next(s, step));
  }

  /** At await granularity, a step from a state in which clients own exactly the tabs they list and primary tabs are
      listed leads to another such state if and only if it is undisturbed. */
  lemma ListingIsExact(s: State, step: Step)
    requires Inv(s) && Listed(s) && PrimarySound(s) && Enabled(s, step)
    ensures Listed(Next(s, step)) && PrimarySound(Next(s, step)) <==> Undisturbed(s, step)
  {
    hide Inv, Listed, PrimarySound, Next, Enabled;
    match step
    case Adopted(t) => AdoptedIsExact(s, t);
    case OpenCommitted(c) => OpenedIsExact(s, c);
    case CloseCommitted(c) => CloseIsExact(s, c);
    case EndResumed(_) => EndedIsExact(s, step);
    case PopupResumed(_) => EndedIsExact(s, step);
    case StartCommitted(_, _, _) => StartKeepsListing(s, step);
    case CleanResumed(_) => StartKeepsListing(s, step);
    case Regrouped(_, _) => ListenersKeepListing(s, step);
    case Removed(_) => ListenersKeepListing(s, step);
    case GroupRemoved(_) => ListenersKeepListing(s, step);
    case _ => RecordKeepsListing(s, step);
  }

  ghost predicate WellListed(s: State) {
    Listed(s) && PrimarySound(s)
  }

  lemma RunStepIsExact(states: seq<State>, steps: seq<Step>, n: nat)
    requires IsRun(states, steps) && n < |steps|
    ensures Enabled(states[n], steps[n])
    ensures WellListed(states[n]) ==> (WellListed(states[n + 1]) <==> Undisturbed(states[n], steps[n]))
  {
    RunKeepsInv(states, steps, n);
    assert Enabled(states[n], steps[n]) && states[n + 1] == Next(states[n], steps[n]);
    hide Inv, Next, Enabled, Undisturbed;
    if WellListed(states[n]) {
      ListingIsExact(states[n], steps[n]);
    }
  }

  /** Over runs: ownership is listing, and primary tabs are listed, in every state exactly if no step was disturbed. */
  lemma {:induction false} OwnershipIsListingWhileUndisturbed(states: seq<State>, steps: seq<Step>, n: nat)
    requires IsRun(states, steps) && WellListed(states[0]) && n < |states|
    ensures (forall m :: 0 <= m <= n ==> WellListed(states[m])) <==> (forall m :: 0 <= m < n ==> Undisturbed(states[m], steps[m]))
  {
    if n > 0 {
      OwnershipIsListingWhileUndisturbed(states, steps, n - 1);
      var s, step := states[n - 1], steps[n - 1];
      assert Enabled(s, step);
      hide WellListed, Undisturbed, Next, Enabled;
      RunStepIsExact(states, steps, n - 1);
      assert (forall m :: 0 <= m <= n ==> WellListed(states[m])) <==>
             (forall m :: 0 <= m <= n - 1 ==> WellListed(states[m])) && WellListed(states[n]);
      assert (forall m :: 0 <= m < n ==> Undisturbed(states[m], steps[m])) <==>
             (forall m :: 0 <= m < n - 1 ==> Undisturbed(states[m], steps[m])) && Undisturbed(s, step);
    }
  }

  // ---- which sessions have a primary tab ----

  /** Every live session with a tab has a primary one. */
  ghost predicate HasPrimary(s: State) {
    forall c :: c in s.live && s.live[c] in s.objs && s.objs[s.live[c]].tabs != [] ==> s.objs[s.live[c]].primary.Some?
  }

  /** A tab comes into a live session that has a primary tab, or becomes it. */
  ghost predicate Headed(s: State, step: Step)
    requires Enabled(s, step)
  {
    match step
    case Adopted(t) => s.objs[s.adopting[t]].client in s.live && s.live[s.objs[s.adopting[t]].client] == s.adopting[t] ==>
      s.objs[s.adopting[t]].primary.Some?
    case OpenCommitted(c) => c in s.live ==> s.commands[c].makePrimary || s.objs[s.commands[c].ref].primary.Some?
    case _ => true
  }

  lemma OpenIsHeaded(s: State, ref: Ref, t: TabId, makePrimary: bool)
    requires Inv(s) && HasPrimary(s) && ref in s.objs
    ensures HasPrimary(OpenDone(s, ref, t, makePrimary)) <==>
            (s.objs[ref].client in s.live && s.live[s.objs[ref].client] == ref ==> makePrimary || s.objs[ref].primary.Some?)
  {
    var s', c := OpenDone(s, ref, t, makePrimary), s.objs[ref].client;
    AddMembers(s.objs[ref].tabs, t);
    assert t in s'.objs[ref].tabs;
    hide Add, CommandsSound, AdoptingSound, Owned, OwnersAreHome, TabsAreHome;
    if c in s.live && s.live[c] == ref && !makePrimary && s.objs[ref].primary.None? {
      assert s'.live[c] in s'.objs && s'.objs[s'.live[c]].tabs != [];
    }
  }

  /** Sessions that end, or lose tabs without losing a primary one, still have one. */
  lemma FewerTabsKeepPrimary(s: State, s': State)
    requires HasPrimary(s)
    requires forall c :: c in s'.live ==> c in s.live && s'.live[c] == s.live[c]
    requires forall r :: r in s'.objs ==>
      r in s.objs && (s'.objs[r].tabs != [] ==> s.objs[r].tabs != [] && (s.objs[r].primary.Some? ==> s'.objs[r].primary.Some?))
    ensures HasPrimary(s')
  {
  }

  lemma ReleaseKeepsHead(o: Session, t: TabId)
    ensures Released(o, t).tabs != [] ==> o.tabs != [] && (o.primary.Some? ==> Released(o, t).primary.Some?)
  {
  }

  lemma CloseKeepsPrimary(s: State, ref: Ref, t: TabId)
    requires HasPrimary(s) && ref in s.objs
    ensures HasPrimary(CloseDone(s, ref, t))
  {
    WithoutOfNothing();
    hide Without;
    FewerTabsKeepPrimary(s, CloseDone(s, ref, t));
  }

  lemma RegroupKeepsPrimary(s: State, t: TabId, group: GroupId)
    requires HasPrimary(s)
    ensures HasPrimary(OnRegrouped(s, t, group))
  {
    var ref := OwningSession(s, t);
    if ref.Some? && ref.value in s.objs {
      ReleaseKeepsHead(s.objs[ref.value], t);
    }
    hide Released;
    FewerTabsKeepPrimary(s, OnRegrouped(s, t, group));
  }

  lemma RemoveKeepsPrimary(s: State, t: TabId)
    requires HasPrimary(s)
    ensures HasPrimary(OnRemoved(s, t))
  {
    var ref := OwningSession(s, t);
    if ref.Some? && ref.value in s.objs {
      ReleaseKeepsHead(s.objs[ref.value], t);
    }
    hide Released;
    FewerTabsKeepPrimary(s, OnRemoved(s, t));
  }

  lemma PrimaryFrame(s: State, s': State)
    requires HasPrimary(s) && s'.objs == s.objs && s'.live.Keys <= s.live.Keys && forall c :: c in s'.live ==> s'.live[c] == s.live[c]
    ensures HasPrimary(s')
  {
  }

  /** The steps that add no tab to a session, or end one. */
  lemma FrameKeepsPrimary(s: State, step: Step)
    requires HasPrimary(s) && Enabled(s, step) && !step.Adopted? && !step.OpenCommitted?
    requires !step.StartCommitted? && !step.CloseCommitted? && !step.Regrouped? && !step.Removed?
    ensures HasPrimary(Next(s, step))
  {
    hide HasPrimary;
    PrimaryFrame(s, Next(s, step));
  }

  lemma CloseStepKeepsPrimary(s: State, c: ClientId)
    requires HasPrimary(s) && Enabled(s, CloseCommitted(c))
    ensures HasPrimary(Next(s, CloseCommitted(c)))
  {
    hide HasPrimary, CloseDone;
    CloseKeepsPrimary(s, s.commands[c].ref, s.commands[c].tab);
    PrimaryFrame(CloseDone(s, s.commands[c].ref, s.commands[c].tab), Next(s, CloseCommitted(c)));
  }

  lemma OthersKeepPrimary(s: State, step: Step)
    requires HasPrimary(s) && Enabled(s, step) && !step.Adopted? && !step.OpenCommitted?
    ensures HasPrimary(Next(s, step))
  {
    hide HasPrimary, OnRemoved, OnRegrouped, Commit, CloseDone, DropSession, EndDone;
    match step
    case StartCommitted(c, ref, group) => CommitKeepsPrimary(s, c, ref, group, s.commands[c].tab);
    case CloseCommitted(c) => CloseStepKeepsPrimary(s, c);
    case Regrouped(t, group) => RegroupKeepsPrimary(s, t, group);
    case Removed(t) => RemoveKeepsPrimary(s, t);
    case Adopted(_) =>
    case OpenCommitted(_) =>
    case _ => FrameKeepsPrimary(s, step);
  }

  lemma CommitKeepsPrimary(s: State, c: ClientId, ref: Ref, group: GroupId, t: TabId)
    requires HasPrimary(s) && ref !in s.objs
    ensures HasPrimary(Commit(s, c, ref, group, t))
    ensures HasPrimary(Done(Commit(s, c, ref, group, t), c))
  {
  }

  lemma WithoutOfNothing()
    ensures forall t :: Without([], t) == []
  {
  }

  /** At await granularity, a step from a state in which every session with tabs has a primary one leads to another such
      state if and only if it is headed. */
  lemma PrimaryIsExact(s: State, step: Step)
    requires Inv(s) && HasPrimary(s) && Enabled(s, step)
    ensures HasPrimary(Next(s, step)) <==> Headed(s, step)
  {
    match step
    case Adopted(t) =>
      OpenIsHeaded(s, s.adopting[t], t, false);
    case OpenCommitted(c) =>
      assert CommandSound(s, c, s.commands[c]);
      OpenIsHeaded(s, s.commands[c].ref, s.commands[c].tab, s.commands[c].makePrimary);
    case _ => OthersKeepPrimary(s, step);
  }

  // ---- what interruption can leave behind ----

  const CLIENT: ClientId := 5

  /** One session with one tab. */
  function OneTab(): State {
    State(map[0 := Session(CLIENT, 9, [1], Some(1))], map[CLIENT := 0], map[1 := CLIENT], map[1 := CLIENT], map[], map[], [])
  }

  /** A tab opened by the page is still being grouped when the session ends: it is owned by a client with no session. */
  lemma EndDuringAdoptionLeavesAnOwner()
    ensures var s1 := Next(OneTab(), TabCreated(2, 1));
      && Enabled(s1, BeginEnd(CLIENT))
      && var s2 := Next(s1, BeginEnd(CLIENT));
      && Enabled(s2, EndResumed(CLIENT))
      && var s3 := Next(s2, EndResumed(CLIENT));
      && Enabled(s3, Adopted(2))
      && var s4 := Next(s3, Adopted(2));
      && 2 in s4.owner && s4.owner[2] == CLIENT && CLIENT !in s4.live
  {
  }

  /** Three tabs, the first one primary. */
  function ThreeTabs(): State {
    State(map[0 := Session(CLIENT, 9, [1, 2, 3], Some(1))], map[CLIENT := 0], map[1 := CLIENT, 2 := CLIENT, 3 := CLIENT],
          map[1 := CLIENT, 2 := CLIENT, 3 := CLIENT], map[], map[], [])
  }

  /** The first tab is gone, the second is primary and being closed. */
  function HandedOn(): State {
    State(map[0 := Session(CLIENT, 9, [2, 3], Some(2))], map[CLIENT := 0], map[2 := CLIENT, 3 := CLIENT],
          map[1 := CLIENT, 2 := CLIENT, 3 := CLIENT], map[CLIENT := Closing(0, 2)], map[], [])
  }

  /** The primary tab goes away while another is being closed: the one being closed becomes primary, and then is
      listed no more. */
  lemma CloseCanLeaveADanglingPrimary()
    ensures var s1 := Next(ThreeTabs(), BeginClose(CLIENT, 2));
      && Next(s1, Removed(1)) == HandedOn() && Enabled(HandedOn(), CloseCommitted(CLIENT))
      && var s3 := Next(HandedOn(), CloseCommitted(CLIENT));
      && CLIENT in s3.live && s3.objs[0].primary == Some(2) && s3.objs[0].tabs == [3]
  {
    WithoutOfThree();
    hide Without;
    assert Released(ThreeTabs().objs[0], 1) == HandedOn().objs[0];
  }

  lemma WithoutOfThree()
    ensures Without([1, 2, 3], 1) == [2, 3] && Without([2, 3], 2) == [3]
  {
    assert [1, 2, 3][1..] == [2, 3] && [2, 3][1..] == [3] && [3][1..] == [];
    assert Without([3], 1) == [3] && Without([3], 2) == [3] && Without([2, 3], 1) == [2, 3];
  }

  /** Dragging the only tab out of the group and then opening one without making it primary leaves a session with a
      tab and no primary one, without any interruption. */
  lemma OpenAfterDragOutHasNoPrimary()
    ensures Whole(OneTab())
    ensures var s := Handle(Handle(OneTab(), Regroup(1, 8)), Open(CLIENT, 2, false));
      CLIENT in s.live && s.objs[s.live[CLIENT]].tabs == [2] && s.objs[s.live[CLIENT]].primary == None
  {
    assert Without([1], 1) == [] && [] + [2] == [2];
  }
}
