/**
 Tab ownership over every interleaving, at await granularity, of commands and browser events; and what more holds
 when handlers are not interrupted.
 */
module TabSessionRuns {
  import opened Options
  import opened TabSessions

  datatype Step =
    | BeginStart(client: ClientId)
    | BeginEnd(client: ClientId)
    | BeginOpen(client: ClientId, makePrimary: bool)
    | BeginClose(client: ClientId, tab: TabId)
    | EndResumed(client: ClientId)
    | PopupBegan(client: ClientId)
    | PopupResumed(popup: nat)
    | OwnersListed(client: ClientId, left: seq<TabId>)
    | CleanResumed(client: ClientId)
    | WindowCreated(client: ClientId, tab: TabId)
    | StartCommitted(client: ClientId, ref: Ref, group: GroupId)
    | OpenCreated(client: ClientId, tab: TabId)
    | OpenCommitted(client: ClientId)
    | CloseCommitted(client: ClientId)
    | CommandFailed(client: ClientId)
    | TabCreated(tab: TabId, opener: TabId)
    | Adopted(tab: TabId)
    | AdoptionFailed(tab: TabId)
    | Regrouped(tab: TabId, group: GroupId)
    | Removed(tab: TabId)
    | GroupRemoved(client: ClientId)

  predicate Waits(s: State, c: ClientId) {
    c in s.commands
  }

  /** The session a client's commands act on. */
  function Current(s: State, c: ClientId): Option<Ref> {
    if c in s.live && s.live[c] in s.objs then Some(s.live[c]) else None
  }

  ghost predicate Enabled(s: State, step: Step) {
    match step
    case BeginStart(c) => !Waits(s, c)
    case BeginEnd(c) => !Waits(s, c)
    case BeginOpen(c, _) => !Waits(s, c)
    case BeginClose(c, _) => !Waits(s, c)
    case EndResumed(c) => Waits(s, c) && s.commands[c].Ending?
    case PopupResumed(i) => i < |s.popups|
    case OwnersListed(c, left) => Waits(s, c) && s.commands[c] == Cleaning([]) && c !in s.live
                                  && forall t :: t in left <==> t in s.owner && s.owner[t] == c
    case CleanResumed(c) => Waits(s, c) && s.commands[c].Cleaning?
    case WindowCreated(c, t) => Waits(s, c) && s.commands[c].CreatingWindow? && t !in s.home
    case StartCommitted(c, ref, _) => Waits(s, c) && s.commands[c].Grouping? && ref !in s.objs
    case OpenCreated(c, t) => Waits(s, c) && s.commands[c].Opening? && t !in s.home
    case OpenCommitted(c) => Waits(s, c) && s.commands[c].OpenGrouping? && s.commands[c].ref in s.objs
    case CloseCommitted(c) => Waits(s, c) && s.commands[c].Closing? && s.commands[c].ref in s.objs
    case CommandFailed(c) => Waits(s, c) && !s.commands[c].Ending? && !s.commands[c].Cleaning?
    case TabCreated(t, _) => t !in s.home
    case Adopted(t) => t in s.adopting && s.adopting[t] in s.objs
    case AdoptionFailed(t) => t in s.adopting
    case _ => true
  }

  function Done(s: State, c: ClientId): State {
    s.(commands := s.commands - {c})
  }

  function Waiting(s: State, c: ClientId, command: Command): State {
    s.(commands := s.commands[c := command])
  }

  function Born(s: State, t: TabId, c: ClientId): State {
    s.(home := s.home[t := c])
  }

  function Next(s: State, step: Step): State
    requires Enabled(s, step)
  {
    match step
    case BeginStart(c) =>
      if Current(s, c).Some? then Waiting(s, c, Ending(s.live[c], s.objs[s.live[c]].tabs, true)) else Waiting(s, c, Cleaning([]))
    case BeginEnd(c) =>
      if Current(s, c).Some? then Waiting(s, c, Ending(s.live[c], s.objs[s.live[c]].tabs, false)) else s
    case BeginOpen(c, makePrimary) =>
      if Current(s, c).Some? then Waiting(s, c, Opening(s.live[c], makePrimary)) else s
    case BeginClose(c, t) =>
      if Current(s, c).Some? && t in s.objs[s.live[c]].tabs && s.objs[s.live[c]].primary != Some(t) then
        Waiting(s, c, Closing(s.live[c], t))
      else s
    case EndResumed(c) =>
      var s1 := EndDone(s, c, s.commands[c].ids);
      if s.commands[c].restart then Waiting(s1, c, Cleaning([])) else Done(s1, c)
    case PopupBegan(c) =>
      if Current(s, c).Some? then s.(popups := s.popups + [PopupEnd(c, s.objs[s.live[c]].tabs)]) else s
    case PopupResumed(i) => EndDone(s, s.popups[i].client, s.popups[i].ids).(popups := s.popups[..i] + s.popups[i + 1..])
    case OwnersListed(c, left) => Waiting(s, c, Cleaning(left))
    case CleanResumed(c) =>
      var left := s.commands[c].left;
      if left == [] then Waiting(s, c, CreatingWindow)
      else Waiting(s.(owner := s.owner - {left[0]}), c, Cleaning(left[1..]))
    case WindowCreated(c, t) => Waiting(Born(s, t, c), c, Grouping(t))
    case StartCommitted(c, ref, group) => Done(Commit(s, c, ref, group, s.commands[c].tab), c)
    case OpenCreated(c, t) => Waiting(Born(s, t, c), c, OpenGrouping(s.commands[c].ref, t, s.commands[c].makePrimary))
    case OpenCommitted(c) => Done(OpenDone(s, s.commands[c].ref, s.commands[c].tab, s.commands[c].makePrimary), c)
    case CloseCommitted(c) => Done(CloseDone(s, s.commands[c].ref, s.commands[c].tab), c)
    case CommandFailed(c) => Done(s, c)
    case TabCreated(t, opener) =>
      var ref := OwningSession(s, opener);
      if ref.Some? then Born(s, t, s.owner[opener]).(adopting := s.adopting[t := ref.value]) else s
    case Adopted(t) => OpenDone(s, s.adopting[t], t, false).(adopting := s.adopting - {t})
    case AdoptionFailed(t) => s.(adopting := s.adopting - {t})
    case Regrouped(t, group) => OnRegrouped(s, t, group)
    case Removed(t) => OnRemoved(s, t)
    case GroupRemoved(c) => DropSession(s, c)
  }

  // ---- the invariant ----

  predicate Homed(s: State, t: TabId, c: ClientId) {
    t in s.home && s.home[t] == c
  }

  ghost predicate OwnersAreHome(s: State) {
    forall t :: t in s.owner ==> Homed(s, t, s.owner[t])
  }

  ghost predicate TabsAreHome(s: State) {
    forall r, t :: r in s.objs && t in s.objs[r].tabs ==> Homed(s, t, s.objs[r].client)
  }

  ghost predicate LiveSound(s: State) {
    forall c :: c in s.live ==> s.live[c] in s.objs && s.objs[s.live[c]].client == c
  }

  /** Every tab listed in a live session is owned by that session's client. */
  ghost predicate Owned(s: State) {
    forall c, t :: c in s.live && s.live[c] in s.objs && t in s.objs[s.live[c]].tabs ==> t in s.owner && s.owner[t] == c
  }

  /** The object a waiting command of `c` holds is the client's session, as long as the client has one. */
  ghost predicate Grip(s: State, c: ClientId, ref: Ref) {
    ref in s.objs && s.objs[ref].client == c && (c in s.live ==> s.live[c] == ref)
  }

  ghost predicate CommandSound(s: State, c: ClientId, command: Command) {
    match command
    case Ending(ref, ids, _) => Grip(s, c, ref) && forall t :: t in ids ==> Homed(s, t, c)
    case Cleaning(left) => c !in s.live && forall t :: t in left ==> Homed(s, t, c)
    case CreatingWindow => c !in s.live
    case Grouping(t) => c !in s.live && Homed(s, t, c)
    case Opening(ref, _) => Grip(s, c, ref)
    case OpenGrouping(ref, t, _) => Grip(s, c, ref) && Homed(s, t, c)
    case Closing(ref, t) => Grip(s, c, ref) && Homed(s, t, c)
  }

  ghost predicate CommandsSound(s: State) {
    forall c :: c in s.commands ==> CommandSound(s, c, s.commands[c])
  }

  ghost predicate AdoptingSound(s: State) {
    forall t :: t in s.adopting ==> s.adopting[t] in s.objs && Homed(s, t, s.objs[s.adopting[t]].client)
  }

  ghost predicate PopupsSound(s: State) {
    forall i, t :: 0 <= i < |s.popups| && t in s.popups[i].ids ==> Homed(s, t, s.popups[i].client)
  }

  ghost predicate Inv(s: State) {
    OwnersAreHome(s) && TabsAreHome(s) && LiveSound(s) && Owned(s) && CommandsSound(s) && AdoptingSound(s) && PopupsSound(s)
  }

  lemma {:induction false} WithoutMembers(tabs: seq<TabId>, t: TabId)
    ensures forall x :: x in Without(tabs, t) <==> x in tabs && x != t
  {
    if tabs != [] {
      WithoutMembers(tabs[1..], t);
      assert tabs == [tabs[0]] + tabs[1..];
    }
  }

  /** Homes and clients stay, sessions only end: what was known of a waiting command stays known. */
  lemma CommandsStay(s: State, s': State)
    requires CommandsSound(s) && AdoptingSound(s) && PopupsSound(s)
    requires s'.adopting.Keys <= s.adopting.Keys && s.objs.Keys <= s'.objs.Keys && (forall p :: p in s'.popups ==> p in s.popups)
    requires forall r :: r in s.objs ==> s'.objs[r].client == s.objs[r].client
    requires forall t :: t in s.home ==> t in s'.home && s'.home[t] == s.home[t]
    requires forall c :: c in s'.commands && c in s'.live ==> c in s.live && s'.live[c] == s.live[c]
    requires forall c :: c in s'.commands ==> (c in s.commands && s'.commands[c] == s.commands[c]) || CommandSound(s', c, s'.commands[c])
    requires forall t :: t in s'.adopting ==> s'.adopting[t] == s.adopting[t]
    ensures CommandsSound(s') && AdoptingSound(s') && PopupsSound(s')
  {
    forall c | c in s'.commands ensures CommandSound(s', c, s'.commands[c]) {
      if c in s.commands && s'.commands[c] == s.commands[c] { assert CommandSound(s, c, s.commands[c]); }
    }
    hide CommandSound;
    forall i, t | 0 <= i < |s'.popups| && t in s'.popups[i].ids ensures Homed(s', t, s'.popups[i].client) {
      assert s'.popups[i] in s'.popups;
      var k :| 0 <= k < |s.popups| && s.popups[k] == s'.popups[i];
    }
  }

  /** Disowning tabs of a client that has no session, or loses it, takes no tab from the others. */
  lemma DisownKeeps(s: State, s': State, gone: set<TabId>, c: ClientId)
    requires OwnersAreHome(s) && TabsAreHome(s) && LiveSound(s) && Owned(s)
    requires s'.owner == s.owner - gone && s'.objs == s.objs && s'.live == s.live - {c} && s'.home == s.home
    requires forall t :: t in gone ==> Homed(s, t, c)
    ensures OwnersAreHome(s') && TabsAreHome(s') && LiveSound(s') && Owned(s')
  {
    forall d, t | d in s'.live && s'.live[d] in s'.objs && t in s'.objs[s'.live[d]].tabs ensures t in s'.owner && s'.owner[t] == d {
      assert Homed(s, t, s.objs[s.live[d]].client);
    }
  }

  /** Beginning a command only records where it waits, with a grip on the client's session. */
  lemma BeginEffect(s: State, step: Step)
    requires TabsAreHome(s) && LiveSound(s) && Enabled(s, step)
    requires step.BeginStart? || step.BeginEnd? || step.BeginOpen? || step.BeginClose?
    ensures var s', c := Next(s, step), step.client;
      && s' == s.(commands := s'.commands)
      && (s'.commands == s.commands
          || (c in s'.commands && s'.commands == s.commands[c := s'.commands[c]] && CommandSound(s', c, s'.commands[c])))
  {
    if Current(s, step.client).Some? {
      assert forall t :: t in s.objs[s.live[step.client]].tabs ==> Homed(s, t, step.client);
    }
  }

  lemma BeginKeeps(s: State, step: Step)
    requires Inv(s) && Enabled(s, step) && (step.BeginStart? || step.BeginEnd? || step.BeginOpen? || step.BeginClose?)
    ensures Inv(Next(s, step))
  {
    var s' := Next(s, step);
    BeginEffect(s, step);
    hide CommandSound, OwnersAreHome, TabsAreHome, LiveSound, Owned, Next, Enabled;
    OwnershipFrame(s, s');
    CommandsStay(s, s');
  }

  lemma OwnershipFrame(s: State, s': State)
    requires s'.objs == s.objs && s'.live == s.live && s'.owner == s.owner && s'.home == s.home
    ensures OwnersAreHome(s) ==> OwnersAreHome(s')
    ensures TabsAreHome(s) ==> TabsAreHome(s')
    ensures LiveSound(s) ==> LiveSound(s')
    ensures Owned(s) ==> Owned(s')
  {
  }

  lemma FailKeeps(s: State, step: Step)
    requires Inv(s) && Enabled(s, step) && (step.CommandFailed? || step.AdoptionFailed?)
    ensures Inv(Next(s, step))
  {
    OwnershipFrame(s, Next(s, step));
    hide CommandSound, OwnersAreHome, TabsAreHome, LiveSound, Owned;
    CommandsStay(s, Next(s, step));
  }

  lemma EndKeeps(s: State, c: ClientId)
    requires Inv(s) && Waits(s, c) && s.commands[c].Ending?
    ensures Inv(Next(s, EndResumed(c)))
  {
    var s' := Next(s, EndResumed(c));
    assert CommandSound(s, c, s.commands[c]);
    assert s'.live == s.live - {c} && s' == s.(owner := s'.owner, live := s'.live, commands := s'.commands);
    assert forall d :: d in s'.commands ==> (d in s.commands && s'.commands[d] == s.commands[d]) || CommandSound(s', d, s'.commands[d]);
    hide Next, EndDone, CommandSound, OwnersAreHome, TabsAreHome, LiveSound, Owned;
    DisownKeeps(s, s', (set t | t in s.commands[c].ids), c);
    CommandsStay(s, s');
  }

  lemma PopupBeganKeeps(s: State, c: ClientId)
    requires Inv(s)
    ensures Inv(Next(s, PopupBegan(c)))
  {
    var s' := Next(s, PopupBegan(c));
    OwnershipFrame(s, s');
    forall d | d in s'.commands ensures CommandSound(s', d, s'.commands[d]) { assert CommandSound(s, d, s.commands[d]); }
    assert Current(s, c).Some? ==> forall t :: t in s.objs[s.live[c]].tabs ==> Homed(s, t, c);
  }

  /** Whatever session the client has by then is gone, and owns none of the tabs snapshotted. */
  lemma PopupResumedKeeps(s: State, i: nat)
    requires Inv(s) && i < |s.popups|
    ensures Inv(Next(s, PopupResumed(i)))
  {
    var s' := Next(s, PopupResumed(i));
    DisownKeeps(s, s', (set t | t in s.popups[i].ids), s.popups[i].client);
    hide OwnersAreHome, TabsAreHome, LiveSound, Owned, CommandSound;
    CommandsStay(s, s');
  }

  lemma ListedKeeps(s: State, c: ClientId, left: seq<TabId>)
    requires Inv(s) && Enabled(s, OwnersListed(c, left))
    ensures Inv(Next(s, OwnersListed(c, left)))
  {
    var s' := Next(s, OwnersListed(c, left));
    OwnershipFrame(s, s');
    forall t | t in left ensures Homed(s', t, c) { assert t in s.owner && s.owner[t] == c; }
    assert CommandSound(s', c, Cleaning(left));
    hide CommandSound, Owned;
    CommandsStay(s, s');
  }

  lemma CleanKeeps(s: State, c: ClientId)
    requires Inv(s) && Enabled(s, CleanResumed(c))
    ensures Inv(Next(s, CleanResumed(c)))
  {
    var s' := Next(s, CleanResumed(c));
    var left := s.commands[c].left;
    assert CommandSound(s, c, s.commands[c]);
    if left != [] {
      assert s.live - {c} == s.live;
      DisownKeeps(s, s', {left[0]}, c);
      assert forall t :: t in left[1..] ==> t in left;
      assert CommandSound(s', c, Cleaning(left[1..]));
    } else {
      OwnershipFrame(s, s');
      assert CommandSound(s', c, CreatingWindow);
    }
    hide CommandSound, Owned;
    CommandsStay(s, s');
  }

  lemma BirthFrame(s: State, s': State, t: TabId, c: ClientId)
    requires OwnersAreHome(s) && TabsAreHome(s) && LiveSound(s) && Owned(s) && t !in s.home
    requires s'.objs == s.objs && s'.live == s.live && s'.owner == s.owner && s'.home == s.home[t := c]
    ensures OwnersAreHome(s') && TabsAreHome(s') && LiveSound(s') && Owned(s')
  {
  }

  lemma CreateKeeps(s: State, step: Step)
    requires Inv(s) && Enabled(s, step) && (step.WindowCreated? || step.OpenCreated?)
    ensures Inv(Next(s, step))
  {
    var s', c := Next(s, step), step.client;
    assert CommandSound(s, c, s.commands[c]);
    assert CommandSound(s', c, s'.commands[c]);
    BirthFrame(s, s', step.tab, c);
    hide CommandSound, OwnersAreHome, TabsAreHome, LiveSound, Owned;
    CommandsStay(s, s');
  }

  lemma StartKeeps(s: State, step: Step)
    requires Inv(s) && Enabled(s, step) && step.StartCommitted?
    ensures Inv(Next(s, step))
  {
    assert CommandSound(s, step.client, s.commands[step.client]);
    CommandsStay(s, Next(s, step));
  }

  lemma OpenDoneOwns(s: State, ref: Ref, t: TabId, makePrimary: bool)
    requires OwnersAreHome(s) && TabsAreHome(s) && LiveSound(s) && Owned(s) && ref in s.objs && Homed(s, t, s.objs[ref].client)
    ensures var s' := OpenDone(s, ref, t, makePrimary); OwnersAreHome(s') && TabsAreHome(s') && LiveSound(s') && Owned(s')
  {
    assert forall x :: x in Add(s.objs[ref].tabs, t) <==> x in s.objs[ref].tabs || x == t;
  }

  lemma OpenDoneKeeps(s: State, s': State, ref: Ref, t: TabId, makePrimary: bool)
    requires Inv(s) && ref in s.objs && Homed(s, t, s.objs[ref].client)
    requires OpenDone(s, ref, t, makePrimary) == s'.(commands := s.commands, adopting := s.adopting)
    requires s'.commands.Keys <= s.commands.Keys && (forall c :: c in s'.commands ==> s'.commands[c] == s.commands[c])
    requires s'.adopting.Keys <= s.adopting.Keys && (forall t :: t in s'.adopting ==> s'.adopting[t] == s.adopting[t])
    ensures Inv(s')
  {
    OpenDoneOwns(s, ref, t, makePrimary);
    assert OwnersAreHome(s') && TabsAreHome(s') && LiveSound(s') && Owned(s');
    hide CommandSound, OwnersAreHome, TabsAreHome, LiveSound, Owned;
    CommandsStay(s, s');
  }

  lemma CloseDoneKeeps(s: State, c: ClientId)
    requires Inv(s) && Enabled(s, CloseCommitted(c))
    ensures Inv(Next(s, CloseCommitted(c)))
  {
    assert CommandSound(s, c, s.commands[c]);
    WithoutMembers(s.objs[s.commands[c].ref].tabs, s.commands[c].tab);
    hide CommandSound;
    CommandsStay(s, Next(s, CloseCommitted(c)));
  }

  lemma CreatedKeeps(s: State, t: TabId, opener: TabId)
    requires Inv(s) && t !in s.home
    ensures Inv(Next(s, TabCreated(t, opener)))
  {
    var s' := Next(s, TabCreated(t, opener));
    forall c | c in s'.commands ensures CommandSound(s', c, s'.commands[c]) { assert CommandSound(s, c, s.commands[c]); }
  }

  /** A tab leaves the session that owns it, and `tabOwner` with it; the session may end. */
  lemma ReleaseKeeps(s: State, s': State, ref: Ref, t: TabId)
    requires Inv(s) && ref in s.objs && Homed(s, t, s.objs[ref].client)
    requires s' == s.(objs := s.objs[ref := Released(s.objs[ref], t)], owner := s.owner - {t}, live := s'.live)
    requires s'.live == s.live || s'.live == s.live - {s.objs[ref].client}
    requires s.objs[ref].client in s.live && s.live[s.objs[ref].client] == ref
    ensures Inv(s')
  {
    assert OwnersAreHome(s') && TabsAreHome(s') && LiveSound(s') && Owned(s') by {
      hide CommandsSound, AdoptingSound, PopupsSound;
      WithoutMembers(s.objs[ref].tabs, t);
      forall d, x | d in s'.live && s'.live[d] in s'.objs && x in s'.objs[s'.live[d]].tabs ensures x in s'.owner && s'.owner[x] == d {
        assert x in s.objs[s.live[d]].tabs && Homed(s, x, s.objs[s.live[d]].client);
      }
    }
    hide CommandSound, OwnersAreHome, TabsAreHome, LiveSound, Owned;
    CommandsStay(s, s');
  }

  lemma RegroupedKeeps(s: State, t: TabId, group: GroupId)
    requires Inv(s)
    ensures Inv(OnRegrouped(s, t, group))
  {
    var ref := OwningSession(s, t);
    if ref.Some? && ref.value in s.objs && group != s.objs[ref.value].group {
      ReleaseKeeps(s, OnRegrouped(s, t, group), ref.value, t);
    }
  }

  lemma RemovedKeeps(s: State, t: TabId)
    requires Inv(s)
    ensures Inv(OnRemoved(s, t))
  {
    var s' := OnRemoved(s, t);
    var ref := OwningSession(s, t);
    if ref.Some? {
      ReleaseKeeps(s, s', ref.value, t);
    } else {
      assert forall d, x :: d in s.live && s.live[d] in s.objs && x in s.objs[s.live[d]].tabs ==> x != t;
      hide CommandSound;
      CommandsStay(s, s');
    }
  }

  lemma DropKeeps(s: State, c: ClientId)
    requires Inv(s)
    ensures Inv(DropSession(s, c))
  {
    var s' := DropSession(s, c);
    if c in s.live {
      DisownKeeps(s, s', (set t | t in s.objs[s.live[c]].tabs), c);
      hide CommandSound, Owned, TabsAreHome;
      CommandsStay(s, s');
    }
  }

  lemma StepKeeps(s: State, step: Step)
    requires Inv(s) && Enabled(s, step)
    ensures Inv(Next(s, step))
  {
    hide OwnersAreHome, TabsAreHome, LiveSound, Owned;
    match step
    case OpenCommitted(c) =>
      assert CommandSound(s, c, s.commands[c]);
      OpenDoneKeeps(s, Next(s, step), s.commands[c].ref, s.commands[c].tab, s.commands[c].makePrimary);
    case Adopted(t) => OpenDoneKeeps(s, Next(s, step), s.adopting[t], t, false);
    case CommandFailed(_) => FailKeeps(s, step);
    case AdoptionFailed(_) => FailKeeps(s, step);
    case CloseCommitted(c) => CloseDoneKeeps(s, c);
    case TabCreated(t, opener) => CreatedKeeps(s, t, opener);
    case EndResumed(c) => EndKeeps(s, c);
    case PopupBegan(c) => PopupBeganKeeps(s, c);
    case PopupResumed(i) => PopupResumedKeeps(s, i);
    case OwnersListed(c, left) => ListedKeeps(s, c, left);
    case CleanResumed(c) => CleanKeeps(s, c);
    case WindowCreated(_, _) => CreateKeeps(s, step);
    case OpenCreated(_, _) => CreateKeeps(s, step);
    case StartCommitted(_, _, _) => StartKeeps(s, step);
    case Regrouped(t, group) => RegroupedKeeps(s, t, group);
    case Removed(t) => RemovedKeeps(s, t);
    case GroupRemoved(c) => DropKeeps(s, c);
    case _ => BeginKeeps(s, step);
  }

  /** Nothing is under way: no sessions yet, or those just restored with the owners of the tabs they list. */
  ghost predicate Loaded(s: State) {
    && s.commands == map[] && s.adopting == map[] && s.popups == [] && s.home == s.owner
    && (forall r, t :: r in s.objs && t in s.objs[r].tabs ==> t in s.owner && s.owner[t] == s.objs[r].client)
    && (forall c :: c in s.live ==> s.live[c] in s.objs && s.objs[s.live[c]].client == c)
  }

  ghost predicate IsRun(states: seq<State>, steps: seq<Step>) {
    && |states| == |steps| + 1 && Loaded(states[0])
    && forall i :: 0 <= i < |steps| ==> Enabled(states[i], steps[i]) && states[i + 1] == Next(states[i], steps[i])
  }

  lemma {:induction false} RunKeepsInv(states: seq<State>, steps: seq<Step>, n: nat)
    requires IsRun(states, steps) && n < |states|
    ensures Inv(states[n])
  {
    if n > 0 {
      RunKeepsInv(states, steps, n - 1);
      hide Inv, Next, Enabled;
      StepKeeps(states[n - 1], steps[n - 1]);
    }
  }

  /** In every interleaving of commands and browser events, every tab listed in a live session is owned by that
      session's client, so live sessions never share a tab. */
  lemma LiveTabsAreOwned(states: seq<State>, steps: seq<Step>, n: nat, c: ClientId, t: TabId)
    requires IsRun(states, steps) && n < |states| && c in states[n].live
    ensures states[n].live[c] in states[n].objs && states[n].objs[states[n].live[c]].client == c
    ensures t in states[n].objs[states[n].live[c]].tabs ==>
      && t in states[n].owner && states[n].owner[t] == c
      && forall d :: d in states[n].live && states[n].live[d] in states[n].objs && d != c ==> t !in states[n].objs[states[n].live[d]].tabs
  {
    RunKeepsInv(states, steps, n);
  }
}
