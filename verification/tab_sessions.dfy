/**
 Tab ownership in the extension (extension/background.js): the session objects, the `sessions` map from clients to
 them, and the `tabOwner` map, as changed by the stretches of code between two awaits.

 Handlers hold on to a session object across an await, so objects have references here and outlive their place in
 `sessions`. `home` is not in the program: it remembers the client each tab was created for. Tab ids are never reused.
 */
module TabSessions {
  import opened Options

  type TabId = nat
  type ClientId = nat
  type GroupId = nat
  type Ref = nat

  /** `tabs` lists the tab ids in insertion order. */
  datatype Session = Session(client: ClientId, group: GroupId, tabs: seq<TabId>, primary: Option<TabId>)

  /** Where a client's command waits. Commands of one client run one at a time. */
  datatype Command =
    | Ending(ref: Ref, ids: seq<TabId>, restart: bool)
    | Cleaning(left: seq<TabId>)
    | CreatingWindow
    | Grouping(tab: TabId)
    | Opening(ref: Ref, makePrimary: bool)
    | OpenGrouping(ref: Ref, tab: TabId, makePrimary: bool)
    | Closing(ref: Ref, tab: TabId)

  /** The popup's "end all sessions" ends a client's session outside the client's queue: the tabs it snapshotted. */
  datatype PopupEnd = PopupEnd(client: ClientId, ids: seq<TabId>)

  datatype State = State(
    objs: map<Ref, Session>, live: map<ClientId, Ref>, owner: map<TabId, ClientId>, home: map<TabId, ClientId>,
    commands: map<ClientId, Command>, adopting: map<TabId, Ref>, popups: seq<PopupEnd>)

  function Add(tabs: seq<TabId>, t: TabId): seq<TabId> {
    if t in tabs then tabs else tabs + [t]
  }

  function Without(tabs: seq<TabId>, t: TabId): seq<TabId> {
    if tabs == [] then []
    else if tabs[0] == t then Without(tabs[1..], t)
    else [tabs[0]] + Without(tabs[1..], t)
  }

  function First(tabs: seq<TabId>): Option<TabId> {
    if tabs == [] then None else Some(tabs[0])
  }

  /** The tab leaves the session; if it was the primary one, the first tab left takes over. */
  function Released(s: Session, t: TabId): Session {
    var tabs := Without(s.tabs, t);
    s.(tabs := tabs, primary := if s.primary == Some(t) then First(tabs) else s.primary)
  }

  // ---- the stretches that change the maps ----

  function Commit(s: State, c: ClientId, ref: Ref, group: GroupId, t: TabId): State {
    s.(objs := s.objs[ref := Session(c, group, [t], Some(t))], live := s.live[c := ref], owner := s.owner[t := c])
  }

  function EndDone(s: State, c: ClientId, ids: seq<TabId>): State {
    s.(owner := s.owner - (set t | t in ids), live := s.live - {c})
  }

  function OpenDone(s: State, ref: Ref, t: TabId, makePrimary: bool): State
    requires ref in s.objs
  {
    var o := s.objs[ref];
    s.(objs := s.objs[ref := o.(tabs := Add(o.tabs, t), primary := if makePrimary then Some(t) else o.primary)],
       owner := s.owner[t := o.client])
  }

  function CloseDone(s: State, ref: Ref, t: TabId): State
    requires ref in s.objs
  {
    s.(objs := s.objs[ref := s.objs[ref].(tabs := Without(s.objs[ref].tabs, t))], owner := s.owner - {t})
  }

  // ---- the listeners ----

  function OwningSession(s: State, t: TabId): Option<Ref> {
    if t in s.owner && s.owner[t] in s.live then Some(s.live[s.owner[t]]) else None
  }

  /** `tabs.onUpdated`: a tab of a session is found in another group. */
  function OnRegrouped(s: State, t: TabId, group: GroupId): State {
    var ref := OwningSession(s, t);
    if ref.Some? && ref.value in s.objs && group != s.objs[ref.value].group then
      s.(objs := s.objs[ref.value := Released(s.objs[ref.value], t)], owner := s.owner - {t})
    else s
  }

  /** `tabs.onRemoved` */
  function OnRemoved(s: State, t: TabId): State {
    var s1 := s.(owner := s.owner - {t});
    var ref := OwningSession(s, t);
    if ref.Some? && ref.value in s.objs then
      var o := Released(s.objs[ref.value], t);
      s1.(objs := s.objs[ref.value := o], live := if o.tabs == [] then s.live - {s.owner[t]} else s.live)
    else s1
  }

  /** `tabGroups.onRemoved` for the group of client `c`. */
  function DropSession(s: State, c: ClientId): State {
    if c in s.live && s.live[c] in s.objs then EndDone(s, c, s.objs[s.live[c]].tabs) else s
  }

  // ---- the maps as the script keeps them ----

  class Background {
    var objs: map<Ref, Session>
    var sessions: map<ClientId, Ref>
    var tabOwner: map<TabId, ClientId>

    constructor ()
      ensures objs == map[] && sessions == map[] && tabOwner == map[]
    {
      objs, sessions, tabOwner := map[], map[], map[];
    }

    /** The maps hold what `s` says. */
    predicate Holds(s: State)
      reads this
    {
      objs == s.objs && sessions == s.live && tabOwner == s.owner
    }

    method DropOwners(ids: seq<TabId>)
      modifies `tabOwner
      ensures tabOwner == old(tabOwner) - (set t | t in ids)
    {
      var i := 0;
      while i < |ids|
        invariant i <= |ids| && tabOwner == old(tabOwner) - (set t | t in ids[..i])
      {
        assert ids[..i + 1] == ids[..i] + [ids[i]];
        tabOwner := tabOwner - {ids[i]};
        i := i + 1;
      }
      assert ids[..i] == ids;
    }

    method FinishEnd(ghost s: State, c: ClientId, ids: seq<TabId>)
      requires Holds(s)
      modifies this
      ensures Holds(EndDone(s, c, ids))
    {
      DropOwners(ids);
      sessions := sessions - {c};
    }

    method Drop(ghost s: State, c: ClientId)
      requires Holds(s)
      modifies this
      ensures Holds(DropSession(s, c))
    {
      if c in sessions && sessions[c] in objs {
        DropOwners(objs[sessions[c]].tabs);
        sessions := sessions - {c};
      }
    }

    method TabRemoved(ghost s: State, t: TabId)
      requires Holds(s)
      modifies this
      ensures Holds(OnRemoved(s, t))
    {
      if t !in tabOwner {
        assert s.owner - {t} == s.owner;
        return;
      }
      var c := tabOwner[t];
      tabOwner := tabOwner - {t};
      if c !in sessions || sessions[c] !in objs {
        return;
      }
      var ref := sessions[c];
      var o := objs[ref];
      o := o.(tabs := Without(o.tabs, t));
      if o.primary == Some(t) {
        o := o.(primary := First(o.tabs));
      }
      objs := objs[ref := o];
      if |o.tabs| == 0 {
        sessions := sessions - {c};
      }
    }

    method TabRegrouped(ghost s: State, t: TabId, group: GroupId)
      requires Holds(s)
      modifies this
      ensures Holds(OnRegrouped(s, t, group))
    {
      if t !in tabOwner || tabOwner[t] !in sessions || sessions[tabOwner[t]] !in objs {
        return;
      }
      var ref := sessions[tabOwner[t]];
      var o := objs[ref];
      if group != o.group {
        o := o.(tabs := Without(o.tabs, t));
        tabOwner := tabOwner - {t};
        if o.primary == Some(t) {
          o := o.(primary := First(o.tabs));
        }
        objs := objs[ref := o];
      }
    }
  }
}
