/**
 Which profiles are connected, which is active, and since when, read off the attaches, detaches and takeovers so far.
 */
module ExtensionHistory {
  import opened Options
  import opened ExtensionBridges
  import opened ExtensionElection

  // ---- reading the events ----

  /** The last attach or detach of the client. */
  function LastOf(events: seq<Event>, c: ClientId): Option<Event> {
    if events == [] then None
    else
      var e := events[|events| - 1];
      if (e.Attached? || e.Detached?) && e.client == c then Some(e) else LastOf(events[..|events| - 1], c)
  }

  predicate Connected(events: seq<Event>, c: ClientId) {
    LastOf(events, c).Some? && LastOf(events, c).value.Attached?
  }

  /** How many events came before the client attached, reattaching aside. */
  function JoinedAt(events: seq<Event>, c: ClientId): nat {
    if events == [] then 0
    else
      var init, e := events[..|events| - 1], events[|events| - 1];
      if e.Attached? && e.client == c && !Connected(init, c) then |init| else JoinedAt(init, c)
  }

  function ActiveOf(peers: seq<Peer>): Option<ClientId> {
    if peers == [] then None
    else if peers[|peers| - 1].active then Some(peers[|peers| - 1].clientId)
    else ActiveOf(peers[..|peers| - 1])
  }

  /** The active profile after the events. */
  function Active(events: seq<Event>): Option<ClientId> {
    ActiveOf(PeersAfter(events))
  }

  /** When the client last became active, was taken over, or reattached as the active one, since it joined; 0 if never. */
  function LastHeld(events: seq<Event>, c: ClientId): int {
    if events == [] then 0
    else
      var init, e := events[..|events| - 1], events[|events| - 1];
      if Active(events) == Some(c) && (Active(init) != Some(c) || (!e.Detached? && e.client == c)) then e.now
      else if Connected(init, c) then LastHeld(init, c)
      else 0
  }

  // ---- one event ----

  function EntryOf(peers: seq<Peer>, c: ClientId): Option<Peer> {
    var i := IndexOf(peers, c);
    if i.Some? then Some(peers[i.value]) else None
  }

  lemma EntryIs(peers: seq<Peer>, i: nat)
    requires DistinctClients(peers) && i < |peers|
    ensures IndexOf(peers, peers[i].clientId) == Some(i) && EntryOf(peers, peers[i].clientId) == Some(peers[i])
  {
  }

  lemma {:induction false} ActiveIs(peers: seq<Peer>)
    ensures ActiveOf(peers).None? <==> !SomeoneActive(peers)
    ensures forall i: nat :: Leads(peers, i) ==> ActiveOf(peers) == Some(peers[i].clientId)
    decreases |peers|
  {
    if peers != [] {
      var init := peers[..|peers| - 1];
      ActiveIs(init);
      forall i: nat | Leads(peers, i) ensures ActiveOf(peers) == Some(peers[i].clientId) {
        if i < |init| { assert Leads(init, i); }
      }
      assert SomeoneActive(peers) <==> SomeoneActive(init) || peers[|init|].active by {
        if i :| 0 <= i < |peers| && peers[i].active { assert i < |init| ==> init[i].active; }
        if i :| 0 <= i < |init| && init[i].active { assert peers[i].active; }
      }
    }
  }

  lemma ActiveEntry(peers: seq<Peer>, now: int, c: ClientId)
    requires Sound(peers, now)
    ensures ActiveOf(peers) == Some(c) <==> EntryOf(peers, c).Some? && EntryOf(peers, c).value.active
    ensures ActiveOf(peers).None? <==> peers == []
  {
    ActiveIs(peers);
    if peers != [] {
      var i: nat :| Leads(peers, i);
      EntryIs(peers, i);
    }
  }

  lemma ElectedEntry(peers: seq<Peer>, d: ClientId, now: int, c: ClientId)
    requires DistinctClients(peers)
    ensures EntryOf(SetActive(peers, d, now), c) == if EntryOf(peers, c).Some? then Some(Elected(EntryOf(peers, c).value, d, now)) else None
  {
    var peers' := SetActive(peers, d, now);
    assert DistinctClients(peers');
    var i := IndexOf(peers, c);
    if i.Some? { EntryIs(peers', i.value); }
  }

  lemma InsertedEntry(peers: seq<Peer>, p: Peer, c: ClientId)
    requires DistinctClients(peers)
    ensures EntryOf(Insert(peers, p), c) == if c == p.clientId then Some(p) else EntryOf(peers, c)
  {
    var peers' := Insert(peers, p);
    InsertKeepsDistinct(peers, p);
    var k := IndexOf(peers, p.clientId);
    EntryIs(peers', if k.Some? then k.value else |peers|);
    var i := IndexOf(peers, c);
    if i.Some? && c != p.clientId { EntryIs(peers', i.value); }
  }

  lemma RemovedEntry(peers: seq<Peer>, d: nat, c: ClientId)
    requires DistinctClients(peers) && d < |peers|
    ensures EntryOf(Without(peers, d), c) == if c == peers[d].clientId then None else EntryOf(peers, c)
  {
    var left := Without(peers, d);
    WithoutKeepsDistinct(peers, d);
    var i := IndexOf(peers, c);
    if i.Some? && i.value != d { EntryIs(left, if i.value < d then i.value else i.value - 1); }
  }

  /** What an event makes of the entry of `c`; `a` and `a'` are the active clients before and after. */
  ghost predicate EntryMoves(p: Option<Peer>, e: Event, c: ClientId, p': Option<Peer>, a: Option<ClientId>, a': Option<ClientId>) {
    && (p'.Some? <==> match e case Attached(_, d, _, _) => d == c || p.Some? case Detached(d, _) => d != c && p.Some? case _ => p.Some?)
    && (p'.Some? ==>
          && p'.value.clientId == c
          && (if e.Attached? && e.client == c then p'.value.ws == e.ws && p'.value.profile == e.profile
              else p'.value.ws == p.value.ws && p'.value.profile == p.value.profile)
          && p'.value.lastActiveAt == if a' == Some(c) && (a != Some(c) || (!e.Detached? && e.client == c)) then e.now
                                      else if p.Some? then p.value.lastActiveAt else 0)
  }

  lemma AttachKeepsActive(peers: seq<Peer>, e: Event, before: int)
    requires Sound(peers, before) && e.Attached? && 0 <= before <= e.now
    ensures ActiveOf(Next(peers, e)) == if peers == [] then Some(e.client) else ActiveOf(peers)
  {
    var peers' := Next(peers, e);
    AttachKeeps(peers, e, before);
    AttachedIs(peers, e, e.client);
    ActiveEntry(peers', e.now, e.client);
    if peers != [] {
      var i: nat :| Leads(peers, i);
      ConnectingUnseatsNobody(peers, e, before, i);
      ActiveIs(peers);
      ActiveIs(peers');
      hide Next, ActiveOf;
      var j: nat :| Leads(peers', j);
      assert i == j;
    }
  }

  lemma AttachMoves(peers: seq<Peer>, e: Event, before: int, c: ClientId)
    requires Sound(peers, before) && e.Attached? && 0 <= before <= e.now
    ensures var peers' := Next(peers, e);
      && EntryMoves(EntryOf(peers, c), e, c, EntryOf(peers', c), ActiveOf(peers), ActiveOf(peers'))
      && ActiveOf(peers') == if peers == [] then Some(e.client) else ActiveOf(peers)
  {
    AttachKeeps(peers, e, before);
    AttachKeepsActive(peers, e, before);
    AttachedIs(peers, e, c);
    ActiveEntry(peers, before, c);
    ActiveEntry(Next(peers, e), e.now, c);
    ActiveEntry(peers, before, e.client);
    EntryIsOf(peers, c);
    ActiveIs(peers);
    hide Sound, ActiveOf, Next, SomeoneActive;
  }

  lemma EntryIsOf(peers: seq<Peer>, c: ClientId)
    ensures EntryOf(peers, c).Some? ==> EntryOf(peers, c).value.clientId == c && peers != []
    ensures EntryOf(peers, c) == if IndexOf(peers, c).Some? then Some(peers[IndexOf(peers, c).value]) else None
  {
  }

  function AttachedEntry(peers: seq<Peer>, e: Event, c: ClientId): Option<Peer>
    requires e.Attached?
  {
    var p := Entry(peers, e.ws, e.client, e.profile, e.now);
    var q := if c == e.client then Some(p) else EntryOf(peers, c);
    if q.Some? && p.active then Some(Elected(q.value, e.client, e.now)) else q
  }

  lemma AttachedIs(peers: seq<Peer>, e: Event, c: ClientId)
    requires DistinctClients(peers) && e.Attached?
    ensures EntryOf(Next(peers, e), c) == AttachedEntry(peers, e, c)
  {
    var p := Entry(peers, e.ws, e.client, e.profile, e.now);
    InsertKeepsDistinct(peers, p);
    InsertedEntry(peers, p, c);
    hide EntryOf, Insert, SetActive, Entry, Elected;
    if p.active { ElectedEntry(Insert(peers, p), e.client, e.now, c); }
  }

  lemma DetachMoves(peers: seq<Peer>, e: Event, before: int, c: ClientId)
    requires Sound(peers, before) && e.Detached? && 0 <= before <= e.now
    ensures var peers' := Next(peers, e);
      && EntryMoves(EntryOf(peers, c), e, c, EntryOf(peers', c), ActiveOf(peers), ActiveOf(peers'))
      && (ActiveOf(peers) != Some(e.client) ==> ActiveOf(peers') == ActiveOf(peers))
  {
    var peers' := Next(peers, e);
    DetachKeeps(peers, e, before);
    ActiveEntry(peers, before, c);
    ActiveEntry(peers', e.now, c);
    ActiveEntry(peers, before, e.client);
    DetachedIs(peers, e, before, c);
    if ActiveOf(peers).Some? {
      ActiveEntry(peers', e.now, ActiveOf(peers).value);
      ActiveEntry(peers, before, ActiveOf(peers).value);
      DetachedIs(peers, e, before, ActiveOf(peers).value);
    }
    hide Sound, ActiveOf, Detach, IndexOf;
  }

  /** The entry of `c` after `e.client` has left; `Heir` is the client elected in its place. */
  lemma DetachedIs(peers: seq<Peer>, e: Event, before: int, c: ClientId)
    requires Sound(peers, before) && e.Detached?
    ensures EntryOf(Next(peers, e), c) ==
            if c == e.client || EntryOf(peers, c).None? then (if c == e.client then None else EntryOf(peers, c))
            else if ActiveOf(peers) == Some(e.client) then Some(Elected(EntryOf(peers, c).value, Heir(peers, e.client), e.now))
            else EntryOf(peers, c)
  {
    var i := IndexOf(peers, e.client);
    ActiveEntry(peers, before, e.client);
    if i.Some? {
      var left := Without(peers, i.value);
      WithoutKeepsDistinct(peers, i.value);
      RemovedEntry(peers, i.value, c);
      if left != [] { ElectedEntry(left, left[MostRecent(left)].clientId, e.now, c); }
      assert left == [] ==> EntryOf(left, c) == None;
      hide Sound, ActiveOf, Without, MostRecent;
    } else {
      hide Sound, ActiveOf;
    }
  }

  /** The first of those most recently active, when `c` leaves. */
  function Heir(peers: seq<Peer>, c: ClientId): ClientId {
    var i := IndexOf(peers, c);
    if i.None? || Without(peers, i.value) == [] then c
    else
      var left := Without(peers, i.value);
      left[MostRecent(left)].clientId
  }

  lemma TakeoverMoves(peers: seq<Peer>, e: Event, before: int, c: ClientId)
    requires Sound(peers, before) && e.TakenOver? && 0 <= before <= e.now
    ensures var peers' := Next(peers, e);
      && EntryMoves(EntryOf(peers, c), e, c, EntryOf(peers', c), ActiveOf(peers), ActiveOf(peers'))
      && ActiveOf(peers') == if EntryOf(peers, e.client).Some? then Some(e.client) else ActiveOf(peers)
  {
    var peers' := Next(peers, e);
    TakeoverKeeps(peers, e, before);
    ActiveEntry(peers, before, c);
    ActiveEntry(peers', e.now, c);
    ActiveEntry(peers', e.now, e.client);
    if EntryOf(peers, e.client).Some? {
      ElectedEntry(peers, e.client, e.now, c);
      ElectedEntry(peers, e.client, e.now, e.client);
    }
    hide Sound, ActiveOf, SetActive;
  }

  // ---- whole histories ----

  lemma EventMoves(peers: seq<Peer>, e: Event, before: int, c: ClientId)
    requires Sound(peers, before) && 0 <= before <= e.now
    ensures EntryMoves(EntryOf(peers, c), e, c, EntryOf(Next(peers, e), c), ActiveOf(peers), ActiveOf(Next(peers, e)))
  {
    hide Sound, EntryMoves, EntryOf, Next, ActiveOf;
    match e
    case Attached(_, _, _, _) => AttachMoves(peers, e, before, c);
    case Detached(_, _) => DetachMoves(peers, e, before, c);
    case TakenOver(_, _) => TakeoverMoves(peers, e, before, c);
  }

  function ClockOf(events: seq<Event>): int {
    if events == [] then 0 else events[|events| - 1].now
  }

  lemma BeforeTheLast(events: seq<Event>)
    requires Clocked(events) && events != []
    ensures var init := events[..|events| - 1]; Clocked(init) && Sound(PeersAfter(init), ClockOf(init)) && 0 <= ClockOf(init) <= events[|events| - 1].now
  {
    var init := events[..|events| - 1];
    assert init != [] ==> ClockOf(init) == events[|events| - 2].now;
    RunIsSound(init);
  }

  /** The entry is what the events say of `c`. */
  ghost predicate Tells(events: seq<Event>, c: ClientId, p: Option<Peer>) {
    && (p.Some? <==> Connected(events, c))
    && (p.Some? ==> p.value.ws == LastOf(events, c).value.ws && p.value.profile == LastOf(events, c).value.profile
                    && p.value.lastActiveAt == LastHeld(events, c))
  }

  lemma TellsOneMore(events: seq<Event>, c: ClientId, p: Option<Peer>, p': Option<Peer>)
    requires events != [] && Tells(events[..|events| - 1], c, p)
    requires EntryMoves(p, events[|events| - 1], c, p', Active(events[..|events| - 1]), Active(events))
    ensures Tells(events, c, p')
  {
    hide Active;
  }

  /** A profile is connected exactly if its last event is an attach, with the socket and name given then; its last-active
      time is when it last became active, was taken over or reattached as the active one, if ever since it joined. */
  lemma {:induction false} PeersAreHistory(events: seq<Event>, c: ClientId)
    requires Clocked(events)
    ensures Tells(events, c, EntryOf(PeersAfter(events), c))
    decreases |events|
  {
    if events != [] {
      var init, e := events[..|events| - 1], events[|events| - 1];
      assert PeersAfter(events) == Next(PeersAfter(init), e);
      hide PeersAfter, Next, Sound, ActiveOf, EntryOf, Clocked, Tells, EntryMoves;
      BeforeTheLast(events);
      PeersAreHistory(init, c);
      EventMoves(PeersAfter(init), e, ClockOf(init), c);
      TellsOneMore(events, c, EntryOf(PeersAfter(init), c), EntryOf(PeersAfter(events), c));
    }
  }

  // ---- the order of the peers ----

  function Clients(peers: seq<Peer>): seq<ClientId> {
    seq(|peers|, i requires 0 <= i < |peers| => peers[i].clientId)
  }

  ghost predicate InOrderOfJoining(events: seq<Event>, ids: seq<ClientId>) {
    && (forall i, j :: 0 <= i < j < |ids| ==> JoinedAt(events, ids[i]) < JoinedAt(events, ids[j]))
    && (forall i :: 0 <= i < |ids| ==> JoinedAt(events, ids[i]) < |events|)
  }

  lemma ClientsMove(peers: seq<Peer>, e: Event)
    ensures var i, after := IndexOf(peers, e.client), Clients(Next(peers, e));
      if e.Attached? && i.None? then after == Clients(peers) + [e.client]
      else if e.Detached? && i.Some? then after == Clients(peers)[..i.value] + Clients(peers)[i.value + 1..]
      else after == Clients(peers)
  {
    match e
    case Attached(ws, c, profile, now) =>
      var p := Entry(peers, ws, c, profile, now);
      ElectedClients(Insert(peers, p), c, now);
      InsertedClients(peers, p);
      hide Clients, Insert, SetActive, Entry, IndexOf;
    case Detached(c, now) =>
      if IndexOf(peers, c).Some? {
        var left := Without(peers, IndexOf(peers, c).value);
        if left != [] { ElectedClients(left, left[MostRecent(left)].clientId, now); }
        hide SetActive, MostRecent, IndexOf;
      }
    case TakenOver(c, now) =>
      ElectedClients(peers, c, now);
      hide Clients, SetActive, IndexOf;
  }

  lemma ElectedClients(peers: seq<Peer>, c: ClientId, now: int)
    ensures Clients(SetActive(peers, c, now)) == Clients(peers)
  {
  }

  lemma InsertedClients(peers: seq<Peer>, p: Peer)
    ensures Clients(Insert(peers, p)) == if IndexOf(peers, p.clientId).Some? then Clients(peers) else Clients(peers) + [p.clientId]
  {
  }

  lemma JoiningStays(events: seq<Event>, c: ClientId)
    requires events != [] && (events[|events| - 1].client != c || !events[|events| - 1].Attached? || Connected(events[..|events| - 1], c))
    ensures JoinedAt(events, c) == JoinedAt(events[..|events| - 1], c)
  {
  }

  /** Peers are kept in the order in which they joined. */
  lemma {:induction false} PeersAreInOrder(events: seq<Event>)
    requires Clocked(events)
    ensures InOrderOfJoining(events, Clients(PeersAfter(events)))
    decreases |events|
  {
    if events != [] {
      var init, e := events[..|events| - 1], events[|events| - 1];
      var before := PeersAfter(init);
      assert PeersAfter(events) == Next(before, e);
      hide PeersAfter, Next, Sound, Clocked, EntryOf, Connected, IndexOf, JoinedAt, InOrderOfJoining;
      BeforeTheLast(events);
      PeersAreInOrder(init);
      PeersAreHistory(init, e.client);
      ClientsMove(before, e);
      EntryIsOf(before, e.client);
      ClientsAre(before, e.client);
      OneMoreInOrder(events, Clients(before), IndexOf(before, e.client), Clients(Next(before, e)));
    } else {
      assert Clients([]) == [];
    }
  }

  lemma ClientsAre(peers: seq<Peer>, c: ClientId)
    ensures var i, ids := IndexOf(peers, c), Clients(peers);
      (if i.Some? then i.value < |ids| && ids[i.value] == c else c !in ids)
  {
  }

  lemma OneMoreInOrder(events: seq<Event>, ids: seq<ClientId>, i: Option<nat>, after: seq<ClientId>)
    requires events != [] && InOrderOfJoining(events[..|events| - 1], ids)
    requires var c := events[|events| - 1].client;
      && (Connected(events[..|events| - 1], c) <==> i.Some?) && (if i.Some? then i.value < |ids| && ids[i.value] == c else c !in ids)
      && after == if events[|events| - 1].Attached? && i.None? then ids + [c]
                  else if events[|events| - 1].Detached? && i.Some? then ids[..i.value] + ids[i.value + 1..]
                  else ids
    ensures InOrderOfJoining(events, after)
  {
    var init, e := events[..|events| - 1], events[|events| - 1];
    forall k | 0 <= k < |ids| ensures JoinedAt(events, ids[k]) == JoinedAt(init, ids[k]) { JoiningStays(events, ids[k]); }
    if e.Attached? && i.None? { assert JoinedAt(events, e.client) == |init|; }
    hide JoinedAt, Connected;
    assert InOrderOfJoining(events, ids);
    if e.Detached? && i.Some? { FewerInOrder(events, ids, i.value); }
  }

  lemma FewerInOrder(events: seq<Event>, ids: seq<ClientId>, i: nat)
    requires i < |ids| && InOrderOfJoining(events, ids)
    ensures InOrderOfJoining(events, ids[..i] + ids[i + 1..])
  {
    var left := ids[..i] + ids[i + 1..];
    assert forall k :: 0 <= k < |left| ==> left[k] == ids[if k < i then k else k + 1];
    hide JoinedAt;
  }

  // ---- who is active ----

  /** Of the profiles left, `d` held the active role last, or joined first of those that did. */
  ghost predicate Succeeds(events: seq<Event>, c: ClientId, d: ClientId) {
    && Connected(events, d) && d != c
    && forall x :: Connected(events, x) && x != c && x != d ==>
         LastHeld(events, x) < LastHeld(events, d) || (LastHeld(events, x) == LastHeld(events, d) && JoinedAt(events, d) < JoinedAt(events, x))
  }

  lemma HeirSucceeds(events: seq<Event>, c: ClientId)
    requires Clocked(events)
    requires var i := IndexOf(PeersAfter(events), c); i.Some? && Without(PeersAfter(events), i.value) != []
    ensures Succeeds(events, c, Heir(PeersAfter(events), c))
  {
    RunIsSound(events);
    PeersAreInOrder(events);
    var peers := PeersAfter(events);
    var k := IndexOf(peers, c).value;
    var n := HeirIndex(peers, k);
    var d := peers[n].clientId;
    EntryIs(peers, n);
    PeersAreHistory(events, d);
    assert forall i :: 0 <= i < |peers| ==> peers[i].clientId == Clients(peers)[i];
    hide Sound, PeersAfter, Connected, LastHeld, JoinedAt, Without, Clocked, Heir, EntryOf;
    forall x | Connected(events, x) && x != c && x != d
      ensures LastHeld(events, x) < LastHeld(events, d) || (LastHeld(events, x) == LastHeld(events, d) && JoinedAt(events, d) < JoinedAt(events, x))
    {
      PeersAreHistory(events, x);
      EntryIsOf(peers, x);
      var j := IndexOf(peers, x).value;
      assert j != k && j != n && Clients(peers)[j] == x && Clients(peers)[n] == d;
    }
  }

  /** Where the heir stands: none left was active later, and none before it as late. */
  lemma HeirIndex(peers: seq<Peer>, k: nat) returns (n: nat)
    requires DistinctClients(peers) && k < |peers| && Without(peers, k) != []
    ensures n < |peers| && n != k && peers[n].clientId == Heir(peers, peers[k].clientId)
    ensures forall j :: 0 <= j < |peers| && j != k ==> peers[j].lastActiveAt <= peers[n].lastActiveAt
    ensures forall j :: 0 <= j < n && j != k ==> peers[j].lastActiveAt < peers[n].lastActiveAt
  {
    EntryIs(peers, k);
    WithoutKeepsDistinct(peers, k);
    var left := Without(peers, k);
    var m := MostRecent(left);
    n := if m < k then m else m + 1;
    hide MostRecent, DistinctClients;
    forall j | 0 <= j < |peers| && j != k
      ensures peers[j].lastActiveAt <= peers[n].lastActiveAt && (j < n ==> peers[j].lastActiveAt < peers[n].lastActiveAt)
    {
      assert left[if j < k then j else j - 1] == peers[j];
    }
  }

  /** Who is active after one more event: the first to connect; whoever is taken over, if connected; and when the active
      profile leaves, of those left the one that held the role last, or joined first. Nothing else moves the role. */
  lemma WhoIsActive(events: seq<Event>, e: Event)
    requires Clocked(events + [e])
    ensures var a, a' := Active(events), Active(events + [e]);
      && (a.None? <==> forall c :: !Connected(events, c))
      && match e
         case Attached(_, c, _, _) => a' == if a.None? then Some(c) else a
         case TakenOver(c, _) => a' == if Connected(events, c) then Some(c) else a
         case Detached(c, _) =>
           if a != Some(c) then a' == a
           else if forall d :: Connected(events, d) ==> d == c then a' == None
           else a'.Some? && Succeeds(events, c, a'.value)
  {
    var more := events + [e];
    assert more[..|more| - 1] == events && more[|more| - 1] == e;
    BeforeTheLast(more);
    var peers, before := PeersAfter(events), ClockOf(events);
    assert PeersAfter(more) == Next(peers, e);
    NobodyConnected(events);
    PeersAreHistory(events, e.client);
    ActiveEntry(peers, before, e.client);
    hide PeersAfter, Sound, ActiveOf, EntryOf, Clocked, Connected, Next, Succeeds, EntryMoves;
    match e
    case Attached(_, _, _, _) => AttachMoves(peers, e, before, e.client);
    case TakenOver(_, _) => TakeoverMoves(peers, e, before, e.client);
    case Detached(c, _) =>
      DetachMoves(peers, e, before, c);
      if ActiveOf(peers) == Some(c) { ActiveLeaves(events, e); }
  }

  lemma NobodyConnected(events: seq<Event>)
    requires Clocked(events)
    ensures Active(events).None? <==> forall c :: !Connected(events, c)
  {
    RunIsSound(events);
    var peers := PeersAfter(events);
    ActiveEntry(peers, ClockOf(events), 0);
    hide PeersAfter, Sound, ActiveOf, Connected, Clocked;
    if peers != [] {
      PeersAreHistory(events, peers[0].clientId);
      assert IndexOf(peers, peers[0].clientId).Some?;
    } else {
      forall c ensures !Connected(events, c) { PeersAreHistory(events, c); }
    }
  }

  lemma ActiveLeaves(events: seq<Event>, e: Event)
    requires Clocked(events + [e]) && e.Detached? && Active(events) == Some(e.client)
    ensures var a', c := Active(events + [e]), e.client;
      if forall d :: Connected(events, d) ==> d == c then a' == None else a'.Some? && Succeeds(events, c, a'.value)
  {
    var more, c := events + [e], e.client;
    assert more[..|more| - 1] == events && more[|more| - 1] == e;
    BeforeTheLast(more);
    RunIsSound(more);
    var peers, after := PeersAfter(events), PeersAfter(more);
    assert after == Next(peers, e);
    ActiveEntry(peers, ClockOf(events), c);
    EntryIsOf(peers, c);
    var k := IndexOf(peers, c).value;
    WithoutKeepsDistinct(peers, k);
    var left, heir := Without(peers, k), Heir(peers, c);
    hide PeersAfter, Clocked, ActiveOf, Connected, Succeeds, Next;
    if left == [] {
      assert peers == [peers[k]];
      forall d | Connected(events, d) ensures d == c { PeersAreHistory(events, d); EntryIsOf(peers, d); }
      DetachedToNone(peers, e, c);
      ActiveIs(after);
    } else {
      HeirSucceeds(events, c);
      HeirIsActive(peers, e, ClockOf(events));
      HeirIsConnected(events, c, heir);
    }
  }

  lemma HeirIsConnected(events: seq<Event>, c: ClientId, d: ClientId)
    requires Succeeds(events, c, d)
    ensures Connected(events, d) && d != c
  {
  }

  lemma DetachedToNone(peers: seq<Peer>, e: Event, c: ClientId)
    requires e == Detached(c, e.now) && IndexOf(peers, c).Some? && Without(peers, IndexOf(peers, c).value) == []
    ensures Next(peers, e) == []
  {
  }

  lemma HeirIsActive(peers: seq<Peer>, e: Event, before: int)
    requires Sound(peers, before) && e.Detached? && 0 <= before <= e.now && ActiveOf(peers) == Some(e.client)
    requires IndexOf(peers, e.client).Some? && Without(peers, IndexOf(peers, e.client).value) != []
    ensures ActiveOf(Next(peers, e)) == Some(Heir(peers, e.client))
  {
    var k := IndexOf(peers, e.client).value;
    var left, heir := Without(peers, k), Heir(peers, e.client);
    WithoutKeepsDistinct(peers, k);
    var m := MostRecent(left);
    EntryIs(peers, if m < k then m else m + 1);
    DetachKeeps(peers, e, before);
    DetachedIs(peers, e, before, heir);
    ActiveEntry(Next(peers, e), e.now, heir);
    hide Sound, Next, ActiveOf, MostRecent, Without;
  }
}
