/** What every attach, detach and takeover keeps: exactly one active profile, the one made active last. */
module ExtensionElection {
  import opened Options
  import opened ExtensionBridges

  ghost predicate DistinctClients(peers: seq<Peer>) {
    forall i, j :: 0 <= i < j < |peers| ==> peers[i].clientId != peers[j].clientId
  }

  /** Peer `i` is the only active one, and none was active later. */
  ghost predicate Leads(peers: seq<Peer>, i: nat) {
    && i < |peers| && peers[i].active
    && forall j :: 0 <= j < |peers| ==> (peers[j].active ==> j == i) && peers[j].lastActiveAt <= peers[i].lastActiveAt
  }

  ghost predicate Sound(peers: seq<Peer>, now: int) {
    && DistinctClients(peers) && (peers != [] ==> exists i :: Leads(peers, i))
    && forall i :: 0 <= i < |peers| ==> 0 <= peers[i].lastActiveAt <= now
  }

  datatype Event =
    | Attached(ws: Socket, client: ClientId, profile: string, now: int)
    | Detached(client: ClientId, now: int)
    | TakenOver(client: ClientId, now: int)

  function Next(peers: seq<Peer>, e: Event): seq<Peer> {
    match e
    case Attached(ws, c, profile, now) => Attach(peers, ws, c, profile, now)
    case Detached(c, now) => Detach(peers, c, now)
    case TakenOver(c, now) => if IndexOf(peers, c).Some? then SetActive(peers, c, now) else peers
  }

  lemma SetActiveLeads(peers: seq<Peer>, c: ClientId, before: int, now: int)
    requires DistinctClients(peers) && IndexOf(peers, c).Some? && 0 <= before <= now
    requires forall i :: 0 <= i < |peers| ==> 0 <= peers[i].lastActiveAt <= before
    ensures var peers' := SetActive(peers, c, now);
      && DistinctClients(peers') && Leads(peers', IndexOf(peers, c).value)
      && forall i :: 0 <= i < |peers'| ==> 0 <= peers'[i].lastActiveAt <= now
  {
  }

  /** Setting the entry of a known client keeps its place; a new client goes last. */
  lemma InsertKeepsDistinct(peers: seq<Peer>, p: Peer)
    requires DistinctClients(peers)
    ensures DistinctClients(Insert(peers, p)) && IndexOf(Insert(peers, p), p.clientId).Some?
  {
    var peers' := Insert(peers, p);
    var k := if IndexOf(peers, p.clientId).Some? then IndexOf(peers, p.clientId).value else |peers|;
    assert peers'[k].clientId == p.clientId;
  }

  lemma AttachKeeps(peers: seq<Peer>, e: Event, before: int)
    requires Sound(peers, before) && e.Attached? && before <= e.now && 0 <= before
    ensures Sound(Next(peers, e), e.now)
  {
    var p := Entry(peers, e.ws, e.client, e.profile, e.now);
    var mid := Insert(peers, p);
    InsertKeepsDistinct(peers, p);
    if p.active {
      SetActiveLeads(mid, e.client, e.now, e.now);
    } else {
      var i :| Leads(peers, i);
      assert Leads(mid, i);
    }
  }

  lemma WithoutKeepsDistinct(peers: seq<Peer>, i: nat)
    requires DistinctClients(peers) && i < |peers|
    ensures DistinctClients(Without(peers, i))
    ensures forall k :: 0 <= k < |Without(peers, i)| ==> Without(peers, i)[k] == peers[if k < i then k else k + 1]
  {
  }

  lemma DetachKeeps(peers: seq<Peer>, e: Event, before: int)
    requires Sound(peers, before) && e.Detached? && 0 <= before <= e.now
    ensures Sound(Next(peers, e), e.now)
  {
    var prev := IndexOf(peers, e.client);
    if prev.Some? {
      var left := Without(peers, prev.value);
      WithoutKeepsDistinct(peers, prev.value);
      if left != [] {
        if peers[prev.value].active {
          assert left[MostRecent(left)].clientId == left[MostRecent(left)].clientId;
          SetActiveLeads(left, left[MostRecent(left)].clientId, before, e.now);
        } else {
          var i :| Leads(peers, i);
          assert Leads(left, if i < prev.value then i else i - 1);
        }
      }
    }
  }

  lemma TakeoverKeeps(peers: seq<Peer>, e: Event, before: int)
    requires Sound(peers, before) && e.TakenOver? && 0 <= before <= e.now
    ensures Sound(Next(peers, e), e.now)
  {
    if IndexOf(peers, e.client).Some? {
      SetActiveLeads(peers, e.client, before, e.now);
    }
  }

  function PeersAfter(events: seq<Event>): seq<Peer> {
    if events == [] then [] else Next(PeersAfter(events[..|events| - 1]), events[|events| - 1])
  }

  ghost predicate Clocked(events: seq<Event>) {
    && (forall i :: 0 <= i < |events| ==> 0 <= events[i].now)
    && (forall i, j :: 0 <= i < j < |events| ==> events[i].now <= events[j].now)
  }

  lemma {:induction false} RunIsSound(events: seq<Event>)
    requires Clocked(events)
    ensures Sound(PeersAfter(events), if events == [] then 0 else events[|events| - 1].now)
    decreases |events|
  {
    if events != [] {
      var init, e := events[..|events| - 1], events[|events| - 1];
      RunIsSound(init);
      var before := if init == [] then 0 else init[|init| - 1].now;
      assert init != [] ==> before == events[|events| - 2].now;
      hide Sound, Next;
      match e
      case Attached(_, _, _, _) => AttachKeeps(PeersAfter(init), e, before);
      case Detached(_, _) => DetachKeeps(PeersAfter(init), e, before);
      case TakenOver(_, _) => TakeoverKeeps(PeersAfter(init), e, before);
    }
  }

  /** After every attach, detach and takeover, with the clock running forward, exactly one of the connected profiles
      is active, and it has the greatest last-active time. */
  lemma ExactlyOneActive(events: seq<Event>)
    requires Clocked(events) && PeersAfter(events) != []
    ensures var peers := PeersAfter(events);
      exists i :: 0 <= i < |peers| && forall j :: 0 <= j < |peers| ==>
        (peers[j].active <==> j == i) && peers[j].lastActiveAt <= peers[i].lastActiveAt
  {
    RunIsSound(events);
    LeaderIsUnique(PeersAfter(events));
  }

  lemma LeaderIsUnique(peers: seq<Peer>)
    requires exists i :: Leads(peers, i)
    ensures exists i :: 0 <= i < |peers| && forall j :: 0 <= j < |peers| ==>
              (peers[j].active <==> j == i) && peers[j].lastActiveAt <= peers[i].lastActiveAt
  {
    var i: nat :| Leads(peers, i);
    assert forall j :: 0 <= j < |peers| ==> (peers[j].active <==> j == i) && peers[j].lastActiveAt <= peers[i].lastActiveAt;
  }

  /** When the active profile is lost, the one promoted was active no earlier than any other that remains, and
      nobody else becomes active; losing a standby profile changes nobody's role. */
  lemma LossPromotesTheMostRecent(peers: seq<Peer>, c: ClientId, before: int, now: int)
    requires Sound(peers, before) && before <= now && IndexOf(peers, c).Some?
    ensures var lost := IndexOf(peers, c).value;
      var left, after := Without(peers, lost), Detach(peers, c, now);
      && |after| == |left|
      && (forall i :: 0 <= i < |left| ==> after[i].clientId == left[i].clientId && after[i].ws == left[i].ws)
      && (forall i :: 0 <= i < |left| && after[i].active ==>
            if peers[lost].active then forall j :: 0 <= j < |left| ==> left[j].lastActiveAt <= left[i].lastActiveAt else left[i].active)
  {
    var lost := IndexOf(peers, c).value;
    var left, after := Without(peers, lost), Detach(peers, c, now);
    WithoutKeepsDistinct(peers, lost);
    hide Without, Sound;
    if peers[lost].active && left != [] {
      var m := MostRecent(left);
      assert after == SetActive(left, left[m].clientId, now);
      forall i | 0 <= i < |left| && after[i].active ensures i == m {
        assert left[i].clientId == left[m].clientId;
      }
    }
  }

  /** A profile that connects never unseats the active one. */
  lemma ConnectingUnseatsNobody(peers: seq<Peer>, e: Event, before: int, i: nat)
    requires Sound(peers, before) && e.Attached? && 0 <= before <= e.now && Leads(peers, i)
    ensures var after := Next(peers, e); i < |after| && after[i].active && after[i].clientId == peers[i].clientId
  {
    assert SomeoneActive(peers);
  }
}
