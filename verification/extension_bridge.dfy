/**
 The app side of the active/standby election between Chrome profiles (MacOS/brain/extension-bridge.ts).

 `peers` keeps the insertion order of the source's map: a known client keeps its place when it is set again.
 */
module ExtensionBridges {
  import opened Options

  type Socket = nat
  type ClientId = nat

  datatype Peer = Peer(ws: Socket, clientId: ClientId, profile: string, active: bool, lastActiveAt: int)

  datatype Listed = Listed(clientId: ClientId, profile: string, active: bool)

  /** The lifecycle messages of the app. */
  datatype Down = Promoted | Standby | Peers(list: seq<Listed>) | Welcome(active: bool) | Snapshot(active: bool)

  /** One send: the socket and what is put on it. */
  datatype Send = Send(ws: Socket, msg: Down)

  function IndexOf(peers: seq<Peer>, c: ClientId): (r: Option<nat>)
    ensures r.None? <==> forall i :: 0 <= i < |peers| ==> peers[i].clientId != c
    ensures r.Some? ==> r.value < |peers| && peers[r.value].clientId == c
  {
    if peers == [] then None
    else if peers[|peers| - 1].clientId == c then Some(|peers| - 1)
    else IndexOf(peers[..|peers| - 1], c)
  }

  function PeerList(peers: seq<Peer>): seq<Listed> {
    seq(|peers|, i requires 0 <= i < |peers| => Listed(peers[i].clientId, peers[i].profile, peers[i].active))
  }

  // ---- transitions ----

  function Elected(p: Peer, c: ClientId, now: int): Peer {
    if p.clientId == c then p.(active := true, lastActiveAt := now) else p.(active := false)
  }

  function SetActive(peers: seq<Peer>, c: ClientId, now: int): seq<Peer> {
    seq(|peers|, i requires 0 <= i < |peers| => Elected(peers[i], c, now))
  }

  predicate SomeoneActive(peers: seq<Peer>) {
    exists i :: 0 <= i < |peers| && peers[i].active
  }

  /** The entry a connecting profile gets, before any election. */
  function Entry(peers: seq<Peer>, ws: Socket, c: ClientId, profile: string, now: int): Peer {
    var prev := IndexOf(peers, c);
    if prev.Some? then Peer(ws, c, profile, peers[prev.value].active, peers[prev.value].lastActiveAt)
    else Peer(ws, c, profile, !SomeoneActive(peers), if SomeoneActive(peers) then 0 else now)
  }

  function Insert(peers: seq<Peer>, p: Peer): seq<Peer> {
    var prev := IndexOf(peers, p.clientId);
    if prev.Some? then peers[prev.value := p] else peers + [p]
  }

  function Attach(peers: seq<Peer>, ws: Socket, c: ClientId, profile: string, now: int): seq<Peer> {
    var p := Entry(peers, ws, c, profile, now);
    if p.active then SetActive(Insert(peers, p), c, now) else Insert(peers, p)
  }

  /** The first of the most recently active peers. */
  function MostRecent(peers: seq<Peer>): (i: nat)
    requires peers != []
    ensures i < |peers|
    ensures forall j :: 0 <= j < |peers| ==> peers[j].lastActiveAt <= peers[i].lastActiveAt
    ensures forall j :: 0 <= j < i ==> peers[j].lastActiveAt < peers[i].lastActiveAt
  {
    if |peers| == 1 then 0
    else
      var i := MostRecent(peers[..|peers| - 1]);
      if peers[|peers| - 1].lastActiveAt > peers[i].lastActiveAt then |peers| - 1 else i
  }

  function Without(peers: seq<Peer>, i: nat): seq<Peer>
    requires i < |peers|
  {
    peers[..i] + peers[i + 1..]
  }

  function Detach(peers: seq<Peer>, c: ClientId, now: int): seq<Peer> {
    var prev := IndexOf(peers, c);
    if prev.None? then peers
    else
      var left := Without(peers, prev.value);
      if peers[prev.value].active && left != [] then SetActive(left, left[MostRecent(left)].clientId, now) else left
  }

  // ---- what is sent ----

  function Lifecycle(p: Peer, list: seq<Listed>): seq<Send> {
    [Send(p.ws, if p.active then Promoted else Standby), Send(p.ws, Peers(list))]
  }

  function BroadcastTo(peers: seq<Peer>, list: seq<Listed>): seq<Send> {
    if peers == [] then [] else BroadcastTo(peers[..|peers| - 1], list) + Lifecycle(peers[|peers| - 1], list)
  }

  function Broadcast(peers: seq<Peer>): seq<Send> {
    BroadcastTo(peers, PeerList(peers))
  }

  function AttachSends(peers: seq<Peer>, ws: Socket, c: ClientId, profile: string, now: int): seq<Send> {
    var active := Entry(peers, ws, c, profile, now).active;
    Broadcast(Attach(peers, ws, c, profile, now)) + [Send(ws, Welcome(active)), Send(ws, Snapshot(active))]
  }

  /** Losing the active peer broadcasts twice, once for the election and once for the loss. */
  function DetachSends(peers: seq<Peer>, c: ClientId, now: int): seq<Send> {
    var prev, after := IndexOf(peers, c), Detach(peers, c, now);
    (if prev.Some? && peers[prev.value].active && after != [] then Broadcast(after) else []) + Broadcast(after)
  }

  /** The refresh after app events: each peer's own active bit. */
  function SnapshotSends(peers: seq<Peer>): seq<Send> {
    if peers == [] then []
    else SnapshotSends(peers[..|peers| - 1]) + [Send(peers[|peers| - 1].ws, Snapshot(peers[|peers| - 1].active))]
  }

  // ---- the bridge object ----

  /** `inFlight` holds the browser commands awaiting a reply, `failed` those rejected. */
  class ExtensionBridge {
    var peers: seq<Peer>
    var sent: seq<Send>
    var inFlight: set<nat>
    var failed: set<nat>

    constructor ()
      ensures peers == [] && sent == [] && inFlight == {} && failed == {}
    {
      peers, sent, inFlight, failed := [], [], {}, {};
    }

    method BroadcastLifecycle()
      modifies `sent
      ensures sent == old(sent) + Broadcast(peers)
    {
      var list := PeerList(peers);
      var i := 0;
      while i < |peers|
        modifies `sent
        invariant i <= |peers| && sent == old(sent) + BroadcastTo(peers[..i], list)
      {
        var p := peers[i];
        assert peers[..i + 1][..i] == peers[..i];
        sent := sent + [Send(p.ws, if p.active then Promoted else Standby)];
        sent := sent + [Send(p.ws, Peers(list))];
        i := i + 1;
      }
      assert peers[..i] == peers;
    }

    method MakeActive(c: ClientId, now: int)
      modifies `peers, `sent
      ensures peers == SetActive(old(peers), c, now) && sent == old(sent) + Broadcast(peers)
    {
      var i := 0;
      while i < |peers|
        modifies `peers
        invariant i <= |peers| == |old(peers)|
        invariant forall k :: 0 <= k < i ==> peers[k] == Elected(old(peers)[k], c, now)
        invariant forall k :: i <= k < |peers| ==> peers[k] == old(peers)[k]
      {
        var p := peers[i].(active := peers[i].clientId == c);
        if p.active {
          p := p.(lastActiveAt := now);
        }
        peers := peers[i := p];
        i := i + 1;
      }
      BroadcastLifecycle();
    }

    method AttachPeer(ws: Socket, c: ClientId, profile: string, now: int)
      modifies `peers, `sent
      ensures peers == Attach(old(peers), ws, c, profile, now)
      ensures sent == old(sent) + AttachSends(old(peers), ws, c, profile, now)
    {
      var prev := IndexOf(peers, c);
      var someoneActive := SomeoneActive(peers);
      var active := if prev.Some? then peers[prev.value].active else !someoneActive;
      var p := Peer(ws, c, profile, active, if prev.Some? then peers[prev.value].lastActiveAt else if active then now else 0);
      peers := if prev.Some? then peers[prev.value := p] else peers + [p];
      if active {
        MakeActive(c, now);
      } else {
        BroadcastLifecycle();
      }
      sent := sent + [Send(ws, Welcome(active))];
      sent := sent + [Send(ws, Snapshot(active))];
    }

    method DetachPeer(c: ClientId, now: int)
      modifies this
      ensures peers == Detach(old(peers), c, now) && sent == old(sent) + DetachSends(old(peers), c, now)
      ensures var prev := old(IndexOf(peers, c));
        if prev.Some? && old(peers)[prev.value].active then inFlight == {} && failed == old(failed + inFlight)
        else inFlight == old(inFlight) && failed == old(failed)
    {
      var prev := IndexOf(peers, c);
      var wasActive := prev.Some? && peers[prev.value].active;
      if prev.Some? {
        peers := peers[..prev.value] + peers[prev.value + 1..];
      }
      if wasActive {
        failed := failed + inFlight;
        inFlight := {};
        if peers != [] {
          MakeActive(peers[MostRecent(peers)].clientId, now);
        }
      }
      BroadcastLifecycle();
    }

    /** The coalesced snapshot timer after app events. */
    method PushSnapshots()
      modifies `sent
      ensures sent == old(sent) + SnapshotSends(peers)
    {
      var i := 0;
      while i < |peers|
        modifies `sent
        invariant i <= |peers| && sent == old(sent) + SnapshotSends(peers[..i])
      {
        assert peers[..i + 1][..i] == peers[..i];
        sent := sent + [Send(peers[i].ws, Snapshot(peers[i].active))];
        i := i + 1;
      }
      assert peers[..i] == peers;
    }

    /** `request_takeover` from a peer, and "Make active" in the app. */
    method Takeover(c: ClientId, now: int)
      modifies `peers, `sent
      ensures if IndexOf(old(peers), c).Some? then peers == SetActive(old(peers), c, now) && sent == old(sent) + Broadcast(peers)
              else peers == old(peers) && sent == old(sent)
    {
      if IndexOf(peers, c).Some? {
        MakeActive(c, now);
      }
    }
  }
}
