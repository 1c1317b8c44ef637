/** Once all channels are drained, the extensions agree with the bridge on who is active. */
module RoleAgreement {
  import opened Options
  import opened ExtensionBridges
  import Election = ExtensionElection
  import opened RoleProtocol

  // ---- what a channel will make of a role and of the list of peers ----

  function RoleIn(w: Wire): Option<Role> {
    match w
    case Closed => Some(Off)
    case Message(Promoted) => Some(OnActive)
    case Message(Standby) => Some(OnStandby)
    case _ => None
  }

  function LastRole(wires: seq<Wire>): Option<Role> {
    if wires == [] then None
    else if RoleIn(wires[|wires| - 1]).Some? then RoleIn(wires[|wires| - 1])
    else LastRole(wires[..|wires| - 1])
  }

  function LastList(wires: seq<Wire>): Option<seq<Listed>> {
    if wires == [] then None
    else if wires[|wires| - 1].Message? && wires[|wires| - 1].msg.Peers? then Some(wires[|wires| - 1].msg.list)
    else LastList(wires[..|wires| - 1])
  }

  function Or<T>(o: Option<T>, default: T): T {
    if o.Some? then o.value else default
  }

  function RoleOf(active: bool): Role {
    if active then OnActive else OnStandby
  }

  lemma {:induction false} LastOfConcat(a: seq<Wire>, b: seq<Wire>)
    ensures LastRole(a + b) == if LastRole(b).Some? then LastRole(b) else LastRole(a)
    ensures LastList(a + b) == if LastList(b).Some? then LastList(b) else LastList(a)
    decreases |b|
  {
    if b == [] {
      assert a + b == a;
    } else {
      assert (a + b)[..|a + b| - 1] == a + b[..|b| - 1];
      LastOfConcat(a, b[..|b| - 1]);
    }
  }

  lemma ReadHead(wires: seq<Wire>)
    requires wires != []
    ensures LastRole(wires) == if LastRole(wires[1..]).Some? then LastRole(wires[1..]) else RoleIn(wires[0])
    ensures LastList(wires) == if LastList(wires[1..]).Some? then LastList(wires[1..]) else LastList([wires[0]])
  {
    assert wires == [wires[0]] + wires[1..];
    LastOfConcat([wires[0]], wires[1..]);
  }

  // ---- what a broadcast puts on each channel ----

  lemma {:induction false} ToSocketConcat(a: seq<Send>, b: seq<Send>, w: Socket)
    ensures ToSocket(a + b, w) == ToSocket(a, w) + ToSocket(b, w)
    decreases |b|
  {
    if b == [] {
      assert a + b == a;
    } else {
      assert (a + b)[..|a + b| - 1] == a + b[..|b| - 1];
      ToSocketConcat(a, b[..|b| - 1], w);
    }
  }

  lemma LifecycleToSocket(p: Peer, list: seq<Listed>, w: Socket)
    ensures var wires := ToSocket(Lifecycle(p, list), w);
      if p.ws == w then LastRole(wires) == Some(RoleOf(p.active)) && LastList(wires) == Some(list) else wires == []
  {
    var a, b := Send(p.ws, if p.active then Promoted else Standby), Send(p.ws, Peers(list));
    assert [a, b] == [a] + [b];
    ToSocketConcat([a], [b], w);
    OneSend(a, w);
    OneSend(b, w);
    LastOfConcat(ToSocket([a], w), ToSocket([b], w));
  }

  ghost predicate DistinctSockets(peers: seq<Peer>) {
    forall i, j :: 0 <= i < j < |peers| ==> peers[i].ws != peers[j].ws
  }

  /** What goes out on the sockets makes every peer's extension agree with `peers`. */
  ghost predicate Refreshes(sends: seq<Send>, peers: seq<Peer>) {
    forall i :: 0 <= i < |peers| ==>
      && LastRole(ToSocket(sends, peers[i].ws)) == Some(RoleOf(peers[i].active))
      && LastList(ToSocket(sends, peers[i].ws)) == Some(PeerList(peers))
  }

  lemma {:induction false} BroadcastToReaches(peers: seq<Peer>, list: seq<Listed>, i: nat)
    requires DistinctSockets(peers) && i < |peers|
    ensures var wires := ToSocket(BroadcastTo(peers, list), peers[i].ws);
      LastRole(wires) == Some(RoleOf(peers[i].active)) && LastList(wires) == Some(list)
    decreases |peers|
  {
    var init, last := peers[..|peers| - 1], peers[|peers| - 1];
    var w := peers[i].ws;
    ToSocketConcat(BroadcastTo(init, list), Lifecycle(last, list), w);
    LifecycleToSocket(last, list, w);
    LastOfConcat(ToSocket(BroadcastTo(init, list), w), ToSocket(Lifecycle(last, list), w));
    if i < |init| {
      BroadcastToReaches(init, list, i);
    }
  }

  lemma BroadcastRefreshes(peers: seq<Peer>)
    requires DistinctSockets(peers)
    ensures Refreshes(Broadcast(peers), peers)
  {
    forall i | 0 <= i < |peers| ensures LastRole(ToSocket(Broadcast(peers), peers[i].ws)) == Some(RoleOf(peers[i].active))
                                     && LastList(ToSocket(Broadcast(peers), peers[i].ws)) == Some(PeerList(peers)) {
      BroadcastToReaches(peers, PeerList(peers), i);
    }
  }

  lemma LaterSendsRefresh(a: seq<Send>, b: seq<Send>, peers: seq<Peer>)
    requires Refreshes(b, peers)
    ensures Refreshes(a + b, peers)
  {
    forall i | 0 <= i < |peers| ensures LastRole(ToSocket(a + b, peers[i].ws)) == Some(RoleOf(peers[i].active))
                                     && LastList(ToSocket(a + b, peers[i].ws)) == Some(PeerList(peers)) {
      ToSocketConcat(a, b, peers[i].ws);
      LastOfConcat(ToSocket(a, peers[i].ws), ToSocket(b, peers[i].ws));
    }
  }

  /** The welcome and the snapshot name no role. */
  lemma GreetingKeepsRefreshed(sends: seq<Send>, peers: seq<Peer>, ws: Socket, active: bool)
    requires Refreshes(sends, peers)
    ensures Refreshes(sends + [Send(ws, Welcome(active)), Send(ws, Snapshot(active))], peers)
  {
    var greeting := [Send(ws, Welcome(active)), Send(ws, Snapshot(active))];
    forall i | 0 <= i < |peers| ensures LastRole(ToSocket(sends + greeting, peers[i].ws)) == Some(RoleOf(peers[i].active))
                                     && LastList(ToSocket(sends + greeting, peers[i].ws)) == Some(PeerList(peers)) {
      var w := peers[i].ws;
      ToSocketConcat(sends, greeting, w);
      LastOfConcat(ToSocket(sends, w), ToSocket(greeting, w));
      GreetingHasNoRole(ws, active, w);
    }
  }

  lemma GreetingHasNoRole(ws: Socket, active: bool, w: Socket)
    ensures var wires := ToSocket([Send(ws, Welcome(active)), Send(ws, Snapshot(active))], w);
      LastRole(wires) == None && LastList(wires) == None
  {
    var a, b := Send(ws, Welcome(active)), Send(ws, Snapshot(active));
    assert [a, b] == [a] + [b];
    ToSocketConcat([a], [b], w);
    OneSend(a, w);
    OneSend(b, w);
    LastOfConcat(ToSocket([a], w), ToSocket([b], w));
  }

  lemma OneSend(a: Send, w: Socket)
    ensures var wires := ToSocket([a], w);
      wires == (if a.ws == w then [Message(a.msg)] else []) && LastRole(wires) == (if a.ws == w then RoleIn(Message(a.msg)) else None)
      && LastList(wires) == if a.ws == w && a.msg.Peers? then Some(a.msg.list) else None
  {
    assert [a][..0] == [];
    assert [Message(a.msg)][..0] == [];
  }

  /** Snapshots name no role and no list. */
  lemma {:induction false} SnapshotsHaveNoRole(peers: seq<Peer>, w: Socket)
    ensures LastRole(ToSocket(SnapshotSends(peers), w)) == None && LastList(ToSocket(SnapshotSends(peers), w)) == None
    decreases |peers|
  {
    if peers != [] {
      var init, last := peers[..|peers| - 1], peers[|peers| - 1];
      SnapshotsHaveNoRole(init, w);
      var send := Send(last.ws, Snapshot(last.active));
      ToSocketConcat(SnapshotSends(init), [send], w);
      OneSend(send, w);
      LastOfConcat(ToSocket(SnapshotSends(init), w), ToSocket([send], w));
    }
  }
}
