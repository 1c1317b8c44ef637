/** What every step of the role protocol keeps, and the agreement it leads to when the channels are drained. */
module RoleRuns {
  import opened Options
  import opened ExtensionBridges
  import Election = ExtensionElection
  import opened RoleProtocol
  import opened RoleAgreement

  ghost predicate HasSocket(peers: seq<Peer>, w: Socket) {
    exists i :: 0 <= i < |peers| && peers[i].ws == w
  }

  /** Either the hello is still unread, at the head, or the bridge knows the socket. */
  ghost predicate ConnSound(s: System, w: Socket)
    requires w in s.conns
  {
    var conn := s.conns[w];
    && (conn.extOpen <==> ExtOf(s, conn.client).ws == Some(w))
    && (conn.extOpen ==> (Closed in conn.down <==> !conn.bridgeOpen))
    && (if conn.bridgeOpen then
          && (Hangup in conn.up <==> !conn.extOpen)
          && (if HasSocket(s.peers, w) then Hello !in conn.up else conn.up != [] && conn.up[0] == Hello && Hello !in conn.up[1..])
        else !HasSocket(s.peers, w) && conn.up == [])
  }

  ghost predicate ConnsSound(s: System) {
    forall w :: w in s.conns ==> ConnSound(s, w)
  }

  ghost predicate PeersSound(s: System) {
    forall i :: 0 <= i < |s.peers| ==> s.peers[i].ws in s.conns && s.conns[s.peers[i].ws].client == s.peers[i].clientId
  }

  ghost predicate ExtSound(s: System, c: ClientId) {
    var e := ExtOf(s, c);
    if e.ws.None? then e.role == Off
    else e.ws.value in s.conns && s.conns[e.ws.value].client == c && s.conns[e.ws.value].extOpen
  }

  ghost predicate Structure(s: System) {
    && ConnsSound(s) && PeersSound(s) && (forall c :: ExtSound(s, c)) && Election.Sound(s.peers, s.now) && 0 <= s.now
  }

  /** What the extension of peer `i` will have read once its channel is drained. */
  ghost predicate AgreesWith(s: System, i: nat)
    requires i < |s.peers| && s.peers[i].ws in s.conns
  {
    var conn := s.conns[s.peers[i].ws];
    var e := ExtOf(s, conn.client);
    conn.extOpen ==>
      Or(LastRole(conn.down), e.role) == RoleOf(s.peers[i].active) && Or(LastList(conn.down), e.peersCache) == PeerList(s.peers)
  }

  ghost predicate Inv(s: System) {
    Structure(s) && forall i :: 0 <= i < |s.peers| ==> AgreesWith(s, i)
  }

  lemma SocketsAreDistinct(s: System)
    requires PeersSound(s) && Election.DistinctClients(s.peers)
    ensures DistinctSockets(s.peers)
  {
  }

  lemma {:induction false} ToSocketOnlyMessages(sends: seq<Send>, w: Socket)
    ensures Closed !in ToSocket(sends, w)
    decreases |sends|
  {
    if sends != [] { ToSocketOnlyMessages(sends[..|sends| - 1], w); }
  }

  /** A broadcast that names the present peers restores agreement, whatever it was before. */
  lemma PostAgrees(s: System, sends: seq<Send>)
    requires Structure(s) && Refreshes(sends, s.peers)
    ensures Inv(s.(conns := Post(s.conns, sends)))
  {
    var s' := s.(conns := Post(s.conns, sends));
    forall w | w in s'.conns ensures ConnSound(s', w) {
      assert ConnSound(s, w);
      ToSocketOnlyMessages(sends, w);
    }
    forall c ensures ExtSound(s', c) { assert ExtSound(s, c); }
    forall i | 0 <= i < |s.peers| ensures AgreesWith(s', i) {
      var w := s.peers[i].ws;
      assert ConnSound(s, w) && HasSocket(s.peers, w);
      LastOfConcat(s.conns[w].down, ToSocket(sends, w));
    }
  }

  // ---- the extension's steps ----

  lemma OpenKeeps(s: System, c: ClientId, w: Socket)
    requires Inv(s) && w !in s.conns && ExtOf(s, c).ws == None
    ensures Inv(Open(s, c, w))
  {
    var s' := Open(s, c, w);
    forall v | v in s'.conns ensures ConnSound(s', v) {
      if v != w { assert ConnSound(s, v); }
    }
    forall d ensures ExtSound(s', d) { assert ExtSound(s, d); }
    forall i | 0 <= i < |s.peers| ensures AgreesWith(s', i) {
      assert AgreesWith(s, i) && ConnSound(s, s.peers[i].ws);
    }
  }

  lemma OtherConnsStay(s: System, s': System, w: Socket)
    requires Structure(s) && w in s.conns && s.conns[w].extOpen && s'.peers == s.peers && s'.now == s.now
    requires s'.conns.Keys == s.conns.Keys && s'.conns[w].client == s.conns[w].client
    requires forall v :: v in s.conns && v != w ==> s'.conns[v] == s.conns[v]
    requires forall d :: d != s.conns[w].client ==> ExtOf(s', d) == ExtOf(s, d)
    requires ExtOf(s', s.conns[w].client).ws in {None, Some(w)} && ConnSound(s', w) && ExtSound(s', s.conns[w].client)
    ensures Structure(s')
    ensures forall i :: 0 <= i < |s.peers| && s.peers[i].ws != w && AgreesWith(s, i) ==> AgreesWith(s', i)
  {
    var c := s.conns[w].client;
    assert ConnSound(s, w);
    forall v | v in s'.conns ensures ConnSound(s', v) {
      if v != w { assert ConnSound(s, v); }
    }
    forall d ensures ExtSound(s', d) { assert ExtSound(s, d); }
    forall i | 0 <= i < |s.peers| && s.peers[i].ws != w && AgreesWith(s, i) ensures AgreesWith(s', i) {
      assert ConnSound(s, s.peers[i].ws);
    }
  }

  lemma ReadKeepsAgreement(s: System, w: Socket, i: nat)
    requires w in s.conns && s.conns[w].extOpen && s.conns[w].down != [] && i < |s.peers| && s.peers[i].ws == w && AgreesWith(s, i)
    ensures AgreesWith(ExtReads(s, w), i)
  {
    var down := s.conns[w].down;
    ReadHead(down);
    assert [down[0]][..0] == [];
    assert LastList([down[0]]) == if down[0].Message? && down[0].msg.Peers? then Some(down[0].msg.list) else None;
    hide LastRole, LastList;
  }

  lemma ExtReadKeeps(s: System, w: Socket)
    requires Inv(s) && w in s.conns && s.conns[w].extOpen && s.conns[w].down != []
    ensures Inv(ExtReads(s, w))
  {
    var s' := ExtReads(s, w);
    var conn := s.conns[w];
    assert ConnSound(s, w);
    assert conn.down == [conn.down[0]] + conn.down[1..];
    assert ExtSound(s, conn.client);
    OtherConnsStay(s, s', w);
    hide ExtReads, Structure, ConnSound;
    forall i | 0 <= i < |s.peers| && s.peers[i].ws == w ensures AgreesWith(s', i) {
      ReadKeepsAgreement(s, w, i);
    }
  }

  lemma ExtCloseKeeps(s: System, w: Socket)
    requires Inv(s) && w in s.conns && s.conns[w].extOpen
    ensures Inv(ExtCloses(s, w))
  {
    var s' := ExtCloses(s, w);
    assert ConnSound(s, w) && ConnSound(s', w);
    OtherConnsStay(s, s', w);
    forall i | 0 <= i < |s.peers| ensures AgreesWith(s', i) { assert AgreesWith(s, i); }
  }

  lemma AskKeeps(s: System, w: Socket)
    requires Inv(s) && w in s.conns && s.conns[w].extOpen
    ensures Inv(AsksTakeover(s, w))
  {
    var s' := AsksTakeover(s, w);
    assert ConnSound(s, w) && ConnSound(s', w) && ExtSound(s, s.conns[w].client);
    OtherConnsStay(s, s', w);
    forall i | 0 <= i < |s.peers| ensures AgreesWith(s', i) { assert AgreesWith(s, i); }
  }

  // ---- the bridge's steps ----

  /** The bridge's end of `w` changes, the set of known sockets changes by at most `w`, the extensions do not. */
  lemma BridgeKeepsStructure(s: System, s': System, w: Socket)
    requires Structure(s) && w in s.conns && s'.exts == s.exts && s'.conns.Keys == s.conns.Keys
    requires s'.conns[w].client == s.conns[w].client && s'.conns[w].extOpen == s.conns[w].extOpen && ConnSound(s', w)
    requires forall v :: v in s.conns && v != w ==> s'.conns[v] == s.conns[v] && (HasSocket(s'.peers, v) <==> HasSocket(s.peers, v))
    requires PeersSound(s') && Election.Sound(s'.peers, s'.now) && 0 <= s'.now
    ensures Structure(s')
  {
    forall v | v in s'.conns ensures ConnSound(s', v) {
      if v != w { assert ConnSound(s, v); }
    }
    forall d ensures ExtSound(s', d) { assert ExtSound(s, d); }
  }

  lemma SameSockets(peers: seq<Peer>, peers': seq<Peer>)
    requires |peers'| == |peers| && forall i :: 0 <= i < |peers| ==> peers'[i].ws == peers[i].ws
    ensures forall v :: HasSocket(peers', v) <==> HasSocket(peers, v)
  {
    forall v ensures HasSocket(peers', v) <==> HasSocket(peers, v) {
      if i :| 0 <= i < |peers| && peers[i].ws == v { assert peers'[i].ws == v; }
    }
  }

  lemma TakeoverKeeps(s: System, c: ClientId, now: int)
    requires Inv(s) && s.now <= now
    ensures Inv(TakesOver(s, c, now))
  {
    Election.TakeoverKeeps(s.peers, Election.TakenOver(c, now), s.now);
    if IndexOf(s.peers, c).Some? {
      var s1 := s.(peers := SetActive(s.peers, c, now), now := now);
      TakenOverStructure(s, c, now);
      hide Inv, Structure, SetActive, Broadcast, Refreshes, Election.Sound, DistinctSockets;
      StructureKeepsSocketsDistinct(s1);
      BroadcastRefreshes(s1.peers);
      PostAgrees(s1, Broadcast(s1.peers));
    } else {
      StillSound(s, now);
    }
  }

  lemma TakenOverStructure(s: System, c: ClientId, now: int)
    requires Inv(s) && s.now <= now && IndexOf(s.peers, c).Some? && Election.Sound(SetActive(s.peers, c, now), now)
    ensures Structure(s.(peers := SetActive(s.peers, c, now), now := now))
  {
    var s1 := s.(peers := SetActive(s.peers, c, now), now := now);
    SameSockets(s.peers, s1.peers);
    forall v | v in s1.conns ensures ConnSound(s1, v) { assert ConnSound(s, v); }
    forall d ensures ExtSound(s1, d) { assert ExtSound(s, d); }
  }

  lemma StillSound(s: System, now: int)
    requires Inv(s) && s.now <= now && Election.Sound(s.peers, now)
    ensures Inv(s.(now := now))
  {
    var s' := s.(now := now);
    forall v | v in s'.conns ensures ConnSound(s', v) { assert ConnSound(s, v); }
    forall d ensures ExtSound(s', d) { assert ExtSound(s, d); }
    forall i | 0 <= i < |s.peers| ensures AgreesWith(s', i) { assert AgreesWith(s, i); }
  }

  lemma TakeoverReadKeeps(s: System, w: Socket, now: int)
    requires Inv(s) && s.now <= now && w in s.conns && s.conns[w].bridgeOpen && s.conns[w].up != []
    requires s.conns[w].up[0] == RequestTakeover
    ensures Inv(BridgeReads(s, w, now))
  {
    var conn := s.conns[w];
    var s1 := s.(conns := s.conns[w := conn.(up := conn.up[1..])]);
    assert ConnSound(s, w) && conn.up == [conn.up[0]] + conn.up[1..];
    BridgeKeepsStructure(s, s1, w);
    forall i | 0 <= i < |s.peers| ensures AgreesWith(s1, i) { assert AgreesWith(s, i); }
    TakeoverKeeps(s1, conn.client, now);
  }

  lemma AttachShape(peers: seq<Peer>, w: Socket, c: ClientId, now: int)
    requires IndexOf(peers, c).None?
    ensures var peers' := Attach(peers, w, c, "", now);
      && |peers'| == |peers| + 1 && peers'[|peers|].ws == w && peers'[|peers|].clientId == c
      && (forall i :: 0 <= i < |peers| ==> peers'[i].ws == peers[i].ws && peers'[i].clientId == peers[i].clientId)
      && (forall v :: HasSocket(peers', v) <==> HasSocket(peers, v) || v == w)
  {
    var peers' := Attach(peers, w, c, "", now);
    forall v ensures HasSocket(peers', v) <==> HasSocket(peers, v) || v == w {
      if i :| 0 <= i < |peers| && peers[i].ws == v { assert peers'[i].ws == v; }
      assert peers'[|peers|].ws == w;
    }
  }

  /** After a hello is read from `w`, before anything is sent. */
  function Joined(s: System, w: Socket, now: int): System
    requires w in s.conns && s.conns[w].up != []
  {
    var conn := s.conns[w];
    s.(peers := Attach(s.peers, w, conn.client, "", now), conns := s.conns[w := conn.(up := conn.up[1..])], now := now)
  }

  /** The new entry is that of `w`, and no other socket becomes known. */
  lemma JoinedPeers(s: System, w: Socket, now: int)
    requires PeersSound(s) && w in s.conns && s.conns[w].up != [] && IndexOf(s.peers, s.conns[w].client).None?
    ensures var s1 := Joined(s, w, now);
      PeersSound(s1) && forall v :: HasSocket(s1.peers, v) <==> HasSocket(s.peers, v) || v == w
  {
    AttachShape(s.peers, w, s.conns[w].client, now);
    hide Attach, HasSocket;
  }

  lemma JoinedStructure(s: System, w: Socket, now: int)
    requires Structure(s) && s.now <= now && w in s.conns && s.conns[w].bridgeOpen && s.conns[w].up != [] && s.conns[w].up[0] == Hello
    requires IndexOf(s.peers, s.conns[w].client).None?
    ensures Structure(Joined(s, w, now))
  {
    var s1 := Joined(s, w, now);
    Election.AttachKeeps(s.peers, Election.Attached(w, s.conns[w].client, "", now), s.now);
    JoinedPeers(s, w, now);
    assert ConnSound(s, w) && Election.Sound(s1.peers, s1.now);
    hide Attach, Election.Sound, HasSocket, PeersSound, Structure;
    assert ConnSound(s1, w);
    hide ConnSound;
    BridgeKeepsStructure(s, s1, w);
  }

  lemma StructureKeepsSocketsDistinct(s: System)
    requires Structure(s)
    ensures DistinctSockets(s.peers)
  {
    SocketsAreDistinct(s);
  }

  lemma HelloKeeps(s: System, w: Socket, now: int)
    requires Inv(s) && s.now <= now && w in s.conns && s.conns[w].bridgeOpen && s.conns[w].up != [] && s.conns[w].up[0] == Hello
    requires IndexOf(s.peers, s.conns[w].client).None?
    ensures Inv(BridgeReads(s, w, now))
  {
    var s1 := Joined(s, w, now);
    JoinedStructure(s, w, now);
    hide Inv, Structure, Attach, Entry, Refreshes, Broadcast, DistinctSockets;
    StructureKeepsSocketsDistinct(s1);
    BroadcastRefreshes(s1.peers);
    var active := Entry(s.peers, w, s.conns[w].client, "", now).active;
    GreetingKeepsRefreshed(Broadcast(s1.peers), s1.peers, w, active);
    PostAgrees(s1, AttachSends(s.peers, w, s.conns[w].client, "", now));
  }

  lemma WithoutSockets(peers: seq<Peer>, k: nat)
    requires k < |peers| && DistinctSockets(peers)
    ensures forall v :: HasSocket(Without(peers, k), v) <==> HasSocket(peers, v) && v != peers[k].ws
  {
    var left := Without(peers, k);
    forall v ensures HasSocket(left, v) <==> HasSocket(peers, v) && v != peers[k].ws {
      if i :| 0 <= i < |peers| && peers[i].ws == v && v != peers[k].ws { assert left[if i < k then i else i - 1].ws == v; }
      if i :| 0 <= i < |left| && left[i].ws == v { assert peers[if i < k then i else i + 1].ws == v; }
    }
  }

  lemma DetachShape(peers: seq<Peer>, c: ClientId, now: int)
    requires IndexOf(peers, c).Some? && DistinctSockets(peers)
    ensures var k, peers' := IndexOf(peers, c).value, Detach(peers, c, now);
      && |peers'| == |peers| - 1
      && (forall i :: 0 <= i < |peers'| ==> peers'[i].ws == Without(peers, k)[i].ws && peers'[i].clientId == Without(peers, k)[i].clientId)
      && (forall v :: HasSocket(peers', v) <==> HasSocket(peers, v) && v != peers[k].ws)
  {
    var k := IndexOf(peers, c).value;
    WithoutSockets(peers, k);
    hide HasSocket;
    SameSockets(Without(peers, k), Detach(peers, c, now));
  }

  /** A socket known to the bridge is that of its client's entry. */
  lemma EntryOfSocket(s: System, w: Socket) returns (i: nat)
    requires Structure(s) && w in s.conns && HasSocket(s.peers, w)
    ensures i < |s.peers| && s.peers[i].ws == w && IndexOf(s.peers, s.conns[w].client) == Some(i)
  {
    i :| 0 <= i < |s.peers| && s.peers[i].ws == w;
    assert s.peers[i].clientId == s.conns[w].client;
  }

  lemma DetachRefreshes(peers: seq<Peer>, c: ClientId, now: int)
    requires DistinctSockets(Detach(peers, c, now))
    ensures Refreshes(DetachSends(peers, c, now), Detach(peers, c, now))
  {
    var after := Detach(peers, c, now);
    BroadcastRefreshes(after);
    LaterSendsRefresh(Broadcast(after), Broadcast(after), after);
    assert [] + Broadcast(after) == Broadcast(after);
    hide Refreshes, Broadcast, Detach;
  }

  /** After the loss of `w`, before anything is sent. */
  function Bereft(s: System, w: Socket, conn': Conn, now: int): System {
    s.(peers := Detach(s.peers, conn'.client, now), conns := s.conns[w := conn'], now := now)
  }

  /** The entry that goes is that of `w`, and no other socket becomes unknown. */
  lemma BereftPeers(s: System, w: Socket, conn': Conn, now: int, i: nat)
    requires PeersSound(s) && Election.DistinctClients(s.peers) && w in s.conns && conn'.client == s.conns[w].client
    requires i < |s.peers| && s.peers[i].ws == w && IndexOf(s.peers, conn'.client) == Some(i)
    ensures var s2 := Bereft(s, w, conn', now);
      PeersSound(s2) && forall v :: HasSocket(s2.peers, v) <==> HasSocket(s.peers, v) && v != w
  {
    SocketsAreDistinct(s);
    DetachShape(s.peers, conn'.client, now);
    Election.WithoutKeepsDistinct(s.peers, i);
    hide Detach, HasSocket, Without;
  }

  lemma LossStructure(s: System, w: Socket, conn': Conn, now: int)
    requires Structure(s) && s.now <= now && w in s.conns && s.conns[w].bridgeOpen && Hello !in s.conns[w].up
    requires conn'.client == s.conns[w].client && !conn'.bridgeOpen && conn'.up == [] && conn'.extOpen == s.conns[w].extOpen
    requires conn'.extOpen ==> Closed in conn'.down
    ensures Structure(Bereft(s, w, conn', now))
  {
    var s2 := Bereft(s, w, conn', now);
    assert ConnSound(s, w);
    var i := EntryOfSocket(s, w);
    Election.DetachKeeps(s.peers, Election.Detached(conn'.client, now), s.now);
    BereftPeers(s, w, conn', now, i);
    assert Election.Sound(s2.peers, s2.now);
    hide Detach, Election.Sound, HasSocket, PeersSound, Structure;
    assert ConnSound(s2, w);
    hide ConnSound;
    BridgeKeepsStructure(s, s2, w);
  }

  /** The bridge's end of the registered socket `w` is closed, and the rest are told. */
  lemma LossKeeps(s: System, w: Socket, conn': Conn, now: int)
    requires Inv(s) && s.now <= now && w in s.conns && s.conns[w].bridgeOpen && Hello !in s.conns[w].up
    requires conn'.client == s.conns[w].client && !conn'.bridgeOpen && conn'.up == [] && conn'.extOpen == s.conns[w].extOpen
    requires conn'.extOpen ==> Closed in conn'.down
    ensures Inv(HandlesLoss(s.(conns := s.conns[w := conn']), conn'.client, now))
  {
    LossStructure(s, w, conn', now);
    hide Inv, Structure, Detach, DetachSends, Refreshes, DistinctSockets;
    var s2 := Bereft(s, w, conn', now);
    StructureKeepsSocketsDistinct(s2);
    DetachRefreshes(s.peers, conn'.client, now);
    PostAgrees(s2, DetachSends(s.peers, conn'.client, now));
  }

  lemma HangupKeeps(s: System, w: Socket, now: int)
    requires Inv(s) && s.now <= now && w in s.conns && s.conns[w].bridgeOpen && s.conns[w].up != [] && s.conns[w].up[0] == Hangup
    ensures Inv(BridgeReads(s, w, now))
  {
    var conn := s.conns[w];
    assert ConnSound(s, w);
    var conn' := conn.(up := [], bridgeOpen := false);
    assert s.conns[w := conn.(up := conn.up[1..])][w := conn'] == s.conns[w := conn'];
    assert BridgeReads(s, w, now) == HandlesLoss(s.(conns := s.conns[w := conn']), conn.client, now);
    assert Hello !in conn.up && !conn.extOpen;
    hide Inv, HandlesLoss, BridgeReads;
    LossKeeps(s, w, conn', now);
  }

  lemma BridgeLosesKeeps(s: System, w: Socket, now: int)
    requires Inv(s) && s.now <= now && w in s.conns && s.conns[w].bridgeOpen
    ensures Inv(BridgeLoses(s, w, now))
  {
    var conn := s.conns[w];
    var s1 := s.(conns := s.conns[w := conn.(bridgeOpen := false, up := [], down := if conn.extOpen then conn.down + [Closed] else [])]);
    assert ConnSound(s, w);
    if Hello in conn.up {
      BridgeKeepsStructure(s, s1, w);
      forall i | 0 <= i < |s.peers| ensures AgreesWith(s1, i) { assert AgreesWith(s, i) && HasSocket(s.peers, s.peers[i].ws); }
      StillSound(s1, now);
    } else {
      assert conn.extOpen ==> Closed == (conn.down + [Closed])[|conn.down|];
      LossKeeps(s, w, s1.conns[w], now);
    }
  }

  lemma PushKeeps(s: System)
    requires Inv(s)
    ensures Inv(PushesSnapshots(s))
  {
    var s' := PushesSnapshots(s);
    var sends := SnapshotSends(s.peers);
    forall w | w in s'.conns ensures ConnSound(s', w) {
      assert ConnSound(s, w);
      ToSocketOnlyMessages(sends, w);
    }
    forall c ensures ExtSound(s', c) { assert ExtSound(s, c); }
    forall i | 0 <= i < |s.peers| ensures AgreesWith(s', i) {
      var w := s.peers[i].ws;
      assert AgreesWith(s, i);
      SnapshotsHaveNoRole(s.peers, w);
      LastOfConcat(s.conns[w].down, ToSocket(sends, w));
    }
  }

  // ---- runs ----

  lemma StepKeeps(s: System, step: Step)
    requires Inv(s) && Enabled(s, step) && OldSocketClosesFirst(s, step)
    ensures Inv(Next(s, step))
  {
    match step
    case Opened(c, w) => OpenKeeps(s, c, w);
    case ExtRead(w) => ExtReadKeeps(s, w);
    case ExtClosed(w) => ExtCloseKeeps(s, w);
    case AskedTakeover(w) => AskKeeps(s, w);
    case BridgeRead(w, at) =>
      hide Inv;
      match s.conns[w].up[0] {
        case Hello => HelloKeeps(s, w, at);
        case RequestTakeover => TakeoverReadKeeps(s, w, at);
        case Hangup => HangupKeeps(s, w, at);
      }
    case BridgeLost(w, at) => BridgeLosesKeeps(s, w, at);
    case AppTookOver(c, at) => TakeoverKeeps(s, c, at);
    case SnapshotPushed => PushKeeps(s);
  }

  ghost predicate IsRun(states: seq<System>, steps: seq<Step>) {
    && |states| == |steps| + 1 && states[0] == System([], map[], map[], 0)
    && forall i :: 0 <= i < |steps| ==>
         Enabled(states[i], steps[i]) && OldSocketClosesFirst(states[i], steps[i]) && states[i + 1] == Next(states[i], steps[i])
  }

  lemma {:induction false} RunKeepsInv(states: seq<System>, steps: seq<Step>, n: nat)
    requires IsRun(states, steps) && n < |states|
    ensures Inv(states[n])
  {
    if n > 0 {
      hide Inv, Next, Enabled, OldSocketClosesFirst;
      RunKeepsInv(states, steps, n - 1);
      StepKeeps(states[n - 1], steps[n - 1]);
    }
  }

  lemma RunStep(states: seq<System>, steps: seq<Step>, n: nat)
    requires IsRun(states, steps) && n < |steps|
    ensures Inv(states[n]) && Enabled(states[n], steps[n]) && OldSocketClosesFirst(states[n], steps[n])
    ensures states[n + 1] == Next(states[n], steps[n])
  {
    hide Inv, Enabled, OldSocketClosesFirst, Next;
    RunKeepsInv(states, steps, n);
  }

  /** Nothing is left to read at an open end of a socket of `c`. */
  ghost predicate DrainedFor(s: System, c: ClientId) {
    forall w :: w in s.conns && s.conns[w].client == c ==>
      (s.conns[w].bridgeOpen ==> s.conns[w].up == []) && (s.conns[w].extOpen ==> s.conns[w].down == [])
  }

  ghost predicate Drained(s: System) {
    forall c :: DrainedFor(s, c)
  }

  /** The role the bridge would have the extension of `c` in. */
  function RoleAtBridge(s: System, c: ClientId): Role {
    var i := IndexOf(s.peers, c);
    if i.None? then Off else RoleOf(s.peers[i.value].active)
  }

  lemma DrainedRole(s: System, c: ClientId)
    requires Inv(s) && DrainedFor(s, c)
    ensures ExtOf(s, c).role == RoleAtBridge(s, c)
    ensures IndexOf(s.peers, c).Some? ==> ExtOf(s, c).peersCache == PeerList(s.peers)
  {
    var i := IndexOf(s.peers, c);
    assert ExtSound(s, c);
    if i.Some? {
      assert HasSocket(s.peers, s.peers[i.value].ws);
      assert ConnSound(s, s.peers[i.value].ws) && AgreesWith(s, i.value);
    } else if ExtOf(s, c).ws.Some? {
      var w := ExtOf(s, c).ws.value;
      assert ConnSound(s, w);
      var k := EntryOfSocket(s, w);
    }
  }

  /** Over every run of connects, losses noticed at either end, takeovers, snapshots and deliveries in which old sockets
      close first: once the channels of a client are drained, its extension is active exactly when it is the bridge's
      active peer, on standby exactly when it is another peer, off exactly when the bridge does not know it; connected,
      it holds the bridge's list of peers. */
  lemma RolesAgree(states: seq<System>, steps: seq<Step>, n: nat, c: ClientId)
    requires IsRun(states, steps) && n < |states| && DrainedFor(states[n], c)
    ensures var s := states[n];
      && (ExtOf(s, c).role == OnActive <==> exists i :: 0 <= i < |s.peers| && s.peers[i].clientId == c && s.peers[i].active)
      && (ExtOf(s, c).role == Off <==> IndexOf(s.peers, c).None?)
      && (ExtOf(s, c).role != Off ==> ExtOf(s, c).peersCache == PeerList(s.peers))
  {
    RunKeepsInv(states, steps, n);
    hide IsRun, DrainedFor;
    ActiveIsActive(states[n], c);
  }

  /** And once all channels are drained, exactly one extension is active if any is connected. */
  lemma ExactlyOneExtensionIsActive(states: seq<System>, steps: seq<Step>, n: nat)
    requires IsRun(states, steps) && n < |states| && Drained(states[n])
    ensures (exists c :: ExtOf(states[n], c).role != Off) <==> states[n].peers != []
    ensures states[n].peers != [] ==>
      exists d :: ExtOf(states[n], d).role == OnActive && forall e :: ExtOf(states[n], e).role == OnActive ==> e == d
  {
    var s := states[n];
    RunKeepsInv(states, steps, n);
    hide IsRun, Inv, DrainedFor;
    forall c ensures ExtOf(s, c).role != Off ==> s.peers != [] { ActiveIsActive(s, c); }
    if s.peers != [] {
      OneIsActive(s);
    }
  }

  lemma ActiveIsActive(s: System, c: ClientId)
    requires Inv(s) && DrainedFor(s, c)
    ensures ExtOf(s, c).role == OnActive <==> exists i :: 0 <= i < |s.peers| && s.peers[i].clientId == c && s.peers[i].active
    ensures ExtOf(s, c).role == Off <==> IndexOf(s.peers, c).None?
    ensures ExtOf(s, c).role != Off ==> ExtOf(s, c).peersCache == PeerList(s.peers)
  {
    DrainedRole(s, c);
    assert Election.DistinctClients(s.peers);
    hide Inv, DrainedFor;
    if i :| 0 <= i < |s.peers| && s.peers[i].clientId == c && s.peers[i].active {
      assert IndexOf(s.peers, c) == Some(i);
    }
  }

  lemma OneIsActive(s: System)
    requires Inv(s) && Drained(s) && s.peers != []
    ensures exists d :: ExtOf(s, d).role == OnActive && forall e :: ExtOf(s, e).role == OnActive ==> e == d
  {
    var i: nat :| Election.Leads(s.peers, i);
    var d := s.peers[i].clientId;
    assert IndexOf(s.peers, d) == Some(i);
    hide Inv, DrainedFor;
    DrainedRole(s, d);
    forall e | ExtOf(s, e).role == OnActive ensures e == d { DrainedRole(s, e); }
  }

  // ---- the hypothesis is exact ----

  lemma EarlyHelloBreaks(s: System, w: Socket, now: int)
    requires Inv(s) && s.now <= now && w in s.conns && s.conns[w].bridgeOpen && s.conns[w].up != [] && s.conns[w].up[0] == Hello
    requires IndexOf(s.peers, s.conns[w].client).Some?
    ensures !Inv(BridgeReads(s, w, now))
  {
    var k := IndexOf(s.peers, s.conns[w].client).value;
    var v := s.peers[k].ws;
    var s' := BridgeReads(s, w, now);
    assert ConnSound(s, w) && ConnSound(s, v) && HasSocket(s.peers, v) && v != w;
    assert s.conns[v].bridgeOpen && Hello !in s.conns[v].up;
    forall i | 0 <= i < |s'.peers| ensures s'.peers[i].ws != v {
      assert i != k ==> s'.peers[i].ws == s.peers[i].ws && s.peers[i].clientId != s.peers[k].clientId;
    }
    assert !ConnSound(s', v);
  }

  lemma EarlyOpenBreaks(s: System, c: ClientId, w: Socket)
    requires Inv(s) && w !in s.conns && ExtOf(s, c).ws.Some?
    ensures !Inv(Open(s, c, w))
  {
    assert ExtSound(s, c);
    assert !ConnSound(Open(s, c, w), ExtOf(s, c).ws.value);
  }

  /** The order assumed of sockets is needed step by step: a step keeps the invariant exactly when it respects it. */
  lemma OrderIsExact(s: System, step: Step)
    requires Inv(s) && Enabled(s, step)
    ensures Inv(Next(s, step)) <==> OldSocketClosesFirst(s, step)
  {
    if OldSocketClosesFirst(s, step) {
      StepKeeps(s, step);
    } else if step.Opened? {
      EarlyOpenBreaks(s, step.client, step.ws);
    } else {
      EarlyHelloBreaks(s, step.ws, step.at);
    }
  }
}
