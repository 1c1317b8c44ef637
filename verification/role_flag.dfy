/**
 The second flag an extension keeps, `activeFlag` (extension/background.js): what it holds over whole runs, and exactly
 when it agrees with the role.
 */
module RoleFlag {
  import opened Options
  import opened ExtensionBridges
  import Election = ExtensionElection
  import opened RoleProtocol
  import opened RoleAgreement
  import opened RoleRuns

  // ---- what a channel will make of the flag ----

  function FlagIn(w: Wire): Option<bool> {
    match w
    case Message(Welcome(active)) => Some(active)
    case Message(Snapshot(active)) => Some(active)
    case _ => None
  }

  function LastFlag(wires: seq<Wire>): Option<bool> {
    if wires == [] then None
    else if FlagIn(wires[|wires| - 1]).Some? then FlagIn(wires[|wires| - 1])
    else LastFlag(wires[..|wires| - 1])
  }

  lemma {:induction false} LastFlagOfConcat(a: seq<Wire>, b: seq<Wire>)
    ensures LastFlag(a + b) == if LastFlag(b).Some? then LastFlag(b) else LastFlag(a)
    decreases |b|
  {
    if b == [] {
      assert a + b == a;
    } else {
      assert (a + b)[..|a + b| - 1] == a + b[..|b| - 1];
      LastFlagOfConcat(a, b[..|b| - 1]);
    }
  }

  lemma FlagOfOneSend(a: Send, w: Socket)
    ensures LastFlag(ToSocket([a], w)) == if a.ws == w then FlagIn(Message(a.msg)) else None
  {
    OneSend(a, w);
    assert [Message(a.msg)][..0] == [];
  }

  /** The flag the reader of `w` will have once its channel is drained. */
  function Flag(s: System, w: Socket): bool
    requires w in s.conns
  {
    Or(LastFlag(s.conns[w].down), ExtOf(s, s.conns[w].client).activeFlag)
  }

  // ---- what each send says of the flag ----

  lemma {:induction false} BroadcastHasNoFlag(peers: seq<Peer>, list: seq<Listed>, w: Socket)
    ensures LastFlag(ToSocket(BroadcastTo(peers, list), w)) == None
    decreases |peers|
  {
    if peers != [] {
      var init, p := peers[..|peers| - 1], peers[|peers| - 1];
      BroadcastHasNoFlag(init, list, w);
      var a, b := Send(p.ws, if p.active then Promoted else Standby), Send(p.ws, Peers(list));
      assert Lifecycle(p, list) == [a] + [b];
      ToSocketConcat(BroadcastTo(init, list), Lifecycle(p, list), w);
      ToSocketConcat([a], [b], w);
      FlagOfOneSend(a, w);
      FlagOfOneSend(b, w);
      LastFlagOfConcat(ToSocket([a], w), ToSocket([b], w));
      LastFlagOfConcat(ToSocket(BroadcastTo(init, list), w), ToSocket(Lifecycle(p, list), w));
    }
  }

  lemma DetachHasNoFlag(peers: seq<Peer>, c: ClientId, now: int, w: Socket)
    ensures LastFlag(ToSocket(DetachSends(peers, c, now), w)) == None
  {
    var after := Detach(peers, c, now);
    var once := Broadcast(after);
    BroadcastHasNoFlag(after, PeerList(after), w);
    ToSocketConcat(once, once, w);
    LastFlagOfConcat(ToSocket(once, w), ToSocket(once, w));
    assert [] + once == once;
    hide Detach, Broadcast;
  }

  lemma TwoFlags(a: Send, b: Send, w: Socket)
    requires a.ws == b.ws && FlagIn(Message(b.msg)).Some?
    ensures LastFlag(ToSocket([a, b], w)) == if w == a.ws then FlagIn(Message(b.msg)) else None
  {
    assert [a, b] == [a] + [b];
    hide LastFlag, ToSocket, FlagIn;
    ToSocketConcat([a], [b], w);
    FlagOfOneSend(a, w);
    FlagOfOneSend(b, w);
    LastFlagOfConcat(ToSocket([a], w), ToSocket([b], w));
  }

  lemma GreetingFlag(peers: seq<Peer>, ws: Socket, c: ClientId, now: int, w: Socket)
    ensures LastFlag(ToSocket(AttachSends(peers, ws, c, "", now), w)) == if w == ws then Some(Entry(peers, ws, c, "", now).active) else None
  {
    var after, active := Attach(peers, ws, c, "", now), Entry(peers, ws, c, "", now).active;
    var told := [Send(ws, Welcome(active)), Send(ws, Snapshot(active))];
    assert AttachSends(peers, ws, c, "", now) == Broadcast(after) + told;
    assert Broadcast(after) == BroadcastTo(after, PeerList(after));
    hide AttachSends, Broadcast, Attach, Entry, LastFlag, ToSocket;
    BroadcastHasNoFlag(after, PeerList(after), w);
    ToSocketConcat(Broadcast(after), told, w);
    TwoFlags(told[0], told[1], w);
    LastFlagOfConcat(ToSocket(Broadcast(after), w), ToSocket(told, w));
  }

  /** The bit of the peer on socket `w`, if there is one. */
  function BitOf(peers: seq<Peer>, w: Socket): Option<bool> {
    if peers == [] then None
    else if peers[|peers| - 1].ws == w then Some(peers[|peers| - 1].active)
    else BitOf(peers[..|peers| - 1], w)
  }

  lemma {:induction false} SnapshotFlag(peers: seq<Peer>, w: Socket)
    ensures LastFlag(ToSocket(SnapshotSends(peers), w)) == BitOf(peers, w)
    decreases |peers|
  {
    if peers != [] {
      var init, p := peers[..|peers| - 1], peers[|peers| - 1];
      SnapshotFlag(init, w);
      var send := Send(p.ws, Snapshot(p.active));
      ToSocketConcat(SnapshotSends(init), [send], w);
      FlagOfOneSend(send, w);
      LastFlagOfConcat(ToSocket(SnapshotSends(init), w), ToSocket([send], w));
    }
  }

  lemma {:induction false} BitOfPeer(peers: seq<Peer>, i: nat)
    requires DistinctSockets(peers) && i < |peers|
    ensures BitOf(peers, peers[i].ws) == Some(peers[i].active)
    decreases |peers|
  {
    if i < |peers| - 1 {
      assert peers[i].ws != peers[|peers| - 1].ws;
      BitOfPeer(peers[..|peers| - 1], i);
    }
  }

  lemma {:induction false} NoPeerNoBit(peers: seq<Peer>, w: Socket)
    ensures BitOf(peers, w).None? <==> !HasSocket(peers, w)
    decreases |peers|
  {
    if peers != [] {
      var init := peers[..|peers| - 1];
      NoPeerNoBit(init, w);
      if HasSocket(init, w) {
        var i :| 0 <= i < |init| && init[i].ws == w;
        assert peers[i].ws == w;
      }
      if peers[|peers| - 1].ws == w { assert HasSocket(peers, w); }
    }
  }

  // ---- what one step tells the reader of a socket ----

  /** The active bit a step puts on socket `w`: in the greeting that answers a hello, or in a snapshot. */
  function Told(s: System, step: Step, w: Socket): Option<bool>
    requires Enabled(s, step)
  {
    match step
    case BridgeRead(v, at) =>
      if v == w && s.conns[w].up[0] == Hello then Some(Entry(s.peers, w, s.conns[w].client, "", at).active) else None
    case SnapshotPushed => BitOf(s.peers, w)
    case _ => None
  }

  lemma PostedFlag(s: System, sends: seq<Send>, w: Socket)
    requires w in s.conns && s.conns[w].bridgeOpen && s.conns[w].extOpen
    ensures Flag(s.(conns := Post(s.conns, sends)), w) == Or(LastFlag(ToSocket(sends, w)), Flag(s, w))
  {
    LastFlagOfConcat(s.conns[w].down, ToSocket(sends, w));
  }

  lemma UnpostedFlag(s: System, sends: seq<Send>, w: Socket)
    requires w in s.conns && !(s.conns[w].bridgeOpen && s.conns[w].extOpen)
    ensures Flag(s.(conns := Post(s.conns, sends)), w) == Flag(s, w)
  {
  }

  /** Sends that say nothing of the flag change it nowhere. */
  lemma SilentPost(s: System, s1: System, sends: seq<Send>, w: Socket)
    requires w in s.conns && w in s1.conns && s1.exts == s.exts && s1.conns[w].down == s.conns[w].down
    requires s1.conns[w].client == s.conns[w].client && LastFlag(ToSocket(sends, w)) == None
    ensures Flag(s1.(conns := Post(s1.conns, sends)), w) == Flag(s, w)
  {
    if s1.conns[w].bridgeOpen && s1.conns[w].extOpen { PostedFlag(s1, sends, w); } else { UnpostedFlag(s1, sends, w); }
  }

  lemma ReadFlag(s: System, v: Socket, w: Socket)
    requires v in s.conns && s.conns[v].extOpen && s.conns[v].down != [] && w in s.conns
    requires v == w || s.conns[v].client != s.conns[w].client
    requires v == w ==> s.conns[w].down[0] != Closed
    ensures Flag(ExtReads(s, v), w) == Flag(s, w)
  {
    if v == w {
      var down := s.conns[w].down;
      assert down == [down[0]] + down[1..] && [down[0]][..0] == [];
      LastFlagOfConcat([down[0]], down[1..]);
      assert LastFlag([down[0]]) == FlagIn(down[0]);
    }
  }

  /** While the extension's end of `w` stays open, its flag-to-be changes exactly as a step tells it. */
  lemma FlagFollowsTheTelling(s: System, step: Step, w: Socket)
    requires Inv(s) && Enabled(s, step) && OldSocketClosesFirst(s, step) && w in s.conns && s.conns[w].extOpen
    requires w in Next(s, step).conns && Next(s, step).conns[w].extOpen
    ensures Flag(Next(s, step), w) == Or(Told(s, step, w), Flag(s, w))
  {
    assert ConnSound(s, w);
    match step
    case ExtRead(v) =>
      assert ConnSound(s, v);
      hide Inv, LastFlag;
      ReadFlag(s, v, w);
    case BridgeRead(v, at) =>
      assert ConnSound(s, v);
      hide LastFlag;
      BridgeReadFlag(s, v, at, w);
    case BridgeLost(v, at) =>
      hide LastFlag;
      BridgeLostFlag(s, v, at, w);
    case AppTookOver(c, at) =>
      hide Inv, LastFlag;
      TakeoverFlag(s, s, c, at, w);
    case SnapshotPushed =>
      hide LastFlag;
      SnapshotFlag(s.peers, w);
      if s.conns[w].bridgeOpen { PostedFlag(s, SnapshotSends(s.peers), w); } else { NoPeerNoBit(s.peers, w); UnpostedFlag(s, SnapshotSends(s.peers), w); }
    case _ =>
      hide Inv;
  }

  lemma TakeoverFlag(s: System, s1: System, c: ClientId, now: int, w: Socket)
    requires w in s.conns && w in s1.conns && s1.exts == s.exts && s1.conns[w].down == s.conns[w].down && s1.conns[w].client == s.conns[w].client
    ensures Flag(TakesOver(s1, c, now), w) == Flag(s, w)
  {
    if IndexOf(s1.peers, c).Some? {
      var peers := SetActive(s1.peers, c, now);
      BroadcastHasNoFlag(peers, PeerList(peers), w);
      SilentPost(s, s1.(peers := peers, now := now), Broadcast(peers), w);
    }
  }

  lemma LossFlag(s: System, s1: System, c: ClientId, now: int, w: Socket)
    requires w in s.conns && w in s1.conns && s1.exts == s.exts && s1.conns[w].down == s.conns[w].down && s1.conns[w].client == s.conns[w].client
    ensures Flag(HandlesLoss(s1, c, now), w) == Flag(s, w)
  {
    DetachHasNoFlag(s1.peers, c, now, w);
    SilentPost(s, s1.(peers := Detach(s1.peers, c, now), now := now), DetachSends(s1.peers, c, now), w);
  }

  lemma BridgeReadFlag(s: System, v: Socket, now: int, w: Socket)
    requires Enabled(s, BridgeRead(v, now)) && ConnSound(s, v) && w in s.conns && s.conns[w].extOpen
    ensures Flag(BridgeReads(s, v, now), w) == Or(Told(s, BridgeRead(v, now), w), Flag(s, w))
  {
    var conn := s.conns[v].(up := s.conns[v].up[1..]);
    var s1 := s.(conns := s.conns[v := conn]);
    hide ConnSound;
    match s.conns[v].up[0]
    case Hello =>
      GreetingFlag(s.peers, v, conn.client, now, w);
      var s2 := s1.(peers := Attach(s.peers, v, conn.client, "", now), now := now);
      hide Attach, AttachSends, Entry;
      if w == v {
        PostedFlag(s2, AttachSends(s.peers, v, conn.client, "", now), w);
      } else {
        SilentPost(s, s2, AttachSends(s.peers, v, conn.client, "", now), w);
      }
    case RequestTakeover => TakeoverFlag(s, s1, conn.client, now, w);
    case Hangup => LossFlag(s, s1.(conns := s1.conns[v := conn.(bridgeOpen := false, up := [])]), conn.client, now, w);
  }

  lemma BridgeLostFlag(s: System, v: Socket, now: int, w: Socket)
    requires Enabled(s, BridgeLost(v, now)) && w in s.conns && s.conns[w].extOpen
    ensures Flag(BridgeLoses(s, v, now), w) == Flag(s, w)
  {
    var conn := s.conns[v];
    var s1 := s.(conns := s.conns[v := conn.(bridgeOpen := false, up := [], down := if conn.extOpen then conn.down + [Closed] else [])]);
    assert Flag(s1, w) == Flag(s, w) by {
      LastFlagOfConcat(conn.down, [Closed]);
      assert [Closed][..0] == [] && LastFlag([Closed]) == None;
    }
    hide LastFlag;
    if Hello !in conn.up { LossFlag(s1, s1, conn.client, now, w); }
  }

  // ---- runs ----

  /** The active bit last put on socket `w`, in a greeting or in a snapshot. */
  ghost function LastTold(states: seq<System>, steps: seq<Step>, n: nat, w: Socket): Option<bool>
    requires n < |states| && n <= |steps| && forall i :: 0 <= i < |steps| && i < |states| ==> Enabled(states[i], steps[i])
  {
    if n == 0 then None
    else if Told(states[n - 1], steps[n - 1], w).Some? then Told(states[n - 1], steps[n - 1], w)
    else LastTold(states, steps, n - 1, w)
  }

  lemma SocketsStay(s: System, step: Step, w: Socket)
    requires Enabled(s, step)
    ensures w in s.conns ==> w in Next(s, step).conns && Next(s, step).conns[w].client == s.conns[w].client
    ensures w in s.conns && !s.conns[w].extOpen ==> !Next(s, step).conns[w].extOpen
    ensures w !in s.conns && w in Next(s, step).conns ==> step.Opened? && step.ws == w
  {
    hide Attach, Detach, SetActive, AttachSends, DetachSends, Broadcast, ToSocket, Read;
  }

  lemma NothingToldUnopened(s: System, step: Step, w: Socket)
    requires Inv(s) && Enabled(s, step) && w !in s.conns
    ensures Told(s, step, w) == None
  {
    NoPeerNoBit(s.peers, w);
    assert !HasSocket(s.peers, w);
    hide Inv, HasSocket, BitOf, Entry;
  }

  lemma {:induction false} NothingToldBeforeOpening(states: seq<System>, steps: seq<Step>, n: nat, w: Socket)
    requires IsRun(states, steps) && n < |states| && w !in states[n].conns
    ensures LastTold(states, steps, n, w) == None
  {
    if n > 0 {
      hide Inv, Enabled, Next, Told, OldSocketClosesFirst;
      RunStep(states, steps, n - 1);
      SocketsStay(states[n - 1], steps[n - 1], w);
      NothingToldBeforeOpening(states, steps, n - 1, w);
      NothingToldUnopened(states[n - 1], steps[n - 1], w);
    }
  }

  /** Over every run, an open extension's flag, once it has read what is on its channel, is the active bit it was last
      greeted with or last sent in a snapshot. */
  lemma {:induction false} FlagIsLastTold(states: seq<System>, steps: seq<Step>, n: nat, w: Socket)
    requires IsRun(states, steps) && n < |states| && w in states[n].conns && states[n].conns[w].extOpen
    ensures LastTold(states, steps, n, w).Some? ==> Flag(states[n], w) == LastTold(states, steps, n, w).value
  {
    if n > 0 {
      var s, step := states[n - 1], steps[n - 1];
      RunStep(states, steps, n - 1);
      SocketsStay(s, step, w);
      hide Inv, Next, OldSocketClosesFirst, Flag;
      if w in s.conns {
        FlagIsLastTold(states, steps, n - 1, w);
        hide Enabled, Told;
        FlagFollowsTheTelling(s, step, w);
      } else {
        NothingToldBeforeOpening(states, steps, n - 1, w);
        assert Told(s, step, w) == None;
      }
    }
  }

  /** Every peer's socket has been told something. */
  lemma {:induction false} PeersAreTold(states: seq<System>, steps: seq<Step>, n: nat, w: Socket)
    requires IsRun(states, steps) && n < |states| && HasSocket(states[n].peers, w)
    ensures LastTold(states, steps, n, w).Some?
  {
    if n > 0 {
      hide Inv, Enabled, Next, OldSocketClosesFirst, HasSocket, Told;
      var s, step := states[n - 1], steps[n - 1];
      RunStep(states, steps, n - 1);
      NewPeersAreGreeted(s, step, w);
      if HasSocket(s.peers, w) { PeersAreTold(states, steps, n - 1, w); }
    }
  }

  lemma TakeoverKeepsSockets(s: System, s1: System, c: ClientId, now: int, w: Socket)
    requires s1.peers == s.peers && HasSocket(TakesOver(s1, c, now).peers, w)
    ensures HasSocket(s.peers, w)
  {
    hide HasSocket;
    if IndexOf(s1.peers, c).Some? { SameSockets(s.peers, SetActive(s.peers, c, now)); }
  }

  lemma LossAddsNoSocket(peers: seq<Peer>, c: ClientId, now: int, w: Socket)
    requires DistinctSockets(peers) && HasSocket(Detach(peers, c, now), w)
    ensures HasSocket(peers, w)
  {
    if IndexOf(peers, c).Some? {
      DetachShape(peers, c, now);
      hide HasSocket, Detach;
    }
  }

  lemma GreetedOnHello(s: System, v: Socket, now: int, w: Socket)
    requires Enabled(s, BridgeRead(v, now)) && s.conns[v].up[0] == Hello && IndexOf(s.peers, s.conns[v].client).None?
    requires HasSocket(BridgeReads(s, v, now).peers, w)
    ensures HasSocket(s.peers, w) || Told(s, BridgeRead(v, now), w).Some?
  {
    assert BridgeReads(s, v, now).peers == Attach(s.peers, v, s.conns[v].client, "", now);
    AttachShape(s.peers, v, s.conns[v].client, now);
    hide HasSocket, Attach, BridgeReads, Entry;
  }

  lemma NewPeersAreGreeted(s: System, step: Step, w: Socket)
    requires Inv(s) && Enabled(s, step) && OldSocketClosesFirst(s, step) && HasSocket(Next(s, step).peers, w)
    ensures HasSocket(s.peers, w) || Told(s, step, w).Some?
  {
    assert DistinctSockets(s.peers) by { SocketsAreDistinct(s); }
    hide Inv, HasSocket, Detach, Attach, DistinctSockets, SetActive;
    match step
    case BridgeRead(v, at) =>
      match s.conns[v].up[0] {
        case Hello => GreetedOnHello(s, v, at, w);
        case RequestTakeover => TakeoverKeepsSockets(s, s.(conns := s.conns[v := s.conns[v].(up := s.conns[v].up[1..])]), s.conns[v].client, at, w);
        case Hangup => LossAddsNoSocket(s.peers, s.conns[v].client, at, w);
      }
    case BridgeLost(v, at) => if Hello !in s.conns[v].up { LossAddsNoSocket(s.peers, s.conns[v].client, at, w); }
    case AppTookOver(c, at) => TakeoverKeepsSockets(s, s, c, at, w);
    case _ =>
  }

  /** So a connected extension whose channels are drained holds the bit it was last told, and its flag agrees with its
      role if and only if that bit is still the client's. */
  lemma FlagAgreementIsExact(states: seq<System>, steps: seq<Step>, n: nat, i: nat)
    requires IsRun(states, steps) && n < |states| && i < |states[n].peers| && DrainedFor(states[n], states[n].peers[i].clientId)
    ensures var s := states[n];
      var told, e := LastTold(states, steps, n, s.peers[i].ws), ExtOf(s, s.peers[i].clientId);
      && told == Some(e.activeFlag)
      && ((e.activeFlag <==> e.role == OnActive) <==> told == Some(s.peers[i].active))
  {
    var s := states[n];
    var c, w := s.peers[i].clientId, s.peers[i].ws;
    RunKeepsInv(states, steps, n);
    assert HasSocket(s.peers, w) && ConnSound(s, w) && s.conns[w].client == c;
    assert s.conns[w].extOpen && s.conns[w].down == [];
    assert IndexOf(s.peers, c) == Some(i) by { assert Election.DistinctClients(s.peers); }
    PeersAreTold(states, steps, n, w);
    FlagIsLastTold(states, steps, n, w);
    DrainedRole(s, c);
  }
}
