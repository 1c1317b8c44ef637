/** Runs of the role protocol that end in disagreement. */
module RoleLimits {
  import opened Options
  import opened ExtensionBridges
  import opened RoleProtocol
  import opened RoleAgreement
  import opened RoleRuns

  const A: ClientId := 0
  const B: ClientId := 1

  /** Profile `A` is connected on socket 0, has read everything, and is active. */
  function Connected(): System {
    System([Peer(0, A, "", true, 0)], map[0 := Conn(A, [], [], true, true)],
           map[A := Ext(Some(0), OnActive, true, [Listed(A, "", true)])], 0)
  }

  /** `A` has lost socket 0 and opened socket 1; the bridge has read the new hello but not yet the old hangup. */
  function Reconnected(): System {
    System([Peer(1, A, "", true, 0)], map[0 := Conn(A, [Hangup], [], true, false),
                                         1 := Conn(A, [], [Message(Promoted), Message(Peers([Listed(A, "", true)])),
                                                           Message(Welcome(true)), Message(Snapshot(true))], true, true)],
           map[A := Ext(Some(1), OnActive, true, [Listed(A, "", true)])], 0)
  }

  lemma ReconnectedIsReached()
    ensures BridgeReads(Open(ExtCloses(Connected(), 0), A, 1), 1, 0) == Reconnected()
  {
    var s := Open(ExtCloses(Connected(), 0), A, 1);
    var peers := [Peer(0, A, "", true, 0)];
    assert [] + [Hangup] == [Hangup];
    assert s.conns == map[0 := Conn(A, [Hangup], [], true, false), 1 := Conn(A, [Hello], [], true, true)];
    var peers' := [Peer(1, A, "", true, 0)];
    assert Attach(peers, 1, A, "", 0) == peers';
    BroadcastToOne(peers'[0], [Listed(A, "", true)]);
    assert PeerList(peers') == [Listed(A, "", true)];
    var sends := AttachSends(peers, 1, A, "", 0);
    assert sends == [Send(1, Promoted), Send(1, Peers([Listed(A, "", true)])), Send(1, Welcome(true)), Send(1, Snapshot(true))];
    FourSends(1, Promoted, Peers([Listed(A, "", true)]), Welcome(true), Snapshot(true));
    var s' := BridgeReads(s, 1, 0);
    assert [Hello][1..] == [];
    assert s'.conns[1].down == [] + ToSocket(sends, 1) && s'.conns[1] == Reconnected().conns[1];
    assert s'.conns[0] == Reconnected().conns[0] && s'.conns.Keys == {0, 1};
    assert s'.conns == Reconnected().conns;
  }

  lemma BroadcastToOne(p: Peer, list: seq<Listed>)
    ensures BroadcastTo([p], list) == Lifecycle(p, list)
  {
    assert [p][..0] == [];
  }

  lemma FourSends(w: Socket, a: Down, b: Down, c: Down, d: Down)
    ensures ToSocket([Send(w, a), Send(w, b), Send(w, c), Send(w, d)], w) == [Message(a), Message(b), Message(c), Message(d)]
  {
    assert [Send(w, a), Send(w, b), Send(w, c), Send(w, d)] == [Send(w, a), Send(w, b)] + [Send(w, c), Send(w, d)];
    hide ToSocket;
    ToSocketConcat([Send(w, a), Send(w, b)], [Send(w, c), Send(w, d)], w);
    TwoSends(w, a, b, w);
    TwoSends(w, c, d, w);
  }

  /** The bridge has read the old hangup as well. */
  function Evicted(): System {
    Reconnected().(peers := [], conns := Reconnected().conns[0 := Conn(A, [], [], false, false)])
  }

  lemma EvictedIsReached()
    ensures BridgeReads(Reconnected(), 0, 0) == Evicted()
  {
    var s0 := BridgeReads(Reconnected(), 0, 0);
    assert Without([Peer(1, A, "", true, 0)], 0) == [];
    assert Detach([Peer(1, A, "", true, 0)], A, 0) == [] && DetachSends([Peer(1, A, "", true, 0)], A, 0) == [];
    assert s0.conns[1].down == Reconnected().conns[1].down + ToSocket([], 1) && s0.conns[0] == Conn(A, [], [], false, false);
    assert s0.conns[1] == Reconnected().conns[1] && s0.conns.Keys == {0, 1};
    assert s0.conns == Evicted().conns;
  }

  /** The evicted `A` with `down` still to read. */
  function Reading(down: seq<Wire>, e: Ext): System {
    System([], map[0 := Conn(A, [], [], false, false), 1 := Conn(A, [], down, true, true)], map[A := e], 0)
  }

  lemma ReadsOne(down: seq<Wire>, e: Ext)
    requires down != [] && down[0].Message?
    ensures ExtReads(Reading(down, e), 1) == Reading(down[1..], Read(e, down[0].msg))
  {
    var s, t := ExtReads(Reading(down, e), 1), Reading(down[1..], Read(e, down[0].msg));
    assert s.conns == t.conns && s.exts == t.exts;
  }

  lemma EvictedReadsOn()
    ensures ExtReads(ExtReads(ExtReads(ExtReads(Evicted(), 1), 1), 1), 1) == Reading([], Ext(Some(1), OnActive, true, [Listed(A, "", true)]))
  {
    var e, down := Evicted().exts[A], Evicted().conns[1].down;
    assert Evicted() == Reading(down, e) by { assert Evicted().conns == Reading(down, e).conns; }
    hide Reading, ExtReads;
    ReadsOne(down, e);
    ReadsOne(down[1..], e);
    ReadsOne(down[1..][1..], e);
    ReadsOne(down[1..][1..][1..], e);
    assert down[1..][1..][1..][1..] == [];
  }

  /** The close of a replaced socket evicts the entry of the socket that replaced it: the bridge knows no peer, while
      the extension, on its open socket, stays active, and the channels hold nothing that would tell it otherwise. */
  lemma LateHangupEvictsTheNewSocket()
    ensures BridgeReads(Open(ExtCloses(Connected(), 0), A, 1), 1, 0) == Reconnected() && BridgeReads(Reconnected(), 0, 0) == Evicted()
    ensures var s := ExtReads(ExtReads(ExtReads(ExtReads(Evicted(), 1), 1), 1), 1);
      s.peers == [] && Drained(s) && ExtOf(s, A).role == OnActive && ExtOf(s, A).ws == Some(1)
  {
    ReconnectedIsReached();
    EvictedIsReached();
    hide BridgeReads, Open, ExtCloses;
    EvictedReadsOn();
  }

  /** `A` is active, `B` on standby, and everything is read. */
  function Pair(): System {
    System([Peer(0, A, "", true, 0), Peer(1, B, "", false, 0)],
           map[0 := Conn(A, [], [], true, true), 1 := Conn(B, [], [], true, true)],
           map[A := Ext(Some(0), OnActive, true, [Listed(A, "", true), Listed(B, "", false)]),
               B := Ext(Some(1), OnStandby, false, [Listed(A, "", true), Listed(B, "", false)])], 0)
  }

  const SWAPPED: seq<Listed> := [Listed(A, "", false), Listed(B, "", true)]

  /** `B` has taken over; nobody has read it yet. */
  function Taken(): System {
    Pair().(peers := [Peer(0, A, "", false, 0), Peer(1, B, "", true, 1)], now := 1,
            conns := map[0 := Conn(A, [], [Message(Standby), Message(Peers(SWAPPED))], true, true),
                         1 := Conn(B, [], [Message(Promoted), Message(Peers(SWAPPED))], true, true)])
  }

  lemma TakenIsReached()
    ensures TakesOver(Pair(), B, 1) == Taken()
  {
    var peers := [Peer(0, A, "", false, 0), Peer(1, B, "", true, 1)];
    assert SetActive(Pair().peers, B, 1) == peers;
    assert PeerList(peers) == SWAPPED;
    assert peers[..1] == [peers[0]];
    BroadcastToOne(peers[0], SWAPPED);
    assert Broadcast(peers) == [Send(0, Standby), Send(0, Peers(SWAPPED)), Send(1, Promoted), Send(1, Peers(SWAPPED))];
    TwoAndTwo(Standby, Peers(SWAPPED), Promoted, Peers(SWAPPED));
    var s := TakesOver(Pair(), B, 1);
    assert s.conns[0].down == [] + ToSocket(Broadcast(peers), 0) && s.conns[1].down == [] + ToSocket(Broadcast(peers), 1);
    assert s.conns[0] == Taken().conns[0] && s.conns[1] == Taken().conns[1] && s.conns.Keys == {0, 1};
    assert s.conns == Taken().conns;
  }

  /** The second flag an extension keeps is not part of the agreement: after a takeover and with every channel drained,
      it still says the opposite of the role on both sides, until the next snapshot. */
  lemma SnapshotFlagGoesStale()
    ensures TakesOver(Pair(), B, 1) == Taken()
    ensures var s := ExtReads(ExtReads(ExtReads(ExtReads(Taken(), 0), 0), 1), 1);
      && Drained(s) && ExtOf(s, A).role == OnStandby && ExtOf(s, A).activeFlag
      && ExtOf(s, B).role == OnActive && !ExtOf(s, B).activeFlag
  {
    TakenIsReached();
  }

  lemma TwoAndTwo(a: Down, b: Down, c: Down, d: Down)
    ensures var sends := [Send(0, a), Send(0, b), Send(1, c), Send(1, d)];
      ToSocket(sends, 0) == [Message(a), Message(b)] && ToSocket(sends, 1) == [Message(c), Message(d)]
  {
    PairThenPair(a, b, c, d, 0);
    PairThenPair(a, b, c, d, 1);
  }

  lemma PairThenPair(a: Down, b: Down, c: Down, d: Down, w: Socket)
    ensures ToSocket([Send(0, a), Send(0, b), Send(1, c), Send(1, d)], w) ==
            (if w == 0 then [Message(a), Message(b)] else []) + (if w == 1 then [Message(c), Message(d)] else [])
  {
    assert [Send(0, a), Send(0, b), Send(1, c), Send(1, d)] == [Send(0, a), Send(0, b)] + [Send(1, c), Send(1, d)];
    hide ToSocket;
    ToSocketConcat([Send(0, a), Send(0, b)], [Send(1, c), Send(1, d)], w);
    TwoSends(0, a, b, w);
    TwoSends(1, c, d, w);
  }

  lemma TwoSends(v: Socket, a: Down, b: Down, w: Socket)
    ensures ToSocket([Send(v, a), Send(v, b)], w) == if w == v then [Message(a), Message(b)] else []
  {
    assert [Send(v, a), Send(v, b)] == [Send(v, a)] + [Send(v, b)];
    hide ToSocket;
    ToSocketConcat([Send(v, a)], [Send(v, b)], w);
    OneSend(Send(v, a), w);
    OneSend(Send(v, b), w);
  }
}
