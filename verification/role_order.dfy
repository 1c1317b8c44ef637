/** The order assumed of a client's sockets is exact: any step against it can end in disagreement. */
module RoleOrder {
  import opened Options
  import opened ExtensionBridges
  import Election = ExtensionElection
  import opened RoleProtocol
  import opened RoleAgreement
  import opened RoleRuns

  // ---- continuations in which old sockets close first ----

  ghost predicate Legal(s: System, steps: seq<Step>)
    decreases |steps|
  {
    steps != [] ==> Enabled(s, steps[0]) && OldSocketClosesFirst(s, steps[0]) && Legal(Next(s, steps[0]), steps[1..])
  }

  ghost function After(s: System, steps: seq<Step>): System
    requires Legal(s, steps)
    decreases |steps|
  {
    if steps == [] then s else After(Next(s, steps[0]), steps[1..])
  }

  ghost predicate Reaches(s: System, s': System) {
    exists steps :: Legal(s, steps) && After(s, steps) == s'
  }

  lemma OneStep(s: System, step: Step)
    requires Enabled(s, step) && OldSocketClosesFirst(s, step)
    ensures Reaches(s, Next(s, step))
  {
    var t := Next(s, step);
    assert [step][1..] == [] && Legal(t, []) && After(t, []) == t;
    assert Legal(s, [step]) && After(s, [step]) == t;
  }

  lemma {:induction false} LegalConcat(s: System, a: seq<Step>, b: seq<Step>)
    requires Legal(s, a) && Legal(After(s, a), b)
    ensures Legal(s, a + b) && After(s, a + b) == After(After(s, a), b)
    decreases |a|
  {
    if a == [] {
      assert a + b == b;
    } else {
      hide Enabled, Next, OldSocketClosesFirst;
      assert (a + b)[0] == a[0] && (a + b)[1..] == a[1..] + b;
      LegalConcat(Next(s, a[0]), a[1..], b);
    }
  }

  lemma Then(s: System, t: System, u: System)
    requires Reaches(s, t) && Reaches(t, u)
    ensures Reaches(s, u)
  {
    var a :| Legal(s, a) && After(s, a) == t;
    var b :| Legal(t, b) && After(t, b) == u;
    LegalConcat(s, a, b);
  }

  lemma {:induction false} LegalKeepsInv(s: System, steps: seq<Step>)
    requires Inv(s) && Legal(s, steps)
    ensures Inv(After(s, steps))
    decreases |steps|
  {
    if steps != [] {
      hide Inv, Next, Enabled, OldSocketClosesFirst;
      StepKeeps(s, steps[0]);
      LegalKeepsInv(Next(s, steps[0]), steps[1..]);
    }
  }

  /** However it goes on, a client whose channels are drained has the role the bridge would have it in. */
  ghost predicate AlwaysAgrees(s: System) {
    forall t, c :: Reaches(s, t) && DrainedFor(t, c) ==> ExtOf(t, c).role == RoleAtBridge(t, c)
  }

  // ---- the losses of a client's sockets ----

  /** The bridge may have closed sockets, but not `keep`; the extensions have read nothing. */
  ghost predicate OnlyLosses(s: System, t: System, keep: Socket) {
    && t.exts == s.exts && t.now == s.now && t.conns.Keys == s.conns.Keys && keep in s.conns
    && (forall u :: u in s.conns ==> Unread(s.conns[u], t.conns[u]))
    && t.conns[keep].bridgeOpen == s.conns[keep].bridgeOpen && t.conns[keep].up == s.conns[keep].up
    && (Closed in t.conns[keep].down ==> Closed in s.conns[keep].down)
  }

  ghost predicate Unread(conn: Conn, conn': Conn) {
    conn'.client == conn.client && conn'.extOpen == conn.extOpen && (conn'.bridgeOpen ==> conn.bridgeOpen)
  }

  lemma LosesOne(s: System, u: Socket, keep: Socket)
    requires u in s.conns && s.conns[u].bridgeOpen && keep in s.conns && u != keep
    ensures var t := BridgeLoses(s, u, s.now);
      && OnlyLosses(s, t, keep) && !t.conns[u].bridgeOpen && Reaches(s, t)
      && t.peers == if Hello in s.conns[u].up then s.peers else Detach(s.peers, s.conns[u].client, s.now)
  {
    OneStep(s, BridgeLost(u, s.now));
    var conn := s.conns[u];
    var s1 := s.(conns := s.conns[u := conn.(bridgeOpen := false, up := [], down := if conn.extOpen then conn.down + [Closed] else [])]);
    assert OnlyLosses(s, s1, keep);
    hide Reaches, OnlyLosses;
    if Hello !in conn.up {
      LossIsOnlyLoss(s1, conn.client, keep);
      OnlyLossesTrans(s, s1, HandlesLoss(s1, conn.client, s.now), keep);
    } else {
      assert s1.(now := s.now) == s1;
    }
  }

  lemma OnlyLossesTrans(s: System, t: System, u: System, keep: Socket)
    requires OnlyLosses(s, t, keep) && OnlyLosses(t, u, keep)
    ensures OnlyLosses(s, u, keep)
  {
    assert forall v :: v in s.conns ==> Unread(s.conns[v], t.conns[v]) && Unread(t.conns[v], u.conns[v]);
  }

  lemma LossIsOnlyLoss(s: System, c: ClientId, keep: Socket)
    requires keep in s.conns
    ensures OnlyLosses(s, HandlesLoss(s, c, s.now), keep) && HandlesLoss(s, c, s.now).conns.Keys == s.conns.Keys
    ensures forall u :: u in s.conns ==> HandlesLoss(s, c, s.now).conns[u].bridgeOpen == s.conns[u].bridgeOpen
  {
    hide Detach, DetachSends, ToSocket;
    ToSocketOnlyMessages(DetachSends(s.peers, c, s.now), keep);
  }

  ghost function OpenOthers(s: System, c: ClientId, keep: Socket): set<Socket> {
    set u | u in s.conns && s.conns[u].client == c && s.conns[u].bridgeOpen && u != keep
  }

  lemma {:induction false} LosesOthers(s: System, c: ClientId, keep: Socket) returns (t: System)
    requires keep in s.conns && IndexOf(s.peers, c).None?
    ensures Reaches(s, t) && OnlyLosses(s, t, keep) && t.peers == s.peers && OpenOthers(t, c, keep) == {}
    decreases OpenOthers(s, c, keep)
  {
    t := s;
    assert Legal(s, []) && After(s, []) == s;
    if OpenOthers(s, c, keep) != {} {
      var u :| u in OpenOthers(s, c, keep);
      var s1 := BridgeLoses(s, u, s.now);
      hide BridgeLoses, Reaches;
      LosesOne(s, u, keep);
      assert OpenOthers(s1, c, keep) < OpenOthers(s, c, keep) by {
        assert forall v :: v in s.conns ==> Unread(s.conns[v], s1.conns[v]);
        assert u !in OpenOthers(s1, c, keep);
      }
      t := LosesOthers(s1, c, keep);
      Then(s, s1, t);
      assert forall v :: v in s.conns ==> Unread(s.conns[v], s1.conns[v]) && Unread(s1.conns[v], t.conns[v]);
    }
  }

  lemma DetachedIsGone(peers: seq<Peer>, c: ClientId, now: int)
    requires Election.DistinctClients(peers)
    ensures IndexOf(Detach(peers, c, now), c).None?
  {
    if IndexOf(peers, c).Some? {
      var k := IndexOf(peers, c).value;
      Election.WithoutKeepsDistinct(peers, k);
      var left, after := Without(peers, k), Detach(peers, c, now);
      forall i | 0 <= i < |after| ensures after[i].clientId != c { assert after[i].clientId == left[i].clientId; }
    }
  }

  lemma {:induction false} ReadsAll(s: System, w: Socket) returns (t: System)
    requires w in s.conns && s.conns[w].extOpen && Closed !in s.conns[w].down
    ensures Reaches(s, t) && t.peers == s.peers && t.conns == s.conns[w := s.conns[w].(down := [])]
    ensures var c := s.conns[w].client;
      ExtOf(t, c).ws == ExtOf(s, c).ws && (ExtOf(s, c).role != Off ==> ExtOf(t, c).role != Off)
    decreases |s.conns[w].down|
  {
    t := s;
    assert Legal(s, []) && After(s, []) == s;
    if s.conns[w].down != [] {
      assert s.conns[w].down[0] in s.conns[w].down;
      OneStep(s, ExtRead(w));
      t := ReadsAll(ExtReads(s, w), w);
      hide Reaches;
      Then(s, ExtReads(s, w), t);
    } else {
      assert s.conns == s.conns[w := s.conns[w].(down := [])];
    }
  }

  lemma FreshSocket(conns: map<Socket, Conn>) returns (y: Socket)
    ensures y !in conns
  {
    y := Bound(conns.Keys);
  }

  lemma {:induction false} Bound(sockets: set<Socket>) returns (y: Socket)
    ensures forall w :: w in sockets ==> w < y
  {
    y := 0;
    if sockets != {} {
      var w :| w in sockets;
      y := Bound(sockets - {w});
      if y <= w { y := w + 1; }
      assert sockets == sockets - {w} + {w};
    }
  }

  // ---- a socket opened too early ----

  lemma HelloRead(s: System, c: ClientId, w: Socket)
    requires w in s.conns && s.conns[w] == Conn(c, [Hello], s.conns[w].down, true, true) && Closed !in s.conns[w].down
    requires IndexOf(s.peers, c).None?
    ensures var t := BridgeReads(s, w, s.now);
      && Reaches(s, t) && t.exts == s.exts && t.now == s.now && t.conns.Keys == s.conns.Keys && t.peers == Attach(s.peers, w, c, "", s.now)
      && IndexOf(t.peers, c).Some? && t.conns[w] == Conn(c, [], t.conns[w].down, true, true) && Closed !in t.conns[w].down
      && forall u :: u in s.conns ==> Unread(s.conns[u], t.conns[u]) && (!s.conns[u].extOpen && u != w ==> t.conns[u] == s.conns[u])
  {
    var t := BridgeReads(s, w, s.now);
    OneStep(s, BridgeRead(w, s.now));
    AttachShape(s.peers, w, c, s.now);
    assert t.peers[|s.peers|].clientId == c;
    hide Reaches, Attach, AttachSends, HasSocket;
    ToSocketOnlyMessages(AttachSends(s.peers, w, c, "", s.now), w);
  }

  /** An extension that opened `w` while its socket `x` was open, whose other sockets are gone, can be left off while
      the bridge knows it. */
  lemma TwoSocketsLeadApart(s: System, c: ClientId, w: Socket, x: Socket)
    requires w in s.conns && s.conns[w] == Conn(c, [Hello], s.conns[w].down, true, true) && Closed !in s.conns[w].down
    requires x in s.conns && x != w && s.conns[x].client == c && s.conns[x].extOpen && ExtOf(s, c).ws == Some(w)
    requires IndexOf(s.peers, c).None? && OpenOthers(s, c, w) == {}
    requires forall u :: u in s.conns && s.conns[u].client == c && s.conns[u].extOpen ==> u in {w, x}
    ensures !AlwaysAgrees(s)
  {
    hide BridgeReads, Reaches, Attach, AlwaysAgrees;
    HelloRead(s, c, w);
    var s1 := BridgeReads(s, w, s.now);
    var s2 := ReadsAll(s1, w);
    Then(s, s1, s2);
    assert forall u :: u in s.conns ==> Unread(s.conns[u], s1.conns[u]);
    forall u | u in s.conns && s.conns[u].client == c && u != w ensures !s.conns[u].bridgeOpen { assert u !in OpenOthers(s, c, w); }
    HangingUpLeadsApart(s2, c, w, x);
    LedApartLater(s, s2);
  }

  lemma HangingUpLeadsApart(s: System, c: ClientId, w: Socket, x: Socket)
    requires w in s.conns && s.conns[w] == Conn(c, [], [], true, true) && IndexOf(s.peers, c).Some?
    requires x in s.conns && x != w && s.conns[x].client == c && s.conns[x].extOpen
    requires forall u :: u in s.conns && s.conns[u].client == c && u != w ==> !s.conns[u].bridgeOpen && (s.conns[u].extOpen ==> u == x)
    ensures !AlwaysAgrees(s)
  {
    var t := ExtCloses(s, x);
    OneStep(s, ExtClosed(x));
    hide Reaches;
    assert DrainedFor(t, c);
    assert ExtOf(t, c).role == Off != RoleAtBridge(t, c);
  }

  lemma EarlyOpenLeadsApart(s: System, c: ClientId, w: Socket)
    requires Inv(s) && w !in s.conns && ExtOf(s, c).ws.Some?
    ensures !AlwaysAgrees(Open(s, c, w))
  {
    var s1, x := Open(s, c, w), ExtOf(s, c).ws.value;
    assert ExtSound(s, c);
    var s2 := s1;
    assert Legal(s1, []) && After(s1, []) == s1;
    if IndexOf(s.peers, c).Some? {
      var v := s.peers[IndexOf(s.peers, c).value].ws;
      assert ConnSound(s, v) && HasSocket(s.peers, v);
      s2 := BridgeLoses(s1, v, s1.now);
      LosesOne(s1, v, w);
      DetachedIsGone(s.peers, c, s1.now);
    }
    assert forall u :: u in s.conns && s.conns[u].extOpen ==> ConnSound(s, u);
    assert forall u :: u in s1.conns && s1.conns[u].client == c && s1.conns[u].extOpen ==> u in {w, x};
    assert OnlyLosses(s1, s2, w) && IndexOf(s2.peers, c).None? && Reaches(s1, s2);
    hide Inv, ConnSound, BridgeLoses, Reaches, AlwaysAgrees;
    var s3 := LosesOthers(s2, c, w);
    Then(s1, s2, s3);
    assert forall u :: u in s1.conns ==> Unread(s1.conns[u], s2.conns[u]) && Unread(s2.conns[u], s3.conns[u]);
    TwoSocketsLeadApart(s3, c, w, x);
    LedApartLater(s1, s3);
  }

  lemma LedApartLater(s: System, t: System)
    requires Reaches(s, t) && !AlwaysAgrees(t)
    ensures !AlwaysAgrees(s)
  {
    var u, c :| Reaches(t, u) && DrainedFor(u, c) && ExtOf(u, c).role != RoleAtBridge(u, c);
    hide Reaches;
    Then(s, t, u);
  }

  // ---- a hello read too early ----

  lemma AttachedAreDistinct(s: System, y: Socket, c: ClientId)
    requires Election.Sound(s.peers, s.now) && 0 <= s.now
    ensures Election.DistinctClients(Attach(s.peers, y, c, "", s.now))
  {
    Election.AttachKeeps(s.peers, Election.Attached(y, c, "", s.now), s.now);
  }

  lemma Opens(s: System, c: ClientId, y: Socket) returns (t: System)
    requires y !in s.conns && ExtOf(s, c).ws.None?
    ensures Reaches(s, t) && t.peers == s.peers && t.now == s.now && t.conns.Keys == s.conns.Keys + {y} && ExtOf(t, c).role == OnActive
    ensures t.conns[y] == Conn(c, [Hello], [], true, true) && forall u :: u in s.conns ==> t.conns[u] == s.conns[u]
  {
    t := Open(s, c, y);
    OneStep(s, Opened(c, y));
  }

  /** A client the bridge does not know connects on a new socket, and its hello is read. */
  lemma Reconnects(s: System, c: ClientId, y: Socket) returns (t: System)
    requires y !in s.conns && IndexOf(s.peers, c).None? && ExtOf(s, c).ws.None? && Election.Sound(s.peers, s.now) && 0 <= s.now
    requires forall u :: u in s.conns && s.conns[u].client == c ==> !s.conns[u].extOpen
    ensures Reaches(s, t) && Election.DistinctClients(t.peers) && t.conns.Keys == s.conns.Keys + {y}
    ensures t.conns[y] == Conn(c, [], t.conns[y].down, true, true) && Closed !in t.conns[y].down && ExtOf(t, c).role == OnActive
    ensures forall u :: u in s.conns && s.conns[u].client == c ==> t.conns[u] == s.conns[u]
    ensures forall u :: u in s.conns ==> t.conns[u].client == s.conns[u].client
  {
    var s1 := Opens(s, c, y);
    hide Reaches, BridgeReads, Attach, Election.Sound, Election.DistinctClients;
    AttachedAreDistinct(s, y, c);
    HelloRead(s1, c, y);
    t := BridgeReads(s1, y, s1.now);
    Then(s, s1, t);
    assert forall u :: u in s.conns ==> Unread(s1.conns[u], t.conns[u]);
  }

  /** A client the bridge does not know, but whose socket `v` it has yet to lose, can connect again, and then be
      forgotten. */
  lemma OldSocketLeadsApart(s: System, c: ClientId, v: Socket)
    requires v in s.conns && s.conns[v].client == c && s.conns[v].bridgeOpen && Hello !in s.conns[v].up
    requires IndexOf(s.peers, c).None? && OpenOthers(s, c, v) == {} && ExtOf(s, c).ws.None? && Election.Sound(s.peers, s.now) && 0 <= s.now
    requires forall u :: u in s.conns && s.conns[u].client == c ==> !s.conns[u].extOpen
    ensures !AlwaysAgrees(s)
  {
    var y := FreshSocket(s.conns);
    var s2 := Reconnects(s, c, y);
    hide Reaches;
    var s3 := BridgeLoses(s2, v, s2.now);
    LosesOne(s2, v, y);
    DetachedIsGone(s2.peers, c, s2.now);
    Then(s, s2, s3);
    hide BridgeLoses, Detach;
    var t := ReadsAll(s3, y);
    Then(s, s3, t);
    assert ExtOf(t, c).role != Off == RoleAtBridge(t, c);
    assert DrainedFor(t, c) by {
      forall u | u in t.conns && t.conns[u].client == c
        ensures (t.conns[u].bridgeOpen ==> t.conns[u].up == []) && (t.conns[u].extOpen ==> t.conns[u].down == [])
      {
        assert Unread(s2.conns[u], s3.conns[u]);
        if u != y { assert u !in OpenOthers(s, c, v); }
      }
    }
  }

  /** At most one socket of `c` is open at the extension's end, the one it holds. */
  ghost predicate OneEnd(s: System, c: ClientId) {
    && (forall u :: u in s.conns && s.conns[u].client == c && s.conns[u].extOpen ==> ExtOf(s, c).ws == Some(u))
    && (ExtOf(s, c).ws.Some? ==> var u := ExtOf(s, c).ws.value; u in s.conns && s.conns[u].extOpen && s.conns[u].client == c)
  }

  /** Two sockets of `c` are open at the bridge. */
  ghost predicate Rivals(s: System, c: ClientId, v: Socket, w: Socket) {
    && v in s.conns && w in s.conns && v != w && s.conns[v].client == c == s.conns[w].client
    && s.conns[v].bridgeOpen && s.conns[w].bridgeOpen && Hello !in s.conns[v].up
  }

  lemma RivalsBefore(s: System, w: Socket) returns (v: Socket)
    requires Inv(s) && w in s.conns && s.conns[w].bridgeOpen && s.conns[w].up != [] && s.conns[w].up[0] == Hello
    requires IndexOf(s.peers, s.conns[w].client).Some?
    ensures Rivals(s, s.conns[w].client, v, w) && Hello !in s.conns[w].up[1..] && OneEnd(s, s.conns[w].client)
  {
    var c := s.conns[w].client;
    v := s.peers[IndexOf(s.peers, c).value].ws;
    assert ConnSound(s, w) && ConnSound(s, v) && HasSocket(s.peers, v) && ExtSound(s, c);
    forall u | u in s.conns && s.conns[u].client == c && s.conns[u].extOpen ensures ExtOf(s, c).ws == Some(u) {
      assert ConnSound(s, u);
    }
  }

  lemma RivalsAfter(s: System, v: Socket, w: Socket, now: int)
    requires w in s.conns && s.conns[w].bridgeOpen && s.conns[w].up != [] && s.conns[w].up[0] == Hello
    requires Rivals(s, s.conns[w].client, v, w) && Hello !in s.conns[w].up[1..] && OneEnd(s, s.conns[w].client)
    ensures var c, t := s.conns[w].client, BridgeReads(s, w, now);
      && Rivals(t, c, v, w) && Hello !in t.conns[w].up && OneEnd(t, c)
      && t.peers == Attach(s.peers, w, c, "", now) && t.now == now
  {
    var t := BridgeReads(s, w, now);
    hide Attach, AttachSends, ToSocket;
    assert t.exts == s.exts && t.conns.Keys == s.conns.Keys;
    assert forall u :: u in s.conns ==> t.conns[u].client == s.conns[u].client && t.conns[u].extOpen == s.conns[u].extOpen;
  }

  lemma EarlyHelloLeadsApart(s: System, w: Socket, now: int)
    requires Inv(s) && s.now <= now && w in s.conns && s.conns[w].bridgeOpen && s.conns[w].up != [] && s.conns[w].up[0] == Hello
    requires IndexOf(s.peers, s.conns[w].client).Some?
    ensures !AlwaysAgrees(BridgeReads(s, w, now))
  {
    var c := s.conns[w].client;
    var v := RivalsBefore(s, w);
    Election.AttachKeeps(s.peers, Election.Attached(w, c, "", now), s.now);
    assert 0 <= now && Election.Sound(Attach(s.peers, w, c, "", now), now);
    hide *;
    RivalsAfter(s, v, w, now);
    RivalSocketsLeadApart(BridgeReads(s, w, now), c, v, w);
  }

  /** The bridge knows a client by its socket `w` and has yet to lose the older `v`. */
  lemma RivalSocketsLeadApart(s: System, c: ClientId, v: Socket, w: Socket)
    requires Rivals(s, c, v, w) && Hello !in s.conns[w].up && OneEnd(s, c) && Election.Sound(s.peers, s.now) && 0 <= s.now
    ensures !AlwaysAgrees(s)
  {
    var s1 := s;
    assert Legal(s, []) && After(s, []) == s;
    if ExtOf(s, c).ws.Some? {
      OneStep(s, ExtClosed(ExtOf(s, c).ws.value));
      s1 := ExtCloses(s, ExtOf(s, c).ws.value);
    }
    assert forall u :: u in s1.conns && s1.conns[u].client == c ==> !s1.conns[u].extOpen;
    assert ExtOf(s1, c).ws.None? && s1.peers == s.peers && s1.now == s.now && Hello !in s1.conns[v].up && Hello !in s1.conns[w].up;
    hide Reaches, AlwaysAgrees, ExtCloses;
    ForgottenLeadsApart(s1, c, v, w);
    LedApartLater(s, s1);
  }

  lemma ForgottenLeadsApart(s: System, c: ClientId, v: Socket, w: Socket)
    requires v in s.conns && w in s.conns && v != w && s.conns[v].client == c == s.conns[w].client && s.conns[v].bridgeOpen && s.conns[w].bridgeOpen
    requires Hello !in s.conns[v].up && Hello !in s.conns[w].up && Election.Sound(s.peers, s.now) && 0 <= s.now && ExtOf(s, c).ws.None?
    requires forall u :: u in s.conns && s.conns[u].client == c ==> !s.conns[u].extOpen
    ensures !AlwaysAgrees(s)
  {
    var s1 := BridgeLoses(s, w, s.now);
    LosesOne(s, w, v);
    DetachedIsGone(s.peers, c, s.now);
    Election.DetachKeeps(s.peers, Election.Detached(c, s.now), s.now);
    assert s1.now == s.now;
    hide BridgeLoses, Detach, Reaches, AlwaysAgrees;
    var s2 := LosesOthers(s1, c, v);
    Then(s, s1, s2);
    assert forall u :: u in s.conns ==> Unread(s.conns[u], s1.conns[u]) && Unread(s1.conns[u], s2.conns[u]);
    OldSocketLeadsApart(s2, c, v);
    LedApartLater(s, s2);
  }

  /** From any state the invariant allows, a step respects the order of a client's sockets if and only if, however things go on
      from there in that order, the roles agree whenever a client's channels are drained. */
  lemma AgreementIsExact(s: System, step: Step)
    requires Inv(s) && Enabled(s, step)
    ensures OldSocketClosesFirst(s, step) <==> AlwaysAgrees(Next(s, step))
  {
    hide Inv, AlwaysAgrees;
    if OldSocketClosesFirst(s, step) {
      StepKeeps(s, step);
      InvAlwaysAgrees(Next(s, step));
    } else if step.Opened? {
      EarlyOpenLeadsApart(s, step.client, step.ws);
    } else {
      EarlyHelloLeadsApart(s, step.ws, step.at);
    }
  }

  lemma InvAlwaysAgrees(s: System)
    requires Inv(s)
    ensures AlwaysAgrees(s)
  {
    forall t, c | Reaches(s, t) && DrainedFor(t, c) ensures ExtOf(t, c).role == RoleAtBridge(t, c) {
      var steps :| Legal(s, steps) && After(s, steps) == t;
      hide Inv, DrainedFor;
      LegalKeepsInv(s, steps);
      DrainedRole(t, c);
    }
  }
}
