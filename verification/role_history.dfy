/**
 What the role protocol makes of the steps taken: the bridge's peers follow the hellos, losses and takeovers that reach it,
 requests reach it, and extensions hold the role last told them.
 */
module RoleHistory {
  import opened Options
  import opened ExtensionBridges
  import Election = ExtensionElection
  import opened RoleProtocol
  import opened RoleAgreement
  import opened RoleRuns

  // ---- the bridge follows the events that reach it ----

  /** The attach, detach or takeover that the step amounts to at the bridge. */
  function EventOf(s: System, step: Step): Option<Election.Event> {
    match step
    case BridgeRead(w, at) =>
      if w in s.conns && s.conns[w].up != [] then
        match s.conns[w].up[0]
        case Hello => Some(Election.Attached(w, s.conns[w].client, "", at))
        case RequestTakeover => Some(Election.TakenOver(s.conns[w].client, at))
        case Hangup => Some(Election.Detached(s.conns[w].client, at))
      else None
    case BridgeLost(w, at) => if w in s.conns && Hello !in s.conns[w].up then Some(Election.Detached(s.conns[w].client, at)) else None
    case AppTookOver(c, at) => Some(Election.TakenOver(c, at))
    case _ => None
  }

  function EventsOf(states: seq<System>, steps: seq<Step>, n: nat): seq<Election.Event>
    requires n <= |states| && n <= |steps|
  {
    if n == 0 then []
    else
      var e := EventOf(states[n - 1], steps[n - 1]);
      EventsOf(states, steps, n - 1) + if e.Some? then [e.value] else []
  }

  lemma StepFollows(s: System, step: Step)
    requires Enabled(s, step)
    ensures Next(s, step).peers == if EventOf(s, step).Some? then Election.Next(s.peers, EventOf(s, step).value) else s.peers
  {
    hide Attach, Detach, SetActive, Post, Broadcast, AttachSends, DetachSends;
  }

  /** The peers the bridge keeps are those of the hellos it has read, less the losses it has met, with the takeovers it was
      asked for, in that order; and no other step changes them. */
  lemma {:induction false} PeersFollowTheEvents(states: seq<System>, steps: seq<Step>, n: nat)
    requires IsRun(states, steps) && n < |states|
    ensures states[n].peers == Election.PeersAfter(EventsOf(states, steps, n))
  {
    if n > 0 {
      PeersFollowTheEvents(states, steps, n - 1);
      assert Enabled(states[n - 1], steps[n - 1]) && states[n] == Next(states[n - 1], steps[n - 1]);
      hide IsRun, Next, Enabled, EventOf;
      StepFollows(states[n - 1], steps[n - 1]);
      var before, e := EventsOf(states, steps, n - 1), EventOf(states[n - 1], steps[n - 1]);
      if e.Some? { assert (before + [e.value])[..|before|] == before; } else { assert before + [] == before; }
    }
  }

  // ---- requests reach the bridge ----

  predicate ReadsUp(step: Step, w: Socket) {
    step.BridgeRead? && step.ws == w
  }

  /** How often the bridge reads from the socket between two points of a run. */
  function Reads(steps: seq<Step>, m: nat, n: nat, w: Socket): nat
    requires m <= n <= |steps|
  {
    if n == m then 0 else Reads(steps, m, n - 1, w) + if ReadsUp(steps[n - 1], w) then 1 else 0
  }

  lemma RunLength(states: seq<System>, steps: seq<Step>)
    requires IsRun(states, steps)
    ensures |states| == |steps| + 1
  {
  }

  lemma StepAt(states: seq<System>, steps: seq<Step>, n: nat)
    requires IsRun(states, steps) && n < |steps|
    ensures n + 1 < |states| && Enabled(states[n], steps[n]) && states[n + 1] == Next(states[n], steps[n])
  {
    hide Next, Enabled;
  }

  /** What waits to be read is read from the front; more may come behind. */
  lemma UpMoves(s: System, step: Step, w: Socket)
    requires Enabled(s, step) && w in s.conns && s.conns[w].bridgeOpen
    ensures var s' := Next(s, step); w in s'.conns && s'.conns[w].client == s.conns[w].client
    ensures var s' := Next(s, step); s'.conns[w].bridgeOpen ==>
      (if ReadsUp(step, w) then s.conns[w].up[1..] else s.conns[w].up) <= s'.conns[w].up
  {
    hide Attach, Detach, SetActive, Broadcast, AttachSends, DetachSends, SnapshotSends, ToSocket;
  }

  lemma LostStaysLost(s: System, step: Step, w: Socket)
    requires Enabled(s, step) && w in s.conns && !s.conns[w].bridgeOpen
    ensures w in Next(s, step).conns && !Next(s, step).conns[w].bridgeOpen
  {
    hide Attach, Detach, SetActive, Broadcast, AttachSends, DetachSends, SnapshotSends, ToSocket;
  }

  /** A standby extension's request is put behind what it has sent before. */
  lemma AskingSends(s: System, w: Socket)
    requires Enabled(s, AskedTakeover(w)) && ExtOf(s, s.conns[w].client).role == OnStandby && s.conns[w].bridgeOpen
    ensures var conns := Next(s, AskedTakeover(w)).conns; w in conns && conns[w].up == s.conns[w].up + [RequestTakeover] && conns[w].bridgeOpen
  {
  }

  lemma {:induction false} RequestMovesUp(states: seq<System>, steps: seq<Step>, m: nat, n: nat, w: Socket, waiting: nat)
    requires IsRun(states, steps) && m <= n < |states| && w in states[m].conns && states[m].conns[w].bridgeOpen
    requires waiting < |states[m].conns[w].up| && states[m].conns[w].up[waiting] == RequestTakeover
    requires Reads(steps, m, n, w) <= waiting && w in states[n].conns && states[n].conns[w].bridgeOpen
    ensures var up := states[n].conns[w].up; waiting - Reads(steps, m, n, w) < |up| && up[waiting - Reads(steps, m, n, w)] == RequestTakeover
    ensures states[n].conns[w].client == states[m].conns[w].client
    decreases n - m
  {
    hide IsRun, Next, Enabled, ReadsUp;
    RunLength(states, steps);
    if m < n {
      var s, step := states[n - 1], steps[n - 1];
      StepAt(states, steps, n - 1);
      StaysKnown(states, steps, m, n - 1, w);
      if !s.conns[w].bridgeOpen { LostStaysLost(s, step, w); }
      RequestMovesUp(states, steps, m, n - 1, w, waiting);
      UpMoves(s, step, w);
    }
  }

  lemma {:induction false} StaysKnown(states: seq<System>, steps: seq<Step>, m: nat, n: nat, w: Socket)
    requires IsRun(states, steps) && m <= n < |states| && w in states[m].conns
    ensures w in states[n].conns
    decreases n - m
  {
    hide IsRun, Next, Enabled;
    RunLength(states, steps);
    if m < n {
      var s, step := states[n - 1], steps[n - 1];
      StepAt(states, steps, n - 1);
      StaysKnown(states, steps, m, n - 1, w);
      if s.conns[w].bridgeOpen { UpMoves(s, step, w); } else { LostStaysLost(s, step, w); }
    }
  }

  /** A request that the bridge reads makes its client the active one. */
  lemma ReadRequestWins(s: System, w: Socket, at: int)
    requires Inv(s) && Enabled(s, BridgeRead(w, at)) && s.conns[w].up[0] == RequestTakeover
    ensures var peers := Next(s, BridgeRead(w, at)).peers;
      forall i :: 0 <= i < |peers| ==> (peers[i].active <==> peers[i].clientId == s.conns[w].client)
    ensures exists i :: 0 <= i < |Next(s, BridgeRead(w, at)).peers| && Next(s, BridgeRead(w, at)).peers[i].clientId == s.conns[w].client
  {
    assert ConnSound(s, w) && HasSocket(s.peers, w);
    var i :| 0 <= i < |s.peers| && s.peers[i].ws == w;
    assert s.peers[i].clientId == s.conns[w].client;
    hide Inv, Post, Broadcast;
    var peers := Next(s, BridgeRead(w, at)).peers;
    assert peers == SetActive(s.peers, s.conns[w].client, at);
    assert peers[i].clientId == s.conns[w].client;
  }

  lemma RunAt(states: seq<System>, steps: seq<Step>, n: nat)
    requires IsRun(states, steps) && n < |steps|
    ensures Inv(states[n]) && Enabled(states[n], steps[n]) && states[n + 1] == Next(states[n], steps[n])
  {
    RunKeepsInv(states, steps, n);
    hide Inv, Next, Enabled;
  }

  /** "Make active" asked for in a standby extension: unless its socket is lost first, the bridge reads the request after
      what was sent before it, whatever else happens meanwhile, and from then on that extension's client is the active one. */
  lemma RequestsAreServed(states: seq<System>, steps: seq<Step>, m: nat, n: nat, w: Socket)
    requires IsRun(states, steps) && m < n < |steps| && steps[m] == AskedTakeover(w) && w in states[m].conns
    requires ExtOf(states[m], states[m].conns[w].client).role == OnStandby && states[m].conns[w].bridgeOpen
    requires ReadsUp(steps[n], w) && Reads(steps, m + 1, n, w) == |states[m].conns[w].up|
    ensures var peers, c := states[n + 1].peers, states[m].conns[w].client;
      && (forall i :: 0 <= i < |peers| ==> (peers[i].active <==> peers[i].clientId == c))
      && exists i :: 0 <= i < |peers| && peers[i].clientId == c
  {
    hide IsRun, Inv, Next, Enabled, Reads;
    RunLength(states, steps);
    RunAt(states, steps, m);
    RunAt(states, steps, n);
    RequestIsSent(states[m], steps[m], w);
    ReadReaches(states[n], steps[n], w);
    RequestMovesUp(states, steps, m + 1, n, w, |states[m].conns[w].up|);
    ReadRequestWins(states[n], w, steps[n].at);
  }

  lemma RequestIsSent(s: System, step: Step, w: Socket)
    requires Enabled(s, step) && step == AskedTakeover(w) && ExtOf(s, s.conns[w].client).role == OnStandby && s.conns[w].bridgeOpen
    ensures var conns := Next(s, step).conns;
      w in conns && conns[w].client == s.conns[w].client && conns[w].up == s.conns[w].up + [RequestTakeover] && conns[w].bridgeOpen
  {
    AskingSends(s, w);
  }

  lemma ReadReaches(s: System, step: Step, w: Socket)
    requires Enabled(s, step) && ReadsUp(step, w)
    ensures step == BridgeRead(w, step.at) && w in s.conns && s.conns[w].bridgeOpen && s.conns[w].up != []
  {
  }

  // ---- messages reach the extension ----

  predicate ReadsDown(step: Step, w: Socket) {
    step == ExtRead(w)
  }

  /** How often the extension reads from the socket between two points of a run. */
  function Heard(steps: seq<Step>, m: nat, n: nat, w: Socket): nat
    requires m <= n <= |steps|
  {
    if n == m then 0 else Heard(steps, m, n - 1, w) + if ReadsDown(steps[n - 1], w) then 1 else 0
  }

  lemma DownMoves(s: System, step: Step, w: Socket)
    requires Enabled(s, step) && w in s.conns && s.conns[w].extOpen
    ensures var s' := Next(s, step); w in s'.conns && s'.conns[w].client == s.conns[w].client
    ensures var s' := Next(s, step); s'.conns[w].extOpen ==>
      (if ReadsDown(step, w) then s.conns[w].down[1..] else s.conns[w].down) <= s'.conns[w].down
  {
    hide Attach, Detach, SetActive, Broadcast, AttachSends, DetachSends, SnapshotSends, ToSocket;
  }

  lemma ClosedStaysClosed(s: System, step: Step, w: Socket)
    requires Enabled(s, step) && w in s.conns && !s.conns[w].extOpen
    ensures w in Next(s, step).conns && !Next(s, step).conns[w].extOpen
  {
    hide Attach, Detach, SetActive, Broadcast, AttachSends, DetachSends, SnapshotSends, ToSocket;
  }

  /** `wire` waits to be read by the extension behind `k` others. */
  predicate Waits(s: System, w: Socket, k: int, wire: Wire) {
    w in s.conns && s.conns[w].extOpen && 0 <= k < |s.conns[w].down| && s.conns[w].down[k] == wire
  }

  predicate HearsFrom(s: System, w: Socket) {
    w in s.conns && s.conns[w].extOpen
  }

  lemma WaitsIsKnown(s: System, w: Socket, k: int, wire: Wire)
    requires Waits(s, w, k, wire)
    ensures w in s.conns
  {
  }

  lemma MovesOnce(s: System, step: Step, w: Socket, k: int, wire: Wire)
    requires Enabled(s, step) && Waits(s, w, k, wire) && HearsFrom(Next(s, step), w) && (ReadsDown(step, w) ==> k > 0)
    ensures Waits(Next(s, step), w, if ReadsDown(step, w) then k - 1 else k, wire) && Next(s, step).conns[w].client == s.conns[w].client
  {
    hide Next, Enabled, ReadsDown;
    DownMoves(s, step, w);
  }

  lemma HeardFromBefore(s: System, step: Step, w: Socket)
    requires Enabled(s, step) && w in s.conns && HearsFrom(Next(s, step), w)
    ensures HearsFrom(s, w)
  {
    hide Next, Enabled;
    if !s.conns[w].extOpen { ClosedStaysClosed(s, step, w); }
  }

  lemma {:induction false} MessageMovesUp(states: seq<System>, steps: seq<Step>, m: nat, n: nat, w: Socket, k: nat, wire: Wire)
    requires IsRun(states, steps) && m <= n < |states| && Waits(states[m], w, k, wire)
    requires Heard(steps, m, n, w) <= k && HearsFrom(states[n], w)
    ensures Waits(states[n], w, k - Heard(steps, m, n, w), wire) && states[n].conns[w].client == states[m].conns[w].client
    decreases n - m
  {
    hide IsRun, Next, Enabled, ReadsDown, Waits, HearsFrom;
    RunLength(states, steps);
    WaitsIsKnown(states[m], w, k, wire);
    if m < n {
      StepAt(states, steps, n - 1);
      StaysKnown(states, steps, m, n - 1, w);
      HeardFromBefore(states[n - 1], steps[n - 1], w);
      MessageMovesUp(states, steps, m, n - 1, w, k, wire);
      MovesOnce(states[n - 1], steps[n - 1], w, k - Heard(steps, m, n - 1, w), wire);
    }
  }

  /** What the extension holds once it has read the message. */
  predicate Heeds(e: Ext, wire: Wire) {
    match wire
    case Message(Promoted) => e.role == OnActive
    case Message(Standby) => e.role == OnStandby
    case Message(Peers(list)) => e.peersCache == list
    case Message(Welcome(active)) => e.activeFlag == active
    case Message(Snapshot(active)) => e.activeFlag == active
    case Closed => e.role == Off
  }

  /** A message under way is read once those before it have been, however the bridge goes on sending, and then it is heeded. */
  lemma MessagesAreHeeded(states: seq<System>, steps: seq<Step>, m: nat, n: nat, w: Socket, waiting: nat)
    requires IsRun(states, steps) && m <= n < |steps| && w in states[m].conns && states[m].conns[w].extOpen
    requires waiting < |states[m].conns[w].down| && ReadsDown(steps[n], w) && Heard(steps, m, n, w) == waiting
    ensures Heeds(ExtOf(states[n + 1], states[m].conns[w].client), states[m].conns[w].down[waiting])
  {
    hide IsRun, Next, Enabled, Heard, Heeds;
    RunLength(states, steps);
    StepAt(states, steps, n);
    ReadIsPending(states[n], steps[n], w);
    MessageMovesUp(states, steps, m, n, w, waiting, states[m].conns[w].down[waiting]);
    HeadIsHeeded(states[n], w);
  }

  lemma ReadIsPending(s: System, step: Step, w: Socket)
    requires Enabled(s, step) && ReadsDown(step, w)
    ensures w in s.conns && s.conns[w].extOpen && s.conns[w].down != []
  {
  }

  lemma HeadIsHeeded(s: System, w: Socket)
    requires Enabled(s, ExtRead(w))
    ensures Heeds(ExtOf(Next(s, ExtRead(w)), s.conns[w].client), s.conns[w].down[0])
  {
  }

  // ---- extensions hold the role last told them ----

  /** What the steps have told the extension: active when its socket opened, then whatever it read, off when it closed. */
  function LastTold(states: seq<System>, steps: seq<Step>, n: nat, c: ClientId): Role
    requires n <= |states| && n <= |steps|
  {
    if n == 0 then Off
    else
      var s, before := states[n - 1], LastTold(states, steps, n - 1, c);
      match steps[n - 1]
      case Opened(d, _) => if d == c then OnActive else before
      case ExtClosed(w) => if w in s.conns && s.conns[w].client == c then Off else before
      case ExtRead(w) =>
        if w in s.conns && s.conns[w].client == c && s.conns[w].down != [] then
          match s.conns[w].down[0]
          case Message(Promoted) => OnActive
          case Message(Standby) => OnStandby
          case Closed => Off
          case _ => before
        else before
      case _ => before
  }

  lemma StepTells(s: System, step: Step, c: ClientId)
    requires Enabled(s, step)
    ensures ExtOf(Next(s, step), c).role ==
      match step
      case Opened(d, _) => if d == c then OnActive else ExtOf(s, c).role
      case ExtClosed(w) => if s.conns[w].client == c then Off else ExtOf(s, c).role
      case ExtRead(w) =>
        if s.conns[w].client == c then
          match s.conns[w].down[0]
          case Message(Promoted) => OnActive
          case Message(Standby) => OnStandby
          case Closed => Off
          case _ => ExtOf(s, c).role
        else ExtOf(s, c).role
      case _ => ExtOf(s, c).role
  {
    hide Attach, Detach, SetActive, Post, Broadcast, AttachSends, DetachSends;
  }

  /** An extension is active from the opening of its socket, provisionally, until it is told otherwise, and holds the role
      last told it until its socket closes. */
  lemma {:induction false} RoleIsLastTold(states: seq<System>, steps: seq<Step>, n: nat, c: ClientId)
    requires IsRun(states, steps) && n < |states|
    ensures ExtOf(states[n], c).role == LastTold(states, steps, n, c)
  {
    if n > 0 {
      RoleIsLastTold(states, steps, n - 1, c);
      assert Enabled(states[n - 1], steps[n - 1]) && states[n] == Next(states[n - 1], steps[n - 1]);
      StepTells(states[n - 1], steps[n - 1], c);
      hide IsRun, Next;
    }
  }

  /** Once all channels are drained, the list a connected extension shows names exactly the connected ones, and as active
      exactly the one that holds the active role. */
  lemma ListsNameTheActive(states: seq<System>, steps: seq<Step>, n: nat, c: ClientId, d: ClientId)
    requires IsRun(states, steps) && n < |states| && Drained(states[n]) && ExtOf(states[n], c).role != Off
    ensures var s, list := states[n], ExtOf(states[n], c).peersCache;
      && ((exists i :: 0 <= i < |list| && list[i].clientId == d) <==> ExtOf(s, d).role != Off)
      && forall i :: 0 <= i < |list| && list[i].clientId == d ==> (list[i].active <==> ExtOf(s, d).role == OnActive)
  {
    var s, list := states[n], ExtOf(states[n], c).peersCache;
    RunKeepsInv(states, steps, n);
    assert DrainedFor(s, c) && DrainedFor(s, d);
    RolesAgree(states, steps, n, c);
    RolesAgree(states, steps, n, d);
    assert Election.DistinctClients(s.peers);
    hide IsRun, Inv, Drained, DrainedFor;
    assert |list| == |s.peers| && forall i :: 0 <= i < |list| ==> list[i].clientId == s.peers[i].clientId && list[i].active == s.peers[i].active;
  }
}
