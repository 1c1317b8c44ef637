/**
 The role protocol between the app bridge and the Chrome profiles (MacOS/brain/extension-bridge.ts with
 extension/background.js): sockets are pairs of FIFO channels, the bridge elects, each extension folds what it
 reads into its role.
 */
module RoleProtocol {
  import opened Options
  import opened ExtensionBridges

  /** What an extension sends; its close event reaches the bridge behind what it sent before. */
  datatype Up = Hello | RequestTakeover | Hangup

  /** What an extension reads; a loss noticed by the bridge reaches it behind what was sent before. */
  datatype Wire = Message(msg: Down) | Closed

  datatype Conn = Conn(client: ClientId, up: seq<Up>, down: seq<Wire>, bridgeOpen: bool, extOpen: bool)

  datatype Role = Off | OnStandby | OnActive

  datatype Ext = Ext(ws: Option<Socket>, role: Role, activeFlag: bool, peersCache: seq<Listed>)

  datatype System = System(peers: seq<Peer>, conns: map<Socket, Conn>, exts: map<ClientId, Ext>, now: int)

  const OFFLINE := Ext(None, Off, false, [])

  function ExtOf(s: System, c: ClientId): Ext {
    if c in s.exts then s.exts[c] else OFFLINE
  }

  function ToSocket(sends: seq<Send>, w: Socket): seq<Wire> {
    if sends == [] then []
    else ToSocket(sends[..|sends| - 1], w)
         + if sends[|sends| - 1].ws == w then [Message(sends[|sends| - 1].msg)] else []
  }

  /** A send on a socket that is closed at either end is lost. */
  function Post(conns: map<Socket, Conn>, sends: seq<Send>): map<Socket, Conn> {
    map w | w in conns ::
      if conns[w].bridgeOpen && conns[w].extOpen then conns[w].(down := conns[w].down + ToSocket(sends, w)) else conns[w]
  }

  // ---- the extension's end ----

  function Read(e: Ext, m: Down): Ext {
    match m
    case Promoted => e.(role := OnActive)
    case Standby => e.(role := OnStandby)
    case Peers(list) => e.(peersCache := list)
    case Welcome(active) => e.(activeFlag := active)
    case Snapshot(active) => e.(activeFlag := active)
  }

  /** A socket opens: the role is provisionally active. */
  function Opening(e: Ext, w: Socket): Ext {
    e.(ws := Some(w), role := OnActive)
  }

  /** The close event of a socket turns the role off, whichever socket it is of. */
  function Closing(e: Ext, w: Socket): Ext {
    e.(ws := if e.ws == Some(w) then None else e.ws, role := Off)
  }

  /** The socket opened, and the hello is on its way. */
  function Open(s: System, c: ClientId, w: Socket): System
    requires w !in s.conns
  {
    s.(exts := s.exts[c := Opening(ExtOf(s, c), w)], conns := s.conns[w := Conn(c, [Hello], [], true, true)])
  }

  function ExtReads(s: System, w: Socket): System
    requires w in s.conns && s.conns[w].extOpen && s.conns[w].down != []
  {
    var conn := s.conns[w];
    var e := ExtOf(s, conn.client);
    match conn.down[0]
    case Message(m) => s.(exts := s.exts[conn.client := Read(e, m)], conns := s.conns[w := conn.(down := conn.down[1..])])
    case Closed =>
      s.(exts := s.exts[conn.client := Closing(e, w)], conns := s.conns[w := conn.(down := conn.down[1..], extOpen := false)])
  }

  function ExtCloses(s: System, w: Socket): System
    requires w in s.conns && s.conns[w].extOpen
  {
    var conn := s.conns[w];
    s.(exts := s.exts[conn.client := Closing(ExtOf(s, conn.client), w)],
       conns := s.conns[w := conn.(down := [], extOpen := false, up := if conn.bridgeOpen then conn.up + [Hangup] else conn.up)])
  }

  function AsksTakeover(s: System, w: Socket): System
    requires w in s.conns && s.conns[w].extOpen
  {
    var conn := s.conns[w];
    if ExtOf(s, conn.client).role == OnStandby && conn.bridgeOpen then s.(conns := s.conns[w := conn.(up := conn.up + [RequestTakeover])])
    else s
  }

  /** The role variables of the extension's background script, assigned by its socket listeners. */
  class Background {
    var ws: Option<Socket>
    var role: Role
    var activeFlag: bool
    var peersCache: seq<Listed>

    constructor ()
      ensures Model() == OFFLINE
    {
      ws, role, activeFlag, peersCache := None, Off, false, [];
    }

    function Model(): Ext
      reads this
    {
      Ext(ws, role, activeFlag, peersCache)
    }

    method OnOpen(w: Socket)
      modifies this
      ensures Model() == Opening(old(Model()), w)
    {
      ws := Some(w);
      role := OnActive;
    }

    method OnClose(w: Socket)
      modifies this
      ensures Model() == Closing(old(Model()), w)
    {
      if ws == Some(w) {
        ws := None;
      }
      role := Off;
    }

    /** The lifecycle cases of `handleMessage`. */
    method HandleMessage(m: Down)
      modifies this
      ensures Model() == Read(old(Model()), m)
    {
      match m {
        case Standby => role := OnStandby;
        case Promoted => role := OnActive;
        case Welcome(active) => activeFlag := active;
        case Snapshot(active) => activeFlag := active;
        case Peers(list) => peersCache := list;
      }
    }
  }

  // ---- the bridge's end ----

  function TakesOver(s: System, c: ClientId, now: int): System {
    if IndexOf(s.peers, c).Some? then
      var peers := SetActive(s.peers, c, now);
      s.(peers := peers, conns := Post(s.conns, Broadcast(peers)), now := now)
    else s.(now := now)
  }

  function HandlesHello(s: System, w: Socket, now: int): System
    requires w in s.conns
  {
    var c := s.conns[w].client;
    s.(peers := Attach(s.peers, w, c, "", now), conns := Post(s.conns, AttachSends(s.peers, w, c, "", now)), now := now)
  }

  function HandlesLoss(s: System, c: ClientId, now: int): System {
    s.(peers := Detach(s.peers, c, now), conns := Post(s.conns, DetachSends(s.peers, c, now)), now := now)
  }

  function BridgeReads(s: System, w: Socket, now: int): System
    requires w in s.conns && s.conns[w].bridgeOpen && s.conns[w].up != []
  {
    var conn := s.conns[w].(up := s.conns[w].up[1..]);
    var s1 := s.(conns := s.conns[w := conn]);
    match s.conns[w].up[0]
    case Hello => HandlesHello(s1, w, now)
    case RequestTakeover => TakesOver(s1, conn.client, now)
    case Hangup => HandlesLoss(s1.(conns := s1.conns[w := conn.(bridgeOpen := false, up := [])]), conn.client, now)
  }

  /** The bridge notices first that the socket is gone, or drops it; before the hello there is nothing to detach. */
  function BridgeLoses(s: System, w: Socket, now: int): System
    requires w in s.conns && s.conns[w].bridgeOpen
  {
    var conn := s.conns[w];
    var s1 := s.(conns := s.conns[w := conn.(bridgeOpen := false, up := [], down := if conn.extOpen then conn.down + [Closed] else [])]);
    if Hello in conn.up then s1.(now := now) else HandlesLoss(s1, conn.client, now)
  }

  function PushesSnapshots(s: System): System {
    s.(conns := Post(s.conns, SnapshotSends(s.peers)))
  }

  // ---- steps ----

  datatype Step =
    | Opened(client: ClientId, ws: Socket)
    | ExtRead(ws: Socket)
    | ExtClosed(ws: Socket)
    | AskedTakeover(ws: Socket)
    | BridgeRead(ws: Socket, at: int)
    | BridgeLost(ws: Socket, at: int)
    | AppTookOver(client: ClientId, at: int)
    | SnapshotPushed

  ghost predicate Enabled(s: System, step: Step) {
    match step
    case Opened(c, w) => w !in s.conns
    case ExtRead(w) => w in s.conns && s.conns[w].extOpen && s.conns[w].down != []
    case ExtClosed(w) => w in s.conns && s.conns[w].extOpen
    case AskedTakeover(w) => w in s.conns && s.conns[w].extOpen
    case BridgeRead(w, at) => w in s.conns && s.conns[w].bridgeOpen && s.conns[w].up != [] && s.now <= at
    case BridgeLost(w, at) => w in s.conns && s.conns[w].bridgeOpen && s.now <= at
    case AppTookOver(_, at) => s.now <= at
    case SnapshotPushed => true
  }

  function Next(s: System, step: Step): System
    requires Enabled(s, step)
  {
    match step
    case Opened(c, w) => Open(s, c, w)
    case ExtRead(w) => ExtReads(s, w)
    case ExtClosed(w) => ExtCloses(s, w)
    case AskedTakeover(w) => AsksTakeover(s, w)
    case BridgeRead(w, at) => BridgeReads(s, w, at)
    case BridgeLost(w, at) => BridgeLoses(s, w, at)
    case AppTookOver(c, at) => TakesOver(s, c, at)
    case SnapshotPushed => PushesSnapshots(s)
  }

  /** A client's old socket closes first: the extension opens a socket only after the close event of the one before,
      and the bridge handles the hello only after it has handled that loss. */
  ghost predicate OldSocketClosesFirst(s: System, step: Step)
    requires Enabled(s, step)
  {
    && (step.Opened? ==> ExtOf(s, step.client).ws == None)
    && (step.BridgeRead? && s.conns[step.ws].up[0] == Hello ==> IndexOf(s.peers, s.conns[step.ws].client).None?)
  }
}
