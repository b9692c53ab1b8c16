/**
 The CDP relay: `CdpBridge` together with the RPC channel that feeds it remote
 host providers.  This module is the specification: the state the two objects
 share, and one function per event.  `CdpBridge` (the class) implements it with
 loops and in-place updates; `CdpSafety` proves what every run keeps.

 The two source objects are one state here because they re-enter each other:
 closing an RPC connection removes its session and then, in the same call,
 runs the bridge's close handler, possibly from inside a bridge handler that
 was only trying to send.
 */
module CdpRelay {
  import opened Options

  type Host = string
  type Target = string
  type SessionId = string

  /** How a provider is attached: an RPC stream closes synchronously, a WebSocket does not. */
  datatype Transport = WebSocket | RpcStream(session: SessionId)

  /** A provider connection.  The host id is captured by its listeners, so it never changes. */
  datatype Conn = Conn(serial: nat, host: Host, transport: Transport)

  /** A client socket.  The target id is captured by its listeners, so it never changes. */
  datatype Sock = Sock(serial: nat, target: Target)

  datatype ReadyState = Open | Closing | Closed

  /** One parsed command frame of a client: the socket, its own message id and session. */
  datatype Frame = Frame(sock: Sock, clientId: int, session: Option<string>)

  datatype Reason =
    | NotConnected | NavigationRefused | SendFailed | TargetClosed | ProviderError
    | HostChanged | Reconnected | Disconnected | ShuttingDown | TimedOut

  datatype Reply = Result | Error(reason: Reason)

  datatype Answer = Answer(frame: Frame, reply: Reply)

  datatype Pending = Pending(id: nat, frame: Frame)

  /** A pending navigation or host-control command; `host` is the provider it was issued to. */
  datatype HostCommand = HostCommand(target: Target, host: Host, resilient: bool)

  datatype Outcome = Resolved | Rejected(reason: Reason)

  datatype Registration = Registration(tab: int, host: Host, kind: Option<string>, source: Option<string>)

  /**
   The state.  `lease` stands for the lease resolver and is consulted only when
   `hasResolver`.  The last seven fields are history: what was received, what
   was sent, which pin calls were made for each target, how each host command
   settled, which connection each command was sent on, the targets whose pin was
   left behind by an unregister, and the targets pinned a second time because of it.
   */
  datatype State = State(
    hasResolver: bool,
    lease: map<Target, Host>,
    providers: map<Host, Conn>,
    registry: map<Target, Registration>,
    clients: map<Target, set<Sock>>,
    pending: seq<Pending>,
    commands: map<nat, HostCommand>,
    nextRequestId: nat,
    conns: map<Conn, ReadyState>,
    socks: map<Sock, ReadyState>,
    sessions: map<SessionId, Conn>,
    frames: seq<Frame>,
    answers: seq<Answer>,
    pins: map<Target, seq<bool>>,
    settled: map<nat, Outcome>,
    sentOn: map<nat, Conn>,
    leaked: set<Target>,
    repinned: set<Target>)

  function Initial(hasResolver: bool, lease: map<Target, Host>): State {
    State(hasResolver, lease, map[], map[], map[], [], map[], 1, map[], map[], map[],
          [], [], map[], map[], map[], {}, {})
  }

  // ---------------------------------------------------------------------------
  // Queries
  // ---------------------------------------------------------------------------

  predicate SockOpen(s: State, w: Sock) {
    w in s.socks && s.socks[w] == Open
  }

  predicate ConnOpen(s: State, c: Conn) {
    c in s.conns && s.conns[c] == Open
  }

  predicate IsCurrent(s: State, c: Conn) {
    c.host in s.providers && s.providers[c.host] == c
  }

  predicate RegisteredAt(s: State, t: Target, h: Host) {
    t in s.registry && s.registry[t].host == h
  }

  function OpenProvider(s: State, h: Host): Option<Conn> {
    if h in s.providers && ConnOpen(s, s.providers[h]) then Some(s.providers[h]) else None
  }

  /** The connection a command for `t` may be sent on now. */
  function ProviderFor(s: State, t: Target): Option<Conn> {
    if t !in s.registry then None
    else if s.hasResolver then
      if t !in s.lease || s.lease[t] != s.registry[t].host then None
      else OpenProvider(s, s.lease[t])
    else OpenProvider(s, s.registry[t].host)
  }

  const NAVIGATION_METHODS: set<string> :=
    {"Page.navigate", "Page.reload", "Page.stopLoading", "Page.navigateToHistoryEntry",
     "Page.resetNavigationHistory"}

  predicate IsWorkspaceTarget(s: State, t: Target) {
    t in s.registry &&
    var r := s.registry[t];
    || r.kind == Some("workspace")
    || (r.source.Some? && r.source.value != "" && !("browser:" <= r.source.value))
  }

  /** The targets registered at a host. */
  function TargetsAt(s: State, h: Host): set<Target> {
    set t | t in s.registry && s.registry[t].host == h
  }

  function PinLog(s: State, t: Target): seq<bool> {
    if t in s.pins then s.pins[t] else []
  }

  // ---------------------------------------------------------------------------
  // Removing pending work
  // ---------------------------------------------------------------------------

  /** Which pending CDP commands a handler removes. */
  datatype Scope =
    | Everything
    | OfId(id: nat)
    | OfTarget(target: Target)
    | OfSock(sock: Sock)
    | OfHost(host: Host, registry: map<Target, Registration>)

  predicate Hits(scope: Scope, p: Pending) {
    match scope
    case Everything => true
    case OfId(id) => p.id == id
    case OfTarget(t) => p.frame.sock.target == t
    case OfSock(w) => p.frame.sock == w
    // A command whose target is no longer registered anywhere is hit as well.
    case OfHost(h, registry) =>
      !(p.frame.sock.target in registry && registry[p.frame.sock.target].host != h)
  }

  function Select(scope: Scope, ps: seq<Pending>): seq<Pending> {
    if ps == [] then []
    else (if Hits(scope, ps[0]) then [ps[0]] else []) + Select(scope, ps[1..])
  }

  function Reject(scope: Scope, ps: seq<Pending>): seq<Pending> {
    if ps == [] then []
    else (if Hits(scope, ps[0]) then [] else [ps[0]]) + Reject(scope, ps[1..])
  }

  /** The answers that reach an open socket, in order. */
  function Replies(socks: map<Sock, ReadyState>, ps: seq<Pending>, reply: Reply): seq<Answer> {
    if ps == [] then []
    else
      (if ps[0].frame.sock in socks && socks[ps[0].frame.sock] == Open
       then [Answer(ps[0].frame, reply)] else [])
      + Replies(socks, ps[1..], reply)
  }

  /** Answer and forget every pending command in the scope. */
  function AnswerWhere(s: State, scope: Scope, reply: Reply): State {
    s.(pending := Reject(scope, s.pending),
       answers := s.answers + Replies(s.socks, Select(scope, s.pending), reply))
  }

  /** Answer one frame directly. */
  function Respond(s: State, f: Frame, reply: Reply): State {
    s.(answers := s.answers + if SockOpen(s, f.sock) then [Answer(f, reply)] else [])
  }

  /** Which host commands a handler settles. */
  datatype CommandScope =
    | AllCommands
    | CommandId(id: nat)
    | IssuedTo(host: Host)
    | AimedAt(targets: set<Target>, spareResilient: bool)

  predicate HitsCommand(scope: CommandScope, id: nat, c: HostCommand) {
    match scope
    case AllCommands => true
    case CommandId(i) => i == id
    case IssuedTo(h) => c.host == h
    case AimedAt(ts, spare) => c.target in ts && !(spare && c.resilient)
  }

  function CommandsHit(scope: CommandScope, commands: map<nat, HostCommand>): set<nat> {
    set id | id in commands && HitsCommand(scope, id, commands[id])
  }

  function Settle(s: State, scope: CommandScope, outcome: Outcome): State {
    s.(commands := s.commands - CommandsHit(scope, s.commands),
       settled := s.settled + map id | id in CommandsHit(scope, s.commands) :: outcome)
  }

  // ---------------------------------------------------------------------------
  // Client sets and pins
  // ---------------------------------------------------------------------------

  function CloseSocks(socks: map<Sock, ReadyState>, ws: set<Sock>): map<Sock, ReadyState> {
    map w | w in socks :: if w in ws && socks[w] == Open then Closing else socks[w]
  }

  /** The sockets stored for any of the given targets. */
  function ClientsOf(s: State, ts: set<Target>): set<Sock> {
    set t, w | t in ts && t in s.clients && w in s.clients[t] :: w
  }

  function Unpinned(s: State, ts: set<Target>): map<Target, seq<bool>> {
    map t | t in s.pins.Keys + ts :: if t in ts then PinLog(s, t) + [false] else s.pins[t]
  }

  /** Close and forget the clients of the targets, and release their pins. */
  function DropClients(s: State, ts: set<Target>): State {
    s.(clients := s.clients - ts,
       socks := CloseSocks(s.socks, ClientsOf(s, ts)),
       pins := Unpinned(s, ts * s.clients.Keys))
  }

  /** Close and forget a target's clients without releasing its pin, as an unregister does. */
  function OrphanClients(s: State, t: Target): State {
    s.(clients := s.clients - {t},
       socks := CloseSocks(s.socks, ClientsOf(s, {t})),
       leaked := if t in s.clients then s.leaked + {t} else s.leaked)
  }

  // ---------------------------------------------------------------------------
  // Provider loss and synchronous close
  // ---------------------------------------------------------------------------

  function Flush(s: State, h: Host, reason: Reason): State {
    var s1 := Settle(s, IssuedTo(h), Rejected(reason));
    var s2 := AnswerWhere(s1, OfHost(h, s.registry), Error(reason));
    var s3 := Settle(s2, AimedAt(TargetsAt(s, h), false), Rejected(reason));
    DropClients(s3, TargetsAt(s, h))
  }

  function Deregister(s: State, h: Host): State {
    s.(registry := map t | t in s.registry && s.registry[t].host != h :: s.registry[t])
  }

  function RemoveProvider(s: State, h: Host): State {
    s.(providers := s.providers - {h})
  }

  /** The bridge's close listener of a provider connection. */
  function OnProviderClose(s: State, c: Conn): State {
    if !IsCurrent(s, c) then s
    else Deregister(Flush(RemoveProvider(s, c.host), c.host, Disconnected), c.host)
  }

  /** An RPC connection is marked closed and its session, if it is still this one, is forgotten. */
  function EndSession(s: State, c: Conn): State
    requires c.transport.RpcStream?
  {
    var sid := c.transport.session;
    s.(conns := s.conns[c := Closed],
       sessions := if sid in s.sessions && s.sessions[sid] == c then s.sessions - {sid} else s.sessions)
  }

  /** `close` (or `fail`) of an RPC connection: mark, drop the session, run the close listener. */
  function CloseRpc(s: State, c: Conn): State
    requires c.transport.RpcStream?
  {
    if ConnOpen(s, c) then OnProviderClose(EndSession(s, c), c) else s
  }

  function MarkConn(s: State, c: Conn, to: ReadyState): State {
    s.(conns := s.conns[c := to])
  }

  /** `close` of a WebSocket: only the ready state moves; the close event comes later. */
  function CloseConn(s: State, c: Conn): State {
    if c.transport.RpcStream? then CloseRpc(s, c)
    else if ConnOpen(s, c) then MarkConn(s, c, Closing)
    else s
  }

  /** `provider.send`: on an RPC stream a failing enqueue closes the connection in the same call. */
  function Send(s: State, c: Conn, breaks: bool): State {
    if breaks && c.transport.RpcStream? then CloseRpc(s, c) else s
  }

  // ---------------------------------------------------------------------------
  // Handlers
  // ---------------------------------------------------------------------------

  /** `handleProviderConnection`, on a connection that is already tracked and open. */
  function Attach(s: State, c: Conn): State {
    SetProvider(Evict(s, c), c)
  }

  /** Settle the work of the connection that `c` replaces, then close it. */
  function Evict(s: State, c: Conn): State {
    if c.host in s.providers && s.providers[c.host] != c
    then CloseConn(Flush(s, c.host, Reconnected), s.providers[c.host])
    else s
  }

  function SetProvider(s: State, c: Conn): State {
    s.(providers := s.providers[c.host := c])
  }

  function Track(s: State, c: Conn): State {
    s.(conns := s.conns[c := Open],
       sessions := if c.transport.RpcStream? then s.sessions[c.transport.session := c] else s.sessions)
  }

  function ConnectWebSocketProvider(s: State, c: Conn): State {
    Attach(Track(s, c), c)
  }

  /** `CdpHostProviderRpcChannel.open` past its checks. */
  function OpenSession(s: State, c: Conn, breaks: bool): State
    requires c.transport.RpcStream?
  {
    Send(Attach(Track(s, c), c), c, breaks)
  }

  function CloseSession(s: State, sid: SessionId): State {
    if sid in s.sessions && s.sessions[sid].transport.RpcStream? then CloseRpc(s, s.sessions[sid]) else s
  }

  function CloseSessions(s: State, order: seq<SessionId>): State
    decreases |order|
  {
    if order == [] then s else CloseSessions(CloseSession(s, order[0]), order[1..])
  }

  function StopChannel(s: State, order: seq<SessionId>): State {
    CloseSessions(s, order).(sessions := map[])
  }

  predicate RegisterAccepted(s: State, c: Conn, t: Target, known: bool) {
    && known
    && IsCurrent(s, c) && ConnOpen(s, c)
    && (s.hasResolver ==> t in s.lease && s.lease[t] == c.host)
  }

  /** Whether a refused registration is answered on the wire (a stale provider is ignored silently). */
  predicate RegisterRefused(s: State, c: Conn, t: Target, known: bool) {
    ConnOpen(s, c) && (!known || (IsCurrent(s, c) && s.hasResolver && !(t in s.lease && s.lease[t] == c.host)))
  }

  function List(s: State, t: Target, r: Registration): State {
    s.(registry := s.registry[t := r])
  }

  function Register(s: State, c: Conn, t: Target, r: Registration, known: bool, breaks: bool): State {
    if RegisterAccepted(s, c, t, known) then List(s, t, r.(host := c.host))
    else if RegisterRefused(s, c, t, known) then Send(s, c, breaks)
    else s
  }

  function Unlist(s: State, t: Target): State {
    s.(registry := s.registry - {t})
  }

  function Unregister(s: State, h: Host, t: Target): State {
    if !RegisteredAt(s, t, h) then s
    else
      var s1 := Unlist(s, t);
      var s2 := AnswerWhere(s1, OfTarget(t), Error(TargetClosed));
      var s3 := Settle(s2, AimedAt({t}, true), Rejected(TargetClosed));
      OrphanClients(s3, t)
  }

  /** The pending command with an id, if any. */
  function Find(ps: seq<Pending>, id: nat): Option<Pending> {
    if ps == [] then None else if ps[0].id == id then Some(ps[0]) else Find(ps[1..], id)
  }

  function CdpReply(s: State, h: Host, id: nat, reply: Reply): State {
    var p := Find(s.pending, id);
    if p.Some? && RegisteredAt(s, p.value.frame.sock.target, h) then AnswerWhere(s, OfId(id), reply) else s
  }

  /** `nav:*` needs the target still registered at the host; `host:*` also accepts the issuing host. */
  function CommandReply(s: State, h: Host, id: nat, outcome: Outcome, hostKind: bool): State {
    if id in s.commands &&
       (RegisteredAt(s, s.commands[id].target, h) || (hostKind && s.commands[id].host == h))
    then Settle(s, CommandId(id), outcome)
    else s
  }

  function ClientConnected(s: State, w: Sock): State {
    if ProviderFor(s, w.target) == None then s else AddClient(s, w)
  }

  predicate IsFirstClient(s: State, t: Target) {
    t !in s.clients || s.clients[t] == {}
  }

  /** Track a client; the first one of a target pins it. */
  function AddClient(s: State, w: Sock): State {
    var t := w.target;
    var first := IsFirstClient(s, t);
    s.(clients := s.clients[t := (if t in s.clients then s.clients[t] else {}) + {w}],
       socks := s.socks[w := Open],
       pins := if first then s.pins[t := PinLog(s, t) + [true]] else s.pins,
       repinned := if first && t in s.leaked then s.repinned + {t} else s.repinned,
       leaked := if first then s.leaked - {t} else s.leaked)
  }

  datatype Fate = Delivered | Throws | Breaks

  function ClientFrame(s: State, f: Frame, cdpMethod: string, fate: Fate): State {
    var provider := ProviderFor(s, f.sock.target);
    if provider == None then Respond(Receive(s, f), f, Error(NotConnected))
    else if IsWorkspaceTarget(s, f.sock.target) && cdpMethod in NAVIGATION_METHODS
    then Respond(Receive(s, f), f, Error(NavigationRefused))
    else Forward(s, f, provider.value, fate)
  }

  function Forward(s: State, f: Frame, c: Conn, fate: Fate): State {
    match fate
    case Delivered => Enqueue(s, f, c)
    case Throws => Respond(Dequeue(Enqueue(s, f, c), s.nextRequestId), f, Error(SendFailed))
    case Breaks => Send(Enqueue(s, f, c), c, true)
  }

  function Receive(s: State, f: Frame): State {
    s.(frames := s.frames + [f])
  }

  /** The frame gets the next request id and is pending at the connection it is sent on. */
  function Enqueue(s: State, f: Frame, c: Conn): State {
    s.(frames := s.frames + [f],
       nextRequestId := s.nextRequestId + 1,
       pending := s.pending + [Pending(s.nextRequestId, f)],
       sentOn := s.sentOn[s.nextRequestId := c])
  }

  function Dequeue(s: State, id: nat): State {
    s.(pending := Reject(OfId(id), s.pending))
  }

  function MarkSock(s: State, w: Sock, to: ReadyState): State {
    s.(socks := s.socks[w := to])
  }

  /** Take a socket out of its target's set; the last one also releases the pin. */
  function RemoveClient(s: State, w: Sock): State {
    var t := w.target;
    s.(clients := if t !in s.clients then s.clients
                  else if s.clients[t] - {w} != {} then s.clients[t := s.clients[t] - {w}]
                  else s.clients - {t},
       pins := if IsLastClient(s, w) then Unpinned(s, {t}) else s.pins)
  }

  predicate IsLastClient(s: State, w: Sock) {
    w.target in s.clients && s.clients[w.target] - {w} == {}
  }

  /** The last client of a target also makes the provider detach its debugger. */
  function ForgetClient(s: State, w: Sock, breaks: bool): State {
    var s1 := RemoveClient(s, w);
    if IsLastClient(s, w) then Notify(s1, ProviderFor(s1, w.target), breaks) else s1
  }

  function Notify(s: State, provider: Option<Conn>, breaks: bool): State {
    if provider.Some? then Send(s, provider.value, breaks) else s
  }

  function PurgeSock(s: State, w: Sock): State {
    s.(pending := Reject(OfSock(w), s.pending))
  }

  function ClientClosed(s: State, w: Sock, breaks: bool): State {
    PurgeSock(ForgetClient(MarkSock(s, w, Closed), w, breaks), w)
  }

  function Detach(s: State, t: Target, h: Host, breaks: bool): State {
    if RegisteredAt(s, t, h) then Unlist(Notify(s, OpenProvider(s, h), breaks), t) else s
  }

  function CloseTargetConnections(s: State, t: Target): State {
    var s1 := AnswerWhere(s, OfTarget(t), Error(HostChanged));
    var s2 := Settle(s1, AimedAt({t}, false), Rejected(HostChanged));
    DropClients(s2, {t})
  }

  function SetLease(s: State, t: Target, next: Option<Host>): State {
    s.(lease := if next.Some? then s.lease[t := next.value] else s.lease - {t})
  }

  /** The lease of `t` moves to `next` and the bridge handles the event that announces it. */
  function LeaseChanged(s: State, t: Target, next: Option<Host>, breaks: bool): State {
    var previous: Option<Host> := if t in s.lease then Some(s.lease[t]) else None;
    if previous == next then s
    else if previous == None then SetLease(CloseTargetConnections(s, t), t, next)
    else SetLease(CloseTargetConnections(Detach(s, t, previous.value, breaks), t), t, next)
  }

  function SendHostCommand(s: State, t: Target, resilient: bool, fate: Fate): State {
    var provider := ProviderFor(s, t);
    if provider == None then s
    else
      var s1 := Issue(s, HostCommand(t, s.registry[t].host, resilient));
      match fate
      case Delivered => s1
      case Throws => Settle(s1, CommandId(s.nextRequestId), Rejected(SendFailed))
      case Breaks => Send(s1, provider.value, true)
  }

  function Issue(s: State, command: HostCommand): State {
    s.(nextRequestId := s.nextRequestId + 1, commands := s.commands[s.nextRequestId := command])
  }

  /** After `stop`: every provider is told to close, and an RPC provider is closed at once. */
  function CloseProviders(s: State): State {
    s.(conns := map c | c in s.conns ::
         if c in s.providers.Values && s.conns[c] == Open
         then (if c.transport.RpcStream? then Closed else Closing) else s.conns[c],
       sessions := map sid | sid in s.sessions && s.sessions[sid] !in s.providers.Values :: s.sessions[sid],
       providers := map[],
       registry := map[])
  }

  function Stop(s: State): State {
    var s1 := Settle(s, AllCommands, Rejected(ShuttingDown));
    var s2 := AnswerWhere(s1, Everything, Error(ShuttingDown));
    CloseProviders(DropClients(s2, s2.clients.Keys))
  }

  // ---------------------------------------------------------------------------
  // Events and runs
  // ---------------------------------------------------------------------------

  datatype Event =
    | ProviderUp(conn: Conn)
    | ProviderClosing(conn: Conn)
    | ProviderDown(conn: Conn)
    | SessionOpened(conn: Conn, breaks: bool)
    | SessionClosed(session: SessionId)
    | ChannelStopped(order: seq<SessionId>)
    | Registers(conn: Conn, target: Target, registration: Registration, known: bool, breaks: bool)
    | Unregisters(conn: Conn, target: Target)
    | Replied(conn: Conn, id: nat, reply: Reply)
    | CommandReplied(conn: Conn, id: nat, outcome: Outcome, hostKind: bool)
    | ClientUp(sock: Sock)
    | ClientSent(frame: Frame, cdpMethod: string, fate: Fate)
    | ClientClosing(sock: Sock)
    | ClientDown(sock: Sock, breaks: bool)
    | LeaseMoved(target: Target, next: Option<Host>, breaks: bool)
    | CommandIssued(target: Target, resilient: bool, fate: Fate)
    | CommandTimedOut(id: nat)
    | BridgeStopped

  /**
   When an event can occur: a new connection or socket is fresh, a session id
   is not in use, a listener fires only on something it was attached to, and a
   closed transport emits nothing more except messages already queued.
   */
  predicate Enabled(s: State, e: Event) {
    match e
    case ProviderUp(c) => c !in s.conns && c.transport.WebSocket? && c.host != ""
    case ProviderClosing(c) => ConnOpen(s, c) && c.transport.WebSocket?
    case ProviderDown(c) => c in s.conns && s.conns[c] != Closed && c.transport.WebSocket?
    case SessionOpened(c, _) =>
      && c !in s.conns && c.host != ""
      && c.transport.RpcStream? && c.transport.session != "" && c.transport.session !in s.sessions
    case SessionClosed(_) => true
    case ChannelStopped(order) =>
      && (forall i, j :: 0 <= i < j < |order| ==> order[i] != order[j])
      && (set sid | sid in order) == s.sessions.Keys
    case Registers(c, _, _, _, _) => c in s.conns
    case Unregisters(c, _) => c in s.conns
    case Replied(c, _, reply) => c in s.conns && (reply == Result || reply == Error(ProviderError))
    case CommandReplied(c, _, outcome, _) =>
      c in s.conns && (outcome == Resolved || outcome == Rejected(ProviderError))
    case ClientUp(w) => w !in s.socks
    case ClientSent(f, _, _) => f.sock in s.socks && s.socks[f.sock] != Closed
    case ClientClosing(w) => SockOpen(s, w)
    case ClientDown(w, _) => w in s.socks && s.socks[w] != Closed
    case LeaseMoved(_, next, _) => next != Some("")
    case CommandIssued(_, _, _) => true
    case CommandTimedOut(_) => true
    case BridgeStopped => true
  }

  function Handle(s: State, e: Event): State
    requires Enabled(s, e)
  {
    match e
    case ProviderUp(c) => ConnectWebSocketProvider(s, c)
    case ProviderClosing(c) => MarkConn(s, c, Closing)
    case ProviderDown(c) => OnProviderClose(MarkConn(s, c, Closed), c)
    case SessionOpened(c, breaks) => OpenSession(s, c, breaks)
    case SessionClosed(sid) => CloseSession(s, sid)
    case ChannelStopped(order) => StopChannel(s, order)
    case Registers(c, t, r, known, breaks) => Register(s, c, t, r, known, breaks)
    case Unregisters(c, t) => Unregister(s, c.host, t)
    case Replied(c, id, reply) => CdpReply(s, c.host, id, reply)
    case CommandReplied(c, id, outcome, hostKind) => CommandReply(s, c.host, id, outcome, hostKind)
    case ClientUp(w) => ClientConnected(s, w)
    case ClientSent(f, cdpMethod, fate) => ClientFrame(s, f, cdpMethod, fate)
    case ClientClosing(w) => MarkSock(s, w, Closing)
    case ClientDown(w, breaks) => ClientClosed(s, w, breaks)
    case LeaseMoved(t, next, breaks) => LeaseChanged(s, t, next, breaks)
    case CommandIssued(t, resilient, fate) => SendHostCommand(s, t, resilient, fate)
    case CommandTimedOut(id) => Settle(s, CommandId(id), Rejected(TimedOut))
    case BridgeStopped => Stop(s)
  }

  function Step(s: State, e: Event): State {
    if Enabled(s, e) then Handle(s, e) else s
  }

  function Run(s: State, events: seq<Event>): State
    decreases |events|
  {
    if events == [] then s else Run(Step(s, events[0]), events[1..])
  }
}
