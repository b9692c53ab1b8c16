/**
 Every teardown answers before it closes.  Where the bridge itself closes a client
 socket, because the target was unregistered, its host was lost or replaced, its lease
 moved or the bridge stops, every frame of that socket has its answer by then.
 */
module CdpTeardown {
  import opened Options
  import opened CdpRelay
  import opened CdpConservation
  import opened CdpRouting

  /** Every frame of the socket has been answered and none is pending. */
  ghost predicate AllAnswered(s: State, w: Sock) {
    forall f: Frame :: f.sock == w ==>
      AnswerCount(s.answers, f) == FrameCount(s.frames, f) && PendingCount(s.pending, f) == 0
  }

  /** A client is stored for the target it was opened for. */
  ghost predicate Targeted(s: State) {
    forall t, w :: t in s.clients && w in s.clients[t] ==> w.target == t
  }

  ghost predicate Good(s: State) {
    Conserved(s) && Targeted(s)
  }

  /** A step that receives nothing, and closes only sockets whose frames it has answered. */
  ghost predicate Graceful(s: State, s': State) {
    && s'.frames == s.frames && s.answers <= s'.answers
    && (forall t :: t in s'.clients ==> t in s.clients && s'.clients[t] <= s.clients[t])
    && (forall w :: SockOpen(s, w) ==> SockOpen(s', w) || AllAnswered(s', w))
  }

  lemma AnsweredStays(s: State, s': State, w: Sock)
    requires AllAnswered(s, w) && s'.frames == s.frames && s.answers <= s'.answers && Conserved(s')
    ensures AllAnswered(s', w)
  {
    forall f: Frame | f.sock == w
      ensures AnswerCount(s'.answers, f) == FrameCount(s'.frames, f) && PendingCount(s'.pending, f) == 0
    {
      assert Balanced(s', f);
      var more := s'.answers[|s.answers|..];
      assert s'.answers == s.answers + more;
      CountAppend(s.answers, more, Answered, f);
    }
  }

  lemma GracefulTransitive(a: State, b: State, c: State)
    requires Graceful(a, b) && Graceful(b, c) && Conserved(c)
    ensures Graceful(a, c)
  {
    hide AllAnswered, Conserved;
    forall w | SockOpen(a, w) ensures SockOpen(c, w) || AllAnswered(c, w) {
      if !SockOpen(b, w) {
        AnsweredStays(b, c, w);
      }
    }
  }

  lemma {:induction false} NoneCounted(ps: seq<Pending>, f: Frame)
    requires forall p :: p in ps ==> p.frame != f
    ensures PendingCount(ps, f) == 0
  {
    if ps != [] {
      assert ps[0] in ps;
      assert forall p :: p in ps[1..] ==> p in ps;
      NoneCounted(ps[1..], f);
    }
  }

  /** Nothing received, answered, pending or closed. */
  predicate SameWork(s: State, s': State) {
    && s'.frames == s.frames && s'.answers == s.answers && s'.pending == s.pending
    && s'.clients == s.clients && s'.socks == s.socks
  }

  lemma SameIsGraceful(s: State, s': State)
    requires Good(s) && SameWork(s, s')
    ensures Graceful(s, s') && Good(s')
  {
    ClosingConserves(s, s');
  }

  /**
   The shape of every teardown: answer and forget a scope, then close some sockets,
   all of whose pending commands were in the scope.
   */
  lemma AnswerThenClose(s: State, scope: Scope, reply: Reply, s': State)
    requires Good(s) && s'.frames == s.frames && s'.socks.Keys == s.socks.Keys
    requires s'.answers == AnswerWhere(s, scope, reply).answers && s'.pending == AnswerWhere(s, scope, reply).pending
    requires forall t :: t in s'.clients ==> t in s.clients && s'.clients[t] <= s.clients[t]
    requires forall w :: SockOpen(s', w) ==> SockOpen(s, w)
    requires forall p :: p in s.pending && SockOpen(s, p.frame.sock) && !SockOpen(s', p.frame.sock) ==> Hits(scope, p)
    ensures Graceful(s, s') && Good(s')
  {
    hide Hits;
    var s2 := AnswerWhere(s, scope, reply);
    AnswerWhereConserves(s, scope, reply);
    ClosingConserves(s2, s');
    RejectsIn(scope, s.pending);
    forall w | SockOpen(s, w) && !SockOpen(s', w) ensures AllAnswered(s', w) {
      ClosedIsAnswered(s2, s', w);
    }
  }

  lemma ClosedIsAnswered(s: State, s': State, w: Sock)
    requires Conserved(s) && SockOpen(s, w) && forall p :: p in s.pending ==> p.frame.sock != w
    requires s'.frames == s.frames && s'.answers == s.answers && s'.pending == s.pending
    ensures AllAnswered(s', w)
  {
    forall f: Frame | f.sock == w
      ensures AnswerCount(s'.answers, f) == FrameCount(s'.frames, f) && PendingCount(s'.pending, f) == 0
    {
      assert Balanced(s, f);
      NoneCounted(s.pending, f);
    }
  }

  /** Dropping the clients of some targets closes only sockets of those targets. */
  lemma DroppedSocks(s: State, ts: set<Target>, w: Sock)
    requires Targeted(s) && SockOpen(s, w)
    ensures !SockOpen(DropClients(s, ts), w) ==> w.target in ts
    ensures forall t :: t in ts && !SockOpen(OrphanClients(s, t), w) ==> w.target == t
  {
  }

  // ---------------------------------------------------------------------------
  // Losing a provider
  // ---------------------------------------------------------------------------

  lemma FlushGraceful(s: State, h: Host, reason: Reason)
    requires Good(s)
    ensures Graceful(s, Flush(s, h, reason)) && Good(Flush(s, h, reason))
  {
    FlushTables(s, h, reason);
    var scope, s' := OfHost(h, s.registry), Flush(s, h, reason);
    forall p | p in s.pending && SockOpen(s, p.frame.sock) && !SockOpen(s', p.frame.sock) ensures Hits(scope, p) {
      FlushCloses(s, h, reason, p.frame.sock);
    }
    hide Good, Graceful, Flush, AnswerWhere, Hits, DropClients;
    AnswerThenClose(s, scope, Error(reason), s');
  }

  /** What a flush does to the frames, the answers, the pending commands and the clients. */
  lemma FlushTables(s: State, h: Host, reason: Reason)
    ensures var s', dropped := Flush(s, h, reason), DropClients(s, TargetsAt(s, h));
      var answered := AnswerWhere(s, OfHost(h, s.registry), Error(reason));
      && s'.frames == s.frames && s'.answers == answered.answers && s'.pending == answered.pending
      && s'.clients == dropped.clients && s'.socks == dropped.socks && s'.socks.Keys == s.socks.Keys
      && (forall t :: t in s'.clients ==> t in s.clients && s'.clients[t] <= s.clients[t])
      && (forall w :: SockOpen(s', w) ==> SockOpen(s, w))
  {
    hide Unpinned, Reject, Replies, CommandsHit;
    var ts := TargetsAt(s, h);
    var s3 := Settle(AnswerWhere(Settle(s, IssuedTo(h), Rejected(reason)), OfHost(h, s.registry), Error(reason)),
                     AimedAt(ts, false), Rejected(reason));
    assert s3.clients == s.clients;
    SameClients(s3, s, ts);
  }

  lemma FlushCloses(s: State, h: Host, reason: Reason, w: Sock)
    requires Targeted(s) && SockOpen(s, w) && !SockOpen(Flush(s, h, reason), w)
    ensures w.target in s.registry && s.registry[w.target].host == h
  {
    hide Flush, DropClients;
    FlushTables(s, h, reason);
    DroppedSocks(s, TargetsAt(s, h), w);
  }

  lemma SameClients(s: State, s': State, ts: set<Target>)
    requires s.clients == s'.clients
    ensures ClientsOf(s, ts) == ClientsOf(s', ts)
  {
  }

  lemma ProviderCloseGraceful(s: State, c: Conn)
    requires Good(s)
    ensures Graceful(s, OnProviderClose(s, c)) && Good(OnProviderClose(s, c))
  {
    hide Good, Graceful, Flush;
    SameIsGraceful(s, s);
    if IsCurrent(s, c) {
      var s1 := RemoveProvider(s, c.host);
      SameIsGraceful(s, s1);
      FlushGraceful(s1, c.host, Disconnected);
      var s2 := Flush(s1, c.host, Disconnected);
      SameIsGraceful(s2, Deregister(s2, c.host));
      Chain(s, s1, s2);
      Chain(s, s2, Deregister(s2, c.host));
    }
  }

  lemma Chain(a: State, b: State, c: State)
    requires Graceful(a, b) && Graceful(b, c) && Good(c)
    ensures Graceful(a, c)
  {
    GracefulTransitive(a, b, c);
  }

  lemma CloseRpcGraceful(s: State, c: Conn)
    requires Good(s) && c.transport.RpcStream?
    ensures Graceful(s, CloseRpc(s, c)) && Good(CloseRpc(s, c))
  {
    hide Good, Graceful, OnProviderClose;
    SameIsGraceful(s, s);
    if ConnOpen(s, c) {
      SameIsGraceful(s, EndSession(s, c));
      ProviderCloseGraceful(EndSession(s, c), c);
      Chain(s, EndSession(s, c), CloseRpc(s, c));
    }
  }

  lemma SendGraceful(s: State, c: Conn, breaks: bool)
    requires Good(s)
    ensures Graceful(s, Send(s, c, breaks)) && Good(Send(s, c, breaks))
  {
    hide Good, Graceful, CloseRpc;
    SameIsGraceful(s, s);
    if breaks && c.transport.RpcStream? {
      CloseRpcGraceful(s, c);
    }
  }

  lemma NotifyGraceful(s: State, provider: Option<Conn>, breaks: bool)
    requires Good(s)
    ensures Graceful(s, Notify(s, provider, breaks)) && Good(Notify(s, provider, breaks))
  {
    hide Good, Graceful, Send;
    SameIsGraceful(s, s);
    if provider.Some? {
      SendGraceful(s, provider.value, breaks);
    }
  }

  lemma CloseConnGraceful(s: State, c: Conn)
    requires Good(s)
    ensures Graceful(s, CloseConn(s, c)) && Good(CloseConn(s, c))
  {
    hide Good, Graceful, CloseRpc;
    if c.transport.RpcStream? {
      CloseRpcGraceful(s, c);
    } else {
      SameIsGraceful(s, CloseConn(s, c));
    }
  }

  lemma EvictGraceful(s: State, c: Conn)
    requires Good(s)
    ensures Graceful(s, Evict(s, c)) && Good(Evict(s, c))
  {
    hide Good, Graceful, Flush, CloseConn;
    if c.host in s.providers && s.providers[c.host] != c {
      var s1, was := Flush(s, c.host, Reconnected), s.providers[c.host];
      FlushGraceful(s, c.host, Reconnected);
      CloseConnGraceful(s1, was);
      Chain(s, s1, CloseConn(s1, was));
    } else {
      SameIsGraceful(s, s);
    }
  }

  lemma AttachGraceful(s: State, c: Conn)
    requires Good(s)
    ensures Graceful(s, Attach(s, c)) && Good(Attach(s, c))
  {
    hide Good, Graceful, Evict;
    var s1 := Evict(s, c);
    EvictGraceful(s, c);
    SameIsGraceful(s1, SetProvider(s1, c));
    Chain(s, s1, SetProvider(s1, c));
  }

  lemma TrackAttachGraceful(s: State, c: Conn)
    requires Good(s)
    ensures Graceful(s, Attach(Track(s, c), c)) && Good(Attach(Track(s, c), c))
  {
    hide Good, Graceful, Attach;
    SameIsGraceful(s, Track(s, c));
    AttachGraceful(Track(s, c), c);
    Chain(s, Track(s, c), Attach(Track(s, c), c));
  }

  lemma {:induction false} CloseSessionsGraceful(s: State, order: seq<SessionId>)
    requires Good(s)
    ensures Graceful(s, CloseSessions(s, order)) && Good(CloseSessions(s, order))
    decreases |order|
  {
    hide Good, Graceful, CloseRpc;
    SameIsGraceful(s, s);
    if order != [] {
      CloseSessionGraceful(s, order[0]);
      var s1 := CloseSession(s, order[0]);
      CloseSessionsGraceful(s1, order[1..]);
      Chain(s, s1, CloseSessions(s, order));
    }
  }

  lemma CloseSessionGraceful(s: State, sid: SessionId)
    requires Good(s)
    ensures Graceful(s, CloseSession(s, sid)) && Good(CloseSession(s, sid))
  {
    hide Good, Graceful, CloseRpc;
    SameIsGraceful(s, s);
    if sid in s.sessions && s.sessions[sid].transport.RpcStream? {
      CloseRpcGraceful(s, s.sessions[sid]);
    }
  }

  // ---------------------------------------------------------------------------
  // Losing a target
  // ---------------------------------------------------------------------------

  lemma UnregisterGraceful(s: State, h: Host, t: Target)
    requires Good(s)
    ensures Graceful(s, Unregister(s, h, t)) && Good(Unregister(s, h, t))
  {
    hide Good, Graceful;
    if RegisteredAt(s, t, h) {
      UnregisteredGraceful(s, h, t);
    } else {
      SameIsGraceful(s, s);
    }
  }

  lemma UnregisteredGraceful(s: State, h: Host, t: Target)
    requires Good(s) && RegisteredAt(s, t, h)
    ensures Graceful(s, Unregister(s, h, t)) && Good(Unregister(s, h, t))
  {
    hide Conserved, Graceful;
    var s' := Unregister(s, h, t);
    assert s'.socks == OrphanClients(s, t).socks;
    forall p | p in s.pending && SockOpen(s, p.frame.sock) && !SockOpen(s', p.frame.sock) ensures Hits(OfTarget(t), p) {
      DroppedSocks(s, {t}, p.frame.sock);
    }
    AnswerThenClose(s, OfTarget(t), Error(TargetClosed), s');
  }

  lemma CloseTargetGraceful(s: State, t: Target)
    requires Good(s)
    ensures Graceful(s, CloseTargetConnections(s, t)) && Good(CloseTargetConnections(s, t))
  {
    hide Conserved, Graceful;
    var s' := CloseTargetConnections(s, t);
    forall p | p in s.pending && SockOpen(s, p.frame.sock) && !SockOpen(s', p.frame.sock) ensures Hits(OfTarget(t), p) {
      DroppedSocks(s, {t}, p.frame.sock);
    }
    AnswerThenClose(s, OfTarget(t), Error(HostChanged), s');
  }

  lemma DetachGraceful(s: State, t: Target, h: Host, breaks: bool)
    requires Good(s)
    ensures Graceful(s, Detach(s, t, h, breaks)) && Good(Detach(s, t, h, breaks))
  {
    hide Good, Graceful, Notify;
    SameIsGraceful(s, s);
    if RegisteredAt(s, t, h) {
      var s1 := Notify(s, OpenProvider(s, h), breaks);
      NotifyGraceful(s, OpenProvider(s, h), breaks);
      SameIsGraceful(s1, Unlist(s1, t));
      Chain(s, s1, Unlist(s1, t));
    }
  }

  lemma LeaseGraceful(s: State, t: Target, next: Option<Host>, breaks: bool)
    requires Good(s)
    ensures Graceful(s, LeaseChanged(s, t, next, breaks)) && Good(LeaseChanged(s, t, next, breaks))
  {
    hide Good, Graceful, Detach, CloseTargetConnections;
    SameIsGraceful(s, s);
    var previous: Option<Host> := if t in s.lease then Some(s.lease[t]) else None;
    if previous != next {
      var s1 := if t in s.lease then Detach(s, t, s.lease[t], breaks) else s;
      if t in s.lease {
        DetachGraceful(s, t, s.lease[t], breaks);
      }
      var s2 := CloseTargetConnections(s1, t);
      CloseTargetGraceful(s1, t);
      Chain(s, s1, s2);
      SameIsGraceful(s2, SetLease(s2, t, next));
      Chain(s, s2, SetLease(s2, t, next));
    }
  }

  lemma StopGraceful(s: State)
    requires Good(s)
    ensures Graceful(s, Stop(s)) && Good(Stop(s))
  {
    hide Conserved, Graceful;
    AnswerThenClose(s, Everything, Error(ShuttingDown), Stop(s));
  }

  // ---------------------------------------------------------------------------
  // Every event
  // ---------------------------------------------------------------------------

  lemma RegisterGraceful(s: State, c: Conn, t: Target, r: Registration, known: bool, breaks: bool)
    requires Good(s)
    ensures Graceful(s, Register(s, c, t, r, known, breaks))
  {
    hide Good, Graceful, Send;
    SameIsGraceful(s, s);
    SameIsGraceful(s, List(s, t, r.(host := c.host)));
    SendGraceful(s, c, breaks);
  }

  lemma IssueGraceful(s: State, t: Target, resilient: bool, fate: Fate)
    requires Good(s)
    ensures Graceful(s, SendHostCommand(s, t, resilient, fate))
  {
    hide Good, Graceful, Send;
    SameIsGraceful(s, s);
    var provider := ProviderFor(s, t);
    if provider.Some? {
      var s1 := Issue(s, HostCommand(t, s.registry[t].host, resilient));
      SameIsGraceful(s, s1);
      SameIsGraceful(s, Settle(s1, CommandId(s.nextRequestId), Rejected(SendFailed)));
      SendGraceful(s1, provider.value, true);
      Chain(s, s1, Send(s1, provider.value, true));
    }
  }

  /** What a forwarded frame closes, if its send breaks the provider, is answered, the frame itself included. */
  lemma FrameGraceful(s: State, f: Frame, cdpMethod: string, fate: Fate)
    requires Good(s) && f.sock in s.socks && forall i :: 0 <= i < |s.pending| ==> s.pending[i].id < s.nextRequestId
    ensures var s' := ClientFrame(s, f, cdpMethod, fate);
      forall w :: SockOpen(s, w) ==> SockOpen(s', w) || AllAnswered(s', w)
  {
    hide AllAnswered, Good, Send, Graceful, ClientFrame, Enqueue;
    FrameCases(s, f, cdpMethod, fate);
    var provider := ProviderFor(s, f.sock.target);
    if provider.Some? {
      BrokenFrameGraceful(s, f, provider.value);
    }
  }

  /** A frame closes nothing unless its send breaks the provider. */
  lemma FrameCases(s: State, f: Frame, cdpMethod: string, fate: Fate)
    ensures var s', provider := ClientFrame(s, f, cdpMethod, fate), ProviderFor(s, f.sock.target);
      s'.socks == s.socks || (provider.Some? && s' == Send(Enqueue(s, f, provider.value), provider.value, true))
  {
    hide Send, ProviderFor, IsWorkspaceTarget, Respond, Receive, Enqueue, Dequeue;
    var provider := ProviderFor(s, f.sock.target);
    RespondedSocks(Receive(s, f), f, Error(NotConnected));
    RespondedSocks(Receive(s, f), f, Error(NavigationRefused));
    ReceivedSocks(s, f);
    if provider.Some? {
      var queued := Enqueue(s, f, provider.value);
      QueuedSocks(s, f, provider.value);
      DequeuedSocks(queued, s.nextRequestId);
      RespondedSocks(Dequeue(queued, s.nextRequestId), f, Error(SendFailed));
    }
  }

  lemma RespondedSocks(s: State, f: Frame, reply: Reply)
    ensures Respond(s, f, reply).socks == s.socks
  {
  }

  lemma ReceivedSocks(s: State, f: Frame)
    ensures Receive(s, f).socks == s.socks
  {
  }

  lemma QueuedSocks(s: State, f: Frame, c: Conn)
    ensures Enqueue(s, f, c).socks == s.socks
  {
  }

  lemma DequeuedSocks(s: State, id: nat)
    ensures Dequeue(s, id).socks == s.socks
  {
  }

  lemma BrokenFrameGraceful(s: State, f: Frame, c: Conn)
    requires Good(s) && f.sock in s.socks && forall i :: 0 <= i < |s.pending| ==> s.pending[i].id < s.nextRequestId
    ensures var s' := Send(Enqueue(s, f, c), c, true);
      forall w :: SockOpen(s, w) ==> SockOpen(s', w) || AllAnswered(s', w)
  {
    hide AllAnswered, Conserved, Send;
    EnqueueConserves(s, f, c);
    SendGraceful(Enqueue(s, f, c), c, true);
  }

  /** The last client's detach notice may break the provider; what that closes is answered. */
  lemma ClosedGraceful(s: State, w: Sock, breaks: bool)
    requires Good(s) && w in s.socks
    ensures var s' := ClientClosed(s, w, breaks);
      forall v :: v != w && SockOpen(s, v) ==> SockOpen(s', v) || AllAnswered(s', v)
  {
    hide Conserved, Notify, AllAnswered, Targeted;
    var s0 := MarkSock(s, w, Closed);
    ClosingConserves(s, s0);
    var s1 := RemoveClient(s0, w);
    ClosingConserves(s0, s1);
    RemovedTargeted(s, s0, s1, w);
    var s2 := ForgetClient(s0, w, breaks);
    if IsLastClient(s0, w) {
      NotifyGraceful(s1, ProviderFor(s1, w.target), breaks);
    }
    ClosedConserves(s, w, breaks);
    var s' := ClientClosed(s, w, breaks);
    forall v | v != w && SockOpen(s, v) ensures SockOpen(s', v) || AllAnswered(s', v) {
      if !SockOpen(s', v) {
        assert AllAnswered(s2, v);
        AnsweredStays(s2, s', v);
      }
    }
  }

  lemma RemovedTargeted(s: State, s0: State, s1: State, w: Sock)
    requires Targeted(s) && s0.clients == s.clients && s1.clients == RemoveClient(s0, w).clients
    ensures Targeted(s1)
  {
  }

  predicate ClientCloses(e: Event, w: Sock) {
    (e.ClientClosing? || e.ClientDown?) && e.sock == w
  }

  /** Whatever else happens, a socket is closed by the bridge only when all its frames have been answered. */
  lemma TeardownAnswersFirst(s: State, e: Event, w: Sock)
    requires Good(s) && forall i :: 0 <= i < |s.pending| ==> s.pending[i].id < s.nextRequestId
    requires SockOpen(s, w) && !SockOpen(Step(s, e), w) && !ClientCloses(e, w)
    ensures AllAnswered(Step(s, e), w)
  {
    hide Good, AllAnswered, Attach, Send, CloseSessions, CloseSession, Register, Unregister, ClientFrame, ClientClosed,
      LeaseChanged, SendHostCommand, Stop, OnProviderClose;
    match e
    case ProviderUp(c) => TrackAttachGraceful(s, c);
    case ProviderDown(c) =>
      SameIsGraceful(s, MarkConn(s, c, Closed));
      ProviderCloseGraceful(MarkConn(s, c, Closed), c);
    case SessionOpened(c, breaks) =>
      TrackAttachGraceful(s, c);
      var s1 := Attach(Track(s, c), c);
      SendGraceful(s1, c, breaks);
      Chain(s, s1, Send(s1, c, breaks));
    case SessionClosed(sid) => CloseSessionGraceful(s, sid);
    case ChannelStopped(order) =>
      CloseSessionsGraceful(s, order);
      SameIsGraceful(CloseSessions(s, order), StopChannel(s, order));
      Chain(s, CloseSessions(s, order), StopChannel(s, order));
    case Registers(c, t, r, known, breaks) => RegisterGraceful(s, c, t, r, known, breaks);
    case Unregisters(c, t) => UnregisterGraceful(s, c.host, t);
    case ClientSent(f, cdpMethod, fate) => FrameGraceful(s, f, cdpMethod, fate);
    case ClientDown(v, breaks) => ClosedGraceful(s, v, breaks);
    case LeaseMoved(t, next, breaks) => LeaseGraceful(s, t, next, breaks);
    case CommandIssued(t, resilient, fate) => IssueGraceful(s, t, resilient, fate);
    case BridgeStopped => StopGraceful(s);
    case _ =>
  }
}
