/**
 One answer per command.  For every run of the relay and every client frame on a
 socket that is still open, the frames received equal the answers sent plus the
 commands pending; on any socket, closed or not, a frame is never answered twice.
 */
module CdpConservation {
  import opened Options
  import opened CdpRelay

  /** How many elements of a list are about a frame. */
  function Count<T>(xs: seq<T>, about: T -> Frame, f: Frame): nat {
    if xs == [] then 0 else (if about(xs[0]) == f then 1 else 0) + Count(xs[1..], about, f)
  }

  function Itself(f: Frame): Frame {
    f
  }

  function Answered(a: Answer): Frame {
    a.frame
  }

  function Asked(p: Pending): Frame {
    p.frame
  }

  function FrameCount(fs: seq<Frame>, f: Frame): nat {
    Count(fs, Itself, f)
  }

  function AnswerCount(xs: seq<Answer>, f: Frame): nat {
    Count(xs, Answered, f)
  }

  function PendingCount(ps: seq<Pending>, f: Frame): nat {
    Count(ps, Asked, f)
  }

  predicate Balanced(s: State, f: Frame) {
    var received := FrameCount(s.frames, f);
    var accounted := AnswerCount(s.answers, f) + PendingCount(s.pending, f);
    && accounted <= received
    && (SockOpen(s, f.sock) ==> accounted == received)
    && (f.sock !in s.socks ==> received == 0)
  }

  ghost predicate Conserved(s: State) {
    forall f: Frame :: Balanced(s, f)
  }

  lemma {:induction false} CountAppend<T>(a: seq<T>, b: seq<T>, about: T -> Frame, f: Frame)
    ensures Count(a + b, about, f) == Count(a, about, f) + Count(b, about, f)
  {
    if a == [] {
      assert a + b == b;
    } else {
      assert (a + b)[1..] == a[1..] + b;
      CountAppend(a[1..], b, about, f);
    }
  }

  /** Removing a scope splits the pending commands into two parts and loses none. */
  lemma {:induction false} PendingCountSplit(scope: Scope, ps: seq<Pending>, f: Frame)
    ensures PendingCount(ps, f) == PendingCount(Select(scope, ps), f) + PendingCount(Reject(scope, ps), f)
  {
    if ps != [] {
      PendingCountSplit(scope, ps[1..], f);
      var head := if Hits(scope, ps[0]) then [ps[0]] else [];
      var rest := if Hits(scope, ps[0]) then [] else [ps[0]];
      CountAppend(head, Select(scope, ps[1..]), Asked, f);
      CountAppend(rest, Reject(scope, ps[1..]), Asked, f);
    }
  }

  lemma {:induction false} ReplyCount(socks: map<Sock, ReadyState>, ps: seq<Pending>, reply: Reply, f: Frame)
    ensures AnswerCount(Replies(socks, ps, reply), f)
         == if f.sock in socks && socks[f.sock] == Open then PendingCount(ps, f) else 0
  {
    if ps != [] {
      ReplyCount(socks, ps[1..], reply, f);
      var head := if ps[0].frame.sock in socks && socks[ps[0].frame.sock] == Open
                  then [Answer(ps[0].frame, reply)] else [];
      CountAppend(head, Replies(socks, ps[1..], reply), Answered, f);
    }
  }

  // ---------------------------------------------------------------------------
  // Primitives
  // ---------------------------------------------------------------------------

  lemma AnswerWhereConserves(s: State, scope: Scope, reply: Reply)
    requires Conserved(s)
    ensures Conserved(AnswerWhere(s, scope, reply))
  {
    var s' := AnswerWhere(s, scope, reply);
    forall f: Frame ensures Balanced(s', f) {
      assert Balanced(s, f);
      PendingCountSplit(scope, s.pending, f);
      ReplyCount(s.socks, Select(scope, s.pending), reply, f);
      CountAppend(s.answers, Replies(s.socks, Select(scope, s.pending), reply), Answered, f);
    }
  }

  /** Closing sockets can only weaken what is owed. */
  lemma ClosingConserves(s: State, s': State)
    requires Conserved(s)
    requires s'.frames == s.frames && s'.answers == s.answers && s'.pending == s.pending
    requires s'.socks.Keys == s.socks.Keys
    requires forall w :: SockOpen(s', w) ==> SockOpen(s, w)
    ensures Conserved(s')
  {
    forall f: Frame ensures Balanced(s', f) {
      assert Balanced(s, f);
      assert SockOpen(s', f.sock) ==> SockOpen(s, f.sock);
    }
  }

  lemma SettleConserves(s: State, scope: CommandScope, outcome: Outcome)
    requires Conserved(s)
    ensures Conserved(Settle(s, scope, outcome))
  {
    ClosingConserves(s, Settle(s, scope, outcome));
  }

  lemma DropConserves(s: State, ts: set<Target>)
    requires Conserved(s)
    ensures Conserved(DropClients(s, ts))
  {
    ClosingConserves(s, DropClients(s, ts));
  }

  lemma FlushConserves(s: State, h: Host, reason: Reason)
    requires Conserved(s)
    ensures Conserved(Flush(s, h, reason))
  {
    var s1 := Settle(s, IssuedTo(h), Rejected(reason));
    SettleConserves(s, IssuedTo(h), Rejected(reason));
    var s2 := AnswerWhere(s1, OfHost(h, s.registry), Error(reason));
    AnswerWhereConserves(s1, OfHost(h, s.registry), Error(reason));
    SettleConserves(s2, AimedAt(TargetsAt(s, h), false), Rejected(reason));
    DropConserves(Settle(s2, AimedAt(TargetsAt(s, h), false), Rejected(reason)), TargetsAt(s, h));
  }

  lemma ProviderCloseConserves(s: State, c: Conn)
    requires Conserved(s)
    ensures Conserved(OnProviderClose(s, c))
  {
    if IsCurrent(s, c) {
      var s1 := RemoveProvider(s, c.host);
      ClosingConserves(s, s1);
      FlushConserves(s1, c.host, Disconnected);
      ClosingConserves(Flush(s1, c.host, Disconnected), OnProviderClose(s, c));
    }
  }

  lemma CloseRpcConserves(s: State, c: Conn)
    requires Conserved(s) && c.transport.RpcStream?
    ensures Conserved(CloseRpc(s, c))
  {
    if ConnOpen(s, c) {
      ClosingConserves(s, EndSession(s, c));
      ProviderCloseConserves(EndSession(s, c), c);
    }
  }

  lemma SendConserves(s: State, c: Conn, breaks: bool)
    requires Conserved(s)
    ensures Conserved(Send(s, c, breaks))
  {
    if breaks && c.transport.RpcStream? {
      CloseRpcConserves(s, c);
    }
  }

  lemma CloseConnConserves(s: State, c: Conn)
    requires Conserved(s)
    ensures Conserved(CloseConn(s, c))
  {
    if c.transport.RpcStream? {
      CloseRpcConserves(s, c);
    } else {
      ClosingConserves(s, CloseConn(s, c));
    }
  }

  // ---------------------------------------------------------------------------
  // Handlers
  // ---------------------------------------------------------------------------

  lemma AttachConserves(s: State, c: Conn)
    requires Conserved(s)
    ensures Conserved(Attach(s, c))
  {
    if c.host in s.providers && s.providers[c.host] != c {
      FlushConserves(s, c.host, Reconnected);
      CloseConnConserves(Flush(s, c.host, Reconnected), s.providers[c.host]);
    }
    ClosingConserves(Evict(s, c), Attach(s, c));
  }

  lemma CloseSessionConserves(s: State, sid: SessionId)
    requires Conserved(s)
    ensures Conserved(CloseSession(s, sid))
  {
    if sid in s.sessions && s.sessions[sid].transport.RpcStream? {
      CloseRpcConserves(s, s.sessions[sid]);
    }
  }

  lemma {:induction false} CloseSessionsConserves(s: State, order: seq<SessionId>)
    requires Conserved(s)
    ensures Conserved(CloseSessions(s, order))
    decreases |order|
  {
    if order != [] {
      CloseSessionConserves(s, order[0]);
      CloseSessionsConserves(CloseSession(s, order[0]), order[1..]);
    }
  }

  lemma UnregisterConserves(s: State, h: Host, t: Target)
    requires Conserved(s)
    ensures Conserved(Unregister(s, h, t))
  {
    if RegisteredAt(s, t, h) {
      var s1 := Unlist(s, t);
      ClosingConserves(s, s1);
      AnswerWhereConserves(s1, OfTarget(t), Error(TargetClosed));
      ClosingConserves(AnswerWhere(s1, OfTarget(t), Error(TargetClosed)), Unregister(s, h, t));
    }
  }

  lemma ConnectedConserves(s: State, w: Sock)
    requires Conserved(s) && w !in s.socks
    ensures Conserved(ClientConnected(s, w))
  {
    var s' := ClientConnected(s, w);
    forall f: Frame ensures Balanced(s', f) {
      assert Balanced(s, f);
    }
  }

  /** Receiving a frame adds one to the received side and, in the same step, one to the other. */
  lemma RespondConserves(s: State, f: Frame, reply: Reply)
    requires Conserved(s) && f.sock in s.socks
    ensures Conserved(Respond(Receive(s, f), f, reply))
  {
    var s' := Respond(Receive(s, f), f, reply);
    forall g: Frame ensures Balanced(s', g) {
      assert Balanced(s, g);
      CountAppend(s.frames, [f], Itself, g);
      assert FrameCount([f], g) == if f == g then 1 else 0;
      var sent := if SockOpen(s, f.sock) then [Answer(f, reply)] else [];
      CountAppend(s.answers, sent, Answered, g);
      assert AnswerCount(sent, g) == if SockOpen(s, f.sock) && f == g then 1 else 0;
    }
  }

  lemma EnqueueConserves(s: State, f: Frame, c: Conn)
    requires Conserved(s) && f.sock in s.socks
    ensures Conserved(Enqueue(s, f, c))
  {
    forall g: Frame ensures Balanced(Enqueue(s, f, c), g) {
      assert Balanced(s, g);
      CountAppend(s.frames, [f], Itself, g);
      CountAppend(s.pending, [Pending(s.nextRequestId, f)], Asked, g);
    }
  }

  /** An id above every pending one removes exactly the entry that was just appended. */
  lemma {:induction false} RejectFresh(ps: seq<Pending>, p: Pending)
    requires forall i :: 0 <= i < |ps| ==> ps[i].id < p.id
    ensures Reject(OfId(p.id), ps + [p]) == ps
  {
    if ps == [] {
      assert ps + [p] == [p];
      assert Reject(OfId(p.id), [p][1..]) == [];
    } else {
      assert (ps + [p])[1..] == ps[1..] + [p];
      RejectFresh(ps[1..], p);
    }
  }

  lemma ForwardConserves(s: State, f: Frame, c: Conn, fate: Fate)
    requires Conserved(s) && f.sock in s.socks
    requires forall i :: 0 <= i < |s.pending| ==> s.pending[i].id < s.nextRequestId
    ensures Conserved(Forward(s, f, c, fate))
  {
    hide Send, Balanced;
    match fate
    case Delivered => EnqueueConserves(s, f, c);
    case Throws =>
      RespondConserves(s, f, Error(SendFailed));
      RejectFresh(s.pending, Pending(s.nextRequestId, f));
      ClosingConserves(Respond(Receive(s, f), f, Error(SendFailed)), Forward(s, f, c, fate));
    case Breaks =>
      EnqueueConserves(s, f, c);
      SendConserves(Enqueue(s, f, c), c, true);
  }

  lemma FrameConserves(s: State, f: Frame, cdpMethod: string, fate: Fate)
    requires Conserved(s) && f.sock in s.socks
    requires forall i :: 0 <= i < |s.pending| ==> s.pending[i].id < s.nextRequestId
    ensures Conserved(ClientFrame(s, f, cdpMethod, fate))
  {
    hide Forward, Balanced;
    var provider := ProviderFor(s, f.sock.target);
    if provider == None {
      RespondConserves(s, f, Error(NotConnected));
    } else if IsWorkspaceTarget(s, f.sock.target) && cdpMethod in NAVIGATION_METHODS {
      RespondConserves(s, f, Error(NavigationRefused));
    } else {
      ForwardConserves(s, f, provider.value, fate);
    }
  }

  lemma {:induction false} RejectSockCount(w: Sock, ps: seq<Pending>, f: Frame)
    ensures PendingCount(Reject(OfSock(w), ps), f) == if f.sock == w then 0 else PendingCount(ps, f)
  {
    if ps != [] {
      RejectSockCount(w, ps[1..], f);
      var head := if Hits(OfSock(w), ps[0]) then [] else [ps[0]];
      CountAppend(head, Reject(OfSock(w), ps[1..]), Asked, f);
    }
  }

  lemma NotifyConserves(s: State, provider: Option<Conn>, breaks: bool)
    requires Conserved(s)
    ensures Conserved(Notify(s, provider, breaks))
  {
    if provider.Some? {
      SendConserves(s, provider.value, breaks);
    }
  }

  lemma ForgetConserves(s: State, w: Sock, breaks: bool)
    requires Conserved(s)
    ensures Conserved(ForgetClient(s, w, breaks))
  {
    hide Notify, Balanced;
    var s1 := RemoveClient(s, w);
    ClosingConserves(s, s1);
    NotifyConserves(s1, ProviderFor(s1, w.target), breaks);
  }

  /** Nothing a provider's loss does reopens a socket. */
  lemma ProviderCloseKeepsClosed(s: State, c: Conn, w: Sock)
    requires w in s.socks && s.socks[w] == Closed
    ensures w in OnProviderClose(s, c).socks && OnProviderClose(s, c).socks[w] == Closed
  {
  }

  lemma NotifyKeepsClosed(s: State, provider: Option<Conn>, breaks: bool, w: Sock)
    requires w in s.socks && s.socks[w] == Closed
    ensures w in Notify(s, provider, breaks).socks && Notify(s, provider, breaks).socks[w] == Closed
  {
    if provider.Some? && breaks && provider.value.transport.RpcStream? && ConnOpen(s, provider.value) {
      ProviderCloseKeepsClosed(EndSession(s, provider.value), provider.value, w);
    }
  }

  lemma PurgeConserves(s: State, w: Sock)
    requires Conserved(s) && w in s.socks && s.socks[w] == Closed
    ensures Conserved(PurgeSock(s, w))
  {
    forall f: Frame ensures Balanced(PurgeSock(s, w), f) {
      assert Balanced(s, f);
      RejectSockCount(w, s.pending, f);
    }
  }

  lemma ClosedConserves(s: State, w: Sock, breaks: bool)
    requires Conserved(s) && w in s.socks
    ensures Conserved(ClientClosed(s, w, breaks))
  {
    hide Notify, Balanced;
    var s0 := MarkSock(s, w, Closed);
    ClosingConserves(s, s0);
    ForgetConserves(s0, w, breaks);
    var s1 := RemoveClient(s0, w);
    NotifyKeepsClosed(s1, ProviderFor(s1, w.target), breaks, w);
    PurgeConserves(ForgetClient(s0, w, breaks), w);
  }

  lemma TeardownConserves(s: State, t: Target, next: Option<Host>)
    requires Conserved(s)
    ensures Conserved(SetLease(CloseTargetConnections(s, t), t, next))
  {
    AnswerWhereConserves(s, OfTarget(t), Error(HostChanged));
    ClosingConserves(AnswerWhere(s, OfTarget(t), Error(HostChanged)),
                     SetLease(CloseTargetConnections(s, t), t, next));
  }

  lemma DetachConserves(s: State, t: Target, h: Host, breaks: bool)
    requires Conserved(s)
    ensures Conserved(Detach(s, t, h, breaks))
  {
    if RegisteredAt(s, t, h) {
      NotifyConserves(s, OpenProvider(s, h), breaks);
      ClosingConserves(Notify(s, OpenProvider(s, h), breaks), Detach(s, t, h, breaks));
    }
  }

  lemma LeaseConserves(s: State, t: Target, next: Option<Host>, breaks: bool)
    requires Conserved(s)
    ensures Conserved(LeaseChanged(s, t, next, breaks))
  {
    if t in s.lease {
      DetachConserves(s, t, s.lease[t], breaks);
      TeardownConserves(Detach(s, t, s.lease[t], breaks), t, next);
    } else {
      TeardownConserves(s, t, next);
    }
  }

  lemma IssueConserves(s: State, t: Target, resilient: bool, fate: Fate)
    requires Conserved(s)
    ensures Conserved(SendHostCommand(s, t, resilient, fate))
  {
    var provider := ProviderFor(s, t);
    if provider != None {
      var s1 := Issue(s, HostCommand(t, s.registry[t].host, resilient));
      ClosingConserves(s, s1);
      SettleConserves(s1, CommandId(s.nextRequestId), Rejected(SendFailed));
      SendConserves(s1, provider.value, true);
    }
  }

  lemma StopConserves(s: State)
    requires Conserved(s)
    ensures Conserved(Stop(s))
  {
    var s1 := Settle(s, AllCommands, Rejected(ShuttingDown));
    SettleConserves(s, AllCommands, Rejected(ShuttingDown));
    AnswerWhereConserves(s1, Everything, Error(ShuttingDown));
    ClosingConserves(AnswerWhere(s1, Everything, Error(ShuttingDown)), Stop(s));
  }

  /** Every event keeps the balance. */
  lemma StepConserves(s: State, e: Event)
    requires Conserved(s)
    requires forall i :: 0 <= i < |s.pending| ==> s.pending[i].id < s.nextRequestId
    ensures Conserved(Step(s, e))
  {
    hide Conserved, Attach, Send, CloseSession, CloseSessions, Unregister, ClientFrame, ClientClosed, ClientConnected,
      LeaseChanged, SendHostCommand, Stop, OnProviderClose, AnswerWhere, Settle;
    if Enabled(s, e) {
      match e
      case ProviderUp(c) =>
        ClosingConserves(s, Track(s, c));
        AttachConserves(Track(s, c), c);
      case ProviderClosing(c) => ClosingConserves(s, Step(s, e));
      case ProviderDown(c) =>
        ClosingConserves(s, MarkConn(s, c, Closed));
        ProviderCloseConserves(MarkConn(s, c, Closed), c);
      case SessionOpened(c, breaks) =>
        ClosingConserves(s, Track(s, c));
        AttachConserves(Track(s, c), c);
        SendConserves(Attach(Track(s, c), c), c, breaks);
      case SessionClosed(sid) => CloseSessionConserves(s, sid);
      case ChannelStopped(order) =>
        CloseSessionsConserves(s, order);
        ClosingConserves(CloseSessions(s, order), Step(s, e));
      case Registers(c, t, r, known, breaks) =>
        ClosingConserves(s, List(s, t, r.(host := c.host)));
        SendConserves(s, c, breaks);
      case Unregisters(c, t) => UnregisterConserves(s, c.host, t);
      case Replied(c, id, reply) => AnswerWhereConserves(s, OfId(id), reply);
      case CommandReplied(c, id, outcome, _) => SettleConserves(s, CommandId(id), outcome);
      case ClientUp(w) => ConnectedConserves(s, w);
      case ClientSent(f, cdpMethod, fate) => FrameConserves(s, f, cdpMethod, fate);
      case ClientClosing(w) => ClosingConserves(s, Step(s, e));
      case ClientDown(w, breaks) => ClosedConserves(s, w, breaks);
      case LeaseMoved(t, next, breaks) => LeaseConserves(s, t, next, breaks);
      case CommandIssued(t, resilient, fate) => IssueConserves(s, t, resilient, fate);
      case CommandTimedOut(id) => SettleConserves(s, CommandId(id), Rejected(TimedOut));
      case BridgeStopped => StopConserves(s);
    }
  }
}
