/**
 The relay's guarantees over whole runs.  `Inv` is kept by every event, with or
 without a lease resolver; the routing guarantee `Routed` is kept by exactly the
 events that do not steal a target, and with a resolver no event can.
 */
module CdpSafety {
  import opened Options
  import opened CdpRelay
  import opened CdpConservation
  import opened CdpRouting
  import opened CdpProgress

  // ---------------------------------------------------------------------------
  // Request ids and host commands
  // ---------------------------------------------------------------------------

  /** Ids are issued upwards, and a host command is pending or settled, never both. */
  ghost predicate Ordered(s: State) {
    && Sorted(s.pending)
    && (forall p :: p in s.pending ==> p.id < s.nextRequestId)
    && (forall id :: id in s.commands ==> id < s.nextRequestId && id !in s.settled)
    && (forall id :: id in s.settled ==> id < s.nextRequestId)
  }

  lemma WindsOrdered(s: State, s': State)
    requires Winds(s, s') && Ordered(s)
    ensures Ordered(s')
  {
  }

  // ---------------------------------------------------------------------------
  // Pins
  // ---------------------------------------------------------------------------

  /** Pin, unpin, pin, ... starting with a pin. */
  predicate Alternates(log: seq<bool>) {
    forall i :: 0 <= i < |log| ==> log[i] == (i % 2 == 0)
  }

  predicate PinnedNow(s: State, t: Target) {
    var log := PinLog(s, t);
    |log| > 0 && log[|log| - 1]
  }

  /**
   A target is pinned exactly while it has clients, or while an unregister has
   dropped its clients without the unpin; its pin calls alternate unless a client
   connected again in that second situation.
   */
  predicate PinsExact(s: State, t: Target) {
    && (PinnedNow(s, t) <==> t in s.clients || t in s.leaked)
    && !(t in s.clients && t in s.leaked)
    && (Alternates(PinLog(s, t)) <==> t !in s.repinned)
  }

  ghost predicate ClientsTracked(s: State) {
    forall t :: t in s.clients ==>
      && s.clients[t] != {}
      && (forall w :: w in s.clients[t] ==> w.target == t && w in s.socks && s.socks[w] != Closed)
  }

  ghost predicate Pinned(s: State) {
    ClientsTracked(s) && forall t :: PinsExact(s, t)
  }

  /** Appending the opposite of the last call keeps the alternation; repeating it breaks it. */
  lemma AlternatesAppend(log: seq<bool>, pin: bool)
    ensures Alternates(log + [pin]) <==> Alternates(log) && (pin <==> !(|log| > 0 && log[|log| - 1]))
  {
    if Alternates(log + [pin]) {
      forall i | 0 <= i < |log| ensures log[i] == (i % 2 == 0) {
        assert (log + [pin])[i] == log[i];
      }
      assert (log + [pin])[|log|] == pin;
    }
  }

  lemma WindsPinned(s: State, s': State)
    requires Winds(s, s') && Pinned(s)
    ensures Pinned(s')
  {
    hide PendingWinds, CommandsWind;
    forall t ensures PinsExact(s', t) {
      assert PinsExact(s, t) && TargetWinds(s, s', t);
      AlternatesAppend(PinLog(s, t), false);
    }
    forall t | t in s'.clients
      ensures s'.clients[t] != {}
      ensures forall w :: w in s'.clients[t] ==> w.target == t && w in s'.socks && s'.socks[w] != Closed
    {
      assert TargetWinds(s, s', t);
    }
  }

  lemma ConnectedPinned(s: State, w: Sock)
    requires Pinned(s) && w !in s.socks
    ensures Pinned(ClientConnected(s, w))
  {
    hide ProviderFor, PinsExact, AddClient;
    if ProviderFor(s, w.target).Some? {
      AddedTracked(s, w);
      forall t ensures PinsExact(AddClient(s, w), t) {
        assert PinsExact(s, t);
        AddedPins(s, w, t);
      }
    }
  }

  lemma AddedTracked(s: State, w: Sock)
    requires ClientsTracked(s) && w !in s.socks
    ensures ClientsTracked(AddClient(s, w))
  {
    hide PinLog, IsFirstClient;
  }

  lemma AddedPins(s: State, w: Sock, t: Target)
    requires ClientsTracked(s) && PinsExact(s, t)
    ensures PinsExact(AddClient(s, w), t)
  {
    hide Alternates;
    AlternatesAppend(PinLog(s, t), true);
  }

  lemma RemovedPinned(s: State, w: Sock)
    requires Pinned(s) && w in s.socks
    ensures Pinned(RemoveClient(MarkSock(s, w, Closed), w))
  {
    var s' := RemoveClient(MarkSock(s, w, Closed), w);
    forall t ensures PinsExact(s', t) {
      assert PinsExact(s, t);
      AlternatesAppend(PinLog(s, t), false);
    }
  }

  lemma OrphanedPinned(s: State, t: Target)
    requires Pinned(s)
    ensures Pinned(OrphanClients(s, t))
  {
    var s' := OrphanClients(s, t);
    forall u ensures PinsExact(s', u) {
      assert PinsExact(s, u);
    }
  }

  // ---------------------------------------------------------------------------
  // The invariant
  // ---------------------------------------------------------------------------

  ghost predicate Inv(s: State) {
    Conserved(s) && Healthy(s, {}) && Ordered(s) && Pinned(s)
  }

  /** The event is a registration that takes over a target with pending commands. */
  predicate StealsIn(s: State, e: Event) {
    e.Registers? && Enabled(s, e) && Steals(s, e.conn, e.target, e.known)
  }

  // ---------------------------------------------------------------------------
  // Every event adds a little and then winds down
  // ---------------------------------------------------------------------------

  predicate Forwards(s: State, f: Frame, cdpMethod: string) {
    && ProviderFor(s, f.sock.target).Some?
    && !(IsWorkspaceTarget(s, f.sock.target) && cdpMethod in NAVIGATION_METHODS)
  }

  /** What an event adds: at most one pending command, host command or client, or one dropped pin. */
  function Addition(s: State, e: Event): State {
    match e
    case Unregisters(c, t) => if RegisteredAt(s, t, c.host) then OrphanClients(s, t) else s
    case ClientUp(w) => ClientConnected(s, w)
    case ClientSent(f, cdpMethod, _) => FrameAddition(s, f, cdpMethod)
    case ClientClosing(w) => MarkSock(s, w, Closing)
    case ClientDown(w, _) => RemoveClient(MarkSock(s, w, Closed), w)
    case CommandIssued(t, resilient, _) => CommandAddition(s, t, resilient)
    case _ => s
  }

  function FrameAddition(s: State, f: Frame, cdpMethod: string): State {
    if Forwards(s, f, cdpMethod) then Enqueue(s, f, ProviderFor(s, f.sock.target).value) else s
  }

  function CommandAddition(s: State, t: Target, resilient: bool): State {
    if ProviderFor(s, t).Some? then Issue(s, HostCommand(t, s.registry[t].host, resilient)) else s
  }

  /** The events that add nothing. */
  predicate OnlyWinds(e: Event) {
    !e.Unregisters? && !e.ClientUp? && !e.ClientSent? && !e.ClientClosing? && !e.ClientDown? && !e.CommandIssued?
  }

  lemma HandleWinds(s: State, e: Event)
    requires Enabled(s, e) && OnlyWinds(e)
    ensures Winds(s, Handle(s, e))
  {
    hide Winds, Attach, Send, OnProviderClose, CloseSession, CloseSessions, Register, LeaseChanged, Stop;
    SameWinds(s, s);
    match e
    case ProviderUp(c) => AttachWinds(s, c);
    case ProviderClosing(c) => SameWinds(s, MarkConn(s, c, Closing));
    case ProviderDown(c) =>
      SameWinds(s, MarkConn(s, c, Closed));
      ProviderCloseWinds(MarkConn(s, c, Closed), c);
      WindsTransitive(s, MarkConn(s, c, Closed), OnProviderClose(MarkConn(s, c, Closed), c));
    case SessionOpened(c, breaks) =>
      var s1 := Attach(Track(s, c), c);
      AttachWinds(s, c);
      SendWinds(s1, c, breaks);
      WindsTransitive(s, s1, Send(s1, c, breaks));
    case SessionClosed(sid) => CloseSessionWinds(s, sid);
    case ChannelStopped(order) =>
      CloseSessionsWind(s, order);
      SameWinds(CloseSessions(s, order), StopChannel(s, order));
      WindsTransitive(s, CloseSessions(s, order), StopChannel(s, order));
    case Registers(c, t, r, known, breaks) => RegisterWinds(s, c, t, r, known, breaks);
    case Replied(c, id, reply) => AnswerWinds(s, OfId(id), reply);
    case CommandReplied(c, id, outcome, _) => SettleWinds(s, CommandId(id), outcome);
    case LeaseMoved(t, next, breaks) => LeaseWinds(s, t, next, breaks);
    case CommandTimedOut(id) => SettleWinds(s, CommandId(id), Rejected(TimedOut));
    case BridgeStopped => StopWinds(s);
  }

  lemma UnregisterWinds(s: State, h: Host, t: Target)
    requires RegisteredAt(s, t, h)
    ensures Winds(OrphanClients(s, t), Unregister(s, h, t))
  {
    hide Winds;
    var s0 := OrphanClients(s, t);
    var s1 := AnswerWhere(s0, OfTarget(t), Error(TargetClosed));
    var s2 := Settle(s1, AimedAt({t}, true), Rejected(TargetClosed));
    AnswerWinds(s0, OfTarget(t), Error(TargetClosed));
    SettleWinds(s1, AimedAt({t}, true), Rejected(TargetClosed));
    WindsTransitive(s0, s1, s2);
    SameWinds(s2, Unregister(s, h, t));
    WindsTransitive(s0, s2, Unregister(s, h, t));
  }

  lemma RejectWinds(s: State, s': State, scope: Scope)
    requires s' == s.(pending := Reject(scope, s.pending), answers := s'.answers)
    ensures Winds(s, s')
  {
    hide Winds;
    var s1 := AnswerWhere(s, scope, Result);
    AnswerWinds(s, scope, Result);
    SameWinds(s1, s');
    WindsTransitive(s, s1, s');
  }

  lemma ForwardWinds(s: State, f: Frame, c: Conn, fate: Fate)
    ensures Winds(Enqueue(s, f, c), Forward(s, f, c, fate))
  {
    hide Winds, Send;
    var s1 := Enqueue(s, f, c);
    match fate
    case Delivered => SameWinds(s1, s1);
    case Throws => RejectWinds(s1, Forward(s, f, c, fate), OfId(s.nextRequestId));
    case Breaks => SendWinds(s1, c, true);
  }

  lemma RefusedWinds(s: State, f: Frame, reply: Reply)
    ensures Winds(s, Respond(Receive(s, f), f, reply))
  {
    hide Winds;
    SameWinds(s, Respond(Receive(s, f), f, reply));
  }

  lemma FrameWinds(s: State, f: Frame, cdpMethod: string, fate: Fate)
    ensures Winds(FrameAddition(s, f, cdpMethod), ClientFrame(s, f, cdpMethod, fate))
  {
    hide Winds, Forward, ProviderFor, IsWorkspaceTarget, Respond, Receive, Enqueue;
    RefusedWinds(s, f, Error(NotConnected));
    RefusedWinds(s, f, Error(NavigationRefused));
    if ProviderFor(s, f.sock.target).Some? {
      ForwardWinds(s, f, ProviderFor(s, f.sock.target).value, fate);
    }
  }

  lemma ClosedWinds(s: State, w: Sock, breaks: bool)
    ensures Winds(RemoveClient(MarkSock(s, w, Closed), w), ClientClosed(s, w, breaks))
  {
    hide Winds, Notify, RemoveClient;
    var s1 := RemoveClient(MarkSock(s, w, Closed), w);
    var s2 := ForgetClient(MarkSock(s, w, Closed), w, breaks);
    SameWinds(s1, s1);
    NotifyWinds(s1, ProviderFor(s1, w.target), breaks);
    assert Winds(s1, s2);
    RejectWinds(s2, PurgeSock(s2, w), OfSock(w));
    WindsTransitive(s1, s2, PurgeSock(s2, w));
  }

  lemma IssueWinds(s: State, t: Target, resilient: bool, fate: Fate)
    ensures Winds(CommandAddition(s, t, resilient), SendHostCommand(s, t, resilient, fate))
  {
    hide Winds, Send, Settle;
    SameWinds(s, s);
    if ProviderFor(s, t).Some? {
      var s1 := Issue(s, HostCommand(t, s.registry[t].host, resilient));
      SameWinds(s1, s1);
      SettleWinds(s1, CommandId(s.nextRequestId), Rejected(SendFailed));
      SendWinds(s1, ProviderFor(s, t).value, true);
    }
  }

  /** The decomposition: what an event does to the three tables is its addition, then removals. */
  lemma AdditionThenWinds(s: State, e: Event)
    requires Enabled(s, e)
    ensures Winds(Addition(s, e), Handle(s, e))
  {
    hide Winds, Unregister, OrphanClients, ClientConnected, ClientFrame, ClientClosed, SendHostCommand, MarkSock,
      RemoveClient, FrameAddition, CommandAddition;
    SameWinds(s, s);
    match e
    case Unregisters(c, t) =>
      UnregisterElsewhere(s, c.host, t);
      if RegisteredAt(s, t, c.host) {
        UnregisterWinds(s, c.host, t);
      }
    case ClientUp(w) => SameWinds(ClientConnected(s, w), ClientConnected(s, w));
    case ClientSent(f, cdpMethod, fate) => FrameWinds(s, f, cdpMethod, fate);
    case ClientClosing(w) => SameWinds(MarkSock(s, w, Closing), MarkSock(s, w, Closing));
    case ClientDown(w, breaks) => ClosedWinds(s, w, breaks);
    case CommandIssued(t, resilient, fate) => IssueWinds(s, t, resilient, fate);
    case _ => HandleWinds(s, e);
  }

  lemma UnregisterElsewhere(s: State, h: Host, t: Target)
    ensures !RegisteredAt(s, t, h) ==> Unregister(s, h, t) == s
  {
  }

  // ---------------------------------------------------------------------------
  // Additions keep the tables in order
  // ---------------------------------------------------------------------------

  lemma AdditionOrdered(s: State, e: Event)
    requires Ordered(s)
    ensures Ordered(Addition(s, e))
  {
    assert forall i :: 0 <= i < |s.pending| ==> s.pending[i] in s.pending;
  }

  /** The pin tables after a step that leaves them alone. */
  lemma SamePinned(s: State, s': State)
    requires Pinned(s)
    requires s'.clients == s.clients && s'.pins == s.pins && s'.leaked == s.leaked && s'.repinned == s.repinned
    requires s'.socks == s.socks
    ensures Pinned(s')
  {
    forall t ensures PinsExact(s', t) {
      assert PinsExact(s, t);
    }
  }

  lemma ClosingPinned(s: State, w: Sock)
    requires Pinned(s) && SockOpen(s, w)
    ensures Pinned(MarkSock(s, w, Closing))
  {
    forall t ensures PinsExact(MarkSock(s, w, Closing), t) {
      assert PinsExact(s, t);
    }
  }

  lemma QueuedPinned(s: State, f: Frame, cdpMethod: string)
    requires Pinned(s)
    ensures Pinned(FrameAddition(s, f, cdpMethod))
  {
    hide Pinned, ProviderFor;
    if Forwards(s, f, cdpMethod) {
      SamePinned(s, Enqueue(s, f, ProviderFor(s, f.sock.target).value));
    }
  }

  lemma IssuedPinned(s: State, t: Target, resilient: bool)
    requires Pinned(s)
    ensures Pinned(CommandAddition(s, t, resilient))
  {
    hide Pinned;
    if ProviderFor(s, t).Some? {
      SamePinned(s, Issue(s, HostCommand(t, s.registry[t].host, resilient)));
    }
  }

  lemma AdditionPinned(s: State, e: Event)
    requires Pinned(s) && Enabled(s, e)
    ensures Pinned(Addition(s, e))
  {
    hide Pinned, FrameAddition, CommandAddition, OrphanClients, ClientConnected, RemoveClient, MarkSock;
    match e
    case Unregisters(c, t) => OrphanedPinned(s, t);
    case ClientUp(w) => ConnectedPinned(s, w);
    case ClientSent(f, cdpMethod, _) => QueuedPinned(s, f, cdpMethod);
    case ClientClosing(w) => ClosingPinned(s, w);
    case ClientDown(w, _) => RemovedPinned(s, w);
    case CommandIssued(t, resilient, _) => IssuedPinned(s, t, resilient);
    case _ =>
  }

  lemma StepTables(s: State, e: Event)
    requires Ordered(s) && Pinned(s)
    ensures Ordered(Step(s, e)) && Pinned(Step(s, e))
  {
    hide Ordered, Pinned, Winds, Handle, Addition;
    if Enabled(s, e) {
      AdditionOrdered(s, e);
      AdditionPinned(s, e);
      AdditionThenWinds(s, e);
      WindsOrdered(Addition(s, e), Handle(s, e));
      WindsPinned(Addition(s, e), Handle(s, e));
    }
  }
}
