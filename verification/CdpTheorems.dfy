/** The relay's guarantees, stated over whole runs, with the runs that show their limits. */
module CdpTheorems {
  import opened Options
  import opened CdpRelay
  import opened CdpConservation
  import opened CdpRouting
  import opened CdpProgress
  import opened CdpSafety
  import opened CdpTeardown

  // ---------------------------------------------------------------------------
  // One step
  // ---------------------------------------------------------------------------

  /** The events that change which connection serves which host. */
  predicate IsProviderEvent(e: Event) {
    e.ProviderUp? || e.ProviderClosing? || e.ProviderDown? || e.SessionOpened? || e.SessionClosed? || e.ChannelStopped?
  }

  lemma ProviderEventKeeps(s: State, e: Event)
    requires Healthy(s, {}) && Enabled(s, e) && IsProviderEvent(e)
    ensures Healthy(Handle(s, e), {})
    ensures Routed(s, {}) ==> Routed(Handle(s, e), {})
  {
    hide Attach, Send, OnProviderClose, CloseSession, CloseSessions, Routed, Track, Healthy, MarkConn;
    match e
    case ProviderUp(c) =>
      TrackKeeps(s, c);
      TrackOpens(s, c);
      AttachKeeps(Track(s, c), c);
    case ProviderClosing(c) =>
      MarkConnRoutes(s, c, Closing);
      MarkConnKeeps(s, c, Closing);
    case ProviderDown(c) =>
      MarkConnRoutes(s, c, Closed);
      MarkConnKeeps(s, c, Closed);
      ProviderCloseKeeps(MarkConn(s, c, Closed), c, {});
      ProviderCloseRoutes(MarkConn(s, c, Closed), c, {});
    case SessionOpened(c, breaks) =>
      TrackKeeps(s, c);
      TrackOpens(s, c);
      AttachKeeps(Track(s, c), c);
      SendKeeps(Attach(Track(s, c), c), c, breaks);
    case SessionClosed(sid) => CloseSessionKeeps(s, sid);
    case ChannelStopped(order) =>
      CloseSessionsKeeps(s, order);
      assert CloseSessions(s, order).sessions == map[];
      assert StopChannel(s, order) == CloseSessions(s, order);
  }

  lemma MarkConnKeeps(s: State, c: Conn, to: ReadyState)
    requires Healthy(s, {}) && c in s.conns && c.transport.WebSocket?
    ensures Healthy(MarkConn(s, c, to), {}) && Healthy(MarkConn(s, c, to), {} + {c}) && Wired(MarkConn(s, c, to))
    ensures !HasSession(MarkConn(s, c, to), c)
  {
  }

  lemma TrackOpens(s: State, c: Conn)
    ensures ConnOpen(Track(s, c), c) && (c.transport.RpcStream? ==> HasSession(Track(s, c), c))
  {
  }

  predicate IsClientEvent(e: Event) {
    e.ClientUp? || e.ClientSent? || e.ClientClosing? || e.ClientDown?
  }

  lemma ClientEventKeeps(s: State, e: Event)
    requires Healthy(s, {}) && Ordered(s) && IsClientEvent(e) && Enabled(s, e)
    ensures Healthy(Handle(s, e), {})
    ensures Routed(s, {}) ==> Routed(Handle(s, e), {})
  {
    hide Healthy, Routed, ClientConnected, ClientFrame, ClientClosed;
    assert forall i :: 0 <= i < |s.pending| ==> s.pending[i] in s.pending;
    match e
    case ClientUp(w) => ConnectedKeeps(s, w);
    case ClientSent(f, cdpMethod, fate) => FrameKeeps(s, f, cdpMethod, fate);
    case ClientClosing(w) => ShrinkKeeps(s, MarkSock(s, w, Closing), {}, {});
    case ClientDown(w, breaks) => ClosedKeeps(s, w, breaks);
  }

  lemma HandleKeeps(s: State, e: Event)
    requires Healthy(s, {}) && Ordered(s) && Enabled(s, e)
    ensures Healthy(Handle(s, e), {})
    ensures Routed(s, {}) ==> (Routed(Handle(s, e), {}) <==> !StealsIn(s, e))
  {
    hide Healthy, Routed, Register, Unregister, AnswerWhere, Settle, ClientConnected, ClientFrame, ClientClosed,
      LeaseChanged, SendHostCommand, Stop;
    if IsProviderEvent(e) {
      ProviderEventKeeps(s, e);
    } else if IsClientEvent(e) {
      ClientEventKeeps(s, e);
    } else {
      match e
      case Registers(c, t, r, known, breaks) => RegisterKeeps(s, c, t, r, known, breaks);
      case Unregisters(c, t) => UnregisterKeeps(s, c.host, t);
      case Replied(c, id, reply) => AnswerKeeps(s, OfId(id), reply, {}, {});
      case CommandReplied(c, id, outcome, _) => SettleKeeps(s, CommandId(id), outcome);
      case LeaseMoved(t, next, breaks) => LeaseKeeps(s, t, next, breaks);
      case CommandIssued(t, resilient, fate) => IssueKeeps(s, t, resilient, fate);
      case CommandTimedOut(id) => SettleKeeps(s, CommandId(id), Rejected(TimedOut));
      case BridgeStopped => StopKeeps(s);
    }
  }

  lemma SettleKeeps(s: State, scope: CommandScope, outcome: Outcome)
    ensures Healthy(s, {}) ==> Healthy(Settle(s, scope, outcome), {})
    ensures Routed(s, {}) ==> Routed(Settle(s, scope, outcome), {})
  {
    hide Healthy, Routed;
    ShrinkKeeps(s, Settle(s, scope, outcome), {}, {});
  }

  /**
   Every event keeps the invariant, and it keeps every pending command at the
   connection that holds it if and only if it is not a stealing registration.
   */
  lemma StepSafe(s: State, e: Event)
    requires Inv(s)
    ensures Inv(Step(s, e))
    ensures Routed(s, {}) ==> (Routed(Step(s, e), {}) <==> !StealsIn(s, e))
  {
    hide Conserved, Healthy, Pinned, Routed, Handle;
    assert forall i :: 0 <= i < |s.pending| ==> s.pending[i] in s.pending;
    StepConserves(s, e);
    StepTables(s, e);
    if Enabled(s, e) {
      HandleKeeps(s, e);
    }
  }

  // ---------------------------------------------------------------------------
  // Whole runs
  // ---------------------------------------------------------------------------

  lemma InitialInv(hasResolver: bool, lease: map<Target, Host>)
    ensures Inv(Initial(hasResolver, lease)) && Routed(Initial(hasResolver, lease), {})
  {
    var s := Initial(hasResolver, lease);
    forall f: Frame ensures Balanced(s, f) {
    }
    forall t ensures PinsExact(s, t) {
    }
  }

  lemma {:induction false} RunSafe(s: State, events: seq<Event>)
    requires Inv(s)
    ensures Inv(Run(s, events))
    decreases |events|
  {
    hide Inv, Step;
    if events != [] {
      StepSafe(s, events[0]);
      RunSafe(Step(s, events[0]), events[1..]);
    }
  }

  /** No event of the run steals a target from the host that has commands pending for it. */
  ghost predicate NeverSteals(s: State, events: seq<Event>)
    decreases |events|
  {
    events == [] || (!StealsIn(s, events[0]) && NeverSteals(Step(s, events[0]), events[1..]))
  }

  lemma {:induction false} RunRouted(s: State, events: seq<Event>)
    requires Inv(s) && Routed(s, {}) && NeverSteals(s, events)
    ensures Routed(Run(s, events), {})
    decreases |events|
  {
    hide Inv, Step, Routed, StealsIn;
    if events != [] {
      StepSafe(s, events[0]);
      RunRouted(Step(s, events[0]), events[1..]);
    }
  }

  /** A lease resolver rules stealing out: only the lease holder may register, and it holds the old registration. */
  lemma ResolverStopsStealing(s: State, e: Event)
    requires Healthy(s, {}) && s.hasResolver
    ensures !StealsIn(s, e)
  {
  }

  lemma ResolverIsConstant(s: State, e: Event)
    ensures Step(s, e).hasResolver == s.hasResolver
  {
    hide Handle, CommandsWind, ClientsWind, Sorted, ProviderFor, Forwards;
    if Enabled(s, e) {
      AdditionThenWinds(s, e);
    }
  }

  lemma {:induction false} ResolverRunsNeverSteal(s: State, events: seq<Event>)
    requires Inv(s) && s.hasResolver
    ensures NeverSteals(s, events)
    decreases |events|
  {
    hide Conserved, Ordered, Pinned, Step, StealsIn, Healthy;
    if events != [] {
      ResolverStopsStealing(s, events[0]);
      StepSafe(s, events[0]);
      ResolverIsConstant(s, events[0]);
      ResolverRunsNeverSteal(Step(s, events[0]), events[1..]);
    }
  }

  // ---------------------------------------------------------------------------
  // What a client, a host and the channel can rely on
  // ---------------------------------------------------------------------------

  /**
   One answer per command: on a socket that is still open, every frame received has
   been answered once or is pending once; on no socket is a frame answered twice.
   */
  lemma OneAnswerPerCommand(hasResolver: bool, lease: map<Target, Host>, events: seq<Event>, f: Frame)
    ensures var s := Run(Initial(hasResolver, lease), events);
      && AnswerCount(s.answers, f) + PendingCount(s.pending, f) <= FrameCount(s.frames, f)
      && (SockOpen(s, f.sock) ==>
            AnswerCount(s.answers, f) + PendingCount(s.pending, f) == FrameCount(s.frames, f))
  {
    hide Healthy, Ordered, Pinned, Run;
    InitialInv(hasResolver, lease);
    RunSafe(Initial(hasResolver, lease), events);
    assert Balanced(Run(Initial(hasResolver, lease), events), f);
  }

  lemma InvIsGood(s: State)
    requires Inv(s)
    ensures Good(s)
  {
    hide Conserved, Healthy, Ordered;
  }

  /**
   After any run, whatever event comes next: a client socket that the bridge closes has
   had every one of its frames answered, once for every time it was received.
   */
  lemma ClosedOnlyWhenAnswered(hasResolver: bool, lease: map<Target, Host>, events: seq<Event>, e: Event, f: Frame)
    requires SockOpen(Run(Initial(hasResolver, lease), events), f.sock) && !ClientCloses(e, f.sock)
    ensures var s' := Step(Run(Initial(hasResolver, lease), events), e);
      !SockOpen(s', f.sock) ==>
        AnswerCount(s'.answers, f) == FrameCount(s'.frames, f) && PendingCount(s'.pending, f) == 0
  {
    hide Run, Step, Good, Conserved, Healthy, Pinned;
    var s := Run(Initial(hasResolver, lease), events);
    InitialInv(hasResolver, lease);
    RunSafe(Initial(hasResolver, lease), events);
    InvIsGood(s);
    assert forall i :: 0 <= i < |s.pending| ==> s.pending[i] in s.pending;
    if !SockOpen(Step(s, e), f.sock) {
      TeardownAnswersFirst(s, e, f.sock);
    }
  }

  /** Stopping the bridge answers every frame of every socket that was open, and leaves nothing pending. */
  lemma StopAnswersEverything(hasResolver: bool, lease: map<Target, Host>, events: seq<Event>, f: Frame)
    ensures var s := Run(Initial(hasResolver, lease), events); var s' := Stop(s);
      && (SockOpen(s, f.sock) ==> AnswerCount(s'.answers, f) == FrameCount(s'.frames, f))
      && s'.pending == [] && s'.commands == map[] && s'.sessions == map[]
  {
    hide Pinned, Run, Stop, Healthy;
    InitialInv(hasResolver, lease);
    var s := Run(Initial(hasResolver, lease), events);
    RunSafe(Initial(hasResolver, lease), events);
    InvIsGood(s);
    StopConserves(s);
    StopGraceful(s);
    StopKeeps(s);
    assert Balanced(Stop(s), f);
  }

  /**
   No stranded command: with a resolver, every pending command's target is registered
   at its lease host, and the connection it was sent on is that host's provider now.
   */
  lemma NoStrandedCommand(lease: map<Target, Host>, events: seq<Event>, p: Pending)
    requires p in Run(Initial(true, lease), events).pending
    ensures var s := Run(Initial(true, lease), events);
      && Held(s, p)
      && p.frame.sock.target in s.lease
      && s.lease[p.frame.sock.target] == s.registry[p.frame.sock.target].host
      && IsCurrent(s, s.sentOn[p.id]) && s.sentOn[p.id].host == s.lease[p.frame.sock.target]
  {
    hide Conserved, Ordered, Pinned, Run, NeverSteals;
    InitialInv(true, lease);
    RunSafe(Initial(true, lease), events);
    ResolverRunsNeverSteal(Initial(true, lease), events);
    RunRouted(Initial(true, lease), events);
    RunMode(Initial(true, lease), events);
  }

  lemma {:induction false} RunMode(s: State, events: seq<Event>)
    ensures Run(s, events).hasResolver == s.hasResolver
    decreases |events|
  {
    hide Step;
    if events != [] {
      ResolverIsConstant(s, events[0]);
      RunMode(Step(s, events[0]), events[1..]);
    }
  }

  /** The commands sent on a connection, in the order they were sent. */
  function SentOn(s: State, ps: seq<Pending>, c: Conn): seq<Pending> {
    if ps == [] then []
    else (if ps[0].id in s.sentOn && s.sentOn[ps[0].id] == c then [ps[0]] else []) + SentOn(s, ps[1..], c)
  }

  lemma {:induction false} HostScopeIsSentOn(s: State, ps: seq<Pending>, c: Conn)
    requires Wired(s) && IsCurrent(s, c)
    requires forall p :: p in ps ==> Held(s, p)
    ensures Select(OfHost(c.host, s.registry), ps) == SentOn(s, ps, c)
  {
    if ps != [] {
      assert ps[0] in ps;
      HostScopeIsSentOn(s, ps[1..], c);
    }
  }

  /**
   Losing a provider answers exactly the commands it holds: each of them with an
   error, in order, on the sockets that are open; none of them stays pending and
   no other command is touched.
   */
  lemma LossAnswersItsCommands(s: State, c: Conn)
    requires Inv(s) && Routed(s, {}) && IsCurrent(s, c)
    ensures var s' := OnProviderClose(s, c);
      && s'.answers == s.answers + Replies(s.socks, SentOn(s, s.pending, c), Error(Disconnected))
      && (forall p :: p in s'.pending <==> p in s.pending && s.sentOn[p.id] != c)
  {
    hide Conserved, Ordered, Pinned, SessionsAgree, Leased;
    HostScopeIsSentOn(s, s.pending, c);
    RejectsIn(OfHost(c.host, s.registry), s.pending);
    var s' := OnProviderClose(s, c);
    assert s'.pending == Reject(OfHost(c.host, s.registry), s.pending);
    forall p ensures p in s'.pending <==> p in s.pending && s.sentOn[p.id] != c {
      if p in s.pending {
        assert Held(s, p);
      }
    }
  }

  /** After every run each RPC session is open and is its host's provider, so no two share a host. */
  lemma OneProviderPerHost(hasResolver: bool, lease: map<Target, Host>, events: seq<Event>)
    ensures var s := Run(Initial(hasResolver, lease), events);
      && (forall sid :: sid in s.sessions ==>
            && s.sessions[sid].transport == RpcStream(sid)
            && ConnOpen(s, s.sessions[sid]) && IsCurrent(s, s.sessions[sid]))
      && (forall x, y :: x in s.sessions && y in s.sessions && s.sessions[x].host == s.sessions[y].host ==> x == y)
      && (forall c :: ConnOpen(s, c) && c.transport.RpcStream? ==> HasSession(s, c))
  {
    hide Conserved, Ordered, Pinned, Run;
    InitialInv(hasResolver, lease);
    RunSafe(Initial(hasResolver, lease), events);
  }

  /**
   Opening a session for a host that has another provider first answers what that
   provider held, closes it and forgets its session; then the new one takes its place,
   unless its first send breaks it, and then the host has no provider and no target.
   */
  lemma OpeningReplaces(s: State, c: Conn, was: Conn, breaks: bool)
    requires Inv(s) && Routed(s, {}) && Enabled(s, SessionOpened(c, breaks))
    requires c.host in s.providers && s.providers[c.host] == was
    ensures var s' := OpenSession(s, c, breaks);
      && !ConnOpen(s', was) && !HasSession(s', was)
      && (forall p :: p in s'.pending ==> p in s.pending && s.sentOn[p.id] != was)
      && (!breaks ==> IsCurrent(s', c) && HasSession(s', c))
      && (breaks ==> !ConnOpen(s', c) && !HasSession(s', c) && c.host !in s'.providers
                     && forall t :: t in s'.registry ==> s'.registry[t].host != c.host)
  {
    hide Conserved, Ordered, Pinned, Attach, CloseRpc, Routed;
    var a := Attach(Track(s, c), c);
    AttachReplaces(s, c, was);
    if breaks {
      CloseRpcRemoves(a, c);
      SendKeeps(a, c, true);
      SessionOfClosed(CloseRpc(a, c), c);
      SessionOfClosed(CloseRpc(a, c), was);
    }
  }

  lemma AttachReplaces(s: State, c: Conn, was: Conn)
    requires Inv(s) && Routed(s, {}) && Enabled(s, SessionOpened(c, false))
    requires c.host in s.providers && s.providers[c.host] == was
    ensures var a := Attach(Track(s, c), c);
      && Healthy(a, {}) && ConnOpen(a, c) && IsCurrent(a, c) && HasSession(a, c) && was != c
      && !ConnOpen(a, was) && !HasSession(a, was)
      && (forall p :: p in a.pending ==> p in s.pending && s.sentOn[p.id] != was)
  {
    hide Conserved, Ordered, Pinned, Flush, CloseRpc;
    var s1 := Track(s, c);
    TrackKeeps(s, c);
    TrackOpens(s, c);
    AttachKeeps(s1, c);
    EvictFrames(s1, c);
    var s2 := Flush(s1, c.host, Reconnected);
    FlushLeaves(s1, c.host, Reconnected);
    if was.transport.RpcStream? {
      CloseRpcRemoves(s2, was);
    }
    ReplacedPending(s, c, was);
    assert HasSession(Attach(s1, c), c);
    SessionOfClosed(Attach(s1, c), was);
  }

  lemma ReplacedPending(s: State, c: Conn, was: Conn)
    requires Wired(s) && Routed(s, {}) && c !in s.conns && c.transport.RpcStream? && c.host in s.providers
    requires s.providers[c.host] == was && (was.transport.RpcStream? ==> ConnOpen(s, was))
    ensures forall p :: p in Attach(Track(s, c), c).pending ==> p in s.pending && s.sentOn[p.id] != was
  {
    hide Flush, CloseRpc;
    var s1 := Track(s, c);
    var s2 := Flush(s1, c.host, Reconnected);
    FlushLeaves(s1, c.host, Reconnected);
    if was.transport.RpcStream? {
      CloseRpcRemoves(s2, was);
    }
    forall p | p in Attach(s1, c).pending ensures p in s.pending && s.sentOn[p.id] != was {
      assert p in s2.pending;
      assert Held(s, p);
    }
  }

  lemma SessionOfClosed(s: State, c: Conn)
    requires SessionsAgree(s, {}) && !ConnOpen(s, c)
    ensures !HasSession(s, c)
  {
  }

  /**
   A host command settles once and for good: whatever happens next, a settled
   command keeps its outcome, and a pending one is still pending or has settled.
   */
  lemma SettledOnce(s: State, e: Event, id: nat)
    requires Inv(s)
    ensures id in s.settled ==> id in Step(s, e).settled && Step(s, e).settled[id] == s.settled[id]
    ensures id in s.commands ==> (id in Step(s, e).commands) != (id in Step(s, e).settled)
  {
    hide Conserved, Healthy, Pinned, PendingWinds, ClientsWind, Step;
    StepSafe(s, e);
    assert Ordered(s) && Ordered(Step(s, e));
    StepCommands(s, e);
  }

  /** An issued command is pending or settled at once, also when its send throws or breaks the provider. */
  lemma IssuedIsCounted(s: State, t: Target, resilient: bool, fate: Fate)
    requires Inv(s) && ProviderFor(s, t).Some?
    ensures var s', id := Step(s, CommandIssued(t, resilient, fate)), s.nextRequestId;
      (id in s'.commands) != (id in s'.settled)
  {
    hide Conserved, Healthy, Pinned, PendingWinds, ClientsWind, Handle, Sorted, ProviderFor;
    var e := CommandIssued(t, resilient, fate);
    AdditionThenWinds(s, e);
    StepSafe(s, e);
    PendingOrSettled(Step(s, e), s.nextRequestId);
    assert s.nextRequestId in Addition(s, e).commands;
  }

  /** The run form: a host command that has been issued stays pending or settled, never both, and keeps its outcome. */
  lemma {:induction false} SettledOnRun(s: State, events: seq<Event>, id: nat)
    requires Inv(s) && (id in s.commands || id in s.settled)
    ensures var s' := Run(s, events);
      && (id in s'.commands) != (id in s'.settled)
      && (id in s.settled ==> id in s'.settled && s'.settled[id] == s.settled[id])
    decreases |events|
  {
    hide Conserved, Healthy, Pinned, Ordered, Step;
    if events == [] {
      PendingOrSettled(s, id);
    } else {
      StepSafe(s, events[0]);
      SettledOnce(s, events[0], id);
      SettledOnRun(Step(s, events[0]), events[1..], id);
    }
  }

  lemma PendingOrSettled(s: State, id: nat)
    requires Inv(s)
    ensures !(id in s.commands && id in s.settled)
  {
    hide Conserved, Healthy, Pinned;
  }

  lemma {:induction false} RunConcat(s: State, early: seq<Event>, late: seq<Event>)
    ensures Run(s, early + late) == Run(Run(s, early), late)
    decreases |early|
  {
    hide Step;
    if early == [] {
      assert early + late == late;
    } else {
      assert (early + late)[0] == early[0] && (early + late)[1..] == early[1..] + late;
      RunConcat(Step(s, early[0]), early[1..], late);
    }
  }

  /**
   From a new bridge: a host command that is pending after some events is pending or
   settled, and not both, after any further ones, and a settled one keeps its outcome.
   */
  lemma HostCommandsSettleOnce(
    hasResolver: bool, lease: map<Target, Host>, early: seq<Event>, late: seq<Event>, id: nat)
    ensures var s, s' := Run(Initial(hasResolver, lease), early), Run(Initial(hasResolver, lease), early + late);
      && (id in s.commands || id in s.settled ==> (id in s'.commands) != (id in s'.settled))
      && (id in s.settled ==> id in s'.settled && s'.settled[id] == s.settled[id])
  {
    hide Run, Inv;
    var s0 := Initial(hasResolver, lease);
    InitialInv(hasResolver, lease);
    RunSafe(s0, early);
    RunConcat(s0, early, late);
    if id in Run(s0, early).commands || id in Run(s0, early).settled {
      SettledOnRun(Run(s0, early), late, id);
    }
  }

  /** Up to a newly issued command, every event only settles commands. */
  lemma StepCommands(s: State, e: Event)
    requires Ordered(s)
    ensures forall id :: id in s.settled ==> id in Step(s, e).settled && Step(s, e).settled[id] == s.settled[id]
    ensures forall id :: id in s.commands ==> id in Step(s, e).commands || id in Step(s, e).settled
  {
    hide PendingWinds, ClientsWind, Handle, Addition, Sorted;
    if Enabled(s, e) {
      AdditionThenWinds(s, e);
      AdditionOrdered(s, e);
      AdditionCommands(s, e);
    }
  }

  lemma AdditionCommands(s: State, e: Event)
    ensures Addition(s, e).settled == s.settled
    ensures forall id :: id in s.commands ==> id in Addition(s, e).commands
  {
    hide OrphanClients, ClientConnected, FrameAddition, CommandAddition, MarkSock, RemoveClient;
    match e
    case Unregisters(c, t) => ClientsApart(s, t, Sock(0, t));
    case ClientUp(w) => ClientsApart(s, w.target, w);
    case ClientSent(f, cdpMethod, _) => FrameApart(s, f, cdpMethod);
    case ClientClosing(w) => ClientsApart(s, w.target, w);
    case ClientDown(w, _) =>
      ClientsApart(s, w.target, w);
      ClientsApart(MarkSock(s, w, Closed), w.target, w);
    case CommandIssued(t, resilient, _) => CommandsGrow(s, t, resilient);
    case _ =>
  }

  predicate SameCommands(s: State, s': State) {
    s'.settled == s.settled && s'.commands == s.commands
  }

  lemma ClientsApart(s: State, t: Target, w: Sock)
    ensures SameCommands(s, OrphanClients(s, t)) && SameCommands(s, ClientConnected(s, w))
    ensures SameCommands(s, RemoveClient(s, w))
    ensures SameCommands(s, MarkSock(s, w, Closing)) && SameCommands(s, MarkSock(s, w, Closed))
  {
    hide ProviderFor, ClientsOf, CloseSocks, Unpinned, PinLog, AddClient;
    AddedApart(s, w);
    if ProviderFor(s, w.target) == None {
      assert ClientConnected(s, w) == s;
    } else {
      assert ClientConnected(s, w) == AddClient(s, w);
    }
  }

  lemma AddedApart(s: State, w: Sock)
    ensures SameCommands(s, AddClient(s, w))
  {
    hide PinLog, IsFirstClient;
  }

  lemma FrameApart(s: State, f: Frame, cdpMethod: string)
    ensures SameCommands(s, FrameAddition(s, f, cdpMethod))
  {
    hide Enqueue;
    if Forwards(s, f, cdpMethod) {
      QueuedApart(s, f, ProviderFor(s, f.sock.target).value);
    } else {
      assert FrameAddition(s, f, cdpMethod) == s;
    }
  }

  lemma QueuedApart(s: State, f: Frame, c: Conn)
    ensures SameCommands(s, Enqueue(s, f, c))
  {
  }

  lemma CommandsGrow(s: State, t: Target, resilient: bool)
    ensures CommandAddition(s, t, resilient).settled == s.settled
    ensures forall id :: id in s.commands ==> id in CommandAddition(s, t, resilient).commands
  {
    hide Issue;
    if ProviderFor(s, t) == None {
      assert CommandAddition(s, t, resilient) == s;
    } else {
      IssuedApart(s, HostCommand(t, s.registry[t].host, resilient));
    }
  }

  lemma IssuedApart(s: State, command: HostCommand)
    ensures Issue(s, command).settled == s.settled
    ensures forall id :: id in s.commands ==> id in Issue(s, command).commands
  {
  }

  // ---------------------------------------------------------------------------
  // Pins
  // ---------------------------------------------------------------------------

  /** A target with a connected client is pinned, after every run. */
  lemma ClientsArePinned(hasResolver: bool, lease: map<Target, Host>, events: seq<Event>, t: Target)
    ensures var s := Run(Initial(hasResolver, lease), events);
      && (t in s.clients ==> s.clients[t] != {} && PinnedNow(s, t))
      && (PinnedNow(s, t) <==> t in s.clients || t in s.leaked)
      && (Alternates(PinLog(s, t)) <==> t !in s.repinned)
  {
    hide Conserved, Ordered, Healthy, Run, Alternates, PinnedNow;
    InitialInv(hasResolver, lease);
    RunSafe(Initial(hasResolver, lease), events);
    assert PinsExact(Run(Initial(hasResolver, lease), events), t);
  }

  /** An unregister that finds clients on its target: the branch that drops them without an unpin. */
  predicate Orphans(s: State, e: Event) {
    e.Unregisters? && Enabled(s, e) && RegisteredAt(s, e.target, e.conn.host) && e.target in s.clients
  }

  ghost predicate NeverOrphans(s: State, events: seq<Event>)
    decreases |events|
  {
    events == [] || (!Orphans(s, events[0]) && NeverOrphans(Step(s, events[0]), events[1..]))
  }

  /** Only that branch leaves a pin behind. */
  lemma LeakNeedsOrphan(s: State, e: Event)
    requires s.leaked == {} && s.repinned == {}
    ensures Step(s, e).repinned == {}
    ensures Step(s, e).leaked == (if Orphans(s, e) then {e.target} else {})
  {
    hide PendingWinds, CommandsWind, TargetWinds, Handle, Addition;
    if Enabled(s, e) {
      AdditionThenWinds(s, e);
      AdditionLeaks(s, e);
    }
  }

  lemma AdditionLeaks(s: State, e: Event)
    requires s.leaked == {} && s.repinned == {} && Enabled(s, e)
    ensures Addition(s, e).repinned == {}
    ensures Addition(s, e).leaked == (if Orphans(s, e) then {e.target} else {})
  {
  }

  lemma {:induction false} RunNeverLeaks(s: State, events: seq<Event>)
    requires s.leaked == {} && s.repinned == {} && NeverOrphans(s, events)
    ensures Run(s, events).leaked == {} && Run(s, events).repinned == {}
    decreases |events|
  {
    hide Step, Orphans;
    if events != [] {
      LeakNeedsOrphan(s, events[0]);
      RunNeverLeaks(Step(s, events[0]), events[1..]);
    }
  }

  /** On a run where no unregister finds clients, pin calls alternate and match the client sets exactly. */
  lemma PinsAlternate(hasResolver: bool, lease: map<Target, Host>, events: seq<Event>, t: Target)
    requires NeverOrphans(Initial(hasResolver, lease), events)
    ensures var s := Run(Initial(hasResolver, lease), events);
      Alternates(PinLog(s, t)) && (PinnedNow(s, t) <==> t in s.clients)
  {
    hide Run, NeverOrphans, Alternates, PinnedNow;
    ClientsArePinned(hasResolver, lease, events, t);
    RunNeverLeaks(Initial(hasResolver, lease), events);
  }
}
