/**
 What each event of the relay does, stated outright: the tables before and after one
 `Step`, with every condition spelled out over the tables instead of through the
 handlers' own functions.
 */
module CdpEffects {
  import opened Options
  import opened CdpRelay
  import opened CdpProgress
  import opened CdpSafety
  import opened CdpLimits
  import CdpTheorems

  /**
   The bridge can send to `t` over `c`: `t` is registered at a host, `c` is that host's
   provider and is open, and with a lease resolver the host also holds the lease.
   */
  predicate Serves(s: State, t: Target, c: Conn) {
    && t in s.registry
    && s.registry[t].host in s.providers && s.providers[s.registry[t].host] == c
    && c in s.conns && s.conns[c] == Open
    && (s.hasResolver ==> t in s.lease && s.lease[t] == s.registry[t].host)
  }

  ghost predicate Unserved(s: State, t: Target) {
    forall c :: !Serves(s, t, c)
  }

  /** A navigation of a workspace panel, which only the shell may do. */
  predicate MayNotNavigate(s: State, t: Target, cdpMethod: string) {
    && t in s.registry
    && (s.registry[t].kind == Some("workspace")
        || (s.registry[t].source.Some? && s.registry[t].source.value != ""
            && !("browser:" <= s.registry[t].source.value)))
    && (cdpMethod == "Page.navigate" || cdpMethod == "Page.reload" || cdpMethod == "Page.stopLoading"
        || cdpMethod == "Page.navigateToHistoryEntry" || cdpMethod == "Page.resetNavigationHistory")
  }

  /** The socket still emits messages, so its frames still arrive. */
  predicate Listens(s: State, w: Sock) {
    w in s.socks && s.socks[w] != Closed
  }

  /** The one answer a frame gets, if its socket is open. */
  function To(s: State, f: Frame, reply: Reply): seq<Answer> {
    if f.sock in s.socks && s.socks[f.sock] == Open then [Answer(f, reply)] else []
  }

  lemma ServesIsProvider(s: State, t: Target, c: Conn)
    ensures Serves(s, t, c) <==> ProviderFor(s, t) == Some(c)
  {
  }

  lemma UnservedHasNone(s: State, t: Target)
    ensures Unserved(s, t) <==> ProviderFor(s, t) == None
  {
    if ProviderFor(s, t).Some? {
      ServesIsProvider(s, t, ProviderFor(s, t).value);
    }
    forall c ensures Serves(s, t, c) ==> ProviderFor(s, t) != None {
      ServesIsProvider(s, t, c);
    }
  }

  lemma RefusalIs(s: State, t: Target, cdpMethod: string)
    ensures MayNotNavigate(s, t, cdpMethod) <==> IsWorkspaceTarget(s, t) && cdpMethod in NAVIGATION_METHODS
  {
  }

  lemma StepOfFrame(s: State, f: Frame, cdpMethod: string, fate: Fate)
    requires Listens(s, f.sock)
    ensures Step(s, ClientSent(f, cdpMethod, fate)) == ClientFrame(s, f, cdpMethod, fate)
  {
    hide ClientFrame;
  }

  lemma StepOfIssue(s: State, t: Target, resilient: bool, fate: Fate)
    ensures Step(s, CommandIssued(t, resilient, fate)) == SendHostCommand(s, t, resilient, fate)
  {
    hide SendHostCommand;
  }

  // ---------------------------------------------------------------------------
  // Client frames
  // ---------------------------------------------------------------------------

  /** A frame that may be sent is pending under the next id at the serving connection, and gets no answer yet. */
  lemma FrameIsForwarded(s: State, f: Frame, cdpMethod: string, c: Conn)
    requires Listens(s, f.sock) && Serves(s, f.sock.target, c) && !MayNotNavigate(s, f.sock.target, cdpMethod)
    ensures Step(s, ClientSent(f, cdpMethod, Delivered))
         == s.(frames := s.frames + [f],
               pending := s.pending + [Pending(s.nextRequestId, f)],
               sentOn := s.sentOn[s.nextRequestId := c],
               nextRequestId := s.nextRequestId + 1)
  {
    StepOfFrame(s, f, cdpMethod, Delivered);
    ServesIsProvider(s, f.sock.target, c);
    RefusalIs(s, f.sock.target, cdpMethod);
    hide Step, ProviderFor, IsWorkspaceTarget, Serves, MayNotNavigate;
  }

  /** Every other frame is answered with one error, whatever its send would have done, and nothing is pending for it. */
  lemma FrameIsRefused(s: State, f: Frame, cdpMethod: string, fate: Fate)
    requires Listens(s, f.sock)
    requires Unserved(s, f.sock.target) || MayNotNavigate(s, f.sock.target, cdpMethod)
    ensures Step(s, ClientSent(f, cdpMethod, fate))
         == s.(frames := s.frames + [f],
               answers := s.answers
                 + To(s, f, Error(if Unserved(s, f.sock.target) then NotConnected else NavigationRefused)))
  {
    StepOfFrame(s, f, cdpMethod, fate);
    UnservedHasNone(s, f.sock.target);
    RefusalIs(s, f.sock.target, cdpMethod);
    hide Step, ProviderFor, IsWorkspaceTarget, Unserved, MayNotNavigate;
  }

  /** Exactly when a frame's command comes to be pending. */
  lemma FrameIsPendingIff(s: State, f: Frame, cdpMethod: string)
    requires Listens(s, f.sock)
    ensures Step(s, ClientSent(f, cdpMethod, Delivered)).pending != s.pending
         <==> (exists c :: Serves(s, f.sock.target, c)) && !MayNotNavigate(s, f.sock.target, cdpMethod)
  {
    hide Step, Serves, MayNotNavigate, To;
    var s' := Step(s, ClientSent(f, cdpMethod, Delivered));
    if c :| Serves(s, f.sock.target, c) && !MayNotNavigate(s, f.sock.target, cdpMethod) {
      FrameIsForwarded(s, f, cdpMethod, c);
      assert s'.pending == s.pending + [Pending(s.nextRequestId, f)];
    } else {
      FrameIsRefused(s, f, cdpMethod, Delivered);
      assert s'.pending == s.pending;
    }
  }

  /** A send that throws uses up its id and is answered at once. */
  lemma FrameSendThrows(s: State, f: Frame, cdpMethod: string, c: Conn)
    requires Ordered(s)
    requires Listens(s, f.sock) && Serves(s, f.sock.target, c) && !MayNotNavigate(s, f.sock.target, cdpMethod)
    ensures Step(s, ClientSent(f, cdpMethod, Throws))
         == s.(frames := s.frames + [f],
               answers := s.answers + To(s, f, Error(SendFailed)),
               sentOn := s.sentOn[s.nextRequestId := c],
               nextRequestId := s.nextRequestId + 1)
  {
    StepOfFrame(s, f, cdpMethod, Throws);
    ServesIsProvider(s, f.sock.target, c);
    RefusalIs(s, f.sock.target, cdpMethod);
    hide Step, ProviderFor, IsWorkspaceTarget, Serves, MayNotNavigate;
    RejectsLast(s.pending, Pending(s.nextRequestId, f));
  }

  lemma {:induction false} RejectsLast(ps: seq<Pending>, p: Pending)
    requires forall q :: q in ps ==> q.id != p.id
    ensures Reject(OfId(p.id), ps + [p]) == ps
  {
    if ps == [] {
      assert ps + [p] == [p] && [p][1..] == [];
    } else {
      assert (ps + [p])[1..] == ps[1..] + [p];
      RejectsLast(ps[1..], p);
    }
  }

  /** A WebSocket whose send fails later only loses the frame's answer to the close that follows. */
  lemma FrameSendBreaksLater(s: State, f: Frame, cdpMethod: string, c: Conn)
    requires Listens(s, f.sock) && Serves(s, f.sock.target, c) && !MayNotNavigate(s, f.sock.target, cdpMethod)
    requires c.transport.WebSocket?
    ensures Step(s, ClientSent(f, cdpMethod, Breaks)) == Step(s, ClientSent(f, cdpMethod, Delivered))
  {
    StepOfFrame(s, f, cdpMethod, Breaks);
    StepOfFrame(s, f, cdpMethod, Delivered);
    ServesIsProvider(s, f.sock.target, c);
    RefusalIs(s, f.sock.target, cdpMethod);
    hide Step, ProviderFor, IsWorkspaceTarget, Serves, MayNotNavigate;
  }

  // ---------------------------------------------------------------------------
  // Replies to client frames
  // ---------------------------------------------------------------------------

  /** A reply from the host of the command's target goes to its socket and takes exactly that command out. */
  lemma ReplyIsDelivered(s: State, c: Conn, p: Pending, reply: Reply)
    requires Inv(s) && c in s.conns && (reply == Result || reply == Error(ProviderError))
    requires p in s.pending && p.frame.sock.target in s.registry && s.registry[p.frame.sock.target].host == c.host
    ensures var s' := Step(s, Replied(c, p.id, reply));
      && s' == s.(pending := s'.pending, answers := s.answers + To(s, p.frame, reply))
      && (forall q :: q in s'.pending <==> q in s.pending && q != p)
  {
    ReplyReachesItsCommand(s, c.host, p, reply);
    hide Inv, Reject, Select, Replies;
  }

  /** From another host, or under an id that is not pending, a reply changes nothing. */
  lemma ReplyIsIgnored(s: State, c: Conn, id: nat, reply: Reply)
    requires Inv(s)
    requires forall p :: p in s.pending && p.id == id ==>
      !(p.frame.sock.target in s.registry && s.registry[p.frame.sock.target].host == c.host)
    ensures Step(s, Replied(c, id, reply)) == s
  {
    hide Inv, AnswerWhere;
    FindIn(s.pending, id);
  }

  lemma {:induction false} FindIn(ps: seq<Pending>, id: nat)
    ensures Find(ps, id).Some? ==> Find(ps, id).value in ps && Find(ps, id).value.id == id
  {
    if ps != [] {
      FindIn(ps[1..], id);
    }
  }

  // ---------------------------------------------------------------------------
  // Clients
  // ---------------------------------------------------------------------------

  /** A new client of a served target is tracked and open; the first one of the target pins it. */
  lemma ClientIsAdded(s: State, w: Sock, c: Conn)
    requires w !in s.socks && Serves(s, w.target, c)
    ensures var s' := Step(s, ClientUp(w)); var t := w.target;
      var first := t !in s.clients || s.clients[t] == {};
      && t in s'.clients && (forall u :: u in s'.clients[t] <==> u == w || (t in s.clients && u in s.clients[t]))
      && (forall t2 :: t2 != t ==> (t2 in s'.clients <==> t2 in s.clients)
                                   && (t2 in s.clients ==> s'.clients[t2] == s.clients[t2]))
      && s'.socks == s.socks[w := Open]
      && s'.pins == (if !first then s.pins else s.pins[t := (if t in s.pins then s.pins[t] else []) + [true]])
      && s' == s.(clients := s'.clients, socks := s'.socks, pins := s'.pins,
                  leaked := s'.leaked, repinned := s'.repinned)
  {
    ServesIsProvider(s, w.target, c);
    hide ProviderFor, Serves;
    assert Step(s, ClientUp(w)) == AddClient(s, w);
  }

  /** A client of any other target is not. */
  lemma ClientIsTurnedAway(s: State, w: Sock)
    requires Unserved(s, w.target)
    ensures Step(s, ClientUp(w)) == s
  {
    UnservedHasNone(s, w.target);
    hide ProviderFor, Unserved;
  }

  // ---------------------------------------------------------------------------
  // Host commands
  // ---------------------------------------------------------------------------

  /** A host command for a served target is pending under the next id, issued to the target's host. */
  lemma CommandIsIssued(s: State, t: Target, resilient: bool, c: Conn)
    requires Serves(s, t, c)
    ensures Step(s, CommandIssued(t, resilient, Delivered))
         == s.(commands := s.commands[s.nextRequestId := HostCommand(t, s.registry[t].host, resilient)],
               nextRequestId := s.nextRequestId + 1)
  {
    StepOfIssue(s, t, resilient, Delivered);
    ServesIsProvider(s, t, c);
    hide Step, ProviderFor, Serves;
  }

  /** One whose send throws is settled as a failed send. */
  lemma CommandSendThrows(s: State, t: Target, resilient: bool, c: Conn)
    requires Ordered(s) && Serves(s, t, c)
    ensures Step(s, CommandIssued(t, resilient, Throws))
         == s.(settled := s.settled[s.nextRequestId := Rejected(SendFailed)], nextRequestId := s.nextRequestId + 1)
  {
    var command := HostCommand(t, s.registry[t].host, resilient);
    var id := s.nextRequestId;
    ThrowingStep(s, t, resilient, c);
    hide Step, Serves, Settle;
    OneIsSettled(Issue(s, command), id, Rejected(SendFailed));
    assert s.commands[id := command] - {id} == s.commands;
  }

  lemma ThrowingStep(s: State, t: Target, resilient: bool, c: Conn)
    requires Serves(s, t, c)
    ensures Step(s, CommandIssued(t, resilient, Throws))
         == Settle(Issue(s, HostCommand(t, s.registry[t].host, resilient)), CommandId(s.nextRequestId),
                   Rejected(SendFailed))
  {
    StepOfIssue(s, t, resilient, Throws);
    ServesIsProvider(s, t, c);
    hide Step, ProviderFor, Serves, Settle, Issue;
  }

  /** One for a target that is not served is refused: nothing is issued. */
  lemma CommandIsRefused(s: State, t: Target, resilient: bool, fate: Fate)
    requires Unserved(s, t)
    ensures Step(s, CommandIssued(t, resilient, fate)) == s
  {
    UnservedHasNone(s, t);
    hide ProviderFor, Unserved;
  }

  /**
   The host a command may be settled from: where its target is registered, or, for a
   `host:*` reply, also the host it was issued to.
   */
  predicate MaySettle(s: State, h: Host, id: nat, hostKind: bool) {
    && id in s.commands
    && ((s.commands[id].target in s.registry && s.registry[s.commands[id].target].host == h)
        || (hostKind && s.commands[id].host == h))
  }

  /** Such a reply settles the command with the outcome it carries and takes exactly it out. */
  lemma CommandIsSettled(s: State, c: Conn, id: nat, outcome: Outcome, hostKind: bool)
    requires c in s.conns && (outcome == Resolved || outcome == Rejected(ProviderError))
    requires MaySettle(s, c.host, id, hostKind)
    ensures Step(s, CommandReplied(c, id, outcome, hostKind))
         == s.(commands := s.commands - {id}, settled := s.settled[id := outcome])
  {
    OneIsSettled(s, id, outcome);
    hide Settle;
  }

  /** Any other reply changes nothing. */
  lemma CommandReplyIsIgnored(s: State, c: Conn, id: nat, outcome: Outcome, hostKind: bool)
    requires !MaySettle(s, c.host, id, hostKind)
    ensures Step(s, CommandReplied(c, id, outcome, hostKind)) == s
  {
    hide Settle;
  }

  /** A command that times out is settled so; the timer of a settled one does nothing. */
  lemma CommandTimesOut(s: State, id: nat)
    ensures Step(s, CommandTimedOut(id))
         == if id in s.commands
            then s.(commands := s.commands - {id}, settled := s.settled[id := Rejected(TimedOut)]) else s
  {
    if id in s.commands {
      OneIsSettled(s, id, Rejected(TimedOut));
      assert Step(s, CommandTimedOut(id)) == Settle(s, CommandId(id), Rejected(TimedOut));
    } else {
      assert CommandsHit(CommandId(id), s.commands) == {};
      assert s.commands - {} == s.commands;
      var none := map i | i in CommandsHit(CommandId(id), s.commands) :: Rejected(TimedOut);
      assert none == map[];
      assert s.settled + none == s.settled;
    }
  }

  lemma OneIsSettled(s: State, id: nat, outcome: Outcome)
    requires id in s.commands
    ensures Settle(s, CommandId(id), outcome)
         == s.(commands := s.commands - {id}, settled := s.settled[id := outcome])
  {
    var hit := CommandsHit(CommandId(id), s.commands);
    assert hit == {id};
    assert s.settled + (map i | i in hit :: outcome) == s.settled[id := outcome];
  }

  // ---------------------------------------------------------------------------
  // Registrations
  // ---------------------------------------------------------------------------

  /** The open current provider of a host may register a target, with a resolver only if its host holds the lease. */
  predicate MayRegister(s: State, c: Conn, t: Target) {
    && c.host in s.providers && s.providers[c.host] == c
    && c in s.conns && s.conns[c] == Open
    && (s.hasResolver ==> t in s.lease && s.lease[t] == c.host)
  }

  /** Then the target is registered at that host, whatever host the message names, and can be sent to. */
  lemma TargetIsRegistered(s: State, c: Conn, t: Target, r: Registration, breaks: bool)
    requires MayRegister(s, c, t)
    ensures var s' := Step(s, Registers(c, t, r, true, breaks));
      && s' == s.(registry := s.registry[t := Registration(r.tab, c.host, r.kind, r.source)])
      && Serves(s', t, c)
  {
  }

  /** Otherwise nothing is registered; only a refusal that breaks an RPC stream changes anything. */
  lemma RegistrationIsRefused(s: State, c: Conn, t: Target, r: Registration, known: bool, breaks: bool)
    requires !known || !MayRegister(s, c, t)
    requires breaks ==> c.transport.WebSocket? || (known && !(c.host in s.providers && s.providers[c.host] == c))
    ensures Step(s, Registers(c, t, r, known, breaks)) == s
  {
  }

  // ---------------------------------------------------------------------------
  // Runs
  // ---------------------------------------------------------------------------

  /** With a resolver that gives "t" to host "a": its provider connects and registers "t", and a client joins. */
  const SERVED := [UP_A, REGISTERS, ClientUp(CLIENT)]

  lemma ServedState() returns (s: State)
    ensures s == Run(Initial(true, map["t" := "a"]), SERVED)
    ensures Serves(s, "t", HOST_A) && !MayNotNavigate(s, "t", "Runtime.evaluate") && Listens(s, CLIENT)
    ensures s.socks == map[CLIENT := Open] && s.clients == map["t" := {CLIENT}] && s.pins == map["t" := [true]]
    ensures s.registry == map["t" := BROWSER.(host := "a")] && s.conns == map[HOST_A := Open]
    ensures s.pending == [] && s.commands == map[] && s.answers == [] && s.frames == [] && s.nextRequestId == 1
    ensures s.settled == map[] && s.sentOn == map[]
  {
    hide Step, Run;
    var s0 := Initial(true, map["t" := "a"]);
    RunNothing(s0);
    RunThen(s0, [], UP_A);
    RunThen(s0, [UP_A], REGISTERS);
    RunThen(s0, [UP_A, REGISTERS], ClientUp(CLIENT));
    Lists5(UP_A, REGISTERS, ClientUp(CLIENT), UP_A, UP_A);
    FirstProvider(s0, HOST_A);
    var s1 := Step(s0, UP_A);
    TargetIsRegistered(s1, HOST_A, "t", BROWSER.(host := "a"), false);
    var s2 := Step(s1, REGISTERS);
    ClientIsAdded(s2, CLIENT, HOST_A);
    s := Step(s2, ClientUp(CLIENT));
    assert s2.clients == map[] && s2.pins == map[];
    assert s.clients.Keys == {"t"} && s.clients["t"] == {CLIENT};
    FirstPin(s2.pins, s.pins);
  }

  lemma FirstPin(pins: map<Target, seq<bool>>, pins': map<Target, seq<bool>>)
    requires pins == map[] && pins' == pins["t" := (if "t" in pins then pins["t"] else []) + [true]]
    ensures pins' == map["t" := [true]]
  {
    assert pins'["t"] == [true];
  }

  /** A frame the client then sends is forwarded, and the provider's result is its answer. */
  lemma FrameIsAnswered()
    ensures var s := Run(Initial(true, map["t" := "a"]), SERVED + [SENDS]);
      && s.pending == [Pending(1, COMMAND)] && s.sentOn == map[1 := HOST_A] && s.answers == []
    ensures var s := Run(Initial(true, map["t" := "a"]), SERVED + [SENDS] + [Replied(HOST_A, 1, Result)]);
      s.pending == [] && s.answers == [Answer(COMMAND, Result)]
  {
    hide Step, Run, Inv;
    var s0 := Initial(true, map["t" := "a"]);
    var s3 := ServedState();
    RunThen(s0, SERVED, SENDS);
    RunThen(s0, SERVED + [SENDS], Replied(HOST_A, 1, Result));
    FrameIsForwarded(s3, COMMAND, "Runtime.evaluate", HOST_A);
    var s4 := Step(s3, SENDS);
    assert s4.pending == [Pending(1, COMMAND)];
    CdpTheorems.InitialInv(true, map["t" := "a"]);
    CdpTheorems.RunSafe(s0, SERVED + [SENDS]);
    ReplyIsDelivered(s4, HOST_A, Pending(1, COMMAND), Result);
    var s5 := Step(s4, Replied(HOST_A, 1, Result));
    if s5.pending != [] {
      HasOne(s5.pending);
      assert false;
    }
  }

  lemma HasOne(ps: seq<Pending>)
    requires ps != []
    ensures exists p :: p in ps
  {
    assert ps[0] in ps;
  }

  /** A host command issued then is resolved by the provider's reply. */
  lemma CommandIsResolved()
    ensures var s := Run(Initial(true, map["t" := "a"]),
                         SERVED + [CommandIssued("t", true, Delivered)] + [CommandReplied(HOST_A, 1, Resolved, false)]);
      s.commands == map[] && s.settled == map[1 := Resolved]
  {
    hide Step, Run;
    var s0 := Initial(true, map["t" := "a"]);
    var s3 := ServedState();
    var issued := CommandIssued("t", true, Delivered);
    RunThen(s0, SERVED, issued);
    RunThen(s0, SERVED + [issued], CommandReplied(HOST_A, 1, Resolved, false));
    CommandIsIssued(s3, "t", true, HOST_A);
    var s4 := Step(s3, issued);
    CommandIsSettled(s4, HOST_A, 1, Resolved, false);
  }
}
