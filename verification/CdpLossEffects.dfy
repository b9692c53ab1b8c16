/**
 What the events that take work away do, stated outright: which commands are answered
 and with what, which host commands are settled, whose clients are dropped, and that
 everything else stays.
 */
module CdpLossEffects {
  import opened Options
  import opened CdpRelay
  import opened CdpRouting
  import opened CdpLimits
  import opened CdpEffects

  /**
   Exactly the commands `gone` are no longer pending, and the new answers are one error
   for each of them whose socket is open.
   */
  ghost predicate Answered(s: State, s': State, gone: set<Pending>, reason: Reason) {
    && (forall p :: p in s'.pending <==> p in s.pending && p !in gone)
    && |s.answers| <= |s'.answers| && s'.answers[..|s.answers|] == s.answers
    && (forall a :: a in s'.answers[|s.answers|..] <==> Owed(s, gone, a, reason))
  }

  ghost predicate Owed(s: State, gone: set<Pending>, a: Answer, reason: Reason) {
    exists p :: p in gone && p.frame.sock in s.socks && s.socks[p.frame.sock] == Open
                && a == Answer(p.frame, Error(reason))
  }

  /** Exactly the host commands `gone` are settled, all for the same reason. */
  predicate Settled(s: State, s': State, gone: set<nat>, reason: Reason) {
    && s'.commands == s.commands - gone
    && s'.settled.Keys == s.settled.Keys + gone
    && (forall id :: id in s'.settled ==>
          s'.settled[id] == if id in gone then Rejected(reason) else s.settled[id])
  }

  /** The clients of `ts`, and no others, are forgotten, and those that were open are closing. */
  predicate Closes(s: State, s': State, ts: set<Target>) {
    && s'.clients == s.clients - ts
    && s'.socks.Keys == s.socks.Keys
    && (forall w :: w in s.socks ==>
          s'.socks[w] == if s.socks[w] == Open && (exists t :: t in ts && t in s.clients && w in s.clients[t])
                         then Closing else s.socks[w])
  }

  /** Each of `ts` that had clients is unpinned once. */
  predicate Unpins(s: State, s': State, ts: set<Target>) {
    && s'.pins.Keys == s.pins.Keys + ts * s.clients.Keys
    && (forall t :: t in s'.pins ==>
          s'.pins[t] == if t in ts && t in s.clients then (if t in s.pins then s.pins[t] else []) + [false]
                        else s.pins[t])
  }

  /** Only the tables of pending work and of clients are different. */
  predicate OnlyWork(s: State, s': State) {
    s' == s.(pending := s'.pending, answers := s'.answers, commands := s'.commands, settled := s'.settled,
             clients := s'.clients, socks := s'.socks, pins := s'.pins)
  }

  function TargetsOf(s: State, h: Host): set<Target> {
    set t | t in s.registry && s.registry[t].host == h
  }

  /** The client commands aimed at host `h`'s targets, and those whose target is registered nowhere. */
  function FramesOf(s: State, h: Host): set<Pending> {
    set p | p in s.pending && (p.frame.sock.target in s.registry ==> s.registry[p.frame.sock.target].host == h)
  }

  /** The host commands issued to `h` or aimed at one of its targets. */
  function CommandsOf(s: State, h: Host): set<nat> {
    set id | id in s.commands && (s.commands[id].host == h || s.commands[id].target in TargetsOf(s, h))
  }

  /** The work of host `h` is gone, and that of no other host. */
  ghost predicate HostIsLost(s: State, s': State, h: Host, reason: Reason) {
    && Answered(s, s', FramesOf(s, h), reason)
    && Settled(s, s', CommandsOf(s, h), reason)
    && Closes(s, s', TargetsOf(s, h)) && Unpins(s, s', TargetsOf(s, h))
  }

  // ---------------------------------------------------------------------------
  // Parts
  // ---------------------------------------------------------------------------

  lemma {:induction false} SelectsIn(scope: Scope, ps: seq<Pending>, p: Pending)
    ensures p in Select(scope, ps) <==> p in ps && Hits(scope, p)
  {
    if ps != [] {
      SelectsIn(scope, ps[1..], p);
    }
  }

  lemma {:induction false} RepliesIn(socks: map<Sock, ReadyState>, ps: seq<Pending>, reply: Reply, a: Answer)
    ensures a in Replies(socks, ps, reply) <==>
      exists p :: p in ps && p.frame.sock in socks && socks[p.frame.sock] == Open && a == Answer(p.frame, reply)
  {
    if ps != [] {
      RepliesIn(socks, ps[1..], reply, a);
      assert forall p :: p in ps <==> p == ps[0] || p in ps[1..];
    }
  }

  lemma AnswersScope(s: State, scope: Scope, gone: set<Pending>, reason: Reason)
    requires forall p :: p in gone <==> p in s.pending && Hits(scope, p)
    ensures Answered(s, AnswerWhere(s, scope, Error(reason)), gone, reason)
  {
    hide Hits, Select, Reject, Replies;
    RejectsIn(scope, s.pending);
    var hit := Select(scope, s.pending);
    forall p ensures p in hit <==> p in gone {
      SelectsIn(scope, s.pending, p);
    }
    var more := Replies(s.socks, hit, Error(reason));
    assert (s.answers + more)[..|s.answers|] == s.answers && (s.answers + more)[|s.answers|..] == more;
    forall a ensures a in more <==> Owed(s, gone, a, reason) {
      RepliesIn(s.socks, hit, Error(reason), a);
    }
  }

  lemma SettlesScope(s: State, scope: CommandScope, gone: set<nat>, reason: Reason)
    requires forall id :: id in gone <==> id in s.commands && HitsCommand(scope, id, s.commands[id])
    ensures Settled(s, Settle(s, scope, Rejected(reason)), gone, reason)
  {
    hide HitsCommand;
    assert CommandsHit(scope, s.commands) == gone;
  }

  lemma ClosesTargets(s: State, ts: set<Target>)
    ensures Closes(s, DropClients(s, ts), ts) && Unpins(s, DropClients(s, ts), ts)
  {
  }

  lemma SettlesTwice(s: State, s1: State, s2: State, g1: set<nat>, g2: set<nat>, reason: Reason)
    requires Settled(s, s1, g1, reason) && Settled(s1, s2, g2, reason)
    ensures Settled(s, s2, g1 + g2, reason)
  {
    assert s.commands - g1 - g2 == s.commands - (g1 + g2);
  }

  function IssuedIds(s: State, h: Host): set<nat> {
    set id | id in s.commands && s.commands[id].host == h
  }

  function AimedIds(s: State, ts: set<Target>): set<nat> {
    set id | id in s.commands && s.commands[id].target in ts
  }

  lemma IssuedAreSettled(s: State, h: Host, reason: Reason)
    ensures Settled(s, Settle(s, IssuedTo(h), Rejected(reason)), IssuedIds(s, h), reason)
    ensures Settle(s, IssuedTo(h), Rejected(reason)).commands == s.commands - IssuedIds(s, h)
  {
    SettlesScope(s, IssuedTo(h), IssuedIds(s, h), reason);
    hide Settle;
  }

  lemma AimedAreSettled(s: State, ts: set<Target>, reason: Reason)
    ensures Settled(s, Settle(s, AimedAt(ts, false), Rejected(reason)), AimedIds(s, ts), reason)
  {
    SettlesScope(s, AimedAt(ts, false), AimedIds(s, ts), reason);
  }

  lemma FramesAreAnswered(s: State, h: Host, reason: Reason)
    ensures Answered(s, AnswerWhere(s, OfHost(h, s.registry), Error(reason)), FramesOf(s, h), reason)
  {
    AnswersScope(s, OfHost(h, s.registry), FramesOf(s, h), reason);
  }

  /** The host commands of a flush, in its two rounds. */
  lemma BothRounds(s: State, s1: State, h: Host)
    requires s1.commands == s.commands - IssuedIds(s, h)
    ensures IssuedIds(s, h) + AimedIds(s1, TargetsOf(s, h)) == CommandsOf(s, h)
  {
    hide TargetsOf;
  }

  lemma FlushLoses(s: State, h: Host, reason: Reason)
    ensures HostIsLost(s, Flush(s, h, reason), h, reason) && OnlyWork(s, Flush(s, h, reason))
  {
    var ts := TargetsAt(s, h);
    assert ts == TargetsOf(s, h);
    hide AnswerWhere, Settle, DropClients, Flush, Answered, Settled, Closes, Unpins, TargetsAt, TargetsOf, FramesOf,
      CommandsOf, IssuedIds, AimedIds, OnlyWork;
    var s1 := Settle(s, IssuedTo(h), Rejected(reason));
    var s2 := AnswerWhere(s1, OfHost(h, s.registry), Error(reason));
    var s3 := Settle(s2, AimedAt(ts, false), Rejected(reason));
    FlushFrames(s, h, reason);
    IssuedAreSettled(s, h, reason);
    FramesAreAnswered(s1, h, reason);
    SameFrames(s, s1, h);
    AimedAreSettled(s2, ts, reason);
    SameAimed(s1, s2, ts);
    ClosesTargets(s3, ts);
    WorkIsSeparate(s, s1, s2, s3, Flush(s, h, reason), FramesOf(s, h), IssuedIds(s, h), AimedIds(s1, ts), ts, reason);
    BothRounds(s, s1, h);
  }

  lemma SameFrames(s: State, s1: State, h: Host)
    requires s1.pending == s.pending && s1.registry == s.registry
    ensures FramesOf(s1, h) == FramesOf(s, h)
  {
  }

  lemma SameAimed(s: State, s1: State, ts: set<Target>)
    requires s1.commands == s.commands
    ensures AimedIds(s1, ts) == AimedIds(s, ts)
  {
  }

  lemma FlushFrames(s: State, h: Host, reason: Reason)
    ensures var ts := TargetsAt(s, h);
      var s1 := Settle(s, IssuedTo(h), Rejected(reason));
      var s2 := AnswerWhere(s1, OfHost(h, s.registry), Error(reason));
      var s3 := Settle(s2, AimedAt(ts, false), Rejected(reason));
      && s1 == s.(commands := s1.commands, settled := s1.settled)
      && s2 == s1.(pending := s2.pending, answers := s2.answers)
      && s3 == s2.(commands := s3.commands, settled := s3.settled)
      && Flush(s, h, reason) == DropClients(s3, ts)
      && DropClients(s3, ts) == s3.(clients := DropClients(s3, ts).clients, socks := DropClients(s3, ts).socks,
                                    pins := DropClients(s3, ts).pins)
  {
    hide CommandsHit, Select, Reject, Replies, TargetsAt, CloseSocks, ClientsOf, Unpinned;
  }

  /** The parts of a flush touch different tables, so their effects add up. */
  lemma WorkIsSeparate(
    s: State, s1: State, s2: State, s3: State, s4: State,
    pending: set<Pending>, issued: set<nat>, aimed: set<nat>, ts: set<Target>, reason: Reason)
    requires s1 == s.(commands := s1.commands, settled := s1.settled)
    requires s2 == s1.(pending := s2.pending, answers := s2.answers)
    requires s3 == s2.(commands := s3.commands, settled := s3.settled)
    requires s4 == s3.(clients := s4.clients, socks := s4.socks, pins := s4.pins)
    requires Settled(s, s1, issued, reason) && Answered(s1, s2, pending, reason)
    requires Settled(s2, s3, aimed, reason) && Closes(s3, s4, ts) && Unpins(s3, s4, ts)
    ensures Answered(s, s4, pending, reason) && Settled(s, s4, issued + aimed, reason)
    ensures Closes(s, s4, ts) && Unpins(s, s4, ts) && OnlyWork(s, s4)
  {
    assert Settled(s1, s3, aimed, reason);
    SettlesTwice(s, s1, s3, issued, aimed, reason);
    hide Settled;
    assert Settled(s, s4, issued + aimed, reason) by {
      SettledTables(s, s, s3, s4, issued + aimed, reason);
    }
    hide Closes, Unpins;
    AnsweredTables(s, s1, s2, s4, pending, reason);
    ClosesTables(s, s3, s4, s4, ts);
  }

  lemma SettledTables(s: State, s1: State, s2: State, s': State, gone: set<nat>, reason: Reason)
    requires Settled(s1, s2, gone, reason) && s1.commands == s.commands && s1.settled == s.settled
    requires s'.commands == s2.commands && s'.settled == s2.settled
    ensures Settled(s, s', gone, reason)
  {
  }

  lemma AnsweredTables(s: State, s1: State, s2: State, s4: State, gone: set<Pending>, reason: Reason)
    requires Answered(s1, s2, gone, reason)
    requires s1.pending == s.pending && s1.answers == s.answers && s1.socks == s.socks
    requires s4.pending == s2.pending && s4.answers == s2.answers
    ensures Answered(s, s4, gone, reason)
  {
    forall a ensures Owed(s, gone, a, reason) <==> Owed(s1, gone, a, reason) {
    }
  }

  lemma ClosesTables(s: State, s1: State, s2: State, s': State, ts: set<Target>)
    requires Closes(s1, s2, ts) && Unpins(s1, s2, ts)
    requires s1.clients == s.clients && s1.socks == s.socks && s1.pins == s.pins
    requires s'.clients == s2.clients && s'.socks == s2.socks && s'.pins == s2.pins
    ensures Closes(s, s', ts) && Unpins(s, s', ts)
  {
  }

  // ---------------------------------------------------------------------------
  // Losing a provider
  // ---------------------------------------------------------------------------

  /** The tables that a lost provider leaves: no provider at `h` and no target registered there. */
  predicate HostIsGone(s: State, s': State, h: Host) {
    && s'.providers == s.providers - {h}
    && s'.registry.Keys == s.registry.Keys - TargetsOf(s, h)
    && (forall t :: t in s'.registry ==> s'.registry[t] == s.registry[t])
  }

  predicate IsProvider(s: State, c: Conn) {
    c.host in s.providers && s.providers[c.host] == c
  }

  lemma ListenerLoses(s: State, c: Conn)
    requires IsProvider(s, c)
    ensures var s' := OnProviderClose(s, c);
      && HostIsLost(s, s', c.host, Disconnected) && HostIsGone(s, s', c.host)
      && s' == s.(pending := s'.pending, answers := s'.answers, commands := s'.commands, settled := s'.settled,
                  clients := s'.clients, socks := s'.socks, pins := s'.pins,
                  providers := s'.providers, registry := s'.registry)
  {
    hide Flush, HostIsLost;
    var s1 := RemoveProvider(s, c.host);
    FlushLoses(s1, c.host, Disconnected);
    LostTables(s, s1, Flush(s1, c.host, Disconnected), OnProviderClose(s, c), c.host, Disconnected);
  }

  /** Losing is a matter of the work tables and the registry alone. */
  lemma LostTables(s: State, s1: State, s2: State, s': State, h: Host, reason: Reason)
    requires HostIsLost(s1, s2, h, reason)
    requires s1.registry == s.registry && s1.pending == s.pending && s1.answers == s.answers
    requires s1.commands == s.commands && s1.settled == s.settled && s1.clients == s.clients
    requires s1.socks == s.socks && s1.pins == s.pins
    requires s'.pending == s2.pending && s'.answers == s2.answers && s'.commands == s2.commands
    requires s'.settled == s2.settled && s'.clients == s2.clients && s'.socks == s2.socks && s'.pins == s2.pins
    ensures HostIsLost(s, s', h, reason)
  {
    assert TargetsOf(s, h) == TargetsOf(s1, h);
    assert FramesOf(s, h) == FramesOf(s1, h) && CommandsOf(s, h) == CommandsOf(s1, h);
    hide TargetsOf, FramesOf, CommandsOf, Answered, Settled, Closes, Unpins;
    AnsweredTables(s, s1, s2, s', FramesOf(s, h), reason);
    SettledTables(s, s1, s2, s', CommandsOf(s, h), reason);
    ClosesTables(s, s1, s2, s', TargetsOf(s, h));
  }

  /** When the current provider of a host goes down, the host's work is lost and its targets are forgotten. */
  lemma ProviderIsLost(s: State, c: Conn)
    requires c in s.conns && s.conns[c] != Closed && c.transport.WebSocket? && IsProvider(s, c)
    ensures var s' := Step(s, ProviderDown(c));
      && HostIsLost(s, s', c.host, Disconnected) && HostIsGone(s, s', c.host)
      && s'.conns == s.conns[c := Closed] && s'.sessions == s.sessions && s'.nextRequestId == s.nextRequestId
      && s'.frames == s.frames && s'.lease == s.lease && s'.sentOn == s.sentOn
  {
    hide OnProviderClose, HostIsLost;
    var s1 := MarkConn(s, c, Closed);
    ListenerLoses(s1, c);
    assert TargetsOf(s, c.host) == TargetsOf(s1, c.host);
    LostTables(s, s1, OnProviderClose(s1, c), OnProviderClose(s1, c), c.host, Disconnected);
  }

  /** A replaced provider's own close only marks its connection. */
  lemma StaleProviderIsClosed(s: State, c: Conn)
    requires c in s.conns && s.conns[c] != Closed && c.transport.WebSocket? && !IsProvider(s, c)
    ensures Step(s, ProviderDown(c)) == s.(conns := s.conns[c := Closed])
  {
    hide Flush;
  }

  /** The session's connection is open and is its host's provider, as on every run. */
  predicate HoldsSession(s: State, sid: SessionId, c: Conn) {
    && sid in s.sessions && s.sessions[sid] == c && c.transport == RpcStream(sid)
    && c in s.conns && s.conns[c] == Open && IsProvider(s, c)
  }

  /** Closing a session loses its host at once. */
  lemma SessionIsLost(s: State, sid: SessionId, c: Conn)
    requires HoldsSession(s, sid, c)
    ensures var s' := Step(s, SessionClosed(sid));
      && HostIsLost(s, s', c.host, Disconnected) && HostIsGone(s, s', c.host)
      && s'.conns == s.conns[c := Closed] && s'.sessions == s.sessions - {sid} && s'.nextRequestId == s.nextRequestId
      && s'.frames == s.frames && s'.lease == s.lease && s'.sentOn == s.sentOn
  {
    hide OnProviderClose, HostIsLost;
    var s1 := EndSession(s, c);
    ListenerLoses(s1, c);
    assert TargetsOf(s, c.host) == TargetsOf(s1, c.host);
    LostTables(s, s1, OnProviderClose(s1, c), OnProviderClose(s1, c), c.host, Disconnected);
  }

  // ---------------------------------------------------------------------------
  // A send that breaks an RPC stream closes its session in the same call
  // ---------------------------------------------------------------------------

  lemma FrameBreaks(s: State, f: Frame, cdpMethod: string, sid: SessionId, c: Conn)
    requires Listens(s, f.sock) && Serves(s, f.sock.target, c) && !MayNotNavigate(s, f.sock.target, cdpMethod)
    requires HoldsSession(s, sid, c)
    ensures Step(s, ClientSent(f, cdpMethod, Breaks))
         == Step(Step(s, ClientSent(f, cdpMethod, Delivered)), SessionClosed(sid))
  {
    var s1 := Enqueue(s, f, c);
    StepOfFrame(s, f, cdpMethod, Breaks);
    StepOfFrame(s, f, cdpMethod, Delivered);
    ServesIsProvider(s, f.sock.target, c);
    RefusalIs(s, f.sock.target, cdpMethod);
    assert HoldsSession(s1, sid, c);
    SessionCloses(s1, sid, c);
    hide Step, ProviderFor, IsWorkspaceTarget, MayNotNavigate, Serves, CloseRpc, Enqueue;
  }

  lemma CommandBreaks(s: State, t: Target, resilient: bool, sid: SessionId, c: Conn)
    requires Serves(s, t, c) && HoldsSession(s, sid, c)
    ensures Step(s, CommandIssued(t, resilient, Breaks))
         == Step(Step(s, CommandIssued(t, resilient, Delivered)), SessionClosed(sid))
  {
    var s1 := Issue(s, HostCommand(t, s.registry[t].host, resilient));
    StepOfIssue(s, t, resilient, Breaks);
    StepOfIssue(s, t, resilient, Delivered);
    ServesIsProvider(s, t, c);
    assert HoldsSession(s1, sid, c);
    SessionCloses(s1, sid, c);
    hide Step, ProviderFor, Serves, CloseRpc, Issue;
  }

  lemma OpeningBreaks(s: State, c: Conn, sid: SessionId)
    requires Enabled(s, SessionOpened(c, false)) && c.transport == RpcStream(sid)
    ensures var up := Step(s, SessionOpened(c, false));
      HoldsSession(up, sid, c) ==> Step(s, SessionOpened(c, true)) == Step(up, SessionClosed(sid))
  {
    hide Attach, CloseRpc;
  }

  lemma RefusalBreaks(s: State, c: Conn, t: Target, r: Registration, known: bool, sid: SessionId)
    requires HoldsSession(s, sid, c) && (!known || !MayRegister(s, c, t))
    ensures Step(s, Registers(c, t, r, known, true)) == Step(s, SessionClosed(sid))
  {
    hide CloseRpc;
  }

  // ---------------------------------------------------------------------------
  // Replacing a provider
  // ---------------------------------------------------------------------------

  /** A host without a provider gets the new one and nothing else changes. */
  lemma ProviderIsAdded(s: State, c: Conn)
    requires c !in s.conns && c.transport.WebSocket? && c.host != "" && c.host !in s.providers
    ensures Step(s, ProviderUp(c)) == s.(conns := s.conns[c := Open], providers := s.providers[c.host := c])
  {
  }

  /** So does a host whose provider is a new session. */
  lemma SessionIsAdded(s: State, c: Conn, sid: SessionId)
    requires c !in s.conns && c.host != "" && c.host !in s.providers
    requires c.transport == RpcStream(sid) && sid != "" && sid !in s.sessions
    ensures Step(s, SessionOpened(c, false))
         == s.(conns := s.conns[c := Open], sessions := s.sessions[sid := c], providers := s.providers[c.host := c])
    ensures HoldsSession(Step(s, SessionOpened(c, false)), sid, c)
  {
    StepOfOpening(s, c);
    hide Step, Flush, CloseConn;
  }

  /** In place of a WebSocket: the host's work is lost, its targets stay, and the old one is told to close. */
  lemma ProviderIsReplaced(s: State, c: Conn, was: Conn)
    requires c !in s.conns && c.transport.WebSocket? && c.host != ""
    requires c.host in s.providers && s.providers[c.host] == was && was in s.conns && was.transport.WebSocket?
    ensures var s' := Step(s, ProviderUp(c));
      && HostIsLost(s, s', c.host, Reconnected)
      && s'.providers == s.providers[c.host := c] && s'.registry == s.registry
      && s'.conns == s.conns[c := Open][was := if s.conns[was] == Open then Closing else s.conns[was]]
      && s'.sessions == s.sessions && s'.nextRequestId == s.nextRequestId && s'.frames == s.frames
  {
    hide Step, HostIsLost;
    var s1 := Track(s, c);
    var s2 := Flush(s1, c.host, Reconnected);
    ReplacingStep(s, c, was);
    hide Flush;
    FlushLoses(s1, c.host, Reconnected);
    LostTables(s, s1, s2, Step(s, ProviderUp(c)), c.host, Reconnected);
  }

  lemma ReplacingStep(s: State, c: Conn, was: Conn)
    requires c !in s.conns && c.transport.WebSocket? && c.host != ""
    requires c.host in s.providers && s.providers[c.host] == was && was in s.conns && was.transport.WebSocket?
    ensures var s2 := Flush(Track(s, c), c.host, Reconnected);
      Step(s, ProviderUp(c)) == s2.(
        conns := s2.conns[was := if s.conns[was] == Open then Closing else s.conns[was]],
        providers := s2.providers[c.host := c])
  {
    var s1 := Track(s, c);
    FlushLoses(s1, c.host, Reconnected);
    var s2 := Flush(s1, c.host, Reconnected);
    assert s2.conns[was] == s.conns[was] && s2.providers == s.providers;
    hide Flush, HostIsLost, CloseConn, Track;
    assert Step(s, ProviderUp(c)) == SetProvider(CloseConn(s2, was), c);
    hide Step;
    WebSocketCloses(s2, was);
  }

  lemma WebSocketCloses(s: State, c: Conn)
    requires c.transport.WebSocket? && c in s.conns
    ensures CloseConn(s, c) == s.(conns := s.conns[c := if s.conns[c] == Open then Closing else s.conns[c]])
  {
    if s.conns[c] != Open {
      assert CloseConn(s, c) == s;
      assert s.conns[c := s.conns[c]] == s.conns;
    }
  }

  /** A second loss of the same host finds nothing left to take. */
  lemma LostOnce(s: State, s1: State, s2: State, h: Host, reason: Reason, later: Reason)
    requires HostIsLost(s, s1, h, reason) && s1.registry == s.registry
    requires HostIsLost(s1, s2, h, later)
    ensures HostIsLost(s, s2, h, reason)
  {
    hide Owed;
    assert TargetsOf(s1, h) == TargetsOf(s, h);
    assert FramesOf(s1, h) == {} by {
      hide Settled, Closes, Unpins, CommandsOf;
    }
    assert CommandsOf(s1, h) == {} by {
      hide Answered, Closes, Unpins, FramesOf;
    }
    hide TargetsOf, FramesOf, CommandsOf;
    NothingAnswered(s, s1, s2, FramesOf(s, h), reason, later);
    NothingSettled(s, s1, s2, CommandsOf(s, h), reason, later);
    NothingClosed(s, s1, s2, TargetsOf(s, h));
  }

  lemma NothingAnswered(s: State, s1: State, s2: State, gone: set<Pending>, reason: Reason, later: Reason)
    requires Answered(s, s1, gone, reason) && Answered(s1, s2, {}, later)
    ensures Answered(s, s2, gone, reason)
  {
    var more := s2.answers[|s1.answers|..];
    if more != [] {
      HasAnswer(more);
      assert false;
    }
    assert s2.answers == s1.answers + more;
  }

  lemma HasAnswer(answers: seq<Answer>)
    requires answers != []
    ensures exists a :: a in answers
  {
    assert answers[0] in answers;
  }

  lemma NothingSettled(s: State, s1: State, s2: State, gone: set<nat>, reason: Reason, later: Reason)
    requires Settled(s, s1, gone, reason) && Settled(s1, s2, {}, later)
    ensures Settled(s, s2, gone, reason)
  {
  }

  lemma NothingClosed(s: State, s1: State, s2: State, ts: set<Target>)
    requires Closes(s, s1, ts) && Unpins(s, s1, ts) && Closes(s1, s2, ts) && Unpins(s1, s2, ts)
    ensures Closes(s, s2, ts) && Unpins(s, s2, ts)
  {
    hide Unpins;
    assert s.clients - ts - ts == s.clients - ts;
    assert s2.clients == s.clients - ts;
    assert forall t :: t in ts ==> t !in s1.clients;
    hide Closes;
    NothingClosing(s, s1, s2, ts);
    NothingUnpinned(s, s1, s2, ts);
  }

  lemma NothingClosing(s: State, s1: State, s2: State, ts: set<Target>)
    requires Closes(s, s1, ts) && Closes(s1, s2, ts) && s2.clients == s.clients - ts
    requires forall t :: t in ts ==> t !in s1.clients
    ensures Closes(s, s2, ts) && s2.socks == s1.socks
  {
    forall w | w in s1.socks ensures s2.socks[w] == s1.socks[w] {
    }
  }

  lemma NothingUnpinned(s: State, s1: State, s2: State, ts: set<Target>)
    requires Unpins(s, s1, ts) && Unpins(s1, s2, ts)
    requires forall t :: t in ts ==> t !in s1.clients
    ensures Unpins(s, s2, ts) && s2.pins == s1.pins
  {
    assert ts * s1.clients.Keys == {};
  }

  /**
   In place of an RPC stream the host's work is lost as well, but the stream closes in the
   same call, so the host's targets are forgotten before the new provider is in place.
   */
  lemma SessionIsReplaced(s: State, c: Conn, sid: SessionId, was: Conn, session: SessionId)
    requires Enabled(s, SessionOpened(c, false)) && c.transport == RpcStream(session)
    requires HoldsSession(s, sid, was) && was.host == c.host
    ensures var s' := Step(s, SessionOpened(c, false));
      && HostIsLost(s, s', c.host, Reconnected)
      && s'.providers == s.providers[c.host := c] && s'.registry.Keys == s.registry.Keys - TargetsOf(s, c.host)
      && s'.conns == s.conns[c := Open][was := Closed] && s'.sessions == s.sessions[session := c] - {sid}
      && HoldsSession(s', session, c)
  {
    hide Step, Flush, HostIsLost, OnProviderClose, FramesOf, CommandsOf;
    var s1 := Track(s, c);
    var s2 := Flush(s1, c.host, Reconnected);
    var s3 := EndSession(s2, was);
    var s4 := OnProviderClose(s3, was);
    var s' := Step(s, SessionOpened(c, false));
    FlushLoses(s1, c.host, Reconnected);
    ListenerLoses(s3, was);
    SessionStep(s, c, was);
    LostTables(s2, s3, s4, s4, c.host, Disconnected);
    LostOnce(s1, s2, s4, c.host, Reconnected, Disconnected);
    LostTables(s, s1, s4, s', c.host, Reconnected);
  }

  lemma SessionStep(s: State, c: Conn, was: Conn)
    requires Enabled(s, SessionOpened(c, false)) && was.host == c.host && IsProvider(s, was)
    requires was in s.conns && s.conns[was] == Open && was.transport.RpcStream?
    ensures var s2 := Flush(Track(s, c), c.host, Reconnected);
      Step(s, SessionOpened(c, false)) == SetProvider(OnProviderClose(EndSession(s2, was), was), c)
  {
    var s1 := Track(s, c);
    FlushLoses(s1, c.host, Reconnected);
    var s2 := Flush(s1, c.host, Reconnected);
    assert ConnOpen(s2, was) && s2.providers == s.providers;
    StepOfOpening(s, c);
    hide Step, Flush, HostIsLost, OnProviderClose, Track, EndSession, CloseConn;
    RpcCloses(s2, was);
  }

  lemma StepOfOpening(s: State, c: Conn)
    requires Enabled(s, SessionOpened(c, false))
    ensures Step(s, SessionOpened(c, false)) == Attach(Track(s, c), c)
    ensures var s1 := Track(s, c);
      c.host in s.providers && s.providers[c.host] != c ==>
        Attach(s1, c) == SetProvider(CloseConn(Flush(s1, c.host, Reconnected), s.providers[c.host]), c)
  {
    hide Flush, CloseConn;
  }

  lemma RpcCloses(s: State, c: Conn)
    requires c.transport.RpcStream? && ConnOpen(s, c)
    ensures CloseConn(s, c) == OnProviderClose(EndSession(s, c), c)
  {
    hide OnProviderClose, EndSession;
  }

  // ---------------------------------------------------------------------------
  // Targets, clients and the end
  // ---------------------------------------------------------------------------

  /**
   The registering host takes a target back: its commands are answered, its host commands
   but the resilient ones are settled, and its clients are closed while its pin stays.
   */
  lemma TargetIsUnregistered(s: State, c: Conn, t: Target)
    requires c in s.conns && t in s.registry && s.registry[t].host == c.host
    ensures var s' := Step(s, Unregisters(c, t));
      && Answered(s, s', (set p | p in s.pending && p.frame.sock.target == t), TargetClosed)
      && Settled(s, s', (set id | id in s.commands && s.commands[id].target == t && !s.commands[id].resilient),
                 TargetClosed)
      && Closes(s, s', {t}) && s'.registry == s.registry - {t}
      && s' == s.(pending := s'.pending, answers := s'.answers, commands := s'.commands, settled := s'.settled,
                  clients := s'.clients, socks := s'.socks, registry := s'.registry, leaked := s'.leaked)
  {
    hide Step, AnswerWhere, Settle, OrphanClients, Answered, Settled, Closes;
    var s1 := Unlist(s, t);
    var s2 := AnswerWhere(s1, OfTarget(t), Error(TargetClosed));
    var s3 := Settle(s2, AimedAt({t}, true), Rejected(TargetClosed));
    var s' := OrphanClients(s3, t);
    var pending := set p | p in s.pending && p.frame.sock.target == t;
    var settled := set id | id in s.commands && s.commands[id].target == t && !s.commands[id].resilient;
    UnregisterFrames(s, c, t);
    AnswersScope(s1, OfTarget(t), pending, TargetClosed);
    SettlesScope(s2, AimedAt({t}, true), settled, TargetClosed);
    OrphansTarget(s3, t);
    AnsweredTables(s, s1, s2, s', pending, TargetClosed);
    SettledTables(s, s2, s3, s', settled, TargetClosed);
    CloseTables(s, s3, s', s', {t});
  }

  lemma UnregisterFrames(s: State, c: Conn, t: Target)
    requires c in s.conns && t in s.registry && s.registry[t].host == c.host
    ensures var s1 := Unlist(s, t);
      var s2 := AnswerWhere(s1, OfTarget(t), Error(TargetClosed));
      var s3 := Settle(s2, AimedAt({t}, true), Rejected(TargetClosed));
      var s' := OrphanClients(s3, t);
      && s1 == s.(registry := s.registry - {t})
      && s2 == s1.(pending := s2.pending, answers := s2.answers)
      && s3 == s2.(commands := s3.commands, settled := s3.settled)
      && s' == s3.(clients := s'.clients, socks := s'.socks, leaked := s'.leaked)
      && Step(s, Unregisters(c, t)) == s'
  {
    hide CommandsHit, Select, Reject, Replies, CloseSocks, ClientsOf;
    UnregisterStep(s, c, t);
    hide Step;
  }

  lemma OrphansTarget(s: State, t: Target)
    ensures Closes(s, OrphanClients(s, t), {t})
  {
  }

  lemma CloseTables(s: State, s1: State, s2: State, s': State, ts: set<Target>)
    requires Closes(s1, s2, ts) && s1.clients == s.clients && s1.socks == s.socks
    requires s'.clients == s2.clients && s'.socks == s2.socks
    ensures Closes(s, s', ts)
  {
  }

  /** No other host can. */
  lemma UnregisterIsIgnored(s: State, c: Conn, t: Target)
    requires !(t in s.registry && s.registry[t].host == c.host)
    ensures Step(s, Unregisters(c, t)) == s
  {
    hide AnswerWhere, Settle, OrphanClients;
  }

  /** A client that goes takes its commands with it, unanswered; the last one of a target unpins it. */
  lemma ClientIsRemoved(s: State, w: Sock)
    requires Listens(s, w)
    ensures var s' := Step(s, ClientDown(w, false)); var t := w.target;
      var last := t in s.clients && s.clients[t] - {w} == {};
      && (forall p :: p in s'.pending <==> p in s.pending && p.frame.sock != w)
      && s'.socks == s.socks[w := Closed]
      && s'.clients == (if t !in s.clients then s.clients
                        else if last then s.clients - {t} else s.clients[t := s.clients[t] - {w}])
      && (forall t2 :: t2 in s'.pins <==> t2 in s.pins || (last && t2 == t))
      && (forall t2 :: t2 in s'.pins ==>
            s'.pins[t2] == if last && t2 == t then (if t in s.pins then s.pins[t] else []) + [false] else s.pins[t2])
      && s' == s.(pending := s'.pending, socks := s'.socks, clients := s'.clients, pins := s'.pins)
  {
    RemovingStep(s, w);
    hide Step;
    var s1 := MarkSock(s, w, Closed);
    RemovedTables(s1, w);
    hide RemoveClient, Reject;
    RejectsIn(OfSock(w), s.pending);
  }

  lemma RemovingStep(s: State, w: Sock)
    requires Listens(s, w)
    ensures Step(s, ClientDown(w, false)) == PurgeSock(RemoveClient(MarkSock(s, w, Closed), w), w)
  {
    hide RemoveClient, PurgeSock, ProviderFor, IsLastClient;
    var s1 := MarkSock(s, w, Closed);
    ForgottenQuietly(s1, w);
    hide ForgetClient;
  }

  lemma ForgottenQuietly(s: State, w: Sock)
    ensures ForgetClient(s, w, false) == RemoveClient(s, w)
  {
    hide RemoveClient, ProviderFor, IsLastClient;
  }

  lemma RemovedTables(s: State, w: Sock)
    ensures var s' := RemoveClient(s, w); var t := w.target;
      var last := t in s.clients && s.clients[t] - {w} == {};
      && s'.clients == (if t !in s.clients then s.clients
                        else if last then s.clients - {t} else s.clients[t := s.clients[t] - {w}])
      && (forall t2 :: t2 in s'.pins <==> t2 in s.pins || (last && t2 == t))
      && (forall t2 :: t2 in s'.pins ==>
            s'.pins[t2] == if last && t2 == t then (if t in s.pins then s.pins[t] else []) + [false] else s.pins[t2])
      && s' == s.(clients := s'.clients, pins := s'.pins)
  {
  }

  /** With an RPC provider whose stream breaks on the notice, the move comes after the session's close. */
  lemma LeaseBreaks(s: State, t: Target, next: Option<Host>, sid: SessionId, c: Conn)
    requires next != Some("") && next != Some(c.host) && t in s.lease && s.lease[t] == c.host
    requires HoldsSession(s, sid, c) && t in s.registry && s.registry[t].host == c.host
    ensures Step(s, LeaseMoved(t, next, true)) == Step(Step(s, SessionClosed(sid)), LeaseMoved(t, next, false))
  {
    hide Step, CloseTargetConnections, SetLease, CloseRpc, HostIsLost, Detach;
    SessionIsLost(s, sid, c);
    SessionCloses(s, sid, c);
    var s1 := Step(s, SessionClosed(sid));
    assert t !in s1.registry && s1.lease == s.lease;
    Unlisted(s1, t);
    DetachIs(s1, t, c.host);
    BreakingDetach(s, t, c);
    LeaseLeaves(s, t, next, c.host, true);
    LeaseLeaves(s1, t, next, c.host, false);
  }

  lemma SessionCloses(s: State, sid: SessionId, c: Conn)
    requires HoldsSession(s, sid, c)
    ensures Step(s, SessionClosed(sid)) == CloseRpc(s, c)
  {
    hide CloseRpc;
  }

  lemma Unlisted(s: State, t: Target)
    requires t !in s.registry
    ensures Unlist(s, t) == s
  {
    assert s.registry - {t} == s.registry;
  }

  lemma LeaseLeaves(s: State, t: Target, next: Option<Host>, h: Host, breaks: bool)
    requires next != Some("") && next != Some(h) && t in s.lease && s.lease[t] == h
    ensures Step(s, LeaseMoved(t, next, breaks))
         == SetLease(CloseTargetConnections(Detach(s, t, h, breaks), t), t, next)
  {
    hide CloseTargetConnections, SetLease, Detach;
  }

  lemma BreakingDetach(s: State, t: Target, c: Conn)
    requires IsProvider(s, c) && ConnOpen(s, c) && c.transport.RpcStream? && RegisteredAt(s, t, c.host)
    ensures Detach(s, t, c.host, true) == Unlist(CloseRpc(s, c), t)
  {
    hide CloseRpc, Unlist;
  }

  /** The target is registered at the host that holds its lease. */
  predicate LosesRegistration(s: State, t: Target) {
    t in s.lease && t in s.registry && s.registry[t].host == s.lease[t]
  }

  /**
   The lease of a target moves: the host that loses it loses the registration, everything
   pending for the target is answered or settled, and its clients are closed and unpinned.
   */
  lemma LeaseIsMoved(s: State, t: Target, next: Option<Host>)
    requires next != Some("") && next != (if t in s.lease then Some(s.lease[t]) else None)
    ensures var s' := Step(s, LeaseMoved(t, next, false));
      && Answered(s, s', (set p | p in s.pending && p.frame.sock.target == t), HostChanged)
      && Settled(s, s', (set id | id in s.commands && s.commands[id].target == t), HostChanged)
      && Closes(s, s', {t}) && Unpins(s, s', {t})
      && (next.Some? ==> s'.lease == s.lease[t := next.value]) && (next == None ==> s'.lease == s.lease - {t})
      && (LosesRegistration(s, t) ==> s'.registry == s.registry - {t})
      && (!LosesRegistration(s, t) ==> s'.registry == s.registry)
      && s' == s.(pending := s'.pending, answers := s'.answers, commands := s'.commands, settled := s'.settled,
                  clients := s'.clients, socks := s'.socks, pins := s'.pins,
                  registry := s'.registry, lease := s'.lease)
  {
    hide Step, SetLease, CloseTargetConnections, Answered, Settled, Closes, Unpins;
    var s1: State;
    if LosesRegistration(s, t) {
      s1 := Unlist(s, t);
    } else {
      s1 := s;
    }
    assert s1 == s.(registry := s1.registry);
    MovingStep(s, t, next, s1);
    ConnectionsClose(s1, t);
    var s2 := CloseTargetConnections(s1, t);
    LeaseTable(s2, t, next);
    var s' := SetLease(s2, t, next);
    MovedTables(s, s1, s2, s', t);
  }

  lemma LeaseTable(s: State, t: Target, next: Option<Host>)
    ensures var s' := SetLease(s, t, next);
      && s' == s.(lease := s'.lease)
      && (next.Some? ==> s'.lease == s.lease[t := next.value]) && (next == None ==> s'.lease == s.lease - {t})
  {
  }

  lemma MovedTables(
    s: State, s1: State, s2: State, s': State, t: Target)
    requires s1 == s.(registry := s1.registry) && OnlyWork(s1, s2) && s' == s2.(lease := s'.lease)
    requires Answered(s1, s2, (set p | p in s1.pending && p.frame.sock.target == t), HostChanged)
    requires Settled(s1, s2, (set id | id in s1.commands && s1.commands[id].target == t), HostChanged)
    requires Closes(s1, s2, {t}) && Unpins(s1, s2, {t})
    ensures Answered(s, s', (set p | p in s.pending && p.frame.sock.target == t), HostChanged)
    ensures Settled(s, s', (set id | id in s.commands && s.commands[id].target == t), HostChanged)
    ensures Closes(s, s', {t}) && Unpins(s, s', {t})
    ensures s' == s.(pending := s'.pending, answers := s'.answers, commands := s'.commands, settled := s'.settled,
                     clients := s'.clients, socks := s'.socks, pins := s'.pins,
                     registry := s1.registry, lease := s'.lease)
  {
    hide Answered, Settled, Closes, Unpins;
    var pending := set p | p in s.pending && p.frame.sock.target == t;
    var settled := set id | id in s.commands && s.commands[id].target == t;
    assert pending == (set p | p in s1.pending && p.frame.sock.target == t);
    assert settled == (set id | id in s1.commands && s1.commands[id].target == t);
    AnsweredTables(s, s1, s2, s', pending, HostChanged);
    SettledTables(s, s1, s2, s', settled, HostChanged);
    ClosesTables(s, s1, s2, s', {t});
  }

  lemma MovingStep(s: State, t: Target, next: Option<Host>, s1: State)
    requires next != Some("") && next != (if t in s.lease then Some(s.lease[t]) else None)
    requires LosesRegistration(s, t) ==> s1 == Unlist(s, t)
    requires !LosesRegistration(s, t) ==> s1 == s
    ensures Step(s, LeaseMoved(t, next, false)) == SetLease(CloseTargetConnections(s1, t), t, next)
  {
    hide CloseTargetConnections, SetLease;
    if t in s.lease {
      DetachIs(s, t, s.lease[t]);
      hide Detach;
    }
  }

  lemma DetachIs(s: State, t: Target, h: Host)
    ensures t in s.registry && s.registry[t].host == h ==> Detach(s, t, h, false) == Unlist(s, t)
    ensures !(t in s.registry && s.registry[t].host == h) ==> Detach(s, t, h, false) == s
  {
    hide OpenProvider, Unlist;
  }

  lemma ConnectionsClose(s: State, t: Target)
    ensures var s' := CloseTargetConnections(s, t);
      && Answered(s, s', (set p | p in s.pending && p.frame.sock.target == t), HostChanged)
      && Settled(s, s', (set id | id in s.commands && s.commands[id].target == t), HostChanged)
      && Closes(s, s', {t}) && Unpins(s, s', {t}) && OnlyWork(s, s')
  {
    hide AnswerWhere, Settle, DropClients, Answered, Settled, Closes, Unpins;
    var s1 := AnswerWhere(s, OfTarget(t), Error(HostChanged));
    var s2 := Settle(s1, AimedAt({t}, false), Rejected(HostChanged));
    var s3 := DropClients(s2, {t});
    var pending := set p | p in s.pending && p.frame.sock.target == t;
    var settled := set id | id in s.commands && s.commands[id].target == t;
    ConnectionFrames(s, t);
    AnswersScope(s, OfTarget(t), pending, HostChanged);
    SettlesScope(s1, AimedAt({t}, false), settled, HostChanged);
    ClosesTargets(s2, {t});
    AnsweredTables(s, s, s1, s3, pending, HostChanged);
    SettledTables(s, s1, s2, s3, settled, HostChanged);
    ClosesTables(s, s2, s3, s3, {t});
  }

  lemma ConnectionFrames(s: State, t: Target)
    ensures var s1 := AnswerWhere(s, OfTarget(t), Error(HostChanged));
      var s2 := Settle(s1, AimedAt({t}, false), Rejected(HostChanged));
      var s3 := DropClients(s2, {t});
      && s1 == s.(pending := s1.pending, answers := s1.answers)
      && s2 == s1.(commands := s2.commands, settled := s2.settled)
      && s3 == s2.(clients := s3.clients, socks := s3.socks, pins := s3.pins)
      && CloseTargetConnections(s, t) == s3
  {
    hide CommandsHit, Select, Reject, Replies, CloseSocks, ClientsOf, Unpinned;
  }

  /** A lease that stays where it is changes nothing. */
  lemma LeaseStays(s: State, t: Target, breaks: bool)
    ensures Step(s, LeaseMoved(t, if t in s.lease then Some(s.lease[t]) else None, breaks)) == s
  {
    hide CloseTargetConnections, Detach, SetLease;
  }

  /** Stopping answers and settles everything, drops every client and closes every provider. */
  lemma BridgeIsStopped(s: State)
    ensures var s' := Step(s, BridgeStopped);
      && Answered(s, s', (set p | p in s.pending), ShuttingDown) && Settled(s, s', s.commands.Keys, ShuttingDown)
      && Closes(s, s', s.clients.Keys) && Unpins(s, s', s.clients.Keys)
      && s'.providers == map[] && s'.registry == map[] && s'.conns.Keys == s.conns.Keys
      && (forall c :: c in s.conns ==>
            s'.conns[c] == if s.conns[c] == Open && c in s.providers.Values
                           then (if c.transport.RpcStream? then Closed else Closing) else s.conns[c])
      && (forall sid :: sid in s'.sessions <==> sid in s.sessions && s.sessions[sid] !in s.providers.Values)
  {
    hide AnswerWhere, Settle, DropClients, Answered, Settled, Closes, Unpins;
    var s1 := Settle(s, AllCommands, Rejected(ShuttingDown));
    var s2 := AnswerWhere(s1, Everything, Error(ShuttingDown));
    var s3 := DropClients(s2, s2.clients.Keys);
    var pending := set p | p in s.pending;
    StopFrames(s);
    SettlesScope(s, AllCommands, s.commands.Keys, ShuttingDown);
    AnswersScope(s1, Everything, pending, ShuttingDown);
    ClosesTargets(s2, s.clients.Keys);
    var s' := CloseProviders(s3);
    AnsweredTables(s, s1, s2, s', pending, ShuttingDown);
    SettledTables(s, s, s1, s', s.commands.Keys, ShuttingDown);
    ClosesTables(s, s2, s3, s', s.clients.Keys);
  }

  lemma StopFrames(s: State)
    ensures var s1 := Settle(s, AllCommands, Rejected(ShuttingDown));
      var s2 := AnswerWhere(s1, Everything, Error(ShuttingDown));
      var s3 := DropClients(s2, s2.clients.Keys);
      && s1 == s.(commands := s1.commands, settled := s1.settled)
      && s2 == s1.(pending := s2.pending, answers := s2.answers)
      && s3 == s2.(clients := s3.clients, socks := s3.socks, pins := s3.pins)
      && Step(s, BridgeStopped) == CloseProviders(s3)
  {
    hide CommandsHit, Select, Reject, Replies, CloseSocks, ClientsOf, Unpinned;
  }
}
