/**
 The relay as the object it is: maps and lists updated in place by one method per
 event.  The loops that walk a table and remove entries are methods of their own,
 proved against the filters of the specification; every event method is proved to
 take the object to the state the specification gives.
 */
module CdpBroker {
  import opened Options
  import opened CdpRelay
  import opened CdpConservation
  import opened CdpRouting
  import opened CdpSafety
  import opened CdpTheorems

  // ---------------------------------------------------------------------------
  // The loops
  // ---------------------------------------------------------------------------

  lemma {:induction false} RejectSnoc(scope: Scope, ps: seq<Pending>, p: Pending)
    ensures Reject(scope, ps + [p]) == Reject(scope, ps) + (if Hits(scope, p) then [] else [p])
  {
    hide Hits;
    if ps == [] {
      assert ps + [p] == [p];
      assert Reject(scope, [p][1..]) == [];
    } else {
      assert (ps + [p])[1..] == ps[1..] + [p];
      RejectSnoc(scope, ps[1..], p);
    }
  }

  lemma {:induction false} RepliesSnoc(
    scope: Scope, socks: map<Sock, ReadyState>, ps: seq<Pending>, p: Pending, reply: Reply)
    ensures Replies(socks, Select(scope, ps + [p]), reply)
         == Replies(socks, Select(scope, ps), reply)
            + (if Hits(scope, p) && p.frame.sock in socks && socks[p.frame.sock] == Open
               then [Answer(p.frame, reply)] else [])
  {
    hide Hits;
    if ps == [] {
      assert ps + [p] == [p];
      assert Select(scope, [p][1..]) == [];
      assert Replies(socks, [p][1..], reply) == [];
    } else {
      assert (ps + [p])[1..] == ps[1..] + [p];
      RepliesSnoc(scope, socks, ps[1..], p, reply);
      if Hits(scope, ps[0]) {
        RepliesCons(socks, ps[0], Select(scope, ps[1..] + [p]), reply);
        RepliesCons(socks, ps[0], Select(scope, ps[1..]), reply);
      } else {
        assert Select(scope, ps) == Select(scope, ps[1..]);
        assert Select(scope, ps + [p]) == Select(scope, ps[1..] + [p]);
      }
    }
  }

  lemma RepliesCons(socks: map<Sock, ReadyState>, p: Pending, ps: seq<Pending>, reply: Reply)
    ensures Replies(socks, [p] + ps, reply)
         == (if p.frame.sock in socks && socks[p.frame.sock] == Open then [Answer(p.frame, reply)] else [])
            + Replies(socks, ps, reply)
  {
    assert ([p] + ps)[1..] == ps;
  }

  /** Walk the pending commands: answer and drop the ones in the scope, keep the others in order. */
  method WalkPending(scope: Scope, ps: seq<Pending>, socks: map<Sock, ReadyState>, reply: Reply)
    returns (kept: seq<Pending>, sent: seq<Answer>)
    ensures kept == Reject(scope, ps)
    ensures sent == Replies(socks, Select(scope, ps), reply)
  {
    kept, sent := [], [];
    for i := 0 to |ps|
      invariant kept == Reject(scope, ps[..i])
      invariant sent == Replies(socks, Select(scope, ps[..i]), reply)
    {
      assert ps[..i + 1] == ps[..i] + [ps[i]];
      RejectSnoc(scope, ps[..i], ps[i]);
      RepliesSnoc(scope, socks, ps[..i], ps[i], reply);
      if Hits(scope, ps[i]) {
        if ps[i].frame.sock in socks && socks[ps[i].frame.sock] == Open {
          sent := sent + [Answer(ps[i].frame, reply)];
        }
      } else {
        kept := kept + [ps[i]];
      }
    }
    assert ps[..|ps|] == ps;
  }

  /** Walk the host commands: the ones in the scope leave the table. */
  method WalkCommands(scope: CommandScope, commands: map<nat, HostCommand>)
    returns (kept: map<nat, HostCommand>, hit: set<nat>)
    ensures kept == commands - hit
    ensures hit == CommandsHit(scope, commands)
  {
    hide HitsCommand;
    kept, hit := commands, {};
    var todo := commands.Keys;
    while todo != {}
      invariant todo <= commands.Keys
      invariant forall id :: id in hit <==> id in commands && id !in todo && HitsCommand(scope, id, commands[id])
      invariant forall id :: id in kept <==> id in commands && id !in hit
      invariant forall id :: id in kept ==> kept[id] == commands[id]
      decreases |todo|
    {
      var id :| id in todo;
      todo := todo - {id};
      if HitsCommand(scope, id, commands[id]) {
        kept := kept - {id};
        hit := hit + {id};
      }
    }
  }

  method WalkSocks(socks: map<Sock, ReadyState>, ws: set<Sock>) returns (r: map<Sock, ReadyState>)
    ensures r == CloseSocks(socks, ws)
  {
    r := socks;
    var todo := ws;
    while todo != {}
      invariant todo <= ws
      invariant r == CloseSocks(socks, ws - todo)
      decreases |todo|
    {
      var w :| w in todo;
      todo := todo - {w};
      if w in r && r[w] == Open {
        r := r[w := Closing];
      }
    }
    assert ws - {} == ws;
  }

  /** Walk the registry: a lost host's targets leave it. */
  method WalkRegistry(registry: map<Target, Registration>, h: Host)
    returns (kept: map<Target, Registration>, gone: set<Target>)
    ensures kept == map t | t in registry && registry[t].host != h :: registry[t]
    ensures gone == set t | t in registry && registry[t].host == h
  {
    kept, gone := registry, {};
    var todo := registry.Keys;
    while todo != {}
      invariant todo <= registry.Keys
      invariant forall t :: t in kept <==> t in registry && (t in todo || registry[t].host != h)
      invariant forall t :: t in kept ==> kept[t] == registry[t]
      invariant forall t :: t in gone <==> t in registry && t !in todo && registry[t].host == h
      decreases |todo|
    {
      var t :| t in todo;
      todo := todo - {t};
      if registry[t].host == h {
        kept := kept - {t};
        gone := gone + {t};
      }
    }
  }

  /** Look a request id up. */
  method Lookup(ps: seq<Pending>, id: nat) returns (r: Option<Pending>)
    ensures r == Find(ps, id)
  {
    var i := 0;
    while i < |ps|
      invariant 0 <= i <= |ps| && Find(ps, id) == Find(ps[i..], id)
    {
      if ps[i].id == id { return Some(ps[i]); }
      i := i + 1;
    }
    return None;
  }

  // ---------------------------------------------------------------------------
  // The object
  // ---------------------------------------------------------------------------

  /** What the bridge has received, sent and called, for the specification only. */
  datatype History = History(
    frames: seq<Frame>, answers: seq<Answer>, pins: map<Target, seq<bool>>, settled: map<nat, Outcome>,
    sentOn: map<nat, Conn>, leaked: set<Target>, repinned: set<Target>)

  class CdpBridge {
    const hasResolver: bool
    var lease: map<Target, Host>
    var providers: map<Host, Conn>
    var registry: map<Target, Registration>
    var clients: map<Target, set<Sock>>
    var pending: seq<Pending>
    var commands: map<nat, HostCommand>
    var nextRequestId: nat
    var conns: map<Conn, ReadyState>
    var socks: map<Sock, ReadyState>
    var sessions: map<SessionId, Conn>
    ghost var log: History

    ghost function View(): State
      reads this
    {
      State(hasResolver, lease, providers, registry, clients, pending, commands, nextRequestId, conns, socks,
            sessions, log.frames, log.answers, log.pins, log.settled, log.sentOn, log.leaked, log.repinned)
    }

    constructor (hasResolver: bool, lease: map<Target, Host>)
      ensures View() == Initial(hasResolver, lease) && Inv(View())
    {
      hide Inv;
      InitialInv(hasResolver, lease);
      this.hasResolver := hasResolver;
      this.lease := lease;
      providers, registry, clients, pending, commands, nextRequestId := map[], map[], map[], [], map[], 1;
      conns, socks, sessions := map[], map[], map[];
      log := History([], [], map[], map[], map[], {}, {});
    }

    // -------------------------------------------------------------------------
    // Removing pending work
    // -------------------------------------------------------------------------

    /** `sendErrorToClient`, and the result branch: only an open socket is written to. */
    method Reply(f: Frame, reply: Reply)
      modifies this`log
      ensures View() == Respond(old(View()), f, reply)
    {
      if f.sock in socks && socks[f.sock] == Open {
        log := log.(answers := log.answers + [Answer(f, reply)]);
      }
    }

    method AnswerPending(scope: Scope, reply: Reply)
      modifies this`pending, this`log
      ensures View() == AnswerWhere(old(View()), scope, reply)
    {
      hide Hits, Select, Reject, Replies;
      var kept, sent := WalkPending(scope, pending, socks, reply);
      pending := kept;
      log := log.(answers := log.answers + sent);
    }

    method ForgetPending(scope: Scope)
      modifies this`pending
      ensures View() == old(View()).(pending := Reject(scope, old(pending)))
    {
      hide Hits, Select, Reject, Replies;
      var kept, sent := WalkPending(scope, pending, socks, Result);
      pending := kept;
    }

    method SettleCommands(scope: CommandScope, outcome: Outcome)
      modifies this`commands, this`log
      ensures View() == Settle(old(View()), scope, outcome)
    {
      hide CommandsHit;
      var kept, hit := WalkCommands(scope, commands);
      log := log.(settled := log.settled + map id | id in hit :: outcome);
      commands := kept;
    }

    /** `dropTargetClients` for each of the targets. */
    method DropTargets(ts: set<Target>)
      modifies this`clients, this`socks, this`log
      ensures View() == DropClients(old(View()), ts)
    {
      hide CloseSocks;
      var ws := set t, w | t in ts && t in clients && w in clients[t] :: w;
      var closed := WalkSocks(socks, ws);
      log := log.(pins := Unpinned(View(), ts * clients.Keys));
      socks := closed;
      clients := clients - ts;
    }

    // -------------------------------------------------------------------------
    // Provider loss
    // -------------------------------------------------------------------------

    method FlushProvider(h: Host, reason: Reason)
      modifies this
      ensures View() == Flush(old(View()), h, reason)
    {
      hide Settle, AnswerWhere, DropClients;
      var kept, gone := WalkRegistry(registry, h);
      var listed := registry;
      SettleCommands(IssuedTo(h), Rejected(reason));
      AnswerPending(OfHost(h, listed), Error(reason));
      SettleCommands(AimedAt(gone, false), Rejected(reason));
      DropTargets(gone);
    }

    /** The close listener of a provider connection. */
    method HandleProviderClose(c: Conn)
      modifies this
      ensures View() == OnProviderClose(old(View()), c)
    {
      hide Flush;
      if c.host in providers && providers[c.host] == c {
        providers := providers - {c.host};
        FlushProvider(c.host, Disconnected);
        var kept, gone := WalkRegistry(registry, c.host);
        registry := kept;
      }
    }

    /** `close` and `fail` of an RPC connection. */
    method CloseRpcConnection(c: Conn)
      requires c.transport.RpcStream?
      modifies this
      ensures View() == CloseRpc(old(View()), c)
    {
      hide OnProviderClose;
      if c in conns && conns[c] == Open {
        conns := conns[c := Closed];
        if c.transport.session in sessions && sessions[c.transport.session] == c {
          sessions := sessions - {c.transport.session};
        }
        HandleProviderClose(c);
      }
    }

    method CloseConnection(c: Conn)
      modifies this
      ensures View() == CloseConn(old(View()), c)
    {
      hide CloseRpc;
      if c.transport.RpcStream? {
        CloseRpcConnection(c);
      } else if c in conns && conns[c] == Open {
        conns := conns[c := Closing];
      }
    }

    /** `provider.send`: `breaks` says that the stream refuses the chunk. */
    method SendTo(c: Conn, breaks: bool)
      modifies this
      ensures View() == Send(old(View()), c, breaks)
    {
      hide CloseRpc;
      if breaks && c.transport.RpcStream? {
        CloseRpcConnection(c);
      }
    }

    // -------------------------------------------------------------------------
    // Providers and sessions
    // -------------------------------------------------------------------------

    /** `handleProviderConnection`. */
    method AttachProvider(c: Conn)
      modifies this
      ensures View() == Attach(old(View()), c)
    {
      hide Flush, CloseConn;
      if c.host in providers && providers[c.host] != c {
        var existing := providers[c.host];
        FlushProvider(c.host, Reconnected);
        CloseConnection(existing);
      }
      providers := providers[c.host := c];
    }

    /** A local shell's WebSocket passes authentication. */
    method ConnectProvider(c: Conn)
      requires c.transport.WebSocket?
      modifies this
      ensures View() == ConnectWebSocketProvider(old(View()), c)
    {
      hide Attach;
      conns := conns[c := Open];
      AttachProvider(c);
    }

    /** `CdpHostProviderRpcChannel.open`: refusals change nothing. */
    method OpenChannelSession(c: Conn, callerMayHost: bool, authorized: bool, breaks: bool) returns (accepted: bool)
      requires c.transport.RpcStream?
      modifies this
      ensures accepted <==> (c.transport.session != "" && c.host != "" && callerMayHost
                             && c.transport.session !in old(sessions) && authorized)
      ensures !accepted ==> View() == old(View())
      ensures accepted ==> View() == OpenSession(old(View()), c, breaks)
    {
      hide Attach, Send;
      var sid := c.transport.session;
      if sid == "" || c.host == "" || !callerMayHost || sid in sessions || !authorized { return false; }
      conns := conns[c := Open];
      sessions := sessions[sid := c];
      AttachProvider(c);
      SendTo(c, breaks);
      return true;
    }

    /** `CdpHostProviderRpcChannel.close`; a caller that does not own the session changes nothing. */
    method CloseChannelSession(sid: SessionId, mayUse: bool) returns (allowed: bool)
      requires forall x :: x in sessions ==> sessions[x].transport == RpcStream(x)
      modifies this
      ensures allowed <==> sid !in old(sessions) || mayUse
      ensures View() == if allowed then CloseSession(old(View()), sid) else old(View())
    {
      hide CloseRpc;
      if sid !in sessions { return true; }
      if !mayUse { return false; }
      CloseRpcConnection(sessions[sid]);
      return true;
    }

    /** `CdpHostProviderRpcChannel.stop`, walking the sessions in their insertion order. */
    method StopRpcChannel(order: seq<SessionId>)
      modifies this
      ensures View() == StopChannel(old(View()), order)
    {
      hide CloseSession;
      ghost var before := View();
      assert order[..0] == [];
      for i := 0 to |order|
        invariant View() == CloseSessions(before, order[..i])
      {
        ghost var mid := View();
        CloseOne(order[i]);
        SessionsSnoc(before, order[..i], order[i]);
        assert order[..i + 1] == order[..i] + [order[i]];
      }
      assert order[..|order|] == order;
      sessions := map[];
    }

    method CloseOne(sid: SessionId)
      modifies this
      ensures View() == CloseSession(old(View()), sid)
    {
      hide CloseRpc;
      if sid in sessions && sessions[sid].transport.RpcStream? {
        CloseRpcConnection(sessions[sid]);
      }
    }

    // -------------------------------------------------------------------------
    // Messages from a provider
    // -------------------------------------------------------------------------

    method HandleRegister(c: Conn, t: Target, r: Registration, known: bool, breaks: bool)
      modifies this
      ensures View() == Register(old(View()), c, t, r, known, breaks)
    {
      hide Send;
      var open := c in conns && conns[c] == Open;
      if !known {
        if open { SendTo(c, breaks); }
        return;
      }
      if !(c.host in providers && providers[c.host] == c && open) { return; }
      if hasResolver && (t !in lease || lease[t] != c.host) {
        SendTo(c, breaks);
        return;
      }
      registry := registry[t := r.(host := c.host)];
    }

    method HandleUnregister(c: Conn, t: Target)
      modifies this
      ensures View() == Unregister(old(View()), c.host, t)
    {
      hide AnswerWhere, Settle, OrphanClients;
      if t in registry && registry[t].host == c.host {
        registry := registry - {t};
        AnswerPending(OfTarget(t), Error(TargetClosed));
        SettleCommands(AimedAt({t}, true), Rejected(TargetClosed));
        OrphanTarget(t);
      }
    }

    /** Close and forget a target's clients; the pin callback is not called here. */
    method OrphanTarget(t: Target)
      modifies this`clients, this`socks, this`log
      ensures View() == OrphanClients(old(View()), t)
    {
      hide CloseSocks;
      var ws := if t in clients then clients[t] else {};
      assert ws == ClientsOf(View(), {t});
      var closed := WalkSocks(socks, ws);
      log := log.(leaked := if t in clients then log.leaked + {t} else log.leaked);
      socks := closed;
      clients := clients - {t};
    }

    method HandleCdpReply(c: Conn, id: nat, reply: Reply)
      modifies this
      ensures View() == CdpReply(old(View()), c.host, id, reply)
    {
      hide AnswerWhere, Find;
      var p := Lookup(pending, id);
      if p.Some? && p.value.frame.sock.target in registry && registry[p.value.frame.sock.target].host == c.host {
        AnswerPending(OfId(id), reply);
      }
    }

    method HandleCommandReply(c: Conn, id: nat, outcome: Outcome, hostKind: bool)
      modifies this
      ensures View() == CommandReply(old(View()), c.host, id, outcome, hostKind)
    {
      hide Settle;
      if id in commands {
        var command := commands[id];
        if (command.target in registry && registry[command.target].host == c.host)
           || (hostKind && command.host == c.host) {
          SettleCommands(CommandId(id), outcome);
        }
      }
    }

    // -------------------------------------------------------------------------
    // Clients
    // -------------------------------------------------------------------------

    method FindProvider(t: Target) returns (c: Option<Conn>)
      ensures c == ProviderFor(View(), t)
      ensures c.Some? ==> t in registry
    {
      if t !in registry { return None; }
      var h := registry[t].host;
      if hasResolver && (t !in lease || lease[t] != h) { return None; }
      if h in providers && providers[h] in conns && conns[providers[h]] == Open {
        return Some(providers[h]);
      }
      return None;
    }

    method HandleClientConnection(w: Sock)
      modifies this
      ensures View() == ClientConnected(old(View()), w)
    {
      hide ProviderFor, AddClient;
      var provider := FindProvider(w.target);
      if provider.Some? {
        TrackClient(w);
      }
    }

    method TrackClient(w: Sock)
      modifies this`clients, this`socks, this`log
      ensures View() == AddClient(old(View()), w)
    {
      var t := w.target;
      var first := t !in clients || clients[t] == {};
      log := log.(pins := if first then log.pins[t := PinLog(View(), t) + [true]] else log.pins,
                  repinned := if first && t in log.leaked then log.repinned + {t} else log.repinned,
                  leaked := if first then log.leaked - {t} else log.leaked);
      clients := clients[t := (if t in clients then clients[t] else {}) + {w}];
      socks := socks[w := Open];
    }

    method HandleClientMessage(f: Frame, cdpMethod: string, fate: Fate)
      modifies this
      ensures View() == ClientFrame(old(View()), f, cdpMethod, fate)
    {
      hide ProviderFor, IsWorkspaceTarget, Send, Reject, Respond;
      var provider := FindProvider(f.sock.target);
      ghost var before := View();
      var workspace := IsWorkspace(f.sock.target);
      if provider == None || (workspace && cdpMethod in NAVIGATION_METHODS) {
        log := log.(frames := log.frames + [f]);
        Reply(f, Error(if provider == None then NotConnected else NavigationRefused));
      } else {
        Forwarding(f, provider.value, fate);
      }
    }

    method IsWorkspace(t: Target) returns (b: bool)
      ensures b == IsWorkspaceTarget(View(), t)
    {
      if t !in registry { return false; }
      var r := registry[t];
      return r.kind == Some("workspace") || (r.source.Some? && r.source.value != "" && !("browser:" <= r.source.value));
    }

    method Queue(f: Frame, c: Conn)
      modifies this`log, this`nextRequestId, this`pending
      ensures View() == Enqueue(old(View()), f, c)
    {
      log := log.(frames := log.frames + [f], sentOn := log.sentOn[nextRequestId := c]);
      pending := pending + [Pending(nextRequestId, f)];
      nextRequestId := nextRequestId + 1;
    }

    method Forwarding(f: Frame, c: Conn, fate: Fate)
      modifies this
      ensures View() == Forward(old(View()), f, c, fate)
    {
      hide Send, Reject, Respond, Enqueue;
      var id := nextRequestId;
      Queue(f, c);
      match fate
      case Delivered =>
      case Throws =>
        ForgetPending(OfId(id));
        Reply(f, Error(SendFailed));
      case Breaks =>
        SendTo(c, true);
    }

    method HandleClientClose(w: Sock, breaks: bool)
      modifies this
      ensures View() == ClientClosed(old(View()), w, breaks)
    {
      hide Notify, Reject;
      ForgetSock(w, breaks);
      ForgetPending(OfSock(w));
    }

    method ForgetSock(w: Sock, breaks: bool)
      modifies this
      ensures View() == ForgetClient(MarkSock(old(View()), w, Closed), w, breaks)
    {
      hide Send, ProviderFor;
      socks := socks[w := Closed];
      ghost var s0 := View();
      var t := w.target;
      if t in clients {
        var rest := clients[t] - {w};
        if rest != {} {
          clients := clients[t := rest];
        } else {
          log := log.(pins := Unpinned(View(), {t}));
          clients := clients - {t};
          assert View() == RemoveClient(s0, w);
          var provider := FindProvider(t);
          if provider.Some? {
            SendTo(provider.value, breaks);
          }
        }
      }
    }

    // -------------------------------------------------------------------------
    // Leases, host commands and shutdown
    // -------------------------------------------------------------------------

    method DetachTarget(t: Target, h: Host, breaks: bool)
      modifies this
      ensures View() == Detach(old(View()), t, h, breaks)
    {
      hide Send;
      if t in registry && registry[t].host == h {
        if h in providers && providers[h] in conns && conns[providers[h]] == Open {
          SendTo(providers[h], breaks);
        }
        registry := registry - {t};
      }
    }

    method CloseTarget(t: Target)
      modifies this
      ensures View() == CloseTargetConnections(old(View()), t)
    {
      hide AnswerWhere, Settle, DropClients;
      AnswerPending(OfTarget(t), Error(HostChanged));
      SettleCommands(AimedAt({t}, false), Rejected(HostChanged));
      DropTargets({t});
    }

    /** The coordinator moves the lease of `t`, and its event runs `handleRuntimeLeaseChanged`. */
    method HandleLeaseChanged(t: Target, next: Option<Host>, breaks: bool)
      modifies this
      ensures View() == LeaseChanged(old(View()), t, next, breaks)
    {
      hide Detach, CloseTargetConnections;
      var previous: Option<Host> := if t in lease then Some(lease[t]) else None;
      if previous == next { return; }
      if previous.Some? {
        DetachTarget(t, previous.value, breaks);
      }
      CloseTarget(t);
      lease := if next.Some? then lease[t := next.value] else lease - {t};
    }

    method AddCommand(command: HostCommand)
      modifies this`nextRequestId, this`commands
      ensures View() == Issue(old(View()), command)
    {
      commands := commands[nextRequestId := command];
      nextRequestId := nextRequestId + 1;
    }

    method IssueHostCommand(t: Target, resilient: bool, fate: Fate) returns (issued: bool)
      modifies this
      ensures View() == SendHostCommand(old(View()), t, resilient, fate)
      ensures issued <==> ProviderFor(old(View()), t).Some?
    {
      hide Send, Settle, ProviderFor, Issue;
      var provider := FindProvider(t);
      if provider == None { return false; }
      var id := nextRequestId;
      AddCommand(HostCommand(t, registry[t].host, resilient));
      match fate {
        case Delivered =>
        case Throws => SettleCommands(CommandId(id), Rejected(SendFailed));
        case Breaks => SendTo(provider.value, true);
      }
      return true;
    }

    method CommandTimer(id: nat)
      modifies this
      ensures View() == Settle(old(View()), CommandId(id), Rejected(TimedOut))
    {
      hide Settle;
      SettleCommands(CommandId(id), Rejected(TimedOut));
    }

    /**
     Tell every provider to close.  An RPC provider's close listener runs inside the
     loop and takes its own entry out of the map being walked.
     */
    method CloseAllProviders()
      requires Healthy(View(), {}) && Quiet(View())
      modifies this
      ensures View() == CloseProviders(old(View()))
    {
      hide CloseConn, Healthy, Quiet, ClosedSoFar;
      ghost var before := View();
      var todo := providers.Values;
      ProvidersOpen(before);
      ClosedSoFarStart(before);
      while todo != {}
        invariant todo <= before.providers.Values
        invariant View() == ClosedSoFar(before, before.providers.Values - todo, providers, registry)
        decreases |todo|
      {
        var c :| c in todo;
        ghost var done := before.providers.Values - todo;
        ClosedSoFarStep(before, done, providers, registry, c);
        CloseConnection(c);
        todo := todo - {c};
        assert before.providers.Values - todo == done + {c};
      }
      assert before.providers.Values - {} == before.providers.Values;
      ClosedSoFarCleared(before, providers, registry);
      providers := map[];
      registry := map[];
    }

    method StopBridge()
      requires Healthy(View(), {})
      modifies this
      ensures View() == Stop(old(View()))
    {
      hide AnswerWhere, Settle, DropClients, CloseProviders, Healthy, Quiet;
      ghost var before := View();
      SettleCommands(AllCommands, Rejected(ShuttingDown));
      AnswerPending(Everything, Error(ShuttingDown));
      DropTargets(clients.Keys);
      EmptiedIsEmpty(before);
      EmptiedIsQuiet(before);
      CloseAllProviders();
    }

    // -------------------------------------------------------------------------
    // Every event
    // -------------------------------------------------------------------------

    /**
     Any event that can occur, as a step of the specification: the invariant is kept,
     so whatever holds after every run of events holds of the object.
     */
    method Dispatch(e: Event)
      requires Inv(View()) && Enabled(View(), e)
      modifies this
      ensures View() == Step(old(View()), e) && Inv(View())
    {
      hide Conserved, Ordered, Pinned, Healthy, Handle;
      StepSafe(View(), e);
      if IsProviderEvent(e) {
        DispatchProvider(e);
      } else if IsClientEvent(e) {
        DispatchClient(e);
      } else {
        DispatchOther(e);
      }
    }

    method DispatchProvider(e: Event)
      requires Healthy(View(), {}) && Enabled(View(), e) && IsProviderEvent(e)
      modifies this
      ensures View() == Handle(old(View()), e)
    {
      SessionsAreRpc(View());
      hide Healthy, ConnectWebSocketProvider, OnProviderClose, OpenSession, CloseSession, CloseSessions;
      match e
      case ProviderUp(c) => ConnectProvider(c);
      case ProviderClosing(c) => conns := conns[c := Closing];
      case ProviderDown(c) =>
        conns := conns[c := Closed];
        HandleProviderClose(c);
      case SessionOpened(c, breaks) => var accepted := OpenChannelSession(c, true, true, breaks);
      case SessionClosed(sid) => var allowed := CloseChannelSession(sid, true);
      case ChannelStopped(order) => StopRpcChannel(order);
    }

    method DispatchClient(e: Event)
      requires Enabled(View(), e) && IsClientEvent(e)
      modifies this
      ensures View() == Handle(old(View()), e)
    {
      hide ClientConnected, ClientFrame, ClientClosed;
      match e
      case ClientUp(w) => HandleClientConnection(w);
      case ClientSent(f, cdpMethod, fate) => HandleClientMessage(f, cdpMethod, fate);
      case ClientClosing(w) => socks := socks[w := Closing];
      case ClientDown(w, breaks) => HandleClientClose(w, breaks);
    }

    method DispatchOther(e: Event)
      requires Healthy(View(), {}) && Enabled(View(), e) && !IsProviderEvent(e) && !IsClientEvent(e)
      modifies this
      ensures View() == Handle(old(View()), e)
    {
      hide Healthy, Register, Unregister, CdpReply, CommandReply, LeaseChanged, SendHostCommand, Settle, Stop;
      match e
      case Registers(c, t, r, known, breaks) => HandleRegister(c, t, r, known, breaks);
      case Unregisters(c, t) => HandleUnregister(c, t);
      case Replied(c, id, reply) => HandleCdpReply(c, id, reply);
      case CommandReplied(c, id, outcome, hostKind) => HandleCommandReply(c, id, outcome, hostKind);
      case LeaseMoved(t, next, breaks) => HandleLeaseChanged(t, next, breaks);
      case CommandIssued(t, resilient, fate) => var issued := IssueHostCommand(t, resilient, fate);
      case CommandTimedOut(id) => CommandTimer(id);
      case BridgeStopped => StopBridge();
    }
  }

  // ---------------------------------------------------------------------------
  // Shutting down
  // ---------------------------------------------------------------------------

  /** Nothing is pending and no client is connected. */
  lemma SessionsAreRpc(s: State)
    requires Healthy(s, {})
    ensures forall sid :: sid in s.sessions ==> s.sessions[sid].transport == RpcStream(sid)
  {
  }

  predicate Quiet(s: State) {
    s.pending == [] && s.commands == map[] && s.clients == map[]
  }

  lemma EmptiedIsQuiet(s: State)
    ensures Quiet(Emptied(s))
  {
    EmptiedIsEmpty(s);
  }

  lemma QuietSettle(s: State, scope: CommandScope, outcome: Outcome)
    requires s.commands == map[]
    ensures Settle(s, scope, outcome) == s
  {
    assert CommandsHit(scope, s.commands) == {};
  }

  lemma QuietDrop(s: State, ts: set<Target>)
    requires s.clients == map[]
    ensures DropClients(s, ts) == s
  {
    assert ClientsOf(s, ts) == {};
    assert CloseSocks(s.socks, {}) == s.socks;
    assert ts * s.clients.Keys == {};
    assert Unpinned(s, {}) == s.pins;
    assert s.clients - ts == s.clients;
  }

  lemma QuietFlush(s: State, h: Host, reason: Reason)
    requires Quiet(s)
    ensures Flush(s, h, reason) == s
  {
    hide Settle, DropClients;
    QuietSettle(s, IssuedTo(h), Rejected(reason));
    QuietSettle(s, AimedAt(TargetsAt(s, h), false), Rejected(reason));
    QuietDrop(s, TargetsAt(s, h));
    assert AnswerWhere(s, OfHost(h, s.registry), Error(reason)) == s;
  }

  /** With nothing pending, closing an RPC connection touches only the four tables. */
  lemma QuietCloseRpc(s: State, c: Conn)
    requires Quiet(s) && c.transport.RpcStream? && ConnOpen(s, c)
    ensures var s' := CloseRpc(s, c); s' == EndSession(s, c).(providers := s'.providers, registry := s'.registry)
  {
    hide Flush, EndSession, RemoveProvider, Deregister;
    var s1 := EndSession(s, c);
    var s2 := RemoveProvider(s1, c.host);
    QuietTables(s, c);
    if IsCurrent(s1, c) {
      QuietFlush(s2, c.host, Disconnected);
      assert CloseRpc(s, c) == Deregister(s2, c.host);
      RemovedTables(s1, c.host);
    } else {
      assert CloseRpc(s, c) == s1;
    }
  }

  lemma QuietTables(s: State, c: Conn)
    requires Quiet(s) && c.transport.RpcStream?
    ensures Quiet(RemoveProvider(EndSession(s, c), c.host))
  {
  }

  lemma RemovedTables(s: State, h: Host)
    ensures var s' := Deregister(RemoveProvider(s, h), h); s' == s.(providers := s'.providers, registry := s'.registry)
  {
  }

  /** The state while a set of providers has been told to close. */
  function ClosedSoFar(
    s: State, done: set<Conn>, providers: map<Host, Conn>, registry: map<Target, Registration>): State
  {
    s.(conns := map c | c in s.conns ::
         if c in done && s.conns[c] == Open
         then (if c.transport.RpcStream? then Closed else Closing) else s.conns[c],
       sessions := map sid | sid in s.sessions && s.sessions[sid] !in done :: s.sessions[sid],
       providers := providers,
       registry := registry)
  }

  lemma ClosedSoFarStart(s: State)
    ensures ClosedSoFar(s, s.providers.Values - s.providers.Values, s.providers, s.registry) == s
  {
  }

  lemma ClosedSoFarCleared(s: State, providers: map<Host, Conn>, registry: map<Target, Registration>)
    ensures ClosedSoFar(s, s.providers.Values, providers, registry).(providers := map[], registry := map[])
         == CloseProviders(s)
  {
  }

  lemma ClosedSoFarStep(
    s: State, done: set<Conn>, providers: map<Host, Conn>, registry: map<Target, Registration>, c: Conn)
    requires Quiet(s) && c !in done && (c.transport.RpcStream? ==> ConnOpen(s, c))
    requires forall sid :: sid in s.sessions ==> s.sessions[sid].transport == RpcStream(sid)
    ensures var s' := CloseConn(ClosedSoFar(s, done, providers, registry), c);
      s' == ClosedSoFar(s, done + {c}, s'.providers, s'.registry)
  {
    hide CloseRpc;
    var s0 := ClosedSoFar(s, done, providers, registry);
    if c.transport.RpcStream? {
      assert ConnOpen(s0, c);
      QuietCloseRpc(s0, c);
      SessionStep(s, done, providers, registry, c);
    } else {
      ConnStep(s, done, providers, registry, c);
    }
  }

  lemma ProvidersOpen(s: State)
    requires Healthy(s, {})
    ensures forall c :: c in s.providers.Values && c.transport.RpcStream? ==> ConnOpen(s, c)
    ensures forall sid :: sid in s.sessions ==> s.sessions[sid].transport == RpcStream(sid)
  {
  }

  lemma ConnStep(s: State, done: set<Conn>, providers: map<Host, Conn>, registry: map<Target, Registration>, c: Conn)
    requires c.transport.WebSocket? && c !in done
    requires forall sid :: sid in s.sessions ==> s.sessions[sid].transport == RpcStream(sid)
    ensures CloseConn(ClosedSoFar(s, done, providers, registry), c) == ClosedSoFar(s, done + {c}, providers, registry)
  {
    var s0 := ClosedSoFar(s, done, providers, registry);
    var s1 := ClosedSoFar(s, done + {c}, providers, registry);
    assert s1.sessions == s0.sessions;
    if ConnOpen(s0, c) {
      assert s1.conns == s0.conns[c := Closing];
    } else {
      assert s1.conns == s0.conns;
    }
  }

  lemma SessionStep(s: State, done: set<Conn>, providers: map<Host, Conn>, registry: map<Target, Registration>, c: Conn)
    requires c.transport.RpcStream? && c !in done && ConnOpen(s, c)
    requires forall sid :: sid in s.sessions ==> s.sessions[sid].transport == RpcStream(sid)
    ensures EndSession(ClosedSoFar(s, done, providers, registry), c) == ClosedSoFar(s, done + {c}, providers, registry)
  {
    var s1 := EndSession(ClosedSoFar(s, done, providers, registry), c);
    assert s1.sessions == ClosedSoFar(s, done + {c}, providers, registry).sessions;
  }

  lemma {:induction false} SessionsSnoc(s: State, order: seq<SessionId>, sid: SessionId)
    ensures CloseSessions(s, order + [sid]) == CloseSession(CloseSessions(s, order), sid)
    decreases |order|
  {
    hide CloseSession;
    if order == [] {
      assert order + [sid] == [sid];
      assert CloseSessions(CloseSession(s, sid), [sid][1..]) == CloseSession(s, sid);
    } else {
      assert (order + [sid])[1..] == order[1..] + [sid];
      SessionsSnoc(CloseSession(s, order[0]), order[1..], sid);
    }
  }
}
