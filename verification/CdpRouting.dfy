/**
 No stranded command, and one provider per host across the two objects.  In every
 reachable state each pending CDP command is held by the connection that is its
 host's current provider, at the host the target is registered with and leased
 to; each RPC session is open and is its host's current provider.
 */
module CdpRouting {
  import opened Options
  import opened CdpRelay

  // ---------------------------------------------------------------------------
  // Invariants
  // ---------------------------------------------------------------------------

  /** Registrations and host commands name hosts that have a provider. */
  ghost predicate Wired(s: State) {
    && (forall h :: h in s.providers ==> s.providers[h].host == h && s.providers[h] in s.conns)
    && (forall t :: t in s.registry ==> s.registry[t].host in s.providers)
    && (forall id :: id in s.commands ==> s.commands[id].host in s.providers)
  }

  predicate HasSession(s: State, c: Conn) {
    c.transport.RpcStream? && c.transport.session in s.sessions && s.sessions[c.transport.session] == c
  }

  /**
   The RPC channel and the bridge agree: the open RPC connections, the sessions and
   the RPC providers are the same connections.  `ex` exempts connections that a
   handler is in the middle of attaching or closing.
   */
  ghost predicate SessionsAgree(s: State, ex: set<Conn>) {
    && (forall c :: ConnOpen(s, c) && c.transport.RpcStream? && c !in ex ==> IsCurrent(s, c) && HasSession(s, c))
    && (forall sid :: sid in s.sessions ==>
          && s.sessions[sid].transport == RpcStream(sid)
          && (s.sessions[sid] in ex || ConnOpen(s, s.sessions[sid])))
    && (forall h :: h in s.providers && s.providers[h].transport.RpcStream? ==>
          s.providers[h] in ex || ConnOpen(s, s.providers[h]))
  }

  /** With a resolver, a target is registered only where it is leased. */
  ghost predicate Leased(s: State) {
    s.hasResolver ==> forall t :: t in s.registry ==> t in s.lease && s.lease[t] == s.registry[t].host
  }

  /** The command was sent on the connection that is now the provider of its target's host. */
  predicate Held(s: State, p: Pending) {
    var t := p.frame.sock.target;
    && t in s.registry
    && p.id in s.sentOn
    && s.registry[t].host in s.providers
    && s.providers[s.registry[t].host] == s.sentOn[p.id]
  }

  /** Every pending command is held, except for targets a handler is tearing down. */
  ghost predicate Routed(s: State, skip: set<Target>) {
    forall p :: p in s.pending && p.frame.sock.target !in skip ==> Held(s, p)
  }

  ghost predicate Healthy(s: State, ex: set<Conn>) {
    Wired(s) && SessionsAgree(s, ex) && Leased(s)
  }

  // ---------------------------------------------------------------------------
  // Removing a scope
  // ---------------------------------------------------------------------------

  lemma {:induction false} RejectIn(scope: Scope, ps: seq<Pending>, p: Pending)
    ensures p in Reject(scope, ps) <==> p in ps && !Hits(scope, p)
  {
    if ps != [] {
      RejectIn(scope, ps[1..], p);
      assert p in ps <==> p == ps[0] || p in ps[1..];
    }
  }

  lemma RejectsIn(scope: Scope, ps: seq<Pending>)
    ensures forall p :: p in Reject(scope, ps) <==> p in ps && !Hits(scope, p)
  {
    forall p ensures p in Reject(scope, ps) <==> p in ps && !Hits(scope, p) {
      RejectIn(scope, ps, p);
    }
  }

  /** A step that only removes work, and leaves the routing tables alone, keeps everything. */
  lemma ShrinkKeeps(s: State, s': State, ex: set<Conn>, skip: set<Target>)
    requires s'.hasResolver == s.hasResolver && s'.lease == s.lease && s'.providers == s.providers
    requires s'.registry == s.registry && s'.conns == s.conns && s'.sessions == s.sessions && s'.sentOn == s.sentOn
    requires forall id :: id in s'.commands ==> id in s.commands && s'.commands[id] == s.commands[id]
    requires forall p :: p in s'.pending ==> p in s.pending
    ensures Healthy(s, ex) ==> Healthy(s', ex)
    ensures Routed(s, skip) ==> Routed(s', skip)
  {
  }

  lemma AnswerKeeps(s: State, scope: Scope, reply: Reply, ex: set<Conn>, skip: set<Target>)
    ensures Healthy(s, ex) ==> Healthy(AnswerWhere(s, scope, reply), ex)
    ensures Routed(s, skip) ==> Routed(AnswerWhere(s, scope, reply), skip)
  {
    RejectsIn(scope, s.pending);
    ShrinkKeeps(s, AnswerWhere(s, scope, reply), ex, skip);
  }

  /** What a flush leaves behind: no command of that host, and no pending command it could have served. */
  lemma FlushLeaves(s: State, h: Host, reason: Reason)
    ensures var s' := Flush(s, h, reason);
      && s'.hasResolver == s.hasResolver && s'.lease == s.lease && s'.providers == s.providers
      && s'.registry == s.registry && s'.conns == s.conns && s'.sessions == s.sessions && s'.sentOn == s.sentOn
      && (forall id :: id in s'.commands ==>
            id in s.commands && s'.commands[id] == s.commands[id] && s.commands[id].host != h)
      && (forall p :: p in s'.pending ==>
            p in s.pending && p.frame.sock.target in s.registry && s.registry[p.frame.sock.target].host != h)
  {
    RejectsIn(OfHost(h, s.registry), s.pending);
  }

  // ---------------------------------------------------------------------------
  // Losing a provider
  // ---------------------------------------------------------------------------

  lemma ProviderCloseKeeps(s: State, c: Conn, ex: set<Conn>)
    requires Healthy(s, ex + {c})
    requires !HasSession(s, c) && !(ConnOpen(s, c) && c.transport.RpcStream?)
    ensures Healthy(OnProviderClose(s, c), ex)
  {
    hide Flush;
    if IsCurrent(s, c) {
      FlushLeaves(RemoveProvider(s, c.host), c.host, Disconnected);
      var s1 := Flush(RemoveProvider(s, c.host), c.host, Disconnected);
      SessionsWithout(s, Deregister(s1, c.host), c, ex);
      hide SessionsAgree;
    }
  }

  lemma SessionsWithout(s: State, s': State, c: Conn, ex: set<Conn>)
    requires Wired(s) && SessionsAgree(s, ex + {c}) && IsCurrent(s, c)
    requires !HasSession(s, c) && !(ConnOpen(s, c) && c.transport.RpcStream?)
    requires s'.conns == s.conns && s'.sessions == s.sessions && s'.providers == s.providers - {c.host}
    ensures SessionsAgree(s', ex)
  {
  }

  lemma ProviderCloseRoutes(s: State, c: Conn, skip: set<Target>)
    requires Wired(s)
    ensures Routed(s, skip) ==> Routed(OnProviderClose(s, c), skip)
  {
    hide Flush;
    if IsCurrent(s, c) {
      FlushLeaves(RemoveProvider(s, c.host), c.host, Disconnected);
    }
  }

  lemma CloseRpcKeeps(s: State, c: Conn, ex: set<Conn>)
    requires Healthy(s, ex) && c.transport.RpcStream?
    ensures Healthy(CloseRpc(s, c), ex)
  {
    hide OnProviderClose;
    if ConnOpen(s, c) {
      var s1 := EndSession(s, c);
      assert Healthy(s1, ex + {c});
      ProviderCloseKeeps(s1, c, ex);
    }
  }

  lemma CloseRpcRoutes(s: State, c: Conn, skip: set<Target>)
    requires Wired(s) && c.transport.RpcStream?
    ensures Routed(s, skip) ==> Routed(CloseRpc(s, c), skip)
  {
    hide OnProviderClose;
    if ConnOpen(s, c) {
      var s1 := EndSession(s, c);
      assert Wired(s1) && (Routed(s, skip) ==> Routed(s1, skip));
      ProviderCloseRoutes(s1, c, skip);
    }
  }

  lemma NotifyKeeps(s: State, provider: Option<Conn>, breaks: bool, skip: set<Target>)
    requires Healthy(s, {})
    ensures Healthy(Notify(s, provider, breaks), {})
    ensures Routed(s, skip) ==> Routed(Notify(s, provider, breaks), skip)
  {
    hide CloseRpc;
    if provider.Some? && provider.value.transport.RpcStream? {
      CloseRpcKeeps(s, provider.value, {});
      CloseRpcRoutes(s, provider.value, skip);
    }
  }

  lemma SendKeeps(s: State, c: Conn, breaks: bool)
    requires Healthy(s, {})
    ensures Healthy(Send(s, c, breaks), {})
    ensures Routed(s, {}) ==> Routed(Send(s, c, breaks), {})
  {
    hide Send;
    NotifyKeeps(s, Some(c), breaks, {});
  }

  // ---------------------------------------------------------------------------
  // Attaching a provider
  // ---------------------------------------------------------------------------

  /**
   Replacing a provider: its work is settled, its session (if any) is gone, and what
   is left pending belongs to other hosts.  `c` itself is exempt until it is stored.
   */
  lemma EvictKeeps(s: State, c: Conn)
    requires Healthy(s, {c})
    requires !IsCurrent(s, c)
    ensures Healthy(Evict(s, c), {c})
    ensures Routed(s, {}) ==> Routed(Evict(s, c), {})
  {
    hide Flush, CloseRpc, Routed;
    if c.host in s.providers {
      var e := s.providers[c.host];
      var s1 := Flush(s, c.host, Reconnected);
      FlushLeaves(s, c.host, Reconnected);
      ShrinkKeeps(s, s1, {c}, {});
      if e.transport.RpcStream? {
        CloseRpcKeeps(s1, e, {c});
        CloseRpcRoutes(s1, e, {});
      } else {
        MarkConnRoutes(s1, e, Closing);
      }
    }
  }

  lemma MarkConnRoutes(s: State, c: Conn, to: ReadyState)
    ensures Routed(s, {}) ==> Routed(MarkConn(s, c, to), {})
  {
  }

  /** Nothing of the evicted provider is left: what is still pending, or open, belongs to other hosts. */
  lemma EvictClears(s: State, c: Conn)
    requires Healthy(s, {c})
    requires !IsCurrent(s, c)
    ensures Routed(s, {}) ==> forall p :: p in Evict(s, c).pending ==>
              p.frame.sock.target in Evict(s, c).registry && Evict(s, c).registry[p.frame.sock.target].host != c.host
    ensures forall d :: ConnOpen(Evict(s, c), d) && d.transport.RpcStream? && d != c ==> d.host != c.host
  {
    hide Flush, CloseRpc;
    if c.host in s.providers {
      var e := s.providers[c.host];
      var s1 := Flush(s, c.host, Reconnected);
      FlushLeaves(s, c.host, Reconnected);
      if e.transport.RpcStream? {
        assert Healthy(s1, {c}) by { ShrinkKeeps(s, s1, {c}, {}); }
        CloseRpcRemoves(s1, e);
      }
    }
  }

  /** Closing a current RPC provider empties its place and only removes pending commands. */
  lemma CloseRpcRemoves(s: State, c: Conn)
    requires c.transport.RpcStream? && IsCurrent(s, c) && ConnOpen(s, c)
    ensures CloseRpc(s, c).conns == s.conns[c := Closed]
    ensures c.host !in CloseRpc(s, c).providers
    ensures forall p :: p in CloseRpc(s, c).pending ==> p in s.pending
    ensures forall t :: t in CloseRpc(s, c).registry <==> t in s.registry && s.registry[t].host != c.host
    ensures forall t :: t in CloseRpc(s, c).registry ==> CloseRpc(s, c).registry[t] == s.registry[t]
  {
    hide Flush;
    var s1 := RemoveProvider(EndSession(s, c), c.host);
    FlushLeaves(s1, c.host, Disconnected);
    assert CloseRpc(s, c) == Deregister(Flush(s1, c.host, Disconnected), c.host);
  }

  lemma AttachKeeps(s: State, c: Conn)
    requires Healthy(s, {c})
    requires !IsCurrent(s, c) && ConnOpen(s, c) && (c.transport.RpcStream? ==> HasSession(s, c))
    ensures Healthy(Attach(s, c), {})
    ensures Routed(s, {}) ==> Routed(Attach(s, c), {})
    ensures IsCurrent(Attach(s, c), c)
  {
    hide Evict, Healthy, Routed;
    EvictKeeps(s, c);
    EvictClears(s, c);
    EvictFrames(s, c);
    StoreKeeps(Evict(s, c), c);
    if Routed(s, {}) {
      StoreRoutes(Evict(s, c), c);
    }
  }

  lemma StoreKeeps(s: State, c: Conn)
    requires Healthy(s, {c})
    requires ConnOpen(s, c) && (c.transport.RpcStream? ==> HasSession(s, c))
    requires forall d :: ConnOpen(s, d) && d.transport.RpcStream? && d != c ==> d.host != c.host
    ensures Healthy(SetProvider(s, c), {})
  {
  }

  lemma StoreRoutes(s: State, c: Conn)
    requires forall p :: p in s.pending ==>
               p.frame.sock.target in s.registry && s.registry[p.frame.sock.target].host != c.host
    ensures Routed(s, {}) ==> Routed(SetProvider(s, c), {})
  {
  }

  /** Evicting the old provider does not touch the new connection. */
  lemma EvictFrames(s: State, c: Conn)
    requires !IsCurrent(s, c)
    ensures c in s.conns ==> c in Evict(s, c).conns && Evict(s, c).conns[c] == s.conns[c]
    ensures HasSession(s, c) ==> HasSession(Evict(s, c), c)
  {
    hide Flush, OnProviderClose;
    if c.host in s.providers {
      FlushLeaves(s, c.host, Reconnected);
      var s1 := Flush(s, c.host, Reconnected);
      var e := s.providers[c.host];
      if e.transport.RpcStream? && ConnOpen(s1, e) {
        ProviderCloseFrames(EndSession(s1, e), e);
      }
    }
  }

  lemma TrackKeeps(s: State, c: Conn)
    requires Healthy(s, {})
    requires c !in s.conns && (c.transport.RpcStream? ==> c.transport.session !in s.sessions)
    ensures Healthy(Track(s, c), {c}) && !IsCurrent(Track(s, c), c)
    ensures Routed(s, {}) ==> Routed(Track(s, c), {})
  {
  }

  // ---------------------------------------------------------------------------
  // Sessions
  // ---------------------------------------------------------------------------

  lemma CloseSessionKeeps(s: State, sid: SessionId)
    requires Healthy(s, {})
    ensures Healthy(CloseSession(s, sid), {})
    ensures Routed(s, {}) ==> Routed(CloseSession(s, sid), {})
    ensures CloseSession(s, sid).sessions == s.sessions - {sid}
  {
    hide OnProviderClose;
    if sid in s.sessions {
      var c := s.sessions[sid];
      CloseRpcKeeps(s, c, {});
      CloseRpcRoutes(s, c, {});
      ProviderCloseFrames(EndSession(s, c), c);
    }
  }

  lemma ProviderCloseFrames(s: State, c: Conn)
    ensures OnProviderClose(s, c).sessions == s.sessions
    ensures OnProviderClose(s, c).conns == s.conns
  {
  }

  lemma {:induction false} CloseSessionsKeeps(s: State, order: seq<SessionId>)
    requires Healthy(s, {})
    ensures Healthy(CloseSessions(s, order), {})
    ensures Routed(s, {}) ==> Routed(CloseSessions(s, order), {})
    ensures CloseSessions(s, order).sessions == s.sessions - (set sid | sid in order)
    decreases |order|
  {
    hide CloseSession, Healthy, Routed;
    if order != [] {
      CloseSessionKeeps(s, order[0]);
      CloseSessionsKeeps(CloseSession(s, order[0]), order[1..]);
      assert (set sid | sid in order) == {order[0]} + (set sid | sid in order[1..]);
    }
  }

  // ---------------------------------------------------------------------------
  // The other handlers
  // ---------------------------------------------------------------------------

  /** After a target leaves the registry, answering its commands restores routing. */
  lemma TeardownKeeps(s: State, t: Target, reply: Reply)
    ensures Routed(s, {t}) ==> Routed(AnswerWhere(s, OfTarget(t), reply), {})
  {
    RejectsIn(OfTarget(t), s.pending);
  }

  lemma UnlistKeeps(s: State, t: Target)
    requires Healthy(s, {})
    ensures Healthy(Unlist(s, t), {})
    ensures Routed(s, {}) ==> Routed(Unlist(s, t), {t})
  {
  }

  lemma UnregisterKeeps(s: State, h: Host, t: Target)
    requires Healthy(s, {})
    ensures Healthy(Unregister(s, h, t), {})
    ensures Routed(s, {}) ==> Routed(Unregister(s, h, t), {})
  {
    hide AnswerWhere, Healthy, Wired, Routed;
    if RegisteredAt(s, t, h) {
      var s1 := Unlist(s, t);
      UnlistKeeps(s, t);
      TeardownKeeps(s1, t, Error(TargetClosed));
      AnswerKeeps(s1, OfTarget(t), Error(TargetClosed), {}, {});
      ShrinkKeeps(AnswerWhere(s1, OfTarget(t), Error(TargetClosed)), Unregister(s, h, t), {}, {});
    }
  }

  /** A registration that takes a target with pending commands over from another host. */
  predicate Steals(s: State, c: Conn, t: Target, known: bool) {
    && RegisterAccepted(s, c, t, known)
    && t in s.registry && s.registry[t].host != c.host
    && exists i :: 0 <= i < |s.pending| && s.pending[i].frame.sock.target == t
  }

  lemma ListKeeps(s: State, c: Conn, t: Target, r: Registration, known: bool)
    requires Healthy(s, {}) && RegisterAccepted(s, c, t, known) && r.host == c.host
    ensures Healthy(List(s, t, r), {})
    ensures Routed(s, {}) ==> (Routed(List(s, t, r), {}) <==> !Steals(s, c, t, known))
  {
    var s' := List(s, t, r);
    if !Routed(s, {}) {
    } else if Steals(s, c, t, known) {
      var i :| 0 <= i < |s.pending| && s.pending[i].frame.sock.target == t;
      assert s.pending[i] in s.pending;
      assert Held(s, s.pending[i]);
      assert !Held(s', s.pending[i]);
    } else {
      forall p | p in s'.pending ensures Held(s', p) {
        assert Held(s, p);
      }
    }
  }

  lemma RegisterKeeps(s: State, c: Conn, t: Target, r: Registration, known: bool, breaks: bool)
    requires Healthy(s, {})
    ensures Healthy(Register(s, c, t, r, known, breaks), {})
    ensures Routed(s, {}) ==> (Routed(Register(s, c, t, r, known, breaks), {}) <==> !Steals(s, c, t, known))
  {
    hide Send, List;
    if RegisterAccepted(s, c, t, known) {
      ListKeeps(s, c, t, r.(host := c.host), known);
    } else {
      SendKeeps(s, c, breaks);
    }
  }

  lemma ConnectedKeeps(s: State, w: Sock)
    requires Healthy(s, {})
    ensures Healthy(ClientConnected(s, w), {})
    ensures Routed(s, {}) ==> Routed(ClientConnected(s, w), {})
  {
    hide Wired, SessionsAgree, Leased, Routed;
    ShrinkKeeps(s, ClientConnected(s, w), {}, {});
  }

  lemma EnqueueKeeps(s: State, f: Frame, c: Conn)
    requires Healthy(s, {})
    requires forall i :: 0 <= i < |s.pending| ==> s.pending[i].id < s.nextRequestId
    requires ProviderFor(s, f.sock.target) == Some(c)
    ensures Healthy(Enqueue(s, f, c), {})
    ensures Routed(s, {}) ==> Routed(Enqueue(s, f, c), {})
  {
    var s' := Enqueue(s, f, c);
    forall p | Routed(s, {}) && p in s'.pending ensures Held(s', p) {
      if p in s.pending {
        assert Held(s, p);
        assert p.id < s.nextRequestId;
      }
    }
  }

  lemma ForwardKeeps(s: State, f: Frame, c: Conn, fate: Fate)
    requires Healthy(s, {})
    requires forall i :: 0 <= i < |s.pending| ==> s.pending[i].id < s.nextRequestId
    requires ProviderFor(s, f.sock.target) == Some(c)
    ensures Healthy(Forward(s, f, c, fate), {})
    ensures Routed(s, {}) ==> Routed(Forward(s, f, c, fate), {})
  {
    hide Send, Enqueue;
    EnqueueKeeps(s, f, c);
    match fate
    case Delivered =>
    case Throws =>
      RejectsIn(OfId(s.nextRequestId), Enqueue(s, f, c).pending);
      ShrinkKeeps(Enqueue(s, f, c), Forward(s, f, c, fate), {}, {});
    case Breaks => SendKeeps(Enqueue(s, f, c), c, true);
  }

  lemma FrameKeeps(s: State, f: Frame, cdpMethod: string, fate: Fate)
    requires Healthy(s, {})
    requires forall i :: 0 <= i < |s.pending| ==> s.pending[i].id < s.nextRequestId
    ensures Healthy(ClientFrame(s, f, cdpMethod, fate), {})
    ensures Routed(s, {}) ==> Routed(ClientFrame(s, f, cdpMethod, fate), {})
  {
    hide Forward;
    var provider := ProviderFor(s, f.sock.target);
    if provider.Some? && !(IsWorkspaceTarget(s, f.sock.target) && cdpMethod in NAVIGATION_METHODS) {
      ForwardKeeps(s, f, provider.value, fate);
    } else {
      ShrinkKeeps(s, ClientFrame(s, f, cdpMethod, fate), {}, {});
    }
  }

  lemma ClosedKeeps(s: State, w: Sock, breaks: bool)
    requires Healthy(s, {})
    ensures Healthy(ClientClosed(s, w, breaks), {})
    ensures Routed(s, {}) ==> Routed(ClientClosed(s, w, breaks), {})
  {
    hide Notify;
    var s1 := RemoveClient(MarkSock(s, w, Closed), w);
    ShrinkKeeps(s, s1, {}, {});
    NotifyKeeps(s1, ProviderFor(s1, w.target), breaks, {});
    var s2 := ForgetClient(MarkSock(s, w, Closed), w, breaks);
    RejectsIn(OfSock(w), s2.pending);
    ShrinkKeeps(s2, PurgeSock(s2, w), {}, {});
  }

  lemma DetachKeeps(s: State, t: Target, h: Host, breaks: bool)
    requires Healthy(s, {})
    ensures Healthy(Detach(s, t, h, breaks), {})
    ensures Routed(s, {}) ==> Routed(Detach(s, t, h, breaks), {t})
    ensures RegisteredAt(s, t, h) ==> t !in Detach(s, t, h, breaks).registry
  {
    hide Notify;
    if RegisteredAt(s, t, h) {
      NotifyKeeps(s, OpenProvider(s, h), breaks, {});
    }
  }

  lemma MovedKeeps(s: State, t: Target, next: Option<Host>)
    requires Healthy(s, {})
    requires s.hasResolver ==> t !in s.registry
    ensures Healthy(SetLease(CloseTargetConnections(s, t), t, next), {})
    ensures Routed(s, {t}) ==> Routed(SetLease(CloseTargetConnections(s, t), t, next), {})
  {
    hide AnswerWhere, SetLease, Healthy, Routed;
    TeardownKeeps(s, t, Error(HostChanged));
    AnswerKeeps(s, OfTarget(t), Error(HostChanged), {}, {});
    var s1 := AnswerWhere(s, OfTarget(t), Error(HostChanged));
    AnswerFrames(s, OfTarget(t), Error(HostChanged));
    ShrinkKeeps(s1, CloseTargetConnections(s, t), {}, {});
    SetLeaseKeeps(CloseTargetConnections(s, t), t, next);
  }

  lemma AnswerFrames(s: State, scope: Scope, reply: Reply)
    ensures AnswerWhere(s, scope, reply).registry == s.registry
    ensures AnswerWhere(s, scope, reply).hasResolver == s.hasResolver
  {
  }

  lemma SetLeaseKeeps(s: State, t: Target, next: Option<Host>)
    requires Healthy(s, {})
    requires s.hasResolver ==> t !in s.registry
    ensures Healthy(SetLease(s, t, next), {})
    ensures Routed(s, {}) ==> Routed(SetLease(s, t, next), {})
  {
  }

  lemma LeaseKeeps(s: State, t: Target, next: Option<Host>, breaks: bool)
    requires Healthy(s, {})
    ensures Healthy(LeaseChanged(s, t, next, breaks), {})
    ensures Routed(s, {}) ==> Routed(LeaseChanged(s, t, next, breaks), {})
  {
    hide Detach, CloseTargetConnections, SetLease;
    if t in s.lease {
      DetachKeeps(s, t, s.lease[t], breaks);
      DetachFrames(s, t, s.lease[t], breaks);
      MovedKeeps(Detach(s, t, s.lease[t], breaks), t, next);
    } else {
      MovedKeeps(s, t, next);
    }
  }

  lemma DetachFrames(s: State, t: Target, h: Host, breaks: bool)
    ensures Detach(s, t, h, breaks).hasResolver == s.hasResolver
    ensures !RegisteredAt(s, t, h) ==> Detach(s, t, h, breaks) == s
  {
  }

  lemma IssuedKeeps(s: State, command: HostCommand)
    requires Healthy(s, {}) && command.host in s.providers
    ensures Healthy(Issue(s, command), {})
    ensures Routed(s, {}) ==> Routed(Issue(s, command), {})
  {
  }

  lemma IssueKeeps(s: State, t: Target, resilient: bool, fate: Fate)
    requires Healthy(s, {})
    ensures Healthy(SendHostCommand(s, t, resilient, fate), {})
    ensures Routed(s, {}) ==> Routed(SendHostCommand(s, t, resilient, fate), {})
  {
    hide Send, Healthy, Routed;
    var provider := ProviderFor(s, t);
    if provider.Some? {
      var s1 := Issue(s, HostCommand(t, s.registry[t].host, resilient));
      IssuedKeeps(s, HostCommand(t, s.registry[t].host, resilient));
      SendKeeps(s1, provider.value, true);
      ShrinkKeeps(s1, Settle(s1, CommandId(s.nextRequestId), Rejected(SendFailed)), {}, {});
    }
  }

  /** The part of `stop` before the providers are closed leaves nothing pending. */
  function Emptied(s: State): State {
    var s1 := Settle(s, AllCommands, Rejected(ShuttingDown));
    var s2 := AnswerWhere(s1, Everything, Error(ShuttingDown));
    DropClients(s2, s2.clients.Keys)
  }

  lemma {:induction false} NothingRejected(ps: seq<Pending>)
    ensures Reject(Everything, ps) == []
  {
    if ps != [] {
      NothingRejected(ps[1..]);
    }
  }

  lemma EmptiedIsEmpty(s: State)
    ensures Emptied(s).pending == [] && Emptied(s).commands == map[]
    ensures Healthy(s, {}) ==> Healthy(Emptied(s), {})
  {
    hide Healthy;
    NothingRejected(s.pending);
    ShrinkKeeps(s, Emptied(s), {}, {});
  }

  lemma CloseProvidersKeeps(s: State)
    requires Healthy(s, {}) && s.pending == [] && s.commands == map[]
    ensures Healthy(CloseProviders(s), {}) && Routed(CloseProviders(s), {})
    ensures CloseProviders(s).sessions == map[]
  {
  }

  lemma StopKeeps(s: State)
    requires Healthy(s, {})
    ensures Healthy(Stop(s), {}) && Routed(Stop(s), {})
    ensures Stop(s).pending == [] && Stop(s).commands == map[] && Stop(s).sessions == map[]
  {
    hide Emptied, CloseProviders, Healthy;
    EmptiedIsEmpty(s);
    CloseProvidersKeeps(Emptied(s));
    StopUnfolds(s);
  }

  lemma StopUnfolds(s: State)
    ensures Stop(s) == CloseProviders(Emptied(s))
    ensures CloseProviders(Emptied(s)).pending == Emptied(s).pending
    ensures CloseProviders(Emptied(s)).commands == Emptied(s).commands
  {
  }
}
