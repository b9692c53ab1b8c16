/**
 What the handlers only ever take away.  `Winds(s, s')` says that a handler removed
 pending work, settled host commands for good and dropped client sets with their
 pins, and did nothing else to those tables.  Most of the relay's functions wind;
 the few that add something are treated one by one in `CdpSafety`.
 */
module CdpProgress {
  import opened Options
  import opened CdpRelay
  import opened CdpRouting

  predicate Sorted(ps: seq<Pending>) {
    forall i, j :: 0 <= i < j < |ps| ==> ps[i].id < ps[j].id
  }

  lemma {:induction false} RejectSorted(scope: Scope, ps: seq<Pending>)
    requires Sorted(ps)
    ensures Sorted(Reject(scope, ps))
  {
    if ps != [] {
      RejectSorted(scope, ps[1..]);
      RejectsIn(scope, ps[1..]);
      var rest := Reject(scope, ps[1..]);
      forall i | 0 <= i < |rest| ensures ps[0].id < rest[i].id {
        assert rest[i] in ps[1..];
      }
    }
  }

  /** A target either keeps its clients and its pin, or loses both, once. */
  predicate TargetWinds(s: State, s': State, t: Target) {
    if t in s'.clients then t in s.clients && s'.clients[t] == s.clients[t] && PinLog(s', t) == PinLog(s, t)
    else if t in s.clients then PinLog(s', t) == PinLog(s, t) + [false]
    else PinLog(s', t) == PinLog(s, t)
  }

  ghost predicate PendingWinds(s: State, s': State) {
    && s'.hasResolver == s.hasResolver && s'.nextRequestId == s.nextRequestId
    && (Sorted(s.pending) ==> Sorted(s'.pending))
    && (forall p :: p in s'.pending ==> p in s.pending)
  }

  ghost predicate CommandsWind(s: State, s': State) {
    && (forall id :: id in s'.commands ==> id in s.commands && s'.commands[id] == s.commands[id])
    && (forall id :: id in s.settled ==> id in s'.settled && (id !in s.commands ==> s'.settled[id] == s.settled[id]))
    && (forall id :: id in s'.settled ==> id in s.settled || id in s.commands)
    && (forall id :: id in s.commands && id !in s'.commands ==> id in s'.settled)
    && (forall id :: id in s'.commands && id in s'.settled ==> id in s.settled)
  }

  ghost predicate ClientsWind(s: State, s': State) {
    && (forall t :: TargetWinds(s, s', t))
    && s'.leaked == s.leaked && s'.repinned == s.repinned
    && s'.socks.Keys == s.socks.Keys
    && (forall w :: w in s.socks ==> (s'.socks[w] == Closed <==> s.socks[w] == Closed))
  }

  ghost predicate Winds(s: State, s': State) {
    PendingWinds(s, s') && CommandsWind(s, s') && ClientsWind(s, s')
  }

  lemma ClientsWindTransitive(a: State, b: State, c: State)
    requires ClientsWind(a, b) && ClientsWind(b, c)
    ensures ClientsWind(a, c)
  {
    forall t ensures TargetWinds(a, c, t) {
      assert TargetWinds(a, b, t) && TargetWinds(b, c, t);
    }
  }

  lemma WindsTransitive(a: State, b: State, c: State)
    requires Winds(a, b) && Winds(b, c)
    ensures Winds(a, c)
  {
    hide ClientsWind;
    ClientsWindTransitive(a, b, c);
  }

  /** Steps that leave the three tables alone. */
  lemma SameWinds(s: State, s': State)
    requires s'.hasResolver == s.hasResolver && s'.nextRequestId == s.nextRequestId && s'.pending == s.pending
    requires s'.commands == s.commands && s'.settled == s.settled
    requires s'.clients == s.clients && s'.pins == s.pins && s'.leaked == s.leaked && s'.repinned == s.repinned
    requires s'.socks == s.socks
    ensures Winds(s, s')
  {
  }

  lemma AnswerWinds(s: State, scope: Scope, reply: Reply)
    ensures Winds(s, AnswerWhere(s, scope, reply))
  {
    RejectsIn(scope, s.pending);
    if Sorted(s.pending) {
      RejectSorted(scope, s.pending);
    }
  }

  lemma SettleWinds(s: State, scope: CommandScope, outcome: Outcome)
    ensures Winds(s, Settle(s, scope, outcome))
  {
  }

  lemma DropWinds(s: State, ts: set<Target>)
    ensures Winds(s, DropClients(s, ts))
  {
    var s' := DropClients(s, ts);
    forall t ensures TargetWinds(s, s', t) {
      assert t in s'.clients <==> t in s.clients && t !in ts;
    }
  }

  lemma FlushWinds(s: State, h: Host, reason: Reason)
    ensures Winds(s, Flush(s, h, reason))
  {
    hide Settle, AnswerWhere, DropClients, Winds;
    var s1 := Settle(s, IssuedTo(h), Rejected(reason));
    var s2 := AnswerWhere(s1, OfHost(h, s.registry), Error(reason));
    var s3 := Settle(s2, AimedAt(TargetsAt(s, h), false), Rejected(reason));
    SettleWinds(s, IssuedTo(h), Rejected(reason));
    AnswerWinds(s1, OfHost(h, s.registry), Error(reason));
    SettleWinds(s2, AimedAt(TargetsAt(s, h), false), Rejected(reason));
    DropWinds(s3, TargetsAt(s, h));
    WindsTransitive(s, s1, s2);
    WindsTransitive(s, s2, s3);
    WindsTransitive(s, s3, Flush(s, h, reason));
  }

  lemma ProviderCloseWinds(s: State, c: Conn)
    ensures Winds(s, OnProviderClose(s, c))
  {
    hide Flush, Winds;
    if IsCurrent(s, c) {
      var s1 := RemoveProvider(s, c.host);
      var s2 := Flush(s1, c.host, Disconnected);
      SameWinds(s, s1);
      FlushWinds(s1, c.host, Disconnected);
      SameWinds(s2, Deregister(s2, c.host));
      WindsTransitive(s, s1, s2);
      WindsTransitive(s, s2, Deregister(s2, c.host));
    } else {
      SameWinds(s, s);
    }
  }

  lemma CloseRpcWinds(s: State, c: Conn)
    requires c.transport.RpcStream?
    ensures Winds(s, CloseRpc(s, c))
  {
    hide OnProviderClose, Winds;
    SameWinds(s, s);
    if ConnOpen(s, c) {
      SameWinds(s, EndSession(s, c));
      ProviderCloseWinds(EndSession(s, c), c);
      WindsTransitive(s, EndSession(s, c), CloseRpc(s, c));
    }
  }

  lemma NotifyWinds(s: State, provider: Option<Conn>, breaks: bool)
    ensures Winds(s, Notify(s, provider, breaks))
  {
    hide CloseRpc, Winds;
    SameWinds(s, s);
    if provider.Some? && provider.value.transport.RpcStream? {
      CloseRpcWinds(s, provider.value);
    }
  }

  lemma SendWinds(s: State, c: Conn, breaks: bool)
    ensures Winds(s, Send(s, c, breaks))
  {
    hide Send, Winds;
    NotifyWinds(s, Some(c), breaks);
  }

  lemma EvictWinds(s: State, c: Conn)
    ensures Winds(s, Evict(s, c))
  {
    hide Flush, CloseRpc, Winds;
    SameWinds(s, s);
    if c.host in s.providers && s.providers[c.host] != c {
      var s1 := Flush(s, c.host, Reconnected);
      FlushWinds(s, c.host, Reconnected);
      if s.providers[c.host].transport.RpcStream? {
        CloseRpcWinds(s1, s.providers[c.host]);
      } else {
        SameWinds(s1, CloseConn(s1, s.providers[c.host]));
      }
      WindsTransitive(s, s1, Evict(s, c));
    }
  }

  lemma AttachWinds(s: State, c: Conn)
    ensures Winds(s, Attach(Track(s, c), c))
  {
    hide Evict, Winds;
    var s1 := Track(s, c);
    SameWinds(s, s1);
    EvictWinds(s1, c);
    SameWinds(Evict(s1, c), Attach(s1, c));
    WindsTransitive(s, s1, Evict(s1, c));
    WindsTransitive(s, Evict(s1, c), Attach(s1, c));
  }

  lemma CloseSessionWinds(s: State, sid: SessionId)
    ensures Winds(s, CloseSession(s, sid))
  {
    hide CloseRpc, Winds;
    SameWinds(s, s);
    if sid in s.sessions && s.sessions[sid].transport.RpcStream? {
      CloseRpcWinds(s, s.sessions[sid]);
    }
  }

  lemma {:induction false} CloseSessionsWind(s: State, order: seq<SessionId>)
    ensures Winds(s, CloseSessions(s, order))
    decreases |order|
  {
    hide CloseSession, Winds;
    SameWinds(s, s);
    if order != [] {
      var s1 := CloseSession(s, order[0]);
      CloseSessionWinds(s, order[0]);
      CloseSessionsWind(s1, order[1..]);
      WindsTransitive(s, s1, CloseSessions(s, order));
    }
  }

  lemma RegisterWinds(s: State, c: Conn, t: Target, r: Registration, known: bool, breaks: bool)
    ensures Winds(s, Register(s, c, t, r, known, breaks))
  {
    hide Send, Winds;
    SameWinds(s, s);
    SameWinds(s, List(s, t, r.(host := c.host)));
    SendWinds(s, c, breaks);
  }

  lemma DetachWinds(s: State, t: Target, h: Host, breaks: bool)
    ensures Winds(s, Detach(s, t, h, breaks))
  {
    hide Notify, Winds;
    SameWinds(s, s);
    var s1 := Notify(s, OpenProvider(s, h), breaks);
    NotifyWinds(s, OpenProvider(s, h), breaks);
    SameWinds(s1, Unlist(s1, t));
    WindsTransitive(s, s1, Unlist(s1, t));
  }

  lemma MovedWinds(s: State, t: Target, next: Option<Host>)
    ensures Winds(s, SetLease(CloseTargetConnections(s, t), t, next))
  {
    hide Settle, AnswerWhere, DropClients, Winds;
    var s1 := AnswerWhere(s, OfTarget(t), Error(HostChanged));
    var s2 := Settle(s1, AimedAt({t}, false), Rejected(HostChanged));
    var s3 := DropClients(s2, {t});
    AnswerWinds(s, OfTarget(t), Error(HostChanged));
    SettleWinds(s1, AimedAt({t}, false), Rejected(HostChanged));
    DropWinds(s2, {t});
    SameWinds(s3, SetLease(s3, t, next));
    WindsTransitive(s, s1, s2);
    WindsTransitive(s, s2, s3);
    WindsTransitive(s, s3, SetLease(s3, t, next));
  }

  lemma LeaseWinds(s: State, t: Target, next: Option<Host>, breaks: bool)
    ensures Winds(s, LeaseChanged(s, t, next, breaks))
  {
    hide Detach, CloseTargetConnections, SetLease, Winds;
    SameWinds(s, s);
    if t in s.lease {
      var s1 := Detach(s, t, s.lease[t], breaks);
      DetachWinds(s, t, s.lease[t], breaks);
      MovedWinds(s1, t, next);
      WindsTransitive(s, s1, SetLease(CloseTargetConnections(s1, t), t, next));
    } else {
      MovedWinds(s, t, next);
    }
  }

  lemma StopWinds(s: State)
    ensures Winds(s, Stop(s))
  {
    hide Settle, AnswerWhere, DropClients, Winds;
    var s1 := Settle(s, AllCommands, Rejected(ShuttingDown));
    var s2 := AnswerWhere(s1, Everything, Error(ShuttingDown));
    var s3 := DropClients(s2, s2.clients.Keys);
    SettleWinds(s, AllCommands, Rejected(ShuttingDown));
    AnswerWinds(s1, Everything, Error(ShuttingDown));
    DropWinds(s2, s2.clients.Keys);
    SameWinds(s3, Stop(s));
    WindsTransitive(s, s1, s2);
    WindsTransitive(s, s2, s3);
    WindsTransitive(s, s3, Stop(s));
  }
}
