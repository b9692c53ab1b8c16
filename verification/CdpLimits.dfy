/** Replies reach the command they answer; and the two promises the relay does not keep, with their exact conditions. */
module CdpLimits {
  import opened Options
  import opened CdpRelay
  import opened CdpConservation
  import opened CdpRouting
  import opened CdpProgress
  import opened CdpSafety
  import opened CdpTheorems

  lemma {:induction false} FindSorted(ps: seq<Pending>, p: Pending)
    requires Sorted(ps) && p in ps
    ensures Find(ps, p.id) == Some(p)
    ensures Select(OfId(p.id), ps) == [p]
  {
    if ps[0] == p {
      OthersMiss(ps[1..], p.id);
    } else {
      var i :| 0 <= i < |ps| && ps[i] == p;
      assert ps[0].id < ps[i].id;
      FindSorted(ps[1..], p);
    }
  }

  lemma {:induction false} OthersMiss(ps: seq<Pending>, id: nat)
    requires forall i :: 0 <= i < |ps| ==> ps[i].id > id
    ensures Select(OfId(id), ps) == []
  {
    if ps != [] {
      OthersMiss(ps[1..], id);
    }
  }

  lemma IdsIdentify(ps: seq<Pending>, p: Pending, q: Pending)
    requires Sorted(ps) && p in ps && q in ps && p.id == q.id
    ensures p == q
  {
    FindSorted(ps, p);
    FindSorted(ps, q);
  }

  /** A provider's result or error for a request id goes to the one client command that has it. */
  lemma ReplyReachesItsCommand(s: State, h: Host, p: Pending, reply: Reply)
    requires Inv(s) && p in s.pending && RegisteredAt(s, p.frame.sock.target, h)
    ensures var s' := CdpReply(s, h, p.id, reply);
      && s'.answers == s.answers + (if SockOpen(s, p.frame.sock) then [Answer(p.frame, reply)] else [])
      && (forall q :: q in s'.pending <==> q in s.pending && q != p)
  {
    hide Conserved, Healthy, Pinned, Sorted;
    FindSorted(s.pending, p);
    assert Replies(s.socks, [p][1..], reply) == [];
    RejectsIn(OfId(p.id), s.pending);
    forall q | q in s.pending && q.id == p.id ensures q == p {
      IdsIdentify(s.pending, p, q);
    }
  }

  /**
   A stolen command is stranded: the host that has it can neither answer it nor, by
   going away, have it failed.
   */
  lemma StolenIsStranded(s: State, e: Event, p: Pending)
    requires Inv(s) && Routed(s, {}) && StealsIn(s, e)
    requires p in s.pending && p.frame.sock.target == e.target
    ensures var s' := Step(s, e); var c := s.sentOn[p.id];
      && p in s'.pending
      && (forall reply :: CdpReply(s', c.host, p.id, reply) == s')
      && p in OnProviderClose(s', c).pending
  {
    hide Conserved, SessionsAgree, Leased, Pinned, Settle, DropClients;
    assert Held(s, p);
    var s' := Step(s, e);
    var c := s.sentOn[p.id];
    assert s' == List(s, e.target, e.registration.(host := e.conn.host));
    hide Step, Inv, StealsIn, Healthy;
    StrandedElsewhere(s', p, c);
  }

  lemma StrandedElsewhere(s: State, p: Pending, c: Conn)
    requires Ordered(s) && p in s.pending
    requires p.frame.sock.target in s.registry && s.registry[p.frame.sock.target].host != c.host
    ensures (forall reply :: CdpReply(s, c.host, p.id, reply) == s) && p in OnProviderClose(s, c).pending
  {
    FindSorted(s.pending, p);
    RejectsIn(OfHost(c.host, s.registry), s.pending);
    if IsCurrent(s, c) {
      PendingAfterLoss(s, c);
    }
  }

  lemma PendingAfterLoss(s: State, c: Conn)
    requires IsCurrent(s, c)
    ensures OnProviderClose(s, c).pending == Reject(OfHost(c.host, s.registry), s.pending)
  {
  }

  const HOST_A := Conn(0, "a", WebSocket)
  const HOST_B := Conn(1, "b", WebSocket)
  const BROWSER := Registration(1, "", Some("browser"), None)
  const CLIENT := Sock(0, "t")
  const COMMAND := Frame(CLIENT, 7, None)

  lemma FirstProvider(s: State, c: Conn)
    requires c !in s.conns && c.transport.WebSocket? && c.host != "" && c.host !in s.providers
    ensures Step(s, ProviderUp(c)) == s.(conns := s.conns[c := Open], providers := s.providers[c.host := c])
  {
  }

  lemma FirstRegistration(s: State, c: Conn, t: Target, r: Registration)
    requires !s.hasResolver && ConnOpen(s, c) && IsCurrent(s, c) && r.host == c.host
    ensures Step(s, Registers(c, t, r, true, false)) == s.(registry := s.registry[t := r])
    ensures ProviderFor(s.(registry := s.registry[t := r]), t) == Some(c)
  {
  }

  lemma ClientSends(s: State, w: Sock, f: Frame, c: Conn)
    requires f.sock == w && w !in s.socks && ProviderFor(s, w.target) == Some(c)
    requires !IsWorkspaceTarget(s, w.target)
    ensures Step(Step(s, ClientUp(w)), ClientSent(f, "Runtime.evaluate", Delivered))
         == Enqueue(ClientConnected(s, w), f, c)
  {
    var s1 := ClientConnected(s, w);
    assert SockOpen(s1, w);
    assert ProviderFor(s1, w.target) == Some(c) && !IsWorkspaceTarget(s1, w.target);
  }

  const UP_A := ProviderUp(HOST_A)
  const UP_B := ProviderUp(HOST_B)
  const REGISTERS := Registers(HOST_A, "t", BROWSER.(host := "a"), true, false)
  const SENDS := ClientSent(COMMAND, "Runtime.evaluate", Delivered)

  /** Without a resolver such a registration is reachable: two hosts register the same target in turn. */
  lemma StealingIsReachable()
    ensures var s := Run(Initial(false, map[]), [UP_A, UP_B, REGISTERS, ClientUp(CLIENT), SENDS]);
      StealsIn(s, Registers(HOST_B, "t", BROWSER, true, false))
  {
    hide Step, ClientConnected, Run;
    var s0 := Initial(false, map[]);
    RunFive(s0, UP_A, UP_B, REGISTERS, ClientUp(CLIENT), SENDS);
    FirstProvider(s0, HOST_A);
    var s1 := Step(s0, UP_A);
    FirstProvider(s1, HOST_B);
    var s2 := Step(s1, UP_B);
    FirstRegistration(s2, HOST_A, "t", BROWSER.(host := "a"));
    var s3 := Step(s2, REGISTERS);
    assert s3.registry["t"] == BROWSER.(host := "a");
    ClientSends(s3, CLIENT, COMMAND, HOST_A);
    ConnectedFrames(s3, CLIENT);
    var s5 := Enqueue(ClientConnected(s3, CLIENT), COMMAND, HOST_A);
    assert s5.pending[0].frame.sock.target == "t";
    assert ConnOpen(s5, HOST_B) && IsCurrent(s5, HOST_B);
  }

  lemma RunFive(s: State, a: Event, b: Event, c: Event, d: Event, e: Event)
    ensures Run(s, [a, b, c, d, e]) == Step(Step(Step(Step(Step(s, a), b), c), d), e)
  {
    hide Step, Run;
    RunNothing(s);
    RunThen(s, [], a);
    RunThen(s, [a], b);
    RunThen(s, [a, b], c);
    RunThen(s, [a, b, c], d);
    RunThen(s, [a, b, c, d], e);
    Lists5(a, b, c, d, e);
  }

  lemma RunNothing(s: State)
    ensures Run(s, []) == s
  {
  }

  lemma Lists5(a: Event, b: Event, c: Event, d: Event, e: Event)
    ensures [] + [a] == [a] && [a] + [b] == [a, b] && [a, b] + [c] == [a, b, c]
    ensures [a, b, c] + [d] == [a, b, c, d] && [a, b, c, d] + [e] == [a, b, c, d, e]
  {
  }

  lemma ConnectedFrames(s: State, w: Sock)
    ensures var s' := ClientConnected(s, w);
      s'.pending == s.pending && s'.registry == s.registry && s'.conns == s.conns
      && s'.providers == s.providers && s'.hasResolver == s.hasResolver
  {
  }

  lemma {:induction false} RunThen(s: State, events: seq<Event>, e: Event)
    ensures Run(s, events + [e]) == Step(Run(s, events), e)
    decreases |events|
  {
    hide Step;
    if events == [] {
      assert [] + [e] == [e] && [e][1..] == [];
      assert Run(Step(s, e), []) == Step(s, e);
    } else {
      assert (events + [e])[0] == events[0] && (events + [e])[1..] == events[1..] + [e];
      RunThen(Step(s, events[0]), events[1..], e);
    }
  }

  /** The pin an unregister leaves behind: the target has no client left and stays pinned. */
  lemma UnregisterLeaksPin(s: State, c: Conn, t: Target)
    requires Inv(s) && c in s.conns && RegisteredAt(s, t, c.host) && t in s.clients
    ensures var s' := Step(s, Unregisters(c, t)); t !in s'.clients && PinnedNow(s', t) && t in s'.leaked
  {
    hide Conserved, Ordered, Healthy, Settle, AnswerWhere;
    assert PinsExact(s, t);
    UnregisterTables(s, c.host, t);
  }

  /** The next client of such a target pins it a second time, with no unpin in between. */
  lemma LeakedTargetIsPinnedTwice(s: State, w: Sock)
    requires Inv(s) && w.target in s.leaked && w !in s.socks && ProviderFor(s, w.target).Some?
    ensures var log := PinLog(Step(s, ClientUp(w)), w.target);
      |log| >= 2 && log[|log| - 2] && log[|log| - 1]
  {
    hide Conserved, Ordered, Healthy, ProviderFor;
    assert PinsExact(s, w.target);
  }

  const LEAKING := [UP_A, REGISTERS, ClientUp(CLIENT), Unregisters(HOST_A, "t")]
  const SECOND := Sock(1, "t")

  /** A leak is reachable: a target is unregistered while a client is connected. */
  lemma LeakIsReachable()
    ensures var s := Run(Initial(false, map[]), LEAKING);
      "t" in s.leaked && "t" !in s.clients && PinnedNow(s, "t") && PinLog(s, "t") == [true]
  {
    var r := LeakedState();
    UnregisterEmpties(r.0);
    assert PinLog(r.1, "t") == [true];
  }

  /** The states before and after the leak. */
  lemma LeakedState() returns (r: (State, State))
    ensures r.1 == Run(Initial(false, map[]), LEAKING) == Unregister(r.0, "a", "t")
    ensures r.0.clients == map["t" := {CLIENT}] && r.0.pins == map["t" := [true]] && r.0.leaked == {}
    ensures r.0.registry == map["t" := BROWSER.(host := "a")] && r.0.providers == map["a" := HOST_A]
    ensures r.0.conns == map[HOST_A := Open] && r.0.socks == map[CLIENT := Open]
    ensures !r.0.hasResolver && r.0.pending == [] && r.0.commands == map[]
  {
    hide Step, Run;
    var s0 := Initial(false, map[]);
    RunNothing(s0);
    RunThen(s0, [], UP_A);
    RunThen(s0, [UP_A], REGISTERS);
    RunThen(s0, [UP_A, REGISTERS], ClientUp(CLIENT));
    RunThen(s0, [UP_A, REGISTERS, ClientUp(CLIENT)], Unregisters(HOST_A, "t"));
    Lists5(UP_A, REGISTERS, ClientUp(CLIENT), Unregisters(HOST_A, "t"), UP_A);
    FirstProvider(s0, HOST_A);
    var s1 := Step(s0, UP_A);
    FirstRegistration(s1, HOST_A, "t", BROWSER.(host := "a"));
    var s2 := Step(s1, REGISTERS);
    FirstClient(s2, CLIENT);
    var s3 := Step(s2, ClientUp(CLIENT));
    UnregisterStep(s3, HOST_A, "t");
    r := (s3, Step(s3, Unregisters(HOST_A, "t")));
  }

  lemma FirstClient(s: State, w: Sock)
    requires w !in s.socks && ProviderFor(s, w.target).Some? && s.clients == map[] && s.pins == map[] && s.leaked == {}
    ensures var s' := Step(s, ClientUp(w));
      && s'.clients == map[w.target := {w}] && s'.pins == map[w.target := [true]] && s'.leaked == {}
      && s'.socks == s.socks[w := Open] && s'.registry == s.registry && s'.providers == s.providers
      && s'.conns == s.conns && s'.hasResolver == s.hasResolver && s'.pending == s.pending && s'.commands == s.commands
  {
    hide ProviderFor;
    assert AddClient(s, w).clients[w.target] == {w};
    assert AddClient(s, w).pins[w.target] == [true];
  }

  lemma UnregisterStep(s: State, c: Conn, t: Target)
    requires c in s.conns
    ensures Step(s, Unregisters(c, t)) == Unregister(s, c.host, t)
  {
    hide Unregister;
  }

  lemma UnregisterEmpties(s: State)
    requires RegisteredAt(s, "t", "a") && "t" in s.clients && s.pins == map["t" := [true]]
    ensures var s' := Unregister(s, "a", "t");
      && "t" !in s'.clients && "t" in s'.leaked && s'.pins == s.pins && PinnedNow(s', "t")
      && s'.providers == s.providers && s'.conns == s.conns && s'.hasResolver == s.hasResolver
      && s'.socks.Keys == s.socks.Keys && "t" !in s'.registry
  {
    UnregisterTables(s, "a", "t");
    hide Settle, AnswerWhere;
  }

  /** The same run, and then a second client of the target: two pins in a row. */
  lemma SecondPinIsReachable()
    ensures PinLog(Run(Initial(false, map[]), LEAKING + [REGISTERS] + [ClientUp(SECOND)]), "t") == [true, true]
  {
    hide Step, Run, Unregister;
    var s0 := Initial(false, map[]);
    var r := LeakedState();
    var s4 := r.1;
    UnregisterEmpties(r.0);
    RunThen(s0, LEAKING, REGISTERS);
    RunThen(s0, LEAKING + [REGISTERS], ClientUp(SECOND));
    FirstRegistration(s4, HOST_A, "t", BROWSER.(host := "a"));
    var s5 := Step(s4, REGISTERS);
    SecondClient(s5, SECOND);
    assert PinLog(s5, "t") == [true];
  }

  lemma SecondClient(s: State, w: Sock)
    requires w !in s.socks && ProviderFor(s, w.target).Some? && w.target !in s.clients
    ensures PinLog(Step(s, ClientUp(w)), w.target) == PinLog(s, w.target) + [true]
  {
    hide ProviderFor;
  }

  lemma UnregisterTables(s: State, h: Host, t: Target)
    requires RegisteredAt(s, t, h)
    ensures Unregister(s, h, t).clients == s.clients - {t}
    ensures Unregister(s, h, t).pins == s.pins
    ensures Unregister(s, h, t).leaked == if t in s.clients then s.leaked + {t} else s.leaked
  {
  }
}
