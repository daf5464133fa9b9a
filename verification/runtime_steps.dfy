/** Every event of RuntimeModel keeps the invariant. */
module RuntimeSteps {
  import opened RuntimeModel
  import opened RuntimeInvariant
  import P = PoolModel
  import T = TunnelModel

  // ---------- connectInternal, between its first await and the handover ----------

  predicate Moved(s: State, s': State, c: ConnId)
    requires c in s.connects
  {
    && c in s'.connects && s'.connects == s.connects[c := s'.connects[c]]
    && s'.connects[c].app == s.connects[c].app && !s'.connects[c].pc.Announcing?
    && s'.active == s.active && s'.inFlight == s.inFlight && s'.teardowns == s.teardowns
    && s'.stops == s.stops && s'.settled == s.settled
    && (s'.launched == s.launched || s'.launched == s.launched + {c})
    && (s'.last == s.last
        || (s.connects[c].app.id in s'.last && s'.last == s.last[s.connects[c].app.id := s'.last[s.connects[c].app.id]]
            && s'.last[s.connects[c].app.id] != SHealthy))
  }

  lemma MovedOnly(s: State, s': State, c: ConnId)
    requires Inv(s) && c in s.connects && !s.connects[c].pc.Announcing? && Moved(s, s', c)
    requires TunnelsOnly(s.tunnels, s'.tunnels, c) && PoolOnly(s.pool, s'.pool, c)
    ensures Only(s, s', c, s.connects[c].app.id)
  {
    var a := s.connects[c].app.id;
    assert ConnectOk(s, c) && TeardownOk(s, c);
    forall d | d != c ensures SameConn(s, s', d) {
      assert SameReservation(s.tunnels, s'.tunnels, d) && SameLease(s.pool, s'.pool, d);
    }
    forall b | b != a ensures SameApp(s, s', b) {}
    assert SameActive(s, s', a) && SameFlight(s, s', a);
  }

  lemma MovedLocal(s: State, s': State, c: ConnId)
    requires Inv(s) && c in s.connects && !s.connects[c].pc.Announcing? && Moved(s, s', c)
    requires Only(s, s', c, s.connects[c].app.id)
    requires ConnectOk(s', c) && (c in s'.pool.leases ==> c in s'.tunnels.held)
    ensures Local(s', c, s.connects[c].app.id)
  {
    var a := s.connects[c].app.id;
    assert ConnectOk(s, c) && TeardownOk(s, c) && OwnedOk(s, c) && ActiveOk(s, a) && FlightOk(s, a) && HealthyOk(s, a);
    if a in s.active { assert SameConn(s, s', s.active[a].conn); }
    assert TearingDown(s, a) ==> TearingDown(s', a);
  }

  lemma MovedKeepsInv(s: State, s': State, c: ConnId)
    requires Inv(s) && c in s.connects && !s.connects[c].pc.Announcing? && Moved(s, s', c)
    requires TunnelsOnly(s.tunnels, s'.tunnels, c) && PoolOnly(s.pool, s'.pool, c)
    requires ConnectOk(s', c) && (c in s'.pool.leases ==> c in s'.tunnels.held)
    ensures Inv(s')
  {
    MovedOnly(s, s', c);
    MovedLocal(s, s', c);
    forall i ensures StopOk(s', i) { assert StopOk(s, i); }
    OnlyKeepsInv(s, s', c, s.connects[c].app.id);
  }

  lemma Unchanged(s: State, c: ConnId)
    requires PartsOk(s)
    ensures TunnelsOnly(s.tunnels, s.tunnels, c) && PoolOnly(s.pool, s.pool, c)
  {
  }

  /** A step that only moves the program counter, perhaps publishing a status. */
  lemma GotoKeepsInv(s: State, s': State, c: ConnId)
    requires Inv(s) && c in s.connects && !s.connects[c].pc.Announcing? && Moved(s, s', c)
    requires s'.tunnels == s.tunnels && s'.pool == s.pool
    requires ConnectOk(s', c)
    ensures Inv(s')
  {
    Unchanged(s, c);
    assert OwnedOk(s, c);
    MovedKeepsInv(s, s', c);
  }

  /** The catch block is entered from `u`, which differs from `s` by what connect `c` just did. */
  predicate Throwable(u: State, c: ConnId) {
    && c in u.connects
    && c !in u.tunnels.starting && c !in u.pool.connecting
    && (c in u.tunnels.held ==>
          u.tunnels.held[c].app == u.connects[c].app.id && u.tunnels.held[c].port == u.connects[c].app.port)
    && (c in u.pool.leases ==>
          !u.pool.leases[c].released && c in u.tunnels.held && u.pool.leases[c].server == u.connects[c].app.server)
    && (u.connects[c].started <==> c in u.launched)
  }

  lemma UnwindConnectOk(u: State, c: ConnId)
    requires Throwable(u, c) && OnTheWay(u.connects[c].trace) && c !in u.settled
    requires u.connects[c].app.id in u.inFlight && u.inFlight[u.connects[c].app.id] == c
    ensures ConnectOk(Unwind(u, c), c)
  {
  }

  lemma UnwindKeepsInv(s: State, u: State, c: ConnId)
    requires Inv(s) && c in s.connects && !s.connects[c].pc.Announcing? && Moved(s, u, c)
    requires TunnelsOnly(s.tunnels, u.tunnels, c) && PoolOnly(s.pool, u.pool, c)
    requires Throwable(u, c) && OnTheWay(u.connects[c].trace)
    ensures Inv(Unwind(u, c))
  {
    var s' := Unwind(u, c);
    CloseTunnelOp(u.tunnels, c);
    forall d | d != c ensures SameReservation(s.tunnels, s'.tunnels, d) {
      assert SameReservation(s.tunnels, u.tunnels, d) && SameReservation(u.tunnels, s'.tunnels, d);
    }
    assert ConnectOk(s, c);
    UnwindConnectOk(u, c);
    MovedKeepsInv(s, s', c);
  }

  lemma PlainUnwindKeepsInv(s: State, c: ConnId)
    requires Inv(s) && c in s.connects
    requires var pc := s.connects[c].pc;
             pc.Checking? || pc.HealthChecking? || (Holding(pc) && !pc.Acquiring?)
    ensures Inv(Unwind(s, c))
  {
    Unchanged(s, c);
    assert ConnectOk(s, c) && OwnedOk(s, c);
    UnwindKeepsInv(s, s, c);
  }

  lemma AfterReserveKeepsInv(s: State, c: ConnId)
    requires Inv(s) && c in s.connects && s.connects[c].pc.Checking?
    ensures Inv(AfterReserve(s, c))
  {
    var app := s.connects[c].app;
    assert ConnectOk(s, c);
    if app.id in s.tunnels.reservations {
      PlainUnwindKeepsInv(s, c);
    } else {
      var e := T.Reserve(c, app.id, app.port);
      forall i | i in s.tunnels.starting ensures s.tunnels.starting[i].app != app.id {
        assert OwnedOk(s, i) && ConnectOk(s, i);
      }
      TunnelOp(s.tunnels, e, c);
      Unchanged(s, c);
      MovedKeepsInv(s, AfterReserve(s, c), c);
    }
  }

  lemma AfterListenKeepsInv(s: State, c: ConnId, outcome: Outcome)
    requires Inv(s) && CanResume(s, c, outcome) && s.connects[c].pc.Reserving?
    ensures Inv(AfterListen(s, c, outcome))
  {
    assert ConnectOk(s, c);
    Unchanged(s, c);
    if outcome.Yes? {
      TunnelOp(s.tunnels, T.Listening(c), c);
      MovedKeepsInv(s, AfterListen(s, c, outcome), c);
    } else {
      TunnelOp(s.tunnels, T.ListenFailed(c), c);
      UnwindKeepsInv(s, s.(tunnels := T.Apply(s.tunnels, T.ListenFailed(c))), c);
    }
  }

  lemma CallAcquireKeepsInv(s: State, c: ConnId)
    requires Inv(s) && c in s.connects && s.connects[c].pc.Connecting?
    ensures Inv(CallAcquire(s, c))
  {
    assert ConnectOk(s, c);
    Unchanged(s, c);
    PoolOp(s.pool, P.Acquire(c, s.connects[c].app.server), c);
    MovedKeepsInv(s, CallAcquire(s, c), c);
  }

  lemma AfterConnectKeepsInv(s: State, c: ConnId, outcome: Outcome)
    requires Inv(s) && CanResume(s, c, outcome) && s.connects[c].pc.Acquiring?
    ensures Inv(AfterConnect(s, c, outcome))
  {
    assert ConnectOk(s, c);
    Unchanged(s, c);
    if outcome.Yes? {
      PoolOp(s.pool, P.Connected(c), c);
      MovedKeepsInv(s, AfterConnect(s, c, outcome), c);
    } else {
      PoolOp(s.pool, P.ConnectFailed(c), c);
      assert P.CallOk(s.pool, c);
      UnwindKeepsInv(s, s.(pool := P.Apply(s.pool, P.ConnectFailed(c))), c);
    }
  }

  lemma AfterProbeKeepsInv(s: State, c: ConnId, outcome: Outcome)
    requires Inv(s) && c in s.connects && s.connects[c].pc.Probing?
    ensures Inv(AfterProbe(s, c, outcome))
  {
    assert ConnectOk(s, c);
    var app := s.connects[c].app;
    if outcome.Yes? || (outcome.No? && app.autoStart && app.hasStartCommand) {
      GotoKeepsInv(s, AfterProbe(s, c, outcome), c);
    } else {
      PlainUnwindKeepsInv(s, c);
    }
  }

  lemma AfterLaunchKeepsInv(s: State, c: ConnId, outcome: Outcome, timeLeft: bool)
    requires Inv(s) && c in s.connects && s.connects[c].pc.Launching?
    ensures Inv(AfterLaunch(s, c, outcome, timeLeft))
  {
    assert ConnectOk(s, c);
    if !outcome.Yes? {
      PlainUnwindKeepsInv(s, c);
    } else if timeLeft {
      GotoKeepsInv(s, AfterLaunch(s, c, outcome, timeLeft), c);
    } else {
      var ran := s.(launched := s.launched + {c}, connects := s.connects[c := s.connects[c].(started := true)]);
      Unchanged(s, c);
      assert OwnedOk(s, c);
      UnwindKeepsInv(s, ran, c);
    }
  }

  lemma AfterPollKeepsInv(s: State, c: ConnId, outcome: Outcome, timeLeft: bool)
    requires Inv(s) && c in s.connects && s.connects[c].pc.Polling?
    ensures Inv(AfterPoll(s, c, outcome, timeLeft))
  {
    assert ConnectOk(s, c);
    if outcome.Yes? || (outcome.No? && timeLeft) {
      GotoKeepsInv(s, AfterPoll(s, c, outcome, timeLeft), c);
    } else {
      PlainUnwindKeepsInv(s, c);
    }
  }

  /** activate never finds the reservation released or busy. */
  lemma ActivateSucceeds(s: State, c: ConnId)
    requires Inv(s) && c in s.connects && s.connects[c].pc.Tunneling?
    ensures T.CanActivate(s.tunnels, c)
  {
    assert ConnectOk(s, c) && T.ResOk(s.tunnels, c);
  }

  lemma CallActivateKeepsInv(s: State, c: ConnId)
    requires Inv(s) && c in s.connects && s.connects[c].pc.Tunneling?
    ensures Inv(CallActivate(s, c))
  {
    ActivateSucceeds(s, c);
    assert ConnectOk(s, c) && OwnedOk(s, c);
    Unchanged(s, c);
    TunnelOp(s.tunnels, T.Activate(c), c);
    MovedKeepsInv(s, CallActivate(s, c), c);
  }

  lemma TunnelClosedKeepsInv(s: State, c: ConnId)
    requires Inv(s) && c in s.connects && s.connects[c].pc == Unwinding(ClosingTunnel) && TunnelClosed(s.tunnels, c)
    ensures Inv(Unwound(s, c))
  {
    assert ConnectOk(s, c) && OwnedOk(s, c);
    Unchanged(s, c);
    CloseTunnelOp(s.tunnels, c);
    MovedKeepsInv(s, Unwound(s, c), c);
  }

  lemma ReservationReleasedKeepsInv(s: State, c: ConnId)
    requires Inv(s) && c in s.connects && s.connects[c].pc == Unwinding(ReleasingReservation)
    requires ReservationReleased(s.tunnels, c)
    ensures Inv(Unwound(s, c))
  {
    assert ConnectOk(s, c) && OwnedOk(s, c);
    Unchanged(s, c);
    ReleaseLeaseOp(s.pool, c);
    MovedKeepsInv(s, Unwound(s, c), c);
  }

  lemma FailedTrace(trace: seq<Status>)
    requires OnTheWay(trace)
    ensures Failed(trace + [SError])
  {
    assert (trace + [SError])[..|trace|] == trace;
  }

  lemma FailingConnectOk(s: State, c: ConnId)
    requires ConnectOk(s, c) && c in s.connects && s.connects[c].pc == Unwinding(ReleasingLease)
    ensures ConnectOk(Say(s, c, SError, Failing), c)
  {
    FailedTrace(s.connects[c].trace);
  }

  lemma LeaseReleasedKeepsInv(s: State, c: ConnId)
    requires Inv(s) && c in s.connects && s.connects[c].pc == Unwinding(ReleasingLease)
    ensures Inv(Unwound(s, c))
  {
    assert ConnectOk(s, c);
    FailingConnectOk(s, c);
    GotoKeepsInv(s, Say(s, c, SError, Failing), c);
  }

  lemma UnwoundKeepsInv(s: State, c: ConnId, outcome: Outcome)
    requires Inv(s) && CanResume(s, c, outcome) && s.connects[c].pc.Unwinding?
    ensures Inv(Unwound(s, c))
  {
    assert ConnectOk(s, c);
    match s.connects[c].pc.stage
    case ClosingTunnel => TunnelClosedKeepsInv(s, c);
    case ReleasingReservation => ReservationReleasedKeepsInv(s, c);
    case ReleasingLease => LeaseReleasedKeepsInv(s, c);
  }

  // ---------- the handover to the active map, and the end of a connect ----------

  lemma OneReservation(t: T.Tunnels, i: ConnId, j: ConnId)
    requires T.Sole(t) && i in t.held && j in t.held && t.held[i].app == t.held[j].app
    requires !t.held[i].phase.Released? && !t.held[j].phase.Released?
    ensures i == j
  {
    assert T.Listed(t, i) && T.Listed(t, j);
  }

  /** `active.set` never overwrites: the manager would have refused a second reservation. */
  lemma NeverOverwrites(s: State, c: ConnId)
    requires Inv(s) && c in s.connects && s.connects[c].pc.HealthChecking?
    ensures s.connects[c].app.id !in s.active
  {
    var a := s.connects[c].app.id;
    assert ConnectOk(s, c) && ActiveOk(s, a);
    if a in s.active { OneReservation(s.tunnels, c, s.active[a].conn); }
  }

  lemma HandoverOnly(s: State, c: ConnId)
    requires Inv(s) && c in s.connects && s.connects[c].pc.HealthChecking?
    ensures Only(s, AfterHealth(s, c, Yes), c, s.connects[c].app.id)
  {
    var s', a := AfterHealth(s, c, Yes), s.connects[c].app.id;
    NeverOverwrites(s, c);
    assert ConnectOk(s, c) && TeardownOk(s, c);
    forall d | d != c ensures SameConn(s, s', d) {}
    forall b | b != a ensures SameApp(s, s', b) {}
    assert SameFlight(s, s', a);
  }

  lemma HandoverLocal(s: State, c: ConnId)
    requires Inv(s) && c in s.connects && s.connects[c].pc.HealthChecking?
    ensures Local(AfterHealth(s, c, Yes), c, s.connects[c].app.id)
  {
    assert ConnectOk(s, c) && TeardownOk(s, c) && OwnedOk(s, c);
    HandoverConnectOk(s, c);
  }

  lemma HandoverConnectOk(s: State, c: ConnId)
    requires Inv(s) && c in s.connects && s.connects[c].pc.HealthChecking?
    ensures ConnectOk(AfterHealth(s, c, Yes), c)
  {
    assert ConnectOk(s, c);
    var trace := s.connects[c].trace;
    assert (trace + [SHealthy])[..|trace|] == trace;
  }

  lemma AfterHealthKeepsInv(s: State, c: ConnId, outcome: Outcome)
    requires Inv(s) && c in s.connects && s.connects[c].pc.HealthChecking?
    ensures Inv(AfterHealth(s, c, outcome))
  {
    if outcome.Yes? {
      HandoverOnly(s, c);
      HandoverLocal(s, c);
      forall i ensures StopOk(AfterHealth(s, c, Yes), i) { assert StopOk(s, i); }
      OnlyKeepsInv(s, AfterHealth(s, c, Yes), c, s.connects[c].app.id);
    } else {
      PlainUnwindKeepsInv(s, c);
    }
  }

  lemma SettleOnly(s: State, c: ConnId, ok: bool)
    requires Inv(s) && c in s.connects && (if ok then s.connects[c].pc.Announcing? else s.connects[c].pc.Failing?)
    ensures Only(s, Settle(s, c, ok), c, s.connects[c].app.id)
  {
    var s', a := Settle(s, c, ok), s.connects[c].app.id;
    assert ConnectOk(s, c) && TeardownOk(s, c);
    forall d | d != c ensures SameConn(s, s', d) {}
    forall b | b != a ensures SameApp(s, s', b) {}
    assert SameActive(s, s', a);
    if c in s.teardowns { assert s.tunnels.held[c].app == a; }
  }

  lemma SettleLocal(s: State, c: ConnId, ok: bool)
    requires Inv(s) && c in s.connects && (if ok then s.connects[c].pc.Announcing? else s.connects[c].pc.Failing?)
    requires Only(s, Settle(s, c, ok), c, s.connects[c].app.id)
    ensures Local(Settle(s, c, ok), c, s.connects[c].app.id)
  {
    var s', a := Settle(s, c, ok), s.connects[c].app.id;
    assert ConnectOk(s, c) && TeardownOk(s, c) && OwnedOk(s, c) && ActiveOk(s, a) && HealthyOk(s, a);
    if a in s.active { assert s.active[a].conn != c ==> SameConn(s, s', s.active[a].conn); }
    assert TearingDown(s, a) ==> TearingDown(s', a);
  }

  lemma SettleKeepsInv(s: State, c: ConnId, ok: bool)
    requires Inv(s) && c in s.connects && (if ok then s.connects[c].pc.Announcing? else s.connects[c].pc.Failing?)
    ensures Inv(Settle(s, c, ok))
  {
    SettleOnly(s, c, ok);
    SettleLocal(s, c, ok);
    forall i ensures StopOk(Settle(s, c, ok), i) { assert StopOk(s, i); }
    OnlyKeepsInv(s, Settle(s, c, ok), c, s.connects[c].app.id);
  }

  lemma ResumeKeepsInv(s: State, c: ConnId, outcome: Outcome, timeLeft: bool)
    requires Inv(s) && CanResume(s, c, outcome)
    ensures Inv(ResumeStep(s, c, outcome, timeLeft))
  {
    match s.connects[c].pc
    case Checking => AfterReserveKeepsInv(s, c);
    case Reserving => AfterListenKeepsInv(s, c, outcome);
    case Connecting => CallAcquireKeepsInv(s, c);
    case Acquiring => AfterConnectKeepsInv(s, c, outcome);
    case Probing => AfterProbeKeepsInv(s, c, outcome);
    case Starting => WaitKeepsInv(s, c, Launching);
    case Launching => AfterLaunchKeepsInv(s, c, outcome, timeLeft);
    case Sleeping => WaitKeepsInv(s, c, Polling);
    case Polling => AfterPollKeepsInv(s, c, outcome, timeLeft);
    case Tunneling => CallActivateKeepsInv(s, c);
    case HealthChecking => AfterHealthKeepsInv(s, c, outcome);
    case Announcing => SettleKeepsInv(s, c, true);
    case Unwinding(_) => UnwoundKeepsInv(s, c, outcome);
    case Failing => SettleKeepsInv(s, c, false);
  }

  lemma WaitKeepsInv(s: State, c: ConnId, pc: Pc)
    requires Inv(s) && c in s.connects
    requires (s.connects[c].pc.Starting? && pc.Launching?) || (s.connects[c].pc.Sleeping? && pc.Polling?)
    ensures Inv(Goto(s, c, pc))
  {
    assert ConnectOk(s, c);
    GotoKeepsInv(s, Goto(s, c, pc), c);
  }

  lemma StartKeepsInv(s: State, c: ConnId, app: App)
    requires Inv(s) && Unborn(s, c) && app.id !in s.inFlight
    ensures Inv(StartStep(s, c, app))
  {
    var s', a := StartStep(s, c, app), app.id;
    assert OwnedOk(s, c) && ActiveOk(s, a) && FlightOk(s, a);
    forall d | d != c ensures SameConn(s, s', d) {}
    forall b | b != a ensures SameApp(s, s', b) {}
    assert SameActive(s, s', a);
    forall i ensures StopOk(s', i) { assert StopOk(s, i); }
    OnlyKeepsInv(s, s', c, a);
  }

  // ---------- disconnect, unexpected disconnect ----------

  /** The state after an entry left the map for a teardown in `stage`. */
  predicate TakenDown(s: State, s': State, a: AppId, kind: Kind, stage: Stage)
    requires a in s.active
  {
    var e := s.active[a];
    && s'.active == s.active - {a} && s'.teardowns == s.teardowns[e.conn := Teardown(kind, e, stage)]
    && s'.inFlight == s.inFlight && s'.connects == s.connects && s'.settled == s.settled
    && s'.pool == s.pool && s'.last == s.last && s'.launched == s.launched
    && s'.tunnels == (if stage.Stopping? then s.tunnels else CloseTunnel(s.tunnels, e.conn))
    && (stage.Stopping? || stage.ClosingTunnel?)
  }

  lemma TakenDownOnly(s: State, s': State, a: AppId, kind: Kind, stage: Stage)
    requires Inv(s) && a in s.active && TakenDown(s, s', a, kind, stage)
    ensures Only(s, s', s.active[a].conn, a) && PartsOk(s')
  {
    var c := s.active[a].conn;
    assert ActiveOk(s, a);
    CloseTunnelOp(s.tunnels, c);
    forall d | d != c ensures SameConn(s, s', d) { assert SameReservation(s.tunnels, s.tunnels, d); }
    forall b | b != a ensures SameApp(s, s', b) {}
    assert SameFlight(s, s', a);
  }

  lemma TakenDownLocal(s: State, s': State, a: AppId, kind: Kind, stage: Stage)
    requires Inv(s) && a in s.active && TakenDown(s, s', a, kind, stage)
    ensures Local(s', s.active[a].conn, a)
  {
    var c := s.active[a].conn;
    assert ActiveOk(s, a) && ConnectOk(s, c) && OwnedOk(s, c) && FlightOk(s, a);
    assert c in s'.teardowns && s'.teardowns[c].entry.app.id == a;
  }

  lemma TakenDownKeepsInv(s: State, s': State, a: AppId, kind: Kind, stage: Stage)
    requires Inv(s) && a in s.active && TakenDown(s, s', a, kind, stage)
    requires forall i :: StopOk(s', i)
    ensures Inv(s')
  {
    TakenDownOnly(s, s', a, kind, stage);
    TakenDownLocal(s, s', a, kind, stage);
    assert ActiveOk(s, a);
    if s.active[a].conn in s.connects { assert ConnectOk(s, s.active[a].conn); }
    OnlyKeepsInv(s, s', s.active[a].conn, a);
  }

  lemma StopIsJustified(s: State, a: AppId, i: nat)
    requires Inv(s) && a in s.active
    ensures StopOk(DisconnectStep(s, a), i)
  {
    assert ActiveOk(s, a) && StopOk(s, i);
  }

  lemma DisconnectTakesDown(s: State, a: AppId)
    requires a in s.active
    ensures var stage := if WantsStop(s.active, a) then Stopping else ClosingTunnel;
            TakenDown(s, DisconnectStep(s, a), a, Disconnecting, stage)
  {
  }

  lemma DisconnectKeepsInv(s: State, a: AppId)
    requires Inv(s)
    ensures Inv(DisconnectStep(s, a))
  {
    if a in s.active {
      var s' := DisconnectStep(s, a);
      forall i ensures StopOk(s', i) { StopIsJustified(s, a, i); }
      DisconnectTakesDown(s, a);
      TakenDownKeepsInv(s, s', a, Disconnecting, if WantsStop(s.active, a) then Stopping else ClosingTunnel);
    }
  }

  lemma LostKeepsInv(s: State, a: AppId)
    requires Inv(s) && a in s.active
    ensures Inv(LostStep(s, a))
  {
    forall i ensures StopOk(LostStep(s, a), i) { assert StopOk(s, i); }
    TakenDownKeepsInv(s, LostStep(s, a), a, Recovering, ClosingTunnel);
  }

  /** The state after the teardown of `c` reached `stage`. */
  predicate Advanced(s: State, s': State, c: ConnId, stage: Stage)
    requires c in s.teardowns
  {
    && s'.teardowns == s.teardowns[c := s.teardowns[c].(stage := stage)]
    && s' == s.(teardowns := s'.teardowns, tunnels := s'.tunnels, pool := s'.pool)
  }

  lemma AdvancedOnly(s: State, s': State, c: ConnId, stage: Stage)
    requires Inv(s) && c in s.teardowns && Advanced(s, s', c, stage)
    requires TunnelsOnly(s.tunnels, s'.tunnels, c) && PoolOnly(s.pool, s'.pool, c)
    ensures Only(s, s', c, s.teardowns[c].entry.app.id)
  {
    var a := s.teardowns[c].entry.app.id;
    assert TeardownOk(s, c);
    forall d | d != c ensures SameConn(s, s', d) {
      assert SameReservation(s.tunnels, s'.tunnels, d) && SameLease(s.pool, s'.pool, d);
    }
    forall b | b != a ensures SameApp(s, s', b) {}
    assert SameActive(s, s', a) && SameFlight(s, s', a);
  }

  lemma AdvancedApp(s: State, s': State, c: ConnId, stage: Stage)
    requires Inv(s) && c in s.teardowns && Advanced(s, s', c, stage)
    requires Only(s, s', c, s.teardowns[c].entry.app.id)
    ensures var a := s.teardowns[c].entry.app.id; ActiveOk(s', a) && FlightOk(s', a) && HealthyOk(s', a)
  {
    var a := s.teardowns[c].entry.app.id;
    assert ActiveOk(s, a) && FlightOk(s, a) && HealthyOk(s, a);
    if a in s.active { assert SameConn(s, s', s.active[a].conn); }
    assert c in s'.teardowns && s'.teardowns[c].entry.app.id == a;
  }

  lemma AdvancedKeepsInv(s: State, s': State, c: ConnId, stage: Stage)
    requires Inv(s) && c in s.teardowns && Advanced(s, s', c, stage)
    requires TunnelsOnly(s.tunnels, s'.tunnels, c) && PoolOnly(s.pool, s'.pool, c)
    requires TeardownOk(s', c) && ConnectOk(s', c)
    ensures Inv(s')
  {
    var a := s.teardowns[c].entry.app.id;
    AdvancedOnly(s, s', c, stage);
    AdvancedApp(s, s', c, stage);
    assert TeardownOk(s, c) && ConnectOk(s, c) && OwnedOk(s, c);
    assert T.ResOk(s'.tunnels, c) && P.CallOk(s'.pool, c);
    forall i ensures StopOk(s', i) { assert StopOk(s, i); }
    OnlyKeepsInv(s, s', c, a);
  }

  lemma StoppedKeepsInv(s: State, c: ConnId)
    requires Inv(s) && c in s.teardowns && s.teardowns[c].stage.Stopping?
    ensures Inv(TeardownStep(s, c))
  {
    assert TeardownOk(s, c) && ConnectOk(s, c);
    Unchanged(s, c);
    CloseTunnelOp(s.tunnels, c);
    AdvancedKeepsInv(s, TeardownStep(s, c), c, ClosingTunnel);
  }

  lemma TornTunnelKeepsInv(s: State, c: ConnId)
    requires Inv(s) && c in s.teardowns && s.teardowns[c].stage.ClosingTunnel? && TunnelClosed(s.tunnels, c)
    ensures Inv(TeardownStep(s, c))
  {
    assert TeardownOk(s, c) && ConnectOk(s, c);
    Unchanged(s, c);
    CloseTunnelOp(s.tunnels, c);
    AdvancedKeepsInv(s, TeardownStep(s, c), c, ReleasingReservation);
  }

  lemma TornReservationKeepsInv(s: State, c: ConnId)
    requires Inv(s) && c in s.teardowns && s.teardowns[c].stage.ReleasingReservation?
    ensures Inv(TeardownStep(s, c))
  {
    assert TeardownOk(s, c) && ConnectOk(s, c);
    Unchanged(s, c);
    ReleaseLeaseOp(s.pool, c);
    AdvancedKeepsInv(s, TeardownStep(s, c), c, ReleasingLease);
  }

  /** The state after the teardown of `c` published its last word. */
  predicate Left(s: State, s': State, c: ConnId, word: Status)
    requires c in s.teardowns
  {
    && word != SHealthy
    && s' == s.(teardowns := s.teardowns - {c}, retries := s'.retries,
         last := s.last[s.teardowns[c].entry.app.id := word])
  }

  lemma LeftOnly(s: State, s': State, c: ConnId, word: Status)
    requires Inv(s) && c in s.teardowns && Left(s, s', c, word)
    ensures Only(s, s', c, s.teardowns[c].entry.app.id)
  {
    var a := s.teardowns[c].entry.app.id;
    assert TeardownOk(s, c);
    forall d | d != c ensures SameConn(s, s', d) {}
    forall b | b != a ensures SameApp(s, s', b) {}
    assert SameActive(s, s', a) && SameFlight(s, s', a);
  }

  lemma LeftLocal(s: State, s': State, c: ConnId, word: Status)
    requires Inv(s) && c in s.teardowns && s.teardowns[c].stage.ReleasingLease? && Left(s, s', c, word)
    requires Only(s, s', c, s.teardowns[c].entry.app.id)
    ensures Local(s', c, s.teardowns[c].entry.app.id)
  {
    var a := s.teardowns[c].entry.app.id;
    assert TeardownOk(s, c) && ConnectOk(s, c) && OwnedOk(s, c) && ActiveOk(s, a) && FlightOk(s, a);
    if a in s.active { assert SameConn(s, s', s.active[a].conn); }
  }

  lemma LeftKeepsInv(s: State, s': State, c: ConnId, word: Status)
    requires Inv(s) && c in s.teardowns && s.teardowns[c].stage.ReleasingLease? && Left(s, s', c, word)
    ensures Inv(s')
  {
    LeftOnly(s, s', c, word);
    LeftLocal(s, s', c, word);
    assert TeardownOk(s, c) && ConnectOk(s, c);
    forall i ensures StopOk(s', i) { assert StopOk(s, i); }
    OnlyKeepsInv(s, s', c, s.teardowns[c].entry.app.id);
  }

  lemma TeardownKeepsInv(s: State, c: ConnId)
    requires Inv(s) && CanResumeTeardown(s, c)
    ensures Inv(TeardownStep(s, c))
  {
    match s.teardowns[c].stage
    case Stopping => StoppedKeepsInv(s, c);
    case ClosingTunnel => TornTunnelKeepsInv(s, c);
    case ReleasingReservation => TornReservationKeepsInv(s, c);
    case ReleasingLease =>
      LeftKeepsInv(s, TeardownStep(s, c), c, if s.teardowns[c].kind.Disconnecting? then SDisconnected else SConnecting);
  }

  // ---------- steps that leave every connect alone ----------

  lemma QuietKeepsInv(s: State, s': State)
    requires Inv(s) && PartsOk(s')
    requires s' == s.(retries := s'.retries, last := s'.last, tunnels := s'.tunnels, pool := s'.pool)
    requires forall d :: SameReservation(s.tunnels, s'.tunnels, d)
    requires forall d :: SameLease(s.pool, s'.pool, d)
    requires forall b :: b in s'.last && s'.last[b] == SHealthy ==> b in s.last && s.last[b] == SHealthy
    ensures Inv(s')
  {
    forall d ensures ConnectOk(s', d) && TeardownOk(s', d) && OwnedOk(s', d) {
      assert ConnectOk(s, d) && TeardownOk(s, d) && OwnedOk(s, d);
      assert SameReservation(s.tunnels, s'.tunnels, d) && SameLease(s.pool, s'.pool, d);
    }
    forall a ensures ActiveOk(s', a) && FlightOk(s', a) && HealthyOk(s', a) { QuietApp(s, s', a); }
    forall i ensures StopOk(s', i) { assert StopOk(s, i); }
  }

  lemma QuietApp(s: State, s': State, a: AppId)
    requires Inv(s) && s' == s.(retries := s'.retries, last := s'.last, tunnels := s'.tunnels, pool := s'.pool)
    requires forall d :: SameReservation(s.tunnels, s'.tunnels, d)
    requires forall d :: SameLease(s.pool, s'.pool, d)
    requires forall b :: b in s'.last && s'.last[b] == SHealthy ==> b in s.last && s.last[b] == SHealthy
    ensures ActiveOk(s', a) && FlightOk(s', a) && HealthyOk(s', a)
  {
    assert ActiveOk(s, a) && FlightOk(s, a) && HealthyOk(s, a);
    if a in s.active {
      assert SameReservation(s.tunnels, s'.tunnels, s.active[a].conn) && SameLease(s.pool, s'.pool, s.active[a].conn);
    }
    assert TearingDown(s, a) ==> TearingDown(s', a);
  }

  lemma RetryKeepsInv(s: State, s': State)
    requires Inv(s) && s' == s.(retries := s'.retries, last := s'.last)
    requires forall b :: b in s'.last && s'.last[b] == SHealthy ==> b in s.last && s.last[b] == SHealthy
    ensures Inv(s')
  {
    forall d ensures SameReservation(s.tunnels, s'.tunnels, d) {}
    forall d ensures SameLease(s.pool, s'.pool, d) {}
    QuietKeepsInv(s, s');
  }

  lemma SessionLostKeepsInv(s: State, session: P.SessionId)
    requires Inv(s) && session in s.pool.serverOf
    ensures Inv(s.(pool := P.DisconnectStep(s.pool, session)))
  {
    var s' := s.(pool := P.DisconnectStep(s.pool, session));
    P.DisconnectKeepsInv(s.pool, session);
    forall d ensures SameReservation(s.tunnels, s'.tunnels, d) {}
    forall d ensures SameLease(s.pool, s'.pool, d) {}
    QuietKeepsInv(s, s');
  }

  lemma AcceptSameReservation(t: T.Tunnels, id: T.ResId, k: T.Socket, d: ConnId)
    requires id in t.held
    ensures SameReservation(t, T.AcceptStep(t, id, k), d)
  {
  }

  lemma SocketSameReservation(t: T.Tunnels, k: T.Socket, d: ConnId)
    requires k in t.server && t.server[k] in t.held
    ensures SameReservation(t, T.EndedStep(t, k), d)
    ensures T.Waiting(t, k) ==> SameReservation(t, T.OpenedStep(t, k), d) && SameReservation(t, T.FailedStep(t, k), d)
  {
  }

  lemma ForwardSameReservation(t: T.Tunnels, e: T.Event, d: ConnId)
    requires T.Enabled(t, e) && (e.Accept? || e.HungUp? || e.ForwardOpened? || e.ForwardFailed? || e.Ended?)
    ensures SameReservation(t, T.Apply(t, e), d)
  {
    match e
    case Accept(id, k) => AcceptSameReservation(t, id, k, d);
    case HungUp(_) =>
    case ForwardOpened(k) => SocketSameReservation(t, k, d);
    case ForwardFailed(k) => SocketSameReservation(t, k, d);
    case Ended(k) => SocketSameReservation(t, k, d);
  }

  lemma ForwardKeepsInv(s: State, e: T.Event)
    requires Inv(s) && T.Enabled(s.tunnels, e)
        && (e.Accept? || e.HungUp? || e.ForwardOpened? || e.ForwardFailed? || e.Ended?)
    ensures Inv(s.(tunnels := T.Apply(s.tunnels, e)))
  {
    var s' := s.(tunnels := T.Apply(s.tunnels, e));
    T.StepKeepsInv(s.tunnels, e);
    T.StepKeepsSole(s.tunnels, e);
    forall d ensures SameReservation(s.tunnels, s'.tunnels, d) { ForwardSameReservation(s.tunnels, e, d); }
    forall d ensures SameLease(s.pool, s'.pool, d) {}
    QuietKeepsInv(s, s');
  }

  lemma ServerClosedOnly(s: State, c: ConnId)
    requires Inv(s) && T.Enabled(s.tunnels, T.ServerClosed(c))
    ensures var s' := s.(tunnels := T.ServerClosedStep(s.tunnels, c));
            Only(s, s', c, s.tunnels.held[c].app) && PartsOk(s')
  {
    var s', a := s.(tunnels := T.ServerClosedStep(s.tunnels, c)), s.tunnels.held[c].app;
    T.StepKeepsInv(s.tunnels, T.ServerClosed(c));
    T.StepKeepsSole(s.tunnels, T.ServerClosed(c));
    assert TeardownOk(s, c);
    forall d | d != c ensures SameConn(s, s', d) {
      assert SameReservation(s.tunnels, s'.tunnels, d) && SameLease(s.pool, s.pool, d);
    }
    forall b | b != a ensures SameApp(s, s', b) {}
    assert SameActive(s, s', a) && SameFlight(s, s', a);
  }

  lemma ServerClosedLocal(s: State, c: ConnId)
    requires Inv(s) && T.Enabled(s.tunnels, T.ServerClosed(c))
    ensures var s' := s.(tunnels := T.ServerClosedStep(s.tunnels, c)); Local(s', c, s.tunnels.held[c].app)
  {
    var s', a := s.(tunnels := T.ServerClosedStep(s.tunnels, c)), s.tunnels.held[c].app;
    assert ConnectOk(s, c) && TeardownOk(s, c) && OwnedOk(s, c);
    assert ActiveOk(s, a) && FlightOk(s, a) && HealthyOk(s, a);
    assert TearingDown(s, a) ==> TearingDown(s', a);
  }

  lemma ServerClosedKeepsInv(s: State, c: ConnId)
    requires Inv(s) && T.Enabled(s.tunnels, T.ServerClosed(c))
    ensures Inv(s.(tunnels := T.ServerClosedStep(s.tunnels, c)))
  {
    var s', a := s.(tunnels := T.ServerClosedStep(s.tunnels, c)), s.tunnels.held[c].app;
    ServerClosedOnly(s, c);
    ServerClosedLocal(s, c);
    assert ConnectOk(s, c);
    forall i ensures StopOk(s', i) { assert StopOk(s, i); }
    OnlyKeepsInv(s, s', c, a);
  }

  // ---------- all events, all runs ----------

  lemma RetryStartsKeepsInv(s: State, c: ConnId, d: ConnId, app: App)
    requires Inv(s) && c in s.retries && app.id !in s.inFlight && Unborn(s, d)
    ensures Inv(Join(StartStep(s, d, app), c, d))
  {
    StartKeepsInv(s, d, app);
    RetryKeepsInv(StartStep(s, d, app), Join(StartStep(s, d, app), c, d));
  }

  lemma NextAttemptKeepsInv(s: State, c: ConnId)
    requires Inv(s) && c in s.retries
    ensures Inv(NextAttempt(s, c))
  {
    RetryKeepsInv(s, NextAttempt(s, c));
  }

  lemma RetryEventKeepsInv(s: State, e: Event)
    requires Inv(s) && Enabled(s, e) && (e.RetryJoins? || e.RetryStarts? || e.RetryFails? || e.RetrySettles?)
    ensures Inv(Apply(s, e))
  {
    match e
    case RetryJoins(c) => RetryKeepsInv(s, Join(s, c, s.inFlight[s.retries[c].app]));
    case RetryStarts(c, d, app) => RetryStartsKeepsInv(s, c, d, app);
    case RetryFails(c) => NextAttemptKeepsInv(s, c);
    case RetrySettles(c) =>
      if s.settled[s.retries[c].conn].ok { RetryKeepsInv(s, RetrySettlesStep(s, c)); }
      else { NextAttemptKeepsInv(s, c); }
  }

  lemma StepKeepsInv(s: State, e: Event)
    requires Inv(s) && Enabled(s, e)
    ensures Inv(Apply(s, e))
  {
    match e
    case Start(c, app) => StartKeepsInv(s, c, app);
    case Resume(c, outcome, timeLeft) => ResumeKeepsInv(s, c, outcome, timeLeft);
    case Disconnect(a) => DisconnectKeepsInv(s, a);
    case Lost(a) => LostKeepsInv(s, a);
    case ResumeTeardown(c) => TeardownKeepsInv(s, c);
    case RetryJoins(_) => RetryEventKeepsInv(s, e);
    case RetryStarts(_, _, _) => RetryEventKeepsInv(s, e);
    case RetryFails(_) => RetryEventKeepsInv(s, e);
    case RetrySettles(_) => RetryEventKeepsInv(s, e);
    case SessionLost(session) => SessionLostKeepsInv(s, session);
    case Network(ev) =>
      if ev.ServerClosed? { ServerClosedKeepsInv(s, ev.id); } else { ForwardKeepsInv(s, ev); }
  }

  lemma InitInv()
    ensures Inv(EMPTY)
  {
    forall i ensures T.ResOk(T.EMPTY, i) && T.Listed(T.EMPTY, i) && T.Unshared(T.EMPTY, i) {}
    forall q ensures T.PortOk(T.EMPTY, q) {}
    forall k ensures T.SocketOk(T.EMPTY, k) {}
    forall k, i ensures T.Homed(T.EMPTY, k, i) {}
    forall a ensures T.AppOk(T.EMPTY, a) {}
    forall k ensures P.EntryOk(P.EMPTY, k) {}
    forall c ensures P.CallOk(P.EMPTY, c) && P.SessionOk(P.EMPTY, c) {}
    forall c ensures ConnectOk(EMPTY, c) && TeardownOk(EMPTY, c) && OwnedOk(EMPTY, c) {}
    forall a ensures ActiveOk(EMPTY, a) && FlightOk(EMPTY, a) && HealthyOk(EMPTY, a) {}
    forall i ensures StopOk(EMPTY, i) {}
  }

  /** The invariant holds between any two events of any run. */
  lemma {:induction false} RunKeepsInv(states: seq<State>, events: seq<Event>, n: nat)
    requires IsRun(states, events) && n <= |events|
    ensures Inv(states[n])
  {
    if n == 0 {
      InitInv();
    } else {
      RunKeepsInv(states, events, n - 1);
      StepKeepsInv(states[n - 1], events[n - 1]);
    }
  }
}
