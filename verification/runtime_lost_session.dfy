/** A run of the service in which the pool loses a session: two applications of one server connect at the same time. */
module RuntimeLostSession {
  import opened RuntimeModel
  import opened RuntimeInvariant
  import opened RuntimeWitnesses
  import RuntimeSessions
  import P = PoolModel
  import T = TunnelModel

  // ---------- both connects wait for their session ----------

  lemma FirstAcquires(app: App) returns (s: State)
    ensures Reachable(s) && Going(EMPTY, s, 0, app, Acquiring) && Listens(EMPTY, s, 0, app) && s.pool.sessions == map[]
  {
    EmptyIsVacant(app);
    s := GoesToReserve(EMPTY, 0, app);
    s := GoesToListen(EMPTY, s, 0, app);
    s := GoesToAcquire(EMPTY, s, 0, app);
  }

  lemma SecondAcquires(s0: State, a: App, b: App) returns (s: State)
    requires Reachable(s0) && Going(EMPTY, s0, 0, a, Acquiring) && Listens(EMPTY, s0, 0, a) && s0.pool.sessions == map[]
    requires a.id != b.id && a.port != b.port
    ensures Reachable(s) && Going(s0, s, 1, b, Acquiring) && s.pool.sessions == map[]
  {
    ReachableInv(s0);
    assert FlightOk(s0, b.id);
    s := GoesToReserve(s0, 1, b);
    s := GoesToListen(s0, s, 1, b);
    s := GoesToAcquire(s0, s, 1, b);
  }

  /** Connects 0 and 1 are under way and nothing else. */
  predicate Both(s: State, a: App, b: App, pc0: Pc, pc1: Pc) {
    && s.connects.Keys == {0, 1} && s.tunnels.server == map[] && s.active == map[] && s.teardowns == map[]
    && s.retries == map[]
    && s.connects[0].app == a && s.connects[0].pc == pc0 && s.connects[1].app == b && s.connects[1].pc == pc1
  }

  lemma BothAcquire(a: App, b: App) returns (s: State)
    requires a.id != b.id && a.port != b.port
    ensures Reachable(s) && Both(s, a, b, Acquiring, Acquiring) && s.pool.sessions == map[]
  {
    var s0 := FirstAcquires(a);
    s := SecondAcquires(s0, a, b);
  }

  /** The first one gets its session and stores the entry. */
  lemma FirstConnects(s: State, a: App, b: App) returns (s': State)
    requires Reachable(s) && Both(s, a, b, Acquiring, Acquiring) && s.pool.sessions == map[]
    ensures Reachable(s') && Both(s', a, b, Probing, Acquiring)
    ensures a.server in s'.pool.sessions && s'.pool.sessions[a.server].session == 0
  {
    ReachableInv(s);
    assert ConnectOk(s, 0);
    AfterConnectLeases(s, 0);
    OneStep(s, Resume(0, Yes, true));
    s' := AfterConnect(s, 0, Yes);
  }

  /** The second one overwrites it. */
  lemma SecondConnects(s: State, a: App, b: App) returns (s': State)
    requires Reachable(s) && Both(s, a, b, Probing, Acquiring) && a.server == b.server
    requires a.server in s.pool.sessions && s.pool.sessions[a.server].session == 0
    ensures RuntimeSessions.Replaces(s, Resume(1, Yes, true))
    ensures Reachable(s') && Both(s', a, b, Probing, Probing) && 0 in s'.pool.replaced
  {
    ReachableInv(s);
    assert ConnectOk(s, 1);
    AfterConnectLeases(s, 1);
    RuntimeSessions.AfterConnectReplaces(s, 1);
    OneStep(s, Resume(1, Yes, true));
    s' := AfterConnect(s, 1, Yes);
  }

  // ---------- a connect that fails at its first probe ----------

  /** Only connects are under way, no client ever came, and session 0 was replaced. */
  predicate Lost(s: State) {
    && s.active == map[] && s.teardowns == map[] && s.retries == map[]
    && s.tunnels.server == map[] && 0 in s.pool.replaced
  }

  /** From `s` to `s'` connect `c` moved to `pc`. */
  predicate MovedTo(s: State, s': State, c: ConnId, pc: Pc)
    requires c in s.connects
  {
    s'.connects == s.connects[c := s.connects[c].(pc := pc)]
  }

  lemma ProbeThrows(s: State, c: ConnId) returns (s': State)
    requires Reachable(s) && Lost(s) && c in s.connects && s.connects[c].pc == Probing
    ensures Reachable(s') && Lost(s') && MovedTo(s, s', c, Unwinding(ClosingTunnel))
    ensures c in s'.tunnels.held && s'.tunnels.held[c].phase.Open? && !s'.tunnels.held[c].activated
  {
    ReachableInv(s);
    assert ConnectOk(s, c);
    OneStep(s, Resume(c, Throws, true));
    s' := AfterProbe(s, c, Throws);
  }

  lemma StartsRelease(s: State, c: ConnId) returns (s': State)
    requires Reachable(s) && Lost(s) && c in s.connects && s.connects[c].pc == Unwinding(ClosingTunnel)
    requires c in s.tunnels.held && s.tunnels.held[c].phase.Open? && !s.tunnels.held[c].activated
    ensures Reachable(s') && Lost(s') && MovedTo(s, s', c, Unwinding(ReleasingReservation))
    ensures c in s'.tunnels.held && s'.tunnels.held[c].phase.Closing?
  {
    OneStep(s, Resume(c, Yes, true));
    s' := Unwound(s, c);
  }

  lemma ServerEnds(s: State, c: ConnId) returns (s': State)
    requires Reachable(s) && Lost(s) && c in s.tunnels.held && s.tunnels.held[c].phase.Closing?
    ensures Reachable(s') && Lost(s') && s'.connects == s.connects
    ensures c in s'.tunnels.held && s'.tunnels.held[c].phase.Released?
  {
    ReachableInv(s);
    forall k ensures k !in s.tunnels.held[c].waiting { assert T.Homed(s.tunnels, k, c); }
    OneStep(s, Network(T.ServerClosed(c)));
    s' := s.(tunnels := T.ServerClosedStep(s.tunnels, c));
  }

  lemma ReleasesLease(s: State, c: ConnId) returns (s': State)
    requires Reachable(s) && Lost(s) && c in s.connects && s.connects[c].pc == Unwinding(ReleasingReservation)
    requires c in s.tunnels.held && s.tunnels.held[c].phase.Released?
    ensures Reachable(s') && Lost(s') && MovedTo(s, s', c, Unwinding(ReleasingLease))
  {
    RuntimeSessions.ReleaseReplacesNothing(s.pool, c);
    OneStep(s, Resume(c, Yes, true));
    s' := Unwound(s, c);
  }

  lemma PublishesError(s: State, c: ConnId) returns (s': State)
    requires Reachable(s) && Lost(s) && c in s.connects && s.connects[c].pc == Unwinding(ReleasingLease)
    ensures Reachable(s') && Lost(s') && s'.connects.Keys == s.connects.Keys && s'.connects[c].pc == Failing
    ensures s'.connects - {c} == s.connects - {c}
  {
    OneStep(s, Resume(c, Yes, true));
    s' := Unwound(s, c);
  }

  lemma IsOver(s: State, c: ConnId) returns (s': State)
    requires Reachable(s) && Lost(s) && c in s.connects && s.connects[c].pc == Failing
    ensures Reachable(s') && Lost(s') && s'.connects == s.connects - {c}
  {
    OneStep(s, Resume(c, Yes, true));
    s' := Settle(s, c, false);
  }

  lemma Fails(s: State, c: ConnId) returns (s': State)
    requires Reachable(s) && Lost(s) && c in s.connects && s.connects[c].pc == Probing
    ensures Reachable(s') && Lost(s') && s'.connects == s.connects - {c}
  {
    s' := ProbeThrows(s, c);
    s' := StartsRelease(s', c);
    s' := ServerEnds(s', c);
    s' := ReleasesLease(s', c);
    s' := PublishesError(s', c);
    s' := IsOver(s', c);
    assert s'.connects == s.connects - {c};
  }

  /** Two applications of one server connect at the same time.  When both are done for, nothing is under way and no
      application is active, but the first session is still open; as a replaced one it stays so, see
      PoolModel.ReplacedIsNeverClosed. */
  lemma ServiceLosesSession(a: App, b: App) returns (s: State)
    requires a.id != b.id && a.port != b.port && a.server == b.server
    ensures Reachable(s) && Quiet(s) && s.active == map[]
    ensures 0 in s.pool.serverOf && s.pool.closed[0] == 0 && 0 !in s.pool.dropped && 0 in s.pool.replaced
  {
    s := BothAcquire(a, b);
    s := FirstConnects(s, a, b);
    s := SecondConnects(s, a, b);
    s := Fails(s, 0);
    s := Fails(s, 1);
    ReachableInv(s);
    assert P.SessionOk(s.pool, 0);
  }
}
