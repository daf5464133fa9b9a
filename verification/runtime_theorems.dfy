/** What the runtime service promises, in every interleaving of its tasks. */
module RuntimeTheorems {
  import opened RuntimeModel
  import opened RuntimeInvariant
  import RuntimeSteps
  import P = PoolModel
  import T = TunnelModel

  // ---------- one connect per application, no entry overwritten ----------

  /** No two runs of connectInternal for one application. */
  lemma OneConnectPerApp(states: seq<State>, events: seq<Event>, n: nat, c: ConnId, d: ConnId)
    requires IsRun(states, events) && n <= |events|
    requires c in states[n].connects && d in states[n].connects && c != d
    ensures states[n].connects[c].app.id != states[n].connects[d].app.id
  {
    RuntimeSteps.RunKeepsInv(states, events, n);
    assert ConnectOk(states[n], c) && ConnectOk(states[n], d);
  }

  // ---------- ownership ----------

  datatype Owner = ByConnect(conn: ConnId) | ByEntry(id: AppId) | ByTeardown(conn: ConnId)

  /** Who is bound to give back what connect `c` acquired. */
  ghost predicate Owns(s: State, o: Owner, c: ConnId) {
    match o
    case ByConnect(d) => d == c && c in s.connects && !s.connects[c].pc.Announcing?
    case ByEntry(a) => a in s.active && s.active[a].conn == c
    case ByTeardown(d) => d in s.teardowns && s.teardowns[d].entry.conn == c
  }

  ghost predicate OneOwner(s: State, c: ConnId) {
    exists o :: Owns(s, o, c) && forall p :: Owns(s, p, c) ==> p == o
  }

  lemma OwnersAgree(s: State, c: ConnId, o: Owner, p: Owner)
    requires Inv(s) && Owns(s, o, c) && Owns(s, p, c)
    ensures o == p
  {
    if o.ByEntry? { assert ActiveOk(s, o.id); }
    if p.ByEntry? { assert ActiveOk(s, p.id); }
    if o.ByTeardown? { assert TeardownOk(s, o.conn); }
    if p.ByTeardown? { assert TeardownOk(s, p.conn); }
  }

  lemma OwnedHasOneOwner(s: State, c: ConnId)
    requires Inv(s) && Owned(s, c)
    ensures OneOwner(s, c)
  {
    assert TeardownOk(s, c);
    var o := if OwnedByConnect(s, c) then ByConnect(c)
             else if c in s.teardowns then ByTeardown(c) else ByEntry(s.tunnels.held[c].app);
    assert Owns(s, o, c);
    forall p | Owns(s, p, c) ensures p == o { OwnersAgree(s, c, o, p); }
  }

  /** Every reservation that is not released, and every lease that is not released, has exactly one owner. */
  lemma ResourcesHaveOneOwner(states: seq<State>, events: seq<Event>, n: nat, c: ConnId)
    requires IsRun(states, events) && n <= |events|
    ensures c in states[n].tunnels.held && !states[n].tunnels.held[c].phase.Released? ==> OneOwner(states[n], c)
    ensures c in states[n].pool.leases && !states[n].pool.leases[c].released ==> OneOwner(states[n], c)
  {
    RuntimeSteps.RunKeepsInv(states, events, n);
    assert OwnedOk(states[n], c);
    if Owned(states[n], c) { OwnedHasOneOwner(states[n], c); }
  }

  // ---------- at rest ----------

  /** No connect, disconnect or unexpected disconnect is under way; a retry may be sleeping. */
  ghost predicate AtRest(s: State) {
    s.connects == map[] && s.teardowns == map[]
  }

  /** The applications whose entry holds a lease on `session`. */
  ghost function Users(s: State, session: P.SessionId): set<AppId> {
    set a | a in s.active && s.active[a].conn in s.pool.leases && s.pool.leases[s.active[a].conn].session == session
  }

  lemma RestReservations(s: State, a: AppId)
    requires Inv(s) && AtRest(s)
    ensures a in s.tunnels.reservations <==> a in s.active
    ensures a in s.active ==> s.tunnels.reservations[a] == s.active[a].conn && a in s.tunnels.active
  {
    assert ActiveOk(s, a) && T.AppOk(s.tunnels, a);
    if a in s.active { assert T.Listed(s.tunnels, s.active[a].conn); }
    if a in s.tunnels.reservations { assert OwnedOk(s, s.tunnels.reservations[a]); }
  }

  lemma RestPorts(s: State, port: T.Port)
    requires Inv(s) && AtRest(s)
    ensures port in s.tunnels.bound <==> exists a :: a in s.active && s.active[a].app.port == port
  {
    assert T.PortOk(s.tunnels, port);
    if port in s.tunnels.bound {
      var c := s.tunnels.bound[port];
      assert OwnedOk(s, c);
      var a := s.tunnels.held[c].app;
      assert ActiveOk(s, a);
      assert a in s.active && s.active[a].app.port == port;
    }
    if a :| a in s.active && s.active[a].app.port == port {
      assert ActiveOk(s, a) && T.ResOk(s.tunnels, s.active[a].conn);
    }
  }

  /** Counting one entry per lease: the two sets are in bijection. */
  lemma {:induction false} SameCount(active: map<AppId, Entry>, apps: set<AppId>, conns: set<ConnId>)
    requires apps <= active.Keys
    requires forall a, b :: a in apps && b in apps && a != b ==> active[a].conn != active[b].conn
    requires forall c :: c in conns <==> exists a :: a in apps && active[a].conn == c
    ensures |apps| == |conns|
    decreases |apps|
  {
    if apps == {} {
      assert conns == {};
    } else {
      var a :| a in apps;
      var c := active[a].conn;
      assert c in conns;
      forall d ensures d in conns - {c} <==> exists b :: b in apps - {a} && active[b].conn == d {
        if d in conns - {c} {
          var b :| b in apps && active[b].conn == d;
          assert b in apps - {a};
        }
      }
      SameCount(active, apps - {a}, conns - {c});
    }
  }

  lemma RestHolders(s: State, session: P.SessionId, c: ConnId)
    requires Inv(s) && AtRest(s)
    ensures c in P.Holders(s.pool.leases, session) <==> exists a :: a in Users(s, session) && s.active[a].conn == c
  {
    assert OwnedOk(s, c);
    if c in P.Holders(s.pool.leases, session) {
      var a := s.tunnels.held[c].app;
      assert a in Users(s, session) && s.active[a].conn == c;
    }
    if a :| a in Users(s, session) && s.active[a].conn == c {
      assert ActiveOk(s, a);
    }
  }

  lemma RestLeases(s: State, session: P.SessionId)
    requires Inv(s) && AtRest(s)
    ensures |P.Holders(s.pool.leases, session)| == |Users(s, session)|
  {
    forall a, b | a in Users(s, session) && b in Users(s, session) && a != b
      ensures s.active[a].conn != s.active[b].conn
    {
      assert ActiveOk(s, a) && ActiveOk(s, b);
    }
    forall c
      ensures c in P.Holders(s.pool.leases, session) <==> exists a :: a in Users(s, session) && s.active[a].conn == c
    {
      RestHolders(s, session, c);
    }
    SameCount(s.active, Users(s, session), P.Holders(s.pool.leases, session));
  }

  /** At rest the manager reserves exactly the active applications, exactly their ports are bound, and
      a pooled session counts exactly the active applications that use it. */
  lemma RestIsBalanced(states: seq<State>, events: seq<Event>, n: nat)
    requires IsRun(states, events) && n <= |events| && AtRest(states[n])
    ensures states[n].tunnels.reservations.Keys == states[n].active.Keys
    ensures states[n].tunnels.active.Keys == states[n].active.Keys
    ensures forall port :: port in states[n].tunnels.bound
                     <==> exists a :: a in states[n].active && states[n].active[a].app.port == port
    ensures forall k :: k in states[n].pool.sessions ==>
              states[n].pool.sessions[k].leases == |Users(states[n], states[n].pool.sessions[k].session)| >= 1
  {
    var s := states[n];
    RuntimeSteps.RunKeepsInv(states, events, n);
    forall a ensures (a in s.tunnels.reservations <==> a in s.active) && (a in s.tunnels.active <==> a in s.active) {
      RestReservations(s, a);
      assert T.AppOk(s.tunnels, a);
    }
    forall port ensures port in s.tunnels.bound <==> exists a :: a in s.active && s.active[a].app.port == port {
      RestPorts(s, port);
    }
    forall k | k in s.pool.sessions ensures s.pool.sessions[k].leases == |Users(s, s.pool.sessions[k].session)| >= 1 {
      RestLeases(s, s.pool.sessions[k].session);
      assert P.EntryOk(s.pool, k);
    }
  }

  /** The session of an active application is one of the application's own server, and the pool has never closed
      it. */
  lemma ActiveSessionIsOpen(states: seq<State>, events: seq<Event>, n: nat, a: AppId)
    requires IsRun(states, events) && n <= |events| && a in states[n].active
    ensures var e, p := states[n].active[a], states[n].pool;
            && e.conn in p.leases
            && var session := p.leases[e.conn].session;
            && session in p.serverOf && p.serverOf[session] == e.app.server && p.closed[session] == 0
  {
    var s := states[n];
    RuntimeSteps.RunKeepsInv(states, events, n);
    assert ActiveOk(s, a) && P.CallOk(s.pool, s.active[a].conn);
    var session := s.pool.leases[s.active[a].conn].session;
    assert P.SessionOk(s.pool, session);
    assert s.active[a].conn in P.Holders(s.pool.leases, session);
  }

  // ---------- statuses ----------

  /** A last status 'healthy' means active, or a teardown that has still to publish; at rest it means active. */
  lemma HealthyMeansActive(states: seq<State>, events: seq<Event>, n: nat, a: AppId)
    requires IsRun(states, events) && n <= |events|
    requires a in states[n].last && states[n].last[a] == SHealthy
    ensures a in states[n].active || exists c :: c in states[n].teardowns && states[n].teardowns[c].entry.app.id == a
    ensures AtRest(states[n]) ==> a in states[n].active
  {
    RuntimeSteps.RunKeepsInv(states, events, n);
    assert HealthyOk(states[n], a);
  }

  /** Each connect publishes checking, connecting, perhaps starting, tunneling and healthy in this order, or stops
      on the way with one error; a call that succeeded told the whole story and one that failed ended in error. */
  lemma StatusesFollowTheScript(states: seq<State>, events: seq<Event>, n: nat, c: ConnId)
    requires IsRun(states, events) && n <= |events|
    ensures c in states[n].connects ==>
              OnTheWay(states[n].connects[c].trace) || Succeeded(states[n].connects[c].trace)
                || Failed(states[n].connects[c].trace)
    ensures c in states[n].settled ==>
              if states[n].settled[c].ok then Succeeded(states[n].settled[c].trace)
                else Failed(states[n].settled[c].trace)
  {
    RuntimeSteps.RunKeepsInv(states, events, n);
    assert ConnectOk(states[n], c) && OwnedOk(states[n], c);
  }

  // ---------- all or nothing ----------

  ghost predicate NothingLeft(s: State, c: ConnId) {
    && (c in s.tunnels.held ==> s.tunnels.held[c].phase.Released?)
    && c !in s.tunnels.starting && c !in s.pool.connecting
    && (c in s.pool.leases ==> s.pool.leases[c].released)
    && (forall a :: a in s.tunnels.reservations ==> s.tunnels.reservations[a] != c)
    && (forall port :: port in s.tunnels.bound ==> s.tunnels.bound[port] != c)
    && (forall a :: a in s.active ==> s.active[a].conn != c)
  }

  lemma FailedLeavesNothing(s: State, c: ConnId)
    requires Inv(s)
    requires (c in s.connects && s.connects[c].pc.Failing?) || (c in s.settled && !s.settled[c].ok)
    ensures NothingLeft(s, c)
  {
    assert ConnectOk(s, c) && OwnedOk(s, c) && TeardownOk(s, c);
    forall a | a in s.tunnels.reservations ensures s.tunnels.reservations[a] != c { assert T.AppOk(s.tunnels, a); }
    forall port | port in s.tunnels.bound ensures s.tunnels.bound[port] != c { assert T.PortOk(s.tunnels, port); }
    forall a | a in s.active ensures s.active[a].conn != c { assert ActiveOk(s, a); }
  }

  /** A connect that fails has given back everything by the time it publishes 'error', for good. */
  lemma FailureIsClean(states: seq<State>, events: seq<Event>, n: nat, c: ConnId)
    requires IsRun(states, events) && n <= |events|
    requires (c in states[n].connects && states[n].connects[c].pc.Failing?)
          || (c in states[n].settled && !states[n].settled[c].ok)
    ensures NothingLeft(states[n], c)
  {
    RuntimeSteps.RunKeepsInv(states, events, n);
    FailedLeavesNothing(states[n], c);
  }

  /** The step that finds the application healthy adds one entry, which owns an open reservation and a lease. */
  lemma SuccessAddsOneEntry(states: seq<State>, events: seq<Event>, n: nat, c: ConnId)
    requires IsRun(states, events) && n < |events|
    requires c in states[n].connects && states[n].connects[c].pc.HealthChecking?
    requires events[n].Resume? && events[n].conn == c && events[n].outcome.Yes?
    ensures var a := states[n].connects[c].app.id;
            && a !in states[n].active
            && states[n + 1].active.Keys == states[n].active.Keys + {a}
            && states[n + 1].active[a].conn == c
            && states[n + 1].tunnels.reservations == states[n].tunnels.reservations
            && a in states[n].tunnels.reservations && states[n].tunnels.reservations[a] == c
            && c in states[n + 1].tunnels.held && states[n + 1].tunnels.held[c].phase.Open?
            && c in states[n + 1].pool.leases && !states[n + 1].pool.leases[c].released
  {
    RuntimeSteps.RunKeepsInv(states, events, n);
    RuntimeSteps.NeverOverwrites(states[n], c);
    assert ConnectOk(states[n], c) && T.Listed(states[n].tunnels, c);
  }

  // ---------- no task is stuck ----------

  /** A connect or a teardown can always go on, unless it waits for its own server to close. */
  lemma TasksCanGoOn(states: seq<State>, events: seq<Event>, n: nat, c: ConnId)
    requires IsRun(states, events) && n <= |events|
    ensures c in states[n].connects ==>
              CanResume(states[n], c, Throws)
                || (c in states[n].tunnels.held && states[n].tunnels.held[c].phase.Closing?)
    ensures c in states[n].teardowns ==>
              CanResumeTeardown(states[n], c)
                || (c in states[n].tunnels.held && states[n].tunnels.held[c].phase.Closing?)
  {
    RuntimeSteps.RunKeepsInv(states, events, n);
    assert ConnectOk(states[n], c) && TeardownOk(states[n], c);
  }

  /** A closing server can close, or it waits for an open connection whose openForward can settle, which then ends
      it. */
  lemma ServersCanClose(states: seq<State>, events: seq<Event>, n: nat, c: ConnId)
    requires IsRun(states, events) && n <= |events|
    requires c in states[n].tunnels.held && states[n].tunnels.held[c].phase.Closing?
    ensures var t := states[n].tunnels;
            || T.Enabled(t, T.ServerClosed(c))
            || exists k :: k in t.held[c].waiting && k !in t.deadSockets
                        && T.Enabled(t, T.ForwardOpened(k)) && k in T.OpenedStep(t, k).deadSockets
                        && T.Enabled(t, T.ForwardFailed(k)) && k in T.FailedStep(t, k).deadSockets
  {
    var t := states[n].tunnels;
    RuntimeSteps.RunKeepsInv(states, events, n);
    if !(t.held[c].waiting <= t.deadSockets) {
      var k :| k in t.held[c].waiting && k !in t.deadSockets;
      assert T.Homed(t, k, c);
      assert T.Enabled(t, T.ForwardOpened(k));
    }
  }
}
