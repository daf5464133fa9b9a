/** Runs that the service can take: two after which an active application is at rest and does not show 'healthy',
    and one that starts an application and stops it again.
 */
module RuntimeWitnesses {
  import opened RuntimeModel
  import opened RuntimeInvariant
  import RuntimeSteps
  import P = PoolModel
  import T = TunnelModel

  // ---------- states that some run reaches ----------

  ghost predicate RunTo(states: seq<State>, events: seq<Event>, s: State) {
    IsRun(states, events) && states[|events|] == s
  }

  ghost predicate Reachable(s: State) {
    exists states, events :: RunTo(states, events, s)
  }

  lemma ReachableInv(s: State)
    requires Reachable(s)
    ensures Inv(s)
  {
    var states, events :| RunTo(states, events, s);
    RuntimeSteps.RunKeepsInv(states, events, |events|);
  }

  lemma Extended(states: seq<State>, events: seq<Event>, e: Event)
    requires IsRun(states, events) && Enabled(states[|events|], e)
    ensures RunTo(states + [Apply(states[|events|], e)], events + [e], Apply(states[|events|], e))
  {
  }

  lemma OneStep(s: State, e: Event)
    requires Reachable(s) && Enabled(s, e)
    ensures Reachable(Apply(s, e)) && Inv(s)
  {
    ReachableInv(s);
    var states, events :| RunTo(states, events, s);
    Extended(states, events, e);
  }

  lemma StartIsReachable()
    ensures Reachable(EMPTY)
  {
    assert RunTo([EMPTY], [], EMPTY);
  }

  // ---------- one connect from its call to its end, nothing else happening ----------

  /** Connect `c` is under way, and nothing but its own reservation and lease has changed since `s0`. */
  predicate Going(s0: State, s: State, c: ConnId, app: App, pc: Pc) {
    && c in s.connects && s.connects == s0.connects[c := s.connects[c]]
    && s.connects[c].app == app && s.connects[c].pc == pc && !s.connects[c].started
    && s.active == s0.active && s.teardowns == s0.teardowns && s.retries == s0.retries && s.settled == s0.settled
    && s.tunnels.server == s0.tunnels.server
  }

  /** Nothing is in the way of a connect: no reservation, no listener on its port, no session of its server. */
  predicate Vacant(s: State, app: App) {
    app.id !in s.tunnels.reservations && app.port !in s.tunnels.bound && app.server !in s.pool.sessions
  }

  /** What the connect has added once it listens, and once it has its session. */
  predicate Listens(s0: State, s: State, c: ConnId, app: App) {
    && s.tunnels.reservations == s0.tunnels.reservations[app.id := c]
    && s.tunnels.bound == s0.tunnels.bound[app.port := c]
    && c in s.tunnels.held && s.tunnels.held[c].waiting == {}
  }

  predicate Leased(s0: State, s: State, c: ConnId, app: App) {
    && s.pool.sessions == s0.pool.sessions[app.server := P.Entry(c, 1)]
    && c in s.pool.leases && s.pool.leases[c] == P.Lease(app.server, c, false)
  }

  predicate SameReserved(s0: State, s: State) {
    s.tunnels.reservations == s0.tunnels.reservations && s.tunnels.bound == s0.tunnels.bound
  }

  lemma GoesToCheck(s0: State, c: ConnId, app: App) returns (s: State)
    requires Reachable(s0) && Unborn(s0, c) && app.id !in s0.inFlight
    ensures Reachable(s) && Going(s0, s, c, app, Checking) && s.tunnels == s0.tunnels && s.pool == s0.pool
  {
    OneStep(s0, Start(c, app));
    s := StartStep(s0, c, app);
  }

  lemma GoesToReserve(s0: State, c: ConnId, app: App) returns (s: State)
    requires Reachable(s0) && Unborn(s0, c) && app.id !in s0.inFlight && Vacant(s0, app)
    ensures Reachable(s) && Going(s0, s, c, app, Reserving)
    ensures SameReserved(s0, s) && s.pool.sessions == s0.pool.sessions
  {
    var s1 := GoesToCheck(s0, c, app);
    OneStep(s1, Resume(c, Yes, true));
    s := AfterReserve(s1, c);
  }

  lemma GoesToListen(s0: State, s1: State, c: ConnId, app: App) returns (s: State)
    requires Reachable(s1) && Going(s0, s1, c, app, Reserving) && SameReserved(s0, s1)
        && s1.pool.sessions == s0.pool.sessions
    requires Vacant(s0, app)
    ensures Reachable(s) && Going(s0, s, c, app, Connecting) && Listens(s0, s, c, app)
        && s.pool.sessions == s0.pool.sessions
  {
    ReachableInv(s1);
    assert ConnectOk(s1, c);
    OneStep(s1, Resume(c, Yes, true));
    s := AfterListen(s1, c, Yes);
  }

  lemma GoesToAcquire(s0: State, s1: State, c: ConnId, app: App) returns (s: State)
    requires Reachable(s1) && Going(s0, s1, c, app, Connecting) && Listens(s0, s1, c, app)
        && s1.pool.sessions == s0.pool.sessions
    requires app.server !in s0.pool.sessions
    ensures Reachable(s) && Going(s0, s, c, app, Acquiring) && Listens(s0, s, c, app)
        && s.pool.sessions == s0.pool.sessions
    ensures c in s.pool.connecting && s.pool.connecting[c] == app.server
  {
    OneStep(s1, Resume(c, Yes, true));
    s := CallAcquire(s1, c);
  }

  lemma AfterConnectLeases(s: State, c: ConnId)
    requires c in s.connects && s.connects[c].pc.Acquiring? && c in s.pool.connecting
    ensures var server, t := s.pool.connecting[c], AfterConnect(s, c, Yes);
            && t.pool.sessions == s.pool.sessions[server := P.Entry(c, 1)]
            && c in t.pool.leases && t.pool.leases[c] == P.Lease(server, c, false)
            && t.tunnels == s.tunnels && t.active == s.active && t.teardowns == s.teardowns && t.retries == s.retries
            && t.settled == s.settled
            && t.connects == s.connects[c := s.connects[c].(pc := Probing)]
  {
  }

  lemma GoesToProbe(s0: State, s1: State, c: ConnId, app: App) returns (s: State)
    requires Reachable(s1) && Going(s0, s1, c, app, Acquiring) && Listens(s0, s1, c, app)
        && s1.pool.sessions == s0.pool.sessions
    requires c in s1.pool.connecting && s1.pool.connecting[c] == app.server
    ensures Reachable(s) && Going(s0, s, c, app, Probing) && Listens(s0, s, c, app) && Leased(s0, s, c, app)
  {
    OneStep(s1, Resume(c, Yes, true));
    AfterConnectLeases(s1, c);
    s := AfterConnect(s1, c, Yes);
  }

  lemma GoesToTunnel(s0: State, s1: State, c: ConnId, app: App) returns (s: State)
    requires Reachable(s1) && Going(s0, s1, c, app, Probing) && Listens(s0, s1, c, app) && Leased(s0, s1, c, app)
    ensures Reachable(s) && Going(s0, s, c, app, Tunneling) && Listens(s0, s, c, app) && Leased(s0, s, c, app)
  {
    OneStep(s1, Resume(c, Yes, true));
    s := AfterProbe(s1, c, Yes);
  }

  lemma GoesToHealth(s0: State, s1: State, c: ConnId, app: App) returns (s: State)
    requires Reachable(s1) && Going(s0, s1, c, app, Tunneling) && Listens(s0, s1, c, app) && Leased(s0, s1, c, app)
    ensures Reachable(s) && Going(s0, s, c, app, HealthChecking) && Listens(s0, s, c, app) && Leased(s0, s, c, app)
  {
    ReachableInv(s1);
    RuntimeSteps.ActivateSucceeds(s1, c);
    OneStep(s1, Resume(c, Yes, true));
    s := CallActivate(s1, c);
  }

  /** The connect is over: its application is active and shows 'healthy'. */
  predicate Up(s0: State, s: State, c: ConnId, app: App) {
    && s.connects == map[] && s.active == s0.active[app.id := Entry(c, app, false)]
    && s.teardowns == s0.teardowns && s.retries == s0.retries
    && s.settled.Keys == s0.settled.Keys + {c} && app.id in s.last && s.last[app.id] == SHealthy
  }

  lemma GoesToAnnounce(s0: State, s1: State, c: ConnId, app: App) returns (s: State)
    requires Reachable(s1) && Going(s0, s1, c, app, HealthChecking) && s0.connects == map[]
    ensures Reachable(s) && s.tunnels == s1.tunnels && s.pool == s1.pool
    ensures s.connects.Keys == {c} && s.connects[c].app == app && s.connects[c].pc == Announcing
    ensures s.active == s0.active[app.id := Entry(c, app, false)] && s.settled == s0.settled
    ensures s.teardowns == s0.teardowns && s.retries == s0.retries
    ensures app.id in s.last && s.last[app.id] == SHealthy
  {
    OneStep(s1, Resume(c, Yes, true));
    s := AfterHealth(s1, c, Yes);
  }

  /** A finished connect settles. */
  lemma Settles(s: State, c: ConnId) returns (s': State)
    requires Reachable(s) && s.connects.Keys == {c} && (s.connects[c].pc.Announcing? || s.connects[c].pc.Failing?)
    ensures Reachable(s') && s'.connects == map[] && s'.settled.Keys == s.settled.Keys + {c}
    ensures s' == s.(connects := s'.connects, settled := s'.settled, inFlight := s'.inFlight)
  {
    OneStep(s, Resume(c, Yes, true));
    s' := Settle(s, c, s.connects[c].pc.Announcing?);
  }

  lemma GoesUp(s0: State, s1: State, c: ConnId, app: App) returns (s: State)
    requires Reachable(s1) && Going(s0, s1, c, app, HealthChecking) && s0.connects == map[]
    requires Listens(s0, s1, c, app) && Leased(s0, s1, c, app)
    ensures Reachable(s) && Up(s0, s, c, app) && Listens(s0, s, c, app) && Leased(s0, s, c, app)
  {
    s := GoesToAnnounce(s0, s1, c, app);
    s := Settles(s, c);
  }

  lemma BringUp(s0: State, c: ConnId, app: App) returns (s: State)
    requires Reachable(s0) && Unborn(s0, c) && s0.connects == map[] && app.id !in s0.inFlight && Vacant(s0, app)
    ensures Reachable(s) && Up(s0, s, c, app) && Listens(s0, s, c, app) && Leased(s0, s, c, app)
  {
    s := GoesToReserve(s0, c, app);
    s := GoesToListen(s0, s, c, app);
    s := GoesToAcquire(s0, s, c, app);
    s := GoesToProbe(s0, s, c, app);
    s := GoesToTunnel(s0, s, c, app);
    s := GoesToHealth(s0, s, c, app);
    s := GoesUp(s0, s, c, app);
  }

  lemma NothingInFlight(s: State, a: AppId)
    requires Reachable(s) && s.connects == map[]
    ensures a !in s.inFlight
  {
    ReachableInv(s);
    assert FlightOk(s, a);
  }

  // ---------- connecting an active application ----------

  predicate Quiet(s: State) {
    s.connects == map[] && s.teardowns == map[] && s.retries == map[]
  }

  /** The catch block of a connect that was refused its reservation, stage by stage. */
  lemma RefusedStep(s: State, c: ConnId, stage: Stage) returns (s': State)
    requires Reachable(s) && c in s.connects && s.connects[c].pc == Unwinding(stage) && !stage.Stopping?
    requires c !in s.tunnels.held && c !in s.pool.leases
    ensures Reachable(s') && s'.active == s.active && s'.teardowns == s.teardowns && s'.retries == s.retries
    ensures s'.tunnels == s.tunnels && s'.pool == s.pool && s'.connects.Keys == s.connects.Keys
    ensures s'.connects[c].app == s.connects[c].app
    ensures match stage
            case ClosingTunnel => s'.connects[c].pc == Unwinding(ReleasingReservation)
            case ReleasingReservation => s'.connects[c].pc == Unwinding(ReleasingLease)
            case _ =>
              && s'.connects[c].pc == Failing && s.connects[c].app.id in s'.last
              && s'.last[s.connects[c].app.id] == SError
  {
    OneStep(s, Resume(c, Yes, true));
    s' := Unwound(s, c);
  }

  /** Start and the refusal by the manager. */
  lemma Refused(s0: State, c: ConnId, app: App) returns (s: State)
    requires Reachable(s0) && s0.connects == map[] && Unborn(s0, c) && app.id in s0.active
    ensures Reachable(s) && s.connects.Keys == {c}
    ensures s.connects[c].pc == Unwinding(ClosingTunnel) && s.connects[c].app == app
    ensures c !in s.tunnels.held && c !in s.pool.leases
    ensures s.active == s0.active && s.teardowns == s0.teardowns && s.retries == s0.retries
  {
    NothingInFlight(s0, app.id);
    ActiveIsListed(s0, c, app.id);
    var s1 := GoesToCheck(s0, c, app);
    OneStep(s1, Resume(c, Yes, true));
    s := AfterReserve(s1, c);
  }

  lemma ActiveIsListed(s: State, c: ConnId, a: AppId)
    requires Reachable(s) && Unborn(s, c) && a in s.active
    ensures a in s.tunnels.reservations && c !in s.tunnels.held && c !in s.pool.leases
  {
    ReachableInv(s);
    assert OwnedOk(s, c) && ActiveOk(s, a) && T.Listed(s.tunnels, s.active[a].conn);
  }

  lemma RefusedEnds(s0: State, c: ConnId) returns (s: State)
    requires Reachable(s0) && s0.connects.Keys == {c} && s0.connects[c].pc == Unwinding(ClosingTunnel)
    requires c !in s0.tunnels.held && c !in s0.pool.leases
    ensures Reachable(s) && s.connects == map[] && s.active == s0.active && s.teardowns == s0.teardowns
        && s.retries == s0.retries
    ensures var a := s0.connects[c].app.id; a in s.last && s.last[a] == SError
  {
    s := RefusedStep(s0, c, ClosingTunnel);
    s := RefusedStep(s, c, ReleasingReservation);
    s := RefusedStep(s, c, ReleasingLease);
    s := Settles(s, c);
  }

  lemma EmptyIsVacant(app: App)
    ensures Reachable(EMPTY) && Unborn(EMPTY, 0) && EMPTY.connects == map[] && app.id !in EMPTY.inFlight
        && Vacant(EMPTY, app)
    ensures Quiet(EMPTY) && EMPTY.active == map[] && EMPTY.settled == map[]
  {
    StartIsReachable();
  }

  lemma FirstUp(s0: State, app: App) returns (s: State)
    requires s0 == EMPTY
    ensures Reachable(s) && Quiet(s) && s.active == map[app.id := Entry(0, app, false)] && s.settled.Keys == {0}
    ensures OneLease(s, app) && OneReservation(s, app)
  {
    EmptyIsVacant(app);
    s := BringUp(s0, 0, app);
  }

  /** Connecting an application that is active already: it stays active, and at rest shows 'error'. */
  lemma ConnectingActiveAppPublishesError(app: App) returns (s: State)
    ensures Reachable(s) && Quiet(s) && app.id in s.active && app.id in s.last && s.last[app.id] == SError
  {
    s := FirstUp(EMPTY, app);
    s := Refused(s, 1, app);
    s := RefusedEnds(s, 1);
  }

  // ---------- a teardown that publishes late ----------

  /** The teardown of entry 0 stands at `stage`; nothing else is under way. */
  predicate TearingDown0(s: State, app: App, stage: Stage) {
    && s.connects == map[] && s.active == map[] && s.retries == map[] && s.settled.Keys == {0}
    && s.teardowns == map[0 := Teardown(Disconnecting, Entry(0, app, false), stage)]
  }

  /** Everything is in place for entry 0, up to its lease. */
  predicate OneLease(s: State, app: App) {
    && s.pool.sessions == map[app.server := P.Entry(0, 1)]
    && 0 in s.pool.leases && s.pool.leases[0] == P.Lease(app.server, 0, false)
  }

  predicate OneReservation(s: State, app: App) {
    && s.tunnels.reservations == map[app.id := 0] && s.tunnels.bound == map[app.port := 0]
    && 0 in s.tunnels.held && s.tunnels.held[0].waiting == {}
  }

  lemma Disconnects(s: State, app: App) returns (s': State)
    requires Reachable(s) && s.connects == map[] && s.retries == map[] && s.settled.Keys == {0} && OneLease(s, app)
    requires s.active == map[app.id := Entry(0, app, false)] && s.teardowns == map[]
    ensures Reachable(s') && TearingDown0(s', app, ClosingTunnel) && OneLease(s', app)
    ensures 0 in s.tunnels.held && s.tunnels.held[0].phase.Open? && s.tunnels.held[0].app == app.id
        && s.tunnels.held[0].port == app.port
    ensures s'.tunnels == T.ReleaseStep(s.tunnels, 0)
  {
    ReachableInv(s);
    assert ActiveOk(s, app.id);
    OneStep(s, Disconnect(app.id));
    s' := DisconnectStep(s, app.id);
  }

  lemma ServerCloses(s: State, s1: State, app: App) returns (s': State)
    requires Reachable(s1) && TearingDown0(s1, app, ClosingTunnel) && OneLease(s1, app)
    requires OneReservation(s, app) && s1.tunnels == T.ReleaseStep(s.tunnels, 0)
    requires s.tunnels.held[0].phase.Open? && s.tunnels.held[0].app == app.id && s.tunnels.held[0].port == app.port
    ensures Reachable(s') && TearingDown0(s', app, ClosingTunnel) && OneLease(s', app)
    ensures 0 in s'.tunnels.held && s'.tunnels.held[0].phase.Released?
    ensures s'.tunnels.reservations == map[] && s'.tunnels.bound == map[]
  {
    OneStep(s1, Network(T.ServerClosed(0)));
    s' := s1.(tunnels := T.ServerClosedStep(s1.tunnels, 0));
  }

  lemma GivesBackReservation(s: State, app: App) returns (s': State)
    requires Reachable(s) && TearingDown0(s, app, ClosingTunnel) && OneLease(s, app)
    requires 0 in s.tunnels.held && s.tunnels.held[0].phase.Released?
    ensures Reachable(s') && TearingDown0(s', app, ReleasingReservation) && OneLease(s', app) && s'.tunnels == s.tunnels
  {
    OneStep(s, ResumeTeardown(0));
    s' := TeardownStep(s, 0);
  }

  lemma GivesBackLease(s: State, app: App) returns (s': State)
    requires Reachable(s) && TearingDown0(s, app, ReleasingReservation) && OneLease(s, app)
    requires 0 in s.tunnels.held && s.tunnels.held[0].phase.Released?
    ensures Reachable(s') && TearingDown0(s', app, ReleasingLease) && s'.tunnels == s.tunnels
        && s'.pool.sessions == map[]
  {
    OneStep(s, ResumeTeardown(0));
    s' := TeardownStep(s, 0);
  }

  lemma TakesDown(up: State, app: App) returns (s: State)
    requires Reachable(up) && Quiet(up) && up.active == map[app.id := Entry(0, app, false)] && up.settled.Keys == {0}
    requires OneLease(up, app) && OneReservation(up, app)
    ensures Reachable(s) && TearingDown0(s, app, ReleasingLease) && Vacant(s, app)
  {
    s := Disconnects(up, app);
    s := ServerCloses(up, s, app);
    s := GivesBackReservation(s, app);
    s := GivesBackLease(s, app);
  }

  lemma PublishesLate(s: State, s1: State, app: App) returns (s': State)
    requires TearingDown0(s, app, ReleasingLease) && Reachable(s1) && Up(s, s1, 1, app)
    ensures Reachable(s') && Quiet(s') && app.id in s'.active && app.id in s'.last && s'.last[app.id] == SDisconnected
  {
    OneStep(s1, ResumeTeardown(0));
    s' := TeardownStep(s1, 0);
  }

  /** Nobody needs to connect an active application for that: when the session of a disconnected entry closes
      slowly, its teardown publishes after a new connect has succeeded.  The application is active, nothing is
      under way any more, and it shows 'disconnected'. */
  lemma LateTeardownHidesHealthy(app: App) returns (s: State)
    ensures Reachable(s) && Quiet(s) && app.id in s.active && app.id in s.last && s.last[app.id] == SDisconnected
  {
    var up := FirstUp(EMPTY, app);
    s := TakesDown(up, app);
    NothingInFlight(s, app.id);
    var again := BringUp(s, 1, app);
    s := PublishesLate(s, again, app);
  }

  // ---------- an application that the service starts and stops ----------

  /** The first connect is the only task, and no application is active. */
  predicate FirstAt(s: State, app: App, pc: Pc, started: bool) {
    && s.connects.Keys == {0} && s.connects[0].app == app && s.connects[0].pc == pc
    && s.connects[0].started == started && s.active == map[]
  }

  lemma GoingIsFirst(s0: State, s: State, app: App)
    requires s0 == EMPTY && Going(s0, s, 0, app, Probing)
    ensures FirstAt(s, app, Probing, false)
  {
  }

  lemma FirstProbes(s0: State, app: App) returns (s: State)
    requires s0 == EMPTY
    ensures Reachable(s) && FirstAt(s, app, Probing, false)
  {
    EmptyIsVacant(app);
    s := GoesToReserve(s0, 0, app);
    s := GoesToListen(s0, s, 0, app);
    s := GoesToAcquire(s0, s, 0, app);
    s := GoesToProbe(s0, s, 0, app);
    GoingIsFirst(s0, s, app);
  }

  lemma FirstFindsPortClosed(s: State, app: App) returns (s': State)
    requires Reachable(s) && FirstAt(s, app, Probing, false) && app.autoStart && app.hasStartCommand
    ensures Reachable(s') && FirstAt(s', app, Starting, false)
  {
    OneStep(s, Resume(0, No, true));
    s' := AfterProbe(s, 0, No);
  }

  /** A step of the first connect that only moves on. */
  lemma FirstGoesOn(s: State, app: App, started: bool) returns (s': State)
    requires Reachable(s) && (FirstAt(s, app, Starting, started) || FirstAt(s, app, Sleeping, started))
    ensures Reachable(s') && FirstAt(s', app, if s.connects[0].pc.Starting? then Launching else Polling, started)
  {
    OneStep(s, Resume(0, Yes, true));
    s' := Goto(s, 0, if s.connects[0].pc.Starting? then Launching else Polling);
  }

  lemma FirstLaunches(s: State, app: App) returns (s': State)
    requires Reachable(s) && FirstAt(s, app, Launching, false)
    ensures Reachable(s') && FirstAt(s', app, Sleeping, true)
  {
    OneStep(s, Resume(0, Yes, true));
    s' := AfterLaunch(s, 0, Yes, true);
  }

  lemma FirstFindsPortOpen(s: State, app: App) returns (s': State)
    requires Reachable(s) && FirstAt(s, app, Polling, true)
    ensures Reachable(s') && FirstAt(s', app, Tunneling, true)
  {
    OneStep(s, Resume(0, Yes, true));
    s' := AfterPoll(s, 0, Yes, true);
  }

  lemma FirstActivates(s: State, app: App) returns (s': State)
    requires Reachable(s) && FirstAt(s, app, Tunneling, true)
    ensures Reachable(s') && FirstAt(s', app, HealthChecking, true)
  {
    ReachableInv(s);
    RuntimeSteps.ActivateSucceeds(s, 0);
    OneStep(s, Resume(0, Yes, true));
    s' := CallActivate(s, 0);
  }

  lemma FirstIsHealthy(s: State, app: App) returns (s': State)
    requires Reachable(s) && FirstAt(s, app, HealthChecking, true)
    ensures Reachable(s') && s'.active == map[app.id := Entry(0, app, true)]
  {
    OneStep(s, Resume(0, Yes, true));
    s' := AfterHealth(s, 0, Yes);
  }

  lemma FirstIsStarted(app: App) returns (s: State)
    requires app.autoStart && app.hasStartCommand
    ensures Reachable(s) && s.active == map[app.id := Entry(0, app, true)]
  {
    s := FirstProbes(EMPTY, app);
    s := FirstFindsPortClosed(s, app);
    s := FirstGoesOn(s, app, false);
    s := FirstLaunches(s, app);
    s := FirstGoesOn(s, app, true);
    s := FirstFindsPortOpen(s, app);
    s := FirstActivates(s, app);
    s := FirstIsHealthy(s, app);
  }

  /** Some run sends a stop command: an application that was found closed, started and found healthy, and is then
      disconnected. */
  lemma StartedAppIsStopped(app: App) returns (s: State)
    requires app.autoStart && app.hasStartCommand && app.stopOnDisconnect && app.hasStopCommand
    ensures Reachable(s) && Enabled(s, Disconnect(app.id)) && Reachable(Apply(s, Disconnect(app.id)))
    ensures Apply(s, Disconnect(app.id)).stops == s.stops + [Stop(0, app, {})]
  {
    s := FirstIsStarted(app);
    OneStep(s, Disconnect(app.id));
    assert Peers(s.active, app.id) == {};
  }
}
