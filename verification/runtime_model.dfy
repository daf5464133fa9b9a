/** AppRuntimeServiceImpl as a state machine over its awaits.

    A running connectInternal is a task with a program counter that names the await it is
    suspended in; disconnect and handleUnexpectedDisconnect are tasks as well.  An event resumes
    one task, or lets the world act, and any interleaving of events is a run.  A connect call, the
    reservation and the lease it makes all carry the same number, and so does the teardown of its
    entry: an entry leaves the `active` map once.
 */
module RuntimeModel {
  import P = PoolModel
  import T = TunnelModel

  type AppId = T.AppId
  type ConnId = nat

  datatype Status = SChecking | SConnecting | SStarting | STunneling | SHealthy | SError | SDisconnected

  /** The fields of RemoteAppRecord that steer the service. */
  datatype App = App(
    id: AppId,
    server: P.ServerId,
    port: T.Port,
    autoStart: bool,
    hasStartCommand: bool,
    stopOnDisconnect: bool,
    hasStopCommand: bool)

  /** RuntimeEntry: the reservation, the lease and the tunnel are those of connect `conn`. */
  datatype Entry = Entry(conn: ConnId, app: App, started: bool)

  /** The releasing awaits shared by the catch block, disconnect and handleUnexpectedDisconnect. */
  datatype Stage = Stopping | ClosingTunnel | ReleasingReservation | ReleasingLease

  datatype Pc =
    | Checking        // publish('checking')
    | Reserving       // listen
    | Connecting      // publish('connecting')
    | Acquiring       // factory.connect
    | Probing         // the first probe
    | Starting        // publish('starting')
    | Launching       // execDetached
    | Sleeping        // the 150 ms timer
    | Polling         // a probe of the loop
    | Tunneling       // publish('tunneling')
    | HealthChecking  // health.check
    | Announcing      // publish('healthy')
    | Unwinding(stage: Stage)
    | Failing         // publish('error')

  datatype Connect = Connect(app: App, pc: Pc, started: bool, trace: seq<Status>)

  datatype Kind = Disconnecting | Recovering

  datatype Teardown = Teardown(kind: Kind, entry: Entry, stage: Stage)

  /** The retry loop of handleUnexpectedDisconnect: it sleeps, or awaits a connect call. */
  datatype Retry = Waiting(app: AppId, attempt: nat) | Joined(app: AppId, attempt: nat, conn: ConnId)

  datatype Ending = Ending(ok: bool, trace: seq<Status>)

  /** A stop command that was sent, with the other applications active on its server at that time. */
  datatype Stop = Stop(conn: ConnId, app: App, peers: set<AppId>)

  datatype State = State(
    active: map<AppId, Entry>,
    inFlight: map<AppId, ConnId>,
    connects: map<ConnId, Connect>,
    teardowns: map<ConnId, Teardown>,
    retries: map<ConnId, Retry>,
    tunnels: T.Tunnels,
    pool: P.Pool,
    last: map<AppId, Status>,        // the event bus's snapshots
    launched: set<ConnId>,           // connects whose start command has run
    stops: seq<Stop>,
    settled: map<ConnId, Ending>)

  const EMPTY := State(map[], map[], map[], map[], map[], T.EMPTY, P.EMPTY, map[], {}, [], map[])

  /** How the awaited promise settles. */
  datatype Outcome = Yes | No | Throws

  const RETRIES := 3

  datatype Event =
    | Start(conn: ConnId, app: App)
    | Resume(conn: ConnId, outcome: Outcome, timeLeft: bool)
    | Disconnect(id: AppId)
    | Lost(id: AppId)
    | ResumeTeardown(conn: ConnId)
    | RetryJoins(conn: ConnId)
    | RetryStarts(conn: ConnId, newConn: ConnId, app: App)
    | RetryFails(conn: ConnId)
    | RetrySettles(conn: ConnId)
    | SessionLost(session: P.SessionId)
    | Network(event: T.Event)

  // ---------- connect ----------

  predicate Unborn(s: State, c: ConnId) {
    c !in s.connects && c !in s.settled
  }

  /** connect without a call in flight: connectInternal runs up to its first await. */
  function StartStep(s: State, c: ConnId, app: App): State {
    s.(connects := s.connects[c := Connect(app, Checking, false, [SChecking])],
       inFlight := s.inFlight[app.id := c],
       last := s.last[app.id := SChecking])
  }

  function Goto(s: State, c: ConnId, pc: Pc): State
    requires c in s.connects
  {
    s.(connects := s.connects[c := s.connects[c].(pc := pc)])
  }

  /** Publish `status` and wait at `pc`. */
  function Say(s: State, c: ConnId, status: Status, pc: Pc): State
    requires c in s.connects
  {
    var k := s.connects[c];
    s.(connects := s.connects[c := k.(pc := pc, trace := k.trace + [status])],
       last := s.last[k.app.id := status])
  }

  /** `tunnel?.close()` for the tunnel of connect `c`. */
  function CloseTunnel(t: T.Tunnels, c: ConnId): T.Tunnels {
    if c in t.held && t.held[c].activated then T.ReleaseStep(t, c) else t
  }

  /** `reservation?.release()`. */
  function ReleaseReservation(t: T.Tunnels, c: ConnId): T.Tunnels {
    if c in t.held then T.ReleaseStep(t, c) else t
  }

  /** `lease?.release()`. */
  function ReleaseLease(p: P.Pool, c: ConnId): P.Pool {
    if c in p.leases then P.ReleaseStep(p, c) else p
  }

  /** A throw in the try block: the catch block runs up to its first await. */
  function Unwind(s: State, c: ConnId): State
    requires c in s.connects
  {
    Goto(s.(tunnels := CloseTunnel(s.tunnels, c)), c, Unwinding(ClosingTunnel))
  }

  predicate TunnelClosed(t: T.Tunnels, c: ConnId) {
    c in t.held && t.held[c].activated ==> t.held[c].phase.Released?
  }

  predicate ReservationReleased(t: T.Tunnels, c: ConnId) {
    c in t.held ==> t.held[c].phase.Released?
  }

  /** The awaited promise of connect `c` can settle this way. */
  predicate CanResume(s: State, c: ConnId, outcome: Outcome) {
    && c in s.connects
    && match s.connects[c].pc
       case Reserving => c in s.tunnels.starting && (outcome.Yes? ==> s.tunnels.starting[c].port !in s.tunnels.bound)
       case Acquiring => c in s.pool.connecting
       case Unwinding(ClosingTunnel) => TunnelClosed(s.tunnels, c)
       case Unwinding(ReleasingReservation) => ReservationReleased(s.tunnels, c)
       case _ => true
  }

  function Settle(s: State, c: ConnId, ok: bool): State
    requires c in s.connects
  {
    s.(connects := s.connects - {c},
       inFlight := s.inFlight - {s.connects[c].app.id},
       settled := s.settled[c := Ending(ok, s.connects[c].trace)])
  }

  function AfterReserve(s: State, c: ConnId): State
    requires c in s.connects
  {
    var app := s.connects[c].app;
    if app.id in s.tunnels.reservations then Unwind(s, c)
    else Goto(s.(tunnels := T.ReserveStep(s.tunnels, c, app.id, app.port)), c, Reserving)
  }

  function AfterListen(s: State, c: ConnId, outcome: Outcome): State
    requires CanResume(s, c, outcome) && s.connects[c].pc.Reserving?
  {
    if outcome.Yes? then Say(s.(tunnels := T.ListeningStep(s.tunnels, c)), c, SConnecting, Connecting)
    else Unwind(s.(tunnels := s.tunnels.(starting := s.tunnels.starting - {c})), c)
  }

  /** acquire up to its await: a pooled session is handed out at once. */
  function CallAcquire(s: State, c: ConnId): State
    requires c in s.connects
  {
    var server := s.connects[c].app.server;
    Goto(s.(pool := P.AcquireStep(s.pool, c, server)), c, if server in s.pool.sessions then Probing else Acquiring)
  }

  function AfterConnect(s: State, c: ConnId, outcome: Outcome): State
    requires CanResume(s, c, outcome) && s.connects[c].pc.Acquiring?
  {
    if outcome.Yes? then Goto(s.(pool := P.ConnectedStep(s.pool, c)), c, Probing)
    else Unwind(s.(pool := s.pool.(connecting := s.pool.connecting - {c})), c)
  }

  function AfterProbe(s: State, c: ConnId, outcome: Outcome): State
    requires c in s.connects
  {
    var app := s.connects[c].app;
    match outcome
    case Yes => Say(s, c, STunneling, Tunneling)
    case No => if app.autoStart && app.hasStartCommand then Say(s, c, SStarting, Starting) else Unwind(s, c)
    case Throws => Unwind(s, c)
  }

  /** execDetached resolved: the flag is set before the loop looks at the clock. */
  function AfterLaunch(s: State, c: ConnId, outcome: Outcome, timeLeft: bool): State
    requires c in s.connects
  {
    if !outcome.Yes? then Unwind(s, c) else
    var ran := s.(launched := s.launched + {c}, connects := s.connects[c := s.connects[c].(started := true)]);
    if timeLeft then Goto(ran, c, Sleeping) else Unwind(ran, c)
  }

  function AfterPoll(s: State, c: ConnId, outcome: Outcome, timeLeft: bool): State
    requires c in s.connects
  {
    match outcome
    case Yes => Say(s, c, STunneling, Tunneling)
    case No => if timeLeft then Goto(s, c, Sleeping) else Unwind(s, c)
    case Throws => Unwind(s, c)
  }

  function CallActivate(s: State, c: ConnId): State
    requires c in s.connects
  {
    if T.CanActivate(s.tunnels, c) then Goto(s.(tunnels := T.ActivateStep(s.tunnels, c)), c, HealthChecking)
    else Unwind(s, c)
  }

  /** The health check passed: the entry is stored before 'healthy' is published. */
  function AfterHealth(s: State, c: ConnId, outcome: Outcome): State
    requires c in s.connects
  {
    var k := s.connects[c];
    if outcome.Yes? then
      Say(s.(active := s.active[k.app.id := Entry(c, k.app, k.started)]), c, SHealthy, Announcing)
    else Unwind(s, c)
  }

  /** The catch block between its awaits. */
  function Unwound(s: State, c: ConnId): State
    requires c in s.connects && s.connects[c].pc.Unwinding?
  {
    match s.connects[c].pc.stage
    case ClosingTunnel => Goto(s.(tunnels := ReleaseReservation(s.tunnels, c)), c, Unwinding(ReleasingReservation))
    case ReleasingReservation => Goto(s.(pool := ReleaseLease(s.pool, c)), c, Unwinding(ReleasingLease))
    case _ => Say(s, c, SError, Failing)
  }

  function ResumeStep(s: State, c: ConnId, outcome: Outcome, timeLeft: bool): State
    requires CanResume(s, c, outcome)
  {
    match s.connects[c].pc
    case Checking => AfterReserve(s, c)
    case Reserving => AfterListen(s, c, outcome)
    case Connecting => CallAcquire(s, c)
    case Acquiring => AfterConnect(s, c, outcome)
    case Probing => AfterProbe(s, c, outcome)
    case Starting => Goto(s, c, Launching)
    case Launching => AfterLaunch(s, c, outcome, timeLeft)
    case Sleeping => Goto(s, c, Polling)
    case Polling => AfterPoll(s, c, outcome, timeLeft)
    case Tunneling => CallActivate(s, c)
    case HealthChecking => AfterHealth(s, c, outcome)
    case Announcing => Settle(s, c, true)
    case Unwinding(_) => Unwound(s, c)
    case Failing => Settle(s, c, false)
  }

  // ---------- disconnect and unexpected disconnect ----------

  /** The other applications that are active on the server of `a`. */
  function Peers(active: map<AppId, Entry>, a: AppId): set<AppId>
    requires a in active
  {
    set b | b in active && b != a && active[b].app.server == active[a].app.server
  }

  predicate WantsStop(active: map<AppId, Entry>, a: AppId)
    requires a in active
  {
    var e := active[a];
    Peers(active, a) == {} && e.started && e.app.stopOnDisconnect && e.app.hasStopCommand
  }

  function DisconnectStep(s: State, a: AppId): State {
    if a !in s.active then s else
    var e := s.active[a];
    var gone := s.(active := s.active - {a});
    if WantsStop(s.active, a) then
      gone.(teardowns := s.teardowns[e.conn := Teardown(Disconnecting, e, Stopping)],
            stops := s.stops + [Stop(e.conn, e.app, Peers(s.active, a))])
    else
      gone.(teardowns := s.teardowns[e.conn := Teardown(Disconnecting, e, ClosingTunnel)],
            tunnels := CloseTunnel(s.tunnels, e.conn))
  }

  /** handleUnexpectedDisconnect up to its first await. */
  function LostStep(s: State, a: AppId): State
    requires a in s.active
  {
    var e := s.active[a];
    s.(active := s.active - {a},
       teardowns := s.teardowns[e.conn := Teardown(Recovering, e, ClosingTunnel)],
       tunnels := CloseTunnel(s.tunnels, e.conn))
  }

  predicate CanResumeTeardown(s: State, c: ConnId) {
    && c in s.teardowns
    && match s.teardowns[c].stage
       case ClosingTunnel => TunnelClosed(s.tunnels, c)
       case ReleasingReservation => ReservationReleased(s.tunnels, c)
       case _ => true
  }

  function TeardownStep(s: State, c: ConnId): State
    requires c in s.teardowns
  {
    var d := s.teardowns[c];
    match d.stage
    case Stopping =>
      s.(teardowns := s.teardowns[c := d.(stage := ClosingTunnel)], tunnels := CloseTunnel(s.tunnels, c))
    case ClosingTunnel =>
      s.(teardowns := s.teardowns[c := d.(stage := ReleasingReservation)], tunnels := ReleaseReservation(s.tunnels, c))
    case ReleasingReservation =>
      s.(teardowns := s.teardowns[c := d.(stage := ReleasingLease)], pool := ReleaseLease(s.pool, c))
    case ReleasingLease =>
      if d.kind.Disconnecting? then
        s.(teardowns := s.teardowns - {c}, last := s.last[d.entry.app.id := SDisconnected])
      else
        s.(teardowns := s.teardowns - {c},
           retries := s.retries[c := Waiting(d.entry.app.id, 0)],
           last := s.last[d.entry.app.id := SConnecting])
  }

  // ---------- the retry loop ----------

  /** One attempt is over without success. */
  function NextAttempt(s: State, c: ConnId): State
    requires c in s.retries
  {
    var r := s.retries[c];
    if r.attempt + 1 < RETRIES then
      s.(retries := s.retries[c := Waiting(r.app, r.attempt + 1)], last := s.last[r.app := SConnecting])
    else
      s.(retries := s.retries - {c}, last := s.last[r.app := SError])
  }

  function Join(s: State, c: ConnId, d: ConnId): State
    requires c in s.retries
  {
    s.(retries := s.retries[c := Joined(s.retries[c].app, s.retries[c].attempt, d)])
  }

  function RetrySettlesStep(s: State, c: ConnId): State
    requires c in s.retries && s.retries[c].Joined? && s.retries[c].conn in s.settled
  {
    if s.settled[s.retries[c].conn].ok then s.(retries := s.retries - {c}) else NextAttempt(s, c)
  }

  // ---------- runs ----------

  /** What happens without the service: servers close, clients come and go, streams open, fail and end. */
  predicate OfNetwork(e: T.Event) {
    e.ServerClosed? || e.Accept? || e.HungUp? || e.ForwardOpened? || e.ForwardFailed? || e.Ended?
  }

  predicate Enabled(s: State, e: Event) {
    match e
    case Start(c, app) => Unborn(s, c) && app.id !in s.inFlight
    case Resume(c, outcome, _) => CanResume(s, c, outcome)
    case Disconnect(_) => true
    case Lost(a) => a in s.active
    case ResumeTeardown(c) => CanResumeTeardown(s, c)
    case RetryJoins(c) => c in s.retries && s.retries[c].Waiting? && s.retries[c].app in s.inFlight
    case RetryStarts(c, d, app) =>
      c in s.retries && s.retries[c].Waiting? && s.retries[c].app == app.id && app.id !in s.inFlight && Unborn(s, d)
    case RetryFails(c) => c in s.retries && s.retries[c].Waiting? && s.retries[c].app !in s.inFlight
    case RetrySettles(c) => c in s.retries && s.retries[c].Joined? && s.retries[c].conn in s.settled
    case SessionLost(session) => session in s.pool.serverOf
    case Network(ev) => OfNetwork(ev) && T.Enabled(s.tunnels, ev)
  }

  function Apply(s: State, e: Event): State
    requires Enabled(s, e)
  {
    match e
    case Start(c, app) => StartStep(s, c, app)
    case Resume(c, outcome, timeLeft) => ResumeStep(s, c, outcome, timeLeft)
    case Disconnect(a) => DisconnectStep(s, a)
    case Lost(a) => LostStep(s, a)
    case ResumeTeardown(c) => TeardownStep(s, c)
    case RetryJoins(c) => Join(s, c, s.inFlight[s.retries[c].app])
    case RetryStarts(c, d, app) => Join(StartStep(s, d, app), c, d)
    case RetryFails(c) => NextAttempt(s, c)
    case RetrySettles(c) => RetrySettlesStep(s, c)
    case SessionLost(session) => s.(pool := P.DisconnectStep(s.pool, session))
    case Network(ev) => s.(tunnels := T.Apply(s.tunnels, ev))
  }

  ghost predicate IsRun(states: seq<State>, events: seq<Event>) {
    && |states| == |events| + 1
    && states[0] == EMPTY
    && forall i :: 0 <= i < |events| ==> Enabled(states[i], events[i]) && states[i + 1] == Apply(states[i], events[i])
  }
}
