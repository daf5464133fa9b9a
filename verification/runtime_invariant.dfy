/** The inductive invariant of RuntimeModel, stated name by name: what a connect, a teardown or an
    active entry may count on, and who owns each reservation and lease.
 */
module RuntimeInvariant {
  import opened RuntimeModel
  import P = PoolModel
  import T = TunnelModel

  // ---------- the statuses a connect publishes ----------

  ghost predicate UpToConnecting(trace: seq<Status>) { trace == [SChecking, SConnecting] }

  ghost predicate UpToStarting(trace: seq<Status>) { trace == [SChecking, SConnecting, SStarting] }

  ghost predicate UpToTunneling(trace: seq<Status>) {
    trace == [SChecking, SConnecting, STunneling] || trace == [SChecking, SConnecting, SStarting, STunneling]
  }

  /** A proper beginning of the way to 'healthy'. */
  ghost predicate OnTheWay(trace: seq<Status>) {
    trace == [SChecking] || UpToConnecting(trace) || UpToStarting(trace) || UpToTunneling(trace)
  }

  ghost predicate Failed(trace: seq<Status>) {
    |trace| > 1 && trace[|trace| - 1] == SError && OnTheWay(trace[..|trace| - 1])
  }

  ghost predicate Succeeded(trace: seq<Status>) {
    |trace| > 1 && trace[|trace| - 1] == SHealthy && UpToTunneling(trace[..|trace| - 1])
  }

  ghost predicate TraceOk(pc: Pc, trace: seq<Status>) {
    match pc
    case Checking => trace == [SChecking]
    case Reserving => trace == [SChecking]
    case Connecting => UpToConnecting(trace)
    case Acquiring => UpToConnecting(trace)
    case Probing => UpToConnecting(trace)
    case Starting => UpToStarting(trace)
    case Launching => UpToStarting(trace)
    case Sleeping => UpToStarting(trace)
    case Polling => UpToStarting(trace)
    case Tunneling => UpToTunneling(trace)
    case HealthChecking => UpToTunneling(trace)
    case Announcing => Succeeded(trace)
    case Unwinding(_) => OnTheWay(trace)
    case Failing => Failed(trace)
  }

  // ---------- one connect ----------

  predicate Holding(pc: Pc) {
    pc.Connecting? || pc.Acquiring? || pc.Probing? || pc.Starting? || pc.Launching? || pc.Sleeping? || pc.Polling?
      || pc.Tunneling?
  }

  /** The reservation of connect `c`: open and not activated, then open and activated, then given back stage by
      stage. */
  ghost predicate ReservationAt(t: T.Tunnels, c: ConnId, app: App, pc: Pc) {
    && (pc.Reserving? <==> c in t.starting)
    && (c in t.starting ==> t.starting[c] == T.Claim(app.id, app.port))
    && (pc.Checking? || pc.Reserving? ==> c !in t.held)
    && (Holding(pc) || pc.HealthChecking? ==>
          c in t.held && t.held[c].phase.Open? && (t.held[c].activated <==> pc.HealthChecking?))
    && (c in t.held ==> t.held[c].app == app.id && t.held[c].port == app.port)
    && (pc.Unwinding? && c in t.held ==>
          match pc.stage
          case ClosingTunnel => t.held[c].activated ==> !t.held[c].phase.Open?
          case ReleasingReservation => !t.held[c].phase.Open?
          case _ => t.held[c].phase.Released?)
    && (pc.Failing? && c in t.held ==> t.held[c].phase.Released?)
  }

  ghost predicate LeaseAt(p: P.Pool, c: ConnId, pc: Pc) {
    && (pc.Acquiring? <==> c in p.connecting)
    && (pc.Checking? || pc.Reserving? || pc.Connecting? ==> P.Fresh(p, c))
    && ((Holding(pc) && !pc.Connecting? && !pc.Acquiring?) || pc.HealthChecking? ==>
          c in p.leases && !p.leases[c].released)
    && (pc.Unwinding? && c in p.leases ==>
          (p.leases[c].released <==> pc.stage.ReleasingLease?))
    && (pc.Unwinding? ==> !pc.stage.Stopping?)
    && (pc.Failing? && c in p.leases ==> p.leases[c].released)
  }

  /** connectInternal runs at most once per application, and each run knows what it holds. */
  ghost predicate ConnectOk(s: State, c: ConnId) {
    c in s.connects ==>
      var k := s.connects[c];
      && k.app.id in s.inFlight && s.inFlight[k.app.id] == c
      && c !in s.settled
      && ReservationAt(s.tunnels, c, k.app, k.pc)
      && LeaseAt(s.pool, c, k.pc)
      && (c in s.pool.connecting ==> s.pool.connecting[c] == k.app.server)
      && (c in s.pool.leases ==> s.pool.leases[c].server == k.app.server)
      && TraceOk(k.pc, k.trace)
      && (k.started <==> c in s.launched)
  }

  /** Connect `c` has handed its resources to an entry. */
  predicate HandedOver(s: State, c: ConnId) {
    c in s.connects ==> s.connects[c].pc.Announcing?
  }

  // ---------- one active entry, one teardown ----------

  ghost predicate ActiveOk(s: State, a: AppId) {
    a in s.active ==>
      var e := s.active[a];
      && e.app.id == a
      && e.conn in s.tunnels.held
      && var r := s.tunnels.held[e.conn];
      && r.app == a && r.port == e.app.port && r.phase.Open? && r.activated
      && e.conn in s.pool.leases && !s.pool.leases[e.conn].released && s.pool.leases[e.conn].server == e.app.server
      && e.conn !in s.teardowns && HandedOver(s, e.conn)
      && (e.started <==> e.conn in s.launched)
  }

  ghost predicate TeardownOk(s: State, c: ConnId) {
    c in s.teardowns ==>
      var d := s.teardowns[c];
      && d.entry.conn == c && HandedOver(s, c)
      && c in s.tunnels.held
      && var r := s.tunnels.held[c];
      && r.app == d.entry.app.id && r.activated
      && c in s.pool.leases && (s.pool.leases[c].released <==> d.stage.ReleasingLease?)
      && match d.stage
         case Stopping => r.phase.Open?
         case ClosingTunnel => !r.phase.Open?
         case _ => r.phase.Released?
  }

  // ---------- ownership ----------

  ghost predicate OwnedByConnect(s: State, c: ConnId) {
    c in s.connects && !s.connects[c].pc.Announcing?
  }

  ghost predicate OwnedByEntry(s: State, c: ConnId) {
    c in s.tunnels.held && s.tunnels.held[c].app in s.active && s.active[s.tunnels.held[c].app].conn == c
  }

  ghost predicate Owned(s: State, c: ConnId) {
    OwnedByConnect(s, c) || OwnedByEntry(s, c) || c in s.teardowns
  }

  /** What is not given back has an owner; what was never begun holds nothing. */
  ghost predicate OwnedOk(s: State, c: ConnId) {
    && (c in s.tunnels.held && !s.tunnels.held[c].phase.Released? ==> Owned(s, c))
    && (c in s.pool.leases ==> c in s.tunnels.held && (!s.pool.leases[c].released ==> Owned(s, c)))
    && (c in s.tunnels.starting ==> c in s.connects)
    && (c in s.pool.connecting ==> c in s.connects)
    && (Unborn(s, c) ==>
          c !in s.tunnels.held && P.Fresh(s.pool, c) && c !in s.teardowns && c !in s.launched)
    && (c in s.settled ==>
          if s.settled[c].ok then Succeeded(s.settled[c].trace) else Failed(s.settled[c].trace) && !Owned(s, c))
  }

  ghost predicate FlightOk(s: State, a: AppId) {
    a in s.inFlight ==> s.inFlight[a] in s.connects && s.connects[s.inFlight[a]].app.id == a
  }

  /** A teardown of application `a` that has not published yet. */
  ghost predicate TearingDown(s: State, a: AppId) {
    exists c :: c in s.teardowns && s.teardowns[c].entry.app.id == a
  }

  ghost predicate HealthyOk(s: State, a: AppId) {
    a in s.last && s.last[a] == SHealthy ==> a in s.active || TearingDown(s, a)
  }

  ghost predicate StopOk(s: State, i: nat) {
    i < |s.stops| ==> s.stops[i].conn in s.launched && s.stops[i].peers == {}
  }

  ghost predicate PartsOk(s: State) {
    T.Inv(s.tunnels) && T.Sole(s.tunnels) && P.Inv(s.pool) && s.pool.swept == {}
  }

  ghost predicate Inv(s: State) {
    && PartsOk(s)
    && (forall c :: ConnectOk(s, c)) && (forall c :: TeardownOk(s, c)) && (forall c :: OwnedOk(s, c))
    && (forall a :: ActiveOk(s, a)) && (forall a :: FlightOk(s, a)) && (forall a :: HealthyOk(s, a))
    && (forall i :: StopOk(s, i))
  }

  // ---------- a step that concerns one connect number and one application ----------

  /** What the invariant reads of a reservation. */
  predicate SameReservation(t: T.Tunnels, u: T.Tunnels, d: ConnId) {
    && (d in t.starting <==> d in u.starting) && (d in t.starting ==> u.starting[d] == t.starting[d])
    && (d in t.held <==> d in u.held)
    && (d in t.held ==>
          && u.held[d].app == t.held[d].app && u.held[d].port == t.held[d].port
          && u.held[d].phase == t.held[d].phase && u.held[d].activated == t.held[d].activated)
  }

  predicate SameLease(p: P.Pool, q: P.Pool, d: ConnId) {
    && (d in p.connecting <==> d in q.connecting) && (d in p.connecting ==> q.connecting[d] == p.connecting[d])
    && (d in p.leases <==> d in q.leases)
    && (d in p.leases ==> q.leases[d].released == p.leases[d].released && q.leases[d].server == p.leases[d].server)
    && (d in p.serverOf <==> d in q.serverOf)
  }

  ghost predicate SameConn(s: State, s': State, d: ConnId) {
    && (d in s.connects <==> d in s'.connects) && (d in s.connects ==> s'.connects[d] == s.connects[d])
    && (d in s.teardowns <==> d in s'.teardowns) && (d in s.teardowns ==> s'.teardowns[d] == s.teardowns[d])
    && (d in s.settled <==> d in s'.settled) && (d in s.settled ==> s'.settled[d] == s.settled[d])
    && (d in s.launched <==> d in s'.launched)
    && SameReservation(s.tunnels, s'.tunnels, d)
    && SameLease(s.pool, s'.pool, d)
  }

  ghost predicate SameActive(s: State, s': State, b: AppId) {
    (b in s.active <==> b in s'.active) && (b in s.active ==> s'.active[b] == s.active[b])
  }

  ghost predicate SameFlight(s: State, s': State, b: AppId) {
    (b in s.inFlight <==> b in s'.inFlight) && (b in s.inFlight ==> s'.inFlight[b] == s.inFlight[b])
  }

  ghost predicate SameApp(s: State, s': State, b: AppId) {
    && SameActive(s, s', b) && SameFlight(s, s', b)
    && (b in s'.last && s'.last[b] == SHealthy ==> b in s.last && s.last[b] == SHealthy)
  }

  /** Everything but connect number `c` and application `a` is as before, and `a` belongs to `c` where it changes. */
  ghost predicate Only(s: State, s': State, c: ConnId, a: AppId) {
    && (forall d :: d != c ==> SameConn(s, s', d))
    && (forall b :: b != a ==> SameApp(s, s', b))
    && (|| SameActive(s, s', a)
        || ((a in s.active ==> s.active[a].conn == c) && (a in s'.active ==> s'.active[a].conn == c)))
    && (SameFlight(s, s', a) || (a in s.inFlight ==> s.inFlight[a] == c))
    && (c in s.tunnels.held ==> s.tunnels.held[c].app == a)
    && (c in s.teardowns ==> s.teardowns[c].entry.app.id == a)
    && (c in s.launched ==> c in s'.launched)
  }

  lemma OnlyKeepsConnect(s: State, s': State, c: ConnId, a: AppId, d: ConnId)
    requires Inv(s) && Only(s, s', c, a) && d != c
    ensures ConnectOk(s', d)
  {
    assert ConnectOk(s, d) && SameConn(s, s', d);
    if d in s.connects && s.connects[d].app.id != a { assert SameApp(s, s', s.connects[d].app.id); }
  }

  lemma OnlyKeepsTeardown(s: State, s': State, c: ConnId, a: AppId, d: ConnId)
    requires Inv(s) && Only(s, s', c, a) && d != c
    ensures TeardownOk(s', d)
  {
    assert TeardownOk(s, d) && SameConn(s, s', d);
  }

  lemma OnlyKeepsOwned(s: State, s': State, c: ConnId, a: AppId, d: ConnId)
    requires Inv(s) && Only(s, s', c, a) && d != c
    ensures OwnedOk(s', d)
  {
    assert OwnedOk(s, d) && SameConn(s, s', d);
    if d in s.tunnels.held && s.tunnels.held[d].app != a { assert SameApp(s, s', s.tunnels.held[d].app); }
  }

  lemma OnlyKeepsActive(s: State, s': State, c: ConnId, a: AppId, b: AppId)
    requires Inv(s) && Only(s, s', c, a) && b != a
    ensures ActiveOk(s', b)
  {
    assert ActiveOk(s, b) && SameApp(s, s', b);
    if b in s.active { assert SameConn(s, s', s.active[b].conn); }
  }

  lemma OnlyKeepsFlight(s: State, s': State, c: ConnId, a: AppId, b: AppId)
    requires Inv(s) && Only(s, s', c, a) && b != a
    requires c in s.connects ==> s.connects[c].app.id == a
    ensures FlightOk(s', b)
  {
    assert FlightOk(s, b) && SameApp(s, s', b);
    if b in s.inFlight { assert SameConn(s, s', s.inFlight[b]); }
  }

  lemma OnlyKeepsHealthy(s: State, s': State, c: ConnId, a: AppId, b: AppId)
    requires Inv(s) && Only(s, s', c, a) && b != a
    ensures HealthyOk(s', b)
  {
    assert HealthyOk(s, b) && SameApp(s, s', b);
    if b in s'.last && s'.last[b] == SHealthy && b !in s.active {
      var d :| d in s.teardowns && s.teardowns[d].entry.app.id == b;
      assert SameConn(s, s', d);
    }
  }

  /** What remains to be shown of such a step. */
  ghost predicate Local(s: State, c: ConnId, a: AppId) {
    && ConnectOk(s, c) && TeardownOk(s, c) && OwnedOk(s, c)
    && ActiveOk(s, a) && FlightOk(s, a) && HealthyOk(s, a)
  }

  lemma OnlyKeepsInv(s: State, s': State, c: ConnId, a: AppId)
    requires Inv(s) && Only(s, s', c, a) && Local(s', c, a) && PartsOk(s')
    requires c in s.connects ==> s.connects[c].app.id == a
    requires forall i :: StopOk(s', i)
    ensures Inv(s')
  {
    forall d ensures ConnectOk(s', d) { if d != c { OnlyKeepsConnect(s, s', c, a, d); } }
    forall d ensures TeardownOk(s', d) { if d != c { OnlyKeepsTeardown(s, s', c, a, d); } }
    forall d ensures OwnedOk(s', d) { if d != c { OnlyKeepsOwned(s, s', c, a, d); } }
    forall b ensures ActiveOk(s', b) { if b != a { OnlyKeepsActive(s, s', c, a, b); } }
    forall b ensures FlightOk(s', b) { if b != a { OnlyKeepsFlight(s, s', c, a, b); } }
    forall b ensures HealthyOk(s', b) { if b != a { OnlyKeepsHealthy(s, s', c, a, b); } }
  }

  // ---------- one operation on the tunnels or the pool ----------

  ghost predicate TunnelsOnly(t: T.Tunnels, u: T.Tunnels, c: ConnId) {
    && T.Inv(u) && T.Sole(u)
    && forall d :: d != c ==> SameReservation(t, u, d)
  }

  ghost predicate PoolOnly(p: P.Pool, q: P.Pool, c: ConnId) {
    && P.Inv(q) && q.swept == p.swept
    && forall d :: d != c ==> SameLease(p, q, d)
  }

  lemma TunnelOp(t: T.Tunnels, e: T.Event, c: ConnId)
    requires T.Inv(t) && T.Sole(t) && T.Enabled(t, e) && T.Alone(t, e)
    requires e == T.Listening(c) || e == T.ListenFailed(c) || e == T.Activate(c) || e == T.Release(c)
             || (e.Reserve? && e.id == c)
    ensures TunnelsOnly(t, T.Apply(t, e), c)
  {
    T.StepKeepsInv(t, e);
    T.StepKeepsSole(t, e);
    forall d | d != c ensures SameReservation(t, T.Apply(t, e), d) {}
  }

  lemma PoolOp(p: P.Pool, e: P.Event, c: ConnId)
    requires P.Inv(p) && P.Enabled(p, e)
    requires e == P.Connected(c) || e == P.ConnectFailed(c) || e == P.Release(c) || (e.Acquire? && e.call == c)
    ensures PoolOnly(p, P.Apply(p, e), c)
  {
    P.StepKeepsInv(p, e);
    forall d | d != c ensures SameLease(p, P.Apply(p, e), d) {}
  }

  lemma CloseTunnelOp(t: T.Tunnels, c: ConnId)
    requires T.Inv(t) && T.Sole(t)
    ensures TunnelsOnly(t, CloseTunnel(t, c), c) && TunnelsOnly(t, ReleaseReservation(t, c), c)
  {
    if c in t.held { TunnelOp(t, T.Release(c), c); }
  }

  lemma ReleaseLeaseOp(p: P.Pool, c: ConnId)
    requires P.Inv(p)
    ensures PoolOnly(p, ReleaseLease(p, c), c)
  {
    if c in p.leases { PoolOp(p, P.Release(c), c); }
  }
}
