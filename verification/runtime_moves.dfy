/** What one step of RuntimeModel does to a connect: where it goes on, what it publishes, when it fails. */
module RuntimeMoves {
  import opened RuntimeModel
  import opened RuntimeInvariant
  import RuntimeSteps

  // ---------- what the source throws on ----------

  /** The awaited promise, settled this way, ends the try block. */
  predicate Fails(s: State, c: ConnId, outcome: Outcome, timeLeft: bool)
    requires c in s.connects
  {
    var k := s.connects[c];
    match k.pc
    case Checking => k.app.id in s.tunnels.reservations
    case Reserving => !outcome.Yes?
    case Acquiring => !outcome.Yes?
    case Probing => outcome.Throws? || (outcome.No? && !(k.app.autoStart && k.app.hasStartCommand))
    case Launching => !outcome.Yes? || !timeLeft
    case Polling => outcome.Throws? || (outcome.No? && !timeLeft)
    case HealthChecking => !outcome.Yes?
    case _ => false
  }

  predicate Ends(k: Connect) {
    k.pc.Announcing? || k.pc.Failing?
  }

  /** The await after this one. */
  function NextPc(s: State, c: ConnId, outcome: Outcome, timeLeft: bool): Pc
    requires c in s.connects && !Ends(s.connects[c])
  {
    var k := s.connects[c];
    if Fails(s, c, outcome, timeLeft) then Unwinding(ClosingTunnel) else
    match k.pc
    case Checking => Reserving
    case Reserving => Connecting
    case Connecting => if k.app.server in s.pool.sessions then Probing else Acquiring
    case Acquiring => Probing
    case Probing => if outcome.Yes? then Tunneling else Starting
    case Starting => Launching
    case Launching => Sleeping
    case Sleeping => Polling
    case Polling => if outcome.Yes? then Tunneling else Sleeping
    case Tunneling => HealthChecking
    case HealthChecking => Announcing
    case Unwinding(ClosingTunnel) => Unwinding(ReleasingReservation)
    case Unwinding(ReleasingReservation) => Unwinding(ReleasingLease)
    case _ => Failing
  }

  // ---------- who publishes what ----------

  /** The guards under which a resumed connect publishes. */
  predicate Speaks(k: Connect, outcome: Outcome) {
    match k.pc
    case Reserving => outcome.Yes?
    case Probing => outcome.Yes? || (outcome.No? && k.app.autoStart && k.app.hasStartCommand)
    case Polling => outcome.Yes?
    case HealthChecking => outcome.Yes?
    case Unwinding(stage) => stage.ReleasingLease?
    case _ => false
  }

  function Word(k: Connect, outcome: Outcome): Status
    requires Speaks(k, outcome)
  {
    match k.pc
    case Reserving => SConnecting
    case Probing => if outcome.Yes? then STunneling else SStarting
    case Polling => STunneling
    case HealthChecking => SHealthy
    case _ => SError
  }

  /** The event publishes a status of application `a`. */
  predicate Publishes(s: State, e: Event, a: AppId) {
    match e
    case Start(_, app) => app.id == a
    case RetryStarts(_, _, app) => app.id == a
    case Resume(c, outcome, _) => c in s.connects && s.connects[c].app.id == a && Speaks(s.connects[c], outcome)
    case ResumeTeardown(c) => c in s.teardowns && s.teardowns[c].entry.app.id == a
        && s.teardowns[c].stage.ReleasingLease?
    case RetryFails(c) => c in s.retries && s.retries[c].app == a
    case RetrySettles(c) =>
      && c in s.retries && s.retries[c].app == a && s.retries[c].Joined?
      && s.retries[c].conn in s.settled && !s.settled[s.retries[c].conn].ok
    case _ => false
  }

  /** A failed attempt announces the next one, and the third one the end of the session. */
  function AttemptWord(r: Retry): Status {
    if r.attempt == 0 || r.attempt == 1 then SConnecting else SError
  }

  /** What it publishes. */
  function Published(s: State, e: Event, a: AppId): Status
    requires Publishes(s, e, a)
  {
    match e
    case Resume(c, outcome, _) => Word(s.connects[c], outcome)
    case ResumeTeardown(c) => if s.teardowns[c].kind.Disconnecting? then SDisconnected else SConnecting
    case RetryFails(c) => AttemptWord(s.retries[c])
    case RetrySettles(c) => AttemptWord(s.retries[c])
    case _ => SChecking
  }

  predicate SameLast(s: State, s': State, a: AppId) {
    (a in s.last <==> a in s'.last) && (a in s.last ==> s'.last[a] == s.last[a])
  }

  predicate Shows(s: State, a: AppId, word: Status) {
    a in s.last && s.last[a] == word
  }

  /** What the step makes of the status of `a`. */
  predicate Told(s: State, s': State, e: Event, a: AppId) {
    if Publishes(s, e, a) then Shows(s', a, Published(s, e, a)) else SameLast(s, s', a)
  }

  // ---------- a resumed connect ----------

  /** The event finds the application of connect `c` healthy and stores its entry. */
  predicate HandsOver(s: State, e: Event, c: ConnId) {
    e.Resume? && e.conn == c && e.outcome.Yes? && c in s.connects && s.connects[c].pc.HealthChecking?
  }

  /** execDetached resolves. */
  predicate Launches(k: Connect, outcome: Outcome) {
    k.pc.Launching? && outcome.Yes?
  }

  function Grown(k: Connect, outcome: Outcome): seq<Status> {
    if Speaks(k, outcome) then k.trace + [Word(k, outcome)] else k.trace
  }

  /** The connect after its await. */
  function Next(s: State, c: ConnId, outcome: Outcome, timeLeft: bool): Connect
    requires c in s.connects && !Ends(s.connects[c])
  {
    var k := s.connects[c];
    Connect(k.app, NextPc(s, c, outcome, timeLeft), k.started || Launches(k, outcome), Grown(k, outcome))
  }

  /** What a resumed connect changes, unless it settles or hands over. */
  predicate Moves(s: State, s': State, c: ConnId, outcome: Outcome, timeLeft: bool)
    requires c in s.connects && !Ends(s.connects[c])
  {
    var k := s.connects[c];
    && s'.active == s.active && s'.settled == s.settled && s'.stops == s.stops && s'.retries == s.retries
    && s'.teardowns == s.teardowns
    && s'.connects == s.connects[c := Next(s, c, outcome, timeLeft)]
    && s'.launched == (if Launches(k, outcome) then s.launched + {c} else s.launched)
    && s'.last == (if Speaks(k, outcome) then s.last[k.app.id := Word(k, outcome)] else s.last)
  }

  lemma UnwindMoves(s: State, c: ConnId, outcome: Outcome, timeLeft: bool)
    requires c in s.connects && Fails(s, c, outcome, timeLeft) && !Launches(s.connects[c], outcome)
    ensures Moves(s, Unwind(s, c), c, outcome, timeLeft)
  {
  }

  lemma ReserveMoves(s: State, c: ConnId, outcome: Outcome, timeLeft: bool)
    requires c in s.connects && s.connects[c].pc.Checking? && s.connects[c].app.id !in s.tunnels.reservations
    ensures Moves(s, AfterReserve(s, c), c, outcome, timeLeft)
  {
  }

  lemma AfterReserveMoves(s: State, c: ConnId, outcome: Outcome, timeLeft: bool)
    requires c in s.connects && s.connects[c].pc.Checking?
    ensures Moves(s, AfterReserve(s, c), c, outcome, timeLeft)
  {
    if s.connects[c].app.id in s.tunnels.reservations { UnwindMoves(s, c, outcome, timeLeft); }
    else { ReserveMoves(s, c, outcome, timeLeft); }
  }

  lemma AfterListenMoves(s: State, c: ConnId, outcome: Outcome, timeLeft: bool)
    requires CanResume(s, c, outcome) && s.connects[c].pc.Reserving?
    ensures Moves(s, AfterListen(s, c, outcome), c, outcome, timeLeft)
  {
  }

  lemma CallAcquireMoves(s: State, c: ConnId, outcome: Outcome, timeLeft: bool)
    requires c in s.connects && s.connects[c].pc.Connecting?
    ensures Moves(s, CallAcquire(s, c), c, outcome, timeLeft)
  {
  }

  lemma AfterConnectMoves(s: State, c: ConnId, outcome: Outcome, timeLeft: bool)
    requires CanResume(s, c, outcome) && s.connects[c].pc.Acquiring?
    ensures Moves(s, AfterConnect(s, c, outcome), c, outcome, timeLeft)
  {
  }

  lemma AfterProbeMoves(s: State, c: ConnId, outcome: Outcome, timeLeft: bool)
    requires c in s.connects && s.connects[c].pc.Probing?
    ensures Moves(s, AfterProbe(s, c, outcome), c, outcome, timeLeft)
  {
    if Fails(s, c, outcome, timeLeft) { UnwindMoves(s, c, outcome, timeLeft); }
  }

  lemma AfterLaunchMoves(s: State, c: ConnId, outcome: Outcome, timeLeft: bool)
    requires c in s.connects && s.connects[c].pc.Launching?
    ensures Moves(s, AfterLaunch(s, c, outcome, timeLeft), c, outcome, timeLeft)
  {
  }

  lemma AfterPollMoves(s: State, c: ConnId, outcome: Outcome, timeLeft: bool)
    requires c in s.connects && s.connects[c].pc.Polling?
    ensures Moves(s, AfterPoll(s, c, outcome, timeLeft), c, outcome, timeLeft)
  {
  }

  lemma CallActivateMoves(s: State, c: ConnId, outcome: Outcome, timeLeft: bool)
    requires Inv(s) && c in s.connects && s.connects[c].pc.Tunneling?
    ensures Moves(s, CallActivate(s, c), c, outcome, timeLeft)
  {
    RuntimeSteps.ActivateSucceeds(s, c);
  }

  lemma GotoMoves(s: State, c: ConnId, outcome: Outcome, timeLeft: bool)
    requires c in s.connects && (s.connects[c].pc.Starting? || s.connects[c].pc.Sleeping?)
    ensures Moves(s, ResumeStep(s, c, outcome, timeLeft), c, outcome, timeLeft)
  {
  }

  lemma AfterHealthMoves(s: State, c: ConnId, outcome: Outcome, timeLeft: bool)
    requires c in s.connects && s.connects[c].pc.HealthChecking? && !outcome.Yes?
    ensures Moves(s, AfterHealth(s, c, outcome), c, outcome, timeLeft)
  {
  }

  lemma TunnelUnwoundMoves(s: State, c: ConnId, outcome: Outcome, timeLeft: bool)
    requires c in s.connects && s.connects[c].pc == Unwinding(ClosingTunnel)
    ensures Moves(s, Unwound(s, c), c, outcome, timeLeft)
  {
  }

  lemma ReservationUnwoundMoves(s: State, c: ConnId, outcome: Outcome, timeLeft: bool)
    requires c in s.connects && s.connects[c].pc == Unwinding(ReleasingReservation)
    ensures Moves(s, Unwound(s, c), c, outcome, timeLeft)
  {
  }

  lemma LeaseUnwoundMoves(s: State, c: ConnId, outcome: Outcome, timeLeft: bool)
    requires c in s.connects && s.connects[c].pc == Unwinding(ReleasingLease)
    ensures Moves(s, Unwound(s, c), c, outcome, timeLeft)
  {
  }

  lemma UnwoundMoves(s: State, c: ConnId, outcome: Outcome, timeLeft: bool)
    requires c in s.connects && s.connects[c].pc.Unwinding? && !s.connects[c].pc.stage.Stopping?
    ensures Moves(s, Unwound(s, c), c, outcome, timeLeft)
  {
    match s.connects[c].pc.stage
    case ClosingTunnel => TunnelUnwoundMoves(s, c, outcome, timeLeft);
    case ReleasingReservation => ReservationUnwoundMoves(s, c, outcome, timeLeft);
    case ReleasingLease => LeaseUnwoundMoves(s, c, outcome, timeLeft);
  }

  lemma ResumeMoves(s: State, c: ConnId, outcome: Outcome, timeLeft: bool)
    requires Inv(s) && CanResume(s, c, outcome) && !Ends(s.connects[c])
    requires !HandsOver(s, Resume(c, outcome, timeLeft), c)
    ensures Moves(s, ResumeStep(s, c, outcome, timeLeft), c, outcome, timeLeft)
  {
    assert ConnectOk(s, c);
    match s.connects[c].pc
    case Checking => AfterReserveMoves(s, c, outcome, timeLeft);
    case Reserving => AfterListenMoves(s, c, outcome, timeLeft);
    case Connecting => CallAcquireMoves(s, c, outcome, timeLeft);
    case Acquiring => AfterConnectMoves(s, c, outcome, timeLeft);
    case Probing => AfterProbeMoves(s, c, outcome, timeLeft);
    case Launching => AfterLaunchMoves(s, c, outcome, timeLeft);
    case Polling => AfterPollMoves(s, c, outcome, timeLeft);
    case Tunneling => CallActivateMoves(s, c, outcome, timeLeft);
    case HealthChecking => AfterHealthMoves(s, c, outcome, timeLeft);
    case Unwinding(_) => UnwoundMoves(s, c, outcome, timeLeft);
    case _ => GotoMoves(s, c, outcome, timeLeft);
  }

  /** The handover stores the entry, publishes 'healthy' and is not repeated: it waits in Announcing. */
  predicate Hands(s: State, s': State, c: ConnId)
    requires c in s.connects
  {
    var k := s.connects[c];
    && s'.active == s.active[k.app.id := Entry(c, k.app, k.started)] && s'.last == s.last[k.app.id := SHealthy]
    && s'.settled == s.settled && s'.stops == s.stops && s'.retries == s.retries && s'.launched == s.launched
    && s'.teardowns == s.teardowns
    && s'.connects == s.connects[c := Connect(k.app, Announcing, k.started, k.trace + [SHealthy])]
  }

  predicate Leaves(s: State, s': State, c: ConnId)
    requires c in s.connects
  {
    var k := s.connects[c];
    && s'.active == s.active && s'.last == s.last && s'.stops == s.stops && s'.retries == s.retries
    && s'.teardowns == s.teardowns
    && s'.launched == s.launched && s'.connects == s.connects - {c}
    && s'.settled == s.settled[c := Ending(k.pc.Announcing?, k.trace)]
  }

  /** A resumed connect settles, hands over, or moves on. */
  predicate Resumed(s: State, s': State, c: ConnId, outcome: Outcome, timeLeft: bool)
    requires c in s.connects
  {
    if Ends(s.connects[c]) then Leaves(s, s', c)
    else if s.connects[c].pc.HealthChecking? && outcome.Yes? then Hands(s, s', c)
    else Moves(s, s', c, outcome, timeLeft)
  }

  lemma SettleLeaves(s: State, c: ConnId)
    requires c in s.connects
    ensures Leaves(s, Settle(s, c, s.connects[c].pc.Announcing?), c)
  {
  }

  lemma HealthHands(s: State, c: ConnId)
    requires c in s.connects
    ensures Hands(s, AfterHealth(s, c, Yes), c)
  {
  }

  lemma ResumeShape(s: State, c: ConnId, outcome: Outcome, timeLeft: bool)
    requires Inv(s) && CanResume(s, c, outcome)
    ensures Resumed(s, ResumeStep(s, c, outcome, timeLeft), c, outcome, timeLeft)
  {
    if Ends(s.connects[c]) { SettleLeaves(s, c); }
    else if s.connects[c].pc.HealthChecking? && outcome.Yes? { HealthHands(s, c); }
    else { ResumeMoves(s, c, outcome, timeLeft); }
  }
}
