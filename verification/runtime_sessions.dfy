/** Sessions seen from the runtime service: which ones are closed once no active application uses them, and which
    step of the machine makes the pool lose one.
 */
module RuntimeSessions {
  import opened RuntimeModel
  import opened RuntimeInvariant
  import RuntimeSteps
  import RuntimeTheorems
  import P = PoolModel

  /** At rest a session that no active application uses has been closed if and only if it neither disconnected
      nor was replaced. */
  lemma RestClosesUnused(states: seq<State>, events: seq<Event>, n: nat, session: P.SessionId)
    requires IsRun(states, events) && n <= |events| && RuntimeTheorems.AtRest(states[n])
    requires session in states[n].pool.serverOf && RuntimeTheorems.Users(states[n], session) == {}
    ensures var p := states[n].pool;
            p.closed[session] == 1 <==> session !in p.dropped && session !in p.replaced
  {
    var s := states[n];
    RuntimeSteps.RunKeepsInv(states, events, n);
    RuntimeTheorems.RestLeases(s, session);
    assert P.SessionOk(s.pool, session) && P.EntryOk(s.pool, s.pool.serverOf[session]);
  }

  // ---------- which step replaces a session ----------

  /** A connect gets its own session although its server has an entry by now. */
  predicate Replaces(s: State, e: Event) {
    && e.Resume? && e.outcome.Yes? && e.conn in s.connects && s.connects[e.conn].pc.Acquiring?
    && s.connects[e.conn].app.server in s.pool.sessions
  }

  predicate SameReplaced(s: State, s': State) {
    s'.pool.replaced == s.pool.replaced
  }

  lemma ReleaseReplacesNothing(p: P.Pool, c: ConnId)
    ensures ReleaseLease(p, c).replaced == p.replaced
  {
  }

  lemma AfterConnectReplaces(s: State, c: ConnId)
    requires Inv(s) && CanResume(s, c, Yes) && s.connects[c].pc.Acquiring?
    ensures var p, server := s.pool, s.connects[c].app.server;
            AfterConnect(s, c, Yes).pool.replaced
              == if server in p.sessions then p.replaced + {p.sessions[server].session} else p.replaced
    ensures SameReplaced(s, AfterConnect(s, c, Yes)) <==> s.connects[c].app.server !in s.pool.sessions
  {
    assert ConnectOk(s, c);
    P.ReplacesExactly(s.pool, P.Connected(c));
  }

  lemma CallAcquireReplacesNothing(s: State, c: ConnId)
    requires c in s.connects
    ensures SameReplaced(s, CallAcquire(s, c))
  {
  }

  lemma UnwoundReplacesNothing(s: State, c: ConnId)
    requires c in s.connects && s.connects[c].pc.Unwinding?
    ensures SameReplaced(s, Unwound(s, c))
  {
    ReleaseReplacesNothing(s.pool, c);
    match s.connects[c].pc.stage
    case ClosingTunnel => TunnelUnwoundLeavesPool(s, c);
    case ReleasingReservation => LeaseUnwound(s, c);
    case _ => SayLeavesPool(s, c, SError, Failing);
  }

  lemma TunnelUnwoundLeavesPool(s: State, c: ConnId)
    requires c in s.connects && s.connects[c].pc == Unwinding(ClosingTunnel)
    ensures Unwound(s, c).pool == s.pool
  {
  }

  lemma LeaseUnwound(s: State, c: ConnId)
    requires c in s.connects && s.connects[c].pc == Unwinding(ReleasingReservation)
    ensures Unwound(s, c).pool == ReleaseLease(s.pool, c)
  {
  }

  lemma SayLeavesPool(s: State, c: ConnId, status: Status, pc: Pc)
    requires c in s.connects
    ensures Say(s, c, status, pc).pool == s.pool
  {
  }

  predicate LeavesPool(pc: Pc) {
    !pc.Connecting? && !pc.Acquiring? && !pc.Unwinding?
  }

  lemma UnwindLeavesPool(s: State, c: ConnId)
    requires c in s.connects
    ensures Unwind(s, c).pool == s.pool
  {
  }

  lemma AfterReserveLeavesPool(s: State, c: ConnId)
    requires c in s.connects
    ensures AfterReserve(s, c).pool == s.pool
  {
    UnwindLeavesPool(s, c);
  }

  lemma AfterListenLeavesPool(s: State, c: ConnId, outcome: Outcome)
    requires CanResume(s, c, outcome) && s.connects[c].pc.Reserving?
    ensures AfterListen(s, c, outcome).pool == s.pool
  {
  }

  lemma AfterProbeLeavesPool(s: State, c: ConnId, outcome: Outcome)
    requires c in s.connects
    ensures AfterProbe(s, c, outcome).pool == s.pool
  {
    UnwindLeavesPool(s, c);
  }

  lemma AfterLaunchLeavesPool(s: State, c: ConnId, outcome: Outcome, timeLeft: bool)
    requires c in s.connects
    ensures AfterLaunch(s, c, outcome, timeLeft).pool == s.pool
  {
  }

  lemma AfterPollLeavesPool(s: State, c: ConnId, outcome: Outcome, timeLeft: bool)
    requires c in s.connects
    ensures AfterPoll(s, c, outcome, timeLeft).pool == s.pool
  {
    UnwindLeavesPool(s, c);
  }

  lemma CallActivateLeavesPool(s: State, c: ConnId)
    requires c in s.connects
    ensures CallActivate(s, c).pool == s.pool
  {
    UnwindLeavesPool(s, c);
  }

  lemma AfterHealthLeavesPool(s: State, c: ConnId, outcome: Outcome)
    requires c in s.connects
    ensures AfterHealth(s, c, outcome).pool == s.pool
  {
    UnwindLeavesPool(s, c);
  }

  lemma GotoLeavesPool(s: State, c: ConnId, pc: Pc)
    requires c in s.connects
    ensures Goto(s, c, pc).pool == s.pool
  {
  }

  lemma SettleLeavesPool(s: State, c: ConnId, ok: bool)
    requires c in s.connects
    ensures Settle(s, c, ok).pool == s.pool
  {
  }

  lemma ResumeLeavesPool(s: State, c: ConnId, outcome: Outcome, timeLeft: bool)
    requires CanResume(s, c, outcome) && LeavesPool(s.connects[c].pc)
    ensures ResumeStep(s, c, outcome, timeLeft).pool == s.pool
  {
    match s.connects[c].pc
    case Checking => AfterReserveLeavesPool(s, c);
    case Reserving => AfterListenLeavesPool(s, c, outcome);
    case Probing => AfterProbeLeavesPool(s, c, outcome);
    case Launching => AfterLaunchLeavesPool(s, c, outcome, timeLeft);
    case Polling => AfterPollLeavesPool(s, c, outcome, timeLeft);
    case Tunneling => CallActivateLeavesPool(s, c);
    case HealthChecking => AfterHealthLeavesPool(s, c, outcome);
    case Starting => GotoLeavesPool(s, c, Launching);
    case Sleeping => GotoLeavesPool(s, c, Polling);
    case Announcing => SettleLeavesPool(s, c, true);
    case Failing => SettleLeavesPool(s, c, false);
  }

  lemma FailedConnectReplacesNothing(s: State, c: ConnId, outcome: Outcome)
    requires CanResume(s, c, outcome) && s.connects[c].pc.Acquiring? && !outcome.Yes?
    ensures SameReplaced(s, AfterConnect(s, c, outcome))
  {
  }

  lemma ResumeReplaces(s: State, c: ConnId, outcome: Outcome, timeLeft: bool)
    requires Inv(s) && CanResume(s, c, outcome)
    ensures SameReplaced(s, ResumeStep(s, c, outcome, timeLeft)) <==> !Replaces(s, Resume(c, outcome, timeLeft))
  {
    match s.connects[c].pc
    case Connecting => CallAcquireReplacesNothing(s, c);
    case Acquiring =>
      if outcome.Yes? { AfterConnectReplaces(s, c); } else { FailedConnectReplacesNothing(s, c, outcome); }
    case Unwinding(_) => UnwoundReplacesNothing(s, c);
    case _ => ResumeLeavesPool(s, c, outcome, timeLeft);
  }

  lemma TeardownReplacesNothing(s: State, c: ConnId)
    requires c in s.teardowns
    ensures SameReplaced(s, TeardownStep(s, c))
  {
    ReleaseReplacesNothing(s.pool, c);
  }

  lemma CallsReplaceNothing(s: State, e: Event)
    requires Enabled(s, e) && (e.Start? || e.Disconnect? || e.Lost?)
    ensures SameReplaced(s, Apply(s, e))
  {
  }

  lemma RetriesReplaceNothing(s: State, e: Event)
    requires Enabled(s, e) && (e.RetryJoins? || e.RetryStarts? || e.RetryFails? || e.RetrySettles?)
    ensures SameReplaced(s, Apply(s, e))
  {
  }

  lemma WorldReplacesNothing(s: State, e: Event)
    requires Enabled(s, e) && (e.SessionLost? || e.Network?)
    ensures SameReplaced(s, Apply(s, e))
  {
  }

  /** A step makes the pool lose a session if and only if it ends the connect of a session for an application whose
      server has an entry by then. */
  lemma ReplacesExactly(s: State, e: Event)
    requires Inv(s) && Enabled(s, e)
    ensures SameReplaced(s, Apply(s, e)) <==> !Replaces(s, e)
  {
    match e
    case Resume(c, outcome, timeLeft) => ResumeReplaces(s, c, outcome, timeLeft);
    case ResumeTeardown(c) => TeardownReplacesNothing(s, c);
    case Start(_, _) => CallsReplaceNothing(s, e);
    case Disconnect(_) => CallsReplaceNothing(s, e);
    case Lost(_) => CallsReplaceNothing(s, e);
    case SessionLost(_) => WorldReplacesNothing(s, e);
    case Network(_) => WorldReplacesNothing(s, e);
    case _ => RetriesReplaceNothing(s, e);
  }
}
