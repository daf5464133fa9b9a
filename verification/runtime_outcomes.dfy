/** How a connect call ends, told from the awaits it went through: it fails if and only if one of them failed, and
    it says and starts exactly what its awaits gave rise to.
 */
module RuntimeOutcomes {
  import opened RuntimeModel
  import opened RuntimeInvariant
  import opened RuntimeMoves
  import opened RuntimeStatus
  import RuntimeSteps

  // ---------- one connect call through one event ----------

  /** The event makes the call. */
  predicate Begins(e: Event, c: ConnId) {
    (e.Start? && e.conn == c) || (e.RetryStarts? && e.newConn == c)
  }

  predicate Resumes(s: State, e: Event, c: ConnId) {
    e.Resume? && e.conn == c && c in s.connects
  }

  predicate SameCall(s: State, s': State, c: ConnId) {
    && (c in s.connects <==> c in s'.connects) && (c in s.connects ==> s'.connects[c] == s.connects[c])
    && (c in s.settled <==> c in s'.settled) && (c in s.settled ==> s'.settled[c] == s.settled[c])
    && (c in s.launched <==> c in s'.launched)
  }

  lemma ResumedSameCall(s: State, s': State, d: ConnId, outcome: Outcome, timeLeft: bool, c: ConnId)
    requires d in s.connects && Resumed(s, s', d, outcome, timeLeft) && c != d
    ensures SameCall(s, s', c)
  {
  }

  lemma StartSameCall(s: State, e: Event, c: ConnId)
    requires Enabled(s, e) && (e.Start? || e.RetryStarts?) && !Begins(e, c)
    ensures SameCall(s, Apply(s, e), c)
  {
  }

  /** No other event concerns the call. */
  lemma OthersSameCall(s: State, e: Event, c: ConnId)
    requires Inv(s) && Enabled(s, e) && !Begins(e, c) && !Resumes(s, e, c)
    ensures SameCall(s, Apply(s, e), c)
  {
    match e
    case Start(_, _) => StartSameCall(s, e, c);
    case RetryStarts(_, _, _) => StartSameCall(s, e, c);
    case Resume(d, outcome, timeLeft) =>
      ResumeShape(s, d, outcome, timeLeft);
      ResumedSameCall(s, Apply(s, e), d, outcome, timeLeft, c);
    case Disconnect(a) => DisconnectKeepsConnects(s, a);
    case Lost(a) => LostKeepsConnects(s, a);
    case _ => QuietSameCalls(s, e);
  }

  lemma BeginsCall(s: State, e: Event, c: ConnId)
    requires Inv(s) && Enabled(s, e) && Begins(e, c)
    ensures Unborn(s, c) && c !in s.launched && c !in Apply(s, e).launched && c !in Apply(s, e).settled
    ensures c in Apply(s, e).connects && Apply(s, e).connects[c] == Connect(e.app, Checking, false, [SChecking])
  {
    assert OwnedOk(s, c);
  }

  // ---------- success and failure ----------

  /** An await of the call fails. */
  predicate FailsAt(s: State, e: Event, c: ConnId) {
    Resumes(s, e, c) && Fails(s, c, e.outcome, e.timeLeft)
  }

  predicate HasFailed(s: State, c: ConnId) {
    || (c in s.connects && (s.connects[c].pc.Unwinding? || s.connects[c].pc.Failing?))
    || (c in s.settled && !s.settled[c].ok)
  }

  predicate HasSucceeded(s: State, c: ConnId) {
    (c in s.connects && s.connects[c].pc.Announcing?) || (c in s.settled && s.settled[c].ok)
  }

  lemma ResumedFails(s: State, s': State, c: ConnId, outcome: Outcome, timeLeft: bool)
    requires c in s.connects && c !in s.settled && Resumed(s, s', c, outcome, timeLeft)
    ensures HasFailed(s', c) <==> HasFailed(s, c) || Fails(s, c, outcome, timeLeft)
    ensures HasSucceeded(s', c) <==> HasSucceeded(s, c) || (s.connects[c].pc.HealthChecking? && outcome.Yes?)
  {
  }

  lemma FailureStep(s: State, e: Event, c: ConnId)
    requires Inv(s) && Enabled(s, e)
    ensures HasFailed(Apply(s, e), c) <==> HasFailed(s, c) || FailsAt(s, e, c)
    ensures HasSucceeded(Apply(s, e), c) <==> HasSucceeded(s, c) || HandsOver(s, e, c)
  {
    if Begins(e, c) { BeginsCall(s, e, c); }
    else if Resumes(s, e, c) {
      assert ConnectOk(s, c);
      ResumeShape(s, c, e.outcome, e.timeLeft);
      ResumedFails(s, Apply(s, e), c, e.outcome, e.timeLeft);
    } else {
      OthersSameCall(s, e, c);
    }
  }

  ghost predicate FailedBefore(states: seq<State>, events: seq<Event>, n: nat, c: ConnId)
    requires n <= |events| <= |states|
  {
    exists m :: 0 <= m < n && FailsAt(states[m], events[m], c)
  }

  ghost predicate HandedOverBefore(states: seq<State>, events: seq<Event>, n: nat, c: ConnId)
    requires n <= |events| <= |states|
  {
    exists m :: 0 <= m < n && HandsOver(states[m], events[m], c)
  }

  lemma OneMoreFailure(states: seq<State>, events: seq<Event>, n: nat, c: ConnId)
    requires n < |events| <= |states|
    ensures FailedBefore(states, events, n + 1, c)
        <==> FailedBefore(states, events, n, c) || FailsAt(states[n], events[n], c)
    ensures HandedOverBefore(states, events, n + 1, c)
        <==> HandedOverBefore(states, events, n, c) || HandsOver(states[n], events[n], c)
  {
  }

  lemma {:induction false} FailedExactly(states: seq<State>, events: seq<Event>, n: nat, c: ConnId)
    requires IsRun(states, events) && n <= |events|
    ensures HasFailed(states[n], c) <==> FailedBefore(states, events, n, c)
    ensures HasSucceeded(states[n], c) <==> HandedOverBefore(states, events, n, c)
  {
    if n > 0 {
      FailedExactly(states, events, n - 1, c);
      RuntimeSteps.RunKeepsInv(states, events, n - 1);
      FailureStep(states[n - 1], events[n - 1], c);
      OneMoreFailure(states, events, n - 1, c);
    }
  }

  /** A call that has settled succeeded if and only if none of its awaits failed, and if and only if its health check
      passed and its entry was stored; one that runs fails already if and only if an await has failed. */
  lemma SucceedsExactly(states: seq<State>, events: seq<Event>, n: nat, c: ConnId)
    requires IsRun(states, events) && n <= |events|
    ensures c in states[n].settled ==>
              && (states[n].settled[c].ok <==> !FailedBefore(states, events, n, c))
              && (states[n].settled[c].ok <==> HandedOverBefore(states, events, n, c))
    ensures c in states[n].connects ==>
              var pc := states[n].connects[c].pc;
              FailedBefore(states, events, n, c) <==> pc.Unwinding? || pc.Failing?
  {
    FailedExactly(states, events, n, c);
    RuntimeSteps.RunKeepsInv(states, events, n);
    assert ConnectOk(states[n], c);
  }

  // ---------- what a call has said ----------

  function Said(s: State, c: ConnId): seq<Status> {
    if c in s.connects then s.connects[c].trace else if c in s.settled then s.settled[c].trace else []
  }

  /** The event makes the call publish `word`. */
  predicate SaysAt(s: State, e: Event, c: ConnId, word: Status) {
    && Resumes(s, e, c)
    && var k := s.connects[c];
       match word
       case SConnecting => k.pc.Reserving? && e.outcome.Yes?
       case SStarting => k.pc.Probing? && e.outcome.No? && k.app.autoStart && k.app.hasStartCommand
       case STunneling => (k.pc.Probing? || k.pc.Polling?) && e.outcome.Yes?
       case SHealthy => k.pc.HealthChecking? && e.outcome.Yes?
       case SError => k.pc == Unwinding(ReleasingLease)
       case _ => false
  }

  lemma ResumedSays(s: State, s': State, c: ConnId, outcome: Outcome, timeLeft: bool, word: Status)
    requires c in s.connects && c !in s.settled && Resumed(s, s', c, outcome, timeLeft)
    ensures word in Said(s', c) <==> word in Said(s, c) || SaysAt(s, Resume(c, outcome, timeLeft), c, word)
  {
  }

  lemma SaysStep(s: State, e: Event, c: ConnId, word: Status)
    requires Inv(s) && Enabled(s, e) && word != SChecking
    ensures word in Said(Apply(s, e), c) <==> word in Said(s, c) || SaysAt(s, e, c, word)
  {
    if Begins(e, c) { BeginsCall(s, e, c); }
    else if Resumes(s, e, c) {
      assert ConnectOk(s, c);
      ResumeShape(s, c, e.outcome, e.timeLeft);
      ResumedSays(s, Apply(s, e), c, e.outcome, e.timeLeft, word);
    } else {
      OthersSameCall(s, e, c);
    }
  }

  ghost predicate SaidBefore(states: seq<State>, events: seq<Event>, n: nat, c: ConnId, word: Status)
    requires n <= |events| <= |states|
  {
    exists m :: 0 <= m < n && SaysAt(states[m], events[m], c, word)
  }

  lemma OneMoreWord(states: seq<State>, events: seq<Event>, n: nat, c: ConnId, word: Status)
    requires n < |events| <= |states|
    ensures SaidBefore(states, events, n + 1, c, word)
        <==> SaidBefore(states, events, n, c, word) || SaysAt(states[n], events[n], c, word)
  {
  }

  lemma SaysOnce(states: seq<State>, events: seq<Event>, n: nat, c: ConnId, word: Status)
    requires IsRun(states, events) && n < |events| && word != SChecking
    ensures word in Said(states[n + 1], c) <==> word in Said(states[n], c) || SaysAt(states[n], events[n], c, word)
  {
    RuntimeSteps.RunKeepsInv(states, events, n);
    SaysStep(states[n], events[n], c, word);
  }

  /** A call has published 'connecting' if and only if it got its reservation, 'starting' if and only if the first
      probe said no and it may start the application, 'tunneling' if and only if a probe said yes, 'healthy' if and
      only if the health check passed. */
  lemma {:induction false} SaidExactly(states: seq<State>, events: seq<Event>, n: nat, c: ConnId, word: Status)
    requires IsRun(states, events) && n <= |events| && word != SChecking
    ensures word in Said(states[n], c) <==> SaidBefore(states, events, n, c, word)
  {
    if n > 0 {
      SaidExactly(states, events, n - 1, c, word);
      SaysOnce(states, events, n - 1, c, word);
      OneMoreWord(states, events, n - 1, c, word);
    }
  }

  // ---------- what a call has started ----------

  predicate LaunchesAt(s: State, e: Event, c: ConnId) {
    Resumes(s, e, c) && s.connects[c].pc.Launching? && e.outcome.Yes?
  }

  lemma LaunchStep(s: State, e: Event, c: ConnId)
    requires Inv(s) && Enabled(s, e)
    ensures c in Apply(s, e).launched <==> c in s.launched || LaunchesAt(s, e, c)
  {
    if Begins(e, c) { BeginsCall(s, e, c); }
    else if Resumes(s, e, c) { ResumeShape(s, c, e.outcome, e.timeLeft); }
    else { OthersSameCall(s, e, c); }
  }

  ghost predicate LaunchedBefore(states: seq<State>, events: seq<Event>, n: nat, c: ConnId)
    requires n <= |events| <= |states|
  {
    exists m :: 0 <= m < n && LaunchesAt(states[m], events[m], c)
  }

  lemma OneMoreLaunch(states: seq<State>, events: seq<Event>, n: nat, c: ConnId)
    requires n < |events| <= |states|
    ensures LaunchedBefore(states, events, n + 1, c)
        <==> LaunchedBefore(states, events, n, c) || LaunchesAt(states[n], events[n], c)
  {
  }

  lemma LaunchesOnce(states: seq<State>, events: seq<Event>, n: nat, c: ConnId)
    requires IsRun(states, events) && n < |events|
    ensures c in states[n + 1].launched <==> c in states[n].launched || LaunchesAt(states[n], events[n], c)
  {
    RuntimeSteps.RunKeepsInv(states, events, n);
    LaunchStep(states[n], events[n], c);
  }

  /** The start command of a call has run if and only if its execDetached resolved. */
  lemma {:induction false} LaunchedExactly(states: seq<State>, events: seq<Event>, n: nat, c: ConnId)
    requires IsRun(states, events) && n <= |events|
    ensures c in states[n].launched <==> LaunchedBefore(states, events, n, c)
  {
    if n > 0 {
      LaunchedExactly(states, events, n - 1, c);
      LaunchesOnce(states, events, n - 1, c);
      OneMoreLaunch(states, events, n - 1, c);
    }
  }

  /** Past execDetached the flag is set if 'starting' was published, and before it is not. */
  predicate StartedOk(s: State, c: ConnId) {
    && (c in s.connects && !HasFailed(s, c) ==>
          var k := s.connects[c];
          k.started <==> SStarting in k.trace && !k.pc.Starting? && !k.pc.Launching?)
    && (c in s.settled && s.settled[c].ok ==> (c in s.launched <==> SStarting in s.settled[c].trace))
  }

  lemma ResumedStarted(s: State, s': State, c: ConnId, outcome: Outcome, timeLeft: bool)
    requires Inv(s) && c in s.connects && Resumed(s, s', c, outcome, timeLeft) && StartedOk(s, c)
    ensures StartedOk(s', c)
  {
    assert ConnectOk(s, c);
  }

  lemma StartedStep(s: State, e: Event, c: ConnId)
    requires Inv(s) && Enabled(s, e) && StartedOk(s, c)
    ensures StartedOk(Apply(s, e), c)
  {
    if Begins(e, c) { BeginsCall(s, e, c); }
    else if Resumes(s, e, c) {
      ResumeShape(s, c, e.outcome, e.timeLeft);
      ResumedStarted(s, Apply(s, e), c, e.outcome, e.timeLeft);
    } else {
      OthersSameCall(s, e, c);
    }
  }

  lemma {:induction false} RunStartedOk(states: seq<State>, events: seq<Event>, n: nat, c: ConnId)
    requires IsRun(states, events) && n <= |events|
    ensures StartedOk(states[n], c)
  {
    if n > 0 {
      RunStartedOk(states, events, n - 1, c);
      RuntimeSteps.RunKeepsInv(states, events, n - 1);
      StartedStep(states[n - 1], events[n - 1], c);
    }
  }

  lemma SucceededSaid(trace: seq<Status>)
    requires Succeeded(trace)
    ensures SConnecting in trace && STunneling in trace
  {
    assert trace[1] == SConnecting && trace[|trace| - 2] == STunneling;
  }

  /** A call that succeeded has seen its port answer, and has run the start command if and only if it published
      'starting'; a running call and an active entry know from their flag whether theirs has run. */
  lemma SuccessWasEarned(states: seq<State>, events: seq<Event>, n: nat, c: ConnId, a: AppId)
    requires IsRun(states, events) && n <= |events|
    ensures c in states[n].settled && states[n].settled[c].ok ==>
              && SaidBefore(states, events, n, c, SConnecting) && SaidBefore(states, events, n, c, STunneling)
              && (LaunchedBefore(states, events, n, c) <==> SaidBefore(states, events, n, c, SStarting))
    ensures c in states[n].connects ==> (states[n].connects[c].started <==> LaunchedBefore(states, events, n, c))
    ensures a in states[n].active ==>
              (states[n].active[a].started <==> LaunchedBefore(states, events, n, states[n].active[a].conn))
  {
    RuntimeSteps.RunKeepsInv(states, events, n);
    assert ConnectOk(states[n], c) && OwnedOk(states[n], c) && ActiveOk(states[n], a);
    if c in states[n].settled && states[n].settled[c].ok { SucceededSaid(states[n].settled[c].trace); }
    LaunchedExactly(states, events, n, c);
    if a in states[n].active { LaunchedExactly(states, events, n, states[n].active[a].conn); }
    RunStartedOk(states, events, n, c);
    SaidExactly(states, events, n, c, SConnecting);
    SaidExactly(states, events, n, c, STunneling);
    SaidExactly(states, events, n, c, SStarting);
  }
}
