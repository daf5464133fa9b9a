/** The last published status of an active application, event by event: which events publish for it,
    and what that makes of the status that its own connect left.
 */
module RuntimeStatus {
  import opened RuntimeModel
  import opened RuntimeInvariant
  import opened RuntimeMoves
  import RuntimeSteps

  // ---------- who publishes what ----------

  lemma ResumedTells(s: State, s': State, c: ConnId, outcome: Outcome, timeLeft: bool, a: AppId)
    requires c in s.connects && Resumed(s, s', c, outcome, timeLeft)
    ensures Told(s, s', Resume(c, outcome, timeLeft), a)
  {
  }

  lemma EarlyTeardownTells(s: State, c: ConnId, a: AppId)
    requires CanResumeTeardown(s, c) && !s.teardowns[c].stage.ReleasingLease?
    ensures Told(s, TeardownStep(s, c), ResumeTeardown(c), a)
  {
  }

  lemma LastTeardownTells(s: State, c: ConnId, a: AppId)
    requires CanResumeTeardown(s, c) && s.teardowns[c].stage.ReleasingLease?
    ensures Told(s, TeardownStep(s, c), ResumeTeardown(c), a)
  {
  }

  lemma TeardownTells(s: State, c: ConnId, a: AppId)
    requires CanResumeTeardown(s, c)
    ensures Told(s, TeardownStep(s, c), ResumeTeardown(c), a)
  {
    if s.teardowns[c].stage.ReleasingLease? { LastTeardownTells(s, c, a); } else { EarlyTeardownTells(s, c, a); }
  }

  lemma StartTells(s: State, e: Event, a: AppId)
    requires Enabled(s, e) && (e.Start? || e.RetryStarts?)
    ensures Told(s, Apply(s, e), e, a)
  {
  }

  /** What a failed attempt of retry `c` makes of the status of `a`. */
  predicate AttemptTold(s: State, s': State, c: ConnId, a: AppId)
    requires c in s.retries
  {
    if s.retries[c].app == a then Shows(s', a, AttemptWord(s.retries[c])) else SameLast(s, s', a)
  }

  lemma NextAttemptTells(s: State, c: ConnId, a: AppId)
    requires c in s.retries
    ensures AttemptTold(s, NextAttempt(s, c), c, a)
  {
    if s.retries[c].attempt + 1 < RETRIES { RetryAgainTells(s, c, a); } else { GivingUpTells(s, c, a); }
  }

  lemma RetryAgainTells(s: State, c: ConnId, a: AppId)
    requires c in s.retries && s.retries[c].attempt + 1 < RETRIES
    ensures AttemptTold(s, NextAttempt(s, c), c, a)
  {
  }

  lemma GivingUpTells(s: State, c: ConnId, a: AppId)
    requires c in s.retries && s.retries[c].attempt + 1 >= RETRIES
    ensures AttemptTold(s, NextAttempt(s, c), c, a)
  {
  }

  lemma RetryTells(s: State, e: Event, a: AppId)
    requires Enabled(s, e) && (e.RetryJoins? || e.RetryFails? || e.RetrySettles?)
    ensures Told(s, Apply(s, e), e, a)
  {
    if !e.RetryJoins? { NextAttemptTells(s, e.conn, a); }
  }

  lemma WorldTells(s: State, e: Event, a: AppId)
    requires Enabled(s, e) && (e.Disconnect? || e.Lost? || e.SessionLost? || e.Network?)
    ensures Told(s, Apply(s, e), e, a)
  {
  }

  lemma OthersTell(s: State, e: Event, a: AppId)
    requires Enabled(s, e) && !e.Resume?
    ensures Told(s, Apply(s, e), e, a)
  {
    if e.ResumeTeardown? { TeardownTells(s, e.conn, a); }
    else if e.Disconnect? || e.Lost? || e.SessionLost? || e.Network? { WorldTells(s, e, a); }
    else if e.Start? || e.RetryStarts? { StartTells(s, e, a); }
    else { RetryTells(s, e, a); }
  }

  /** A step leaves the status of `a` alone unless it publishes for `a`, and only a handover publishes 'healthy'. */
  lemma StepTells(s: State, e: Event, a: AppId)
    requires Inv(s) && Enabled(s, e)
    ensures Told(s, Apply(s, e), e, a)
  {
    if e.Resume? {
      ResumeShape(s, e.conn, e.outcome, e.timeLeft);
      ResumedTells(s, Apply(s, e), e.conn, e.outcome, e.timeLeft, a);
    } else {
      OthersTell(s, e, a);
    }
  }

  // ---------- an entry comes from its handover ----------

  predicate EntryOf(s: State, a: AppId, c: ConnId) {
    a in s.active && s.active[a].conn == c
  }

  lemma ResumedKeepsEntries(s: State, s': State, c: ConnId, outcome: Outcome, timeLeft: bool, a: AppId, d: ConnId)
    requires c in s.connects && Resumed(s, s', c, outcome, timeLeft) && EntryOf(s', a, d)
    ensures EntryOf(s, a, d) || (HandsOver(s, Resume(c, outcome, timeLeft), d) && s.connects[d].app.id == a)
  {
  }

  lemma DisconnectKeepsEntries(s: State, a: AppId, b: AppId, c: ConnId)
    requires EntryOf(DisconnectStep(s, a), b, c)
    ensures EntryOf(s, b, c)
  {
  }

  lemma LostKeepsEntries(s: State, a: AppId, b: AppId, c: ConnId)
    requires a in s.active && EntryOf(LostStep(s, a), b, c)
    ensures EntryOf(s, b, c)
  {
  }

  /** Nothing happened to connects, entries or stop commands. */
  predicate SameCalls(s: State, s': State) {
    s'.connects == s.connects && s'.settled == s.settled && s'.active == s.active && s'.stops == s.stops
      && s'.launched == s.launched
  }

  lemma TeardownClosesTunnel(s: State, c: ConnId)
    requires c in s.teardowns && (s.teardowns[c].stage.Stopping? || s.teardowns[c].stage.ClosingTunnel?)
    ensures SameCalls(s, TeardownStep(s, c))
  {
  }

  lemma TeardownGivesBack(s: State, c: ConnId)
    requires c in s.teardowns && (s.teardowns[c].stage.ReleasingReservation? || s.teardowns[c].stage.ReleasingLease?)
    ensures SameCalls(s, TeardownStep(s, c))
  {
  }

  lemma TeardownSameCalls(s: State, c: ConnId)
    requires c in s.teardowns
    ensures SameCalls(s, TeardownStep(s, c))
  {
    var stage := s.teardowns[c].stage;
    if stage.Stopping? || stage.ClosingTunnel? { TeardownClosesTunnel(s, c); } else { TeardownGivesBack(s, c); }
  }

  lemma NextAttemptSameCalls(s: State, c: ConnId)
    requires c in s.retries
    ensures SameCalls(s, NextAttempt(s, c))
  {
  }

  lemma RetrySameCalls(s: State, e: Event)
    requires Enabled(s, e) && (e.RetryJoins? || e.RetryFails? || e.RetrySettles?)
    ensures SameCalls(s, Apply(s, e))
  {
    if !e.RetryJoins? { NextAttemptSameCalls(s, e.conn); }
  }

  lemma WorldSameCalls(s: State, e: Event)
    requires Enabled(s, e) && (e.SessionLost? || e.Network?)
    ensures SameCalls(s, Apply(s, e))
  {
  }

  lemma QuietSameCalls(s: State, e: Event)
    requires Enabled(s, e) && (e.ResumeTeardown? || e.RetryJoins? || e.RetryFails? || e.RetrySettles?
        || e.SessionLost? || e.Network?)
    ensures SameCalls(s, Apply(s, e))
  {
    if e.ResumeTeardown? { TeardownSameCalls(s, e.conn); }
    else if e.SessionLost? || e.Network? { WorldSameCalls(s, e); }
    else { RetrySameCalls(s, e); }
  }

  lemma StartKeepsEntries(s: State, e: Event)
    requires Enabled(s, e) && (e.Start? || e.RetryStarts?)
    ensures Apply(s, e).active == s.active && Apply(s, e).stops == s.stops
  {
  }

  lemma OthersKeepEntries(s: State, e: Event, a: AppId, c: ConnId)
    requires Enabled(s, e) && !e.Resume? && EntryOf(Apply(s, e), a, c)
    ensures EntryOf(s, a, c)
  {
    match e
    case Disconnect(b) => DisconnectKeepsEntries(s, b, a, c);
    case Lost(b) => LostKeepsEntries(s, b, a, c);
    case Start(_, _) => StartKeepsEntries(s, e);
    case RetryStarts(_, _, _) => StartKeepsEntries(s, e);
    case _ => QuietSameCalls(s, e);
  }

  /** An entry is there before a step, or the step is its handover. */
  lemma EntryStep(s: State, e: Event, a: AppId, c: ConnId)
    requires Inv(s) && Enabled(s, e) && EntryOf(Apply(s, e), a, c)
    ensures EntryOf(s, a, c) || (HandsOver(s, e, c) && s.connects[c].app.id == a)
  {
    if e.Resume? {
      ResumeShape(s, e.conn, e.outcome, e.timeLeft);
      ResumedKeepsEntries(s, Apply(s, e), e.conn, e.outcome, e.timeLeft, a, c);
    } else {
      OthersKeepEntries(s, e, a, c);
    }
  }

  /** Connect `c` is past its handover. */
  predicate Past(s: State, c: ConnId) {
    c in s.settled || (c in s.connects && s.connects[c].pc.Announcing?)
  }

  lemma ResumedKeepsPast(s: State, s': State, d: ConnId, outcome: Outcome, timeLeft: bool, c: ConnId)
    requires d in s.connects && Resumed(s, s', d, outcome, timeLeft) && Past(s, c)
    ensures Past(s', c)
  {
  }

  lemma StartsKeepPast(s: State, e: Event, c: ConnId)
    requires Enabled(s, e) && (e.Start? || e.RetryStarts?) && Past(s, c)
    ensures Past(Apply(s, e), c)
  {
  }

  lemma StopKeepsConnects(s: State, a: AppId)
    requires a in s.active && WantsStop(s.active, a)
    ensures var s' := DisconnectStep(s, a);
            s'.connects == s.connects && s'.settled == s.settled && s'.launched == s.launched
  {
  }

  lemma PlainDisconnectKeepsConnects(s: State, a: AppId)
    requires a in s.active && !WantsStop(s.active, a)
    ensures var s' := DisconnectStep(s, a);
            s'.connects == s.connects && s'.settled == s.settled && s'.launched == s.launched
  {
  }

  lemma DisconnectKeepsConnects(s: State, a: AppId)
    ensures var s' := DisconnectStep(s, a);
            s'.connects == s.connects && s'.settled == s.settled && s'.launched == s.launched
  {
    if a in s.active {
      if WantsStop(s.active, a) { StopKeepsConnects(s, a); } else { PlainDisconnectKeepsConnects(s, a); }
    }
  }

  lemma LostKeepsConnects(s: State, a: AppId)
    requires a in s.active
    ensures var s' := LostStep(s, a);
            s'.connects == s.connects && s'.settled == s.settled && s'.launched == s.launched
  {
  }

  lemma OthersKeepPast(s: State, e: Event, c: ConnId)
    requires Enabled(s, e) && !e.Resume? && Past(s, c)
    ensures Past(Apply(s, e), c)
  {
    match e
    case Start(_, _) => StartsKeepPast(s, e, c);
    case RetryStarts(_, _, _) => StartsKeepPast(s, e, c);
    case Disconnect(a) => DisconnectKeepsConnects(s, a);
    case Lost(a) => LostKeepsConnects(s, a);
    case _ => QuietSameCalls(s, e);
  }

  lemma PastStays(s: State, e: Event, c: ConnId)
    requires Inv(s) && Enabled(s, e) && Past(s, c)
    ensures Past(Apply(s, e), c)
  {
    if e.Resume? {
      ResumeShape(s, e.conn, e.outcome, e.timeLeft);
      ResumedKeepsPast(s, Apply(s, e), e.conn, e.outcome, e.timeLeft, c);
    } else {
      OthersKeepPast(s, e, c);
    }
  }

  lemma PastHandsOverNoMore(s: State, e: Event, c: ConnId)
    requires Inv(s) && Past(s, c)
    ensures !HandsOver(s, e, c)
  {
    assert ConnectOk(s, c);
  }

  lemma HandoverIsPast(s: State, e: Event, c: ConnId)
    requires Enabled(s, e) && HandsOver(s, e, c)
    ensures Past(Apply(s, e), c)
  {
    HealthHands(s, c);
  }

  lemma StaysPastOnce(states: seq<State>, events: seq<Event>, k: nat, c: ConnId)
    requires IsRun(states, events) && k < |events| && Past(states[k], c)
    ensures Past(states[k + 1], c)
  {
    RuntimeSteps.RunKeepsInv(states, events, k);
    PastStays(states[k], events[k], c);
  }

  lemma StaysPast(states: seq<State>, events: seq<Event>, m: nat, n: nat, c: ConnId)
    requires IsRun(states, events) && m <= n <= |events| && Past(states[m], c)
    ensures Past(states[n], c)
  {
    var k := m;
    while k < n
      invariant m <= k <= n && Past(states[k], c)
    {
      StaysPastOnce(states, events, k, c);
      k := k + 1;
    }
  }

  /** Event `h` is the handover of connect `c`, for application `a`. */
  ghost predicate HandoverAt(states: seq<State>, events: seq<Event>, h: nat, c: ConnId, a: AppId)
    requires IsRun(states, events)
  {
    h < |events| && HandsOver(states[h], events[h], c) && states[h].connects[c].app.id == a
  }

  /** Every entry has its handover, after which it was there all the time. */
  lemma {:induction false} EntryHasHandover(states: seq<State>, events: seq<Event>, n: nat, a: AppId) returns (h: nat)
    requires IsRun(states, events) && n <= |events| && a in states[n].active
    ensures h < n && HandoverAt(states, events, h, states[n].active[a].conn, a)
    ensures forall m :: h < m <= n ==> EntryOf(states[m], a, states[n].active[a].conn)
  {
    var c := states[n].active[a].conn;
    RuntimeSteps.RunKeepsInv(states, events, n - 1);
    EntryStep(states[n - 1], events[n - 1], a, c);
    if EntryOf(states[n - 1], a, c) {
      h := EntryHasHandover(states, events, n - 1, a);
    } else {
      h := n - 1;
    }
  }

  lemma HandoverIsLast(states: seq<State>, events: seq<Event>, g: nat, h: nat, c: ConnId, a: AppId)
    requires IsRun(states, events) && g < h <= |events| && HandoverAt(states, events, g, c, a)
    ensures h < |events| ==> !HandsOver(states[h], events[h], c)
  {
    HandoverIsPast(states[g], events[g], c);
    StaysPast(states, events, g + 1, h, c);
    RuntimeSteps.RunKeepsInv(states, events, h);
    if h < |events| { PastHandsOverNoMore(states[h], events[h], c); }
  }

  // ---------- active and healthy ----------

  predicate IsHealthy(s: State, a: AppId) {
    Shows(s, a, SHealthy)
  }

  /** Nothing was published for `a` after event `h` and before state `n`. */
  ghost predicate Quiet(states: seq<State>, events: seq<Event>, h: nat, n: nat, a: AppId)
    requires n <= |events| <= |states|
  {
    forall m :: h < m < n ==> !Publishes(states[m], events[m], a)
  }

  lemma ActiveStep(s: State, e: Event, a: AppId)
    requires Inv(s) && Enabled(s, e) && a in s.active
    ensures IsHealthy(Apply(s, e), a) <==> IsHealthy(s, a) && !Publishes(s, e, a)
  {
    StepTells(s, e, a);
    if e.Resume? && HandsOver(s, e, e.conn) { RuntimeSteps.NeverOverwrites(s, e.conn); }
  }

  lemma HandoverIsHealthy(s: State, e: Event, c: ConnId)
    requires Inv(s) && Enabled(s, e) && HandsOver(s, e, c)
    ensures IsHealthy(Apply(s, e), s.connects[c].app.id)
  {
    StepTells(s, e, s.connects[c].app.id);
  }

  lemma QuietStep(states: seq<State>, events: seq<Event>, h: nat, n: nat, a: AppId)
    requires h < n < |events| <= |states|
    ensures Quiet(states, events, h, n + 1, a)
        <==> Quiet(states, events, h, n, a) && !Publishes(states[n], events[n], a)
  {
  }

  lemma OneMoreEvent(states: seq<State>, events: seq<Event>, h: nat, n: nat, a: AppId)
    requires IsRun(states, events) && h < n < |events| && a in states[n].active
    requires IsHealthy(states[n], a) <==> Quiet(states, events, h, n, a)
    ensures IsHealthy(states[n + 1], a) <==> Quiet(states, events, h, n + 1, a)
  {
    RuntimeSteps.RunKeepsInv(states, events, n);
    ActiveStep(states[n], events[n], a);
    QuietStep(states, events, h, n, a);
  }

  lemma JustHandedOver(states: seq<State>, events: seq<Event>, h: nat, c: ConnId, a: AppId)
    requires IsRun(states, events) && HandoverAt(states, events, h, c, a)
    ensures IsHealthy(states[h + 1], a)
  {
    RuntimeSteps.RunKeepsInv(states, events, h);
    HandoverIsHealthy(states[h], events[h], c);
  }

  lemma {:induction false} HealthyWhileQuiet(states: seq<State>, events: seq<Event>, h: nat, n: nat, c: ConnId,
      a: AppId)
    requires IsRun(states, events) && h < n <= |events| && HandoverAt(states, events, h, c, a)
    requires forall m :: h < m <= n ==> a in states[m].active
    ensures IsHealthy(states[n], a) <==> Quiet(states, events, h, n, a)
    decreases n
  {
    if h + 1 == n {
      JustHandedOver(states, events, h, c, a);
    } else {
      HealthyWhileQuiet(states, events, h, n - 1, c, a);
      OneMoreEvent(states, events, h, n - 1, a);
    }
  }

  /** The last status of an active application is 'healthy' if and only if no event after the handover of its
      entry published for it. */
  lemma ActiveIsHealthyExactly(states: seq<State>, events: seq<Event>, h: nat, n: nat, a: AppId)
    requires IsRun(states, events) && h < n <= |events| && a in states[n].active
    requires HandoverAt(states, events, h, states[n].active[a].conn, a)
    ensures IsHealthy(states[n], a) <==> Quiet(states, events, h, n, a)
  {
    var c := states[n].active[a].conn;
    var g := EntryHasHandover(states, events, n, a);
    if g < h { HandoverIsLast(states, events, g, h, c, a); }
    if h < g { HandoverIsLast(states, events, h, g, c, a); }
    HealthyWhileQuiet(states, events, h, n, c, a);
  }
}
