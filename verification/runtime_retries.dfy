/** What becomes of an entry that leaves: its teardown gives everything back and says so, and one that its session
    left is tried again, three times.
 */
module RuntimeRetries {
  import opened RuntimeModel
  import opened RuntimeInvariant
  import opened RuntimeMoves
  import opened RuntimeStatus
  import RuntimeSteps
  import RuntimeStops

  // ---------- one teardown through one event ----------

  /** The event takes the entry of connect `c` out of the map. */
  predicate TakesDown(s: State, e: Event, c: ConnId) {
    (e.Disconnect? || e.Lost?) && e.id in s.active && s.active[e.id].conn == c
  }

  predicate TearsOn(s: State, e: Event, c: ConnId) {
    e.ResumeTeardown? && e.conn == c && c in s.teardowns
  }

  predicate SameTeardown(s: State, s': State, c: ConnId) {
    (c in s.teardowns <==> c in s'.teardowns) && (c in s.teardowns ==> s'.teardowns[c] == s.teardowns[c])
  }

  predicate SameTeardowns(s: State, s': State) {
    s'.teardowns == s.teardowns
  }

  lemma DisconnectSameTeardown(s: State, a: AppId, c: ConnId)
    requires a in s.active ==> s.active[a].conn != c
    ensures SameTeardown(s, DisconnectStep(s, a), c)
  {
  }

  lemma LostSameTeardown(s: State, a: AppId, c: ConnId)
    requires a in s.active && s.active[a].conn != c
    ensures SameTeardown(s, LostStep(s, a), c)
  {
  }

  lemma OtherSameTeardown(s: State, d: ConnId, c: ConnId)
    requires d in s.teardowns && d != c
    ensures SameTeardown(s, TeardownStep(s, d), c)
  {
  }

  lemma StartSameTeardowns(s: State, e: Event)
    requires Enabled(s, e) && (e.Start? || e.RetryStarts?)
    ensures SameTeardowns(s, Apply(s, e))
  {
  }

  lemma RetrySameTeardowns(s: State, e: Event)
    requires Enabled(s, e) && (e.RetryJoins? || e.RetryFails? || e.RetrySettles?)
    ensures SameTeardowns(s, Apply(s, e))
  {
  }

  lemma OthersSameTeardown(s: State, e: Event, c: ConnId)
    requires Inv(s) && Enabled(s, e) && !TakesDown(s, e, c) && !TearsOn(s, e, c)
    ensures SameTeardown(s, Apply(s, e), c)
  {
    match e
    case Start(_, _) => StartSameTeardowns(s, e);
    case RetryStarts(_, _, _) => StartSameTeardowns(s, e);
    case Resume(d, outcome, timeLeft) => ResumeShape(s, d, outcome, timeLeft);
    case Disconnect(a) => DisconnectSameTeardown(s, a, c);
    case Lost(a) => LostSameTeardown(s, a, c);
    case ResumeTeardown(d) => OtherSameTeardown(s, d, c);
    case SessionLost(_) =>
    case Network(_) =>
    case _ => RetrySameTeardowns(s, e);
  }

  /** The entry is gone at once, and a teardown has it. */
  lemma TakesDownStep(s: State, e: Event, c: ConnId)
    requires Inv(s) && Enabled(s, e) && TakesDown(s, e, c)
    ensures c !in s.teardowns && Apply(s, e).active == s.active - {e.id}
    ensures var s' := Apply(s, e);
            && c in s'.teardowns && s'.teardowns[c].entry == s.active[e.id]
            && s'.teardowns[c].kind == if e.Disconnect? then Disconnecting else Recovering
  {
    assert ActiveOk(s, e.id);
  }

  function NextStage(stage: Stage): Stage
    requires !stage.ReleasingLease?
  {
    match stage
    case Stopping => ClosingTunnel
    case ClosingTunnel => ReleasingReservation
    case ReleasingReservation => ReleasingLease
  }

  predicate StageOver(s: State, s': State, c: ConnId)
    requires c in s.teardowns && !s.teardowns[c].stage.ReleasingLease?
  {
    var d := s.teardowns[c];
    && s'.teardowns == s.teardowns[c := Teardown(d.kind, d.entry, NextStage(d.stage))]
    && s'.retries == s.retries && s'.last == s.last
  }

  lemma StopOver(s: State, c: ConnId)
    requires c in s.teardowns && s.teardowns[c].stage.Stopping?
    ensures StageOver(s, TeardownStep(s, c), c)
  {
  }

  lemma TunnelOver(s: State, c: ConnId)
    requires c in s.teardowns && s.teardowns[c].stage.ClosingTunnel?
    ensures StageOver(s, TeardownStep(s, c), c)
  {
  }

  lemma ReservationOver(s: State, c: ConnId)
    requires c in s.teardowns && s.teardowns[c].stage.ReleasingReservation?
    ensures StageOver(s, TeardownStep(s, c), c)
  {
  }

  /** A teardown goes through its stages. */
  lemma TearsOnStep(s: State, c: ConnId)
    requires c in s.teardowns && !s.teardowns[c].stage.ReleasingLease?
    ensures StageOver(s, TeardownStep(s, c), c)
  {
    match s.teardowns[c].stage
    case Stopping => StopOver(s, c);
    case ClosingTunnel => TunnelOver(s, c);
    case ReleasingReservation => ReservationOver(s, c);
  }

  predicate LastStageOver(s: State, s': State, c: ConnId)
    requires c in s.teardowns
  {
    var d := s.teardowns[c];
    && s'.teardowns == s.teardowns - {c} && s'.tunnels == s.tunnels && s'.pool == s.pool
    && s'.retries == (if d.kind.Recovering? then s.retries[c := Waiting(d.entry.app.id, 0)] else s.retries)
    && Shows(s', d.entry.app.id, if d.kind.Recovering? then SConnecting else SDisconnected)
  }

  lemma DisconnectOver(s: State, c: ConnId)
    requires c in s.teardowns && s.teardowns[c].stage.ReleasingLease? && s.teardowns[c].kind.Disconnecting?
    ensures LastStageOver(s, TeardownStep(s, c), c)
  {
  }

  lemma RecoveryOver(s: State, c: ConnId)
    requires c in s.teardowns && s.teardowns[c].stage.ReleasingLease? && s.teardowns[c].kind.Recovering?
    ensures LastStageOver(s, TeardownStep(s, c), c)
  {
  }

  /** After its last stage it publishes, and a lost session is to be tried again. */
  lemma LastStageStep(s: State, c: ConnId)
    requires c in s.teardowns && s.teardowns[c].stage.ReleasingLease?
    ensures LastStageOver(s, TeardownStep(s, c), c)
  {
    if s.teardowns[c].kind.Recovering? { RecoveryOver(s, c); } else { DisconnectOver(s, c); }
  }

  // ---------- the story of a teardown ----------

  /** Event `h` took the entry of connect `c` out of the map, and its teardown is under way in all states up to `n`. */
  ghost predicate TornSince(states: seq<State>, events: seq<Event>, h: nat, n: nat, c: ConnId)
    requires n <= |events| < |states|
  {
    && h < n && TakesDown(states[h], events[h], c)
    && (forall m :: h < m <= n ==>
          && c in states[m].teardowns
          && states[m].teardowns[c].entry == states[h].active[events[h].id]
          && states[m].teardowns[c].kind == if events[h].Disconnect? then Disconnecting else Recovering)
  }

  lemma TeardownLasts(s: State, e: Event, c: ConnId)
    requires Inv(s) && Enabled(s, e) && c in Apply(s, e).teardowns && !TakesDown(s, e, c)
    ensures c in s.teardowns && Apply(s, e).teardowns[c].entry == s.teardowns[c].entry
    ensures Apply(s, e).teardowns[c].kind == s.teardowns[c].kind
  {
    if TearsOn(s, e, c) {
      if s.teardowns[c].stage.ReleasingLease? { LastStageStep(s, c); } else { TearsOnStep(s, c); }
    } else {
      OthersSameTeardown(s, e, c);
    }
  }

  lemma TeardownLastsOnce(states: seq<State>, events: seq<Event>, n: nat, c: ConnId)
    requires IsRun(states, events) && n < |events| && c in states[n + 1].teardowns
    ensures TakesDown(states[n], events[n], c) ==> TornSince(states, events, n, n + 1, c)
    ensures !TakesDown(states[n], events[n], c) ==>
              && c in states[n].teardowns && states[n + 1].teardowns[c].entry == states[n].teardowns[c].entry
              && states[n + 1].teardowns[c].kind == states[n].teardowns[c].kind
  {
    RuntimeSteps.RunKeepsInv(states, events, n);
    if TakesDown(states[n], events[n], c) {
      TakesDownStep(states[n], events[n], c);
    } else {
      TeardownLasts(states[n], events[n], c);
    }
  }

  /** Every teardown was begun by one disconnect or one lost session, whose entry it has kept. */
  lemma {:induction false} TeardownHasOrigin(states: seq<State>, events: seq<Event>, n: nat, c: ConnId)
    returns (h: nat)
    requires IsRun(states, events) && n <= |events| && c in states[n].teardowns
    ensures TornSince(states, events, h, n, c)
  {
    TeardownLastsOnce(states, events, n - 1, c);
    h := n - 1;
    if !TakesDown(states[n - 1], events[n - 1], c) { h := TeardownHasOrigin(states, events, n - 1, c); }
  }

  lemma OnlyLastStageEnds(s: State, e: Event, c: ConnId)
    requires Inv(s) && Enabled(s, e) && c in s.teardowns && c !in Apply(s, e).teardowns
    ensures TearsOn(s, e, c) && s.teardowns[c].stage.ReleasingLease?
  {
    assert TeardownOk(s, c);
    if TakesDown(s, e, c) { TakesDownStep(s, e, c); }
    else if !TearsOn(s, e, c) { OthersSameTeardown(s, e, c); }
    else if !s.teardowns[c].stage.ReleasingLease? { TearsOnStep(s, c); }
  }

  lemma EndGivesBack(s: State, e: Event, c: ConnId)
    requires Inv(s) && Enabled(s, e) && TearsOn(s, e, c) && s.teardowns[c].stage.ReleasingLease?
    ensures var s' := Apply(s, e);
            && c in s'.tunnels.held && s'.tunnels.held[c].phase.Released?
            && c in s'.pool.leases && s'.pool.leases[c].released
  {
    assert TeardownOk(s, c);
    LastStageStep(s, c);
  }

  /** When a teardown ends, reservation and lease are back; a disconnect has published 'disconnected', and a lost
      session has published 'connecting' and waits for its first attempt. */
  lemma TeardownEnds(states: seq<State>, events: seq<Event>, n: nat, c: ConnId) returns (h: nat)
    requires IsRun(states, events) && n < |events| && c in states[n].teardowns && c !in states[n + 1].teardowns
    ensures TornSince(states, events, h, n, c)
    ensures var s' := states[n + 1];
            && c in s'.tunnels.held && s'.tunnels.held[c].phase.Released?
            && c in s'.pool.leases && s'.pool.leases[c].released
            && Shows(s', states[h].active[events[h].id].app.id, if events[h].Lost? then SConnecting else SDisconnected)
            && (events[h].Lost? ==>
                  c in s'.retries && s'.retries[c] == Waiting(states[h].active[events[h].id].app.id, 0))
            && (events[h].Disconnect? ==> c !in s'.retries)
  {
    h := TeardownHasOrigin(states, events, n, c);
    RuntimeSteps.RunKeepsInv(states, events, n);
    OnlyLastStageEnds(states[n], events[n], c);
    EndGivesBack(states[n], events[n], c);
    LastStageStep(states[n], c);
    if c in states[n].retries { RetriesAreGone(states, events, n, c); }
  }

  // ---------- a retry and its entry ----------

  lemma TornIsGone(s: State, c: ConnId)
    requires Inv(s) && c in s.teardowns
    ensures RuntimeStops.Gone(s, c)
  {
    assert TeardownOk(s, c) && OwnedOk(s, c);
    forall a ensures !EntryOf(s, a, c) { assert ActiveOk(s, a); }
  }

  /** The event is about retry `c`. */
  predicate Tries(s: State, e: Event, c: ConnId) {
    && (e.RetryJoins? || e.RetryStarts? || e.RetryFails? || e.RetrySettles?)
    && e.conn == c && c in s.retries
  }

  /** The event ends the teardown of a lost session. */
  predicate Recovers(s: State, e: Event, c: ConnId) {
    TearsOn(s, e, c) && s.teardowns[c].stage.ReleasingLease? && s.teardowns[c].kind.Recovering?
  }

  predicate SameRetry(s: State, s': State, c: ConnId) {
    (c in s.retries <==> c in s'.retries) && (c in s.retries ==> s'.retries[c] == s.retries[c])
  }

  lemma TeardownSameRetry(s: State, d: ConnId, c: ConnId)
    requires CanResumeTeardown(s, d)
    requires d == c ==> !s.teardowns[d].stage.ReleasingLease? || s.teardowns[d].kind.Disconnecting?
    ensures SameRetry(s, TeardownStep(s, d), c)
  {
    if s.teardowns[d].stage.ReleasingLease? { LastStageStep(s, d); } else { TearsOnStep(s, d); }
  }

  lemma StopSameRetries(s: State, a: AppId)
    requires a in s.active && WantsStop(s.active, a)
    ensures DisconnectStep(s, a).retries == s.retries
  {
  }

  lemma PlainSameRetries(s: State, a: AppId)
    requires a in s.active && !WantsStop(s.active, a)
    ensures DisconnectStep(s, a).retries == s.retries
  {
  }

  lemma DisconnectSameRetries(s: State, a: AppId)
    ensures DisconnectStep(s, a).retries == s.retries
  {
    if a in s.active {
      if WantsStop(s.active, a) { StopSameRetries(s, a); } else { PlainSameRetries(s, a); }
    }
  }

  lemma LostSameRetries(s: State, a: AppId)
    requires a in s.active
    ensures LostStep(s, a).retries == s.retries
  {
  }

  lemma OtherFailsSameRetry(s: State, d: ConnId, c: ConnId)
    requires d in s.retries && d != c
    ensures SameRetry(s, NextAttempt(s, d), c)
  {
  }

  lemma OtherSameRetry(s: State, e: Event, c: ConnId)
    requires Enabled(s, e) && (e.RetryJoins? || e.RetryStarts? || e.RetryFails? || e.RetrySettles?) && e.conn != c
    ensures SameRetry(s, Apply(s, e), c)
  {
    if e.RetryFails? || e.RetrySettles? { OtherFailsSameRetry(s, e.conn, c); }
  }

  lemma OthersSameRetry(s: State, e: Event, c: ConnId)
    requires Inv(s) && Enabled(s, e) && !Tries(s, e, c) && !Recovers(s, e, c)
    ensures SameRetry(s, Apply(s, e), c)
  {
    match e
    case Start(_, _) =>
    case Resume(d, outcome, timeLeft) => ResumeShape(s, d, outcome, timeLeft);
    case Disconnect(a) => DisconnectSameRetries(s, a);
    case Lost(a) => LostSameRetries(s, a);
    case ResumeTeardown(d) => TeardownSameRetry(s, d, c);
    case SessionLost(_) =>
    case Network(_) =>
    case _ => OtherSameRetry(s, e, c);
  }

  /** A retry stands for an entry that left for good and whose teardown is over. */
  ghost predicate RetryOk(s: State, c: ConnId) {
    c in s.retries ==> RuntimeStops.Gone(s, c) && c !in s.teardowns
  }

  lemma TriesKeepsTeardowns(s: State, e: Event, c: ConnId)
    requires Inv(s) && Enabled(s, e) && Tries(s, e, c)
    ensures SameTeardowns(s, Apply(s, e))
  {
    if e.RetryStarts? { StartSameTeardowns(s, e); } else { RetrySameTeardowns(s, e); }
  }

  lemma RetryOkStep(s: State, e: Event, c: ConnId)
    requires Inv(s) && Enabled(s, e) && RetryOk(s, c)
    ensures RetryOk(Apply(s, e), c)
  {
    if Recovers(s, e, c) {
      TornIsGone(s, c);
      RuntimeStops.GoneStays(s, e, c);
      LastStageStep(s, c);
    } else if c in s.retries {
      RuntimeStops.GoneStays(s, e, c);
      if TakesDown(s, e, c) { assert EntryOf(s, e.id, c); }
      if Tries(s, e, c) { TriesKeepsTeardowns(s, e, c); } else { OthersSameTeardown(s, e, c); }
    } else {
      if !Tries(s, e, c) { OthersSameRetry(s, e, c); }
    }
  }

  lemma RetryOkOnce(states: seq<State>, events: seq<Event>, n: nat, c: ConnId)
    requires IsRun(states, events) && n < |events| && RetryOk(states[n], c)
    ensures RetryOk(states[n + 1], c)
  {
    RuntimeSteps.RunKeepsInv(states, events, n);
    RetryOkStep(states[n], events[n], c);
  }

  lemma {:induction false} RetriesAreGone(states: seq<State>, events: seq<Event>, n: nat, c: ConnId)
    requires IsRun(states, events) && n <= |events|
    ensures RetryOk(states[n], c)
  {
    if n > 0 {
      RetriesAreGone(states, events, n - 1, c);
      RetryOkOnce(states, events, n - 1, c);
    }
  }

  // ---------- the attempts ----------

  /** The attempt of retry `c` fails: connect throws at once, or the call it waits for settles without success. */
  predicate AttemptFails(s: State, e: Event, c: ConnId) {
    && c in s.retries
    && (|| e == RetryFails(c)
        || (e == RetrySettles(c) && s.retries[c].Joined? && s.retries[c].conn in s.settled
              && !s.settled[s.retries[c].conn].ok))
  }

  /** The call it waits for settles with success. */
  predicate AttemptSucceeds(s: State, e: Event, c: ConnId) {
    && c in s.retries && e == RetrySettles(c) && s.retries[c].Joined?
    && s.retries[c].conn in s.settled && s.settled[s.retries[c].conn].ok
  }

  /** How many attempts of retry `c` failed from event `h` on, before state `n`. */
  ghost function Failures(states: seq<State>, events: seq<Event>, h: nat, n: nat, c: ConnId): nat
    requires h <= n <= |events| <= |states|
    decreases n
  {
    if h == n then 0
    else Failures(states, events, h, n - 1, c) + if AttemptFails(states[n - 1], events[n - 1], c) then 1 else 0
  }

  /** A failed attempt is followed by the next one or, the third time, by the end of the loop. */
  lemma AttemptFailsStep(s: State, e: Event, c: ConnId)
    requires Enabled(s, e) && AttemptFails(s, e, c)
    ensures var s', r := Apply(s, e), s.retries[c];
            if r.attempt < 2 then
              c in s'.retries && s'.retries[c] == Waiting(r.app, r.attempt + 1) && Shows(s', r.app, SConnecting)
            else c !in s'.retries && Shows(s', r.app, SError)
  {
  }

  lemma AttemptSucceedsStep(s: State, e: Event, c: ConnId)
    requires Enabled(s, e) && AttemptSucceeds(s, e, c)
    ensures c !in Apply(s, e).retries && Apply(s, e).last == s.last
  {
  }

  /** Neither: the retry joins the call in flight, or begins one. */
  lemma AttemptJoinsStep(s: State, e: Event, c: ConnId)
    requires Enabled(s, e) && Tries(s, e, c) && !AttemptFails(s, e, c) && !AttemptSucceeds(s, e, c)
    ensures var s', r := Apply(s, e), s.retries[c];
            && r.app in s'.inFlight
            && c in s'.retries && s'.retries[c] == Joined(r.app, r.attempt, s'.inFlight[r.app])
  {
  }

  /** The retry of the lost session of application `a`, whose teardown ended with event `h`, waits in every state up
      to `n`, and counts its failures. */
  ghost predicate TriedSince(states: seq<State>, events: seq<Event>, h: nat, n: nat, c: ConnId, a: AppId)
    requires n <= |events| < |states|
  {
    && h < n && Recovers(states[h], events[h], c) && states[h].teardowns[c].entry.app.id == a
    && (forall m :: h < m <= n ==> Counted(states, events, h, m, c, a))
  }

  ghost predicate Counted(states: seq<State>, events: seq<Event>, h: nat, m: nat, c: ConnId, a: AppId)
    requires h < m <= |events| < |states|
  {
    && c in states[m].retries && states[m].retries[c].app == a
    && states[m].retries[c].attempt == Failures(states, events, h + 1, m, c) < 3
  }

  lemma JustRecovered(states: seq<State>, events: seq<Event>, h: nat, c: ConnId)
    requires IsRun(states, events) && h < |events| && Recovers(states[h], events[h], c)
    ensures TriedSince(states, events, h, h + 1, c, states[h].teardowns[c].entry.app.id)
  {
    LastStageStep(states[h], c);
  }

  lemma RetryKept(s: State, e: Event, c: ConnId)
    requires Inv(s) && Enabled(s, e) && RetryOk(s, c) && c in s.retries && c in Apply(s, e).retries
    ensures Apply(s, e).retries[c].app == s.retries[c].app
    ensures Apply(s, e).retries[c].attempt == s.retries[c].attempt + if AttemptFails(s, e, c) then 1 else 0
  {
    if AttemptFails(s, e, c) { AttemptFailsStep(s, e, c); }
    else if AttemptSucceeds(s, e, c) { AttemptSucceedsStep(s, e, c); }
    else if Tries(s, e, c) { AttemptJoinsStep(s, e, c); }
    else { OthersSameRetry(s, e, c); }
  }

  lemma AttemptsAreThree(s: State, e: Event, c: ConnId)
    requires Inv(s) && Enabled(s, e) && RetryOk(s, c) && c in s.retries && s.retries[c].attempt < 3
    ensures AttemptFails(s, e, c) ==> (c in Apply(s, e).retries <==> s.retries[c].attempt < 2)
    ensures c !in Apply(s, e).retries
        <==> AttemptSucceeds(s, e, c) || (AttemptFails(s, e, c) && s.retries[c].attempt == 2)
  {
    if AttemptFails(s, e, c) { AttemptFailsStep(s, e, c); }
    else if AttemptSucceeds(s, e, c) { AttemptSucceedsStep(s, e, c); }
    else if Tries(s, e, c) { AttemptJoinsStep(s, e, c); }
    else { OthersSameRetry(s, e, c); }
  }

  lemma CountedOnce(states: seq<State>, events: seq<Event>, h: nat, n: nat, c: ConnId, a: AppId)
    requires IsRun(states, events) && h < n < |events| && Counted(states, events, h, n, c, a)
    requires c in states[n + 1].retries
    ensures Counted(states, events, h, n + 1, c, a)
  {
    RuntimeSteps.RunKeepsInv(states, events, n);
    RetriesAreGone(states, events, n, c);
    RetryKept(states[n], events[n], c);
    AttemptsAreThree(states[n], events[n], c);
  }

  lemma OneMoreCounted(states: seq<State>, events: seq<Event>, h: nat, n: nat, c: ConnId, a: AppId)
    requires n < |events| < |states| && TriedSince(states, events, h, n, c, a)
    requires Counted(states, events, h, n + 1, c, a)
    ensures TriedSince(states, events, h, n + 1, c, a)
  {
  }

  lemma TriedOnce(states: seq<State>, events: seq<Event>, h: nat, n: nat, c: ConnId, a: AppId)
    requires IsRun(states, events) && n < |events| && TriedSince(states, events, h, n, c, a)
    requires c in states[n + 1].retries
    ensures TriedSince(states, events, h, n + 1, c, a)
  {
    CountedOnce(states, events, h, n, c, a);
    OneMoreCounted(states, events, h, n, c, a);
  }

  lemma RetryBegins(s: State, e: Event, c: ConnId)
    requires Inv(s) && Enabled(s, e) && c !in s.retries && c in Apply(s, e).retries
    ensures Recovers(s, e, c)
  {
    if !Recovers(s, e, c) { OthersSameRetry(s, e, c); }
  }

  lemma RetryNew(states: seq<State>, events: seq<Event>, n: nat, c: ConnId)
    requires IsRun(states, events) && n < |events| && c !in states[n].retries && c in states[n + 1].retries
    ensures Recovers(states[n], events[n], c)
  {
    RuntimeSteps.RunKeepsInv(states, events, n);
    RetryBegins(states[n], events[n], c);
  }

  /** Every retry comes from a lost session, and its attempt is the number of its failures so far. */
  lemma {:induction false} RetryHasOrigin(states: seq<State>, events: seq<Event>, n: nat, c: ConnId) returns (h: nat)
    requires IsRun(states, events) && n <= |events| && c in states[n].retries
    ensures TriedSince(states, events, h, n, c, states[n].retries[c].app)
  {
    if c in states[n - 1].retries {
      h := RetryHasOrigin(states, events, n - 1, c);
      TriedOnce(states, events, h, n - 1, c, states[n - 1].retries[c].app);
      assert Counted(states, events, h, n, c, states[n - 1].retries[c].app);
    } else {
      RetryNew(states, events, n - 1, c);
      h := n - 1;
      JustRecovered(states, events, h, c);
      assert Counted(states, events, h, n, c, states[h].teardowns[c].entry.app.id);
    }
  }

  /** After the last await of a recovering teardown the application waits for its first attempt. */
  lemma LostSessionIsTriedAgain(states: seq<State>, events: seq<Event>, n: nat, c: ConnId)
    requires IsRun(states, events) && n < |events| && Recovers(states[n], events[n], c)
    ensures var a, s' := states[n].teardowns[c].entry.app.id, states[n + 1];
            && c !in states[n].retries && c in s'.retries && s'.retries[c] == Waiting(a, 0)
            && Shows(s', a, SConnecting) && TriedSince(states, events, n, n + 1, c, a)
  {
    RetriesAreGone(states, events, n, c);
    LastStageStep(states[n], c);
    JustRecovered(states, events, n, c);
  }

  /** A retry is left if and only if the connect call it waits for settled with success, or for the third time an
      attempt failed; then the application shows 'error', while after the first and the second failed attempt it
      shows 'connecting' and the next one waits. */
  lemma ThreeAttempts(states: seq<State>, events: seq<Event>, n: nat, c: ConnId) returns (h: nat)
    requires IsRun(states, events) && n < |events| && c in states[n].retries
    ensures TriedSince(states, events, h, n, c, states[n].retries[c].app)
    ensures var a, s', failures := states[n].retries[c].app, states[n + 1], Failures(states, events, h + 1, n + 1, c);
            && failures <= 3
            && (c !in s'.retries <==> AttemptSucceeds(states[n], events[n], c) || failures == 3)
            && (failures == 3 ==> Shows(s', a, SError))
            && (AttemptFails(states[n], events[n], c) && failures < 3 ==>
                  c in s'.retries && s'.retries[c] == Waiting(a, failures) && Shows(s', a, SConnecting))
  {
    h := RetryHasOrigin(states, events, n, c);
    RuntimeSteps.RunKeepsInv(states, events, n);
    RetriesAreGone(states, events, n, c);
    assert Counted(states, events, h, n, c, states[n].retries[c].app);
    AttemptsAreThree(states[n], events[n], c);
    if AttemptFails(states[n], events[n], c) { AttemptFailsStep(states[n], events[n], c); }
  }

  // ---------- no retry is stuck ----------

  /** The call that a retry waits for is under way or has settled. */
  ghost predicate JoinedOk(s: State, c: ConnId) {
    c in s.retries && s.retries[c].Joined? ==>
      var r := s.retries[c];
      r.conn in s.settled || (r.conn in s.connects && s.connects[r.conn].app.id == r.app)
  }

  lemma ResumedKeepsCalls(s: State, s': State, c: ConnId, outcome: Outcome, timeLeft: bool, d: ConnId)
    requires c in s.connects && Resumed(s, s', c, outcome, timeLeft)
    ensures d in s.settled ==> d in s'.settled
    ensures d in s.connects ==> d in s'.settled || (d in s'.connects && s'.connects[d].app == s.connects[d].app)
  {
  }

  lemma StartKeepsCalls(s: State, e: Event, d: ConnId)
    requires Enabled(s, e) && (e.Start? || e.RetryStarts?)
    ensures d in s.settled ==> d in Apply(s, e).settled
    ensures d in s.connects ==> d in Apply(s, e).connects && Apply(s, e).connects[d] == s.connects[d]
  {
  }

  lemma CallsLast(s: State, e: Event, d: ConnId)
    requires Inv(s) && Enabled(s, e)
    ensures d in s.settled ==> d in Apply(s, e).settled
    ensures d in s.connects ==>
              var s' := Apply(s, e);
              d in s'.settled || (d in s'.connects && s'.connects[d].app == s.connects[d].app)
  {
    match e
    case Start(_, _) => StartKeepsCalls(s, e, d);
    case RetryStarts(_, _, _) => StartKeepsCalls(s, e, d);
    case Resume(c, outcome, timeLeft) =>
      ResumeShape(s, c, outcome, timeLeft);
      ResumedKeepsCalls(s, Apply(s, e), c, outcome, timeLeft, d);
    case Disconnect(a) => DisconnectKeepsConnects(s, a);
    case Lost(a) => LostKeepsConnects(s, a);
    case _ => QuietSameCalls(s, e);
  }

  lemma JoinsACall(s: State, e: Event, c: ConnId)
    requires Inv(s) && Enabled(s, e) && Inv(Apply(s, e))
    requires Tries(s, e, c) && !AttemptFails(s, e, c) && !AttemptSucceeds(s, e, c)
    ensures JoinedOk(Apply(s, e), c)
  {
    AttemptJoinsStep(s, e, c);
    assert FlightOk(Apply(s, e), s.retries[c].app);
  }

  lemma JoinedStep(s: State, e: Event, c: ConnId)
    requires Inv(s) && Enabled(s, e) && Inv(Apply(s, e)) && JoinedOk(s, c)
    ensures JoinedOk(Apply(s, e), c)
  {
    if AttemptFails(s, e, c) { AttemptFailsStep(s, e, c); }
    else if AttemptSucceeds(s, e, c) { AttemptSucceedsStep(s, e, c); }
    else if Tries(s, e, c) { JoinsACall(s, e, c); }
    else if Recovers(s, e, c) { LastStageStep(s, c); }
    else {
      OthersSameRetry(s, e, c);
      if c in s.retries && s.retries[c].Joined? { CallsLast(s, e, s.retries[c].conn); }
    }
  }

  lemma JoinedOnce(states: seq<State>, events: seq<Event>, n: nat, c: ConnId)
    requires IsRun(states, events) && n < |events| && JoinedOk(states[n], c)
    ensures JoinedOk(states[n + 1], c)
  {
    RuntimeSteps.RunKeepsInv(states, events, n);
    RuntimeSteps.RunKeepsInv(states, events, n + 1);
    JoinedStep(states[n], events[n], c);
  }

  lemma {:induction false} RunJoinedOk(states: seq<State>, events: seq<Event>, n: nat, c: ConnId)
    requires IsRun(states, events) && n <= |events|
    ensures JoinedOk(states[n], c)
  {
    if n > 0 {
      RunJoinedOk(states, events, n - 1, c);
      JoinedOnce(states, events, n - 1, c);
    }
  }

  /** A retry can always go on: it joins the call of its application that is in flight or begins one, and what it has
      joined has settled or is under way. */
  lemma RetriesCanGoOn(states: seq<State>, events: seq<Event>, n: nat, c: ConnId, d: ConnId, app: App)
    requires IsRun(states, events) && n <= |events| && c in states[n].retries
    requires Unborn(states[n], d) && app.id == states[n].retries[c].app
    ensures states[n].retries[c].Waiting? ==>
              Enabled(states[n], RetryJoins(c)) || Enabled(states[n], RetryStarts(c, d, app))
    ensures states[n].retries[c].Joined? ==>
              || Enabled(states[n], RetrySettles(c))
              || (states[n].retries[c].conn in states[n].connects
                    && states[n].connects[states[n].retries[c].conn].app.id == states[n].retries[c].app)
  {
    RunJoinedOk(states, events, n, c);
  }
}
