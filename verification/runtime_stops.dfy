/** Stop commands over a run: when one is sent, what its entry still holds, and that no entry sends two. */
module RuntimeStops {
  import opened RuntimeModel
  import opened RuntimeInvariant
  import opened RuntimeMoves
  import opened RuntimeStatus
  import RuntimeOutcomes
  import RuntimeSteps

  /** The disconnect that sends a stop command for the entry of `a`. */
  predicate SendsStop(s: State, e: Event) {
    e.Disconnect? && e.id in s.active && WantsStop(s.active, e.id)
  }

  lemma OthersSendNoStop(s: State, e: Event)
    requires Enabled(s, e) && !e.Resume? && !e.Disconnect?
    ensures Apply(s, e).stops == s.stops
  {
    if e.Start? || e.RetryStarts? { StartKeepsEntries(s, e); }
    else if e.Lost? { LostSendsNoStop(s, e.id); }
    else { QuietSameCalls(s, e); }
  }

  lemma LostSendsNoStop(s: State, a: AppId)
    requires a in s.active
    ensures LostStep(s, a).stops == s.stops
  {
  }

  lemma DisconnectSends(s: State, a: AppId)
    ensures DisconnectStep(s, a).stops
         == if a in s.active && WantsStop(s.active, a) then s.stops + [Stop(s.active[a].conn, s.active[a].app, {})]
            else s.stops
  {
  }

  lemma StopStep(s: State, e: Event)
    requires Inv(s) && Enabled(s, e)
    ensures Apply(s, e).stops
         == if SendsStop(s, e) then s.stops + [Stop(s.active[e.id].conn, s.active[e.id].app, {})] else s.stops
  {
    if e.Resume? { ResumeShape(s, e.conn, e.outcome, e.timeLeft); }
    else if e.Disconnect? { DisconnectSends(s, e.id); }
    else { OthersSendNoStop(s, e); }
  }

  // ---------- an entry that left never comes back ----------

  /** Connect `c` is past its handover, and no entry is its own. */
  ghost predicate Gone(s: State, c: ConnId) {
    Past(s, c) && forall a :: !EntryOf(s, a, c)
  }

  lemma GoneStays(s: State, e: Event, c: ConnId)
    requires Inv(s) && Enabled(s, e) && Gone(s, c)
    ensures Gone(Apply(s, e), c)
  {
    PastStays(s, e, c);
    PastHandsOverNoMore(s, e, c);
    forall a ensures !EntryOf(Apply(s, e), a, c) {
      if EntryOf(Apply(s, e), a, c) { EntryStep(s, e, a, c); }
    }
  }

  lemma ActiveIsPast(s: State, a: AppId)
    requires Inv(s) && a in s.active
    ensures Past(s, s.active[a].conn)
  {
    assert ActiveOk(s, a) && OwnedOk(s, s.active[a].conn);
  }

  lemma StoppedIsGone(s: State, a: AppId)
    requires Inv(s) && a in s.active
    ensures Gone(DisconnectStep(s, a), s.active[a].conn)
  {
    var c := s.active[a].conn;
    ActiveIsPast(s, a);
    assert ActiveOk(s, a);
    forall b ensures !EntryOf(DisconnectStep(s, a), b, c) { assert ActiveOk(s, b); }
  }

  lemma {:induction false} StopsAreGone(states: seq<State>, events: seq<Event>, n: nat, i: nat)
    requires IsRun(states, events) && n <= |events| && i < |states[n].stops|
    ensures Gone(states[n], states[n].stops[i].conn)
    decreases n
  {
    if n > 0 {
      var s, e := states[n - 1], events[n - 1];
      RuntimeSteps.RunKeepsInv(states, events, n - 1);
      StopStep(s, e);
      if i < |s.stops| {
        StopsAreGone(states, events, n - 1, i);
        GoneStays(s, e, s.stops[i].conn);
      } else {
        StoppedIsGone(s, e.id);
      }
    }
  }

  /** No entry is sent two stop commands, whatever disconnects, unexpected disconnects and retries do. */
  lemma {:induction false} StopsDiffer(states: seq<State>, events: seq<Event>, n: nat, i: nat, j: nat)
    requires IsRun(states, events) && n <= |events| && i < j < |states[n].stops|
    ensures states[n].stops[i].conn != states[n].stops[j].conn
    decreases n
  {
    var s, e := states[n - 1], events[n - 1];
    RuntimeSteps.RunKeepsInv(states, events, n - 1);
    StopStep(s, e);
    if j < |s.stops| {
      StopsDiffer(states, events, n - 1, i, j);
    } else {
      StopsAreGone(states, events, n - 1, i);
      assert !EntryOf(s, e.id, s.stops[i].conn);
    }
  }

  /** A step that sends a stop command is the disconnect of an entry whose own connect ran the start command,
      while no other application is active on its server; the command goes out over a lease and beside a
      reservation that are still held. */
  lemma StopsAreJustified(states: seq<State>, events: seq<Event>, n: nat)
    requires IsRun(states, events) && n < |events| && states[n + 1].stops != states[n].stops
    ensures events[n].Disconnect? && events[n].id in states[n].active
    ensures var a, e, s' := events[n].id, states[n].active[events[n].id], states[n + 1];
            && s'.stops == states[n].stops + [Stop(e.conn, e.app, {})]
            && e.conn in states[n].launched
            && (forall b :: b in states[n].active && b != a ==> states[n].active[b].app.server != e.app.server)
            && e.conn in s'.tunnels.held && s'.tunnels.held[e.conn].phase.Open?
            && e.conn in s'.pool.leases && !s'.pool.leases[e.conn].released
  {
    var s, e := states[n], events[n];
    RuntimeSteps.RunKeepsInv(states, events, n);
    StopStep(s, e);
    assert ActiveOk(s, e.id);
    forall b | b in s.active && b != e.id ensures s.active[b].app.server != s.active[e.id].app.server {
      assert b !in Peers(s.active, e.id);
    }
  }

  /** Event `n` disconnects an active application whose start command was run by the connect that made its entry, of
      whose server no other application is active, and that has a stop command to be sent then. */
  ghost predicate StopsNow(states: seq<State>, events: seq<Event>, n: nat)
    requires n < |events| <= |states|
  {
    && events[n].Disconnect? && events[n].id in states[n].active
    && var a, active := events[n].id, states[n].active;
       && RuntimeOutcomes.LaunchedBefore(states, events, n, active[a].conn)
       && (forall b :: b in active && b != a ==> active[b].app.server != active[a].app.server)
       && active[a].app.stopOnDisconnect && active[a].app.hasStopCommand
  }

  lemma AloneOnServer(active: map<AppId, Entry>, a: AppId)
    requires a in active
    ensures Peers(active, a) == {}
        <==> forall b :: b in active && b != a ==> active[b].app.server != active[a].app.server
  {
    if b :| b in active && b != a && active[b].app.server == active[a].app.server { assert b in Peers(active, a); }
  }

  lemma SendsStopExactly(states: seq<State>, events: seq<Event>, n: nat)
    requires IsRun(states, events) && n < |events|
    ensures SendsStop(states[n], events[n]) <==> StopsNow(states, events, n)
  {
    var s, e := states[n], events[n];
    if e.Disconnect? && e.id in s.active {
      RuntimeSteps.RunKeepsInv(states, events, n);
      assert ActiveOk(s, e.id);
      AloneOnServer(s.active, e.id);
      RuntimeOutcomes.LaunchedExactly(states, events, n, s.active[e.id].conn);
    }
  }

  /** Every such disconnect sends one stop command, and no other event sends one. */
  lemma StopsAreSentExactly(states: seq<State>, events: seq<Event>, n: nat)
    requires IsRun(states, events) && n < |events|
    ensures StopsNow(states, events, n) ==>
              var e := states[n].active[events[n].id];
              states[n + 1].stops == states[n].stops + [Stop(e.conn, e.app, {})]
    ensures !StopsNow(states, events, n) ==> states[n + 1].stops == states[n].stops
  {
    RuntimeSteps.RunKeepsInv(states, events, n);
    StopStep(states[n], events[n]);
    SendsStopExactly(states, events, n);
  }
}
