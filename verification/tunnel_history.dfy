/** Reservations and connections told from what happened to them: each flag of the state holds if and only if the
    events that account for it have occurred.
 */
module TunnelHistory {
  import opened TunnelModel

  ghost predicate Happened(events: seq<Event>, n: nat, e: Event)
    requires n <= |events|
  {
    exists m :: 0 <= m < n && events[m] == e
  }

  lemma HappenedOnce(events: seq<Event>, n: nat, e: Event)
    requires n < |events|
    ensures Happened(events, n + 1, e) <==> Happened(events, n, e) || events[n] == e
  {
  }

  // ---------- reservations ----------

  predicate PastOpen(t: Tunnels, id: ResId) {
    id in t.held && !t.held[id].phase.Open?
  }

  predicate PastClosing(t: Tunnels, id: ResId) {
    id in t.held && t.held[id].phase.Released?
  }

  /** The event activates the reservation; on a released one activate throws. */
  predicate Activates(t: Tunnels, e: Event, id: ResId) {
    e == Activate(id) && id in t.held && t.held[id].phase.Open?
  }

  ghost predicate ActivatedBefore(states: seq<Tunnels>, events: seq<Event>, n: nat, id: ResId)
    requires n <= |events| < |states|
  {
    exists m :: 0 <= m < n && Activates(states[m], events[m], id)
  }

  /** The reservation is forwarded to its target, or would be if it had not been released. */
  predicate Aimed(t: Tunnels, id: ResId) {
    id in t.held && t.held[id].activated
  }

  ghost predicate TargetOk(t: Tunnels, id: ResId) {
    id in t.held ==> (t.held[id].target <==> t.held[id].activated && t.held[id].phase.Open?)
  }

  /** What the events mean for a reservation. */
  predicate Advances(t: Tunnels, u: Tunnels, e: Event, id: ResId) {
    && (PastOpen(u, id) <==> PastOpen(t, id) || e == Release(id))
    && (PastClosing(u, id) <==> PastClosing(t, id) || e == ServerClosed(id))
    && (Aimed(u, id) <==> Aimed(t, id) || Activates(t, e, id))
  }

  lemma AcceptAdvances(t: Tunnels, e: Event, id: ResId)
    requires Enabled(t, e) && TargetOk(t, id) && (e.Accept? || e.HungUp?)
    ensures TargetOk(Apply(t, e), id) && Advances(t, Apply(t, e), e, id)
  {
  }

  lemma ForwardAdvances(t: Tunnels, e: Event, id: ResId)
    requires Enabled(t, e) && TargetOk(t, id) && (e.ForwardOpened? || e.ForwardFailed? || e.Ended?)
    ensures TargetOk(Apply(t, e), id) && Advances(t, Apply(t, e), e, id)
  {
  }

  lemma ListenAdvances(t: Tunnels, e: Event, id: ResId)
    requires Inv(t) && Enabled(t, e) && TargetOk(t, id) && (e.Reserve? || e.Listening? || e.ListenFailed?)
    ensures TargetOk(Apply(t, e), id) && Advances(t, Apply(t, e), e, id)
  {
    assert ResOk(t, id);
  }

  lemma PhaseAdvances(t: Tunnels, e: Event, id: ResId)
    requires Inv(t) && Enabled(t, e) && TargetOk(t, id) && (e.Activate? || e.Release? || e.ServerClosed?)
    ensures TargetOk(Apply(t, e), id) && Advances(t, Apply(t, e), e, id)
  {
    assert ResOk(t, id);
  }

  lemma StepAdvances(t: Tunnels, e: Event, id: ResId)
    requires Inv(t) && Enabled(t, e) && TargetOk(t, id)
    ensures TargetOk(Apply(t, e), id) && Advances(t, Apply(t, e), e, id)
  {
    if e.Accept? || e.HungUp? { AcceptAdvances(t, e, id); }
    else if e.ForwardOpened? || e.ForwardFailed? || e.Ended? { ForwardAdvances(t, e, id); }
    else if e.Reserve? || e.Listening? || e.ListenFailed? { ListenAdvances(t, e, id); }
    else { PhaseAdvances(t, e, id); }
  }

  lemma ReservationOnce(states: seq<Tunnels>, events: seq<Event>, n: nat, id: ResId)
    requires IsRun(states, events) && n < |events| && TargetOk(states[n], id)
    ensures TargetOk(states[n + 1], id)
    ensures Advances(states[n], states[n + 1], events[n], id)
  {
    RunKeepsInv(states, events, n);
    StepAdvances(states[n], events[n], id);
  }

  lemma OneMoreActivation(states: seq<Tunnels>, events: seq<Event>, n: nat, id: ResId)
    requires n < |events| < |states|
    ensures ActivatedBefore(states, events, n + 1, id)
        <==> ActivatedBefore(states, events, n, id) || Activates(states[n], events[n], id)
  {
  }

  lemma {:induction false} ReservationHistory(states: seq<Tunnels>, events: seq<Event>, n: nat, id: ResId)
    requires IsRun(states, events) && n <= |events|
    ensures TargetOk(states[n], id)
    ensures PastOpen(states[n], id) <==> Happened(events, n, Release(id))
    ensures PastClosing(states[n], id) <==> Happened(events, n, ServerClosed(id))
    ensures Aimed(states[n], id) <==> ActivatedBefore(states, events, n, id)
  {
    if n > 0 {
      ReservationHistory(states, events, n - 1, id);
      ReservationOnce(states, events, n - 1, id);
      HappenedOnce(events, n - 1, Release(id));
      HappenedOnce(events, n - 1, ServerClosed(id));
      OneMoreActivation(states, events, n - 1, id);
    }
  }

  /** A reservation is open, and holds its port, until its release is called, and released once its server has
      closed; it has a target exactly if it was activated and its release has not been called. */
  lemma PhasesExactly(states: seq<Tunnels>, events: seq<Event>, n: nat, id: ResId)
    requires IsRun(states, events) && n <= |events| && id in states[n].held
    ensures var r := states[n].held[id];
            && (r.phase.Open? <==> !Happened(events, n, Release(id)))
            && (r.phase.Released? <==> Happened(events, n, ServerClosed(id)))
            && (r.port in states[n].bound && states[n].bound[r.port] == id <==> !Happened(events, n, Release(id)))
            && (r.target <==> ActivatedBefore(states, events, n, id) && !Happened(events, n, Release(id)))
  {
    ReservationHistory(states, events, n, id);
    RunKeepsInv(states, events, n);
    assert ResOk(states[n], id) && PortOk(states[n], states[n].held[id].port);
  }

  // ---------- connections ----------

  /** What has happened to a connection so far. */
  datatype Story = Story(
    taken: bool,     // accepted by a reservation with a target, so that openForward was called
    streamed: bool,
    failed: bool,
    ended: bool,     // either end of its forward closed
    hungUp: bool,    // the client ended it while openForward was pending
    released: bool)  // its reservation is being released

  /** The event accepts the connection and finds a target. */
  predicate Takes(t: Tunnels, e: Event, k: Socket) {
    e.Accept? && e.socket == k && e.id in t.held && t.held[e.id].target && t.held[e.id].phase.Open?
  }

  ghost predicate TakenBefore(states: seq<Tunnels>, events: seq<Event>, n: nat, k: Socket)
    requires n <= |events| < |states|
  {
    exists m :: 0 <= m < n && Takes(states[m], events[m], k)
  }

  ghost function StoryOf(states: seq<Tunnels>, events: seq<Event>, n: nat, k: Socket): Story
    requires n <= |events| < |states|
  {
    Story(
      TakenBefore(states, events, n, k),
      Happened(events, n, ForwardOpened(k)),
      Happened(events, n, ForwardFailed(k)),
      Happened(events, n, Ended(k)),
      Happened(events, n, HungUp(k)),
      k in states[n].server && PastOpen(states[n], states[n].server[k]))
  }

  /** The stream of the forward is destroyed. */
  predicate Over(h: Story) {
    h.streamed && (h.ended || h.released)
  }

  /** The state of connection `k` is what its story says. */
  predicate Fits(t: Tunnels, k: Socket, h: Story) {
    && (Waiting(t, k) <==> h.taken && !h.streamed && !h.failed)
    && (k in t.streams <==> h.streamed)
    && (k in t.deadStreams <==> Over(h))
    && (k in t.deadSockets <==> k in t.server && (!h.taken || h.hungUp || h.failed || Over(h)))
    && (k in t.server && PastOpen(t, t.server[k]) <==> h.released)
    && (h.taken || h.streamed || h.failed || h.ended || h.hungUp ==> k in t.server)
    && (h.ended ==> h.streamed) && (h.streamed || h.failed || h.hungUp ==> h.taken) && !(h.streamed && h.failed)
  }

  function Grown(t: Tunnels, e: Event, k: Socket, h: Story, released: bool): Story {
    Story(
      h.taken || Takes(t, e, k), h.streamed || e == ForwardOpened(k), h.failed || e == ForwardFailed(k),
      h.ended || e == Ended(k), h.hungUp || e == HungUp(k), released)
  }

  predicate ReleasedAfter(t: Tunnels, k: Socket) {
    k in t.server && PastOpen(t, t.server[k])
  }

  lemma AcceptFitsOthers(t: Tunnels, id: ResId, socket: Socket, k: Socket, h: Story)
    requires Inv(t) && Enabled(t, Accept(id, socket)) && Fits(t, k, h) && k != socket
    ensures var e, u := Accept(id, socket), AcceptStep(t, id, socket);
            Fits(u, k, Grown(t, e, k, h, ReleasedAfter(u, k)))
  {
  }

  lemma AcceptFits(t: Tunnels, id: ResId, socket: Socket, k: Socket, h: Story)
    requires Inv(t) && Enabled(t, Accept(id, socket)) && Fits(t, k, h)
    ensures var e, u := Accept(id, socket), AcceptStep(t, id, socket);
            Fits(u, k, Grown(t, e, k, h, ReleasedAfter(u, k)))
  {
    if k != socket {
      AcceptFitsOthers(t, id, socket, k, h);
    } else {
      assert SocketOk(t, k) && Homed(t, k, id) && ResOk(t, id);
    }
  }

  lemma HungUpFits(t: Tunnels, socket: Socket, k: Socket, h: Story)
    requires Inv(t) && Enabled(t, HungUp(socket)) && Fits(t, k, h)
    ensures var e, u := HungUp(socket), HungUpStep(t, socket);
            Fits(u, k, Grown(t, e, k, h, ReleasedAfter(u, k)))
  {
    assert SocketOk(t, k);
  }

  lemma OpenedFits(t: Tunnels, socket: Socket, k: Socket, h: Story)
    requires Inv(t) && Enabled(t, ForwardOpened(socket)) && Fits(t, k, h)
    ensures var e, u := ForwardOpened(socket), OpenedStep(t, socket);
            Fits(u, k, Grown(t, e, k, h, ReleasedAfter(u, k)))
  {
    assert SocketOk(t, k) && Homed(t, k, t.server[socket]);
  }

  lemma FailedFits(t: Tunnels, socket: Socket, k: Socket, h: Story)
    requires Inv(t) && Enabled(t, ForwardFailed(socket)) && Fits(t, k, h)
    ensures var e, u := ForwardFailed(socket), FailedStep(t, socket);
            Fits(u, k, Grown(t, e, k, h, ReleasedAfter(u, k)))
  {
    assert SocketOk(t, k) && Homed(t, k, t.server[socket]);
  }

  lemma EndedFits(t: Tunnels, socket: Socket, k: Socket, h: Story)
    requires Inv(t) && Enabled(t, Ended(socket)) && Fits(t, k, h)
    ensures var e, u := Ended(socket), EndedStep(t, socket);
            Fits(u, k, Grown(t, e, k, h, ReleasedAfter(u, k)))
  {
    assert SocketOk(t, k);
  }

  lemma ReleaseFits(t: Tunnels, id: ResId, k: Socket, h: Story)
    requires Inv(t) && Enabled(t, Release(id)) && Fits(t, k, h)
    ensures var e, u := Release(id), ReleaseStep(t, id);
            Fits(u, k, Grown(t, e, k, h, ReleasedAfter(u, k)))
  {
    assert SocketOk(t, k) && Homed(t, k, id) && ResOk(t, id);
  }

  lemma ManagerFits(t: Tunnels, e: Event, k: Socket, h: Story)
    requires Inv(t) && Enabled(t, e) && Fits(t, k, h)
    requires e.Reserve? || e.Listening? || e.ListenFailed? || e.Activate? || e.ServerClosed?
    ensures Fits(Apply(t, e), k, Grown(t, e, k, h, ReleasedAfter(Apply(t, e), k)))
  {
    assert SocketOk(t, k);
    if e.Listening? { assert ResOk(t, e.id); }
  }

  lemma StepFits(t: Tunnels, e: Event, k: Socket, h: Story)
    requires Inv(t) && Enabled(t, e) && Fits(t, k, h)
    ensures Fits(Apply(t, e), k, Grown(t, e, k, h, ReleasedAfter(Apply(t, e), k)))
  {
    match e
    case Accept(id, socket) => AcceptFits(t, id, socket, k, h);
    case HungUp(socket) => HungUpFits(t, socket, k, h);
    case ForwardOpened(socket) => OpenedFits(t, socket, k, h);
    case ForwardFailed(socket) => FailedFits(t, socket, k, h);
    case Ended(socket) => EndedFits(t, socket, k, h);
    case Release(id) => ReleaseFits(t, id, k, h);
    case _ => ManagerFits(t, e, k, h);
  }

  lemma StoryGrows(states: seq<Tunnels>, events: seq<Event>, n: nat, k: Socket)
    requires n < |events| < |states|
    ensures StoryOf(states, events, n + 1, k)
         == Grown(states[n], events[n], k, StoryOf(states, events, n, k), ReleasedAfter(states[n + 1], k))
  {
    HappenedOnce(events, n, ForwardOpened(k));
    HappenedOnce(events, n, ForwardFailed(k));
    HappenedOnce(events, n, Ended(k));
    HappenedOnce(events, n, HungUp(k));
    OneMoreTaken(states, events, n, k);
  }

  lemma OneMoreTaken(states: seq<Tunnels>, events: seq<Event>, n: nat, k: Socket)
    requires n < |events| < |states|
    ensures TakenBefore(states, events, n + 1, k)
        <==> TakenBefore(states, events, n, k) || Takes(states[n], events[n], k)
  {
  }

  lemma FitsOnce(states: seq<Tunnels>, events: seq<Event>, n: nat, k: Socket, h: Story)
    requires IsRun(states, events) && n < |events| && Fits(states[n], k, h)
    ensures Fits(states[n + 1], k, Grown(states[n], events[n], k, h, ReleasedAfter(states[n + 1], k)))
  {
    RunKeepsInv(states, events, n);
    StepFits(states[n], events[n], k, h);
  }

  lemma StartFits(events: seq<Event>, states: seq<Tunnels>, k: Socket)
    requires |events| < |states| && states[0] == EMPTY
    ensures Fits(states[0], k, StoryOf(states, events, 0, k))
  {
  }

  lemma {:induction false} RunFits(states: seq<Tunnels>, events: seq<Event>, n: nat, k: Socket)
    requires IsRun(states, events) && n <= |events|
    ensures Fits(states[n], k, StoryOf(states, events, n, k))
  {
    if n == 0 {
      StartFits(events, states, k);
    } else {
      RunFits(states, events, n - 1, k);
      FitsOnce(states, events, n - 1, k, StoryOf(states, events, n - 1, k));
      StoryGrows(states, events, n - 1, k);
    }
  }

  /** A connection waits for its stream exactly if it found a target and openForward is still to settle.  Its stream
      is destroyed exactly if it was opened and either an end closed or the reservation's release was called.  The
      connection itself is closed exactly if it found no target, its client hung up, openForward failed, or its
      stream is destroyed. */
  lemma SocketsExactly(states: seq<Tunnels>, events: seq<Event>, n: nat, k: Socket)
    requires IsRun(states, events) && n <= |events| && k in states[n].server
    ensures var t, id := states[n], states[n].server[k];
            var taken, streamed, failed := TakenBefore(states, events, n, k),
              Happened(events, n, ForwardOpened(k)), Happened(events, n, ForwardFailed(k));
            var over := streamed && (Happened(events, n, Ended(k)) || Happened(events, n, Release(id)));
            && (Waiting(t, k) <==> taken && !streamed && !failed)
            && (k in t.streams <==> streamed)
            && (k in t.deadStreams <==> over)
            && (k in t.deadSockets <==> !taken || Happened(events, n, HungUp(k)) || failed || over)
  {
    RunFits(states, events, n, k);
    ReservationHistory(states, events, n, states[n].server[k]);
  }
}
