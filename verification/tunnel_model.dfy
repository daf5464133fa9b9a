/** Port reservations, tunnels and forwards as a state machine; one event is one stretch of
    code between two awaits.  A reservation is named by the reserve call that made it, the
    stream of a forward by the socket it serves.
 */
module TunnelModel {

  type AppId = string
  type ResId = nat
  type Port = nat
  type Socket = nat

  /** `Open` until release is called, `Closing` until the server's close callback, then `Released`. */
  datatype Phase = Open | Closing | Released

  datatype Reservation = Reservation(
    app: AppId,
    port: Port,
    phase: Phase,
    target: bool,         // `target` is set
    activated: bool,      // activate has returned a handle
    waiting: set<Socket>, // accepted, openForward still pending
    live: set<Socket>)    // the `forwards` set

  datatype Claim = Claim(app: AppId, port: Port)

  datatype Tunnels = Tunnels(
    starting: map<ResId, Claim>,      // reserve calls that await listen
    held: map<ResId, Reservation>,    // every reservation ever made
    reservations: map<AppId, ResId>,  // the manager's maps
    active: map<AppId, ResId>,
    bound: map<Port, ResId>,          // ports with a listening server
    released: multiset<ResId>,        // runs of the onReleased callback
    server: map<Socket, ResId>,       // the reservation that accepted a socket
    deadSockets: set<Socket>,         // ended by the client or destroyed here
    early: set<Socket>,               // ended by the client while openForward was pending
    streams: set<Socket>,             // sockets whose forward stream was opened
    deadStreams: set<Socket>)

  const EMPTY := Tunnels(map[], map[], map[], map[], map[], multiset{}, map[], {}, {}, {}, {})

  datatype Event =
    | Reserve(id: ResId, app: AppId, port: Port)
    | Listening(id: ResId)
    | ListenFailed(id: ResId)
    | Activate(id: ResId)
    | Release(id: ResId)
    | ServerClosed(id: ResId)
    | Accept(id: ResId, socket: Socket)
    | HungUp(socket: Socket)
    | ForwardOpened(socket: Socket)
    | ForwardFailed(socket: Socket)
    | Ended(socket: Socket)

  predicate Fresh(t: Tunnels, id: ResId) {
    id !in t.starting && id !in t.held
  }

  /** The operating system binds a port only once; a server's close callback waits for its last connection,
      but not for an openForward whose connection has ended. */
  predicate Enabled(t: Tunnels, e: Event) {
    match e
    case Reserve(id, _, _) => Fresh(t, id)
    case Listening(id) => id in t.starting && t.starting[id].port !in t.bound
    case ListenFailed(id) => id in t.starting
    case Activate(id) => id in t.held
    case Release(id) => id in t.held
    case ServerClosed(id) => id in t.held && t.held[id].phase.Closing? && t.held[id].waiting <= t.deadSockets
    case Accept(id, socket) => id in t.held && !t.held[id].phase.Released? && socket !in t.server
    case HungUp(socket) => Waiting(t, socket) && socket !in t.deadSockets
    case ForwardOpened(socket) => Waiting(t, socket)
    case ForwardFailed(socket) => Waiting(t, socket)
    case Ended(socket) => socket in t.streams && socket in t.server && t.server[socket] in t.held
  }

  predicate Waiting(t: Tunnels, socket: Socket) {
    socket in t.server && t.server[socket] in t.held && socket in t.held[t.server[socket]].waiting
  }

  /** reserve up to its await: refuse an application that has a reservation already. */
  function ReserveStep(t: Tunnels, id: ResId, app: AppId, port: Port): Tunnels {
    if app in t.reservations then t else t.(starting := t.starting[id := Claim(app, port)])
  }

  function ListeningStep(t: Tunnels, id: ResId): Tunnels
    requires id in t.starting
  {
    var claim := t.starting[id];
    t.(starting := t.starting - {id},
       held := t.held[id := Reservation(claim.app, claim.port, Open, false, false, {}, {})],
       reservations := t.reservations[claim.app := id],
       bound := t.bound[claim.port := id])
  }

  predicate CanActivate(t: Tunnels, id: ResId) {
    id in t.held && t.held[id].phase.Open? && !t.held[id].target
  }

  /** activate together with the manager's wrapper; it throws on a released or active reservation. */
  function ActivateStep(t: Tunnels, id: ResId): Tunnels
    requires id in t.held
  {
    if !CanActivate(t, id) then t else
    t.(held := t.held[id := t.held[id].(target := true, activated := true)],
       active := t.active[t.held[id].app := id])
  }

  /** release up to its await: mark, drop the target, destroy every forward, stop listening. */
  function ReleaseStep(t: Tunnels, id: ResId): Tunnels
    requires id in t.held
  {
    var r := t.held[id];
    if !r.phase.Open? then t else
    t.(held := t.held[id := r.(phase := Closing, target := false, live := {})],
       bound := t.bound - {r.port},
       deadSockets := t.deadSockets + r.live,
       deadStreams := t.deadStreams + r.live)
  }

  /** The server's close callback: onReleased deletes by application id. */
  function ServerClosedStep(t: Tunnels, id: ResId): Tunnels
    requires id in t.held
  {
    var r := t.held[id];
    t.(held := t.held[id := r.(phase := Released)],
       reservations := t.reservations - {r.app},
       active := t.active - {r.app},
       released := t.released + multiset{id})
  }

  function AcceptStep(t: Tunnels, id: ResId, socket: Socket): Tunnels
    requires id in t.held
  {
    var r := t.held[id];
    var seen := t.(server := t.server[socket := id]);
    if !r.target || !r.phase.Open? then seen.(deadSockets := seen.deadSockets + {socket})
    else seen.(held := t.held[id := r.(waiting := r.waiting + {socket})])
  }

  /** The client ends a connection whose openForward is pending: no handler is registered yet. */
  function HungUpStep(t: Tunnels, socket: Socket): Tunnels {
    t.(deadSockets := t.deadSockets + {socket}, early := t.early + {socket})
  }

  /** openForward resolved, possibly after the reservation was released. */
  function OpenedStep(t: Tunnels, socket: Socket): Tunnels
    requires Waiting(t, socket)
  {
    var id := t.server[socket];
    var r := t.held[id];
    var noted := t.(streams := t.streams + {socket});
    if !r.phase.Open? then
      noted.(held := t.held[id := r.(waiting := r.waiting - {socket})],
             deadSockets := t.deadSockets + {socket},
             deadStreams := t.deadStreams + {socket})
    else
      noted.(held := t.held[id := r.(waiting := r.waiting - {socket}, live := r.live + {socket})])
  }

  function FailedStep(t: Tunnels, socket: Socket): Tunnels
    requires Waiting(t, socket)
  {
    var id := t.server[socket];
    var r := t.held[id];
    t.(held := t.held[id := r.(waiting := r.waiting - {socket})], deadSockets := t.deadSockets + {socket})
  }

  /** `cleanup`: either end of a forward closed or failed. */
  function EndedStep(t: Tunnels, socket: Socket): Tunnels
    requires socket in t.server && t.server[socket] in t.held
  {
    var id := t.server[socket];
    var r := t.held[id];
    t.(held := t.held[id := r.(live := r.live - {socket})],
       deadSockets := t.deadSockets + {socket},
       deadStreams := t.deadStreams + {socket})
  }

  function Apply(t: Tunnels, e: Event): Tunnels
    requires Enabled(t, e)
  {
    match e
    case Reserve(id, app, port) => ReserveStep(t, id, app, port)
    case Listening(id) => ListeningStep(t, id)
    case ListenFailed(id) => t.(starting := t.starting - {id})
    case Activate(id) => ActivateStep(t, id)
    case Release(id) => ReleaseStep(t, id)
    case ServerClosed(id) => ServerClosedStep(t, id)
    case Accept(id, socket) => AcceptStep(t, id, socket)
    case HungUp(socket) => HungUpStep(t, socket)
    case ForwardOpened(socket) => OpenedStep(t, socket)
    case ForwardFailed(socket) => FailedStep(t, socket)
    case Ended(socket) => EndedStep(t, socket)
  }

  ghost predicate IsRun(states: seq<Tunnels>, events: seq<Event>) {
    && |states| == |events| + 1
    && states[0] == EMPTY
    && forall i :: 0 <= i < |events| ==> Enabled(states[i], events[i]) && states[i + 1] == Apply(states[i], events[i])
  }

  // ---------- what holds in every run ----------

  /** One reservation: no forward and no target once it is being released, its port bound exactly while it is open. */
  ghost predicate ResOk(t: Tunnels, id: ResId) {
    if id in t.held then
      var r := t.held[id];
      && id !in t.starting
      && (!r.phase.Open? ==> r.live == {} && !r.target)
      && (r.phase.Released? ==> r.waiting <= t.deadSockets)
      && (r.target ==> r.activated)
      && (r.phase.Open? ==> r.port in t.bound && t.bound[r.port] == id)
      && t.released[id] == (if r.phase.Released? then 1 else 0)
    else t.released[id] == 0
  }

  ghost predicate PortOk(t: Tunnels, port: Port) {
    port in t.bound ==>
      t.bound[port] in t.held && t.held[t.bound[port]].phase.Open? && t.held[t.bound[port]].port == port
  }

  /** A socket that waits is open unless its client hung up; one that neither waits nor has a stream is closed. */
  ghost predicate SocketOk(t: Tunnels, k: Socket) {
    if k in t.server then
      && t.server[k] in t.held
      && var r := t.held[t.server[k]];
      && (k in r.waiting ==> k !in t.streams && (k in t.deadSockets <==> k in t.early))
      && (k !in r.waiting && k !in t.streams ==> k in t.deadSockets)
      && (k in t.early ==> k in t.deadSockets)
      && StreamOk(t, k)
    else k !in t.streams && k !in t.deadSockets && k !in t.early && k !in t.deadStreams
  }

  /** A stream is in `forwards` until it is destroyed, and its socket ends with it unless that ended before. */
  ghost predicate StreamOk(t: Tunnels, k: Socket)
    requires k in t.server && t.server[k] in t.held
  {
    && (k in t.deadStreams ==> k in t.streams && k in t.deadSockets)
    && (k in t.streams && k in t.deadSockets ==> k in t.early || k in t.deadStreams)
    && (k in t.held[t.server[k]].live <==> k in t.streams && k !in t.deadStreams)
  }

  /** Only sockets of a reservation are in its sets. */
  ghost predicate Homed(t: Tunnels, k: Socket, id: ResId) {
    id in t.held && (k in t.held[id].waiting || k in t.held[id].live) ==> k in t.server && t.server[k] == id
  }

  ghost predicate Inv(t: Tunnels) {
    && (forall id :: ResOk(t, id))
    && (forall port :: PortOk(t, port))
    && (forall k :: SocketOk(t, k))
    && (forall k, id :: Homed(t, k, id))
  }

  lemma ReserveKeepsInv(t: Tunnels, id: ResId, app: AppId, port: Port)
    requires Inv(t) && Enabled(t, Reserve(id, app, port))
    ensures Inv(Apply(t, Reserve(id, app, port)))
  {
    var u := Apply(t, Reserve(id, app, port));
    assert ResOk(t, id);
    forall i ensures ResOk(u, i) { assert ResOk(t, i); }
    forall p ensures PortOk(u, p) { assert PortOk(t, p); }
    forall k ensures SocketOk(u, k) { assert SocketOk(t, k); }
    forall k, i ensures Homed(u, k, i) { assert Homed(t, k, i); }
  }

  lemma ListeningKeepsInv(t: Tunnels, id: ResId)
    requires Inv(t) && Enabled(t, Listening(id))
    ensures Inv(Apply(t, Listening(id)))
  {
    var u := Apply(t, Listening(id));
    assert ResOk(t, id) && PortOk(t, t.starting[id].port);
    forall i ensures ResOk(u, i) { assert ResOk(t, i); }
    forall p ensures PortOk(u, p) { assert PortOk(t, p); }
    forall k ensures SocketOk(u, k) { assert SocketOk(t, k); }
    forall k, i ensures Homed(u, k, i) { assert Homed(t, k, i); }
  }

  lemma ListenFailedKeepsInv(t: Tunnels, id: ResId)
    requires Inv(t) && Enabled(t, ListenFailed(id))
    ensures Inv(Apply(t, ListenFailed(id)))
  {
    var u := Apply(t, ListenFailed(id));
    assert ResOk(t, id);
    forall i ensures ResOk(u, i) { assert ResOk(t, i); }
    forall p ensures PortOk(u, p) { assert PortOk(t, p); }
    forall k ensures SocketOk(u, k) { assert SocketOk(t, k); }
    forall k, i ensures Homed(u, k, i) { assert Homed(t, k, i); }
  }

  lemma ActivateKeepsInv(t: Tunnels, id: ResId)
    requires Inv(t) && Enabled(t, Activate(id))
    ensures Inv(Apply(t, Activate(id)))
  {
    var u := Apply(t, Activate(id));
    assert ResOk(t, id);
    forall i ensures ResOk(u, i) { assert ResOk(t, i); }
    forall p ensures PortOk(u, p) { assert PortOk(t, p); }
    forall k ensures SocketOk(u, k) { assert SocketOk(t, k); }
    forall k, i ensures Homed(u, k, i) { assert Homed(t, k, i); }
  }

  lemma ReleaseKeepsInv(t: Tunnels, id: ResId)
    requires Inv(t) && Enabled(t, Release(id))
    ensures Inv(Apply(t, Release(id)))
  {
    var u := Apply(t, Release(id));
    assert ResOk(t, id);
    forall i ensures ResOk(u, i) { assert ResOk(t, i); }
    forall p ensures PortOk(u, p) { assert PortOk(t, p); }
    forall k ensures SocketOk(u, k) { assert SocketOk(t, k) && Homed(t, k, id); }
    forall k, i ensures Homed(u, k, i) { assert Homed(t, k, i); }
  }

  lemma ServerClosedKeepsInv(t: Tunnels, id: ResId)
    requires Inv(t) && Enabled(t, ServerClosed(id))
    ensures Inv(Apply(t, ServerClosed(id)))
  {
    var u := Apply(t, ServerClosed(id));
    assert ResOk(t, id);
    forall i ensures ResOk(u, i) { assert ResOk(t, i); }
    forall p ensures PortOk(u, p) { assert PortOk(t, p); }
    forall k ensures SocketOk(u, k) { assert SocketOk(t, k); }
    forall k, i ensures Homed(u, k, i) { assert Homed(t, k, i); }
  }

  lemma AcceptKeepsSocket(t: Tunnels, id: ResId, socket: Socket, k: Socket)
    requires Inv(t) && Enabled(t, Accept(id, socket))
    ensures SocketOk(AcceptStep(t, id, socket), k)
  {
    assert SocketOk(t, k) && Homed(t, k, id) && ResOk(t, id);
  }

  lemma AcceptKeepsPorts(t: Tunnels, id: ResId, socket: Socket, i: ResId, p: Port)
    requires Inv(t) && Enabled(t, Accept(id, socket))
    ensures ResOk(AcceptStep(t, id, socket), i) && PortOk(AcceptStep(t, id, socket), p)
  {
    assert ResOk(t, id) && ResOk(t, i) && PortOk(t, p);
  }

  lemma AcceptKeepsInv(t: Tunnels, id: ResId, socket: Socket)
    requires Inv(t) && Enabled(t, Accept(id, socket))
    ensures Inv(Apply(t, Accept(id, socket)))
  {
    var u := Apply(t, Accept(id, socket));
    forall i ensures ResOk(u, i) { AcceptKeepsPorts(t, id, socket, i, 0); }
    forall p ensures PortOk(u, p) { AcceptKeepsPorts(t, id, socket, id, p); }
    forall k ensures SocketOk(u, k) { AcceptKeepsSocket(t, id, socket, k); }
    forall k, i ensures Homed(u, k, i) { assert Homed(t, k, i); }
  }

  lemma HungUpKeepsInv(t: Tunnels, socket: Socket)
    requires Inv(t) && Enabled(t, HungUp(socket))
    ensures Inv(Apply(t, HungUp(socket)))
  {
    var u := Apply(t, HungUp(socket));
    assert SocketOk(t, socket);
    forall i ensures ResOk(u, i) { assert ResOk(t, i); }
    forall p ensures PortOk(u, p) { assert PortOk(t, p); }
    forall k ensures SocketOk(u, k) { assert SocketOk(t, k); }
    forall k, i ensures Homed(u, k, i) { assert Homed(t, k, i); }
  }

  lemma OpenedKeepsPorts(t: Tunnels, socket: Socket, i: ResId, p: Port)
    requires Inv(t) && Waiting(t, socket)
    ensures ResOk(OpenedStep(t, socket), i) && PortOk(OpenedStep(t, socket), p)
  {
    assert ResOk(t, t.server[socket]) && ResOk(t, i) && PortOk(t, p);
  }

  lemma OpenedKeepsSocket(t: Tunnels, socket: Socket, k: Socket)
    requires Inv(t) && Waiting(t, socket)
    ensures SocketOk(OpenedStep(t, socket), k)
  {
    assert SocketOk(t, k);
    if k == socket { OpenedKeepsOwnSocket(t, k); } else { OpenedKeepsOthers(t, socket, k); }
  }

  lemma OpenedKeepsOwnSocket(t: Tunnels, k: Socket)
    requires Inv(t) && Waiting(t, k)
    ensures SocketOk(OpenedStep(t, k), k)
  {
    assert SocketOk(t, k) && ResOk(t, t.server[k]);
  }

  lemma OpenedKeepsOthers(t: Tunnels, socket: Socket, k: Socket)
    requires SocketOk(t, k) && Waiting(t, socket) && k != socket
    ensures SocketOk(OpenedStep(t, socket), k)
  {
  }

  lemma ForwardOpenedKeepsInv(t: Tunnels, socket: Socket)
    requires Inv(t) && Enabled(t, ForwardOpened(socket))
    ensures Inv(Apply(t, ForwardOpened(socket)))
  {
    var u := Apply(t, ForwardOpened(socket));
    forall i ensures ResOk(u, i) { OpenedKeepsPorts(t, socket, i, 0); }
    forall p ensures PortOk(u, p) { OpenedKeepsPorts(t, socket, 0, p); }
    forall k ensures SocketOk(u, k) { OpenedKeepsSocket(t, socket, k); }
    forall k, i ensures Homed(u, k, i) { assert Homed(t, k, i); }
  }

  lemma ForwardFailedKeepsInv(t: Tunnels, socket: Socket)
    requires Inv(t) && Enabled(t, ForwardFailed(socket))
    ensures Inv(Apply(t, ForwardFailed(socket)))
  {
    var u := Apply(t, ForwardFailed(socket));
    assert SocketOk(t, socket) && ResOk(t, t.server[socket]);
    forall i ensures ResOk(u, i) { assert ResOk(t, i); }
    forall p ensures PortOk(u, p) { assert PortOk(t, p); }
    forall k ensures SocketOk(u, k) { assert SocketOk(t, k); }
    forall k, i ensures Homed(u, k, i) { assert Homed(t, k, i); }
  }

  lemma EndedKeepsInv(t: Tunnels, socket: Socket)
    requires Inv(t) && Enabled(t, Ended(socket))
    ensures Inv(Apply(t, Ended(socket)))
  {
    var u := Apply(t, Ended(socket));
    assert SocketOk(t, socket) && ResOk(t, t.server[socket]);
    forall i ensures ResOk(u, i) { assert ResOk(t, i); }
    forall p ensures PortOk(u, p) { assert PortOk(t, p); }
    forall k ensures SocketOk(u, k) { assert SocketOk(t, k); }
    forall k, i ensures Homed(u, k, i) { assert Homed(t, k, i); }
  }

  lemma StepKeepsInv(t: Tunnels, e: Event)
    requires Inv(t) && Enabled(t, e)
    ensures Inv(Apply(t, e))
  {
    match e
    case Reserve(id, app, port) => ReserveKeepsInv(t, id, app, port);
    case Listening(id) => ListeningKeepsInv(t, id);
    case ListenFailed(id) => ListenFailedKeepsInv(t, id);
    case Activate(id) => ActivateKeepsInv(t, id);
    case Release(id) => ReleaseKeepsInv(t, id);
    case ServerClosed(id) => ServerClosedKeepsInv(t, id);
    case Accept(id, socket) => AcceptKeepsInv(t, id, socket);
    case HungUp(socket) => HungUpKeepsInv(t, socket);
    case ForwardOpened(socket) => ForwardOpenedKeepsInv(t, socket);
    case ForwardFailed(socket) => ForwardFailedKeepsInv(t, socket);
    case Ended(socket) => EndedKeepsInv(t, socket);
  }

  lemma {:induction false} RunKeepsInv(states: seq<Tunnels>, events: seq<Event>, n: nat)
    requires IsRun(states, events) && n <= |events|
    ensures Inv(states[n])
  {
    if n == 0 {
      forall i ensures ResOk(EMPTY, i) {}
      forall q ensures PortOk(EMPTY, q) {}
      forall k ensures SocketOk(EMPTY, k) {}
      forall k, i ensures Homed(EMPTY, k, i) {}
    } else {
      RunKeepsInv(states, events, n - 1);
      StepKeepsInv(states[n - 1], events[n - 1]);
    }
  }

  lemma PhaseOnlyAdvances(t: Tunnels, e: Event, id: ResId)
    requires Inv(t) && Enabled(t, e) && id in t.held && !t.held[id].phase.Open?
    ensures id in Apply(t, e).held && !Apply(t, e).held[id].phase.Open?
  {
    assert ResOk(t, id);
  }

  /** After release has started nothing is forwarded again, not even by an openForward that resolves late. */
  lemma {:induction false} NoForwardAfterRelease(states: seq<Tunnels>, events: seq<Event>, n: nat, m: nat, id: ResId)
    requires IsRun(states, events) && n <= m <= |events|
    requires id in states[n].held && !states[n].held[id].phase.Open?
    ensures id in states[m].held && !states[m].held[id].phase.Open?
    ensures states[m].held[id].live == {} && !states[m].held[id].target
    decreases m
  {
    if n < m {
      NoForwardAfterRelease(states, events, n, m - 1, id);
      RunKeepsInv(states, events, m - 1);
      PhaseOnlyAdvances(states[m - 1], events[m - 1], id);
    }
    RunKeepsInv(states, events, m);
    assert ResOk(states[m], id);
  }

  /** The socket of an opened forward is closed exactly if its stream is, and the forward is listed exactly until
      then. */
  ghost predicate Together(t: Tunnels, k: Socket) {
    && (k in t.deadSockets <==> k in t.deadStreams)
    && k in t.server && t.server[k] in t.held
    && (k in t.held[t.server[k]].live <==> k !in t.deadSockets)
  }

  lemma OpenedStays(t: Tunnels, e: Event, k: Socket)
    requires Inv(t) && Enabled(t, e) && k in t.streams
    ensures k in Apply(t, e).streams && (k in Apply(t, e).early <==> k in t.early)
  {
    assert SocketOk(t, k);
  }

  lemma {:induction false} OpenedStaysInRun(states: seq<Tunnels>, events: seq<Event>, m: nat, n: nat, k: Socket)
    requires IsRun(states, events) && m <= n <= |events| && k in states[m].streams
    ensures k in states[n].streams && (k in states[n].early <==> k in states[m].early)
    decreases n
  {
    if m < n {
      OpenedStaysInRun(states, events, m, n - 1, k);
      RunKeepsInv(states, events, n - 1);
      OpenedStays(states[n - 1], events[n - 1], k);
    }
  }

  /** The two ends of a forward live and end together in every later state exactly if the client had not hung up
      before openForward resolved.  Otherwise the forward starts with a closed socket, and only its stream counts. */
  lemma EndsTogetherExactly(states: seq<Tunnels>, events: seq<Event>, m: nat, k: Socket)
    requires IsRun(states, events) && m < |events| && events[m] == ForwardOpened(k)
    requires states[m].held[states[m].server[k]].phase.Open?
    ensures (forall n :: m < n <= |events| ==> Together(states[n], k)) <==> k !in states[m].early
  {
    RunKeepsInv(states, events, m);
    RunKeepsInv(states, events, m + 1);
    assert SocketOk(states[m], k) && SocketOk(states[m + 1], k);
    assert k in states[m].early ==> !Together(states[m + 1], k);
    if k !in states[m].early {
      forall n | m < n <= |events| ensures Together(states[n], k) {
        OpenedStaysInRun(states, events, m + 1, n, k);
        RunKeepsInv(states, events, n);
        assert SocketOk(states[n], k);
      }
    }
  }

  lemma Extend(states: seq<Tunnels>, events: seq<Event>, e: Event) returns (longer: seq<Tunnels>, more: seq<Event>)
    requires IsRun(states, events) && Enabled(states[|events|], e)
    ensures more == events + [e] && longer == states + [Apply(states[|events|], e)] && IsRun(longer, more)
  {
    longer, more := states + [Apply(states[|events|], e)], events + [e];
  }

  lemma ActiveReservation(app: AppId, p: Port) returns (states: seq<Tunnels>, events: seq<Event>)
    ensures IsRun(states, events) && |events| == 3
    ensures var t := states[3];
            && 0 in t.held && t.held[0].phase.Open? && t.held[0].target && t.held[0].waiting == {}
            && t.server == map[] && t.deadSockets == {}
  {
    events := [Reserve(0, app, p), Listening(0), Activate(0)];
    var s1 := EMPTY.(starting := map[0 := Claim(app, p)]);
    var s2 := ListeningStep(s1, 0);
    states := [EMPTY, s1, s2, ActivateStep(s2, 0)];
  }

  lemma HangUpThenOpen(t: Tunnels, k: Socket)
    requires 0 in t.held && t.held[0].phase.Open? && Waiting(t, k) && t.server[k] == 0
    ensures var u := HungUpStep(t, k);
            && Waiting(u, k)
            && var v := OpenedStep(u, k);
               && k in v.deadSockets && k in v.streams && v.deadStreams == t.deadStreams
               && 0 in v.held && k in v.held[0].live
  {
  }

  /** Such a forward exists: its socket is closed from the start, its stream is open, and it is listed. */
  lemma HangUpLeavesStream(app: AppId, p: Port, k: Socket) returns (states: seq<Tunnels>, events: seq<Event>)
    ensures IsRun(states, events) && |events| == 6 && events[4] == HungUp(k) && events[5] == ForwardOpened(k)
    ensures var t := states[6];
            k in t.deadSockets && k in t.streams && k !in t.deadStreams && 0 in t.held && k in t.held[0].live
  {
    states, events := ActiveReservation(app, p);
    states, events := Extend(states, events, Accept(0, k));
    RunKeepsInv(states, events, 4);
    assert SocketOk(states[4], k);
    HangUpThenOpen(states[4], k);
    states, events := Extend(states, events, HungUp(k));
    states, events := Extend(states, events, ForwardOpened(k));
  }

  /** In any case a forward is in the set exactly while its stream is open, and its socket is closed with it at the
      latest. */
  lemma ListedWhileStreaming(states: seq<Tunnels>, events: seq<Event>, n: nat, k: Socket)
    requires IsRun(states, events) && n <= |events| && k in states[n].streams
    ensures k in states[n].server && states[n].server[k] in states[n].held
    ensures k in states[n].held[states[n].server[k]].live <==> k !in states[n].deadStreams
    ensures k in states[n].deadStreams ==> k in states[n].deadSockets
  {
    RunKeepsInv(states, events, n);
    assert SocketOk(states[n], k);
  }

  /** Nothing a reservation accepted survives it: when its server has closed every socket has ended, and so has
      every stream, one that is still to come included. */
  lemma NothingSurvivesRelease(states: seq<Tunnels>, events: seq<Event>, n: nat, k: Socket)
    requires IsRun(states, events) && n <= |events|
    requires k in states[n].server && states[n].server[k] in states[n].held
    requires states[n].held[states[n].server[k]].phase.Released?
    ensures k in states[n].deadSockets && (k in states[n].streams ==> k in states[n].deadStreams)
  {
    RunKeepsInv(states, events, n);
    assert SocketOk(states[n], k) && ResOk(states[n], states[n].server[k]);
  }

  /** onReleased runs exactly once for a released reservation and never for another. */
  lemma ReleasedExactlyOnce(states: seq<Tunnels>, events: seq<Event>, n: nat, id: ResId)
    requires IsRun(states, events) && n <= |events|
    ensures states[n].released[id] == if id in states[n].held && states[n].held[id].phase.Released? then 1 else 0
  {
    RunKeepsInv(states, events, n);
    assert ResOk(states[n], id);
  }

  /** Open reservations have pairwise distinct ports. */
  lemma OpenPortsDiffer(states: seq<Tunnels>, events: seq<Event>, n: nat, i: ResId, j: ResId)
    requires IsRun(states, events) && n <= |events| && i != j
    requires i in states[n].held && states[n].held[i].phase.Open?
    requires j in states[n].held && states[n].held[j].phase.Open?
    ensures states[n].held[i].port != states[n].held[j].port
  {
    RunKeepsInv(states, events, n);
    assert ResOk(states[n], i) && ResOk(states[n], j);
  }

  // ---------- what the manager knows ----------

  /** The manager's maps list unreleased reservations of their own application, activated ones in the second. */
  ghost predicate AppOk(t: Tunnels, a: AppId) {
    && (a in t.reservations ==>
          && t.reservations[a] in t.held && t.held[t.reservations[a]].app == a
          && !t.held[t.reservations[a]].phase.Released?)
    && (a in t.active ==> a in t.reservations && t.active[a] == t.reservations[a] && t.held[t.active[a]].activated)
  }

  ghost predicate Listed(t: Tunnels, id: ResId) {
    id in t.held && !t.held[id].phase.Released? ==>
      && t.held[id].app in t.reservations && t.reservations[t.held[id].app] == id
      && (t.held[id].activated ==> t.held[id].app in t.active)
  }

  /** The maps know exactly the unreleased reservations. */
  ghost predicate Exact(t: Tunnels) {
    (forall a :: AppOk(t, a)) && (forall id :: Listed(t, id))
  }

  /** A server comes up for an application that has a reservation by now. */
  predicate Clashes(t: Tunnels, e: Event) {
    e.Listening? && e.id in t.starting && t.starting[e.id].app in t.reservations
  }

  lemma ReserveKeepsExact(t: Tunnels, i: ResId, app: AppId, port: Port, a: AppId, id: ResId)
    requires Exact(t) && Enabled(t, Reserve(i, app, port))
    ensures AppOk(Apply(t, Reserve(i, app, port)), a) && Listed(Apply(t, Reserve(i, app, port)), id)
  {
    assert AppOk(t, a) && Listed(t, id);
  }

  lemma ListeningKeepsExact(t: Tunnels, i: ResId, a: AppId, id: ResId)
    requires Inv(t) && Exact(t) && Enabled(t, Listening(i)) && !Clashes(t, Listening(i))
    ensures AppOk(Apply(t, Listening(i)), a) && Listed(Apply(t, Listening(i)), id)
  {
    assert AppOk(t, a) && AppOk(t, t.starting[i].app) && Listed(t, id) && ResOk(t, i);
  }

  lemma ListenFailedKeepsExact(t: Tunnels, i: ResId, a: AppId, id: ResId)
    requires Exact(t) && Enabled(t, ListenFailed(i))
    ensures AppOk(Apply(t, ListenFailed(i)), a) && Listed(Apply(t, ListenFailed(i)), id)
  {
    assert AppOk(t, a) && Listed(t, id);
  }

  lemma ActivateKeepsExact(t: Tunnels, i: ResId, a: AppId, id: ResId)
    requires Exact(t) && Enabled(t, Activate(i))
    ensures AppOk(Apply(t, Activate(i)), a) && Listed(Apply(t, Activate(i)), id)
  {
    assert AppOk(t, a) && Listed(t, id) && Listed(t, i);
  }

  lemma ReleaseKeepsExact(t: Tunnels, i: ResId, a: AppId, id: ResId)
    requires Exact(t) && Enabled(t, Release(i))
    ensures AppOk(Apply(t, Release(i)), a) && Listed(Apply(t, Release(i)), id)
  {
    assert AppOk(t, a) && Listed(t, id);
  }

  lemma ServerClosedKeepsExact(t: Tunnels, i: ResId, a: AppId, id: ResId)
    requires Exact(t) && Enabled(t, ServerClosed(i))
    ensures AppOk(Apply(t, ServerClosed(i)), a) && Listed(Apply(t, ServerClosed(i)), id)
  {
    assert AppOk(t, a) && Listed(t, id) && Listed(t, i);
  }

  /** From `t` to `u` only sockets of reservation `i` came or went. */
  ghost predicate OnlySockets(t: Tunnels, u: Tunnels, i: ResId) {
    && i in t.held && i in u.held
    && u.starting == t.starting && u.reservations == t.reservations && u.active == t.active
    && u.held == t.held[i := u.held[i]]
    && u.held[i].app == t.held[i].app && u.held[i].phase == t.held[i].phase
    && u.held[i].activated == t.held[i].activated
  }

  /** Sockets come and go without touching what the manager knows. */
  lemma SocketsKeepExact(t: Tunnels, u: Tunnels, i: ResId, a: AppId, id: ResId)
    requires Exact(t) && OnlySockets(t, u, i)
    ensures AppOk(u, a) && Listed(u, id)
  {
    assert AppOk(t, a) && Listed(t, id);
  }

  lemma AcceptIsOnlySockets(t: Tunnels, id: ResId, socket: Socket)
    requires id in t.held
    ensures OnlySockets(t, AcceptStep(t, id, socket), id)
  {
  }

  lemma HungUpIsOnlySockets(t: Tunnels, socket: Socket)
    requires Waiting(t, socket)
    ensures OnlySockets(t, HungUpStep(t, socket), t.server[socket])
  {
  }

  lemma OpenedIsOnlySockets(t: Tunnels, socket: Socket)
    requires Waiting(t, socket)
    ensures OnlySockets(t, OpenedStep(t, socket), t.server[socket])
  {
  }

  lemma FailedIsOnlySockets(t: Tunnels, socket: Socket)
    requires Waiting(t, socket)
    ensures OnlySockets(t, FailedStep(t, socket), t.server[socket])
  {
  }

  lemma EndedIsOnlySockets(t: Tunnels, socket: Socket)
    requires socket in t.server && t.server[socket] in t.held
    ensures OnlySockets(t, EndedStep(t, socket), t.server[socket])
  {
  }

  lemma StepKeepsExactAt(t: Tunnels, e: Event, a: AppId, id: ResId)
    requires Inv(t) && Exact(t) && Enabled(t, e) && !Clashes(t, e)
    ensures AppOk(Apply(t, e), a) && Listed(Apply(t, e), id)
  {
    match e
    case Reserve(i, app, port) => ReserveKeepsExact(t, i, app, port, a, id);
    case Listening(i) => ListeningKeepsExact(t, i, a, id);
    case ListenFailed(i) => ListenFailedKeepsExact(t, i, a, id);
    case Activate(i) => ActivateKeepsExact(t, i, a, id);
    case Release(i) => ReleaseKeepsExact(t, i, a, id);
    case ServerClosed(i) => ServerClosedKeepsExact(t, i, a, id);
    case Accept(i, socket) =>
      AcceptIsOnlySockets(t, i, socket);
      SocketsKeepExact(t, AcceptStep(t, i, socket), i, a, id);
    case HungUp(socket) =>
      HungUpIsOnlySockets(t, socket);
      SocketsKeepExact(t, HungUpStep(t, socket), t.server[socket], a, id);
    case ForwardOpened(socket) =>
      OpenedIsOnlySockets(t, socket);
      SocketsKeepExact(t, OpenedStep(t, socket), t.server[socket], a, id);
    case ForwardFailed(socket) =>
      FailedIsOnlySockets(t, socket);
      SocketsKeepExact(t, FailedStep(t, socket), t.server[socket], a, id);
    case Ended(socket) =>
      EndedIsOnlySockets(t, socket);
      SocketsKeepExact(t, EndedStep(t, socket), t.server[socket], a, id);
  }

  lemma StepKeepsExact(t: Tunnels, e: Event)
    requires Inv(t) && Exact(t) && Enabled(t, e) && !Clashes(t, e)
    ensures Exact(Apply(t, e))
  {
    forall a ensures AppOk(Apply(t, e), a) { StepKeepsExactAt(t, e, a, 0); }
    forall id ensures Listed(Apply(t, e), id) { StepKeepsExactAt(t, e, "", id); }
  }

  /** A clash makes the manager forget the reservation it had. */
  lemma ClashForgets(t: Tunnels, i: ResId)
    requires Inv(t) && Exact(t) && Enabled(t, Listening(i)) && Clashes(t, Listening(i))
    ensures !Listed(ListeningStep(t, i), t.reservations[t.starting[i].app])
  {
    assert AppOk(t, t.starting[i].app) && ResOk(t, i);
  }

  /** The maps stay exact under a step if and only if it is not a clash. */
  lemma StaysExactExactly(t: Tunnels, e: Event)
    requires Inv(t) && Exact(t) && Enabled(t, e)
    ensures Exact(Apply(t, e)) <==> !Clashes(t, e)
  {
    if Clashes(t, e) { ClashForgets(t, e.id); } else { StepKeepsExact(t, e); }
  }

  ghost predicate ExactTo(states: seq<Tunnels>, n: nat)
    requires n < |states|
  {
    forall m :: 0 <= m <= n ==> Exact(states[m])
  }

  ghost predicate NoClashBefore(states: seq<Tunnels>, events: seq<Event>, n: nat)
    requires n <= |events| < |states|
  {
    forall m :: 0 <= m < n ==> !Clashes(states[m], events[m])
  }

  /** Over a run: the maps are exact all the way to `n` if and only if nothing clashed before. */
  lemma {:induction false} ExactUntilClash(states: seq<Tunnels>, events: seq<Event>, n: nat)
    requires IsRun(states, events) && n <= |events|
    ensures ExactTo(states, n) <==> NoClashBefore(states, events, n)
  {
    if n == 0 {
      forall a ensures AppOk(EMPTY, a) {}
      forall id ensures Listed(EMPTY, id) {}
    } else {
      ExactUntilClash(states, events, n - 1);
      RunKeepsInv(states, events, n - 1);
      if ExactTo(states, n - 1) { StaysExactExactly(states[n - 1], events[n - 1]); }
      assert ExactTo(states, n) <==> ExactTo(states, n - 1) && Exact(states[n]);
      assert NoClashBefore(states, events, n)
        <==> NoClashBefore(states, events, n - 1) && !Clashes(states[n - 1], events[n - 1]);
    }
  }

  /** While the maps are exact every active tunnel is the reservation of its application, and an application is
      listed exactly while it has an unreleased reservation. */
  lemma ActiveIsReserved(t: Tunnels, a: AppId)
    requires Exact(t)
    ensures a in t.active ==> a in t.reservations && t.active[a] == t.reservations[a]
    ensures a in t.reservations <==> exists id :: id in t.held && t.held[id].app == a && !t.held[id].phase.Released?
  {
    assert AppOk(t, a);
    if id :| id in t.held && t.held[id].app == a && !t.held[id].phase.Released? { assert Listed(t, id); }
  }

  // ---------- reserve calls of one application that do not overlap ----------

  ghost predicate Alone(t: Tunnels, e: Event) {
    e.Reserve? && e.app !in t.reservations ==> forall i :: i in t.starting ==> t.starting[i].app != e.app
  }

  /** A reserve call that still listens is the only one of its application, which has no reservation. */
  ghost predicate Unshared(t: Tunnels, id: ResId) {
    id in t.starting ==>
      && t.starting[id].app !in t.reservations
      && forall j :: j in t.starting && j != id ==> t.starting[j].app != t.starting[id].app
  }

  ghost predicate Sole(t: Tunnels) {
    Exact(t) && forall id :: Unshared(t, id)
  }

  lemma SoleNeverClashes(t: Tunnels, e: Event)
    requires Sole(t)
    ensures !Clashes(t, e)
  {
    if e.Listening? { assert Unshared(t, e.id); }
  }

  lemma SocketsKeepUnshared(t: Tunnels, e: Event, id: ResId)
    requires Unshared(t, id) && Enabled(t, e)
    requires e.Accept? || e.HungUp? || e.ForwardOpened? || e.ForwardFailed? || e.Ended?
    ensures Unshared(Apply(t, e), id)
  {
    match e
    case Accept(i, socket) => AcceptIsOnlySockets(t, i, socket);
    case HungUp(socket) => HungUpIsOnlySockets(t, socket);
    case ForwardOpened(socket) => OpenedIsOnlySockets(t, socket);
    case ForwardFailed(socket) => FailedIsOnlySockets(t, socket);
    case Ended(socket) => EndedIsOnlySockets(t, socket);
  }

  lemma ListeningKeepsUnshared(t: Tunnels, i: ResId, id: ResId)
    requires Unshared(t, id) && Unshared(t, i) && Enabled(t, Listening(i))
    ensures Unshared(ListeningStep(t, i), id)
  {
  }

  lemma StepKeepsUnshared(t: Tunnels, e: Event, id: ResId)
    requires Sole(t) && Enabled(t, e) && Alone(t, e)
    ensures Unshared(Apply(t, e), id)
  {
    assert Unshared(t, id);
    if e.Listening? {
      assert Unshared(t, e.id);
      ListeningKeepsUnshared(t, e.id, id);
    } else if e.Accept? || e.HungUp? || e.ForwardOpened? || e.ForwardFailed? || e.Ended? {
      SocketsKeepUnshared(t, e, id);
    }
  }

  lemma StepKeepsSole(t: Tunnels, e: Event)
    requires Inv(t) && Sole(t) && Enabled(t, e) && Alone(t, e)
    ensures Sole(Apply(t, e))
  {
    SoleNeverClashes(t, e);
    StepKeepsExact(t, e);
    forall id ensures Unshared(Apply(t, e), id) { StepKeepsUnshared(t, e, id); }
  }

  /** Reserve calls that do not overlap never clash, so the maps are exact throughout. */
  lemma {:induction false} NoOverlapKeepsSole(states: seq<Tunnels>, events: seq<Event>, n: nat)
    requires IsRun(states, events) && n <= |events|
    requires forall i :: 0 <= i < |events| ==> Alone(states[i], events[i])
    ensures Sole(states[n])
    ensures NoClashBefore(states, events, n)
  {
    if n == 0 {
      ExactUntilClash(states, events, 0);
      forall id ensures Unshared(EMPTY, id) {}
    } else {
      NoOverlapKeepsSole(states, events, n - 1);
      RunKeepsInv(states, events, n - 1);
      SoleNeverClashes(states[n - 1], events[n - 1]);
      StepKeepsSole(states[n - 1], events[n - 1]);
    }
  }

  /** Overlap alone is harmless while one of the two listen calls fails: a run with overlap and without a clash. */
  lemma OverlapWithoutClash(app: AppId, p: Port, q: Port) returns (states: seq<Tunnels>, events: seq<Event>)
    ensures IsRun(states, events) && |events| == 4
    ensures !Alone(states[1], events[1])
    ensures NoClashBefore(states, events, 4)
  {
    events := [Reserve(0, app, p), Reserve(1, app, q), ListenFailed(0), Listening(1)];
    var s1 := EMPTY.(starting := map[0 := Claim(app, p)]);
    var s2 := EMPTY.(starting := map[0 := Claim(app, p), 1 := Claim(app, q)]);
    var s3 := s2.(starting := s2.starting - {0});
    states := [EMPTY, s1, s2, s3, ListeningStep(s3, 1)];
    assert 0 in s1.starting && s1.starting[0].app == app;
  }

  /** Two overlapping reserve calls that both listen: the manager forgets the first reservation, whose port stays
      bound. */
  lemma OverlapForgetsReservation(app: AppId, p: Port, q: Port) returns (states: seq<Tunnels>, events: seq<Event>)
    requires p != q
    ensures IsRun(states, events) && |events| == 4
    ensures 0 in states[4].held && states[4].held[0].app == app && states[4].held[0].phase.Open?
    ensures p in states[4].bound && app in states[4].reservations && states[4].reservations[app] == 1
  {
    events := [Reserve(0, app, p), Reserve(1, app, q), Listening(0), Listening(1)];
    var s1 := EMPTY.(starting := map[0 := Claim(app, p)]);
    var s2 := EMPTY.(starting := map[0 := Claim(app, p), 1 := Claim(app, q)]);
    var s3 := ListeningStep(s2, 0);
    states := [EMPTY, s1, s2, s3, ListeningStep(s3, 1)];
  }
}
