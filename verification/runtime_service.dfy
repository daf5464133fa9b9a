/** AppRuntimeServiceImpl run without interference: connectInternal from its first statement to its
    last with the dependencies it calls, and shutdown up to the moment its first await resumes.
 */
module RuntimeService {
  import opened RuntimeModel
  import RI = RuntimeInvariant
  import P = PoolModel
  import T = TunnelModel

  /** What the awaited calls of one connectInternal will answer. */
  datatype Answers = Answers(
    binds: bool,            // the listen call succeeds, if the port is free
    connects: bool,         // factory.connect succeeds
    probe: Outcome,
    launches: bool,
    polls: seq<Outcome>,    // the probes of the loop; when they run out so has the time
    healthy: bool)

  // ---------- what connect `c` has added to the tunnels and to the pool ----------

  /** `t` is `t0` with the open reservation `c` of `app` added. */
  ghost predicate Reserved(t0: T.Tunnels, t: T.Tunnels, c: ConnId, app: App, activated: bool) {
    && app.id !in t0.reservations && app.id !in t0.active && app.port !in t0.bound
    && t.reservations == t0.reservations[app.id := c]
    && t.bound == t0.bound[app.port := c]
    && t.active == (if activated then t0.active[app.id := c] else t0.active)
    && t.starting == t0.starting
    && c in t.held && t.held[c] == T.Reservation(app.id, app.port, T.Open, activated, activated, {}, {})
  }

  ghost predicate SameMaps(t0: T.Tunnels, t: T.Tunnels) {
    t.reservations == t0.reservations && t.bound == t0.bound && t.active == t0.active && t.starting == t0.starting
  }

  /** Releasing the reservation and closing its server takes away exactly what was added. */
  lemma ReleaseRestores(t0: T.Tunnels, t: T.Tunnels, c: ConnId, app: App, activated: bool)
    requires Reserved(t0, t, c, app, activated)
    ensures T.Enabled(T.ReleaseStep(t, c), T.ServerClosed(c))
    ensures SameMaps(t0, T.ServerClosedStep(T.ReleaseStep(t, c), c))
    ensures T.ServerClosedStep(T.ReleaseStep(t, c), c).held[c].phase.Released?
  {
  }

  /** `p` is `p0` with the unreleased lease `c` added: one more lease on a pooled session, or a session of its own. */
  ghost predicate Leased(p0: P.Pool, p: P.Pool, c: ConnId, server: P.ServerId) {
    && c in p.leases && !p.leases[c].released && p.leases[c].server == server
    && p.connecting == p0.connecting
    && server in p.sessions && p.leases[c].session == p.sessions[server].session
    && p.sessions == p0.sessions[server := p.sessions[server]]
    && (if server in p0.sessions then
          p.sessions[server] == P.Entry(p0.sessions[server].session, p0.sessions[server].leases + 1)
        else p.sessions[server].leases == 1)
  }

  lemma ReleaseLeaseRestores(p0: P.Pool, p: P.Pool, c: ConnId, server: P.ServerId)
    requires Leased(p0, p, c, server) && P.Inv(p0)
    ensures P.ReleaseStep(p, c).sessions == p0.sessions && P.ReleaseStep(p, c).connecting == p0.connecting
  {
    assert P.EntryOk(p0, server);
  }

  // ---------- when a connect succeeds ----------

  /** Some probe of the loop finds the port open, and none before it throws. */
  ghost predicate PollOpens(polls: seq<Outcome>) {
    exists i :: 0 <= i < |polls| && polls[i] == Yes && forall j :: 0 <= j < i ==> polls[j] == No
  }

  ghost predicate PortComesUp(app: App, answers: Answers) {
    || answers.probe == Yes
    || (answers.probe == No && app.autoStart && app.hasStartCommand && answers.launches && PollOpens(answers.polls))
  }

  ghost predicate Succeeds(t: T.Tunnels, p: P.Pool, app: App, answers: Answers) {
    && app.id !in t.reservations && app.port !in t.bound && answers.binds
    && (app.server in p.sessions || answers.connects)
    && PortComesUp(app, answers) && answers.healthy
  }

  // ---------- which stop commands a shutdown sends ----------

  /** `order` lists the active applications, each once: the insertion order of the map. */
  ghost predicate Lists(order: seq<AppId>, active: map<AppId, Entry>) {
    && (forall a :: a in active <==> a in order)
    && (forall i, j :: 0 <= i < j < |order| ==> order[i] != order[j])
  }

  /** Application `order[i]` is the last of its server and wants its stop command. */
  ghost predicate GetsStop(active: map<AppId, Entry>, order: seq<AppId>, i: int)
    requires Lists(order, active)
  {
    && 0 <= i < |order|
    && (forall j :: i < j < |order| ==> active[order[j]].app.server != active[order[i]].app.server)
    && active[order[i]].started && active[order[i]].app.stopOnDisconnect && active[order[i]].app.hasStopCommand
  }

  /** The applications that get a stop command when their entries are taken in `order`. */
  ghost function Told(active: map<AppId, Entry>, order: seq<AppId>): seq<AppId>
    requires Lists(order, active)
  {
    if order == [] then [] else
    TailLists(active, order);
    (if WantsStop(active, order[0]) then [order[0]] else []) + Told(active - {order[0]}, order[1..])
  }

  lemma TailLists(active: map<AppId, Entry>, order: seq<AppId>)
    requires Lists(order, active) && order != []
    ensures order[0] in active && Lists(order[1..], active - {order[0]})
  {
    forall a ensures a in active - {order[0]} <==> a in order[1..] {
      if a in order { var i :| 0 <= i < |order| && order[i] == a; assert i > 0 ==> order[1..][i - 1] == a; }
    }
    forall i, j | 0 <= i < j < |order| - 1 ensures order[1..][i] != order[1..][j] {
      assert order[i + 1] != order[j + 1];
    }
  }

  lemma ToldStep(active: map<AppId, Entry>, order: seq<AppId>, n: nat)
    requires n < |order| && Lists(order[n..], active)
    ensures order[n] in active && Lists(order[n + 1..], active - {order[n]})
    ensures Told(active, order[n..])
         == (if WantsStop(active, order[n]) then [order[n]] else []) + Told(active - {order[n]}, order[n + 1..])
  {
    TailLists(active, order[n..]);
    assert order[n..][1..] == order[n + 1..];
  }

  lemma ToldNext(stopped: seq<AppId>, active: map<AppId, Entry>, order: seq<AppId>, n: nat)
    requires n < |order| && Lists(order[n..], active)
    ensures order[n] in active && Lists(order[n + 1..], active - {order[n]})
    ensures stopped + Told(active, order[n..])
         == stopped + (if WantsStop(active, order[n]) then [order[n]] else [])
            + Told(active - {order[n]}, order[n + 1..])
  {
    ToldStep(active, order, n);
    var sent := if WantsStop(active, order[n]) then [order[n]] else [];
    Rebracket(stopped, sent, Told(active - {order[n]}, order[n + 1..]));
  }

  lemma Rebracket(a: seq<AppId>, b: seq<AppId>, c: seq<AppId>)
    ensures a + (b + c) == a + b + c
  {
  }

  /** The first application finds no peer exactly when it is the last of its server. */
  lemma HeadIsLast(active: map<AppId, Entry>, order: seq<AppId>)
    requires Lists(order, active) && order != []
    ensures order[0] in active && (WantsStop(active, order[0]) <==> GetsStop(active, order, 0))
  {
    var a := order[0];
    assert a in order;
    if b :| b in Peers(active, a) {
      var j :| 0 <= j < |order| && order[j] == b;
      assert 0 < j;
    }
    if j :| 0 < j < |order| && active[order[j]].app.server == active[a].app.server {
      assert order[j] in active && order[j] != a;
      assert order[j] in Peers(active, a);
    }
  }

  lemma TailGetsStop(active: map<AppId, Entry>, order: seq<AppId>, i: int)
    requires Lists(order, active) && order != [] && Lists(order[1..], active - {order[0]}) && 0 < i < |order|
    ensures GetsStop(active, order, i) <==> GetsStop(active - {order[0]}, order[1..], i - 1)
  {
    var rest, tail := active - {order[0]}, order[1..];
    assert tail[i - 1] == order[i] && order[i] in order;
    forall j | 0 < j < |order| ensures order[j] == tail[j - 1] && rest[tail[j - 1]] == active[order[j]] {
      assert tail[j - 1] in tail;
    }
    if GetsStop(active, order, i) {
      forall j | i - 1 < j < |tail| ensures rest[tail[j]].app.server != rest[tail[i - 1]].app.server {
        assert tail[j] == order[j + 1];
      }
    }
    if GetsStop(rest, tail, i - 1) {
      forall j | i < j < |order| ensures active[order[j]].app.server != active[order[i]].app.server {
        assert tail[j - 1] == order[j];
      }
    }
  }

  /** A shutdown stops exactly the applications that are the last of their server and want it. */
  lemma {:induction false} ToldExactly(active: map<AppId, Entry>, order: seq<AppId>, i: int)
    requires Lists(order, active) && 0 <= i < |order|
    ensures order[i] in Told(active, order) <==> GetsStop(active, order, i)
    ensures forall b :: b in Told(active, order) ==> b in order
    decreases |order|
  {
    TailLists(active, order);
    HeadIsLast(active, order);
    var rest, tail := active - {order[0]}, order[1..];
    ToldInOrder(rest, tail);
    if i > 0 {
      ToldExactly(rest, tail, i - 1);
      TailGetsStop(active, order, i);
      assert order[i] == tail[i - 1] && order[i] != order[0];
    }
  }

  lemma {:induction false} ToldInOrder(active: map<AppId, Entry>, order: seq<AppId>)
    requires Lists(order, active)
    ensures forall b :: b in Told(active, order) ==> b in order
    decreases |order|
  {
    if order != [] {
      TailLists(active, order);
      ToldInOrder(active - {order[0]}, order[1..]);
    }
  }

  /** At most one stop command per server. */
  lemma {:induction false} OneStopPerServer(active: map<AppId, Entry>, order: seq<AppId>, k: int, l: int)
    requires Lists(order, active) && 0 <= k < l < |Told(active, order)|
    ensures Told(active, order)[k] in active && Told(active, order)[l] in active
    ensures active[Told(active, order)[k]].app.server != active[Told(active, order)[l]].app.server
    decreases |order|
  {
    TailLists(active, order);
    var rest, tail := active - {order[0]}, order[1..];
    var told, more := Told(active, order), Told(rest, tail);
    ToldInOrder(active, order);
    if WantsStop(active, order[0]) {
      assert told == [order[0]] + more;
      if k == 0 {
        assert told[l] == more[l - 1] && more[l - 1] in more;
        ToldInOrder(rest, tail);
        assert told[l] !in Peers(active, order[0]);
      } else {
        assert told[k] == more[k - 1] && told[l] == more[l - 1];
        OneStopPerServer(rest, tail, k - 1, l - 1);
      }
    } else {
      assert told == more;
      OneStopPerServer(rest, tail, k, l);
    }
  }

  // ---------- which tunnels a shutdown begins to close ----------

  /** The tunnels once the entry of `a` was taken: its own begins to close unless a stop command goes first. */
  function TakenFrom(active: map<AppId, Entry>, a: AppId, t: T.Tunnels): T.Tunnels
    requires a in active
  {
    if WantsStop(active, a) then t else CloseTunnel(t, active[a].conn)
  }

  /** The tunnels once all entries were taken in `order`. */
  ghost function Closings(active: map<AppId, Entry>, order: seq<AppId>, t: T.Tunnels): T.Tunnels
    requires Lists(order, active)
    decreases |order|
  {
    if order == [] then t else
    TailLists(active, order);
    Closings(active - {order[0]}, order[1..], TakenFrom(active, order[0], t))
  }

  lemma ClosingsNext(active: map<AppId, Entry>, order: seq<AppId>, n: nat, t: T.Tunnels)
    requires n < |order| && Lists(order[n..], active)
    ensures order[n] in active && Lists(order[n + 1..], active - {order[n]})
    ensures Closings(active, order[n..], t)
         == Closings(active - {order[n]}, order[n + 1..], TakenFrom(active, order[n], t))
  {
    TailLists(active, order[n..]);
    assert order[n..][1..] == order[n + 1..];
  }

  /** Every entry has a reservation of its own, open and activated. */
  ghost predicate OwnTunnels(active: map<AppId, Entry>, t: T.Tunnels) {
    && (forall a :: a in active ==> OpenTunnel(t, active[a].conn))
    && (forall a, b :: a in active && b in active && a != b ==> active[a].conn != active[b].conn)
  }

  predicate OpenTunnel(t: T.Tunnels, c: ConnId) {
    c in t.held && t.held[c].phase.Open? && t.held[c].activated
  }

  /** Tunnels of other numbers stay as they are. */
  lemma {:induction false} ClosingsLeave(active: map<AppId, Entry>, order: seq<AppId>, t: T.Tunnels, c: ConnId)
    requires Lists(order, active) && c in t.held && forall a :: a in active ==> active[a].conn != c
    ensures c in Closings(active, order, t).held && Closings(active, order, t).held[c] == t.held[c]
    decreases |order|
  {
    if order != [] {
      TailLists(active, order);
      ClosingsLeave(active - {order[0]}, order[1..], TakenFrom(active, order[0], t), c);
    }
  }

  lemma TakenKeepsOwn(active: map<AppId, Entry>, a: AppId, t: T.Tunnels)
    requires a in active && OwnTunnels(active, t)
    ensures OwnTunnels(active - {a}, TakenFrom(active, a, t))
  {
    var u := TakenFrom(active, a, t);
    forall b | b in active && b != a ensures OpenTunnel(u, active[b].conn) { assert OpenTunnel(t, active[b].conn); }
  }

  lemma HeadCloses(active: map<AppId, Entry>, order: seq<AppId>, t: T.Tunnels)
    requires Lists(order, active) && order != [] && OwnTunnels(active, t)
    ensures order[0] in active
    ensures OpenTunnel(Closings(active, order, t), active[order[0]].conn) <==> GetsStop(active, order, 0)
  {
    TailLists(active, order);
    HeadIsLast(active, order);
    var a := order[0];
    assert OpenTunnel(t, active[a].conn);
    ClosingsLeave(active - {a}, order[1..], TakenFrom(active, a, t), active[a].conn);
  }

  lemma ClosingsTail(active: map<AppId, Entry>, order: seq<AppId>, t: T.Tunnels)
    requires Lists(order, active) && order != [] && OwnTunnels(active, t)
    ensures order[0] in active && Lists(order[1..], active - {order[0]})
    ensures OwnTunnels(active - {order[0]}, TakenFrom(active, order[0], t))
    ensures Closings(active, order, t) == Closings(active - {order[0]}, order[1..], TakenFrom(active, order[0], t))
  {
    TailLists(active, order);
    TakenKeepsOwn(active, order[0], t);
  }

  /** A shutdown begins to close exactly the tunnels of the applications that get no stop command. */
  lemma {:induction false} ClosingsExactly(active: map<AppId, Entry>, order: seq<AppId>, t: T.Tunnels, i: int)
    requires Lists(order, active) && 0 <= i < |order| && OwnTunnels(active, t)
    ensures order[i] in active
    ensures OpenTunnel(Closings(active, order, t), active[order[i]].conn) <==> GetsStop(active, order, i)
    decreases |order|
  {
    if i == 0 {
      HeadCloses(active, order, t);
    } else {
      ClosingsTail(active, order, t);
      ClosingsExactly(active - {order[0]}, order[1..], TakenFrom(active, order[0], t), i - 1);
      TailGetsStop(active, order, i);
      assert order[1..][i - 1] == order[i] && order[i] in order;
    }
  }

  class AppRuntimeService {
    var active: map<AppId, Entry>
    var tunnels: T.Tunnels
    var pool: P.Pool
    var statuses: seq<Status>  // what connectInternal has published
    var stopped: seq<AppId>    // applications whose stop command was sent

    /** tunnels.reserve: refused, not bound, or bound. */
    method Reserve(c: ConnId, app: App, binds: bool) returns (ok: bool)
      requires T.Fresh(tunnels, c) && (app.id in tunnels.active ==> app.id in tunnels.reservations)
      modifies this`tunnels
      ensures ok ==> Reserved(old(tunnels), tunnels, c, app, false)
      ensures !ok ==> tunnels == old(tunnels)
      ensures ok <==> app.id !in old(tunnels).reservations && app.port !in old(tunnels).bound && binds
    {
      if app.id in tunnels.reservations { return false; }
      ghost var before := tunnels;
      tunnels := T.ReserveStep(tunnels, c, app.id, app.port);
      if app.port in tunnels.bound || !binds {
        tunnels := tunnels.(starting := tunnels.starting - {c});
        assert tunnels.starting == before.starting;
        return false;
      }
      tunnels := T.ListeningStep(tunnels, c);
      assert tunnels.starting == before.starting;
      return true;
    }

    /** sessions.acquire. */
    method Acquire(c: ConnId, server: P.ServerId, connects: bool) returns (ok: bool)
      requires P.Fresh(pool, c)
      modifies this`pool
      ensures ok ==> Leased(old(pool), pool, c, server)
      ensures !ok ==> pool == old(pool)
      ensures ok <==> server in old(pool).sessions || connects
    {
      if server in pool.sessions {
        pool := P.Hand(pool, c, server);
        return true;
      }
      ghost var before := pool;
      pool := P.AcquireStep(pool, c, server);
      if !connects {
        pool := pool.(connecting := pool.connecting - {c});
        assert pool.connecting == before.connecting;
        return false;
      }
      pool := P.ConnectedStep(pool, c);
      assert pool.connecting == before.connecting;
      return true;
    }

    /** The loop that waits for the started application. */
    static method PollUntilOpen(polls: seq<Outcome>) returns (open: bool)
      ensures open <==> PollOpens(polls)
    {
      open := false;
      var i := 0;
      while !open && i < |polls|
        invariant 0 <= i <= |polls|
        invariant open ==> i > 0 && polls[i - 1] == Yes && forall j :: 0 <= j < i - 1 ==> polls[j] == No
        invariant !open ==> forall j :: 0 <= j < i ==> polls[j] == No
        decreases |polls| - i, !open
      {
        if polls[i] == Throws { return false; }
        open := polls[i] == Yes;
        i := i + 1;
      }
    }

    /** From the reservation on: probe, perhaps start and poll. */
    method BringUp(app: App, answers: Answers) returns (open: bool, started: bool)
      modifies this`statuses
      ensures open <==> PortComesUp(app, answers)
      ensures started <==> answers.probe == No && app.autoStart && app.hasStartCommand && answers.launches
      ensures statuses == old(statuses)
           || (statuses == old(statuses) + [SStarting] && answers.probe == No && app.autoStart && app.hasStartCommand)
      ensures started ==> statuses == old(statuses) + [SStarting]
      ensures open && !started ==> statuses == old(statuses)
    {
      open, started := answers.probe == Yes, false;
      if answers.probe == Throws { return; }
      if !open {
        if !app.autoStart || !app.hasStartCommand { return; }
        statuses := statuses + [SStarting];
        if !answers.launches { return; }
        started := true;
        open := PollUntilOpen(answers.polls);
      }
    }

    /** The end of the try block: activate, check the health, store the entry. */
    method Finish(c: ConnId, app: App, started: bool, healthy: bool, ghost t0: T.Tunnels, ghost way: seq<Status>)
      requires Reserved(t0, tunnels, c, app, false) && RI.UpToTunneling(way)
      modifies this`tunnels, this`statuses, this`active
      ensures Reserved(t0, tunnels, c, app, true)
      ensures healthy ==>
                active == old(active)[app.id := Entry(c, app, started)] && statuses == old(statuses) + [SHealthy]
      ensures healthy ==> RI.Succeeded(way + [SHealthy])
      ensures !healthy ==> active == old(active) && statuses == old(statuses)
    {
      assert (way + [SHealthy])[..|way|] == way;
      tunnels := T.ActivateStep(tunnels, c);
      if !healthy { return; }
      active := active[app.id := Entry(c, app, started)];
      statuses := statuses + [SHealthy];
    }

    /** The try block once reservation and lease are held. */
    method Serve(c: ConnId, app: App, answers: Answers, ghost t0: T.Tunnels)
      returns (ok: bool, tunnel: bool, ghost way: seq<Status>)
      requires Reserved(t0, tunnels, c, app, false)
      modifies this`tunnels, this`statuses, this`active
      ensures ok <==> PortComesUp(app, answers) && answers.healthy
      ensures Reserved(t0, tunnels, c, app, tunnel)
      ensures [SChecking, SConnecting] <= way && statuses == old(statuses) + way[2..]
      ensures ok ==> tunnel && RI.Succeeded(way) && active == old(active)[app.id := Entry(c, app, answers.probe == No)]
      ensures !ok ==> active == old(active) && RI.OnTheWay(way)
    {
      ok, tunnel, way := false, false, [SChecking, SConnecting];
      var open, started := BringUp(app, answers);
      if statuses != old(statuses) { way := way + [SStarting]; }
      assert statuses == old(statuses) + way[2..];
      if !open { return; }
      way := way + [STunneling];
      statuses := statuses + [STunneling];
      assert statuses == old(statuses) + way[2..];
      Finish(c, app, started, answers.healthy, t0, way);
      tunnel := true;
      if !answers.healthy { return; }
      way := way + [SHealthy];
      assert statuses == old(statuses) + way[2..];
      ok := true;
    }

    /** The try block.  The results are its local variables: what it holds when it returns or throws, and
        what it has published. */
    method Attempt(c: ConnId, app: App, answers: Answers)
      returns (ok: bool, reservation: bool, lease: bool, tunnel: bool, ghost way: seq<Status>)
      requires T.Fresh(tunnels, c) && P.Fresh(pool, c) && (app.id in tunnels.active ==> app.id in tunnels.reservations)
      modifies this`tunnels, this`pool, this`statuses, this`active
      ensures ok <==> Succeeds(old(tunnels), old(pool), app, answers)
      ensures if reservation then Reserved(old(tunnels), tunnels, c, app, tunnel)
              else tunnels == old(tunnels) && !lease && !tunnel
      ensures if lease then Leased(old(pool), pool, c, app.server) else pool == old(pool) && !tunnel
      ensures statuses == old(statuses) + way
      ensures ok ==> reservation && lease && tunnel && RI.Succeeded(way)
      ensures ok ==> active == old(active)[app.id := Entry(c, app, answers.probe == No)]
      ensures !ok ==> active == old(active) && RI.OnTheWay(way)
    {
      ok, reservation, lease, tunnel := false, false, false, false;
      way := [SChecking];
      statuses := statuses + [SChecking];
      reservation := Reserve(c, app, answers.binds);
      if !reservation { return; }
      way := [SChecking, SConnecting];
      statuses := statuses + [SConnecting];
      assert statuses == old(statuses) + way;
      lease := Acquire(c, app.server, answers.connects);
      if !lease { return; }
      ok, tunnel, way := Serve(c, app, answers, old(tunnels));
      assert way == [SChecking, SConnecting] + way[2..];
    }

    /** connectInternal: all or nothing. */
    method ConnectInternal(c: ConnId, app: App, answers: Answers) returns (ok: bool, ghost told: seq<Status>)
      requires T.Fresh(tunnels, c) && P.Fresh(pool, c) && P.Inv(pool)
      requires app.id in tunnels.active ==> app.id in tunnels.reservations
      modifies this`tunnels, this`pool, this`statuses, this`active
      ensures ok <==> Succeeds(old(tunnels), old(pool), app, answers)
      ensures statuses == old(statuses) + told
      ensures ok ==>
                && active == old(active)[app.id := Entry(c, app, answers.probe == No)]
                && Reserved(old(tunnels), tunnels, c, app, true)
                && Leased(old(pool), pool, c, app.server)
                && RI.Succeeded(told)
      ensures !ok ==>
                && active == old(active)
                && SameMaps(old(tunnels), tunnels)
                && pool.sessions == old(pool.sessions) && pool.connecting == old(pool.connecting)
                && RI.Failed(told)
    {
      var reservation, lease, tunnel;
      ok, reservation, lease, tunnel, told := Attempt(c, app, answers);
      if ok { return; }
      CatchBlock(c, app, reservation, lease, tunnel, old(tunnels), old(pool));
      assert (told + [SError])[..|told|] == told;
      told := told + [SError];
      statuses := statuses + [SError];
      assert statuses == old(statuses) + told;
    }

    /** The releases of the catch block, each awaited to its end. */
    method CatchBlock(c: ConnId, app: App, reservation: bool, lease: bool, tunnel: bool,
                      ghost t0: T.Tunnels, ghost p0: P.Pool)
      requires if reservation then Reserved(t0, tunnels, c, app, tunnel) else tunnels == t0
      requires if lease then Leased(p0, pool, c, app.server) && P.Inv(p0) else pool == p0
      requires tunnel ==> reservation
      modifies this`tunnels, this`pool
      ensures SameMaps(t0, tunnels)
      ensures pool.sessions == p0.sessions && pool.connecting == p0.connecting
    {
      if reservation { ReleaseRestores(t0, tunnels, c, app, tunnel); }
      if tunnel {
        tunnels := T.ReleaseStep(tunnels, c);
        tunnels := T.ServerClosedStep(tunnels, c);
      }
      if reservation && !tunnels.held[c].phase.Released? {
        tunnels := T.ReleaseStep(tunnels, c);
        tunnels := T.ServerClosedStep(tunnels, c);
      }
      if lease {
        ReleaseLeaseRestores(p0, pool, c, app.server);
        pool := P.ReleaseStep(pool, c);
      }
    }

    /** disconnect up to its first await: the stop command is sent, or else the tunnel begins to close. */
    method Disconnect(a: AppId)
      modifies this`active, this`stopped, this`tunnels
      ensures active == old(active) - {a}
      ensures stopped == old(stopped) + if a in old(active) && WantsStop(old(active), a) then [a] else []
      ensures tunnels == if a in old(active) then TakenFrom(old(active), a, old(tunnels)) else old(tunnels)
    {
      if a !in active { return; }
      var e := active[a];
      var peers := Peers(active, a);
      active := active - {a};
      if peers == {} && e.started && e.app.stopOnDisconnect && e.app.hasStopCommand {
        stopped := stopped + [a];
      } else {
        tunnels := CloseTunnel(tunnels, e.conn);
      }
    }

    /** shutdown before any await resumes: every captured entry is gone, stop commands went to exactly the
        applications of Told, and the tunnels of the others have begun to close. */
    method Shutdown(order: seq<AppId>)
      requires Lists(order, active)
      modifies this`active, this`stopped, this`tunnels
      ensures active == map[]
      ensures stopped == old(stopped) + Told(old(active), order)
      ensures tunnels == Closings(old(active), order, old(tunnels))
    {
      var n := 0;
      assert order[0..] == order;
      while n < |order|
        invariant n <= |order| && Lists(order[n..], active)
        invariant stopped + Told(active, order[n..]) == old(stopped) + Told(old(active), order)
        invariant Closings(active, order[n..], tunnels) == Closings(old(active), order, old(tunnels))
      {
        ToldNext(stopped, active, order, n);
        ClosingsNext(active, order, n, tunnels);
        Disconnect(order[n]);
        n := n + 1;
      }
      assert order[n..] == [];
    }
  }
}
