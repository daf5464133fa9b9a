/** Reservation and DefaultTunnelManager as the program holds them.  A method is one stretch
    of code between two awaits; View and the manager's two maps are the parts of a TunnelModel
    state that the object keeps, and change as the model's steps say.
 */
module TunnelManagers {
  import M = TunnelModel

  /** What the code does to sockets and streams it did not create. */
  class Network {
    var deadSockets: set<M.Socket>
    var deadStreams: set<M.Socket>

    constructor ()
      ensures deadSockets == {} && deadStreams == {}
    {
      deadSockets, deadStreams := {}, {};
    }
  }

  class Reservation {
    const id: M.ResId
    const appId: M.AppId
    const localPort: M.Port
    const net: Network
    var target: bool
    var server: bool
    var handle: bool
    var released: bool
    var forwards: set<M.Socket>
    ghost var waiting: set<M.Socket>  // openForward promises still pending

    constructor (id: M.ResId, appId: M.AppId, localPort: M.Port, net: Network)
      ensures this.id == id && this.net == net
      ensures View() == M.Reservation(appId, localPort, M.Open, false, false, {}, {})
    {
      this.id, this.appId, this.localPort, this.net := id, appId, localPort, net;
      target, server, handle, released, forwards := false, true, false, false, {};
      waiting := {};
    }

    ghost function View(): M.Reservation
      reads this
    {
      var phase := if !released then M.Open else if server then M.Closing else M.Released;
      M.Reservation(appId, localPort, phase, target, handle, waiting, forwards)
    }

    /** A released reservation has neither forwards nor a target (TunnelModel.ResOk). */
    ghost predicate Sound()
      reads this
    {
      released ==> forwards == {} && !target
    }

    method Activate() returns (ok: bool)
      modifies this`target, this`handle
      ensures ok <==> old(View()).phase.Open? && !old(View()).target
      ensures View() == if ok then old(View()).(target := true, activated := true) else old(View())
    {
      if released || target { return false; }
      target, handle := true, true;
      return true;
    }

    /** release up to its await: every forward loses both ends. */
    method Release()
      modifies this`released, this`target, this`forwards, net
      ensures old(View()).phase.Open? ==>
                && released && forwards == {} && !target
                && (server ==> View() == old(View()).(phase := M.Closing, target := false, live := {}))
                && net.deadSockets == old(net.deadSockets) + old(forwards)
                && net.deadStreams == old(net.deadStreams) + old(forwards)
      ensures !old(View()).phase.Open? ==>
                && released && forwards == old(forwards) && target == old(target) && View() == old(View())
                && net.deadSockets == old(net.deadSockets) && net.deadStreams == old(net.deadStreams)
    {
      if released { return; }
      released, target := true, false;
      var todo := forwards;
      while todo != {}
        modifies net
        invariant todo <= forwards
        invariant net.deadSockets == old(net.deadSockets) + (forwards - todo)
        invariant net.deadStreams == old(net.deadStreams) + (forwards - todo)
      {
        var forward :| forward in todo;
        net.deadSockets := net.deadSockets + {forward};
        net.deadStreams := net.deadStreams + {forward};
        todo := todo - {forward};
      }
      forwards := {};
    }

    /** accept up to openForward: a connection without a target is refused. */
    method Accept(socket: M.Socket)
      modifies this`waiting, net`deadSockets
      ensures var r := old(View());
              if !r.target || !r.phase.Open? then
                View() == r && net.deadSockets == old(net.deadSockets) + {socket}
              else
                View() == r.(waiting := r.waiting + {socket}) && net.deadSockets == old(net.deadSockets)
    {
      if !target || released {
        net.deadSockets := net.deadSockets + {socket};
        return;
      }
      waiting := waiting + {socket};
    }

    /** The continuation of openForward: too late after a release, otherwise a live forward. */
    method ForwardOpened(socket: M.Socket)
      requires socket in waiting
      modifies this`waiting, this`forwards, net
      ensures var r := old(View()).(waiting := old(waiting) - {socket});
              if r.phase.Open? then
                View() == r.(live := r.live + {socket})
                && net.deadSockets == old(net.deadSockets) && net.deadStreams == old(net.deadStreams)
              else
                View() == r
                && net.deadSockets == old(net.deadSockets) + {socket}
                && net.deadStreams == old(net.deadStreams) + {socket}
    {
      waiting := waiting - {socket};
      if released {
        net.deadStreams := net.deadStreams + {socket};
        net.deadSockets := net.deadSockets + {socket};
        return;
      }
      forwards := forwards + {socket};
    }

    method ForwardFailed(socket: M.Socket)
      requires socket in waiting
      modifies this`waiting, net`deadSockets
      ensures View() == old(View()).(waiting := old(waiting) - {socket})
      ensures net.deadSockets == old(net.deadSockets) + {socket}
    {
      waiting := waiting - {socket};
      net.deadSockets := net.deadSockets + {socket};
    }

    method Closed()
      requires released
      modifies this`server
      ensures View() == old(View()).(phase := M.Released)
    {
      server := false;
    }

    /** `cleanup`, registered on both ends of a forward. */
    method Cleanup(socket: M.Socket)
      modifies this`forwards, net
      ensures View() == old(View()).(live := old(forwards) - {socket})
      ensures net.deadSockets == old(net.deadSockets) + {socket} && net.deadStreams == old(net.deadStreams) + {socket}
    {
      forwards := forwards - {socket};
      net.deadSockets := net.deadSockets + {socket};
      net.deadStreams := net.deadStreams + {socket};
    }
  }

  /** The ids behind a map of reservation objects. */
  ghost function Ids(objects: map<M.AppId, Reservation>): map<M.AppId, M.ResId> {
    map a | a in objects :: objects[a].id
  }

  lemma IdsWithout(objects: map<M.AppId, Reservation>, a: M.AppId)
    ensures Ids(objects - {a}) == Ids(objects) - {a}
  {
  }

  lemma IdsWith(objects: map<M.AppId, Reservation>, a: M.AppId, r: Reservation)
    ensures Ids(objects[a := r]) == Ids(objects)[a := r.id]
  {
  }

  class TunnelManager {
    const net: Network
    var reservations: map<M.AppId, Reservation>
    var active: map<M.AppId, Reservation>

    constructor (net: Network)
      ensures this.net == net && reservations == map[] && active == map[]
    {
      this.net := net;
      reservations, active := map[], map[];
    }

    /** The manager shows the two maps of `t`, and its objects show what `t` holds. */
    ghost predicate Shows(t: M.Tunnels)
      reads this, reservations.Values
    {
      && Ids(reservations) == t.reservations && Ids(active) == t.active
      && forall a :: a in reservations ==>
           && reservations[a].appId == a && reservations[a].net == net
           && reservations[a].id in t.held && reservations[a].View() == t.held[reservations[a].id]
    }

    /** The object is the reservation of its number; the manager need not list it any more. */
    ghost predicate Knows(reservation: Reservation, t: M.Tunnels)
      reads this, reservation
    {
      && reservation.net == net && reservation.id in t.held && reservation.View() == t.held[reservation.id]
      && forall a :: a in reservations && reservations[a].id == reservation.id ==> reservations[a] == reservation
    }

    /** reserve up to its await. */
    method StartReserve(id: M.ResId, app: M.AppId, port: M.Port, ghost t: M.Tunnels) returns (ok: bool)
      requires Shows(t)
      ensures ok <==> app !in t.reservations
      ensures Shows(M.ReserveStep(t, id, app, port))
    {
      ok := app !in reservations;
      assert app in Ids(reservations) <==> app in reservations;
    }

    /** reserve once the server is listening. */
    method FinishReserve(id: M.ResId, app: M.AppId, port: M.Port, ghost t: M.Tunnels) returns (reservation: Reservation)
      requires Shows(t) && id in t.starting && t.starting[id] == M.Claim(app, port) && id !in t.held
      modifies this`reservations
      ensures Shows(M.ListeningStep(t, id))
      ensures fresh(reservation) && reservations == old(reservations)[app := reservation]
    {
      reservation := new Reservation(id, app, port, net);
      IdsWith(reservations, app, reservation);
      reservations := reservations[app := reservation];
    }

    /** The activate a caller of reserve gets: the original one, then the manager's own record. */
    method Activate(reservation: Reservation, ghost t: M.Tunnels) returns (ok: bool)
      requires Shows(t) && Knows(reservation, t)
      modifies reservation, this`active
      ensures ok <==> M.CanActivate(t, reservation.id)
      ensures Shows(M.ActivateStep(t, reservation.id))
    {
      ok := reservation.Activate();
      IdsWith(active, reservation.appId, reservation);
      if ok { active := active[reservation.appId := reservation]; }
    }

    method Release(reservation: Reservation, ghost t: M.Tunnels)
      requires Shows(t) && Knows(reservation, t)
      requires reservation.server
      modifies reservation, net
      ensures Shows(M.ReleaseStep(t, reservation.id))
    {
      reservation.Release();
    }

    /** The close callback of the reservation's server, with onReleased: it deletes by application, so that
        of a forgotten reservation deletes its successor's entries. */
    method OnServerClosed(reservation: Reservation, ghost t: M.Tunnels)
      requires Shows(t) && Knows(reservation, t)
      requires t.held[reservation.id].phase.Closing?
      modifies reservation, this`active, this`reservations
      ensures Shows(M.ServerClosedStep(t, reservation.id))
      ensures reservation.View() == t.held[reservation.id].(phase := M.Released)
    {
      IdsWithout(reservations, reservation.appId);
      IdsWithout(active, reservation.appId);
      reservation.Closed();
      reservations, active := reservations - {reservation.appId}, active - {reservation.appId};
    }

    /** closeAll starts the release of every listed reservation; the maps change only when the servers have closed. */
    method CloseAll()
      requires forall a :: a in reservations ==>
        reservations[a].appId == a && reservations[a].net == net && reservations[a].Sound()
      modifies reservations.Values, net
      ensures forall a :: a in reservations ==>
                reservations[a].released && reservations[a].forwards == {} && !reservations[a].target
    {
      var todo := reservations.Keys;
      while todo != {}
        invariant todo <= reservations.Keys
        invariant forall a :: a in reservations ==> reservations[a].Sound() && (a !in todo ==> reservations[a].released)
      {
        var a :| a in todo;
        reservations[a].Release();
        todo := todo - {a};
      }
    }
  }
}
