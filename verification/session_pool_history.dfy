/** The pool told from the calls that were made on it: where a lease comes from, how long it lasts, and what becomes
    of a session that disconnects.
 */
module PoolHistory {
  import opened PoolModel

  // ---------- leases ----------

  ghost predicate Happened(events: seq<Event>, n: nat, e: Event)
    requires n <= |events|
  {
    exists m :: 0 <= m < n && events[m] == e
  }

  lemma HappenedOnce(events: seq<Event>, n: nat, e: Event)
    requires n < |events|
    ensures Happened(events, n + 1, e) <==> Happened(events, n, e) || events[n] == e
  {
  }

  predicate Released(p: Pool, c: CallId) {
    c in p.leases && p.leases[c].released
  }

  lemma ReleasedStep(p: Pool, e: Event, c: CallId)
    requires Inv(p) && Enabled(p, e)
    ensures Released(Apply(p, e), c) <==> Released(p, c) || e == Release(c)
  {
    assert CallOk(p, c);
  }

  lemma ReleasedOnce(pools: seq<Pool>, events: seq<Event>, n: nat, c: CallId)
    requires IsRun(pools, events) && n < |events|
    ensures Released(pools[n + 1], c) <==> Released(pools[n], c) || events[n] == Release(c)
  {
    RunKeepsInv(pools, events, n);
    ReleasedStep(pools[n], events[n], c);
  }

  /** A lease is released exactly if its release has been called. */
  lemma {:induction false} ReleasedExactly(pools: seq<Pool>, events: seq<Event>, n: nat, c: CallId)
    requires IsRun(pools, events) && n <= |events|
    ensures Released(pools[n], c) <==> Happened(events, n, Release(c))
  {
    if n > 0 {
      ReleasedExactly(pools, events, n - 1, c);
      ReleasedOnce(pools, events, n - 1, c);
      HappenedOnce(events, n - 1, Release(c));
    }
  }

  /** What acquire promised call `c`: the stored session at once, and a session of its own if none was stored. */
  predicate Granted(p: Pool, c: CallId, lease: Lease) {
    if lease.server in p.sessions then lease.session == p.sessions[lease.server].session else lease.session == c
  }

  /** Call `c`, made with event `h`, has its lease or still connects. */
  ghost predicate Served(pools: seq<Pool>, events: seq<Event>, h: nat, n: nat, c: CallId, server: ServerId)
    requires n <= |events| < |pools|
  {
    && h < n && events[h] == Acquire(c, server)
    && (c in pools[n].leases ==>
          pools[n].leases[c].server == server && Granted(pools[h], c, pools[n].leases[c]))
    && (c in pools[n].connecting ==> pools[n].connecting[c] == server && server !in pools[h].sessions)
  }

  predicate Known(p: Pool, c: CallId) {
    c in p.leases || c in p.connecting
  }

  lemma KnownStep(p: Pool, e: Event, c: CallId)
    requires Inv(p) && Enabled(p, e) && Known(Apply(p, e), c) && !(e.Acquire? && e.call == c)
    ensures Known(p, c)
    ensures c in p.leases ==>
              c in Apply(p, e).leases && c !in Apply(p, e).connecting
              && Apply(p, e).leases[c].server == p.leases[c].server
              && Apply(p, e).leases[c].session == p.leases[c].session
    ensures c in p.connecting ==>
              if e == Connected(c) then
                c !in Apply(p, e).connecting && c in Apply(p, e).leases
                && Apply(p, e).leases[c].server == p.connecting[c] && Apply(p, e).leases[c].session == c
              else
                c !in Apply(p, e).leases && c in Apply(p, e).connecting
                && Apply(p, e).connecting[c] == p.connecting[c]
  {
    assert CallOk(p, c);
  }

  lemma JustAcquired(pools: seq<Pool>, events: seq<Event>, n: nat, c: CallId)
    requires IsRun(pools, events) && n < |events| && events[n].Acquire? && events[n].call == c
    ensures Served(pools, events, n, n + 1, c, events[n].server)
    ensures c in pools[n + 1].leases <==> events[n].server in pools[n].sessions
    ensures c in pools[n + 1].connecting <==> events[n].server !in pools[n].sessions
  {
  }

  /** Every lease goes back to one acquire call: it is on the session that was stored for the server then, or on one
      that the call opened itself because none was stored. */
  lemma {:induction false} LeaseHasOrigin(pools: seq<Pool>, events: seq<Event>, n: nat, c: CallId)
    returns (h: nat, server: ServerId)
    requires IsRun(pools, events) && n <= |events| && Known(pools[n], c)
    ensures Served(pools, events, h, n, c, server)
  {
    if events[n - 1].Acquire? && events[n - 1].call == c {
      h, server := n - 1, events[n - 1].server;
      JustAcquired(pools, events, n - 1, c);
    } else {
      RunKeepsInv(pools, events, n - 1);
      KnownStep(pools[n - 1], events[n - 1], c);
      h, server := LeaseHasOrigin(pools, events, n - 1, c);
      assert CallOk(pools[n - 1], c);
    }
  }

  /** An acquire shares the stored session at once if there is one, and otherwise connects. */
  lemma AcquireShares(pools: seq<Pool>, events: seq<Event>, n: nat, c: CallId, server: ServerId)
    requires IsRun(pools, events) && n < |events| && events[n] == Acquire(c, server)
    ensures server in pools[n].sessions ==>
              && c !in pools[n + 1].connecting && c in pools[n + 1].leases
              && pools[n + 1].leases[c] == Lease(server, pools[n].sessions[server].session, false)
    ensures server !in pools[n].sessions ==>
              c !in pools[n + 1].leases && c in pools[n + 1].connecting && pools[n + 1].connecting[c] == server
  {
    RunKeepsInv(pools, events, n);
    assert CallOk(pools[n], c);
  }

  // ---------- sessions that disconnect, and closeAll ----------

  lemma UnpooledStays(p: Pool, e: Event, s: SessionId)
    requires Inv(p) && Enabled(p, e) && s in p.serverOf && !Pooled(p, s)
    ensures s in Apply(p, e).serverOf && !Pooled(Apply(p, e), s)
  {
    assert SessionOk(p, s) && CallOk(p, s);
  }

  lemma {:induction false} NeverPooledAgain(pools: seq<Pool>, events: seq<Event>, n: nat, m: nat, s: SessionId)
    requires IsRun(pools, events) && n <= m <= |events| && s in pools[n].serverOf && !Pooled(pools[n], s)
    ensures s in pools[m].serverOf && !Pooled(pools[m], s)
    decreases m
  {
    if n < m {
      NeverPooledAgain(pools, events, n, m - 1, s);
      RunKeepsInv(pools, events, m - 1);
      UnpooledStays(pools[m - 1], events[m - 1], s);
    }
  }

  lemma DisconnectUnpools(p: Pool, s: SessionId)
    requires Inv(p) && s in p.serverOf
    ensures !Pooled(DisconnectStep(p, s), s) && s in DisconnectStep(p, s).serverOf
  {
  }

  /** A session that has disconnected is never in the pool again, so no later acquire hands it out. */
  lemma DisconnectedIsForgotten(pools: seq<Pool>, events: seq<Event>, n: nat, m: nat, s: SessionId)
    requires IsRun(pools, events) && n < m <= |events| && events[n] == Disconnect(s)
    ensures !Pooled(pools[m], s)
    ensures m < |events| && events[m].Acquire? && events[m].call in pools[m + 1].leases ==>
              pools[m + 1].leases[events[m].call].session != s
  {
    RunKeepsInv(pools, events, n);
    DisconnectUnpools(pools[n], s);
    NeverPooledAgain(pools, events, n + 1, m, s);
    RunKeepsInv(pools, events, m);
    if m < |events| && events[m].Acquire? {
      AcquireShares(pools, events, m, events[m].call, events[m].server);
      assert EntryOk(pools[m], events[m].server);
    }
  }

  predicate Drops(p: Pool, e: Event, s: SessionId) {
    e == Disconnect(s) && Pooled(p, s)
  }

  ghost predicate DroppedBefore(pools: seq<Pool>, events: seq<Event>, n: nat, s: SessionId)
    requires n <= |events| < |pools|
  {
    exists m :: 0 <= m < n && Drops(pools[m], events[m], s)
  }

  lemma DroppedStep(p: Pool, e: Event, s: SessionId)
    requires Enabled(p, e)
    ensures s in Apply(p, e).dropped <==> s in p.dropped || Drops(p, e, s)
  {
  }

  lemma OneMoreDrop(pools: seq<Pool>, events: seq<Event>, n: nat, s: SessionId)
    requires n < |events| < |pools|
    ensures DroppedBefore(pools, events, n + 1, s)
        <==> DroppedBefore(pools, events, n, s) || Drops(pools[n], events[n], s)
  {
  }

  lemma {:induction false} DroppedExactly(pools: seq<Pool>, events: seq<Event>, n: nat, s: SessionId)
    requires IsRun(pools, events) && n <= |events|
    ensures s in pools[n].dropped <==> DroppedBefore(pools, events, n, s)
  {
    if n > 0 {
      DroppedExactly(pools, events, n - 1, s);
      DroppedStep(pools[n - 1], events[n - 1], s);
      OneMoreDrop(pools, events, n - 1, s);
    }
  }

  /** Every lease on `s` has been released. */
  ghost predicate AllReleased(pools: seq<Pool>, events: seq<Event>, n: nat, s: SessionId)
    requires n <= |events| < |pools|
  {
    forall c :: c in pools[n].leases && pools[n].leases[c].session == s ==> Happened(events, n, Release(c))
  }

  /** The pool has closed a session all of whose leases were released if and only if the session did not disconnect
      while it was stored, and no later connect for its server overwrote its entry. */
  lemma ClosedByEvents(pools: seq<Pool>, events: seq<Event>, n: nat, s: SessionId)
    requires IsRun(pools, events) && n <= |events|
    requires s in pools[n].serverOf && AllReleased(pools, events, n, s)
    ensures pools[n].closed[s] == 1
        <==> !DroppedBefore(pools, events, n, s) && !OverwrittenBefore(pools, events, n, s)
  {
    forall c ensures c !in Holders(pools[n].leases, s) { ReleasedExactly(pools, events, n, c); }
    assert Holders(pools[n].leases, s) == {};
    LastReleaseClosesExactly(pools, events, n, s);
    DroppedExactly(pools, events, n, s);
  }

  /** closeAll empties the pool and closes every session that was in it, and no other. */
  lemma CloseAllCloses(pools: seq<Pool>, events: seq<Event>, n: nat, s: SessionId)
    requires IsRun(pools, events) && n < |events| && events[n].CloseAll?
    ensures pools[n + 1].sessions == map[]
    ensures pools[n + 1].closed[s] == if Pooled(pools[n], s) then 1 else pools[n].closed[s]
  {
    var p := pools[n];
    RunKeepsInv(pools, events, n);
    assert SessionOk(p, s);
    assert Pooled(p, s) <==> s in Stored(p.sessions) by {
      if k :| k in p.sessions && p.sessions[k].session == s { assert EntryOk(p, k); }
    }
  }
}
