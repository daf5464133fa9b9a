/** The session pool as the program holds it: a map of mutable entries and lease objects
    with a captured flag.  `log` is the state of PoolModel that the objects stand for;
    each method is one stretch of code between two awaits.
 */
module SessionPools {
  import M = PoolModel

  class Entry {
    const session: M.SessionId
    var leases: int

    constructor (session: M.SessionId)
      ensures this.session == session && leases == 0
    {
      this.session := session;
      leases := 0;
    }
  }

  class Lease {
    const call: M.CallId
    const server: M.ServerId
    const session: M.SessionId
    var released: bool

    constructor (call: M.CallId, server: M.ServerId, session: M.SessionId)
      ensures this.call == call && this.server == server && this.session == session && !released
    {
      this.call, this.server, this.session := call, server, session;
      released := false;
    }
  }

  class SessionPool {
    var sessions: map<M.ServerId, Entry>
    var closeCalls: seq<M.SessionId>
    ghost var log: M.Pool

    ghost predicate Valid()
      reads this, sessions.Values
    {
      && M.Inv(log)
      && multiset(closeCalls) == log.closed
      && sessions.Keys == log.sessions.Keys
      && forall k :: k in sessions ==> M.Entry(sessions[k].session, sessions[k].leases) == log.sessions[k]
    }

    /** The lease is one that this pool handed out. */
    ghost predicate Issued(lease: Lease)
      reads this, lease
    {
      && lease.call in log.leases
      && log.leases[lease.call] == M.Lease(lease.server, lease.session, lease.released)
    }

    constructor ()
      ensures Valid() && log == M.EMPTY
    {
      sessions, closeCalls := map[], [];
      log := M.EMPTY;
      new;
      forall s ensures M.SessionOk(log, s) {}
      forall k ensures M.EntryOk(log, k) {}
      forall c ensures M.CallOk(log, c) {}
    }

    /** Entries of two servers are two objects. */
    lemma Apart(k: M.ServerId, l: M.ServerId)
      requires Valid() && k in sessions && l in sessions && k != l
      ensures sessions[k] != sessions[l]
    {
      assert M.EntryOk(log, k) && M.EntryOk(log, l);
    }

    /** `entry.leases += 1` and the lease object for `call`. */
    method Hand(call: M.CallId, server: M.ServerId) returns (lease: Lease)
      requires Valid() && M.Fresh(log, call) && server in sessions
      modifies this`log, sessions.Values
      ensures Valid() && log == M.Hand(old(log), call, server)
      ensures fresh(lease) && lease.call == call && Issued(lease)
    {
      M.HitKeepsInv(log, call, server);
      forall k | k in sessions && k != server ensures sessions[k] != sessions[server] { Apart(k, server); }
      var entry := sessions[server];
      entry.leases := entry.leases + 1;
      lease := new Lease(call, server, entry.session);
      log := M.Hand(log, call, server);
    }

    /** acquire up to its first await: a hit returns a lease at once, a miss goes on to connect. */
    method StartAcquire(call: M.CallId, server: M.ServerId) returns (lease: Lease?)
      requires Valid() && M.Fresh(log, call)
      modifies this`log, sessions.Values
      ensures Valid() && log == M.Apply(old(log), M.Acquire(call, server))
      ensures lease != null <==> server in sessions
      ensures lease != null ==> fresh(lease) && lease.call == call && Issued(lease)
    {
      if server in sessions {
        lease := Hand(call, server);
      } else {
        lease := null;
        M.MissKeepsInv(log, call, server);
        log := M.AcquireStep(log, call, server);
      }
    }

    /** acquire after factory.connect resolved with a fresh session. */
    method FinishAcquire(call: M.CallId, server: M.ServerId) returns (lease: Lease)
      requires Valid() && call in log.connecting && log.connecting[call] == server
      modifies this`log, this`sessions
      ensures Valid() && log == M.Apply(old(log), M.Connected(call))
      ensures fresh(lease) && lease.call == call && Issued(lease)
    {
      M.ConnectedKeepsInv(log, call);
      var entry := new Entry(call);
      sessions := sessions[server := entry];
      entry.leases := entry.leases + 1;
      lease := new Lease(call, server, entry.session);
      log := M.ConnectedStep(log, call);
    }

    /** factory.connect (or the credential lookup before it) rejected. */
    ghost method FailAcquire(call: M.CallId)
      requires Valid() && call in log.connecting
      modifies this`log
      ensures Valid() && log == M.Apply(old(log), M.ConnectFailed(call))
    {
      M.FailedKeepsInv(log, call);
      log := log.(connecting := log.connecting - {call});
    }

    /** `leases -= 1` for the entry of `server`, and its end if that was the last lease; `next` is the state after. */
    method Drop(server: M.ServerId, ghost next: M.Pool)
      requires Valid() && server in sessions && M.Inv(next)
      requires var left := log.sessions[server].leases - 1;
               if left <= 0 then
                 && next.sessions == log.sessions - {server}
                 && next.closed == log.closed + multiset{log.sessions[server].session}
               else
                 && next.sessions == log.sessions[server := M.Entry(log.sessions[server].session, left)]
                 && next.closed == log.closed
      modifies this, sessions.Values
      ensures Valid() && log == next
    {
      forall k | k in sessions && k != server ensures sessions[k] != sessions[server] { Apart(k, server); }
      var current := sessions[server];
      current.leases := current.leases - 1;
      if current.leases <= 0 {
        sessions := sessions - {server};
        closeCalls := closeCalls + [current.session];
      }
      log := next;
    }

    /** The release closure of a lease, up to the await of session.close. */
    method Release(lease: Lease)
      requires Valid() && Issued(lease)
      modifies this, lease`released, sessions.Values
      ensures Valid() && log == M.Apply(old(log), M.Release(lease.call))
      ensures lease.released && Issued(lease)
    {
      if lease.released { return; }
      M.ReleaseKeepsInv(log, lease.call);
      lease.released := true;
      ghost var next := M.ReleaseStep(log, lease.call);
      if lease.server !in sessions || sessions[lease.server].session != lease.session {
        log := next;
        return;
      }
      Drop(lease.server, next);
    }

    /** The disconnect callback registered for `session`. */
    method OnDisconnect(session: M.SessionId, server: M.ServerId)
      requires Valid() && session in log.serverOf && log.serverOf[session] == server
      modifies this`log, this`sessions
      ensures Valid() && log == M.Apply(old(log), M.Disconnect(session))
    {
      M.DisconnectKeepsInv(log, session);
      if server in sessions && sessions[server].session == session {
        sessions := sessions - {server};
      }
      log := M.DisconnectStep(log, session);
    }

    /** The closing half of closeAll: every entry's session is closed, one after the other. */
    static method CloseEntries(entries: map<M.ServerId, Entry>, before: seq<M.SessionId>)
        returns (calls: seq<M.SessionId>)
      requires forall k, l :: k in entries && l in entries && k != l ==> entries[k].session != entries[l].session
      ensures multiset(calls) == multiset(before) + multiset(set k | k in entries :: entries[k].session)
    {
      calls := before;
      var todo := entries.Keys;
      while todo != {}
        invariant todo <= entries.Keys
        invariant multiset(calls) == multiset(before)
            + multiset(set k | k in entries && k !in todo :: entries[k].session)
      {
        var k :| k in todo;
        ghost var done := set l | l in entries && l !in todo :: entries[l].session;
        calls := calls + [entries[k].session];
        todo := todo - {k};
        assert (set l | l in entries && l !in todo :: entries[l].session) == done + {entries[k].session};
      }
    }

    /** closeAll: forget every entry first, then close the sessions. */
    method CloseAll()
      requires Valid()
      modifies this
      ensures Valid() && log == M.Apply(old(log), M.CloseAll)
      ensures sessions == map[]
    {
      M.CloseAllKeepsInv(log);
      forall k, l | k in sessions && l in sessions && k != l ensures sessions[k].session != sessions[l].session {
        assert M.EntryOk(log, k) && M.EntryOk(log, l);
      }
      var entries := sessions;
      sessions := map[];
      closeCalls := CloseEntries(entries, closeCalls);
      assert (set k | k in entries :: entries[k].session) == M.Stored(log.sessions);
      log := M.CloseAllStep(log);
    }
  }
}
