/** The session pool as a state machine.

    JavaScript runs the code between two awaits without interruption, so one
    event below is one such stretch.  A session is named by the acquire call
    that opened it, a lease by the acquire call that returned it: both names
    are fresh without any further bookkeeping.
 */
module PoolModel {

  type ServerId = string
  type CallId = nat
  type SessionId = CallId

  /** An entry of the `sessions` map. */
  datatype Entry = Entry(session: SessionId, leases: int)

  /** A lease handed out by acquire, with its captured `released` flag. */
  datatype Lease = Lease(server: ServerId, session: SessionId, released: bool)

  datatype Pool = Pool(
    sessions: map<ServerId, Entry>,
    connecting: map<CallId, ServerId>,  // acquires that await factory.connect
    leases: map<CallId, Lease>,         // every lease ever returned
    serverOf: map<SessionId, ServerId>, // every session ever opened
    closed: multiset<SessionId>,        // calls of session.close
    swept: set<SessionId>,              // sessions that closeAll closed
    dropped: set<SessionId>,            // entries removed by the disconnect callback
    replaced: set<SessionId>)           // entries overwritten by a later connect

  const EMPTY := Pool(map[], map[], map[], map[], multiset{}, {}, {}, {})

  datatype Event =
    | Acquire(call: CallId, server: ServerId)
    | Connected(call: CallId)
    | ConnectFailed(call: CallId)
    | Release(call: CallId)
    | Disconnect(session: SessionId)
    | CloseAll

  // ---------- transitions ----------

  predicate Fresh(p: Pool, call: CallId) {
    call !in p.connecting && call !in p.leases && call !in p.serverOf
  }

  predicate Enabled(p: Pool, e: Event) {
    match e
    case Acquire(call, _) => Fresh(p, call)
    case Connected(call) => call in p.connecting
    case ConnectFailed(call) => call in p.connecting
    case Release(call) => call in p.leases
    case Disconnect(session) => session in p.serverOf
    case CloseAll => true
  }

  /** `entry.leases += 1` and the new lease object. */
  function Hand(p: Pool, call: CallId, server: ServerId): Pool
    requires server in p.sessions
  {
    var entry := p.sessions[server];
    p.(sessions := p.sessions[server := Entry(entry.session, entry.leases + 1)],
       leases := p.leases[call := Lease(server, entry.session, false)])
  }

  function AcquireStep(p: Pool, call: CallId, server: ServerId): Pool {
    if server in p.sessions then Hand(p, call, server)
    else p.(connecting := p.connecting[call := server])
  }

  /** The session is connected: a fresh entry is stored under the server, whatever was there. */
  function StoreStep(p: Pool, call: CallId): Pool
    requires call in p.connecting
  {
    var server := p.connecting[call];
    p.(connecting := p.connecting - {call},
       serverOf := p.serverOf[call := server],
       replaced := if server in p.sessions then p.replaced + {p.sessions[server].session} else p.replaced,
       sessions := p.sessions[server := Entry(call, 0)])
  }

  function ConnectedStep(p: Pool, call: CallId): Pool
    requires call in p.connecting
  {
    Hand(StoreStep(p, call), call, p.connecting[call])
  }

  function ReleaseStep(p: Pool, call: CallId): Pool
    requires call in p.leases
  {
    var lease := p.leases[call];
    if lease.released then p else
    var marked := p.(leases := p.leases[call := lease.(released := true)]);
    if lease.server !in p.sessions || p.sessions[lease.server].session != lease.session then marked else
    var left := p.sessions[lease.server].leases - 1;
    if left <= 0 then
      marked.(sessions := p.sessions - {lease.server},
              closed := p.closed + multiset{lease.session})
    else
      marked.(sessions := p.sessions[lease.server := Entry(lease.session, left)])
  }

  predicate Pooled(p: Pool, session: SessionId) {
    && session in p.serverOf
    && p.serverOf[session] in p.sessions
    && p.sessions[p.serverOf[session]].session == session
  }

  /** The callback removes the entry only while the map still holds this very session, so
      it makes no difference whether removeDisconnect has run. */
  function DisconnectStep(p: Pool, session: SessionId): Pool
    requires session in p.serverOf
  {
    if Pooled(p, session) then
      p.(sessions := p.sessions - {p.serverOf[session]}, dropped := p.dropped + {session})
    else p
  }

  ghost function Stored(sessions: map<ServerId, Entry>): set<SessionId> {
    set k | k in sessions :: sessions[k].session
  }

  /** closeAll empties the map, then closes every session it held. */
  ghost function CloseAllStep(p: Pool): Pool {
    var held := Stored(p.sessions);
    p.(sessions := map[],
       closed := p.closed + multiset(held),
       swept := p.swept + held)
  }

  ghost function Apply(p: Pool, e: Event): Pool
    requires Enabled(p, e)
  {
    match e
    case Acquire(call, server) => AcquireStep(p, call, server)
    case Connected(call) => ConnectedStep(p, call)
    case ConnectFailed(call) => p.(connecting := p.connecting - {call})
    case Release(call) => ReleaseStep(p, call)
    case Disconnect(session) => DisconnectStep(p, session)
    case CloseAll => CloseAllStep(p)
  }

  /** A run: the pools between the events, from the empty pool on. */
  ghost predicate IsRun(pools: seq<Pool>, events: seq<Event>) {
    && |pools| == |events| + 1
    && pools[0] == EMPTY
    && forall i :: 0 <= i < |events| ==> Enabled(pools[i], events[i]) && pools[i + 1] == Apply(pools[i], events[i])
  }

  // ---------- the invariant, one name at a time ----------

  /** The calls whose lease on `session` is not yet released. */
  ghost function Holders(leases: map<CallId, Lease>, session: SessionId): set<CallId> {
    set c | c in leases && leases[c].session == session && !leases[c].released
  }

  /** An entry sits under the server of its session and counts exactly the unreleased leases, of which there is one. */
  ghost predicate EntryOk(p: Pool, k: ServerId) {
    k in p.sessions ==>
      var e := p.sessions[k];
      && e.session in p.serverOf && p.serverOf[e.session] == k
      && e.leases == |Holders(p.leases, e.session)| >= 1
  }

  ghost predicate CallOk(p: Pool, c: CallId) {
    && (c in p.connecting ==> c !in p.leases && c !in p.serverOf)
    && (c in p.leases ==> p.leases[c].session in p.serverOf && p.serverOf[p.leases[c].session] == p.leases[c].server)
  }

  /** A session is stored, closed once, dropped or replaced, and only one of these. */
  ghost predicate Placed(p: Pool, s: SessionId) {
    if s in p.serverOf then
      if Pooled(p, s) then p.closed[s] == 0 && s !in p.dropped && s !in p.replaced
      else if s in p.dropped then p.closed[s] == 0 && s !in p.replaced
      else if s in p.replaced then p.closed[s] == 0
      else p.closed[s] == 1
    else p.closed[s] == 0 && s !in p.dropped && s !in p.replaced
  }

  ghost predicate SessionOk(p: Pool, s: SessionId) {
    && Placed(p, s)
    && (s in p.serverOf ==> s in p.leases && p.leases[s].session == s)
    && (p.closed[s] != 0 && s !in p.swept ==> Holders(p.leases, s) == {})
  }

  ghost predicate Inv(p: Pool) {
    && (forall k :: EntryOk(p, k))
    && (forall c :: CallOk(p, c))
    && (forall s :: SessionOk(p, s))
  }

  lemma HoldersAfterGrant(leases: map<CallId, Lease>, call: CallId, lease: Lease, s: SessionId)
    requires call !in leases && !lease.released
    ensures Holders(leases[call := lease], s) == if s == lease.session then Holders(leases, s) + {call}
        else Holders(leases, s)
  {
  }

  lemma HoldersAfterRelease(leases: map<CallId, Lease>, call: CallId, s: SessionId)
    requires call in leases
    ensures Holders(leases[call := leases[call].(released := true)], s)
         == if s == leases[call].session then Holders(leases, s) - {call} else Holders(leases, s)
  {
  }

  lemma HitKeepsEntries(p: Pool, call: CallId, server: ServerId, k: ServerId)
    requires Inv(p) && Fresh(p, call) && server in p.sessions
    ensures EntryOk(Hand(p, call, server), k)
  {
    var q := Hand(p, call, server);
    assert EntryOk(p, server) && EntryOk(p, k);
    if k in q.sessions { HoldersAfterGrant(p.leases, call, q.leases[call], p.sessions[k].session); }
  }

  lemma HitKeepsSessions(p: Pool, call: CallId, server: ServerId, s: SessionId)
    requires Inv(p) && Fresh(p, call) && server in p.sessions
    ensures SessionOk(Hand(p, call, server), s)
  {
    assert EntryOk(p, server) && SessionOk(p, s);
    HoldersAfterGrant(p.leases, call, Hand(p, call, server).leases[call], s);
  }

  lemma HitKeepsInv(p: Pool, call: CallId, server: ServerId)
    requires Inv(p) && Fresh(p, call) && server in p.sessions
    ensures Inv(Hand(p, call, server))
  {
    var q := Hand(p, call, server);
    assert EntryOk(p, server);
    forall k ensures EntryOk(q, k) { HitKeepsEntries(p, call, server, k); }
    forall c ensures CallOk(q, c) { assert CallOk(p, c); }
    forall s ensures SessionOk(q, s) { HitKeepsSessions(p, call, server, s); }
  }

  lemma MissKeepsInv(p: Pool, call: CallId, server: ServerId)
    requires Inv(p) && Fresh(p, call) && server !in p.sessions
    ensures Inv(AcquireStep(p, call, server))
  {
    var q := AcquireStep(p, call, server);
    forall k ensures EntryOk(q, k) { assert EntryOk(p, k); }
    forall c ensures CallOk(q, c) { assert CallOk(p, c); }
    forall s ensures SessionOk(q, s) { assert SessionOk(p, s); }
  }

  lemma FailedKeepsInv(p: Pool, call: CallId)
    requires Inv(p) && call in p.connecting
    ensures Inv(p.(connecting := p.connecting - {call}))
  {
    var q := p.(connecting := p.connecting - {call});
    forall k ensures EntryOk(q, k) { assert EntryOk(p, k); }
    forall c ensures CallOk(q, c) { assert CallOk(p, c); }
    forall s ensures SessionOk(q, s) { assert SessionOk(p, s); }
  }

  lemma ConnectedKeepsEntries(p: Pool, call: CallId, k: ServerId)
    requires Inv(p) && call in p.connecting
    ensures EntryOk(ConnectedStep(p, call), k)
  {
    var q := ConnectedStep(p, call);
    assert CallOk(p, call) && SessionOk(p, call) && EntryOk(p, k);
    if k in q.sessions {
      HoldersAfterGrant(p.leases, call, q.leases[call], q.sessions[k].session);
      if k == p.connecting[call] { NoHolder(p, call); }
    }
  }

  lemma NoHolder(p: Pool, s: SessionId)
    requires Inv(p) && s !in p.serverOf
    ensures Holders(p.leases, s) == {}
  {
    forall c | c in p.leases ensures p.leases[c].session != s { assert CallOk(p, c); }
  }

  lemma ConnectedKeepsSessions(p: Pool, call: CallId, s: SessionId)
    requires Inv(p) && call in p.connecting
    ensures SessionOk(ConnectedStep(p, call), s)
  {
    var q := ConnectedStep(p, call);
    assert CallOk(p, call) && SessionOk(p, s) && EntryOk(p, p.connecting[call]);
    HoldersAfterGrant(p.leases, call, q.leases[call], s);
  }

  lemma ConnectedKeepsInv(p: Pool, call: CallId)
    requires Inv(p) && call in p.connecting
    ensures Inv(ConnectedStep(p, call))
  {
    var q := ConnectedStep(p, call);
    assert CallOk(p, call);
    forall k ensures EntryOk(q, k) { ConnectedKeepsEntries(p, call, k); }
    forall c ensures CallOk(q, c) { assert CallOk(p, c); }
    forall s ensures SessionOk(q, s) { ConnectedKeepsSessions(p, call, s); }
  }

  /** A release touches only the session of its lease. */
  lemma ReleaseLeavesOthers(p: Pool, call: CallId, s: SessionId)
    requires Inv(p) && call in p.leases && !p.leases[call].released && s != p.leases[call].session
    ensures SessionOk(ReleaseStep(p, call), s)
  {
    assert SessionOk(p, s) && CallOk(p, call) && EntryOk(p, p.leases[call].server);
    HoldersAfterRelease(p.leases, call, s);
  }

  /** The last release of a stored session leaves it without a holder. */
  lemma ReleaseKeepsOwn(p: Pool, call: CallId)
    requires Inv(p) && call in p.leases && !p.leases[call].released
    ensures SessionOk(ReleaseStep(p, call), p.leases[call].session)
  {
    var lease := p.leases[call];
    var s := lease.session;
    assert SessionOk(p, s) && CallOk(p, call) && EntryOk(p, lease.server);
    HoldersAfterRelease(p.leases, call, s);
    assert call in Holders(p.leases, s);
    assert |Holders(p.leases, s) - {call}| == |Holders(p.leases, s)| - 1;
  }

  lemma ReleaseKeepsSessions(p: Pool, call: CallId, s: SessionId)
    requires Inv(p) && call in p.leases && !p.leases[call].released
    ensures SessionOk(ReleaseStep(p, call), s)
  {
    if s == p.leases[call].session { ReleaseKeepsOwn(p, call); } else { ReleaseLeavesOthers(p, call, s); }
  }

  lemma ReleaseKeepsInv(p: Pool, call: CallId)
    requires Inv(p) && call in p.leases
    ensures Inv(ReleaseStep(p, call))
  {
    var q := ReleaseStep(p, call);
    if !p.leases[call].released {
      var lease := p.leases[call];
      assert CallOk(p, call);
      forall k ensures EntryOk(q, k) {
        assert EntryOk(p, k);
        if k in q.sessions {
          HoldersAfterRelease(p.leases, call, q.sessions[k].session);
          if k == lease.server && p.sessions[k].session == lease.session {
            assert call in Holders(p.leases, lease.session);
          }
        }
      }
      forall c ensures CallOk(q, c) { assert CallOk(p, c); }
      forall s ensures SessionOk(q, s) { ReleaseKeepsSessions(p, call, s); }
    }
  }

  lemma DisconnectKeepsInv(p: Pool, session: SessionId)
    requires Inv(p) && session in p.serverOf
    ensures Inv(DisconnectStep(p, session))
  {
    var q := DisconnectStep(p, session);
    forall k ensures EntryOk(q, k) { assert EntryOk(p, k); }
    forall c ensures CallOk(q, c) { assert CallOk(p, c); }
    forall s ensures SessionOk(q, s) { assert SessionOk(p, s); }
  }

  lemma CloseAllKeepsInv(p: Pool)
    requires Inv(p)
    ensures Inv(CloseAllStep(p))
  {
    var q := CloseAllStep(p);
    forall k ensures EntryOk(q, k) { assert EntryOk(p, k); }
    forall c ensures CallOk(q, c) { assert CallOk(p, c); }
    forall s ensures SessionOk(q, s) {
      assert SessionOk(p, s);
      if s in Stored(p.sessions) {
        var k :| k in p.sessions && p.sessions[k].session == s;
        assert EntryOk(p, k);
      }
    }
  }

  lemma StepKeepsInv(p: Pool, e: Event)
    requires Inv(p) && Enabled(p, e)
    ensures Inv(Apply(p, e))
  {
    match e
    case Acquire(call, server) =>
      if server in p.sessions { HitKeepsInv(p, call, server); } else { MissKeepsInv(p, call, server); }
    case Connected(call) => ConnectedKeepsInv(p, call);
    case ConnectFailed(call) => FailedKeepsInv(p, call);
    case Release(call) => ReleaseKeepsInv(p, call);
    case Disconnect(session) => DisconnectKeepsInv(p, session);
    case CloseAll => CloseAllKeepsInv(p);
  }

  /** The invariant holds between any two events of any run. */
  lemma {:induction false} RunKeepsInv(pools: seq<Pool>, events: seq<Event>, n: nat)
    requires IsRun(pools, events) && n <= |events|
    ensures Inv(pools[n])
  {
    if n == 0 {
      forall s ensures SessionOk(EMPTY, s) {}
      forall k ensures EntryOk(EMPTY, k) {}
      forall c ensures CallOk(EMPTY, c) {}
    } else {
      RunKeepsInv(pools, events, n - 1);
      StepKeepsInv(pools[n - 1], events[n - 1]);
    }
  }

  // ---------- what the pool promises, in every run ----------

  /** Reference counting: a stored entry counts its unreleased leases, and is gone when there is none. */
  lemma LeasesAreCounted(pools: seq<Pool>, events: seq<Event>, n: nat, server: ServerId)
    requires IsRun(pools, events) && n <= |events|
    requires server in pools[n].sessions
    ensures pools[n].sessions[server].leases == |Holders(pools[n].leases, pools[n].sessions[server].session)| >= 1
  {
    RunKeepsInv(pools, events, n);
    assert EntryOk(pools[n], server);
  }

  /** No session is ever closed twice. */
  lemma ClosedAtMostOnce(pools: seq<Pool>, events: seq<Event>, n: nat, s: SessionId)
    requires IsRun(pools, events) && n <= |events|
    ensures pools[n].closed[s] <= 1
  {
    RunKeepsInv(pools, events, n);
    assert SessionOk(pools[n], s);
  }

  /** A release closes at most the session of its own lease, and only when nobody else holds it. */
  lemma ReleaseClosesOnlyIdle(pools: seq<Pool>, events: seq<Event>, n: nat, s: SessionId)
    requires IsRun(pools, events) && n < |events| && events[n].Release?
    requires pools[n + 1].closed[s] != pools[n].closed[s]
    ensures s == pools[n].leases[events[n].call].session
    ensures Holders(pools[n + 1].leases, s) == {}
    ensures Holders(pools[n].leases, s) == {events[n].call}
  {
    var p, call := pools[n], events[n].call;
    RunKeepsInv(pools, events, n);
    assert CallOk(p, call) && EntryOk(p, p.leases[call].server);
    HoldersAfterRelease(p.leases, call, s);
    assert call in Holders(p.leases, s);
    assert |Holders(p.leases, s) - {call}| == |Holders(p.leases, s)| - 1;
  }

  /** Once nobody holds a session, the pool has closed it exactly when it neither disconnected first nor was
      replaced. */
  lemma IdleIsClosedUnlessLost(pools: seq<Pool>, events: seq<Event>, n: nat, s: SessionId)
    requires IsRun(pools, events) && n <= |events|
    requires s in pools[n].serverOf && Holders(pools[n].leases, s) == {}
    ensures pools[n].closed[s] == 1 <==> s !in pools[n].dropped && s !in pools[n].replaced
  {
    var p := pools[n];
    RunKeepsInv(pools, events, n);
    assert SessionOk(p, s) && EntryOk(p, p.serverOf[s]);
  }

  /** A replaced session stays replaced, so it is never closed: the pool has lost it for good. */
  lemma {:induction false} ReplacedIsNeverClosed(pools: seq<Pool>, events: seq<Event>, n: nat, m: nat, s: SessionId)
    requires IsRun(pools, events) && n <= m <= |events|
    requires s in pools[n].replaced
    ensures s in pools[m].replaced && pools[m].closed[s] == 0
    decreases m
  {
    RunKeepsInv(pools, events, m);
    assert SessionOk(pools[m], s);
    if n < m { ReplacedIsNeverClosed(pools, events, n, m - 1, s); }
  }

  // ---------- overlapping first acquires ----------

  /** A session is connected for a server that has an entry by now. */
  predicate Clashes(p: Pool, e: Event) {
    e.Connected? && e.call in p.connecting && p.connecting[e.call] in p.sessions
  }

  /** A step replaces a session if and only if it is a clash, and then that of the entry it overwrites. */
  lemma ReplacesExactly(p: Pool, e: Event)
    requires Inv(p) && Enabled(p, e)
    ensures Apply(p, e).replaced == if Clashes(p, e) then p.replaced + {p.sessions[p.connecting[e.call]].session}
        else p.replaced
    ensures Apply(p, e).replaced == p.replaced <==> !Clashes(p, e)
  {
    if Clashes(p, e) {
      var k := p.connecting[e.call];
      assert EntryOk(p, k) && SessionOk(p, p.sessions[k].session);
    }
  }

  ghost predicate NoClashBefore(pools: seq<Pool>, events: seq<Event>, n: nat)
    requires n <= |events| < |pools|
  {
    forall m :: 0 <= m < n ==> !Clashes(pools[m], events[m])
  }

  /** Over a run: nothing was replaced if and only if nothing clashed. */
  lemma {:induction false} NothingReplacedExactly(pools: seq<Pool>, events: seq<Event>, n: nat)
    requires IsRun(pools, events) && n <= |events|
    ensures pools[n].replaced == {} <==> NoClashBefore(pools, events, n)
  {
    if n > 0 {
      NothingReplacedExactly(pools, events, n - 1);
      RunKeepsInv(pools, events, n - 1);
      ReplacesExactly(pools[n - 1], events[n - 1]);
      assert NoClashBefore(pools, events, n)
        <==> NoClashBefore(pools, events, n - 1) && !Clashes(pools[n - 1], events[n - 1]);
    }
  }

  /** The step overwrites the entry that holds `s`. */
  predicate Overwrites(p: Pool, e: Event, s: SessionId) {
    Clashes(p, e) && p.sessions[p.connecting[e.call]].session == s
  }

  ghost predicate OverwrittenBefore(pools: seq<Pool>, events: seq<Event>, n: nat, s: SessionId)
    requires n <= |events| < |pools|
  {
    exists m :: 0 <= m < n && Overwrites(pools[m], events[m], s)
  }

  lemma OneMoreOverwrite(pools: seq<Pool>, events: seq<Event>, n: nat, s: SessionId)
    requires n < |events| < |pools|
    ensures OverwrittenBefore(pools, events, n + 1, s)
       <==> OverwrittenBefore(pools, events, n, s) || Overwrites(pools[n], events[n], s)
  {
  }

  lemma ReplacedStep(p: Pool, e: Event, s: SessionId)
    requires Inv(p) && Enabled(p, e)
    ensures s in Apply(p, e).replaced <==> s in p.replaced || Overwrites(p, e, s)
  {
    ReplacesExactly(p, e);
  }

  lemma ReplacedOnce(pools: seq<Pool>, events: seq<Event>, n: nat, s: SessionId)
    requires IsRun(pools, events) && n < |events|
    requires s in pools[n].replaced <==> OverwrittenBefore(pools, events, n, s)
    ensures s in pools[n + 1].replaced <==> OverwrittenBefore(pools, events, n + 1, s)
  {
    RunKeepsInv(pools, events, n);
    ReplacedStep(pools[n], events[n], s);
    OneMoreOverwrite(pools, events, n, s);
  }

  /** Over a run: a session was replaced if and only if some clash overwrote its entry. */
  lemma ReplacedExactly(pools: seq<Pool>, events: seq<Event>, n: nat, s: SessionId)
    requires IsRun(pools, events) && n <= |events|
    ensures s in pools[n].replaced <==> OverwrittenBefore(pools, events, n, s)
  {
    var k := 0;
    while k < n
      invariant 0 <= k <= n
      invariant s in pools[k].replaced <==> OverwrittenBefore(pools, events, k, s)
    {
      ReplacedOnce(pools, events, k, s);
      k := k + 1;
    }
  }

  /** The pool has closed a session that nobody holds any more if and only if it did not disconnect first
      and no clash overwrote its entry. */
  lemma LastReleaseClosesExactly(pools: seq<Pool>, events: seq<Event>, n: nat, s: SessionId)
    requires IsRun(pools, events) && n <= |events|
    requires s in pools[n].serverOf && Holders(pools[n].leases, s) == {}
    ensures pools[n].closed[s] == 1 <==> s !in pools[n].dropped && !OverwrittenBefore(pools, events, n, s)
  {
    IdleIsClosedUnlessLost(pools, events, n, s);
    ReplacedExactly(pools, events, n, s);
  }

  /** The caller starts no connect for a server while another one is on its way. */
  ghost predicate Alone(p: Pool, e: Event) {
    e.Acquire? && e.server !in p.sessions ==> forall c :: c in p.connecting ==> p.connecting[c] != e.server
  }

  ghost predicate NoOverlap(pools: seq<Pool>, events: seq<Event>)
    requires IsRun(pools, events)
  {
    forall i :: 0 <= i < |events| ==> Alone(pools[i], events[i])
  }

  /** A connect on its way is the only one for its server, and the server has no entry yet. */
  ghost predicate Solitary(p: Pool, c: CallId) {
    c in p.connecting ==>
      && p.connecting[c] !in p.sessions
      && forall d :: d in p.connecting && d != c ==> p.connecting[d] != p.connecting[c]
  }

  lemma StepKeepsSolitary(p: Pool, e: Event, c: CallId)
    requires Inv(p) && Enabled(p, e) && Alone(p, e)
    requires forall d :: Solitary(p, d)
    ensures Solitary(Apply(p, e), c)
    ensures Apply(p, e).replaced == p.replaced
  {
    assert Solitary(p, c);
    match e
    case Acquire(call, server) =>
    case Connected(call) => assert Solitary(p, call);
    case ConnectFailed(call) =>
    case Release(call) =>
    case Disconnect(session) =>
    case CloseAll =>
  }

  lemma {:induction false} NoOverlapNothingReplaced(pools: seq<Pool>, events: seq<Event>, n: nat)
    requires IsRun(pools, events) && NoOverlap(pools, events) && n <= |events|
    ensures pools[n].replaced == {}
    ensures forall c :: Solitary(pools[n], c)
  {
    if n > 0 {
      NoOverlapNothingReplaced(pools, events, n - 1);
      RunKeepsInv(pools, events, n - 1);
      forall c ensures Solitary(pools[n], c) && pools[n].replaced == {} {
        StepKeepsSolitary(pools[n - 1], events[n - 1], c);
      }
      assert Solitary(pools[n], 0);
    }
  }

  /** Without overlap the last release always closes the session, unless it disconnected. */
  lemma LastReleaseCloses(pools: seq<Pool>, events: seq<Event>, n: nat, s: SessionId)
    requires IsRun(pools, events) && NoOverlap(pools, events) && n <= |events|
    requires s in pools[n].serverOf && Holders(pools[n].leases, s) == {}
    ensures pools[n].closed[s] == 1 <==> s !in pools[n].dropped
  {
    NoOverlapNothingReplaced(pools, events, n);
    IdleIsClosedUnlessLost(pools, events, n, s);
  }

  /** Two first acquires that overlap lose the first session: by ReplacedIsNeverClosed no later event closes it. */
  lemma OverlapLosesSession(server: ServerId) returns (pools: seq<Pool>, events: seq<Event>)
    ensures IsRun(pools, events) && |events| == 4
    ensures 0 in pools[4].serverOf && 0 in pools[4].replaced
    ensures 0 in pools[4].leases && !pools[4].leases[0].released
  {
    events := [Acquire(0, server), Acquire(1, server), Connected(0), Connected(1)];
    var p1 := EMPTY.(connecting := map[0 := server]);
    var p2 := EMPTY.(connecting := map[0 := server, 1 := server]);
    var p3 := ConnectedStep(p2, 0);
    pools := [EMPTY, p1, p2, p3, ConnectedStep(p3, 1)];
  }
}
