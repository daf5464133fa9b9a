/** AgentRegistry as a state machine: one live socket per agent, and requests that a response, a
    timer or a failing send settles.  JavaScript runs each method to its end, so a step is one call
    or one firing timer, and a run is any sequence of them.
    A request is named by its own random id; settling it is one call of its resolve or reject.
 */
module AgentRegistryModel {
  import opened Options

  type AgentId = string
  type RequestId = string
  type Socket = nat

  datatype Cause = Response(agent: AgentId, ok: bool) | TimedOut | SendFailed

  datatype Settlement = Settlement(id: RequestId, cause: Cause)

  datatype State = State(
    sockets: map<AgentId, Socket>,
    closed: set<Socket>,                // sockets on which the registry called close
    pending: map<string, RequestId>,
    armed: set<RequestId>,              // timers neither fired nor cleared
    sent: map<RequestId, AgentId>,      // every request that reached its promise
    settled: seq<Settlement>            // every resolve or reject, oldest first
  )

  const INIT := State(map[], {}, map[], {}, map[], [])

  datatype Event =
    | Attach(agent: AgentId, socket: Socket)
    | Detach(agent: AgentId, which: Option<Socket>)
    | Revoke(agent: AgentId)
    | Request(agent: AgentId, id: RequestId, ready: bool, delivered: bool)
    | Accept(agent: AgentId, message: string, ok: bool)
    | Timeout(id: RequestId)

  /** The key under which a request waits. */
  function Key(agent: AgentId, id: string): string {
    agent + [':'] + id
  }

  predicate NoColon(s: string) {
    ':' !in s
  }

  // ---------- steps ----------

  /** `this.sockets.get(id)?.close()` */
  function CloseHeld(s: State, agent: AgentId): State {
    if agent in s.sockets then s.(closed := s.closed + {s.sockets[agent]}) else s
  }

  function Attached(s: State, agent: AgentId, socket: Socket): State {
    CloseHeld(s, agent).(sockets := s.sockets[agent := socket])
  }

  function Detached(s: State, agent: AgentId, which: Option<Socket>): State {
    if which.None? || (agent in s.sockets && s.sockets[agent] == which.value) then s.(sockets := s.sockets - {agent})
      else s
  }

  function Revoked(s: State, agent: AgentId): State {
    CloseHeld(s, agent).(sockets := s.sockets - {agent})
  }

  function Requested(s: State, agent: AgentId, id: RequestId, ready: bool, delivered: bool): State {
    if agent !in s.sockets || !ready then s  // AGENT_OFFLINE
    else if delivered then
      s.(sent := s.sent[id := agent], pending := s.pending[Key(agent, id) := id], armed := s.armed + {id})
    else
      s.(sent := s.sent[id := agent], settled := s.settled + [Settlement(id, SendFailed)])
  }

  function Settle(s: State, key: string, id: RequestId, cause: Cause): State {
    s.(pending := s.pending - {key}, armed := s.armed - {id}, settled := s.settled + [Settlement(id, cause)])
  }

  function Accepted(s: State, agent: AgentId, message: string, ok: bool): State {
    var key := Key(agent, message);
    if key in s.pending then Settle(s, key, s.pending[key], Response(agent, ok)) else s
  }

  function Expired(s: State, id: RequestId): State
    requires id in s.sent
  {
    Settle(s, Key(s.sent[id], id), id, TimedOut)
  }

  /** A random id has no colon and was never drawn before; only an armed timer fires. */
  predicate Enabled(s: State, e: Event) {
    match e
    case Request(_, id, _, _) => id !in s.sent && NoColon(id)
    case Timeout(id) => id in s.armed && id in s.sent
    case _ => true
  }

  function Apply(s: State, e: Event): State
    requires Enabled(s, e)
  {
    match e
    case Attach(agent, socket) => Attached(s, agent, socket)
    case Detach(agent, which) => Detached(s, agent, which)
    case Revoke(agent) => Revoked(s, agent)
    case Request(agent, id, ready, delivered) => Requested(s, agent, id, ready, delivered)
    case Accept(agent, message, ok) => Accepted(s, agent, message, ok)
    case Timeout(id) => Expired(s, id)
  }

  /** A run: the registries between the events, from the empty one on. */
  ghost predicate IsRun(states: seq<State>, events: seq<Event>) {
    && |states| == |events| + 1
    && states[0] == INIT
    && forall i :: 0 <= i < |events| ==> Enabled(states[i], events[i]) && states[i + 1] == Apply(states[i], events[i])
  }

  // ---------- keys ----------

  /** What a response from `a` can reach: requests to `a`, and to agents whose id starts with `a` and a colon. */
  ghost predicate Reaches(a: AgentId, b: AgentId) {
    a == b || a + [':'] <= b
  }

  lemma KeysMeet(a: AgentId, message: string, b: AgentId, id: RequestId)
    requires Key(a, message) == Key(b, id) && NoColon(id)
    ensures Reaches(a, b)
    ensures a == b ==> message == id
  {
    var k := Key(a, message);
    assert k[|a|] == ':' && k[|b|] == ':' && k[..|a|] == a && k[..|b|] == b;
    assert k[|a| + 1..] == message && k[|b| + 1..] == id;
    if |a| < |b| {
      assert b[|a|] == ':' && b[..|a|] == k[..|a|];
      assert b[..|a| + 1] == a + [':'];
    }
  }

  lemma KeyIsUnique(a: AgentId, id: RequestId, b: AgentId, other: RequestId)
    requires Key(a, id) == Key(b, other) && NoColon(id) && NoColon(other)
    ensures id == other
  {
    KeysMeet(a, id, b, other);
    KeysMeet(b, other, a, id);
  }

  lemma ColonKeepsApart(a: AgentId, b: AgentId)
    requires Reaches(a, b) && a != b
    ensures !NoColon(b)
  {
    assert (a + [':'])[|a|] == ':' && b[|a|] == ':';
  }

  // ---------- the invariant, one name at a time ----------

  /** How often a request was settled. */
  function Times(settled: seq<Settlement>, id: RequestId): nat
    decreases |settled|
  {
    if settled == [] then 0
    else Times(settled[..|settled| - 1], id) + if settled[|settled| - 1].id == id then 1 else 0
  }

  lemma TimesAfter(settled: seq<Settlement>, x: Settlement, id: RequestId)
    ensures Times(settled + [x], id) == Times(settled, id) + if x.id == id then 1 else 0
  {
    assert (settled + [x])[..|settled|] == settled;
  }

  function One(b: bool): nat {
    if b then 1 else 0
  }

  /** A sent request is either armed or settled, once. */
  ghost predicate CountOk(s: State, id: RequestId) {
    Times(s.settled, id) + One(id in s.armed) == One(id in s.sent)
  }

  /** An armed request waits under its own key. */
  ghost predicate RequestOk(s: State, id: RequestId) {
    && (id in s.sent ==> NoColon(id))
    && (id in s.armed ==> id in s.sent && Key(s.sent[id], id) in s.pending && s.pending[Key(s.sent[id], id)] == id)
  }

  ghost predicate KeyOk(s: State, k: string) {
    k in s.pending ==> s.pending[k] in s.armed && s.pending[k] in s.sent && k == Key(s.sent[s.pending[k]], s.pending[k])
  }

  ghost predicate ReplyOk(s: State, n: nat) {
    n < |s.settled| && s.settled[n].cause.Response? ==>
      s.settled[n].id in s.sent && Reaches(s.settled[n].cause.agent, s.sent[s.settled[n].id])
  }

  ghost predicate Inv(s: State) {
    && (forall id :: CountOk(s, id))
    && (forall id :: RequestOk(s, id))
    && (forall k :: KeyOk(s, k))
    && (forall n :: ReplyOk(s, n))
  }

  /** Sockets play no part in the invariant. */
  lemma SocketsAside(s: State, t: State)
    requires Inv(s) && t == s.(sockets := t.sockets, closed := t.closed)
    ensures Inv(t)
  {
    forall id ensures CountOk(t, id) { assert CountOk(s, id); }
    forall id ensures RequestOk(t, id) { assert RequestOk(s, id); }
    forall k ensures KeyOk(t, k) { assert KeyOk(s, k); }
    forall n ensures ReplyOk(t, n) { assert ReplyOk(s, n); }
  }

  lemma SettleKeepsInv(s: State, key: string, cause: Cause)
    requires Inv(s) && key in s.pending
    requires cause.Response? ==> s.pending[key] in s.sent && Reaches(cause.agent, s.sent[s.pending[key]])
    ensures Inv(Settle(s, key, s.pending[key], cause))
  {
    var id := s.pending[key];
    var t := Settle(s, key, id, cause);
    assert KeyOk(s, key);
    forall other ensures CountOk(t, other) {
      assert CountOk(s, other);
      TimesAfter(s.settled, Settlement(id, cause), other);
    }
    forall other ensures RequestOk(t, other) { assert RequestOk(s, other); }
    forall k ensures KeyOk(t, k) { assert KeyOk(s, k); }
    forall n ensures ReplyOk(t, n) { assert ReplyOk(s, n); }
  }

  lemma AcceptKeepsInv(s: State, agent: AgentId, message: string, ok: bool)
    requires Inv(s)
    ensures Inv(Accepted(s, agent, message, ok))
  {
    var key := Key(agent, message);
    if key in s.pending {
      var id := s.pending[key];
      assert KeyOk(s, key) && RequestOk(s, id);
      KeysMeet(agent, message, s.sent[id], id);
      SettleKeepsInv(s, key, Response(agent, ok));
    }
  }

  lemma FailedSendKeepsInv(s: State, agent: AgentId, id: RequestId)
    requires Inv(s) && id !in s.sent && NoColon(id)
    ensures Inv(s.(sent := s.sent[id := agent], settled := s.settled + [Settlement(id, SendFailed)]))
  {
    var t := s.(sent := s.sent[id := agent], settled := s.settled + [Settlement(id, SendFailed)]);
    forall other ensures CountOk(t, other) {
      assert CountOk(s, other);
      TimesAfter(s.settled, Settlement(id, SendFailed), other);
    }
    forall other ensures RequestOk(t, other) { assert RequestOk(s, other); }
    forall k ensures KeyOk(t, k) { assert KeyOk(s, k); }
    forall n ensures ReplyOk(t, n) { assert ReplyOk(s, n); }
  }

  lemma SendKeepsInv(s: State, agent: AgentId, id: RequestId)
    requires Inv(s) && id !in s.sent && NoColon(id)
    ensures Inv(s.(sent := s.sent[id := agent], pending := s.pending[Key(agent, id) := id], armed := s.armed + {id}))
    ensures Key(agent, id) !in s.pending
  {
    var t := s.(sent := s.sent[id := agent], pending := s.pending[Key(agent, id) := id], armed := s.armed + {id});
    assert CountOk(s, id);
    if Key(agent, id) in s.pending {
      var other := s.pending[Key(agent, id)];
      assert KeyOk(s, Key(agent, id)) && RequestOk(s, other);
      KeyIsUnique(agent, id, s.sent[other], other);
    }
    forall other ensures CountOk(t, other) { assert CountOk(s, other); }
    forall other ensures RequestOk(t, other) { assert RequestOk(s, other); }
    forall k ensures KeyOk(t, k) { assert KeyOk(s, k); }
    forall n ensures ReplyOk(t, n) { assert ReplyOk(s, n); }
  }

  lemma StepKeepsInv(s: State, e: Event)
    requires Inv(s) && Enabled(s, e)
    ensures Inv(Apply(s, e))
  {
    match e
    case Attach(agent, socket) => SocketsAside(s, Apply(s, e));
    case Detach(agent, which) => SocketsAside(s, Apply(s, e));
    case Revoke(agent) => SocketsAside(s, Apply(s, e));
    case Request(agent, id, ready, delivered) =>
      if agent in s.sockets && ready {
        if delivered { SendKeepsInv(s, agent, id); } else { FailedSendKeepsInv(s, agent, id); }
      }
    case Accept(agent, message, ok) => AcceptKeepsInv(s, agent, message, ok);
    case Timeout(id) =>
      assert RequestOk(s, id);
      SettleKeepsInv(s, Key(s.sent[id], id), TimedOut);
  }

  lemma {:induction false} RunKeepsInv(states: seq<State>, events: seq<Event>, n: nat)
    requires IsRun(states, events) && n <= |events|
    ensures Inv(states[n])
  {
    if n > 0 {
      RunKeepsInv(states, events, n - 1);
      StepKeepsInv(states[n - 1], events[n - 1]);
    }
  }

  // ---------- requests, in every run ----------

  /** The keys under which a request waits. */
  ghost function KeysOf(s: State, id: RequestId): set<string> {
    set k | k in s.pending && s.pending[k] == id
  }

  /** A sent request is settled at most once; until then it has its timer and exactly one key, afterwards neither. */
  lemma SettlesOnce(states: seq<State>, events: seq<Event>, n: nat, id: RequestId)
    requires IsRun(states, events) && n <= |events| && id in states[n].sent
    ensures var s := states[n];
            if Times(s.settled, id) == 0 then id in s.armed && KeysOf(s, id) == {Key(s.sent[id], id)}
            else Times(s.settled, id) == 1 && id !in s.armed && KeysOf(s, id) == {}
  {
    var s := states[n];
    RunKeepsInv(states, events, n);
    assert CountOk(s, id) && RequestOk(s, id);
    forall k ensures k in KeysOf(s, id) <==> id in s.armed && k == Key(s.sent[id], id) {
      assert KeyOk(s, k);
    }
  }

  /** What no request was sent for is never settled. */
  lemma OnlySentIsSettled(states: seq<State>, events: seq<Event>, n: nat, id: RequestId)
    requires IsRun(states, events) && n <= |events| && id !in states[n].sent
    ensures Times(states[n].settled, id) == 0 && id !in states[n].armed && KeysOf(states[n], id) == {}
  {
    var s := states[n];
    RunKeepsInv(states, events, n);
    assert CountOk(s, id);
    forall k ensures k !in KeysOf(s, id) { assert KeyOk(s, k); }
  }

  /** The event that settles request `id`, with the cause it gives. */
  ghost predicate Causes(s: State, e: Event, x: Settlement) {
    match x.cause
    case Response(agent, ok) =>
      && e.Accept? && e.agent == agent && e.ok == ok
      && x.id in s.armed && x.id in s.sent && Key(agent, e.message) == Key(s.sent[x.id], x.id)
    case TimedOut => e == Timeout(x.id) && x.id in s.armed
    case SendFailed =>
      && e.Request? && e.id == x.id && !e.delivered && e.ready && e.agent in s.sockets
      && x.id !in s.sent
  }

  lemma AcceptSettles(s: State, agent: AgentId, message: string, ok: bool)
    requires Inv(s)
    ensures var t, key := Accepted(s, agent, message, ok), Key(agent, message);
            if key in s.pending then
              && t.settled == s.settled + [Settlement(s.pending[key], Response(agent, ok))]
              && Causes(s, Accept(agent, message, ok), Settlement(s.pending[key], Response(agent, ok)))
            else t == s
  {
    var key := Key(agent, message);
    assert KeyOk(s, key);
  }

  /** A step settles at most one request, and only as its event says. */
  lemma StepSettles(s: State, e: Event)
    requires Inv(s) && Enabled(s, e)
    ensures var t := Apply(s, e);
            || t.settled == s.settled
            || (&& |t.settled| == |s.settled| + 1 && t.settled[..|s.settled|] == s.settled
                && Causes(s, e, t.settled[|s.settled|]))
  {
    if e.Accept? { AcceptSettles(s, e.agent, e.message, e.ok); }
  }

  /** Every settlement has its event: a response with this outcome, a timeout, or a send that failed. */
  lemma {:induction false} SettlementHasCause(states: seq<State>, events: seq<Event>, n: nat, i: nat) returns (m: nat)
    requires IsRun(states, events) && n <= |events| && i < |states[n].settled|
    ensures m < n && Causes(states[m], events[m], states[n].settled[i])
    ensures |states[m].settled| == i
    decreases n
  {
    RunKeepsInv(states, events, n - 1);
    StepSettles(states[n - 1], events[n - 1]);
    if i < |states[n - 1].settled| {
      m := SettlementHasCause(states, events, n - 1, i);
      assert states[n].settled[i] == states[n].settled[..|states[n - 1].settled|][i];
    } else {
      m := n - 1;
    }
  }

  /** And every such event settles its request, at once and with this outcome. */
  lemma CauseSettles(states: seq<State>, events: seq<Event>, m: nat, x: Settlement)
    requires IsRun(states, events) && m < |events| && Causes(states[m], events[m], x)
    ensures states[m + 1].settled == states[m].settled + [x]
    ensures x.id !in states[m + 1].armed
  {
    var s := states[m];
    RunKeepsInv(states, events, m);
    assert RequestOk(s, x.id) && CountOk(s, x.id);
  }

  /** A request goes out exactly if the agent has a socket that is ready. */
  lemma RequestGoesOut(s: State, agent: AgentId, id: RequestId, ready: bool, delivered: bool)
    requires Enabled(s, Request(agent, id, ready, delivered))
    ensures var t := Apply(s, Request(agent, id, ready, delivered));
            if agent in s.sockets && ready then
              t.sent == s.sent[id := agent] && (id in t.armed <==> delivered || id in s.armed)
            else t == s
  {
  }

  /** A response from `a` settles only requests that Reaches allows it. */
  lemma ResponsesReach(states: seq<State>, events: seq<Event>, n: nat, i: nat)
    requires IsRun(states, events) && n <= |events| && i < |states[n].settled|
    requires states[n].settled[i].cause.Response?
    ensures var x := states[n].settled[i];
            x.id in states[n].sent && Reaches(x.cause.agent, states[n].sent[x.id])
  {
    RunKeepsInv(states, events, n);
    assert ReplyOk(states[n], i);
  }

  /** Agents whose ids have no colon settle only the requests that were sent to them. */
  lemma OnlyTheAddresseeAnswers(states: seq<State>, events: seq<Event>, n: nat, i: nat)
    requires IsRun(states, events) && n <= |events| && i < |states[n].settled|
    requires forall id :: id in states[n].sent ==> NoColon(states[n].sent[id])
    requires states[n].settled[i].cause.Response?
    ensures var x := states[n].settled[i];
            x.id in states[n].sent && states[n].sent[x.id] == x.cause.agent
  {
    ResponsesReach(states, events, n, i);
    var x := states[n].settled[i];
    if x.cause.agent != states[n].sent[x.id] { ColonKeepsApart(x.cause.agent, states[n].sent[x.id]); }
  }

  /** And Reaches is exact: with a colon in an agent's id, another agent can answer for it. */
  lemma ReachIsExact(a: AgentId, b: AgentId, id: RequestId) returns (states: seq<State>, events: seq<Event>)
    requires Reaches(a, b) && NoColon(id)
    ensures IsRun(states, events) && |events| == 3
    ensures states[3].sent == map[id := b]
    ensures states[3].settled == [Settlement(id, Response(a, true))]
  {
    var message := if a == b then id else b[|a| + 1..] + [':'] + id;
    assert Key(a, message) == Key(b, id) by {
      if a != b { assert b == a + [':'] + b[|a| + 1..]; }
    }
    events := [Attach(b, 0), Request(b, id, true, true), Accept(a, message, true)];
    var s1 := Apply(INIT, events[0]);
    var s2 := Apply(s1, events[1]);
    states := [INIT, s1, s2, Apply(s2, events[2])];
  }

  // ---------- sockets, in every run ----------

  /** The event takes `socket` away from `agent`, or puts a newer one in its place. */
  predicate Ends(e: Event, agent: AgentId, socket: Socket) {
    match e
    case Attach(a, _) => a == agent
    case Detach(a, which) => a == agent && (which.None? || which.value == socket)
    case Revoke(a) => a == agent
    case _ => false
  }

  /** Event `i` attached the socket, and nothing before event `n` ended that. */
  ghost predicate AttachedAt(events: seq<Event>, n: nat, agent: AgentId, socket: Socket, i: int) {
    && 0 <= i < n <= |events|
    && events[i] == Attach(agent, socket)
    && forall j :: i < j < n ==> !Ends(events[j], agent, socket)
  }

  ghost predicate Holds(s: State, agent: AgentId, socket: Socket) {
    agent in s.sockets && s.sockets[agent] == socket
  }

  /** Some event attached the socket, and nothing before event `n` ended that. */
  ghost predicate Latest(events: seq<Event>, n: nat, agent: AgentId, socket: Socket) {
    exists i :: AttachedAt(events, n, agent, socket, i)
  }

  lemma OneMoreEvent(events: seq<Event>, n: nat, agent: AgentId, socket: Socket)
    requires n < |events|
    ensures Latest(events, n + 1, agent, socket)
       <==> || events[n] == Attach(agent, socket)
            || (!Ends(events[n], agent, socket) && Latest(events, n, agent, socket))
  {
    var next: nat := n + 1;
    if events[n] == Attach(agent, socket) {
      assert AttachedAt(events, next, agent, socket, n);
    } else if Latest(events, n + 1, agent, socket) {
      var i :| AttachedAt(events, n + 1, agent, socket, i);
      assert AttachedAt(events, n, agent, socket, i);
    } else if Latest(events, n, agent, socket) {
      var i :| AttachedAt(events, n, agent, socket, i);
      assert Ends(events[n], agent, socket) || AttachedAt(events, next, agent, socket, i);
    }
  }

  /** The map is the history: an agent has the socket that was attached and not ended since.
      A late close of a socket that was replaced is not such an end. */
  lemma {:induction false} SocketIsTheLatest(states: seq<State>, events: seq<Event>, n: nat, agent: AgentId,
      socket: Socket)
    requires IsRun(states, events) && n <= |events|
    ensures Holds(states[n], agent, socket) <==> Latest(events, n, agent, socket)
  {
    if n > 0 {
      var e := events[n - 1];
      SocketIsTheLatest(states, events, n - 1, agent, socket);
      assert Holds(states[n], agent, socket) <==>
             e == Attach(agent, socket) || (Holds(states[n - 1], agent, socket) && !Ends(e, agent, socket));
      OneMoreEvent(events, n - 1, agent, socket);
    }
  }

  /** No attached socket is forgotten: the agent still has it, or the registry closed it, or it was detached. */
  lemma {:induction false} SocketsAreAccounted(states: seq<State>, events: seq<Event>, n: nat, i: nat, agent: AgentId,
      socket: Socket)
    requires IsRun(states, events) && i < n <= |events| && events[i] == Attach(agent, socket)
    ensures || Holds(states[n], agent, socket)
            || socket in states[n].closed
            || exists j :: i < j < n && events[j].Detach? && Ends(events[j], agent, socket)
    decreases n
  {
    if i < n - 1 {
      SocketsAreAccounted(states, events, n - 1, i, agent, socket);
      var e := events[n - 1];
      assert e.Detach? && Ends(e, agent, socket) ==> i < n - 1 < n;
    }
  }
}
