/** AgentRegistry as the program holds it: maps that its methods update, and one timer per waiting
    request.  Each method takes the state that View gives exactly one AgentRegistryModel step further.
 */
module AgentRegistries {
  import opened Options
  import M = AgentRegistryModel

  class AgentRegistry {
    var sockets: map<M.AgentId, M.Socket>
    var pending: map<string, M.RequestId>
    var timers: set<M.RequestId>
    var closed: set<M.Socket>
    ghost var sent: map<M.RequestId, M.AgentId>
    ghost var settled: seq<M.Settlement>

    constructor ()
      ensures View() == M.INIT
    {
      sockets, pending, timers, closed := map[], map[], {}, {};
      sent, settled := map[], [];
    }

    ghost function View(): M.State
      reads this
    {
      M.State(sockets, closed, pending, timers, sent, settled)
    }

    method Attach(agent: M.AgentId, socket: M.Socket)
      modifies this`sockets, this`closed
      ensures View() == M.Apply(old(View()), M.Attach(agent, socket))
    {
      if agent in sockets { closed := closed + {sockets[agent]}; }
      sockets := sockets[agent := socket];
    }

    method Detach(agent: M.AgentId, which: Option<M.Socket>)
      modifies this`sockets
      ensures View() == M.Apply(old(View()), M.Detach(agent, which))
    {
      if which.None? || (agent in sockets && sockets[agent] == which.value) { sockets := sockets - {agent}; }
    }

    method Revoke(agent: M.AgentId)
      modifies this`sockets, this`closed
      ensures View() == M.Apply(old(View()), M.Revoke(agent))
    {
      if agent in sockets { closed := closed + {sockets[agent]}; }
      sockets := sockets - {agent};
    }

    /** `ready` is `readyState === 1`; `delivered` says whether `send` returned. */
    method Request(agent: M.AgentId, id: M.RequestId, ready: bool, delivered: bool) returns (online: bool)
      requires M.Inv(View()) && M.Enabled(View(), M.Request(agent, id, ready, delivered))
      modifies this
      ensures View() == M.Apply(old(View()), M.Request(agent, id, ready, delivered))
      ensures online <==> agent in old(sockets) && ready
    {
      if agent !in sockets || !ready { return false; }
      ghost var was := View();
      M.SendKeepsInv(was, agent, id);
      assert id !in timers by { assert M.RequestOk(was, id); }
      timers, sent := timers + {id}, sent[id := agent];
      pending := pending[M.Key(agent, id) := id];
      if !delivered {
        timers := timers - {id};
        pending := pending - {M.Key(agent, id)};
        settled := settled + [M.Settlement(id, M.SendFailed)];
        assert pending == was.pending && timers == was.armed;
      }
      online := true;
    }

    method Accept(agent: M.AgentId, message: string, ok: bool)
      modifies this`pending, this`timers, this`settled
      ensures View() == M.Apply(old(View()), M.Accept(agent, message, ok))
    {
      var key := M.Key(agent, message);
      if key !in pending { return; }
      var id := pending[key];
      pending, timers := pending - {key}, timers - {id};
      settled := settled + [M.Settlement(id, M.Response(agent, ok))];
    }

    /** The timer of request `id` to `agent` fires. */
    method Expire(agent: M.AgentId, id: M.RequestId)
      requires id in timers && id in sent && sent[id] == agent
      modifies this`pending, this`timers, this`settled
      ensures View() == M.Apply(old(View()), M.Timeout(id))
    {
      pending, timers := pending - {M.Key(agent, id)}, timers - {id};
      settled := settled + [M.Settlement(id, M.TimedOut)];
    }
  }
}
