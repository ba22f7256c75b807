/** The listener: one handler per open task, and one record shared by all. */
module Listener {
  import opened Protocol
  import opened Ban
  import opened Proxy
  import opened Server

  /** What a session does to its handler: the logged calls, in order. */
  method Play(handler: ProxyHandler, log: seq<Event>)
    requires handler.State() == NEW_PROXY && Proxied(handler.verify, log)
    modifies handler
    ensures handler.State() == Replay(log, |log|)
  {
    for i := 0 to |log|
      invariant handler.State() == Replay(log, i)
    {
      assert AnsweredByProxy(handler.verify, log, i);
      match log[i]
      case Called(OnLogin(username, password), _) =>
        var answer := handler.OnLogin(username, password);
      case Called(OnMail(mail), service) =>
        var answer := handler.OnMail(mail, service);
      case Called(OnReset, _) =>
        handler.OnReset();
      case _ =>
    }
  }

  class ServerState {
    const limits: Limits
    const verify: (string, string) -> bool
    const fail2ban: Fail2Ban
    var now: Instant
    var open: map<nat, Task>
    var handlers: map<nat, ProxyHandler>

    constructor (limits: Limits, verify: (string, string) -> bool)
      ensures Valid() && View() == IDLE && fresh(fail2ban)
      ensures this.limits == limits && this.verify == verify && handlers == map[]
    {
      this.limits, this.verify := limits, verify;
      now, open, handlers := 0, map[], map[];
      fail2ban := new Fail2Ban(limits);
    }

    function View(): Net
      reads this, fail2ban
    {
      Net(now, fail2ban.peers, open)
    }

    /** Every open task has a handler of its own, which its session has not used yet. */
    ghost predicate Valid()
      reads this, fail2ban, handlers.Values
    {
      && fail2ban.limits == limits && handlers.Keys == open.Keys
      && (forall id :: id in handlers ==>
            && handlers[id].fail2ban == fail2ban && handlers[id].verify == verify
            && handlers[id].State() == NEW_PROXY)
      && (forall i, j :: i in handlers && j in handlers && i != j ==> handlers[i] != handlers[j])
    }

    method Accept(id: nat, peer: Peer, pushAt: Instant, verdictAt: Instant)
      requires Valid() && id !in open
      modifies this, fail2ban
      ensures Valid() && View() == Apply(limits, old(View()), Connect(id, peer, pushAt, verdictAt))
      ensures handlers.Keys == old(handlers).Keys + {id} && fresh(handlers[id])
      ensures forall i :: i in old(handlers) ==> handlers[i] == old(handlers)[i]
    {
      var handler := new ProxyHandler(verify, fail2ban);
      var accepted := handler.OnConnect(peer, pushAt, verdictAt);
      now := verdictAt;
      open := open[id := Task(peer, pushAt, accepted)];
      handlers := handlers[id := handler];
    }

    /** The session of connection `id` has run, and its task disconnects. */
    method Finish(id: nat, log: seq<Event>, at: Instant)
      requires Valid() && id in open && Proxied(verify, log)
      modifies this, fail2ban, handlers[id]
      ensures Valid() && View() == Apply(limits, old(View()), Disconnect(id, old(open[id].peer), log, at))
      ensures handlers.Keys == old(handlers).Keys - {id}
      ensures forall i :: i in handlers ==> handlers[i] == old(handlers)[i]
    {
      var handler := handlers[id];
      Play(handler, log);
      handler.OnDisconnect(open[id].peer, at);
      now := at;
      open, handlers := open - {id}, handlers - {id};
    }
  }

  /** The objects, driven through any schedule of tasks, hold what the timed system says. */
  method RunSchedule(limits: Limits, verify: (string, string) -> bool, acts: seq<Act>) returns (table: Table)
    requires IsRun(limits, acts)
    requires forall i :: 0 <= i < |acts| && acts[i].Disconnect? ==> Proxied(verify, acts[i].log)
    ensures table == After(limits, acts, |acts|).table
  {
    var server := new ServerState(limits, verify);
    for i := 0 to |acts|
      invariant server.Valid() && server.limits == limits && server.verify == verify
      invariant fresh(server.fail2ban) && forall id :: id in server.handlers ==> fresh(server.handlers[id])
      invariant server.View() == After(limits, acts, i)
    {
      assert Enabled(After(limits, acts, i), acts[i]);
      match acts[i]
      case Connect(id, peer, pushAt, verdictAt) => server.Accept(id, peer, pushAt, verdictAt);
      case Disconnect(id, peer, log, at) => server.Finish(id, log, at);
    }
    table := server.fail2ban.peers;
  }
}
