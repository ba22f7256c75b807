/** The handler of the proxy: who may send as whom, and which sessions count as fails. */
module Proxy {
  import opened Wrappers
  import opened Bytes
  import opened MailObject
  import opened Responses
  import opened Commands
  import opened Protocol
  import opened History
  import opened Ban

  datatype ProxyState = ProxyState(username: Option<string>, productive: bool)

  const NEW_PROXY := ProxyState(None, false)

  /** The sender check of on_mail. It checks nothing while no username is known. */
  predicate PassesCheck(s: ProxyState, sender: string) {
    s.username.Some? ==> s.username.value == sender
  }

  /** What a call, answered as recorded, does to the state of the handler. */
  function React(s: ProxyState, e: Event): ProxyState {
    match e
    case Called(OnLogin(username, _), Accept) => s.(username := Some(username))
    case Called(OnLogin(_, _), Refuse(_)) => ProxyState(None, false)
    case Called(OnMail(mail), _) => if PassesCheck(s, mail.from) then s.(productive := true) else s
    case Called(OnReset, _) => s.(username := None)
    case _ => s
  }

  /** The state of the handler after the first `n` events of a session. */
  function Replay(log: seq<Event>, n: nat): ProxyState
    requires n <= |log|
  {
    if n == 0 then NEW_PROXY else React(Replay(log, n - 1), log[n - 1])
  }

  /** The mail at position `i` is passed on to the mail service. */
  predicate Sends(log: seq<Event>, i: nat) {
    i < |log| && IsMail(log[i]) && PassesCheck(Replay(log, i), log[i].call.mail.from)
  }

  class ProxyHandler {
    const verify: (string, string) -> bool
    const fail2ban: Fail2Ban
    var username: Option<string>
    var productive: bool

    constructor (verify: (string, string) -> bool, fail2ban: Fail2Ban)
      ensures this.verify == verify && this.fail2ban == fail2ban && State() == NEW_PROXY
    {
      this.verify, this.fail2ban := verify, fail2ban;
      username, productive := None, false;
    }

    function State(): ProxyState
      reads this
    {
      ProxyState(username, productive)
    }

    /** One step under the lock. The clock may move on between its two readings. */
    method OnConnect(peer: Peer, pushAt: Instant, verdictAt: Instant) returns (accepted: bool)
      modifies this`productive, fail2ban
      ensures State() == old(State()).(productive := false)
      ensures fail2ban.peers
           == Evicted(Pushed(old(fail2ban.peers), peer, pushAt), verdictAt, fail2ban.limits.maxAge)
      ensures accepted <==> VerdictOn(fail2ban.limits, fail2ban.peers, peer) == Fine
    {
      productive := false;
      fail2ban.PushConnection(peer, pushAt);
      var verdict := fail2ban.GetVerdict(peer, verdictAt);
      accepted := verdict == Fine;
    }

    /** One step under the lock. */
    method OnDisconnect(peer: Peer, now: Instant)
      modifies fail2ban
      ensures fail2ban.peers
           == Popped(if productive then old(fail2ban.peers) else Failed(old(fail2ban.peers), peer, now), peer)
    {
      if !productive {
        fail2ban.PushFail(peer, now);
      }
      fail2ban.PopConnection(peer);
    }

    method OnLogin(username: string, password: string) returns (answer: Answer)
      modifies this
      ensures answer.Accept? <==> verify(username, password)
      ensures State() == React(old(State()), Called(Call.OnLogin(username, password), answer))
    {
      if verify(username, password) {
        this.username := Some(username);
        answer := Accept;
      } else {
        this.username, productive := None, false;
        answer := Refuse("");
      }
    }

    /** `service` is what the mail service answers, if it is asked. */
    method OnMail(mail: Letter, service: Answer) returns (answer: Answer)
      modifies this
      ensures answer == if PassesCheck(old(State()), mail.from) then service else SENDER_MISMATCH
      ensures State() == React(old(State()), Called(Call.OnMail(mail), answer))
    {
      if username.Some? && username.value != mail.from {
        return SENDER_MISMATCH;
      }
      productive := true;
      answer := service;
    }

    method OnReset()
      modifies this
      ensures State() == React(old(State()), Called(Call.OnReset, Accept))
    {
      username := None;
    }
  }

  const SENDER_MISMATCH := Refuse("Sender address must match username!")

  /** The answers recorded in the log are those that the proxy's handler gives. */
  ghost predicate Proxied(verify: (string, string) -> bool, log: seq<Event>) {
    forall i :: 0 <= i < |log| ==> AnsweredByProxy(verify, log, i)
  }

  ghost predicate AnsweredByProxy(verify: (string, string) -> bool, log: seq<Event>, i: nat)
    requires i < |log|
  {
    match log[i]
    case Called(OnLogin(u, p), answer) => answer.Accept? <==> verify(u, p)
    case Called(OnMail(mail), answer) => PassesCheck(Replay(log, i), mail.from) || answer == SENDER_MISMATCH
    case Called(_, answer) => answer == Accept
    case _ => true
  }

  // ---- Sender binding ---------------------------------------------------------------------

  lemma {:induction false} ReplayFrame(log: seq<Event>, next: seq<Event>, n: nat)
    requires n <= |log| && log <= next
    ensures Replay(next, n) == Replay(log, n)
  {
    if n == 0 {
    } else {
      ReplayFrame(log, next, n - 1);
    }
  }

  /** The handler knows the name of the latest login, if neither a RSET nor a login followed. */
  lemma {:induction false} KnowsLogin(log: seq<Event>, login: nat, n: nat)
    requires login < n <= |log| && AcceptedLogin(log[login])
    requires forall k :: login < k < n ==> !IsLogin(log[k]) && !IsCut(log[k])
    ensures Replay(log, n).username == Some(log[login].call.username)
  {
    if n == login + 1 {
    } else {
      KnowsLogin(log, login, n - 1);
    }
  }

  /** A login or a RSET, after which the handler knows another name or none. */
  predicate IsNaming(e: Event) { e.Called? && (e.call.OnLogin? || e.call.OnReset?) }

  /** The handler knows a name exactly if it is that of an accepted login with no login and
      no RSET after it. An upgrade does not matter to the handler. */
  lemma {:induction false} KnowsExactly(log: seq<Event>, n: nat, name: string)
    requires n <= |log|
    ensures Replay(log, n).username == Some(name) <==>
      exists k :: 0 <= k < n && AcceptedLogin(log[k]) && log[k].call.username == name
                  && forall j :: k < j < n ==> !IsNaming(log[j])
  {
    if n == 0 {
    } else {
      KnowsExactly(log, n - 1, name);
      var e := log[n - 1];
      if Replay(log, n).username == Some(name) && !IsNaming(e) {
        var k :| 0 <= k < n - 1 && AcceptedLogin(log[k]) && log[k].call.username == name
                 && forall j :: k < j < n - 1 ==> !IsNaming(log[j]);
        assert forall j :: k < j < n ==> !IsNaming(log[j]);
      }
      if k: nat :| k < n && AcceptedLogin(log[k]) && log[k].call.username == name
                   && forall j :: k < j < n ==> !IsNaming(log[j]) {
        assert k < n - 1 ==> !IsNaming(e);
      }
    }
  }

  /** With authentication, a mail is passed on to the service exactly if its sender is the
      name of the latest login of the session, and that login was verified. This holds
      across RSET, STARTTLS, repeated AUTH and several mails per session. */
  lemma SenderBinding(cfg: Config, verify: (string, string) -> bool, acceptor: bool, input: bytes, n: nat, i: nat)
    returns (login: nat)
    requires cfg.HasAuth() && n <= |Transcript(cfg, Plain(acceptor), input)|
    requires var log := Transcript(cfg, Plain(acceptor), input)[..n];
      Proxied(verify, log) && i < n && IsMail(log[i])
    ensures
      var log := Transcript(cfg, Plain(acceptor), input)[..n];
      && login < i && IsLogin(log[login]) && verify(log[login].call.username, log[login].call.password)
      && (forall k :: login < k < i ==> !IsLogin(log[k]))
      && (Sends(log, i) <==> log[i].call.mail.from == log[login].call.username)
  {
    hide Run;
    hide Recipients;
    hide Body;
    hide MailSince;
    hide DataSince;
    hide Replay;
    var all := Transcript(cfg, Plain(acceptor), input);
    EveryMailIsJustified(cfg, acceptor, input, i);
    var from, m :| Justifies(cfg, all[..i], all[i].call.mail, from, m);
    login := m.login;
    assert forall k :: 0 <= k < i ==> all[..i][k] == all[k] && all[..n][k] == all[k];
    assert forall k :: login < k < i ==> !IsLogin(all[..i][k]) && !IsCut(all[..i][k]);
    assert AnsweredByProxy(verify, all[..n], login);
    KnowsLogin(all[..n], login, i);
  }

  /** The handler's name is that of the latest login of the session, which was accepted. */
  ghost predicate BoundTo(log: seq<Event>, login: nat) {
    && login < |log| && AcceptedLogin(log[login]) && (forall k :: login < k < |log| ==> !IsLogin(log[k]))
    && Replay(log, |log|).username == Some(log[login].call.username)
  }

  lemma ExplainedIsBound(cfg: Config, w: World, from: string, m: Marks)
    requires Explained(cfg, w, from, m) && w.state.isAuthenticated
    ensures BoundTo(w.log, m.login)
  {
    hide MailSince;
    hide DataSince;
    hide Recipients;
    hide Body;
    hide LinkExplained;
    hide Replay;
    KnowsLogin(w.log, m.login, |w.log|);
  }

  /** In every state between two lines, an authenticated session has a handler that knows
      the name of the latest accepted login. */
  lemma AuthenticatedIsBound(cfg: Config, acceptor: bool, input: bytes, turns: nat)
    requires
      var t := Turns(cfg, Start(cfg, Plain(acceptor), input), turns);
      t.status.Live? && t.world.state.isAuthenticated
    ensures exists login :: BoundTo(Turns(cfg, Start(cfg, Plain(acceptor), input), turns).world.log, login)
  {
    hide Turns;
    hide Explained;
    hide BoundTo;
    StartExplained(cfg, acceptor, input);
    var start := Start(cfg, Plain(acceptor), input);
    var from, m := TurnsAreExplained(cfg, start, turns, "", Marks(0, 0, 0, 0, 0));
    ExplainedIsBound(cfg, Turns(cfg, start, turns).world, from, m);
  }

  // ---- Logins in a log ----------------------------------------------------------------------

  /** Logins happen only with authentication, and a refused one is the end of the session. */
  ghost predicate LoginsEnd(cfg: Config, t: Turn, start: nat) {
    forall k :: start <= k < |t.world.log| && IsLogin(t.world.log[k]) ==>
      cfg.HasAuth() && RefusalEnds(t, k)
  }

  ghost predicate RefusalEnds(t: Turn, k: nat)
    requires k < |t.world.log| && IsLogin(t.world.log[k])
  {
    t.world.log[k].answer.Refuse? ==>
      t.status.Broken? && |t.world.log| == k + 2 && t.world.log[k + 1] == Sent(AUTH_FAIL)
  }

  lemma AuthenticateLogins(cfg: Config, w: World, mechanism: AuthMethod, initial: Option<bytes>)
    ensures LoginsEnd(cfg, DoAuthenticate(cfg, w, mechanism, initial), |w.log|)
  {
    HandleAuthTalks(cfg, w, mechanism, initial);
    hide HandleAuth;
  }

  lemma HelloLogins(cfg: Config, w: World, domain: string, extended: bool)
    ensures LoginsEnd(cfg, DoHello(cfg, w, domain, extended), |w.log|)
  {
    SayAllTalks(w.Ask(cfg, OnHello(domain, extended)), Greeting(cfg, w.link, extended));
    hide Greeting;
  }

  lemma ExecuteLogins(cfg: Config, w: World, c: Command)
    ensures LoginsEnd(cfg, Execute(cfg, w, c), |w.log|)
  {
    hide DoAuthenticate;
    hide DoHello;
    hide Topics;
    hide NormalizeAddress;
    match c
    case Hello(domain, extended) => HelloLogins(cfg, w, domain, extended);
    case Authenticate(mechanism, initial) => AuthenticateLogins(cfg, w, mechanism, initial);
    case _ =>
  }

  lemma StepLogins(cfg: Config, w: World)
    ensures LoginsEnd(cfg, Step(cfg, w), |w.log|)
  {
    hide Parse;
    hide Execute;
    match ReadFlat(w.input)
    case Line(line, rest) =>
      var heard := w.Hear(line, rest);
      var t := Process(cfg, heard, line);
      assert t.world.log[..|heard.log|] == heard.log;
      if w.state.phase != Data && Parse(cfg.lossy, line).Success? {
        ExecuteLogins(cfg, heard, Parse(cfg.lossy, line).value);
      }
      forall k | |w.log| <= k < |t.world.log| && IsLogin(t.world.log[k])
        ensures cfg.HasAuth() && RefusalEnds(t, k)
      {
        assert k != |w.log|;
      }
    case _ =>
  }

  lemma {:induction false} RunLogins(cfg: Config, w: World)
    ensures LoginsEnd(cfg, Run(cfg, w), |w.log|)
    decreases if w.link.Plain? then 1 else 0, |w.input|
  {
    hide Step;
    var t, end := Step(cfg, w), Run(cfg, w);
    StepLogins(cfg, w);
    if t.status.Live? {
      RunLogins(cfg, t.world);
      assert end.world.log[..|t.world.log|] == t.world.log;
      forall k | |w.log| <= k < |end.world.log| && IsLogin(end.world.log[k])
        ensures cfg.HasAuth() && RefusalEnds(end, k)
      {
        assert k < |t.world.log| ==> end.world.log[k] == t.world.log[k] && RefusalEnds(t, k);
      }
    }
  }

  /** Without authentication the sender check checks nothing: every mail is passed on,
      whoever it claims to be from. */
  lemma NoAuthSendsAll(cfg: Config, acceptor: bool, input: bytes, i: nat)
    requires !cfg.HasAuth() && i < |Transcript(cfg, Plain(acceptor), input)|
    requires IsMail(Transcript(cfg, Plain(acceptor), input)[i])
    ensures Sends(Transcript(cfg, Plain(acceptor), input), i)
  {
    hide Run;
    RunLogins(cfg, Start(cfg, Plain(acceptor), input));
    NobodyKnown(Transcript(cfg, Plain(acceptor), input), i);
  }

  lemma {:induction false} NobodyKnown(log: seq<Event>, n: nat)
    requires n <= |log| && forall k :: 0 <= k < n ==> !IsLogin(log[k])
    ensures Replay(log, n).username == None
  {
    if n == 0 {
    } else {
      NobodyKnown(log, n - 1);
    }
  }

  // ---- Productive sessions ------------------------------------------------------------------

  /** Some mail was passed on to the service, and no login was refused. */
  ghost predicate Useful(log: seq<Event>) {
    && (exists i :: 0 <= i < |log| && Sends(log, i))
    && (forall j :: 0 <= j < |log| && IsLogin(log[j]) ==> log[j].answer.Accept?)
  }

  lemma {:induction false} ProductiveSoFar(log: seq<Event>, n: nat)
    requires n <= |log|
    requires forall j, k :: 0 <= j < k < |log| && IsLogin(log[j]) && log[j].answer.Refuse? ==> !IsMail(log[k])
    ensures Replay(log, n).productive <==>
      && (exists i :: 0 <= i < n && Sends(log, i))
      && (forall j :: 0 <= j < n && IsLogin(log[j]) ==> log[j].answer.Accept?)
  {
    if n == 0 {
    } else {
      ProductiveSoFar(log, n - 1);
      var e := log[n - 1];
      assert Sends(log, n - 1) <==> IsMail(e) && PassesCheck(Replay(log, n - 1), e.call.mail.from);
    }
  }

  /** A session, however far it got, is productive for the handler exactly if one of its
      mails was passed on and it did not end on a refused login. */
  lemma ProductiveIffUseful(cfg: Config, acceptor: bool, input: bytes, n: nat)
    requires n <= |Transcript(cfg, Plain(acceptor), input)|
    ensures
      var log := Transcript(cfg, Plain(acceptor), input)[..n];
      Replay(log, n).productive <==> Useful(log)
  {
    hide Run;
    hide Replay;
    var all := Transcript(cfg, Plain(acceptor), input);
    RefusalIsLast(cfg, acceptor, input);
    ProductiveSoFar(all[..n], n);
  }

  lemma RefusalIsLast(cfg: Config, acceptor: bool, input: bytes)
    ensures
      var log := Transcript(cfg, Plain(acceptor), input);
      forall j, k :: 0 <= j < k < |log| && IsLogin(log[j]) && log[j].answer.Refuse? ==> !IsMail(log[k])
  {
    hide Run;
    var start := Start(cfg, Plain(acceptor), input);
    var log := Transcript(cfg, Plain(acceptor), input);
    RunLogins(cfg, start);
    assert start.log <= log && start.log[0] == Sent(Banner(cfg.serverName));
    forall j, k | 0 <= j < k < |log| && IsLogin(log[j]) && log[j].answer.Refuse? ensures !IsMail(log[k]) {
      assert k == j + 1;
    }
  }
}
