/** Sessions and the proxy's handler together: whatever a client sends, the handler's own
    answers drive the session, so what is proved of such sessions is not about nothing. */
module Product {
  import opened Wrappers
  import opened Bytes
  import opened Commands
  import opened MailObject
  import opened Protocol
  import opened History
  import opened Proxy

  /** What the handler answers to a call in state `s`, if the mail service, once it is
      asked, answers `service`. */
  function ProxyAnswer(verify: (string, string) -> bool, s: ProxyState, call: Call, service: Answer): Answer {
    match call
    case OnLogin(u, p) => if verify(u, p) then Accept else Refuse("")
    case OnMail(mail) => if PassesCheck(s, mail.from) then service else SENDER_MISMATCH
    case _ => Accept
  }

  // ---- The call of a turn -----------------------------------------------------------------

  function CallOf(cfg: Config, w: World, c: Command): Option<Call> {
    match c
    case Hello(domain, extended) => if w.state.phase == Connected then Some(OnHello(domain, extended)) else None
    case Authenticate(mechanism, initial) =>
      if AuthRefusal(cfg, w).Some? then None else LoginCall(cfg, w, mechanism, initial)
    case Reset => Some(OnReset)
    case _ => None
  }

  function LoginCall(cfg: Config, w: World, mechanism: AuthMethod, initial: Option<bytes>): Option<Call> {
    match HandleAuth(cfg, w, mechanism, initial).result
    case Credentials(u, p) => Some(OnLogin(u, p))
    case _ => None
  }

  /** The call that the next turn makes, if it makes one. It does not depend on answers. */
  function NextCall(cfg: Config, w: World): Option<Call> {
    match ReadFlat(w.input)
    case Line(line, rest) =>
      var heard := w.Hear(line, rest);
      if w.state.phase == Data then
        if IsTerminator(line) then Some(OnMail(w.state.currentMail)) else None
      else
        (match Parse(cfg.lossy, line)
         case Success(c) => CallOf(cfg, heard, c)
         case Failure(_) => None)
    case _ => None
  }

  /** From `w` on, `call` is the only call in `log`, with the answer that is next. */
  ghost predicate Calls(cfg: Config, w: World, log: seq<Event>, call: Option<Call>) {
    && w.log <= log
    && forall k :: |w.log| <= k < |log| && log[k].Called? ==>
         && call == Some(log[k].call) && log[k].answer == cfg.answers(w.calls)
         && forall j :: |w.log| <= j < k ==> !log[j].Called?
  }

  lemma HelloCalls(cfg: Config, w: World, domain: string, extended: bool)
    ensures Calls(cfg, w, DoHello(cfg, w, domain, extended).world.log, CallOf(cfg, w, Hello(domain, extended)))
  {
    SayAllTalks(w.Ask(cfg, OnHello(domain, extended)), Greeting(cfg, w.link, extended));
    hide Greeting;
  }

  lemma AuthenticateCalls(cfg: Config, w: World, mechanism: AuthMethod, initial: Option<bytes>)
    ensures Calls(cfg, w, DoAuthenticate(cfg, w, mechanism, initial).world.log,
                  CallOf(cfg, w, Authenticate(mechanism, initial)))
  {
    hide HandleAuth;
    HandleAuthTalks(cfg, w, mechanism, initial);
  }

  lemma ExecuteCalls(cfg: Config, w: World, c: Command)
    ensures Calls(cfg, w, Execute(cfg, w, c).world.log, CallOf(cfg, w, c))
  {
    hide DoHello;
    hide DoAuthenticate;
    hide LoginCall;
    hide Topics;
    hide NormalizeAddress;
    match c
    case Hello(domain, extended) => HelloCalls(cfg, w, domain, extended);
    case Authenticate(mechanism, initial) => AuthenticateCalls(cfg, w, mechanism, initial);
    case _ =>
  }

  lemma StepCalls(cfg: Config, w: World)
    ensures Calls(cfg, w, Step(cfg, w).world.log, NextCall(cfg, w))
  {
    hide Parse;
    hide Execute;
    hide CallOf;
    hide IsTerminator;
    match ReadFlat(w.input)
    case Line(line, rest) =>
      var heard := w.Hear(line, rest);
      if w.state.phase != Data && Parse(cfg.lossy, line).Success? {
        ExecuteCalls(cfg, heard, Parse(cfg.lossy, line).value);
      }
      assert Step(cfg, w).world.log[..|heard.log|] == heard.log;
    case _ =>
  }

  // ---- Only the next answer matters -------------------------------------------------------

  function WithAnswers(cfg: Config, answers: nat -> Answer): Config {
    cfg.(answers := answers)
  }

  /** The next answer is the same, or it is not asked for. */
  ghost predicate SameNext(cfg: Config, a: nat -> Answer, w: World, call: Option<Call>) {
    a(w.calls) == cfg.answers(w.calls) || call.None?
  }

  lemma HelloAnswers(cfg: Config, a: nat -> Answer, w: World, domain: string, extended: bool)
    requires SameNext(cfg, a, w, CallOf(cfg, w, Hello(domain, extended)))
    ensures DoHello(WithAnswers(cfg, a), w, domain, extended) == DoHello(cfg, w, domain, extended)
  {
    SameGreeting(cfg, a, w.link, extended);
    hide Greeting;
  }

  lemma SameGreeting(cfg: Config, a: nat -> Answer, link: Link, extended: bool)
    ensures Greeting(WithAnswers(cfg, a), link, extended) == Greeting(cfg, link, extended)
  {}

  lemma SameHandleAuth(cfg: Config, a: nat -> Answer, w: World, mechanism: AuthMethod, initial: Option<bytes>)
    ensures HandleAuth(WithAnswers(cfg, a), w, mechanism, initial) == HandleAuth(cfg, w, mechanism, initial)
  {
    hide Prompt;
    hide SplitOn;
  }

  lemma AuthenticateAnswers(cfg: Config, a: nat -> Answer, w: World, mechanism: AuthMethod, initial: Option<bytes>)
    requires SameNext(cfg, a, w, CallOf(cfg, w, Authenticate(mechanism, initial)))
    ensures DoAuthenticate(WithAnswers(cfg, a), w, mechanism, initial) == DoAuthenticate(cfg, w, mechanism, initial)
  {
    hide HandleAuth;
    SameHandleAuth(cfg, a, w, mechanism, initial);
  }

  lemma ExecuteAnswers(cfg: Config, a: nat -> Answer, w: World, c: Command)
    requires SameNext(cfg, a, w, CallOf(cfg, w, c))
    ensures Execute(WithAnswers(cfg, a), w, c) == Execute(cfg, w, c)
  {
    hide DoHello;
    hide DoAuthenticate;
    hide NormalizeAddress;
    hide LoginCall;
    match c
    case Hello(domain, extended) => HelloAnswers(cfg, a, w, domain, extended);
    case Authenticate(mechanism, initial) => AuthenticateAnswers(cfg, a, w, mechanism, initial);
    case _ =>
  }

  lemma StepAnswers(cfg: Config, a: nat -> Answer, w: World)
    requires SameNext(cfg, a, w, NextCall(cfg, w))
    ensures Step(WithAnswers(cfg, a), w) == Step(cfg, w)
  {
    hide Parse;
    hide Execute;
    hide CallOf;
    hide IsTerminator;
    match ReadFlat(w.input)
    case Line(line, rest) =>
      if w.state.phase != Data && Parse(cfg.lossy, line).Success? {
        ExecuteAnswers(cfg, a, w.Hear(line, rest), Parse(cfg.lossy, line).value);
      }
    case _ =>
  }

  lemma SameNextCall(cfg: Config, a: nat -> Answer, w: World)
    ensures NextCall(WithAnswers(cfg, a), w) == NextCall(cfg, w)
  {
    hide Parse;
    hide IsTerminator;
    hide HandleAuth;
    match ReadFlat(w.input)
    case Line(line, rest) =>
      if Parse(cfg.lossy, line).Success? && Parse(cfg.lossy, line).value.Authenticate? {
        var c := Parse(cfg.lossy, line).value;
        SameHandleAuth(cfg, a, w.Hear(line, rest), c.mechanism, c.initial);
      }
    case _ =>
  }

  // ---- The handler drives the session -----------------------------------------------------

  /** How many mails were handed over in the first `n` events. */
  function MailsBefore(log: seq<Event>, n: nat): nat
    requires n <= |log|
  {
    if n == 0 then 0 else MailsBefore(log, n - 1) + (if IsMail(log[n - 1]) then 1 else 0)
  }

  /** Every answer in the log is the handler's own, where `service(k)` is what the mail
      service answers, if it is asked, to mail number `k`. */
  ghost predicate Driven(verify: (string, string) -> bool, service: nat -> Answer, log: seq<Event>) {
    forall i :: 0 <= i < |log| && log[i].Called? ==>
      log[i].answer == ProxyAnswer(verify, Replay(log, i), log[i].call, service(MailsBefore(log, i)))
  }

  lemma DrivenIsProxied(verify: (string, string) -> bool, service: nat -> Answer, log: seq<Event>)
    requires Driven(verify, service, log)
    ensures Proxied(verify, log)
  {
    hide Replay;
    hide MailsBefore;
  }

  lemma {:induction false} SameUntilCall(log: seq<Event>, lo: nat, hi: nat)
    requires lo <= hi <= |log| && forall j :: lo <= j < hi ==> !log[j].Called?
    ensures Replay(log, hi) == Replay(log, lo) && MailsBefore(log, hi) == MailsBefore(log, lo)
    decreases hi
  {
    if hi <= lo {
    } else {
      SameUntilCall(log, lo, hi - 1);
    }
  }

  lemma {:induction false} MailsBeforeFrame(log: seq<Event>, next: seq<Event>, n: nat)
    requires n <= |log| && log <= next
    ensures MailsBefore(next, n) == MailsBefore(log, n)
  {
    if n == 0 {
    } else {
      MailsBeforeFrame(log, next, n - 1);
    }
  }

  function NextAnswer(verify: (string, string) -> bool, service: nat -> Answer, w: World, call: Call): Answer {
    ProxyAnswer(verify, Replay(w.log, |w.log|), call, service(MailsBefore(w.log, |w.log|)))
  }

  lemma StepIsDriven(cfg: Config, verify: (string, string) -> bool, service: nat -> Answer, w: World)
    requires Driven(verify, service, w.log)
    requires var call := NextCall(cfg, w);
      call.Some? ==> cfg.answers(w.calls) == NextAnswer(verify, service, w, call.value)
    ensures Driven(verify, service, Step(cfg, w).world.log)
  {
    hide Step;
    hide NextCall;
    hide Replay;
    hide MailsBefore;
    hide ProxyAnswer;
    StepCalls(cfg, w);
    var log := Step(cfg, w).world.log;
    forall i | 0 <= i < |log| && log[i].Called?
      ensures log[i].answer == ProxyAnswer(verify, Replay(log, i), log[i].call, service(MailsBefore(log, i)))
    {
      var seen := if i < |w.log| then i else |w.log|;
      ReplayFrame(w.log, log, seen);
      MailsBeforeFrame(w.log, log, seen);
      SameUntilCall(log, seen, i);
    }
  }

  /** From any such state there are answers with which the rest of the run is driven by the
      handler. */
  lemma {:induction false} DrivenRun(cfg: Config, verify: (string, string) -> bool, service: nat -> Answer, w: World)
    returns (a: nat -> Answer)
    requires Driven(verify, service, w.log)
    ensures forall k: nat :: k < w.calls ==> a(k) == cfg.answers(k)
    ensures Driven(verify, service, Run(WithAnswers(cfg, a), w).world.log)
    decreases if w.link.Plain? then 1 else 0, |w.input|
  {
    hide Step;
    hide NextCall;
    hide Driven;
    hide NextAnswer;
    var call := NextCall(cfg, w);
    var next := if call.Some? then NextAnswer(verify, service, w, call.value) else Accept;
    a := (k: nat) => if k == w.calls then next else cfg.answers(k);
    var driven := WithAnswers(cfg, a);
    SameNextCall(cfg, a, w);
    StepIsDriven(driven, verify, service, w);
    var t := Step(driven, w);
    if t.status.Live? {
      CallsCount(driven, w);
      a := DrivenRun(driven, verify, service, t.world);
      assert WithAnswers(driven, a) == WithAnswers(cfg, a);
      StepAnswers(driven, a, w);
    }
  }

  /** A turn that makes a call, and that the session survives, uses one answer. */
  lemma CallsCount(cfg: Config, w: World)
    requires Step(cfg, w).status.Live?
    ensures Step(cfg, w).world.calls == w.calls + (if NextCall(cfg, w).Some? then 1 else 0)
  {
    hide Parse;
    hide Execute;
    hide CallOf;
    hide IsTerminator;
    match ReadFlat(w.input)
    case Line(line, rest) =>
      if w.state.phase != Data && Parse(cfg.lossy, line).Success? {
        ExecuteCount(cfg, w.Hear(line, rest), Parse(cfg.lossy, line).value);
      }
    case _ =>
  }

  lemma ExecuteCount(cfg: Config, w: World, c: Command)
    requires Execute(cfg, w, c).status.Live?
    ensures Execute(cfg, w, c).world.calls == w.calls + (if CallOf(cfg, w, c).Some? then 1 else 0)
  {
    hide Greeting;
    hide HandleAuth;
    hide Topics;
    hide NormalizeAddress;
  }

  /** Whatever a client sends, however passwords are verified and whatever the mail service
      answers to each mail, there is a session in which every answer is the handler's own. */
  lemma HandlerDrivesSession(cfg: Config, verify: (string, string) -> bool, service: nat -> Answer,
                             acceptor: bool, input: bytes)
    returns (a: nat -> Answer)
    ensures
      var log := Transcript(WithAnswers(cfg, a), Plain(acceptor), input);
      Driven(verify, service, log) && Proxied(verify, log)
  {
    hide Run;
    hide Proxied;
    a := DrivenRun(cfg, verify, service, Start(cfg, Plain(acceptor), input));
    DrivenIsProxied(verify, service, Transcript(WithAnswers(cfg, a), Plain(acceptor), input));
  }
}
