/** Why a mail was handed over: what the log of a session must contain before it. */
module History {
  import opened Wrappers
  import opened Bytes
  import opened Commands
  import opened MailObject
  import opened Responses
  import opened Protocol

  // ---- Reading a log --------------------------------------------------------------

  predicate IsMail(e: Event) { e.Called? && e.call.OnMail? }

  predicate IsLogin(e: Event) { e.Called? && e.call.OnLogin? }

  /** What ends all earlier greetings and logins: RSET, and the upgrade to TLS. */
  predicate IsCut(e: Event) { e.Upgraded? || (e.Called? && e.call.OnReset?) }

  predicate AcceptedHello(e: Event) { e.Called? && e.call.OnHello? && e.answer.Accept? }

  predicate AcceptedLogin(e: Event) { IsLogin(e) && e.answer.Accept? }

  /** The command on line `k` of the log, if it was answered by `reply` at once. */
  function Answered(cfg: Config, log: seq<Event>, k: nat, reply: Response): Option<Command> {
    if k + 1 < |log| && log[k].Received? && log[k + 1] == Sent(reply) then
      match Parse(cfg.lossy, log[k].line)
      case Success(c) => Some(c)
      case Failure(_) => None
    else None
  }

  /** The recipients of the RCPT commands accepted within log[lo..hi]. */
  function Recipients(cfg: Config, log: seq<Event>, lo: nat, hi: nat): seq<string>
    requires hi <= |log|
    decreases hi
  {
    if hi < lo + 2 then []
    else
      var before := Recipients(cfg, log, lo, hi - 1);
      match Answered(cfg, log, hi - 2, OK)
      case Some(Recipient(to)) => before + [NormalizeAddress(to)]
      case _ => before
  }

  /** The unstuffed lines within log[lo..hi], joined. */
  function Body(log: seq<Event>, lo: nat, hi: nat): bytes
    requires hi <= |log|
    decreases hi
  {
    if hi <= lo then []
    else
      var before, last := Body(log, lo, hi - 1), log[hi - 1];
      if last.Received? then before + Unstuff(last.line) else before
  }

  predicate IsBodyLine(e: Event) { e.Received? && !IsTerminator(e.line) }

  /** Positions in a log that explain the present state of a session. */
  datatype Marks = Marks(tls: nat, hello: nat, login: nat, mail: nat, data: nat)

  ghost predicate GreetedSince(log: seq<Event>, hello: nat) {
    hello < |log| && AcceptedHello(log[hello]) && forall k :: hello < k < |log| ==> !IsCut(log[k])
  }

  /** `login` is the latest login of all, and was accepted after the greeting. */
  ghost predicate LoggedInSince(log: seq<Event>, hello: nat, login: nat) {
    hello < login < |log| && AcceptedLogin(log[login]) && forall k :: login < k < |log| ==> !IsLogin(log[k])
  }

  ghost predicate OnlyUpgrade(log: seq<Event>, tls: nat) {
    tls < |log| && log[tls].Upgraded? && forall k :: 0 <= k < |log| && log[k].Upgraded? ==> k == tls
  }

  /** An accepted MAIL at `mail`, and none after it. */
  ghost predicate MailSince(cfg: Config, log: seq<Event>, mail: nat, from: string) {
    && mail + 1 < |log|
    && Answered(cfg, log, mail, OK) == Some(MailFrom(from))
    && forall k :: mail < k < |log| ==> !AcceptedMail(Answered(cfg, log, k, OK))
  }

  /** An accepted DATA at `data`, and only body lines after it and before `hi`. */
  ghost predicate DataSince(cfg: Config, log: seq<Event>, data: nat, hi: nat)
    requires hi <= |log|
  {
    && data + 2 <= hi
    && Answered(cfg, log, data, DATA_START) == Some(DataStart)
    && forall k :: data + 2 <= k < hi ==> IsBodyLine(log[k])
  }

  /** `past` entitles the session to hand over `mail`: after an accepted greeting, with no
      RSET and no upgrade since, the latest login of the session was accepted (if logins
      are configured; on TLS, if that is required); then came an accepted MAIL, the last
      one, and an accepted DATA, and the mail is exactly what the lines since then say. */
  ghost predicate Justifies(cfg: Config, past: seq<Event>, mail: Letter, from: string, m: Marks) {
    && GreetedSince(past, m.hello)
    && (cfg.HasAuth() ==> LoggedInSince(past, m.hello, m.login) && m.login < m.mail)
    && (cfg.authMode == RequireTls ==> OnlyUpgrade(past, m.tls) && m.tls < m.hello)
    && m.hello < m.mail && m.mail + 2 <= m.data
    && MailSince(cfg, past, m.mail, from)
    && past != [] && DataSince(cfg, past, m.data, |past| - 1)
    && past[|past| - 1].Received? && IsTerminator(past[|past| - 1].line)
    && mail == Letter(NormalizeAddress(from), Recipients(cfg, past, m.mail + 2, m.data),
                      Body(past, m.data + 2, |past| - 1))
    && |mail.data| <= cfg.maxMessageSize
  }

  /** The last line of `past` is the first since DATA that makes the body too long. */
  ghost predicate Overflows(cfg: Config, past: seq<Event>, m: Marks) {
    && past != [] && DataSince(cfg, past, m.data, |past|)
    && |Body(past, m.data + 2, |past| - 1)| <= cfg.maxMessageSize < |Body(past, m.data + 2, |past|)|
  }

  // ---- The invariant ----------------------------------------------------------------

  ghost predicate LinkExplained(w: World, m: Marks) {
    if w.link.Tls? then OnlyUpgrade(w.log, m.tls)
    else forall k :: 0 <= k < |w.log| ==> !w.log[k].Upgraded?
  }

  ghost predicate PhaseExplained(cfg: Config, w: World, from: string, m: Marks) {
    var s := w.state;
    match s.phase
    case Connected => s == NEW_STATE
    case Greeted => s.currentMail == EMPTY_LETTER
    case Envelope =>
      && MailSince(cfg, w.log, m.mail, from) && m.hello < m.mail
      && s.currentMail == Letter(NormalizeAddress(from), Recipients(cfg, w.log, m.mail + 2, |w.log|), [])
    case Data =>
      && MailSince(cfg, w.log, m.mail, from) && m.hello < m.mail
      && DataSince(cfg, w.log, m.data, |w.log|) && m.mail + 2 <= m.data
      && s.currentMail == Letter(NormalizeAddress(from), Recipients(cfg, w.log, m.mail + 2, m.data),
                                 Body(w.log, m.data + 2, |w.log|))
      && |s.currentMail.data| <= cfg.maxMessageSize
  }

  ghost predicate Explained(cfg: Config, w: World, from: string, m: Marks) {
    && LinkExplained(w, m)
    && (!w.state.phase.Connected? ==> GreetedSince(w.log, m.hello))
    && (w.state.isAuthenticated ==>
          && LoggedInSince(w.log, m.hello, m.login)
          && (cfg.authMode == RequireTls ==> w.link.Tls?))
    && (w.state.phase.Envelope? || w.state.phase.Data? ==>
          w.Authorized(cfg) && (cfg.HasAuth() ==> m.login < m.mail))
    && PhaseExplained(cfg, w, from, m)
  }

  // ---- Steps that change nothing but the log ------------------------------------------

  /** Only lines and replies were added, and no complaint about the size of a mail. */
  ghost predicate Talks(log: seq<Event>, next: seq<Event>) {
    log <= next && forall k :: |log| <= k < |next| ==> next[k].Received? || IsPlainReply(next[k])
  }

  predicate IsPlainReply(e: Event) { e.Sent? && e.reply.code != DATA_TOO_LONG.code }

  /** Only lines and replies were added, and no accepted MAIL or RCPT. */
  ghost predicate Quiet(cfg: Config, log: seq<Event>, next: seq<Event>) {
    && Talks(log, next)
    && forall k: nat {:trigger Answered(cfg, next, k, OK)} :: |log| <= k + 1 ==>
         !AcceptedMail(Answered(cfg, next, k, OK)) && !AcceptedRecipient(Answered(cfg, next, k, OK))
  }

  predicate AcceptedMail(c: Option<Command>) { c.Some? && c.value.MailFrom? }

  predicate AcceptedRecipient(c: Option<Command>) { c.Some? && c.value.Recipient? }

  /** Greeting, login and upgrade stay the latest ones while only lines and replies follow. */
  lemma TalkKeeps(w: World, next: World, m: Marks)
    requires Talks(w.log, next.log) && next.link == w.link
    ensures LinkExplained(w, m) ==> LinkExplained(next, m)
    ensures GreetedSince(w.log, m.hello) ==> GreetedSince(next.log, m.hello)
    ensures LoggedInSince(w.log, m.hello, m.login) ==> LoggedInSince(next.log, m.hello, m.login)
  {
    NothingCutKeeps(w, next, m);
  }

  lemma NothingCutKeeps(w: World, next: World, m: Marks)
    requires w.log <= next.log && next.link == w.link
    requires forall k :: |w.log| <= k < |next.log| ==> !IsCut(next.log[k]) && !IsLogin(next.log[k])
    ensures LinkExplained(w, m) ==> LinkExplained(next, m)
    ensures GreetedSince(w.log, m.hello) ==> GreetedSince(next.log, m.hello)
    ensures LoggedInSince(w.log, m.hello, m.login) ==> LoggedInSince(next.log, m.hello, m.login)
  {}

  lemma {:induction false} RecipientsFrame(cfg: Config, log: seq<Event>, next: seq<Event>, lo: nat, hi: nat)
    requires log <= next && hi <= |log|
    ensures Recipients(cfg, next, lo, hi) == Recipients(cfg, log, lo, hi)
    decreases hi
  {
    hide Parse;
    if hi < lo + 2 {
    } else {
      RecipientsFrame(cfg, log, next, lo, hi - 1);
    }
  }

  lemma {:induction false} BodyFrame(log: seq<Event>, next: seq<Event>, lo: nat, hi: nat)
    requires log <= next && hi <= |log|
    ensures Body(next, lo, hi) == Body(log, lo, hi)
    decreases hi
  {
    if hi <= lo {
    } else {
      BodyFrame(log, next, lo, hi - 1);
    }
  }

  lemma {:induction false} QuietRecipients(cfg: Config, log: seq<Event>, next: seq<Event>, lo: nat, hi: nat)
    requires Quiet(cfg, log, next) && |log| <= hi <= |next|
    ensures Recipients(cfg, next, lo, hi) == Recipients(cfg, log, lo, |log|)
    decreases hi
  {
    hide Answered;
    if hi == |log| {
      RecipientsFrame(cfg, log, next, lo, hi);
    } else {
      QuietRecipients(cfg, log, next, lo, hi - 1);
    }
  }

  lemma QuietMail(cfg: Config, log: seq<Event>, next: seq<Event>, mail: nat, from: string)
    requires Quiet(cfg, log, next) && MailSince(cfg, log, mail, from)
    ensures MailSince(cfg, next, mail, from)
  {
    hide Parse;
    forall k {:trigger Answered(cfg, next, k, OK)} | mail < k < |next|
      ensures !AcceptedMail(Answered(cfg, next, k, OK))
    {
      assert k + 1 < |log| ==> Answered(cfg, next, k, OK) == Answered(cfg, log, k, OK);
    }
  }

  lemma QuietStep(cfg: Config, w: World, next: World, from: string, m: Marks)
    requires Explained(cfg, w, from, m) && w.state.phase != Data
    requires next.state == w.state && next.link == w.link && Quiet(cfg, w.log, next.log)
    ensures Explained(cfg, next, from, m)
  {
    hide Recipients;
    hide NormalizeAddress;
    hide Answered;
    TalkKeeps(w, next, m);
    if w.state.phase == Envelope {
      QuietMail(cfg, w.log, next.log, m.mail, from);
      QuietRecipients(cfg, w.log, next.log, m.mail + 2, |next.log|);
    }
  }

  /** The line that is about to be processed has been heard. */
  ghost predicate Heard(w: World, heard: World, line: bytes) {
    heard == w.Hear(line, heard.input)
  }

  lemma RefusalIsQuiet(cfg: Config, w: World, heard: World, line: bytes, r: Response)
    requires Heard(w, heard, line) && r != OK && r.code != DATA_TOO_LONG.code
    ensures Quiet(cfg, w.log, heard.Say(r).log)
  {
    hide Parse;
  }

  lemma RefusalStep(cfg: Config, w: World, heard: World, line: bytes, r: Response, from: string, m: Marks)
    requires Explained(cfg, w, from, m) && Heard(w, heard, line) && w.state.phase != Data
    requires r != OK && r.code != DATA_TOO_LONG.code
    ensures Explained(cfg, heard.Say(r), from, m)
  {
    hide Explained;
    hide Quiet;
    RefusalIsQuiet(cfg, w, heard, line, r);
    QuietStep(cfg, w, heard.Say(r), from, m);
  }

  lemma TalkStep(cfg: Config, w: World, next: World, from: string, m: Marks)
    requires Explained(cfg, w, from, m) && (w.state.phase.Connected? || w.state.phase.Greeted?)
    requires next.state == w.state && next.link == w.link && Talks(w.log, next.log)
    ensures Explained(cfg, next, from, m)
  {}

  lemma {:induction false} SayAllTalks(w: World, rs: seq<Response>)
    requires forall i :: 0 <= i < |rs| ==> rs[i].code == 250
    ensures Talks(w.log, w.SayAll(rs).log)
    decreases rs
  {
    if rs == [] {
    } else {
      SayAllTalks(w.Say(rs[0]), rs[1..]);
    }
  }

  lemma PromptTalks(w: World, prompt: Response)
    requires prompt.code == 334
    ensures Talks(w.log, Prompt(w, prompt).world.log)
  {}

  lemma AskPasswordTalks(cfg: Config, w: World, username: bytes)
    ensures Talks(w.log, AskPassword(cfg, w, username).world.log)
  {
    PromptTalks(w, AUTH_CHALLENGE_LOGIN_PASSWORD);
    hide Prompt;
    hide DecodeBase64;
  }

  lemma HandleAuthTalks(cfg: Config, w: World, mechanism: AuthMethod, initial: Option<bytes>)
    ensures Talks(w.log, HandleAuth(cfg, w, mechanism, initial).world.log)
  {
    hide AskPassword;
    hide Prompt;
    hide PlainCredentials;
    match (mechanism, initial)
    case (AuthPlain, Some(_)) =>
    case (AuthPlain, None) => PromptTalks(w, AUTH_CHALLENGE_PLAIN);
    case (AuthLogin, Some(username)) => AskPasswordTalks(cfg, w, username);
    case (AuthLogin, None) =>
      var p := Prompt(w, AUTH_CHALLENGE_LOGIN_USERNAME);
      PromptTalks(w, AUTH_CHALLENGE_LOGIN_USERNAME);
      if p.Reply? {
        AskPasswordTalks(cfg, p.world, p.line);
      }
  }

  // ---- Steps that change the state ----------------------------------------------------

  lemma HelloStep(cfg: Config, w: World, heard: World, line: bytes, c: Command, from: string, m: Marks)
    returns (n: Marks)
    requires Explained(cfg, w, from, m) && Heard(w, heard, line) && c.Hello?
    requires DoHello(cfg, heard, c.domain, c.extended).status.Live?
    requires Parse(cfg.lossy, line) == Success(c) && w.state.phase != Data
    ensures Explained(cfg, DoHello(cfg, heard, c.domain, c.extended).world, from, n)
  {
    hide Parse;
    var next := DoHello(cfg, heard, c.domain, c.extended).world;
    if w.state.phase == Connected {
      n := m.(hello := |heard.log|);
      SayAllTalks(heard.Ask(cfg, OnHello(c.domain, c.extended)), Greeting(cfg, w.link, c.extended));
    } else {
      n := m;
      RefusalStep(cfg, w, heard, line, BAD_SEQUENCE, from, m);
    }
  }

  lemma LoginStep(cfg: Config, w: World, username: string, password: string, from: string, m: Marks)
    returns (n: Marks)
    requires Explained(cfg, w, from, m) && w.state.phase == Greeted
    requires cfg.authMode == RequireTls ==> w.link.Tls?
    requires Login(cfg, w, username, password).status.Live?
    ensures Explained(cfg, Login(cfg, w, username, password).world, from, n)
  {
    n := m.(login := |w.log|);
  }

  lemma AuthenticateStep(cfg: Config, w: World, heard: World, line: bytes, c: Command, from: string, m: Marks)
    returns (n: Marks)
    requires Explained(cfg, w, from, m) && Heard(w, heard, line) && c.Authenticate?
    requires DoAuthenticate(cfg, heard, c.mechanism, c.initial).status.Live?
    requires Parse(cfg.lossy, line) == Success(c) && w.state.phase != Data
    ensures Explained(cfg, DoAuthenticate(cfg, heard, c.mechanism, c.initial).world, from, n)
  {
    hide Parse;
    n := m;
    match AuthRefusal(cfg, heard) {
      case Some(r) =>
        RefusalStep(cfg, w, heard, line, r, from, m);
      case None =>
        var t := HandleAuth(cfg, heard, c.mechanism, c.initial);
        HandleAuthTalks(cfg, heard, c.mechanism, c.initial);
        TalkStep(cfg, w, t.world, from, m);
        match t.result
        case Abort =>
        case Malformed(err) => TalkStep(cfg, t.world, t.world.Say(SyntaxError(Some(err))), from, m);
        case Credentials(username, password) => n := LoginStep(cfg, t.world, username, password, from, m);
    }
  }

  lemma StartTlsStep(cfg: Config, w: World, heard: World, line: bytes, c: Command, from: string, m: Marks)
    returns (n: Marks)
    requires Explained(cfg, w, from, m) && Heard(w, heard, line) && c.StartTls?
    requires DoStartTls(cfg, heard).status.Live?
    requires Parse(cfg.lossy, line) == Success(c) && w.state.phase != Data
    ensures Explained(cfg, DoStartTls(cfg, heard).world, from, n)
  {
    hide Parse;
    n := m;
    if !w.link.SupportsTls() {
      var r := SyntaxError(Some("TLS not supported"));
      RefusalStep(cfg, w, heard, line, r, from, m);
    } else if w.state.phase != Greeted {
      RefusalStep(cfg, w, heard, line, BAD_SEQUENCE, from, m);
    } else {
      n := m.(tls := |heard.log| + 1);
    }
  }

  lemma MailStep(cfg: Config, w: World, heard: World, line: bytes, c: Command, from: string, m: Marks)
    returns (newFrom: string, n: Marks)
    requires Explained(cfg, w, from, m) && Heard(w, heard, line) && c.MailFrom?
    requires Parse(cfg.lossy, line) == Success(c) && w.state.phase != Data
    ensures Explained(cfg, DoMail(cfg, heard, c.from).world, newFrom, n)
  {
    hide Parse;
    match Refusal(cfg, heard, Greeted)
    case Some(r) =>
      newFrom, n := from, m;
      RefusalStep(cfg, w, heard, line, r, from, m);
    case None =>
      newFrom, n := c.from, m.(mail := |w.log|);
      TalkKeeps(w, DoMail(cfg, heard, c.from).world, n);
  }

  /** A line other than MAIL, answered at once, leaves the latest MAIL the latest. */
  lemma AppendKeepsMail(cfg: Config, w: World, next: World, line: bytes, r: Response, mail: nat, from: string)
    requires MailSince(cfg, w.log, mail, from) && next.log == w.log + [Received(line)] + [Sent(r)]
    requires Parse(cfg.lossy, line).Success? && !Parse(cfg.lossy, line).value.MailFrom?
    ensures MailSince(cfg, next.log, mail, from)
  {
    hide Parse;
    forall k | mail < k < |next.log| ensures !AcceptedMail(Answered(cfg, next.log, k, OK)) {
      assert k + 1 < |w.log| ==> Answered(cfg, next.log, k, OK) == Answered(cfg, w.log, k, OK);
    }
  }

  /** The recipients after a line and its reply: one more if it was an accepted RCPT. */
  lemma AppendRecipient(cfg: Config, w: World, next: World, line: bytes, to: string, lo: nat)
    requires lo <= |w.log| && next.log == w.log + [Received(line)] + [Sent(OK)]
    requires Parse(cfg.lossy, line) == Success(Recipient(to))
    ensures Recipients(cfg, next.log, lo, |next.log|)
         == Recipients(cfg, w.log, lo, |w.log|) + [NormalizeAddress(to)]
  {
    hide Parse;
    RecipientsFrame(cfg, w.log, next.log, lo, |w.log|);
  }

  lemma AcceptedRecipientStep(cfg: Config, w: World, heard: World, line: bytes, to: string, from: string, m: Marks)
    requires Explained(cfg, w, from, m) && Heard(w, heard, line) && Refusal(cfg, heard, Envelope) == None
    requires Parse(cfg.lossy, line) == Success(Recipient(to))
    ensures Explained(cfg, DoRecipient(cfg, heard, to).world, from, m)
  {
    hide Parse;
    hide Answered;
    hide Recipients;
    hide NormalizeAddress;
    var next := DoRecipient(cfg, heard, to).world;
    TalkKeeps(w, next, m);
    AppendRecipient(cfg, w, next, line, to, m.mail + 2);
    AppendKeepsMail(cfg, w, next, line, OK, m.mail, from);
  }

  lemma RecipientStep(cfg: Config, w: World, heard: World, line: bytes, c: Command, from: string, m: Marks)
    requires Explained(cfg, w, from, m) && Heard(w, heard, line) && c.Recipient?
    requires Parse(cfg.lossy, line) == Success(c) && w.state.phase != Data
    ensures Explained(cfg, DoRecipient(cfg, heard, c.to).world, from, m)
  {
    hide Parse;
    match Refusal(cfg, heard, Envelope)
    case Some(r) =>
      RefusalStep(cfg, w, heard, line, r, from, m);
    case None => AcceptedRecipientStep(cfg, w, heard, line, c.to, from, m);
  }

  lemma AcceptedDataStep(cfg: Config, w: World, heard: World, line: bytes, from: string, m: Marks)
    returns (n: Marks)
    requires Explained(cfg, w, from, m) && Heard(w, heard, line) && Refusal(cfg, heard, Envelope) == None
    requires Parse(cfg.lossy, line) == Success(DataStart)
    ensures Explained(cfg, DoData(cfg, heard).world, from, n)
  {
    hide Parse;
    hide Recipients;
    hide MailSince;
    hide NormalizeAddress;
    assert m.mail + 1 < |w.log| by { MailIsBefore(cfg, w, from, m); }
    n := m.(data := |w.log|);
    var next := DoData(cfg, heard).world;
    TalkKeeps(w, next, m);
    RecipientsFrame(cfg, w.log, next.log, m.mail + 2, n.data);
    AppendKeepsMail(cfg, w, next, line, DATA_START, m.mail, from);
  }

  lemma MailIsBefore(cfg: Config, w: World, from: string, m: Marks)
    requires MailSince(cfg, w.log, m.mail, from)
    ensures m.mail + 1 < |w.log|
  {}

  lemma DataStep(cfg: Config, w: World, heard: World, line: bytes, c: Command, from: string, m: Marks)
    returns (n: Marks)
    requires Explained(cfg, w, from, m) && Heard(w, heard, line) && c.DataStart?
    requires Parse(cfg.lossy, line) == Success(c) && w.state.phase != Data
    ensures Explained(cfg, DoData(cfg, heard).world, from, n)
  {
    hide Parse;
    hide Explained;
    match Refusal(cfg, heard, Envelope)
    case Some(r) =>
      n := m;
      RefusalStep(cfg, w, heard, line, r, from, m);
    case None => n := AcceptedDataStep(cfg, w, heard, line, from, m);
  }

  lemma HelpStep(cfg: Config, w: World, heard: World, line: bytes, from: string, m: Marks)
    requires Explained(cfg, w, from, m) && Heard(w, heard, line) && w.state.phase != Data
    ensures Explained(cfg, DoHelp(cfg, heard).world, from, m)
  {
    hide Parse;
    QuietStep(cfg, w, DoHelp(cfg, heard).world, from, m);
  }

  lemma NoOpStep(cfg: Config, w: World, heard: World, line: bytes, from: string, m: Marks)
    requires Explained(cfg, w, from, m) && Heard(w, heard, line) && w.state.phase != Data
    requires Parse(cfg.lossy, line) == Success(NoOp)
    ensures Explained(cfg, heard.Say(OK), from, m)
  {
    hide Parse;
    QuietStep(cfg, w, heard.Say(OK), from, m);
  }

  lemma ResetStep(cfg: Config, w: World, heard: World, line: bytes, from: string, m: Marks)
    requires Explained(cfg, w, from, m) && Heard(w, heard, line)
    ensures Explained(cfg, DoReset(cfg, heard).world, from, m)
  {}

  lemma ExecuteStep(cfg: Config, w: World, heard: World, line: bytes, c: Command, from: string, m: Marks)
    returns (newFrom: string, n: Marks)
    requires Explained(cfg, w, from, m) && Heard(w, heard, line)
    requires Execute(cfg, heard, c).status.Live?
    requires Parse(cfg.lossy, line) == Success(c) && w.state.phase != Data
    ensures Explained(cfg, Execute(cfg, heard, c).world, newFrom, n)
  {
    hide Parse;
    hide Explained;
    newFrom, n := from, m;
    match c
    case Hello(_, _) => n := HelloStep(cfg, w, heard, line, c, from, m);
    case Help =>
      HelpStep(cfg, w, heard, line, from, m);
    case StartTls => n := StartTlsStep(cfg, w, heard, line, c, from, m);
    case Authenticate(_, _) => n := AuthenticateStep(cfg, w, heard, line, c, from, m);
    case MailFrom(_) => newFrom, n := MailStep(cfg, w, heard, line, c, from, m);
    case Recipient(_) => RecipientStep(cfg, w, heard, line, c, from, m);
    case DataStart => n := DataStep(cfg, w, heard, line, c, from, m);
    case Reset => ResetStep(cfg, w, heard, line, from, m);
    case NoOp => NoOpStep(cfg, w, heard, line, from, m);
    case Quit =>
  }

  // ---- Message data -------------------------------------------------------------------

  /** A line in the data phase, not yet answered, leaves everything before it as it was. */
  lemma HearInData(cfg: Config, w: World, heard: World, line: bytes, from: string, m: Marks)
    requires Explained(cfg, w, from, m) && Heard(w, heard, line) && w.state.phase == Data
    ensures MailSince(cfg, heard.log, m.mail, from)
    ensures DataSince(cfg, heard.log, m.data, |w.log|)
    ensures Recipients(cfg, heard.log, m.mail + 2, m.data) == Recipients(cfg, w.log, m.mail + 2, m.data)
    ensures Body(heard.log, m.data + 2, |w.log|) == Body(w.log, m.data + 2, |w.log|)
    ensures Body(heard.log, m.data + 2, |heard.log|) == Body(w.log, m.data + 2, |w.log|) + Unstuff(line)
  {
    hide Parse;
    hide Unstuff;
    hide NormalizeAddress;
    QuietMail(cfg, w.log, heard.log, m.mail, from);
    RecipientsFrame(cfg, w.log, heard.log, m.mail + 2, m.data);
    BodyFrame(w.log, heard.log, m.data + 2, |w.log|);
  }

  lemma CaptureStep(cfg: Config, w: World, heard: World, line: bytes, from: string, m: Marks)
    requires Explained(cfg, w, from, m) && Heard(w, heard, line)
    requires w.state.phase == Data && !IsTerminator(line) && Capture(cfg, heard, line).status.Live?
    ensures Explained(cfg, Capture(cfg, heard, line).world, from, m)
  {
    hide Answered;
    hide IsTerminator;
    hide Recipients;
    hide Body;
    hide Unstuff;
    hide MailSince;
    TalkKeeps(w, heard, m);
    HearInData(cfg, w, heard, line, from, m);
  }

  /** The terminator line completes the justification of the mail that is then delivered. */
  lemma TerminatorJustifies(cfg: Config, w: World, heard: World, line: bytes, from: string, m: Marks)
    requires Explained(cfg, w, from, m) && Heard(w, heard, line)
    requires w.state.phase == Data && IsTerminator(line)
    ensures Justifies(cfg, heard.log, w.state.currentMail, from, m)
  {
    hide Answered;
    hide IsTerminator;
    hide Recipients;
    hide Body;
    hide Unstuff;
    hide MailSince;
    TalkKeeps(w, heard, m);
    HearInData(cfg, w, heard, line, from, m);
  }

  lemma DeliverStep(cfg: Config, w: World, heard: World, line: bytes, from: string, m: Marks)
    requires Explained(cfg, w, from, m) && Heard(w, heard, line) && w.state.phase == Data
    ensures Explained(cfg, Deliver(cfg, heard).world, from, m)
  {
    hide Answered;
    hide Recipients;
    hide Body;
    hide MailSince;
    hide DataSince;
    NothingCutKeeps(w, Deliver(cfg, heard).world, m);
  }

  /** Every live turn leaves the state explained by the log. */
  lemma StepExplained(cfg: Config, w: World, from: string, m: Marks)
    returns (newFrom: string, n: Marks)
    requires Explained(cfg, w, from, m) && Step(cfg, w).status.Live?
    ensures Explained(cfg, Step(cfg, w).world, newFrom, n)
  {
    hide Parse;
    hide Explained;
    newFrom, n := from, m;
    var Line(line, rest) := ReadFlat(w.input);
    var heard := w.Hear(line, rest);
    if w.state.phase == Data {
      if IsTerminator(line) {
        DeliverStep(cfg, w, heard, line, from, m);
      } else {
        CaptureStep(cfg, w, heard, line, from, m);
      }
    } else {
      match Parse(cfg.lossy, line)
      case Success(c) => newFrom, n := ExecuteStep(cfg, w, heard, line, c, from, m);
      case Failure(err) =>
        var r := SyntaxError(Some(err));
        RefusalStep(cfg, w, heard, line, r, from, m);
    }
  }

  // ---- Whole runs -----------------------------------------------------------------------

  /** The events that need a reason: all handler calls, and the complaint about size. */
  predicate IsOutcome(e: Event) { e.Called? || e == Sent(DATA_TOO_LONG) }

  ghost predicate NoOutcome(log: seq<Event>, next: seq<Event>) {
    forall k :: |log| <= k < |next| ==> !IsOutcome(next[k])
  }

  /** Other commands make no call, and do not complain about the size of a mail. */
  lemma ExecuteIsNoOutcome(cfg: Config, w: World, c: Command)
    requires !c.Authenticate? && !c.Hello? && !c.Reset?
    ensures NoOutcome(w.log, Execute(cfg, w, c).world.log)
  {
    hide Topics;
    hide NormalizeAddress;
    hide DoAuthenticate;
    hide DoHello;
  }

  /** From position `start` of the log on, each handler call is justified by the log before
      it, and each complaint about size by a body that has just become too long. */
  ghost predicate OutcomesJustified(cfg: Config, log: seq<Event>, start: nat) {
    forall i :: start <= i < |log| && IsOutcome(log[i]) ==> OutcomeJustified(cfg, log[..i], log[i])
  }

  ghost predicate OutcomeJustified(cfg: Config, past: seq<Event>, e: Event) {
    if IsMail(e) then exists from, m :: Justifies(cfg, past, e.call.mail, from, m)
    else if IsLogin(e) then exists m :: AllowsLogin(cfg, past, m)
    else if e.Called? then CallsFor(cfg, past, e.call)
    else exists m :: Overflows(cfg, past, m)
  }

  /** The last line is the HELO, EHLO or RSET that is passed on; RSET was answered by 250. */
  ghost predicate CallsFor(cfg: Config, past: seq<Event>, call: Call) {
    var n := |past|;
    match call
    case OnHello(domain, extended) =>
      n > 0 && past[n - 1].Received? && Parse(cfg.lossy, past[n - 1].line) == Success(Hello(domain, extended))
    case OnReset =>
      && n > 1 && past[n - 2].Received? && Parse(cfg.lossy, past[n - 2].line) == Success(Reset)
      && past[n - 1].Sent? && past[n - 1].reply.code == 250
    case _ => true
  }

  lemma HelloOutcomes(cfg: Config, w: World, heard: World, line: bytes, c: Command)
    requires Heard(w, heard, line) && c.Hello? && Parse(cfg.lossy, line) == Success(c)
    ensures OutcomesJustified(cfg, DoHello(cfg, heard, c.domain, c.extended).world.log, |heard.log|)
  {
    hide Parse;
    hide Features;
    var asked := heard.Ask(cfg, OnHello(c.domain, c.extended));
    SayAllTalks(asked, Greeting(cfg, heard.link, c.extended));
    var log := DoHello(cfg, heard, c.domain, c.extended).world.log;
    assert log[..|heard.log|] == heard.log;
  }

  lemma ResetOutcomes(cfg: Config, w: World, heard: World, line: bytes)
    requires Heard(w, heard, line) && Parse(cfg.lossy, line) == Success(Reset)
    ensures OutcomesJustified(cfg, DoReset(cfg, heard).world.log, |heard.log|)
  {
    hide Parse;
    var said := heard.log + [Sent(RESET)];
    var log := DoReset(cfg, heard).world.log;
    assert log[..|said|] == said;
  }

  /** `past` entitles the session to a login: authentication is configured, a greeting was
      accepted with no RSET and no upgrade since, and if TLS is required, the only upgrade
      came before that greeting. */
  ghost predicate AllowsLogin(cfg: Config, past: seq<Event>, m: Marks) {
    && cfg.HasAuth() && GreetedSince(past, m.hello)
    && (cfg.authMode == RequireTls ==> OnlyUpgrade(past, m.tls) && m.tls < m.hello)
  }

  lemma ExplainedAllowsLogin(cfg: Config, w: World, from: string, m: Marks)
    requires Explained(cfg, w, from, m) && AuthRefusal(cfg, w).None?
    ensures AllowsLogin(cfg, w.log, m)
  {
    hide MailSince;
    hide DataSince;
    hide Recipients;
    hide Body;
    hide LoggedInSince;
  }

  lemma AuthenticateOutcomes(cfg: Config, w: World, heard: World, line: bytes, mechanism: AuthMethod,
                             initial: Option<bytes>, from: string, m: Marks)
    requires Explained(cfg, w, from, m) && Heard(w, heard, line)
    ensures OutcomesJustified(cfg, DoAuthenticate(cfg, heard, mechanism, initial).world.log, |heard.log|)
  {
    hide HandleAuth;
    hide Explained;
    hide AllowsLogin;
    match AuthRefusal(cfg, heard)
    case Some(_) =>
    case None =>
      var t := HandleAuth(cfg, heard, mechanism, initial);
      var log := DoAuthenticate(cfg, heard, mechanism, initial).world.log;
      HandleAuthTalks(cfg, heard, mechanism, initial);
      TalkStep(cfg, w, t.world, from, m);
      ExplainedAllowsLogin(cfg, t.world, from, m);
      assert log[..|t.world.log|] == t.world.log;
  }

  lemma ExecuteOutcomes(cfg: Config, w: World, heard: World, line: bytes, c: Command, from: string, m: Marks)
    requires Explained(cfg, w, from, m) && Heard(w, heard, line) && Parse(cfg.lossy, line) == Success(c)
    ensures OutcomesJustified(cfg, Execute(cfg, heard, c).world.log, |heard.log|)
  {
    hide Explained;
    hide OutcomeJustified;
    hide DoAuthenticate;
    hide DoHello;
    hide DoReset;
    hide Parse;
    if c.Authenticate? {
      AuthenticateOutcomes(cfg, w, heard, line, c.mechanism, c.initial, from, m);
    } else if c.Hello? {
      HelloOutcomes(cfg, w, heard, line, c);
    } else if c.Reset? {
      ResetOutcomes(cfg, w, heard, line);
    } else {
      ExecuteIsNoOutcome(cfg, heard, c);
    }
    hide Execute;
  }

  lemma BodyIsStored(cfg: Config, w: World, from: string, m: Marks)
    requires Explained(cfg, w, from, m) && w.state.phase == Data
    ensures DataSince(cfg, w.log, m.data, |w.log|)
    ensures w.state.currentMail.data == Body(w.log, m.data + 2, |w.log|)
    ensures |w.state.currentMail.data| <= cfg.maxMessageSize
  {
    hide Answered;
    hide Recipients;
    hide Body;
    hide MailSince;
    hide LinkExplained;
    hide GreetedSince;
    hide LoggedInSince;
  }

  lemma OverflowStep(cfg: Config, w: World, heard: World, line: bytes, from: string, m: Marks)
    requires Explained(cfg, w, from, m) && Heard(w, heard, line)
    requires w.state.phase == Data && !IsTerminator(line) && Capture(cfg, heard, line).status.Broken?
    ensures Overflows(cfg, heard.log, m)
  {
    hide Answered;
    hide IsTerminator;
    hide Explained;
    hide Body;
    hide Unstuff;
    BodyIsStored(cfg, w, from, m);
    HearInData(cfg, w, heard, line, from, m);
  }

  lemma StepOutcomes(cfg: Config, w: World, from: string, m: Marks)
    requires Explained(cfg, w, from, m)
    ensures OutcomesJustified(cfg, Step(cfg, w).world.log, |w.log|)
  {
    hide Parse;
    hide Explained;
    hide Justifies;
    hide Overflows;
    hide Execute;
    match ReadFlat(w.input)
    case Line(line, rest) =>
      var heard := w.Hear(line, rest);
      var log := Step(cfg, w).world.log;
      assert heard.log <= log ==> log[..|heard.log|] == heard.log;
      if w.state.phase == Data {
        if IsTerminator(line) {
          TerminatorJustifies(cfg, w, heard, line, from, m);
        } else if Capture(cfg, heard, line).status.Broken? {
          OverflowStep(cfg, w, heard, line, from, m);
        }
      } else {
        match Parse(cfg.lossy, line)
        case Success(c) => ExecuteOutcomes(cfg, w, heard, line, c, from, m);
        case Failure(_) =>
      }
    case _ =>
  }

  lemma {:induction false} RunOutcomes(cfg: Config, w: World, from: string, m: Marks)
    requires Explained(cfg, w, from, m)
    ensures OutcomesJustified(cfg, Run(cfg, w).world.log, |w.log|)
    decreases if w.link.Plain? then 1 else 0, |w.input|
  {
    hide Explained;
    hide OutcomeJustified;
    hide Step;
    var t, log := Step(cfg, w), Run(cfg, w).world.log;
    StepOutcomes(cfg, w, from, m);
    if t.status.Live? {
      var newFrom, n := StepExplained(cfg, w, from, m);
      RunOutcomes(cfg, t.world, newFrom, n);
    }
    forall i | |w.log| <= i < |log| && IsOutcome(log[i]) ensures OutcomeJustified(cfg, log[..i], log[i]) {
      if i < |t.world.log| {
        assert log[..i] == t.world.log[..i];
      }
    }
  }

  lemma StartExplained(cfg: Config, acceptor: bool, input: bytes)
    ensures Explained(cfg, Start(cfg, Plain(acceptor), input), "", Marks(0, 0, 0, 0, 0))
  {
    hide MailSince;
    hide DataSince;
    hide Recipients;
    hide Body;
  }

  /** In the log of every session, and so in every initial part of it, each mail handed
      over is justified. */
  lemma EveryMailIsJustified(cfg: Config, acceptor: bool, input: bytes, i: nat)
    requires i < |Transcript(cfg, Plain(acceptor), input)|
    requires IsMail(Transcript(cfg, Plain(acceptor), input)[i])
    ensures
      var log := Transcript(cfg, Plain(acceptor), input);
      exists from, m :: Justifies(cfg, log[..i], log[i].call.mail, from, m)
  {
    hide Justifies;
    hide Run;
    hide Explained;
    StartExplained(cfg, acceptor, input);
    RunOutcomes(cfg, Start(cfg, Plain(acceptor), input), "", Marks(0, 0, 0, 0, 0));
    var log := Transcript(cfg, Plain(acceptor), input);
    assert OutcomeJustified(cfg, log[..i], log[i]);
  }

  /** Likewise each login that the handler is asked for. */
  lemma EveryLoginIsAllowed(cfg: Config, acceptor: bool, input: bytes, i: nat)
    requires i < |Transcript(cfg, Plain(acceptor), input)|
    requires IsLogin(Transcript(cfg, Plain(acceptor), input)[i])
    ensures exists m :: AllowsLogin(cfg, Transcript(cfg, Plain(acceptor), input)[..i], m)
  {
    hide AllowsLogin;
    hide Run;
    hide Explained;
    var log := Transcript(cfg, Plain(acceptor), input);
    StartExplained(cfg, acceptor, input);
    RunOutcomes(cfg, Start(cfg, Plain(acceptor), input), "", Marks(0, 0, 0, 0, 0));
    assert OutcomeJustified(cfg, log[..i], log[i]);
  }

  /** Likewise each greeting and each RSET that the handler is told of. */
  lemma EveryCallIsAskedFor(cfg: Config, acceptor: bool, input: bytes, i: nat)
    requires i < |Transcript(cfg, Plain(acceptor), input)| && Transcript(cfg, Plain(acceptor), input)[i].Called?
    ensures
      var log := Transcript(cfg, Plain(acceptor), input);
      CallsFor(cfg, log[..i], log[i].call)
  {
    hide CallsFor;
    hide Run;
    hide Explained;
    hide Justifies;
    hide AllowsLogin;
    var log := Transcript(cfg, Plain(acceptor), input);
    StartExplained(cfg, acceptor, input);
    RunOutcomes(cfg, Start(cfg, Plain(acceptor), input), "", Marks(0, 0, 0, 0, 0));
    assert OutcomeJustified(cfg, log[..i], log[i]);
    assert log[i].call.OnMail? || log[i].call.OnLogin? ==> CallsFor(cfg, log[..i], log[i].call) by {
      OthersAreCalledFor(cfg, log[..i], log[i].call);
    }
  }

  lemma OthersAreCalledFor(cfg: Config, past: seq<Event>, call: Call)
    ensures call.OnMail? || call.OnLogin? ==> CallsFor(cfg, past, call)
  {}

  /** The 552 reply is given only at the first line that makes the body too long. */
  lemma EveryOverflowIsJustified(cfg: Config, acceptor: bool, input: bytes, i: nat)
    requires i < |Transcript(cfg, Plain(acceptor), input)|
    requires Transcript(cfg, Plain(acceptor), input)[i] == Sent(DATA_TOO_LONG)
    ensures exists m :: Overflows(cfg, Transcript(cfg, Plain(acceptor), input)[..i], m)
  {
    hide Overflows;
    hide Run;
    hide Explained;
    StartExplained(cfg, acceptor, input);
    RunOutcomes(cfg, Start(cfg, Plain(acceptor), input), "", Marks(0, 0, 0, 0, 0));
    var log := Transcript(cfg, Plain(acceptor), input);
    assert OutcomeJustified(cfg, log[..i], log[i]);
  }

  // ---- The size of a body ---------------------------------------------------------------

  lemma {:induction false} TurnsAreExplained(cfg: Config, w: World, turns: nat, from: string, m: Marks)
    returns (newFrom: string, n: Marks)
    requires Explained(cfg, w, from, m) && Turns(cfg, w, turns).status.Live?
    ensures Explained(cfg, Turns(cfg, w, turns).world, newFrom, n)
    decreases turns
  {
    hide Explained;
    hide Step;
    if turns == 0 {
      newFrom, n := from, m;
    } else {
      newFrom, n := TurnsAreExplained(cfg, w, turns - 1, from, m);
      newFrom, n := StepExplained(cfg, Turns(cfg, w, turns - 1).world, newFrom, n);
    }
  }

  /** A log has at most one DATA with only body lines behind it. */
  lemma OneOpenData(cfg: Config, log: seq<Event>, a: nat, b: nat)
    requires DataSince(cfg, log, a, |log|) && DataSince(cfg, log, b, |log|)
    ensures a == b
  {
    assert log[a + 1].Sent? && log[b + 1].Sent?;
  }

  /** While a body is open, exactly its lines since DATA are stored, within the limit. The
      next line ends the session, with the 552 reply, if and only if it makes the body too
      long. */
  lemma SizeDecides(cfg: Config, acceptor: bool, input: bytes, turns: nat)
    requires
      var t := Turns(cfg, Start(cfg, Plain(acceptor), input), turns);
      t.status.Live? && t.world.state.phase == Data
    ensures
      var w := Turns(cfg, Start(cfg, Plain(acceptor), input), turns).world;
      && |w.state.currentMail.data| <= cfg.maxMessageSize
      && match ReadFlat(w.input)
         case Line(line, rest) =>
           var heard, t := w.Hear(line, rest), Step(cfg, w);
           && (t.status.Broken? <==> !IsTerminator(line) && exists m :: Overflows(cfg, heard.log, m))
           && (t.status.Broken? ==> t.world.log == heard.log + [Sent(DATA_TOO_LONG)])
         case _ => true
  {
    var w := Turns(cfg, Start(cfg, Plain(acceptor), input), turns).world;
    StartExplained(cfg, acceptor, input);
    var from, m := TurnsAreExplained(cfg, Start(cfg, Plain(acceptor), input), turns, "", Marks(0, 0, 0, 0, 0));
    BodyIsStored(cfg, w, from, m);
    hide Turns;
    hide Explained;
    hide Overflows;
    hide Deliver;
    match ReadFlat(w.input)
    case Line(line, rest) =>
      if !IsTerminator(line) {
        CaptureDecides(cfg, w, w.Hear(line, rest), line, from, m);
      }
    case _ =>
  }

  lemma CaptureDecides(cfg: Config, w: World, heard: World, line: bytes, from: string, m: Marks)
    requires Explained(cfg, w, from, m) && Heard(w, heard, line)
    requires w.state.phase == Data && !IsTerminator(line)
    ensures Capture(cfg, heard, line).status.Broken? <==> exists n :: Overflows(cfg, heard.log, n)
  {
    hide IsTerminator;
    hide Explained;
    hide Capture;
    hide DataSince;
    hide Body;
    if Capture(cfg, heard, line).status.Broken? {
      OverflowStep(cfg, w, heard, line, from, m);
    } else if n :| Overflows(cfg, heard.log, n) {
      CaptureFits(cfg, w, heard, line, from, m);
      OneOpenData(cfg, heard.log, m.data, n.data);
    }
  }

  lemma CaptureFits(cfg: Config, w: World, heard: World, line: bytes, from: string, m: Marks)
    requires Explained(cfg, w, from, m) && Heard(w, heard, line)
    requires w.state.phase == Data && !IsTerminator(line) && !Capture(cfg, heard, line).status.Broken?
    ensures DataSince(cfg, heard.log, m.data, |heard.log|)
    ensures |Body(heard.log, m.data + 2, |heard.log|)| <= cfg.maxMessageSize
  {
    hide Answered;
    hide IsTerminator;
    hide Explained;
    hide Body;
    hide Unstuff;
    BodyIsStored(cfg, w, from, m);
    HearInData(cfg, w, heard, line, from, m);
  }
}
