/** What flows through a session: every byte received goes to one line or to the TLS
    layer, and every reply sent can be framed by the client. */
module Conservation {
  import opened Wrappers
  import opened Bytes
  import opened Commands
  import opened MailObject
  import opened Responses
  import opened Protocol
  import opened Replies
  import opened History
  import opened Discipline
  import opened Texts

  /** All lines in a log, joined. */
  function HeardBytes(log: seq<Event>): bytes {
    if log == [] then []
    else
      var before, e := HeardBytes(log[..|log| - 1]), log[|log| - 1];
      if e.Received? then before + e.line else before
  }

  /** Settings and answers without line ends only lead to replies without them. */
  ghost predicate Framed(cfg: Config, log: seq<Event>) {
    PlainTexts(cfg) ==> AllWellFormed(SentIn(log))
  }

  ghost predicate IsFramed(cfg: Config, r: Response) {
    PlainTexts(cfg) ==> WellFormed(r)
  }

  lemma LogSnoc(log: seq<Event>, e: Event)
    ensures HeardBytes(log + [e]) == HeardBytes(log) + (if e.Received? then e.line else [])
    ensures SentIn(log + [e]) == SentIn(log) + (if e.Sent? then [e.reply] else [])
  {
    assert (log + [e])[..|log|] == log;
  }

  /** The bytes that were heard, with those that are still to be read. */
  function AllBytes(w: World): bytes {
    HeardBytes(w.log) + w.input
  }

  /** From `w` to `next` no byte was lost, repeated or reordered, and nothing was said that
      a client could not frame. */
  ghost predicate Flows(cfg: Config, w: World, next: World) {
    AllBytes(next) == AllBytes(w) && (Framed(cfg, w.log) ==> Framed(cfg, next.log))
  }

  lemma SayFlows(cfg: Config, w: World, r: Response)
    requires IsFramed(cfg, r)
    ensures Flows(cfg, w, w.Say(r))
  {
    hide WellFormed;
    hide PlainTexts;
    LogSnoc(w.log, Sent(r));
    assert HeardBytes(w.log) + [] == HeardBytes(w.log);
  }

  lemma AskFlows(cfg: Config, w: World, call: Call)
    ensures Flows(cfg, w, w.Ask(cfg, call))
  {
    hide AllWellFormed;
    hide PlainTexts;
    LogSnoc(w.log, Called(call, cfg.answers(w.calls)));
    assert HeardBytes(w.log) + [] == HeardBytes(w.log) && SentIn(w.log) + [] == SentIn(w.log);
  }

  lemma HearFlows(cfg: Config, w: World, line: bytes, rest: bytes)
    requires w.input == line + rest
    ensures Flows(cfg, w, w.Hear(line, rest))
  {
    hide AllWellFormed;
    hide PlainTexts;
    LogSnoc(w.log, Received(line));
    assert HeardBytes(w.log) + line + rest == HeardBytes(w.log) + (line + rest);
    assert SentIn(w.log) + [] == SentIn(w.log);
  }

  /** The state of the session does not matter to the flow. */
  lemma SameFlow(cfg: Config, w: World, next: World)
    requires next.log == w.log && next.input == w.input
    ensures Flows(cfg, w, next)
  {}

  lemma {:induction false} SayAllFlows(cfg: Config, w: World, rs: seq<Response>)
    requires PlainTexts(cfg) ==> AllWellFormed(rs)
    ensures Flows(cfg, w, w.SayAll(rs))
    decreases rs
  {
    hide WellFormed;
    hide PlainTexts;
    hide Framed;
    hide AllBytes;
    if rs == [] {
    } else {
      assert IsFramed(cfg, rs[0]);
      SayFlows(cfg, w, rs[0]);
      SayAllFlows(cfg, w.Say(rs[0]), rs[1..]);
    }
  }

  lemma PromptFlows(cfg: Config, w: World, prompt: Response)
    requires IsFramed(cfg, prompt)
    ensures Flows(cfg, w, Prompt(w, prompt).world)
  {
    hide IsFramed;
    hide Framed;
    hide AllBytes;
    SayFlows(cfg, w, prompt);
    match ReadFlat(w.input)
    case Line(line, rest) => HearFlows(cfg, w.Say(prompt), line, rest);
    case _ =>
  }

  lemma AskPasswordFlows(cfg: Config, w: World, username: bytes)
    ensures Flows(cfg, w, AskPassword(cfg, w, username).world)
  {
    hide Framed;
    hide AllBytes;
    hide Prompt;
    hide DecodeBase64;
    hide WellFormed;
    Prompts();
    PromptFlows(cfg, w, AUTH_CHALLENGE_LOGIN_PASSWORD);
  }

  lemma HandleAuthFlows(cfg: Config, w: World, mechanism: AuthMethod, initial: Option<bytes>)
    ensures Flows(cfg, w, HandleAuth(cfg, w, mechanism, initial).world)
  {
    hide Framed;
    hide AllBytes;
    hide Prompt;
    hide AskPassword;
    hide PlainCredentials;
    hide WellFormed;
    Prompts();
    match (mechanism, initial)
    case (AuthPlain, Some(_)) =>
    case (AuthPlain, None) => PromptFlows(cfg, w, AUTH_CHALLENGE_PLAIN);
    case (AuthLogin, Some(username)) => AskPasswordFlows(cfg, w, username);
    case (AuthLogin, None) =>
      PromptFlows(cfg, w, AUTH_CHALLENGE_LOGIN_USERNAME);
      var p := Prompt(w, AUTH_CHALLENGE_LOGIN_USERNAME);
      if p.Reply? {
        AskPasswordFlows(cfg, p.world, p.line);
      }
  }

  lemma FinishFlows(cfg: Config, t: AuthTurn)
    requires t.result.Malformed? ==> OneLine(t.result.err)
    ensures Flows(cfg, t.world, FinishAuth(cfg, t).world)
  {
    hide Framed;
    hide AllBytes;
    hide WellFormed;
    hide OneLine;
    LoginReplies();
    match t.result
    case Abort =>
    case Malformed(err) =>
      ErrorIsWellFormed(err);
      SayFlows(cfg, t.world, SyntaxError(Some(err)));
    case Credentials(username, password) =>
      var asked := t.world.Ask(cfg, OnLogin(username, password));
      AskFlows(cfg, t.world, OnLogin(username, password));
      SayFlows(cfg, asked, AUTH_FAIL);
      SayFlows(cfg, asked, AUTH_OK);
      SameFlow(cfg, asked.Say(AUTH_OK), asked.Say(AUTH_OK).(state := t.world.state.(isAuthenticated := true)));
  }

  // ---- Commands ---------------------------------------------------------------------------------

  /** The command goes on with the same link, without an upgrade. */
  ghost predicate Goes(cfg: Config, w: World, next: World) {
    && Flows(cfg, w, next) && next.link == w.link && w.log <= next.log
    && forall k :: |w.log| <= k < |next.log| ==> !next.log[k].Upgraded?
  }

  /** An upgrade: all unread bytes are handed to the TLS layer. */
  ghost predicate HandsOver(cfg: Config, w: World, next: World) {
    && w.link.Plain? && next.link.Tls?
    && next.log == w.Say(START_TLS).log + [Upgraded(w.input)]
    && Flows(cfg, w, w.Say(START_TLS)) && (Framed(cfg, w.log) ==> Framed(cfg, next.log))
  }

  /** After any change of the state, a reply. */
  lemma ReplyGoes(cfg: Config, w: World, state: State, r: Response)
    requires IsFramed(cfg, r)
    ensures Goes(cfg, w, w.(state := state).Say(r)) && Goes(cfg, w, w.Say(r))
  {
    hide IsFramed;
    hide Framed;
    hide AllBytes;
    SameFlow(cfg, w, w.(state := state));
    SayFlows(cfg, w.(state := state), r);
    SayFlows(cfg, w, r);
  }

  lemma GuardedGoes(cfg: Config, w: World, state: State, r: Response, phase: Phase)
    requires IsFramed(cfg, r)
    ensures
      var refusal := Refusal(cfg, w, phase);
      Goes(cfg, w, if refusal.Some? then w.Say(refusal.value) else w.(state := state).Say(r))
  {
    hide WellFormed;
    hide Goes;
    Refusals();
    ReplyGoes(cfg, w, state, r);
    ReplyGoes(cfg, w, state, BAD_SEQUENCE);
    ReplyGoes(cfg, w, state, AUTH_REQUIRED);
  }

  lemma HelloGoes(cfg: Config, w: World, domain: string, extended: bool)
    ensures Goes(cfg, w, DoHello(cfg, w, domain, extended).world)
  {
    hide Framed;
    hide AllBytes;
    hide WellFormed;
    hide Greeting;
    hide PlainTexts;
    if w.state.phase != Connected {
      Refusals();
      SayFlows(cfg, w, BAD_SEQUENCE);
    } else {
      var asked, rs := w.Ask(cfg, OnHello(domain, extended)), Greeting(cfg, w.link, extended);
      AskFlows(cfg, w, OnHello(domain, extended));
      if PlainTexts(cfg) {
        GreetingIsWellFormed(cfg, w.link, extended);
      }
      SayAllFlows(cfg, asked, rs);
      GreetingIsOneReply(cfg, w.link, extended);
      SayAllTalks(asked, rs);
      SameFlow(cfg, asked.SayAll(rs), asked.SayAll(rs).WithPhase(Greeted));
    }
  }

  lemma HelpGoes(cfg: Config, w: World)
    ensures Goes(cfg, w, DoHelp(cfg, w).world)
  {
    hide Framed;
    hide AllBytes;
    hide Topics;
    hide WellFormed;
    HelpIsWellFormed(cfg, w.link);
    var first := NewContinued(250, "Commands supported");
    SayFlows(cfg, w, first);
    SayFlows(cfg, w.Say(first), New(214, Topics(cfg, w.link)));
  }

  lemma UpgradeIsSilent(cfg: Config, log: seq<Event>, raw: bytes)
    ensures Framed(cfg, log) ==> Framed(cfg, log + [Upgraded(raw)])
  {
    hide AllWellFormed;
    hide PlainTexts;
    LogSnoc(log, Upgraded(raw));
    assert SentIn(log) + [] == SentIn(log);
  }

  lemma StartTlsFlows(cfg: Config, w: World)
    ensures
      var next := DoStartTls(cfg, w).world;
      Goes(cfg, w, next) || HandsOver(cfg, w, next)
  {
    hide Framed;
    hide AllBytes;
    hide WellFormed;
    hide OneLine;
    TlsReplies();
    Refusals();
    TlsErrorIsWellFormed();
    SayFlows(cfg, w, SyntaxError(Some("TLS not supported")));
    SayFlows(cfg, w, BAD_SEQUENCE);
    SayFlows(cfg, w, START_TLS);
    UpgradeIsSilent(cfg, w.Say(START_TLS).log, w.input);
  }

  lemma AuthenticateGoes(cfg: Config, w: World, mechanism: AuthMethod, initial: Option<bytes>)
    ensures Goes(cfg, w, DoAuthenticate(cfg, w, mechanism, initial).world)
  {
    hide Framed;
    hide AllBytes;
    hide WellFormed;
    hide HandleAuth;
    hide OneLine;
    Refusals();
    TlsReplies();
    match AuthRefusal(cfg, w)
    case Some(r) => SayFlows(cfg, w, r);
    case None =>
      HandleAuthFlows(cfg, w, mechanism, initial);
      HandleAuthTalks(cfg, w, mechanism, initial);
      AuthErrors(cfg, w, mechanism, initial);
      FinishFlows(cfg, HandleAuth(cfg, w, mechanism, initial));
  }

  lemma ResetGoes(cfg: Config, w: World)
    ensures Goes(cfg, w, DoReset(cfg, w).world)
  {
    hide Framed;
    hide AllBytes;
    hide WellFormed;
    OkReplies();
    ReplyGoes(cfg, w, NEW_STATE, RESET);
    AskFlows(cfg, w.(state := NEW_STATE).Say(RESET), OnReset);
  }

  lemma ExecuteFlows(cfg: Config, w: World, c: Command)
    ensures
      var next := Execute(cfg, w, c).world;
      Goes(cfg, w, next) || HandsOver(cfg, w, next)
  {
    hide Goes;
    hide HandsOver;
    hide WellFormed;
    hide NormalizeAddress;
    hide DoHello;
    hide DoHelp;
    hide DoStartTls;
    hide DoAuthenticate;
    hide DoReset;
    hide Refusal;
    OkReplies();
    DataReplies();
    match c
    case Hello(domain, extended) => HelloGoes(cfg, w, domain, extended);
    case Help => HelpGoes(cfg, w);
    case StartTls => StartTlsFlows(cfg, w);
    case Authenticate(mechanism, initial) => AuthenticateGoes(cfg, w, mechanism, initial);
    case MailFrom(from) => GuardedGoes(cfg, w, DoMail(cfg, w, from).world.state, OK, Greeted);
    case Recipient(to) => GuardedGoes(cfg, w, DoRecipient(cfg, w, to).world.state, OK, Envelope);
    case DataStart => GuardedGoes(cfg, w, DoData(cfg, w).world.state, DATA_START, Envelope);
    case Reset => ResetGoes(cfg, w);
    case NoOp => ReplyGoes(cfg, w, w.state, OK);
    case Quit => ReplyGoes(cfg, w, w.state, GOODBYE);
  }

  lemma DeliverGoes(cfg: Config, w: World)
    ensures Goes(cfg, w, Deliver(cfg, w).world)
  {
    hide Framed;
    hide AllBytes;
    hide WellFormed;
    hide OneLine;
    DataReplies();
    var call := OnMail(w.state.currentMail);
    AskFlows(cfg, w, call);
    var asked, end := w.Ask(cfg, call), w.state.(phase := Greeted, currentMail := EMPTY_LETTER);
    match cfg.answers(w.calls)
    case Accept =>
      SayFlows(cfg, asked, MAIL_ACCEPTED);
      SameFlow(cfg, asked.Say(MAIL_ACCEPTED), asked.Say(MAIL_ACCEPTED).(state := end));
    case Refuse(reason) =>
      var reply := MAIL_HANDLER_ERROR.Extend(reason);
      if OneLine(reason) {
        HandlerErrorIsWellFormed(reason);
      }
      SayFlows(cfg, asked, reply);
      SameFlow(cfg, asked.Say(reply), asked.Say(reply).(state := end));
  }

  lemma CaptureGoes(cfg: Config, w: World, line: bytes)
    ensures Goes(cfg, w, Capture(cfg, w, line).world)
  {
    hide Framed;
    hide AllBytes;
    hide WellFormed;
    DataReplies();
    SayFlows(cfg, w, DATA_TOO_LONG);
    SameFlow(cfg, w, w.(state := Capture(cfg, w, line).world.state));
  }

  lemma ProcessFlows(cfg: Config, w: World, line: bytes)
    ensures
      var next := Process(cfg, w, line).world;
      Goes(cfg, w, next) || HandsOver(cfg, w, next)
  {
    hide Goes;
    hide HandsOver;
    hide Parse;
    hide Execute;
    hide Deliver;
    hide Capture;
    hide WellFormed;
    hide OneLine;
    if w.state.phase == Data {
      DeliverGoes(cfg, w);
      CaptureGoes(cfg, w, line);
    } else {
      ParseErrors(cfg.lossy, line);
      match Parse(cfg.lossy, line)
      case Success(c) => ExecuteFlows(cfg, w, c);
      case Failure(err) =>
        ErrorIsWellFormed(err);
        ReplyGoes(cfg, w, w.state, SyntaxError(Some(err)));
    }
  }

  // ---- Runs -------------------------------------------------------------------------------------

  /** On a plain link the unread bytes complete those that were heard. */
  ghost predicate Flowing(cfg: Config, w: World, total: bytes) {
    Framed(cfg, w.log) && (w.link.Plain? ==> AllBytes(w) == total)
  }

  /** Each upgrade from position `start` on handed over exactly what the lines before it left. */
  ghost predicate UpgradesConserve(log: seq<Event>, start: nat, total: bytes) {
    forall k :: start <= k < |log| && log[k].Upgraded? ==> HeardBytes(log[..k]) + log[k].raw == total
  }

  lemma HandOverConserves(cfg: Config, w: World, next: World, total: bytes)
    requires HandsOver(cfg, w, next) && Flowing(cfg, w, total)
    ensures Flowing(cfg, next, total) && UpgradesConserve(next.log, |w.log|, total)
  {
    hide Framed;
    hide HeardBytes;
    var ready := w.Say(START_TLS);
    assert next.log[..|ready.log|] == ready.log;
  }

  lemma StepFlows(cfg: Config, w: World, total: bytes)
    requires Flowing(cfg, w, total)
    ensures
      var next := Step(cfg, w).world;
      Flowing(cfg, next, total) && UpgradesConserve(next.log, |w.log|, total)
  {
    hide Framed;
    hide HeardBytes;
    hide Process;
    match ReadFlat(w.input)
    case Line(line, rest) =>
      var heard := w.Hear(line, rest);
      var next := Process(cfg, heard, line).world;
      HearFlows(cfg, w, line, rest);
      ProcessFlows(cfg, heard, line);
      if HandsOver(cfg, heard, next) {
        HandOverConserves(cfg, heard, next, total);
      }
      assert next.log[|w.log|] == heard.log[|w.log|];
    case _ =>
  }

  lemma {:induction false} RunFlows(cfg: Config, w: World, total: bytes)
    requires Flowing(cfg, w, total)
    ensures Framed(cfg, Run(cfg, w).world.log) && UpgradesConserve(Run(cfg, w).world.log, |w.log|, total)
    decreases if w.link.Plain? then 1 else 0, |w.input|
  {
    hide Framed;
    hide HeardBytes;
    hide AllBytes;
    hide Step;
    var t, log := Step(cfg, w), Run(cfg, w).world.log;
    StepFlows(cfg, w, total);
    if t.status.Live? {
      RunFlows(cfg, t.world, total);
      forall k | |w.log| <= k < |log| && log[k].Upgraded? ensures HeardBytes(log[..k]) + log[k].raw == total {
        if k < |t.world.log| {
          assert log[..k] == t.world.log[..k];
        }
      }
    }
  }

  lemma StartFlows(cfg: Config, link: Link, input: bytes)
    ensures Flowing(cfg, Start(cfg, link, input), input)
  {
    hide WellFormed;
    hide OneLine;
    var banner := Banner(cfg.serverName);
    if PlainTexts(cfg) {
      BannerIsWellFormed(cfg.serverName);
    }
    LogSnoc([], Sent(banner));
    assert [] + input == input;
  }

  /** Across the upgrade every received byte goes once and in order either to a line before
      it or to the TLS layer. */
  lemma UpgradeConservesBytes(cfg: Config, acceptor: bool, input: bytes, k: nat)
    requires k < |Transcript(cfg, Plain(acceptor), input)|
    requires Transcript(cfg, Plain(acceptor), input)[k].Upgraded?
    ensures
      var log := Transcript(cfg, Plain(acceptor), input);
      HeardBytes(log[..k]) + log[k].raw == input
  {
    hide Run;
    hide HeardBytes;
    hide Flowing;
    StartFlows(cfg, Plain(acceptor), input);
    RunFlows(cfg, Start(cfg, Plain(acceptor), input), input);
    assert 1 <= |Start(cfg, Plain(acceptor), input).log|;
  }

  /** Everything a session ever says reaches the client: it recovers all replies, with their
      codes and messages, from the characters on the wire. */
  lemma ClientReadsEveryReply(cfg: Config, link: Link, input: bytes)
    requires PlainTexts(cfg)
    ensures
      var rs := SentIn(Transcript(cfg, link, input));
      ReadLines(OnWire(rs)) == Lines(rs) && ReadReplies(OnWire(rs)) == rs
  {
    hide Run;
    hide ReadLines;
    hide OnWire;
    hide ReadReplies;
    StartFlows(cfg, link, input);
    RunFlows(cfg, Start(cfg, link, input), input);
    ReadsWhatWasPrinted(SentIn(Transcript(cfg, link, input)));
    WireRoundTrip(SentIn(Transcript(cfg, link, input)));
  }
}
