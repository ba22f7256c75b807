/** One reply per line: the dialogue between client and session stays in step. */
module Discipline {
  import opened Wrappers
  import opened Bytes
  import opened Commands
  import opened MailObject
  import opened Responses
  import opened Protocol

  /** A count kept along the log. `owed` is the number of lines that call for a reply: all
      but the body lines between DATA and the terminator. `unanswered` is the number of
      prompts that met the end of the stream instead of a line. */
  datatype Tally = Tally(replies: nat, owed: nat, unanswered: nat, inBody: bool, pending: bool, prompted: bool)

  const NO_TALLY := Tally(0, 0, 0, false, false, false)

  function Tick(t: Tally, e: Event): Tally {
    match e
    case Received(line) =>
      t.(prompted := false, owed := t.owed + (if t.inBody && !IsTerminator(line) then 0 else 1))
    case Sent(r) =>
      t.(replies := t.replies + (if r.hasNext then 0 else 1),
         unanswered := t.unanswered + (if t.prompted then 1 else 0),
         inBody := t.inBody || r.code == DATA_START.code, pending := r.hasNext,
         prompted := r.code == AUTH_CHALLENGE_PLAIN.code)
    case Called(OnMail(_), _) => t.(inBody := false, prompted := false)
    case _ => t.(prompted := false)
  }

  function Count(log: seq<Event>): Tally {
    if log == [] then NO_TALLY else Tick(Count(log[..|log| - 1]), log[|log| - 1])
  }

  lemma CountSnoc(log: seq<Event>, e: Event)
    ensures Count(log + [e]) == Tick(Count(log), e)
  {
    assert (log + [e])[..|log|] == log;
  }

  /** Every line so far has its reply, besides the banner, and the last reply is complete.
      A prompt went unanswered only if nothing is left to read. */
  ghost predicate Balanced(w: World) {
    var t := Count(w.log);
    && t.replies == 1 + t.owed + t.unanswered && !t.pending && !t.prompted
    && (t.inBody <==> w.state.phase == Data)
    && (t.unanswered == 0 || (t.unanswered == 1 && w.input == []))
  }

  /** A line has been heard, outside the data phase, and its reply is owed. */
  ghost predicate Owing(w: World) {
    var t := Count(w.log);
    && t.replies == t.owed && t.unanswered == 0 && !t.pending && !t.prompted
    && !t.inBody && w.state.phase != Data
  }

  /** The same, behind a prompt that nothing has answered. */
  ghost predicate Unanswered(w: World) {
    var t := Count(w.log);
    && t.replies == 1 + t.owed && t.unanswered == 0 && !t.pending && t.prompted
    && !t.inBody && w.state.phase != Data && w.input == []
  }

  lemma HearOwes(w: World, line: bytes, rest: bytes)
    requires Balanced(w) && w.state.phase != Data && w.input != []
    ensures Owing(w.Hear(line, rest))
  {
    CountSnoc(w.log, Received(line));
    hide Count;
    hide IsTerminator;
  }

  /** A one-line reply settles what is owed. */
  lemma SaySettles(w: World, r: Response)
    requires Owing(w) || Unanswered(w)
    requires !r.hasNext && r.code != DATA_START.code && r.code != AUTH_CHALLENGE_PLAIN.code
    ensures Balanced(w.Say(r)) && (Owing(w) ==> Count(w.Say(r).log).unanswered == 0)
  {
    CountSnoc(w.log, Sent(r));
    hide Count;
  }

  lemma PromptKeeps(w: World, prompt: Response)
    requires Owing(w) && !prompt.hasNext && prompt.code == AUTH_CHALLENGE_PLAIN.code
    ensures
      var c := Prompt(w, prompt);
      (c.Reply? ==> Owing(c.world)) && (c.NoReply? ==> Unanswered(c.world))
  {
    CountSnoc(w.log, Sent(prompt));
    var said := w.Say(prompt);
    match ReadFlat(w.input)
    case Line(line, rest) => CountSnoc(said.log, Received(line));
    case _ =>
  }

  /** A call other than on_mail counts for nothing. */
  lemma AskKeeps(cfg: Config, w: World, call: Call)
    requires !call.OnMail?
    ensures Owing(w) ==> Owing(w.Ask(cfg, call))
    ensures Balanced(w) ==> Balanced(w.Ask(cfg, call))
  {
    CountSnoc(w.log, Called(call, cfg.answers(w.calls)));
    hide Count;
  }

  lemma AskPasswordKeeps(cfg: Config, w: World, username: bytes)
    requires Owing(w)
    ensures
      var t := AskPassword(cfg, w, username);
      (t.result.Credentials? ==> Owing(t.world)) && (t.result.Malformed? ==> Unanswered(t.world))
  {
    PromptKeeps(w, AUTH_CHALLENGE_LOGIN_PASSWORD);
    hide Prompt;
    hide DecodeBase64;
    hide Owing;
    hide Unanswered;
  }

  lemma HandleAuthKeeps(cfg: Config, w: World, mechanism: AuthMethod, initial: Option<bytes>)
    requires Owing(w)
    ensures
      var t := HandleAuth(cfg, w, mechanism, initial);
      (t.result.Credentials? ==> Owing(t.world)) && (t.result.Malformed? ==> Owing(t.world) || Unanswered(t.world))
  {
    hide Prompt;
    hide AskPassword;
    hide DecodeBase64;
    hide Owing;
    hide Unanswered;
    match (mechanism, initial)
    case (AuthPlain, Some(_)) =>
    case (AuthPlain, None) => PromptKeeps(w, AUTH_CHALLENGE_PLAIN);
    case (AuthLogin, Some(username)) => AskPasswordKeeps(cfg, w, username);
    case (AuthLogin, None) =>
      PromptKeeps(w, AUTH_CHALLENGE_LOGIN_USERNAME);
      var p := Prompt(w, AUTH_CHALLENGE_LOGIN_USERNAME);
      if p.Reply? {
        AskPasswordKeeps(cfg, p.world, p.line);
      }
  }

  lemma AuthenticateKeeps(cfg: Config, w: World, mechanism: AuthMethod, initial: Option<bytes>)
    requires Owing(w) && DoAuthenticate(cfg, w, mechanism, initial).status.Live?
    ensures Balanced(DoAuthenticate(cfg, w, mechanism, initial).world)
  {
    match AuthRefusal(cfg, w)
    case Some(r) => SaySettles(w, r);
    case None =>
      var t := HandleAuth(cfg, w, mechanism, initial);
      HandleAuthKeeps(cfg, w, mechanism, initial);
      FinishKeeps(cfg, t);
  }

  lemma FinishKeeps(cfg: Config, t: AuthTurn)
    requires t.result.Credentials? ==> Owing(t.world)
    requires t.result.Malformed? ==> Owing(t.world) || Unanswered(t.world)
    requires FinishAuth(cfg, t).status.Live?
    ensures Balanced(FinishAuth(cfg, t).world)
  {
    hide Count;
    match t.result
    case Abort =>
    case Malformed(err) => SaySettles(t.world, SyntaxError(Some(err)));
    case Credentials(username, password) =>
      AskKeeps(cfg, t.world, OnLogin(username, password));
      SaySettles(t.world.Ask(cfg, OnLogin(username, password)), AUTH_OK);
  }

  /** A reply of several lines, all but the last continued, counts as one. */
  lemma {:induction false} SayAllSettles(w: World, rs: seq<Response>)
    requires |rs| > 0 && Count(w.log).replies == Count(w.log).owed && Count(w.log).unanswered == 0
    requires !Count(w.log).prompted && !Count(w.log).inBody && w.state.phase != Data
    requires forall i :: 0 <= i < |rs| ==> rs[i].code == 250 && (rs[i].hasNext <==> i != |rs| - 1)
    ensures Balanced(w.SayAll(rs))
    decreases rs
  {
    hide Count;
    CountSnoc(w.log, Sent(rs[0]));
    if |rs| == 1 {
    } else {
      SayAllSettles(w.Say(rs[0]), rs[1..]);
    }
  }

  lemma GreetingIsOneReply(cfg: Config, link: Link, extended: bool)
    ensures
      var rs := Greeting(cfg, link, extended);
      |rs| > 0 && forall i :: 0 <= i < |rs| ==> rs[i].code == 250 && (rs[i].hasNext <==> i != |rs| - 1)
  {}

  lemma HelloKeeps(cfg: Config, w: World, domain: string, extended: bool)
    requires Owing(w) && DoHello(cfg, w, domain, extended).status.Live?
    ensures Balanced(DoHello(cfg, w, domain, extended).world)
  {
    hide Count;
    hide Greeting;
    if w.state.phase != Connected {
      SaySettles(w, BAD_SEQUENCE);
    } else {
      AskKeeps(cfg, w, OnHello(domain, extended));
      GreetingIsOneReply(cfg, w.link, extended);
      SayAllSettles(w.Ask(cfg, OnHello(domain, extended)), Greeting(cfg, w.link, extended));
    }
  }

  lemma HelpKeeps(cfg: Config, w: World)
    requires Owing(w)
    ensures Balanced(DoHelp(cfg, w).world)
  {
    hide Count;
    hide Topics;
    var first := NewContinued(250, "Commands supported");
    CountSnoc(w.log, Sent(first));
    CountSnoc(w.Say(first).log, Sent(New(214, Topics(cfg, w.link))));
  }

  lemma StartTlsKeeps(cfg: Config, w: World)
    requires Owing(w) && DoStartTls(cfg, w).status.Live?
    ensures Balanced(DoStartTls(cfg, w).world)
  {
    hide Count;
    if !w.link.SupportsTls() {
      SaySettles(w, SyntaxError(Some("TLS not supported")));
    } else if w.state.phase != Greeted {
      SaySettles(w, BAD_SEQUENCE);
    } else {
      SaySettles(w, START_TLS);
      CountSnoc(w.Say(START_TLS).log, Upgraded(w.input));
    }
  }

  lemma DataKeeps(cfg: Config, w: World)
    requires Owing(w)
    ensures Balanced(DoData(cfg, w).world)
  {
    hide Count;
    match Refusal(cfg, w, Envelope)
    case Some(r) => SaySettles(w, r);
    case None => CountSnoc(w.log, Sent(DATA_START));
  }

  lemma ResetKeeps(cfg: Config, w: World)
    requires Owing(w)
    ensures Balanced(DoReset(cfg, w).world)
  {
    hide Count;
    var clear := w.(state := NEW_STATE);
    SaySettles(clear, RESET);
    AskKeeps(cfg, clear.Say(RESET), OnReset);
  }

  /** The turns of MAIL and RCPT: a refusal, or a new state and OK. */
  lemma OkKeeps(w: World, state: State, refusal: Option<Response>)
    requires Owing(w) && state.phase != Data
    requires refusal in {None, Some(BAD_SEQUENCE), Some(AUTH_REQUIRED)}
    ensures Balanced(if refusal.Some? then w.Say(refusal.value) else w.(state := state).Say(OK))
  {
    hide Count;
    SaySettles(w.(state := state), OK);
    SaySettles(w, BAD_SEQUENCE);
    SaySettles(w, AUTH_REQUIRED);
  }

  lemma MailKeeps(cfg: Config, w: World, from: string)
    requires Owing(w)
    ensures Balanced(DoMail(cfg, w, from).world)
  {
    hide Owing;
    hide Balanced;
    hide NormalizeAddress;
    var state := w.state.(phase := Envelope, currentMail := EMPTY_LETTER.(from := NormalizeAddress(from)));
    OkKeeps(w, state, Refusal(cfg, w, Greeted));
  }

  lemma RecipientKeeps(cfg: Config, w: World, to: string)
    requires Owing(w)
    ensures Balanced(DoRecipient(cfg, w, to).world)
  {
    hide Balanced;
    hide NormalizeAddress;
    var mail := w.state.currentMail;
    var state := w.state.(currentMail := mail.(to := mail.to + [NormalizeAddress(to)]));
    OkKeeps(w, state, Refusal(cfg, w, Envelope));
  }

  lemma ExecuteKeeps(cfg: Config, w: World, c: Command)
    requires Owing(w) && Execute(cfg, w, c).status.Live?
    ensures Balanced(Execute(cfg, w, c).world)
  {
    hide Owing;
    hide Balanced;
    hide DoHello;
    hide DoHelp;
    hide DoStartTls;
    hide DoAuthenticate;
    hide DoMail;
    hide DoRecipient;
    hide DoData;
    hide DoReset;
    match c
    case Hello(domain, extended) => HelloKeeps(cfg, w, domain, extended);
    case Help => HelpKeeps(cfg, w);
    case StartTls => StartTlsKeeps(cfg, w);
    case Authenticate(mechanism, initial) => AuthenticateKeeps(cfg, w, mechanism, initial);
    case MailFrom(from) => MailKeeps(cfg, w, from);
    case Recipient(to) => RecipientKeeps(cfg, w, to);
    case DataStart => DataKeeps(cfg, w);
    case Reset => ResetKeeps(cfg, w);
    case NoOp => SaySettles(w, OK);
    case Quit =>
  }

  lemma DeliverKeeps(cfg: Config, w: World, line: bytes, rest: bytes)
    requires Balanced(w) && w.state.phase == Data && w.input != [] && IsTerminator(line)
    ensures Balanced(Deliver(cfg, w.Hear(line, rest)).world)
  {
    hide Count;
    hide IsTerminator;
    var heard := w.Hear(line, rest);
    var call := OnMail(w.state.currentMail);
    CountSnoc(w.log, Received(line));
    CountSnoc(heard.log, Called(call, cfg.answers(w.calls)));
    var asked := heard.Ask(cfg, call);
    var next := Deliver(cfg, heard).world;
    CountSnoc(asked.log, next.log[|asked.log|]);
  }

  lemma CaptureKeeps(cfg: Config, w: World, line: bytes, rest: bytes)
    requires Balanced(w) && w.state.phase == Data && w.input != [] && !IsTerminator(line)
    requires Capture(cfg, w.Hear(line, rest), line).status.Live?
    ensures Balanced(Capture(cfg, w.Hear(line, rest), line).world)
  {
    hide Count;
    hide IsTerminator;
    hide Unstuff;
    CountSnoc(w.log, Received(line));
  }

  /** A turn that the session survives settles exactly what its line calls for. */
  lemma StepKeepsBalance(cfg: Config, w: World)
    requires Balanced(w) && Step(cfg, w).status.Live?
    ensures Balanced(Step(cfg, w).world)
  {
    hide Balanced;
    hide Owing;
    hide Parse;
    hide Execute;
    hide Deliver;
    hide Capture;
    hide IsTerminator;
    var Line(line, rest) := ReadFlat(w.input);
    var heard := w.Hear(line, rest);
    if w.state.phase == Data {
      if IsTerminator(line) {
        DeliverKeeps(cfg, w, line, rest);
      } else {
        CaptureKeeps(cfg, w, line, rest);
      }
    } else {
      HearOwes(w, line, rest);
      match Parse(cfg.lossy, line)
      case Success(c) => ExecuteKeeps(cfg, heard, c);
      case Failure(err) => SaySettles(heard, SyntaxError(Some(err)));
    }
  }
}
