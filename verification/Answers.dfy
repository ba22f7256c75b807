/** What the client is told, in the numbers it reads, against what happened. */
module Answers {
  import opened Wrappers
  import opened Bytes
  import opened Commands
  import opened MailObject
  import opened Responses
  import opened Protocol
  import opened History
  import opened Proxy
  import opened Product
  import opened Discipline
  import opened Advertising
  import opened Ledger

  // ---- Mails --------------------------------------------------------------------------------

  /** The reply behind a mail: a positive code exactly if the handler took the mail, and
      otherwise a negative one with the handler's reason at its end. */
  predicate Truthful(answer: Answer, e: Event) {
    && e.Sent? && !e.reply.hasNext
    && (answer.Accept? <==> 200 <= e.reply.code < 300)
    && (answer.Refuse? ==> 400 <= e.reply.code < 600 && EndsWith(e.reply.message, answer.reason))
  }

  ghost predicate MailsAnswered(log: seq<Event>, start: nat) {
    forall i :: start <= i < |log| && IsMail(log[i]) ==> i + 1 < |log| && Truthful(log[i].answer, log[i + 1])
  }

  lemma DeliverAnswers(cfg: Config, w: World)
    ensures MailsAnswered(Deliver(cfg, w).world.log, |w.log|)
  {
    match cfg.answers(w.calls)
    case Accept =>
    case Refuse(reason) => ExtendEnds(MAIL_HANDLER_ERROR, reason);
  }

  lemma ExtendEnds(r: Response, extension: string)
    ensures EndsWith(r.Extend(extension).message, extension)
  {
    var m := r.message + ": ";
    assert (m + extension)[|m|..] == extension;
  }

  lemma StepAnswersMails(cfg: Config, w: World)
    ensures MailsAnswered(Step(cfg, w).world.log, |w.log|)
  {
    hide Parse;
    hide Execute;
    hide Deliver;
    hide CallOf;
    hide Truthful;
    hide IsTerminator;
    match ReadFlat(w.input)
    case Line(line, rest) =>
      var heard := w.Hear(line, rest);
      if w.state.phase == Data && IsTerminator(line) {
        DeliverAnswers(cfg, heard);
        assert Deliver(cfg, heard).world.log[|w.log|] == heard.log[|w.log|];
      } else {
        StepCalls(cfg, w);
        NoMailNext(cfg, w);
        hide Step;
      }
    case _ =>
  }

  lemma NoMailNext(cfg: Config, w: World)
    requires ReadFlat(w.input).Line? && !(w.state.phase == Data && IsTerminator(ReadFlat(w.input).line))
    ensures NextCall(cfg, w).Some? ==> !NextCall(cfg, w).value.OnMail?
  {
    hide Parse;
    hide IsTerminator;
    hide HandleAuth;
  }

  lemma {:induction false} RunAnswersMails(cfg: Config, w: World)
    ensures MailsAnswered(Run(cfg, w).world.log, |w.log|)
    decreases if w.link.Plain? then 1 else 0, |w.input|
  {
    hide Step;
    hide Truthful;
    var t, log := Step(cfg, w), Run(cfg, w).world.log;
    StepAnswersMails(cfg, w);
    if t.status.Live? {
      RunAnswersMails(cfg, t.world);
      assert forall i :: 0 <= i < |t.world.log| ==> log[i] == t.world.log[i];
    }
  }

  /** Each mail handed over is answered at once: positively exactly if the handler took it,
      and otherwise with its reason. */
  lemma EveryMailIsAnswered(cfg: Config, link: Link, input: bytes, i: nat)
    requires i < |Transcript(cfg, link, input)| && IsMail(Transcript(cfg, link, input)[i])
    ensures
      var log := Transcript(cfg, link, input);
      i + 1 < |log| && Truthful(log[i].answer, log[i + 1])
  {
    hide Run;
    hide Truthful;
    var start := Start(cfg, link, input);
    RunAnswersMails(cfg, start);
    assert start.log <= Run(cfg, start).world.log;
    assert !IsMail(start.log[0]);
  }

  /** In a session that the proxy's handler drives, the client reads a positive code exactly
      if its mail was passed on and the mail service took it. */
  lemma ReceiptsAreTrue(cfg: Config, verify: (string, string) -> bool, service: nat -> Answer,
                        link: Link, input: bytes, i: nat)
    requires Driven(verify, service, Transcript(cfg, link, input))
    requires i < |Transcript(cfg, link, input)| && IsMail(Transcript(cfg, link, input)[i])
    ensures
      var log := Transcript(cfg, link, input);
      && i + 1 < |log| && log[i + 1].Sent?
      && (200 <= log[i + 1].reply.code < 300 <==> Proxy.Sends(log, i) && service(MailsBefore(log, i)).Accept?)
  {
    hide Run;
    hide Replay;
    hide MailsBefore;
    EveryMailIsAnswered(cfg, link, input, i);
  }

  /** The first thing a client reads is the greeting of the server, with its name. */
  lemma BannerComesFirst(cfg: Config, link: Link, input: bytes)
    ensures
      var log := Transcript(cfg, link, input);
      && log != [] && log[0].Sent? && log[0].reply.code == 220 && !log[0].reply.hasNext
      && exists a, b :: log[0].reply.message == a + cfg.serverName + b
  {
    hide Run;
    var start := Start(cfg, link, input);
    assert start.log <= Run(cfg, start).world.log;
    assert start.log[0].reply.message == "2.2.0 " + cfg.serverName + " ESMTP ready";
  }

  // ---- Lines that are no commands -------------------------------------------------------------

  /** Outside a body, a line that is no command is answered by one reply with code 500, and
      changes nothing. */
  lemma GarbageIsRefused(cfg: Config, w: World, line: bytes, rest: bytes, verb: bytes, arg: Option<bytes>)
    requires w.state.phase != Data && ReadFlat(w.input) == Line(line, rest)
    requires IsSplit(StripLineEnd(line), verb, arg)
    ensures
      var t, heard := Step(cfg, w), w.Hear(line, rest);
      !IsCommand(verb, arg) ==>
        t.status.Live? && exists r: Response :: r.code == 500 && !r.hasNext && t.world == heard.Say(r)
    ensures IsCommand(verb, arg) ==> exists c ::
      Denotes(cfg.lossy, verb, arg, c) && Step(cfg, w) == Execute(cfg, w.Hear(line, rest), c)
  {
    hide IsCommand;
    hide Denotes;
    hide IsSplit;
    hide Parse;
    hide Execute;
    hide StripLineEnd;
    ParsesIffCommand(cfg.lossy, line, verb, arg);
    match Parse(cfg.lossy, line)
    case Success(c) => ParseIff(cfg.lossy, line, verb, arg, c);
    case Failure(err) =>
      assert Step(cfg, w).world == w.Hear(line, rest).Say(SyntaxError(Some(err)));
  }

  // ---- Lines that change nothing ---------------------------------------------------------------

  predicate IsReplyOf(e: Event, code: nat) { e.Sent? && e.reply.code == code }

  /** Nothing since position `start` tells of a change: no call, no upgrade, no 354, and
      unless `quiet`, no 250. */
  ghost predicate Uneventful(log: seq<Event>, start: nat, quiet: bool) {
    forall k :: start <= k < |log| ==>
      && !log[k].Called? && !log[k].Upgraded? && !IsReplyOf(log[k], 354)
      && (!quiet ==> !IsReplyOf(log[k], 250))
  }

  /** MAIL and RCPT tell of a change by 250; for other commands it means nothing. */
  predicate IsQuiet(c: Command) { !c.MailFrom? && !c.Recipient? }

  lemma FinishFrame(cfg: Config, t: AuthTurn, start: nat)
    requires FinishAuth(cfg, t).status.Live? && start <= |t.world.log|
    ensures Uneventful(FinishAuth(cfg, t).world.log, start, true) ==> FinishAuth(cfg, t).world.state == t.world.state
  {
    match t.result
    case Abort =>
    case Malformed(err) =>
    case Credentials(username, password) =>
      assert FinishAuth(cfg, t).world.log[|t.world.log|].Called?;
  }

  lemma HelloFrame(cfg: Config, w: World, domain: string, extended: bool)
    requires DoHello(cfg, w, domain, extended).status.Live?
    ensures Uneventful(DoHello(cfg, w, domain, extended).world.log, |w.log|, true) ==>
      DoHello(cfg, w, domain, extended).world.state == w.state
  {
    hide Greeting;
    if w.state.phase == Connected {
      var asked := w.Ask(cfg, OnHello(domain, extended));
      assert DoHello(cfg, w, domain, extended).world.log[|w.log|] == asked.log[|w.log|];
    }
  }

  lemma ExecuteFrame(cfg: Config, w: World, c: Command)
    requires Execute(cfg, w, c).status.Live?
    ensures Uneventful(Execute(cfg, w, c).world.log, |w.log|, IsQuiet(c)) ==> Execute(cfg, w, c).world.state == w.state
  {
    hide DoHello;
    hide HandleAuth;
    hide FinishAuth;
    hide Topics;
    hide NormalizeAddress;
    var next := Execute(cfg, w, c).world;
    match c
    case Hello(domain, extended) => HelloFrame(cfg, w, domain, extended);
    case Authenticate(mechanism, initial) =>
      if AuthRefusal(cfg, w).None? {
        FinishFrame(cfg, HandleAuth(cfg, w, mechanism, initial), |w.log|);
      }
    case StartTls =>
      assert next.link != w.link ==> next.log[|w.log| + 1].Upgraded?;
    case Reset => assert next.log[|w.log| + 1].Called?;
    case MailFrom(_) => assert next.state != w.state ==> next.log[|w.log|] == Sent(OK);
    case Recipient(_) => assert next.state != w.state ==> next.log[|w.log|] == Sent(OK);
    case DataStart => assert next.state != w.state ==> next.log[|w.log|] == Sent(DATA_START);
    case _ =>
  }

  /** A line outside a body that makes no call and no upgrade, and is not answered as an
      accepted MAIL, RCPT or DATA, leaves the whole state as it was. */
  lemma IdleLinesKeepState(cfg: Config, w: World, line: bytes, rest: bytes)
    requires w.state.phase != Data && ReadFlat(w.input) == Line(line, rest) && Step(cfg, w).status.Live?
    ensures
      var c, next := Parse(cfg.lossy, line), Step(cfg, w).world;
      Uneventful(next.log, |w.log|, c.Failure? || IsQuiet(c.value)) ==> next.state == w.state
  {
    hide Parse;
    hide Execute;
    match Parse(cfg.lossy, line)
    case Success(c) =>
      ExecuteFrame(cfg, w.Hear(line, rest), c);
      UneventfulLater(Step(cfg, w).world.log, |w.log|, IsQuiet(c));
    case Failure(_) =>
  }

  lemma UneventfulLater(log: seq<Event>, start: nat, quiet: bool)
    ensures Uneventful(log, start, quiet) ==> Uneventful(log, start + 1, quiet)
  {}

  // ---- How a session ends ------------------------------------------------------------------------

  /** The log ends on a refused greeting, or on a refused login and the reply 535. */
  predicate EndsRefused(log: seq<Event>) {
    var n := |log|;
    || (n > 0 && log[n - 1].Called? && log[n - 1].call.OnHello? && log[n - 1].answer.Refuse?)
    || (n > 1 && IsLogin(log[n - 2]) && log[n - 2].answer.Refuse? && IsReplyOf(log[n - 1], 535))
  }

  /** From `start` on there are only prompts, and lines that answer them. */
  ghost predicate OnlyPrompts(log: seq<Event>, start: nat) {
    forall k :: start <= k < |log| ==> log[k].Received? || IsReplyOf(log[k], 334)
  }

  /** The reasons for which the loop gives up on a line: refusal by the handler, a body that
      is too long, a TLS handshake that fails, and an AUTH dialogue that breaks off. */
  ghost predicate GivesUp(cfg: Config, w: World, line: bytes, log: seq<Event>)
    requires log != []
  {
    var c, last := Parse(cfg.lossy, line), log[|log| - 1];
    if w.state.phase == Data then IsReplyOf(last, 552)
    else
      c.Success? && match c.value
                    case Hello(_, _) => EndsRefused(log)
                    case StartTls => IsReplyOf(last, 220)
                    case Authenticate(_, _) => EndsRefused(log) || OnlyPrompts(log, |w.log| + 1)
                    case _ => false
  }

  lemma {:induction false} SayAllEnds(w: World, rs: seq<Response>)
    requires rs != []
    ensures
      var log := w.SayAll(rs).log;
      log != [] && log[|log| - 1].Sent? && log[|log| - 1].reply.code == rs[|rs| - 1].code
    decreases rs
  {
    if |rs| == 1 {
      assert w.SayAll(rs) == w.Say(rs[0]).SayAll([]);
    } else {
      SayAllEnds(w.Say(rs[0]), rs[1..]);
    }
  }

  lemma HelloEnds(cfg: Config, w: World, domain: string, extended: bool)
    ensures
      var t := DoHello(cfg, w, domain, extended);
      && !t.status.Closed? && |t.world.log| > |w.log| && (t.status.Broken? <==> EndsRefused(t.world.log))
  {
    hide Greeting;
    if w.state.phase == Connected {
      var asked, rs := w.Ask(cfg, OnHello(domain, extended)), Greeting(cfg, w.link, extended);
      GreetingIsOneReply(cfg, w.link, extended);
      SayAllEnds(asked, rs);
    }
  }

  lemma DialogueIsPrompts(cfg: Config, w: World, mechanism: AuthMethod, initial: Option<bytes>)
    ensures w.log <= HandleAuth(cfg, w, mechanism, initial).world.log
    ensures OnlyPrompts(HandleAuth(cfg, w, mechanism, initial).world.log, |w.log|)
  {
    hide DecodeBase64;
    hide PlainCredentials;
    hide ReadFlat;
  }

  lemma FinishEnds(cfg: Config, t: AuthTurn, start: nat)
    requires OnlyPrompts(t.world.log, start) && start <= |t.world.log|
    requires t.world.log != [] && !t.world.log[|t.world.log| - 1].Called? && !EndsRefused(t.world.log)
    ensures
      var end := FinishAuth(cfg, t);
      && !end.status.Closed? && t.world.log <= end.world.log
      && (end.status.Broken? <==> EndsRefused(end.world.log) || OnlyPrompts(end.world.log, start))
  {
    var log := FinishAuth(cfg, t).world.log;
    match t.result
    case Abort =>
    case Malformed(err) => assert log[|t.world.log|].reply.code == 500;
    case Credentials(username, password) => assert log[|t.world.log|].Called?;
  }

  lemma PromptsDoNotRefuse(log: seq<Event>, next: seq<Event>)
    requires log != [] && log[|log| - 1].Received? && log <= next && OnlyPrompts(next, |log|)
    ensures !next[|next| - 1].Called? && !EndsRefused(next)
  {
    if |next| > |log| {
      assert OnlyPrompts(next, |log|);
    }
  }

  lemma AuthenticateEnds(cfg: Config, w: World, mechanism: AuthMethod, initial: Option<bytes>)
    requires w.log != [] && w.log[|w.log| - 1].Received?
    ensures
      var t := DoAuthenticate(cfg, w, mechanism, initial);
      && !t.status.Closed? && w.log <= t.world.log
      && (t.status.Broken? <==> EndsRefused(t.world.log) || OnlyPrompts(t.world.log, |w.log|))
  {
    hide HandleAuth;
    hide FinishAuth;
    hide EndsRefused;
    match AuthRefusal(cfg, w)
    case Some(r) => RefusalGoesOn(w, r);
    case None =>
      var t := HandleAuth(cfg, w, mechanism, initial);
      DialogueIsPrompts(cfg, w, mechanism, initial);
      PromptsDoNotRefuse(w.log, t.world.log);
      FinishEnds(cfg, t, |w.log|);
  }

  lemma RefusalGoesOn(w: World, r: Response)
    requires r.code == 503 || r.code == 500
    ensures !EndsRefused(w.Say(r).log) && !OnlyPrompts(w.Say(r).log, |w.log|)
  {
    assert w.Say(r).log[|w.log|] == Sent(r);
  }

  lemma ExecuteEnds(cfg: Config, w: World, line: bytes, rest: bytes, c: Command)
    requires w.state.phase != Data && Parse(cfg.lossy, line) == Success(c)
    ensures
      var heard := w.Hear(line, rest);
      var t := Execute(cfg, heard, c);
      && t.world.log != [] && (t.status.Broken? <==> GivesUp(cfg, w, line, t.world.log))
      && (t.status.Closed? <==> c.Quit?) && (t.status.Closed? ==> t.world.log == heard.log + [Sent(GOODBYE)])
  {
    hide DoHello;
    hide DoAuthenticate;
    hide Parse;
    hide Topics;
    hide NormalizeAddress;
    hide EndsRefused;
    hide OnlyPrompts;
    var heard := w.Hear(line, rest);
    match c
    case Hello(domain, extended) => HelloEnds(cfg, heard, domain, extended);
    case Authenticate(mechanism, initial) => AuthenticateEnds(cfg, heard, mechanism, initial);
    case _ =>
  }

  /** A session ends on a line exactly if it is QUIT, answered by 221, or the loop gives up on
      it; and otherwise only where no line can be read. */
  lemma EndsForAReason(cfg: Config, w: World)
    ensures
      var t := Step(cfg, w);
      match ReadFlat(w.input)
      case Line(line, _) =>
        && t.world.log != [] && (t.status.Broken? <==> GivesUp(cfg, w, line, t.world.log))
        && (t.status.Closed? <==> w.state.phase != Data && Parse(cfg.lossy, line) == Success(Quit))
        && (t.status.Closed? ==> IsReplyOf(t.world.log[|t.world.log| - 1], 221))
      case _ => t == Turn(w, Broken)
  {
    hide Parse;
    hide Execute;
    hide GivesUp;
    match ReadFlat(w.input)
    case Line(line, rest) =>
      if w.state.phase == Data {
        BodyEnds(cfg, w, line, rest);
      } else {
        match Parse(cfg.lossy, line)
        case Success(c) => ExecuteEnds(cfg, w, line, rest, c);
        case Failure(_) => ErrorGoesOn(cfg, w, line);
      }
    case _ =>
  }

  lemma ErrorGoesOn(cfg: Config, w: World, line: bytes)
    requires w.state.phase != Data && Parse(cfg.lossy, line).Failure?
    ensures forall log :: log != [] ==> !GivesUp(cfg, w, line, log)
  {
    hide Parse;
  }

  lemma BodyEnds(cfg: Config, w: World, line: bytes, rest: bytes)
    requires w.state.phase == Data
    ensures
      var t := Process(cfg, w.Hear(line, rest), line);
      && t.world.log != [] && (t.status.Broken? <==> GivesUp(cfg, w, line, t.world.log)) && !t.status.Closed?
  {
    hide Parse;
    hide IsTerminator;
    hide Unstuff;
  }

  // ---- What a code means -------------------------------------------------------------------------

  /** To a client that sent `c`, the code is a prompt, or the sign that `c` took effect, or
      belongs to a command without effect on the state it can see, or is a refusal; RSET,
      NOOP, HELP and QUIT are never refused. */
  predicate Means(c: Command, code: nat) {
    match c
    case Reset => code == 250
    case NoOp => code == 250
    case Help => code == 250 || code == 214
    case Quit => code == 221
    case Recipient(_) => code == 250 || 500 <= code < 600
    case Authenticate(_, _) => code == 334 || code == 235 || 500 <= code < 600
    case _ => Moves(c, code) || 500 <= code < 600
  }

  ghost predicate AllMean(c: Command, log: seq<Event>, start: nat) {
    forall k :: start <= k < |log| && log[k].Sent? ==> Means(c, log[k].reply.code)
  }

  lemma {:induction false} SayAllMean(w: World, c: Command, rs: seq<Response>)
    requires forall i :: 0 <= i < |rs| ==> Means(c, rs[i].code)
    ensures AllMean(c, w.SayAll(rs).log, |w.log|)
    decreases rs
  {
    hide Means;
    if rs == [] {
    } else {
      SayAllMean(w.Say(rs[0]), c, rs[1..]);
      var log := w.SayAll(rs).log;
      assert log[|w.log|] == w.Say(rs[0]).log[|w.log|];
    }
  }

  lemma HelloMeans(cfg: Config, w: World, c: Command)
    requires c.Hello?
    ensures AllMean(c, DoHello(cfg, w, c.domain, c.extended).world.log, |w.log|)
  {
    hide Greeting;
    var asked := w.Ask(cfg, OnHello(c.domain, c.extended));
    GreetingIsOneReply(cfg, w.link, c.extended);
    SayAllMean(asked, c, Greeting(cfg, w.link, c.extended));
  }

  lemma AuthenticateMeans(cfg: Config, w: World, c: Command)
    requires c.Authenticate?
    ensures AllMean(c, DoAuthenticate(cfg, w, c.mechanism, c.initial).world.log, |w.log|)
  {
    hide HandleAuth;
    DialogueIsPrompts(cfg, w, c.mechanism, c.initial);
  }

  lemma ExecuteMeans(cfg: Config, w: World, c: Command)
    ensures AllMean(c, Execute(cfg, w, c).world.log, |w.log|)
  {
    hide DoHello;
    hide DoAuthenticate;
    hide Topics;
    hide NormalizeAddress;
    match c
    case Hello(_, _) => HelloMeans(cfg, w, c);
    case Authenticate(_, _) => AuthenticateMeans(cfg, w, c);
    case _ =>
  }

  /** Every reply to a command has a code that means something for that command: what does
      not take effect is refused by a code of 500 or more. */
  lemma CodesHaveMeaning(cfg: Config, w: World, line: bytes, rest: bytes, c: Command)
    requires w.state.phase != Data && ReadFlat(w.input) == Line(line, rest) && Parse(cfg.lossy, line) == Success(c)
    ensures AllMean(c, Step(cfg, w).world.log, |w.log|)
  {
    hide Parse;
    hide Execute;
    hide Means;
    ExecuteMeans(cfg, w.Hear(line, rest), c);
    var log := Step(cfg, w).world.log;
    assert log[|w.log|] == w.Hear(line, rest).log[|w.log|];
  }

  // ---- Transactions in numbers --------------------------------------------------------------------

  /** The phase in which the command is in order. */
  function PhaseFor(c: Command): Phase {
    if c.MailFrom? then Greeted else Envelope
  }

  /** MAIL, RCPT and DATA, wherever the session waits for a line: one reply each; 503 out of
      order, 530 without a login that is in force where logins are configured, and otherwise
      250, or 354 for DATA. */
  lemma TransactionCodes(cfg: Config, link: Link, input: bytes, n: nat, line: bytes, rest: bytes, c: Command)
    requires Turns(cfg, Start(cfg, link, input), n).status.Live?
    requires
      var w := Turns(cfg, Start(cfg, link, input), n).world;
      w.state.phase != Data && ReadFlat(w.input) == Line(line, rest) && Parse(cfg.lossy, line) == Success(c)
    requires c.MailFrom? || c.Recipient? || c.DataStart?
    ensures
      var w := Turns(cfg, Start(cfg, link, input), n).world;
      var t := Step(cfg, w);
      t.status.Live? && exists r: Response ::
        && t.world.log == w.log + [Received(line)] + [Sent(r)] && !r.hasNext
        && r.code == (if w.state.phase != PhaseFor(c) then 503
                      else if cfg.HasAuth() && !InForce(w.log, |w.log|, true) then 530
                      else if c.DataStart? then 354 else 250)
  {
    hide Turns;
    hide InForce;
    hide Parse;
    hide NormalizeAddress;
    var w := Turns(cfg, Start(cfg, link, input), n).world;
    StateIsInForce(cfg, link, input, n);
    var heard := w.Hear(line, rest);
    var refusal := Refusal(cfg, heard, PhaseFor(c));
    var r := if refusal.Some? then refusal.value else if c.DataStart? then DATA_START else OK;
    assert Step(cfg, w) == Execute(cfg, heard, c);
    assert Execute(cfg, heard, c).world.log == heard.log + [Sent(r)];
  }

  // ---- Greeting, login and upgrade in numbers --------------------------------------------------------

  /** The code with which HELO, EHLO, AUTH and STARTTLS are refused at once, from what the
      log says: whether a greeting is in force, the phase the client knows of, and whether
      there was an upgrade. */
  ghost function RefusalCode(cfg: Config, acceptor: bool, log: seq<Event>, c: Command): Option<nat> {
    var phase := Booked(cfg, log).view.phase;
    match c
    case Hello(_, _) => if InForce(log, |log|, false) then Some(503) else None
    case Authenticate(_, _) =>
      if phase != Greeted then Some(503)
      else if cfg.authMode == NoAuth then Some(500)
      else if cfg.authMode == RequireTls && !HasUpgrade(log) then Some(503)
      else None
    case StartTls =>
      if !acceptor || HasUpgrade(log) then Some(500) else if phase != Greeted then Some(503) else None
    case _ => None
  }

  /** The line was refused by one reply with this code, and changed nothing. */
  ghost predicate RefusedBy(t: Turn, heard: World, code: nat) {
    t.status.Live? && exists r: Response :: r.code == code && !r.hasNext && t.world == heard.Say(r)
  }

  /** What a command that is not refused does first: HELO and EHLO ask the handler, STARTTLS
      announces the handshake. */
  ghost predicate SetsAbout(cfg: Config, heard: World, next: seq<Event>, c: Command) {
    match c
    case Hello(domain, extended) =>
      |heard.log| < |next| && next[|heard.log|] == Called(OnHello(domain, extended), cfg.answers(heard.calls))
    case StartTls => |heard.log| < |next| && IsReplyOf(next[|heard.log|], 220)
    case _ => |heard.log| < |next| ==> !IsReplyOf(next[|heard.log|], 503)
  }

  lemma GuardsAre(cfg: Config, acceptor: bool, w: World, heard: World, c: Command)
    requires c.Hello? || c.Authenticate? || c.StartTls?
    requires heard.state == w.state && heard.link == w.link
    requires InOrder(cfg, w) && (w.state.phase != Connected <==> InForce(w.log, |w.log|, false))
    requires (w.link == Plain(acceptor) && !HasUpgrade(w.log)) || (w.link.Tls? && HasUpgrade(w.log))
    ensures
      var t, code := Execute(cfg, heard, c), RefusalCode(cfg, acceptor, w.log, c);
      if code.Some? then RefusedBy(t, heard, code.value) else SetsAbout(cfg, heard, t.world.log, c)
  {
    hide Booked;
    hide InForce;
    hide HasUpgrade;
    match c
    case Hello(domain, extended) => HelloGuard(cfg, heard, domain, extended);
    case Authenticate(mechanism, initial) => AuthGuard(cfg, heard, mechanism, initial);
    case StartTls => StartTlsGuard(cfg, heard);
  }

  lemma HelloGuard(cfg: Config, w: World, domain: string, extended: bool)
    ensures
      var t := DoHello(cfg, w, domain, extended);
      if w.state.phase != Connected then RefusedBy(t, w, 503)
      else SetsAbout(cfg, w, t.world.log, Hello(domain, extended))
  {
    hide Greeting;
    if w.state.phase != Connected {
      assert DoHello(cfg, w, domain, extended).world == w.Say(BAD_SEQUENCE);
    } else {
      var asked := w.Ask(cfg, OnHello(domain, extended));
      assert DoHello(cfg, w, domain, extended).world.log[|w.log|] == asked.log[|w.log|];
    }
  }

  lemma AuthGuard(cfg: Config, w: World, mechanism: AuthMethod, initial: Option<bytes>)
    ensures
      var t := DoAuthenticate(cfg, w, mechanism, initial);
      match AuthRefusal(cfg, w)
      case Some(r) => RefusedBy(t, w, r.code)
      case None => SetsAbout(cfg, w, t.world.log, Authenticate(mechanism, initial))
  {
    hide HandleAuth;
    match AuthRefusal(cfg, w)
    case Some(r) => assert DoAuthenticate(cfg, w, mechanism, initial).world == w.Say(r);
    case None => PromptsFirst(cfg, w, mechanism, initial);
  }

  lemma StartTlsGuard(cfg: Config, w: World)
    ensures
      var t := DoStartTls(cfg, w);
      if !w.link.SupportsTls() then RefusedBy(t, w, 500)
      else if w.state.phase != Greeted then RefusedBy(t, w, 503)
      else SetsAbout(cfg, w, t.world.log, StartTls)
  {
    if !w.link.SupportsTls() {
      assert DoStartTls(cfg, w).world == w.Say(SyntaxError(Some("TLS not supported")));
    } else if w.state.phase != Greeted {
      assert DoStartTls(cfg, w).world == w.Say(BAD_SEQUENCE);
    } else {
      assert DoStartTls(cfg, w).world.log[|w.log|] == Sent(START_TLS);
    }
  }

  /** Wherever the session waits for a line, HELO, EHLO, AUTH and STARTTLS are refused exactly
      as the log says, by that code and without effect, and otherwise begin their work. */
  lemma GuardCodes(cfg: Config, acceptor: bool, input: bytes, n: nat, line: bytes, rest: bytes, c: Command)
    requires Turns(cfg, Start(cfg, Plain(acceptor), input), n).status.Live?
    requires
      var w := Turns(cfg, Start(cfg, Plain(acceptor), input), n).world;
      w.state.phase != Data && ReadFlat(w.input) == Line(line, rest) && Parse(cfg.lossy, line) == Success(c)
    requires c.Hello? || c.Authenticate? || c.StartTls?
    ensures
      var w := Turns(cfg, Start(cfg, Plain(acceptor), input), n).world;
      var t, heard, code := Step(cfg, w), w.Hear(line, rest), RefusalCode(cfg, acceptor, w.log, c);
      if code.Some? then RefusedBy(t, heard, code.value) else SetsAbout(cfg, heard, t.world.log, c)
  {
    hide Turns;
    hide InForce;
    hide InOrder;
    hide Parse;
    hide Execute;
    hide HasUpgrade;
    hide Explained;
    hide RefusalCode;
    hide RefusedBy;
    hide SetsAbout;
    var start := Start(cfg, Plain(acceptor), input);
    var w := Turns(cfg, start, n).world;
    StateIsInForce(cfg, Plain(acceptor), input, n);
    TurnsAreInOrder(cfg, Plain(acceptor), input, n);
    TurnsKeepLink(cfg, start, n);
    StartExplained(cfg, acceptor, input);
    var from, m := TurnsAreExplained(cfg, start, n, "", Marks(0, 0, 0, 0, 0));
    ExplainedLink(cfg, w, from, m);
    GuardsAre(cfg, acceptor, w, w.Hear(line, rest), c);
  }
}
