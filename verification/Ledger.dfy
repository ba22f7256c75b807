/** The state of a session, read back from its log: by the client, who sees only lines and
    reply codes, and by the handler, who sees only calls. Every transaction is accounted for. */
module Ledger {
  import opened Wrappers
  import opened Bytes
  import opened Commands
  import opened MailObject
  import opened Responses
  import opened Protocol
  import opened History
  import opened Discipline

  // ---- The client's view ------------------------------------------------------------------

  /** What the client knows: the phase, whether it is logged in, the command it sent last,
      and whether it is being prompted. */
  datatype View = View(phase: Phase, loggedIn: bool, command: Option<Command>, prompted: bool)

  const FIRST_VIEW := View(Connected, false, None, false)

  function CommandOn(cfg: Config, line: bytes): Option<Command> {
    match Parse(cfg.lossy, line)
    case Success(c) => Some(c)
    case Failure(_) => None
  }

  /** The client sent a line: more of a body, or its end, or an answer to a prompt, or a command. */
  function ClientSends(cfg: Config, v: View, line: bytes): View {
    if v.phase == Data then (if IsTerminator(line) then v.(phase := Greeted, command := None) else v)
    else if v.prompted then v.(prompted := false)
    else v.(command := CommandOn(cfg, line))
  }

  /** The client read a reply: the code says whether its command took effect. */
  function ClientReads(v: View, code: nat): View {
    var v := v.(prompted := code == 334);
    match v.command
    case Some(Hello(_, _)) => if code == 250 then v.(phase := Greeted) else v
    case Some(Authenticate(_, _)) => if code == 235 then v.(loggedIn := true) else v
    case Some(MailFrom(_)) => if code == 250 then v.(phase := Envelope) else v
    case Some(DataStart) => if code == 354 then v.(phase := Data) else v
    case Some(Reset) => if code == 250 then v.(phase := Connected, loggedIn := false) else v
    case Some(StartTls) => if code == 220 then v.(phase := Connected, loggedIn := false) else v
    case _ => v
  }

  // ---- The handler's view -----------------------------------------------------------------

  /** What the calls say: whether a greeting and a login are in force; and the transactions:
      MAILs and DATAs accepted, mails handed over, envelopes that RSET dropped, and whether
      an envelope or a body is open. */
  datatype Sums = Sums(greeted: bool, loggedIn: bool,
                       mails: nat, bodies: nat, delivered: nat, dropped: nat, open: bool, inBody: bool)

  const NO_SUMS := Sums(false, false, 0, 0, 0, 0, false, false)

  predicate AsksForMail(c: Option<Command>) { c.Some? && c.value.MailFrom? }

  predicate AsksForData(c: Option<Command>) { c.Some? && c.value.DataStart? }

  function Sum(s: Sums, command: Option<Command>, e: Event): Sums {
    match e
    case Received(_) => s
    case Sent(r) =>
      if r.code == 354 && AsksForData(command) then s.(bodies := s.bodies + 1, open := false, inBody := true)
      else if r.code == 250 && AsksForMail(command) then s.(mails := s.mails + 1, open := true)
      else s
    case Called(OnHello(_, _), answer) => if answer.Accept? then s.(greeted := true) else s
    case Called(OnLogin(_, _), answer) => if answer.Accept? then s.(loggedIn := true) else s
    case Called(OnMail(_), _) => s.(delivered := s.delivered + 1, inBody := false)
    case Called(OnReset, _) =>
      s.(greeted := false, loggedIn := false, dropped := s.dropped + (if s.open then 1 else 0), open := false)
    case Upgraded(_) => s.(greeted := false, loggedIn := false)
  }

  // ---- The book ---------------------------------------------------------------------------

  datatype Book = Book(view: View, sums: Sums)

  function Enter(cfg: Config, b: Book, e: Event): Book {
    var sums := Sum(b.sums, b.view.command, e);
    match e
    case Received(line) => Book(ClientSends(cfg, b.view, line), sums)
    case Sent(r) => Book(ClientReads(b.view, r.code), sums)
    case _ => b.(sums := sums)
  }

  function Booked(cfg: Config, log: seq<Event>): Book {
    if log == [] then Book(FIRST_VIEW, NO_SUMS)
    else Enter(cfg, Booked(cfg, log[..|log| - 1]), log[|log| - 1])
  }

  lemma BookedSnoc(cfg: Config, log: seq<Event>, e: Event)
    ensures Booked(cfg, log + [e]) == Enter(cfg, Booked(cfg, log), e)
  {
    assert (log + [e])[..|log|] == log;
  }

  /** No transaction is lost or counted twice, and the state says which one is open and what
      is in force. */
  ghost predicate Conserved(s: Sums, state: State) {
    && s.mails == s.delivered + s.dropped + (if state.phase.Envelope? || state.phase.Data? then 1 else 0)
    && s.bodies == s.delivered + (if state.phase.Data? then 1 else 0)
    && (s.open <==> state.phase.Envelope?) && (s.inBody <==> state.phase.Data?)
    && (s.greeted <==> !state.phase.Connected?) && (s.loggedIn <==> state.isAuthenticated)
  }

  /** The client knows the state of the session. */
  predicate Knows(v: View, state: State) {
    v.phase == state.phase && v.loggedIn == state.isAuthenticated
  }

  ghost predicate InOrder(cfg: Config, w: World) {
    var b := Booked(cfg, w.log);
    Conserved(b.sums, w.state) && Knows(b.view, w.state) && !b.view.prompted
  }

  /** The session has heard `c`, outside a body, and the books are in order. */
  ghost predicate Asked(cfg: Config, w: World, c: Command) {
    InOrder(cfg, w) && w.state.phase != Data && Booked(cfg, w.log).view.command == Some(c)
  }

  // ---- Steps that no book notices -----------------------------------------------------------

  /** A code that tells the client that its command took effect. */
  predicate Moves(c: Command, code: nat) {
    match c
    case Hello(_, _) => code == 250
    case Authenticate(_, _) => code == 235
    case MailFrom(_) => code == 250
    case DataStart => code == 354
    case Reset => code == 250
    case StartTls => code == 220
    case _ => false
  }

  ghost predicate SameBook(cfg: Config, w: World, next: World, prompted: bool) {
    var b, c := Booked(cfg, w.log), Booked(cfg, next.log);
    c == b.(view := b.view.(prompted := prompted))
  }

  lemma SayIsIdle(cfg: Config, w: World, r: Response)
    requires var c := Booked(cfg, w.log).view.command; c.Some? ==> !Moves(c.value, r.code)
    ensures SameBook(cfg, w, w.Say(r), r.code == 334)
  {
    BookedSnoc(cfg, w.log, Sent(r));
    hide Booked;
  }

  lemma AnswerIsIdle(cfg: Config, w: World, line: bytes, rest: bytes)
    requires Booked(cfg, w.log).view.prompted && Booked(cfg, w.log).view.phase != Data
    ensures SameBook(cfg, w, w.Hear(line, rest), false)
  {
    BookedSnoc(cfg, w.log, Received(line));
    hide Booked;
  }

  lemma PromptIsIdle(cfg: Config, w: World, prompt: Response)
    requires var c := Booked(cfg, w.log).view.command; c.Some? ==> !Moves(c.value, 334)
    requires prompt.code == 334 && Booked(cfg, w.log).view.phase != Data
    ensures SameBook(cfg, w, Prompt(w, prompt).world, !Prompt(w, prompt).Reply?)
  {
    hide Booked;
    SayIsIdle(cfg, w, prompt);
    match ReadFlat(w.input)
    case Line(line, rest) => AnswerIsIdle(cfg, w.Say(prompt), line, rest);
    case _ =>
  }

  lemma AskPasswordIsIdle(cfg: Config, w: World, username: bytes)
    requires var c := Booked(cfg, w.log).view.command; c.Some? ==> !Moves(c.value, 334)
    requires !Booked(cfg, w.log).view.prompted && Booked(cfg, w.log).view.phase != Data
    ensures
      var t := AskPassword(cfg, w, username);
      SameBook(cfg, w, t.world, Booked(cfg, t.world.log).view.prompted)
      && (t.result.Credentials? ==> !Booked(cfg, t.world.log).view.prompted)
  {
    hide Booked;
    hide Prompt;
    hide DecodeBase64;
    PromptIsIdle(cfg, w, AUTH_CHALLENGE_LOGIN_PASSWORD);
  }

  lemma HandleAuthIsIdle(cfg: Config, w: World, mechanism: AuthMethod, initial: Option<bytes>)
    requires var c := Booked(cfg, w.log).view.command; c.Some? ==> !Moves(c.value, 334)
    requires !Booked(cfg, w.log).view.prompted && Booked(cfg, w.log).view.phase != Data
    ensures
      var t := HandleAuth(cfg, w, mechanism, initial);
      SameBook(cfg, w, t.world, Booked(cfg, t.world.log).view.prompted)
      && (t.result.Credentials? ==> !Booked(cfg, t.world.log).view.prompted)
  {
    hide Booked;
    hide Prompt;
    hide AskPassword;
    hide PlainCredentials;
    hide Moves;
    match (mechanism, initial)
    case (AuthPlain, Some(_)) =>
    case (AuthPlain, None) => PromptIsIdle(cfg, w, AUTH_CHALLENGE_PLAIN);
    case (AuthLogin, Some(username)) => AskPasswordIsIdle(cfg, w, username);
    case (AuthLogin, None) =>
      PromptIsIdle(cfg, w, AUTH_CHALLENGE_LOGIN_USERNAME);
      var p := Prompt(w, AUTH_CHALLENGE_LOGIN_USERNAME);
      if p.Reply? {
        AskPasswordIsIdle(cfg, p.world, p.line);
      }
  }

  // ---- Turns ------------------------------------------------------------------------------

  /** A reply that refuses the command. */
  lemma RefusalBooks(cfg: Config, w: World, c: Command, r: Response)
    requires Asked(cfg, w, c) && !Moves(c, r.code) && r.code != 334
    ensures InOrder(cfg, w.Say(r))
  {
    hide Booked;
    hide Moves;
    SayIsIdle(cfg, w, r);
  }

  /** The lines of a greeting: the first one tells the client that it is greeted. */
  lemma {:induction false} SayAllGreets(cfg: Config, w: World, rs: seq<Response>)
    requires AsksForHello(Booked(cfg, w.log).view.command) && forall i :: 0 <= i < |rs| ==> rs[i].code == 250
    ensures
      var b, end := Booked(cfg, w.log), Booked(cfg, w.SayAll(rs).log);
      && end.sums == b.sums && end.view.loggedIn == b.view.loggedIn
      && (|rs| > 0 ==> end.view.phase == Greeted && !end.view.prompted)
    decreases rs
  {
    hide Booked;
    if rs == [] {
    } else {
      BookedSnoc(cfg, w.log, Sent(rs[0]));
      SayAllGreets(cfg, w.Say(rs[0]), rs[1..]);
    }
  }

  predicate AsksForHello(c: Option<Command>) { c.Some? && c.value.Hello? }

  lemma HelloBooks(cfg: Config, w: World, c: Command)
    requires Asked(cfg, w, c) && c.Hello?
    ensures
      var t := DoHello(cfg, w, c.domain, c.extended);
      t.status.Live? ==> InOrder(cfg, t.world)
  {
    hide Booked;
    hide Greeting;
    if w.state.phase != Connected {
      RefusalBooks(cfg, w, c, BAD_SEQUENCE);
    } else {
      var call := OnHello(c.domain, c.extended);
      BookedSnoc(cfg, w.log, Called(call, cfg.answers(w.calls)));
      GreetingIsOneReply(cfg, w.link, c.extended);
      SayAllGreets(cfg, w.Ask(cfg, call), Greeting(cfg, w.link, c.extended));
    }
  }

  lemma HelpBooks(cfg: Config, w: World, c: Command)
    requires Asked(cfg, w, c) && c.Help?
    ensures InOrder(cfg, DoHelp(cfg, w).world)
  {
    hide Booked;
    hide Topics;
    var first := NewContinued(250, "Commands supported");
    SayIsIdle(cfg, w, first);
    SayIsIdle(cfg, w.Say(first), New(214, Topics(cfg, w.link)));
  }

  lemma StartTlsBooks(cfg: Config, w: World, c: Command)
    requires Asked(cfg, w, c) && c.StartTls?
    ensures
      var t := DoStartTls(cfg, w);
      t.status.Live? ==> InOrder(cfg, t.world)
  {
    hide Booked;
    if !w.link.SupportsTls() {
      RefusalBooks(cfg, w, c, SyntaxError(Some("TLS not supported")));
    } else if w.state.phase != Greeted {
      RefusalBooks(cfg, w, c, BAD_SEQUENCE);
    } else {
      BookedSnoc(cfg, w.log, Sent(START_TLS));
      BookedSnoc(cfg, w.Say(START_TLS).log, Upgraded(w.input));
    }
  }

  lemma FinishBooks(cfg: Config, w: World, t: AuthTurn, c: Command)
    requires Asked(cfg, w, c) && c.Authenticate? && w.state.phase == Greeted && t.world.state == w.state
    requires SameBook(cfg, w, t.world, Booked(cfg, t.world.log).view.prompted)
    requires t.result.Credentials? ==> !Booked(cfg, t.world.log).view.prompted
    ensures
      var end := FinishAuth(cfg, t);
      end.status.Live? ==> InOrder(cfg, end.world)
  {
    hide Booked;
    match t.result
    case Abort =>
    case Malformed(err) => SayIsIdle(cfg, t.world, SyntaxError(Some(err)));
    case Credentials(username, password) =>
      var call := OnLogin(username, password);
      BookedSnoc(cfg, t.world.log, Called(call, cfg.answers(t.world.calls)));
      BookedSnoc(cfg, t.world.Ask(cfg, call).log, Sent(AUTH_OK));
  }

  lemma AuthenticateBooks(cfg: Config, w: World, c: Command)
    requires Asked(cfg, w, c) && c.Authenticate?
    ensures
      var t := DoAuthenticate(cfg, w, c.mechanism, c.initial);
      t.status.Live? ==> InOrder(cfg, t.world)
  {
    hide Booked;
    hide HandleAuth;
    hide FinishAuth;
    match AuthRefusal(cfg, w)
    case Some(r) => RefusalBooks(cfg, w, c, r);
    case None =>
      HandleAuthIsIdle(cfg, w, c.mechanism, c.initial);
      FinishBooks(cfg, w, HandleAuth(cfg, w, c.mechanism, c.initial), c);
  }

  lemma MailBooks(cfg: Config, w: World, c: Command)
    requires Asked(cfg, w, c) && c.MailFrom?
    ensures InOrder(cfg, DoMail(cfg, w, c.from).world)
  {
    hide NormalizeAddress;
    hide Booked;
    match Refusal(cfg, w, Greeted)
    case Some(r) => RefusalBooks(cfg, w, c, r);
    case None => BookedSnoc(cfg, w.log, Sent(OK));
  }

  lemma RecipientBooks(cfg: Config, w: World, c: Command)
    requires Asked(cfg, w, c) && c.Recipient?
    ensures InOrder(cfg, DoRecipient(cfg, w, c.to).world)
  {
    hide NormalizeAddress;
    hide Booked;
    match Refusal(cfg, w, Envelope)
    case Some(r) => RefusalBooks(cfg, w, c, r);
    case None => SayIsIdle(cfg, w, OK);
  }

  lemma DataBooks(cfg: Config, w: World, c: Command)
    requires Asked(cfg, w, c) && c.DataStart?
    ensures InOrder(cfg, DoData(cfg, w).world)
  {
    hide Booked;
    match Refusal(cfg, w, Envelope)
    case Some(r) => RefusalBooks(cfg, w, c, r);
    case None => BookedSnoc(cfg, w.log, Sent(DATA_START));
  }

  lemma ResetBooks(cfg: Config, w: World, c: Command)
    requires Asked(cfg, w, c) && c.Reset?
    ensures InOrder(cfg, DoReset(cfg, w).world)
  {
    hide Booked;
    var said := w.(state := NEW_STATE).Say(RESET);
    BookedSnoc(cfg, w.log, Sent(RESET));
    BookedSnoc(cfg, said.log, Called(OnReset, cfg.answers(w.calls)));
  }

  lemma NoOpBooks(cfg: Config, w: World, c: Command)
    requires Asked(cfg, w, c) && c.NoOp?
    ensures InOrder(cfg, w.Say(OK))
  {
    RefusalBooks(cfg, w, c, OK);
  }

  lemma ExecuteBooks(cfg: Config, w: World, c: Command)
    requires Asked(cfg, w, c) && Execute(cfg, w, c).status.Live?
    ensures InOrder(cfg, Execute(cfg, w, c).world)
  {
    hide Asked;
    hide InOrder;
    hide DoHello;
    hide DoHelp;
    hide DoStartTls;
    hide DoAuthenticate;
    hide DoMail;
    hide DoRecipient;
    hide DoData;
    hide DoReset;
    match c
    case Hello(_, _) => HelloBooks(cfg, w, c);
    case Help => HelpBooks(cfg, w, c);
    case StartTls => StartTlsBooks(cfg, w, c);
    case Authenticate(_, _) => AuthenticateBooks(cfg, w, c);
    case MailFrom(_) => MailBooks(cfg, w, c);
    case Recipient(_) => RecipientBooks(cfg, w, c);
    case DataStart => DataBooks(cfg, w, c);
    case Reset => ResetBooks(cfg, w, c);
    case NoOp => NoOpBooks(cfg, w, c);
    case Quit =>
  }

  lemma DeliverBooks(cfg: Config, w: World, line: bytes, rest: bytes)
    requires InOrder(cfg, w) && w.state.phase == Data && IsTerminator(line)
    ensures InOrder(cfg, Deliver(cfg, w.Hear(line, rest)).world)
  {
    hide Booked;
    hide IsTerminator;
    var heard, call := w.Hear(line, rest), OnMail(w.state.currentMail);
    var asked, next := heard.Ask(cfg, call), Deliver(cfg, heard).world;
    BookedSnoc(cfg, w.log, Received(line));
    BookedSnoc(cfg, heard.log, Called(call, cfg.answers(w.calls)));
    BookedSnoc(cfg, asked.log, next.log[|asked.log|]);
  }

  lemma CaptureBooks(cfg: Config, w: World, line: bytes, rest: bytes)
    requires InOrder(cfg, w) && w.state.phase == Data && !IsTerminator(line)
    ensures InOrder(cfg, w.Hear(line, rest)) && w.Hear(line, rest).state == w.state
  {
    hide Booked;
    hide IsTerminator;
    BookedSnoc(cfg, w.log, Received(line));
  }

  lemma StoreBooks(cfg: Config, w: World, line: bytes)
    requires InOrder(cfg, w) && w.state.phase == Data && Capture(cfg, w, line).status.Live?
    ensures InOrder(cfg, Capture(cfg, w, line).world)
  {
    hide Booked;
    hide Unstuff;
  }

  lemma HearBooks(cfg: Config, w: World, line: bytes, rest: bytes)
    requires InOrder(cfg, w) && w.state.phase != Data
    ensures InOrder(cfg, w.Hear(line, rest))
    ensures Booked(cfg, w.Hear(line, rest).log).view.command == CommandOn(cfg, line)
  {
    hide Booked;
    hide CommandOn;
    BookedSnoc(cfg, w.log, Received(line));
  }

  lemma ErrorBooks(cfg: Config, w: World, r: Response)
    requires InOrder(cfg, w) && Booked(cfg, w.log).view.command.None? && r.code == 500
    ensures InOrder(cfg, w.Say(r))
  {
    hide Booked;
    SayIsIdle(cfg, w, r);
  }

  lemma StepBooks(cfg: Config, w: World)
    requires InOrder(cfg, w) && Step(cfg, w).status.Live?
    ensures InOrder(cfg, Step(cfg, w).world)
  {
    hide InOrder;
    hide Booked;
    hide Parse;
    hide Execute;
    hide Deliver;
    hide Capture;
    hide IsTerminator;
    var Line(line, rest) := ReadFlat(w.input);
    var heard := w.Hear(line, rest);
    if w.state.phase == Data {
      if IsTerminator(line) {
        DeliverBooks(cfg, w, line, rest);
      } else {
        CaptureBooks(cfg, w, line, rest);
        StoreBooks(cfg, heard, line);
      }
    } else {
      HearBooks(cfg, w, line, rest);
      match Parse(cfg.lossy, line)
      case Success(c) => ExecuteBooks(cfg, heard, c);
      case Failure(err) => ErrorBooks(cfg, heard, SyntaxError(Some(err)));
    }
  }

  // ---- Every state between two lines ----------------------------------------------------------

  lemma {:induction false} TurnsAreInOrder(cfg: Config, link: Link, input: bytes, n: nat)
    requires Turns(cfg, Start(cfg, link, input), n).status.Live?
    ensures InOrder(cfg, Turns(cfg, Start(cfg, link, input), n).world)
  {
    hide InOrder;
    hide Step;
    if n == 0 {
      StartIsInOrder(cfg, link, input);
    } else {
      TurnsAreInOrder(cfg, link, input, n - 1);
      StepBooks(cfg, Turns(cfg, Start(cfg, link, input), n - 1).world);
    }
  }

  lemma StartIsInOrder(cfg: Config, link: Link, input: bytes)
    ensures InOrder(cfg, Start(cfg, link, input))
  {
    BookedSnoc(cfg, [], Sent(Banner(cfg.serverName)));
  }

  /** Wherever the session waits for a line, the accepted MAILs are the mails handed over,
      the envelopes dropped by RSET and the one that is open; the accepted DATAs are the
      mails handed over and the body that is open. */
  lemma TransactionsAreConserved(cfg: Config, link: Link, input: bytes, n: nat)
    requires Turns(cfg, Start(cfg, link, input), n).status.Live?
    ensures
      var w := Turns(cfg, Start(cfg, link, input), n).world;
      Conserved(Booked(cfg, w.log).sums, w.state)
  {
    hide Turns;
    hide Conserved;
    TurnsAreInOrder(cfg, link, input, n);
  }

  /** Wherever the session waits for a line, a client that looks only at the lines it sent
      and the codes it read knows the phase and whether it is logged in. */
  lemma ClientKnowsState(cfg: Config, link: Link, input: bytes, n: nat)
    requires Turns(cfg, Start(cfg, link, input), n).status.Live?
    ensures
      var w := Turns(cfg, Start(cfg, link, input), n).world;
      Knows(Booked(cfg, w.log).view, w.state)
  {
    hide Turns;
    hide Booked;
    TurnsAreInOrder(cfg, link, input, n);
  }

  // ---- What is in force -------------------------------------------------------------------------

  /** An accepted greeting, or login, with no RSET and no upgrade after it. */
  ghost predicate InForce(log: seq<Event>, n: nat, login: bool)
    requires n <= |log|
  {
    exists k :: 0 <= k < n && (if login then AcceptedLogin(log[k]) else AcceptedHello(log[k]))
                && forall j :: k < j < n ==> !IsCut(log[j])
  }

  lemma InForceSnoc(log: seq<Event>, n: nat, login: bool)
    requires 0 < n <= |log|
    ensures InForce(log, n, login) <==>
      !IsCut(log[n - 1])
      && (InForce(log, n - 1, login) || (if login then AcceptedLogin(log[n - 1]) else AcceptedHello(log[n - 1])))
  {
    if InForce(log, n, login) {
      var k :| 0 <= k < n && (if login then AcceptedLogin(log[k]) else AcceptedHello(log[k]))
               && forall j :: k < j < n ==> !IsCut(log[j]);
      assert k < n - 1 ==> InForce(log, n - 1, login);
    }
    if !IsCut(log[n - 1]) && InForce(log, n - 1, login) {
      var k :| 0 <= k < n - 1 && (if login then AcceptedLogin(log[k]) else AcceptedHello(log[k]))
               && forall j :: k < j < n - 1 ==> !IsCut(log[j]);
      assert forall j :: k < j < n ==> !IsCut(log[j]);
    }
  }

  lemma {:induction false} BookedInForce(cfg: Config, log: seq<Event>, n: nat)
    requires n <= |log|
    ensures Booked(cfg, log[..n]).sums.greeted <==> InForce(log, n, false)
    ensures Booked(cfg, log[..n]).sums.loggedIn <==> InForce(log, n, true)
  {
    hide InForce;
    hide ClientSends;
    hide ClientReads;
    if n == 0 {
      assert !InForce(log, 0, false) && !InForce(log, 0, true) by { NothingInForce(log); }
    } else {
      BookedInForce(cfg, log, n - 1);
      InForceSnoc(log, n, false);
      InForceSnoc(log, n, true);
      BookedSnoc(cfg, log[..n - 1], log[n - 1]);
      assert log[..n] == log[..n - 1] + [log[n - 1]];
    }
    hide Booked;
  }

  lemma NothingInForce(log: seq<Event>)
    ensures !InForce(log, 0, false) && !InForce(log, 0, true)
  {}

  /** Wherever the session waits for a line, it is greeted exactly if an accepted greeting,
      and authenticated exactly if an accepted login, has no RSET and no upgrade after it. */
  lemma StateIsInForce(cfg: Config, link: Link, input: bytes, n: nat)
    requires Turns(cfg, Start(cfg, link, input), n).status.Live?
    ensures
      var w := Turns(cfg, Start(cfg, link, input), n).world;
      && (w.state.phase != Connected <==> InForce(w.log, |w.log|, false))
      && (w.state.isAuthenticated <==> InForce(w.log, |w.log|, true))
  {
    hide Turns;
    hide Booked;
    hide InForce;
    var w := Turns(cfg, Start(cfg, link, input), n).world;
    TurnsAreInOrder(cfg, link, input, n);
    BookedInForce(cfg, w.log, |w.log|);
    assert w.log[..|w.log|] == w.log;
  }
}
