/** The session object: a loop over lines that arrive in arbitrary pieces, and whose
    every await may fail or time out. */
module Sessions {
  import opened Wrappers
  import opened Bytes
  import opened Commands
  import opened MailObject
  import opened Responses
  import opened Connections
  import opened Reader
  import P = Protocol
  import opened Protocol

  /** How a piece of session code ends: go on, return Ok, return an error of its own,
      or return the error of an await that failed or timed out. */
  datatype Flow = Continue | Return | Fail | Interrupted

  datatype AuthResult = AuthDone(result: Handshake) | AuthInterrupted

  class Session {
    const cfg: Config
    var connection: Connection?
    var phase: Phase
    var isAuthenticated: bool
    var currentMail: Mail

    /** Handler calls made so far. */
    var calls: nat
    /** How many more visible things happen before an await fails or times out. */
    var patience: nat
    /** What the outside world has seen. */
    var log: seq<Event>

    constructor (connection: Connection, cfg: Config, patience: nat)
      ensures this.cfg == cfg && this.connection == connection && fresh(Repr() - {connection})
      ensures this.patience == patience
      ensures World() == P.World(NEW_STATE, connection.link, connection.Input(), 0, [])
    {
      this.cfg, this.connection, this.patience := cfg, connection, patience;
      phase, isAuthenticated := Connected, false;
      currentMail := new Mail();
      calls, log := 0, [];
    }

    ghost function Repr(): set<object>
      reads this
    {
      {this, currentMail} + (if connection == null then {} else {connection as object})
    }

    function Budget(): nat
      reads this
    {
      patience + |log|
    }

    ghost function World(): P.World
      requires connection != null
      reads this, connection, currentMail
    {
      P.World(State(phase, isAuthenticated, currentMail.Value()), connection.link, connection.Input(), calls, log)
    }

    /** What has been done so far agrees with the turn `t` of the specification. */
    ghost predicate Refines(flow: Flow, t: Turn)
      reads this, connection, currentMail
    {
      match flow
      case Continue => t.status.Live? && connection != null && World() == t.world
      case Return => t.status.Closed? && log == t.world.log
      case Fail => t.status.Broken? && log == t.world.log
      case Interrupted => log <= t.world.log && patience == 0
    }

    method ResetState()
      requires connection != null
      modifies this`phase, this`isAuthenticated, this`currentMail
      ensures fresh(currentMail)
      ensures World() == old(World()).(state := NEW_STATE)
    {
      phase, isAuthenticated := Connected, false;
      currentMail := new Mail();
    }

    /** Do the next visible thing, if the awaits last that long. */
    method Emit(event: Event) returns (ok: bool)
      modifies this`patience, this`log
      ensures ok <==> old(patience) > 0
      ensures log == (if ok then old(log) + [event] else old(log)) && Budget() == old(Budget())
    {
      ok := patience > 0;
      if ok {
        log, patience := log + [event], patience - 1;
      }
    }

    method Reply(response: Response) returns (ok: bool)
      requires connection != null
      modifies this`patience, this`log
      ensures Budget() == old(Budget())
      ensures ok ==> World() == old(World()).Say(response)
      ensures !ok ==> log == old(log) && patience == 0
    {
      ok := Emit(Sent(response));
    }

    method Ask(call: Call) returns (ok: bool, answer: Answer)
      requires connection != null
      modifies this`patience, this`log, this`calls
      ensures Budget() == old(Budget())
      ensures ok ==> World() == old(World()).Ask(cfg, call) && answer == cfg.answers(old(calls))
      ensures !ok ==> log == old(log) && patience == 0
    {
      answer := cfg.answers(calls);
      ok := Emit(Called(call, answer));
      if ok {
        calls := calls + 1;
      }
    }

    /** Read one line, however its bytes arrive. */
    method ReadLine() returns (r: LineResult)
      requires connection != null
      modifies this`patience, this`log, connection
      ensures Budget() == old(Budget())
      ensures r.NoLine? ==> log == old(log) && patience == 0
      ensures !r.NoLine? ==>
        match ReadFlat(old(connection.Input()))
        case Line(line, rest) => r == GotLine(line) && World() == old(World()).Hear(line, rest)
        case Eof => r == CleanEof && World() == old(World())
        case _ => r == BadLine && log == old(log)
    {
      if patience == 0 {
        return NoLine;
      }
      r := CollectLine(connection);
      if r.GotLine? {
        var ok := Emit(Received(r.line));
      }
    }

    // ---- Commands -----------------------------------------------------------------

    method SayHello(domain: string, extended: bool) returns (flow: Flow)
      requires connection != null
      modifies this
      ensures Budget() == old(Budget())
      ensures connection == old(connection) && currentMail == old(currentMail)
      ensures Refines(flow, DoHello(cfg, old(World()), domain, extended))
    {
      if phase != Connected {
        var ok := Reply(BAD_SEQUENCE);
        return if ok then Continue else Interrupted;
      }
      var ok, answer := Ask(OnHello(domain, extended));
      if !ok {
        return Interrupted;
      }
      if answer.Refuse? {
        return Fail;
      }
      ok := ReplyAll(Greeting(cfg, connection.link, extended));
      if !ok {
        return Interrupted;
      }
      phase := Greeted;
      return Continue;
    }

    method ReplyAll(responses: seq<Response>) returns (ok: bool)
      requires connection != null
      modifies this`patience, this`log
      ensures Budget() == old(Budget())
      ensures ok ==> World() == old(World()).SayAll(responses)
      ensures !ok ==> log <= old(World()).SayAll(responses).log && patience == 0
    {
      ok := true;
      for i := 0 to |responses|
        invariant Budget() == old(Budget())
        invariant ok && World().SayAll(responses[i..]) == old(World()).SayAll(responses)
      {
        ghost var rest := responses[i..];
        assert rest[1..] == responses[i + 1..];
        ok := Reply(responses[i]);
        if !ok {
          return;
        }
      }
    }

    method SayHelp() returns (flow: Flow)
      requires connection != null
      modifies this
      ensures Budget() == old(Budget())
      ensures connection == old(connection) && currentMail == old(currentMail)
      ensures Refines(flow, DoHelp(cfg, old(World())))
    {
      var ok := Reply(NewContinued(250, "Commands supported"));
      if ok {
        ok := Reply(New(214, Topics(cfg, connection.link)));
      }
      return if ok then Continue else Interrupted;
    }

    method StartTls() returns (flow: Flow)
      requires connection != null
      modifies this
      ensures Budget() == old(Budget())
      ensures connection == null || connection == old(connection) || fresh(connection)
      ensures currentMail == old(currentMail) || fresh(currentMail)
      ensures Refines(flow, DoStartTls(cfg, old(World())))
    {
      if !connection.link.SupportsTls() {
        var ok := Reply(SyntaxError(Some("TLS not supported")));
        return if ok then Continue else Interrupted;
      }
      if phase != Greeted {
        var ok := Reply(BAD_SEQUENCE);
        return if ok then Continue else Interrupted;
      }
      var ok := Reply(START_TLS);
      if !ok || patience == 0 {
        return Interrupted;
      }
      var taken := connection;
      connection := null;
      connection := taken.StartTls(cfg.handshake);
      if connection == null {
        return Fail;
      }
      ok := Emit(Upgraded(taken.Input()));
      ResetState();
      return Continue;
    }

    /** Answer a prompt: GotLine, CleanEof, BadLine, or NoLine if an await failed. */
    method PromptLine(prompt: Response) returns (r: LineResult)
      requires connection != null
      modifies this`patience, this`log, connection
      ensures Budget() == old(Budget())
      ensures match r
              case GotLine(line) => Prompt(old(World()), prompt) == P.Challenge.Reply(World(), line)
              case CleanEof => Prompt(old(World()), prompt) == NoReply(World())
              case BadLine => Prompt(old(World()), prompt).Lost? && log == Prompt(old(World()), prompt).world.log
              case NoLine => log <= Prompt(old(World()), prompt).world.log && patience == 0
    {
      var ok := Reply(prompt);
      if !ok {
        return NoLine;
      }
      r := ReadLine();
    }

    /** The auth dialogue has gone as far as `t` says, or was interrupted on the way. */
    ghost predicate RefinesAuth(r: AuthResult, t: AuthTurn)
      reads this, connection, currentMail
    {
      match r
      case AuthDone(result) =>
        && result == t.result && log == t.world.log
        && (!result.Abort? ==> connection != null && World() == t.world)
      case AuthInterrupted => log <= t.world.log && patience == 0
    }

    method ReadPassword(username: bytes) returns (r: AuthResult)
      requires connection != null
      modifies this`patience, this`log, connection
      ensures Budget() == old(Budget())
      ensures RefinesAuth(r, AskPassword(cfg, old(World()), username))
    {
      var user := DecodeBase64(cfg, username);
      if user.None? {
        return AuthDone(Abort);
      }
      var answer := PromptLine(AUTH_CHALLENGE_LOGIN_PASSWORD);
      match answer
      case NoLine => r := AuthInterrupted;
      case BadLine => r := AuthDone(Abort);
      case CleanEof => r := AuthDone(Malformed("unexpected EOF in AUTH LOGIN challenge"));
      case GotLine(line) =>
        var password := DecodeBase64(cfg, line);
        r := AuthDone(if password.None? then Abort
                      else Credentials(cfg.lossy(user.value), cfg.lossy(password.value)));
    }

    method RunAuth(mechanism: AuthMethod, initial: Option<bytes>) returns (r: AuthResult)
      requires connection != null
      modifies this`patience, this`log, connection
      ensures Budget() == old(Budget())
      ensures RefinesAuth(r, HandleAuth(cfg, old(World()), mechanism, initial))
    {
      var payload: bytes;
      if initial.Some? {
        payload := initial.value;
      } else {
        var answer := PromptLine(if mechanism.AuthPlain? then AUTH_CHALLENGE_PLAIN
                                 else AUTH_CHALLENGE_LOGIN_USERNAME);
        match answer
        case NoLine => return AuthInterrupted;
        case BadLine => return AuthDone(Abort);
        case CleanEof =>
          return AuthDone(Malformed(if mechanism.AuthPlain? then "unexpected EOF in AUTH PLAIN challenge"
                                    else "unexpected EOF in AUTH LOGIN challenge"));
        case GotLine(line) => payload := line;
      }
      if mechanism.AuthPlain? {
        r := AuthDone(PlainCredentials(cfg, payload));
      } else {
        r := ReadPassword(payload);
      }
    }

    method GuardAuth() returns (refusal: Option<Response>)
      requires connection != null
      ensures refusal == AuthRefusal(cfg, World())
    {
      if phase != Greeted {
        return Some(BAD_SEQUENCE);
      }
      match cfg.authMode
      case NoAuth => refusal := Some(SyntaxError(None));
      case RequireTls => refusal := if connection.link.Tls? then None else Some(BAD_SEQUENCE);
      case Always => refusal := None;
    }

    method Authenticate(mechanism: AuthMethod, initial: Option<bytes>) returns (flow: Flow)
      requires connection != null
      modifies this, connection
      ensures Budget() == old(Budget())
      ensures connection == old(connection) && currentMail == old(currentMail)
      ensures Refines(flow, DoAuthenticate(cfg, old(World()), mechanism, initial))
    {
      var refusal := GuardAuth();
      if refusal.Some? {
        var ok := Reply(refusal.value);
        return if ok then Continue else Interrupted;
      }
      var auth := RunAuth(mechanism, initial);
      match auth
      case AuthInterrupted => flow := Interrupted;
      case AuthDone(Abort) => flow := Fail;
      case AuthDone(Malformed(err)) =>
        var ok := Reply(SyntaxError(Some(err)));
        flow := if ok then Continue else Interrupted;
      case AuthDone(Credentials(username, password)) =>
        flow := TryLogin(username, password);
    }

    method TryLogin(username: string, password: string) returns (flow: Flow)
      requires connection != null
      modifies this
      ensures Budget() == old(Budget())
      ensures connection == old(connection) && currentMail == old(currentMail)
      ensures Refines(flow, Login(cfg, old(World()), username, password))
    {
      var ok, answer := Ask(OnLogin(username, password));
      if !ok {
        return Interrupted;
      }
      ok := Reply(if answer.Accept? then AUTH_OK else AUTH_FAIL);
      if !ok {
        return Interrupted;
      }
      if answer.Refuse? {
        return Fail;
      }
      isAuthenticated := true;
      return Continue;
    }

    /** The guards shared by MAIL, RCPT and DATA. */
    method Guard(expected: Phase) returns (refusal: Option<Response>)
      requires connection != null
      ensures refusal == Refusal(cfg, World(), expected)
    {
      if phase != expected {
        return Some(BAD_SEQUENCE);
      }
      if cfg.HasAuth() && !isAuthenticated {
        return Some(AUTH_REQUIRED);
      }
      return None;
    }

    method StartMail(from: string) returns (flow: Flow)
      requires connection != null
      modifies this
      ensures Budget() == old(Budget())
      ensures connection == old(connection) && (currentMail == old(currentMail) || fresh(currentMail))
      ensures Refines(flow, DoMail(cfg, old(World()), from))
    {
      var refusal := Guard(Greeted);
      if refusal.Some? {
        var ok := Reply(refusal.value);
        return if ok then Continue else Interrupted;
      }
      currentMail := new Mail();
      currentMail.SetSender(from);
      phase := Envelope;
      var ok := Reply(OK);
      return if ok then Continue else Interrupted;
    }

    method AddRecipient(to: string) returns (flow: Flow)
      requires connection != null
      modifies this, currentMail
      ensures Budget() == old(Budget())
      ensures connection == old(connection) && currentMail == old(currentMail)
      ensures Refines(flow, DoRecipient(cfg, old(World()), to))
    {
      var refusal := Guard(Envelope);
      if refusal.Some? {
        var ok := Reply(refusal.value);
        return if ok then Continue else Interrupted;
      }
      currentMail.AddRecipient(to);
      var ok := Reply(OK);
      return if ok then Continue else Interrupted;
    }

    method StartData() returns (flow: Flow)
      requires connection != null
      modifies this
      ensures Budget() == old(Budget())
      ensures connection == old(connection) && currentMail == old(currentMail)
      ensures Refines(flow, DoData(cfg, old(World())))
    {
      var refusal := Guard(Envelope);
      if refusal.Some? {
        var ok := Reply(refusal.value);
        return if ok then Continue else Interrupted;
      }
      phase := Data;
      var ok := Reply(DATA_START);
      return if ok then Continue else Interrupted;
    }

    method ResetSession() returns (flow: Flow)
      requires connection != null
      modifies this
      ensures Budget() == old(Budget())
      ensures connection == old(connection) && fresh(currentMail)
      ensures Refines(flow, DoReset(cfg, old(World())))
    {
      ResetState();
      var ok := Reply(RESET);
      if ok {
        var answer;
        ok, answer := Ask(OnReset);
      }
      return if ok then Continue else Interrupted;
    }

    method Dispatch(command: Command) returns (flow: Flow)
      requires connection != null
      modifies Repr()
      ensures Budget() == old(Budget())
      ensures fresh(Repr() - old(Repr()))
      ensures Refines(flow, Execute(cfg, old(World()), command))
    {
      match command
      case Hello(domain, extended) => flow := SayHello(domain, extended);
      case Help => flow := SayHelp();
      case StartTls => flow := StartTls();
      case Authenticate(mechanism, initial) => flow := Authenticate(mechanism, initial);
      case MailFrom(from) => flow := StartMail(from);
      case Recipient(to) => flow := AddRecipient(to);
      case DataStart => flow := StartData();
      case Reset => flow := ResetSession();
      case NoOp =>
        var ok := Reply(OK);
        flow := if ok then Continue else Interrupted;
      case Quit =>
        var ok := Reply(GOODBYE);
        flow := if ok then Return else Interrupted;
    }

    // ---- Message data -------------------------------------------------------------

    method FinishMail() returns (flow: Flow)
      requires connection != null
      modifies this
      ensures Budget() == old(Budget())
      ensures connection == old(connection) && (currentMail == old(currentMail) || fresh(currentMail))
      ensures Refines(flow, Deliver(cfg, old(World())))
    {
      var ok, answer := Ask(OnMail(currentMail.Value()));
      if !ok {
        return Interrupted;
      }
      match answer {
        case Accept => ok := Reply(MAIL_ACCEPTED);
        case Refuse(reason) => ok := Reply(MAIL_HANDLER_ERROR.Extend(reason));
      }
      if !ok {
        return Interrupted;
      }
      currentMail := new Mail();
      phase := Greeted;
      return Continue;
    }

    method StoreLine(line: bytes) returns (flow: Flow)
      requires connection != null
      modifies this, currentMail
      ensures Budget() == old(Budget())
      ensures connection == old(connection) && currentMail == old(currentMail)
      ensures Refines(flow, Capture(cfg, old(World()), line))
    {
      var chunk := if ".." <= line then line[1..] else line;
      if |currentMail.data| + |chunk| > cfg.maxMessageSize {
        var ok := Reply(DATA_TOO_LONG);
        return if ok then Fail else Interrupted;
      }
      currentMail.AppendData(chunk);
      return Continue;
    }

    // ---- The loop -----------------------------------------------------------------

    method HandleLine(line: bytes) returns (flow: Flow)
      requires connection != null
      modifies Repr()
      ensures Budget() == old(Budget())
      ensures fresh(Repr() - old(Repr()))
      ensures Refines(flow, Process(cfg, old(World()), line))
    {
      if phase == Data {
        if line == ".\r\n" || line == ".\n" {
          flow := FinishMail();
        } else {
          flow := StoreLine(line);
        }
        return;
      }
      var parsed := Parse(cfg.lossy, line);
      match parsed
      case Failure(err) =>
        var ok := Reply(SyntaxError(Some(err)));
        flow := if ok then Continue else Interrupted;
      case Success(command) =>
        flow := Dispatch(command);
    }

    method HandleOnce() returns (flow: Flow)
      requires connection != null
      modifies Repr()
      ensures Budget() == old(Budget())
      ensures fresh(Repr() - old(Repr()))
      ensures Refines(flow, Step(cfg, old(World())))
    {
      var r := ReadLine();
      match r
      case NoLine => flow := Interrupted;
      case CleanEof => flow := Fail;
      case BadLine => flow := Fail;
      case GotLine(line) => flow := HandleLine(line);
    }

    /** The whole session. Whatever the pieces the bytes arrive in, the session does what
        the flat specification says; interrupted, it has done an initial part of it. */
    method Handle() returns (flow: Flow)
      requires connection != null
      modifies Repr()
      ensures Budget() == old(Budget())
      ensures fresh(Repr() - old(Repr()))
      ensures
        var end := Run(cfg, old(World()).Say(Banner(cfg.serverName)));
        match flow
        case Return => end.status.Closed? && log == end.world.log
        case Fail => end.status.Broken? && log == end.world.log
        case Interrupted => log <= end.world.log && patience == 0
        case Continue => false
    {
      ghost var end := Run(cfg, World().Say(Banner(cfg.serverName)));
      var ok := Reply(Banner(cfg.serverName));
      if !ok {
        return Interrupted;
      }
      while true
        invariant connection != null && fresh(Repr() - old(Repr())) && Budget() == old(Budget())
        invariant Run(cfg, World()) == end
        decreases if connection.link.Plain? then 1 else 0, |connection.Input()|
      {
        flow := HandleOnce();
        if flow != Continue {
          return;
        }
      }
    }
  }

  /** Serve one client that sends `input`, in pieces as `cuts` says, until an await fails
      after `patience` visible things. The outcome does not depend on the pieces. */
  method Serve(cfg: Config, link: Link, input: bytes, cuts: seq<nat>, patience: nat)
    returns (log: seq<Event>, flow: Flow)
    ensures
      var full := Transcript(cfg, link, input);
      log == (if patience < |full| then full[..patience] else full)
    ensures
      var full := Transcript(cfg, link, input);
      (patience < |full| ==> flow == Interrupted) && (patience > |full| ==> flow == Return || flow == Fail)
    ensures flow != Continue
    ensures flow == Return ==> Run(cfg, Start(cfg, link, input)).status == Closed
    ensures flow == Fail ==> Run(cfg, Start(cfg, link, input)).status == Broken
  {
    var connection := new Connection(input, link, cuts);
    var session := new Session(connection, cfg, patience);
    assert session.World().Say(Banner(cfg.serverName)) == Start(cfg, link, input);
    flow := session.Handle();
    log := session.log;
  }
}
