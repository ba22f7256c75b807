/** What one session does, as a function of the flat bytes it is sent.

    This is the specification that the session class is proved against: it knows
    nothing of buffers, of how the bytes arrive in pieces, or of interrupted awaits. */
module Protocol {
  import opened Wrappers
  import opened Bytes
  import opened Commands
  import opened MailObject
  import opened Responses

  const MAX_LINE_LENGTH: nat := 1500

  datatype AuthMode = NoAuth | Always | RequireTls

  datatype Phase = Connected | Greeted | Envelope | Data

  datatype State = State(phase: Phase, isAuthenticated: bool, currentMail: Letter)

  const NEW_STATE := State(Connected, false, EMPTY_LETTER)

  /** The two variants of a connection; a plain one may carry a TLS acceptor. */
  datatype Link = Plain(acceptor: bool) | Tls {
    predicate SupportsTls() { Plain? && acceptor }
  }

  datatype Call =
    | OnHello(domain: string, extended: bool)
    | OnLogin(username: string, password: string)
    | OnMail(mail: Letter)
    | OnReset

  /** A handler's answer. A rejection and an error have the same effect. */
  datatype Answer = Accept | Refuse(reason: string)

  /** Everything the outside world can see of a session, in order. */
  datatype Event =
    | Received(line: bytes)
    | Sent(reply: Response)
    | Called(call: Call, answer: Answer)
    | Upgraded(raw: bytes)

  /** The session's settings and the parts of its environment that are not modelled:
      text decoding, base64, the TLS handshake (the plain text carried by the raw bytes
      that remain, if it succeeds) and the answer to each successive handler call. */
  datatype Config = Config(
    serverName: string,
    authMode: AuthMode,
    maxMessageSize: nat,
    lossy: bytes -> string,
    base64: bytes -> Option<bytes>,
    handshake: bytes -> Option<bytes>,
    answers: nat -> Answer)
  {
    predicate HasAuth() { authMode != NoAuth }
  }

  // ---- Reading lines --------------------------------------------------------------

  datatype LineRead = Line(line: bytes, rest: bytes) | Eof | Truncated | TooLong

  /** One pass over the unread bytes: the first LF decides. */
  function ReadFlat(input: bytes): (r: LineRead)
    ensures r.Line? ==> r.line + r.rest == input && 1 <= |r.line| <= MAX_LINE_LENGTH
    ensures r.Line? ==> r.line[|r.line| - 1] == LF && LF !in r.line[..|r.line| - 1]
    ensures r.Eof? <==> input == []
  {
    match IndexOf(input, LF)
    case Some(i) => if i + 1 <= MAX_LINE_LENGTH then Line(input[..i + 1], input[i + 1..]) else TooLong
    case None => if input == [] then Eof else if |input| <= MAX_LINE_LENGTH then Truncated else TooLong
  }

  predicate IsLine(line: bytes) {
    1 <= |line| <= MAX_LINE_LENGTH && line[|line| - 1] == LF && LF !in line[..|line| - 1]
  }

  lemma ReadsLine(line: bytes, rest: bytes)
    requires IsLine(line)
    ensures ReadFlat(line + rest) == Line(line, rest)
  {
    var body := line[..|line| - 1];
    FirstIndex(body, LF, rest);
    assert body + [LF] == line;
  }

  /** The limit in numbers: a line of up to 1500 bytes, with its line feed, is read; a longer
      one is an error, whatever comes behind it. */
  lemma LineLimit(line: bytes, rest: bytes)
    requires line != [] && line[|line| - 1] == LF && LF !in line[..|line| - 1]
    ensures ReadFlat(line + rest) == if |line| <= 1500 then Line(line, rest) else TooLong
  {
    var body := line[..|line| - 1];
    FirstIndex(body, LF, rest);
    assert body + [LF] == line;
    assert (line + rest)[..|line|] == line && (line + rest)[|line|..] == rest;
  }

  // ---- The visible state between two lines ----------------------------------------

  datatype World = World(state: State, link: Link, input: bytes, calls: nat, log: seq<Event>) {
    function Say(r: Response): World {
      this.(log := log + [Sent(r)])
    }

    function SayAll(rs: seq<Response>): (w: World)
      ensures log <= w.log && w == this.(log := w.log)
      decreases rs
    {
      if rs == [] then this else Say(rs[0]).SayAll(rs[1..])
    }

    function Hear(line: bytes, rest: bytes): World {
      this.(input := rest, log := log + [Received(line)])
    }

    function Ask(cfg: Config, call: Call): World {
      this.(calls := calls + 1, log := log + [Called(call, cfg.answers(calls))])
    }

    function WithPhase(phase: Phase): World {
      this.(state := state.(phase := phase))
    }

    /** is_authenticated of the session: trivially true without authentication. */
    predicate Authorized(cfg: Config) {
      cfg.HasAuth() ==> state.isAuthenticated
    }
  }

  function Start(cfg: Config, link: Link, input: bytes): World {
    World(NEW_STATE, link, input, 0, []).Say(Banner(cfg.serverName))
  }

  /** Live: the loop goes on. Closed: handle returned Ok. Broken: it returned an error. */
  datatype Status = Live | Closed | Broken

  datatype Turn = Turn(world: World, status: Status)

  /** An auth dialogue only adds to the log and uses up input. */
  ghost predicate Continues(w: World, next: World) {
    && w.log <= next.log && |next.input| <= |w.input|
    && next.state == w.state && next.link == w.link && next.calls == w.calls
  }

  /** Nothing is taken back from the log; a live session keeps its link, or moves from plain to TLS. */
  ghost predicate Advances(w: World, t: Turn) {
    && w.log <= t.world.log
    && (t.status.Live? ==>
          || (t.world.link == w.link && |t.world.input| <= |w.input|)
          || (w.link.Plain? && t.world.link.Tls?))
  }

  /** A live turn either uses up input on the same link, or moves from plain to TLS. */
  ghost predicate Progress(w: World, next: World) {
    || (next.link == w.link && |next.input| < |w.input|)
    || (w.link.Plain? && next.link.Tls?)
  }

  // ---- Credentials ----------------------------------------------------------------

  function DecodeBase64(cfg: Config, input: bytes): Option<bytes> {
    cfg.base64(TrimAscii(StripLineEnd(input)))
  }

  datatype Handshake = Credentials(username: string, password: string) | Malformed(err: string) | Abort

  datatype AuthTurn = AuthTurn(world: World, result: Handshake)

  datatype Challenge = Reply(world: World, line: bytes) | NoReply(world: World) | Lost(world: World)

  /** Send a prompt and read the line that answers it. */
  function Prompt(w: World, prompt: Response): (c: Challenge)
    ensures Continues(w, c.world)
  {
    var w := w.Say(prompt);
    match ReadFlat(w.input)
    case Line(line, rest) => Reply(w.Hear(line, rest), line)
    case Eof => NoReply(w)
    case _ => Lost(w)
  }

  function PlainCredentials(cfg: Config, payload: bytes): Handshake {
    match DecodeBase64(cfg, payload)
    case None => Malformed("invalid base64 data")
    case Some(raw) =>
      var parts := SplitOn(raw, '\0');
      if |parts| == 3 then Credentials(cfg.lossy(parts[1]), cfg.lossy(parts[2]))
      else Malformed("invalid number of parts " + "in PLAIN credential payload")
  }

  function AskPassword(cfg: Config, w: World, username: bytes): (t: AuthTurn)
    ensures Continues(w, t.world)
  {
    match DecodeBase64(cfg, username)
    case None => AuthTurn(w, Abort)
    case Some(user) =>
      match Prompt(w, AUTH_CHALLENGE_LOGIN_PASSWORD)
      case NoReply(w) => AuthTurn(w, Malformed("unexpected EOF in AUTH LOGIN challenge"))
      case Lost(w) => AuthTurn(w, Abort)
      case Reply(w, line) =>
        match DecodeBase64(cfg, line)
        case None => AuthTurn(w, Abort)
        case Some(password) => AuthTurn(w, Credentials(cfg.lossy(user), cfg.lossy(password)))
  }

  function HandleAuth(cfg: Config, w: World, mechanism: AuthMethod, initial: Option<bytes>): (t: AuthTurn)
    ensures Continues(w, t.world)
  {
    match (mechanism, initial)
    case (AuthPlain, Some(payload)) => AuthTurn(w, PlainCredentials(cfg, payload))
    case (AuthPlain, None) =>
      (match Prompt(w, AUTH_CHALLENGE_PLAIN)
       case NoReply(w) => AuthTurn(w, Malformed("unexpected EOF in AUTH PLAIN challenge"))
       case Lost(w) => AuthTurn(w, Abort)
       case Reply(w, line) => AuthTurn(w, PlainCredentials(cfg, line)))
    case (AuthLogin, Some(username)) => AskPassword(cfg, w, username)
    case (AuthLogin, None) =>
      (match Prompt(w, AUTH_CHALLENGE_LOGIN_USERNAME)
       case NoReply(w) => AuthTurn(w, Malformed("unexpected EOF in AUTH LOGIN challenge"))
       case Lost(w) => AuthTurn(w, Abort)
       case Reply(w, line) => AskPassword(cfg, w, line))
  }

  // ---- Commands -------------------------------------------------------------------

  function Features(cfg: Config, link: Link): seq<string> {
    ["8BITMIME"]
    + (if link.SupportsTls() then ["STARTTLS"] else [])
    + (if cfg.HasAuth() then ["AUTH PLAIN LOGIN"] else [])
    + ["SIZE " + Decimal(cfg.maxMessageSize)]
  }

  /** All but the last of `lines` are marked as continued. */
  function Continued(lines: seq<string>): seq<Response> {
    seq(|lines|, i requires 0 <= i < |lines| => Response(250, lines[i], i != |lines| - 1))
  }

  function Greeting(cfg: Config, link: Link, extended: bool): seq<Response> {
    if extended then [NewContinued(250, cfg.serverName)] + Continued(Features(cfg, link))
    else [New(250, cfg.serverName)]
  }

  const BASIC_TOPICS: seq<string> := ["HELO", "EHLO", "HELP", "MAIL", "RCPT", "DATA", "RSET", "NOOP", "QUIT"]

  function TopicList(cfg: Config, link: Link): (words: seq<string>)
    ensures words != []
  {
    BASIC_TOPICS
    + (if cfg.HasAuth() then ["AUTH"] else [])
    + (if link.SupportsTls() then ["STARTTLS"] else [])
  }

  function Topics(cfg: Config, link: Link): string {
    Joined(TopicList(cfg, link))
  }

  function DoHello(cfg: Config, w: World, domain: string, extended: bool): (t: Turn)
    ensures Advances(w, t)
  {
    if w.state.phase != Connected then Turn(w.Say(BAD_SEQUENCE), Live)
    else
      var asked := w.Ask(cfg, OnHello(domain, extended));
      if cfg.answers(w.calls).Refuse? then Turn(asked, Broken)
      else Turn(asked.SayAll(Greeting(cfg, w.link, extended)).WithPhase(Greeted), Live)
  }

  function DoHelp(cfg: Config, w: World): (t: Turn)
    ensures Advances(w, t)
  {
    Turn(w.Say(NewContinued(250, "Commands supported")).Say(New(214, Topics(cfg, w.link))), Live)
  }

  function DoStartTls(cfg: Config, w: World): (t: Turn)
    ensures Advances(w, t)
  {
    if !w.link.SupportsTls() then Turn(w.Say(SyntaxError(Some("TLS not supported"))), Live)
    else if w.state.phase != Greeted then Turn(w.Say(BAD_SEQUENCE), Live)
    else
      var ready := w.Say(START_TLS);
      match cfg.handshake(w.input)
      case None => Turn(ready, Broken)
      case Some(text) => Turn(World(NEW_STATE, Tls, text, w.calls, ready.log + [Upgraded(w.input)]), Live)
  }

  function Login(cfg: Config, w: World, username: string, password: string): (t: Turn)
    ensures Advances(w, t)
  {
    var asked := w.Ask(cfg, OnLogin(username, password));
    if cfg.answers(w.calls).Refuse? then Turn(asked.Say(AUTH_FAIL), Broken)
    else Turn(asked.Say(AUTH_OK).(state := w.state.(isAuthenticated := true)), Live)
  }

  function FinishAuth(cfg: Config, t: AuthTurn): Turn {
    match t.result
    case Abort => Turn(t.world, Broken)
    case Malformed(err) => Turn(t.world.Say(SyntaxError(Some(err))), Live)
    case Credentials(username, password) => Login(cfg, t.world, username, password)
  }

  /** AUTH is refused outside the greeted phase, without authentication, and without TLS
      where TLS is required. */
  function AuthRefusal(cfg: Config, w: World): Option<Response> {
    if w.state.phase != Greeted then Some(BAD_SEQUENCE)
    else if cfg.authMode == NoAuth then Some(SyntaxError(None))
    else if cfg.authMode == RequireTls && !w.link.Tls? then Some(BAD_SEQUENCE)
    else None
  }

  function DoAuthenticate(cfg: Config, w: World, mechanism: AuthMethod, initial: Option<bytes>): (t: Turn)
    ensures Advances(w, t)
  {
    match AuthRefusal(cfg, w)
    case Some(r) => Turn(w.Say(r), Live)
    case None => FinishAuth(cfg, HandleAuth(cfg, w, mechanism, initial))
  }

  /** MAIL, RCPT and DATA are refused in the wrong phase or without a login. */
  function Refusal(cfg: Config, w: World, phase: Phase): Option<Response> {
    if w.state.phase != phase then Some(BAD_SEQUENCE)
    else if !w.Authorized(cfg) then Some(AUTH_REQUIRED)
    else None
  }

  function DoMail(cfg: Config, w: World, from: string): (t: Turn)
    ensures Advances(w, t)
  {
    match Refusal(cfg, w, Greeted)
    case Some(r) => Turn(w.Say(r), Live)
    case None =>
      var mail := EMPTY_LETTER.(from := NormalizeAddress(from));
      Turn(w.(state := w.state.(phase := Envelope, currentMail := mail)).Say(OK), Live)
  }

  function DoRecipient(cfg: Config, w: World, to: string): (t: Turn)
    ensures Advances(w, t)
  {
    match Refusal(cfg, w, Envelope)
    case Some(r) => Turn(w.Say(r), Live)
    case None =>
      var mail := w.state.currentMail;
      var mail := mail.(to := mail.to + [NormalizeAddress(to)]);
      Turn(w.(state := w.state.(currentMail := mail)).Say(OK), Live)
  }

  function DoData(cfg: Config, w: World): (t: Turn)
    ensures Advances(w, t)
  {
    match Refusal(cfg, w, Envelope)
    case Some(r) => Turn(w.Say(r), Live)
    case None => Turn(w.WithPhase(Data).Say(DATA_START), Live)
  }

  function DoReset(cfg: Config, w: World): (t: Turn)
    ensures Advances(w, t)
  {
    Turn(w.(state := NEW_STATE).Say(RESET).Ask(cfg, OnReset), Live)
  }

  function Execute(cfg: Config, w: World, command: Command): (t: Turn)
    ensures Advances(w, t)
  {
    match command
    case Hello(domain, extended) => DoHello(cfg, w, domain, extended)
    case Help => DoHelp(cfg, w)
    case StartTls => DoStartTls(cfg, w)
    case Authenticate(mechanism, initial) => DoAuthenticate(cfg, w, mechanism, initial)
    case MailFrom(from) => DoMail(cfg, w, from)
    case Recipient(to) => DoRecipient(cfg, w, to)
    case DataStart => DoData(cfg, w)
    case Reset => DoReset(cfg, w)
    case NoOp => Turn(w.Say(OK), Live)
    case Quit => Turn(w.Say(GOODBYE), Closed)
  }

  // ---- Message data ---------------------------------------------------------------

  predicate IsTerminator(line: bytes) {
    line == ".\r\n" || line == ".\n"
  }

  /** Only a doubled leading dot is undone; a single one is kept. */
  function Unstuff(line: bytes): bytes {
    if ".." <= line then line[1..] else line
  }

  function Deliver(cfg: Config, w: World): (t: Turn)
    ensures Advances(w, t)
  {
    var asked := w.Ask(cfg, OnMail(w.state.currentMail));
    var reply := match cfg.answers(w.calls)
                 case Accept => MAIL_ACCEPTED
                 case Refuse(reason) => MAIL_HANDLER_ERROR.Extend(reason);
    Turn(asked.Say(reply).(state := w.state.(phase := Greeted, currentMail := EMPTY_LETTER)), Live)
  }

  function Capture(cfg: Config, w: World, line: bytes): (t: Turn)
    ensures Advances(w, t)
  {
    var mail := w.state.currentMail;
    var chunk := Unstuff(line);
    if |mail.data| + |chunk| > cfg.maxMessageSize then Turn(w.Say(DATA_TOO_LONG), Broken)
    else Turn(w.(state := w.state.(currentMail := mail.(data := mail.data + chunk))), Live)
  }

  // ---- Turns and runs -------------------------------------------------------------

  /** What the loop does with a line it has just read. */
  function Process(cfg: Config, w: World, line: bytes): (t: Turn)
    ensures Advances(w, t)
  {
    if w.state.phase == Data then
      if IsTerminator(line) then Deliver(cfg, w) else Capture(cfg, w, line)
    else
      match Parse(cfg.lossy, line)
      case Failure(err) => Turn(w.Say(SyntaxError(Some(err))), Live)
      case Success(command) => Execute(cfg, w, command)
  }

  function Step(cfg: Config, w: World): (t: Turn)
    ensures w.log <= t.world.log
    ensures t.status.Live? ==> Progress(w, t.world)
  {
    match ReadFlat(w.input)
    case Line(line, rest) => Process(cfg, w.Hear(line, rest), line)
    case _ => Turn(w, Broken)
  }

  function Run(cfg: Config, w: World): (end: Turn)
    ensures !end.status.Live?
    ensures w.log <= end.world.log
    decreases if w.link.Plain? then 1 else 0, |w.input|
  {
    var t := Step(cfg, w);
    if t.status.Live? then Run(cfg, t.world) else t
  }

  /** The complete log of a session on the given bytes. */
  function Transcript(cfg: Config, link: Link, input: bytes): seq<Event> {
    Run(cfg, Start(cfg, link, input)).world.log
  }

  /** The session after `n` turns, or where it ended before. */
  function Turns(cfg: Config, w: World, n: nat): Turn {
    if n == 0 then Turn(w, Live)
    else
      var t := Turns(cfg, w, n - 1);
      if t.status.Live? then Step(cfg, t.world) else t
  }

  /** The turns lead to the end that the run reaches. */
  lemma {:induction false} TurnsAreInRun(cfg: Config, w: World, n: nat)
    ensures
      var t := Turns(cfg, w, n);
      Run(cfg, w) == (if t.status.Live? then Run(cfg, t.world) else t)
  {
    hide Step;
    if n == 0 {
    } else {
      TurnsAreInRun(cfg, w, n - 1);
    }
  }
}
