/** The AUTH dialogues: where the credentials come from makes no difference. */
module Authentication {
  import opened Wrappers
  import opened Bytes
  import opened Commands
  import opened Responses
  import opened Protocol
  import opened Delivery

  /** A base64 payload as it stands on a line. */
  predicate FitsLine(payload: bytes) {
    OneLine(payload) && |payload| + 2 <= MAX_LINE_LENGTH
  }

  function AuthCommand(mechanism: AuthMethod, initial: Option<bytes>): Command {
    Authenticate(mechanism, initial)
  }

  /** The session is about to read an AUTH command that it will not refuse. */
  ghost predicate ReadyToAuth(cfg: Config, w: World) {
    ReadsAscii(cfg.lossy) && AuthRefusal(cfg, w) == None
  }

  lemma DecodesLine(cfg: Config, payload: bytes)
    requires OneLine(payload)
    ensures DecodeBase64(cfg, payload + CRLF) == DecodeBase64(cfg, payload)
  {
    StripsLineEnd(payload, CRLF);
    StripsLineEnd(payload, []);
    assert payload + [] == payload;
  }

  lemma PayloadIsLine(payload: bytes)
    requires FitsLine(payload)
    ensures IsLine(payload + CRLF)
  {
    var line := payload + CRLF;
    assert line[..|line| - 1] == payload + ['\r'];
  }

  lemma PromptReads(w: World, prompt: Response, payload: bytes, rest: bytes)
    requires FitsLine(payload) && w.input == payload + CRLF + rest
    ensures Prompt(w, prompt) == Challenge.Reply(w.Say(prompt).Hear(payload + CRLF, rest), payload + CRLF)
  {
    PayloadIsLine(payload);
    ReadsLine(payload + CRLF, rest);
  }

  /** Two turns agree in everything but the log, to which they add the same from given
      points on: the same handler calls with the same answers, and the same replies. */
  ghost predicate SameOutcome(s: Turn, before: seq<Event>, t: Turn, after: seq<Event>) {
    && s.status == t.status && s.world.(log := []) == t.world.(log := [])
    && exists tail :: s.world.log == before + tail && t.world.log == after + tail
  }

  ghost predicate SameAuth(s: AuthTurn, before: seq<Event>, t: AuthTurn, after: seq<Event>) {
    && s.result == t.result && s.world.(log := []) == t.world.(log := [])
    && exists tail :: s.world.log == before + tail && t.world.log == after + tail
  }

  /** The events with which a dialogue ends. */
  function Conclusion(cfg: Config, calls: nat, result: Handshake): seq<Event> {
    match result
    case Credentials(u, p) =>
      [Called(OnLogin(u, p), cfg.answers(calls))] + [Sent(if cfg.answers(calls).Accept? then AUTH_OK else AUTH_FAIL)]
    case Malformed(err) => [Sent(SyntaxError(Some(err)))]
    case Abort => []
  }

  lemma FinishConcludes(cfg: Config, t: AuthTurn)
    ensures FinishAuth(cfg, t).world.log == t.world.log + Conclusion(cfg, t.world.calls, t.result)
  {}

  lemma SameFinish(cfg: Config, s: AuthTurn, before: seq<Event>, t: AuthTurn, after: seq<Event>)
    requires SameAuth(s, before, t, after)
    ensures SameOutcome(FinishAuth(cfg, s), before, FinishAuth(cfg, t), after)
  {
    var tail :| s.world.log == before + tail && t.world.log == after + tail;
    var end := Conclusion(cfg, s.world.calls, s.result);
    FinishConcludes(cfg, s);
    FinishConcludes(cfg, t);
    assert before + tail + end == before + (tail + end) && after + tail + end == after + (tail + end);
  }

  lemma SameStart(a: World, b: World, result: Handshake)
    requires a.(log := []) == b.(log := [])
    ensures SameAuth(AuthTurn(a, result), a.log, AuthTurn(b, result), b.log)
  {
    assert a.log == a.log + [] && b.log == b.log + [];
  }

  lemma SamePrompt(a: World, b: World, prompt: Response)
    returns (tail: seq<Event>)
    requires a.(log := []) == b.(log := [])
    ensures
      var p, q := Prompt(a, prompt), Prompt(b, prompt);
      && p.world.(log := []) == q.world.(log := [])
      && (p.Reply? <==> q.Reply?) && (p.NoReply? <==> q.NoReply?) && (p.Reply? ==> p.line == q.line)
      && p.world.log == a.log + tail && q.world.log == b.log + tail
  {
    tail := [Sent(prompt)] + (match ReadFlat(a.input) case Line(line, _) => [Received(line)] case _ => []);
  }

  lemma SamePassword(cfg: Config, a: World, b: World, username: bytes)
    requires a.(log := []) == b.(log := [])
    ensures SameAuth(AskPassword(cfg, a, username), a.log, AskPassword(cfg, b, username), b.log)
  {
    var tail := SamePrompt(a, b, AUTH_CHALLENGE_LOGIN_PASSWORD);
    hide Prompt;
    hide DecodeBase64;
    SameStart(a, b, Abort);
  }

  /** AUTH PLAIN with the payload on the command line or on a challenged line of its own:
      the same login, the same replies after it, and the same state, for every payload. */
  lemma PlainInlineOrChallenged(cfg: Config, inline: World, challenged: World, payload: bytes, rest: bytes)
    requires ReadyToAuth(cfg, inline) && challenged == inline.(input := challenged.input)
    requires Fits(AuthCommand(AuthPlain, Some(payload))) && FitsLine(payload)
    requires inline.input == CommandLine(AuthCommand(AuthPlain, Some(payload))) + rest
    requires challenged.input == CommandLine(AuthCommand(AuthPlain, None)) + (payload + CRLF + rest)
    ensures
      var line := CommandLine(AuthCommand(AuthPlain, Some(payload)));
      var command := CommandLine(AuthCommand(AuthPlain, None));
      SameOutcome(
        Step(cfg, inline), inline.log + [Received(line)],
        Step(cfg, challenged),
        inline.log + [Received(command)] + [Sent(AUTH_CHALLENGE_PLAIN)] + [Received(payload + CRLF)])
  {
    hide CommandLine;
    hide FinishAuth;
    hide DecodeBase64;
    hide SameOutcome;
    hide Step;
    var line, command := CommandLine(AuthCommand(AuthPlain, Some(payload))), CommandLine(AuthCommand(AuthPlain, None));
    AuthTurnIs(cfg, inline, AuthPlain, Some(payload), rest);
    ChallengeFits(AuthPlain);
    AuthTurnIs(cfg, challenged, AuthPlain, None, payload + CRLF + rest);
    var w := challenged.Hear(command, payload + CRLF + rest);
    PromptReads(w, AUTH_CHALLENGE_PLAIN, payload, rest);
    DecodesLine(cfg, payload);
    var a, b := inline.Hear(line, rest), w.Say(AUTH_CHALLENGE_PLAIN).Hear(payload + CRLF, rest);
    var result := PlainCredentials(cfg, payload);
    SameStart(a, b, result);
    SameFinish(cfg, AuthTurn(a, result), a.log, AuthTurn(b, result), b.log);
  }

  /** AUTH LOGIN with the username on the command line or challenged, likewise; the
      password is challenged in both. */
  lemma LoginInlineOrChallenged(cfg: Config, inline: World, challenged: World, username: bytes, rest: bytes)
    requires ReadyToAuth(cfg, inline) && challenged == inline.(input := challenged.input)
    requires Fits(AuthCommand(AuthLogin, Some(username))) && FitsLine(username)
    requires inline.input == CommandLine(AuthCommand(AuthLogin, Some(username))) + rest
    requires challenged.input == CommandLine(AuthCommand(AuthLogin, None)) + (username + CRLF + rest)
    ensures
      var line := CommandLine(AuthCommand(AuthLogin, Some(username)));
      var command := CommandLine(AuthCommand(AuthLogin, None));
      SameOutcome(
        Step(cfg, inline), inline.log + [Received(line)],
        Step(cfg, challenged),
        inline.log + [Received(command)] + [Sent(AUTH_CHALLENGE_LOGIN_USERNAME)] + [Received(username + CRLF)])
  {
    hide CommandLine;
    hide FinishAuth;
    hide DecodeBase64;
    hide SameOutcome;
    hide SameAuth;
    hide Step;
    var line, command := CommandLine(AuthCommand(AuthLogin, Some(username))), CommandLine(AuthCommand(AuthLogin, None));
    AuthTurnIs(cfg, inline, AuthLogin, Some(username), rest);
    ChallengeFits(AuthLogin);
    AuthTurnIs(cfg, challenged, AuthLogin, None, username + CRLF + rest);
    var w := challenged.Hear(command, username + CRLF + rest);
    PromptReads(w, AUTH_CHALLENGE_LOGIN_USERNAME, username, rest);
    var a, b := inline.Hear(line, rest), w.Say(AUTH_CHALLENGE_LOGIN_USERNAME).Hear(username + CRLF, rest);
    SameUsername(cfg, b, username);
    SamePassword(cfg, a, b, username);
    SameFinish(cfg, AskPassword(cfg, a, username), a.log, AskPassword(cfg, b, username), b.log);
  }

  lemma SameUsername(cfg: Config, w: World, username: bytes)
    requires OneLine(username)
    ensures AskPassword(cfg, w, username + CRLF) == AskPassword(cfg, w, username)
  {
    DecodesLine(cfg, username);
    hide DecodeBase64;
    hide Prompt;
  }

  lemma ChallengeFits(mechanism: AuthMethod)
    ensures Fits(AuthCommand(mechanism, None))
  {}

  lemma AuthTurnIs(cfg: Config, w: World, mechanism: AuthMethod, initial: Option<bytes>, rest: bytes)
    requires ReadyToAuth(cfg, w) && Fits(AuthCommand(mechanism, initial))
    requires w.input == CommandLine(AuthCommand(mechanism, initial)) + rest
    ensures
      var heard := w.Hear(CommandLine(AuthCommand(mechanism, initial)), rest);
      Step(cfg, w) == FinishAuth(cfg, HandleAuth(cfg, heard, mechanism, initial))
  {
    hide CommandLine;
    hide FinishAuth;
    hide HandleAuth;
    hide Step;
    CommandStep(cfg, w, AuthCommand(mechanism, initial), rest);
  }

  // ---- Credentials ----------------------------------------------------------------------

  const NUL: byte := '\0'

  /** The message of PLAIN (section 2 of RFC 4616). */
  function PlainMessage(authzid: bytes, user: bytes, password: bytes): bytes {
    authzid + [NUL] + (user + [NUL] + password)
  }

  /** A PLAIN message, as any base64 text that decodes to it, is read back as exactly its
      user and password. */
  lemma PlainRoundTrip(cfg: Config, payload: bytes, authzid: bytes, user: bytes, password: bytes)
    requires NUL !in authzid && NUL !in user && NUL !in password
    requires OneLine(payload) && Trimmed(payload, IsAsciiSpace)
    requires cfg.base64(payload) == Some(PlainMessage(authzid, user, password))
    ensures PlainCredentials(cfg, payload) == Credentials(cfg.lossy(user), cfg.lossy(password))
  {
    StripsLineEnd(payload, []);
    assert payload + [] == payload;
    TrimTrims(payload, IsAsciiSpace);
    SplitsInThree(authzid, user, password);
    hide SplitOn;
    hide StripLineEnd;
    hide PlainMessage;
  }

  lemma SplitsInThree(authzid: bytes, user: bytes, password: bytes)
    requires NUL !in authzid && NUL !in user && NUL !in password
    ensures SplitOn(PlainMessage(authzid, user, password), NUL) == [authzid, user, password]
  {
    SplitsHead(authzid, NUL, user + [NUL] + password);
    SplitsHead(user, NUL, password);
  }

  /** PLAIN needs exactly three parts; anything else is a syntax error and asks nobody. */
  lemma PlainNeedsThreeParts(cfg: Config, payload: bytes)
    ensures
      var raw := DecodeBase64(cfg, payload);
      PlainCredentials(cfg, payload).Credentials? <==>
        exists a, b, c ::
          && NUL !in a && NUL !in b && NUL !in c && raw == Some(PlainMessage(a, b, c))
          && PlainCredentials(cfg, payload) == Credentials(cfg.lossy(b), cfg.lossy(c))
    ensures !PlainCredentials(cfg, payload).Credentials? ==> PlainCredentials(cfg, payload).Malformed?
  {
    hide DecodeBase64;
    hide PlainMessage;
    hide SplitOn;
    if PlainCredentials(cfg, payload).Credentials? {
      var raw := DecodeBase64(cfg, payload).value;
      ThreePartsJoin(raw);
      var parts := SplitOn(raw, NUL);
      assert raw == PlainMessage(parts[0], parts[1], parts[2]);
    }
  }

  /** The first piece of a split, and the rest behind it, if there is one. */
  lemma SplitFirst(s: bytes) returns (head: bytes, rest: bytes)
    requires |SplitOn(s, NUL)| > 1
    ensures s == head + [NUL] + rest && NUL !in head && SplitOn(s, NUL) == [head] + SplitOn(rest, NUL)
  {
    var i := IndexOf(s, NUL).value;
    head, rest := s[..i], s[i + 1..];
    assert s == head + [NUL] + rest;
  }

  lemma SplitLast(s: bytes)
    requires |SplitOn(s, NUL)| == 1
    ensures SplitOn(s, NUL) == [s] && NUL !in s
  {}

  lemma ThreePartsJoin(raw: bytes)
    requires |SplitOn(raw, NUL)| == 3
    ensures
      var parts := SplitOn(raw, NUL);
      && raw == PlainMessage(parts[0], parts[1], parts[2])
      && NUL !in parts[0] && NUL !in parts[1] && NUL !in parts[2]
  {
    hide SplitOn;
    var a, rest := SplitFirst(raw);
    var b, c := SplitFirst(rest);
    SplitLast(c);
    assert SplitOn(raw, NUL) == [a] + ([b] + [c]);
  }

  /** Blanks and the line end around a payload do not matter. */
  lemma DecodesPadded(cfg: Config, l: bytes, payload: bytes, r: bytes, end: bytes)
    requires OneLine(l + payload + r) && IsLineEnd(end) && payload != [] && Trimmed(payload, IsAsciiSpace)
    requires (forall i :: 0 <= i < |l| ==> IsAsciiSpace(l[i])) && (forall i :: 0 <= i < |r| ==> IsAsciiSpace(r[i]))
    ensures DecodeBase64(cfg, l + payload + r + end) == cfg.base64(payload)
  {
    StripsLineEnd(l + payload + r, end);
    TrimsPadding(l, payload, r, IsAsciiSpace);
    hide StripLineEnd;
    hide Trim;
  }

  // ---- Prompts ------------------------------------------------------------------------------

  /** The letter for six bits, and three bytes, in base64 (section 4 of RFC 4648). */
  function Sextet(n: nat): char
    requires n < 64
  {
    if n < 26 then ('A' as int + n) as char
    else if n < 52 then ('a' as int + n - 26) as char
    else if n < 62 then ('0' as int + n - 52) as char
    else if n == 62 then '+' else '/'
  }

  function EncodeThree(a: byte, b: byte, c: byte): string {
    var n := (a as int * 256 + b as int) * 256 + c as int;
    [Sextet(n / 262144), Sextet(n / 4096 % 64), Sextet(n / 64 % 64), Sextet(n % 64)]
  }

  function Encode(s: bytes): string
    requires |s| % 3 == 0
  {
    if s == [] then "" else EncodeThree(s[0], s[1], s[2]) + Encode(s[3..])
  }

  lemma UsernameEncoded()
    ensures EncodeThree('U', 's', 'e') == "VXNl" && EncodeThree('r', 'n', 'a') == "cm5h"
  {}

  lemma PasswordEncoded()
    ensures EncodeThree('P', 'a', 's') == "UGFz" && EncodeThree('s', 'w', 'o') == "c3dv"
  {}

  lemma EndsEncoded()
    ensures EncodeThree('m', 'e', ':') == "bWU6" && EncodeThree('r', 'd', ':') == "cmQ6"
  {}

  lemma EncodesFirst(a: bytes, rest: bytes)
    requires |a| == 3 && |rest| % 3 == 0
    ensures Encode(a + rest) == EncodeThree(a[0], a[1], a[2]) + Encode(rest)
  {
    hide EncodeThree;
    var s := a + rest;
    assert s[3..] == rest && s[0] == a[0] && s[1] == a[1] && s[2] == a[2];
  }

  lemma EncodesNine(a: bytes, b: bytes, c: bytes)
    requires |a| == |b| == |c| == 3
    ensures Encode(a + b + c)
         == EncodeThree(a[0], a[1], a[2]) + (EncodeThree(b[0], b[1], b[2]) + EncodeThree(c[0], c[1], c[2]))
  {
    hide EncodeThree;
    EncodesFirst(a, b + c);
    EncodesFirst(b, c);
    EncodesFirst(c, []);
    NothingEncoded();
    hide Encode;
    assert a + b + c == a + (b + c) && c + [] == c;
  }

  lemma NothingEncoded()
    ensures Encode([]) == ""
  {}

  function NamePrompt(): string { Encode("Use" + "rna" + "me:") }

  function SecretPrompt(): string { Encode("Pas" + "swo" + "rd:") }

  /** The prompts of LOGIN are the words that clients expect, in base64. */
  lemma PromptsAreEncoded()
    ensures AUTH_CHALLENGE_LOGIN_USERNAME.message == NamePrompt()
    ensures AUTH_CHALLENGE_LOGIN_PASSWORD.message == SecretPrompt()
  {
    hide Encode;
    hide EncodeThree;
    UsernameEncoded();
    PasswordEncoded();
    EndsEncoded();
    EncodesNine("Use", "rna", "me:");
    EncodesNine("Pas", "swo", "rd:");
  }

  // ---- Logins ---------------------------------------------------------------------------

  /** How a client proves who it is. */
  datatype Proof = ByPlain(inline: bool, payload: bytes) | ByLogin(inline: bool, name: bytes, secret: bytes)

  function MechanismOf(p: Proof): AuthMethod { if p.ByPlain? then AuthPlain else AuthLogin }

  function FirstOf(p: Proof): bytes { if p.ByPlain? then p.payload else p.name }

  function InitialOf(p: Proof): Option<bytes> {
    if p.inline then Some(FirstOf(p)) else None
  }

  predicate ProofFits(p: Proof) {
    && Fits(AuthCommand(MechanismOf(p), InitialOf(p))) && FitsLine(FirstOf(p))
    && (p.ByLogin? ==> FitsLine(p.secret))
  }

  /** What the client sends behind the AUTH command. */
  function AnswerLines(p: Proof): bytes {
    (if p.inline then [] else FirstOf(p) + CRLF) + (if p.ByLogin? then p.secret + CRLF else [])
  }

  /** What the client sends for its login. */
  function LoginText(p: Proof): bytes
    requires ProofFits(p)
  {
    CommandLine(AuthCommand(MechanismOf(p), InitialOf(p))) + AnswerLines(p)
  }

  /** The payloads decode to this user and this password. */
  ghost predicate Proves(cfg: Config, p: Proof, user: bytes, password: bytes) {
    match p
    case ByPlain(_, payload) =>
      exists authzid ::
        && DecodeBase64(cfg, payload) == Some(PlainMessage(authzid, user, password))
        && NUL !in authzid && NUL !in user && NUL !in password
    case ByLogin(_, name, secret) =>
      DecodeBase64(cfg, name) == Some(user) && DecodeBase64(cfg, secret) == Some(password)
  }

  /** The prompt with this text, and the line that answers it. */
  function Exchange(text: string, line: bytes): seq<Event> {
    [Sent(New(334, text)), Received(line + CRLF)]
  }

  /** The prompts and answers of a login: PLAIN is prompted without a text, LOGIN for the user
      name, unless that came with the command, and then for the password. */
  function Dialogue(p: Proof): seq<Event> {
    match p
    case ByPlain(inline, payload) => if inline then [] else Exchange("", payload)
    case ByLogin(inline, name, secret) =>
      (if inline then [] else Exchange(NamePrompt(), name))
      + Exchange(SecretPrompt(), secret)
  }

  /** Behind the log `heard` and its dialogue, the turn asked for exactly this login, with the
      next answer, and told the client by 235 or 535. It used the input up to `rest`. The
      session goes on, authenticated, exactly if the answer accepts. */
  ghost predicate LogsIn(cfg: Config, w: World, t: Turn, heard: seq<Event>, user: string, password: string,
                         rest: bytes)
  {
    var answer := cfg.answers(w.calls);
    && (exists r: Response ::
          && t.world.log == heard + [Called(OnLogin(user, password), answer)] + [Sent(r)] && !r.hasNext
          && r.code == if answer.Accept? then 235 else 535)
    && (t.status.Live? <==> answer.Accept?)
    && t.world.calls == w.calls + 1 && t.world.link == w.link && t.world.input == rest
    && (t.status.Live? ==> t.world.state == w.state.(isAuthenticated := true))
  }

  lemma LoginLogsIn(cfg: Config, w: World, before: World, user: string, password: string, rest: bytes)
    requires before.calls == w.calls && before.link == w.link && before.state == w.state && before.input == rest
    ensures LogsIn(cfg, w, Login(cfg, before, user, password), before.log, user, password, rest)
  {
    var log := Login(cfg, before, user, password).world.log;
    var r := if cfg.answers(w.calls).Accept? then AUTH_OK else AUTH_FAIL;
    assert log == before.log + [Called(OnLogin(user, password), cfg.answers(w.calls))] + [Sent(r)];
  }

  lemma PlainProves(cfg: Config, payload: bytes, user: bytes, password: bytes)
    requires Proves(cfg, ByPlain(true, payload), user, password)
    ensures PlainCredentials(cfg, payload) == Credentials(cfg.lossy(user), cfg.lossy(password))
  {
    hide DecodeBase64;
    hide SplitOn;
    hide PlainMessage;
    var authzid :| DecodeBase64(cfg, payload) == Some(PlainMessage(authzid, user, password))
                   && NUL !in authzid && NUL !in user && NUL !in password;
    SplitsInThree(authzid, user, password);
  }

  lemma ExchangeReads(w: World, text: string, payload: bytes, rest: bytes)
    requires FitsLine(payload) && w.input == payload + CRLF + rest
    ensures Prompt(w, New(334, text))
         == Challenge.Reply(w.(input := rest, log := w.log + Exchange(text, payload)), payload + CRLF)
  {
    PromptReads(w, New(334, text), payload, rest);
    hide Prompt;
    assert w.log + [Sent(New(334, text))] + [Received(payload + CRLF)] == w.log + Exchange(text, payload);
  }

  lemma PasswordAsked(cfg: Config, w: World, name: bytes, secret: bytes, user: bytes, password: bytes, rest: bytes)
    requires DecodeBase64(cfg, name) == Some(user) && DecodeBase64(cfg, secret) == Some(password)
    requires FitsLine(secret) && w.input == secret + CRLF + rest
    ensures
      var t := AskPassword(cfg, w, name);
      && t.result == Credentials(cfg.lossy(user), cfg.lossy(password)) && t.world.input == rest
      && t.world.log == w.log + Exchange(SecretPrompt(), secret)
      && t.world.calls == w.calls && t.world.link == w.link && t.world.state == w.state
  {
    hide DecodeBase64;
    hide Prompt;
    hide NamePrompt;
    hide SecretPrompt;
    hide Exchange;
    PromptsAreEncoded();
    ExchangeReads(w, SecretPrompt(), secret, rest);
    DecodesLine(cfg, secret);
  }

  lemma PlainDialogue(cfg: Config, w: World, p: Proof, user: bytes, password: bytes, rest: bytes)
    requires p.ByPlain? && ProofFits(p) && Proves(cfg, p, user, password) && w.input == AnswerLines(p) + rest
    ensures
      var t := HandleAuth(cfg, w, MechanismOf(p), InitialOf(p));
      && t.result == Credentials(cfg.lossy(user), cfg.lossy(password)) && t.world.input == rest
      && t.world.log == w.log + Dialogue(p)
      && t.world.calls == w.calls && t.world.link == w.link && t.world.state == w.state
  {
    hide DecodeBase64;
    hide Prompt;
    hide CommandLine;
    PlainProves(cfg, p.payload, user, password);
    if p.inline {
      assert w.input == rest;
    } else {
      assert w.input == p.payload + CRLF + rest;
      ExchangeReads(w, "", p.payload, rest);
      DecodesLine(cfg, p.payload);
    }
  }

  lemma LoginDialogue(cfg: Config, w: World, p: Proof, user: bytes, password: bytes, rest: bytes)
    requires p.ByLogin? && ProofFits(p) && Proves(cfg, p, user, password) && w.input == AnswerLines(p) + rest
    ensures
      var t := HandleAuth(cfg, w, MechanismOf(p), InitialOf(p));
      && t.result == Credentials(cfg.lossy(user), cfg.lossy(password)) && t.world.input == rest
      && t.world.log == w.log + Dialogue(p)
      && t.world.calls == w.calls && t.world.link == w.link && t.world.state == w.state
  {
    hide DecodeBase64;
    hide Prompt;
    hide CommandLine;
    hide AskPassword;
    hide NamePrompt;
    hide SecretPrompt;
    hide Exchange;
    PromptsAreEncoded();
    var more := p.secret + CRLF + rest;
    if p.inline {
      assert w.input == more;
      PasswordAsked(cfg, w, p.name, p.secret, user, password, rest);
    } else {
      assert w.input == p.name + CRLF + more;
      var text := NamePrompt();
      ExchangeReads(w, text, p.name, more);
      DecodesLine(cfg, p.name);
      var asked := w.(input := more, log := w.log + Exchange(text, p.name));
      PasswordAsked(cfg, asked, p.name + CRLF, p.secret, user, password, rest);
    }
  }

  /** AUTH PLAIN and AUTH LOGIN, inline or by challenge, ask the handler for exactly the user
      and the password that the client's payloads decode to. */
  lemma LoginRoundTrip(cfg: Config, w: World, p: Proof, user: bytes, password: bytes, rest: bytes)
    requires ReadyToAuth(cfg, w) && ProofFits(p) && Proves(cfg, p, user, password)
    requires w.input == LoginText(p) + rest
    ensures
      var line := CommandLine(AuthCommand(MechanismOf(p), InitialOf(p)));
      LogsIn(cfg, w, Step(cfg, w), w.log + [Received(line)] + Dialogue(p), cfg.lossy(user), cfg.lossy(password), rest)
  {
    hide CommandLine;
    hide HandleAuth;
    hide AnswerLines;
    hide Proves;
    hide Login;
    hide Step;
    hide Printable;
    hide FitsLine;
    hide LogsIn;
    hide Dialogue;
    var m, initial := MechanismOf(p), InitialOf(p);
    var behind := AnswerLines(p) + rest;
    assert w.input == CommandLine(AuthCommand(m, initial)) + behind;
    AuthTurnIs(cfg, w, m, initial, behind);
    var heard := w.Hear(CommandLine(AuthCommand(m, initial)), behind);
    if p.ByPlain? {
      PlainDialogue(cfg, heard, p, user, password, rest);
    } else {
      LoginDialogue(cfg, heard, p, user, password, rest);
    }
    LoginLogsIn(cfg, w, HandleAuth(cfg, heard, m, initial).world, cfg.lossy(user), cfg.lossy(password), rest);
  }

  /** A PLAIN payload that does not decode is a syntax error; a LOGIN user name that does not
      decode ends the session at once. Neither asks the handler. */
  lemma UndecodableProof(cfg: Config, w: World, mechanism: AuthMethod, payload: bytes, rest: bytes)
    requires ReadyToAuth(cfg, w) && Fits(AuthCommand(mechanism, Some(payload)))
    requires w.input == CommandLine(AuthCommand(mechanism, Some(payload))) + rest
    requires DecodeBase64(cfg, payload).None?
    ensures
      var t, heard := Step(cfg, w), w.Hear(CommandLine(AuthCommand(mechanism, Some(payload))), rest);
      if mechanism.AuthPlain? then
        t.status.Live? && exists r: Response :: r.code == 500 && !r.hasNext && t.world == heard.Say(r)
      else t == Turn(heard, Broken)
  {
    hide CommandLine;
    hide Step;
    hide DecodeBase64;
    AuthTurnIs(cfg, w, mechanism, Some(payload), rest);
  }
}
