/** Every reply a session can send fits on one line, given settings and answers that do. */
module Texts {
  import opened Wrappers
  import opened Bytes
  import opened Commands
  import opened Responses
  import opened Protocol
  import opened Replies

  /** Texts from the settings and the handler fit on one line. */
  ghost predicate PlainTexts(cfg: Config) {
    && cfg.serverName != "" && OneLine(cfg.serverName)
    && forall n :: cfg.answers(n).Refuse? ==> OneLine(cfg.answers(n).reason)
  }

  // ---- Fixed texts ------------------------------------------------------------------------------

  lemma JoinedIsOneLine(a: string, b: string)
    requires OneLine(a) && OneLine(b)
    ensures OneLine(a + b)
  {}

  lemma ArgumentTexts()
    ensures OneLine("HELO requires domain") && OneLine("AUTH requires mechanism")
    ensures OneLine("MAIL requires FROM") && OneLine("RCPT requires TO")
    ensures OneLine("unsupported AUTH mechanism") && OneLine("unrecognized command")
  {}

  lemma NullaryTexts()
    ensures OneLine("STARTTLS takes no arguments") && OneLine("DATA takes no arguments")
    ensures OneLine("RSET takes no arguments") && OneLine("NOOP takes no arguments")
    ensures OneLine("QUIT takes no arguments")
  {}

  lemma AuthErrorTexts()
    ensures OneLine("invalid base64 data") && OneLine("invalid number of parts " + "in PLAIN credential payload")
  {
    JoinedIsOneLine("invalid number of parts ", "in PLAIN credential payload");
  }

  lemma EofTexts()
    ensures OneLine("unexpected EOF in AUTH PLAIN challenge") && OneLine("unexpected EOF in AUTH LOGIN challenge")
  {}

  lemma HelpTexts()
    ensures OneLine("HELO") && OneLine("EHLO") && OneLine("HELP") && OneLine("MAIL") && OneLine("RCPT")
    ensures OneLine("DATA") && OneLine("RSET") && OneLine("NOOP") && OneLine("QUIT")
    ensures OneLine("AUTH") && OneLine("STARTTLS") && OneLine("Commands supported")
  {}

  lemma FeatureTexts()
    ensures OneLine("8BITMIME") && OneLine("STARTTLS") && OneLine("AUTH PLAIN LOGIN") && OneLine("SIZE ")
  {}

  lemma FrameTexts()
    ensures OneLine("2.2.0 ") && OneLine(" ESMTP ready") && OneLine("5.5.2 Syntax error: ") && OneLine(": ")
  {}

  // ---- Replies and messages ---------------------------------------------------------------------

  lemma {:induction false} DecimalIsOneLine(n: nat)
    ensures OneLine(Decimal(n))
  {
    if n < 10 {
    } else {
      DecimalIsOneLine(n / 10);
    }
  }

  lemma ErrorIsWellFormed(err: string)
    requires OneLine(err)
    ensures WellFormed(SyntaxError(Some(err)))
  {
    hide OneLine;
    FrameTexts();
    JoinedIsOneLine("5.5.2 Syntax error: ", err);
  }

  lemma TlsReplies()
    ensures WellFormed(START_TLS) && WellFormed(SyntaxError(None))
  {}

  lemma TlsErrorIsWellFormed()
    ensures WellFormed(SyntaxError(Some("TLS not supported")))
  {
    assert OneLine("TLS not supported");
    ErrorIsWellFormed("TLS not supported");
    hide OneLine;
  }

  lemma OkReplies()
    ensures WellFormed(OK) && WellFormed(RESET) && WellFormed(GOODBYE)
  {}

  lemma Refusals()
    ensures WellFormed(BAD_SEQUENCE) && WellFormed(AUTH_REQUIRED)
  {}

  lemma LoginReplies()
    ensures WellFormed(AUTH_OK) && WellFormed(AUTH_FAIL)
  {}

  lemma Prompts()
    ensures WellFormed(AUTH_CHALLENGE_PLAIN)
    ensures WellFormed(AUTH_CHALLENGE_LOGIN_USERNAME) && WellFormed(AUTH_CHALLENGE_LOGIN_PASSWORD)
  {}

  lemma DataReplies()
    ensures WellFormed(DATA_START) && WellFormed(MAIL_ACCEPTED) && WellFormed(DATA_TOO_LONG)
  {
    JoinedIsOneLine("3.0.0 Start mail input; ", "end with <CRLF>.<CRLF>");
    JoinedIsOneLine("5.3.4 Mail size exceeds ", "fixed maximum message size");
  }

  lemma HandlerErrorIsWellFormed(reason: string)
    requires OneLine(reason)
    ensures WellFormed(MAIL_HANDLER_ERROR.Extend(reason))
  {
    assert OneLine(MAIL_HANDLER_ERROR.message);
    FrameTexts();
    JoinedIsOneLine(MAIL_HANDLER_ERROR.message, ": ");
    JoinedIsOneLine(MAIL_HANDLER_ERROR.message + ": ", reason);
  }

  lemma BannerIsWellFormed(serverName: string)
    requires OneLine(serverName)
    ensures WellFormed(Banner(serverName))
  {
    hide OneLine;
    FrameTexts();
    JoinedIsOneLine("2.2.0 ", serverName);
    JoinedIsOneLine("2.2.0 " + serverName, " ESMTP ready");
  }

  lemma ParseErrors(lossy: bytes -> string, line: bytes)
    ensures Parse(lossy, line).Failure? ==> OneLine(Parse(lossy, line).error)
  {
    hide OneLine;
    hide Upper;
    hide SplitOnce;
    hide TrimText;
    hide ParsePath;
    ArgumentTexts();
    NullaryTexts();
  }

  lemma PayloadErrors(cfg: Config, payload: bytes)
    ensures PlainCredentials(cfg, payload).Malformed? ==> OneLine(PlainCredentials(cfg, payload).err)
  {
    hide OneLine;
    hide DecodeBase64;
    hide SplitOn;
    AuthErrorTexts();
  }

  lemma AskPasswordErrors(cfg: Config, w: World, username: bytes)
    ensures
      var r := AskPassword(cfg, w, username).result;
      r.Malformed? ==> OneLine(r.err)
  {
    hide OneLine;
    hide Prompt;
    hide DecodeBase64;
    EofTexts();
  }

  lemma AuthErrors(cfg: Config, w: World, mechanism: AuthMethod, initial: Option<bytes>)
    ensures
      var r := HandleAuth(cfg, w, mechanism, initial).result;
      r.Malformed? ==> OneLine(r.err)
  {
    hide OneLine;
    hide Prompt;
    hide AskPassword;
    hide PlainCredentials;
    EofTexts();
    match (mechanism, initial)
    case (AuthPlain, Some(payload)) => PayloadErrors(cfg, payload);
    case (AuthPlain, None) =>
      var p := Prompt(w, AUTH_CHALLENGE_PLAIN);
      if p.Reply? {
        PayloadErrors(cfg, p.line);
      }
    case (AuthLogin, Some(username)) => AskPasswordErrors(cfg, w, username);
    case (AuthLogin, None) =>
      var p := Prompt(w, AUTH_CHALLENGE_LOGIN_USERNAME);
      if p.Reply? {
        AskPasswordErrors(cfg, p.world, p.line);
      }
  }

  lemma FeaturesAreOneLine(cfg: Config, link: Link)
    ensures |Features(cfg, link)| > 0
    ensures forall i :: 0 <= i < |Features(cfg, link)| ==>
      Features(cfg, link)[i] != "" && OneLine(Features(cfg, link)[i])
  {
    hide Decimal;
    hide OneLine;
    FeatureTexts();
    DecimalIsOneLine(cfg.maxMessageSize);
    JoinedIsOneLine("SIZE ", Decimal(cfg.maxMessageSize));
  }

  lemma GreetingIsWellFormed(cfg: Config, link: Link, extended: bool)
    requires PlainTexts(cfg)
    ensures AllWellFormed(Greeting(cfg, link, extended))
  {
    hide OneLine;
    hide Features;
    FeaturesAreOneLine(cfg, link);
  }

  lemma {:induction false} JoinedWords(words: seq<string>)
    requires words != [] && forall i :: 0 <= i < |words| ==> OneLine(words[i])
    ensures OneLine(Joined(words))
  {
    if |words| == 1 {
    } else {
      JoinedWords(words[1..]);
      JoinedIsOneLine(words[0], [' ']);
      JoinedIsOneLine(words[0] + [' '], Joined(words[1..]));
    }
  }

  lemma TopicsAreOneLine(cfg: Config, link: Link)
    ensures OneLine(Topics(cfg, link))
  {
    hide OneLine;
    hide Joined;
    HelpTexts();
    JoinedWords(TopicList(cfg, link));
  }

  lemma HelpIsWellFormed(cfg: Config, link: Link)
    ensures WellFormed(NewContinued(250, "Commands supported")) && WellFormed(New(214, Topics(cfg, link)))
  {
    hide OneLine;
    hide Topics;
    HelpTexts();
    TopicsAreOneLine(cfg, link);
  }
}
