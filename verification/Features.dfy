/** What EHLO advertises, against what the commands then do. */
module Advertising {
  import opened Wrappers
  import opened Bytes
  import opened Commands
  import opened MailObject
  import opened Responses
  import opened Protocol
  import opened Replies
  import opened History
  import opened Discipline
  import opened Product

  const STARTTLS_FEATURE := "STARTTLS"
  const AUTH_FEATURE := "AUTH PLAIN LOGIN"

  // ---- Reading the reply to EHLO from a log -----------------------------------------------

  /** The reply that starts at position `k`, up to its final line. */
  function ReplyAt(log: seq<Event>, k: nat): seq<Response>
    decreases |log| - k
  {
    if k >= |log| || !log[k].Sent? then []
    else [log[k].reply] + (if log[k].reply.hasNext then ReplyAt(log, k + 1) else [])
  }

  predicate IsHello(e: Event) { e.Called? && e.call.OnHello? }

  /** The latest greeting, and it was accepted. */
  ghost predicate LatestHello(log: seq<Event>, hello: nat) {
    hello < |log| && AcceptedHello(log[hello]) && forall k :: hello < k < |log| ==> !IsHello(log[k])
  }

  /** The feature is on a line of the reply to that greeting, behind the server name. */
  ghost predicate Lists(log: seq<Event>, hello: nat, feature: string) {
    var reply := ReplyAt(log, hello + 1);
    exists i :: 1 <= i < |reply| && reply[i].message == feature
  }

  ghost predicate HasUpgrade(log: seq<Event>) {
    exists k :: 0 <= k < |log| && log[k].Upgraded?
  }

  // ---- The features -----------------------------------------------------------------------

  lemma FeaturesDiffer(n: nat)
    ensures STARTTLS_FEATURE != "8BITMIME" && STARTTLS_FEATURE != AUTH_FEATURE
    ensures AUTH_FEATURE != "8BITMIME" && "SIZE " + Decimal(n) != STARTTLS_FEATURE
    ensures "SIZE " + Decimal(n) != AUTH_FEATURE
  {
    assert STARTTLS_FEATURE[0] == 'S' && STARTTLS_FEATURE[1] == 'T' && AUTH_FEATURE[0] == 'A';
    assert ("SIZE " + Decimal(n))[0] == 'S' && ("SIZE " + Decimal(n))[1] == 'I';
    hide Decimal;
  }

  lemma FeaturesListed(cfg: Config, link: Link)
    ensures STARTTLS_FEATURE in Features(cfg, link) <==> link.SupportsTls()
    ensures AUTH_FEATURE in Features(cfg, link) <==> cfg.HasAuth()
    ensures "SIZE " + Decimal(cfg.maxMessageSize) in Features(cfg, link)
  {
    hide Decimal;
    FeaturesDiffer(cfg.maxMessageSize);
    var tls := if link.SupportsTls() then ["STARTTLS"] else [];
    var auth := if cfg.HasAuth() then ["AUTH PLAIN LOGIN"] else [];
    var size := ["SIZE " + Decimal(cfg.maxMessageSize)];
    assert Features(cfg, link) == ["8BITMIME"] + tls + auth + size;
  }

  // ---- The greeting stays on the log ------------------------------------------------------

  /** The latest greeting was answered as the settings and the present link have it. */
  ghost predicate GreetedWith(cfg: Config, log: seq<Event>, link: Link, hello: nat) {
    && LatestHello(log, hello)
    && Says(log, hello + 1, Greeting(cfg, link, log[hello].call.extended))
  }

  ghost predicate Says(log: seq<Event>, k: nat, rs: seq<Response>) {
    k + |rs| <= |log| && forall i :: 0 <= i < |rs| ==> log[k + i] == Sent(rs[i])
  }

  lemma {:induction false} ReplyIs(log: seq<Event>, k: nat, rs: seq<Response>)
    requires |rs| > 0 && Says(log, k, rs)
    requires forall i :: 0 <= i < |rs| ==> (rs[i].hasNext <==> i != |rs| - 1)
    ensures ReplyAt(log, k) == rs
    decreases rs
  {
    assert log[k + 0] == Sent(rs[0]);
    if |rs| == 1 {
      assert rs == [rs[0]];
    } else {
      var rest := rs[1..];
      forall i | 0 <= i < |rest| ensures log[k + 1 + i] == Sent(rest[i]) {
        assert log[k + (i + 1)] == Sent(rs[i + 1]);
      }
      ReplyIs(log, k + 1, rest);
    }
  }

  lemma {:induction false} SayAllSays(w: World, rs: seq<Response>)
    ensures |w.SayAll(rs).log| == |w.log| + |rs| && Says(w.SayAll(rs).log, |w.log|, rs)
    decreases rs
  {
    if rs == [] {
    } else {
      SayAllSays(w.Say(rs[0]), rs[1..]);
      var log := w.SayAll(rs).log;
      assert log[|w.log|] == w.Say(rs[0]).log[|w.log|];
      forall i | 0 <= i < |rs| ensures log[|w.log| + i] == Sent(rs[i]) {
        assert i > 0 ==> log[|w.log| + 1 + (i - 1)] == Sent(rs[1..][i - 1]);
      }
    }
  }

  lemma HelloGreets(cfg: Config, w: World, domain: string, extended: bool)
    requires w.state.phase == Connected && DoHello(cfg, w, domain, extended).status.Live?
    ensures
      var next := DoHello(cfg, w, domain, extended).world;
      GreetedWith(cfg, next.log, next.link, |w.log|)
  {
    hide Greeting;
    var asked, rs := w.Ask(cfg, OnHello(domain, extended)), Greeting(cfg, w.link, extended);
    SayAllSays(asked, rs);
    var log := asked.SayAll(rs).log;
    assert log[|w.log|] == asked.log[|w.log|];
    forall k | |w.log| < k < |log| ensures !IsHello(log[k]) {
      assert log[|asked.log| + (k - |asked.log|)] == Sent(rs[k - |asked.log|]);
    }
  }

  /** Only a greeting leaves the connected phase. */
  lemma ExecuteConnected(cfg: Config, w: World, c: Command)
    requires w.state.phase == Connected && !c.Hello? && Execute(cfg, w, c).status.Live?
    ensures Execute(cfg, w, c).world.state.phase == Connected
  {
    hide Topics;
    hide HandleAuth;
    hide NormalizeAddress;
  }

  /** The link changes only together with the whole state. */
  lemma ExecuteLink(cfg: Config, w: World, c: Command)
    requires Execute(cfg, w, c).status.Live?
    ensures
      var next := Execute(cfg, w, c).world;
      next.link == w.link || next.state.phase == Connected
  {
    hide Topics;
    hide HandleAuth;
    hide Greeting;
    hide NormalizeAddress;
  }

  lemma StepLink(cfg: Config, w: World)
    requires Step(cfg, w).status.Live?
    ensures Step(cfg, w).world.link == w.link || Step(cfg, w).world.state.phase == Connected
  {
    hide Parse;
    hide Execute;
    var Line(line, rest) := ReadFlat(w.input);
    if w.state.phase != Data && Parse(cfg.lossy, line).Success? {
      ExecuteLink(cfg, w.Hear(line, rest), Parse(cfg.lossy, line).value);
    }
  }

  lemma NextIsNotHello(cfg: Config, w: World)
    requires w.state.phase != Connected
    ensures NextCall(cfg, w).Some? ==> !NextCall(cfg, w).value.OnHello?
  {
    hide Parse;
    hide IsTerminator;
    hide HandleAuth;
  }

  lemma GreetingStays(cfg: Config, w: World, hello: nat)
    requires w.state.phase != Connected && GreetedWith(cfg, w.log, w.link, hello) && Step(cfg, w).status.Live?
    ensures
      var next := Step(cfg, w).world;
      next.link == w.link ==> GreetedWith(cfg, next.log, next.link, hello)
  {
    hide Step;
    hide NextCall;
    hide Greeting;
    StepCalls(cfg, w);
    NextIsNotHello(cfg, w);
    var log := Step(cfg, w).world.log;
    assert forall k :: 0 <= k < |w.log| ==> log[k] == w.log[k];
  }

  lemma FirstGreeting(cfg: Config, w: World)
    returns (hello: nat)
    requires w.state.phase == Connected && Step(cfg, w).status.Live?
    requires Step(cfg, w).world.state.phase != Connected
    ensures GreetedWith(cfg, Step(cfg, w).world.log, Step(cfg, w).world.link, hello)
  {
    hide Parse;
    hide DoHello;
    hide GreetedWith;
    hide Greeting;
    hide Topics;
    hide HandleAuth;
    hide NormalizeAddress;
    var Line(line, rest) := ReadFlat(w.input);
    var heard := w.Hear(line, rest);
    hello := |heard.log|;
    var Success(c) := Parse(cfg.lossy, line);
    if c.Hello? {
      HelloGreets(cfg, heard, c.domain, c.extended);
    } else {
      ExecuteConnected(cfg, heard, c);
    }
  }

  lemma {:induction false} TurnsAreGreeted(cfg: Config, w: World, turns: nat)
    returns (hello: nat)
    requires w.state.phase == Connected && Turns(cfg, w, turns).status.Live?
    requires Turns(cfg, w, turns).world.state.phase != Connected
    ensures GreetedWith(cfg, Turns(cfg, w, turns).world.log, Turns(cfg, w, turns).world.link, hello)
    decreases turns
  {
    hide Step;
    hide GreetedWith;
    if turns == 0 {
    } else {
      var before := Turns(cfg, w, turns - 1).world;
      if before.state.phase == Connected {
        hello := FirstGreeting(cfg, before);
      } else {
        hello := TurnsAreGreeted(cfg, w, turns - 1);
        GreetingStays(cfg, before, hello);
        StepLink(cfg, before);
      }
    }
  }

  // ---- The answers to AUTH and STARTTLS ---------------------------------------------------

  /** The first thing that follows in the log is this reply. */
  predicate FirstIs(before: seq<Event>, next: seq<Event>, r: Response) {
    |before| < |next| && next[|before|] == Sent(r)
  }

  /** A dialogue starts with a prompt, if it says anything. */
  lemma PromptsFirst(cfg: Config, w: World, mechanism: AuthMethod, initial: Option<bytes>)
    ensures
      var log := HandleAuth(cfg, w, mechanism, initial).world.log;
      |log| > |w.log| ==> log[|w.log|].Sent? && log[|w.log|].reply.code == 334
  {
    hide DecodeBase64;
    hide ReadFlat;
    hide SplitOn;
  }

  lemma AuthFirst(cfg: Config, w: World, mechanism: AuthMethod, initial: Option<bytes>)
    requires w.state.phase == Greeted
    ensures
      var next := DoAuthenticate(cfg, w, mechanism, initial).world.log;
      && (FirstIs(w.log, next, BAD_SEQUENCE) <==> cfg.authMode == RequireTls && w.link.Plain?)
      && (cfg.authMode == NoAuth ==> next == w.log + [Sent(SyntaxError(None))])
  {
    hide HandleAuth;
    PromptsFirst(cfg, w, mechanism, initial);
  }

  lemma StartTlsFirst(cfg: Config, w: World)
    requires w.state.phase == Greeted
    ensures FirstIs(w.log, DoStartTls(cfg, w).world.log, START_TLS) <==> w.link.SupportsTls()
  {
    var next := DoStartTls(cfg, w).world.log;
    assert w.Say(START_TLS).log[|w.log|] == Sent(START_TLS);
  }

  // ---- What a session lists and does ------------------------------------------------------

  /** The features that the present reply to EHLO lists: AUTH if logins are configured,
      STARTTLS if there is an acceptor and there was no upgrade, and the size limit. */
  ghost predicate ListsRightly(cfg: Config, acceptor: bool, log: seq<Event>, hello: nat) {
    && (Lists(log, hello, AUTH_FEATURE) <==> cfg.HasAuth())
    && (Lists(log, hello, STARTTLS_FEATURE) <==> acceptor && !HasUpgrade(log))
    && exists size :: Lists(log, hello, "SIZE " + size) && ReadNat(size) == cfg.maxMessageSize
  }

  /** How the next line is answered, against the list: an AUTH that is not listed is a
      syntax error; one that is listed is refused at once if and only if TLS is required and
      there was no upgrade; STARTTLS is followed by a handshake if and only if it is listed. */
  ghost predicate ServesAsListed(cfg: Config, w: World, hello: nat) {
    match ReadFlat(w.input)
    case Line(line, rest) =>
      var heard, next := w.Hear(line, rest).log, Step(cfg, w).world.log;
      (match Parse(cfg.lossy, line)
       case Success(Authenticate(_, _)) =>
         if Lists(w.log, hello, AUTH_FEATURE)
         then FirstIs(heard, next, BAD_SEQUENCE) <==> cfg.authMode == RequireTls && !HasUpgrade(w.log)
         else next == heard + [Sent(SyntaxError(None))]
       case Success(StartTls) => Lists(w.log, hello, STARTTLS_FEATURE) <==> FirstIs(heard, next, START_TLS)
       case _ => true)
    case _ => true
  }

  lemma GreetedLists(cfg: Config, log: seq<Event>, link: Link, hello: nat, feature: string)
    requires GreetedWith(cfg, log, link, hello) && log[hello].call.extended
    ensures Lists(log, hello, feature) <==> feature in Features(cfg, link)
  {
    hide Features;
    hide LatestHello;
    var g, features := Greeting(cfg, link, true), Features(cfg, link);
    GreetingIsOneReply(cfg, link, true);
    ReplyIs(log, hello + 1, g);
    assert forall i :: 0 <= i < |features| ==> g[1 + i].message == features[i];
    assert forall i :: 1 <= i < |g| ==> g[i].message == features[i - 1];
    hide ReplyAt;
    hide Greeting;
  }

  lemma GreetedListsRightly(cfg: Config, acceptor: bool, w: World, hello: nat)
    requires GreetedWith(cfg, w.log, w.link, hello) && w.log[hello].call.extended
    requires (w.link == Plain(acceptor) && !HasUpgrade(w.log)) || (w.link.Tls? && HasUpgrade(w.log))
    ensures ListsRightly(cfg, acceptor, w.log, hello)
  {
    hide GreetedWith;
    hide Lists;
    hide HasUpgrade;
    hide Features;
    hide Decimal;
    FeaturesListed(cfg, w.link);
    GreetedLists(cfg, w.log, w.link, hello, AUTH_FEATURE);
    GreetedLists(cfg, w.log, w.link, hello, STARTTLS_FEATURE);
    GreetedLists(cfg, w.log, w.link, hello, "SIZE " + Decimal(cfg.maxMessageSize));
    ReadsDecimal(cfg.maxMessageSize);
  }

  lemma GreetedServes(cfg: Config, acceptor: bool, w: World, hello: nat)
    requires ListsRightly(cfg, acceptor, w.log, hello) && w.state.phase == Greeted
    requires (w.link == Plain(acceptor) && !HasUpgrade(w.log)) || (w.link.Tls? && HasUpgrade(w.log))
    ensures ServesAsListed(cfg, w, hello)
  {
    hide Lists;
    hide HasUpgrade;
    hide Parse;
    hide DoAuthenticate;
    hide DoStartTls;
    hide FirstIs;
    hide Decimal;
    match ReadFlat(w.input)
    case Line(line, rest) =>
      var heard := w.Hear(line, rest);
      match Parse(cfg.lossy, line) {
        case Success(Authenticate(mechanism, initial)) => AuthFirst(cfg, heard, mechanism, initial);
        case Success(StartTls) => StartTlsFirst(cfg, heard);
        case _ =>
      }
    case _ =>
  }

  /** A plain link keeps its acceptor. */
  lemma {:induction false} TurnsKeepLink(cfg: Config, w: World, turns: nat)
    requires Turns(cfg, w, turns).status.Live?
    ensures Turns(cfg, w, turns).world.link == w.link || Turns(cfg, w, turns).world.link.Tls?
  {
    hide Step;
    if turns == 0 {
    } else {
      TurnsKeepLink(cfg, w, turns - 1);
    }
  }

  lemma ExplainedLink(cfg: Config, w: World, from: string, m: Marks)
    requires Explained(cfg, w, from, m)
    ensures w.link.Tls? <==> HasUpgrade(w.log)
  {
    hide PhaseExplained;
    hide GreetedSince;
    hide LoggedInSince;
  }

  /** The latest greeting was answered with the server name; the reply to EHLO lists the
      right features, and they are served. */
  ghost predicate Advertises(cfg: Config, acceptor: bool, w: World, hello: nat) {
    && LatestHello(w.log, hello) && NamesServer(cfg, ReplyAt(w.log, hello + 1))
    && (w.log[hello].call.extended ==> ListsRightly(cfg, acceptor, w.log, hello) && ServesAsListed(cfg, w, hello))
  }

  /** A reply with code 250 that starts with the server name. */
  predicate NamesServer(cfg: Config, reply: seq<Response>) {
    reply != [] && reply[0].message == cfg.serverName && forall i :: 0 <= i < |reply| ==> reply[i].code == 250
  }

  lemma GreetedNamesServer(cfg: Config, log: seq<Event>, link: Link, hello: nat)
    requires GreetedWith(cfg, log, link, hello)
    ensures NamesServer(cfg, ReplyAt(log, hello + 1))
  {
    hide Features;
    GreetingIsOneReply(cfg, link, log[hello].call.extended);
    ReplyIs(log, hello + 1, Greeting(cfg, link, log[hello].call.extended));
  }

  lemma GreetedAdvertises(cfg: Config, acceptor: bool, w: World, hello: nat, from: string, m: Marks)
    requires Explained(cfg, w, from, m) && GreetedWith(cfg, w.log, w.link, hello) && w.state.phase == Greeted
    requires w.link == Plain(acceptor) || w.link.Tls?
    ensures Advertises(cfg, acceptor, w, hello)
  {
    hide Explained;
    hide ListsRightly;
    hide ServesAsListed;
    hide HasUpgrade;
    hide Greeting;
    ExplainedLink(cfg, w, from, m);
    GreetedNamesServer(cfg, w.log, w.link, hello);
    if w.log[hello].call.extended {
      GreetedListsRightly(cfg, acceptor, w, hello);
      GreetedServes(cfg, acceptor, w, hello);
    }
  }

  /** Whenever a greeted session waits for a line, there is a latest greeting, accepted; if
      it was EHLO, its reply on the log lists the right features, and the next AUTH or
      STARTTLS is served as listed. AUTH is the exception: before an upgrade that is
      required it is listed and yet refused. */
  lemma AdvertisedAndRefused(cfg: Config, acceptor: bool, input: bytes, turns: nat)
    requires
      var t := Turns(cfg, Start(cfg, Plain(acceptor), input), turns);
      t.status.Live? && t.world.state.phase == Greeted
    ensures
      var w := Turns(cfg, Start(cfg, Plain(acceptor), input), turns).world;
      exists hello :: Advertises(cfg, acceptor, w, hello)
  {
    hide Turns;
    hide Explained;
    hide GreetedWith;
    hide Advertises;
    var start := Start(cfg, Plain(acceptor), input);
    var w := Turns(cfg, start, turns).world;
    StartExplained(cfg, acceptor, input);
    var from, m := TurnsAreExplained(cfg, start, turns, "", Marks(0, 0, 0, 0, 0));
    TurnsKeepLink(cfg, start, turns);
    var hello := TurnsAreGreeted(cfg, start, turns);
    GreetedAdvertises(cfg, acceptor, w, hello, from, m);
  }

  // ---- HELP -----------------------------------------------------------------------------------

  /** The words of a text between blanks. */
  function Words(s: string): seq<string>
    decreases |s|
  {
    match IndexOf(s, ' ')
    case None => [s]
    case Some(i) => [s[..i]] + Words(s[i + 1..])
  }

  lemma WordsCons(word: string, s: string)
    requires ' ' !in word
    ensures Words(word + [' '] + s) == [word] + Words(s)
    ensures Words(word) == [word]
  {
    FirstIndex(word, ' ', s);
    var t := word + [' '] + s;
    assert t[..|word|] == word && t[|word| + 1..] == s;
  }

  lemma {:induction false} WordsOfJoined(words: seq<string>)
    requires words != [] && forall i :: 0 <= i < |words| ==> ' ' !in words[i]
    ensures Words(Joined(words)) == words
  {
    if |words| == 1 {
      WordsCons(words[0], "");
      assert words == [words[0]];
    } else {
      WordsOfJoined(words[1..]);
      WordsCons(words[0], Joined(words[1..]));
    }
  }

  /** A verb of some command. */
  ghost predicate IsVerb(word: string) {
    exists c: Command :: VerbOf(c) == word
  }

  lemma VerbsAre(word: string)
    ensures IsVerb(word) <==> word in BASIC_TOPICS + ["AUTH", "STARTTLS"]
  {
    assert VerbOf(Hello("", false)) == "HELO" && VerbOf(Hello("", true)) == "EHLO" && VerbOf(Help) == "HELP";
    assert VerbOf(MailFrom("")) == "MAIL" && VerbOf(Recipient("")) == "RCPT" && VerbOf(DataStart) == "DATA";
    assert VerbOf(Reset) == "RSET" && VerbOf(NoOp) == "NOOP" && VerbOf(Quit) == "QUIT";
    assert VerbOf(Authenticate(AuthPlain, None)) == "AUTH" && VerbOf(StartTls) == "STARTTLS";
    assert forall c: Command :: VerbOf(c) in BASIC_TOPICS + ["AUTH", "STARTTLS"];
  }

  lemma TopicsHaveNoBlanks(cfg: Config, link: Link)
    ensures
      var words := TopicList(cfg, link);
      words != [] && forall i :: 0 <= i < |words| ==> ' ' !in words[i]
  {}

  lemma TopicsNameVerbs(cfg: Config, link: Link, word: string)
    ensures word in Words(Topics(cfg, link)) <==>
      IsVerb(word) && (word == "AUTH" ==> cfg.HasAuth()) && (word == "STARTTLS" ==> link.SupportsTls())
  {
    hide IsVerb;
    hide Words;
    hide Joined;
    VerbsAre(word);
    TopicsHaveNoBlanks(cfg, link);
    WordsOfJoined(TopicList(cfg, link));
  }

  /** The last line of the reply to HELP names exactly the verbs of the commands there are:
      AUTH only where logins are configured, STARTTLS only where there can be an upgrade. */
  lemma HelpNamesVerbs(cfg: Config, w: World, line: bytes, rest: bytes, word: string)
    requires w.state.phase != Data && ReadFlat(w.input) == Line(line, rest) && Parse(cfg.lossy, line) == Success(Help)
    ensures
      var log := Step(cfg, w).world.log;
      && log[|log| - 1].Sent?
      && (word in Words(log[|log| - 1].reply.message) <==>
            IsVerb(word) && (word == "AUTH" ==> cfg.HasAuth()) && (word == "STARTTLS" ==> w.link.SupportsTls()))
  {
    hide IsVerb;
    hide Words;
    hide Topics;
    hide Parse;
    TopicsNameVerbs(cfg, w.link, word);
  }
}
