/** Whole sessions of a well-behaved client, from the banner to QUIT. */
module Conversation {
  import opened Wrappers
  import opened Bytes
  import opened Commands
  import opened MailObject
  import opened Responses
  import opened Protocol
  import opened Delivery
  import opened Authentication
  import opened Product
  import opened Sessions

  /** What the client says before its first message. */
  datatype Opening = Opening(domain: string, extended: bool, proof: Proof, user: bytes, password: bytes)

  function HelloOf(o: Opening): Command { Hello(o.domain, o.extended) }

  /** From the `calls`-th call on, the client greets, logs in by PLAIN or LOGIN if it has to,
      and the handler accepts both; where TLS is required, the link is already secured. */
  ghost predicate Opens(cfg: Config, o: Opening, calls: nat, link: Link) {
    && ReadsAscii(cfg.lossy) && Fits(HelloOf(o)) && cfg.answers(calls) == Accept
    && (cfg.HasAuth() ==>
          && (cfg.authMode == RequireTls ==> link.Tls?) && cfg.answers(calls + 1) == Accept
          && ProofFits(o.proof) && Proves(cfg, o.proof, o.user, o.password))
  }

  /** Greeting, login, messages and farewell on one link. */
  ghost function Script(cfg: Config, o: Opening, msgs: seq<Message>): bytes
    requires Fits(HelloOf(o)) && (cfg.HasAuth() ==> ProofFits(o.proof)) && AllSendable(cfg, msgs)
  {
    CommandLine(HelloOf(o))
    + ((if cfg.HasAuth() then LoginText(o.proof) else [])
       + (Wires(cfg, msgs) + CommandLine(Quit)))
  }

  /** All that a well-behaved client sends: the script, or a greeting, STARTTLS and raw bytes
      that carry the script through the TLS layer. */
  ghost predicate Speaks(cfg: Config, acceptor: bool, o: Opening, msgs: seq<Message>, raw: Option<bytes>, input: bytes)
  {
    AllSendable(cfg, msgs)
    && match raw
       case None => Opens(cfg, o, 0, Plain(acceptor)) && input == Script(cfg, o, msgs)
       case Some(secret) =>
         && acceptor && cfg.answers(0) == Accept && Opens(cfg, o, 1, Tls)
         && cfg.handshake(secret) == Some(Script(cfg, o, msgs))
         && input == CommandLine(HelloOf(o)) + (CommandLine(StartTls) + secret)
  }

  /** How many calls come before the first mail. */
  function CallsBefore(cfg: Config, raw: Option<bytes>): nat {
    (if raw.Some? then 2 else 1) + (if cfg.HasAuth() then 1 else 0)
  }

  // ---- Turns that hand over no mail -------------------------------------------------------

  lemma {:induction false} NoMailKeeps(log: seq<Event>, next: seq<Event>)
    requires log <= next && (|log| < |next| ==> !next[|log|].Sent?)
    requires forall k :: |log| <= k < |next| && next[k].Called? ==> !next[k].call.OnMail?
    ensures MailsOf(next) == MailsOf(log)
    decreases |next|
  {
    if |next| == |log| {
      assert next == log;
    } else {
      var shorter := next[..|next| - 1];
      NoMailKeeps(log, shorter);
      assert |shorter| > |log| ==> shorter[|shorter| - 1] == next[|next| - 2];
    }
  }

  lemma CommandKeepsMails(cfg: Config, w: World)
    requires w.state.phase != Data && ReadFlat(w.input).Line?
    ensures MailsOf(Step(cfg, w).world.log) == MailsOf(w.log)
  {
    hide MailsOf;
    hide NextCall;
    StepCalls(cfg, w);
    NextIsNoMail(cfg, w);
    FirstIsLine(cfg, w);
    hide Step;
    NoMailKeeps(w.log, Step(cfg, w).world.log);
  }

  lemma NextIsNoMail(cfg: Config, w: World)
    requires w.state.phase != Data
    ensures NextCall(cfg, w).Some? ==> !NextCall(cfg, w).value.OnMail?
  {
    hide Parse;
    hide IsTerminator;
    hide HandleAuth;
  }

  lemma FirstIsLine(cfg: Config, w: World)
    requires ReadFlat(w.input).Line?
    ensures
      var log := Step(cfg, w).world.log;
      w.log <= log && |w.log| < |log| && log[|w.log|].Received?
  {
    hide Process;
    var heard := w.Hear(ReadFlat(w.input).line, ReadFlat(w.input).rest);
    assert Step(cfg, w).world.log[|w.log|] == heard.log[|w.log|];
  }

  // ---- The steps of a script ----------------------------------------------------------------

  lemma HelloRun(cfg: Config, w: World, o: Opening, rest: bytes)
    returns (next: World)
    requires ReadsAscii(cfg.lossy) && Fits(HelloOf(o)) && cfg.answers(w.calls) == Accept && w.state == NEW_STATE
    requires w.input == CommandLine(HelloOf(o)) + rest
    ensures Run(cfg, w) == Run(cfg, next)
    ensures next.state == NEW_STATE.(phase := Greeted) && next.input == rest && next.link == w.link
    ensures next.calls == w.calls + 1 && MailsOf(next.log) == MailsOf(w.log)
  {
    hide Step;
    hide MailsOf;
    hide CommandLine;
    hide Greeting;
    hide Printable;
    CommandIsLine(HelloOf(o));
    ReadsLine(CommandLine(HelloOf(o)), rest);
    CommandStep(cfg, w, HelloOf(o), rest);
    CommandKeepsMails(cfg, w);
    next := Step(cfg, w).world;
  }

  /** The upgrade: the session starts anew on the text that the raw bytes carry. */
  lemma UpgradeRun(cfg: Config, w: World, raw: bytes, text: bytes)
    returns (next: World)
    requires ReadsAscii(cfg.lossy) && w.state.phase == Greeted && w.link == Plain(true)
    requires w.input == CommandLine(StartTls) + raw && cfg.handshake(raw) == Some(text)
    ensures Run(cfg, w) == Run(cfg, next)
    ensures next.state == NEW_STATE && next.input == text && next.link == Tls && next.calls == w.calls
    ensures MailsOf(next.log) == MailsOf(w.log) && Upgraded(raw) in next.log
  {
    hide Step;
    hide MailsOf;
    hide CommandLine;
    StartTlsFits();
    CommandIsLine(StartTls);
    ReadsLine(CommandLine(StartTls), raw);
    CommandStep(cfg, w, StartTls, raw);
    CommandKeepsMails(cfg, w);
    next := Step(cfg, w).world;
  }

  lemma StartTlsFits()
    ensures Fits(StartTls)
  {}

  lemma LoginRun(cfg: Config, w: World, o: Opening, rest: bytes)
    returns (next: World)
    requires w.calls > 0 && Opens(cfg, o, w.calls - 1, w.link) && cfg.HasAuth()
    requires w.state == NEW_STATE.(phase := Greeted)
    requires w.input == LoginText(o.proof) + rest
    ensures Run(cfg, w) == Run(cfg, next)
    ensures next.state == State(Greeted, true, EMPTY_LETTER) && next.input == rest && next.calls == w.calls + 1
    ensures MailsOf(next.log) == MailsOf(w.log) && w.log <= next.log
    ensures Called(OnLogin(cfg.lossy(o.user), cfg.lossy(o.password)), Accept) in next.log
  {
    hide Step;
    hide MailsOf;
    hide LoginText;
    hide ProofFits;
    hide Proves;
    hide ReadsAscii;
    LoginRoundTrip(cfg, w, o.proof, o.user, o.password, rest);
    LiveReads(cfg, w);
    CommandKeepsMails(cfg, w);
    next := Step(cfg, w).world;
  }

  lemma LiveReads(cfg: Config, w: World)
    requires Step(cfg, w).status.Live?
    ensures ReadFlat(w.input).Line?
  {}

  lemma QuitRun(cfg: Config, w: World)
    requires ReadsAscii(cfg.lossy) && w.state.phase == Greeted && w.input == CommandLine(Quit)
    ensures Run(cfg, w).status == Closed
    ensures MailsOf(Run(cfg, w).world.log) == MailsOf(w.log)
  {
    hide Step;
    hide MailsOf;
    assert CommandLine(Quit) + [] == CommandLine(Quit);
    CommandIsLine(Quit);
    ReadsLine(CommandLine(Quit), []);
    CommandStep(cfg, w, Quit, []);
    CommandKeepsMails(cfg, w);
  }

  // ---- Whole scripts --------------------------------------------------------------------------

  /** One script on one link, wherever in the session it starts. */
  lemma ScriptEnds(cfg: Config, w: World, o: Opening, msgs: seq<Message>)
    requires w.state == NEW_STATE && Opens(cfg, o, w.calls, w.link) && AllSendable(cfg, msgs)
    requires w.input == Script(cfg, o, msgs)
    ensures
      var end, first := Run(cfg, w), w.calls + (if cfg.HasAuth() then 2 else 1);
      && end.status == Closed && MailsOf(end.world.log) == Delivering(cfg, MailsOf(w.log), msgs, first)
      && (cfg.HasAuth() ==> Called(OnLogin(cfg.lossy(o.user), cfg.lossy(o.password)), Accept) in end.world.log)
  {
    hide Run;
    hide CommandLine;
    hide LoginText;
    hide Wires;
    hide Printable;
    hide ProofFits;
    hide Proves;
    hide MailsOf;
    hide Delivering;
    var messages := Wires(cfg, msgs) + CommandLine(Quit);
    var t := HelloRun(cfg, w, o, (if cfg.HasAuth() then LoginText(o.proof) else []) + messages);
    if cfg.HasAuth() {
      t := LoginRun(cfg, t, o, messages);
      assert t.log <= Run(cfg, t).world.log;
    } else {
      assert [] + messages == messages;
    }
    t := Transactions(cfg, t, msgs, CommandLine(Quit));
    QuitRun(cfg, t);
  }

  /** The session of a well-behaved client, on a plain link or through an upgrade, ends
      properly, hands over exactly the messages the client sent, and gives a positive receipt
      exactly for those the handler takes. With an upgrade, the login happens behind it. */
  lemma ScriptRuns(cfg: Config, acceptor: bool, o: Opening, msgs: seq<Message>, raw: Option<bytes>, input: bytes)
    requires Speaks(cfg, acceptor, o, msgs, raw, input)
    ensures
      var end := Run(cfg, Start(cfg, Plain(acceptor), input));
      && end.status == Closed
      && MailsOf(end.world.log) == Mails(Letters(msgs), Receipts(cfg, msgs, CallsBefore(cfg, raw)))
      && (cfg.HasAuth() ==> Called(OnLogin(cfg.lossy(o.user), cfg.lossy(o.password)), Accept) in end.world.log)
      && (raw.Some? ==> Upgraded(raw.value) in end.world.log)
  {
    hide Run;
    hide CommandLine;
    hide MailsOf;
    hide Printable;
    hide Script;
    hide ProofFits;
    hide Proves;
    var w := Start(cfg, Plain(acceptor), input);
    StartHasNoMail(cfg, Plain(acceptor), input);
    if raw.Some? {
      w := HelloRun(cfg, w, o, CommandLine(StartTls) + raw.value);
      w := UpgradeRun(cfg, w, raw.value, Script(cfg, o, msgs));
      assert w.log <= Run(cfg, w).world.log;
    }
    ScriptEnds(cfg, w, o, msgs);
    NothingBefore(cfg, msgs, CallsBefore(cfg, raw));
  }

  lemma NothingBefore(cfg: Config, msgs: seq<Message>, calls: nat)
    ensures Delivering(cfg, Mails([], []), msgs, calls) == Mails(Letters(msgs), Receipts(cfg, msgs, calls))
  {
    hide Letters;
    hide Receipts;
    assert [] + Letters(msgs) == Letters(msgs) && [] + Receipts(cfg, msgs, calls) == Receipts(cfg, msgs, calls);
  }

  lemma StartHasNoMail(cfg: Config, link: Link, input: bytes)
    ensures MailsOf(Start(cfg, link, input).log) == Mails([], [])
  {
    MailsSnoc([], Sent(Banner(cfg.serverName)));
  }

  /** The same for the session object, with the bytes arriving in any pieces; if it is
      interrupted, it has handed over the first few of the messages, and given the first few
      receipts. */
  method ServeScript(cfg: Config, acceptor: bool, o: Opening, msgs: seq<Message>, raw: Option<bytes>, input: bytes,
                     cuts: seq<nat>, patience: nat)
    returns (log: seq<Event>, flow: Flow)
    requires Speaks(cfg, acceptor, o, msgs, raw, input)
    ensures MailsOf(log).letters <= Letters(msgs)
    ensures MailsOf(log).receipts <= Receipts(cfg, msgs, CallsBefore(cfg, raw))
    ensures flow == Interrupted || flow == Return
    ensures flow == Return ==> MailsOf(log) == Mails(Letters(msgs), Receipts(cfg, msgs, CallsBefore(cfg, raw)))
    ensures patience > |Transcript(cfg, Plain(acceptor), input)| ==> flow == Return
    ensures flow == Return && cfg.HasAuth() ==>
      Called(OnLogin(cfg.lossy(o.user), cfg.lossy(o.password)), Accept) in log
    ensures flow == Return && raw.Some? ==> Upgraded(raw.value) in log
  {
    hide Run;
    hide MailsOf;
    hide Speaks;
    log, flow := Serve(cfg, Plain(acceptor), input, cuts, patience);
    ScriptRuns(cfg, acceptor, o, msgs, raw, input);
    MailsOfPrefix(Transcript(cfg, Plain(acceptor), input), |log|);
  }

  lemma {:induction false} MailsOfPrefix(log: seq<Event>, n: nat)
    requires n <= |log|
    ensures MailsOf(log[..n]).letters <= MailsOf(log).letters
    ensures MailsOf(log[..n]).receipts <= MailsOf(log).receipts
    decreases |log|
  {
    if n < |log| {
      var shorter := log[..|log| - 1];
      MailsOfPrefix(shorter, n);
      assert shorter[..n] == log[..n];
    } else {
      assert log[..n] == log;
    }
  }
}
