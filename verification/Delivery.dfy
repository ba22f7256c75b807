/** What a well-behaved client sends is what the handler gets. */
module Delivery {
  import opened Bytes
  import opened Commands
  import opened MailObject
  import opened Responses
  import opened Protocol

  // ---- Dot stuffing -------------------------------------------------------------------

  /** Sender side of the transparency rule (section 4.5.2 of RFC 5321). */
  function Stuff(line: bytes): bytes {
    if line != [] && line[0] == '.' then ['.'] + line else line
  }

  /** Receiver side of the same rule as the standard has it. */
  function RemoveDot(line: bytes): bytes {
    if line != [] && line[0] == '.' then line[1..] else line
  }

  /** A line that fits the reader once it is stuffed. */
  predicate IsBodyText(line: bytes) {
    line != [] && line[|line| - 1] == LF && LF !in line[..|line| - 1] && |Stuff(line)| <= MAX_LINE_LENGTH
  }

  lemma StuffedLine(line: bytes)
    requires IsBodyText(line)
    ensures IsLine(Stuff(line)) && !IsTerminator(Stuff(line)) && Unstuff(Stuff(line)) == line
  {
    var s := Stuff(line);
    if line[0] == '.' {
      assert s[..|s| - 1] == ['.'] + line[..|line| - 1];
      assert s[1..] == line && s[0] == '.' && s[1] == '.';
    } else {
      assert s[0] != '.';
    }
  }

  /** A single leading dot, which the standard removes and the session keeps. */
  predicate SingleDot(line: bytes) {
    line != [] && line[0] == '.' && !(|line| >= 2 && line[1] == '.')
  }

  /** The session undoes stuffing as the standard says exactly when it is not fed a line
      with a single leading dot, which no stuffed line has. */
  lemma UnstuffMeetsStandard(line: bytes)
    ensures Unstuff(line) == RemoveDot(line) <==> !SingleDot(line)
    ensures |RemoveDot(line)| <= |Unstuff(line)|
    ensures |RemoveDot(line)| == |Unstuff(line)| <==> !SingleDot(line)
  {
    assert ".." <= line <==> |line| >= 2 && line[0] == '.' && line[1] == '.';
  }

  /** A line that the two read differently. */
  lemma DotIsKept()
    ensures IsLine(".a\r\n") && !IsTerminator(".a\r\n")
    ensures Unstuff(".a\r\n") == ".a\r\n" && RemoveDot(".a\r\n") == "a\r\n"
  {
    assert ".a\r\n"[1] == 'a';
  }

  // ---- Single turns -------------------------------------------------------------------

  lemma LineStep(cfg: Config, w: World, line: bytes, rest: bytes)
    requires IsLine(line) && w.input == line + rest
    ensures Step(cfg, w) == Process(cfg, w.Hear(line, rest), line)
  {
    hide Process;
    ReadsLine(line, rest);
  }

  /** A command as a client sends it. */
  function CommandLine(c: Command): bytes
    requires PrintableCommand(c)
  {
    PrintPlain(c) + CRLF
  }

  predicate Fits(c: Command) {
    PrintableCommand(c) && |CommandLine(c)| <= MAX_LINE_LENGTH
  }

  lemma CommandIsLine(c: Command)
    requires Fits(c)
    ensures IsLine(CommandLine(c))
  {
    VerbsAreUpper(c);
    PrintIsOneLine(c, VerbOf(c), KeywordOf(c));
    hide Print;
    var line := CommandLine(c);
    assert line[..|line| - 1] == PrintPlain(c) + ['\r'];
  }

  lemma VerbsAreUpper(c: Command)
    ensures Spells(VerbOf(c), KeywordOf(c), c)
  {}

  lemma CommandStep(cfg: Config, w: World, c: Command, rest: bytes)
    requires ReadsAscii(cfg.lossy) && Fits(c) && w.state.phase != Data && w.input == CommandLine(c) + rest
    ensures Step(cfg, w) == Execute(cfg, w.Hear(CommandLine(c), rest), c)
  {
    CommandIsLine(c);
    LineStep(cfg, w, CommandLine(c), rest);
    VerbsAreUpper(c);
    PrintThenParse(cfg.lossy, c, VerbOf(c), KeywordOf(c), CRLF);
    hide Parse;
    hide Execute;
    hide Print;
  }

  // ---- The mails in a log ---------------------------------------------------------------

  /** What the client reads right after a mail was handed over: whether it was taken. */
  datatype Receipt = Receipt(mail: Letter, positive: bool)

  /** The mails handed over, and the receipts for them, in order. */
  datatype Mails = Mails(letters: seq<Letter>, receipts: seq<Receipt>) {
    function Add(mail: Letter, positive: bool): Mails {
      Mails(letters + [mail], receipts + [Receipt(mail, positive)])
    }
  }

  predicate IsPositive(r: Response) { 200 <= r.code < 300 }

  predicate EndsOnMail(log: seq<Event>) {
    log != [] && log[|log| - 1].Called? && log[|log| - 1].call.OnMail?
  }

  function NextMails(m: Mails, log: seq<Event>, e: Event): Mails {
    match e
    case Called(OnMail(mail), _) => m.(letters := m.letters + [mail])
    case Sent(r) =>
      if EndsOnMail(log) then m.(receipts := m.receipts + [Receipt(log[|log| - 1].call.mail, IsPositive(r))]) else m
    case _ => m
  }

  function MailsOf(log: seq<Event>): Mails {
    if log == [] then Mails([], [])
    else NextMails(MailsOf(log[..|log| - 1]), log[..|log| - 1], log[|log| - 1])
  }

  lemma MailsSnoc(log: seq<Event>, e: Event)
    ensures MailsOf(log + [e]) == NextMails(MailsOf(log), log, e)
  {
    assert (log + [e])[..|log|] == log;
  }

  // ---- Message data ---------------------------------------------------------------------

  function StuffAll(lines: seq<bytes>): seq<bytes> {
    seq(|lines|, i requires 0 <= i < |lines| => Stuff(lines[i]))
  }

  function Stuffed(lines: seq<bytes>): bytes {
    Concat(StuffAll(lines))
  }

  /** The body as the session reads it, and as the standard does. */
  function Unstuffed(lines: seq<bytes>): bytes {
    if lines == [] then [] else Unstuff(lines[0]) + Unstuffed(lines[1..])
  }

  function Undotted(lines: seq<bytes>): bytes {
    if lines == [] then [] else RemoveDot(lines[0]) + Undotted(lines[1..])
  }

  /** The two readings of a body agree exactly if no line has a single leading dot. */
  lemma {:induction false} BodyMeetsStandard(lines: seq<bytes>)
    ensures |Undotted(lines)| <= |Unstuffed(lines)|
    ensures |Undotted(lines)| == |Unstuffed(lines)| ==> forall i :: 0 <= i < |lines| ==> !SingleDot(lines[i])
    ensures Unstuffed(lines) == Undotted(lines) <==> forall i :: 0 <= i < |lines| ==> !SingleDot(lines[i])
  {
    hide Unstuff;
    hide RemoveDot;
    hide SingleDot;
    if lines == [] {
    } else {
      BodyMeetsStandard(lines[1..]);
      UnstuffMeetsStandard(lines[0]);
      assert forall i :: 0 < i < |lines| ==> lines[i] == lines[1..][i - 1];
      assert forall i :: 0 <= i < |lines| - 1 ==> lines[1..][i] == lines[i + 1];
    }
  }

  /** Unstuffing undoes stuffing, line by line. */
  lemma {:induction false} UnstuffsAll(lines: seq<bytes>)
    requires forall i :: 0 <= i < |lines| ==> IsBodyText(lines[i])
    ensures Unstuffed(StuffAll(lines)) == Concat(lines)
    ensures forall i :: 0 <= i < |lines| ==> IsWireLine(StuffAll(lines)[i])
  {
    hide Stuff;
    hide Unstuff;
    hide IsBodyText;
    hide IsWireLine;
    if lines == [] {
    } else {
      assert StuffAll(lines)[1..] == StuffAll(lines[1..]);
      UnstuffsAll(lines[1..]);
      StuffedIsWireLine(lines[0]);
      forall i | 0 <= i < |lines| ensures IsWireLine(StuffAll(lines)[i]) {
        assert i > 0 ==> StuffAll(lines)[i] == StuffAll(lines[1..])[i - 1];
      }
    }
  }

  /** A line of a body on the wire, other than the terminator. */
  predicate IsWireLine(line: bytes) {
    IsLine(line) && !IsTerminator(line)
  }

  lemma StuffedIsWireLine(line: bytes)
    requires IsBodyText(line)
    ensures IsWireLine(Stuff(line)) && Unstuff(Stuff(line)) == line
  {
    StuffedLine(line);
  }

  /** The session has captured `text` more, and is still in the data phase. */
  ghost predicate Captured(w: World, next: World, text: bytes, rest: bytes) {
    && next.input == rest && next.link == w.link && next.calls == w.calls
    && next.state == w.state.(currentMail := w.state.currentMail.(data := w.state.currentMail.data + text))
    && MailsOf(next.log) == MailsOf(w.log)
  }

  lemma {:induction false} BodyRun(cfg: Config, w: World, lines: seq<bytes>, rest: bytes)
    returns (next: World)
    requires w.state.phase == Data && w.input == Concat(lines) + rest
    requires forall i :: 0 <= i < |lines| ==> IsWireLine(lines[i])
    requires |w.state.currentMail.data| + |Unstuffed(lines)| <= cfg.maxMessageSize
    ensures Run(cfg, w) == Run(cfg, next) && Captured(w, next, Unstuffed(lines), rest)
    decreases lines
  {
    hide Step;
    hide Captured;
    hide IsWireLine;
    if lines == [] {
      next := w;
      NothingCaptured(w, rest);
    } else {
      var more := Concat(lines[1..]) + rest;
      assert w.input == lines[0] + more;
      CaptureOne(cfg, w, lines[0], more);
      var t := Step(cfg, w).world;
      next := BodyRun(cfg, t, lines[1..], rest);
      CapturedTwice(w, t, next, Unstuff(lines[0]), Unstuffed(lines[1..]), more, rest);
    }
  }

  lemma NothingCaptured(w: World, rest: bytes)
    requires w.input == [] + rest
    ensures Captured(w, w, [], rest)
  {}

  lemma CaptureOne(cfg: Config, w: World, line: bytes, more: bytes)
    requires w.state.phase == Data && w.input == line + more && IsWireLine(line)
    requires |w.state.currentMail.data| + |Unstuff(line)| <= cfg.maxMessageSize
    ensures
      var t := Step(cfg, w);
      && t.status.Live? && Captured(w, t.world, Unstuff(line), more)
      && t.world.state.phase == Data && t.world.input == more
      && t.world.state.currentMail.data == w.state.currentMail.data + Unstuff(line)
      && t.world.link == w.link && |t.world.input| < |w.input|
  {
    hide Parse;
    hide Execute;
    hide Unstuff;
    LineStep(cfg, w, line, more);
    MailsSnoc(w.log, Received(line));
  }

  lemma CapturedTwice(w: World, t: World, next: World, a: bytes, b: bytes, more: bytes, rest: bytes)
    requires Captured(w, t, a, more) && Captured(t, next, b, rest)
    ensures Captured(w, next, a + b, rest)
  {
    assert w.state.currentMail.data + a + b == w.state.currentMail.data + (a + b);
  }

  /** One mail was handed over, with a positive receipt exactly if it was accepted, and the
      session is ready for the next. */
  ghost predicate Delivered(w: World, next: World, mail: Letter, accepted: bool, rest: bytes) {
    && next.input == rest && next.link == w.link && next.calls == w.calls + 1
    && next.state == w.state.(phase := Greeted, currentMail := EMPTY_LETTER)
    && MailsOf(next.log) == MailsOf(w.log).Add(mail, accepted)
  }

  const DOT: bytes := ".\r\n"

  /** A line ends the body exactly if it is a dot and a line end, CRLF or LF. */
  lemma TerminatorIsDot(line: bytes)
    requires IsLine(line)
    ensures IsTerminator(line) <==> StripLineEnd(line) == "."
  {
    if StripLineEnd(line) == "." {
      if EndsWith(line, CRLF) {
        assert line == line[..|line| - 2] + line[|line| - 2..];
      } else {
        assert line == line[..|line| - 1] + line[|line| - 1..];
      }
    }
  }

  lemma TerminatorsAreLines(dot: bytes)
    requires IsTerminator(dot)
    ensures IsLine(dot)
  {}

  lemma TerminatorRun(cfg: Config, w: World, dot: bytes, rest: bytes)
    returns (next: World)
    requires w.state.phase == Data && IsTerminator(dot) && w.input == dot + rest
    ensures Run(cfg, w) == Run(cfg, next)
    ensures Delivered(w, next, w.state.currentMail, cfg.answers(w.calls).Accept?, rest)
  {
    hide Parse;
    hide Execute;
    hide MailsOf;
    TerminatorsAreLines(dot);
    LineStep(cfg, w, dot, rest);
    next := Step(cfg, w).world;
    var heard := w.Hear(dot, rest);
    var asked := heard.Ask(cfg, OnMail(w.state.currentMail));
    MailsSnoc(w.log, Received(dot));
    MailsSnoc(heard.log, asked.log[|heard.log|]);
    MailsSnoc(asked.log, next.log[|asked.log|]);
    assert next.log == asked.log + [next.log[|asked.log|]];
  }

  /** Any body within the limit, and its terminator, are handed over as one mail, whatever
      the handler answers. Its data are those of the standard exactly if no line has a
      single leading dot. */
  lemma AnyBody(cfg: Config, w: World, lines: seq<bytes>, dot: bytes, rest: bytes)
    returns (next: World)
    requires w.state.phase == Data && w.state.currentMail.data == []
    requires IsTerminator(dot) && w.input == Concat(lines) + (dot + rest)
    requires forall i :: 0 <= i < |lines| ==> IsWireLine(lines[i])
    requires |Unstuffed(lines)| <= cfg.maxMessageSize
    ensures Run(cfg, w) == Run(cfg, next)
    ensures Delivered(w, next, w.state.currentMail.(data := Unstuffed(lines)), cfg.answers(w.calls).Accept?, rest)
    ensures Unstuffed(lines) == Undotted(lines) <==> forall i :: 0 <= i < |lines| ==> !SingleDot(lines[i])
  {
    hide Run;
    hide IsWireLine;
    hide SingleDot;
    hide Undotted;
    hide IsTerminator;
    hide MailsOf;
    var t := BodyRun(cfg, w, lines, dot + rest);
    next := TerminatorRun(cfg, t, dot, rest);
    BodyMeetsStandard(lines);
    assert [] + Unstuffed(lines) == Unstuffed(lines);
  }

  /** A stuffed body and its terminator come back as one mail with the original bytes. */
  lemma BodyRoundTrip(cfg: Config, w: World, lines: seq<bytes>, dot: bytes, rest: bytes)
    returns (next: World)
    requires w.state.phase == Data && w.state.currentMail.data == []
    requires IsTerminator(dot) && w.input == Stuffed(lines) + (dot + rest)
    requires forall i :: 0 <= i < |lines| ==> IsBodyText(lines[i])
    requires |Concat(lines)| <= cfg.maxMessageSize
    ensures Run(cfg, w) == Run(cfg, next)
    ensures Delivered(w, next, w.state.currentMail.(data := Concat(lines)), cfg.answers(w.calls).Accept?, rest)
  {
    hide Run;
    hide Delivered;
    hide IsBodyText;
    hide IsWireLine;
    hide Unstuffed;
    hide IsTerminator;
    UnstuffsAll(lines);
    next := AnyBody(cfg, w, StuffAll(lines), dot, rest);
  }

  // ---- Transactions -----------------------------------------------------------------------

  datatype Message = Message(from: string, to: seq<string>, lines: seq<bytes>)

  function Bracketed(a: string): string {
    "<" + a + ">"
  }

  predicate IsAddress(a: string) {
    TextTrimmed(a) && Printable(Bracketed(a))
  }

  predicate IsRecipient(a: string) {
    IsAddress(a) && Fits(Recipient(Bracketed(a)))
  }

  predicate IsSendable(cfg: Config, msg: Message) {
    && IsAddress(msg.from) && Fits(MailFrom(Bracketed(msg.from)))
    && (forall i :: 0 <= i < |msg.to| ==> IsRecipient(msg.to[i]))
    && (forall i :: 0 <= i < |msg.lines| ==> IsBodyText(msg.lines[i]))
    && |Concat(msg.lines)| <= cfg.maxMessageSize
  }

  function RecipientLines(to: seq<string>): bytes
    requires forall i :: 0 <= i < |to| ==> IsRecipient(to[i])
  {
    if to == [] then [] else
      assert IsRecipient(to[0]);
      CommandLine(Recipient(Bracketed(to[0]))) + RecipientLines(to[1..])
  }

  /** All a client sends for one message. */
  function Wire(cfg: Config, msg: Message): bytes
    requires IsSendable(cfg, msg)
  {
    CommandLine(MailFrom(Bracketed(msg.from)))
    + (RecipientLines(msg.to) + (CommandLine(DataStart) + (Stuffed(msg.lines) + DOT)))
  }

  function LetterOf(msg: Message): Letter {
    Letter(msg.from, msg.to, Concat(msg.lines))
  }

  /** A command was accepted with OK or the like: nothing but the state changed. */
  ghost predicate Accepted(w: World, next: World, state: State, rest: bytes) {
    && next.state == state && next.input == rest && next.link == w.link && next.calls == w.calls
    && MailsOf(next.log) == MailsOf(w.log)
  }

  lemma MailsAfterReply(w: World, line: bytes, r: Response)
    ensures MailsOf(w.log + [Received(line)] + [Sent(r)]) == MailsOf(w.log)
  {
    MailsSnoc(w.log, Received(line));
    MailsSnoc(w.log + [Received(line)], Sent(r));
  }

  lemma MailRun(cfg: Config, w: World, from: string, rest: bytes)
    returns (next: World)
    requires ReadsAscii(cfg.lossy) && IsAddress(from) && Fits(MailFrom(Bracketed(from)))
    requires w.state.phase == Greeted && w.Authorized(cfg)
    requires w.input == CommandLine(MailFrom(Bracketed(from))) + rest
    ensures Run(cfg, w) == Run(cfg, next)
    ensures Accepted(w, next, State(Envelope, w.state.isAuthenticated, Letter(from, [], [])), rest)
  {
    var c := MailFrom(Bracketed(from));
    CommandStep(cfg, w, c, rest);
    BracketedAddress(from);
    MailsAfterReply(w, CommandLine(c), OK);
    hide CommandLine;
    hide Step;
    hide MailsOf;
    hide NormalizeAddress;
    hide Fits;
    hide IsAddress;
    hide ReadsAscii;
    next := Step(cfg, w).world;
  }

  lemma RecipientTurn(cfg: Config, w: World, line: bytes, rest: bytes, to: string)
    requires w.state.phase == Envelope && w.Authorized(cfg) && NormalizeAddress(Bracketed(to)) == to
    ensures
      var t, mail := DoRecipient(cfg, w.Hear(line, rest), Bracketed(to)), w.state.currentMail;
      t.status.Live? && Accepted(w, t.world, w.state.(currentMail := mail.(to := mail.to + [to])), rest)
  {
    MailsAfterReply(w, line, OK);
    hide MailsOf;
    hide NormalizeAddress;
    hide Bracketed;
  }

  lemma RecipientRun(cfg: Config, w: World, to: string, rest: bytes)
    returns (next: World)
    requires ReadsAscii(cfg.lossy) && IsRecipient(to)
    requires w.state.phase == Envelope && w.Authorized(cfg)
    requires w.input == CommandLine(Recipient(Bracketed(to))) + rest
    ensures Run(cfg, w) == Run(cfg, next)
    ensures
      var mail := w.state.currentMail;
      Accepted(w, next, w.state.(currentMail := mail.(to := mail.to + [to])), rest)
  {
    hide Step;
    hide DoRecipient;
    hide CommandLine;
    hide Accepted;
    hide Fits;
    hide Printable;
    hide NormalizeAddress;
    var c := Recipient(Bracketed(to));
    CommandStep(cfg, w, c, rest);
    BracketedAddress(to);
    RecipientTurn(cfg, w, CommandLine(c), rest, to);
    next := Step(cfg, w).world;
  }

  lemma {:induction false} RecipientsRun(cfg: Config, w: World, rcpts: seq<string>, rest: bytes)
    returns (next: World)
    requires ReadsAscii(cfg.lossy) && w.state.phase == Envelope && w.Authorized(cfg)
    requires forall i :: 0 <= i < |rcpts| ==> IsRecipient(rcpts[i])
    requires w.input == RecipientLines(rcpts) + rest
    ensures Run(cfg, w) == Run(cfg, next)
    ensures
      var mail := w.state.currentMail;
      Accepted(w, next, w.state.(currentMail := mail.(to := mail.to + rcpts)), rest)
    decreases rcpts
  {
    hide Run;
    hide CommandLine;
    hide MailsOf;
    var mail := w.state.currentMail;
    if rcpts == [] {
      assert mail.to + rcpts == mail.to && w.input == rest;
      next := w;
    } else {
      var more := RecipientLines(rcpts[1..]) + rest;
      assert w.input == CommandLine(Recipient(Bracketed(rcpts[0]))) + more;
      var t := RecipientRun(cfg, w, rcpts[0], more);
      next := RecipientsRun(cfg, t, rcpts[1..], rest);
      assert mail.to + [rcpts[0]] + rcpts[1..] == mail.to + rcpts;
    }
  }

  lemma DataRun(cfg: Config, w: World, rest: bytes)
    returns (next: World)
    requires ReadsAscii(cfg.lossy) && w.state.phase == Envelope && w.Authorized(cfg)
    requires w.input == CommandLine(DataStart) + rest
    ensures Run(cfg, w) == Run(cfg, next)
    ensures Accepted(w, next, w.state.(phase := Data), rest)
  {
    CommandStep(cfg, w, DataStart, rest);
    MailsAfterReply(w, CommandLine(DataStart), DATA_START);
    hide CommandLine;
    hide Step;
    hide MailsOf;
    next := Step(cfg, w).world;
  }

  lemma RegroupWire(a: bytes, b: bytes, c: bytes, d: bytes, rest: bytes)
    ensures a + (b + (c + (d + DOT))) + rest == a + (b + (c + (d + (DOT + rest))))
  {}

  /** A whole transaction: the handler gets exactly the message that was sent. */
  lemma Transaction(cfg: Config, w: World, msg: Message, rest: bytes)
    returns (next: World)
    requires ReadsAscii(cfg.lossy) && w.state.phase == Greeted && w.Authorized(cfg)
    requires IsSendable(cfg, msg) && w.input == Wire(cfg, msg) + rest
    ensures Run(cfg, w) == Run(cfg, next)
    ensures Delivered(w, next, LetterOf(msg), cfg.answers(w.calls).Accept?, rest)
  {
    hide ReadsAscii;
    hide IsRecipient;
    hide IsAddress;
    hide IsBodyText;
    hide Stuffed;
    hide RecipientLines;
    hide Run;
    hide CommandLine;
    hide MailsOf;
    hide Concat;
    var body := Stuffed(msg.lines) + (DOT + rest);
    var data := CommandLine(DataStart) + body;
    var recipients := RecipientLines(msg.to) + data;
    RegroupWire(CommandLine(MailFrom(Bracketed(msg.from))), RecipientLines(msg.to), CommandLine(DataStart),
            Stuffed(msg.lines), rest);
    var a := MailRun(cfg, w, msg.from, recipients);
    var b := RecipientsRun(cfg, a, msg.to, data);
    var c := DataRun(cfg, b, body);
    next := BodyRoundTrip(cfg, c, msg.lines, DOT, rest);
    assert [] + msg.to == msg.to;
  }

  // ---- Whole sessions ---------------------------------------------------------------------

  ghost predicate AllSendable(cfg: Config, msgs: seq<Message>) {
    forall i :: 0 <= i < |msgs| ==> IsSendable(cfg, msgs[i])
  }

  ghost function Wires(cfg: Config, msgs: seq<Message>): bytes
    requires AllSendable(cfg, msgs)
  {
    if msgs == [] then [] else Wire(cfg, msgs[0]) + Wires(cfg, msgs[1..])
  }

  function Letters(msgs: seq<Message>): seq<Letter> {
    seq(|msgs|, i requires 0 <= i < |msgs| => LetterOf(msgs[i]))
  }

  /** Positive receipts for the messages that the handler accepts, from the `calls`-th call on. */
  function Receipts(cfg: Config, msgs: seq<Message>, calls: nat): seq<Receipt> {
    seq(|msgs|, i requires 0 <= i < |msgs| => Receipt(LetterOf(msgs[i]), cfg.answers(calls + i).Accept?))
  }

  function Delivering(cfg: Config, m: Mails, msgs: seq<Message>, calls: nat): Mails {
    Mails(m.letters + Letters(msgs), m.receipts + Receipts(cfg, msgs, calls))
  }

  lemma MoreSent(cfg: Config, m: Mails, msgs: seq<Message>, calls: nat)
    requires msgs != []
    ensures Delivering(cfg, m.Add(LetterOf(msgs[0]), cfg.answers(calls).Accept?), msgs[1..], calls + 1)
         == Delivering(cfg, m, msgs, calls)
  {
    assert Letters(msgs) == [LetterOf(msgs[0])] + Letters(msgs[1..]);
    assert Receipts(cfg, msgs, calls)
        == [Receipt(LetterOf(msgs[0]), cfg.answers(calls).Accept?)] + Receipts(cfg, msgs[1..], calls + 1);
    hide Letters;
    hide Receipts;
  }

  /** Any number of transactions in one session hand over exactly the messages sent, in
      order, whatever the handler answers to each, and give a positive receipt exactly for
      those that it accepts: nothing leaks from one to the next. */
  lemma {:induction false} Transactions(cfg: Config, w: World, msgs: seq<Message>, rest: bytes)
    returns (next: World)
    requires ReadsAscii(cfg.lossy) && w.state.phase == Greeted && w.Authorized(cfg)
    requires AllSendable(cfg, msgs) && w.input == Wires(cfg, msgs) + rest
    ensures Run(cfg, w) == Run(cfg, next)
    ensures next.state.phase == Greeted && next.input == rest && next.calls == w.calls + |msgs|
    ensures MailsOf(next.log) == Delivering(cfg, MailsOf(w.log), msgs, w.calls)
    decreases |msgs|
  {
    hide Run;
    hide Wire;
    hide MailsOf;
    hide IsSendable;
    hide LetterOf;
    if msgs == [] {
      next := w;
      assert w.input == rest;
      assert MailsOf(w.log).letters + [] == MailsOf(w.log).letters;
      assert MailsOf(w.log).receipts + [] == MailsOf(w.log).receipts;
    } else {
      var more := Wires(cfg, msgs[1..]) + rest;
      assert w.input == Wire(cfg, msgs[0]) + more;
      var t := Transaction(cfg, w, msgs[0], more);
      next := Transactions(cfg, t, msgs[1..], rest);
      MoreSent(cfg, MailsOf(w.log), msgs, w.calls);
    }
  }
}
