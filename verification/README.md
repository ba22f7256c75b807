# A verified model of the SMTP proxy

The program is an SMTP server that passes mail on to a web mail service. This project
models its two stateful halves and proves properties of whole runs of them:

- **The session engine** (`lib/smtp`): a line reader over bytes that arrive in arbitrary
  pieces, a command parser, a machine with the phases connected, greeted, envelope and
  data, AUTH dialogues that read further lines, capture of a dot-stuffed body within a
  size limit, the upgrade to TLS, and the printer of replies.
- **The proxy around it** (`lib/mail_proxy`, `lib/smtp/src/server.rs`): the handler that
  binds senders to logins, the table of connections and fails per peer that all sessions
  share, and the listener, whose connection tasks interleave freely while time passes.

## How it is built

`Protocol.dfy` says what a session does as a function of the flat bytes it is sent: a
`World` with a log of everything the outside can see (lines read, replies sent, handler
calls with their answers, the upgrade), one `Step` for one turn of the loop, and `Run` for
the whole session. `Session.dfy` is the session as the program has it: an object with
fields, loops and a connection that hands out pieces. `Serve` proves that the object does
what the function says, for every way of cutting the bytes, and that an interrupted
session (any await may fail or time out) has done an initial part of it. Everything
proved of `Run` therefore holds of the session, and everything said of all positions in a
log holds of interrupted sessions too.

| file | content |
|---|---|
| `Bytes.dfy`, `Command.dfy`, `Response.dfy`, `Mail.dfy` | byte strings, command grammar, replies, the mail object |
| `Protocol.dfy` | the session as a function of flat bytes |
| `Connection.dfy`, `Reader.dfy`, `Session.dfy` | the session as objects, proved against that function |
| `History.dfy` | why each mail was handed over, and each body refused |
| `Delivery.dfy`, `Authentication.dfy`, `Conversation.dfy` | what well-behaved clients send arrives unchanged |
| `Replies.dfy`, `Texts.dfy`, `Discipline.dfy`, `Dialogue.dfy` | what clients read, and that replies stay in step with lines |
| `Answers.dfy`, `Features.dfy` | what the client is told, in codes and features, against what happens |
| `Conservation.dfy`, `Ledger.dfy` | no byte and no transaction is lost or counted twice; the state read back from the log |
| `Fail2Ban.dfy`, `Proxy.dfy`, `Product.dfy` | the shared table and the handler, and their product with a session |
| `Server.dfy`, `Isolation.dfy` | all connection tasks as one timed system |
| `Sharpness.dfy` | that its hypotheses on time are needed, and for which limits |
| `Listener.dfy` | the objects of all tasks, driven through any schedule of that system |

## Model

| member | source | states |
|---|---|---|
| Sessions.Serve | lib/smtp/src/session.rs:123-381 | Whatever pieces the bytes come in and wherever an await fails, the visible behaviour is the flat transcript, or its initial part of the length reached; the end result is that of the flat run. So it does not depend on the pieces. |
| Sessions.Session.Handle | lib/smtp/src/session.rs:134-381 | The loop terminates on every finite stream and refines the run of the specification; interrupted, its log is a prefix. |
| Sessions.Session.HandleOnce | lib/smtp/src/session.rs:138-143 | One turn of the loop is one step of the specification; end of input, a truncated line and an overlong line are errors. |
| Sessions.Session.HandleLine | lib/smtp/src/session.rs:145-177 | A line is a terminator, a body line, a syntax error or a command, with the effect the specification gives it. |
| Sessions.Session.Dispatch | lib/smtp/src/session.rs:177-379 | Every command has exactly the replies, handler calls, new state and end that the specification gives it. |
| Sessions.Session.SayHello | lib/smtp/src/session.rs:178-226 | Greeting only once per state; a refused or failed call ends the session; EHLO lists its features as one reply of several lines. |
| Sessions.Session.ReplyAll | lib/smtp/src/session.rs:208-220 | All lines are sent in order, or an initial part of them if interrupted. |
| Sessions.Session.StartTls | lib/smtp/src/session.rs:241-260 | The upgrade needs an acceptor and the greeted phase, clears the session state, reads on from the TLS plain text, and does not touch the handler. |
| Sessions.Session.Authenticate | lib/smtp/src/session.rs:261-308 | The whole AUTH command refines the specification, interrupted or not. |
| Sessions.Session.RunAuth | lib/smtp/src/session.rs:386-452 | The dialogue sends the prompts and reads the lines that the specification says, and has its result; only a base64 error in LOGIN or a bad line ends the session. |
| Sessions.Session.TryLogin | lib/smtp/src/session.rs:286-303 | An accepted login authenticates the session, a refused one ends it with 535. |
| Sessions.Session.StartMail | lib/smtp/src/session.rs:309-328 | An accepted MAIL starts an empty mail from the normalised sender. |
| Sessions.Session.AddRecipient | lib/smtp/src/session.rs:329-345 | An accepted RCPT appends the normalised recipient and changes nothing else. |
| Sessions.Session.StartData | lib/smtp/src/session.rs:346-362 | An accepted DATA opens the body; no recipient is needed. |
| Sessions.Session.ResetSession | lib/smtp/src/session.rs:363-371 | RSET forgets greeting, login and mail, and tells the handler. |
| Sessions.Session.FinishMail | lib/smtp/src/session.rs:149-161 | The terminator hands over the mail, answers 250 or 451, and leaves a greeted session with an empty mail. |
| Sessions.Session.StoreLine | lib/smtp/src/session.rs:456-477 | A body line is unstuffed and appended within the limit; otherwise the session ends with 552. |
| Sessions.Session.ReadLine | lib/smtp/src/session.rs:516-557 | Reading a line through the connection refines the flat reader, and leaves exactly the bytes behind the line. |
| Reader.CollectLine | lib/smtp/src/session.rs:518-550 | The loop over buffered pieces returns what one pass over the flat bytes gives: line, clean end, or a bad line, decided by the first LF against 1500 bytes; and it terminates. |
| Protocol.TurnsAreInRun | lib/smtp/src/session.rs:138-140 | Single turns lead to the end the run reaches: every state between two lines is part of the run. |
| Protocol.LineLimit | lib/smtp/src/session.rs:535-548 | A line of up to 1500 bytes is read; a longer one is an error, whatever follows. |
| Connections.Connection.FillBuf | lib/smtp/src/connection.rs:68-73 | Filling the buffer loses no byte, and returns nothing only at the end of the stream. |
| Connections.Connection.StartTls | lib/smtp/src/connection.rs:82-100 | The upgrade works exactly on a plain connection with an acceptor, and the TLS layer gets exactly the buffered bytes followed by those of the socket. |
| Connections.PrefixedTcpStream.FromExisting | lib/smtp/src/connection.rs:142-147 | The stream starts with the read-ahead bytes and goes on with the socket. |
| Connections.PrefixedTcpStream.PollRead | lib/smtp/src/connection.rs:151-164 | No read loses, repeats or reorders a byte, and the socket is not read before the prefix is used up. |
| Connections.PrefixedTcpStream.ReadAll | lib/smtp/src/connection.rs:139-164 | For any sequence of read sizes the bytes delivered are the prefix followed by the socket bytes. |
| Conservation.UpgradeConservesBytes | lib/smtp/src/session.rs:254-259 | In every session the lines heard before the upgrade, followed by the bytes given to TLS, are exactly the bytes received. |
| Conservation.ClientReadsEveryReply | lib/smtp/src/session.rs:561-575 | If the server name and error texts have no line ends, a client that reads the characters on the wire recovers exactly the replies sent: codes, messages and continuation. |
| Commands.PrintThenParse | lib/smtp/src/command.rs:64-171 | Every command, printed with any letter case of verb, keyword and mechanism and any line end, is parsed back. |
| Commands.ParseIff | lib/smtp/src/command.rs:64-171 | A line is read as a command if and only if it stands for it: its first word spells the verb, and the argument is absent, or starts with a spelling of the keyword or mechanism, or is the decoded and trimmed text, as the command needs. |
| Commands.ParsesIffCommand | lib/smtp/src/command.rs:64-134 | A line is read at all if and only if it has a known verb and an argument where one is needed, or none where none is allowed, with its keyword or mechanism. |
| Answers.GarbageIsRefused | lib/smtp/src/session.rs:169-175 | Outside a body, a line that is no command gets exactly one reply, with code 500, and changes nothing; any other is executed as the command it stands for. |
| MailObject.BracketedAddress | lib/smtp/src/lib.rs:101-107 | Any trimmed address in angle brackets is normalised to itself. |
| MailObject.PaddedAddress | lib/smtp/src/lib.rs:101-107 | One pair of brackets, and blanks outside and inside it, are all that is removed; an address without brackets is only trimmed. |
| MailObject.NormalizeTwice | lib/smtp/src/lib.rs:101-107 | For every address: normalising again changes nothing if and only if the trimmed address neither opens nor closes with two brackets (with or without blanks between them). |
| MailObject.NestedBrackets | lib/smtp/src/lib.rs:101-107 | An address that shows that normalisation is not idempotent. |
| MailObject.Mail.SetSender | lib/smtp/src/lib.rs:55-58 | Only the sender changes, to the normalised address. |
| MailObject.Mail.AddRecipient | lib/smtp/src/lib.rs:62-65 | Only the recipients change, by the normalised address at the end. |
| MailObject.Mail.AppendData | lib/smtp/src/lib.rs:69-72 | Only the data change, by the chunk at the end. |
| History.StepExplained | lib/smtp/src/session.rs:138-381 | The invariant of every turn: phase, login flag, link and stored mail are explained by accepted commands at positions in the log; outside envelope and data the stored mail is empty. |
| History.EveryMailIsJustified | lib/smtp/src/session.rs:149-161 | Each mail handed over follows an accepted greeting with no RSET or upgrade since, then (with authentication) an accepted login that is the latest one, then an accepted MAIL, the last one, and DATA; it consists of exactly the normalised sender and recipients and the unstuffed lines since that MAIL; under RequireTls all this follows the only upgrade. |
| History.EveryLoginIsAllowed | lib/smtp/src/session.rs:261-287 | The handler is asked for a login only if authentication is configured and after an accepted greeting with no RSET or upgrade since; under RequireTls only behind the one upgrade. |
| History.EveryCallIsAskedFor | lib/smtp/src/session.rs:178-196 | The handler is told of a greeting only right after a HELO or EHLO line, with its domain, and of a RSET only after that line and its reply. |
| History.EveryOverflowIsJustified | lib/smtp/src/session.rs:468-472 | The 552 reply is given only at the first body line that makes the body exceed the limit. |
| Answers.EveryMailIsAnswered | lib/smtp/src/session.rs:149-157 | Each mail handed over is answered at once by one line: a code from 200 to 299 if and only if the handler took it, and otherwise one from 400 to 599 with the handler's reason at its end. |
| Answers.ReceiptsAreTrue | lib/mail_proxy/src/proxy.rs:100-112 | In a session driven by the proxy's handler the client reads a positive code for its mail if and only if the mail was passed on and the mail service took it. |
| Answers.BannerComesFirst | lib/smtp/src/session.rs:136 | A session starts with one line of code 220 that contains the server name. |
| Answers.IdleLinesKeepState | lib/smtp/src/session.rs:169-379 | A line outside a body that leads to no handler call, no upgrade, no accepted MAIL or RCPT and no 354 leaves the whole state unchanged. |
| Answers.GuardCodes | lib/smtp/src/session.rs:178-283 | In every reachable state HELO, EHLO, AUTH and STARTTLS are refused, by 503 or 500 and without effect, exactly as greeting, phase and upgrades on the log say, and otherwise ask the handler or announce the handshake. |
| Answers.TransactionCodes | lib/smtp/src/session.rs:309-362 | In every reachable state MAIL, RCPT and DATA get exactly one reply: 503 in the wrong phase, 530 without a login in force where logins are configured, and otherwise 250, or 354. |
| Answers.CodesHaveMeaning | lib/smtp/src/session.rs:177-379 | Every reply to a command has a code that means something for it: RSET, NOOP, HELP and QUIT are never refused, and what does not take effect is refused by a code from 500 on. |
| Answers.EndsForAReason | lib/smtp/src/session.rs:138-381 | The session ends on a line if and only if it is QUIT, answered by 221, or the handler refused a greeting or a login, a body was too long (552), a handshake failed after 220, or an AUTH dialogue broke off; and otherwise only where no line can be read. |
| Ledger.StateIsInForce | lib/smtp/src/session.rs:178-371 | In every reachable state the session is greeted if and only if an accepted greeting, and authenticated if and only if an accepted login, has no RSET and no upgrade after it on the log. |
| Ledger.ClientKnowsState | lib/smtp/src/session.rs:138-381 | In every reachable state a client that looks only at the lines it sent and the codes it read knows the phase and whether it is logged in. |
| History.SizeDecides | lib/smtp/src/session.rs:456-477 | In every reachable open body the stored data are within the limit, and the next line ends the session, with 552, if and only if it is a body line that makes the body too long. |
| Delivery.StuffedLine | lib/smtp/src/session.rs:459-466 | A stuffed line is a line for the reader, is never the terminator, and is unstuffed to the original. |
| Delivery.UnstuffMeetsStandard | lib/smtp/src/session.rs:463-466 | Unstuffing is that of section 4.5.2 of RFC 5321 if and only if the line does not start with a single dot. |
| Delivery.DotIsKept | lib/smtp/src/session.rs:463-466 | A line that shows the difference. |
| Delivery.AnyBody | lib/smtp/src/session.rs:145-167 | Any body lines within the limit, stuffed or not, and either terminator are handed over as one mail, with a positive receipt if and only if the handler takes it; its data are those of the standard if and only if no line starts with a single dot. |
| Delivery.TerminatorIsDot | lib/smtp/src/session.rs:459 | A line ends the body if and only if it is a dot and a line end, CRLF or LF. |
| Delivery.BodyRoundTrip | lib/smtp/src/session.rs:145-167 | Any stuffed body within the limit, and its terminator, lead to exactly one mail with the original bytes. |
| Delivery.Transaction | lib/smtp/src/session.rs:309-362 | MAIL, any number of RCPTs, DATA and a body hand over exactly the message sent. |
| Delivery.Transactions | lib/smtp/src/session.rs:149-160 | Any number of transactions in one session hand over exactly those messages in order, whatever the handler answers to each, and give a positive receipt exactly for those it takes. |
| Authentication.PlainInlineOrChallenged | lib/smtp/src/session.rs:389-421 | For every payload, PLAIN inline and by challenge have the same login call, replies after it, state and end. |
| Authentication.LoginInlineOrChallenged | lib/smtp/src/session.rs:423-449 | For every username, LOGIN inline and by challenge likewise. |
| Authentication.PlainRoundTrip | lib/smtp/src/session.rs:403-417 | A message of section 2 of RFC 4616, encoded as any text that decodes to it, yields exactly its user and password. |
| Authentication.LoginRoundTrip | lib/smtp/src/session.rs:386-452 | PLAIN and LOGIN, inline or by challenge: the turn's whole log is the command, the prompts and answers, one call with exactly the user and password that the payloads decode to, and 235 or 535; the session goes on, authenticated, if and only if the handler accepts. |
| Authentication.PromptsAreEncoded | lib/smtp/src/response.rs:22-26 | The prompts of LOGIN are "Username:" and "Password:" in the base64 of section 4 of RFC 4648. |
| Authentication.PlainNeedsThreeParts | lib/smtp/src/session.rs:410-421 | A payload is taken for credentials if and only if it decodes to three parts without NUL, and then they are the last two; otherwise it is a syntax error. |
| Authentication.DecodesPadded | lib/smtp/src/session.rs:504-513 | Line ends and blanks around a payload do not matter. |
| Authentication.UndecodableProof | lib/smtp/src/session.rs:403-438 | A PLAIN payload that does not decode gets one reply of code 500; a LOGIN name that does not decode ends the session; neither asks the handler. |
| Conversation.ScriptRuns | lib/smtp/src/session.rs:134-381 | The session of a client that greets, logs in by PLAIN or LOGIN if it must, sends any messages and quits, either on the plain link or all of it again behind STARTTLS, ends properly and hands over exactly those messages, with positive receipts exactly for those the handler takes, under every authentication mode; the login and the upgrade are on the log. |
| Conversation.ServeScript | lib/smtp/src/session.rs:134-381 | The same for the session object with the bytes in any pieces: if it returns, with exactly the messages, the receipts, the login and the upgrade on its log; interrupted, with the first few messages and receipts. |
| Replies.LineIsFramed | lib/smtp/src/response.rs:154-163 | A printed reply is one line, and is marked as continued if and only if another line of it follows. |
| Replies.ReplyRoundTrip | lib/smtp/src/response.rs:154-163 | Reading a printed reply, digit by digit, gives back its code, its message and whether more lines follow. |
| Replies.ReadsWhatWasPrinted | lib/smtp/src/session.rs:561-573 | Splitting the wire at line ends gives back the printed lines. |
| Replies.WireRoundTrip | lib/smtp/src/session.rs:561-573 | A client recovers all replies from the wire. |
| Replies.GroupsAreReplies | lib/smtp/src/response.rs:113-126 | Grouping lines by the continuation dash leaves nothing over, and gives one group for each final line. |
| Discipline.StepKeepsBalance | lib/smtp/src/session.rs:138-381 | Each turn that the session survives answers its line with one complete reply, each AUTH challenge line included, body lines excluded. |
| Dialogue.OneReplyForEachLine | lib/smtp/src/session.rs:136-381 | Wherever the session waits for a line, a client reading the wire has exactly one complete reply for the banner and one for each line outside a body; only a challenge cut off by the end of the stream can add one. |
| Advertising.AdvertisedAndRefused | lib/smtp/src/session.rs:198-283 | In every greeted session, the reply to the latest greeting has code 250 and starts with the server name; that to EHLO, read from the log, lists AUTH if and only if logins are configured, STARTTLS if and only if there is an acceptor and no upgrade yet, and the size limit in digits. A STARTTLS that comes next is followed by a handshake if and only if it is listed; an AUTH that is not listed is a syntax error, and one that is listed is refused at once if and only if TLS is required and there was no upgrade. |
| Advertising.HelpNamesVerbs | lib/smtp/src/session.rs:227-240 | The last line of the reply to HELP names exactly the verbs of the commands there are, AUTH only where logins are configured and STARTTLS only where there can be an upgrade. |
| Ledger.TransactionsAreConserved | lib/smtp/src/session.rs:309-371 | Wherever the session waits for a line, accepted MAILs are mails handed over plus envelopes dropped by RSET plus the open one, and accepted DATAs are mails handed over plus the open body. |
| Ban.Fail2Ban.PushConnection | lib/mail_proxy/src/fail2ban.rs:83-97 | A connect counts up and renews the record, or makes a new one with count 1 and no fails. |
| Ban.Fail2Ban.PopConnection | lib/mail_proxy/src/fail2ban.rs:104-110 | A disconnect counts down, without renewing the record, and wraps around below zero. |
| Ban.Fail2Ban.PushFail | lib/mail_proxy/src/fail2ban.rs:114-121 | A fail is counted and renews the record, if there is one. |
| Ban.Fail2Ban.GetVerdict | lib/mail_proxy/src/fail2ban.rs:126-154 | All records that are too old are evicted, then the peer is judged: fails first, then connections. |
| Proxy.ProxyHandler.OnConnect | lib/mail_proxy/src/proxy.rs:55-69 | One critical section: push, then verdict; only a good verdict accepts. |
| Proxy.ProxyHandler.OnDisconnect | lib/mail_proxy/src/proxy.rs:71-82 | One critical section: a fail if the session was not productive, then pop. |
| Proxy.ProxyHandler.OnLogin | lib/mail_proxy/src/proxy.rs:84-98 | A verified login sets the name; another one forgets it and makes the session unproductive. |
| Proxy.ProxyHandler.OnMail | lib/mail_proxy/src/proxy.rs:100-112 | A known name must be the sender; what passes counts as productive before the service answers. |
| Proxy.ProxyHandler.OnReset | lib/mail_proxy/src/proxy.rs:114-117 | The name is forgotten. |
| Proxy.SenderBinding | lib/mail_proxy/src/proxy.rs:84-117 | With authentication, a mail is passed on to the service if and only if its sender is the name of the latest login of the session, and that login was verified: across RSET, STARTTLS, repeated AUTH and several mails. |
| Proxy.AuthenticatedIsBound | lib/mail_proxy/src/proxy.rs:84-117 | In every state between two lines, an authenticated session has a handler that knows the name of the latest login, which was accepted. |
| Proxy.KnowsExactly | lib/mail_proxy/src/proxy.rs:84-117 | The handler knows a name if and only if it is that of an accepted login with no login and no RSET after it; an upgrade does not matter to it. |
| Proxy.NoAuthSendsAll | lib/mail_proxy/src/proxy.rs:103-109 | Without authentication every mail is passed on, whoever it is from. |
| Proxy.ProductiveIffUseful | lib/mail_proxy/src/proxy.rs:71-112 | At every point of a session the handler counts it as productive if and only if one of its mails was passed on and no login was refused. |
| Product.StepCalls | lib/smtp/src/session.rs:145-371 | A turn makes at most one handler call, and it is the one that the state and the input of the session determine. |
| Product.HandlerDrivesSession | lib/mail_proxy/src/proxy.rs:84-117 | For every input, password check and sequence of answers of the mail service there is a session in which each answer is the handler's own in the state that the log gives it: the sessions of the lemmas on the handler exist. |
| Server.ConnectionAccounting | lib/mail_proxy/src/fail2ban.rs:83-128 | If no task is open for longer than records are kept, then under every interleaving no peer with an open task is forgotten, each record counts exactly the open tasks of its peer, and no count goes below zero. |
| Server.AccountingIffKept | lib/mail_proxy/src/fail2ban.rs:83-128 | Accounting is exact in all runs with tasks of at most a given life if and only if records are kept at least that long. |
| Server.ForgottenTaskWraps | lib/mail_proxy/src/fail2ban.rs:104-110 | A run of five steps, in which no task is open for longer than one tick more than records are kept, after which the count of a peer has wrapped around. |
| Server.AcceptedSessionsBounded | lib/mail_proxy/src/fail2ban.rs:131-138 | Under the same hypothesis at most the permitted number of accepted sessions of one peer are ever open at once. |
| Sharpness.BoundedIffKept | lib/mail_proxy/src/fail2ban.rs:126-138 | For all limits: in all runs with tasks of at most a given life no peer has too many accepted sessions open if and only if records are kept at least that long, or at least 2^32 - 2 connections are permitted, or none and less than two fails. |
| Server.DefaultsAccount | lib/smtp/src/lib.rs:119-120 | With sessions of 5 minutes and records of 30 minutes accounting is exact, with 25 minutes of slack. |
| Isolation.PeerIsolation | lib/mail_proxy/src/fail2ban.rs:83-154 | A peer that renews its record often enough gets, in any interleaving, the verdicts it would get alone. |
| Sharpness.IsolatedIffKept | lib/mail_proxy/src/fail2ban.rs:83-154 | For all limits: all peers that are never quiet for longer than a given time are isolated, in all runs, if and only if records are kept at least that long, or the limit on connections is the greatest count there is and the one on fails at least 2^31 - 2. |
| Sharpness.ReturningPeerIsNotIsolated | lib/mail_proxy/src/fail2ban.rs:126-128 | For all other limits: a run with a peer quiet for one tick longer than records are kept, which gets another verdict than it would get alone, because the verdict on another peer evicted its record. |
| Isolation.VerdictIsExact | lib/mail_proxy/src/fail2ban.rs:126-154 | With timely tasks the verdict on a connect is exact: too many fails if and only if more connections than permitted ended uselessly since the record was made, then too many connections if and only if more are open than permitted, this one included. |
| Isolation.BannedIffExceeded | lib/mail_proxy/src/fail2ban.rs:126-138 | Whatever other peers do, a steady peer that is judged promptly is rejected for its fails at exactly those connects before which more of its connections than permitted ended after a rejection, without a mail passed on, or on a refused login. |
| Isolation.BanLasts | lib/mail_proxy/src/fail2ban.rs:131-138 | From the moment the record of such a peer shows too many fails, it is rejected for them at each later connect, the first one included. |
| Isolation.FailAccounting | lib/mail_proxy/src/fail2ban.rs:114-121 | The fails on a record are exactly the connections of the peer that ended, since the record was made, after a rejection, without a mail passed on, or on a refused login. |
| Listener.Play | lib/smtp/src/server.rs:37-60 | The handler object, given the calls of a session, ends in the state the log determines. |
| Listener.ServerState.Accept | lib/smtp/src/server.rs:28-39 | A connect step on the objects is the connect step of the timed system, with a handler of its own. |
| Listener.ServerState.Finish | lib/smtp/src/server.rs:40-65 | Session and disconnect on the objects are the disconnect step of the timed system, and touch no other handler. |
| Listener.RunSchedule | lib/smtp/src/server.rs:28-66 | The shared table, after any schedule of tasks, is the one the timed system gives. |

Where comments and code disagree, the model follows the code: after a body the phase is
greeted (`lib/smtp/src/session.rs:160`), although the comment on the connected phase says
otherwise (`lib/smtp/src/session.rs:51-53`).

## Properties that fail, and exactly when

- Normalising an address is not idempotent: `NormalizeTwice` gives the condition on the
  address, `NestedBrackets` an input.
- A line with a single leading dot keeps it, unlike section 4.5.2 of RFC 5321:
  `UnstuffMeetsStandard` and, for whole bodies, `AnyBody` give the condition, `DotIsKept` a
  line; `StuffedLine` shows that no client that stuffs its lines is affected.
- Counting connections is exact, and accepted sessions are bounded, only if records are
  kept as long as tasks are open: `AccountingIffKept` and `BoundedIffKept`, with the runs of
  `LateVisitor`, `ForgottenTaskWraps` and `OneTooMany`.
- The sender check needs authentication: `SenderBinding` with it, `NoAuthSendsAll`
  without.
- AUTH is advertised before TLS even where it will be refused there:
  `AdvertisedAndRefused` gives the condition.
- A peer is isolated only if it is never quiet for longer than records are kept:
  `IsolatedIffKept`, with the runs of `ReturningPeerIsNotIsolated`.

## Left out

- Sockets, tasks of the runtime and the TLS cipher: TLS is a function from the raw bytes
  that remain to the plain text they carry, or to a failed handshake.
- Timeouts and I/O errors: a budget of visible events after which the next await fails;
  all safety statements hold at every such point.
- Cancelling a handler in the middle of a call: a call and its answer are one event. A
  session cut off while the mail service is being asked is represented by the log that
  ends with that call, since the handler counts it as productive before it asks
  (`lib/mail_proxy/src/proxy.rs:107-109`); the answer on that log is then without meaning.
- Capacity of the read buffer, and reads of the socket while the buffer is not empty.
- Text decoding and base64: functions given to the session; decoding is only assumed to
  read ASCII as itself, base64 only where a lemma names its result.
- Replies are sequences of characters, not of encoded bytes.
- Password hashing, the mail service and its tokens: the handler takes a predicate on
  name and password, and the service answers anything.
- The clock is read once for a whole eviction pass, and twice in a connect.
- Counters of 32 bits: they wrap around as unchecked additions do (checked ones would
  end that connection); runs are shorter than 2^32 steps, so only wrapping below zero matters.
- The state struct of the session is part of the session object; events hold the value of
  a mail at the time of the call.
- HELP mixes the codes 250 and 214 in one reply, and is modelled as it is.
- Conformance of RSET (which clears the greeting and the login here) and of DATA without
  a recipient: modelled as they are.
- Parameters of MAIL, the cancel line of AUTH and the empty initial response `=`: the
  program does not know them.
- Log messages, command line, service installation, configuration files: plumbing with
  easy facts only.
