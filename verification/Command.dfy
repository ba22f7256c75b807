/** Command lines: their grammar, the parser, and printing as its inverse. */
module Commands {
  import opened Wrappers
  import opened Bytes

  datatype AuthMethod = AuthPlain | AuthLogin

  datatype Command =
    | Hello(domain: string, extended: bool)
    | Help
    | StartTls
    | Authenticate(mechanism: AuthMethod, initial: Option<bytes>)
    | MailFrom(from: string)
    | Recipient(to: string)
    | DataStart
    | Reset
    | NoOp
    | Quit

  /** `foo-bar` splits into `foo` and `bar`; without a delimiter there is no second part. */
  function SplitOnce(input: bytes, delimiter: byte): (bytes, Option<bytes>) {
    match IndexOf(input, delimiter)
    case Some(i) => (input[..i], Some(input[i + 1..]))
    case None => (input, None)
  }

  function StripPrefixNoCase(input: bytes, prefix: bytes): Option<bytes> {
    if |input| < |prefix| then None
    else if Upper(input[..|prefix|]) == Upper(prefix) then Some(input[|prefix|..])
    else None
  }

  function Nullary(arg: Option<bytes>, command: Command, error: string): Result<Command, string> {
    if arg.Some? then Failure(error) else Success(command)
  }

  function ParseAuth(arg: bytes): Result<Command, string> {
    var (mechanism, initial) := SplitOnce(arg, ' ');
    if Upper(mechanism) == "PLAIN" then Success(Authenticate(AuthPlain, initial))
    else if Upper(mechanism) == "LOGIN" then Success(Authenticate(AuthLogin, initial))
    else Failure("unsupported AUTH mechanism")
  }

  /** The address text behind `keyword` in the argument of MAIL or RCPT. */
  function ParsePath(lossy: bytes -> string, arg: Option<bytes>, keyword: bytes): Option<string> {
    if arg.None? then None
    else
      match StripPrefixNoCase(arg.value, keyword)
      case None => None
      case Some(path) => Some(TrimText(lossy(path)))
  }

  /** Command::parse. `lossy` is the decoder from bytes to text. */
  function Parse(lossy: bytes -> string, line: bytes): Result<Command, string> {
    var (verb, arg) := SplitOnce(StripLineEnd(line), ' ');
    Interpret(lossy, Upper(verb), arg)
  }

  function Interpret(lossy: bytes -> string, verb: bytes, arg: Option<bytes>): Result<Command, string> {
    if verb == "HELO" || verb == "EHLO" then
      if arg.None? then Failure("HELO requires domain")
      else Success(Hello(TrimText(lossy(arg.value)), verb == "EHLO"))
    else if verb == "HELP" then Success(Help)
    else if verb == "STARTTLS" then Nullary(arg, StartTls, "STARTTLS takes no arguments")
    else if verb == "AUTH" then
      if arg.None? then Failure("AUTH requires mechanism") else ParseAuth(arg.value)
    else if verb == "MAIL" then
      match ParsePath(lossy, arg, "FROM:")
      case None => Failure("MAIL requires FROM")
      case Some(from) => Success(MailFrom(from))
    else if verb == "RCPT" then
      match ParsePath(lossy, arg, "TO:")
      case None => Failure("RCPT requires TO")
      case Some(to) => Success(Recipient(to))
    else if verb == "DATA" then Nullary(arg, DataStart, "DATA takes no arguments")
    else if verb == "RSET" then Nullary(arg, Reset, "RSET takes no arguments")
    else if verb == "NOOP" then Nullary(arg, NoOp, "NOOP takes no arguments")
    else if verb == "QUIT" then Nullary(arg, Quit, "QUIT takes no arguments")
    else Failure("unrecognized command")
  }

  // ---- Printing -----------------------------------------------------------------

  function VerbOf(c: Command): bytes {
    match c
    case Hello(_, extended) => if extended then "EHLO" else "HELO"
    case Help => "HELP"
    case StartTls => "STARTTLS"
    case Authenticate(_, _) => "AUTH"
    case MailFrom(_) => "MAIL"
    case Recipient(_) => "RCPT"
    case DataStart => "DATA"
    case Reset => "RSET"
    case NoOp => "NOOP"
    case Quit => "QUIT"
  }

  /** The fixed word that opens the argument, if the command has one. */
  function KeywordOf(c: Command): bytes {
    match c
    case Authenticate(mechanism, _) => if mechanism.AuthPlain? then "PLAIN" else "LOGIN"
    case MailFrom(_) => "FROM:"
    case Recipient(_) => "TO:"
    case _ => ""
  }

  /** Text that a command line can carry: ASCII, without blanks around it, on one line. */
  predicate Printable(s: string) {
    IsAscii(s) && TextTrimmed(s) && OneLine(s)
  }

  predicate PrintableCommand(c: Command) {
    match c
    case Hello(domain, _) => Printable(domain)
    case Authenticate(_, initial) => initial.Some? ==> OneLine(initial.value)
    case MailFrom(from) => Printable(from)
    case Recipient(to) => Printable(to)
    case _ => true
  }

  /** The command with its verb and keyword written in any letter case. */
  predicate Spells(verb: bytes, keyword: bytes, c: Command) {
    Upper(verb) == VerbOf(c) && Upper(keyword) == KeywordOf(c)
  }

  /** What follows the verb and its blank, if anything. */
  function Argument(c: Command, keyword: bytes): Option<bytes>
    requires PrintableCommand(c)
  {
    match c
    case Hello(domain, _) => Some(domain)
    case Authenticate(_, None) => Some(keyword)
    case Authenticate(_, Some(initial)) => Some(keyword + [' '] + initial)
    case MailFrom(from) => Some(keyword + from)
    case Recipient(to) => Some(keyword + to)
    case _ => None
  }

  function Print(c: Command, verb: bytes, keyword: bytes): bytes
    requires PrintableCommand(c)
  {
    match Argument(c, keyword)
    case None => verb
    case Some(arg) => verb + [' '] + arg
  }

  function PrintPlain(c: Command): bytes
    requires PrintableCommand(c)
  {
    Print(c, VerbOf(c), KeywordOf(c))
  }

  /** A byte string that is all letters in upper case has neither a blank nor a line break. */
  lemma UpperHasNoBlank(s: bytes, word: bytes)
    requires Upper(s) == word && OneLine(word) && ' ' !in word
    ensures OneLine(s) && ' ' !in s
  {
    forall i | 0 <= i < |s| ensures s[i] !in " \r\n" {
      assert word[i] == ToUpper(s[i]);
      assert word[i] in word;
    }
  }

  lemma PrintIsOneLine(c: Command, verb: bytes, keyword: bytes)
    requires PrintableCommand(c) && Spells(verb, keyword, c)
    ensures OneLine(Print(c, verb, keyword)) && ' ' !in verb && ' ' !in keyword
  {
    UpperHasNoBlank(verb, VerbOf(c));
    UpperHasNoBlank(keyword, KeywordOf(c));
  }

  lemma SplitsAtBlank(a: bytes, b: bytes)
    requires ' ' !in a
    ensures SplitOnce(a + [' '] + b, ' ') == (a, Some(b))
    ensures SplitOnce(a, ' ') == (a, None)
  {
    FirstIndex(a, ' ', b);
    var s := a + [' '] + b;
    assert s[..|a|] == a && s[|a| + 1..] == b;
  }

  lemma StripsKeyword(keyword: bytes, word: bytes, path: bytes)
    requires Upper(keyword) == word && Upper(word) == word
    ensures StripPrefixNoCase(keyword + path, word) == Some(path)
  {
    assert (keyword + path)[..|word|] == keyword;
  }

  lemma ParsesMechanism(mechanism: AuthMethod, initial: Option<bytes>, keyword: bytes)
    requires PrintableCommand(Authenticate(mechanism, initial))
    requires Upper(keyword) == KeywordOf(Authenticate(mechanism, initial))
    ensures ParseAuth(Argument(Authenticate(mechanism, initial), keyword).value)
         == Success(Authenticate(mechanism, initial))
  {
    UpperHasNoBlank(keyword, KeywordOf(Authenticate(mechanism, initial)));
    SplitsAtBlank(keyword, if initial.Some? then initial.value else []);
  }

  lemma ParsesPath(lossy: bytes -> string, path: string, keyword: bytes, word: bytes)
    requires ReadsAscii(lossy) && Printable(path) && Upper(keyword) == word && Upper(word) == word
    ensures ParsePath(lossy, Some(keyword + path), word) == Some(path)
  {
    TrimTrims(path, IsSpace);
    StripsKeyword(keyword, word, path);
  }

  /** A printed argument is read back under the command's verb. */
  lemma ArgumentInterprets(lossy: bytes -> string, c: Command, keyword: bytes)
    requires ReadsAscii(lossy) && PrintableCommand(c) && Upper(keyword) == KeywordOf(c)
    ensures Interpret(lossy, VerbOf(c), Argument(c, keyword)) == Success(c)
  {
    match c
    case Hello(domain, _) => TrimTrims(domain, IsSpace);
    case Authenticate(mechanism, initial) => ParsesMechanism(mechanism, initial, keyword);
    case MailFrom(from) => ParsesPath(lossy, from, keyword, "FROM:");
    case Recipient(to) => ParsesPath(lossy, to, keyword, "TO:");
    case _ =>
  }

  /** Printing a command, in any letter case and with any line end, and parsing the
      line gives the command back. */
  lemma PrintThenParse(lossy: bytes -> string, c: Command, verb: bytes, keyword: bytes, end: bytes)
    requires ReadsAscii(lossy) && PrintableCommand(c) && Spells(verb, keyword, c) && IsLineEnd(end)
    ensures Parse(lossy, Print(c, verb, keyword) + end) == Success(c)
  {
    PrintIsOneLine(c, verb, keyword);
    StripsLineEnd(Print(c, verb, keyword), end);
    var arg := Argument(c, keyword);
    SplitsAtBlank(verb, if arg.Some? then arg.value else []);
    ArgumentInterprets(lossy, c, keyword);
  }

  // ---- What is a command, and which ---------------------------------------------------------

  /** `s` is a word without blanks, and what follows its blank, if there is one. */
  predicate IsSplit(s: bytes, word: bytes, rest: Option<bytes>) {
    ' ' !in word && s == match rest case None => word case Some(r) => word + [' '] + r
  }

  /** `arg` starts with the keyword, in any letter case. */
  predicate HasKeyword(arg: Option<bytes>, keyword: bytes) {
    arg.Some? && |keyword| <= |arg.value| && Upper(arg.value[..|keyword|]) == keyword
  }

  /** A line with this verb and argument stands for the command. */
  ghost predicate Denotes(lossy: bytes -> string, verb: bytes, arg: Option<bytes>, c: Command) {
    Upper(verb) == VerbOf(c)
    && match c
       case Hello(domain, _) => arg.Some? && domain == TrimText(lossy(arg.value))
       case Help => true
       case Authenticate(_, initial) =>
         arg.Some? && exists word :: IsSplit(arg.value, word, initial) && Upper(word) == KeywordOf(c)
       case MailFrom(from) => HasKeyword(arg, "FROM:") && from == TrimText(lossy(arg.value[5..]))
       case Recipient(to) => HasKeyword(arg, "TO:") && to == TrimText(lossy(arg.value[3..]))
       case _ => arg.None?
  }

  /** The lines that are commands: which verbs need, allow or forbid an argument. */
  ghost predicate IsCommand(verb: bytes, arg: Option<bytes>) {
    var v := Upper(verb);
    || (v in {"HELO", "EHLO"} && arg.Some?)
    || v == "HELP"
    || (v in {"STARTTLS", "DATA", "RSET", "NOOP", "QUIT"} && arg.None?)
    || (v == "AUTH" && arg.Some?
        && exists word, rest :: IsSplit(arg.value, word, rest) && Upper(word) in {"PLAIN", "LOGIN"})
    || (v == "MAIL" && HasKeyword(arg, "FROM:"))
    || (v == "RCPT" && HasKeyword(arg, "TO:"))
  }

  lemma SplitIsUnique(s: bytes, word: bytes, rest: Option<bytes>)
    ensures SplitOnce(s, ' ') == (word, rest) <==> IsSplit(s, word, rest)
  {
    if IsSplit(s, word, rest) {
      SplitsAtBlank(word, if rest.Some? then rest.value else []);
    }
  }

  lemma KeywordStrips(arg: bytes, keyword: bytes)
    requires Upper(keyword) == keyword
    ensures StripPrefixNoCase(arg, keyword)
         == if HasKeyword(Some(arg), keyword) then Some(arg[|keyword|..]) else None
  {}

  lemma KeywordsAreUpper()
    ensures Upper("FROM:") == "FROM:" && Upper("TO:") == "TO:"
  {}

  lemma PathIs(lossy: bytes -> string, arg: Option<bytes>, keyword: bytes)
    requires Upper(keyword) == keyword
    ensures ParsePath(lossy, arg, keyword)
         == if HasKeyword(arg, keyword) then Some(TrimText(lossy(arg.value[|keyword|..]))) else None
  {
    if arg.Some? {
      KeywordStrips(arg.value, keyword);
    }
  }

  lemma AuthIs(arg: bytes, c: Command)
    requires c.Authenticate?
    ensures ParseAuth(arg) == Success(c)
       <==> exists word :: IsSplit(arg, word, c.initial) && Upper(word) == KeywordOf(c)
  {
    hide IsSplit;
    hide Upper;
    hide SplitOnce;
    var (mechanism, initial) := SplitOnce(arg, ' ');
    SplitIsUnique(arg, mechanism, initial);
    forall word | IsSplit(arg, word, c.initial) ensures word == mechanism && c.initial == initial {
      SplitIsUnique(arg, word, c.initial);
    }
  }

  lemma AuthOnly(arg: bytes)
    ensures ParseAuth(arg).Success? ==> ParseAuth(arg).value.Authenticate?
  {}

  /** A line is read as a command exactly if it stands for it. */
  lemma ParseIff(lossy: bytes -> string, line: bytes, verb: bytes, arg: Option<bytes>, c: Command)
    requires IsSplit(StripLineEnd(line), verb, arg)
    ensures Parse(lossy, line) == Success(c) <==> Denotes(lossy, verb, arg, c)
  {
    SplitIsUnique(StripLineEnd(line), verb, arg);
    InterpretIff(lossy, verb, arg, c);
    hide Interpret;
    hide Denotes;
    hide StripLineEnd;
  }

  lemma InterpretIff(lossy: bytes -> string, verb: bytes, arg: Option<bytes>, c: Command)
    ensures Interpret(lossy, Upper(verb), arg) == Success(c) <==> Denotes(lossy, verb, arg, c)
  {
    hide Interpret;
    hide Denotes;
    if Denotes(lossy, verb, arg, c) {
      DenotedIsInterpreted(lossy, verb, arg, c);
    }
    if Interpret(lossy, Upper(verb), arg) == Success(c) {
      InterpretedIsDenoted(lossy, verb, arg, c);
    }
  }

  lemma DenotedIsInterpreted(lossy: bytes -> string, verb: bytes, arg: Option<bytes>, c: Command)
    requires Denotes(lossy, verb, arg, c)
    ensures Interpret(lossy, Upper(verb), arg) == Success(c)
  {
    hide HasKeyword;
    hide TrimText;
    hide ParsePath;
    hide ParseAuth;
    hide IsSplit;
    hide KeywordOf;
    hide Upper;
    KeywordsAreUpper();
    match c
    case Authenticate(_, _) => AuthIs(arg.value, c);
    case MailFrom(_) => PathIs(lossy, arg, "FROM:");
    case Recipient(_) => PathIs(lossy, arg, "TO:");
    case _ =>
  }

  lemma InterpretedVerb(lossy: bytes -> string, verb: bytes, arg: Option<bytes>, c: Command)
    requires Interpret(lossy, verb, arg) == Success(c)
    ensures verb == VerbOf(c)
  {
    hide TrimText;
    hide ParsePath;
    hide ParseAuth;
    if arg.Some? {
      AuthOnly(arg.value);
    }
  }

  lemma InterpretedIsDenoted(lossy: bytes -> string, verb: bytes, arg: Option<bytes>, c: Command)
    requires Interpret(lossy, Upper(verb), arg) == Success(c)
    ensures Denotes(lossy, verb, arg, c)
  {
    hide HasKeyword;
    hide TrimText;
    hide ParsePath;
    hide ParseAuth;
    hide IsSplit;
    hide KeywordOf;
    hide Upper;
    InterpretedVerb(lossy, Upper(verb), arg, c);
    KeywordsAreUpper();
    match c
    case Authenticate(_, _) => AuthIs(arg.value, c);
    case MailFrom(_) => PathIs(lossy, arg, "FROM:");
    case Recipient(_) => PathIs(lossy, arg, "TO:");
    case _ =>
  }

  /** A line that is not a command stands for none, and is refused; any other is read. */
  lemma ParsesIffCommand(lossy: bytes -> string, line: bytes, verb: bytes, arg: Option<bytes>)
    requires IsSplit(StripLineEnd(line), verb, arg)
    ensures Parse(lossy, line).Success? <==> IsCommand(verb, arg)
  {
    hide IsSplit;
    hide StripLineEnd;
    hide Denotes;
    hide IsCommand;
    hide Interpret;
    if Parse(lossy, line).Success? {
      ParseIff(lossy, line, verb, arg, Parse(lossy, line).value);
      DenotedIsCommand(lossy, verb, arg, Parse(lossy, line).value);
    }
    if IsCommand(verb, arg) {
      var c := CommandDenotes(lossy, verb, arg);
      ParseIff(lossy, line, verb, arg, c);
    }
  }

  lemma DenotedIsCommand(lossy: bytes -> string, verb: bytes, arg: Option<bytes>, c: Command)
    requires Denotes(lossy, verb, arg, c)
    ensures IsCommand(verb, arg)
  {
    hide HasKeyword;
    hide IsSplit;
    hide Upper;
    hide TrimText;
  }

  lemma CommandDenotes(lossy: bytes -> string, verb: bytes, arg: Option<bytes>)
    returns (c: Command)
    requires IsCommand(verb, arg)
    ensures Denotes(lossy, verb, arg, c)
  {
    hide IsSplit;
    hide Upper;
    hide TrimText;
    var v := Upper(verb);
    if v == "HELO" || v == "EHLO" {
      c := Hello(TrimText(lossy(arg.value)), v == "EHLO");
    } else if v == "AUTH" {
      var word, rest :| IsSplit(arg.value, word, rest) && Upper(word) in {"PLAIN", "LOGIN"};
      c := Authenticate(if Upper(word) == "PLAIN" then AuthPlain else AuthLogin, rest);
    } else if v == "MAIL" {
      c := MailFrom(TrimText(lossy(arg.value[5..])));
    } else if v == "RCPT" {
      c := Recipient(TrimText(lossy(arg.value[3..])));
    } else if v == "HELP" {
      c := Help;
    } else if v == "STARTTLS" {
      c := StartTls;
    } else {
      c := if v == "DATA" then DataStart else if v == "RSET" then Reset else if v == "NOOP" then NoOp else Quit;
    }
  }
}
