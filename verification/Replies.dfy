/** The replies on the wire, as a client reads them. */
module Replies {
  import opened Bytes
  import opened Responses
  import opened Protocol

  // ---- Printing and reading lines -------------------------------------------------------------

  /** All replies in a log, in order. */
  function SentIn(log: seq<Event>): seq<Response> {
    if log == [] then []
    else
      var before, e := SentIn(log[..|log| - 1]), log[|log| - 1];
      if e.Sent? then before + [e.reply] else before
  }

  function OnWire(rs: seq<Response>): string {
    if rs == [] then "" else rs[0].Line() + CRLF + OnWire(rs[1..])
  }

  /** A client splits the stream at line feeds and drops the carriage returns before them. */
  function ReadLines(wire: string): seq<string>
    decreases |wire|
  {
    match IndexOf(wire, '\n')
    case None => []
    case Some(i) => [if i == 0 then "" else wire[..i - 1]] + ReadLines(wire[i + 1..])
  }

  /** A dash behind the three digits of the code announces more lines of the same reply. */
  predicate IsContinued(line: string) {
    |line| > 3 && line[3] == '-'
  }

  /** The complete replies that a client can put together from the lines. */
  function Group(lines: seq<string>): seq<seq<string>> {
    if lines == [] then []
    else
      var rest := Group(lines[1..]);
      if !IsContinued(lines[0]) then [[lines[0]]] + rest
      else if rest == [] then []
      else [[lines[0]] + rest[0]] + rest[1..]
  }

  predicate WellFormed(r: Response) {
    100 <= r.code < 1000 && OneLine(r.message) && (r.hasNext ==> r.message != "")
  }

  predicate AllWellFormed(rs: seq<Response>) {
    forall i :: 0 <= i < |rs| ==> WellFormed(rs[i])
  }

  function Lines(rs: seq<Response>): (lines: seq<string>)
    ensures |lines| == |rs|
  {
    if rs == [] then [] else [rs[0].Line()] + Lines(rs[1..])
  }

  function Finals(rs: seq<Response>): nat {
    if rs == [] then 0 else Finals(rs[..|rs| - 1]) + (if rs[|rs| - 1].hasNext then 0 else 1)
  }

  lemma DecimalHasThreeDigits(n: nat)
    requires 100 <= n < 1000
    ensures |Decimal(n)| == 3 && OneLine(Decimal(n))
  {
    assert n / 10 >= 10 && n / 100 < 10;
    assert |Decimal(n / 10)| == 2 && |Decimal(n / 100)| == 1;
  }

  lemma LineIsFramed(r: Response)
    requires WellFormed(r)
    ensures OneLine(r.Line()) && (IsContinued(r.Line()) <==> r.hasNext)
  {
    DecimalHasThreeDigits(r.code);
    hide Decimal;
  }

  /** A client reads back exactly the lines that were printed. */
  lemma {:induction false} ReadsWhatWasPrinted(rs: seq<Response>)
    requires AllWellFormed(rs)
    ensures ReadLines(OnWire(rs)) == Lines(rs)
  {
    hide WellFormed;
    if rs == [] {
    } else {
      var line, rest := rs[0].Line(), OnWire(rs[1..]);
      assert WellFormed(rs[0]);
      LineIsFramed(rs[0]);
      ReadsFirst(line, rest);
      ReadsWhatWasPrinted(rs[1..]);
    }
  }

  lemma ReadsFirst(line: string, rest: string)
    requires OneLine(line)
    ensures ReadLines(line + CRLF + rest) == [line] + ReadLines(rest)
  {
    var head := line + ['\r'];
    FirstIndex(head, '\n', rest);
    var s := line + CRLF + rest;
    assert s == head + ['\n'] + rest;
    assert s[..|line|] == line && s[|head| + 1..] == rest;
  }

  /** What one more line at the front does to the replies behind it. */
  lemma GroupCons(line: string, lines: seq<string>)
    ensures
      var rest, all := Group(lines), Group([line] + lines);
      if IsContinued(line) then
        rest != [] ==> |all| == |rest| && Concat(all) == [line] + Concat(rest)
      else
        |all| == 1 + |rest| && Concat(all) == [line] + Concat(rest)
  {
    var rest := Group(lines);
    assert ([line] + lines)[1..] == lines;
    if !IsContinued(line) {
      assert ([[line]] + rest)[1..] == rest;
    } else if rest != [] {
      assert ([[line] + rest[0]] + rest[1..])[1..] == rest[1..];
    }
  }

  /** No line is left over, and each final line completes one reply. */
  lemma {:induction false} GroupsAreReplies(rs: seq<Response>)
    requires AllWellFormed(rs) && (rs != [] ==> !rs[|rs| - 1].hasNext)
    ensures Concat(Group(Lines(rs))) == Lines(rs) && |Group(Lines(rs))| == Finals(rs)
  {
    hide WellFormed;
    hide IsContinued;
    hide Group;
    if rs == [] {
      assert Group([]) == [] by { NoGroups(); }
    } else {
      assert WellFormed(rs[0]);
      LineIsFramed(rs[0]);
      GroupsAreReplies(rs[1..]);
      FinalsCons(rs);
      GroupCons(rs[0].Line(), Lines(rs[1..]));
    }
  }

  lemma NoGroups()
    ensures Group([]) == []
  {}

  lemma {:induction false} FinalsCons(rs: seq<Response>)
    requires rs != []
    ensures Finals(rs) == (if rs[0].hasNext then 0 else 1) + Finals(rs[1..])
  {
    if |rs| == 1 {
    } else {
      var shorter := rs[..|rs| - 1];
      FinalsCons(shorter);
      assert rs[1..][..|rs| - 2] == shorter[1..];
    }
  }

  // ---- Reading replies --------------------------------------------------------------------------

  predicate IsDigit(c: char) { '0' <= c <= '9' }

  function DigitOf(c: char): nat {
    if IsDigit(c) then c as int - '0' as int else 0
  }

  /** A client reads digits from the left: each one more makes ten of all before. */
  function ReadNat(s: string): nat {
    if s == "" then 0 else ReadNat(s[..|s| - 1]) * 10 + DigitOf(s[|s| - 1])
  }

  lemma {:induction false} ReadsDecimal(n: nat)
    ensures ReadNat(Decimal(n)) == n
    ensures forall i :: 0 <= i < |Decimal(n)| ==> IsDigit(Decimal(n)[i])
  {
    var digit := [('0' as int + n % 10) as char];
    assert DigitOf(digit[0]) == n % 10;
    if n < 10 {
      assert digit[..0] == "";
    } else {
      ReadsDecimal(n / 10);
      assert Decimal(n)[..|Decimal(n)| - 1] == Decimal(n / 10);
    }
  }

  /** What a client makes of a line: a code of three digits, and what follows the separator. */
  function ReadReply(line: string): Response {
    if |line| <= 3 then Response(ReadNat(line), "", false)
    else Response(ReadNat(line[..3]), line[4..], IsContinued(line))
  }

  /** A printed reply carries its code, its message and whether more lines follow. */
  lemma ReplyRoundTrip(r: Response)
    requires WellFormed(r)
    ensures ReadReply(r.Line()) == r
  {
    DecimalHasThreeDigits(r.code);
    ReadsDecimal(r.code);
    LineIsFramed(r);
    hide Decimal;
    hide ReadNat;
    hide OneLine;
    var line, code := r.Line(), Decimal(r.code);
    if r.message == "" {
      assert line == code;
    } else {
      assert line[..3] == code && line[4..] == r.message;
    }
  }

  function ReadReplies(wire: string): seq<Response> {
    var lines := ReadLines(wire);
    seq(|lines|, i requires 0 <= i < |lines| => ReadReply(lines[i]))
  }

  lemma {:induction false} LinesAt(rs: seq<Response>, i: nat)
    requires i < |rs|
    ensures Lines(rs)[i] == rs[i].Line()
  {
    if i == 0 {
    } else {
      LinesAt(rs[1..], i - 1);
    }
  }

  /** A client recovers the replies themselves from the wire. */
  lemma WireRoundTrip(rs: seq<Response>)
    requires AllWellFormed(rs)
    ensures ReadReplies(OnWire(rs)) == rs
  {
    hide WellFormed;
    hide ReadReply;
    hide OnWire;
    hide ReadLines;
    ReadsWhatWasPrinted(rs);
    forall i | 0 <= i < |rs| ensures ReadReply(Lines(rs)[i]) == rs[i] {
      assert WellFormed(rs[i]);
      LinesAt(rs, i);
      ReplyRoundTrip(rs[i]);
    }
  }
}
