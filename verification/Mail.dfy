/** The mail object of lib.rs: an in-place builder and its address rule. */
module MailObject {
  import opened Wrappers
  import opened Bytes

  /** The value of a mail object at one moment, as handed to a handler. */
  datatype Letter = Letter(from: string, to: seq<string>, data: bytes)

  const EMPTY_LETTER := Letter("", [], [])

  function StripFirst(s: string, c: char): string {
    if s != [] && s[0] == c then s[1..] else s
  }

  function StripLast(s: string, c: char): string {
    if s != [] && s[|s| - 1] == c then s[..|s| - 1] else s
  }

  /** One pair of angle brackets is removed, with the blanks outside and inside it. */
  function NormalizeAddress(address: string): string {
    TrimText(StripLast(StripFirst(TrimText(address), '<'), '>'))
  }

  class Mail {
    var from: string
    var to: seq<string>
    var data: bytes

    constructor ()
      ensures Value() == EMPTY_LETTER
    {
      from, to, data := "", [], [];
    }

    function Value(): Letter
      reads this
    {
      Letter(from, to, data)
    }

    method SetSender(address: string)
      modifies this`from
      ensures from == NormalizeAddress(address)
    {
      from := NormalizeAddress(address);
    }

    method AddRecipient(address: string)
      modifies this`to
      ensures to == old(to) + [NormalizeAddress(address)]
    {
      to := to + [NormalizeAddress(address)];
    }

    method AppendData(chunk: bytes)
      modifies this`data
      ensures data == old(data) + chunk
    {
      data := data + chunk;
    }
  }

  /** An address in angle brackets normalises to itself, however it looks inside. */
  lemma BracketedAddress(a: string)
    requires TextTrimmed(a)
    ensures NormalizeAddress("<" + a + ">") == a
  {
    var s := "<" + a + ">";
    TrimTrims(s, IsSpace);
    assert TrimText(s) == s;
    assert StripFirst(s, '<') == a + ">";
    assert StripLast(a + ">", '>') == a;
    TrimTrims(a, IsSpace);
  }

  // ---- Normalising twice ------------------------------------------------------------------

  /** The first and the last character that is not blank. */
  function FirstMark(s: string): Option<char> {
    if s == "" then None else if IsSpace(s[0]) then FirstMark(s[1..]) else Some(s[0])
  }

  function LastMark(s: string): Option<char> {
    if s == "" then None
    else if IsSpace(s[|s| - 1]) then LastMark(s[..|s| - 1])
    else Some(s[|s| - 1])
  }

  lemma {:induction false} FirstMarkSnoc(s: string, c: char)
    ensures FirstMark(s + [c]) == if FirstMark(s).Some? then FirstMark(s) else FirstMark([c])
  {
    if s == "" {
      assert s + [c] == [c];
    } else {
      assert (s + [c])[1..] == s[1..] + [c];
      FirstMarkSnoc(s[1..], c);
    }
  }

  lemma {:induction false} LastMarkCons(c: char, s: string)
    ensures LastMark([c] + s) == if LastMark(s).Some? then LastMark(s) else LastMark([c])
  {
    if s == "" {
      assert [c] + s == [c];
    } else {
      var t := [c] + s;
      assert t[..|t| - 1] == [c] + s[..|s| - 1] && t[|t| - 1] == s[|s| - 1];
      LastMarkCons(c, s[..|s| - 1]);
    }
  }

  lemma {:induction false} DropWhileKeepsMarks(s: string)
    ensures FirstMark(DropWhile(s, IsSpace)) == FirstMark(s) && LastMark(DropWhile(s, IsSpace)) == LastMark(s)
  {
    if s == "" || !IsSpace(s[0]) {
      assert DropWhile(s, IsSpace) == s;
    } else {
      DropWhileKeepsMarks(s[1..]);
      LastMarkCons(s[0], s[1..]);
      assert [s[0]] + s[1..] == s;
    }
  }

  lemma {:induction false} DropWhileEndKeepsMarks(s: string)
    ensures FirstMark(DropWhileEnd(s, IsSpace)) == FirstMark(s)
    ensures LastMark(DropWhileEnd(s, IsSpace)) == LastMark(s)
  {
    if s == "" || !IsSpace(s[|s| - 1]) {
      assert DropWhileEnd(s, IsSpace) == s;
    } else {
      var shorter := s[..|s| - 1];
      DropWhileEndKeepsMarks(shorter);
      FirstMarkSnoc(shorter, s[|s| - 1]);
      assert shorter + [s[|s| - 1]] == s;
    }
  }

  predicate Begins(s: string, c: char) { s != "" && s[0] == c }

  predicate Ends(s: string, c: char) { s != "" && s[|s| - 1] == c }

  /** Trimming brings the marks to the ends. */
  lemma TrimShowsMarks(s: string, c: char)
    requires !IsSpace(c)
    ensures Begins(TrimText(s), c) <==> FirstMark(s) == Some(c)
    ensures Ends(TrimText(s), c) <==> LastMark(s) == Some(c)
  {
    TrimTrims(s, IsSpace);
    DropWhileKeepsMarks(s);
    DropWhileEndKeepsMarks(DropWhile(s, IsSpace));
    hide DropWhile;
    hide DropWhileEnd;
  }

  /** A second bracket follows the opening one, perhaps behind blanks. */
  predicate OpensTwice(t: string) {
    Begins(t, '<') && Begins(TrimText(t[1..]), '<')
  }

  /** A second bracket precedes the closing one, perhaps before blanks. */
  predicate ClosesTwice(t: string) {
    Ends(t, '>') && Ends(TrimText(t[..|t| - 1]), '>')
  }

  lemma StillOpens(t: string)
    requires TextTrimmed(t)
    ensures FirstMark(StripLast(StripFirst(t, '<'), '>')) == Some('<') <==> OpensTwice(t)
  {
    var u := StripFirst(t, '<');
    var m := StripLast(u, '>');
    if Begins(t, '<') {
      TrimShowsMarks(t[1..], '<');
    }
    if Ends(u, '>') {
      FirstMarkSnoc(m, '>');
      assert m + ['>'] == u;
    }
  }

  lemma StillCloses(t: string)
    requires TextTrimmed(t)
    ensures LastMark(StripLast(StripFirst(t, '<'), '>')) == Some('>') <==> ClosesTwice(t)
  {
    var u := StripFirst(t, '<');
    var m := StripLast(u, '>');
    if Ends(t, '>') {
      var b := t[..|t| - 1];
      TrimShowsMarks(b, '>');
      if Begins(t, '<') {
        LastMarkCons('<', m);
        assert b == ['<'] + m;
      } else {
        assert b == m;
      }
    }
  }

  /** Normalising changes a trimmed text exactly if there is a bracket to remove. */
  lemma NormalizeTrimmed(n: string)
    requires TextTrimmed(n)
    ensures NormalizeAddress(n) == n <==> !Begins(n, '<') && !Ends(n, '>')
  {
    TrimTrims(n, IsSpace);
    TrimShrinks(StripLast(StripFirst(n, '<'), '>'));
  }

  /** Normalising twice is the same as once exactly when the trimmed address neither opens
      nor closes with two brackets: nested brackets lose one pair per call. */
  lemma NormalizeTwice(a: string)
    ensures
      var t := TrimText(a);
      NormalizeAddress(NormalizeAddress(a)) == NormalizeAddress(a) <==> !OpensTwice(t) && !ClosesTwice(t)
  {
    var t := TrimText(a);
    var m := StripLast(StripFirst(t, '<'), '>');
    TrimTrims(a, IsSpace);
    TrimTrims(m, IsSpace);
    StillOpens(t);
    StillCloses(t);
    TrimShowsMarks(m, '<');
    TrimShowsMarks(m, '>');
    NormalizeTrimmed(TrimText(m));
    hide OpensTwice;
    hide ClosesTwice;
  }

  lemma {:induction false} TrimShrinks(s: string)
    ensures |TrimText(s)| <= |s|
  {
    DropWhileShrinks(s);
    DropWhileStops(s, IsSpace);
    DropWhileEndKeepsHead(DropWhile(s, IsSpace), IsSpace);
  }

  lemma {:induction false} DropWhileShrinks(s: string)
    ensures |DropWhile(s, IsSpace)| <= |s|
  {
    if s == [] || !IsSpace(s[0]) {
    } else {
      DropWhileShrinks(s[1..]);
    }
  }

  /** A doubly bracketed address shows that normalisation is not idempotent. */
  lemma NestedBrackets()
    ensures NormalizeAddress("<<a>>") == "<a>" && NormalizeAddress("<a>") == "a"
  {
    BracketedAddress("<a>");
    BracketedAddress("a");
    assert "<" + "<a>" + ">" == "<<a>>";
    assert "<" + "a" + ">" == "<a>";
  }

  predicate Blank(s: string) { forall i :: 0 <= i < |s| ==> IsSpace(s[i]) }

  /** A pair of angle brackets, and blanks outside and inside it, are all that is removed. */
  lemma PaddedAddress(l: string, inner: string, a: string, padding: string, r: string)
    requires a != "" && TextTrimmed(a) && Blank(l) && Blank(inner) && Blank(padding) && Blank(r)
    ensures NormalizeAddress(l + ("<" + inner + a + padding + ">") + r) == a
    ensures a[0] != '<' && a[|a| - 1] != '>' ==> NormalizeAddress(l + a + r) == a
  {
    var boxed := "<" + inner + a + padding + ">";
    TrimsPadding(l, boxed, r, IsSpace);
    TrimsPadding(l, a, r, IsSpace);
    TrimsPadding(inner, a, padding, IsSpace);
    TrimTrims(a, IsSpace);
    assert StripFirst(boxed, '<') == inner + a + padding + ">";
    assert StripLast(inner + a + padding + ">", '>') == inner + a + padding;
    hide Trim;
  }
}
