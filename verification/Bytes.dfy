/** Option and Result, as the program's own optional values and errors. */
module Wrappers {
  datatype Option<+T> = None | Some(value: T)

  datatype Result<+T, +E> = Success(value: T) | Failure(error: E)
}

/** Byte strings and the library calls on them that the session code relies on. */
module Bytes {
  import opened Wrappers

  /** A byte is written as the character with the same code, so that ASCII
      literals can be compared with received bytes directly. */
  type byte = c: char | c as int < 256

  type bytes = seq<byte>

  const LF: byte := '\n'
  const CRLF: bytes := "\r\n"

  /** Position of the first `x` in `s` (memchr, and Iterator::position). */
  function IndexOf<T(==)>(s: seq<T>, x: T): (r: Option<nat>)
    ensures r.Some? ==> r.value < |s| && s[r.value] == x && x !in s[..r.value]
    ensures r.None? ==> x !in s
  {
    if s == [] then None
    else if s[0] == x then Some(0)
    else
      match IndexOf(s[1..], x)
      case None => None
      case Some(i) => assert s[..i + 1] == [s[0]] + s[1..][..i]; Some(i + 1)
  }

  /** The first `x` of `a + [x] + b` stands right behind an `x`-free `a`. */
  lemma FirstIndex<T>(a: seq<T>, x: T, b: seq<T>)
    requires x !in a
    ensures IndexOf(a + [x] + b, x) == Some(|a|)
  {
    var s := a + [x] + b;
    var r := IndexOf(s, x);
    assert s[|a|] == x;
    assert forall k :: 0 <= k < |a| ==> s[k] == a[k];
    assert forall k: nat :: |a| < k <= |s| ==> s[|a|] in s[..k];
  }

  predicate EndsWith<T(==)>(s: seq<T>, suffix: seq<T>) {
    |suffix| <= |s| && s[|s| - |suffix|..] == suffix
  }

  /** Remove a trailing CRLF, or else a trailing LF, or else nothing. */
  function StripLineEnd(s: bytes): bytes {
    if EndsWith(s, CRLF) then s[..|s| - 2]
    else if EndsWith(s, [LF]) then s[..|s| - 1]
    else s
  }

  /** Neither CR nor LF occurs. */
  predicate OneLine(s: seq<char>) {
    forall i :: 0 <= i < |s| ==> IsInLine(s[i])
  }

  predicate IsInLine(c: char) { c != '\r' && c != '\n' }

  /** A line end the parser accepts: CRLF, LF, or the end of the input. */
  predicate IsLineEnd(s: bytes) {
    s == CRLF || s == [LF] || s == []
  }

  lemma StripsLineEnd(s: bytes, end: bytes)
    requires OneLine(s) && IsLineEnd(end)
    ensures StripLineEnd(s + end) == s
  {
    var t := s + end;
    assert t[..|s|] == s && t[|s|..] == end;
    if s != [] {
      assert s[|s| - 1] in s;
    }
    assert EndsWith(t, [LF]) ==> t[|t| - 1] == LF;
    assert EndsWith(t, CRLF) ==> t[|t| - 1] == LF && t[|t| - 2] == '\r';
  }

  function ToUpper(c: byte): byte {
    if 'a' <= c <= 'z' then c - 32 as char else c
  }

  function Upper(s: bytes): (r: bytes)
    ensures |r| == |s|
    ensures forall i :: 0 <= i < |s| ==> r[i] == ToUpper(s[i])
  {
    seq(|s|, i requires 0 <= i < |s| => ToUpper(s[i]))
  }

  function DropWhile<T>(s: seq<T>, p: T -> bool): seq<T> {
    if s != [] && p(s[0]) then DropWhile(s[1..], p) else s
  }

  function DropWhileEnd<T>(s: seq<T>, p: T -> bool): seq<T> {
    if s != [] && p(s[|s| - 1]) then DropWhileEnd(s[..|s| - 1], p) else s
  }

  function Trim<T>(s: seq<T>, p: T -> bool): seq<T> {
    DropWhileEnd(DropWhile(s, p), p)
  }

  predicate Trimmed<T>(s: seq<T>, p: T -> bool) {
    s == [] || (!p(s[0]) && !p(s[|s| - 1]))
  }

  lemma {:induction false} DropWhileEndKeepsHead<T>(s: seq<T>, p: T -> bool)
    requires s == [] || !p(s[0])
    ensures Trimmed(DropWhileEnd(s, p), p)
    ensures DropWhileEnd(s, p) <= s
  {
    if s == [] || !p(s[|s| - 1]) {
    } else {
      DropWhileEndKeepsHead(s[..|s| - 1], p);
    }
  }

  lemma {:induction false} DropWhileStops<T>(s: seq<T>, p: T -> bool)
    ensures var r := DropWhile(s, p); r == [] || !p(r[0])
  {
    if s == [] || !p(s[0]) {
    } else {
      DropWhileStops(s[1..], p);
    }
  }

  /** Trimming leaves no blank at either end, and changes nothing that has none. */
  lemma TrimTrims<T>(s: seq<T>, p: T -> bool)
    ensures Trimmed(Trim(s, p), p)
    ensures Trimmed(s, p) ==> Trim(s, p) == s
  {
    DropWhileStops(s, p);
    DropWhileEndKeepsHead(DropWhile(s, p), p);
  }

  lemma {:induction false} DropsPadding<T>(l: seq<T>, s: seq<T>, p: T -> bool)
    requires (forall i :: 0 <= i < |l| ==> p(l[i])) && (s == [] || !p(s[0]))
    ensures DropWhile(l + s, p) == s
  {
    if l == [] {
      assert l + s == s;
    } else {
      assert (l + s)[1..] == l[1..] + s;
      DropsPadding(l[1..], s, p);
    }
  }

  lemma {:induction false} DropsPaddingEnd<T>(s: seq<T>, r: seq<T>, p: T -> bool)
    requires (forall i :: 0 <= i < |r| ==> p(r[i])) && (s == [] || !p(s[|s| - 1]))
    ensures DropWhileEnd(s + r, p) == s
    decreases r
  {
    if r == [] {
      assert s + r == s;
    } else {
      var shorter := r[..|r| - 1];
      assert (s + r)[..|s + r| - 1] == s + shorter;
      DropsPaddingEnd(s, shorter, p);
    }
  }

  /** Trimming removes exactly the blanks around a text that neither begins nor ends with one. */
  lemma TrimsPadding<T>(l: seq<T>, s: seq<T>, r: seq<T>, p: T -> bool)
    requires (forall i :: 0 <= i < |l| ==> p(l[i])) && (forall i :: 0 <= i < |r| ==> p(r[i]))
    requires s != [] && Trimmed(s, p)
    ensures Trim(l + s + r, p) == s
  {
    assert l + s + r == l + (s + r);
    DropsPadding(l, s + r, p);
    DropsPaddingEnd(s, r, p);
  }

  /** u8::is_ascii_whitespace. */
  predicate IsAsciiSpace(c: byte) {
    c in " \t\n\U{c}\r"
  }

  /** char::is_whitespace, the Unicode White_Space property. */
  predicate IsSpace(c: char) {
    var u := c as int;
    || 9 <= u <= 13 || u == 0x20 || u == 0x85 || u == 0xA0 || u == 0x1680
    || 0x2000 <= u <= 0x200A || u == 0x2028 || u == 0x2029 || u == 0x202F
    || u == 0x205F || u == 0x3000
  }

  function TrimAscii(s: bytes): bytes { Trim(s, IsAsciiSpace) }

  function TrimText(s: string): string { Trim(s, IsSpace) }

  predicate TextTrimmed(s: string) { Trimmed(s, IsSpace) }

  predicate IsAscii(s: string) {
    forall i :: 0 <= i < |s| ==> s[i] as int < 128
  }

  /** A decoder from bytes to text that reads ASCII as itself, as UTF-8 does. */
  ghost predicate ReadsAscii(lossy: bytes -> string) {
    forall s: bytes :: IsAscii(s) ==> lossy(s) == s
  }

  /** The pieces of `s` between the occurrences of `x` (slice::split). */
  function SplitOn(s: bytes, x: byte): (parts: seq<bytes>)
    ensures |parts| >= 1
    decreases |s|
  {
    match IndexOf(s, x)
    case None => [s]
    case Some(i) => [s[..i]] + SplitOn(s[i + 1..], x)
  }

  lemma SplitsHead(a: bytes, x: byte, b: bytes)
    requires x !in a
    ensures SplitOn(a + [x] + b, x) == [a] + SplitOn(b, x)
  {
    FirstIndex(a, x, b);
    var s := a + [x] + b;
    assert s[..|a|] == a && s[|a| + 1..] == b;
  }

  /** The words with blanks between them (slice::join). */
  function Joined(words: seq<string>): string
    requires words != []
  {
    if |words| == 1 then words[0] else words[0] + [' '] + Joined(words[1..])
  }

  function Concat<T>(parts: seq<seq<T>>): seq<T> {
    if parts == [] then [] else parts[0] + Concat(parts[1..])
  }

  lemma {:induction false} ConcatSnoc<T>(parts: seq<seq<T>>, last: seq<T>)
    ensures Concat(parts + [last]) == Concat(parts) + last
  {
    if parts == [] {
      assert [last] == [last] + [];
    } else {
      assert (parts + [last])[1..] == parts[1..] + [last];
      ConcatSnoc(parts[1..], last);
    }
  }
}
