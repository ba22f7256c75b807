/** Reading one line from bytes that arrive in pieces. */
module Reader {
  import opened Bytes
  import opened Protocol
  import opened Connections

  datatype LineResult = GotLine(line: bytes) | CleanEof | BadLine | NoLine

  lemma Regroup(a: bytes, b: bytes, x: byte, c: bytes, d: bytes)
    ensures a + ((b + [x] + c) + d) == (a + b) + [x] + (c + d)
    ensures a + (b + [x]) == (a + b) + [x]
  {}

  lemma TakeFirst(line: bytes, buf: bytes, n: nat, socket: bytes)
    requires n <= |buf|
    ensures line + (buf + socket) == (line + buf[..n]) + (buf[n..] + socket)
  {}

  lemma LineFeedSplits(head: bytes, tail: bytes)
    requires LF !in head
    ensures
      ReadFlat(head + [LF] + tail) == if |head| + 1 <= MAX_LINE_LENGTH then Line(head + [LF], tail) else TooLong
  {
    FirstIndex(head, LF, tail);
    var s := head + [LF] + tail;
    assert s[..|head| + 1] == head + [LF] && s[|head| + 1..] == tail;
  }

  /** A line feed in the next piece settles the line, whatever comes behind it. */
  lemma PieceWithLineFeed(line: bytes, buf: bytes, socket: bytes, n: nat)
    requires LF !in line && 0 < n <= |buf| && buf[n - 1] == LF && LF !in buf[..n - 1]
    ensures
      ReadFlat(line + (buf + socket))
        == if |line| + n <= MAX_LINE_LENGTH then Line(line + buf[..n], buf[n..] + socket) else TooLong
  {
    var before, behind := buf[..n - 1], buf[n..];
    Regroup(line, before, LF, behind, socket);
    assert buf == before + [LF] + behind;
    assert buf[..n] == before + [LF];
    LineFeedSplits(line + before, behind + socket);
  }

  lemma FoundLater(head: bytes, tail: bytes)
    requires LF !in head && IndexOf(head + tail, LF).Some?
    ensures IndexOf(head + tail, LF).value >= |head|
  {
    var i := IndexOf(head + tail, LF).value;
    assert forall k :: 0 <= k < |head| ==> (head + tail)[k] == head[k];
  }

  /** More than the maximum without a line feed is too long, whatever comes behind it. */
  lemma PieceWithoutLineFeed(line: bytes, buf: bytes, socket: bytes)
    requires LF !in line && LF !in buf && |line| + |buf| > MAX_LINE_LENGTH
    ensures ReadFlat(line + (buf + socket)) == TooLong
  {
    assert line + (buf + socket) == (line + buf) + socket;
    if IndexOf((line + buf) + socket, LF).Some? {
      FoundLater(line + buf, socket);
    }
  }

  /** What the loop of read_line learns from one more piece of `n` bytes, which ends
      with the first line feed of `buf` if there is one. */
  lemma PieceDecides(line: bytes, buf: bytes, socket: bytes, n: nat)
    requires LF !in line && 0 < n <= |buf| && LF !in buf[..n - 1] && (buf[n - 1] == LF || n == |buf|)
    ensures |line| + n > MAX_LINE_LENGTH ==> ReadFlat(line + (buf + socket)) == TooLong
    ensures buf[n - 1] == LF && |line| + n <= MAX_LINE_LENGTH ==>
      ReadFlat(line + (buf + socket)) == Line(line + buf[..n], buf[n..] + socket)
    ensures buf[n - 1] != LF ==> LF !in line + buf[..n]
  {
    if buf[n - 1] == LF {
      PieceWithLineFeed(line, buf, socket, n);
    } else {
      assert buf[..n] == buf[..n - 1] + [buf[n - 1]] && buf[..n] == buf;
      if |line| + |buf| > MAX_LINE_LENGTH {
        PieceWithoutLineFeed(line, buf, socket);
      }
    }
  }

  /** The loop of read_line: collect buffered pieces up to a line feed. */
  method CollectLine(connection: Connection) returns (r: LineResult)
    modifies connection
    ensures connection.link == old(connection.link)
    ensures match ReadFlat(old(connection.Input()))
            case Line(line, rest) => r == GotLine(line) && connection.Input() == rest
            case Eof => r == CleanEof && connection.Input() == []
            case _ => r == BadLine
  {
    ghost var input := connection.Input();
    var line: bytes := [];
    while true
      invariant line + connection.Input() == input && connection.link == old(connection.link)
      invariant LF !in line && |line| <= MAX_LINE_LENGTH
      decreases MAX_LINE_LENGTH - |line|
    {
      var buf := connection.FillBuf();
      if buf == [] {
        assert line == input;
        return if line == [] then CleanEof else BadLine;
      }
      var found := IndexOf(buf, LF);
      var n := if found.Some? then found.value + 1 else |buf|;
      PieceDecides(line, buf, connection.socket, n);
      TakeFirst(line, buf, n, connection.socket);
      if |line| + n > MAX_LINE_LENGTH {
        return BadLine;
      }
      line := line + buf[..n];
      connection.Consume(n);
      if line[|line| - 1] == LF {
        return GotLine(line);
      }
    }
  }
}
