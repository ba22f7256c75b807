/** Connections: buffered reading, and the hand-over of read-ahead bytes to TLS. */
module Connections {
  import opened Wrappers
  import opened Bytes
  import opened Protocol

  /** How many bytes the next read returns. `cuts` are the sizes the network happens to
      deliver; a read returns nothing only without room or at the end of the stream. */
  function Granted(cuts: seq<nat>, room: nat, available: nat): (n: nat)
    ensures n <= room && n <= available
    ensures n == 0 <==> room == 0 || available == 0
  {
    var want := if cuts == [] || cuts[0] == 0 then 1 else cuts[0];
    if want <= room && want <= available then want
    else if room <= available then room else available
  }

  function Later(cuts: seq<nat>): seq<nat> {
    if cuts == [] then [] else cuts[1..]
  }

  class Connection {
    var buffer: bytes
    var socket: bytes
    var cuts: seq<nat>
    var link: Link

    constructor (socket: bytes, link: Link, cuts: seq<nat>)
      ensures Input() == socket && this.link == link
    {
      buffer, this.socket, this.cuts, this.link := [], socket, cuts, link;
    }

    /** Every byte that has arrived or will arrive and was not consumed yet. */
    function Input(): bytes
      reads this
    {
      buffer + socket
    }

    /** The buffered bytes, reading more only if there are none. */
    method FillBuf() returns (buf: bytes)
      modifies this`buffer, this`socket, this`cuts
      ensures buf == buffer && Input() == old(Input())
      ensures buf == [] <==> Input() == []
    {
      if buffer == [] {
        var n := Granted(cuts, |socket|, |socket|);
        buffer, socket, cuts := socket[..n], socket[n..], Later(cuts);
      }
      buf := buffer;
    }

    method Consume(n: nat)
      requires n <= |buffer|
      modifies this`buffer
      ensures buffer == old(buffer)[n..]
    {
      buffer := buffer[n..];
    }

    /** Upgrade to TLS. The TLS layer sees the connection through a prefixed stream. */
    method StartTls(handshake: bytes -> Option<bytes>) returns (upgraded: Connection?)
      ensures upgraded != null <==> link == Plain(true) && handshake(Input()).Some?
      ensures upgraded != null ==>
        fresh(upgraded) && upgraded.link == Tls && handshake(Input()) == Some(upgraded.Input())
    {
      upgraded := null;
      if link == Plain(true) {
        var stream := new PrefixedTcpStream.FromExisting(this);
        var raw := stream.ReadAll(cuts);
        match handshake(raw)
        case None =>
        case Some(text) => upgraded := new Connection(text, Tls, cuts);
      }
    }
  }

  /** A TCP stream that first replays the bytes that were read ahead. */
  class PrefixedTcpStream {
    var prefix: bytes
    var inner: bytes
    var cuts: seq<nat>

    constructor FromExisting(reader: Connection)
      ensures prefix == reader.buffer && inner == reader.socket
      ensures Remaining() == reader.Input()
    {
      prefix, inner, cuts := reader.buffer, reader.socket, reader.cuts;
    }

    function Remaining(): bytes
      reads this
    {
      prefix + inner
    }

    /** One read into `room` free bytes. No byte is lost, repeated or reordered, and
        the socket is not touched before the prefix is used up. */
    method PollRead(room: nat) returns (chunk: bytes)
      modifies this
      ensures chunk + Remaining() == old(Remaining()) && |chunk| <= room
      ensures chunk == [] ==> room == 0 || Remaining() == []
      ensures old(prefix) != [] ==> inner == old(inner)
    {
      if prefix != [] {
        var n := if |prefix| < room then |prefix| else room;
        chunk, prefix := prefix[..n], prefix[n..];
        return;
      }
      var n := Granted(cuts, room, |inner|);
      chunk, inner, cuts := inner[..n], inner[n..], Later(cuts);
    }

    /** What the TLS layer gets to see: the results of reads with any buffer sizes. */
    method ReadAll(rooms: seq<nat>) returns (raw: bytes)
      modifies this
      ensures raw == old(Remaining())
    {
      raw := [];
      var sizes := rooms;
      while Remaining() != []
        invariant raw + Remaining() == old(Remaining())
        decreases |Remaining()|
      {
        var room := if sizes == [] || sizes[0] == 0 then 1 else sizes[0];
        var chunk := PollRead(room);
        raw, sizes := raw + chunk, Later(sizes);
      }
    }
  }
}
