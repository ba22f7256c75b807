/** The per-peer record of connections and fails. */
module Ban {

  /** A peer is its IP address. */
  type Peer = string

  /** Time in nanoseconds. */
  type Instant = nat

  type u32 = x: int | 0 <= x < 0x1_0000_0000

  /** Unchecked additions and subtractions of u32 wrap around. */
  function Inc(x: u32): u32 { if x == 0xFFFF_FFFF then 0 else x + 1 }

  function Dec(x: u32): u32 { if x == 0 then 0xFFFF_FFFF else x - 1 }

  datatype Verdict = Fine | TooManyConnections | TooManyFails | NoRecord

  datatype PeerInfo = PeerInfo(connections: u32, fails: u32, time: Instant)

  type Table = map<Peer, PeerInfo>

  datatype Limits = Limits(maxConnections: u32, maxFails: u32, maxAge: nat)

  /** Time since `then`, and none if `then` is still to come. */
  function Elapsed(now: Instant, since: Instant): nat {
    if since <= now then now - since else 0
  }

  function Pushed(t: Table, peer: Peer, now: Instant): Table {
    t[peer := if peer in t then t[peer].(connections := Inc(t[peer].connections), time := now)
              else PeerInfo(1, 0, now)]
  }

  function Popped(t: Table, peer: Peer): Table {
    if peer in t then t[peer := t[peer].(connections := Dec(t[peer].connections))] else t
  }

  function Failed(t: Table, peer: Peer, now: Instant): Table {
    if peer in t then t[peer := t[peer].(fails := Inc(t[peer].fails), time := now)] else t
  }

  function Evicted(t: Table, now: Instant, maxAge: nat): Table {
    map peer | peer in t && Elapsed(now, t[peer].time) <= maxAge :: t[peer]
  }

  function VerdictOn(limits: Limits, t: Table, peer: Peer): Verdict {
    if peer !in t then NoRecord
    else if t[peer].fails > limits.maxFails then TooManyFails
    else if t[peer].connections > limits.maxConnections then TooManyConnections
    else Fine
  }

  class Fail2Ban {
    const limits: Limits
    var peers: Table

    constructor (limits: Limits)
      ensures this.limits == limits && peers == map[]
    {
      this.limits, peers := limits, map[];
    }

    method PushConnection(peer: Peer, now: Instant)
      modifies this
      ensures peers == Pushed(old(peers), peer, now)
    {
      if peer in peers {
        var info := peers[peer];
        info := info.(connections := Inc(info.connections));
        info := info.(time := now);
        peers := peers[peer := info];
      } else {
        peers := peers[peer := PeerInfo(1, 0, now)];
      }
    }

    method PopConnection(peer: Peer)
      modifies this
      ensures peers == Popped(old(peers), peer)
    {
      if peer in peers {
        peers := peers[peer := peers[peer].(connections := Dec(peers[peer].connections))];
      }
    }

    method PushFail(peer: Peer, now: Instant)
      modifies this
      ensures peers == Failed(old(peers), peer, now)
    {
      if peer in peers {
        var info := peers[peer];
        peers := peers[peer := info.(fails := Inc(info.fails), time := now)];
      }
    }

    /** Forget all peers without recent activity, then judge this one. */
    method GetVerdict(peer: Peer, now: Instant) returns (verdict: Verdict)
      modifies this
      ensures peers == Evicted(old(peers), now, limits.maxAge)
      ensures verdict == VerdictOn(limits, peers, peer)
    {
      peers := map p | p in peers && Elapsed(now, peers[p].time) <= limits.maxAge :: peers[p];
      if peer in peers {
        var info := peers[peer];
        if info.fails > limits.maxFails {
          return TooManyFails;
        } else if info.connections > limits.maxConnections {
          return TooManyConnections;
        }
        return Fine;
      }
      return NoRecord;
    }
  }
}
