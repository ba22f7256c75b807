/** What one peer does to another through the shared record: nothing, as long as it stays
    active; and how long a ban and its reasons last. */
module Isolation {
  import opened Wrappers
  import opened Protocol
  import opened Ban
  import opened Proxy
  import opened Server

  /** The acts of one peer among the first `n`. */
  function Only(acts: seq<Act>, n: nat, peer: Peer): seq<Act>
    requires n <= |acts|
  {
    if n == 0 then []
    else Only(acts, n - 1, peer) + (if acts[n - 1].peer == peer then [acts[n - 1]] else [])
  }

  /** The verdicts on the connects of one peer among the first `n` acts. */
  function Verdicts(limits: Limits, acts: seq<Act>, n: nat, peer: Peer): seq<Verdict>
    requires n <= |acts|
  {
    if n == 0 then []
    else
      Verdicts(limits, acts, n - 1, peer)
      + (if acts[n - 1].Connect? && acts[n - 1].peer == peer
         then [VerdictOn(limits, After(limits, acts, n).table, peer)] else [])
  }

  /** The act would renew the record of its peer: a connect, or an unproductive disconnect. */
  predicate Refreshes(a: Act, peer: Peer) {
    a.peer == peer && (a.Connect? || a.IsFail())
  }

  function LastRefresh(acts: seq<Act>, n: nat, peer: Peer): Option<Instant>
    requires n <= |acts|
  {
    if n == 0 then None
    else if Refreshes(acts[n - 1], peer) then Some(acts[n - 1].Begin())
    else LastRefresh(acts, n - 1, peer)
  }

  /** The peer is never quiet for longer than `gap`. */
  ghost predicate SteadyWithin(acts: seq<Act>, peer: Peer, gap: nat) {
    forall i :: 0 <= i < |acts| && Refreshes(acts[i], peer) && LastRefresh(acts, i, peer).Some? ==>
      acts[i].Begin() <= LastRefresh(acts, i, peer).value + gap
  }

  /** The peer is never quiet for longer than records are kept. */
  ghost predicate Steady(limits: Limits, acts: seq<Act>, peer: Peer) {
    SteadyWithin(acts, peer, limits.maxAge)
  }

  // ---- Simulation -----------------------------------------------------------------------------

  predicate SameRecord(a: Table, b: Table, peer: Peer) {
    (peer in a <==> peer in b) && (peer in a ==> a[peer] == b[peer])
  }

  /** The record, if there is one, was last renewed by the latest refreshing act. */
  predicate Dated(t: Table, peer: Peer, last: Option<Instant>) {
    peer in t ==> last == Some(t[peer].time)
  }

  /** So much time has passed that a steady peer will not renew its record again. */
  predicate Stale(limits: Limits, now: Instant, last: Option<Instant>) {
    last.Some? && last.value + limits.maxAge < now
  }

  /** The system and the run of one peer alone agree on that peer, or it is gone for good. */
  ghost predicate Simulates(limits: Limits, net: Net, solo: Net, peer: Peer, last: Option<Instant>) {
    && Dated(net.table, peer, last) && Dated(solo.table, peer, last)
    && (SameRecord(net.table, solo.table, peer) || Stale(limits, net.now, last))
  }

  /** An act of another peer touches the record only by evicting it when it is stale. */
  lemma OtherAct(limits: Limits, net: Net, a: Act, solo: Net, peer: Peer, last: Option<Instant>)
    requires Enabled(net, a) && a.peer != peer && Simulates(limits, net, solo, peer, last)
    ensures Simulates(limits, Apply(limits, net, a), solo, peer, last)
  {
    hide IsSessionLog;
    hide Replay;
    hide VerdictOn;
  }

  lemma OwnConnect(limits: Limits, net: Net, a: Act, solo: Net, peer: Peer, last: Option<Instant>)
    requires Enabled(net, a) && a.peer == peer && a.Connect? && Simulates(limits, net, solo, peer, last)
    requires last.Some? ==> a.Begin() <= last.value + limits.maxAge
    ensures Simulates(limits, Apply(limits, net, a), Apply(limits, solo, a), peer, Some(a.Begin()))
    ensures VerdictOn(limits, Apply(limits, net, a).table, peer)
         == VerdictOn(limits, Apply(limits, solo, a).table, peer)
  {
    hide IsSessionLog;
  }

  lemma OwnDisconnect(limits: Limits, net: Net, a: Act, solo: Net, peer: Peer, last: Option<Instant>)
    requires Enabled(net, a) && a.peer == peer && a.Disconnect? && Simulates(limits, net, solo, peer, last)
    requires a.IsFail() && last.Some? ==> a.Begin() <= last.value + limits.maxAge
    ensures Simulates(limits, Apply(limits, net, a), Apply(limits, solo, a), peer,
                      if a.IsFail() then Some(a.Begin()) else last)
  {
    hide IsSessionLog;
    hide Replay;
  }

  lemma {:induction false} AfterFrame(limits: Limits, acts: seq<Act>, next: seq<Act>, n: nat, peer: Peer)
    requires n <= |acts| && acts <= next
    ensures After(limits, next, n) == After(limits, acts, n)
    ensures Verdicts(limits, next, n, peer) == Verdicts(limits, acts, n, peer)
  {
    hide Apply;
    hide VerdictOn;
    if n == 0 {
    } else {
      AfterFrame(limits, acts, next, n - 1, peer);
    }
  }

  function Alone(limits: Limits, acts: seq<Act>, n: nat, peer: Peer): Net
    requires n <= |acts|
  {
    After(limits, Only(acts, n, peer), |Only(acts, n, peer)|)
  }

  function VerdictsAlone(limits: Limits, acts: seq<Act>, n: nat, peer: Peer): seq<Verdict>
    requires n <= |acts|
  {
    Verdicts(limits, Only(acts, n, peer), |Only(acts, n, peer)|, peer)
  }

  lemma AloneSnoc(limits: Limits, acts: seq<Act>, n: nat, peer: Peer)
    requires 0 < n <= |acts|
    ensures
      var a := acts[n - 1];
      if a.peer == peer then
        && Alone(limits, acts, n, peer) == Apply(limits, Alone(limits, acts, n - 1, peer), a)
        && VerdictsAlone(limits, acts, n, peer)
           == VerdictsAlone(limits, acts, n - 1, peer)
              + (if a.Connect? then [VerdictOn(limits, Alone(limits, acts, n, peer).table, peer)] else [])
      else
        && Alone(limits, acts, n, peer) == Alone(limits, acts, n - 1, peer)
        && VerdictsAlone(limits, acts, n, peer) == VerdictsAlone(limits, acts, n - 1, peer)
  {
    hide Apply;
    hide VerdictOn;
    var before, now := Only(acts, n - 1, peer), Only(acts, n, peer);
    AfterFrame(limits, before, now, |before|, peer);
  }

  lemma {:induction false} IsolatedSoFar(limits: Limits, acts: seq<Act>, n: nat, peer: Peer)
    requires IsRun(limits, acts) && Steady(limits, acts, peer) && n <= |acts|
    ensures Simulates(limits, After(limits, acts, n), Alone(limits, acts, n, peer), peer, LastRefresh(acts, n, peer))
    ensures Verdicts(limits, acts, n, peer) == VerdictsAlone(limits, acts, n, peer)
  {
    hide Apply;
    hide VerdictOn;
    hide Simulates;
    hide Enabled;
    hide Alone;
    hide VerdictsAlone;
    if n == 0 {
      IsolatedAtStart(limits, acts, peer);
    } else {
      IsolatedSoFar(limits, acts, n - 1, peer);
      AloneSnoc(limits, acts, n, peer);
      var net, solo, a := After(limits, acts, n - 1), Alone(limits, acts, n - 1, peer), acts[n - 1];
      var last := LastRefresh(acts, n - 1, peer);
      if a.peer != peer {
        OtherAct(limits, net, a, solo, peer, last);
      } else if a.Connect? {
        OwnConnect(limits, net, a, solo, peer, last);
      } else {
        OwnDisconnect(limits, net, a, solo, peer, last);
      }
    }
  }

  lemma IsolatedAtStart(limits: Limits, acts: seq<Act>, peer: Peer)
    ensures Simulates(limits, After(limits, acts, 0), Alone(limits, acts, 0, peer), peer, LastRefresh(acts, 0, peer))
    ensures Verdicts(limits, acts, 0, peer) == VerdictsAlone(limits, acts, 0, peer)
  {}

  /** The peer gets the verdicts that it gets in the run of its own acts alone. */
  ghost predicate Isolated(limits: Limits, acts: seq<Act>, peer: Peer) {
    var own := Only(acts, |acts|, peer);
    Verdicts(limits, acts, |acts|, peer) == Verdicts(limits, own, |own|, peer)
  }

  /** Whatever other peers do, a steady peer gets the verdicts it would get alone. */
  lemma PeerIsolation(limits: Limits, acts: seq<Act>, peer: Peer)
    requires IsRun(limits, acts) && Steady(limits, acts, peer)
    ensures Isolated(limits, acts, peer)
  {
    hide IsRun;
    hide Steady;
    hide Verdicts;
    IsolatedSoFar(limits, acts, |acts|, peer);
  }

  // ---- Fails --------------------------------------------------------------------------------------

  ghost predicate FailsWithin(t: Table, peer: Peer, n: nat) {
    peer in t ==> t[peer].fails <= n
  }

  lemma ActWithin(limits: Limits, net: Net, a: Act, peer: Peer, n: nat)
    requires FailsWithin(net.table, peer, n) && n < 0xFFFF_FFFF
    ensures FailsWithin(Apply(limits, net, a).table, peer, n + 1)
  {
    hide Replay;
    hide VerdictOn;
  }

  lemma {:induction false} RunWithin(limits: Limits, acts: seq<Act>, peer: Peer, n: nat)
    requires |acts| < 0x1_0000_0000 && n <= |acts|
    ensures FailsWithin(After(limits, acts, n).table, peer, n)
  {
    hide Apply;
    if n == 0 {
    } else {
      RunWithin(limits, acts, peer, n - 1);
      ActWithin(limits, After(limits, acts, n - 1), acts[n - 1], peer, n - 1);
    }
  }

  /** How many tasks of a peer within acts[lo..hi] that ended without having been of use: they
      were rejected at connect, or passed on no mail, or ended on a refused login. */
  ghost function UselessEnds(acts: seq<Act>, lo: nat, hi: nat, peer: Peer): nat
    requires hi <= |acts|
    decreases hi
  {
    if hi <= lo then 0
    else
      var a := acts[hi - 1];
      UselessEnds(acts, lo, hi - 1, peer) + (if a.Disconnect? && a.peer == peer && !Useful(a.log) then 1 else 0)
  }

  lemma FailIsUseless(net: Net, a: Act)
    requires Enabled(net, a) && a.Disconnect?
    ensures a.IsFail() <==> !Useful(a.log)
  {
    hide Transcript;
    hide Useful;
    if net.open[a.id].accepted {
      var cfg, acceptor, input :| a.log <= Transcript(cfg, Plain(acceptor), input);
      ProductiveIffUseful(cfg, acceptor, input, |a.log|);
      assert a.log == Transcript(cfg, Plain(acceptor), input)[..|a.log|];
    } else {
      EmptyIsUseless();
    }
  }

  lemma EmptyIsUseless()
    ensures !Useful([]) && !Replay([], 0).productive
  {}

  lemma ActCountsFail(limits: Limits, net: Net, a: Act, peer: Peer, n: nat)
    requires peer in net.table && peer in Apply(limits, net, a).table && net.table[peer].fails <= n < 0xFFFF_FFFF
    ensures Apply(limits, net, a).table[peer].fails
         == net.table[peer].fails + (if a.peer == peer && a.IsFail() then 1 else 0)
  {
    hide Replay;
    hide VerdictOn;
  }

  lemma RecordIsBorn(limits: Limits, net: Net, a: Act, peer: Peer)
    requires peer !in net.table && peer in Apply(limits, net, a).table
    ensures a.Connect? && a.peer == peer && Apply(limits, net, a).table[peer].fails == 0
  {
    hide Replay;
    hide VerdictOn;
  }

  /** A record was created by a connect of its peer at which the peer had no open task,
      was never forgotten since, and its fails are exactly those tasks of the peer that
      ended since then without having been of use. */
  lemma {:induction false} FailAccounting(limits: Limits, acts: seq<Act>, life: nat, peer: Peer, n: nat)
    returns (born: nat)
    requires IsRun(limits, acts) && Timely(limits, acts, life) && life <= limits.maxAge && n <= |acts|
    requires peer in After(limits, acts, n).table
    ensures born < n && acts[born].Connect? && acts[born].peer == peer
    ensures OpenOf(After(limits, acts, born), peer) == {}
    ensures peer !in After(limits, acts, born).table
    ensures forall k :: born < k <= n ==> peer in After(limits, acts, k).table
    ensures After(limits, acts, n).table[peer].fails == UselessEnds(acts, born, n, peer)
    decreases n
  {
    hide After;
    hide IsRun;
    hide Timely;
    hide OpenOf;
    hide Consistent;
    hide UselessEnds;
    var net := LastAct(limits, acts, n);
    if peer in net.table {
      born := FailAccounting(limits, acts, life, peer, n - 1);
      FailCounted(limits, acts, born, n, peer);
    } else {
      born := n - 1;
      RecordIsBorn(limits, net, acts[n - 1], peer);
      RunIsConsistent(limits, acts, life, n - 1);
      NoTaskWithoutRecord(limits, net, n - 1, peer);
      NothingEndedYet(acts, born, peer);
    }
  }

  lemma ConnectingHasRecord(limits: Limits, net: Net, a: Act, life: nat, n: nat)
    requires Consistent(limits, net, n) && Enabled(net, a) && a.Connect? && n < 0xFFFF_FFFF
    requires TimelyAct(net, a, life) && life <= limits.maxAge
    ensures
      var next := Apply(limits, net, a);
      a.peer in next.table && next.table[a.peer].connections == |OpenOf(next, a.peer)|
  {
    ConnectKeepsRecent(limits, net, a, life);
    ConnectKeepsCounted(limits, net, a);
    hide Recent;
    hide OpenOf;
  }

  /** With timely tasks the verdict on a connect is exact: it counts the useless ends since
      the record was made, and then the open tasks of the peer, this one included. */
  lemma VerdictIsExact(limits: Limits, acts: seq<Act>, life: nat, peer: Peer, n: nat)
    returns (born: nat)
    requires IsRun(limits, acts) && Timely(limits, acts, life) && life <= limits.maxAge
    requires 0 < n <= |acts| && acts[n - 1].Connect? && acts[n - 1].peer == peer
    ensures born < n && acts[born].Connect? && acts[born].peer == peer
    ensures peer !in After(limits, acts, born).table
    ensures forall k :: born < k <= n ==> peer in After(limits, acts, k).table
    ensures
      var net := After(limits, acts, n);
      VerdictOn(limits, net.table, peer)
        == if UselessEnds(acts, born, n, peer) > limits.maxFails then TooManyFails
           else if |OpenOf(net, peer)| > limits.maxConnections then TooManyConnections
           else Fine
  {
    hide Apply;
    hide After;
    hide IsRun;
    hide OpenOf;
    hide UselessEnds;
    hide Consistent;
    hide Enabled;
    hide TimelyAct;
    var net := LastAct(limits, acts, n);
    RunIsShort(limits, acts);
    RunIsConsistent(limits, acts, life, n - 1);
    ConnectingHasRecord(limits, net, acts[n - 1], life, n - 1);
    born := FailAccounting(limits, acts, life, peer, n);
  }

  lemma LastAct(limits: Limits, acts: seq<Act>, n: nat)
    returns (net: Net)
    requires IsRun(limits, acts) && n <= |acts|
    ensures n == 0 ==> After(limits, acts, n) == IDLE
    ensures n > 0 ==>
      && net == After(limits, acts, n - 1) && After(limits, acts, n) == Apply(limits, net, acts[n - 1])
      && Enabled(net, acts[n - 1])
  {
    hide Apply;
    hide Enabled;
    net := if n > 0 then After(limits, acts, n - 1) else IDLE;
  }

  lemma NothingEndedYet(acts: seq<Act>, born: nat, peer: Peer)
    requires born < |acts| && acts[born].Connect?
    ensures UselessEnds(acts, born, born + 1, peer) == 0
  {}

  lemma FailCounted(limits: Limits, acts: seq<Act>, born: nat, n: nat, peer: Peer)
    requires IsRun(limits, acts) && born < n <= |acts|
    requires peer in After(limits, acts, n - 1).table && peer in After(limits, acts, n).table
    requires After(limits, acts, n - 1).table[peer].fails == UselessEnds(acts, born, n - 1, peer)
    ensures After(limits, acts, n).table[peer].fails == UselessEnds(acts, born, n, peer)
  {
    hide Apply;
    hide Enabled;
    hide Useful;
    hide IsRun;
    var net := LastAct(limits, acts, n);
    var a := acts[n - 1];
    if a.Disconnect? {
      FailIsUseless(net, a);
    }
    RunIsShort(limits, acts);
    RunWithin(limits, acts, peer, n - 1);
    ActCountsFail(limits, net, a, peer, n - 1);
  }

  lemma RunIsShort(limits: Limits, acts: seq<Act>)
    requires IsRun(limits, acts)
    ensures |acts| < 0x1_0000_0000
  {}

  lemma NoTaskWithoutRecord(limits: Limits, net: Net, n: nat, peer: Peer)
    requires Consistent(limits, net, n) && peer !in net.table
    ensures OpenOf(net, peer) == {}
  {
    NoRecordNoTask(net, peer);
  }

  // ---- Bans ------------------------------------------------------------------------------------

  /** The peer is judged before its own fresh record could expire. */
  ghost predicate JudgedSoon(limits: Limits, acts: seq<Act>, peer: Peer) {
    forall i :: 0 <= i < |acts| && acts[i].peer == peer ==> acts[i].End() <= acts[i].Begin() + limits.maxAge
  }

  /** Before its first connect the peer has neither record nor task. After that its record
      has `fails` fails; it has lost it only if it was quiet for too long to come back. */
  ghost predicate Tallied(limits: Limits, net: Net, peer: Peer, last: Option<Instant>, fails: nat) {
    && Dated(net.table, peer, last)
    && (if last.None?
        then fails == 0 && peer !in net.table && forall id :: id in net.open ==> net.open[id].peer != peer
        else if peer in net.table then net.table[peer].fails == fails else Stale(limits, net.now, last))
  }

  /** The fails after an act, and the latest refreshing act. */
  ghost function FailsNext(a: Act, peer: Peer, fails: nat): nat {
    fails + (if a.Disconnect? && a.peer == peer && !Useful(a.log) then 1 else 0)
  }

  function RefreshNext(a: Act, peer: Peer, last: Option<Instant>): Option<Instant> {
    if Refreshes(a, peer) then Some(a.Begin()) else last
  }

  lemma OtherActTallied(limits: Limits, net: Net, a: Act, peer: Peer, last: Option<Instant>, fails: nat)
    requires Enabled(net, a) && a.peer != peer && Tallied(limits, net, peer, last, fails)
    ensures Tallied(limits, Apply(limits, net, a), peer, last, fails)
  {
    hide IsSessionLog;
    hide Replay;
    hide VerdictOn;
  }

  lemma ConnectTallied(limits: Limits, net: Net, a: Act, peer: Peer, last: Option<Instant>, fails: nat)
    requires Enabled(net, a) && a.peer == peer && a.Connect? && Tallied(limits, net, peer, last, fails)
    requires last.Some? ==> a.Begin() <= last.value + limits.maxAge
    requires a.End() <= a.Begin() + limits.maxAge
    ensures Tallied(limits, Apply(limits, net, a), peer, Some(a.Begin()), fails)
    ensures VerdictOn(limits, Apply(limits, net, a).table, peer) == TooManyFails <==> fails > limits.maxFails
  {
    hide IsSessionLog;
  }

  lemma DisconnectTallied(limits: Limits, net: Net, a: Act, peer: Peer, last: Option<Instant>, fails: nat)
    requires Enabled(net, a) && a.peer == peer && a.Disconnect? && Tallied(limits, net, peer, last, fails)
    requires a.IsFail() && last.Some? ==> a.Begin() <= last.value + limits.maxAge
    requires peer in net.table ==> net.table[peer].fails < 0xFFFF_FFFF
    ensures Tallied(limits, Apply(limits, net, a), peer, RefreshNext(a, peer, last), FailsNext(a, peer, fails))
  {
    hide Useful;
    FailIsUseless(net, a);
    hide IsSessionLog;
    hide Replay;
  }

  lemma ActTallied(limits: Limits, acts: seq<Act>, n: nat, peer: Peer)
    requires IsRun(limits, acts) && Steady(limits, acts, peer) && JudgedSoon(limits, acts, peer) && 0 < n <= |acts|
    requires Tallied(limits, After(limits, acts, n - 1), peer, LastRefresh(acts, n - 1, peer),
                     UselessEnds(acts, 0, n - 1, peer))
    ensures Tallied(limits, After(limits, acts, n), peer, LastRefresh(acts, n, peer), UselessEnds(acts, 0, n, peer))
    ensures acts[n - 1].Connect? && acts[n - 1].peer == peer ==>
      (VerdictOn(limits, After(limits, acts, n).table, peer) == TooManyFails
       <==> UselessEnds(acts, 0, n, peer) > limits.maxFails)
  {
    hide Apply;
    hide Enabled;
    hide IsRun;
    hide VerdictOn;
    hide Tallied;
    hide FailsWithin;
    hide Useful;
    var net := LastAct(limits, acts, n);
    var a, last, fails := acts[n - 1], LastRefresh(acts, n - 1, peer), UselessEnds(acts, 0, n - 1, peer);
    if a.peer != peer {
      OtherActTallied(limits, net, a, peer, last, fails);
    } else if a.Connect? {
      ConnectTallied(limits, net, a, peer, last, fails);
    } else {
      RunIsShort(limits, acts);
      RunWithin(limits, acts, peer, n - 1);
      FewFails(net.table, peer, n - 1);
      DisconnectTallied(limits, net, a, peer, last, fails);
    }
  }

  lemma FewFails(t: Table, peer: Peer, n: nat)
    requires FailsWithin(t, peer, n) && n < 0xFFFF_FFFF
    ensures peer in t ==> t[peer].fails < 0xFFFF_FFFF
  {}

  lemma {:induction false} RunTallied(limits: Limits, acts: seq<Act>, n: nat, peer: Peer)
    requires IsRun(limits, acts) && Steady(limits, acts, peer) && JudgedSoon(limits, acts, peer) && n <= |acts|
    ensures Tallied(limits, After(limits, acts, n), peer, LastRefresh(acts, n, peer), UselessEnds(acts, 0, n, peer))
    ensures n > 0 && acts[n - 1].Connect? && acts[n - 1].peer == peer ==>
      (VerdictOn(limits, After(limits, acts, n).table, peer) == TooManyFails
       <==> UselessEnds(acts, 0, n, peer) > limits.maxFails)
  {
    hide IsRun;
    hide Steady;
    hide JudgedSoon;
    hide VerdictOn;
    if n == 0 {
      assert UselessEnds(acts, 0, 0, peer) == 0;
    } else {
      RunTallied(limits, acts, n - 1, peer);
      ActTallied(limits, acts, n, peer);
    }
    hide Tallied;
  }

  /** A steady peer is rejected for its fails, whatever other peers do, exactly at those
      connects before which more than the permitted number of its tasks were of no use. */
  lemma BannedIffExceeded(limits: Limits, acts: seq<Act>, n: nat, peer: Peer)
    requires IsRun(limits, acts) && Steady(limits, acts, peer) && JudgedSoon(limits, acts, peer)
    requires 0 < n <= |acts| && acts[n - 1].Connect? && acts[n - 1].peer == peer
    ensures VerdictOn(limits, After(limits, acts, n).table, peer) == TooManyFails
       <==> UselessEnds(acts, 0, n, peer) > limits.maxFails
  {
    hide IsRun;
    hide Steady;
    hide JudgedSoon;
    RunTallied(limits, acts, n, peer);
  }

  lemma {:induction false} EndsGrow(acts: seq<Act>, i: nat, n: nat, peer: Peer)
    requires i <= n <= |acts|
    ensures UselessEnds(acts, 0, i, peer) <= UselessEnds(acts, 0, n, peer)
    decreases n
  {
    hide Useful;
    if i == n {
    } else {
      EndsGrow(acts, i, n - 1, peer);
    }
  }

  /** The record shows too many fails; the peer loses it only if it will not come back. */
  ghost predicate StaysBanned(limits: Limits, net: Net, peer: Peer, last: Option<Instant>) {
    && Dated(net.table, peer, last)
    && (if peer in net.table then net.table[peer].fails > limits.maxFails else Stale(limits, net.now, last))
  }

  lemma TalliedIsBanned(limits: Limits, net: Net, peer: Peer, last: Option<Instant>, fails: nat)
    requires Tallied(limits, net, peer, last, fails)
    ensures fails > limits.maxFails ==> StaysBanned(limits, net, peer, last)
    ensures peer in net.table ==> net.table[peer].fails == fails
  {}

  /** While a peer is steady, its ban lasts: once its record shows too many fails, it is
      rejected for them at each later connect. */
  lemma BanLasts(limits: Limits, acts: seq<Act>, peer: Peer, i: nat, n: nat)
    requires IsRun(limits, acts) && Steady(limits, acts, peer) && JudgedSoon(limits, acts, peer) && i <= n <= |acts|
    requires peer in After(limits, acts, i).table && After(limits, acts, i).table[peer].fails > limits.maxFails
    ensures StaysBanned(limits, After(limits, acts, n), peer, LastRefresh(acts, n, peer))
    ensures n > 0 && acts[n - 1].Connect? && acts[n - 1].peer == peer ==>
      VerdictOn(limits, After(limits, acts, n).table, peer) == TooManyFails
  {
    hide IsRun;
    hide Steady;
    hide JudgedSoon;
    hide VerdictOn;
    hide UselessEnds;
    hide LastRefresh;
    hide Tallied;
    hide StaysBanned;
    RunTallied(limits, acts, i, peer);
    RunTallied(limits, acts, n, peer);
    TalliedIsBanned(limits, After(limits, acts, i), peer, LastRefresh(acts, i, peer), UselessEnds(acts, 0, i, peer));
    TalliedIsBanned(limits, After(limits, acts, n), peer, LastRefresh(acts, n, peer), UselessEnds(acts, 0, n, peer));
    EndsGrow(acts, i, n, peer);
  }
}
