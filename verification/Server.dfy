/** All connections of a server as one timed system: every task takes the lock once when
    it connects and once when it disconnects, and tasks interleave freely. */
module Server {
  import opened Wrappers
  import opened Bytes
  import opened Protocol
  import opened Ban
  import opened Proxy

  /** A task that has connected and not yet disconnected. */
  datatype Task = Task(peer: Peer, since: Instant, accepted: bool)

  /** One critical section of a task. A disconnecting task brings the log of its session. */
  datatype Act =
    | Connect(id: nat, peer: Peer, pushAt: Instant, verdictAt: Instant)
    | Disconnect(id: nat, peer: Peer, log: seq<Event>, at: Instant)
  {
    function Begin(): Instant { if Connect? then pushAt else at }

    function End(): Instant { if Connect? then verdictAt else at }

    /** The handler counts this task as a fail. */
    predicate IsFail() { Disconnect? && !Replay(log, |log|).productive }
  }

  datatype Net = Net(now: Instant, table: Table, open: map<nat, Task>)

  const IDLE := Net(0, map[], map[])

  function Apply(limits: Limits, net: Net, a: Act): Net {
    match a
    case Connect(id, peer, pushAt, verdictAt) =>
      var table := Evicted(Pushed(net.table, peer, pushAt), verdictAt, limits.maxAge);
      Net(verdictAt, table, net.open[id := Task(peer, pushAt, VerdictOn(limits, table, peer) == Fine)])
    case Disconnect(id, peer, _, at) =>
      var table := if a.IsFail() then Failed(net.table, peer, at) else net.table;
      Net(at, Popped(table, peer), net.open - {id})
  }

  function After(limits: Limits, acts: seq<Act>, n: nat): Net
    requires n <= |acts|
  {
    if n == 0 then IDLE else Apply(limits, After(limits, acts, n - 1), acts[n - 1])
  }

  /** What a session may have logged when its task disconnects, however it ended. */
  ghost predicate IsSessionLog(log: seq<Event>) {
    exists cfg, acceptor, input :: log <= Transcript(cfg, Plain(acceptor), input)
  }

  /** Each task connects once, then disconnects once; only accepted ones have a session. */
  ghost predicate Enabled(net: Net, a: Act) {
    && net.now <= a.Begin() <= a.End()
    && match a
       case Connect(id, _, _, _) => id !in net.open
       case Disconnect(id, peer, log, _) =>
         && id in net.open && net.open[id].peer == peer
         && (if net.open[id].accepted then IsSessionLog(log) else log == [])
  }

  /** A run of the server, short enough for its 32-bit counters. */
  ghost predicate IsRun(limits: Limits, acts: seq<Act>) {
    |acts| < 0x1_0000_0000 && forall i :: 0 <= i < |acts| ==> Enabled(After(limits, acts, i), acts[i])
  }

  /** Whenever the clock is read, no task has been open for longer than `life`. */
  ghost predicate Timely(limits: Limits, acts: seq<Act>, life: nat) {
    forall i :: 0 <= i < |acts| ==> TimelyAct(After(limits, acts, i), acts[i], life)
  }

  ghost predicate TimelyAct(net: Net, a: Act, life: nat) {
    && Elapsed(a.End(), a.Begin()) <= life
    && forall id :: id in net.open ==> Elapsed(a.End(), net.open[id].since) <= life
  }

  // ---- Connection accounting --------------------------------------------------------------

  ghost function OpenOf(net: Net, peer: Peer): set<nat> {
    set id | id in net.open && net.open[id].peer == peer
  }

  ghost function AcceptedOf(net: Net, peer: Peer): set<nat> {
    set id | id in net.open && net.open[id].peer == peer && net.open[id].accepted
  }

  /** Every peer with an open task has a record. */
  ghost predicate Recorded(net: Net) {
    forall id :: id in net.open ==> net.open[id].peer in net.table
  }

  /** Each record counts exactly the open tasks of its peer, accepted or not. */
  ghost predicate Counted(net: Net) {
    forall p :: p in net.table ==> net.table[p].connections == |OpenOf(net, p)|
  }

  ghost predicate Accounts(net: Net) { Recorded(net) && Counted(net) }

  /** A task that disconnects finds a positive count. */
  ghost predicate NoUnderflow(net: Net, a: Act) {
    a.Disconnect? ==> a.peer in net.table && net.table[a.peer].connections > 0
  }

  ghost predicate Accurate(limits: Limits, acts: seq<Act>) {
    && (forall n :: 0 <= n <= |acts| ==> Accounts(After(limits, acts, n)))
    && (forall n :: 0 <= n < |acts| ==> NoUnderflow(After(limits, acts, n), acts[n]))
  }

  ghost predicate Bounded(limits: Limits, net: Net) {
    forall p :: |AcceptedOf(net, p)| <= limits.maxConnections
  }

  /** No record is older than an open task of its peer. */
  ghost predicate Recent(net: Net) {
    forall id :: id in net.open ==> RecentTask(net, net.open[id])
  }

  ghost predicate RecentTask(net: Net, task: Task) {
    task.peer in net.table && task.since <= net.table[task.peer].time && task.since <= net.now
  }

  ghost predicate Consistent(limits: Limits, net: Net, n: nat) {
    Recent(net) && Counted(net) && Bounded(limits, net) && |net.open| <= n
  }

  // ---- Counting open tasks ------------------------------------------------------------------

  lemma Subset(small: set<nat>, big: set<nat>)
    requires small <= big
    ensures |small| <= |big|
  {
    assert big == small + (big - small);
  }

  lemma OpenAdded(net: Net, next: Net, id: nat, task: Task, p: Peer)
    requires id !in net.open && next.open == net.open[id := task]
    ensures |OpenOf(next, p)| == |OpenOf(net, p)| + (if p == task.peer then 1 else 0)
  {
    assert OpenOf(next, p) == OpenOf(net, p) + (if p == task.peer then {id} else {});
  }

  lemma AcceptedAdded(net: Net, next: Net, id: nat, task: Task, p: Peer)
    requires id !in net.open && next.open == net.open[id := task] && !(p == task.peer && task.accepted)
    ensures AcceptedOf(next, p) == AcceptedOf(net, p)
  {}

  lemma AcceptedAreOpen(net: Net, p: Peer)
    ensures |AcceptedOf(net, p)| <= |OpenOf(net, p)|
  {
    Subset(AcceptedOf(net, p), OpenOf(net, p));
  }

  lemma OpenIsAll(net: Net, p: Peer)
    ensures |OpenOf(net, p)| <= |net.open|
  {
    Subset(OpenOf(net, p), net.open.Keys);
  }

  lemma OpenRemoved(net: Net, next: Net, id: nat, p: Peer)
    requires id in net.open && next.open == net.open - {id}
    ensures |OpenOf(next, p)| == |OpenOf(net, p)| - (if p == net.open[id].peer then 1 else 0)
    ensures |AcceptedOf(next, p)| <= |AcceptedOf(net, p)|
  {
    assert OpenOf(next, p) == OpenOf(net, p) - {id};
    Subset(AcceptedOf(next, p), AcceptedOf(net, p));
  }

  lemma NoRecordNoTask(net: Net, p: Peer)
    requires Recent(net) && p !in net.table
    ensures |OpenOf(net, p)| == 0
  {
    forall id | id in net.open ensures net.open[id].peer != p {
      assert RecentTask(net, net.open[id]);
    }
    assert OpenOf(net, p) == {};
  }

  // ---- One critical section -------------------------------------------------------------------

  /** A record is evicted only after longer than any task is open: a peer with an open
      task, or connecting, keeps its record. */
  lemma ConnectKeepsRecent(limits: Limits, net: Net, a: Act, life: nat)
    requires Recent(net) && Enabled(net, a) && a.Connect? && TimelyAct(net, a, life) && life <= limits.maxAge
    ensures Recent(Apply(limits, net, a)) && a.peer in Apply(limits, net, a).table
  {
    hide VerdictOn;
    var next := Apply(limits, net, a);
    forall id | id in next.open ensures RecentTask(next, next.open[id]) {
      if id != a.id {
        assert RecentTask(net, net.open[id]);
        assert Elapsed(a.End(), net.open[id].since) <= life;
      }
    }
  }

  lemma ConnectKeepsCounted(limits: Limits, net: Net, a: Act)
    requires Recent(net) && Counted(net) && Enabled(net, a) && a.Connect? && |net.open| < 0xFFFF_FFFF
    ensures Counted(Apply(limits, net, a))
  {
    hide VerdictOn;
    hide Recent;
    hide OpenOf;
    var next := Apply(limits, net, a);
    forall p | p in next.table ensures next.table[p].connections == |OpenOf(next, p)| {
      OpenAdded(net, next, a.id, next.open[a.id], p);
      OpenIsAll(net, p);
      if p !in net.table {
        NoRecordNoTask(net, p);
      }
    }
  }

  lemma ConnectKeepsBounded(limits: Limits, net: Net, a: Act)
    requires Bounded(limits, net) && Enabled(net, a) && a.Connect?
    requires Counted(Apply(limits, net, a))
    ensures Bounded(limits, Apply(limits, net, a))
  {
    hide Evicted;
    hide Pushed;
    hide OpenOf;
    hide AcceptedOf;
    var next := Apply(limits, net, a);
    forall p ensures |AcceptedOf(next, p)| <= limits.maxConnections {
      AcceptedAreOpen(next, p);
      if !(p == a.peer && next.open[a.id].accepted) {
        AcceptedAdded(net, next, a.id, next.open[a.id], p);
      }
    }
  }

  lemma ConnectKeeps(limits: Limits, net: Net, a: Act, life: nat, n: nat)
    requires Consistent(limits, net, n) && Enabled(net, a) && a.Connect? && n < 0xFFFF_FFFF
    requires TimelyAct(net, a, life) && life <= limits.maxAge
    ensures Consistent(limits, Apply(limits, net, a), n + 1)
  {
    hide Recent;
    hide Counted;
    hide Bounded;
    hide TimelyAct;
    hide Evicted;
    hide Pushed;
    hide VerdictOn;
    hide IsSessionLog;
    ConnectKeepsRecent(limits, net, a, life);
    ConnectKeepsCounted(limits, net, a);
    ConnectKeepsBounded(limits, net, a);
    assert Apply(limits, net, a).open.Keys == net.open.Keys + {a.id};
  }

  lemma DisconnectKeepsRecent(limits: Limits, net: Net, a: Act)
    requires Recent(net) && Enabled(net, a) && a.Disconnect?
    ensures Recent(Apply(limits, net, a))
  {
    hide Replay;
    var next := Apply(limits, net, a);
    forall id | id in next.open ensures RecentTask(next, next.open[id]) {
      assert RecentTask(net, net.open[id]);
    }
  }

  lemma DisconnectFindsCount(net: Net, a: Act)
    requires Recent(net) && Counted(net) && Enabled(net, a) && a.Disconnect?
    ensures NoUnderflow(net, a)
  {
    assert RecentTask(net, net.open[a.id]);
    assert a.id in OpenOf(net, a.peer);
  }

  lemma DisconnectKeepsCounted(limits: Limits, net: Net, a: Act)
    requires Counted(net) && Enabled(net, a) && a.Disconnect? && NoUnderflow(net, a)
    ensures Counted(Apply(limits, net, a))
  {
    hide Replay;
    hide OpenOf;
    var next := Apply(limits, net, a);
    forall p | p in next.table ensures next.table[p].connections == |OpenOf(next, p)| {
      OpenRemoved(net, next, a.id, p);
    }
  }

  lemma DisconnectKeeps(limits: Limits, net: Net, a: Act, n: nat)
    requires Consistent(limits, net, n) && Enabled(net, a) && a.Disconnect?
    ensures NoUnderflow(net, a) && Consistent(limits, Apply(limits, net, a), n + 1)
  {
    hide Recent;
    hide Counted;
    hide NoUnderflow;
    hide OpenOf;
    hide AcceptedOf;
    hide Replay;
    hide IsSessionLog;
    DisconnectKeepsRecent(limits, net, a);
    DisconnectFindsCount(net, a);
    DisconnectKeepsCounted(limits, net, a);
    var next := Apply(limits, net, a);
    forall p ensures |AcceptedOf(next, p)| <= limits.maxConnections {
      OpenRemoved(net, next, a.id, p);
    }
    assert next.open.Keys == net.open.Keys - {a.id};
  }

  // ---- Runs -------------------------------------------------------------------------------------

  lemma {:induction false} RunIsConsistent(limits: Limits, acts: seq<Act>, life: nat, n: nat)
    requires IsRun(limits, acts) && Timely(limits, acts, life) && life <= limits.maxAge && n <= |acts|
    ensures Consistent(limits, After(limits, acts, n), n)
  {
    hide Apply;
    hide Consistent;
    hide Enabled;
    hide TimelyAct;
    if n == 0 {
      IdleIsConsistent(limits);
    } else {
      RunIsConsistent(limits, acts, life, n - 1);
      var net, a := After(limits, acts, n - 1), acts[n - 1];
      if a.Connect? {
        ConnectKeeps(limits, net, a, life, n - 1);
      } else {
        DisconnectKeeps(limits, net, a, n - 1);
      }
    }
  }

  lemma IdleIsConsistent(limits: Limits)
    ensures Consistent(limits, IDLE, 0)
  {
    assert forall p :: AcceptedOf(IDLE, p) == {};
  }

  lemma ConsistentAccounts(limits: Limits, net: Net, n: nat)
    requires Consistent(limits, net, n)
    ensures Accounts(net) && Bounded(limits, net)
  {
    forall id | id in net.open ensures net.open[id].peer in net.table {
      assert RecentTask(net, net.open[id]);
    }
  }

  /** If no task is open for longer than records are kept, then under every interleaving
      no peer with an open task is forgotten, every record counts exactly the open tasks
      of its peer, and no count is decremented below zero. */
  lemma ConnectionAccounting(limits: Limits, acts: seq<Act>, life: nat)
    requires IsRun(limits, acts) && Timely(limits, acts, life) && life <= limits.maxAge
    ensures Accurate(limits, acts)
  {
    hide Accounts;
    hide NoUnderflow;
    hide Consistent;
    hide Enabled;
    hide After;
    hide Timely;
    forall n | 0 <= n <= |acts| ensures Accounts(After(limits, acts, n)) {
      RunIsConsistent(limits, acts, life, n);
      ConsistentAccounts(limits, After(limits, acts, n), n);
    }
    forall n | 0 <= n < |acts| ensures NoUnderflow(After(limits, acts, n), acts[n]) {
      RunIsConsistent(limits, acts, life, n);
      if acts[n].Disconnect? {
        DisconnectKeeps(limits, After(limits, acts, n), acts[n], n);
      } else {
        ConnectsDoNotUnderflow(After(limits, acts, n), acts[n]);
      }
    }
  }

  lemma ConnectsDoNotUnderflow(net: Net, a: Act)
    requires a.Connect?
    ensures NoUnderflow(net, a)
  {}

  /** Under the same hypothesis, no more than the permitted number of accepted sessions of
      one peer are ever open at once, however many rejected ones have yet to disconnect. */
  lemma AcceptedSessionsBounded(limits: Limits, acts: seq<Act>, life: nat, n: nat, peer: Peer)
    requires IsRun(limits, acts) && Timely(limits, acts, life) && life <= limits.maxAge && n <= |acts|
    ensures |AcceptedOf(After(limits, acts, n), peer)| <= limits.maxConnections
  {
    hide After;
    hide IsRun;
    hide Timely;
    hide AcceptedOf;
    RunIsConsistent(limits, acts, life, n);
  }

  // ---- The hypothesis is needed -----------------------------------------------------------------

  /** A second peer connects just after the record of an idle open task expires. */
  function LateVisitor(maxAge: nat): seq<Act> {
    [Connect(0, "a", 0, 0), Connect(1, "b", maxAge + 1, maxAge + 1)]
  }

  lemma LateVisitorIsRun(limits: Limits, life: nat)
    requires limits.maxAge < life
    ensures IsRun(limits, LateVisitor(limits.maxAge)) && Timely(limits, LateVisitor(limits.maxAge), life)
  {
    var acts := LateVisitor(limits.maxAge);
    assert After(limits, acts, 1) == Apply(limits, After(limits, acts, 0), acts[0]);
  }

  lemma LateVisitorForgets(limits: Limits)
    ensures !Recorded(After(limits, LateVisitor(limits.maxAge), 2))
  {
    var acts := LateVisitor(limits.maxAge);
    var first := After(limits, acts, 1);
    assert first == Apply(limits, After(limits, acts, 0), acts[0]);
    var second := After(limits, acts, 2);
    assert second == Apply(limits, first, acts[1]);
    assert second.open[0].peer == "a" && "a" !in second.table;
  }

  /** Accounting is exact in all runs with tasks of at most `life` exactly if records are
      kept at least that long. */
  lemma AccountingIffKept(limits: Limits, life: nat)
    ensures
      (forall acts :: IsRun(limits, acts) && Timely(limits, acts, life) ==> Accurate(limits, acts))
      <==> life <= limits.maxAge
  {
    hide IsRun;
    hide Timely;
    hide Recorded;
    hide After;
    if life <= limits.maxAge {
      forall acts | IsRun(limits, acts) && Timely(limits, acts, life) ensures Accurate(limits, acts) {
        ConnectionAccounting(limits, acts, life);
      }
    } else {
      var acts := LateVisitor(limits.maxAge);
      LateVisitorIsRun(limits, life);
      LateVisitorForgets(limits);
      assert !Accounts(After(limits, acts, 2));
      assert !Accurate(limits, acts);
    }
  }

  lemma EmptyIsSessionLog()
    ensures IsSessionLog([])
  {
    var cfg := Config("", NoAuth, 0, (b: bytes) => "", (b: bytes) => None, (b: bytes) => None, (n: nat) => Accept);
    assert [] <= Transcript(cfg, Plain(false), []);
  }

  /** The late visitor, a new task of the first peer, and the ends of both its tasks. */
  function WrappingRun(maxAge: nat): seq<Act> {
    var t := maxAge + 1;
    [Connect(0, "a", 0, 0), Connect(1, "b", t, t), Connect(2, "a", t, t),
     Disconnect(0, "a", [], t), Disconnect(2, "a", [], t)]
  }

  lemma WrappingStates(limits: Limits)
    returns (n1: Net, n2: Net, n3: Net, n4: Net)
    ensures
      var acts := WrappingRun(limits.maxAge);
      && n1 == After(limits, acts, 1) && n2 == After(limits, acts, 2)
      && n3 == After(limits, acts, 3) && n4 == After(limits, acts, 4)
    ensures n1.open.Keys == {0} && n1.now == 0
    ensures n2.open.Keys == {0, 1} && n2.now == limits.maxAge + 1 && "a" !in n2.table
    ensures n3.open.Keys == {0, 1, 2} && n3.now == limits.maxAge + 1 && n3.open[0].peer == "a"
    ensures n4.open.Keys == {1, 2} && n4.now == limits.maxAge + 1 && n4.open[2].peer == "a"
    ensures "a" in n3.table && n3.table["a"].connections == 1
    ensures "a" in n4.table && n4.table["a"].connections == 0
  {
    hide VerdictOn;
    var acts := WrappingRun(limits.maxAge);
    n1 := Apply(limits, IDLE, acts[0]);
    n2 := Apply(limits, n1, acts[1]);
    n3 := Apply(limits, n2, acts[2]);
    n4 := Apply(limits, n3, acts[3]);
    assert After(limits, acts, 1) == n1;
    assert After(limits, acts, 2) == n2;
    assert After(limits, acts, 3) == n3;
  }

  /** The forgotten task and the new one both disconnect from a record that counted only
      the new one, and the count wraps around, although no task was open for longer than
      just over the age at which records are dropped. */
  lemma ForgottenTaskWraps(limits: Limits)
    ensures
      var acts := WrappingRun(limits.maxAge);
      var table := After(limits, acts, 5).table;
      && IsRun(limits, acts) && Timely(limits, acts, limits.maxAge + 1)
      && "a" in table && table["a"].connections == 0xFFFF_FFFF
  {
    hide IsSessionLog;
    hide Evicted;
    hide Pushed;
    hide Replay;
    EmptyIsSessionLog();
    var acts := WrappingRun(limits.maxAge);
    var n1, n2, n3, n4 := WrappingStates(limits);
    assert After(limits, acts, 5) == Apply(limits, n4, acts[4]);
    assert Enabled(After(limits, acts, 0), acts[0]) && Enabled(n1, acts[1]) && Enabled(n2, acts[2])
        && Enabled(n3, acts[3]) && Enabled(n4, acts[4]);
  }

  /** Sessions are cut off after 5 minutes, and records are kept for 30 by default. */
  const SECOND: nat := 1_000_000_000
  const SESSION_MAX_DURATION: nat := 5 * 60 * SECOND
  const DEFAULT_BAN_DURATION: nat := 30 * 60 * SECOND
  const DEFAULT_LIMITS := Limits(5, 5, DEFAULT_BAN_DURATION)

  /** With the default settings accounting is exact, even if waiting for the lock and the
      scheduler makes tasks outlive their sessions by up to 25 minutes. */
  lemma DefaultsAccount(acts: seq<Act>, slack: nat)
    requires slack <= 25 * 60 * SECOND
    requires IsRun(DEFAULT_LIMITS, acts) && Timely(DEFAULT_LIMITS, acts, SESSION_MAX_DURATION + slack)
    ensures Accurate(DEFAULT_LIMITS, acts)
  {
    hide IsRun;
    hide Timely;
    hide Accurate;
    ConnectionAccounting(DEFAULT_LIMITS, acts, SESSION_MAX_DURATION + slack);
  }
}
