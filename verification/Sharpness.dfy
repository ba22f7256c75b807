/** Runs that show that the hypotheses on time are needed, for all limits for which they are. */
module Sharpness {
  import opened Proxy
  import opened Ban
  import opened Server
  import opened Isolation

  // ---- Runs of one peer, in the system and alone ----------------------------------------------

  /** A run, the acts of peer "a" in it, the time of its last act, the record of "a" in the
      system and in the run of "a" alone, some open tasks of "a", and the next free task. */
  datatype Twin = Twin(acts: seq<Act>, own: seq<Act>, t: nat, system: PeerInfo, alone: PeerInfo,
                       ids: set<nat>, used: nat)

  ghost predicate Shows(net: Net, info: PeerInfo) {
    "a" in net.table && net.table["a"] == info
  }

  ghost predicate Tracks(w: Twin, net: Net) {
    && net.now == w.t && Shows(net, w.system) && w.system.time == w.t && w.alone.time == w.t
    && (forall id :: id in w.ids ==> id in net.open && net.open[id].peer == "a")
    && (forall id :: id in net.open ==> id < w.used)
  }

  ghost predicate Follows(limits: Limits, w: Twin) {
    && IsRun(limits, w.acts) && Only(w.acts, |w.acts|, "a") == w.own
    && Tracks(w, After(limits, w.acts, |w.acts|))
    && Shows(After(limits, w.own, |w.own|), w.alone)
    && forall i :: 0 <= i < |w.acts| ==> w.acts[i].Begin() <= w.t && w.acts[i].End() <= w.t
  }

  const FIRST := Twin([Connect(0, "a", 0, 0)], [Connect(0, "a", 0, 0)], 0, PeerInfo(1, 0, 0), PeerInfo(1, 0, 0), {0}, 1)

  function Raised(info: PeerInfo): PeerInfo {
    info.(connections := Inc(info.connections))
  }

  function Struck(info: PeerInfo): PeerInfo {
    info.(connections := Dec(info.connections), fails := Inc(info.fails))
  }

  /** Peer "a" opens one more task. */
  function Begun(w: Twin): Twin {
    var a := Connect(w.used, "a", w.t, w.t);
    Twin(w.acts + [a], w.own + [a], w.t, Raised(w.system), Raised(w.alone), w.ids + {w.used}, w.used + 1)
  }

  /** Task `id` of "a" ends without having been of use. */
  function Ended(w: Twin, id: nat): Twin {
    var a := Disconnect(id, "a", [], w.t);
    Twin(w.acts + [a], w.own + [a], w.t, Struck(w.system), Struck(w.alone), w.ids - {id}, w.used)
  }

  /** At time `t`, when the record of "a" has expired, "b" connects, and then "a". */
  function Visited(w: Twin, t: nat): Twin {
    var b, a := Connect(w.used, "b", t, t), Connect(w.used + 1, "a", t, t);
    Twin(w.acts + [b] + [a], w.own + [a], t, PeerInfo(1, 0, t), Raised(w.alone).(time := t),
         w.ids + {w.used + 1}, w.used + 2)
  }

  // ---- Steps ------------------------------------------------------------------------------------

  lemma AfterSnoc(limits: Limits, acts: seq<Act>, a: Act)
    ensures After(limits, acts + [a], |acts| + 1) == Apply(limits, After(limits, acts, |acts|), a)
    ensures Only(acts + [a], |acts| + 1, "a") == Only(acts, |acts|, "a") + (if a.peer == "a" then [a] else [])
  {
    hide Apply;
    AfterFrame(limits, acts, acts + [a], |acts|, "a");
    OnlyFrame(acts, acts + [a], |acts|, "a");
  }

  lemma {:induction false} OnlyFrame(acts: seq<Act>, next: seq<Act>, n: nat, peer: Peer)
    requires n <= |acts| && acts <= next
    ensures Only(next, n, peer) == Only(acts, n, peer)
  {
    if n == 0 {
    } else {
      OnlyFrame(acts, next, n - 1, peer);
    }
  }

  /** A run goes on with one more act. */
  lemma RunSnoc(limits: Limits, acts: seq<Act>, a: Act)
    requires IsRun(limits, acts) && |acts| + 1 < 0x1_0000_0000 && Enabled(After(limits, acts, |acts|), a)
    ensures IsRun(limits, acts + [a])
  {
    hide Enabled;
    hide After;
    var next := acts + [a];
    forall i | 0 <= i < |next| ensures Enabled(After(limits, next, i), next[i]) {
      AfterFrame(limits, acts, next, i, "a");
    }
  }

  lemma FirstApplies(limits: Limits)
    ensures
      var a := Connect(0, "a", 0, 0);
      var net := Apply(limits, IDLE, a);
      Enabled(IDLE, a) && Tracks(FIRST, net) && Shows(net, FIRST.alone)
  {
    hide VerdictOn;
  }

  lemma FirstFollows(limits: Limits)
    ensures Follows(limits, FIRST)
  {
    hide Apply;
    hide Enabled;
    hide Tracks;
    hide Shows;
    var none: seq<Act>, a := [], Connect(0, "a", 0, 0);
    assert After(limits, none, 0) == IDLE && IsRun(limits, none) && Only(none, 0, "a") == [];
    FirstApplies(limits);
    RunSnoc(limits, none, a);
    AfterSnoc(limits, none, a);
    hide IsRun;
    hide After;
    hide Only;
    assert none + [a] == FIRST.acts && [] + [a] == FIRST.own;
  }

  lemma BeginApplies(limits: Limits, w: Twin, net: Net)
    requires Tracks(w, net)
    ensures
      var a := Connect(w.used, "a", w.t, w.t);
      Enabled(net, a) && Tracks(Begun(w), Apply(limits, net, a))
  {
    hide VerdictOn;
  }

  lemma EndApplies(limits: Limits, w: Twin, net: Net, id: nat)
    requires Tracks(w, net) && id in w.ids
    ensures
      var a := Disconnect(id, "a", [], w.t);
      Enabled(net, a) && Tracks(Ended(w, id), Apply(limits, net, a))
  {
    hide IsSessionLog;
    EmptyIsSessionLog();
  }

  lemma VisitorApplies(limits: Limits, w: Twin, net: Net)
    requires Tracks(w, net) && w.t == 0
    ensures
      var t := limits.maxAge + 1;
      var b, a := Connect(w.used, "b", t, t), Connect(w.used + 1, "a", t, t);
      var mid := Apply(limits, net, b);
      && Enabled(net, b) && Enabled(mid, a) && Tracks(Visited(w, t), Apply(limits, mid, a))
  {
    hide VerdictOn;
  }

  /** The same acts on the record of "a" alone. */
  lemma AloneApplies(limits: Limits, net: Net, info: PeerInfo, id: nat, t: nat)
    requires Shows(net, info) && info.time <= t
    ensures Shows(Apply(limits, net, Connect(id, "a", t, t)), Raised(info).(time := t))
    ensures info.time == t ==> Shows(Apply(limits, net, Disconnect(id, "a", [], t)), Struck(info))
  {
    hide VerdictOn;
  }

  lemma BegunFollows(limits: Limits, w: Twin)
    requires Follows(limits, w) && |w.acts| + 1 < 0x1_0000_0000
    ensures Follows(limits, Begun(w))
  {
    hide Enabled;
    hide Apply;
    hide IsRun;
    hide Only;
    hide Tracks;
    hide Shows;
    var a := Connect(w.used, "a", w.t, w.t);
    BeginApplies(limits, w, After(limits, w.acts, |w.acts|));
    TracksAlone(w, After(limits, w.acts, |w.acts|));
    AloneApplies(limits, After(limits, w.own, |w.own|), w.alone, w.used, w.t);
    RunSnoc(limits, w.acts, a);
    AfterSnoc(limits, w.acts, a);
    AfterSnoc(limits, w.own, a);
  }

  lemma TracksAlone(w: Twin, net: Net)
    requires Tracks(w, net)
    ensures w.alone.time == w.t
  {}

  lemma EndedFollows(limits: Limits, w: Twin, id: nat)
    requires Follows(limits, w) && id in w.ids && |w.acts| + 1 < 0x1_0000_0000
    ensures Follows(limits, Ended(w, id))
  {
    hide Enabled;
    hide Apply;
    hide IsRun;
    hide Only;
    hide Tracks;
    hide Shows;
    var a := Disconnect(id, "a", [], w.t);
    EndApplies(limits, w, After(limits, w.acts, |w.acts|), id);
    TracksAlone(w, After(limits, w.acts, |w.acts|));
    AloneApplies(limits, After(limits, w.own, |w.own|), w.alone, id, w.t);
    RunSnoc(limits, w.acts, a);
    AfterSnoc(limits, w.acts, a);
    AfterSnoc(limits, w.own, a);
  }

  lemma VisitedFollows(limits: Limits, w: Twin)
    requires Follows(limits, w) && w.t == 0 && |w.acts| + 2 < 0x1_0000_0000
    ensures Follows(limits, Visited(w, limits.maxAge + 1))
  {
    hide Enabled;
    hide Apply;
    hide IsRun;
    hide Only;
    hide Tracks;
    hide Shows;
    var t := limits.maxAge + 1;
    var b, a := Connect(w.used, "b", t, t), Connect(w.used + 1, "a", t, t);
    VisitorApplies(limits, w, After(limits, w.acts, |w.acts|));
    TracksAlone(w, After(limits, w.acts, |w.acts|));
    AloneApplies(limits, After(limits, w.own, |w.own|), w.alone, w.used + 1, t);
    RunSnoc(limits, w.acts, b);
    AfterSnoc(limits, w.acts, b);
    RunSnoc(limits, w.acts + [b], a);
    AfterSnoc(limits, w.acts + [b], a);
    AfterSnoc(limits, w.own, a);
  }

  // ---- Openings -----------------------------------------------------------------------------------

  /** Peer "a" ends `n + 1` tasks without use, all at time 0. */
  function Strikes(n: nat): Twin {
    if n == 0 then Ended(FIRST, 0) else Ended(Begun(Strikes(n - 1)), Strikes(n - 1).used)
  }

  /** Peer "a" opens `n + 1` tasks, all at time 0. */
  function Crowd(n: nat): Twin {
    if n == 0 then FIRST else Begun(Crowd(n - 1))
  }

  lemma {:induction false} StrikesFollow(limits: Limits, n: nat)
    requires 2 * n + 2 < 0x1_0000_0000
    ensures
      var w := Strikes(n);
      && Follows(limits, w) && |w.acts| == 2 * n + 2 && w.t == 0
      && w.system == w.alone == PeerInfo(0, n + 1, 0)
  {
    hide Follows;
    if n == 0 {
      FirstFollows(limits);
      EndedFollows(limits, FIRST, 0);
    } else {
      StrikesFollow(limits, n - 1);
      BegunFollows(limits, Strikes(n - 1));
      EndedFollows(limits, Begun(Strikes(n - 1)), Strikes(n - 1).used);
    }
  }

  lemma {:induction false} CrowdFollows(limits: Limits, n: nat)
    requires n + 1 < 0x1_0000_0000
    ensures
      var w := Crowd(n);
      && Follows(limits, w) && |w.acts| == n + 1 && w.t == 0 && w.used == n + 1
      && w.system == w.alone == PeerInfo(n + 1, 0, 0)
  {
    hide Follows;
    if n == 0 {
      FirstFollows(limits);
    } else {
      CrowdFollows(limits, n - 1);
      BegunFollows(limits, Crowd(n - 1));
    }
  }

  // ---- Isolation ----------------------------------------------------------------------------------

  /** Neither limit can be exceeded by counting to it in a run: the one on connections is the
      greatest count there is, and the one on fails needs too many acts. */
  predicate Unlimited(limits: Limits) {
    limits.maxFails >= 0x7FFF_FFFE && limits.maxConnections == 0xFFFF_FFFF
  }

  /** The forgotten task and the new one end, the count wraps around, and "a" comes again. */
  function OneForgotten(t: nat): Twin {
    Begun(Ended(Ended(Visited(FIRST, t), 0), 2))
  }

  /** The same with two forgotten tasks, which leave the count at its greatest. */
  function TwoForgotten(t: nat): Twin {
    Begun(Ended(Ended(Ended(Visited(Begun(FIRST), t), 0), 1), 3))
  }

  lemma OneForgottenFollows(limits: Limits)
    ensures
      var t := limits.maxAge + 1;
      var w := OneForgotten(t);
      Follows(limits, w) && w.t == t && w.system == PeerInfo(0, 2, t) && w.alone == PeerInfo(1, 2, t)
  {
    hide Follows;
    var t := limits.maxAge + 1;
    var v := Visited(FIRST, t);
    FirstFollows(limits);
    VisitedFollows(limits, FIRST);
    EndedFollows(limits, v, 0);
    EndedFollows(limits, Ended(v, 0), 2);
    BegunFollows(limits, Ended(Ended(v, 0), 2));
  }

  lemma TwoForgottenFollows(limits: Limits)
    ensures
      var t := limits.maxAge + 1;
      var w := TwoForgotten(t);
      Follows(limits, w) && w.t == t && w.system == PeerInfo(0xFFFF_FFFF, 3, t) && w.alone == PeerInfo(1, 3, t)
  {
    hide Follows;
    var t := limits.maxAge + 1;
    var v := Visited(Begun(FIRST), t);
    FirstFollows(limits);
    BegunFollows(limits, FIRST);
    VisitedFollows(limits, Begun(FIRST));
    EndedFollows(limits, v, 0);
    EndedFollows(limits, Ended(v, 0), 1);
    EndedFollows(limits, Ended(Ended(v, 0), 1), 3);
    BegunFollows(limits, Ended(Ended(Ended(v, 0), 1), 3));
  }

  function Judge(limits: Limits, info: PeerInfo): Verdict {
    VerdictOn(limits, map["a" := info], "a")
  }

  /** The last connect is judged on different records. */
  lemma TwinsDiffer(limits: Limits, w: Twin)
    requires Follows(limits, w) && |w.own| > 0 && |w.acts| > 0
    requires w.acts[|w.acts| - 1].Connect? && w.acts[|w.acts| - 1].peer == "a"
    requires w.own[|w.own| - 1] == w.acts[|w.acts| - 1]
    requires Judge(limits, w.system) != Judge(limits, w.alone)
    ensures !Isolated(limits, w.acts, "a")
  {
    hide After;
    hide IsRun;
    hide Only;
    var all, alone := Verdicts(limits, w.acts, |w.acts|, "a"), Verdicts(limits, w.own, |w.own|, "a");
    assert all[|all| - 1] == VerdictOn(limits, After(limits, w.acts, |w.acts|).table, "a");
    assert alone[|alone| - 1] == VerdictOn(limits, After(limits, w.own, |w.own|).table, "a");
  }

  lemma TwinsAreSteady(limits: Limits, w: Twin)
    requires Follows(limits, w)
    ensures SteadyWithin(w.acts, "a", w.t)
  {
    hide LastRefresh;
    hide IsRun;
    hide Tracks;
    hide Shows;
  }

  /** A peer that stays away for just over the age at which records are dropped is not
      isolated: whether its old fails or connections count depends on whether the verdict
      on another peer has evicted its record in the meantime. */
  lemma ReturningPeerIsNotIsolated(limits: Limits)
    returns (acts: seq<Act>)
    requires !Unlimited(limits)
    ensures IsRun(limits, acts) && SteadyWithin(acts, "a", limits.maxAge + 1) && !Isolated(limits, acts, "a")
  {
    hide SteadyWithin;
    hide Isolated;
    hide IsRun;
    hide Only;
    hide Tracks;
    hide Shows;
    hide Strikes;
    var w;
    if limits.maxFails < 0x7FFF_FFFE {
      StrikesFollow(limits, limits.maxFails);
      VisitedFollows(limits, Strikes(limits.maxFails));
      w := Visited(Strikes(limits.maxFails), limits.maxAge + 1);
    } else if limits.maxConnections == 0 {
      OneForgottenFollows(limits);
      w := OneForgotten(limits.maxAge + 1);
    } else {
      TwoForgottenFollows(limits);
      w := TwoForgotten(limits.maxAge + 1);
    }
    acts := w.acts;
    TwinsDiffer(limits, w);
    TwinsAreSteady(limits, w);
  }

  // ---- Limits that no run exceeds -----------------------------------------------------------------

  /** How many acts of the peer among the first `n` are connects, and disconnects, and how
      many acts are those of others. */
  function ConnectsOf(acts: seq<Act>, n: nat, peer: Peer): nat
    requires n <= |acts|
  {
    if n == 0 then 0
    else ConnectsOf(acts, n - 1, peer) + (if acts[n - 1].peer == peer && acts[n - 1].Connect? then 1 else 0)
  }

  function DisconnectsOf(acts: seq<Act>, n: nat, peer: Peer): nat
    requires n <= |acts|
  {
    if n == 0 then 0
    else DisconnectsOf(acts, n - 1, peer) + (if acts[n - 1].peer == peer && acts[n - 1].Disconnect? then 1 else 0)
  }

  lemma {:induction false} OthersCount(acts: seq<Act>, n: nat, peer: Peer, other: nat)
    requires n <= |acts|
    ensures ConnectsOf(acts, n, peer) + DisconnectsOf(acts, n, peer) <= n
    ensures other < n && acts[other].peer != peer ==> ConnectsOf(acts, n, peer) + DisconnectsOf(acts, n, peer) < n
  {
    if n == 0 {
    } else {
      OthersCount(acts, n - 1, peer, other);
    }
  }

  /** The open tasks are those that began and have not ended. */
  lemma {:induction false} OpenTasks(limits: Limits, acts: seq<Act>, n: nat, peer: Peer)
    requires IsRun(limits, acts) && n <= |acts|
    ensures ConnectsOf(acts, n, peer) == DisconnectsOf(acts, n, peer) + |OpenOf(After(limits, acts, n), peer)|
  {
    hide IsRun;
    hide OpenOf;
    hide Enabled;
    hide After;
    var net := LastAct(limits, acts, n);
    if n == 0 {
      assert |OpenOf(IDLE, peer)| == 0 by { IdleHasNoTask(peer); }
    } else {
      OpenTasks(limits, acts, n - 1, peer);
      ActOpens(limits, net, acts[n - 1], peer);
    }
  }

  lemma IdleHasNoTask(peer: Peer)
    ensures |OpenOf(IDLE, peer)| == 0
  {
    assert OpenOf(IDLE, peer) == {};
  }

  lemma ActOpens(limits: Limits, net: Net, a: Act, peer: Peer)
    requires Enabled(net, a)
    ensures
      var before, now := |OpenOf(net, peer)|, |OpenOf(Apply(limits, net, a), peer)|;
      now == if a.peer != peer then before else if a.Connect? then before + 1 else before - 1
  {
    hide Replay;
    hide VerdictOn;
    hide IsSessionLog;
    hide OpenOf;
    var next := Apply(limits, net, a);
    if a.Connect? {
      OpenAdded(net, next, a.id, next.open[a.id], peer);
    } else {
      OpenRemoved(net, next, a.id, peer);
    }
  }

  lemma {:induction false} FailsAreEnds(limits: Limits, acts: seq<Act>, n: nat, peer: Peer)
    requires |acts| < 0x1_0000_0000 && n <= |acts|
    ensures FailsWithin(After(limits, acts, n).table, peer, DisconnectsOf(acts, n, peer))
  {
    hide Apply;
    if n == 0 {
    } else {
      FailsAreEnds(limits, acts, n - 1, peer);
      OthersCount(acts, n - 1, peer, 0);
      ActFails(limits, After(limits, acts, n - 1), acts[n - 1], peer, DisconnectsOf(acts, n - 1, peer));
    }
  }

  lemma ActFails(limits: Limits, net: Net, a: Act, peer: Peer, n: nat)
    requires FailsWithin(net.table, peer, n) && n < 0xFFFF_FFFF
    ensures FailsWithin(Apply(limits, net, a).table, peer, n + (if a.peer == peer && a.Disconnect? then 1 else 0))
  {
    hide Replay;
    hide VerdictOn;
  }

  /** The verdict on a connect when no limit applies. */
  function Waved(limits: Limits, a: Act): Verdict {
    if Elapsed(a.End(), a.Begin()) <= limits.maxAge then Fine else NoRecord
  }

  function AllWaved(limits: Limits, acts: seq<Act>, n: nat, peer: Peer): seq<Verdict>
    requires n <= |acts|
  {
    if n == 0 then []
    else
      AllWaved(limits, acts, n - 1, peer)
      + (if acts[n - 1].Connect? && acts[n - 1].peer == peer then [Waved(limits, acts[n - 1])] else [])
  }

  lemma ConnectIsWaved(limits: Limits, net: Net, a: Act, peer: Peer)
    requires Unlimited(limits) && a.Connect? && a.peer == peer
    requires FailsWithin(Apply(limits, net, a).table, peer, limits.maxFails)
    ensures VerdictOn(limits, Apply(limits, net, a).table, peer) == Waved(limits, a)
  {}

  lemma {:induction false} WavedThrough(limits: Limits, acts: seq<Act>, n: nat, peer: Peer)
    requires Unlimited(limits) && |acts| < 0x1_0000_0000 && n <= |acts|
    requires forall k :: 0 < k <= n && acts[k - 1].Connect? && acts[k - 1].peer == peer ==>
      DisconnectsOf(acts, k, peer) <= limits.maxFails
    ensures Verdicts(limits, acts, n, peer) == AllWaved(limits, acts, n, peer)
  {
    hide Apply;
    hide VerdictOn;
    hide Unlimited;
    hide Waved;
    if n == 0 {
    } else {
      WavedThrough(limits, acts, n - 1, peer);
      if acts[n - 1].Connect? && acts[n - 1].peer == peer {
        FailsAreEnds(limits, acts, n, peer);
        FailsFew(After(limits, acts, n).table, peer, DisconnectsOf(acts, n, peer), limits.maxFails);
        ConnectIsWaved(limits, After(limits, acts, n - 1), acts[n - 1], peer);
      }
    }
  }

  lemma FailsFew(t: Table, peer: Peer, n: nat, more: nat)
    requires FailsWithin(t, peer, n) && n <= more
    ensures FailsWithin(t, peer, more)
  {}

  lemma {:induction false} EndsFrame(acts: seq<Act>, next: seq<Act>, n: nat, peer: Peer)
    requires n <= |acts| && acts <= next
    ensures DisconnectsOf(next, n, peer) == DisconnectsOf(acts, n, peer)
  {
    if n == 0 {
    } else {
      EndsFrame(acts, next, n - 1, peer);
    }
  }

  lemma {:induction false} OnlyEnds(acts: seq<Act>, n: nat, peer: Peer)
    requires n <= |acts|
    ensures
      var own := Only(acts, n, peer);
      |own| <= n && DisconnectsOf(own, |own|, peer) == DisconnectsOf(acts, n, peer)
  {
    if n == 0 {
    } else {
      OnlyEnds(acts, n - 1, peer);
      var before, own := Only(acts, n - 1, peer), Only(acts, n, peer);
      EndsFrame(before, own, |before|, peer);
    }
  }

  lemma {:induction false} WavedAlone(limits: Limits, acts: seq<Act>, n: nat, peer: Peer)
    requires Unlimited(limits) && |acts| < 0x1_0000_0000 && n <= |acts|
    requires forall k :: 0 < k <= n && acts[k - 1].Connect? && acts[k - 1].peer == peer ==>
      DisconnectsOf(acts, k, peer) <= limits.maxFails
    ensures VerdictsAlone(limits, acts, n, peer) == AllWaved(limits, acts, n, peer)
  {
    hide Apply;
    hide VerdictOn;
    hide Unlimited;
    hide Waved;
    hide Only;
    hide VerdictsAlone;
    if n == 0 {
      NoVerdictAlone(limits, acts, peer);
    } else {
      WavedAlone(limits, acts, n - 1, peer);
      AloneSnoc(limits, acts, n, peer);
      if acts[n - 1].Connect? && acts[n - 1].peer == peer {
        var own := Only(acts, n, peer);
        OnlyEnds(acts, n, peer);
        FailsAreEnds(limits, own, |own|, peer);
        FailsFew(After(limits, own, |own|).table, peer, DisconnectsOf(own, |own|, peer), limits.maxFails);
        ConnectIsWaved(limits, Alone(limits, acts, n - 1, peer), acts[n - 1], peer);
      }
    }
  }

  lemma NoVerdictAlone(limits: Limits, acts: seq<Act>, peer: Peer)
    ensures VerdictsAlone(limits, acts, 0, peer) == []
  {}

  /** If anyone else acts at all, no connect of the peer comes after too many ends. */
  lemma FewEnds(limits: Limits, acts: seq<Act>, k: nat, peer: Peer, other: nat)
    requires IsRun(limits, acts) && 0 < k <= |acts| && acts[k - 1].Connect? && acts[k - 1].peer == peer
    requires other < |acts| && acts[other].peer != peer
    ensures DisconnectsOf(acts, k, peer) <= 0x7FFF_FFFE
  {
    hide After;
    hide OpenOf;
    hide Enabled;
    OpenTasks(limits, acts, k - 1, peer);
    OthersCount(acts, k, peer, other);
  }

  lemma {:induction false} OnlyOwn(acts: seq<Act>, n: nat, peer: Peer)
    requires n <= |acts| && forall i :: 0 <= i < n ==> acts[i].peer == peer
    ensures Only(acts, n, peer) == acts[..n]
  {
    if n == 0 {
    } else {
      OnlyOwn(acts, n - 1, peer);
    }
  }

  lemma UnlimitedIsIsolated(limits: Limits, acts: seq<Act>, peer: Peer)
    requires Unlimited(limits) && IsRun(limits, acts)
    ensures Isolated(limits, acts, peer)
  {
    hide After;
    hide Only;
    hide Verdicts;
    hide AllWaved;
    hide Enabled;
    hide DisconnectsOf;
    if other: nat :| other < |acts| && acts[other].peer != peer {
      forall k | 0 < k <= |acts| && acts[k - 1].Connect? && acts[k - 1].peer == peer
        ensures DisconnectsOf(acts, k, peer) <= limits.maxFails
      {
        FewEnds(limits, acts, k, peer, other);
      }
      WavedThrough(limits, acts, |acts|, peer);
      WavedAlone(limits, acts, |acts|, peer);
    } else {
      OnlyOwn(acts, |acts|, peer);
      assert acts[..|acts|] == acts;
    }
  }

  lemma SteadyWithinMore(acts: seq<Act>, peer: Peer, gap: nat, more: nat)
    requires SteadyWithin(acts, peer, gap) && gap <= more
    ensures SteadyWithin(acts, peer, more)
  {}

  /** All peers that are never quiet for longer than `gap` are isolated, in all runs, exactly
      if records are kept at least that long, or if no limit applies. */
  lemma IsolatedIffKept(limits: Limits, gap: nat)
    ensures
      (forall acts, peer :: IsRun(limits, acts) && SteadyWithin(acts, peer, gap) ==> Isolated(limits, acts, peer))
      <==> gap <= limits.maxAge || Unlimited(limits)
  {
    hide IsRun;
    hide Isolated;
    if gap <= limits.maxAge || Unlimited(limits) {
      forall acts, peer | IsRun(limits, acts) && SteadyWithin(acts, peer, gap) ensures Isolated(limits, acts, peer) {
        if Unlimited(limits) {
          UnlimitedIsIsolated(limits, acts, peer);
        } else {
          SteadyWithinMore(acts, peer, gap, limits.maxAge);
          PeerIsolation(limits, acts, peer);
        }
      }
    } else {
      var acts := ReturningPeerIsNotIsolated(limits);
      SteadyWithinMore(acts, "a", limits.maxAge + 1, gap);
      assert IsRun(limits, acts) && SteadyWithin(acts, "a", gap);
    }
  }

  // ---- Accepted sessions ----------------------------------------------------------------------------

  ghost predicate AlwaysBounded(limits: Limits, life: nat) {
    forall acts, n: nat {:trigger After(limits, acts, n)} ::
      IsRun(limits, acts) && Timely(limits, acts, life) && n <= |acts| ==> Bounded(limits, After(limits, acts, n))
  }

  /** The bound holds whatever tasks do: no run is long enough to pass it, or nobody is ever
      accepted, and a peer is banned for its fails before its count can wrap around. */
  predicate NeverPassed(limits: Limits) {
    limits.maxConnections >= 0xFFFF_FFFE || (limits.maxConnections == 0 && limits.maxFails < 2)
  }

  lemma TwinsAreTimely(limits: Limits, w: Twin, life: nat)
    requires Follows(limits, w) && w.t <= life
    ensures Timely(limits, w.acts, life)
  {
    hide After;
    hide IsRun;
    hide Tracks;
    hide Shows;
    hide Only;
  }

  lemma Accepts(limits: Limits, net: Net, id: nat, t: nat, info: PeerInfo)
    requires id !in net.open && Shows(Apply(limits, net, Connect(id, "a", t, t)), info)
    ensures |AcceptedOf(Apply(limits, net, Connect(id, "a", t, t)), "a")|
         == |AcceptedOf(net, "a")| + (if Judge(limits, info) == Fine then 1 else 0)
  {
    hide Evicted;
    hide Ban.Pushed;
    var next := Apply(limits, net, Connect(id, "a", t, t));
    assert AcceptedOf(next, "a") == AcceptedOf(net, "a") + (if Judge(limits, info) == Fine then {id} else {});
  }

  lemma OthersAccept(limits: Limits, net: Net, id: nat, t: nat)
    requires id !in net.open
    ensures AcceptedOf(Apply(limits, net, Connect(id, "b", t, t)), "a") == AcceptedOf(net, "a")
  {
    hide Evicted;
    hide Ban.Pushed;
    hide VerdictOn;
  }

  lemma BegunAccepts(limits: Limits, w: Twin)
    requires Follows(limits, w) && |w.acts| + 1 < 0x1_0000_0000
    ensures |AcceptedOf(After(limits, Begun(w).acts, |w.acts| + 1), "a")|
         == |AcceptedOf(After(limits, w.acts, |w.acts|), "a")|
            + (if Judge(limits, Begun(w).system) == Fine then 1 else 0)
  {
    hide After;
    hide Apply;
    hide IsRun;
    hide Judge;
    hide AcceptedOf;
    hide Enabled;
    hide Shows;
    var net, a := After(limits, w.acts, |w.acts|), Connect(w.used, "a", w.t, w.t);
    BegunFollows(limits, w);
    AfterSnoc(limits, w.acts, a);
    Accepts(limits, net, w.used, w.t, Begun(w).system);
  }

  lemma {:induction false} CrowdAccepted(limits: Limits, n: nat)
    requires n + 1 < 0x1_0000_0000 && n < limits.maxConnections
    ensures |AcceptedOf(After(limits, Crowd(n).acts, |Crowd(n).acts|), "a")| == n + 1
  {
    hide After;
    hide Follows;
    hide AcceptedOf;
    if n == 0 {
      FirstAccepted(limits);
    } else {
      CrowdAccepted(limits, n - 1);
      CrowdFollows(limits, n - 1);
      CrowdFollows(limits, n);
      BegunAccepts(limits, Crowd(n - 1));
    }
  }

  lemma FirstAccepted(limits: Limits)
    requires limits.maxConnections > 0
    ensures |AcceptedOf(After(limits, FIRST.acts, 1), "a")| == 1
  {
    AfterSnoc(limits, [], FIRST.acts[0]);
    assert [] + FIRST.acts == FIRST.acts && After(limits, [], 0) == IDLE;
    assert AcceptedOf(After(limits, FIRST.acts, 1), "a") == {0};
  }

  /** After the visit, the old sessions are still open, and a new one is accepted. */
  lemma VisitedAccepts(limits: Limits, w: Twin)
    requires Follows(limits, w) && w.t == 0 && |w.acts| + 2 < 0x1_0000_0000 && limits.maxConnections > 0
    ensures
      var v := Visited(w, limits.maxAge + 1);
      |AcceptedOf(After(limits, v.acts, |v.acts|), "a")| == |AcceptedOf(After(limits, w.acts, |w.acts|), "a")| + 1
  {
    hide After;
    hide Apply;
    hide IsRun;
    hide AcceptedOf;
    hide Enabled;
    hide Shows;
    var t := limits.maxAge + 1;
    var b, a := Connect(w.used, "b", t, t), Connect(w.used + 1, "a", t, t);
    var net := After(limits, w.acts, |w.acts|);
    VisitedFollows(limits, w);
    AfterSnoc(limits, w.acts, b);
    AfterSnoc(limits, w.acts + [b], a);
    OthersAccept(limits, net, w.used, t);
    VisitorKeepsOpen(limits, net, w.used, t);
    Accepts(limits, Apply(limits, net, b), w.used + 1, t, PeerInfo(1, 0, t));
  }

  lemma VisitorKeepsOpen(limits: Limits, net: Net, id: nat, t: nat)
    requires forall k :: k in net.open ==> k < id
    ensures id + 1 !in Apply(limits, net, Connect(id, "b", t, t)).open
  {
    hide Evicted;
    hide Ban.Pushed;
    hide VerdictOn;
  }

  /** A run in which one more session of a peer is accepted than there may be. */
  lemma OneTooMany(limits: Limits)
    returns (acts: seq<Act>)
    requires !NeverPassed(limits)
    ensures IsRun(limits, acts) && Timely(limits, acts, limits.maxAge + 1)
    ensures |AcceptedOf(After(limits, acts, |acts|), "a")| > limits.maxConnections
  {
    hide After;
    hide IsRun;
    hide Timely;
    hide AcceptedOf;
    hide Only;
    hide Crowd;
    var w;
    if limits.maxConnections > 0 {
      var crowd := Crowd(limits.maxConnections - 1);
      CrowdFollows(limits, limits.maxConnections - 1);
      CrowdAccepted(limits, limits.maxConnections - 1);
      VisitedFollows(limits, crowd);
      VisitedAccepts(limits, crowd);
      w := Visited(crowd, limits.maxAge + 1);
    } else {
      var t := limits.maxAge + 1;
      w := OneForgotten(t);
      OneForgottenFollows(limits);
      WrappedIsAccepted(limits);
    }
    acts := w.acts;
    TwinsAreTimely(limits, w, limits.maxAge + 1);
  }

  lemma WrappedIsAccepted(limits: Limits)
    requires limits.maxConnections == 0 && limits.maxFails >= 2
    ensures
      var w := OneForgotten(limits.maxAge + 1);
      |AcceptedOf(After(limits, w.acts, |w.acts|), "a")| > 0
  {
    hide After;
    hide Follows;
    hide AcceptedOf;
    var t := limits.maxAge + 1;
    var v := Visited(FIRST, t);
    FirstFollows(limits);
    VisitedFollows(limits, FIRST);
    EndedFollows(limits, v, 0);
    EndedFollows(limits, Ended(v, 0), 2);
    OneForgottenFollows(limits);
    BegunAccepts(limits, Ended(Ended(v, 0), 2));
  }

  /** With no connection permitted and less than two fails, nobody is ever accepted. */
  ghost predicate NobodyIn(net: Net, n: nat) {
    && (forall id :: id in net.open ==> !net.open[id].accepted)
    && (forall p :: p in net.table ==>
          var info := net.table[p];
          && info.fails <= n && (info.fails < 2 ==> info.connections <= n)
          && (info.fails == 0 ==> info.connections > 0))
  }

  lemma ActLetsNobodyIn(limits: Limits, net: Net, a: Act, n: nat)
    requires limits.maxConnections == 0 && limits.maxFails < 2 && n < 0xFFFF_FFFF
    requires NobodyIn(net, n) && Enabled(net, a)
    ensures NobodyIn(Apply(limits, net, a), n + 1)
  {
    hide IsSessionLog;
    if a.Disconnect? {
      EmptyIsUseless();
    }
    hide Replay;
  }

  lemma {:induction false} NobodyGetsIn(limits: Limits, acts: seq<Act>, n: nat)
    requires limits.maxConnections == 0 && limits.maxFails < 2 && IsRun(limits, acts) && n <= |acts|
    ensures NobodyIn(After(limits, acts, n), n)
  {
    hide Apply;
    hide Enabled;
    hide NobodyIn;
    if n == 0 {
      assert NobodyIn(IDLE, 0) by { IdleIsEmpty(); }
    } else {
      NobodyGetsIn(limits, acts, n - 1);
      ActLetsNobodyIn(limits, After(limits, acts, n - 1), acts[n - 1], n - 1);
    }
  }

  lemma IdleIsEmpty()
    ensures NobodyIn(IDLE, 0)
  {}

  /** No more sessions are accepted than there are acts; if all acts are accepted connects
      of one peer, its record counts them all. */
  ghost predicate FewIn(limits: Limits, net: Net, p: Peer, n: nat) {
    var k := |AcceptedOf(net, p)|;
    k <= n && (k == n && n > 0 ==> p in net.table && net.table[p].connections == n <= limits.maxConnections)
  }

  lemma ActLetsFewIn(limits: Limits, net: Net, a: Act, p: Peer, n: nat)
    requires FewIn(limits, net, p, n) && Enabled(net, a) && n < 0xFFFF_FFFF && (n == 0 ==> net == IDLE)
    ensures FewIn(limits, Apply(limits, net, a), p, n + 1)
  {
    hide AcceptedOf;
    hide IsSessionLog;
    hide Replay;
    hide OpenOf;
    var next := Apply(limits, net, a);
    if a.Disconnect? {
      OpenRemoved(net, next, a.id, p);
    } else if p == a.peer && next.open[a.id].accepted {
      AcceptedOne(net, next, a.id, next.open[a.id]);
    } else {
      AcceptedAdded(net, next, a.id, next.open[a.id], p);
    }
  }

  lemma AcceptedOne(net: Net, next: Net, id: nat, task: Task)
    requires id !in net.open && next.open == net.open[id := task] && task.accepted
    ensures |AcceptedOf(next, task.peer)| == |AcceptedOf(net, task.peer)| + 1
  {
    assert AcceptedOf(next, task.peer) == AcceptedOf(net, task.peer) + {id};
  }

  lemma {:induction false} FewGetIn(limits: Limits, acts: seq<Act>, n: nat, p: Peer)
    requires IsRun(limits, acts) && n <= |acts|
    ensures FewIn(limits, After(limits, acts, n), p, n)
  {
    hide Apply;
    hide Enabled;
    hide FewIn;
    if n == 0 {
      assert FewIn(limits, IDLE, p, 0) by { IdleLetsFewIn(limits, p); }
    } else {
      FewGetIn(limits, acts, n - 1, p);
      ActLetsFewIn(limits, After(limits, acts, n - 1), acts[n - 1], p, n - 1);
    }
  }

  lemma IdleLetsFewIn(limits: Limits, p: Peer)
    ensures FewIn(limits, IDLE, p, 0)
  {
    assert AcceptedOf(IDLE, p) == {};
  }

  lemma NeverPassedIsBounded(limits: Limits, acts: seq<Act>, n: nat)
    requires NeverPassed(limits) && IsRun(limits, acts) && n <= |acts|
    ensures Bounded(limits, After(limits, acts, n))
  {
    hide Enabled;
    hide After;
    var net := After(limits, acts, n);
    forall p ensures |AcceptedOf(net, p)| <= limits.maxConnections {
      FewGetIn(limits, acts, n, p);
      if limits.maxConnections == 0 {
        NobodyGetsIn(limits, acts, n);
        assert AcceptedOf(net, p) == {};
      }
    }
  }

  lemma TimelyIsBounded(limits: Limits, acts: seq<Act>, life: nat, n: nat)
    requires IsRun(limits, acts) && Timely(limits, acts, life) && life <= limits.maxAge && n <= |acts|
    ensures Bounded(limits, After(limits, acts, n))
  {
    hide IsRun;
    hide Timely;
    hide After;
    hide AcceptedOf;
    forall p ensures |AcceptedOf(After(limits, acts, n), p)| <= limits.maxConnections {
      AcceptedSessionsBounded(limits, acts, life, n, p);
    }
  }

  lemma TimelyMore(limits: Limits, acts: seq<Act>, life: nat, more: nat)
    requires Timely(limits, acts, life) && life <= more
    ensures Timely(limits, acts, more)
  {
    hide After;
  }

  /** In all runs with tasks of at most `life` no peer has more accepted sessions open than
      permitted, exactly if records are kept at least that long, or the limit is out of
      reach. */
  lemma BoundedIffKept(limits: Limits, life: nat)
    ensures AlwaysBounded(limits, life) <==> life <= limits.maxAge || NeverPassed(limits)
  {
    hide IsRun;
    hide Timely;
    hide After;
    hide AcceptedOf;
    if life <= limits.maxAge || NeverPassed(limits) {
      forall acts, n: nat | IsRun(limits, acts) && Timely(limits, acts, life) && n <= |acts|
        ensures Bounded(limits, After(limits, acts, n))
      {
        if NeverPassed(limits) {
          NeverPassedIsBounded(limits, acts, n);
        } else {
          TimelyIsBounded(limits, acts, life, n);
        }
      }
    } else {
      var acts := OneTooMany(limits);
      TimelyMore(limits, acts, limits.maxAge + 1, life);
      assert !Bounded(limits, After(limits, acts, |acts|));
    }
  }
}
