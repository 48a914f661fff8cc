/** What every bootstrap run guarantees: one format at the right moment, and no way to get stuck. */
module BarrierTheorems {
  import opened Options
  import opened Sets
  import opened Barrier
  import opened BarrierInvariant

  // ---------------------------------------------------------------- the journal is formatted once

  /** The storage nodes that have completed a stage. */
  ghost function StorageAt(cfg: Config, w: World, s: Stage): set<nat> {
    set id | id in cfg.bss && Bss(id) in Marked(w, s)
  }

  lemma {:induction false} NodesAreIds(nodes: set<Node>, ids: set<nat>)
    requires forall n | n in nodes :: n.Bss? && n.id in ids
    ensures |nodes| <= |set id | id in ids && Bss(id) in nodes|
    decreases nodes
  {
    var named := set id | id in ids && Bss(id) in nodes;
    if nodes == {} {
    } else {
      var n :| n in nodes;
      var rest := nodes - {n};
      NodesAreIds(rest, ids);
      assert (set id | id in ids && Bss(id) in rest) == named - {n.id};
      assert Bss(n.id) in nodes;
    }
  }

  /**
   At most one name server ever formats the journal: the one the leader named, after the metadata volumes
   were ready and the required number of distinct storage nodes were configured and serving.
   */
  lemma FormattedOnce(cfg: Config, w: World)
    requires Reachable(cfg, w)
    ensures |w.formats| <= 1
    ensures w.formats != [] ==>
      && w.formats[0] in cfg.nss && w.owner == Some(w.formats[0])
      && MetadataVgReady in w.globals
      && |StorageAt(cfg, w, BssConfigured)| >= cfg.ownerBss && |StorageAt(cfg, w, BssReady)| >= cfg.ownerBss
    ensures JournalFormatted in w.globals ==> w.formats != []
  {
    ReachableIsSound(cfg, w);
    if w.formats != [] {
      var owner := Nss(w.formats[0]);
      PastHolds(cfg, w, owner, 6);
      PastHolds(cfg, w, owner, 7);
      PastHolds(cfg, w, owner, 8);
      NodesAreIds(Marked(w, BssConfigured), cfg.bss);
      NodesAreIds(Marked(w, BssReady), cfg.bss);
    }
  }

  // ---------------------------------------------------------------- nobody waits forever

  /** Enough nodes for what the scripts wait for. */
  ghost predicate Provisioned(cfg: Config) {
    && cfg.nss != {}
    && (cfg.rssHa ==> cfg.followers != {})
    && |cfg.bss| >= cfg.ownerBss
    && (cfg.etcd ==> cfg.bss != {} && |cfg.bss| >= cfg.clusterSize)
    && (!cfg.etcd ==> |cfg.bss| >= cfg.leaderBss)
  }

  ghost predicate Stuck(cfg: Config, w: World) {
    forall n, pick :: !Can(cfg, w, n, pick)
  }

  /** In a stuck run no node stands before an action that is ready. */
  lemma NotBefore(cfg: Config, w: World, n: Node, i: nat, pick: nat)
    requires Stuck(cfg, w) && !w.failed && cfg.Has(n) && i < |Script(cfg, n)|
    requires Ready(cfg, w, n, Script(cfg, n)[i], pick) && At(w, n) >= i
    ensures At(w, n) > i
  {
    assert !Can(cfg, w, n, pick);
  }

  lemma {:induction false} AllStorageCounts(ids: set<nat>, nodes: set<Node>)
    requires forall id | id in ids :: Bss(id) in nodes
    ensures |ids| <= |nodes|
    decreases ids
  {
    if ids == {} {
    } else {
      var id :| id in ids;
      AllStorageCounts(ids - {id}, nodes - {Bss(id)});
    }
  }

  lemma StorageRegisters(cfg: Config, w: World, id: nat)
    requires Inv(cfg, w) && Stuck(cfg, w) && !w.failed && id in cfg.bss
    ensures At(w, Bss(id)) >= 2 && (cfg.etcd ==> Bss(id) in Marked(w, EtcdNodesRegistered))
  {
    NotBefore(cfg, w, Bss(id), 0, 0);
    NotBefore(cfg, w, Bss(id), 1, 0);
    PastHolds(cfg, w, Bss(id), 1);
  }

  lemma StoragePastEtcd(cfg: Config, w: World, id: nat)
    requires Inv(cfg, w) && Stuck(cfg, w) && !w.failed && Provisioned(cfg) && id in cfg.bss
    ensures At(w, Bss(id)) >= 5 && Bss(id) in w.registered
    ensures cfg.etcd ==> EtcdReady in w.globals
  {
    if cfg.etcd {
      forall x | x in cfg.bss
        ensures Bss(x) in Marked(w, EtcdNodesRegistered)
      {
        StorageRegisters(cfg, w, x);
      }
      AllStorageCounts(cfg.bss, Marked(w, EtcdNodesRegistered));
    }
    StorageRegisters(cfg, w, id);
    NotBefore(cfg, w, Bss(id), 2, 0);
    NotBefore(cfg, w, Bss(id), 3, 0);
    NotBefore(cfg, w, Bss(id), 4, 0);
    PastHolds(cfg, w, Bss(id), 3);
    PastHolds(cfg, w, Bss(id), 4);
  }

  lemma EtcdIsReady(cfg: Config, w: World)
    requires Inv(cfg, w) && Stuck(cfg, w) && !w.failed && Provisioned(cfg)
    ensures cfg.etcd ==> EtcdReady in w.globals
  {
    if cfg.etcd {
      var id :| id in cfg.bss;
      StoragePastEtcd(cfg, w, id);
    }
  }

  lemma NssRegisters(cfg: Config, w: World, id: nat)
    requires Inv(cfg, w) && Stuck(cfg, w) && !w.failed && Provisioned(cfg) && id in cfg.nss
    ensures At(w, Nss(id)) >= 3 && Nss(id) in w.registered
  {
    EtcdIsReady(cfg, w);
    NotBefore(cfg, w, Nss(id), 0, 0);
    NotBefore(cfg, w, Nss(id), 1, 0);
    NotBefore(cfg, w, Nss(id), 2, 0);
    PastHolds(cfg, w, Nss(id), 2);
  }

  lemma LeaderResolves(cfg: Config, w: World)
    requires Inv(cfg, w) && Stuck(cfg, w) && !w.failed && Provisioned(cfg)
    ensures At(w, Leader) >= 4 && w.resolved.Some?
  {
    EtcdIsReady(cfg, w);
    var id :| id in cfg.nss;
    NssRegisters(cfg, w, id);
    NotBefore(cfg, w, Leader, 0, 0);
    NotBefore(cfg, w, Leader, 1, 0);
    NotBefore(cfg, w, Leader, 2, id);
    forall x | x in cfg.bss
      ensures Bss(x) in w.registered
    {
      StoragePastEtcd(cfg, w, x);
    }
    assert Registered(cfg, w) == cfg.bss;
    NotBefore(cfg, w, Leader, 3, 0);
  }

  lemma LeaderSignals(cfg: Config, w: World)
    requires Inv(cfg, w) && Stuck(cfg, w) && !w.failed && Provisioned(cfg)
    ensures At(w, Leader) >= 8 && w.owner.Some? && Leader in w.registered
    ensures RssInitialized in w.globals && MetadataVgReady in w.globals
  {
    LeaderResolves(cfg, w);
    NotBefore(cfg, w, Leader, 4, 0);
    NotBefore(cfg, w, Leader, 5, 0);
    NotBefore(cfg, w, Leader, 6, 0);
    NotBefore(cfg, w, Leader, 7, 0);
    PastHolds(cfg, w, Leader, 5);
    PastHolds(cfg, w, Leader, 6);
    PastHolds(cfg, w, Leader, 7);
  }

  lemma FollowerRegisters(cfg: Config, w: World, id: nat)
    requires Inv(cfg, w) && Stuck(cfg, w) && !w.failed && Provisioned(cfg) && id in cfg.followers
    ensures At(w, Follower(id)) >= 4 && Follower(id) in w.registered
  {
    LeaderSignals(cfg, w);
    var x :| x in cfg.nss;
    NssRegisters(cfg, w, x);
    NotBefore(cfg, w, Follower(id), 0, 0);
    NotBefore(cfg, w, Follower(id), 1, 0);
    NotBefore(cfg, w, Follower(id), 2, x);
    NotBefore(cfg, w, Follower(id), 3, 0);
    PastHolds(cfg, w, Follower(id), 3);
  }

  lemma RootServersAreThere(cfg: Config, w: World)
    requires Inv(cfg, w) && Stuck(cfg, w) && !w.failed && Provisioned(cfg)
    ensures |RootServersOf(w)| >= RootServers(cfg)
  {
    LeaderSignals(cfg, w);
    if cfg.rssHa {
      var id :| id in cfg.followers;
      FollowerRegisters(cfg, w, id);
      SubsetSize({Leader, Follower(id)}, RootServersOf(w));
    } else {
      SubsetSize({Leader}, RootServersOf(w));
    }
  }

  lemma StorageFinishes(cfg: Config, w: World, id: nat)
    requires Inv(cfg, w) && Stuck(cfg, w) && !w.failed && Provisioned(cfg) && id in cfg.bss
    ensures At(w, Bss(id)) == |Script(cfg, Bss(id))|
    ensures Bss(id) in Marked(w, BssConfigured) && Bss(id) in Marked(w, BssReady)
  {
    LeaderSignals(cfg, w);
    StoragePastEtcd(cfg, w, id);
    NotBefore(cfg, w, Bss(id), 5, 0);
    NotBefore(cfg, w, Bss(id), 6, 0);
    NotBefore(cfg, w, Bss(id), 7, 0);
    NotBefore(cfg, w, Bss(id), 8, 0);
    PastHolds(cfg, w, Bss(id), 6);
    PastHolds(cfg, w, Bss(id), 7);
  }

  lemma NssWaitsForVolumes(cfg: Config, w: World, id: nat)
    requires Inv(cfg, w) && Stuck(cfg, w) && !w.failed && Provisioned(cfg) && id in cfg.nss
    ensures At(w, Nss(id)) >= 7
  {
    LeaderSignals(cfg, w);
    NssRegisters(cfg, w, id);
    RootServersAreThere(cfg, w);
    NotBefore(cfg, w, Nss(id), 3, 0);
    NotBefore(cfg, w, Nss(id), 4, 0);
    NotBefore(cfg, w, Nss(id), 5, 0);
    NotBefore(cfg, w, Nss(id), 6, 0);
  }

  lemma NssReachesFormat(cfg: Config, w: World, id: nat)
    requires Inv(cfg, w) && Stuck(cfg, w) && !w.failed && Provisioned(cfg) && id in cfg.nss
    ensures At(w, Nss(id)) >= 11
  {
    LeaderSignals(cfg, w);
    NssWaitsForVolumes(cfg, w, id);
    forall x | x in cfg.bss
      ensures Bss(x) in Marked(w, BssConfigured) && Bss(x) in Marked(w, BssReady)
    {
      StorageFinishes(cfg, w, x);
    }
    AllStorageCounts(cfg.bss, Marked(w, BssConfigured));
    AllStorageCounts(cfg.bss, Marked(w, BssReady));
    NotBefore(cfg, w, Nss(id), 7, 0);
    NotBefore(cfg, w, Nss(id), 8, 0);
    NotBefore(cfg, w, Nss(id), 9, 0);
    NotBefore(cfg, w, Nss(id), 10, 0);
  }

  lemma JournalComesUp(cfg: Config, w: World)
    requires Inv(cfg, w) && Stuck(cfg, w) && !w.failed && Provisioned(cfg)
    ensures JournalFormatted in w.globals && |Marked(w, NssJournalReady)| >= 1
  {
    LeaderSignals(cfg, w);
    var owner := Nss(w.owner.value);
    NssReachesFormat(cfg, w, owner.id);
    PastHolds(cfg, w, owner, 10);
    NotBefore(cfg, w, owner, 11, 0);
    NotBefore(cfg, w, owner, 12, 0);
    PastHolds(cfg, w, owner, 12);
    assert owner in Marked(w, NssJournalReady);
  }

  lemma NssFinishes(cfg: Config, w: World, id: nat)
    requires Inv(cfg, w) && Stuck(cfg, w) && !w.failed && Provisioned(cfg) && id in cfg.nss
    ensures At(w, Nss(id)) == |Script(cfg, Nss(id))|
  {
    LeaderSignals(cfg, w);
    JournalComesUp(cfg, w);
    NssReachesFormat(cfg, w, id);
    NotBefore(cfg, w, Nss(id), 11, 0);
    NotBefore(cfg, w, Nss(id), 12, 0);
    NotBefore(cfg, w, Nss(id), 13, 0);
    PastHolds(cfg, w, Nss(id), 13);
  }

  lemma LeaderFinishes(cfg: Config, w: World)
    requires Inv(cfg, w) && Stuck(cfg, w) && !w.failed && Provisioned(cfg)
    ensures At(w, Leader) == |Script(cfg, Leader)|
  {
    LeaderSignals(cfg, w);
    JournalComesUp(cfg, w);
    NotBefore(cfg, w, Leader, 8, 0);
    NotBefore(cfg, w, Leader, 9, 0);
    NotBefore(cfg, w, Leader, 10, 0);
    PastHolds(cfg, w, Leader, 10);
  }

  lemma FollowerFinishes(cfg: Config, w: World, id: nat)
    requires Inv(cfg, w) && Stuck(cfg, w) && !w.failed && Provisioned(cfg) && id in cfg.followers
    ensures At(w, Follower(id)) == |Script(cfg, Follower(id))|
  {
    FollowerRegisters(cfg, w, id);
    NotBefore(cfg, w, Follower(id), 4, 0);
    PastHolds(cfg, w, Follower(id), 4);
  }

  lemma GatewayFinishes(cfg: Config, w: World, id: nat)
    requires Inv(cfg, w) && Stuck(cfg, w) && !w.failed && Provisioned(cfg) && id in cfg.gateways
    ensures At(w, Gateway(id)) == |Script(cfg, Gateway(id))|
  {
    LeaderSignals(cfg, w);
    JournalComesUp(cfg, w);
    RootServersAreThere(cfg, w);
    NotBefore(cfg, w, Gateway(id), 0, 0);
    NotBefore(cfg, w, Gateway(id), 1, 0);
    NotBefore(cfg, w, Gateway(id), 2, 0);
    NotBefore(cfg, w, Gateway(id), 3, 0);
    NotBefore(cfg, w, Gateway(id), 4, 0);
    NotBefore(cfg, w, Gateway(id), 5, 0);
    PastHolds(cfg, w, Gateway(id), 5);
  }

  /** A run that cannot go on has brought every node to the end of its script. */
  lemma StuckMeansFinished(cfg: Config, w: World, n: Node)
    requires Reachable(cfg, w) && !w.failed && Provisioned(cfg) && Stuck(cfg, w) && cfg.Has(n)
    ensures At(w, n) == |Script(cfg, n)|
  {
    ReachableIsSound(cfg, w);
    match n
    case Nss(id) => NssFinishes(cfg, w, id);
    case Bss(id) => StorageFinishes(cfg, w, id);
    case Leader => LeaderFinishes(cfg, w);
    case Follower(id) => FollowerFinishes(cfg, w, id);
    case Gateway(id) => GatewayFinishes(cfg, w, id);
  }

  lemma FormatNeedsRootServers(cfg: Config, w: World)
    requires Inv(cfg, w) && w.formats != [] && w.formats[0] in cfg.nss
    ensures cfg.rssHa ==> cfg.followers != {}
  {
    PastHolds(cfg, w, Nss(w.formats[0]), 4);
    if cfg.followers == {} {
      SubsetSize(RootServersOf(w), {Leader});
    }
  }

  lemma ClusterNeedsNodes(cfg: Config, w: World)
    requires StorageOk(cfg, w) && EtcdFormed(cfg, w)
    ensures cfg.bss != {} && |cfg.bss| >= cfg.clusterSize
  {
    NodesAreIds(Marked(w, EtcdNodesRegistered), cfg.bss);
    SubsetSize(StorageAt(cfg, w, EtcdNodesRegistered), cfg.bss);
    var n :| n in Marked(w, EtcdNodesRegistered);
  }

  /** And without enough nodes the leader never gets there. */
  lemma FinishNeedsNodes(cfg: Config, w: World)
    requires Reachable(cfg, w) && At(w, Leader) == |Script(cfg, Leader)|
    ensures Provisioned(cfg)
  {
    ReachableIsSound(cfg, w);
    PastHolds(cfg, w, Leader, 1);
    PastHolds(cfg, w, Leader, 3);
    PastHolds(cfg, w, Leader, 8);
    FormattedOnce(cfg, w);
    FormatNeedsRootServers(cfg, w);
    SubsetSize(StorageAt(cfg, w, BssReady), cfg.bss);
    SubsetSize(Registered(cfg, w), cfg.bss);
    if cfg.etcd {
      ClusterNeedsNodes(cfg, w);
    }
  }

  // ---------------------------------------------------------------- runs are finite

  /** The steps a list of nodes still has before it. */
  ghost function Left(cfg: Config, w: World, nodes: seq<Node>): int {
    if nodes == [] then 0 else |Script(cfg, nodes[0])| - At(w, nodes[0]) + Left(cfg, w, nodes[1..])
  }

  ghost predicate Enumerates(cfg: Config, nodes: seq<Node>) {
    && (forall n :: cfg.Has(n) <==> n in nodes)
    && (forall i, j | 0 <= i < j < |nodes| :: nodes[i] != nodes[j])
  }

  lemma {:induction false} LeftAfterStep(cfg: Config, w: World, n: Node, pick: nat, nodes: seq<Node>)
    requires Running(cfg, w, n) && forall i, j | 0 <= i < j < |nodes| :: nodes[i] != nodes[j]
    ensures Left(cfg, Do(cfg, w, n, pick), nodes) == Left(cfg, w, nodes) - (if n in nodes then 1 else 0)
  {
    if nodes == [] {
    } else {
      LeftAfterStep(cfg, w, n, pick, nodes[1..]);
    }
  }

  lemma {:induction false} LeftIsPositive(cfg: Config, w: World, nodes: seq<Node>)
    requires Past(cfg, w) && forall n | n in nodes :: cfg.Has(n)
    ensures Left(cfg, w, nodes) >= 0
  {
    if nodes == [] {
    } else {
      assert PastAt(cfg, w, nodes[0]);
      LeftIsPositive(cfg, w, nodes[1..]);
    }
  }

  /** Every move uses up one step, so a run is no longer than all scripts together. */
  lemma {:induction false} RunsUseUpSteps(cfg: Config, w: World, moves: seq<Move>, nodes: seq<Node>)
    requires Inv(cfg, w) && CanRun(cfg, w, moves) && Enumerates(cfg, nodes)
    ensures Left(cfg, After(cfg, w, moves), nodes) == Left(cfg, w, nodes) - |moves|
    ensures |moves| <= Left(cfg, w, nodes)
    decreases |moves|
  {
    LeftIsPositive(cfg, w, nodes);
    if moves == [] {
    } else {
      var n, pick := moves[0].node, moves[0].pick;
      LeftAfterStep(cfg, w, n, pick, nodes);
      StepKept(cfg, w, n, pick);
      RunsUseUpSteps(cfg, Do(cfg, w, n, pick), moves[1..], nodes);
    }
  }

  // ---------------------------------------------------------------- when the leader gives up

  /** Storage nodes may still be missing when the leader counts those that formed the etcd cluster. */
  ghost predicate MayGiveUp(cfg: Config) {
    cfg.etcd && cfg.leaderBss > cfg.clusterSize && cfg.leaderBss > 1
  }

  lemma NonEmptySize<T>(s: set<T>)
    requires s != {}
    ensures |s| >= 1
  {
  }

  lemma CountFindsCluster(cfg: Config, w: World)
    requires Inv(cfg, w) && cfg.etcd && At(w, Leader) > 1
    ensures EtcdFormed(cfg, w) && |Marked(w, EtcdNodesRegistered)| >= 1
  {
    PastHolds(cfg, w, Leader, 1);
    NonEmptySize(Marked(w, EtcdNodesRegistered));
  }

  /** A leader that gave up did so at its count, for that reason, and stands still. */
  ghost predicate GaveUpOk(cfg: Config, w: World) {
    w.failed ==> MayGiveUp(cfg) && At(w, Leader) == PUBLISH
  }

  lemma TookGivesUp(cfg: Config, w: World, n: Node, a: Action, pick: nat)
    requires Placed(cfg, n, At(w, n), a) && GaveUpOk(cfg, w) && !(n.Leader? && w.failed)
    requires a.CheckEtcdNodes? ==> EtcdFormed(cfg, w) && |Marked(w, EtcdNodesRegistered)| >= 1
    ensures GaveUpOk(cfg, Took(w, n, a, pick))
  {
  }

  lemma StepGivesUp(cfg: Config, w: World, n: Node, pick: nat)
    requires Inv(cfg, w) && Can(cfg, w, n, pick) && GaveUpOk(cfg, w)
    ensures GaveUpOk(cfg, Do(cfg, w, n, pick))
  {
    var a := Script(cfg, n)[At(w, n)];
    ScriptPlaces(cfg, n, At(w, n));
    if a.CheckEtcdNodes? {
      CountFindsCluster(cfg, w);
    }
    TookGivesUp(cfg, w, n, a, pick);
  }

  lemma {:induction false} RunGivesUp(cfg: Config, w: World, moves: seq<Move>)
    requires Inv(cfg, w) && CanRun(cfg, w, moves) && GaveUpOk(cfg, w)
    ensures GaveUpOk(cfg, After(cfg, w, moves))
    decreases |moves|
  {
    if moves == [] {
    } else {
      StepGivesUp(cfg, w, moves[0].node, moves[0].pick);
      StepKept(cfg, w, moves[0].node, moves[0].pick);
      RunGivesUp(cfg, Do(cfg, w, moves[0].node, moves[0].pick), moves[1..]);
    }
  }

  lemma ReachableGivesUp(cfg: Config, w: World)
    requires Reachable(cfg, w)
    ensures GaveUpOk(cfg, w)
  {
    var moves :| CanRun(cfg, START, moves) && After(cfg, START, moves) == w;
    StartIsReachable(cfg);
    ReachableIsSound(cfg, START);
    RunGivesUp(cfg, START, moves);
  }

  lemma StartIsReachable(cfg: Config)
    ensures Reachable(cfg, START)
  {
    assert CanRun(cfg, START, []) && After(cfg, START, []) == START;
  }

  lemma RunCons(cfg: Config, w: World, m: Move, rest: seq<Move>)
    requires Can(cfg, w, m.node, m.pick) && CanRun(cfg, Do(cfg, w, m.node, m.pick), rest)
    ensures CanRun(cfg, w, [m] + rest)
    ensures After(cfg, w, [m] + rest) == After(cfg, Do(cfg, w, m.node, m.pick), rest)
  {
    assert ([m] + rest)[1..] == rest;
  }

  lemma {:induction false} RunAppend(cfg: Config, w: World, moves: seq<Move>, m: Move)
    requires CanRun(cfg, w, moves) && Can(cfg, After(cfg, w, moves), m.node, m.pick)
    ensures CanRun(cfg, w, moves + [m])
    ensures After(cfg, w, moves + [m]) == Do(cfg, After(cfg, w, moves), m.node, m.pick)
    decreases |moves|
  {
    if moves == [] {
      RunCons(cfg, w, m, []);
      assert moves + [m] == [m] + [];
    } else {
      RunAppend(cfg, Do(cfg, w, moves[0].node, moves[0].pick), moves[1..], m);
      RunCons(cfg, w, moves[0], moves[1..] + [m]);
      assert moves + [m] == [moves[0]] + (moves[1..] + [m]);
    }
  }

  lemma Takes(cfg: Config, w: World, n: Node, a: Action, pick: nat) returns (w': World)
    requires Reachable(cfg, w) && cfg.Has(n) && Running(cfg, w, n)
    requires Script(cfg, n)[At(w, n)] == a && Ready(cfg, w, n, a, pick)
    ensures w' == Took(w, n, a, pick) && Reachable(cfg, w')
  {
    var moves :| CanRun(cfg, START, moves) && After(cfg, START, moves) == w;
    RunAppend(cfg, START, moves, Move(n, pick));
    w' := Do(cfg, w, n, pick);
  }

  /** Only some storage nodes have come up, and registered. */
  ghost predicate OnlyThese(w: World, ids: set<nat>) {
    && !w.failed
    && (forall n: Node :: At(w, n) == if n.Bss? && n.id in ids then 2 else 0)
    && (forall n: Node :: n in Marked(w, EtcdNodesRegistered) <==> n.Bss? && n.id in ids)
  }

  lemma TakesLater(cfg: Config, w: World, n: Node, a: Action, b: Action, pick: nat) returns (w': World)
    requires Reachable(cfg, w) && cfg.Has(n) && !w.failed && At(w, n) + 1 < |Script(cfg, n)|
    requires Script(cfg, n)[At(w, n)] == a && Ready(cfg, w, n, a, 0) && !a.CheckEtcdNodes?
    requires Script(cfg, n)[At(w, n) + 1] == b && Ready(cfg, Took(w, n, a, 0), n, b, pick)
    ensures w' == Took(Took(w, n, a, 0), n, b, pick) && Reachable(cfg, w')
  {
    w' := Takes(cfg, w, n, a, 0);
    w' := Takes(cfg, w', n, b, pick);
  }

  /** What marking a stage for a node changes. */
  lemma MarkingMoves(w: World, n: Node, s: Stage)
    ensures var w' := Took(w, n, MarkNode(s), 0);
      && w'.failed == w.failed
      && (forall m :: At(w', m) == At(w, m) + (if m == n then 1 else 0))
      && (forall x :: Marked(w', x) == if x == s then Marked(w, x) + {n} else Marked(w, x))
  {
  }

  lemma OneMore(w: World, ids: set<nat>, id: nat) returns (w': World)
    requires OnlyThese(w, ids) && id !in ids
    ensures w' == Took(Took(w, Bss(id), MarkNode(InstancesReady), 0), Bss(id), MarkNode(EtcdNodesRegistered), 0)
    ensures OnlyThese(w', ids + {id})
  {
    var mid := Took(w, Bss(id), MarkNode(InstancesReady), 0);
    MarkingMoves(w, Bss(id), InstancesReady);
    MarkingMoves(mid, Bss(id), EtcdNodesRegistered);
    w' := Took(mid, Bss(id), MarkNode(EtcdNodesRegistered), 0);
  }

  lemma OneRegisters(cfg: Config, w: World, ids: set<nat>, id: nat) returns (w': World)
    requires Reachable(cfg, w) && OnlyThese(w, ids) && cfg.etcd && id in cfg.bss && id !in ids
    ensures Reachable(cfg, w') && OnlyThese(w', ids + {id})
  {
    w' := OneMore(w, ids, id);
    assert At(w, Bss(id)) == 0;
    var later := TakesLater(cfg, w, Bss(id), MarkNode(InstancesReady), MarkNode(EtcdNodesRegistered), 0);
  }

  lemma {:induction false} TheseRegister(cfg: Config, ids: set<nat>) returns (w: World)
    requires cfg.etcd && ids <= cfg.bss
    ensures Reachable(cfg, w) && OnlyThese(w, ids)
    decreases ids
  {
    if ids == {} {
      w := START;
      StartIsReachable(cfg);
    } else {
      var id :| id in ids;
      w := TheseRegister(cfg, ids - {id});
      w := OneRegisters(cfg, w, ids - {id}, id);
      assert ids - {id} + {id} == ids;
    }
  }

  /** An etcd cluster of a few storage nodes. */
  ghost predicate SmallCluster(w: World, size: nat) {
    !w.failed && EtcdReady in w.globals && |Marked(w, EtcdNodesRegistered)| <= size
  }

  lemma AsManyNodes(nodes: set<Node>, ids: set<nat>)
    requires forall n: Node :: n in nodes <==> n.Bss? && n.id in ids
    ensures |nodes| == |ids|
  {
    AllStorageCounts(ids, nodes);
    NodesAreIds(nodes, ids);
    assert (set id | id in ids && Bss(id) in nodes) == ids;
  }

  lemma EtcdFormsOf(cfg: Config, ids: set<nat>) returns (w: World)
    requires cfg.etcd && ids <= cfg.bss && ids != {} && |ids| >= cfg.clusterSize
    ensures Reachable(cfg, w) && SmallCluster(w, |ids|)
    ensures forall n: Node | !n.Bss? :: At(w, n) == 0
  {
    w := TheseRegister(cfg, ids);
    var b :| b in ids;
    AsManyNodes(Marked(w, EtcdNodesRegistered), ids);
    assert At(w, Bss(b)) == 2;
    w := ClusterForms(cfg, w, b, |ids|);
  }

  lemma ClusterSteps(cfg: Config, b: nat)
    requires cfg.etcd
    ensures |Script(cfg, Bss(b))| > 4
    ensures Script(cfg, Bss(b))[2] == AwaitNodes(EtcdNodesRegistered, cfg.clusterSize)
    ensures Script(cfg, Bss(b))[3] == MarkGlobal(EtcdReady)
  {
  }

  lemma ClusterAppears(w: World, n: Node, count: nat, size: nat) returns (w': World)
    requires !w.failed && |Marked(w, EtcdNodesRegistered)| <= size
    ensures w' == Took(Took(w, n, AwaitNodes(EtcdNodesRegistered, count), 0), n, MarkGlobal(EtcdReady), 0)
    ensures SmallCluster(w', size) && forall m | m != n :: At(w', m) == At(w, m)
  {
    var mid := Took(w, n, AwaitNodes(EtcdNodesRegistered, count), 0);
    assert forall m | m != n :: At(mid, m) == At(w, m);
    w' := Took(mid, n, MarkGlobal(EtcdReady), 0);
  }

  lemma ClusterForms(cfg: Config, w: World, b: nat, size: nat) returns (w': World)
    requires Reachable(cfg, w) && cfg.etcd && !w.failed && b in cfg.bss && At(w, Bss(b)) == 2
    requires cfg.clusterSize <= |Marked(w, EtcdNodesRegistered)| <= size
    ensures Reachable(cfg, w') && SmallCluster(w', size)
    ensures forall n: Node | !n.Bss? :: At(w', n) == At(w, n)
  {
    ClusterSteps(cfg, b);
    w' := ClusterAppears(w, Bss(b), cfg.clusterSize, size);
    var wait, mark := AwaitNodes(EtcdNodesRegistered, cfg.clusterSize), MarkGlobal(EtcdReady);
    var later := TakesLater(cfg, w, Bss(b), wait, mark, 0);
  }

  /** Two first steps that leave the cluster as it is. */
  lemma ClusterStays(w: World, n: Node, size: nat) returns (w': World)
    requires SmallCluster(w, size) && At(w, n) == 0
    ensures w' == Took(Took(w, n, MarkNode(InstancesReady), 0), n, AwaitGlobal(EtcdReady), 0)
    ensures EtcdReady in Took(w, n, MarkNode(InstancesReady), 0).globals
    ensures SmallCluster(w', size) && w'.registered == w.registered
    ensures At(w', n) == 2 && forall m | m != n :: At(w', m) == At(w, m)
  {
    var mid := Took(w, n, MarkNode(InstancesReady), 0);
    assert At(mid, n) == 1 && forall m | m != n :: At(mid, m) == At(w, m);
    w' := Took(mid, n, AwaitGlobal(EtcdReady), 0);
  }

  lemma FirstSteps(cfg: Config, n: Node)
    requires cfg.etcd && (n.Nss? || n.Leader?)
    ensures |Script(cfg, n)| > 2
    ensures Script(cfg, n)[0] == MarkNode(InstancesReady) && Script(cfg, n)[1] == AwaitGlobal(EtcdReady)
  {
  }

  /** A node whose script starts like this takes these two steps once the cluster is there. */
  lemma StartsOnCluster(cfg: Config, w: World, n: Node, script: seq<Action>) returns (w': World)
    requires Reachable(cfg, w) && cfg.Has(n) && !w.failed && At(w, n) == 0 && EtcdReady in w.globals
    requires script == Script(cfg, n) && |script| > 2
    requires script[0] == MarkNode(InstancesReady) && script[1] == AwaitGlobal(EtcdReady)
    ensures Reachable(cfg, w')
    ensures w' == Took(Took(w, n, MarkNode(InstancesReady), 0), n, AwaitGlobal(EtcdReady), 0)
  {
    w' := TakesLater(cfg, w, n, MarkNode(InstancesReady), AwaitGlobal(EtcdReady), 0);
  }

  /** The first two steps of a name server and of the leader, once the cluster is there. */
  lemma SeesCluster(cfg: Config, w: World, n: Node, size: nat) returns (w': World)
    requires Reachable(cfg, w) && SmallCluster(w, size) && cfg.etcd && cfg.Has(n) && (n.Nss? || n.Leader?)
    requires At(w, n) == 0
    ensures Reachable(cfg, w') && SmallCluster(w', size) && w'.registered == w.registered
    ensures At(w', n) == 2 && forall m | m != n :: At(w', m) == At(w, m)
  {
    w' := ClusterStays(w, n, size);
    FirstSteps(cfg, n);
    var later := StartsOnCluster(cfg, w, n, Script(cfg, n));
  }

  lemma ThirdSteps(cfg: Config, x: nat)
    requires cfg.etcd
    ensures |Script(cfg, Nss(x))| > 3 && Script(cfg, Nss(x))[2] == Register
    ensures |Script(cfg, Leader)| > 4 && Script(cfg, Leader)[2] == ResolveNss
    ensures Script(cfg, Leader)[3] == CheckEtcdNodes(cfg.leaderBss)
  {
  }

  lemma ClusterSurvives(w: World, n: Node, a: Action, pick: nat, size: nat)
    requires SmallCluster(w, size) && (a.Register? || a.ResolveNss?)
    ensures SmallCluster(Took(w, n, a, pick), size) && w.registered <= Took(w, n, a, pick).registered
    ensures a.Register? ==> n in Took(w, n, a, pick).registered
    ensures forall m :: At(Took(w, n, a, pick), m) == At(w, m) + (if m == n then 1 else 0)
  {
  }

  lemma NssComesUp(cfg: Config, w: World, x: nat, size: nat) returns (w': World)
    requires Reachable(cfg, w) && SmallCluster(w, size) && cfg.etcd && x in cfg.nss && At(w, Nss(x)) == 2
    ensures Reachable(cfg, w') && SmallCluster(w', size) && Nss(x) in w'.registered
    ensures At(w', Leader) == At(w, Leader)
  {
    ThirdSteps(cfg, x);
    ClusterSurvives(w, Nss(x), Register, 0, size);
    w' := Takes(cfg, w, Nss(x), Register, 0);
  }

  lemma LeaderFindsNss(cfg: Config, w: World, x: nat, size: nat) returns (w': World)
    requires Reachable(cfg, w) && SmallCluster(w, size) && cfg.etcd && Nss(x) in w.registered && At(w, Leader) == 2
    ensures Reachable(cfg, w') && SmallCluster(w', size) && At(w', Leader) == 3
  {
    ThirdSteps(cfg, x);
    ClusterSurvives(w, Leader, ResolveNss, x, size);
    w' := Takes(cfg, w, Leader, ResolveNss, x);
  }

  lemma LeaderGivesUp(cfg: Config, w: World, size: nat) returns (w': World)
    requires Reachable(cfg, w) && SmallCluster(w, size) && cfg.etcd && At(w, Leader) == 3 && size < cfg.leaderBss
    ensures Reachable(cfg, w') && w'.failed
  {
    ThirdSteps(cfg, 0);
    w' := Takes(cfg, w, Leader, CheckEtcdNodes(cfg.leaderBss), 0);
  }

  lemma NssOnCluster(cfg: Config, ids: set<nat>, x: nat) returns (w: World)
    requires cfg.etcd && ids <= cfg.bss && ids != {} && cfg.clusterSize <= |ids| && x in cfg.nss
    ensures Reachable(cfg, w) && SmallCluster(w, |ids|) && Nss(x) in w.registered && At(w, Leader) == 0
  {
    w := EtcdFormsOf(cfg, ids);
    w := SeesCluster(cfg, w, Nss(x), |ids|);
    w := NssComesUp(cfg, w, x, |ids|);
  }

  lemma LeaderOnCluster(cfg: Config, w: World, x: nat, size: nat) returns (w': World)
    requires Reachable(cfg, w) && SmallCluster(w, size) && cfg.etcd && Nss(x) in w.registered && At(w, Leader) == 0
    ensures Reachable(cfg, w') && SmallCluster(w', size) && At(w', Leader) == 3
  {
    w' := SeesCluster(cfg, w, Leader, size);
    w' := LeaderFindsNss(cfg, w', x, size);
  }

  lemma ClusterTooSmall(cfg: Config, ids: set<nat>) returns (w: World)
    requires cfg.etcd && ids <= cfg.bss && ids != {} && cfg.clusterSize <= |ids| < cfg.leaderBss && cfg.nss != {}
    ensures Reachable(cfg, w) && w.failed
  {
    var x :| x in cfg.nss;
    w := NssOnCluster(cfg, ids, x);
    w := LeaderOnCluster(cfg, w, x, |ids|);
    w := LeaderGivesUp(cfg, w, |ids|);
  }

  /** Some run of the leader ends in an error exactly if it expects more storage nodes than form the cluster. */
  lemma GivesUpIff(cfg: Config)
    requires cfg.nss != {} && (cfg.etcd ==> cfg.bss != {} && |cfg.bss| >= cfg.clusterSize)
    ensures (exists w :: Reachable(cfg, w) && w.failed) <==> MayGiveUp(cfg)
  {
    forall w | Reachable(cfg, w) && w.failed
      ensures MayGiveUp(cfg)
    {
      ReachableGivesUp(cfg, w);
    }
    if MayGiveUp(cfg) {
      NonEmptySize(cfg.bss);
      var ids := SubsetOfSize(cfg.bss, if cfg.clusterSize == 0 then 1 else cfg.clusterSize);
      var w := ClusterTooSmall(cfg, ids);
    }
  }

  // ---------------------------------------------------------------- every maximal run

  ghost predicate AllFinished(cfg: Config, w: World) {
    forall n | cfg.Has(n) :: At(w, n) == |Script(cfg, n)|
  }

  lemma {:induction false} SequenceOf<T>(s: set<T>) returns (q: seq<T>)
    ensures forall x :: x in s <==> x in q
    ensures forall i, j | 0 <= i < j < |q| :: q[i] != q[j]
  {
    if s == {} {
      q := [];
    } else {
      var x :| x in s;
      q := SequenceOf(s - {x});
      q := [x] + q;
    }
  }

  lemma NodesOf(cfg: Config) returns (nodes: seq<Node>)
    ensures Enumerates(cfg, nodes)
  {
    var all := {Leader} + (set id | id in cfg.followers :: Follower(id)) + (set id | id in cfg.nss :: Nss(id))
               + (set id | id in cfg.bss :: Bss(id)) + (set id | id in cfg.gateways :: Gateway(id));
    assert forall n :: cfg.Has(n) <==> n in all;
    nodes := SequenceOf(all);
  }

  lemma StepReaches(cfg: Config, w: World, n: Node, pick: nat)
    requires Reachable(cfg, w) && Can(cfg, w, n, pick)
    ensures Reachable(cfg, Do(cfg, w, n, pick)) && (w.failed ==> Do(cfg, w, n, pick).failed)
  {
    var w' := Takes(cfg, w, n, Script(cfg, n)[At(w, n)], pick);
    ReachableIsSound(cfg, w);
    ScriptPlaces(cfg, n, At(w, n));
    TookGrows(cfg, w, n, Script(cfg, n)[At(w, n)], pick);
  }

  /** Every run can be taken to where nobody can move. */
  lemma {:induction false} RunsEnd(cfg: Config, w: World, nodes: seq<Node>) returns (w': World)
    requires Reachable(cfg, w) && Enumerates(cfg, nodes)
    ensures Reachable(cfg, w') && Stuck(cfg, w') && (w.failed ==> w'.failed)
    decreases Left(cfg, w, nodes)
  {
    ReachableIsSound(cfg, w);
    LeftIsPositive(cfg, w, nodes);
    if Stuck(cfg, w) {
      w' := w;
    } else {
      var n, pick :| Can(cfg, w, n, pick);
      StepReaches(cfg, w, n, pick);
      LeftAfterStep(cfg, w, n, pick, nodes);
      w' := RunsEnd(cfg, Do(cfg, w, n, pick), nodes);
    }
  }

  lemma TooFewNodesStrand(cfg: Config) returns (w: World)
    requires !Provisioned(cfg)
    ensures Reachable(cfg, w) && Stuck(cfg, w) && !AllFinished(cfg, w)
  {
    var nodes := NodesOf(cfg);
    StartIsReachable(cfg);
    w := RunsEnd(cfg, START, nodes);
    if At(w, Leader) == |Script(cfg, Leader)| {
      FinishNeedsNodes(cfg, w);
    }
  }

  lemma GivingUpStrands(cfg: Config) returns (w: World)
    requires Provisioned(cfg) && MayGiveUp(cfg)
    ensures Reachable(cfg, w) && Stuck(cfg, w) && !AllFinished(cfg, w)
  {
    GivesUpIff(cfg);
    w :| Reachable(cfg, w) && w.failed;
    var nodes := NodesOf(cfg);
    w := RunsEnd(cfg, w, nodes);
    ReachableGivesUp(cfg, w);
    assert cfg.Has(Leader) && At(w, Leader) != |Script(cfg, Leader)|;
  }

  /**
   Every maximal run brings every node to the end of its script exactly if there are enough nodes and the
   leader cannot give up.
   */
  lemma AllFinishIff(cfg: Config)
    ensures (forall w | Reachable(cfg, w) && Stuck(cfg, w) :: AllFinished(cfg, w))
            <==> Provisioned(cfg) && !MayGiveUp(cfg)
  {
    if !Provisioned(cfg) {
      var w := TooFewNodesStrand(cfg);
    } else if MayGiveUp(cfg) {
      var w := GivingUpStrands(cfg);
    } else {
      forall w | Reachable(cfg, w) && Stuck(cfg, w)
        ensures AllFinished(cfg, w)
      {
        ReachableGivesUp(cfg, w);
        forall n | cfg.Has(n)
          ensures At(w, n) == |Script(cfg, n)|
        {
          StuckMeansFinished(cfg, w, n);
        }
      }
    }
  }
}
