/**
 What the completion markers of a bootstrap run say: a stage is only ever marked by the roles that complete
 it, in the scope it is declared with, and after the stages it declares as dependencies, except where named.
 */
module BarrierStages {
  import opened Options
  import opened Sets
  import StageGraph
  import Stages
  import opened Barrier
  import opened BarrierInvariant
  import BarrierTheorems

  // ---------------------------------------------------------------- who marked what

  /** The action marks the stage for its node. */
  predicate Marks(w: World, n: Node, a: Action, s: Stage) {
    a == MarkNode(s) || (a == AsOwner(OwnerMarksNode(s)) && Owns(w, n))
  }

  predicate Signals(w: World, n: Node, a: Action, s: Stage) {
    a == MarkGlobal(s) || (a == AsOwner(OwnerMarks(s)) && Owns(w, n))
  }

  ghost predicate MarkedBy(cfg: Config, w: World, n: Node, s: Stage) {
    cfg.Has(n) && exists i :: 0 <= i < At(w, n) && i < |Script(cfg, n)| && Marks(w, n, Script(cfg, n)[i], s)
  }

  ghost predicate SignalledBy(cfg: Config, w: World, n: Node, s: Stage) {
    cfg.Has(n) && exists i :: 0 <= i < At(w, n) && i < |Script(cfg, n)| && Signals(w, n, Script(cfg, n)[i], s)
  }

  /** Every marker comes from a step that was taken. */
  ghost predicate Traced(cfg: Config, w: World) {
    && (forall s, n | n in Marked(w, s) :: MarkedBy(cfg, w, n, s))
    && (forall s | s in w.globals :: exists n :: SignalledBy(cfg, w, n, s))
  }

  lemma MarkedByKept(cfg: Config, w: World, w': World, n: Node, s: Stage)
    requires MarkedBy(cfg, w, n, s) && At(w, n) <= At(w', n) && Grows(w, w')
    ensures MarkedBy(cfg, w', n, s)
  {
    var i :| 0 <= i < At(w, n) && i < |Script(cfg, n)| && Marks(w, n, Script(cfg, n)[i], s);
    assert Marks(w', n, Script(cfg, n)[i], s);
  }

  lemma SignalledByKept(cfg: Config, w: World, w': World, n: Node, s: Stage)
    requires SignalledBy(cfg, w, n, s) && At(w, n) <= At(w', n) && Grows(w, w')
    ensures SignalledBy(cfg, w', n, s)
  {
    var i :| 0 <= i < At(w, n) && i < |Script(cfg, n)| && Signals(w, n, Script(cfg, n)[i], s);
    assert Signals(w', n, Script(cfg, n)[i], s);
  }

  lemma NewMarkTraced(cfg: Config, w: World, n: Node, a: Action, pick: nat, m: Node, s: Stage)
    requires cfg.Has(n) && At(w, n) < |Script(cfg, n)| && a == Script(cfg, n)[At(w, n)]
    requires Grows(w, Took(w, n, a, pick)) && m in Marked(Took(w, n, a, pick), s)
    requires m in Marked(w, s) ==> MarkedBy(cfg, w, m, s)
    ensures MarkedBy(cfg, Took(w, n, a, pick), m, s)
  {
    var w' := Took(w, n, a, pick);
    TookMarked(w, n, a, pick, s);
    if m in Marked(w, s) {
      MarkedByKept(cfg, w, w', m, s);
    } else {
      assert Marks(w', n, Script(cfg, n)[At(w, n)], s);
    }
  }

  lemma NewSignalTraced(cfg: Config, w: World, n: Node, a: Action, pick: nat, s: Stage)
    requires cfg.Has(n) && At(w, n) < |Script(cfg, n)| && a == Script(cfg, n)[At(w, n)]
    requires Grows(w, Took(w, n, a, pick)) && s in Took(w, n, a, pick).globals
    requires s in w.globals ==> exists m :: SignalledBy(cfg, w, m, s)
    ensures exists m :: SignalledBy(cfg, Took(w, n, a, pick), m, s)
  {
    var w' := Took(w, n, a, pick);
    TookGlobal(w, n, a, pick);
    if s in w.globals {
      var m :| SignalledBy(cfg, w, m, s);
      SignalledByKept(cfg, w, w', m, s);
    } else {
      assert Signals(w', n, Script(cfg, n)[At(w, n)], s);
      assert SignalledBy(cfg, w', n, s);
    }
  }

  lemma TracedStep(cfg: Config, w: World, n: Node, pick: nat)
    requires OwnerOk(cfg, w) && Traced(cfg, w) && Can(cfg, w, n, pick)
    ensures Traced(cfg, Do(cfg, w, n, pick))
  {
    var a := Script(cfg, n)[At(w, n)];
    ScriptPlaces(cfg, n, At(w, n));
    TookGrows(cfg, w, n, a, pick);
    forall s, m | m in Marked(Took(w, n, a, pick), s)
      ensures MarkedBy(cfg, Took(w, n, a, pick), m, s)
    {
      NewMarkTraced(cfg, w, n, a, pick, m, s);
    }
    forall s | s in Took(w, n, a, pick).globals
      ensures exists m :: SignalledBy(cfg, Took(w, n, a, pick), m, s)
    {
      NewSignalTraced(cfg, w, n, a, pick, s);
    }
  }

  lemma {:induction false} TracedRun(cfg: Config, w: World, moves: seq<Move>)
    requires Inv(cfg, w) && Traced(cfg, w) && CanRun(cfg, w, moves)
    ensures Traced(cfg, After(cfg, w, moves))
    decreases |moves|
  {
    if moves == [] {
    } else {
      StepKept(cfg, w, moves[0].node, moves[0].pick);
      TracedStep(cfg, w, moves[0].node, moves[0].pick);
      TracedRun(cfg, Do(cfg, w, moves[0].node, moves[0].pick), moves[1..]);
    }
  }

  lemma ReachableIsTraced(cfg: Config, w: World)
    requires Reachable(cfg, w)
    ensures Inv(cfg, w) && Traced(cfg, w)
  {
    ReachableIsSound(cfg, w);
    var moves :| CanRun(cfg, START, moves) && After(cfg, START, moves) == w;
    assert Inv(cfg, START) && Traced(cfg, START);
    TracedRun(cfg, START, moves);
  }

  // ---------------------------------------------------------------- where the scripts mark

  /** The place in its script at which a role completes a stage for its node. */
  function MarkPlace(n: Node, s: Stage): Option<nat> {
    match n
    case Leader => if s.InstancesReady? then Some(0) else if s.ServicesReady? then Some(10) else None
    case Follower(_) => if s.InstancesReady? then Some(0) else if s.ServicesReady? then Some(4) else None
    case Nss(_) => (
      match s
      case InstancesReady => Some(0)
      case NssConfigured => Some(5)
      case NssJournalReady => Some(12)
      case ServicesReady => Some(13)
      case _ => None)
    case Bss(_) => (
      match s
      case InstancesReady => Some(0)
      case EtcdNodesRegistered => Some(1)
      case BssConfigured => Some(6)
      case BssReady => Some(7)
      case ServicesReady => Some(8)
      case _ => None)
    case Gateway(_) => if s.InstancesReady? then Some(0) else if s.ServicesReady? then Some(5) else None
  }

  lemma MarksThere(cfg: Config, w: World, n: Node, i: nat, s: Stage)
    requires i < |Script(cfg, n)| && Marks(w, n, Script(cfg, n)[i], s)
    ensures MarkPlace(n, s) == Some(i)
    ensures s.EtcdNodesRegistered? ==> cfg.etcd
    ensures s.NssJournalReady? ==> Owns(w, n)
  {
    match n
    case Nss(_) => NssMarksThere(cfg, w, n, i, s);
    case Bss(_) => BssMarksThere(cfg, w, n, i, s);
    case _ =>
  }

  lemma NssMarksThere(cfg: Config, w: World, n: Node, i: nat, s: Stage)
    requires n.Nss? && i < |Script(cfg, n)| && Marks(w, n, Script(cfg, n)[i], s)
    ensures MarkPlace(n, s) == Some(i) && !s.EtcdNodesRegistered?
    ensures s.NssJournalReady? ==> Owns(w, n)
  {
  }

  lemma BssMarksThere(cfg: Config, w: World, n: Node, i: nat, s: Stage)
    requires n.Bss? && i < |Script(cfg, n)| && Marks(w, n, Script(cfg, n)[i], s)
    ensures MarkPlace(n, s) == Some(i) && !s.NssJournalReady?
    ensures s.EtcdNodesRegistered? ==> cfg.etcd
  {
  }

  /** A node that has marked a stage is past the place. */
  lemma MarkedIsPast(cfg: Config, w: World, n: Node, s: Stage)
    requires Traced(cfg, w) && n in Marked(w, s)
    ensures cfg.Has(n) && MarkPlace(n, s).Some? && MarkPlace(n, s).value < At(w, n)
    ensures s.EtcdNodesRegistered? ==> cfg.etcd
    ensures s.NssJournalReady? ==> Owns(w, n)
  {
    assert MarkedBy(cfg, w, n, s);
    var i :| 0 <= i < At(w, n) && i < |Script(cfg, n)| && Marks(w, n, Script(cfg, n)[i], s);
    MarksThere(cfg, w, n, i, s);
  }

  lemma SignalsThere(cfg: Config, w: World, n: Node, i: nat, s: Stage)
    requires i < |Script(cfg, n)| && Signals(w, n, Script(cfg, n)[i], s)
    ensures match s
            case EtcdReady => cfg.etcd && n.Bss? && i == ETCD_READY
            case RssInitialized => n.Leader? && i == 6
            case MetadataVgReady => n.Leader? && i == VG_READY
            case JournalFormatted => Owns(w, n) && i == 10
            case _ => false
  {
    match n
    case Nss(_) => NssSignalsThere(cfg, w, n, i, s);
    case Bss(_) => BssSignalsThere(cfg, w, n, i, s);
    case _ =>
  }

  lemma NssSignalsThere(cfg: Config, w: World, n: Node, i: nat, s: Stage)
    requires n.Nss? && i < |Script(cfg, n)| && Signals(w, n, Script(cfg, n)[i], s)
    ensures s.JournalFormatted? && Owns(w, n) && i == 10
  {
  }

  lemma BssSignalsThere(cfg: Config, w: World, n: Node, i: nat, s: Stage)
    requires n.Bss? && i < |Script(cfg, n)| && Signals(w, n, Script(cfg, n)[i], s)
    ensures s.EtcdReady? && cfg.etcd && i == ETCD_READY
  {
  }

  /** Who has signalled a global stage is past the place. */
  lemma SignalledIsPast(cfg: Config, w: World, s: Stage)
    requires Traced(cfg, w) && s in w.globals
    ensures match s
            case EtcdReady => true
            case RssInitialized => At(w, Leader) > 6
            case MetadataVgReady => At(w, Leader) > 7
            case JournalFormatted => w.owner.Some? && cfg.Has(Nss(w.owner.value)) && At(w, Nss(w.owner.value)) > 10
            case _ => false
  {
    var n :| SignalledBy(cfg, w, n, s);
    var i :| 0 <= i < At(w, n) && i < |Script(cfg, n)| && Signals(w, n, Script(cfg, n)[i], s);
    SignalsThere(cfg, w, n, i, s);
  }

  // ---------------------------------------------------------------- the declared dependencies

  /** A stage's declaration. */
  function Declared(s: Stage): StageGraph.StageDef {
    match s
    case InstancesReady => Stages.INSTANCES_READY
    case EtcdNodesRegistered => Stages.ETCD_NODES_REGISTERED
    case EtcdReady => Stages.ETCD_READY
    case RssInitialized => Stages.RSS_INITIALIZED
    case MetadataVgReady => Stages.METADATA_VG_READY
    case NssConfigured => Stages.NSS_CONFIGURED
    case BssConfigured => Stages.BSS_CONFIGURED
    case BssReady => Stages.BSS_READY
    case JournalFormatted => Stages.JOURNAL_FORMATTED
    case NssJournalReady => Stages.NSS_JOURNAL_READY
    case ServicesReady => Stages.SERVICES_READY
  }

  /** The stages a stage declares as its dependencies. */
  function Needs(s: Stage): set<Stage> {
    match s
    case InstancesReady => {}
    case EtcdNodesRegistered => {InstancesReady}
    case EtcdReady => {EtcdNodesRegistered}
    case RssInitialized => {EtcdReady}
    case MetadataVgReady => {RssInitialized}
    case NssConfigured => {RssInitialized}
    case BssConfigured => {RssInitialized}
    case BssReady => {BssConfigured}
    case JournalFormatted => {NssConfigured, MetadataVgReady, BssReady}
    case NssJournalReady => {JournalFormatted}
    case ServicesReady => {NssJournalReady, BssReady}
  }

  function Listed(s: Stage): nat {
    match s
    case InstancesReady => 0
    case EtcdNodesRegistered => 1
    case EtcdReady => 2
    case RssInitialized => 3
    case MetadataVgReady => 4
    case BssConfigured => 5
    case BssReady => 6
    case NssConfigured => 7
    case JournalFormatted => 8
    case NssJournalReady => 9
    case ServicesReady => 10
  }

  lemma DeclaredOnce(s: Stage, s': Stage)
    ensures Declared(s) == Stages.ALL_STAGES[Listed(s)]
    ensures Declared(s) == Declared(s') ==> s == s'
  {
    Stages.AllStagesUnique();
    assert Declared(s') == Stages.ALL_STAGES[Listed(s')];
  }

  lemma DeclaredAlone(s: Stage, x: Stage, d: Stage)
    requires Declared(s).dependsOn == [Declared(x)]
    ensures Declared(d) in Declared(s).dependsOn <==> d == x
  {
    DeclaredOnce(x, d);
  }

  lemma DeclaredTogether(s: Stage, x: Stage, y: Stage, z: Stage, d: Stage)
    requires Declared(s).dependsOn == [Declared(x), Declared(y)]
             || Declared(s).dependsOn == [Declared(x), Declared(y), Declared(z)]
    requires |Declared(s).dependsOn| == 2 ==> z == y
    ensures Declared(d) in Declared(s).dependsOn <==> d in {x, y, z}
  {
    DeclaredOnce(x, d);
    DeclaredOnce(y, d);
    DeclaredOnce(z, d);
  }

  /** Those are the declared ones. */
  lemma NeedsAreDeclared(s: Stage, d: Stage)
    ensures d in Needs(s) <==> Declared(d) in Declared(s).dependsOn
  {
    match s
    case InstancesReady =>
    case EtcdNodesRegistered => DeclaredAlone(s, InstancesReady, d);
    case EtcdReady => DeclaredAlone(s, EtcdNodesRegistered, d);
    case RssInitialized => DeclaredAlone(s, EtcdReady, d);
    case MetadataVgReady => DeclaredAlone(s, RssInitialized, d);
    case NssConfigured => DeclaredAlone(s, RssInitialized, d);
    case BssConfigured => DeclaredAlone(s, RssInitialized, d);
    case BssReady => DeclaredAlone(s, BssConfigured, d);
    case JournalFormatted => DeclaredTogether(s, NssConfigured, MetadataVgReady, BssReady, d);
    case NssJournalReady => DeclaredAlone(s, JournalFormatted, d);
    case ServicesReady => DeclaredTogether(s, NssJournalReady, BssReady, BssReady, d);
  }

  // ---------------------------------------------------------------- what stands behind a marker

  ghost predicate LeaderBacked(cfg: Config, w: World) {
    && Leader in w.registered
    && {RssInitialized, MetadataVgReady, JournalFormatted} <= w.globals && (cfg.etcd ==> EtcdReady in w.globals)
    && |Marked(w, NssJournalReady)| >= 1
    && (!cfg.etcd ==> |Registered(cfg, w)| >= cfg.leaderBss)
  }

  ghost predicate FollowerBacked(w: World, n: Node) {
    n in w.registered && RssInitialized in w.globals && exists id :: Nss(id) in w.registered
  }

  ghost predicate NssBacked(cfg: Config, w: World, n: Node, s: Stage) {
    && n in w.registered
    && RssInitialized in w.globals && (cfg.etcd ==> EtcdReady in w.globals)
    && |RootServersOf(w)| >= RootServers(cfg)
    && (!s.NssConfigured? ==> n in Marked(w, NssConfigured) && {MetadataVgReady, JournalFormatted} <= w.globals)
    && (s.NssJournalReady? ==> Owns(w, n) && n.id in w.formats)
    && (s.ServicesReady? && Owns(w, n) ==> n in Marked(w, NssJournalReady))
  }

  ghost predicate BssBacked(cfg: Config, w: World, n: Node, s: Stage) {
    && n in w.registered
    && (cfg.etcd ==> n in Marked(w, EtcdNodesRegistered) && EtcdReady in w.globals)
    && (!cfg.metaStackTesting ==> RssInitialized in w.globals)
    && (!s.BssConfigured? ==> n in Marked(w, BssConfigured))
    && (s.ServicesReady? ==> n in Marked(w, BssReady))
  }

  ghost predicate GatewayBacked(cfg: Config, w: World, n: Node) {
    && n in w.registered && RssInitialized in w.globals
    && |Marked(w, NssJournalReady)| >= 1 && |RootServersOf(w)| >= RootServers(cfg)
  }

  /** What a node that has marked a stage must have seen and done. */
  ghost predicate Backed(cfg: Config, w: World, n: Node, s: Stage) {
    && n in Marked(w, InstancesReady)
    && (s.InstancesReady? || s.EtcdNodesRegistered? ||
        match n
        case Leader => LeaderBacked(cfg, w)
        case Follower(_) => FollowerBacked(w, n)
        case Nss(_) => NssBacked(cfg, w, n, s)
        case Bss(_) => BssBacked(cfg, w, n, s)
        case Gateway(_) => GatewayBacked(cfg, w, n))
  }

  lemma LeaderIsBacked(cfg: Config, w: World)
    requires Past(cfg, w) && At(w, Leader) > 10
    ensures LeaderBacked(cfg, w)
  {
    PastHolds(cfg, w, Leader, 1);
    PastHolds(cfg, w, Leader, 3);
    PastHolds(cfg, w, Leader, 5);
    PastHolds(cfg, w, Leader, 6);
    PastHolds(cfg, w, Leader, 7);
    PastHolds(cfg, w, Leader, 8);
    PastHolds(cfg, w, Leader, 9);
  }

  lemma FollowerIsBacked(cfg: Config, w: World, n: Node)
    requires Past(cfg, w) && cfg.Has(n) && n.Follower? && At(w, n) > 4
    ensures FollowerBacked(w, n)
  {
    PastHolds(cfg, w, n, 1);
    PastHolds(cfg, w, n, 2);
    PastHolds(cfg, w, n, 3);
  }

  lemma NssWasConfigured(cfg: Config, w: World, n: Node)
    requires Past(cfg, w) && cfg.Has(n) && n.Nss? && At(w, n) > 5
    ensures NssBacked(cfg, w, n, NssConfigured) && n in Marked(w, NssConfigured)
  {
    if cfg.etcd {
      PastHolds(cfg, w, n, 1);
    }
    PastHolds(cfg, w, n, 2);
    PastHolds(cfg, w, n, 3);
    PastHolds(cfg, w, n, 4);
    PastHolds(cfg, w, n, 5);
  }

  lemma NssHasJournal(cfg: Config, w: World, n: Node)
    requires Past(cfg, w) && cfg.Has(n) && n.Nss? && At(w, n) > 12
    ensures {MetadataVgReady, JournalFormatted} <= w.globals
    ensures Owns(w, n) ==> n.id in w.formats && n in Marked(w, NssJournalReady)
  {
    PastHolds(cfg, w, n, 6);
    PastHolds(cfg, w, n, 9);
    PastHolds(cfg, w, n, 10);
    PastHolds(cfg, w, n, 11);
    PastHolds(cfg, w, n, 12);
  }

  lemma NssIsBacked(cfg: Config, w: World, n: Node, s: Stage)
    requires Past(cfg, w) && cfg.Has(n) && n.Nss?
    requires MarkPlace(n, s).Some? && 5 <= MarkPlace(n, s).value < At(w, n)
    requires s.NssJournalReady? ==> Owns(w, n)
    ensures NssBacked(cfg, w, n, s)
  {
    NssWasConfigured(cfg, w, n);
    if !s.NssConfigured? {
      NssHasJournal(cfg, w, n);
    }
  }

  lemma BssIsBacked(cfg: Config, w: World, n: Node, s: Stage)
    requires Past(cfg, w) && cfg.Has(n) && n.Bss? && MarkPlace(n, s).Some? && 6 <= MarkPlace(n, s).value < At(w, n)
    ensures BssBacked(cfg, w, n, s)
  {
    if cfg.etcd {
      PastHolds(cfg, w, n, 1);
      PastHolds(cfg, w, n, 3);
    }
    if !cfg.metaStackTesting {
      PastHolds(cfg, w, n, 5);
    }
    PastHolds(cfg, w, n, 4);
    PastHolds(cfg, w, n, 6);
    if !s.BssConfigured? {
      PastHolds(cfg, w, n, 7);
    }
  }

  lemma GatewayIsBacked(cfg: Config, w: World, n: Node)
    requires Past(cfg, w) && cfg.Has(n) && n.Gateway? && At(w, n) > 5
    ensures GatewayBacked(cfg, w, n)
  {
    PastHolds(cfg, w, n, 1);
    PastHolds(cfg, w, n, 2);
    PastHolds(cfg, w, n, 3);
    PastHolds(cfg, w, n, 4);
  }

  lemma TracedIsBacked(cfg: Config, w: World, n: Node, s: Stage)
    requires Past(cfg, w) && Traced(cfg, w) && n in Marked(w, s)
    ensures cfg.Has(n) && MarkPlace(n, s).Some? && Backed(cfg, w, n, s)
  {
    MarkedIsPast(cfg, w, n, s);
    PastHolds(cfg, w, n, 0);
    if !s.InstancesReady? && !s.EtcdNodesRegistered? {
      match n
      case Leader => LeaderIsBacked(cfg, w);
      case Follower(_) => FollowerIsBacked(cfg, w, n);
      case Nss(_) => NssIsBacked(cfg, w, n, s);
      case Bss(_) => BssIsBacked(cfg, w, n, s);
      case Gateway(_) => GatewayIsBacked(cfg, w, n);
    }
  }

  /** In every reachable state each marker is backed, and only roles that complete a stage have marked it. */
  lemma MarkersAreBacked(cfg: Config, w: World, n: Node, s: Stage)
    requires Reachable(cfg, w) && n in Marked(w, s)
    ensures cfg.Has(n) && MarkPlace(n, s).Some? && Backed(cfg, w, n, s)
  {
    ReachableIsTraced(cfg, w);
    TracedIsBacked(cfg, w, n, s);
  }

  // ---------------------------------------------------------------- stages come after their dependencies

  predicate IsGlobal(s: Stage) {
    s.EtcdReady? || s.RssInitialized? || s.MetadataVgReady? || s.JournalFormatted?
  }

  lemma ScopeIsDeclared(s: Stage)
    ensures IsGlobal(s) <==> Declared(s).isGlobal
  {
  }

  /** Someone has completed the stage. */
  predicate Reached(w: World, s: Stage) {
    if IsGlobal(s) then s in w.globals else Marked(w, s) != {}
  }

  /** Where a role goes on without a stage that the one it completes declares as a dependency. */
  ghost predicate Exempt(cfg: Config, w: World, n: Node, s: Stage, d: Stage) {
    || (s.BssConfigured? && d.RssInitialized? && cfg.metaStackTesting)
    || (s.ServicesReady? && d.NssJournalReady? && (n.Follower? || n.Bss? || (n.Nss? && !Owns(w, n))))
    || (s.ServicesReady? && d.BssReady? && (n.Follower? || (cfg.ownerBss == 0 && !n.Bss?)))
  }

  /** A global stage is exempt if what it waits for is not part of the configuration. */
  ghost predicate ExemptGlobal(cfg: Config, s: Stage, d: Stage) {
    || (s.RssInitialized? && d.EtcdReady? && !cfg.etcd)
    || (s.JournalFormatted? && d.BssReady? && cfg.ownerBss == 0)
  }

  lemma LeaderWaited(cfg: Config, w: World)
    requires Past(cfg, w) && At(w, Leader) > 6
    ensures RssInitialized in w.globals && (cfg.etcd ==> EtcdReady in w.globals)
  {
    PastHolds(cfg, w, Leader, 1);
    PastHolds(cfg, w, Leader, 6);
  }

  lemma SignalIsBacked(cfg: Config, w: World, s: Stage, d: Stage)
    requires Past(cfg, w) && Traced(cfg, w) && GlobalsOk(cfg, w) && s in w.globals && d in Needs(s)
    ensures IsGlobal(s) && (Reached(w, d) || ExemptGlobal(cfg, s, d))
  {
    SignalledIsPast(cfg, w, s);
    if s.RssInitialized? || s.MetadataVgReady? {
      LeaderWaited(cfg, w);
    } else if s.JournalFormatted? {
      JournalIsBacked(cfg, w, Nss(w.owner.value), d);
    }
  }

  lemma JournalIsBacked(cfg: Config, w: World, n: Node, d: Stage)
    requires Past(cfg, w) && cfg.Has(n) && Owns(w, n) && At(w, n) > 10 && d in Needs(JournalFormatted)
    ensures Reached(w, d) || ExemptGlobal(cfg, JournalFormatted, d)
  {
    match d
    case NssConfigured => PastHolds(cfg, w, n, 5);
    case MetadataVgReady => PastHolds(cfg, w, n, 6);
    case BssReady => PastHolds(cfg, w, n, 8);
  }

  /** A marker of a name server shows that the journal's dependencies are there. */
  lemma JournalBehind(cfg: Config, w: World, n: Node)
    requires Reachable(cfg, w) && n in Marked(w, NssJournalReady)
    ensures JournalFormatted in w.globals
  {
    MarkersAreBacked(cfg, w, n, NssJournalReady);
  }

  lemma ServicesShowJournal(cfg: Config, w: World, n: Node)
    requires Reachable(cfg, w) && n in Marked(w, ServicesReady) && !n.Follower? && !n.Bss?
    ensures JournalFormatted in w.globals
    ensures Marked(w, NssJournalReady) != {} || (n.Nss? && !Owns(w, n))
  {
    MarkersAreBacked(cfg, w, n, ServicesReady);
    if n.Gateway? {
      var m :| m in Marked(w, NssJournalReady);
      JournalBehind(cfg, w, m);
    }
  }

  lemma StorageBehindJournal(cfg: Config, w: World)
    requires Reachable(cfg, w) && JournalFormatted in w.globals
    ensures Marked(w, BssReady) != {} || cfg.ownerBss == 0
  {
    BarrierTheorems.FormattedOnce(cfg, w);
    if cfg.ownerBss > 0 {
      var id :| id in BarrierTheorems.StorageAt(cfg, w, BssReady);
      assert Bss(id) in Marked(w, BssReady);
    }
  }

  lemma ServicesReach(cfg: Config, w: World, n: Node, d: Stage)
    requires d in Needs(ServicesReady) && (n.Bss? ==> n in Marked(w, BssReady))
    requires !n.Follower? && !n.Bss? ==> Marked(w, BssReady) != {} || cfg.ownerBss == 0
    requires !n.Follower? && !n.Bss? ==> Marked(w, NssJournalReady) != {} || (n.Nss? && !Owns(w, n))
    ensures Reached(w, d) || Exempt(cfg, w, n, ServicesReady, d)
  {
  }

  lemma ServicesAreBacked(cfg: Config, w: World, n: Node, d: Stage)
    requires Reachable(cfg, w) && n in Marked(w, ServicesReady) && d in Needs(ServicesReady)
    ensures Reached(w, d) || Exempt(cfg, w, n, ServicesReady, d)
  {
    if n.Bss? {
      MarkersAreBacked(cfg, w, n, ServicesReady);
    } else if !n.Follower? {
      ServicesShowJournal(cfg, w, n);
      StorageBehindJournal(cfg, w);
    }
    ServicesReach(cfg, w, n, d);
  }

  lemma MarkIsBacked(cfg: Config, w: World, n: Node, s: Stage, d: Stage)
    requires n in Marked(w, s) && MarkPlace(n, s).Some? && Backed(cfg, w, n, s) && d in Needs(s) && !s.ServicesReady?
    ensures !IsGlobal(s) && (Reached(w, d) || Exempt(cfg, w, n, s, d))
  {
  }

  /**
   In every reachable state a completed stage has the scope it is declared with, and every stage it declares
   as a dependency was completed too, except where a role is exempt.
   */
  lemma DependenciesComeFirst(cfg: Config, w: World, s: Stage, d: Stage)
    requires Reachable(cfg, w) && Declared(d) in Declared(s).dependsOn
    ensures s in w.globals ==> Declared(s).isGlobal && (Reached(w, d) || ExemptGlobal(cfg, s, d))
    ensures forall n | n in Marked(w, s) :: !Declared(s).isGlobal && (Reached(w, d) || Exempt(cfg, w, n, s, d))
  {
    NeedsAreDeclared(s, d);
    ScopeIsDeclared(s);
    if s in w.globals {
      ReachableIsTraced(cfg, w);
      SignalIsBacked(cfg, w, s, d);
    }
    forall n | n in Marked(w, s)
      ensures !Declared(s).isGlobal && (Reached(w, d) || Exempt(cfg, w, n, s, d))
    {
      if s.ServicesReady? {
        ServicesAreBacked(cfg, w, n, d);
      } else {
        MarkersAreBacked(cfg, w, n, s);
        MarkIsBacked(cfg, w, n, s, d);
      }
    }
  }

  // ---------------------------------------------------------------- storage nodes that run ahead

  /** The storage node stands at this place of its script, and the root servers are not initialized. */
  predicate RunsAhead(w: World, id: nat, place: nat) {
    !w.failed && At(w, Bss(id)) == place && RssInitialized !in w.globals
  }

  /** Up to its configuration, nothing but etcd holds such a node up. */
  lemma AheadAction(cfg: Config, id: nat, place: nat) returns (a: Action)
    requires cfg.metaStackTesting && place < 7 && (cfg.etcd ==> place >= 4)
    ensures place < |Script(cfg, Bss(id))| && a == Script(cfg, Bss(id))[place]
    ensures a.Skip? || a.Register? || a.MarkNode?
  {
    a := Script(cfg, Bss(id))[place];
  }

  lemma AheadTook(w: World, id: nat, a: Action, place: nat)
    requires RunsAhead(w, id, place) && (a.Skip? || a.Register? || a.MarkNode?)
    ensures RunsAhead(Took(w, Bss(id), a, 0), id, place + 1)
  {
  }

  lemma AheadStep(cfg: Config, w: World, id: nat, place: nat) returns (w': World)
    requires Reachable(cfg, w) && id in cfg.bss && cfg.metaStackTesting && RunsAhead(w, id, place)
    requires place < 7 && (cfg.etcd ==> place >= 4)
    ensures Reachable(cfg, w') && RunsAhead(w', id, place + 1)
  {
    var a := AheadAction(cfg, id, place);
    AheadTook(w, id, a, place);
    w' := BarrierTheorems.Takes(cfg, w, Bss(id), a, 0);
  }

  lemma {:induction false} AheadRun(cfg: Config, w: World, id: nat, place: nat) returns (w': World)
    requires Reachable(cfg, w) && id in cfg.bss && cfg.metaStackTesting && RunsAhead(w, id, place)
    requires place <= 7 && (cfg.etcd ==> place >= 4)
    ensures Reachable(cfg, w') && RunsAhead(w', id, 7)
    decreases 7 - place
  {
    if place == 7 {
      w' := w;
    } else {
      w' := AheadStep(cfg, w, id, place);
      w' := AheadRun(cfg, w', id, place + 1);
    }
  }

  /** The storage node has completed its configuration before the root servers were initialized. */
  ghost predicate ConfiguredEarly(cfg: Config, w: World, id: nat) {
    Reachable(cfg, w) && Bss(id) in Marked(w, BssConfigured) && RssInitialized !in w.globals
  }

  lemma EtcdNeedsNodes(cfg: Config, w: World)
    requires Reachable(cfg, w) && EtcdReady in w.globals
    ensures |cfg.bss| >= cfg.clusterSize
  {
    ReachableIsSound(cfg, w);
    BarrierTheorems.NodesAreIds(Marked(w, EtcdNodesRegistered), cfg.bss);
    SubsetSize(BarrierTheorems.StorageAt(cfg, w, EtcdNodesRegistered), cfg.bss);
  }

  lemma EtcdFormsAhead(cfg: Config, id: nat) returns (w: World)
    requires cfg.etcd && id in cfg.bss && |cfg.bss| >= cfg.clusterSize
    ensures Reachable(cfg, w) && RunsAhead(w, id, 4)
  {
    w := BarrierTheorems.TheseRegister(cfg, cfg.bss);
    BarrierTheorems.AsManyNodes(Marked(w, EtcdNodesRegistered), cfg.bss);
    assert At(w, Bss(id)) == 2 && At(w, Leader) == 0;
    NoSignalYet(cfg, w);
    BarrierTheorems.ClusterSteps(cfg, id);
    var wait, mark := AwaitNodes(EtcdNodesRegistered, cfg.clusterSize), MarkGlobal(EtcdReady);
    w := BarrierTheorems.TakesLater(cfg, w, Bss(id), wait, mark, 0);
  }

  lemma NoSignalYet(cfg: Config, w: World)
    requires Reachable(cfg, w) && At(w, Leader) == 0
    ensures RssInitialized !in w.globals
  {
    ReachableIsTraced(cfg, w);
    if RssInitialized in w.globals {
      SignalledIsPast(cfg, w, RssInitialized);
    }
  }

  lemma AheadIsConfigured(cfg: Config, w: World, id: nat)
    requires Reachable(cfg, w) && id in cfg.bss && RunsAhead(w, id, 7)
    ensures ConfiguredEarly(cfg, w, id)
  {
    ReachableIsSound(cfg, w);
    PastHolds(cfg, w, Bss(id), 6);
  }

  /**
   The one exemption that is a matter of configuration: a storage node can be configured before the root
   servers are initialized exactly if the deployment tests the metadata stack and any etcd cluster can form.
   */
  lemma ConfiguredEarlyIff(cfg: Config, id: nat)
    requires id in cfg.bss
    ensures (exists w :: ConfiguredEarly(cfg, w, id)) <==>
              cfg.metaStackTesting && (cfg.etcd ==> |cfg.bss| >= cfg.clusterSize)
  {
    if w :| ConfiguredEarly(cfg, w, id) {
      MarkersAreBacked(cfg, w, Bss(id), BssConfigured);
      if cfg.etcd {
        EtcdNeedsNodes(cfg, w);
      }
    }
    if cfg.metaStackTesting && (cfg.etcd ==> |cfg.bss| >= cfg.clusterSize) {
      var w := START;
      if cfg.etcd {
        w := EtcdFormsAhead(cfg, id);
      } else {
        BarrierTheorems.StartIsReachable(cfg);
      }
      w := AheadRun(cfg, w, id, if cfg.etcd then 4 else 0);
      AheadIsConfigured(cfg, w, id);
    }
  }
}
