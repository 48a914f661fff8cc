/**
 The bootstrap barrier: every node of a new cluster runs its role's script of "complete a stage" and "wait
 for a stage" steps over a grow-only store of completion markers, with any number of nodes and any
 interleaving.  Each node runs once and waits without a time limit.
 */
module Barrier {
  import opened Options

  datatype Node = Leader | Follower(id: nat) | Nss(id: nat) | Bss(id: nat) | Gateway(id: nat)

  datatype Stage =
    | InstancesReady
    | EtcdNodesRegistered
    | EtcdReady
    | RssInitialized
    | MetadataVgReady
    | NssConfigured
    | BssConfigured
    | BssReady
    | JournalFormatted
    | NssJournalReady
    | ServicesReady

  datatype Config = Config(
    etcd: bool,
    clusterSize: nat,
    leaderBss: nat,
    ownerBss: nat,
    metaStackTesting: bool,
    rssHa: bool,
    followers: set<nat>,
    nss: set<nat>,
    bss: set<nat>,
    gateways: set<nat>)
  {
    ghost predicate Has(n: Node) {
      match n
      case Leader => true
      case Follower(id) => id in followers
      case Nss(id) => id in nss
      case Bss(id) => id in bss
      case Gateway(id) => id in gateways
    }
  }

  /** One step of a script; the last two kinds depend on who owns the journal. */
  datatype Action =
    | Skip
    | MarkGlobal(stage: Stage)
    | MarkNode(stage: Stage)
    | AwaitGlobal(stage: Stage)
    | AwaitNodes(stage: Stage, count: nat)
    | Register
    | AwaitBssServices(count: nat)
    | AwaitRssServices(count: nat)
    | CheckEtcdNodes(count: nat)
    | LookUpNss
    | ResolveNss
    | PublishOwner
    | AsOwner(owned: OwnerAction)
    | AsIdle(stage: Stage)

  datatype OwnerAction =
    | OwnerAwaits(stage: Stage, count: nat)
    | Format
    | OwnerMarks(stage: Stage)
    | OwnerMarksNode(stage: Stage)

  /** How many root servers the configuration of their clients has to name. */
  function RootServers(cfg: Config): nat {
    if cfg.rssHa then 2 else 1
  }

  function If(b: bool, a: Action): Action {
    if b then a else Skip
  }

  function Script(cfg: Config, n: Node): seq<Action> {
    match n
    case Leader => [
      MarkNode(InstancesReady),
      If(cfg.etcd, AwaitGlobal(EtcdReady)),
      ResolveNss,
      if cfg.etcd then CheckEtcdNodes(cfg.leaderBss) else AwaitBssServices(cfg.leaderBss),
      PublishOwner,
      Register,
      MarkGlobal(RssInitialized),
      MarkGlobal(MetadataVgReady),
      AwaitGlobal(JournalFormatted),
      AwaitNodes(NssJournalReady, 1),
      MarkNode(ServicesReady)]
    case Follower(_) => [
      MarkNode(InstancesReady),
      AwaitGlobal(RssInitialized),
      LookUpNss,
      Register,
      MarkNode(ServicesReady)]
    case Nss(_) => [
      MarkNode(InstancesReady),
      If(cfg.etcd, AwaitGlobal(EtcdReady)),
      Register,
      AwaitGlobal(RssInitialized),
      AwaitRssServices(RootServers(cfg)),
      MarkNode(NssConfigured),
      AwaitGlobal(MetadataVgReady),
      AsOwner(OwnerAwaits(BssConfigured, cfg.ownerBss)),
      AsOwner(OwnerAwaits(BssReady, cfg.ownerBss)),
      AsOwner(Format),
      AsOwner(OwnerMarks(JournalFormatted)),
      AsIdle(JournalFormatted),
      AsOwner(OwnerMarksNode(NssJournalReady)),
      MarkNode(ServicesReady)]
    case Bss(_) => [
      MarkNode(InstancesReady),
      If(cfg.etcd, MarkNode(EtcdNodesRegistered)),
      If(cfg.etcd, AwaitNodes(EtcdNodesRegistered, cfg.clusterSize)),
      If(cfg.etcd, MarkGlobal(EtcdReady)),
      Register,
      If(!cfg.metaStackTesting, AwaitGlobal(RssInitialized)),
      MarkNode(BssConfigured),
      MarkNode(BssReady),
      MarkNode(ServicesReady)]
    case Gateway(_) => [
      MarkNode(InstancesReady),
      AwaitGlobal(RssInitialized),
      AwaitNodes(NssJournalReady, 1),
      AwaitRssServices(RootServers(cfg)),
      Register,
      MarkNode(ServicesReady)]
  }

  const RESOLVE: nat := 2
  const PUBLISH: nat := 4
  const ETCD_READY: nat := 3
  const VG_READY: nat := 7
  const FORMAT: nat := 9

  datatype World = World(
    pc: map<Node, nat>,
    globals: set<Stage>,
    marks: map<Stage, set<Node>>,
    registered: set<Node>,
    resolved: Option<nat>,
    owner: Option<nat>,
    formats: seq<nat>,
    failed: bool)

  function Marked(w: World, s: Stage): set<Node> {
    if s in w.marks then w.marks[s] else {}
  }

  function At(w: World, n: Node): nat {
    if n in w.pc then w.pc[n] else 0
  }

  function Registered(cfg: Config, w: World): set<nat> {
    set id | id in cfg.bss && Bss(id) in w.registered
  }

  function RootServersOf(w: World): set<Node> {
    set n | n in w.registered && (n.Leader? || n.Follower?)
  }

  /** The journal's owner is the name server the journal configuration names. */
  predicate Owns(w: World, n: Node) {
    n.Nss? && w.owner == Some(n.id)
  }

  /** A step's condition; `pick` is the node a lookup happens to return. */
  predicate Ready(cfg: Config, w: World, n: Node, a: Action, pick: nat) {
    match a
    case AwaitGlobal(s) => s in w.globals
    case AwaitNodes(s, count) => |Marked(w, s)| >= count
    case AwaitBssServices(count) => |Registered(cfg, w)| >= count
    case AwaitRssServices(count) => |RootServersOf(w)| >= count
    case LookUpNss => Nss(pick) in w.registered
    case ResolveNss => Nss(pick) in w.registered
    case PublishOwner => w.resolved.Some?
    case AsOwner(OwnerAwaits(s, count)) => w.owner.Some? && (Owns(w, n) ==> |Marked(w, s)| >= count)
    case AsOwner(_) => w.owner.Some?
    case AsIdle(s) => w.owner.Some? && (Owns(w, n) || s in w.globals)
    case _ => true
  }

  function MarkFor(w: World, s: Stage, n: Node): World {
    w.(marks := w.marks[s := Marked(w, s) + {n}])
  }

  function Effect(w: World, n: Node, a: Action, pick: nat): World {
    match a
    case MarkGlobal(s) => w.(globals := w.globals + {s})
    case MarkNode(s) => MarkFor(w, s, n)
    case Register => w.(registered := w.registered + {n})
    case CheckEtcdNodes(count) => w.(failed := w.failed || |Marked(w, EtcdNodesRegistered)| < count)
    case ResolveNss => w.(resolved := Some(pick))
    case PublishOwner => w.(owner := w.resolved)
    case AsOwner(Format) => if Owns(w, n) then w.(formats := w.formats + [n.id]) else w
    case AsOwner(OwnerMarks(s)) => if Owns(w, n) then w.(globals := w.globals + {s}) else w
    case AsOwner(OwnerMarksNode(s)) => if Owns(w, n) then MarkFor(w, s, n) else w
    case _ => w
  }

  function Took(w: World, n: Node, a: Action, pick: nat): World {
    Effect(w, n, a, pick).(pc := w.pc[n := At(w, n) + 1])
  }

  /** A node that has not come to its end; a leader that found too few storage nodes has stopped for good. */
  predicate Running(cfg: Config, w: World, n: Node) {
    At(w, n) < |Script(cfg, n)| && !(n.Leader? && w.failed)
  }

  ghost predicate Can(cfg: Config, w: World, n: Node, pick: nat) {
    cfg.Has(n) && Running(cfg, w, n) && Ready(cfg, w, n, Script(cfg, n)[At(w, n)], pick)
  }

  function Do(cfg: Config, w: World, n: Node, pick: nat): World
    requires Running(cfg, w, n)
  {
    Took(w, n, Script(cfg, n)[At(w, n)], pick)
  }

  const START: World := World(map[], {}, map[], {}, None, None, [], false)

  datatype Move = Move(node: Node, pick: nat)

  ghost predicate CanRun(cfg: Config, w: World, moves: seq<Move>)
    decreases |moves|
  {
    moves == [] || (Can(cfg, w, moves[0].node, moves[0].pick) &&
                    CanRun(cfg, Do(cfg, w, moves[0].node, moves[0].pick), moves[1..]))
  }

  ghost function After(cfg: Config, w: World, moves: seq<Move>): World
    requires CanRun(cfg, w, moves)
    decreases |moves|
  {
    if moves == [] then w else After(cfg, Do(cfg, w, moves[0].node, moves[0].pick), moves[1..])
  }

  ghost predicate Reachable(cfg: Config, w: World) {
    exists moves :: CanRun(cfg, START, moves) && After(cfg, START, moves) == w
  }
}
