/** What every step of the bootstrap keeps. */
module BarrierInvariant {
  import opened Options
  import opened Sets
  import opened Barrier

  /** What a step that was taken left behind or found. */
  ghost predicate Holds(cfg: Config, w: World, n: Node, a: Action) {
    match a
    case MarkGlobal(s) => s in w.globals
    case AwaitGlobal(s) => s in w.globals
    case MarkNode(s) => n in Marked(w, s)
    case AwaitNodes(s, count) => |Marked(w, s)| >= count
    case Register => n in w.registered
    case AwaitBssServices(count) => |Registered(cfg, w)| >= count
    case AwaitRssServices(count) => |RootServersOf(w)| >= count
    case CheckEtcdNodes(count) => w.failed || |Marked(w, EtcdNodesRegistered)| >= count
    case LookUpNss => exists id :: Nss(id) in w.registered
    case ResolveNss => w.resolved.Some? && Nss(w.resolved.value) in w.registered
    case PublishOwner => w.owner.Some? && w.owner == w.resolved
    case AsOwner(o) => w.owner.Some? && (Owns(w, n) ==> HoldsOwned(w, n, o))
    case AsIdle(s) => w.owner.Some? && (Owns(w, n) || s in w.globals)
    case _ => true
  }

  ghost predicate HoldsOwned(w: World, n: Node, o: OwnerAction) {
    match o
    case OwnerAwaits(s, count) => |Marked(w, s)| >= count
    case Format => n.Nss? && n.id in w.formats
    case OwnerMarks(s) => s in w.globals
    case OwnerMarksNode(s) => n in Marked(w, s)
  }

  /** Markers, registrations and the journal's owner are only ever added. */
  ghost predicate Grows(w: World, w': World) {
    && w.globals <= w'.globals
    && (forall s :: Marked(w, s) <= Marked(w', s))
    && w.registered <= w'.registered
    && (w.resolved.Some? ==> w'.resolved == w.resolved)
    && (w.owner.Some? ==> w'.owner == w.owner)
    && w.formats <= w'.formats
    && (w.failed ==> w'.failed)
  }

  lemma HoldsKept(cfg: Config, w: World, w': World, n: Node, a: Action)
    requires Grows(w, w') && Holds(cfg, w, n, a)
    ensures Holds(cfg, w', n, a)
  {
    match a
    case AwaitNodes(s, _) => SubsetSize(Marked(w, s), Marked(w', s));
    case AwaitBssServices(_) => SubsetSize(Registered(cfg, w), Registered(cfg, w'));
    case AwaitRssServices(_) => SubsetSize(RootServersOf(w), RootServersOf(w'));
    case CheckEtcdNodes(_) => SubsetSize(Marked(w, EtcdNodesRegistered), Marked(w', EtcdNodesRegistered));
    case AsOwner(OwnerAwaits(s, _)) => SubsetSize(Marked(w, s), Marked(w', s));
    case _ =>
  }

  lemma EffectHolds(cfg: Config, w: World, n: Node, a: Action, pick: nat)
    requires Ready(cfg, w, n, a, pick)
    ensures Holds(cfg, Effect(w, n, a, pick), n, a)
  {
  }

  ghost predicate PastIn(cfg: Config, w: World, n: Node, script: seq<Action>) {
    At(w, n) <= |script| && forall i | 0 <= i < At(w, n) :: Holds(cfg, w, n, script[i])
  }

  ghost predicate PastAt(cfg: Config, w: World, n: Node) {
    PastIn(cfg, w, n, Script(cfg, n))
  }

  ghost predicate Past(cfg: Config, w: World) {
    forall n :: cfg.Has(n) ==> PastAt(cfg, w, n)
  }

  /** Only the leader names an owner, once, among the name servers. */
  ghost predicate OwnerOk(cfg: Config, w: World) {
    && (w.resolved.Some? <==> At(w, Leader) > RESOLVE)
    && (w.owner.Some? <==> At(w, Leader) > PUBLISH)
    && (w.resolved.Some? ==> w.resolved.value in cfg.nss)
    && (w.owner.Some? ==> w.owner == w.resolved)
    && (forall n | n in w.registered :: cfg.Has(n))
    && (forall n | n in w.pc :: cfg.Has(n))
  }

  /** Who has formatted the journal, exactly. */
  ghost predicate FormatsOk(w: World) {
    w.formats == if w.owner.Some? && At(w, Nss(w.owner.value)) > FORMAT then [w.owner.value] else []
  }

  /** Storage stages are marked by storage nodes alone. */
  ghost predicate StorageOk(cfg: Config, w: World) {
    && (forall n | n in Marked(w, BssConfigured) :: n.Bss? && cfg.Has(n))
    && (forall n | n in Marked(w, BssReady) :: n.Bss? && cfg.Has(n))
    && (forall n | n in Marked(w, EtcdNodesRegistered) :: n.Bss? && cfg.Has(n))
  }

  ghost predicate EtcdFormed(cfg: Config, w: World) {
    |Marked(w, EtcdNodesRegistered)| >= cfg.clusterSize && Marked(w, EtcdNodesRegistered) != {}
  }

  /** The leader signals the metadata volumes; a formed etcd cluster is what readiness means. */
  ghost predicate GlobalsOk(cfg: Config, w: World) {
    && (MetadataVgReady in w.globals ==> At(w, Leader) > VG_READY)
    && (EtcdReady in w.globals ==> EtcdFormed(cfg, w))
    && (JournalFormatted in w.globals ==> w.formats != [])
  }

  ghost predicate Inv(cfg: Config, w: World) {
    Past(cfg, w) && OwnerOk(cfg, w) && FormatsOk(w) && StorageOk(cfg, w) && GlobalsOk(cfg, w)
  }

  /** Where in which script the telling actions are. */
  ghost predicate Placed(cfg: Config, n: Node, i: nat, a: Action) {
    && (a.ResolveNss? <==> n.Leader? && i == RESOLVE)
    && (a.PublishOwner? <==> n.Leader? && i == PUBLISH)
    && (a == AsOwner(Format) <==> n.Nss? && i == FORMAT)
    && (a == MarkGlobal(MetadataVgReady) ==> n.Leader? && i == VG_READY)
    && (a == MarkGlobal(EtcdReady) ==> cfg.etcd && n.Bss? && i == ETCD_READY)
    && (a.MarkNode? && a.stage in {BssConfigured, BssReady, EtcdNodesRegistered} ==> n.Bss?)
    && (a.AsOwner? && a.owned.OwnerMarks? ==> a.owned.stage == JournalFormatted && i == FORMAT + 1)
    && a != MarkGlobal(JournalFormatted)
    && (a.AsOwner? && a.owned.OwnerMarksNode? ==> a.owned.stage == NssJournalReady)
    && (a.AsOwner? ==> n.Nss?)
    && (a.CheckEtcdNodes? ==> cfg.etcd && n.Leader? && i + 1 == PUBLISH && a.count == cfg.leaderBss)
  }

  lemma ScriptPlaces(cfg: Config, n: Node, i: nat)
    requires i < |Script(cfg, n)|
    ensures Placed(cfg, n, i, Script(cfg, n)[i])
  {
    match n
    case Leader => LeaderPlaces(cfg, i);
    case Nss(_) => NssPlaces(cfg, n, i);
    case Bss(_) => BssPlaces(cfg, n, i);
    case _ => OtherPlaces(cfg, n, i);
  }

  lemma LeaderPlaces(cfg: Config, i: nat)
    requires i < |Script(cfg, Leader)|
    ensures Placed(cfg, Leader, i, Script(cfg, Leader)[i])
  {
  }

  lemma NssPlaces(cfg: Config, n: Node, i: nat)
    requires n.Nss? && i < |Script(cfg, n)|
    ensures Placed(cfg, n, i, Script(cfg, n)[i])
  {
  }

  lemma BssPlaces(cfg: Config, n: Node, i: nat)
    requires n.Bss? && i < |Script(cfg, n)|
    ensures Placed(cfg, n, i, Script(cfg, n)[i])
  {
  }

  lemma OtherPlaces(cfg: Config, n: Node, i: nat)
    requires (n.Follower? || n.Gateway?) && i < |Script(cfg, n)|
    ensures Placed(cfg, n, i, Script(cfg, n)[i])
  {
  }

  lemma TookGrows(cfg: Config, w: World, n: Node, a: Action, pick: nat)
    requires OwnerOk(cfg, w) && Placed(cfg, n, At(w, n), a)
    ensures Grows(w, Took(w, n, a, pick))
  {
  }

  lemma TookPast(cfg: Config, w: World, n: Node, a: Action, pick: nat, m: Node, script: seq<Action>)
    requires OwnerOk(cfg, w) && Placed(cfg, n, At(w, n), a) && Ready(cfg, w, n, a, pick)
    requires PastIn(cfg, w, m, script) && (n == m ==> At(w, n) < |script| && a == script[At(w, n)])
    ensures PastIn(cfg, Took(w, n, a, pick), m, script)
  {
    var w' := Took(w, n, a, pick);
    TookGrows(cfg, w, n, a, pick);
    EffectHolds(cfg, w, n, a, pick);
    HoldsKept(cfg, Effect(w, n, a, pick), w', n, a);
    forall i | 0 <= i < At(w', m)
      ensures Holds(cfg, w', m, script[i])
    {
      if i < At(w, m) {
        HoldsKept(cfg, w, w', m, script[i]);
      }
    }
  }

  lemma TookOwner(cfg: Config, w: World, n: Node, a: Action, pick: nat)
    requires OwnerOk(cfg, w) && cfg.Has(n) && Placed(cfg, n, At(w, n), a) && Ready(cfg, w, n, a, pick)
    ensures OwnerOk(cfg, Took(w, n, a, pick))
  {
  }

  lemma TookFormats(cfg: Config, w: World, n: Node, a: Action, pick: nat)
    requires OwnerOk(cfg, w) && FormatsOk(w) && Placed(cfg, n, At(w, n), a) && Ready(cfg, w, n, a, pick)
    requires w.owner.None? ==> forall id :: At(w, Nss(id)) <= FORMAT
    ensures FormatsOk(Took(w, n, a, pick))
  {
  }

  lemma MarkForAt(w: World, stage: Stage, n: Node, s: Stage)
    ensures Marked(MarkFor(w, stage, n), s) == if s == stage then Marked(w, s) + {n} else Marked(w, s)
  {
  }

  /** Who joins a stage's markers in a step. */
  lemma TookMarked(w: World, n: Node, a: Action, pick: nat, s: Stage)
    ensures Marked(w, s) <= Marked(Took(w, n, a, pick), s) <= Marked(w, s) + {n}
    ensures Marked(Took(w, n, a, pick), s) != Marked(w, s) ==>
              a == MarkNode(s) || (a == AsOwner(OwnerMarksNode(s)) && Owns(w, n))
  {
    assert Took(w, n, a, pick).marks == Effect(w, n, a, pick).marks;
    if a.MarkNode? {
      MarkForAt(w, a.stage, n, s);
    } else if a.AsOwner? && a.owned.OwnerMarksNode? {
      MarkForAt(w, a.owned.stage, n, s);
    } else {
      assert Effect(w, n, a, pick).marks == w.marks;
    }
  }

  lemma TookStorage(cfg: Config, w: World, n: Node, a: Action, pick: nat)
    requires StorageOk(cfg, w) && cfg.Has(n) && Placed(cfg, n, At(w, n), a)
    ensures StorageOk(cfg, Took(w, n, a, pick))
  {
    TookMarked(w, n, a, pick, BssConfigured);
    TookMarked(w, n, a, pick, BssReady);
    TookMarked(w, n, a, pick, EtcdNodesRegistered);
  }

  /** How a step adds a global marker. */
  lemma TookGlobal(w: World, n: Node, a: Action, pick: nat)
    ensures forall s | s in Took(w, n, a, pick).globals && s !in w.globals ::
              a == MarkGlobal(s) || (a == AsOwner(OwnerMarks(s)) && Owns(w, n))
    ensures w.formats <= Took(w, n, a, pick).formats
  {
  }

  lemma TookEtcd(cfg: Config, w: World, n: Node, a: Action, pick: nat)
    requires EtcdFormed(cfg, w)
    ensures EtcdFormed(cfg, Took(w, n, a, pick))
  {
    TookMarked(w, n, a, pick, EtcdNodesRegistered);
    SubsetSize(Marked(w, EtcdNodesRegistered), Marked(Took(w, n, a, pick), EtcdNodesRegistered));
  }

  lemma TookGlobals(cfg: Config, w: World, n: Node, a: Action, pick: nat)
    requires GlobalsOk(cfg, w) && FormatsOk(w) && Placed(cfg, n, At(w, n), a)
    requires a == MarkGlobal(EtcdReady) ==> EtcdFormed(cfg, w)
    ensures GlobalsOk(cfg, Took(w, n, a, pick))
  {
    TookGlobal(w, n, a, pick);
    if EtcdFormed(cfg, w) {
      TookEtcd(cfg, w, n, a, pick);
    }
  }

  /** What it takes to have come past a point of a script. */
  lemma PastHolds(cfg: Config, w: World, n: Node, i: nat)
    requires Past(cfg, w) && cfg.Has(n) && i < At(w, n)
    ensures At(w, n) <= |Script(cfg, n)| && Holds(cfg, w, n, Script(cfg, n)[i])
  {
    assert PastAt(cfg, w, n);
  }

  lemma NoOwnerNoFormat(cfg: Config, w: World, id: nat)
    requires Past(cfg, w) && OwnerOk(cfg, w) && w.owner.None?
    ensures At(w, Nss(id)) <= FORMAT
  {
    if At(w, Nss(id)) > FORMAT {
      PastHolds(cfg, w, Nss(id), FORMAT);
    }
  }

  lemma EtcdFormsFirst(cfg: Config, w: World, n: Node)
    requires Past(cfg, w) && cfg.Has(n) && cfg.etcd && n.Bss? && At(w, n) == ETCD_READY
    ensures EtcdFormed(cfg, w)
  {
    PastHolds(cfg, w, n, 1);
    PastHolds(cfg, w, n, 2);
  }

  lemma StepKept(cfg: Config, w: World, n: Node, pick: nat)
    requires Inv(cfg, w) && Can(cfg, w, n, pick)
    ensures Inv(cfg, Do(cfg, w, n, pick))
  {
    var i, script := At(w, n), Script(cfg, n);
    var a := script[i];
    ScriptPlaces(cfg, n, i);
    forall m | cfg.Has(m)
      ensures PastAt(cfg, Took(w, n, a, pick), m)
    {
      assert PastAt(cfg, w, m);
      TookPast(cfg, w, n, a, pick, m, Script(cfg, m));
    }
    TookOwner(cfg, w, n, a, pick);
    forall id
      ensures w.owner.None? ==> At(w, Nss(id)) <= FORMAT
    {
      if w.owner.None? {
        NoOwnerNoFormat(cfg, w, id);
      }
    }
    TookFormats(cfg, w, n, a, pick);
    TookStorage(cfg, w, n, a, pick);
    if a == MarkGlobal(EtcdReady) {
      EtcdFormsFirst(cfg, w, n);
    }
    TookGlobals(cfg, w, n, a, pick);
  }

  lemma {:induction false} RunKept(cfg: Config, w: World, moves: seq<Move>)
    requires Inv(cfg, w) && CanRun(cfg, w, moves)
    ensures Inv(cfg, After(cfg, w, moves))
    decreases |moves|
  {
    if moves == [] {
    } else {
      StepKept(cfg, w, moves[0].node, moves[0].pick);
      RunKept(cfg, Do(cfg, w, moves[0].node, moves[0].pick), moves[1..]);
    }
  }

  lemma ReachableIsSound(cfg: Config, w: World)
    requires Reachable(cfg, w)
    ensures Inv(cfg, w)
  {
    var moves :| CanRun(cfg, START, moves) && After(cfg, START, moves) == w;
    assert Inv(cfg, START);
    RunKept(cfg, START, moves);
  }
}
