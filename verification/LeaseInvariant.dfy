/** What every step of the drive-delete protocol keeps. */
module LeaseInvariant {
  import opened Options
  import opened DriveStore
  import opened LeaseProtocol

  /** A bucket incarnation that existed and is gone; roots are never reused, so it stays gone. */
  predicate Dead(w: World, root: nat) {
    root in w.roots && w.bucket != Some(root)
  }

  /** Lease write `k` of a task carries the identity of the record the delete task resolved. */
  predicate OwnWrite(task: Task, k: nat)
    requires k < |task.writes| && |task.writes| <= |task.landed| + 1
  {
    var d := task.writes[k].data;
    && d.id == task.seen.data.id
    && d.root == task.seen.data.root
    && d.status == Deleting
    && d.token == task.writes[0].data.token
    && d.token != 0
    && task.writes[k].expected == (if k == 0 then task.seen.version else task.landed[k - 1])
  }

  /** The log holds write `k` under the version it was reported to have landed as. */
  predicate LandedAs(log: Log, task: Task, k: nat)
    requires k < |task.landed| <= |task.writes|
  {
    Wrote(task.writes[k].expected, task.landed[k], task.writes[k].data) in log
  }

  /** The writes a task sent and the ones it was told had landed. */
  predicate HistoryOk(w: World, task: Task) {
    && |task.landed| <= |task.writes| <= |task.landed| + 1
    && (forall k | 0 <= k < |task.writes| :: OwnWrite(task, k))
    && (forall p | p in task.writes :: p in w.puts)
    && (forall k | 0 <= k < |task.landed| :: LandedAs(w.log, task, k))
    && (forall j, k | 0 <= j < k < |task.writes| ::
          task.writes[j].data.heartbeat < task.writes[k].data.heartbeat)
    && (task.writes != [] ==> !SweepAlive(task.seen.data, task.seenAt))
  }

  /** The handle: the record resolved, the last write landed, or the write under way. */
  ghost predicate HandleOk(w: World, task: Task)
    requires |task.landed| <= |task.writes| <= |task.landed| + 1
  {
    && task.drive.data.id == task.seen.data.id
    && task.drive.data.root == task.seen.data.root
    && (task.pc.Removing? || task.pc.Rereading? ==> Stored(w.log, task.drive))
    && (!task.pc.Removing? && !task.pc.Rereading? && !task.pc.Exiting? && !task.pc.Done? ==>
          task.drive ==
          if task.writes == [] then task.seen
          else if |task.landed| == |task.writes|
          then Versioned(task.landed[|task.landed| - 1], task.writes[|task.writes| - 1].data)
          else Versioned(task.writes[|task.writes| - 1].expected, task.writes[|task.writes| - 1].data))
  }

  predicate Settled(task: Task) {
    |task.writes| == |task.landed| && task.landed != []
  }

  predicate PcOk(w: World, task: Task) {
    match task.pc
    case Looked | Live => task.writes == []
    case Writing(next) =>
      |task.writes| == |task.landed| + 1 && (next.TakeLease? <==> task.landed == []) && NextOk(task, next)
    case Reading(next) =>
      |task.writes| == |task.landed| + 1 && (next.TakeLease? <==> task.landed == []) && NextOk(task, next)
    case Spawned => Settled(task)
    case Paging | Finishing | Fencing => Settled(task) && task.bucketRoot == task.seen.data.root
    case Batching(keys) => Settled(task) && task.bucketRoot == task.seen.data.root
    case InBatch(left, _) => Settled(task) && task.bucketRoot == task.seen.data.root && |left| <= BATCH
    case Draining(left) => task.bucketRoot == task.seen.data.root && |left| <= BATCH
    case BucketCall(plain) => if plain then task.writes == [] else Settled(task)
    case Removing(_, why) => why.Checked() ==> Dead(w, task.drive.data.root)
    case Rereading(_, why) => why.Checked() ==> Dead(w, task.drive.data.root)
    case Exiting(outcome) => outcome.NotTaken? ==> task.landed == [] && |task.writes| == 1
    case Done(outcome) => outcome.NotTaken? ==> task.landed == [] && |task.writes| == 1
  }

  predicate NextOk(task: Task, next: Next) {
    && (next.TakeLease? || task.bucketRoot == task.seen.data.root)
    && (next.MidBatch? ==> |next.left| <= BATCH)
  }

  ghost predicate TaskOk(w: World, task: Task) {
    && Stored(w.log, task.seen)
    && HistoryOk(w, task)
    && HandleOk(w, task)
    && PcOk(w, task)
    && (forall op | op in task.ops :: op.root == task.seen.data.root)
  }

  /** The log is the work of the requests that were sent, and the replies tell the truth about it. */
  ghost predicate StoresOk(w: World) {
    && WellFormed(w.log)
    && (forall c | c in w.log && c.Wrote? :: Put(c.expected, c.data) in w.puts)
    && (forall a | a in w.putAcks :: Wrote(a.0.expected, a.1, a.0.data) in w.log)
    && (forall c | c in w.log && c.Removed? :: Remove(c.sender, c.version, c.why) in w.removes)
  }

  ghost predicate RootsOk(w: World) {
    && (w.bucket.Some? ==> w.bucket.value in w.roots)
    && (forall p | p in w.puts :: p.data.root in w.roots)
    && (forall r | r in w.drops :: r in w.roots)
    && (forall r | r in w.dropped :: Dead(w, r))
    && (forall r | r in w.mismatched :: Dead(w, r))
    && (forall r | r in w.removes && r.why.Checked() :: NamesDead(w, r.expected))
  }

  /** The record once stored under `version` describes a bucket incarnation that is gone. */
  ghost predicate NamesDead(w: World, version: nat) {
    exists e, d :: Wrote(e, version, d) in w.log && Dead(w, d.root)
  }

  function TokenOf(task: Task): nat {
    if task.writes == [] then 0 else task.writes[0].data.token
  }

  /** Every lease write on its way or stored belongs to exactly one task. */
  ghost predicate TokensOk(w: World) {
    && (forall p | p in w.puts && p.data.token != 0 :: exists t :: t in w.tasks && p in w.tasks[t].writes)
    && (forall t, u | t in w.tasks && u in w.tasks && TokenOf(w.tasks[t]) == TokenOf(w.tasks[u]) != 0 :: t == u)
    && (forall p | p in w.puts && p.data.token == 0 :: p.expected == 0)
    && (forall p | p in w.closed :: p.data.token != 0 && p in w.puts)
  }

  /** A start call or a worker that this request became is alive and owns a worker slot. */
  predicate Holds(task: Task) {
    match task.pc
    case Looked | Live => false
    case BucketCall(plain) => !plain
    case Removing(_, why) => why.OfSweep()
    case Rereading(_, why) => why.OfSweep()
    case Done(_) => false
    case _ => true
  }

  /** How often the slot was registered and released, and what that says about the present. */
  predicate SlotHistoryOk(task: Task) {
    && task.released <= task.registered <= 1
    && (task.pc.Looked? || task.pc.Live? ==> task.registered == 0)
    && (Holds(task) ==> task.registered == 1 && task.released == 0)
    && (!Holds(task) && task.pc != Done(Crashed) ==> task.released == task.registered)
  }

  predicate HoldsAt(w: World, t: nat, p: nat) {
    t in w.tasks && w.tasks[t].proc == p && Holds(w.tasks[t])
  }

  ghost predicate SlotsOk(w: World) {
    && (forall p | p in w.slots :: exists t :: HoldsAt(w, t, p))
    && (forall t, p | HoldsAt(w, t, p) :: p in w.slots)
    && (forall t, u, p | HoldsAt(w, t, p) && HoldsAt(w, u, p) :: t == u)
    && (forall t | t in w.tasks :: SlotHistoryOk(w.tasks[t]))
  }

  ghost predicate TaskAt(w: World, t: nat) {
    t in w.tasks ==> TaskOk(w, w.tasks[t])
  }

  ghost predicate TasksOk(w: World) {
    forall t :: TaskAt(w, t)
  }

  ghost predicate Inv(w: World) {
    StoresOk(w) && RootsOk(w) && TokensOk(w) && SlotsOk(w) && TasksOk(w)
  }

  // ---------------------------------------------------------------- growth

  /** Everything a task relies on only grows. */
  ghost predicate Grows(w: World, w': World) {
    && w.log <= w'.log
    && w.puts <= w'.puts
    && (forall r | Dead(w, r) :: Dead(w', r))
  }

  lemma TaskOkGrows(w: World, w': World, task: Task)
    requires TaskOk(w, task) && Grows(w, w')
    ensures TaskOk(w', task)
  {
    StoredGrows(w.log, w'.log, task.seen);
    if task.pc.Removing? || task.pc.Rereading? {
      StoredGrows(w.log, w'.log, task.drive);
    }
    forall k | 0 <= k < |task.landed|
      ensures LandedAs(w'.log, task, k)
    {
      assert LandedAs(w.log, task, k);
      InGrows(w.log, w'.log, Wrote(task.writes[k].expected, task.landed[k], task.writes[k].data));
    }
  }

  lemma InGrows(log: Log, log': Log, c: Change)
    requires log <= log' && c in log
    ensures c in log'
  {
    var i :| 0 <= i < |log| && log[i] == c;
    assert log'[i] == c;
  }

  lemma StoredGrows(log: Log, log': Log, r: Versioned)
    requires log <= log' && Stored(log, r)
    ensures Stored(log', r)
  {
    var e :| Wrote(e, r.version, r.data) in log;
    InGrows(log, log', Wrote(e, r.version, r.data));
  }

  lemma NamesDeadGrows(w: World, w': World, version: nat)
    requires NamesDead(w, version) && Grows(w, w')
    ensures NamesDead(w', version)
  {
    var e, d :| Wrote(e, version, d) in w.log && Dead(w, d.root);
    InGrows(w.log, w'.log, Wrote(e, version, d));
  }

  /** The step's own task, for the steps that act for one. */
  function Actor(s: Step): Option<nat> {
    match s
    case SendsCreate(_, _) => None
    case SendsRemove(_) => None
    case BucketGoes => None
    case BucketComes(_) => None
    case Crashes(_) => None
    case AppliesPut(_, _) => None
    case AppliesRemove(_) => None
    case AppliesDrop(_) => None
    case RefusesDrop(_) => None
    case _ => Some(s.t)
  }

  // The steps of a task, by the code they belong to; the ones not listed are the sweep's.

  predicate OfRequest(s: Step) {
    || s.Resolves? || s.ChecksBucket? || s.AnswersAlive? || s.Registers? || s.FindsBusy?
    || s.SendsPlainDelete? || s.RequestFails?
  }

  predicate OfLease(s: Step) {
    s.PutReturns? || s.PutFails? || s.ReadsBack? || s.ReadBackFails? || s.Releases?
  }

  predicate OfDrop(s: Step) {
    || s.BucketDeleted? || s.BucketReplaced? || s.BucketNotFound?
    || s.RecordRemoved? || s.RecordChanged? || s.Rereads?
  }

  predicate OfSweep(s: Step) {
    Actor(s).Some? && !OfRequest(s) && !OfLease(s) && !OfDrop(s)
  }

  /** What a task's step cannot do: change the stores, unsend a message or touch another task. */
  ghost predicate Framed(w: World, w': World, t: nat) {
    && w'.strict == w.strict && w'.bucket == w.bucket && w'.roots == w.roots
    && w'.log == w.log && w'.putAcks == w.putAcks && w'.removed == w.removed
    && w'.dropped == w.dropped && w'.mismatched == w.mismatched
    && w.puts <= w'.puts && w.removes <= w'.removes && w.closed <= w'.closed
    && t in w'.tasks && (forall u | u != t :: u in w'.tasks <==> u in w.tasks)
    && (forall u | u in w.tasks && u != t :: w'.tasks[u] == w.tasks[u])
  }

  /** What a task's step keeps of that delete task, and of the slots. */
  ghost predicate Carried(w: World, s: Step, w': World)
    requires Actor(s).Some?
  {
    && (s.PutFails? || w'.closed == w.closed)
    && (s.t !in w.tasks ==> s.Resolves? && w'.slots == w.slots)
    && (s.t in w.tasks && s.t in w'.tasks ==>
          && var a, b := w.tasks[s.t], w'.tasks[s.t];
          && b.proc == a.proc && b.seen == a.seen
          && (b.writes == a.writes || ((s.Registers? || s.Renews?) && a.writes <= b.writes))
          && (s.Registers? || s.Releases? ||
                (w'.slots == w.slots && b.registered == a.registered && b.released == a.released
                 && Holds(b) == Holds(a) && !b.pc.Looked? && (b.pc.Live? ==> a.pc.Looked?)
                 && a.pc != Done(Crashed) && b.pc != Done(Crashed))))
  }

  lemma RequestFrame(w: World, s: Step)
    requires OfRequest(s) && Can(w, s)
    ensures Framed(w, Do(w, s), s.t)
  {
  }

  lemma LeaseFrame(w: World, s: Step)
    requires OfLease(s) && Can(w, s)
    ensures Framed(w, Do(w, s), s.t)
  {
  }

  lemma SweepFrame(w: World, s: Step)
    requires OfSweep(s) && Can(w, s)
    ensures Framed(w, Do(w, s), s.t)
  {
  }

  lemma BucketReplyFrame(w: World, s: Step)
    requires (s.BucketDeleted? || s.BucketReplaced? || s.BucketNotFound?) && Can(w, s)
    ensures Framed(w, Do(w, s), s.t)
  {
  }

  lemma DropFrame(w: World, s: Step)
    requires OfDrop(s) && Can(w, s)
    ensures Framed(w, Do(w, s), s.t)
  {
    if s.BucketDeleted? || s.BucketReplaced? || s.BucketNotFound? {
      BucketReplyFrame(w, s);
    }
  }

  lemma ActorFrame(w: World, s: Step)
    requires Actor(s).Some? && Can(w, s)
    ensures Framed(w, Do(w, s), s.t)
  {
    if OfRequest(s) {
      RequestFrame(w, s);
    } else if OfLease(s) {
      LeaseFrame(w, s);
    } else if OfDrop(s) {
      DropFrame(w, s);
    } else {
      SweepFrame(w, s);
    }
  }

  lemma AnswerCarries(w: World, s: Step)
    requires (s.AnswersAlive? || s.FindsBusy? || s.SendsPlainDelete? || s.RequestFails?) && Can(w, s)
    ensures Carried(w, s, Do(w, s))
  {
  }

  lemma RequestCarries(w: World, s: Step)
    requires OfRequest(s) && Can(w, s)
    ensures Carried(w, s, Do(w, s))
  {
    if s.AnswersAlive? || s.FindsBusy? || s.SendsPlainDelete? || s.RequestFails? {
      AnswerCarries(w, s);
    }
  }

  lemma LeaseCarries(w: World, s: Step)
    requires OfLease(s) && Can(w, s)
    ensures Carried(w, s, Do(w, s))
  {
  }

  lemma SweepCallCarries(w: World, s: Step)
    requires (s.ListsPage? || s.DeletesObject? || s.SendsBucketDelete?) && Can(w, s)
    ensures Carried(w, s, Do(w, s))
  {
  }

  lemma SweepCarries(w: World, s: Step)
    requires OfSweep(s) && Can(w, s)
    ensures Carried(w, s, Do(w, s))
  {
    if s.ListsPage? || s.DeletesObject? || s.SendsBucketDelete? {
      SweepCallCarries(w, s);
    }
  }

  lemma BucketReplyCarries(w: World, s: Step)
    requires (s.BucketDeleted? || s.BucketReplaced? || s.BucketNotFound?) && Can(w, s)
    ensures Carried(w, s, Do(w, s))
  {
    var a := w.tasks[s.t];
    if s.BucketDeleted? {
      assert Do(w, s) == StartsDrop(w, s.t, a, if a.pc.plain then PlainDeleted else SweepDeleted);
    } else if s.BucketReplaced? {
      assert Do(w, s) == StartsDrop(w, s.t, a, if a.pc.plain then PlainReplaced else SweepReplaced);
    } else {
      assert Do(w, s) == StartsDrop(w, s.t, a, PlainNotFound);
    }
  }

  lemma RemovalCarries(w: World, s: Step)
    requires (s.RecordRemoved? || s.RecordChanged?) && Can(w, s)
    ensures Carried(w, s, Do(w, s))
  {
  }

  lemma RereadCarries(w: World, s: Step)
    requires s.Rereads? && Can(w, s)
    ensures Carried(w, s, Do(w, s))
  {
    var a := w.tasks[s.t];
    match Reread(a.drive.data, a.pc.tries, Current(w.log))
    case Gone => assert Do(w, s) == With(w, s.t, a.(pc := DropEnds(a.pc.why, Dropped)));
    case Exhausted => assert Do(w, s) == With(w, s.t, a.(pc := DropEnds(a.pc.why, DropFailed)));
    case Again(record) => assert Do(w, s) == SendsDrop(w, s.t, a.(drive := record), a.pc.tries - 1, a.pc.why);
  }

  lemma DropCarries(w: World, s: Step)
    requires OfDrop(s) && Can(w, s)
    ensures Carried(w, s, Do(w, s))
  {
    if s.Rereads? {
      RereadCarries(w, s);
    } else if s.RecordRemoved? || s.RecordChanged? {
      RemovalCarries(w, s);
    } else {
      BucketReplyCarries(w, s);
    }
  }

  lemma ActorCarries(w: World, s: Step)
    requires Actor(s).Some? && Can(w, s)
    ensures Carried(w, s, Do(w, s))
  {
    if OfRequest(s) {
      RequestCarries(w, s);
    } else if OfLease(s) {
      LeaseCarries(w, s);
    } else if OfDrop(s) {
      DropCarries(w, s);
    } else {
      SweepCarries(w, s);
    }
  }

  lemma EnvironmentGrows(w: World, s: Step)
    requires RootsOk(w) && Can(w, s) && Actor(s).None?
    ensures Grows(w, Do(w, s))
  {
  }

  lemma StepGrows(w: World, s: Step)
    requires RootsOk(w) && Can(w, s)
    ensures Grows(w, Do(w, s))
  {
    if Actor(s).None? {
      EnvironmentGrows(w, s);
    } else {
      ActorFrame(w, s);
    }
  }

  // ---------------------------------------------------------------- the stores

  lemma CurrentIsStored(log: Log)
    requires Current(log).Some?
    ensures Stored(log, Current(log).value)
  {
    var c := log[|log| - 1];
    assert c in log;
    assert Wrote(c.expected, c.version, c.data) in log;
  }

  lemma StoredRootIsKnown(w: World, r: Versioned)
    requires StoresOk(w) && RootsOk(w) && Stored(w.log, r)
    ensures r.data.root in w.roots
  {
    var e :| Wrote(e, r.version, r.data) in w.log;
    assert Put(e, r.data) in w.puts;
  }

  lemma OnlyStoresWrite(w: World, s: Step)
    requires Can(w, s)
    ensures w.puts <= Do(w, s).puts && w.removes <= Do(w, s).removes
    ensures !s.AppliesPut? && !s.AppliesRemove? ==> Do(w, s).log == w.log && Do(w, s).putAcks == w.putAcks
  {
    if Actor(s).Some? {
      ActorFrame(w, s);
    }
  }

  lemma PutKeepsStores(w: World, p: Put, v: nat)
    requires StoresOk(w) && Can(w, AppliesPut(p, v))
    ensures StoresOk(Do(w, AppliesPut(p, v)))
  {
    var w' := Do(w, AppliesPut(p, v));
    var c := Wrote(p.expected, v, p.data);
    assert w'.log[..|w.log|] == w.log;
    AppendKeepsWellFormed(w.log, c);
    forall a | a in w'.putAcks
      ensures Wrote(a.0.expected, a.1, a.0.data) in w'.log
    {
      if a == (p, v) {
        assert w'.log[|w.log|] == c;
      } else {
        InGrows(w.log, w'.log, Wrote(a.0.expected, a.1, a.0.data));
      }
    }
  }

  lemma RemoveKeepsStores(w: World, r: Remove)
    requires StoresOk(w) && Can(w, AppliesRemove(r))
    ensures StoresOk(Do(w, AppliesRemove(r)))
  {
    var w' := Do(w, AppliesRemove(r));
    assert w'.log[..|w.log|] == w.log;
    AppendKeepsWellFormed(w.log, Removed(r.expected, r.why, r.sender));
    forall a | a in w'.putAcks
      ensures Wrote(a.0.expected, a.1, a.0.data) in w'.log
    {
      InGrows(w.log, w'.log, Wrote(a.0.expected, a.1, a.0.data));
    }
  }

  lemma StoresKept(w: World, s: Step)
    requires StoresOk(w) && Can(w, s)
    ensures StoresOk(Do(w, s))
  {
    OnlyStoresWrite(w, s);
    if s.AppliesPut? {
      PutKeepsStores(w, s.put, s.version);
    } else if s.AppliesRemove? {
      RemoveKeepsStores(w, s.remove);
    }
  }

  // ---------------------------------------------------------------- whose write is it

  /** A lease write carrying a task's token was sent by that task. */
  lemma TokenNamesTask(w: World, t: nat, p: Put)
    requires TokensOk(w) && TasksOk(w)
    requires t in w.tasks && w.tasks[t].writes != []
    requires p in w.puts && p.data.token == w.tasks[t].writes[0].data.token
    ensures p in w.tasks[t].writes
  {
    assert TaskAt(w, t);
    assert OwnWrite(w.tasks[t], 0);
    var u :| u in w.tasks && p in w.tasks[u].writes;
    assert TaskAt(w, u);
    var k :| 0 <= k < |w.tasks[u].writes| && w.tasks[u].writes[k] == p;
    assert OwnWrite(w.tasks[u], k);
  }

  /** Token and heartbeat together name one lease write. */
  lemma LeaseNamesPut(w: World, t: nat, k: nat, p: Put)
    requires TokensOk(w) && TasksOk(w)
    requires t in w.tasks && k < |w.tasks[t].writes|
    requires p in w.puts && p.data.token == w.tasks[t].writes[k].data.token
    requires p.data.heartbeat == w.tasks[t].writes[k].data.heartbeat
    ensures p == w.tasks[t].writes[k]
  {
    var task := w.tasks[t];
    assert TaskAt(w, t);
    assert OwnWrite(task, k);
    TokenNamesTask(w, t, p);
    var j :| 0 <= j < |task.writes| && task.writes[j] == p;
  }

  /** A read-back that recognises the write under way returns exactly that write. */
  lemma ReadBackIsTheWrite(w: World, t: nat)
    requires StoresOk(w) && TokensOk(w) && TasksOk(w)
    requires t in w.tasks && w.tasks[t].pc.Reading? && w.tasks[t].writes != []
    requires ReconcileLease(w.tasks[t].drive, Current(w.log)).Some?
    ensures var last := w.tasks[t].writes[|w.tasks[t].writes| - 1];
            var stored := Current(w.log).value;
            stored.data == last.data && Wrote(last.expected, stored.version, last.data) in w.log
  {
    var task := w.tasks[t];
    assert TaskAt(w, t);
    var c := w.log[|w.log| - 1];
    assert c in w.log;
    LeaseNamesPut(w, t, |task.writes| - 1, Put(c.expected, c.data));
  }

  // ---------------------------------------------------------------- the delete tasks

  /** The write under way is in the log: the delete task may go on from it. */
  lemma LandedKeepsTask(w: World, task: Task, next: Next, version: nat)
    requires TaskOk(w, task)
    requires task.pc == Writing(next) || task.pc == Reading(next)
    requires var last := task.writes[|task.writes| - 1]; Wrote(last.expected, version, last.data) in w.log
    ensures TaskOk(w, Landed(task, next, Versioned(version, task.drive.data)))
  {
    var task' := Landed(task, next, Versioned(version, task.drive.data));
    forall k | 0 <= k < |task'.writes|
      ensures OwnWrite(task', k)
    {
      assert OwnWrite(task, k);
    }
    forall k | 0 <= k < |task'.landed|
      ensures LandedAs(w.log, task', k)
    {
      if k < |task.landed| {
        assert LandedAs(w.log, task, k);
      }
    }
  }

  /** A task sends its handle, refreshed, as the next lease write. */
  lemma RenewKeepsTask(w: World, w': World, task: Task, next: Next, clock: nat)
    requires TaskOk(w, task) && Settled(task)
    requires task.pc.Batching? || task.pc.InBatch? || task.pc.Finishing?
    requires !next.TakeLease? && (next.MidBatch? ==> |next.left| <= BATCH)
    requires Grows(w, w')
    requires Put(task.drive.version, Renewed(task.drive.data, clock)) in w'.puts
    ensures TaskOk(w', Writes(task.(drive := task.drive.(data := Renewed(task.drive.data, clock))), next))
  {
    var task' := Writes(task.(drive := task.drive.(data := Renewed(task.drive.data, clock))), next);
    TaskOkGrows(w, w', task);
    var n := |task.writes|;
    assert OwnWrite(task, n - 1);
    forall k | 0 <= k < |task'.writes|
      ensures OwnWrite(task', k)
    {
      if k < n {
        assert OwnWrite(task, k);
      }
    }
    forall k | 0 <= k < |task'.landed|
      ensures LandedAs(w'.log, task', k)
    {
      assert LandedAs(w'.log, task, k);
    }
    assert HistoryOk(w', task');
  }

  lemma TakeKeepsTask(w: World, w': World, task: Task, now: nat, clock: nat, token: nat)
    requires TaskOk(w, task) && task.pc == Live && token != 0
    requires !SweepAlive(task.drive.data, now)
    requires Grows(w, w')
    requires Put(task.drive.version, Taken(task.drive.data, clock, token)) in w'.puts
    ensures TaskOk(w', Writes(task.(seenAt := now, drive := task.drive.(data := Taken(task.drive.data, clock, token))),
                              TakeLease))
  {
    TaskOkGrows(w, w', task);
  }

  lemma OthersUntouched(w: World, s: Step, u: nat)
    requires Can(w, s) && u in Do(w, s).tasks && Actor(s) != Some(u)
    ensures u in w.tasks
    ensures !s.Crashes? ==> Do(w, s).tasks[u] == w.tasks[u]
    ensures s.Crashes? ==> Do(w, s).tasks[u] == w.tasks[u] || Do(w, s).tasks[u] == w.tasks[u].(pc := Done(Crashed))
  {
    if Actor(s).Some? {
      ActorFrame(w, s);
    }
  }

  lemma ResolvesKeepsActor(w: World, t: nat, proc: nat, force: bool)
    requires Inv(w) && Can(w, Resolves(t, proc, force))
    ensures TaskAt(Do(w, Resolves(t, proc, force)), t)
  {
    CurrentIsStored(w.log);
  }

  lemma RegistersKeepsActor(w: World, s: Step)
    requires s.Registers? && Inv(w) && Can(w, s)
    ensures TaskAt(Do(w, s), s.t)
  {
    StepGrows(w, s);
    assert TaskAt(w, s.t);
    TakeKeepsTask(w, Do(w, s), w.tasks[s.t], s.now, s.clock, s.token);
  }

  lemma PutReturnsKeepsActor(w: World, s: Step)
    requires s.PutReturns? && Inv(w) && Can(w, s)
    ensures TaskAt(Do(w, s), s.t)
  {
    var task := w.tasks[s.t];
    assert TaskAt(w, s.t);
    LandedKeepsTask(w, task, task.pc.next, s.version);
    StepGrows(w, s);
    TaskOkGrows(w, Do(w, s), Landed(task, task.pc.next, Versioned(s.version, task.drive.data)));
  }

  lemma ReadsBackKeepsActor(w: World, s: Step)
    requires s.ReadsBack? && Inv(w) && Can(w, s)
    ensures TaskAt(Do(w, s), s.t)
  {
    var task := w.tasks[s.t];
    assert TaskAt(w, s.t);
    StepGrows(w, s);
    if ReconcileLease(task.drive, Current(w.log)).Some? {
      ReadBackIsTheWrite(w, s.t);
      var stored := Current(w.log).value;
      LandedKeepsTask(w, task, task.pc.next, stored.version);
      assert stored == Versioned(stored.version, task.drive.data);
      TaskOkGrows(w, Do(w, s), Landed(task, task.pc.next, stored));
    } else {
      LostKeepsTask(w, task);
      TaskOkGrows(w, Do(w, s), task.(pc := Lost(task.pc.next)));
    }
  }

  lemma LostKeepsTask(w: World, task: Task)
    requires TaskOk(w, task) && task.pc.Reading?
    ensures TaskOk(w, task.(pc := Lost(task.pc.next)))
  {
    SamePastKeepsTask(w, task, task.(pc := Lost(task.pc.next)));
  }

  /** A change of program counter leaves the history alone. */
  lemma SamePastKeepsTask(w: World, task: Task, task': Task)
    requires Stored(w.log, task.seen) && HistoryOk(w, task)
    requires task'.seen == task.seen && task'.seenAt == task.seenAt
    requires task'.writes == task.writes && task'.landed == task.landed
    ensures Stored(w.log, task'.seen) && HistoryOk(w, task')
  {
    forall k | 0 <= k < |task'.writes|
      ensures OwnWrite(task', k)
    {
      assert OwnWrite(task, k);
    }
    forall k | 0 <= k < |task'.landed|
      ensures LandedAs(w.log, task', k)
    {
      assert LandedAs(w.log, task, k);
    }
  }

  lemma PutFailsKeepsActor(w: World, s: Step)
    requires s.PutFails? && Inv(w) && Can(w, s)
    ensures TaskAt(Do(w, s), s.t)
  {
    var task := w.tasks[s.t];
    assert TaskAt(w, s.t);
    SamePastKeepsTask(w, task, task.(pc := Reading(task.pc.next)));
    StepGrows(w, s);
    TaskOkGrows(w, Do(w, s), task.(pc := Reading(task.pc.next)));
  }

  lemma RenewsKeepsActor(w: World, s: Step)
    requires s.Renews? && Inv(w) && Can(w, s)
    ensures TaskAt(Do(w, s), s.t)
  {
    var task := w.tasks[s.t];
    assert TaskAt(w, s.t);
    StepGrows(w, s);
    var next := match task.pc
      case Batching(keys) => BeforeBatch(keys)
      case InBatch(left, rest) => MidBatch(left, rest)
      case _ => BeforeBucket;
    RenewKeepsTask(w, Do(w, s), task, next, s.clock);
  }

  /** The handle of a task that has settled is a stored record. */
  lemma SettledHandleIsStored(w: World, task: Task)
    requires TaskOk(w, task) && !task.pc.Exiting? && !task.pc.Done? && (task.writes == [] || Settled(task))
    ensures Stored(w.log, task.drive)
  {
    if task.writes != [] && !task.pc.Removing? && !task.pc.Rereading? {
      assert LandedAs(w.log, task, |task.landed| - 1);
    }
  }

  lemma CallKeepsTask(w: World, w': World, task: Task, task': Task, op: Op)
    requires TaskOk(w, task) && op.root == task.seen.data.root && Grows(w, w')
    requires task' == task.(pc := task'.pc, ops := task'.ops) && task'.ops == task.ops + [op]
    requires PcOk(w, task') && HandleOk(w, task')
    ensures TaskOk(w', task')
  {
    SamePastKeepsTask(w, task, task');
    TaskOkGrows(w, w', task');
  }

  lemma ListingKeepsActor(w: World, s: Step)
    requires (s.ListsPage? || s.DeletesObject?) && Can(w, s) && Grows(w, Do(w, s)) && TaskOk(w, w.tasks[s.t])
    ensures TaskAt(Do(w, s), s.t)
  {
    var task := w.tasks[s.t];
    var task' := Do(w, s).tasks[s.t];
    CallKeepsTask(w, Do(w, s), task, task', task'.ops[|task.ops|]);
  }

  lemma BucketCallKeepsActor(w: World, s: Step)
    requires s.SendsBucketDelete? || s.SendsPlainDelete?
    requires Can(w, s) && Grows(w, Do(w, s)) && TaskOk(w, w.tasks[s.t])
    ensures TaskAt(Do(w, s), s.t)
  {
    var task := w.tasks[s.t];
    CallKeepsTask(w, Do(w, s), task, Do(w, s).tasks[s.t], DeleteBucket(task.drive.data.root));
  }

  /** A step that only moves on in the program keeps what the history says. */
  lemma MovedTask(w: World, w': World, task: Task, pc: Pc, released: nat)
    requires TaskOk(w, task) && Grows(w, w')
    requires PcOk(w, task.(pc := pc, released := released)) && HandleOk(w, task.(pc := pc, released := released))
    ensures TaskOk(w', task.(pc := pc, released := released))
  {
    var task' := task.(pc := pc, released := released);
    SamePastKeepsTask(w, task, task');
    TaskOkGrows(w, w', task');
  }

  lemma HandlerMoveKeepsActor(w: World, s: Step)
    requires s.AnswersAlive? || s.FindsBusy? || s.RequestFails?
    requires Can(w, s) && Grows(w, Do(w, s)) && TaskOk(w, w.tasks[s.t])
    ensures TaskAt(Do(w, s), s.t)
  {
    var task := w.tasks[s.t];
    MovedTask(w, Do(w, s), task, Do(w, s).tasks[s.t].pc, task.released);
  }

  lemma SweepMoveKeepsActor(w: World, s: Step)
    requires s.EndsBatch? || s.SweepFails?
    requires Can(w, s) && Grows(w, Do(w, s)) && TaskOk(w, w.tasks[s.t])
    ensures TaskAt(Do(w, s), s.t)
  {
    var task := w.tasks[s.t];
    MovedTask(w, Do(w, s), task, Do(w, s).tasks[s.t].pc, task.released);
  }

  lemma ReleaseKeepsActor(w: World, s: Step)
    requires s.Releases? && Can(w, s) && Grows(w, Do(w, s)) && TaskOk(w, w.tasks[s.t])
    ensures TaskAt(Do(w, s), s.t)
  {
    var task := w.tasks[s.t];
    MovedTask(w, Do(w, s), task, Done(task.pc.outcome), task.released + 1);
  }

  lemma RemovalKeepsActor(w: World, s: Step)
    requires s.RecordRemoved? || s.RecordChanged?
    requires Can(w, s) && Grows(w, Do(w, s)) && TaskOk(w, w.tasks[s.t])
    ensures TaskAt(Do(w, s), s.t)
  {
    var task := w.tasks[s.t];
    MovedTask(w, Do(w, s), task, Do(w, s).tasks[s.t].pc, task.released);
  }

  /** A task whose handle is stored may set out to remove it once the incarnation it names is gone. */
  lemma DropKeepsTask(w: World, w': World, task: Task, why: Why)
    requires TaskOk(w, task) && Stored(w.log, task.drive) && Grows(w, w')
    requires why.Checked() ==> Dead(w, task.drive.data.root)
    ensures TaskOk(w', task.(dropFrom := Some(|w.log|), pc := Removing(DROP_ATTEMPTS, why)))
  {
    var task' := task.(dropFrom := Some(|w.log|), pc := Removing(DROP_ATTEMPTS, why));
    SamePastKeepsTask(w, task, task');
    assert TaskOk(w, task');
    TaskOkGrows(w, w', task');
  }

  lemma SeesBucketKeepsActor(w: World, s: Step)
    requires s.ChecksBucket? || s.FetchesBucket?
    requires Can(w, s) && Grows(w, Do(w, s)) && TaskOk(w, w.tasks[s.t])
    requires w.bucket == Some(w.tasks[s.t].drive.data.root)
    ensures TaskAt(Do(w, s), s.t)
  {
    var task, task' := w.tasks[s.t], Do(w, s).tasks[s.t];
    SamePastKeepsTask(w, task, task');
    assert TaskOk(w, task');
    TaskOkGrows(w, Do(w, s), task');
  }

  lemma MissesBucketKeepsActor(w: World, s: Step)
    requires s.ChecksBucket? || s.FetchesBucket?
    requires StoresOk(w) && RootsOk(w) && Can(w, s) && Grows(w, Do(w, s)) && TaskOk(w, w.tasks[s.t])
    requires w.bucket != Some(w.tasks[s.t].drive.data.root)
    ensures TaskAt(Do(w, s), s.t)
  {
    var task := w.tasks[s.t];
    SettledHandleIsStored(w, task);
    StoredRootIsKnown(w, task.drive);
    DropKeepsTask(w, Do(w, s), task, if s.ChecksBucket? then StaleAtRequest else StaleAtSweep);
  }

  lemma BucketReadKeepsActor(w: World, s: Step)
    requires s.ChecksBucket? || s.FetchesBucket?
    requires StoresOk(w) && RootsOk(w) && Can(w, s) && Grows(w, Do(w, s)) && TaskOk(w, w.tasks[s.t])
    ensures TaskAt(Do(w, s), s.t)
  {
    if w.bucket == Some(w.tasks[s.t].drive.data.root) {
      SeesBucketKeepsActor(w, s);
    } else {
      MissesBucketKeepsActor(w, s);
    }
  }

  lemma BucketReplyKeepsActor(w: World, s: Step)
    requires s.BucketDeleted? || s.BucketReplaced? || s.BucketNotFound?
    requires RootsOk(w) && Can(w, s) && Grows(w, Do(w, s)) && TaskOk(w, w.tasks[s.t])
    ensures TaskAt(Do(w, s), s.t)
  {
    var task := w.tasks[s.t];
    SettledHandleIsStored(w, task);
    DropKeepsTask(w, Do(w, s), task, Do(w, s).tasks[s.t].pc.why);
  }

  lemma RereadKeepsTask(w: World, w': World, task: Task, drive: Versioned, pc: Pc)
    requires TaskOk(w, task) && task.pc.Rereading? && Grows(w, w')
    requires drive.data.id == task.drive.data.id && drive.data.root == task.drive.data.root
    requires pc == DropEnds(task.pc.why, Dropped) || pc == DropEnds(task.pc.why, DropFailed)
             || (pc.Removing? && pc.why == task.pc.why && Stored(w.log, drive))
    ensures TaskOk(w', task.(drive := drive, pc := pc))
  {
    var task' := task.(drive := drive, pc := pc);
    SamePastKeepsTask(w, task, task');
    assert TaskOk(w, task');
    TaskOkGrows(w, w', task');
  }

  lemma RereadsKeepsActor(w: World, s: Step)
    requires s.Rereads? && Can(w, s) && Grows(w, Do(w, s)) && TaskOk(w, w.tasks[s.t])
    ensures TaskAt(Do(w, s), s.t)
  {
    var task := w.tasks[s.t];
    match Reread(task.drive.data, task.pc.tries, Current(w.log))
    case Gone => RereadKeepsTask(w, Do(w, s), task, task.drive, DropEnds(task.pc.why, Dropped));
    case Exhausted => RereadKeepsTask(w, Do(w, s), task, task.drive, DropEnds(task.pc.why, DropFailed));
    case Again(record) =>
      CurrentIsStored(w.log);
      RereadKeepsTask(w, Do(w, s), task, record, Removing(task.pc.tries - 1, task.pc.why));
  }

  predicate LeaseStep(s: Step) {
    s.Resolves? || s.Registers? || s.PutReturns? || s.PutFails? || s.ReadsBack? || s.Renews?
  }

  lemma LeaseStepKeepsActor(w: World, s: Step)
    requires LeaseStep(s) && Inv(w) && Can(w, s)
    ensures TaskAt(Do(w, s), s.t)
  {
    if s.Resolves? {
      ResolvesKeepsActor(w, s.t, s.proc, s.force);
    } else if s.Registers? {
      RegistersKeepsActor(w, s);
    } else if s.PutReturns? {
      PutReturnsKeepsActor(w, s);
    } else if s.PutFails? {
      PutFailsKeepsActor(w, s);
    } else if s.ReadsBack? {
      ReadsBackKeepsActor(w, s);
    } else {
      RenewsKeepsActor(w, s);
    }
  }

  lemma OtherStepKeepsActor(w: World, s: Step)
    requires Actor(s).Some? && !LeaseStep(s)
    requires StoresOk(w) && RootsOk(w) && Can(w, s) && TaskOk(w, w.tasks[s.t])
    ensures TaskAt(Do(w, s), s.t)
  {
    StepGrows(w, s);
    if s.ChecksBucket? || s.FetchesBucket? {
      BucketReadKeepsActor(w, s);
    } else if s.BucketDeleted? || s.BucketReplaced? || s.BucketNotFound? {
      BucketReplyKeepsActor(w, s);
    } else if s.Rereads? {
      RereadsKeepsActor(w, s);
    } else if s.ListsPage? || s.DeletesObject? {
      ListingKeepsActor(w, s);
    } else if s.SendsBucketDelete? || s.SendsPlainDelete? {
      BucketCallKeepsActor(w, s);
    } else if s.AnswersAlive? || s.FindsBusy? || s.RequestFails? {
      HandlerMoveKeepsActor(w, s);
    } else if s.EndsBatch? || s.SweepFails? {
      SweepMoveKeepsActor(w, s);
    } else if s.Releases? {
      ReleaseKeepsActor(w, s);
    } else if s.RecordRemoved? || s.RecordChanged? {
      RemovalKeepsActor(w, s);
    }
  }

  lemma TasksKept(w: World, s: Step)
    requires Inv(w) && Can(w, s)
    ensures TasksOk(Do(w, s))
  {
    var w' := Do(w, s);
    StepGrows(w, s);
    forall u
      ensures TaskAt(w', u)
    {
      if u in w'.tasks {
        if Actor(s) != Some(u) {
          OthersUntouched(w, s, u);
          assert TaskAt(w, u);
          SamePastKeepsTask(w, w.tasks[u], w'.tasks[u]);
          assert TaskOk(w, w'.tasks[u]);
          TaskOkGrows(w, w', w'.tasks[u]);
        } else if LeaseStep(s) {
          LeaseStepKeepsActor(w, s);
        } else {
          assert TaskAt(w, u);
          OtherStepKeepsActor(w, s);
        }
      }
    }
  }

  // ---------------------------------------------------------------- roots

  /** The messages a task's step sends are about its own handle. */
  ghost predicate Sent(w: World, s: Step, w': World)
    requires Actor(s).Some? && s.t in w'.tasks
  {
    var task' := w'.tasks[s.t];
    && (!s.Registers? && !s.Renews? ==> w'.puts == w.puts)
    && (s.Registers? || s.Renews? ==>
          && s.t in w.tasks
          && w'.puts == w.puts + {Put(task'.drive.version, task'.drive.data)}
          && task'.writes == w.tasks[s.t].writes + [Put(task'.drive.version, task'.drive.data)])
    && (w'.removes == w.removes
        || (task'.pc.Removing?
            && w'.removes == w.removes + {Remove(Some(s.t), task'.drive.version, task'.pc.why)}))
    && w'.drops <= w.drops + {task'.drive.data.root}
  }

  lemma RequestSends(w: World, s: Step)
    requires OfRequest(s) && Can(w, s)
    ensures s.t in Do(w, s).tasks && Sent(w, s, Do(w, s))
  {
  }

  lemma LeaseSends(w: World, s: Step)
    requires OfLease(s) && Can(w, s)
    ensures s.t in Do(w, s).tasks && Sent(w, s, Do(w, s))
  {
  }

  lemma SweepSends(w: World, s: Step)
    requires OfSweep(s) && Can(w, s)
    ensures s.t in Do(w, s).tasks && Sent(w, s, Do(w, s))
  {
  }

  lemma DropSends(w: World, s: Step)
    requires OfDrop(s) && Can(w, s)
    ensures s.t in Do(w, s).tasks && Sent(w, s, Do(w, s))
  {
  }

  lemma ActorSends(w: World, s: Step)
    requires Actor(s).Some? && Can(w, s)
    ensures s.t in Do(w, s).tasks && Sent(w, s, Do(w, s))
  {
    if OfRequest(s) {
      RequestSends(w, s);
    } else if OfLease(s) {
      LeaseSends(w, s);
    } else if OfDrop(s) {
      DropSends(w, s);
    } else {
      SweepSends(w, s);
    }
  }

  lemma EnvironmentSends(w: World, s: Step)
    requires Actor(s).None? && Can(w, s)
    ensures !s.SendsCreate? ==> Do(w, s).puts == w.puts
    ensures s.SendsCreate? ==> Do(w, s).puts == w.puts + {Put(0, Drive(s.id, s.root, Ready, 0, 0, 0))}
    ensures || Do(w, s).removes == w.removes
            || (s.SendsRemove? && Do(w, s).removes == w.removes + {Remove(None, s.version, Other)})
  {
  }

  lemma BucketStepKeepsRoots(w: World, s: Step)
    requires RootsOk(w) && Can(w, s)
    requires Actor(s).None?
    ensures RootsOk(Do(w, s))
  {
    var w' := Do(w, s);
    StepGrows(w, s);
    EnvironmentSends(w, s);
    forall r | r in w'.removes && r.why.Checked()
      ensures NamesDead(w', r.expected)
    {
      NamesDeadGrows(w, w', r.expected);
    }
  }

  lemma SendingKeepsRoots(w: World, s: Step, w': World)
    requires RootsOk(w) && Actor(s).Some? && Framed(w, w', s.t) && Sent(w, s, w')
    requires w'.tasks[s.t].drive.data.root in w.roots
    requires w'.tasks[s.t].pc.Removing? ==>
               && Stored(w.log, w'.tasks[s.t].drive)
               && (w'.tasks[s.t].pc.why.Checked() ==> Dead(w, w'.tasks[s.t].drive.data.root))
    ensures RootsOk(w')
  {
    var task' := w'.tasks[s.t];
    forall r | r in w'.removes && r.why.Checked()
      ensures NamesDead(w', r.expected)
    {
      if r in w.removes {
        var e, d :| Wrote(e, r.expected, d) in w.log && Dead(w, d.root);
      } else {
        var e :| Wrote(e, task'.drive.version, task'.drive.data) in w.log;
      }
    }
    assert w'.puts <= w.puts + {Put(task'.drive.version, task'.drive.data)};
  }

  lemma ActorKeepsRoots(w: World, s: Step, w': World)
    requires StoresOk(w) && RootsOk(w) && Actor(s).Some? && Framed(w, w', s.t) && Sent(w, s, w')
    requires TaskOk(w', w'.tasks[s.t])
    ensures RootsOk(w')
  {
    StoredRootIsKnown(w, w'.tasks[s.t].seen);
    SendingKeepsRoots(w, s, w');
  }

  lemma RootsKept(w: World, s: Step)
    requires Inv(w) && Can(w, s)
    ensures RootsOk(Do(w, s))
  {
    if Actor(s).None? {
      BucketStepKeepsRoots(w, s);
    } else {
      TasksKept(w, s);
      ActorFrame(w, s);
      ActorSends(w, s);
      assert TaskAt(Do(w, s), s.t);
      ActorKeepsRoots(w, s, Do(w, s));
    }
  }

  // ---------------------------------------------------------------- tokens

  lemma WritesGrow(w: World, s: Step, u: nat)
    requires Can(w, s) && u in w.tasks
    ensures u in Do(w, s).tasks && w.tasks[u].writes <= Do(w, s).tasks[u].writes
    ensures !((s.Registers? || s.Renews?) && s.t == u) ==> Do(w, s).tasks[u].writes == w.tasks[u].writes
  {
    if Actor(s).Some? {
      ActorFrame(w, s);
      ActorCarries(w, s);
    }
  }

  lemma TokensKept(w: World, s: Step)
    requires Inv(w) && Can(w, s)
    ensures TokensOk(Do(w, s))
  {
    TasksKept(w, s);
    SentBelongs(w, s);
    TokensDiffer(w, s);
    ClosedKept(w, s);
  }

  lemma LastWriteHasToken(w: World, t: nat)
    requires TasksOk(w) && t in w.tasks && w.tasks[t].writes != []
    ensures w.tasks[t].writes[|w.tasks[t].writes| - 1].data.token != 0
  {
    assert TaskAt(w, t);
    assert OwnWrite(w.tasks[t], |w.tasks[t].writes| - 1);
  }

  lemma PutsStay(w: World, s: Step)
    requires Can(w, s)
    ensures w.puts <= Do(w, s).puts
  {
    if Actor(s).Some? {
      ActorFrame(w, s);
    }
  }

  /** Only a lease write that was sent is ever given up on. */
  lemma ClosedKept(w: World, s: Step)
    requires TokensOk(w) && TasksOk(w) && Can(w, s)
    ensures forall p | p in Do(w, s).closed :: p.data.token != 0 && p in Do(w, s).puts
  {
    OnlyFailureCloses(w, s);
    PutsStay(w, s);
    if s.PutFails? {
      assert TaskAt(w, s.t);
      LastWriteHasToken(w, s.t);
    }
  }

  lemma OnlyFailureCloses(w: World, s: Step)
    requires Can(w, s)
    ensures Do(w, s).closed == w.closed
            || (s.PutFails? && Do(w, s).closed == w.closed + {Put(w.tasks[s.t].drive.version, w.tasks[s.t].drive.data)})
  {
    if Actor(s).Some? && !s.PutFails? {
      ActorCarries(w, s);
    }
  }

  lemma SentPutHasOwner(w: World, s: Step, p: Put) returns (t: nat)
    requires TokensOk(w) && Can(w, s) && p in Do(w, s).puts && p.data.token != 0
    ensures t in Do(w, s).tasks && p in Do(w, s).tasks[t].writes
  {
    if Actor(s).Some? {
      ActorSends(w, s);
    } else {
      EnvironmentSends(w, s);
    }
    if p in w.puts {
      t :| t in w.tasks && p in w.tasks[t].writes;
      WritesGrow(w, s, t);
    } else {
      t := s.t;
    }
  }

  lemma SentBelongs(w: World, s: Step)
    requires TokensOk(w) && Can(w, s) && TasksOk(Do(w, s))
    ensures forall p | p in Do(w, s).puts && p.data.token != 0 ::
              exists t :: t in Do(w, s).tasks && p in Do(w, s).tasks[t].writes
    ensures forall p | p in Do(w, s).puts && p.data.token == 0 :: p.expected == 0
  {
    var w' := Do(w, s);
    forall p | p in w'.puts && p.data.token != 0
      ensures exists t :: t in w'.tasks && p in w'.tasks[t].writes
    {
      var t := SentPutHasOwner(w, s, p);
    }
    if Actor(s).None? {
      EnvironmentSends(w, s);
    } else {
      ActorSends(w, s);
      if s.Registers? || s.Renews? {
        LastWriteHasToken(w', s.t);
      }
    }
  }

  lemma TokenKept(w: World, s: Step, u: nat)
    requires Can(w, s) && u in Do(w, s).tasks
    requires !(s.Registers? && s.t == u) && !(s.Resolves? && s.t == u)
    requires u in w.tasks && PcOk(w, w.tasks[u])
    ensures TokenOf(Do(w, s).tasks[u]) == TokenOf(w.tasks[u])
  {
    WritesGrow(w, s, u);
  }

  lemma TokenTrace(w: World, s: Step, t: nat)
    requires TasksOk(w) && Can(w, s) && t in Do(w, s).tasks
    ensures var token := TokenOf(Do(w, s).tasks[t]);
            if s.Registers? && s.t == t then token == s.token
            else token == 0 || (t in w.tasks && token == TokenOf(w.tasks[t]))
  {
    if t in w.tasks {
      assert TaskAt(w, t);
      if !(s.Registers? && s.t == t) {
        TokenKept(w, s, t);
      }
    }
  }

  lemma TokensDiffer(w: World, s: Step)
    requires TokensOk(w) && TasksOk(w) && Can(w, s)
    ensures forall t, u | t in Do(w, s).tasks && u in Do(w, s).tasks
              && TokenOf(Do(w, s).tasks[t]) == TokenOf(Do(w, s).tasks[u]) != 0 :: t == u
  {
    var w' := Do(w, s);
    forall t, u | t in w'.tasks && u in w'.tasks && TokenOf(w'.tasks[t]) == TokenOf(w'.tasks[u]) != 0
      ensures t == u
    {
      TokenTrace(w, s, t);
      TokenTrace(w, s, u);
    }
  }

  // ---------------------------------------------------------------- worker slots

  /** When only what process `p` holds may end, and its slot is free again, the slots stay right. */
  lemma HoldsLeave(w: World, w': World, p: nat)
    requires SlotsOk(w) && w'.slots == w.slots - {p} && forall u | u in w'.tasks :: SlotHistoryOk(w'.tasks[u])
    requires forall u, q :: HoldsAt(w', u, q) <==> HoldsAt(w, u, q) && q != p
    ensures SlotsOk(w')
  {
    forall q | q in w'.slots
      ensures exists u :: HoldsAt(w', u, q)
    {
      var u :| HoldsAt(w, u, q);
      assert HoldsAt(w', u, q);
    }
  }

  lemma HoldsStay(w: World, w': World)
    requires SlotsOk(w) && w'.slots == w.slots && forall u | u in w'.tasks :: SlotHistoryOk(w'.tasks[u])
    requires forall u, q :: HoldsAt(w', u, q) <==> HoldsAt(w, u, q)
    ensures SlotsOk(w')
  {
    forall q | q in w'.slots
      ensures exists u :: HoldsAt(w', u, q)
    {
      var u :| HoldsAt(w, u, q);
      assert HoldsAt(w', u, q);
    }
  }

  /** A task that takes the free slot of its process keeps the slots right. */
  lemma HoldsJoin(w: World, w': World, t: nat, p: nat)
    requires SlotsOk(w) && p !in w.slots && w'.slots == w.slots + {p}
    requires forall u | u in w'.tasks :: SlotHistoryOk(w'.tasks[u])
    requires forall u, q :: HoldsAt(w', u, q) <==> HoldsAt(w, u, q) || (u == t && q == p)
    ensures SlotsOk(w')
  {
    forall q | q in w'.slots
      ensures exists u :: HoldsAt(w', u, q)
    {
      if q in w.slots {
        var u :| HoldsAt(w, u, q);
        assert HoldsAt(w', u, q);
      } else {
        assert HoldsAt(w', t, q);
      }
    }
  }

  lemma ReleaseKeepsSlots(w: World, s: Step)
    requires s.Releases? && SlotsOk(w) && Can(w, s)
    ensures SlotsOk(Do(w, s))
  {
    var task, w' := w.tasks[s.t], Do(w, s);
    assert SlotHistoryOk(task) && HoldsAt(w, s.t, task.proc);
    forall u, q
      ensures HoldsAt(w', u, q) <==> HoldsAt(w, u, q) && q != task.proc
    {
      assert HoldsAt(w, u, task.proc) ==> u == s.t;
    }
    HoldsLeave(w, w', task.proc);
  }

  lemma CrashKeepsSlots(w: World, p: nat)
    requires SlotsOk(w)
    ensures SlotsOk(Do(w, Crashes(p)))
  {
    var w' := Do(w, Crashes(p));
    forall u | u in w'.tasks
      ensures SlotHistoryOk(w'.tasks[u])
    {
      assert SlotHistoryOk(w.tasks[u]);
    }
    HoldsLeave(w, w', p);
  }

  lemma RegisterKeepsSlots(w: World, s: Step)
    requires s.Registers? && SlotsOk(w) && Can(w, s)
    ensures SlotsOk(Do(w, s))
  {
    var w' := Do(w, s);
    assert SlotHistoryOk(w.tasks[s.t]);
    assert forall u | u != s.t :: u in w'.tasks <==> u in w.tasks;
    assert forall u | u in w.tasks && u != s.t :: w'.tasks[u] == w.tasks[u];
    HoldsJoin(w, w', s.t, w.tasks[s.t].proc);
  }

  lemma MoveKeepsSlots(w: World, s: Step, w': World)
    requires SlotsOk(w) && Actor(s).Some? && !s.Registers? && !s.Releases?
    requires Framed(w, w', s.t) && Carried(w, s, w')
    requires s.t !in w.tasks ==> SlotHistoryOk(w'.tasks[s.t]) && !Holds(w'.tasks[s.t])
    ensures SlotsOk(w')
  {
    assert s.t in w.tasks ==> SlotHistoryOk(w.tasks[s.t]);
    HoldsStay(w, w');
  }

  lemma SlotsKept(w: World, s: Step)
    requires SlotsOk(w) && Can(w, s)
    ensures SlotsOk(Do(w, s))
  {
    if s.Crashes? {
      CrashKeepsSlots(w, s.proc);
    } else if s.Registers? {
      RegisterKeepsSlots(w, s);
    } else if s.Releases? {
      ReleaseKeepsSlots(w, s);
    } else if Actor(s).Some? {
      ActorFrame(w, s);
      ActorCarries(w, s);
      MoveKeepsSlots(w, s, Do(w, s));
    } else {
      HoldsStay(w, Do(w, s));
    }
  }

  // ---------------------------------------------------------------- every reachable state

  lemma StepKept(w: World, s: Step)
    requires Inv(w) && Can(w, s)
    ensures Inv(Do(w, s))
  {
    StoresKept(w, s);
    RootsKept(w, s);
    TokensKept(w, s);
    SlotsKept(w, s);
    TasksKept(w, s);
  }

  lemma {:induction false} RunKept(w: World, steps: seq<Step>)
    requires Inv(w) && CanRun(w, steps)
    ensures Inv(After(w, steps))
    decreases |steps|
  {
    if steps == [] {
    } else {
      StepKept(w, steps[0]);
      RunKept(Do(w, steps[0]), steps[1..]);
    }
  }

  /** Every state the protocol can reach satisfies the invariant. */
  lemma ReachableIsSound(w: World)
    requires Reachable(w)
    ensures Inv(w)
  {
    var w0: World, steps: seq<Step> :| Initial(w0) && CanRun(w0, steps) && After(w0, steps) == w;
    assert Inv(w0);
    RunKept(w0, steps);
  }
}
