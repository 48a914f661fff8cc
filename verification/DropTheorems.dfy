/** What dropping a stale record guarantees: only the caller's own incarnation goes, and success means it was gone. */
module DropTheorems {
  import opened Options
  import opened DriveStore
  import opened LeaseProtocol
  import opened LeaseInvariant

  /** After the first `k` changes, no record of this drive and incarnation was stored. */
  predicate AbsentAfter(log: Log, k: nat, d: Drive) {
    && k <= |log|
    && var current := Current(log[..k]);
       current.None? || current.value.data.id != d.id || current.value.data.root != d.root
  }

  predicate BeforeDrop(pc: Pc) {
    !pc.Removing? && !pc.Rereading? && !pc.Exiting? && !pc.Done?
  }

  predicate InDrop(pc: Pc) {
    pc.Removing? || pc.Rereading?
  }

  /** A drop that reported success. */
  predicate DroppedPc(pc: Pc) {
    pc == Exiting(Dropped) || pc == Done(Dropped)
  }

  ghost predicate DropFromOk(w: World, task: Task) {
    && (BeforeDrop(task.pc) ==> task.dropFrom.None?)
    && (InDrop(task.pc) ==> task.dropFrom.Some?)
    && (task.dropFrom.Some? ==> task.dropFrom.value <= |w.log|)
  }

  /** The record stored under a version is of the drive and incarnation a task resolved. */
  ghost predicate NamesOwn(log: Log, version: nat, task: Task) {
    exists e, d :: Wrote(e, version, d) in log && d.id == task.seen.data.id && d.root == task.seen.data.root
  }

  /** A removal sent by a task was sent in its drop and names its own record. */
  ghost predicate OwnRemoval(w: World, r: Remove) {
    r.sender.Some? ==>
      && r.sender.value in w.tasks && w.tasks[r.sender.value].dropFrom.Some?
      && NamesOwn(w.log, r.expected, w.tasks[r.sender.value])
  }

  /** A removal that was applied was applied after its sender's drop had begun. */
  ghost predicate InTime(w: World, i: nat)
    requires i < |w.log|
  {
    w.log[i].Removed? && w.log[i].sender.Some? ==>
      && w.log[i].sender.value in w.tasks
      && w.tasks[w.log[i].sender.value].dropFrom.Some?
      && w.tasks[w.log[i].sender.value].dropFrom.value <= i
  }

  ghost predicate DropsOk(w: World) {
    && (forall t | t in w.tasks :: DropFromOk(w, w.tasks[t]))
    && (forall r | r in w.removes :: OwnRemoval(w, r))
    && (forall r | r in w.removed :: r in w.removes && Removed(r.expected, r.why, r.sender) in w.log)
    && (forall i | 0 <= i < |w.log| :: InTime(w, i))
  }

  // ---------------------------------------------------------------- what a step does to a drop

  /** A step goes on with what there is, or begins a drop now. */
  predicate DropStep(a: Task, b: Task, now: nat) {
    || (b.dropFrom == a.dropFrom && (BeforeDrop(b.pc) ==> BeforeDrop(a.pc)) && (InDrop(b.pc) ==> InDrop(a.pc)))
    || (BeforeDrop(a.pc) && b.pc.Removing? && b.dropFrom == Some(now))
  }

  ghost predicate Drops(w: World, s: Step, w': World)
    requires Actor(s).Some?
  {
    && (s.t !in w.tasks && s.t in w'.tasks ==> BeforeDrop(w'.tasks[s.t].pc) && w'.tasks[s.t].dropFrom.None?)
    && (s.t in w.tasks && s.t in w'.tasks ==> DropStep(w.tasks[s.t], w'.tasks[s.t], |w.log|))
  }

  lemma RequestDrops(w: World, s: Step)
    requires OfRequest(s) && Can(w, s)
    ensures Drops(w, s, Do(w, s))
  {
  }

  lemma LeaseDrops(w: World, s: Step)
    requires OfLease(s) && Can(w, s)
    ensures Drops(w, s, Do(w, s))
  {
  }

  lemma SweepDrops(w: World, s: Step)
    requires OfSweep(s) && Can(w, s)
    ensures Drops(w, s, Do(w, s))
  {
  }

  lemma BucketReplyDrops(w: World, s: Step)
    requires (s.BucketDeleted? || s.BucketReplaced? || s.BucketNotFound?) && Can(w, s)
    ensures Drops(w, s, Do(w, s))
  {
  }

  lemma RemovalDrops(w: World, s: Step)
    requires (s.RecordRemoved? || s.RecordChanged? || s.Rereads?) && Can(w, s)
    ensures Drops(w, s, Do(w, s))
  {
  }

  lemma ActorDrops(w: World, s: Step)
    requires Actor(s).Some? && Can(w, s)
    ensures Drops(w, s, Do(w, s))
  {
    if OfRequest(s) {
      RequestDrops(w, s);
    } else if OfLease(s) {
      LeaseDrops(w, s);
    } else if OfSweep(s) {
      SweepDrops(w, s);
    } else if s.RecordRemoved? || s.RecordChanged? || s.Rereads? {
      RemovalDrops(w, s);
    } else {
      BucketReplyDrops(w, s);
    }
  }

  // ---------------------------------------------------------------- every step keeps it

  /** Tasks stay, with the record they resolved and the moment their drop began. */
  ghost predicate Remembers(w: World, w': World) {
    forall t | t in w.tasks ::
      && t in w'.tasks && w'.tasks[t].seen == w.tasks[t].seen
      && (w.tasks[t].dropFrom.Some? ==> w'.tasks[t].dropFrom == w.tasks[t].dropFrom)
  }

  lemma NamesOwnGrows(log: Log, log': Log, version: nat, task: Task, task': Task)
    requires log <= log' && task'.seen == task.seen && NamesOwn(log, version, task)
    ensures NamesOwn(log', version, task')
  {
    var e, d :| Wrote(e, version, d) in log && d.id == task.seen.data.id && d.root == task.seen.data.root;
    InGrows(log, log', Wrote(e, version, d));
  }

  lemma OwnRemovalGrows(w: World, w': World, r: Remove)
    requires OwnRemoval(w, r) && Remembers(w, w') && w.log <= w'.log
    ensures OwnRemoval(w', r)
  {
    if r.sender.Some? {
      var t := r.sender.value;
      NamesOwnGrows(w.log, w'.log, r.expected, w.tasks[t], w'.tasks[t]);
    }
  }

  lemma InTimeGrows(w: World, w': World, i: nat)
    requires i < |w.log| && w.log <= w'.log && InTime(w, i) && Remembers(w, w')
    ensures InTime(w', i)
  {
  }

  lemma EnvironmentTasks(w: World, s: Step)
    requires Actor(s).None? && Can(w, s)
    ensures Do(w, s).tasks.Keys == w.tasks.Keys && |w.log| <= |Do(w, s).log|
    ensures forall t | t in w.tasks ::
              Do(w, s).tasks[t] == w.tasks[t] || Do(w, s).tasks[t] == w.tasks[t].(pc := Done(Crashed))
  {
  }

  lemma EnvironmentRemembers(w: World, w': World)
    requires DropsOk(w) && w'.tasks.Keys == w.tasks.Keys && |w.log| <= |w'.log|
    requires forall t | t in w.tasks ::
               w'.tasks[t] == w.tasks[t] || w'.tasks[t] == w.tasks[t].(pc := Done(Crashed))
    ensures Remembers(w, w') && forall t | t in w'.tasks :: DropFromOk(w', w'.tasks[t])
  {
    forall t | t in w'.tasks
      ensures DropFromOk(w', w'.tasks[t])
    {
      assert DropFromOk(w, w.tasks[t]);
    }
  }

  lemma ActorRemembers(w: World, s: Step, w': World)
    requires DropsOk(w) && Actor(s).Some? && Framed(w, w', s.t) && Carried(w, s, w') && Drops(w, s, w')
    ensures Remembers(w, w') && forall t | t in w'.tasks :: DropFromOk(w', w'.tasks[t])
  {
    assert s.t in w.tasks ==> DropFromOk(w, w.tasks[s.t]);
  }

  lemma HandleIsOwn(w: World, t: nat)
    requires t in w.tasks && w.tasks[t].pc.Removing? && TaskOk(w, w.tasks[t]) && DropFromOk(w, w.tasks[t])
    ensures OwnRemoval(w, Remove(Some(t), w.tasks[t].drive.version, w.tasks[t].pc.why))
  {
    var drive := w.tasks[t].drive;
    var e :| Wrote(e, drive.version, drive.data) in w.log;
  }

  lemma ActorKeepsDrops(w: World, s: Step, w': World)
    requires DropsOk(w) && Actor(s).Some? && Framed(w, w', s.t) && Carried(w, s, w') && Drops(w, s, w')
    requires Sent(w, s, w') && TaskOk(w', w'.tasks[s.t])
    ensures DropsOk(w')
  {
    ActorRemembers(w, s, w');
    forall r | r in w'.removes
      ensures OwnRemoval(w', r)
    {
      if r in w.removes {
        OwnRemovalGrows(w, w', r);
      } else {
        HandleIsOwn(w', s.t);
      }
    }
    forall i | 0 <= i < |w'.log|
      ensures InTime(w', i)
    {
      InTimeGrows(w, w', i);
    }
  }

  lemma AppliedInTime(w: World, r: Remove)
    requires DropsOk(w) && r in w.removes && Can(w, AppliesRemove(r))
    ensures InTime(Do(w, AppliesRemove(r)), |w.log|)
  {
    assert OwnRemoval(w, r);
    if r.sender.Some? {
      assert DropFromOk(w, w.tasks[r.sender.value]);
    }
  }

  lemma EnvironmentKeepsDrops(w: World, s: Step)
    requires RootsOk(w) && DropsOk(w) && Actor(s).None? && Can(w, s)
    ensures DropsOk(Do(w, s))
  {
    var w' := Do(w, s);
    StepGrows(w, s);
    EnvironmentTasks(w, s);
    EnvironmentRemembers(w, w');
    EnvironmentSends(w, s);
    forall r | r in w'.removes
      ensures OwnRemoval(w', r)
    {
      if r in w.removes {
        OwnRemovalGrows(w, w', r);
      }
    }
    forall i | 0 <= i < |w'.log|
      ensures InTime(w', i)
    {
      if i < |w.log| {
        InTimeGrows(w, w', i);
      } else if s.AppliesRemove? {
        AppliedInTime(w, s.remove);
      }
    }
    EnvironmentKeepsAcks(w, s);
  }

  lemma EnvironmentKeepsAcks(w: World, s: Step)
    requires RootsOk(w) && DropsOk(w) && Actor(s).None? && Can(w, s)
    ensures var w' := Do(w, s);
      forall r | r in w'.removed :: r in w'.removes && Removed(r.expected, r.why, r.sender) in w'.log
  {
    var w' := Do(w, s);
    StepGrows(w, s);
    forall r | r in w'.removed
      ensures r in w'.removes && Removed(r.expected, r.why, r.sender) in w'.log
    {
      if r in w.removed {
        InGrows(w.log, w'.log, Removed(r.expected, r.why, r.sender));
      } else {
        assert w'.log[|w.log|] == Removed(r.expected, r.why, r.sender);
      }
    }
  }

  lemma DropsKept(w: World, s: Step)
    requires Inv(w) && DropsOk(w) && Can(w, s)
    ensures DropsOk(Do(w, s))
  {
    if Actor(s).None? {
      EnvironmentKeepsDrops(w, s);
    } else {
      ActorFrame(w, s);
      ActorCarries(w, s);
      ActorDrops(w, s);
      ActorSends(w, s);
      TasksKept(w, s);
      assert TaskAt(Do(w, s), s.t);
      ActorKeepsDrops(w, s, Do(w, s));
    }
  }

  lemma {:induction false} DropsRun(w: World, steps: seq<Step>)
    requires Inv(w) && DropsOk(w) && CanRun(w, steps)
    ensures DropsOk(After(w, steps))
    decreases |steps|
  {
    if steps == [] {
    } else {
      StepKept(w, steps[0]);
      DropsKept(w, steps[0]);
      DropsRun(Do(w, steps[0]), steps[1..]);
    }
  }

  lemma ReachableDrops(w: World)
    requires Reachable(w)
    ensures Inv(w) && DropsOk(w)
  {
    var w0: World, steps: seq<Step> :| Initial(w0) && CanRun(w0, steps) && After(w0, steps) == w;
    ReachableIsSound(w);
    assert Inv(w0);
    assert DropsOk(w0);
    DropsRun(w0, steps);
  }

  // ---------------------------------------------------------------- the results

  /** A removed version was the record until then, and nothing was right after. */
  lemma RemovalLeavesNothing(log: Log, i: nat, d: Drive)
    requires i < |log| && log[i].Removed?
    ensures AbsentAfter(log, i + 1, d)
  {
    assert log[..i + 1][i] == log[i];
  }

  /**
   A drop that reports success met a moment of its own call without a record of the drive and incarnation
   it was dropping: after some number of changes, no fewer than when the call began and no more than when
   it ends.
   */
  lemma DroppedMeansAbsent(w: World, s: Step)
    requires Reachable(w) && Can(w, s) && Actor(s).Some? && s.t in w.tasks
    requires s.t in Do(w, s).tasks && InDrop(w.tasks[s.t].pc) && DroppedPc(Do(w, s).tasks[s.t].pc)
    ensures w.tasks[s.t].dropFrom.Some?
    ensures exists k :: w.tasks[s.t].dropFrom.value <= k <= |w.log| && AbsentAfter(w.log, k, w.tasks[s.t].drive.data)
  {
    ReachableDrops(w);
    var task := w.tasks[s.t];
    assert DropFromOk(w, task);
    if s.RecordRemoved? {
      var c := Removed(task.drive.version, task.pc.why, Some(s.t));
      var i :| 0 <= i < |w.log| && w.log[i] == c;
      assert InTime(w, i);
      RemovalLeavesNothing(w.log, i, task.drive.data);
      assert task.dropFrom.value <= i + 1 <= |w.log| && AbsentAfter(w.log, i + 1, task.drive.data);
    } else {
      OnlyTwoWaysToDrop(w, s);
      assert w.log[..|w.log|] == w.log;
      assert AbsentAfter(w.log, |w.log|, task.drive.data);
    }
  }

  /** Only two answers end a drop with success. */
  lemma OnlyTwoWaysToDrop(w: World, s: Step)
    requires Can(w, s) && Actor(s).Some? && s.t in w.tasks && InDrop(w.tasks[s.t].pc) && !s.RecordRemoved?
    requires s.t in Do(w, s).tasks && DroppedPc(Do(w, s).tasks[s.t].pc)
    ensures s.Rereads? && Reread(w.tasks[s.t].drive.data, w.tasks[s.t].pc.tries, Current(w.log)).Gone?
  {
  }

  /**
   Whatever a delete request or its worker removes is the record of the very drive and incarnation that
   it resolved, and it is removed after its own drop began.
   */
  lemma RemovesOnlyItsOwn(w: World, i: nat, t: nat)
    requires Reachable(w) && i < |w.log| && w.log[i].Removed? && w.log[i].sender == Some(t)
    ensures i > 0 && w.log[i - 1].Wrote? && w.log[i - 1].version == w.log[i].version
    ensures t in w.tasks && w.log[i - 1].data.id == w.tasks[t].seen.data.id
    ensures w.log[i - 1].data.root == w.tasks[t].seen.data.root
    ensures w.tasks[t].dropFrom.Some? && w.tasks[t].dropFrom.value <= i
  {
    ReachableDrops(w);
    RemovedWasOwn(w, i, t);
  }

  lemma RemovedWasOwn(w: World, i: nat, t: nat)
    requires StoresOk(w) && DropsOk(w) && i < |w.log| && w.log[i].Removed? && w.log[i].sender == Some(t)
    ensures i > 0 && w.log[i - 1].Wrote? && w.log[i - 1].version == w.log[i].version
    ensures t in w.tasks && w.log[i - 1].data.id == w.tasks[t].seen.data.id
    ensures w.log[i - 1].data.root == w.tasks[t].seen.data.root
    ensures w.tasks[t].dropFrom.Some? && w.tasks[t].dropFrom.value <= i
  {
    var c := w.log[i];
    assert c in w.log && Lawful(w.log, i) && InTime(w, i);
    assert OwnRemoval(w, Remove(c.sender, c.version, c.why));
    var task := w.tasks[t];
    var e, d :| Wrote(e, c.version, d) in w.log && d.id == task.seen.data.id && d.root == task.seen.data.root;
    var j :| 0 <= j < |w.log| && w.log[j] == Wrote(e, c.version, d);
    VersionsAreUnique(w.log, i - 1, j);
  }
}
