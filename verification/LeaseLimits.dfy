/**
 Where the drive-delete protocol promises less than its comments say, and exactly when each promise holds.
 */
module LeaseLimits {
  import opened Options
  import opened DriveStore
  import opened LeaseProtocol
  import opened LeaseInvariant
  import opened LeaseTheorems
  import opened DropTheorems

  // ---------------------------------------------------------------- read-backs

  /** A read-back recognises the write under way exactly when that write is the current record. */
  lemma ReadBackIsExact(w: World, t: nat)
    requires Reachable(w) && t in w.tasks && w.tasks[t].pc.Reading?
    ensures w.tasks[t].writes != []
    ensures ReconcileLease(w.tasks[t].drive, Current(w.log)).Some? <==> HeldBy(w.log, LastWrite(w.tasks[t]))
  {
    ReachableIsSound(w);
    ReadBackSees(w, t);
  }

  /** A landed write that is current is the last one that landed. */
  lemma CurrentIsLastLanded(w: World, t: nat, k: nat)
    requires StoresOk(w) && TasksOk(w) && t in w.tasks && k < |w.tasks[t].landed| <= |w.tasks[t].writes|
    requires HeldBy(w.log, w.tasks[t].writes[k])
    ensures k == |w.tasks[t].landed| - 1 && CurrentVersion(w.log) == w.tasks[t].landed[k]
  {
    var task := w.tasks[t];
    assert TaskAt(w, t);
    assert LandedAs(w.log, task, k);
    var i :| 0 <= i < |w.log| && w.log[i] == Wrote(task.writes[k].expected, task.landed[k], task.writes[k].data);
    ExpectedIsUsed(w, t, k);
    SameFenceSameChange(w.log, i, |w.log| - 1);
    if k + 1 < |task.landed| {
      assert OwnWrite(task, k + 1);
      ReplacedVersionIsPast(w, t, k + 1);
    }
  }

  /** Some other delete's token is the stored one. */
  ghost predicate RivalHolds(w: World, t: nat) {
    exists u :: u in w.tasks && u != t && w.tasks[u].writes != [] && TokenOf(w.tasks[u]) == CurrentToken(w.log)
  }

  /** A stored token is some task's; so somebody else's exactly if there is one and it is not the own one. */
  lemma RivalIff(w: World, t: nat)
    requires Inv(w) && t in w.tasks && w.tasks[t].writes != []
    ensures RivalHolds(w, t) <==> CurrentToken(w.log) != 0 && CurrentToken(w.log) != TokenOf(w.tasks[t])
  {
    TokenIsReal(w, t);
    if RivalHolds(w, t) {
      var u :| u in w.tasks && u != t && w.tasks[u].writes != [] && TokenOf(w.tasks[u]) == CurrentToken(w.log);
      TokenIsReal(w, u);
    } else if CurrentToken(w.log) != 0 {
      var u, k := LoggedPutHasOwner(w, |w.log| - 1);
      assert TaskAt(w, u);
      assert OwnWrite(w.tasks[u], k);
    }
  }

  /**
   When a read-back does not find its write: the worker itself is still the holder exactly if the record it
   read has the version the write was to replace, and another delete is exactly if the record carries a
   token and that is not so.  In the remaining case there is no lease: the record is gone or was created anew.
   */
  lemma LostMeansRivalIff(w: World, t: nat)
    requires Reachable(w) && t in w.tasks && w.tasks[t].pc.Reading?
    requires ReconcileLease(w.tasks[t].drive, Current(w.log)).None?
    ensures w.tasks[t].writes != []
    ensures CurrentToken(w.log) == TokenOf(w.tasks[t]) <==>
              w.tasks[t].landed != [] && CurrentVersion(w.log) == LastWrite(w.tasks[t]).expected
    ensures RivalHolds(w, t) <==>
              && CurrentToken(w.log) != 0
              && !(w.tasks[t].landed != [] && CurrentVersion(w.log) == LastWrite(w.tasks[t]).expected)
  {
    ReadBackIsExact(w, t);
    ReachableIsSound(w);
    RivalIff(w, t);
    LostToItselfIff(w, t);
  }

  lemma LostToItselfIff(w: World, t: nat)
    requires Inv(w) && t in w.tasks && w.tasks[t].pc.Reading? && w.tasks[t].writes != []
    requires !HeldBy(w.log, LastWrite(w.tasks[t]))
    ensures CurrentToken(w.log) == TokenOf(w.tasks[t]) <==>
              w.tasks[t].landed != [] && CurrentVersion(w.log) == LastWrite(w.tasks[t]).expected
  {
    var task := w.tasks[t];
    assert TaskAt(w, t);
    assert OwnWrite(task, |task.writes| - 1);
    if task.landed != [] {
      OwnTokenIff(w, t);
    } else if CurrentToken(w.log) == TokenOf(task) {
      TokenMeansWrite(w, t);
    }
  }

  lemma StoredWrite(w: World, t: nat) returns (k: nat)
    requires StoresOk(w) && TokensOk(w) && TasksOk(w) && t in w.tasks && w.tasks[t].writes != []
    requires CurrentToken(w.log) == TokenOf(w.tasks[t])
    ensures k < |w.tasks[t].writes| && HeldBy(w.log, w.tasks[t].writes[k])
  {
    TokenMeansWrite(w, t);
    var c := w.log[|w.log| - 1];
    k :| 0 <= k < |w.tasks[t].writes| && w.tasks[t].writes[k] == Put(c.expected, c.data);
  }

  lemma HeldCarriesToken(w: World, task: Task)
    requires HistoryOk(w, task) && task.writes != [] && HeldBy(w.log, LastWrite(task))
    ensures CurrentToken(w.log) == TokenOf(task)
  {
    assert OwnWrite(task, |task.writes| - 1);
  }

  lemma WritesOfTask(w: World, t: nat)
    requires TasksOk(w) && t in w.tasks
    ensures HistoryOk(w, w.tasks[t])
    ensures |w.tasks[t].landed| <= |w.tasks[t].writes| <= |w.tasks[t].landed| + 1
  {
    assert TaskAt(w, t);
  }

  /** What a task that has won the lease finds in the record while its token is the stored one. */
  lemma OwnTokenIff(w: World, t: nat)
    requires StoresOk(w) && TokensOk(w) && TasksOk(w) && t in w.tasks && w.tasks[t].landed != []
    ensures |w.tasks[t].landed| <= |w.tasks[t].writes|
    ensures CurrentToken(w.log) == TokenOf(w.tasks[t]) <==>
              || CurrentVersion(w.log) == w.tasks[t].landed[|w.tasks[t].landed| - 1]
              || HeldBy(w.log, LastWrite(w.tasks[t]))
  {
    WritesOfTask(w, t);
    LandedVersionCarriesToken(w, t, |w.tasks[t].landed| - 1);
    if CurrentToken(w.log) == TokenOf(w.tasks[t]) {
      var k := StoredWrite(w, t);
      if k < |w.tasks[t].landed| {
        CurrentIsLastLanded(w, t, k);
      }
    } else if HeldBy(w.log, LastWrite(w.tasks[t])) {
      HeldCarriesToken(w, w.tasks[t]);
    }
  }

  // ---------------------------------------------------------------- leases nobody sweeps under

  /** If these steps can happen, the token of this task is not the stored one after them. */
  ghost predicate StaysOut(w: World, steps: seq<Step>, t: nat)
    requires t in w.tasks
  {
    CanRun(w, steps) ==> CurrentToken(After(w, steps).log) != TokenOf(w.tasks[t])
  }

  lemma {:induction false} TokenRun(w: World, steps: seq<Step>, t: nat)
    requires CanRun(w, steps) && t in w.tasks && w.tasks[t].writes != []
    ensures t in After(w, steps).tasks && After(w, steps).tasks[t].writes != []
    ensures TokenOf(After(w, steps).tasks[t]) == TokenOf(w.tasks[t])
    decreases |steps|
  {
    if steps == [] {
    } else {
      WritesGrow(w, steps[0], t);
      TokenRun(Do(w, steps[0]), steps[1..], t);
    }
  }

  /** Given up for good: the one write is no longer on its way and is not the record. */
  predicate Quit(w: World, t: nat, p: Put) {
    && w.strict && t in w.tasks && w.tasks[t].writes == [p]
    && (w.tasks[t].pc.Exiting? || w.tasks[t].pc.Done?)
    && p in w.closed && !HeldBy(w.log, p)
  }

  lemma QuitActs(w: World, s: Step, t: nat, p: Put)
    requires Quit(w, t, p) && Can(w, s) && Actor(s) == Some(t)
    ensures s.Releases?
  {
  }

  lemma QuitStays(w: World, s: Step, t: nat, p: Put)
    requires Quit(w, t, p) && Can(w, s)
    ensures Quit(Do(w, s), t, p)
  {
    WritesGrow(w, s, t);
    if Actor(s) == Some(t) {
      QuitActs(w, s, t, p);
    } else {
      OthersUntouched(w, s, t);
      if Actor(s).Some? {
        ActorFrame(w, s);
      }
    }
  }

  lemma {:induction false} QuitRun(w: World, steps: seq<Step>, t: nat, p: Put)
    requires Inv(w) && Quit(w, t, p) && CanRun(w, steps)
    ensures Inv(After(w, steps)) && Quit(After(w, steps), t, p)
    decreases |steps|
  {
    if steps == [] {
    } else {
      StepKept(w, steps[0]);
      QuitStays(w, steps[0], t, p);
      QuitRun(Do(w, steps[0]), steps[1..], t, p);
    }
  }

  lemma QuitStaysOut(w: World, steps: seq<Step>, t: nat)
    requires Inv(w) && AllLostOk(w) && w.strict && t in w.tasks && w.tasks[t].landed == []
    requires w.tasks[t].writes != []
    requires (w.tasks[t].pc.Exiting? || w.tasks[t].pc.Done?) && w.tasks[t].pc != Done(Crashed)
    ensures StaysOut(w, steps, t)
  {
    assert TaskAt(w, t) && LostAt(w, t);
    if CanRun(w, steps) {
      var p := LastWrite(w.tasks[t]);
      assert w.tasks[t].writes == [p];
      QuitRun(w, steps, t, p);
      TokenRun(w, steps, t);
      if CurrentToken(After(w, steps).log) == TokenOf(w.tasks[t]) {
        TokenMeansWrite(After(w, steps), t);
      }
    }
  }

  lemma SupersededStaysOut(w: World, steps: seq<Step>, t: nat)
    requires Inv(w) && Superseded(w, t)
    ensures StaysOut(w, steps, t)
  {
    if CanRun(w, steps) {
      SupersededRun(w, steps, t);
      TokenRun(w, steps, t);
    }
  }

  lemma RunOf1(w: World, s: Step)
    requires Can(w, s)
    ensures CanRun(w, [s]) && After(w, [s]) == Do(w, s)
  {
    assert [s][1..] == [];
    assert CanRun(Do(w, s), []) && After(Do(w, s), []) == Do(w, s);
  }

  lemma PutMovesToken(w: World, p: Put, v: nat)
    requires Can(w, AppliesPut(p, v))
    ensures CanRun(w, [AppliesPut(p, v)]) && CurrentToken(After(w, [AppliesPut(p, v)]).log) == p.data.token
  {
    RunOf1(w, AppliesPut(p, v));
  }

  lemma LateWriteLands(w: World, t: nat) returns (steps: seq<Step>)
    requires TasksOk(w) && !w.strict && t in w.tasks && w.tasks[t].landed == []
    requires w.tasks[t].writes != [] && CurrentVersion(w.log) == LastWrite(w.tasks[t]).expected
    ensures !StaysOut(w, steps, t)
  {
    assert TaskAt(w, t);
    var p := LastWrite(w.tasks[t]);
    assert p in w.tasks[t].writes && OwnWrite(w.tasks[t], 0);
    var v := UnusedExists(w.log);
    steps := [AppliesPut(p, v)];
    PutMovesToken(w, p, v);
  }

  lemma NeverLandedIff(w: World, t: nat)
    requires Reachable(w) && t in w.tasks && w.tasks[t].writes != [] && w.tasks[t].landed == []
    requires (w.tasks[t].pc.Exiting? || w.tasks[t].pc.Done?) && w.tasks[t].pc != Done(Crashed)
    ensures (forall steps :: StaysOut(w, steps, t)) <==>
              && CurrentToken(w.log) != TokenOf(w.tasks[t])
              && (w.strict || CurrentVersion(w.log) != LastWrite(w.tasks[t]).expected)
  {
    ReachableIsSound(w);
    assert TaskAt(w, t);
    if CurrentToken(w.log) == TokenOf(w.tasks[t]) {
      assert !StaysOut(w, [], t);
    } else if w.strict {
      ReachableLost(w);
      forall steps
        ensures StaysOut(w, steps, t)
      {
        QuitStaysOut(w, steps, t);
      }
    } else if CurrentVersion(w.log) == LastWrite(w.tasks[t]).expected {
      var steps := LateWriteLands(w, t);
    } else {
      forall steps
        ensures StaysOut(w, steps, t)
      {
        SupersededStaysOut(w, steps, t);
      }
    }
  }

  /**
   A start call that answered "busy" leaves no lease without a worker, now or ever, exactly if its token is
   not the stored one and its write cannot land any more: because errors are only reported for writes no
   longer on their way, or because the record has moved on from the version the write was to replace.
   */
  lemma BusyLeavesNoLeaseIff(w: World, t: nat)
    requires Reachable(w) && t in w.tasks && Abandoned(w.tasks[t])
    ensures w.tasks[t].writes != []
    ensures (forall steps :: StaysOut(w, steps, t)) <==>
              && CurrentToken(w.log) != TokenOf(w.tasks[t])
              && (w.strict || CurrentVersion(w.log) != LastWrite(w.tasks[t]).expected)
  {
    ReachableIsSound(w);
    assert TaskAt(w, t);
    NeverLandedIff(w, t);
  }

  /** The delete's start call or worker has ended, and not by the death of its process. */
  predicate Ended(task: Task) {
    task.writes != [] && task.pc.Done? && task.pc != Done(Crashed)
  }

  /** The record is still what the worker last knew it had written. */
  predicate LeftBehind(w: World, task: Task) {
    task.landed != [] && CurrentVersion(w.log) == task.landed[|task.landed| - 1]
  }

  lemma EndedWorkerIff(w: World, t: nat)
    requires Reachable(w) && t in w.tasks && Ended(w.tasks[t])
    ensures CurrentToken(w.log) == TokenOf(w.tasks[t]) <==>
              LeftBehind(w, w.tasks[t]) || HeldBy(w.log, LastWrite(w.tasks[t]))
    ensures w.strict && HeldBy(w.log, LastWrite(w.tasks[t])) ==> LeftBehind(w, w.tasks[t])
  {
    ReachableIsSound(w);
    if w.strict {
      ReachableLost(w);
      assert LostAt(w, t);
    }
    assert TaskAt(w, t);
    var task := w.tasks[t];
    if task.landed == [] {
      if CurrentToken(w.log) == TokenOf(task) {
        TokenMeansWrite(w, t);
      }
    } else {
      OwnTokenIff(w, t);
      if |task.writes| == |task.landed| && HeldBy(w.log, LastWrite(task)) {
        CurrentIsLastLanded(w, t, |task.landed| - 1);
      }
    }
  }

  /**
   A delete that has ended, short of a crash, leaves a lease stored with no sweeper behind it exactly if the
   record still has the version of its last write that landed, or is its last write without its knowing; if
   errors are only reported for writes no longer on their way, only the former.  Its token is not stored, now
   or in any continuation, exactly if neither is the case and no first write of it can land late.
   */
  lemma LeaseOutlivesWorkerIff(w: World, t: nat)
    requires Reachable(w) && t in w.tasks && Ended(w.tasks[t])
    ensures !Holds(w.tasks[t])
    ensures CurrentToken(w.log) == TokenOf(w.tasks[t]) <==>
              LeftBehind(w, w.tasks[t]) || (!w.strict && HeldBy(w.log, LastWrite(w.tasks[t])))
    ensures (forall steps :: StaysOut(w, steps, t)) <==>
              && CurrentToken(w.log) != TokenOf(w.tasks[t])
              && (w.strict || w.tasks[t].landed != [] || CurrentVersion(w.log) != LastWrite(w.tasks[t]).expected)
  {
    ReachableIsSound(w);
    EndedWorkerIff(w, t);
    assert TaskAt(w, t);
    if CurrentToken(w.log) == TokenOf(w.tasks[t]) {
      assert !StaysOut(w, [], t);
    } else if w.tasks[t].landed == [] {
      NeverLandedIff(w, t);
    } else {
      TakeoverSupersedes(w, t);
      forall steps
        ensures StaysOut(w, steps, t)
      {
        SupersededStaysOut(w, steps, t);
      }
    }
  }

  // ---------------------------------------------------------------- keys issued after a loss

  /** These steps can happen, and this delete issues object deletes in them. */
  ghost predicate IssuesMore(w: World, steps: seq<Step>, t: nat)
    requires t in w.tasks
  {
    && CanRun(w, steps) && t in After(w, steps).tasks
    && KeysIssued(After(w, steps).tasks[t].ops) > KeysIssued(w.tasks[t].ops)
  }

  /** A worker that has lost its lease issues what is left of its batch, and nothing else. */
  predicate Settling(w: World, t: nat, total: nat) {
    && t in w.tasks
    && var issued := KeysIssued(w.tasks[t].ops);
       match w.tasks[t].pc
       case Draining(left) => issued + |left| == total
       case Exiting(outcome) => issued <= total && (outcome == LeaseLost ==> issued == total)
       case Done(outcome) => issued <= total && (outcome == LeaseLost ==> issued == total)
       case _ => false
  }

  lemma SettlingActs(w: World, s: Step, total: nat)
    requires Can(w, s) && Actor(s).Some? && Settling(w, s.t, total)
    ensures s.DeletesObject? || s.EndsBatch? || s.SweepFails? || s.Releases?
  {
  }

  lemma SettlingStays(w: World, s: Step, t: nat, total: nat)
    requires Can(w, s) && Settling(w, t, total)
    ensures Settling(Do(w, s), t, total)
  {
    if Actor(s) == Some(t) {
      SettlingActs(w, s, total);
      if s.DeletesObject? {
        CountAppended(w.tasks[t].ops, DeleteObject(w.tasks[t].bucketRoot, w.tasks[t].pc.left[0]));
      }
    } else {
      WritesGrow(w, s, t);
      OthersUntouched(w, s, t);
    }
  }

  /** Over every run, and exactly the whole rest if the batch is allowed to settle. */
  lemma {:induction false} SettlingRun(w: World, steps: seq<Step>, t: nat, total: nat)
    requires CanRun(w, steps) && Settling(w, t, total)
    ensures Settling(After(w, steps), t, total)
    decreases |steps|
  {
    if steps == [] {
    } else {
      SettlingStays(w, steps[0], t, total);
      SettlingRun(Do(w, steps[0]), steps[1..], t, total);
    }
  }

  /** How many object deletes the loss found ahead of the worker. */
  function KeysAtLoss(next: Next): nat {
    if next.MidBatch? then |next.left| else 0
  }

  lemma LossLeaves(w: World, t: nat)
    requires Can(w, ReadsBack(t)) && ReconcileLease(w.tasks[t].drive, Current(w.log)).None?
    ensures var w', next := Do(w, ReadsBack(t)), w.tasks[t].pc.next;
      && t in w'.tasks && w'.tasks[t].ops == w.tasks[t].ops
      && w'.tasks[t].pc == (if next.MidBatch? then Draining(next.left) else Lost(next))
      && Settling(w', t, KeysIssued(w.tasks[t].ops) + KeysAtLoss(next))
  {
    assert Do(w, ReadsBack(t)) == With(w, t, w.tasks[t].(pc := Lost(w.tasks[t].pc.next)));
  }

  lemma DrainIssues(w: World, t: nat)
    requires t in w.tasks && w.tasks[t].pc.Draining? && w.tasks[t].pc.left != []
    ensures IssuesMore(w, [DeletesObject(t)], t)
  {
    RunOf1(w, DeletesObject(t));
    CountAppended(w.tasks[t].ops, DeleteObject(w.tasks[t].bucketRoot, w.tasks[t].pc.left[0]));
  }

  lemma SettledIssuesNothing(w: World, steps: seq<Step>, t: nat)
    requires t in w.tasks && Settling(w, t, KeysIssued(w.tasks[t].ops))
    ensures !IssuesMore(w, steps, t)
  {
    if CanRun(w, steps) {
      SettlingRun(w, steps, t, KeysIssued(w.tasks[t].ops));
    }
  }

  /**
   After its lease is found lost, a worker issues further object deletes in some continuation exactly if
   the loss came in the middle of a batch with keys left.
   */
  lemma IssuesAfterLossIff(w: World, t: nat)
    requires Can(w, ReadsBack(t)) && ReconcileLease(w.tasks[t].drive, Current(w.log)).None?
    ensures t in Do(w, ReadsBack(t)).tasks
    ensures (exists steps :: IssuesMore(Do(w, ReadsBack(t)), steps, t)) <==>
              w.tasks[t].pc.next.MidBatch? && w.tasks[t].pc.next.left != []
  {
    var w' := Do(w, ReadsBack(t));
    LossLeaves(w, t);
    if KeysAtLoss(w.tasks[t].pc.next) > 0 {
      DrainIssues(w', t);
    } else {
      forall steps
        ensures !IssuesMore(w', steps, t)
      {
        SettledIssuesNothing(w', steps, t);
      }
    }
  }

  /** Over every continuation of such a loss: a worker that reports it has issued the whole rest of its batch. */
  lemma LossIsSettled(w: World, steps: seq<Step>, t: nat)
    requires Can(w, ReadsBack(t)) && ReconcileLease(w.tasks[t].drive, Current(w.log)).None?
    requires CanRun(Do(w, ReadsBack(t)), steps)
    ensures Settling(After(Do(w, ReadsBack(t)), steps), t,
                     KeysIssued(w.tasks[t].ops) + KeysAtLoss(w.tasks[t].pc.next))
  {
    LossLeaves(w, t);
    SettlingRun(Do(w, ReadsBack(t)), steps, t, KeysIssued(w.tasks[t].ops) + KeysAtLoss(w.tasks[t].pc.next));
  }

  // ---------------------------------------------------------------- "not found" taken for "gone"

  /** The last change removed, for this task, the record of the bucket that is live. */
  predicate RemovedLive(w: World, t: nat) {
    var n := |w.log|;
    && n >= 2 && w.log[n - 1].Removed? && w.log[n - 1].sender == Some(t)
    && w.log[n - 2].Wrote? && w.bucket == Some(w.log[n - 2].data.root)
  }

  ghost predicate SparesLive(w: World, steps: seq<Step>, t: nat) {
    CanRun(w, steps) ==> !RemovedLive(After(w, steps), t)
  }

  lemma {:induction false} RunExtends(w: World, steps: seq<Step>, s: Step)
    requires CanRun(w, steps) && Can(After(w, steps), s)
    ensures CanRun(w, steps + [s]) && After(w, steps + [s]) == Do(After(w, steps), s)
    decreases |steps|
  {
    if steps == [] {
      assert (steps + [s])[1..] == [];
      assert CanRun(Do(w, s), []);
    } else {
      RunExtends(Do(w, steps[0]), steps[1..], s);
      assert (steps + [s])[1..] == steps[1..] + [s];
    }
  }

  /** Every record goes back to a create of the same drive and incarnation. */
  lemma {:induction false} CreationOf(w: World, i: nat) returns (d: Drive)
    requires Inv(w) && i < |w.log| && w.log[i].Wrote?
    ensures Put(0, d) in w.puts && Put(0, d) !in w.closed
    ensures d.id == w.log[i].data.id && d.root == w.log[i].data.root
    decreases i
  {
    var c := w.log[i];
    assert c in w.log;
    if c.data.token == 0 {
      d := c.data;
    } else {
      var t, k := LoggedPutHasOwner(w, i);
      FencedWriteFollows(w.log, i);
      WriteReplaces(w, t, k, i);
      assert TaskAt(w, t);
      assert OwnWrite(w.tasks[t], k);
      if k > 0 {
        assert OwnWrite(w.tasks[t], k - 1);
      }
      d := CreationOf(w, i - 1);
    }
  }

  /** In a drop with attempts left, of a record whose bucket is live. */
  predicate DropsLive(w: World, t: nat) {
    && t in w.tasks && w.tasks[t].pc.Removing? && w.tasks[t].pc.tries > 1
    && w.bucket == Some(w.tasks[t].drive.data.root)
  }

  /** Someone else removes the record, if there is one. */
  lemma ClearsRecord(w: World, t: nat) returns (steps: seq<Step>)
    requires StoresOk(w) && DropsLive(w, t)
    ensures CanRun(w, steps) && CurrentVersion(After(w, steps).log) == 0 && DropsLive(After(w, steps), t)
    ensures After(w, steps).tasks == w.tasks && w.puts <= After(w, steps).puts && After(w, steps).closed == w.closed
  {
    if Current(w.log).None? {
      steps := [];
    } else {
      var v := Current(w.log).value.version;
      assert Lawful(w.log, |w.log| - 1);
      var w1 := Do(w, SendsRemove(v));
      RunOf1(w, SendsRemove(v));
      RunExtends(w, [SendsRemove(v)], AppliesRemove(Remove(None, v, Other)));
      steps := [SendsRemove(v)] + [AppliesRemove(Remove(None, v, Other))];
    }
  }

  /** A create that is delivered again stores the record again. */
  lemma Recreates(w: World, t: nat, d: Drive) returns (s: Step)
    requires DropsLive(w, t) && CurrentVersion(w.log) == 0 && Put(0, d) in w.puts && Put(0, d) !in w.closed
    ensures s.AppliesPut? && Can(w, s) && DropsLive(Do(w, s), t) && Do(w, s).tasks == w.tasks
    ensures Current(Do(w, s).log) == Some(Versioned(s.version, d)) && s.version != 0
  {
    var v := UnusedExists(w.log);
    s := AppliesPut(Put(0, d), v);
  }

  /** A drop that finds its own incarnation again sends another removal. */
  lemma TriesAgain(w: World, t: nat) returns (w': World)
    requires DropsLive(w, t) && Current(w.log).Some?
    requires Current(w.log).value.data.id == w.tasks[t].drive.data.id
    requires Current(w.log).value.data.root == w.tasks[t].drive.data.root
    ensures Can(w, RecordChanged(t)) && Can(Do(w, RecordChanged(t)), Rereads(t))
    ensures w' == Do(Do(w, RecordChanged(t)), Rereads(t)) && w'.log == w.log && w'.bucket == w.bucket
    ensures Remove(Some(t), Current(w.log).value.version, w.tasks[t].pc.why) in w'.removes
  {
    var task, record := w.tasks[t], Current(w.log).value;
    var w1 := With(w, t, task.(pc := Rereading(task.pc.tries, task.pc.why)));
    assert Do(w, RecordChanged(t)) == w1;
    w' := SendsDrop(w1, t, w1.tasks[t].(drive := record), task.pc.tries - 1, task.pc.why);
    assert Do(w1, Rereads(t)) == w';
  }

  lemma RemovalFindsLive(w: World, t: nat, why: Why)
    requires Current(w.log).Some? && Current(w.log).value.version != 0
    requires w.bucket == Some(Current(w.log).value.data.root)
    requires Remove(Some(t), Current(w.log).value.version, why) in w.removes
    ensures var r := Remove(Some(t), Current(w.log).value.version, why);
      Can(w, AppliesRemove(r)) && RemovedLive(Do(w, AppliesRemove(r)), t)
  {
  }

  lemma AgainRun(w: World, t: nat, s: Step) returns (steps: seq<Step>)
    requires Can(w, s) && DropsLive(Do(w, s), t) && Do(w, s).tasks == w.tasks && Current(Do(w, s).log).Some?
    requires Current(Do(w, s).log).value.version != 0
    requires Current(Do(w, s).log).value.data.id == w.tasks[t].drive.data.id
    requires Current(Do(w, s).log).value.data.root == w.tasks[t].drive.data.root
    ensures CanRun(w, steps) && RemovedLive(After(w, steps), t)
  {
    var w1 := Do(w, s);
    var w3 := TriesAgain(w1, t);
    var r := Remove(Some(t), Current(w1.log).value.version, w1.tasks[t].pc.why);
    RemovalFindsLive(w3, t, r.why);
    RunOf1(w, s);
    RunExtends(w, [s], RecordChanged(t));
    RunExtends(w, [s] + [RecordChanged(t)], Rereads(t));
    RunExtends(w, [s] + [RecordChanged(t)] + [Rereads(t)], AppliesRemove(r));
    steps := [s] + [RecordChanged(t)] + [Rereads(t)] + [AppliesRemove(r)];
  }

  lemma {:induction false} RunsCompose(w: World, xs: seq<Step>, ys: seq<Step>)
    requires CanRun(w, xs) && CanRun(After(w, xs), ys)
    ensures CanRun(w, xs + ys) && After(w, xs + ys) == After(After(w, xs), ys)
    decreases |xs|
  {
    if xs == [] {
      assert xs + ys == ys;
    } else {
      RunsCompose(Do(w, xs[0]), xs[1..], ys);
      assert (xs + ys)[1..] == xs[1..] + ys;
    }
  }

  /** While the bucket is live, the record of its incarnation can go, whatever is stored now. */
  lemma LiveRecordCanGo(w: World, t: nat) returns (steps: seq<Step>)
    requires Inv(w) && DropsLive(w, t)
    ensures CanRun(w, steps) && RemovedLive(After(w, steps), t)
  {
    assert TaskAt(w, t);
    var task := w.tasks[t];
    var e :| Wrote(e, task.drive.version, task.drive.data) in w.log;
    var i :| 0 <= i < |w.log| && w.log[i] == Wrote(e, task.drive.version, task.drive.data);
    var d := CreationOf(w, i);
    var first := ClearsRecord(w, t);
    var w1 := After(w, first);
    var s := Recreates(w1, t, d);
    var second := AgainRun(w1, t, s);
    RunsCompose(w, first, second);
    steps := first + second;
  }

  /** Once the incarnation a task resolved is gone, it never removes the record of a live bucket. */
  lemma DeadStaysSpared(w: World, steps: seq<Step>, t: nat)
    requires Inv(w) && DropsOk(w) && t in w.tasks && Dead(w, w.tasks[t].seen.data.root)
    ensures SparesLive(w, steps, t)
  {
    if CanRun(w, steps) {
      var w' := After(w, steps);
      RunGrows(w, steps);
      RunKept(w, steps);
      DropsRun(w, steps);
      SeenRun(w, steps, t);
      SparedNow(w', t);
    }
  }

  lemma SparedNow(w: World, t: nat)
    requires StoresOk(w) && DropsOk(w) && t in w.tasks && w.bucket != Some(w.tasks[t].seen.data.root)
    ensures !RemovedLive(w, t)
  {
    if RemovedLive(w, t) {
      RemovedWasOwn(w, |w.log| - 1, t);
    }
  }

  lemma SeenStays(w: World, s: Step, t: nat)
    requires Can(w, s) && t in w.tasks
    ensures t in Do(w, s).tasks && Do(w, s).tasks[t].seen == w.tasks[t].seen
  {
    if Actor(s).Some? {
      ActorFrame(w, s);
      ActorCarries(w, s);
    }
  }

  lemma {:induction false} SeenRun(w: World, steps: seq<Step>, t: nat)
    requires CanRun(w, steps) && t in w.tasks
    ensures t in After(w, steps).tasks && After(w, steps).tasks[t].seen == w.tasks[t].seen
    decreases |steps|
  {
    if steps == [] {
    } else {
      SeenStays(w, steps[0], t);
      SeenRun(Do(w, steps[0]), steps[1..], t);
    }
  }

  lemma NotFoundStartsDrop(w: World, t: nat)
    requires Can(w, BucketNotFound(t))
    ensures var w' := Do(w, BucketNotFound(t));
      && t in w'.tasks && w'.tasks[t].seen == w.tasks[t].seen && w'.bucket == w.bucket && w'.roots == w.roots
      && (w.bucket == Some(w.tasks[t].drive.data.root) ==> DropsLive(w', t))
  {
    assert Do(w, BucketNotFound(t)) == StartsDrop(w, t, w.tasks[t], PlainNotFound);
  }

  /**
   A plain delete that reads "not found" as "the bucket is gone" spares the record of the live bucket over
   every continuation exactly if the bucket its record names is not live at that moment.
   */
  lemma NotFoundIsSafeIffGone(w: World, t: nat)
    requires Reachable(w) && Can(w, BucketNotFound(t))
    ensures (forall steps :: SparesLive(Do(w, BucketNotFound(t)), steps, t))
            <==> w.bucket != Some(w.tasks[t].drive.data.root)
  {
    var w' := Do(w, BucketNotFound(t));
    ReachableDrops(w);
    StepKept(w, BucketNotFound(t));
    DropsKept(w, BucketNotFound(t));
    NotFoundStartsDrop(w, t);
    assert TaskAt(w, t);
    StoredRootIsKnown(w, w.tasks[t].seen);
    if w.bucket != Some(w.tasks[t].drive.data.root) {
      forall steps
        ensures SparesLive(w', steps, t)
      {
        DeadStaysSpared(w', steps, t);
      }
    } else {
      var steps := LiveRecordCanGo(w', t);
      assert !SparesLive(w', steps, t);
    }
  }
}
