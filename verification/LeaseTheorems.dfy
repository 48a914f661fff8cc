/** What the drive-delete protocol guarantees in every state it can reach, and over every run. */
module LeaseTheorems {
  import opened Options
  import opened DriveStore
  import opened LeaseProtocol
  import opened LeaseInvariant

  // ---------------------------------------------------------------- fencing

  /**
   The first `n` writes a task was told had landed are consecutive changes of the record, directly
   after the record the delete task had resolved.
   */
  ghost predicate Contiguous(log: Log, task: Task, base: nat, n: nat)
    requires n <= |task.landed| <= |task.writes|
  {
    && 1 <= base && base + n <= |log|
    && log[base - 1].Wrote?
    && log[base - 1].version == task.seen.version
    && log[base - 1].data == task.seen.data
    && forall k | 0 <= k < n :: log[base + k] == Wrote(task.writes[k].expected, task.landed[k], task.writes[k].data)
  }

  lemma SeenIsAt(log: Log, seen: Versioned, i: nat)
    requires WellFormed(log) && Stored(log, seen)
    requires i < |log| && log[i].Wrote? && log[i].version == seen.version
    ensures log[i].data == seen.data
  {
    var e :| Wrote(e, seen.version, seen.data) in log;
    var j :| 0 <= j < |log| && log[j] == Wrote(e, seen.version, seen.data);
    VersionsAreUnique(log, i, j);
  }

  lemma {:induction false} LandedPrefixIsContiguous(log: Log, task: Task, n: nat) returns (base: nat)
    requires WellFormed(log) && Stored(log, task.seen)
    requires 1 <= n <= |task.landed| <= |task.writes| <= |task.landed| + 1
    requires forall k | 0 <= k < |task.writes| :: OwnWrite(task, k)
    requires forall k | 0 <= k < |task.landed| :: LandedAs(log, task, k)
    ensures Contiguous(log, task, base, n)
    decreases n
  {
    var k := n - 1;
    assert LandedAs(log, task, k) && OwnWrite(task, k);
    var i :| 0 <= i < |log| && log[i] == Wrote(task.writes[k].expected, task.landed[k], task.writes[k].data);
    if n == 1 {
      StoredVersionIsUsed(log, task.seen);
      FencedWriteFollows(log, i);
      SeenIsAt(log, task.seen, i - 1);
      base := i;
    } else {
      base := LandedPrefixIsContiguous(log, task, n - 1);
      var j := base + k - 1;
      assert log[j] == Wrote(task.writes[k - 1].expected, task.landed[k - 1], task.writes[k - 1].data);
      assert Lawful(log, j);
      FencedWriteFollows(log, i);
      VersionsAreUnique(log, i - 1, j);
    }
  }

  /**
   Lease fencing: in every reachable state, whatever replies were lost and whatever the clocks said,
   everything a worker was told had landed really was applied, and no other change of the record came
   between two of its landed writes or between the first one and the record its request resolved.
   */
  lemma LandedWritesAreContiguous(w: World, t: nat)
    requires Reachable(w) && t in w.tasks && w.tasks[t].landed != []
    ensures |w.tasks[t].landed| <= |w.tasks[t].writes|
    ensures exists base :: Contiguous(w.log, w.tasks[t], base, |w.tasks[t].landed|)
  {
    ReachableIsSound(w);
    assert TaskAt(w, t);
    var base := LandedPrefixIsContiguous(w.log, w.tasks[t], |w.tasks[t].landed|);
  }

  lemma LoggedPutHasOwner(w: World, i: nat) returns (t: nat, k: nat)
    requires Inv(w)
    requires i < |w.log| && w.log[i].Wrote? && w.log[i].data.token != 0
    ensures t in w.tasks && k < |w.tasks[t].writes|
    ensures w.tasks[t].writes[k] == Put(w.log[i].expected, w.log[i].data)
    ensures w.log[i].expected != 0
  {
    var c := w.log[i];
    assert c in w.log;
    var p := Put(c.expected, c.data);
    t :| t in w.tasks && p in w.tasks[t].writes;
    k :| 0 <= k < |w.tasks[t].writes| && w.tasks[t].writes[k] == p;
    ExpectedIsUsed(w, t, k);
  }

  lemma ExpectedIsUsed(w: World, t: nat, k: nat)
    requires StoresOk(w) && TasksOk(w) && t in w.tasks && k < |w.tasks[t].writes|
    ensures w.tasks[t].writes[k].expected != 0
    ensures !Unused(w.log, w.tasks[t].writes[k].expected)
  {
    var task := w.tasks[t];
    assert TaskAt(w, t);
    assert OwnWrite(task, k);
    if k == 0 {
      StoredVersionIsUsed(w.log, task.seen);
    } else {
      assert LandedAs(w.log, task, k - 1);
      StoredVersionIsUsed(w.log, Versioned(task.landed[k - 1], task.writes[k - 1].data));
    }
  }

  /** A version is replaced at most once. */
  lemma SameFenceSameChange(log: Log, i: nat, j: nat)
    requires WellFormed(log)
    requires i < |log| && log[i].Wrote? && j < |log| && log[j].Wrote?
    requires log[i].expected == log[j].expected != 0
    ensures i == j
  {
    FencedWriteFollows(log, i);
    FencedWriteFollows(log, j);
    VersionsAreUnique(log, i - 1, j - 1);
  }

  /** Token and heartbeat identify exactly one change of the record. */
  lemma LeaseIdentifiesChange(w: World, i: nat, j: nat)
    requires Reachable(w)
    requires i < |w.log| && w.log[i].Wrote? && j < |w.log| && w.log[j].Wrote?
    requires w.log[i].data.token == w.log[j].data.token != 0
    requires w.log[i].data.heartbeat == w.log[j].data.heartbeat
    ensures i == j
  {
    ReachableIsSound(w);
    var t, k := LoggedPutHasOwner(w, i);
    assert w.log[j] in w.log;
    LeaseNamesPut(w, t, k, Put(w.log[j].expected, w.log[j].data));
    SameFenceSameChange(w.log, i, j);
  }

  /**
   Every lease write in the record's history is either a renewal of the change directly before it by
   the same task, or a takeover of exactly the record its request had resolved and found without a
   live lease.
   */
  lemma EveryLeaseWriteIsFenced(w: World, i: nat) returns (t: nat, k: nat)
    requires Reachable(w)
    requires i < |w.log| && w.log[i].Wrote? && w.log[i].data.token != 0
    ensures t in w.tasks && k < |w.tasks[t].writes| && i > 0 && w.log[i - 1].Wrote?
    ensures w.tasks[t].writes[k] == Put(w.log[i].expected, w.log[i].data)
    ensures k > 0 ==> Put(w.log[i - 1].expected, w.log[i - 1].data) == w.tasks[t].writes[k - 1]
    ensures k == 0 ==>
              && Versioned(w.log[i - 1].version, w.log[i - 1].data) == w.tasks[t].seen
              && !SweepAlive(w.log[i - 1].data, w.tasks[t].seenAt)
  {
    ReachableIsSound(w);
    t, k := LoggedPutHasOwner(w, i);
    FencedWriteFollows(w.log, i);
    WriteReplaces(w, t, k, i);
  }

  /** What stands directly before write `k` of a task. */
  lemma WriteReplaces(w: World, t: nat, k: nat, i: nat)
    requires StoresOk(w) && TasksOk(w) && t in w.tasks && k < |w.tasks[t].writes|
    requires 0 < i < |w.log| && w.log[i].Wrote? && w.log[i - 1].Wrote?
    requires w.tasks[t].writes[k] == Put(w.log[i].expected, w.log[i].data)
    requires w.log[i - 1].version == w.log[i].expected
    ensures k > 0 ==> Put(w.log[i - 1].expected, w.log[i - 1].data) == w.tasks[t].writes[k - 1]
    ensures k == 0 ==>
              && Versioned(w.log[i - 1].version, w.log[i - 1].data) == w.tasks[t].seen
              && !SweepAlive(w.log[i - 1].data, w.tasks[t].seenAt)
  {
    var task := w.tasks[t];
    assert TaskAt(w, t);
    assert OwnWrite(task, k);
    if k == 0 {
      SeenIsAt(w.log, task.seen, i - 1);
    } else {
      assert LandedAs(w.log, task, k - 1);
      var c := Wrote(task.writes[k - 1].expected, task.landed[k - 1], task.writes[k - 1].data);
      var j :| 0 <= j < |w.log| && w.log[j] == c;
      VersionsAreUnique(w.log, i - 1, j);
    }
  }

  // ---------------------------------------------------------------- takeover

  function CurrentToken(log: Log): nat {
    match Current(log)
    case None => 0
    case Some(r) => r.data.token
  }

  function LastWrite(task: Task): Put
    requires task.writes != []
  {
    task.writes[|task.writes| - 1]
  }

  /** The record has moved on from this task: neither its lease is stored nor can its next write match. */
  predicate Superseded(w: World, t: nat) {
    && t in w.tasks && w.tasks[t].writes != []
    && CurrentToken(w.log) != TokenOf(w.tasks[t])
    && CurrentVersion(w.log) != LastWrite(w.tasks[t]).expected
  }

  /** A version that was replaced by one of the delete task's landed writes is not current any more. */
  lemma ReplacedVersionIsPast(w: World, t: nat, k: nat)
    requires StoresOk(w) && TasksOk(w) && t in w.tasks && k < |w.tasks[t].landed| <= |w.tasks[t].writes|
    ensures CurrentVersion(w.log) != w.tasks[t].writes[k].expected
  {
    var task := w.tasks[t];
    assert TaskAt(w, t);
    assert LandedAs(w.log, task, k);
    var c := Wrote(task.writes[k].expected, task.landed[k], task.writes[k].data);
    var i :| 0 <= i < |w.log| && w.log[i] == c;
    ExpectedIsUsed(w, t, k);
    FencedWriteFollows(w.log, i);
    VersionsNeverReturn(w.log, i - 1, c.expected);
  }

  /** While a landed version is current, the record carries the token of the delete task that wrote it. */
  lemma LandedVersionCarriesToken(w: World, t: nat, k: nat)
    requires StoresOk(w) && TasksOk(w) && t in w.tasks && k < |w.tasks[t].landed| <= |w.tasks[t].writes|
    ensures CurrentVersion(w.log) == w.tasks[t].landed[k] ==> CurrentToken(w.log) == TokenOf(w.tasks[t])
  {
    var task := w.tasks[t];
    assert TaskAt(w, t);
    assert LandedAs(w.log, task, k) && OwnWrite(task, k);
    var c := Wrote(task.writes[k].expected, task.landed[k], task.writes[k].data);
    var i :| 0 <= i < |w.log| && w.log[i] == c;
    VersionsNeverReturn(w.log, i, c.version);
  }

  /** The write under way has been applied, whether or not its sender knows. */
  ghost predicate LastApplied(log: Log, task: Task) {
    task.writes != [] && exists v :: Wrote(LastWrite(task).expected, v, LastWrite(task).data) in log
  }

  lemma AppliedIsPast(w: World, t: nat)
    requires StoresOk(w) && TasksOk(w) && t in w.tasks && LastApplied(w.log, w.tasks[t])
    ensures CurrentVersion(w.log) != LastWrite(w.tasks[t]).expected
  {
    var last := LastWrite(w.tasks[t]);
    var v :| Wrote(last.expected, v, last.data) in w.log;
    var i :| 0 <= i < |w.log| && w.log[i] == Wrote(last.expected, v, last.data);
    ExpectedIsUsed(w, t, |w.tasks[t].writes| - 1);
    FencedWriteFollows(w.log, i);
    VersionsNeverReturn(w.log, i - 1, last.expected);
  }

  /** The task has held the lease: a write of it landed, whether or not it knows. */
  ghost predicate HasHeld(w: World, t: nat) {
    t in w.tasks && (w.tasks[t].landed != [] || LastApplied(w.log, w.tasks[t]))
  }

  /** Once a record that is not the holder's is stored, the former holder is superseded. */
  lemma TakeoverSupersedes(w: World, t: nat)
    requires Reachable(w) && HasHeld(w, t) && CurrentToken(w.log) != TokenOf(w.tasks[t])
    ensures Superseded(w, t)
  {
    ReachableIsSound(w);
    var task := w.tasks[t];
    assert TaskAt(w, t);
    if LastApplied(w.log, task) {
      AppliedIsPast(w, t);
    } else if |task.writes| == |task.landed| {
      ReplacedVersionIsPast(w, t, |task.landed| - 1);
    } else {
      assert OwnWrite(task, |task.landed|);
      LandedVersionCarriesToken(w, t, |task.landed| - 1);
    }
  }

  /** A superseded task's writes are not the ones the store accepts. */
  lemma SupersededPutDiffers(w: World, t: nat, p: Put)
    requires Inv(w) && Superseded(w, t) && p in w.puts && CurrentVersion(w.log) == p.expected
    ensures p.data.token != TokenOf(w.tasks[t])
  {
    var task := w.tasks[t];
    assert TaskAt(w, t);
    if p.data.token == TokenOf(task) {
      TokenNamesTask(w, t, p);
      var k :| 0 <= k < |task.writes| && task.writes[k] == p;
      if k < |task.landed| {
        ReplacedVersionIsPast(w, t, k);
      }
    }
  }

  lemma TokenIsReal(w: World, t: nat)
    requires TasksOk(w) && t in w.tasks && w.tasks[t].writes != []
    ensures TokenOf(w.tasks[t]) != 0
  {
    assert TaskAt(w, t);
    assert OwnWrite(w.tasks[t], 0);
  }

  lemma SupersededStaysByStores(w: World, s: Step, t: nat)
    requires Superseded(w, t) && Can(w, s) && (s.AppliesPut? || s.AppliesRemove?)
    requires TokenOf(w.tasks[t]) != 0
    requires LastWrite(w.tasks[t]).expected != 0 && !Unused(w.log, LastWrite(w.tasks[t]).expected)
    requires s.AppliesPut? ==> s.put.data.token != TokenOf(w.tasks[t])
    ensures Superseded(Do(w, s), t)
  {
  }

  lemma SettledHandle(w: World, t: nat)
    requires TasksOk(w) && t in w.tasks
    requires w.tasks[t].pc.Batching? || w.tasks[t].pc.InBatch? || w.tasks[t].pc.Finishing?
    ensures 0 < |w.tasks[t].landed| == |w.tasks[t].writes|
    ensures w.tasks[t].drive.version == w.tasks[t].landed[|w.tasks[t].landed| - 1]
  {
    assert TaskAt(w, t);
  }

  lemma SupersededStaysByRenewal(w: World, s: Step)
    requires s.Renews? && StoresOk(w) && TasksOk(w) && Can(w, s) && Superseded(w, s.t)
    ensures Superseded(Do(w, s), s.t)
  {
    SettledHandle(w, s.t);
    LandedVersionCarriesToken(w, s.t, |w.tasks[s.t].landed| - 1);
  }

  lemma WritesOnlyByLeaseSteps(w: World, s: Step, t: nat)
    requires Can(w, s) && t in w.tasks
    requires !s.AppliesPut? && !s.AppliesRemove?
    requires !((s.Renews? || s.Registers?) && s.t == t)
    ensures t in Do(w, s).tasks && Do(w, s).tasks[t].writes == w.tasks[t].writes && Do(w, s).log == w.log
  {
    WritesGrow(w, s, t);
    OnlyStoresWrite(w, s);
  }

  lemma RegistersBeforeWriting(w: World, s: Step, t: nat)
    requires TasksOk(w) && Can(w, s) && t in w.tasks && w.tasks[t].writes != []
    ensures !(s.Registers? && s.t == t)
  {
    assert TaskAt(w, t);
  }

  lemma SupersededStays(w: World, s: Step, t: nat)
    requires Inv(w) && Superseded(w, t) && Can(w, s)
    ensures Superseded(Do(w, s), t)
  {
    if s.AppliesPut? || s.AppliesRemove? {
      ExpectedIsUsed(w, t, |w.tasks[t].writes| - 1);
      TokenIsReal(w, t);
      if s.AppliesPut? {
        SupersededPutDiffers(w, t, s.put);
      }
      SupersededStaysByStores(w, s, t);
    } else if s.Renews? && s.t == t {
      SupersededStaysByRenewal(w, s);
    } else {
      RegistersBeforeWriting(w, s, t);
      WritesOnlyByLeaseSteps(w, s, t);
    }
  }

  // ---------------------------------------------------------------- what a superseded worker still does

  function KeysIssued(ops: seq<Op>): nat {
    if ops == [] then 0 else KeysIssued(ops[..|ops| - 1]) + (if ops[|ops| - 1].DeleteObject? then 1 else 0)
  }

  function BucketCalls(ops: seq<Op>): nat {
    if ops == [] then 0 else BucketCalls(ops[..|ops| - 1]) + (if ops[|ops| - 1].DeleteBucket? then 1 else 0)
  }

  lemma CountAppended(ops: seq<Op>, op: Op)
    ensures KeysIssued(ops + [op]) == KeysIssued(ops) + (if op.DeleteObject? then 1 else 0)
    ensures BucketCalls(ops + [op]) == BucketCalls(ops) + (if op.DeleteBucket? then 1 else 0)
  {
    assert (ops + [op])[..|ops|] == ops;
  }

  /** How many more objects the delete task may delete on the strength of leases it has already won. */
  ghost function KeysLeft(log: Log, task: Task): nat {
    match task.pc
    case InBatch(left, _) => |left|
    case Draining(left) => |left|
    case Writing(next) => KeysAhead(log, task, next)
    case Reading(next) => KeysAhead(log, task, next)
    case _ => 0
  }

  ghost function KeysAhead(log: Log, task: Task, next: Next): nat {
    match next
    case MidBatch(left, _) => |left|
    case BeforeBatch(keys) => if LastApplied(log, task) then BatchSize(keys) else 0
    case _ => 0
  }

  /** Whether the delete task may still delete the bucket on the strength of a lease it has already won. */
  ghost function BucketLeft(log: Log, task: Task): nat {
    match task.pc
    case Fencing => 1
    case Writing(next) => if next.BeforeBucket? && LastApplied(log, task) then 1 else 0
    case Reading(next) => if next.BeforeBucket? && LastApplied(log, task) then 1 else 0
    case _ => 0
  }

  lemma KeysLeftBound(w: World, t: nat)
    requires TasksOk(w) && t in w.tasks
    ensures KeysLeft(w.log, w.tasks[t]) <= BATCH
    ensures BucketLeft(w.log, w.tasks[t]) <= 1
    ensures KeysLeft(w.log, w.tasks[t]) == 0 || BucketLeft(w.log, w.tasks[t]) == 0
  {
    assert TaskAt(w, t);
  }

  /** The objects and buckets a task has deleted and may still delete, as a sum. */
  ghost function KeyBudget(w: World, t: nat): nat
    requires t in w.tasks
  {
    KeysIssued(w.tasks[t].ops) + KeysLeft(w.log, w.tasks[t])
  }

  ghost function BucketBudget(w: World, t: nat): nat
    requires t in w.tasks
  {
    BucketCalls(w.tasks[t].ops) + BucketLeft(w.log, w.tasks[t])
  }

  ghost predicate BudgetKept(w: World, w': World, t: nat)
    requires t in w.tasks
  {
    && t in w'.tasks
    && KeyBudget(w', t) <= KeyBudget(w, t)
    && BucketBudget(w', t) <= BucketBudget(w, t)
  }

  /** No write a task has sent is younger than its last one. */
  lemma HistoryIsRising(w: World, task: Task, k: nat)
    requires HistoryOk(w, task) && k < |task.writes|
    ensures task.writes[k].data.heartbeat <= LastWrite(task).data.heartbeat
  {
  }

  lemma LastIsYoungest(w: World, t: nat, p: Put)
    requires TokensOk(w) && TasksOk(w) && t in w.tasks && w.tasks[t].writes != []
    requires p in w.puts && p.data.token == TokenOf(w.tasks[t])
    ensures p.data.heartbeat <= LastWrite(w.tasks[t]).data.heartbeat
  {
    TokenNamesTask(w, t, p);
    var k :| 0 <= k < |w.tasks[t].writes| && w.tasks[t].writes[k] == p;
    assert TaskAt(w, t);
    HistoryIsRising(w, w.tasks[t], k);
  }

  lemma SettledData(w: World, t: nat)
    requires TasksOk(w) && t in w.tasks
    requires w.tasks[t].pc.Batching? || w.tasks[t].pc.InBatch? || w.tasks[t].pc.Finishing?
    ensures w.tasks[t].writes != [] && w.tasks[t].drive.data == LastWrite(w.tasks[t]).data
    ensures w.tasks[t].drive.data.token == TokenOf(w.tasks[t])
  {
    assert TaskAt(w, t);
    assert OwnWrite(w.tasks[t], |w.tasks[t].writes| - 1);
  }

  /** A renewal is a write nobody has sent before. */
  lemma RenewalIsNew(w: World, s: Step)
    requires s.Renews? && TokensOk(w) && TasksOk(w) && Can(w, s)
    ensures LastWrite(Do(w, s).tasks[s.t]) !in w.puts
  {
    SettledData(w, s.t);
    if LastWrite(Do(w, s).tasks[s.t]) in w.puts {
      LastIsYoungest(w, s.t, LastWrite(Do(w, s).tasks[s.t]));
    }
  }

  lemma UnsentIsUnapplied(w: World, s: Step)
    requires s.Renews? && StoresOk(w) && Can(w, s)
    requires LastWrite(Do(w, s).tasks[s.t]) !in w.puts
    ensures !LastApplied(Do(w, s).log, Do(w, s).tasks[s.t])
  {
  }

  lemma OthersKeepApplied(w: World, s: Step, t: nat)
    requires Superseded(w, t) && Can(w, s)
    ensures LastApplied(Do(w, s).log, w.tasks[t]) ==> LastApplied(w.log, w.tasks[t])
  {
    var last := LastWrite(w.tasks[t]);
    if LastApplied(Do(w, s).log, w.tasks[t]) {
      var v :| Wrote(last.expected, v, last.data) in Do(w, s).log;
      assert Wrote(last.expected, v, last.data) in w.log;
    }
  }

  lemma BudgetUntouched(w: World, s: Step, t: nat)
    requires t in w.tasks && Can(w, s) && Actor(s) != Some(t)
    requires LastApplied(Do(w, s).log, w.tasks[t]) ==> LastApplied(w.log, w.tasks[t])
    ensures BudgetKept(w, Do(w, s), t)
  {
    WritesGrow(w, s, t);
    OthersUntouched(w, s, t);
  }

  lemma BudgetAtPutReturn(w: World, s: Step)
    requires s.PutReturns? && StoresOk(w) && TasksOk(w) && Can(w, s)
    ensures BudgetKept(w, Do(w, s), s.t)
  {
    var task := w.tasks[s.t];
    assert TaskAt(w, s.t);
    assert Wrote(LastWrite(task).expected, s.version, LastWrite(task).data) in w.log;
  }

  lemma BudgetAtReadBack(w: World, s: Step)
    requires s.ReadsBack? && TasksOk(w) && Can(w, s) && Superseded(w, s.t)
    ensures BudgetKept(w, Do(w, s), s.t)
  {
    var task := w.tasks[s.t];
    assert TaskAt(w, s.t);
    assert OwnWrite(task, |task.writes| - 1);
  }

  lemma BudgetAtRenewal(w: World, s: Step)
    requires s.Renews? && Inv(w) && Can(w, s)
    ensures BudgetKept(w, Do(w, s), s.t)
  {
    RenewalIsNew(w, s);
    UnsentIsUnapplied(w, s);
  }

  /** A call that was issued is paid for by what is ahead no more. */
  lemma CallKeepsBudget(w: World, w': World, t: nat, op: Op)
    requires t in w.tasks && t in w'.tasks && w'.tasks[t].ops == w.tasks[t].ops + [op]
    requires KeysLeft(w'.log, w'.tasks[t]) + (if op.DeleteObject? then 1 else 0) <= KeysLeft(w.log, w.tasks[t])
    requires BucketLeft(w'.log, w'.tasks[t]) + (if op.DeleteBucket? then 1 else 0) <= BucketLeft(w.log, w.tasks[t])
    ensures BudgetKept(w, w', t)
  {
    CountAppended(w.tasks[t].ops, op);
  }

  lemma BudgetAtDelete(w: World, s: Step)
    requires s.DeletesObject? && Can(w, s)
    ensures BudgetKept(w, Do(w, s), s.t)
  {
    var task := w.tasks[s.t];
    CallKeepsBudget(w, Do(w, s), s.t, DeleteObject(task.bucketRoot, task.pc.left[0]));
  }

  lemma BudgetAtListing(w: World, s: Step)
    requires Can(w, s) && s.ListsPage?
    ensures BudgetKept(w, Do(w, s), s.t)
  {
    CallKeepsBudget(w, Do(w, s), s.t, ListObjects(w.tasks[s.t].bucketRoot));
  }

  lemma BudgetAtBucketDelete(w: World, s: Step)
    requires Can(w, s) && s.SendsBucketDelete?
    ensures BudgetKept(w, Do(w, s), s.t)
  {
    CallKeepsBudget(w, Do(w, s), s.t, DeleteBucket(w.tasks[s.t].drive.data.root));
  }

  /** Nothing issued and nothing written, and no more ahead than before. */
  lemma SameHistorySameBudget(w: World, w': World, t: nat)
    requires t in w.tasks && t in w'.tasks && w'.log == w.log
    requires w'.tasks[t].ops == w.tasks[t].ops && w'.tasks[t].writes == w.tasks[t].writes
    requires KeysLeft(w.log, w'.tasks[t]) <= KeysLeft(w.log, w.tasks[t])
    requires BucketLeft(w.log, w'.tasks[t]) <= BucketLeft(w.log, w.tasks[t])
    ensures BudgetKept(w, w', t)
  {
  }

  lemma BudgetInHandler(w: World, s: Step)
    requires Can(w, s) && OfRequest(s) && s.t in w.tasks && !s.Resolves? && !s.Registers? && !s.SendsPlainDelete?
    ensures BudgetKept(w, Do(w, s), s.t)
  {
    SameHistorySameBudget(w, Do(w, s), s.t);
  }

  lemma BudgetAtFailure(w: World, s: Step)
    requires Can(w, s) && (s.PutFails? || s.ReadBackFails? || s.Releases?)
    ensures BudgetKept(w, Do(w, s), s.t)
  {
    SameHistorySameBudget(w, Do(w, s), s.t);
  }

  lemma BudgetInSweep(w: World, s: Step)
    requires Can(w, s) && (s.FetchesBucket? || s.EndsBatch? || s.SweepFails?)
    ensures BudgetKept(w, Do(w, s), s.t)
  {
    SameHistorySameBudget(w, Do(w, s), s.t);
  }

  lemma BudgetInDrop(w: World, s: Step)
    requires Can(w, s) && OfDrop(s)
    ensures BudgetKept(w, Do(w, s), s.t)
  {
    SameHistorySameBudget(w, Do(w, s), s.t);
  }

  lemma WriterHasStarted(w: World, s: Step, t: nat)
    requires TasksOk(w) && Can(w, s) && t in w.tasks && w.tasks[t].writes != [] && Actor(s) == Some(t)
    ensures !s.Resolves? && !s.Registers? && !s.SendsPlainDelete?
  {
    assert TaskAt(w, t);
  }

  lemma BudgetKeptByActor(w: World, s: Step)
    requires Inv(w) && Actor(s).Some? && Superseded(w, s.t) && Can(w, s)
    ensures BudgetKept(w, Do(w, s), s.t)
  {
    WriterHasStarted(w, s, s.t);
    if s.PutReturns? {
      BudgetAtPutReturn(w, s);
    } else if s.ReadsBack? {
      BudgetAtReadBack(w, s);
    } else if s.Renews? {
      BudgetAtRenewal(w, s);
    } else if s.DeletesObject? {
      BudgetAtDelete(w, s);
    } else if s.ListsPage? {
      BudgetAtListing(w, s);
    } else if s.SendsBucketDelete? {
      BudgetAtBucketDelete(w, s);
    } else if OfRequest(s) {
      BudgetInHandler(w, s);
    } else if OfLease(s) {
      BudgetAtFailure(w, s);
    } else if OfDrop(s) {
      BudgetInDrop(w, s);
    } else {
      BudgetInSweep(w, s);
    }
  }

  /** No step of anyone lets a superseded worker delete more than it could before. */
  lemma BudgetNeverGrows(w: World, s: Step, t: nat)
    requires Inv(w) && Superseded(w, t) && Can(w, s)
    ensures BudgetKept(w, Do(w, s), t)
  {
    if Actor(s) == Some(t) {
      BudgetKeptByActor(w, s);
    } else {
      OthersKeepApplied(w, s, t);
      BudgetUntouched(w, s, t);
    }
  }

  lemma {:induction false} SupersededRun(w: World, steps: seq<Step>, t: nat)
    requires Inv(w) && Superseded(w, t) && CanRun(w, steps)
    ensures var w' := After(w, steps);
            && t in w'.tasks && Superseded(w', t)
            && KeyBudget(w', t) <= KeyBudget(w, t) && BucketBudget(w', t) <= BucketBudget(w, t)
    decreases |steps|
  {
    if steps == [] {
    } else {
      BudgetNeverGrows(w, steps[0], t);
      SupersededStays(w, steps[0], t);
      StepKept(w, steps[0]);
      SupersededRun(Do(w, steps[0]), steps[1..], t);
    }
  }

  /**
   Takeover bound: from the moment the record is no longer that of a worker that has held the lease, whether
   or not it knew, over every continuation, the worker deletes at most one batch of objects or one fenced
   bucket, never both.
   */
  lemma TakeoverBound(w: World, steps: seq<Step>, t: nat)
    requires Reachable(w) && CanRun(w, steps)
    requires HasHeld(w, t) && CurrentToken(w.log) != TokenOf(w.tasks[t])
    ensures var w' := After(w, steps);
            && t in w'.tasks
            && KeysIssued(w'.tasks[t].ops) <= KeysIssued(w.tasks[t].ops) + BATCH
            && BucketCalls(w'.tasks[t].ops) <= BucketCalls(w.tasks[t].ops) + 1
            && (KeysIssued(w'.tasks[t].ops) <= KeysIssued(w.tasks[t].ops)
                || BucketCalls(w'.tasks[t].ops) <= BucketCalls(w.tasks[t].ops))
            && CurrentToken(w'.log) != TokenOf(w'.tasks[t])
  {
    ReachableIsSound(w);
    TakeoverSupersedes(w, t);
    SupersededRun(w, steps, t);
    KeysLeftBound(w, t);
  }

  // ---------------------------------------------------------------- incarnations

  /**
   Incarnation safety: every listing, object delete and bucket delete a request or its worker issues is
   aimed at the bucket root named in the record it resolved, and no renewal, read-back or re-read ever
   moves its handle to another drive or another incarnation.
   */
  lemma OneIncarnationPerTask(w: World, t: nat)
    requires Reachable(w) && t in w.tasks
    ensures Stored(w.log, w.tasks[t].seen)
    ensures forall op | op in w.tasks[t].ops :: op.root == w.tasks[t].seen.data.root
    ensures w.tasks[t].drive.data.root == w.tasks[t].seen.data.root
    ensures w.tasks[t].drive.data.id == w.tasks[t].seen.data.id
    ensures w.tasks[t].pc.Removing? ==> Stored(w.log, w.tasks[t].drive)
  {
    ReachableIsSound(w);
    assert TaskAt(w, t);
  }

  lemma {:induction false} RunGrows(w: World, steps: seq<Step>)
    requires Inv(w) && CanRun(w, steps)
    ensures Grows(w, After(w, steps))
    decreases |steps|
  {
    if steps == [] {
    } else {
      StepGrows(w, steps[0]);
      StepKept(w, steps[0]);
      RunGrows(Do(w, steps[0]), steps[1..]);
    }
  }

  lemma RemovalFollowsWrite(log: Log, i: nat)
    requires WellFormed(log) && i < |log| && log[i].Removed?
    ensures i > 0 && log[i - 1].Wrote? && log[i - 1].version == log[i].version
  {
    assert Lawful(log, i);
    assert log[..i] != [];
  }

  /**
   Stale-record permanence: every record removed on the strength of a bucket read or of a fenced bucket
   delete names a bucket incarnation that is gone, and it stays gone over every continuation.
   */
  lemma CheckedRemovalIsPermanent(w: World, i: nat, steps: seq<Step>)
    requires Reachable(w) && CanRun(w, steps)
    requires i < |w.log| && w.log[i].Removed? && w.log[i].why.Checked()
    ensures i > 0 && w.log[i - 1].Wrote? && w.log[i - 1].version == w.log[i].version
    ensures w.bucket != Some(w.log[i - 1].data.root)
    ensures After(w, steps).bucket != Some(w.log[i - 1].data.root)
  {
    ReachableIsSound(w);
    RemovalFollowsWrite(w.log, i);
    RemovedRootIsDead(w, i);
    RunGrows(w, steps);
  }

  lemma RemovedRootIsDead(w: World, i: nat)
    requires StoresOk(w) && RootsOk(w)
    requires 0 < i < |w.log| && w.log[i].Removed? && w.log[i].why.Checked()
    requires w.log[i - 1].Wrote? && w.log[i - 1].version == w.log[i].version
    ensures Dead(w, w.log[i - 1].data.root)
  {
    var c := w.log[i];
    assert c in w.log;
    assert NamesDead(w, c.version);
    var e, d :| Wrote(e, c.version, d) in w.log && Dead(w, d.root);
    var j :| 0 <= j < |w.log| && w.log[j] == Wrote(e, c.version, d);
    VersionsAreUnique(w.log, i - 1, j);
  }

  // ---------------------------------------------------------------- worker slots

  /**
   Slot discipline: a process has the drive registered exactly while one start call or one worker for
   it is alive in that process, and never two.
   */
  lemma SlotMeansOneWorker(w: World, proc: nat)
    requires Reachable(w)
    ensures proc in w.slots <==> exists t :: HoldsAt(w, t, proc)
    ensures forall t, u | HoldsAt(w, t, proc) && HoldsAt(w, u, proc) :: t == u
  {
    ReachableIsSound(w);
  }

  /**
   Each registration is released exactly once: a task registers at most once, while it is alive after
   that it has not released, and once it has ended, short of a crash, it has released as often as it
   registered.
   */
  lemma ReleasedExactlyOnce(w: World, t: nat)
    requires Reachable(w) && t in w.tasks
    ensures w.tasks[t].released <= w.tasks[t].registered <= 1
    ensures Holds(w.tasks[t]) ==> w.tasks[t].registered == 1 && w.tasks[t].released == 0
    ensures w.tasks[t].pc.Done? && w.tasks[t].pc != Done(Crashed) ==> w.tasks[t].released == w.tasks[t].registered
  {
    ReachableIsSound(w);
    assert SlotHistoryOk(w.tasks[t]);
  }

  /** The current record is this write. */
  predicate HeldBy(log: Log, p: Put) {
    log != [] && log[|log| - 1].Wrote? && log[|log| - 1].expected == p.expected && log[|log| - 1].data == p.data
  }

  /** A read-back is right about the write it looks for. */
  lemma ReadBackSees(w: World, t: nat)
    requires StoresOk(w) && TokensOk(w) && TasksOk(w) && t in w.tasks && w.tasks[t].pc.Reading?
    ensures w.tasks[t].writes != [] && (w.tasks[t].pc.next.TakeLease? <==> w.tasks[t].landed == [])
    ensures ReconcileLease(w.tasks[t].drive, Current(w.log)).Some? <==> HeldBy(w.log, LastWrite(w.tasks[t]))
  {
    assert TaskAt(w, t);
    if ReconcileLease(w.tasks[t].drive, Current(w.log)).Some? {
      var c := w.log[|w.log| - 1];
      assert c in w.log;
      LeaseNamesPut(w, t, |w.tasks[t].writes| - 1, Put(c.expected, c.data));
    }
  }

  /** That delete gave up on its last write. */
  predicate GaveUp(task: Task) {
    |task.writes| == |task.landed| + 1 && !task.pc.Writing? && !task.pc.Reading? && task.pc != Done(Crashed)
  }

  predicate LostOk(w: World, task: Task) {
    && (task.pc.Reading? && task.writes != [] ==> LastWrite(task) in w.closed)
    && (GaveUp(task) ==> LastWrite(task) in w.closed && !HeldBy(w.log, LastWrite(task)))
  }

  predicate LostAt(w: World, t: nat) {
    t in w.tasks ==> LostOk(w, w.tasks[t])
  }

  ghost predicate AllLostOk(w: World) {
    forall t :: LostAt(w, t)
  }

  lemma ClosedStaysOut(w: World, s: Step, task: Task)
    requires w.strict && Can(w, s) && LostOk(w, task)
    ensures LostOk(Do(w, s), task)
  {
    if Actor(s).Some? {
      ActorFrame(w, s);
    }
  }

  lemma ReadBackKeepsLost(w: World, s: Step)
    requires s.ReadsBack? && TasksOk(w) && AllLostOk(w) && Can(w, s)
    ensures LostOk(Do(w, s), Do(w, s).tasks[s.t])
  {
    var task := w.tasks[s.t];
    assert TaskAt(w, s.t);
    assert LostAt(w, s.t);
  }

  lemma PutFailKeepsLost(w: World, s: Step)
    requires s.PutFails? && TasksOk(w) && Can(w, s)
    ensures LostOk(Do(w, s), Do(w, s).tasks[s.t])
  {
    assert TaskAt(w, s.t);
  }

  /** A step that leaves a task neither reading back nor giving up on a write it had not given up on. */
  ghost predicate KeepsHope(w: World, w': World, t: nat)
    requires t in w.tasks
  {
    && t in w'.tasks && !w'.tasks[t].pc.Reading?
    && (GaveUp(w'.tasks[t]) ==> GaveUp(w.tasks[t]) && w'.tasks[t].writes == w.tasks[t].writes)
  }

  lemma RequestKeepsHope(w: World, s: Step)
    requires Can(w, s) && OfRequest(s) && s.t in w.tasks && PcOk(w, w.tasks[s.t])
    ensures KeepsHope(w, Do(w, s), s.t)
  {
  }

  lemma LeaseKeepsHope(w: World, s: Step)
    requires Can(w, s) && (s.PutReturns? || s.Releases?) && PcOk(w, w.tasks[s.t])
    ensures KeepsHope(w, Do(w, s), s.t)
  {
  }

  lemma SweepKeepsHope(w: World, s: Step)
    requires Can(w, s) && OfSweep(s) && PcOk(w, w.tasks[s.t])
    ensures KeepsHope(w, Do(w, s), s.t)
  {
  }

  lemma BucketReplyKeepsHope(w: World, s: Step)
    requires Can(w, s) && (s.BucketDeleted? || s.BucketReplaced? || s.BucketNotFound?) && PcOk(w, w.tasks[s.t])
    ensures KeepsHope(w, Do(w, s), s.t)
  {
  }

  lemma RemovalKeepsHope(w: World, s: Step)
    requires Can(w, s) && (s.RecordRemoved? || s.RecordChanged?) && PcOk(w, w.tasks[s.t])
    ensures KeepsHope(w, Do(w, s), s.t)
  {
  }

  lemma DropKeepsHope(w: World, s: Step)
    requires Can(w, s) && OfDrop(s) && PcOk(w, w.tasks[s.t])
    ensures KeepsHope(w, Do(w, s), s.t)
  {
    if s.RecordRemoved? || s.RecordChanged? {
      RemovalKeepsHope(w, s);
    } else if !s.Rereads? {
      BucketReplyKeepsHope(w, s);
    }
  }

  /** Apart from a read-back, no step of a task makes it give up on a write. */
  lemma OnlyReadBackGivesUp(w: World, s: Step)
    requires Can(w, s) && Actor(s).Some? && s.t in w.tasks && PcOk(w, w.tasks[s.t])
    requires !s.ReadsBack? && !s.PutFails? && !s.ReadBackFails?
    ensures KeepsHope(w, Do(w, s), s.t)
  {
    if OfRequest(s) {
      RequestKeepsHope(w, s);
    } else if OfLease(s) {
      LeaseKeepsHope(w, s);
    } else if OfDrop(s) {
      DropKeepsHope(w, s);
    } else {
      SweepKeepsHope(w, s);
    }
  }

  lemma ActorKeepsLost(w: World, s: Step)
    requires Can(w, s) && Actor(s).Some? && s.t in w.tasks && TaskOk(w, w.tasks[s.t]) && LostOk(w, w.tasks[s.t])
    requires !s.ReadsBack? && !s.PutFails?
    ensures LostOk(Do(w, s), Do(w, s).tasks[s.t])
  {
    if !s.ReadBackFails? {
      OnlyReadBackGivesUp(w, s);
      ActorFrame(w, s);
    }
  }

  lemma LostKept(w: World, s: Step)
    requires w.strict && TasksOk(w) && AllLostOk(w) && Can(w, s)
    ensures AllLostOk(Do(w, s))
  {
    forall t
      ensures LostAt(Do(w, s), t)
    {
      assert LostAt(w, t) && TaskAt(w, t);
      if t in Do(w, s).tasks {
        if Actor(s) != Some(t) {
          OthersUntouched(w, s, t);
          ClosedStaysOut(w, s, w.tasks[t]);
        } else if t in w.tasks {
          if s.ReadsBack? {
            ReadBackKeepsLost(w, s);
          } else if s.PutFails? {
            PutFailKeepsLost(w, s);
          } else {
            ActorKeepsLost(w, s);
          }
        }
      }
    }
  }

  lemma {:induction false} LostRun(w: World, steps: seq<Step>)
    requires w.strict && Inv(w) && AllLostOk(w) && CanRun(w, steps)
    ensures After(w, steps).strict && AllLostOk(After(w, steps))
    decreases |steps|
  {
    if steps == [] {
    } else {
      StepKept(w, steps[0]);
      LostKept(w, steps[0]);
      LostRun(Do(w, steps[0]), steps[1..]);
    }
  }

  lemma {:induction false} StrictStays(w: World, steps: seq<Step>)
    requires CanRun(w, steps)
    ensures After(w, steps).strict == w.strict
    decreases |steps|
  {
    if steps == [] {
    } else {
      StrictStays(Do(w, steps[0]), steps[1..]);
    }
  }

  lemma ReachableLost(w: World)
    requires Reachable(w) && w.strict
    ensures AllLostOk(w)
  {
    var w0: World, steps: seq<Step> :| Initial(w0) && CanRun(w0, steps) && After(w0, steps) == w;
    StrictStays(w0, steps);
    assert Inv(w0);
    LostRun(w0, steps);
  }

  /** The start call has given its lease write up. */
  predicate Abandoned(task: Task) {
    task.pc == Exiting(NotTaken) || task.pc == Done(NotTaken)
  }

  /** A token that is stored was stored by a write of its task. */
  lemma TokenMeansWrite(w: World, t: nat)
    requires StoresOk(w) && TokensOk(w) && TasksOk(w) && t in w.tasks && w.tasks[t].writes != []
    requires CurrentToken(w.log) == TokenOf(w.tasks[t])
    ensures w.log != [] && w.log[|w.log| - 1].Wrote?
    ensures Put(w.log[|w.log| - 1].expected, w.log[|w.log| - 1].data) in w.tasks[t].writes
  {
    TokenIsReal(w, t);
    var c := w.log[|w.log| - 1];
    assert c in w.log;
    TokenNamesTask(w, t, Put(c.expected, c.data));
  }

  /**
   When errors are only reported for writes no longer on their way: a start call that answered "busy"
   after sending its lease write leaves no lease behind; and a lease write that is stored without its
   sender knowing has a sender still holding its worker slot, unless the process died.
   */
  lemma NoLeaseWithoutWorker(w: World, t: nat)
    requires Reachable(w) && w.strict && t in w.tasks && w.tasks[t].writes != []
    ensures Abandoned(w.tasks[t]) ==> CurrentToken(w.log) != TokenOf(w.tasks[t])
    ensures HeldBy(w.log, LastWrite(w.tasks[t])) && |w.tasks[t].landed| < |w.tasks[t].writes| ==>
              w.tasks[t].pc == Done(Crashed) || (Holds(w.tasks[t]) && w.tasks[t].proc in w.slots)
  {
    ReachableIsSound(w);
    ReachableLost(w);
    var task := w.tasks[t];
    assert TaskAt(w, t) && LostAt(w, t);
    assert HoldsAt(w, t, task.proc) ==> task.proc in w.slots;
    if Abandoned(task) && CurrentToken(w.log) == TokenOf(task) {
      TokenMeansWrite(w, t);
    }
  }
}
