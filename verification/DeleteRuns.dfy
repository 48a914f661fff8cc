/** A force delete that nobody disturbs: it comes to its end, and what it does on the way. */
module DeleteRuns {
  import opened Options
  import opened DriveStore
  import opened LeaseProtocol
  import opened LeaseInvariant
  import opened LeaseTheorems

  // ---------------------------------------------------------------- runs

  /** Some run leads from one state to the other. */
  ghost predicate Reaches(w: World, w': World) {
    exists steps :: CanRun(w, steps) && After(w, steps) == w'
  }

  lemma {:induction false} RunsJoin(w: World, xs: seq<Step>, ys: seq<Step>)
    requires CanRun(w, xs) && CanRun(After(w, xs), ys)
    ensures CanRun(w, xs + ys) && After(w, xs + ys) == After(After(w, xs), ys)
    decreases |xs|
  {
    if xs == [] {
      assert xs + ys == ys;
    } else {
      RunsJoin(Do(w, xs[0]), xs[1..], ys);
      assert (xs + ys)[0] == xs[0] && (xs + ys)[1..] == xs[1..] + ys;
    }
  }

  lemma ReachesItself(w: World)
    ensures Reaches(w, w)
  {
    assert CanRun(w, []) && After(w, []) == w;
  }

  lemma ReachesOn(w: World, w1: World, w2: World)
    requires Reaches(w, w1) && Reaches(w1, w2)
    ensures Reaches(w, w2)
  {
    var xs :| CanRun(w, xs) && After(w, xs) == w1;
    var ys :| CanRun(w1, ys) && After(w1, ys) == w2;
    RunsJoin(w, xs, ys);
  }

  lemma ReachesNext(w: World, w1: World, s: Step)
    requires Reaches(w, w1) && Can(w1, s)
    ensures Reaches(w, Do(w1, s))
  {
    var xs :| CanRun(w, xs) && After(w, xs) == w1;
    assert [s][1..] == [] && CanRun(Do(w1, s), []) && After(Do(w1, s), []) == Do(w1, s);
    RunsJoin(w, xs, [s]);
  }

  // ---------------------------------------------------------------- a worker that holds the lease

  /** No write with this token was ever given up on. */
  ghost predicate NoneClosed(w: World, token: nat) {
    forall p | p in w.closed :: p.data.token != token
  }

  /** The delete's handle is the stored record, and its bucket is there. */
  ghost predicate Holding(w: World, t: nat, pc: Pc, ops: seq<Op>, root: nat) {
    && t in w.tasks
    && var task := w.tasks[t];
    && task.pc == pc && task.ops == ops && (pc.Spawned? || task.bucketRoot == root)
    && Current(w.log) == Some(task.drive) && task.drive.version != 0
    && task.drive.data.root == root && w.bucket == Some(root) && NoneClosed(w, task.drive.data.token)
  }

  /** The delete has just sent its handle, to replace the stored record. */
  ghost predicate Sending(w: World, t: nat, next: Next, ops: seq<Op>, root: nat) {
    && t in w.tasks
    && var task := w.tasks[t];
    && task.pc == Writing(next) && task.ops == ops && (next.TakeLease? || task.bucketRoot == root)
    && CurrentVersion(w.log) == task.drive.version && Put(task.drive.version, task.drive.data) in w.puts
    && task.drive.data.root == root && w.bucket == Some(root) && NoneClosed(w, task.drive.data.token)
  }

  /** Where a landed write leads. */
  function Landing(next: Next): Pc {
    match next
    case TakeLease => Spawned
    case BeforeBatch(keys) => InBatch(keys[..BatchSize(keys)], keys[BatchSize(keys)..])
    case MidBatch(left, rest) => InBatch(left, rest)
    case BeforeBucket => Fencing
  }

  lemma WriteLands(w: World, t: nat, next: Next, ops: seq<Op>, root: nat) returns (w': World)
    requires Sending(w, t, next, ops, root)
    ensures Reaches(w, w') && Holding(w', t, Landing(next), ops, root)
  {
    var p := Put(w.tasks[t].drive.version, w.tasks[t].drive.data);
    var v := UnusedExists(w.log);
    var w1 := Do(w, AppliesPut(p, v));
    w' := Do(w1, PutReturns(t, v));
    ReachesItself(w);
    ReachesNext(w, w, AppliesPut(p, v));
    ReachesNext(w, w1, PutReturns(t, v));
  }

  lemma RenewalSends(w: World, t: nat, pc: Pc, next: Next, ops: seq<Op>, root: nat, clock: nat) returns (w': World)
    requires Holding(w, t, pc, ops, root)
    requires (pc.Batching? && next == BeforeBatch(pc.keys)) || (pc.Finishing? && next == BeforeBucket)
    ensures Reaches(w, w') && Sending(w', t, next, ops, root)
  {
    w' := Do(w, Renews(t, clock));
    ReachesItself(w);
    ReachesNext(w, w, Renews(t, clock));
  }

  lemma Renewal(w: World, t: nat, pc: Pc, next: Next, ops: seq<Op>, root: nat) returns (w': World)
    requires Holding(w, t, pc, ops, root)
    requires (pc.Batching? && next == BeforeBatch(pc.keys)) || (pc.Finishing? && next == BeforeBucket)
    ensures Reaches(w, w') && Holding(w', t, Landing(next), ops, root)
  {
    var w1 := RenewalSends(w, t, pc, next, ops, root, 0);
    w' := WriteLands(w1, t, next, ops, root);
    ReachesOn(w, w1, w');
  }

  // ---------------------------------------------------------------- the sweep

  function Deletes(root: nat, keys: seq<Key>): seq<Op> {
    if keys == [] then [] else [DeleteObject(root, keys[0])] + Deletes(root, keys[1..])
  }

  lemma {:induction false} DeletesJoin(root: nat, a: seq<Key>, b: seq<Key>)
    ensures Deletes(root, a + b) == Deletes(root, a) + Deletes(root, b)
  {
    if a == [] {
      assert a + b == b;
    } else {
      DeletesJoin(root, a[1..], b);
      assert (a + b)[1..] == a[1..] + b;
    }
  }

  lemma DeletesSplit(ops: seq<Op>, root: nat, keys: seq<Key>, n: nat)
    requires n <= |keys|
    ensures ops + Deletes(root, keys[..n]) + Deletes(root, keys[n..]) == ops + Deletes(root, keys)
    ensures keys[n..] == [] ==> keys[..n] == keys
  {
    DeletesJoin(root, keys[..n], keys[n..]);
    assert keys[..n] + keys[n..] == keys;
  }

  lemma DeletesOne(w: World, t: nat, left: seq<Key>, rest: seq<Key>, ops: seq<Op>, root: nat) returns (w': World)
    requires Holding(w, t, InBatch(left, rest), ops, root) && left != []
    ensures Reaches(w, w') && Holding(w', t, InBatch(left[1..], rest), ops + [DeleteObject(root, left[0])], root)
  {
    w' := Do(w, DeletesObject(t));
    ReachesItself(w);
    ReachesNext(w, w, DeletesObject(t));
  }

  lemma FirstDelete(ops: seq<Op>, root: nat, keys: seq<Key>)
    requires keys != []
    ensures ops + [DeleteObject(root, keys[0])] + Deletes(root, keys[1..]) == ops + Deletes(root, keys)
  {
  }

  lemma BatchEnds(w: World, t: nat, rest: seq<Key>, ops: seq<Op>, root: nat) returns (w': World)
    requires Holding(w, t, InBatch([], rest), ops, root)
    ensures Reaches(w, w') && Holding(w', t, if rest == [] then Paging else Batching(rest), ops, root)
  {
    w' := Do(w, EndsBatch(t));
    ReachesItself(w);
    ReachesNext(w, w, EndsBatch(t));
  }

  lemma {:induction false} BatchRuns(w: World, t: nat, left: seq<Key>, rest: seq<Key>, ops: seq<Op>, root: nat)
    returns (w': World)
    requires Holding(w, t, InBatch(left, rest), ops, root)
    ensures Reaches(w, w')
    ensures Holding(w', t, if rest == [] then Paging else Batching(rest), ops + Deletes(root, left), root)
    decreases |left|
  {
    if left == [] {
      assert ops + Deletes(root, left) == ops;
      w' := BatchEnds(w, t, rest, ops, root);
    } else {
      var w1 := DeletesOne(w, t, left, rest, ops, root);
      w' := BatchRuns(w1, t, left[1..], rest, ops + [DeleteObject(root, left[0])], root);
      FirstDelete(ops, root, left);
      ReachesOn(w, w1, w');
    }
  }

  lemma {:induction false} KeysRun(w: World, t: nat, keys: seq<Key>, ops: seq<Op>, root: nat) returns (w': World)
    requires Holding(w, t, Batching(keys), ops, root) && keys != []
    ensures Reaches(w, w') && Holding(w', t, Paging, ops + Deletes(root, keys), root)
    decreases |keys|
  {
    var first, rest := keys[..BatchSize(keys)], keys[BatchSize(keys)..];
    DeletesSplit(ops, root, keys, BatchSize(keys));
    var w1 := Renewal(w, t, Batching(keys), BeforeBatch(keys), ops, root);
    var w2 := BatchRuns(w1, t, first, rest, ops, root);
    ReachesOn(w, w1, w2);
    if rest == [] {
      w' := w2;
    } else {
      w' := KeysRun(w2, t, rest, ops + Deletes(root, first), root);
      ReachesOn(w, w2, w');
    }
  }

  /** The calls a sweep of these pages issues. */
  function Sweeps(root: nat, pages: seq<seq<Key>>): seq<Op> {
    if pages == [] then [] else [ListObjects(root)] + Deletes(root, pages[0]) + Sweeps(root, pages[1..])
  }

  lemma SweepsSplit(ops: seq<Op>, root: nat, pages: seq<seq<Key>>)
    requires pages != []
    ensures ops + [ListObjects(root)] + Deletes(root, pages[0]) + Sweeps(root, pages[1..]) == ops + Sweeps(root, pages)
  {
  }

  ghost predicate ArePages(pages: seq<seq<Key>>) {
    forall page | page in pages :: 0 < |page| <= PAGE
  }

  lemma PageListed(w: World, t: nat, page: seq<Key>, ops: seq<Op>, root: nat) returns (w': World)
    requires Holding(w, t, Paging, ops, root) && |page| <= PAGE
    ensures Reaches(w, w')
    ensures Holding(w', t, if page == [] then Finishing else Batching(page), ops + [ListObjects(root)], root)
  {
    w' := Do(w, ListsPage(t, page));
    ReachesItself(w);
    ReachesNext(w, w, ListsPage(t, page));
  }

  lemma PageRuns(w: World, t: nat, page: seq<Key>, ops: seq<Op>, root: nat) returns (w': World)
    requires Holding(w, t, Paging, ops, root) && 0 < |page| <= PAGE
    ensures Reaches(w, w') && Holding(w', t, Paging, ops + [ListObjects(root)] + Deletes(root, page), root)
  {
    var w1 := PageListed(w, t, page, ops, root);
    w' := KeysRun(w1, t, page, ops + [ListObjects(root)], root);
    ReachesOn(w, w1, w');
  }

  lemma {:induction false} PagesRun(w: World, t: nat, pages: seq<seq<Key>>, ops: seq<Op>, root: nat)
    returns (w': World)
    requires Holding(w, t, Paging, ops, root) && ArePages(pages)
    ensures Reaches(w, w') && Holding(w', t, Paging, ops + Sweeps(root, pages), root)
    decreases |pages|
  {
    if pages == [] {
      w' := w;
      ReachesItself(w);
      assert ops + Sweeps(root, pages) == ops;
    } else {
      assert pages[0] in pages;
      var ops1 := ops + [ListObjects(root)] + Deletes(root, pages[0]);
      var w1 := PageRuns(w, t, pages[0], ops, root);
      w' := PagesRun(w1, t, pages[1..], ops1, root);
      SweepsSplit(ops, root, pages);
      ReachesOn(w, w1, w');
    }
  }

  // ---------------------------------------------------------------- beginning and end

  /** A force delete has resolved the record, which is still stored, of a live bucket without a live lease. */
  ghost predicate MayTake(w: World, t: nat, now: nat, token: nat) {
    && At(w, t, Looked) && w.tasks[t].force && w.tasks[t].ops == []
    && Current(w.log) == Some(w.tasks[t].drive) && w.bucket == Some(w.tasks[t].drive.data.root)
    && !SweepAlive(w.tasks[t].drive.data, now) && w.tasks[t].proc !in w.slots && FreshToken(w, token)
  }

  /** A fresh token is in no write that was given up on. */
  lemma FreshIsOpen(w: World, token: nat)
    requires TokensOk(w) && TasksOk(w) && FreshToken(w, token)
    ensures NoneClosed(w, token)
  {
    forall p | p in w.closed
      ensures p.data.token != token
    {
      var t :| t in w.tasks && p in w.tasks[t].writes;
      assert TaskAt(w, t);
      var k :| 0 <= k < |w.tasks[t].writes| && w.tasks[t].writes[k] == p;
      assert OwnWrite(w.tasks[t], k);
    }
  }

  lemma BucketChecked(w: World, t: nat) returns (w': World)
    requires At(w, t, Looked) && w.bucket == Some(w.tasks[t].drive.data.root)
    ensures Reaches(w, w') && w' == With(w, t, w.tasks[t].(pc := Live))
  {
    w' := Do(w, ChecksBucket(t));
    ReachesItself(w);
    ReachesNext(w, w, ChecksBucket(t));
  }

  lemma LeaseTaken(w: World, t: nat, now: nat, clock: nat, token: nat) returns (w': World)
    requires MayTake(w, t, now, token) && NoneClosed(w, token)
    ensures Reaches(w, w') && Sending(w', t, TakeLease, [], w.tasks[t].drive.data.root)
  {
    var w1 := BucketChecked(w, t);
    w' := Do(w1, Registers(t, now, clock, token));
    ReachesNext(w, w1, Registers(t, now, clock, token));
  }

  lemma BucketFetched(w: World, t: nat, root: nat) returns (w': World)
    requires Holding(w, t, Spawned, [], root)
    ensures Reaches(w, w') && Holding(w', t, Paging, [], root)
  {
    w' := Do(w, FetchesBucket(t));
    ReachesItself(w);
    ReachesNext(w, w, FetchesBucket(t));
  }

  lemma SweepStarts(w: World, t: nat, now: nat, clock: nat, token: nat) returns (w': World)
    requires MayTake(w, t, now, token) && NoneClosed(w, token)
    ensures Reaches(w, w') && Holding(w', t, Paging, [], w.tasks[t].drive.data.root)
  {
    var root := w.tasks[t].drive.data.root;
    var w1 := LeaseTaken(w, t, now, clock, token);
    var w2 := WriteLands(w1, t, TakeLease, [], root);
    ReachesOn(w, w1, w2);
    w' := BucketFetched(w2, t, root);
    ReachesOn(w, w2, w');
  }

  /** The record's removal was sent. */
  ghost predicate RecordGoing(w: World, t: nat, why: Why, ops: seq<Op>) {
    && t in w.tasks && w.tasks[t].pc == Removing(DROP_ATTEMPTS, why) && w.tasks[t].ops == ops
    && Current(w.log) == Some(w.tasks[t].drive) && w.tasks[t].drive.version != 0
    && Remove(Some(t), w.tasks[t].drive.version, why) in w.removes
  }

  /** The fenced delete of the bucket was sent. */
  ghost predicate BucketGoing(w: World, t: nat, plain: bool, ops: seq<Op>, root: nat) {
    && t in w.tasks && w.tasks[t].pc == BucketCall(plain) && w.tasks[t].ops == ops
    && Current(w.log) == Some(w.tasks[t].drive) && w.tasks[t].drive.version != 0
    && w.tasks[t].drive.data.root == root && w.bucket == Some(root) && root in w.drops
  }

  lemma BucketGoes(w: World, t: nat, plain: bool, ops: seq<Op>, root: nat) returns (w': World)
    requires BucketGoing(w, t, plain, ops, root)
    ensures Reaches(w, w') && RecordGoing(w', t, if plain then PlainDeleted else SweepDeleted, ops)
    ensures w'.bucket == None
  {
    var w1 := Do(w, AppliesDrop(root));
    w' := Do(w1, BucketDeleted(t));
    ReachesItself(w);
    ReachesNext(w, w, AppliesDrop(root));
    ReachesNext(w, w1, BucketDeleted(t));
  }

  lemma FencedDeleteSent(w: World, t: nat, ops: seq<Op>, root: nat) returns (w': World)
    requires Holding(w, t, Fencing, ops, root)
    ensures Reaches(w, w') && BucketGoing(w', t, false, ops + [DeleteBucket(root)], root)
  {
    w' := Do(w, SendsBucketDelete(t));
    ReachesItself(w);
    ReachesNext(w, w, SendsBucketDelete(t));
  }

  lemma PlainDeleteSent(w: World, t: nat, root: nat) returns (w': World)
    requires At(w, t, Looked) && !w.tasks[t].force && w.tasks[t].ops == [] && w.tasks[t].drive.version != 0
    requires Current(w.log) == Some(w.tasks[t].drive) && w.bucket == Some(root) && w.tasks[t].drive.data.root == root
    ensures Reaches(w, w') && BucketGoing(w', t, true, [DeleteBucket(root)], root)
  {
    var w1 := BucketChecked(w, t);
    w' := Do(w1, SendsPlainDelete(t));
    ReachesNext(w, w1, SendsPlainDelete(t));
  }

  /** The record is gone, and the delete has reported so. */
  ghost predicate RecordGone(w: World, t: nat, ops: seq<Op>) {
    At(w, t, Done(Dropped)) && w.tasks[t].ops == ops && Current(w.log) == None
  }

  /** And so is the bucket. */
  ghost predicate Deleted(w: World, t: nat, ops: seq<Op>) {
    RecordGone(w, t, ops) && w.bucket == None
  }

  lemma RemovalApplied(w: World, t: nat, why: Why, ops: seq<Op>) returns (w': World)
    requires RecordGoing(w, t, why, ops)
    ensures Reaches(w, w') && w'.tasks == w.tasks && w'.bucket == w.bucket && Current(w'.log) == None
    ensures Remove(Some(t), w.tasks[t].drive.version, why) in w'.removed
  {
    var r := Remove(Some(t), w.tasks[t].drive.version, why);
    w' := Do(w, AppliesRemove(r));
    ReachesItself(w);
    ReachesNext(w, w, AppliesRemove(r));
  }

  lemma RemovalAnswered(w: World, t: nat, why: Why, ops: seq<Op>) returns (w': World)
    requires RecordGoing(w, t, why, ops)
    ensures Reaches(w, w') && t in w'.tasks && w'.tasks[t].pc == DropEnds(why, Dropped) && w'.tasks[t].ops == ops
    ensures w'.bucket == w.bucket && Current(w'.log) == None
  {
    var w1 := RemovalApplied(w, t, why, ops);
    w' := Do(w1, RecordRemoved(t));
    ReachesNext(w, w1, RecordRemoved(t));
  }

  lemma RecordGoes(w: World, t: nat, why: Why, ops: seq<Op>) returns (w': World)
    requires RecordGoing(w, t, why, ops)
    ensures Reaches(w, w') && RecordGone(w', t, ops) && w'.bucket == w.bucket
    ensures why.OfSweep() ==> w'.tasks[t].proc !in w'.slots
  {
    w' := RemovalAnswered(w, t, why, ops);
    if why.OfSweep() {
      var w1 := w';
      w' := Do(w1, Releases(t));
      ReachesNext(w, w1, Releases(t));
    }
  }

  lemma BucketAndRecordGo(w: World, t: nat, ops: seq<Op>, root: nat) returns (w': World)
    requires Holding(w, t, Fencing, ops, root)
    ensures Reaches(w, w') && Deleted(w', t, ops + [DeleteBucket(root)]) && w'.tasks[t].proc !in w'.slots
  {
    var w1 := FencedDeleteSent(w, t, ops, root);
    var w2 := BucketGoes(w1, t, false, ops + [DeleteBucket(root)], root);
    ReachesOn(w, w1, w2);
    w' := RecordGoes(w2, t, SweepDeleted, ops + [DeleteBucket(root)]);
    ReachesOn(w, w2, w');
  }

  lemma SweepEnds(w: World, t: nat, ops: seq<Op>, root: nat) returns (w': World)
    requires Holding(w, t, Paging, ops, root)
    ensures Reaches(w, w') && Deleted(w', t, ops + [ListObjects(root)] + [DeleteBucket(root)])
    ensures w'.tasks[t].proc !in w'.slots
  {
    var w1 := PageListed(w, t, [], ops, root);
    var w2 := Renewal(w1, t, Finishing, BeforeBucket, ops + [ListObjects(root)], root);
    ReachesOn(w, w1, w2);
    var w3 := BucketAndRecordGo(w2, t, ops + [ListObjects(root)], root);
    ReachesOn(w, w2, w3);
    w' := w3;
  }

  lemma SweepRuns(w: World, t: nat, pages: seq<seq<Key>>, root: nat) returns (w': World)
    requires Holding(w, t, Paging, [], root) && ArePages(pages)
    ensures Reaches(w, w') && Deleted(w', t, Sweeps(root, pages) + [ListObjects(root)] + [DeleteBucket(root)])
    ensures w'.tasks[t].proc !in w'.slots
  {
    var w1 := PagesRun(w, t, pages, [], root);
    assert [] + Sweeps(root, pages) == Sweeps(root, pages);
    w' := SweepEnds(w1, t, Sweeps(root, pages), root);
    ReachesOn(w, w1, w');
  }

  lemma OpenToken(w: World, token: nat)
    requires Reachable(w) && FreshToken(w, token)
    ensures NoneClosed(w, token)
  {
    ReachableIsSound(w);
    FreshIsOpen(w, token);
  }

  /**
   A force delete that nobody disturbs completes, whatever the bucket holds: from every reachable state in
   which it has resolved the stored record of a live bucket without a live lease, and its process is free, it
   can list the pages, delete exactly their keys in order, delete the bucket and the record, and report so.
   */
  lemma UndisturbedDelete(w: World, t: nat, now: nat, clock: nat, token: nat, pages: seq<seq<Key>>)
    returns (w': World)
    requires Reachable(w) && MayTake(w, t, now, token) && ArePages(pages)
    ensures var root := w.tasks[t].drive.data.root;
            Reaches(w, w') && Deleted(w', t, Sweeps(root, pages) + [ListObjects(root)] + [DeleteBucket(root)])
    ensures w'.tasks[t].proc !in w'.slots
  {
    OpenToken(w, token);
    var root := w.tasks[t].drive.data.root;
    var w1 := SweepStarts(w, t, now, clock, token);
    w' := SweepRuns(w1, t, pages, root);
    ReachesOn(w, w1, w');
  }

  lemma PlainDeleteRuns(w: World, t: nat, root: nat) returns (w': World)
    requires At(w, t, Looked) && !w.tasks[t].force && w.tasks[t].ops == [] && w.tasks[t].drive.version != 0
    requires Current(w.log) == Some(w.tasks[t].drive) && w.bucket == Some(root) && w.tasks[t].drive.data.root == root
    ensures Reaches(w, w') && Deleted(w', t, [DeleteBucket(root)])
  {
    var w1 := PlainDeleteSent(w, t, root);
    var w2 := BucketGoes(w1, t, true, [DeleteBucket(root)], root);
    ReachesOn(w, w1, w2);
    w' := RecordGoes(w2, t, PlainDeleted, [DeleteBucket(root)]);
    ReachesOn(w, w2, w');
  }

  /** And so does a plain delete of an empty bucket. */
  lemma UndisturbedPlainDelete(w: World, t: nat) returns (w': World)
    requires Reachable(w) && At(w, t, Looked) && !w.tasks[t].force && w.tasks[t].ops == []
    requires Current(w.log) == Some(w.tasks[t].drive) && w.bucket == Some(w.tasks[t].drive.data.root)
    ensures Reaches(w, w') && Deleted(w', t, [DeleteBucket(w.tasks[t].drive.data.root)])
  {
    ReachableIsSound(w);
    CurrentIsStored(w.log);
    StoredVersionIsUsed(w.log, w.tasks[t].drive);
    w' := PlainDeleteRuns(w, t, w.tasks[t].drive.data.root);
  }

  // ---------------------------------------------------------------- a bucket replaced meanwhile

  lemma BucketReplacedBy(w: World, root: nat) returns (w': World)
    requires w.bucket.Some? && root !in w.roots
    ensures Reaches(w, w') && w' == w.(bucket := Some(root), roots := w.roots + {root})
  {
    var w1 := Do(w, Step.BucketGoes);
    w' := Do(w1, BucketComes(root));
    ReachesItself(w);
    ReachesNext(w, w, Step.BucketGoes);
    ReachesNext(w, w1, BucketComes(root));
  }

  lemma MismatchAnswered(w: World, t: nat, plain: bool, ops: seq<Op>, root: nat) returns (w': World)
    requires t in w.tasks && w.tasks[t].pc == BucketCall(plain) && w.tasks[t].ops == ops
    requires Current(w.log) == Some(w.tasks[t].drive) && w.tasks[t].drive.version != 0
    requires w.tasks[t].drive.data.root == root && w.bucket != Some(root) && root in w.drops
    ensures Reaches(w, w') && RecordGoing(w', t, if plain then PlainReplaced else SweepReplaced, ops)
    ensures w'.bucket == w.bucket
  {
    var w1 := Do(w, RefusesDrop(root));
    w' := Do(w1, BucketReplaced(t));
    ReachesItself(w);
    ReachesNext(w, w, RefusesDrop(root));
    ReachesNext(w, w1, BucketReplaced(t));
  }

  /**
   If the bucket is replaced by any new incarnation while the fenced delete is on its way, the delete can
   still drop its own record and report so, and the new bucket stays.
   */
  lemma ReplacedBucketIsSpared(w: World, t: nat, plain: bool, ops: seq<Op>, root: nat, root': nat)
    returns (w': World)
    requires BucketGoing(w, t, plain, ops, root) && root in w.roots && root' !in w.roots
    ensures Reaches(w, w') && RecordGone(w', t, ops) && w'.bucket == Some(root')
    ensures !plain ==> w'.tasks[t].proc !in w'.slots
  {
    var w1 := BucketReplacedBy(w, root');
    var w2 := MismatchAnswered(w1, t, plain, ops, root);
    ReachesOn(w, w1, w2);
    w' := RecordGoes(w2, t, if plain then PlainReplaced else SweepReplaced, ops);
    ReachesOn(w, w2, w');
  }
}
