/** Runs that show where the drive-delete protocol promises less than its comments do. */
module LeaseExamples {
  import opened Options
  import opened DriveStore
  import opened LeaseProtocol
  import opened LeaseInvariant
  import opened LeaseTheorems
  import opened LeaseLimits

  predicate Leads(w: World, s: Step, w': World) {
    Can(w, s) && w' == Do(w, s)
  }

  lemma Extends(w: World, s: Step, w': World)
    requires Reachable(w) && Leads(w, s, w')
    ensures Reachable(w')
  {
    var w0: World, steps: seq<Step> :| Initial(w0) && CanRun(w0, steps) && After(w0, steps) == w;
    RunExtends(w0, steps, s);
  }

  const RECORD: Drive := Drive(1, 7, Ready, 0, 0, 0)
  const CREATION: Put := Put(0, RECORD)
  const LEASE: Put := Put(1, Taken(RECORD, 5, 9))
  const RENEWAL: Put := Put(2, Renewed(LEASE.data, 6))

  function Nothing(strict: bool): World {
    World(strict, [], {}, {}, {}, {}, {}, {}, {}, {}, Some(7), {7}, {}, map[])
  }

  /** Record version 1 on bucket root 7, resolved by a request of process 0 and seen live. */
  function Resolved(strict: bool, force: bool): World {
    var task := Task(0, force, Live, Versioned(1, RECORD), 0, Versioned(1, RECORD), 0, [], [], [], None, 0, 0);
    Nothing(strict).(log := [Wrote(0, 1, RECORD)], puts := {CREATION}, putAcks := {(CREATION, 1)},
                     tasks := map[0 := task])
  }

  function Stored1(strict: bool): World {
    Nothing(strict).(log := [Wrote(0, 1, RECORD)], puts := {CREATION}, putAcks := {(CREATION, 1)})
  }

  lemma ToStored(strict: bool) returns (w: World)
    ensures Leads(Nothing(strict), SendsCreate(1, 7), w)
    ensures Leads(w, AppliesPut(CREATION, 1), Stored1(strict))
  {
    w := Do(Nothing(strict), SendsCreate(1, 7));
  }

  lemma StoredIsReachable(strict: bool)
    ensures Reachable(Stored1(strict))
  {
    var w0 := Nothing(strict);
    assert Initial(w0) && CanRun(w0, []) && After(w0, []) == w0;
    var w1 := ToStored(strict);
    Extends(w0, SendsCreate(1, 7), w1);
    Extends(w1, AppliesPut(CREATION, 1), Stored1(strict));
  }

  lemma ToResolved(strict: bool, force: bool) returns (w: World)
    ensures Leads(Stored1(strict), Resolves(0, 0, force), w)
    ensures Leads(w, ChecksBucket(0), Resolved(strict, force))
  {
    w := Do(Stored1(strict), Resolves(0, 0, force));
    assert Do(w, ChecksBucket(0)).tasks == Resolved(strict, force).tasks;
  }

  lemma ResolvedIsReachable(strict: bool, force: bool)
    ensures Reachable(Resolved(strict, force))
  {
    StoredIsReachable(strict);
    var w := ToResolved(strict, force);
    Extends(Stored1(strict), Resolves(0, 0, force), w);
    Extends(w, ChecksBucket(0), Resolved(strict, force));
  }

  /** The request has registered a worker and sent its lease write. */
  function Sent(strict: bool): World {
    var task := Task(0, true, Writing(TakeLease), Versioned(1, LEASE.data), 0, Versioned(1, RECORD), 5, [LEASE], [], [],
                     None, 1, 0);
    Resolved(strict, true).(puts := {CREATION, LEASE}, slots := {0}, tasks := map[0 := task])
  }

  lemma ToSent(strict: bool)
    ensures Leads(Resolved(strict, true), Registers(0, 5, 5, 9), Sent(strict))
  {
    var w := Do(Resolved(strict, true), Registers(0, 5, 5, 9));
    assert w.tasks[0].writes == [LEASE];
    assert w.tasks[0] == Sent(strict).tasks[0];
    assert w.tasks == Sent(strict).tasks;
    assert w.puts == Sent(strict).puts;
    assert w.slots == Sent(strict).slots;
  }

  lemma SentIsReachable(strict: bool)
    ensures Reachable(Sent(strict))
  {
    ResolvedIsReachable(strict, true);
    ToSent(strict);
    Extends(Resolved(strict, true), Registers(0, 5, 5, 9), Sent(strict));
  }

  /** The lease write failed, and the read-back does not find it. */
  function Refused(): World {
    var task := Sent(false).tasks[0].(pc := Exiting(NotTaken));
    Sent(false).(closed := {LEASE}, tasks := map[0 := task])
  }

  lemma ToRefused() returns (w: World)
    ensures Leads(Sent(false), PutFails(0), w)
    ensures Leads(w, ReadsBack(0), Refused())
  {
    w := Do(Sent(false), PutFails(0));
    assert Do(w, ReadsBack(0)).tasks == Refused().tasks;
  }

  /** The start call has released its slot and answered. */
  function Answered(): World {
    var task := Sent(false).tasks[0].(pc := Done(NotTaken), released := 1);
    Sent(false).(closed := {LEASE}, slots := {}, tasks := map[0 := task])
  }

  lemma ToAnswered()
    ensures Leads(Refused(), Releases(0), Answered())
  {
    var w := Do(Refused(), Releases(0));
    assert w.tasks == Answered().tasks && w.slots == Answered().slots;
  }

  lemma AnsweredIsReachable()
    ensures Reachable(Answered())
  {
    SentIsReachable(false);
    var w1 := ToRefused();
    Extends(Sent(false), PutFails(0), w1);
    Extends(w1, ReadsBack(0), Refused());
    ToAnswered();
    Extends(Refused(), Releases(0), Answered());
  }

  /**
   Without the assumption that a failed write is no longer on its way, a start call can answer "busy"
   and its lease land afterwards, with no worker behind it.
   */
  lemma StragglerStrandsLease() returns (w: World)
    ensures Reachable(w) && !w.strict && 0 in w.tasks
    ensures w.tasks[0].pc == Done(NotTaken) && w.tasks[0].writes != []
    ensures CurrentToken(w.log) == TokenOf(w.tasks[0]) && w.slots == {}
  {
    AnsweredIsReachable();
    w := Do(Answered(), AppliesPut(LEASE, 2));
    Extends(Answered(), AppliesPut(LEASE, 2), w);
  }

  /** The worker holds the lease as version 2 and starts. */
  function Started(): World {
    var task := Task(0, true, Spawned, Versioned(2, LEASE.data), 0, Versioned(1, RECORD), 5, [LEASE], [2], [],
                     None, 1, 0);
    Sent(true).(log := [Wrote(0, 1, RECORD), Wrote(1, 2, LEASE.data)], putAcks := {(CREATION, 1), (LEASE, 2)},
                tasks := map[0 := task])
  }

  lemma ToStarted() returns (w: World)
    ensures Leads(Sent(true), AppliesPut(LEASE, 2), w)
    ensures Leads(w, PutReturns(0, 2), Started())
  {
    w := Do(Sent(true), AppliesPut(LEASE, 2));
    var w' := Do(w, PutReturns(0, 2));
    assert w'.tasks[0].landed == [2];
    assert w'.tasks == Started().tasks;
  }

  /** The worker found nothing to delete. */
  function Swept(): World {
    var task := Task(0, true, Finishing, Versioned(2, LEASE.data), 7, Versioned(1, RECORD), 5, [LEASE], [2],
                     [ListObjects(7)], None, 1, 0);
    Started().(tasks := map[0 := task])
  }

  /** The worker has found its bucket. */
  function Fetched(): World {
    Started().(tasks := map[0 := Started().tasks[0].(pc := Paging, bucketRoot := 7)])
  }

  lemma ToFetched()
    ensures Leads(Started(), FetchesBucket(0), Fetched())
  {
    assert Do(Started(), FetchesBucket(0)).tasks == Fetched().tasks;
  }

  lemma ToSwept()
    ensures Leads(Fetched(), ListsPage(0, []), Swept())
  {
    var w := Do(Fetched(), ListsPage(0, []));
    assert w.tasks[0].ops == [ListObjects(7)];
    assert w.tasks == Swept().tasks;
  }

  lemma StartedIsReachable()
    ensures Reachable(Started())
  {
    SentIsReachable(true);
    var w := ToStarted();
    Extends(Sent(true), AppliesPut(LEASE, 2), w);
    Extends(w, PutReturns(0, 2), Started());
  }

  lemma SweptIsReachable()
    ensures Reachable(Swept())
  {
    StartedIsReachable();
    ToFetched();
    Extends(Started(), FetchesBucket(0), Fetched());
    ToSwept();
    Extends(Fetched(), ListsPage(0, []), Swept());
  }

  /** The renewal for the bucket delete has been sent. */
  function Renewing(): World {
    var task := Swept().tasks[0].(pc := Writing(BeforeBucket), drive := Versioned(2, RENEWAL.data),
                                  writes := [LEASE, RENEWAL]);
    Swept().(puts := {CREATION, LEASE, RENEWAL}, tasks := map[0 := task])
  }

  lemma ToRenewing()
    ensures Leads(Swept(), Renews(0, 6), Renewing())
  {
    var w := Do(Swept(), Renews(0, 6));
    assert w.tasks[0].writes == [LEASE, RENEWAL];
    assert w.tasks == Renewing().tasks;
    assert w.puts == Renewing().puts;
  }

  lemma RenewingIsReachable()
    ensures Reachable(Renewing())
  {
    SweptIsReachable();
    ToRenewing();
    Extends(Swept(), Renews(0, 6), Renewing());
  }

  /** A worker finds its lease lost, and will report it taken by another gateway, while the record is still its own. */
  lemma LostWithoutRival() returns (w: World)
    ensures Reachable(w) && w.strict && 0 in w.tasks
    ensures w.tasks[0].pc == Exiting(LeaseLost) && w.tasks[0].writes != []
    ensures CurrentToken(w.log) == TokenOf(w.tasks[0])
  {
    RenewingIsReachable();
    var w1 := Do(Renewing(), PutFails(0));
    Extends(Renewing(), PutFails(0), w1);
    w := Do(w1, ReadsBack(0));
    Extends(w1, ReadsBack(0), w);
  }

  /** The record is removed while that renewal is under way, and the renewal fails. */
  function Bereft(): World {
    var task := Renewing().tasks[0].(pc := Reading(BeforeBucket));
    Renewing().(log := Started().log + [Removed(2, Other, None)], removes := {Remove(None, 2, Other)},
                removed := {Remove(None, 2, Other)}, closed := {RENEWAL}, tasks := map[0 := task])
  }

  lemma ToBereft() returns (w1: World, w2: World)
    ensures Leads(Renewing(), SendsRemove(2), w1)
    ensures Leads(w1, AppliesRemove(Remove(None, 2, Other)), w2)
    ensures Leads(w2, PutFails(0), Bereft())
  {
    w1 := Renewing().(removes := {Remove(None, 2, Other)});
    assert Do(Renewing(), SendsRemove(2)) == w1;
    w2 := w1.(log := Started().log + [Removed(2, Other, None)], removed := {Remove(None, 2, Other)});
    assert Do(w1, AppliesRemove(Remove(None, 2, Other))) == w2;
    assert Do(w2, PutFails(0)).tasks == Bereft().tasks;
  }

  /** A worker can find its lease lost while nobody holds one: the record is gone. */
  lemma LostToNobody()
    ensures Reachable(Bereft()) && Bereft().tasks[0].pc.Reading? && Bereft().strict
    ensures ReconcileLease(Bereft().tasks[0].drive, Current(Bereft().log)).None?
    ensures CurrentToken(Bereft().log) == 0
  {
    RenewingIsReachable();
    var w1, w2 := ToBereft();
    Extends(Renewing(), SendsRemove(2), w1);
    Extends(w1, AppliesRemove(Remove(None, 2, Other)), w2);
    Extends(w2, PutFails(0), Bereft());
  }

  /** The sweep failed at its start, and the worker has ended. */
  function Broken(): World {
    var task := Started().tasks[0].(pc := Done(Failed), released := 1);
    Started().(slots := {}, tasks := map[0 := task])
  }

  lemma ToBroken() returns (w: World)
    ensures Leads(Started(), SweepFails(0), w)
    ensures Leads(w, Releases(0), Broken())
  {
    w := Started().(tasks := map[0 := Started().tasks[0].(pc := Exiting(Failed))]);
    assert Do(Started(), SweepFails(0)).tasks == w.tasks;
    assert Do(w, Releases(0)).tasks == Broken().tasks;
    assert Do(w, Releases(0)).slots == Broken().slots;
  }

  /** A worker whose sweep failed has ended, and the record still shows its lease as live. */
  lemma FailedSweepLeavesLease()
    ensures Reachable(Broken()) && Broken().strict && Broken().slots == {} && Broken().tasks[0].pc == Done(Failed)
    ensures CurrentToken(Broken().log) == TokenOf(Broken().tasks[0]) != 0
    ensures Current(Broken().log).Some? && SweepAlive(Current(Broken().log).value.data, 5)
  {
    StartedIsReachable();
    var w := ToBroken();
    Extends(Started(), SweepFails(0), w);
    Extends(w, Releases(0), Broken());
  }

  /** The worker has listed two objects. */
  function Listed(): World {
    var task := Task(0, true, Batching(["/a", "/b"]), Versioned(2, LEASE.data), 7, Versioned(1, RECORD), 5, [LEASE],
                     [2], [ListObjects(7)], None, 1, 0);
    Started().(tasks := map[0 := task])
  }

  lemma ToListed()
    ensures Leads(Fetched(), ListsPage(0, ["/a", "/b"]), Listed())
  {
    var w := Do(Fetched(), ListsPage(0, ["/a", "/b"]));
    assert w.tasks[0].ops == [ListObjects(7)];
    assert w.tasks == Listed().tasks;
  }

  /** The renewal before the batch has been applied. */
  function Prepared(): World {
    var task := Listed().tasks[0].(pc := Writing(BeforeBatch(["/a", "/b"])), drive := Versioned(2, RENEWAL.data),
                                   writes := [LEASE, RENEWAL]);
    Listed().(puts := {CREATION, LEASE, RENEWAL}, tasks := map[0 := task])
  }

  lemma ToPrepared()
    ensures Leads(Listed(), Renews(0, 6), Prepared())
  {
    var w := Do(Listed(), Renews(0, 6));
    assert w.tasks[0].writes == [LEASE, RENEWAL];
    assert w.tasks == Prepared().tasks;
    assert w.puts == Prepared().puts;
  }

  lemma PreparedIsReachable()
    ensures Reachable(Prepared())
  {
    StartedIsReachable();
    ToFetched();
    Extends(Started(), FetchesBucket(0), Fetched());
    ToListed();
    Extends(Fetched(), ListsPage(0, ["/a", "/b"]), Listed());
    ToPrepared();
    Extends(Listed(), Renews(0, 6), Prepared());
  }

  /** The batch is under way, with nothing issued yet. */
  function Running(): World {
    var task := Prepared().tasks[0].(pc := InBatch(["/a", "/b"], []), drive := Versioned(3, RENEWAL.data),
                                     landed := [2, 3]);
    Prepared().(log := Started().log + [Wrote(2, 3, RENEWAL.data)],
                putAcks := {(CREATION, 1), (LEASE, 2), (RENEWAL, 3)}, tasks := map[0 := task])
  }

  lemma ToRunning() returns (w: World)
    ensures Leads(Prepared(), AppliesPut(RENEWAL, 3), w)
    ensures Leads(w, PutReturns(0, 3), Running())
  {
    w := Do(Prepared(), AppliesPut(RENEWAL, 3));
    var w' := Do(w, PutReturns(0, 3));
    assert w'.tasks[0].landed == [2, 3];
    assert w'.tasks[0].pc == InBatch(["/a", "/b"], []);
    assert w'.tasks == Running().tasks;
  }

  lemma RunningIsReachable()
    ensures Reachable(Running())
  {
    PreparedIsReachable();
    var w := ToRunning();
    Extends(Prepared(), AppliesPut(RENEWAL, 3), w);
    Extends(w, PutReturns(0, 3), Running());
  }

  const AGAIN: Put := Put(3, Renewed(RENEWAL.data, 7))

  /** A renewal in the middle of the batch has been sent. */
  function Midway(): World {
    var task := Running().tasks[0].(pc := Writing(MidBatch(["/a", "/b"], [])), drive := Versioned(3, AGAIN.data),
                                    writes := [LEASE, RENEWAL, AGAIN]);
    Running().(puts := {CREATION, LEASE, RENEWAL, AGAIN}, tasks := map[0 := task])
  }

  lemma ToMidway()
    ensures Leads(Running(), Renews(0, 7), Midway())
  {
    var w := Do(Running(), Renews(0, 7));
    assert w.tasks[0].writes == [LEASE, RENEWAL, AGAIN];
    assert w.tasks == Midway().tasks;
    assert w.puts == Midway().puts;
  }

  /** That renewal failed. */
  function Failing(): World {
    var task := Midway().tasks[0].(pc := Reading(MidBatch(["/a", "/b"], [])));
    Midway().(closed := {AGAIN}, tasks := map[0 := task])
  }

  lemma ToFailing()
    ensures Leads(Midway(), PutFails(0), Failing())
  {
    assert Do(Midway(), PutFails(0)).tasks == Failing().tasks;
  }

  lemma FailingIsReachable()
    ensures Reachable(Failing())
  {
    RunningIsReachable();
    ToMidway();
    Extends(Running(), Renews(0, 7), Midway());
    ToFailing();
    Extends(Midway(), PutFails(0), Failing());
  }

  /** The read-back does not find it, and both keys are still ahead. */
  function Lapsed(): World {
    Failing().(tasks := map[0 := Failing().tasks[0].(pc := Draining(["/a", "/b"]))])
  }

  lemma ToLapsed()
    ensures Leads(Failing(), ReadsBack(0), Lapsed())
  {
    assert Do(Failing(), ReadsBack(0)).tasks == Lapsed().tasks;
  }

  /** A worker whose lease is found lost in the middle of a batch goes on to issue a key it had not issued. */
  lemma IssuesKeyAfterLoss()
    ensures Reachable(Lapsed()) && Lapsed().tasks[0].ops == [ListObjects(7)]
    ensures Can(Lapsed(), DeletesObject(0)) && 0 in Do(Lapsed(), DeletesObject(0)).tasks
    ensures Do(Lapsed(), DeletesObject(0)).tasks[0].ops == [ListObjects(7), DeleteObject(7, "/a")]
  {
    FailingIsReachable();
    ToLapsed();
    Extends(Failing(), ReadsBack(0), Lapsed());
  }

  /** A plain delete was answered with a text that contains "not found". */
  function Mistaken(): World {
    var task := Resolved(true, false).tasks[0].(pc := Removing(DROP_ATTEMPTS, PlainNotFound), ops := [DeleteBucket(7)],
                                                    dropFrom := Some(1));
    Resolved(true, false).(drops := {7}, removes := {Remove(Some(0), 1, PlainNotFound)}, tasks := map[0 := task])
  }

  function Asked(): World {
    var task := Resolved(true, false).tasks[0].(pc := BucketCall(true), ops := [DeleteBucket(7)]);
    Resolved(true, false).(drops := {7}, tasks := map[0 := task])
  }

  lemma ToAsked()
    ensures Leads(Resolved(true, false), SendsPlainDelete(0), Asked())
  {
    var w := Do(Resolved(true, false), SendsPlainDelete(0));
    assert w.tasks[0].ops == [DeleteBucket(7)];
    assert w.tasks == Asked().tasks;
  }

  lemma ToMistaken()
    ensures Leads(Asked(), BucketNotFound(0), Mistaken())
  {
    assert Do(Asked(), BucketNotFound(0)).tasks == Mistaken().tasks;
  }

  /**
   A plain delete takes any reply containing "not found" for "the bucket is gone", so a record can be
   removed while the bucket it names is live.
   */
  lemma NotFoundTextDropsLiveRecord() returns (w: World)
    ensures Reachable(w) && |w.log| == 2
    ensures w.log[0] == Wrote(0, 1, RECORD) && w.log[1] == Removed(1, PlainNotFound, Some(0))
    ensures w.bucket == Some(RECORD.root)
  {
    ResolvedIsReachable(true, false);
    ToAsked();
    Extends(Resolved(true, false), SendsPlainDelete(0), Asked());
    ToMistaken();
    Extends(Asked(), BucketNotFound(0), Mistaken());
    w := Do(Mistaken(), AppliesRemove(Remove(Some(0), 1, PlainNotFound)));
    Extends(Mistaken(), AppliesRemove(Remove(Some(0), 1, PlainNotFound)), w);
  }
}
