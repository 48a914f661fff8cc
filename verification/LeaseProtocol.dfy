/**
 The drive-delete protocol of one drive name as a step system: any number of gateway processes, any
 number of delete requests and sweep workers, and an environment that may do everything the stores
 allow.

 Messages are never consumed.  A request once sent may reach the store at any later time and any
 number of times, and a reply once given may arrive at any later time or never.  `PutFails` may
 therefore report an error for a write that was applied, is still on its way, or never left.
 With `strict` set, a write whose caller was told of an error is no longer on its way.
 */
module LeaseProtocol {
  import opened Options
  import opened DriveStore

  type Key = string

  const PAGE: nat := 1000
  const BATCH: nat := 100

  datatype Put = Put(expected: nat, data: Drive)

  /** A removal of the record, by a delete task or by someone outside this protocol. */
  datatype Remove = Remove(sender: Option<nat>, expected: nat, why: Why)

  datatype Op =
    | ListObjects(root: nat)
    | DeleteObject(root: nat, key: Key)
    | DeleteBucket(root: nat)

  /** What a lease write is for: the code that runs once it is known to have landed. */
  datatype Next =
    | TakeLease
    | BeforeBatch(keys: seq<Key>)
    | MidBatch(left: seq<Key>, rest: seq<Key>)
    | BeforeBucket

  datatype Outcome = Accepted | Busy | NotTaken | LeaseLost | Dropped | DropFailed | Failed | Crashed

  datatype Pc =
    | Looked                                // the record is read
    | Live                                  // its bucket incarnation was seen live
    | Writing(next: Next)                   // a lease write was sent
    | Reading(next: Next)                   // it failed; reading the record back
    | Spawned                               // the lease is taken, the worker starts
    | Paging                                // about to list the next page
    | Batching(keys: seq<Key>)              // about to renew for the next batch of `keys`
    | InBatch(left: seq<Key>, rest: seq<Key>)
    | Draining(left: seq<Key>)              // the lease is lost, the batch settles
    | Finishing                             // nothing listed: about to renew for the bucket delete
    | Fencing                               // that renewal landed
    | BucketCall(plain: bool)               // the fenced bucket delete was sent
    | Removing(tries: nat, why: Why)        // a record removal was sent
    | Rereading(tries: nat, why: Why)       // it met another version; reading the record again
    | Exiting(outcome: Outcome)             // the slot's owner is done and about to release it
    | Done(outcome: Outcome)

  /**
   One delete request and the worker it may become.  `seen`, `seenAt`, `writes`, `landed` and `ops`
   are its history: the record it resolved, the clock reading its lease was found expired at, the
   lease writes it sent, the versions those were reported landed under, the storage calls it issued,
   how long the record's history was when it began to drop the record, and how often it registered
   and released a worker slot.
   */
  datatype Task = Task(proc: nat, force: bool, pc: Pc, drive: Versioned, bucketRoot: nat,
                       seen: Versioned, seenAt: nat, writes: seq<Put>, landed: seq<nat>, ops: seq<Op>,
                       dropFrom: Option<nat>, registered: nat, released: nat)

  datatype World = World(
    strict: bool,
    log: Log,
    puts: set<Put>, putAcks: set<(Put, nat)>, closed: set<Put>,
    removes: set<Remove>, removed: set<Remove>,
    drops: set<nat>, dropped: set<nat>, mismatched: set<nat>,
    bucket: Option<nat>, roots: set<nat>,
    slots: set<nat>, tasks: map<nat, Task>)

  datatype Step =
    // other requests and other doors
    | SendsCreate(id: nat, root: nat)
    | SendsRemove(version: nat)
    | BucketGoes
    | BucketComes(root: nat)
    | Crashes(proc: nat)
    // the stores
    | AppliesPut(put: Put, version: nat)
    | AppliesRemove(remove: Remove)
    | AppliesDrop(root: nat)
    | RefusesDrop(root: nat)
    // a delete request
    | Resolves(t: nat, proc: nat, force: bool)
    | ChecksBucket(t: nat)
    | AnswersAlive(t: nat, now: nat)
    | Registers(t: nat, now: nat, clock: nat, token: nat)
    | FindsBusy(t: nat)
    | SendsPlainDelete(t: nat)
    | RequestFails(t: nat)
    // a lease write
    | PutReturns(t: nat, version: nat)
    | PutFails(t: nat)
    | ReadsBack(t: nat)
    | ReadBackFails(t: nat)
    | Releases(t: nat)
    // the sweep
    | FetchesBucket(t: nat)
    | ListsPage(t: nat, page: seq<Key>)
    | Renews(t: nat, clock: nat)
    | DeletesObject(t: nat)
    | EndsBatch(t: nat)
    | SendsBucketDelete(t: nat)
    | SweepFails(t: nat)
    // dropping the record
    | BucketDeleted(t: nat)
    | BucketReplaced(t: nat)
    | BucketNotFound(t: nat)
    | RecordRemoved(t: nat)
    | RecordChanged(t: nat)
    | Rereads(t: nat)

  // ---------------------------------------------------------------- the sequential pieces

  /** The stored record, if it is the lease write `written` describes. */
  function ReconcileLease(written: Versioned, stored: Option<Versioned>): Option<Versioned> {
    if stored.Some?
       && stored.value.data.id == written.data.id
       && stored.value.data.token == written.data.token
       && stored.value.data.heartbeat == written.data.heartbeat
    then stored else None
  }

  function Max(a: nat, b: nat): nat {
    if a < b then b else a
  }

  /** The record a request writes to take the lease it saw expired. */
  function Taken(d: Drive, clock: nat, token: nat): Drive {
    d.(status := Deleting,
       deletingSince := if d.deletingSince == 0 then clock else d.deletingSince,
       heartbeat := clock,
       token := token)
  }

  function Renewed(d: Drive, clock: nat): Drive {
    d.(heartbeat := Max(clock, d.heartbeat + 1))
  }

  function BatchSize(keys: seq<Key>): nat {
    if |keys| < BATCH then |keys| else BATCH
  }

  /** A task that sends its handle as the next lease write. */
  function Writes(task: Task, next: Next): Task {
    task.(pc := Writing(next), writes := task.writes + [Put(task.drive.version, task.drive.data)])
  }

  /** `LeaseWrite::Landed`: the handle is the stored record and the caller goes on. */
  function Landed(task: Task, next: Next, stored: Versioned): Task {
    task.(
      drive := stored,
      landed := task.landed + [stored.version],
      pc := match next
        case TakeLease => Spawned
        case BeforeBatch(keys) => InBatch(keys[..BatchSize(keys)], keys[BatchSize(keys)..])
        case MidBatch(left, rest) => InBatch(left, rest)
        case BeforeBucket => Fencing)
  }

  /** `LeaseWrite::Lost`: nothing further starts; a batch in flight settles. */
  function Lost(next: Next): Pc {
    match next
    case TakeLease => Exiting(NotTaken)
    case BeforeBatch(_) => Exiting(LeaseLost)
    case MidBatch(left, _) => Draining(left)
    case BeforeBucket => Exiting(LeaseLost)
  }

  /** A drop returns to the sweep, which ends the worker, or to the handler of the request. */
  function DropEnds(why: Why, outcome: Outcome): Pc {
    if why.OfSweep() then Exiting(outcome) else Done(outcome)
  }

  // ---------------------------------------------------------------- the steps

  predicate At(w: World, t: nat, pc: Pc) {
    t in w.tasks && w.tasks[t].pc == pc
  }

  /** The request's handler is running, outside any call that owns a worker slot. */
  predicate InHandler(pc: Pc) {
    || pc.Looked? || pc.Live? || pc == BucketCall(true)
    || ((pc.Removing? || pc.Rereading?) && !pc.why.OfSweep())
  }

  /** The worker's sweep is running, between its lease writes. */
  predicate InSweep(pc: Pc) {
    || pc.Spawned? || pc.Paging? || pc.Batching? || pc.InBatch? || pc.Draining? || pc.Finishing? || pc.Fencing?
    || pc == BucketCall(false)
    || ((pc.Removing? || pc.Rereading?) && pc.why.OfSweep())
  }

  predicate FreshToken(w: World, token: nat) {
    token != 0 && forall t | t in w.tasks && w.tasks[t].writes != [] :: w.tasks[t].writes[0].data.token != token
  }

  predicate Can(w: World, s: Step) {
    match s
    case SendsCreate(id, root) => root in w.roots
    case SendsRemove(v) => true
    case BucketGoes => true
    case BucketComes(root) => w.bucket.None? && root !in w.roots
    case Crashes(_) => true
    case AppliesPut(p, v) =>
      p in w.puts && (w.strict ==> p !in w.closed) && CurrentVersion(w.log) == p.expected && Unused(w.log, v)
    case AppliesRemove(r) => r in w.removes && r.expected != 0 && CurrentVersion(w.log) == r.expected
    case AppliesDrop(root) => root in w.drops && w.bucket == Some(root)
    case RefusesDrop(root) => root in w.drops && w.bucket != Some(root)
    case Resolves(t, _, _) => t !in w.tasks && Current(w.log).Some?
    case ChecksBucket(t) => At(w, t, Looked)
    case AnswersAlive(t, now) => At(w, t, Live) && w.tasks[t].force && SweepAlive(w.tasks[t].drive.data, now)
    case Registers(t, now, clock, token) =>
      && At(w, t, Live) && w.tasks[t].force && !SweepAlive(w.tasks[t].drive.data, now)
      && w.tasks[t].proc !in w.slots && FreshToken(w, token)
    case FindsBusy(t) => At(w, t, Live) && w.tasks[t].force && w.tasks[t].proc in w.slots
    case SendsPlainDelete(t) => At(w, t, Live) && !w.tasks[t].force
    case RequestFails(t) => t in w.tasks && InHandler(w.tasks[t].pc)
    case PutReturns(t, v) =>
      && t in w.tasks && w.tasks[t].pc.Writing?
      && (Put(w.tasks[t].drive.version, w.tasks[t].drive.data), v) in w.putAcks
    case PutFails(t) => t in w.tasks && w.tasks[t].pc.Writing?
    case ReadsBack(t) => t in w.tasks && w.tasks[t].pc.Reading?
    case ReadBackFails(t) => t in w.tasks && w.tasks[t].pc.Reading?
    case Releases(t) => t in w.tasks && w.tasks[t].pc.Exiting?
    case FetchesBucket(t) => At(w, t, Spawned)
    case ListsPage(t, page) => At(w, t, Paging) && |page| <= PAGE
    case Renews(t, _) =>
      && t in w.tasks
      && (w.tasks[t].pc.Batching? || w.tasks[t].pc.InBatch? || w.tasks[t].pc.Finishing?)
    case DeletesObject(t) =>
      && t in w.tasks
      && (w.tasks[t].pc.InBatch? || w.tasks[t].pc.Draining?)
      && w.tasks[t].pc.left != []
    case EndsBatch(t) =>
      && t in w.tasks
      && (w.tasks[t].pc.InBatch? || w.tasks[t].pc.Draining?)
      && w.tasks[t].pc.left == []
    case SendsBucketDelete(t) => At(w, t, Fencing)
    case SweepFails(t) => t in w.tasks && InSweep(w.tasks[t].pc)
    case BucketDeleted(t) => t in w.tasks && w.tasks[t].pc.BucketCall? && w.tasks[t].drive.data.root in w.dropped
    case BucketReplaced(t) => t in w.tasks && w.tasks[t].pc.BucketCall? && w.tasks[t].drive.data.root in w.mismatched
    case BucketNotFound(t) => At(w, t, BucketCall(true))
    case RecordRemoved(t) =>
      && t in w.tasks && w.tasks[t].pc.Removing?
      && Remove(Some(t), w.tasks[t].drive.version, w.tasks[t].pc.why) in w.removed
    case RecordChanged(t) => t in w.tasks && w.tasks[t].pc.Removing?
    case Rereads(t) => t in w.tasks && w.tasks[t].pc.Rereading?
  }

  function With(w: World, t: nat, task: Task): World
    requires t in w.tasks
  {
    w.(tasks := w.tasks[t := task])
  }

  /** One attempt of `drop_stale_record` with the given handle. */
  function SendsDrop(w: World, t: nat, task: Task, tries: nat, why: Why): World
    requires t in w.tasks
  {
    With(w, t, task.(pc := Removing(tries, why))).(removes := w.removes + {Remove(Some(t), task.drive.version, why)})
  }

  /** Enter `drop_stale_record`. */
  function StartsDrop(w: World, t: nat, task: Task, why: Why): World
    requires t in w.tasks
  {
    SendsDrop(w, t, task.(dropFrom := Some(|w.log|)), DROP_ATTEMPTS, why)
  }

  function Sends(w: World, t: nat, task: Task, next: Next): World
    requires t in w.tasks
  {
    With(w, t, Writes(task, next)).(puts := w.puts + {Put(task.drive.version, task.drive.data)})
  }

  function Do(w: World, s: Step): World
    requires Can(w, s)
  {
    match s
    case SendsCreate(id, root) => w.(puts := w.puts + {Put(0, Drive(id, root, Ready, 0, 0, 0))})
    case SendsRemove(v) => w.(removes := w.removes + {Remove(None, v, Other)})
    case BucketGoes => w.(bucket := None)
    case BucketComes(root) => w.(bucket := Some(root), roots := w.roots + {root})
    case Crashes(p) =>
      w.(slots := w.slots - {p},
         tasks := map t | t in w.tasks ::
           if w.tasks[t].proc == p && !w.tasks[t].pc.Done? then w.tasks[t].(pc := Done(Crashed)) else w.tasks[t])
    case AppliesPut(p, v) => w.(log := w.log + [Wrote(p.expected, v, p.data)], putAcks := w.putAcks + {(p, v)})
    case AppliesRemove(r) => w.(log := w.log + [Removed(r.expected, r.why, r.sender)], removed := w.removed + {r})
    case AppliesDrop(root) => w.(bucket := None, dropped := w.dropped + {root})
    case RefusesDrop(root) => w.(mismatched := w.mismatched + {root})
    case Resolves(t, p, force) =>
      var seen := Current(w.log).value;
      w.(tasks := w.tasks[t := Task(p, force, Looked, seen, 0, seen, 0, [], [], [], None, 0, 0)])
    case ChecksBucket(t) =>
      var task := w.tasks[t];
      if w.bucket == Some(task.drive.data.root) then With(w, t, task.(pc := Live))
      else StartsDrop(w, t, task, StaleAtRequest)
    case AnswersAlive(t, now) => With(w, t, w.tasks[t].(pc := Done(Accepted)))
    case Registers(t, now, clock, token) =>
      var task := w.tasks[t];
      var taken := task.(seenAt := now, drive := task.drive.(data := Taken(task.drive.data, clock, token)),
                         registered := task.registered + 1);
      Sends(w, t, taken, TakeLease).(slots := w.slots + {task.proc})
    case FindsBusy(t) => With(w, t, w.tasks[t].(pc := Done(Busy)))
    case SendsPlainDelete(t) =>
      var task := w.tasks[t];
      var root := task.drive.data.root;
      With(w, t, task.(pc := BucketCall(true), ops := task.ops + [DeleteBucket(root)])).(drops := w.drops + {root})
    case RequestFails(t) => With(w, t, w.tasks[t].(pc := Done(Failed)))
    case PutReturns(t, v) =>
      var task := w.tasks[t];
      With(w, t, Landed(task, task.pc.next, Versioned(v, task.drive.data)))
    case PutFails(t) =>
      var task := w.tasks[t];
      With(w, t, task.(pc := Reading(task.pc.next)))
      .(closed := w.closed + {Put(task.drive.version, task.drive.data)})
    case ReadsBack(t) =>
      var task := w.tasks[t];
      (match ReconcileLease(task.drive, Current(w.log))
       case Some(stored) => With(w, t, Landed(task, task.pc.next, stored))
       case None => With(w, t, task.(pc := Lost(task.pc.next))))
    case ReadBackFails(t) => w
    case Releases(t) =>
      var task := w.tasks[t];
      With(w, t, task.(pc := Done(task.pc.outcome), released := task.released + 1))
      .(slots := w.slots - {task.proc})
    case FetchesBucket(t) =>
      var task := w.tasks[t];
      if w.bucket == Some(task.drive.data.root)
      then With(w, t, task.(pc := Paging, bucketRoot := w.bucket.value))
      else StartsDrop(w, t, task, StaleAtSweep)
    case ListsPage(t, page) =>
      var task := w.tasks[t];
      With(w, t, task.(pc := if page == [] then Finishing else Batching(page),
                       ops := task.ops + [ListObjects(task.bucketRoot)]))
    case Renews(t, clock) =>
      var task := w.tasks[t];
      var next := match task.pc
        case Batching(keys) => BeforeBatch(keys)
        case InBatch(left, rest) => MidBatch(left, rest)
        case _ => BeforeBucket;
      Sends(w, t, task.(drive := task.drive.(data := Renewed(task.drive.data, clock))), next)
    case DeletesObject(t) =>
      var task := w.tasks[t];
      var issued := task.(ops := task.ops + [DeleteObject(task.bucketRoot, task.pc.left[0])]);
      With(w, t, issued.(pc := match task.pc
        case InBatch(left, rest) => InBatch(left[1..], rest)
        case _ => Draining(task.pc.left[1..])))
    case EndsBatch(t) =>
      var task := w.tasks[t];
      With(w, t, task.(pc := match task.pc
        case InBatch(_, rest) => if rest == [] then Paging else Batching(rest)
        case _ => Exiting(LeaseLost)))
    case SendsBucketDelete(t) =>
      var task := w.tasks[t];
      var root := task.drive.data.root;
      With(w, t, task.(pc := BucketCall(false), ops := task.ops + [DeleteBucket(root)])).(drops := w.drops + {root})
    case SweepFails(t) => With(w, t, w.tasks[t].(pc := Exiting(Failed)))
    case BucketDeleted(t) =>
      var task := w.tasks[t];
      StartsDrop(w, t, task, if task.pc.plain then PlainDeleted else SweepDeleted)
    case BucketReplaced(t) =>
      var task := w.tasks[t];
      StartsDrop(w, t, task, if task.pc.plain then PlainReplaced else SweepReplaced)
    case BucketNotFound(t) => StartsDrop(w, t, w.tasks[t], PlainNotFound)
    case RecordRemoved(t) => With(w, t, w.tasks[t].(pc := DropEnds(w.tasks[t].pc.why, Dropped)))
    case RecordChanged(t) =>
      var task := w.tasks[t];
      With(w, t, task.(pc := Rereading(task.pc.tries, task.pc.why)))
    case Rereads(t) =>
      var task := w.tasks[t];
      (match Reread(task.drive.data, task.pc.tries, Current(w.log))
       case Gone => With(w, t, task.(pc := DropEnds(task.pc.why, Dropped)))
       case Exhausted => With(w, t, task.(pc := DropEnds(task.pc.why, DropFailed)))
       case Again(record) => SendsDrop(w, t, task.(drive := record), task.pc.tries - 1, task.pc.why))
  }

  ghost predicate CanRun(w: World, steps: seq<Step>)
    decreases |steps|
  {
    steps == [] || (Can(w, steps[0]) && CanRun(Do(w, steps[0]), steps[1..]))
  }

  ghost function After(w: World, steps: seq<Step>): World
    requires CanRun(w, steps)
    decreases |steps|
  {
    if steps == [] then w else After(Do(w, steps[0]), steps[1..])
  }

  /** Nothing has been written or sent yet; the bucket may or may not exist. */
  ghost predicate Initial(w: World) {
    && w.log == [] && w.puts == {} && w.putAcks == {} && w.closed == {}
    && w.removes == {} && w.removed == {} && w.drops == {} && w.dropped == {} && w.mismatched == {}
    && w.slots == {} && w.tasks == map[]
    && (w.bucket.Some? ==> w.bucket.value in w.roots)
  }

  ghost predicate Reachable(w: World) {
    exists w0: World, steps: seq<Step> :: Initial(w0) && CanRun(w0, steps) && After(w0, steps) == w
  }
}
