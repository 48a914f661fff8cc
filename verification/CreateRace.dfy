/**
 Concurrent `create drive` requests for one name: the record race after the bucket exists.

 As in the delete protocol, a write or removal once sent may reach the store at any later time, and a
 lost race (`PutRetries`, `RemoveRetries`) may be reported at any time, in particular for a write whose
 reply was lost after it was applied.
 */
module CreateRace {
  import opened Options
  import opened DriveStore
  import opened Sets

  const PUT_ATTEMPTS: nat := 3

  /** Where a request goes on once a stale record is out of its way. */
  datatype Then = ThenMint | ThenPut(tries: nat)

  datatype Pc =
    | Begin
    | Fresh                                               // no usable record: make the bucket and the record
    | Putting(tries: nat)
    | Rereading(tries: nat)                               // lost the race, reading the winner
    | Dropping(handle: Versioned, drops: nat, next: Then)
    | DropReread(handle: Versioned, drops: nat, next: Then)
    | Answered(id: nat)                                   // the drive id in the OK answer
    | Failed

  datatype Request = Request(pc: Pc, drive: Drive)

  /** A removal of the record version a request read. */
  datatype Removal = Removal(sender: nat, version: nat)

  datatype World = World(
    log: Log, puts: set<Drive>, acks: set<(Drive, nat)>, removes: set<Removal>, removed: set<Removal>,
    bucket: Option<nat>, roots: set<nat>, tasks: map<nat, Request>)

  datatype Step =
    | BucketGoes
    | BucketComes(root: nat)
    | SendsStale(id: nat, root: nat)
    | AppliesPut(drive: Drive, version: nat)
    | AppliesRemove(removal: Removal)
    | Begins(t: nat)
    | FirstRead(t: nat)
    | Mints(t: nat, id: nat)
    | PutReturns(t: nat, version: nat)
    | PutRetries(t: nat)
    | Rereads(t: nat)
    | RecordRemoved(t: nat)
    | RemoveRetries(t: nat)
    | DropRereads(t: nat)
    | Fails(t: nat)

  const BLANK: Drive := Drive(0, 0, Ready, 0, 0, 0)

  predicate Can(w: World, s: Step) {
    match s
    case BucketGoes => true
    case BucketComes(root) => w.bucket.None? && root !in w.roots
    case SendsStale(_, root) => root in w.roots && w.bucket != Some(root)
    case AppliesPut(d, v) => d in w.puts && CurrentVersion(w.log) == 0 && Unused(w.log, v)
    case AppliesRemove(r) => r in w.removes && r.version != 0 && CurrentVersion(w.log) == r.version
    case Begins(t) => t !in w.tasks
    case FirstRead(t) => t in w.tasks && w.tasks[t].pc.Begin?
    case Mints(t, _) => t in w.tasks && w.tasks[t].pc.Fresh? && w.bucket.Some?
    case PutReturns(t, v) => t in w.tasks && w.tasks[t].pc.Putting? && (w.tasks[t].drive, v) in w.acks
    case PutRetries(t) => t in w.tasks && w.tasks[t].pc.Putting?
    case Rereads(t) => t in w.tasks && w.tasks[t].pc.Rereading?
    case RecordRemoved(t) =>
      t in w.tasks && w.tasks[t].pc.Dropping? && Removal(t, w.tasks[t].pc.handle.version) in w.removed
    case RemoveRetries(t) => t in w.tasks && w.tasks[t].pc.Dropping?
    case DropRereads(t) => t in w.tasks && w.tasks[t].pc.DropReread?
    case Fails(t) => t in w.tasks && !w.tasks[t].pc.Answered?
  }

  function At(w: World, t: nat, pc: Pc): World
    requires t in w.tasks
  {
    w.(tasks := w.tasks[t := w.tasks[t].(pc := pc)])
  }

  function Drops(w: World, t: nat, handle: Versioned, drops: nat, next: Then): World
    requires t in w.tasks
  {
    At(w, t, Dropping(handle, drops, next)).(removes := w.removes + {Removal(t, handle.version)})
  }

  function PutAgain(tries: nat): Pc {
    if tries == 0 then Failed else Putting(tries)
  }

  function Continue(next: Then): Pc {
    match next
    case ThenMint => Fresh
    case ThenPut(tries) => PutAgain(tries)
  }

  function Do(w: World, s: Step): World
    requires Can(w, s)
  {
    match s
    case BucketGoes => w.(bucket := None)
    case BucketComes(root) => w.(bucket := Some(root), roots := w.roots + {root})
    case SendsStale(id, root) => w.(puts := w.puts + {Drive(id, root, Ready, 0, 0, 0)})
    case AppliesPut(d, v) => w.(log := w.log + [Wrote(0, v, d)], acks := w.acks + {(d, v)})
    case AppliesRemove(r) => w.(log := w.log + [Removed(r.version, Other, Some(r.sender))], removed := w.removed + {r})
    case Begins(t) => w.(tasks := w.tasks[t := Request(Begin, BLANK)])
    case FirstRead(t) =>
      (match Current(w.log)
       case None => At(w, t, Fresh)
       case Some(existing) =>
         if w.bucket == Some(existing.data.root) then At(w, t, Answered(existing.data.id))
         else Drops(w, t, existing, DROP_ATTEMPTS, ThenMint))
    case Mints(t, id) =>
      var drive := Drive(id, w.bucket.value, Ready, 0, 0, 0);
      w.(puts := w.puts + {drive}, tasks := w.tasks[t := Request(Putting(PUT_ATTEMPTS), drive)])
    case PutReturns(t, v) => At(w, t, Answered(w.tasks[t].drive.id))
    case PutRetries(t) => At(w, t, Rereading(w.tasks[t].pc.tries))
    case Rereads(t) =>
      var tries := if w.tasks[t].pc.tries == 0 then 0 else w.tasks[t].pc.tries - 1;
      (match Current(w.log)
       case None => At(w, t, PutAgain(tries))
       case Some(existing) =>
         if existing.data.root == w.tasks[t].drive.root then At(w, t, Answered(existing.data.id))
         else Drops(w, t, existing, DROP_ATTEMPTS, ThenPut(tries)))
    case RecordRemoved(t) => At(w, t, Continue(w.tasks[t].pc.next))
    case RemoveRetries(t) =>
      var pc := w.tasks[t].pc;
      At(w, t, DropReread(pc.handle, pc.drops, pc.next))
    case DropRereads(t) =>
      var pc := w.tasks[t].pc;
      (match Reread(pc.handle.data, pc.drops, Current(w.log))
       case Gone => At(w, t, Continue(pc.next))
       case Exhausted => At(w, t, Failed)
       case Again(record) => Drops(w, t, record, pc.drops - 1, pc.next))
    case Fails(t) => At(w, t, Failed)
  }

  ghost predicate CanRun(w: World, steps: seq<Step>)
    decreases |steps|
  {
    steps == [] || (Can(w, steps[0]) && CanRun(Do(w, steps[0]), steps[1..]))
  }

  ghost function After(w: World, steps: seq<Step>): World
    requires CanRun(w, steps)
    decreases |steps|
  {
    if steps == [] then w else After(Do(w, steps[0]), steps[1..])
  }

  predicate Initial(w: World) {
    && w.log == [] && w.puts == {} && w.acks == {} && w.removes == {} && w.removed == {} && w.tasks == map[]
    && (w.bucket.Some? ==> w.bucket.value in w.roots)
  }

  lemma RunOf1(w: World, s: Step)
    requires Can(w, s)
    ensures CanRun(w, [s]) && After(w, [s]) == Do(w, s)
  {
    assert [s][1..] == [];
    assert CanRun(Do(w, s), []) && After(Do(w, s), []) == Do(w, s);
  }

  lemma {:induction false} RunsCompose(w: World, xs: seq<Step>, ys: seq<Step>)
    requires CanRun(w, xs) && CanRun(After(w, xs), ys)
    ensures CanRun(w, xs + ys) && After(w, xs + ys) == After(After(w, xs), ys)
    decreases |xs|
  {
    if xs == [] {
      assert xs + ys == ys;
    } else {
      RunsCompose(Do(w, xs[0]), xs[1..], ys);
      assert (xs + ys)[1..] == xs[1..] + ys;
    }
  }

  lemma RunOf3(w: World, a: Step, b: Step, c: Step)
    requires Can(w, a) && Can(Do(w, a), b) && Can(Do(Do(w, a), b), c)
    ensures CanRun(w, [a, b, c]) && After(w, [a, b, c]) == Do(Do(Do(w, a), b), c)
  {
    var w3 := Do(Do(Do(w, a), b), c);
    assert CanRun(w3, []) && After(w3, []) == w3;
    assert [c][1..] == [];
    assert CanRun(Do(Do(w, a), b), [c]) && After(Do(Do(w, a), b), [c]) == w3;
    assert [b, c][1..] == [c];
    assert CanRun(Do(w, a), [b, c]) && After(Do(w, a), [b, c]) == w3;
    assert [a, b, c][1..] == [b, c];
  }

  // ---------------------------------------------------------------- one undisturbed incarnation

  predicate Undisturbed(steps: seq<Step>) {
    forall s | s in steps :: !s.BucketGoes? && !s.BucketComes?
  }

  /** The record stored under this version is for another incarnation than `root`. */
  ghost predicate ForOther(log: Log, version: nat, root: nat) {
    exists d :: Wrote(0, version, d) in log && d.root != root
  }

  /** A record of the incarnation `root`, once stored, is the current record. */
  ghost predicate RecordsOk(log: Log, root: nat) {
    && WellFormed(log)
    && (forall i | 0 <= i < |log| && log[i].Wrote? :: log[i].expected == 0)
    && (forall i | 0 <= i < |log| && log[i].Wrote? && log[i].data.root == root :: i == |log| - 1)
  }

  ghost predicate RequestOk(w: World, root: nat, r: Request) {
    match r.pc
    case Putting(_) => r.drive.root == root
    case Rereading(_) => r.drive.root == root
    case Dropping(h, _, next) => h.data.root != root && (next.ThenPut? ==> r.drive.root == root)
    case DropReread(h, _, next) => h.data.root != root && (next.ThenPut? ==> r.drive.root == root)
    case Answered(id) => AnswerOk(w.log, root, id)
    case _ => true
  }

  ghost predicate AnswerOk(log: Log, root: nat, id: nat) {
    && Current(log).Some?
    && Current(log).value.data.root == root
    && Current(log).value.data.id == id
  }

  ghost predicate Inv(w: World, root: nat) {
    && w.bucket == Some(root)
    && RecordsOk(w.log, root)
    && (forall r | r in w.removes :: ForOther(w.log, r.version, root))
    && (forall a | a in w.acks :: Wrote(0, a.1, a.0) in w.log)
    && (forall t | t in w.tasks :: RequestOk(w, root, w.tasks[t]))
  }

  lemma NoRecordYet(log: Log, root: nat)
    requires RecordsOk(log, root) && CurrentVersion(log) == 0
    ensures forall i | 0 <= i < |log| && log[i].Wrote? :: log[i].data.root != root
  {
    if log != [] {
      assert Lawful(log, |log| - 1);
    }
  }

  lemma RemovedIsOther(log: Log, root: nat, v: nat)
    requires RecordsOk(log, root) && ForOther(log, v, root) && v != 0 && CurrentVersion(log) == v
    ensures log != [] && log[|log| - 1].Wrote? && log[|log| - 1].version == v
    ensures forall i | 0 <= i < |log| && log[i].Wrote? :: log[i].data.root != root
  {
    var d :| Wrote(0, v, d) in log && d.root != root;
    var i :| 0 <= i < |log| && log[i] == Wrote(0, v, d);
    VersionsAreUnique(log, i, |log| - 1);
  }

  lemma ForOtherGrows(log: Log, c: Change, v: nat, root: nat)
    requires ForOther(log, v, root)
    ensures ForOther(log + [c], v, root)
  {
    var d :| Wrote(0, v, d) in log && d.root != root;
    assert Wrote(0, v, d) in log + [c];
  }

  lemma StoreStepKept(w: World, s: Step, root: nat)
    requires Inv(w, root) && Can(w, s) && (s.AppliesPut? || s.AppliesRemove?)
    ensures Inv(Do(w, s), root)
  {
    var w' := Do(w, s);
    var c := if s.AppliesPut? then Wrote(0, s.version, s.drive)
             else Removed(s.removal.version, Other, Some(s.removal.sender));
    assert w'.log[..|w.log|] == w.log;
    AppendKeepsWellFormed(w.log, c);
    if s.AppliesPut? {
      NoRecordYet(w.log, root);
    } else {
      RemovedIsOther(w.log, root, s.removal.version);
    }
    forall r | r in w'.removes
      ensures ForOther(w'.log, r.version, root)
    {
      ForOtherGrows(w.log, c, r.version, root);
    }
    assert w'.log[|w.log|] == c;
    NoAnswerYet(w, root);
  }

  /** While the current record is not of this incarnation, nobody has been answered. */
  lemma NoAnswerYet(w: World, root: nat)
    requires forall i | 0 <= i < |w.log| && w.log[i].Wrote? :: w.log[i].data.root != root
    requires forall t | t in w.tasks :: RequestOk(w, root, w.tasks[t])
    ensures forall t | t in w.tasks :: !w.tasks[t].pc.Answered?
  {
  }

  lemma CurrentIsFor(log: Log, root: nat)
    requires RecordsOk(log, root) && Current(log).Some? && Current(log).value.data.root != root
    ensures ForOther(log, Current(log).value.version, root)
  {
    var c := log[|log| - 1];
    assert c in log;
    assert Wrote(0, c.version, c.data) in log;
  }

  lemma AckIsAnswer(w: World, root: nat, d: Drive, v: nat)
    requires Inv(w, root) && (d, v) in w.acks && d.root == root
    ensures AnswerOk(w.log, root, d.id)
  {
    var i :| 0 <= i < |w.log| && w.log[i] == Wrote(0, v, d);
  }

  lemma TaskStepKept(w: World, s: Step, root: nat)
    requires Inv(w, root) && Can(w, s)
    requires !s.AppliesPut? && !s.AppliesRemove? && !s.BucketGoes? && !s.BucketComes?
    ensures Inv(Do(w, s), root)
  {
    if Current(w.log).Some? && Current(w.log).value.data.root != root {
      CurrentIsFor(w.log, root);
    }
    if s.PutReturns? {
      AckIsAnswer(w, root, w.tasks[s.t].drive, s.version);
    }
  }

  lemma StepKept(w: World, s: Step, root: nat)
    requires Inv(w, root) && Can(w, s) && !s.BucketGoes? && !s.BucketComes?
    ensures Inv(Do(w, s), root)
  {
    if s.AppliesPut? || s.AppliesRemove? {
      StoreStepKept(w, s, root);
    } else {
      TaskStepKept(w, s, root);
    }
  }

  lemma {:induction false} RunKept(w: World, steps: seq<Step>, root: nat)
    requires Inv(w, root) && CanRun(w, steps) && Undisturbed(steps)
    ensures Inv(After(w, steps), root)
    decreases |steps|
  {
    if steps == [] {
    } else {
      StepKept(w, steps[0], root);
      RunKept(Do(w, steps[0]), steps[1..], root);
    }
  }

  /**
   Record race convergence: however many requests create the same bucket incarnation at once, and
   whatever replies are lost, at most one record for it is ever stored, it is never removed, and every
   OK answer carries its id.
   */
  lemma CreatesConverge(w: World, steps: seq<Step>, root: nat)
    requires Initial(w) && w.bucket == Some(root) && CanRun(w, steps) && Undisturbed(steps)
    ensures var w' := After(w, steps);
            && (forall i, j | 0 <= i < |w'.log| && 0 <= j < |w'.log| && w'.log[i].Wrote? && w'.log[j].Wrote?
                  && w'.log[i].data.root == root == w'.log[j].data.root :: i == j)
            && (forall i | 0 <= i < |w'.log| && w'.log[i].Wrote? && w'.log[i].data.root == root ::
                  Current(w'.log) == Some(Versioned(w'.log[i].version, w'.log[i].data)))
            && (forall t | t in w'.tasks && w'.tasks[t].pc.Answered? ::
                  AnswerOk(w'.log, root, w'.tasks[t].pc.id))
  {
    RunKept(w, steps, root);
    var w' := After(w, steps);
    forall t | t in w'.tasks && w'.tasks[t].pc.Answered?
      ensures AnswerOk(w'.log, root, w'.tasks[t].pc.id)
    {
      assert RequestOk(w', root, w'.tasks[t]);
    }
  }

  // ---------------------------------------------------------------- what a request answers

  /**
   A request's account, kept from the outside: the drive it minted, the races it lost to nobody or to another
   incarnation, how often its present drop found the record it wanted to be rid of again, whether a call of
   it failed, and the id it has to answer with.
   */
  datatype Account = Account(minted: Option<Drive>, losses: nat, met: nat, faulted: bool, answer: Option<nat>)

  const NO_ACCOUNT: Account := Account(None, 0, 0, false, None)

  /** The record is for this bucket incarnation. */
  predicate Names(log: Log, root: nat) {
    Current(log).Some? && Current(log).value.data.root == root
  }

  /** The record is the very drive a drop is after. */
  predicate NamesDrive(log: Log, d: Drive) {
    Names(log, d.root) && Current(log).value.data.id == d.id
  }

  function Book(w: World, s: Step, t: nat, a: Account): Account
    requires Can(w, s)
  {
    match s
    case Begins(u) => if u == t then NO_ACCOUNT else a
    case FirstRead(u) =>
      if u == t && w.bucket.Some? && Names(w.log, w.bucket.value)
      then a.(answer := Some(Current(w.log).value.data.id)) else a
    case Mints(u, id) => if u == t then a.(minted := Some(Drive(id, w.bucket.value, Ready, 0, 0, 0))) else a
    case PutReturns(u, _) => if u == t && a.minted.Some? then a.(answer := Some(a.minted.value.id)) else a
    case Rereads(u) =>
      if u != t || a.minted.None? then a
      else if Names(w.log, a.minted.value.root) then a.(answer := Some(Current(w.log).value.data.id))
      else a.(losses := a.losses + 1, met := 0)
    case DropRereads(u) =>
      if u == t && NamesDrive(w.log, w.tasks[t].pc.handle.data) then a.(met := a.met + 1) else a
    case Fails(u) => if u == t then a.(faulted := true) else a
    case _ => a
  }

  ghost function Books(w: World, steps: seq<Step>, t: nat, a: Account): Account
    requires CanRun(w, steps)
    decreases |steps|
  {
    if steps == [] then a else Books(Do(w, steps[0]), steps[1..], t, Book(w, steps[0], t, a))
  }

  predicate InDrop(pc: Pc) {
    pc.Dropping? || pc.DropReread?
  }

  /** Nothing has gone wrong for good, and nothing is answered yet. */
  predicate Open(a: Account) {
    !a.faulted && a.answer.None? && a.met < DROP_ATTEMPTS
  }

  /** What the code's counters say is what the account says. */
  predicate Agrees(r: Request, a: Account) {
    match r.pc
    case Begin => a == NO_ACCOUNT
    case Fresh => Open(a) && a.minted.None? && a.losses == 0
    case Putting(tries) => Open(a) && a.minted == Some(r.drive) && tries == PUT_ATTEMPTS - a.losses > 0
    case Rereading(tries) => Open(a) && a.minted == Some(r.drive) && tries == PUT_ATTEMPTS - a.losses > 0
    case Dropping(_, drops, next) => Open(a) && drops == DROP_ATTEMPTS - a.met && AgreesNext(r, next, a)
    case DropReread(_, drops, next) => Open(a) && drops == DROP_ATTEMPTS - a.met && AgreesNext(r, next, a)
    case Answered(id) => !a.faulted && a.answer == Some(id) && a.met < DROP_ATTEMPTS && a.losses < PUT_ATTEMPTS
    case Failed => a.answer.None? && (a.faulted || a.met == DROP_ATTEMPTS || a.losses == PUT_ATTEMPTS)
  }

  predicate AgreesNext(r: Request, next: Then, a: Account) {
    match next
    case ThenMint => a.minted.None? && a.losses == 0
    case ThenPut(tries) => a.minted == Some(r.drive) && tries == PUT_ATTEMPTS - a.losses
  }

  predicate AgreesAt(w: World, t: nat, a: Account) {
    if t in w.tasks then Agrees(w.tasks[t], a) else a == NO_ACCOUNT
  }

  /** The request that takes the step. */
  function Actor(s: Step): Option<nat> {
    match s
    case Begins(t) => Some(t)
    case FirstRead(t) => Some(t)
    case Mints(t, _) => Some(t)
    case PutReturns(t, _) => Some(t)
    case PutRetries(t) => Some(t)
    case Rereads(t) => Some(t)
    case RecordRemoved(t) => Some(t)
    case RemoveRetries(t) => Some(t)
    case DropRereads(t) => Some(t)
    case Fails(t) => Some(t)
    case _ => None
  }

  lemma OthersKeepBooks(w: World, s: Step, t: nat, a: Account)
    requires Can(w, s) && Actor(s) != Some(t)
    ensures Book(w, s, t, a) == a
    ensures t in Do(w, s).tasks <==> t in w.tasks
    ensures t in w.tasks ==> Do(w, s).tasks[t] == w.tasks[t]
  {
  }

  lemma OwnRaceAgrees(w: World, s: Step, t: nat, a: Account)
    requires Can(w, s) && AgreesAt(w, t, a) && Actor(s) == Some(t) && !s.DropRereads? && !s.RecordRemoved?
    ensures AgreesAt(Do(w, s), t, Book(w, s, t, a))
  {
  }

  lemma OwnDropAgrees(w: World, s: Step, t: nat, a: Account)
    requires Can(w, s) && AgreesAt(w, t, a) && Actor(s) == Some(t) && (s.DropRereads? || s.RecordRemoved?)
    ensures AgreesAt(Do(w, s), t, Book(w, s, t, a))
  {
  }

  lemma BookAgrees(w: World, s: Step, t: nat, a: Account)
    requires Can(w, s) && AgreesAt(w, t, a)
    ensures AgreesAt(Do(w, s), t, Book(w, s, t, a))
  {
    if Actor(s) != Some(t) {
      OthersKeepBooks(w, s, t, a);
    } else if s.DropRereads? || s.RecordRemoved? {
      OwnDropAgrees(w, s, t, a);
    } else {
      OwnRaceAgrees(w, s, t, a);
    }
  }

  lemma {:induction false} BooksAgree(w: World, steps: seq<Step>, t: nat, a: Account)
    requires CanRun(w, steps) && AgreesAt(w, t, a)
    ensures AgreesAt(After(w, steps), t, Books(w, steps, t, a))
    decreases |steps|
  {
    if steps == [] {
    } else {
      BookAgrees(w, steps[0], t, a);
      BooksAgree(Do(w, steps[0]), steps[1..], t, Book(w, steps[0], t, a));
    }
  }

  /**
   Over every run, a create fails exactly if a call of it failed, or its drop met the drive it was after three
   times, or it lost the race three times and is not dropping the last winner any more.  It answers OK exactly
   if it found a record of the live bucket, had its put acknowledged, or lost the race to a record of its own
   incarnation, with the id of that record.
   */
  lemma CreateOutcomeIff(w: World, steps: seq<Step>, t: nat)
    requires Initial(w) && CanRun(w, steps) && t in After(w, steps).tasks
    ensures var pc := After(w, steps).tasks[t].pc;
            var a := Books(w, steps, t, NO_ACCOUNT);
            && (pc.Failed? <==>
                a.faulted || a.met == DROP_ATTEMPTS || (a.losses == PUT_ATTEMPTS && !InDrop(pc)))
            && (pc.Answered? <==> a.answer.Some?)
            && (pc.Answered? ==> a.answer == Some(pc.id))
  {
    BooksAgree(w, steps, t, NO_ACCOUNT);
  }

  /** A create whose put was acknowledged answers with the id of the current record, which is the one it made. */
  lemma AcknowledgedIsAnswered(w: World, steps: seq<Step>, root: nat, t: nat, v: nat)
    requires Initial(w) && w.bucket == Some(root) && CanRun(w, steps) && Undisturbed(steps)
    requires Can(After(w, steps), PutReturns(t, v))
    ensures var w' := Do(After(w, steps), PutReturns(t, v));
            && Current(w'.log).Some? && Current(w'.log).value == Versioned(v, w'.tasks[t].drive)
            && w'.tasks[t].pc == Answered(Current(w'.log).value.data.id)
  {
    RunKept(w, steps, root);
    var w' := After(w, steps);
    assert RequestOk(w', root, w'.tasks[t]);
    AckIsAnswer(w', root, w'.tasks[t].drive, v);
    var i :| 0 <= i < |w'.log| && w'.log[i] == Wrote(0, v, w'.tasks[t].drive);
  }

  lemma UndisturbedMint(w: World, t: nat, d: Drive) returns (steps: seq<Step>, w': World)
    requires t !in w.tasks && w.bucket == Some(d.root) && Current(w.log).None?
    requires d == Drive(d.id, d.root, Ready, 0, 0, 0)
    ensures CanRun(w, steps) && After(w, steps) == w' && w'.log == w.log && d in w'.puts
    ensures t in w'.tasks && w'.tasks[t] == Request(Putting(PUT_ATTEMPTS), d)
  {
    steps := [Begins(t), FirstRead(t), Mints(t, d.id)];
    var w1 := Do(w, Begins(t));
    var w2 := Do(w1, FirstRead(t));
    w' := Do(w2, Mints(t, d.id));
    RunOf3(w, Begins(t), FirstRead(t), Mints(t, d.id));
  }

  lemma UndisturbedPut(w: World, t: nat, d: Drive) returns (steps: seq<Step>, w': World)
    requires t in w.tasks && w.tasks[t] == Request(Putting(PUT_ATTEMPTS), d) && d in w.puts && Current(w.log).None?
    ensures CanRun(w, steps) && After(w, steps) == w' && t in w'.tasks && w'.tasks[t].pc == Answered(d.id)
    ensures Current(w'.log).Some? && Current(w'.log).value.data == d
  {
    var v := UnusedExists(w.log);
    var w1 := Do(w, AppliesPut(d, v));
    w' := Do(w1, PutReturns(t, v));
    RunOf1(w, AppliesPut(d, v));
    RunOf1(w1, PutReturns(t, v));
    RunsCompose(w, [AppliesPut(d, v)], [PutReturns(t, v)]);
    steps := [AppliesPut(d, v)] + [PutReturns(t, v)];
  }

  /** A create that nobody disturbs stores its record and answers with its id. */
  lemma UndisturbedCreate(w: World, t: nat, id: nat) returns (w': World)
    requires t !in w.tasks && w.bucket.Some? && Current(w.log).None?
    ensures exists steps :: CanRun(w, steps) && After(w, steps) == w'
    ensures t in w'.tasks && w'.tasks[t].pc == Answered(id)
    ensures Names(w'.log, w.bucket.value) && Current(w'.log).value.data.id == id
  {
    var d := Drive(id, w.bucket.value, Ready, 0, 0, 0);
    var first, w1 := UndisturbedMint(w, t, d);
    var second: seq<Step>;
    second, w' := UndisturbedPut(w1, t, d);
    RunsCompose(w, first, second);
  }

  // ---------------------------------------------------------------- every request ends

  /** No request is ever stuck: until it has answered or failed it can go on, once there is a bucket. */
  lemma CreateCanGoOn(w: World, t: nat) returns (s: Step)
    requires t in w.tasks && !w.tasks[t].pc.Answered? && !w.tasks[t].pc.Failed? && w.bucket.Some?
    ensures Can(w, s) && Actor(s) == Some(t) && !s.Fails?
  {
    match w.tasks[t].pc
    case Begin => s := FirstRead(t);
    case Fresh => s := Mints(t, 0);
    case Putting(_) => s := PutRetries(t);
    case Rereading(_) => s := Rereads(t);
    case Dropping(_, _, _) => s := RemoveRetries(t);
    case DropReread(_, _, _) => s := DropRereads(t);
  }

  /** An upper bound on the steps a request still takes. */
  function Rank(pc: Pc): nat {
    match pc
    case Begin => MOST_STEPS
    case Fresh => 10 * PUT_ATTEMPTS + 12
    case Putting(tries) => 10 * tries + 11
    case Rereading(tries) => 10 * tries + 10
    case Dropping(_, drops, next) => RankOfNext(next) + 2 * drops + 2
    case DropReread(_, drops, next) => RankOfNext(next) + 2 * drops + 1
    case _ => 0
  }

  function RankOfNext(next: Then): nat {
    match next
    case ThenMint => 10 * PUT_ATTEMPTS + 12
    case ThenPut(tries) => if tries == 0 then 0 else 10 * tries + 11
  }

  const MOST_STEPS: nat := 10 * PUT_ATTEMPTS + 2 * DROP_ATTEMPTS + 15

  lemma RankFalls(w: World, s: Step, t: nat)
    requires Can(w, s) && t in w.tasks && Actor(s) == Some(t)
    ensures t in Do(w, s).tasks
    ensures Rank(Do(w, s).tasks[t].pc) < Rank(w.tasks[t].pc) || (w.tasks[t].pc.Failed? && Do(w, s) == w)
  {
    if w.tasks[t].pc.Failed? {
      assert w.tasks[t := w.tasks[t]] == w.tasks;
    }
  }

  /** How many steps of the run are the request's, not counting reports of failure after it has failed. */
  ghost function StepsOf(w: World, steps: seq<Step>, t: nat): nat
    requires CanRun(w, steps)
    decreases |steps|
  {
    if steps == [] then 0
    else
      (if Actor(steps[0]) == Some(t) && Do(w, steps[0]) != w then 1 else 0) + StepsOf(Do(w, steps[0]), steps[1..], t)
  }

  lemma {:induction false} StepsAreBounded(w: World, steps: seq<Step>, t: nat)
    requires CanRun(w, steps) && t in w.tasks
    ensures t in After(w, steps).tasks
    ensures StepsOf(w, steps, t) + Rank(After(w, steps).tasks[t].pc) <= Rank(w.tasks[t].pc)
    decreases |steps|
  {
    if steps == [] {
    } else {
      if Actor(steps[0]) == Some(t) {
        RankFalls(w, steps[0], t);
      } else {
        OthersKeepBooks(w, steps[0], t, NO_ACCOUNT);
      }
      StepsAreBounded(Do(w, steps[0]), steps[1..], t);
    }
  }

  /** Whatever the others do, a request is over after that many steps of its own. */
  lemma CreateEnds(w: World, steps: seq<Step>, t: nat)
    requires CanRun(w, steps) && t in w.tasks && w.tasks[t].pc.Begin?
    ensures t in After(w, steps).tasks && StepsOf(w, steps, t) <= MOST_STEPS
    ensures StepsOf(w, steps, t) == MOST_STEPS ==>
              After(w, steps).tasks[t].pc.Answered? || After(w, steps).tasks[t].pc.Failed?
  {
    StepsAreBounded(w, steps, t);
  }

  // ---------------------------------------------------------------- a bucket replaced meanwhile

  /** Every incarnation a record names has existed. */
  ghost predicate RootsOk(w: World) {
    && (w.bucket.Some? ==> w.bucket.value in w.roots)
    && (forall d | d in w.puts :: d.root in w.roots)
    && (forall c | c in w.log && c.Wrote? :: c.data.root in w.roots)
    && WellFormed(w.log)
  }

  lemma LogKept(w: World, s: Step)
    requires WellFormed(w.log) && Can(w, s)
    ensures WellFormed(Do(w, s).log)
  {
    var w' := Do(w, s);
    if s.AppliesPut? {
      assert w'.log[..|w.log|] == w.log;
      AppendKeepsWellFormed(w.log, Wrote(0, s.version, s.drive));
    } else if s.AppliesRemove? {
      assert w'.log[..|w.log|] == w.log;
      AppendKeepsWellFormed(w.log, Removed(s.removal.version, Other, Some(s.removal.sender)));
    }
  }

  lemma RootsKept(w: World, s: Step)
    requires RootsOk(w) && Can(w, s)
    ensures RootsOk(Do(w, s)) && w.roots <= Do(w, s).roots
    ensures forall r | r in w.roots && w.bucket != Some(r) :: Do(w, s).bucket != Some(r)
  {
    LogKept(w, s);
  }

  lemma {:induction false} GoneRootsStayGone(w: World, steps: seq<Step>)
    requires RootsOk(w) && CanRun(w, steps)
    ensures RootsOk(After(w, steps))
    ensures forall r | r in w.roots && w.bucket != Some(r) :: After(w, steps).bucket != Some(r)
    decreases |steps|
  {
    if steps == [] {
    } else {
      RootsKept(w, steps[0]);
      GoneRootsStayGone(Do(w, steps[0]), steps[1..]);
    }
  }

  /** The last change removed, for this request, the record of the bucket that is live. */
  predicate RemovedLive(w: World, t: nat) {
    var n := |w.log|;
    && n >= 2 && w.log[n - 1].Removed? && w.log[n - 1].sender == Some(t)
    && w.log[n - 2].Wrote? && w.bucket == Some(w.log[n - 2].data.root)
  }

  /** If these steps can happen, they do not end with such a removal. */
  ghost predicate SparesLive(w: World, steps: seq<Step>, t: nat) {
    CanRun(w, steps) ==> !RemovedLive(After(w, steps), t)
  }

  /** Or not with one of a record of this incarnation. */
  ghost predicate SparesRoot(w: World, steps: seq<Step>, t: nat, root: nat) {
    CanRun(w, steps) ==> !(RemovedLive(After(w, steps), t) && After(w, steps).bucket == Some(root))
  }

  lemma RemovesWinner(w: World, t: nat) returns (s: Step)
    requires WellFormed(w.log) && Current(w.log).Some?
    requires Removal(t, Current(w.log).value.version) in w.removes
    requires w.bucket == Some(Current(w.log).value.data.root)
    ensures Can(w, s) && RemovedLive(Do(w, s), t) && Do(w, s).bucket == w.bucket
  {
    assert Lawful(w.log, |w.log| - 1);
    s := AppliesRemove(Removal(t, Current(w.log).value.version));
  }

  /**
   A request that lost the race sets out to remove the winner when the winner names another bucket root
   than the one the request fetched earlier.  It spares that record while its bucket is live, over every
   continuation, exactly if the winner's incarnation is not live at that moment; in particular if the
   bucket the request fetched is still the live one.
   */
  lemma RaceDropIsSafeIffGone(w0: World, past: seq<Step>, t: nat)
    requires Initial(w0) && CanRun(w0, past)
    requires var w := After(w0, past);
             && Can(w, Rereads(t)) && Current(w.log).Some?
             && Current(w.log).value.data.root != w.tasks[t].drive.root
    ensures var w := After(w0, past);
            var root := Current(w.log).value.data.root;
            && ((forall steps :: SparesRoot(Do(w, Rereads(t)), steps, t, root)) <==> w.bucket != Some(root))
            && (w.bucket == Some(w.tasks[t].drive.root) ==> w.bucket != Some(root))
  {
    GoneRootsStayGone(w0, past);
    var w := After(w0, past);
    var w', root := Do(w, Rereads(t)), Current(w.log).value.data.root;
    assert w.log[|w.log| - 1] in w.log;
    RootsKept(w, Rereads(t));
    if w.bucket != Some(root) {
      forall steps
        ensures SparesRoot(w', steps, t, root)
      {
        if CanRun(w', steps) {
          GoneRootsStayGone(w', steps);
        }
      }
    } else {
      var s := RemovesWinner(w', t);
      RunOf1(w', s);
      assert !SparesRoot(w', [s], t, root);
    }
  }

  // ---------------------------------------------------------------- all races of one request

  /** The record stored under this version is not the current one any more, and never will be. */
  ghost predicate Past(log: Log, version: nat) {
    exists i :: 0 <= i < |log| - 1 && log[i].Wrote? && log[i].version == version
  }


  /** A removal once sent is spent, or belongs to the drop under way, unless its sender has failed. */
  ghost predicate MessageOk(w: World, r: Removal) {
    && r.sender in w.tasks
    && var pc := w.tasks[r.sender].pc;
       Past(w.log, r.version) || pc.Failed? || (InDrop(pc) && r.version == pc.handle.version)
  }

  ghost predicate HandleOk(w: World, r: Request) {
    && (InDrop(r.pc) ==> Wrote(0, r.pc.handle.version, r.pc.handle.data) in w.log)
    && (r.pc.Putting? || r.pc.Rereading? || (InDrop(r.pc) && r.pc.next.ThenPut?) ==> r.drive.root in w.roots)
  }

  ghost predicate Sound(w: World) {
    && RootsOk(w)
    && (forall c | c in w.log && c.Wrote? :: c.expected == 0)
    && (forall r | r in w.removes :: MessageOk(w, r))
    && (forall r | r in w.removed :: Removed(r.version, Other, Some(r.sender)) in w.log)
    && (forall t | t in w.tasks :: HandleOk(w, w.tasks[t]))
  }

  lemma PastAppended(log: Log, c: Change, v: nat)
    requires Past(log, v)
    ensures Past(log + [c], v)
  {
    var i :| 0 <= i < |log| - 1 && log[i].Wrote? && log[i].version == v;
    assert (log + [c])[i] == log[i];
  }

  /** What was removed was the record just before. */
  lemma RemovedIsPast(log: Log, v: nat, sender: nat)
    requires WellFormed(log) && Removed(v, Other, Some(sender)) in log
    ensures Past(log, v)
  {
    var i :| 0 <= i < |log| && log[i] == Removed(v, Other, Some(sender));
    assert Lawful(log, i);
    assert log[..i] != [];
  }

  /** A stored record that is not the current one is past. */
  lemma NotCurrentIsPast(log: Log, r: Versioned)
    requires Wrote(0, r.version, r.data) in log && Current(log) != Some(r)
    ensures Past(log, r.version)
  {
    var i :| 0 <= i < |log| && log[i] == Wrote(0, r.version, r.data);
  }

  lemma CurrentIsLogged(w: World)
    requires Sound(w) && Current(w.log).Some?
    ensures Wrote(0, Current(w.log).value.version, Current(w.log).value.data) in w.log
    ensures Current(w.log).value.data.root in w.roots
  {
    var c := w.log[|w.log| - 1];
    assert c in w.log;
  }

  lemma StoreStepSound(w: World, s: Step)
    requires Sound(w) && Can(w, s) && (s.AppliesPut? || s.AppliesRemove?)
    ensures Sound(Do(w, s))
  {
    var w' := Do(w, s);
    var c := if s.AppliesPut? then Wrote(0, s.version, s.drive)
             else Removed(s.removal.version, Other, Some(s.removal.sender));
    RootsKept(w, s);
    assert w'.log == w.log + [c] && w'.log[|w.log|] == c;
    forall r | r in w'.removes
      ensures MessageOk(w', r)
    {
      assert MessageOk(w, r);
      if Past(w.log, r.version) {
        PastAppended(w.log, c, r.version);
      }
    }
    forall t | t in w'.tasks
      ensures HandleOk(w', w'.tasks[t])
    {
      assert HandleOk(w, w.tasks[t]);
    }
  }

  /** One request moves on, and sends at most a removal of its new handle. */
  ghost predicate Moves(w: World, w': World, t: nat) {
    && w'.log == w.log && w'.removed == w.removed && w.roots <= w'.roots && t in w'.tasks
    && (forall u | u != t :: u in w'.tasks <==> u in w.tasks)
    && (forall u | u in w.tasks && u != t :: w'.tasks[u] == w.tasks[u])
    && (w'.removes == w.removes
        || (InDrop(w'.tasks[t].pc) && w'.removes == w.removes + {Removal(t, w'.tasks[t].pc.handle.version)}))
  }

  /** The earlier removals of a request that moves on are spent, or its handle stays the same. */
  ghost predicate Spends(w: World, w': World, t: nat)
    requires t in w'.tasks
  {
    forall r | r in w.removes && r.sender == t ::
      || Past(w.log, r.version) || w'.tasks[t].pc.Failed?
      || (InDrop(w'.tasks[t].pc) && r.version == w'.tasks[t].pc.handle.version)
  }

  lemma MoveIsSound(w: World, w': World, t: nat)
    requires Sound(w) && RootsOk(w') && Moves(w, w', t) && Spends(w, w', t) && HandleOk(w', w'.tasks[t])
    ensures Sound(w')
  {
    forall r | r in w'.removes
      ensures MessageOk(w', r)
    {
      if r in w.removes {
        assert MessageOk(w, r);
      }
    }
    forall u | u in w'.tasks
      ensures HandleOk(w', w'.tasks[u])
    {
      if u != t {
        assert HandleOk(w, w.tasks[u]);
      }
    }
  }

  lemma OwnMessages(w: World, t: nat, r: Removal)
    requires Sound(w) && t in w.tasks && r in w.removes && r.sender == t
    ensures Past(w.log, r.version) || w.tasks[t].pc.Failed?
            || (InDrop(w.tasks[t].pc) && r.version == w.tasks[t].pc.handle.version)
  {
    assert MessageOk(w, r);
  }

  /** Outside a drop, every removal a request sent is spent. */
  lemma PlainStepSpends(w: World, s: Step, t: nat)
    requires Sound(w) && Can(w, s) && t in w.tasks && !InDrop(w.tasks[t].pc) && t in Do(w, s).tasks
    requires w.tasks[t].pc.Failed? ==> Do(w, s).tasks[t].pc.Failed?
    ensures Spends(w, Do(w, s), t)
  {
    forall r | r in w.removes && r.sender == t
      ensures Past(w.log, r.version) || w.tasks[t].pc.Failed?
    {
      OwnMessages(w, t, r);
    }
  }

  lemma RecordRemovedSpends(w: World, t: nat)
    requires Sound(w) && Can(w, RecordRemoved(t))
    ensures Spends(w, Do(w, RecordRemoved(t)), t)
  {
    RemovedIsPast(w.log, w.tasks[t].pc.handle.version, t);
    forall r | r in w.removes && r.sender == t
      ensures Past(w.log, r.version)
    {
      OwnMessages(w, t, r);
    }
  }

  lemma DropRereadsSpends(w: World, t: nat)
    requires Sound(w) && Can(w, DropRereads(t))
    ensures Spends(w, Do(w, DropRereads(t)), t)
  {
    var pc := w.tasks[t].pc;
    assert HandleOk(w, w.tasks[t]);
    if Current(w.log) != Some(pc.handle) {
      NotCurrentIsPast(w.log, pc.handle);
    }
    forall r | r in w.removes && r.sender == t
      ensures Past(w.log, r.version) || r.version == pc.handle.version
    {
      OwnMessages(w, t, r);
    }
  }

  lemma OtherDropStepSpends(w: World, s: Step)
    requires Sound(w) && Can(w, s) && (s.RemoveRetries? || s.Fails?)
    ensures Spends(w, Do(w, s), s.t)
  {
    forall r | r in w.removes && r.sender == s.t
      ensures Past(w.log, r.version) || w.tasks[s.t].pc.Failed?
              || (InDrop(w.tasks[s.t].pc) && r.version == w.tasks[s.t].pc.handle.version)
    {
      OwnMessages(w, s.t, r);
    }
  }

  predicate OfRequest(s: Step) {
    !s.BucketGoes? && !s.BucketComes? && !s.SendsStale? && !s.AppliesPut? && !s.AppliesRemove?
  }

  lemma RequestMoves(w: World, s: Step)
    requires Can(w, s) && OfRequest(s)
    ensures Moves(w, Do(w, s), s.t)
  {
  }

  lemma RequestKeepsHandle(w: World, s: Step)
    requires Sound(w) && Can(w, s) && OfRequest(s)
    ensures s.t in Do(w, s).tasks && HandleOk(Do(w, s), Do(w, s).tasks[s.t])
  {
    if Current(w.log).Some? {
      CurrentIsLogged(w);
    }
    assert s.t in w.tasks ==> HandleOk(w, w.tasks[s.t]);
  }

  lemma RequestSpends(w: World, s: Step)
    requires Sound(w) && Can(w, s) && OfRequest(s)
    ensures s.t in Do(w, s).tasks && Spends(w, Do(w, s), s.t)
  {
    if s.t !in w.tasks {
      assert forall r | r in w.removes :: MessageOk(w, r);
    } else if s.RecordRemoved? {
      RecordRemovedSpends(w, s.t);
    } else if s.DropRereads? {
      DropRereadsSpends(w, s.t);
    } else if s.RemoveRetries? || s.Fails? {
      OtherDropStepSpends(w, s);
    } else {
      PlainStepSpends(w, s, s.t);
    }
  }

  lemma StepIsSound(w: World, s: Step)
    requires Sound(w) && Can(w, s)
    ensures Sound(Do(w, s))
  {
    RootsKept(w, s);
    if s.AppliesPut? || s.AppliesRemove? {
      StoreStepSound(w, s);
    } else if OfRequest(s) {
      RequestMoves(w, s);
      RequestKeepsHandle(w, s);
      RequestSpends(w, s);
      MoveIsSound(w, Do(w, s), s.t);
    } else {
      BucketStepSound(w, s);
    }
  }

  lemma BucketStepSound(w: World, s: Step)
    requires Sound(w) && Can(w, s) && (s.BucketGoes? || s.BucketComes? || s.SendsStale?)
    ensures Sound(Do(w, s))
  {
    var w' := Do(w, s);
    RootsKept(w, s);
    forall r | r in w'.removes
      ensures MessageOk(w', r)
    {
      assert MessageOk(w, r);
    }
    forall t | t in w'.tasks
      ensures HandleOk(w', w'.tasks[t])
    {
      assert HandleOk(w, w.tasks[t]);
    }
  }

  lemma {:induction false} RunIsSound(w: World, steps: seq<Step>)
    requires Sound(w) && CanRun(w, steps)
    ensures Sound(After(w, steps))
    decreases |steps|
  {
    if steps == [] {
    } else {
      StepIsSound(w, steps[0]);
      RunIsSound(Do(w, steps[0]), steps[1..]);
    }
  }

  // The request's last attempt: it drops the winner of a dead incarnation and then gives up.

  ghost predicate StoredFor(log: Log, version: nat, root: nat) {
    exists d :: Wrote(0, version, d) in log && d.root == root
  }

  /** Since change `from`, this request removed records of `root` only. */
  ghost predicate RemovedOnly(log: Log, t: nat, root: nat, from: nat) {
    forall i | from <= i < |log| && log[i].Removed? && log[i].sender == Some(t) ::
      i > 0 && log[i - 1].Wrote? && log[i - 1].data.root == root
  }

  ghost predicate Spent(w: World, t: nat, root: nat, from: nat) {
    && root in w.roots && w.bucket != Some(root) && t in w.tasks && from <= |w.log|
    && var pc := w.tasks[t].pc;
    && (pc.Failed? || (InDrop(pc) && pc.handle.data.root == root && pc.next == ThenPut(0)))
    && (forall r | r in w.removes && r.sender == t :: Past(w.log, r.version) || StoredFor(w.log, r.version, root))
    && RemovedOnly(w.log, t, root, from)
  }

  lemma StoredForAppended(log: Log, c: Change, v: nat, root: nat)
    requires StoredFor(log, v, root)
    ensures StoredFor(log + [c], v, root)
  {
    var d :| Wrote(0, v, d) in log && d.root == root;
    assert Wrote(0, v, d) in log + [c];
  }

  /** A removal that the store accepts is not spent, so it takes a record of `root`. */
  lemma SpentRemoves(w: World, t: nat, root: nat, from: nat, r: Removal)
    requires WellFormed(w.log) && Spent(w, t, root, from) && Can(w, AppliesRemove(r)) && r.sender == t
    ensures w.log != [] && w.log[|w.log| - 1].Wrote? && w.log[|w.log| - 1].data.root == root
  {
    var n := |w.log| - 1;
    if Past(w.log, r.version) {
      var i :| 0 <= i < n && w.log[i].Wrote? && w.log[i].version == r.version;
      VersionsAreUnique(w.log, i, n);
    } else {
      var d :| Wrote(0, r.version, d) in w.log && d.root == root;
      var i :| 0 <= i < |w.log| && w.log[i] == Wrote(0, r.version, d);
      VersionsAreUnique(w.log, i, n);
    }
  }

  lemma SpentStaysByStores(w: World, s: Step, t: nat, root: nat, from: nat)
    requires Sound(w) && Spent(w, t, root, from) && Can(w, s) && (s.AppliesPut? || s.AppliesRemove?)
    ensures Spent(Do(w, s), t, root, from)
  {
    var w' := Do(w, s);
    var c := if s.AppliesPut? then Wrote(0, s.version, s.drive)
             else Removed(s.removal.version, Other, Some(s.removal.sender));
    assert w'.log == w.log + [c];
    forall r | r in w'.removes && r.sender == t
      ensures Past(w'.log, r.version) || StoredFor(w'.log, r.version, root)
    {
      if Past(w.log, r.version) {
        PastAppended(w.log, c, r.version);
      } else {
        StoredForAppended(w.log, c, r.version, root);
      }
    }
    if s.AppliesRemove? && s.removal.sender == t {
      SpentRemoves(w, t, root, from, s.removal);
    }
  }

  lemma SpentStaysByRequest(w: World, s: Step, t: nat, root: nat, from: nat)
    requires Sound(w) && Spent(w, t, root, from) && Can(w, s) && OfRequest(s)
    ensures Spent(Do(w, s), t, root, from)
  {
    RequestMoves(w, s);
    if s.t == t && s.DropRereads? && Current(w.log).Some? {
      CurrentIsLogged(w);
    }
  }

  lemma SpentStays(w: World, s: Step, t: nat, root: nat, from: nat)
    requires Sound(w) && Spent(w, t, root, from) && Can(w, s)
    ensures Spent(Do(w, s), t, root, from)
  {
    if s.AppliesPut? || s.AppliesRemove? {
      SpentStaysByStores(w, s, t, root, from);
    } else if OfRequest(s) {
      SpentStaysByRequest(w, s, t, root, from);
    }
  }

  lemma {:induction false} SpentRun(w: World, steps: seq<Step>, t: nat, root: nat, from: nat)
    requires Sound(w) && Spent(w, t, root, from) && CanRun(w, steps)
    ensures Spent(After(w, steps), t, root, from)
    decreases |steps|
  {
    if steps == [] {
    } else {
      StepIsSound(w, steps[0]);
      SpentStays(w, steps[0], t, root, from);
      SpentRun(Do(w, steps[0]), steps[1..], t, root, from);
    }
  }

  /** The last attempt on a dead incarnation spares every live record. */
  lemma LastAttemptSpares(w: World, steps: seq<Step>, t: nat)
    requires Sound(w) && Can(w, Rereads(t)) && w.tasks[t].pc.tries <= 1 && Current(w.log).Some?
    requires Current(w.log).value.data.root != w.tasks[t].drive.root
    requires w.bucket != Some(Current(w.log).value.data.root)
    ensures SparesLive(Do(w, Rereads(t)), steps, t)
  {
    var w', root, from := Do(w, Rereads(t)), Current(w.log).value.data.root, |w.log|;
    StepIsSound(w, Rereads(t));
    CurrentIsLogged(w);
    forall r | r in w'.removes && r.sender == t
      ensures Past(w'.log, r.version) || StoredFor(w'.log, r.version, root)
    {
      if r in w.removes {
        OwnMessages(w, t, r);
      }
    }
    assert Spent(w', t, root, from);
    if CanRun(w', steps) {
      SpentRun(w', steps, t, root, from);
      NewRemovalIsOf(w', After(w', steps), t, root);
      LogGrows(w', steps);
    }
  }

  lemma {:induction false} LogGrows(w: World, steps: seq<Step>)
    requires CanRun(w, steps)
    ensures w.log <= After(w, steps).log
    decreases |steps|
  {
    if steps == [] {
    } else {
      LogGrows(Do(w, steps[0]), steps[1..]);
    }
  }

  lemma NewRemovalIsOf(w: World, w': World, t: nat, root: nat)
    requires Current(w.log).Some? && Spent(w', t, root, |w.log|)
    ensures w.log <= w'.log ==> !RemovedLive(w', t)
  {
  }

  // With attempts left, the bucket can be replaced and the next winner be the live record.

  /** The request is about to put its record, with attempts left. */
  predicate PutsAgain(w: World, t: nat, tries: nat) {
    t in w.tasks && w.tasks[t].pc == Putting(tries) && w.tasks[t].drive.root in w.roots
  }

  lemma DropSucceeds(w: World, t: nat, tries: nat) returns (steps: seq<Step>)
    requires WellFormed(w.log) && Current(w.log).Some? && t in w.tasks && tries > 0
    requires w.tasks[t].pc == Dropping(Current(w.log).value, DROP_ATTEMPTS, ThenPut(tries))
    requires Removal(t, Current(w.log).value.version) in w.removes && w.tasks[t].drive.root in w.roots
    ensures CanRun(w, steps) && PutsAgain(After(w, steps), t, tries) && Current(After(w, steps).log).None?
  {
    assert Lawful(w.log, |w.log| - 1);
    var r := Removal(t, Current(w.log).value.version);
    var w1 := Do(w, AppliesRemove(r));
    RunOf1(w, AppliesRemove(r));
    RunOf1(w1, RecordRemoved(t));
    RunsCompose(w, [AppliesRemove(r)], [RecordRemoved(t)]);
    steps := [AppliesRemove(r)] + [RecordRemoved(t)];
  }

  lemma BucketIsReplaced(w: World, t: nat, tries: nat) returns (steps: seq<Step>, root: nat)
    requires PutsAgain(w, t, tries)
    ensures CanRun(w, steps) && PutsAgain(After(w, steps), t, tries) && After(w, steps).log == w.log
    ensures After(w, steps).bucket == Some(root) && root != w.tasks[t].drive.root
    ensures After(w, steps).tasks == w.tasks
  {
    root := FreshNat(w.roots);
    var w1 := Do(w, BucketGoes);
    RunOf1(w, BucketGoes);
    RunOf1(w1, BucketComes(root));
    RunsCompose(w, [BucketGoes], [BucketComes(root)]);
    steps := [BucketGoes] + [BucketComes(root)];
  }

  /** Another request creates the drive on the new bucket. */
  lemma AnotherCreates(w: World, t: nat, tries: nat) returns (steps: seq<Step>, d: Drive)
    requires PutsAgain(w, t, tries) && Current(w.log).None? && w.bucket.Some?
    ensures CanRun(w, steps) && PutsAgain(After(w, steps), t, tries) && After(w, steps).log == w.log
    ensures After(w, steps).bucket == w.bucket == Some(d.root) && d in After(w, steps).puts
    ensures After(w, steps).tasks[t] == w.tasks[t]
  {
    var u := FreshNat(w.tasks.Keys);
    d := Drive(0, w.bucket.value, Ready, 0, 0, 0);
    var w1 := Do(w, Begins(u));
    var w2 := Do(w1, FirstRead(u));
    var w3 := Do(w2, Mints(u, 0));
    RunOf3(w, Begins(u), FirstRead(u), Mints(u, 0));
    steps := [Begins(u), FirstRead(u), Mints(u, 0)];
  }

  lemma LosesAgain(w: World, t: nat, tries: nat, d: Drive) returns (steps: seq<Step>)
    requires WellFormed(w.log) && PutsAgain(w, t, tries) && Current(w.log).None?
    requires d in w.puts && w.bucket == Some(d.root) && d.root != w.tasks[t].drive.root
    ensures CanRun(w, steps) && RemovedLive(After(w, steps), t)
  {
    var v := UnusedExists(w.log);
    var w1 := Do(w, AppliesPut(d, v));
    LogKept(w, AppliesPut(d, v));
    var w2 := Do(w1, PutRetries(t));
    var w3 := Do(w2, Rereads(t));
    RunOf3(w, AppliesPut(d, v), PutRetries(t), Rereads(t));
    var s := RemovesWinner(w3, t);
    RunOf1(w3, s);
    RunsCompose(w, [AppliesPut(d, v), PutRetries(t), Rereads(t)], [s]);
    steps := [AppliesPut(d, v), PutRetries(t), Rereads(t)] + [s];
  }

  lemma NextRaceHitsLive(w: World, t: nat) returns (steps: seq<Step>)
    requires Sound(w) && Can(w, Rereads(t)) && w.tasks[t].pc.tries > 1 && Current(w.log).Some?
    requires Current(w.log).value.data.root != w.tasks[t].drive.root
    ensures !SparesLive(Do(w, Rereads(t)), steps, t)
  {
    var w', tries := Do(w, Rereads(t)), w.tasks[t].pc.tries - 1;
    assert HandleOk(w, w.tasks[t]);
    var first := DropSucceeds(w', t, tries);
    var w1 := After(w', first);
    var second, root := BucketIsReplaced(w1, t, tries);
    var w2 := After(w1, second);
    var third, d := AnotherCreates(w2, t, tries);
    var w3 := After(w2, third);
    StepIsSound(w, Rereads(t));
    RunIsSound(w', first);
    var fourth := LosesAgain(w3, t, tries, d);
    RunsCompose(w2, third, fourth);
    RunsCompose(w1, second, third + fourth);
    RunsCompose(w', first, second + (third + fourth));
    steps := first + (second + (third + fourth));
  }

  /**
   A request that lost a race to a record of another incarnation spares every live record over every
   continuation exactly if that incarnation is not live and this was its last attempt: with an attempt
   left, the bucket may be replaced again and the next winner be the live one.
   */
  lemma CreateSparesLiveIff(w0: World, past: seq<Step>, t: nat)
    requires Initial(w0) && CanRun(w0, past)
    requires var w := After(w0, past);
             && Can(w, Rereads(t)) && Current(w.log).Some?
             && Current(w.log).value.data.root != w.tasks[t].drive.root
    ensures var w := After(w0, past);
            (forall steps :: SparesLive(Do(w, Rereads(t)), steps, t)) <==>
              w.bucket != Some(Current(w.log).value.data.root) && w.tasks[t].pc.tries <= 1
  {
    RunIsSound(w0, past);
    var w := After(w0, past);
    if w.bucket == Some(Current(w.log).value.data.root) {
      var s := RemovesWinner(Do(w, Rereads(t)), t);
      RunOf1(Do(w, Rereads(t)), s);
      assert !SparesLive(Do(w, Rereads(t)), [s], t);
    } else if w.tasks[t].pc.tries > 1 {
      var steps := NextRaceHitsLive(w, t);
    } else {
      forall steps
        ensures SparesLive(Do(w, Rereads(t)), steps, t)
      {
        LastAttemptSpares(w, steps, t);
      }
    }
  }

  const OLD: Drive := Drive(10, 1, Ready, 0, 0, 0)
  const NEW: Drive := Drive(11, 2, Ready, 0, 0, 0)

  const START: World := World([], {}, {}, {}, {}, Some(1), {1}, map[])

  /** Request 0 fetched root 1. */
  const MINTED: World := START.(puts := {OLD}, tasks := map[0 := Request(Putting(3), OLD)])

  /** The bucket was replaced by root 2, and request 1 arrives. */
  const REPLACED: World :=
    MINTED.(bucket := Some(2), roots := {1, 2},
            tasks := map[0 := Request(Putting(3), OLD), 1 := Request(Begin, BLANK)])

  /** The record for root 2 is stored. */
  const RECORDED: World :=
    REPLACED.(log := [Wrote(0, 1, NEW)], puts := {OLD, NEW}, acks := {(NEW, 1)},
              tasks := map[0 := Request(Putting(3), OLD), 1 := Request(Putting(3), NEW)])

  lemma ToMinted()
    ensures CanRun(START, [Begins(0), FirstRead(0), Mints(0, 10)])
    ensures After(START, [Begins(0), FirstRead(0), Mints(0, 10)]) == MINTED
  {
    var w := Do(Do(Do(START, Begins(0)), FirstRead(0)), Mints(0, 10));
    assert w.tasks == MINTED.tasks;
    RunOf3(START, Begins(0), FirstRead(0), Mints(0, 10));
  }

  lemma ToReplaced()
    ensures CanRun(MINTED, [BucketGoes, BucketComes(2), Begins(1)])
    ensures After(MINTED, [BucketGoes, BucketComes(2), Begins(1)]) == REPLACED
  {
    var w := Do(Do(Do(MINTED, BucketGoes), BucketComes(2)), Begins(1));
    assert w.tasks == REPLACED.tasks;
    RunOf3(MINTED, BucketGoes, BucketComes(2), Begins(1));
  }

  lemma ToRecorded()
    ensures CanRun(REPLACED, [FirstRead(1), Mints(1, 11), AppliesPut(NEW, 1)])
    ensures After(REPLACED, [FirstRead(1), Mints(1, 11), AppliesPut(NEW, 1)]) == RECORDED
  {
    var w := Do(Do(Do(REPLACED, FirstRead(1)), Mints(1, 11)), AppliesPut(NEW, 1));
    assert w.tasks == RECORDED.tasks;
    RunOf3(REPLACED, FirstRead(1), Mints(1, 11), AppliesPut(NEW, 1));
  }

  lemma ToDropped() returns (w: World)
    ensures CanRun(RECORDED, [PutRetries(0), Rereads(0), AppliesRemove(Removal(0, 1))])
    ensures After(RECORDED, [PutRetries(0), Rereads(0), AppliesRemove(Removal(0, 1))]) == w
    ensures w.log == [Wrote(0, 1, NEW), Removed(1, Other, Some(0))] && w.bucket == Some(NEW.root)
  {
    w := Do(Do(Do(RECORDED, PutRetries(0)), Rereads(0)), AppliesRemove(Removal(0, 1)));
    RunOf3(RECORDED, PutRetries(0), Rereads(0), AppliesRemove(Removal(0, 1)));
  }

  /**
   A request that fetched the bucket before it was replaced removes the record of the live incarnation.
   */
  lemma RaceDropsLiveRecord() returns (steps: seq<Step>)
    ensures Initial(START) && CanRun(START, steps)
    ensures After(START, steps).log == [Wrote(0, 1, NEW), Removed(1, Other, Some(0))]
    ensures After(START, steps).bucket == Some(NEW.root)
  {
    var first, second := [Begins(0), FirstRead(0), Mints(0, 10)], [BucketGoes, BucketComes(2), Begins(1)];
    var third := [FirstRead(1), Mints(1, 11), AppliesPut(NEW, 1)];
    var fourth := [PutRetries(0), Rereads(0), AppliesRemove(Removal(0, 1))];
    ToMinted();
    ToReplaced();
    ToRecorded();
    var w := ToDropped();
    RunsCompose(START, first, second);
    RunsCompose(START, first + second, third);
    steps := first + second + third + fourth;
    RunsCompose(START, first + second + third, fourth);
  }
}
