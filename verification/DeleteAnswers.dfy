/** What a delete answers: exactly when it ends how, over every run. */
module DeleteAnswers {
  import opened Options
  import opened DriveStore
  import opened LeaseProtocol
  import opened LeaseInvariant
  import opened LeaseTheorems

  /**
   A delete's account, kept from the outside: whether it found a live lease, or its process busy; whether a
   read-back did not find its last write; whether a call of it failed; how often its drop found its own drive
   stored again; and whether it has seen the drive gone.
   */
  datatype Account = Account(alive: bool, busy: bool, lost: bool, fault: bool, met: nat, gone: bool)

  const NO_ACCOUNT: Account := Account(false, false, false, false, 0, false)

  /** The record is this very drive, in this incarnation. */
  predicate StillStored(log: Log, d: Drive) {
    Current(log).Some? && Current(log).value.data.id == d.id && Current(log).value.data.root == d.root
  }

  function Book(w: World, s: Step, t: nat, a: Account): Account
    requires Can(w, s)
  {
    if Actor(s) != Some(t) then a
    else match s
      case AnswersAlive(_, now) => a.(alive := SweepAlive(w.tasks[t].seen.data, now))
      case FindsBusy(_) => a.(busy := w.tasks[t].proc in w.slots)
      case ReadsBack(_) =>
        if w.tasks[t].writes != [] && HeldBy(w.log, LastWrite(w.tasks[t])) then a else a.(lost := true)
      case RequestFails(_) => a.(fault := true)
      case SweepFails(_) => a.(fault := true)
      case RecordRemoved(_) => a.(gone := true)
      case Rereads(_) =>
        if StillStored(w.log, w.tasks[t].drive.data) then a.(met := a.met + 1) else a.(gone := true)
      case _ => a
  }

  ghost function Books(w: World, steps: seq<Step>, t: nat, a: Account): Account
    requires CanRun(w, steps)
    decreases |steps|
  {
    if steps == [] then a else Books(Do(w, steps[0]), steps[1..], t, Book(w, steps[0], t, a))
  }

  predicate Settles(task: Task, outcome: Outcome, a: Account) {
    && (outcome.Accepted? <==> a.alive)
    && (outcome.Busy? <==> a.busy)
    && (outcome.NotTaken? <==> a.lost && !a.fault && task.landed == [])
    && (outcome.LeaseLost? <==> a.lost && !a.fault && task.landed != [])
    && (outcome.Dropped? <==> a.gone)
    && (outcome.DropFailed? <==> a.met == DROP_ATTEMPTS)
    && (outcome.Failed? <==> a.fault)
  }

  predicate Agrees(task: Task, a: Account) {
    match task.pc
    case Draining(_) => a == NO_ACCOUNT.(lost := true) && task.landed != []
    case Removing(tries, _) => a == NO_ACCOUNT.(met := a.met) && tries == DROP_ATTEMPTS - a.met > 0
    case Rereading(tries, _) => a == NO_ACCOUNT.(met := a.met) && tries == DROP_ATTEMPTS - a.met > 0
    case Exiting(outcome) => !outcome.Crashed? && Settles(task, outcome, a)
    case Done(outcome) => outcome.Crashed? || Settles(task, outcome, a)
    case _ => a == NO_ACCOUNT
  }

  predicate AgreesAt(w: World, t: nat, a: Account) {
    if t in w.tasks then Agrees(w.tasks[t], a) else a == NO_ACCOUNT
  }

  lemma AnswerAgrees(w: World, s: Step, a: Account)
    requires (s.AnswersAlive? || s.FindsBusy? || s.RequestFails?) && TasksOk(w) && Can(w, s) && AgreesAt(w, s.t, a)
    ensures AgreesAt(Do(w, s), s.t, Book(w, s, s.t, a))
  {
    assert TaskAt(w, s.t);
  }

  lemma RequestAgrees(w: World, s: Step, a: Account)
    requires OfRequest(s) && TasksOk(w) && Can(w, s) && AgreesAt(w, s.t, a)
    ensures AgreesAt(Do(w, s), s.t, Book(w, s, s.t, a))
  {
    if s.AnswersAlive? || s.FindsBusy? || s.RequestFails? {
      AnswerAgrees(w, s, a);
    }
  }

  lemma ReadBackAgrees(w: World, t: nat, a: Account)
    requires StoresOk(w) && TokensOk(w) && TasksOk(w) && Can(w, ReadsBack(t)) && AgreesAt(w, t, a)
    ensures AgreesAt(Do(w, ReadsBack(t)), t, Book(w, ReadsBack(t), t, a))
  {
    ReadBackSees(w, t);
  }

  lemma LeaseAgrees(w: World, s: Step, a: Account)
    requires OfLease(s) && !s.ReadsBack? && Can(w, s) && AgreesAt(w, s.t, a)
    ensures AgreesAt(Do(w, s), s.t, Book(w, s, s.t, a))
  {
  }

  lemma SweepAgrees(w: World, s: Step, a: Account)
    requires OfSweep(s) && Can(w, s) && AgreesAt(w, s.t, a)
    ensures AgreesAt(Do(w, s), s.t, Book(w, s, s.t, a))
  {
  }

  lemma BucketReplyAgrees(w: World, s: Step, a: Account)
    requires (s.BucketDeleted? || s.BucketReplaced? || s.BucketNotFound?) && Can(w, s) && AgreesAt(w, s.t, a)
    ensures AgreesAt(Do(w, s), s.t, a)
  {
  }

  lemma RemovalAgrees(w: World, s: Step, a: Account)
    requires (s.RecordRemoved? || s.RecordChanged?) && Can(w, s) && AgreesAt(w, s.t, a)
    ensures AgreesAt(Do(w, s), s.t, Book(w, s, s.t, a))
  {
  }

  /** Where a re-read leads. */
  function AfterReread(d: Drive, pc: Pc, current: Option<Versioned>): Pc
    requires pc.Rereading?
  {
    match Reread(d, pc.tries, current)
    case Gone => DropEnds(pc.why, Dropped)
    case Exhausted => DropEnds(pc.why, DropFailed)
    case Again(_) => Removing(pc.tries - 1, pc.why)
  }

  lemma RereadLeads(w: World, t: nat)
    requires Can(w, Rereads(t))
    ensures t in Do(w, Rereads(t)).tasks
    ensures Do(w, Rereads(t)).tasks[t].landed == w.tasks[t].landed
    ensures Do(w, Rereads(t)).tasks[t].pc == AfterReread(w.tasks[t].drive.data, w.tasks[t].pc, Current(w.log))
  {
  }

  lemma RereadAgrees(w: World, t: nat, a: Account)
    requires Can(w, Rereads(t)) && AgreesAt(w, t, a)
    ensures AgreesAt(Do(w, Rereads(t)), t, Book(w, Rereads(t), t, a))
  {
    RereadLeads(w, t);
  }

  lemma DropAgrees(w: World, s: Step, a: Account)
    requires OfDrop(s) && Can(w, s) && AgreesAt(w, s.t, a)
    ensures AgreesAt(Do(w, s), s.t, Book(w, s, s.t, a))
  {
    if s.Rereads? {
      RereadAgrees(w, s.t, a);
    } else if s.RecordRemoved? || s.RecordChanged? {
      RemovalAgrees(w, s, a);
    } else {
      BucketReplyAgrees(w, s, a);
    }
  }

  lemma OwnAgrees(w: World, s: Step, a: Account)
    requires StoresOk(w) && TokensOk(w) && TasksOk(w) && Can(w, s) && Actor(s).Some? && AgreesAt(w, s.t, a)
    ensures AgreesAt(Do(w, s), s.t, Book(w, s, s.t, a))
  {
    if OfRequest(s) {
      RequestAgrees(w, s, a);
    } else if s.ReadsBack? {
      ReadBackAgrees(w, s.t, a);
    } else if OfLease(s) {
      LeaseAgrees(w, s, a);
    } else if OfDrop(s) {
      DropAgrees(w, s, a);
    } else {
      SweepAgrees(w, s, a);
    }
  }

  lemma BookAgrees(w: World, s: Step, t: nat, a: Account)
    requires Inv(w) && Can(w, s) && AgreesAt(w, t, a)
    ensures AgreesAt(Do(w, s), t, Book(w, s, t, a))
  {
    if Actor(s) == Some(t) {
      OwnAgrees(w, s, a);
    } else if t in w.tasks {
      WritesGrow(w, s, t);
      OthersUntouched(w, s, t);
    } else if t in Do(w, s).tasks {
      OthersUntouched(w, s, t);
    }
  }

  lemma {:induction false} BooksAgree(w: World, steps: seq<Step>, t: nat, a: Account)
    requires Inv(w) && CanRun(w, steps) && AgreesAt(w, t, a)
    ensures AgreesAt(After(w, steps), t, Books(w, steps, t, a))
    decreases |steps|
  {
    if steps == [] {
    } else {
      BookAgrees(w, steps[0], t, a);
      StepKept(w, steps[0]);
      BooksAgree(Do(w, steps[0]), steps[1..], t, Book(w, steps[0], t, a));
    }
  }

  /** The request, or the sweep it became, has come to its end. */
  predicate Ended(pc: Pc) {
    pc.Exiting? || pc.Done?
  }

  /**
   Over every run, short of a process death, what a delete ends with is decided by what it met: it was
   accepted exactly if it found a live lease, busy exactly if its process had the drive registered, and so on
   for a lease not obtained, a lease lost, a record dropped or not to be dropped, and a failed call.  It saw
   the record dropped exactly if its removal was answered or a re-read found no record or one of another
   drive or incarnation, and could not drop it exactly if three re-reads found its own drive.
   */
  lemma DeleteOutcomeIff(w: World, steps: seq<Step>, t: nat)
    requires Initial(w) && CanRun(w, steps)
    requires t in After(w, steps).tasks && After(w, steps).tasks[t].pc != Done(Crashed)
    ensures var task, a := After(w, steps).tasks[t], Books(w, steps, t, NO_ACCOUNT);
            && (Ended(task.pc) ==> Settles(task, task.pc.outcome, a))
            && (a.alive || a.busy || a.fault || a.gone || a.met == DROP_ATTEMPTS ==> Ended(task.pc))
            && (a.lost ==> Ended(task.pc) || task.pc.Draining?)
  {
    assert Inv(w);
    BooksAgree(w, steps, t, NO_ACCOUNT);
  }

  // ---------------------------------------------------------------- what was asked for

  /** The plain delete's own call, or the drop that follows it. */
  predicate Plainly(pc: Pc) {
    || pc == BucketCall(true)
    || ((pc.Removing? || pc.Rereading?) && (pc.why.PlainDeleted? || pc.why.PlainReplaced? || pc.why.PlainNotFound?))
  }

  /** Only a force delete takes a lease or sweeps, only a plain one deletes the bucket without either. */
  predicate AsAsked(task: Task) {
    && (task.writes != [] || InSweep(task.pc) || task.pc.Writing? || task.pc.Reading? ==> task.force)
    && (Plainly(task.pc) ==> !task.force)
  }

  predicate AskedAt(w: World, t: nat) {
    t in w.tasks ==> AsAsked(w.tasks[t])
  }

  lemma RequestAsAsked(w: World, s: Step)
    requires OfRequest(s) && Can(w, s) && AskedAt(w, s.t)
    ensures AskedAt(Do(w, s), s.t)
  {
  }

  lemma LeaseAsAsked(w: World, s: Step)
    requires OfLease(s) && Can(w, s) && AskedAt(w, s.t)
    ensures AskedAt(Do(w, s), s.t)
  {
  }

  lemma SweepAsAsked(w: World, s: Step)
    requires OfSweep(s) && Can(w, s) && AskedAt(w, s.t)
    ensures AskedAt(Do(w, s), s.t)
  {
  }

  lemma BucketReplyAsAsked(w: World, s: Step)
    requires (s.BucketDeleted? || s.BucketReplaced? || s.BucketNotFound?) && Can(w, s) && AskedAt(w, s.t)
    ensures AskedAt(Do(w, s), s.t)
  {
  }

  lemma DropAsAsked(w: World, s: Step)
    requires OfDrop(s) && Can(w, s) && AskedAt(w, s.t)
    ensures AskedAt(Do(w, s), s.t)
  {
    if s.BucketDeleted? || s.BucketReplaced? || s.BucketNotFound? {
      BucketReplyAsAsked(w, s);
    }
  }

  lemma StepAsAsked(w: World, s: Step, t: nat)
    requires Can(w, s) && AskedAt(w, t)
    ensures AskedAt(Do(w, s), t)
  {
    if Actor(s) != Some(t) {
      if t in Do(w, s).tasks {
        OthersUntouched(w, s, t);
      }
    } else if OfRequest(s) {
      RequestAsAsked(w, s);
    } else if OfLease(s) {
      LeaseAsAsked(w, s);
    } else if OfDrop(s) {
      DropAsAsked(w, s);
    } else {
      SweepAsAsked(w, s);
    }
  }

  lemma {:induction false} RunAsAsked(w: World, steps: seq<Step>, t: nat)
    requires CanRun(w, steps) && AskedAt(w, t)
    ensures AskedAt(After(w, steps), t)
    decreases |steps|
  {
    if steps == [] {
    } else {
      StepAsAsked(w, steps[0], t);
      RunAsAsked(Do(w, steps[0]), steps[1..], t);
    }
  }

  /** In every reachable state a delete does what was asked for: the lease and the sweep only by force. */
  lemma ForceDecides(w: World, t: nat)
    requires Reachable(w) && t in w.tasks
    ensures AsAsked(w.tasks[t])
  {
    var w0: World, steps: seq<Step> :| Initial(w0) && CanRun(w0, steps) && After(w0, steps) == w;
    RunAsAsked(w0, steps, t);
  }
}
