/**
 The drive record and the contracts of the two remote stores that hold it.

 RSS keeps one record per drive name under compare-and-set: a write names the version it
 replaces (0 means "absent") and is stored under a version never used before.  Everything that ever
 happened to the record is a log of changes; the record is whatever the last change left.
 */
module DriveStore {
  import opened Options

  datatype Status = Ready | Deleting

  // Identifiers are only compared for equality, so numbers stand for them; token 0 is the empty
  // token of a record whose lease was never taken.
  datatype Drive = Drive(id: nat, root: nat, status: Status, deletingSince: nat, heartbeat: nat, token: nat)

  datatype Versioned = Versioned(version: nat, data: Drive)

  const SWEEP_LEASE_MS: nat := 60000

  function SaturatingSub(a: nat, b: nat): nat {
    if a < b then 0 else a - b
  }

  predicate SweepAlive(d: Drive, now: nat) {
    d.status.Deleting? && SaturatingSub(now, d.heartbeat) < SWEEP_LEASE_MS
  }

  /** Which request decided that a record may be removed. */
  datatype Why =
    | Other
    | StaleAtRequest
    | StaleAtSweep
    | SweepDeleted
    | SweepReplaced
    | PlainDeleted
    | PlainReplaced
    | PlainNotFound
  {
    /** It was the sweep worker that decided, not a request handler. */
    predicate OfSweep() {
      StaleAtSweep? || SweepDeleted? || SweepReplaced?
    }

    /** The decision rests on a bucket read or a fenced delete, not on a message text. */
    predicate Checked() {
      !Other? && !PlainNotFound?
    }
  }

  datatype Change =
    | Wrote(expected: nat, version: nat, data: Drive)
    | Removed(version: nat, why: Why, sender: Option<nat>)

  type Log = seq<Change>

  function Current(log: Log): Option<Versioned> {
    if log == [] then None
    else match log[|log| - 1]
      case Wrote(_, v, d) => Some(Versioned(v, d))
      case Removed(_, _, _) => None
  }

  /** The version a compare-and-set has to name: 0 when there is no record. */
  function CurrentVersion(log: Log): nat {
    match Current(log)
    case None => 0
    case Some(r) => r.version
  }

  predicate Unused(log: Log, version: nat) {
    version != 0 && forall i | 0 <= i < |log| && log[i].Wrote? :: log[i].version != version
  }

  /** Change `i` was admitted by the compare-and-set contract. */
  predicate Lawful(log: Log, i: nat)
    requires i < |log|
  {
    match log[i]
    case Wrote(e, v, _) =>
      && Unused(log[..i], v)
      && CurrentVersion(log[..i]) == e
    case Removed(v, _, _) =>
      && v != 0
      && CurrentVersion(log[..i]) == v
  }

  ghost predicate WellFormed(log: Log) {
    forall i | 0 <= i < |log| :: Lawful(log, i)
  }

  /** Some change stored exactly this record under exactly this version. */
  ghost predicate Stored(log: Log, r: Versioned) {
    exists e :: Wrote(e, r.version, r.data) in log
  }

  /** What `drop_stale_record` does after a removal met another version and the record was read again. */
  datatype AfterReread = Gone | Exhausted | Again(record: Versioned)

  /**
   Only the caller's own incarnation is tried again, and only while attempts are left; any other
   record, or none, means the caller's drive is gone.
   */
  function Reread(handle: Drive, tries: nat, current: Option<Versioned>): AfterReread {
    if current.None? || current.value.data.id != handle.id || current.value.data.root != handle.root then Gone
    else if tries <= 1 then Exhausted
    else Again(current.value)
  }

  const DROP_ATTEMPTS: nat := 3

  lemma AppendKeepsWellFormed(log: Log, c: Change)
    requires WellFormed(log)
    requires Lawful(log + [c], |log|)
    ensures WellFormed(log + [c])
  {
    forall i | 0 <= i < |log + [c]|
      ensures Lawful(log + [c], i)
    {
      if i < |log| {
        assert (log + [c])[..i] == log[..i];
        assert Lawful(log, i);
      }
    }
  }

  lemma LaterVersionDiffers(log: Log, i: nat, j: nat)
    requires WellFormed(log)
    requires i < j < |log|
    requires log[i].Wrote? && log[j].Wrote?
    ensures log[i].version != log[j].version
  {
    assert Lawful(log, j);
    assert log[..j][i] == log[i];
  }

  /** Versions name changes: two writes of one version are the same change. */
  lemma VersionsAreUnique(log: Log, i: nat, j: nat)
    requires WellFormed(log)
    requires i < |log| && j < |log|
    requires log[i].Wrote? && log[j].Wrote? && log[i].version == log[j].version
    ensures i == j
  {
    if i < j {
      LaterVersionDiffers(log, i, j);
    } else if j < i {
      LaterVersionDiffers(log, j, i);
    }
  }

  /** A write fenced on a version directly follows the write of that version. */
  lemma FencedWriteFollows(log: Log, i: nat)
    requires WellFormed(log)
    requires i < |log| && log[i].Wrote? && log[i].expected != 0
    ensures i > 0 && log[i - 1].Wrote? && log[i - 1].version == log[i].expected
  {
    assert Lawful(log, i);
    assert log[..i] != [];
  }

  lemma StoredVersionIsUsed(log: Log, r: Versioned)
    requires WellFormed(log)
    requires Stored(log, r)
    ensures r.version != 0
    ensures !Unused(log, r.version)
  {
    var e :| Wrote(e, r.version, r.data) in log;
    var i :| 0 <= i < |log| && log[i] == Wrote(e, r.version, r.data);
    assert Lawful(log, i);
  }

  /** Once a fenced write was followed by anything, its expected version never becomes current again. */
  lemma VersionsNeverReturn(log: Log, i: nat, v: nat)
    requires WellFormed(log)
    requires i < |log| && log[i].Wrote? && log[i].version == v
    ensures CurrentVersion(log) == v <==> i == |log| - 1
  {
    if CurrentVersion(log) == v {
      assert Lawful(log, i);
      VersionsAreUnique(log, i, |log| - 1);
    }
  }

  /** Some version was never used. */
  lemma {:induction false} UnusedExists(log: Log) returns (v: nat)
    ensures Unused(log, v) && forall i | 0 <= i < |log| && log[i].Wrote? :: log[i].version < v
  {
    if log == [] {
      v := 1;
    } else {
      var n := |log| - 1;
      v := UnusedExists(log[..n]);
      assert forall i | 0 <= i < n :: log[i] == log[..n][i];
      if log[n].Wrote? && log[n].version >= v {
        v := log[n].version + 1;
      }
    }
  }
}
