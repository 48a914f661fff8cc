/**
 One background deletion of a blob: teardown marker, grace window, data blocks, rows, marker again.

 `Storage` stands for everything remote that belongs to the blob.  Each call on it is one effect that is
 durable as soon as it happens, and appends what a crash right after it would leave behind to `trace`.
 A call that fails may still have taken effect.
 */
module BlobTeardown {
  import opened Options
  import opened Listing
  import opened Sets
  import opened Text

  const ROW_PAGE_SIZE: nat := 1000

  type Block = (nat, nat)

  datatype Snapshot = Snapshot(now: nat, blocks: set<Block>, rows: set<string>, marker: bool)

  /** The name store may also answer a put with an error of its own. */
  datatype PutReply = Stored | Refused | PutFailed

  datatype PutPolicy = AcceptsAll | RefusesAll | Mixed

  datatype BlockListing = Blocks(identities: seq<Block>) | BlocksFailed

  datatype RowListing = Rows(keys: seq<string>, hasMore: bool) | NoSuchRoot | RowsFailed

  // ---------------------------------------------------------------- what a crash may leave behind

  ghost predicate Removed(x: Snapshot, blocks: set<Block>, rows: set<string>) {
    x.blocks != blocks || x.rows != rows
  }

  /** Half torn down: something is gone and something is left. */
  ghost predicate Partial(x: Snapshot, blocks: set<Block>, rows: set<string>) {
    Removed(x, blocks, rows) && (x.blocks != {} || x.rows != {})
  }

  /** The order of the teardown: no block before the deadline, no row before the last block. */
  ghost predicate Ordered(x: Snapshot, blocks: set<Block>, rows: set<string>, mapped: bool, deadline: nat) {
    && x.blocks <= blocks && x.rows <= rows
    && (x.blocks != blocks ==> deadline <= x.now)
    && (x.rows != rows ==> mapped && x.blocks == {})
  }

  /** A mapped blob that is half torn down is still on record. */
  ghost predicate Recoverable(x: Snapshot, blocks: set<Block>, rows: set<string>, mapped: bool) {
    mapped && Partial(x, blocks, rows) ==> x.marker
  }

  /** One effect: at most one item goes, none returns, and the marker only goes after all of them. */
  ghost predicate Follows(x: Snapshot, y: Snapshot, mapped: bool) {
    && x.now <= y.now
    && y.blocks <= x.blocks && y.rows <= x.rows
    && |x.blocks| + |x.rows| <= |y.blocks| + |y.rows| + 1
    && (x.marker && !y.marker ==> mapped && y.blocks == {} && y.rows == {})
  }

  ghost predicate Chained(trace: seq<Snapshot>, mapped: bool) {
    forall i | 0 < i < |trace| :: Follows(trace[i - 1], trace[i], mapped)
  }

  ghost predicate AllOrdered(trace: seq<Snapshot>, blocks: set<Block>, rows: set<string>, mapped: bool, deadline: nat) {
    forall x | x in trace :: Ordered(x, blocks, rows, mapped, deadline)
  }

  ghost predicate AllRecoverable(trace: seq<Snapshot>, blocks: set<Block>, rows: set<string>, mapped: bool) {
    forall x | x in trace :: Recoverable(x, blocks, rows, mapped)
  }

  /** Nothing was ever removed under the marker's cover. */
  ghost predicate NeverMarked(trace: seq<Snapshot>, blocks: set<Block>, rows: set<string>) {
    forall x | x in trace && Removed(x, blocks, rows) :: !x.marker
  }

  ghost predicate Untouched(trace: seq<Snapshot>, blocks: set<Block>, rows: set<string>) {
    forall x | x in trace :: !Removed(x, blocks, rows)
  }

  /** Going from two items or more to none, one at a time, passes through a half-torn-down state. */
  lemma {:induction false} PassesThroughPartial(trace: seq<Snapshot>, mapped: bool)
    requires trace != [] && Chained(trace, mapped)
    requires |trace[0].blocks| + |trace[0].rows| >= 2
    requires trace[|trace| - 1].blocks == {} && trace[|trace| - 1].rows == {}
    ensures exists x :: x in trace && Partial(x, trace[0].blocks, trace[0].rows)
  {
    var first, i := trace[0], 0;
    while trace[i].blocks == first.blocks && trace[i].rows == first.rows
      invariant 0 <= i < |trace|
      invariant i > 0 ==> trace[i - 1].blocks == first.blocks && trace[i - 1].rows == first.rows
      invariant trace[i].blocks == first.blocks && trace[i].rows == first.rows ==> i < |trace| - 1
      decreases |trace| - i
    {
      i := i + 1;
      assert Follows(trace[i - 1], trace[i], mapped);
    }
    var x := trace[i];
    assert x in trace;
    if i > 0 {
      assert Follows(trace[i - 1], trace[i], mapped);
    }
    assert Partial(x, first.blocks, first.rows);
  }

  // ---------------------------------------------------------------- the blob's remote state

  class Storage {
    /** Whether the tree that holds the blob's rows and marker exists. */
    const rooted: bool
    /** Which puts the name store answers with an error of its own. */
    const puts: PutPolicy
    /** Whether calls may fail. */
    const faults: bool
    ghost const initialBlocks: set<Block>
    ghost const initialRows: set<string>
    var blocks: set<Block>
    var rows: set<string>
    var marker: bool
    var now: nat
    ghost var trace: seq<Snapshot>
    /** Calls that failed without the tree's absence being the reason. */
    ghost var failures: nat

    ghost function Here(): Snapshot
      reads this
    {
      Snapshot(now, blocks, rows, marker)
    }

    ghost predicate Valid()
      reads this
    {
      && trace != [] && trace[0].blocks == initialBlocks && trace[0].rows == initialRows
      && trace[|trace| - 1] == Here()
      && (forall r | r in rows :: r != "")
      && (!rooted ==> rows == {} && !marker && puts.RefusesAll?)
      && (puts.RefusesAll? && !trace[0].marker ==> !marker)
    }

    constructor (rooted: bool, puts: PutPolicy, faults: bool,
                 blocks: set<Block>, rows: set<string>, marker: bool, now: nat)
      requires forall r | r in rows :: r != ""
      requires !rooted ==> rows == {} && !marker && puts.RefusesAll?
      ensures Valid() && trace == [Snapshot(now, blocks, rows, marker)]
      ensures this.rooted == rooted && this.puts == puts && this.faults == faults
      ensures initialBlocks == blocks && initialRows == rows
      ensures this.blocks == blocks && this.rows == rows && this.marker == marker && this.now == now
    {
      this.rooted, this.puts, this.faults := rooted, puts, faults;
      this.initialBlocks, this.initialRows := blocks, rows;
      this.blocks, this.rows, this.marker, this.now := blocks, rows, marker, now;
      this.trace := [Snapshot(now, blocks, rows, marker)];
      this.failures := 0;
    }

    method ReadClock() returns (time: nat)
      requires Valid()
      modifies this`now, this`trace
      ensures Valid() && old(now) <= now == time
      ensures trace == old(trace) + [Here()]
    {
      time :| now <= time;
      now := time;
      trace := trace + [Here()];
    }

    method PutMarker() returns (reply: PutReply)
      requires Valid()
      modifies this`now, this`marker, this`trace, this`failures
      ensures Valid() && old(now) <= now
      ensures reply.Stored? ==> marker
      ensures reply.Refused? ==> !puts.AcceptsAll?
      ensures marker == old(marker) || marker
      ensures failures == old(failures) + (if reply.PutFailed? then 1 else 0)
      ensures !faults ==> failures == old(failures)
      ensures trace == old(trace) + [Here()]
    {
      var time := ReadClock();
      reply := *;
      if reply.PutFailed? && !faults {
        reply := Stored;
      }
      if !reply.PutFailed? && !puts.Mixed? {
        reply := if puts.AcceptsAll? then Stored else Refused;
      }
      var applied: bool := *;
      if reply.Stored? || (reply.PutFailed? && applied && !puts.RefusesAll?) {
        marker := true;
      }
      if reply.PutFailed? {
        failures := failures + 1;
      }
      trace := trace[..|trace| - 1] + [Here()];
    }

    method DeleteMarker() returns (ok: bool)
      requires Valid()
      modifies this`now, this`marker, this`trace, this`failures
      ensures Valid() && old(now) <= now
      ensures ok ==> rooted && !marker
      ensures marker ==> old(marker)
      ensures failures == old(failures) + (if ok || !rooted then 0 else 1)
      ensures !faults ==> failures == old(failures)
      ensures trace == old(trace) + [Here()]
    {
      var time := ReadClock();
      ok := *;
      ok := (ok || !faults) && rooted;
      var applied: bool := *;
      if ok || applied {
        marker := false;
      }
      if !ok && rooted {
        failures := failures + 1;
      }
      trace := trace[..|trace| - 1] + [Here()];
    }

    method ListBlocks() returns (listing: BlockListing)
      requires Valid()
      modifies this`failures
      ensures Valid()
      ensures listing.Blocks? ==> forall b :: b in listing.identities <==> b in blocks
      ensures failures == old(failures) + (if listing.BlocksFailed? then 1 else 0)
      ensures !faults ==> failures == old(failures)
    {
      var failed: bool := *;
      if failed && faults {
        failures := failures + 1;
        return BlocksFailed;
      }
      var identities: seq<Block> := [];
      var left := blocks;
      while left != {}
        invariant failures == old(failures)
        invariant forall b :: b in blocks <==> b in left || b in identities
      {
        var b :| b in left;
        left := left - {b};
        identities := identities + [b];
      }
      return Blocks(identities);
    }

    method DeleteBlock(b: Block) returns (ok: bool)
      requires Valid()
      modifies this`now, this`blocks, this`trace, this`failures
      ensures Valid() && old(now) <= now
      ensures blocks == old(blocks) || blocks == old(blocks) - {b}
      ensures ok ==> b !in blocks
      ensures failures == old(failures) + (if ok then 0 else 1)
      ensures !faults ==> failures == old(failures)
      ensures trace == old(trace) + [Here()]
    {
      var time := ReadClock();
      ok := *;
      ok := ok || !faults;
      var applied: bool := *;
      if ok || applied {
        blocks := blocks - {b};
      }
      if !ok {
        failures := failures + 1;
      }
      trace := trace[..|trace| - 1] + [Here()];
    }

    method ListRows(cursor: string) returns (listing: RowListing)
      requires Valid()
      modifies this`failures
      ensures Valid()
      ensures listing.Rows? ==> IsPage(rows, cursor, ROW_PAGE_SIZE, listing.keys, listing.hasMore)
      ensures listing.NoSuchRoot? ==> !rooted
      ensures failures == old(failures) + (if listing.RowsFailed? then 1 else 0)
      ensures !faults ==> failures == old(failures)
    {
      var failed: bool := *;
      if failed && faults {
        failures := failures + 1;
        return RowsFailed;
      }
      if !rooted {
        return NoSuchRoot;
      }
      var keys, hasMore := ListPage(rows, cursor, ROW_PAGE_SIZE);
      return Rows(keys, hasMore);
    }

    method DeleteRow(key: string) returns (ok: bool)
      requires Valid()
      modifies this`now, this`rows, this`trace, this`failures
      ensures Valid() && old(now) <= now
      ensures rows == old(rows) || rows == old(rows) - {key}
      ensures ok ==> key !in rows
      ensures failures == old(failures) + (if ok then 0 else 1)
      ensures !faults ==> failures == old(failures)
      ensures trace == old(trace) + [Here()]
    {
      var time := ReadClock();
      ok := *;
      ok := ok || !faults;
      var applied: bool := *;
      if ok || applied {
        rows := rows - {key};
      }
      if !ok {
        failures := failures + 1;
      }
      trace := trace[..|trace| - 1] + [Here()];
    }
  }

  // ---------------------------------------------------------------- the request and its attempts

  class Request {
    const mapped: bool
    var markerWritten: bool
    var graceUntil: Option<nat>
    var blocksDeleted: bool
    ghost const deadline: nat
    /** The marker was really there when the put was taken as done. */
    ghost var honoured: bool
    /** The name store answered a put with an error. */
    ghost var refused: bool

    constructor (mapped: bool, s: Storage, grace: nat)
      requires s.Valid() && s.trace == [s.Here()] && s.blocks == s.initialBlocks && s.rows == s.initialRows
      ensures Consistent(s) && this.mapped == mapped && deadline == s.now + grace
      ensures markerWritten == !mapped && graceUntil == Some(s.now + grace) && !blocksDeleted
    {
      this.mapped, this.markerWritten := mapped, !mapped;
      this.graceUntil, this.deadline := Some(s.now + grace), s.now + grace;
      this.blocksDeleted, this.honoured, this.refused := false, true, false;
    }

    /** What the trace so far may look like. */
    ghost predicate Kept(s: Storage)
      reads this, s
    {
      && s.Valid()
      && Chained(s.trace, mapped)
      && AllOrdered(s.trace, s.initialBlocks, s.initialRows, mapped, deadline)
      && (honoured ==> AllRecoverable(s.trace, s.initialBlocks, s.initialRows, mapped))
      && (!honoured ==> NeverMarked(s.trace, s.initialBlocks, s.initialRows))
    }

    /** Where the marker is while rows and blocks go. */
    ghost predicate Covered(s: Storage)
      requires s.trace != []
      reads this, s
    {
      && (mapped && markerWritten && honoured ==> s.marker || (s.blocks == {} && s.rows == {}))
      && (!honoured ==> mapped && markerWritten && refused && !s.marker && !s.trace[0].marker)
      && (!markerWritten && s.trace[0].marker ==> s.marker)
      && (refused ==> !s.puts.AcceptsAll?)
      && (s.puts.RefusesAll? && mapped && markerWritten && honoured ==> s.trace[0].marker)
    }

    /** The flags tell how far the teardown has come. */
    ghost predicate Consistent(s: Storage)
      reads this, s
    {
      && Kept(s) && Covered(s)
      && (!markerWritten ==> mapped && graceUntil.Some?)
      && (graceUntil.Some? ==> graceUntil.value == deadline && !blocksDeleted)
      && (graceUntil.Some? ==> Untouched(s.trace, s.initialBlocks, s.initialRows))
      && (graceUntil.None? ==> deadline <= s.now)
      && (blocksDeleted ==> s.blocks == {})
      && (!blocksDeleted || !mapped ==> s.rows == s.initialRows)
    }

    /** One more effect that keeps the order keeps the whole trace. */
    twostate lemma KeptByEffect(s: Storage)
      requires old(Kept(s)) && old(Covered(s)) && s.Valid() && s.trace == old(s.trace) + [s.Here()]
      requires Follows(old(s.Here()), s.Here(), mapped)
      requires Ordered(s.Here(), s.initialBlocks, s.initialRows, mapped, deadline)
      requires honoured == old(honoured)
      requires honoured ==> Recoverable(s.Here(), s.initialBlocks, s.initialRows, mapped)
      requires !honoured ==> !s.marker
      ensures Kept(s)
    {
    }

    /** The reply's own verdict is not looked at: a refused put counts as written. */
    method WriteGcMarker(s: Storage) returns (ok: bool)
      requires Consistent(s) && !markerWritten
      modifies s`now, s`marker, s`trace, s`failures, this`refused
      ensures Consistent(s) && old(s.trace) <= s.trace && s.failures == old(s.failures) + (if ok then 0 else 1)
      ensures ok && !s.marker ==> refused
      ensures old(s.now) <= s.now
      ensures !s.faults ==> s.failures == old(s.failures)
    {
      assert s.Here() in s.trace;
      var reply := s.PutMarker();
      KeptByEffect(s);
      refused := refused || reply.Refused?;
      return !reply.PutFailed?;
    }

    method RecordIntent(s: Storage) returns (ok: bool)
      requires Consistent(s)
      modifies s`now, s`marker, s`trace, s`failures, this`markerWritten, this`honoured, this`refused
      ensures Consistent(s) && old(s.trace) <= s.trace && old(s.now) <= s.now
      ensures s.failures == old(s.failures) + (if ok then 0 else 1)
      ensures ok ==> markerWritten
      ensures !s.faults ==> ok
    {
      if !markerWritten {
        ok := WriteGcMarker(s);
        if !ok {
          return;
        }
        markerWritten, honoured := true, s.marker;
      }
      ok := true;
    }

    method WaitOutGrace(s: Storage) returns (over: bool)
      requires Consistent(s) && markerWritten
      modifies s`now, s`trace, this`graceUntil
      ensures Consistent(s) && old(s.trace) <= s.trace
      ensures over == graceUntil.None?
      ensures deadline <= old(s.now) ==> over
    {
      if graceUntil.Some? {
        assert s.Here() in s.trace;
        var time := s.ReadClock();
        KeptByEffect(s);
        if time < graceUntil.value {
          return false;
        }
      }
      graceUntil := None;
      return true;
    }

    method DeleteLayoutBlocks(s: Storage) returns (ok: bool)
      requires Consistent(s) && markerWritten && graceUntil.None? && !blocksDeleted
      modifies s`now, s`blocks, s`trace, s`failures
      ensures Consistent(s) && old(s.trace) <= s.trace && s.failures >= old(s.failures)
      ensures ok ==> s.blocks == {}
      ensures ok <==> s.failures == old(s.failures)
      ensures !s.faults ==> s.failures == old(s.failures)
    {
      var listing := s.ListBlocks();
      if listing.BlocksFailed? {
        return false;
      }
      var todo := set b | b in listing.identities;
      ok := true;
      while todo != {}
        invariant Consistent(s) && old(s.trace) <= s.trace && s.failures >= old(s.failures)
        invariant ok <==> s.failures == old(s.failures)
        invariant !s.faults ==> ok
        invariant ok ==> s.blocks <= todo
      {
        var b :| b in todo;
        todo := todo - {b};
        var deleted := DeleteOneBlock(s, b);
        ok := ok && deleted;
      }
    }

    method DeleteOneBlock(s: Storage, b: Block) returns (ok: bool)
      requires Consistent(s) && markerWritten && graceUntil.None? && !blocksDeleted
      modifies s`now, s`blocks, s`trace, s`failures
      ensures Consistent(s) && old(s.trace) <= s.trace && s.failures == old(s.failures) + (if ok then 0 else 1)
      ensures s.blocks <= old(s.blocks) && (ok ==> b !in s.blocks)
      ensures !s.faults ==> s.failures == old(s.failures)
    {
      assert s.Here() in s.trace;
      ok := s.DeleteBlock(b);
      assert |old(s.blocks)| <= |s.blocks| + 1;
      KeptByEffect(s);
    }

    method DeleteOneRow(s: Storage, key: string) returns (ok: bool)
      requires Consistent(s) && markerWritten && graceUntil.None? && blocksDeleted && mapped
      modifies s`now, s`rows, s`trace, s`failures
      ensures Consistent(s) && old(s.trace) <= s.trace && s.failures == old(s.failures) + (if ok then 0 else 1)
      ensures s.rows <= old(s.rows) && (ok ==> key !in s.rows)
      ensures !s.faults ==> s.failures == old(s.failures)
    {
      assert s.Here() in s.trace;
      ok := s.DeleteRow(key);
      assert |old(s.rows)| <= |s.rows| + 1;
      KeptByEffect(s);
    }

    method DeletePage(s: Storage, keys: seq<string>) returns (ok: bool)
      requires Consistent(s) && markerWritten && graceUntil.None? && blocksDeleted && mapped
      modifies s`now, s`rows, s`trace, s`failures
      ensures Consistent(s) && old(s.trace) <= s.trace && s.failures >= old(s.failures)
      ensures ok <==> s.failures == old(s.failures)
      ensures s.rows <= old(s.rows) && (ok ==> forall k | k in keys :: k !in s.rows)
      ensures !s.faults ==> s.failures == old(s.failures)
    {
      var todo := set k | k in keys;
      ok := true;
      while todo != {}
        invariant Consistent(s) && old(s.trace) <= s.trace && s.failures >= old(s.failures) && s.rows <= old(s.rows)
        invariant ok <==> s.failures == old(s.failures)
        invariant !s.faults ==> ok
        invariant ok ==> forall k | k in keys && k !in todo :: k !in s.rows
      {
        var k :| k in todo;
        todo := todo - {k};
        var deleted := DeleteOneRow(s, k);
        ok := ok && deleted;
      }
    }

    method SweepRows(s: Storage) returns (ok: bool)
      requires Consistent(s) && markerWritten && graceUntil.None? && blocksDeleted && mapped
      modifies s`now, s`rows, s`trace, s`failures
      ensures Consistent(s) && old(s.trace) <= s.trace && s.failures >= old(s.failures)
      ensures ok ==> s.rows == {}
      ensures ok <==> s.failures == old(s.failures)
      ensures !s.faults ==> s.failures == old(s.failures)
    {
      var startAfter := "";
      while true
        invariant Consistent(s) && old(s.trace) <= s.trace && s.failures == old(s.failures)
        invariant forall k | k in s.rows :: Less(startAfter, k)
        decreases |s.rows|
      {
        var listing := s.ListRows(startAfter);
        if listing.RowsFailed? {
          return false;
        }
        if listing.NoSuchRoot? || listing.keys == [] {
          assert s.rows == {} by {
            assert forall k | k in s.rows :: Beyond(s.rows, startAfter, k);
          }
          return true;
        }
        ghost var listed := s.rows;
        ok := DeletePage(s, listing.keys);
        if !ok {
          return false;
        }
        PageGone(listed, s.rows, startAfter, ROW_PAGE_SIZE, listing.keys, listing.hasMore);
        if !listing.hasMore {
          return true;
        }
        startAfter := listing.keys[|listing.keys| - 1];
      }
    }

    /** Every row, page after page, and only then the marker. */
    method DeleteOvrRows(s: Storage) returns (ok: bool)
      requires Consistent(s) && markerWritten && graceUntil.None? && blocksDeleted && mapped
      modifies s`now, s`rows, s`marker, s`trace, s`failures
      ensures Consistent(s) && old(s.trace) <= s.trace && s.failures >= old(s.failures)
      ensures ok ==> s.rows == {} && !s.marker
      ensures ok <==> s.failures == old(s.failures) && s.rooted
      ensures !s.faults ==> s.failures == old(s.failures)
    {
      ok := SweepRows(s);
      if !ok {
        return false;
      }
      label swept:
      ok := s.DeleteMarker();
      KeptByEffect@swept(s);
    }

    /** One attempt; it is repeated until it reports that the blob is gone. */
    method DeleteBlobOnce(s: Storage) returns (done: bool)
      requires Consistent(s)
      modifies this, s`now, s`blocks, s`rows, s`marker, s`trace, s`failures
      ensures Consistent(s)
      ensures done ==> markerWritten && s.blocks == {} && (mapped ==> s.rooted && s.rows == {} && !s.marker)
      ensures old(s.trace) <= s.trace && s.failures >= old(s.failures)
      ensures deadline <= old(s.now) && s.failures == old(s.failures) ==> graceUntil.None?
      ensures old(graceUntil).None? ==> graceUntil.None?
      ensures s.failures == old(s.failures) ==> (done <==> graceUntil.None? && (mapped ==> s.rooted))
      ensures !s.faults ==> s.failures == old(s.failures)
    {
      var recorded := RecordIntent(s);
      if !recorded {
        return false;
      }
      var waited := WaitOutGrace(s);
      if !waited {
        return false;
      }
      if !blocksDeleted {
        var ok := DeleteLayoutBlocks(s);
        if !ok {
          return false;
        }
        blocksDeleted := true;
      }
      if mapped {
        var ok := DeleteOvrRows(s);
        return ok;
      }
      return true;
    }

    /**
     The attempts of one request, for as long as the worker makes them.  With the grace window over and no
     call failing, the first one finishes a blob whose tree exists; with its tree gone, none finishes a mapped
     blob.
     */
    method Attempts(s: Storage, most: nat) returns (done: bool)
      requires Consistent(s)
      modifies this, s`now, s`blocks, s`rows, s`marker, s`trace, s`failures
      ensures Consistent(s) && old(s.trace) <= s.trace && s.failures >= old(s.failures)
      ensures done ==> markerWritten && s.blocks == {} && (mapped ==> s.rooted && s.rows == {} && !s.marker)
      ensures most > 0 && deadline <= old(s.now) && s.failures == old(s.failures) ==>
                (done <==> (mapped ==> s.rooted))
    {
      done := false;
      var made := 0;
      while made < most && !done
        invariant Consistent(s) && old(s.trace) <= s.trace && s.failures >= old(s.failures)
        invariant made == 0 ==> s.now == old(s.now)
        invariant done ==> markerWritten && s.blocks == {} && (mapped ==> s.rooted && s.rows == {} && !s.marker)
        invariant made > 0 && deadline <= old(s.now) && s.failures == old(s.failures) ==>
                    graceUntil.None? && (done <==> (mapped ==> s.rooted))
      {
        done := DeleteBlobOnce(s);
        made := made + 1;
      }
    }
  }

  // ---------------------------------------------------------------- what holds of every request

  /** A blob of one item, or none, is never half torn down. */
  lemma SmallIsNeverPartial(x: Snapshot, blocks: set<Block>, rows: set<string>)
    requires x.blocks <= blocks && x.rows <= rows && |blocks| + |rows| < 2
    ensures !Partial(x, blocks, rows)
  {
    if x.blocks != blocks {
      ProperSubsetSize(x.blocks, blocks);
      SubsetSize(x.rows, rows);
    } else if x.rows != rows {
      ProperSubsetSize(x.rows, rows);
    }
  }

  /**
   A finished teardown of a mapped blob was recoverable at every moment exactly if the marker was stored
   when the put was taken as done, or the blob had fewer than two items; only a refused put makes the
   difference.
   */
  lemma RecoverableIffHonoured(r: Request, s: Storage)
    requires r.Consistent(s) && r.mapped && s.blocks == {} && s.rows == {}
    ensures AllRecoverable(s.trace, s.initialBlocks, s.initialRows, true) <==>
              r.honoured || |s.initialBlocks| + |s.initialRows| < 2
    ensures !r.honoured ==> r.refused
  {
    if |s.initialBlocks| + |s.initialRows| < 2 {
      forall x | x in s.trace
        ensures Recoverable(x, s.initialBlocks, s.initialRows, true)
      {
        SmallIsNeverPartial(x, s.initialBlocks, s.initialRows);
      }
    } else if !r.honoured {
      PassesThroughPartial(s.trace, r.mapped);
    }
  }

  /** So with a store that treats all puts alike, it all depends on that, on an older marker and on the size. */
  lemma RecoverableIffAccepted(r: Request, s: Storage)
    requires r.Consistent(s) && r.mapped && r.markerWritten && !s.puts.Mixed? && s.blocks == {} && s.rows == {}
    ensures AllRecoverable(s.trace, s.initialBlocks, s.initialRows, true) <==>
              s.puts.AcceptsAll? || s.trace[0].marker || |s.initialBlocks| + |s.initialRows| < 2
  {
    RecoverableIffHonoured(r, s);
  }

  /** A teardown of a two-block mapped blob that goes through without its marker. */
  method RefusedPutLosesCover() returns (done: bool, s: Storage)
    ensures done && exists x :: x in s.trace && Partial(x, s.initialBlocks, s.initialRows) && !x.marker
  {
    s := new Storage(true, RefusesAll, false, {(0, 1), (1, 1)}, {}, false, 0);
    var r := new Request(true, s, 0);
    done := r.DeleteBlobOnce(s);
    RecoverableIffAccepted(r, s);
  }

  /** With its tree gone, a mapped blob's deletion never reports that it is finished. */
  method GoneTreeNeverFinishes(blocks: set<Block>, grace: nat, most: nat) returns (done: bool)
    ensures !done
  {
    var s := new Storage(false, RefusesAll, true, blocks, {}, false, 0);
    var r := new Request(true, s, grace);
    done := r.Attempts(s, most);
  }
}
