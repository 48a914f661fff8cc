/**
 The sweep that empties a drive's bucket, page by page and batch by batch, for one worker whose lease may
 be lost and whose calls may fail at any point.
 */
module Sweep {
  import opened Listing
  import Protocol = LeaseProtocol
  import opened Options
  import opened Sets
  import opened Text

  datatype Renewal = Kept | Lost | RenewFailed

  datatype FetchAnswer = SameBucket | OtherBucket | FetchFailed

  datatype BucketAnswer = BucketDeleted | BucketReplaced | DeleteFailed

  datatype Outcome = Done(deleted: nat) | LeaseLost(deleted: nat) | Stale | Denied | SweepFailed

  /** User keys start with a slash; the other key spaces belong to the bucket's teardown. */
  predicate IsUserKey(k: string) {
    "/" <= k
  }

  function UserKeys(keys: set<string>): set<string> {
    set k | k in keys && IsUserKey(k)
  }

  /** The teardown's keys start with an at sign and stay; no key left to delete means none starts with a slash. */
  lemma KeySpaces(before: set<string>, after: set<string>)
    requires before - UserKeys(before) == after - UserKeys(after)
    ensures forall k | k in before && k != "" && k[0] == '@' :: k in after
    ensures UserKeys(after) == {} ==> forall k | k in after :: k == "" || k[0] != '/'
  {
    forall k | k in before && k != "" && k[0] == '@'
      ensures k in after
    {
      assert k in before - UserKeys(before);
    }
    forall k | k in after && k != "" && k[0] == '/'
      ensures k in UserKeys(after)
    {
      assert "/" <= k;
    }
  }

  /** The name of an upload part of an object. */
  predicate IsPartOf(whole: string, k: string) {
    whole + "#" <= k
  }

  ghost predicate NoParts(keys: set<string>) {
    forall a, b | a in keys && b in keys :: !IsPartOf(a, b)
  }

  /** What may have gone once `deleted` were asked for: those, and parts of theirs. */
  ghost predicate OnlyGone(before: set<string>, after: set<string>, deleted: set<string>) {
    && after <= before
    && forall k | k in before - after :: k in deleted || exists d :: d in deleted && IsPartOf(d, k)
  }

  lemma OnlyGoneGrows(before: set<string>, mid: set<string>, after: set<string>, d: set<string>, d': set<string>)
    requires OnlyGone(before, mid, d) && OnlyGone(mid, after, d')
    ensures OnlyGone(before, after, d + d')
  {
    forall k | k in before - after
      ensures k in d + d' || exists x :: x in d + d' && IsPartOf(x, k)
    {
      if k in mid {
        assert k in mid - after;
      } else {
        assert k in before - mid;
      }
    }
  }

  lemma OnlyGoneWider(before: set<string>, after: set<string>, d: set<string>, d': set<string>)
    requires OnlyGone(before, after, d) && d <= d'
    ensures OnlyGone(before, after, d')
  {
  }

  /** Parts of user keys are user keys, so the other key spaces are left alone. */
  lemma OthersStay(before: set<string>, after: set<string>, deleted: set<string>)
    requires OnlyGone(before, after, deleted) && forall d | d in deleted :: IsUserKey(d)
    ensures before - UserKeys(before) == after - UserKeys(after)
  {
    forall k | k in before - after
      ensures IsUserKey(k)
    {
      if k !in deleted {
        var d :| d in deleted && IsPartOf(d, k);
        assert d <= k;
      }
    }
  }

  function Elements(keys: seq<string>): set<string> {
    set k | k in keys
  }

  lemma {:induction false} ElementsSize(keys: seq<string>)
    ensures |Elements(keys)| <= |keys|
  {
    if keys == [] {
    } else {
      var front := keys[..|keys| - 1];
      ElementsSize(front);
      assert keys == front + [keys[|keys| - 1]];
      assert Elements(keys) == Elements(front) + {keys[|keys| - 1]};
    }
  }

  /**
   What one sweep works on: the keys of the drive's bucket incarnation, which incarnation the bucket's name
   stands for, and the drive's record.  The answers are not the worker's to choose; what went against the
   sweep is counted, and what the last lease renewal and the last authorization still cover is kept track of.
   */
  class Remote {
    var keys: set<string>
    var live: Option<nat>
    var recorded: bool
    ghost var failures: nat
    ghost var refusals: nat
    ghost var losses: nat
    ghost var mismatches: nat
    ghost var fetched: bool
    ghost var connected: bool
    ghost var leaseCovers: nat
    ghost var ownerCovers: nat

    /** A kept lease covers one batch. */
    method Renew() returns (renewal: Renewal)
      modifies this`failures, this`losses, this`leaseCovers
      ensures leaseCovers == if renewal.Kept? then Protocol.BATCH else old(leaseCovers)
      ensures failures == old(failures) + (if renewal.RenewFailed? then 1 else 0)
      ensures losses == old(losses) + (if renewal.Lost? then 1 else 0)
    {
      renewal := *;
      match renewal
      case Kept => leaseCovers := Protocol.BATCH;
      case Lost => losses := losses + 1;
      case RenewFailed => failures := failures + 1;
    }

    /** A key that still owns the bucket covers one page. */
    method StillAuthorized() returns (yes: bool)
      modifies this`refusals, this`ownerCovers
      ensures ownerCovers == if yes then Protocol.PAGE else old(ownerCovers)
      ensures refusals == old(refusals) + (if yes then 0 else 1)
    {
      yes := *;
      if yes {
        ownerCovers := Protocol.PAGE;
      } else {
        refusals := refusals + 1;
      }
    }

    method CallSucceeds() returns (yes: bool)
      modifies this`failures
      ensures failures == old(failures) + (if yes then 0 else 1)
    {
      yes := *;
      if !yes {
        failures := failures + 1;
      }
    }

    /** Is the bucket of that name, if there is one, the incarnation `root`? */
    method FetchBucket(root: nat) returns (answer: FetchAnswer)
      modifies this`failures, this`mismatches, this`fetched
      ensures answer.SameBucket? ==> fetched && live == Some(root)
      ensures answer.OtherBucket? ==> live != Some(root)
      ensures failures == old(failures) + (if answer.FetchFailed? then 1 else 0)
      ensures mismatches == old(mismatches) + (if answer.OtherBucket? then 1 else 0)
    {
      var ok := CallSucceeds();
      if !ok {
        return FetchFailed;
      }
      if live != Some(root) {
        mismatches := mismatches + 1;
        return OtherBucket;
      }
      fetched := true;
      return SameBucket;
    }

    /** The first contact with the name store of a bucket. */
    method Connect() returns (ok: bool)
      requires fetched
      modifies this`failures, this`connected
      ensures ok ==> connected
      ensures failures == old(failures) + (if ok then 0 else 1)
    {
      ok := CallSucceeds();
      if ok {
        connected := true;
      }
    }

    /** A page of user keys, right after an authorization. */
    method List(startAfter: string) returns (ok: bool, page: seq<string>, hasMore: bool)
      requires connected && ownerCovers == Protocol.PAGE
      modifies this`failures
      ensures ok ==> IsPage(UserKeys(keys), startAfter, Protocol.PAGE, page, hasMore)
      ensures failures == old(failures) + (if ok then 0 else 1)
    {
      ok := CallSucceeds();
      page, hasMore := ListPage(UserKeys(keys), startAfter, Protocol.PAGE);
    }

    /** Deleting an absent key succeeds, and leftover parts of the object may go with it. */
    method Delete(key: string) returns (ok: bool)
      requires leaseCovers > 0 && ownerCovers > 0
      modifies this`keys, this`failures, this`leaseCovers, this`ownerCovers
      ensures OnlyGone(old(keys), keys, {key})
      ensures ok ==> key !in keys
      ensures failures == old(failures) + (if ok then 0 else 1)
      ensures leaseCovers == old(leaseCovers) - 1 && ownerCovers == old(ownerCovers) - 1
    {
      leaseCovers, ownerCovers := leaseCovers - 1, ownerCovers - 1;
      ok := CallSucceeds();
      var applied: bool := *;
      if ok || applied {
        keys := keys - {key};
      }
      var spared: set<string> :| true;
      keys := keys - set k | k in keys && IsPartOf(key, k) && k !in spared;
    }

    /**
     The fenced delete of the bucket, right after an authorization and a renewal; by then the name may
     have been given to another incarnation.  A call that fails may have taken effect.
     */
    method DeleteBucket(root: nat) returns (answer: BucketAnswer)
      requires leaseCovers == Protocol.BATCH && ownerCovers == Protocol.PAGE && UserKeys(keys) == {}
      modifies this`live, this`failures, this`mismatches
      ensures answer.BucketDeleted? ==> live == None
      ensures answer.BucketReplaced? ==> live != Some(root)
      ensures old(live) != Some(root) ==> live != Some(root)
      ensures failures == old(failures) + (if answer.DeleteFailed? then 1 else 0)
      ensures mismatches == old(mismatches) + (if answer.BucketReplaced? then 1 else 0)
    {
      var replacement: Option<nat> := *;
      if replacement.Some? && replacement != Some(root) {
        live := replacement;
      }
      var same := live == Some(root);
      var ok := CallSucceeds();
      var applied: bool := *;
      if same && (ok || applied) {
        live := None;
      }
      if !ok {
        return DeleteFailed;
      }
      if !same {
        mismatches := mismatches + 1;
        return BucketReplaced;
      }
      return BucketDeleted;
    }

    /** The record goes, unless the drop fails; a drop that fails may have taken effect. */
    method DropRecord(root: nat) returns (ok: bool)
      requires live != Some(root)
      modifies this`recorded, this`failures
      ensures ok ==> !recorded
      ensures failures == old(failures) + (if ok then 0 else 1)
    {
      ok := CallSucceeds();
      var applied: bool := *;
      if ok || applied {
        recorded := false;
      }
    }
  }

  /** A renewal in the middle of a batch, if it is time for one; a lost lease is not renewed again. */
  method RenewIfDue(r: Remote, held: bool) returns (ok: bool, kept: bool)
    modifies r`failures, r`losses, r`leaseCovers
    ensures ok <==> r.failures == old(r.failures)
    ensures kept <==> held && r.losses == old(r.losses)
    ensures r.failures >= old(r.failures) && r.losses >= old(r.losses)
    ensures r.leaseCovers == old(r.leaseCovers) || r.leaseCovers == Protocol.BATCH
  {
    ok, kept := true, held;
    var due: bool := *;
    if held && due {
      var renewal := r.Renew();
      ok, kept := !renewal.RenewFailed?, !renewal.Lost?;
    }
  }

  /** The batch runs on while the lease is renewed; once lost, what is left of it is still carried out. */
  method DeleteBatch(r: Remote, batch: seq<string>) returns (ok: bool, kept: bool)
    requires |batch| <= r.leaseCovers && |batch| <= r.ownerCovers && |batch| <= Protocol.BATCH
    modifies r`keys, r`failures, r`losses, r`leaseCovers, r`ownerCovers
    ensures OnlyGone(old(r.keys), r.keys, Elements(batch))
    ensures ok ==> forall k | k in batch :: k !in r.keys
    ensures ok <==> r.failures == old(r.failures)
    ensures kept <==> r.losses == old(r.losses)
    ensures r.failures >= old(r.failures) && r.losses >= old(r.losses)
    ensures r.ownerCovers >= old(r.ownerCovers) - |batch|
  {
    var all := Elements(batch);
    ElementsSize(batch);
    var todo := all;
    ok, kept := true, true;
    while todo != {}
      invariant todo <= all && OnlyGone(old(r.keys), r.keys, all - todo)
      invariant ok ==> forall k | k in all - todo :: k !in r.keys
      invariant ok <==> r.failures == old(r.failures)
      invariant kept <==> r.losses == old(r.losses)
      invariant r.failures >= old(r.failures) && r.losses >= old(r.losses)
      invariant |todo| <= r.leaseCovers && |todo| <= Protocol.BATCH
      invariant r.ownerCovers == old(r.ownerCovers) - (|all| - |todo|)
    {
      var renewed: bool;
      renewed, kept := RenewIfDue(r, kept);
      if !renewed {
        OnlyGoneWider(old(r.keys), r.keys, all - todo, all);
        return false, kept;
      }
      var k :| k in todo;
      ghost var mid := r.keys;
      var deleted := r.Delete(k);
      OnlyGoneGrows(old(r.keys), mid, r.keys, all - todo, {k});
      assert (all - todo) + {k} == all - (todo - {k});
      todo := todo - {k};
      ok := ok && deleted;
    }
    assert all - todo == all;
    var renewed: bool;
    renewed, kept := RenewIfDue(r, kept);
    ok := ok && renewed;
  }

  lemma ElementsSplit(keys: seq<string>, i: nat, j: nat)
    requires i <= j <= |keys|
    ensures Elements(keys[..i]) + Elements(keys[i..j]) == Elements(keys[..j])
  {
    assert keys[..j] == keys[..i] + keys[i..j];
  }

  lemma {:induction false} RisingCount(keys: seq<string>)
    requires Rising(keys)
    ensures |Elements(keys)| == |keys|
  {
    if keys == [] {
    } else {
      var last, front := keys[|keys| - 1], keys[..|keys| - 1];
      RisingCount(front);
      assert keys == front + [last];
      forall i | 0 <= i < |front|
        ensures front[i] != last
      {
        LessIrreflexive(last);
      }
      assert Elements(keys) == Elements(front) + {last};
    }
  }

  /** A page's batches, one after another; `swept` keys of it were seen to go. */
  method SweepPage(r: Remote, page: seq<string>) returns (renewal: Renewal, swept: nat)
    requires |page| <= r.ownerCovers
    modifies r`keys, r`failures, r`losses, r`leaseCovers, r`ownerCovers
    ensures swept <= |page| && (renewal.Kept? ==> swept == |page|) && (page == [] ==> renewal.Kept?)
    ensures renewal.RenewFailed? ==> OnlyGone(old(r.keys), r.keys, Elements(page))
    ensures !renewal.RenewFailed? ==> OnlyGone(old(r.keys), r.keys, Elements(page[..swept]))
    ensures !renewal.RenewFailed? ==> forall k | k in page[..swept] :: k !in r.keys
    ensures renewal.RenewFailed? <==> r.failures != old(r.failures)
    ensures renewal.Lost? <==> r.losses != old(r.losses) && r.failures == old(r.failures)
    ensures r.failures >= old(r.failures) && r.losses >= old(r.losses)
  {
    swept := 0;
    while swept < |page|
      invariant swept <= |page| && OnlyGone(old(r.keys), r.keys, Elements(page[..swept]))
      invariant forall k | k in page[..swept] :: k !in r.keys
      invariant r.failures == old(r.failures) && r.losses == old(r.losses)
      invariant |page| - swept <= r.ownerCovers
    {
      renewal := r.Renew();
      if !renewal.Kept? {
        OnlyGoneWider(old(r.keys), r.keys, Elements(page[..swept]), Elements(page));
        return;
      }
      var next := if swept + Protocol.BATCH <= |page| then swept + Protocol.BATCH else |page|;
      ghost var mid := r.keys;
      var ok, kept := DeleteBatch(r, page[swept..next]);
      OnlyGoneGrows(old(r.keys), mid, r.keys, Elements(page[..swept]), Elements(page[swept..next]));
      ElementsSplit(page, swept, next);
      if !ok {
        OnlyGoneWider(old(r.keys), r.keys, Elements(page[..next]), Elements(page));
        return RenewFailed, swept;
      }
      assert page[..next] == page[..swept] + page[swept..next];
      swept := next;
      if !kept {
        return Lost, swept;
      }
    }
    return Kept, swept;
  }

  /** The keys counted so far, and what else may have gone with them. */
  ghost predicate Tally(initial: set<string>, keys: set<string>, counted: set<string>, deleted: nat) {
    && |counted| == deleted
    && counted <= UserKeys(initial) - keys
    && OnlyGone(initial, keys, counted)
  }

  /** The keys that went; parts of another may be missing. */
  ghost predicate Counts(initial: set<string>, keys: set<string>, deleted: nat) {
    && deleted <= |initial - keys|
    && (NoParts(UserKeys(initial)) ==> deleted == |initial - keys|)
  }

  /** The count is what went, up to parts that went along with their object. */
  lemma TallyCounts(initial: set<string>, keys: set<string>, counted: set<string>, deleted: nat)
    requires Tally(initial, keys, counted, deleted)
    ensures keys <= initial && initial - UserKeys(initial) == keys - UserKeys(keys)
    ensures Counts(initial, keys, deleted)
  {
    OthersStay(initial, keys, counted);
    SubsetSize(counted, initial - keys);
    if NoParts(UserKeys(initial)) {
      forall k | k in initial - keys
        ensures k in counted
      {
        assert k in UserKeys(initial);
        assert forall d | d in counted :: !IsPartOf(d, k);
      }
      assert counted == initial - keys;
    }
  }

  lemma TallyPage(initial: set<string>, mid: set<string>, after: set<string>, counted: set<string>, deleted: nat,
                  page: seq<string>)
    requires Tally(initial, mid, counted, deleted) && OnlyGone(mid, after, Elements(page))
    requires Rising(page) && forall k | k in page :: k in UserKeys(mid) && k !in after
    ensures Tally(initial, after, counted + Elements(page), deleted + |page|)
  {
    OnlyGoneGrows(initial, mid, after, counted, Elements(page));
    RisingCount(page);
    assert counted !! Elements(page);
  }

  /** What a page that was swept up to some key means for the count and for the cursor. */
  lemma AfterPage(initial: set<string>, mid: set<string>, after: set<string>, counted: set<string>, deleted: nat,
                  cursor: string, page: seq<string>, hasMore: bool, swept: nat)
    requires Tally(initial, mid, counted, deleted) && forall k | k in UserKeys(mid) :: Less(cursor, k)
    requires IsPage(UserKeys(mid), cursor, Protocol.PAGE, page, hasMore) && page != [] && swept <= |page|
    requires OnlyGone(mid, after, Elements(page[..swept])) && forall k | k in page[..swept] :: k !in after
    ensures Tally(initial, after, counted + Elements(page[..swept]), deleted + swept)
    ensures swept == |page| ==> |UserKeys(after)| < |UserKeys(mid)|
    ensures swept == |page| ==> forall k | k in UserKeys(after) :: Less(page[|page| - 1], k)
  {
    forall k | k in page[..swept]
      ensures k in UserKeys(mid)
    {
      assert k in page && Beyond(UserKeys(mid), cursor, k);
    }
    TallyPage(initial, mid, after, counted, deleted, page[..swept]);
    if swept == |page| {
      assert page[..swept] == page;
      PageGone(UserKeys(mid), UserKeys(after), cursor, Protocol.PAGE, page, hasMore);
    }
  }

  lemma EmptyPageIsLast(keys: set<string>, cursor: string, limit: nat, hasMore: bool)
    requires IsPage(keys, cursor, limit, [], hasMore) && forall k | k in keys :: Less(cursor, k)
    ensures keys == {}
  {
    assert forall k | k in keys :: Beyond(keys, cursor, k);
  }

  /** One page: authorize, list, sweep. */
  method SweepNext(r: Remote, startAfter: string)
    returns (renewal: Option<Renewal>, page: seq<string>, hasMore: bool, swept: nat)
    requires r.connected
    modifies r`keys, r`failures, r`refusals, r`losses, r`leaseCovers, r`ownerCovers
    ensures renewal.None? <==> r.refusals != old(r.refusals)
    ensures renewal == Some(RenewFailed) <==> r.failures != old(r.failures)
    ensures renewal == Some(Lost) <==> r.losses != old(r.losses) && r.failures == old(r.failures)
    ensures r.failures >= old(r.failures) && r.refusals >= old(r.refusals) && r.losses >= old(r.losses)
    ensures swept <= |page| && (renewal == Some(Kept) ==> swept == |page|) && (renewal == Some(Lost) ==> page != [])
    ensures renewal == Some(Kept) || renewal == Some(Lost) ==>
              && IsPage(old(UserKeys(r.keys)), startAfter, Protocol.PAGE, page, hasMore)
              && OnlyGone(old(r.keys), r.keys, Elements(page[..swept]))
              && (forall k | k in page[..swept] :: k !in r.keys)
    ensures r.keys <= old(r.keys) && old(r.keys - UserKeys(r.keys)) == r.keys - UserKeys(r.keys)
  {
    page, hasMore, swept := [], false, 0;
    var authorized := r.StillAuthorized();
    if !authorized {
      return None, page, hasMore, swept;
    }
    var listed: bool;
    listed, page, hasMore := r.List(startAfter);
    if !listed {
      return Some(RenewFailed), page, hasMore, swept;
    }
    var kept: Renewal;
    kept, swept := SweepPage(r, page);
    OnlyGoneWider(old(r.keys), r.keys, if kept.RenewFailed? then Elements(page) else Elements(page[..swept]),
                  Elements(page));
    forall k | k in Elements(page)
      ensures IsUserKey(k)
    {
      assert k in page && Beyond(old(UserKeys(r.keys)), startAfter, k);
    }
    OthersStay(old(r.keys), r.keys, Elements(page));
    return Some(kept), page, hasMore, swept;
  }

  /** The loop over the pages: none left, or how it was cut short. */
  method SweepPages(r: Remote) returns (cut: Option<Outcome>, deleted: nat)
    requires r.connected
    modifies r`keys, r`failures, r`refusals, r`losses, r`leaseCovers, r`ownerCovers
    ensures r.keys <= old(r.keys)
    ensures old(r.keys - UserKeys(r.keys)) == r.keys - UserKeys(r.keys)
    ensures cut.None? ==> UserKeys(r.keys) == {}
    ensures cut.None? || cut == Some(LeaseLost(deleted)) ==> Counts(old(r.keys), r.keys, deleted)
    ensures cut.None? <==>
              r.failures == old(r.failures) && r.refusals == old(r.refusals) && r.losses == old(r.losses)
    ensures cut == Some(Denied) <==> r.refusals != old(r.refusals)
    ensures cut == Some(SweepFailed) <==> r.failures != old(r.failures)
    ensures cut == Some(LeaseLost(deleted)) <==> r.losses != old(r.losses) && r.failures == old(r.failures)
    ensures r.failures >= old(r.failures) && r.refusals >= old(r.refusals) && r.losses >= old(r.losses)
  {
    deleted := 0;
    var startAfter := "";
    ghost var counted: set<string> := {};
    while true
      invariant Tally(old(r.keys), r.keys, counted, deleted)
      invariant forall k | k in UserKeys(r.keys) :: Less(startAfter, k)
      invariant r.failures == old(r.failures) && r.refusals == old(r.refusals) && r.losses == old(r.losses)
      decreases |UserKeys(r.keys)|
    {
      TallyCounts(old(r.keys), r.keys, counted, deleted);
      ghost var mid := r.keys;
      var renewal, page, hasMore, swept := SweepNext(r, startAfter);
      if renewal.None? || renewal.value.RenewFailed? {
        return Some(if renewal.None? then Denied else SweepFailed), deleted;
      }
      if page == [] {
        assert r.keys == mid;
        EmptyPageIsLast(UserKeys(r.keys), startAfter, Protocol.PAGE, hasMore);
        return None, deleted;
      }
      AfterPage(old(r.keys), mid, r.keys, counted, deleted, startAfter, page, hasMore, swept);
      counted, deleted := counted + Elements(page[..swept]), deleted + swept;
      if renewal.value.Lost? {
        TallyCounts(old(r.keys), r.keys, counted, deleted);
        return Some(LeaseLost(deleted)), deleted;
      }
      startAfter := page[|page| - 1];
    }
  }

  /** A record whose bucket is gone is dropped. */
  method DropStale(r: Remote, root: nat, dropped: Outcome) returns (outcome: Outcome)
    requires r.live != Some(root)
    modifies r`recorded, r`failures
    ensures outcome == if r.failures == old(r.failures) then dropped else SweepFailed
    ensures outcome == dropped && !dropped.SweepFailed? ==> !r.recorded
    ensures r.failures >= old(r.failures)
  {
    var ok := r.DropRecord(root);
    outcome := if ok then dropped else SweepFailed;
  }

  /** The final fence: still authorized, still the lease holder, and only the incarnation the record names. */
  method DeleteSwept(r: Remote, root: nat, deleted: nat) returns (outcome: Outcome)
    requires UserKeys(r.keys) == {}
    modifies r`live, r`recorded, r`failures, r`refusals, r`losses, r`mismatches, r`leaseCovers, r`ownerCovers
    ensures outcome == Done(deleted) || outcome == LeaseLost(deleted) || !(outcome.Done? || outcome.LeaseLost?)
    ensures outcome.Done? <==> && r.failures == old(r.failures) && r.refusals == old(r.refusals)
                               && r.losses == old(r.losses) && r.mismatches == old(r.mismatches)
    ensures outcome.SweepFailed? <==> r.failures != old(r.failures)
    ensures outcome.Denied? <==> r.refusals != old(r.refusals)
    ensures outcome.LeaseLost? <==> r.losses != old(r.losses) && r.failures == old(r.failures)
    ensures outcome.Stale? <==> r.mismatches != old(r.mismatches) && r.failures == old(r.failures)
    ensures outcome.Done? || outcome.Stale? ==> r.live != Some(root) && !r.recorded
    ensures old(r.recorded) && !r.recorded ==> r.live != Some(root)
    ensures outcome.LeaseLost? || outcome.Denied? ==> r.live == old(r.live) && r.recorded == old(r.recorded)
    ensures old(r.live) != Some(root) ==> r.live != Some(root)
    ensures r.failures >= old(r.failures) && r.refusals >= old(r.refusals)
    ensures r.losses >= old(r.losses) && r.mismatches >= old(r.mismatches)
  {
    var authorized := r.StillAuthorized();
    if !authorized {
      return Denied;
    }
    var renewal := r.Renew();
    if !renewal.Kept? {
      return if renewal.Lost? then LeaseLost(deleted) else SweepFailed;
    }
    var answer := r.DeleteBucket(root);
    match answer
    case BucketDeleted => outcome := DropStale(r, root, Done(deleted));
    case BucketReplaced => outcome := DropStale(r, root, Stale);
    case DeleteFailed => outcome := SweepFailed;
  }

  /** The whole sweep of the bucket incarnation a drive's record names. */
  method SweepBucket(r: Remote, root: nat) returns (outcome: Outcome)
    modifies r
    ensures r.keys <= old(r.keys)
    ensures old(r.keys - UserKeys(r.keys)) == r.keys - UserKeys(r.keys)
    ensures outcome.Done? ==> UserKeys(r.keys) == {}
    ensures outcome.Done? ==> forall k | k in r.keys :: k == "" || k[0] != '/'
    ensures forall k | k in old(r.keys) && k != "" && k[0] == '@' :: k in r.keys
    ensures outcome.Done? || outcome.LeaseLost? ==> Counts(old(r.keys), r.keys, outcome.deleted)
    // Exactly when the sweep ends how.
    ensures outcome.Done? <==> && r.failures == old(r.failures) && r.refusals == old(r.refusals)
                               && r.losses == old(r.losses) && r.mismatches == old(r.mismatches)
    ensures outcome.SweepFailed? <==> r.failures != old(r.failures)
    ensures outcome.Denied? <==> r.refusals != old(r.refusals)
    ensures outcome.LeaseLost? <==> r.losses != old(r.losses) && r.failures == old(r.failures)
    ensures outcome.Stale? <==> r.mismatches != old(r.mismatches) && r.failures == old(r.failures)
    // The record goes last.
    ensures outcome.Done? || outcome.Stale? ==> r.live != Some(root) && !r.recorded
    ensures old(r.recorded) && !r.recorded ==> r.live != Some(root)
    ensures outcome.LeaseLost? || outcome.Denied? ==> r.live == old(r.live) && r.recorded == old(r.recorded)
    ensures old(r.live) != Some(root) ==> r.live != Some(root)
    ensures r.failures >= old(r.failures) && r.refusals >= old(r.refusals)
    ensures r.losses >= old(r.losses) && r.mismatches >= old(r.mismatches)
  {
    var bucket := r.FetchBucket(root);
    if bucket.FetchFailed? {
      return SweepFailed;
    }
    if bucket.OtherBucket? {
      outcome := DropStale(r, root, Stale);
      return;
    }
    var connected := r.Connect();
    if !connected {
      return SweepFailed;
    }
    var cut, deleted := SweepPages(r);
    KeySpaces(old(r.keys), r.keys);
    if cut.Some? {
      return cut.value;
    }
    outcome := DeleteSwept(r, root, deleted);
  }

  lemma NoPartsIn(keys: set<string>, fewer: set<string>)
    requires NoParts(keys) && fewer <= keys
    ensures NoParts(fewer)
  {
  }

  lemma CountsAdd(initial: set<string>, mid: set<string>, keys: set<string>, total: nat, deleted: nat)
    requires keys <= mid <= initial && total <= |initial - mid| && Counts(mid, keys, deleted)
    ensures total + deleted <= |initial - keys|
    ensures Counts(initial, mid, total) ==> Counts(initial, keys, total + deleted)
  {
    assert initial - keys == (initial - mid) + (mid - keys);
    if NoParts(UserKeys(initial)) {
      NoPartsIn(UserKeys(initial), UserKeys(mid));
    }
  }

  /**
   Sweeps that were cut short are picked up by later ones, and no key is counted twice; if none of them
   ended in an error and no key is a part of another, every key is counted.
   */
  method SweepAgain(r: Remote, root: nat, most: nat) returns (last: Option<Outcome>, uncounted: bool, total: nat)
    modifies r
    ensures old(r.keys - UserKeys(r.keys)) == r.keys - UserKeys(r.keys)
    ensures last.Some? && last.value.Done? ==> UserKeys(r.keys) == {}
    ensures last.Some? && (last.value.Done? || last.value.Stale?) ==> r.live != Some(root) && !r.recorded
    ensures r.keys <= old(r.keys) && total <= |old(r.keys) - r.keys|
    ensures !uncounted ==> Counts(old(r.keys), r.keys, total)
    ensures uncounted ==> r.failures != old(r.failures) || r.refusals != old(r.refusals)
                          || r.mismatches != old(r.mismatches)
    ensures old(r.recorded) && !r.recorded ==> r.live != Some(root)
    ensures most > 0 ==> last.Some?
    ensures most > 0 && r.failures == old(r.failures) && r.refusals == old(r.refusals) && r.losses == old(r.losses) ==>
              if r.mismatches == old(r.mismatches) then last == Some(Done(total)) else last == Some(Stale)
  {
    last, uncounted, total := None, false, 0;
    var made := 0;
    while made < most && (last.None? || !(last.value.Done? || last.value.Stale?))
      invariant old(r.keys - UserKeys(r.keys)) == r.keys - UserKeys(r.keys)
      invariant last.Some? && last.value.Done? ==> UserKeys(r.keys) == {}
      invariant last.Some? && (last.value.Done? || last.value.Stale?) ==> r.live != Some(root) && !r.recorded
      invariant r.keys <= old(r.keys) && total <= |old(r.keys) - r.keys|
      invariant !uncounted ==> Counts(old(r.keys), r.keys, total)
      invariant r.failures >= old(r.failures) && r.refusals >= old(r.refusals) && r.mismatches >= old(r.mismatches)
      invariant uncounted ==> r.failures != old(r.failures) || r.refusals != old(r.refusals)
                              || r.mismatches != old(r.mismatches)
      invariant r.losses >= old(r.losses) && (made > 0 <==> last.Some?)
      invariant made == 0 ==> && r.failures == old(r.failures) && r.refusals == old(r.refusals)
                              && r.losses == old(r.losses) && r.mismatches == old(r.mismatches) && total == 0
      invariant made > 0 && r.failures == old(r.failures) && r.refusals == old(r.refusals)
                && r.losses == old(r.losses) ==>
                  if r.mismatches == old(r.mismatches) then last == Some(Done(total)) else last == Some(Stale)
      invariant old(r.live) != Some(root) ==> r.live != Some(root)
      invariant old(r.recorded) && !r.recorded ==> r.live != Some(root)
    {
      ghost var mid := r.keys;
      var outcome := SweepBucket(r, root);
      SubsetSize(old(r.keys) - mid, old(r.keys) - r.keys);
      if outcome.Done? || outcome.LeaseLost? {
        CountsAdd(old(r.keys), mid, r.keys, total, outcome.deleted);
        total := total + outcome.deleted;
      } else {
        uncounted := true;
      }
      last, made := Some(outcome), made + 1;
    }
  }
}
