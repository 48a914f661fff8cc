/** Paged listing of the name store: the first keys beyond a cursor, in order. */
module Listing {
  import opened Sets
  import opened Text

  ghost predicate Rising(keys: seq<string>) {
    forall i, j | 0 <= i < j < |keys| :: Less(keys[i], keys[j])
  }

  ghost predicate Beyond(keys: set<string>, cursor: string, k: string) {
    k in keys && Less(cursor, k)
  }

  /** A page holds an initial stretch of the keys beyond the cursor and says truthfully whether more follow. */
  ghost predicate IsPage(keys: set<string>, cursor: string, limit: nat, page: seq<string>, hasMore: bool) {
    && |page| <= limit
    && Rising(page)
    && (forall k | k in page :: Beyond(keys, cursor, k))
    && (page == [] ==> !hasMore && forall k :: !Beyond(keys, cursor, k))
    && (page != [] ==> forall k | Beyond(keys, cursor, k) :: k in page || (hasMore && Less(page[|page| - 1], k)))
  }

  method LeastOf(keys: set<string>) returns (least: string)
    requires keys != {}
    ensures least in keys && forall k | k in keys && k != least :: Less(least, k)
  {
    least :| least in keys;
    var left := keys - {least};
    while left != {}
      invariant left <= keys && least in keys - left
      invariant forall k | k in keys - left && k != least :: Less(least, k)
    {
      var k :| k in left;
      left := left - {k};
      LessTotal(k, least);
      if Less(k, least) {
        LeastMoves(keys - left, least, k);
        least := k;
      }
    }
  }

  lemma LeastMoves(seen: set<string>, least: string, k: string)
    requires Less(k, least) && forall x | x in seen && x != k && x != least :: Less(least, x)
    ensures forall x | x in seen && x != k :: Less(k, x)
  {
    forall x | x in seen && x != k
      ensures Less(k, x)
    {
      if x != least {
        LessTransitive(k, least, x);
      }
    }
  }

  /** The store's answer; it may stop short of the limit as long as it says so. */
  method ListPage(keys: set<string>, cursor: string, limit: nat) returns (page: seq<string>, hasMore: bool)
    requires limit > 0
    ensures IsPage(keys, cursor, limit, page, hasMore)
  {
    var beyond := set k | k in keys && Less(cursor, k);
    var left := beyond;
    var most: nat :| 0 < most <= limit;
    page := [];
    while left != {} && |page| < most
      invariant left <= beyond && |page| <= most && Rising(page)
      invariant forall k | k in beyond :: k in left || k in page
      invariant forall k | k in page :: k in beyond && k !in left
      invariant page == [] ==> left == beyond
      invariant page != [] ==> forall k | k in left :: Less(page[|page| - 1], k)
      decreases left
    {
      var least := LeastOf(left);
      RisingAppend(page, least);
      left := left - {least};
      page := page + [least];
    }
    hasMore := left != {};
    assert forall k :: Beyond(keys, cursor, k) <==> k in beyond;
  }

  lemma RisingAppend(page: seq<string>, k: string)
    requires Rising(page) && (page != [] ==> Less(page[|page| - 1], k))
    ensures Rising(page + [k])
  {
    forall i, j | 0 <= i < j < |page + [k]|
      ensures Less((page + [k])[i], (page + [k])[j])
    {
      if j == |page| && i < |page| - 1 {
        LessTransitive(page[i], page[|page| - 1], k);
      }
    }
  }

  /** Once a page's keys are gone, what is left lies beyond its last key. */
  lemma PageGone(listed: set<string>, left: set<string>, cursor: string, limit: nat, page: seq<string>, hasMore: bool)
    requires IsPage(listed, cursor, limit, page, hasMore) && page != []
    requires forall k | k in listed :: Less(cursor, k)
    requires left <= listed && forall k | k in page :: k !in left
    ensures |left| < |listed|
    ensures forall k | k in left :: Less(page[|page| - 1], k)
    ensures !hasMore ==> left == {}
  {
    assert page[0] in page && Beyond(listed, cursor, page[0]);
    assert left <= listed - {page[0]};
    SubsetSize(left, listed - {page[0]});
    forall k | k in left
      ensures hasMore && Less(page[|page| - 1], k)
    {
      assert Beyond(listed, cursor, k);
    }
  }
}
