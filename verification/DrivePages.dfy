/** Listing drives page by page: what one request answers, and what following its cursor yields. */
module DrivePages {
  import opened Options
  import opened Text

  const DEFAULT_LIMIT: nat := 50
  const MAX_LIMIT: nat := 200

  datatype Entry = Entry(name: string, id: string, bucketRoot: string)

  ghost predicate Distinct(drives: seq<Entry>) {
    forall i, j | 0 <= i < j < |drives| :: drives[i].name != drives[j].name
  }

  datatype Page = Page(data: seq<Entry>, hasMore: bool, nextCursor: Option<string>)

  /** The store behind the listing: the records, the buckets by name, and what the caller may read. */
  datatype Catalog = Catalog(drives: seq<Entry>, roots: map<string, string>, readable: set<string>) {
    /** There is one record per name. */
    ghost predicate Valid() {
      Distinct(drives)
    }

    /** The record's bucket is there, in the incarnation it names, and the caller may read it. */
    predicate Shows(d: Entry) {
      d.name in roots && roots[d.name] == d.bucketRoot && d.name in readable
    }
  }

  function Retained(c: Catalog, drives: seq<Entry>): seq<Entry> {
    if drives == [] then []
    else if c.Shows(drives[0]) then [drives[0]] + Retained(c, drives[1..])
    else Retained(c, drives[1..])
  }

  /** Equal names keep their order. */
  function Insert(d: Entry, sorted: seq<Entry>): seq<Entry> {
    if sorted == [] || !Less(sorted[0].name, d.name) then [d] + sorted
    else [sorted[0]] + Insert(d, sorted[1..])
  }

  function Sorted(drives: seq<Entry>): seq<Entry> {
    if drives == [] then [] else Insert(drives[0], Sorted(drives[1..]))
  }

  function Beyond(drives: seq<Entry>, cursor: string): seq<Entry> {
    if drives == [] then []
    else if Less(cursor, drives[0].name) then [drives[0]] + Beyond(drives[1..], cursor)
    else Beyond(drives[1..], cursor)
  }

  function Limit(asked: Option<nat>): nat {
    var n := if asked.Some? then asked.value else DEFAULT_LIMIT;
    if n < 1 then 1 else if n > MAX_LIMIT then MAX_LIMIT else n
  }

  /** A limit within the bounds is taken as asked for, any other is moved to the nearer bound. */
  lemma LimitIsAsAsked(asked: Option<nat>)
    ensures 1 <= Limit(asked) <= MAX_LIMIT
    ensures asked.None? ==> Limit(asked) == DEFAULT_LIMIT
    ensures asked.Some? ==>
              forall n | 1 <= n <= MAX_LIMIT :: Distance(Limit(asked), asked.value) <= Distance(n, asked.value)
  {
  }

  function Distance(a: nat, b: nat): nat {
    if a < b then b - a else a - b
  }

  function ListDrives(c: Catalog, cursor: Option<string>, limit: Option<nat>): Page {
    var visible := Sorted(Retained(c, c.drives));
    var rest := if cursor.Some? then Beyond(visible, cursor.value) else visible;
    Cut(rest, Limit(limit))
  }

  /** A page holds no more than the limit and says whether something was cut off. */
  function Cut(rest: seq<Entry>, n: nat): Page
    requires n > 0
  {
    var data := if |rest| > n then rest[..n] else rest;
    Page(data, |rest| > n, if |rest| > n then Some(data[n - 1].name) else None)
  }

  // ---------------------------------------------------------------- the listing, said without the algorithm

  ghost predicate InNameOrder(drives: seq<Entry>) {
    forall i, j | 0 <= i < j < |drives| :: Less(drives[i].name, drives[j].name)
  }

  /** The drives the caller may see: a bucket of that name and root exists, and they may read it. */
  ghost predicate MaySee(c: Catalog, d: Entry) {
    d in c.drives && (d.name, d.bucketRoot) in c.roots.Items && d.name in c.readable
  }

  /** Every drive the caller may see, once, in name order. */
  ghost predicate IsListing(c: Catalog, all: seq<Entry>) {
    InNameOrder(all) && forall d :: d in all <==> MaySee(c, d)
  }

  lemma {:induction false} RetainedMembers(c: Catalog, drives: seq<Entry>)
    requires Distinct(drives)
    ensures forall d :: d in Retained(c, drives) <==> d in drives && c.Shows(d)
    ensures Distinct(Retained(c, drives))
  {
    if drives == [] {
    } else {
      assert drives == [drives[0]] + drives[1..];
      RetainedMembers(c, drives[1..]);
      forall d | d in drives[1..]
        ensures d.name != drives[0].name
      {
        var i :| 0 < i < |drives| && drives[i] == d;
      }
    }
  }

  lemma {:induction false} InsertKeepsOrder(d: Entry, sorted: seq<Entry>)
    requires InNameOrder(sorted) && forall e | e in sorted :: e.name != d.name
    ensures InNameOrder(Insert(d, sorted))
    ensures forall e :: e in Insert(d, sorted) <==> e == d || e in sorted
  {
    if sorted == [] {
    } else {
      var head, tail := sorted[0], sorted[1..];
      assert sorted == [head] + tail;
      LessTotal(head.name, d.name);
      if Less(head.name, d.name) {
        InsertKeepsOrder(d, tail);
        LowestFirst(head, Insert(d, tail));
      } else {
        forall e | e in sorted
          ensures Less(d.name, e.name)
        {
          if e != head {
            var i :| 0 < i < |sorted| && sorted[i] == e;
            LessTransitive(d.name, head.name, e.name);
          }
        }
        LowestFirst(d, sorted);
      }
    }
  }

  lemma LowestFirst(d: Entry, drives: seq<Entry>)
    requires InNameOrder(drives) && forall e | e in drives :: Less(d.name, e.name)
    ensures InNameOrder([d] + drives)
  {
  }

  lemma {:induction false} SortedMembers(drives: seq<Entry>)
    requires Distinct(drives)
    ensures InNameOrder(Sorted(drives))
    ensures forall d :: d in Sorted(drives) <==> d in drives
  {
    if drives == [] {
    } else {
      assert drives == [drives[0]] + drives[1..];
      SortedMembers(drives[1..]);
      forall d | d in drives[1..]
        ensures d.name != drives[0].name
      {
        var i :| 0 < i < |drives| && drives[i] == d;
      }
      InsertKeepsOrder(drives[0], Sorted(drives[1..]));
    }
  }

  ghost function Visible(c: Catalog): seq<Entry> {
    Sorted(Retained(c, c.drives))
  }

  lemma VisibleIsListing(c: Catalog)
    requires c.Valid()
    ensures IsListing(c, Visible(c))
  {
    RetainedMembers(c, c.drives);
    SortedMembers(Retained(c, c.drives));
  }

  /** Only one sequence is the listing. */
  lemma {:induction false} OrderIsUnique(a: seq<Entry>, b: seq<Entry>)
    requires InNameOrder(a) && InNameOrder(b) && forall d :: d in a <==> d in b
    ensures a == b
  {
    if a + b == [] {
    } else {
      var d := (a + b)[0];
      assert d in a && d in b;
      assert a[0] in b && b[0] in a;
      SameFirst(a, b);
      TailMembers(a);
      TailMembers(b);
      OrderIsUnique(a[1..], b[1..]);
      assert a == [a[0]] + a[1..] && b == [b[0]] + b[1..];
    }
  }

  lemma SameFirst(a: seq<Entry>, b: seq<Entry>)
    requires a != [] && InNameOrder(a) && InNameOrder(b) && a[0] in b && b != [] && b[0] in a
    ensures a[0] == b[0]
  {
    var i :| 0 <= i < |b| && b[i] == a[0];
    var j :| 0 <= j < |a| && a[j] == b[0];
    if i > 0 && j > 0 {
      LessAsymmetric(b[0].name, a[0].name);
    }
  }

  lemma TailMembers(a: seq<Entry>)
    requires a != [] && InNameOrder(a)
    ensures forall d :: d in a[1..] <==> d in a && d != a[0]
  {
    forall d | d in a[1..]
      ensures d != a[0]
    {
      LessIrreflexive(d.name);
    }
    assert a == [a[0]] + a[1..];
  }

  // ---------------------------------------------------------------- pages

  /** The part of an ordered list beyond a name is a tail of it. */
  lemma {:induction false} BeyondIsTail(drives: seq<Entry>, cursor: string) returns (k: nat)
    requires InNameOrder(drives)
    ensures k <= |drives| && Beyond(drives, cursor) == drives[k..]
    ensures forall i | 0 <= i < |drives| :: i < k <==> !Less(cursor, drives[i].name)
  {
    if drives == [] {
      k := 0;
    } else if Less(cursor, drives[0].name) {
      k := 0;
      forall i | 0 < i < |drives|
        ensures Less(cursor, drives[i].name)
      {
        LessTransitive(cursor, drives[0].name, drives[i].name);
      }
      var rest := BeyondIsTail(drives[1..], cursor);
      assert drives == [drives[0]] + drives[1..];
    } else {
      k := BeyondIsTail(drives[1..], cursor);
      k := k + 1;
      forall i | 0 < i < |drives|
        ensures i < k <==> !Less(cursor, drives[i].name)
      {
        assert drives[i] == drives[1..][i - 1];
      }
    }
  }

  /** The name of the drive before a position is a cursor for exactly what follows. */
  lemma CursorResumes(drives: seq<Entry>, k: nat)
    requires InNameOrder(drives) && 0 < k <= |drives|
    ensures Beyond(drives, drives[k - 1].name) == drives[k..]
  {
    var j := BeyondIsTail(drives, drives[k - 1].name);
    LessIrreflexive(drives[k - 1].name);
    if k < |drives| {
      assert Less(drives[k - 1].name, drives[k].name);
    }
  }

  /** A page is a stretch of the listing, cut off at the limit. */
  ghost predicate IsStretch(all: seq<Entry>, k: nat, n: nat, p: Page) {
    && k <= |all| && n > 0
    && (p.hasMore <==> k + n < |all|)
    && p.data == all[k..if p.hasMore then k + n else |all|]
    && p.nextCursor == if p.hasMore then Some(all[k + n - 1].name) else None
  }

  lemma CutIsStretch(all: seq<Entry>, k: nat, n: nat)
    requires k <= |all| && n > 0
    ensures IsStretch(all, k, n, Cut(all[k..], n))
  {
    if |all[k..]| > n {
      assert all[k..][..n] == all[k..k + n];
    }
  }

  lemma ListsStretch(c: Catalog, cursor: Option<string>, limit: Option<nat>) returns (k: nat)
    requires c.Valid()
    ensures IsStretch(Visible(c), k, Limit(limit), ListDrives(c, cursor, limit))
    ensures forall i | 0 <= i < |Visible(c)| :: i < k <==> cursor.Some? && !Less(cursor.value, Visible(c)[i].name)
  {
    VisibleIsListing(c);
    k := 0;
    if cursor.Some? {
      k := BeyondIsTail(Visible(c), cursor.value);
    }
    assert Visible(c)[0..] == Visible(c);
    CutIsStretch(Visible(c), k, Limit(limit));
  }

  /** The drives the caller may see beyond a cursor. */
  ghost predicate Wanted(c: Catalog, cursor: Option<string>, d: Entry) {
    MaySee(c, d) && (cursor.Some? ==> Less(cursor.value, d.name))
  }

  /** What comes at or after a stretch's start is in it or beyond its end. */
  lemma InStretch(all: seq<Entry>, k: nat, n: nat, p: Page, i: nat)
    requires InNameOrder(all) && IsStretch(all, k, n, p) && k <= i < |all|
    ensures all[i] in p.data || (p.hasMore && Less(p.nextCursor.value, all[i].name))
  {
    if i - k < |p.data| {
      assert p.data[i - k] == all[i];
    }
  }

  /** A page starts right after its cursor, misses nothing, and is full unless it is the last. */
  lemma PageIsExact(c: Catalog, cursor: Option<string>, limit: Option<nat>)
    requires c.Valid()
    ensures var p := ListDrives(c, cursor, limit);
      && InNameOrder(p.data) && |p.data| <= Limit(limit) <= MAX_LIMIT
      && (p.hasMore <==> p.nextCursor.Some?)
      && (limit.Some? && 1 <= limit.value <= MAX_LIMIT && p.hasMore ==> |p.data| == limit.value)
      && (p.hasMore ==> |p.data| == Limit(limit) && p.nextCursor.value == p.data[|p.data| - 1].name)
      && (forall d | d in p.data :: Wanted(c, cursor, d))
      && (forall d | Wanted(c, cursor, d) :: d in p.data || (p.hasMore && Less(p.nextCursor.value, d.name)))
  {
    VisibleIsListing(c);
    var all, p := Visible(c), ListDrives(c, cursor, limit);
    var k := ListsStretch(c, cursor, limit);
    LimitIsAsAsked(limit);
    forall d | Wanted(c, cursor, d)
      ensures d in p.data || (p.hasMore && Less(p.nextCursor.value, d.name))
    {
      var i :| 0 <= i < |all| && all[i] == d;
      InStretch(all, k, Limit(limit), p, i);
    }
  }

  /** The page asked for with the cursor of a position holds what comes next there. */
  lemma PageAt(c: Catalog, limit: Option<nat>, k: nat, cursor: Option<string>)
    requires c.Valid() && k <= |Visible(c)|
    requires cursor == if k == 0 then None else Some(Visible(c)[k - 1].name)
    ensures IsStretch(Visible(c), k, Limit(limit), ListDrives(c, cursor, limit))
  {
    VisibleIsListing(c);
    if k > 0 {
      CursorResumes(Visible(c), k);
    }
    assert Visible(c)[0..] == Visible(c);
    CutIsStretch(Visible(c), k, Limit(limit));
  }

  /** A walk that has come up to a page has gathered the listing up to that page's end. */
  ghost predicate GatheredUpTo(c: Catalog, p: Page, all: seq<Entry>) {
    && all <= Visible(c)
    && (p.hasMore ==> all != [] && p.nextCursor == Some(all[|all| - 1].name))
    && (!p.hasMore ==> all == Visible(c))
  }

  lemma StretchExtends(visible: seq<Entry>, all: seq<Entry>, n: nat, p: Page)
    requires all <= visible && IsStretch(visible, |all|, n, p)
    ensures all + p.data == visible[..if p.hasMore then |all| + n else |visible|]
    ensures p.hasMore ==> p.data != [] && p.nextCursor == Some((all + p.data)[|all + p.data| - 1].name)
  {
    var end := if p.hasMore then |all| + n else |visible|;
    assert all == visible[..|all|];
    assert visible[..|all|] + visible[|all|..end] == visible[..end];
  }

  lemma NextPage(c: Catalog, limit: Option<nat>, p: Page, all: seq<Entry>)
    requires c.Valid() && GatheredUpTo(c, p, all) && p.hasMore
    ensures var next := ListDrives(c, p.nextCursor, limit);
      && GatheredUpTo(c, next, all + next.data)
      && (next.hasMore ==> next.data != [])
  {
    PageAt(c, limit, |all|, p.nextCursor);
    StretchExtends(Visible(c), all, Limit(limit), ListDrives(c, p.nextCursor, limit));
  }

  lemma FirstPage(c: Catalog, limit: Option<nat>)
    requires c.Valid()
    ensures GatheredUpTo(c, ListDrives(c, None, limit), ListDrives(c, None, limit).data)
  {
    PageAt(c, limit, 0, None);
  }

  /** Following the cursor from the start yields the listing, for any limit. */
  method Walk(c: Catalog, limit: Option<nat>) returns (all: seq<Entry>)
    requires c.Valid()
    ensures IsListing(c, all)
  {
    VisibleIsListing(c);
    FirstPage(c, limit);
    var p := ListDrives(c, None, limit);
    all := p.data;
    while p.hasMore
      invariant GatheredUpTo(c, p, all)
      decreases |Visible(c)| - |all|, p.hasMore
    {
      NextPage(c, limit, p, all);
      p := ListDrives(c, p.nextCursor, limit);
      all := all + p.data;
    }
  }
}
