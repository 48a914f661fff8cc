/**
 The bootstrap's own stages: the order processes agree on, the key names derived from it, and the
 dependencies stage helpers look up.
 */
module Stages {
  import opened Options
  import opened StageGraph
  import opened Kahn
  import opened Text

  // ---------------------------------------------------------------- who agrees on the order

  ghost predicate IsRoot(stages: seq<StageDef>, x: string) {
    exists s :: s in stages && s.name == x && s.dependsOn == []
  }

  ghost predicate AtMostOneRoot(stages: seq<StageDef>) {
    forall x, y | IsRoot(stages, x) && IsRoot(stages, y) :: x == y
  }

  lemma RootsOfOneRoot(stages: seq<StageDef>, keys: seq<string>)
    requires UniqueNames(stages) && Enumerates(stages, keys) && AtMostOneRoot(stages)
    ensures |Roots(stages, keys)| <= 1
    ensures forall x :: IsRoot(stages, x) <==> x in Roots(stages, keys)
  {
    RootsMembers(stages, keys);
    var roots := Roots(stages, keys);
    forall i | 0 <= i < |roots|
      ensures IsRoot(stages, roots[i])
    {
      assert roots[i] in roots;
    }
    if |roots| > 1 {
      FirstTwoDiffer(roots);
    }
  }

  lemma FirstTwoDiffer(xs: seq<string>)
    requires |xs| > 1 && NoDuplicates(xs)
    ensures xs[0] != xs[1]
  {
  }

  lemma OneRootFixesOrder(stages: seq<StageDef>, keys: seq<string>, keys': seq<string>)
    requires UniqueNames(stages) && Enumerates(stages, keys) && Enumerates(stages, keys') && AtMostOneRoot(stages)
    ensures OrderOf(stages, keys) == OrderOf(stages, keys')
  {
    RootsOfOneRoot(stages, keys);
    RootsOfOneRoot(stages, keys');
    SameShortLists(Roots(stages, keys), Roots(stages, keys'));
  }

  lemma SameShortLists(xs: seq<string>, ys: seq<string>)
    requires |xs| <= 1 && |ys| <= 1 && forall x :: x in xs <==> x in ys
    ensures xs == ys
  {
    if xs != [] {
      assert xs[0] in ys;
    }
    if ys != [] {
      assert ys[0] in xs;
    }
  }

  lemma {:induction false} FirstRootLeads(stages: seq<StageDef>, keys: seq<string>)
    requires keys != [] && IsRoot(stages, keys[0])
    ensures Roots(stages, keys) != [] && Roots(stages, keys)[0] == keys[0]
  {
    if |keys| == 1 {
    } else {
      FirstRootLeads(stages, keys[..|keys| - 1]);
    }
  }

  /** The stage names with `a` moved to the front. */
  ghost function Others(stages: seq<StageDef>, a: string): seq<string> {
    if stages == [] then []
    else
      var s := stages[|stages| - 1];
      Others(stages[..|stages| - 1], a) + (if s.name == a then [] else [s.name])
  }

  lemma {:induction false} OthersMembers(stages: seq<StageDef>, a: string)
    requires UniqueNames(stages)
    ensures forall x :: x in Others(stages, a) <==> x != a && IsName(stages, x)
    ensures NoDuplicates(Others(stages, a))
  {
    if stages == [] {
    } else {
      var n := |stages| - 1;
      PrefixNames(stages, n);
      OthersMembers(stages[..n], a);
      assert stages == stages[..n] + [stages[n]];
      var before := Others(stages[..n], a);
      forall x
        ensures x in Others(stages, a) <==> x != a && IsName(stages, x)
      {
        if IsName(stages, x) && x != stages[n].name {
          var s :| s in stages && s.name == x;
          assert s in stages[..n];
        }
        if x == stages[n].name {
          assert stages[n] in stages;
        }
      }
      forall i | 0 <= i < |before|
        ensures before[i] != stages[n].name
      {
        assert before[i] in before;
      }
    }
  }

  lemma RootLeadsSomeOrder(stages: seq<StageDef>, a: string) returns (keys: seq<string>)
    requires UniqueNames(stages) && IsRoot(stages, a)
    ensures Enumerates(stages, keys)
    ensures OrderOf(stages, keys) != [] && OrderOf(stages, keys)[0] == a
  {
    keys := [a] + Others(stages, a);
    OthersMembers(stages, a);
    assert IsName(stages, a);
    forall s | s in stages
      ensures s.name in keys
    {
      assert IsName(stages, s.name);
    }
    FirstRootLeads(stages, keys);
    RootsAreConsistent(stages, keys);
    ReferenceEnds(stages, Roots(stages, keys), []);
  }

  /**
   Order determinism: all processes compute the same order, whatever order their maps are iterated in,
   exactly when at most one stage has no dependencies.
   */
  lemma SameOrderIffOneRoot(stages: seq<StageDef>)
    requires UniqueNames(stages)
    ensures (forall keys, keys' | Enumerates(stages, keys) && Enumerates(stages, keys') ::
               OrderOf(stages, keys) == OrderOf(stages, keys'))
            <==> AtMostOneRoot(stages)
  {
    if AtMostOneRoot(stages) {
      forall keys, keys' | Enumerates(stages, keys) && Enumerates(stages, keys')
        ensures OrderOf(stages, keys) == OrderOf(stages, keys')
      {
        OneRootFixesOrder(stages, keys, keys');
      }
    } else {
      var a, b :| IsRoot(stages, a) && IsRoot(stages, b) && a != b;
      var keys := RootLeadsSomeOrder(stages, a);
      var keys' := RootLeadsSomeOrder(stages, b);
    }
  }

  // ---------------------------------------------------------------- key names

  const DIGITS: string := "0123456789"

  function Decimal(n: nat): string {
    if n < 10 then [DIGITS[n]] else Decimal(n / 10) + [DIGITS[n % 10]]
  }

  /** Zero-padded to at least two digits. */
  function TwoDigits(n: nat): string {
    if n < 10 then "0" + Decimal(n) else Decimal(n)
  }

  function Position(order: seq<string>, name: string): (i: nat)
    requires name in order
    ensures i < |order| && order[i] == name
  {
    if order[0] == name then 0 else 1 + Position(order[1..], name)
  }

  /** `key_name`: the sequence prefix from the topological order, then the stage name. */
  function KeyName(order: seq<string>, name: string): string
    requires name in order
  {
    TwoDigits(Position(order, name) * 10) + "-" + name
  }

  lemma {:induction false} PositionUnique(order: seq<string>, i: nat)
    requires NoDuplicates(order) && i < |order|
    ensures Position(order, order[i]) == i
  {
    if i == 0 {
    } else {
      assert order[0] != order[i];
      PositionUnique(order[1..], i - 1);
    }
  }

  predicate IsDigit(c: char) {
    '0' <= c <= '9'
  }

  predicate AllDigits(s: string) {
    forall c | c in s :: IsDigit(c)
  }

  /** The number a string of digits stands for, read from the left with `n` read so far. */
  function ReadOn(n: nat, s: string): nat
    requires AllDigits(s)
    decreases |s|
  {
    if s == [] then n
    else
      assert s[0] in s;
      ReadOn(n * 10 + (s[0] as int - '0' as int), s[1..])
  }

  lemma {:induction false} ReadLast(n: nat, s: string, c: char)
    requires AllDigits(s) && IsDigit(c)
    ensures AllDigits(s + [c]) && ReadOn(n, s + [c]) == ReadOn(n, s) * 10 + (c as int - '0' as int)
    decreases |s|
  {
    if s == [] {
      assert s + [c] == [c];
    } else {
      assert s[0] in s;
      ReadLast(n * 10 + (s[0] as int - '0' as int), s[1..], c);
      assert (s + [c])[1..] == s[1..] + [c];
    }
  }

  lemma DigitReads(d: nat)
    requires d < 10
    ensures IsDigit(DIGITS[d]) && DIGITS[d] as int - '0' as int == d
  {
  }

  lemma {:induction false} DecimalReads(n: nat)
    ensures AllDigits(Decimal(n)) && ReadOn(0, Decimal(n)) == n
    ensures Decimal(n) != [] && (n >= 10 ==> |Decimal(n)| >= 2) && (n > 0 ==> Decimal(n)[0] != '0')
  {
    DigitReads(n % 10);
    if n < 10 {
      ReadLast(0, [], DIGITS[n]);
      assert [] + [DIGITS[n]] == Decimal(n);
    } else {
      DecimalReads(n / 10);
      ReadLast(0, Decimal(n / 10), DIGITS[n % 10]);
    }
  }

  /**
   The key of a stage at a position: the tenfold of the position in decimal, with at least two digits and no
   padding beyond that, then the name.
   */
  ghost predicate IsKey(key: string, prefix: string, i: nat, name: string) {
    && key == prefix + "-" + name
    && AllDigits(prefix) && ReadOn(0, prefix) == 10 * i
    && |prefix| >= 2 && (|prefix| > 2 ==> prefix[0] != '0')
  }

  lemma PaddedReads(n: nat)
    requires n % 10 == 0
    ensures AllDigits(TwoDigits(n)) && ReadOn(0, TwoDigits(n)) == n
    ensures |TwoDigits(n)| >= 2 && (|TwoDigits(n)| > 2 ==> TwoDigits(n)[0] != '0')
  {
    DecimalReads(n);
    if n < 10 {
      assert TwoDigits(n) == ['0', '0'];
      ReadLast(0, [], '0');
      assert [] + ['0'] == ['0'];
      ReadLast(0, ['0'], '0');
      assert ['0'] + ['0'] == TwoDigits(n);
    }
  }

  /** Every stage of an order has such a key. */
  lemma KeyIsExact(order: seq<string>, i: nat) returns (prefix: string)
    requires NoDuplicates(order) && i < |order|
    ensures IsKey(KeyName(order, order[i]), prefix, i, order[i])
  {
    PositionUnique(order, i);
    PaddedReads(i * 10);
    prefix := TwoDigits(i * 10);
  }

  /** The prefix ends where the first character is that is no digit. */
  lemma PrefixEnds(key: string, prefix: string, name: string)
    requires key == prefix + "-" + name && AllDigits(prefix)
    ensures |prefix| < |key| && !IsDigit(key[|prefix|])
    ensures forall k | 0 <= k < |prefix| :: IsDigit(key[k])
  {
    forall k | 0 <= k < |prefix|
      ensures IsDigit(key[k])
    {
      assert key[k] == prefix[k] && prefix[k] in prefix;
    }
  }

  /** A key tells both the stage and its position. */
  lemma KeyDetermines(key: string, prefix: string, i: nat, name: string, prefix': string, i': nat, name': string)
    requires IsKey(key, prefix, i, name) && IsKey(key, prefix', i', name')
    ensures i == i' && name == name'
  {
    PrefixEnds(key, prefix, name);
    PrefixEnds(key, prefix', name');
    assert |prefix| == |prefix'|;
    assert prefix == key[..|prefix|] == prefix';
    assert name == key[|prefix| + 1..] == name';
  }

  /** In an order no two stages share a key. */
  lemma KeysDiffer(order: seq<string>, i: nat, j: nat)
    requires NoDuplicates(order) && i < |order| && j < |order|
    requires KeyName(order, order[i]) == KeyName(order, order[j])
    ensures i == j
  {
    var prefix := KeyIsExact(order, i);
    var prefix' := KeyIsExact(order, j);
    KeyDetermines(KeyName(order, order[i]), prefix, i, order[i], prefix', j, order[j]);
  }

  const PREFIXES: seq<string> := ["00", "10", "20", "30", "40", "50", "60", "70", "80", "90", "100"]

  lemma PrefixOf(i: nat)
    requires i <= 10
    ensures TwoDigits(i * 10) == PREFIXES[i]
  {
    if i == 10 {
      assert Decimal(100) == Decimal(10) + [DIGITS[0]];
      assert Decimal(10) == Decimal(1) + [DIGITS[0]];
    } else if i >= 1 {
      assert i * 10 / 10 == i && i * 10 % 10 == 0;
      assert Decimal(i * 10) == Decimal(i) + [DIGITS[0]];
    }
  }

  lemma ShortKey(order: seq<string>, i: nat)
    requires NoDuplicates(order) && i < |order| && i <= 10
    ensures KeyName(order, order[i]) == PREFIXES[i] + "-" + order[i]
  {
    PositionUnique(order, i);
    PrefixOf(i);
  }

  lemma KeyStarts(order: seq<string>, i: nat)
    requires NoDuplicates(order) && i < |order| && i <= 10
    ensures KeyName(order, order[i]) != []
    ensures KeyName(order, order[i])[0] == if i == 10 then '1' else DIGITS[i]
  {
    ShortKey(order, i);
  }

  ghost predicate KeysSorted(order: seq<string>) {
    forall i, j | 0 <= i < j < |order| :: Less(KeyName(order, order[i]), KeyName(order, order[j]))
  }

  lemma DigitsRise(i: nat, j: nat)
    requires i < j < |DIGITS|
    ensures DIGITS[i] < DIGITS[j]
  {
  }

  lemma EarlierKeyIsLess(order: seq<string>, i: nat, j: nat)
    requires NoDuplicates(order) && i < j < |order| <= 10
    ensures Less(KeyName(order, order[i]), KeyName(order, order[j]))
  {
    KeyStarts(order, i);
    KeyStarts(order, j);
    DigitsRise(i, j);
  }

  lemma EleventhKeyIsLess(order: seq<string>)
    requires NoDuplicates(order) && |order| > 10
    ensures !Less(KeyName(order, order[2]), KeyName(order, order[10]))
  {
    KeyStarts(order, 2);
    KeyStarts(order, 10);
  }

  /**
   Key names list in topological order exactly when there are at most ten stages; from the eleventh
   stage on, the prefix "100" sorts before "20".
   */
  lemma KeysSortedIffTen(order: seq<string>)
    requires NoDuplicates(order)
    ensures KeysSorted(order) <==> |order| <= 10
  {
    if |order| <= 10 {
      forall i, j | 0 <= i < j < |order|
        ensures Less(KeyName(order, order[i]), KeyName(order, order[j]))
      {
        EarlierKeyIsLess(order, i, j);
      }
    } else {
      EleventhKeyIsLess(order);
    }
  }

  // ---------------------------------------------------------------- looking up dependencies

  /** `find_dep`: depth first, each dependency before what it depends on. */
  function FindDep(stage: StageDef, name: string): Option<StageDef>
    decreases stage, 1
  {
    FindAmong(stage, |stage.dependsOn|, name)
  }

  function FindAmong(stage: StageDef, n: nat, name: string): Option<StageDef>
    requires n <= |stage.dependsOn|
    decreases stage, 0, n
  {
    if n == 0 then None
    else
      var earlier := FindAmong(stage, n - 1, name);
      if earlier.Some? then earlier
      else if stage.dependsOn[n - 1].name == name then Some(stage.dependsOn[n - 1])
      else FindDep(stage.dependsOn[n - 1], name)
  }

  /** `find_dep` as the loop over a stage's dependencies. */
  method FindDependency(stage: StageDef, name: string) returns (found: Option<StageDef>)
    ensures found == FindDep(stage, name)
    decreases stage
  {
    var i := 0;
    while i < |stage.dependsOn|
      invariant 0 <= i <= |stage.dependsOn|
      invariant FindAmong(stage, i, name) == None
    {
      var dep := stage.dependsOn[i];
      if dep.name == name {
        assert FindAmong(stage, i + 1, name) == Some(dep);
        FoundStays(stage, i + 1, |stage.dependsOn|, name);
        return Some(dep);
      }
      found := FindDependency(dep, name);
      if found.Some? {
        assert FindAmong(stage, i + 1, name) == found;
        FoundStays(stage, i + 1, |stage.dependsOn|, name);
        return;
      }
      i := i + 1;
    }
    found := None;
  }

  lemma {:induction false} FoundStays(stage: StageDef, n: nat, m: nat, name: string)
    requires n <= m <= |stage.dependsOn| && FindAmong(stage, n, name).Some?
    ensures FindAmong(stage, m, name) == FindAmong(stage, n, name)
  {
    if n == m {
    } else {
      FoundStays(stage, n, m - 1, name);
    }
  }

  /** A chain of declared dependencies that starts at `stage` and ends at `dep`. */
  ghost predicate IsChain(chain: seq<StageDef>, stage: StageDef, dep: StageDef) {
    && |chain| >= 2 && chain[0] == stage && chain[|chain| - 1] == dep
    && forall i | 0 <= i < |chain| - 1 :: chain[i + 1] in chain[i].dependsOn
  }

  /** `dep` is in the transitive closure of the stage's dependencies. */
  ghost predicate InClosure(dep: StageDef, stage: StageDef) {
    exists chain :: IsChain(chain, stage, dep)
  }

  lemma DirectIsInClosure(dep: StageDef, stage: StageDef)
    requires dep in stage.dependsOn
    ensures InClosure(dep, stage)
  {
    assert IsChain([stage, dep], stage, dep);
  }

  lemma ClosureExtends(dep: StageDef, mid: StageDef, stage: StageDef)
    requires mid in stage.dependsOn && InClosure(dep, mid)
    ensures InClosure(dep, stage)
  {
    var chain: seq<StageDef> :| IsChain(chain, mid, dep);
    var longer := [stage] + chain;
    forall i | 0 <= i < |longer| - 1
      ensures longer[i + 1] in longer[i].dependsOn
    {
      if i > 0 {
        assert chain[i - 1 + 1] in chain[i - 1].dependsOn;
      }
    }
    assert IsChain(longer, stage, dep);
  }

  lemma {:induction false} FoundIsInClosure(stage: StageDef, n: nat, name: string)
    requires n <= |stage.dependsOn| && FindAmong(stage, n, name).Some?
    ensures FindAmong(stage, n, name).value.name == name
    ensures InClosure(FindAmong(stage, n, name).value, stage)
    decreases stage, n
  {
    var dep := stage.dependsOn[n - 1];
    if FindAmong(stage, n - 1, name).Some? {
      FoundIsInClosure(stage, n - 1, name);
    } else if dep.name == name {
      DirectIsInClosure(dep, stage);
    } else {
      FoundIsInClosure(dep, |dep.dependsOn|, name);
      ClosureExtends(FindAmong(stage, n, name).value, dep, stage);
    }
  }

  lemma {:induction false} DeclaredIsFound(stage: StageDef, i: nat, n: nat, name: string)
    requires i < n <= |stage.dependsOn|
    requires stage.dependsOn[i].name == name || FindDep(stage.dependsOn[i], name).Some?
    ensures FindAmong(stage, n, name).Some?
    decreases n
  {
    if i == n - 1 {
    } else {
      DeclaredIsFound(stage, i, n - 1, name);
    }
  }

  lemma ChainTail(chain: seq<StageDef>, stage: StageDef, dep: StageDef)
    requires IsChain(chain, stage, dep) && |chain| > 2
    ensures IsChain(chain[1..], chain[1], dep)
  {
    forall k | 0 <= k < |chain[1..]| - 1
      ensures chain[1..][k + 1] in chain[1..][k].dependsOn
    {
      assert chain[k + 1 + 1] in chain[k + 1].dependsOn;
    }
  }

  lemma {:induction false} ChainIsFound(chain: seq<StageDef>, stage: StageDef, dep: StageDef)
    requires IsChain(chain, stage, dep)
    ensures FindDep(stage, dep.name).Some?
    decreases |chain|
  {
    assert chain[0 + 1] in chain[0].dependsOn;
    var i :| 0 <= i < |stage.dependsOn| && stage.dependsOn[i] == chain[1];
    if |chain| == 2 {
    } else {
      ChainTail(chain, stage, dep);
      ChainIsFound(chain[1..], chain[1], dep);
    }
    DeclaredIsFound(stage, i, |stage.dependsOn|, dep.name);
  }

  /** `find_dep` finds a name exactly if the transitive closure has it, and returns a stage of that name from there. */
  lemma FindsExactlyTheClosure(stage: StageDef, name: string)
    ensures FindDep(stage, name).Some? <==> exists dep :: InClosure(dep, stage) && dep.name == name
    ensures FindDep(stage, name).Some? ==>
              FindDep(stage, name).value.name == name && InClosure(FindDep(stage, name).value, stage)
  {
    if FindDep(stage, name).Some? {
      FoundIsInClosure(stage, |stage.dependsOn|, name);
    }
    if dep :| InClosure(dep, stage) && dep.name == name {
      var chain: seq<StageDef> :| IsChain(chain, stage, dep);
      ChainIsFound(chain, stage, dep);
    }
  }

  // ---------------------------------------------------------------- verified dependencies

  datatype Verified = Dep(stage: StageDef) | NotDeclared | WrongKind

  function GlobalDep(stage: StageDef, name: string): Verified {
    match FindDep(stage, name)
    case None => NotDeclared
    case Some(dep) => if dep.isGlobal then Dep(dep) else WrongKind
  }

  function NodeDep(stage: StageDef, name: string): Verified {
    match FindDep(stage, name)
    case None => NotDeclared
    case Some(dep) => if dep.isGlobal then WrongKind else Dep(dep)
  }

  /** The list holds the definition of every dependency it mentions, as a list of constants does. */
  ghost predicate Closed(stages: seq<StageDef>) {
    forall s, d | s in stages && d in s.dependsOn :: d in stages
  }

  lemma {:induction false} EveryStageIsEmitted(stages: seq<StageDef>, order: seq<string>, s: StageDef)
    requires Closed(stages) && Exhausted(stages, order) && s in stages
    ensures s.name in order
    decreases s
  {
    forall d | d in s.dependsOn
      ensures d.name in order
    {
      EveryStageIsEmitted(stages, order, d);
    }
    assert ExactAt(stages, s, order, order);
  }

  lemma ClosedListIsComplete(stages: seq<StageDef>, keys: seq<string>)
    requires UniqueNames(stages) && Enumerates(stages, keys) && Closed(stages)
    ensures Exhausted(stages, OrderOf(stages, keys)) && |OrderOf(stages, keys)| == |stages|
    ensures IsComplete(stages, OrderOf(stages, keys))
  {
    RootsAreConsistent(stages, keys);
    ReferenceEnds(stages, Roots(stages, keys), []);
    var order := OrderOf(stages, keys);
    forall u | u in stages
      ensures u.name in order
    {
      EveryStageIsEmitted(stages, order, u);
    }
    FullLengthIsComplete(stages, order);
  }

  lemma DirectIsEarlier(stages: seq<StageDef>, order: seq<string>, s: StageDef, d: StageDef)
    requires Exhausted(stages, order) && s in stages && d in s.dependsOn && s.name in order
    ensures d.name in order && Position(order, d.name) < Position(order, s.name)
  {
    var i := Position(order, s.name);
    assert Ready(s, order[..i]);
    var j :| 0 <= j < i && order[j] == d.name;
    PositionUnique(order, j);
  }

  lemma {:induction false} ChainIsEarlier(
    stages: seq<StageDef>, order: seq<string>, chain: seq<StageDef>, s: StageDef, dep: StageDef)
    requires Closed(stages) && Exhausted(stages, order) && s in stages && s.name in order && IsChain(chain, s, dep)
    ensures dep in stages && dep.name in order && Position(order, dep.name) < Position(order, s.name)
    decreases |chain|
  {
    assert chain[0 + 1] in chain[0].dependsOn;
    DirectIsEarlier(stages, order, s, chain[1]);
    if |chain| == 2 {
    } else {
      ChainTail(chain, s, dep);
      ChainIsEarlier(stages, order, chain[1..], chain[1], dep);
    }
  }

  /**
   Over a closed list every process computes a complete order, and whatever `global_dep` or `node_dep`
   hands out is a declared dependency of the kind asked for that sits strictly earlier in it.
   */
  lemma VerifiedDepIsEarlier(stages: seq<StageDef>, keys: seq<string>, s: StageDef, name: string, v: Verified)
    requires UniqueNames(stages) && Enumerates(stages, keys) && Closed(stages) && s in stages
    requires v == GlobalDep(s, name) || v == NodeDep(s, name)
    ensures IsComplete(stages, OrderOf(stages, keys)) && s.name in OrderOf(stages, keys)
    ensures v.NotDeclared? <==> !exists dep :: InClosure(dep, s) && dep.name == name
    ensures v.Dep? ==>
              && v.stage in stages && v.stage.name == name && name in OrderOf(stages, keys)
              && (v.stage.isGlobal <==> v == GlobalDep(s, name))
              && Position(OrderOf(stages, keys), name) < Position(OrderOf(stages, keys), s.name)
  {
    ClosedListIsComplete(stages, keys);
    var order := OrderOf(stages, keys);
    FindsExactlyTheClosure(s, name);
    if v.Dep? {
      var chain: seq<StageDef> :| IsChain(chain, s, v.stage);
      ChainIsEarlier(stages, order, chain, s, v.stage);
    }
  }

  // ---------------------------------------------------------------- the bootstrap's list

  const INSTANCES_READY := StageDef("instances-ready", [], false)
  const ETCD_NODES_REGISTERED := StageDef("etcd-nodes-registered", [INSTANCES_READY], false)
  const ETCD_READY := StageDef("etcd-ready", [ETCD_NODES_REGISTERED], true)
  const RSS_INITIALIZED := StageDef("rss-initialized", [ETCD_READY], true)
  const METADATA_VG_READY := StageDef("metadata-vg-ready", [RSS_INITIALIZED], true)
  const BSS_CONFIGURED := StageDef("bss-configured", [RSS_INITIALIZED], false)
  const BSS_READY := StageDef("bss-ready", [BSS_CONFIGURED], false)
  const NSS_CONFIGURED := StageDef("nss-configured", [RSS_INITIALIZED], false)
  const JOURNAL_FORMATTED := StageDef("journal-formatted", [NSS_CONFIGURED, METADATA_VG_READY, BSS_READY], true)
  const NSS_JOURNAL_READY := StageDef("nss-journal-ready", [JOURNAL_FORMATTED], false)
  const SERVICES_READY := StageDef("services-ready", [NSS_JOURNAL_READY, BSS_READY], false)

  const ALL_STAGES: seq<StageDef> := [
    INSTANCES_READY, ETCD_NODES_REGISTERED, ETCD_READY, RSS_INITIALIZED, METADATA_VG_READY, BSS_CONFIGURED,
    BSS_READY, NSS_CONFIGURED, JOURNAL_FORMATTED, NSS_JOURNAL_READY, SERVICES_READY
  ]

  lemma AllStagesUnique()
    ensures UniqueNames(ALL_STAGES)
  {
  }

  lemma AllStagesClosed()
    ensures Closed(ALL_STAGES)
  {
  }

  /** What a stage adds to the queue when `name` is emitted after `done`. */
  function Pick(s: StageDef, done: seq<string>, name: string): seq<string> {
    if DependsOn(s, name) && Ready(s, done + [name]) then [s.name] else []
  }

  lemma PickTwo(stages: seq<StageDef>, s: StageDef, s': StageDef, done: seq<string>, name: string)
    ensures NewlyReady(stages + [s, s'], done, name) ==
              NewlyReady(stages, done, name) + Pick(s, done, name) + Pick(s', done, name)
  {
    assert (stages + [s, s'])[..|stages| + 1] == stages + [s];
    assert (stages + [s])[..|stages|] == stages;
  }

  function One(b: bool, x: string): seq<string> {
    if b then [x] else []
  }

  lemma PickSingle(s: StageDef, dep: StageDef, done: seq<string>, name: string)
    requires s.dependsOn == [dep]
    ensures Pick(s, done, name) == One(dep.name == name, s.name)
  {
    assert dep in s.dependsOn;
  }

  /** The shape of the bootstrap's list, whatever its stages are called. */
  ghost predicate Bootstraps(st: seq<StageDef>) {
    && |st| == 11 && UniqueNames(st)
    && st[0].dependsOn == [] && st[1].dependsOn == [st[0]] && st[2].dependsOn == [st[1]]
    && st[3].dependsOn == [st[2]] && st[4].dependsOn == [st[3]] && st[5].dependsOn == [st[3]]
    && st[6].dependsOn == [st[5]] && st[7].dependsOn == [st[3]] && st[8].dependsOn == [st[7], st[4], st[6]]
    && st[9].dependsOn == [st[8]] && st[10].dependsOn == [st[9], st[6]]
  }

  lemma PickRoot(s: StageDef, done: seq<string>, name: string)
    requires s.dependsOn == []
    ensures NewlyReady([s], done, name) == []
  {
    assert [s][..0] == [];
    assert NewlyReady([], done, name) == [];
  }

  lemma PickFirst(st: seq<StageDef>, done: seq<string>, name: string)
    requires Bootstraps(st)
    ensures NewlyReady(st[..3], done, name) == One(st[0].name == name, st[1].name) + One(st[1].name == name, st[2].name)
  {
    PickRoot(st[0], done, name);
    PickTwo([st[0]], st[1], st[2], done, name);
    assert st[..3] == [st[0]] + [st[1], st[2]];
    PickSingle(st[1], st[0], done, name);
    PickSingle(st[2], st[1], done, name);
  }

  lemma PickEarly(st: seq<StageDef>, done: seq<string>, name: string)
    requires Bootstraps(st)
    ensures NewlyReady(st[..5], done, name) ==
              NewlyReady(st[..3], done, name)
              + One(st[2].name == name, st[3].name) + One(st[3].name == name, st[4].name)
  {
    PickTwo(st[..3], st[3], st[4], done, name);
    assert st[..5] == st[..3] + [st[3], st[4]];
    PickSingle(st[3], st[2], done, name);
    PickSingle(st[4], st[3], done, name);
  }

  lemma PickMiddle(st: seq<StageDef>, done: seq<string>, name: string)
    requires Bootstraps(st)
    ensures NewlyReady(st[..9], done, name) ==
              NewlyReady(st[..5], done, name)
              + One(st[3].name == name, st[5].name) + One(st[5].name == name, st[6].name)
              + One(st[3].name == name, st[7].name) + Pick(st[8], done, name)
  {
    PickTwo(st[..5], st[5], st[6], done, name);
    assert st[..7] == st[..5] + [st[5], st[6]];
    PickTwo(st[..7], st[7], st[8], done, name);
    assert st[..9] == st[..7] + [st[7], st[8]];
    PickSingle(st[5], st[3], done, name);
    PickSingle(st[6], st[5], done, name);
    PickSingle(st[7], st[3], done, name);
  }

  lemma PickLate(st: seq<StageDef>, done: seq<string>, name: string)
    requires Bootstraps(st)
    ensures NewlyReady(st, done, name) ==
              NewlyReady(st[..9], done, name) + One(st[8].name == name, st[9].name) + Pick(st[10], done, name)
  {
    PickTwo(st[..9], st[9], st[10], done, name);
    assert st == st[..9] + [st[9], st[10]];
    PickSingle(st[9], st[8], done, name);
  }

  /** The journal waits for three stages and the services for two; each single one unlocks what waits for it. */
  lemma Emits(st: seq<StageDef>, done: seq<string>, i: nat)
    requires Bootstraps(st) && i < 11
    ensures NewlyReady(st, done, st[i].name) ==
              One(i == 0, st[1].name) + One(i == 1, st[2].name) + One(i == 2, st[3].name) + One(i == 3, st[4].name)
              + One(i == 3, st[5].name) + One(i == 5, st[6].name) + One(i == 3, st[7].name)
              + Pick(st[8], done, st[i].name) + One(i == 8, st[9].name) + Pick(st[10], done, st[i].name)
  {
    PickFirst(st, done, st[i].name);
    PickEarly(st, done, st[i].name);
    PickMiddle(st, done, st[i].name);
    PickLate(st, done, st[i].name);
    assert forall j | 0 <= j < 11 && st[j].name == st[i].name :: j == i;
  }

  lemma JournalWaits(st: seq<StageDef>, done: seq<string>, i: nat)
    requires Bootstraps(st) && i < 11
    ensures Pick(st[8], done, st[i].name) ==
              One(i in {4, 6, 7} && (i == 7 || st[7].name in done) && (i == 4 || st[4].name in done)
                  && (i == 6 || st[6].name in done), st[8].name)
    ensures Pick(st[10], done, st[i].name) ==
              One(i in {6, 9} && (i == 9 || st[9].name in done) && (i == 6 || st[6].name in done), st[10].name)
  {
    assert forall j | 0 <= j < 11 && st[j].name == st[i].name :: j == i;
    assert forall d :: d in st[8].dependsOn <==> d in {st[7], st[4], st[6]};
    assert forall d :: d in st[10].dependsOn <==> d in {st[9], st[6]};
  }

  /** Taking stage `i` from the head of the queue adds `ready` to its end. */
  lemma Emit(st: seq<StageDef>, queue: seq<string>, order: seq<string>, ready: seq<string>)
    requires Consistent(st, queue, order) && queue != [] && NewlyReady(st, order, queue[0]) == ready
    ensures Consistent(st, queue[1..] + ready, order + [queue[0]])
    ensures Reference(st, queue, order) == Reference(st, queue[1..] + ready, order + [queue[0]])
  {
    QueueMeansRoom(st, queue, order);
    PopKeepsConsistent(st, queue, order);
  }

  /** The order such a list comes in. */
  ghost function OrderedNames(st: seq<StageDef>): seq<string>
    requires Bootstraps(st)
  {
    [st[0].name, st[1].name, st[2].name, st[3].name, st[4].name, st[5].name, st[7].name, st[6].name, st[8].name,
     st[9].name, st[10].name]
  }

  /** How many stages are emitted or queued once `k` are emitted. */
  function Known(k: nat): nat {
    if k <= 3 then k + 1 else if k <= 5 then 7 else if k <= 7 then 8 else if k <= 10 then k + 1 else 11
  }

  /** The name emitted as number `k` unlocks the next stretch of `names`. */
  ghost predicate UnlocksNext(st: seq<StageDef>, names: seq<string>, k: nat)
    requires |names| == 11 && k < 11
  {
    NewlyReady(st, names[..k], names[k]) == names[Known(k)..Known(k + 1)]
  }

  lemma Unlocks(st: seq<StageDef>, k: nat)
    requires Bootstraps(st) && k < 11
    ensures UnlocksNext(st, OrderedNames(st), k)
  {
    if k < 4 {
      UnlocksEarly(st, k);
    } else if k < 7 {
      UnlocksMiddle(st, k, if k == 6 then 7 else k);
    } else if k == 7 {
      UnlocksJournal(st);
    } else {
      UnlocksLate(st, k);
    }
  }

  lemma UnlocksEarly(st: seq<StageDef>, k: nat)
    requires Bootstraps(st) && k < 4
    ensures UnlocksNext(st, OrderedNames(st), k)
  {
    Emits(st, OrderedNames(st)[..k], k);
    JournalWaits(st, OrderedNames(st)[..k], k);
    if k == 3 {
      assert OrderedNames(st)[4..7] == [st[4].name] + [st[5].name] + [st[7].name];
    } else {
      assert OrderedNames(st)[k + 1..k + 2] == [st[k + 1].name];
    }
  }

  /** Before the storage nodes serve, the journal has to wait. */
  lemma UnlocksMiddle(st: seq<StageDef>, k: nat, i: nat)
    requires Bootstraps(st) && 4 <= k < 7 && i == if k == 6 then 7 else k
    ensures UnlocksNext(st, OrderedNames(st), k)
  {
    Emits(st, OrderedNames(st)[..k], i);
    NotYet(st, k, 6, 7);
    NotYet(st, k, 9, 9);
    JournalWaits(st, OrderedNames(st)[..k], i);
  }

  lemma NotYet(st: seq<StageDef>, k: nat, j: nat, at: nat)
    requires Bootstraps(st) && k <= at < 11 && j < 11 && OrderedNames(st)[at] == st[j].name
    ensures st[j].name !in OrderedNames(st)[..k]
  {
    OrderedOnce(st);
  }

  lemma OrderedOnce(st: seq<StageDef>)
    requires Bootstraps(st)
    ensures NoDuplicates(OrderedNames(st))
  {
  }

  lemma UnlocksJournal(st: seq<StageDef>)
    requires Bootstraps(st)
    ensures UnlocksNext(st, OrderedNames(st), 7)
  {
    var done := OrderedNames(st)[..7];
    Emits(st, done, 6);
    NotYet(st, 7, 9, 9);
    assert done[4] == st[4].name && done[6] == st[7].name;
    JournalWaits(st, done, 6);
  }

  lemma UnlocksLate(st: seq<StageDef>, k: nat)
    requires Bootstraps(st) && 8 <= k < 11
    ensures UnlocksNext(st, OrderedNames(st), k)
  {
    Emits(st, OrderedNames(st)[..k], k);
    JournalWaits(st, OrderedNames(st)[..k], k);
    assert OrderedNames(st)[..k][7] == st[6].name;
  }

  lemma Shift(names: seq<string>, k: nat, n: nat, n': nat)
    requires k < n <= n' <= |names|
    ensures names[k..n][1..] + names[n..n'] == names[k + 1..n'] && names[..k] + [names[k]] == names[..k + 1]
  {
  }

  ghost predicate Unrolls(st: seq<StageDef>, names: seq<string>) {
    |names| == 11 && forall k | 0 <= k < 11 :: UnlocksNext(st, names, k)
  }

  lemma EmitNext(st: seq<StageDef>, names: seq<string>, k: nat)
    requires |names| == 11 && k < 11 && UnlocksNext(st, names, k)
    requires Consistent(st, names[k..Known(k)], names[..k])
    ensures Consistent(st, names[k + 1..Known(k + 1)], names[..k + 1])
    ensures Reference(st, names[k..Known(k)], names[..k]) == Reference(st, names[k + 1..Known(k + 1)], names[..k + 1])
  {
    Emit(st, names[k..Known(k)], names[..k], names[Known(k)..Known(k + 1)]);
    Shift(names, k, Known(k), Known(k + 1));
  }

  lemma {:induction false} OrderFrom(st: seq<StageDef>, names: seq<string>, k: nat)
    requires Unrolls(st, names) && k <= 11
    requires Consistent(st, names[k..Known(k)], names[..k])
    ensures Reference(st, names[k..Known(k)], names[..k]) == names
    decreases 11 - k
  {
    if k == 11 {
      assert names[11..11] == [] && names[..11] == names;
    } else {
      EmitNext(st, names, k);
      OrderFrom(st, names, k + 1);
    }
  }

  lemma OnlyFirstIsRoot(st: seq<StageDef>)
    requires Bootstraps(st)
    ensures forall s | s in st && s.dependsOn == [] :: s == st[0]
  {
  }

  lemma OneRoot(st: seq<StageDef>, keys: seq<string>, root: StageDef)
    requires UniqueNames(st) && Enumerates(st, keys)
    requires root in st && root.dependsOn == [] && forall s | s in st && s.dependsOn == [] :: s == root
    ensures Roots(st, keys) == [root.name]
  {
    forall x | IsRoot(st, x)
      ensures x == root.name
    {
    }
    RootsOfOneRoot(st, keys);
    assert IsRoot(st, root.name);
    assert root.name in Roots(st, keys);
  }

  lemma OrderUnrolls(st: seq<StageDef>, keys: seq<string>, names: seq<string>)
    requires UniqueNames(st) && Enumerates(st, keys) && Unrolls(st, names) && Roots(st, keys) == [names[0]]
    ensures OrderOf(st, keys) == names
  {
    RootsAreConsistent(st, keys);
    assert names[0..1] == [names[0]] && names[..0] == [];
    OrderFrom(st, names, 0);
  }

  lemma OrderOfShape(st: seq<StageDef>, keys: seq<string>)
    requires Bootstraps(st) && Enumerates(st, keys)
    ensures OrderOf(st, keys) == OrderedNames(st)
  {
    forall k | 0 <= k < 11
      ensures UnlocksNext(st, OrderedNames(st), k)
    {
      Unlocks(st, k);
    }
    OnlyFirstIsRoot(st);
    OneRoot(st, keys, st[0]);
    OrderUnrolls(st, keys, OrderedNames(st));
  }

  const BOOTSTRAP_ORDER: seq<string> := [
    "instances-ready", "etcd-nodes-registered", "etcd-ready", "rss-initialized", "metadata-vg-ready",
    "bss-configured", "nss-configured", "bss-ready", "journal-formatted", "nss-journal-ready", "services-ready"
  ]

  lemma AllStagesBootstrap()
    ensures UniqueNames(ALL_STAGES) && Bootstraps(ALL_STAGES) && OrderedNames(ALL_STAGES) == BOOTSTRAP_ORDER
  {
    AllStagesUnique();
  }

  /**
   The bootstrap's own list: every process computes the same complete order of eleven stages, which fixes
   the key name of each, and these key names do not list in that order.
   */
  lemma BootstrapOrder(keys: seq<string>)
    requires Enumerates(ALL_STAGES, keys)
    ensures UniqueNames(ALL_STAGES)
    ensures OrderOf(ALL_STAGES, keys) == BOOTSTRAP_ORDER
    ensures IsTopological(ALL_STAGES, BOOTSTRAP_ORDER) && |BOOTSTRAP_ORDER| == |ALL_STAGES|
    ensures forall i | 0 <= i < 11 ::
              KeyName(BOOTSTRAP_ORDER, BOOTSTRAP_ORDER[i]) == PREFIXES[i] + "-" + BOOTSTRAP_ORDER[i]
    ensures !KeysSorted(BOOTSTRAP_ORDER)
  {
    AllStagesBootstrap();
    OrderOfShape(ALL_STAGES, keys);
    AllStagesClosed();
    ClosedListIsComplete(ALL_STAGES, keys);
    KeysSortedIffTen(BOOTSTRAP_ORDER);
    forall i | 0 <= i < 11
      ensures KeyName(BOOTSTRAP_ORDER, BOOTSTRAP_ORDER[i]) == PREFIXES[i] + "-" + BOOTSTRAP_ORDER[i]
    {
      ShortKey(BOOTSTRAP_ORDER, i);
    }
  }
}
