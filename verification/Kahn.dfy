/**
 `topological_order` and `validate_dag` as the bootstrap computes them, with an in-degree counter per
 stage and a list of dependents per name, over any stage list with unique names.  The iteration order
 of the counter map is a parameter.
 */
module Kahn {
  import opened StageGraph

  function Count(xs: seq<string>, x: string): nat {
    if xs == [] then 0 else Count(xs[..|xs| - 1], x) + (if xs[|xs| - 1] == x then 1 else 0)
  }

  /** How many entries of `deps` name `x`. */
  function Mentions(deps: seq<StageDef>, x: string): nat {
    if deps == [] then 0 else Mentions(deps[..|deps| - 1], x) + (if deps[|deps| - 1].name == x then 1 else 0)
  }

  /** How many entries of `deps` have not been emitted. */
  function Missing(deps: seq<StageDef>, done: seq<string>): nat {
    if deps == [] then 0
    else Missing(deps[..|deps| - 1], done) + (if deps[|deps| - 1].name in done then 0 else 1)
  }

  function Repeat(x: string, n: nat): seq<string> {
    if n == 0 then [] else Repeat(x, n - 1) + [x]
  }

  /** The list of dependents of `x`: every stage, in list order, once per mention. */
  function Dependents(stages: seq<StageDef>, x: string): seq<string> {
    if stages == [] then []
    else
      var s := stages[|stages| - 1];
      Dependents(stages[..|stages| - 1], x) + Repeat(s.name, Mentions(s.dependsOn, x))
  }

  function Lookup(m: map<string, seq<string>>, x: string): seq<string> {
    if x in m then m[x] else []
  }

  // ---------------------------------------------------------------- counting

  lemma {:induction false} CountAppend(xs: seq<string>, ys: seq<string>, x: string)
    ensures Count(xs + ys, x) == Count(xs, x) + Count(ys, x)
    decreases |ys|
  {
    if ys == [] {
      assert xs + ys == xs;
    } else {
      var n := |ys| - 1;
      assert (xs + ys)[..|xs + ys| - 1] == xs + ys[..n];
      CountAppend(xs, ys[..n], x);
    }
  }

  lemma {:induction false} CountRepeat(x: string, n: nat, y: string)
    ensures Count(Repeat(x, n), y) == if x == y then n else 0
    ensures |Repeat(x, n)| == n && forall z | z in Repeat(x, n) :: z == x
  {
    if n == 0 {
    } else {
      CountRepeat(x, n - 1, y);
      assert Repeat(x, n)[..|Repeat(x, n)| - 1] == Repeat(x, n - 1);
    }
  }

  lemma {:induction false} MentionsAny(deps: seq<StageDef>, x: string)
    ensures Mentions(deps, x) > 0 <==> exists d :: d in deps && d.name == x
  {
    if deps == [] {
    } else {
      var n := |deps| - 1;
      MentionsAny(deps[..n], x);
      assert deps == deps[..n] + [deps[n]];
    }
  }

  lemma {:induction false} MissingNone(deps: seq<StageDef>, done: seq<string>)
    ensures Missing(deps, done) == 0 <==> forall d | d in deps :: d.name in done
  {
    if deps == [] {
    } else {
      var n := |deps| - 1;
      MissingNone(deps[..n], done);
      assert deps == deps[..n] + [deps[n]];
    }
  }

  /** Emitting a name removes its mentions from what is missing. */
  lemma {:induction false} MissingAfter(deps: seq<StageDef>, done: seq<string>, x: string)
    requires x !in done
    ensures Missing(deps, done) == Missing(deps, done + [x]) + Mentions(deps, x)
  {
    if deps == [] {
    } else {
      MissingAfter(deps[..|deps| - 1], done, x);
    }
  }

  lemma {:induction false} MissingAll(deps: seq<StageDef>)
    ensures Missing(deps, []) == |deps|
  {
    if deps == [] {
    } else {
      MissingAll(deps[..|deps| - 1]);
    }
  }

  lemma {:induction false} DependentsCount(stages: seq<StageDef>, x: string, y: string)
    requires !IsName(stages, y)
    ensures Count(Dependents(stages, x), y) == 0 && y !in Dependents(stages, x)
  {
    if stages == [] {
    } else {
      var n := |stages| - 1;
      assert stages[n] in stages && stages[n].name != y;
      assert !IsName(stages[..n], y);
      DependentsCount(stages[..n], x, y);
      CountAppend(Dependents(stages[..n], x), Repeat(stages[n].name, Mentions(stages[n].dependsOn, x)), y);
      CountRepeat(stages[n].name, Mentions(stages[n].dependsOn, x), y);
    }
  }

  lemma PrefixNames(stages: seq<StageDef>, n: nat)
    requires UniqueNames(stages) && n < |stages|
    ensures UniqueNames(stages[..n]) && !IsName(stages[..n], stages[n].name)
  {
  }

  /** A stage stands in the list of dependents of `x` once per mention of `x`. */
  lemma {:induction false} DependentsMention(stages: seq<StageDef>, x: string, s: StageDef)
    requires UniqueNames(stages) && s in stages
    ensures Count(Dependents(stages, x), s.name) == Mentions(s.dependsOn, x)
  {
    var n := |stages| - 1;
    var last := stages[n];
    PrefixNames(stages, n);
    CountAppend(Dependents(stages[..n], x), Repeat(last.name, Mentions(last.dependsOn, x)), s.name);
    CountRepeat(last.name, Mentions(last.dependsOn, x), s.name);
    if s == last {
      DependentsCount(stages[..n], x, s.name);
    } else {
      assert s in stages[..n];
      DependentsMention(stages[..n], x, s);
    }
  }

  lemma {:induction false} DependentsAreNames(stages: seq<StageDef>, x: string, y: string)
    requires y in Dependents(stages, x)
    ensures IsName(stages, y)
  {
    var n := |stages| - 1;
    CountRepeat(stages[n].name, Mentions(stages[n].dependsOn, x), y);
    if y in Dependents(stages[..n], x) {
      DependentsAreNames(stages[..n], x, y);
    }
  }

  // ---------------------------------------------------------------- the counters do the reference's work

  predicate Counted(deg: map<string, nat>, ds: seq<string>) {
    forall d | d in ds :: d in deg
  }

  /** What a pass over `ds` with counters `deg` appends to the queue. */
  function Pushed(deg: map<string, nat>, ds: seq<string>): seq<string>
    requires Counted(deg, ds)
  {
    if ds == [] then []
    else
      var d := ds[|ds| - 1];
      Pushed(deg, ds[..|ds| - 1]) + (if Count(ds, d) == deg[d] then [d] else [])
  }

  /** The last entry is pushed if its counter comes down to zero there. */
  lemma PushedLast(deg: map<string, nat>, ds: seq<string>, d: string)
    requires d in deg && Counted(deg, ds)
    ensures Counted(deg, ds + [d])
    ensures Pushed(deg, ds + [d]) == Pushed(deg, ds) + (if Count(ds, d) + 1 == deg[d] then [d] else [])
  {
    assert (ds + [d])[..|ds|] == ds;
  }

  lemma CountBefore(ds: seq<string>, x: string, n: nat)
    requires x !in ds
    ensures Count(ds + Repeat(x, n), x) == n && forall d | d in ds + Repeat(x, n) :: d in ds || d == x
  {
    CountAppend(ds, Repeat(x, n), x);
    CountRepeat(x, n, x);
    CountAbsent(ds, x);
  }

  lemma {:induction false} PushedRepeat(deg: map<string, nat>, ds: seq<string>, x: string, n: nat)
    requires Counted(deg, ds) && x in deg && x !in ds
    ensures Counted(deg, ds + Repeat(x, n))
    ensures Pushed(deg, ds + Repeat(x, n)) == Pushed(deg, ds) + (if 1 <= deg[x] <= n then [x] else [])
    decreases n
  {
    CountBefore(ds, x, n);
    if n == 0 {
      assert ds + Repeat(x, n) == ds;
    } else {
      var before := ds + Repeat(x, n - 1);
      PushedRepeat(deg, ds, x, n - 1);
      CountBefore(ds, x, n - 1);
      PushedLast(deg, before, x);
      assert ds + Repeat(x, n) == before + [x];
    }
  }

  lemma {:induction false} CountAbsent(xs: seq<string>, x: string)
    requires x !in xs
    ensures Count(xs, x) == 0
  {
    if xs == [] {
    } else {
      CountAbsent(xs[..|xs| - 1], x);
    }
  }

  /** The counters say how many dependencies each stage still misses. */
  ghost predicate CountersRight(stages: seq<StageDef>, deg: map<string, nat>, done: seq<string>) {
    forall s | s in stages :: s.name in deg && deg[s.name] == Missing(s.dependsOn, done)
  }

  /** Passing over the dependents of a name appends exactly the stages it makes ready, in list order. */
  lemma {:induction false} PushedIsNewlyReady(
    stages: seq<StageDef>, deg: map<string, nat>, done: seq<string>, x: string)
    requires UniqueNames(stages) && CountersRight(stages, deg, done) && x !in done
    ensures Counted(deg, Dependents(stages, x))
    ensures Pushed(deg, Dependents(stages, x)) == NewlyReady(stages, done, x)
  {
    if stages == [] {
    } else {
      var n := |stages| - 1;
      var s := stages[n];
      PrefixNames(stages, n);
      PushedIsNewlyReady(stages[..n], deg, done, x);
      DependentsCount(stages[..n], x, s.name);
      assert s in stages;
      PushedRepeat(deg, Dependents(stages[..n], x), s.name, Mentions(s.dependsOn, x));
      MissingAfter(s.dependsOn, done, x);
      MissingNone(s.dependsOn, done + [x]);
      MentionsAny(s.dependsOn, x);
    }
  }

  // ---------------------------------------------------------------- the iteration order of the counter map

  /** Any order in which a map with one entry per stage may be iterated. */
  ghost predicate Enumerates(stages: seq<StageDef>, keys: seq<string>) {
    && NoDuplicates(keys)
    && (forall x | x in keys :: IsName(stages, x))
    && (forall s | s in stages :: s.name in keys)
  }

  function ZeroKeys(keys: seq<string>, deg: map<string, nat>): seq<string>
    requires forall k | k in keys :: k in deg
  {
    if keys == [] then []
    else
      var k := keys[|keys| - 1];
      ZeroKeys(keys[..|keys| - 1], deg) + (if deg[k] == 0 then [k] else [])
  }

  lemma {:induction false} ZeroKeysMembers(keys: seq<string>, deg: map<string, nat>)
    requires NoDuplicates(keys) && forall k | k in keys :: k in deg
    ensures forall x :: x in ZeroKeys(keys, deg) <==> x in keys && deg[x] == 0
    ensures NoDuplicates(ZeroKeys(keys, deg))
  {
    if keys == [] {
    } else {
      var n := |keys| - 1;
      ZeroKeysMembers(keys[..n], deg);
      assert keys == keys[..n] + [keys[n]];
      var before := ZeroKeys(keys[..n], deg);
      assert forall i | 0 <= i < |before| :: before[i] in keys[..n];
    }
  }

  /** The stages without dependencies, in the order the map is iterated. */
  ghost function Roots(stages: seq<StageDef>, keys: seq<string>): seq<string> {
    if keys == [] then []
    else
      var k := keys[|keys| - 1];
      Roots(stages, keys[..|keys| - 1])
      + (if exists s :: s in stages && s.name == k && s.dependsOn == [] then [k] else [])
  }

  lemma {:induction false} ZeroKeysAreRoots(stages: seq<StageDef>, keys: seq<string>, deg: map<string, nat>)
    requires UniqueNames(stages) && CountersRight(stages, deg, [])
    requires forall x | x in keys :: IsName(stages, x)
    ensures forall k | k in keys :: k in deg
    ensures ZeroKeys(keys, deg) == Roots(stages, keys)
  {
    if keys == [] {
    } else {
      var n := |keys| - 1;
      ZeroKeysAreRoots(stages, keys[..n], deg);
      assert IsName(stages, keys[n]);
      var s :| s in stages && s.name == keys[n];
      MissingAll(s.dependsOn);
    }
  }

  lemma {:induction false} RootsMembers(stages: seq<StageDef>, keys: seq<string>)
    requires NoDuplicates(keys)
    ensures forall x :: x in Roots(stages, keys) <==>
                        x in keys && exists s :: s in stages && s.name == x && s.dependsOn == []
    ensures NoDuplicates(Roots(stages, keys))
  {
    if keys == [] {
    } else {
      var n := |keys| - 1;
      RootsMembers(stages, keys[..n]);
      assert keys == keys[..n] + [keys[n]];
      var before := Roots(stages, keys[..n]);
      assert forall i | 0 <= i < |before| :: before[i] in keys[..n];
    }
  }

  lemma RootsAreConsistent(stages: seq<StageDef>, keys: seq<string>)
    requires UniqueNames(stages) && Enumerates(stages, keys)
    ensures Consistent(stages, Roots(stages, keys), [])
  {
    var queue := Roots(stages, keys);
    RootsMembers(stages, keys);
    assert [] + queue == queue;
    forall s
      ensures ExactAt(stages, s, [] + queue, [])
    {
      if s in stages && s.name in queue {
        var s' :| s' in stages && s'.name == s.name && s'.dependsOn == [];
        UniqueStage(stages, s, s');
      }
      if s in stages && s.dependsOn != [] {
        assert s.dependsOn[0] in s.dependsOn;
      }
    }
  }

  /** The order every process computes, as a function of the stage list and its map's iteration order. */
  ghost function OrderOf(stages: seq<StageDef>, keys: seq<string>): seq<string>
    requires UniqueNames(stages) && Enumerates(stages, keys)
  {
    RootsAreConsistent(stages, keys);
    Reference(stages, Roots(stages, keys), [])
  }

  // ---------------------------------------------------------------- the algorithm

  /** The counter and the dependents lists after the first `n` dependencies of a stage. */
  ghost predicate Recorded(
    stages: seq<StageDef>, stage: StageDef, n: nat, dependents: map<string, seq<string>>, x: string)
    requires n <= |stage.dependsOn|
  {
    Lookup(dependents, x) == Dependents(stages, x) + Repeat(stage.name, Mentions(stage.dependsOn[..n], x))
  }

  lemma MentionsNext(deps: seq<StageDef>, n: nat, x: string)
    requires n < |deps|
    ensures Mentions(deps[..n + 1], x) == Mentions(deps[..n], x) + (if deps[n].name == x then 1 else 0)
  {
    assert deps[..n + 1][..n] == deps[..n];
  }

  lemma RecordOne(
    stages: seq<StageDef>, stage: StageDef, n: nat, n': nat, dependents: map<string, seq<string>>, x: string)
    requires n' == n + 1 <= |stage.dependsOn|
    requires Recorded(stages, stage, n, dependents, x)
    ensures var d := stage.dependsOn[n].name;
            Recorded(stages, stage, n', dependents[d := Lookup(dependents, d) + [stage.name]], x)
  {
    MentionsNext(stage.dependsOn, n, x);
  }

  ghost predicate ListsRight(stages: seq<StageDef>, dependents: map<string, seq<string>>) {
    forall x :: Lookup(dependents, x) == Dependents(stages, x)
  }

  ghost predicate DegreesRight(stages: seq<StageDef>, inDegree: map<string, nat>) {
    && (forall s | s in stages :: s.name in inDegree && inDegree[s.name] == |s.dependsOn|)
    && (forall k | k in inDegree :: IsName(stages, k))
  }

  lemma DegreeRecorded(stages: seq<StageDef>, stage: StageDef, inDegree: map<string, nat>)
    requires DegreesRight(stages, inDegree) && !IsName(stages, stage.name)
    ensures DegreesRight(stages + [stage], inDegree[stage.name := |stage.dependsOn|])
  {
    var stages', inDegree' := stages + [stage], inDegree[stage.name := |stage.dependsOn|];
    forall k | k in inDegree'
      ensures IsName(stages', k)
    {
      if k == stage.name {
        assert stage in stages';
      } else {
        var s :| s in stages && s.name == k;
        assert s in stages';
      }
    }
    assert forall s | s in stages :: IsName(stages, s.name);
  }

  /** The first loop's work for one stage. */
  method CountStage(ghost stages: seq<StageDef>, stage: StageDef, dependents: map<string, seq<string>>)
    returns (degree: nat, dependents': map<string, seq<string>>)
    requires ListsRight(stages, dependents)
    ensures degree == |stage.dependsOn|
    ensures ListsRight(stages + [stage], dependents')
  {
    degree, dependents' := 0, dependents;
    while degree < |stage.dependsOn|
      invariant 0 <= degree <= |stage.dependsOn|
      invariant forall x :: Recorded(stages, stage, degree, dependents', x)
    {
      var dep := stage.dependsOn[degree];
      ghost var before, n := dependents', degree;
      degree := degree + 1;
      dependents' := dependents'[dep.name := Lookup(dependents', dep.name) + [stage.name]];
      forall x
        ensures Recorded(stages, stage, degree, dependents', x)
      {
        RecordOne(stages, stage, n, degree, before, x);
      }
    }
    forall x
      ensures Lookup(dependents', x) == Dependents(stages + [stage], x)
    {
      assert Recorded(stages, stage, degree, dependents', x);
      assert stage.dependsOn[..degree] == stage.dependsOn;
      assert (stages + [stage])[..|stages|] == stages;
    }
  }

  /** The first loop: one counter per stage and one list of dependents per name mentioned. */
  method CountDependencies(stages: seq<StageDef>)
    returns (inDegree: map<string, nat>, dependents: map<string, seq<string>>)
    requires UniqueNames(stages)
    ensures CountersRight(stages, inDegree, []) && (forall k | k in inDegree :: IsName(stages, k))
    ensures ListsRight(stages, dependents)
  {
    inDegree, dependents := map[], map[];
    var i := 0;
    while i < |stages|
      invariant 0 <= i <= |stages|
      invariant DegreesRight(stages[..i], inDegree) && ListsRight(stages[..i], dependents)
    {
      PrefixNames(stages, i);
      DegreeRecorded(stages[..i], stages[i], inDegree);
      assert stages[..i + 1] == stages[..i] + [stages[i]];
      var degree;
      degree, dependents := CountStage(stages[..i], stages[i], dependents);
      inDegree := inDegree[stages[i].name := degree];
      i := i + 1;
    }
    assert stages[..i] == stages;
    forall s | s in stages
      ensures s.name in inDegree && inDegree[s.name] == Missing(s.dependsOn, [])
    {
      MissingAll(s.dependsOn);
    }
  }

  lemma {:induction false} CountPrefix(xs: seq<string>, n: nat, x: string)
    requires n <= |xs|
    ensures Count(xs[..n], x) <= Count(xs, x)
  {
    CountAppend(xs[..n], xs[n..], x);
    assert xs == xs[..n] + xs[n..];
  }

  /** The counters after the first `n` dependents of `x` have been passed over. */
  ghost predicate CountersDuring(
    stages: seq<StageDef>, deg: map<string, nat>, done: seq<string>, ds: seq<string>, n: nat)
    requires n <= |ds|
  {
    forall s | s in stages ::
      s.name in deg && deg[s.name] + Count(ds[..n], s.name) == Missing(s.dependsOn, done)
  }

  /** No counter runs below zero: a stage is passed over at most as often as it misses something. */
  lemma CounterSuffices(stages: seq<StageDef>, done: seq<string>, x: string, n: nat) returns (s: StageDef)
    requires UniqueNames(stages) && x !in done && n < |Dependents(stages, x)|
    ensures s in stages && s.name == Dependents(stages, x)[n]
    ensures Count(Dependents(stages, x)[..n], s.name) < Missing(s.dependsOn, done)
  {
    var ds := Dependents(stages, x);
    DependentsAreNames(stages, x, ds[n]);
    s :| s in stages && s.name == ds[n];
    DependentsMention(stages, x, s);
    MissingAfter(s.dependsOn, done, x);
    CountPrefix(ds, n + 1, s.name);
    assert ds[..n + 1][..n] == ds[..n];
  }

  lemma DecrementKeepsCounters(
    stages: seq<StageDef>, deg: map<string, nat>, done: seq<string>, ds: seq<string>, n: nat, s: StageDef)
    requires n < |ds| && CountersDuring(stages, deg, done, ds, n)
    requires s in stages && s.name == ds[n] && Count(ds[..n], ds[n]) < Missing(s.dependsOn, done)
    ensures ds[n] in deg && deg[ds[n]] >= 1
    ensures CountersDuring(stages, deg[ds[n] := deg[ds[n]] - 1], done, ds, n + 1)
  {
    assert ds[..n + 1][..n] == ds[..n];
  }

  lemma PassKeepsCounters(stages: seq<StageDef>, deg: map<string, nat>, done: seq<string>, x: string)
    requires UniqueNames(stages) && x !in done
    requires CountersDuring(stages, deg, done, Dependents(stages, x), |Dependents(stages, x)|)
    ensures CountersRight(stages, deg, done + [x])
  {
    var ds := Dependents(stages, x);
    assert ds[..|ds|] == ds;
    forall s | s in stages
      ensures s.name in deg && deg[s.name] == Missing(s.dependsOn, done + [x])
    {
      DependentsMention(stages, x, s);
      MissingAfter(s.dependsOn, done, x);
    }
  }

  /** A counter comes down to zero at the last entry the original counter allows for. */
  lemma PushesAtZero(stages: seq<StageDef>, deg: map<string, nat>, deg': map<string, nat>, done: seq<string>,
                     ds: seq<string>, n: nat, s: StageDef)
    requires n < |ds| && CountersRight(stages, deg, done) && CountersDuring(stages, deg', done, ds, n)
    requires s in stages && s.name == ds[n] && Counted(deg, ds)
    ensures ds[n] in deg' && deg'[ds[n]] == 1 <==> Count(ds[..n], ds[n]) + 1 == deg[ds[n]]
    ensures Pushed(deg, ds[..n + 1]) == Pushed(deg, ds[..n]) + (if deg'[ds[n]] == 1 then [ds[n]] else [])
  {
    PushedLast(deg, ds[..n], ds[n]);
    assert ds[..n + 1] == ds[..n] + [ds[n]];
  }

  /** One round: pass over the dependents of the popped name and queue the ones that became ready. */
  method Relax(stages: seq<StageDef>, inDegree: map<string, nat>, ds: seq<string>, rest: seq<string>,
               ghost done: seq<string>, ghost name: string)
    returns (inDegree': map<string, nat>, queue: seq<string>)
    requires UniqueNames(stages) && CountersRight(stages, inDegree, done) && name !in done
    requires ds == Dependents(stages, name)
    ensures CountersRight(stages, inDegree', done + [name])
    ensures queue == rest + NewlyReady(stages, done, name)
  {
    assert Counted(inDegree, ds) by {
      PushedIsNewlyReady(stages, inDegree, done, name);
    }
    inDegree', queue := inDegree, rest;
    var j := 0;
    while j < |ds|
      invariant 0 <= j <= |ds|
      invariant CountersDuring(stages, inDegree', done, ds, j)
      invariant queue == rest + Pushed(inDegree, ds[..j])
    {
      ghost var s := CounterSuffices(stages, done, name, j);
      DecrementKeepsCounters(stages, inDegree', done, ds, j, s);
      PushesAtZero(stages, inDegree, inDegree', done, ds, j, s);
      var dep := ds[j];
      inDegree' := inDegree'[dep := inDegree'[dep] - 1];
      if inDegree'[dep] == 0 {
        queue := queue + [dep];
      }
      j := j + 1;
    }
    assert ds[..j] == ds;
    PassKeepsCounters(stages, inDegree', done, name);
    PushedIsNewlyReady(stages, inDegree, done, name);
  }

  datatype Outcome =
    | Ordered(order: seq<string>)
    | Unresolved(stage: string, dependency: string)
    | CycleDetected

  /**
   `topological_order`: emits every stage once and after its dependencies, and agrees with the
   counter-free reference; the length check at the end passes exactly when every reference resolves and
   there is no cycle.
   */
  method TopologicalOrder(stages: seq<StageDef>, keys: seq<string>) returns (result: Outcome)
    requires UniqueNames(stages) && Enumerates(stages, keys)
    ensures Exhausted(stages, OrderOf(stages, keys))
    ensures result.Ordered? <==> Resolves(stages) && !HasCycle(stages)
    ensures result.Ordered? ==> result.order == OrderOf(stages, keys) && IsComplete(stages, result.order)
    ensures !result.Ordered? ==> result == CycleDetected
  {
    var inDegree, dependents := CountDependencies(stages);
    ZeroKeysAreRoots(stages, keys, inDegree);
    RootsAreConsistent(stages, keys);
    var queue := ZeroKeys(keys, inDegree);
    var order: seq<string> := [];
    while queue != []
      invariant Consistent(stages, queue, order)
      invariant CountersRight(stages, inDegree, order)
      invariant Reference(stages, queue, order) == OrderOf(stages, keys)
      decreases |stages| - |order|
    {
      QueueMeansRoom(stages, queue, order);
      PopKeepsConsistent(stages, queue, order);
      HeadIsNotEmitted(queue, order);
      var name := queue[0];
      ghost var done := order;
      order := order + [name];
      inDegree, queue := Relax(stages, inDegree, Lookup(dependents, name), queue[1..], done, name);
    }
    ReferenceEnds(stages, queue, order);
    CompleteIffAcyclic(stages, order);
    FullLengthIsComplete(stages, order);
    if |order| == |stages| {
      result := Ordered(order);
    } else {
      result := CycleDetected;
    }
  }

  /** `validate_dag`: the first reference that names no stage is reported; otherwise the order is computed. */
  method ValidateDag(stages: seq<StageDef>, keys: seq<string>) returns (result: Outcome)
    requires UniqueNames(stages) && Enumerates(stages, keys)
    ensures result.Ordered? <==> Resolves(stages) && !HasCycle(stages)
    ensures result.Unresolved? <==> !Resolves(stages)
    ensures result.Unresolved? ==>
              !IsName(stages, result.dependency) && Edge(stages, result.stage, result.dependency)
  {
    var byName := set s | s in stages :: s.name;
    var i := 0;
    while i < |stages|
      invariant 0 <= i <= |stages|
      invariant forall s | s in stages[..i] :: ResolvesAt(stages, s)
    {
      var stage := stages[i];
      var j := 0;
      while j < |stage.dependsOn|
        invariant 0 <= j <= |stage.dependsOn|
        invariant forall d | d in stage.dependsOn[..j] :: IsName(stages, d.name)
      {
        var dep := stage.dependsOn[j];
        if dep.name !in byName {
          assert DependsOn(stage, dep.name) && stage in stages;
          assert !IsName(stages, dep.name);
          assert !ResolvesAt(stages, stage);
          return Unresolved(stage.name, dep.name);
        }
        j := j + 1;
      }
      i := i + 1;
    }
    assert stages[..i] == stages;
    result := TopologicalOrder(stages, keys);
  }
}
