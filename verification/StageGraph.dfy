/**
 The bootstrap stage graph: what a topological order of a stage list is, and the readiness-driven
 reference that Kahn's algorithm has to agree with.
 */
module StageGraph {

  datatype StageDef = StageDef(name: string, dependsOn: seq<StageDef>, isGlobal: bool)

  ghost predicate UniqueNames(stages: seq<StageDef>) {
    forall i, j | 0 <= i < j < |stages| :: stages[i].name != stages[j].name
  }

  ghost predicate NoDuplicates(xs: seq<string>) {
    forall i, j | 0 <= i < j < |xs| :: xs[i] != xs[j]
  }

  ghost predicate IsName(stages: seq<StageDef>, x: string) {
    exists s :: s in stages && s.name == x
  }

  predicate DependsOn(s: StageDef, x: string) {
    exists d :: d in s.dependsOn && d.name == x
  }

  /** Every dependency of `s` has been emitted. */
  predicate Ready(s: StageDef, done: seq<string>) {
    forall d | d in s.dependsOn :: d.name in done
  }

  ghost predicate ResolvesAt(stages: seq<StageDef>, s: StageDef) {
    s in stages ==> forall d | d in s.dependsOn :: IsName(stages, d.name)
  }

  /** All references resolve to a stage of the list. */
  ghost predicate Resolves(stages: seq<StageDef>) {
    forall s :: ResolvesAt(stages, s)
  }

  // ---------------------------------------------------------------- cycles

  ghost predicate Edge(stages: seq<StageDef>, a: string, b: string) {
    exists s :: s in stages && s.name == a && DependsOn(s, b)
  }

  ghost predicate EdgeAt(stages: seq<StageDef>, p: seq<string>, i: nat)
    requires i + 1 < |p|
  {
    Edge(stages, p[i], p[i + 1])
  }

  ghost predicate IsWalk(stages: seq<StageDef>, p: seq<string>) {
    forall i | 0 <= i < |p| - 1 :: EdgeAt(stages, p, i)
  }

  /** A walk that ends where it began. */
  ghost predicate IsCycle(stages: seq<StageDef>, p: seq<string>) {
    |p| >= 2 && p[0] == p[|p| - 1] && IsWalk(stages, p)
  }

  ghost predicate HasCycle(stages: seq<StageDef>) {
    exists p: seq<string> :: IsCycle(stages, p)
  }

  // ---------------------------------------------------------------- orders

  /** Emitted names, each once, each after everything it depends on. */
  ghost predicate DependenciesFirst(stages: seq<StageDef>, order: seq<string>) {
    forall i, s | 0 <= i < |order| && s in stages && s.name == order[i] :: Ready(s, order[..i])
  }

  ghost predicate IsTopological(stages: seq<StageDef>, order: seq<string>) {
    && NoDuplicates(order)
    && (forall x | x in order :: IsName(stages, x))
    && DependenciesFirst(stages, order)
  }

  /** The stage has been placed exactly when everything it depends on has been emitted. */
  ghost predicate ExactAt(stages: seq<StageDef>, s: StageDef, placed: seq<string>, order: seq<string>) {
    s in stages ==> (s.name in placed <==> Ready(s, order))
  }

  /** A topological order of exactly the stages whose dependencies it emits. */
  ghost predicate Exhausted(stages: seq<StageDef>, order: seq<string>) {
    IsTopological(stages, order) && forall s :: ExactAt(stages, s, order, order)
  }

  ghost predicate IsComplete(stages: seq<StageDef>, order: seq<string>) {
    forall s | s in stages :: s.name in order
  }

  // ---------------------------------------------------------------- the reference

  /** The stages, in list order, whose last missing dependency is `name`. */
  function NewlyReady(stages: seq<StageDef>, done: seq<string>, name: string): seq<string> {
    if stages == [] then []
    else
      var s := stages[|stages| - 1];
      NewlyReady(stages[..|stages| - 1], done, name)
      + (if DependsOn(s, name) && Ready(s, done + [name]) then [s.name] else [])
  }

  /** Exactly the ready stages are emitted or waiting, each once. */
  ghost predicate Consistent(stages: seq<StageDef>, queue: seq<string>, order: seq<string>) {
    && UniqueNames(stages)
    && NoDuplicates(order + queue)
    && (forall x | x in order + queue :: IsName(stages, x))
    && (forall s :: ExactAt(stages, s, order + queue, order))
    && DependenciesFirst(stages, order)
  }

  lemma {:induction false} NewlyReadyMembers(stages: seq<StageDef>, done: seq<string>, name: string)
    requires UniqueNames(stages)
    ensures forall x :: x in NewlyReady(stages, done, name) <==>
                        exists s :: s in stages && s.name == x && DependsOn(s, name) && Ready(s, done + [name])
    ensures NoDuplicates(NewlyReady(stages, done, name))
  {
    if stages == [] {
    } else {
      var n := |stages| - 1;
      NewlyReadyMembers(stages[..n], done, name);
      assert stages == stages[..n] + [stages[n]];
      var before := NewlyReady(stages[..n], done, name);
      assert stages[n].name !in before by {
        forall s | s in stages[..n]
          ensures s.name != stages[n].name
        {
          var i :| 0 <= i < n && stages[i] == s;
        }
      }
      assert forall i | 0 <= i < |before| :: before[i] != stages[n].name;
    }
  }

  lemma UniqueStage(stages: seq<StageDef>, s: StageDef, s': StageDef)
    requires UniqueNames(stages) && s in stages && s' in stages && s.name == s'.name
    ensures s == s'
  {
  }

  lemma HeadIsNotEmitted(queue: seq<string>, order: seq<string>)
    requires queue != [] && NoDuplicates(order + queue)
    ensures queue[0] !in order
  {
    forall i | 0 <= i < |order|
      ensures order[i] != queue[0]
    {
      assert (order + queue)[i] == order[i] && (order + queue)[|order|] == queue[0];
    }
  }

  /** A stage that waits for a name not yet emitted is neither emitted nor waiting in the queue. */
  lemma NewlyReadyAreNew(stages: seq<StageDef>, queue: seq<string>, order: seq<string>, x: string)
    requires Consistent(stages, queue, order) && queue != []
    requires x in NewlyReady(stages, order, queue[0])
    ensures x !in order + queue
  {
    NewlyReadyMembers(stages, order, queue[0]);
    var s :| s in stages && s.name == x && DependsOn(s, queue[0]) && Ready(s, order + [queue[0]]);
    HeadIsNotEmitted(queue, order);
    assert !Ready(s, order);
    assert ExactAt(stages, s, order + queue, order);
  }

  lemma PopKeepsNoDuplicates(stages: seq<StageDef>, queue: seq<string>, order: seq<string>)
    requires Consistent(stages, queue, order) && queue != []
    ensures NoDuplicates((order + [queue[0]]) + (queue[1..] + NewlyReady(stages, order, queue[0])))
  {
    var added := NewlyReady(stages, order, queue[0]);
    NewlyReadyMembers(stages, order, queue[0]);
    assert (order + [queue[0]]) + (queue[1..] + added) == (order + queue) + added;
    forall i, j | 0 <= i < |order + queue| && 0 <= j < |added|
      ensures (order + queue)[i] != added[j]
    {
      NewlyReadyAreNew(stages, queue, order, added[j]);
    }
  }

  lemma PopKeepsReadiness(stages: seq<StageDef>, queue: seq<string>, order: seq<string>, s: StageDef)
    requires Consistent(stages, queue, order) && queue != []
    ensures ExactAt(stages, s, (order + [queue[0]]) + (queue[1..] + NewlyReady(stages, order, queue[0])),
                    order + [queue[0]])
  {
    assert ExactAt(stages, s, order + queue, order);
    var added := NewlyReady(stages, order, queue[0]);
    NewlyReadyMembers(stages, order, queue[0]);
    assert (order + [queue[0]]) + (queue[1..] + added) == (order + queue) + added;
    if s !in stages {
    } else if s.name in added {
      var s' :| s' in stages && s'.name == s.name && DependsOn(s', queue[0]) && Ready(s', order + [queue[0]]);
      UniqueStage(stages, s, s');
    } else if Ready(s, order + [queue[0]]) && !Ready(s, order) {
      assert DependsOn(s, queue[0]);
    }
  }

  lemma PopKeepsOrder(stages: seq<StageDef>, queue: seq<string>, order: seq<string>)
    requires Consistent(stages, queue, order) && queue != []
    ensures DependenciesFirst(stages, order + [queue[0]])
  {
    var order' := order + [queue[0]];
    forall i, s | 0 <= i < |order'| && s in stages && s.name == order'[i]
      ensures Ready(s, order'[..i])
    {
      if i < |order| {
        assert order'[..i] == order[..i];
      } else {
        assert order'[..i] == order;
        assert ExactAt(stages, s, order + queue, order);
        assert s.name in order + queue;
      }
    }
  }

  lemma PopKeepsConsistent(stages: seq<StageDef>, queue: seq<string>, order: seq<string>)
    requires Consistent(stages, queue, order) && queue != []
    ensures Consistent(stages, queue[1..] + NewlyReady(stages, order, queue[0]), order + [queue[0]])
  {
    var added := NewlyReady(stages, order, queue[0]);
    PopKeepsNoDuplicates(stages, queue, order);
    PopKeepsOrder(stages, queue, order);
    forall s
      ensures ExactAt(stages, s, (order + [queue[0]]) + (queue[1..] + added), order + [queue[0]])
    {
      PopKeepsReadiness(stages, queue, order, s);
    }
    NewlyReadyMembers(stages, order, queue[0]);
    assert (order + [queue[0]]) + (queue[1..] + added) == (order + queue) + added;
  }

  // ---------------------------------------------------------------- counting

  function Names(stages: seq<StageDef>): set<string> {
    set i | 0 <= i < |stages| :: stages[i].name
  }

  lemma {:induction false} NamesBound(stages: seq<StageDef>)
    ensures |Names(stages)| <= |stages|
  {
    if stages == [] {
    } else {
      var n := |stages| - 1;
      NamesBound(stages[..n]);
      assert Names(stages) == Names(stages[..n]) + {stages[n].name};
    }
  }

  /** A duplicate-free sequence over a finite set is no longer than the set. */
  lemma {:induction false} Pigeonhole(xs: seq<string>, names: set<string>)
    requires NoDuplicates(xs) && forall x | x in xs :: x in names
    ensures |xs| <= |names|
    decreases |xs|
  {
    if xs == [] {
    } else {
      var n := |xs| - 1;
      assert forall x | x in xs[..n] :: x in names - {xs[n]};
      Pigeonhole(xs[..n], names - {xs[n]});
    }
  }

  lemma OrderFits(stages: seq<StageDef>, order: seq<string>)
    requires NoDuplicates(order) && forall x | x in order :: IsName(stages, x)
    ensures |order| <= |stages|
  {
    forall x | x in order
      ensures x in Names(stages)
    {
      var s :| s in stages && s.name == x;
      var i :| 0 <= i < |stages| && stages[i] == s;
    }
    NamesBound(stages);
    Pigeonhole(order, Names(stages));
  }

  lemma QueueMeansRoom(stages: seq<StageDef>, queue: seq<string>, order: seq<string>)
    requires Consistent(stages, queue, order)
    ensures |order| + |queue| <= |stages|
  {
    OrderFits(stages, order + queue);
  }

  /**
   Kahn's algorithm without counters: take the head of the queue and append every stage that it was the
   last missing dependency of.
   */
  ghost function Reference(stages: seq<StageDef>, queue: seq<string>, order: seq<string>): seq<string>
    requires Consistent(stages, queue, order)
    decreases |stages| - |order|
  {
    if queue == [] then order
    else
      QueueMeansRoom(stages, queue, order);
      PopKeepsConsistent(stages, queue, order);
      Reference(stages, queue[1..] + NewlyReady(stages, order, queue[0]), order + [queue[0]])
  }

  /** The reference runs until exactly the stages whose dependencies were all emitted are emitted. */
  lemma {:induction false} ReferenceEnds(stages: seq<StageDef>, queue: seq<string>, order: seq<string>)
    requires Consistent(stages, queue, order)
    ensures Exhausted(stages, Reference(stages, queue, order))
    ensures order + queue <= Reference(stages, queue, order)
    decreases |stages| - |order|
  {
    if queue == [] {
      assert order + queue == order;
      forall s
        ensures ExactAt(stages, s, order, order)
      {
        assert ExactAt(stages, s, order + queue, order);
      }
    } else {
      QueueMeansRoom(stages, queue, order);
      PopKeepsConsistent(stages, queue, order);
      var added := NewlyReady(stages, order, queue[0]);
      ReferenceEnds(stages, queue[1..] + added, order + [queue[0]]);
      assert (order + [queue[0]]) + (queue[1..] + added) == (order + queue) + added;
    }
  }

  // ---------------------------------------------------------------- complete orders and cycles

  /** Along a walk, positions in a dependencies-first order fall. */
  lemma EdgeGoesBack(stages: seq<StageDef>, order: seq<string>, i: nat, b: string) returns (j: nat)
    requires UniqueNames(stages) && DependenciesFirst(stages, order)
    requires i < |order| && Edge(stages, order[i], b)
    ensures j < i && order[j] == b
  {
    var s :| s in stages && s.name == order[i] && DependsOn(s, b);
    assert Ready(s, order[..i]);
    j :| 0 <= j < i && order[j] == b;
  }

  lemma PartOfWalk(stages: seq<StageDef>, p: seq<string>, i: nat, j: nat)
    requires IsWalk(stages, p) && i <= j <= |p|
    ensures IsWalk(stages, p[i..j])
  {
    var c := p[i..j];
    forall k | 0 <= k < |c| - 1
      ensures EdgeAt(stages, c, k)
    {
      assert EdgeAt(stages, p, i + k);
    }
  }

  lemma {:induction false} WalkGoesBack(stages: seq<StageDef>, order: seq<string>, p: seq<string>, i: nat)
    returns (j: nat)
    requires UniqueNames(stages) && DependenciesFirst(stages, order)
    requires |p| >= 2 && IsWalk(stages, p) && i < |order| && order[i] == p[0]
    ensures j < i && order[j] == p[|p| - 1]
    decreases |p|
  {
    assert EdgeAt(stages, p, 0);
    j := EdgeGoesBack(stages, order, i, p[1]);
    if |p| == 2 {
    } else {
      PartOfWalk(stages, p, 1, |p|);
      assert p[1..] == p[1..|p|];
      j := WalkGoesBack(stages, order, p[1..], j);
    }
  }

  lemma WalkEndsElsewhere(stages: seq<StageDef>, order: seq<string>, p: seq<string>)
    requires UniqueNames(stages) && IsTopological(stages, order) && IsComplete(stages, order)
    requires |p| >= 2 && IsWalk(stages, p)
    ensures p[0] != p[|p| - 1]
  {
    assert EdgeAt(stages, p, 0);
    var s :| s in stages && s.name == p[0] && DependsOn(s, p[1]);
    var i :| 0 <= i < |order| && order[i] == p[0];
    var j := WalkGoesBack(stages, order, p, i);
  }

  lemma CompleteHasNoCycle(stages: seq<StageDef>, order: seq<string>)
    requires UniqueNames(stages) && IsTopological(stages, order) && IsComplete(stages, order)
    ensures Resolves(stages) && !HasCycle(stages)
  {
    forall s
      ensures ResolvesAt(stages, s)
    {
      if s in stages {
        var i :| 0 <= i < |order| && order[i] == s.name;
        assert Ready(s, order[..i]);
        assert forall d | d in s.dependsOn :: d.name in order;
      }
    }
    forall p: seq<string>
      ensures !IsCycle(stages, p)
    {
      if |p| >= 2 && IsWalk(stages, p) {
        WalkEndsElsewhere(stages, order, p);
      }
    }
  }

  /** A name that was not emitted depends on another one that was not. */
  lemma StuckOnStuck(stages: seq<StageDef>, order: seq<string>, x: string) returns (y: string)
    requires Exhausted(stages, order) && Resolves(stages)
    requires IsName(stages, x) && x !in order
    ensures Edge(stages, x, y) && IsName(stages, y) && y !in order
  {
    var s :| s in stages && s.name == x;
    assert ExactAt(stages, s, order, order) && ResolvesAt(stages, s);
    var d :| d in s.dependsOn && d.name !in order;
    y := d.name;
    assert DependsOn(s, y);
  }

  lemma {:induction false} StuckWalk(stages: seq<StageDef>, order: seq<string>, x: string, n: nat)
    returns (p: seq<string>)
    requires Exhausted(stages, order) && Resolves(stages)
    requires IsName(stages, x) && x !in order
    ensures |p| == n + 1 && p[0] == x && IsWalk(stages, p)
    ensures forall y | y in p :: IsName(stages, y)
    decreases n
  {
    if n == 0 {
      p := [x];
    } else {
      var y := StuckOnStuck(stages, order, x);
      var rest := StuckWalk(stages, order, y, n - 1);
      p := [x] + rest;
      forall k | 0 <= k < |p| - 1
        ensures EdgeAt(stages, p, k)
      {
        if k > 0 {
          assert EdgeAt(stages, rest, k - 1);
        }
      }
    }
  }

  lemma RepeatIsCycle(stages: seq<StageDef>, p: seq<string>, i: nat, j: nat)
    requires IsWalk(stages, p) && i < j < |p| && p[i] == p[j]
    ensures HasCycle(stages)
  {
    var c := p[i..j + 1];
    PartOfWalk(stages, p, i, j + 1);
    assert IsCycle(stages, c);
  }

  lemma LongListRepeats(stages: seq<StageDef>, p: seq<string>) returns (i: nat, j: nat)
    requires |p| > |stages| && forall y | y in p :: IsName(stages, y)
    ensures i < j < |p| && p[i] == p[j]
  {
    if NoDuplicates(p) {
      OrderFits(stages, p);
    } else {
      i, j :| 0 <= i < j < |p| && p[i] == p[j];
    }
  }

  /** A walk longer than the stage list runs into itself. */
  lemma LongWalkHasCycle(stages: seq<StageDef>, p: seq<string>)
    requires |p| > |stages| && IsWalk(stages, p) && forall y | y in p :: IsName(stages, y)
    ensures HasCycle(stages)
  {
    var i, j := LongListRepeats(stages, p);
    RepeatIsCycle(stages, p, i, j);
  }

  /** The order is complete exactly when every reference resolves and there is no cycle. */
  lemma CompleteIffAcyclic(stages: seq<StageDef>, order: seq<string>)
    requires UniqueNames(stages) && Exhausted(stages, order)
    ensures IsComplete(stages, order) <==> Resolves(stages) && !HasCycle(stages)
  {
    if IsComplete(stages, order) {
      CompleteHasNoCycle(stages, order);
    } else if Resolves(stages) {
      var s :| s in stages && s.name !in order;
      var p := StuckWalk(stages, order, s.name, |stages|);
      LongWalkHasCycle(stages, p);
    }
  }

  lemma {:induction false} UniqueNamesCount(stages: seq<StageDef>)
    requires UniqueNames(stages)
    ensures |Names(stages)| == |stages|
  {
    if stages == [] {
    } else {
      var n := |stages| - 1;
      UniqueNamesCount(stages[..n]);
      assert Names(stages) == Names(stages[..n]) + {stages[n].name};
      assert stages[n].name !in Names(stages[..n]);
    }
  }

  lemma {:induction false} DistinctCount(xs: seq<string>)
    requires NoDuplicates(xs)
    ensures |set x | x in xs| == |xs|
  {
    if xs == [] {
    } else {
      var n := |xs| - 1;
      DistinctCount(xs[..n]);
      assert (set x | x in xs) == (set x | x in xs[..n]) + {xs[n]};
    }
  }

  /** For a consistent order, having as many names as stages is having all of them. */
  lemma FullLengthIsComplete(stages: seq<StageDef>, order: seq<string>)
    requires UniqueNames(stages) && NoDuplicates(order) && forall x | x in order :: IsName(stages, x)
    ensures |order| == |stages| <==> IsComplete(stages, order)
  {
    var emitted := set x | x in order;
    DistinctCount(order);
    UniqueNamesCount(stages);
    forall x | x in emitted
      ensures x in Names(stages)
    {
      var s :| s in stages && s.name == x;
      var i :| 0 <= i < |stages| && stages[i] == s;
    }
    if IsComplete(stages, order) {
      assert Names(stages) == emitted;
    }
    if |order| == |stages| {
      SubsetOfSameSize(emitted, Names(stages));
      forall s | s in stages
        ensures s.name in order
      {
        assert s.name in Names(stages);
      }
    }
  }

  lemma {:induction false} SubsetOfSameSize(a: set<string>, b: set<string>)
    requires a <= b && |a| == |b|
    ensures a == b
  {
    assert b == a + (b - a);
    assert |b| == |a| + |b - a|;
  }
}
