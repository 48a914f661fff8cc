/** How long a lease lives: what taking and renewing it write, and what others can do while it is alive. */
module LeaseLife {
  import opened Options
  import opened DriveStore
  import opened LeaseProtocol
  import opened LeaseInvariant
  import opened LeaseTheorems

  // ---------------------------------------------------------------- one write

  /** The lease is alive until a full lease time after its heartbeat. */
  lemma AliveIff(d: Drive, now: nat)
    ensures SweepAlive(d, now) <==> d.status.Deleting? && now < d.heartbeat + SWEEP_LEASE_MS
  {
  }

  /**
   A renewal carries the least heartbeat that is neither before the clock nor one written before, changes
   nothing else, and keeps the lease alive for a full lease time from the clock.
   */
  lemma RenewalIsLeast(d: Drive, clock: nat)
    ensures var r := Renewed(d, clock);
            && r == d.(heartbeat := r.heartbeat) && r.heartbeat >= clock && r.heartbeat > d.heartbeat
            && (r.heartbeat == clock || r.heartbeat == d.heartbeat + 1)
            && (d.status.Deleting? ==> forall now: nat | now < clock + SWEEP_LEASE_MS :: SweepAlive(r, now))
  {
    forall now: nat | now < clock + SWEEP_LEASE_MS
      ensures d.status.Deleting? ==> SweepAlive(Renewed(d, clock), now)
    {
      AliveIff(Renewed(d, clock), now);
    }
  }

  /** Taking a lease starts it at the clock and keeps the drive, its bucket and its first deletion time. */
  lemma TakingStartsLease(d: Drive, clock: nat, token: nat)
    ensures var r := Taken(d, clock, token);
            && r.id == d.id && r.root == d.root && r.status.Deleting? && r.token == token && r.heartbeat == clock
            && r.deletingSince == (if d.deletingSince != 0 then d.deletingSince else clock)
            && forall now: nat | now < clock + SWEEP_LEASE_MS :: SweepAlive(r, now)
  {
    forall now: nat | now < clock + SWEEP_LEASE_MS
      ensures SweepAlive(Taken(d, clock, token), now)
    {
      AliveIff(Taken(d, clock, token), now);
    }
  }

  // ---------------------------------------------------------------- all writes of a run

  /** The clock readings at which a delete sent its lease writes, in a run. */
  function ClockBook(s: Step, t: nat, clocks: seq<nat>): seq<nat> {
    if (s.Registers? || s.Renews?) && s.t == t then clocks + [s.clock] else clocks
  }

  ghost function Clocks(w: World, steps: seq<Step>, t: nat, clocks: seq<nat>): seq<nat>
    requires CanRun(w, steps)
    decreases |steps|
  {
    if steps == [] then clocks else Clocks(Do(w, steps[0]), steps[1..], t, ClockBook(steps[0], t, clocks))
  }

  /** Write `k` takes the lease the request saw, or renews the write before it, at the clock reading noted. */
  predicate MadeAt(task: Task, clocks: seq<nat>, k: nat)
    requires k < |task.writes| == |clocks|
  {
    task.writes[k].data ==
      if k == 0 then Taken(task.seen.data, clocks[0], TokenOf(task)) else Renewed(task.writes[k - 1].data, clocks[k])
  }

  ghost predicate Made(task: Task, clocks: seq<nat>) {
    |task.writes| == |clocks| && forall k | 0 <= k < |clocks| :: MadeAt(task, clocks, k)
  }

  ghost predicate MadeIn(w: World, t: nat, clocks: seq<nat>) {
    if t in w.tasks then Made(w.tasks[t], clocks) else clocks == []
  }

  lemma MadeAppended(task: Task, task': Task, clocks: seq<nat>, clock: nat, p: Put)
    requires Made(task, clocks) && task'.writes == task.writes + [p] && task'.seen == task.seen
    requires p.data == if task.writes == [] then Taken(task.seen.data, clock, p.data.token)
                       else Renewed(task.writes[|task.writes| - 1].data, clock)
    ensures Made(task', clocks + [clock])
  {
    forall k | 0 <= k < |clocks + [clock]|
      ensures MadeAt(task', clocks + [clock], k)
    {
      if k < |clocks| {
        assert MadeAt(task, clocks, k);
      }
    }
  }

  lemma MadeByLeaseStep(w: World, s: Step, clocks: seq<nat>)
    requires TasksOk(w) && Can(w, s) && (s.Registers? || s.Renews?) && MadeIn(w, s.t, clocks)
    ensures MadeIn(Do(w, s), s.t, clocks + [s.clock])
  {
    var task := w.tasks[s.t];
    assert TaskAt(w, s.t);
    if s.Renews? {
      SettledData(w, s.t);
    }
    var task' := Do(w, s).tasks[s.t];
    MadeAppended(task, task', clocks, s.clock, task'.writes[|task.writes|]);
  }

  lemma MadeStep(w: World, s: Step, t: nat, clocks: seq<nat>)
    requires TasksOk(w) && Can(w, s) && MadeIn(w, t, clocks)
    ensures MadeIn(Do(w, s), t, ClockBook(s, t, clocks))
  {
    if (s.Registers? || s.Renews?) && s.t == t {
      MadeByLeaseStep(w, s, clocks);
    } else if t in w.tasks {
      WritesGrow(w, s, t);
      SeenStays(w, s, t);
      MadeSame(w.tasks[t], Do(w, s).tasks[t], clocks);
    } else if t in Do(w, s).tasks {
      FirstSeen(w, s, t);
    }
  }

  lemma MadeSame(task: Task, task': Task, clocks: seq<nat>)
    requires Made(task, clocks) && task'.writes == task.writes && task'.seen == task.seen
    ensures Made(task', clocks)
  {
    forall k | 0 <= k < |clocks|
      ensures MadeAt(task', clocks, k)
    {
      assert MadeAt(task, clocks, k);
    }
  }

  lemma SeenStays(w: World, s: Step, t: nat)
    requires Can(w, s) && t in w.tasks
    ensures t in Do(w, s).tasks && Do(w, s).tasks[t].seen == w.tasks[t].seen
  {
    if Actor(s).Some? {
      ActorFrame(w, s);
      ActorCarries(w, s);
    }
  }

  lemma FirstSeen(w: World, s: Step, t: nat)
    requires Can(w, s) && t !in w.tasks && t in Do(w, s).tasks
    ensures s.Resolves? && s.t == t && Do(w, s).tasks[t].writes == []
  {
    if Actor(s).Some? {
      ActorFrame(w, s);
      ActorCarries(w, s);
    }
  }

  lemma {:induction false} MadeRun(w: World, steps: seq<Step>, t: nat, clocks: seq<nat>)
    requires Inv(w) && CanRun(w, steps) && MadeIn(w, t, clocks)
    ensures MadeIn(After(w, steps), t, Clocks(w, steps, t, clocks))
    decreases |steps|
  {
    if steps == [] {
    } else {
      StepKept(w, steps[0]);
      MadeStep(w, steps[0], t, clocks);
      MadeRun(Do(w, steps[0]), steps[1..], t, ClockBook(steps[0], t, clocks));
    }
  }

  /** Over every run, each lease write is a takeover or a renewal at the clock reading it was sent at. */
  lemma EveryWriteIsMade(w: World, steps: seq<Step>, t: nat)
    requires Initial(w) && CanRun(w, steps) && t in After(w, steps).tasks
    ensures Made(After(w, steps).tasks[t], Clocks(w, steps, t, []))
  {
    assert Inv(w);
    MadeRun(w, steps, t, []);
  }

  // ---------------------------------------------------------------- the record's history

  /** A write of a delete never has a heartbeat before the clock it was sent at. */
  lemma HeartbeatFollowsClock(task: Task, clocks: seq<nat>, k: nat)
    requires Made(task, clocks) && k < |clocks|
    ensures task.writes[k].data.heartbeat >= clocks[k]
  {
    assert MadeAt(task, clocks, k);
  }

  /** What stands directly before a lease write in the record's history, and how the write was made of it. */
  lemma HistoryIsMade(w: World, steps: seq<Step>, i: nat) returns (t: nat, k: nat)
    requires Initial(w) && CanRun(w, steps)
    requires var log := After(w, steps).log; i < |log| && log[i].Wrote? && log[i].data.token != 0
    ensures var w', clocks := After(w, steps), Clocks(w, steps, t, []);
            && i > 0 && w'.log[i - 1].Wrote? && t in w'.tasks && k < |w'.tasks[t].writes| == |clocks|
            && w'.tasks[t].writes[k] == Put(w'.log[i].expected, w'.log[i].data)
            && w'.log[i].data ==
               (if k == 0 then Taken(w'.log[i - 1].data, clocks[0], w'.log[i].data.token)
                else Renewed(w'.log[i - 1].data, clocks[k]))
            && (k == 0 ==> !SweepAlive(w'.log[i - 1].data, w'.tasks[t].seenAt))
  {
    var w' := After(w, steps);
    t, k := EveryLeaseWriteIsFenced(w', i);
    EveryWriteIsMade(w, steps, t);
    assert MadeAt(w'.tasks[t], Clocks(w, steps, t, []), k);
  }

  /** Renewals and takeovers keep the drive, its bucket and the time its deletion was first asked for. */
  lemma FirstDeletionTimeStays(w: World, steps: seq<Step>, i: nat)
    requires Initial(w) && CanRun(w, steps)
    requires var log := After(w, steps).log; i < |log| && log[i].Wrote? && log[i].data.token != 0
    ensures var log := After(w, steps).log;
            && i > 0 && log[i - 1].Wrote?
            && log[i].data.id == log[i - 1].data.id && log[i].data.root == log[i - 1].data.root
            && (log[i - 1].data.deletingSince != 0 ==> log[i].data.deletingSince == log[i - 1].data.deletingSince)
  {
    var t, k := HistoryIsMade(w, steps, i);
  }

  lemma OwnTokenOf(w: World, steps: seq<Step>, t: nat, k: nat)
    requires Initial(w) && CanRun(w, steps) && t in After(w, steps).tasks && k < |After(w, steps).tasks[t].writes|
    ensures After(w, steps).tasks[t].writes[k].data.token == TokenOf(After(w, steps).tasks[t])
    ensures After(w, steps).tasks[t].writes[k].data.status.Deleting?
  {
    var w' := After(w, steps);
    ReachableIsSound(w');
    assert TaskAt(w', t);
    assert OwnWrite(w'.tasks[t], k);
  }

  /**
   A lease is only taken over once it has run out: over every run, where one delete's write directly follows
   another's, the newcomer had read the record at least a full lease time after the clock reading at which
   the write it replaced was sent.
   */
  lemma TakeoverWaitsOut(w: World, steps: seq<Step>, i: nat) returns (t: nat, k: nat, u: nat)
    requires Initial(w) && CanRun(w, steps)
    requires var log := After(w, steps).log;
             && 0 < i < |log| && log[i].Wrote? && log[i - 1].Wrote?
             && log[i].data.token != 0 && log[i - 1].data.token != 0 && log[i].data.token != log[i - 1].data.token
    ensures var w', clocks := After(w, steps), Clocks(w, steps, t, []);
            && t in w'.tasks && u in w'.tasks && k < |w'.tasks[t].writes| == |clocks|
            && w'.tasks[t].writes[k] == Put(w'.log[i - 1].expected, w'.log[i - 1].data)
            && w'.log[i].data.token == TokenOf(w'.tasks[u])
            && w'.tasks[u].seenAt >= clocks[k] + SWEEP_LEASE_MS
  {
    var w' := After(w, steps);
    var l: nat;
    u, l := HistoryIsMade(w, steps, i);
    t, k := HistoryIsMade(w, steps, i - 1);
    OwnTokenOf(w, steps, u, l);
    OwnTokenOf(w, steps, t, k);
    EveryWriteIsMade(w, steps, t);
    HeartbeatFollowsClock(w'.tasks[t], Clocks(w, steps, t, []), k);
    AliveIff(w'.log[i - 1].data, w'.tasks[u].seenAt);
  }

  // ---------------------------------------------------------------- what a live lease keeps others from

  /** Whoever resolves the record while a lease write is stored has that write in hand. */
  lemma StoredLeaseIsSeen(w: World, p: Put, u: nat, proc: nat, force: bool)
    requires HeldBy(w.log, p) && Can(w, Resolves(u, proc, force))
    ensures Do(w, Resolves(u, proc, force)).tasks[u].seen.data == p.data
  {
  }

  /** A request that has not written yet holds the record it resolved. */
  lemma LiveHandle(w: World, steps: seq<Step>, u: nat)
    requires Initial(w) && CanRun(w, steps) && At(After(w, steps), u, Live)
    ensures After(w, steps).tasks[u].drive == After(w, steps).tasks[u].seen
  {
    var w' := After(w, steps);
    ReachableIsSound(w');
    assert TaskAt(w', u);
  }

  /**
   A force delete that resolved a lease write answers "in progress" exactly while that lease is alive, and
   takes over exactly once it is not, if its process has a free slot.  In particular it can do the former and
   not the latter for a full lease time from the clock reading the write was sent at.
   */
  lemma LiveLeaseIsRespected(w: World, steps: seq<Step>, t: nat, k: nat, u: nat, now: nat, clock: nat, token: nat)
    requires Initial(w) && CanRun(w, steps)
    requires var w' := After(w, steps);
             && t in w'.tasks && k < |w'.tasks[t].writes|
             && At(w', u, Live) && w'.tasks[u].force && w'.tasks[u].seen.data == w'.tasks[t].writes[k].data
    ensures var w', clocks := After(w, steps), Clocks(w, steps, t, []);
            var until := w'.tasks[t].writes[k].data.heartbeat + SWEEP_LEASE_MS;
            && |clocks| == |w'.tasks[t].writes| && clocks[k] + SWEEP_LEASE_MS <= until
            && (Can(w', AnswersAlive(u, now)) <==> now < until)
            && (Can(w', Registers(u, now, clock, token)) <==>
                now >= until && w'.tasks[u].proc !in w'.slots && FreshToken(w', token))
  {
    var w' := After(w, steps);
    EveryWriteIsMade(w, steps, t);
    HeartbeatFollowsClock(w'.tasks[t], Clocks(w, steps, t, []), k);
    OwnTokenOf(w, steps, t, k);
    LiveHandle(w, steps, u);
    AliveIff(w'.tasks[u].drive.data, now);
  }
}
