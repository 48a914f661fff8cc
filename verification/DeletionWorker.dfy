/**
 The background deletion worker's scheduling loop: at most four attempts at a time, taken in turn from
 the intake channel and from the queue of retries.

 The environment (senders, the clock, attempts that end, the stop signal) is a sequence of events; an arm
 of the loop's select runs when its event comes and its guard holds.
 */
module DeletionWorker {
  type Id = nat

  const CONCURRENCY: nat := 4
  /** One second, in milliseconds. */
  const RETRY_DELAY: nat := 1000

  datatype Retry = Retry(readyAt: nat, request: Id)

  datatype Source = FromIntake | FromRetries

  /** An attempt that was started: from where, and what else was waiting at that moment. */
  datatype Admission = Admission(source: Source, retryReady: bool, intakeWaiting: bool, selected: bool)

  datatype Happening = Arrives(request: Id) | SendersLeave | Elapses(time: nat)

  datatype Arm = InputArm | AttemptArm(slot: nat, done: bool) | SleepArm | ShutdownArm

  datatype Event = Outside(happening: Happening) | Selected(arm: Arm)

  function Requests(retries: seq<Retry>): seq<Id> {
    if retries == [] then [] else [retries[0].request] + Requests(retries[1..])
  }

  lemma {:induction false} RequestsAppend(retries: seq<Retry>, r: Retry)
    ensures Requests(retries + [r]) == Requests(retries) + [r.request]
  {
    if retries == [] {
    } else {
      RequestsAppend(retries[1..], r);
      assert (retries + [r])[1..] == retries[1..] + [r];
    }
  }

  ghost function Times(x: Id, ids: seq<Id>): nat {
    if ids == [] then 0 else (if ids[0] == x then 1 else 0) + Times(x, ids[1..])
  }

  lemma {:induction false} TimesAppend(x: Id, ids: seq<Id>, more: seq<Id>)
    ensures Times(x, ids + more) == Times(x, ids) + Times(x, more)
  {
    if ids == [] {
      assert ids + more == more;
    } else {
      TimesAppend(x, ids[1..], more);
      assert (ids + more)[1..] == ids[1..] + more;
    }
  }

  lemma TimesWithout(x: Id, ids: seq<Id>, i: nat)
    requires i < |ids|
    ensures Times(x, ids) == Times(x, ids[..i] + ids[i + 1..]) + (if x == ids[i] then 1 else 0)
  {
    TimesAppend(x, ids[..i], ids[i + 1..]);
    TimesAppend(x, ids[..i], ids[i..]);
    assert ids == ids[..i] + ids[i..];
  }

  /** Neither source is passed over twice: what two consecutive admissions may look like. */
  ghost predicate InTurn(a: Admission, b: Admission) {
    && (a.source.FromRetries? && b.intakeWaiting ==> b.source.FromIntake?)
    && (a.source.FromIntake? && b.retryReady ==> (b.source.FromIntake? <==> b.selected))
    && !(a.source.FromIntake? && a.retryReady && b.source.FromIntake? && b.retryReady)
  }

  ghost predicate Fair(log: seq<Admission>) {
    forall i | 0 < i < |log| :: InTurn(log[i - 1], log[i])
  }

  ghost predicate InOrder(retries: seq<Retry>, now: nat) {
    && (forall i, j | 0 <= i < j < |retries| :: retries[i].readyAt <= retries[j].readyAt)
    && (forall i | 0 <= i < |retries| :: retries[i].readyAt <= now + RETRY_DELAY)
  }

  /** The last admission passed a due retry over. */
  ghost predicate PassedOver(log: seq<Admission>) {
    log != [] && log[|log| - 1].source.FromIntake? && log[|log| - 1].retryReady
  }

  ghost predicate Due(retries: seq<Retry>, now: nat) {
    retries != [] && retries[0].readyAt <= now
  }

  /** No request is lost or doubled. */
  ghost predicate Balanced(accepted: seq<Id>, intake: seq<Id>, active: seq<Id>, queued: seq<Id>, finished: seq<Id>) {
    forall x :: Times(x, accepted) == Times(x, intake) + Times(x, active) + Times(x, queued) + Times(x, finished)
  }

  /** The preference is the last admission's doing, and a retry passed over is still the one at the head. */
  ghost predicate Turns(log: seq<Admission>, preferRetry: bool, retries: seq<Retry>, now: nat) {
    && Fair(log)
    && preferRetry == (log != [] ==> log[|log| - 1].source.FromIntake?)
    && (PassedOver(log) ==> Due(retries, now))
  }

  lemma RequestArrives(accepted: seq<Id>, intake: seq<Id>, active: seq<Id>, queued: seq<Id>, finished: seq<Id>, r: Id)
    requires Balanced(accepted, intake, active, queued, finished)
    ensures Balanced(accepted + [r], intake + [r], active, queued, finished)
  {
    forall x
      ensures Times(x, accepted + [r]) ==
              Times(x, intake + [r]) + Times(x, active) + Times(x, queued) + Times(x, finished)
    {
      TimesAppend(x, accepted, [r]);
      TimesAppend(x, intake, [r]);
    }
  }

  lemma IntakeStarts(accepted: seq<Id>, intake: seq<Id>, active: seq<Id>, queued: seq<Id>, finished: seq<Id>)
    requires Balanced(accepted, intake, active, queued, finished) && intake != []
    ensures Balanced(accepted, intake[1..], active + [intake[0]], queued, finished)
  {
    forall x
      ensures Times(x, accepted) ==
              Times(x, intake[1..]) + Times(x, active + [intake[0]]) + Times(x, queued) + Times(x, finished)
    {
      TimesAppend(x, active, [intake[0]]);
    }
  }

  lemma RetryStarts(accepted: seq<Id>, intake: seq<Id>, active: seq<Id>, queued: seq<Id>, finished: seq<Id>)
    requires Balanced(accepted, intake, active, queued, finished) && queued != []
    ensures Balanced(accepted, intake, active + [queued[0]], queued[1..], finished)
  {
    forall x
      ensures Times(x, accepted) ==
              Times(x, intake) + Times(x, active + [queued[0]]) + Times(x, queued[1..]) + Times(x, finished)
    {
      TimesAppend(x, active, [queued[0]]);
    }
  }

  lemma AttemptEnds(accepted: seq<Id>, intake: seq<Id>, active: seq<Id>, queued: seq<Id>, finished: seq<Id>, i: nat)
    requires Balanced(accepted, intake, active, queued, finished) && i < |active|
    ensures Balanced(accepted, intake, active[..i] + active[i + 1..], queued, finished + [active[i]])
    ensures Balanced(accepted, intake, active[..i] + active[i + 1..], queued + [active[i]], finished)
  {
    forall x
      ensures Times(x, active) == Times(x, active[..i] + active[i + 1..]) + Times(x, [active[i]])
      ensures Times(x, finished + [active[i]]) == Times(x, finished) + Times(x, [active[i]])
      ensures Times(x, queued + [active[i]]) == Times(x, queued) + Times(x, [active[i]])
    {
      TimesWithout(x, active, i);
      TimesAppend(x, finished, [active[i]]);
      TimesAppend(x, queued, [active[i]]);
    }
  }

  lemma TakesTurn(log: seq<Admission>, preferRetry: bool, retries: seq<Retry>, now: nat, a: Admission)
    requires Turns(log, preferRetry, retries, now) && a.retryReady == Due(retries, now)
    requires a.source.FromRetries? ==> !a.selected && a.retryReady && (a.intakeWaiting ==> preferRetry)
    requires a.source.FromIntake? && a.selected ==> !PassedOver(log)
    requires a.source.FromIntake? && !a.selected && a.retryReady ==> !preferRetry
    ensures Turns(log + [a], a.source.FromIntake?, if a.source.FromIntake? then retries else retries[1..], now)
  {
    if log != [] {
      assert InTurn(log[|log| - 1], a);
    }
  }

  /** The senders are gone, or the stop signal came. */
  predicate Closes(e: Event) {
    e == Outside(SendersLeave) || e == Selected(ShutdownArm)
  }

  ghost predicate AnyCloses(events: seq<Event>) {
    exists e :: e in events && Closes(e)
  }

  lemma CloseAppended(events: seq<Event>, i: nat)
    requires i < |events|
    ensures AnyCloses(events[..i + 1]) <==> AnyCloses(events[..i]) || Closes(events[i])
  {
    assert events[..i + 1] == events[..i] + [events[i]];
  }

  lemma CloseStays(events: seq<Event>, i: nat)
    requires i <= |events|
    ensures AnyCloses(events[..i]) ==> AnyCloses(events)
  {
  }

  function Arrived(e: Event, closed: bool): seq<Id> {
    if e.Outside? && e.happening.Arrives? && !closed then [e.happening.request] else []
  }

  /** The requests that arrive while the channel is open. */
  function Arrivals(events: seq<Event>, closed: bool): seq<Id> {
    if events == [] then [] else Arrived(events[0], closed) + Arrivals(events[1..], closed || Closes(events[0]))
  }

  lemma NextArrival(events: seq<Event>, i: nat, closed: bool, before: seq<Id>)
    requires i < |events|
    ensures before + Arrivals(events[i..], closed) ==
              before + Arrived(events[i], closed) + Arrivals(events[i + 1..], closed || Closes(events[i]))
  {
    assert events[i..][1..] == events[i + 1..];
  }

  lemma {:induction false} NoneArrive(events: seq<Event>)
    ensures Arrivals(events, true) == []
  {
    if events == [] {
    } else {
      NoneArrive(events[1..]);
    }
  }

  class Worker {
    /** Nothing happens while the loop fills its slots, so fast is it. */
    const quiet: bool
    var intake: seq<Id>
    var channelClosed: bool
    var active: seq<Id>
    var retries: seq<Retry>
    var preferRetry: bool
    var inputClosed: bool
    var shutdownRequested: bool
    var returned: bool
    var now: nat
    ghost var accepted: seq<Id>
    ghost var finished: seq<Id>
    ghost var log: seq<Admission>

    ghost predicate Valid()
      reads this
    {
      && Balanced(accepted, intake, active, Requests(retries), finished)
      && |accepted| == |intake| + |active| + |retries| + |finished|
      && |active| <= CONCURRENCY
      && InOrder(retries, now)
      && Turns(log, preferRetry, retries, now)
      && (inputClosed ==> channelClosed && intake == [])
      && (shutdownRequested ==> channelClosed)
      && (returned ==> inputClosed && active == [] && retries == [])
    }

    /** Filled up: with room to spare there is no due retry to make up for. */
    ghost predicate Filled()
      reads this
    {
      Valid() && !returned && (|active| < CONCURRENCY ==> !PassedOver(log))
    }

    /** The loop waits in its select, and some arm besides the stop signal is armed. */
    ghost predicate Waiting()
      reads this
    {
      Filled() && ((!inputClosed && |active| < CONCURRENCY) || active != [] || retries != [])
    }

    constructor (quiet: bool)
      ensures Valid() && log == [] && accepted == [] && !returned && !channelClosed
      ensures this.quiet == quiet && intake == [] && active == [] && retries == []
    {
      this.quiet := quiet;
      intake, channelClosed, active, retries := [], false, [], [];
      preferRetry, inputClosed, shutdownRequested, returned := true, false, false, false;
      now, accepted, finished, log := 0, [], [], [];
    }

    // -------------------------------------------------------------- the environment

    method Arrive(request: Id)
      requires Valid() && !returned
      modifies this`intake, this`accepted
      ensures Valid()
      ensures channelClosed ==> intake == old(intake) && accepted == old(accepted)
      ensures !channelClosed ==> intake == old(intake) + [request] && accepted == old(accepted) + [request]
    {
      if !channelClosed {
        RequestArrives(accepted, intake, active, Requests(retries), finished, request);
        intake := intake + [request];
        accepted := accepted + [request];
      }
    }

    method Elapse(time: nat)
      requires Valid()
      modifies this`now
      ensures Valid() && now == old(now) + time
    {
      now := now + time;
    }

    /** What may happen between two looks at the queues. */
    method Interference()
      requires Valid() && !returned
      modifies this`now, this`intake, this`accepted
      ensures Valid() && old(now) <= now && old(intake) <= intake
      ensures channelClosed ==> accepted == old(accepted) && intake == old(intake)
      ensures quiet ==> now == old(now) && intake == old(intake) && accepted == old(accepted)
    {
      if !quiet {
        var time: nat :| true;
        Elapse(time);
        var arrives: bool := *;
        if arrives {
          var request: Id :| true;
          Arrive(request);
        }
      }
    }

    // -------------------------------------------------------------- admissions

    method StartRetry(ghost intakeWaiting: bool)
      requires Valid() && !returned && |active| < CONCURRENCY && Due(retries, now)
      requires intakeWaiting ==> preferRetry
      modifies this`retries, this`active, this`preferRetry, this`log
      ensures Valid() && active == old(active) + [old(retries[0].request)] && retries == old(retries[1..])
      ensures log == old(log) + [Admission(FromRetries, true, intakeWaiting, false)]
    {
      RetryStarts(accepted, intake, active, Requests(retries), finished);
      TakesTurn(log, preferRetry, retries, now, Admission(FromRetries, true, intakeWaiting, false));
      active := active + [retries[0].request];
      retries := retries[1..];
      preferRetry := false;
      log := log + [Admission(FromRetries, true, intakeWaiting, false)];
    }

    method StartIntake(ghost selected: bool)
      requires Valid() && !returned && !inputClosed && |active| < CONCURRENCY && intake != []
      requires if selected then !PassedOver(log) else Due(retries, now) ==> !preferRetry
      modifies this`intake, this`active, this`preferRetry, this`log
      ensures Valid() && active == old(active) + [old(intake[0])] && intake == old(intake[1..])
      ensures log == old(log) + [Admission(FromIntake, old(Due(retries, now)), true, selected)]
    {
      IntakeStarts(accepted, intake, active, Requests(retries), finished);
      TakesTurn(log, preferRetry, retries, now, Admission(FromIntake, Due(retries, now), true, selected));
      active := active + [intake[0]];
      intake := intake[1..];
      preferRetry := true;
      log := log + [Admission(FromIntake, Due(retries, now), true, selected)];
    }

    /** One look at the two sources, with room for one more attempt. */
    method Look() returns (admitted: bool)
      requires Valid() && !returned && |active| < CONCURRENCY
      modifies this`intake, this`retries, this`active, this`preferRetry, this`log, this`inputClosed
      ensures Valid() && |retries| <= old(|retries|) && (old(inputClosed) ==> inputClosed)
      ensures |active| == old(|active|) + (if admitted then 1 else 0)
      ensures |log| == old(|log|) + (if admitted then 1 else 0)
      ensures admitted <==> old(intake) != [] || old(Due(retries, now))
      ensures !old(Due(retries, now)) ==> retries == old(retries)
      ensures !admitted ==> intake == [] && (channelClosed ==> inputClosed)
    {
      var retryReady := retries != [] && retries[0].readyAt <= now;
      if preferRetry && retryReady {
        StartRetry(intake != []);
        return true;
      }
      if !inputClosed {
        if intake != [] {
          StartIntake(false);
          return true;
        }
        inputClosed := channelClosed;
      }
      if retryReady {
        StartRetry(false);
        return true;
      }
      return false;
    }

    method Admit() returns (admitted: bool)
      requires Valid() && !returned && |active| < CONCURRENCY
      modifies this`now, this`intake, this`accepted, this`inputClosed
      modifies this`retries, this`active, this`preferRetry, this`log
      ensures Valid() && |retries| <= old(|retries|)
      ensures |active| == old(|active|) + (if admitted then 1 else 0)
      ensures |log| == old(|log|) + (if admitted then 1 else 0)
      ensures channelClosed ==> accepted == old(accepted)
      ensures old(inputClosed) ==> inputClosed
      ensures old(Due(retries, now)) ==> admitted
      ensures !admitted ==> !PassedOver(log) && intake == [] && (channelClosed ==> inputClosed)
      ensures quiet ==> now == old(now) && accepted == old(accepted)
      ensures quiet && !old(Due(retries, now)) ==>
                retries == old(retries) && |intake| + |active| == old(|intake| + |active|) && (admitted || intake == [])
    {
      Interference();
      admitted := Look();
    }

    /** Start attempts while there is room. */
    method Fill()
      requires Valid() && !returned
      modifies this`now, this`intake, this`accepted, this`inputClosed
      modifies this`retries, this`active, this`preferRetry, this`log
      ensures Filled() && |active| >= old(|active|) && |retries| <= old(|retries|)
      ensures |active| < CONCURRENCY ==> intake == [] && (channelClosed ==> inputClosed)
      ensures channelClosed || quiet ==> accepted == old(accepted)
      ensures old(inputClosed) ==> inputClosed
      ensures |log| - old(|log|) == |active| - old(|active|)
      ensures old(Due(retries, now)) && old(|active|) < CONCURRENCY ==> |active| > old(|active|)
      ensures old(|active|) == CONCURRENCY ==> active == old(active) && retries == old(retries) && log == old(log)
      ensures quiet && !old(Due(retries, now)) ==>
                && now == old(now) && retries == old(retries) && |intake| + |active| == old(|intake| + |active|)
                && (|active| == CONCURRENCY || intake == [])
    {
      var admitted := true;
      while |active| < CONCURRENCY && admitted
        invariant Valid() && |active| >= old(|active|) && |retries| <= old(|retries|)
        invariant channelClosed || quiet ==> accepted == old(accepted)
        invariant old(inputClosed) ==> inputClosed
        invariant |log| - old(|log|) == |active| - old(|active|)
        invariant |active| == old(|active|) && old(Due(retries, now)) ==> admitted && Due(retries, now)
        invariant !admitted ==> !PassedOver(log) && intake == [] && (channelClosed ==> inputClosed)
        invariant old(|active|) == CONCURRENCY ==> active == old(active) && retries == old(retries) && log == old(log)
        invariant quiet && !old(Due(retries, now)) ==>
                    && now == old(now) && retries == old(retries) && |intake| + |active| == old(|intake| + |active|)
                    && (admitted || intake == [])
        decreases CONCURRENCY - |active|, admitted
      {
        admitted := Admit();
      }
    }

    /** The top of the loop: fill up, and return once everything is done. */
    method Resume()
      requires Valid() && !returned
      modifies this`now, this`intake, this`accepted, this`retries, this`active, this`preferRetry, this`log,
               this`inputClosed, this`returned
      ensures returned || Waiting()
      ensures Valid()
      ensures returned <==> channelClosed && intake == [] && active == [] && retries == []
      ensures |active| >= old(|active|)
      ensures channelClosed || quiet ==> accepted == old(accepted)
      ensures old(Due(retries, now)) && old(|active|) < CONCURRENCY ==> |active| > old(|active|)
      ensures |log| - old(|log|) == |active| - old(|active|)
      ensures old(inputClosed && retries == []) && active == [] ==> returned
      ensures old(|active|) == CONCURRENCY ==> active == old(active) && retries == old(retries) && log == old(log)
      ensures quiet && !old(Due(retries, now)) ==>
                && now == old(now) && retries == old(retries) && |intake| + |active| == old(|intake| + |active|)
                && (|active| == CONCURRENCY || intake == [])
    {
      Fill();
      if inputClosed && active == [] && retries == [] {
        returned := true;
      }
    }

    method EndAttempt(slot: nat, done: bool)
      requires Valid() && !returned && slot < |active|
      modifies this`active, this`retries, this`finished
      ensures Valid() && |active| == old(|active|) - 1
      ensures finished == if done then old(finished + [active[slot]]) else old(finished)
      ensures retries == if done then old(retries) else old(retries) + [Retry(now + RETRY_DELAY, old(active[slot]))]
    {
      AttemptEnds(accepted, intake, active, Requests(retries), finished, slot);
      var request := active[slot];
      active := active[..slot] + active[slot + 1..];
      if done {
        finished := finished + [request];
      } else {
        RequestsAppend(retries, Retry(now + RETRY_DELAY, request));
        retries := retries + [Retry(now + RETRY_DELAY, request)];
      }
    }

    /** Something happens while the loop waits. */
    method Happen(h: Happening)
      requires Waiting()
      modifies this`intake, this`accepted, this`channelClosed, this`now
      ensures Waiting()
      ensures old(channelClosed) ==> channelClosed && accepted == old(accepted)
      ensures accepted == old(accepted) + (if h.Arrives? && !old(channelClosed) then [h.request] else [])
      ensures intake == old(intake) + (if h.Arrives? && !old(channelClosed) then [h.request] else [])
      ensures channelClosed == (old(channelClosed) || h.SendersLeave?)
      ensures now == old(now) + (if h.Elapses? then h.time else 0)
    {
      match h
      case Arrives(request) => Arrive(request);
      case SendersLeave => channelClosed := true;
      case Elapses(time) => Elapse(time);
    }

    /** The stop signal closes the channel; what it holds is still delivered. */
    method CloseIntake()
      requires Valid() && !returned
      modifies this`channelClosed, this`shutdownRequested
      ensures Valid() && channelClosed && shutdownRequested
    {
      channelClosed, shutdownRequested := true, true;
    }

    /** An arm runs if its guard holds. */
    method RunArm(arm: Arm) returns (ran: bool)
      requires Waiting()
      modifies this`intake, this`active, this`retries, this`preferRetry, this`inputClosed, this`channelClosed,
               this`shutdownRequested, this`finished, this`log
      ensures if ran then Valid() && !returned else Waiting()
      ensures channelClosed == (old(channelClosed) || arm.ShutdownArm?)
      ensures finished == if arm.AttemptArm? && arm.done && arm.slot < old(|active|)
                          then old(finished + [active[arm.slot]]) else old(finished)
      ensures arm.SleepArm? ==>
                ran == old(Due(retries, now)) && active == old(active) && retries == old(retries) && log == old(log)
      ensures arm.InputArm? && old(!inputClosed && |active| < CONCURRENCY && intake != []) ==>
                ran && retries == old(retries) && active == old(active + [intake[0]]) && intake == old(intake[1..])
      ensures arm.AttemptArm? && !arm.done && arm.slot < old(|active|) ==>
                ran && retries == old(retries) + [Retry(now + RETRY_DELAY, old(active[arm.slot]))]
                && |active| == old(|active|) - 1 && intake == old(intake)
    {
      match arm
      case InputArm =>
        ran := !inputClosed && |active| < CONCURRENCY && (intake != [] || channelClosed);
        if ran {
          TakeInput();
        }
      case AttemptArm(slot, done) =>
        ran := slot < |active|;
        if ran {
          EndAttempt(slot, done);
        }
      case SleepArm =>
        ran := retries != [] && retries[0].readyAt <= now;
      case ShutdownArm =>
        ran := !shutdownRequested;
        if ran {
          CloseIntake();
        }
    }

    /** The select: an arm runs, and the loop starts over. */
    method Select(arm: Arm)
      requires Waiting()
      modifies this
      ensures Valid() && (returned || Waiting())
      ensures channelClosed == (old(channelClosed) || arm.ShutdownArm?)
      ensures old(channelClosed) || quiet ==> accepted == old(accepted)
      ensures finished == if arm.AttemptArm? && arm.done && arm.slot < old(|active|)
                          then old(finished + [active[arm.slot]]) else old(finished)
      // A due retry wakes the loop to start an attempt exactly if a slot is free; otherwise nothing changes.
      ensures arm.SleepArm? && old(Due(retries, now)) ==> (|log| > old(|log|) <==> old(|active|) < CONCURRENCY)
      ensures arm.SleepArm? && old(|active|) == CONCURRENCY ==> active == old(active) && retries == old(retries)
      // With nothing else going on, the free slots are filled from the intake.
      ensures quiet && old(retries) == [] && arm.InputArm?
              && old(!inputClosed && |active| < CONCURRENCY && intake != []) ==>
                && now == old(now) && retries == [] && |intake| + |active| == old(|intake| + |active|)
                && (|active| == CONCURRENCY || intake == [])
      ensures quiet && old(retries) == [] && arm.AttemptArm? && !arm.done && arm.slot < old(|active|) ==>
                && now == old(now) && retries == [Retry(now + RETRY_DELAY, old(active[arm.slot]))]
                && |intake| + |active| == old(|intake| + |active|) - 1 && (|active| == CONCURRENCY || intake == [])
    {
      var ran := RunArm(arm);
      if ran {
        Resume();
      }
    }

    method TakeInput()
      requires Filled() && !inputClosed && |active| < CONCURRENCY && (intake != [] || channelClosed)
      modifies this`intake, this`active, this`preferRetry, this`log, this`inputClosed
      ensures Valid()
      ensures active != [] || inputClosed
      ensures old(intake) != [] ==> active == old(active + [intake[0]]) && intake == old(intake[1..])
    {
      if intake != [] {
        StartIntake(true);
      } else {
        inputClosed := true;
      }
    }

    method Handle(e: Event)
      requires Waiting()
      modifies this
      ensures Valid() && (returned || Waiting())
      ensures channelClosed == (old(channelClosed) || Closes(e))
      ensures quiet ==> accepted == old(accepted) + Arrived(e, old(channelClosed))
    {
      match e
      case Outside(happening) => Happen(happening);
      case Selected(arm) => Select(arm);
    }

    /** Every run, whatever the environment does. */
    method Run(events: seq<Event>)
      requires Valid() && !returned && log == []
      modifies this
      ensures Valid() && Fair(log) && (returned || Waiting())
      ensures returned ==> forall x :: Times(x, accepted) == Times(x, finished)
      ensures channelClosed <==> old(channelClosed) || AnyCloses(events)
      ensures quiet ==> accepted == old(accepted) + Arrivals(events, old(channelClosed))
    {
      Resume();
      var i := 0;
      while i < |events| && !returned
        invariant i <= |events| && Valid() && (returned || Waiting())
        invariant channelClosed <==> old(channelClosed) || AnyCloses(events[..i])
        invariant quiet ==>
                    old(accepted) + Arrivals(events, old(channelClosed)) ==
                    accepted + Arrivals(events[i..], channelClosed)
      {
        NextArrival(events, i, channelClosed, accepted);
        CloseAppended(events, i);
        Handle(events[i]);
        i := i + 1;
      }
      assert i == |events| ==> events[..i] == events;
      if i < |events| {
        NoneArrive(events[i..]);
        CloseStays(events, i);
      }
    }

    /** One more turn of a worker whose channel is closed, if the attempts succeed. */
    method DrainTurn()
      requires Waiting() && channelClosed
      modifies this
      ensures Valid() && (returned || Waiting()) && channelClosed && accepted == old(accepted)
      ensures || |finished| > old(|finished|)
              || (|finished| == old(|finished|) && (returned || (old(active) == [] && active != [])))
    {
      if active != [] {
        EndAttempt(0, true);
      } else if retries != [] {
        if now < retries[0].readyAt {
          Elapse(retries[0].readyAt - now);
        }
      } else {
        TakeInput();
      }
      Resume();
    }

    /** Once the channel is closed, attempts that succeed always bring the worker to its end. */
    method Drain()
      requires Waiting() && channelClosed
      modifies this
      ensures Valid() && returned && accepted == old(accepted)
      ensures forall x :: Times(x, accepted) == Times(x, finished)
    {
      while !returned
        invariant Valid() && (returned || Waiting()) && channelClosed && accepted == old(accepted)
        decreases |accepted| - |finished|, !returned, active == []
      {
        DrainTurn();
      }
    }
  }

  method Queue(w: Worker, count: nat)
    requires w.Waiting() && w.quiet && !w.channelClosed && w.active == [] && w.retries == [] && w.intake == []
    modifies w
    ensures w.Waiting() && !w.channelClosed && w.active == [] && w.retries == [] && |w.intake| == count
  {
    var i := 0;
    while i < count
      invariant i <= count && w.Waiting() && !w.channelClosed
      invariant w.active == [] && w.retries == [] && |w.intake| == i
    {
      w.Happen(Arrives(i));
      i := i + 1;
    }
  }

  /** A run to a state in which a due retry wakes the loop again and again while every slot is taken. */
  method IdleWakeUp() returns (w: Worker)
    ensures w.Waiting() && |w.active| == CONCURRENCY && Due(w.retries, w.now)
  {
    w := new Worker(true);
    w.Resume();
    Queue(w, CONCURRENCY + 1);
    w.Select(InputArm);
    w.Select(AttemptArm(0, false));
    w.Happen(Elapses(RETRY_DELAY));
  }
}
