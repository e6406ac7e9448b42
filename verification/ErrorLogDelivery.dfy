/** What the sink does deliver: when an event is queued, when it is refused, and that nothing
    is lost when nothing goes wrong. */
module ErrorLogDelivery {
  import opened Options
  import opened ErrorLogHandler
  import opened ErrorLogSink

  /** The event goes to the end of the queue if there is room, and is reported otherwise. */
  ghost predicate QueuesOrReports(s: System, t: System, e: Event) {
    if |QueueOf(s)| < s.h.queueSize
    then QueueOf(t) == QueueOf(s) + [e] && t.reported == s.reported && t.h.otherDrops == s.h.otherDrops
    else QueueOf(t) == QueueOf(s) && t.reported == s.reported + {e} && t.h.otherDrops == s.h.otherDrops + 1
  }

  lemma {:induction false} OnLoopEmit(s: System, e: Event)
    requires Inv(s) && s.h.accepting && e !in s.materialised
    ensures Enabled(s, EmitOnLoop(e)) && QueuesOrReports(s, Apply(s, EmitOnLoop(e)), e)
  {
  }

  lemma {:induction false} LiveCallback(s: System, e: Event)
    requires Inv(s) && Enabled(s, CallbackRuns(e)) && e in Live(s)
    ensures QueuesOrReports(s, Apply(s, CallbackRuns(e)), e)
    ensures Live(Apply(s, CallbackRuns(e))) == Live(s) - {e}
  {
    LiveCallbackFindsQueue(s, e);
  }

  lemma {:induction false} OldCallback(s: System, e: Event)
    requires Inv(s) && Enabled(s, CallbackRuns(e)) && e !in Live(s)
    ensures Apply(s, CallbackRuns(e)) == s.(callbacks := s.callbacks - {e})
  {
  }

  /** An emit off the loop gets its callback exactly while the sink accepts, in the generation
      it saw, with room for one more; otherwise the event is reported at once. */
  lemma {:induction false} OffLoopEmit(s: System, e: Event)
    requires Inv(s) && Enabled(s, EmitAdmits(e))
    ensures var t := Apply(s, EmitAdmits(e));
      && (e in Live(t) <==> s.h.accepting && s.held[e] == s.h.generation && |Live(s)| < s.h.queueSize)
      && (if e in Live(t)
          then Live(t) == Live(s) + {e} && t.reported == s.reported && t.h.otherDrops == s.h.otherDrops
          else Live(t) == Live(s) && t.reported == s.reported + {e} && t.h.otherDrops == s.h.otherDrops + 1)
  {
    var t := Apply(s, EmitAdmits(e));
    if Admit(s.h, s.held[e]).1 {
      assert Live(t) == Live(s) + {e};
    } else {
      assert Live(t) == Live(s);
    }
  }

  /** In every interleaving: an emit on the loop thread while the sink accepts, and a callback of
      the current generation even while detach waits, queue their event exactly when there is
      room, and a callback of an older generation does nothing. */
  lemma {:induction false} DeliveredExactly(size: QueueSize, steps: seq<Step>, e: Event)
    requires Possible(Init(size), steps)
    ensures var s := Run(Init(size), steps);
      && s.h.queueSize == size
      && (s.h.accepting <==> s.detach.NotStarted?)
      && (s.h.accepting && e !in s.materialised ==>
            Enabled(s, EmitOnLoop(e)) && QueuesOrReports(s, Apply(s, EmitOnLoop(e)), e))
      && (Enabled(s, CallbackRuns(e)) ==>
            if s.callbacks[e].generation == s.h.generation then QueuesOrReports(s, Apply(s, CallbackRuns(e)), e)
            else Apply(s, CallbackRuns(e)) == s.(callbacks := s.callbacks - {e}))
  {
    ReachableInv(size, steps);
    RunKeepsSize(Init(size), steps);
    var s := Run(Init(size), steps);
    if s.h.accepting && e !in s.materialised {
      OnLoopEmit(s, e);
    }
    if Enabled(s, CallbackRuns(e)) {
      if s.callbacks[e].generation == s.h.generation {
        LiveCallback(s, e);
      } else {
        OldCallback(s, e);
      }
    }
  }

  lemma {:induction false} CountingKeepsSize(h: Handler, events: seq<Event>)
    ensures CountAll(h, events).queueSize == h.queueSize && CountAll(h, events).otherDrops == h.otherDrops
    decreases |events|
  {
    if events != [] {
      CountingKeepsSize(CountOne(h, events[0]), events[1..]);
    }
  }

  lemma {:induction false} StepKeepsSize(s: System, step: Step)
    requires Enabled(s, step)
    ensures Apply(s, step).h.queueSize == s.h.queueSize
  {
    if step.QueueTimesOut? && s.h.queue.Some? {
      CountingKeepsSize(s.h, s.h.queue.value);
    }
  }

  lemma {:induction false} RunKeepsSize(s: System, steps: seq<Step>)
    requires Possible(s, steps)
    ensures Run(s, steps).h.queueSize == s.h.queueSize
    decreases |steps|
  {
    if steps != [] {
      StepKeepsSize(s, steps[0]);
      RunKeepsSize(Apply(s, steps[0]), steps[1..]);
    }
  }

  // ---- what is reported, and why ----

  /** The steps at which the sink gives up an event, or one that was never made. */
  ghost predicate GivesUp(s: System, step: Step) {
    match step
    case EmitAdmits(e) =>
      e in s.held && !(s.h.accepting && s.held[e] == s.h.generation && |Live(s)| < s.h.queueSize)
    case EmitScheduleRaises(_) => true
    case EmitOnLoop(_) => |QueueOf(s)| >= s.h.queueSize
    case FormatFails => true
    case CallbackRuns(e) => e in Live(s) && |QueueOf(s)| >= s.h.queueSize
    case PersistFails => true
    case _ => false
  }

  /** The event such a step is about. */
  function AboutEvent(s: System, step: Step): set<Event> {
    match step
    case EmitAdmits(e) => {e}
    case EmitScheduleRaises(e) => {e}
    case EmitOnLoop(e) => {e}
    case CallbackRuns(e) => {e}
    case PersistFails => if s.consumer.Persisting? then {s.consumer.event} else {}
    case _ => {}
  }

  ghost predicate ReportsOnly(s: System, step: Step, t: System) {
    && t.h.otherDrops == s.h.otherDrops + (if GivesUp(s, step) then 1 else 0)
    && t.reported == s.reported + (if GivesUp(s, step) then AboutEvent(s, step) else {})
  }

  lemma {:induction false} AdmissionReportsOnly(s: System, e: Event)
    requires Inv(s) && Enabled(s, EmitAdmits(e))
    ensures ReportsOnly(s, EmitAdmits(e), Apply(s, EmitAdmits(e)))
  {
    OffLoopEmit(s, e);
  }

  lemma {:induction false} OnLoopReportsOnly(s: System, e: Event)
    requires Inv(s) && Enabled(s, EmitOnLoop(e))
    ensures ReportsOnly(s, EmitOnLoop(e), Apply(s, EmitOnLoop(e)))
  {
    OnLoopEmit(s, e);
  }

  lemma {:induction false} CallbackReportsOnly(s: System, e: Event)
    requires Inv(s) && Enabled(s, CallbackRuns(e))
    ensures ReportsOnly(s, CallbackRuns(e), Apply(s, CallbackRuns(e)))
  {
    if e in Live(s) {
      LiveCallback(s, e);
    } else {
      OldCallback(s, e);
    }
  }

  lemma {:induction false} FailureReportsOnly(s: System, step: Step)
    requires Inv(s) && Enabled(s, step) && (step.EmitScheduleRaises? || step.FormatFails? || step.PersistFails?)
    ensures ReportsOnly(s, step, Apply(s, step))
  {
  }

  predicate DuringDetach(step: Step) {
    || step.DetachBegins? || step.CallbacksSettled? || step.CallbacksTimeOut? || step.QueueJoined?
    || step.QueueTimesOut? || step.ConsumerFinished? || step.ConsumerTimesOut?
  }

  lemma {:induction false} DrainLeavesReports(s: System)
    requires Enabled(s, QueueTimesOut)
    ensures var t := Apply(s, QueueTimesOut); t.h.otherDrops == s.h.otherDrops && t.reported == s.reported
  {
    if s.h.queue.Some? {
      CountingKeepsSize(s.h, s.h.queue.value);
    }
  }

  lemma {:induction false} DetachLeavesReports(s: System, step: Step)
    requires Enabled(s, step) && DuringDetach(step)
    ensures var t := Apply(s, step); t.h.otherDrops == s.h.otherDrops && t.reported == s.reported
  {
    if step.QueueTimesOut? {
      DrainLeavesReports(s);
    }
  }

  lemma {:induction false} OtherReportsOnly(s: System, step: Step)
    requires Inv(s) && Enabled(s, step) && !DuringDetach(step)
    requires !step.EmitAdmits? && !step.EmitOnLoop? && !step.CallbackRuns?
    requires !step.EmitScheduleRaises? && !step.FormatFails? && !step.PersistFails?
    ensures ReportsOnly(s, step, Apply(s, step))
  {
  }

  lemma {:induction false} StepReportsOnly(s: System, step: Step)
    requires Inv(s) && Enabled(s, step)
    ensures ReportsOnly(s, step, Apply(s, step))
  {
    if step.EmitAdmits? {
      AdmissionReportsOnly(s, step.event);
    } else if step.EmitOnLoop? {
      OnLoopReportsOnly(s, step.event);
    } else if step.CallbackRuns? {
      CallbackReportsOnly(s, step.event);
    } else if step.EmitScheduleRaises? || step.FormatFails? || step.PersistFails? {
      FailureReportsOnly(s, step);
    } else if DuringDetach(step) {
      DetachLeavesReports(s, step);
    } else {
      OtherReportsOnly(s, step);
    }
  }

  // ---- who is admitted ----

  ghost predicate HeldUnreported(s: System) {
    forall e :: e in s.held ==> e !in s.reported
  }

  lemma {:induction false} StepKeepsHeldUnreported(s: System, step: Step)
    requires Inv(s) && HeldUnreported(s) && Enabled(s, step)
    ensures HeldUnreported(Apply(s, step))
  {
    StepReportsOnly(s, step);
  }

  lemma {:induction false} RunKeepsHeldUnreported(s: System, steps: seq<Step>)
    requires Inv(s) && HeldUnreported(s) && Possible(s, steps)
    ensures HeldUnreported(Run(s, steps))
    decreases |steps|
  {
    if steps != [] {
      StepKeepsInv(s, steps[0]);
      StepKeepsHeldUnreported(s, steps[0]);
      RunKeepsHeldUnreported(Apply(s, steps[0]), steps[1..]);
    }
  }

  /** In every interleaving an emit off the loop gets its callback exactly while the sink accepts,
      in the generation it saw, with room for one more; otherwise its event is reported. */
  lemma {:induction false} AdmittedExactly(size: QueueSize, steps: seq<Step>, e: Event)
    requires Possible(Init(size), steps) && e in Run(Init(size), steps).held
    ensures var s := Run(Init(size), steps);
      var t := Apply(s, EmitAdmits(e));
      && (e in Live(t) <==> s.detach.NotStarted? && s.held[e] == s.h.generation && |Live(s)| < size)
      && (e !in Live(t) <==> e in t.reported)
  {
    ReachableInv(size, steps);
    ReachableInv(size, []);
    RunKeepsSize(Init(size), steps);
    RunKeepsHeldUnreported(Init(size), steps);
    OffLoopEmit(Run(Init(size), steps), e);
  }

  // ---- the other metric ----

  ghost function GiveUps(s: System, steps: seq<Step>): nat
    requires Possible(s, steps)
    decreases |steps|
  {
    if steps == [] then 0 else (if GivesUp(s, steps[0]) then 1 else 0) + GiveUps(Apply(s, steps[0]), steps[1..])
  }

  lemma {:induction false} RunCountsGiveUps(s: System, steps: seq<Step>)
    requires Inv(s) && Possible(s, steps)
    ensures Run(s, steps).h.otherDrops == s.h.otherDrops + GiveUps(s, steps)
    ensures GiveUps(s, steps) == 0 ==> Run(s, steps).reported == s.reported
    decreases |steps|
  {
    if steps != [] {
      StepReportsOnly(s, steps[0]);
      StepKeepsInv(s, steps[0]);
      RunCountsGiveUps(Apply(s, steps[0]), steps[1..]);
    }
  }

  /** The other metric counts exactly the steps that had a cause: refused, full, scheduling
      raised, formatting or persisting failed. */
  lemma {:induction false} OtherDropsAreExact(size: QueueSize, steps: seq<Step>)
    requires Possible(Init(size), steps)
    ensures Run(Init(size), steps).h.otherDrops == GiveUps(Init(size), steps)
  {
    ReachableInv(size, []);
    RunCountsGiveUps(Init(size), steps);
  }

  /** When no wait times out and no step gives up an event, every event whose emit is over has
      been persisted once detach has returned. */
  lemma {:induction false} EverythingIsPersisted(size: QueueSize, steps: seq<Step>, e: Event)
    requires Possible(Init(size), steps) && GiveUps(Init(size), steps) == 0
    requires forall i :: 0 <= i < |steps| ==> !TimesOut(steps[i])
    requires var s := Run(Init(size), steps); s.detach.Finished? && e in s.materialised && e !in s.held
    ensures e in Run(Init(size), steps).persisted
  {
    TimelyDetachDropsNothing(size, steps);
    ReachableInv(size, []);
    RunCountsGiveUps(Init(size), steps);
  }

  // ---- the way of one event ----

  lemma {:induction false} RunCons(s: System, step: Step, rest: seq<Step>)
    requires Enabled(s, step) && Possible(Apply(s, step), rest)
    ensures Possible(s, [step] + rest) && Run(s, [step] + rest) == Run(Apply(s, step), rest)
  {
    assert ([step] + rest)[1..] == rest;
  }

  /** Nothing is on its way, and nobody has detached. */
  ghost predicate Quiescent(s: System) {
    s.detach.NotStarted? && s.consumer.Waiting? && s.h.queue.Some? && s.h.pending == 0
  }

  /** From the emit off the loop to the queue. */
  lemma {:induction false} ReachesQueue(size: QueueSize, e: Event) returns (steps: seq<Step>)
    ensures steps == [EmitObserves, EmitMaterialises(e, 1), EmitAdmits(e), EmitSchedules(e), CallbackRuns(e)]
    ensures Possible(Init(size), steps)
    ensures var s := Run(Init(size), steps); Quiescent(s) && QueueOf(s) == [e] && s.persisted == {}
  {
    var s0 := Init(size);
    var s1 := Apply(s0, EmitObserves);
    var s2 := Apply(s1, EmitMaterialises(e, 1));
    var s3 := Apply(s2, EmitAdmits(e));
    var s4 := Apply(s3, EmitSchedules(e));
    RunCons(s4, CallbackRuns(e), []);
    steps := [CallbackRuns(e)] + [];
    RunCons(s3, EmitSchedules(e), steps);
    steps := [EmitSchedules(e)] + steps;
    RunCons(s2, EmitAdmits(e), steps);
    steps := [EmitAdmits(e)] + steps;
    RunCons(s1, EmitMaterialises(e, 1), steps);
    steps := [EmitMaterialises(e, 1)] + steps;
    RunCons(s0, EmitObserves, steps);
    steps := [EmitObserves] + steps;
  }

  /** From the queue to the database. */
  lemma {:induction false} ReachesDatabase(s: System, e: Event) returns (steps: seq<Step>)
    requires Quiescent(s) && QueueOf(s) == [e] && s.persisted == {}
    ensures steps == [ConsumerTakes, DatabaseCommits, PersistReturns] && Possible(s, steps)
    ensures var t := Run(s, steps); Quiescent(t) && QueueOf(t) == [] && t.persisted == {e}
  {
    var s1 := Apply(s, ConsumerTakes);
    var s2 := Apply(s1, DatabaseCommits);
    RunCons(s2, PersistReturns, []);
    RunCons(s1, DatabaseCommits, [PersistReturns] + []);
    RunCons(s, ConsumerTakes, [DatabaseCommits] + ([PersistReturns] + []));
    steps := [ConsumerTakes] + ([DatabaseCommits] + ([PersistReturns] + []));
  }

  /** A detach with nothing left to do. */
  lemma {:induction false} ReachesEnd(s: System) returns (steps: seq<Step>)
    requires Quiescent(s) && QueueOf(s) == []
    ensures Possible(s, steps) && Run(s, steps).detach.Finished? && Run(s, steps).persisted == s.persisted
    ensures steps == [DetachBegins, CallbacksSettled, QueueJoined, ConsumerCancelled, ConsumerFinished]
  {
    var s1 := Apply(s, DetachBegins);
    var s2 := Apply(s1, CallbacksSettled);
    var s3 := Apply(s2, QueueJoined);
    var s4 := Apply(s3, ConsumerCancelled);
    RunCons(s4, ConsumerFinished, []);
    steps := [ConsumerFinished] + [];
    RunCons(s3, ConsumerCancelled, steps);
    steps := [ConsumerCancelled] + steps;
    RunCons(s2, QueueJoined, steps);
    steps := [QueueJoined] + steps;
    RunCons(s1, CallbacksSettled, steps);
    steps := [CallbacksSettled] + steps;
    RunCons(s, DetachBegins, steps);
    steps := [DetachBegins] + steps;
  }

  lemma {:induction false} RunAppends(s: System, a: seq<Step>, b: seq<Step>)
    requires Possible(s, a) && Possible(Run(s, a), b)
    ensures Possible(s, a + b) && Run(s, a + b) == Run(Run(s, a), b)
    decreases |a|
  {
    if a == [] {
      assert a + b == b;
    } else {
      RunAppends(Apply(s, a[0]), a[1..], b);
      assert (a + b)[1..] == a[1..] + b;
    }
  }

  /** An event emitted off the loop can make the whole way to the database before a detach. */
  lemma {:induction false} EventCanBePersisted(size: QueueSize, e: Event) returns (steps: seq<Step>)
    ensures Possible(Init(size), steps) && Run(Init(size), steps).detach.Finished?
    ensures Run(Init(size), steps).persisted == {e}
  {
    var first := ReachesQueue(size, e);
    var queued := Run(Init(size), first);
    var next := ReachesDatabase(queued, e);
    var last := ReachesEnd(Run(queued, next));
    RunAppends(queued, next, last);
    RunAppends(Init(size), first, next + last);
    steps := first + (next + last);
  }
}
