/** The error-log sink as a concurrent system: producer threads, loop callbacks,
    the consumer task and one timed detach, interleaved at every lock and await. */
module ErrorLogSink {
  import opened Options
  import opened Sequences
  import opened ErrorLogHandler

  /** An admitted callback: the generation it captured, and whether the loop has it yet. */
  datatype Callback = Callback(generation: nat, scheduled: bool)

  /** `committed` says whether the INSERT has reached the database. */
  datatype Consumer = Waiting | Persisting(event: Event, committed: bool) | Done

  datatype Detach =
    | NotStarted
    | AwaitingCallbacks(generation: nat)
    | AwaitingQueue
    | AwaitingConsumer
    | Finished

  datatype System = System(
    h: Handler,
    observed: set<nat>,             // generations some emit read while the sink accepted
    held: map<Event, nat>,          // materialised off the loop, not yet admitted or refused
    callbacks: map<Event, Callback>,
    consumer: Consumer,
    detach: Detach,
    // what happened to each event
    materialised: set<Event>,
    persisted: set<Event>,
    reported: set<Event>,           // dropped for a reason other than shutdown
    writtenOff: set<Event>,         // callbacks detach stopped waiting for
    accepted: seq<Event>,           // successful puts on the queue, in order
    taken: seq<Event>)              // events the consumer took, in order

  datatype Step =
    | EmitObserves
    | EmitMaterialises(event: Event, generation: nat)
    | EmitAdmits(event: Event)
    | EmitSchedules(event: Event)
    | EmitScheduleRaises(event: Event)
    | EmitOnLoop(event: Event)
    | FormatFails
    | CallbackRuns(event: Event)
    | ConsumerTakes
    | DatabaseCommits
    | PersistReturns
    | PersistFails
    | ConsumerCancelled
    | DetachBegins
    | CallbacksSettled
    | CallbacksTimeOut
    | QueueJoined
    | QueueTimesOut
    | ConsumerFinished
    | ConsumerTimesOut

  function Init(size: QueueSize): System {
    System(Handler(size, Some([]), true, false, 0, 1, None, {}, 0, 0),
           {}, map[], map[], Waiting, NotStarted, {}, {}, {}, {}, [], [])
  }

  function Live(s: System): set<Event> {
    set e | e in s.callbacks && s.callbacks[e].generation == s.h.generation
  }

  function QueueOf(s: System): seq<Event> {
    if s.h.queue.Some? then s.h.queue.value else []
  }

  predicate CancelRequested(s: System) {
    s.detach.AwaitingConsumer? || s.detach.Finished?
  }

  predicate Enabled(s: System, step: Step) {
    match step
    case EmitObserves => s.h.accepting
    case EmitMaterialises(e, g) => g in s.observed && e !in s.materialised
    case EmitAdmits(e) => e in s.held
    case EmitSchedules(e) => e in s.callbacks && !s.callbacks[e].scheduled
    case EmitScheduleRaises(e) => e in s.callbacks && !s.callbacks[e].scheduled
    case EmitOnLoop(e) => s.h.accepting && e !in s.materialised
    case FormatFails => s.observed != {}
    case CallbackRuns(e) => e in s.callbacks && s.callbacks[e].scheduled
    case ConsumerTakes => s.consumer.Waiting? && QueueOf(s) != []
    case DatabaseCommits => s.consumer.Persisting?
    case PersistReturns => s.consumer.Persisting? && s.consumer.committed
    case PersistFails => s.consumer.Persisting?
    case ConsumerCancelled => CancelRequested(s) && !s.consumer.Done?
    case DetachBegins => s.detach.NotStarted?
    case CallbacksSettled => s.detach.AwaitingCallbacks? && s.h.pending == 0
    case CallbacksTimeOut => s.detach.AwaitingCallbacks?
    case QueueJoined => s.detach.AwaitingQueue? && QueueOf(s) == [] && !s.consumer.Persisting?
    case QueueTimesOut => s.detach.AwaitingQueue?
    case ConsumerFinished => s.detach.AwaitingConsumer? && s.consumer.Done?
    case ConsumerTimesOut => s.detach.AwaitingConsumer? && !s.consumer.Done?
  }

  /** Records where an attempt to enqueue left the event. */
  function Enqueued(s: System, e: Event, result: (Handler, Outcome)): System {
    s.(h := result.0,
       reported := if result.1.OtherDrop? then s.reported + {e} else s.reported,
       writtenOff := if result.1.ShutdownDrop? then s.writtenOff + {e} else s.writtenOff,
       accepted := if result.1.Queued? then s.accepted + [e] else s.accepted)
  }

  function ConsumerIdle(s: System): System {
    s.(h := s.h.(inflight := None), consumer := Waiting)
  }

  function Apply(s: System, step: Step): System
    requires Enabled(s, step)
  {
    match step
    case EmitObserves => s.(observed := s.observed + {s.h.generation})
    case EmitMaterialises(e, g) =>
      s.(held := s.held[e := g], materialised := s.materialised + {e})
    case EmitAdmits(e) =>
      var (h, admitted) := Admit(s.h, s.held[e]);
      if admitted then s.(h := h, held := s.held - {e},
                          callbacks := s.callbacks[e := Callback(s.held[e], false)])
      else s.(h := h, held := s.held - {e}, reported := s.reported + {e})
    case EmitSchedules(e) =>
      s.(callbacks := s.callbacks[e := s.callbacks[e].(scheduled := true)])
    case EmitScheduleRaises(e) =>
      s.(h := ScheduleFailed(s.h, s.callbacks[e].generation), callbacks := s.callbacks - {e},
         reported := s.reported + {e})
    case EmitOnLoop(e) =>
      Enqueued(s.(materialised := s.materialised + {e}), e, Enqueue(s.h, e, false))
    case FormatFails => s.(h := DropOther(s.h))
    case CallbackRuns(e) =>
      Enqueued(s.(callbacks := s.callbacks - {e}), e, RunCallback(s.h, e, s.callbacks[e].generation))
    case ConsumerTakes =>
      var q := QueueOf(s);
      s.(h := s.h.(queue := Some(q[1..]), inflight := Some(q[0])), consumer := Persisting(q[0], false),
         taken := s.taken + [q[0]])
    case DatabaseCommits =>
      s.(persisted := s.persisted + {s.consumer.event}, consumer := s.consumer.(committed := true))
    case PersistReturns => ConsumerIdle(s)
    case PersistFails =>
      ConsumerIdle(s.(h := DropOther(s.h), reported := s.reported + {s.consumer.event}))
    case ConsumerCancelled =>
      var h := if s.consumer.Persisting? && s.h.closing then CountOne(s.h, s.consumer.event) else s.h;
      s.(h := h.(inflight := None), consumer := Done)
    case DetachBegins =>
      s.(h := s.h.(accepting := false, closing := true), detach := AwaitingCallbacks(s.h.generation))
    case CallbacksSettled => s.(detach := AwaitingQueue)
    case CallbacksTimeOut =>
      s.(h := WriteOff(s.h, s.detach.generation), writtenOff := s.writtenOff + Live(s),
         detach := AwaitingQueue)
    case QueueJoined => s.(detach := AwaitingConsumer)
    case QueueTimesOut =>
      s.(h := if s.h.queue.Some? then Drained(s.h) else s.h, detach := AwaitingConsumer)
    case ConsumerFinished => s.(h := Reset(s.h), detach := Finished)
    case ConsumerTimesOut =>
      s.(h := Reset(if s.h.inflight.Some? then CountOne(s.h, s.h.inflight.value) else s.h),
         detach := Finished)
  }

  ghost predicate Possible(s: System, steps: seq<Step>)
    decreases |steps|
  {
    steps == [] || (Enabled(s, steps[0]) && Possible(Apply(s, steps[0]), steps[1..]))
  }

  ghost function Run(s: System, steps: seq<Step>): System
    requires Possible(s, steps)
    decreases |steps|
  {
    if steps == [] then s else Run(Apply(s, steps[0]), steps[1..])
  }

  // ---- the invariant ----

  ghost predicate PhasesInv(s: System) {
    && (s.h.accepting <==> s.detach.NotStarted?)
    && (s.h.queue.Some? <==> !s.detach.Finished?)
    && (s.h.closing <==> !s.detach.NotStarted? && !s.detach.Finished?)
    && (s.detach.AwaitingCallbacks? ==> s.detach.generation == s.h.generation)
    && (CancelRequested(s) ==> QueueOf(s) == [])
    && (s.consumer.Done? ==> CancelRequested(s))
    && (s.h.inflight == if s.consumer.Persisting? && !s.detach.Finished?
                        then Some(s.consumer.event) else None)
    && (s.consumer.Persisting? && s.consumer.committed ==> s.consumer.event in s.persisted)
  }

  ghost predicate BoundsInv(s: System) {
    && |QueueOf(s)| <= s.h.queueSize
    && s.h.pending <= s.h.queueSize
    && s.h.pending == |Live(s)|
    && (s.detach.AwaitingQueue? || CancelRequested(s) ==> s.h.pending == 0)
  }

  /** Where an event still moves, it is in one place only, and nothing has counted it. */
  ghost predicate PlacesInv(s: System) {
    && Distinct(QueueOf(s))
    && (forall e :: e in s.held ==> e in s.materialised && e !in s.callbacks)
    && (forall e :: e in s.callbacks ==> e in s.materialised)
    && (forall e :: e in QueueOf(s) ==> e in s.materialised && e !in s.callbacks && e !in s.held)
    && (s.consumer.Persisting? ==>
          s.consumer.event in s.materialised && s.consumer.event !in s.callbacks
          && s.consumer.event !in s.held && s.consumer.event !in QueueOf(s))
    && s.persisted <= s.materialised && s.reported <= s.materialised
    && s.h.counted <= s.materialised && s.writtenOff <= s.materialised
    && (forall e :: e in s.callbacks ==> s.callbacks[e].generation <= s.h.generation)
    && (forall g :: g in s.observed ==> g <= s.h.generation)
  }

  ghost predicate CountsInv(s: System) {
    && s.h.shutdownDrops == |s.h.counted| + |s.writtenOff|
    && s.h.counted !! s.writtenOff
    && (forall e :: e in s.held ==> e !in s.h.counted && e !in s.writtenOff)
    && (forall e :: e in QueueOf(s) ==> e !in s.h.counted && e !in s.writtenOff)
    && (forall e :: e in s.callbacks ==> e !in s.h.counted)
    && (forall e :: e in s.callbacks ==>
          (e in s.writtenOff <==> s.callbacks[e].generation < s.h.generation))
    && (s.consumer.Persisting? ==> s.consumer.event !in s.writtenOff)
    && (s.consumer.Persisting? && !s.detach.Finished? ==> s.consumer.event !in s.h.counted)
    && (s.consumer.Persisting? && s.detach.Finished? ==> s.consumer.event in s.h.counted)
  }

  /** Everything that can be said about what became of an event. */
  ghost predicate Accounted(s: System, e: Event) {
    e in s.persisted || e in s.reported || e in s.h.counted || e in s.writtenOff
  }

  ghost predicate ConservedInv(s: System) {
    forall e :: e in s.materialised ==>
      e in s.held || e in Live(s) || e in QueueOf(s)
      || s.h.inflight == Some(e) || Accounted(s, e)
  }

  ghost predicate Inv(s: System) {
    PhasesInv(s) && BoundsInv(s) && PlacesInv(s) && CountsInv(s) && ConservedInv(s)
  }


  lemma {:induction false} DistinctSize(q: seq<Event>)
    requires Distinct(q)
    ensures |Members(q)| == |q|
  {
    if q != [] {
      DistinctSize(q[1..]);
      assert Members(q) == {q[0]} + Members(q[1..]);
    }
  }

  lemma {:induction false} EmitObservesKeepsInv(s: System)
    requires Inv(s) && Enabled(s, EmitObserves)
    ensures Inv(Apply(s, EmitObserves))
  {
    var t := Apply(s, EmitObserves);
    assert Live(t) == Live(s);
  }

  lemma {:induction false} EmitMaterialisesKeepsInv(s: System, e: Event, g: nat)
    requires Inv(s) && Enabled(s, EmitMaterialises(e, g))
    ensures Inv(Apply(s, EmitMaterialises(e, g)))
  {
    var t := Apply(s, EmitMaterialises(e, g));
    assert Live(t) == Live(s);
  }

  lemma {:induction false} EmitAdmitsKeepsInv(s: System, e: Event)
    requires Inv(s) && Enabled(s, EmitAdmits(e))
    ensures Inv(Apply(s, EmitAdmits(e)))
  {
    var t := Apply(s, EmitAdmits(e));
    if Admit(s.h, s.held[e]).1 {
      assert Live(t) == Live(s) + {e};
    } else {
      assert t == s.(h := DropOther(s.h), held := s.held - {e}, reported := s.reported + {e});
      assert Live(t) == Live(s);
    }
  }

  lemma {:induction false} EmitSchedulesKeepsInv(s: System, e: Event)
    requires Inv(s) && Enabled(s, EmitSchedules(e))
    ensures Inv(Apply(s, EmitSchedules(e)))
  {
    var t := Apply(s, EmitSchedules(e));
    assert Live(t) == Live(s);
  }

  lemma {:induction false} EmitScheduleRaisesKeepsInv(s: System, e: Event)
    requires Inv(s) && Enabled(s, EmitScheduleRaises(e))
    ensures Inv(Apply(s, EmitScheduleRaises(e)))
  {
    var t := Apply(s, EmitScheduleRaises(e));
    assert Live(t) == Live(s) - {e};
  }

  lemma {:induction false} FormatFailsKeepsInv(s: System)
    requires Inv(s) && Enabled(s, FormatFails)
    ensures Inv(Apply(s, FormatFails))
  {
    var t := Apply(s, FormatFails);
    assert Live(t) == Live(s);
  }

  lemma {:induction false} EmitOnLoopKeepsInv(s: System, e: Event)
    requires Inv(s) && Enabled(s, EmitOnLoop(e))
    ensures Inv(Apply(s, EmitOnLoop(e)))
  {
    var t := Apply(s, EmitOnLoop(e));
    assert Live(t) == Live(s);
    if |s.h.queue.value| < s.h.queueSize {
      assert t == s.(materialised := s.materialised + {e}, accepted := s.accepted + [e],
                     h := s.h.(queue := Some(s.h.queue.value + [e])));
    } else {
      assert t == s.(materialised := s.materialised + {e}, reported := s.reported + {e}, h := DropOther(s.h));
    }
  }

  lemma {:induction false} StaleCallbackKeepsInv(s: System, e: Event)
    requires Inv(s) && Enabled(s, CallbackRuns(e)) && e !in Live(s)
    ensures Inv(Apply(s, CallbackRuns(e)))
  {
    var t := Apply(s, CallbackRuns(e));
    assert t == s.(callbacks := s.callbacks - {e});
    assert Live(t) == Live(s);
  }

  /** A callback that passes the generation check always finds the queue: the
      handler's shutdown-drop branch for a missing queue is never taken. */
  lemma {:induction false} LiveCallbackFindsQueue(s: System, e: Event)
    requires Inv(s) && Enabled(s, CallbackRuns(e)) && e in Live(s)
    ensures s.h.pending > 0 && s.h.queue.Some?
    ensures RunCallback(s.h, e, s.callbacks[e].generation).1 in {Queued, OtherDrop}
  {
    assert |Live(s)| > 0;
  }

  lemma {:induction false} LiveCallbackKeepsInv(s: System, e: Event)
    requires Inv(s) && Enabled(s, CallbackRuns(e)) && e in Live(s)
    ensures Inv(Apply(s, CallbackRuns(e)))
  {
    LiveCallbackFindsQueue(s, e);
    var t := Apply(s, CallbackRuns(e));
    var q := s.h.queue.value;
    assert Live(t) == Live(s) - {e};
    if |q| < s.h.queueSize {
      assert t == s.(callbacks := s.callbacks - {e},
                     accepted := s.accepted + [e],
                     h := s.h.(pending := s.h.pending - 1, queue := Some(q + [e])));
    } else {
      assert t == s.(callbacks := s.callbacks - {e}, reported := s.reported + {e},
                     h := DropOther(s.h.(pending := s.h.pending - 1)));
    }
  }

  lemma {:induction false} ConsumerTakesKeepsInv(s: System)
    requires Inv(s) && Enabled(s, ConsumerTakes)
    ensures Inv(Apply(s, ConsumerTakes))
  {
    var t := Apply(s, ConsumerTakes);
    assert Live(t) == Live(s);
  }

  lemma {:induction false} DatabaseCommitsKeepsInv(s: System)
    requires Inv(s) && Enabled(s, DatabaseCommits)
    ensures Inv(Apply(s, DatabaseCommits))
  {
    var t := Apply(s, DatabaseCommits);
    assert Live(t) == Live(s);
  }

  lemma {:induction false} PersistReturnsKeepsInv(s: System)
    requires Inv(s) && Enabled(s, PersistReturns)
    ensures Inv(Apply(s, PersistReturns))
  {
    var t := Apply(s, PersistReturns);
    assert Live(t) == Live(s);
  }

  lemma {:induction false} PersistFailsKeepsInv(s: System)
    requires Inv(s) && Enabled(s, PersistFails)
    ensures Inv(Apply(s, PersistFails))
  {
    var t := Apply(s, PersistFails);
    assert Live(t) == Live(s);
  }

  lemma {:induction false} ConsumerCancelledKeepsInv(s: System)
    requires Inv(s) && Enabled(s, ConsumerCancelled)
    ensures Inv(Apply(s, ConsumerCancelled))
  {
    var t := Apply(s, ConsumerCancelled);
    assert Live(t) == Live(s);
  }

  lemma {:induction false} DetachBeginsKeepsInv(s: System)
    requires Inv(s) && Enabled(s, DetachBegins)
    ensures Inv(Apply(s, DetachBegins))
  {
    var t := Apply(s, DetachBegins);
    assert Live(t) == Live(s);
  }

  lemma {:induction false} CallbacksSettledKeepsInv(s: System)
    requires Inv(s) && Enabled(s, CallbacksSettled)
    ensures Inv(Apply(s, CallbacksSettled))
  {
    var t := Apply(s, CallbacksSettled);
    assert Live(t) == Live(s);
  }

  lemma {:induction false} CallbacksTimeOutKeepsInv(s: System)
    requires Inv(s) && Enabled(s, CallbacksTimeOut)
    ensures Inv(Apply(s, CallbacksTimeOut))
  {
    var t := Apply(s, CallbacksTimeOut);
    assert Live(t) == {};
    assert s.writtenOff !! Live(s);
  }

  lemma {:induction false} QueueJoinedKeepsInv(s: System)
    requires Inv(s) && Enabled(s, QueueJoined)
    ensures Inv(Apply(s, QueueJoined))
  {
    var t := Apply(s, QueueJoined);
    assert Live(t) == Live(s);
  }

  lemma {:induction false} QueueTimesOutKeepsInv(s: System)
    requires Inv(s) && Enabled(s, QueueTimesOut)
    ensures Inv(Apply(s, QueueTimesOut))
  {
    var t := Apply(s, QueueTimesOut);
    CountAllExact(s.h, s.h.queue.value);
    assert t.h.counted == s.h.counted + Members(QueueOf(s));
    assert Members(QueueOf(s)) <= s.materialised;
    assert s.h.counted !! Members(QueueOf(s)) && |Members(QueueOf(s))| == |QueueOf(s)| by {
      DistinctSize(QueueOf(s));
    }
    assert Live(t) == Live(s);
  }

  lemma {:induction false} SettledCallbacksAreWrittenOff(s: System)
    requires Inv(s) && s.h.pending == 0
    ensures forall e :: e in s.callbacks ==> s.callbacks[e].generation < s.h.generation && e in s.writtenOff
  {
    forall e | e in s.callbacks
      ensures s.callbacks[e].generation < s.h.generation
    {
      assert e !in Live(s);
    }
  }

  lemma {:induction false} ConsumerFinishedKeepsInv(s: System)
    requires Inv(s) && Enabled(s, ConsumerFinished)
    ensures Inv(Apply(s, ConsumerFinished))
  {
    SettledCallbacksAreWrittenOff(s);
    assert Live(Apply(s, ConsumerFinished)) == {};
  }

  lemma {:induction false} ConsumerTimesOutKeepsInv(s: System)
    requires Inv(s) && Enabled(s, ConsumerTimesOut)
    ensures Inv(Apply(s, ConsumerTimesOut))
  {
    SettledCallbacksAreWrittenOff(s);
    assert Live(Apply(s, ConsumerTimesOut)) == {};
  }

  lemma {:induction false} StepKeepsInv(s: System, step: Step)
    requires Inv(s) && Enabled(s, step)
    ensures Inv(Apply(s, step))
  {
    match step
    case EmitObserves => EmitObservesKeepsInv(s);
    case EmitMaterialises(e, g) => EmitMaterialisesKeepsInv(s, e, g);
    case EmitAdmits(e) => EmitAdmitsKeepsInv(s, e);
    case EmitSchedules(e) => EmitSchedulesKeepsInv(s, e);
    case EmitScheduleRaises(e) => EmitScheduleRaisesKeepsInv(s, e);
    case EmitOnLoop(e) => EmitOnLoopKeepsInv(s, e);
    case FormatFails => FormatFailsKeepsInv(s);
    case CallbackRuns(e) =>
      if e in Live(s) { LiveCallbackKeepsInv(s, e); } else { StaleCallbackKeepsInv(s, e); }
    case ConsumerTakes => ConsumerTakesKeepsInv(s);
    case DatabaseCommits => DatabaseCommitsKeepsInv(s);
    case PersistReturns => PersistReturnsKeepsInv(s);
    case PersistFails => PersistFailsKeepsInv(s);
    case ConsumerCancelled => ConsumerCancelledKeepsInv(s);
    case DetachBegins => DetachBeginsKeepsInv(s);
    case CallbacksSettled => CallbacksSettledKeepsInv(s);
    case CallbacksTimeOut => CallbacksTimeOutKeepsInv(s);
    case QueueJoined => QueueJoinedKeepsInv(s);
    case QueueTimesOut => QueueTimesOutKeepsInv(s);
    case ConsumerFinished => ConsumerFinishedKeepsInv(s);
    case ConsumerTimesOut => ConsumerTimesOutKeepsInv(s);
  }

  lemma {:induction false} RunKeepsInv(s: System, steps: seq<Step>)
    requires Inv(s) && Possible(s, steps)
    ensures Inv(Run(s, steps))
    decreases |steps|
  {
    if steps != [] {
      StepKeepsInv(s, steps[0]);
      RunKeepsInv(Apply(s, steps[0]), steps[1..]);
    }
  }

  lemma {:induction false} ReachableInv(size: QueueSize, steps: seq<Step>)
    requires Possible(Init(size), steps)
    ensures Inv(Run(Init(size), steps))
  {
    assert Live(Init(size)) == {};
    RunKeepsInv(Init(size), steps);
  }

  // ---- what every interleaving guarantees ----

  /** No silent loss: at every moment of every interleaving a materialised event is
      still in its emit call, pending, queued, in flight, persisted or counted, and
      the queue and the pending callbacks stay within the configured size. */
  lemma {:induction false} NoSilentLoss(size: QueueSize, steps: seq<Step>)
    requires Possible(Init(size), steps)
    ensures var s := Run(Init(size), steps);
      && (forall e :: e in s.materialised ==>
            e in s.held || e in Live(s) || e in QueueOf(s) || s.h.inflight == Some(e) || Accounted(s, e))
      && s.h.pending == |Live(s)|
      && s.h.pending <= s.h.queueSize && |QueueOf(s)| <= s.h.queueSize
  {
    ReachableInv(size, steps);
  }

  /** Once detach has returned, every event whose emit call is over has been
      persisted or counted, whatever timed out on the way. */
  lemma {:induction false} DetachLeavesNothingBehind(size: QueueSize, steps: seq<Step>)
    requires Possible(Init(size), steps)
    requires Run(Init(size), steps).detach.Finished?
    ensures var s := Run(Init(size), steps);
      && (forall e :: e in s.materialised && e !in s.held ==> Accounted(s, e))
      && (forall e :: e in s.held ==> e in Apply(s, EmitAdmits(e)).reported)
      && s.h.pending == 0 && s.h.queue.None? && s.h.inflight.None?
  {
    ReachableInv(size, steps);
    var s := Run(Init(size), steps);
    assert Live(s) == {};
  }

  /** The shutdown-drop metric is exactly the number of events written off at
      shutdown: none is missed and none is counted twice. */
  lemma {:induction false} ShutdownDropsAreExact(size: QueueSize, steps: seq<Step>)
    requires Possible(Init(size), steps)
    ensures var s := Run(Init(size), steps);
      && s.h.counted !! s.writtenOff
      && s.h.shutdownDrops == |s.h.counted + s.writtenOff|
      && s.h.counted + s.writtenOff <= s.materialised
  {
    ReachableInv(size, steps);
  }

  /** While nothing has been drained, what was put is what was taken plus the queue. */
  ghost predicate FifoInv(s: System) {
    && s.taken <= s.accepted
    && (!CancelRequested(s) ==> s.accepted == s.taken + QueueOf(s))
  }

  lemma {:induction false} StepKeepsFifo(s: System, step: Step)
    requires PhasesInv(s) && FifoInv(s) && Enabled(s, step)
    ensures FifoInv(Apply(s, step))
  {
    var t := Apply(s, step);
    match step
    case ConsumerTakes =>
      assert t.taken + QueueOf(t) == s.taken + QueueOf(s);
    case EmitOnLoop(e) =>
      assert (s.taken + QueueOf(s)) + [e] == s.taken + (QueueOf(s) + [e]);
    case CallbackRuns(e) =>
      assert (s.taken + QueueOf(s)) + [e] == s.taken + (QueueOf(s) + [e]);
    case _ =>
      assert !CancelRequested(t) ==> QueueOf(t) == QueueOf(s);
  }

  lemma {:induction false} RunKeepsFifo(s: System, steps: seq<Step>)
    requires Inv(s) && FifoInv(s) && Possible(s, steps)
    ensures FifoInv(Run(s, steps))
    decreases |steps|
  {
    if steps != [] {
      StepKeepsInv(s, steps[0]);
      StepKeepsFifo(s, steps[0]);
      RunKeepsFifo(Apply(s, steps[0]), steps[1..]);
    }
  }

  /** The consumer takes events in the order they were accepted, with no gap, in every
      interleaving; until a drain, only the queued ones are still to be taken. */
  lemma {:induction false} FirstInFirstOut(size: QueueSize, steps: seq<Step>)
    requires Possible(Init(size), steps)
    ensures var s := Run(Init(size), steps);
      && s.taken <= s.accepted
      && (s.detach in {NotStarted, AwaitingQueue} || s.detach.AwaitingCallbacks? ==>
            s.accepted == s.taken + QueueOf(s))
  {
    ReachableInv(size, []);
    RunKeepsFifo(Init(size), steps);
  }

  ghost predicate TimesOut(step: Step) {
    step.CallbacksTimeOut? || step.QueueTimesOut? || step.ConsumerTimesOut?
  }

  ghost predicate Quiet(s: System) {
    && s.h.shutdownDrops == 0
    && (CancelRequested(s) ==> !s.consumer.Persisting?)
  }

  lemma {:induction false} StepStaysQuiet(s: System, step: Step)
    requires PhasesInv(s) && Quiet(s) && Enabled(s, step) && !TimesOut(step)
    requires step.CallbackRuns? && step.event in Live(s) ==> s.h.queue.Some?
    ensures Quiet(Apply(s, step))
  {
  }

  lemma {:induction false} RunStaysQuiet(s: System, steps: seq<Step>)
    requires Inv(s) && Quiet(s) && Possible(s, steps)
    requires forall i :: 0 <= i < |steps| ==> !TimesOut(steps[i])
    ensures Run(s, steps).h.shutdownDrops == 0
    decreases |steps|
  {
    if steps != [] {
      var step := steps[0];
      StepKeepsInv(s, step);
      if step.CallbackRuns? && step.event in Live(s) {
        LiveCallbackFindsQueue(s, step.event);
      }
      StepStaysQuiet(s, step);
      RunStaysQuiet(Apply(s, step), steps[1..]);
    }
  }

  /** A detach in which no wait times out drops nothing at shutdown: once it has returned,
      every event whose emit call is over was persisted or reported. */
  lemma {:induction false} TimelyDetachDropsNothing(size: QueueSize, steps: seq<Step>)
    requires Possible(Init(size), steps)
    requires forall i :: 0 <= i < |steps| ==> !TimesOut(steps[i])
    ensures var s := Run(Init(size), steps);
      && s.h.shutdownDrops == 0
      && (s.detach.Finished? ==>
            forall e :: e in s.materialised && e !in s.held ==> e in s.persisted || e in s.reported)
  {
    ReachableInv(size, []);
    RunStaysQuiet(Init(size), steps);
    ShutdownDropsAreExact(size, steps);
    var s := Run(Init(size), steps);
    if s.detach.Finished? {
      DetachLeavesNothingBehind(size, steps);
      assert s.h.counted + s.writtenOff == {};
      forall e | e in s.materialised && e !in s.held
        ensures e in s.persisted || e in s.reported
      {
        assert Accounted(s, e);
        assert e !in s.h.counted + s.writtenOff;
      }
    }
  }

  // ---- the system run on the object ----

  /** Carries out one step of the system through the handler's own methods. */
  method Perform(handler: DbErrorHandler, s: System, step: Step)
    requires Enabled(s, step) && PhasesInv(s) && handler.View() == s.h
    modifies handler
    ensures handler.View() == Apply(s, step).h
  {
    match step
    case EmitObserves =>
    case EmitMaterialises(e, g) =>
    case EmitAdmits(e) => var admitted := handler.AdmitCallback(s.held[e]);
    case EmitSchedules(e) =>
    case EmitScheduleRaises(e) => handler.SchedulingFailed(s.callbacks[e].generation);
    case EmitOnLoop(e) => var outcome := handler.EnqueueEvent(e, false);
    case FormatFails => handler.ReportDrop();
    case CallbackRuns(e) => var outcome := handler.EnqueueScheduledEvent(e, s.callbacks[e].generation);
    case ConsumerTakes => var e := handler.TakeNext();
    case DatabaseCommits =>
    case PersistReturns => handler.PutDown(None);
    case PersistFails => handler.ReportDrop(); handler.PutDown(None);
    case ConsumerCancelled => handler.PutDown(if s.consumer.Persisting? then Some(s.consumer.event) else None);
    case DetachBegins => handler.StopAccepting();
    case CallbacksSettled =>
    case CallbacksTimeOut => handler.GiveUpOnCallbacks(s.detach.generation);
    case QueueJoined =>
    case QueueTimesOut => handler.DrainQueue();
    case ConsumerFinished => handler.Finish();
    case ConsumerTimesOut =>
      if handler.inflight.Some? {
        handler.CountShutdownEvent(handler.inflight.value);
      }
      handler.Finish();
  }

  /** A handler driven through any interleaving keeps its fields within bounds and its
      shutdown metric exact, and is empty once detach has returned. */
  method Drive(size: QueueSize, steps: seq<Step>) returns (handler: DbErrorHandler)
    requires Possible(Init(size), steps)
    ensures fresh(handler) && handler.View() == Run(Init(size), steps).h
    ensures handler.pending <= size && (handler.queue.Some? ==> |handler.queue.value| <= size)
    ensures handler.shutdownDrops == |handler.counted| + |Run(Init(size), steps).writtenOff|
    ensures Run(Init(size), steps).detach.Finished? ==>
      handler.pending == 0 && handler.queue.None? && handler.inflight.None?
  {
    handler := new DbErrorHandler(size);
    var s, rest := Init(size), steps;
    ReachableInv(size, []);
    while rest != []
      invariant fresh(handler) && Inv(s) && Possible(s, rest) && Run(s, rest) == Run(Init(size), steps)
      invariant handler.View() == s.h && handler.queueSize == size
      decreases |rest|
    {
      StepKeepsInv(s, rest[0]);
      Perform(handler, s, rest[0]);
      s, rest := Apply(s, rest[0]), rest[1..];
    }
    if s.detach.Finished? {
      DetachLeavesNothingBehind(size, steps);
    }
  }
}
