/** The database error-log handler: its lock-protected sections as functions on a
    value (`Handler`), and the mutable object whose methods are proved to carry
    out exactly those sections. */
module ErrorLogHandler {
  import opened Options
  import opened Sequences

  /** The identity of a materialised event. */
  type Event = nat

  /** The configuration keeps the queue bounded: a size of 0 would mean no bound. */
  type QueueSize = n: nat | n >= 1 witness 1

  datatype Outcome = Queued | ShutdownDrop | OtherDrop | Stale

  datatype Handler = Handler(
    queueSize: QueueSize,
    queue: Option<seq<Event>>,
    accepting: bool,
    closing: bool,
    pending: nat,
    generation: nat,
    inflight: Option<Event>,
    counted: set<Event>,
    shutdownDrops: nat,
    otherDrops: nat)

  // ---- the sections ----

  function DropOther(h: Handler): Handler {
    h.(otherDrops := h.otherDrops + 1)
  }

  /** Putting an event on the bounded queue, from the loop thread. */
  function Enqueue(h: Handler, e: Event, acceptedBeforeClose: bool): (Handler, Outcome) {
    if h.queue.None? then
      if acceptedBeforeClose then (h.(shutdownDrops := h.shutdownDrops + 1), ShutdownDrop)
      else (DropOther(h), OtherDrop)
    else if !h.accepting && !acceptedBeforeClose then (DropOther(h), OtherDrop)
    else if |h.queue.value| < h.queueSize then
      (h.(queue := Some(h.queue.value + [e])), Queued)
    else (DropOther(h), OtherDrop)
  }

  /** The second critical section of an off-loop emit: admit or refuse a callback. */
  function Admit(h: Handler, generation: nat): (Handler, bool) {
    if !h.accepting || generation != h.generation || h.pending >= h.queueSize
    then (DropOther(h), false)
    else (h.(pending := h.pending + 1), true)
  }

  /** Scheduling the callback raised: take the admission back and report the drop. */
  function ScheduleFailed(h: Handler, generation: nat): Handler {
    DropOther(if generation == h.generation && h.pending > 0 then h.(pending := h.pending - 1) else h)
  }

  /** A scheduled callback runs; one from an older generation does nothing. */
  function RunCallback(h: Handler, e: Event, generation: nat): (Handler, Outcome) {
    if generation != h.generation then (h, Stale)
    else Enqueue(if h.pending > 0 then h.(pending := h.pending - 1) else h, e, true)
  }

  function CountOne(h: Handler, e: Event): Handler {
    if e in h.counted then h
    else h.(counted := h.counted + {e}, shutdownDrops := h.shutdownDrops + 1)
  }

  function CountAll(h: Handler, events: seq<Event>): Handler
    decreases |events|
  {
    if events == [] then h else CountAll(CountOne(h, events[0]), events[1..])
  }

  /** Detach gives up on outstanding callbacks. */
  function WriteOff(h: Handler, observedGeneration: nat): Handler {
    h.(pending := 0,
       generation := if observedGeneration == h.generation then h.generation + 1 else h.generation,
       shutdownDrops := h.shutdownDrops + h.pending)
  }

  function Drained(h: Handler): Handler
    requires h.queue.Some?
  {
    CountAll(h, h.queue.value).(queue := Some([]))
  }

  function Reset(h: Handler): Handler {
    h.(queue := None, accepting := false, closing := false, pending := 0,
       generation := h.generation + 1, inflight := None)
  }

  /** Counting a list of distinct, not yet counted events counts each one once. */
  lemma {:induction false} CountAllExact(h: Handler, events: seq<Event>)
    requires Distinct(events)
    requires forall e :: e in events ==> e !in h.counted
    ensures CountAll(h, events) == h.(counted := h.counted + Members(events),
                                      shutdownDrops := h.shutdownDrops + |events|)
    decreases |events|
  {
    if events == [] {
      assert h.counted + Members(events) == h.counted;
    } else {
      var first := CountOne(h, events[0]);
      CountAllExact(first, events[1..]);
      assert Members(events) == {events[0]} + Members(events[1..]);
      assert first.counted + Members(events[1..]) == h.counted + Members(events);
    }
  }

  // ---- the object ----

  /** One attached handler. The two counters stand for the metric's values. */
  class DbErrorHandler {
    const queueSize: QueueSize
    var queue: Option<seq<Event>>
    var accepting: bool
    var closing: bool
    var pending: nat
    var generation: nat
    var inflight: Option<Event>
    var counted: set<Event>
    var shutdownDrops: nat
    var otherDrops: nat

    function View(): Handler
      reads this
    {
      Handler(queueSize, queue, accepting, closing, pending, generation, inflight, counted,
              shutdownDrops, otherDrops)
    }

    /** A handler right after `attach`: the first queue opens generation 1. */
    constructor (size: QueueSize)
      ensures View() == Handler(size, Some([]), true, false, 0, 1, None, {}, 0, 0)
    {
      queueSize := size;
      queue, accepting, closing := Some([]), true, false;
      pending, generation, inflight := 0, 1, None;
      counted, shutdownDrops, otherDrops := {}, 0, 0;
    }

    method EnqueueEvent(e: Event, acceptedBeforeClose: bool) returns (outcome: Outcome)
      modifies this
      ensures (View(), outcome) == Enqueue(old(View()), e, acceptedBeforeClose)
      ensures outcome.Queued? <==>
        old(queue).Some? && (old(accepting) || acceptedBeforeClose) && |old(queue).value| < queueSize
      ensures outcome.ShutdownDrop? <==> old(queue) == None && acceptedBeforeClose
      ensures queue == if outcome.Queued? then Some(old(queue).value + [e]) else old(queue)
      ensures outcome.Queued? ==> otherDrops == old(otherDrops) && shutdownDrops == old(shutdownDrops)
    {
      if queue.None? {
        if acceptedBeforeClose {
          shutdownDrops := shutdownDrops + 1;
          return ShutdownDrop;
        }
        otherDrops := otherDrops + 1;
        return OtherDrop;
      }
      if !accepting && !acceptedBeforeClose {
        otherDrops := otherDrops + 1;
        return OtherDrop;
      }
      if |queue.value| >= queueSize {
        otherDrops := otherDrops + 1;
        return OtherDrop;
      }
      queue := Some(queue.value + [e]);
      return Queued;
    }

    method EnqueueScheduledEvent(e: Event, scheduledGeneration: nat) returns (outcome: Outcome)
      modifies this
      ensures (View(), outcome) == RunCallback(old(View()), e, scheduledGeneration)
      ensures outcome.Stale? <==> scheduledGeneration != old(generation)
      ensures outcome.Queued? <==>
        scheduledGeneration == generation && old(queue).Some? && |old(queue).value| < queueSize
    {
      if scheduledGeneration != generation {
        return Stale;
      }
      if pending > 0 {
        pending := pending - 1;
      }
      outcome := EnqueueEvent(e, true);
    }

    method AdmitCallback(observedGeneration: nat) returns (admitted: bool)
      modifies this
      ensures (View(), admitted) == Admit(old(View()), observedGeneration)
      ensures admitted <==> old(accepting) && observedGeneration == generation && old(pending) < queueSize
      ensures pending == old(pending) + (if admitted then 1 else 0)
    {
      if !accepting || observedGeneration != generation {
        otherDrops := otherDrops + 1;
        return false;
      }
      if pending >= queueSize {
        otherDrops := otherDrops + 1;
        return false;
      }
      pending := pending + 1;
      return true;
    }

    method SchedulingFailed(observedGeneration: nat)
      modifies this
      ensures View() == ScheduleFailed(old(View()), observedGeneration)
    {
      if observedGeneration == generation && pending > 0 {
        pending := pending - 1;
      }
      otherDrops := otherDrops + 1;
    }

    method CountShutdownEvent(e: Event)
      modifies this
      ensures View() == CountOne(old(View()), e)
    {
      if e !in counted {
        counted := counted + {e};
        shutdownDrops := shutdownDrops + 1;
      }
    }

    method GiveUpOnCallbacks(observedGeneration: nat)
      modifies this
      ensures View() == WriteOff(old(View()), observedGeneration)
    {
      var stale := pending;
      pending := 0;
      if observedGeneration == generation {
        generation := generation + 1;
      }
      shutdownDrops := shutdownDrops + stale;
    }

    /** The loop that empties the queue once the join has timed out. */
    method DrainQueue()
      requires queue.Some?
      modifies this
      ensures View() == Drained(old(View()))
    {
      while queue.value != []
        invariant queue.Some?
        invariant CountAll(View(), queue.value).(queue := None)
               == CountAll(old(View()), old(queue.value)).(queue := None)
        decreases |queue.value|
      {
        var rest := queue.value[1..];
        CountAllIgnoresQueue(CountOne(View(), queue.value[0]), rest, Some(rest));
        var dropped := queue.value[0];
        queue := Some(rest);
        CountShutdownEvent(dropped);
      }
    }

    method ReportDrop()
      modifies this
      ensures View() == DropOther(old(View()))
    {
      otherDrops := otherDrops + 1;
    }

    /** The consumer takes the oldest event and keeps it in flight. */
    method TakeNext() returns (e: Event)
      requires queue.Some? && queue.value != []
      modifies this
      ensures e == old(queue.value[0])
      ensures View() == old(View()).(queue := Some(old(queue.value[1..])), inflight := Some(e))
    {
      e := queue.value[0];
      queue := Some(queue.value[1..]);
      inflight := Some(e);
    }

    /** The consumer is done with its event, or cancelled while it had it. */
    method PutDown(cancelled: Option<Event>)
      modifies this
      ensures View() == (if cancelled.Some? && old(closing) then CountOne(old(View()), cancelled.value)
                         else old(View())).(inflight := None)
    {
      if cancelled.Some? && closing {
        CountShutdownEvent(cancelled.value);
      }
      inflight := None;
    }

    method StopAccepting()
      modifies this
      ensures View() == old(View()).(accepting := false, closing := true)
    {
      accepting, closing := false, true;
    }

    method Finish()
      modifies this
      ensures View() == Reset(old(View()))
    {
      queue, accepting, closing := None, false, false;
      pending, generation, inflight := 0, generation + 1, None;
    }
  }

  lemma {:induction false} CountAllIgnoresQueue(h: Handler, events: seq<Event>, q: Option<seq<Event>>)
    ensures CountAll(h.(queue := q), events) == CountAll(h, events).(queue := q)
    decreases |events|
  {
    if events != [] {
      CountAllIgnoresQueue(CountOne(h, events[0]), events[1..], q);
      assert CountOne(h.(queue := q), events[0]) == CountOne(h, events[0]).(queue := q);
    }
  }
}
