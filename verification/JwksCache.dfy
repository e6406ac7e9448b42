/** Any number of concurrent callers sharing one signing-key cache behind a lock. */
module JwksCache {
  import opened Options
  import opened JwksVerifier

  type Pid = nat

  datatype Pc =
    | Idle
    | KeyWaiting(kid: Kid, attempt: nat, generation: nat, unknown: bool)
    | KeyFetching(kid: Kid, attempt: nat, unknown: bool)
    | Returned(kid: Kid, key: Key)
    | ReadyWaiting
    | ReadyFetching
    | Ready
    | Rejected                      // 401: the token is not valid
    | Unserved                      // 503: no usable keys for now
    | Gone                          // cancelled

  /** What happened to fetches; `unknown` marks one made for a key the cache did not hold. */
  datatype Event =
    | Started(at: int, unknown: bool)
    | Failed(at: int, unknown: bool)
    | Succeeded(at: int, keys: map<Kid, Key>, unknown: bool)
    | Abandoned(at: int, unknown: bool)

  datatype System = System(
    now: int,
    v: Verifier,
    holder: Option<Pid>,            // who holds the lock across a fetch
    callers: map<Pid, Pc>,
    log: seq<Event>)

  datatype Step =
    | Tick(s: nat)
    | AskKey(p: Pid, kid: Kid)
    | LockKey(p: Pid)
    | KeyFetchSucceeds(p: Pid, keys: map<Kid, Key>)
    | KeyFetchFails(p: Pid)
    | AskReady(p: Pid)
    | LockReady(p: Pid)
    | ReadyFetchSucceeds(p: Pid, keys: map<Kid, Key>)
    | ReadyFetchFails(p: Pid)
    | Cancelled(p: Pid)
    | Forget(p: Pid)

  function Init(now: int): System {
    System(now, Verifier(None, 0, None, None, None), None, map[], [])
  }

  function PcOf(s: System, p: Pid): Pc {
    if p in s.callers then s.callers[p] else Idle
  }

  predicate Refused(pc: Pc) {
    pc.Rejected? || pc.Unserved? || pc.Gone?
  }

  predicate Fetching(pc: Pc) {
    pc.KeyFetching? || pc.ReadyFetching?
  }

  predicate Enabled(s: System, step: Step) {
    match step
    case Tick(_) => true
    case AskKey(p, _) => PcOf(s, p).Idle?
    case LockKey(p) => PcOf(s, p).KeyWaiting? && s.holder.None?
    case KeyFetchSucceeds(p, _) => PcOf(s, p).KeyFetching?
    case KeyFetchFails(p) => PcOf(s, p).KeyFetching?
    case AskReady(p) => PcOf(s, p).Idle?
    case LockReady(p) => PcOf(s, p).ReadyWaiting? && s.holder.None?
    case ReadyFetchSucceeds(p, _) => PcOf(s, p).ReadyFetching?
    case ReadyFetchFails(p) => PcOf(s, p).ReadyFetching?
    case Cancelled(p) => !PcOf(s, p).Idle?
    case Forget(p) => PcOf(s, p).Returned? || PcOf(s, p).Ready? || Refused(PcOf(s, p))
  }

  function Goto(s: System, p: Pid, pc: Pc): System {
    s.(callers := s.callers[p := pc])
  }

  function Deliver(s: System, p: Pid, kid: Kid, d: Decision): System {
    Goto(s, p, if d.Return? then Returned(kid, d.key) else if d.Reject? then Rejected else Unserved)
  }

  /** The cached key if it may still be used, else a refusal. */
  function DeliverCached(s: System, st: Settings, p: Pid, kid: Kid): System {
    Deliver(s, p, kid,
            if Knows(s.v, kid) && IsUsable(s.v, st, s.now) then Return(s.v.cache.value.keys[kid]) else Unavailable)
  }

  function StartFetch(s: System, p: Pid, pc: Pc, unknown: bool): System {
    Goto(s, p, pc).(holder := Some(p), log := s.log + [Started(s.now, unknown)])
  }

  function AskedKey(s: System, st: Settings, p: Pid, kid: Kid): System {
    if IsFresh(s.v, st, s.now) && Knows(s.v, kid) then Deliver(s, p, kid, Return(s.v.cache.value.keys[kid]))
    else Goto(s, p, KeyWaiting(kid, s.v.serial, Generation(s.v), s.v.cache.Some? && !Knows(s.v, kid)))
  }

  function LockedKey(s: System, st: Settings, p: Pid, pc: Pc): System
    requires pc.KeyWaiting?
  {
    var d := UnderLock(s.v, st, pc.kid, s.now, pc.attempt, pc.generation, pc.unknown);
    if d.Proceed? then StartFetch(s, p, KeyFetching(pc.kid, pc.attempt, pc.unknown), pc.unknown)
    else Deliver(s, p, pc.kid, d)
  }

  function LockedReady(s: System, st: Settings, p: Pid): System {
    if IsFresh(s.v, st, s.now) then Goto(s, p, Ready)
    else if RetryBlocked(s.v, st, s.now) then Goto(s, p, if IsUsable(s.v, st, s.now) then Ready else Unserved)
    else StartFetch(s, p, ReadyFetching, false)
  }

  function Unlocked(s: System, v: Verifier): System {
    s.(v := v, holder := None)
  }

  function Apply(s: System, st: Settings, step: Step): System
    requires Enabled(s, step)
  {
    match step
    case Tick(d) => s.(now := s.now + d)
    case AskKey(p, kid) => AskedKey(s, st, p, kid)
    case LockKey(p) => LockedKey(s, st, p, PcOf(s, p))
    case KeyFetchSucceeds(p, keys) =>
      var pc := PcOf(s, p);
      var after := Unlocked(s, UnknownDone(Fetched(s.v, keys, s.now), pc.unknown, s.now));
      Deliver(after.(log := s.log + [Succeeded(s.now, keys, pc.unknown)]), p, pc.kid,
              if pc.kid in keys then Return(keys[pc.kid]) else Reject)
    case KeyFetchFails(p) =>
      var pc := PcOf(s, p);
      var after := Unlocked(s, UnknownDone(FetchFailed(s.v, s.now), pc.unknown, s.now));
      DeliverCached(after.(log := s.log + [Failed(s.now, pc.unknown)]), st, p, pc.kid)
    case AskReady(p) => Goto(s, p, if IsFresh(s.v, st, s.now) then Ready else ReadyWaiting)
    case LockReady(p) => LockedReady(s, st, p)
    case ReadyFetchSucceeds(p, keys) =>
      Goto(Unlocked(s, Fetched(s.v, keys, s.now)).(log := s.log + [Succeeded(s.now, keys, false)]), p, Ready)
    case ReadyFetchFails(p) =>
      Goto(Unlocked(s, FetchFailed(s.v, s.now)).(log := s.log + [Failed(s.now, false)]), p,
           if IsUsable(s.v, st, s.now) then Ready else Unserved)
    case Cancelled(p) =>
      var pc := PcOf(s, p);
      var after := if Fetching(pc) then Unlocked(s, UnknownDone(s.v, pc.KeyFetching? && pc.unknown, s.now)) else s;
      Goto(after.(log := if Fetching(pc) then s.log + [Abandoned(s.now, pc.KeyFetching? && pc.unknown)] else s.log),
           p, Gone)
    case Forget(p) => Goto(s, p, Idle)
  }

  ghost predicate Possible(s: System, st: Settings, steps: seq<Step>)
    decreases |steps|
  {
    steps == [] || (Enabled(s, steps[0]) && Possible(Apply(s, st, steps[0]), st, steps[1..]))
  }

  ghost function Run(s: System, st: Settings, steps: seq<Step>): System
    requires Possible(s, st, steps)
    decreases |steps|
  {
    if steps == [] then s else Run(Apply(s, st, steps[0]), st, steps[1..])
  }

  // ---- the invariant ----

  ghost predicate CallerInv(s: System, p: Pid, pc: Pc) {
    && (Fetching(pc) <==> s.holder == Some(p))
    && (pc.KeyWaiting? ==> pc.attempt <= s.v.serial && (pc.attempt == s.v.serial ==> pc.generation == Generation(s.v)))
    && (pc.KeyFetching? ==> pc.attempt == s.v.serial)
    && (pc.KeyWaiting? && pc.attempt == s.v.serial ==> pc.unknown == (s.v.cache.Some? && !Knows(s.v, pc.kid)))
  }

  ghost predicate ClockInv(s: System) {
    && (s.v.cache.Some? ==> s.v.cache.value.fetchedAt <= s.now)
    && (s.v.completedAt.Some? ==> s.v.completedAt.value <= s.now)
    && (s.v.unknownAt.Some? ==> s.v.unknownAt.value <= s.now)
  }

  ghost predicate Inv(s: System) {
    && ClockInv(s)
    && (s.holder.Some? ==> Fetching(PcOf(s, s.holder.value)))
    && forall p :: p in s.callers ==> CallerInv(s, p, s.callers[p])
  }

  predicate TakesLock(step: Step) {
    step.LockKey? || step.LockReady?
  }

  predicate EndsFetch(step: Step) {
    step.KeyFetchSucceeds? || step.KeyFetchFails? || step.ReadyFetchSucceeds? || step.ReadyFetchFails?
  }

  lemma {:induction false} LockStepKeepsInv(s: System, st: Settings, step: Step)
    requires Inv(s) && Enabled(s, step) && TakesLock(step)
    ensures Inv(Apply(s, st, step))
  {
  }

  lemma {:induction false} FetchEndKeepsInv(s: System, st: Settings, step: Step)
    requires Inv(s) && Enabled(s, step) && EndsFetch(step)
    ensures Inv(Apply(s, st, step))
  {
  }

  lemma {:induction false} OtherStepKeepsInv(s: System, st: Settings, step: Step)
    requires Inv(s) && Enabled(s, step) && !TakesLock(step) && !EndsFetch(step)
    ensures Inv(Apply(s, st, step))
  {
  }

  lemma {:induction false} StepKeepsInv(s: System, st: Settings, step: Step)
    requires Inv(s) && Enabled(s, step)
    ensures Inv(Apply(s, st, step))
  {
    if TakesLock(step) {
      LockStepKeepsInv(s, st, step);
    } else if EndsFetch(step) {
      FetchEndKeepsInv(s, st, step);
    } else {
      OtherStepKeepsInv(s, st, step);
    }
  }

  lemma {:induction false} RunKeepsInv(s: System, st: Settings, steps: seq<Step>)
    requires Inv(s) && Possible(s, st, steps)
    ensures Inv(Run(s, st, steps))
    decreases |steps|
  {
    if steps != [] {
      StepKeepsInv(s, st, steps[0]);
      RunKeepsInv(Apply(s, st, steps[0]), st, steps[1..]);
    }
  }

  // ---- what callers may rely on ----

  /** The generation moves only together with the attempt serial, so the branch that
      returns a key of another generation without looking at its age is never taken. */
  lemma {:induction false} GenerationBranchUnreachable(now: int, st: Settings, steps: seq<Step>, p: Pid)
    requires Possible(Init(now), st, steps)
    requires PcOf(Run(Init(now), st, steps), p).KeyWaiting?
    ensures var s := Run(Init(now), st, steps);
      var pc := PcOf(s, p);
      s.v.serial == pc.attempt ==>
        AfterConcurrentRefresh(s.v, st, pc.kid, s.now, pc.attempt, pc.generation) == Proceed
  {
    RunKeepsInv(Init(now), st, steps);
  }

  ghost predicate CurrentKey(s: System, st: Settings, kid: Kid, key: Key) {
    Knows(s.v, kid) && s.v.cache.value.keys[kid] == key && 0 <= Age(s.v, s.now) <= st.maxStale
  }

  lemma {:induction false} StepReturnsCurrentKey(s: System, st: Settings, step: Step, p: Pid)
    requires 0 <= st.ttl <= st.maxStale && Inv(s) && Enabled(s, step)
    requires !PcOf(s, p).Returned? && PcOf(Apply(s, st, step), p).Returned?
    ensures var t := Apply(s, st, step); CurrentKey(t, st, PcOf(t, p).kid, PcOf(t, p).key)
  {
  }

  /** Every key handed out belongs to the cache of that moment, which is no older than
      the staleness bound; readiness is reported only over such a cache. */
  lemma {:induction false} ReturnedKeyIsCurrent(now: int, st: Settings, steps: seq<Step>, step: Step, p: Pid)
    requires 0 <= st.ttl <= st.maxStale && Possible(Init(now), st, steps)
    requires Enabled(Run(Init(now), st, steps), step)
    ensures var s := Run(Init(now), st, steps);
      var t := Apply(s, st, step);
      && (!PcOf(s, p).Returned? && PcOf(t, p).Returned? ==> CurrentKey(t, st, PcOf(t, p).kid, PcOf(t, p).key))
      && (!PcOf(s, p).Ready? && PcOf(t, p).Ready? ==> IsUsable(t.v, st, t.now))
  {
    RunKeepsInv(Init(now), st, steps);
    var s := Run(Init(now), st, steps);
    if !PcOf(s, p).Returned? && PcOf(Apply(s, st, step), p).Returned? {
      StepReturnsCurrentKey(s, st, step, p);
    }
  }

  /** Refreshes are single-flight: two callers never fetch at the same time. */
  lemma {:induction false} SingleFlight(now: int, st: Settings, steps: seq<Step>, p: Pid, q: Pid)
    requires Possible(Init(now), st, steps)
    requires var s := Run(Init(now), st, steps); Fetching(PcOf(s, p)) && Fetching(PcOf(s, q))
    ensures p == q
  {
    RunKeepsInv(Init(now), st, steps);
  }

  ghost predicate ActsOn(step: Step, p: Pid) {
    !step.Tick? && step.p == p
  }

  lemma {:induction false} OthersLeaveCallerAlone(s: System, st: Settings, steps: seq<Step>, p: Pid)
    requires Possible(s, st, steps) && forall i :: 0 <= i < |steps| ==> !ActsOn(steps[i], p)
    ensures PcOf(Run(s, st, steps), p) == PcOf(s, p)
    decreases |steps|
  {
    if steps != [] {
      assert PcOf(Apply(s, st, steps[0]), p) == PcOf(s, p);
      OthersLeaveCallerAlone(Apply(s, st, steps[0]), st, steps[1..], p);
    }
  }

  /** A caller during whose wait another attempt completed never starts one itself. */
  lemma {:induction false} WaiterDoesNotRepeatAttempt(s: System, st: Settings, kid: Kid, steps: seq<Step>, p: Pid)
    requires Enabled(s, AskKey(p, kid)) && Possible(Apply(s, st, AskKey(p, kid)), st, steps)
    requires forall i :: 0 <= i < |steps| ==> !ActsOn(steps[i], p)
    requires var t := Run(Apply(s, st, AskKey(p, kid)), st, steps);
      Enabled(t, LockKey(p)) && t.v.serial != s.v.serial
    ensures var t := Run(Apply(s, st, AskKey(p, kid)), st, steps);
      !Fetching(PcOf(Apply(t, st, LockKey(p)), p)) && Apply(t, st, LockKey(p)).log == t.log
  {
    OthersLeaveCallerAlone(Apply(s, st, AskKey(p, kid)), st, steps, p);
  }

  // ---- how often the provider is asked ----

  ghost predicate BackoffInv(s: System, st: Settings, e: Event) {
    && e.at <= s.now
    && (e.Failed? ==>
          || s.now - e.at >= st.retry
          || (s.v.outcome == Some(Failure) && s.v.completedAt.Some? && e.at <= s.v.completedAt.value && s.holder.None?))
    && (e.Started? && e.unknown ==>
          || (s.v.unknownAt.Some? && e.at <= s.v.unknownAt.value)
          || (s.holder.Some? && PcOf(s, s.holder.value).KeyFetching? && PcOf(s, s.holder.value).unknown))
  }

  /** A start keeps its distance from an earlier failure, and an unknown-key start from
      an earlier unknown-key start. */
  ghost predicate Apart(st: Settings, earlier: Event, later: Event) {
    later.Started? ==>
      && (earlier.Failed? ==> later.at >= earlier.at + st.retry)
      && (earlier.Started? && earlier.unknown && later.unknown ==> later.at >= earlier.at + st.cooldown)
  }

  ghost predicate Spaced(st: Settings, log: seq<Event>) {
    forall i, j :: 0 <= i < j < |log| ==> Apart(st, log[i], log[j])
  }

  ghost predicate LogInv(s: System, st: Settings) {
    Spaced(st, s.log) && forall e :: e in s.log ==> BackoffInv(s, st, e)
  }

  lemma {:induction false} StepKeepsBackoff(s: System, st: Settings, step: Step, e: Event)
    requires Inv(s) && Enabled(s, step) && BackoffInv(s, st, e)
    ensures BackoffInv(Apply(s, st, step), st, e)
  {
  }

  lemma {:induction false} StepAddsApart(s: System, st: Settings, step: Step)
    requires Inv(s) && Enabled(s, step)
    ensures var t := Apply(s, st, step);
      || t.log == s.log
      || (|t.log| == |s.log| + 1 && t.log[..|s.log|] == s.log
          && BackoffInv(t, st, t.log[|s.log|])
          && forall e :: BackoffInv(s, st, e) ==> Apart(st, e, t.log[|s.log|]))
  {
  }

  lemma {:induction false} StepKeepsLog(s: System, st: Settings, step: Step)
    requires Inv(s) && LogInv(s, st) && Enabled(s, step)
    ensures LogInv(Apply(s, st, step), st)
  {
    var t := Apply(s, st, step);
    StepAddsApart(s, st, step);
    forall e | e in s.log
      ensures BackoffInv(t, st, e)
    {
      StepKeepsBackoff(s, st, step, e);
    }
    if t.log != s.log {
      assert t.log == s.log + [t.log[|s.log|]];
    }
  }

  lemma {:induction false} RunKeepsLog(s: System, st: Settings, steps: seq<Step>)
    requires Inv(s) && LogInv(s, st) && Possible(s, st, steps)
    ensures LogInv(Run(s, st, steps), st)
    decreases |steps|
  {
    if steps != [] {
      StepKeepsInv(s, st, steps[0]);
      StepKeepsLog(s, st, steps[0]);
      RunKeepsLog(Apply(s, st, steps[0]), st, steps[1..]);
    }
  }

  /** On every run, no fetch starts within the retry interval after a recorded failure,
      and unknown-key fetches start at least one cooldown apart. */
  lemma {:induction false} FetchesAreSpaced(now: int, st: Settings, steps: seq<Step>)
    requires Possible(Init(now), st, steps)
    ensures Spaced(st, Run(Init(now), st, steps).log)
  {
    RunKeepsLog(Init(now), st, steps);
  }

  // ---- the fields are the history ----

  /** The attempts that ended, in order. */
  function Attempts(log: seq<Event>): seq<Event> {
    if log == [] then []
    else Attempts(log[..|log| - 1])
         + (if log[|log| - 1].Failed? || log[|log| - 1].Succeeded? then [log[|log| - 1]] else [])
  }

  /** The successes among them. */
  function Successes(log: seq<Event>): (successes: seq<Event>)
    ensures forall e :: e in successes ==> e.Succeeded?
  {
    if log == [] then []
    else Successes(log[..|log| - 1]) + (if log[|log| - 1].Succeeded? then [log[|log| - 1]] else [])
  }

  /** The fetches made for an unknown key that are over, whichever way. */
  function UnknownEnds(log: seq<Event>): seq<Event> {
    if log == [] then []
    else UnknownEnds(log[..|log| - 1])
         + (if !log[|log| - 1].Started? && log[|log| - 1].unknown then [log[|log| - 1]] else [])
  }

  /** The serial counts the attempts and the last one is the recorded outcome; the generation
      counts the successes and the last one is the cache; the cooldown runs from the last end
      of a fetch for an unknown key. */
  ghost predicate TellsHistory(v: Verifier, log: seq<Event>) {
    var attempts, successes := Attempts(log), Successes(log);
    && v.serial == |attempts| && Generation(v) == |successes|
    && (if attempts == [] then v.outcome.None? && v.completedAt.None?
        else v.completedAt == Some(attempts[|attempts| - 1].at)
             && v.outcome == Some(if attempts[|attempts| - 1].Failed? then Failure else Success))
    && (if successes == [] then v.cache.None?
        else v.cache.Some? && v.cache.value.fetchedAt == successes[|successes| - 1].at
             && v.cache.value.keys == successes[|successes| - 1].keys)
    && (var ends := UnknownEnds(log);
        v.unknownAt == if ends == [] then None else Some(ends[|ends| - 1].at))
  }

  lemma {:induction false} EventTellsHistory(v: Verifier, log: seq<Event>, e: Event)
    requires TellsHistory(v, log)
    ensures match e
      case Started(_, _) => TellsHistory(v, log + [e])
      case Failed(at, unknown) => TellsHistory(UnknownDone(FetchFailed(v, at), unknown, at), log + [e])
      case Succeeded(at, keys, unknown) => TellsHistory(UnknownDone(Fetched(v, keys, at), unknown, at), log + [e])
      case Abandoned(at, unknown) => TellsHistory(UnknownDone(v, unknown, at), log + [e])
  {
    assert (log + [e])[..|log|] == log;
  }

  lemma {:induction false} EventStepTellsHistory(s: System, st: Settings, step: Step)
    requires TellsHistory(s.v, s.log) && Enabled(s, step) && (TakesLock(step) || EndsFetch(step) || step.Cancelled?)
    ensures TellsHistory(Apply(s, st, step).v, Apply(s, st, step).log)
  {
    var t := Apply(s, st, step);
    if t.log != s.log {
      EventTellsHistory(s.v, s.log, t.log[|s.log|]);
    }
  }

  lemma {:induction false} StepTellsHistory(s: System, st: Settings, step: Step)
    requires TellsHistory(s.v, s.log) && Enabled(s, step)
    ensures TellsHistory(Apply(s, st, step).v, Apply(s, st, step).log)
  {
    if TakesLock(step) || EndsFetch(step) || step.Cancelled? {
      EventStepTellsHistory(s, st, step);
    }
  }

  lemma {:induction false} RunTellsHistory(s: System, st: Settings, steps: seq<Step>)
    requires TellsHistory(s.v, s.log) && Possible(s, st, steps)
    ensures TellsHistory(Run(s, st, steps).v, Run(s, st, steps).log)
    decreases |steps|
  {
    if steps != [] {
      StepTellsHistory(s, st, steps[0]);
      RunTellsHistory(Apply(s, st, steps[0]), st, steps[1..]);
    }
  }

  /** In every run the verifier's fields are exactly what its history of attempts says. */
  lemma {:induction false} FieldsTellHistory(now: int, st: Settings, steps: seq<Step>)
    requires Possible(Init(now), st, steps)
    ensures TellsHistory(Run(Init(now), st, steps).v, Run(Init(now), st, steps).log)
  {
    RunTellsHistory(Init(now), st, steps);
  }

  // ---- the system run on the object ----

  /** Carries out one step of the system through the verifier's own methods: a caller that
      gets the lock does what the verifier decides. */
  method Perform(verifier: OidcVerifier, s: System, st: Settings, step: Step)
    requires Enabled(s, step) && verifier.View() == s.v
    modifies verifier
    ensures verifier.View() == Apply(s, st, step).v
  {
    match step
    case Tick(_) =>
    case AskKey(p, kid) =>
    case LockKey(p) =>
      var pc := PcOf(s, p);
      var d := verifier.DecideUnderLock(st, pc.kid, s.now, pc.attempt, pc.generation, pc.unknown);
      assert Fetching(PcOf(Apply(s, st, step), p)) <==> d.Proceed?;
      assert d.Return? ==> PcOf(Apply(s, st, step), p) == Returned(pc.kid, d.key);
    case KeyFetchSucceeds(p, keys) =>
      verifier.StoreKeys(keys, s.now);
      verifier.NoteUnknownRefresh(PcOf(s, p).unknown, s.now);
    case KeyFetchFails(p) =>
      verifier.RecordRefreshFailure(s.now);
      verifier.NoteUnknownRefresh(PcOf(s, p).unknown, s.now);
    case AskReady(p) =>
    case LockReady(p) =>
    case ReadyFetchSucceeds(p, keys) => verifier.StoreKeys(keys, s.now);
    case ReadyFetchFails(p) => verifier.RecordRefreshFailure(s.now);
    case Cancelled(p) =>
      var pc := PcOf(s, p);
      verifier.NoteUnknownRefresh(pc.KeyFetching? && pc.unknown, s.now);
    case Forget(p) =>
  }

  /** A verifier driven through any run holds what its history of attempts says. */
  method Drive(now: int, st: Settings, steps: seq<Step>) returns (verifier: OidcVerifier)
    requires Possible(Init(now), st, steps)
    ensures fresh(verifier) && verifier.View() == Run(Init(now), st, steps).v
    ensures TellsHistory(verifier.View(), Run(Init(now), st, steps).log)
  {
    verifier := new OidcVerifier();
    var s, rest := Init(now), steps;
    while rest != []
      invariant fresh(verifier) && Possible(s, st, rest) && Run(s, st, rest) == Run(Init(now), st, steps)
      invariant verifier.View() == s.v
      decreases |rest|
    {
      Perform(verifier, s, st, rest[0]);
      s, rest := Apply(s, st, rest[0]), rest[1..];
    }
    FieldsTellHistory(now, st, steps);
  }
}
