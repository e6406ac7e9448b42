/** What callers of the signing-key cache are told, read off the history of fetches. */
module JwksAnswers {
  import opened Options
  import opened JwksVerifier
  import opened JwksCache

  /** The last successful fetch had this key. */
  predicate Holds(log: seq<Event>, kid: Kid) {
    var successes := Successes(log);
    successes != [] && kid in successes[|successes| - 1].keys
  }

  function KeyHeld(log: seq<Event>, kid: Kid): Key
    requires Holds(log, kid)
  {
    var successes := Successes(log);
    successes[|successes| - 1].keys[kid]
  }

  /** The last successful fetch is younger than this, or exactly this old. */
  predicate Younger(log: seq<Event>, now: int, age: int) {
    var successes := Successes(log);
    successes != [] && now - successes[|successes| - 1].at < age
  }

  predicate AtMost(log: seq<Event>, now: int, age: int) {
    var successes := Successes(log);
    successes != [] && now - successes[|successes| - 1].at <= age
  }

  predicate LastFailed(log: seq<Event>) {
    var attempts := Attempts(log);
    attempts != [] && attempts[|attempts| - 1].Failed?
  }

  predicate LastSucceeded(log: seq<Event>) {
    var attempts := Attempts(log);
    attempts != [] && attempts[|attempts| - 1].Succeeded?
  }

  predicate RetryRuns(log: seq<Event>, st: Settings, now: int) {
    var attempts := Attempts(log);
    LastFailed(log) && now - attempts[|attempts| - 1].at < st.retry
  }

  predicate CooldownRuns(log: seq<Event>, st: Settings, now: int) {
    var ends := UnknownEnds(log);
    ends != [] && now - ends[|ends| - 1].at < st.cooldown
  }

  // ---- asking for a key ----

  /** The key is fresh, or a failure leaves no more than a usable stale one. */
  predicate ServesKey(log: seq<Event>, st: Settings, now: int, kid: Kid, waited: bool) {
    Holds(log, kid) &&
    (Younger(log, now, st.ttl)
     || (LastFailed(log) && AtMost(log, now, st.maxStale) && (waited || RetryRuns(log, st, now))))
  }

  /** No attempt ended while the caller waited, nothing fresh holds the key, and neither the
      retry interval nor, for a key the last success did not have, the cooldown still runs. */
  predicate FetchesKey(log: seq<Event>, st: Settings, now: int, kid: Kid, waited: bool) {
    && !waited && !(Holds(log, kid) && Younger(log, now, st.ttl)) && !RetryRuns(log, st, now)
    && !(Successes(log) != [] && !Holds(log, kid) && CooldownRuns(log, st, now))
  }

  lemma {:induction false} FieldsAreLog(v: Verifier, log: seq<Event>, st: Settings, now: int, kid: Kid)
    requires TellsHistory(v, log)
    ensures v.serial == |Attempts(log)| && (v.cache.Some? <==> Successes(log) != [])
    ensures (Knows(v, kid) <==> Holds(log, kid)) && (Knows(v, kid) ==> v.cache.value.keys[kid] == KeyHeld(log, kid))
    ensures IsFresh(v, st, now) <==> Younger(log, now, st.ttl)
    ensures IsUsable(v, st, now) <==> AtMost(log, now, st.maxStale)
    ensures (v.outcome == Some(Failure) <==> LastFailed(log)) && (RetryBlocked(v, st, now) <==> RetryRuns(log, st, now))
    ensures CooldownBlocked(v, st, now) <==> CooldownRuns(log, st, now)
  {
  }

  lemma {:induction false} AttemptsEnd(log: seq<Event>)
    ensures forall e :: e in Attempts(log) ==> e.Failed? || e.Succeeded?
  {
    if log != [] {
      AttemptsEnd(log[..|log| - 1]);
    }
  }

  lemma {:induction false} SuccessIsLast(v: Verifier, log: seq<Event>)
    requires TellsHistory(v, log)
    ensures v.outcome == Some(Success) <==> LastSucceeded(log)
  {
    AttemptsEnd(log);
  }

  lemma {:induction false} DecidesAsLog(s: System, st: Settings, pc: Pc)
    requires TellsHistory(s.v, s.log) && pc.KeyWaiting? && pc.attempt <= s.v.serial
    requires pc.attempt == s.v.serial ==>
      pc.generation == Generation(s.v) && pc.unknown == (s.v.cache.Some? && !Knows(s.v, pc.kid))
    ensures var d := UnderLock(s.v, st, pc.kid, s.now, pc.attempt, pc.generation, pc.unknown);
      var waited := pc.attempt != |Attempts(s.log)|;
      && (d.Return? <==> ServesKey(s.log, st, s.now, pc.kid, waited))
      && (d.Return? ==> d.key == KeyHeld(s.log, pc.kid))
      && (d.Proceed? <==> FetchesKey(s.log, st, s.now, pc.kid, waited))
      && (d.Reject? ==> LastSucceeded(s.log)) && (d.Unavailable? ==> LastFailed(s.log))
  {
    FieldsAreLog(s.v, s.log, st, s.now, pc.kid);
    SuccessIsLast(s.v, s.log);
    AttemptsEnd(s.log);
    SuccessesAreAttempts(s.log);
  }

  lemma {:induction false} SuccessesAreAttempts(log: seq<Event>)
    ensures Successes(log) != [] ==> Attempts(log) != []
  {
    if log != [] {
      SuccessesAreAttempts(log[..|log| - 1]);
    }
  }

  lemma {:induction false} ReachableHistory(now: int, st: Settings, steps: seq<Step>)
    requires Possible(Init(now), st, steps)
    ensures var s := Run(Init(now), st, steps); Inv(s) && TellsHistory(s.v, s.log)
  {
    RunKeepsInv(Init(now), st, steps);
    FieldsTellHistory(now, st, steps);
  }

  /** In every run, asking for a key gives it at once exactly when the last success holds it and
      is fresh; otherwise the caller waits, remembering how many attempts have ended. */
  lemma {:induction false} AskAnswersExactly(now: int, st: Settings, steps: seq<Step>, p: Pid, kid: Kid)
    requires Possible(Init(now), st, steps) && Enabled(Run(Init(now), st, steps), AskKey(p, kid))
    ensures var s := Run(Init(now), st, steps);
      var after := PcOf(Apply(s, st, AskKey(p, kid)), p);
      if Holds(s.log, kid) && Younger(s.log, s.now, st.ttl) then after == Returned(kid, KeyHeld(s.log, kid))
      else after.KeyWaiting? && after.kid == kid && after.attempt == |Attempts(s.log)|
  {
    ReachableHistory(now, st, steps);
    var s := Run(Init(now), st, steps);
    FieldsAreLog(s.v, s.log, st, s.now, kid);
  }

  /** In every run, a waiting caller that gets the lock is handed the key, fetches, or is refused
      exactly as the history says, and a refusal is a rejection after a success and a temporary
      one after a failure. */
  lemma {:induction false} LockAnswersExactly(now: int, st: Settings, steps: seq<Step>, p: Pid)
    requires Possible(Init(now), st, steps) && Enabled(Run(Init(now), st, steps), LockKey(p))
    ensures var s := Run(Init(now), st, steps);
      var pc, after := PcOf(s, p), PcOf(Apply(s, st, LockKey(p)), p);
      var waited := pc.attempt != |Attempts(s.log)|;
      if ServesKey(s.log, st, s.now, pc.kid, waited) then after == Returned(pc.kid, KeyHeld(s.log, pc.kid))
      else if FetchesKey(s.log, st, s.now, pc.kid, waited) then after.KeyFetching? && after.kid == pc.kid
      else after == if LastSucceeded(s.log) then Rejected else Unserved
  {
    ReachableHistory(now, st, steps);
    var s := Run(Init(now), st, steps);
    assert CallerInv(s, p, PcOf(s, p));
    DecidesAsLog(s, st, PcOf(s, p));
  }

  /** In every run, a caller that fetched is given what it fetched if that holds the key, and is
      rejected otherwise; after a failed fetch it is given the last success's key while usable. */
  lemma {:induction false} FetchAnswersExactly(now: int, st: Settings, steps: seq<Step>, p: Pid, keys: map<Kid, Key>)
    requires Possible(Init(now), st, steps) && PcOf(Run(Init(now), st, steps), p).KeyFetching?
    ensures var s := Run(Init(now), st, steps);
      var kid := PcOf(s, p).kid;
      && PcOf(Apply(s, st, KeyFetchSucceeds(p, keys)), p)
         == (if kid in keys then Returned(kid, keys[kid]) else Rejected)
      && PcOf(Apply(s, st, KeyFetchFails(p)), p)
         == (if Holds(s.log, kid) && AtMost(s.log, s.now, st.maxStale) then Returned(kid, KeyHeld(s.log, kid))
             else Unserved)
  {
    ReachableHistory(now, st, steps);
    var s := Run(Init(now), st, steps);
    FieldsAreLog(s.v, s.log, st, s.now, PcOf(s, p).kid);
  }

  // ---- readiness ----

  /** In every run, readiness is reported over a fresh success, or over a usable one while the
      retry interval runs or after the caller's own fetch failed; it fetches exactly when there is
      nothing fresh and no retry interval runs. */
  lemma {:induction false} ReadyAnswersExactly(now: int, st: Settings, steps: seq<Step>, p: Pid)
    requires Possible(Init(now), st, steps)
    ensures var s := Run(Init(now), st, steps);
      && (Enabled(s, AskReady(p)) ==>
            PcOf(Apply(s, st, AskReady(p)), p) == if Younger(s.log, s.now, st.ttl) then Ready else ReadyWaiting)
      && (Enabled(s, LockReady(p)) ==>
            PcOf(Apply(s, st, LockReady(p)), p)
            == if Younger(s.log, s.now, st.ttl) then Ready
               else if !RetryRuns(s.log, st, s.now) then ReadyFetching
               else if AtMost(s.log, s.now, st.maxStale) then Ready else Unserved)
      && (Enabled(s, ReadyFetchFails(p)) ==>
            PcOf(Apply(s, st, ReadyFetchFails(p)), p)
            == if AtMost(s.log, s.now, st.maxStale) then Ready else Unserved)
  {
    ReachableHistory(now, st, steps);
    var s := Run(Init(now), st, steps);
    FieldsAreLog(s.v, s.log, st, s.now, "");
  }

  // ---- callers are served ----

  lemma {:induction false} RunCons(s: System, st: Settings, step: Step, rest: seq<Step>)
    requires Enabled(s, step) && Possible(Apply(s, st, step), st, rest)
    ensures Possible(s, st, [step] + rest) && Run(s, st, [step] + rest) == Run(Apply(s, st, step), st, rest)
  {
    assert ([step] + rest)[1..] == rest;
  }

  lemma {:induction false} FetchServesBoth(s: System, st: Settings, kid: Kid, keys: map<Kid, Key>, p: Pid, q: Pid)
    returns (steps: seq<Step>)
    requires kid in keys && st.ttl >= 1 && p != q && s.v.serial == 0
    requires PcOf(s, p) == KeyFetching(kid, 0, false) && PcOf(s, q) == KeyWaiting(kid, 0, 0, false)
    ensures steps == [KeyFetchSucceeds(p, keys), LockKey(q)] && Possible(s, st, steps)
    ensures var t := Run(s, st, steps);
      PcOf(t, p) == PcOf(t, q) == Returned(kid, keys[kid]) && t.log == s.log + [Succeeded(s.now, keys, false)]
  {
    var s1 := Apply(s, st, KeyFetchSucceeds(p, keys));
    RunCons(s1, st, LockKey(q), []);
    RunCons(s, st, KeyFetchSucceeds(p, keys), [LockKey(q)] + []);
    steps := [KeyFetchSucceeds(p, keys)] + ([LockKey(q)] + []);
  }

  /** The first caller fetches, and a second one that waited for it is served without fetching. */
  lemma {:induction false} CallersAreServed(now: int, st: Settings, kid: Kid, keys: map<Kid, Key>, p: Pid, q: Pid)
    returns (steps: seq<Step>)
    requires kid in keys && st.ttl >= 1 && p != q
    ensures steps == [AskKey(p, kid), LockKey(p), AskKey(q, kid), KeyFetchSucceeds(p, keys), LockKey(q)]
    ensures Possible(Init(now), st, steps)
    ensures var s := Run(Init(now), st, steps);
      && PcOf(s, p) == PcOf(s, q) == Returned(kid, keys[kid])
      && s.log == [Started(now, false), Succeeded(now, keys, false)]
  {
    var s0 := Init(now);
    var s1 := Apply(s0, st, AskKey(p, kid));
    var s2 := Apply(s1, st, LockKey(p));
    var s3 := Apply(s2, st, AskKey(q, kid));
    steps := FetchServesBoth(s3, st, kid, keys, p, q);
    RunCons(s2, st, AskKey(q, kid), steps);
    steps := [AskKey(q, kid)] + steps;
    RunCons(s1, st, LockKey(p), steps);
    steps := [LockKey(p)] + steps;
    RunCons(s0, st, AskKey(p, kid), steps);
    steps := [AskKey(p, kid)] + steps;
  }

  lemma {:induction false} ReadinessIsReported(now: int, st: Settings, keys: map<Kid, Key>, p: Pid)
    returns (steps: seq<Step>)
    ensures steps == [AskReady(p), LockReady(p), ReadyFetchSucceeds(p, keys)] && Possible(Init(now), st, steps)
    ensures PcOf(Run(Init(now), st, steps), p) == Ready
  {
    var s0 := Init(now);
    var s1 := Apply(s0, st, AskReady(p));
    var s2 := Apply(s1, st, LockReady(p));
    RunCons(s2, st, ReadyFetchSucceeds(p, keys), []);
    RunCons(s1, st, LockReady(p), [ReadyFetchSucceeds(p, keys)] + []);
    RunCons(s0, st, AskReady(p), [LockReady(p)] + ([ReadyFetchSucceeds(p, keys)] + []));
    steps := [AskReady(p)] + ([LockReady(p)] + ([ReadyFetchSucceeds(p, keys)] + []));
  }
}
