/** Which session a refresh replaces: its owner does not look at the stored session again once
    it has the lock, so that may be a newer one than it read. */
module SessionReplacement {
  import opened Options
  import opened SessionRefresh

  // ---- which session a store replaces ----

  /** Steps that put a ciphertext in the place of the stored session. */
  predicate Lands(step: Step) {
    step.StoreLands? || step.OrphanLands?
  }

  /** A ciphertext on its way to the store has not been there yet. */
  ghost predicate UnlandedInv(w: World) {
    && w.orphans !! w.stored
    && (forall p :: p in w.procs && w.procs[p].Storing? ==>
          w.procs[p].made !in w.stored && w.procs[p].made !in w.orphans)
    && (forall p, q :: p in w.procs && q in w.procs && p != q && w.procs[p].Storing? && w.procs[q].Storing? ==>
          w.procs[p].made != w.procs[q].made)
  }

  /** What a request on its way to the store can become, and what that does to the store. */
  ghost predicate Ships(w: World, v: World, a: Pc, b: Pc) {
    && (b.Storing? ==> a == b || b.made !in w.records)
    && (v.stored == w.stored || (a.Storing? && !b.Storing? && v.stored == w.stored + {a.made}))
    && (v.orphans == w.orphans || (a.Storing? && !b.Storing? && v.orphans == w.orphans + {a.made}))
    && (v.stored == w.stored || v.orphans == w.orphans)
  }

  lemma {:induction false} OwnerShips(w: World, step: Step)
    requires Enabled(w, step) && (Owns(step) || step.Store?)
    ensures Ships(w, Apply(w, step), PcOf(w, step.p), PcOf(Apply(w, step), step.p))
  {
  }

  lemma {:induction false} OtherShips(w: World, step: Step)
    requires Enabled(w, step) && !Ambient(step) && !Owns(step) && !step.Store?
    ensures Ships(w, Apply(w, step), PcOf(w, step.p), PcOf(Apply(w, step), step.p))
  {
  }

  lemma {:induction false} ShippingKeepsUnlanded(w: World, v: World, p: Pid, origin: Record)
    requires Inv(w, origin) && UnlandedInv(w)
    requires v.procs == w.procs[p := PcOf(v, p)] && Ships(w, v, PcOf(w, p), PcOf(v, p))
    ensures UnlandedInv(v)
  {
    forall q | q in w.procs && w.procs[q].Storing?
      ensures w.procs[q].made in w.records
    {
      assert PcInv(w, q, w.procs[q]);
    }
  }

  lemma {:induction false} AmbientKeepsUnlanded(w: World, step: Step)
    requires UnlandedInv(w) && Enabled(w, step) && Ambient(step)
    ensures UnlandedInv(Apply(w, step))
  {
  }

  lemma {:induction false} StepKeepsUnlanded(w: World, step: Step, origin: Record)
    requires Inv(w, origin) && UnlandedInv(w) && Enabled(w, step)
    ensures UnlandedInv(Apply(w, step))
  {
    if Ambient(step) {
      AmbientKeepsUnlanded(w, step);
    } else {
      MoverMoves(w, step);
      if Owns(step) || step.Store? {
        OwnerShips(w, step);
      } else {
        OtherShips(w, step);
      }
      ShippingKeepsUnlanded(w, Apply(w, step), step.p, origin);
    }
  }

  /** A step replaces the stored session only by landing something that was never stored. */
  lemma {:induction false} StepReplaces(w: World, step: Step)
    requires UnlandedInv(w) && Enabled(w, step)
    ensures var v := Apply(w, step);
      if Lands(step) then v.session.Some? && v.session.value !in w.stored else v.session in {w.session, None}
  {
  }

  /** What has become of a session that was stored once, when something landed since or not. */
  ghost predicate Tracks(w: World, session: Cipher, landed: bool) {
    session in w.stored && if landed then w.session != Some(session) else w.session in {Some(session), None}
  }

  ghost predicate SomeLands(steps: seq<Step>) {
    exists i :: 0 <= i < |steps| && Lands(steps[i])
  }

  lemma {:induction false} SomeLandsCons(steps: seq<Step>)
    requires steps != []
    ensures SomeLands(steps) <==> Lands(steps[0]) || SomeLands(steps[1..])
  {
    if i :| 0 <= i < |steps| && Lands(steps[i]) {
      if i > 0 {
        assert Lands(steps[1..][i - 1]);
      }
    }
    if i :| 0 <= i < |steps[1..]| && Lands(steps[1..][i]) {
      assert Lands(steps[i + 1]);
    }
  }

  lemma {:induction false} RunTracks(w: World, steps: seq<Step>, origin: Record, session: Cipher, landed: bool)
    requires Inv(w, origin) && UnlandedInv(w) && Possible(w, steps) && Tracks(w, session, landed)
    ensures Tracks(Run(w, steps), session, landed || SomeLands(steps))
    decreases |steps|
  {
    if steps != [] {
      var step := steps[0];
      StepKeepsInv(w, step, origin);
      StepKeepsUnlanded(w, step, origin);
      StepReplaces(w, step);
      StepGrows(w, step);
      SomeLandsCons(steps);
      RunTracks(Apply(w, step), steps[1..], origin, session, landed || Lands(step));
    }
  }

  lemma {:induction false} RunKeepsUnlanded(w: World, steps: seq<Step>, origin: Record)
    requires Inv(w, origin) && UnlandedInv(w) && Possible(w, steps)
    ensures UnlandedInv(Run(w, steps))
    decreases |steps|
  {
    if steps != [] {
      StepKeepsInv(w, steps[0], origin);
      StepKeepsUnlanded(w, steps[0], origin);
      RunKeepsUnlanded(Apply(w, steps[0]), steps[1..], origin);
    }
  }

  lemma {:induction false} RunSplits(w: World, before: seq<Step>, step: Step, after: seq<Step>)
    requires Possible(w, before + [step] + after)
    ensures Possible(w, before) && Enabled(Run(w, before), step) && Possible(Apply(Run(w, before), step), after)
    ensures Run(w, before + [step] + after) == Run(Apply(Run(w, before), step), after)
    ensures Timely(w, before + [step] + after) ==>
      && Timely(w, before) && InTime(Apply(Run(w, before), step))
      && Timely(Apply(Run(w, before), step), after)
    decreases |before|
  {
    var all := before + [step] + after;
    if before == [] {
      assert all[1..] == after;
    } else {
      assert all[1..] == before[1..] + [step] + after;
      RunSplits(Apply(w, before[0]), before[1..], step, after);
    }
  }

  lemma {:induction false} ReplacedSinceRead(u: World, middle: seq<Step>, origin: Record, p: Pid)
    requires Inv(u, origin) && UnlandedInv(u) && Enabled(u, Read(p)) && Possible(Apply(u, Read(p)), middle)
    requires var w := Run(Apply(u, Read(p)), middle); Enabled(w, StoreLands(p)) && w.session.Some?
    ensures var w := Run(Apply(u, Read(p)), middle); w.session.value != PcOf(w, p).read <==> SomeLands(middle)
  {
    var v := Apply(u, Read(p));
    StepKeepsInv(u, Read(p), origin);
    StepKeepsUnlanded(u, Read(p), origin);
    RunKeepsInv(v, middle, origin);
    ReadGoesTo(u, p);
    if PcOf(v, p).Ended? {
      RunStaysPast(v, middle, p);
    } else {
      ReadsOnce(v, middle, p);
      StepReplaces(u, Read(p));
      RunTracks(v, middle, origin, v.lastRead[p], false);
    }
  }

  lemma {:induction false} RunInvariants(c: Cipher, origin: Record, now: int, steps: seq<Step>)
    requires Possible(Created(c, origin, now), steps)
    ensures Inv(Run(Created(c, origin, now), steps), origin) && UnlandedInv(Run(Created(c, origin, now), steps))
  {
    RunKeepsInv(Created(c, origin, now), steps, origin);
    RunKeepsUnlanded(Created(c, origin, now), steps, origin);
  }

  /** In every run, a store that lands on a session replaces another one than its request read
      exactly when some store has landed since that read. */
  lemma {:induction false} ReplacesAnotherExactly(
      c: Cipher, origin: Record, now: int, before: seq<Step>, middle: seq<Step>, p: Pid)
    requires Possible(Created(c, origin, now), before + [Read(p)] + middle)
    requires var w := Run(Created(c, origin, now), before + [Read(p)] + middle);
      Enabled(w, StoreLands(p)) && w.session.Some?
    ensures var w := Run(Created(c, origin, now), before + [Read(p)] + middle);
      w.session.value != PcOf(w, p).read <==> SomeLands(middle)
  {
    RunSplits(Created(c, origin, now), before, Read(p), middle);
    RunInvariants(c, origin, now, before);
    ReplacedSinceRead(Run(Created(c, origin, now), before), middle, origin, p);
  }

  // ---- with timely replies: nothing but an abandoned store lands beside an owner ----

  /** On the way to the store, under the lock. */
  predicate Working(pc: Pc) {
    pc.Acquired? || pc.Owner? || pc.Storing?
  }

  /** No longer on the way there, nor ever again. */
  predicate Past(pc: Pc) {
    !Working(pc) && !pc.Idle? && !pc.NeedsRefresh? && !pc.Tasked?
  }

  lemma {:induction false} MoverGoesOn(w: World, step: Step)
    requires Enabled(w, step) && !Ambient(step)
    ensures Past(PcOf(w, step.p)) ==> Past(PcOf(Apply(w, step), step.p))
    ensures Working(PcOf(w, step.p)) ==> Working(PcOf(Apply(w, step), step.p)) || Past(PcOf(Apply(w, step), step.p))
    ensures step.StoreLands? ==> Past(PcOf(Apply(w, step), step.p))
  {
  }

  lemma {:induction false} StepGoesOn(w: World, step: Step, p: Pid)
    requires Enabled(w, step)
    ensures Past(PcOf(w, p)) ==> Past(PcOf(Apply(w, step), p))
    ensures Working(PcOf(w, p)) ==> Working(PcOf(Apply(w, step), p)) || Past(PcOf(Apply(w, step), p))
    ensures step.StoreLands? && step.p == p ==> Past(PcOf(Apply(w, step), p))
  {
    if ActsOn(step, p) {
      MoverGoesOn(w, step);
    } else {
      OthersRest(w, step, p);
    }
  }

  lemma {:induction false} RunStaysPast(w: World, steps: seq<Step>, p: Pid)
    requires Past(PcOf(w, p)) && Possible(w, steps)
    ensures Past(PcOf(Run(w, steps), p))
    decreases |steps|
  {
    if steps != [] {
      StepGoesOn(w, steps[0], p);
      RunStaysPast(Apply(w, steps[0]), steps[1..], p);
    }
  }

  lemma {:induction false} OnScheduleAlone(w: World, p: Pid, q: Pid)
    requires OwnersInv(w) && TimelyInv(w) && InSection(PcOf(w, p)) && InSection(PcOf(w, q))
    ensures p == q
  {
    assert SectionInv(w, w.procs[p]) && SectionInv(w, w.procs[q]);
    assert OnSchedule(w.procs[p]) && OnSchedule(w.procs[q]);
  }

  lemma {:induction false} StepKeepsTimely(w: World, step: Step)
    requires TimelyInv(w) && Enabled(w, step) && InTime(Apply(w, step))
    ensures TimelyInv(Apply(w, step))
  {
    forall p | p in Apply(w, step).procs
      ensures OnSchedule(Apply(w, step).procs[p])
    {
      StepKeepsSchedule(w, step, p);
    }
  }

  lemma {:induction false} OnlyOrphansLandBesideOwner(w: World, steps: seq<Step>, p: Pid)
    requires OwnersInv(w) && TimelyInv(w) && Possible(w, steps) && Timely(w, steps)
    requires Working(PcOf(w, p)) && Working(PcOf(Run(w, steps), p))
    ensures forall i :: 0 <= i < |steps| && Lands(steps[i]) ==> steps[i].OrphanLands?
    decreases |steps|
  {
    if steps != [] {
      var step := steps[0];
      StepGoesOn(w, step, p);
      if Past(PcOf(Apply(w, step), p)) {
        RunStaysPast(Apply(w, step), steps[1..], p);
      }
      if step.StoreLands? {
        OnScheduleAlone(w, p, step.p);
      }
      StepKeepsOwners(w, step);
      StepKeepsTimely(w, step);
      OnlyOrphansLandBesideOwner(Apply(w, step), steps[1..], p);
      assert forall i :: 1 <= i < |steps| ==> steps[i] == steps[1..][i - 1];
    }
  }

  lemma {:induction false} KeptSinceLock(u: World, middle: seq<Step>, origin: Record, p: Pid, token: Token)
    requires Inv(u, origin) && UnlandedInv(u) && OwnersInv(u) && TimelyInv(u) && Enabled(u, TryLock(p, token))
    requires InTime(Apply(u, TryLock(p, token))) && Possible(Apply(u, TryLock(p, token)), middle)
    requires Timely(Apply(u, TryLock(p, token)), middle)
    requires forall i :: 0 <= i < |middle| ==> !middle[i].OrphanLands?
    requires Enabled(Run(Apply(u, TryLock(p, token)), middle), StoreLands(p))
    ensures Run(Apply(u, TryLock(p, token)), middle).session in {u.session, None}
  {
    var step := TryLock(p, token);
    var v := Apply(u, step);
    StepKeepsOwners(u, step);
    StepKeepsTimely(u, step);
    StepKeepsInv(u, step, origin);
    StepKeepsUnlanded(u, step, origin);
    TryLockDecides(u, p, token);
    if Past(PcOf(v, p)) {
      RunStaysPast(v, middle, p);
    }
    OnlyOrphansLandBesideOwner(v, middle, p);
    SessionOnlyVanishes(v, middle, origin);
  }

  /** With timely replies, and unless an abandoned store lands meanwhile, a store that lands on a
      session replaces another one than its request read exactly when that was already so when
      the request got the lock: a second look there, which it does not take, would have shown it. */
  lemma {:induction false} SecondLookWouldShow(
      c: Cipher, origin: Record, now: int, before: seq<Step>, middle: seq<Step>, p: Pid, token: Token)
    requires Possible(Created(c, origin, now), before + [TryLock(p, token)] + middle)
    requires Timely(Created(c, origin, now), before + [TryLock(p, token)] + middle)
    requires forall i :: 0 <= i < |middle| ==> !middle[i].OrphanLands?
    requires var w := Run(Created(c, origin, now), before + [TryLock(p, token)] + middle);
      Enabled(w, StoreLands(p)) && w.session.Some?
    ensures Possible(Created(c, origin, now), before)
    ensures var w := Run(Created(c, origin, now), before + [TryLock(p, token)] + middle);
      w.session.value != PcOf(w, p).read <==> Run(Created(c, origin, now), before).session != Some(PcOf(w, p).read)
  {
    var w0 := Created(c, origin, now);
    RunSplits(w0, before, TryLock(p, token), middle);
    RunKeepsOwners(w0, before);
    RunKeepsSchedule(w0, before);
    RunInvariants(c, origin, now, before);
    KeptSinceLock(Run(w0, before), middle, origin, p, token);
  }

  lemma {:induction false} TryLockDecides(w: World, p: Pid, token: Token)
    requires Enabled(w, TryLock(p, token))
    ensures var v := Apply(w, TryLock(p, token));
      (Working(PcOf(v, p)) || Past(PcOf(v, p))) && v.session == w.session
  {
  }

  lemma {:induction false} SessionOnlyVanishes(w: World, steps: seq<Step>, origin: Record)
    requires Inv(w, origin) && UnlandedInv(w) && Possible(w, steps)
    requires forall i :: 0 <= i < |steps| ==> !Lands(steps[i])
    ensures Run(w, steps).session in {w.session, None}
    decreases |steps|
  {
    if steps != [] {
      StepKeepsInv(w, steps[0], origin);
      StepKeepsUnlanded(w, steps[0], origin);
      assert !Lands(steps[0]);
      StepReplaces(w, steps[0]);
      assert forall i :: 0 <= i < |steps| - 1 ==> steps[1..][i] == steps[i + 1];
      SessionOnlyVanishes(Apply(w, steps[0]), steps[1..], origin);
    }
  }

  // ---- a newer session replaced, in time ----

  /** From the lock to the store on its way, without delay. */
  lemma {:induction false} GoesToStore(w: World, p: Pid, token: Token, made: Cipher, claims: Record)
    returns (steps: seq<Step>)
    requires PcOf(w, p).Tasked? && !LockHeld(w) && token !in w.tokens && made !in w.records
    requires PcOf(w, p).read in w.records && claims.Keys == CLAIM_FIELDS
    requires Continuous(w.records[PcOf(w, p).read], claims)
    ensures Possible(w, steps) && NoTicks(steps)
    ensures Run(w, steps) == w.(
      tokens := w.tokens + {token}, lock := Some(Lock(token, w.now + LOCK_TTL_MS)),
      records := w.records[made := Updated(w.records[PcOf(w, p).read], claims, None)],
      procs := w.procs[p := Storing(PcOf(w, p).read, token, w.now, w.now, made)])
  {
    var w1 := Apply(w, TryLock(p, token));
    var w2 := Apply(w1, Start(p));
    var store := Store(p, made, claims, None);
    RunCons(w2, store, []);
    RunCons(w1, Start(p), [store] + []);
    RunCons(w, TryLock(p, token), [Start(p)] + ([store] + []));
    steps := [TryLock(p, token)] + ([Start(p)] + ([store] + []));
  }

  /** The store lands, is acknowledged, and the lock is released. */
  lemma {:induction false} StoresAndReleases(w: World, p: Pid) returns (steps: seq<Step>)
    requires PcOf(w, p).Storing? && LockHeld(w) && w.lock.value.token == PcOf(w, p).token
    ensures Possible(w, steps) && NoTicks(steps)
    ensures var made := PcOf(w, p).made;
      Run(w, steps) == w.(session := Some(made), stored := w.stored + {made}, lock := None,
                          outcomes := w.outcomes[p := Some(made)], procs := w.procs[p := Authenticated(made)])
  {
    var w1 := Apply(w, StoreLands(p));
    var w2 := Apply(w1, StoreAcknowledged(p));
    RunCons(w2, ReleaseLands(p), []);
    RunCons(w1, StoreAcknowledged(p), [ReleaseLands(p)] + []);
    RunCons(w, StoreLands(p), [StoreAcknowledged(p)] + ([ReleaseLands(p)] + []));
    steps := [StoreLands(p)] + ([StoreAcknowledged(p)] + ([ReleaseLands(p)] + []));
  }

  predicate NoTicks(steps: seq<Step>) {
    forall i :: 0 <= i < |steps| ==> !steps[i].Tick?
  }

  lemma {:induction false} StaysInTime(w: World, step: Step)
    requires InTime(w) && Enabled(w, step) && !step.Tick?
    ensures InTime(Apply(w, step))
  {
    forall p | p in Apply(w, step).procs
      ensures Deadline(PcOf(Apply(w, step), p)).Some? ==> Apply(w, step).now <= Deadline(PcOf(Apply(w, step), p)).value
    {
      StepMovesInSection(w, step, p);
      assert Deadline(PcOf(w, p)).Some? ==> w.now <= Deadline(PcOf(w, p)).value;
      StepKeepsClock(w, step);
    }
  }

  lemma {:induction false} StepKeepsClock(w: World, step: Step)
    requires Enabled(w, step) && !step.Tick?
    ensures Apply(w, step).now == w.now
  {
  }

  lemma {:induction false} NoTicksIsTimely(w: World, steps: seq<Step>)
    requires InTime(w) && Possible(w, steps) && NoTicks(steps)
    ensures Timely(w, steps)
    decreases |steps|
  {
    if steps != [] {
      StaysInTime(w, steps[0]);
      NoTicksIsTimely(Apply(w, steps[0]), steps[1..]);
    }
  }

  lemma {:induction false} RunAppends(w: World, a: seq<Step>, b: seq<Step>)
    requires Possible(w, a) && Possible(Run(w, a), b)
    ensures Possible(w, a + b) && Run(w, a + b) == Run(Run(w, a), b)
    decreases |a|
  {
    if a == [] {
      assert a + b == b;
    } else {
      RunAppends(Apply(w, a[0]), a[1..], b);
      assert (a + b)[1..] == a[1..] + b;
    }
  }

  /** Two requests of different processes that both found the session stale. */
  function BothTasked(c: Cipher, origin: Record, p: Pid, q: Pid): World {
    Created(c, origin, 0).(
      lastRead := map[p := c, q := c], tasks := map[p.worker := p, q.worker := q],
      procs := map[p := Tasked(c), q := Tasked(c)])
  }

  lemma {:induction false} BothReachTask(c: Cipher, origin: Record, p: Pid, q: Pid) returns (steps: seq<Step>)
    requires !Fresh(origin, 0) && p.worker != q.worker
    ensures Possible(Created(c, origin, 0), steps) && NoTicks(steps)
    ensures Run(Created(c, origin, 0), steps) == BothTasked(c, origin, p, q)
  {
    var w0 := Created(c, origin, 0);
    ReachesTask(w0, p);
    var w1 := Apply(Apply(w0, Read(p)), StartTask(p));
    ReachesTask(w1, q);
    RunCons(Apply(w1, Read(q)), StartTask(q), []);
    steps := [StartTask(q)] + [];
    RunCons(w1, Read(q), steps);
    steps := [Read(q)] + steps;
    RunCons(Apply(w0, Read(p)), StartTask(p), steps);
    steps := [StartTask(p)] + steps;
    RunCons(w0, Read(p), steps);
    steps := [Read(p)] + steps;
    assert Run(w0, steps) == BothTasked(c, origin, p, q);
  }

  lemma {:induction false} OtherStores(c: Cipher, origin: Record, claims: Record, p: Pid, q: Pid)
    returns (steps: seq<Step>)
    requires claims.Keys == CLAIM_FIELDS && Continuous(origin, claims) && p != q
    ensures Possible(BothTasked(c, origin, p, q), steps) && NoTicks(steps)
    ensures var w := Run(BothTasked(c, origin, p, q), steps);
      && PcOf(w, p) == Tasked(c) && w.session == Some(c + 1) && w.lock == None && w.tokens == {1} && w.now == 0
      && w.records == map[c := origin, c + 1 := Updated(origin, claims, None)]
  {
    var w2 := BothTasked(c, origin, p, q);
    var toStore := GoesToStore(w2, q, 1, c + 1, claims);
    var release := StoresAndReleases(Run(w2, toStore), q);
    RunAppends(w2, toStore, release);
    steps := toStore + release;
  }

  lemma {:induction false} OneAfterTheOther(c: Cipher, origin: Record, claims: Record, p: Pid, q: Pid)
    returns (steps: seq<Step>)
    requires claims.Keys == CLAIM_FIELDS && Continuous(origin, claims) && p != q
    requires Fresh(Updated(origin, claims, None), 0)
    ensures Possible(BothTasked(c, origin, p, q), steps) && NoTicks(steps)
    ensures var w := Run(BothTasked(c, origin, p, q), steps);
      Enabled(w, StoreLands(p)) && SessionFresh(w) && PcOf(w, p).read == c && w.session == Some(c + 1)
  {
    var first := OtherStores(c, origin, claims, p, q);
    var again := GoesToStore(Run(BothTasked(c, origin, p, q), first), p, 2, c + 2, claims);
    RunAppends(BothTasked(c, origin, p, q), first, again);
    steps := first + again;
  }

  /** A request that read the old session can get the lock after another owner has stored and
      released, and then store over the newer, fresh session what it made from the old one;
      nobody is late. */
  lemma {:induction false} NewerSessionIsReplaced(c: Cipher, origin: Record, claims: Record) returns (steps: seq<Step>)
    requires !Fresh(origin, 0) && claims.Keys == CLAIM_FIELDS && Continuous(origin, claims)
    requires Fresh(Updated(origin, claims, None), 0)
    ensures Possible(Created(c, origin, 0), steps) && Timely(Created(c, origin, 0), steps)
    ensures var w := Run(Created(c, origin, 0), steps);
      && Enabled(w, StoreLands(Pid(1, 0))) && SessionFresh(w)
      && PcOf(w, Pid(1, 0)).read == c && w.session == Some(c + 1)
  {
    var p, q := Pid(1, 0), Pid(2, 0);
    var first := BothReachTask(c, origin, p, q);
    var rest := OneAfterTheOther(c, origin, claims, p, q);
    RunAppends(Created(c, origin, 0), first, rest);
    steps := first + rest;
    NoTicksIsTimely(Created(c, origin, 0), steps);
  }
}
