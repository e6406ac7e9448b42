/** Who a stored session lets in: the clock against the record's own expiry, and what a
    refresh writes into the record. */
module SessionAdmission {
  import opened Options
  import opened SessionRefresh
  import opened SessionReplacement

  /** A record is good for another minute, in the clock's milliseconds. */
  predicate GoodForAMinute(r: Record, now: int) {
    Exp in r && r[Exp].Number? && now < 1000 * (r[Exp].number - 60)
  }

  lemma {:induction false} FreshIsGood(r: Record, now: int)
    requires now >= 0
    ensures Fresh(r, now) <==> GoodForAMinute(r, now)
  {
  }

  lemma {:induction false} RunKeepsClock(w: World, steps: seq<Step>)
    requires Possible(w, steps)
    ensures w.now <= Run(w, steps).now
    decreases |steps|
  {
    if steps != [] {
      StepGrows(w, steps[0]);
      RunKeepsClock(Apply(w, steps[0]), steps[1..]);
    }
  }

  /** The stored session is this one, and its record is good for another minute. */
  ghost predicate Offers(w: World, x: Cipher) {
    w.session == Some(x) && x in w.records && GoodForAMinute(w.records[x], w.now)
  }

  /** Where a request goes that looks at a session which is not good enough. */
  function TurnedAway(w: World, step: Step): Pc
    requires Looks(step)
  {
    match step
    case Read(p) => if w.session.Some? then NeedsRefresh(w.session.value) else Ended
    case RereadAfterFailure(p) => if PcOf(w, p).Failed? then Deleting(PcOf(w, p).read) else Ended
    case _ => Ended
  }

  lemma {:induction false} LookDecides(w: World, origin: Record, step: Step)
    requires Inv(w, origin) && w.now >= 0 && Enabled(w, step) && Looks(step)
    ensures forall x :: PcOf(Apply(w, step), step.p) == Authenticated(x) <==> Offers(w, x)
    ensures (forall x :: !Offers(w, x)) ==> PcOf(Apply(w, step), step.p) == TurnedAway(w, step)
  {
    if w.session.Some? {
      FreshIsGood(w.records[w.session.value], w.now);
      assert !Fresh(w.records[w.session.value], w.now) ==> !Offers(w, w.session.value);
    }
    assert SessionFresh(w) ==> Offers(w, w.session.value);
  }

  /** In every run from a real moment on, a request that looks at the session is let in exactly
      when the stored record's own expiry is more than a minute away; otherwise a first look
      leads to a refresh, and a last one to a refusal. */
  lemma {:induction false} LetInByExpiryExactly(
      c: Cipher, origin: Record, now: nat, steps: seq<Step>, step: Step, x: Cipher)
    requires Possible(Created(c, origin, now), steps)
    requires Enabled(Run(Created(c, origin, now), steps), step) && Looks(step)
    ensures var w := Run(Created(c, origin, now), steps);
      && (PcOf(Apply(w, step), step.p) == Authenticated(x) <==> Offers(w, x))
      && ((forall y :: !Offers(w, y)) ==> PcOf(Apply(w, step), step.p) == TurnedAway(w, step))
  {
    RunKeepsInv(Created(c, origin, now), steps, origin);
    RunKeepsClock(Created(c, origin, now), steps);
    LookDecides(Run(Created(c, origin, now), steps), origin, step);
  }

  /** A stored refresh carries every new claim and a rotated refresh token if one came; the
      rest of the record, the CSRF token and an unrotated token among it, is as it was. */
  lemma {:induction false} RefreshedRecordIsExact(
      w: World, p: Pid, made: Cipher, claims: Record, rotated: Option<string>, f: Field)
    requires Enabled(w, Store(p, made, claims, rotated))
    ensures var v := Apply(w, Store(p, made, claims, rotated));
      && made in v.records && PcOf(v, p).Storing? && PcOf(v, p).made == made
      && Lookup(v.records[made], f) ==
           (if f == RefreshToken && rotated.Some? then Some(Text(rotated.value))
            else if f in {Sub, Email, PreferredUsername, Groups, Iss, Aud, Iat, Exp, Raw} then Some(claims[f])
            else Lookup(w.records[PcOf(w, p).read], f))
  {
  }

  // ---- how requests end ----

  /** A refresh that fails ends a stale session: the owner gives up, releases, looks again and
      deletes what it read. */
  lemma {:induction false} FailureCanEndSession(c: Cipher, origin: Record, p: Pid) returns (steps: seq<Step>)
    requires !Fresh(origin, 0)
    ensures Possible(Created(c, origin, 0), steps)
    ensures var w := Run(Created(c, origin, 0), steps); w.session == None && w.lock == None && PcOf(w, p) == Ended
  {
    var w0 := Created(c, origin, 0);
    ReachesTask(w0, p);
    var w1 := Apply(w0, Read(p));
    var w2 := Apply(w1, StartTask(p));
    steps := OwnerFails(w2, p, 1);
    RunCons(w1, StartTask(p), steps);
    steps := [StartTask(p)] + steps;
    RunCons(w0, Read(p), steps);
    steps := [Read(p)] + steps;
  }

  lemma {:induction false} OwnerFails(w: World, p: Pid, token: Token) returns (steps: seq<Step>)
    requires PcOf(w, p).Tasked? && w.lock == None && token !in w.tokens
    requires w.session == Some(PcOf(w, p).read) && !SessionFresh(w)
    ensures Possible(w, steps)
    ensures Run(w, steps).session == None && Run(w, steps).lock == None && PcOf(Run(w, steps), p) == Ended
  {
    var w1 := Apply(w, TryLock(p, token));
    var w2 := Apply(w1, Start(p));
    var w3 := Apply(w2, GiveUp(p));
    steps := ReleaseAndDelete(w3, p);
    RunCons(w2, GiveUp(p), steps);
    steps := [GiveUp(p)] + steps;
    RunCons(w1, Start(p), steps);
    steps := [Start(p)] + steps;
    RunCons(w, TryLock(p, token), steps);
    steps := [TryLock(p, token)] + steps;
  }

  lemma {:induction false} ReleaseAndDelete(w: World, p: Pid) returns (steps: seq<Step>)
    requires PcOf(w, p).Releasing? && PcOf(w, p).outcome == None
    requires LockHeld(w) && w.lock.value.token == PcOf(w, p).token
    requires w.session == Some(PcOf(w, p).read) && !SessionFresh(w)
    ensures Possible(w, steps)
    ensures Run(w, steps).session == None && Run(w, steps).lock == None && PcOf(Run(w, steps), p) == Ended
  {
    var w1 := Apply(w, ReleaseLands(p));
    var w2 := Apply(w1, RereadAfterFailure(p));
    RunCons(w2, DeleteIfUnchanged(p), []);
    RunCons(w1, RereadAfterFailure(p), [DeleteIfUnchanged(p)] + []);
    RunCons(w, ReleaseLands(p), [RereadAfterFailure(p)] + ([DeleteIfUnchanged(p)] + []));
    steps := [ReleaseLands(p)] + ([RereadAfterFailure(p)] + ([DeleteIfUnchanged(p)] + []));
  }

  /** Two requests of one process share one refresh: both are let in on what it stored. */
  lemma {:induction false} WaiterCanShare(c: Cipher, origin: Record, claims: Record, p: Pid, q: Pid)
    returns (steps: seq<Step>)
   
    requires !Fresh(origin, 0) && claims.Keys == CLAIM_FIELDS && Continuous(origin, claims)
    requires p != q && p.worker == q.worker
    ensures Possible(Created(c, origin, 0), steps)
    ensures var w := Run(Created(c, origin, 0), steps);
      && PcOf(w, p) == PcOf(w, q) == Authenticated(c + 1) && w.session == Some(c + 1)
      && w.records == map[c := origin, c + 1 := Updated(origin, claims, None)]
  {
    var w0 := Created(c, origin, 0);
    ReachesTask(w0, p);
    var w1 := Apply(w0, Read(p));
    var w2 := Apply(w1, StartTask(p));
    var w3 := Apply(w2, Read(q));
    var w4 := Apply(w3, Join(q));
    steps := TaskServesBoth(w4, c, claims, p, q);
    RunCons(w3, Join(q), steps);
    steps := [Join(q)] + steps;
    RunCons(w2, Read(q), steps);
    steps := [Read(q)] + steps;
    RunCons(w1, StartTask(p), steps);
    steps := [StartTask(p)] + steps;
    RunCons(w0, Read(p), steps);
    steps := [Read(p)] + steps;
  }

  lemma {:induction false} TaskServesBoth(w: World, c: Cipher, claims: Record, p: Pid, q: Pid)
    returns (steps: seq<Step>)
    requires PcOf(w, p) == Tasked(c) && PcOf(w, q) == Joined(c, p) && p != q && w.lock == None && w.tokens == {}
    requires w.records.Keys == {c} && claims.Keys == CLAIM_FIELDS && Continuous(w.records[c], claims)
    ensures Possible(w, steps)
    ensures var v := Run(w, steps);
      && PcOf(v, p) == PcOf(v, q) == Authenticated(c + 1) && v.session == Some(c + 1)
      && v.records == w.records[c + 1 := Updated(w.records[c], claims, None)]
  {
    var toStore := GoesToStore(w, p, 1, c + 1, claims);
    var rest := StoredServesBoth(Run(w, toStore), c + 1, p, q);
    RunAppends(w, toStore, rest);
    steps := toStore + rest;
  }

  lemma {:induction false} StoredServesBoth(w: World, made: Cipher, p: Pid, q: Pid) returns (steps: seq<Step>)
    requires PcOf(w, p).Storing? && PcOf(w, p).made == made && PcOf(w, q).Joined? && PcOf(w, q).task == p && p != q
    requires LockHeld(w) && w.lock.value.token == PcOf(w, p).token
    ensures Possible(w, steps)
    ensures var v := Run(w, steps);
      PcOf(v, p) == PcOf(v, q) == Authenticated(made) && v.session == Some(made) && v.records == w.records
  {
    var release := StoresAndReleases(w, p);
    RunCons(Run(w, release), SharedOutcome(q), []);
    RunAppends(w, release, [SharedOutcome(q)] + []);
    steps := release + ([SharedOutcome(q)] + []);
  }
}
