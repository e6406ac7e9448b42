/** Refreshing one browser session from many processes at once, over a shared store
    that holds the encrypted record and an expiring lock. */
module SessionRefresh {
  import opened Options

  // ---- records ----

  datatype Value = Text(text: string) | Number(number: int)

  datatype Field = Sub | Email | PreferredUsername | Groups | Iss | Aud | Iat | Exp | Raw | RefreshToken | Csrf

  /** A decrypted session record: the claims, the refresh token and the CSRF token. */
  type Record = map<Field, Value>

  const CLAIM_FIELDS: set<Field> := {Sub, Email, PreferredUsername, Groups, Iss, Aud, Iat, Exp, Raw}

  predicate HasText(r: Record, f: Field) {
    f in r && r[f].Text?
  }

  function Lookup(r: Record, f: Field): Option<Value> {
    if f in r then Some(r[f]) else None
  }

  /** Identity continuity of a refreshed token (section 12.2 of OpenID Connect Core 1.0). */
  predicate Continuous(expected: Record, actual: Record) {
    && HasText(expected, Sub) && HasText(expected, Iss)
    && Lookup(actual, Sub) == Lookup(expected, Sub)
    && Lookup(actual, Iss) == Lookup(expected, Iss)
  }

  /** The record after a refresh: the new claims laid over it, and a rotated token if one came. */
  function Updated(record: Record, claims: Record, rotated: Option<string>): Record {
    var merged := record + claims;
    if rotated.Some? then merged[RefreshToken := Text(rotated.value)] else merged
  }

  /** More than a minute of validity left, at a clock in milliseconds. */
  predicate Fresh(record: Record, now: int) {
    (if Exp in record && record[Exp].Number? then record[Exp].number else 0) > now / 1000 + 60
  }

  predicate SameIdentity(a: Record, b: Record) {
    Lookup(a, Sub) == Lookup(b, Sub) && Lookup(a, Iss) == Lookup(b, Iss) && Lookup(a, Csrf) == Lookup(b, Csrf)
  }

  lemma {:induction false} UpdateKeepsIdentity(record: Record, claims: Record, rotated: Option<string>)
    requires claims.Keys == CLAIM_FIELDS
    ensures SameIdentity(Updated(record, claims, rotated), record) && HasText(record, Sub) && HasText(record, Iss)
       <==> Continuous(record, claims)
  {
  }

  // ---- the protocol ----

  const OWNER_MS := 10000
  const LOCK_TTL_MS := 15000
  const REPLY_MS := 2000

  /** A request, in the process that serves it. */
  datatype Pid = Pid(worker: nat, number: nat)
  type Token = nat
  /** A ciphertext; encrypting twice never gives the same one. */
  type Cipher = nat

  datatype Lock = Lock(token: Token, expiresAt: int)

  datatype Pc =
    | Idle
    | NeedsRefresh(read: Cipher)
    | Joined(read: Cipher, task: Pid)                              // waiting for its process's task
    | Tasked(read: Cipher)                                         // its own task is registered
    | Acquired(read: Cipher, token: Token, at: int)                // SET NX executed, reply on its way
    | Owner(read: Cipher, token: Token, at: int, started: int)     // talking to the provider
    | Storing(read: Cipher, token: Token, at: int, started: int, made: Cipher)
    | Landed(read: Cipher, token: Token, at: int, started: int, made: Cipher)
    | Releasing(read: Cipher, token: Token, at: int, sent: int, outcome: Option<Cipher>)
    | Waiting(read: Cipher)
    | Failed(read: Cipher)
    | Deleting(read: Cipher)
    | Rereading(read: Cipher)
    | Authenticated(cipher: Cipher)
    | Ended                                                        // 401, 503 or a crash

  datatype World = World(
    now: int,
    session: Option<Cipher>,
    lock: Option<Lock>,
    procs: map<Pid, Pc>,
    records: map<Cipher, Record>,   // what every ciphertext ever produced decrypts to
    stored: set<Cipher>,            // every ciphertext that has been the stored session
    tokens: set<Token>,             // lock tokens drawn so far
    orphans: set<Cipher>,           // stores sent and then abandoned by their owner
    late: set<Token>,               // releases sent and then abandoned
    tasks: map<nat, Pid>,           // each process's registered refresh task
    outcomes: map<Pid, Option<Cipher>>,  // what each finished task returned
    lastRead: map<Pid, Cipher>)     // the ciphertext each request read first

  datatype Step =
    | Tick(ms: nat)
    | SessionVanishes
    | OrphanLands(made: Cipher)
    | Read(p: Pid)
    | LateReleaseLands(token: Token)
    | StartTask(p: Pid)
    | Join(p: Pid)
    | SharedOutcome(p: Pid)
    | ForgetTask(worker: nat)
    | TryLock(p: Pid, token: Token)
    | Start(p: Pid)
    | GiveUp(p: Pid)
    | Store(p: Pid, made: Cipher, claims: Record, rotated: Option<string>)
    | StoreLands(p: Pid)
    | StoreAcknowledged(p: Pid)
    | StoreTimesOut(p: Pid)
    | ReleaseLands(p: Pid)
    | ReleaseFails(p: Pid)
    | Poll(p: Pid)
    | RereadAfterFailure(p: Pid)
    | DeleteIfUnchanged(p: Pid)
    | RereadAfterChange(p: Pid)
    | Stop(p: Pid)

  /** A session as its callback created it. */
  function Created(c: Cipher, record: Record, now: int): World {
    World(now, Some(c), None, map[], map[c := record], {c}, {}, {}, {}, map[], map[], map[])
  }

  function PcOf(w: World, p: Pid): Pc {
    if p in w.procs then w.procs[p] else Idle
  }

  predicate Live(lock: Option<Lock>, now: int) {
    lock.Some? && now < lock.value.expiresAt
  }

  predicate LockHeld(w: World) {
    Live(w.lock, w.now)
  }

  /** Set the lock if there is none; the answer says whether it was set. */
  function TakeLock(lock: Option<Lock>, token: Token, now: int): (Option<Lock>, bool) {
    if Live(lock, now) then (lock, false) else (Some(Lock(token, now + LOCK_TTL_MS)), true)
  }

  /** Delete the lock if it still holds this token. */
  function DropLock(lock: Option<Lock>, token: Token, now: int): Option<Lock> {
    if Live(lock, now) && lock.value.token == token then None else lock
  }

  /** Delete the session if it is still this ciphertext; the answer says whether it was. */
  function DropSession(session: Option<Cipher>, expected: Cipher): (Option<Cipher>, bool) {
    if session == Some(expected) then (None, true) else (session, false)
  }

  /** The shared store's two entries for a session, and the three conditional writes on them. */
  class SharedEntries {
    var session: Option<Cipher>
    var lock: Option<Lock>

    constructor (c: Cipher)
      ensures session == Some(c) && lock == None
    {
      session, lock := Some(c), None;
    }

    method SetLockIfAbsent(token: Token, now: int) returns (taken: bool)
      modifies this`lock
      ensures (lock, taken) == TakeLock(old(lock), token, now)
      ensures taken <==> old(lock) == None || old(lock).value.expiresAt <= now
      ensures lock == if taken then Some(Lock(token, now + 15000)) else old(lock)
    {
      if lock.Some? && now < lock.value.expiresAt {
        return false;
      }
      lock := Some(Lock(token, now + LOCK_TTL_MS));
      return true;
    }

    method StoreSession(c: Cipher)
      modifies this`session
      ensures session == Some(c)
    {
      session := Some(c);
    }

    /** Logout, or the end of the session's lifetime. */
    method RemoveSession()
      modifies this`session
      ensures session == None
    {
      session := None;
    }

    method ReleaseRefreshLock(token: Token, now: int)
      modifies this`lock
      ensures lock == DropLock(old(lock), token, now)
      ensures lock != old(lock) <==>
        old(lock).Some? && old(lock).value.token == token && now < old(lock).value.expiresAt
      ensures lock == old(lock) || lock == None
    {
      if lock.Some? && now < lock.value.expiresAt && lock.value.token == token {
        lock := None;
      }
    }

    method DeleteSessionIfUnchanged(expected: Cipher) returns (deleted: bool)
      modifies this`session
      ensures (session, deleted) == DropSession(old(session), expected)
      ensures deleted <==> old(session) == Some(expected)
      ensures session == if deleted then None else old(session)
    {
      if session == Some(expected) {
        session := None;
        return true;
      }
      return false;
    }
  }

  predicate InSection(pc: Pc) {
    pc.Acquired? || pc.Owner? || pc.Storing? || pc.Landed? || pc.Releasing?
  }

  predicate InTask(pc: Pc) {
    pc.Tasked? || InSection(pc) || pc.Waiting?
  }

  predicate SessionFresh(w: World) {
    w.session.Some? && w.session.value in w.records && Fresh(w.records[w.session.value], w.now)
  }

  predicate Enabled(w: World, step: Step) {
    match step
    case Tick(_) => true
    case SessionVanishes => true
    case OrphanLands(c) => c in w.orphans
    case Read(p) => PcOf(w, p).Idle?
    case LateReleaseLands(token) => token in w.late
    case StartTask(p) => PcOf(w, p).NeedsRefresh? && p.worker !in w.tasks
    case Join(p) => PcOf(w, p).NeedsRefresh? && p.worker in w.tasks
    case SharedOutcome(p) => PcOf(w, p).Joined? && PcOf(w, p).task in w.outcomes
    case ForgetTask(k) => k in w.tasks && !InTask(PcOf(w, w.tasks[k]))
    case TryLock(p, token) => PcOf(w, p).Tasked? && token !in w.tokens
    case Start(p) => PcOf(w, p).Acquired?
    case GiveUp(p) => PcOf(w, p).Owner?
    case Store(p, made, claims, _) =>
      && PcOf(w, p).Owner? && made !in w.records && PcOf(w, p).read in w.records
      && claims.Keys == CLAIM_FIELDS && Continuous(w.records[PcOf(w, p).read], claims)
    case StoreLands(p) => PcOf(w, p).Storing?
    case StoreAcknowledged(p) => PcOf(w, p).Landed?
    case StoreTimesOut(p) => PcOf(w, p).Storing? || PcOf(w, p).Landed?
    case ReleaseLands(p) => PcOf(w, p).Releasing?
    case ReleaseFails(p) => PcOf(w, p).Releasing?
    case Poll(p) => PcOf(w, p).Waiting?
    case RereadAfterFailure(p) => PcOf(w, p).Failed?
    case DeleteIfUnchanged(p) => PcOf(w, p).Deleting?
    case RereadAfterChange(p) => PcOf(w, p).Rereading?
    case Stop(p) => true
  }

  function Goto(w: World, p: Pid, pc: Pc): World {
    w.(procs := w.procs[p := pc])
  }

  /** Consume the stored session if it is fresh, else go on to `otherwise`. */
  function UseOr(w: World, p: Pid, otherwise: Pc): World {
    Goto(w, p, if SessionFresh(w) then Authenticated(w.session.value) else otherwise)
  }

  /** What a request does with what its refresh returned. */
  function After(outcome: Option<Cipher>, read: Cipher): Pc {
    if outcome.Some? then Authenticated(outcome.value) else Failed(read)
  }

  /** The task is over, and its process's waiters get the same outcome. */
  function FinishTask(w: World, p: Pid, outcome: Option<Cipher>, read: Cipher): World {
    Goto(w.(outcomes := w.outcomes[p := outcome]), p, After(outcome, read))
  }

  /** The request or its process dies; what it has sent may still arrive. */
  function Abandon(w: World, p: Pid, pc: Pc): World {
    Goto(w.(orphans := if pc.Storing? then w.orphans + {pc.made} else w.orphans,
            late := if pc.Releasing? then w.late + {pc.token} else w.late), p, Ended)
  }

  function Apply(w: World, step: Step): World
    requires Enabled(w, step)
  {
    match step
    case Tick(ms) => w.(now := w.now + ms)
    case SessionVanishes => w.(session := None)
    case OrphanLands(c) => w.(session := Some(c), stored := w.stored + {c}, orphans := w.orphans - {c})
    case Read(p) =>
      if w.session.None? || w.session.value !in w.records then Goto(w, p, Ended)
      else UseOr(w.(lastRead := w.lastRead[p := w.session.value]), p, NeedsRefresh(w.session.value))
    case LateReleaseLands(token) => w.(lock := DropLock(w.lock, token, w.now), late := w.late - {token})
    case StartTask(p) => Goto(w.(tasks := w.tasks[p.worker := p]), p, Tasked(PcOf(w, p).read))
    case Join(p) => Goto(w, p, Joined(PcOf(w, p).read, w.tasks[p.worker]))
    case SharedOutcome(p) => Goto(w, p, After(w.outcomes[PcOf(w, p).task], PcOf(w, p).read))
    case ForgetTask(k) => w.(tasks := w.tasks - {k})
    case TryLock(p, token) =>
      var read := PcOf(w, p).read;
      var (lock, taken) := TakeLock(w.lock, token, w.now);
      Goto(w.(tokens := w.tokens + {token}, lock := lock),
           p, if taken then Acquired(read, token, w.now) else Waiting(read))
    case Start(p) =>
      var pc := PcOf(w, p);
      Goto(w, p, Owner(pc.read, pc.token, pc.at, w.now))
    case GiveUp(p) =>
      var pc := PcOf(w, p);
      Goto(w, p, Releasing(pc.read, pc.token, pc.at, w.now, None))
    case Store(p, made, claims, rotated) =>
      var pc := PcOf(w, p);
      Goto(w.(records := w.records[made := Updated(w.records[pc.read], claims, rotated)]),
           p, Storing(pc.read, pc.token, pc.at, pc.started, made))
    case StoreLands(p) =>
      var pc := PcOf(w, p);
      Goto(w.(session := Some(pc.made), stored := w.stored + {pc.made}), p,
           Landed(pc.read, pc.token, pc.at, pc.started, pc.made))
    case StoreAcknowledged(p) =>
      var pc := PcOf(w, p);
      Goto(w, p, Releasing(pc.read, pc.token, pc.at, w.now, Some(pc.made)))
    case StoreTimesOut(p) =>
      var pc := PcOf(w, p);
      Goto(w.(orphans := if pc.Storing? then w.orphans + {pc.made} else w.orphans),
           p, Releasing(pc.read, pc.token, pc.at, w.now, None))
    case ReleaseLands(p) =>
      var pc := PcOf(w, p);
      FinishTask(w.(lock := DropLock(w.lock, pc.token, w.now)), p, pc.outcome, pc.read)
    case ReleaseFails(p) =>
      var pc := PcOf(w, p);
      FinishTask(w.(late := w.late + {pc.token}), p, pc.outcome, pc.read)
    case Poll(p) =>
      if SessionFresh(w) then FinishTask(w, p, w.session, PcOf(w, p).read) else Goto(w, p, Ended)
    case RereadAfterFailure(p) => UseOr(w, p, Deleting(PcOf(w, p).read))
    case DeleteIfUnchanged(p) =>
      var (session, deleted) := DropSession(w.session, PcOf(w, p).read);
      Goto(w.(session := session), p, if deleted then Ended else Rereading(PcOf(w, p).read))
    case RereadAfterChange(p) => UseOr(w, p, Ended)
    case Stop(p) => Abandon(w, p, PcOf(w, p))
  }

  ghost predicate Possible(w: World, steps: seq<Step>)
    decreases |steps|
  {
    steps == [] || (Enabled(w, steps[0]) && Possible(Apply(w, steps[0]), steps[1..]))
  }

  ghost function Run(w: World, steps: seq<Step>): World
    requires Possible(w, steps)
    decreases |steps|
  {
    if steps == [] then w else Run(Apply(w, steps[0]), steps[1..])
  }

  // ---- identity and provenance: for all runs, whatever the timing ----

  predicate HasRead(pc: Pc) {
    !pc.Idle? && !pc.Authenticated? && !pc.Ended?
  }

  ghost predicate PcInv(w: World, p: Pid, pc: Pc) {
    && (HasRead(pc) ==> pc.read in w.stored && p in w.lastRead && w.lastRead[p] == pc.read)
    && (pc.Storing? ==> pc.made in w.records)
    && (pc.Landed? ==> pc.made in w.stored)
    && (pc.Releasing? && pc.outcome.Some? ==> pc.outcome.value in w.stored)
    && (pc.Authenticated? ==> pc.cipher in w.stored)
    && (pc.Joined? ==> pc.task.worker == p.worker)
    && (InTask(pc) ==> p.worker in w.tasks && w.tasks[p.worker] == p)
  }

  ghost predicate StoreInv(w: World, origin: Record) {
    && (forall c :: c in w.records ==> SameIdentity(w.records[c], origin))
    && (w.session.Some? ==> w.session.value in w.stored)
    && w.stored <= w.records.Keys && w.orphans <= w.records.Keys
    && (forall t :: t in w.outcomes && w.outcomes[t].Some? ==> w.outcomes[t].value in w.stored)
    && (forall k :: k in w.tasks ==> w.tasks[k].worker == k)
  }

  ghost predicate Inv(w: World, origin: Record) {
    StoreInv(w, origin) && forall p :: p in w.procs ==> PcInv(w, p, w.procs[p])
  }

  /** Steps of no request in particular. */
  predicate Ambient(step: Step) {
    step.Tick? || step.SessionVanishes? || step.OrphanLands? || step.LateReleaseLands? || step.ForgetTask?
  }

  /** Steps that look at the stored session. */
  predicate Looks(step: Step) {
    step.Read? || step.Poll? || step.RereadAfterFailure? || step.RereadAfterChange?
  }

  /** Steps by which the requests of one process share a refresh. */
  predicate Shares(step: Step) {
    step.StartTask? || step.Join? || step.SharedOutcome?
  }

  /** Steps of the owner section before its release. */
  predicate Owns(step: Step) {
    step.TryLock? || step.Start? || step.GiveUp? || step.StoreLands? || step.StoreAcknowledged? || step.StoreTimesOut?
  }

  predicate ActsOn(step: Step, p: Pid) {
    !Ambient(step) && step.p == p
  }

  /** Where a request is, and what it read first, are as they were. */
  ghost predicate Rests(w: World, v: World, q: Pid) {
    && PcOf(v, q) == PcOf(w, q)
    && (q in w.lastRead ==> q in v.lastRead && v.lastRead[q] == w.lastRead[q])
  }

  /** Whatever was made or stored stays known, and so does a task that is not over. */
  ghost predicate Grows(w: World, v: World) {
    && w.stored <= v.stored && w.records.Keys <= v.records.Keys
    && (forall x :: x in w.records ==> v.records[x] == w.records[x])
    && (forall k :: k in w.tasks && InTask(PcOf(w, w.tasks[k])) ==> k in v.tasks && v.tasks[k] == w.tasks[k])
    && w.now <= v.now
  }

  lemma {:induction false} AllRest(w: World, step: Step, q: Pid)
    requires Enabled(w, step) && Ambient(step)
    ensures Rests(w, Apply(w, step), q)
  {
  }

  /** Of all requests, only this one moves, and only a read records what it read. */
  ghost predicate Moves(w: World, step: Step, v: World, p: Pid) {
    && v.procs == w.procs[p := PcOf(v, p)]
    && v.lastRead == if step.Read? && p in v.lastRead then w.lastRead[p := v.lastRead[p]] else w.lastRead
  }

  lemma {:induction false} OwnerMoves(w: World, step: Step)
    requires Enabled(w, step) && (Owns(step) || step.Store?)
    ensures Moves(w, step, Apply(w, step), step.p)
  {
  }

  lemma {:induction false} LookMoves(w: World, step: Step)
    requires Enabled(w, step) && Looks(step)
    ensures Moves(w, step, Apply(w, step), step.p)
  {
  }

  lemma {:induction false} ShareMoves(w: World, step: Step)
    requires Enabled(w, step) && Shares(step)
    ensures Moves(w, step, Apply(w, step), step.p)
  {
  }

  lemma {:induction false} LastMoves(w: World, step: Step)
    requires Enabled(w, step)
    requires step.ReleaseLands? || step.ReleaseFails? || step.DeleteIfUnchanged? || step.Stop?
    ensures Moves(w, step, Apply(w, step), step.p)
  {
  }

  lemma {:induction false} MoverMoves(w: World, step: Step)
    requires Enabled(w, step) && !Ambient(step)
    ensures Moves(w, step, Apply(w, step), step.p)
  {
    if Owns(step) || step.Store? {
      OwnerMoves(w, step);
    } else if Looks(step) {
      LookMoves(w, step);
    } else if Shares(step) {
      ShareMoves(w, step);
    } else {
      LastMoves(w, step);
    }
  }

  /** A step acts on one request at most, and leaves the others where they are. */
  lemma {:induction false} OthersRest(w: World, step: Step, q: Pid)
    requires Enabled(w, step) && !ActsOn(step, q)
    ensures Rests(w, Apply(w, step), q)
  {
    if Ambient(step) {
      AllRest(w, step, q);
    } else {
      MoverMoves(w, step);
    }
  }

  lemma {:induction false} OwnerGrows(w: World, step: Step)
    requires Enabled(w, step) && (Owns(step) || step.Store?)
    ensures Grows(w, Apply(w, step))
  {
  }

  lemma {:induction false} AmbientGrows(w: World, step: Step)
    requires Enabled(w, step) && Ambient(step)
    ensures Grows(w, Apply(w, step))
  {
  }

  lemma {:induction false} OtherGrows(w: World, step: Step)
    requires Enabled(w, step) && !Owns(step) && !step.Store? && !Ambient(step)
    ensures Grows(w, Apply(w, step))
  {
  }

  lemma {:induction false} StepGrows(w: World, step: Step)
    requires Enabled(w, step)
    ensures Grows(w, Apply(w, step))
  {
    if Owns(step) || step.Store? {
      OwnerGrows(w, step);
    } else if Ambient(step) {
      AmbientGrows(w, step);
    } else {
      OtherGrows(w, step);
    }
  }

  lemma {:induction false} RestKeepsPc(w: World, v: World, q: Pid, origin: Record)
    requires Inv(w, origin) && Rests(w, v, q) && Grows(w, v)
    ensures PcInv(v, q, PcOf(v, q))
  {
  }

  /** A request goes on with what it read, or has just read it and found it stale. */
  ghost predicate KeepsRead(w: World, step: Step, a: Pc, b: Pc) {
    HasRead(b) ==>
      || (HasRead(a) && a.read == b.read)
      || (step.Read? && a.Idle? && w.session == Some(b.read) && !SessionFresh(w))
  }

  lemma {:induction false} MoverKeepsRead(w: World, step: Step)
    requires Enabled(w, step) && !Ambient(step)
    ensures KeepsRead(w, step, PcOf(w, step.p), PcOf(Apply(w, step), step.p))
  {
  }

  lemma {:induction false} StepKeepsRead(w: World, step: Step, p: Pid)
    requires Enabled(w, step)
    ensures KeepsRead(w, step, PcOf(w, p), PcOf(Apply(w, step), p))
  {
    if ActsOn(step, p) {
      MoverKeepsRead(w, step);
    } else {
      OthersRest(w, step, p);
    }
  }

  lemma {:induction false} ReadKeepsPc(w: World, step: Step, origin: Record)
    requires Inv(w, origin) && Enabled(w, step) && step.Read?
    ensures PcInv(Apply(w, step), step.p, PcOf(Apply(w, step), step.p))
  {
    ReadGoesTo(w, step.p);
  }

  /** Where a request goes with its first look at the session. */
  lemma {:induction false} ReadGoesTo(w: World, p: Pid)
    requires Enabled(w, Read(p))
    ensures var v := Apply(w, Read(p));
      && v.stored == w.stored && v.tasks == w.tasks
      && (|| PcOf(v, p).Ended?
          || (&& w.session.Some? && PcOf(v, p) in {Authenticated(w.session.value), NeedsRefresh(w.session.value)}
              && v.lastRead == w.lastRead[p := w.session.value]))
  {
  }

  lemma {:induction false} LookKeepsPc(w: World, step: Step, origin: Record)
    requires Inv(w, origin) && Enabled(w, step) && Looks(step) && !step.Read?
    ensures PcInv(Apply(w, step), step.p, PcOf(Apply(w, step), step.p))
  {
    assert PcInv(w, step.p, PcOf(w, step.p));
  }

  lemma {:induction false} ShareKeepsPc(w: World, step: Step, origin: Record)
    requires Inv(w, origin) && Enabled(w, step) && Shares(step)
    ensures PcInv(Apply(w, step), step.p, PcOf(Apply(w, step), step.p))
  {
  }

  lemma {:induction false} StoreKeepsPc(w: World, step: Step, origin: Record)
    requires Inv(w, origin) && Enabled(w, step) && (step.Store? || step.StoreLands?)
    ensures PcInv(Apply(w, step), step.p, PcOf(Apply(w, step), step.p))
  {
    assert PcInv(w, step.p, PcOf(w, step.p));
  }

  lemma {:induction false} OwnerKeepsPc(w: World, step: Step, origin: Record)
    requires Inv(w, origin) && Enabled(w, step) && Owns(step) && !step.StoreLands?
    ensures PcInv(Apply(w, step), step.p, PcOf(Apply(w, step), step.p))
  {
    assert PcInv(w, step.p, PcOf(w, step.p));
  }

  lemma {:induction false} LastStepKeepsPc(w: World, step: Step, origin: Record)
    requires Inv(w, origin) && Enabled(w, step)
    requires step.ReleaseLands? || step.ReleaseFails? || step.DeleteIfUnchanged? || step.Stop?
    ensures PcInv(Apply(w, step), step.p, PcOf(Apply(w, step), step.p))
  {
  }

  lemma {:induction false} StoreKeepsStore(w: World, step: Step, origin: Record)
    requires Inv(w, origin) && Enabled(w, step) && step.Store?
    ensures StoreInv(Apply(w, step), origin)
  {
    UpdateKeepsIdentity(w.records[PcOf(w, step.p).read], step.claims, step.rotated);
  }

  lemma {:induction false} LookKeepsStore(w: World, step: Step, origin: Record)
    requires Inv(w, origin) && Enabled(w, step) && Looks(step)
    ensures StoreInv(Apply(w, step), origin)
  {
  }

  lemma {:induction false} ShareKeepsStore(w: World, step: Step, origin: Record)
    requires Inv(w, origin) && Enabled(w, step) && Shares(step)
    ensures StoreInv(Apply(w, step), origin)
  {
  }

  lemma {:induction false} OwnerKeepsStore(w: World, step: Step, origin: Record)
    requires Inv(w, origin) && Enabled(w, step) && Owns(step)
    ensures StoreInv(Apply(w, step), origin)
  {
    assert PcInv(w, step.p, PcOf(w, step.p));
  }

  lemma {:induction false} ReleaseKeepsStore(w: World, step: Step, origin: Record)
    requires Inv(w, origin) && Enabled(w, step) && (step.ReleaseLands? || step.ReleaseFails?)
    ensures StoreInv(Apply(w, step), origin)
  {
    assert PcInv(w, step.p, PcOf(w, step.p));
  }

  lemma {:induction false} LastStepKeepsStore(w: World, step: Step, origin: Record)
    requires Inv(w, origin) && Enabled(w, step) && (step.DeleteIfUnchanged? || step.Stop?)
    ensures StoreInv(Apply(w, step), origin)
  {
    assert PcInv(w, step.p, PcOf(w, step.p));
  }

  lemma {:induction false} AmbientKeepsStore(w: World, step: Step, origin: Record)
    requires Inv(w, origin) && Enabled(w, step) && Ambient(step)
    ensures StoreInv(Apply(w, step), origin)
  {
  }

  lemma {:induction false} MoverKeepsPc(w: World, step: Step, origin: Record)
    requires Inv(w, origin) && Enabled(w, step) && !Ambient(step)
    ensures PcInv(Apply(w, step), step.p, PcOf(Apply(w, step), step.p))
  {
    if step.Read? {
      ReadKeepsPc(w, step, origin);
    } else if Looks(step) {
      LookKeepsPc(w, step, origin);
    } else if Shares(step) {
      ShareKeepsPc(w, step, origin);
    } else if step.Store? || step.StoreLands? {
      StoreKeepsPc(w, step, origin);
    } else if Owns(step) {
      OwnerKeepsPc(w, step, origin);
    } else {
      LastStepKeepsPc(w, step, origin);
    }
  }

  lemma {:induction false} StepKeepsInv(w: World, step: Step, origin: Record)
    requires Inv(w, origin) && Enabled(w, step)
    ensures Inv(Apply(w, step), origin)
  {
    var v := Apply(w, step);
    if step.Store? {
      StoreKeepsStore(w, step, origin);
    } else if Ambient(step) {
      AmbientKeepsStore(w, step, origin);
    } else if Looks(step) {
      LookKeepsStore(w, step, origin);
    } else if Shares(step) {
      ShareKeepsStore(w, step, origin);
    } else if Owns(step) {
      OwnerKeepsStore(w, step, origin);
    } else if step.ReleaseLands? || step.ReleaseFails? {
      ReleaseKeepsStore(w, step, origin);
    } else {
      LastStepKeepsStore(w, step, origin);
    }
    StepGrows(w, step);
    forall p | p in v.procs
      ensures PcInv(v, p, v.procs[p])
    {
      if ActsOn(step, p) {
        MoverKeepsPc(w, step, origin);
      } else {
        OthersRest(w, step, p);
        RestKeepsPc(w, v, p, origin);
      }
    }
  }

  lemma {:induction false} RunKeepsInv(w: World, steps: seq<Step>, origin: Record)
    requires Inv(w, origin) && Possible(w, steps)
    ensures Inv(Run(w, steps), origin)
    decreases |steps|
  {
    if steps != [] {
      StepKeepsInv(w, steps[0], origin);
      RunKeepsInv(Apply(w, steps[0]), steps[1..], origin);
    }
  }

  /** Every record ever encrypted for a session keeps the callback's subject, issuer and
      CSRF token, and every request is authenticated with one that really was stored. */
  lemma {:induction false} IdentityNeverChanges(c: Cipher, origin: Record, now: int, steps: seq<Step>)
    requires Possible(Created(c, origin, now), steps)
    ensures var w := Run(Created(c, origin, now), steps);
      && (forall x :: x in w.records ==> SameIdentity(w.records[x], origin))
      && (forall x :: x in w.stored ==> x in w.records)
      && (w.session.Some? ==> w.session.value in w.stored)
      && (forall p :: p in w.procs && w.procs[p].Authenticated? ==> w.procs[p].cipher in w.stored)
  {
    RunKeepsInv(Created(c, origin, now), steps, origin);
  }

  /** A failing request removes a session only if it is the exact ciphertext that
      request itself read; any other stored session is left in place. */
  lemma {:induction false} FailureDeletesOnlyWhatItRead(c: Cipher, origin: Record, now: int, steps: seq<Step>, p: Pid)
    requires Possible(Created(c, origin, now), steps)
    requires Enabled(Run(Created(c, origin, now), steps), DeleteIfUnchanged(p))
    ensures var w := Run(Created(c, origin, now), steps);
      var after := Apply(w, DeleteIfUnchanged(p));
      p in w.lastRead
      && after.session == (if w.session == Some(w.lastRead[p]) then None else w.session)
      && after.lock == w.lock && after.records == w.records
  {
    RunKeepsInv(Created(c, origin, now), steps, origin);
  }

  /** The grounds on which a request may be let in. */
  ghost predicate LetIn(w: World, p: Pid, used: Cipher) {
    && used in w.stored && used in w.records
    && (|| (w.session == Some(used) && Fresh(w.records[used], w.now))
        || (PcOf(w, p).Releasing? && PcOf(w, p).outcome == Some(used))
        || (&& PcOf(w, p).Joined? && PcOf(w, p).task.worker == p.worker
            && PcOf(w, p).task in w.outcomes && w.outcomes[PcOf(w, p).task] == Some(used)))
  }

  lemma {:induction false} LookLetsIn(w: World, origin: Record, step: Step)
    requires Inv(w, origin) && Enabled(w, step) && Looks(step) && PcOf(Apply(w, step), step.p).Authenticated?
    ensures LetIn(w, step.p, PcOf(Apply(w, step), step.p).cipher)
  {
  }

  lemma {:induction false} OutcomeLetsIn(w: World, origin: Record, step: Step)
    requires Inv(w, origin) && Enabled(w, step) && !Looks(step) && !Ambient(step)
    requires !PcOf(w, step.p).Authenticated? && PcOf(Apply(w, step), step.p).Authenticated?
    ensures LetIn(w, step.p, PcOf(Apply(w, step), step.p).cipher)
  {
    assert PcInv(w, step.p, PcOf(w, step.p));
  }

  /** A request is let in only on the stored session while that is fresh, or on the outcome
      of a refresh: the one it made itself, or that of the task of its own process it joined. */
  lemma {:induction false} LetInOnFreshOrRefreshed(
      c: Cipher, origin: Record, now: int, steps: seq<Step>, step: Step, p: Pid)
    requires Possible(Created(c, origin, now), steps) && Enabled(Run(Created(c, origin, now), steps), step)
    requires var w := Run(Created(c, origin, now), steps);
      !PcOf(w, p).Authenticated? && PcOf(Apply(w, step), p).Authenticated?
    ensures var w := Run(Created(c, origin, now), steps); LetIn(w, p, PcOf(Apply(w, step), p).cipher)
  {
    RunKeepsInv(Created(c, origin, now), steps, origin);
    var w := Run(Created(c, origin, now), steps);
    if !ActsOn(step, p) {
      OthersRest(w, step, p);
    }
    if Looks(step) {
      LookLetsIn(w, origin, step);
    } else {
      OutcomeLetsIn(w, origin, step);
    }
  }

  /** What a request read and is still working on has expired, and stays expired. */
  ghost predicate StaleInv(w: World) {
    forall p :: p in w.procs && HasRead(w.procs[p]) ==>
      w.procs[p].read in w.records && !Fresh(w.records[w.procs[p].read], w.now)
  }

  lemma {:induction false} StaleStays(w: World, step: Step, v: World)
    requires StaleInv(w) && Grows(w, v) && (forall p :: KeepsRead(w, step, PcOf(w, p), PcOf(v, p)))
    requires w.session.Some? ==> w.session.value in w.records
    requires step.Read? ==> v.now == w.now
    ensures StaleInv(v)
  {
    forall p | p in v.procs && HasRead(v.procs[p])
      ensures v.procs[p].read in v.records && !Fresh(v.records[v.procs[p].read], v.now)
    {
      assert KeepsRead(w, step, PcOf(w, p), PcOf(v, p));
    }
  }

  lemma {:induction false} StepKeepsStale(w: World, step: Step, origin: Record)
    requires Inv(w, origin) && StaleInv(w) && Enabled(w, step)
    ensures StaleInv(Apply(w, step))
  {
    StepGrows(w, step);
    forall p
      ensures KeepsRead(w, step, PcOf(w, p), PcOf(Apply(w, step), p))
    {
      StepKeepsRead(w, step, p);
    }
    StaleStays(w, step, Apply(w, step));
  }

  lemma {:induction false} RunKeepsStale(w: World, steps: seq<Step>, origin: Record)
    requires Inv(w, origin) && StaleInv(w) && Possible(w, steps)
    ensures StaleInv(Run(w, steps))
    decreases |steps|
  {
    if steps != [] {
      StepKeepsInv(w, steps[0], origin);
      StepKeepsStale(w, steps[0], origin);
      RunKeepsStale(Apply(w, steps[0]), steps[1..], origin);
    }
  }

  lemma {:induction false} FreshSessionSurvives(w: World, step: Step)
    requires StaleInv(w) && SessionFresh(w) && Enabled(w, step)
    ensures step.DeleteIfUnchanged? ==> Apply(w, step).session == w.session
    ensures Looks(step) ==> PcOf(Apply(w, step), step.p) == Authenticated(w.session.value)
  {
  }

  /** No request ever deletes a fresh session, and one that looks at a fresh session is let in. */
  lemma {:induction false} FreshSessionIsNeverDeleted(c: Cipher, origin: Record, now: int, steps: seq<Step>, step: Step)
    requires Possible(Created(c, origin, now), steps) && Enabled(Run(Created(c, origin, now), steps), step)
    requires SessionFresh(Run(Created(c, origin, now), steps))
    ensures var w := Run(Created(c, origin, now), steps);
      && (step.DeleteIfUnchanged? ==> Apply(w, step).session == w.session)
      && (Looks(step) ==> PcOf(Apply(w, step), step.p) == Authenticated(w.session.value))
  {
    RunKeepsStale(Created(c, origin, now), steps, origin);
    FreshSessionSurvives(Run(Created(c, origin, now), steps), step);
  }

  lemma {:induction false} StepReadsOnce(w: World, step: Step, p: Pid)
    requires Enabled(w, step) && p in w.procs && !w.procs[p].Idle? && p in w.lastRead
    ensures var v := Apply(w, step);
      p in v.procs && !v.procs[p].Idle? && p in v.lastRead && v.lastRead[p] == w.lastRead[p]
  {
    if ActsOn(step, p) {
      MoverMoves(w, step);
      NeverIdleAgain(w, step);
    } else {
      OthersRest(w, step, p);
    }
  }

  lemma {:induction false} NeverIdleAgain(w: World, step: Step)
    requires Enabled(w, step) && !Ambient(step)
    ensures !PcOf(Apply(w, step), step.p).Idle?
  {
  }

  lemma {:induction false} ReadsOnce(w: World, steps: seq<Step>, p: Pid)
    requires Possible(w, steps) && p in w.procs && !w.procs[p].Idle? && p in w.lastRead
    ensures var v := Run(w, steps);
      p in v.procs && !v.procs[p].Idle? && p in v.lastRead && v.lastRead[p] == w.lastRead[p]
    decreases |steps|
  {
    if steps != [] {
      StepReadsOnce(w, steps[0], p);
      ReadsOnce(Apply(w, steps[0]), steps[1..], p);
    }
  }

  /** A session stored after a request made its read survives that request's failure,
      however the two interleave. */
  lemma {:induction false} NewerSessionSurvives(w: World, origin: Record, steps: seq<Step>, p: Pid, newer: Cipher)
    requires Inv(w, origin) && Possible(w, steps)
    requires p in w.procs && HasRead(w.procs[p]) && newer !in w.records
    requires Run(w, steps).session == Some(newer) && Enabled(Run(w, steps), DeleteIfUnchanged(p))
    ensures Apply(Run(w, steps), DeleteIfUnchanged(p)).session == Some(newer)
  {
    RunKeepsInv(w, steps, origin);
    ReadsOnce(w, steps, p);
  }

  /** Within a process refreshes are single-flight: at most one of its requests is ever
      working on one. */
  lemma {:induction false} OneTaskPerProcess(c: Cipher, origin: Record, now: int, steps: seq<Step>, p: Pid, q: Pid)
    requires Possible(Created(c, origin, now), steps) && p.worker == q.worker
    requires var w := Run(Created(c, origin, now), steps); InTask(PcOf(w, p)) && InTask(PcOf(w, q))
    ensures p == q
  {
    RunKeepsInv(Created(c, origin, now), steps, origin);
  }

  // ---- locks: for all runs, whatever the timing ----

  function TokenOf(pc: Pc): Option<Token> {
    if InSection(pc) then Some(pc.token) else None
  }

  ghost predicate TokensInv(w: World) {
    && (w.lock.Some? ==> w.lock.value.token in w.tokens)
    && w.late <= w.tokens
    && (forall p :: p in w.procs && InSection(w.procs[p]) ==>
          w.procs[p].token in w.tokens && w.procs[p].token !in w.late)
    && (forall p, q :: p in w.procs && q in w.procs && p != q && InSection(w.procs[p]) ==>
          TokenOf(w.procs[p]) != TokenOf(w.procs[q]))
  }

  /** A request that moves keeps its token or gives it up, and only a token given up joins
      the releases still on their way. */
  ghost predicate HandsOver(w: World, v: World, a: Pc, b: Pc) {
    && TokenOf(b) in {TokenOf(a), None}
    && v.tokens == w.tokens && (v.lock == w.lock || v.lock == None)
    && (v.late <= w.late || (!InSection(b) && InSection(a) && v.late == w.late + {a.token}))
  }

  lemma {:induction false} OwnerHandsOver(w: World, step: Step)
    requires Enabled(w, step) && (Owns(step) || step.Store?) && !step.TryLock?
    ensures HandsOver(w, Apply(w, step), PcOf(w, step.p), PcOf(Apply(w, step), step.p))
  {
  }

  lemma {:induction false} LookHandsOver(w: World, step: Step)
    requires Enabled(w, step) && Looks(step)
    ensures HandsOver(w, Apply(w, step), PcOf(w, step.p), PcOf(Apply(w, step), step.p))
  {
  }

  lemma {:induction false} ShareHandsOver(w: World, step: Step)
    requires Enabled(w, step) && Shares(step)
    ensures HandsOver(w, Apply(w, step), PcOf(w, step.p), PcOf(Apply(w, step), step.p))
  {
  }

  lemma {:induction false} LastHandsOver(w: World, step: Step)
    requires Enabled(w, step) && !Ambient(step) && !Owns(step) && !step.Store? && !Looks(step) && !Shares(step)
    ensures HandsOver(w, Apply(w, step), PcOf(w, step.p), PcOf(Apply(w, step), step.p))
  {
  }

  lemma {:induction false} MoveKeepsTokens(w: World, v: World, p: Pid)
    requires TokensInv(w) && v.procs == w.procs[p := PcOf(v, p)] && HandsOver(w, v, PcOf(w, p), PcOf(v, p))
    ensures TokensInv(v)
  {
  }

  lemma {:induction false} AmbientKeepsTokens(w: World, step: Step)
    requires TokensInv(w) && Enabled(w, step) && Ambient(step)
    ensures TokensInv(Apply(w, step))
  {
  }

  lemma {:induction false} StepKeepsTokens(w: World, step: Step)
    requires TokensInv(w) && Enabled(w, step)
    ensures TokensInv(Apply(w, step))
  {
    if step.TryLock? {
      var pc := PcOf(Apply(w, step), step.p);
      assert InSection(pc) ==> pc.token !in w.tokens;
    } else if Ambient(step) {
      AmbientKeepsTokens(w, step);
    } else {
      MoverMoves(w, step);
      if Owns(step) || step.Store? {
        OwnerHandsOver(w, step);
      } else if Looks(step) {
        LookHandsOver(w, step);
      } else if Shares(step) {
        ShareHandsOver(w, step);
      } else {
        LastHandsOver(w, step);
      }
      MoveKeepsTokens(w, Apply(w, step), step.p);
    }
  }

  lemma {:induction false} RunKeepsTokens(w: World, steps: seq<Step>)
    requires TokensInv(w) && Possible(w, steps)
    ensures TokensInv(Run(w, steps))
    decreases |steps|
  {
    if steps != [] {
      StepKeepsTokens(w, steps[0]);
      RunKeepsTokens(Apply(w, steps[0]), steps[1..]);
    }
  }

  /** However late it arrives, even long after its sender gave it up, a release never takes
      away the lock of another request that is still in its owner section. */
  lemma {:induction false} LateReleaseSparesLaterOwner(
      c: Cipher, origin: Record, now: int, steps: seq<Step>, release: Step, q: Pid)
    requires Possible(Created(c, origin, now), steps)
    requires var w := Run(Created(c, origin, now), steps);
      && Enabled(w, release) && (release.LateReleaseLands? || (release.ReleaseLands? && release.p != q))
      && InSection(PcOf(w, q)) && w.lock.Some? && w.lock.value.token == PcOf(w, q).token
    ensures var w := Run(Created(c, origin, now), steps); Apply(w, release).lock == w.lock
  {
    RunKeepsTokens(Created(c, origin, now), steps);
  }

  // ---- overlapping owners: for all runs, whatever the timing ----

  /** Until it expires, the lock of a request in the owner section is its own. */
  ghost predicate SectionInv(w: World, pc: Pc) {
    InSection(pc) ==>
      && pc.at <= w.now
      && (w.now < pc.at + LOCK_TTL_MS ==> w.lock == Some(Lock(pc.token, pc.at + LOCK_TTL_MS)))
  }

  ghost predicate OwnersInv(w: World) {
    TokensInv(w) && forall p :: p in w.procs ==> SectionInv(w, w.procs[p])
  }

  predicate Unlocks(step: Step) {
    step.ReleaseLands? || step.LateReleaseLands?
  }

  predicate Works(pc: Pc) {
    pc.Owner? || pc.Storing? || pc.Landed?
  }

  /** How a request gets into the owner section and through it. */
  ghost predicate SectionMove(now: int, a: Pc, b: Pc) {
    InSection(b) ==>
      || (b.Acquired? && a.Tasked? && b.at == now)
      || (&& InSection(a) && a.token == b.token && a.at == b.at
          && (b.Acquired? ==> a.Acquired?)
          && (Works(b) ==> if Works(a) then b.started == a.started else a.Acquired? && b.started == now)
          && (b.Releasing? ==> if a.Releasing? then b.sent == a.sent else Works(a) && b.sent == now))
  }

  lemma {:induction false} OwnerMovesInSection(w: World, step: Step)
    requires Enabled(w, step) && (Owns(step) || step.Store?)
    ensures SectionMove(w.now, PcOf(w, step.p), PcOf(Apply(w, step), step.p))
  {
  }

  lemma {:induction false} OthersMoveOutside(w: World, step: Step)
    requires Enabled(w, step) && !Ambient(step) && !Owns(step) && !step.Store?
    ensures !InSection(PcOf(Apply(w, step), step.p))
  {
  }

  lemma {:induction false} StepMovesInSection(w: World, step: Step, p: Pid)
    requires Enabled(w, step)
    ensures SectionMove(w.now, PcOf(w, p), PcOf(Apply(w, step), p))
  {
    if !Ambient(step) && step.p == p {
      if Owns(step) || step.Store? {
        OwnerMovesInSection(w, step);
      } else {
        OthersMoveOutside(w, step);
      }
    } else {
      OthersRest(w, step, p);
    }
  }

  /** Taking a lock or dropping one leaves every unexpired lock of another owner alone. */
  lemma {:induction false} LockStepKeepsOwners(w: World, step: Step, p: Pid)
    requires OwnersInv(w) && Enabled(w, step) && (step.TryLock? || Unlocks(step))
    requires p in Apply(w, step).procs
    ensures SectionInv(Apply(w, step), Apply(w, step).procs[p])
  {
    assert SectionInv(w, PcOf(w, p));
  }

  lemma {:induction false} TryLockEnters(w: World, step: Step)
    requires Enabled(w, step) && step.TryLock?
    ensures InSection(PcOf(Apply(w, step), step.p)) <==> !LockHeld(w)
  {
  }

  lemma {:induction false} OnlyTryLockEnters(w: World, step: Step)
    requires Enabled(w, step) && !step.TryLock? && !Ambient(step)
    ensures InSection(PcOf(Apply(w, step), step.p)) ==> InSection(PcOf(w, step.p))
  {
  }

  lemma {:induction false} StepEnters(w: World, step: Step, q: Pid)
    requires Enabled(w, step) && !InSection(PcOf(w, q))
    ensures InSection(PcOf(Apply(w, step), q)) <==> step.TryLock? && step.p == q && !LockHeld(w)
  {
    if !ActsOn(step, q) {
      OthersRest(w, step, q);
    } else if step.TryLock? {
      TryLockEnters(w, step);
    } else {
      OnlyTryLockEnters(w, step);
    }
  }

  lemma {:induction false} StepKeepsLock(w: World, step: Step)
    requires Enabled(w, step) && !step.TryLock? && !Unlocks(step)
    ensures Apply(w, step).lock == w.lock && w.now <= Apply(w, step).now
  {
  }

  lemma {:induction false} SectionKeepsLock(w: World, v: World, a: Pc, b: Pc)
    requires SectionInv(w, a) && SectionMove(w.now, a, b) && v.lock == w.lock && w.now <= v.now
    requires InSection(b) ==> InSection(a)
    ensures SectionInv(v, b)
  {
  }

  lemma {:induction false} OtherStepKeepsOwners(w: World, step: Step, p: Pid)
    requires OwnersInv(w) && Enabled(w, step) && !step.TryLock? && !Unlocks(step)
    requires p in Apply(w, step).procs
    ensures SectionInv(Apply(w, step), Apply(w, step).procs[p])
  {
    StepMovesInSection(w, step, p);
    StepKeepsLock(w, step);
    if !InSection(PcOf(w, p)) {
      StepEnters(w, step, p);
    }
    SectionKeepsLock(w, Apply(w, step), PcOf(w, p), PcOf(Apply(w, step), p));
  }

  lemma {:induction false} StepKeepsOwners(w: World, step: Step)
    requires OwnersInv(w) && Enabled(w, step)
    ensures OwnersInv(Apply(w, step))
  {
    StepKeepsTokens(w, step);
    forall p | p in Apply(w, step).procs
      ensures SectionInv(Apply(w, step), Apply(w, step).procs[p])
    {
      if step.TryLock? || Unlocks(step) {
        LockStepKeepsOwners(w, step, p);
      } else {
        OtherStepKeepsOwners(w, step, p);
      }
    }
  }

  lemma {:induction false} RunKeepsOwners(w: World, steps: seq<Step>)
    requires OwnersInv(w) && Possible(w, steps)
    ensures OwnersInv(Run(w, steps))
    decreases |steps|
  {
    if steps != [] {
      StepKeepsOwners(w, steps[0]);
      RunKeepsOwners(Apply(w, steps[0]), steps[1..]);
    }
  }

  /** The request is in the owner section longer than its lock lives. */
  predicate Outlived(w: World, p: Pid) {
    InSection(PcOf(w, p)) && w.now >= PcOf(w, p).at + LOCK_TTL_MS
  }

  /** In every run, two requests are in the owner section together only if one of them has
      outlived its lock; one that has not holds the live lock. */
  lemma {:induction false} OverlapNeedsOutlived(c: Cipher, origin: Record, now: int, steps: seq<Step>, p: Pid, q: Pid)
    requires Possible(Created(c, origin, now), steps)
    requires var w := Run(Created(c, origin, now), steps); InSection(PcOf(w, p)) && InSection(PcOf(w, q))
    ensures var w := Run(Created(c, origin, now), steps);
      && (p == q || Outlived(w, p) || Outlived(w, q))
      && (!Outlived(w, p) ==> LockHeld(w) && w.lock.value.token == PcOf(w, p).token)
  {
    RunKeepsOwners(Created(c, origin, now), steps);
    var w := Run(Created(c, origin, now), steps);
    assert SectionInv(w, w.procs[p]) && SectionInv(w, w.procs[q]);
  }

  /** In every run, a request joins another one in the owner section exactly when it asks for
      the lock while no live one is left, which takes that other one having outlived its own. */
  lemma {:induction false} SecondOwnerEntersExactly(
      c: Cipher, origin: Record, now: int, steps: seq<Step>, p: Pid, q: Pid, step: Step)
    requires Possible(Created(c, origin, now), steps) && Enabled(Run(Created(c, origin, now), steps), step)
    requires var w := Run(Created(c, origin, now), steps); InSection(PcOf(w, p)) && !InSection(PcOf(w, q))
    ensures var w := Run(Created(c, origin, now), steps);
      && (InSection(PcOf(Apply(w, step), q)) <==> step.TryLock? && step.p == q && !LockHeld(w))
      && (InSection(PcOf(Apply(w, step), q)) ==> Outlived(w, p))
  {
    RunKeepsOwners(Created(c, origin, now), steps);
    var w := Run(Created(c, origin, now), steps);
    StepEnters(w, step, q);
    assert SectionInv(w, PcOf(w, p));
  }

  // ---- mutual exclusion: for runs in which the store replies in time ----

  /** The latest moment a request may still be in its present place, when the store
      answers within its socket timeout and the owner is cancelled on time. */
  function Deadline(pc: Pc): Option<int> {
    match pc
    case Acquired(_, _, at) => Some(at + REPLY_MS)
    case Owner(_, _, _, started) => Some(started + OWNER_MS)
    case Storing(_, _, _, started, _) => Some(started + OWNER_MS)
    case Landed(_, _, _, started, _) => Some(started + OWNER_MS)
    case Releasing(_, _, _, sent, _) => Some(sent + REPLY_MS)
    case _ => None
  }

  ghost predicate InTime(w: World) {
    forall p :: p in w.procs && Deadline(w.procs[p]).Some? ==> w.now <= Deadline(w.procs[p]).value
  }

  /** Time passes only as far as every deadline allows. */
  ghost predicate Timely(w: World, steps: seq<Step>)
    requires Possible(w, steps)
    decreases |steps|
  {
    steps == [] || (InTime(Apply(w, steps[0])) && Timely(Apply(w, steps[0]), steps[1..]))
  }

  /** How far into its lock's life a request can be in its present place. */
  ghost predicate OnSchedule(pc: Pc) {
    && (pc.Owner? || pc.Storing? || pc.Landed? ==> pc.started <= pc.at + REPLY_MS)
    && (pc.Releasing? ==> pc.sent <= pc.at + REPLY_MS + OWNER_MS)
  }

  ghost predicate TimelyInv(w: World) {
    InTime(w) && forall p :: p in w.procs ==> OnSchedule(w.procs[p])
  }

  lemma {:induction false} ScheduleKept(w: World, a: Pc, b: Pc)
    requires OnSchedule(a) && SectionMove(w.now, a, b) && (Deadline(a).Some? ==> w.now <= Deadline(a).value)
    ensures OnSchedule(b)
  {
  }

  lemma {:induction false} StepKeepsSchedule(w: World, step: Step, p: Pid)
    requires TimelyInv(w) && Enabled(w, step) && p in Apply(w, step).procs
    ensures OnSchedule(Apply(w, step).procs[p])
  {
    StepMovesInSection(w, step, p);
    ScheduleKept(w, PcOf(w, p), PcOf(Apply(w, step), p));
  }

  lemma {:induction false} RunKeepsSchedule(w: World, steps: seq<Step>)
    requires TimelyInv(w) && Possible(w, steps) && Timely(w, steps)
    ensures TimelyInv(Run(w, steps))
    decreases |steps|
  {
    if steps != [] {
      forall p | p in Apply(w, steps[0]).procs
        ensures OnSchedule(Apply(w, steps[0]).procs[p])
      {
        StepKeepsSchedule(w, steps[0], p);
      }
      RunKeepsSchedule(Apply(w, steps[0]), steps[1..]);
    }
  }

  /** With timely replies nobody outlives a lock, since two seconds, ten seconds and two seconds
      stay below fifteen: at most one request is ever in the owner section, and its lock is live. */
  lemma {:induction false} AtMostOneOwner(c: Cipher, origin: Record, now: int, steps: seq<Step>, p: Pid, q: Pid)
    requires Possible(Created(c, origin, now), steps) && Timely(Created(c, origin, now), steps)
    requires var w := Run(Created(c, origin, now), steps); InSection(PcOf(w, p)) && InSection(PcOf(w, q))
    ensures p == q
    ensures var w := Run(Created(c, origin, now), steps);
      !Outlived(w, p) && LockHeld(w) && w.lock.value.token == PcOf(w, p).token
  {
    RunKeepsSchedule(Created(c, origin, now), steps);
    OverlapNeedsOutlived(c, origin, now, steps, p, q);
    var w := Run(Created(c, origin, now), steps);
    assert OnSchedule(w.procs[p]) && OnSchedule(w.procs[q]);
  }

  lemma {:induction false} RunCons(w: World, step: Step, rest: seq<Step>)
    requires Enabled(w, step) && Possible(Apply(w, step), rest)
    ensures Possible(w, [step] + rest) && Run(w, [step] + rest) == Run(Apply(w, step), rest)
    ensures Timely(w, [step] + rest) <==> InTime(Apply(w, step)) && Timely(Apply(w, step), rest)
  {
    assert ([step] + rest)[1..] == rest;
  }

  /** Without timely replies the exclusion fails: an owner that is held up for the whole
      lifetime of its lock shares the section with the next one. */
  lemma {:induction false} LateOwnerOverlaps(c: Cipher, origin: Record) returns (steps: seq<Step>)
    requires !Fresh(origin, 0)
    ensures Possible(Created(c, origin, 0), steps) && !Timely(Created(c, origin, 0), steps)
    ensures InSection(PcOf(Run(Created(c, origin, 0), steps), Pid(1, 0)))
    ensures InSection(PcOf(Run(Created(c, origin, 0), steps), Pid(2, 0)))
  {
    var p, q := Pid(1, 0), Pid(2, 0);
    var w0 := Created(c, origin, 0);
    ReachesTask(w0, p);
    var w1 := Apply(w0, Read(p));
    var w2 := Apply(w1, StartTask(p));
    var w3 := Apply(w2, TryLock(p, 1));
    ReachesTask(w3, q);
    var w4 := Apply(w3, Read(q));
    var w5 := Apply(w4, StartTask(q));
    steps := LateOwnerIsJoined(w5, p, q);
    RunCons(w4, StartTask(q), steps);
    steps := [StartTask(q)] + steps;
    RunCons(w3, Read(q), steps);
    steps := [Read(q)] + steps;
    RunCons(w2, TryLock(p, 1), steps);
    steps := [TryLock(p, 1)] + steps;
    RunCons(w1, StartTask(p), steps);
    steps := [StartTask(p)] + steps;
    RunCons(w0, Read(p), steps);
    steps := [Read(p)] + steps;
  }

  /** A request that finds the session stale, in a process without a task, starts one. */
  lemma {:induction false} ReachesTask(w: World, p: Pid)
    requires p !in w.procs && p.worker !in w.tasks
    requires w.session.Some? && w.session.value in w.records && !SessionFresh(w)
    ensures Enabled(w, Read(p)) && Enabled(Apply(w, Read(p)), StartTask(p))
    ensures Apply(Apply(w, Read(p)), StartTask(p))
         == w.(lastRead := w.lastRead[p := w.session.value], tasks := w.tasks[p.worker := p],
               procs := w.procs[p := Tasked(w.session.value)])
  {
  }

  lemma {:induction false} LateOwnerIsJoined(w: World, p: Pid, q: Pid) returns (steps: seq<Step>)
    requires p in w.procs && w.procs[p].Acquired? && w.procs[p].at == w.now && w.tokens == {1}
    requires w.lock == Some(Lock(1, w.now + LOCK_TTL_MS)) && PcOf(w, q).Tasked? && p != q
    ensures Possible(w, steps) && !Timely(w, steps)
    ensures InSection(PcOf(Run(w, steps), p)) && InSection(PcOf(Run(w, steps), q))
  {
    var later := Apply(w, Tick(LOCK_TTL_MS));
    assert later.procs[p] == w.procs[p] && !InTime(later);
    RunCons(later, TryLock(q, 2), []);
    steps := [TryLock(q, 2)] + [];
    RunCons(w, Tick(LOCK_TTL_MS), steps);
    steps := [Tick(LOCK_TTL_MS)] + steps;
  }

  // ---- the protocol run on the store ----

  /** Carries out what one step does to the shared entries, through their own methods. */
  method Perform(entries: SharedEntries, w: World, step: Step)
    requires Enabled(w, step) && entries.session == w.session && entries.lock == w.lock
    modifies entries
    ensures entries.session == Apply(w, step).session && entries.lock == Apply(w, step).lock
  {
    match step
    case SessionVanishes => entries.RemoveSession();
    case OrphanLands(c) => entries.StoreSession(c);
    case LateReleaseLands(token) => entries.ReleaseRefreshLock(token, w.now);
    case TryLock(p, token) =>
      var taken := entries.SetLockIfAbsent(token, w.now);
      assert PcOf(Apply(w, step), p).Acquired? <==> taken;
    case StoreLands(p) => entries.StoreSession(PcOf(w, p).made);
    case ReleaseLands(p) => entries.ReleaseRefreshLock(PcOf(w, p).token, w.now);
    case DeleteIfUnchanged(p) =>
      var deleted := entries.DeleteSessionIfUnchanged(PcOf(w, p).read);
      assert PcOf(Apply(w, step), p).Ended? <==> deleted;
    case _ =>
  }

  /** Shared entries driven through any run hold a session of the callback's identity, if any. */
  method Drive(c: Cipher, origin: Record, now: int, steps: seq<Step>) returns (entries: SharedEntries)
    requires Possible(Created(c, origin, now), steps)
    ensures var w := Run(Created(c, origin, now), steps);
      && fresh(entries) && entries.session == w.session && entries.lock == w.lock
      && (entries.session.Some? ==>
            entries.session.value in w.records && SameIdentity(w.records[entries.session.value], origin))
  {
    entries := new SharedEntries(c);
    var w, rest := Created(c, origin, now), steps;
    while rest != []
      invariant fresh(entries) && entries.session == w.session && entries.lock == w.lock
      invariant Possible(w, rest) && Run(w, rest) == Run(Created(c, origin, now), steps)
      decreases |rest|
    {
      Perform(entries, w, rest[0]);
      w, rest := Apply(w, rest[0]), rest[1..];
    }
    IdentityNeverChanges(c, origin, now, steps);
  }
}
