/** Migration runs and operator recoveries that may be cut off between any two commits. */
module MigrationCrash {
  import opened Options
  import opened Sequences
  import opened NameOrder
  import opened MigrationHistory

  type Index = string
  type Table = string

  /** A relation in the catalog, as the index checks see it. */
  datatype Relation = Relation(isIndex: bool, table: Table, valid: bool, ready: bool, live: bool)

  datatype Target = Target(index: Index, table: Table)

  /** A manifest with, for each controlled concurrent-index migration, what its SQL parses to. */
  datatype Plan = Plan(m: Manifest, cic: map<Name, Target>)

  /** One baseline schema cannot create two indexes of one name. */
  ghost predicate WellPlanned(plan: Plan) {
    && Listed(plan.m) && plan.cic.Keys <= plan.m.online
    && (forall a, b :: a in BaselineIndexed(plan) && b in BaselineIndexed(plan) && a != b ==>
          plan.cic[a].index != plan.cic[b].index)
  }

  /** The concurrent-index migrations whose index the baseline schema creates. */
  ghost function BaselineIndexed(plan: Plan): set<Name> {
    set n | n in BaselineNames(plan.m) && n in plan.cic
  }

  datatype Db = Db(
    rows: Rows,
    hasSchema: bool,
    effects: map<Name, nat>,        // how often each migration's SQL has taken effect
    catalog: map<Index, Relation>,
    ran: set<Name>)                 // migrations a run or the baseline schema brought in, not adopted

  datatype Phase = Next | Checked | Marked | Executed | Observed

  datatype Pc =
    | Idle
    | Running(applied: Rows, i: nat, phase: Phase)
    | Recovering(name: Name, stage: Stage)

  datatype Stage = Inspecting | Dropping | Creating | Created | Confirmed

  datatype World = World(db: Db, pc: Pc)

  /** How a concurrent index statement ends. */
  datatype Ddl = Done | FailsClean | FailsInvalid(valid: bool, ready: bool, live: bool)

  datatype Step =
    | BeginRun
    | SkipApplied
    | ApplyTransactional
    | Preflight
    | Mark
    | ExecuteStatement(ok: bool, effective: bool)
    | ExecuteIndex(ddl: Ddl)
    | ObserveIndex
    | Finalise
    | BeginRecovery(name: Name)
    | InspectIndex
    | DropIndex(ddl: Ddl)
    | RecreateIndex(ddl: Ddl)
    | ConfirmIndex
    | FinaliseRecovery
    | Crash

  function Times(db: Db, n: Name): nat {
    if n in db.effects then db.effects[n] else 0
  }

  function Effect(db: Db, n: Name): Db {
    db.(effects := db.effects[n := Times(db, n) + 1])
  }

  predicate IsTarget(r: Relation, t: Target) {
    r.isIndex && r.table == t.table
  }

  predicate Complete(db: Db, t: Target) {
    && t.index in db.catalog && IsTarget(db.catalog[t.index], t)
    && db.catalog[t.index].valid && db.catalog[t.index].ready && db.catalog[t.index].live
  }

  /** The index is there, on its table, valid, ready and live. */
  predicate Stands(db: Db, t: Target) {
    t.index in db.catalog && db.catalog[t.index] == Relation(true, t.table, true, true, true)
  }

  /** The migration a run is working on. */
  function Current(plan: Plan, pc: Pc): Name
    requires pc.Running? && pc.i < |plan.m.order|
  {
    plan.m.order[pc.i]
  }

  predicate RunningAt(plan: Plan, pc: Pc, phase: Phase) {
    pc.Running? && pc.phase == phase && pc.i < |plan.m.order| && plan.m.order[pc.i] in plan.m.checksums
  }

  predicate RecoveringAt(plan: Plan, pc: Pc, stage: Stage) {
    pc.Recovering? && pc.stage == stage && pc.name in plan.cic && pc.name in plan.m.checksums
  }

  ghost predicate Enabled(plan: Plan, w: World, step: Step) {
    match step
    case BeginRun => w.pc.Idle?
    case SkipApplied => RunningAt(plan, w.pc, Next) && Current(plan, w.pc) in w.pc.applied
    case ApplyTransactional =>
      RunningAt(plan, w.pc, Next) && Current(plan, w.pc) !in w.pc.applied && Current(plan, w.pc) !in plan.m.online
    case Preflight =>
      RunningAt(plan, w.pc, Next) && Current(plan, w.pc) !in w.pc.applied && Current(plan, w.pc) in plan.cic
    case Mark =>
      || RunningAt(plan, w.pc, Checked)
      || (RunningAt(plan, w.pc, Next) && Current(plan, w.pc) !in w.pc.applied
          && Current(plan, w.pc) in plan.m.online && Current(plan, w.pc) !in plan.cic)
    case ExecuteStatement(_, _) => RunningAt(plan, w.pc, Marked) && Current(plan, w.pc) !in plan.cic
    case ExecuteIndex(_) => RunningAt(plan, w.pc, Marked) && Current(plan, w.pc) in plan.cic
    case ObserveIndex => RunningAt(plan, w.pc, Executed) && Current(plan, w.pc) in plan.cic
    case Finalise =>
      || RunningAt(plan, w.pc, Observed)
      || (RunningAt(plan, w.pc, Executed) && Current(plan, w.pc) !in plan.cic)
    case BeginRecovery(n) => w.pc.Idle?
    case InspectIndex => RecoveringAt(plan, w.pc, Inspecting)
    case DropIndex(_) => RecoveringAt(plan, w.pc, Dropping)
    case RecreateIndex(_) => RecoveringAt(plan, w.pc, Creating)
    case ConfirmIndex => RecoveringAt(plan, w.pc, Created)
    case FinaliseRecovery => RecoveringAt(plan, w.pc, Confirmed)
    case Crash => true
  }

  /** CREATE INDEX CONCURRENTLY: a name already taken is an error that changes nothing. */
  function CreateIndex(db: Db, t: Target, ddl: Ddl): (Db, bool) {
    if t.index in db.catalog then (db, false)
    else match ddl
      case Done => (db.(catalog := db.catalog[t.index := Relation(true, t.table, true, true, true)]), true)
      case FailsClean => (db, false)
      case FailsInvalid(v, r, l) => (db.(catalog := db.catalog[t.index := Relation(true, t.table, v, r, l)]), false)
  }

  /** DROP INDEX CONCURRENTLY: a failure may leave the index in any state of disrepair. */
  function RemoveIndex(db: Db, t: Target, ddl: Ddl): (Db, bool) {
    match ddl
    case Done => (db.(catalog := db.catalog - {t.index}), true)
    case FailsClean => (db, false)
    case FailsInvalid(v, r, l) =>
      (if t.index in db.catalog
       then db.(catalog := db.catalog[t.index := db.catalog[t.index].(valid := v, ready := r, live := l)])
       else db,
       false)
  }

  /** Replaces the sentinel by the plain checksum; anything else in the row is an error. */
  function Finalised(db: Db, n: Name, sum: Sum): (Db, bool) {
    if n in db.rows && db.rows[n] == Recovery(sum) then (db.(rows := db.rows[n := Plain(sum)]), true) else (db, false)
  }

  /** Whether the baseline schema creates an index of this name, and for which migration. */
  ghost predicate FromBaseline(plan: Plan, x: Index) {
    exists n :: n in BaselineIndexed(plan) && plan.cic[n].index == x
  }

  ghost function BaselineRelation(plan: Plan, x: Index): Relation
    requires FromBaseline(plan, x)
  {
    var n :| n in BaselineIndexed(plan) && plan.cic[n].index == x;
    Relation(true, plan.cic[n].table, true, true, true)
  }

  ghost function BaselineIndexes(plan: Plan): set<Index> {
    set n | n in BaselineIndexed(plan) :: plan.cic[n].index
  }

  /** The baseline schema takes effect on a fresh database, all of it or, when an index name is
      taken, none. */
  ghost predicate SchemaFits(plan: Plan, db: Db) {
    db.hasSchema || BaselineIndexes(plan) !! db.catalog.Keys
  }

  ghost function Bootstrapped(plan: Plan, db: Db): Db {
    if db.hasSchema then db
    else db.(
      hasSchema := true, ran := db.ran + BaselineNames(plan.m),
      effects := map n | n in db.effects.Keys + BaselineNames(plan.m) ::
        Times(db, n) + (if n in BaselineNames(plan.m) then 1 else 0),
      catalog := map x | x in db.catalog.Keys + BaselineIndexes(plan) ::
        if FromBaseline(plan, x) then BaselineRelation(plan, x) else db.catalog[x])
  }

  ghost function Apply(plan: Plan, w: World, step: Step): World
    requires Enabled(plan, w, step)
  {
    var (db, pc) := (w.db, w.pc);
    match step
    case BeginRun =>
      if Accepts(plan.m, db.rows, true) && SchemaFits(plan, db) then
        var rows := Prepared(plan.m, db.rows, !db.hasSchema);
        World(Bootstrapped(plan, db).(rows := rows), Running(rows, 0, Next))
      else w
    case SkipApplied => w.(pc := pc.(i := pc.i + 1))
    case ApplyTransactional =>
      var n := Current(plan, pc);
      if n in db.rows then World(db, Idle)
      else
        var row := Plain(plan.m.checksums[n]);
        World(Effect(db, n).(rows := db.rows[n := row], ran := db.ran + {n}),
              Running(pc.applied[n := row], pc.i + 1, Next))
    case Preflight =>
      if plan.cic[Current(plan, pc)].index in db.catalog then World(db, Idle) else w.(pc := pc.(phase := Checked))
    case Mark =>
      var n := Current(plan, pc);
      if n in db.rows then World(db, Idle)
      else World(db.(rows := db.rows[n := Recovery(plan.m.checksums[n])], ran := db.ran + {n}),
                 pc.(phase := Marked))
    case ExecuteStatement(ok, effective) =>
      World(if ok || effective then Effect(db, Current(plan, pc)) else db, if ok then pc.(phase := Executed) else Idle)
    case ExecuteIndex(ddl) =>
      var (after, ok) := CreateIndex(db, plan.cic[Current(plan, pc)], ddl);
      World(after, if ok then pc.(phase := Executed) else Idle)
    case ObserveIndex =>
      World(db, if Complete(db, plan.cic[Current(plan, pc)]) then pc.(phase := Observed) else Idle)
    case Finalise =>
      var n := Current(plan, pc);
      var sum := plan.m.checksums[n];
      var (after, ok) := Finalised(db, n, sum);
      World(after, if ok then Running(pc.applied[n := Plain(sum)], pc.i + 1, Next) else Idle)
    case BeginRecovery(n) =>
      if n in plan.cic && n in plan.m.checksums && n in db.rows && db.rows[n] == Recovery(plan.m.checksums[n])
      then World(db, Recovering(n, Inspecting)) else w
    case InspectIndex =>
      var t := plan.cic[pc.name];
      World(db, if t.index !in db.catalog then pc.(stage := Creating)
                else if IsTarget(db.catalog[t.index], t) then pc.(stage := Dropping) else Idle)
    case DropIndex(ddl) =>
      var (after, ok) := RemoveIndex(db, plan.cic[pc.name], ddl);
      World(after, if ok then pc.(stage := Creating) else Idle)
    case RecreateIndex(ddl) =>
      var (after, ok) := CreateIndex(db, plan.cic[pc.name], ddl);
      World(after, if ok then pc.(stage := Created) else Idle)
    case ConfirmIndex => World(db, if Complete(db, plan.cic[pc.name]) then pc.(stage := Confirmed) else Idle)
    case FinaliseRecovery => World(Finalised(db, pc.name, plan.m.checksums[pc.name]).0, Idle)
    case Crash => World(db, Idle)
  }

  ghost predicate Possible(plan: Plan, w: World, steps: seq<Step>)
    decreases |steps|
  {
    steps == [] || (Enabled(plan, w, steps[0]) && Possible(plan, Apply(plan, w, steps[0]), steps[1..]))
  }

  ghost function Run(plan: Plan, w: World, steps: seq<Step>): World
    requires Possible(plan, w, steps)
    decreases |steps|
  {
    if steps == [] then w else Run(plan, Apply(plan, w, steps[0]), steps[1..])
  }

  // ---- the invariant ----

  /** Apart from at most one named sentinel, the history is in order. */
  ghost predicate RowsInv(plan: Plan, rows: Rows, sentinel: Option<Name>) {
    && (forall n :: n in rows && rows[n].Recovery? ==> sentinel == Some(n))
    && (sentinel.Some? ==>
          && sentinel.value in plan.m.online && sentinel.value in plan.m.checksums
          && sentinel.value in rows && rows[sentinel.value] == Recovery(plan.m.checksums[sentinel.value]))
  }

  /** A sentinel of a concurrent-index migration never stands in the way of its own recovery,
      and never shares its index with a finished one. */
  ghost predicate SentinelInv(plan: Plan, db: Db, n: Name) {
    n in plan.cic ==>
      && (plan.cic[n].index in db.catalog ==> IsTarget(db.catalog[plan.cic[n].index], plan.cic[n]))
      && (forall k :: k in db.ran && k in plan.cic && k != n ==> plan.cic[k].index != plan.cic[n].index)
  }

  /** A run's row is in force only with its effect. */
  ghost predicate EffectInv(plan: Plan, db: Db, n: Name) {
    && n in db.rows && !db.rows[n].Null? && Times(db, n) <= 1
    && (db.rows[n].Plain? ==> if n in plan.cic then Complete(db, plan.cic[n]) else Times(db, n) == 1)
    && (n !in plan.m.online ==> db.rows[n].Plain? && Times(db, n) == 1)
  }

  ghost predicate DbInv(plan: Plan, db: Db, sentinel: Option<Name>) {
    && RowsInv(plan, db.rows, sentinel)
    && (sentinel.Some? ==> sentinel.value in db.ran && SentinelInv(plan, db, sentinel.value))
    && (forall n :: n in db.ran ==> EffectInv(plan, db, n))
    && (forall n :: n !in db.ran ==> Times(db, n) == 0)
    && (!db.hasSchema ==> db.ran == {} && db.effects == map[])
  }

  /** What a program point knows about the database. */
  ghost predicate PcInv(plan: Plan, db: Db, pc: Pc, sentinel: Option<Name>) {
    match pc
    case Idle => true
    case Running(applied, i, phase) =>
      && db.hasSchema && i <= |plan.m.order| && Accepts(plan.m, applied, false)
      && (forall k :: 0 <= k < i ==> plan.m.order[k] in applied)
      && (phase.Next? ==> db.rows == applied)
      && (phase != Next ==>
            i < |plan.m.order| && plan.m.order[i] in plan.m.online && plan.m.order[i] in plan.m.checksums
            && plan.m.order[i] !in applied)
      && (phase.Checked? ==>
            db.rows == applied && plan.m.order[i] in plan.cic && plan.cic[plan.m.order[i]].index !in db.catalog)
      && (phase.Marked? || phase.Executed? || phase.Observed? ==>
            sentinel == Some(plan.m.order[i])
            && db.rows == applied[plan.m.order[i] := Recovery(plan.m.checksums[plan.m.order[i]])])
      && (phase.Marked? && plan.m.order[i] !in plan.cic ==> Times(db, plan.m.order[i]) == 0)
      && (phase.Executed? && plan.m.order[i] !in plan.cic ==> Times(db, plan.m.order[i]) == 1)
      && (phase.Observed? ==> plan.m.order[i] in plan.cic && Complete(db, plan.cic[plan.m.order[i]]))
    case Recovering(n, stage) =>
      && n in plan.cic && sentinel == Some(n)
      && (stage.Creating? ==> plan.cic[n].index !in db.catalog)
      && (stage.Confirmed? ==> Complete(db, plan.cic[n]))
  }

  ghost predicate Inv(plan: Plan, w: World, sentinel: Option<Name>) {
    DbInv(plan, w.db, sentinel) && PcInv(plan, w.db, w.pc, sentinel)
  }

  /** The sentinel after a step. */
  ghost function NextSentinel(plan: Plan, w: World, step: Step, sentinel: Option<Name>): Option<Name>
    requires Enabled(plan, w, step)
  {
    match step
    case Mark => if Current(plan, w.pc) in w.db.rows then sentinel else Some(Current(plan, w.pc))
    case Finalise => None
    case FinaliseRecovery => None
    case _ => sentinel
  }

  lemma {:induction false} QuietKeepsInv(plan: Plan, w: World, step: Step, sentinel: Option<Name>)
    requires WellPlanned(plan) && Inv(plan, w, sentinel) && Enabled(plan, w, step)
    requires step.SkipApplied? || step.Preflight? || step.ObserveIndex? || step.BeginRecovery? || step.InspectIndex?
             || step.ConfirmIndex? || step.Crash?
    ensures Inv(plan, Apply(plan, w, step), NextSentinel(plan, w, step, sentinel))
  {
  }

  /** The baseline schema and its rows, on a fresh database: every row it brings has its effect. */
  lemma {:induction false} BaselineKeepsEffect(plan: Plan, db: Db, n: Name)
    requires WellPlanned(plan) && WellFormed(plan.m) && !db.hasSchema && db.ran == {} && db.effects == map[]
    requires SchemaFits(plan, db) && Accepts(plan.m, db.rows, true) && n in BaselineNames(plan.m)
    ensures EffectInv(plan, Bootstrapped(plan, db).(rows := Prepared(plan.m, db.rows, true)), n)
  {
    BaselineExactly(plan.m, n);
    if n in plan.cic {
      var x := plan.cic[n].index;
      assert n in BaselineIndexed(plan) && FromBaseline(plan, x) && x in BaselineIndexes(plan);
    }
  }

  lemma {:induction false} BootstrapKeepsDb(plan: Plan, db: Db)
    requires WellPlanned(plan) && WellFormed(plan.m) && DbInv(plan, db, None) && !db.hasSchema
    requires SchemaFits(plan, db) && Accepts(plan.m, db.rows, true)
    ensures DbInv(plan, Bootstrapped(plan, db).(rows := Prepared(plan.m, db.rows, true)), None)
  {
    forall n | n in BaselineNames(plan.m)
      ensures EffectInv(plan, Bootstrapped(plan, db).(rows := Prepared(plan.m, db.rows, true)), n)
    {
      BaselineKeepsEffect(plan, db, n);
    }
  }

  lemma {:induction false} PreparingKeepsDb(plan: Plan, db: Db)
    requires WellPlanned(plan) && WellFormed(plan.m) && DbInv(plan, db, None) && db.hasSchema
    requires Accepts(plan.m, db.rows, true)
    ensures DbInv(plan, db.(rows := Prepared(plan.m, db.rows, false)), None)
  {
    PreparedIsAccepted(plan.m, db.rows, false);
  }

  lemma {:induction false} AcceptedHasNoSentinel(plan: Plan, db: Db, sentinel: Option<Name>)
    requires DbInv(plan, db, sentinel) && Accepts(plan.m, db.rows, true)
    ensures sentinel == None
  {
  }

  lemma {:induction false} BeginRunKeepsInv(plan: Plan, w: World, step: Step, sentinel: Option<Name>)
    requires WellPlanned(plan) && Inv(plan, w, sentinel) && Enabled(plan, w, step)
    requires step.BeginRun? && WellFormed(plan.m)
    ensures Inv(plan, Apply(plan, w, step), NextSentinel(plan, w, step, sentinel))
  {
    if Accepts(plan.m, w.db.rows, true) && SchemaFits(plan, w.db) {
      AcceptedHasNoSentinel(plan, w.db, sentinel);
      PreparedIsAccepted(plan.m, w.db.rows, !w.db.hasSchema);
      if w.db.hasSchema {
        PreparingKeepsDb(plan, w.db);
      } else {
        BootstrapKeepsDb(plan, w.db);
      }
    }
  }

  /** An effect and its row, committed together. */
  lemma {:induction false} EffectWithRowKeepsDb(plan: Plan, db: Db, n: Name, sentinel: Option<Name>)
    requires WellPlanned(plan) && DbInv(plan, db, sentinel) && n in plan.m.checksums
    requires n !in db.rows && n !in plan.m.online && db.hasSchema
    ensures DbInv(plan, Effect(db, n).(rows := db.rows[n := Plain(plan.m.checksums[n])], ran := db.ran + {n}), sentinel)
  {
  }

  lemma {:induction false} ApplyTransactionalKeepsInv(plan: Plan, w: World, step: Step, sentinel: Option<Name>)
    requires WellPlanned(plan) && Inv(plan, w, sentinel) && Enabled(plan, w, step)
    requires step.ApplyTransactional?
    ensures Inv(plan, Apply(plan, w, step), NextSentinel(plan, w, step, sentinel))
  {
    if Current(plan, w.pc) !in w.db.rows {
      EffectWithRowKeepsDb(plan, w.db, Current(plan, w.pc), sentinel);
      NextKeepsPc(plan, Apply(plan, w, step).db, w.pc.applied, w.pc.i, sentinel);
    }
  }

  /** A sentinel may be added where there is none, for an index nobody has. */
  lemma {:induction false} SentinelKeepsDb(plan: Plan, db: Db, n: Name)
    requires WellPlanned(plan) && DbInv(plan, db, None) && n in plan.m.checksums && db.hasSchema
    requires n !in db.rows && n in plan.m.online && (n in plan.cic ==> plan.cic[n].index !in db.catalog)
    ensures DbInv(plan, db.(rows := db.rows[n := Recovery(plan.m.checksums[n])], ran := db.ran + {n}), Some(n))
  {
  }

  lemma {:induction false} MarkKeepsInv(plan: Plan, w: World, step: Step, sentinel: Option<Name>)
    requires WellPlanned(plan) && Inv(plan, w, sentinel) && Enabled(plan, w, step)
    requires step.Mark?
    ensures Inv(plan, Apply(plan, w, step), NextSentinel(plan, w, step, sentinel))
  {
    assert Accepts(plan.m, w.db.rows, false);
    SentinelKeepsDb(plan, w.db, Current(plan, w.pc));
  }

  lemma {:induction false} ExecuteStatementKeepsInv(plan: Plan, w: World, step: Step, sentinel: Option<Name>)
    requires WellPlanned(plan) && Inv(plan, w, sentinel) && Enabled(plan, w, step)
    requires step.ExecuteStatement?
    ensures Inv(plan, Apply(plan, w, step), NextSentinel(plan, w, step, sentinel))
  {
  }

  /** Work on the sentinel's own index disturbs no finished migration. */
  lemma {:induction false} OwnIndexKeepsDb(plan: Plan, db: Db, n: Name, after: Db)
    requires DbInv(plan, db, Some(n)) && n in plan.cic
    requires after == db.(catalog := after.catalog)
    requires after.catalog - {plan.cic[n].index} == db.catalog - {plan.cic[n].index}
    requires plan.cic[n].index in after.catalog ==> IsTarget(after.catalog[plan.cic[n].index], plan.cic[n])
    ensures DbInv(plan, after, Some(n))
  {
    forall k | k in db.ran
      ensures EffectInv(plan, after, k)
    {
      assert EffectInv(plan, db, k);
      if k in plan.cic && k != n && Complete(db, plan.cic[k]) {
        assert plan.cic[k].index in db.catalog - {plan.cic[n].index};
        assert plan.cic[k].index in after.catalog - {plan.cic[n].index};
      }
    }
  }

  lemma {:induction false} ExecuteIndexKeepsInv(plan: Plan, w: World, step: Step, sentinel: Option<Name>)
    requires WellPlanned(plan) && Inv(plan, w, sentinel) && Enabled(plan, w, step)
    requires step.ExecuteIndex?
    ensures Inv(plan, Apply(plan, w, step), NextSentinel(plan, w, step, sentinel))
  {
    OwnIndexKeepsDb(plan, w.db, Current(plan, w.pc), Apply(plan, w, step).db);
  }

  /** Finalising is safe once the effect is there. */
  lemma {:induction false} FinalisedKeepsDb(plan: Plan, db: Db, n: Name)
    requires WellPlanned(plan) && DbInv(plan, db, Some(n))
    requires if n in plan.cic then Complete(db, plan.cic[n]) else Times(db, n) == 1
    ensures Finalised(db, n, plan.m.checksums[n]).1
    ensures DbInv(plan, Finalised(db, n, plan.m.checksums[n]).0, None)
  {
  }

  lemma {:induction false} FinaliseWrites(plan: Plan, w: World, sentinel: Option<Name>)
    requires Inv(plan, w, sentinel) && Enabled(plan, w, Finalise)
    ensures var n := Current(plan, w.pc);
      var row := Plain(plan.m.checksums[n]);
      && sentinel == Some(n) && (if n in plan.cic then Complete(w.db, plan.cic[n]) else Times(w.db, n) == 1)
      && Apply(plan, w, Finalise)
         == World(w.db.(rows := w.pc.applied[n := row]), Running(w.pc.applied[n := row], w.pc.i + 1, Next))
  {
    var n := Current(plan, w.pc);
    var row := Plain(plan.m.checksums[n]);
    assert w.db.rows[n := row] == w.pc.applied[n := row];
  }

  lemma {:induction false} FinaliseKeepsInv(plan: Plan, w: World, step: Step, sentinel: Option<Name>)
    requires WellPlanned(plan) && Inv(plan, w, sentinel) && Enabled(plan, w, step)
    requires step.Finalise?
    ensures Inv(plan, Apply(plan, w, step), NextSentinel(plan, w, step, sentinel))
  {
    FinaliseWrites(plan, w, sentinel);
    FinalisedKeepsDb(plan, w.db, Current(plan, w.pc));
    NextKeepsPc(plan, Apply(plan, w, step).db, w.pc.applied, w.pc.i, None);
  }

  /** A run goes on to the next migration once the dictionary holds this one's row. */
  lemma {:induction false} NextKeepsPc(plan: Plan, db: Db, applied: Rows, i: nat, sentinel: Option<Name>)
    requires i < |plan.m.order| && plan.m.order[i] in plan.m.checksums && Accepts(plan.m, applied, false)
    requires db.hasSchema
    requires forall k :: 0 <= k < i ==> plan.m.order[k] in applied
    ensures var more := applied[plan.m.order[i] := Plain(plan.m.checksums[plan.m.order[i]])];
      db.rows == more ==> PcInv(plan, db, Running(more, i + 1, Next), sentinel)
  {
  }

  lemma {:induction false} DropIndexKeepsInv(plan: Plan, w: World, step: Step, sentinel: Option<Name>)
    requires WellPlanned(plan) && Inv(plan, w, sentinel) && Enabled(plan, w, step)
    requires step.DropIndex?
    ensures Inv(plan, Apply(plan, w, step), NextSentinel(plan, w, step, sentinel))
  {
    OwnIndexKeepsDb(plan, w.db, w.pc.name, Apply(plan, w, step).db);
  }

  lemma {:induction false} RecreateIndexKeepsInv(plan: Plan, w: World, step: Step, sentinel: Option<Name>)
    requires WellPlanned(plan) && Inv(plan, w, sentinel) && Enabled(plan, w, step)
    requires step.RecreateIndex?
    ensures Inv(plan, Apply(plan, w, step), NextSentinel(plan, w, step, sentinel))
  {
    OwnIndexKeepsDb(plan, w.db, w.pc.name, Apply(plan, w, step).db);
  }

  lemma {:induction false} FinaliseRecoveryKeepsInv(plan: Plan, w: World, step: Step, sentinel: Option<Name>)
    requires WellPlanned(plan) && Inv(plan, w, sentinel) && Enabled(plan, w, step)
    requires step.FinaliseRecovery?
    ensures Inv(plan, Apply(plan, w, step), NextSentinel(plan, w, step, sentinel))
  {
    FinalisedKeepsDb(plan, w.db, w.pc.name);
  }

  lemma {:induction false} StepKeepsInv(plan: Plan, w: World, step: Step, sentinel: Option<Name>)
    requires WellPlanned(plan) && WellFormed(plan.m) && Inv(plan, w, sentinel) && Enabled(plan, w, step)
    ensures Inv(plan, Apply(plan, w, step), NextSentinel(plan, w, step, sentinel))
  {
    match step
    case BeginRun => BeginRunKeepsInv(plan, w, step, sentinel);
    case ApplyTransactional => ApplyTransactionalKeepsInv(plan, w, step, sentinel);
    case Mark => MarkKeepsInv(plan, w, step, sentinel);
    case ExecuteStatement(_, _) => ExecuteStatementKeepsInv(plan, w, step, sentinel);
    case ExecuteIndex(_) => ExecuteIndexKeepsInv(plan, w, step, sentinel);
    case Finalise => FinaliseKeepsInv(plan, w, step, sentinel);
    case DropIndex(_) => DropIndexKeepsInv(plan, w, step, sentinel);
    case RecreateIndex(_) => RecreateIndexKeepsInv(plan, w, step, sentinel);
    case FinaliseRecovery => FinaliseRecoveryKeepsInv(plan, w, step, sentinel);
    case _ => QuietKeepsInv(plan, w, step, sentinel);
  }

  lemma {:induction false} RunKeepsInv(plan: Plan, w: World, steps: seq<Step>, before: Option<Name>)
    returns (after: Option<Name>)
    requires WellPlanned(plan) && WellFormed(plan.m) && Inv(plan, w, before) && Possible(plan, w, steps)
    ensures Inv(plan, Run(plan, w, steps), after)
    decreases |steps|
  {
    after := before;
    if steps != [] {
      StepKeepsInv(plan, w, steps[0], before);
      after := RunKeepsInv(plan, Apply(plan, w, steps[0]), steps[1..], NextSentinel(plan, w, steps[0], before));
    }
  }

  // ---- what survives every crash ----

  /** A database no run has touched yet: any tracked history without a sentinel, any catalog. */
  ghost predicate Initial(db: Db) {
    db.effects == map[] && db.ran == {} && forall n :: n in db.rows ==> !db.rows[n].Recovery?
  }

  /** Whatever crashes and restarts happened, a migration that a run or the baseline schema
      brought in and that is recorded with its exact checksum has its effect in the schema: a
      concurrent-index one as a valid, ready, live index on its table, any other exactly once.
      Even a failed one of those never takes effect twice, and every effect belongs to a
      recorded migration. */
  lemma {:induction false} ChecksumMeansEffect(plan: Plan, db: Db, steps: seq<Step>, n: Name)
    requires WellPlanned(plan) && WellFormed(plan.m) && Initial(db) && Possible(plan, World(db, Idle), steps)
    ensures var d := Run(plan, World(db, Idle), steps).db;
      && (n in d.ran && n in d.rows && d.rows[n].Plain? ==>
            if n in plan.cic then Stands(d, plan.cic[n]) else Times(d, n) == 1)
      && (n !in plan.m.online ==> Times(d, n) == if n in d.ran then 1 else 0)
      && Times(d, n) <= 1 && (Times(d, n) == 1 ==> n in d.ran && n in d.rows)
  {
    var sentinel := RunKeepsInv(plan, World(db, Idle), steps, None);
  }

  // ---- from a fresh database: every row ----

  /** Nothing is recorded without its effect, and the tombstone precedes its successor. */
  ghost predicate NothingAdopted(db: Db) {
    && db.rows.Keys <= db.ran && (!db.hasSchema ==> db.rows == map[])
    && (TOMBSTONE_PREREQUISITE in db.rows ==> TOMBSTONE in db.rows)
  }

  lemma {:induction false} TombstoneIsFirst(m: Manifest, i: nat) returns (j: nat)
    requires WellFormed(m) && Ascending(m.order) && i < |m.order| && m.order[i] == TOMBSTONE_PREREQUISITE
    ensures j < i && m.order[j] == TOMBSTONE
  {
    assert m.order[i] in Members(m.order) && TOMBSTONE in Members(m.order);
    j :| 0 <= j < |m.order| && m.order[j] == TOMBSTONE;
    TombstoneIsAtMost();
    AscendingAtMost(m.order, j, i);
  }

  lemma {:induction false} TombstoneIsAtMost()
    ensures AtMost(TOMBSTONE, TOMBSTONE_PREREQUISITE)
  {
    var a, b := TOMBSTONE, TOMBSTONE_PREREQUISITE;
    assert a[1..][0] == b[1..][0] && a[1..][1..][0] < b[1..][1..][0];
  }

  lemma {:induction false} TombstoneInBaseline(m: Manifest)
    requires WellFormed(m) && TOMBSTONE_PREREQUISITE in BaselineNames(m)
    ensures TOMBSTONE in BaselineNames(m)
  {
    BaselineExactly(m, TOMBSTONE_PREREQUISITE);
    BaselineExactly(m, TOMBSTONE);
    TombstoneIsAtMost();
    AtMostIsTransitive(TOMBSTONE, TOMBSTONE_PREREQUISITE, m.incorporatedThrough);
  }

  lemma {:induction false} BeginKeepsAdopted(plan: Plan, w: World)
    requires WellPlanned(plan) && WellFormed(plan.m) && NothingAdopted(w.db) && w.pc.Idle?
    ensures NothingAdopted(Apply(plan, w, BeginRun).db)
  {
    if TOMBSTONE_PREREQUISITE in BaselineNames(plan.m) {
      TombstoneInBaseline(plan.m);
    }
    forall n | n in plan.m.checksums
      ensures n in BaselineNames(plan.m) <==> InBaseline(plan.m, n)
    {
      BaselineExactly(plan.m, n);
    }
  }

  lemma {:induction false} RowStepKeepsAdopted(plan: Plan, w: World, step: Step, sentinel: Option<Name>)
    requires WellPlanned(plan) && WellFormed(plan.m) && Ascending(plan.m.order)
    requires PcInv(plan, w.db, w.pc, sentinel) && NothingAdopted(w.db) && Enabled(plan, w, step)
    requires step.ApplyTransactional? || step.Mark?
    ensures NothingAdopted(Apply(plan, w, step).db)
  {
    if Current(plan, w.pc) == TOMBSTONE_PREREQUISITE {
      var j := TombstoneIsFirst(plan.m, w.pc.i);
      assert plan.m.order[j] in w.pc.applied;
    }
  }

  lemma {:induction false} OtherStepAddsNoRow(plan: Plan, w: World, step: Step)
    requires Enabled(plan, w, step) && !step.BeginRun? && !step.ApplyTransactional? && !step.Mark?
    ensures var d := Apply(plan, w, step).db;
      d.rows.Keys == w.db.rows.Keys && d.ran == w.db.ran && d.hasSchema == w.db.hasSchema
  {
  }

  lemma {:induction false} StepKeepsAdopted(plan: Plan, w: World, step: Step, sentinel: Option<Name>)
    requires WellPlanned(plan) && WellFormed(plan.m) && Ascending(plan.m.order)
    requires Inv(plan, w, sentinel) && NothingAdopted(w.db) && Enabled(plan, w, step)
    ensures NothingAdopted(Apply(plan, w, step).db)
  {
    if step.BeginRun? {
      BeginKeepsAdopted(plan, w);
    } else if step.ApplyTransactional? || step.Mark? {
      RowStepKeepsAdopted(plan, w, step, sentinel);
    } else {
      OtherStepAddsNoRow(plan, w, step);
      assert !w.db.hasSchema ==> w.db.rows.Keys == {};
    }
  }

  lemma {:induction false} RunKeepsAdopted(plan: Plan, w: World, steps: seq<Step>, sentinel: Option<Name>)
    requires WellPlanned(plan) && WellFormed(plan.m) && Ascending(plan.m.order)
    requires Inv(plan, w, sentinel) && NothingAdopted(w.db) && Possible(plan, w, steps)
    ensures NothingAdopted(Run(plan, w, steps).db)
    decreases |steps|
  {
    if steps != [] {
      StepKeepsAdopted(plan, w, steps[0], sentinel);
      StepKeepsInv(plan, w, steps[0], sentinel);
      RunKeepsAdopted(plan, Apply(plan, w, steps[0]), steps[1..], NextSentinel(plan, w, steps[0], sentinel));
    }
  }

  /** From an empty database on, with a manifest in ascending order, every row with an exact
      checksum has its effect, whether a run or the baseline schema brought it: a complete
      index, or the SQL exactly once. */
  lemma {:induction false} EveryRowHasItsEffect(
      plan: Plan, catalog: map<Index, Relation>, steps: seq<Step>, n: Name)
    requires WellPlanned(plan) && WellFormed(plan.m) && Ascending(plan.m.order)
    requires Possible(plan, World(Db(map[], false, map[], catalog, {}), Idle), steps)
    requires var d := Run(plan, World(Db(map[], false, map[], catalog, {}), Idle), steps).db;
      n in d.rows && d.rows[n].Plain?
    ensures var d := Run(plan, World(Db(map[], false, map[], catalog, {}), Idle), steps).db;
      if n in plan.cic then Stands(d, plan.cic[n]) else Times(d, n) == 1
  {
    var db := Db(map[], false, map[], catalog, {});
    RunKeepsAdopted(plan, World(db, Idle), steps, None);
    ChecksumMeansEffect(plan, db, steps, n);
  }

  /** On a fresh database a run records at once exactly the baseline positions, each with the
      effect the schema brought, and goes on to the rest. */
  lemma {:induction false} FreshRunBegins(plan: Plan, catalog: map<Index, Relation>, i: nat, b: nat)
    requires WellPlanned(plan) && WellFormed(plan.m) && Ascending(plan.m.order)
    requires i < |plan.m.order| && b < |plan.m.order| && plan.m.order[b] == plan.m.incorporatedThrough
    requires forall n :: n in BaselineIndexed(plan) ==> plan.cic[n].index !in catalog
    ensures var n := plan.m.order[i];
      var w := Apply(plan, World(Db(map[], false, map[], catalog, {}), Idle), BeginRun);
      && w.pc.Running? && w.pc.applied == w.db.rows
      && (n in w.db.rows <==> i <= b && n != "014_target_calculator_store_exclusions.sql")
      && Times(w.db, n) == (if n in w.db.rows then 1 else 0)
  {
    FreshlyPrepared(plan.m, i, b);
    BaselinePositions(plan.m, i, b);
  }

  /** In every reachable state at most one row holds a sentinel, with its exact checksum; and
      while one does, a normal run commits nothing at all. */
  lemma {:induction false} OneSentinelBlocksRuns(plan: Plan, db: Db, steps: seq<Step>, a: Name, b: Name)
    requires WellPlanned(plan) && WellFormed(plan.m) && Initial(db) && Possible(plan, World(db, Idle), steps)
    requires var d := Run(plan, World(db, Idle), steps).db;
      a in d.rows && b in d.rows && d.rows[a].Recovery? && d.rows[b].Recovery?
    ensures var w := Run(plan, World(db, Idle), steps);
      && a == b && a in plan.m.checksums && w.db.rows[a] == Recovery(plan.m.checksums[a])
      && Apply(plan, World(w.db, Idle), BeginRun) == World(w.db, Idle)
  {
    var sentinel := RunKeepsInv(plan, World(db, Idle), steps, None);
  }

  /** A run that reaches the end of the manifest leaves a current history. */
  lemma {:induction false} FinishedRunIsCurrent(plan: Plan, db: Db, steps: seq<Step>)
    requires WellPlanned(plan) && WellFormed(plan.m) && Initial(db) && Possible(plan, World(db, Idle), steps)
    requires var w := Run(plan, World(db, Idle), steps);
      w.pc.Running? && w.pc.phase.Next? && w.pc.i == |plan.m.order|
    ensures var w := Run(plan, World(db, Idle), steps);
      w.pc.applied == w.db.rows && MigrationHistory.Current(plan.m, w.db.rows)
  {
    var sentinel := RunKeepsInv(plan, World(db, Idle), steps, None);
    var w := Run(plan, World(db, Idle), steps);
    forall n | n in plan.m.checksums
      ensures n in w.db.rows
    {
      assert n in Members(plan.m.order);
    }
  }

  lemma {:induction false} RunCons(plan: Plan, w: World, step: Step, rest: seq<Step>)
    requires Enabled(plan, w, step) && Possible(plan, Apply(plan, w, step), rest)
    ensures Possible(plan, w, [step] + rest) && Run(plan, w, [step] + rest) == Run(plan, Apply(plan, w, step), rest)
  {
    assert ([step] + rest)[1..] == rest;
  }

  predicate PendingIndex(plan: Plan, db: Db, j: nat)
    requires j < |plan.m.order|
  {
    plan.m.order[j] in plan.cic && plan.m.order[j] !in db.rows
  }

  /** The pending concurrent-index migrations from a position on find their index names free. */
  ghost predicate NamesFree(plan: Plan, db: Db, i: nat) {
    && (forall j :: i <= j < |plan.m.order| && PendingIndex(plan, db, j) ==>
          plan.cic[plan.m.order[j]].index !in db.catalog)
    && (forall j, k :: i <= j < k < |plan.m.order| && PendingIndex(plan, db, j) && PendingIndex(plan, db, k) ==>
          plan.cic[plan.m.order[j]].index != plan.cic[plan.m.order[k]].index)
  }

  /** A run about to deal with a migration of its manifest. */
  ghost predicate AtNext(plan: Plan, w: World, i: nat) {
    w.pc == Running(w.db.rows, i, Next) && i < |plan.m.order| && plan.m.order[i] in plan.m.checksums
  }

  /** The run has dealt with this migration and goes on to the next. */
  ghost predicate WentOn(plan: Plan, w: World, v: World, i: nat)
    requires AtNext(plan, w, i)
  {
    var n := plan.m.order[i];
    && v.pc == Running(v.db.rows, i + 1, Next)
    && v.db.rows == (if n in w.db.rows then w.db.rows else w.db.rows[n := Plain(plan.m.checksums[n])])
    && v.db.catalog.Keys == w.db.catalog.Keys
         + (if n in plan.cic && n !in w.db.rows then {plan.cic[n].index} else {})
  }

  lemma {:induction false} TransactionalGoesOn(plan: Plan, w: World, i: nat) returns (steps: seq<Step>)
    requires AtNext(plan, w, i) && plan.m.order[i] !in plan.m.online && plan.cic.Keys <= plan.m.online
    ensures Possible(plan, w, steps) && WentOn(plan, w, Run(plan, w, steps), i)
  {
    var step := if plan.m.order[i] in w.db.rows then SkipApplied else ApplyTransactional;
    RunCons(plan, w, step, []);
    steps := [step] + [];
  }

  lemma {:induction false} OnlineGoesOn(plan: Plan, w: World, i: nat) returns (steps: seq<Step>)
    requires AtNext(plan, w, i) && plan.m.order[i] in plan.m.online && plan.m.order[i] !in plan.cic
    ensures Possible(plan, w, steps) && WentOn(plan, w, Run(plan, w, steps), i)
  {
    var n := plan.m.order[i];
    if n in w.db.rows {
      RunCons(plan, w, SkipApplied, []);
      steps := [SkipApplied] + [];
    } else {
      var w1 := Apply(plan, w, Mark);
      var w2 := Apply(plan, w1, ExecuteStatement(true, true));
      RunCons(plan, w2, Finalise, []);
      steps := [Finalise] + [];
      RunCons(plan, w1, ExecuteStatement(true, true), steps);
      steps := [ExecuteStatement(true, true)] + steps;
      RunCons(plan, w, Mark, steps);
      steps := [Mark] + steps;
    }
  }

  /** From the sentinel on: the index is created, observed and recorded. */
  lemma {:induction false} MarkedIndexGoesOn(plan: Plan, w: World, applied: Rows, i: nat) returns (steps: seq<Step>)
    requires w.pc == Running(applied, i, Marked) && i < |plan.m.order| && plan.m.order[i] in plan.m.checksums
    requires plan.m.order[i] in plan.cic && plan.cic[plan.m.order[i]].index !in w.db.catalog
    requires w.db.rows == applied[plan.m.order[i] := Recovery(plan.m.checksums[plan.m.order[i]])]
    ensures Possible(plan, w, steps)
    ensures var n, v := plan.m.order[i], Run(plan, w, steps);
      && v.pc == Running(v.db.rows, i + 1, Next) && v.db.rows == applied[n := Plain(plan.m.checksums[n])]
      && v.db.catalog.Keys == w.db.catalog.Keys + {plan.cic[n].index}
  {
    var w1 := Apply(plan, w, ExecuteIndex(Done));
    var w2 := Apply(plan, w1, ObserveIndex);
    RunCons(plan, w2, Finalise, []);
    steps := [Finalise] + [];
    RunCons(plan, w1, ObserveIndex, steps);
    steps := [ObserveIndex] + steps;
    RunCons(plan, w, ExecuteIndex(Done), steps);
    steps := [ExecuteIndex(Done)] + steps;
  }

  lemma {:induction false} IndexGoesOn(plan: Plan, w: World, i: nat) returns (steps: seq<Step>)
    requires AtNext(plan, w, i) && plan.m.order[i] in plan.m.online && plan.m.order[i] in plan.cic
    requires plan.m.order[i] !in w.db.rows ==> plan.cic[plan.m.order[i]].index !in w.db.catalog
    ensures Possible(plan, w, steps) && WentOn(plan, w, Run(plan, w, steps), i)
  {
    if plan.m.order[i] in w.db.rows {
      RunCons(plan, w, SkipApplied, []);
      steps := [SkipApplied] + [];
    } else {
      var w1 := Apply(plan, w, Preflight);
      var w2 := Apply(plan, w1, Mark);
      steps := MarkedIndexGoesOn(plan, w2, w.db.rows, i);
      RunCons(plan, w1, Mark, steps);
      steps := [Mark] + steps;
      RunCons(plan, w, Preflight, steps);
      steps := [Preflight] + steps;
    }
  }

  lemma {:induction false} RunAppends(plan: Plan, w: World, a: seq<Step>, b: seq<Step>)
    requires Possible(plan, w, a) && Possible(plan, Run(plan, w, a), b)
    ensures Possible(plan, w, a + b) && Run(plan, w, a + b) == Run(plan, Run(plan, w, a), b)
    decreases |a|
  {
    if a == [] {
      assert a + b == b;
    } else {
      RunAppends(plan, Apply(plan, w, a[0]), a[1..], b);
      assert (a + b)[1..] == a[1..] + b;
    }
  }

  lemma {:induction false} WentOnKeepsFree(plan: Plan, w: World, v: World, i: nat)
    requires AtNext(plan, w, i) && WentOn(plan, w, v, i) && NamesFree(plan, w.db, i)
    ensures NamesFree(plan, v.db, i + 1)
  {
  }

  /** A run that nothing disturbs gets to the end of the manifest. */
  lemma {:induction false} RunGoesOn(plan: Plan, w: World, i: nat) returns (steps: seq<Step>)
    requires WellPlanned(plan) && w.pc == Running(w.db.rows, i, Next) && i <= |plan.m.order| && NamesFree(plan, w.db, i)
    ensures Possible(plan, w, steps)
    ensures Run(plan, w, steps).pc == Running(Run(plan, w, steps).db.rows, |plan.m.order|, Next)
    decreases |plan.m.order| - i
  {
    steps := [];
    if i < |plan.m.order| {
      var n := plan.m.order[i];
      assert n in Members(plan.m.order);
      var first: seq<Step>;
      if n !in plan.m.online {
        first := TransactionalGoesOn(plan, w, i);
      } else if n !in plan.cic {
        first := OnlineGoesOn(plan, w, i);
      } else {
        first := IndexGoesOn(plan, w, i);
      }
      WentOnKeepsFree(plan, w, Run(plan, w, first), i);
      var rest := RunGoesOn(plan, Run(plan, w, first), i + 1);
      RunAppends(plan, w, first, rest);
      steps := first + rest;
    }
  }

  /** From any reachable database without a sentinel, a run whose index names are free can be
      carried to its end, and leaves a current history. */
  lemma {:induction false} RunCanFinish(plan: Plan, db: Db, steps: seq<Step>) returns (more: seq<Step>)
    requires WellPlanned(plan) && WellFormed(plan.m) && Initial(db) && Possible(plan, World(db, Idle), steps)
    requires var w := Run(plan, World(db, Idle), steps);
      && w.pc.Idle? && Accepts(plan.m, w.db.rows, true) && SchemaFits(plan, w.db)
      && NamesFree(plan, Apply(plan, w, BeginRun).db, 0)
    ensures Possible(plan, World(db, Idle), steps + more)
    ensures MigrationHistory.Current(plan.m, Run(plan, World(db, Idle), steps + more).db.rows)
  {
    var w := Run(plan, World(db, Idle), steps);
    var rest := RunGoesOn(plan, Apply(plan, w, BeginRun), 0);
    RunCons(plan, w, BeginRun, rest);
    more := [BeginRun] + rest;
    RunAppends(plan, World(db, Idle), steps, more);
    FinishedRunIsCurrent(plan, db, steps + more);
  }

  /** Recovery, left uninterrupted, from any sentinel whose index name is free or its own. */
  lemma {:induction false} RecoveryFinishes(plan: Plan, d: Db, n: Name) returns (recovery: seq<Step>)
    requires n in plan.cic && n in plan.m.checksums && n in d.rows && d.rows[n] == Recovery(plan.m.checksums[n])
    requires plan.cic[n].index in d.catalog ==> IsTarget(d.catalog[plan.cic[n].index], plan.cic[n])
    ensures Possible(plan, World(d, Idle), recovery)
    ensures var r := Run(plan, World(d, Idle), recovery).db;
      Stands(r, plan.cic[n]) && r.rows == d.rows[n := Plain(plan.m.checksums[n])]
  {
    var w0 := World(d, Idle);
    var w1 := Apply(plan, w0, BeginRecovery(n));
    var w2 := Apply(plan, w1, InspectIndex);
    var w3 := if w2.pc.stage.Dropping? then Apply(plan, w2, DropIndex(Done)) else w2;
    var w4 := Apply(plan, w3, RecreateIndex(Done));
    var w5 := Apply(plan, w4, ConfirmIndex);
    recovery := [];
    RunCons(plan, w5, FinaliseRecovery, recovery);
    recovery := [FinaliseRecovery] + recovery;
    RunCons(plan, w4, ConfirmIndex, recovery);
    recovery := [ConfirmIndex] + recovery;
    RunCons(plan, w3, RecreateIndex(Done), recovery);
    recovery := [RecreateIndex(Done)] + recovery;
    if w2.pc.stage.Dropping? {
      RunCons(plan, w2, DropIndex(Done), recovery);
      recovery := [DropIndex(Done)] + recovery;
    }
    RunCons(plan, w1, InspectIndex, recovery);
    recovery := [InspectIndex] + recovery;
    RunCons(plan, w0, BeginRecovery(n), recovery);
    recovery := [BeginRecovery(n)] + recovery;
  }

  /** However a concurrent-index migration or its recovery was cut off, recovery can be
      started again, and left uninterrupted it ends with the complete index and the exact
      checksum, every other row being as it was. */
  lemma {:induction false} InterruptedRecoveryCanBeRerun(plan: Plan, db: Db, steps: seq<Step>, n: Name)
    returns (recovery: seq<Step>)
    requires WellPlanned(plan) && WellFormed(plan.m) && Initial(db) && Possible(plan, World(db, Idle), steps)
    requires var d := Run(plan, World(db, Idle), steps).db; n in d.rows && d.rows[n].Recovery? && n in plan.cic
    ensures var d := Run(plan, World(db, Idle), steps).db;
      && n in plan.m.checksums && Possible(plan, World(d, Idle), recovery)
      && var r := Run(plan, World(d, Idle), recovery).db;
         Stands(r, plan.cic[n]) && r.rows == d.rows[n := Plain(plan.m.checksums[n])]
  {
    var sentinel := RunKeepsInv(plan, World(db, Idle), steps, None);
    recovery := RecoveryFinishes(plan, Run(plan, World(db, Idle), steps).db, n);
  }

  /** Neither a run nor a recovery gets past a sentinel of any other online migration. */
  lemma {:induction false} StuckSentinelStays(plan: Plan, d: Db, n: Name, steps: seq<Step>)
    requires n in d.rows && d.rows[n].Recovery? && n !in plan.cic
    requires forall k :: k in d.rows && d.rows[k].Recovery? ==> k == n
    requires Possible(plan, World(d, Idle), steps)
    ensures Run(plan, World(d, Idle), steps) == World(d, Idle)
    decreases |steps|
  {
    if steps != [] {
      assert Apply(plan, World(d, Idle), steps[0]) == World(d, Idle);
      StuckSentinelStays(plan, d, n, steps[1..]);
    }
  }

  /** A manifest of one plain online migration. */
  function OneOnline(n: Name, sum: Sum): Plan {
    Plan(Manifest([n], map[n := sum], {n}, {}, ""), map[])
  }

  /** Such a sentinel is reached when the first run is cut off right after marking it. */
  lemma {:induction false} StuckSentinelIsReached(n: Name, sum: Sum)
    requires n != TOMBSTONE_PREREQUISITE
    ensures WellPlanned(OneOnline(n, sum)) && WellFormed(OneOnline(n, sum).m)
    ensures var db := Db(map[], true, map[], map[], {});
      && Initial(db) && Possible(OneOnline(n, sum), World(db, Idle), [BeginRun, Mark, Crash])
      && Run(OneOnline(n, sum), World(db, Idle), [BeginRun, Mark, Crash])
         == World(db.(rows := map[n := Recovery(sum)], ran := {n}), Idle)
  {
    var plan := OneOnline(n, sum);
    var w0 := World(Db(map[], true, map[], map[], {}), Idle);
    assert plan.m.order[0] == n;
    var w1 := Apply(plan, w0, BeginRun);
    assert w1 == World(w0.db, Running(map[], 0, Next));
    var w2 := Apply(plan, w1, Mark);
    RunCons(plan, w2, Crash, []);
    RunCons(plan, w1, Mark, [Crash] + []);
    RunCons(plan, w0, BeginRun, [Mark] + ([Crash] + []));
    assert [BeginRun] + ([Mark] + ([Crash] + [])) == [BeginRun, Mark, Crash];
  }

  /** What some sequence of runs and recoveries can turn a sentinel into. */
  ghost predicate Clears(plan: Plan, d: Db, n: Name, steps: seq<Step>) {
    Possible(plan, World(d, Idle), steps)
    && var rows := Run(plan, World(d, Idle), steps).db.rows; !(n in rows && rows[n].Recovery?)
  }

  /** A sentinel can be cleared by the tools exactly when it belongs to a controlled
      concurrent-index migration. */
  lemma {:induction false} SentinelClearsExactly(plan: Plan, db: Db, steps: seq<Step>, n: Name)
    requires WellPlanned(plan) && WellFormed(plan.m) && Initial(db) && Possible(plan, World(db, Idle), steps)
    requires var d := Run(plan, World(db, Idle), steps).db; n in d.rows && d.rows[n].Recovery?
    ensures var d := Run(plan, World(db, Idle), steps).db;
      (exists more :: Clears(plan, d, n, more)) <==> n in plan.cic
  {
    var d := Run(plan, World(db, Idle), steps).db;
    if n in plan.cic {
      var recovery := InterruptedRecoveryCanBeRerun(plan, db, steps, n);
      assert Clears(plan, d, n, recovery);
    } else if more :| Clears(plan, d, n, more) {
      forall k | k in d.rows && d.rows[k].Recovery?
        ensures k == n
      {
        OneSentinelBlocksRuns(plan, db, steps, k, n);
      }
      StuckSentinelStays(plan, d, n, more);
    }
  }
}
