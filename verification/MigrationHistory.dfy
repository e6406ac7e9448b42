/** The migration tracking table: validating it, preparing it, and applying what is pending. */
module MigrationHistory {
  import opened Sequences
  import opened NameOrder

  type Sum = string

  /** A stored checksum: missing, an ordinary one, or a recovery sentinel around one. */
  datatype Stored = Null | Plain(sum: Sum) | Recovery(sum: Sum)

  type Rows = map<Name, Stored>

  datatype Manifest = Manifest(
    order: seq<Name>,
    checksums: map<Name, Sum>,
    online: set<Name>,
    maintenance: set<Name>,
    incorporatedThrough: Name)

  const TOMBSTONE: Name := "005_retail_ai_analysis_views.sql"
  const TOMBSTONE_PREREQUISITE: Name := "006_drop_ai_analysis_views.sql"
  const BASELINE_REPLAY: set<Name> := {"014_target_calculator_store_exclusions.sql"}

  ghost predicate Listed(m: Manifest) {
    && Members(m.order) == m.checksums.Keys
    && Distinct(m.order)
    && m.online <= m.checksums.Keys && m.maintenance <= m.checksums.Keys && m.online !! m.maintenance
  }

  ghost predicate WellFormed(m: Manifest) {
    Listed(m) && (TOMBSTONE_PREREQUISITE in m.checksums ==> TOMBSTONE in m.checksums)
  }

  /** Whether a fresh database already contains a migration through its baseline schema. */
  predicate InBaseline(m: Manifest, n: Name) {
    AtMost(n, m.incorporatedThrough) && n !in BASELINE_REPLAY
  }

  // ---- specification ----

  /** The history every later stage insists on. */
  ghost predicate Accepts(m: Manifest, rows: Rows, allowNull: bool) {
    forall n :: n in rows ==>
      n in m.checksums && (rows[n] == Plain(m.checksums[n]) || (allowNull && rows[n].Null?))
  }

  ghost predicate Current(m: Manifest, rows: Rows) {
    Accepts(m, rows, false) && rows.Keys == m.checksums.Keys
  }

  function Adopted(m: Manifest, rows: Rows): Rows {
    if TOMBSTONE !in rows && TOMBSTONE_PREREQUISITE in rows && TOMBSTONE in m.checksums
    then rows[TOMBSTONE := Plain(m.checksums[TOMBSTONE])] else rows
  }

  /** What preparation leaves in the table: tombstone, backfilled checksums and, on a
      fresh database, the migrations its baseline already contains. */
  ghost function Prepared(m: Manifest, rows: Rows, newDatabase: bool): Rows {
    map n | n in m.checksums && (n in Adopted(m, rows) || (newDatabase && InBaseline(m, n))) :: Plain(m.checksums[n])
  }

  /** A table with the checksums filled in that were missing when it was read. */
  function Filled(m: Manifest, read: Rows, rows: Rows): Rows {
    map n | n in rows ::
      if n in read && read[n].Null? && n in m.checksums then Plain(m.checksums[n]) else rows[n]
  }

  /** On a table that has not moved on, filling in and a strict history are the same thing. */
  lemma {:induction false} FilledIsStrict(m: Manifest, rows: Rows)
    requires Accepts(m, rows, true)
    ensures Filled(m, rows, rows) == map n | n in rows :: Plain(m.checksums[n])
    ensures Accepts(m, Filled(m, rows, rows), false)
  {
  }

  lemma {:induction false} PreparedIsAccepted(m: Manifest, rows: Rows, newDatabase: bool)
    requires WellFormed(m) && Accepts(m, rows, true)
    ensures Accepts(m, Prepared(m, rows, newDatabase), false)
    ensures rows.Keys <= Prepared(m, rows, newDatabase).Keys
  {
  }

  function PendingIn(order: seq<Name>, rows: Rows): seq<Name> {
    if order == [] then []
    else
      var last := order[|order| - 1];
      PendingIn(order[..|order| - 1], rows) + (if last in rows then [] else [last])
  }

  /** The migrations a run has to apply, in manifest order. */
  function Pending(m: Manifest, rows: Rows): seq<Name> {
    PendingIn(m.order, rows)
  }

  lemma {:induction false} NothingPending(order: seq<Name>, rows: Rows)
    requires forall n :: n in order ==> n in rows
    ensures PendingIn(order, rows) == []
  {
    if order != [] {
      NothingPending(order[..|order| - 1], rows);
    }
  }

  lemma {:induction false} PendingMembers(order: seq<Name>, rows: Rows, n: Name)
    ensures n in PendingIn(order, rows) <==> n in order && n !in rows
  {
    if order != [] {
      PendingMembers(order[..|order| - 1], rows, n);
      assert order == order[..|order| - 1] + [order[|order| - 1]];
    }
  }

  // ---- what the baseline schema contains ----

  /** The migrations a baseline schema brings with it: those named up to the incorporated one,
      except for the one that is replayed. */
  ghost function BaselineNames(m: Manifest): set<Name> {
    set n | n in m.checksums && (n == m.incorporatedThrough || Precedes(n, m.incorporatedThrough))
      && n != "014_target_calculator_store_exclusions.sql"
  }

  lemma {:induction false} BaselineExactly(m: Manifest, n: Name)
    requires n in m.checksums
    ensures n in BaselineNames(m) <==> InBaseline(m, n)
  {
    AtMostExactly(n, m.incorporatedThrough);
  }

  /** In a manifest in ascending order, they are the ones up to the incorporated position. */
  lemma {:induction false} BaselinePositions(m: Manifest, i: nat, b: nat)
    requires Listed(m) && Ascending(m.order) && i < |m.order| && b < |m.order| && m.order[b] == m.incorporatedThrough
    ensures m.order[i] in BaselineNames(m) <==> i <= b && m.order[i] != "014_target_calculator_store_exclusions.sql"
  {
    AscendingAtMost(m.order, i, b);
    AtMostExactly(m.order[i], m.order[b]);
    assert m.order[i] in Members(m.order);
  }

  /** What is left to do after the baseline up to this position. */
  function AfterBaseline(order: seq<Name>, b: nat): seq<Name>
    requires b < |order|
  {
    (if "014_target_calculator_store_exclusions.sql" in order[..b + 1]
     then ["014_target_calculator_store_exclusions.sql"] else [])
    + order[b + 1..]
  }

  lemma {:induction false} PendingAppends(xs: seq<Name>, ys: seq<Name>, rows: Rows)
    ensures PendingIn(xs + ys, rows) == PendingIn(xs, rows) + PendingIn(ys, rows)
    decreases |ys|
  {
    if ys == [] {
      assert xs + ys == xs;
    } else {
      var n := |ys| - 1;
      PendingAppends(xs, ys[..n], rows);
      assert (xs + ys)[..|xs + ys| - 1] == xs + ys[..n];
    }
  }

  lemma {:induction false} AllPending(order: seq<Name>, rows: Rows)
    requires forall n :: n in order ==> n !in rows
    ensures PendingIn(order, rows) == order
  {
    if order != [] {
      AllPending(order[..|order| - 1], rows);
    }
  }

  lemma {:induction false} OnePending(order: seq<Name>, rows: Rows, one: Name)
    requires Distinct(order) && forall n :: n in order ==> (n in rows <==> n != one)
    ensures PendingIn(order, rows) == if one in order then [one] else []
  {
    if order != [] {
      OnePending(order[..|order| - 1], rows, one);
      assert order == order[..|order| - 1] + [order[|order| - 1]];
    }
  }

  /** Preparing an empty table of a fresh database records the baseline positions only. */
  lemma {:induction false} FreshlyPrepared(m: Manifest, i: nat, b: nat)
    requires Listed(m) && Ascending(m.order) && i < |m.order| && b < |m.order| && m.order[b] == m.incorporatedThrough
    ensures m.order[i] in Prepared(m, map[], true) <==>
      i <= b && m.order[i] != "014_target_calculator_store_exclusions.sql"
  {
    assert m.order[i] in Members(m.order);
    BaselinePositions(m, i, b);
    BaselineExactly(m, m.order[i]);
  }

  lemma {:induction false} EarlyPending(m: Manifest, b: nat)
    requires Listed(m) && Ascending(m.order) && b < |m.order| && m.order[b] == m.incorporatedThrough
    ensures var early := m.order[..b + 1];
      PendingIn(early, Prepared(m, map[], true))
      == if "014_target_calculator_store_exclusions.sql" in early
         then ["014_target_calculator_store_exclusions.sql"] else []
  {
    var early, rows := m.order[..b + 1], Prepared(m, map[], true);
    forall i | 0 <= i < |early|
      ensures early[i] in rows <==> early[i] != "014_target_calculator_store_exclusions.sql"
    {
      FreshlyPrepared(m, i, b);
    }
    OnePending(early, rows, "014_target_calculator_store_exclusions.sql");
  }

  lemma {:induction false} LaterPending(m: Manifest, b: nat)
    requires Listed(m) && Ascending(m.order) && b < |m.order| && m.order[b] == m.incorporatedThrough
    ensures PendingIn(m.order[b + 1..], Prepared(m, map[], true)) == m.order[b + 1..]
  {
    var later, rows := m.order[b + 1..], Prepared(m, map[], true);
    forall i | 0 <= i < |later|
      ensures later[i] !in rows
    {
      FreshlyPrepared(m, b + 1 + i, b);
    }
    AllPending(later, rows);
  }

  /** A fresh database still needs the replayed migration and every later one, in order. */
  lemma {:induction false} FreshlyPending(m: Manifest, b: nat)
    requires Listed(m) && Ascending(m.order) && b < |m.order| && m.order[b] == m.incorporatedThrough
    ensures Pending(m, Prepared(m, map[], true)) == AfterBaseline(m.order, b)
  {
    assert m.order == m.order[..b + 1] + m.order[b + 1..];
    PendingAppends(m.order[..b + 1], m.order[b + 1..], Prepared(m, map[], true));
    EarlyPending(m, b);
    LaterPending(m, b);
  }

  /** An existing database needs what its table does not record, except for a tombstone whose
      successor it records. */
  lemma {:induction false} PendingOnExisting(m: Manifest, rows: Rows, n: Name)
    requires WellFormed(m) && Accepts(m, rows, true)
    ensures n in Pending(m, Prepared(m, rows, false)) <==>
      && n in m.order && n !in rows
      && !(n == "005_retail_ai_analysis_views.sql" && "006_drop_ai_analysis_views.sql" in rows)
  {
    PendingMembers(m.order, Prepared(m, rows, false), n);
    assert n in m.order <==> n in Members(m.order);
    assert "006_drop_ai_analysis_views.sql" in rows ==> TOMBSTONE in m.checksums;
  }

  /** What a run that succeeds has applied, for an empty table and for an existing database. */
  lemma {:induction false} AppliedIsDue(m: Manifest, rows: Rows, newDatabase: bool)
    requires WellFormed(m) && Accepts(m, rows, true)
    ensures newDatabase && rows == map[] && Ascending(m.order) ==>
      forall b :: 0 <= b < |m.order| && m.order[b] == m.incorporatedThrough ==>
        Pending(m, Prepared(m, rows, newDatabase)) == AfterBaseline(m.order, b)
    ensures !newDatabase ==> forall n :: n in Pending(m, Prepared(m, rows, newDatabase)) <==>
      && n in m.order && n !in rows
      && !(n == "005_retail_ai_analysis_views.sql" && "006_drop_ai_analysis_views.sql" in rows)
  {
    if newDatabase && rows == map[] && Ascending(m.order) {
      forall b | 0 <= b < |m.order| && m.order[b] == m.incorporatedThrough
        ensures Pending(m, Prepared(m, rows, newDatabase)) == AfterBaseline(m.order, b)
      {
        FreshlyPending(m, b);
      }
    }
    if !newDatabase {
      forall n
        ensures n in Pending(m, Prepared(m, rows, newDatabase)) <==>
          && n in m.order && n !in rows
          && !(n == "005_retail_ai_analysis_views.sql" && "006_drop_ai_analysis_views.sql" in rows)
      {
        PendingOnExisting(m, rows, n);
      }
    }
  }

  /** The table is the dictionary plus one recovery sentinel of an online migration. */
  ghost predicate LeftMarked(m: Manifest, rows: Rows, applied: Rows) {
    exists n :: n in m.online && n in m.checksums && n !in applied && rows == applied[n := Recovery(m.checksums[n])]
  }

  /** Once the history is current, the next run prepares the same table and applies nothing. */
  lemma {:induction false} CurrentHistoryIsStable(m: Manifest, rows: Rows)
    requires WellFormed(m) && Current(m, rows)
    ensures Prepared(m, rows, false) == rows && Pending(m, rows) == []
  {
    forall n | n in m.order
      ensures n in rows
    {
      assert n in Members(m.order);
    }
    NothingPending(m.order, rows);
  }

  // ---- the run itself ----

  /** How one migration goes: it takes effect, it fails without a trace, or it fails
      after its recovery sentinel was committed. */
  datatype Outcome = Succeeds | FailsCleanly | FailsMarked

  /** One invocation: the tracking table, and the dictionary it keeps in step with it. */
  class MigrationRun {
    var rows: Rows
    var applied: Rows

    constructor (table: Rows)
      ensures rows == table && applied == map[]
    {
      rows, applied := table, map[];
    }

    /** Whether a history passes validation. */
    static method ValidateApplied(m: Manifest, history: Rows, allowNull: bool) returns (ok: bool)
      ensures ok <==> Accepts(m, history, allowNull)
    {
      var left := history.Keys;
      while left != {}
        invariant left <= history.Keys
        invariant forall n :: n in history && n !in left ==>
          n in m.checksums && (history[n] == Plain(m.checksums[n]) || (allowNull && history[n].Null?))
      {
        var n :| n in left;
        if n !in m.checksums {
          return false;
        }
        if history[n].Recovery? {
          return false;
        }
        if !(history[n].Null? && allowNull) && history[n] != Plain(m.checksums[n]) {
          return false;
        }
        left := left - {n};
      }
      return true;
    }

    method AdoptTombstones(m: Manifest)
      requires WellFormed(m) && applied == rows && Accepts(m, rows, true)
      modifies this
      ensures applied == rows && rows == Adopted(m, old(rows))
    {
      if TOMBSTONE !in applied && TOMBSTONE_PREREQUISITE in applied {
        if TOMBSTONE !in rows {
          rows := rows[TOMBSTONE := Plain(m.checksums[TOMBSTONE])];
        }
        applied := applied[TOMBSTONE := Plain(m.checksums[TOMBSTONE])];
      }
    }

    /** Fills in missing checksums. The table may have moved on since the dictionary was read:
        a row that another writer completed or removed in the meantime is read again, and must
        then be there with the expected checksum. */
    method BackfillMissingChecksums(m: Manifest) returns (ok: bool)
      requires Accepts(m, applied, true)
      modifies this
      ensures ok <==> forall n :: n in old(applied) && old(applied)[n].Null? ==>
        n in old(rows) && (old(rows)[n].Null? || old(rows)[n] == Plain(m.checksums[n]))
      ensures ok ==> applied == map n | n in old(applied) :: Plain(m.checksums[n])
      ensures ok ==> rows == Filled(m, old(applied), old(rows))
    {
      var left := applied.Keys;
      while left != {}
        invariant left <= applied.Keys == old(applied).Keys && rows.Keys == old(rows).Keys
        invariant forall n :: n in left ==> applied[n] == old(applied)[n]
        invariant forall n :: n in rows && (n !in applied || n in left) ==> rows[n] == old(rows)[n]
        invariant forall n :: n in applied && n !in left ==> Backfilled(m, n, old(applied), old(rows))
      {
        var n :| n in left;
        if applied[n].Null? {
          if n in rows && rows[n].Null? {
            rows := rows[n := Plain(m.checksums[n])];
            applied := applied[n := Plain(m.checksums[n])];
          } else {
            var stored := if n in rows then rows[n] else Null;
            var valid := ValidateApplied(m, map[n := stored], false);
            if !valid {
              return false;
            }
            applied := applied[n := stored];
          }
        }
        left := left - {n};
      }
      return true;
    }

    /** A name the loop has dealt with. */
    ghost predicate Backfilled(m: Manifest, n: Name, wasApplied: Rows, wasRows: Rows)
      reads this
      requires n in m.checksums && n in wasApplied && n in applied && rows.Keys == wasRows.Keys
    {
      && applied[n] == Plain(m.checksums[n])
      && (n in rows ==> rows[n] == if wasApplied[n].Null? then Plain(m.checksums[n]) else wasRows[n])
      && (wasApplied[n].Null? ==> n in wasRows && (wasRows[n].Null? || wasRows[n] == Plain(m.checksums[n])))
    }

    method RecordFreshBaseline(m: Manifest)
      requires WellFormed(m) && applied == rows && Accepts(m, rows, false)
      modifies this
      ensures applied == rows
      ensures rows == map n | n in m.checksums && (n in old(rows) || InBaseline(m, n)) :: Plain(m.checksums[n])
    {
      for i := 0 to |m.order|
        invariant applied == rows && Accepts(m, rows, false)
        invariant forall n :: n in rows <==>
          n in old(rows) || exists k :: 0 <= k < i && m.order[k] == n && InBaseline(m, n)
      {
        var n := m.order[i];
        assert n in Members(m.order);
        if InBaseline(m, n) {
          if n !in rows {
            rows := rows[n := Plain(m.checksums[n])];
          }
          applied := applied[n := Plain(m.checksums[n])];
        }
      }
      forall n | n in m.checksums
        ensures exists k :: 0 <= k < |m.order| && m.order[k] == n
      {
        assert n in Members(m.order);
      }
    }

    /** The preparation transaction: all of it, or none of it. It succeeds exactly when the
        stored history is acceptable, and then the dictionary is the table. */
    method PrepareHistory(m: Manifest, newDatabase: bool) returns (ok: bool)
      requires WellFormed(m)
      modifies this
      ensures ok <==> Accepts(m, old(rows), true)
      ensures ok ==> applied == rows == Prepared(m, old(rows), newDatabase) && Accepts(m, rows, false)
      ensures !ok ==> rows == old(rows)
    {
      applied := rows;
      ok := ValidateApplied(m, applied, true);
      if !ok {
        return false;
      }
      AdoptTombstones(m);
      assert Accepts(m, rows, true);
      FilledIsStrict(m, rows);
      ok := BackfillMissingChecksums(m);
      assert rows.Keys == Adopted(m, old(rows)).Keys && Accepts(m, rows, false);
      if newDatabase {
        RecordFreshBaseline(m);
      }
      assert rows == Prepared(m, old(rows), newDatabase);
    }

    /** One pending migration: its row appears with its effect, or a sentinel is left, or nothing. */
    method ApplyOne(m: Manifest, n: Name, authorized: bool, outcome: Outcome) returns (ok: bool)
      requires applied == rows && Accepts(m, rows, false) && n in m.checksums && n !in rows
      modifies this
      ensures ok <==> outcome.Succeeds? && (n in m.maintenance ==> authorized)
      ensures ok ==> applied == rows == old(rows)[n := Plain(m.checksums[n])]
      ensures !ok ==> applied == old(rows) && (rows == applied || LeftMarked(m, rows, applied))
    {
      if n in m.maintenance && !authorized {
        return false;
      }
      if n in m.online {
        if outcome.FailsCleanly? {
          return false;
        }
        rows := rows[n := Recovery(m.checksums[n])];
        if outcome.FailsMarked? {
          assert rows == applied[n := Recovery(m.checksums[n])];
          return false;
        }
        rows := rows[n := Plain(m.checksums[n])];
      } else {
        if !outcome.Succeeds? {
          return false;
        }
        rows := rows[n := Plain(m.checksums[n])];
      }
      applied := applied[n := Plain(m.checksums[n])];
      return true;
    }

    /** Applies what is pending, in manifest order, stopping at the first failure. */
    method ApplyPending(m: Manifest, authorized: set<Name>, outcome: Name -> Outcome)
      returns (ok: bool, appliedNow: seq<Name>)
      requires Listed(m) && applied == rows && Accepts(m, rows, false)
      modifies this
      ensures ok <==> forall n :: n in Pending(m, old(rows)) ==>
        outcome(n).Succeeds? && (n in m.maintenance ==> n in authorized)
      ensures ok ==> applied == rows && Current(m, rows) && appliedNow == Pending(m, old(rows))
      ensures !ok ==> Accepts(m, applied, false) && (rows == applied || LeftMarked(m, rows, applied))
    {
      appliedNow := [];
      for i := 0 to |m.order|
        invariant applied == rows && Progress(m, old(rows), i, rows, appliedNow)
        invariant forall n :: n in appliedNow ==> outcome(n).Succeeds? && (n in m.maintenance ==> n in authorized)
      {
        var n := m.order[i];
        ProgressStep(m, old(rows), i, rows, appliedNow);
        if n !in applied {
          ok := ApplyOne(m, n, n in authorized, outcome(n));
          if !ok {
            return false, appliedNow;
          }
          appliedNow := appliedNow + [n];
        }
      }
      ProgressDone(m, old(rows), rows, appliedNow);
      return true, appliedNow;
    }

    /** A whole run. An administrator's preflight has to come before the migrate authority may
        fill a fresh database. Whatever the stored history was (an empty table, missing checksums, an
        unadopted tombstone), a run that succeeds ends where the start-up check passes, and a
        run that starts there succeeds without applying anything. */
    method RunMigrations(
        m: Manifest, newDatabase: bool, migrateAuthority: bool, authorized: set<Name>, outcome: Name -> Outcome)
      returns (ok: bool, appliedNow: seq<Name>)
      requires WellFormed(m)
      modifies this
      ensures ok <==>
        && !(migrateAuthority && newDatabase) && Accepts(m, old(rows), true)
        && forall n :: n in Pending(m, Prepared(m, old(rows), newDatabase)) ==>
             outcome(n).Succeeds? && (n in m.maintenance ==> n in authorized)
      ensures ok ==> applied == rows && Current(m, rows)
      ensures ok ==> appliedNow == Pending(m, Prepared(m, old(rows), newDatabase))
      ensures (migrateAuthority && newDatabase) || !Accepts(m, old(rows), true) ==>
        rows == old(rows) && appliedNow == []
      ensures ok && newDatabase && old(rows) == map[] && Ascending(m.order) ==>
        forall b :: 0 <= b < |m.order| && m.order[b] == m.incorporatedThrough ==>
          appliedNow == AfterBaseline(m.order, b)
      ensures ok && !newDatabase ==> forall n :: n in appliedNow <==>
        && n in m.order && n !in old(rows)
        && !(n == "005_retail_ai_analysis_views.sql" && "006_drop_ai_analysis_views.sql" in old(rows))
      ensures Current(m, old(rows)) && !newDatabase ==> ok && rows == old(rows) && appliedNow == []
    {
      if Current(m, rows) {
        CurrentHistoryIsStable(m, rows);
      }
      if migrateAuthority && newDatabase {
        return false, [];
      }
      ok := PrepareHistory(m, newDatabase);
      if !ok {
        return false, [];
      }
      ok, appliedNow := ApplyPending(m, authorized, outcome);
      if ok {
        AppliedIsDue(m, old(rows), newDatabase);
      }
    }

    /** The start-up check. */
    method VerifyMigrationsCurrent(m: Manifest) returns (ok: bool)
      ensures ok <==> Current(m, rows)
    {
      ok := ValidateApplied(m, rows, false);
      ok := ok && rows.Keys == m.checksums.Keys;
    }
  }

  /** A run that has dealt with the first `i` migrations: it applied the pending ones
      among them, in order, and touched nothing else. */
  ghost predicate Progress(m: Manifest, start: Rows, i: nat, rows: Rows, appliedNow: seq<Name>) {
    && i <= |m.order| && Accepts(m, rows, false)
    && appliedNow == PendingIn(m.order[..i], start)
    && rows.Keys == start.Keys + Members(appliedNow)
  }

  lemma {:induction false} PendingGrows(m: Manifest, start: Rows, i: nat)
    requires Listed(m) && i < |m.order|
    ensures PendingIn(m.order[..i + 1], start)
         == PendingIn(m.order[..i], start) + (if m.order[i] in start then [] else [m.order[i]])
    ensures m.order[i] !in PendingIn(m.order[..i], start)
    ensures m.order[i] in PendingIn(m.order, start) <==> m.order[i] !in start
  {
    assert m.order[..i + 1][..i] == m.order[..i];
    PendingMembers(m.order[..i], start, m.order[i]);
    PendingMembers(m.order, start, m.order[i]);
  }

  lemma {:induction false} ProgressStep(m: Manifest, start: Rows, i: nat, rows: Rows, appliedNow: seq<Name>)
    requires Listed(m) && Progress(m, start, i, rows, appliedNow) && i < |m.order|
    ensures m.order[i] in m.checksums
    ensures m.order[i] in rows ==> Progress(m, start, i + 1, rows, appliedNow)
    ensures m.order[i] !in rows ==>
      && m.order[i] in Pending(m, start)
      && Progress(m, start, i + 1, rows[m.order[i] := Plain(m.checksums[m.order[i]])], appliedNow + [m.order[i]])
  {
    var n := m.order[i];
    assert n in Members(m.order);
    PendingGrows(m, start, i);
    assert Members(appliedNow + [n]) == Members(appliedNow) + {n};
  }

  lemma {:induction false} ProgressDone(m: Manifest, start: Rows, rows: Rows, appliedNow: seq<Name>)
    requires Listed(m) && Progress(m, start, |m.order|, rows, appliedNow)
    ensures Current(m, rows) && appliedNow == Pending(m, start)
  {
    assert m.order[..|m.order|] == m.order;
    forall n | n in m.checksums
      ensures n in rows
    {
      assert n in Members(m.order);
      PendingMembers(m.order, start, n);
    }
  }
}
