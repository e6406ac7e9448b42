/** When the merge gate, a required check and a marker succeed, wait or fail, by what the
    evidence itself says. */
module MergeGateVerdicts {
  import opened Options
  import opened GitSha
  import opened MergeGate

  // ---- which run or job is newer ----

  /** Some timestamp parses and the id is usable. */
  predicate Dated(id: Id, t: Stamp) {
    (t.updated.Some? || t.completed.Some? || t.created.Some? || t.started.Some?) && !id.BadId?
  }

  /** Updated, else completed, else created, else started. */
  function ChangedAt(t: Stamp): nat {
    match t
    case Stamp(Some(at), _, _, _) => at
    case Stamp(None, Some(at), _, _) => at
    case Stamp(None, None, Some(at), _) => at
    case Stamp(None, None, None, Some(at)) => at
    case Stamp(None, None, None, None) => 0
  }

  /** Created, else started, else before everything. */
  function BegunAt(t: Stamp): nat {
    match t
    case Stamp(_, _, Some(at), _) => at
    case Stamp(_, _, None, Some(at)) => at
    case Stamp(_, _, None, None) => 0
  }

  function Number(id: Id): int {
    match id
    case IdOf(n) => n
    case _ => -1
  }

  /** The first one is strictly newer: changed later, or begun later, or of a higher number. */
  predicate Newer(id: Id, t: Stamp, than: Id, u: Stamp) {
    || ChangedAt(t) > ChangedAt(u)
    || (ChangedAt(t) == ChangedAt(u) && BegunAt(t) > BegunAt(u))
    || (ChangedAt(t) == ChangedAt(u) && BegunAt(t) == BegunAt(u) && Number(id) > Number(than))
  }

  lemma {:induction false} KeysAreDates(id: Id, t: Stamp, other: Id, u: Stamp)
    ensures SortKey(id, t).Some? <==> Dated(id, t)
    ensures Dated(id, t) && Dated(other, u) ==>
      (Before(SortKey(other, u).value, SortKey(id, t).value) <==> Newer(id, t, other, u))
    ensures Dated(id, t) && SortKey(id, t) == SortKey(other, u) ==> Number(id) == Number(other)
  {
  }

  ghost predicate NewestRun(evidence: seq<Evidence>, e: Evidence) {
    e in evidence && forall x :: x in evidence ==>
      Dated(x.run.id, x.run.stamp) && !Newer(x.run.id, x.run.stamp, e.run.id, e.run.stamp)
  }

  ghost predicate NewestJob(jobs: seq<Job>, name: string, j: Job) {
    j in jobs && j.caption == Check(name) && forall x :: x in jobs && x.caption == Check(name) ==>
      Dated(x.id, x.stamp) && !Newer(x.id, x.stamp, j.id, j.stamp)
  }

  lemma {:induction false} LatestRunExactly(evidence: seq<Evidence>, e: Evidence)
    requires Distinct(evidence)
    ensures Latest(evidence, RunKey) == Some(e) <==> NewestRun(evidence, e)
    ensures Latest(evidence, RunKey).None? <==>
      evidence == [] || exists x :: x in evidence && !Dated(x.run.id, x.run.stamp)
  {
    forall x, y
      ensures RunKey(x).Some? <==> Dated(x.run.id, x.run.stamp)
      ensures RunKey(x).Some? && RunKey(y).Some? ==>
        (Before(RunKey(y).value, RunKey(x).value) <==> Newer(x.run.id, x.run.stamp, y.run.id, y.run.stamp))
      ensures RunKey(x).Some? && RunKey(x) == RunKey(y) ==> Number(x.run.id) == Number(y.run.id)
    {
      KeysAreDates(x.run.id, x.run.stamp, y.run.id, y.run.stamp);
    }
    if Latest(evidence, RunKey).Some? {
      var n := Newest(evidence, RunKey);
      if NewestRun(evidence, e) {
        assert RunKey(n) == RunKey(e);
        assert Rank(n.run.id) == Rank(e.run.id);
      }
    }
  }

  lemma {:induction false} NamedExactly(e: Evidence, name: string, j: Job)
    ensures j in ChecksNamed(e, name) <==> j in e.jobs && j.caption == Check(name)
  {
    FilterMultiset(e.jobs, (x: Job) => x.caption == Check(name), j);
  }

  lemma {:induction false} LatestJobExactly(e: Evidence, name: string, j: Job)
    requires DistinctJobs(e.jobs)
    ensures Latest(ChecksNamed(e, name), JobKey) == Some(j) <==> NewestJob(e.jobs, name, j)
    ensures Latest(ChecksNamed(e, name), JobKey).None? <==>
      || (forall x :: x in e.jobs ==> x.caption != Check(name))
      || exists x :: x in e.jobs && x.caption == Check(name) && !Dated(x.id, x.stamp)
  {
    var jobs := ChecksNamed(e, name);
    forall x
      ensures x in jobs <==> x in e.jobs && x.caption == Check(name)
    {
      NamedExactly(e, name, x);
    }
    assert jobs != [] ==> jobs[0] in jobs;
    forall x, y
      ensures JobKey(x).Some? <==> Dated(x.id, x.stamp)
      ensures JobKey(x).Some? && JobKey(y).Some? ==>
        (Before(JobKey(y).value, JobKey(x).value) <==> Newer(x.id, x.stamp, y.id, y.stamp))
      ensures JobKey(x).Some? && JobKey(x) == JobKey(y) ==> Number(x.id) == Number(y.id)
    {
      KeysAreDates(x.id, x.stamp, y.id, y.stamp);
    }
    if Latest(jobs, JobKey).Some? {
      var n := Newest(jobs, JobKey);
      if NewestJob(e.jobs, name, j) {
        assert JobKey(n) == JobKey(j);
        assert Rank(n.id) == Rank(j.id);
      }
    }
  }

  // ---- a required check ----

  /** The job says it belongs to this run and to the commit the run was made for. */
  predicate Genuine(j: Job, run: Run) {
    && run.id.IdOf? && run.id.n > 0 && j.runId == IdOf(run.id.n)
    && IsSha(run.headSha) && j.headSha == run.headSha
  }

  ghost predicate Intact(e: Evidence) {
    forall j :: j in e.jobs ==> j.wellFormed
  }

  /** The newest run is intact, and its newest job of that name is genuine and for this commit. */
  ghost predicate Answers(evidence: seq<Evidence>, name: string, head: Sha, e: Evidence, j: Job) {
    NewestRun(evidence, e) && Intact(e) && NewestJob(e.jobs, name, j) && Genuine(j, e.run) && j.headSha == head
  }

  ghost predicate Passed(evidence: seq<Evidence>, name: string, head: Sha) {
    exists e, j :: Answers(evidence, name, head, e, j) && j.completed && j.succeeded
  }

  /** There is no run yet, no job of that name in the newest one, or one that has not completed. */
  ghost predicate Open(evidence: seq<Evidence>, name: string, head: Sha) {
    || evidence == []
    || (exists e :: NewestRun(evidence, e) && Intact(e) && forall j :: j in e.jobs ==> j.caption != Check(name))
    || exists e, j :: Answers(evidence, name, head, e, j) && !j.completed
  }

  /** The job exists but does not answer for this commit, or no order among the jobs is known. */
  ghost predicate Untrustworthy(e: Evidence, name: string, head: Sha) {
    || (exists j :: j in e.jobs && j.caption == Check(name) && !Dated(j.id, j.stamp))
    || exists j :: NewestJob(e.jobs, name, j) && !(Genuine(j, e.run) && j.headSha == head)
  }

  ghost predicate Failing(evidence: seq<Evidence>, name: string, head: Sha) {
    || (exists x :: x in evidence && !Dated(x.run.id, x.run.stamp))
    || (exists e :: NewestRun(evidence, e) && (!Intact(e) || Untrustworthy(e, name, head)))
    || exists e, j :: Answers(evidence, name, head, e, j) && j.completed && !j.succeeded
  }

  /** A check succeeds, waits or fails exactly on these conditions. */
  lemma {:induction false} CheckExactly(evidence: seq<Evidence>, name: string, head: Sha)
    requires Distinct(evidence)
    ensures CheckState(evidence, name, head).Success? <==> Passed(evidence, name, head)
    ensures CheckState(evidence, name, head).Pending? <==> Open(evidence, name, head)
    ensures CheckState(evidence, name, head).Failure? <==> Failing(evidence, name, head)
  {
    forall e
      ensures Latest(evidence, RunKey) == Some(e) <==> NewestRun(evidence, e)
      ensures Latest(evidence, RunKey).None? <==>
        evidence == [] || exists x :: x in evidence && !Dated(x.run.id, x.run.stamp)
    {
      LatestRunExactly(evidence, e);
    }
    match Latest(evidence, RunKey)
    case None =>
      CheckWithoutRun(evidence, name, head);
    case Some(e) =>
      CheckOfRun(evidence, name, head, e);
  }

  lemma {:induction false} CheckWithoutRun(evidence: seq<Evidence>, name: string, head: Sha)
    requires Latest(evidence, RunKey).None?
    requires forall e :: !NewestRun(evidence, e)
    requires evidence == [] || exists x :: x in evidence && !Dated(x.run.id, x.run.stamp)
    ensures !Passed(evidence, name, head)
    ensures evidence == [] ==> !Failing(evidence, name, head)
    ensures Open(evidence, name, head) <==> evidence == []
    ensures Failing(evidence, name, head) <==> evidence != []
  {
  }

  /** With this run the newest one, its jobs decide. */
  lemma {:induction false} CheckOfRun(evidence: seq<Evidence>, name: string, head: Sha, e: Evidence)
    requires Distinct(evidence) && e in evidence && Latest(evidence, RunKey) == Some(e)
    requires forall x :: NewestRun(evidence, x) <==> x == e
    requires forall x :: x in evidence ==> Dated(x.run.id, x.run.stamp)
    ensures CheckInRun(e, name, head).Success? <==> Passed(evidence, name, head)
    ensures CheckInRun(e, name, head).Pending? <==> Open(evidence, name, head)
    ensures CheckInRun(e, name, head).Failure? <==> Failing(evidence, name, head)
  {
    assert NewestRun(evidence, e);
    forall j
      ensures j in ChecksNamed(e, name) <==> j in e.jobs && j.caption == Check(name)
    {
      NamedExactly(e, name, j);
    }
    if !Intact(e) {
      assert forall x, j :: !Answers(evidence, name, head, x, j);
    } else if ChecksNamed(e, name) == [] {
      assert forall j :: j in e.jobs ==> j.caption != Check(name);
      assert forall x, j :: !Answers(evidence, name, head, x, j);
      assert !Untrustworthy(e, name, head);
    } else {
      assert ChecksNamed(e, name)[0] in ChecksNamed(e, name);
      CheckOfJobs(evidence, name, head, e);
    }
  }

  lemma {:induction false} AnswerDecides(evidence: seq<Evidence>, name: string, head: Sha, e: Evidence, j: Job)
    requires NewestRun(evidence, e) && Intact(e) && NewestJob(e.jobs, name, j)
    requires forall x :: NewestRun(evidence, x) <==> x == e
    requires forall x :: NewestJob(e.jobs, name, x) <==> x == j
    requires forall x :: x in e.jobs && x.caption == Check(name) ==> Dated(x.id, x.stamp)
    ensures var ours := Genuine(j, e.run) && j.headSha == head;
      && (Passed(evidence, name, head) <==> ours && j.completed && j.succeeded)
      && (Open(evidence, name, head) <==> ours && !j.completed)
      && (Failing(evidence, name, head) <==> !ours || (j.completed && !j.succeeded))
  {
    assert Answers(evidence, name, head, e, j) <==> Genuine(j, e.run) && j.headSha == head;
    assert Untrustworthy(e, name, head) <==> !(Genuine(j, e.run) && j.headSha == head);
  }

  lemma {:induction false} CheckOfJobs(evidence: seq<Evidence>, name: string, head: Sha, e: Evidence)
    requires Distinct(evidence) && e in evidence && Intact(e)
    requires forall x :: NewestRun(evidence, x) <==> x == e
    requires forall x :: x in evidence ==> Dated(x.run.id, x.run.stamp)
    requires ChecksNamed(e, name) != [] && exists j :: j in e.jobs && j.caption == Check(name)
    ensures CheckInRun(e, name, head).Success? <==> Passed(evidence, name, head)
    ensures CheckInRun(e, name, head).Pending? <==> Open(evidence, name, head)
    ensures CheckInRun(e, name, head).Failure? <==> Failing(evidence, name, head)
  {
    assert NewestRun(evidence, e);
    forall j
      ensures Latest(ChecksNamed(e, name), JobKey) == Some(j) <==> NewestJob(e.jobs, name, j)
      ensures Latest(ChecksNamed(e, name), JobKey).None? ==>
        exists x :: x in e.jobs && x.caption == Check(name) && !Dated(x.id, x.stamp)
    {
      LatestJobExactly(e, name, j);
    }
    if Latest(ChecksNamed(e, name), JobKey).None? {
      assert forall x, j :: !Answers(evidence, name, head, x, j);
      assert Untrustworthy(e, name, head);
    } else {
      var j := Latest(ChecksNamed(e, name), JobKey).value;
      assert forall x :: NewestJob(e.jobs, name, x) <==> x == j;
      AnswerDecides(evidence, name, head, e, j);
      assert JobTrusted(j, e.run) <==> Genuine(j, e.run);
    }
  }

  // ---- a marker ----

  /** The job's name is the exact marker. */
  predicate Marks(j: Job, m: Marker) {
    match (m, j.caption)
    case (Policy(head, base), PolicyMarker(_, h, b)) => h == head && b == base
    case (Deep(pr, head, base), DeepMarker(p, h, b)) => p == pr && h == head && b == base
    case _ => false
  }

  ghost predicate Carries(e: Evidence, m: Marker) {
    exists j :: j in e.jobs && Marks(j, m)
  }

  /** The run has entries that are no jobs, or carries the marker without a date or in a job
      that is not genuine. */
  ghost predicate Spoilt(e: Evidence, m: Marker) {
    || !Intact(e)
    || (Carries(e, m) && !Dated(e.run.id, e.run.stamp))
    || exists j :: j in e.jobs && Marks(j, m) && !Genuine(j, e.run)
  }

  ghost predicate NewestCarrier(evidence: seq<Evidence>, m: Marker, e: Evidence) {
    e in evidence && Carries(e, m) && forall x :: x in evidence && Carries(x, m) ==>
      !Newer(x.run.id, x.run.stamp, e.run.id, e.run.stamp)
  }

  ghost predicate CarriedAt(e: Evidence, m: Marker, j: Job, i: nat) {
    i < |e.jobs| && e.jobs[i] == j && Marks(j, m)
    && forall k :: 0 <= k < |e.jobs| && k != i ==> !Marks(e.jobs[k], m)
  }

  /** The run carries the marker in this job and in no other. */
  ghost predicate CarriedOnce(e: Evidence, m: Marker, j: Job) {
    exists i: nat :: CarriedAt(e, m, j, i)
  }

  ghost predicate NoneSpoilt(evidence: seq<Evidence>, m: Marker) {
    forall e :: e in evidence ==> !Spoilt(e, m)
  }

  /** What a completed marker says: a policy marker by its name, a deep one by its success. */
  predicate Says(j: Job, state: State) {
    if !j.succeeded then state.Failure?
    else match j.caption
      case PolicyMarker(s, _, _) => state == s
      case _ => state.Success?
  }

  ghost predicate Tells(evidence: seq<Evidence>, m: Marker, e: Evidence, j: Job) {
    NewestCarrier(evidence, m, e) && CarriedOnce(e, m, j)
  }

  ghost predicate MarkerPassed(evidence: seq<Evidence>, m: Marker) {
    NoneSpoilt(evidence, m) && exists e, j :: Tells(evidence, m, e, j) && j.completed && Says(j, Success)
  }

  ghost predicate MarkerOpen(evidence: seq<Evidence>, m: Marker) {
    && NoneSpoilt(evidence, m)
    && (|| (forall e :: e in evidence ==> !Carries(e, m))
        || exists e, j :: Tells(evidence, m, e, j) && (!j.completed || Says(j, Pending)))
  }

  ghost predicate MarkerFailing(evidence: seq<Evidence>, m: Marker) {
    || !NoneSpoilt(evidence, m)
    || (exists e :: NewestCarrier(evidence, m, e) && forall j :: !CarriedOnce(e, m, j))
    || exists e, j :: Tells(evidence, m, e, j) && j.completed && Says(j, Failure)
  }

  lemma {:induction false} MarkersAre(e: Evidence, m: Marker)
    ensures forall j :: j in Markers(e, m) <==> j in e.jobs && Marks(j, m)
    ensures Markers(e, m) != [] <==> Carries(e, m)
    ensures Malformed(e, m) <==> Spoilt(e, m)
  {
    forall j
      ensures j in Markers(e, m) <==> j in e.jobs && Marks(j, m)
      ensures IsMarker(j, m) <==> Marks(j, m)
      ensures JobTrusted(j, e.run) <==> Genuine(j, e.run)
    {
      FilterMultiset(e.jobs, (x: Job) => IsMarker(x, m), j);
    }
    assert Markers(e, m) != [] ==> Markers(e, m)[0] in Markers(e, m);
    KeysAreDates(e.run.id, e.run.stamp, e.run.id, e.run.stamp);
  }

  /** The item is kept at this place, and nothing is kept at any other. */
  ghost predicate OnlyAt<T(!new)>(items: seq<T>, keep: T -> bool, x: T, i: nat) {
    i < |items| && items[i] == x && keep(x) && forall k :: 0 <= k < |items| && k != i ==> !keep(items[k])
  }

  lemma {:induction false} OneFound<T(!new)>(items: seq<T>, keep: T -> bool, x: T)
    ensures Filter(items, keep) == [x] <==> exists i: nat :: OnlyAt(items, keep, x, i)
    decreases |items|
  {
    if items != [] {
      var n := |items| - 1;
      assert forall k :: 0 <= k < n ==> items[..n][k] == items[k];
      if keep(items[n]) {
        NoneFound(items[..n], keep);
        if Filter(items, keep) == [x] {
          assert |Filter(items[..n], keep)| == 0;
          assert Filter(items, keep) == [items[n]] && [items[n]][0] == [x][0];
          assert OnlyAt(items, keep, x, n);
        }
        if i: nat :| OnlyAt(items, keep, x, i) {
          assert i == n;
        }
      } else {
        OneFound(items[..n], keep, x);
        forall i: nat
          ensures OnlyAt(items, keep, x, i) <==> OnlyAt(items[..n], keep, x, i)
        {
        }
      }
    }
  }

  lemma {:induction false} NoneFound<T(!new)>(items: seq<T>, keep: T -> bool)
    ensures Filter(items, keep) == [] <==> forall k :: 0 <= k < |items| ==> !keep(items[k])
    decreases |items|
  {
    if items != [] {
      var n := |items| - 1;
      assert forall k :: 0 <= k < n ==> items[..n][k] == items[k];
      NoneFound(items[..n], keep);
    }
  }

  lemma {:induction false} CarriedOnceExactly(e: Evidence, m: Marker, j: Job)
    ensures Markers(e, m) == [j] <==> CarriedOnce(e, m, j)
  {
    var keep := (x: Job) => IsMarker(x, m);
    OneFound(e.jobs, keep, j);
    assert forall x :: IsMarker(x, m) <==> Marks(x, m);
    forall i: nat
      ensures OnlyAt(e.jobs, keep, j, i) <==> CarriedAt(e, m, j, i)
    {
    }
  }

  lemma {:induction false} CarriersAre(evidence: seq<Evidence>, m: Marker)
    requires NoneSpoilt(evidence, m)
    ensures var carriers := Filter(evidence, (x: Evidence) => Exact(x, m));
      && (forall x :: x in carriers <==> x in evidence && Carries(x, m))
      && (forall x :: x in carriers ==> Dated(x.run.id, x.run.stamp))
      && (carriers == [] <==> forall x :: x in evidence ==> !Carries(x, m))
  {
    var carriers := Filter(evidence, (x: Evidence) => Exact(x, m));
    forall x
      ensures x in carriers <==> x in evidence && Carries(x, m)
      ensures x in carriers ==> Dated(x.run.id, x.run.stamp)
    {
      FilterMultiset(evidence, (y: Evidence) => Exact(y, m), x);
      MarkersAre(x, m);
    }
    assert carriers != [] ==> carriers[0] in carriers;
  }

  /** With nothing spoilt, the newest exact run is the newest carrier. */
  lemma {:induction false} LatestCarrierExactly(evidence: seq<Evidence>, m: Marker, e: Evidence)
    requires Distinct(evidence) && NoneSpoilt(evidence, m)
    ensures Latest(Filter(evidence, (x: Evidence) => Exact(x, m)), RunKey) == Some(e) <==> NewestCarrier(evidence, m, e)
    ensures Latest(Filter(evidence, (x: Evidence) => Exact(x, m)), RunKey).None? <==>
      forall x :: x in evidence ==> !Carries(x, m)
  {
    CarriersAre(evidence, m);
    LatestRunExactly(Filter(evidence, (x: Evidence) => Exact(x, m)), e);
  }

  lemma {:induction false} MarkerOfRun(evidence: seq<Evidence>, m: Marker, e: Evidence)
    requires NoneSpoilt(evidence, m) && forall x :: NewestCarrier(evidence, m, x) <==> x == e
    ensures MarkerInRun(e, m).Success? <==> MarkerPassed(evidence, m)
    ensures MarkerInRun(e, m).Pending? <==> MarkerOpen(evidence, m)
    ensures MarkerInRun(e, m).Failure? <==> MarkerFailing(evidence, m)
  {
    assert NewestCarrier(evidence, m, e);
    forall j
      ensures Markers(e, m) == [j] <==> CarriedOnce(e, m, j)
    {
      CarriedOnceExactly(e, m, j);
    }
    if |Markers(e, m)| == 1 {
      var j := Markers(e, m)[0];
      assert Markers(e, m) == [j];
      MarkersAre(e, m);
      assert Tells(evidence, m, e, j) && forall x, k :: Tells(evidence, m, x, k) ==> x == e && k == j;
    } else {
      assert forall x, k :: !Tells(evidence, m, x, k);
    }
  }

  /** A marker succeeds, waits or fails exactly on these conditions. */
  lemma {:induction false} MarkerExactly(evidence: seq<Evidence>, m: Marker)
    requires Distinct(evidence)
    ensures MarkerState(evidence, m).Success? <==> MarkerPassed(evidence, m)
    ensures MarkerState(evidence, m).Pending? <==> MarkerOpen(evidence, m)
    ensures MarkerState(evidence, m).Failure? <==> MarkerFailing(evidence, m)
  {
    forall e
      ensures Malformed(e, m) <==> Spoilt(e, m)
    {
      MarkersAre(e, m);
    }
    if NoneSpoilt(evidence, m) {
      assert !exists e :: e in evidence && Malformed(e, m);
      forall e
        ensures Latest(Filter(evidence, (x: Evidence) => Exact(x, m)), RunKey) == Some(e) <==>
          NewestCarrier(evidence, m, e)
      {
        LatestCarrierExactly(evidence, m, e);
      }
      var latest := Latest(Filter(evidence, (x: Evidence) => Exact(x, m)), RunKey);
      if latest.Some? {
        MarkerOfRun(evidence, m, latest.value);
      } else {
        if e :| e in evidence && Carries(e, m) {
          LatestCarrierExactly(evidence, m, e);
        }
        assert forall e :: !NewestCarrier(evidence, m, e);
      }
    }
  }

  // ---- the gate ----

  /** All runs come from where they should, with proper jobs. */
  ghost predicate Provenance(evidence: seq<Evidence>) {
    forall e :: e in evidence ==> e.run.provenance && Intact(e)
  }

  ghost predicate Granted(changed: bool, evidence: seq<Evidence>, name: string, head: Sha) {
    !changed && Provenance(evidence) && Passed(evidence, name, head)
  }

  ghost predicate Awaited(changed: bool, evidence: seq<Evidence>, name: string, head: Sha) {
    !changed && Provenance(evidence) && Open(evidence, name, head)
  }

  ghost predicate Denied(changed: bool, evidence: seq<Evidence>, name: string, head: Sha) {
    changed || !Provenance(evidence) || Failing(evidence, name, head)
  }

  lemma {:induction false} RequiredExactly(changed: bool, evidence: seq<Evidence>, name: string, head: Sha)
    requires Distinct(evidence)
    ensures Required(changed, evidence, name, head).Success? <==> Granted(changed, evidence, name, head)
    ensures Required(changed, evidence, name, head).Pending? <==> Awaited(changed, evidence, name, head)
    ensures Required(changed, evidence, name, head).Failure? <==> Denied(changed, evidence, name, head)
  {
    CheckExactly(evidence, name, head);
  }

  ghost predicate MarkerGranted(evidence: seq<Evidence>, m: Marker) {
    Provenance(evidence) && MarkerPassed(evidence, m)
  }

  ghost predicate MarkerAwaited(evidence: seq<Evidence>, m: Marker) {
    Provenance(evidence) && MarkerOpen(evidence, m)
  }

  ghost predicate MarkerDenied(evidence: seq<Evidence>, m: Marker) {
    !Provenance(evidence) || MarkerFailing(evidence, m)
  }

  lemma {:induction false} VerdictExactly(evidence: seq<Evidence>, m: Marker)
    requires Distinct(evidence)
    ensures MarkerVerdict(evidence, m).Success? <==> MarkerGranted(evidence, m)
    ensures MarkerVerdict(evidence, m).Pending? <==> MarkerAwaited(evidence, m)
    ensures MarkerVerdict(evidence, m).Failure? <==> MarkerDenied(evidence, m)
  {
    MarkerExactly(evidence, m);
  }

  // The three required checks of one pull request, and its two markers.

  ghost predicate DocsGranted(g: Input) {
    Granted(g.docsWorkflowChanged, g.docs, "Validate release authority and docs", g.head)
  }

  ghost predicate DocsAwaited(g: Input) {
    Awaited(g.docsWorkflowChanged, g.docs, "Validate release authority and docs", g.head)
  }

  ghost predicate DocsDenied(g: Input) {
    Denied(g.docsWorkflowChanged, g.docs, "Validate release authority and docs", g.head)
  }

  ghost predicate FastGranted(g: Input) {
    Granted(g.ciWorkflowChanged, g.fast, "pr-fast", g.head)
  }

  ghost predicate FastAwaited(g: Input) {
    Awaited(g.ciWorkflowChanged, g.fast, "pr-fast", g.head)
  }

  ghost predicate FastDenied(g: Input) {
    Denied(g.ciWorkflowChanged, g.fast, "pr-fast", g.head)
  }

  ghost predicate RiskGranted(g: Input) {
    Granted(false, g.risk, "Validate high-risk PR governance", g.head)
  }

  ghost predicate RiskAwaited(g: Input) {
    Awaited(false, g.risk, "Validate high-risk PR governance", g.head)
  }

  ghost predicate RiskDenied(g: Input) {
    Denied(false, g.risk, "Validate high-risk PR governance", g.head)
  }

  /** Beyond documentation: the fast and the risk check, then a marker. */
  ghost predicate RuntimeGranted(g: Input) {
    && FastGranted(g) && RiskGranted(g)
    && (|| MarkerGranted(g.policy, Policy(g.head, g.base))
        || (MarkerAwaited(g.policy, Policy(g.head, g.base)) && MarkerGranted(g.deep, Deep(g.pr, g.head, g.base))))
  }

  ghost predicate RuntimeAwaited(g: Input) {
    || FastAwaited(g)
    || (&& FastGranted(g)
        && (|| RiskAwaited(g)
            || (&& RiskGranted(g) && MarkerAwaited(g.policy, Policy(g.head, g.base))
                && MarkerAwaited(g.deep, Deep(g.pr, g.head, g.base)))))
  }

  ghost predicate RuntimeDenied(g: Input) {
    || FastDenied(g)
    || (&& FastGranted(g)
        && (|| RiskDenied(g)
            || (&& RiskGranted(g)
                && (|| MarkerDenied(g.policy, Policy(g.head, g.base))
                    || (&& MarkerAwaited(g.policy, Policy(g.head, g.base))
                        && MarkerDenied(g.deep, Deep(g.pr, g.head, g.base)))))))
  }

  lemma {:induction false} DocsExactly(g: Input)
    requires DistinctInput(g)
    ensures var docs := Required(g.docsWorkflowChanged, g.docs, DOCS_CHECK, g.head);
      (docs.Success? <==> DocsGranted(g)) && (docs.Pending? <==> DocsAwaited(g)) && (docs.Failure? <==> DocsDenied(g))
  {
    RequiredExactly(g.docsWorkflowChanged, g.docs, DOCS_CHECK, g.head);
  }

  lemma {:induction false} FastExactly(g: Input)
    requires DistinctInput(g)
    ensures var fast := Required(g.ciWorkflowChanged, g.fast, PR_FAST_CHECK, g.head);
      (fast.Success? <==> FastGranted(g)) && (fast.Pending? <==> FastAwaited(g)) && (fast.Failure? <==> FastDenied(g))
  {
    RequiredExactly(g.ciWorkflowChanged, g.fast, PR_FAST_CHECK, g.head);
  }

  lemma {:induction false} RiskExactly(g: Input)
    requires DistinctInput(g)
    ensures var risk := Required(false, g.risk, HIGH_RISK_CHECK, g.head);
      (risk.Success? <==> RiskGranted(g)) && (risk.Pending? <==> RiskAwaited(g)) && (risk.Failure? <==> RiskDenied(g))
  {
    RequiredExactly(false, g.risk, HIGH_RISK_CHECK, g.head);
  }

  /** What the gate makes of the checks and markers beyond the documentation one. */
  ghost function RuntimeState(g: Input): State {
    Cascade(false, Success,
            Required(g.ciWorkflowChanged, g.fast, PR_FAST_CHECK, g.head),
            Required(false, g.risk, HIGH_RISK_CHECK, g.head),
            MarkerVerdict(g.policy, Policy(g.head, g.base)),
            MarkerVerdict(g.deep, Deep(g.pr, g.head, g.base)))
  }

  lemma {:induction false} RuntimeExactly(g: Input)
    requires DistinctInput(g)
    ensures RuntimeState(g).Success? <==> RuntimeGranted(g)
    ensures RuntimeState(g).Pending? <==> RuntimeAwaited(g)
    ensures RuntimeState(g).Failure? <==> RuntimeDenied(g)
  {
    FastExactly(g);
    RiskExactly(g);
    VerdictExactly(g.policy, Policy(g.head, g.base));
    VerdictExactly(g.deep, Deep(g.pr, g.head, g.base));
  }

  lemma {:induction false} DecideSplits(g: Input)
    ensures var docs := Required(g.docsWorkflowChanged, g.docs, DOCS_CHECK, g.head);
      Decide(g) == if !g.hasRepo then Failure else if !docs.Success? || g.docsOnly then docs else RuntimeState(g)
  {
  }

  /** The gate succeeds, waits or fails exactly on these conditions, and answers nothing only
      for a pull request that is misnamed. */
  lemma {:induction false} GateExactly(g: Input)
    requires DistinctInput(g)
    ensures Gate(g).None? <==> g.pr < 1 || !IsSha(g.head) || !IsSha(g.base)
    ensures Gate(g).Some? ==>
      && (Gate(g).value.Success? <==> g.hasRepo && DocsGranted(g) && (g.docsOnly || RuntimeGranted(g)))
      && (Gate(g).value.Pending? <==>
            g.hasRepo && (DocsAwaited(g) || (DocsGranted(g) && !g.docsOnly && RuntimeAwaited(g))))
      && (Gate(g).value.Failure? <==>
            !g.hasRepo || DocsDenied(g) || (DocsGranted(g) && !g.docsOnly && RuntimeDenied(g)))
  {
    DecideSplits(g);
    DocsExactly(g);
    RuntimeExactly(g);
  }
}
