/** The merge gate: deciding from workflow runs and jobs, independently of their order. */
module MergeGate {
  import opened Options
  import opened GitSha

  datatype State = Success | Pending | Failure

  // ---- evidence ----

  /** The raw id field of a run or job. */
  datatype Id = NoId | IdOf(n: int) | BadId

  /** Parsed timestamps, counted from the earliest representable moment. */
  datatype Stamp = Stamp(updated: Option<nat>, completed: Option<nat>, created: Option<nat>, started: Option<nat>)

  datatype Key = Key(primary: nat, secondary: nat, id: int)

  /** What a job's display name says. */
  datatype Caption =
    | Check(name: string)
    | PolicyMarker(state: State, head: Sha, base: Sha)
    | DeepMarker(pr: int, head: Sha, base: Sha)

  datatype Run = Run(id: Id, stamp: Stamp, headSha: Sha, provenance: bool)

  /** `wellFormed` is false for an entry that is not an object at all. */
  datatype Job = Job(
    id: Id, stamp: Stamp, caption: Caption, runId: Id, headSha: Sha,
    completed: bool, succeeded: bool, wellFormed: bool)

  datatype Evidence = Evidence(run: Run, jobs: seq<Job>)

  function FirstOf(a: Option<nat>, b: Option<nat>): Option<nat> {
    if a.Some? then a else b
  }

  function SortKey(id: Id, t: Stamp): Option<Key> {
    var primary := FirstOf(FirstOf(t.updated, t.completed), FirstOf(t.created, t.started));
    var secondary := FirstOf(FirstOf(t.created, t.started), Some(0));
    if primary.None? || id.BadId? then None
    else Some(Key(primary.value, secondary.value, if id.IdOf? then id.n else -1))
  }

  predicate Before(a: Key, b: Key) {
    a.primary < b.primary
    || (a.primary == b.primary && (a.secondary < b.secondary || (a.secondary == b.secondary && a.id < b.id)))
  }

  function RunKey(e: Evidence): Option<Key> {
    SortKey(e.run.id, e.run.stamp)
  }

  function JobKey(j: Job): Option<Key> {
    SortKey(j.id, j.stamp)
  }

  // ---- picking the latest ----

  /** The first of the newest items, as a stable descending sort would put it in front. */
  function Newest<T(!new)>(items: seq<T>, key: T -> Option<Key>): (r: T)
    requires items != [] && forall x :: x in items ==> key(x).Some?
    ensures r in items && forall x :: x in items ==> !Before(key(r).value, key(x).value)
    decreases |items|
  {
    if |items| == 1 then items[0]
    else
      var (before, last) := (items[..|items| - 1], items[|items| - 1]);
      assert forall x :: x in items <==> x in before || x == last;
      var best := Newest(before, key);
      if Before(key(best).value, key(last).value) then last else best
  }

  function Latest<T(==, !new)>(items: seq<T>, key: T -> Option<Key>): Option<T> {
    if items == [] || exists x :: x in items && key(x).None? then None else Some(Newest(items, key))
  }

  function Filter<T>(items: seq<T>, keep: T -> bool): seq<T> {
    if items == [] then []
    else Filter(items[..|items| - 1], keep) + (if keep(items[|items| - 1]) then [items[|items| - 1]] else [])
  }

  // ---- the states ----

  predicate JobTrusted(j: Job, run: Run) {
    && run.id.IdOf? && run.id.n > 0 && j.runId == run.id
    && IsSha(run.headSha) && j.headSha == run.headSha
  }

  predicate AllWellFormed(e: Evidence) {
    forall j :: j in e.jobs ==> j.wellFormed
  }

  function ChecksNamed(e: Evidence, name: string): seq<Job> {
    Filter(e.jobs, (j: Job) => j.caption == Check(name))
  }

  /** The state of the named check in one selected run. */
  function CheckInRun(e: Evidence, name: string, head: Sha): State {
    if !AllWellFormed(e) then Failure
    else
      var jobs := ChecksNamed(e, name);
      if jobs == [] then Pending
      else match Latest(jobs, JobKey)
        case None => Failure
        case Some(job) =>
          if !JobTrusted(job, e.run) || job.headSha != head then Failure
          else if !job.completed then Pending
          else if job.succeeded then Success else Failure
  }

  function CheckState(evidence: seq<Evidence>, name: string, head: Sha): State {
    if evidence == [] then Pending
    else match Latest(evidence, RunKey)
      case None => Failure
      case Some(e) => CheckInRun(e, name, head)
  }

  /** Which marker a gate evaluation is looking for. */
  datatype Marker = Policy(head: Sha, base: Sha) | Deep(pr: int, head: Sha, base: Sha)

  predicate IsMarker(j: Job, m: Marker) {
    match m
    case Policy(head, base) => j.caption.PolicyMarker? && j.caption.head == head && j.caption.base == base
    case Deep(pr, head, base) => j.caption == DeepMarker(pr, head, base)
  }

  function Markers(e: Evidence, m: Marker): seq<Job> {
    Filter(e.jobs, (j: Job) => IsMarker(j, m))
  }

  /** A run whose marker cannot be attributed safely. */
  predicate Malformed(e: Evidence, m: Marker) {
    || !AllWellFormed(e)
    || (Markers(e, m) != [] && (RunKey(e).None? || exists j :: j in Markers(e, m) && !JobTrusted(j, e.run)))
  }

  predicate Exact(e: Evidence, m: Marker) {
    Markers(e, m) != [] && !Malformed(e, m)
  }

  function MarkerInRun(e: Evidence, m: Marker): State {
    var jobs := Markers(e, m);
    if |jobs| != 1 then Failure
    else if !jobs[0].completed then Pending
    else if !jobs[0].succeeded then Failure
    else if jobs[0].caption.PolicyMarker? then jobs[0].caption.state else Success
  }

  function MarkerState(evidence: seq<Evidence>, m: Marker): State {
    if exists e :: e in evidence && Malformed(e, m) then Failure
    else match Latest(Filter(evidence, (e: Evidence) => Exact(e, m)), RunKey)
      case None => Pending
      case Some(e) => MarkerInRun(e, m)
  }

  // ---- the decision ----

  const DOCS_CHECK := "Validate release authority and docs"
  const PR_FAST_CHECK := "pr-fast"
  const HIGH_RISK_CHECK := "Validate high-risk PR governance"

  /** Everything a decision looks at. */
  datatype Input = Input(
    pr: int, head: Sha, base: Sha, docsOnly: bool, hasRepo: bool,
    docsWorkflowChanged: bool, ciWorkflowChanged: bool,
    docs: seq<Evidence>, fast: seq<Evidence>, risk: seq<Evidence>, policy: seq<Evidence>, deep: seq<Evidence>)

  predicate Validated(evidence: seq<Evidence>) {
    forall e :: e in evidence ==> e.run.provenance && AllWellFormed(e)
  }

  function Required(changed: bool, evidence: seq<Evidence>, name: string, head: Sha): State {
    if changed || !Validated(evidence) then Failure else CheckState(evidence, name, head)
  }

  function MarkerVerdict(evidence: seq<Evidence>, m: Marker): State {
    if !Validated(evidence) then Failure else MarkerState(evidence, m)
  }

  /** The state of the gate, or nothing when the pull request itself is misnamed. */
  function Gate(g: Input): Option<State> {
    if g.pr < 1 || !IsSha(g.head) || !IsSha(g.base) then None else Some(Decide(g))
  }

  /** The first required check that is not a success decides; the policy marker decides next
      unless it is pending, and then the deep marker. */
  function Cascade(docsOnly: bool, docs: State, fast: State, risk: State, policy: State, deep: State): State {
    if docs != Success || docsOnly then docs
    else if fast != Success then fast
    else if risk != Success then risk
    else if policy != Pending then policy
    else deep
  }

  function Decide(g: Input): State {
    if !g.hasRepo then Failure
    else Cascade(g.docsOnly,
                 Required(g.docsWorkflowChanged, g.docs, DOCS_CHECK, g.head),
                 Required(g.ciWorkflowChanged, g.fast, PR_FAST_CHECK, g.head),
                 Required(false, g.risk, HIGH_RISK_CHECK, g.head),
                 MarkerVerdict(g.policy, Policy(g.head, g.base)),
                 MarkerVerdict(g.deep, Deep(g.pr, g.head, g.base)))
  }

  // ---- the loops that compute them ----

  /** Keys every item, giving up on the first that has no key, and keeps the newest. */
  method PickLatest<T(!new)>(items: seq<T>, key: T -> Option<Key>) returns (r: Option<T>)
    ensures r == Latest(items, key)
  {
    r := None;
    for i := 0 to |items|
      invariant forall k :: 0 <= k < i ==> key(items[k]).Some?
      invariant i == 0 ==> r == None
      invariant i > 0 ==> items[..i] != [] && r == Some(Newest(items[..i], key))
    {
      if key(items[i]).None? {
        assert items[i] in items;
        return None;
      }
      assert items[..i + 1][..i] == items[..i];
      if r.None? || Before(key(r.value).value, key(items[i]).value) {
        r := Some(items[i]);
      }
    }
    assert items[..|items|] == items;
  }

  method ValidateEvidence(evidence: seq<Evidence>) returns (ok: bool)
    ensures ok <==> Validated(evidence)
  {
    for i := 0 to |evidence|
      invariant forall k :: 0 <= k < i ==> evidence[k].run.provenance && AllWellFormed(evidence[k])
    {
      if !evidence[i].run.provenance || !AllWellFormed(evidence[i]) {
        assert evidence[i] in evidence;
        return false;
      }
    }
    return true;
  }

  /** Collects the runs that carry the exact marker; a malformed one is remembered, so that no
      older run can win over it. */
  method TrustedMarkerState(evidence: seq<Evidence>, m: Marker) returns (state: State)
    ensures state == MarkerState(evidence, m)
  {
    var exact: seq<Evidence> := [];
    var malformed := false;
    for i := 0 to |evidence|
      invariant malformed <==> exists k :: 0 <= k < i && Malformed(evidence[k], m)
      invariant exact == Filter(evidence[..i], (e: Evidence) => Exact(e, m))
    {
      assert evidence[..i + 1][..i] == evidence[..i];
      if Malformed(evidence[i], m) {
        malformed := true;
      } else if Markers(evidence[i], m) != [] {
        exact := exact + [evidence[i]];
      }
    }
    assert evidence[..|evidence|] == evidence;
    if malformed {
      return Failure;
    }
    var latest := PickLatest(exact, RunKey);
    if latest.None? {
      return Pending;
    }
    return MarkerInRun(latest.value, m);
  }

  // ---- order does not matter ----

  /** The id as the sort key sees it. */
  function Rank(id: Id): int {
    if id.IdOf? then id.n else -1
  }

  ghost predicate DistinctJobs(jobs: seq<Job>) {
    forall x, y :: x in jobs && y in jobs && Rank(x.id) == Rank(y.id) ==> x == y
  }

  /** Different runs of a list have different ids, and so have the jobs within a run. */
  ghost predicate Distinct(evidence: seq<Evidence>) {
    && (forall x, y :: x in evidence && y in evidence && Rank(x.run.id) == Rank(y.run.id) ==> x == y)
    && (forall e :: e in evidence ==> DistinctJobs(e.jobs))
  }

  /** The same run with the same jobs, in any order. */
  ghost predicate SameRun(x: Evidence, y: Evidence) {
    x.run == y.run && multiset(x.jobs) == multiset(y.jobs)
  }

  ghost predicate Has(b: seq<Evidence>, x: Evidence) {
    exists y :: y in b && SameRun(x, y)
  }

  ghost predicate Contained(a: seq<Evidence>, b: seq<Evidence>) {
    forall x {:trigger Has(b, x)} :: x in a ==> Has(b, x)
  }

  /** The same runs, and within each the same jobs, in any order. */
  ghost predicate Reordered(a: seq<Evidence>, b: seq<Evidence>) {
    Contained(a, b) && Contained(b, a)
  }

  /** Any permutation of a list is a reordering of it. */
  lemma {:induction false} PermutationIsReordering(a: seq<Evidence>, b: seq<Evidence>)
    requires multiset(a) == multiset(b)
    ensures Reordered(a, b)
  {
    forall x
      ensures x in a <==> x in b
    {
      assert x in a <==> x in multiset(a);
      assert x in b <==> x in multiset(b);
    }
    forall x | x in a
      ensures Has(b, x) && Has(a, x)
    {
      assert SameRun(x, x);
    }
  }

  lemma {:induction false} FilterMultiset<T(!new)>(items: seq<T>, keep: T -> bool, x: T)
    ensures multiset(Filter(items, keep))[x] == if keep(x) then multiset(items)[x] else 0
    ensures x in Filter(items, keep) <==> x in items && keep(x)
  {
    if items != [] {
      FilterMultiset(items[..|items| - 1], keep, x);
      assert items == items[..|items| - 1] + [items[|items| - 1]];
    }
  }

  lemma {:induction false} SameJobs(x: seq<Job>, y: seq<Job>, keep: Job -> bool)
    requires multiset(x) == multiset(y)
    ensures forall j :: j in x <==> j in y
    ensures multiset(Filter(x, keep)) == multiset(Filter(y, keep))
    ensures forall j :: j in Filter(x, keep) <==> j in Filter(y, keep)
    ensures |Filter(x, keep)| == |Filter(y, keep)|
  {
    forall j
      ensures (j in x <==> j in y) && multiset(Filter(x, keep))[j] == multiset(Filter(y, keep))[j]
    {
      FilterMultiset(x, keep, j);
      FilterMultiset(y, keep, j);
      assert j in x <==> j in multiset(x);
      assert j in y <==> j in multiset(y);
    }
    assert multiset(Filter(x, keep)) == multiset(Filter(y, keep));
    forall j
      ensures j in Filter(x, keep) <==> j in Filter(y, keep)
    {
      assert j in Filter(x, keep) <==> j in multiset(Filter(x, keep));
      assert j in Filter(y, keep) <==> j in multiset(Filter(y, keep));
    }
    assert |Filter(x, keep)| == |multiset(Filter(x, keep))|;
    assert |Filter(y, keep)| == |multiset(Filter(y, keep))|;
  }

  lemma {:induction false} LatestJobSame(a: seq<Job>, b: seq<Job>)
    requires DistinctJobs(a) && forall j :: j in a <==> j in b
    ensures Latest(a, JobKey) == Latest(b, JobKey)
  {
    if a != [] {
      assert a[0] in b;
    }
    if b != [] {
      assert b[0] in a;
    }
    if Latest(a, JobKey).Some? {
      var x, y := Newest(a, JobKey), Newest(b, JobKey);
      assert JobKey(x) == JobKey(y);
    }
  }

  lemma {:induction false} CheckInRunSame(x: Evidence, y: Evidence, name: string, head: Sha)
    requires SameRun(x, y) && DistinctJobs(x.jobs)
    ensures CheckInRun(x, name, head) == CheckInRun(y, name, head)
  {
    var keep := (j: Job) => j.caption == Check(name);
    SameJobs(x.jobs, y.jobs, keep);
    forall j
      ensures j in Filter(x.jobs, keep) ==> j in x.jobs
    {
      FilterMultiset(x.jobs, keep, j);
    }
    LatestJobSame(Filter(x.jobs, keep), Filter(y.jobs, keep));
  }

  lemma {:induction false} LatestRunSame(a: seq<Evidence>, b: seq<Evidence>)
    requires Reordered(a, b)
    requires forall x, y :: x in b && y in b && Rank(x.run.id) == Rank(y.run.id) ==> x == y
    ensures Latest(a, RunKey).Some? <==> Latest(b, RunKey).Some?
    ensures Latest(a, RunKey).Some? ==>
      Latest(a, RunKey).value in a && SameRun(Latest(a, RunKey).value, Latest(b, RunKey).value)
  {
    EmptyTogether(a, b);
    EmptyTogether(b, a);
    if a == [] {
    } else if Latest(a, RunKey).Some? {
      LatestKeptBy(b, a);
    } else if Latest(b, RunKey).Some? {
      LatestKeptBy(a, b);
    }
    if Latest(a, RunKey).Some? {
      var x, y := Newest(a, RunKey), Newest(b, RunKey);
      assert Has(b, x) && Has(a, y);
      var x' :| x' in b && SameRun(x, x');
      var y' :| y' in a && SameRun(y, y');
      assert RunKey(x') == RunKey(y);
    }
  }

  lemma {:induction false} LatestKeptBy(a: seq<Evidence>, b: seq<Evidence>)
    requires Contained(a, b) && Latest(b, RunKey).Some?
    ensures a != [] ==> Latest(a, RunKey).Some?
  {
    forall x | x in a
      ensures RunKey(x).Some?
    {
      assert Has(b, x);
    }
  }

  lemma {:induction false} EmptyTogether(a: seq<Evidence>, b: seq<Evidence>)
    requires Contained(a, b)
    ensures a != [] ==> b != []
  {
    if a != [] {
      assert Has(b, a[0]);
    }
  }

  lemma {:induction false} CheckStateSame(a: seq<Evidence>, b: seq<Evidence>, name: string, head: Sha)
    requires Reordered(a, b) && Distinct(a) && Distinct(b)
    ensures CheckState(a, name, head) == CheckState(b, name, head)
  {
    EmptyTogether(a, b);
    EmptyTogether(b, a);
    LatestRunSame(a, b);
    if Latest(a, RunKey).Some? {
      CheckInRunSame(Latest(a, RunKey).value, Latest(b, RunKey).value, name, head);
    }
  }

  lemma {:induction false} MarkersSame(x: Evidence, y: Evidence, m: Marker)
    requires SameRun(x, y)
    ensures AllWellFormed(x) == AllWellFormed(y)
    ensures |Markers(x, m)| == |Markers(y, m)| && forall j :: j in Markers(x, m) <==> j in Markers(y, m)
  {
    SameJobs(x.jobs, y.jobs, (j: Job) => IsMarker(j, m));
  }

  lemma {:induction false} MarkerInRunSame(x: Evidence, y: Evidence, m: Marker)
    requires SameRun(x, y)
    ensures Malformed(x, m) == Malformed(y, m) && Exact(x, m) == Exact(y, m)
    ensures MarkerInRun(x, m) == MarkerInRun(y, m)
    ensures AllWellFormed(x) == AllWellFormed(y)
  {
    MarkersSame(x, y, m);
    if |Markers(x, m)| == 1 {
      assert Markers(x, m)[0] in Markers(y, m);
    }
  }

  lemma {:induction false} ExactContained(a: seq<Evidence>, b: seq<Evidence>, m: Marker)
    requires Contained(a, b)
    ensures Contained(Filter(a, (e: Evidence) => Exact(e, m)), Filter(b, (e: Evidence) => Exact(e, m)))
    ensures (exists e :: e in a && Malformed(e, m)) ==> exists e :: e in b && Malformed(e, m)
    ensures forall x :: x in Filter(b, (e: Evidence) => Exact(e, m)) ==> x in b
  {
    var keep := (e: Evidence) => Exact(e, m);
    forall x | x in Filter(a, keep)
      ensures Has(Filter(b, keep), x)
    {
      FilterMultiset(a, keep, x);
      assert Has(b, x);
      var y :| y in b && SameRun(x, y);
      MarkerInRunSame(x, y, m);
      FilterMultiset(b, keep, y);
    }
    forall x
      ensures x in Filter(b, keep) ==> x in b
    {
      FilterMultiset(b, keep, x);
    }
    if x :| x in a && Malformed(x, m) {
      assert Has(b, x);
      var y :| y in b && SameRun(x, y);
      MarkerInRunSame(x, y, m);
    }
  }

  lemma {:induction false} MarkerStateSame(a: seq<Evidence>, b: seq<Evidence>, m: Marker)
    requires Reordered(a, b) && Distinct(b)
    ensures MarkerState(a, m) == MarkerState(b, m)
  {
    var keep := (e: Evidence) => Exact(e, m);
    ExactContained(a, b, m);
    ExactContained(b, a, m);
    LatestRunSame(Filter(a, keep), Filter(b, keep));
    var latest := Latest(Filter(a, keep), RunKey);
    if latest.Some? {
      MarkerInRunSame(latest.value, Latest(Filter(b, keep), RunKey).value, m);
    }
  }

  lemma {:induction false} ValidatedContained(a: seq<Evidence>, b: seq<Evidence>)
    requires Contained(a, b) && Validated(b)
    ensures Validated(a)
  {
    forall x | x in a
      ensures x.run.provenance && AllWellFormed(x)
    {
      assert Has(b, x);
      var y :| y in b && SameRun(x, y);
      SameJobs(x.jobs, y.jobs, (j: Job) => true);
    }
  }

  lemma {:induction false} RequiredSame(changed: bool, a: seq<Evidence>, b: seq<Evidence>, name: string, head: Sha)
    requires Reordered(a, b) && Distinct(a) && Distinct(b)
    ensures Required(changed, a, name, head) == Required(changed, b, name, head)
  {
    CheckStateSame(a, b, name, head);
    if Validated(a) { ValidatedContained(b, a); }
    if Validated(b) { ValidatedContained(a, b); }
  }

  lemma {:induction false} MarkerVerdictSame(a: seq<Evidence>, b: seq<Evidence>, m: Marker)
    requires Reordered(a, b) && Distinct(a) && Distinct(b)
    ensures MarkerVerdict(a, m) == MarkerVerdict(b, m)
  {
    MarkerStateSame(a, b, m);
    if Validated(a) { ValidatedContained(b, a); }
    if Validated(b) { ValidatedContained(a, b); }
  }

  ghost predicate SameInput(g: Input, h: Input) {
    && h == g.(docs := h.docs, fast := h.fast, risk := h.risk, policy := h.policy, deep := h.deep)
    && Reordered(g.docs, h.docs) && Reordered(g.fast, h.fast) && Reordered(g.risk, h.risk)
    && Reordered(g.policy, h.policy) && Reordered(g.deep, h.deep)
  }

  ghost predicate DistinctInput(g: Input) {
    Distinct(g.docs) && Distinct(g.fast) && Distinct(g.risk) && Distinct(g.policy) && Distinct(g.deep)
  }

  /** The order in which runs and jobs are listed never changes the decision. */
  lemma {:induction false} DecisionIgnoresOrder(g: Input, h: Input)
    requires SameInput(g, h) && DistinctInput(g) && DistinctInput(h)
    ensures Gate(g) == Gate(h)
  {
    RequiredSame(g.docsWorkflowChanged, g.docs, h.docs, DOCS_CHECK, g.head);
    RequiredSame(g.ciWorkflowChanged, g.fast, h.fast, PR_FAST_CHECK, g.head);
    RequiredSame(false, g.risk, h.risk, HIGH_RISK_CHECK, g.head);
    MarkerVerdictSame(g.policy, h.policy, Policy(g.head, g.base));
    MarkerVerdictSame(g.deep, h.deep, Deep(g.pr, g.head, g.base));
  }

  lemma {:induction false} FilterAppends<T>(a: seq<T>, b: seq<T>, keep: T -> bool)
    ensures Filter(a + b, keep) == Filter(a, keep) + Filter(b, keep)
    decreases |b|
  {
    if b == [] {
      assert a + b == a;
    } else {
      var n := |b| - 1;
      FilterAppends(a, b[..n], keep);
      assert (a + b)[..|a + b| - 1] == a + b[..n];
    }
  }

  lemma {:induction false} FilterNone<T>(a: seq<T>, keep: T -> bool)
    requires forall i :: 0 <= i < |a| ==> !keep(a[i])
    ensures Filter(a, keep) == []
  {
    if a != [] {
      FilterNone(a[..|a| - 1], keep);
    }
  }

  lemma {:induction false} UnrelatedAreNotExact(evidence: seq<Evidence>, others: seq<Evidence>, m: Marker)
    requires forall i :: 0 <= i < |others| ==> Markers(others[i], m) == []
    ensures Filter(evidence + others, (e: Evidence) => Exact(e, m)) == Filter(evidence, (e: Evidence) => Exact(e, m))
  {
    var keep := (e: Evidence) => Exact(e, m);
    FilterAppends(evidence, others, keep);
    FilterNone(others, keep);
  }

  /** Unrelated dispatch runs, however many and however new, cannot mask or forge a marker:
      well-formed runs without the exact marker leave the verdict as it is. */
  lemma {:induction false} UnrelatedRunsAreIgnored(evidence: seq<Evidence>, others: seq<Evidence>, m: Marker)
    requires forall i :: 0 <= i < |others| ==>
      others[i].run.provenance && AllWellFormed(others[i]) && Markers(others[i], m) == []
    ensures MarkerVerdict(evidence + others, m) == MarkerVerdict(evidence, m)
  {
    UnrelatedAreNotExact(evidence, others, m);
    forall e
      ensures e in evidence + others <==> e in evidence || e in others
      ensures e in others ==> e.run.provenance && AllWellFormed(e) && !Malformed(e, m)
    {
    }
    assert Validated(evidence + others) <==> Validated(evidence);
  }
}
