/** The complexity contract check, and what chains of accepted contracts guarantee. */
module ComplexityRatchet {
  import opened Options
  import opened Sequences

  const THRESHOLD := 19

  datatype Identity = Identity(path: string, functionName: string)

  datatype Entry = Entry(id: Identity, ceiling: Option<int>, current: Option<int>)

  datatype Gate = Gte20 | Gte30 | Maximum | NewFunction

  /** A parsed contract. `digestMatches` is the comparison of the payload with its own digest;
      `algorithm` is the canonical form of the algorithm block. */
  datatype Contract = Contract(
    version: int,
    gates: map<Gate, int>,
    legacyGates: bool,
    entries: seq<Entry>,
    remediation: seq<Identity>,
    history: map<string, string>,
    algorithm: string,
    digestMatches: bool)

  datatype Metric = Metric(id: Identity, complexity: int)

  datatype Status = Pass | RatchetRequired | Fail

  // ---- readings ----

  function CeilingOf(e: Entry): int {
    if e.ceiling.Some? then e.ceiling.value else if e.current.Some? then e.current.value else 0
  }

  /** The ceiling a contract locks a function at; the last entry wins. */
  function Locked(entries: seq<Entry>, id: Identity): Option<int> {
    if entries == [] then None
    else if entries[|entries| - 1].id == id then Some(CeilingOf(entries[|entries| - 1]))
    else Locked(entries[..|entries| - 1], id)
  }

  /** The measured complexity of a function; the last measurement wins. */
  function Measured(metrics: seq<Metric>, id: Identity): Option<int> {
    if metrics == [] then None
    else if metrics[|metrics| - 1].id == id then Some(metrics[|metrics| - 1].complexity)
    else Measured(metrics[..|metrics| - 1], id)
  }

  /** How many measurements are at least `floor`. */
  function CountFrom(metrics: seq<Metric>, floor: int): nat {
    if metrics == [] then 0
    else CountFrom(metrics[..|metrics| - 1], floor) + (if metrics[|metrics| - 1].complexity >= floor then 1 else 0)
  }

  /** The largest measurement, or 0 when there is none. */
  function Highest(metrics: seq<Metric>): int {
    if |metrics| == 0 then 0
    else if |metrics| == 1 then metrics[0].complexity
    else
      var before := Highest(metrics[..|metrics| - 1]);
      if before < metrics[|metrics| - 1].complexity then metrics[|metrics| - 1].complexity else before
  }

  // ---- the rules ----

  predicate Named(id: Identity) {
    id.path != "" && id.functionName != ""
  }

  function Ids(entries: seq<Entry>): seq<Identity> {
    seq(|entries|, i requires 0 <= i < |entries| => entries[i].id)
  }

  ghost predicate SchemaOk(c: Contract, checkThreshold: bool) {
    && c.version == 2 && !c.legacyGates
    && Gte20 in c.gates && Gte30 in c.gates && Maximum in c.gates && NewFunction in c.gates
    && (checkThreshold ==> c.gates[NewFunction] == THRESHOLD)
    && (forall i :: 0 <= i < |c.entries| ==>
          Named(c.entries[i].id) && (c.entries[i].ceiling.Some? || c.entries[i].current.Some?))
    && Distinct(Ids(c.entries))
    && (forall i :: 0 <= i < |c.remediation| ==> Named(c.remediation[i])) && Distinct(c.remediation)
  }

  ghost predicate PreviousOk(previous: Option<Contract>) {
    previous.Some? ==> SchemaOk(previous.value, true) && previous.value.digestMatches
  }

  ghost predicate Structured(c: Contract, previous: Option<Contract>, runtime: string) {
    PreviousOk(previous) && SchemaOk(c, previous.None?) && c.algorithm == runtime && c.digestMatches
  }

  /** The measurements stay within everything the contract states. */
  ghost predicate WithinLimits(c: Contract, metrics: seq<Metric>)
    requires SchemaOk(c, false)
  {
    && CountFrom(metrics, c.gates[NewFunction] + 1) <= c.gates[Gte20]
    && CountFrom(metrics, 30) <= c.gates[Gte30]
    && Highest(metrics) <= c.gates[Maximum]
    && (forall i :: 0 <= i < |metrics| && metrics[i].complexity > c.gates[NewFunction] ==>
          Locked(c.entries, metrics[i].id).Some?)
    && (forall i :: 0 <= i < |c.entries| ==> AtMost(Measured(metrics, c.entries[i].id), CeilingOf(c.entries[i])))
  }

  predicate AtMost(measured: Option<int>, bound: int) {
    measured.Some? ==> measured.value <= bound
  }

  /** A locked function that has come down below its ceiling. */
  predicate Slack(metrics: seq<Metric>, e: Entry) {
    Measured(metrics, e.id).Some? && Measured(metrics, e.id).value < CeilingOf(e)
  }

  /** Nothing measured is strictly better than the contract says. */
  ghost predicate Tight(c: Contract, metrics: seq<Metric>)
    requires SchemaOk(c, false)
  {
    && CountFrom(metrics, c.gates[NewFunction] + 1) >= c.gates[Gte20]
    && CountFrom(metrics, 30) >= c.gates[Gte30]
    && Highest(metrics) >= c.gates[Maximum]
    && (forall i :: 0 <= i < |c.entries| ==> !Slack(metrics, c.entries[i]))
  }

  /** The monotone transition from one accepted contract to the next. */
  ghost predicate Transition(c: Contract, previous: Contract, metrics: seq<Metric>)
    requires SchemaOk(c, false) && SchemaOk(previous, true)
  {
    && c.gates[Gte20] <= previous.gates[Gte20] && c.gates[Gte30] <= previous.gates[Gte30]
    && c.gates[Maximum] <= previous.gates[Maximum]
    && c.gates[NewFunction] == THRESHOLD
    && (forall i :: 0 <= i < |previous.entries| ==> Kept(c, metrics, previous.entries[i]))
    && (forall k :: k in previous.history ==> k in c.history && c.history[k] == previous.history[k])
    && c.algorithm == previous.algorithm
    && (forall i :: 0 <= i < |c.entries| ==> Earned(c, previous, metrics, c.entries[i]))
  }

  /** A locked function keeps its ceiling or a lower one; its lock goes only when it has
      left the tree or come down to the threshold. */
  predicate Kept(c: Contract, metrics: seq<Metric>, e: Entry)
    requires NewFunction in c.gates
  {
    if Locked(c.entries, e.id).Some? then Locked(c.entries, e.id).value <= CeilingOf(e)
    else AtMost(Measured(metrics, e.id), c.gates[NewFunction])
  }

  /** A new lock never covers a function that is above the threshold now. */
  predicate Earned(c: Contract, previous: Contract, metrics: seq<Metric>, e: Entry)
    requires NewFunction in c.gates
  {
    Locked(previous.entries, e.id).Some? || AtMost(Measured(metrics, e.id), c.gates[NewFunction])
  }

  ghost function Verdict(c: Contract, previous: Option<Contract>, metrics: seq<Metric>, runtime: string): Status {
    if !Structured(c, previous, runtime) then Fail
    else if !WithinLimits(c, metrics) then Fail
    else if previous.Some? && !Transition(c, previous.value, metrics) then Fail
    else if !Tight(c, metrics) then RatchetRequired
    else Pass
  }

  // ---- the check ----

  /** Names are present and no identity is listed twice. */
  method CheckIdentities(ids: seq<Identity>) returns (ok: bool)
    ensures ok <==> (forall i :: 0 <= i < |ids| ==> Named(ids[i])) && Distinct(ids)
  {
    var seen: set<Identity> := {};
    for i := 0 to |ids|
      invariant forall id :: id in seen <==> exists k :: 0 <= k < i && ids[k] == id
      invariant (forall k :: 0 <= k < i ==> Named(ids[k])) && Distinct(ids[..i])
    {
      if !Named(ids[i]) {
        return false;
      }
      if ids[i] in seen {
        return false;
      }
      seen := seen + {ids[i]};
    }
    assert ids[..|ids|] == ids;
    return true;
  }

  method CheckSchema(c: Contract, checkThreshold: bool) returns (ok: bool)
    ensures ok <==> SchemaOk(c, checkThreshold)
  {
    if c.version != 2 || c.legacyGates
       || Gte20 !in c.gates || Gte30 !in c.gates || Maximum !in c.gates || NewFunction !in c.gates {
      return false;
    }
    if checkThreshold && c.gates[NewFunction] != THRESHOLD {
      return false;
    }
    for i := 0 to |c.entries|
      invariant forall k :: 0 <= k < i ==> c.entries[k].ceiling.Some? || c.entries[k].current.Some?
    {
      if c.entries[i].ceiling.None? && c.entries[i].current.None? {
        return false;
      }
    }
    var entriesOk := CheckIdentities(Ids(c.entries));
    assert forall i :: 0 <= i < |c.entries| ==> Ids(c.entries)[i] == c.entries[i].id;
    var remediationOk := CheckIdentities(c.remediation);
    return entriesOk && remediationOk;
  }

  method Measure(metrics: seq<Metric>, threshold: int) returns (above: nat, gte30: nat, highest: int)
    ensures above == CountFrom(metrics, threshold + 1) && gte30 == CountFrom(metrics, 30) && highest == Highest(metrics)
  {
    above, gte30, highest := 0, 0, 0;
    for i := 0 to |metrics|
      invariant above == CountFrom(metrics[..i], threshold + 1) && gte30 == CountFrom(metrics[..i], 30)
      invariant highest == Highest(metrics[..i])
    {
      assert metrics[..i + 1][..i] == metrics[..i];
      var m := metrics[i].complexity;
      if m > threshold {
        above := above + 1;
      }
      if m >= 30 {
        gte30 := gte30 + 1;
      }
      if i == 0 || highest < m {
        highest := m;
      }
    }
    assert metrics[..|metrics|] == metrics;
  }

  method CheckLimits(c: Contract, metrics: seq<Metric>) returns (within: bool, tight: bool)
    requires SchemaOk(c, false)
    ensures within <==> WithinLimits(c, metrics)
    ensures within ==> (tight <==> Tight(c, metrics))
  {
    var above, gte30, highest := Measure(metrics, c.gates[NewFunction]);
    tight := above >= c.gates[Gte20] && gte30 >= c.gates[Gte30] && highest >= c.gates[Maximum];
    if above > c.gates[Gte20] || gte30 > c.gates[Gte30] || highest > c.gates[Maximum] {
      return false, tight;
    }
    for i := 0 to |metrics|
      invariant forall k :: 0 <= k < i && metrics[k].complexity > c.gates[NewFunction] ==>
        Locked(c.entries, metrics[k].id).Some?
    {
      if metrics[i].complexity > c.gates[NewFunction] && Locked(c.entries, metrics[i].id).None? {
        return false, tight;
      }
    }
    var loose := false;
    for i := 0 to |c.entries|
      invariant forall k :: 0 <= k < i ==> AtMost(Measured(metrics, c.entries[k].id), CeilingOf(c.entries[k]))
      invariant loose <==> exists k :: 0 <= k < i && Slack(metrics, c.entries[k])
    {
      var measured := Measured(metrics, c.entries[i].id);
      if measured.Some? && measured.value > CeilingOf(c.entries[i]) {
        return false, tight;
      }
      if measured.Some? && measured.value < CeilingOf(c.entries[i]) {
        loose := true;
      }
    }
    return true, tight && !loose;
  }

  method CheckHistory(c: Contract, previous: Contract) returns (ok: bool)
    ensures ok <==> forall k :: k in previous.history ==> k in c.history && c.history[k] == previous.history[k]
  {
    var left := previous.history.Keys;
    while left != {}
      invariant left <= previous.history.Keys
      invariant forall k :: k in previous.history && k !in left ==>
        k in c.history && c.history[k] == previous.history[k]
    {
      var k :| k in left;
      if k !in c.history || c.history[k] != previous.history[k] {
        return false;
      }
      left := left - {k};
    }
    return true;
  }

  method CheckTransition(c: Contract, previous: Contract, metrics: seq<Metric>) returns (ok: bool)
    requires SchemaOk(c, false) && SchemaOk(previous, true)
    ensures ok <==> Transition(c, previous, metrics)
  {
    if c.gates[Gte20] > previous.gates[Gte20] || c.gates[Gte30] > previous.gates[Gte30]
       || c.gates[Maximum] > previous.gates[Maximum] || c.gates[NewFunction] != THRESHOLD
       || c.algorithm != previous.algorithm {
      return false;
    }
    ok := CheckHistory(c, previous);
    if !ok {
      return false;
    }
    for i := 0 to |previous.entries|
      invariant forall k :: 0 <= k < i ==> Kept(c, metrics, previous.entries[k])
    {
      if !Kept(c, metrics, previous.entries[i]) {
        return false;
      }
    }
    for i := 0 to |c.entries|
      invariant forall k :: 0 <= k < i ==> Earned(c, previous, metrics, c.entries[k])
    {
      if !Earned(c, previous, metrics, c.entries[i]) {
        return false;
      }
    }
    return true;
  }

  method Evaluate(c: Contract, previous: Option<Contract>, metrics: seq<Metric>, runtime: string)
    returns (status: Status)
    ensures status == Verdict(c, previous, metrics, runtime)
  {
    var ok := true;
    if previous.Some? {
      ok := CheckSchema(previous.value, true);
      ok := ok && previous.value.digestMatches;
    }
    var schemaOk := CheckSchema(c, previous.None?);
    if !ok || !schemaOk || c.algorithm != runtime || !c.digestMatches {
      return Fail;
    }
    var within, tight := CheckLimits(c, metrics);
    if previous.Some? {
      ok := CheckTransition(c, previous.value, metrics);
    }
    if !within || !ok {
      return Fail;
    }
    return if tight then Pass else RatchetRequired;
  }

  // ---- chains of accepted contracts ----

  /** A release: a contract and the measurements it was accepted with. */
  datatype Release = Release(contract: Contract, metrics: seq<Metric>, runtime: string)

  ghost predicate Accepted(r: Release, previous: Option<Contract>) {
    Verdict(r.contract, previous, r.metrics, r.runtime).Pass?
  }

  /** Each release passed against the contract of the one before it. */
  ghost predicate Chain(rs: seq<Release>) {
    rs != [] &&
    if |rs| == 1 then Accepted(rs[0], None)
    else Chain(rs[..|rs| - 1]) && Accepted(rs[|rs| - 1], Some(rs[|rs| - 2].contract))
  }

  lemma {:induction false} FindEntry(entries: seq<Entry>, id: Identity) returns (i: nat)
    requires Locked(entries, id).Some?
    ensures i < |entries| && entries[i].id == id && Locked(entries, id) == Some(CeilingOf(entries[i]))
    decreases |entries|
  {
    if entries[|entries| - 1].id == id {
      i := |entries| - 1;
    } else {
      i := FindEntry(entries[..|entries| - 1], id);
    }
  }

  /** The contract states its measurements exactly. */
  ghost predicate Exact(r: Release) {
    var gates := r.contract.gates;
    && Gte20 in gates && Gte30 in gates && Maximum in gates && NewFunction in gates && gates[NewFunction] == THRESHOLD
    && CountFrom(r.metrics, THRESHOLD + 1) == gates[Gte20] && CountFrom(r.metrics, 30) == gates[Gte30]
    && Highest(r.metrics) == gates[Maximum]
  }

  /** The contract asks for no less than the one before it. */
  ghost predicate Follows(c: Contract, previous: Contract) {
    && (forall g :: g in {Gte20, Gte30, Maximum} && g in c.gates && g in previous.gates ==>
          c.gates[g] <= previous.gates[g])
    && c.algorithm == previous.algorithm
    && (forall k :: k in previous.history ==> k in c.history && c.history[k] == previous.history[k])
  }

  ghost predicate LockedAndPresent(r: Release, id: Identity) {
    Locked(r.contract.entries, id).Some? && Measured(r.metrics, id).Some?
  }

  function Complexity(r: Release, id: Identity): int {
    if Measured(r.metrics, id).Some? then Measured(r.metrics, id).value else 0
  }

  function Ceiling(c: Contract, id: Identity): int {
    if Locked(c.entries, id).Some? then Locked(c.entries, id).value else 0
  }

  lemma {:induction false} PassIsExact(r: Release, previous: Option<Contract>)
    requires Accepted(r, previous)
    ensures Exact(r) && (previous.Some? ==> Follows(r.contract, previous.value))
  {
  }

  lemma {:induction false} PassHoldsFunction(r: Release, previous: Option<Contract>, id: Identity)
    requires Accepted(r, previous)
    ensures LockedAndPresent(r, id) ==> Complexity(r, id) == Ceiling(r.contract, id)
    ensures previous.Some? && Locked(previous.value.entries, id).Some? && Locked(r.contract.entries, id).Some? ==>
      Ceiling(r.contract, id) <= Ceiling(previous.value, id)
  {
    if Locked(r.contract.entries, id).Some? {
      var i := FindEntry(r.contract.entries, id);
      if previous.Some? && Locked(previous.value.entries, id).Some? {
        var k := FindEntry(previous.value.entries, id);
        assert Kept(r.contract, r.metrics, previous.value.entries[k]);
      }
    }
  }

  lemma {:induction false} ChainLink(rs: seq<Release>, k: nat, id: Identity)
    requires Chain(rs) && k < |rs|
    ensures Exact(rs[k]) && (k > 0 ==> Follows(rs[k].contract, rs[k - 1].contract))
    ensures LockedAndPresent(rs[k], id) ==> Complexity(rs[k], id) == Ceiling(rs[k].contract, id)
    ensures k > 0 && Locked(rs[k - 1].contract.entries, id).Some? && Locked(rs[k].contract.entries, id).Some? ==>
      Ceiling(rs[k].contract, id) <= Ceiling(rs[k - 1].contract, id)
    decreases |rs|
  {
    if k < |rs| - 1 {
      ChainLink(rs[..|rs| - 1], k, id);
    } else {
      var previous := if k == 0 then None else Some(rs[k - 1].contract);
      PassIsExact(rs[k], previous);
      PassHoldsFunction(rs[k], previous, id);
    }
  }

  /** What never rises from one release to a later one. */
  ghost predicate NotWorse(earlier: Release, later: Release) {
    && CountFrom(later.metrics, THRESHOLD + 1) <= CountFrom(earlier.metrics, THRESHOLD + 1)
    && CountFrom(later.metrics, 30) <= CountFrom(earlier.metrics, 30)
    && Highest(later.metrics) <= Highest(earlier.metrics)
    && later.contract.algorithm == earlier.contract.algorithm
    && (forall k :: k in earlier.contract.history ==>
          k in later.contract.history && later.contract.history[k] == earlier.contract.history[k])
  }

  /** Along any chain of passes the counts, the maximum, the history and the algorithm only
      move in the allowed direction, and the threshold for new functions stays where it is. */
  lemma {:induction false} ChainNeverRises(rs: seq<Release>, i: nat, j: nat)
    requires Chain(rs) && i <= j < |rs|
    ensures NotWorse(rs[i], rs[j])
    ensures NewFunction in rs[j].contract.gates && rs[j].contract.gates[NewFunction] == THRESHOLD
    decreases j - i
  {
    var any := Identity("", "");
    ChainLink(rs, j, any);
    if i < j {
      ChainLink(rs, j - 1, any);
      ChainNeverRises(rs, i, j - 1);
    }
  }

  /** A function that stays locked and present never becomes more complex. */
  lemma {:induction false} LockedFunctionNeverRises(rs: seq<Release>, i: nat, j: nat, id: Identity)
    requires Chain(rs) && i <= j < |rs|
    requires forall k :: i <= k <= j ==> LockedAndPresent(rs[k], id)
    ensures Complexity(rs[j], id) <= Complexity(rs[i], id)
    decreases j - i
  {
    if i < j {
      LockedFunctionNeverRises(rs, i, j - 1, id);
      ChainLink(rs, j - 1, id);
      ChainLink(rs, j, id);
    }
  }

  // ---- the verdict, read off the measurements ----

  /** The number of places with a measurement of at least `floor`. */
  function CountOver(metrics: seq<Metric>, floor: int): nat {
    |set i | 0 <= i < |metrics| && metrics[i].complexity >= floor|
  }

  lemma {:induction false} CountExactly(metrics: seq<Metric>, floor: int)
    ensures CountFrom(metrics, floor) == CountOver(metrics, floor)
    decreases |metrics|
  {
    if metrics != [] {
      var n := |metrics| - 1;
      CountExactly(metrics[..n], floor);
      var before := set i | 0 <= i < n && metrics[..n][i].complexity >= floor;
      var all := set i | 0 <= i < |metrics| && metrics[i].complexity >= floor;
      assert all == before + (if metrics[n].complexity >= floor then {n} else {});
    }
  }

  lemma {:induction false} HighestExactly(metrics: seq<Metric>)
    ensures metrics == [] ==> Highest(metrics) == 0
    ensures metrics != [] ==> exists i :: 0 <= i < |metrics| && metrics[i].complexity == Highest(metrics)
    ensures forall i :: 0 <= i < |metrics| ==> metrics[i].complexity <= Highest(metrics)
    decreases |metrics|
  {
    if |metrics| > 1 {
      var n := |metrics| - 1;
      HighestExactly(metrics[..n]);
      assert forall i :: 0 <= i < n ==> metrics[..n][i] == metrics[i];
      assert Highest(metrics) == metrics[n].complexity || Highest(metrics) == Highest(metrics[..n]);
      var k :| 0 <= k < n && metrics[..n][k].complexity == Highest(metrics[..n]);
      assert metrics[k].complexity == Highest(metrics[..n]);
    } else if |metrics| == 1 {
      assert metrics[0].complexity == Highest(metrics);
    }
  }

  /** The last measurement of a function is at this place. */
  predicate LastAt(metrics: seq<Metric>, id: Identity, i: nat) {
    i < |metrics| && metrics[i].id == id && forall j :: i < j < |metrics| ==> metrics[j].id != id
  }

  lemma {:induction false} MeasuredExactly(metrics: seq<Metric>, id: Identity)
    ensures Measured(metrics, id).None? <==> forall i :: 0 <= i < |metrics| ==> metrics[i].id != id
    ensures forall i: nat :: LastAt(metrics, id, i) ==> Measured(metrics, id) == Some(metrics[i].complexity)
    ensures Measured(metrics, id).Some? ==> exists i: nat :: LastAt(metrics, id, i)
    decreases |metrics|
  {
    if metrics != [] && metrics[|metrics| - 1].id != id {
      var n := |metrics| - 1;
      MeasuredExactly(metrics[..n], id);
      assert forall i :: 0 <= i < n ==> metrics[..n][i] == metrics[i];
      forall i: nat
        ensures LastAt(metrics, id, i) <==> LastAt(metrics[..n], id, i)
      {
      }
    } else if metrics != [] {
      assert LastAt(metrics, id, |metrics| - 1);
    }
  }

  lemma {:induction false} LockedExactly(entries: seq<Entry>, id: Identity)
    ensures Locked(entries, id).None? <==> forall i :: 0 <= i < |entries| ==> entries[i].id != id
    decreases |entries|
  {
    if entries != [] && entries[|entries| - 1].id != id {
      LockedExactly(entries[..|entries| - 1], id);
      assert forall i :: 0 <= i < |entries| - 1 ==> entries[..|entries| - 1][i] == entries[i];
    }
  }

  /** The ceiling an entry states, or else its current complexity. */
  predicate States(e: Entry, ceiling: int) {
    e.ceiling == Some(ceiling) || (e.ceiling == None && e.current == Some(ceiling))
  }

  /** The measured value of a locked function is on this side of its ceiling. */
  ghost predicate SomeLock(c: Contract, metrics: seq<Metric>, side: (int, int) -> bool) {
    exists k, i: nat, ceiling ::
      && 0 <= k < |c.entries| && LastAt(metrics, c.entries[k].id, i) && States(c.entries[k], ceiling)
      && side(metrics[i].complexity, ceiling)
  }

  /** A measured function above 19 that no entry locks. */
  ghost predicate Unlocked(c: Contract, metrics: seq<Metric>) {
    exists i :: 0 <= i < |metrics| && metrics[i].complexity > 19
      && forall k :: 0 <= k < |c.entries| ==> c.entries[k].id != metrics[i].id
  }

  /** Something measured is worse than the contract allows. */
  ghost predicate Worse(c: Contract, metrics: seq<Metric>)
    requires Gte20 in c.gates && Gte30 in c.gates && Maximum in c.gates
  {
    || CountOver(metrics, 20) > c.gates[Gte20] || CountOver(metrics, 30) > c.gates[Gte30]
    || (exists i :: 0 <= i < |metrics| && metrics[i].complexity > c.gates[Maximum])
    || (metrics == [] && c.gates[Maximum] < 0)
    || Unlocked(c, metrics) || SomeLock(c, metrics, (measured, ceiling) => measured > ceiling)
  }

  /** Something measured is strictly better than the contract says. */
  ghost predicate Better(c: Contract, metrics: seq<Metric>)
    requires Gte20 in c.gates && Gte30 in c.gates && Maximum in c.gates
  {
    || CountOver(metrics, 20) < c.gates[Gte20] || CountOver(metrics, 30) < c.gates[Gte30]
    || (if metrics == [] then 0 < c.gates[Maximum]
        else forall i :: 0 <= i < |metrics| ==> metrics[i].complexity < c.gates[Maximum])
    || SomeLock(c, metrics, (measured, ceiling) => measured < ceiling)
  }

  lemma {:induction false} StatesItsCeiling(e: Entry, ceiling: int)
    requires e.ceiling.Some? || e.current.Some?
    ensures States(e, ceiling) <==> ceiling == CeilingOf(e)
  {
  }

  lemma {:induction false} LocksExactly(c: Contract, metrics: seq<Metric>)
    requires SchemaOk(c, false)
    ensures SomeLock(c, metrics, (measured, ceiling) => measured > ceiling) <==>
      exists k :: 0 <= k < |c.entries| && !AtMost(Measured(metrics, c.entries[k].id), CeilingOf(c.entries[k]))
    ensures SomeLock(c, metrics, (measured, ceiling) => measured < ceiling) <==>
      exists k :: 0 <= k < |c.entries| && Slack(metrics, c.entries[k])
  {
    forall k | 0 <= k < |c.entries|
      ensures forall i: nat :: LastAt(metrics, c.entries[k].id, i) ==>
        Measured(metrics, c.entries[k].id) == Some(metrics[i].complexity)
      ensures Measured(metrics, c.entries[k].id).Some? ==> exists i: nat :: LastAt(metrics, c.entries[k].id, i)
      ensures States(c.entries[k], CeilingOf(c.entries[k]))
      ensures forall ceiling :: States(c.entries[k], ceiling) ==> ceiling == CeilingOf(c.entries[k])
    {
      MeasuredExactly(metrics, c.entries[k].id);
    }
  }

  lemma {:induction false} UnlockedExactly(c: Contract, metrics: seq<Metric>)
    ensures Unlocked(c, metrics) <==>
      exists i :: 0 <= i < |metrics| && metrics[i].complexity > THRESHOLD && Locked(c.entries, metrics[i].id).None?
  {
    forall i | 0 <= i < |metrics|
      ensures Locked(c.entries, metrics[i].id).None? <==>
        forall k :: 0 <= k < |c.entries| ==> c.entries[k].id != metrics[i].id
    {
      LockedExactly(c.entries, metrics[i].id);
    }
  }

  lemma {:induction false} LimitsExactly(c: Contract, metrics: seq<Metric>)
    requires SchemaOk(c, true)
    ensures WithinLimits(c, metrics) <==> !Worse(c, metrics)
    ensures Tight(c, metrics) <==> !Better(c, metrics)
  {
    CountExactly(metrics, 20);
    CountExactly(metrics, 30);
    HighestExactly(metrics);
    LocksExactly(c, metrics);
    UnlockedExactly(c, metrics);
  }

  /** The form of a contract: version 2, the four gates with the threshold at 19, and entries and
      remediations that name their functions, each once, entries with a number beside. */
  ghost predicate WellStated(c: Contract) {
    && c.version == 2 && !c.legacyGates
    && c.gates.Keys >= {Gte20, Gte30, Maximum, NewFunction} && c.gates[NewFunction] == 19
    && (forall e :: e in c.entries ==> e.id.path != "" && e.id.functionName != "")
    && (forall e :: e in c.entries ==> exists n :: States(e, n))
    && (forall i, j :: 0 <= i < |c.entries| && 0 <= j < |c.entries| && c.entries[i].id == c.entries[j].id ==> i == j)
    && (forall x :: x in c.remediation ==> x.path != "" && x.functionName != "")
    && (forall i, j :: 0 <= i < |c.remediation| && 0 <= j < |c.remediation| && c.remediation[i] == c.remediation[j] ==>
          i == j)
  }

  lemma {:induction false} SchemaExactly(c: Contract)
    ensures SchemaOk(c, true) <==> WellStated(c)
  {
    assert forall i :: 0 <= i < |c.entries| ==> Ids(c.entries)[i] == c.entries[i].id && c.entries[i] in c.entries;
    assert forall i :: 0 <= i < |c.remediation| ==> c.remediation[i] in c.remediation;
    forall e: Entry
      ensures (e.ceiling.Some? || e.current.Some?) <==> exists n :: States(e, n)
    {
      if e.ceiling.Some? || e.current.Some? {
        assert States(e, CeilingOf(e));
      }
    }
  }

  /** No verdict but FAIL for a contract whose digest, algorithm or form is not right, or whose
      previous contract is not. */
  lemma {:induction false} UnsignedFails(c: Contract, previous: Option<Contract>, metrics: seq<Metric>, runtime: string)
    requires !Verdict(c, previous, metrics, runtime).Fail?
    ensures c.digestMatches && c.algorithm == runtime && WellStated(c)
    ensures previous.Some? ==>
      previous.value.digestMatches && previous.value.algorithm == runtime && WellStated(previous.value)
  {
    SchemaExactly(c);
    if previous.Some? {
      SchemaExactly(previous.value);
    }
  }

  /** Some entry for the function states this number. */
  ghost predicate LocksAt(c: Contract, id: Identity, ceiling: int) {
    exists k :: 0 <= k < |c.entries| && c.entries[k].id == id && States(c.entries[k], ceiling)
  }

  ghost predicate LocksNone(c: Contract, id: Identity) {
    forall k :: 0 <= k < |c.entries| ==> c.entries[k].id != id
  }

  /** The function is measured, and its last measurement is above 19. */
  ghost predicate High(metrics: seq<Metric>, id: Identity) {
    exists i: nat :: LastAt(metrics, id, i) && metrics[i].complexity > 19
  }

  /** No gate rises, the algorithm stays and the history is kept; a lock never rises, goes only
      from a function that is not high, and comes only to one that is not. */
  ghost predicate MayFollow(c: Contract, previous: Contract, metrics: seq<Metric>)
    requires WellStated(c) && WellStated(previous)
  {
    && c.gates[Gte20] <= previous.gates[Gte20] && c.gates[Gte30] <= previous.gates[Gte30]
    && c.gates[Maximum] <= previous.gates[Maximum] && c.algorithm == previous.algorithm
    && (forall k :: k in previous.history ==> k in c.history && c.history[k] == previous.history[k])
    && (forall id, n, before :: LocksAt(c, id, n) && LocksAt(previous, id, before) ==> n <= before)
    && (forall e :: e in previous.entries && LocksNone(c, e.id) ==> !High(metrics, e.id))
    && (forall e :: e in c.entries && LocksNone(previous, e.id) ==> !High(metrics, e.id))
  }

  lemma {:induction false} LockedIs(c: Contract, id: Identity)
    requires WellStated(c)
    ensures Locked(c.entries, id).None? <==> LocksNone(c, id)
    ensures forall n :: LocksAt(c, id, n) <==> Locked(c.entries, id) == Some(n)
  {
    LockedExactly(c.entries, id);
    SchemaExactly(c);
    forall k | 0 <= k < |c.entries| && c.entries[k].id == id
      ensures Locked(c.entries, id) == Some(CeilingOf(c.entries[k])) && States(c.entries[k], CeilingOf(c.entries[k]))
      ensures forall n :: States(c.entries[k], n) ==> n == CeilingOf(c.entries[k])
    {
      EntryIsTheLock(c.entries, k);
      assert c.entries[k] in c.entries;
    }
    if Locked(c.entries, id).Some? {
      var k := FindEntry(c.entries, id);
    }
  }

  lemma {:induction false} HighExactly(metrics: seq<Metric>, id: Identity)
    ensures High(metrics, id) <==> !AtMost(Measured(metrics, id), 19)
  {
    MeasuredExactly(metrics, id);
  }

  lemma {:induction false} FollowsExactly(c: Contract, previous: Contract, metrics: seq<Metric>)
    requires WellStated(c) && WellStated(previous) && SchemaOk(c, true) && SchemaOk(previous, true)
    ensures Transition(c, previous, metrics) <==> MayFollow(c, previous, metrics)
  {
    forall id
      ensures Locked(c.entries, id).None? <==> LocksNone(c, id)
      ensures forall n :: LocksAt(c, id, n) <==> Locked(c.entries, id) == Some(n)
      ensures Locked(previous.entries, id).None? <==> LocksNone(previous, id)
      ensures forall n :: LocksAt(previous, id, n) <==> Locked(previous.entries, id) == Some(n)
      ensures High(metrics, id) <==> !AtMost(Measured(metrics, id), 19)
    {
      LockedIs(c, id);
      LockedIs(previous, id);
      HighExactly(metrics, id);
    }
    KeptExactly(c, previous, metrics);
    EarnedExactly(c, previous, metrics);
  }

  lemma {:induction false} KeptExactly(c: Contract, previous: Contract, metrics: seq<Metric>)
    requires WellStated(c) && WellStated(previous)
    ensures (forall i :: 0 <= i < |previous.entries| ==> Kept(c, metrics, previous.entries[i])) <==>
      && (forall id, n, before :: LocksAt(c, id, n) && LocksAt(previous, id, before) ==> n <= before)
      && (forall e :: e in previous.entries && LocksNone(c, e.id) ==> !High(metrics, e.id))
  {
    forall i | 0 <= i < |previous.entries|
      ensures Locked(previous.entries, previous.entries[i].id) == Some(CeilingOf(previous.entries[i]))
      ensures previous.entries[i] in previous.entries
    {
      SchemaExactly(previous);
      EntryIsTheLock(previous.entries, i);
    }
    forall id
      ensures Locked(c.entries, id).None? <==> LocksNone(c, id)
      ensures forall n :: LocksAt(c, id, n) <==> Locked(c.entries, id) == Some(n)
      ensures forall n :: LocksAt(previous, id, n) <==> Locked(previous.entries, id) == Some(n)
      ensures High(metrics, id) <==> !AtMost(Measured(metrics, id), 19)
    {
      LockedIs(c, id);
      LockedIs(previous, id);
      HighExactly(metrics, id);
    }
    if forall i :: 0 <= i < |previous.entries| ==> Kept(c, metrics, previous.entries[i]) {
      forall id, n, before | LocksAt(c, id, n) && LocksAt(previous, id, before)
        ensures n <= before
      {
        var k := FindEntry(previous.entries, id);
        assert Kept(c, metrics, previous.entries[k]);
      }
    }
  }

  lemma {:induction false} EarnedExactly(c: Contract, previous: Contract, metrics: seq<Metric>)
    requires WellStated(c) && WellStated(previous)
    ensures (forall i :: 0 <= i < |c.entries| ==> Earned(c, previous, metrics, c.entries[i])) <==>
      forall e :: e in c.entries && LocksNone(previous, e.id) ==> !High(metrics, e.id)
  {
    forall id
      ensures Locked(previous.entries, id).None? <==> LocksNone(previous, id)
      ensures High(metrics, id) <==> !AtMost(Measured(metrics, id), 19)
    {
      LockedIs(previous, id);
      HighExactly(metrics, id);
    }
    assert forall i :: 0 <= i < |c.entries| ==> c.entries[i] in c.entries;
  }

  /** For a well-formed, signed contract that may follow the previous one, the verdict is told
      by the measurements: FAIL when something is worse, RATCHET_REQUIRED when nothing is worse
      and something is better, PASS when everything is as stated. */
  lemma {:induction false} VerdictExactly(
      c: Contract, previous: Option<Contract>, metrics: seq<Metric>, runtime: string)
    requires WellStated(c) && c.digestMatches && c.algorithm == runtime
    requires previous.Some? ==>
      WellStated(previous.value) && previous.value.digestMatches && MayFollow(c, previous.value, metrics)
    ensures Verdict(c, previous, metrics, runtime) ==
      if Worse(c, metrics) then Fail else if Better(c, metrics) then RatchetRequired else Pass
  {
    SchemaExactly(c);
    if previous.Some? {
      SchemaExactly(previous.value);
      FollowsExactly(c, previous.value, metrics);
    }
    LimitsExactly(c, metrics);
  }

  // ---- functions above the threshold ----

  lemma {:induction false} FindMetric(metrics: seq<Metric>, id: Identity) returns (i: nat)
    requires Measured(metrics, id).Some?
    ensures i < |metrics| && metrics[i] == Metric(id, Measured(metrics, id).value)
    decreases |metrics|
  {
    if metrics[|metrics| - 1].id == id {
      i := |metrics| - 1;
    } else {
      i := FindMetric(metrics[..|metrics| - 1], id);
    }
  }

  lemma {:induction false} CountedAtLeastOnce(metrics: seq<Metric>, floor: int, i: nat)
    requires i < |metrics| && metrics[i].complexity >= floor
    ensures CountFrom(metrics, floor) >= 1
    decreases |metrics|
  {
    if i < |metrics| - 1 {
      CountedAtLeastOnce(metrics[..|metrics| - 1], floor, i);
    }
  }

  lemma {:induction false} CountedIsHighest(metrics: seq<Metric>, floor: int)
    requires CountFrom(metrics, floor) >= 1
    ensures Highest(metrics) >= floor
    decreases |metrics|
  {
    if |metrics| > 1 && metrics[|metrics| - 1].complexity < floor {
      CountedIsHighest(metrics[..|metrics| - 1], floor);
    }
  }

  lemma {:induction false} EntryIsTheLock(entries: seq<Entry>, i: nat)
    requires Distinct(Ids(entries)) && i < |entries|
    ensures Locked(entries, entries[i].id) == Some(CeilingOf(entries[i]))
    decreases |entries|
  {
    var n := |entries| - 1;
    assert forall k :: 0 <= k <= n ==> Ids(entries)[k] == entries[k].id;
    if i < n {
      assert Ids(entries[..n]) == Ids(entries)[..n];
      EntryIsTheLock(entries[..n], i);
    }
  }

  /** The release passes against `before` and measures this function above the threshold. */
  ghost predicate MeasuresAbove(next: Release, before: Contract, id: Identity) {
    Accepted(next, Some(before)) && Complexity(next, id) > THRESHOLD
  }

  /** A function measured above the threshold was locked by the contract before, at no less. */
  lemma {:induction false} AboveThresholdWasLocked(next: Release, before: Contract, id: Identity)
    requires MeasuresAbove(next, before, id)
    ensures Ceiling(before, id) >= Complexity(next, id) && CountFrom(next.metrics, THRESHOLD + 1) >= 1
  {
    var i := FindMetric(next.metrics, id);
    CountedAtLeastOnce(next.metrics, THRESHOLD + 1, i);
    var k := FindEntry(next.contract.entries, id);
    assert Earned(next.contract, before, next.metrics, next.contract.entries[k]);
    PassHoldsFunction(next, Some(before), id);
  }

  // A contract that states one function at 20 as the only complex one.

  function Lock(id: Identity): Entry {
    Entry(id, Some(20), None)
  }

  function Stating(entries: seq<Entry>, like: Contract): Contract {
    Contract(2, map[Gte20 := 1, Gte30 := 0, Maximum := 20, NewFunction := THRESHOLD], false, entries, [],
             like.history, like.algorithm, true)
  }

  function Stated(entries: seq<Entry>, like: Contract, id: Identity): Release {
    Release(Stating(entries, like), [Metric(id, 20)], like.algorithm)
  }

  ghost predicate Locks(entries: seq<Entry>, id: Identity) {
    && (forall i :: 0 <= i < |entries| ==> Named(entries[i].id) && entries[i].ceiling == Some(20))
    && Distinct(Ids(entries)) && Locked(entries, id).Some?
  }

  lemma {:induction false} MeasuredOne(id: Identity, x: Identity)
    ensures Measured([Metric(id, 20)], x) == if x == id then Some(20) else None
  {
    assert [Metric(id, 20)][..0] == [];
  }

  lemma {:induction false} CountsOne(id: Identity)
    ensures CountFrom([Metric(id, 20)], THRESHOLD + 1) == 1 && CountFrom([Metric(id, 20)], 30) == 0
  {
    assert [Metric(id, 20)][..0] == [];
  }

  lemma {:induction false} StatedExactly(id: Identity, entries: seq<Entry>, like: Contract)
    requires Locks(entries, id)
    ensures SchemaOk(Stating(entries, like), true)
    ensures WithinLimits(Stating(entries, like), [Metric(id, 20)]) && Tight(Stating(entries, like), [Metric(id, 20)])
  {
    CountsOne(id);
    MeasuredOne(id, id);
    forall i | 0 <= i < |entries|
      ensures AtMost(Measured([Metric(id, 20)], entries[i].id), CeilingOf(entries[i]))
      ensures !Slack([Metric(id, 20)], entries[i])
    {
      MeasuredOne(id, entries[i].id);
    }
  }

  /** It may follow any contract that leaves room for the function and for every lock it repeats. */
  lemma {:induction false} StatedFollows(id: Identity, entries: seq<Entry>, before: Contract)
    requires Locks(entries, id) && SchemaOk(before, true) && Locked(before.entries, id).Some?
    requires before.gates[Gte20] >= 1 && before.gates[Gte30] >= 0 && before.gates[Maximum] >= 20
    requires forall i :: 0 <= i < |before.entries| && Locked(entries, before.entries[i].id).Some? ==>
      CeilingOf(before.entries[i]) >= 20
    ensures SchemaOk(Stating(entries, before), true)
    ensures Transition(Stating(entries, before), before, [Metric(id, 20)])
  {
    StatedExactly(id, entries, before);
    forall i | 0 <= i < |before.entries|
      ensures Kept(Stating(entries, before), [Metric(id, 20)], before.entries[i])
    {
      MeasuredOne(id, before.entries[i].id);
      if Locked(entries, before.entries[i].id).Some? {
        var k := FindEntry(entries, before.entries[i].id);
      }
    }
    forall i | 0 <= i < |entries|
      ensures Earned(Stating(entries, before), before, [Metric(id, 20)], entries[i])
    {
      MeasuredOne(id, entries[i].id);
    }
  }

  lemma {:induction false} StatedIsAccepted(id: Identity, entries: seq<Entry>, before: Contract)
    requires Locks(entries, id) && SchemaOk(before, true) && before.digestMatches && Locked(before.entries, id).Some?
    requires before.gates[Gte20] >= 1 && before.gates[Gte30] >= 0 && before.gates[Maximum] >= 20
    requires forall i :: 0 <= i < |before.entries| && Locked(entries, before.entries[i].id).Some? ==>
      CeilingOf(before.entries[i]) >= 20
    ensures Accepted(Stated(entries, before, id), Some(before))
  {
    StatedExactly(id, entries, before);
    StatedFollows(id, entries, before);
  }

  /** A lock with room above the threshold can always be used, while some function is up there. */
  lemma {:induction false} LockCanBeUsed(r: Release, previous: Option<Contract>, id: Identity)
    requires Accepted(r, previous)
    requires CountFrom(r.metrics, THRESHOLD + 1) >= 1 && Ceiling(r.contract, id) > THRESHOLD
    ensures MeasuresAbove(Stated([Lock(id)], r.contract, id), r.contract, id)
  {
    PassIsExact(r, previous);
    CountedIsHighest(r.metrics, THRESHOLD + 1);
    var k := FindEntry(r.contract.entries, id);
    forall i | 0 <= i < |r.contract.entries| && Locked([Lock(id)], r.contract.entries[i].id).Some?
      ensures CeilingOf(r.contract.entries[i]) >= 20
    {
      var only := FindEntry([Lock(id)], r.contract.entries[i].id);
      EntryIsTheLock(r.contract.entries, i);
    }
    assert Locks([Lock(id)], id);
    StatedIsAccepted(id, [Lock(id)], r.contract);
    MeasuredOne(id, id);
  }

  /** The next release can measure a function above the threshold exactly when this one has
      some function there and its contract locks that function above the threshold. */
  lemma {:induction false} AboveNextExactly(r: Release, previous: Option<Contract>, id: Identity)
    requires Accepted(r, previous)
    ensures (exists next :: MeasuresAbove(next, r.contract, id)) <==>
      CountFrom(r.metrics, THRESHOLD + 1) >= 1 && Ceiling(r.contract, id) > THRESHOLD
  {
    PassIsExact(r, previous);
    if next :| MeasuresAbove(next, r.contract, id) {
      AboveThresholdWasLocked(next, r.contract, id);
      PassIsExact(next, Some(r.contract));
    }
    if CountFrom(r.metrics, THRESHOLD + 1) >= 1 && Ceiling(r.contract, id) > THRESHOLD {
      LockCanBeUsed(r, previous, id);
    }
  }

  /** A function none of these releases measures. */
  ghost predicate Unmeasured(rs: seq<Release>, id: Identity) {
    forall k :: 0 <= k < |rs| ==> Measured(rs[k].metrics, id).None?
  }

  /** A lock above the threshold of a function that none of these releases measures. */
  ghost predicate UnusedLock(rs: seq<Release>, e: Entry) {
    CeilingOf(e) > THRESHOLD && Unmeasured(rs, e.id)
  }

  /** A function that none of the given releases measures can appear above the threshold in
      the next one exactly when this release has some function there and its contract holds
      an unused lock. */
  lemma {:induction false} UnmeasuredAppearsExactly(rs: seq<Release>, r: Release, previous: Option<Contract>)
    requires Accepted(r, previous)
    ensures (exists next, id :: MeasuresAbove(next, r.contract, id) && Unmeasured(rs, id)) <==>
      && CountFrom(r.metrics, THRESHOLD + 1) >= 1
      && exists i :: 0 <= i < |r.contract.entries| && UnusedLock(rs, r.contract.entries[i])
  {
    if next, id :| MeasuresAbove(next, r.contract, id) && Unmeasured(rs, id) {
      AboveNextExactly(r, previous, id);
      var k := FindEntry(r.contract.entries, id);
      assert UnusedLock(rs, r.contract.entries[k]);
    }
    if i :| 0 <= i < |r.contract.entries| && UnusedLock(rs, r.contract.entries[i]) {
      EntryIsTheLock(r.contract.entries, i);
      AboveNextExactly(r, previous, r.contract.entries[i].id);
    }
  }

  /** Along a chain: a function never measured before can appear above the threshold in the
      next release exactly when the last one has some function there and its contract holds
      a lock above the threshold of a function that was never measured. */
  lemma {:induction false} NeverMeasuredAppearsExactly(rs: seq<Release>)
    requires Chain(rs)
    ensures var r := rs[|rs| - 1];
      (exists next, id :: Chain(rs + [next]) && Complexity(next, id) > THRESHOLD && Unmeasured(rs, id)) <==>
      && CountFrom(r.metrics, THRESHOLD + 1) >= 1
      && exists i :: 0 <= i < |r.contract.entries| && UnusedLock(rs, r.contract.entries[i])
  {
    var n := |rs| - 1;
    UnmeasuredAppearsExactly(rs, rs[n], if n == 0 then None else Some(rs[n - 1].contract));
    forall next
      ensures Chain(rs + [next]) <==> Accepted(next, Some(rs[n].contract))
    {
      assert (rs + [next])[..|rs|] == rs;
    }
    if next, id :| MeasuresAbove(next, rs[n].contract, id) && Unmeasured(rs, id) {
      assert Chain(rs + [next]);
    }
    if next, id :| Chain(rs + [next]) && Complexity(next, id) > THRESHOLD && Unmeasured(rs, id) {
      assert MeasuresAbove(next, rs[n].contract, id);
    }
  }

  /** The condition is met: a lock may be recorded while its function does not exist yet, and
      the function may then appear, above the threshold and never measured before. */
  lemma {:induction false} LockMayPrecedeFunction(id: Identity, next: Identity, like: Contract)
    returns (rs: seq<Release>)
    requires Named(id) && Named(next) && id != next
    ensures |rs| == 3 && Chain(rs) && Unmeasured(rs[..2], next) && Complexity(rs[2], next) > THRESHOLD
  {
    var both := [Lock(id), Lock(next)];
    assert both[..1] == [Lock(id)];
    var a, b := Stated([Lock(id)], like, id), Stated(both, like, id);
    StatedExactly(id, [Lock(id)], like);
    StatedIsAccepted(id, both, a.contract);
    CountsOne(id);
    LockCanBeUsed(b, Some(a.contract), next);
    MeasuredOne(id, next);
    rs := [a, b, Stated([Lock(next)], b.contract, next)];
    assert rs[..2] == [a, b] && [a, b][..1] == [a];
  }
}
