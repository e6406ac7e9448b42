/** Creating or verifying the write-once annotated tag of a promoted release, under races. */
module ProductionTag {
  import opened Options
  import opened GitSha

  type Tag = string

  datatype Identity = Identity(
    sourceSha: Sha, releaseId: string, migrationHead: string, artifactSha256: string, sbomSha256: string)

  // ---- the tag message ----

  datatype Json = Text(text: string) | Number(number: int) | Decimal(value: real) | Bool(b: bool) | Other

  /** A decoded message object. */
  type Payload = map<string, Json>

  const RELEASE_PREFIX := "retail-release-"
  const TAG_NAMESPACE := "production/"
  const TAG_KIND := "unihub-retail-production-promotion"

  predicate IsRunId(s: string) {
    s != "" && forall i :: 0 <= i < |s| ==> '0' <= s[i] <= '9'
  }

  /** Equality with the integer one, which the source's comparison extends to `1.0` and `true`. */
  predicate IsOne(v: Json) {
    v == Number(1) || v == Decimal(1.0) || v == Bool(true)
  }

  predicate TextIs(p: Payload, key: string, text: string) {
    key in p && p[key] == Text(text)
  }

  function IdentityFields(id: Identity): Payload {
    map["sourceSha" := Text(id.sourceSha), "releaseId" := Text(id.releaseId),
        "migrationHead" := Text(id.migrationHead), "artifactSha256" := Text(id.artifactSha256),
        "sbomSha256" := Text(id.sbomSha256)]
  }

  const EXPECTED_KEYS: set<string> :=
    {"schemaVersion", "kind", "sourceSha", "releaseId", "migrationHead", "artifactSha256", "sbomSha256",
     "ciRunId", "deployRunId"}

  function BuildMessage(id: Identity, ciRunId: string, deployRunId: string): Option<Payload> {
    if !IsRunId(ciRunId) || !IsRunId(deployRunId) then None
    else Some(map["schemaVersion" := Number(1), "kind" := Text(TAG_KIND)] + IdentityFields(id)
              + map["ciRunId" := Text(ciRunId), "deployRunId" := Text(deployRunId)])
  }

  predicate HasRunId(p: Payload, key: string) {
    key in p && p[key].Text? && IsRunId(p[key].text)
  }

  predicate VerifyMessage(p: Payload, id: Identity) {
    && p.Keys == EXPECTED_KEYS
    && IsOne(p["schemaVersion"]) && TextIs(p, "kind", TAG_KIND)
    && TextIs(p, "sourceSha", id.sourceSha) && TextIs(p, "releaseId", id.releaseId)
    && TextIs(p, "migrationHead", id.migrationHead) && TextIs(p, "artifactSha256", id.artifactSha256)
    && TextIs(p, "sbomSha256", id.sbomSha256)
    && HasRunId(p, "ciRunId") && HasRunId(p, "deployRunId")
  }

  lemma {:induction false} BuiltMessageHasItsKeys(id: Identity, ciRunId: string, deployRunId: string)
    requires IsRunId(ciRunId) && IsRunId(deployRunId)
    ensures BuildMessage(id, ciRunId, deployRunId).value.Keys == EXPECTED_KEYS
  {
  }

  /** A built message verifies against exactly the identity it was built from. */
  lemma {:induction false} BuiltMessageVerifies(id: Identity, ciRunId: string, deployRunId: string, other: Identity)
    requires IsRunId(ciRunId) && IsRunId(deployRunId)
    ensures BuildMessage(id, ciRunId, deployRunId).Some?
    ensures VerifyMessage(BuildMessage(id, ciRunId, deployRunId).value, other) <==> other == id
  {
    BuiltMessageHasItsKeys(id, ciRunId, deployRunId);
  }

  predicate NamesRun(p: Payload, ciRunId: string, deployRunId: string) {
    && "schemaVersion" in p && p["schemaVersion"] == Number(1)
    && TextIs(p, "ciRunId", ciRunId) && TextIs(p, "deployRunId", deployRunId)
  }

  /** And it names exactly the two runs it was built for. */
  lemma {:induction false} BuiltMessageNamesRun(
      id: Identity, ciRunId: string, deployRunId: string, ci: string, deploy: string)
    requires IsRunId(ciRunId) && IsRunId(deployRunId)
    ensures NamesRun(BuildMessage(id, ciRunId, deployRunId).value, ci, deploy) <==>
      ci == ciRunId && deploy == deployRunId
  {
  }

  predicate Digits(s: string) {
    |s| >= 1 && forall c :: c in s ==> c in {'0', '1', '2', '3', '4', '5', '6', '7', '8', '9'}
  }

  lemma {:induction false} RunIdExactly(s: string)
    ensures IsRunId(s) <==> Digits(s)
  {
    assert forall i :: 0 <= i < |s| ==> s[i] in s;
  }

  /** A message is built exactly when both run ids are digits. */
  lemma {:induction false} BuiltExactly(id: Identity, ciRunId: string, deployRunId: string)
    ensures BuildMessage(id, ciRunId, deployRunId).Some? <==> Digits(ciRunId) && Digits(deployRunId)
  {
    RunIdExactly(ciRunId);
    RunIdExactly(deployRunId);
  }

  /** Field by field, a version of 1 in any of its spellings, the kind, the identity, and two run
      ids in digits: nothing else may be there. */
  lemma {:induction false} VerifiedExactly(p: Payload, id: Identity)
    ensures VerifyMessage(p, id) <==>
      && p.Keys == {"schemaVersion", "kind", "sourceSha", "releaseId", "migrationHead", "artifactSha256",
                    "sbomSha256", "ciRunId", "deployRunId"}
      && p["schemaVersion"] in {Number(1), Decimal(1.0), Bool(true)}
      && p["kind"] == Text("unihub-retail-production-promotion")
      && p["sourceSha"] == Text(id.sourceSha) && p["releaseId"] == Text(id.releaseId)
      && p["migrationHead"] == Text(id.migrationHead) && p["artifactSha256"] == Text(id.artifactSha256)
      && p["sbomSha256"] == Text(id.sbomSha256)
      && p["ciRunId"].Text? && Digits(p["ciRunId"].text) && p["deployRunId"].Text? && Digits(p["deployRunId"].text)
  {
    if "ciRunId" in p && p["ciRunId"].Text? {
      RunIdExactly(p["ciRunId"].text);
    }
    if "deployRunId" in p && p["deployRunId"].Text? {
      RunIdExactly(p["deployRunId"].text);
    }
  }

  lemma {:induction false} MessageNamesOneIdentity(p: Payload, a: Identity, b: Identity)
    requires VerifyMessage(p, a) && VerifyMessage(p, b)
    ensures a == b
  {
  }

  /** The identity, the runs and the form of the version leave nothing open in a message. */
  lemma {:induction false} MessageIsDetermined(
      p: Payload, q: Payload, id: Identity, ciRunId: string, deployRunId: string)
    requires VerifyMessage(p, id) && VerifyMessage(q, id)
    requires NamesRun(p, ciRunId, deployRunId) && NamesRun(q, ciRunId, deployRunId)
    ensures p == q
  {
    assert forall k :: k in EXPECTED_KEYS ==> p[k] == q[k];
  }

  /** A verified message is the built one exactly when it also names the two runs and writes
      its version as an integer: a version of `1.0` or `true` verifies but is never built. */
  lemma {:induction false} VerifiedIsBuiltExactly(p: Payload, id: Identity, ciRunId: string, deployRunId: string)
    requires VerifyMessage(p, id)
    ensures BuildMessage(id, ciRunId, deployRunId) == Some(p) <==> NamesRun(p, ciRunId, deployRunId)
  {
    if IsRunId(ciRunId) && IsRunId(deployRunId) {
      var built := BuildMessage(id, ciRunId, deployRunId).value;
      BuiltMessageVerifies(id, ciRunId, deployRunId, id);
      BuiltMessageNamesRun(id, ciRunId, deployRunId, ciRunId, deployRunId);
      if NamesRun(p, ciRunId, deployRunId) {
        MessageIsDetermined(p, built, id, ciRunId, deployRunId);
      }
    }
  }

  // ---- the repository ----

  /** An annotated tag object; `message` is missing when it does not decode to an object. */
  datatype TagObject = TagObject(tag: Tag, targetIsCommit: bool, targetSha: Sha, message: Option<Payload>)

  datatype Ref = Ref(isTag: bool, sha: Sha)

  datatype Repo = Repo(refs: map<Tag, Ref>, objects: map<Sha, TagObject>)

  /** Fails when the identity contradicts itself. */
  function TagName(id: Identity): Option<Tag> {
    if id.releaseId == RELEASE_PREFIX + id.sourceSha then Some(TAG_NAMESPACE + id.releaseId) else None
  }

  /** The strict check of an existing tag. */
  predicate VerifyTag(repo: Repo, tag: Tag, id: Identity, ref: Ref) {
    && ref.isTag && IsSha(ref.sha) && ref.sha in repo.objects
    && var o := repo.objects[ref.sha];
       o.tag == tag && o.targetIsCommit && o.targetSha == id.sourceSha
       && o.message.Some? && VerifyMessage(o.message.value, id)
  }

  /** The tag is named after the release, whose id must be that of its source commit. */
  lemma {:induction false} TagNameExactly(id: Identity, tag: Tag)
    ensures TagName(id) == Some(tag) <==>
      id.releaseId == "retail-release-" + id.sourceSha && tag == "production/retail-release-" + id.sourceSha
  {
    assert "production/" + ("retail-release-" + id.sourceSha) == "production/retail-release-" + id.sourceSha;
  }

  // ---- concurrent calls ----

  type Pid = nat

  datatype Request = Request(id: Identity, ciRunId: string, deployRunId: string)

  datatype Status = Existing | Created

  datatype Pc =
    | Idle
    | Looking(request: Request, tag: Tag)
    | Absent(request: Request, tag: Tag)
    | Posting(request: Request, tag: Tag, sha: Sha)
    | Rechecking(request: Request, tag: Tag, won: bool)
    | Verifying(request: Request, tag: Tag, ref: Ref, status: Status, won: bool)
    | Succeeded(request: Request, tag: Tag, status: Status, won: bool)
    | Failed

  datatype World = World(repo: Repo, calls: map<Pid, Pc>)

  datatype Step =
    | Call(p: Pid, request: Request)
    | GetRef(p: Pid)
    | PostTag(p: Pid, sha: Sha)
    | PostRef(p: Pid)
    | GetFinalRef(p: Pid)
    | Verify(p: Pid)
    | OtherObject(sha: Sha, o: TagObject)       // anyone else writing to the repository
    | OtherRef(tag: Tag, ref: Ref)
    | Fail(p: Pid)

  function PcOf(w: World, p: Pid): Pc {
    if p in w.calls then w.calls[p] else Idle
  }

  predicate Enabled(w: World, step: Step) {
    match step
    case Call(p, _) => PcOf(w, p).Idle?
    case GetRef(p) => PcOf(w, p).Looking?
    case PostTag(p, sha) => PcOf(w, p).Absent? && sha !in w.repo.objects
    case PostRef(p) => PcOf(w, p).Posting?
    case GetFinalRef(p) => PcOf(w, p).Rechecking?
    case Verify(p) => PcOf(w, p).Verifying?
    case OtherObject(sha, _) => sha !in w.repo.objects
    case OtherRef(tag, _) => tag !in w.repo.refs
    case Fail(p) => !PcOf(w, p).Succeeded?
  }

  function Goto(w: World, p: Pid, pc: Pc): World {
    w.(calls := w.calls[p := pc])
  }

  function Apply(w: World, step: Step): World
    requires Enabled(w, step)
  {
    match step
    case Call(p, r) =>
      Goto(w, p, if IsRunId(r.ciRunId) && IsRunId(r.deployRunId) && TagName(r.id).Some?
                 then Looking(r, TagName(r.id).value) else Failed)
    case GetRef(p) =>
      var pc := PcOf(w, p);
      Goto(w, p, if pc.tag in w.repo.refs then Verifying(pc.request, pc.tag, w.repo.refs[pc.tag], Existing, false)
                 else Absent(pc.request, pc.tag))
    case PostTag(p, sha) =>
      var pc := PcOf(w, p);
      var r := pc.request;
      var o := TagObject(pc.tag, true, r.id.sourceSha, BuildMessage(r.id, r.ciRunId, r.deployRunId));
      Goto(w.(repo := w.repo.(objects := w.repo.objects[sha := o])), p,
           if IsSha(sha) then Posting(r, pc.tag, sha) else Failed)
    case PostRef(p) =>
      var pc := PcOf(w, p);
      if pc.tag in w.repo.refs then Goto(w, p, Rechecking(pc.request, pc.tag, false))
      else Goto(w.(repo := w.repo.(refs := w.repo.refs[pc.tag := Ref(true, pc.sha)])), p,
                Rechecking(pc.request, pc.tag, true))
    case GetFinalRef(p) =>
      var pc := PcOf(w, p);
      Goto(w, p, if pc.tag in w.repo.refs
                 then Verifying(pc.request, pc.tag, w.repo.refs[pc.tag], Created, pc.won) else Failed)
    case Verify(p) =>
      var pc := PcOf(w, p);
      Goto(w, p, if VerifyTag(w.repo, pc.tag, pc.request.id, pc.ref)
                 then Succeeded(pc.request, pc.tag, pc.status, pc.won) else Failed)
    case OtherObject(sha, o) => w.(repo := w.repo.(objects := w.repo.objects[sha := o]))
    case OtherRef(tag, ref) => w.(repo := w.repo.(refs := w.repo.refs[tag := ref]))
    case Fail(p) => Goto(w, p, Failed)
  }

  ghost predicate Possible(w: World, steps: seq<Step>)
    decreases |steps|
  {
    steps == [] || (Enabled(w, steps[0]) && Possible(Apply(w, steps[0]), steps[1..]))
  }

  ghost function Run(w: World, steps: seq<Step>): World
    requires Possible(w, steps)
    decreases |steps|
  {
    if steps == [] then w else Run(Apply(w, steps[0]), steps[1..])
  }

  // ---- write-once ----

  ghost predicate Extends(later: Repo, earlier: Repo) {
    && (forall t :: t in earlier.refs ==> t in later.refs && later.refs[t] == earlier.refs[t])
    && (forall s :: s in earlier.objects ==> s in later.objects && later.objects[s] == earlier.objects[s])
  }

  /** Whatever is recorded under a tag, its run ids included, never changes afterwards. */
  lemma {:induction false} RecordsNeverChange(w: World, steps: seq<Step>)
    requires Possible(w, steps)
    ensures Extends(Run(w, steps).repo, w.repo)
    decreases |steps|
  {
    if steps != [] {
      assert Extends(Apply(w, steps[0]).repo, w.repo);
      RecordsNeverChange(Apply(w, steps[0]), steps[1..]);
    }
  }

  /** The winner of the ref race has its own message behind the tag. */
  ghost predicate RecordsOwnRun(repo: Repo, tag: Tag, r: Request) {
    && tag in repo.refs && repo.refs[tag].sha in repo.objects
    && repo.objects[repo.refs[tag].sha].message == BuildMessage(r.id, r.ciRunId, r.deployRunId)
  }

  ghost predicate PcInv(repo: Repo, pc: Pc) {
    match pc
    case Idle => true
    case Looking(r, tag) => TagName(r.id) == Some(tag)
    case Absent(r, tag) => TagName(r.id) == Some(tag)
    case Posting(r, tag, sha) =>
      TagName(r.id) == Some(tag) && sha in repo.objects
      && repo.objects[sha].message == BuildMessage(r.id, r.ciRunId, r.deployRunId)
    case Rechecking(r, tag, won) => TagName(r.id) == Some(tag) && (won ==> RecordsOwnRun(repo, tag, r))
    case Verifying(r, tag, ref, _, won) =>
      TagName(r.id) == Some(tag) && tag in repo.refs && repo.refs[tag] == ref && (won ==> RecordsOwnRun(repo, tag, r))
    case Succeeded(r, tag, _, won) =>
      TagName(r.id) == Some(tag) && tag in repo.refs && VerifyTag(repo, tag, r.id, repo.refs[tag])
      && (won ==> RecordsOwnRun(repo, tag, r))
    case Failed => true
  }

  ghost predicate Inv(w: World) {
    forall p :: p in w.calls ==> PcInv(w.repo, w.calls[p])
  }

  lemma {:induction false} ExtensionKeepsPc(earlier: Repo, later: Repo, pc: Pc)
    requires Extends(later, earlier) && PcInv(earlier, pc)
    ensures PcInv(later, pc)
  {
  }

  lemma {:induction false} StepKeepsInv(w: World, step: Step)
    requires Inv(w) && Enabled(w, step)
    ensures Inv(Apply(w, step))
  {
    var v := Apply(w, step);
    forall p | p in v.calls
      ensures PcInv(v.repo, v.calls[p])
    {
      ExtensionKeepsPc(w.repo, v.repo, PcOf(w, p));
    }
  }

  lemma {:induction false} RunKeepsInv(w: World, steps: seq<Step>)
    requires Inv(w) && Possible(w, steps)
    ensures Inv(Run(w, steps))
    decreases |steps|
  {
    if steps != [] {
      StepKeepsInv(w, steps[0]);
      RunKeepsInv(Apply(w, steps[0]), steps[1..]);
    }
  }

  /** In every interleaving, with anyone else writing too, successful calls for one tag name
      agree on the whole release identity. */
  lemma {:induction false} SuccessfulCallsAgree(repo: Repo, steps: seq<Step>, p: Pid, q: Pid)
    requires Possible(World(repo, map[]), steps)
    requires var w := Run(World(repo, map[]), steps);
      PcOf(w, p).Succeeded? && PcOf(w, q).Succeeded? && PcOf(w, p).tag == PcOf(w, q).tag
    ensures var w := Run(World(repo, map[]), steps); PcOf(w, p).request.id == PcOf(w, q).request.id
  {
    RunKeepsInv(World(repo, map[]), steps);
    var w := Run(World(repo, map[]), steps);
    var tag := PcOf(w, p).tag;
    MessageNamesOneIdentity(w.repo.objects[w.repo.refs[tag].sha].message.value,
                            PcOf(w, p).request.id, PcOf(w, q).request.id);
  }

  /** The message recorded under a tag names this call's two runs. */
  ghost predicate NamesOwnRun(repo: Repo, tag: Tag, r: Request) {
    && tag in repo.refs && repo.refs[tag].sha in repo.objects
    && Names(repo.objects[repo.refs[tag].sha], r)
  }

  predicate Names(o: TagObject, r: Request) {
    o.message.Some? && NamesRun(o.message.value, r.ciRunId, r.deployRunId)
  }

  /** A successful call's tag verifies for its identity. It records the call's own message if
      it names the call's two runs, which it does, for good, when the call created the ref. */
  lemma {:induction false} SuccessIsVerified(repo: Repo, steps: seq<Step>, p: Pid)
    requires Possible(World(repo, map[]), steps)
    requires PcOf(Run(World(repo, map[]), steps), p).Succeeded?
    ensures var w := Run(World(repo, map[]), steps);
      var pc := PcOf(w, p);
      && TagName(pc.request.id) == Some(pc.tag) && pc.tag in w.repo.refs
      && VerifyTag(w.repo, pc.tag, pc.request.id, w.repo.refs[pc.tag])
      && (RecordsOwnRun(w.repo, pc.tag, pc.request) <==> NamesOwnRun(w.repo, pc.tag, pc.request))
      && (pc.won ==> RecordsOwnRun(w.repo, pc.tag, pc.request))
  {
    RunKeepsInv(World(repo, map[]), steps);
    var w := Run(World(repo, map[]), steps);
    var pc := PcOf(w, p);
    VerifiedIsBuiltExactly(w.repo.objects[w.repo.refs[pc.tag].sha].message.value,
                           pc.request.id, pc.request.ciRunId, pc.request.deployRunId);
  }

  // ---- whose runs a tag records ----

  /** Nobody but call `p` works with these runs: other calls have another deploy run, and other
      writers neither write a message naming them nor create this tag's ref. */
  predicate LeavesRunsTo(step: Step, p: Pid, tag: Tag, r: Request) {
    match step
    case Call(q, other) => q == p || other.deployRunId != r.deployRunId
    case OtherObject(_, o) => !Names(o, r)
    case OtherRef(t, _) => t != tag
    case _ => true
  }

  ghost predicate AllLeaveRunsTo(steps: seq<Step>, p: Pid, tag: Tag, r: Request) {
    forall i :: 0 <= i < |steps| ==> LeavesRunsTo(steps[i], p, tag, r)
  }

  /** A ref of this tag is complete, and records other runs. */
  ghost predicate RecordsOthers(repo: Repo, tag: Tag, r: Request) {
    tag in repo.refs ==> repo.refs[tag].sha in repo.objects && !Names(repo.objects[repo.refs[tag].sha], r)
  }

  predicate HasWon(pc: Pc) {
    (pc.Rechecking? || pc.Verifying? || pc.Succeeded?) && pc.won
  }

  function RequestOf(pc: Pc): Option<Request> {
    if pc.Idle? || pc.Failed? then None else Some(pc.request)
  }

  /** Until call `p` wins the ref, the tag records other runs, and no other call has its own. */
  ghost predicate OwnInv(w: World, p: Pid, tag: Tag, r: Request) {
    && (forall q :: q in w.calls && q != p && RequestOf(w.calls[q]).Some? ==>
          RequestOf(w.calls[q]).value.deployRunId != r.deployRunId)
    && (tag in w.repo.refs ==> w.repo.refs[tag].sha in w.repo.objects)
    && (RecordsOthers(w.repo, tag, r) || HasWon(PcOf(w, p)) || PcOf(w, p).Failed?)
  }

  lemma {:induction false} OthersNameOtherRuns(w: World, q: Pid, r: Request)
    requires Inv(w) && PcOf(w, q).Posting? && PcOf(w, q).request.deployRunId != r.deployRunId
    ensures PcOf(w, q).sha in w.repo.objects && !Names(w.repo.objects[PcOf(w, q).sha], r)
  {
    var other := PcOf(w, q).request;
    if IsRunId(other.ciRunId) && IsRunId(other.deployRunId) {
      BuiltMessageNamesRun(other.id, other.ciRunId, other.deployRunId, r.ciRunId, r.deployRunId);
    }
  }

  lemma {:induction false} StepKeepsOwn(w: World, step: Step, p: Pid, tag: Tag, r: Request)
    requires Inv(w) && OwnInv(w, p, tag, r) && Enabled(w, step) && LeavesRunsTo(step, p, tag, r)
    ensures OwnInv(Apply(w, step), p, tag, r)
  {
    if step.PostRef? && step.p != p {
      OthersNameOtherRuns(w, step.p, r);
    }
  }

  lemma {:induction false} RunKeepsOwn(w: World, steps: seq<Step>, p: Pid, tag: Tag, r: Request)
    requires Inv(w) && OwnInv(w, p, tag, r) && Possible(w, steps) && AllLeaveRunsTo(steps, p, tag, r)
    ensures OwnInv(Run(w, steps), p, tag, r)
    decreases |steps|
  {
    if steps != [] {
      assert LeavesRunsTo(steps[0], p, tag, r);
      StepKeepsInv(w, steps[0]);
      StepKeepsOwn(w, steps[0], p, tag, r);
      assert forall i :: 0 <= i < |steps| - 1 ==> steps[1..][i] == steps[i + 1];
      RunKeepsOwn(Apply(w, steps[0]), steps[1..], p, tag, r);
    }
  }

  /** In every run in which nobody else works with its runs, a successful call has its own
      message recorded exactly when it was the one that created the ref. */
  lemma {:induction false} OwnRunRecordedExactly(repo: Repo, steps: seq<Step>, p: Pid)
    requires Possible(World(repo, map[]), steps)
    requires PcOf(Run(World(repo, map[]), steps), p).Succeeded?
    requires var pc := PcOf(Run(World(repo, map[]), steps), p);
      AllLeaveRunsTo(steps, p, pc.tag, pc.request) && RecordsOthers(repo, pc.tag, pc.request)
    ensures var w := Run(World(repo, map[]), steps);
      var pc := PcOf(w, p);
      RecordsOwnRun(w.repo, pc.tag, pc.request) <==> pc.won
  {
    var pc := PcOf(Run(World(repo, map[]), steps), p);
    RunKeepsOwn(World(repo, map[]), steps, p, pc.tag, pc.request);
    SuccessIsVerified(repo, steps, p);
  }

  /** A call past its write of the ref remembers how that went. */
  predicate Remembers(pc: Pc, tag: Tag, won: bool) {
    pc.Failed? || ((pc.Rechecking? || pc.Verifying? || pc.Succeeded?) && pc.tag == tag && pc.won == won)
  }

  lemma {:induction false} RunRemembers(w: World, steps: seq<Step>, p: Pid, tag: Tag, won: bool)
    requires Remembers(PcOf(w, p), tag, won) && Possible(w, steps)
    ensures Remembers(PcOf(Run(w, steps), p), tag, won)
    decreases |steps|
  {
    if steps != [] {
      assert Remembers(PcOf(Apply(w, steps[0]), p), tag, won);
      RunRemembers(Apply(w, steps[0]), steps[1..], p, tag, won);
    }
  }

  lemma {:induction false} RunSplits(w: World, before: seq<Step>, step: Step, after: seq<Step>)
    requires Possible(w, before + [step] + after)
    ensures Possible(w, before) && Enabled(Run(w, before), step) && Possible(Apply(Run(w, before), step), after)
    ensures Run(w, before + [step] + after) == Run(Apply(Run(w, before), step), after)
    decreases |before|
  {
    var all := before + [step] + after;
    if before == [] {
      assert all[1..] == after;
    } else {
      assert all[1..] == before[1..] + [step] + after;
      RunSplits(Apply(w, before[0]), before[1..], step, after);
    }
  }

  /** So what a call that is reported as created leaves behind is settled when it writes the
      ref: its own runs are recorded exactly when the tag does not exist at that moment. */
  lemma {:induction false} CreatedRecordsOwnRunExactly(repo: Repo, before: seq<Step>, after: seq<Step>, p: Pid)
    requires Possible(World(repo, map[]), before + [PostRef(p)] + after)
    requires PcOf(Run(World(repo, map[]), before + [PostRef(p)] + after), p).Succeeded?
    requires var pc := PcOf(Run(World(repo, map[]), before + [PostRef(p)] + after), p);
      AllLeaveRunsTo(before + [PostRef(p)] + after, p, pc.tag, pc.request) && RecordsOthers(repo, pc.tag, pc.request)
    ensures var w := Run(World(repo, map[]), before + [PostRef(p)] + after);
      var pc := PcOf(w, p);
      && Possible(World(repo, map[]), before)
      && (RecordsOwnRun(w.repo, pc.tag, pc.request) <==> pc.tag !in Run(World(repo, map[]), before).repo.refs)
  {
    var w0 := World(repo, map[]);
    OwnRunRecordedExactly(repo, before + [PostRef(p)] + after, p);
    RunSplits(w0, before, PostRef(p), after);
    var w := Run(w0, before);
    var tag := PcOf(w, p).tag;
    RunRemembers(Apply(w, PostRef(p)), after, p, tag, tag !in w.repo.refs);
  }

  lemma {:induction false} RunCons(w: World, step: Step, rest: seq<Step>)
    requires Enabled(w, step) && Possible(Apply(w, step), rest)
    ensures Possible(w, [step] + rest) && Run(w, [step] + rest) == Run(Apply(w, step), rest)
  {
    assert ([step] + rest)[1..] == rest;
  }

  function Name(c: char): Sha {
    seq(40, i => c)
  }

  /** What is left for a call that found no tag and comes too late to write it. */
  lemma {:induction false} LoserFinishes(w: World, r: Request, tag: Tag, sha: Sha) returns (steps: seq<Step>)
    requires PcOf(w, 2) == Absent(r, tag) && IsSha(sha) && sha !in w.repo.objects
    requires tag in w.repo.refs && VerifyTag(w.repo, tag, r.id, w.repo.refs[tag])
    ensures Possible(w, steps) && PcOf(Run(w, steps), 2) == Succeeded(r, tag, Created, false)
    ensures Extends(Run(w, steps).repo, w.repo)
  {
    var w1 := Apply(w, PostTag(2, sha));
    var w2 := Apply(w1, PostRef(2));
    var w3 := Apply(w2, GetFinalRef(2));
    steps := [];
    RunCons(w3, Verify(2), steps);
    steps := [Verify(2)] + steps;
    RunCons(w2, GetFinalRef(2), steps);
    steps := [GetFinalRef(2)] + steps;
    RunCons(w1, PostRef(2), steps);
    steps := [PostRef(2)] + steps;
    RunCons(w, PostTag(2, sha), steps);
    steps := [PostTag(2, sha)] + steps;
    RecordsNeverChange(w, steps);
  }

  /** A call that meets nobody, from its start to the ref. */
  lemma {:induction false} WinnerWrites(w: World, r: Request, tag: Tag, sha: Sha) returns (steps: seq<Step>)
    requires PcOf(w, 1).Idle? && TagName(r.id) == Some(tag) && IsRunId(r.ciRunId) && IsRunId(r.deployRunId)
    requires tag !in w.repo.refs && IsSha(sha) && sha !in w.repo.objects
    ensures Possible(w, steps)
    ensures var o := TagObject(tag, true, r.id.sourceSha, BuildMessage(r.id, r.ciRunId, r.deployRunId));
      Run(w, steps) == World(Repo(w.repo.refs[tag := Ref(true, sha)], w.repo.objects[sha := o]),
                             w.calls[1 := Rechecking(r, tag, true)])
  {
    var w1 := Apply(w, Call(1, r));
    var w2 := Apply(w1, GetRef(1));
    var w3 := Apply(w2, PostTag(1, sha));
    RunCons(w3, PostRef(1), []);
    steps := [PostRef(1)] + [];
    RunCons(w2, PostTag(1, sha), steps);
    steps := [PostTag(1, sha)] + steps;
    RunCons(w1, GetRef(1), steps);
    steps := [GetRef(1)] + steps;
    RunCons(w, Call(1, r), steps);
    steps := [Call(1, r)] + steps;
  }

  lemma {:induction false} RunAppends(w: World, a: seq<Step>, b: seq<Step>)
    requires Possible(w, a) && Possible(Run(w, a), b)
    ensures Possible(w, a + b) && Run(w, a + b) == Run(Run(w, a), b)
    decreases |a|
  {
    if a == [] {
      assert a + b == b;
    } else {
      RunAppends(Apply(w, a[0]), a[1..], b);
      assert (a + b)[1..] == a[1..] + b;
    }
  }

  /** A call goes ahead exactly when its run ids are digits and its release names its commit. */
  lemma {:induction false} CallGoesAheadExactly(w: World, q: Pid, r: Request)
    requires PcOf(w, q).Idle?
    ensures PcOf(Apply(w, Call(q, r)), q).Looking? <==>
      Digits(r.ciRunId) && Digits(r.deployRunId) && r.id.releaseId == "retail-release-" + r.id.sourceSha
    ensures PcOf(Apply(w, Call(q, r)), q).Looking? || PcOf(Apply(w, Call(q, r)), q).Failed?
  {
    RunIdExactly(r.ciRunId);
    RunIdExactly(r.deployRunId);
  }

  /** A call that finds the tag succeeds exactly when the tag is verified for its identity, and
      then writes nothing. */
  lemma {:induction false} ExistingTagDecides(w: World, q: Pid, r: Request, tag: Tag) returns (steps: seq<Step>)
    requires PcOf(w, q).Idle? && TagName(r.id) == Some(tag) && IsRunId(r.ciRunId) && IsRunId(r.deployRunId)
    requires tag in w.repo.refs
    ensures steps == [Call(q, r), GetRef(q), Verify(q)] && Possible(w, steps) && Run(w, steps).repo == w.repo
    ensures PcOf(Run(w, steps), q) ==
      if VerifyTag(w.repo, tag, r.id, w.repo.refs[tag]) then Succeeded(r, tag, Existing, false) else Failed
  {
    var w1 := Apply(w, Call(q, r));
    var w2 := Apply(w1, GetRef(q));
    RunCons(w2, Verify(q), []);
    RunCons(w1, GetRef(q), [Verify(q)] + []);
    RunCons(w, Call(q, r), [GetRef(q)] + ([Verify(q)] + []));
    steps := [Call(q, r)] + ([GetRef(q)] + ([Verify(q)] + []));
  }

  /** After a successful call, repeating it for the same tag name succeeds exactly for the same
      identity, whatever the run ids, and changes nothing. */
  lemma {:induction false} RepeatedCallExactly(repo: Repo, before: seq<Step>, p: Pid, q: Pid, r: Request)
    returns (steps: seq<Step>)
    requires Possible(World(repo, map[]), before) && PcOf(Run(World(repo, map[]), before), p).Succeeded?
    requires var w := Run(World(repo, map[]), before);
      PcOf(w, q).Idle? && TagName(r.id) == Some(PcOf(w, p).tag) && IsRunId(r.ciRunId) && IsRunId(r.deployRunId)
    ensures var w := Run(World(repo, map[]), before);
      && Possible(w, steps) && Run(w, steps).repo == w.repo
      && PcOf(Run(w, steps), q) ==
           (if r.id == PcOf(w, p).request.id then Succeeded(r, PcOf(w, p).tag, Existing, false) else Failed)
  {
    RunKeepsInv(World(repo, map[]), before);
    var w := Run(World(repo, map[]), before);
    var tag := PcOf(w, p).tag;
    steps := ExistingTagDecides(w, q, r, tag);
    if VerifyTag(w.repo, tag, r.id, w.repo.refs[tag]) {
      MessageNamesOneIdentity(w.repo.objects[w.repo.refs[tag].sha].message.value, r.id, PcOf(w, p).request.id);
    }
  }

  /** The tag that the winner wrote verifies for the release, and names the winner's runs only. */
  lemma {:induction false} WinnersTag(repo: Repo, r: Request, winner: Request, tag: Tag, sha: Sha)
    requires winner.id == r.id && winner.deployRunId != r.deployRunId && IsSha(sha)
    requires IsRunId(r.ciRunId) && IsRunId(r.deployRunId) && IsRunId(winner.ciRunId) && IsRunId(winner.deployRunId)
    requires tag in repo.refs && repo.refs[tag] == Ref(true, sha) && sha in repo.objects
    requires repo.objects[sha]
          == TagObject(tag, true, r.id.sourceSha, BuildMessage(r.id, winner.ciRunId, winner.deployRunId))
    ensures VerifyTag(repo, tag, r.id, repo.refs[tag])
    ensures RecordsOwnRun(repo, tag, winner) && !RecordsOwnRun(repo, tag, r)
  {
    BuiltMessageVerifies(r.id, winner.ciRunId, winner.deployRunId, r.id);
    BuiltMessageNamesRun(r.id, winner.ciRunId, winner.deployRunId, r.ciRunId, r.deployRunId);
    BuiltMessageNamesRun(r.id, r.ciRunId, r.deployRunId, r.ciRunId, r.deployRunId);
  }

  /** A call that loses the race for the ref to another call for the same release is reported
      as having created the tag, while the tag records the winner's runs instead of its own. */
  lemma {:induction false} LoserIsReportedCreated(r: Request, winner: Request, tag: Tag) returns (steps: seq<Step>)
    requires TagName(r.id) == Some(tag) && winner.id == r.id && winner.deployRunId != r.deployRunId
    requires IsRunId(r.ciRunId) && IsRunId(r.deployRunId) && IsRunId(winner.ciRunId) && IsRunId(winner.deployRunId)
    ensures Possible(World(Repo(map[], map[]), map[]), steps)
    ensures var w := Run(World(Repo(map[], map[]), map[]), steps);
      && PcOf(w, 2) == Succeeded(r, tag, Created, false)
      && RecordsOwnRun(w.repo, tag, winner) && !RecordsOwnRun(w.repo, tag, r)
  {
    var w0 := World(Repo(map[], map[]), map[]);
    var w1 := Apply(w0, Call(2, r));
    var w2 := Apply(w1, GetRef(2));
    assert w2 == World(w0.repo, map[2 := Absent(r, tag)]);
    assert Name('a')[0] != Name('b')[0];
    var first := WinnerWrites(w2, winner, tag, Name('a'));
    var w3 := Run(w2, first);
    WinnersTag(w3.repo, r, winner, tag, Name('a'));
    var last := LoserFinishes(w3, r, tag, Name('b'));
    RunAppends(w2, first, last);
    RunCons(w1, GetRef(2), first + last);
    RunCons(w0, Call(2, r), [GetRef(2)] + (first + last));
    steps := [Call(2, r)] + ([GetRef(2)] + (first + last));
  }
}
