/** Choosing the backend tests a pull request must run, from the built import graph. */
module TestSelection {
  import opened ImportClosure
  import opened Sequences

  type Path = string

  const MAX_SELECTED := 120

  datatype State = NoEligibleChange | Selected | EscalationRequired | Error

  /** An indexed test file; `imports` is empty when the file does not parse. */
  datatype TestFile = TestFile(moduleName: Module, file: Path, parses: bool, imports: set<Module>)

  datatype SelectedTest = SelectedTest(nodeId: Module, file: Path)

  /** The classified diff: what the git and trust-surface stages hand to the selection. */
  datatype Diff = Diff(
    trustSurfaceChanged: bool,
    deletedTests: bool,
    deletedProduction: bool,
    dynamicImportChanged: bool,
    eligibleChanged: seq<Path>,
    changedTests: seq<Path>)

  /** The repository at the head commit. `moduleOf` and `testModuleOf` are the
      path-to-module mappings of production files and of test files. */
  datatype Tree = Tree(
    forward: Graph,
    tests: seq<TestFile>,
    moduleOf: map<Path, Module>,
    testModuleOf: map<Path, Module>)

  ghost predicate WellFormed(tree: Tree, diff: Diff) {
    && (forall i, j :: 0 <= i < j < |tree.tests| ==> tree.tests[i].moduleName != tree.tests[j].moduleName)
    && (forall t :: t in tree.tests ==> t.file in tree.testModuleOf && tree.testModuleOf[t.file] == t.moduleName)
    && Distinct(diff.changedTests)
  }

  function Mapped(moduleOf: map<Path, Module>, paths: seq<Path>): (ms: set<Module>)
    ensures forall m :: m in ms <==> exists p :: p in paths && p in moduleOf && moduleOf[p] == m
  {
    if paths == [] then {}
    else
      var (before, last) := (paths[..|paths| - 1], paths[|paths| - 1]);
      assert forall p :: p in paths <==> p in before || p == last;
      Mapped(moduleOf, before) + (if last in moduleOf then {moduleOf[last]} else {})
  }

  /** The changed production modules. */
  function Starts(tree: Tree, diff: Diff): (starts: set<Module>)
    ensures forall m :: m in starts <==>
      exists p :: p in diff.eligibleChanged && p in tree.moduleOf && tree.moduleOf[p] == m
  {
    Mapped(tree.moduleOf, diff.eligibleChanged)
  }

  /** Everything that transitively imports a changed module, and what the changed modules import. */
  ghost predicate Impacted(tree: Tree, diff: Diff, m: Module) {
    || ReachesStart(tree.forward, Starts(tree, diff), m)
    || exists s :: s in Starts(tree, diff) && m in Get(tree.forward, s)
  }

  ghost predicate MustRun(tree: Tree, diff: Diff, t: TestFile) {
    t.parses && exists m :: m in t.imports && Impacted(tree, diff, m)
  }

  function NodeIds(selected: seq<SelectedTest>): set<Module> {
    set t | t in selected :: t.nodeId
  }

  ghost predicate DistinctFiles(selected: seq<SelectedTest>) {
    forall i, j :: 0 <= i < j < |selected| ==> selected[i].file != selected[j].file
  }

  /** One entry per test module, each under a file of that module. */
  ghost predicate Unique(tree: Tree, selected: seq<SelectedTest>) {
    && (forall i, j :: 0 <= i < j < |selected| ==> selected[i].nodeId != selected[j].nodeId)
    && (forall t :: t in selected ==>
          t.file in tree.testModuleOf && tree.testModuleOf[t.file] == t.nodeId)
  }

  lemma {:induction false} UniqueFiles(tree: Tree, selected: seq<SelectedTest>)
    requires Unique(tree, selected)
    ensures DistinctFiles(selected)
  {
    forall i, j | 0 <= i < j < |selected|
      ensures selected[i].file != selected[j].file
    {
      assert selected[i] in selected && selected[j] in selected;
    }
  }

  /** The tests that import an impacted module. */
  method ImportingTests(tree: Tree, impacted: set<Module>) returns (selected: seq<SelectedTest>)
    requires forall i, j :: 0 <= i < j < |tree.tests| ==> tree.tests[i].moduleName != tree.tests[j].moduleName
    requires forall t :: t in tree.tests ==> t.file in tree.testModuleOf && tree.testModuleOf[t.file] == t.moduleName
    ensures Unique(tree, selected)
    ensures forall t :: t in tree.tests ==>
      (SelectedTest(t.moduleName, t.file) in selected <==> t.parses && t.imports * impacted != {})
    ensures forall x :: x in selected ==> exists t :: t in tree.tests && x == SelectedTest(t.moduleName, t.file)
  {
    selected := [];
    for i := 0 to |tree.tests|
      invariant Unique(tree, selected)
      invariant forall k :: 0 <= k < i ==>
        (SelectedTest(tree.tests[k].moduleName, tree.tests[k].file) in selected
         <==> tree.tests[k].parses && tree.tests[k].imports * impacted != {})
      invariant forall x :: x in selected ==>
        exists k :: 0 <= k < i && x == SelectedTest(tree.tests[k].moduleName, tree.tests[k].file)
    {
      var t := tree.tests[i];
      assert t in tree.tests;
      if t.parses && t.imports * impacted != {} && t.moduleName !in NodeIds(selected) {
        selected := selected + [SelectedTest(t.moduleName, t.file)];
      }
    }
  }

  /** Adds the changed test files whose module was not already selected. */
  method AddChangedTests(tree: Tree, changed: seq<Path>, before: seq<SelectedTest>)
    returns (selected: seq<SelectedTest>)
    requires Unique(tree, before)
    ensures Unique(tree, selected) && before <= selected
    ensures forall x :: x in selected ==> x in before || x.file in changed
    ensures forall p :: p in changed && p in tree.testModuleOf ==> tree.testModuleOf[p] in NodeIds(selected)
  {
    selected := before;
    for i := 0 to |changed|
      invariant Unique(tree, selected) && before <= selected
      invariant forall x :: x in selected ==> x in before || x.file in changed
      invariant forall k :: 0 <= k < i && changed[k] in tree.testModuleOf ==>
        tree.testModuleOf[changed[k]] in NodeIds(selected)
    {
      var path := changed[i];
      if path in tree.testModuleOf && tree.testModuleOf[path] !in NodeIds(selected) {
        var entry := SelectedTest(tree.testModuleOf[path], path);
        assert NodeIds(selected + [entry]) == NodeIds(selected) + {entry.nodeId};
        selected := selected + [entry];
      }
    }
  }

  /** A diff that touches only tests selects every changed test file. */
  method ChangedTestsOnly(tree: Tree, changed: seq<Path>) returns (selected: seq<SelectedTest>)
    requires Distinct(changed)
    ensures |selected| == |changed| && forall i :: 0 <= i < |changed| ==> selected[i].file == changed[i]
  {
    selected := [];
    for i := 0 to |changed|
      invariant |selected| == i && forall k :: 0 <= k < i ==> selected[k].file == changed[k]
    {
      var path := changed[i];
      selected := selected + [SelectedTest(if path in tree.testModuleOf then tree.testModuleOf[path] else path, path)];
    }
  }

  method ImpactedModules(tree: Tree, diff: Diff) returns (impacted: set<Module>)
    ensures forall m :: m in impacted <==> Impacted(tree, diff, m)
  {
    var starts := Starts(tree, diff);
    var reverse := ReverseGraph(tree.forward);
    impacted := ReverseClosure(starts, reverse, tree.forward);
    impacted := impacted + set s, m | s in starts && m in Get(tree.forward, s) :: m;
  }

  /** Changes that no import graph of the head commit can be trusted about. */
  predicate Untrusted(diff: Diff) {
    diff.trustSurfaceChanged || diff.deletedTests || diff.deletedProduction || diff.dynamicImportChanged
  }

  /** Nothing in the diff takes the import graph's word away. */
  ghost predicate Trusted(diff: Diff) {
    !diff.trustSurfaceChanged && !diff.deletedTests && !diff.deletedProduction && !diff.dynamicImportChanged
  }

  /** What a selection for changed production code must contain, and may contain: every
      test with an import chain to a changed module, every changed test module, nothing else. */
  ghost predicate Covers(tree: Tree, diff: Diff, selected: seq<SelectedTest>) {
    && (forall t :: t in tree.tests && MustRun(tree, diff, t) ==> SelectedTest(t.moduleName, t.file) in selected)
    && (forall p :: p in diff.changedTests && p in tree.testModuleOf ==> tree.testModuleOf[p] in NodeIds(selected))
    && (forall x :: x in selected ==>
          || x.file in diff.changedTests
          || exists t :: t in tree.tests && MustRun(tree, diff, t) && x == SelectedTest(t.moduleName, t.file))
  }

  /** The selection. An answer of `Selected` names between one and 120 distinct files, and
      exactly the tests the diff needs; every other answer has its stated cause. */
  method SelectTests(tree: Tree, diff: Diff) returns (state: State, selected: seq<SelectedTest>)
    requires WellFormed(tree, diff)
    ensures DistinctFiles(selected)
    ensures state.Selected? ==> 1 <= |selected| <= 120
    ensures diff.trustSurfaceChanged ==> state.EscalationRequired? && selected == []
    ensures diff.deletedTests ==> state.EscalationRequired? && selected == []
    ensures diff.deletedProduction ==> state.EscalationRequired? && selected == []
    ensures diff.dynamicImportChanged ==> state.EscalationRequired? && selected == []
    ensures Trusted(diff) ==>
      && (state.NoEligibleChange? <==> diff.eligibleChanged == [] && diff.changedTests == [])
      && (state.Error? <==> diff.eligibleChanged != [] && forall p :: p in diff.eligibleChanged ==> p !in tree.moduleOf)
      && (state.EscalationRequired? <==>
            || |selected| > 120
            || (selected == [] && exists p :: p in diff.eligibleChanged && p in tree.moduleOf))
      && ((exists p :: p in diff.eligibleChanged && p in tree.moduleOf) ==> Covers(tree, diff, selected))
      && (diff.eligibleChanged == [] ==>
            forall p :: p in diff.changedTests <==> exists x :: x in selected && x.file == p)
  {
    selected := [];
    if Untrusted(diff) {
      return EscalationRequired, [];
    }
    if diff.eligibleChanged == [] && diff.changedTests == [] {
      return NoEligibleChange, [];
    }
    if diff.eligibleChanged == [] {
      selected := ChangedTestsOnly(tree, diff.changedTests);
      if |selected| > MAX_SELECTED {
        return EscalationRequired, selected;
      }
      return Selected, selected;
    }
    assert forall p :: p in diff.eligibleChanged && p in tree.moduleOf ==> tree.moduleOf[p] in Starts(tree, diff);
    if Starts(tree, diff) == {} {
      return Error, [];
    }
    var impacted := ImpactedModules(tree, diff);
    var importing := ImportingTests(tree, impacted);
    forall t | t in tree.tests
      ensures MustRun(tree, diff, t) <==> SelectedTest(t.moduleName, t.file) in importing
    {
      assert forall m :: m in t.imports && Impacted(tree, diff, m) <==> m in t.imports * impacted;
    }
    selected := AddChangedTests(tree, diff.changedTests, importing);
    UniqueFiles(tree, selected);
    if |selected| > MAX_SELECTED {
      return EscalationRequired, selected;
    }
    if selected == [] {
      return EscalationRequired, selected;
    }
    return Selected, selected;
  }
}
