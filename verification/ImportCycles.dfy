/** The depth-first visit that reports import cycles among backend modules. */
module ImportCycles {
  import opened Sequences

  type Module = string

  /** Each module's import targets, in the order they are visited. A module without
      an entry imports nothing. */
  type Graph = map<Module, seq<Module>>

  function Targets(g: Graph, m: Module): seq<Module> {
    if m in g then g[m] else []
  }

  ghost predicate Edge(g: Graph, a: Module, b: Module) {
    b in Targets(g, a)
  }

  ghost predicate Walk(g: Graph, p: seq<Module>) {
    forall i, j :: 0 <= i && j == i + 1 < |p| ==> Edge(g, p[i], p[j])
  }

  ghost predicate ClosedWalk(g: Graph, p: seq<Module>) {
    |p| >= 2 && p[0] == p[|p| - 1] && Walk(g, p)
  }

  ghost predicate Cyclic(g: Graph) {
    exists p :: ClosedWalk(g, p)
  }

  /** Every import target is itself one of the modules. */
  ghost predicate Closed(g: Graph, modules: set<Module>) {
    forall a, b :: a in modules && Edge(g, a, b) ==> b in modules
  }

  /** The edge is part of a reported path. */
  ghost predicate Reported(reports: seq<seq<Module>>, a: Module, b: Module) {
    exists r, i, j :: r in reports && 0 <= i && j == i + 1 < |r| && r[i] == a && r[j] == b
  }

  /** Every module comes after everything it imports, except along reported edges. */
  ghost predicate ImportsFirst(g: Graph, order: seq<Module>, reports: seq<seq<Module>>) {
    forall i, b :: 0 <= i < |order| && Edge(g, order[i], b) ==> b in order[..i] || Reported(reports, order[i], b)
  }

  /** Some edge of the walk is reported. */
  ghost predicate Touched(reports: seq<seq<Module>>, p: seq<Module>) {
    exists i, j :: 0 <= i && j == i + 1 < |p| && Reported(reports, p[i], p[j])
  }

  lemma {:induction false} TouchedLater(reports: seq<seq<Module>>, p: seq<Module>)
    requires p != [] && Touched(reports, p[1..])
    ensures Touched(reports, p)
  {
    var i, j :| 0 <= i && j == i + 1 < |p[1..]| && Reported(reports, p[1..][i], p[1..][j]);
    assert Reported(reports, p[i + 1], p[j + 1]);
  }

  lemma {:induction false} WalkDescends(
      g: Graph, order: seq<Module>, reports: seq<seq<Module>>, p: seq<Module>, at: nat) returns (end: nat)
    requires ImportsFirst(g, order, reports) && Walk(g, p) && p != [] && !Touched(reports, p)
    requires at < |order| && order[at] == p[0]
    ensures end < |order| && order[end] == p[|p| - 1] && end + |p| <= at + 1
    decreases |p|
  {
    if |p| == 1 {
      end := at;
    } else {
      assert Edge(g, p[0], p[1]);
      assert !Reported(reports, p[0], p[1]);
      var next: nat :| next < at && order[next] == p[1];
      if Touched(reports, p[1..]) {
        TouchedLater(reports, p);
      }
      end := WalkDescends(g, order, reports, p[1..], next);
    }
  }

  /** A duplicate-free order that puts imports first leaves no cycle without a reported edge. */
  lemma {:induction false} CyclesAreTouched(g: Graph, order: seq<Module>, reports: seq<seq<Module>>, p: seq<Module>)
    requires ImportsFirst(g, order, reports) && Distinct(order) && ClosedWalk(g, p)
    requires forall m :: m in g ==> m in order
    ensures Touched(reports, p)
  {
    if !Touched(reports, p) {
      assert Edge(g, p[0], p[1]);
      var at: nat :| at < |order| && order[at] == p[0];
      var end := WalkDescends(g, order, reports, p, at);
      assert false;
    }
  }

  lemma {:induction false} ReportsGrow(reports: seq<seq<Module>>, more: seq<seq<Module>>, a: Module, b: Module)
    requires reports <= more && Reported(reports, a, b)
    ensures Reported(more, a, b)
  {
    var r, i, j :| r in reports && 0 <= i && j == i + 1 < |r| && r[i] == a && r[j] == b;
    assert r in more;
  }

  lemma {:induction false} ImportsFirstGrows(
      g: Graph, order: seq<Module>, reports: seq<seq<Module>>, more: seq<seq<Module>>)
    requires ImportsFirst(g, order, reports) && reports <= more
    ensures ImportsFirst(g, order, more)
  {
    forall i, b | 0 <= i < |order| && Edge(g, order[i], b)
      ensures b in order[..i] || Reported(more, order[i], b)
    {
      if b !in order[..i] {
        ReportsGrow(reports, more, order[i], b);
      }
    }
  }

  lemma {:induction false} ImportsFirstExtends(g: Graph, order: seq<Module>, reports: seq<seq<Module>>, node: Module)
    requires ImportsFirst(g, order, reports)
    requires forall b :: Edge(g, node, b) ==> b in Members(order) || Reported(reports, node, b)
    ensures ImportsFirst(g, order + [node], reports)
  {
    var more := order + [node];
    forall i, b | 0 <= i < |more| && Edge(g, more[i], b)
      ensures b in more[..i] || Reported(reports, more[i], b)
    {
      assert more[..i] == order[..i];
      assert order[..|order|] == order;
    }
  }

  class CycleCheck {
    const g: Graph
    var visiting: set<Module>
    var visited: set<Module>
    var stack: seq<Module>
    var reports: seq<seq<Module>>
    ghost var finished: seq<Module>

    ghost predicate Valid()
      reads this
    {
      && visiting == Members(stack) && Distinct(stack) && Walk(g, stack)
      && visited == Members(finished) && Distinct(finished)
      && visiting !! visited
      && (forall r :: r in reports ==> ClosedWalk(g, r) && Distinct(r[1..]))
      && ImportsFirst(g, finished, reports)
    }

    constructor (graph: Graph)
      ensures Valid() && g == graph && stack == [] && finished == [] && reports == []
    {
      g := graph;
      visiting, visited, stack, reports, finished := {}, {}, [], [], [];
    }

    /** The path from an earlier occurrence on the stack back to `node`. */
    method ReportCycle(node: Module)
      requires Valid() && node in visiting
      requires stack != [] ==> Edge(g, stack[|stack| - 1], node)
      modifies this`reports
      ensures Valid() && |reports| == |old(reports)| + 1 && old(reports) <= reports
      ensures exists start ::
        0 <= start < |stack| && stack[start] == node && reports[|old(reports)|] == stack[start..] + [node]
      ensures stack != [] ==> Reported(reports, stack[|stack| - 1], node)
    {
      var start := 0;
      while stack[start] != node
        invariant 0 <= start < |stack|
        invariant node in stack[start..]
        decreases |stack| - start
      {
        start := start + 1;
      }
      var path := stack[start..] + [node];
      assert path[1..] == stack[start + 1..] + [node];
      ImportsFirstGrows(g, finished, reports, reports + [path]);
      reports := reports + [path];
      assert path in reports && path[|path| - 2] == stack[|stack| - 1] && path[|path| - 1] == node;
    }

    method Enter(node: Module)
      requires Valid() && node !in visiting && node !in visited
      requires stack != [] ==> Edge(g, stack[|stack| - 1], node)
      modifies this`visiting, this`stack
      ensures Valid() && stack == old(stack) + [node] && visiting == old(visiting) + {node}
    {
      visiting := visiting + {node};
      stack := stack + [node];
    }

    method Leave()
      requires Valid() && stack != []
      requires forall b :: Edge(g, stack[|stack| - 1], b) ==> b in visited || Reported(reports, stack[|stack| - 1], b)
      modifies this`visiting, this`stack, this`visited, this`finished
      ensures Valid() && stack == old(stack)[..|old(stack)| - 1]
      ensures visited == old(visited) + {old(stack)[|old(stack)| - 1]}
      ensures visiting == old(visiting) - {old(stack)[|old(stack)| - 1]}
    {
      var node := stack[|stack| - 1];
      assert stack == stack[..|stack| - 1] + [node];
      ImportsFirstExtends(g, finished, reports, node);
      stack := stack[..|stack| - 1];
      visiting := visiting - {node};
      visited := visited + {node};
      finished := finished + [node];
    }

    method Visit(node: Module, ghost modules: set<Module>)
      requires Valid() && Closed(g, modules) && node in modules
      requires visiting <= modules && visited <= modules
      requires stack != [] ==> Edge(g, stack[|stack| - 1], node)
      modifies this
      ensures Valid() && visited <= modules
      ensures stack == old(stack) && visiting == old(visiting)
      ensures old(visited) <= visited && old(reports) <= reports
      ensures node in visited || (stack != [] && Reported(reports, stack[|stack| - 1], node))
      decreases modules - visiting, 0
    {
      if node in visiting {
        ReportCycle(node);
        return;
      }
      if node in visited {
        return;
      }
      Enter(node);
      assert node in old(modules - visiting) && node !in modules - visiting;
      VisitTargets(node, modules);
      Leave();
    }

    /** The loop over the import targets of the node on top of the stack. */
    method VisitTargets(node: Module, ghost modules: set<Module>)
      requires Valid() && Closed(g, modules) && visiting <= modules && visited <= modules
      requires stack != [] && stack[|stack| - 1] == node && node in modules
      modifies this
      ensures Valid() && visited <= modules
      ensures stack == old(stack) && visiting == old(visiting)
      ensures old(visited) <= visited && old(reports) <= reports
      ensures forall b :: Edge(g, node, b) ==> b in visited || Reported(reports, node, b)
      decreases modules - visiting, 1
    {
      var targets := Targets(g, node);
      for i := 0 to |targets|
        invariant Valid() && old(visited) <= visited <= modules
        invariant stack == old(stack) && visiting == old(visiting)
        invariant old(reports) <= reports
        invariant forall k :: 0 <= k < i ==> targets[k] in visited || Reported(reports, node, targets[k])
      {
        assert Edge(g, node, targets[i]);
        ghost var before := reports;
        Visit(targets[i], modules);
        forall k | 0 <= k < i && targets[k] !in visited
          ensures Reported(reports, node, targets[k])
        {
          ReportsGrow(before, reports, node, targets[k]);
        }
      }
    }
  }

  /** Visiting every module reports a cycle exactly when the import graph has one, every
      reported path is a real cycle that repeats only its end points, and every cycle of the
      graph shares an edge with a reported one. */
  method FindCycles(g: Graph, modules: seq<Module>) returns (reports: seq<seq<Module>>)
    requires Closed(g, Members(modules)) && forall m :: m in g ==> m in modules
    ensures reports == [] <==> !Cyclic(g)
    ensures forall r :: r in reports ==> ClosedWalk(g, r) && Distinct(r[1..])
    ensures forall p :: ClosedWalk(g, p) ==> Touched(reports, p)
  {
    var check := new CycleCheck(g);
    var i := 0;
    while i < |modules|
      invariant 0 <= i <= |modules|
      invariant check.Valid() && check.g == g && check.stack == []
      invariant check.visited <= Members(modules)
      invariant forall k :: 0 <= k < i ==> modules[k] in check.visited
    {
      check.Visit(modules[i], Members(modules));
      i := i + 1;
    }
    reports := check.reports;
    forall p | ClosedWalk(g, p)
      ensures Touched(reports, p)
    {
      CyclesAreTouched(g, check.finished, reports, p);
    }
    if reports != [] {
      assert ClosedWalk(g, reports[0]);
    }
  }
}
