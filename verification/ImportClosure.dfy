/** Inverting the import graph and collecting every transitive importer of a set of modules. */
module ImportClosure {
  import opened Sequences

  type Module = string
  type Graph = map<Module, set<Module>>

  /** `a` imports `b`, both being production modules. */
  ghost predicate Imports(forward: Graph, a: Module, b: Module) {
    a in forward && b in forward && b in forward[a]
  }

  function Get(g: Graph, m: Module): set<Module> {
    if m in g then g[m] else {}
  }

  /** A path of imports from its first module to one of the starts. */
  ghost predicate Chain(forward: Graph, starts: set<Module>, p: seq<Module>)
    decreases |p|
  {
    p != [] && (if |p| == 1 then p[0] in starts
                else Imports(forward, p[0], p[1]) && Chain(forward, starts, p[1..]))
  }

  ghost predicate ReachesStart(forward: Graph, starts: set<Module>, m: Module) {
    exists p :: Chain(forward, starts, p) && p[0] == m
  }

  /** `reverse` holds exactly the importers found among the modules in `done`. */
  ghost predicate Inverts(reverse: Graph, forward: Graph, done: set<Module>) {
    && reverse.Keys == forward.Keys
    && forall t, s :: t in forward ==> (s in Get(reverse, t) <==> s in done && Imports(forward, s, t))
  }

  method ReverseGraph(forward: Graph) returns (reverse: Graph)
    ensures Inverts(reverse, forward, forward.Keys)
  {
    reverse := map m | m in forward :: {};
    var todo := forward.Keys;
    ghost var done: set<Module> := {};
    while todo != {}
      invariant done !! todo && done + todo == forward.Keys
      invariant Inverts(reverse, forward, done)
    {
      var source :| source in todo;
      reverse := AddImporter(forward, reverse, source, done);
      todo, done := todo - {source}, done + {source};
    }
    assert done == forward.Keys;
  }

  /** Records one module as an importer of each of its production targets. */
  method AddImporter(forward: Graph, before: Graph, source: Module, ghost done: set<Module>) returns (reverse: Graph)
    requires source in forward && source !in done && Inverts(before, forward, done)
    ensures Inverts(reverse, forward, done + {source})
  {
    reverse := before;
    var targets := forward[source];
    while targets != {}
      invariant targets <= forward[source]
      invariant reverse.Keys == forward.Keys
      invariant forall t, s :: t in forward ==>
        (s in Get(reverse, t) <==>
           (s in done && Imports(forward, s, t)) || (s == source && t in forward[source] && t !in targets))
    {
      var target :| target in targets;
      if target in reverse {
        reverse := reverse[target := reverse[target] + {source}];
      }
      targets := targets - {target};
    }
  }

  lemma {:induction false} ClosedContainsChain(forward: Graph, starts: set<Module>, seen: set<Module>, p: seq<Module>)
    requires starts <= seen
    requires forall a, b :: b in seen && Imports(forward, a, b) ==> a in seen
    requires Chain(forward, starts, p)
    ensures p[0] in seen
    decreases |p|
  {
    if |p| > 1 {
      ClosedContainsChain(forward, starts, seen, p[1..]);
    }
  }

  lemma {:induction false} ChainExtends(forward: Graph, starts: set<Module>, a: Module, b: Module)
    requires ReachesStart(forward, starts, b) && Imports(forward, a, b)
    ensures ReachesStart(forward, starts, a)
  {
    var p :| Chain(forward, starts, p) && p[0] == b;
    var q := [a] + p;
    assert q[1..] == p;
    assert Chain(forward, starts, q);
  }

  /** The worklist traversal: `seen` is the starts and all their transitive importers, and nothing else. */
  method ReverseClosure(starts: set<Module>, reverse: Graph, ghost forward: Graph) returns (seen: set<Module>)
    requires Inverts(reverse, forward, forward.Keys)
    ensures forall m :: m in seen <==> ReachesStart(forward, starts, m)
  {
    ghost var universe := starts + forward.Keys;
    seen := {};
    var frontier := Unseen(starts, {});
    forall s | s in starts
      ensures ReachesStart(forward, starts, s)
    {
      assert Chain(forward, starts, [s]);
    }
    while frontier != []
      invariant seen <= universe && forall m :: m in frontier ==> m in universe
      invariant starts <= seen + Members(frontier)
      invariant forall m :: m in seen || m in frontier ==> ReachesStart(forward, starts, m)
      invariant forall a, b :: b in seen && Imports(forward, a, b) ==> a in seen || a in frontier
      decreases universe - seen, |frontier|
    {
      var next := frontier[|frontier| - 1];
      var rest := frontier[..|frontier| - 1];
      assert frontier == rest + [next];
      if next in seen {
        frontier := rest;
      } else {
        forall a | a in Get(reverse, next)
          ensures ReachesStart(forward, starts, a)
        {
          ChainExtends(forward, starts, a, next);
        }
        var more := Unseen(Get(reverse, next), seen + {next});
        seen := seen + {next};
        frontier := rest + more;
      }
    }
    forall m | ReachesStart(forward, starts, m)
      ensures m in seen
    {
      var p :| Chain(forward, starts, p) && p[0] == m;
      ClosedContainsChain(forward, starts, seen, p);
    }
  }

  /** The importers not seen yet, in some order. */
  method Unseen(importers: set<Module>, seen: set<Module>) returns (more: seq<Module>)
    ensures forall m :: m in more <==> m in importers && m !in seen
  {
    more := [];
    var left := importers;
    while left != {}
      invariant left <= importers
      invariant forall m :: m in more <==> m in importers && m !in left && m !in seen
    {
      var m :| m in left;
      if m !in seen {
        more := more + [m];
      }
      left := left - {m};
    }
  }
}
