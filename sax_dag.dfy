/**
 * The dependency graph of a recursive netlist (sax/circuit.py): a directed graph whose nodes
 * are model names, with an edge from each netlist to every component it instantiates. Its
 * root is the top-level netlist, its leaves are the models that must be supplied.
 */
module SaxDag {
  import opened Wrappers
  import opened Lists

  /** A networkx DiGraph: nodes in insertion order, and its edges. */
  datatype Graph = Graph(nodes: seq<string>, edges: set<(string, string)>)

  /** Nodes are distinct and every edge joins two nodes. */
  predicate Wf(g: Graph) {
    Distinct(g.nodes) && forall e :: e in g.edges ==> e.0 in g.nodes && e.1 in g.nodes
  }

  function InDegree(g: Graph, n: string): nat {
    |set e | e in g.edges && e.1 == n|
  }

  function OutDegree(g: Graph, n: string): nat {
    |set e | e in g.edges && e.0 == n|
  }

  /** The nodes of ns, in order, whose degree (in- or out-) is 0. */
  function DegreeZero(g: Graph, ns: seq<string>, incoming: bool): (r: seq<string>)
    ensures forall n :: n in r <==> n in ns && (if incoming then InDegree(g, n) else OutDegree(g, n)) == 0
    ensures |r| <= |ns|
    ensures Distinct(ns) ==> Distinct(r)
  {
    if ns == [] then []
    else
      var d := if incoming then InDegree(g, ns[0]) else OutDegree(g, ns[0]);
      (if d == 0 then [ns[0]] else []) + DegreeZero(g, ns[1..], incoming)
  }

  /** find_root: [n for n, d in g.in_degree() if d == 0]. */
  function FindRoot(g: Graph): seq<string> {
    DegreeZero(g, g.nodes, true)
  }

  /** find_leaves: [n for n, d in g.out_degree() if d == 0]. */
  function FindLeaves(g: Graph): seq<string> {
    DegreeZero(g, g.nodes, false)
  }

  /** The roots are exactly the nodes no edge enters. */
  lemma RootIff(g: Graph, n: string)
    ensures n in FindRoot(g) <==> n in g.nodes && forall e :: e in g.edges ==> e.1 != n
  {
    var s := set e | e in g.edges && e.1 == n;
    if e :| e in g.edges && e.1 == n {
      assert e in s;
    }
  }

  /** The leaves are exactly the nodes no edge leaves. */
  lemma LeafIff(g: Graph, n: string)
    ensures n in FindLeaves(g) <==> n in g.nodes && forall e :: e in g.edges ==> e.0 != n
  {
    var s := set e | e in g.edges && e.0 == n;
    if e :| e in g.edges && e.0 == n {
      assert e in s;
    }
  }

  /** The graph with every edge turned around. */
  function Reverse(g: Graph): Graph {
    Graph(g.nodes, set e | e in g.edges :: (e.1, e.0))
  }

  lemma {:induction false} DegreeZeroReverse(g: Graph, ns: seq<string>)
    ensures DegreeZero(g, ns, true) == DegreeZero(Reverse(g), ns, false)
    ensures DegreeZero(g, ns, false) == DegreeZero(Reverse(g), ns, true)
  {
    if ns != [] {
      DegreeZeroReverse(g, ns[1..]);
      var n := ns[0];
      var rin := set e | e in g.edges && e.1 == n;
      var rout := set e | e in Reverse(g).edges && e.0 == n;
      if e :| e in rin {
        assert (e.1, e.0) in rout;
      }
      if e :| e in rout {
        var e0 :| e0 in g.edges && e == (e0.1, e0.0);
        assert e0 in rin;
      }
      var lout := set e | e in g.edges && e.0 == n;
      var lin := set e | e in Reverse(g).edges && e.1 == n;
      if e :| e in lout {
        assert (e.1, e.0) in lin;
      }
      if e :| e in lin {
        var e0 :| e0 in g.edges && e == (e0.1, e0.0);
        assert e0 in lout;
      }
    }
  }

  /** Turning the edges around swaps the roots and the leaves. */
  lemma RootsAreReversedLeaves(g: Graph)
    ensures FindRoot(g) == FindLeaves(Reverse(g)) && FindLeaves(g) == FindRoot(Reverse(g))
  {
    DegreeZeroReverse(g, g.nodes);
  }

  datatype DagError =
    | MissingModels(missing: seq<string>)
    | MultipleTopLevels(roots: seq<string>)
    | NoNodes
    | CyclesDetected

  /** [m for m in required if m not in models]. */
  function Missing<V>(required: seq<string>, models: map<string, V>): (r: seq<string>)
    ensures forall n :: n in r <==> n in required && n !in models
  {
    if required == [] then []
    else (if required[0] in models then [] else [required[0]]) + Missing(required[1..], models)
  }

  /**
   * _validate_models: fails, naming the missing leaves, when some leaf of the graph has no
   * model; otherwise returns a copy of the models.
   */
  function ValidateModels<V>(models: map<string, V>, dag: Graph): (r: Result<map<string, V>, DagError>)
    ensures r.Ok? <==> forall n :: n in FindLeaves(dag) ==> n in models
    ensures r.Ok? ==> r.value == models
    ensures r.Err? ==> r.error.MissingModels? && r.error.missing != [] &&
                       (forall n :: n in r.error.missing <==> n in FindLeaves(dag) && n !in models)
  {
    var missing := Missing(FindLeaves(dag), models);
    if missing != [] then
      assert missing[0] in missing;
      Err(MissingModels(missing))
    else Ok(map k | k in models :: models[k])
  }

  /**
   * _validate_dag as written: exactly one root is required. Its third check,
   * `not dag.is_directed()`, is false for every DiGraph, so a cycle is never reported.
   */
  function ValidateDag(dag: Graph): (r: Result<Graph, DagError>)
    ensures r.Ok? <==> |FindRoot(dag)| == 1
    ensures r.Ok? ==> r.value == dag
    ensures r.Err? ==> (r.error == NoNodes <==> FindRoot(dag) == []) && !r.error.CyclesDetected?
  {
    var nodes := FindRoot(dag);
    if |nodes| > 1 then Err(MultipleTopLevels(nodes))
    else if |nodes| < 1 then Err(NoNodes)
    else Ok(dag)
  }

  // ---------------------------------------------------------------------------------------
  // Cycles
  // ---------------------------------------------------------------------------------------

  /** The node after position i on the closed walk c: the next one, or the first after the last. */
  function Succ(c: seq<string>, i: int): string
    requires 0 <= i < |c|
  {
    if i + 1 < |c| then c[i + 1] else c[0]
  }

  /** c is a closed walk: each node has an edge to the next, and the last one back to the first. */
  ghost predicate Cycle(g: Graph, c: seq<string>) {
    |c| >= 1 && forall i :: 0 <= i < |c| ==> (c[i], Succ(c, i)) in g.edges
  }

  ghost predicate Acyclic(g: Graph) {
    forall c :: !Cycle(g, c)
  }

  /** A netlist that instantiates itself through another model: one root, and a cycle. */
  function CyclicNetlist(): Graph {
    Graph(["top", "a", "b"], {("top", "a"), ("a", "b"), ("b", "a")})
  }

  /** _validate_dag as written accepts CyclicNetlist although it has a dependency cycle. */
  lemma ValidateDagMissesCycle()
    ensures ValidateDag(CyclicNetlist()).Ok? && !Acyclic(CyclicNetlist())
  {
    var g := CyclicNetlist();
    RootIff(g, "top");
    RootIff(g, "a");
    RootIff(g, "b");
    assert ("top", "a") in g.edges && ("a", "b") in g.edges;
    assert FindRoot(g) == ["top"];
    var c := ["a", "b"];
    assert (c[0], Succ(c, 0)) in g.edges && (c[1], Succ(c, 1)) in g.edges;
    assert Cycle(g, c);
  }

  /** The nodes of R that no edge from R enters. */
  function Free(g: Graph, R: set<string>): set<string> {
    set n | n in R && forall e :: e in g.edges && e.1 == n ==> e.0 !in R
  }

  /** Kahn's peeling: remove nodes with no incoming edge from what remains, until none is left or all are entered. */
  function Peel(g: Graph, R: set<string>): (r: set<string>)
    ensures r <= R
    decreases |R|
  {
    var free := Free(g, R);
    if free == {} then R else Peel(g, R - free)
  }

  /** Every node of a cycle inside R has a predecessor on the cycle, so none of them is free. */
  lemma CycleNotFree(g: Graph, R: set<string>, c: seq<string>, k: nat)
    requires Cycle(g, c) && (forall i :: 0 <= i < |c| ==> c[i] in R) && k < |c|
    ensures c[k] !in Free(g, R)
  {
    var p := if k == 0 then |c| - 1 else k - 1;
    assert Succ(c, p) == c[k];
    assert (c[p], c[k]) in g.edges;
  }

  /** Peeling never removes a node of a cycle. */
  lemma {:induction false} PeelKeepsCycles(g: Graph, R: set<string>, c: seq<string>)
    requires Cycle(g, c) && forall i :: 0 <= i < |c| ==> c[i] in R
    ensures forall i :: 0 <= i < |c| ==> c[i] in Peel(g, R)
    decreases |R|
  {
    var free := Free(g, R);
    if free != {} {
      forall i | 0 <= i < |c| ensures c[i] in R - free {
        CycleNotFree(g, R, c, i);
      }
      PeelKeepsCycles(g, R - free, c);
    }
  }

  /** Some node of every cycle is left over when the whole graph is peeled. */
  lemma CycleSurvives(g: Graph, c: seq<string>)
    requires Wf(g)
    ensures Cycle(g, c) ==> c[0] in Peel(g, Elems(g.nodes))
  {
    if Cycle(g, c) {
      forall i | 0 <= i < |c| ensures c[i] in Elems(g.nodes) {
        assert (c[i], Succ(c, i)) in g.edges;
      }
      PeelKeepsCycles(g, Elems(g.nodes), c);
    }
  }

  /** A graph that peels down to nothing has no cycle. */
  lemma PeeledAcyclic(g: Graph)
    requires Wf(g) && Peel(g, Elems(g.nodes)) == {}
    ensures Acyclic(g)
  {
    forall c ensures !Cycle(g, c) {
      CycleSurvives(g, c);
    }
  }

  /**
   * _validate_dag as intended: one root, and no dependency cycle. Acceptance rules out every
   * cycle.
   */
  function ValidateAcyclicDag(dag: Graph): (r: Result<Graph, DagError>)
    requires Wf(dag)
    ensures r.Ok? ==> |FindRoot(dag)| == 1 && Acyclic(dag) && r.value == dag
    ensures ValidateDag(dag).Err? ==> r == ValidateDag(dag)
    ensures r.Err? && r.error.CyclesDetected? ==> Peel(dag, Elems(dag.nodes)) != {}
  {
    var nodes := FindRoot(dag);
    if |nodes| > 1 then Err(MultipleTopLevels(nodes))
    else if |nodes| < 1 then Err(NoNodes)
    else if Peel(dag, Elems(dag.nodes)) != {} then Err(CyclesDetected)
    else
      PeeledAcyclic(dag);
      Ok(dag)
  }
}
