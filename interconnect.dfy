/**
 * _interconnect_model: join port k to port l inside one model and eliminate both, by
 * equation 6 of Filipsson, "A new general computer algorithm for S-matrix calculation of
 * interconnected multiports" (11th European Microwave Conference, 1981).
 */
module Interconnect {
  import opened Lists
  import opened Responses
  import opened Models

  /** The term _interconnect_model builds for the pair (i, j), from the nine looked-up entries. */
  function IjklTerm(m: Model, i: Port, j: Port, k: Port, l: Port): (t: Resp)
    ensures t.Ijkl?
  {
    Ijkl(Get(m, (i, j)), Get(m, (i, k)), Get(m, (i, l)), Get(m, (k, j)), Get(m, (k, k)), Get(m, (k, l)),
         Get(m, (l, j)), Get(m, (l, k)), Get(m, (l, l)))
  }

  /** The pruning rule: mij is `zero` and each product of the numerator has a `zero` factor. */
  predicate Prunable(t: Resp)
    requires t.Ijkl?
  {
    t.mij.Zero? && (t.mkj.Zero? || t.mil.Zero?) && (t.mlj.Zero? || t.mik.Zero?) &&
    (t.mkj.Zero? || t.mll.Zero? || t.mik.Zero?) && (t.mlj.Zero? || t.mkk.Zero? || t.mil.Zero?)
  }

  predicate Mentions(key: (Port, Port), k: Port, l: Port) {
    key.0 == k || key.0 == l || key.1 == k || key.1 == l
  }

  /** The pairs of ports that keep an entry: not pruned, and not touching k or l. */
  function Kept(m: Model, k: Port, l: Port): set<(Port, Port)> {
    set i, j | i in Ports(m) && j in Ports(m) && !Prunable(IjklTerm(m, i, j, k, l)) && !Mentions((i, j), k, l) :: (i, j)
  }

  /** The interconnected model: every kept pair maps to its equation-6 term; the defaults are copied. */
  function Interconnected(m: Model, k: Port, l: Port): (r: Model)
    ensures r.defaults == m.defaults
    ensures forall key :: key in r.entries ==> !Mentions(key, k, l)
    ensures forall key :: key in r.entries ==> key.0 in Ports(m) && key.1 in Ports(m)
  {
    Model(map key | key in Kept(m, k, l) :: IjklTerm(m, key.0, key.1, k, l), m.defaults)
  }

  /** The pairs of ports whose term survives the pruning rule, before the deletion pass. */
  predicate Unpruned(m: Model, k: Port, l: Port, key: (Port, Port)) {
    key.0 in Ports(m) && key.1 in Ports(m) && !Prunable(IjklTerm(m, key.0, key.1, k, l))
  }

  /** The inner loop of _interconnect_model: the terms of row i. */
  method BuildRow(m: Model, k: Port, l: Port, i: Port, built: map<(Port, Port), Resp>)
    returns (r: map<(Port, Port), Resp>)
    requires i in Ports(m) && forall key :: key in built ==> key.0 != i
    ensures forall key :: key in r <==> key in built || (key.0 == i && Unpruned(m, k, l, key))
    ensures forall key :: key in r ==> r[key] == if key.0 == i then IjklTerm(m, key.0, key.1, k, l) else built[key]
  {
    r := built;
    var todoJ := Ports(m);
    while todoJ != {}
      invariant todoJ <= Ports(m)
      invariant forall key :: key in r <==> key in built || (key.0 == i && key.1 !in todoJ && Unpruned(m, k, l, key))
      invariant forall key :: key in r ==> r[key] == if key.0 == i then IjklTerm(m, key.0, key.1, k, l) else built[key]
      decreases todoJ
    {
      var j :| j in todoJ;
      var t := IjklTerm(m, i, j, k, l);
      if !Prunable(t) {
        r := r[(i, j) := t];
      }
      todoJ := todoJ - {j};
    }
  }

  /** The outer loop of _interconnect_model: a term for every unpruned pair of ports. */
  method BuildTerms(m: Model, k: Port, l: Port) returns (built: map<(Port, Port), Resp>)
    ensures forall key :: key in built <==> Unpruned(m, k, l, key)
    ensures forall key :: key in built ==> built[key] == IjklTerm(m, key.0, key.1, k, l)
  {
    built := map[];
    var todoI := Ports(m);
    while todoI != {}
      invariant todoI <= Ports(m)
      invariant forall key :: key in built <==> key.0 !in todoI && Unpruned(m, k, l, key)
      invariant forall key :: key in built ==> built[key] == IjklTerm(m, key.0, key.1, k, l)
      decreases todoI
    {
      var i :| i in todoI;
      built := BuildRow(m, k, l, i, built);
      todoI := todoI - {i};
    }
  }

  /** The deletion pass of _interconnect_model: drop every key that mentions k or l. */
  method DropMentions(built: map<(Port, Port), Resp>, k: Port, l: Port) returns (r: map<(Port, Port), Resp>)
    ensures forall key :: key in r <==> key in built && !Mentions(key, k, l)
    ensures forall key :: key in r ==> r[key] == built[key]
  {
    r := built;
    var keys := built.Keys;
    while keys != {}
      invariant keys <= built.Keys
      invariant forall key :: key in r <==> key in built && (key in keys || !Mentions(key, k, l))
      invariant forall key :: key in r ==> r[key] == built[key]
      decreases keys
    {
      var key :| key in keys;
      if key.0 == k || key.0 == l || key.1 == k || key.1 == l {
        r := r - {key};
      }
      keys := keys - {key};
    }
  }

  /** _interconnect_model: the double loop over the ports, then the deletion of keys touching k or l. */
  method InterconnectModel(m: Model, k: Port, l: Port) returns (r: Model)
    ensures r == Interconnected(m, k, l)
  {
    var built := BuildTerms(m, k, l);
    var entries := DropMentions(built, k, l);
    r := Model(entries, m.defaults);
    KeptEntries(m, k, l, entries);
  }

  lemma KeptIff(m: Model, k: Port, l: Port, key: (Port, Port))
    ensures key in Kept(m, k, l) <==> Unpruned(m, k, l, key) && !Mentions(key, k, l)
  {
    if Unpruned(m, k, l, key) && !Mentions(key, k, l) {
      assert (key.0, key.1) in Kept(m, k, l);
    }
  }

  lemma KeptKeys(m: Model, k: Port, l: Port, entries: map<(Port, Port), Resp>)
    requires forall key :: key in entries <==> Unpruned(m, k, l, key) && !Mentions(key, k, l)
    ensures entries.Keys == Kept(m, k, l)
  {
    forall key ensures key in entries <==> key in Kept(m, k, l) {
      KeptIff(m, k, l, key);
    }
  }

  /** A dictionary holding the equation-6 term of exactly the unpruned pairs off k and l is the interconnected one. */
  lemma KeptEntries(m: Model, k: Port, l: Port, entries: map<(Port, Port), Resp>)
    requires forall key :: key in entries <==> Unpruned(m, k, l, key) && !Mentions(key, k, l)
    requires forall key :: key in entries ==> entries[key] == IjklTerm(m, key.0, key.1, k, l)
    ensures Model(entries, m.defaults) == Interconnected(m, k, l)
  {
    KeptKeys(m, k, l, entries);
    MapExt(entries, Interconnected(m, k, l).entries);
  }

  /**
   * Pruning is sound: a pair the rule skips would have evaluated to 0 whenever its inputs
   * evaluate to numbers and the denominator is not zero.
   */
  lemma PruneSound(t: Resp, comp: Components, p: Params)
    requires t.Ijkl? && Prunable(t)
    requires AllVal(Inputs(t, comp, p)) && InputsDen(t, comp, p) != 0.0
    ensures Eval(t, comp, p) == Val(0.0)
  {
    var vs := Inputs(t, comp, p);
    assert vs[0].v == 0.0;
    assert vs[3].v == 0.0 || vs[2].v == 0.0;
    assert vs[6].v == 0.0 || vs[1].v == 0.0;
    assert vs[3].v == 0.0 || vs[8].v == 0.0 || vs[1].v == 0.0;
    assert vs[6].v == 0.0 || vs[4].v == 0.0 || vs[2].v == 0.0;
    assert Num(vs[1].v, vs[2].v, vs[3].v, vs[4].v, vs[5].v, vs[6].v, vs[7].v, vs[8].v) == 0.0;
  }

  /**
   * The interconnected model is equation 6 everywhere off k and l: for every pair of the
   * input's ports other than k and l, the (possibly absent) entry evaluates to the
   * equation-6 combination of the nine input entries, whenever those evaluate to numbers
   * and the denominator is not zero.
   */
  lemma InterconnectedIsEquation6(m: Model, k: Port, l: Port, i: Port, j: Port, comp: Components, p: Params)
    requires i in Ports(m) && j in Ports(m) && !Mentions((i, j), k, l)
    requires AllVal(Inputs(IjklTerm(m, i, j, k, l), comp, p)) && InputsDen(IjklTerm(m, i, j, k, l), comp, p) != 0.0
    ensures Eval(Get(Interconnected(m, k, l), (i, j)), comp, p) == Eval(IjklTerm(m, i, j, k, l), comp, p)
  {
    var t := IjklTerm(m, i, j, k, l);
    if Prunable(t) {
      assert (i, j) !in Kept(m, k, l);
      PruneSound(t, comp, p);
    } else {
      assert (i, j) in Kept(m, k, l);
    }
  }

  /**
   * Eliminating a link that row i does not couple to (mik = mil = 0) leaves the (i, j)
   * response as it was.
   */
  lemma InterconnectedUncoupledRow(m: Model, k: Port, l: Port, i: Port, j: Port, comp: Components, p: Params)
    requires i in Ports(m) && j in Ports(m) && !Mentions((i, j), k, l)
    requires Get(m, (i, k)).Zero? && Get(m, (i, l)).Zero?
    requires AllVal(Inputs(IjklTerm(m, i, j, k, l), comp, p)) && InputsDen(IjklTerm(m, i, j, k, l), comp, p) != 0.0
    ensures Eval(Get(Interconnected(m, k, l), (i, j)), comp, p) == Eval(Get(m, (i, j)), comp, p)
  {
    var t := IjklTerm(m, i, j, k, l);
    InterconnectedIsEquation6(m, k, l, i, j, comp, p);
    var vs := Inputs(t, comp, p);
    EvalIjkl(t, comp, p);
    assert vs[1].v == 0.0 && vs[2].v == 0.0;
    ModelIjklUncoupledRow(vs[0].v, vs[3].v, vs[4].v, vs[5].v, vs[6].v, vs[7].v, vs[8].v);
  }

  /**
   * Eliminating a link that column j does not couple to (mkj = mlj = 0) leaves the (i, j)
   * response as it was.
   */
  lemma InterconnectedUncoupledColumn(m: Model, k: Port, l: Port, i: Port, j: Port, comp: Components, p: Params)
    requires i in Ports(m) && j in Ports(m) && !Mentions((i, j), k, l)
    requires Get(m, (k, j)).Zero? && Get(m, (l, j)).Zero?
    requires AllVal(Inputs(IjklTerm(m, i, j, k, l), comp, p)) && InputsDen(IjklTerm(m, i, j, k, l), comp, p) != 0.0
    ensures Eval(Get(Interconnected(m, k, l), (i, j)), comp, p) == Eval(Get(m, (i, j)), comp, p)
  {
    var t := IjklTerm(m, i, j, k, l);
    InterconnectedIsEquation6(m, k, l, i, j, comp, p);
    var vs := Inputs(t, comp, p);
    EvalIjkl(t, comp, p);
    assert vs[3].v == 0.0 && vs[6].v == 0.0;
    ModelIjklUncoupledColumn(vs[0].v, vs[1].v, vs[2].v, vs[4].v, vs[5].v, vs[7].v, vs[8].v);
  }

  /** The interconnected ports are among the input's ports, and neither k nor l is one of them. */
  lemma InterconnectedPorts(m: Model, k: Port, l: Port, q: Port)
    requires q in Ports(Interconnected(m, k, l))
    ensures q in Ports(m) && q != k && q != l
  {
    var r := Interconnected(m, k, l);
    var key :| key in r.entries && (key.0 == q || key.1 == q);
  }
}
