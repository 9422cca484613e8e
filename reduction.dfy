/**
 * circuit: reduce a netlist of instance models to one model. After validation each
 * instance's ports are qualified with its name; then, in rounds, neighbouring groups of
 * instances are combined pairwise and every connection both of whose ends now lie inside
 * one group is eliminated; the surviving ports finally take their external names.
 */
module Reduction {
  import opened Wrappers
  import opened Lists
  import opened PortNames
  import opened Responses
  import opened Models
  import opened Merge
  import opened Interconnect
  import opened Validation

  // ---------------------------------------------------------------------------------------
  // Qualifying the instances' ports
  // ---------------------------------------------------------------------------------------

  /** The renaming {p: f"{name}:{p}" for p in get_ports(m)}. */
  function QualifyMap(name: string, m: Model): (r: map<Port, Port>)
    ensures r.Keys == Ports(m) && InjectiveOn(r, Ports(m))
  {
    var r := map p | p in Ports(m) :: Qualify(name, p);
    assert InjectiveOn(r, Ports(m)) by {
      forall p, q | p in Ports(m) && q in Ports(m) && Rename(p, r) == Rename(q, r) ensures p == q {
        QualifyInjective(name, p, q);
      }
    }
    r
  }

  /** The model of instance n with every port renamed to "n:port". */
  function InstanceModel(inst: Instances, n: string): Model
    requires n in inst.models
  {
    RenamePorts(inst.models[n], QualifyMap(n, inst.models[n]))
  }

  /** The models dictionary once every instance's ports are qualified. */
  function QualifiedModels(inst: Instances): map<string, Model> {
    map n | n in inst.models :: InstanceModel(inst, n)
  }

  /**
   * The first loop of circuit: replace each instance's model by its qualified copy, in the
   * dictionary's order. The loop variable `model` is left holding the last instance's
   * original model.
   */
  method QualifyAll(inst: Instances) returns (models: map<string, Model>, model: Model)
    requires Wf(inst) && inst.order != []
    ensures models == QualifiedModels(inst)
    ensures model == inst.models[inst.order[|inst.order| - 1]]
  {
    models := inst.models;
    model := inst.models[inst.order[0]];
    for i := 0 to |inst.order|
      invariant models == UpdateEach(inst.models, inst.order, Qualifier(inst), i)
      invariant i > 0 ==> model == inst.models[inst.order[i - 1]]
    {
      models, model := QualifyOne(inst, models, i);
    }
    QualifiedAll(inst);
  }

  /** One iteration: `models[name] = rename_ports(model, ...)` for the i-th instance and its original model. */
  method QualifyOne(inst: Instances, models: map<string, Model>, i: nat) returns (models': map<string, Model>, model: Model)
    requires Wf(inst) && i < |inst.order| && models == UpdateEach(inst.models, inst.order, Qualifier(inst), i)
    ensures models' == UpdateEach(inst.models, inst.order, Qualifier(inst), i + 1)
    ensures model == inst.models[inst.order[i]]
  {
    var name := inst.order[i];
    assert name in Elems(inst.order);
    model := inst.models[name];
    models' := models[name := RenamePorts(model, QualifyMap(name, model))];
    assert Qualifier(inst)(name) == InstanceModel(inst, name);
    assert UpdateEach(inst.models, inst.order, Qualifier(inst), i + 1) == models[name := Qualifier(inst)(name)];
  }

  /** The qualified model of each instance name (and, for a name of no instance, an empty model). */
  function Qualifier(inst: Instances): string -> Model {
    n => if n in inst.models then InstanceModel(inst, n) else Model(map[], map[])
  }

  /** Qualifying every instance in the dictionary's order gives the qualified models. */
  lemma QualifiedAll(inst: Instances)
    requires Wf(inst)
    ensures UpdateEach(inst.models, inst.order, Qualifier(inst), |inst.order|) == QualifiedModels(inst)
  {
    UpdateEachAll(inst.models, inst.order, Qualifier(inst));
    QualifierMap(inst);
  }

  lemma QualifierMap(inst: Instances)
    ensures (map n | n in inst.models :: Qualifier(inst)(n)) == QualifiedModels(inst)
  {
    var a, b := map n | n in inst.models :: Qualifier(inst)(n), QualifiedModels(inst);
    forall n | n in inst.models ensures a[n] == b[n] {
      assert Qualifier(inst)(n) == InstanceModel(inst, n);
    }
    MapExt(a, b);
  }

  /** On an accepted netlist, a qualified port's instance part is the instance, and it is one of all_ports. */
  lemma QualifiedOwner(inst: Instances, items: seq<(string, string)>, ports: seq<(string, string)>, n: string, p: Port)
    requires Wf(inst) && WellWired(inst, items, ports) && n in inst.models && p in Ports(inst.models[n])
    ensures NoColon(n) && NoColon(p)
    ensures Qualify(n, p) in AllPorts(inst) && Owner(Qualify(n, p)) == n
  {
    var s := Qualify(n, p);
    assert s in QualifiedPorts(n, inst.models[n]);
    AllPortsMember(inst, s);
    assert s in Used(items, ports);
    if !NoColon(n) || !NoColon(p) {
      SplitNeedsColonFreeParts(n, p);
    }
    SplitQualify(n, p);
  }

  /** Every port of a qualified instance model is one of all_ports, owned by that instance. */
  lemma InstancePorts(inst: Instances, items: seq<(string, string)>, ports: seq<(string, string)>, n: string, q: Port)
    requires Wf(inst) && WellWired(inst, items, ports) && n in inst.models && q in Ports(InstanceModel(inst, n))
    ensures q in AllPorts(inst) && Owner(q) == n
  {
    var m := inst.models[n];
    RenamedPortOrigin(m, QualifyMap(n, m), q);
    var p :| p in Ports(m) && q == Rename(p, QualifyMap(n, m));
    QualifiedOwner(inst, items, ports, n, p);
  }

  // ---------------------------------------------------------------------------------------
  // The state of the reduction
  // ---------------------------------------------------------------------------------------

  /** Both ends of connection c belong to instances of group g. */
  predicate Internal(g: seq<string>, c: (string, string)) {
    Owner(c.0) in g && Owner(c.1) in g
  }

  /** The groups (modelnames) split the instance names: disjoint, and covering every instance. */
  ghost predicate Partition(inst: Instances, P: seq<seq<string>>) {
    (forall i, j, n :: 0 <= i < |P| && 0 <= j < |P| && i != j && n in P[i] ==> n !in P[j]) &&
    (forall i, n :: 0 <= i < |P| && n in P[i] ==> n in inst.models) &&
    (forall n :: n in inst.models ==> exists i :: 0 <= i < |P| && n in P[i])
  }

  /** Default parameters filed under instance names of g, each the instance model's own defaults. */
  ghost predicate DefaultsOk(inst: Instances, g: seq<string>, d: map<string, Params>) {
    forall n :: n in d ==> n in g && n in inst.models && d[n] == Record(inst.models[n].defaults)
  }

  /**
   * The model stored for group g: its ports are qualified ports of the group's instances that
   * no folded connection has used; a lone instance still has its qualified model; a larger
   * group keeps its instances' defaults under their names.
   */
  ghost predicate GroupOk(inst: Instances, folded: seq<(string, string)>, g: seq<string>, m: Model)
    requires Wf(inst)
  {
    (forall q :: q in Ports(m) ==> q in AllPorts(inst) && q !in Ends(folded) && Owner(q) in g) &&
    (|g| == 1 ==> g[0] in inst.models && m == InstanceModel(inst, g[0])) &&
    (|g| > 1 ==> DefaultsOk(inst, g, m.defaults))
  }

  /** Each group's model is stored under the group's first name. */
  ghost predicate HeadsOk(inst: Instances, folded: seq<(string, string)>, P: seq<seq<string>>, models: map<string, Model>)
    requires Wf(inst)
  {
    forall i :: 0 <= i < |P| ==> P[i] != [] && P[i][0] in models && GroupOk(inst, folded, P[i], models[P[i][0]])
  }

  /**
   * Connections still waiting: both ends belong to instances, and no group of two or more
   * instances other than group `skip` holds both ends (such a connection would have been
   * folded when the group was formed).
   */
  ghost predicate Waiting(inst: Instances, P: seq<seq<string>>, conns: seq<(string, string)>, skip: int) {
    (forall c :: c in conns ==> Owner(c.0) in inst.models && Owner(c.1) in inst.models) &&
    (forall c, i :: c in conns && 0 <= i < |P| && i != skip && |P[i]| > 1 ==> !Internal(P[i], c))
  }

  /** The invariant of the while loop of circuit; `folded` lists the connections eliminated so far. */
  ghost predicate Inv(inst: Instances, conns0: seq<(string, string)>, P: seq<seq<string>>, models: map<string, Model>,
                      conns: seq<(string, string)>, folded: seq<(string, string)>)
    requires Wf(inst)
  {
    Partition(inst, P) && HeadsOk(inst, folded, P, models) && Waiting(inst, P, conns, -1) &&
    multiset(folded) + multiset(conns) == multiset(conns0)
  }

  /** [[name] for name in models]. */
  function Singletons(order: seq<string>): (r: seq<seq<string>>)
    ensures |r| == |order| && forall i :: 0 <= i < |order| ==> r[i] == [order[i]]
  {
    seq(|order|, i requires 0 <= i < |order| => [order[i]])
  }

  /** Both ports of each connection are among its ends. */
  lemma EndsHas(items: seq<(string, string)>, c: (string, string))
    requires c in items
    ensures c.0 in Ends(items) && c.1 in Ends(items)
  {
    var i :| 0 <= i < |items| && items[i] == c;
    EndsAt(items, i);
  }

  /** The state before the first round satisfies the invariant. */
  lemma InitInv(inst: Instances, items: seq<(string, string)>, ports: seq<(string, string)>)
    requires Wf(inst) && WellWired(inst, items, ports)
    ensures Inv(inst, items, Singletons(inst.order), QualifiedModels(inst), items, [])
  {
    InitPartition(inst);
    InitHeads(inst, items, ports);
    InitWaiting(inst, items, ports);
    var none: seq<(string, string)> := [];
    assert multiset(none) + multiset(items) == multiset(items);
  }

  lemma InitPartition(inst: Instances)
    requires Wf(inst)
    ensures Partition(inst, Singletons(inst.order))
  {
    var P := Singletons(inst.order);
    forall n | n in inst.models ensures exists i :: 0 <= i < |P| && n in P[i] {
      var i :| 0 <= i < |inst.order| && inst.order[i] == n;
      assert n in P[i];
    }
  }

  lemma InitHeads(inst: Instances, items: seq<(string, string)>, ports: seq<(string, string)>)
    requires Wf(inst) && WellWired(inst, items, ports)
    ensures HeadsOk(inst, [], Singletons(inst.order), QualifiedModels(inst))
  {
    var P := Singletons(inst.order);
    var models := QualifiedModels(inst);
    forall i | 0 <= i < |P| ensures P[i] != [] && P[i][0] in models && GroupOk(inst, [], P[i], models[P[i][0]]) {
      var n := inst.order[i];
      assert P[i] == [n];
      forall q | q in Ports(models[n]) ensures q in AllPorts(inst) && q !in Ends([]) && Owner(q) in P[i] {
        InstancePorts(inst, items, ports, n, q);
      }
    }
  }

  lemma InitWaiting(inst: Instances, items: seq<(string, string)>, ports: seq<(string, string)>)
    requires Wf(inst) && WellWired(inst, items, ports)
    ensures Waiting(inst, Singletons(inst.order), items, -1)
  {
    forall c | c in items ensures Owner(c.0) in inst.models && Owner(c.1) in inst.models {
      EndsHas(items, c);
      assert c.0 in Used(items, ports) && c.1 in Used(items, ports);
    }
  }

  // ---------------------------------------------------------------------------------------
  // Folding the connections inside one group
  // ---------------------------------------------------------------------------------------

  /**
   * The state inside the connection loop for group t of P (a group of two or more
   * instances whose model is `model`): `kept` are the connections passed over, `rest` those
   * still to be looked at.
   */
  ghost predicate FoldInv(inst: Instances, conns0: seq<(string, string)>, P: seq<seq<string>>, t: nat,
                          models: map<string, Model>, model: Model,
                          kept: seq<(string, string)>, rest: seq<(string, string)>, folded: seq<(string, string)>)
    requires Wf(inst)
  {
    t < |P| && |P[t]| > 1 &&
    Partition(inst, P) && HeadsOk(inst, folded, P, models[P[t][0] := model]) &&
    Waiting(inst, P, kept, -1) && Waiting(inst, P, rest, t) &&
    multiset(folded) + multiset(kept) + multiset(rest) == multiset(conns0)
  }

  /** Connections drawn from waiting ones are waiting. */
  lemma WaitingSub(inst: Instances, P: seq<seq<string>>, a: seq<(string, string)>, b: seq<(string, string)>, skip: int)
    requires Waiting(inst, P, a, skip) && forall c :: c in b ==> c in a
    ensures Waiting(inst, P, b, skip)
  {
  }

  /** A connection no group other than `skip` holds, and that group `skip` does not hold either, waits for every group. */
  lemma WaitingSnoc(inst: Instances, P: seq<seq<string>>, kept: seq<(string, string)>, c: (string, string), skip: nat)
    requires Waiting(inst, P, kept, -1) && Waiting(inst, P, [c], skip) && skip < |P| && !Internal(P[skip], c)
    ensures Waiting(inst, P, kept + [c], -1)
  {
    assert c in [c];
  }

  /** The group that holds a folded connection: its interconnected model is consistent. */
  lemma GroupFoldSelf(inst: Instances, folded: seq<(string, string)>, g: seq<string>, m: Model, c: (string, string))
    requires Wf(inst) && |g| > 1 && GroupOk(inst, folded, g, m)
    ensures GroupOk(inst, folded + [c], g, Interconnected(m, c.0, c.1))
  {
    EndsSnoc(folded, c);
    forall q | q in Ports(Interconnected(m, c.0, c.1)) ensures q in AllPorts(inst) && q !in Ends(folded + [c]) && Owner(q) in g {
      InterconnectedPorts(m, c.0, c.1, q);
    }
  }

  /** Any other group keeps its model, which stays consistent: none of its ports is an end of c. */
  lemma GroupFoldOther(inst: Instances, folded: seq<(string, string)>, g: seq<string>, m: Model, c: (string, string))
    requires Wf(inst) && GroupOk(inst, folded, g, m) && Owner(c.0) !in g && Owner(c.1) !in g
    ensures GroupOk(inst, folded + [c], g, m)
  {
    EndsSnoc(folded, c);
    forall q | q in Ports(m) ensures q !in Ends(folded + [c]) {
      assert Owner(q) in g;
    }
  }

  /** Eliminating a connection internal to group t keeps every group's model consistent. */
  lemma FoldInternalHeads(inst: Instances, P: seq<seq<string>>, t: nat, models: map<string, Model>, model: Model,
                          c: (string, string), folded: seq<(string, string)>)
    requires Wf(inst) && t < |P| && |P[t]| > 1 && Partition(inst, P) && Internal(P[t], c)
    requires HeadsOk(inst, folded, P, models[P[t][0] := model])
    ensures HeadsOk(inst, folded + [c], P, models[P[t][0] := Interconnected(model, c.0, c.1)])
  {
    var model' := Interconnected(model, c.0, c.1);
    var M, M' := models[P[t][0] := model], models[P[t][0] := model'];
    forall i | 0 <= i < |P| ensures P[i] != [] && P[i][0] in M' && GroupOk(inst, folded + [c], P[i], M'[P[i][0]]) {
      assert GroupOk(inst, folded, P[i], M[P[i][0]]);
      if i == t {
        GroupFoldSelf(inst, folded, P[i], model, c);
      } else {
        assert P[i][0] in P[i] && P[t][0] in P[t];
        assert M'[P[i][0]] == M[P[i][0]];
        GroupFoldOther(inst, folded, P[i], M[P[i][0]], c);
      }
    }
  }

  /** Folding a connection internal to group t keeps the state consistent. */
  lemma FoldInternal(inst: Instances, conns0: seq<(string, string)>, P: seq<seq<string>>, t: nat,
                     models: map<string, Model>, model: Model,
                     kept: seq<(string, string)>, c: (string, string), rest: seq<(string, string)>, folded: seq<(string, string)>)
    requires Wf(inst) && FoldInv(inst, conns0, P, t, models, model, kept, [c] + rest, folded) && Internal(P[t], c)
    ensures FoldInv(inst, conns0, P, t, models, Interconnected(model, c.0, c.1), kept, rest, folded + [c])
  {
    FoldInternalHeads(inst, P, t, models, model, c, folded);
    WaitingSub(inst, P, [c] + rest, rest, t);
    assert multiset([c] + rest) == multiset([c]) + multiset(rest);
    assert multiset(folded + [c]) == multiset(folded) + multiset([c]);
  }

  /** Passing over a connection that group t does not hold keeps the state consistent. */
  lemma FoldSkip(inst: Instances, conns0: seq<(string, string)>, P: seq<seq<string>>, t: nat,
                 models: map<string, Model>, model: Model,
                 kept: seq<(string, string)>, c: (string, string), rest: seq<(string, string)>, folded: seq<(string, string)>)
    requires Wf(inst) && FoldInv(inst, conns0, P, t, models, model, kept, [c] + rest, folded) && !Internal(P[t], c)
    ensures FoldInv(inst, conns0, P, t, models, model, kept + [c], rest, folded)
  {
    WaitingSub(inst, P, [c] + rest, rest, t);
    WaitingSub(inst, P, [c] + rest, [c], t);
    WaitingSnoc(inst, P, kept, c, t);
    assert multiset([c] + rest) == multiset([c]) + multiset(rest);
    assert multiset(kept + [c]) == multiset(kept) + multiset([c]);
  }

  /** The model once every connection of cs that group g holds is eliminated from m, in the order of cs. */
  function FoldAll(m: Model, cs: seq<(string, string)>, g: seq<string>): Model
    decreases |cs|
  {
    if cs == [] then m
    else
      FoldOne(FoldAll(m, cs[..|cs| - 1], g), cs[|cs| - 1], g)
  }

  /** One connection looked at: eliminated from m when group g holds both its ends. */
  function FoldOne(m: Model, c: (string, string), g: seq<string>): Model
  {
    if Internal(g, c) then Interconnected(m, c.0, c.1) else m
  }

  /** The connections of cs that group g does not hold, in their order: what is left of the dictionary. */
  function Unfolded(cs: seq<(string, string)>, g: seq<string>): (r: seq<(string, string)>)
    ensures forall c :: c in r <==> c in cs && !Internal(g, c)
    decreases |cs|
  {
    if cs == [] then []
    else
      var c := cs[|cs| - 1];
      Unfolded(cs[..|cs| - 1], g) + (if Internal(g, c) then [] else [c])
  }

  /** Folding one more connection: the last one is eliminated when g holds it and kept otherwise. */
  lemma FoldSnoc(m: Model, cs: seq<(string, string)>, c: (string, string), g: seq<string>)
    ensures Internal(g, c) ==> FoldAll(m, cs + [c], g) == Interconnected(FoldAll(m, cs, g), c.0, c.1)
    ensures !Internal(g, c) ==> FoldAll(m, cs + [c], g) == FoldAll(m, cs, g)
    ensures FoldAll(m, cs + [c], g) == FoldOne(FoldAll(m, cs, g), c, g)
  {
    assert (cs + [c])[..|cs|] == cs;
  }

  /** Filtering one more connection: the last one stays exactly when g does not hold it. */
  lemma UnfoldedSnoc(cs: seq<(string, string)>, c: (string, string), g: seq<string>)
    ensures Unfolded(cs + [c], g) == Unfolded(cs, g) + (if Internal(g, c) then [] else [c])
  {
    assert (cs + [c])[..|cs|] == cs;
  }

  /** Folding a + b is folding a, then folding b into the result. */
  lemma {:induction false} FoldAllConcat(m: Model, a: seq<(string, string)>, b: seq<(string, string)>, g: seq<string>)
    ensures FoldAll(m, a + b, g) == FoldAll(FoldAll(m, a, g), b, g)
    decreases |b|
  {
    if b == [] {
      assert a + b == a;
    } else {
      var b', c := b[..|b| - 1], b[|b| - 1];
      var m' := FoldAll(m, a, g);
      calc {
        FoldAll(m, a + b, g);
        { assert a + b == (a + b') + [c]; FoldSnoc(m, a + b', c, g); }
        FoldOne(FoldAll(m, a + b', g), c, g);
        { FoldAllConcat(m, a, b', g); }
        FoldOne(FoldAll(m', b', g), c, g);
        { assert b == b' + [c]; FoldSnoc(m', b', c, g); }
        FoldAll(m', b, g);
      }
    }
  }

  /**
   * One pass of the connection loop: fold c if group g holds both its ends, otherwise keep it.
   * `done` are the connections already looked at, starting from the model m0.
   */
  method FoldStep(inst: Instances, ghost conns0: seq<(string, string)>, ghost P: seq<seq<string>>, t: nat, g: seq<string>,
                  ghost models: map<string, Model>, ghost m0: Model, ghost done: seq<(string, string)>, model: Model,
                  kept: seq<(string, string)>, c: (string, string), ghost rest: seq<(string, string)>,
                  ghost folded: seq<(string, string)>)
    returns (model': Model, kept': seq<(string, string)>, ghost folded': seq<(string, string)>)
    requires Wf(inst) && FoldInv(inst, conns0, P, t, models, model, kept, [c] + rest, folded) && g == P[t]
    requires model == FoldAll(m0, done, g) && kept == Unfolded(done, g)
    ensures FoldInv(inst, conns0, P, t, models, model', kept', rest, folded')
    ensures model' == FoldAll(m0, done + [c], g) && kept' == Unfolded(done + [c], g)
    ensures Internal(g, c) ==> model' == Interconnected(model, c.0, c.1) && kept' == kept && folded' == folded + [c]
    ensures !Internal(g, c) ==> model' == model && kept' == kept + [c] && folded' == folded
  {
    FoldSnoc(m0, done, c, g);
    UnfoldedSnoc(done, c, g);
    var n1, n2 := Owner(c.0), Owner(c.1);
    if n1 in g && n2 in g {
      model' := InterconnectModel(model, c.0, c.1);
      kept', folded' := kept, folded + [c];
      FoldInternal(inst, conns0, P, t, models, model, kept, c, rest, folded);
    } else {
      model', kept', folded' := model, kept + [c], folded;
      FoldSkip(inst, conns0, P, t, models, model, kept, c, rest, folded);
    }
  }

  /**
   * The connection loop for a newly formed group g: every connection with both ends in g
   * is removed from the dictionary and eliminated from the model, in dictionary order.
   */
  method FoldGroup(inst: Instances, ghost conns0: seq<(string, string)>, ghost P: seq<seq<string>>, t: nat, g: seq<string>,
                   ghost models: map<string, Model>, model: Model, conns: seq<(string, string)>,
                   ghost folded: seq<(string, string)>)
    returns (model': Model, kept: seq<(string, string)>, ghost folded': seq<(string, string)>)
    requires Wf(inst) && FoldInv(inst, conns0, P, t, models, model, [], conns, folded) && g == P[t]
    ensures FoldInv(inst, conns0, P, t, models, model', kept, [], folded')
    ensures model' == FoldAll(model, conns, g) && kept == Unfolded(conns, g)
    ensures forall c :: c in kept <==> c in conns && !Internal(g, c)
  {
    model', kept, folded' := model, [], folded;
    for idx := 0 to |conns|
      invariant FoldInv(inst, conns0, P, t, models, model', kept, conns[idx..], folded')
      invariant model' == FoldAll(model, conns[..idx], g) && kept == Unfolded(conns[..idx], g)
    {
      SliceAt(conns, idx);
      model', kept, folded' := FoldStep(inst, conns0, P, t, g, models, model, conns[..idx], model', kept, conns[idx], conns[idx + 1..], folded');
    }
    assert conns[..|conns|] == conns;
  }

  // ---------------------------------------------------------------------------------------
  // Combining two neighbouring groups
  // ---------------------------------------------------------------------------------------

  /** The name a group's model is combined under: its instance's name when it is alone, none otherwise. */
  function GroupName(g: seq<string>): Option<string>
    requires g != []
  {
    if |g| > 1 then None else Some(g[0])
  }

  /** The groups after groups t and t + 1 have been joined (names1.extend(names2)). */
  function MergeAt(P: seq<seq<string>>, t: nat): (r: seq<seq<string>>)
    requires t + 1 < |P|
    ensures |r| == |P| - 1
    ensures forall i :: 0 <= i < |r| ==> r[i] == if i < t then P[i] else if i == t then P[t] + P[t + 1] else P[i + 1]
  {
    P[..t] + [P[t] + P[t + 1]] + P[t + 2..]
  }

  /** A name of a joined group is a name of one of the groups it came from. */
  lemma MergeAtMember(P: seq<seq<string>>, t: nat, i: nat, n: string) returns (a: nat)
    requires t + 1 < |P| && i < |P| - 1 && n in MergeAt(P, t)[i]
    ensures a < |P| && n in P[a]
    ensures i < t ==> a == i
    ensures i > t ==> a == i + 1
    ensures i == t ==> a == t || a == t + 1
  {
    a := if i < t then i else if i > t then i + 1 else if n in P[t] then t else t + 1;
  }

  lemma PartitionMerge(inst: Instances, P: seq<seq<string>>, t: nat)
    requires Partition(inst, P) && t + 1 < |P|
    ensures Partition(inst, MergeAt(P, t))
  {
    var P' := MergeAt(P, t);
    forall i, j, n | 0 <= i < |P'| && 0 <= j < |P'| && i != j && n in P'[i] ensures n !in P'[j] {
      var a := MergeAtMember(P, t, i, n);
      var b := if j <= t then j else j + 1;
      assert a != b && n !in P[b];
      if j == t {
        assert a != t + 1 && n !in P[t + 1];
      }
    }
    forall i, n | 0 <= i < |P'| && n in P'[i] ensures n in inst.models {
      var a := MergeAtMember(P, t, i, n);
    }
    PartitionMergeCovers(inst, P, t);
  }

  lemma PartitionMergeCovers(inst: Instances, P: seq<seq<string>>, t: nat)
    requires Partition(inst, P) && t + 1 < |P|
    ensures forall n :: n in inst.models ==> exists i :: 0 <= i < |MergeAt(P, t)| && n in MergeAt(P, t)[i]
  {
    var P' := MergeAt(P, t);
    forall n | n in inst.models ensures exists i :: 0 <= i < |P'| && n in P'[i] {
      var a :| 0 <= a < |P| && n in P[a];
      var i := if a < t then a else if a <= t + 1 then t else a - 1;
      assert n in P'[i];
    }
  }

  /** Default parameters add up as the two models are combined. */
  lemma ContributionOk(inst: Instances, g: seq<string>, gi: seq<string>, m: Model, d: map<string, Params>)
    requires gi != [] && (forall n :: n in gi ==> n in g) && DefaultsOk(inst, g, d)
    requires |gi| == 1 ==> gi[0] in inst.models && m.defaults == inst.models[gi[0]].defaults
    requires |gi| > 1 ==> DefaultsOk(inst, gi, m.defaults)
    ensures DefaultsOk(inst, g, Contribution(m, GroupName(gi), d))
  {
  }

  /** The combined model of two groups is consistent for the joined group. */
  lemma GroupMerged(inst: Instances, folded: seq<(string, string)>, g1: seq<string>, g2: seq<string>, m1: Model, m2: Model)
    requires Wf(inst) && g1 != [] && g2 != [] && GroupOk(inst, folded, g1, m1) && GroupOk(inst, folded, g2, m2)
    ensures GroupOk(inst, folded, g1 + g2, Combined(m1, m2, GroupName(g1), GroupName(g2)))
  {
    var g := g1 + g2;
    var m := Combined(m1, m2, GroupName(g1), GroupName(g2));
    forall q | q in Ports(m) ensures q in AllPorts(inst) && q !in Ends(folded) && Owner(q) in g {
      CombinedPorts(m1, m2, GroupName(g1), GroupName(g2), q);
    }
    ContributionOk(inst, g, g1, m1, map[]);
    ContributionOk(inst, g, g2, m2, Contribution(m1, GroupName(g1), map[]));
  }

  /** After popping both groups' models and storing the combined one, every group's model is consistent. */
  lemma MergeHeads(inst: Instances, folded: seq<(string, string)>, P: seq<seq<string>>, t: nat, models: map<string, Model>)
    requires Wf(inst) && t + 1 < |P| && Partition(inst, P) && HeadsOk(inst, folded, P, models)
    ensures HeadsOk(inst, folded, MergeAt(P, t),
                    (models - {P[t][0]} - {P[t + 1][0]})[P[t][0] :=
                      Combined(models[P[t][0]], models[P[t + 1][0]], GroupName(P[t]), GroupName(P[t + 1]))])
  {
    var P' := MergeAt(P, t);
    var M := Joined(models, P, t);
    forall i | 0 <= i < |P'| ensures P'[i] != [] && P'[i][0] in M && GroupOk(inst, folded, P'[i], M[P'[i][0]]) {
      if i == t {
        JoinedHead(inst, folded, P, t, models);
      } else {
        KeptHead(inst, folded, P, t, models, i);
      }
    }
  }

  /** The models once the first models of groups t and t + 1 are popped and their combination stored under the first. */
  ghost function Joined(models: map<string, Model>, P: seq<seq<string>>, t: nat): map<string, Model>
    requires t + 1 < |P| && P[t] != [] && P[t + 1] != [] && P[t][0] in models && P[t + 1][0] in models
  {
    (models - {P[t][0]} - {P[t + 1][0]})[P[t][0] :=
      Combined(models[P[t][0]], models[P[t + 1][0]], GroupName(P[t]), GroupName(P[t + 1]))]
  }

  /**
   * The models after one pair of the zip, groups g1 and g2: both first models popped, their
   * combination folded over the connections g1 + g2 holds, and the result stored under g1's
   * first name; every other model stays. (A pair whose models are missing, which the
   * reduction never meets, leaves the models alone.)
   */
  function MergedModels(models: map<string, Model>, g1: seq<string>, g2: seq<string>, conns: seq<(string, string)>)
    : map<string, Model>
  {
    if g1 != [] && g2 != [] && g1[0] in models && g2[0] in models then
      (models - {g1[0]} - {g2[0]})[g1[0] :=
        FoldAll(Combined(models[g1[0]], models[g2[0]], GroupName(g1), GroupName(g2)), conns, g1 + g2)]
    else models
  }

  /** The merged models, given the folded model m of the new group. */
  lemma MergedModelsAre(models: map<string, Model>, g1: seq<string>, g2: seq<string>, conns: seq<(string, string)>, m: Model)
    requires g1 != [] && g2 != [] && g1[0] in models && g2[0] in models
    requires m == FoldAll(Combined(models[g1[0]], models[g2[0]], GroupName(g1), GroupName(g2)), conns, g1 + g2)
    ensures MergedModels(models, g1, g2, conns) == (models - {g1[0]} - {g2[0]})[g1[0] := m]
  {
  }

  /**
   * A merge drops the second group's first name, keeps the first group's, and leaves the
   * model of every other name as it was.
   */
  lemma MergedModelsOthers(models: map<string, Model>, g1: seq<string>, g2: seq<string>, conns: seq<(string, string)>)
    requires g1 != [] && g2 != [] && g1[0] in models && g2[0] in models && g1[0] != g2[0]
    ensures MergedModels(models, g1, g2, conns).Keys == models.Keys - {g2[0]}
    ensures forall n :: n in models && n != g1[0] && n != g2[0] ==> MergedModels(models, g1, g2, conns)[n] == models[n]
  {
  }

  /** Group i of Q has its model stored in M under its first name. */
  ghost predicate HeadAt(inst: Instances, folded: seq<(string, string)>, Q: seq<seq<string>>, M: map<string, Model>, i: nat)
    requires Wf(inst) && i < |Q|
  {
    Q[i] != [] && Q[i][0] in M && GroupOk(inst, folded, Q[i], M[Q[i][0]])
  }

  /** The joined group has the combined model stored under its first name. */
  lemma JoinedHead(inst: Instances, folded: seq<(string, string)>, P: seq<seq<string>>, t: nat, models: map<string, Model>)
    requires Wf(inst) && t + 1 < |P| && HeadsOk(inst, folded, P, models)
    ensures HeadAt(inst, folded, MergeAt(P, t), Joined(models, P, t), t)
  {
    var g1, g2 := P[t], P[t + 1];
    assert g1 != [] && g1[0] in models && GroupOk(inst, folded, g1, models[g1[0]]);
    assert g2 != [] && g2[0] in models && GroupOk(inst, folded, g2, models[g2[0]]);
    GroupMerged(inst, folded, g1, g2, models[g1[0]], models[g2[0]]);
    assert MergeAt(P, t)[t] == g1 + g2 && (g1 + g2)[0] == g1[0];
  }

  /** A group other than the joined one keeps its model under its first name. */
  lemma KeptHead(inst: Instances, folded: seq<(string, string)>, P: seq<seq<string>>, t: nat, models: map<string, Model>, i: nat)
    requires Wf(inst) && t + 1 < |P| && Partition(inst, P) && HeadsOk(inst, folded, P, models)
    requires i < |P| - 1 && i != t
    ensures HeadAt(inst, folded, MergeAt(P, t), Joined(models, P, t), i)
  {
    var a := if i < t then i else i + 1;
    assert MergeAt(P, t)[i] == P[a];
    assert P[a] != [] && P[a][0] in models && GroupOk(inst, folded, P[a], models[P[a][0]]);
    assert P[t] != [] && P[t][0] in models && P[t + 1] != [] && P[t + 1][0] in models;
    OtherHead(inst, P, t, a);
    JoinedOther(models, P, t, P[a][0]);
  }

  /** Joining leaves the model of any other name where it was. */
  lemma JoinedOther(models: map<string, Model>, P: seq<seq<string>>, t: nat, n: string)
    requires t + 1 < |P| && P[t] != [] && P[t + 1] != [] && P[t][0] in models && P[t + 1][0] in models
    requires n in models && n != P[t][0] && n != P[t + 1][0]
    ensures n in Joined(models, P, t) && Joined(models, P, t)[n] == models[n]
  {
  }

  /** A group other than the two joined keeps a first name distinct from theirs. */
  lemma OtherHead(inst: Instances, P: seq<seq<string>>, t: nat, a: nat)
    requires Partition(inst, P) && t + 1 < |P| && a < |P| && a != t && a != t + 1
    requires P[a] != [] && P[t] != [] && P[t + 1] != []
    ensures P[a][0] != P[t][0] && P[a][0] != P[t + 1][0]
  {
    assert P[a][0] in P[a];
  }

  /** A connection that waited before the join waits for every group but the joined one. */
  lemma MergeWaiting(inst: Instances, P: seq<seq<string>>, t: nat, conns: seq<(string, string)>)
    requires t + 1 < |P| && Waiting(inst, P, conns, -1)
    ensures Waiting(inst, MergeAt(P, t), conns, t)
  {
    var P' := MergeAt(P, t);
    forall c, i | c in conns && 0 <= i < |P'| && i != t && |P'[i]| > 1 ensures !Internal(P'[i], c) {
      assert P'[i] == P[if i < t then i else i + 1];
    }
  }

  /**
   * One pair of the zip: pop both groups' models, combine them, join the groups, fold every
   * connection the joined group now holds, and store the result under the group's first name.
   */
  method MergePair(inst: Instances, ghost conns0: seq<(string, string)>, P: seq<seq<string>>, t: nat,
                   models: map<string, Model>, conns: seq<(string, string)>, ghost folded: seq<(string, string)>)
    returns (models': map<string, Model>, conns': seq<(string, string)>, ghost folded': seq<(string, string)>, model: Model)
    requires Wf(inst) && t + 1 < |P| && Inv(inst, conns0, P, models, conns, folded)
    ensures Inv(inst, conns0, MergeAt(P, t), models', conns', folded')
    ensures models' == MergedModels(models, P[t], P[t + 1], conns) && conns' == Unfolded(conns, P[t] + P[t + 1])
    ensures model == models'[P[t][0]]
    ensures forall c :: c in conns' <==> c in conns && !Internal(P[t] + P[t + 1], c)
  {
    var names1, names2 := P[t], P[t + 1];
    assert names1[0] in names1 && names2[0] in names2;
    var model1 := models[names1[0]];
    models' := models - {names1[0]};
    var model2 := models'[names2[0]];
    models' := models' - {names2[0]};
    model := CombineModels(model1, model2, GroupName(names1), GroupName(names2));
    var g := names1 + names2;
    MergeStart(inst, conns0, P, t, models, conns, folded);
    ghost var popped := models';
    model, conns', folded' := FoldGroup(inst, conns0, MergeAt(P, t), t, g, models', model, conns, folded);
    MergedModelsAre(models, names1, names2, conns, model);
    models' := models'[g[0] := model];
    MergeEnd(inst, conns0, MergeAt(P, t), t, popped, model, conns', folded');
  }

  /** Before the fold over the new group: the merged partition with the combined model at its head. */
  lemma MergeStart(inst: Instances, conns0: seq<(string, string)>, P: seq<seq<string>>, t: nat,
                   models: map<string, Model>, conns: seq<(string, string)>, folded: seq<(string, string)>)
    requires Wf(inst) && t + 1 < |P| && Inv(inst, conns0, P, models, conns, folded)
    ensures P[t] != [] && P[t + 1] != [] && P[t][0] in models && P[t + 1][0] in models
    ensures FoldInv(inst, conns0, MergeAt(P, t), t, models - {P[t][0]} - {P[t + 1][0]},
                    Combined(models[P[t][0]], models[P[t + 1][0]], GroupName(P[t]), GroupName(P[t + 1])),
                    [], conns, folded)
  {
    assert P[t] != [] && P[t + 1] != [];
    PartitionMerge(inst, P, t);
    MergeHeads(inst, folded, P, t, models);
    MergeWaiting(inst, P, t, conns);
    var none: seq<(string, string)> := [];
    assert multiset(folded) + multiset(none) + multiset(conns) == multiset(conns0);
  }

  /** After the fold: storing the folded model under the group's first name restores the invariant. */
  lemma MergeEnd(inst: Instances, conns0: seq<(string, string)>, P: seq<seq<string>>, t: nat,
                 models: map<string, Model>, model: Model, kept: seq<(string, string)>, folded: seq<(string, string)>)
    requires Wf(inst) && FoldInv(inst, conns0, P, t, models, model, kept, [], folded)
    ensures Inv(inst, conns0, P, models[P[t][0] := model], kept, folded)
  {
    var none: seq<(string, string)> := [];
    assert multiset(folded) + multiset(kept) + multiset(none) == multiset(conns0);
  }

  // ---------------------------------------------------------------------------------------
  // One round of the while loop
  // ---------------------------------------------------------------------------------------

  lemma PartitionReverse(inst: Instances, P: seq<seq<string>>)
    requires Partition(inst, P)
    ensures Partition(inst, Reversed(P))
  {
    var R := Reversed(P);
    forall n | n in inst.models ensures exists i :: 0 <= i < |R| && n in R[i] {
      var a :| 0 <= a < |P| && n in P[a];
      assert n in R[|P| - 1 - a];
    }
    forall i, j, n | 0 <= i < |R| && 0 <= j < |R| && i != j && n in R[i] ensures n !in R[j] {
      assert n in P[|P| - 1 - i];
    }
  }

  lemma HeadsReverse(inst: Instances, folded: seq<(string, string)>, P: seq<seq<string>>, models: map<string, Model>)
    requires Wf(inst) && HeadsOk(inst, folded, P, models)
    ensures HeadsOk(inst, folded, Reversed(P), models)
  {
    var R := Reversed(P);
    forall i | 0 <= i < |R| ensures R[i] != [] && R[i][0] in models && GroupOk(inst, folded, R[i], models[R[i][0]]) {
      assert R[i] == P[|P| - 1 - i];
    }
  }

  lemma WaitingReverse(inst: Instances, P: seq<seq<string>>, conns: seq<(string, string)>)
    requires Waiting(inst, P, conns, -1)
    ensures Waiting(inst, Reversed(P), conns, -1)
  {
    var R := Reversed(P);
    forall c, i | c in conns && 0 <= i < |R| && |R[i]| > 1 ensures !Internal(R[i], c) {
      assert R[i] == P[|P| - 1 - i];
    }
  }

  /** The groups halfway through a round: t pairs of P joined, the rest of P still to come. */
  predicate RoundAt(P: seq<seq<string>>, cur: seq<seq<string>>, t: nat) {
    2 * t <= |P| && |cur| == |P| - t &&
    (forall i :: 0 <= i < t ==> cur[i] == P[2 * i] + P[2 * i + 1]) &&
    cur[t..] == P[2 * t..]
  }

  /**
   * The state of the zip loop after t pairs: the groups as RoundAt says, the invariant of the
   * reduction, and, when there are just two groups, the model variable holding the joined model.
   */
  ghost predicate RoundState(inst: Instances, conns0: seq<(string, string)>, P: seq<seq<string>>,
                             startModels: map<string, Model>, startConns: seq<(string, string)>, cur: seq<seq<string>>, t: nat,
                             models: map<string, Model>, conns: seq<(string, string)>, folded: seq<(string, string)>, model: Model)
    requires Wf(inst)
  {
    RoundAt(P, cur, t) && Inv(inst, conns0, cur, models, conns, folded) &&
    (models, conns) == Zip(P, startModels, startConns, t) &&
    (t > 0 && |P| == 2 ==> |cur| > 0 && cur[0] != [] && cur[0][0] in models && model == models[cur[0][0]])
  }

  /** The models and the connections after the first t pairs of the zip over the groups P. */
  function Zip(P: seq<seq<string>>, models: map<string, Model>, conns: seq<(string, string)>, t: nat)
    : (map<string, Model>, seq<(string, string)>)
    requires 2 * t <= |P|
  {
    if t == 0 then (models, conns)
    else
      var (m, c) := Zip(P, models, conns, t - 1);
      (MergedModels(m, P[2 * t - 2], P[2 * t - 1], c), Unfolded(c, P[2 * t - 2] + P[2 * t - 1]))
  }

  /** One more pair of the zip: merging P[2t] and P[2t + 1] takes Zip from t pairs to t + 1. */
  lemma ZipStep(P: seq<seq<string>>, startModels: map<string, Model>, startConns: seq<(string, string)>, t: nat,
                models: map<string, Model>, conns: seq<(string, string)>)
    requires 2 * t + 1 < |P| && (models, conns) == Zip(P, startModels, startConns, t)
    ensures Zip(P, startModels, startConns, t + 1)
         == (MergedModels(models, P[2 * t], P[2 * t + 1], conns), Unfolded(conns, P[2 * t] + P[2 * t + 1]))
  {
  }

  /** The groups at the end of a round's zip: the pairs of P joined, then an odd last group. */
  function Halved(P: seq<seq<string>>): (r: seq<seq<string>>)
    ensures |r| == (|P| + 1) / 2
  {
    seq(|P| / 2, i requires 0 <= i < |P| / 2 => P[2 * i] + P[2 * i + 1]) + (if |P| % 2 == 1 then [P[|P| - 1]] else [])
  }

  /**
   * One pass of the zip loop: join the next pair (P[2t], P[2t + 1]). The round started from
   * `startModels` and `startConns`.
   */
  method RoundStep(inst: Instances, ghost conns0: seq<(string, string)>, ghost P: seq<seq<string>>, cur: seq<seq<string>>, t: nat,
                   ghost startModels: map<string, Model>, ghost startConns: seq<(string, string)>,
                   models: map<string, Model>, conns: seq<(string, string)>, ghost folded: seq<(string, string)>, model: Model)
    returns (cur': seq<seq<string>>, models': map<string, Model>, conns': seq<(string, string)>,
             ghost folded': seq<(string, string)>, model': Model)
    requires Wf(inst) && 2 * t + 1 < |P| && RoundState(inst, conns0, P, startModels, startConns, cur, t, models, conns, folded, model)
    ensures RoundState(inst, conns0, P, startModels, startConns, cur', t + 1, models', conns', folded', model')
  {
    RoundAtStep(P, cur, t);
    models', conns', folded', model' := MergePair(inst, conns0, cur, t, models, conns, folded);
    ZipStep(P, startModels, startConns, t, models, conns);
    cur' := MergeAt(cur, t);
  }

  /** Joining pair t of the groups halfway through a round moves the round on by one pair. */
  lemma RoundAtStep(P: seq<seq<string>>, cur: seq<seq<string>>, t: nat)
    requires 2 * t + 1 < |P| && RoundAt(P, cur, t)
    ensures t + 1 < |cur| && cur[t] == P[2 * t] && cur[t + 1] == P[2 * t + 1]
    ensures RoundAt(P, MergeAt(cur, t), t + 1)
  {
    assert cur[t] == cur[t..][0] == P[2 * t] && cur[t + 1] == cur[t..][1] == P[2 * t + 1];
    assert MergeAt(cur, t)[t + 1..] == cur[t + 2..];
  }

  /**
   * One round: join the groups pairwise, (0, 1), (2, 3), ..., folding the connections each
   * joined group holds; an odd last group is left alone. The next round works on the joined
   * groups in reverse order, list(reversed(modelnames[::2])).
   */
  method Round(inst: Instances, ghost conns0: seq<(string, string)>, P: seq<seq<string>>, models: map<string, Model>,
               conns: seq<(string, string)>, ghost folded: seq<(string, string)>, model: Model)
    returns (P': seq<seq<string>>, models': map<string, Model>, conns': seq<(string, string)>,
             ghost folded': seq<(string, string)>, model': Model)
    requires Wf(inst) && |P| > 1 && Inv(inst, conns0, P, models, conns, folded)
    ensures Inv(inst, conns0, P', models', conns', folded')
    ensures |P'| == (|P| + 1) / 2
    ensures forall i :: 0 <= i < |P| / 2 ==> P'[|P'| - 1 - i] == P[2 * i] + P[2 * i + 1]
    ensures |P| % 2 == 1 ==> P'[0] == P[|P| - 1]
    ensures |P| == 2 ==> model' == models'[P'[0][0]]
    ensures P' == Reversed(Halved(P)) && (models', conns') == Zip(P, models, conns, |P| / 2)
  {
    var cur;
    cur, models', conns', folded', model' := ZipPairs(inst, conns0, P, models, conns, folded, model);
    P' := Reversed(cur);
    RoundDone(inst, conns0, P, models, conns, cur, P', models', conns', folded', model');
  }

  /** The zip loop of a round: for names1, names2 in zip(modelnames[::2], modelnames[1::2]). */
  method ZipPairs(inst: Instances, ghost conns0: seq<(string, string)>, P: seq<seq<string>>, models: map<string, Model>,
                  conns: seq<(string, string)>, ghost folded: seq<(string, string)>, model: Model)
    returns (cur: seq<seq<string>>, models': map<string, Model>, conns': seq<(string, string)>,
             ghost folded': seq<(string, string)>, model': Model)
    requires Wf(inst) && |P| > 1 && Inv(inst, conns0, P, models, conns, folded)
    ensures RoundState(inst, conns0, P, models, conns, cur, |P| / 2, models', conns', folded', model')
  {
    cur := P;
    var half := |P| / 2;
    models', conns', folded', model' := models, conns, folded, model;
    for t := 0 to half
      invariant RoundState(inst, conns0, P, models, conns, cur, t, models', conns', folded', model')
    {
      cur, models', conns', folded', model' := RoundStep(inst, conns0, P, cur, t, models, conns, models', conns', folded', model');
    }
  }

  /** After the zip loop, the reversed groups satisfy what a round promises. */
  lemma RoundDone(inst: Instances, conns0: seq<(string, string)>, P: seq<seq<string>>,
                  startModels: map<string, Model>, startConns: seq<(string, string)>, cur: seq<seq<string>>,
                  Q: seq<seq<string>>, models: map<string, Model>, conns: seq<(string, string)>,
                  folded: seq<(string, string)>, model: Model)
    requires Wf(inst) && |P| > 1 && RoundState(inst, conns0, P, startModels, startConns, cur, |P| / 2, models, conns, folded, model)
    requires Q == Reversed(cur)
    ensures Inv(inst, conns0, Q, models, conns, folded)
    ensures |Q| == (|P| + 1) / 2
    ensures forall i :: 0 <= i < |P| / 2 ==> Q[|Q| - 1 - i] == P[2 * i] + P[2 * i + 1]
    ensures |P| % 2 == 1 ==> Q[0] == P[|P| - 1]
    ensures |P| == 2 ==> model == models[Q[0][0]]
    ensures Q == Reversed(Halved(P)) && (models, conns) == Zip(P, startModels, startConns, |P| / 2)
  {
    InvReverse(inst, conns0, cur, models, conns, folded);
    RoundShape(P, cur);
    if |P| == 2 {
      assert |cur| == 1 && Reversed(cur)[0] == cur[0];
    }
  }

  lemma InvReverse(inst: Instances, conns0: seq<(string, string)>, P: seq<seq<string>>, models: map<string, Model>,
                   conns: seq<(string, string)>, folded: seq<(string, string)>)
    requires Wf(inst) && Inv(inst, conns0, P, models, conns, folded)
    ensures Inv(inst, conns0, Reversed(P), models, conns, folded)
  {
    PartitionReverse(inst, P);
    HeadsReverse(inst, folded, P, models);
    WaitingReverse(inst, P, conns);
  }

  /** The groups of the next round, read back from the end: the joined pairs, then an odd last group. */
  lemma RoundShape(P: seq<seq<string>>, cur: seq<seq<string>>)
    requires RoundAt(P, cur, |P| / 2)
    ensures cur == Halved(P)
    ensures |Reversed(cur)| == (|P| + 1) / 2
    ensures forall i :: 0 <= i < |P| / 2 ==> Reversed(cur)[|cur| - 1 - i] == P[2 * i] + P[2 * i + 1]
    ensures |P| % 2 == 1 ==> Reversed(cur)[0] == P[|P| - 1]
  {
    if |P| % 2 == 1 {
      assert cur[|P| / 2..] == P[|P| - 1..];
      assert cur[|cur| - 1] == cur[|P| / 2..][0];
    }
    forall i | 0 <= i < |cur| ensures cur[i] == Halved(P)[i] {
      if i >= |P| / 2 {
        assert cur[i] == cur[|P| / 2..][0];
      }
    }
  }

  // ---------------------------------------------------------------------------------------
  // The end of the reduction
  // ---------------------------------------------------------------------------------------

  /** Connection lists with the same elements, counted with multiplicity, have the same ends. */
  lemma EndsOfSame(a: seq<(string, string)>, b: seq<(string, string)>, q: string)
    requires multiset(a) == multiset(b) && q in Ends(b)
    ensures q in Ends(a)
  {
    EndsMember(b, q);
    var i :| 0 <= i < |b| && (b[i].0 == q || b[i].1 == q);
    assert b[i] in multiset(b);
    EndsHas(a, b[i]);
  }

  /** One group left holds every instance; with two instances or more it is a group of several. */
  lemma LastGroup(inst: Instances, P: seq<seq<string>>)
    requires Wf(inst) && |inst.order| > 1 && Partition(inst, P) && |P| == 1
    ensures |P[0]| > 1 && forall n :: n in inst.models ==> n in P[0]
  {
    var a, b := inst.order[0], inst.order[1];
    assert a in inst.models && b in inst.models;
    assert a in P[0] && b in P[0];
  }

  /** No connection waits once one group holds every instance. */
  lemma NoneWaiting(inst: Instances, P: seq<seq<string>>, conns: seq<(string, string)>)
    requires |P| == 1 && |P[0]| > 1 && (forall n :: n in inst.models ==> n in P[0]) && Waiting(inst, P, conns, -1)
    ensures conns == []
  {
    forall c ensures multiset(conns)[c] == 0 {
      assert c !in conns;
    }
    assert multiset(conns) == multiset{};
  }

  /** A port that no folded connection used, when every connection is folded, is a key of `ports`. */
  lemma UnfoldedPort(inst: Instances, conns0: seq<(string, string)>, ports: seq<(string, string)>,
                     folded: seq<(string, string)>, q: Port)
    requires Wf(inst) && WellWired(inst, conns0, ports) && multiset(folded) == multiset(conns0)
    requires q in AllPorts(inst) && q !in Ends(folded)
    ensures q in Elems(Keys(ports))
  {
    ElemsConcat(Ends(conns0), Keys(ports));
    assert q in Elems(Used(conns0, ports));
    if q in Ends(conns0) {
      EndsOfSame(folded, conns0, q);
    }
  }

  /**
   * When one group is left and there were at least two instances, every connection has been
   * folded, the group holds more than one instance, and the ports that remain are keys of
   * `ports`: the wiring rules cover every port.
   */
  lemma FinalState(inst: Instances, conns0: seq<(string, string)>, ports: seq<(string, string)>, P: seq<seq<string>>,
                   models: map<string, Model>, conns: seq<(string, string)>, folded: seq<(string, string)>)
    requires Wf(inst) && WellWired(inst, conns0, ports) && |inst.order| > 1
    requires Inv(inst, conns0, P, models, conns, folded) && |P| == 1
    ensures conns == [] && multiset(folded) == multiset(conns0)
    ensures |P[0]| > 1 && Ports(models[P[0][0]]) <= Elems(Keys(ports))
    ensures DefaultsOk(inst, P[0], models[P[0][0]].defaults)
  {
    LastGroup(inst, P);
    NoneWaiting(inst, P, conns);
    var none: seq<(string, string)> := [];
    assert multiset(folded) == multiset(folded) + multiset(none);
    var m := models[P[0][0]];
    assert GroupOk(inst, folded, P[0], m);
    forall q | q in Ports(m) ensures q in Elems(Keys(ports)) {
      UnfoldedPort(inst, conns0, ports, folded, q);
    }
  }

  /** The renaming `ports` of an accepted netlist sends distinct keys to distinct, colon-free names. */
  lemma OutputRenaming(ports: seq<(string, string)>, ps: set<Port>)
    requires DistinctKeys(ports) && Distinct(Values(ports)) && ps <= Elems(Keys(ports))
    ensures InjectiveOn(ToMap(ports), ps)
    ensures forall p :: p in ps ==> Rename(p, ToMap(ports)) in Elems(Values(ports))
  {
    forall p, q | p in ps && q in ps && p != q ensures Rename(p, ToMap(ports)) != Rename(q, ToMap(ports)) {
      OutputDistinct(ports, p, q);
    }
    forall p | p in ps ensures Rename(p, ToMap(ports)) in Elems(Values(ports)) {
      OutputValue(ports, p);
    }
  }

  lemma OutputDistinct(ports: seq<(string, string)>, p: Port, q: Port)
    requires DistinctKeys(ports) && Distinct(Values(ports)) && p in Elems(Keys(ports)) && q in Elems(Keys(ports)) && p != q
    ensures Rename(p, ToMap(ports)) != Rename(q, ToMap(ports))
  {
    var i := KeyIndex(ports, p);
    var j := KeyIndex(ports, q);
    ToMapAt(ports, i);
    ToMapAt(ports, j);
    assert Values(ports)[i] != Values(ports)[j];
  }

  lemma OutputValue(ports: seq<(string, string)>, p: Port)
    requires DistinctKeys(ports) && p in Elems(Keys(ports))
    ensures Rename(p, ToMap(ports)) in Elems(Values(ports))
  {
    var i := KeyIndex(ports, p);
    ToMapAt(ports, i);
    assert Values(ports)[i] == ports[i].1;
  }

  /** The position of a key in a list of items. */
  lemma KeyIndex(ports: seq<(string, string)>, p: Port) returns (i: nat)
    requires p in Elems(Keys(ports))
    ensures i < |ports| && ports[i].0 == p
  {
    i :| 0 <= i < |Keys(ports)| && Keys(ports)[i] == p;
  }

  /** A renaming that mentions none of a model's ports is injective on them. */
  lemma UntouchedInjective(m: Model, r: map<Port, Port>)
    requires forall p :: p in Ports(m) ==> p !in r
    ensures InjectiveOn(r, Ports(m))
  {
  }

  /** A renaming that mentions none of a model's ports leaves the model as it is. */
  lemma RenameUntouched(m: Model, r: map<Port, Port>)
    requires forall p :: p in Ports(m) ==> p !in r
    ensures InjectiveOn(r, Ports(m)) && RenamePorts(m, r) == m
  {
    UntouchedInjective(m, r);
    var res := RenamePorts(m, r);
    forall key | key in m.entries ensures RenameKey(key, r) == key {
      assert key.0 in Ports(m) && key.1 in Ports(m);
    }
    UntouchedKeys(m, r);
    forall key | key in m.entries ensures res.entries[key] == m.entries[key] {
      RenamedEntry(m, r, key);
    }
    MapExt(res.entries, m.entries);
  }

  lemma UntouchedKeys(m: Model, r: map<Port, Port>)
    requires InjectiveOn(r, Ports(m)) && forall key :: key in m.entries ==> RenameKey(key, r) == key
    ensures RenamePorts(m, r).entries.Keys == m.entries.Keys
  {
  }

  /** With a single instance, renaming by `ports` changes nothing: its keys all contain a ':' and the model's ports do not. */
  lemma SingleInstance(inst: Instances, conns0: seq<(string, string)>, ports: seq<(string, string)>, n: string)
    requires Wf(inst) && WellWired(inst, conns0, ports) && n in inst.models
    ensures InjectiveOn(ToMap(ports), Ports(inst.models[n]))
    ensures RenamePorts(inst.models[n], ToMap(ports)) == inst.models[n]
  {
    var m := inst.models[n];
    forall k | k in Keys(ports) ensures !NoColon(k) {
      assert k in Used(conns0, ports);
      assert Refers(inst, k);
      assert IndexOfColon(k).Some?;
    }
    forall p | p in Ports(m) ensures p !in ToMap(ports) {
      QualifiedOwner(inst, conns0, ports, n, p);
    }
    RenameUntouched(m, ToMap(ports));
  }

  /**
   * The groups, the models and the connections once whole rounds are run from P until at
   * most one group is left: the state the while loop of circuit ends in.
   */
  function Rounded(P: seq<seq<string>>, models: map<string, Model>, conns: seq<(string, string)>)
    : (seq<seq<string>>, map<string, Model>, seq<(string, string)>)
    decreases |P|
  {
    if |P| <= 1 then (P, models, conns)
    else
      var z := Zip(P, models, conns, |P| / 2);
      Rounded(Reversed(Halved(P)), z.0, z.1)
  }

  /** One round taken out of Rounded. */
  lemma RoundedStep(P: seq<seq<string>>, models: map<string, Model>, conns: seq<(string, string)>,
                    P': seq<seq<string>>, models': map<string, Model>, conns': seq<(string, string)>)
    requires |P| > 1 && P' == Reversed(Halved(P)) && (models', conns') == Zip(P, models, conns, |P| / 2)
    ensures Rounded(P', models', conns') == Rounded(P, models, conns)
  {
  }

  /** The while loop of circuit: rounds until one group, holding every instance, is left. */
  method Rounds(inst: Instances, ghost conns0: seq<(string, string)>, P: seq<seq<string>>, models: map<string, Model>,
                conns: seq<(string, string)>, model: Model)
    returns (P': seq<seq<string>>, models': map<string, Model>, conns': seq<(string, string)>,
             ghost folded: seq<(string, string)>, model': Model)
    requires Wf(inst) && |P| >= 1 && Inv(inst, conns0, P, models, conns, [])
    ensures Inv(inst, conns0, P', models', conns', folded) && |P'| == 1
    ensures |P| == 1 ==> model' == model && conns' == conns
    ensures |P| > 1 ==> P'[0] != [] && model' == models'[P'[0][0]]
    ensures (P', models', conns') == Rounded(P, models, conns)
  {
    P', models', conns', folded, model' := P, models, conns, [], model;
    while |P'| > 1
      invariant Inv(inst, conns0, P', models', conns', folded) && |P'| >= 1
      invariant |P| == 1 ==> model' == model && P' == P && conns' == conns
      invariant |P| > 1 && |P'| == 1 ==> P'[0] != [] && model' == models'[P'[0][0]]
      invariant Rounded(P', models', conns') == Rounded(P, models, conns)
      decreases |P'|
    {
      ghost var Q, M, C := P', models', conns';
      P', models', conns', folded, model' := Round(inst, conns0, P', models', conns', folded, model');
      RoundedStep(Q, M, C, P', models', conns');
    }
  }

  /** The state the while loop of circuit ends in, from the qualified models, one group per instance, and every connection. */
  function Reduced(inst: Instances, conns0: seq<(string, string)>): (seq<seq<string>>, map<string, Model>, seq<(string, string)>) {
    Rounded(Singletons(inst.order), QualifiedModels(inst), conns0)
  }

  /** The state the rounds reach from the qualified singletons is Reduced. */
  lemma ReducedIs(inst: Instances, conns0: seq<(string, string)>, P: seq<seq<string>>, models: map<string, Model>,
                  conns: seq<(string, string)>)
    requires (P, models, conns) == Rounded(Singletons(inst.order), QualifiedModels(inst), conns0)
    ensures Reduced(inst, conns0) == (P, models, conns)
    ensures P == Reduced(inst, conns0).0 && models == Reduced(inst, conns0).1 && conns == Reduced(inst, conns0).2
  {
  }

  /**
   * Everything circuit does after validation, on an accepted netlist with at least one
   * instance: qualify the ports, run the rounds, and rename the remaining ports by `ports`.
   * `models'` and `remaining` are what the caller's models and connections dictionaries,
   * which circuit updates in place, hold afterwards.
   */
  method Reduce(inst: Instances, conns0: seq<(string, string)>, ports: seq<(string, string)>)
    returns (r: Model, models': map<string, Model>, remaining: seq<(string, string)>, ghost folded: seq<(string, string)>)
    requires Wf(inst) && WellWired(inst, conns0, ports) && DistinctKeys(ports) && inst.order != []
    ensures |inst.order| == 1 ==> r == inst.models[inst.order[0]] && remaining == conns0 && models' == QualifiedModels(inst)
    ensures |inst.order| > 1 ==> remaining == [] && multiset(folded) == multiset(conns0)
    ensures |inst.order| > 1 ==>
      var R := Reduced(inst, conns0); var P, M, C := R.0, R.1, R.2;
      |P| == 1 && P[0] != [] && P[0][0] in M && InjectiveOn(ToMap(ports), Ports(M[P[0][0]])) &&
      r == RenamePorts(M[P[0][0]], ToMap(ports)) && remaining == C && models' == M
    ensures |inst.order| > 1 ==> Ports(r) <= Elems(Values(ports))
    ensures |inst.order| > 1 ==> NoEndLeft(conns0, r)
    ensures |inst.order| > 1 ==> DefaultsOk(inst, inst.order, r.defaults)
  {
    var model;
    models', model := QualifyAll(inst);
    ghost var last := model;
    assert |inst.order| == 1 ==> last == inst.models[inst.order[0]];
    InitInv(inst, conns0, ports);
    var groups;
    groups, models', remaining, folded, model := Rounds(inst, conns0, Singletons(inst.order), models', conns0, model);
    ReducedIs(inst, conns0, groups, models', remaining);
    if |inst.order| == 1 {
      ghost var n := inst.order[0];
      assert model == last;
      SingleInstance(inst, conns0, ports, n);
      r := RenamePorts(model, ToMap(ports));
      assert r == RenamePorts(inst.models[n], ToMap(ports));
    } else {
      Finish(inst, conns0, ports, groups, models', remaining, folded);
      r := RenamePorts(model, ToMap(ports));
    }
  }

  /** No end of a connection is a port of m: every connection has been eliminated from it. */
  predicate NoEndLeft(conns: seq<(string, string)>, m: Model) {
    forall c :: c in conns ==> c.0 !in Ports(m) && c.1 !in Ports(m)
  }

  /** A name that splits contains a ':'. */
  lemma SplitHasColon(s: string)
    requires Split(s).Some?
    ensures !NoColon(s)
  {
    var i := IndexOfColon(s).value;
    assert s[i] == ':';
  }

  /**
   * No end of a connection is an output name: the ends are qualified "instance:port" names,
   * the output names are colon-free.
   */
  lemma EndsNotOutputs(inst: Instances, conns0: seq<(string, string)>, ports: seq<(string, string)>, ps: set<Port>)
    requires Wf(inst) && WellWired(inst, conns0, ports) && ps <= Elems(Values(ports))
    ensures forall c :: c in conns0 ==> c.0 !in ps && c.1 !in ps
  {
    forall c | c in conns0 ensures c.0 !in ps && c.1 !in ps {
      EndsHas(conns0, c);
      ElemsConcat(Ends(conns0), Keys(ports));
      assert c.0 in Used(conns0, ports) && c.1 in Used(conns0, ports);
      SplitHasColon(c.0);
      SplitHasColon(c.1);
    }
  }

  /** What the final renaming yields once one group of several instances is left. */
  lemma Finish(inst: Instances, conns0: seq<(string, string)>, ports: seq<(string, string)>, P: seq<seq<string>>,
               models: map<string, Model>, conns: seq<(string, string)>, folded: seq<(string, string)>)
    requires Wf(inst) && WellWired(inst, conns0, ports) && DistinctKeys(ports) && |inst.order| > 1
    requires Inv(inst, conns0, P, models, conns, folded) && |P| == 1
    ensures P[0] != [] && P[0][0] in models && conns == []
    ensures InjectiveOn(ToMap(ports), Ports(models[P[0][0]]))
    ensures multiset(folded) == multiset(conns0)
    ensures Ports(RenamePorts(models[P[0][0]], ToMap(ports))) <= Elems(Values(ports))
    ensures NoEndLeft(conns0, RenamePorts(models[P[0][0]], ToMap(ports)))
    ensures DefaultsOk(inst, inst.order, RenamePorts(models[P[0][0]], ToMap(ports)).defaults)
  {
    FinalState(inst, conns0, ports, P, models, conns, folded);
    var model := models[P[0][0]];
    OutputRenaming(ports, Ports(model));
    var r := RenamePorts(model, ToMap(ports));
    forall q | q in Ports(r) ensures q in Elems(Values(ports)) {
      RenamedPortOrigin(model, ToMap(ports), q);
    }
    EndsNotOutputs(inst, conns0, ports, Ports(r));
    assert DefaultsOk(inst, P[0], model.defaults);
  }

  /**
   * circuit: on a netlist _validate_circuit_parameters accepts and with at least two
   * instances, every connection is eliminated exactly once, the result's ports are among the
   * new names given by `ports`, and its default parameters are instance defaults filed under
   * instance names. With one instance, circuit returns that instance's model unchanged; with
   * none, it fails (the loop variable `model` is never bound). `models'` and `remaining` are
   * what the caller's models and connections dictionaries hold afterwards: circuit updates
   * them in place, and a failed validation leaves them as they were.
   */
  method Circuit(inst: Instances, connections: ConnectionsArg, ports: seq<(string, string)>)
    returns (r: Result<Model, NetlistError>, models': map<string, Model>, remaining: seq<(string, string)>,
             ghost folded: seq<(string, string)>)
    requires Wf(inst) && DistinctKeys(ports)
    requires connections.DictForm? ==> DistinctKeys(connections.items)
    ensures r.Ok? <==> Accepts(inst, connections, ports) && inst.order != []
    ensures r.Err? ==> models' == inst.models
    ensures r.Err? && connections.DictForm? ==> remaining == connections.items
    ensures r.Err? && r.error.NoModels? ==> inst.order == []
    ensures r.Ok? && |inst.order| == 1 ==>
      r.value == inst.models[inst.order[0]] && remaining == Items(connections) && models' == QualifiedModels(inst)
    ensures r.Ok? && |inst.order| > 1 ==> remaining == [] && multiset(folded) == multiset(Items(connections))
    ensures r.Ok? && |inst.order| > 1 ==>
      var R := Reduced(inst, Items(connections)); var P, M, C := R.0, R.1, R.2;
      |P| == 1 && P[0] != [] && P[0][0] in M && InjectiveOn(ToMap(ports), Ports(M[P[0][0]])) &&
      r.value == RenamePorts(M[P[0][0]], ToMap(ports)) && remaining == C && models' == M
    ensures r.Ok? && |inst.order| > 1 ==> Ports(r.value) <= Elems(Values(ports))
    ensures r.Ok? && |inst.order| > 1 ==> NoEndLeft(Items(connections), r.value)
    ensures r.Ok? && |inst.order| > 1 ==> DefaultsOk(inst, inst.order, r.value.defaults)
  {
    folded, models' := [], inst.models;
    remaining := if connections.DictForm? then connections.items else [];
    var validated := ValidateCircuitParameters(inst, connections, ports);
    if validated.Err? {
      return Err(validated.error), models', remaining, folded;
    }
    if inst.order == [] {
      return Err(NoModels), models', remaining, folded;
    }
    var model;
    model, models', remaining, folded := Reduce(inst, validated.value, ports);
    return Ok(model), models', remaining, folded;
  }
}
