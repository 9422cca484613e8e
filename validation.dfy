/**
 * _validate_circuit_parameters and _validate_model_dict: the wiring rules of a netlist on
 * "instance:port" names. Every referenced instance and port exists, no port is used twice
 * across connections and exposed ports, exposed names are unique and colon-free, and no
 * port of any instance is left unused.
 */
module Validation {
  import opened Wrappers
  import opened Lists
  import opened PortNames
  import opened Models

  /** The models dictionary: instance names in insertion order, and each instance's model. */
  datatype Instances = Instances(order: seq<string>, models: map<string, Model>)

  /** A dictionary's keys are distinct and are exactly its keys in insertion order. */
  predicate Wf(inst: Instances) {
    Distinct(inst.order) && inst.models.Keys == Elems(inst.order)
  }

  /** The connections argument: a str:str dictionary, or a list of tuples that should have length 2. */
  datatype ConnectionsArg = DictForm(items: seq<(string, string)>) | ListForm(tuples: seq<seq<string>>)

  /** Why a netlist is rejected (the AssertionError messages, and the unbound result of an empty circuit). */
  datatype NetlistError =
    | NoPorts(model: string)
    | BadConnectionLength
    | DuplicateConnectionPort(port: string)
    | BadPortFormat(port: string)
    | UnknownModel(port: string)
    | UnknownPort(port: string)
    | ColonInOutput(output: string)
    | DuplicatePort(port: string)
    | DuplicateOutput(output: string)
    | UnusedPorts(unused: set<string>)
    | NoModels

  /** The qualified ports of one instance: "name:port" for each of its model's ports. */
  function QualifiedPorts(name: string, m: Model): set<string> {
    set p | p in Ports(m) :: Qualify(name, p)
  }

  /** The qualified ports of the named instances. */
  function PortsOf(inst: Instances, names: seq<string>): set<string>
    requires forall n :: n in names ==> n in inst.models
  {
    if names == [] then {}
    else
      var last := names[|names| - 1];
      PortsOf(inst, names[..|names| - 1]) + QualifiedPorts(last, inst.models[last])
  }

  /** all_ports: the qualified ports of every instance. */
  function AllPorts(inst: Instances): set<string>
    requires Wf(inst)
  {
    PortsOf(inst, inst.order)
  }

  lemma {:induction false} PortsOfMember(inst: Instances, names: seq<string>, s: string)
    requires forall n :: n in names ==> n in inst.models
    ensures s in PortsOf(inst, names) <==> exists n :: n in names && s in QualifiedPorts(n, inst.models[n])
  {
    if names != [] {
      var init := names[..|names| - 1];
      PortsOfMember(inst, init, s);
      assert names == init + [names[|names| - 1]];
    }
  }

  /** A qualified name is one of all_ports exactly when it names a port of some instance. */
  lemma AllPortsMember(inst: Instances, s: string)
    requires Wf(inst)
    ensures s in AllPorts(inst) <==> exists n :: n in inst.models && s in QualifiedPorts(n, inst.models[n])
  {
    PortsOfMember(inst, inst.order, s);
  }

  /** The ends of the connections, in order: both ports of each connection. */
  function Ends(items: seq<(string, string)>): (r: seq<string>)
    ensures |r| == 2 * |items|
  {
    if items == [] then []
    else Ends(items[..|items| - 1]) + [items[|items| - 1].0, items[|items| - 1].1]
  }

  lemma {:induction false} EndsAt(items: seq<(string, string)>, i: nat)
    requires i < |items|
    ensures Ends(items)[2 * i] == items[i].0 && Ends(items)[2 * i + 1] == items[i].1
  {
    if i < |items| - 1 {
      EndsAt(items[..|items| - 1], i);
    }
  }

  /** Every end belongs to some connection. */
  lemma {:induction false} EndsMember(items: seq<(string, string)>, s: string)
    requires s in Ends(items)
    ensures exists i :: 0 <= i < |items| && (items[i].0 == s || items[i].1 == s)
  {
    var init := items[..|items| - 1];
    if s in Ends(init) {
      EndsMember(init, s);
      var i :| 0 <= i < |init| && (init[i].0 == s || init[i].1 == s);
      assert items[i] == init[i];
    } else {
      assert items[|items| - 1].0 == s || items[|items| - 1].1 == s;
    }
  }

  lemma {:induction false} EndsSnoc(items: seq<(string, string)>, c: (string, string))
    ensures Ends(items + [c]) == Ends(items) + [c.0, c.1]
  {
    assert (items + [c])[..|items|] == items;
  }

  /** Adding a connection keeps the ends distinct exactly when its two ports are new and different. */
  lemma {:induction false} EndsSnocDistinct(items: seq<(string, string)>, c: (string, string))
    ensures Distinct(Ends(items + [c])) <==> Distinct(Ends(items)) && c.0 !in Ends(items) && c.1 !in Ends(items) && c.0 != c.1
  {
    EndsSnoc(items, c);
    var e := Ends(items);
    assert e + [c.0, c.1] == (e + [c.0]) + [c.1];
    DistinctSnoc(e, c.0);
    DistinctSnoc(e + [c.0], c.1);
  }

  /** Every port named in the netlist: the connection ends, then the keys of `ports`. */
  function Used(items: seq<(string, string)>, ports: seq<(string, string)>): seq<string> {
    Ends(items) + Keys(ports)
  }

  /** s has the form "name:port" with name an instance and port one of its model's ports. */
  predicate Refers(inst: Instances, s: string) {
    Split(s).Some? && Split(s).value.0 in inst.models && Split(s).value.1 in Ports(inst.models[Split(s).value.0])
  }

  predicate ModelsHavePorts(inst: Instances) {
    forall n :: n in inst.models ==> Ports(inst.models[n]) != {}
  }

  /** The wiring rules the dictionary forms of connections and ports must satisfy. */
  predicate WellWired(inst: Instances, items: seq<(string, string)>, ports: seq<(string, string)>)
    requires Wf(inst)
  {
    (forall s :: s in Used(items, ports) ==> Refers(inst, s)) &&
    Distinct(Used(items, ports)) &&
    (forall o :: o in Values(ports) ==> NoColon(o)) &&
    Distinct(Values(ports)) &&
    AllPorts(inst) <= Elems(Used(items, ports))
  }

  predicate PairsOnly(tuples: seq<seq<string>>) {
    forall i :: 0 <= i < |tuples| ==> |tuples[i]| == 2
  }

  /** The list form turned into dictionary items, one per tuple. */
  function Pairs(tuples: seq<seq<string>>): (r: seq<(string, string)>)
    requires PairsOnly(tuples)
    ensures |r| == |tuples| && forall i :: 0 <= i < |tuples| ==> r[i] == (tuples[i][0], tuples[i][1])
  {
    seq(|tuples|, i requires 0 <= i < |tuples| => (tuples[i][0], tuples[i][1]))
  }

  predicate ListShaped(connections: ConnectionsArg) {
    connections.ListForm? ==> PairsOnly(connections.tuples)
  }

  /** The connection items validation goes on with. */
  function Items(connections: ConnectionsArg): seq<(string, string)>
    requires ListShaped(connections)
  {
    if connections.DictForm? then connections.items else Pairs(connections.tuples)
  }

  /** What _validate_circuit_parameters accepts. */
  predicate Accepts(inst: Instances, connections: ConnectionsArg, ports: seq<(string, string)>)
    requires Wf(inst)
  {
    ModelsHavePorts(inst) && ListShaped(connections) && WellWired(inst, Items(connections), ports)
  }

  /** _validate_model_dict for each instance, collecting all_ports. */
  method CollectPorts(inst: Instances) returns (r: Result<set<string>, NetlistError>)
    requires Wf(inst)
    ensures r.Ok? <==> ModelsHavePorts(inst)
    ensures r.Ok? ==> r.value == AllPorts(inst)
    ensures r.Err? ==> r.error.NoPorts? && r.error.model in inst.models && Ports(inst.models[r.error.model]) == {}
  {
    var all: set<string> := {};
    for idx := 0 to |inst.order|
      invariant all == PortsOf(inst, inst.order[..idx])
      invariant forall n :: n in inst.order[..idx] ==> Ports(inst.models[n]) != {}
    {
      var name := inst.order[idx];
      assert inst.order[..idx + 1][..idx] == inst.order[..idx];
      if Ports(inst.models[name]) == {} {
        return Err(NoPorts(name));
      }
      all := all + QualifiedPorts(name, inst.models[name]);
    }
    assert inst.order[..|inst.order|] == inst.order;
    return Ok(all);
  }

  /** The list-form branch: every tuple of length 2, converted to items; no port may repeat. */
  method ConnectionsFromList(tuples: seq<seq<string>>) returns (r: Result<seq<(string, string)>, NetlistError>)
    ensures r.Ok? <==> PairsOnly(tuples) && Distinct(Ends(Pairs(tuples)))
    ensures r.Ok? ==> r.value == Pairs(tuples) && DistinctKeys(r.value)
    ensures r.Err? ==> r.error.BadConnectionLength? || r.error.DuplicateConnectionPort?
  {
    var i := 0;
    while i < |tuples|
      invariant 0 <= i <= |tuples|
      invariant forall x :: 0 <= x < i ==> |tuples[x]| == 2
    {
      if |tuples[i]| != 2 {
        return Err(BadConnectionLength);
      }
      i := i + 1;
    }
    var items: seq<(string, string)> := [];
    var seen: set<string> := {};
    for idx := 0 to |tuples|
      invariant items == Pairs(tuples[..idx])
      invariant seen == Elems(Ends(items)) && Distinct(Ends(items))
    {
      var c := (tuples[idx][0], tuples[idx][1]);
      assert Pairs(tuples[..idx + 1]) == items + [c];
      EndsSnoc(items, c);
      EndsSnocDistinct(items, c);
      DistinctEndsPrefix(tuples, idx + 1);
      ghost var before := items;
      items := items + [c];
      if c.0 in seen {
        assert !Distinct(Ends(before + [c]));
        return Err(DuplicateConnectionPort(c.0));
      }
      seen := seen + {c.0};
      if c.1 in seen {
        assert !Distinct(Ends(before + [c]));
        return Err(DuplicateConnectionPort(c.1));
      }
      seen := seen + {c.1};
    }
    assert tuples[..|tuples|] == tuples;
    DistinctKeysOfEnds(items);
    return Ok(items);
  }

  /** A prefix of the list converts to a prefix of the items, so duplicates in it are duplicates overall. */
  lemma {:induction false} DistinctEndsPrefix(tuples: seq<seq<string>>, n: nat)
    requires PairsOnly(tuples) && n <= |tuples|
    ensures PairsOnly(tuples[..n])
    ensures Distinct(Ends(Pairs(tuples))) ==> Distinct(Ends(Pairs(tuples[..n])))
  {
    var all := Pairs(tuples);
    assert Pairs(tuples[..n]) == all[..n];
    var rest := all[n..];
    assert all == all[..n] + rest;
    EndsConcat(all[..n], rest);
    if Distinct(Ends(all)) {
      DistinctPrefix(Ends(all), 2 * n);
    }
  }

  lemma {:induction false} EndsConcat(a: seq<(string, string)>, b: seq<(string, string)>)
    ensures Ends(a + b) == Ends(a) + Ends(b)
  {
    if b == [] {
      assert a + b == a;
    } else {
      var init := b[..|b| - 1];
      EndsConcat(a, init);
      assert a + b == (a + init) + [b[|b| - 1]];
      EndsSnoc(a + init, b[|b| - 1]);
      EndsSnoc(init, b[|b| - 1]);
      assert b == init + [b[|b| - 1]];
    }
  }

  /** Distinct ends make distinct keys. */
  lemma {:induction false} DistinctKeysOfEnds(items: seq<(string, string)>)
    requires Distinct(Ends(items))
    ensures DistinctKeys(items)
  {
    forall i, j | 0 <= i < j < |items|
      ensures items[i].0 != items[j].0
    {
      EndsAt(items, i);
      EndsAt(items, j);
    }
  }

  /** One port of the connections loop: removed from all_ports, then checked. */
  method CheckConnectionPort(inst: Instances, s: string, all: set<string>, seen: set<string>)
    returns (r: Result<(set<string>, set<string>), NetlistError>)
    ensures r.Ok? <==> Refers(inst, s) && s !in seen
    ensures r.Ok? ==> r.value == (all - {s}, seen + {s})
    ensures r.Err? ==> !r.error.UnusedPorts? && !r.error.NoPorts? && !r.error.NoModels?
  {
    var all' := all - {s};
    var parts := Split(s);
    if parts.None? {
      return Err(BadPortFormat(s));
    }
    var (name, port) := parts.value;
    if name !in inst.models {
      return Err(UnknownModel(s));
    }
    if port !in Ports(inst.models[name]) {
      return Err(UnknownPort(s));
    }
    if s in seen {
      return Err(DuplicateConnectionPort(s));
    }
    return Ok((all', seen + {s}));
  }

  /** Both ports of one connection, in order. */
  method CheckConnection(inst: Instances, c: (string, string), all: set<string>, seen: set<string>)
    returns (r: Result<(set<string>, set<string>), NetlistError>)
    ensures r.Ok? <==> Refers(inst, c.0) && Refers(inst, c.1) && c.0 !in seen && c.1 !in seen && c.0 != c.1
    ensures r.Ok? ==> r.value == (all - {c.0, c.1}, seen + {c.0, c.1})
    ensures r.Err? ==> !r.error.UnusedPorts? && !r.error.NoPorts? && !r.error.NoModels?
  {
    var r1 := CheckConnectionPort(inst, c.0, all, seen);
    if r1.Err? {
      return Err(r1.error);
    }
    r := CheckConnectionPort(inst, c.1, r1.value.0, r1.value.1);
    if r.Ok? {
      assert r1.value.0 == all - {c.0} && r.value.0 == r1.value.0 - {c.1};
      assert all - {c.0} - {c.1} == all - {c.0, c.1};
      assert seen + {c.0} + {c.1} == seen + {c.0, c.1};
    }
  }

  /** The conditions the connections loop checks. */
  predicate ConnectionsChecked(inst: Instances, items: seq<(string, string)>) {
    (forall s :: s in Ends(items) ==> Refers(inst, s)) && Distinct(Ends(items))
  }

  /** One iteration of the connections loop, from the sets kept for a prefix to those of the next prefix. */
  method ConnectionsIteration(inst: Instances, items: seq<(string, string)>, idx: nat,
                              all: set<string>, rest: set<string>, seen: set<string>)
    returns (r: Result<(set<string>, set<string>), NetlistError>)
    requires idx < |items| && ConnectionsChecked(inst, items[..idx])
    requires rest == all - Elems(Ends(items[..idx])) && seen == Elems(Ends(items[..idx]))
    ensures r.Ok? ==> ConnectionsChecked(inst, items[..idx + 1])
    ensures r.Ok? ==> r.value.0 == all - Elems(Ends(items[..idx + 1])) && r.value.1 == Elems(Ends(items[..idx + 1]))
    ensures r.Err? ==> !ConnectionsChecked(inst, items)
    ensures r.Err? ==> !r.error.UnusedPorts? && !r.error.NoPorts? && !r.error.NoModels?
  {
    var c := items[idx];
    EndsStep(items, idx);
    ElemsConcat(Ends(items[..idx]), [c.0, c.1]);
    assert Elems([c.0, c.1]) == {c.0, c.1};
    r := CheckConnection(inst, c, rest, seen);
  }

  /** The loop over the connection items. */
  method CheckConnections(inst: Instances, items: seq<(string, string)>, all: set<string>)
    returns (r: Result<(set<string>, set<string>), NetlistError>)
    ensures r.Ok? <==> ConnectionsChecked(inst, items)
    ensures r.Ok? ==> r.value == (all - Elems(Ends(items)), Elems(Ends(items)))
    ensures r.Err? ==> !r.error.UnusedPorts? && !r.error.NoPorts? && !r.error.NoModels?
  {
    var rest, seen := all, {};
    for idx := 0 to |items|
      invariant ConnectionsChecked(inst, items[..idx])
      invariant rest == all - Elems(Ends(items[..idx])) && seen == Elems(Ends(items[..idx]))
    {
      var step := ConnectionsIteration(inst, items, idx, all, rest, seen);
      if step.Err? {
        return Err(step.error);
      }
      rest, seen := step.value.0, step.value.1;
    }
    assert items[..|items|] == items;
    return Ok((rest, seen));
  }

  /** What one more connection adds to the ends of a prefix. */
  lemma {:induction false} EndsStep(items: seq<(string, string)>, idx: nat)
    requires idx < |items|
    ensures Ends(items[..idx + 1]) == Ends(items[..idx]) + [items[idx].0, items[idx].1]
    ensures Distinct(Ends(items[..idx + 1])) <==>
      Distinct(Ends(items[..idx])) && items[idx].0 !in Ends(items[..idx]) && items[idx].1 !in Ends(items[..idx]) &&
      items[idx].0 != items[idx].1
    ensures items[idx].0 in Ends(items) && items[idx].1 in Ends(items)
    ensures Distinct(Ends(items)) ==> Distinct(Ends(items[..idx + 1]))
  {
    var c := items[idx];
    assert items[..idx + 1] == items[..idx] + [c];
    EndsSnoc(items[..idx], c);
    EndsSnocDistinct(items[..idx], c);
    EndsPrefixOf(items, idx + 1);
  }

  /** The ends of a prefix are a prefix of the ends. */
  lemma {:induction false} EndsPrefixOf(items: seq<(string, string)>, n: nat)
    requires n <= |items|
    ensures Ends(items) == Ends(items[..n]) + Ends(items[n..])
    ensures Distinct(Ends(items)) ==> Distinct(Ends(items[..n]))
  {
    assert items == items[..n] + items[n..];
    EndsConcat(items[..n], items[n..]);
    if Distinct(Ends(items)) {
      DistinctPrefix(Ends(items), 2 * n);
    }
  }

  /** One entry of the ports loop. */
  method CheckOutputPort(inst: Instances, s: string, out: string, all: set<string>, seen: set<string>, outs: set<string>)
    returns (r: Result<(set<string>, set<string>, set<string>), NetlistError>)
    ensures r.Ok? <==> Refers(inst, s) && NoColon(out) && s !in seen && out !in outs
    ensures r.Ok? ==> r.value == (all - {s}, seen + {s}, outs + {out})
    ensures r.Err? ==> !r.error.UnusedPorts? && !r.error.NoPorts? && !r.error.NoModels?
  {
    var all' := all - {s};
    var parts := Split(s);
    if parts.None? {
      return Err(BadPortFormat(s));
    }
    if ':' in out {
      return Err(ColonInOutput(out));
    }
    if s in seen {
      return Err(DuplicatePort(s));
    }
    var (name, port) := parts.value;
    if name !in inst.models {
      return Err(UnknownModel(s));
    }
    if port !in Ports(inst.models[name]) {
      return Err(UnknownPort(s));
    }
    if out in outs {
      return Err(DuplicateOutput(out));
    }
    return Ok((all', seen + {s}, outs + {out}));
  }

  /** The conditions the ports loop has checked on a prefix of `ports`, and the sets it keeps. */
  ghost predicate PortsChecked(inst: Instances, items: seq<(string, string)>, keys: seq<string>, vals: seq<string>)
  {
    (forall s :: s in keys ==> Refers(inst, s)) && Distinct(keys) && (forall s :: s in keys ==> s !in Ends(items)) &&
    (forall o :: o in vals ==> NoColon(o)) && Distinct(vals)
  }

  lemma {:induction false} PortsCheckedStep(inst: Instances, items: seq<(string, string)>, keys: seq<string>,
                                            vals: seq<string>, s: string, out: string)
    requires PortsChecked(inst, items, keys, vals)
    ensures PortsChecked(inst, items, keys + [s], vals + [out]) <==>
      Refers(inst, s) && NoColon(out) && s !in Elems(Ends(items)) + Elems(keys) && out !in Elems(vals)
  {
    DistinctSnoc(keys, s);
    DistinctSnoc(vals, out);
  }

  /** The checked conditions on all of `ports` are the loop's promise about the whole dictionary. */
  lemma {:induction false} PortsCheckedAll(inst: Instances, items: seq<(string, string)>, ports: seq<(string, string)>)
    requires Distinct(Ends(items))
    ensures PortsChecked(inst, items, Keys(ports), Values(ports)) <==>
      (forall s :: s in Keys(ports) ==> Refers(inst, s)) && Distinct(Used(items, ports)) &&
      (forall o :: o in Values(ports) ==> NoColon(o)) && Distinct(Values(ports))
  {
    DistinctConcat(Ends(items), Keys(ports));
  }

  /** A prefix that fails the conditions makes the whole dictionary fail them. */
  lemma {:induction false} PortsCheckedPrefix(inst: Instances, items: seq<(string, string)>, ports: seq<(string, string)>, n: nat)
    requires n <= |ports|
    ensures PortsChecked(inst, items, Keys(ports), Values(ports)) ==> PortsChecked(inst, items, Keys(ports[..n]), Values(ports[..n]))
  {
    assert Keys(ports[..n]) == Keys(ports)[..n];
    assert Values(ports[..n]) == Values(ports)[..n];
    if PortsChecked(inst, items, Keys(ports), Values(ports)) {
      DistinctPrefix(Keys(ports), n);
      DistinctPrefix(Values(ports), n);
    }
  }

  /** One iteration of the ports loop, from the sets kept for a prefix to those of the next prefix. */
  method PortsIteration(inst: Instances, items: seq<(string, string)>, ports: seq<(string, string)>, idx: nat,
                        all: set<string>, rest: set<string>, seen: set<string>, outs: set<string>)
    returns (r: Result<(set<string>, set<string>, set<string>), NetlistError>)
    requires idx < |ports|
    requires PortsChecked(inst, items, Keys(ports[..idx]), Values(ports[..idx]))
    requires rest == all - Elems(Keys(ports[..idx]))
    requires seen == Elems(Ends(items)) + Elems(Keys(ports[..idx])) && outs == Elems(Values(ports[..idx]))
    ensures r.Ok? ==> PortsChecked(inst, items, Keys(ports[..idx + 1]), Values(ports[..idx + 1]))
    ensures r.Ok? ==> r.value.0 == all - Elems(Keys(ports[..idx + 1]))
    ensures r.Ok? ==> r.value.1 == Elems(Ends(items)) + Elems(Keys(ports[..idx + 1]))
    ensures r.Ok? ==> r.value.2 == Elems(Values(ports[..idx + 1]))
    ensures r.Err? ==> !PortsChecked(inst, items, Keys(ports), Values(ports))
    ensures r.Err? ==> !r.error.UnusedPorts? && !r.error.NoPorts? && !r.error.NoModels?
  {
    var (s, out) := ports[idx];
    PortsStep(ports, idx);
    PortsCheckedStep(inst, items, Keys(ports[..idx]), Values(ports[..idx]), s, out);
    r := CheckOutputPort(inst, s, out, rest, seen, outs);
    if r.Err? {
      PortsCheckedPrefix(inst, items, ports, idx + 1);
    } else {
      assert Elems(Ends(items)) + Elems(Keys(ports[..idx])) + {s} == Elems(Ends(items)) + Elems(Keys(ports[..idx + 1]));
    }
  }

  /** The loop over the ports dictionary. */
  method CheckPorts(inst: Instances, items: seq<(string, string)>, ports: seq<(string, string)>, all: set<string>)
    returns (r: Result<set<string>, NetlistError>)
    ensures r.Ok? <==> PortsChecked(inst, items, Keys(ports), Values(ports))
    ensures r.Ok? ==> r.value == all - Elems(Keys(ports))
    ensures r.Err? ==> !r.error.UnusedPorts? && !r.error.NoPorts? && !r.error.NoModels?
  {
    var rest, seen, outs := all, Elems(Ends(items)), {};
    for idx := 0 to |ports|
      invariant PortsChecked(inst, items, Keys(ports[..idx]), Values(ports[..idx]))
      invariant rest == all - Elems(Keys(ports[..idx]))
      invariant seen == Elems(Ends(items)) + Elems(Keys(ports[..idx])) && outs == Elems(Values(ports[..idx]))
    {
      var step := PortsIteration(inst, items, ports, idx, all, rest, seen, outs);
      if step.Err? {
        return Err(step.error);
      }
      rest, seen, outs := step.value.0, step.value.1, step.value.2;
    }
    assert ports[..|ports|] == ports;
    return Ok(rest);
  }

  /** What one more entry of `ports` adds to the keys and values of a prefix. */
  lemma {:induction false} PortsStep(ports: seq<(string, string)>, idx: nat)
    requires idx < |ports|
    ensures Keys(ports[..idx + 1]) == Keys(ports[..idx]) + [ports[idx].0]
    ensures Values(ports[..idx + 1]) == Values(ports[..idx]) + [ports[idx].1]
    ensures Elems(Keys(ports[..idx + 1])) == Elems(Keys(ports[..idx])) + {ports[idx].0}
    ensures Elems(Values(ports[..idx + 1])) == Elems(Values(ports[..idx])) + {ports[idx].1}
  {
    assert ports[..idx + 1] == ports[..idx] + [ports[idx]];
    ElemsConcat(Keys(ports[..idx]), [ports[idx].0]);
    ElemsConcat(Values(ports[..idx]), [ports[idx].1]);
  }

  /** The wiring rules are what the two loops and the final unused-ports check verify. */
  lemma WellWiredChecked(inst: Instances, items: seq<(string, string)>, ports: seq<(string, string)>)
    requires Wf(inst)
    ensures WellWired(inst, items, ports) <==>
      ConnectionsChecked(inst, items) && PortsChecked(inst, items, Keys(ports), Values(ports)) &&
      AllPorts(inst) <= Elems(Ends(items)) + Elems(Keys(ports))
  {
    ElemsConcat(Ends(items), Keys(ports));
    DistinctConcat(Ends(items), Keys(ports));
    assert forall s :: s in Used(items, ports) <==> s in Ends(items) || s in Keys(ports);
  }

  /**
   * _validate_circuit_parameters: accepts exactly the netlists the wiring rules allow, and
   * then returns the connections as dictionary items (the models and ports are returned as
   * they are). When only the last rule fails, the error names exactly the unused ports.
   */
  method ValidateCircuitParameters(inst: Instances, connections: ConnectionsArg, ports: seq<(string, string)>)
    returns (r: Result<seq<(string, string)>, NetlistError>)
    requires Wf(inst) && DistinctKeys(ports)
    requires connections.DictForm? ==> DistinctKeys(connections.items)
    ensures r.Ok? <==> Accepts(inst, connections, ports)
    ensures r.Ok? ==> r.value == Items(connections) && DistinctKeys(r.value)
    ensures r.Err? && r.error.UnusedPorts? ==>
      ModelsHavePorts(inst) && ListShaped(connections) &&
      r.error.unused == AllPorts(inst) - Elems(Used(Items(connections), ports)) && r.error.unused != {}
    ensures r.Err? && r.error.NoPorts? ==> r.error.model in inst.models && Ports(inst.models[r.error.model]) == {}
    ensures r.Err? ==> !r.error.NoModels?
  {
    var collected := CollectPorts(inst);
    if collected.Err? {
      return Err(collected.error);
    }
    var items: seq<(string, string)>;
    if connections.DictForm? {
      items := connections.items;
    } else {
      var converted := ConnectionsFromList(connections.tuples);
      if converted.Err? {
        if PairsOnly(connections.tuples) {
          WellWiredChecked(inst, Items(connections), ports);
        }
        return Err(converted.error);
      }
      items := converted.value;
    }
    assert items == Items(connections);
    var wiring := CheckWiring(inst, items, ports, collected.value);
    if wiring.Err? {
      return Err(wiring.error);
    }
    return Ok(items);
  }

  /** The connections loop, the ports loop and the final check that no port is left unused. */
  method CheckWiring(inst: Instances, items: seq<(string, string)>, ports: seq<(string, string)>, all: set<string>)
    returns (r: Result<(), NetlistError>)
    requires Wf(inst) && all == AllPorts(inst)
    ensures r.Ok? <==> WellWired(inst, items, ports)
    ensures r.Err? && r.error.UnusedPorts? ==>
      r.error.unused == AllPorts(inst) - Elems(Used(items, ports)) && r.error.unused != {}
    ensures r.Err? ==> !r.error.NoPorts? && !r.error.NoModels?
  {
    WellWiredChecked(inst, items, ports);
    ElemsConcat(Ends(items), Keys(ports));
    var checked := CheckConnections(inst, items, all);
    if checked.Err? {
      return Err(checked.error);
    }
    var rest := CheckPorts(inst, items, ports, checked.value.0);
    if rest.Err? {
      return Err(rest.error);
    }
    assert checked.value.0 == all - Elems(Ends(items));
    assert rest.value == AllPorts(inst) - (Elems(Ends(items)) + Elems(Keys(ports)));
    if rest.value != {} {
      return Err(UnusedPorts(rest.value));
    }
    assert ConnectionsChecked(inst, items) && PortsChecked(inst, items, Keys(ports), Values(ports));
    forall x | x in AllPorts(inst) ensures x in Elems(Ends(items)) + Elems(Keys(ports)) {
      assert x !in rest.value;
    }
    return Ok(());
  }
}
