/**
 * Model dictionaries: a response function per ordered port pair, plus default parameters.
 * Also the helpers of phax/utils that the reduction engine uses (get_ports, rename_ports,
 * zero), given here by what they do, and the model-building decorator modelgenerator.
 */
module Models {
  import opened Wrappers
  import opened Lists
  import opened Responses

  type Port = string

  /** A model dictionary: the tuple keys with their responses, and "default_params". */
  datatype Model = Model(entries: map<(Port, Port), Resp>, defaults: map<string, Params>)

  /** get_ports: the ports named in the model's tuple keys. */
  function Ports(m: Model): set<Port> {
    (set key | key in m.entries :: key.0) + (set key | key in m.entries :: key.1)
  }

  /** model.get(key, zero): a missing entry reads as the zero response. */
  function Get(m: Model, key: (Port, Port)): Resp {
    if key in m.entries then m.entries[key] else Zero
  }

  /** The new name of port p under a renaming; ports the renaming does not mention keep their name. */
  function Rename(p: Port, r: map<Port, Port>): Port {
    if p in r then r[p] else p
  }

  predicate InjectiveOn(r: map<Port, Port>, ps: set<Port>) {
    forall p, q :: p in ps && q in ps && p != q ==> Rename(p, r) != Rename(q, r)
  }

  /** The tuple key (p, q) renamed port by port. */
  function RenameKey(key: (Port, Port), r: map<Port, Port>): (Port, Port) {
    (Rename(key.0, r), Rename(key.1, r))
  }

  /** rename_ports: every tuple key (p, q) becomes (r(p), r(q)); default parameters are kept. */
  function RenamePorts(m: Model, r: map<Port, Port>): (res: Model)
    requires InjectiveOn(r, Ports(m))
    ensures res.defaults == m.defaults
    ensures res.entries.Keys == set key | key in m.entries :: RenameKey(key, r)
  {
    Model(map key | key in m.entries :: RenameKey(key, r) := m.entries[key], m.defaults)
  }

  /** Under a renaming injective on the model's ports, distinct tuple keys stay distinct. */
  lemma RenameKeyInjective(m: Model, r: map<Port, Port>, k1: (Port, Port), k2: (Port, Port))
    requires InjectiveOn(r, Ports(m)) && k1 in m.entries && k2 in m.entries
    requires RenameKey(k1, r) == RenameKey(k2, r)
    ensures k1 == k2
  {
    assert k1.0 in Ports(m) && k2.0 in Ports(m);
    assert k1.1 in Ports(m) && k2.1 in Ports(m);
  }

  /** Each entry is found again under its renamed key. */
  lemma RenamedEntry(m: Model, r: map<Port, Port>, key: (Port, Port))
    requires InjectiveOn(r, Ports(m)) && key in m.entries
    ensures RenameKey(key, r) in RenamePorts(m, r).entries
    ensures RenamePorts(m, r).entries[RenameKey(key, r)] == m.entries[key]
  {
    var k2 := RenameKey(key, r);
    var res := RenamePorts(m, r);
    assert k2 in res.entries;
    var k0 :| k0 in m.entries && RenameKey(k0, r) == k2 && res.entries[k2] == m.entries[k0];
    RenameKeyInjective(m, r, k0, key);
  }

  /** Every port of the renamed model is the new name of a port of the model. */
  lemma RenamedPortOrigin(m: Model, r: map<Port, Port>, q: Port)
    requires InjectiveOn(r, Ports(m)) && q in Ports(RenamePorts(m, r))
    ensures exists p :: p in Ports(m) && q == Rename(p, r)
  {
    var key :| key in RenamePorts(m, r).entries && (key.0 == q || key.1 == q);
  }

  /** Every port of the model reappears, under its new name, in the renamed model. */
  lemma RenamedPortKept(m: Model, r: map<Port, Port>, p: Port)
    requires InjectiveOn(r, Ports(m)) && p in Ports(m)
    ensures Rename(p, r) in Ports(RenamePorts(m, r))
  {
    var key :| key in m.entries && (key.0 == p || key.1 == p);
    assert RenameKey(key, r) in RenamePorts(m, r).entries;
  }

  /**
   * The entry modelgenerator stores for the index pair (a, b): the generator's function for
   * a <= b; for a > b the function of (b, a) if the model is reciprocal, else that of (a, b).
   */
  function Generated(gen: (nat, nat) -> Option<Resp>, reciprocal: bool, a: nat, b: nat): Option<Resp> {
    if a <= b || !reciprocal then gen(a, b) else gen(b, a)
  }

  /** A reciprocal model stores the same function for (a, b) and for (b, a). */
  lemma GeneratedReciprocal(gen: (nat, nat) -> Option<Resp>, a: nat, b: nat)
    ensures Generated(gen, true, a, b) == Generated(gen, true, b, a)
  {
  }

  /** Index pairs visited by modelgenerator before (i, j) in its loop order (j outer, i <= j inner). */
  predicate Visited(a: nat, b: nat, i: nat, j: nat) {
    var hi, lo := if a <= b then b else a, if a <= b then a else b;
    hi < j || (hi == j && lo < i)
  }

  /**
   * With distinct ports, entries holds exactly the generated functions of the index pairs
   * visited before (i, j).
   */
  ghost predicate Filled(entries: map<(Port, Port), Resp>, ports: seq<Port>, gen: (nat, nat) -> Option<Resp>,
                         reciprocal: bool, i: nat, j: nat)
  {
    forall a, b :: 0 <= a < |ports| && 0 <= b < |ports| ==>
      ((ports[a], ports[b]) in entries <==> Visited(a, b, i, j) && Generated(gen, reciprocal, a, b).Some?) &&
      ((ports[a], ports[b]) in entries ==> entries[(ports[a], ports[b])] == Generated(gen, reciprocal, a, b).value)
  }

  /** What one inner iteration of modelgenerator stores. */
  function Store(entries: map<(Port, Port), Resp>, ports: seq<Port>, gen: (nat, nat) -> Option<Resp>,
                 reciprocal: bool, i: nat, j: nat): map<(Port, Port), Resp>
    requires i < |ports| && j < |ports|
  {
    var f := gen(i, j);
    var e1 := if f.Some? then entries[(ports[i], ports[j]) := f.value] else entries;
    var g := if reciprocal then f else gen(j, i);
    if g.Some? then e1[(ports[j], ports[i]) := g.value] else e1
  }

  lemma StoreStep(entries: map<(Port, Port), Resp>, ports: seq<Port>, gen: (nat, nat) -> Option<Resp>,
                  reciprocal: bool, i: nat, j: nat)
    requires Distinct(ports) && i <= j < |ports|
    requires Filled(entries, ports, gen, reciprocal, i, j)
    ensures Filled(Store(entries, ports, gen, reciprocal, i, j), ports, gen, reciprocal, i + 1, j)
  {
    var e := Store(entries, ports, gen, reciprocal, i, j);
    forall a, b | 0 <= a < |ports| && 0 <= b < |ports|
      ensures ((ports[a], ports[b]) in e <==> Visited(a, b, i + 1, j) && Generated(gen, reciprocal, a, b).Some?) &&
              ((ports[a], ports[b]) in e ==> e[(ports[a], ports[b])] == Generated(gen, reciprocal, a, b).value)
    {
      if (a, b) == (i, j) || (a, b) == (j, i) {
      } else {
        assert ports[a] != ports[i] || ports[b] != ports[j];
        assert ports[a] != ports[j] || ports[b] != ports[i];
        assert Visited(a, b, i + 1, j) == Visited(a, b, i, j);
      }
    }
  }

  lemma NextColumn(entries: map<(Port, Port), Resp>, ports: seq<Port>, gen: (nat, nat) -> Option<Resp>,
                   reciprocal: bool, j: nat)
    requires Filled(entries, ports, gen, reciprocal, j + 1, j)
    ensures Filled(entries, ports, gen, reciprocal, 0, j + 1)
  {
  }

  /** What the stored keys are made of, whether or not the ports are distinct. */
  lemma StoreKeys(entries: map<(Port, Port), Resp>, ports: seq<Port>, gen: (nat, nat) -> Option<Resp>,
                  reciprocal: bool, i: nat, j: nat)
    requires i < |ports| && j < |ports|
    requires forall key :: key in entries ==> key.0 in ports && key.1 in ports
    ensures forall key :: key in Store(entries, ports, gen, reciprocal, i, j) ==> key.0 in ports && key.1 in ports
  {
  }

  /**
   * modelgenerator: fill the model dictionary from a function-generating function gen(i, j),
   * storing only the pairs for which gen returns a function.
   */
  method ModelGenerator(ports: seq<Port>, defaultParams: Option<map<string, Params>>, reciprocal: bool,
                        gen: (nat, nat) -> Option<Resp>)
    returns (m: Model)
    ensures m.defaults == if defaultParams.None? then map[] else defaultParams.value
    ensures forall key :: key in m.entries ==> key.0 in ports && key.1 in ports
    ensures Distinct(ports) ==> forall a, b :: 0 <= a < |ports| && 0 <= b < |ports| ==>
      ((ports[a], ports[b]) in m.entries <==> Generated(gen, reciprocal, a, b).Some?) &&
      ((ports[a], ports[b]) in m.entries ==>
         m.entries[(ports[a], ports[b])] == Generated(gen, reciprocal, a, b).value)
  {
    var entries: map<(Port, Port), Resp> := map[];
    var n := |ports|;
    for j := 0 to n
      invariant forall key :: key in entries ==> key.0 in ports && key.1 in ports
      invariant Distinct(ports) ==> Filled(entries, ports, gen, reciprocal, 0, j)
    {
      for i := 0 to j + 1
        invariant forall key :: key in entries ==> key.0 in ports && key.1 in ports
        invariant Distinct(ports) ==> Filled(entries, ports, gen, reciprocal, i, j)
      {
        ghost var before := entries;
        entries := StorePair(entries, ports, gen, reciprocal, i, j);
        StoreKeys(before, ports, gen, reciprocal, i, j);
        if Distinct(ports) {
          StoreStep(before, ports, gen, reciprocal, i, j);
        }
      }
      if Distinct(ports) {
        NextColumn(entries, ports, gen, reciprocal, j);
      }
    }
    m := Model(entries, if defaultParams.None? then map[] else defaultParams.value);
    if Distinct(ports) {
      FilledAll(entries, ports, gen, reciprocal);
    }
  }

  /** One inner iteration of modelgenerator: store gen(i, j) under (i, j), and under (j, i) the same or gen(j, i). */
  method StorePair(entries: map<(Port, Port), Resp>, ports: seq<Port>, gen: (nat, nat) -> Option<Resp>,
                   reciprocal: bool, i: nat, j: nat) returns (r: map<(Port, Port), Resp>)
    requires i < |ports| && j < |ports|
    ensures r == Store(entries, ports, gen, reciprocal, i, j)
  {
    r := entries;
    var func := gen(i, j);
    if func.Some? {
      r := r[(ports[i], ports[j]) := func.value];
    }
    if !reciprocal {
      func := gen(j, i);
    }
    if func.Some? {
      r := r[(ports[j], ports[i]) := func.value];
    }
  }

  /** Once every column is done, the entries are the generated functions of all index pairs. */
  lemma FilledAll(entries: map<(Port, Port), Resp>, ports: seq<Port>, gen: (nat, nat) -> Option<Resp>, reciprocal: bool)
    requires Filled(entries, ports, gen, reciprocal, 0, |ports|)
    ensures forall a, b :: 0 <= a < |ports| && 0 <= b < |ports| ==>
      ((ports[a], ports[b]) in entries <==> Generated(gen, reciprocal, a, b).Some?) &&
      ((ports[a], ports[b]) in entries ==> entries[(ports[a], ports[b])] == Generated(gen, reciprocal, a, b).value)
  {
    forall a, b | 0 <= a < |ports| && 0 <= b < |ports| ensures Visited(a, b, 0, |ports|) {
    }
  }
}
