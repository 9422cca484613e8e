/**
 * _combine_models: put two models side by side, without connecting any port. A named model's
 * responses are wrapped so that they read their own parameters out of params[name], and its
 * default parameters are filed under that name.
 */
module Merge {
  import opened Wrappers
  import opened Responses
  import opened Models

  /** How one entry is stored: `zero` and the entries of unnamed models as they are, others wrapped. */
  function Wrap(v: Resp, name: Option<string>): Resp {
    if v.Zero? || name.None? then v else Named(name.value, v)
  }

  /**
   * The default parameters after one model has been added: unchanged when the model has no
   * tuple key (the update sits inside the loop over its keys), a flat merge for an unnamed
   * model, and the model's own defaults under its name otherwise.
   */
  function Contribution(m: Model, name: Option<string>, d: map<string, Params>): map<string, Params> {
    if m.entries == map[] then d
    else if name.None? then d + m.defaults
    else d[name.value := Record(m.defaults)]
  }

  /** The entries of e with the entries of m, wrapped, stored over them. */
  function Overlay(e: map<(Port, Port), Resp>, m: Model, name: Option<string>): (r: map<(Port, Port), Resp>)
    ensures r.Keys == e.Keys + m.entries.Keys
  {
    map key | key in e.Keys + m.entries.Keys :: if key in m.entries then Wrap(m.entries[key], name) else e[key]
  }

  /** The combined model: both models' entries, the second one winning on a shared key. */
  function Combined(m1: Model, m2: Model, n1: Option<string>, n2: Option<string>): Model {
    Model(Overlay(Overlay(map[], m1, n1), m2, n2), Contribution(m2, n2, Contribution(m1, n1, map[])))
  }

  /** The body of the loop over a model's items, for one tuple key. */
  method StoreItem(e: map<(Port, Port), Resp>, d: map<string, Params>, m: Model, name: Option<string>, key: (Port, Port))
    returns (e': map<(Port, Port), Resp>, d': map<string, Params>)
    requires key in m.entries
    ensures e' == e[key := Wrap(m.entries[key], name)]
    ensures d' == if name.None? then d + m.defaults else d[name.value := Record(m.defaults)]
  {
    var value := m.entries[key];
    if value.Zero? || name.None? {
      e' := e[key := value];
    } else {
      e' := e[key := Named(name.value, value)];
    }
    if name.None? {
      d' := d + m.defaults;
    } else {
      d' := d[name.value := Record(m.defaults)];
    }
  }

  /** One pass of the loop over a model's items: store each tuple key, updating the defaults. */
  method AddModel(entries: map<(Port, Port), Resp>, defaults: map<string, Params>, m: Model, name: Option<string>)
    returns (e: map<(Port, Port), Resp>, d: map<string, Params>)
    ensures e == Overlay(entries, m, name)
    ensures d == Contribution(m, name, defaults)
  {
    e, d := entries, defaults;
    var todo := m.entries.Keys;
    while todo != {}
      invariant todo <= m.entries.Keys
      invariant forall key :: key in e <==> key in entries || (key in m.entries && key !in todo)
      invariant forall key :: key in e ==>
        e[key] == if key in m.entries && key !in todo then Wrap(m.entries[key], name) else entries[key]
      invariant d == if todo == m.entries.Keys then defaults else Contribution(m, name, defaults)
      decreases todo
    {
      var key :| key in todo;
      ghost var e0, d0 := e, d;
      e, d := StoreItem(e, d, m, name, key);
      ContributionAgain(m, name, defaults, d0);
      todo := todo - {key};
    }
    OverlayByPoints(entries, m, name, e);
  }

  /** Storing a model's defaults a second time changes nothing. */
  lemma ContributionAgain(m: Model, name: Option<string>, d0: map<string, Params>, d: map<string, Params>)
    requires m.entries != map[] && (d == d0 || d == Contribution(m, name, d0))
    ensures (if name.None? then d + m.defaults else d[name.value := Record(m.defaults)]) == Contribution(m, name, d0)
  {
    if name.None? && d != d0 {
      assert d + m.defaults == d0 + m.defaults + m.defaults;
    }
  }

  /** The map the loop has built, once every key of m has been visited, is the overlay. */
  lemma OverlayByPoints(entries: map<(Port, Port), Resp>, m: Model, name: Option<string>, e: map<(Port, Port), Resp>)
    requires forall key :: key in e <==> key in entries || key in m.entries
    requires forall key :: key in e ==> e[key] == if key in m.entries then Wrap(m.entries[key], name) else entries[key]
    ensures e == Overlay(entries, m, name)
  {
  }

  /** _combine_models, by its two loops over the models' items. */
  method CombineModels(m1: Model, m2: Model, n1: Option<string>, n2: Option<string>) returns (r: Model)
    ensures r == Combined(m1, m2, n1, n2)
  {
    var e, d := AddModel(map[], map[], m1, n1);
    e, d := AddModel(e, d, m2, n2);
    r := Model(e, d);
  }

  /** The combined tuple keys are the union of both models' tuple keys. */
  lemma CombinedKeys(m1: Model, m2: Model, n1: Option<string>, n2: Option<string>)
    ensures Combined(m1, m2, n1, n2).entries.Keys == m1.entries.Keys + m2.entries.Keys
  {
  }

  /** A port is a port of a model exactly when some tuple key of it mentions the port. */
  lemma PortsByKeys(m: Model, keys: set<(Port, Port)>, p: Port)
    requires m.entries.Keys == keys
    ensures p in Ports(m) <==> exists key :: key in keys && (key.0 == p || key.1 == p)
  {
  }

  /** The combined ports are the ports of both models. */
  lemma CombinedPorts(m1: Model, m2: Model, n1: Option<string>, n2: Option<string>, p: Port)
    ensures p in Ports(Combined(m1, m2, n1, n2)) <==> p in Ports(m1) || p in Ports(m2)
  {
    var c := Combined(m1, m2, n1, n2);
    CombinedKeys(m1, m2, n1, n2);
    PortsByKeys(c, m1.entries.Keys + m2.entries.Keys, p);
    PortsByKeys(m1, m1.entries.Keys, p);
    PortsByKeys(m2, m2.entries.Keys, p);
  }

  /**
   * A named model keeps its responses: at any parameter record holding the model's own
   * parameters under its name, a combined entry evaluates as the original entry does at
   * those parameters. With disjoint keys this holds for both models.
   */
  lemma CombinedKeepsResponse(m1: Model, m2: Model, n1: Option<string>, n2: Option<string>,
                              key: (Port, Port), comp: Components, p: Params)
    requires key in m1.entries && key !in m2.entries && n1.Some?
    requires p.Record? && n1.value in p.fields
    ensures Eval(Combined(m1, m2, n1, n2).entries[key], comp, p) == Eval(m1.entries[key], comp, p.fields[n1.value])
    ensures !m1.entries[key].Zero? ==> Combined(m1, m2, n1, n2).entries[key] == Named(n1.value, m1.entries[key])
  {
    var v := m1.entries[key];
    if v.Zero? {
      assert Eval(v, comp, p) == Val(0.0) == Eval(v, comp, p.fields[n1.value]);
    }
  }

  /** An unnamed model's entries are stored as they are. */
  lemma CombinedKeepsUnnamed(m1: Model, m2: Model, n2: Option<string>, key: (Port, Port))
    requires key in m1.entries && key !in m2.entries
    ensures Combined(m1, m2, None, n2).entries[key] == m1.entries[key]
  {
  }

  /** With distinct names and two models that have entries, each model's defaults sit under its name. */
  lemma CombinedDefaultsNamed(m1: Model, m2: Model, a: string, b: string)
    requires a != b && m1.entries != map[] && m2.entries != map[]
    ensures Combined(m1, m2, Some(a), Some(b)).defaults == map[a := Record(m1.defaults), b := Record(m2.defaults)]
  {
  }

  /** Two unnamed models: a flat merge of their defaults, the second one winning. */
  lemma CombinedDefaultsUnnamed(m1: Model, m2: Model)
    requires m1.entries != map[] && m2.entries != map[]
    ensures Combined(m1, m2, None, None).defaults == m1.defaults + m2.defaults
  {
  }

  /**
   * Combining two named models and evaluating at the combined defaults gives each original
   * entry evaluated at its own model's defaults: the namespacing loses nothing.
   */
  lemma CombinedAtDefaults(m1: Model, m2: Model, a: string, b: string, key: (Port, Port), comp: Components)
    requires a != b && key in m1.entries && key !in m2.entries
    ensures Eval(Combined(m1, m2, Some(a), Some(b)).entries[key], comp, Record(Combined(m1, m2, Some(a), Some(b)).defaults))
         == Eval(m1.entries[key], comp, Record(m1.defaults))
  {
    var d := Combined(m1, m2, Some(a), Some(b)).defaults;
    assert a in d && d[a] == Record(m1.defaults);
    CombinedKeepsResponse(m1, m2, Some(a), Some(b), key, comp, Record(d));
  }
}
