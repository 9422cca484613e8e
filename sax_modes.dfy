/**
 * Modes of a circuit (sax/circuit.py): the accepted forms of the `modes` argument, and the
 * rewriting of a netlist for one mode or for several, where every port p of a multimode
 * netlist becomes one port f"{p}@{mode}" per mode.
 */
module SaxModes {
  import opened Wrappers
  import opened Lists

  /** One element of a list given as `modes`: a string, or anything else. */
  datatype ModeItem = Str(s: string) | NotStr

  /** The `modes` argument, as annotated: None, a single string, or a list (tuples and other values are not modelled). */
  datatype ModesArg = NoModes | Text(s: string) | List(items: seq<ModeItem>)

  datatype ModesError = InvalidModes(given: ModesArg)

  predicate AllStrings(items: seq<ModeItem>) {
    forall i :: 0 <= i < |items| ==> items[i].Str?
  }

  /** The strings of an all-string list. */
  function Strings(items: seq<ModeItem>): (r: seq<string>)
    requires AllStrings(items)
    ensures |r| == |items| && forall i :: 0 <= i < |items| ==> r[i] == items[i].s
  {
    seq(|items|, i requires 0 <= i < |items| => items[i].s)
  }

  /** The list of strings as a `modes` argument. */
  function AsList(modes: seq<string>): (r: seq<ModeItem>)
    ensures |r| == |modes| && forall i :: 0 <= i < |modes| ==> r[i] == Str(modes[i])
  {
    seq(|modes|, i requires 0 <= i < |modes| => Str(modes[i]))
  }

  /** Python's truthiness test `not modes`: None, the empty string and the empty list. */
  predicate Falsy(m: ModesArg) {
    m.NoModes? || m == Text("") || m == List([])
  }

  /**
   * _validate_modes: a missing or empty argument means the single mode "te", a string is one
   * mode, a list of strings is taken as it is, and anything else is rejected.
   */
  function ValidateModes(modes: ModesArg): (r: Result<seq<string>, ModesError>)
    ensures r.Ok? <==> Falsy(modes) || modes.Text? || AllStrings(modes.items)
    ensures r.Ok? ==> r.value != []
    ensures Falsy(modes) ==> r == Ok(["te"])
    ensures modes.Text? && modes.s != "" ==> r == Ok([modes.s])
    ensures modes.List? && modes.items != [] && AllStrings(modes.items) ==> r.Ok? && AsList(r.value) == modes.items
    ensures r.Err? ==> r.error == InvalidModes(modes)
  {
    if modes.NoModes? then Ok(["te"])
    else if Falsy(modes) then Ok(["te"])
    else if modes.Text? then Ok([modes.s])
    else if AllStrings(modes.items) then
      assert AsList(Strings(modes.items)) == modes.items;
      Ok(Strings(modes.items))
    else Err(InvalidModes(modes))
  }

  /** Normalising is idempotent: the modes it returns are accepted again, unchanged. */
  lemma ValidateModesIdempotent(modes: ModesArg)
    requires ValidateModes(modes).Ok?
    ensures ValidateModes(List(AsList(ValidateModes(modes).value))) == ValidateModes(modes)
  {
    var ms := ValidateModes(modes).value;
    assert Strings(AsList(ms)) == ms;
  }

  // ---------------------------------------------------------------------------------------
  // Single mode and multimode netlists
  // ---------------------------------------------------------------------------------------

  /** f"{p}@{mode}". */
  function Tag(p: string, mode: string): string {
    p + "@" + mode
  }

  predicate NoAt(s: string) {
    '@' !in s
  }

  /** The rewritten pair for one item and one mode. */
  function TagItem(item: (string, string), mode: string): (string, string) {
    (Tag(item.0, mode), Tag(item.1, mode))
  }

  /** The items of the comprehension for one item of the netlist: one per mode, in order. */
  function PerMode(item: (string, string), modes: seq<string>): (r: seq<(string, string)>)
    ensures |r| == |modes| && forall j :: 0 <= j < |modes| ==> r[j] == TagItem(item, modes[j])
  {
    seq(|modes|, j requires 0 <= j < |modes| => TagItem(item, modes[j]))
  }

  /** `for p1, p2 in items for mode in modes`: the stream the comprehension stores, in order. */
  function Expand(items: seq<(string, string)>, modes: seq<string>): (r: seq<(string, string)>)
    ensures |r| == |items| * |modes|
  {
    if items == [] then []
    else
      var n := |items| - 1;
      Expand(items[..n], modes) + PerMode(items[n], modes)
  }

  /** Every item of the netlist appears in the stream once per mode, tagged with that mode. */
  lemma {:induction false} ExpandHas(items: seq<(string, string)>, modes: seq<string>, i: nat, j: nat)
    requires i < |items| && j < |modes|
    ensures TagItem(items[i], modes[j]) in Expand(items, modes)
  {
    var n := |items| - 1;
    var pm := PerMode(items[n], modes);
    if i == n {
      assert pm[j] in pm;
    } else {
      ExpandHas(items[..n], modes, i, j);
      assert items[..n][i] == items[i];
    }
  }

  /** Every item of the stream is an item of the netlist tagged with one of the modes. */
  lemma {:induction false} ExpandOrigin(items: seq<(string, string)>, modes: seq<string>, w: nat) returns (i: nat, j: nat)
    requires w < |Expand(items, modes)|
    ensures i < |items| && j < |modes| && Expand(items, modes)[w] == TagItem(items[i], modes[j])
  {
    var n := |items| - 1;
    var init := Expand(items[..n], modes);
    if w < |init| {
      i, j := ExpandOrigin(items[..n], modes, w);
      assert items[..n][i] == items[i];
    } else {
      i, j := n, w - |init|;
    }
  }

  /** Whether the netlist's names and the modes leave no doubt where "@" separates them. */
  predicate Separable(items: seq<(string, string)>, modes: seq<string>) {
    (forall i :: 0 <= i < |items| ==> NoAt(items[i].0)) && forall j :: 0 <= j < |modes| ==> NoAt(modes[j])
  }

  /** A tagged name splits back into its port and its mode when neither holds an "@". */
  lemma TagInjective(p: string, m: string, q: string, n: string)
    requires NoAt(p) && NoAt(q) && Tag(p, m) == Tag(q, n)
    ensures p == q && m == n
  {
    var s := Tag(p, m);
    assert s[|p|] == '@' && s[|q|] == '@';
    assert forall i :: 0 <= i < |p| ==> s[i] == p[i] && p[i] != '@';
    assert forall i :: 0 <= i < |q| ==> s[i] == q[i] && q[i] != '@';
    assert |p| == |q|;
    assert p == s[..|p|] == q;
    assert m == s[|p| + 1..] == n;
  }

  /**
   * In a multimode dictionary built from a dictionary of connections (or ports), the name
   * f"{p1}@{mode}" leads to f"{p2}@{mode}" for every item p1 -> p2 and every mode, as long as
   * no name and no mode contains "@".
   */
  lemma MultimodeLookup(items: seq<(string, string)>, modes: seq<string>, i: nat, j: nat)
    requires DistinctKeys(items) && Separable(items, modes)
    requires i < |items| && j < |modes|
    ensures Tag(items[i].0, modes[j]) in ToMap(FromItems(Expand(items, modes)))
    ensures ToMap(FromItems(Expand(items, modes)))[Tag(items[i].0, modes[j])] == Tag(items[i].1, modes[j])
  {
    var e := Expand(items, modes);
    var k := Tag(items[i].0, modes[j]);
    ExpandKey(items, modes, i, j);
    ExpandValues(items, modes, i, j);
    ToMapAgree(e, k, Tag(items[i].1, modes[j]));
  }

  lemma ExpandKey(items: seq<(string, string)>, modes: seq<string>, i: nat, j: nat)
    requires i < |items| && j < |modes|
    ensures Tag(items[i].0, modes[j]) in Elems(Keys(Expand(items, modes)))
  {
    var e := Expand(items, modes);
    ExpandHas(items, modes, i, j);
    var w :| 0 <= w < |e| && e[w] == TagItem(items[i], modes[j]);
    assert Keys(e)[w] == Tag(items[i].0, modes[j]);
  }

  /** Every item of the stream under the name f"{p1}@{mode}" holds f"{p2}@{mode}". */
  lemma ExpandValues(items: seq<(string, string)>, modes: seq<string>, i: nat, j: nat)
    requires DistinctKeys(items) && Separable(items, modes)
    requires i < |items| && j < |modes|
    ensures forall w :: 0 <= w < |Expand(items, modes)| && Expand(items, modes)[w].0 == Tag(items[i].0, modes[j]) ==>
      Expand(items, modes)[w].1 == Tag(items[i].1, modes[j])
  {
    var e := Expand(items, modes);
    forall w | 0 <= w < |e| && e[w].0 == Tag(items[i].0, modes[j]) ensures e[w].1 == Tag(items[i].1, modes[j]) {
      var a, b := ExpandOrigin(items, modes, w);
      TagInjective(items[a].0, modes[b], items[i].0, modes[j]);
      assert a == i;
    }
  }

  /** Every name of the multimode dictionary is a netlist name tagged with a mode. */
  lemma MultimodeNames(items: seq<(string, string)>, modes: seq<string>, k: string) returns (i: nat, j: nat)
    requires k in ToMap(FromItems(Expand(items, modes)))
    ensures i < |items| && j < |modes| && k == Tag(items[i].0, modes[j])
  {
    var e := Expand(items, modes);
    var w :| 0 <= w < |e| && Keys(e)[w] == k;
    i, j := ExpandOrigin(items, modes, w);
  }

  /** What a netlist is rewritten to: its connections and ports, and the wrapped models. */
  datatype Rewritten<M> = Rewritten(connections: seq<(string, string)>, ports: seq<(string, string)>, models: map<string, M>)

  /**
   * _make_singlemode: every model wrapped for the one mode (the wrapper is a parameter); the
   * connections and ports are returned as they are.
   */
  function MakeSinglemode<M>(connections: seq<(string, string)>, ports: seq<(string, string)>, mode: string,
                             models: map<string, M>, singlemode: (M, string) -> M): (r: Rewritten<M>)
    ensures r.connections == connections && r.ports == ports
    ensures r.models.Keys == models.Keys
    ensures forall k :: k in models ==> r.models[k] == singlemode(models[k], mode)
  {
    Rewritten(connections, ports, map k | k in models :: singlemode(models[k], mode))
  }

  /**
   * _make_multimode: every model wrapped for all modes, and every connection and port
   * p1 -> p2 turned into one item f"{p1}@{mode}" -> f"{p2}@{mode}" per mode, stored into a
   * dictionary in the order of the double loop.
   */
  function MakeMultimode<M>(connections: seq<(string, string)>, ports: seq<(string, string)>, modes: seq<string>,
                            models: map<string, M>, multimode: (M, seq<string>) -> M): (r: Rewritten<M>)
    ensures DistinctKeys(r.connections) && ToMap(r.connections) == ToMap(Expand(connections, modes))
    ensures DistinctKeys(r.ports) && ToMap(r.ports) == ToMap(Expand(ports, modes))
    ensures r.models.Keys == models.Keys
    ensures forall k :: k in models ==> r.models[k] == multimode(models[k], modes)
  {
    Rewritten(FromItems(Expand(connections, modes)), FromItems(Expand(ports, modes)),
              map k | k in models :: multimode(models[k], modes))
  }

  /** _make_singlemode_or_multimode: one mode takes the single mode path, any other number the multimode one. */
  function MakeSinglemodeOrMultimode<M>(connections: seq<(string, string)>, ports: seq<(string, string)>,
                                        modes: seq<string>, models: map<string, M>,
                                        singlemode: (M, string) -> M, multimode: (M, seq<string>) -> M): (r: Rewritten<M>)
    ensures |modes| == 1 ==> r == MakeSinglemode(connections, ports, modes[0], models, singlemode)
    ensures |modes| != 1 ==> r == MakeMultimode(connections, ports, modes, models, multimode)
  {
    if |modes| == 1 then MakeSinglemode(connections, ports, modes[0], models, singlemode)
    else MakeMultimode(connections, ports, modes, models, multimode)
  }

  /**
   * With one mode the two paths differ in the names alone: the multimode connections map
   * every tagged name to the tagged name the single mode connections map it to.
   */
  lemma OneModeTags<M>(connections: seq<(string, string)>, mode: string, models: map<string, M>,
                       multimode: (M, seq<string>) -> M, i: nat)
    requires DistinctKeys(connections) && Separable(connections, [mode]) && i < |connections|
    ensures connections[i].0 in ToMap(connections)
    ensures Tag(connections[i].0, mode) in ToMap(MakeMultimode(connections, [], [mode], models, multimode).connections)
    ensures ToMap(MakeMultimode(connections, [], [mode], models, multimode).connections)[Tag(connections[i].0, mode)]
         == Tag(ToMap(connections)[connections[i].0], mode)
  {
    MultimodeLookup(connections, [mode], i, 0);
    ToMapAt(connections, i);
  }
}
