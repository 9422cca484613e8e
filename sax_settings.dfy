/**
 * Settings of a flattened circuit (sax/circuit.py): the netlist settings an instance may
 * pass to its model, the forwarding of circuit-wide settings to every instance, and the
 * choice of a circuit backend by name.
 */
module SaxSettings {
  import opened Wrappers
  import opened Lists

  // ---------------------------------------------------------------------------------------
  // Netlist settings
  // ---------------------------------------------------------------------------------------

  /** An instance's settings as written in the netlist, or nothing (None). */
  function Given<V>(s: Option<map<string, V>>): map<string, V> {
    if s.Some? then s.value else map[]
  }

  /**
   * The netlist settings of _flat_circuit: for every instance, those of its settings in the
   * netlist (`inst.settings or {}`) whose names its model declares.
   */
  function NetlistSettings<V>(instances: map<string, Option<map<string, V>>>, modelSettings: map<string, map<string, V>>)
    : (r: map<string, map<string, V>>)
    requires instances.Keys <= modelSettings.Keys
    ensures r.Keys == instances.Keys
    ensures forall name, k :: name in r ==>
      (k in r[name] <==> k in Given(instances[name]) && k in modelSettings[name])
    ensures forall name, k :: name in r && k in r[name] ==> r[name][k] == Given(instances[name])[k]
  {
    map name | name in instances ::
      map k | k in Given(instances[name]) && k in modelSettings[name] :: Given(instances[name])[k]
  }

  /** The kept settings pass the filter again unchanged: filtering once is enough. */
  lemma NetlistSettingsIdempotent<V>(instances: map<string, Option<map<string, V>>>, modelSettings: map<string, map<string, V>>)
    requires instances.Keys <= modelSettings.Keys
    ensures var r := NetlistSettings(instances, modelSettings);
      NetlistSettings(map name | name in r :: Some(r[name]), modelSettings) == r
  {
    var r := NetlistSettings(instances, modelSettings);
    var again := NetlistSettings(map name | name in r :: Some(r[name]), modelSettings);
    forall name | name in r ensures again[name] == r[name] {
      KeptSettingsKept(r[name], Given(instances[name]), modelSettings[name]);
    }
    MapExt(again, r);
  }

  /** Settings that are all declared by the model pass the filter unchanged. */
  lemma KeptSettingsKept<V>(kept: map<string, V>, given: map<string, V>, declared: map<string, V>)
    requires forall k :: k in kept <==> k in given && k in declared
    ensures (map k | k in Given(Some(kept)) && k in declared :: Given(Some(kept))[k]) == kept
  {
    var again := map k | k in Given(Some(kept)) && k in declared :: Given(Some(kept))[k];
    assert again.Keys == kept.Keys;
    MapExt(again, kept);
  }

  // ---------------------------------------------------------------------------------------
  // Global settings
  // ---------------------------------------------------------------------------------------

  /** The settings addressed to an instance. */
  function Local<V>(instances: set<string>, settings: map<string, V>): map<string, V> {
    map k | k in settings && k in instances :: settings[k]
  }

  /** The settings addressed to no instance: the circuit-wide ones. */
  function Global<V>(instances: set<string>, settings: map<string, V>): map<string, V> {
    map k | k in settings && k !in instances :: settings[k]
  }

  /**
   * Splitting settings is lossless: the instance settings and the circuit-wide ones have
   * disjoint names, together they are the original settings, the first are all instance names
   * and the second none.
   */
  lemma SplitSettings<V>(instances: set<string>, settings: map<string, V>)
    ensures Local(instances, settings).Keys !! Global(instances, settings).Keys
    ensures Local(instances, settings) + Global(instances, settings) == settings
    ensures Local(instances, settings).Keys <= instances && Global(instances, settings).Keys !! instances
    ensures Global(instances, settings) == map[] ==> Local(instances, settings) == settings
  {
    var l, g := Local(instances, settings), Global(instances, settings);
    assert forall k :: k in settings ==> k in l || k in g;
    assert (l + g).Keys == settings.Keys;
  }

  /**
   * _forward_global_settings: pop every setting that names no instance, in the order of the
   * settings' keys, and when there were any, hand them to `update_settings` (a parameter
   * here), which applies them on top of what remains.
   */
  method ForwardGlobalSettings<V>(instances: set<string>, settings: map<string, V>, order: seq<string>,
                                  updateSettings: (map<string, V>, map<string, V>) -> map<string, V>)
    returns (r: map<string, V>)
    requires Distinct(order) && Elems(order) == settings.Keys
    ensures Global(instances, settings) == map[] ==> r == settings
    ensures Global(instances, settings) != map[] ==>
      r == updateSettings(Local(instances, settings), Global(instances, settings))
  {
    var remaining := settings;
    var globalSettings := map[];
    ghost var done: set<string> := {};
    for i := 0 to |order|
      invariant done <= settings.Keys && Popped(instances, settings, done, remaining, globalSettings)
      invariant forall j :: 0 <= j < i ==> order[j] in done
      invariant forall j :: i <= j < |order| ==> order[j] !in done
    {
      var k := order[i];
      PopStep(instances, settings, done, remaining, globalSettings, k);
      done := done + {k};
      if k in instances {
        continue;
      }
      globalSettings := globalSettings[k := remaining[k]];
      remaining := remaining - {k};
    }
    PoppedAll(instances, settings, order, done, remaining, globalSettings);
    r := remaining;
    if globalSettings != map[] {
      r := updateSettings(remaining, globalSettings);
    }
  }

  /** The state of the loop once the names in `done` are visited: the circuit-wide ones among them are popped. */
  ghost predicate Popped<V>(instances: set<string>, settings: map<string, V>, done: set<string>,
                            remaining: map<string, V>, globalSettings: map<string, V>) {
    remaining == settings - (done - instances) &&
    globalSettings == map k | k in done && k in settings && k !in instances :: settings[k]
  }

  lemma PopStep<V>(instances: set<string>, settings: map<string, V>, done: set<string>,
                   remaining: map<string, V>, globalSettings: map<string, V>, k: string)
    requires Popped(instances, settings, done, remaining, globalSettings) && k in settings && k !in done
    ensures k in instances ==> Popped(instances, settings, done + {k}, remaining, globalSettings)
    ensures k !in instances ==>
      (k in remaining && Popped(instances, settings, done + {k}, remaining - {k}, globalSettings[k := remaining[k]]))
  {
  }

  lemma PoppedAll<V>(instances: set<string>, settings: map<string, V>, order: seq<string>, done: set<string>,
                     remaining: map<string, V>, globalSettings: map<string, V>)
    requires Elems(order) == settings.Keys && done <= settings.Keys
    requires Popped(instances, settings, done, remaining, globalSettings)
    requires forall j :: 0 <= j < |order| ==> order[j] in done
    ensures remaining == Local(instances, settings) && globalSettings == Global(instances, settings)
    ensures Global(instances, settings) == map[] ==> remaining == settings
  {
    assert done == settings.Keys;
    SplitSettings(instances, settings);
  }

  // ---------------------------------------------------------------------------------------
  // Circuit backends
  // ---------------------------------------------------------------------------------------

  /** str.lower() on one character, for the ASCII letters. */
  function LowerChar(c: char): char {
    if 'A' <= c <= 'Z' then (c as int + 32) as char else c
  }

  function Lower(s: string): (r: string)
    ensures |r| == |s| && forall i :: 0 <= i < |s| ==> r[i] == LowerChar(s[i])
  {
    seq(|s|, i requires 0 <= i < |s| => LowerChar(s[i]))
  }

  /** A lowered name has no upper-case ASCII letter, and lowering it again changes nothing. */
  lemma LowerIdempotent(s: string)
    ensures forall i :: 0 <= i < |s| ==> !('A' <= Lower(s)[i] <= 'Z')
    ensures Lower(Lower(s)) == Lower(s)
  {
  }

  datatype BackendError = UnknownBackend(backend: string, allowed: seq<string>)

  /**
   * _validate_circuit_backend: the name, lowered, must be one of the known backends (the
   * keys of circuit_backends, here a parameter); the error lists the allowed names.
   */
  function ValidateCircuitBackend(backend: string, backends: seq<string>): (r: Result<string, BackendError>)
    ensures r.Ok? <==> Lower(backend) in backends
    ensures r.Ok? ==> r.value == Lower(backend)
    ensures r.Err? ==> r.error == UnknownBackend(Lower(backend), backends)
  {
    var b := Lower(backend);
    if b !in backends then Err(UnknownBackend(b, backends)) else Ok(b)
  }

  /** A validated backend name validates again to itself. */
  lemma ValidateCircuitBackendIdempotent(backend: string, backends: seq<string>)
    requires ValidateCircuitBackend(backend, backends).Ok?
    ensures ValidateCircuitBackend(ValidateCircuitBackend(backend, backends).value, backends)
         == ValidateCircuitBackend(backend, backends)
  {
    LowerIdempotent(backend);
  }

  /** Names differing only in the case of ASCII letters select the same backend. */
  lemma ValidateCircuitBackendCaseBlind(a: string, b: string, backends: seq<string>)
    requires Lower(a) == Lower(b)
    ensures ValidateCircuitBackend(a, backends) == ValidateCircuitBackend(b, backends)
  {
  }
}
