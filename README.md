# Circuit reduction of photonic netlists, in Dafny

This project models two pieces of a photonic circuit simulator.

The first is the netlist reduction engine of `phax/core.py`. A circuit is a set of named
instances, each with a *model dictionary*: a response function per ordered pair of ports,
plus default parameters. The connections join pairs of instance ports, and the `ports`
dictionary names the ports that stay open. `circuit`:
- validates this netlist;
- prefixes every port with its instance name;
- combines the models pairwise, round after round;
- eliminates each connection, as soon as both its instances sit in the same combined model,
  with equation 6 of Filipsson, "A new general computer algorithm for S-matrix calculation
  of interconnected multiports" (11th European Microwave Conference, 1981);
- renames the open ports to their external names.

The second is the set of small netlist helpers of `sax/circuit.py`:
- the roots and leaves of the dependency graph;
- validating the models, the graph, the modes and the backend;
- rewriting a netlist for one optical mode or for several;
- filtering and forwarding instance settings.

Response functions are kept as terms (`Responses.Resp`). Combining and interconnecting
models only builds terms. All arithmetic happens in `Responses.Eval`, on real numbers, at a
parameter record. Python dictionaries that the source iterates in order (connections,
ports, the models dictionary) are lists of items with distinct keys. Model dictionaries are
Dafny maps.

Files, one module each:
- `wrappers.dfy`: `Option` and `Result`.
- `lists.dfy`: item lists as ordered dictionaries.
- `portnames.dfy`: the names `"instance:port"`.
- `responses.dfy`: response terms and equation 6.
- `models.dfy`: model dictionaries, `get_ports`, `rename_ports`, `modelgenerator`.
- `merge.dfy`: `_combine_models`.
- `interconnect.dfy`: `_interconnect_model`.
- `validation.dfy`: `_validate_circuit_parameters`, `_validate_model_dict`.
- `reduction.dfy`: `circuit`.
- `sax_dag.dfy`, `sax_modes.dfy`, `sax_settings.dfy`: the `sax/circuit.py` helpers.

## Model

| member | source | states |
|---|---|---|
| Responses.EvalIjkl | phax/core.py:322-345 | An `_model_ijkl` term whose nine inputs evaluate to numbers evaluates to `mij + num/den` of those numbers, or to a singularity when the denominator is 0 |
| Responses.ModelIjklSolvesJunction | phax/core.py:322-345 | Join port k to port l and feed port j. If the waves bk and bl leaving k and l satisfy the junction equations, the result of equation 6 is the wave leaving i, `Sij + Sik*bl + Sil*bk` |
| Responses.JunctionSolvable | phax/core.py:340-345 | When the denominator of equation 6 is not 0, the junction equations have a solution (by Cramer's rule) |
| Responses.ModelIjklUncoupledRow | phax/core.py:340-345 | If port i couples to neither k nor l, equation 6 gives back `mij` |
| Responses.ModelIjklUncoupledColumn | phax/core.py:340-345 | If neither k nor l couples to port j, equation 6 gives back `mij` |
| Models.RenamePorts | phax/core.py:100 | `rename_ports` with a renaming injective on the model's ports: the keys become the renamed keys, and the defaults are kept |
| Models.RenamedEntry | phax/core.py:100 | Every entry is found again, unchanged, under its renamed key |
| Models.RenamedPortOrigin | phax/core.py:100 | Every port of the renamed model is the new name of an old port |
| Models.RenamedPortKept | phax/core.py:100 | Every old port appears, under its new name, in the renamed model |
| Models.ModelGenerator | phax/core.py:9-53 | The defaults are a copy of `default_params`, or `{}`. Every key is a pair of the given ports. With distinct ports, (ports[a], ports[b]) is stored exactly when the generator yields a function for it: its own for a <= b, and for a > b that of (b, a) when reciprocal, else that of (a, b) |
| Models.GeneratedReciprocal | phax/core.py:16-18 | A reciprocal model has the same entry for (a, b) and for (b, a) |
| Merge.AddModel | phax/core.py:251-262 | One pass over a model's items stores every tuple key, wrapped when named (`Overlay`). The defaults become the model's contribution (`Contribution`) |
| Merge.CombineModels | phax/core.py:240-266 | `_combine_models` builds exactly `Combined(m1, m2, n1, n2)` |
| Merge.CombinedKeys | phax/core.py:251-258 | The combined tuple keys are the union of both models' keys |
| Merge.CombinedPorts | phax/core.py:251-258 | A port belongs to the combined model exactly when it belongs to one of the two models |
| Merge.CombinedKeepsResponse | phax/core.py:228-237 | A named model's entry, wrapped by `_namedparamsfunc`, evaluates at any record holding the model's parameters under its name as the original does at those parameters |
| Merge.CombinedKeepsUnnamed | phax/core.py:255-256 | An unnamed model's entries are stored unchanged |
| Merge.CombinedDefaultsNamed | phax/core.py:261-262 | Two named models with entries: the combined defaults are `{n1: defaults1, n2: defaults2}` |
| Merge.CombinedDefaultsUnnamed | phax/core.py:259-260 | Two unnamed models with entries: the combined defaults are the flat merge, the second model winning |
| Merge.CombinedAtDefaults | phax/core.py:240-266 | At the combined defaults, each original entry evaluates as it does at its own model's defaults |
| Interconnect.BuildRow | phax/core.py:291-311 | The inner loop adds the equation-6 term for every unpruned (i, j), and nothing else |
| Interconnect.BuildTerms | phax/core.py:290-311 | After the double loop, the map holds exactly the unpruned pairs of ports, each with its equation-6 term |
| Interconnect.DropMentions | phax/core.py:312-318 | The deletion pass keeps exactly the keys that touch neither k nor l, with their values |
| Interconnect.InterconnectModel | phax/core.py:269-319 | `_interconnect_model` builds exactly `Interconnected(m, k, l)`. The defaults are copied, no key touches k or l, and every key is a pair of the input's ports |
| Interconnect.PruneSound | phax/core.py:301-308 | A pair skipped by the pruning rule would have evaluated to 0 whenever its inputs are numbers and the denominator is not 0 |
| Interconnect.InterconnectedIsEquation6 | phax/core.py:287-319 | For every pair of ports other than k and l, the result's entry, present or not, evaluates to equation 6 of the nine input entries, whenever those evaluate to numbers and the denominator is not 0 |
| Interconnect.InterconnectedUncoupledRow | phax/core.py:287-319 | A row that couples to neither k nor l keeps its response |
| Interconnect.InterconnectedUncoupledColumn | phax/core.py:287-319 | A column that neither k nor l couples to keeps its response |
| Interconnect.InterconnectedPorts | phax/core.py:312-318 | Every port of the result is a port of the input, and neither k nor l |
| PortNames.SplitQualify | phax/core.py:116-117 | Splitting `f"{name}:{port}"` on ":" gives back (name, port) when neither part holds a ":" |
| PortNames.QualifySplit | phax/core.py:171-172 | A name that splits into two parts is the qualification of those parts, and neither part holds a ":" |
| PortNames.TwoColons | phax/core.py:171 | A name with two ":" does not split into exactly two parts |
| PortNames.SplitNeedsColonFreeParts | phax/core.py:149 | If the instance name or the port name holds a ":", the qualified name fails `len(port.split(":")) == 2` |
| PortNames.QualifyInjective | phax/core.py:100 | With colon-free parts, distinct (name, port) pairs give distinct qualified names |
| Validation.CollectPorts | phax/core.py:145-149 | Ok exactly when every model has a port, and then the value is the set of all qualified ports. Otherwise the error names a model without ports (`_validate_model_dict`, phax/core.py:216-219) |
| Validation.ConnectionsFromList | phax/core.py:151-161 | The list form is accepted exactly when every tuple has length 2 and no port repeats. The result is the item list, with distinct keys. Errors are a bad length or a duplicate port |
| Validation.CheckConnectionPort | phax/core.py:165-182 | One connection end passes exactly when it is "name:port" with a known instance and one of its ports, and has not been seen. It is then removed from all_ports and marked seen |
| Validation.CheckConnection | phax/core.py:164-182 | Both ends pass, and differ |
| Validation.CheckConnections | phax/core.py:163-182 | The connections loop succeeds exactly when all connection ends are valid and distinct. The leftover all_ports lose exactly the ends |
| Validation.CheckOutputPort | phax/core.py:185-209 | One `ports` item passes exactly when the key refers to an instance port not yet used, the value holds no ":" and the value is new |
| Validation.CheckPorts | phax/core.py:184-209 | The ports loop succeeds exactly when every item passes against what came before. The leftover all_ports lose exactly the keys |
| Validation.PortsCheckedAll | phax/core.py:184-209 | What the ports loop checks item by item is the condition on the whole dictionary: valid keys, no port used twice across connections and ports, colon-free and distinct values |
| Validation.WellWiredChecked | phax/core.py:163-211 | The wiring rules are exactly what the two loops and the final unused-ports check verify |
| Validation.CheckWiring | phax/core.py:163-211 | Ok exactly when the wiring rules hold. An unused-ports error names exactly the unused ports |
| Validation.ValidateCircuitParameters | phax/core.py:129-213 | Ok exactly when `Accepts` holds (every model has ports, list tuples have length 2, wiring rules hold). The result is the connection items, with distinct keys. An unused-ports error names exactly the unused ports |
| Reduction.QualifyMap | phax/core.py:100 | The renaming `{p: f"{name}:{p}"}` covers the model's ports and is injective on them |
| Reduction.QualifyAll | phax/core.py:99-100 | The loop replaces every model by its prefixed copy. The loop variable keeps the last original model |
| Reduction.QualifiedOwner | phax/core.py:99-100 | With valid wiring, each prefixed port is in all_ports and its owner is its instance |
| Reduction.InstancePorts | phax/core.py:99-100 | Every port of a prefixed model is in all_ports and owned by that instance |
| Reduction.InitInv | phax/core.py:99-101 | Before the while loop the reduction invariant holds. The groups `[[name] for name in models]` partition the instances, and every model is its instance's prefixed model |
| Reduction.MergeAt | phax/core.py:113 | `names1.extend(names2)`: groups t and t+1 become one; the others are unchanged |
| Reduction.PartitionMerge | phax/core.py:113 | Joining two neighbouring groups keeps a partition of the instances |
| Reduction.FoldGroup | phax/core.py:114-120 | The connections loop keeps the invariant. Its model is the group's model with every connection that has both ends in the group eliminated, one by one in dictionary order (`FoldAll`). The connections left are the others, in their order (`Unfolded`) |
| Reduction.FoldAllConcat | phax/core.py:115-120 | Eliminating the connections of a + b in order is eliminating those of a, then those of b from the result |
| Reduction.MergePair | phax/core.py:105-121 | One pair of groups, as `MergedModels`: both models are popped and combined, every connection internal to the merged group is eliminated in dictionary order, and the result is stored under the first name. The connections left are those not internal to the merged group, in their order. The invariant holds for the merged groups |
| Reduction.MergedModelsOthers | phax/core.py:105-121 | A merge removes the second group's first name, keeps the first group's, and every other instance keeps its model |
| Reduction.Round | phax/core.py:104-122 | One round turns n groups into ceil(n/2) and keeps the invariant. Counting from the end they are the pairs (2i, 2i+1), and the odd group out comes first. The models and connections are those of merging the pairs in zip order (`Zip`) |
| Reduction.ZipStep | phax/core.py:104-121 | Merging the next pair (2t, 2t+1) takes the zip's models and connections from t pairs to t + 1 |
| Reduction.RoundShape | phax/core.py:122 | `list(reversed(modelnames[::2]))` has ceil(n/2) groups, in reversed pair order, with the odd last group first |
| Reduction.Rounds | phax/core.py:103-122 | The while loop ends with one group and the invariant. Its groups, models and connections are those of running whole rounds until one group is left (`Rounded`). With one instance the loop does not run, and the loop variable and the connections list are unchanged |
| Reduction.RoundedStep | phax/core.py:103-122 | Running one round and then the rest reaches the same final state as running all rounds |
| Reduction.LastGroup | phax/core.py:103 | With at least two instances, the single final group holds every instance |
| Reduction.NoneWaiting | phax/core.py:114-119 | When every instance is in the final group, no connection remains |
| Reduction.FinalState | phax/core.py:103-124 | With at least two instances, every connection has been eliminated exactly once. The final ports are keys of `ports`, and the defaults are filed by instance |
| Reduction.OutputRenaming | phax/core.py:124 | Renaming by `ports` is injective on its keys and maps them to output names |
| Reduction.SingleInstance | phax/core.py:99-124 | With valid wiring, `rename_ports(model, ports)` leaves an unprefixed instance model unchanged |
| Reduction.Finish | phax/core.py:103-126 | No connection is left in the list. The final renaming is injective. The result's ports are all output names, so no end of a connection is a port of the result. Its defaults are the instances' own defaults under their names |
| Reduction.Reduce | phax/core.py:99-126 | With one instance the result is that instance's model, as written, and the caller's models dictionary ends holding the prefixed model. With several, the result is the final group's model after all rounds from the prefixed models (`Reduced`), renamed by `ports`. The models dictionary ends as the rounds leave it, and the returned connections are those the rounds leave. That list is empty, the eliminated connections are the given ones exactly once each, every port of the result is an output name, no end of a connection is a port of the result, and the defaults sit under instance names |
| Reduction.Circuit | phax/core.py:56-126 | `circuit`: Ok exactly when validation accepts and there is at least one model (no model ends in an error). A failed call leaves the models, and a dict of connections, as given. An accepted circuit has the properties of `Reduce`, including what the caller's models and connections dictionaries hold afterwards: one instance gives its model, the prefixed model in the dictionary and the connections as given; several give the final group's model of `Reduced` renamed by `ports`, leave `Reduced`'s models in the dictionary and no connection, eliminate each one once, leave no connection end as a port, use output names only, and file defaults under instance names |
| SaxDag.DegreeZero | sax/circuit.py:98-105 | The nodes listed are exactly the given nodes of degree 0, and distinct nodes are listed once each |
| SaxDag.RootIff | sax/circuit.py:98-100 | `find_root` lists exactly the nodes no edge enters |
| SaxDag.LeafIff | sax/circuit.py:103-105 | `find_leaves` lists exactly the nodes no edge leaves |
| SaxDag.RootsAreReversedLeaves | sax/circuit.py:98-105 | Reversing every edge turns the roots into the leaves and back |
| SaxDag.ValidateModels | sax/circuit.py:108-121 | Ok exactly when every leaf has a model, and then a copy of the models. Otherwise the error lists exactly the leaves without a model |
| SaxDag.ValidateDag | sax/circuit.py:275-283 | As written: Ok exactly when `find_root` lists exactly one node, which on a well-formed graph is exactly one root. No roots gives the "no nodes" error, and a cycle is never reported |
| SaxDag.ValidateDagMissesCycle | sax/circuit.py:281-282 | As written, a graph with one root and a cycle is accepted |
| SaxDag.PeelKeepsCycles | sax/circuit.py:281-282 | Peeling nodes without incoming edges never removes a node of a cycle |
| SaxDag.PeeledAcyclic | sax/circuit.py:281-282 | A graph that peels down to nothing has no cycle |
| SaxDag.ValidateAcyclicDag | sax/circuit.py:275-283 | As intended: acceptance implies one root and no cycle. Otherwise the errors are those of the check as written |
| SaxModes.ValidateModes | sax/circuit.py:251-261 | None, "" or [] give ["te"]. A string gives [s]. A non-empty all-string list is kept. A list holding a non-string is an error. An accepted result is never empty |
| SaxModes.ValidateModesIdempotent | sax/circuit.py:251-261 | Validated modes validate again to themselves |
| SaxModes.ExpandHas | sax/circuit.py:301-310 | The comprehension yields `f"{p1}@{m}" -> f"{p2}@{m}"` for every item and every mode |
| SaxModes.ExpandOrigin | sax/circuit.py:301-310 | Everything it yields is such a tagged item |
| SaxModes.TagInjective | sax/circuit.py:302 | `f"{p}@{m}"` determines p and m when p holds no "@" |
| SaxModes.MultimodeLookup | sax/circuit.py:301-310 | In the multimode dictionary, `f"{p1}@{m}"` maps to `f"{p2}@{m}"` for every item p1 -> p2 and every mode m (names and modes without "@") |
| SaxModes.MultimodeNames | sax/circuit.py:301-310 | Every name of the multimode dictionary is a netlist name tagged with a mode |
| SaxModes.MakeSinglemode | sax/circuit.py:294-296 | Connections and ports are returned unchanged, and every model is wrapped for the mode |
| SaxModes.MakeMultimode | sax/circuit.py:299-311 | Every model is wrapped for all modes. Connections and ports are the dictionaries of the expanded streams |
| SaxModes.MakeSinglemodeOrMultimode | sax/circuit.py:286-291 | Exactly one mode takes the single-mode path; any other number takes the multimode one |
| SaxModes.OneModeTags | sax/circuit.py:286-311 | With one mode, the multimode connections are the single-mode ones with every name tagged |
| SaxSettings.NetlistSettings | sax/circuit.py:130-133 | For every instance, a setting is kept exactly when the netlist gives it and the model declares it, with its given value |
| SaxSettings.NetlistSettingsIdempotent | sax/circuit.py:130-133 | Filtering the kept settings again changes nothing |
| SaxSettings.SplitSettings | sax/circuit.py:150-156 | Instance settings and global settings have disjoint names. Together they are the original settings. Only the first are instance names. With no globals the instance settings are all of them |
| SaxSettings.ForwardGlobalSettings | sax/circuit.py:150-158 | With no global settings, the settings are returned as they are. Otherwise the result is `update_settings(instance settings, global settings)` |
| SaxSettings.Lower | sax/circuit.py:241 | `str.lower()` on ASCII, character by character |
| SaxSettings.LowerIdempotent | sax/circuit.py:241 | A lowered name has no ASCII capital, and lowering it again changes nothing |
| SaxSettings.ValidateCircuitBackend | sax/circuit.py:240-248 | Ok exactly when the lowered name is a known backend, and then that name. The error carries the lowered name and the allowed names |
| SaxSettings.ValidateCircuitBackendIdempotent | sax/circuit.py:240-248 | A validated backend name validates to itself |
| SaxSettings.ValidateCircuitBackendCaseBlind | sax/circuit.py:240-248 | Names that differ only in ASCII case select the same backend |

## Left out

- JAX and complex floating point are not modelled. Responses evaluate to real numbers, and a zero denominator is a `Singular` value. Float `inf`/`nan`, rounding and algebraic properties of complex numbers are out of scope.
- `phax/utils` is not part of this model. `zero`, `get_ports` and `rename_ports` are given by what they do: `Zero`, `Ports` (the ends of the tuple keys) and `RenamePorts`, which requires a renaming injective on the model's ports.
- Models.RenamePorts: unrenamed ports keep their names. A model's non-tuple keys other than `default_params` are not modelled.
- `_partialmodelfunc.__repr__` (phax/core.py:348-362) is a display helper and is not modelled.
- Validation: the callable check of `_validate_model_dict` (phax/core.py:220-225) is vacuous, because response terms are always functions. The `isinstance(…, str)` checks are vacuous too, because names are strings.
- Reduction.Reduce: with a single instance the model follows the code as written. It returns the original, unprefixed model, and no connection is eliminated. Which connection each elimination step removed is recorded only in a ghost list; the real result states that none remains. Defaults are stated as a submap filed by instance name. A group whose combined model has no entries contributes no defaults, as in `_combine_models`.
- Reduction: `names1.extend(names2)` aliases the list inside `modelnames`. The model builds the joined group as a new value instead.
- Zero models make `circuit` read an unbound `model`. This is modelled as the error `NoModels`.
- Reduction.Circuit: does not state the scattering of the whole circuit. Only the per-step equation-6 lemmas of `Interconnect` are proved, not their composition over a whole reduction.
- Reduction.Circuit: `circuit` updates the caller's `models` dictionary (phax/core.py:100, 105-106, 121) and a dict-form `connections` (phax/core.py:119) in place. The model takes both by value and returns what they end as, `models'` and `remaining`. It does not model that the caller's own objects change, so that a second call on the same dictionaries fails validation.
- `create_dag`, networkx graph building, `nx.descendants` and the topological sort in `circuit` (sax/circuit.py:31-60, 162-197) are not modelled. `SaxDag.Graph` stands for the built graph.
- `draw_dag`, `_patch_path` and `_my_dag_pos` (sax/circuit.py:64-95) are plotting and environment code.
- `_extract_instance_models` (sax/circuit.py:211-237) uses runtime introspection of callables, and `_validate_net` relies on pydantic parsing. Neither is modelled.
- `_flat_circuit`: closure evaluation, `get_settings`, `merge_dicts` and `_replace_kwargs` are not modelled. Only the settings filter of sax/circuit.py:130-133 is.
- SaxSettings.ForwardGlobalSettings: `update_settings` is a parameter, so what it does with the global settings is not stated. The settings are passed by value, so the caller's dictionary being mutated by `pop` is not modelled.
- SaxModes.MakeSinglemode and SaxModes.MakeMultimode: the `singlemode`/`multimode` model wrappers (from the multimode module) are parameters.
- SaxModes.ValidateModes: `ModesArg` covers None, a string and a list only, as the `Optional[List[str]]` annotation says. Other arguments are not modelled: an empty tuple or `0` gives ["te"], a tuple of strings is returned as it is, and a truthy value that cannot be iterated raises TypeError (sax/circuit.py:251-261).
- SaxModes.MultimodeLookup: requires names and modes without "@". When a name holds "@", two tagged names can coincide, and the later item wins.
- SaxSettings.Lower: covers the ASCII letters only. Unicode case mapping is not modelled.
- The `black` formatting of error messages is not modelled. Errors carry their data, such as the missing models or the unused ports.
- SaxDag.ValidateAcyclicDag: proves that acceptance rules out cycles, but not the converse, that every acyclic graph with one root is accepted.

## Findings

| source | as written | input that shows it | evidently intended | confidence | as-written member | corrected member |
|---|---|---|---|---|---|---|
| sax/circuit.py:281-282 | the cycle check tests `dag.is_directed()`, which is true for every `DiGraph`, so it never fires | nodes top, a, b with edges top→a, a→b, b→a: one root and a cycle, accepted | reject graphs with a dependency cycle (an acyclicity test such as `nx.is_directed_acyclic_graph`) | not executed | SaxDag.ValidateDagMissesCycle | SaxDag.ValidateAcyclicDag |
