# Configuration generators of the OpenDC reproducibility capsule

This project models the engine that generates parameterised configuration files for
OpenDC experiments in the reproducibility capsule, and proves properties about it.

- `utils.py` parses compact parameter specs. `"1-10:2"` is a stepped inclusive range, `"a,b"` is a list, and `+` joins segments.
- `utils.py` also holds the index-aligned lookup `get_val`, the topology grouping key, and two option filters.
- `topology_generator.py` expands up to nine value axes. It pairs the lists by index, or it takes their cartesian product with duplicates removed.
- For every variant, `topology_generator.py` copies a template topology and overlays sparse cluster and host fields: carbon trace, battery, cores, speed, memory, host count and power model. It then saves the copy under a path built from the variant.
- `experiment_generator.py` replaces the template's topology, workload and failure lists with `{pathToFile, type}` entries.
- It then writes one experiment per index of the seed, run, export-interval and print-frequency lists. It returns one selection record per written file.
- It can run one such pass per topology folder.

Files:
- `wrappers.dfy`: `Option`, and `Result`, whose `Raised` case stands for a Python exception.
- `wrappers.dfy` also has `RunUntilRaise`: the results of a loop that stops at its first exception.
- `strings.dfy`: the Python string operations the core uses: `strip`, `split`, `join`, `replace`, `lower` (on ASCII letters), `str(int)`, `int(text)` (ASCII digits) and `float(text)`.
- `paths.dfy`: `posixpath.dirname`, `normpath` and `splitext`.
- `json.dfy`: JSON values. Objects are ordered key/value lists. It also has Python's `in`, `d[k]` and `d[k] = v` on them, and the write log that stands for saving files.
- `utils.dfy`, `topology.dfy` and `experiment.dfy`: the three generator modules, `utils.py`, `topology_generator.py` and `experiment_generator.py`.

Python's deep copies (`json.loads(json.dumps(...))`) are value semantics here. So the template a loop copies from is never changed by construction.

Saving a file appends a `Write(path, doc)` to a log. `Json.Saved` folds the log into the files on disk, where a later write to a path replaces the earlier one.

The loops of the source are methods. Each method is proved equal to a specification function, and the source's promises are proved about those functions:
- `ParseInput` and `FRange`;
- `CartesianVariants` and `NewVariants`, the loop with the `seen` set;
- `OverlayHosts`, `OverlayCluster`, `OverlayClusters` and `BuildOneTopology`, the in-place overlay;
- `BuildAll` and `UpdateTopologyValues`;
- `GenerateExperiments`, with its per-iteration steps `NameExperiment`, `AddSettings`, `AddCheckpoint` and `AddExport`;
- `GroupTopologies`, the `setdefault().append` loop;
- `GeneratePerGroup` and `UpdateExperimentValues`.

The model follows the code as written, including these behaviours:
- `int(expected_lifetime)` is evaluated before its `is not None` test. A battery with no lifetime therefore raises, and the default 10 is never used.
- A freshly built battery always gets the running-mean policy.
- `max_len` in index-aligned mode leaves out the lifetime list.
- Cartesian mode with no non-empty list raises at `zip(*...)` before writing anything.
- A falsy prefab entry appends the policy bound by an earlier entry. When no entry was bound before, it raises.
- `get_val` on a `None` seed, run, interval or frequency list raises.
- `get_topology_group_prefix` removes every `"topologies/"`, not only a leading one.

## Model

All source paths are relative to `reproducibility_experiment1/reproducibility_capsule/src/`, written out in full.

| member | source | states |
|---|---|---|
| Utils.GetVal | reproducibility_experiment1/reproducibility_capsule/src/utils.py:64-65 | `lst[idx]` when the index is in range, `None` past the end |
| Utils.MaxOf | reproducibility_experiment1/reproducibility_capsule/src/topology_generator.py:116-121 | the maximum of lengths and a floor: at least every length and the floor, and equal to one of them |
| Utils.IntOf | reproducibility_experiment1/reproducibility_capsule/src/experiment_generator.py:204-209 | `int(v)` raises on `None`; otherwise it parses surrounding whitespace, an optional sign and ASCII digits with single underscores between them, and raises on anything else |
| Utils.DecimalOf | reproducibility_experiment1/reproducibility_capsule/src/experiment_generator.py:234 | `float(v)` raises on `None` and otherwise parses the decimal text |
| Utils.OptionalInt | reproducibility_experiment1/reproducibility_capsule/src/experiment_generator.py:253-256 | `int(x) if x is not None`: nothing for `None`; otherwise raises exactly when the text is not an integer, else its value |
| Utils.MapIndexedAt | reproducibility_experiment1/reproducibility_capsule/src/experiment_generator.py:168-170 | a comprehension over `enumerate(xs)` has one element per input, element j computed from index j and `xs[j]` |
| Utils.FilterMembership | reproducibility_experiment1/reproducibility_capsule/src/utils.py:37-39 | a filtering comprehension keeps exactly the elements that pass the test |
| Utils.FilterConcat | reproducibility_experiment1/reproducibility_capsule/src/utils.py:37-39 | filtering distributes over concatenation, so the kept elements stay in input order |
| Utils.GroupPath | reproducibility_experiment1/reproducibility_capsule/src/utils.py:12 | after turning backslashes into `/` and removing `"topologies/"` the path holds no backslash |
| Utils.TopologyGroupPrefix | reproducibility_experiment1/reproducibility_capsule/src/utils.py:7-12 | the group key is never empty and holds no backslash; it is `"Ungrouped"` when the cleaned path has no `/`, and otherwise made of the cleaned path's characters |
| Utils.TopologyGroupPrefixDir | reproducibility_experiment1/reproducibility_capsule/src/utils.py:8-12 | when the cleaned path is `d/f` for a file name `f`, the key is the directory part `d`, stripped, or `"Ungrouped"` when that is blank |
| Utils.TopologyGroupPrefixClean | reproducibility_experiment1/reproducibility_capsule/src/utils.py:8-12 | a path `d/f` with no backslash and no `topologies/`, whose directory `d` has no surrounding whitespace, is grouped under `d` |
| Utils.TopologyGroupPrefixExample | reproducibility_experiment1/reproducibility_capsule/src/utils.py:9 | the documented example: `borg/800/0_1000/DE.json` is grouped under `borg/800/0_1000` |
| Utils.CleanSelection | reproducibility_experiment1/reproducibility_capsule/src/utils.py:15-40 | `None` for no selection. The result never holds the special entries or a `.gitkeep` name. With `"[Select All]"` it is the valid options of the full list. Without it, it is `None` exactly when no selection is valid, and otherwise the valid selections |
| Utils.FilterFilesByKeyword | reproducibility_experiment1/reproducibility_capsule/src/utils.py:169-171 | a blank keyword keeps the list unchanged; otherwise a file is kept exactly when its name, with ASCII letters lower-cased, contains the stripped keyword lower-cased the same way |
| Utils.RangeValuesSpec | reproducibility_experiment1/reproducibility_capsule/src/utils.py:124-142 | the range starts at `start`, rises by `step`, never exceeds `end`, stops at the first value past it, and is empty exactly when `start > end` |
| Utils.FRange | reproducibility_experiment1/reproducibility_capsule/src/utils.py:124-142 | the `while current <= end` loop returns those range values; it terminates when the step is positive or the range is empty |
| Utils.Texts | reproducibility_experiment1/reproducibility_capsule/src/utils.py:93 | `[str(v) for v in ...]`: one decimal text per value, in order |
| Utils.StripAll | reproducibility_experiment1/reproducibility_capsule/src/utils.py:86 | `[s.strip() for s in ...]`: each piece stripped, in order |
| Utils.SegmentTokensSpec | reproducibility_experiment1/reproducibility_capsule/src/utils.py:89-99 | a range segment yields the decimal texts of `frange(start, end, step)`, or raises when a bound is malformed. A comma segment yields its stripped comma pieces. Any other segment yields itself |
| Utils.OutcomeCases | reproducibility_experiment1/reproducibility_capsule/src/utils.py:89-99 | the same three cases per segment, including the raising range and the non-terminating range |
| Utils.ConcatTokens | reproducibility_experiment1/reproducibility_capsule/src/utils.py:86-101 | the segment loop completes exactly when no segment raises |
| Utils.ConcatTokensAppend | reproducibility_experiment1/reproducibility_capsule/src/utils.py:86-101 | the token list of a run of segments is the first part's tokens followed by the rest's; a raise in the first part ends the loop |
| Utils.ParseInput | reproducibility_experiment1/reproducibility_capsule/src/utils.py:68-101 | `parse_input` returns the concatenation, in `+`-segment order, of each stripped segment's tokens; a blank input gives `[]` |
| Utils.ParseSegment | reproducibility_experiment1/reproducibility_capsule/src/utils.py:89-99 | the body of the segment loop computes that segment's outcome and terminates |
| Strings.SplitParts | reproducibility_experiment1/reproducibility_capsule/src/utils.py:96 | `split(',')` gives one more piece than there are commas, and no piece holds a comma |
| Strings.StripChars | reproducibility_experiment1/reproducibility_capsule/src/utils.py:82-84 | `strip()` keeps only input characters and is empty exactly when the input is all whitespace |
| Paths.DirName | reproducibility_experiment1/reproducibility_capsule/src/utils.py:12 | `os.path.dirname` is a prefix of the path and empty when the path has no `/` |
| Paths.DirNameOf | reproducibility_experiment1/reproducibility_capsule/src/utils.py:12 | `os.path.dirname(d + "/" + f)` is `d` for a slash-free name `f` and a directory `d` not ending in `/`: everything before the last `/` |
| Paths.NormPathPlain | reproducibility_experiment1/reproducibility_capsule/src/experiment_generator.py:22 | `normpath` leaves `folder/file` unchanged when the folder and every `/`-separated piece of the file path are plain components, as in `topologies/borg/800/DE.json` |
| Json.SetItem | reproducibility_experiment1/reproducibility_capsule/src/experiment_generator.py:206-211 | `d[k] = v` raises unless `d` is a dict; then `k` maps to `v` and every other key is unchanged |
| Json.Saved | reproducibility_experiment1/reproducibility_capsule/src/topology_generator.py:313-324 | the files on disk after a run of saves are exactly the paths written |
| Json.SavedLastWrite | reproducibility_experiment1/reproducibility_capsule/src/experiment_generator.py:279-292 | a saved file holds the document of the last write to its path |
| TopologyGenerator.AlignedCount | reproducibility_experiment1/reproducibility_capsule/src/topology_generator.py:116-121 | `max_len` is at least 1 and each of the eight lengths, and equals 1 or one of them |
| TopologyGenerator.AlignedCountIgnoresLifetime | reproducibility_experiment1/reproducibility_capsule/src/topology_generator.py:116-121 | the lifetime list does not affect `max_len` |
| TopologyGenerator.AlignedVariant | reproducibility_experiment1/reproducibility_capsule/src/topology_generator.py:123-132 | variant i takes `get_val(list, i)` on every one of the nine axes |
| TopologyGenerator.AlignedVariants | reproducibility_experiment1/reproducibility_capsule/src/topology_generator.py:115-132 | index-aligned mode has exactly `max_len` variants, the i-th being variant i |
| TopologyGenerator.ActiveLists | reproducibility_experiment1/reproducibility_capsule/src/topology_generator.py:80-82 | the lists of the non-empty axes, in the order of the inputs dict |
| TopologyGenerator.PrefixEachMembership | reproducibility_experiment1/reproducibility_capsule/src/topology_generator.py:85 | one step of `product`: a tuple is produced exactly when its head is in the first list and its tail is among the tails |
| TopologyGenerator.ProductMembership | reproducibility_experiment1/reproducibility_capsule/src/topology_generator.py:85 | `product(*lists)` yields exactly the tuples holding one element of each list, position by position |
| TopologyGenerator.DistinctSnoc | reproducibility_experiment1/reproducibility_capsule/src/topology_generator.py:84-90 | the next tuple is kept exactly when it holds no `None` and was not seen before |
| TopologyGenerator.DistinctMembership | reproducibility_experiment1/reproducibility_capsule/src/topology_generator.py:84-90 | the kept tuples are exactly the produced tuples without `None` |
| TopologyGenerator.DistinctUnique | reproducibility_experiment1/reproducibility_capsule/src/topology_generator.py:84-90 | no tuple is kept twice |
| TopologyGenerator.VariantsOf | reproducibility_experiment1/reproducibility_capsule/src/topology_generator.py:92-100 | one variant per kept tuple, read through `dict(zip(keys, combo)).get` |
| TopologyGenerator.VariantsOfSnoc | reproducibility_experiment1/reproducibility_capsule/src/topology_generator.py:92-100 | one more tuple adds its variant at the end |
| TopologyGenerator.CartesianVariants | reproducibility_experiment1/reproducibility_capsule/src/topology_generator.py:67-92 | cartesian enumeration raises with no active axis and otherwise gives the variants of the distinct `None`-free product tuples |
| TopologyGenerator.NewVariants | reproducibility_experiment1/reproducibility_capsule/src/topology_generator.py:84-92 | the loop with the `seen` set builds the variants of the distinct `None`-free tuples, in product order |
| TopologyGenerator.BatteryFieldsGet | reproducibility_experiment1/reproducibility_capsule/src/topology_generator.py:180-192 | the battery block's capacity, charging speed, `embodiedCarbon = 100 × capacity`, lifetime and running-mean policy with window 168 |
| TopologyGenerator.BatteryBlockFields | reproducibility_experiment1/reproducibility_capsule/src/topology_generator.py:179-192 | a built battery means the condition held and starting CI > 0. Its charging speed is speed × capacity when the speed is truthy, else 0, and it holds the policy |
| TopologyGenerator.BatteryBlockCondition | reproducibility_experiment1/reproducibility_capsule/src/topology_generator.py:179-184 | no battery unless `include_battery` holds and capacity and starting CI are given; with the condition met but no lifetime, it raises |
| TopologyGenerator.FloatEntry | reproducibility_experiment1/reproducibility_capsule/src/topology_generator.py:208-213 | an optional power-model value adds its `float()` under its key, or nothing when absent |
| TopologyGenerator.PowerModelFields | reproducibility_experiment1/reproducibility_capsule/src/topology_generator.py:204-215 | a power model exists exactly when `add_power_model` holds and a type is given. It holds its type, `float()` of `power` and `idlePower` exactly when they are given, and `float()` of `maxPower` only when it is truthy |
| TopologyGenerator.PowerFieldsGet | reproducibility_experiment1/reproducibility_capsule/src/topology_generator.py:206-213 | the assembled power model reads back its type, and the value of each optional part under `power`, `idlePower` and `maxPower` exactly when that part is present |
| TopologyGenerator.HostSteps | reproducibility_experiment1/reproducibility_capsule/src/topology_generator.py:194-215 | the host overlay is six successive states from the original host to the overlaid one |
| TopologyGenerator.ApplyHostPlanEmpty | reproducibility_experiment1/reproducibility_capsule/src/topology_generator.py:194-215 | with nothing to set the host is unchanged; otherwise it must be a dict |
| TopologyGenerator.ApplyHostPlanCores | reproducibility_experiment1/reproducibility_capsule/src/topology_generator.py:195-196 | `cpu.coreCount` is the given count, or the host's own |
| TopologyGenerator.ApplyHostPlanSpeed | reproducibility_experiment1/reproducibility_capsule/src/topology_generator.py:197-198 | `cpu.coreSpeed` is the given speed, or the host's own |
| TopologyGenerator.ApplyHostPlanMemory | reproducibility_experiment1/reproducibility_capsule/src/topology_generator.py:199-200 | `memory.memorySize` is the given size, or the host's own |
| TopologyGenerator.ApplyHostPlanCount | reproducibility_experiment1/reproducibility_capsule/src/topology_generator.py:201-202 | `count` is the given host count, or the host's own |
| TopologyGenerator.ApplyHostPlanPowerModel | reproducibility_experiment1/reproducibility_capsule/src/topology_generator.py:204-215 | `powerModel` is the built model, or the host's own |
| TopologyGenerator.ApplyHostPlanKeeps | reproducibility_experiment1/reproducibility_capsule/src/topology_generator.py:194-215 | every other host field, and every other field under `cpu` and `memory`, is unchanged |
| TopologyGenerator.ApplyHostPlanNonObject | reproducibility_experiment1/reproducibility_capsule/src/topology_generator.py:194-215 | a host that is not a dict survives only an empty overlay, unchanged |
| TopologyGenerator.ClusterPreparedSpec | reproducibility_experiment1/reproducibility_capsule/src/topology_generator.py:174-192 | the cluster gets `carbon_traces/<carbon>` when carbon is truthy and the battery when one is built; other fields stay |
| TopologyGenerator.ClusterHostsSpec | reproducibility_experiment1/reproducibility_capsule/src/topology_generator.py:194-215 | each host of the cluster is overlaid in place, same count and order |
| TopologyGenerator.ClusterOverlaySpec | reproducibility_experiment1/reproducibility_capsule/src/topology_generator.py:172-215 | the whole cluster overlay: power source, battery, hosts one by one, and all other fields kept |
| TopologyGenerator.TopologyOverlaySpec | reproducibility_experiment1/reproducibility_capsule/src/topology_generator.py:172-215 | every cluster is overlaid, same count and order, and no other top-level field changes |
| TopologyGenerator.OverlayHosts | reproducibility_experiment1/reproducibility_capsule/src/topology_generator.py:194-215 | the host loop computes the host overlay, stopping at the first raise |
| TopologyGenerator.OverlayCluster | reproducibility_experiment1/reproducibility_capsule/src/topology_generator.py:173-215 | the body of the cluster loop computes the cluster overlay |
| TopologyGenerator.OverlayClusters | reproducibility_experiment1/reproducibility_capsule/src/topology_generator.py:172-215 | the cluster loop computes the overlay of all clusters |
| TopologyGenerator.BuildOneTopology | reproducibility_experiment1/reproducibility_capsule/src/topology_generator.py:156-230 | `build_one_topology` overlays the copy and saves it under `topologies/<path>`, or raises |
| TopologyGenerator.TopologyFileName | reproducibility_experiment1/reproducibility_capsule/src/topology_generator.py:268-281 | the file name ends in `.json` |
| TopologyGenerator.BuildTopologyPath | reproducibility_experiment1/reproducibility_capsule/src/topology_generator.py:234-283 | the relative path ends in `.json` |
| TopologyGenerator.FileNamePlain | reproducibility_experiment1/reproducibility_capsule/src/topology_generator.py:268-281 | the file name has no `/` when the axis values have none |
| TopologyGenerator.FoldersPlain | reproducibility_experiment1/reproducibility_capsule/src/topology_generator.py:257-264 | no folder segment has a `/` when the axis values have none |
| TopologyGenerator.TopologyPathSegments | reproducibility_experiment1/reproducibility_capsule/src/topology_generator.py:257-283 | splitting the path on `/` gives back the folders `hosts<N>`, `bat<cap>_<speed>`, `carbon-<stem>` under their conditions, then the file name |
| TopologyGenerator.PathCollision | reproducibility_experiment1/reproducibility_capsule/src/topology_generator.py:218-230 | variants that differ only in starting CI and lifetime go to the same path, and the later one is what is saved |
| TopologyGenerator.DefaultHostOverlay | reproducibility_experiment1/reproducibility_capsule/src/topology_generator.py:194-202 | overlaying cores, speed, memory and count on the default host gives the default host with those values |
| TopologyGenerator.DefaultClusterOverlay | reproducibility_experiment1/reproducibility_capsule/src/topology_generator.py:287-310 | overlaying host values on `create_new_cluster(...)` gives `create_new_cluster` with the new values |
| TopologyGenerator.BuildAll | reproducibility_experiment1/reproducibility_capsule/src/topology_generator.py:123-153 | the variant loop builds and saves each variant in order until the first raise |
| TopologyGenerator.UpdateTopologyValues | reproducibility_experiment1/reproducibility_capsule/src/topology_generator.py:6-153 | `update_topology_values` writes exactly the run its specification gives, for the chosen mode and template |
| TopologyGenerator.AlignedWrites | reproducibility_experiment1/reproducibility_capsule/src/topology_generator.py:115-153 | a completed index-aligned run writes `max_len` topologies, the i-th built from the template and variant i |
| TopologyGenerator.CartesianWrites | reproducibility_experiment1/reproducibility_capsule/src/topology_generator.py:67-113 | cartesian mode with no non-empty list raises before writing. Otherwise a completed run writes one topology per distinct `None`-free product tuple, in product order |
| ExperimentGenerator.EntryPath | reproducibility_experiment1/reproducibility_capsule/src/experiment_generator.py:22 | the entry path holds no backslash |
| ExperimentGenerator.EntryPathPlain | reproducibility_experiment1/reproducibility_capsule/src/experiment_generator.py:22 | for a plain folder and a file path of plain pieces, without backslashes, the entry path is `folder/file` |
| ExperimentGenerator.OriginalType | reproducibility_experiment1/reproducibility_capsule/src/experiment_generator.py:25-26 | no original entry gives no type; an object entry gives its `type` field, if any |
| ExperimentGenerator.BuildEntry | reproducibility_experiment1/reproducibility_capsule/src/experiment_generator.py:7-29 | the entry is `{pathToFile}` first, then `type` only when there is one: the original's, else the truthy default; it raises only where reading the original does |
| ExperimentGenerator.EntryForObjects | reproducibility_experiment1/reproducibility_capsule/src/experiment_generator.py:168-170 | against a list of objects, the entry at each index gets its path and the type of the original at the same index |
| ExperimentGenerator.RefSteps | reproducibility_experiment1/reproducibility_capsule/src/experiment_generator.py:168-170 | every element of the comprehension is built, one per file |
| ExperimentGenerator.RefEntriesSpec | reproducibility_experiment1/reproducibility_capsule/src/experiment_generator.py:166-187 | one entry per file name, in order, with its path and carried-over or default type |
| ExperimentGenerator.ReplaceRefs | reproducibility_experiment1/reproducibility_capsule/src/experiment_generator.py:166-187 | no file list leaves the template unchanged; a replacement touches no other field |
| ExperimentGenerator.ReplaceRefsSpec | reproducibility_experiment1/reproducibility_capsule/src/experiment_generator.py:166-187 | a given list replaces the field with its entries, built against the list the template held; it raises exactly when the template is not a dict or an entry raises |
| ExperimentGenerator.ReplaceRefsKeeps | reproducibility_experiment1/reproducibility_capsule/src/experiment_generator.py:166-187 | a replacement keeps the list the next replacement reads |
| ExperimentGenerator.PreparedSteps | reproducibility_experiment1/reproducibility_capsule/src/experiment_generator.py:163-187 | the prepared template is the three replacements in order |
| ExperimentGenerator.PreparedTopologies | reproducibility_experiment1/reproducibility_capsule/src/experiment_generator.py:166-171 | topologies get one entry per file and no default type, or stay as they were |
| ExperimentGenerator.PreparedWorkloads | reproducibility_experiment1/reproducibility_capsule/src/experiment_generator.py:174-179 | workloads get one entry per file with default type `ComputeWorkload`, or stay |
| ExperimentGenerator.PreparedFailures | reproducibility_experiment1/reproducibility_capsule/src/experiment_generator.py:182-187 | failure models get one entry per file with default type `trace-based`, or stay |
| ExperimentGenerator.PreparedOthers | reproducibility_experiment1/reproducibility_capsule/src/experiment_generator.py:163-187 | no other template field changes |
| ExperimentGenerator.ExperimentCount | reproducibility_experiment1/reproducibility_capsule/src/experiment_generator.py:189-195 | `max_length` is at least 1 and each of the four lengths, and equals 1 or one of them |
| ExperimentGenerator.FileName | reproducibility_experiment1/reproducibility_capsule/src/experiment_generator.py:265 | the file name ends in `.json`, extends the full name by at most `.json`, and is the full name when it already ends so |
| ExperimentGenerator.PolicyRunSpec | reproducibility_experiment1/reproducibility_capsule/src/experiment_generator.py:213-224 | the policy loop raises exactly when the first entry is falsy and nothing was bound before. Otherwise it gives one policy per entry: the entry's prefab when truthy, else the one bound before |
| ExperimentGenerator.PolicyRunPrior | reproducibility_experiment1/reproducibility_capsule/src/experiment_generator.py:213-224 | once a pass's first policy loop completes, the binding it leaves changes nothing in later iterations |
| ExperimentGenerator.PoliciesStep | reproducibility_experiment1/reproducibility_capsule/src/experiment_generator.py:226-227 | `allocationPolicies` is set to the policies only when there are some |
| ExperimentGenerator.IntSetting | reproducibility_experiment1/reproducibility_capsule/src/experiment_generator.py:204-209 | a given value sets its key to `int(value)`, raising when that fails or when the document is not a dict; no value leaves the document as it is; nothing else changes |
| ExperimentGenerator.SeedRunStep | reproducibility_experiment1/reproducibility_capsule/src/experiment_generator.py:200-211 | `initialSeed` and `runs` are set only for present values, `name` always; it raises exactly when the document is not a dict or a given seed or run is not an integer |
| ExperimentGenerator.CheckpointStep | reproducibility_experiment1/reproducibility_capsule/src/experiment_generator.py:230-235 | `checkpointModels` is set only when interval, duration and scaling are all given |
| ExperimentGenerator.FailureCounts | reproducibility_experiment1/reproducibility_capsule/src/experiment_generator.py:238 | `[int(mf) ...]` completes exactly when every entry is an integer, with one count per entry |
| ExperimentGenerator.FailuresStep | reproducibility_experiment1/reproducibility_capsule/src/experiment_generator.py:237-238 | `maxNumFailures` is replaced wholesale only when the list is non-empty |
| ExperimentGenerator.ExportFields | reproducibility_experiment1/reproducibility_capsule/src/experiment_generator.py:244-249 | with no export setting the fields are unchanged |
| ExperimentGenerator.ExportFieldsGet | reproducibility_experiment1/reproducibility_capsule/src/experiment_generator.py:244-249 | each export setting reads back as given, and other keys as before |
| ExperimentGenerator.ExportEntrySettings | reproducibility_experiment1/reproducibility_capsule/src/experiment_generator.py:252-258 | the new export entry holds exactly the given settings |
| ExperimentGenerator.ExportEntryOnly | reproducibility_experiment1/reproducibility_capsule/src/experiment_generator.py:252-258 | the new export entry holds no other key |
| ExperimentGenerator.OverlayEntry | reproducibility_experiment1/reproducibility_capsule/src/experiment_generator.py:244-249 | with no setting the first export model is untouched; otherwise it must be a dict |
| ExperimentGenerator.OverlayEntrySettings | reproducibility_experiment1/reproducibility_capsule/src/experiment_generator.py:244-249 | the present settings are overlaid on the first export model |
| ExperimentGenerator.OverlayEntryKeeps | reproducibility_experiment1/reproducibility_capsule/src/experiment_generator.py:244-249 | the first export model keeps its other fields |
| ExperimentGenerator.OverlayFirst | reproducibility_experiment1/reproducibility_capsule/src/experiment_generator.py:243-249 | only the first export model changes |
| ExperimentGenerator.ExportStep | reproducibility_experiment1/reproducibility_capsule/src/experiment_generator.py:243-260 | the export step changes nothing but `exportModels` |
| ExperimentGenerator.ExportOverlay | reproducibility_experiment1/reproducibility_capsule/src/experiment_generator.py:243-249 | with truthy export models, the result is the overlay on the first one |
| ExperimentGenerator.ExportSynthesis | reproducibility_experiment1/reproducibility_capsule/src/experiment_generator.py:251-260 | otherwise a single entry is added only when some setting is present, and no key is added when none is |
| ExperimentGenerator.OutputStep | reproducibility_experiment1/reproducibility_capsule/src/experiment_generator.py:262-263 | `outputFolder` is set only when given |
| ExperimentGenerator.ExperimentSteps | reproducibility_experiment1/reproducibility_capsule/src/experiment_generator.py:197-265 | a built experiment is the loop body's steps in source order |
| ExperimentGenerator.ExperimentNaming | reproducibility_experiment1/reproducibility_capsule/src/experiment_generator.py:200-211 | the name is `name`, then `_s<seed>` and `_r<run>` when present; `initialSeed` and `runs` are set only then |
| ExperimentGenerator.ExperimentPolicies | reproducibility_experiment1/reproducibility_capsule/src/experiment_generator.py:213-227 | every experiment carries the policy list when it is not empty |
| ExperimentGenerator.ExperimentCheckpointAndFailures | reproducibility_experiment1/reproducibility_capsule/src/experiment_generator.py:230-238 | the checkpoint model only with all three settings; `maxNumFailures` replaced only by a non-empty list |
| ExperimentGenerator.ExperimentExport | reproducibility_experiment1/reproducibility_capsule/src/experiment_generator.py:240-260 | the export settings of index i are overlaid on the first export model, or synthesised as one new entry when some is given |
| ExperimentGenerator.ExperimentOutputAndOthers | reproducibility_experiment1/reproducibility_capsule/src/experiment_generator.py:262-263 | `outputFolder` only when given; every field no step assigns is the prepared template's |
| ExperimentGenerator.ExperimentWithPrior | reproducibility_experiment1/reproducibility_capsule/src/experiment_generator.py:213-224 | the policy bound in an earlier iteration does not change a later experiment |
| ExperimentGenerator.SavesOf | reproducibility_experiment1/reproducibility_capsule/src/experiment_generator.py:267 | one save per experiment, in order |
| ExperimentGenerator.SelectionsOf | reproducibility_experiment1/reproducibility_capsule/src/experiment_generator.py:269-274 | one selection per experiment, in order |
| ExperimentGenerator.PassSteps | reproducibility_experiment1/reproducibility_capsule/src/experiment_generator.py:197 | the loop runs `max_length` iterations, the i-th building experiment i |
| ExperimentGenerator.GeneratedSpec | reproducibility_experiment1/reproducibility_capsule/src/experiment_generator.py:131-276 | a pass completes exactly when the template can be prepared and every experiment built. It then writes `max_length` files and returns one selection per file, named as the file and holding the input lists |
| ExperimentGenerator.GeneratedNames | reproducibility_experiment1/reproducibility_capsule/src/experiment_generator.py:265-267 | the k-th file is `experiments/` + the file name of the name, seed k and run k |
| ExperimentGenerator.CollectPolicies | reproducibility_experiment1/reproducibility_capsule/src/experiment_generator.py:213-224 | the policy loop computes the policy list and the binding it leaves |
| ExperimentGenerator.PolicyRunRaisedPrefix | reproducibility_experiment1/reproducibility_capsule/src/experiment_generator.py:215-224 | a raise part-way through the prefab list raises the whole loop |
| ExperimentGenerator.NameExperiment | reproducibility_experiment1/reproducibility_capsule/src/experiment_generator.py:200-211 | the naming steps compute the seed/run step and the full name |
| ExperimentGenerator.AddSettings | reproducibility_experiment1/reproducibility_capsule/src/experiment_generator.py:213-238 | policies, checkpoint and failure counts are added as the settings step gives |
| ExperimentGenerator.AddCheckpoint | reproducibility_experiment1/reproducibility_capsule/src/experiment_generator.py:230-235 | the checkpoint statement computes the checkpoint step |
| ExperimentGenerator.AddExport | reproducibility_experiment1/reproducibility_capsule/src/experiment_generator.py:243-260 | the export statements compute the export step |
| ExperimentGenerator.BuildExperiment | reproducibility_experiment1/reproducibility_capsule/src/experiment_generator.py:198-265 | one loop iteration builds the experiment of index i |
| ExperimentGenerator.GenerateExperiments | reproducibility_experiment1/reproducibility_capsule/src/experiment_generator.py:131-276 | `generate_experiments` writes and returns exactly what the pass specification gives |
| ExperimentGenerator.GenerateOne | reproducibility_experiment1/reproducibility_capsule/src/experiment_generator.py:197-274 | one iteration extends the completed prefix by experiment i, or ends the pass with a raise |
| ExperimentGenerator.GroupKeys | reproducibility_experiment1/reproducibility_capsule/src/experiment_generator.py:84 | the group keys in dict order |
| ExperimentGenerator.AddToGroupAbsent | reproducibility_experiment1/reproducibility_capsule/src/experiment_generator.py:82 | `setdefault(key, []).append(t)` for a new key adds the group `[t]` at the end |
| ExperimentGenerator.AddToGroupAt | reproducibility_experiment1/reproducibility_capsule/src/experiment_generator.py:82 | for an existing key it appends `t` to that group, in place |
| ExperimentGenerator.Prefixes | reproducibility_experiment1/reproducibility_capsule/src/experiment_generator.py:81 | one group key per topology |
| ExperimentGenerator.WithPrefixSnoc | reproducibility_experiment1/reproducibility_capsule/src/experiment_generator.py:80-82 | one more topology joins exactly the group of its key |
| ExperimentGenerator.FirstSeenPrefixesSnoc | reproducibility_experiment1/reproducibility_capsule/src/experiment_generator.py:80-82 | one more topology adds its key to the first-seen order only when it is new |
| ExperimentGenerator.ReplacedAt | reproducibility_experiment1/reproducibility_capsule/src/experiment_generator.py:82 | replacing one group leaves the others in place |
| ExperimentGenerator.GroupsOfExisting | reproducibility_experiment1/reproducibility_capsule/src/experiment_generator.py:80-82 | adding a topology of a known key keeps the grouping exact |
| ExperimentGenerator.GroupsOfNew | reproducibility_experiment1/reproducibility_capsule/src/experiment_generator.py:80-82 | adding a topology of a new key keeps the grouping exact |
| ExperimentGenerator.GroupedSpec | reproducibility_experiment1/reproducibility_capsule/src/experiment_generator.py:79-82 | the groups have distinct keys, in first-seen order. Each holds exactly the topologies of its key, in input order, and no topology is left out |
| ExperimentGenerator.GroupTopologies | reproducibility_experiment1/reproducibility_capsule/src/experiment_generator.py:79-82 | the grouping loop builds that grouping |
| ExperimentGenerator.BaseName | reproducibility_experiment1/reproducibility_capsule/src/experiment_generator.py:75 | a truthy name wins. Otherwise `name` is read from the template: `custom_experiment` when absent, its text when present. It raises when the template is not a dict |
| ExperimentGenerator.GroupOutcomes | reproducibility_experiment1/reproducibility_capsule/src/experiment_generator.py:84-104 | one pass per group |
| ExperimentGenerator.ConcatCount | reproducibility_experiment1/reproducibility_capsule/src/experiment_generator.py:84-105 | passes of n selections each extend the result by n apiece |
| ExperimentGenerator.ConcatSnoc | reproducibility_experiment1/reproducibility_capsule/src/experiment_generator.py:86 | `extend` appends a completed pass's selections and writes |
| ExperimentGenerator.ConcatRaised | reproducibility_experiment1/reproducibility_capsule/src/experiment_generator.py:84-105 | a raising pass ends the call; later groups are not run |
| ExperimentGenerator.GeneratedCount | reproducibility_experiment1/reproducibility_capsule/src/experiment_generator.py:189-197 | a completed pass writes and selects `max_length` experiments |
| ExperimentGenerator.GroupPassesCount | reproducibility_experiment1/reproducibility_capsule/src/experiment_generator.py:84-105 | all group passes together give groups × `max_length` selections and writes |
| ExperimentGenerator.UpdatedLoadFailure | reproducibility_experiment1/reproducibility_capsule/src/experiment_generator.py:65-71 | a template that fails to load returns `[]` and writes nothing |
| ExperimentGenerator.UpdatedSpec | reproducibility_experiment1/reproducibility_capsule/src/experiment_generator.py:75-128 | with grouping, a completed call returns (distinct group keys) × `max_length` selections. Without it, the call is the single pass named by the base name |
| ExperimentGenerator.GeneratePerGroup | reproducibility_experiment1/reproducibility_capsule/src/experiment_generator.py:84-105 | the group loop computes the concatenation of the passes in group order, named `<group>/<base_name>` |
| ExperimentGenerator.GenerateGroup | reproducibility_experiment1/reproducibility_capsule/src/experiment_generator.py:85-105 | one group iteration extends the concatenation by its pass |
| ExperimentGenerator.UpdateExperimentValues | reproducibility_experiment1/reproducibility_capsule/src/experiment_generator.py:31-128 | `update_experiment_values` returns and writes exactly what its specification gives: nothing on load failure, otherwise one pass or one pass per group |

## Left out

- Reading templates from disk: the parsed template, or `None` for a failed load, is a parameter. The printed load error is not modelled.
- `json.dump` formatting, `os.makedirs`, and the `print` calls are not modelled. Saves are a write log.
- `save_experiment` catches exceptions while writing. A write that fails on disk is therefore not modelled: every save succeeds.
- `refresh_dropdown`, `list_files`, `safe_listdir` and `get_system_info` in `utils.py` are left out: widget, filesystem and OS queries.
- Python exception kinds are not distinguished: every exception is `Raised`, and the writes done before it stay in the log.
- `float()` accepts plain decimal notation only, as an exact `real`. Exponents, `inf`, `nan` and underscores in float text are treated as raising. Binary rounding is not modelled.
- `FRange`: modelled on integers, the only arguments `parse_input` gives it. `round(int, 8)` is the identity there.
- `Json.Display`: floats, lists and dicts used as text (only possible for a template's `name`) render as a fixed marker, not Python's `repr`.
- POSIX path semantics are assumed: `Paths.DirName` and `Paths.NormPath` follow `posixpath`. `ntpath` is not modelled: drive letters, and `\` as a separator inside `normpath` and `dirname`. Under `ntpath`, `normpath("topologies/a\\..\\b.json")` gives `topologies/b.json` after the backslash replace, while the model keeps `topologies/a/../b.json`.
- `Paths.NormPathPlain`: `os.path.normpath` is modelled in full, but entry paths are proved equal to `folder/file` only when every piece of the file path is plain: single or nested names without empty, `.` or `..` pieces.
- `Utils.FilterFilesByKeyword`: `str.lower()` is modelled on ASCII letters only. Other letters, such as `Ü`, are left as they are, so a keyword differing from a file name only in the case of a non-ASCII letter does not match, where Python's `lower()` would make it match.
- `Utils.IntOf`, `Strings.ParseInt`: `int()` is modelled for ASCII digits only. Text of other Unicode decimal digits, such as `"٣"` or fullwidth `"３"`, raises in the model, where Python accepts it.
- `Utils.CleanSelection`, `Utils.FilterFilesByKeyword`: the contracts state which elements are kept. Order and multiplicity come from `Utils.Filter`, whose order is stated by `Utils.FilterConcat` rather than in these contracts.
- `TopologyGenerator.TopologyFileName`, `TopologyGenerator.BuildTopologyPath`: the contracts state the `.json` ending. The segment structure is stated by `TopologyGenerator.TopologyPathSegments` for values without `/`.
- `ExperimentGenerator.UpdatedSpec`: for grouping it states the selection count and completion. The per-group content is given by `ExperimentGenerator.GeneratePerGroup` and `ExperimentGenerator.GroupedSpec`.
- The interleaving of enumeration and saving in cartesian mode is not modelled. The variants are enumerated first and then built one by one, which writes the same files in the same order because enumeration never raises once started.
- `ParseInput` requires that no segment reached before the first raising one is a non-terminating range: a step ≤ 0 with start ≤ end. On such input the source loops forever.
