/** The experiment generator: fills an experiment template with the chosen trace
    files, allocation policies, checkpointing, failure and export settings, and saves
    one experiment per index-aligned seed, run, export interval and print frequency,
    optionally once per folder group of the topologies. */
module ExperimentGenerator {
  import opened Wrappers
  import opened Strings
  import opened Json
  import opened Paths
  import opened Utils

  /* ---------------- build_entry ---------------- */

  /** The path of a file inside a folder, normalised, with forward slashes only. */
  function EntryPath(folder: string, file: string): (r: string)
    ensures '\\' !in r
  {
    ReplaceChar(NormPath(folder + "/" + file), '\\', '/')
  }

  /** A plain folder and a relative file path of plain pieces, without backslashes, give
      "folder/file" unchanged. */
  lemma EntryPathPlain(folder: string, file: string)
    requires IsPlainComponent(folder) && IsPlainPath(file)
    requires '\\' !in folder && '\\' !in file
    ensures EntryPath(folder, file) == folder + "/" + file
  {
    NormPathPlain(folder, file);
    var s := folder + "/" + file;
    assert forall i :: 0 <= i < |s| ==> s[i] != '\\' by {
      forall i | 0 <= i < |s|
        ensures s[i] != '\\'
      {
        if i < |folder| {
          assert s[i] == folder[i];
        } else if i > |folder| {
          assert s[i] == file[i - |folder| - 1];
        }
      }
    }
    assert ReplaceChar(s, '\\', '/') == s;
  }

  /** `original_entry["type"]` when `original_entry and "type" in original_entry` holds,
      nothing when it does not. Testing or reading "type" on an original entry that is not
      an object can raise; an object never does. */
  function OriginalType(original: Option<Json>): (r: Result<Option<Json>>)
    ensures original.None? ==> r == Ok(None)
    ensures original.Some? && original.value.Obj? ==> r == Ok(Field(original.value, "type"))
  {
    if original.None? || !Truthy(original.value) then Ok(None)
    else
      var has :- In("type", original.value);
      if has then
        var t :- GetItem(original.value, "type");
        Ok(Some(t))
      else Ok(None)
  }

  /** The type an entry gets: the original one, or else the default type when it is truthy. */
  function ChosenType(originalType: Option<Json>, defaultType: Value): Option<Json>
  {
    if originalType.Some? then originalType
    else if IsTruthy(defaultType) then Some(Str(defaultType.value))
    else None
  }

  /** build_entry: the entry of one trace file, holding its normalised path and, when
      there is one, its type: the original entry's, or else the default type. */
  function BuildEntry(folder: string, file: string, original: Option<Json>, defaultType: Value): (r: Result<Json>)
    ensures r.Ok? <==> OriginalType(original).Ok?
    ensures r.Ok? ==> r.value.Obj? && |r.value.fields| >= 1 && r.value.fields[0] == ("pathToFile", Str(EntryPath(folder, file)))
    ensures r.Ok? ==> Field(r.value, "pathToFile") == Some(Str(EntryPath(folder, file)))
    ensures r.Ok? ==> Field(r.value, "type") == ChosenType(OriginalType(original).value, defaultType)
    ensures r.Ok? ==> |r.value.fields| == (if Field(r.value, "type").Some? then 2 else 1)
  {
    var t :- OriginalType(original);
    var path := ("pathToFile", Str(EntryPath(folder, file)));
    match ChosenType(t, defaultType)
    case Some(ty) =>
      var fields := [path, ("type", ty)];
      GetAt(fields, 1);
      Ok(Obj(fields))
    case None =>
      GetAbsent([path], "type");
      Ok(Obj([path]))
  }

  /* ---------------- the trace lists of the template ---------------- */

  /** `entries[index] if index < len(entries) else None` on the template's original list.
      A text behaves as the list of its characters; an object is indexed by key, and has
      no integer keys; other values have no length. */
  function OriginalAt(entries: Json, index: nat): Result<Option<Json>>
  {
    match entries
    case Arr(items) => Ok(if index < |items| then Some(items[index]) else None)
    case Str(s) => Ok(if index < |s| then Some(Str([s[index]])) else None)
    case Obj(fields) => if index < |fields| then Raised else Ok(None)
    case _ => Raised
  }

  /** The entry built for `file`, the one at `index` of its list. */
  function EntryFor(folder: string, original: Json, defaultType: Value, index: nat, file: string): Result<Json>
  {
    var o :- OriginalAt(original, index);
    BuildEntry(folder, file, o, defaultType)
  }

  function EntryMaker(folder: string, original: Json, defaultType: Value): (nat, string) -> Result<Json>
  {
    (index: nat, file: string) => EntryFor(folder, original, defaultType, index, file)
  }

  /** The list comprehension over `enumerate(files)`: one entry per file, or the first raise. */
  function RefEntries(folder: string, files: seq<string>, original: Json, defaultType: Value): Result<seq<Json>>
  {
    AllOk(MapIndexed(files, EntryMaker(folder, original, defaultType), 0))
  }

  /** The type the entry at `index` gets from the original list and the default type. */
  function EntryType(original: Json, index: nat, defaultType: Value): Option<Json>
    requires original.Arr?
  {
    ChosenType(if index < |original.items| then Field(original.items[index], "type") else None, defaultType)
  }

  /** Against a list of objects, the entry of every file is built, with its normalised
      path and the type of the original entry at the same index, or else the default type. */
  lemma EntryForObjects(folder: string, original: Json, defaultType: Value, index: nat, file: string)
    requires original.Arr? && forall j :: 0 <= j < |original.items| ==> original.items[j].Obj?
    ensures EntryFor(folder, original, defaultType, index, file).Ok?
    ensures Field(EntryFor(folder, original, defaultType, index, file).value, "pathToFile") == Some(Str(EntryPath(folder, file)))
    ensures Field(EntryFor(folder, original, defaultType, index, file).value, "type") == EntryType(original, index, defaultType)
  {
    var o := OriginalAt(original, index);
    assert o == Ok(if index < |original.items| then Some(original.items[index]) else None);
  }

  /** A list of objects (or no list at all) never makes the comprehension raise, and then
      there is one entry per file, in order, each with its normalised path and the type
      of the original entry at the same index, or else the default type. */
  lemma RefEntriesSpec(folder: string, files: seq<string>, original: Json, defaultType: Value)
    requires original.Arr? && forall j :: 0 <= j < |original.items| ==> original.items[j].Obj?
    ensures RefEntries(folder, files, original, defaultType).Ok?
    ensures |RefEntries(folder, files, original, defaultType).value| == |files|
    ensures forall k :: 0 <= k < |files| ==>
      Field(RefEntries(folder, files, original, defaultType).value[k], "pathToFile") == Some(Str(EntryPath(folder, files[k])))
    ensures forall k :: 0 <= k < |files| ==>
      Field(RefEntries(folder, files, original, defaultType).value[k], "type") == EntryType(original, k, defaultType)
  {
    RefSteps(folder, files, original, defaultType);
  }

  /** Each step of the comprehension, against a list of objects. */
  lemma RefSteps(folder: string, files: seq<string>, original: Json, defaultType: Value)
    requires original.Arr? && forall j :: 0 <= j < |original.items| ==> original.items[j].Obj?
    ensures var steps := MapIndexed(files, EntryMaker(folder, original, defaultType), 0);
      |steps| == |files| &&
      forall k :: 0 <= k < |files| ==>
        steps[k].Ok? &&
        Field(steps[k].value, "pathToFile") == Some(Str(EntryPath(folder, files[k]))) &&
        Field(steps[k].value, "type") == EntryType(original, k, defaultType)
  {
    var f := EntryMaker(folder, original, defaultType);
    var steps := MapIndexed(files, f, 0);
    MapIndexedAt(files, f, 0);
    forall k | 0 <= k < |files|
      ensures steps[k].Ok?
      ensures Field(steps[k].value, "pathToFile") == Some(Str(EntryPath(folder, files[k])))
      ensures Field(steps[k].value, "type") == EntryType(original, k, defaultType)
    {
      assert steps[k] == EntryFor(folder, original, defaultType, k, files[k]);
      EntryForObjects(folder, original, defaultType, k, files[k]);
    }
  }

  /** The template's value under `key`, or an empty list when it has none (`d.get(key, [])`). */
  function OriginalEntries(doc: Json, key: string): Json
  {
    match Field(doc, key)
    case Some(o) => o
    case None => Arr([])
  }

  /** The list value of a comprehension that did not raise. */
  function ListField(entries: Result<seq<Json>>): Option<Json>
  {
    if entries.Ok? then Some(Arr(entries.value)) else None
  }

  /** Replaces the trace list under `key` when a file list is given; nothing otherwise.
      The template must be an object for `.get` and the assignment. */
  function ReplaceRefs(doc: Json, key: string, folder: string, files: Option<seq<string>>, defaultType: Value): (r: Result<Json>)
    ensures files.None? ==> r == Ok(doc)
    ensures r.Ok? ==> forall k :: k != key ==> Field(r.value, k) == Field(doc, k)
  {
    match files
    case None => Ok(doc)
    case Some(fs) =>
      if !doc.Obj? then Raised
      else
        var entries :- RefEntries(folder, fs, OriginalEntries(doc, key), defaultType);
        SetItem(doc, key, Arr(entries))
  }

  /** A given file list replaces the field under `key` with its entries, built against
      the list the template held there; it raises when the template is not an object or
      when building an entry raises. */
  lemma ReplaceRefsSpec(doc: Json, key: string, folder: string, files: seq<string>, defaultType: Value)
    ensures ReplaceRefs(doc, key, folder, Some(files), defaultType).Ok? <==>
      doc.Obj? && RefEntries(folder, files, OriginalEntries(doc, key), defaultType).Ok?
    ensures ReplaceRefs(doc, key, folder, Some(files), defaultType).Ok? ==>
      Field(ReplaceRefs(doc, key, folder, Some(files), defaultType).value, key) ==
        ListField(RefEntries(folder, files, OriginalEntries(doc, key), defaultType))
  {
    var r := ReplaceRefs(doc, key, folder, Some(files), defaultType);
    if r.Ok? {
      var entries := RefEntries(folder, files, OriginalEntries(doc, key), defaultType).value;
      assert r == SetItem(doc, key, Arr(entries));
    }
  }

  /** A replacement keeps every other field, and so the list another replacement reads. */
  lemma ReplaceRefsKeeps(doc: Json, key: string, folder: string, files: Option<seq<string>>, defaultType: Value,
                         r: Json, other: string)
    requires ReplaceRefs(doc, key, folder, files, defaultType) == Ok(r) && other != key
    ensures Field(r, other) == Field(doc, other)
    ensures OriginalEntries(r, other) == OriginalEntries(doc, other)
  {
  }

  /** The parameters of generate_experiments other than the name and the template. A list
      that the source only reads through `or []` is a sequence here (None is the empty
      list); a list read through get_val, which raises on None, keeps its Option. */
  datatype Params = Params(
    topologies: Option<seq<string>>, workloads: Option<seq<string>>, failures: Option<seq<string>>,
    prefabTypes: seq<Value>,
    checkpointInterval: Value, checkpointDuration: Value, checkpointScaling: Value,
    exportIntervals: Option<seq<Value>>, printFrequencies: Option<seq<Value>>, filesToExport: Json,
    seeds: Option<seq<Value>>, runs: Option<seq<Value>>, maxFailures: seq<Value>,
    outputFolder: Value)

  /** The template after the topology, workload and failure lists are replaced: the shared
      base every experiment of one generation pass starts from. */
  function PreparedBase(base: Json, p: Params): Result<Json>
  {
    var d1 :- ReplaceRefs(base, "topologies", "topologies", p.topologies, None);
    var d2 :- ReplaceRefs(d1, "workloads", "workload_traces", p.workloads, Some("ComputeWorkload"));
    ReplaceRefs(d2, "failureModels", "failure_traces", p.failures, Some("trace-based"))
  }

  /** The three replacements of PreparedBase, one after the other. */
  lemma PreparedSteps(base: Json, p: Params) returns (d1: Json, d2: Json)
    requires PreparedBase(base, p).Ok?
    ensures ReplaceRefs(base, "topologies", "topologies", p.topologies, None) == Ok(d1)
    ensures ReplaceRefs(d1, "workloads", "workload_traces", p.workloads, Some("ComputeWorkload")) == Ok(d2)
    ensures ReplaceRefs(d2, "failureModels", "failure_traces", p.failures, Some("trace-based")) == PreparedBase(base, p)
  {
    d1 := ReplaceRefs(base, "topologies", "topologies", p.topologies, None).value;
    d2 := ReplaceRefs(d1, "workloads", "workload_traces", p.workloads, Some("ComputeWorkload")).value;
  }

  /** A given topology list replaces the "topologies" field with entries without a
      default type; otherwise the field stays as it was. */
  lemma PreparedTopologies(base: Json, p: Params)
    requires PreparedBase(base, p).Ok?
    ensures p.topologies.Some? ==>
      Field(PreparedBase(base, p).value, "topologies") ==
      ListField(RefEntries("topologies", p.topologies.value, OriginalEntries(base, "topologies"), None))
    ensures p.topologies.None? ==> Field(PreparedBase(base, p).value, "topologies") == Field(base, "topologies")
  {
    var d1, d2 := PreparedSteps(base, p);
    ReplaceRefsKeeps(d1, "workloads", "workload_traces", p.workloads, Some("ComputeWorkload"), d2, "topologies");
    ReplaceRefsKeeps(d2, "failureModels", "failure_traces", p.failures, Some("trace-based"), PreparedBase(base, p).value, "topologies");
    if p.topologies.Some? {
      ReplaceRefsSpec(base, "topologies", "topologies", p.topologies.value, None);
    }
  }

  /** A given workload list replaces the "workloads" field with entries of type
      "ComputeWorkload" unless the template's entry has a type; otherwise the field stays. */
  lemma PreparedWorkloads(base: Json, p: Params)
    requires PreparedBase(base, p).Ok?
    ensures p.workloads.Some? ==>
      Field(PreparedBase(base, p).value, "workloads") ==
      ListField(RefEntries("workload_traces", p.workloads.value, OriginalEntries(base, "workloads"), Some("ComputeWorkload")))
    ensures p.workloads.None? ==> Field(PreparedBase(base, p).value, "workloads") == Field(base, "workloads")
  {
    var d1, d2 := PreparedSteps(base, p);
    ReplaceRefsKeeps(base, "topologies", "topologies", p.topologies, None, d1, "workloads");
    ReplaceRefsKeeps(d2, "failureModels", "failure_traces", p.failures, Some("trace-based"), PreparedBase(base, p).value, "workloads");
    if p.workloads.Some? {
      ReplaceRefsSpec(d1, "workloads", "workload_traces", p.workloads.value, Some("ComputeWorkload"));
    }
  }

  /** A given failure list replaces the "failureModels" field with entries of type
      "trace-based" unless the template's entry has a type; otherwise the field stays. */
  lemma PreparedFailures(base: Json, p: Params)
    requires PreparedBase(base, p).Ok?
    ensures p.failures.Some? ==>
      Field(PreparedBase(base, p).value, "failureModels") ==
      ListField(RefEntries("failure_traces", p.failures.value, OriginalEntries(base, "failureModels"), Some("trace-based")))
    ensures p.failures.None? ==> Field(PreparedBase(base, p).value, "failureModels") == Field(base, "failureModels")
  {
    var d1, d2 := PreparedSteps(base, p);
    ReplaceRefsKeeps(base, "topologies", "topologies", p.topologies, None, d1, "failureModels");
    ReplaceRefsKeeps(d1, "workloads", "workload_traces", p.workloads, Some("ComputeWorkload"), d2, "failureModels");
    if p.failures.Some? {
      ReplaceRefsSpec(d2, "failureModels", "failure_traces", p.failures.value, Some("trace-based"));
    }
  }

  /** Every other field of the template is left as it was. */
  lemma PreparedOthers(base: Json, p: Params, k: string)
    requires PreparedBase(base, p).Ok?
    requires k != "topologies" && k != "workloads" && k != "failureModels"
    ensures Field(PreparedBase(base, p).value, k) == Field(base, k)
  {
    var d1, d2 := PreparedSteps(base, p);
  }

  /* ---------------- one experiment ---------------- */

  /** The length of a list that may be None, as `len(xs or [])`. */
  function ListLength(xs: Option<seq<Value>>): nat
  {
    if xs.Some? then |xs.value| else 0
  }

  /** max_length: the longest of the seed, run, export-interval and print-frequency lists,
      and at least 1. */
  function ExperimentCount(p: Params): (n: nat)
    ensures n >= 1
    ensures n >= ListLength(p.seeds) && n >= ListLength(p.runs)
    ensures n >= ListLength(p.exportIntervals) && n >= ListLength(p.printFrequencies)
    ensures n == 1 || n == ListLength(p.seeds) || n == ListLength(p.runs) ||
            n == ListLength(p.exportIntervals) || n == ListLength(p.printFrequencies)
  {
    var lens := [ListLength(p.seeds), ListLength(p.runs), ListLength(p.exportIntervals), ListLength(p.printFrequencies)];
    var m := MaxOf(lens, 1);
    assert lens[0] <= m && lens[1] <= m && lens[2] <= m && lens[3] <= m;
    m
  }

  /** get_val(xs, i) on a list that may be None: `len(None)` raises. */
  function ValAt(xs: Option<seq<Value>>, i: nat): Result<Value>
  {
    match xs
    case None => Raised
    case Some(lst) => Ok(GetVal(lst, i))
  }

  /** The full name: the pass name, then "_s<seed>" when there is a seed at this index,
      then "_r<run>" when there is a run. */
  function ExperimentName(name: string, seed: Value, run: Value): string
  {
    var withSeed := if seed.Some? then name + ("_s" + seed.value) else name;
    if run.Some? then withSeed + ("_r" + run.value) else withSeed
  }

  /** The file name: the full name, with ".json" appended unless it already ends so. */
  function FileName(fullName: string): (r: string)
    ensures EndsWith(r, ".json")
    ensures fullName <= r && |r| <= |fullName| + 5
    ensures EndsWith(fullName, ".json") ==> r == fullName
  {
    if EndsWith(fullName, ".json") then fullName
    else
      var r := fullName + ".json";
      assert r[|r| - 5..] == ".json";
      r
  }

  /** The allocation policy a prefab entry names. */
  function PrefabPolicy(policyName: string): Json
  {
    Obj([("type", Str("prefab")), ("policyName", Str(policyName))])
  }

  /** The policy loop: the list it builds and the policy last bound, starting from the
      binding `prior` (the loop variable outlives the loop, and the loop of the previous
      experiment). A truthy entry binds its own policy; every entry appends the policy
      bound last, and reading it before anything was bound raises. */
  function PolicyRun(prefabs: seq<Value>, prior: Option<Json>): (Result<seq<Json>>, Option<Json>)
  {
    if prefabs == [] then (Ok([]), prior)
    else
      var prev := PolicyRun(prefabs[..|prefabs| - 1], prior);
      var entry := prefabs[|prefabs| - 1];
      var bound := if IsTruthy(entry) then Some(PrefabPolicy(entry.value)) else prev.1;
      if prev.0.Raised? then prev
      else if bound.None? then (Raised, bound)
      else (Ok(prev.0.value + [bound.value]), bound)
  }

  /** The loop raises exactly when nothing is bound yet and the first entry is falsy.
      Otherwise it yields one policy per entry: a truthy entry's own prefab policy, and
      for a falsy entry a copy of the policy before it (of the prior binding for the
      first entry); the binding left behind is the last policy of the list. */
  lemma {:induction false} PolicyRunSpec(prefabs: seq<Value>, prior: Option<Json>)
    ensures PolicyRun(prefabs, prior).0.Raised? <==> prior.None? && prefabs != [] && !IsTruthy(prefabs[0])
    ensures var r := PolicyRun(prefabs, prior).0;
      r.Ok? ==>
        |r.value| == |prefabs| &&
        (forall k :: 0 <= k < |prefabs| && IsTruthy(prefabs[k]) ==> r.value[k] == PrefabPolicy(prefabs[k].value)) &&
        (forall k :: 0 < k < |prefabs| && !IsTruthy(prefabs[k]) ==> r.value[k] == r.value[k - 1]) &&
        (prefabs != [] && !IsTruthy(prefabs[0]) ==> prior.Some? && r.value[0] == prior.value)
    ensures PolicyRun(prefabs, prior).0.Ok? ==>
      PolicyRun(prefabs, prior).1 == (if prefabs == [] then prior else Some(PolicyRun(prefabs, prior).0.value[|prefabs| - 1]))
  {
    if prefabs != [] {
      var init := prefabs[..|prefabs| - 1];
      PolicyRunSpec(init, prior);
      if init != [] {
        assert init[0] == prefabs[0];
      }
      forall k | 0 <= k < |init|
        ensures init[k] == prefabs[k]
      {
      }
    }
  }

  /** The binding carried over from the previous experiment never matters once the list
      has been walked without raising from an empty binding: every experiment of a pass
      builds the same policies. */
  lemma {:induction false} PolicyRunPrior(prefabs: seq<Value>, prior: Option<Json>)
    requires PolicyRun(prefabs, None).0.Ok?
    ensures PolicyRun(prefabs, prior).0 == PolicyRun(prefabs, None).0
    ensures prefabs != [] ==> PolicyRun(prefabs, prior) == PolicyRun(prefabs, None)
  {
    if prefabs != [] {
      var init := prefabs[..|prefabs| - 1];
      assert PolicyRun(init, None).0.Ok?;
      PolicyRunPrior(init, prior);
      if init == [] {
        assert IsTruthy(prefabs[0]);
      }
    }
  }

  /** `experiment["allocationPolicies"] = policies` when the list is not empty. */
  function PoliciesStep(doc: Json, policies: seq<Json>): (r: Result<Json>)
    ensures policies == [] ==> r == Ok(doc)
    ensures policies != [] ==> (r.Ok? <==> doc.Obj?)
    ensures policies != [] && r.Ok? ==> Field(r.value, "allocationPolicies") == Some(Arr(policies))
    ensures r.Ok? ==> forall k :: k != "allocationPolicies" ==> Field(r.value, k) == Field(doc, k)
  {
    if policies != [] then SetItem(doc, "allocationPolicies", Arr(policies)) else Ok(doc)
  }

  /** `doc[key] = int(v)` when `v` is not None; nothing otherwise. */
  function IntSetting(doc: Json, key: string, v: Value): (r: Result<Json>)
    ensures v.None? ==> r == Ok(doc)
    ensures v.Some? ==> (r.Ok? <==> doc.Obj? && IntOf(v).Ok?)
    ensures v.Some? && r.Ok? ==> r.value.Obj? && Field(r.value, key) == Some(Int(IntOf(v).value))
    ensures r.Ok? ==> forall k :: k != key ==> Field(r.value, k) == Field(doc, k)
  {
    match v
    case None => Ok(doc)
    case Some(_) =>
      var n :- IntOf(v);
      SetItem(doc, key, Int(n))
  }

  /** Sets "initialSeed" and "runs" to int() of the seed and the run when they exist, and
      "name" to the full name. */
  function SeedRunStep(doc: Json, seed: Value, run: Value, fullName: string): (r: Result<Json>)
    ensures r.Ok? <==> doc.Obj? && (seed.Some? ==> IntOf(seed).Ok?) && (run.Some? ==> IntOf(run).Ok?)
    ensures r.Ok? ==> r.value.Obj? && Field(r.value, "name") == Some(Str(fullName))
    ensures r.Ok? ==>
      Field(r.value, "initialSeed") == (if seed.Some? then Some(Int(IntOf(seed).value)) else Field(doc, "initialSeed"))
    ensures r.Ok? ==>
      Field(r.value, "runs") == (if run.Some? then Some(Int(IntOf(run).value)) else Field(doc, "runs"))
    ensures r.Ok? ==> forall k :: k != "initialSeed" && k != "runs" && k != "name" ==> Field(r.value, k) == Field(doc, k)
  {
    var d1 :- IntSetting(doc, "initialSeed", seed);
    var d2 :- IntSetting(d1, "runs", run);
    SetItem(d2, "name", Str(fullName))
  }

  /** The one checkpoint model built from the three checkpoint settings. */
  function CheckpointModel(interval: int, duration: int, scaling: real): Json
  {
    Obj([("checkpointInterval", Int(interval)), ("checkpointDuration", Int(duration)),
         ("checkpointIntervalScaling", Float(scaling))])
  }

  /** Sets "checkpointModels" to one model when interval, duration and scaling are all
      given (int(), int() and float() of them); nothing otherwise. */
  function CheckpointStep(doc: Json, interval: Value, duration: Value, scaling: Value): (r: Result<Json>)
    ensures !(interval.Some? && duration.Some? && scaling.Some?) ==> r == Ok(doc)
    ensures interval.Some? && duration.Some? && scaling.Some? ==>
      (r.Ok? <==> doc.Obj? && ParseInt(interval.value).Ok? && ParseInt(duration.value).Ok? && ParseDecimal(scaling.value).Ok?)
    ensures interval.Some? && duration.Some? && scaling.Some? && r.Ok? ==>
      Field(r.value, "checkpointModels") == Some(Arr([CheckpointModel(ParseInt(interval.value).value,
        ParseInt(duration.value).value, ParseDecimal(scaling.value).value)]))
    ensures r.Ok? ==> forall k :: k != "checkpointModels" ==> Field(r.value, k) == Field(doc, k)
  {
    if interval.Some? && duration.Some? && scaling.Some? then
      var a :- ParseInt(interval.value);
      var b :- ParseInt(duration.value);
      var c :- ParseDecimal(scaling.value);
      SetItem(doc, "checkpointModels", Arr([CheckpointModel(a, b, c)]))
    else Ok(doc)
  }

  /** `[int(mf) for mf in max_failures]` as JSON numbers. */
  function FailureCounts(maxFailures: seq<Value>): (r: Result<seq<Json>>)
    ensures r.Ok? <==> forall k :: 0 <= k < |maxFailures| ==> IntOf(maxFailures[k]).Ok?
    ensures r.Ok? ==>
      |r.value| == |maxFailures| &&
      forall k :: 0 <= k < |maxFailures| ==> r.value[k] == Int(IntOf(maxFailures[k]).value)
  {
    if maxFailures == [] then Ok([])
    else
      var n :- IntOf(maxFailures[0]);
      var rest :- FailureCounts(maxFailures[1..]);
      Ok([Int(n)] + rest)
  }

  /** Replaces "maxNumFailures" wholesale when the list is not empty; nothing otherwise. */
  function FailuresStep(doc: Json, maxFailures: seq<Value>): (r: Result<Json>)
    ensures maxFailures == [] ==> r == Ok(doc)
    ensures maxFailures != [] ==> (r.Ok? <==> doc.Obj? && FailureCounts(maxFailures).Ok?)
    ensures maxFailures != [] && r.Ok? ==> Field(r.value, "maxNumFailures") == ListField(FailureCounts(maxFailures))
    ensures r.Ok? ==> forall k :: k != "maxNumFailures" ==> Field(r.value, k) == Field(doc, k)
  {
    if maxFailures == [] then Ok(doc)
    else
      var counts :- FailureCounts(maxFailures);
      SetItem(doc, "maxNumFailures", Arr(counts))
  }

  /** The files to export, stored when truthy. */
  function FilesField(files: Json): Option<Json>
  {
    if Truthy(files) then Some(files) else None
  }

  /** The three export settings assigned, one after the other, to the fields of a model. */
  function ExportFields(fields: seq<(string, Json)>, interval: Option<Json>, freq: Option<Json>, files: Option<Json>): (r: seq<(string, Json)>)
    ensures interval.None? && freq.None? && files.None? ==> r == fields
    ensures interval.Some? || freq.Some? || files.Some? ==> r != []
  {
    PutOpt(PutOpt(PutOpt(fields, "exportInterval", interval), "printFrequency", freq), "filesToExport", files)
  }

  /** After the assignments each given setting replaces the model's own, and every other
      field is the model's own. */
  lemma ExportFieldsGet(fields: seq<(string, Json)>, interval: Option<Json>, freq: Option<Json>, files: Option<Json>, k: string)
    ensures Get(ExportFields(fields, interval, freq, files), k) ==
      if k == "filesToExport" && files.Some? then files
      else if k == "printFrequency" && freq.Some? then freq
      else if k == "exportInterval" && interval.Some? then interval
      else Get(fields, k)
  {
    var f1 := PutOpt(fields, "exportInterval", interval);
    var f2 := PutOpt(f1, "printFrequency", freq);
    PutOptGet(fields, "exportInterval", interval, k);
    PutOptGet(f1, "printFrequency", freq, k);
    PutOptGet(f2, "filesToExport", files, k);
  }

  /** The fresh export model: an object holding only the settings given. */
  function ExportEntry(interval: Option<int>, freq: Option<int>, files: Json): Json
  {
    Obj(ExportFields([], IntField(interval), IntField(freq), FilesField(files)))
  }

  /** The fresh model holds the given settings, and is empty when none is given. */
  lemma ExportEntrySettings(interval: Option<int>, freq: Option<int>, files: Json)
    ensures var r := ExportEntry(interval, freq, files);
      Field(r, "exportInterval") == IntField(interval) &&
      Field(r, "printFrequency") == IntField(freq) &&
      Field(r, "filesToExport") == FilesField(files) &&
      (Truthy(r) <==> interval.Some? || freq.Some? || Truthy(files))
  {
    ExportFieldsGet([], IntField(interval), IntField(freq), FilesField(files), "exportInterval");
    ExportFieldsGet([], IntField(interval), IntField(freq), FilesField(files), "printFrequency");
    ExportFieldsGet([], IntField(interval), IntField(freq), FilesField(files), "filesToExport");
  }

  /** The fresh model holds no field other than the three settings. */
  lemma ExportEntryOnly(interval: Option<int>, freq: Option<int>, files: Json, k: string)
    requires k != "exportInterval" && k != "printFrequency" && k != "filesToExport"
    ensures Field(ExportEntry(interval, freq, files), k) == None
  {
    ExportFieldsGet([], IntField(interval), IntField(freq), FilesField(files), k);
  }

  /** Sets the given settings on one export model, one assignment after the other; an
      assignment into a value that is not an object raises. */
  function OverlayEntry(entry: Json, interval: Option<Json>, freq: Option<Json>, files: Option<Json>): (r: Result<Json>)
    ensures interval.None? && freq.None? && files.None? ==> r == Ok(entry)
    ensures !(interval.None? && freq.None? && files.None?) ==> (r.Ok? <==> entry.Obj?)
  {
    if interval.None? && freq.None? && files.None? then Ok(entry)
    else if !entry.Obj? then Raised
    else Ok(Obj(ExportFields(entry.fields, interval, freq, files)))
  }

  /** Each given setting replaces the model's own; a setting not given leaves it. */
  lemma OverlayEntrySettings(entry: Json, interval: Option<Json>, freq: Option<Json>, files: Option<Json>)
    requires OverlayEntry(entry, interval, freq, files).Ok?
    ensures var r := OverlayEntry(entry, interval, freq, files).value;
      Field(r, "exportInterval") == (if interval.Some? then interval else Field(entry, "exportInterval")) &&
      Field(r, "printFrequency") == (if freq.Some? then freq else Field(entry, "printFrequency")) &&
      Field(r, "filesToExport") == (if files.Some? then files else Field(entry, "filesToExport"))
  {
    if !(interval.None? && freq.None? && files.None?) {
      ExportFieldsGet(entry.fields, interval, freq, files, "exportInterval");
      ExportFieldsGet(entry.fields, interval, freq, files, "printFrequency");
      ExportFieldsGet(entry.fields, interval, freq, files, "filesToExport");
    }
  }

  /** Every other field of the model is left as it was. */
  lemma OverlayEntryKeeps(entry: Json, interval: Option<Json>, freq: Option<Json>, files: Option<Json>, k: string)
    requires OverlayEntry(entry, interval, freq, files).Ok?
    requires k != "exportInterval" && k != "printFrequency" && k != "filesToExport"
    ensures Field(OverlayEntry(entry, interval, freq, files).value, k) == Field(entry, k)
  {
    if !(interval.None? && freq.None? && files.None?) {
      ExportFieldsGet(entry.fields, interval, freq, files, k);
    }
  }

  /** Sets the given settings on the first export model, in place. With a setting to
      apply, indexing a value that is not a non-empty list raises. */
  function OverlayFirst(models: Json, interval: Option<Json>, freq: Option<Json>, files: Option<Json>): (r: Result<Json>)
    ensures interval.None? && freq.None? && files.None? ==> r == Ok(models)
    ensures !(interval.None? && freq.None? && files.None?) ==>
      (r.Ok? <==> models.Arr? && models.items != [] && models.items[0].Obj?)
    ensures !(interval.None? && freq.None? && files.None?) && r.Ok? ==>
      r.value.Arr? && |r.value.items| == |models.items| && r.value.items[1..] == models.items[1..] &&
      OverlayEntry(models.items[0], interval, freq, files) == Ok(r.value.items[0])
  {
    if interval.None? && freq.None? && files.None? then Ok(models)
    else if !models.Arr? || models.items == [] then Raised
    else
      var first :- OverlayEntry(models.items[0], interval, freq, files);
      Ok(Arr([first] + models.items[1..]))
  }

  /** The export settings: overlaid on the first existing export model when the template
      has a truthy "exportModels", otherwise a single new model holding only the given
      settings, added only when there is at least one. */
  function ExportStep(doc: Json, interval: Option<int>, freq: Option<int>, files: Json): (r: Result<Json>)
    ensures r.Ok? ==> forall k :: k != "exportModels" ==> Field(r.value, k) == Field(doc, k)
  {
    var has :- In("exportModels", doc);
    var current :- if has then GetItem(doc, "exportModels") else Ok(Null);
    if has && Truthy(current) then
      var updated :- OverlayFirst(current, IntField(interval), IntField(freq), FilesField(files));
      SetItem(doc, "exportModels", updated)
    else
      var entry := ExportEntry(interval, freq, files);
      if Truthy(entry) then SetItem(doc, "exportModels", Arr([entry])) else Ok(doc)
  }

  /** The export models of the template that the overlay applies to: present and truthy. */
  predicate HasExportModels(doc: Json)
  {
    Field(doc, "exportModels").Some? && Truthy(Field(doc, "exportModels").value)
  }

  /** With truthy export models in place, the result holds them with the given settings
      overlaid on the first model, and raises exactly when the overlay does. */
  lemma ExportOverlay(doc: Json, interval: Option<int>, freq: Option<int>, files: Json)
    requires doc.Obj? && HasExportModels(doc)
    ensures var overlaid := OverlayFirst(Field(doc, "exportModels").value, IntField(interval), IntField(freq), FilesField(files));
      var r := ExportStep(doc, interval, freq, files);
      (r.Ok? <==> overlaid.Ok?) && (r.Ok? ==> Field(r.value, "exportModels") == Some(overlaid.value))
  {
  }

  /** Without truthy export models, one model holding exactly the given settings is
      stored, and nothing is stored when no setting is given. */
  lemma ExportSynthesis(doc: Json, interval: Option<int>, freq: Option<int>, files: Json)
    requires doc.Obj? && !HasExportModels(doc)
    ensures var entry := ExportEntry(interval, freq, files);
      var r := ExportStep(doc, interval, freq, files);
      r.Ok? &&
      (!Truthy(entry) ==> r.value == doc) &&
      (Truthy(entry) ==> Field(r.value, "exportModels") == Some(Arr([entry])))
  {
  }

  /** `experiment["outputFolder"] = output_folder` when it is not None. */
  function OutputStep(doc: Json, outputFolder: Value): (r: Result<Json>)
    ensures outputFolder.None? ==> r == Ok(doc)
    ensures outputFolder.Some? ==> (r.Ok? <==> doc.Obj?)
    ensures outputFolder.Some? && r.Ok? ==> Field(r.value, "outputFolder") == Some(Str(outputFolder.value))
    ensures r.Ok? ==> forall k :: k != "outputFolder" ==> Field(r.value, k) == Field(doc, k)
  {
    SetField(doc, "outputFolder", if outputFolder.Some? then Some(Str(outputFolder.value)) else None)
  }

  /** One generated experiment: its file name and its document. */
  datatype Experiment = Experiment(fileName: string, doc: Json)

  /** The policies, the checkpoint model and the failure counts, given what the policy
      loop produced. */
  function SettingsStep(d1: Json, p: Params, collected: Result<seq<Json>>): Result<Json>
  {
    var policies :- collected;
    var d2 :- PoliciesStep(d1, policies);
    var d3 :- CheckpointStep(d2, p.checkpointInterval, p.checkpointDuration, p.checkpointScaling);
    FailuresStep(d3, p.maxFailures)
  }

  /** The body of the experiment loop for index `i`, up to the save, with the policy
      variable bound to `prior` on entry. */
  function ExperimentWith(prepared: Json, p: Params, name: string, i: nat, prior: Option<Json>): Result<Experiment>
  {
    ExperimentFrom(prepared, p, name, i, PolicyRun(p.prefabTypes, prior).0)
  }

  /** The same body, given the list the policy loop produced. */
  function ExperimentFrom(prepared: Json, p: Params, name: string, i: nat, collected: Result<seq<Json>>): Result<Experiment>
  {
    var seed :- ValAt(p.seeds, i);
    var run :- ValAt(p.runs, i);
    var fullName := ExperimentName(name, seed, run);
    var d1 :- SeedRunStep(prepared, seed, run, fullName);
    var d4 :- SettingsStep(d1, p, collected);
    var interval :- ValAt(p.exportIntervals, i);
    var freq :- ValAt(p.printFrequencies, i);
    var iv :- OptionalInt(interval);
    var fv :- OptionalInt(freq);
    var d5 :- ExportStep(d4, iv, fv, p.filesToExport);
    var d6 :- OutputStep(d5, p.outputFolder);
    Ok(Experiment(FileName(fullName), d6))
  }

  /** The experiment at index `i` of a pass. */
  function ExperimentAt(prepared: Json, p: Params, name: string, i: nat): Result<Experiment>
  {
    ExperimentWith(prepared, p, name, i, None)
  }

  /** The steps of one experiment that did not raise, one after the other. */
  lemma ExperimentSteps(prepared: Json, p: Params, name: string, i: nat, prior: Option<Json>)
    returns (seed: Value, run: Value, d1: Json, policies: seq<Json>, d2: Json, d3: Json, d4: Json,
             iv: Option<int>, fv: Option<int>, d5: Json, doc: Json)
    requires ExperimentWith(prepared, p, name, i, prior).Ok?
    ensures p.seeds.Some? && p.runs.Some? && p.exportIntervals.Some? && p.printFrequencies.Some?
    ensures seed == GetVal(p.seeds.value, i) && run == GetVal(p.runs.value, i)
    ensures SeedRunStep(prepared, seed, run, ExperimentName(name, seed, run)) == Ok(d1)
    ensures PolicyRun(p.prefabTypes, prior).0 == Ok(policies)
    ensures PoliciesStep(d1, policies) == Ok(d2)
    ensures CheckpointStep(d2, p.checkpointInterval, p.checkpointDuration, p.checkpointScaling) == Ok(d3)
    ensures FailuresStep(d3, p.maxFailures) == Ok(d4)
    ensures OptionalInt(GetVal(p.exportIntervals.value, i)) == Ok(iv)
    ensures OptionalInt(GetVal(p.printFrequencies.value, i)) == Ok(fv)
    ensures ExportStep(d4, iv, fv, p.filesToExport) == Ok(d5)
    ensures OutputStep(d5, p.outputFolder) == Ok(doc)
    ensures ExperimentWith(prepared, p, name, i, prior) == Ok(Experiment(FileName(ExperimentName(name, seed, run)), doc))
  {
    seed := GetVal(p.seeds.value, i);
    run := GetVal(p.runs.value, i);
    d1 := SeedRunStep(prepared, seed, run, ExperimentName(name, seed, run)).value;
    policies := PolicyRun(p.prefabTypes, prior).0.value;
    d2 := PoliciesStep(d1, policies).value;
    d3 := CheckpointStep(d2, p.checkpointInterval, p.checkpointDuration, p.checkpointScaling).value;
    d4 := FailuresStep(d3, p.maxFailures).value;
    assert SettingsStep(d1, p, PolicyRun(p.prefabTypes, prior).0) == Ok(d4);
    iv := OptionalInt(GetVal(p.exportIntervals.value, i)).value;
    fv := OptionalInt(GetVal(p.printFrequencies.value, i)).value;
    d5 := ExportStep(d4, iv, fv, p.filesToExport).value;
    doc := OutputStep(d5, p.outputFolder).value;
  }

  /** The frames of the steps, one key at a time. */
  lemma SeedRunKeeps(doc: Json, seed: Value, run: Value, fullName: string, r: Json, k: string)
    requires SeedRunStep(doc, seed, run, fullName) == Ok(r) && k != "initialSeed" && k != "runs" && k != "name"
    ensures Field(r, k) == Field(doc, k)
  {
  }

  lemma PoliciesKeeps(doc: Json, policies: seq<Json>, r: Json, k: string)
    requires PoliciesStep(doc, policies) == Ok(r) && k != "allocationPolicies"
    ensures Field(r, k) == Field(doc, k)
  {
  }

  lemma CheckpointKeeps(doc: Json, interval: Value, duration: Value, scaling: Value, r: Json, k: string)
    requires CheckpointStep(doc, interval, duration, scaling) == Ok(r) && k != "checkpointModels"
    ensures Field(r, k) == Field(doc, k)
  {
  }

  lemma FailuresKeeps(doc: Json, maxFailures: seq<Value>, r: Json, k: string)
    requires FailuresStep(doc, maxFailures) == Ok(r) && k != "maxNumFailures"
    ensures Field(r, k) == Field(doc, k)
  {
  }

  lemma ExportKeeps(doc: Json, interval: Option<int>, freq: Option<int>, files: Json, r: Json, k: string)
    requires ExportStep(doc, interval, freq, files) == Ok(r) && k != "exportModels"
    ensures Field(r, k) == Field(doc, k)
  {
  }

  lemma OutputKeeps(doc: Json, outputFolder: Value, r: Json, k: string)
    requires OutputStep(doc, outputFolder) == Ok(r) && k != "outputFolder"
    ensures Field(r, k) == Field(doc, k)
  {
  }

  /** An experiment that did not raise is named after the pass, its seed and its run, and
      carries int() of the seed and the run where they exist. Such an experiment needs
      seed, run, export-interval and print-frequency lists and an object template. */
  lemma ExperimentNaming(prepared: Json, p: Params, name: string, i: nat)
    requires ExperimentAt(prepared, p, name, i).Ok?
    ensures p.seeds.Some? && p.runs.Some? && p.exportIntervals.Some? && p.printFrequencies.Some? && prepared.Obj?
    ensures var seed, run := GetVal(p.seeds.value, i), GetVal(p.runs.value, i);
      var e := ExperimentAt(prepared, p, name, i).value;
      e.fileName == FileName(ExperimentName(name, seed, run)) &&
      Field(e.doc, "name") == Some(Str(ExperimentName(name, seed, run))) &&
      Field(e.doc, "initialSeed") == (if seed.Some? then Some(Int(IntOf(seed).value)) else Field(prepared, "initialSeed")) &&
      Field(e.doc, "runs") == (if run.Some? then Some(Int(IntOf(run).value)) else Field(prepared, "runs"))
  {
    var seed, run, d1, policies, d2, d3, d4, iv, fv, d5, doc := ExperimentSteps(prepared, p, name, i, None);
    PoliciesKeeps(d1, policies, d2, "name");
    CheckpointKeeps(d2, p.checkpointInterval, p.checkpointDuration, p.checkpointScaling, d3, "name");
    FailuresKeeps(d3, p.maxFailures, d4, "name");
    ExportKeeps(d4, iv, fv, p.filesToExport, d5, "name");
    OutputKeeps(d5, p.outputFolder, doc, "name");
    PoliciesKeeps(d1, policies, d2, "initialSeed");
    CheckpointKeeps(d2, p.checkpointInterval, p.checkpointDuration, p.checkpointScaling, d3, "initialSeed");
    FailuresKeeps(d3, p.maxFailures, d4, "initialSeed");
    ExportKeeps(d4, iv, fv, p.filesToExport, d5, "initialSeed");
    OutputKeeps(d5, p.outputFolder, doc, "initialSeed");
    PoliciesKeeps(d1, policies, d2, "runs");
    CheckpointKeeps(d2, p.checkpointInterval, p.checkpointDuration, p.checkpointScaling, d3, "runs");
    FailuresKeeps(d3, p.maxFailures, d4, "runs");
    ExportKeeps(d4, iv, fv, p.filesToExport, d5, "runs");
    OutputKeeps(d5, p.outputFolder, doc, "runs");
  }

  /** Every experiment of a pass carries the policy list, when it is not empty: one prefab
      policy per entry of the prefab list, as the policy loop builds it. */
  lemma ExperimentPolicies(prepared: Json, p: Params, name: string, i: nat)
    requires ExperimentAt(prepared, p, name, i).Ok?
    ensures PolicyRun(p.prefabTypes, None).0.Ok?
    ensures var policies := PolicyRun(p.prefabTypes, None).0.value;
      Field(ExperimentAt(prepared, p, name, i).value.doc, "allocationPolicies") ==
        (if policies != [] then Some(Arr(policies)) else Field(prepared, "allocationPolicies"))
  {
    var seed, run, d1, policies, d2, d3, d4, iv, fv, d5, doc := ExperimentSteps(prepared, p, name, i, None);
    SeedRunKeeps(prepared, seed, run, ExperimentName(name, seed, run), d1, "allocationPolicies");
    CheckpointKeeps(d2, p.checkpointInterval, p.checkpointDuration, p.checkpointScaling, d3, "allocationPolicies");
    FailuresKeeps(d3, p.maxFailures, d4, "allocationPolicies");
    ExportKeeps(d4, iv, fv, p.filesToExport, d5, "allocationPolicies");
    OutputKeeps(d5, p.outputFolder, doc, "allocationPolicies");
  }

  /** The checkpoint model is present only when interval, duration and scaling are all
      given; the failure counts replace "maxNumFailures" only when the list is not empty. */
  lemma ExperimentCheckpointAndFailures(prepared: Json, p: Params, name: string, i: nat)
    requires ExperimentAt(prepared, p, name, i).Ok?
    ensures var doc := ExperimentAt(prepared, p, name, i).value.doc;
      if p.checkpointInterval.Some? && p.checkpointDuration.Some? && p.checkpointScaling.Some? then
        IntOf(p.checkpointInterval).Ok? && IntOf(p.checkpointDuration).Ok? && DecimalOf(p.checkpointScaling).Ok? &&
        Field(doc, "checkpointModels") == Some(Arr([CheckpointModel(IntOf(p.checkpointInterval).value,
          IntOf(p.checkpointDuration).value, DecimalOf(p.checkpointScaling).value)]))
      else Field(doc, "checkpointModels") == Field(prepared, "checkpointModels")
    ensures var doc := ExperimentAt(prepared, p, name, i).value.doc;
      if p.maxFailures != [] then
        FailureCounts(p.maxFailures).Ok? && Field(doc, "maxNumFailures") == Some(Arr(FailureCounts(p.maxFailures).value))
      else Field(doc, "maxNumFailures") == Field(prepared, "maxNumFailures")
  {
    var seed, run, d1, policies, d2, d3, d4, iv, fv, d5, doc := ExperimentSteps(prepared, p, name, i, None);
    SeedRunKeeps(prepared, seed, run, ExperimentName(name, seed, run), d1, "checkpointModels");
    PoliciesKeeps(d1, policies, d2, "checkpointModels");
    FailuresKeeps(d3, p.maxFailures, d4, "checkpointModels");
    ExportKeeps(d4, iv, fv, p.filesToExport, d5, "checkpointModels");
    OutputKeeps(d5, p.outputFolder, doc, "checkpointModels");
    SeedRunKeeps(prepared, seed, run, ExperimentName(name, seed, run), d1, "maxNumFailures");
    PoliciesKeeps(d1, policies, d2, "maxNumFailures");
    CheckpointKeeps(d2, p.checkpointInterval, p.checkpointDuration, p.checkpointScaling, d3, "maxNumFailures");
    ExportKeeps(d4, iv, fv, p.filesToExport, d5, "maxNumFailures");
    OutputKeeps(d5, p.outputFolder, doc, "maxNumFailures");
  }

  /** The export settings of index i: overlaid on the template's first export model when
      it has truthy export models, otherwise one new model holding only the given
      settings, or nothing when none is given. */
  lemma ExperimentExport(prepared: Json, p: Params, name: string, i: nat)
    requires ExperimentAt(prepared, p, name, i).Ok?
    ensures p.exportIntervals.Some? && p.printFrequencies.Some?
    ensures OptionalInt(GetVal(p.exportIntervals.value, i)).Ok? && OptionalInt(GetVal(p.printFrequencies.value, i)).Ok?
    ensures var iv := OptionalInt(GetVal(p.exportIntervals.value, i)).value;
      var fv := OptionalInt(GetVal(p.printFrequencies.value, i)).value;
      var models := Field(ExperimentAt(prepared, p, name, i).value.doc, "exportModels");
      HasExportModels(prepared) ==>
        models.Some? &&
        OverlayFirst(Field(prepared, "exportModels").value, IntField(iv), IntField(fv), FilesField(p.filesToExport)) == Ok(models.value)
    ensures var iv := OptionalInt(GetVal(p.exportIntervals.value, i)).value;
      var fv := OptionalInt(GetVal(p.printFrequencies.value, i)).value;
      var entry := ExportEntry(iv, fv, p.filesToExport);
      var models := Field(ExperimentAt(prepared, p, name, i).value.doc, "exportModels");
      !HasExportModels(prepared) ==>
        models == (if Truthy(entry) then Some(Arr([entry])) else Field(prepared, "exportModels"))
  {
    var seed, run, d1, policies, d2, d3, d4, iv, fv, d5, doc := ExperimentSteps(prepared, p, name, i, None);
    SeedRunKeeps(prepared, seed, run, ExperimentName(name, seed, run), d1, "exportModels");
    PoliciesKeeps(d1, policies, d2, "exportModels");
    CheckpointKeeps(d2, p.checkpointInterval, p.checkpointDuration, p.checkpointScaling, d3, "exportModels");
    FailuresKeeps(d3, p.maxFailures, d4, "exportModels");
    OutputKeeps(d5, p.outputFolder, doc, "exportModels");
    if HasExportModels(prepared) {
      ExportOverlay(d4, iv, fv, p.filesToExport);
    } else {
      ExportSynthesis(d4, iv, fv, p.filesToExport);
    }
  }

  /** "outputFolder" is set when an output folder is given. Every field that no step of
      the loop body assigns is the template's. */
  lemma ExperimentOutputAndOthers(prepared: Json, p: Params, name: string, i: nat, k: string)
    requires ExperimentAt(prepared, p, name, i).Ok?
    requires k !in ["initialSeed", "runs", "name", "allocationPolicies", "checkpointModels",
                    "maxNumFailures", "exportModels", "outputFolder"]
    ensures var doc := ExperimentAt(prepared, p, name, i).value.doc;
      Field(doc, "outputFolder") ==
        (if p.outputFolder.Some? then Some(Str(p.outputFolder.value)) else Field(prepared, "outputFolder"))
    ensures Field(ExperimentAt(prepared, p, name, i).value.doc, k) == Field(prepared, k)
  {
    var seed, run, d1, policies, d2, d3, d4, iv, fv, d5, doc := ExperimentSteps(prepared, p, name, i, None);
    SeedRunKeeps(prepared, seed, run, ExperimentName(name, seed, run), d1, "outputFolder");
    PoliciesKeeps(d1, policies, d2, "outputFolder");
    CheckpointKeeps(d2, p.checkpointInterval, p.checkpointDuration, p.checkpointScaling, d3, "outputFolder");
    FailuresKeeps(d3, p.maxFailures, d4, "outputFolder");
    ExportKeeps(d4, iv, fv, p.filesToExport, d5, "outputFolder");
    SeedRunKeeps(prepared, seed, run, ExperimentName(name, seed, run), d1, k);
    PoliciesKeeps(d1, policies, d2, k);
    CheckpointKeeps(d2, p.checkpointInterval, p.checkpointDuration, p.checkpointScaling, d3, k);
    FailuresKeeps(d3, p.maxFailures, d4, k);
    ExportKeeps(d4, iv, fv, p.filesToExport, d5, k);
    OutputKeeps(d5, p.outputFolder, doc, k);
  }

  /** The policy binding left by earlier experiments of a pass changes nothing: once the
      first experiment has walked the prefab list without raising, every later one
      builds the same experiment as from an empty binding. */
  lemma ExperimentWithPrior(prepared: Json, p: Params, name: string, i: nat, prior: Option<Json>)
    requires prior.None? || PolicyRun(p.prefabTypes, None).0.Ok?
    ensures ExperimentWith(prepared, p, name, i, prior) == ExperimentAt(prepared, p, name, i)
  {
    if prior.Some? {
      PolicyRunPrior(p.prefabTypes, prior);
    }
  }

  /* ---------------- a generation pass ---------------- */

  /** The record returned for each written experiment: its file name and the input lists. */
  datatype Selection = Selection(name: string, topology: Option<seq<string>>, workload: Option<seq<string>>,
                                 failures: Option<seq<string>>)

  /** What a generation pass leaves behind: the files it wrote, in order, and its selections,
      or Raised when it stopped at an exception. */
  datatype Outcome = Outcome(writes: seq<Write>, selections: Result<seq<Selection>>)

  /** save_experiment: the document goes under "experiments/". */
  function SaveOf(e: Experiment): Write
  {
    Write("experiments/" + e.fileName, e.doc)
  }

  /** The selection record of a written experiment. */
  function SelectionOf(e: Experiment, p: Params): Selection
  {
    Selection(e.fileName, p.topologies, p.workloads, p.failures)
  }

  /** The saves of the experiments, in order. */
  function SavesOf(es: seq<Experiment>): (r: seq<Write>)
    ensures |r| == |es| && forall k :: 0 <= k < |es| ==> r[k] == SaveOf(es[k])
  {
    seq(|es|, k requires 0 <= k < |es| => SaveOf(es[k]))
  }

  /** The selection records of the experiments, in order. */
  function SelectionsOf(es: seq<Experiment>, p: Params): (r: seq<Selection>)
    ensures |r| == |es| && forall k :: 0 <= k < |es| ==> r[k] == SelectionOf(es[k], p)
  {
    seq(|es|, k requires 0 <= k < |es| => SelectionOf(es[k], p))
  }

  /** One more experiment adds its save and its selection at the end. */
  lemma SavesAndSelectionsSnoc(es: seq<Experiment>, e: Experiment, p: Params)
    ensures SavesOf(es + [e]) == SavesOf(es) + [SaveOf(e)]
    ensures SelectionsOf(es + [e], p) == SelectionsOf(es, p) + [SelectionOf(e, p)]
  {
    assert forall k :: 0 <= k < |es| ==> (es + [e])[k] == es[k];
  }

  /** The loop body at every index of a pass. */
  function PassSteps(prepared: Json, p: Params, name: string): (r: seq<Result<Experiment>>)
    ensures |r| == ExperimentCount(p)
    ensures forall i :: 0 <= i < |r| ==> r[i] == ExperimentAt(prepared, p, name, i)
  {
    seq(ExperimentCount(p), i requires 0 <= i < ExperimentCount(p) => ExperimentAt(prepared, p, name, i))
  }

  /** generate_experiments: the writes and selections of one pass over `base`. */
  function Generated(name: string, base: Json, p: Params): Outcome
  {
    match PreparedBase(base, p)
    case Raised => Outcome([], Raised)
    case Ok(prepared) =>
      var run := RunUntilRaise(PassSteps(prepared, p, name));
      Outcome(SavesOf(run.done), if run.raised then Raised else Ok(SelectionsOf(run.done, p)))
  }

  /** A pass that completes writes max_length experiments and returns one selection per
      written file, naming it and holding the input lists; it completes exactly when the
      template can be prepared and every experiment of the pass can be built. */
  lemma GeneratedSpec(name: string, base: Json, p: Params)
    ensures var o := Generated(name, base, p);
      o.selections.Ok? <==>
        PreparedBase(base, p).Ok? &&
        forall i :: 0 <= i < ExperimentCount(p) ==> ExperimentAt(PreparedBase(base, p).value, p, name, i).Ok?
    ensures var o := Generated(name, base, p);
      o.selections.Ok? ==>
        |o.writes| == |o.selections.value| == ExperimentCount(p) &&
        forall k :: 0 <= k < |o.writes| ==>
          o.writes[k].path == "experiments/" + o.selections.value[k].name &&
          o.selections.value[k].topology == p.topologies && o.selections.value[k].workload == p.workloads &&
          o.selections.value[k].failures == p.failures
    ensures var o := Generated(name, base, p);
      forall k :: 0 <= k < |o.writes| ==>
        PreparedBase(base, p).Ok? && ExperimentAt(PreparedBase(base, p).value, p, name, k).Ok? &&
        o.writes[k] == SaveOf(ExperimentAt(PreparedBase(base, p).value, p, name, k).value)
  {
    if PreparedBase(base, p).Ok? {
      var prepared := PreparedBase(base, p).value;
      var steps := PassSteps(prepared, p, name);
      var run := RunUntilRaise(steps);
      forall k | 0 <= k < |run.done|
        ensures ExperimentAt(prepared, p, name, k) == Ok(run.done[k])
      {
        assert steps[k] == Ok(run.done[k]);
      }
      if !run.raised {
        forall i | 0 <= i < ExperimentCount(p)
          ensures ExperimentAt(prepared, p, name, i).Ok?
        {
          assert steps[i] == Ok(run.done[i]);
        }
      } else {
        assert steps[|run.done|].Raised?;
      }
    }
  }

  /** A written experiment's file is named after the pass and the seed and run at its index. */
  lemma GeneratedNames(name: string, base: Json, p: Params, k: nat)
    requires k < |Generated(name, base, p).writes|
    ensures p.seeds.Some? && p.runs.Some?
    ensures Generated(name, base, p).writes[k].path ==
      "experiments/" + FileName(ExperimentName(name, GetVal(p.seeds.value, k), GetVal(p.runs.value, k)))
  {
    GeneratedSpec(name, base, p);
    ExperimentNaming(PreparedBase(base, p).value, p, name, k);
  }

  /** The policy loop of one experiment, with the policy variable bound to `prior` on entry. */
  method CollectPolicies(prefabs: seq<Value>, prior: Option<Json>) returns (policies: Result<seq<Json>>, policy: Option<Json>)
    ensures policies == PolicyRun(prefabs, prior).0
    ensures policies.Ok? ==> policy == PolicyRun(prefabs, prior).1
  {
    var acc: seq<Json> := [];
    policy := prior;
    var idx := 0;
    while idx < |prefabs|
      invariant 0 <= idx <= |prefabs|
      invariant PolicyRun(prefabs[..idx], prior) == (Ok(acc), policy)
    {
      assert prefabs[..idx + 1][..idx] == prefabs[..idx];
      var policyType := GetVal(prefabs, idx);
      if IsTruthy(policyType) {
        policy := Some(PrefabPolicy(policyType.value));
      }
      if policy.None? {
        PolicyRunRaisedPrefix(prefabs, idx + 1, prior);
        return Raised, policy;
      }
      acc := acc + [policy.value];
      idx := idx + 1;
    }
    assert prefabs[..idx] == prefabs;
    policies := Ok(acc);
  }

  /** Once the policy loop raises on a prefix of the list, it raises on the whole list. */
  lemma {:induction false} PolicyRunRaisedPrefix(prefabs: seq<Value>, n: nat, prior: Option<Json>)
    requires n <= |prefabs| && PolicyRun(prefabs[..n], prior).0.Raised?
    ensures PolicyRun(prefabs, prior).0.Raised?
  {
    if n < |prefabs| {
      var init := prefabs[..|prefabs| - 1];
      assert init[..n] == prefabs[..n];
      PolicyRunRaisedPrefix(init, n, prior);
    } else {
      assert prefabs[..n] == prefabs;
    }
  }

  /** Builds the full name and assigns the seed, the run and the name into the experiment. */
  method NameExperiment(doc: Json, name: string, seed: Value, run: Value) returns (r: Result<Json>, fullName: string)
    ensures r == SeedRunStep(doc, seed, run, ExperimentName(name, seed, run))
    ensures r.Ok? ==> fullName == ExperimentName(name, seed, run)
  {
    var experiment := doc;
    fullName := name;
    r := Raised;
    if seed.Some? {
      fullName := fullName + ("_s" + seed.value);
      experiment :- IntSetting(experiment, "initialSeed", seed);
    }
    if run.Some? {
      fullName := fullName + ("_r" + run.value);
      experiment :- IntSetting(experiment, "runs", run);
    }
    r := SetItem(experiment, "name", Str(fullName));
  }

  /** Assigns the policies, the checkpoint model and the failure counts; also returns the
      policy variable as the policy loop leaves it. */
  method AddSettings(doc: Json, p: Params, prior: Option<Json>) returns (r: Result<Json>, policy: Option<Json>)
    ensures r == SettingsStep(doc, p, PolicyRun(p.prefabTypes, prior).0)
    ensures r.Ok? ==> PolicyRun(p.prefabTypes, prior).0.Ok? && policy == PolicyRun(p.prefabTypes, prior).1
  {
    var collected;
    collected, policy := CollectPolicies(p.prefabTypes, prior);
    var policies :- collected;
    var experiment :- PoliciesStep(doc, policies);
    var withCheckpoint := AddCheckpoint(experiment, p.checkpointInterval, p.checkpointDuration, p.checkpointScaling);
    experiment :- withCheckpoint;
    if p.maxFailures != [] {
      var counts :- FailureCounts(p.maxFailures);
      experiment :- SetItem(experiment, "maxNumFailures", Arr(counts));
    }
    r := Ok(experiment);
  }

  /** Assigns the checkpoint model when interval, duration and scaling are all given. */
  method AddCheckpoint(doc: Json, interval: Value, duration: Value, scaling: Value) returns (r: Result<Json>)
    ensures r == CheckpointStep(doc, interval, duration, scaling)
  {
    r := Ok(doc);
    if interval.Some? && duration.Some? && scaling.Some? {
      var a :- IntOf(interval);
      var b :- IntOf(duration);
      var c :- DecimalOf(scaling);
      r := SetItem(doc, "checkpointModels", Arr([CheckpointModel(a, b, c)]));
    }
  }

  /** Assigns the export settings: into the first existing export model, or as a new one. */
  method AddExport(doc: Json, interval: Option<int>, freq: Option<int>, files: Json) returns (r: Result<Json>)
    ensures r == ExportStep(doc, interval, freq, files)
  {
    var has :- In("exportModels", doc);
    var current :- if has then GetItem(doc, "exportModels") else Ok(Null);
    if has && Truthy(current) {
      var updated :- OverlayFirst(current, IntField(interval), IntField(freq), FilesField(files));
      r := SetItem(doc, "exportModels", updated);
    } else {
      var entry := ExportEntry(interval, freq, files);
      if Truthy(entry) {
        r := SetItem(doc, "exportModels", Arr([entry]));
      } else {
        r := Ok(doc);
      }
    }
  }

  /** The body of the experiment loop, up to the save; it also returns the policy
      variable as the loop leaves it. */
  method BuildExperiment(prepared: Json, p: Params, name: string, i: nat, prior: Option<Json>)
    returns (r: Result<Experiment>, policy: Option<Json>)
    ensures r == ExperimentWith(prepared, p, name, i, prior)
    ensures r.Ok? ==> PolicyRun(p.prefabTypes, prior).0.Ok? && policy == PolicyRun(p.prefabTypes, prior).1
  {
    policy := prior;
    var seedResult := ValAt(p.seeds, i);
    var seed :- seedResult;
    var runResult := ValAt(p.runs, i);
    var run :- runResult;
    var named, fullName := NameExperiment(prepared, name, seed, run);
    var experiment :- named;
    var withSettings;
    withSettings, policy := AddSettings(experiment, p, policy);
    experiment :- withSettings;
    var intervalResult := ValAt(p.exportIntervals, i);
    var interval :- intervalResult;
    var freqResult := ValAt(p.printFrequencies, i);
    var freq :- freqResult;
    var iv :- OptionalInt(interval);
    var fv :- OptionalInt(freq);
    var withExport := AddExport(experiment, iv, fv, p.filesToExport);
    experiment :- withExport;
    if p.outputFolder.Some? {
      experiment :- SetItem(experiment, "outputFolder", Str(p.outputFolder.value));
    }
    r := Ok(Experiment(FileName(fullName), experiment));
  }

  /** generate_experiments: prepares the template, then builds and saves one experiment per
      index, collecting the selections, until the last index or the first exception. */
  method GenerateExperiments(name: string, base: Json, p: Params) returns (o: Outcome)
    ensures o == Generated(name, base, p)
  {
    var preparedResult := PreparedBase(base, p);
    if preparedResult.Raised? {
      return Outcome([], Raised);
    }
    var prepared := preparedResult.value;
    ghost var steps := PassSteps(prepared, p, name);
    var maxLength := ExperimentCount(p);
    var writes: seq<Write> := [];
    var selections: seq<Selection> := [];
    ghost var done: seq<Experiment> := [];
    var policy: Option<Json> := None;
    var i := 0;
    while i < maxLength
      invariant 0 <= i <= maxLength
      invariant RunUntilRaise(steps[..i]) == Run(done, false)
      invariant writes == SavesOf(done) && selections == SelectionsOf(done, p)
      invariant i == 0 ==> policy.None?
      invariant i > 0 ==> PolicyRun(p.prefabTypes, None).0.Ok? && policy == PolicyRun(p.prefabTypes, None).1
    {
      var r, bound := GenerateOne(prepared, p, name, i, policy, steps, done);
      if r.Raised? {
        return Outcome(writes, Raised);
      }
      policy := bound;
      SavesAndSelectionsSnoc(done, r.value, p);
      writes := writes + [SaveOf(r.value)];
      selections := selections + [SelectionOf(r.value, p)];
      done := done + [r.value];
      i := i + 1;
    }
    assert steps[..i] == steps;
    o := Outcome(writes, Ok(selections));
  }

  /** The loop body at index i of a pass, with the policy variable as the earlier
      iterations left it. */
  method GenerateOne(prepared: Json, p: Params, name: string, i: nat, policy: Option<Json>,
                     ghost steps: seq<Result<Experiment>>, ghost done: seq<Experiment>)
    returns (r: Result<Experiment>, bound: Option<Json>)
    requires steps == PassSteps(prepared, p, name) && i < |steps|
    requires RunUntilRaise(steps[..i]) == Run(done, false)
    requires i == 0 ==> policy.None?
    requires i > 0 ==> PolicyRun(p.prefabTypes, None).0.Ok? && policy == PolicyRun(p.prefabTypes, None).1
    ensures r.Raised? ==> RunUntilRaise(steps) == Run(done, true)
    ensures r.Ok? ==> RunUntilRaise(steps[..i + 1]) == Run(done + [r.value], false)
    ensures r.Ok? ==> PolicyRun(p.prefabTypes, None).0.Ok? && bound == PolicyRun(p.prefabTypes, None).1
  {
    r, bound := BuildExperiment(prepared, p, name, i, policy);
    ExperimentWithPrior(prepared, p, name, i, policy);
    RunUntilRaiseStep(steps, i, done);
    if r.Ok? && i > 0 && p.prefabTypes != [] {
      PolicyRunPrior(p.prefabTypes, policy);
    }
  }

  /* ---------------- grouping by topology folder ---------------- */

  /** Topologies grouped under their folder prefix: (prefix, topologies) pairs in the
      order the dict keeps its keys. */
  type Groups = seq<(string, seq<string>)>

  /** The prefixes of the groups, in order. */
  function GroupKeys(groups: Groups): (r: seq<string>)
    ensures |r| == |groups| && forall j :: 0 <= j < |groups| ==> r[j] == groups[j].0
  {
    seq(|groups|, j requires 0 <= j < |groups| => groups[j].0)
  }

  /** `grouped.setdefault(key, []).append(topo)`. */
  function AddToGroup(groups: Groups, key: string, topo: string): Groups
  {
    if groups == [] then [(key, [topo])]
    else if groups[0].0 == key then [(key, groups[0].1 + [topo])] + groups[1..]
    else [groups[0]] + AddToGroup(groups[1..], key, topo)
  }

  /** A new key opens a new group at the end. */
  lemma {:induction false} AddToGroupAbsent(groups: Groups, key: string, topo: string)
    requires forall j :: 0 <= j < |groups| ==> groups[j].0 != key
    ensures AddToGroup(groups, key, topo) == groups + [(key, [topo])]
  {
    if groups != [] {
      AddToGroupAbsent(groups[1..], key, topo);
      assert groups == [groups[0]] + groups[1..];
    }
  }

  /** An existing key, first held by group i, gets the topology appended to that group,
      which stays where it is. */
  lemma {:induction false} AddToGroupAt(groups: Groups, i: nat, topo: string)
    requires i < |groups|
    requires forall j :: 0 <= j < i ==> groups[j].0 != groups[i].0
    ensures AddToGroup(groups, groups[i].0, topo) ==
      groups[..i] + [(groups[i].0, groups[i].1 + [topo])] + groups[i + 1..]
  {
    if i > 0 {
      var rest := groups[1..];
      assert rest[i - 1] == groups[i];
      AddToGroupAt(rest, i - 1, topo);
      assert rest[..i - 1] == groups[1..i] && rest[i..] == groups[i + 1..];
      assert groups[..i] == [groups[0]] + groups[1..i];
    }
  }

  /** The loop over the topologies that fills the groups. */
  function Grouped(topos: seq<string>, keyOf: string -> string): Groups
  {
    if topos == [] then []
    else
      var last := topos[|topos| - 1];
      AddToGroup(Grouped(topos[..|topos| - 1], keyOf), keyOf(last), last)
  }

  /** The group prefix of every topology, in order. */
  function Prefixes(topos: seq<string>, keyOf: string -> string): (r: seq<string>)
    ensures |r| == |topos| && forall j :: 0 <= j < |topos| ==> r[j] == keyOf(topos[j])
  {
    seq(|topos|, j requires 0 <= j < |topos| => keyOf(topos[j]))
  }

  /** The distinct elements of a list in the order of their first occurrence. */
  function FirstSeen(xs: seq<string>): seq<string>
  {
    if xs == [] then []
    else
      var prev := FirstSeen(xs[..|xs| - 1]);
      if xs[|xs| - 1] in prev then prev else prev + [xs[|xs| - 1]]
  }

  /** The topologies whose prefix is `key`, in their original order. */
  function WithPrefix(topos: seq<string>, keyOf: string -> string, key: string): seq<string>
  {
    if topos == [] then []
    else
      var last := topos[|topos| - 1];
      WithPrefix(topos[..|topos| - 1], keyOf, key) + (if keyOf(last) == key then [last] else [])
  }

  lemma WithPrefixSnoc(init: seq<string>, last: string, keyOf: string -> string, key: string)
    ensures WithPrefix(init + [last], keyOf, key) ==
      WithPrefix(init, keyOf, key) + (if keyOf(last) == key then [last] else [])
  {
    assert (init + [last])[..|init|] == init;
  }

  lemma FirstSeenPrefixesSnoc(init: seq<string>, last: string, keyOf: string -> string)
    ensures var prev := FirstSeen(Prefixes(init, keyOf));
      FirstSeen(Prefixes(init + [last], keyOf)) ==
        if keyOf(last) in prev then prev else prev + [keyOf(last)]
  {
    assert Prefixes(init + [last], keyOf)[..|init|] == Prefixes(init, keyOf);
  }

  /** The groups of a list of topologies: one per distinct prefix, in the order the
      prefixes are first seen, each holding exactly the topologies with its prefix in
      their order; a prefix without a group has no topology. */
  ghost predicate GroupsOf(groups: Groups, topos: seq<string>, keyOf: string -> string)
  {
    (forall a, b :: 0 <= a < b < |groups| ==> groups[a].0 != groups[b].0) &&
    GroupKeys(groups) == FirstSeen(Prefixes(topos, keyOf)) &&
    (forall j :: 0 <= j < |groups| ==> groups[j].1 == WithPrefix(topos, keyOf, groups[j].0)) &&
    (forall k :: k !in GroupKeys(groups) ==> WithPrefix(topos, keyOf, k) == [])
  }

  lemma ReplacedAt<T>(s: seq<T>, i: nat, x: T)
    requires i < |s|
    ensures var r := s[..i] + [x] + s[i + 1..];
      |r| == |s| && r[i] == x && forall j :: 0 <= j < |s| && j != i ==> r[j] == s[j]
  {
  }

  /** A topology whose prefix already has a group joins that group. */
  lemma GroupsOfExisting(g: Groups, init: seq<string>, last: string, keyOf: string -> string)
    requires GroupsOf(g, init, keyOf) && keyOf(last) in GroupKeys(g)
    ensures GroupsOf(AddToGroup(g, keyOf(last), last), init + [last], keyOf)
  {
    var key := keyOf(last);
    var topos := init + [last];
    var i :| 0 <= i < |g| && GroupKeys(g)[i] == key;
    AddToGroupAt(g, i, last);
    var r := AddToGroup(g, key, last);
    ReplacedAt(g, i, (key, g[i].1 + [last]));
    assert GroupKeys(r) == GroupKeys(g);
    FirstSeenPrefixesSnoc(init, last, keyOf);
    forall j | 0 <= j < |r|
      ensures r[j].1 == WithPrefix(topos, keyOf, r[j].0)
    {
      WithPrefixSnoc(init, last, keyOf, r[j].0);
    }
    forall k | k !in GroupKeys(r)
      ensures WithPrefix(topos, keyOf, k) == []
    {
      WithPrefixSnoc(init, last, keyOf, k);
    }
  }

  /** A topology with a new prefix opens a group of its own at the end. */
  lemma GroupsOfNew(g: Groups, init: seq<string>, last: string, keyOf: string -> string)
    requires GroupsOf(g, init, keyOf) && keyOf(last) !in GroupKeys(g)
    ensures GroupsOf(AddToGroup(g, keyOf(last), last), init + [last], keyOf)
  {
    var key := keyOf(last);
    var topos := init + [last];
    AddToGroupAbsent(g, key, last);
    var r := AddToGroup(g, key, last);
    assert GroupKeys(r) == GroupKeys(g) + [key];
    FirstSeenPrefixesSnoc(init, last, keyOf);
    forall j | 0 <= j < |r|
      ensures r[j].1 == WithPrefix(topos, keyOf, r[j].0)
    {
      WithPrefixSnoc(init, last, keyOf, r[j].0);
    }
    forall k | k !in GroupKeys(r)
      ensures WithPrefix(topos, keyOf, k) == []
    {
      WithPrefixSnoc(init, last, keyOf, k);
    }
  }

  /** The grouping loop builds the groups of its topologies. */
  lemma {:induction false} GroupedSpec(topos: seq<string>, keyOf: string -> string)
    ensures GroupsOf(Grouped(topos, keyOf), topos, keyOf)
  {
    if topos != [] {
      var init := topos[..|topos| - 1];
      var last := topos[|topos| - 1];
      GroupedSpec(init, keyOf);
      assert topos == init + [last];
      if keyOf(last) in GroupKeys(Grouped(init, keyOf)) {
        GroupsOfExisting(Grouped(init, keyOf), init, last, keyOf);
      } else {
        GroupsOfNew(Grouped(init, keyOf), init, last, keyOf);
      }
    }
  }

  /** The grouping loop: fills the groups one topology at a time. */
  method GroupTopologies(topos: seq<string>) returns (groups: Groups)
    ensures groups == Grouped(topos, TopologyGroupPrefix)
  {
    groups := [];
    var i := 0;
    while i < |topos|
      invariant 0 <= i <= |topos|
      invariant groups == Grouped(topos[..i], TopologyGroupPrefix)
    {
      assert topos[..i + 1][..i] == topos[..i];
      var key := TopologyGroupPrefix(topos[i]);
      groups := AddToGroup(groups, key, topos[i]);
      i := i + 1;
    }
    assert topos[..i] == topos;
  }

  /* ---------------- update_experiment_values ---------------- */

  /** The arguments of update_experiment_values. Loading the template file is I/O: the
      request says whether a template was named and, if so, the document read from it, or
      None when reading or parsing it failed. */
  datatype Request = Request(templateNamed: bool, loaded: Option<Json>, name: Value, groupByFolder: bool, p: Params)

  /** `name or base_experiment.get("name", "custom_experiment")`, as the text the pass
      names its experiments with. */
  function BaseName(name: Value, base: Json): (r: Result<string>)
    ensures IsTruthy(name) ==> r == Ok(name.value)
    ensures !IsTruthy(name) ==> (r.Ok? <==> base.Obj?)
    ensures !IsTruthy(name) && base.Obj? && Field(base, "name").None? ==> r == Ok("custom_experiment")
    ensures !IsTruthy(name) && Field(base, "name").Some? ==> r == Ok(Display(Field(base, "name").value))
  {
    if IsTruthy(name) then Ok(name.value)
    else if !base.Obj? then Raised
    else
      match Field(base, "name")
      case Some(v) => Ok(Display(v))
      case None => Ok("custom_experiment")
  }

  /** The parameters of the pass over one group: its topologies replace the list. */
  function GroupParams(p: Params, topos: seq<string>): Params
  {
    p.(topologies := Some(topos))
  }

  /** The pass over each group, named "<prefix>/<base name>". */
  function GroupOutcomes(groups: Groups, baseName: string, base: Json, p: Params): (r: seq<Outcome>)
    ensures |r| == |groups|
  {
    seq(|groups|, j requires 0 <= j < |groups| => Generated(groups[j].0 + "/" + baseName, base, GroupParams(p, groups[j].1)))
  }

  /** Passes run one after the other: their writes and selections are concatenated, and
      an exception ends the whole run. */
  function Concat(outs: seq<Outcome>): Outcome
  {
    if outs == [] then Outcome([], Ok([]))
    else
      var prev := Concat(outs[..|outs| - 1]);
      var o := outs[|outs| - 1];
      if prev.selections.Raised? then prev
      else
        Outcome(prev.writes + o.writes,
                if o.selections.Raised? then Raised else Ok(prev.selections.value + o.selections.value))
  }

  /** Passes that complete with n selections and n writes each give |outs| * n of both. */
  lemma {:induction false} ConcatCount(outs: seq<Outcome>, n: nat)
    requires Concat(outs).selections.Ok?
    requires forall j :: 0 <= j < |outs| && outs[j].selections.Ok? ==>
      |outs[j].writes| == n && |outs[j].selections.value| == n
    ensures |Concat(outs).writes| == |outs| * n && |Concat(outs).selections.value| == |outs| * n
  {
    if outs != [] {
      var init := outs[..|outs| - 1];
      ConcatCount(init, n);
    }
  }

  /** One more pass after passes that completed. */
  lemma ConcatSnoc(outs: seq<Outcome>, j: nat, writes: seq<Write>, selections: seq<Selection>)
    requires j < |outs| && Concat(outs[..j]) == Outcome(writes, Ok(selections))
    ensures Concat(outs[..j + 1]) ==
      Outcome(writes + outs[j].writes,
              if outs[j].selections.Raised? then Raised else Ok(selections + outs[j].selections.value))
  {
    assert outs[..j + 1][..j] == outs[..j];
  }

  /** Once a pass raises, the later passes add nothing. */
  lemma {:induction false} ConcatRaised(outs: seq<Outcome>, m: nat)
    requires m <= |outs| && Concat(outs[..m]).selections.Raised?
    ensures Concat(outs) == Concat(outs[..m])
  {
    if m < |outs| {
      var init := outs[..|outs| - 1];
      assert init[..m] == outs[..m];
      ConcatRaised(init, m);
    } else {
      assert outs[..m] == outs;
    }
  }

  /** A pass that completes writes and selects max_length experiments. */
  lemma GeneratedCount(name: string, base: Json, p: Params)
    requires Generated(name, base, p).selections.Ok?
    ensures |Generated(name, base, p).writes| == ExperimentCount(p)
    ensures |Generated(name, base, p).selections.value| == ExperimentCount(p)
  {
    GeneratedSpec(name, base, p);
  }

  /** Grouped passes that all complete select max_length experiments per group, and
      write one file per selection. */
  lemma GroupPassesCount(groups: Groups, baseName: string, base: Json, p: Params)
    requires Concat(GroupOutcomes(groups, baseName, base, p)).selections.Ok?
    ensures |Concat(GroupOutcomes(groups, baseName, base, p)).selections.value| == |groups| * ExperimentCount(p)
    ensures |Concat(GroupOutcomes(groups, baseName, base, p)).writes| == |groups| * ExperimentCount(p)
  {
    var outs := GroupOutcomes(groups, baseName, base, p);
    forall j | 0 <= j < |outs| && outs[j].selections.Ok?
      ensures |outs[j].writes| == ExperimentCount(p) && |outs[j].selections.value| == ExperimentCount(p)
    {
      var q := GroupParams(p, groups[j].1);
      GeneratedCount(groups[j].0 + "/" + baseName, base, q);
      assert ExperimentCount(q) == ExperimentCount(p);
    }
    ConcatCount(outs, ExperimentCount(p));
  }

  /** Grouping is on and there are topologies. */
  predicate Grouping(req: Request)
  {
    req.groupByFolder && req.p.topologies.Some? && req.p.topologies.value != []
  }

  /** The template the passes start from: the loaded document, or an empty object when
      no template is named. */
  function BaseOf(req: Request): Json
    requires !(req.templateNamed && req.loaded.None?)
  {
    if req.templateNamed then req.loaded.value else Obj([])
  }

  /** update_experiment_values: the writes and the selections of every pass. */
  function Updated(req: Request): Outcome
  {
    if req.templateNamed && req.loaded.None? then Outcome([], Ok([]))
    else
      var base := BaseOf(req);
      match BaseName(req.name, base)
      case Raised => Outcome([], Raised)
      case Ok(baseName) =>
        if Grouping(req) then Concat(GroupOutcomes(Grouped(req.p.topologies.value, TopologyGroupPrefix), baseName, base, req.p))
        else Generated(baseName, base, req.p)
  }

  /** A template that cannot be loaded yields no files and no selections. */
  lemma UpdatedLoadFailure(req: Request)
    requires req.templateNamed && req.loaded.None?
    ensures Updated(req).writes == [] && Updated(req).selections == Ok([])
  {
  }

  /** With grouping on, a run that completes makes one pass per distinct topology folder
      prefix, so it selects max_length experiments per prefix. Without grouping it is the
      single pass over all topologies under the base name. */
  lemma UpdatedSpec(req: Request)
    requires !(req.templateNamed && req.loaded.None?)
    ensures Grouping(req) && Updated(req).selections.Ok? ==>
      BaseName(req.name, BaseOf(req)).Ok? &&
      |Updated(req).selections.value| == |FirstSeen(Prefixes(req.p.topologies.value, TopologyGroupPrefix))| * ExperimentCount(req.p)
    ensures !Grouping(req) && BaseName(req.name, BaseOf(req)).Ok? ==>
      Updated(req) == Generated(BaseName(req.name, BaseOf(req)).value, BaseOf(req), req.p)
  {
    if Grouping(req) && Updated(req).selections.Ok? {
      var topos := req.p.topologies.value;
      GroupedSpec(topos, TopologyGroupPrefix);
      assert |Grouped(topos, TopologyGroupPrefix)| == |FirstSeen(Prefixes(topos, TopologyGroupPrefix))|;
      GroupPassesCount(Grouped(topos, TopologyGroupPrefix), BaseName(req.name, BaseOf(req)).value, BaseOf(req), req.p);
    }
  }

  /** The loop over the groups: one generation pass per group, stopping at the first
      pass that raises. */
  method GeneratePerGroup(groups: Groups, baseName: string, base: Json, p: Params) returns (o: Outcome)
    ensures o == Concat(GroupOutcomes(groups, baseName, base, p))
  {
    ghost var outs := GroupOutcomes(groups, baseName, base, p);
    var writes: seq<Write> := [];
    var selections: seq<Selection> := [];
    var j := 0;
    while j < |groups|
      invariant 0 <= j <= |groups|
      invariant Concat(outs[..j]) == Outcome(writes, Ok(selections))
    {
      var raised;
      writes, selections, raised := GenerateGroup(groups, j, baseName, base, p, outs, writes, selections);
      if raised {
        ConcatRaised(outs, j + 1);
        return Outcome(writes, Raised);
      }
      j := j + 1;
    }
    assert outs[..j] == outs;
    o := Outcome(writes, Ok(selections));
  }

  /** The pass over group j, added to the writes and selections of the groups before it. */
  method GenerateGroup(groups: Groups, j: nat, baseName: string, base: Json, p: Params, ghost outs: seq<Outcome>,
                       writes: seq<Write>, selections: seq<Selection>)
    returns (nextWrites: seq<Write>, nextSelections: seq<Selection>, raised: bool)
    requires outs == GroupOutcomes(groups, baseName, base, p) && j < |groups|
    requires Concat(outs[..j]) == Outcome(writes, Ok(selections))
    ensures Concat(outs[..j + 1]) == Outcome(nextWrites, if raised then Raised else Ok(nextSelections))
  {
    var pass := GenerateExperiments(groups[j].0 + "/" + baseName, base, GroupParams(p, groups[j].1));
    ConcatSnoc(outs, j, writes, selections);
    nextWrites := writes + pass.writes;
    raised := pass.selections.Raised?;
    nextSelections := if raised then selections else selections + pass.selections.value;
  }

  /** update_experiment_values: takes the loaded template, works out the base name, then
      runs one generation pass per topology group, or a single pass, collecting every
      selection. */
  method UpdateExperimentValues(req: Request) returns (o: Outcome)
    ensures o == Updated(req)
  {
    var base: Json;
    if req.templateNamed {
      if req.loaded.None? {
        return Outcome([], Ok([]));
      }
      base := req.loaded.value;
    } else {
      base := Obj([]);
    }
    var nameResult := BaseName(req.name, base);
    if nameResult.Raised? {
      return Outcome([], Raised);
    }
    if req.groupByFolder && req.p.topologies.Some? && req.p.topologies.value != [] {
      var groups := GroupTopologies(req.p.topologies.value);
      o := GeneratePerGroup(groups, nameResult.value, base, req.p);
    } else {
      o := GenerateExperiments(nameResult.value, base, req.p);
    }
  }
}
