/** The topology generator: expands value axes into variants, index-aligned or as a
    de-duplicated cartesian product, overlays each variant on a copy of a base
    topology document, and saves it under a path derived from the variant. */
module TopologyGenerator {
  import opened Wrappers
  import opened Strings
  import opened Json
  import opened Paths
  import opened Utils

  /** The values one generated topology is built from (the arguments of build_one_topology). */
  datatype Variant = Variant(
    coreCount: Value, coreSpeed: Value, memorySize: Value,
    carbon: Value, noH: Value,
    batteryCapacity: Value, startingCI: Value, chargingSpeed: Value, expectedLifetime: Value)

  /** The value lists of update_topology_values; a list passed as None is given as []. */
  datatype Axes = Axes(
    carbon: seq<Value>, noH: seq<Value>, batteryCapacity: seq<Value>, startingCI: seq<Value>,
    chargingSpeed: seq<Value>, expectedLifetime: seq<Value>,
    coreCount: seq<Value>, coreSpeed: seq<Value>, memorySize: seq<Value>)

  /** The settings shared by all variants. */
  datatype Options = Options(
    includeBattery: bool, name: Value,
    powerModelType: Value, powerModelIdle: Value, powerModelMax: Value, powerModelPower: Value,
    addPowerModel: bool)

  /** The keys of the `inputs` dictionary of the cartesian mode. */
  datatype Axis = Carbon | HostCount | BatteryCapacity | StartingCI | ChargingSpeed
                | ExpectedLifetime | CoreCount | CoreSpeed | MemorySize

  /** The keys in the order the `inputs` dictionary lists them. */
  const AxisOrder: seq<Axis> :=
    [Carbon, HostCount, BatteryCapacity, StartingCI, ChargingSpeed, ExpectedLifetime, CoreCount, CoreSpeed, MemorySize]

  function AxisList(axes: Axes, k: Axis): seq<Value>
  {
    match k
    case Carbon => axes.carbon
    case HostCount => axes.noH
    case BatteryCapacity => axes.batteryCapacity
    case StartingCI => axes.startingCI
    case ChargingSpeed => axes.chargingSpeed
    case ExpectedLifetime => axes.expectedLifetime
    case CoreCount => axes.coreCount
    case CoreSpeed => axes.coreSpeed
    case MemorySize => axes.memorySize
  }

  function AxisValue(v: Variant, k: Axis): Value
  {
    match k
    case Carbon => v.carbon
    case HostCount => v.noH
    case BatteryCapacity => v.batteryCapacity
    case StartingCI => v.startingCI
    case ChargingSpeed => v.chargingSpeed
    case ExpectedLifetime => v.expectedLifetime
    case CoreCount => v.coreCount
    case CoreSpeed => v.coreSpeed
    case MemorySize => v.memorySize
  }

  /* ---------------- index-aligned mode ---------------- */

  /** max_len: the longest of the lists other than the expected-lifetime list, and at least 1. */
  function AlignedCount(axes: Axes): (n: nat)
    ensures n >= 1
    ensures n >= |axes.coreCount| && n >= |axes.coreSpeed| && n >= |axes.memorySize| && n >= |axes.carbon|
    ensures n >= |axes.noH| && n >= |axes.batteryCapacity| && n >= |axes.startingCI| && n >= |axes.chargingSpeed|
    ensures n == 1 || n == |axes.coreCount| || n == |axes.coreSpeed| || n == |axes.memorySize| || n == |axes.carbon|
      || n == |axes.noH| || n == |axes.batteryCapacity| || n == |axes.startingCI| || n == |axes.chargingSpeed|
  {
    var lens := [|axes.coreCount|, |axes.coreSpeed|, |axes.memorySize|, |axes.carbon|, |axes.noH|,
                 |axes.batteryCapacity|, |axes.startingCI|, |axes.chargingSpeed|];
    var m := MaxOf(lens, 1);
    assert lens[0] <= m && lens[1] <= m && lens[2] <= m && lens[3] <= m;
    assert lens[4] <= m && lens[5] <= m && lens[6] <= m && lens[7] <= m;
    m
  }

  /** The expected-lifetime list does not count towards the number of aligned variants. */
  lemma AlignedCountIgnoresLifetime(axes: Axes, lifetimes: seq<Value>)
    ensures AlignedCount(axes.(expectedLifetime := lifetimes)) == AlignedCount(axes)
  {
  }

  /** Variant `i` of the aligned mode: get_val of every list at `i`. */
  function AlignedVariant(axes: Axes, i: nat): (v: Variant)
    ensures forall k :: AxisValue(v, k) == GetVal(AxisList(axes, k), i)
  {
    Variant(GetVal(axes.coreCount, i), GetVal(axes.coreSpeed, i), GetVal(axes.memorySize, i),
            GetVal(axes.carbon, i), GetVal(axes.noH, i),
            GetVal(axes.batteryCapacity, i), GetVal(axes.startingCI, i), GetVal(axes.chargingSpeed, i),
            GetVal(axes.expectedLifetime, i))
  }

  /** The variants of the aligned mode, one per index below max_len. */
  function AlignedVariants(axes: Axes): (vs: seq<Variant>)
    ensures |vs| == AlignedCount(axes)
    ensures forall i :: 0 <= i < |vs| ==> vs[i] == AlignedVariant(axes, i)
  {
    seq(AlignedCount(axes), i requires 0 <= i => AlignedVariant(axes, i))
  }

  /* ---------------- cartesian mode ---------------- */

  /** The keys of the non-empty lists, in dictionary order. */
  function ActiveAxes(axes: Axes): (keys: seq<Axis>)
  {
    Filter(AxisOrder, k => AxisList(axes, k) != [])
  }

  function ActiveLists(axes: Axes, keys: seq<Axis>): (lists: seq<seq<Value>>)
    ensures |lists| == |keys|
    ensures forall j :: 0 <= j < |keys| ==> lists[j] == AxisList(axes, keys[j])
  {
    seq(|keys|, j requires 0 <= j < |keys| => AxisList(axes, keys[j]))
  }

  /** Every tuple `[x] + t` for `x` in `xs` and `t` in `tails`, `x` varying slowest. */
  function PrefixEach(xs: seq<Value>, tails: seq<seq<Value>>): (r: seq<seq<Value>>)
    ensures |r| == |xs| * |tails|
  {
    if xs == [] then []
    else
      seq(|tails|, t requires 0 <= t < |tails| => [xs[0]] + tails[t]) + PrefixEach(xs[1..], tails)
  }

  /** itertools.product: every tuple picking one element of each list, the last list varying fastest. */
  function Product(lists: seq<seq<Value>>): (r: seq<seq<Value>>)
  {
    if lists == [] then [[]] else PrefixEach(lists[0], Product(lists[1..]))
  }

  lemma {:induction false} PrefixEachMembership(xs: seq<Value>, tails: seq<seq<Value>>, c: seq<Value>)
    ensures c in PrefixEach(xs, tails) <==> |c| >= 1 && c[0] in xs && c[1..] in tails
  {
    if xs != [] {
      PrefixEachMembership(xs[1..], tails, c);
      var here := seq(|tails|, t requires 0 <= t < |tails| => [xs[0]] + tails[t]);
      if |c| >= 1 && c[0] == xs[0] && c[1..] in tails {
        var t :| 0 <= t < |tails| && tails[t] == c[1..];
        assert here[t] == c;
      }
      assert c in here ==> |c| >= 1 && c[0] == xs[0] && c[1..] in tails;
      assert xs == [xs[0]] + xs[1..];
    }
  }

  /** A tuple is in the product exactly when it picks one element of each list. */
  lemma {:induction false} ProductMembership(lists: seq<seq<Value>>, c: seq<Value>)
    ensures c in Product(lists) <==> |c| == |lists| && forall j :: 0 <= j < |lists| ==> c[j] in lists[j]
  {
    if lists == [] {
    } else {
      PrefixEachMembership(lists[0], Product(lists[1..]), c);
      if |c| >= 1 {
        ProductMembership(lists[1..], c[1..]);
        if |c| == |lists| {
          assert forall j :: 1 <= j < |lists| ==> c[j] == c[1..][j - 1] && lists[j] == lists[1..][j - 1];
        }
      }
    }
  }

  /** The tuples the `seen` loop keeps: those without None that did not occur earlier. */
  function Distinct(cs: seq<seq<Value>>): (r: seq<seq<Value>>)
    ensures |r| <= |cs|
  {
    if cs == [] then []
    else
      var prev := Distinct(cs[..|cs| - 1]);
      var c := cs[|cs| - 1];
      if None in c || c in cs[..|cs| - 1] then prev else prev + [c]
  }

  lemma DistinctSnoc(cs: seq<seq<Value>>, c: seq<Value>)
    ensures Distinct(cs + [c]) == if None in c || c in cs then Distinct(cs) else Distinct(cs) + [c]
  {
    assert (cs + [c])[..|cs|] == cs;
  }

  /** A tuple is kept exactly when it occurs and holds no None. */
  lemma {:induction false} DistinctMembership(cs: seq<seq<Value>>, c: seq<Value>)
    ensures c in Distinct(cs) <==> c in cs && None !in c
  {
    if cs != [] {
      var init := cs[..|cs| - 1];
      DistinctMembership(init, c);
      assert cs == init + [cs[|cs| - 1]];
    }
  }

  /** No tuple is kept twice. */
  lemma {:induction false} DistinctUnique(cs: seq<seq<Value>>)
    ensures forall i, j :: 0 <= i < j < |Distinct(cs)| ==> Distinct(cs)[i] != Distinct(cs)[j]
  {
    if cs != [] {
      var init := cs[..|cs| - 1];
      DistinctUnique(init);
      var c := cs[|cs| - 1];
      if !(None in c || c in init) {
        DistinctMembership(init, c);
      }
    }
  }

  /** values.get(key) of dict(zip(keys, combo)). */
  function Lookup(keys: seq<Axis>, combo: seq<Value>, k: Axis): Value
  {
    if keys == [] || combo == [] then None
    else if keys[0] == k then combo[0]
    else Lookup(keys[1..], combo[1..], k)
  }

  function VariantOf(keys: seq<Axis>, combo: seq<Value>): Variant
  {
    Variant(Lookup(keys, combo, CoreCount), Lookup(keys, combo, CoreSpeed), Lookup(keys, combo, MemorySize),
            Lookup(keys, combo, Carbon), Lookup(keys, combo, HostCount),
            Lookup(keys, combo, BatteryCapacity), Lookup(keys, combo, StartingCI), Lookup(keys, combo, ChargingSpeed),
            Lookup(keys, combo, ExpectedLifetime))
  }

  function VariantsOf(keys: seq<Axis>, combos: seq<seq<Value>>): (vs: seq<Variant>)
    ensures |vs| == |combos|
    ensures forall i :: 0 <= i < |combos| ==> vs[i] == VariantOf(keys, combos[i])
  {
    seq(|combos|, i requires 0 <= i < |combos| => VariantOf(keys, combos[i]))
  }

  lemma VariantsOfSnoc(keys: seq<Axis>, combos: seq<seq<Value>>, c: seq<Value>)
    ensures VariantsOf(keys, combos + [c]) == VariantsOf(keys, combos) + [VariantOf(keys, c)]
  {
    var l := VariantsOf(keys, combos + [c]);
    var r := VariantsOf(keys, combos) + [VariantOf(keys, c)];
    assert forall i :: 0 <= i < |combos| ==> (combos + [c])[i] == combos[i];
    assert forall i :: 0 <= i < |l| ==> l[i] == r[i];
  }

  /** The variants of the cartesian mode; unpacking the active items raises when no list is non-empty. */
  function CartesianSpec(axes: Axes): Result<seq<Variant>>
  {
    var keys := ActiveAxes(axes);
    if keys == [] then Raised
    else Ok(VariantsOf(keys, Distinct(Product(ActiveLists(axes, keys)))))
  }

  /** The cartesian mode of update_topology_values: unpacking the active items raises when
      no list is non-empty; otherwise the product of the active lists is walked. */
  method CartesianVariants(axes: Axes) returns (r: Result<seq<Variant>>)
    ensures r == CartesianSpec(axes)
  {
    var keys := ActiveAxes(axes);
    if keys == [] {
      return Raised;
    }
    var variants := NewVariants(keys, Product(ActiveLists(axes, keys)));
    return Ok(variants);
  }

  /** The loop over the product: skips tuples that hold None or were seen before, and
      turns the others into variants. */
  method NewVariants(keys: seq<Axis>, combos: seq<seq<Value>>) returns (variants: seq<Variant>)
    ensures variants == VariantsOf(keys, Distinct(combos))
  {
    var seen: set<seq<Value>> := {};
    variants := [];
    for i := 0 to |combos|
      invariant forall c :: c in seen <==> c in combos[..i] && None !in c
      invariant variants == VariantsOf(keys, Distinct(combos[..i]))
    {
      var combo := combos[i];
      assert combos[..i + 1] == combos[..i] + [combo];
      DistinctSnoc(combos[..i], combo);
      ghost var kept := Distinct(combos[..i]);
      if None in combo {
        continue;
      }
      if combo in seen {
        continue;
      }
      seen := seen + {combo};
      VariantsOfSnoc(keys, kept, combo);
      variants := variants + [VariantOf(keys, combo)];
    }
    assert combos[..|combos|] == combos;
  }

  /* ---------------- the overlay of one variant ---------------- */

  /** The powerSource block a truthy carbon trace name sets. */
  function PowerSource(carbon: string): Json
  {
    Obj([("carbonTracePath", Str("carbon_traces/" + carbon))])
  }

  /** The battery policy attached to every battery block. */
  function BatteryPolicy(threshold: real): Json
  {
    Obj([("type", Str("runningMeanPlus")), ("startingThreshold", Float(threshold)), ("windowSize", Int(168))])
  }

  /** Whether a battery block is attached: include_battery, a capacity and a starting
      carbon intensity are given, and that intensity reads as a positive number. */
  function BatteryAttached(v: Variant, opts: Options): (r: Result<bool>)
  {
    if !(opts.includeBattery && v.batteryCapacity.Some? && v.startingCI.Some?) then Ok(false)
    else
      var threshold :- ParseDecimal(v.startingCI.value);
      Ok(threshold > 0.0)
  }

  /** The fields of a battery block. */
  function BatteryFields(capacity: int, charging: int, lifetime: int, threshold: real): seq<(string, Json)>
  {
    [("capacity", Int(capacity)), ("chargingSpeed", Int(charging)),
     ("embodiedCarbon", Int(100 * capacity)), ("expectedLifetime", Int(lifetime)),
     ("batteryPolicy", BatteryPolicy(threshold))]
  }

  /** Each field of a battery block can be looked up under its key. */
  lemma BatteryFieldsGet(capacity: int, charging: int, lifetime: int, threshold: real)
    ensures var f := BatteryFields(capacity, charging, lifetime, threshold);
      && Get(f, "capacity") == Some(Int(capacity))
      && Get(f, "chargingSpeed") == Some(Int(charging))
      && Get(f, "embodiedCarbon") == Some(Int(100 * capacity))
      && Get(f, "expectedLifetime") == Some(Int(lifetime))
      && Get(f, "batteryPolicy") == Some(BatteryPolicy(threshold))
  {
    var f := BatteryFields(capacity, charging, lifetime, threshold);
    GetAt(f, 0);
    GetAt(f, 1);
    GetAt(f, 2);
    GetAt(f, 3);
    GetAt(f, 4);
  }

  /** The battery block of a cluster: None when it is not attached. The expected lifetime
      is read by int() before its None test, so a missing lifetime raises. */
  function BatteryBlock(v: Variant, opts: Options): (r: Result<Option<Json>>)
  {
    var attached :- BatteryAttached(v, opts);
    if !attached then Ok(None)
    else
      var threshold :- DecimalOf(v.startingCI);
      var capacity :- IntOf(v.batteryCapacity);
      var charging :-
        if IsTruthy(v.chargingSpeed) then
          var speed :- IntOf(v.chargingSpeed);
          Ok(speed * capacity)
        else Ok(0);
      var lifetime :- IntOf(v.expectedLifetime);
      Ok(Some(Obj(BatteryFields(capacity, charging, lifetime, threshold))))
  }

  /** An attached battery block holds the capacity, the charging speed times the capacity
      (0 for a falsy charging speed), 100 times the capacity as embodied carbon, the
      lifetime, and a runningMeanPlus policy over a 168-hour window at the starting
      carbon intensity, which is positive. */
  lemma BatteryBlockFields(v: Variant, opts: Options)
    requires BatteryBlock(v, opts).Ok? && BatteryBlock(v, opts).value.Some?
    ensures opts.includeBattery && v.batteryCapacity.Some? && v.startingCI.Some? && v.expectedLifetime.Some?
    ensures ParseDecimal(v.startingCI.value).Ok? && ParseDecimal(v.startingCI.value).value > 0.0
    ensures ParseInt(v.batteryCapacity.value).Ok? && ParseInt(v.expectedLifetime.value).Ok?
    ensures IsTruthy(v.chargingSpeed) ==> ParseInt(v.chargingSpeed.value).Ok?
    ensures
      var capacity := ParseInt(v.batteryCapacity.value).value;
      var charging := if IsTruthy(v.chargingSpeed) then ParseInt(v.chargingSpeed.value).value * capacity else 0;
      BatteryBlock(v, opts).value.value
        == Obj(BatteryFields(capacity, charging, ParseInt(v.expectedLifetime.value).value, ParseDecimal(v.startingCI.value).value))
  {
  }

  /** A battery block is attached exactly under its condition; when it would be attached
      and no expected lifetime is given, building the block raises (the default of 10
      cannot be reached). */
  lemma BatteryBlockCondition(v: Variant, opts: Options)
    ensures !(opts.includeBattery && v.batteryCapacity.Some? && v.startingCI.Some?) ==> BatteryBlock(v, opts) == Ok(None)
    ensures opts.includeBattery && v.batteryCapacity.Some? && v.startingCI.Some?
            && ParseDecimal(v.startingCI.value).Ok? && ParseDecimal(v.startingCI.value).value <= 0.0
            ==> BatteryBlock(v, opts) == Ok(None)
    ensures BatteryAttached(v, opts) == Ok(true) && v.expectedLifetime.None? ==> BatteryBlock(v, opts).Raised?
  {
  }

  /** The `key: float(value)` entry of a power model, present under `present`. */
  function FloatEntry(key: string, v: Value, present: bool): (r: Result<seq<(string, Json)>>)
    ensures !present ==> r == Ok([])
    ensures present && r.Ok? ==> v.Some? && ParseDecimal(v.value).Ok?
    ensures present && r.Ok? ==> r.value == [(key, Float(ParseDecimal(v.value).value))]
  {
    if !present then Ok([])
    else
      var p :- DecimalOf(v);
      Ok([(key, Float(p))])
  }

  /** The power model attached to hosts: None unless add_power_model holds and a type is given. */
  function PowerModel(opts: Options): (r: Result<Option<Json>>)
  {
    if !(opts.addPowerModel && opts.powerModelType.Some?) then Ok(None)
    else
      var power :- FloatEntry("power", opts.powerModelPower, opts.powerModelPower.Some?);
      var idle :- FloatEntry("idlePower", opts.powerModelIdle, opts.powerModelIdle.Some?);
      var max :- FloatEntry("maxPower", opts.powerModelMax, IsTruthy(opts.powerModelMax));
      Ok(Some(Obj([("modelType", Str(opts.powerModelType.value))] + power + idle + max)))
  }

  /** A power model carries its type, `float()` of `power` and `idlePower` exactly when those
      values are given, and `float()` of the maximum exactly when it is truthy. */
  lemma PowerModelFields(opts: Options)
    requires PowerModel(opts).Ok?
    ensures PowerModel(opts).value.Some? <==> opts.addPowerModel && opts.powerModelType.Some?
    ensures PowerModel(opts).value.Some? ==>
      var m := PowerModel(opts).value.value;
      && m.Obj?
      && Get(m.fields, "modelType") == Some(Str(opts.powerModelType.value))
      && Get(m.fields, "power") ==
           (if opts.powerModelPower.Some? then Some(Float(ParseDecimal(opts.powerModelPower.value).value)) else None)
      && Get(m.fields, "idlePower") ==
           (if opts.powerModelIdle.Some? then Some(Float(ParseDecimal(opts.powerModelIdle.value).value)) else None)
      && Get(m.fields, "maxPower") ==
           (if IsTruthy(opts.powerModelMax) then Some(Float(ParseDecimal(opts.powerModelMax.value).value)) else None)
  {
    if opts.addPowerModel && opts.powerModelType.Some? {
      var power := FloatEntry("power", opts.powerModelPower, opts.powerModelPower.Some?).value;
      var idle := FloatEntry("idlePower", opts.powerModelIdle, opts.powerModelIdle.Some?).value;
      var max := FloatEntry("maxPower", opts.powerModelMax, IsTruthy(opts.powerModelMax)).value;
      assert PowerModel(opts).value.value == Obj([("modelType", Str(opts.powerModelType.value))] + power + idle + max);
      PowerFieldsGet(Str(opts.powerModelType.value), power, idle, max);
    }
  }

  /** Looking up the keys of `[modelType] + power + idle + max`, where each optional part
      holds at most its own key. */
  lemma PowerFieldsGet(modelType: Json, power: seq<(string, Json)>, idle: seq<(string, Json)>, max: seq<(string, Json)>)
    requires |power| <= 1 && |idle| <= 1 && |max| <= 1
    requires power != [] ==> power[0].0 == "power"
    requires idle != [] ==> idle[0].0 == "idlePower"
    requires max != [] ==> max[0].0 == "maxPower"
    ensures var fields := [("modelType", modelType)] + power + idle + max;
      && Get(fields, "modelType") == Some(modelType)
      && Get(fields, "power") == (if power != [] then Some(power[0].1) else None)
      && Get(fields, "idlePower") == (if idle != [] then Some(idle[0].1) else None)
      && Get(fields, "maxPower") == (if max != [] then Some(max[0].1) else None)
  {
    var head := [("modelType", modelType)];
    GetConcat4(head, power, idle, max, "modelType");
    GetConcat4(head, power, idle, max, "power");
    GetConcat4(head, power, idle, max, "idlePower");
    GetConcat4(head, power, idle, max, "maxPower");
  }

  /** The changes made to every host: the numbers read from the variant and the power model. */
  datatype HostPlan = HostPlan(
    coreCount: Option<int>, coreSpeed: Option<int>, memorySize: Option<int>, count: Option<int>,
    powerModel: Option<Json>)

  /** What the host loop of build_one_topology reads from its arguments. */
  function HostPlanOf(v: Variant, opts: Options): Result<HostPlan>
  {
    var coreCount :- OptionalInt(v.coreCount);
    var coreSpeed :- OptionalInt(v.coreSpeed);
    var memorySize :- OptionalInt(v.memorySize);
    var count :- OptionalInt(v.noH);
    var model :- PowerModel(opts);
    Ok(HostPlan(coreCount, coreSpeed, memorySize, count, model))
  }

  /** The body of the host loop for one host. */
  function ApplyHostPlan(host: Json, p: HostPlan): Result<Json>
  {
    var h1 :- SetNested(host, "cpu", "coreCount", p.coreCount);
    var h2 :- SetNested(h1, "cpu", "coreSpeed", p.coreSpeed);
    var h3 :- SetNested(h2, "memory", "memorySize", p.memorySize);
    var h4 :- SetField(h3, "count", IntField(p.count));
    SetField(h4, "powerModel", p.powerModel)
  }

  /** The states of a host after each assignment of the host loop body. */
  function HostSteps(host: Json, p: HostPlan): (steps: seq<Json>)
    requires ApplyHostPlan(host, p).Ok?
    ensures |steps| == 6 && steps[0] == host && steps[5] == ApplyHostPlan(host, p).value
  {
    var h1 := SetNested(host, "cpu", "coreCount", p.coreCount).value;
    var h2 := SetNested(h1, "cpu", "coreSpeed", p.coreSpeed).value;
    var h3 := SetNested(h2, "memory", "memorySize", p.memorySize).value;
    var h4 := SetField(h3, "count", IntField(p.count)).value;
    [host, h1, h2, h3, h4, SetField(h4, "powerModel", p.powerModel).value]
  }

  /** An empty plan leaves a host as it is; any other plan needs the host to be an object. */
  lemma ApplyHostPlanEmpty(host: Json, p: HostPlan)
    requires ApplyHostPlan(host, p).Ok?
    ensures p == HostPlan(None, None, None, None, None) ==> ApplyHostPlan(host, p).value == host
    ensures p != HostPlan(None, None, None, None, None) ==> host.Obj? && ApplyHostPlan(host, p).value.Obj?
  {
    var s := HostSteps(host, p);
  }

  /** The host overlay sets the core count only when the plan gives one. */
  lemma ApplyHostPlanCores(host: Json, p: HostPlan)
    requires ApplyHostPlan(host, p).Ok?
    ensures Nested(ApplyHostPlan(host, p).value, "cpu", "coreCount")
         == (if p.coreCount.Some? then IntField(p.coreCount) else Nested(host, "cpu", "coreCount"))
  {
    var s := HostSteps(host, p);
    NestedKept(s[2], s[3], "memory");
    NestedKept(s[3], s[4], "count");
    NestedKept(s[4], s[5], "powerModel");
    assert Nested(s[2], "cpu", "coreCount") == Nested(s[1], "cpu", "coreCount");
  }

  /** The host overlay sets the core speed only when the plan gives one. */
  lemma ApplyHostPlanSpeed(host: Json, p: HostPlan)
    requires ApplyHostPlan(host, p).Ok?
    ensures Nested(ApplyHostPlan(host, p).value, "cpu", "coreSpeed")
         == (if p.coreSpeed.Some? then IntField(p.coreSpeed) else Nested(host, "cpu", "coreSpeed"))
  {
    var s := HostSteps(host, p);
    NestedKept(s[2], s[3], "memory");
    NestedKept(s[3], s[4], "count");
    NestedKept(s[4], s[5], "powerModel");
  }

  /** The host overlay sets the memory size only when the plan gives one. */
  lemma ApplyHostPlanMemory(host: Json, p: HostPlan)
    requires ApplyHostPlan(host, p).Ok?
    ensures Nested(ApplyHostPlan(host, p).value, "memory", "memorySize")
         == (if p.memorySize.Some? then IntField(p.memorySize) else Nested(host, "memory", "memorySize"))
  {
    var s := HostSteps(host, p);
    NestedKept(s[0], s[1], "cpu");
    NestedKept(s[1], s[2], "cpu");
    NestedKept(s[3], s[4], "count");
    NestedKept(s[4], s[5], "powerModel");
  }

  /** The host overlay sets the host count only when the plan gives one. */
  lemma ApplyHostPlanCount(host: Json, p: HostPlan)
    requires ApplyHostPlan(host, p).Ok?
    ensures Field(ApplyHostPlan(host, p).value, "count") == (if p.count.Some? then IntField(p.count) else Field(host, "count"))
  {
    var s := HostSteps(host, p);
    assert Field(s[3], "count") == Field(host, "count");
  }

  /** The host overlay sets the power model only when the plan gives one. */
  lemma ApplyHostPlanPowerModel(host: Json, p: HostPlan)
    requires ApplyHostPlan(host, p).Ok?
    ensures Field(ApplyHostPlan(host, p).value, "powerModel") == (if p.powerModel.Some? then p.powerModel else Field(host, "powerModel"))
  {
    var s := HostSteps(host, p);
    assert Field(s[4], "powerModel") == Field(host, "powerModel");
  }

  /** An assignment to one key leaves what the objects under the other keys hold alone. */
  lemma NestedKept(a: Json, b: Json, key: string)
    requires forall k :: k != key ==> Field(b, k) == Field(a, k)
    ensures forall o, k :: o != key ==> Nested(b, o, k) == Nested(a, o, k)
  {
  }

  /** Nothing else of the host changes, inside "cpu" and "memory" or beside them. */
  lemma ApplyHostPlanKeeps(host: Json, p: HostPlan)
    requires ApplyHostPlan(host, p).Ok?
    ensures var h := ApplyHostPlan(host, p).value;
      && (forall k :: k != "coreCount" && k != "coreSpeed" ==> Nested(h, "cpu", k) == Nested(host, "cpu", k))
      && (forall k :: k != "memorySize" ==> Nested(h, "memory", k) == Nested(host, "memory", k))
      && (forall k :: k != "cpu" && k != "memory" && k != "count" && k != "powerModel" ==> Field(h, k) == Field(host, k))
  {
    var s := HostSteps(host, p);
    NestedKept(s[3], s[4], "count");
    NestedKept(s[4], s[5], "powerModel");
  }

  /** A host that is not an object survives only an empty plan, unchanged. */
  lemma ApplyHostPlanNonObject(host: Json, p: HostPlan)
    requires !host.Obj? && ApplyHostPlan(host, p).Ok?
    ensures ApplyHostPlan(host, p).value == host
  {
    ApplyHostPlanEmpty(host, p);
  }

  /** One host of the host loop: the plan is read only once a host is visited. */
  function HostOverlay(host: Json, plan: Result<HostPlan>): Result<Json>
  {
    var p :- plan;
    ApplyHostPlan(host, p)
  }

  /** The host loop: every host overlaid, or raised at the first host that raises. */
  function HostsOverlay(hosts: seq<Json>, plan: Result<HostPlan>): Result<seq<Json>>
  {
    AllOk(seq(|hosts|, k requires 0 <= k < |hosts| => HostOverlay(hosts[k], plan)))
  }

  /** The hosts of a cluster, and whether they are stored as a list (only a stored list can
      have been changed; for anything else the loop raises or changes nothing). */
  function HostsOf(cluster: Json): Json
    requires cluster.Obj?
  {
    match Get(cluster.fields, "hosts")
    case Some(h) => h
    case None => Arr([])
  }

  /** The body of the cluster loop of build_one_topology for one cluster. */
  function ClusterOverlay(cluster: Json, carbon: Value, battery: Result<Option<Json>>, plan: Result<HostPlan>): Result<Json>
  {
    var c2 :- ClusterPrepared(cluster, carbon, battery);
    if !c2.Obj? then Raised
    else
      var hostsVal := HostsOf(c2);
      var hosts :- Members(hostsVal);
      var updated :- HostsOverlay(hosts, plan);
      if hostsVal.Arr? && Get(c2.fields, "hosts").Some? then Ok(Obj(Put(c2.fields, "hosts", Arr(updated))))
      else Ok(c2)
  }

  /** The first two assignments of the cluster loop body: the power source, then the battery. */
  function ClusterPrepared(cluster: Json, carbon: Value, battery: Result<Option<Json>>): Result<Json>
  {
    var c1 :- if IsTruthy(carbon) then SetItem(cluster, "powerSource", PowerSource(carbon.value)) else Ok(cluster);
    var b :- battery;
    SetField(c1, "battery", b)
  }

  lemma ClusterPreparedSpec(cluster: Json, carbon: Value, battery: Result<Option<Json>>)
    requires ClusterPrepared(cluster, carbon, battery).Ok? && ClusterPrepared(cluster, carbon, battery).value.Obj?
    ensures var c := ClusterPrepared(cluster, carbon, battery).value;
      && cluster.Obj? && battery.Ok?
      && Field(c, "powerSource") == (if IsTruthy(carbon) then Some(PowerSource(carbon.value)) else Field(cluster, "powerSource"))
      && Field(c, "battery") == (if battery.value.Some? then battery.value else Field(cluster, "battery"))
      && (forall k :: k != "powerSource" && k != "battery" ==> Field(c, k) == Field(cluster, k))
  {
  }

  /** The host loop replaces a stored host list by the overlaid hosts and changes nothing else. */
  lemma ClusterHostsSpec(cluster: Json, carbon: Value, battery: Result<Option<Json>>, plan: Result<HostPlan>)
    requires ClusterOverlay(cluster, carbon, battery, plan).Ok?
    ensures var c2 := ClusterPrepared(cluster, carbon, battery).value;
      var c := ClusterOverlay(cluster, carbon, battery, plan).value;
      && c2.Obj? && c.Obj?
      && (forall k :: k != "hosts" ==> Field(c, k) == Field(c2, k))
      && (Field(c2, "hosts").Some? && Field(c2, "hosts").value.Arr? ==>
            var hs := Field(c2, "hosts").value.items;
            && Field(c, "hosts").Some? && Field(c, "hosts").value.Arr?
            && |Field(c, "hosts").value.items| == |hs|
            && forall j :: 0 <= j < |hs| ==> HostOverlay(hs[j], plan) == Ok(Field(c, "hosts").value.items[j]))
  {
    var c2 := ClusterPrepared(cluster, carbon, battery).value;
    var hostsVal := HostsOf(c2);
    var updated := HostsOverlay(Members(hostsVal).value, plan).value;
    PutGet(c2.fields, "hosts", Arr(updated));
  }

  /** The cluster overlay: a truthy carbon trace sets the powerSource, an attached battery
      block replaces the battery, each host of a host list is overlaid in place, and
      nothing else of the cluster changes. */
  lemma ClusterOverlaySpec(cluster: Json, carbon: Value, battery: Result<Option<Json>>, plan: Result<HostPlan>)
    requires ClusterOverlay(cluster, carbon, battery, plan).Ok?
    ensures var c := ClusterOverlay(cluster, carbon, battery, plan).value;
      && cluster.Obj? && c.Obj? && battery.Ok?
      && Field(c, "powerSource") == (if IsTruthy(carbon) then Some(PowerSource(carbon.value)) else Field(cluster, "powerSource"))
      && Field(c, "battery") == (if battery.value.Some? then battery.value else Field(cluster, "battery"))
      && (forall k :: k != "powerSource" && k != "battery" && k != "hosts" ==> Field(c, k) == Field(cluster, k))
      && (Field(cluster, "hosts").Some? && Field(cluster, "hosts").value.Arr? ==>
            var hs := Field(cluster, "hosts").value.items;
            && Field(c, "hosts").Some? && Field(c, "hosts").value.Arr?
            && |Field(c, "hosts").value.items| == |hs|
            && forall j :: 0 <= j < |hs| ==> HostOverlay(hs[j], plan) == Ok(Field(c, "hosts").value.items[j]))
  {
    ClusterHostsSpec(cluster, carbon, battery, plan);
    ClusterPreparedSpec(cluster, carbon, battery);
  }

  /** The cluster loop: every cluster overlaid, or raised at the first cluster that raises. */
  function ClustersOverlay(clusters: seq<Json>, carbon: Value, battery: Result<Option<Json>>, plan: Result<HostPlan>)
    : Result<seq<Json>>
  {
    AllOk(seq(|clusters|, k requires 0 <= k < |clusters| => ClusterOverlay(clusters[k], carbon, battery, plan)))
  }

  /** The overlay of one variant on a copy of the base document: every cluster of the
      "clusters" list is overlaid in place. */
  function TopologyOverlay(doc: Json, v: Variant, opts: Options): Result<Json>
  {
    var has :- In("clusters", doc);
    if !has then Ok(doc)
    else
      var cs :- GetItem(doc, "clusters");
      var members :- Members(cs);
      var battery := BatteryBlock(v, opts);
      var plan := HostPlanOf(v, opts);
      var updated :- ClustersOverlay(members, v.carbon, battery, plan);
      if cs.Arr? then SetItem(doc, "clusters", Arr(updated)) else Ok(doc)
  }

  /** The topology overlay changes only the "clusters" list, and keeps its length. */
  lemma TopologyOverlaySpec(doc: Json, v: Variant, opts: Options)
    requires TopologyOverlay(doc, v, opts).Ok?
    ensures var d := TopologyOverlay(doc, v, opts).value;
      && (doc.Obj? <==> d.Obj?)
      && (forall k :: k != "clusters" ==> Field(d, k) == Field(doc, k))
      && (Field(doc, "clusters").Some? && Field(doc, "clusters").value.Arr? ==>
            var cs := Field(doc, "clusters").value.items;
            && Field(d, "clusters").Some? && Field(d, "clusters").value.Arr?
            && |Field(d, "clusters").value.items| == |cs|
            && forall j :: 0 <= j < |cs| ==>
                 ClusterOverlay(cs[j], v.carbon, BatteryBlock(v, opts), HostPlanOf(v, opts)) == Ok(Field(d, "clusters").value.items[j]))
  {
  }

  /** The host loop of build_one_topology, updating the host list in place. */
  method OverlayHosts(hosts: seq<Json>, plan: Result<HostPlan>) returns (r: Result<seq<Json>>)
    ensures r == HostsOverlay(hosts, plan)
  {
    ghost var steps := seq(|hosts|, k requires 0 <= k < |hosts| => HostOverlay(hosts[k], plan));
    var updated := hosts;
    for k := 0 to |hosts|
      invariant |updated| == |hosts|
      invariant forall j :: 0 <= j < k ==> steps[j] == Ok(updated[j])
    {
      var host := HostOverlay(hosts[k], plan);
      if host.Raised? {
        assert steps[k].Raised?;
        return Raised;
      }
      updated := updated[k := host.value];
    }
    assert AllOk(steps).Ok?;
    assert AllOk(steps).value == updated;
    return Ok(updated);
  }

  /** The cluster loop body of build_one_topology. */
  method OverlayCluster(cluster: Json, carbon: Value, battery: Result<Option<Json>>, plan: Result<HostPlan>)
    returns (r: Result<Json>)
    ensures r == ClusterOverlay(cluster, carbon, battery, plan)
  {
    var c := cluster;
    if IsTruthy(carbon) {
      c :- SetItem(c, "powerSource", PowerSource(carbon.value));
    }
    var b :- battery;
    c :- SetField(c, "battery", b);
    if !c.Obj? {
      return Raised;
    }
    var hostsVal := HostsOf(c);
    var hosts :- Members(hostsVal);
    var updated :- OverlayHosts(hosts, plan);
    if hostsVal.Arr? && Get(c.fields, "hosts").Some? {
      return Ok(Obj(Put(c.fields, "hosts", Arr(updated))));
    }
    return Ok(c);
  }

  /** The cluster loop of build_one_topology, updating the cluster list in place. */
  method OverlayClusters(clusters: seq<Json>, carbon: Value, battery: Result<Option<Json>>, plan: Result<HostPlan>)
    returns (r: Result<seq<Json>>)
    ensures r == ClustersOverlay(clusters, carbon, battery, plan)
  {
    ghost var steps := seq(|clusters|, k requires 0 <= k < |clusters| => ClusterOverlay(clusters[k], carbon, battery, plan));
    var updated := clusters;
    for k := 0 to |clusters|
      invariant |updated| == |clusters|
      invariant forall j :: 0 <= j < k ==> steps[j] == Ok(updated[j])
    {
      var cluster := OverlayCluster(clusters[k], carbon, battery, plan);
      if cluster.Raised? {
        assert steps[k].Raised?;
        return Raised;
      }
      updated := updated[k := cluster.value];
    }
    assert AllOk(steps).Ok?;
    assert AllOk(steps).value == updated;
    return Ok(updated);
  }

  /** Where a generated topology is saved. */
  function TopologyTarget(relPath: string): string
  {
    "topologies/" + relPath
  }

  /** build_one_topology without its save: the overlaid copy and the path it is written to. */
  function BuildOne(base: Json, v: Variant, opts: Options): Result<Write>
  {
    var doc :- TopologyOverlay(base, v, opts);
    Ok(Write(TopologyTarget(BuildTopologyPath(v, opts)), doc))
  }

  /** build_one_topology: overlays every cluster of the "clusters" list in place, then
      derives the path the topology is saved to. */
  method BuildOneTopology(base: Json, v: Variant, opts: Options) returns (r: Result<Write>)
    ensures r == BuildOne(base, v, opts)
  {
    var topology := base;
    var has :- In("clusters", topology);
    if has {
      var cs :- GetItem(topology, "clusters");
      var members :- Members(cs);
      var updated :- OverlayClusters(members, v.carbon, BatteryBlock(v, opts), HostPlanOf(v, opts));
      if cs.Arr? {
        topology := Obj(Put(topology.fields, "clusters", Arr(updated)));
      }
    }
    var path := BuildTopologyPath(v, opts);
    return Ok(Write(TopologyTarget(path), topology));
  }

  /* ---------------- paths ---------------- */

  /** The folders of a topology path: hosts<N>, bat<capacity>_<speed>, carbon-<trace stem>,
      each under its condition. */
  function TopologyFolders(v: Variant, opts: Options): seq<string>
  {
    (if v.noH.Some? then ["hosts" + v.noH.value] else [])
    + (if opts.includeBattery && v.batteryCapacity.Some? && v.chargingSpeed.Some?
       then ["bat" + v.batteryCapacity.value + "_" + v.chargingSpeed.value] else [])
    + (if IsTruthy(v.carbon) then ["carbon-" + SplitExtRoot(v.carbon.value)] else [])
  }

  /** The core, speed and memory tokens of a topology file name. */
  function FeatureBits(v: Variant): seq<string>
  {
    (if v.coreCount.Some? then ["core" + v.coreCount.value] else [])
    + (if v.coreSpeed.Some? then ["speed" + v.coreSpeed.value] else [])
    + (if v.memorySize.Some? then ["mem" + v.memorySize.value] else [])
  }

  /** The file name: the feature tokens joined by '_', then '_' and the base name; the base
      name alone without tokens. */
  function TopologyFileName(v: Variant, opts: Options): (r: string)
    ensures EndsWith(r, ".json")
  {
    var baseName := if IsTruthy(opts.name) then opts.name.value + ".json" else "topology.json";
    var bits := FeatureBits(v);
    if bits != [] then Join(bits, '_') + "_" + baseName else baseName
  }

  /** build_topology_path: the folders and the file name joined by '/'. */
  function BuildTopologyPath(v: Variant, opts: Options): (r: string)
    ensures EndsWith(r, ".json")
  {
    var parts := TopologyFolders(v, opts) + [TopologyFileName(v, opts)];
    JoinEnds(parts, ".json");
    Join(parts, '/')
  }

  /** A join ends as its last part does. */
  lemma {:induction false} JoinEnds(parts: seq<string>, suffix: string)
    requires parts != [] && EndsWith(parts[|parts| - 1], suffix)
    ensures EndsWith(Join(parts, '/'), suffix)
  {
    if |parts| > 1 {
      JoinEnds(parts[1..], suffix);
      var rest := Join(parts[1..], '/');
      assert Join(parts, '/') == (parts[0] + ['/']) + rest;
      assert Join(parts, '/')[|Join(parts, '/')| - |suffix|..] == rest[|rest| - |suffix|..];
    }
  }

  predicate NoSlash(x: Value)
  {
    x.Some? ==> '/' !in x.value
  }

  /** The values that appear in a path hold no '/'. */
  predicate PlainPathValues(v: Variant, opts: Options)
  {
    && NoSlash(v.noH) && NoSlash(v.batteryCapacity) && NoSlash(v.chargingSpeed) && NoSlash(v.carbon)
    && NoSlash(v.coreCount) && NoSlash(v.coreSpeed) && NoSlash(v.memorySize) && NoSlash(opts.name)
  }

  lemma FileNamePlain(v: Variant, opts: Options)
    requires PlainPathValues(v, opts)
    ensures '/' !in TopologyFileName(v, opts)
  {
    var bits := FeatureBits(v);
    assert forall i :: 0 <= i < |bits| ==> '/' !in bits[i];
    JoinFree(bits, '_', '/');
  }

  lemma FoldersPlain(v: Variant, opts: Options)
    requires PlainPathValues(v, opts)
    ensures forall i :: 0 <= i < |TopologyFolders(v, opts)| ==> '/' !in TopologyFolders(v, opts)[i]
  {
    if IsTruthy(v.carbon) {
      assert '/' !in SplitExtRoot(v.carbon.value) by {
        assert SplitExtRoot(v.carbon.value) <= v.carbon.value;
      }
    }
  }

  /** Splitting a path on '/' gives back its folders, in order, and its file name. */
  lemma TopologyPathSegments(v: Variant, opts: Options)
    requires PlainPathValues(v, opts)
    ensures Split(BuildTopologyPath(v, opts), '/') == TopologyFolders(v, opts) + [TopologyFileName(v, opts)]
  {
    var folders := TopologyFolders(v, opts);
    var parts := folders + [TopologyFileName(v, opts)];
    FileNamePlain(v, opts);
    FoldersPlain(v, opts);
    assert forall i :: 0 <= i < |parts| ==> '/' !in parts[i] by {
      forall i | 0 <= i < |parts| ensures '/' !in parts[i] {
        if i < |folders| {
          assert parts[i] == folders[i];
        }
      }
    }
    SplitJoin(parts, '/');
  }

  /** Joining parts free of a character with another separator keeps it out. */
  lemma {:induction false} JoinFree(parts: seq<string>, sep: char, c: char)
    requires c != sep
    requires forall i :: 0 <= i < |parts| ==> c !in parts[i]
    ensures c !in Join(parts, sep)
  {
    if |parts| > 1 {
      JoinFree(parts[1..], sep, c);
    }
  }

  /** The path ignores the starting carbon intensity and the expected lifetime, so variants
      that differ only there are saved to the same file, the later one replacing the earlier. */
  lemma PathCollision(base: Json, v: Variant, ci: Value, lifetime: Value, opts: Options)
    requires BuildOne(base, v, opts).Ok?
    requires BuildOne(base, v.(startingCI := ci, expectedLifetime := lifetime), opts).Ok?
    ensures var w1 := BuildOne(base, v, opts).value;
            var w2 := BuildOne(base, v.(startingCI := ci, expectedLifetime := lifetime), opts).value;
            w1.path == w2.path && Saved([w1, w2])[w1.path] == w2.doc
  {
    var w1 := BuildOne(base, v, opts).value;
    var w2 := BuildOne(base, v.(startingCI := ci, expectedLifetime := lifetime), opts).value;
    SavedLastWrite([w1, w2], 1);
  }

  /* ---------------- the default template ---------------- */

  /** The one host of a default cluster. */
  function DefaultHost(coreCount: int, coreSpeed: int, memorySize: int, hostCount: int, index: int): Json
  {
    Obj([("name", Str("H" + IntToString(index))),
         ("cpu", Obj([("coreCount", Int(coreCount)), ("coreSpeed", Int(coreSpeed))])),
         ("memory", Obj([("memorySize", Int(memorySize))])),
         ("count", Int(hostCount))])
  }

  /** create_new_cluster: a cluster C<index> with one host H<index>. */
  function CreateNewCluster(coreCount: int, coreSpeed: int, memorySize: int, hostCount: int, index: int): Json
  {
    Obj([("name", Str("C" + IntToString(index))),
         ("hosts", Arr([DefaultHost(coreCount, coreSpeed, memorySize, hostCount, index)]))])
  }

  /** The base used without a template file: one cluster C0 with one host H0 of 16 cores
      at 2100, memory 100000 and count 1. */
  function DefaultTopology(): Json
  {
    Obj([("clusters", Arr([CreateNewCluster(16, 2100, 100000, 1, 0)]))])
  }

  /** `obj[outer][inner] = n` where `outer` first occurs at index i of the object and
      `inner` at index j of the object under it: both fields are replaced where they stand. */
  lemma SetNestedAt(obj: Json, i: nat, j: nat, n: int)
    requires obj.Obj? && i < |obj.fields| && obj.fields[i].1.Obj? && j < |obj.fields[i].1.fields|
    requires forall k :: 0 <= k < i ==> obj.fields[k].0 != obj.fields[i].0
    requires forall k :: 0 <= k < j ==> obj.fields[i].1.fields[k].0 != obj.fields[i].1.fields[j].0
    ensures var fs := obj.fields;
      var inner := fs[i].1.fields;
      SetNested(obj, fs[i].0, inner[j].0, Some(n))
        == Ok(Obj(fs[..i] + [(fs[i].0, Obj(inner[..j] + [(inner[j].0, Int(n))] + inner[j + 1..]))] + fs[i + 1..]))
  {
    var fs := obj.fields;
    var inner := fs[i].1.fields;
    GetAt(fs, i);
    PutAt(inner, j, Int(n));
    PutAt(fs, i, Obj(inner[..j] + [(inner[j].0, Int(n))] + inner[j + 1..]));
  }

  lemma DefaultHostCores(coreCount: int, coreSpeed: int, memorySize: int, hostCount: int, index: int, n: int)
    ensures SetNested(DefaultHost(coreCount, coreSpeed, memorySize, hostCount, index), "cpu", "coreCount", Some(n))
         == Ok(DefaultHost(n, coreSpeed, memorySize, hostCount, index))
  {
    var h := DefaultHost(coreCount, coreSpeed, memorySize, hostCount, index);
    SetNestedAt(h, 1, 0, n);
    var inner := h.fields[1].1.fields;
    assert inner[..0] + [("coreCount", Int(n))] + inner[1..] == [("coreCount", Int(n)), ("coreSpeed", Int(coreSpeed))];
    assert h.fields[..1] + [("cpu", Obj([("coreCount", Int(n)), ("coreSpeed", Int(coreSpeed))]))] + h.fields[2..]
        == DefaultHost(n, coreSpeed, memorySize, hostCount, index).fields;
  }

  lemma DefaultHostSpeed(coreCount: int, coreSpeed: int, memorySize: int, hostCount: int, index: int, n: int)
    ensures SetNested(DefaultHost(coreCount, coreSpeed, memorySize, hostCount, index), "cpu", "coreSpeed", Some(n))
         == Ok(DefaultHost(coreCount, n, memorySize, hostCount, index))
  {
    var h := DefaultHost(coreCount, coreSpeed, memorySize, hostCount, index);
    assert "coreCount" != "coreSpeed" by {
      assert "coreCount"[4] != "coreSpeed"[4];
    }
    SetNestedAt(h, 1, 1, n);
    var inner := h.fields[1].1.fields;
    assert inner[..1] + [("coreSpeed", Int(n))] + inner[2..] == [("coreCount", Int(coreCount)), ("coreSpeed", Int(n))];
    assert h.fields[..1] + [("cpu", Obj([("coreCount", Int(coreCount)), ("coreSpeed", Int(n))]))] + h.fields[2..]
        == DefaultHost(coreCount, n, memorySize, hostCount, index).fields;
  }

  lemma DefaultHostMemory(coreCount: int, coreSpeed: int, memorySize: int, hostCount: int, index: int, n: int)
    ensures SetNested(DefaultHost(coreCount, coreSpeed, memorySize, hostCount, index), "memory", "memorySize", Some(n))
         == Ok(DefaultHost(coreCount, coreSpeed, n, hostCount, index))
  {
    var h := DefaultHost(coreCount, coreSpeed, memorySize, hostCount, index);
    SetNestedAt(h, 2, 0, n);
    var inner := h.fields[2].1.fields;
    assert inner[..0] + [("memorySize", Int(n))] + inner[1..] == [("memorySize", Int(n))];
    assert h.fields[..2] + [("memory", Obj([("memorySize", Int(n))]))] + h.fields[3..]
        == DefaultHost(coreCount, coreSpeed, n, hostCount, index).fields;
  }

  lemma DefaultHostCount(coreCount: int, coreSpeed: int, memorySize: int, hostCount: int, index: int, n: int)
    ensures SetField(DefaultHost(coreCount, coreSpeed, memorySize, hostCount, index), "count", Some(Int(n)))
         == Ok(DefaultHost(coreCount, coreSpeed, memorySize, n, index))
  {
    var h := DefaultHost(coreCount, coreSpeed, memorySize, hostCount, index);
    PutAt(h.fields, 3, Int(n));
    assert h.fields[..3] + [("count", Int(n))] + h.fields[4..]
        == DefaultHost(coreCount, coreSpeed, memorySize, n, index).fields;
  }

  /** Overlaying host numbers on a default cluster gives the default cluster with those
      numbers: every value the host loop writes lands where create_new_cluster put it. */
  lemma DefaultClusterOverlay(coreCount: int, coreSpeed: int, memorySize: int, hostCount: int, index: int,
                              newCores: int, newSpeed: int, newMemory: int, newCount: int)
    ensures ClusterOverlay(CreateNewCluster(coreCount, coreSpeed, memorySize, hostCount, index), None, Ok(None),
                           Ok(HostPlan(Some(newCores), Some(newSpeed), Some(newMemory), Some(newCount), None)))
         == Ok(CreateNewCluster(newCores, newSpeed, newMemory, newCount, index))
  {
    var p := HostPlan(Some(newCores), Some(newSpeed), Some(newMemory), Some(newCount), None);
    var host := DefaultHost(coreCount, coreSpeed, memorySize, hostCount, index);
    var done := DefaultHost(newCores, newSpeed, newMemory, newCount, index);
    DefaultHostOverlay(coreCount, coreSpeed, memorySize, hostCount, index, newCores, newSpeed, newMemory, newCount);
    SingleHostOverlay(host, Ok(p));
    var c := CreateNewCluster(coreCount, coreSpeed, memorySize, hostCount, index);
    GetAt(c.fields, 1);
    ClusterOverlayHostsOnly(c, Ok(p), [host], [done]);
    PutAt(c.fields, 1, Arr([done]));
    assert c.fields[..1] + [("hosts", Arr([done]))] + c.fields[2..]
        == CreateNewCluster(newCores, newSpeed, newMemory, newCount, index).fields;
  }

  /** Without a carbon trace or a battery block, the cluster loop body only replaces the host list. */
  lemma ClusterOverlayHostsOnly(cluster: Json, plan: Result<HostPlan>, hosts: seq<Json>, updated: seq<Json>)
    requires cluster.Obj? && Get(cluster.fields, "hosts") == Some(Arr(hosts))
    requires HostsOverlay(hosts, plan) == Ok(updated)
    ensures ClusterOverlay(cluster, None, Ok(None), plan) == Ok(Obj(Put(cluster.fields, "hosts", Arr(updated))))
  {
    assert ClusterPrepared(cluster, None, Ok(None)) == Ok(cluster);
  }

  /** The host loop over a single host. */
  lemma SingleHostOverlay(host: Json, plan: Result<HostPlan>)
    ensures HostOverlay(host, plan).Ok? ==> HostsOverlay([host], plan) == Ok([HostOverlay(host, plan).value])
  {
    if HostOverlay(host, plan).Ok? {
      var steps := seq(1, k requires 0 <= k < 1 => HostOverlay([host][k], plan));
      assert steps[0] == HostOverlay(host, plan);
      var r := AllOk(steps);
      assert r.Ok?;
      assert r.value == [HostOverlay(host, plan).value];
    }
  }

  /** The host loop body on the default host writes each number of the plan in its place. */
  lemma DefaultHostOverlay(coreCount: int, coreSpeed: int, memorySize: int, hostCount: int, index: int,
                           newCores: int, newSpeed: int, newMemory: int, newCount: int)
    ensures ApplyHostPlan(DefaultHost(coreCount, coreSpeed, memorySize, hostCount, index),
                          HostPlan(Some(newCores), Some(newSpeed), Some(newMemory), Some(newCount), None))
         == Ok(DefaultHost(newCores, newSpeed, newMemory, newCount, index))
  {
    DefaultHostCores(coreCount, coreSpeed, memorySize, hostCount, index, newCores);
    DefaultHostSpeed(newCores, coreSpeed, memorySize, hostCount, index, newSpeed);
    DefaultHostMemory(newCores, newSpeed, memorySize, hostCount, index, newMemory);
    DefaultHostCount(newCores, newSpeed, newMemory, hostCount, index, newCount);
  }

  /* ---------------- update_topology_values ---------------- */

  /** The variants of the chosen mode. */
  function ModeVariants(axes: Axes, generateCombinations: bool): Result<seq<Variant>>
  {
    if generateCombinations then CartesianSpec(axes) else Ok(AlignedVariants(axes))
  }

  /** One build per variant, each from the same base. */
  function BuildSteps(base: Json, variants: seq<Variant>, opts: Options): (steps: seq<Result<Write>>)
    ensures |steps| == |variants|
  {
    seq(|variants|, i requires 0 <= i < |variants| => BuildOne(base, variants[i], opts))
  }

  /** The base document: the loaded template when a template file is named, the default otherwise. */
  function BaseTopology(topologyFile: Value, loaded: Result<Json>): Json
    requires !(IsTruthy(topologyFile) && loaded.Raised?)
  {
    if IsTruthy(topologyFile) then loaded.value else DefaultTopology()
  }

  /** The writes of update_topology_values, and whether it raised. A template that fails to
      load ends the call without writes and without raising. */
  function UpdateTopologySpec(topologyFile: Value, loaded: Result<Json>, axes: Axes, opts: Options,
                              generateCombinations: bool): Run<Write>
  {
    if IsTruthy(topologyFile) && loaded.Raised? then Run([], false)
    else
      match ModeVariants(axes, generateCombinations)
      case Raised => Run([], true)
      case Ok(variants) => RunUntilRaise(BuildSteps(BaseTopology(topologyFile, loaded), variants, opts))
  }

  /** The build-and-save loop over the variants, stopping at the first build that raises. */
  method BuildAll(base: Json, variants: seq<Variant>, opts: Options) returns (r: Run<Write>)
    ensures r == RunUntilRaise(BuildSteps(base, variants, opts))
  {
    ghost var steps := BuildSteps(base, variants, opts);
    var writes: seq<Write> := [];
    for i := 0 to |variants|
      invariant RunUntilRaise(steps[..i]) == Run(writes, false)
    {
      var w := BuildOneTopology(base, variants[i], opts);
      assert steps[i] == w;
      RunUntilRaiseStep(steps, i, writes);
      if w.Raised? {
        return Run(writes, true);
      }
      writes := writes + [w.value];
    }
    assert steps[..|variants|] == steps;
    return Run(writes, false);
  }

  /** update_topology_values: loads or builds the base, expands the variants of the chosen
      mode, and builds and saves one topology per variant. */
  method UpdateTopologyValues(topologyFile: Value, loaded: Result<Json>, axes: Axes, opts: Options,
                              generateCombinations: bool) returns (r: Run<Write>)
    ensures r == UpdateTopologySpec(topologyFile, loaded, axes, opts, generateCombinations)
  {
    var base: Json;
    if IsTruthy(topologyFile) {
      if loaded.Raised? {
        return Run([], false);
      }
      base := loaded.value;
    } else {
      base := DefaultTopology();
    }
    var variants: seq<Variant>;
    if generateCombinations {
      var expanded := CartesianVariants(axes);
      if expanded.Raised? {
        return Run([], true);
      }
      variants := expanded.value;
    } else {
      variants := AlignedVariants(axes);
    }
    r := BuildAll(base, variants, opts);
  }

  /** In the aligned mode a run that does not raise writes exactly max_len topologies, the
      i-th built from the base and get_val of every list at i. */
  lemma AlignedWrites(topologyFile: Value, loaded: Result<Json>, axes: Axes, opts: Options)
    requires !(IsTruthy(topologyFile) && loaded.Raised?)
    requires !UpdateTopologySpec(topologyFile, loaded, axes, opts, false).raised
    ensures var r := UpdateTopologySpec(topologyFile, loaded, axes, opts, false);
      && |r.done| == AlignedCount(axes)
      && forall i :: 0 <= i < |r.done| ==>
           BuildOne(BaseTopology(topologyFile, loaded), AlignedVariant(axes, i), opts) == Ok(r.done[i])
  {
  }

  /** In the cartesian mode a run that does not raise writes exactly one topology per
      distinct tuple of the product of the non-empty lists that holds no None; with no
      non-empty list the call raises before writing anything. */
  lemma CartesianWrites(topologyFile: Value, loaded: Result<Json>, axes: Axes, opts: Options)
    requires !(IsTruthy(topologyFile) && loaded.Raised?)
    ensures ActiveAxes(axes) == [] ==> UpdateTopologySpec(topologyFile, loaded, axes, opts, true) == Run([], true)
    ensures var r := UpdateTopologySpec(topologyFile, loaded, axes, opts, true);
      var keys := ActiveAxes(axes);
      var tuples := Distinct(Product(ActiveLists(axes, keys)));
      keys != [] && !r.raised ==>
        && |r.done| == |tuples|
        && forall i :: 0 <= i < |r.done| ==>
             BuildOne(BaseTopology(topologyFile, loaded), VariantOf(keys, tuples[i]), opts) == Ok(r.done[i])
  {
  }
}
