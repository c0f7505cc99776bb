/** The shared helpers of the generators: index-aligned lookup, topology
    grouping keys, option-list cleaning and filtering, and the parser of compact
    parameter specifications such as "1-10:2", "a,b" and "1-5:1 + 10,15". */
module Utils {
  import opened Wrappers
  import opened Strings
  import opened Paths

  /** A parameter value as the generators receive it: None, or a text token. */
  type Value = Option<string>

  /** Python truthiness of a parameter value: present and not the empty string. */
  predicate IsTruthy(v: Value)
  {
    v.Some? && v.value != ""
  }

  /** get_val: the element at `idx`, or None past the end of the list. */
  function GetVal<T>(lst: seq<Option<T>>, idx: nat): (r: Option<T>)
    ensures idx < |lst| ==> r == lst[idx]
    ensures idx >= |lst| ==> r == None
  {
    if idx < |lst| then lst[idx] else None
  }

  /** The largest of `xs` and `floor`. */
  function MaxOf(xs: seq<nat>, floor: nat): (m: nat)
    ensures m >= floor && forall k :: 0 <= k < |xs| ==> xs[k] <= m
    ensures m == floor || m in xs
  {
    if xs == [] then floor
    else
      var rest := MaxOf(xs[1..], floor);
      assert forall k :: 1 <= k < |xs| ==> xs[k] == xs[1..][k - 1];
      if xs[0] > rest then xs[0] else rest
  }

  /** int(value): None raises, as does text that is not an integer. */
  function IntOf(v: Value): (r: Result<int>)
    ensures v.None? ==> r.Raised?
    ensures v.Some? ==> r == ParseInt(v.value)
  {
    match v
    case None => Raised
    case Some(s) => ParseInt(s)
  }

  /** float(value) for a present value. */
  function DecimalOf(v: Value): (r: Result<real>)
    ensures v.None? ==> r.Raised?
    ensures v.Some? ==> r == ParseDecimal(v.value)
  {
    match v
    case None => Raised
    case Some(s) => ParseDecimal(s)
  }

  /** int(value) for a value that is not None; nothing for None. */
  function OptionalInt(v: Value): (r: Result<Option<int>>)
    ensures v.None? ==> r == Ok(None)
    ensures v.Some? ==> (r.Ok? <==> ParseInt(v.value).Ok?)
    ensures v.Some? && r.Ok? ==> r.value == Some(ParseInt(v.value).value)
  {
    match v
    case None => Ok(None)
    case Some(s) =>
      var n :- ParseInt(s);
      Ok(Some(n))
  }

  /** `[f(i, x) for i, x in enumerate(xs)]`, from index `from` on. */
  function MapIndexed<T, U>(xs: seq<T>, f: (nat, T) -> U, from: nat): seq<U>
    decreases |xs| - from
  {
    if from >= |xs| then [] else [f(from, xs[from])] + MapIndexed(xs, f, from + 1)
  }

  /** The element at position j is f applied to the index and the element there. */
  lemma {:induction false} MapIndexedAt<T, U>(xs: seq<T>, f: (nat, T) -> U, from: nat)
    requires from <= |xs|
    ensures |MapIndexed(xs, f, from)| == |xs| - from
    ensures forall j :: 0 <= j < |xs| - from ==> MapIndexed(xs, f, from)[j] == f(from + j, xs[from + j])
    decreases |xs| - from
  {
    if from < |xs| {
      MapIndexedAt(xs, f, from + 1);
      var rest := MapIndexed(xs, f, from + 1);
      forall j | 1 <= j < |xs| - from
        ensures MapIndexed(xs, f, from)[j] == f(from + j, xs[from + j])
      {
        assert MapIndexed(xs, f, from)[j] == rest[j - 1];
        assert from + j == (from + 1) + (j - 1);
      }
    }
  }

  /** The elements of `xs` that satisfy `p`, in their original order. */
  function Filter<T>(xs: seq<T>, p: T -> bool): (r: seq<T>)
    ensures |r| <= |xs|
  {
    if xs == [] then []
    else (if p(xs[0]) then [xs[0]] else []) + Filter(xs[1..], p)
  }

  /** An element is kept exactly when it occurs in the list and satisfies the test. */
  lemma {:induction false} FilterMembership<T>(xs: seq<T>, p: T -> bool, x: T)
    ensures x in Filter(xs, p) <==> x in xs && p(x)
  {
    if xs != [] {
      FilterMembership(xs[1..], p, x);
      assert xs == [xs[0]] + xs[1..];
    }
  }

  /** Filtering a list with a known first element. */
  lemma FilterCons<T>(x: T, xs: seq<T>, p: T -> bool)
    ensures Filter([x] + xs, p) == (if p(x) then [x] else []) + Filter(xs, p)
  {
    var s := [x] + xs;
    assert s[0] == x && s[1..] == xs;
  }

  /** Filtering distributes over concatenation: the kept elements of a list are the
      kept elements of its first part followed by those of its second part. */
  lemma {:induction false} FilterConcat<T>(a: seq<T>, b: seq<T>, p: T -> bool)
    ensures Filter(a + b, p) == Filter(a, p) + Filter(b, p)
  {
    if a == [] {
      assert a + b == b;
    } else {
      var t := a[1..];
      var h := if p(a[0]) then [a[0]] else [];
      assert a == [a[0]] + t;
      assert a + b == [a[0]] + (t + b);
      calc {
        Filter(a + b, p);
        { FilterCons(a[0], t + b, p); }
        h + Filter(t + b, p);
        { FilterConcat(t, b, p); }
        h + (Filter(t, p) + Filter(b, p));
        (h + Filter(t, p)) + Filter(b, p);
        { FilterCons(a[0], t, p); }
        Filter(a, p) + Filter(b, p);
      }
    }
  }

  /** The path with backslashes turned into '/' and every "topologies/" removed. */
  function GroupPath(path: string): (r: string)
    ensures '\\' !in r
  {
    ReplaceAll(ReplaceChar(path, '\\', '/'), "topologies/", "")
  }

  /** get_topology_group_prefix: the directory part of the cleaned path, stripped,
      or "Ungrouped" when that is empty. */
  function TopologyGroupPrefix(path: string): (r: string)
    ensures r != ""
    ensures '\\' !in r
    ensures '/' !in GroupPath(path) ==> r == "Ungrouped"
    ensures r == "Ungrouped" || forall c :: c in r ==> c in GroupPath(path)
  {
    StripChars(DirName(GroupPath(path)));
    var dir := Strip(DirName(GroupPath(path)));
    if dir == "" then "Ungrouped" else dir
  }

  /** The group key of a path whose cleaned form is `d/f`, for a file name `f`, is the
      directory part `d`, stripped, or "Ungrouped" when that is blank. */
  lemma TopologyGroupPrefixDir(path: string, d: string, f: string)
    requires GroupPath(path) == d + "/" + f
    requires '/' !in f && d != [] && d[|d| - 1] != '/'
    ensures TopologyGroupPrefix(path) == (if Strip(d) == "" then "Ungrouped" else Strip(d))
  {
    DirNameOf(d, f);
  }

  /** A path `d/f` holding no backslash and no "topologies/" is grouped under `d` when `d`
      has no surrounding whitespace. */
  lemma TopologyGroupPrefixClean(d: string, f: string)
    requires '\\' !in d && '\\' !in f && !Contains(d + "/" + f, "topologies/")
    requires '/' !in f && d != [] && d[|d| - 1] != '/' && !IsSpace(d[0]) && !IsSpace(d[|d| - 1])
    ensures TopologyGroupPrefix(d + "/" + f) == d
  {
    var path := d + "/" + f;
    ReplaceCharAbsent(path, '\\', '/');
    ReplaceAllNotContained(path, "topologies/", "");
    TopologyGroupPrefixDir(path, d, f);
    StripUnpadded(d);
  }

  /** The documented example: borg/800/0_1000/DE.json is grouped under borg/800/0_1000. */
  lemma TopologyGroupPrefixExample()
    ensures TopologyGroupPrefix("borg/800/0_1000" + "/" + "DE.json") == "borg/800/0_1000"
  {
    NotContainsHead("borg/800/0_1000" + "/" + "DE.json", "topologies/");
    TopologyGroupPrefixClean("borg/800/0_1000", "DE.json");
  }

  /** An option that clean_selection keeps: not a special entry and not a placeholder file. */
  predicate IsValidOption(opt: string)
  {
    opt != "[Keep original]" && opt != "[Select All]" && !EndsWith(opt, ".gitkeep")
  }

  /** clean_selection: resolves "[Select All]" to all valid options, otherwise keeps the
      valid selections; None when nothing was selected or nothing valid remains. */
  function CleanSelection(selections: seq<string>, fullOptions: seq<string>): (r: Option<seq<string>>)
    ensures selections == [] ==> r.None?
    ensures r.Some? ==> forall x :: x in r.value ==> IsValidOption(x)
    ensures r.Some? ==> "[Keep original]" !in r.value && "[Select All]" !in r.value
    ensures "[Select All]" in selections ==>
      r.Some? && forall x :: x in r.value <==> x in fullOptions && IsValidOption(x)
    ensures "[Select All]" !in selections ==>
      (r.None? <==> forall x :: x in selections ==> !IsValidOption(x))
    ensures "[Select All]" !in selections && r.Some? ==>
      forall x :: x in r.value <==> x in selections && IsValidOption(x)
  {
    if selections == [] then None
    else if "[Select All]" in selections then
      var all := Filter(fullOptions, IsValidOption);
      assert forall x :: x in all <==> x in fullOptions && IsValidOption(x) by {
        forall x { FilterMembership(fullOptions, IsValidOption, x); }
      }
      Some(all)
    else
      var filtered := Filter(selections, IsValidOption);
      assert forall x :: x in filtered <==> x in selections && IsValidOption(x) by {
        forall x { FilterMembership(selections, IsValidOption, x); }
      }
      assert filtered != [] ==> filtered[0] in filtered;
      if filtered == [] then None else Some(filtered)
  }

  /** filter_files_by_keyword: the files whose lower-cased name contains the stripped,
      lower-cased keyword; every file when the keyword is blank. */
  function FilterFilesByKeyword(files: seq<string>, keyword: string): (r: seq<string>)
    ensures Strip(keyword) == "" ==> r == files
    ensures Strip(keyword) != "" ==>
      forall f :: f in r <==> f in files && Contains(Lower(f), Lower(Strip(keyword)))
  {
    var kw := Lower(Strip(keyword));
    if kw == "" then files
    else
      var matches := f => Contains(Lower(f), kw);
      var kept := Filter(files, matches);
      assert forall f :: f in kept <==> f in files && Contains(Lower(f), kw) by {
        forall f { FilterMembership(files, matches, f); }
      }
      kept
  }

  /** The values frange yields: start, start + step, ... while not above `end`. */
  function RangeValues(start: int, end: int, step: int): seq<int>
    requires step > 0 || start > end
    decreases if start > end then 0 else end - start + 1
  {
    if start > end then [] else [start] + RangeValues(start + step, end, step)
  }

  /** The values start at `start`, go up by `step`, never exceed `end`, and stop at the
      first value past `end`; there are none exactly when `start` is past `end`. */
  lemma {:induction false} RangeValuesSpec(start: int, end: int, step: int)
    requires step > 0 || start > end
    ensures var r := RangeValues(start, end, step);
      && (start > end <==> r == [])
      && (r != [] ==> r[0] == start && r[|r| - 1] + step > end)
      && (forall k, m :: 0 <= k && m == k + 1 && m < |r| ==> r[m] == r[k] + step)
      && (forall k :: 0 <= k < |r| ==> r[k] <= end)
    decreases if start > end then 0 else end - start + 1
  {
    if start <= end {
      RangeValuesSpec(start + step, end, step);
      var rest := RangeValues(start + step, end, step);
      var r := [start] + rest;
      assert r == RangeValues(start, end, step);
      forall k, m | 0 <= k && m == k + 1 && m < |r|
        ensures r[m] == r[k] + step
      {
        if k > 0 {
          assert r[k] == rest[k - 1] && r[m] == rest[m - 1];
        }
      }
    }
  }

  /** frange for integer arguments: the loop stops only once `current` exceeds `end`,
      so it ends exactly when the step is positive or the range is empty. */
  method FRange(start: int, end: int, step: int) returns (result: seq<int>)
    requires step > 0 || start > end
    ensures result == RangeValues(start, end, step)
  {
    result := [];
    var current := start;
    assert [] + RangeValues(start, end, step) == RangeValues(start, end, step);
    while current <= end
      invariant step > 0 || current > end
      invariant result + RangeValues(current, end, step) == RangeValues(start, end, step)
      decreases if current > end then 0 else end - current + 1
    {
      ghost var rest := RangeValues(current + step, end, step);
      assert RangeValues(current, end, step) == [current] + rest;
      assert result + ([current] + rest) == (result + [current]) + rest;
      result := result + [current];
      current := current + step;
    }
    assert result + [] == result;
  }

  /** str() of each value. */
  function Texts(vals: seq<int>): (r: seq<string>)
    ensures |r| == |vals|
    ensures forall k :: 0 <= k < |vals| ==> r[k] == IntToString(vals[k])
  {
    seq(|vals|, k requires 0 <= k < |vals| => IntToString(vals[k]))
  }

  /** [s.strip() for s in parts] */
  function StripAll(parts: seq<string>): (r: seq<string>)
    ensures |r| == |parts|
    ensures forall k :: 0 <= k < |parts| ==> r[k] == Strip(parts[k])
  {
    seq(|parts|, k requires 0 <= k < |parts| => Strip(parts[k]))
  }

  /** A segment in range syntax: it contains both '-' and ':'. */
  predicate IsRangeSegment(seg: string)
  {
    '-' in seg && ':' in seg
  }

  /** start, end and step of a range segment: exactly one ':' and, before it, exactly
      one '-', each part read by int(); raises otherwise. */
  function RangeBounds(seg: string): (r: Result<(int, int, int)>)
  {
    var parts := Split(seg, ':');
    if |parts| != 2 then Raised
    else
      var startEnd := Split(parts[0], '-');
      if |startEnd| != 2 then Raised
      else
        var start :- ParseInt(startEnd[0]);
        var end :- ParseInt(startEnd[1]);
        var step :- ParseInt(parts[1]);
        Ok((start, end, step))
  }

  /** A range segment on which frange never returns. */
  predicate Diverges(seg: string)
  {
    IsRangeSegment(seg) && RangeBounds(seg).Ok?
    && RangeBounds(seg).value.2 <= 0 && RangeBounds(seg).value.0 <= RangeBounds(seg).value.1
  }

  /** The tokens one '+'-segment contributes. */
  function SegmentTokens(seg: string): (r: Result<seq<string>>)
    requires !Diverges(seg)
  {
    if IsRangeSegment(seg) then
      match RangeBounds(seg)
      case Raised => Raised
      case Ok((start, end, step)) => Ok(Texts(RangeValues(start, end, step)))
    else if ',' in seg then Ok(StripAll(Split(seg, ',')))
    else Ok([seg])
  }

  /** What one segment yields: a range segment raises exactly when its bounds do not
      read as integers, and otherwise yields the texts of the frange values, each
      reading back as its value; a comma segment yields its trimmed pieces, one more
      than it has commas; any other segment yields itself. */
  lemma SegmentTokensSpec(seg: string)
    requires !Diverges(seg)
    ensures IsRangeSegment(seg) ==> (SegmentTokens(seg).Ok? <==> RangeBounds(seg).Ok?)
    ensures IsRangeSegment(seg) && RangeBounds(seg).Ok? ==>
      var (start, end, step) := RangeBounds(seg).value;
      var tokens := SegmentTokens(seg).value;
      |tokens| == |RangeValues(start, end, step)|
      && forall k :: 0 <= k < |tokens| ==> ParseInt(tokens[k]) == Ok(RangeValues(start, end, step)[k])
    ensures !IsRangeSegment(seg) && ',' in seg ==>
      var tokens := SegmentTokens(seg).value;
      SegmentTokens(seg).Ok? && |tokens| == multiset(seg)[','] + 1
      && forall k :: 0 <= k < |tokens| ==> tokens[k] == Strip(Split(seg, ',')[k])
    ensures !IsRangeSegment(seg) && ',' !in seg ==> SegmentTokens(seg) == Ok([seg])
  {
    if IsRangeSegment(seg) && RangeBounds(seg).Ok? {
      var (start, end, step) := RangeBounds(seg).value;
      var vals := RangeValues(start, end, step);
      forall k | 0 <= k < |vals| ensures ParseInt(Texts(vals)[k]) == Ok(vals[k]) {
        IntToStringRoundTrip(vals[k]);
      }
    } else if !IsRangeSegment(seg) && ',' in seg {
      SplitParts(seg, ',');
    }
  }

  /** How parse_input's loop body handles one segment, case by case. */
  lemma OutcomeCases(seg: string)
    ensures IsRangeSegment(seg) && RangeBounds(seg).Raised? ==> OutcomeOf(seg) == Fails
    ensures IsRangeSegment(seg) && RangeBounds(seg).Ok? && OutcomeOf(seg) != Loops ==>
      var (start, end, step) := RangeBounds(seg).value;
      (step > 0 || start > end) && OutcomeOf(seg) == Yields(Texts(RangeValues(start, end, step)))
    ensures !IsRangeSegment(seg) && ',' in seg ==> OutcomeOf(seg) == Yields(StripAll(Split(seg, ',')))
    ensures !IsRangeSegment(seg) && ',' !in seg ==> OutcomeOf(seg) == Yields([seg])
  {
  }

  /** The trimmed '+'-segments of an input; none for blank input. */
  function Segments(input: string): seq<string>
  {
    var t := Strip(input);
    if t == "" then [] else StripAll(Split(t, '+'))
  }

  /** What handling one segment does: never return, raise, or yield tokens. */
  datatype SegmentOutcome = Loops | Fails | Yields(tokens: seq<string>)

  function OutcomeOf(seg: string): SegmentOutcome
  {
    if Diverges(seg) then Loops
    else match SegmentTokens(seg)
      case Raised => Fails
      case Ok(tokens) => Yields(tokens)
  }

  function Outcomes(segs: seq<string>): (r: seq<SegmentOutcome>)
    ensures |r| == |segs|
    ensures forall k :: 0 <= k < |segs| ==> r[k] == OutcomeOf(segs[k])
  {
    seq(|segs|, k requires 0 <= k < |segs| => OutcomeOf(segs[k]))
  }

  /** No segment reached before the first one that raises loops forever. */
  predicate Halts(outs: seq<SegmentOutcome>)
  {
    outs == [] || (outs[0] != Loops && (outs[0] == Fails || Halts(outs[1..])))
  }

  /** `prefix` followed by the tokens of `rest`, unless `rest` raised. */
  function Prepend(prefix: seq<string>, rest: Result<seq<string>>): (r: Result<seq<string>>)
    ensures r.Ok? <==> rest.Ok?
  {
    match rest
    case Raised => Raised
    case Ok(tokens) => Ok(prefix + tokens)
  }

  /** The tokens of the segments, concatenated in order; raises at the first segment that raises. */
  function ConcatTokens(outs: seq<SegmentOutcome>): (r: Result<seq<string>>)
    requires Halts(outs)
    ensures r.Ok? <==> forall k :: 0 <= k < |outs| ==> outs[k].Yields?
  {
    if outs == [] then Ok([])
    else
      match outs[0]
      case Fails => Raised
      case Yields(first) => Prepend(first, ConcatTokens(outs[1..]))
  }

  /** Segments contribute additively: the tokens of two runs of segments are the tokens
      of the first run followed by those of the second. */
  lemma {:induction false} ConcatTokensAppend(a: seq<SegmentOutcome>, b: seq<SegmentOutcome>)
    requires Halts(a + b)
    ensures Halts(a)
    ensures ConcatTokens(a).Raised? ==> ConcatTokens(a + b).Raised?
    ensures ConcatTokens(a).Ok? ==> Halts(b) && ConcatTokens(a + b) == Prepend(ConcatTokens(a).value, ConcatTokens(b))
  {
    if a == [] {
      assert a + b == b;
      if ConcatTokens(b).Ok? {
        assert [] + ConcatTokens(b).value == ConcatTokens(b).value;
      }
    } else {
      assert (a + b)[0] == a[0];
      assert (a + b)[1..] == a[1..] + b;
      if a[0].Yields? {
        ConcatTokensAppend(a[1..], b);
        if ConcatTokens(a[1..]).Ok? {
          PrependTwice(a[0].tokens, ConcatTokens(a[1..]).value, ConcatTokens(b));
        }
      }
    }
  }

  /** parse_input: strips the input, splits it on '+', and appends each trimmed
      segment's tokens in order. */
  method ParseInput(input: string) returns (r: Result<seq<string>>)
    requires Halts(Outcomes(Segments(input)))
    ensures r == ConcatTokens(Outcomes(Segments(input)))
    ensures Strip(input) == "" ==> r == Ok([])
  {
    var t := Strip(input);
    if t == "" {
      return Ok([]);
    }
    var segments := StripAll(Split(t, '+'));
    ghost var outs := Outcomes(segments);
    assert segments == Segments(input);
    var result: seq<string> := [];
    assert outs[0..] == outs;
    assert ConcatTokens(outs).Ok? ==> [] + ConcatTokens(outs).value == ConcatTokens(outs).value;
    for i := 0 to |segments|
      invariant Halts(outs[i..])
      invariant ConcatTokens(outs) == Prepend(result, ConcatTokens(outs[i..]))
    {
      var segment := segments[i];
      assert outs[i..][0] == OutcomeOf(segment) && outs[i..][1..] == outs[i + 1..];
      var outcome := ParseSegment(segment);
      if outcome.Fails? {
        return Raised;
      }
      PrependTwice(result, outcome.tokens, ConcatTokens(outs[i + 1..]));
      result := result + outcome.tokens;
    }
    assert outs[|segments|..] == [];
    assert result + [] == result;
    return Ok(result);
  }

  /** The body of parse_input's loop for one segment that does not loop forever:
      a range through frange, a comma list split and trimmed, or the segment itself. */
  method ParseSegment(segment: string) returns (o: SegmentOutcome)
    requires !Diverges(segment)
    ensures o == OutcomeOf(segment)
    ensures o != Loops
  {
    OutcomeCases(segment);
    if '-' in segment && ':' in segment {
      var bounds := RangeBounds(segment);
      if bounds.Raised? {
        return Fails;
      }
      var (start, end, step) := bounds.value;
      var vals := FRange(start, end, step);
      return Yields(Texts(vals));
    } else if ',' in segment {
      return Yields(StripAll(Split(segment, ',')));
    } else {
      return Yields([segment]);
    }
  }

  lemma PrependTwice(a: seq<string>, b: seq<string>, rest: Result<seq<string>>)
    ensures Prepend(a, Prepend(b, rest)) == Prepend(a + b, rest)
  {
    if rest.Ok? {
      assert a + (b + rest.value) == (a + b) + rest.value;
    }
  }
}
