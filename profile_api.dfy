/** The API view of a pprof profile: strings resolved from the string table,
    mappings, functions and locations resolved from their ids, and every
    resolution failure reported as an error. `SystemTime` is modelled as
    signed nanoseconds since the Unix epoch and `Duration` as nanoseconds. */
module ProfileApi {
  import opened Wrappers
  import opened Ints
  import opened Seqs
  import Pprof

  datatype ValueType = ValueType(ty: string, unit: string)

  datatype Period = Period(ty: ValueType, value: i64)

  datatype Mapping = Mapping(
    memoryStart: u64,
    memoryLimit: u64,
    fileOffset: u64,
    filename: string,
    buildId: string)

  const DEFAULT_MAPPING := Mapping(0, 0, 0, "", "")

  datatype Function = Function(name: string, systemName: string, filename: string, startLine: i64)

  const DEFAULT_FUNCTION := Function("", "", "", 0)

  datatype Line = Line(func: Function, line: i64)

  datatype Location = Location(mapping: Mapping, address: u64, lines: seq<Line>, isFolded: bool)

  const DEFAULT_LOCATION := Location(DEFAULT_MAPPING, 0, [], false)

  /** At most one of `str` and `num` should be present; `numUnit` belongs
      with `num`. */
  datatype Label = Label(key: string, str: Option<string>, num: i64, numUnit: Option<string>)

  datatype Sample = Sample(locations: seq<Location>, values: seq<i64>, labels: seq<Label>)

  /** How sampled values are scaled up; the `scale` of `Proportional` is a
      float and is not modelled. */
  datatype UpscalingInfo =
    | Poisson(sumValueOffset: nat, countValueOffset: nat, samplingDistance: u64)
    | Proportional

  datatype Profile = Profile(
    duration: nat,
    period: Option<(i64, ValueType)>,
    sampleTypes: seq<ValueType>,
    samples: seq<Sample>,
    startTime: int)

  datatype ApiError =
    | StringNotFound(stringId: i64)
    | MappingNotFound(mappingId: u64)
    | FunctionNotFound(functionId: u64)
    | LocationNotFound(locationId: u64)
    | OffsetsOutOfRange
    | ZeroSamplingDistance

  // ---------------------------------------------------------------------
  // Validators

  /** A label carries a number when `num` is non-zero or it has a unit. */
  predicate NumPresent(lbl: Label) {
    lbl.num != 0 || lbl.numUnit.Some?
  }

  function UsesAtMostOneOfStrAndNum(lbl: Label): (b: bool)
    ensures b <==> !(lbl.str.Some? && NumPresent(lbl))
  {
    lbl.str.None? || (lbl.num == 0 && lbl.numUnit.None?)
  }

  /** The six labels of the unit tests, with their verdicts. */
  lemma UsesAtMostOneExamples()
    ensures !UsesAtMostOneOfStrAndNum(Label("name", Some("levi"), 0, Some("name")))
    ensures !UsesAtMostOneOfStrAndNum(Label("name", Some("levi"), 10, None))
    ensures UsesAtMostOneOfStrAndNum(Label("name", Some("levi"), 0, None))
    ensures UsesAtMostOneOfStrAndNum(Label("process_id", None, 0, None))
    ensures UsesAtMostOneOfStrAndNum(Label("local root span id", None, 10901, None))
    ensures UsesAtMostOneOfStrAndNum(Label("duration", None, 12345, Some("nanoseconds")))
  {
  }

  predicate OffsetsInRange(sumValueOffset: nat, countValueOffset: nat, numberOfValues: nat) {
    sumValueOffset < numberOfValues && countValueOffset < numberOfValues
  }

  /** Poisson upscaling needs both offsets to index a value and a non-zero
      sampling distance; the offsets are checked first. Proportional
      upscaling is always valid. */
  function CheckValidity(info: UpscalingInfo, numberOfValues: nat): (r: Result<(), ApiError>)
    ensures r.Success? <==>
      (info.Poisson? ==>
        OffsetsInRange(info.sumValueOffset, info.countValueOffset, numberOfValues) && info.samplingDistance != 0)
    ensures r == Failure(OffsetsOutOfRange) <==>
      info.Poisson? && !OffsetsInRange(info.sumValueOffset, info.countValueOffset, numberOfValues)
    ensures r == Failure(ZeroSamplingDistance) <==>
      info.Poisson? && OffsetsInRange(info.sumValueOffset, info.countValueOffset, numberOfValues) &&
      info.samplingDistance == 0
  {
    match info
    case Poisson(sumValueOffset, countValueOffset, samplingDistance) =>
      if !(sumValueOffset < numberOfValues && countValueOffset < numberOfValues) then Failure(OffsetsOutOfRange)
      else if samplingDistance == 0 then Failure(ZeroSamplingDistance)
      else Success(())
    case Proportional => Success(())
  }

  // ---------------------------------------------------------------------
  // Lookups

  /** The string at index `id`, the id read as an unsigned 64-bit index
      (`usize` is taken to be 64 bits wide, so `as usize` changes nothing). */
  function StringTableFetch(pprof: Pprof.Profile, id: i64): (r: Result<string, ApiError>)
    ensures r.Success? <==> AsU64(id) < |pprof.stringTable|
    ensures r.Success? ==> r.value == pprof.stringTable[AsU64(id)]
    ensures r.Failure? ==> r.error == StringNotFound(id)
  {
    var index := AsU64(id);
    if index < |pprof.stringTable| then Success(pprof.stringTable[index]) else Failure(StringNotFound(id))
  }

  /** A non-negative id is an ordinary index; a negative one reads as an
      index of at least 2^63, past the end of any table that fits in memory. */
  lemma StringIdSign(pprof: Pprof.Profile, id: i64)
    ensures 0 <= id ==> (StringTableFetch(pprof, id).Success? <==> id < |pprof.stringTable|)
    ensures id < 0 && |pprof.stringTable| <= TWO_63 ==> StringTableFetch(pprof, id) == Failure(StringNotFound(id))
  {
  }

  /** Resolves the strings of a pprof mapping, file name first. */
  function ResolveMapping(pprof: Pprof.Profile, m: Pprof.Mapping): (r: Result<Mapping, ApiError>)
    ensures r.Success? <==>
      StringTableFetch(pprof, m.filename).Success? && StringTableFetch(pprof, m.buildId).Success?
    ensures r.Success? ==>
      r.value == Mapping(m.memoryStart, m.memoryLimit, m.fileOffset,
        StringTableFetch(pprof, m.filename).value, StringTableFetch(pprof, m.buildId).value)
    ensures StringTableFetch(pprof, m.filename).Failure? ==> r == Failure(StringNotFound(m.filename))
  {
    match StringTableFetch(pprof, m.filename)
    case Failure(e) => Failure(e)
    case Success(filename) =>
      match StringTableFetch(pprof, m.buildId)
      case Failure(e) => Failure(e)
      case Success(buildId) => Success(Mapping(m.memoryStart, m.memoryLimit, m.fileOffset, filename, buildId))
  }

  function MappingIdIs(id: u64): Pprof.Mapping -> bool {
    (m: Pprof.Mapping) => m.id == id
  }

  /** Id 0 is the default mapping; otherwise the first mapping with that id,
      resolved, or an error when there is none. */
  function MappingFetch(pprof: Pprof.Profile, id: u64): (r: Result<Mapping, ApiError>)
    ensures id == 0 ==> r == Success(DEFAULT_MAPPING)
    ensures id != 0 && (forall i :: 0 <= i < |pprof.mappings| ==> pprof.mappings[i].id != id) ==>
      r == Failure(MappingNotFound(id))
    ensures forall i ::
      (0 <= i < |pprof.mappings| && id != 0 && pprof.mappings[i].id == id &&
       forall j :: 0 <= j < i ==> pprof.mappings[j].id != id) ==>
        r == ResolveMapping(pprof, pprof.mappings[i])
  {
    if id == 0 then Success(DEFAULT_MAPPING)
    else
      FindFirstIsFirst(pprof.mappings, MappingIdIs(id));
      match FindFirst(pprof.mappings, MappingIdIs(id))
      case None => Failure(MappingNotFound(id))
      case Some(i) => ResolveMapping(pprof, pprof.mappings[i])
  }

  /** Resolves the strings of a pprof function: name, system name, file name. */
  function ResolveFunction(pprof: Pprof.Profile, f: Pprof.Function): (r: Result<Function, ApiError>)
    ensures r.Success? <==>
      StringTableFetch(pprof, f.name).Success? && StringTableFetch(pprof, f.systemName).Success? &&
      StringTableFetch(pprof, f.filename).Success?
    ensures r.Success? ==>
      r.value == Function(StringTableFetch(pprof, f.name).value, StringTableFetch(pprof, f.systemName).value,
        StringTableFetch(pprof, f.filename).value, f.startLine)
    ensures StringTableFetch(pprof, f.name).Failure? ==> r == Failure(StringNotFound(f.name))
  {
    match StringTableFetch(pprof, f.name)
    case Failure(e) => Failure(e)
    case Success(name) =>
      match StringTableFetch(pprof, f.systemName)
      case Failure(e) => Failure(e)
      case Success(systemName) =>
        match StringTableFetch(pprof, f.filename)
        case Failure(e) => Failure(e)
        case Success(filename) => Success(Function(name, systemName, filename, f.startLine))
  }

  function FunctionIdIs(id: u64): Pprof.Function -> bool {
    (f: Pprof.Function) => f.id == id
  }

  /** Id 0 is the default function; otherwise the first function with that
      id, resolved, or an error when there is none. */
  function FunctionFetch(pprof: Pprof.Profile, id: u64): (r: Result<Function, ApiError>)
    ensures id == 0 ==> r == Success(DEFAULT_FUNCTION)
    ensures id != 0 && (forall i :: 0 <= i < |pprof.functions| ==> pprof.functions[i].id != id) ==>
      r == Failure(FunctionNotFound(id))
    ensures forall i ::
      (0 <= i < |pprof.functions| && id != 0 && pprof.functions[i].id == id &&
       forall j :: 0 <= j < i ==> pprof.functions[j].id != id) ==>
        r == ResolveFunction(pprof, pprof.functions[i])
  {
    if id == 0 then Success(DEFAULT_FUNCTION)
    else
      FindFirstIsFirst(pprof.functions, FunctionIdIs(id));
      match FindFirst(pprof.functions, FunctionIdIs(id))
      case None => Failure(FunctionNotFound(id))
      case Some(i) => ResolveFunction(pprof, pprof.functions[i])
  }

  function ResolveLine(pprof: Pprof.Profile, line: Pprof.Line): (r: Result<Line, ApiError>)
    ensures r.Success? <==> FunctionFetch(pprof, line.functionId).Success?
    ensures r.Success? ==> r.value == Line(FunctionFetch(pprof, line.functionId).value, line.line)
    ensures r.Failure? ==> r.error == FunctionFetch(pprof, line.functionId).error
  {
    match FunctionFetch(pprof, line.functionId)
    case Failure(e) => Failure(e)
    case Success(func) => Success(Line(func, line.line))
  }

  function LineResolver(pprof: Pprof.Profile): Pprof.Line -> Result<Line, ApiError> {
    line => ResolveLine(pprof, line)
  }

  /** Resolves every line in order: one output line per input line, or the
      first failure. */
  method LinesFetch(pprof: Pprof.Profile, lines: seq<Pprof.Line>) returns (r: Result<seq<Line>, ApiError>)
    ensures r == MapAll(lines, LineResolver(pprof))
    ensures r.Success? ==> |r.value| == |lines|
    ensures r.Success? ==> forall i :: 0 <= i < |lines| ==>
      r.value[i] == Line(FunctionFetch(pprof, lines[i].functionId).value, lines[i].line)
  {
    var output := [];
    for i := 0 to |lines|
      invariant MapAll(lines[..i], LineResolver(pprof)) == Success(output)
    {
      var func := FunctionFetch(pprof, lines[i].functionId);
      if func.Failure? {
        MapAllFailsAt(lines, i, LineResolver(pprof));
        return Failure(func.error);
      }
      MapAllExtends(lines, i, LineResolver(pprof));
      output := output + [Line(func.value, lines[i].line)];
    }
    assert lines[..|lines|] == lines;
    r := Success(output);
  }

  /** Resolves a pprof location: its mapping first, then its lines. */
  function ResolveLocation(pprof: Pprof.Profile, loc: Pprof.Location): (r: Result<Location, ApiError>)
    ensures r.Success? <==>
      MappingFetch(pprof, loc.mappingId).Success? && MapAll(loc.lines, LineResolver(pprof)).Success?
    ensures r.Success? ==>
      r.value == Location(MappingFetch(pprof, loc.mappingId).value, loc.address,
        MapAll(loc.lines, LineResolver(pprof)).value, loc.isFolded)
    ensures MappingFetch(pprof, loc.mappingId).Failure? ==> r == Failure(MappingFetch(pprof, loc.mappingId).error)
  {
    match MappingFetch(pprof, loc.mappingId)
    case Failure(e) => Failure(e)
    case Success(mapping) =>
      match MapAll(loc.lines, LineResolver(pprof))
      case Failure(e) => Failure(e)
      case Success(lines) => Success(Location(mapping, loc.address, lines, loc.isFolded))
  }

  function LocationIdIs(id: u64): Pprof.Location -> bool {
    (loc: Pprof.Location) => loc.id == id
  }

  /** Id 0 is the default location; otherwise the first location with that
      id, resolved, or an error when there is none. */
  function LocationFetch(pprof: Pprof.Profile, id: u64): (r: Result<Location, ApiError>)
    ensures id == 0 ==> r == Success(DEFAULT_LOCATION)
    ensures id != 0 && (forall i :: 0 <= i < |pprof.locations| ==> pprof.locations[i].id != id) ==>
      r == Failure(LocationNotFound(id))
    ensures forall i ::
      (0 <= i < |pprof.locations| && id != 0 && pprof.locations[i].id == id &&
       forall j :: 0 <= j < i ==> pprof.locations[j].id != id) ==>
        r == ResolveLocation(pprof, pprof.locations[i])
  {
    if id == 0 then Success(DEFAULT_LOCATION)
    else
      FindFirstIsFirst(pprof.locations, LocationIdIs(id));
      match FindFirst(pprof.locations, LocationIdIs(id))
      case None => Failure(LocationNotFound(id))
      case Some(i) => ResolveLocation(pprof, pprof.locations[i])
  }

  function LocationResolver(pprof: Pprof.Profile): u64 -> Result<Location, ApiError> {
    (id: u64) => LocationFetch(pprof, id)
  }

  /** Resolves every location id in order: one location per id, or the first
      failure. */
  method LocationsFetch(pprof: Pprof.Profile, ids: seq<u64>) returns (r: Result<seq<Location>, ApiError>)
    ensures r == MapAll(ids, LocationResolver(pprof))
    ensures r.Success? ==> |r.value| == |ids|
    ensures r.Success? ==> forall i :: 0 <= i < |ids| ==> r.value[i] == LocationFetch(pprof, ids[i]).value
  {
    var locations := [];
    for i := 0 to |ids|
      invariant MapAll(ids[..i], LocationResolver(pprof)) == Success(locations)
    {
      var location := LocationFetch(pprof, ids[i]);
      if location.Failure? {
        MapAllFailsAt(ids, i, LocationResolver(pprof));
        return Failure(location.error);
      }
      MapAllExtends(ids, i, LocationResolver(pprof));
      locations := locations + [location.value];
    }
    assert ids[..|ids|] == ids;
    r := Success(locations);
  }

  // ---------------------------------------------------------------------
  // The whole profile

  function ResolveValueType(pprof: Pprof.Profile, t: Pprof.ValueType): (r: Result<ValueType, ApiError>)
    ensures r.Success? <==> StringTableFetch(pprof, t.ty).Success? && StringTableFetch(pprof, t.unit).Success?
    ensures r.Success? ==> r.value == ValueType(StringTableFetch(pprof, t.ty).value, StringTableFetch(pprof, t.unit).value)
  {
    match StringTableFetch(pprof, t.ty)
    case Failure(e) => Failure(e)
    case Success(ty) =>
      match StringTableFetch(pprof, t.unit)
      case Failure(e) => Failure(e)
      case Success(unit) => Success(ValueType(ty, unit))
  }

  function ValueTypeResolver(pprof: Pprof.Profile): Pprof.ValueType -> Result<ValueType, ApiError> {
    t => ResolveValueType(pprof, t)
  }

  /** A string index of 0 is "absent"; any other index is fetched. */
  function OptionalString(pprof: Pprof.Profile, id: i64): (r: Result<Option<string>, ApiError>)
    ensures id == 0 ==> r == Success(None)
    ensures id != 0 ==> (r.Success? <==> StringTableFetch(pprof, id).Success?)
    ensures id != 0 && r.Success? ==> r.value == Some(StringTableFetch(pprof, id).value)
  {
    if id == 0 then Success(None)
    else match StringTableFetch(pprof, id)
      case Failure(e) => Failure(e)
      case Success(s) => Success(Some(s))
  }

  /** Decodes a pprof label: key, then string value, then unit; the number is
      copied. */
  function ResolveLabel(pprof: Pprof.Profile, lbl: Pprof.Label): (r: Result<Label, ApiError>)
    ensures r.Success? <==>
      StringTableFetch(pprof, lbl.key).Success? &&
      (lbl.str != 0 ==> StringTableFetch(pprof, lbl.str).Success?) &&
      (lbl.numUnit != 0 ==> StringTableFetch(pprof, lbl.numUnit).Success?)
    ensures r.Success? ==> r.value.key == StringTableFetch(pprof, lbl.key).value
    ensures r.Success? ==> (r.value.str.None? <==> lbl.str == 0)
    ensures r.Success? && lbl.str != 0 ==> r.value.str == Some(StringTableFetch(pprof, lbl.str).value)
    ensures r.Success? ==> r.value.num == lbl.num
    ensures r.Success? ==> (r.value.numUnit.None? <==> lbl.numUnit == 0)
    ensures r.Success? && lbl.numUnit != 0 ==> r.value.numUnit == Some(StringTableFetch(pprof, lbl.numUnit).value)
  {
    match StringTableFetch(pprof, lbl.key)
    case Failure(e) => Failure(e)
    case Success(key) =>
      match OptionalString(pprof, lbl.str)
      case Failure(e) => Failure(e)
      case Success(str) =>
        match OptionalString(pprof, lbl.numUnit)
        case Failure(e) => Failure(e)
        case Success(numUnit) => Success(Label(key, str, lbl.num, numUnit))
  }

  function LabelResolver(pprof: Pprof.Profile): Pprof.Label -> Result<Label, ApiError> {
    l => ResolveLabel(pprof, l)
  }

  /** Resolves a pprof sample: locations first, then labels; values are
      copied. */
  function ResolveSample(pprof: Pprof.Profile, sample: Pprof.Sample): (r: Result<Sample, ApiError>)
    ensures r.Success? <==>
      MapAll(sample.locationIds, LocationResolver(pprof)).Success? &&
      MapAll(sample.labels, LabelResolver(pprof)).Success?
    ensures r.Success? ==> r.value.values == sample.values
    ensures r.Success? ==>
      r.value.locations == MapAll(sample.locationIds, LocationResolver(pprof)).value &&
      r.value.labels == MapAll(sample.labels, LabelResolver(pprof)).value
  {
    match MapAll(sample.locationIds, LocationResolver(pprof))
    case Failure(e) => Failure(e)
    case Success(locations) =>
      match MapAll(sample.labels, LabelResolver(pprof))
      case Failure(e) => Failure(e)
      case Success(labels) => Success(Sample(locations, sample.values, labels))
  }

  function SampleResolver(pprof: Pprof.Profile): Pprof.Sample -> Result<Sample, ApiError> {
    sample => ResolveSample(pprof, sample)
  }

  /** The start of the profile: the epoch moved by the signed `time_nanos`,
      backwards by its magnitude when it is negative. */
  function StartTime(timeNanos: i64): (t: int)
    ensures t == timeNanos as int
  {
    if timeNanos < 0 then 0 - UnsignedAbs(timeNanos) else 0 + AsU64(timeNanos)
  }

  /** The period: present exactly when the period type is, and then carrying
      `period` with its resolved type. */
  function ResolvePeriod(pprof: Pprof.Profile): (r: Result<Option<(i64, ValueType)>, ApiError>)
    ensures pprof.periodType.None? ==> r == Success(None)
    ensures pprof.periodType.Some? ==> (r.Success? <==> ResolveValueType(pprof, pprof.periodType.value).Success?)
    ensures pprof.periodType.Some? && r.Success? ==>
      r.value == Some((pprof.period, ResolveValueType(pprof, pprof.periodType.value).value))
  {
    match pprof.periodType
    case None => Success(None)
    case Some(t) =>
      match ResolveValueType(pprof, t)
      case Failure(e) => Failure(e)
      case Success(ty) => Success(Some((pprof.period, ty)))
  }

  /** The API profile of a pprof profile: period, then sample types, then
      samples, the first failure in that order being the result. */
  function ProfileOf(pprof: Pprof.Profile): (r: Result<Profile, ApiError>)
    requires pprof.durationNanos >= 0
    ensures r.Success? <==>
      ResolvePeriod(pprof).Success? &&
      (forall i :: 0 <= i < |pprof.sampleTypes| ==> ResolveValueType(pprof, pprof.sampleTypes[i]).Success?) &&
      (forall i :: 0 <= i < |pprof.samples| ==> ResolveSample(pprof, pprof.samples[i]).Success?)
    ensures r.Success? ==> r.value.duration == pprof.durationNanos as int
    ensures r.Success? ==> r.value.startTime == pprof.timeNanos as int
    ensures r.Success? ==> (r.value.period.None? <==> pprof.periodType.None?)
    ensures r.Success? && r.value.period.Some? ==> r.value.period.value.0 == pprof.period
    ensures r.Success? ==> ResolvePeriod(pprof) == Success(r.value.period)
    ensures r.Success? ==> |r.value.sampleTypes| == |pprof.sampleTypes|
    ensures r.Success? ==> r.value.sampleTypes == MapAll(pprof.sampleTypes, ValueTypeResolver(pprof)).value
    ensures r.Success? ==> |r.value.samples| == |pprof.samples|
    ensures r.Success? ==> forall i :: 0 <= i < |pprof.samples| ==>
      r.value.samples[i] == ResolveSample(pprof, pprof.samples[i]).value &&
      r.value.samples[i].values == pprof.samples[i].values
  {
    match ResolvePeriod(pprof)
    case Failure(e) => Failure(e)
    case Success(period) =>
      match MapAll(pprof.sampleTypes, ValueTypeResolver(pprof))
      case Failure(e) => Failure(e)
      case Success(sampleTypes) =>
        match MapAll(pprof.samples, SampleResolver(pprof))
        case Failure(e) => Failure(e)
        case Success(samples) =>
          Success(Profile(AsU64(pprof.durationNanos), period, sampleTypes, samples, StartTime(pprof.timeNanos)))
  }

  /** `TryFrom<&pprof::Profile> for Profile`. A negative `duration_nanos`
      makes `try_from` panic on its `assert!`, so callers must not pass one. */
  method TryFrom(pprof: Pprof.Profile) returns (r: Result<Profile, ApiError>)
    requires pprof.durationNanos >= 0
    ensures r == ProfileOf(pprof)
  {
    var duration := AsU64(pprof.durationNanos);
    var startTime := if pprof.timeNanos < 0 then 0 - UnsignedAbs(pprof.timeNanos) else 0 + AsU64(pprof.timeNanos);

    var period: Option<(i64, ValueType)> := None;
    if pprof.periodType.Some? {
      var t := pprof.periodType.value;
      var ty := StringTableFetch(pprof, t.ty);
      if ty.Failure? { return Failure(ty.error); }
      var unit := StringTableFetch(pprof, t.unit);
      if unit.Failure? { return Failure(unit.error); }
      period := Some((pprof.period, ValueType(ty.value, unit.value)));
    }
    assert ResolvePeriod(pprof) == Success(period);

    var sampleTypes := [];
    for i := 0 to |pprof.sampleTypes|
      invariant MapAll(pprof.sampleTypes[..i], ValueTypeResolver(pprof)) == Success(sampleTypes)
    {
      var t := pprof.sampleTypes[i];
      var ty := StringTableFetch(pprof, t.ty);
      if ty.Failure? {
        MapAllFailsAt(pprof.sampleTypes, i, ValueTypeResolver(pprof));
        return Failure(ty.error);
      }
      var unit := StringTableFetch(pprof, t.unit);
      if unit.Failure? {
        MapAllFailsAt(pprof.sampleTypes, i, ValueTypeResolver(pprof));
        return Failure(unit.error);
      }
      MapAllExtends(pprof.sampleTypes, i, ValueTypeResolver(pprof));
      sampleTypes := sampleTypes + [ValueType(ty.value, unit.value)];
    }
    assert pprof.sampleTypes[..|pprof.sampleTypes|] == pprof.sampleTypes;

    var samples := [];
    for i := 0 to |pprof.samples|
      invariant MapAll(pprof.samples[..i], SampleResolver(pprof)) == Success(samples)
    {
      var sample := pprof.samples[i];
      var locations := LocationsFetch(pprof, sample.locationIds);
      if locations.Failure? {
        MapAllFailsAt(pprof.samples, i, SampleResolver(pprof));
        return Failure(locations.error);
      }
      var labels := LabelsFetch(pprof, sample.labels);
      if labels.Failure? {
        MapAllFailsAt(pprof.samples, i, SampleResolver(pprof));
        return Failure(labels.error);
      }
      MapAllExtends(pprof.samples, i, SampleResolver(pprof));
      samples := samples + [Sample(locations.value, sample.values, labels.value)];
    }
    assert pprof.samples[..|pprof.samples|] == pprof.samples;

    r := Success(Profile(duration, period, sampleTypes, samples, startTime));
  }

  /** The label loop of `try_from`: decodes every label of one sample in
      order, or stops at the first failure. */
  method LabelsFetch(pprof: Pprof.Profile, labels: seq<Pprof.Label>) returns (r: Result<seq<Label>, ApiError>)
    ensures r == MapAll(labels, LabelResolver(pprof))
  {
    var output := [];
    for i := 0 to |labels|
      invariant MapAll(labels[..i], LabelResolver(pprof)) == Success(output)
    {
      var lbl := labels[i];
      var key := StringTableFetch(pprof, lbl.key);
      if key.Failure? {
        MapAllFailsAt(labels, i, LabelResolver(pprof));
        return Failure(key.error);
      }
      var str: Option<string> := None;
      if lbl.str != 0 {
        var s := StringTableFetch(pprof, lbl.str);
        if s.Failure? {
          MapAllFailsAt(labels, i, LabelResolver(pprof));
          return Failure(s.error);
        }
        str := Some(s.value);
      }
      var numUnit: Option<string> := None;
      if lbl.numUnit != 0 {
        var u := StringTableFetch(pprof, lbl.numUnit);
        if u.Failure? {
          MapAllFailsAt(labels, i, LabelResolver(pprof));
          return Failure(u.error);
        }
        numUnit := Some(u.value);
      }
      MapAllExtends(labels, i, LabelResolver(pprof));
      output := output + [Label(key.value, str, lbl.num, numUnit)];
    }
    assert labels[..|labels|] == labels;
    r := Success(output);
  }
}
