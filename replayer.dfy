/** The profile replayer: reads a pprof profile back into API values through
    a `ProfileIndex`, and sets aside the endpoint of every sample that has
    both a "local root span id" and a "trace endpoint" label. The index is
    not part of this model; it is taken as partial maps from ids to entries,
    and whether it could be built at all is a parameter. */
module ProfilingReplayer {
  import opened Wrappers
  import opened Ints
  import opened Seqs
  import Pprof
  import opened ProfileApi

  /** The lookups a `ProfileIndex` offers over its profile. */
  datatype ProfileIndex = ProfileIndex(
    pprof: Pprof.Profile,
    strings: map<i64, string>,
    mappings: map<u64, Pprof.Mapping>,
    locations: map<u64, Pprof.Location>,
    functions: map<u64, Pprof.Function>)

  datatype ReplayError =
    | IndexFailed
    | StringMissing(stringId: i64)
    | MappingMissing(mappingId: u64)
    | LocationMissing(locationId: u64)
    | FunctionMissing(functionId: u64)
    | NegativeDuration(durationNanos: i64)
    | ZeroLocalRootSpanId
    | EndpointWithoutString

  /** A local root span id and the endpoint it served. */
  type Endpoint = (u64, string)

  datatype Replayer = Replayer(
    profileIndex: ProfileIndex,
    startTime: int,
    duration: nat,
    endTime: int,
    sampleTypes: seq<ValueType>,
    period: Option<Period>,
    endpoints: seq<Endpoint>,
    samples: seq<Sample>)

  const LOCAL_ROOT_SPAN_ID := "local root span id"
  const TRACE_ENDPOINT := "trace endpoint"

  // ---------------------------------------------------------------------
  // Index lookups

  function GetString(index: ProfileIndex, id: i64): (r: Result<string, ReplayError>)
    ensures r.Success? <==> id in index.strings
    ensures r.Success? ==> r.value == index.strings[id]
    ensures r.Failure? ==> r.error == StringMissing(id)
  {
    if id in index.strings then Success(index.strings[id]) else Failure(StringMissing(id))
  }

  // ---------------------------------------------------------------------
  // Time

  /** A point in time (nanoseconds since the epoch) moved by a signed number
      of nanoseconds: a negative amount subtracts its magnitude. */
  function SystemTimeAdd(systemTime: int, ns: i64): (r: int)
    ensures r == systemTime + ns as int
  {
    if ns < 0 then systemTime - UnsignedAbs(ns) else systemTime + AsU64(ns)
  }

  function StartTime(pprof: Pprof.Profile): (t: int)
    ensures t == pprof.timeNanos as int
  {
    SystemTimeAdd(0, pprof.timeNanos)
  }

  /** `duration_nanos` as a `Duration`; a negative value does not fit in a
      `u64` and is an error. */
  function Duration(pprof: Pprof.Profile): (r: Result<nat, ReplayError>)
    ensures r.Success? <==> pprof.durationNanos >= 0
    ensures r.Success? ==> r.value == pprof.durationNanos as int
    ensures r.Failure? ==> r.error == NegativeDuration(pprof.durationNanos)
  {
    if 0 <= pprof.durationNanos then Success(pprof.durationNanos as nat)
    else Failure(NegativeDuration(pprof.durationNanos))
  }

  // ---------------------------------------------------------------------
  // Sample types and period

  function GetValueType(index: ProfileIndex, t: Pprof.ValueType): (r: Result<ValueType, ReplayError>)
    ensures r.Success? <==> t.ty in index.strings && t.unit in index.strings
    ensures r.Success? ==> r.value == ValueType(index.strings[t.ty], index.strings[t.unit])
  {
    match GetString(index, t.ty)
    case Failure(e) => Failure(e)
    case Success(ty) =>
      match GetString(index, t.unit)
      case Failure(e) => Failure(e)
      case Success(unit) => Success(ValueType(ty, unit))
  }

  function ValueTypeGetter(index: ProfileIndex): Pprof.ValueType -> Result<ValueType, ReplayError> {
    t => GetValueType(index, t)
  }

  /** One value type per pprof sample type, in order, or the first failure. */
  method SampleTypes(index: ProfileIndex) returns (r: Result<seq<ValueType>, ReplayError>)
    ensures r == MapAll(index.pprof.sampleTypes, ValueTypeGetter(index))
    ensures r.Success? ==> |r.value| == |index.pprof.sampleTypes|
  {
    var ts := index.pprof.sampleTypes;
    var sampleTypes := [];
    for i := 0 to |ts|
      invariant MapAll(ts[..i], ValueTypeGetter(index)) == Success(sampleTypes)
    {
      var ty := GetString(index, ts[i].ty);
      if ty.Failure? {
        MapAllFailsAt(ts, i, ValueTypeGetter(index));
        return Failure(ty.error);
      }
      var unit := GetString(index, ts[i].unit);
      if unit.Failure? {
        MapAllFailsAt(ts, i, ValueTypeGetter(index));
        return Failure(unit.error);
      }
      MapAllExtends(ts, i, ValueTypeGetter(index));
      sampleTypes := sampleTypes + [ValueType(ty.value, unit.value)];
    }
    assert ts[..|ts|] == ts;
    r := Success(sampleTypes);
  }

  /** The period: present exactly when the profile has a period type, and
      then carrying the profile's `period` as its value. */
  function PeriodOf(index: ProfileIndex): (r: Result<Option<Period>, ReplayError>)
    ensures index.pprof.periodType.None? ==> r == Success(None)
    ensures index.pprof.periodType.Some? ==>
      (r.Success? <==> GetValueType(index, index.pprof.periodType.value).Success?)
    ensures r.Success? && r.value.Some? ==>
      r.value.value == Period(GetValueType(index, index.pprof.periodType.value).value, index.pprof.period)
  {
    var value := index.pprof.period;
    match index.pprof.periodType
    case Some(periodType) =>
      (match GetValueType(index, periodType)
       case Failure(e) => Failure(e)
       case Success(ty) => Success(Some(Period(ty, value))))
    case None => Success(None)
  }

  // ---------------------------------------------------------------------
  // Labels

  function GetOptionalString(index: ProfileIndex, id: i64): (r: Result<Option<string>, ReplayError>)
    ensures id == 0 ==> r == Success(None)
    ensures id != 0 ==> (r.Success? <==> id in index.strings)
    ensures id != 0 && r.Success? ==> r.value == Some(index.strings[id])
  {
    if id == 0 then Success(None)
    else match GetString(index, id)
      case Failure(e) => Failure(e)
      case Success(s) => Success(Some(s))
  }

  function GetLabel(index: ProfileIndex, l: Pprof.Label): (r: Result<Label, ReplayError>)
    ensures r.Success? <==>
      l.key in index.strings && (l.str != 0 ==> l.str in index.strings) &&
      (l.numUnit != 0 ==> l.numUnit in index.strings)
    ensures r.Success? ==> r.value.key == index.strings[l.key] && r.value.num == l.num
    ensures r.Success? ==> (r.value.str.None? <==> l.str == 0) && (r.value.numUnit.None? <==> l.numUnit == 0)
    ensures r.Success? && l.str != 0 ==> r.value.str == Some(index.strings[l.str])
    ensures r.Success? && l.numUnit != 0 ==> r.value.numUnit == Some(index.strings[l.numUnit])
  {
    match GetString(index, l.key)
    case Failure(e) => Failure(e)
    case Success(key) =>
      match GetOptionalString(index, l.str)
      case Failure(e) => Failure(e)
      case Success(str) =>
        match GetOptionalString(index, l.numUnit)
        case Failure(e) => Failure(e)
        case Success(numUnit) => Success(Label(key, str, l.num, numUnit))
  }

  function LabelGetter(index: ProfileIndex): Pprof.Label -> Result<Label, ReplayError> {
    l => GetLabel(index, l)
  }

  /** Index `i` holds the first label with key `key`. */
  predicate FirstWithKey(labels: seq<Label>, key: string, i: int) {
    0 <= i < |labels| && labels[i].key == key && forall j :: 0 <= j < i ==> labels[j].key != key
  }

  function KeyIs(key: string): Label -> bool {
    (l: Label) => l.key == key
  }

  function KeyIsNot(key: string): Label -> bool {
    (l: Label) => l.key != key
  }

  /** The endpoint of a sample's decoded labels: absent unless both a local
      root span id label and a trace endpoint label exist; otherwise built
      from the first of each, the id being the label's number read as a
      `u64`, which must not be zero, and the endpoint its string, which must
      be present. */
  function EndpointOf(labels: seq<Label>): (r: Result<Option<Endpoint>, ReplayError>)
    ensures (forall i :: 0 <= i < |labels| ==> labels[i].key != LOCAL_ROOT_SPAN_ID) ==> r == Success(None)
    ensures (forall i :: 0 <= i < |labels| ==> labels[i].key != TRACE_ENDPOINT) ==> r == Success(None)
    ensures forall i, j :: FirstWithKey(labels, LOCAL_ROOT_SPAN_ID, i) && FirstWithKey(labels, TRACE_ENDPOINT, j) ==>
      (labels[i].num == 0 ==> r == Failure(ZeroLocalRootSpanId)) &&
      (labels[i].num != 0 && labels[j].str.None? ==> r == Failure(EndpointWithoutString)) &&
      (labels[i].num != 0 && labels[j].str.Some? ==> r == Success(Some((AsU64(labels[i].num), labels[j].str.value))))
  {
    FindFirstIsFirst(labels, KeyIs(LOCAL_ROOT_SPAN_ID));
    FindFirstIsFirst(labels, KeyIs(TRACE_ENDPOINT));
    var lrsi := FindFirst(labels, KeyIs(LOCAL_ROOT_SPAN_ID));
    var endpoint := FindFirst(labels, KeyIs(TRACE_ENDPOINT));
    if lrsi.Some? && endpoint.Some? then
      var localRootSpanId := AsU64(labels[lrsi.value].num);
      if localRootSpanId == 0 then Failure(ZeroLocalRootSpanId)
      else match labels[endpoint.value].str
        case None => Failure(EndpointWithoutString)
        case Some(v) => Success(Some((localRootSpanId, v)))
    else Success(None)
  }

  /** The labels of a sample and its endpoint: every decoded label whose key
      is not "trace endpoint", in order, and the endpoint of the decoded
      labels. */
  function SampleLabelsOf(index: ProfileIndex, sample: Pprof.Sample): (r: Result<(seq<Label>, Option<Endpoint>), ReplayError>)
    ensures r.Success? <==>
      MapAll(sample.labels, LabelGetter(index)).Success? &&
      EndpointOf(MapAll(sample.labels, LabelGetter(index)).value).Success?
    ensures r.Success? ==>
      var decoded := MapAll(sample.labels, LabelGetter(index)).value;
      r.value.0 == Filter(decoded, KeyIsNot(TRACE_ENDPOINT)) &&
      r.value.1 == EndpointOf(decoded).value
  {
    match MapAll(sample.labels, LabelGetter(index))
    case Failure(e) => Failure(e)
    case Success(labels) =>
      match EndpointOf(labels)
      case Failure(e) => Failure(e)
      case Success(info) => Success((Filter(labels, KeyIsNot(TRACE_ENDPOINT)), info))
  }

  /** No "trace endpoint" label is kept, and every other decoded label is. */
  lemma SampleLabelsDropOnlyEndpoints(index: ProfileIndex, sample: Pprof.Sample)
    requires SampleLabelsOf(index, sample).Success?
    ensures var kept := SampleLabelsOf(index, sample).value.0;
      var decoded := MapAll(sample.labels, LabelGetter(index)).value;
      |kept| <= |decoded| &&
      (forall i :: 0 <= i < |kept| ==> kept[i].key != TRACE_ENDPOINT && kept[i] in decoded) &&
      (forall i :: 0 <= i < |decoded| && decoded[i].key != TRACE_ENDPOINT ==> decoded[i] in kept)
  {
    var decoded := MapAll(sample.labels, LabelGetter(index)).value;
    var kept := Filter(decoded, KeyIsNot(TRACE_ENDPOINT));
    assert forall i :: 0 <= i < |kept| ==> KeyIsNot(TRACE_ENDPOINT)(kept[i]);
  }

  /** `sample_labels`: decodes every label in order, works out the endpoint,
      then drops the "trace endpoint" labels. */
  method SampleLabels(index: ProfileIndex, sample: Pprof.Sample) returns (r: Result<(seq<Label>, Option<Endpoint>), ReplayError>)
    ensures r == SampleLabelsOf(index, sample)
  {
    var labels := [];
    for i := 0 to |sample.labels|
      invariant MapAll(sample.labels[..i], LabelGetter(index)) == Success(labels)
    {
      var l := sample.labels[i];
      var key := GetString(index, l.key);
      if key.Failure? {
        MapAllFailsAt(sample.labels, i, LabelGetter(index));
        return Failure(key.error);
      }
      var str: Option<string> := None;
      if l.str != 0 {
        var s := GetString(index, l.str);
        if s.Failure? {
          MapAllFailsAt(sample.labels, i, LabelGetter(index));
          return Failure(s.error);
        }
        str := Some(s.value);
      }
      var numUnit: Option<string> := None;
      if l.numUnit != 0 {
        var u := GetString(index, l.numUnit);
        if u.Failure? {
          MapAllFailsAt(sample.labels, i, LabelGetter(index));
          return Failure(u.error);
        }
        numUnit := Some(u.value);
      }
      MapAllExtends(sample.labels, i, LabelGetter(index));
      labels := labels + [Label(key.value, str, l.num, numUnit)];
    }
    assert sample.labels[..|sample.labels|] == sample.labels;

    var lrsi := FindFirst(labels, KeyIs(LOCAL_ROOT_SPAN_ID));
    var endpoint := FindFirst(labels, KeyIs(TRACE_ENDPOINT));
    var endpointInfo: Option<Endpoint> := None;
    if lrsi.Some? && endpoint.Some? {
      var localRootSpanId := AsU64(labels[lrsi.value].num);
      if localRootSpanId == 0 {
        return Failure(ZeroLocalRootSpanId);
      }
      var endpointValue;
      match labels[endpoint.value].str {
        case Some(v) => endpointValue := v;
        case None => return Failure(EndpointWithoutString);
      }
      endpointInfo := Some((localRootSpanId, endpointValue));
    }
    labels := Filter(labels, KeyIsNot(TRACE_ENDPOINT));
    r := Success((labels, endpointInfo));
  }

  // ---------------------------------------------------------------------
  // Locations

  function GetMapping(index: ProfileIndex, id: u64): (r: Result<Mapping, ReplayError>)
    ensures r.Success? <==>
      id in index.mappings && index.mappings[id].filename in index.strings &&
      index.mappings[id].buildId in index.strings
    ensures r.Success? ==>
      var m := index.mappings[id];
      r.value == Mapping(m.memoryStart, m.memoryLimit, m.fileOffset, index.strings[m.filename], index.strings[m.buildId])
    ensures id !in index.mappings ==> r == Failure(MappingMissing(id))
  {
    if id !in index.mappings then Failure(MappingMissing(id))
    else
      var m := index.mappings[id];
      match GetString(index, m.filename)
      case Failure(e) => Failure(e)
      case Success(filename) =>
        match GetString(index, m.buildId)
        case Failure(e) => Failure(e)
        case Success(buildId) => Success(Mapping(m.memoryStart, m.memoryLimit, m.fileOffset, filename, buildId))
  }

  function GetFunction(index: ProfileIndex, id: u64): (r: Result<Function, ReplayError>)
    ensures r.Success? <==>
      id in index.functions && index.functions[id].name in index.strings &&
      index.functions[id].systemName in index.strings && index.functions[id].filename in index.strings
    ensures r.Success? ==>
      var f := index.functions[id];
      r.value == Function(index.strings[f.name], index.strings[f.systemName], index.strings[f.filename], f.startLine)
    ensures id !in index.functions ==> r == Failure(FunctionMissing(id))
  {
    if id !in index.functions then Failure(FunctionMissing(id))
    else
      var f := index.functions[id];
      match GetString(index, f.name)
      case Failure(e) => Failure(e)
      case Success(name) =>
        match GetString(index, f.systemName)
        case Failure(e) => Failure(e)
        case Success(systemName) =>
          match GetString(index, f.filename)
          case Failure(e) => Failure(e)
          case Success(filename) => Success(Function(name, systemName, filename, f.startLine))
  }

  function GetLine(index: ProfileIndex, line: Pprof.Line): (r: Result<Line, ReplayError>)
    ensures r.Success? <==> GetFunction(index, line.functionId).Success?
    ensures r.Success? ==> r.value == Line(GetFunction(index, line.functionId).value, line.line)
  {
    match GetFunction(index, line.functionId)
    case Failure(e) => Failure(e)
    case Success(func) => Success(Line(func, line.line))
  }

  function LineGetter(index: ProfileIndex): Pprof.Line -> Result<Line, ReplayError> {
    line => GetLine(index, line)
  }

  /** The location with id `id`: its mapping, then its lines in order. */
  function LocationOf(index: ProfileIndex, id: u64): (r: Result<Location, ReplayError>)
    ensures id !in index.locations ==> r == Failure(LocationMissing(id))
    ensures r.Success? <==>
      id in index.locations && GetMapping(index, index.locations[id].mappingId).Success? &&
      MapAll(index.locations[id].lines, LineGetter(index)).Success?
    ensures r.Success? ==>
      var loc := index.locations[id];
      r.value.mapping == GetMapping(index, loc.mappingId).value && r.value.address == loc.address &&
      r.value.lines == MapAll(loc.lines, LineGetter(index)).value && r.value.isFolded == loc.isFolded
  {
    if id !in index.locations then Failure(LocationMissing(id))
    else
      var loc := index.locations[id];
      match GetMapping(index, loc.mappingId)
      case Failure(e) => Failure(e)
      case Success(mapping) =>
        match MapAll(loc.lines, LineGetter(index))
        case Failure(e) => Failure(e)
        case Success(lines) => Success(Location(mapping, loc.address, lines, loc.isFolded))
  }

  /** `get_location`: looks the location up, resolves its mapping, then
      pushes its lines one by one. */
  method GetLocation(index: ProfileIndex, id: u64) returns (r: Result<Location, ReplayError>)
    ensures r == LocationOf(index, id)
  {
    if id !in index.locations {
      return Failure(LocationMissing(id));
    }
    var loc := index.locations[id];
    var mapping := GetMapping(index, loc.mappingId);
    if mapping.Failure? {
      return Failure(mapping.error);
    }
    var lines := [];
    for i := 0 to |loc.lines|
      invariant MapAll(loc.lines[..i], LineGetter(index)) == Success(lines)
    {
      var line := GetLine(index, loc.lines[i]);
      if line.Failure? {
        MapAllFailsAt(loc.lines, i, LineGetter(index));
        return Failure(line.error);
      }
      MapAllExtends(loc.lines, i, LineGetter(index));
      lines := lines + [line.value];
    }
    assert loc.lines[..|loc.lines|] == loc.lines;
    r := Success(Location(mapping.value, loc.address, lines, loc.isFolded));
  }

  function LocationGetter(index: ProfileIndex): u64 -> Result<Location, ReplayError> {
    (id: u64) => LocationOf(index, id)
  }

  /** One location per location id of the sample, in order, or the first
      failure. */
  method SampleLocations(index: ProfileIndex, sample: Pprof.Sample) returns (r: Result<seq<Location>, ReplayError>)
    ensures r == MapAll(sample.locationIds, LocationGetter(index))
    ensures r.Success? ==> |r.value| == |sample.locationIds|
  {
    var ids := sample.locationIds;
    var locations := [];
    for i := 0 to |ids|
      invariant MapAll(ids[..i], LocationGetter(index)) == Success(locations)
    {
      var location := GetLocation(index, ids[i]);
      if location.Failure? {
        MapAllFailsAt(ids, i, LocationGetter(index));
        return Failure(location.error);
      }
      MapAllExtends(ids, i, LocationGetter(index));
      locations := locations + [location.value];
    }
    assert ids[..|ids|] == ids;
    r := Success(locations);
  }

  // ---------------------------------------------------------------------
  // Samples

  /** One pprof sample read back: its labels first, then its locations. */
  function SampleEntry(index: ProfileIndex, sample: Pprof.Sample): (r: Result<(Sample, Option<Endpoint>), ReplayError>)
    ensures r.Success? <==>
      SampleLabelsOf(index, sample).Success? && MapAll(sample.locationIds, LocationGetter(index)).Success?
    ensures r.Success? ==>
      r.value.0 == Sample(MapAll(sample.locationIds, LocationGetter(index)).value, sample.values,
        SampleLabelsOf(index, sample).value.0) &&
      r.value.1 == SampleLabelsOf(index, sample).value.1
  {
    match SampleLabelsOf(index, sample)
    case Failure(e) => Failure(e)
    case Success((labels, endpoint)) =>
      match MapAll(sample.locationIds, LocationGetter(index))
      case Failure(e) => Failure(e)
      case Success(locations) => Success((Sample(locations, sample.values, labels), endpoint))
  }

  function SampleEntryGetter(index: ProfileIndex): Pprof.Sample -> Result<(Sample, Option<Endpoint>), ReplayError> {
    sample => SampleEntry(index, sample)
  }

  /** The samples of a list of entries, in order. */
  function SamplesPart(entries: seq<(Sample, Option<Endpoint>)>): (r: seq<Sample>)
    ensures |r| == |entries|
    ensures forall i :: 0 <= i < |entries| ==> r[i] == entries[i].0
  {
    if entries == [] then []
    else SamplesPart(entries[..|entries| - 1]) + [entries[|entries| - 1].0]
  }

  /** The endpoints of a list of entries, in order, skipping the entries
      without one. */
  function EndpointsPart(entries: seq<(Sample, Option<Endpoint>)>): (r: seq<Endpoint>)
    ensures |r| <= |entries|
    ensures forall i :: 0 <= i < |entries| && entries[i].1.Some? ==> entries[i].1.value in r
    ensures forall i :: 0 <= i < |r| ==> exists k :: 0 <= k < |entries| && entries[k].1 == Some(r[i])
  {
    if entries == [] then []
    else
      var last := entries[|entries| - 1];
      var init := entries[..|entries| - 1];
      assert forall k :: 0 <= k < |init| ==> init[k] == entries[k];
      EndpointsPart(init) + (if last.1.Some? then [last.1.value] else [])
  }

  /** The endpoint slot of every entry, present or not, in order. */
  function EndpointSlots(entries: seq<(Sample, Option<Endpoint>)>): seq<Option<Endpoint>> {
    seq(|entries|, i requires 0 <= i < |entries| => entries[i].1)
  }

  /** The collected endpoints are exactly the present ones, in sample
      order. */
  lemma {:induction false} EndpointsInOrder(entries: seq<(Sample, Option<Endpoint>)>)
    ensures EndpointsPart(entries) == Somes(EndpointSlots(entries))
    decreases |entries|
  {
    if entries != [] {
      var init := entries[..|entries| - 1];
      EndpointsInOrder(init);
      assert EndpointSlots(entries)[..|entries| - 1] == EndpointSlots(init);
    }
  }

  /** Every pprof sample read back, in order, with the endpoints found on
      the way. */
  function SamplesOf(index: ProfileIndex): (r: Result<(seq<Sample>, seq<Endpoint>), ReplayError>)
    ensures r.Success? <==> forall i :: 0 <= i < |index.pprof.samples| ==> SampleEntry(index, index.pprof.samples[i]).Success?
    ensures r.Success? ==> |r.value.0| == |index.pprof.samples|
    ensures r.Success? ==> |r.value.1| <= |r.value.0|
    ensures r.Success? ==> forall i :: 0 <= i < |index.pprof.samples| ==>
      r.value.0[i] == SampleEntry(index, index.pprof.samples[i]).value.0 &&
      r.value.0[i].values == index.pprof.samples[i].values
    ensures r.Success? ==> r.value.1 == Somes(SampleEndpointSlots(index))
  {
    match MapAll(index.pprof.samples, SampleEntryGetter(index))
    case Failure(e) => Failure(e)
    case Success(entries) =>
      EndpointsInOrder(entries);
      SlotsOfEntries(index, entries);
      Success((SamplesPart(entries), EndpointsPart(entries)))
  }

  /** The endpoint each pprof sample yields, present or not, in sample
      order. */
  function SampleEndpointSlots(index: ProfileIndex): seq<Option<Endpoint>>
    requires forall i :: 0 <= i < |index.pprof.samples| ==> SampleEntry(index, index.pprof.samples[i]).Success?
  {
    var ss := index.pprof.samples;
    seq(|ss|, i requires 0 <= i < |ss| => SampleEntry(index, ss[i]).value.1)
  }

  lemma SlotsOfEntries(index: ProfileIndex, entries: seq<(Sample, Option<Endpoint>)>)
    requires MapAll(index.pprof.samples, SampleEntryGetter(index)) == Success(entries)
    ensures EndpointSlots(entries) == SampleEndpointSlots(index)
  {
    assert forall i :: 0 <= i < |entries| ==> entries[i] == SampleEntryGetter(index)(index.pprof.samples[i]).value;
  }

  /** `samples`: reads every sample in order and collects the endpoints that
      are present. */
  method Samples(index: ProfileIndex) returns (r: Result<(seq<Sample>, seq<Endpoint>), ReplayError>)
    ensures r == SamplesOf(index)
  {
    var ss := index.pprof.samples;
    var endpoints := [];
    var samples := [];
    ghost var entries := [];
    for i := 0 to |ss|
      invariant MapAll(ss[..i], SampleEntryGetter(index)) == Success(entries)
      invariant samples == SamplesPart(entries)
      invariant endpoints == EndpointsPart(entries)
    {
      var labelsAndEndpoint := SampleLabels(index, ss[i]);
      if labelsAndEndpoint.Failure? {
        MapAllFailsAt(ss, i, SampleEntryGetter(index));
        return Failure(labelsAndEndpoint.error);
      }
      var (labels, endpoint) := labelsAndEndpoint.value;
      var locations := SampleLocations(index, ss[i]);
      if locations.Failure? {
        MapAllFailsAt(ss, i, SampleEntryGetter(index));
        return Failure(locations.error);
      }
      MapAllExtends(ss, i, SampleEntryGetter(index));
      var entry := (Sample(locations.value, ss[i].values, labels), endpoint);
      assert (entries + [entry])[..|entries|] == entries;
      entries := entries + [entry];
      samples := samples + [entry.0];
      if endpoint.Some? {
        endpoints := endpoints + [endpoint.value];
      }
    }
    assert ss[..|ss|] == ss;
    r := Success((samples, endpoints));
  }

  // ---------------------------------------------------------------------
  // The replayer

  /** The replayer of a profile, given the outcome of building its index:
      index, duration, sample types, period, samples, the first failure in
      that order being the result. */
  function ReplayerOf(pprof: Pprof.Profile, indexed: Result<ProfileIndex, ReplayError>): (r: Result<Replayer, ReplayError>)
    requires indexed.Success? ==> indexed.value.pprof == pprof
    ensures indexed.Failure? ==> r == Failure(indexed.error)
    ensures indexed.Success? && pprof.durationNanos < 0 ==> r == Failure(NegativeDuration(pprof.durationNanos))
    ensures r.Success? ==> r.value.startTime == pprof.timeNanos as int
    ensures r.Success? ==> r.value.duration == pprof.durationNanos as int
    ensures r.Success? ==> r.value.endTime == r.value.startTime + r.value.duration
    ensures r.Success? ==> |r.value.sampleTypes| == |pprof.sampleTypes|
    ensures r.Success? ==> (r.value.period.None? <==> pprof.periodType.None?)
    ensures r.Success? && r.value.period.Some? ==> r.value.period.value.value == pprof.period
    ensures r.Success? ==> |r.value.samples| == |pprof.samples| && |r.value.endpoints| <= |r.value.samples|
    ensures indexed.Success? ==>
      (r.Success? <==>
        pprof.durationNanos >= 0 && MapAll(pprof.sampleTypes, ValueTypeGetter(indexed.value)).Success? &&
        PeriodOf(indexed.value).Success? && SamplesOf(indexed.value).Success?)
    ensures r.Success? ==>
      && r.value.profileIndex == indexed.value
      && MapAll(pprof.sampleTypes, ValueTypeGetter(indexed.value)) == Success(r.value.sampleTypes)
      && PeriodOf(indexed.value) == Success(r.value.period)
      && SamplesOf(indexed.value) == Success((r.value.samples, r.value.endpoints))
  {
    match indexed
    case Failure(e) => Failure(e)
    case Success(index) =>
      var startTime := StartTime(pprof);
      match Duration(pprof)
      case Failure(e) => Failure(e)
      case Success(duration) =>
        match MapAll(index.pprof.sampleTypes, ValueTypeGetter(index))
        case Failure(e) => Failure(e)
        case Success(sampleTypes) =>
          match PeriodOf(index)
          case Failure(e) => Failure(e)
          case Success(period) =>
            match SamplesOf(index)
            case Failure(e) => Failure(e)
            case Success((samples, endpoints)) =>
              Success(Replayer(index, startTime, duration, startTime + duration, sampleTypes, period, endpoints, samples))
  }

  /** `TryFrom<&pprof::Profile> for Replayer`. */
  method TryFrom(pprof: Pprof.Profile, indexed: Result<ProfileIndex, ReplayError>) returns (r: Result<Replayer, ReplayError>)
    requires indexed.Success? ==> indexed.value.pprof == pprof
    ensures r == ReplayerOf(pprof, indexed)
  {
    if indexed.Failure? {
      return Failure(indexed.error);
    }
    var index := indexed.value;
    var startTime := StartTime(pprof);
    var duration := Duration(pprof);
    if duration.Failure? {
      return Failure(duration.error);
    }
    var endTime := startTime + duration.value;
    var sampleTypes := SampleTypes(index);
    if sampleTypes.Failure? {
      assert ReplayerOf(pprof, indexed) == Failure(sampleTypes.error);
      return Failure(sampleTypes.error);
    }
    var period := PeriodOf(index);
    if period.Failure? {
      assert ReplayerOf(pprof, indexed) == Failure(period.error);
      return Failure(period.error);
    }
    var samples := Samples(index);
    if samples.Failure? {
      assert ReplayerOf(pprof, indexed) == Failure(samples.error);
      return Failure(samples.error);
    }
    r := Success(Replayer(index, startTime, duration.value, endTime, sampleTypes.value, period.value,
                          samples.value.1, samples.value.0));
  }
}
