/** The pprof wire messages (`profile.proto`) that the profile API and the
    replayer read. Strings are indices into `stringTable`; mappings,
    functions and locations refer to each other by 64-bit id. Only the
    fields the modelled code reads are kept. */
module Pprof {
  import opened Wrappers
  import opened Ints

  datatype ValueType = ValueType(ty: i64, unit: i64)

  datatype Mapping = Mapping(
    id: u64,
    memoryStart: u64,
    memoryLimit: u64,
    fileOffset: u64,
    filename: i64,
    buildId: i64)

  datatype Function = Function(
    id: u64,
    name: i64,
    systemName: i64,
    filename: i64,
    startLine: i64)

  datatype Line = Line(functionId: u64, line: i64)

  datatype Location = Location(
    id: u64,
    mappingId: u64,
    address: u64,
    lines: seq<Line>,
    isFolded: bool)

  datatype Label = Label(key: i64, str: i64, num: i64, numUnit: i64)

  datatype Sample = Sample(locationIds: seq<u64>, values: seq<i64>, labels: seq<Label>)

  datatype Profile = Profile(
    sampleTypes: seq<ValueType>,
    samples: seq<Sample>,
    mappings: seq<Mapping>,
    locations: seq<Location>,
    functions: seq<Function>,
    stringTable: seq<string>,
    timeNanos: i64,
    durationNanos: i64,
    periodType: Option<ValueType>,
    period: i64)
}
