/** The tags a tracer sends with each payload as HTTP headers: the six
    `datadog-meta-*` / `datadog-container-id` string headers and the two
    `datadog-client-computed-*` flags, converted to a header map and back. */
module TracerHeaderTags {
  import opened Wrappers

  datatype TracerHeaderTags = TracerHeaderTags(
    lang: string,
    langVersion: string,
    langInterpreter: string,
    langVendor: string,
    tracerVersion: string,
    containerId: string,
    clientComputedTopLevel: bool,
    clientComputedStats: bool)

  /** `TracerHeaderTags::default()`: empty strings, both flags off. */
  const DEFAULT_TAGS := TracerHeaderTags("", "", "", "", "", "", false, false)

  /** The six string fields, each carried by one header. */
  datatype StringField = Lang | LangVersion | LangInterpreter | LangVendor | TracerVersion | ContainerId

  function HeaderKey(f: StringField): string {
    match f
    case Lang => "datadog-meta-lang"
    case LangVersion => "datadog-meta-lang-version"
    case LangInterpreter => "datadog-meta-lang-interpreter"
    case LangVendor => "datadog-meta-lang-vendor"
    case TracerVersion => "datadog-meta-tracer-version"
    case ContainerId => "datadog-container-id"
  }

  function Get(tags: TracerHeaderTags, f: StringField): string {
    match f
    case Lang => tags.lang
    case LangVersion => tags.langVersion
    case LangInterpreter => tags.langInterpreter
    case LangVendor => tags.langVendor
    case TracerVersion => tags.tracerVersion
    case ContainerId => tags.containerId
  }

  const TOP_LEVEL_HEADER := "datadog-client-computed-top-level"
  const STATS_HEADER := "datadog-client-computed-stats"

  /** The six names are pairwise distinct, and neither flag header is one of
      them. */
  lemma HeaderKeysDistinct()
    ensures forall f, g :: HeaderKey(f) == HeaderKey(g) ==> f == g
    ensures forall f :: HeaderKey(f) != TOP_LEVEL_HEADER && HeaderKey(f) != STATS_HEADER
  {
    forall f ensures |HeaderKey(f)| == HeaderLength(f) {}
    assert HeaderKey(LangInterpreter)[8] != STATS_HEADER[8];
  }

  function HeaderLength(f: StringField): nat {
    match f
    case Lang => 17
    case LangVersion => 25
    case LangInterpreter => 29
    case LangVendor => 24
    case TracerVersion => 27
    case ContainerId => 20
  }

  // ---------------------------------------------------------------------
  // Tags to header map

  /** The map of all six headers, empty values included. */
  function AllHeaders(tags: TracerHeaderTags): (r: map<string, string>)
    ensures forall f :: HeaderKey(f) in r && r[HeaderKey(f)] == Get(tags, f)
    ensures forall k :: k in r ==> exists f :: HeaderKey(f) == k
  {
    HeaderKeysDistinct();
    map[
      HeaderKey(Lang) := tags.lang,
      HeaderKey(LangVersion) := tags.langVersion,
      HeaderKey(LangInterpreter) := tags.langInterpreter,
      HeaderKey(LangVendor) := tags.langVendor,
      HeaderKey(TracerVersion) := tags.tracerVersion,
      HeaderKey(ContainerId) := tags.containerId]
  }

  /** What `retain(|_, v| !v.is_empty())` leaves of `m`. */
  function RetainNonEmpty(m: map<string, string>): (r: map<string, string>)
    ensures forall k :: k in r <==> k in m && m[k] != ""
    ensures forall k :: k in r ==> r[k] == m[k]
  {
    map k | k in m && m[k] != "" :: m[k]
  }

  /** The header map a set of tags converts to. */
  function HeadersOf(tags: TracerHeaderTags): (headers: map<string, string>)
    ensures forall f :: HeaderKey(f) in headers <==> Get(tags, f) != ""
    ensures forall f :: HeaderKey(f) in headers ==> headers[HeaderKey(f)] == Get(tags, f)
    ensures forall k :: k in headers ==> exists f :: HeaderKey(f) == k
    ensures TOP_LEVEL_HEADER !in headers && STATS_HEADER !in headers
  {
    HeaderKeysDistinct();
    RetainNonEmpty(AllHeaders(tags))
  }

  /** `From<TracerHeaderTags> for HashMap`: builds the six-entry map, then
      drops the entries whose value is empty. */
  method ToHashMap(tags: TracerHeaderTags) returns (headers: map<string, string>)
    ensures headers == HeadersOf(tags)
  {
    headers := map[
      "datadog-meta-lang" := tags.lang,
      "datadog-meta-lang-version" := tags.langVersion,
      "datadog-meta-lang-interpreter" := tags.langInterpreter,
      "datadog-meta-lang-vendor" := tags.langVendor,
      "datadog-meta-tracer-version" := tags.tracerVersion,
      "datadog-container-id" := tags.containerId];
    headers := RetainNonEmpty(headers);
  }

  /** With every string field set, all six headers are present. */
  lemma AllFieldsGiveSixHeaders(tags: TracerHeaderTags)
    requires forall f :: Get(tags, f) != ""
    ensures |HeadersOf(tags)| == 6
  {
    var h := HeadersOf(tags);
    assert h.Keys == {HeaderKey(Lang), HeaderKey(LangVersion), HeaderKey(LangInterpreter),
                      HeaderKey(LangVendor), HeaderKey(TracerVersion), HeaderKey(ContainerId)};
  }

  /** An empty container id, the other fields set: five headers remain, and
      `datadog-container-id` is not one of them. */
  lemma EmptyContainerIdGivesFiveHeaders(tags: TracerHeaderTags)
    requires forall f :: f != ContainerId ==> Get(tags, f) != ""
    requires tags.containerId == ""
    ensures |HeadersOf(tags)| == 5
    ensures HeaderKey(ContainerId) !in HeadersOf(tags)
  {
    var h := HeadersOf(tags);
    assert h.Keys == {HeaderKey(Lang), HeaderKey(LangVersion), HeaderKey(LangInterpreter),
                      HeaderKey(LangVendor), HeaderKey(TracerVersion)};
  }

  // ---------------------------------------------------------------------
  // Header map to tags

  /** The string value of header `key`: absent when the header is missing or
      its value is not convertible to a string (`HeaderValue::to_str`, which
      the model takes as the parameter `toStr`). */
  function StringHeader<V>(headers: map<string, V>, toStr: V -> Option<string>, key: string): (r: Option<string>)
    ensures key !in headers ==> r.None?
    ensures r.Some? ==> key in headers && toStr(headers[key]) == r
    ensures key in headers && toStr(headers[key]).Some? ==> r == toStr(headers[key])
  {
    if key in headers then toStr(headers[key]) else None
  }

  /** The tags a header map converts to. */
  function TagsOf<V>(headers: map<string, V>, toStr: V -> Option<string>): (tags: TracerHeaderTags)
    ensures forall f :: HeaderKey(f) in headers && toStr(headers[HeaderKey(f)]).Some? ==>
      Get(tags, f) == toStr(headers[HeaderKey(f)]).value
    ensures forall f :: (HeaderKey(f) !in headers || toStr(headers[HeaderKey(f)]).None?) ==>
      Get(tags, f) == ""
    ensures tags.clientComputedTopLevel <==> TOP_LEVEL_HEADER in headers
    ensures tags.clientComputedStats <==> STATS_HEADER in headers
  {
    TracerHeaderTags(
      StringHeader(headers, toStr, HeaderKey(Lang)).GetOr(""),
      StringHeader(headers, toStr, HeaderKey(LangVersion)).GetOr(""),
      StringHeader(headers, toStr, HeaderKey(LangInterpreter)).GetOr(""),
      StringHeader(headers, toStr, HeaderKey(LangVendor)).GetOr(""),
      StringHeader(headers, toStr, HeaderKey(TracerVersion)).GetOr(""),
      StringHeader(headers, toStr, HeaderKey(ContainerId)).GetOr(""),
      TOP_LEVEL_HEADER in headers,
      STATS_HEADER in headers)
  }

  /** `tags` with field `f` set to `v`. */
  function Set(tags: TracerHeaderTags, f: StringField, v: string): TracerHeaderTags {
    match f
    case Lang => tags.(lang := v)
    case LangVersion => tags.(langVersion := v)
    case LangInterpreter => tags.(langInterpreter := v)
    case LangVendor => tags.(langVendor := v)
    case TracerVersion => tags.(tracerVersion := v)
    case ContainerId => tags.(containerId := v)
  }

  /** One arm of the `parse_string_header!` macro: field `f` takes the value
      of its header when that header is present and convertible, and is left
      alone otherwise. */
  method ParseStringHeader<V>(headers: map<string, V>, toStr: V -> Option<string>, f: StringField,
                              tags: TracerHeaderTags) returns (r: TracerHeaderTags)
    ensures r == Set(tags, f, StringHeader(headers, toStr, HeaderKey(f)).GetOr(Get(tags, f)))
  {
    r := tags;
    if HeaderKey(f) in headers {
      var h := toStr(headers[HeaderKey(f)]);
      if h.Some? {
        r := Set(tags, f, h.value);
      }
    }
    assert Set(tags, f, Get(tags, f)) == tags;
  }

  /** `From<&HeaderMap> for TracerHeaderTags`: starts from the default tags,
      copies each string header that is present and convertible, and sets a
      flag when its header is present, whatever its value. */
  method FromHeaderMap<V>(headers: map<string, V>, toStr: V -> Option<string>) returns (tags: TracerHeaderTags)
    ensures tags == TagsOf(headers, toStr)
  {
    tags := DEFAULT_TAGS;
    tags := ParseStringHeader(headers, toStr, Lang, tags);
    tags := ParseStringHeader(headers, toStr, LangVersion, tags);
    tags := ParseStringHeader(headers, toStr, LangInterpreter, tags);
    tags := ParseStringHeader(headers, toStr, LangVendor, tags);
    tags := ParseStringHeader(headers, toStr, TracerVersion, tags);
    tags := ParseStringHeader(headers, toStr, ContainerId, tags);
    if TOP_LEVEL_HEADER in headers {
      tags := tags.(clientComputedTopLevel := true);
    }
    if STATS_HEADER in headers {
      tags := tags.(clientComputedStats := true);
    }
  }

  /** Tags to headers and back: every string field comes back, an empty one
      as the `""` default, provided every non-empty value converts back to
      itself; the flags come back off, since no flag header is produced. */
  lemma RoundTrip(tags: TracerHeaderTags, toStr: string -> Option<string>)
    requires forall f :: Get(tags, f) != "" ==> toStr(Get(tags, f)) == Some(Get(tags, f))
    ensures TagsOf(HeadersOf(tags), toStr)
         == tags.(clientComputedTopLevel := false, clientComputedStats := false)
  {
    var back := TagsOf(HeadersOf(tags), toStr);
    forall f: StringField
      ensures Get(back, f) == Get(tags, f)
    {
    }
  }

  /** A flag is set by the presence of its header alone: two header maps
      with the same keys and the same string conversions give the same tags,
      whatever values the flag headers carry. */
  lemma FlagsIgnoreValues<V>(a: map<string, V>, b: map<string, V>, toStr: V -> Option<string>)
    requires a.Keys == b.Keys
    requires forall f :: HeaderKey(f) in a ==> toStr(a[HeaderKey(f)]) == toStr(b[HeaderKey(f)])
    ensures TagsOf(a, toStr) == TagsOf(b, toStr)
  {
    var ta, tb := TagsOf(a, toStr), TagsOf(b, toStr);
    forall f: StringField
      ensures Get(ta, f) == Get(tb, f)
    {
    }
  }
}
