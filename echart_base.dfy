/**
 * The chart component's serializer options and its three serialized outputs.
 *
 * All charts share one static cache of serializer options: the first chart that
 * builds options with caching on stores them, and every later chart with caching
 * on gets that same instance back, whatever converters it asked for.
 */
module ChartSerialization {
  import opened Wrappers
  import opened DataSourceRefs

  /** The converters the options can hold; the built-in ones are tags, a caller's converter is named. */
  datatype Converter =
    | DateOnlyJsonConverter
    | DateTimeJsonConverter
    | DateTimeOffsetJsonConverter
    | SeriesDataConverterFactory
    | ExternalDataSourceConverter
    | ExternalDataSourceRefConverter
    | Custom(name: string)

  datatype NamingPolicy = DefaultNaming | CamelCase
  datatype IgnoreCondition = Never | WhenWritingNull

  /** The content of a serializer options instance. */
  datatype Settings = Settings(naming: NamingPolicy, ignore: IgnoreCondition, converters: seq<Converter>)

  /** What the serializer uses when it is given no options. */
  const DefaultSettings := Settings(DefaultNaming, Never, [])

  const BuiltIns: seq<Converter> :=
    [DateOnlyJsonConverter, DateTimeJsonConverter, DateTimeOffsetJsonConverter, SeriesDataConverterFactory]

  /** The caller's converters; a null array contributes none. */
  function CustomConverters(jsonConverters: Option<seq<Converter>>): seq<Converter>
  {
    if jsonConverters.Some? then jsonConverters.value else []
  }

  /** The converter list of freshly built options, in registration order. */
  function BuiltConverters(custom: seq<Converter>): (cs: seq<Converter>)
    ensures |cs| == 4 + |custom| + 2
    ensures cs[0] == DateOnlyJsonConverter && cs[1] == DateTimeJsonConverter
    ensures cs[2] == DateTimeOffsetJsonConverter && cs[3] == SeriesDataConverterFactory
    ensures forall i :: 0 <= i < |custom| ==> cs[4 + i] == custom[i]
    ensures cs[|cs| - 2] == ExternalDataSourceConverter
    ensures cs[|cs| - 1] == ExternalDataSourceRefConverter
  {
    BuiltIns + custom + [ExternalDataSourceConverter, ExternalDataSourceRefConverter]
  }

  /** Freshly built options: camelCase names, nulls omitted, converters in registration order. */
  function Build(custom: seq<Converter>): Settings
  {
    Settings(CamelCase, WhenWritingNull, BuiltConverters(custom))
  }

  /** One call of CreateSerializerOptions on values: the options it returns and the cache afterwards. */
  datatype Call = Call(caching: bool, custom: seq<Converter>)

  function Step(cache: Option<Settings>, call: Call): (out: (Settings, Option<Settings>))
    ensures call.caching && cache.Some? ==> out.0 == cache.value
    ensures !(call.caching && cache.Some?) ==> out.0 == Build(call.custom)
    ensures cache.Some? || !call.caching ==> out.1 == cache
    ensures cache.None? && call.caching ==> out.1 == Some(Build(call.custom))
  {
    if call.caching && cache.Some? then (cache.value, cache)
    else
      var built := Build(call.custom);
      (built, if call.caching && cache.None? then Some(built) else cache)
  }

  /** The options returned by a series of calls, in order. */
  function Results(cache: Option<Settings>, calls: seq<Call>): (rs: seq<Settings>)
    ensures |rs| == |calls|
    decreases |calls|
  {
    if calls == [] then [] else [Step(cache, calls[0]).0] + Results(Step(cache, calls[0]).1, calls[1..])
  }

  /** The cache after a series of calls. */
  function FinalCache(cache: Option<Settings>, calls: seq<Call>): Option<Settings>
    decreases |calls|
  {
    if calls == [] then cache else FinalCache(Step(cache, calls[0]).1, calls[1..])
  }

  /** A cache that is set stays set, and every caching call gets exactly its content. */
  lemma {:induction false} CacheNeverChanges(c: Settings, calls: seq<Call>)
    ensures FinalCache(Some(c), calls) == Some(c)
    ensures forall i :: 0 <= i < |calls| && calls[i].caching ==> Results(Some(c), calls)[i] == c
    decreases |calls|
  {
    if calls != [] {
      CacheNeverChanges(c, calls[1..]);
      var rs := Results(Some(c), calls);
      forall i | 0 <= i < |calls| && calls[i].caching
        ensures rs[i] == c
      {
        if i > 0 {
          assert rs[i] == Results(Some(c), calls[1..])[i - 1];
          assert calls[1..][i - 1] == calls[i];
        }
      }
    }
  }

  /** A call with caching off always builds new options from its own converters. */
  lemma {:induction false} UncachedCallBuildsFresh(cache: Option<Settings>, calls: seq<Call>, i: nat)
    requires i < |calls| && !calls[i].caching
    ensures Results(cache, calls)[i] == Build(calls[i].custom)
    decreases i
  {
    if i > 0 {
      UncachedCallBuildsFresh(Step(cache, calls[0]).1, calls[1..], i - 1);
      assert calls[1..][i - 1] == calls[i];
    }
  }

  /** With caching off throughout, the cache is never written. */
  lemma {:induction false} NoCachingLeavesCache(cache: Option<Settings>, calls: seq<Call>)
    requires forall i :: 0 <= i < |calls| ==> !calls[i].caching
    ensures FinalCache(cache, calls) == cache
    decreases |calls|
  {
    if calls != [] {
      assert !calls[0].caching;
      NoCachingLeavesCache(cache, calls[1..]);
    }
  }

  /**
   * First build wins: starting from an empty cache, the first call with caching on
   * stores its options, and that call and every later caching call return them,
   * ignoring the later calls' own converters.
   */
  lemma {:induction false} FirstBuildWins(calls: seq<Call>, k: nat)
    requires k < |calls| && calls[k].caching
    requires forall j :: 0 <= j < k ==> !calls[j].caching
    ensures FinalCache(None, calls) == Some(Build(calls[k].custom))
    ensures forall i :: k <= i < |calls| && calls[i].caching ==> Results(None, calls)[i] == Build(calls[k].custom)
    decreases k
  {
    var c := Build(calls[k].custom);
    if k == 0 {
      assert Step(None, calls[0]) == (c, Some(c));
      CacheNeverChanges(c, calls[1..]);
      var rs := Results(None, calls);
      forall i | 0 <= i < |calls| && calls[i].caching
        ensures rs[i] == c
      {
        if i > 0 {
          assert rs[i] == Results(Some(c), calls[1..])[i - 1];
          assert calls[1..][i - 1] == calls[i];
        }
      }
    } else {
      assert !calls[0].caching;
      assert Step(None, calls[0]).1 == None;
      forall j | 0 <= j < k - 1
        ensures !calls[1..][j].caching
      {
        assert calls[1..][j] == calls[j + 1];
      }
      FirstBuildWins(calls[1..], k - 1);
      var rs := Results(None, calls);
      forall i | k <= i < |calls| && calls[i].caching
        ensures rs[i] == c
      {
        assert rs[i] == Results(None, calls[1..])[i - 1];
        assert calls[1..][i - 1] == calls[i];
      }
    }
  }

  /** A serializer options instance; its converter list grows as converters are added. */
  class JsonSerializerOptions {
    var propertyNamingPolicy: NamingPolicy
    var defaultIgnoreCondition: IgnoreCondition
    var converters: seq<Converter>

    constructor(naming: NamingPolicy, ignore: IgnoreCondition)
      ensures propertyNamingPolicy == naming && defaultIgnoreCondition == ignore
      ensures converters == []
    {
      propertyNamingPolicy := naming;
      defaultIgnoreCondition := ignore;
      converters := [];
    }

    function Content(): Settings
      reads this
    {
      Settings(propertyNamingPolicy, defaultIgnoreCondition, converters)
    }

    /** `Converters.Add`. */
    method AddConverter(c: Converter)
      modifies this
      ensures converters == old(converters) + [c]
      ensures propertyNamingPolicy == old(propertyNamingPolicy)
      ensures defaultIgnoreCondition == old(defaultIgnoreCondition)
    {
      converters := converters + [c];
    }
  }

  /**
   * The static cache field, as an object. Sharing it is up to whoever builds the
   * charts: every chart given the same object sees one cache.
   */
  class SerializerOptionsCache {
    var cachedJsonOpts: JsonSerializerOptions?

    constructor()
      ensures cachedJsonOpts == null
    {
      cachedJsonOpts := null;
    }

    function Content(): Option<Settings>
      reads this, cachedJsonOpts
    {
      if cachedJsonOpts == null then None else Some(cachedJsonOpts.Content())
    }
  }

  /** The settings a serializer call uses: the given options, or the defaults for null. */
  function Effective(opts: JsonSerializerOptions?): Settings
    reads opts
  {
    if opts == null then DefaultSettings else opts.Content()
  }

  /** The command the browser runs to fetch one external data source. */
  datatype FetchCommand = FetchCommand(source: ExternalDataSource)

  /** `JsonSerializer.Serialize(value, options)`: the value and the settings it is serialized with. */
  datatype Document<T> = Document(value: T, settings: Settings)

  /**
   * The building half of `CreateSerializerOptions`: new options with camelCase
   * names and nulls omitted, and the converters registered one by one.
   */
  method NewOptions(jsonConverters: Option<seq<Converter>>) returns (opts: JsonSerializerOptions)
    ensures fresh(opts)
    ensures opts.Content() == Build(CustomConverters(jsonConverters))
  {
    opts := new JsonSerializerOptions(CamelCase, WhenWritingNull);
    opts.AddConverter(DateOnlyJsonConverter);
    opts.AddConverter(DateTimeJsonConverter);
    opts.AddConverter(DateTimeOffsetJsonConverter);
    opts.AddConverter(SeriesDataConverterFactory);
    if jsonConverters.Some? {
      var custom := jsonConverters.value;
      for i := 0 to |custom|
        invariant opts.converters == BuiltIns + custom[..i]
        invariant opts.propertyNamingPolicy == CamelCase && opts.defaultIgnoreCondition == WhenWritingNull
      {
        opts.AddConverter(custom[i]);
        assert custom[..i + 1] == custom[..i] + [custom[i]];
      }
      assert custom[..|custom|] == custom;
    }
    assert opts.converters == BuiltIns + CustomConverters(jsonConverters);
    opts.AddConverter(ExternalDataSourceConverter);
    opts.AddConverter(ExternalDataSourceRefConverter);
    assert opts.Content() == Build(CustomConverters(jsonConverters));
  }

  /** A chart component with chart options of type O and map definitions of type M. */
  class EChart<O, M> {
    const statics: SerializerOptionsCache
    var options: O
    var maps: Option<seq<M>>
    var externalDataSources: Option<seq<ExternalDataSource>>
    var jsonConverters: Option<seq<Converter>>
    var cacheJsonSerializerOptions: bool
    var jsonOpts: JsonSerializerOptions?

    constructor(statics: SerializerOptionsCache, options: O)
      ensures this.statics == statics && this.options == options
      ensures maps.None? && externalDataSources.None? && jsonConverters.None?
      ensures cacheJsonSerializerOptions && jsonOpts == null
    {
      this.statics := statics;
      this.options := options;
      maps := None;
      externalDataSources := None;
      jsonConverters := None;
      cacheJsonSerializerOptions := true;
      jsonOpts := null;
    }

    /**
     * `CreateSerializerOptions`: returns the cached options when caching is on and
     * the cache is set; otherwise builds new options and stores them in the cache
     * when caching is on and the cache is empty. Neither the chart nor any existing
     * options object changes.
     */
    method CreateSerializerOptions() returns (r: JsonSerializerOptions)
      modifies statics
      ensures Step(old(statics.Content()), Call(cacheJsonSerializerOptions, CustomConverters(jsonConverters)))
              == (r.Content(), statics.Content())
      ensures old(cacheJsonSerializerOptions && statics.cachedJsonOpts != null) ==>
                r == old(statics.cachedJsonOpts) && statics.cachedJsonOpts == r
      ensures old(!cacheJsonSerializerOptions || statics.cachedJsonOpts == null) ==> fresh(r)
      ensures statics.cachedJsonOpts ==
                if old(cacheJsonSerializerOptions && statics.cachedJsonOpts == null) then r
                else old(statics.cachedJsonOpts)
    {
      if cacheJsonSerializerOptions && statics.cachedJsonOpts != null {
        return statics.cachedJsonOpts;
      }
      var opts := NewOptions(jsonConverters);
      if cacheJsonSerializerOptions && statics.cachedJsonOpts == null {
        statics.cachedJsonOpts := opts;
      }
      return opts;
    }

    /**
     * `Serialize`: the chart options with the chart's options instance; the map
     * definitions only when asked for and present; one fetch command per external
     * source, in order, with default options, only when there are sources.
     */
    method Serialize(serializeMapOpts: bool)
      returns (chartOpts: Document<O>, mapOpts: Option<Document<seq<M>>>, fetchOpts: Option<Document<seq<FetchCommand>>>)
      ensures chartOpts == Document(options, Effective(jsonOpts))
      ensures mapOpts.None? <==> !serializeMapOpts || maps.None? || |maps.value| == 0
      ensures mapOpts.Some? ==> mapOpts.value == Document(maps.value, Effective(jsonOpts))
      ensures fetchOpts.None? <==> externalDataSources.None? || |externalDataSources.value| == 0
      ensures fetchOpts.Some? ==>
                fetchOpts.value.settings == DefaultSettings &&
                |fetchOpts.value.value| == |externalDataSources.value| &&
                forall i :: 0 <= i < |externalDataSources.value| ==>
                  fetchOpts.value.value[i].source == externalDataSources.value[i]
    {
      chartOpts := Document(options, Effective(jsonOpts));
      mapOpts := if !serializeMapOpts || maps.None? || |maps.value| == 0 then None
                 else Some(Document(maps.value, Effective(jsonOpts)));
      fetchOpts := None;
      if externalDataSources.Some? && |externalDataSources.value| != 0 {
        var sources := externalDataSources.value;
        fetchOpts := Some(Document(seq(|sources|, i requires 0 <= i < |sources| => FetchCommand(sources[i])), DefaultSettings));
      }
    }
  }

  /**
   * Two charts sharing the cache, both with caching on: the second chart gets the
   * first chart's options object back, with the first chart's converters, and its
   * own converters are not applied.
   */
  method SecondChartSharesFirstOptions<O, M>(statics: SerializerOptionsCache, o1: O, o2: O, a: Converter, b: Converter)
    returns (first: JsonSerializerOptions, second: JsonSerializerOptions)
    requires statics.cachedJsonOpts == null
    modifies statics
    ensures first == second
    ensures second.converters == BuiltConverters([a])
    ensures b.Custom? && a != b ==> b !in second.converters
  {
    var chart1 := new EChart<O, M>(statics, o1);
    chart1.jsonConverters := Some([a]);
    first := chart1.CreateSerializerOptions();
    var chart2 := new EChart<O, M>(statics, o2);
    chart2.jsonConverters := Some([b]);
    second := chart2.CreateSerializerOptions();
    assert second.converters == [DateOnlyJsonConverter, DateTimeJsonConverter, DateTimeOffsetJsonConverter,
      SeriesDataConverterFactory, a, ExternalDataSourceConverter, ExternalDataSourceRefConverter];
  }
}
