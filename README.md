# Chart serialization core of the ECharts wrapper for Blazor

The wrapper lets a .NET component describe an Apache ECharts chart in typed C#.
It serializes that description into three JSON texts: the chart options, the
map definitions and the external-data fetch commands. The browser evaluates them.
This project models the parts of that path that decide what text is written:

- the serializer options a chart uses, including the static cache all charts
  share and the order in which converters are registered (`ChartSerialization`);
- the three outputs of `Serialize` (`ChartSerialization.EChart.Serialize`);
- the colour converter: a CSS colour string or a raw
  `new echarts.graphic.LinearGradient(...)` / `RadialGradient(...)` expression (`Colors`);
- the number / number-array / function converter (`NumberArrayOrFunctions`);
- the external-data reference converter, which writes a raw lookup expression
  keyed by fetch id (`DataSourceRefs`);
- the browser script's `evaluatePath` and the storing half of
  `fetchExternalData` (`VizorRuntime`).

The JSON writer is modelled as the sequence of tokens it has been given
(`JsonWriting.Utf8JsonWriter`): start and end of an array, a number, a quoted
string, raw text, or the output of the JavaScript-function converter.
Decimal numerals used by `FromRGB` and by array indices in the browser are in `Decimal`.
Option, Result and the .NET exception kinds are in `Wrappers`.

Doubles are kept as their IEEE bit pattern. Turning a double into text follows
the current culture, so every encoder takes that formatting as a function
parameter (`format`). In the same way, the colour converter takes the
serializer's encoding of a gradient's stop list as a parameter (`stopsJson`).

## Model

| member | source | states |
|---|---|---|
| Colors.OfString | src/PanoramicData.ECharts/Types/Color.cs:67-70 | the string constructor sets the value and leaves the graphic colour unset |
| Colors.OfGraphicColor | src/PanoramicData.ECharts/Types/Color.cs:78-81 | the gradient constructor sets the graphic colour and leaves the value unset |
| Colors.FromHex | src/PanoramicData.ECharts/Types/Color.cs:143 | the result starts with '#'; input already starting with '#' is kept, otherwise '#' is prepended |
| Colors.FromHexIdempotent | src/PanoramicData.ECharts/Types/Color.cs:143 | applying FromHex twice equals applying it once |
| Colors.FromRGB | src/PanoramicData.ECharts/Types/Color.cs:158 | the value is exactly `rgb(r, g, b)` with each component as a decimal numeral, and there is no graphic colour |
| Colors.FromRGBInjective | src/PanoramicData.ECharts/Types/Color.cs:158 | different components give different colour strings, so the three numerals can be read back |
| Colors.FromRGBA | src/PanoramicData.ECharts/Types/Color.cs:174 | the value is exactly `rgba(r, g, b, a)`: the three components as decimal numerals, then the alpha as the culture formats it |
| Colors.FromRGBAInjective | src/PanoramicData.ECharts/Types/Color.cs:174 | equal FromRGBA strings have equal components and equal alpha text, so all four can be read back |
| Colors.Transparent | src/PanoramicData.ECharts/Types/Color.cs:182 | the colour is the plain string `transparent` |
| Colors.Encode | src/PanoramicData.ECharts/Types/Color.cs:226-259 | no graphic colour gives the value as a quoted string; a graphic colour succeeds exactly when it is linear or radial, and then gives raw text; every failure is a NotSupportedException |
| Colors.GradientIsConstruction | src/PanoramicData.ECharts/Types/Color.cs:243-250 | linear gives `new echarts.graphic.LinearGradient(x, y, x2, y2, stops, global)`, radial gives `new echarts.graphic.RadialGradient(x, y, r, stops, global)` |
| Colors.GlobalFlagRecoverable | src/PanoramicData.ECharts/Types/Color.cs:235-240 | the last argument of a written gradient gives back its tri-state global flag: true, false or null |
| Colors.Read | src/PanoramicData.ECharts/Types/Color.cs:208 | a JSON string reads as a colour holding it, a JSON null as the colour `""`, any other token fails |
| Colors.ReadInvertsWriteOfString | src/PanoramicData.ECharts/Types/Color.cs:208-258 | a string colour written and read back is the same colour |
| Colors.WriteAfterRead | src/PanoramicData.ECharts/Types/Color.cs:208-258 | a colour that was read writes back as the string read, or `""` for null |
| Colors.Write | src/PanoramicData.ECharts/Types/Color.cs:226-259 | the writer gains exactly the encoded token, or nothing when the exception is thrown |
| Decimal.Numeral | src/PanoramicData.ECharts/Types/Color.cs:158 | the decimal numeral of a number is canonical: digits only, with no leading zero |
| Decimal.ParseNumeral | src/PanoramicData.ECharts/Types/Color.cs:158 | a numeral parses exactly when it is canonical |
| Decimal.NumeralRoundTrip | src/PanoramicData.ECharts/Types/Color.cs:158 | parsing the numeral of n gives n |
| Decimal.CanonicalIsNumeral | src/PanoramicData.ECharts/Types/Color.cs:158 | every canonical digit string is the numeral of its value |
| Decimal.NumeralInjective | src/PanoramicData.ECharts/Types/Color.cs:158 | different numbers have different numerals |
| NumberArrayOrFunctions.OfNumber | PanoramicData.ECharts/Types/NumberArrayOrFunction.cs:43-46 | a single number is stored as a one-element array and no function |
| NumberArrayOrFunctions.OfNumbers | PanoramicData.ECharts/Types/NumberArrayOrFunction.cs:56-59 | the array is stored as given, including null, and no function |
| NumberArrayOrFunctions.OfFunction | PanoramicData.ECharts/Types/NumberArrayOrFunction.cs:68-71 | only the function is set |
| NumberArrayOrFunctions.Encoding | PanoramicData.ECharts/Types/NumberArrayOrFunction.cs:192-215 | one element gives a bare number; any other length gives an array of all elements in order; with no numbers the function is written; with neither arm nothing is written |
| NumberArrayOrFunctions.NumbersRoundTrip | PanoramicData.ECharts/Types/NumberArrayOrFunction.cs:194-209 | the numbers can be read back from what is written, for every length |
| NumberArrayOrFunctions.SingleNumberIsBare | PanoramicData.ECharts/Types/NumberArrayOrFunction.cs:196-199 | the number n and the array [n] are written identically, as the bare number n |
| NumberArrayOrFunctions.NumbersTakePrecedence | PanoramicData.ECharts/Types/NumberArrayOrFunction.cs:194-214 | with both arms set, the numbers are written and the function is not |
| NumberArrayOrFunctions.Write | PanoramicData.ECharts/Types/NumberArrayOrFunction.cs:192-215 | the writer gains exactly the encoding of the value |
| NumberArrayOrFunctions.WriteArray | PanoramicData.ECharts/Types/NumberArrayOrFunction.cs:202-208 | the writer gains a start-array, one number per element in order, and an end-array |
| NumberArrayOrFunctions.Read | PanoramicData.ECharts/Types/NumberArrayOrFunction.cs:165 | reading always fails with NotImplementedException |
| DataSourceRefs.OfSource | PanoramicData.ECharts/Types/ExternalDataSourceRef.cs:8-12 | a reference to a source carries that source's fetch id and the path as given |
| DataSourceRefs.OfFetchId | PanoramicData.ECharts/Types/ExternalDataSourceRef.cs:14-18 | a reference to a fetch id carries that id and the path as given |
| DataSourceRefs.Expression | PanoramicData.ECharts/Types/ExternalDataSourceRef.cs:35-40 | the expression begins with the lookup call for the fetch id; no path adds nothing; a path without a leading dot adds "." and the path; a path with one adds the path alone |
| DataSourceRefs.ExpressionRoundTrip | PanoramicData.ECharts/Types/ExternalDataSourceRef.cs:35-40 | for a fetch id without an apostrophe, the fetch id and the dotted path can be read back from the expression |
| DataSourceRefs.LeadingDotIsOptional | PanoramicData.ECharts/Types/ExternalDataSourceRef.cs:38-40 | a path and the same path with a leading dot give the same expression |
| DataSourceRefs.Write | PanoramicData.ECharts/Types/ExternalDataSourceRef.cs:33-44 | the writer gains the expression as one raw token |
| DataSourceRefs.Read | PanoramicData.ECharts/Types/ExternalDataSourceRef.cs:31 | reading always fails with NotImplementedException |
| ChartSerialization.BuiltConverters | PanoramicData.ECharts/EChartBase.cs:440-456 | new options list DateOnly, DateTime, DateTimeOffset and the series-data factory, then the caller's converters in order, then ExternalDataSource and ExternalDataSourceRef last |
| ChartSerialization.Step | PanoramicData.ECharts/EChartBase.cs:422-462 | with caching on and a cached instance, that instance is returned and the cache is kept; otherwise new options are built from the caller's converters and stored only when caching is on and the cache is empty |
| ChartSerialization.NewOptions | PanoramicData.ECharts/EChartBase.cs:431-456 | new options are a fresh object with camelCase names, nulls omitted and the converters in registration order |
| ChartSerialization.CacheNeverChanges | PanoramicData.ECharts/EChartBase.cs:425-460 | once the cache is set it never changes, and every later caching call returns it |
| ChartSerialization.FirstBuildWins | PanoramicData.ECharts/EChartBase.cs:425-460 | from an empty cache, the first caching call's options are cached and returned by every later caching call, whatever converters those calls ask for |
| ChartSerialization.UncachedCallBuildsFresh | PanoramicData.ECharts/EChartBase.cs:425-456 | a call with caching off always builds new options from its own converters |
| ChartSerialization.NoCachingLeavesCache | PanoramicData.ECharts/EChartBase.cs:459-460 | calls with caching off never write the cache |
| ChartSerialization.EChart.constructor | PanoramicData.ECharts/EChartBase.cs:184 | a new chart caches options by default and has no converters, maps, sources or options instance |
| ChartSerialization.EChart.CreateSerializerOptions | PanoramicData.ECharts/EChartBase.cs:422-463 | the returned options and the new cache are those of Step; the cached instance is returned as the same object; otherwise the options object is new and uses camelCase names and omits nulls |
| ChartSerialization.EChart.Serialize | PanoramicData.ECharts/EChartBase.cs:380-396 | the chart options use the chart's options instance; the maps are serialized exactly when requested and non-empty; the fetch commands exist exactly when there are sources, one per source in order, with default options |
| ChartSerialization.SecondChartSharesFirstOptions | PanoramicData.ECharts/EChartBase.cs:425-429 | a second chart sharing the cache gets the first chart's options object and converters, not its own |
| VizorRuntime.OwnProperty | src/Vizor.ECharts/wwwroot/js/vizor-echarts-min.js:1 | `hasOwnProperty` on null throws; an object's own members are exactly its keys; a boolean or number has none |
| VizorRuntime.ArrayIndexProperty | src/Vizor.ECharts/wwwroot/js/vizor-echarts-min.js:1 | the numeral of an index below the array's length names that element, and of any other index nothing |
| VizorRuntime.StringIndexProperty | src/Vizor.ECharts/wwwroot/js/vizor-echarts-min.js:1 | a string's `length` is its length; the numeral of an in-range position names that one-character string, and of any other position nothing |
| VizorRuntime.LeadingZeroIsNoIndex | src/Vizor.ECharts/wwwroot/js/vizor-echarts-min.js:1 | a key made of a zero followed by more characters names no element of an array |
| VizorRuntime.Split | src/Vizor.ECharts/wwwroot/js/vizor-echarts-min.js:1 | splitting always gives at least one piece and no piece contains a dot |
| VizorRuntime.JoinSplit | src/Vizor.ECharts/wwwroot/js/vizor-echarts-min.js:1 | joining the pieces with dots gives the path back |
| VizorRuntime.SplitJoin | src/Vizor.ECharts/wwwroot/js/vizor-echarts-min.js:1 | pieces without dots come back unchanged from joining and splitting |
| VizorRuntime.SplitAtDot | src/Vizor.ECharts/wwwroot/js/vizor-echarts-min.js:1 | splitting `a.b` gives the pieces of a followed by the pieces of b |
| VizorRuntime.WalkAppend | src/Vizor.ECharts/wwwroot/js/vizor-echarts-min.js:1 | walking two lists of segments walks the first, then the second from where the first ended |
| VizorRuntime.WalkUndefinedAt | src/Vizor.ECharts/wwwroot/js/vizor-echarts-min.js:1 | the walk gives undefined exactly when some segment is not an own property of the value the earlier segments reached |
| VizorRuntime.EvaluatePath | src/Vizor.ECharts/wwwroot/js/vizor-echarts-min.js:1 | the loop with early return gives the walk of the split path |
| VizorRuntime.EvaluatePathComposes | src/Vizor.ECharts/wwwroot/js/vizor-echarts-min.js:1 | evaluating `a.b` is evaluating b on the result of a whenever a reaches a value |
| VizorRuntime.ItemValue | src/Vizor.ECharts/wwwroot/js/vizor-echarts-min.js:1 | json with a path stores the walked value, json without one the body, "string" the text, anything else null |
| VizorRuntime.PathOnlyForJson | src/Vizor.ECharts/wwwroot/js/vizor-echarts-min.js:1 | the path has no effect unless the body is read as json |
| VizorRuntime.ReadItem | src/Vizor.ECharts/wwwroot/js/vizor-echarts-min.js:1 | the steps of one fetch store exactly the item's value |
| VizorRuntime.StoreOne | src/Vizor.ECharts/wwwroot/js/vizor-echarts-min.js:1 | a response that is not ok rejects with the variant's error (the script's ReferenceError for `url`, or the intended Error naming the url); an ok response rejects exactly when its value throws, with that error, and otherwise its value is stored under its id; a rejection leaves the slots unchanged |
| VizorRuntime.StoreAllSucceedsWhenAllOk | src/Vizor.ECharts/wwwroot/js/vizor-echarts-min.js:1 | a run with every response ok and no path throwing finishes without a rejection |
| VizorRuntime.StoreAllKeepsOtherIds | src/Vizor.ECharts/wwwroot/js/vizor-echarts-min.js:1 | slots of ids that no item names are left unchanged |
| VizorRuntime.StoreAllDefinesEveryId | src/Vizor.ECharts/wwwroot/js/vizor-echarts-min.js:1 | when no item rejects, every item's id has a slot and no existing slot is removed |
| VizorRuntime.PrefixRejectionSticks | src/Vizor.ECharts/wwwroot/js/vizor-echarts-min.js:1 | the first rejection ends the run: later items change nothing |
| VizorRuntime.FetchExternalData | src/Vizor.ECharts/wwwroot/js/vizor-echarts-min.js:1 | nothing happens for null commands; otherwise the chart's slots and the rejection are those of storing the items in order as the script is written, so a response that is not ok rejects with the ReferenceError for `url` |
| VizorRuntime.VariantsStoreTheSame | src/Vizor.ECharts/wwwroot/js/vizor-echarts-min.js:1 | the script as written and its intended form store the same slots and reject on the same runs |
| VizorRuntime.FirstNotOkRejection | src/Vizor.ECharts/wwwroot/js/vizor-echarts-min.js:1 | when the first failing item's response is not ok, the script rejects with a ReferenceError for `url`, and the intended form rejects with an Error whose message ends with that item's url |
| VizorRuntime.NotOkErrorNamesUrl | src/Vizor.ECharts/wwwroot/js/vizor-echarts-min.js:1 | the rejection as written is a ReferenceError; the intended error's message ends with the item's url |

## Left out

- The .NET serializer itself is left out: property naming, null omission and the walk over option objects. Serialized documents are modelled as the value together with the settings used.
- How a converter is picked from the list, and what the date and series-data converters write, are left out. Those converters are not part of this model, so they are tags.
- `FetchCommand` and `ExternalDataSource` are reduced to a source tag and its fetch id. ExternalDataSource.cs and FetchCommand.cs are not part of this model.
- The JavaScript-function converter is not part of this model. What it writes is one opaque token.
- Double-to-text formatting is culture-dependent floating point, so it is a parameter. This covers gradient coordinates and the `FromRGBA` alpha.
- The stop list's JSON is a parameter for the same reason. The writer's rejection of NaN and infinities is not modelled.
- `WriteIndented` in DEBUG builds is left out, because it only changes whitespace.
- The static cache has no locking. The model is single-threaded.
- The static field is modelled as a cache object passed to each chart's constructor. That every chart shares one such object is not enforced; the charts of a run must be given the same object.
- The browser script uses a global `item` variable, so overlapping `fetchExternalData` calls can interfere. This is not modelled.
- The network fetch, `response.json()` failing on a malformed body, logging, `eval`, `registerMaps`, `initChart` and the `echarts.*` calls are left out. Responses are given in item order as a parameter.
- JSON parsing of the fetch commands is left out. The items arrive already parsed.
- The chart entry for the chart id is assumed to exist, so the TypeError for a missing entry is not modelled.
- Component lifecycle is left out: `DisposeAsync`, `ClearAsync` and their swallowed exceptions. It is JavaScript interop.
- `GenerateRandomId` is left out because it is GUID-based randomness.
- Enum types and their camel-case converters are left out. They are member lists, and their converters are not part of this model.
- The C# writes `window.panoramicDataECharts.getDataSource(...)`. The bundled script defines `window.vizorECharts` and no `getDataSource`. The two come from different builds, and the model keeps each as written.
- Colors.Encode: when the graphic colour is not a gradient, the stops and global flag stay "null". This is unobservable, because such a colour always throws; it is modelled but nothing is stated about it.
- VizorRuntime.OwnProperty: strings are measured in Unicode code points, not UTF-16 code units. So `length` and index keys differ from JavaScript for characters outside the Basic Multilingual Plane: `"😀".length` is 2 in JavaScript and 1 here. Prototype properties of boxed strings and arrays are not modelled, because `hasOwnProperty` ignores them. Array holes do not arise in parsed JSON.

## Findings

| source | as written | input that shows it | evidently intended | confidence | as-written member | corrected member |
|---|---|---|---|---|---|---|
| src/Vizor.ECharts/wwwroot/js/vizor-echarts-min.js:1 | when a fetch response is not ok, the thrown error's message reads the undeclared variable `url`, so a ReferenceError is thrown instead | any item whose response has `ok == false` | `new Error("Failed to fetch external chart data: url=" + item.url)`, naming the failed url | high, not executed | VizorRuntime.FetchExternalData | VizorRuntime.FirstNotOkRejection |
