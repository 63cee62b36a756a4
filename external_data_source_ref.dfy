/**
 * References to external data. A reference is written as a raw JavaScript
 * expression that looks the fetched data up by its fetch id when the chart
 * options are evaluated in the browser, optionally followed by a property path.
 */
module DataSourceRefs {
  import opened Wrappers
  import opened JsonWriting

  /** An external data source, reduced to what a reference uses: its generated fetch id. */
  datatype ExternalDataSource = ExternalDataSource(fetchId: string)

  datatype ExternalDataSourceRef = ExternalDataSourceRef(fetchId: string, path: Option<string>)

  /** `new ExternalDataSourceRef(ExternalDataSource, path)`. */
  function OfSource(source: ExternalDataSource, path: Option<string>): (r: ExternalDataSourceRef)
    ensures r.fetchId == source.fetchId && r.path == path
  {
    ExternalDataSourceRef(source.fetchId, path)
  }

  /** `new ExternalDataSourceRef(string fetchId, path)`. */
  function OfFetchId(fetchId: string, path: Option<string>): (r: ExternalDataSourceRef)
    ensures r.fetchId == fetchId && r.path == path
  {
    ExternalDataSourceRef(fetchId, path)
  }

  const LookupPrefix := "window.panoramicDataECharts.getDataSource('"

  /** The runtime lookup call for a fetch id. */
  function Lookup(fetchId: string): string
  {
    LookupPrefix + fetchId + "')"
  }

  predicate StartsWithDot(p: string) {
    |p| > 0 && p[0] == '.'
  }

  /** The text after the lookup call: empty for no path, else the path with a leading dot. */
  function PathSuffix(path: Option<string>): (s: string)
    ensures s == "" || StartsWithDot(s)
  {
    match path
    case None => ""
    case Some(p) => if StartsWithDot(p) then p else "." + p
  }

  /** The raw expression the converter writes for a reference. */
  function Expression(r: ExternalDataSourceRef): (e: string)
    ensures Lookup(r.fetchId) <= e
    ensures r.path.None? ==> e == Lookup(r.fetchId)
    ensures r.path.Some? && !StartsWithDot(r.path.value) ==> e == Lookup(r.fetchId) + "." + r.path.value
    ensures r.path.Some? && StartsWithDot(r.path.value) ==> e == Lookup(r.fetchId) + r.path.value
  {
    Lookup(r.fetchId) + PathSuffix(r.path)
  }

  /** The position of the first apostrophe in a string, or its length when there is none. */
  function FirstQuote(s: string): (k: nat)
    ensures k <= |s|
    ensures forall i :: 0 <= i < k ==> s[i] != '\''
    ensures k < |s| ==> s[k] == '\''
  {
    if s == [] || s[0] == '\'' then 0 else 1 + FirstQuote(s[1..])
  }

  /**
   * A reference reader for the expression: the fetch id between the quotes and
   * the path suffix after the call. The converter itself cannot read.
   */
  function ParseExpression(e: string): Option<(string, string)>
  {
    if |e| < |LookupPrefix| || e[..|LookupPrefix|] != LookupPrefix then None
    else
      var rest := e[|LookupPrefix|..];
      var k := FirstQuote(rest);
      if k + 2 <= |rest| && rest[k..k + 2] == "')" then Some((rest[..k], rest[k + 2..])) else None
  }

  lemma FirstQuoteAfterId(id: string, tail: string)
    requires '\'' !in id
    ensures FirstQuote(id + "'" + tail) == |id|
  {
    var s := id + "'" + tail;
    assert s[|id|] == '\'';
  }

  /**
   * For a fetch id without an apostrophe, the expression gives back the fetch
   * id and the path suffix: references differ in their output exactly when
   * they differ in fetch id or in dotted path.
   */
  lemma ExpressionRoundTrip(r: ExternalDataSourceRef)
    requires '\'' !in r.fetchId
    ensures ParseExpression(Expression(r)) == Some((r.fetchId, PathSuffix(r.path)))
  {
    var e := Expression(r);
    var suffix := PathSuffix(r.path);
    assert e == LookupPrefix + (r.fetchId + "'" + (")" + suffix));
    var rest := e[|LookupPrefix|..];
    assert rest == r.fetchId + "'" + (")" + suffix);
    FirstQuoteAfterId(r.fetchId, ")" + suffix);
    var k := |r.fetchId|;
    assert rest[k..k + 2] == "')";
    assert rest[..k] == r.fetchId;
    assert rest[k + 2..] == suffix;
  }

  /** A path without a leading dot and the same path with one give the same expression. */
  lemma LeadingDotIsOptional(fetchId: string, p: string)
    requires !StartsWithDot(p)
    ensures Expression(OfFetchId(fetchId, Some(p))) == Expression(OfFetchId(fetchId, Some("." + p)))
  {
  }

  /** `ExternalDataSourceRefConverter.Write`: builds the expression step by step and writes it raw. */
  method Write(writer: Utf8JsonWriter, value: ExternalDataSourceRef)
    modifies writer
    ensures writer.tokens == old(writer.tokens) + [RawValue(Expression(value))]
  {
    var raw := "window.panoramicDataECharts.getDataSource('" + value.fetchId + "')";
    if value.path.Some? {
      if !StartsWithDot(value.path.value) {
        raw := raw + ".";
      }
      raw := raw + value.path.value;
    }
    writer.WriteRawValue(raw);
  }

  /** `ExternalDataSourceRefConverter.Read`: always throws. */
  function Read(): (r: Result<ExternalDataSourceRef>)
    ensures r.Failure? && r.error.NotImplementedException?
  {
    Failure(NotImplementedException("Deserialization is not implemented for ExternalDataSourceRef."))
  }
}
