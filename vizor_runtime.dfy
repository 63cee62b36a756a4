/**
 * The browser side of external data: walking a dotted path through parsed JSON,
 * and storing each fetched source on the chart entry under its id.
 */
module VizorRuntime {
  import opened Wrappers
  import Decimal

  /** A JSON value as the browser holds it after parsing. */
  datatype JsValue =
    | JsNull
    | JsBool(b: bool)
    | JsNumber(n: real)
    | JsString(s: string)
    | JsArray(elements: seq<JsValue>)
    | JsObject(members: map<string, JsValue>)

  datatype JsError = TypeError | ReferenceError(name: string) | Error(message: string)

  /** How an expression completes: with a value, with `undefined`, or by throwing. */
  datatype Outcome = Value(value: JsValue) | Undefined | Thrown(error: JsError)

  /** `n` as a JavaScript array index or string position: the canonical decimal numeral. */
  function IndexKey(key: string): Option<nat>
  {
    Decimal.ParseNumeral(key)
  }

  /**
   * `e.hasOwnProperty(key)` followed by `e[key]`: the own property's value,
   * `undefined` when there is none, and a TypeError when `e` is null or has an
   * own (and so not callable) `hasOwnProperty` member.
   */
  function OwnProperty(e: JsValue, key: string): (r: Outcome)
    ensures r.Thrown? <==> e.JsNull? || (e.JsObject? && "hasOwnProperty" in e.members)
    ensures e.JsObject? && "hasOwnProperty" !in e.members ==>
              (key in e.members <==> r.Value?) && (key in e.members ==> r.value == e.members[key])
    ensures e.JsBool? || e.JsNumber? ==> r == Undefined
  {
    match e
    case JsNull => Thrown(TypeError)
    case JsBool(_) => Undefined
    case JsNumber(_) => Undefined
    case JsString(s) =>
      if key == "length" then Value(JsNumber(|s| as real))
      else if IndexKey(key).Some? && IndexKey(key).value < |s| then Value(JsString([s[IndexKey(key).value]]))
      else Undefined
    case JsArray(es) =>
      if key == "length" then Value(JsNumber(|es| as real))
      else if IndexKey(key).Some? && IndexKey(key).value < |es| then Value(es[IndexKey(key).value])
      else Undefined
    case JsObject(m) =>
      if "hasOwnProperty" in m then Thrown(TypeError)
      else if key in m then Value(m[key])
      else Undefined
  }

  /** An array's own properties are its canonical indices, and no other numeral. */
  lemma ArrayIndexProperty(es: seq<JsValue>, k: nat)
    ensures k < |es| ==> OwnProperty(JsArray(es), Decimal.Numeral(k)) == Value(es[k])
    ensures k >= |es| ==> OwnProperty(JsArray(es), Decimal.Numeral(k)) == Undefined
  {
    Decimal.NumeralRoundTrip(k);
  }

  /** A string's own properties are `length` and its canonical positions below its length, each a one-character string. */
  lemma StringIndexProperty(str: string, k: nat)
    ensures OwnProperty(JsString(str), "length") == Value(JsNumber(|str| as real))
    ensures k < |str| ==> OwnProperty(JsString(str), Decimal.Numeral(k)) == Value(JsString([str[k]]))
    ensures k >= |str| ==> OwnProperty(JsString(str), Decimal.Numeral(k)) == Undefined
  {
    Decimal.NumeralRoundTrip(k);
    assert Decimal.Numeral(k) != "length" by {
      assert Decimal.IsDigit(Decimal.Numeral(k)[0]);
    }
  }

  /** A numeral with a leading zero names no element of an array. */
  lemma LeadingZeroIsNoIndex(es: seq<JsValue>, digits: string)
    requires |digits| > 0
    ensures OwnProperty(JsArray(es), "0" + digits) == Undefined
  {
    assert ("0" + digits)[0] == '0';
  }

  /** Follows the segments in turn from `v`, stopping at the first one that is not an own property. */
  function Walk(v: JsValue, segments: seq<string>): Outcome
    decreases |segments|
  {
    if segments == [] then Value(v)
    else
      match OwnProperty(v, segments[0])
      case Value(w) => Walk(w, segments[1..])
      case other => other
  }

  /** Walking a concatenation walks the first part, then the second from where it stopped. */
  lemma {:induction false} WalkAppend(v: JsValue, xs: seq<string>, ys: seq<string>)
    ensures Walk(v, xs + ys) == if Walk(v, xs).Value? then Walk(Walk(v, xs).value, ys) else Walk(v, xs)
    decreases |xs|
  {
    if xs != [] {
      assert (xs + ys)[0] == xs[0];
      assert (xs + ys)[1..] == xs[1..] + ys;
      match OwnProperty(v, xs[0])
      case Value(w) => WalkAppend(w, xs[1..], ys);
      case _ =>
    } else {
      assert xs + ys == ys;
    }
  }

  /**
   * A walk ends in `undefined` exactly when some segment is missing on the value
   * the segments before it reached.
   */
  lemma {:induction false} WalkUndefinedAt(v: JsValue, segments: seq<string>)
    ensures Walk(v, segments).Undefined? <==>
              exists i :: 0 <= i < |segments| && Walk(v, segments[..i]).Value? &&
                OwnProperty(Walk(v, segments[..i]).value, segments[i]).Undefined?
    decreases |segments|
  {
    if segments != [] {
      var first := OwnProperty(v, segments[0]);
      assert segments[..0] == [];
      if first.Value? {
        var rest := segments[1..];
        WalkUndefinedAt(first.value, rest);
        forall i | 0 <= i < |rest|
          ensures Walk(v, segments[..i + 1]) == Walk(first.value, rest[..i])
          ensures segments[i + 1] == rest[i]
        {
          assert segments[..i + 1][0] == segments[0];
          assert segments[..i + 1][1..] == rest[..i];
        }
        if Walk(v, segments).Undefined? {
          var i :| 0 <= i < |rest| && Walk(first.value, rest[..i]).Value? &&
                   OwnProperty(Walk(first.value, rest[..i]).value, rest[i]).Undefined?;
          assert Walk(v, segments[..i + 1]).Value? &&
                 OwnProperty(Walk(v, segments[..i + 1]).value, segments[i + 1]).Undefined?;
        }
        if exists i :: 0 <= i < |segments| && Walk(v, segments[..i]).Value? &&
                   OwnProperty(Walk(v, segments[..i]).value, segments[i]).Undefined? {
          var i :| 0 <= i < |segments| && Walk(v, segments[..i]).Value? &&
                   OwnProperty(Walk(v, segments[..i]).value, segments[i]).Undefined?;
          assert i > 0;
          assert Walk(first.value, rest[..i - 1]).Value? &&
                 OwnProperty(Walk(first.value, rest[..i - 1]).value, rest[i - 1]).Undefined?;
        }
      } else {
        forall i | 0 < i <= |segments|
          ensures !Walk(v, segments[..i]).Value?
        {
          assert segments[..i][0] == segments[0];
        }
      }
    }
  }

  /** `path.split(".")`: the pieces between dots, in order; there is always at least one. */
  function Split(s: string): (parts: seq<string>)
    ensures |parts| >= 1
    ensures forall i :: 0 <= i < |parts| ==> '.' !in parts[i]
    decreases |s|
  {
    if s == [] then [""]
    else if s[0] == '.' then [""] + Split(s[1..])
    else
      var rest := Split(s[1..]);
      [[s[0]] + rest[0]] + rest[1..]
  }

  /** The pieces put back together with dots between them. */
  function Join(parts: seq<string>): string
    requires |parts| >= 1
    decreases |parts|
  {
    if |parts| == 1 then parts[0] else parts[0] + "." + Join(parts[1..])
  }

  /** Splitting loses nothing: joining the pieces gives the path back. */
  lemma {:induction false} JoinSplit(s: string)
    ensures Join(Split(s)) == s
    decreases |s|
  {
    if s != [] {
      JoinSplit(s[1..]);
      var rest := Split(s[1..]);
      if s[0] == '.' {
        assert Split(s)[1..] == rest;
        assert s == [s[0]] + s[1..];
      } else {
        var parts := Split(s);
        assert parts[0] == [s[0]] + rest[0];
        assert parts[1..] == rest[1..];
        if |rest| == 1 {
          assert s == [s[0]] + rest[0];
        } else {
          assert Join(rest) == rest[0] + "." + Join(rest[1..]);
          assert s == [s[0]] + (rest[0] + "." + Join(rest[1..]));
        }
      }
    }
  }

  /** Splitting at a dot splits the two sides separately. */
  lemma {:induction false} SplitAtDot(a: string, b: string)
    ensures Split(a + "." + b) == Split(a) + Split(b)
    decreases |a|
  {
    var s := a + "." + b;
    if a == [] {
      assert s == "." + b;
      assert s[1..] == b;
    } else {
      assert s[0] == a[0];
      assert s[1..] == a[1..] + "." + b;
      SplitAtDot(a[1..], b);
      var ra := Split(a[1..]);
      var rest := Split(s[1..]);
      assert rest == ra + Split(b);
      if a[0] == '.' {
        assert Split(s) == [""] + rest;
        assert Split(a) == [""] + ra;
      } else {
        assert rest[0] == ra[0];
        assert rest[1..] == ra[1..] + Split(b);
        assert Split(s) == [[a[0]] + ra[0]] + (ra[1..] + Split(b));
        assert Split(a) == [[a[0]] + ra[0]] + ra[1..];
      }
    }
  }

  /** Pieces without dots come back unchanged from joining and splitting. */
  lemma {:induction false} SplitJoin(parts: seq<string>)
    requires |parts| >= 1
    requires forall i :: 0 <= i < |parts| ==> '.' !in parts[i]
    ensures Split(Join(parts)) == parts
    decreases |parts|
  {
    if |parts| == 1 {
      NoDotSplit(parts[0]);
    } else {
      SplitJoin(parts[1..]);
      NoDotSplit(parts[0]);
      SplitAtDot(parts[0], Join(parts[1..]));
      assert parts == [parts[0]] + parts[1..];
    }
  }

  lemma {:induction false} NoDotSplit(s: string)
    requires '.' !in s
    ensures Split(s) == [s]
    decreases |s|
  {
    if s != [] {
      assert s[0] in s;
      assert forall c :: c in s[1..] ==> c in s;
      NoDotSplit(s[1..]);
      assert s == [s[0]] + s[1..];
    }
  }

  /** `evaluatePath(t, a)`: split the path, then walk it, returning as soon as a segment is missing. */
  method EvaluatePath(t: JsValue, a: string) returns (r: Outcome)
    ensures r == Walk(t, Split(a))
  {
    var segments := Split(a);
    var e := t;
    for i := 0 to |segments|
      invariant Walk(t, segments[..i]) == Value(e)
    {
      WalkAppend(t, segments[..i], [segments[i]]);
      assert segments[..i + 1] == segments[..i] + [segments[i]];
      var own := OwnProperty(e, segments[i]);
      if !own.Value? {
        WalkAppend(t, segments[..i + 1], segments[i + 1..]);
        assert segments[..i + 1] + segments[i + 1..] == segments;
        return own;
      }
      e := own.value;
    }
    assert segments[..|segments|] == segments;
    return Value(e);
  }

  /** Evaluating `a.b` is evaluating `b` on what `a` reached, whenever `a` reaches a value. */
  lemma EvaluatePathComposes(o: JsValue, a: string, b: string)
    ensures Walk(o, Split(a + "." + b)) ==
              if Walk(o, Split(a)).Value? then Walk(Walk(o, Split(a)).value, Split(b)) else Walk(o, Split(a))
  {
    SplitAtDot(a, b);
    WalkAppend(o, Split(a), Split(b));
  }

  /** One entry of the fetch commands: where to fetch, how to read the body, and what to pick out of it. */
  datatype FetchItem = FetchItem(id: string, url: string, fetchAs: string, path: Option<string>)

  /** The response to one fetch: its status flag and its body as text and as parsed JSON. */
  datatype Response = Response(ok: bool, text: string, json: JsValue)

  /** The value stored for a successfully fetched item. */
  function ItemValue(item: FetchItem, response: Response): (o: Outcome)
    ensures item.fetchAs == "json" && item.path.None? ==> o == Value(response.json)
    ensures item.fetchAs == "json" && item.path.Some? ==> o == Walk(response.json, Split(item.path.value))
    ensures item.fetchAs == "string" ==> o == Value(JsString(response.text))
    ensures item.fetchAs != "json" && item.fetchAs != "string" ==> o == Value(JsNull)
  {
    if item.fetchAs == "json" then
      if item.path.Some? then Walk(response.json, Split(item.path.value)) else Value(response.json)
    else if item.fetchAs == "string" then Value(JsString(response.text))
    else Value(JsNull)
  }

  /** The path is only ever applied to JSON bodies: a text body is stored whole, whatever the path. */
  lemma PathOnlyForJson(item: FetchItem, response: Response)
    requires item.fetchAs != "json"
    ensures ItemValue(item, response) == ItemValue(item.(path := None), response)
    ensures !ItemValue(item, response).Thrown?
  {
  }

  /** A response that is not ok rejects with this error, exactly as written: `url` is not declared. */
  function NotOkErrorAsWritten(item: FetchItem): JsError
  {
    ReferenceError("url")
  }

  /** The rejection the message was evidently meant to carry: the item's own url. */
  function NotOkError(item: FetchItem): (e: JsError)
    ensures e.Error?
  {
    Error("Failed to fetch external chart data: url=" + item.url)
  }

  /** As written, a failed fetch never reports its url; the intended error always ends with it. */
  lemma NotOkErrorNamesUrl(item: FetchItem)
    ensures NotOkErrorAsWritten(item) != NotOkError(item)
    ensures !NotOkErrorAsWritten(item).Error?
    ensures var m := NotOkError(item).message; |m| >= |item.url| && m[|m| - |item.url|..] == item.url
  {
  }

  /** Which rejection a response that is not ok produces: the script's, or the one it evidently meant. */
  datatype Variant = AsWritten | Intended

  function NotOkRejection(variant: Variant, item: FetchItem): JsError
  {
    if variant.AsWritten? then NotOkErrorAsWritten(item) else NotOkError(item)
  }

  /** The slots after one item: its value under its id, or the rejection. */
  function StoreOne(slots: map<string, Outcome>, item: FetchItem, response: Response, variant: Variant)
    : (out: (map<string, Outcome>, Option<JsError>))
    ensures !response.ok ==> out == (slots, Some(NotOkRejection(variant, item)))
    ensures response.ok ==> (out.1.None? <==> !ItemValue(item, response).Thrown?)
    ensures response.ok && ItemValue(item, response).Thrown? ==> out.1 == Some(ItemValue(item, response).error)
    ensures out.1.None? ==> out.0 == slots[item.id := ItemValue(item, response)]
    ensures out.1.Some? ==> out.0 == slots
  {
    if !response.ok then (slots, Some(NotOkRejection(variant, item)))
    else
      match ItemValue(item, response)
      case Thrown(error) => (slots, Some(error))
      case stored => (slots[item.id := stored], None)
  }

  /** The items in order, stopping at the first rejection: the slots and the rejection, if any. */
  function StoreAll(slots: map<string, Outcome>, items: seq<FetchItem>, responses: seq<Response>, variant: Variant)
    : (map<string, Outcome>, Option<JsError>)
    requires |responses| == |items|
    decreases |items|
  {
    if items == [] then (slots, None)
    else
      var n := |items| - 1;
      var before := StoreAll(slots, items[..n], responses[..n], variant);
      if before.1.Some? then before else StoreOne(before.0, items[n], responses[n], variant)
  }

  /**
   * The script and its intended form store the same slots and reject on the same
   * runs; they differ only in which error a response that is not ok rejects with.
   */
  lemma {:induction false} VariantsStoreTheSame(slots: map<string, Outcome>, items: seq<FetchItem>, responses: seq<Response>)
    requires |responses| == |items|
    ensures StoreAll(slots, items, responses, AsWritten).0 == StoreAll(slots, items, responses, Intended).0
    ensures StoreAll(slots, items, responses, AsWritten).1.None? <==> StoreAll(slots, items, responses, Intended).1.None?
    decreases |items|
  {
    if items != [] {
      var n := |items| - 1;
      VariantsStoreTheSame(slots, items[..n], responses[..n]);
    }
  }

  /**
   * When the first item to fail is one whose response is not ok, the script
   * rejects with a ReferenceError for `url`, while the intended form rejects
   * with an Error whose message ends with that item's url.
   */
  lemma FirstNotOkRejection(slots: map<string, Outcome>, items: seq<FetchItem>, responses: seq<Response>, k: nat)
    requires |responses| == |items| && k < |items| && !responses[k].ok
    requires StoreAll(slots, items[..k], responses[..k], Intended).1.None?
    ensures StoreAll(slots, items, responses, AsWritten).1 == Some(ReferenceError("url"))
    ensures StoreAll(slots, items, responses, Intended).1 == Some(NotOkError(items[k]))
    ensures var m := NotOkError(items[k]).message; m[|m| - |items[k].url|..] == items[k].url
  {
    VariantsStoreTheSame(slots, items[..k], responses[..k]);
    StoreAllStep(slots, items, responses, k, AsWritten);
    StoreAllStep(slots, items, responses, k, Intended);
    PrefixRejectionSticks(slots, items, responses, k + 1, AsWritten);
    PrefixRejectionSticks(slots, items, responses, k + 1, Intended);
    NotOkErrorNamesUrl(items[k]);
  }

  /** A run rejects only when some response is not ok or some path throws. */
  lemma {:induction false} StoreAllSucceedsWhenAllOk(slots: map<string, Outcome>, items: seq<FetchItem>, responses: seq<Response>, variant: Variant)
    requires |responses| == |items|
    requires forall i :: 0 <= i < |items| ==> responses[i].ok && !ItemValue(items[i], responses[i]).Thrown?
    ensures StoreAll(slots, items, responses, variant).1.None?
    decreases |items|
  {
    if items != [] {
      var n := |items| - 1;
      forall i | 0 <= i < n
        ensures responses[..n][i].ok && !ItemValue(items[..n][i], responses[..n][i]).Thrown?
      {
        assert items[..n][i] == items[i] && responses[..n][i] == responses[i];
      }
      StoreAllSucceedsWhenAllOk(slots, items[..n], responses[..n], variant);
    }
  }

  /** Slots of ids no item names are left alone, whether or not the fetches all succeed. */
  lemma {:induction false} StoreAllKeepsOtherIds(slots: map<string, Outcome>, items: seq<FetchItem>, responses: seq<Response>, variant: Variant, key: string)
    requires |responses| == |items|
    requires forall i :: 0 <= i < |items| ==> items[i].id != key
    ensures key in StoreAll(slots, items, responses, variant).0 <==> key in slots
    ensures key in slots ==> StoreAll(slots, items, responses, variant).0[key] == slots[key]
    decreases |items|
  {
    if items != [] {
      var n := |items| - 1;
      StoreAllKeepsOtherIds(slots, items[..n], responses[..n], variant, key);
    }
  }

  /** When every fetch succeeds and no path throws, every item's id ends up with a slot. */
  lemma {:induction false} StoreAllDefinesEveryId(slots: map<string, Outcome>, items: seq<FetchItem>, responses: seq<Response>, variant: Variant)
    requires |responses| == |items|
    requires StoreAll(slots, items, responses, variant).1.None?
    ensures forall i :: 0 <= i < |items| ==> items[i].id in StoreAll(slots, items, responses, variant).0
    ensures forall k :: k in slots ==> k in StoreAll(slots, items, responses, variant).0
    decreases |items|
  {
    if items != [] {
      var n := |items| - 1;
      StoreAllDefinesEveryId(slots, items[..n], responses[..n], variant);
      forall i | 0 <= i < n
        ensures items[i].id in StoreAll(slots, items, responses, variant).0
      {
        assert items[..n][i] == items[i];
      }
    }
  }

  /** The chart entry fetched data is stored on, keyed by item id. */
  class ChartEntry {
    var slots: map<string, Outcome>

    constructor()
      ensures slots == map[]
    {
      slots := map[];
    }
  }

  /**
   * `fetchExternalData(t, a)` with the fetch commands already parsed and the
   * responses given in item order: nothing happens for null commands; otherwise
   * each item's value is stored on the chart in turn until one rejects. As in
   * the script, a response that is not ok rejects with the ReferenceError for `url`.
   */
  method FetchExternalData(chart: ChartEntry, items: Option<seq<FetchItem>>, responses: seq<Response>)
    returns (rejection: Option<JsError>)
    requires items.Some? ==> |responses| == |items.value|
    modifies chart
    ensures items.None? ==> chart.slots == old(chart.slots) && rejection.None?
    ensures items.Some? ==> (chart.slots, rejection) == StoreAll(old(chart.slots), items.value, responses, AsWritten)
  {
    rejection := None;
    if items.None? {
      return;
    }
    var list := items.value;
    for i := 0 to |list|
      invariant (chart.slots, None) == StoreAll(old(chart.slots), list[..i], responses[..i], AsWritten)
    {
      StoreAllStep(old(chart.slots), list, responses, i, AsWritten);
      var item := list[i];
      var response := responses[i];
      if !response.ok {
        rejection := Some(NotOkErrorAsWritten(item));
        PrefixRejectionSticks(old(chart.slots), list, responses, i + 1, AsWritten);
        return;
      }
      var stored := ReadItem(item, response);
      if stored.Thrown? {
        rejection := Some(stored.error);
        PrefixRejectionSticks(old(chart.slots), list, responses, i + 1, AsWritten);
        return;
      }
      chart.slots := chart.slots[item.id := stored];
    }
    assert list[..|list|] == list;
    assert responses[..|responses|] == responses;
  }

  /** The body of one successful fetch, read as `fetchAs` says; the path is applied to JSON only. */
  method ReadItem(item: FetchItem, response: Response) returns (stored: Outcome)
    ensures stored == ItemValue(item, response)
  {
    stored := Value(JsNull);
    if item.fetchAs == "json" {
      stored := Value(response.json);
      if item.path.Some? {
        stored := EvaluatePath(response.json, item.path.value);
      }
    } else if item.fetchAs == "string" {
      stored := Value(JsString(response.text));
    }
  }

  /** One more item extends the run by one step, unless it has already rejected. */
  lemma StoreAllStep(slots: map<string, Outcome>, items: seq<FetchItem>, responses: seq<Response>, i: nat, variant: Variant)
    requires |responses| == |items| && i < |items|
    ensures StoreAll(slots, items[..i + 1], responses[..i + 1], variant) ==
              var before := StoreAll(slots, items[..i], responses[..i], variant);
              if before.1.Some? then before else StoreOne(before.0, items[i], responses[i], variant)
  {
    assert items[..i + 1][..i] == items[..i];
    assert responses[..i + 1][..i] == responses[..i];
    assert items[..i + 1][i] == items[i];
    assert responses[..i + 1][i] == responses[i];
  }

  /** Once a prefix of the items rejects, the whole run rejects the same way. */
  lemma {:induction false} PrefixRejectionSticks(slots: map<string, Outcome>, items: seq<FetchItem>, responses: seq<Response>, k: nat, variant: Variant)
    requires |responses| == |items| && k <= |items|
    requires StoreAll(slots, items[..k], responses[..k], variant).1.Some?
    ensures StoreAll(slots, items, responses, variant) == StoreAll(slots, items[..k], responses[..k], variant)
    decreases |items| - k
  {
    if k < |items| {
      var n := |items| - 1;
      assert items[..n][..k] == items[..k];
      assert responses[..n][..k] == responses[..k];
      PrefixRejectionSticks(slots, items[..n], responses[..n], k, variant);
    } else {
      assert items[..k] == items;
      assert responses[..k] == responses;
    }
  }
}
