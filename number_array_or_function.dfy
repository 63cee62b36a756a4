/**
 * Option values that are a single number, an array of numbers or a
 * JavaScript function. A single number is kept as a one-element array, and
 * any one-element array is written as a bare number literal.
 */
module NumberArrayOrFunctions {
  import opened Wrappers
  import opened JsonWriting

  /** `Numbers` and `Function` (here `callback`); each constructor sets at most one of them. */
  datatype NumberArrayOrFunction = NumberArrayOrFunction(numbers: Option<seq<Double>>,
                                                         callback: Option<JavascriptFunction>)

  predicate AtMostOneArm(v: NumberArrayOrFunction) {
    !(v.numbers.Some? && v.callback.Some?)
  }

  /** `new NumberArrayOrFunction(double)`, and the implicit conversion from a double. */
  function OfNumber(n: Double): (v: NumberArrayOrFunction)
    ensures v.numbers == Some([n]) && v.callback.None? && AtMostOneArm(v)
  {
    NumberArrayOrFunction(Some([n]), None)
  }

  /** `new NumberArrayOrFunction(double[])`; a null array leaves both arms unset. */
  function OfNumbers(numbers: Option<seq<Double>>): (v: NumberArrayOrFunction)
    ensures v.numbers == numbers && v.callback.None? && AtMostOneArm(v)
  {
    NumberArrayOrFunction(numbers, None)
  }

  /** `new NumberArrayOrFunction(JavascriptFunction)`; a null function leaves both arms unset. */
  function OfFunction(f: Option<JavascriptFunction>): (v: NumberArrayOrFunction)
    ensures v.callback == f && v.numbers.None? && AtMostOneArm(v)
  {
    NumberArrayOrFunction(None, f)
  }

  /** One number literal per element, in order. */
  function NumberTokens(ns: seq<Double>): (ts: seq<Token>)
    ensures |ts| == |ns|
    ensures forall i :: 0 <= i < |ns| ==> ts[i] == NumberValue(ns[i])
  {
    if ns == [] then [] else [NumberValue(ns[0])] + NumberTokens(ns[1..])
  }

  lemma NumberTokensExtend(ns: seq<Double>, i: nat)
    requires i < |ns|
    ensures NumberTokens(ns[..i + 1]) == NumberTokens(ns[..i]) + [NumberValue(ns[i])]
  {
  }

  /** What `NumberArrayOrFunctionConverter.Write` writes for a value. */
  function Encoding(v: NumberArrayOrFunction): (ts: seq<Token>)
    ensures v.numbers.Some? && |v.numbers.value| == 1 ==> ts == [NumberValue(v.numbers.value[0])]
    ensures v.numbers.Some? && |v.numbers.value| != 1 ==>
              |ts| == |v.numbers.value| + 2 && ts[0] == StartArray && ts[|ts| - 1] == EndArray
              && forall i :: 0 <= i < |v.numbers.value| ==> ts[i + 1] == NumberValue(v.numbers.value[i])
    ensures v.numbers.None? && v.callback.Some? ==> ts == [FunctionValue(v.callback.value)]
    ensures v.numbers.None? && v.callback.None? ==> ts == []
  {
    match v.numbers
    case Some(ns) =>
      if |ns| == 1 then [NumberValue(ns[0])] else [StartArray] + NumberTokens(ns) + [EndArray]
    case None =>
      if v.callback.Some? then [FunctionValue(v.callback.value)] else []
  }

  /** The number literals of a token run, if it holds nothing else. */
  function NumbersOf(ts: seq<Token>): Option<seq<Double>>
  {
    if ts == [] then Some([])
    else if !ts[0].NumberValue? then None
    else match NumbersOf(ts[1..])
         case Some(rest) => Some([ts[0].number] + rest)
         case None => None
  }

  /**
   * A reference reader for the numbers shape: a bare number is a one-element
   * array, an array holds its elements. The converter itself cannot read.
   */
  function DecodeNumbers(ts: seq<Token>): Option<seq<Double>>
  {
    if |ts| == 1 && ts[0].NumberValue? then Some([ts[0].number])
    else if |ts| >= 2 && ts[0] == StartArray && ts[|ts| - 1] == EndArray then NumbersOf(ts[1..|ts| - 1])
    else None
  }

  lemma {:induction false} NumbersOfNumberTokens(ns: seq<Double>)
    ensures NumbersOf(NumberTokens(ns)) == Some(ns)
    decreases |ns|
  {
    if ns != [] {
      var ts := NumberTokens(ns);
      assert ts[1..] == NumberTokens(ns[1..]);
      NumbersOfNumberTokens(ns[1..]);
      assert [ns[0]] + ns[1..] == ns;
    }
  }

  /** Writing any array of numbers loses nothing: every element comes back, in order. */
  lemma NumbersRoundTrip(ns: seq<Double>)
    ensures DecodeNumbers(Encoding(OfNumbers(Some(ns)))) == Some(ns)
  {
    if |ns| == 1 {
      assert [ns[0]] == ns;
    } else {
      var ts := Encoding(OfNumbers(Some(ns)));
      assert ts[1..|ts| - 1] == NumberTokens(ns);
      NumbersOfNumberTokens(ns);
    }
  }

  /** The number `n` and the array `[n]` are written alike, as the bare number `n`. */
  lemma SingleNumberIsBare(n: Double)
    ensures Encoding(OfNumber(n)) == Encoding(OfNumbers(Some([n]))) == [NumberValue(n)]
  {
  }

  /** When both arms are set, the numbers are written and the function is ignored. */
  lemma NumbersTakePrecedence(ns: seq<Double>, f: JavascriptFunction)
    ensures Encoding(NumberArrayOrFunction(Some(ns), Some(f))) == Encoding(OfNumbers(Some(ns)))
  {
  }

  /**
   * `NumberArrayOrFunctionConverter.Write`: a one-element array as a bare
   * number, any other array between start- and end-array, else the function
   * through the JavaScript-function converter, else nothing.
   */
  method Write(writer: Utf8JsonWriter, value: NumberArrayOrFunction)
    modifies writer
    ensures writer.tokens == old(writer.tokens) + Encoding(value)
  {
    if value.numbers.Some? {
      var ns := value.numbers.value;
      if |ns| == 1 {
        writer.WriteNumberValue(ns[0]);
      } else {
        WriteArray(writer, ns);
      }
    } else if value.callback.Some? {
      WriteJavascriptFunction(writer, value.callback.value);
    }
  }

  /** The array branch of `Write`: start-array, each number in turn, end-array. */
  method WriteArray(writer: Utf8JsonWriter, ns: seq<Double>)
    modifies writer
    ensures writer.tokens == old(writer.tokens) + [StartArray] + NumberTokens(ns) + [EndArray]
  {
    writer.WriteStartArray();
    ghost var start := writer.tokens;
    for i := 0 to |ns|
      invariant writer.tokens == start + NumberTokens(ns[..i])
    {
      writer.WriteNumberValue(ns[i]);
      NumberTokensExtend(ns, i);
    }
    assert ns[..|ns|] == ns;
    writer.WriteEndArray();
  }

  /** `NumberArrayOrFunctionConverter.Read`: always throws. */
  function Read(): (r: Result<NumberArrayOrFunction>)
    ensures r.Failure? && r.error.NotImplementedException?
  {
    Failure(NotImplementedException("Deserialization is not implemented for NumberArrayOrFunction."))
  }
}
