/**
 * The JSON writer the converters write into, modelled as the sequence of
 * values it has received. Each token is one call on the writer, so a raw
 * (unquoted, unvalidated) fragment stays distinguishable from a quoted string
 * or a number literal.
 */
module JsonWriting {
  import opened Wrappers

  /** An IEEE 754 double, kept as its bit pattern: nothing here interprets it. */
  datatype Double = Double(bits: bv64)

  /** A piece of JavaScript source held by a chart option. */
  datatype JavascriptFunction = JavascriptFunction(source: string)

  datatype Token =
    | StartArray
    | EndArray
    /** A number literal, written with the writer's own double formatting. */
    | NumberValue(number: Double)
    /** A quoted, escaped string; `None` is the `null` literal written for a null string. */
    | StringValue(text: Option<string>)
    /** Text copied into the output verbatim, without quoting or validation. */
    | RawValue(raw: string)
    /** Whatever the JavaScript-function converter writes for this function. */
    | FunctionValue(fn: JavascriptFunction)

  /** The output side of `Utf8JsonWriter`: every write appends one token. */
  class Utf8JsonWriter {
    var tokens: seq<Token>

    constructor ()
      ensures tokens == []
    {
      tokens := [];
    }

    method WriteStartArray()
      modifies this
      ensures tokens == old(tokens) + [StartArray]
    {
      tokens := tokens + [StartArray];
    }

    method WriteEndArray()
      modifies this
      ensures tokens == old(tokens) + [EndArray]
    {
      tokens := tokens + [EndArray];
    }

    method WriteNumberValue(n: Double)
      modifies this
      ensures tokens == old(tokens) + [NumberValue(n)]
    {
      tokens := tokens + [NumberValue(n)];
    }

    method WriteStringValue(s: Option<string>)
      modifies this
      ensures tokens == old(tokens) + [StringValue(s)]
    {
      tokens := tokens + [StringValue(s)];
    }

    /** `WriteRawValue(raw, skipInputValidation: true)`. */
    method WriteRawValue(raw: string)
      modifies this
      ensures tokens == old(tokens) + [RawValue(raw)]
    {
      tokens := tokens + [RawValue(raw)];
    }
  }

  /**
   * `JavascriptFunctionConverter.Instance.Write`: that converter is not part
   * of this model, so what it writes is the opaque token for the function.
   */
  method WriteJavascriptFunction(writer: Utf8JsonWriter, f: JavascriptFunction)
    modifies writer
    ensures writer.tokens == old(writer.tokens) + [FunctionValue(f)]
  {
    writer.tokens := writer.tokens + [FunctionValue(f)];
  }
}
