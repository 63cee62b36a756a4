/**
 * Chart colours: a colour is either a CSS colour string or a graphic colour
 * (a gradient), and the colour converter writes the first as a quoted string
 * and the second as a raw `new echarts.graphic.*Gradient(...)` expression.
 */
module Colors {
  import opened Wrappers
  import opened JsonWriting
  import Decimal

  type byte = x: int | 0 <= x < 256

  /** One stop of a gradient: where along the gradient, and which colour. */
  datatype ColorStop = ColorStop(offset: Double, color: string)

  /**
   * The graphic colours a `Color` can hold. Linear and radial gradients are
   * the two the converter knows; a graphic colour of any other class is either
   * another `Gradient` (it has stops and a global flag) or not a gradient at all.
   */
  datatype GraphicColor =
    | LinearGradient(x: Double, y: Double, x2: Double, y2: Double,
                     colorStops: Option<seq<ColorStop>>, global: Option<bool>)
    | RadialGradient(x: Double, y: Double, r: Double,
                     colorStops: Option<seq<ColorStop>>, global: Option<bool>)
    | OtherGradient(typeName: string, colorStops: Option<seq<ColorStop>>, global: Option<bool>)
    | OtherGraphicColor(typeName: string)
  {
    predicate IsGradient() {
      !OtherGraphicColor?
    }
  }

  /** `Value` is the colour string, `GraphicColor` the gradient; a constructor sets one of them. */
  datatype Color = Color(value: Option<string>, graphicColor: Option<GraphicColor>)

  predicate AtMostOneArm(c: Color) {
    !(c.value.Some? && c.graphicColor.Some?)
  }

  /** `new Color(string)`, and the implicit conversion from a string. */
  function OfString(color: Option<string>): (c: Color)
    ensures c.value == color && c.graphicColor.None? && AtMostOneArm(c)
  {
    Color(color, None)
  }

  /** `new Color(IGraphicColor)`, and the implicit conversions from the two gradients. */
  function OfGraphicColor(g: GraphicColor): (c: Color)
    ensures c.graphicColor == Some(g) && c.value.None? && AtMostOneArm(c)
  {
    Color(None, Some(g))
  }

  predicate StartsWith(s: string, prefix: string) {
    |prefix| <= |s| && s[..|prefix|] == prefix
  }

  predicate EndsWith(s: string, suffix: string) {
    |suffix| <= |s| && s[|s| - |suffix|..] == suffix
  }

  predicate StartsWithHash(s: string) {
    |s| > 0 && s[0] == '#'
  }

  /** `Color.FromHex`: the hex string, with a `#` put in front unless it has one. */
  function FromHex(hex: string): (c: Color)
    ensures c.graphicColor.None? && c.value.Some? && StartsWithHash(c.value.value)
    ensures StartsWithHash(hex) ==> c.value == Some(hex)
    ensures !StartsWithHash(hex) ==> c.value == Some("#" + hex)
  {
    if StartsWithHash(hex) then OfString(Some(hex)) else OfString(Some("#" + hex))
  }

  /** Applying `FromHex` to its own result changes nothing. */
  lemma FromHexIdempotent(hex: string)
    ensures FromHex(FromHex(hex).value.value) == FromHex(hex)
  {
  }

  /** `Color.FromRGB`: `rgb(r, g, b)` with the three components in decimal. */
  function FromRGB(r: byte, g: byte, b: byte): (c: Color)
    ensures c.graphicColor.None?
    ensures c.value == Some("rgb(" + Decimal.Numeral(r) + ", " + Decimal.Numeral(g) + ", "
                            + Decimal.Numeral(b) + ")")
  {
    OfString(Some("rgb(" + Decimal.Numeral(r) + ", " + Decimal.Numeral(g) + ", "
                  + Decimal.Numeral(b) + ")"))
  }

  /** The colour string of `FromRGB`, grouped as numeral, separator, rest. */
  lemma RgbShape(r: byte, g: byte, b: byte)
    ensures FromRGB(r, g, b).value.value
            == "rgb(" + (Decimal.Numeral(r) + [','] + (" " + (Decimal.Numeral(g) + [','] + (" " + (Decimal.Numeral(b) + [')'] + [])))))
  {
  }

  /** A numeral followed by a non-digit determines the number and the rest of the text. */
  lemma NumeralBeforeSeparator(m: nat, n: nat, sep: char, t1: string, t2: string)
    requires !Decimal.IsDigit(sep)
    requires Decimal.Numeral(m) + [sep] + t1 == Decimal.Numeral(n) + [sep] + t2
    ensures m == n && t1 == t2
  {
    Decimal.DigitsBeforeSeparator(Decimal.Numeral(m), Decimal.Numeral(n), sep, t1, t2);
    Decimal.NumeralInjective(m, n);
  }

  /** Different components give different colour strings: the components can be read back. */
  lemma FromRGBInjective(r1: byte, g1: byte, b1: byte, r2: byte, g2: byte, b2: byte)
    requires FromRGB(r1, g1, b1) == FromRGB(r2, g2, b2)
    ensures r1 == r2 && g1 == g2 && b1 == b2
  {
    RgbShape(r1, g1, b1);
    RgbShape(r2, g2, b2);
    var tb1, tb2 := Decimal.Numeral(b1) + [')'] + [], Decimal.Numeral(b2) + [')'] + [];
    var tg1, tg2 := Decimal.Numeral(g1) + [','] + (" " + tb1), Decimal.Numeral(g2) + [','] + (" " + tb2);
    var tr1, tr2 := Decimal.Numeral(r1) + [','] + (" " + tg1), Decimal.Numeral(r2) + [','] + (" " + tg2);
    assert tr1 == ("rgb(" + tr1)[4..] == ("rgb(" + tr2)[4..] == tr2;
    NumeralBeforeSeparator(r1, r2, ',', " " + tg1, " " + tg2);
    assert tg1 == (" " + tg1)[1..] == (" " + tg2)[1..] == tg2;
    NumeralBeforeSeparator(g1, g2, ',', " " + tb1, " " + tb2);
    assert tb1 == (" " + tb1)[1..] == (" " + tb2)[1..] == tb2;
    NumeralBeforeSeparator(b1, b2, ')', [], []);
  }

  /** `Color.FromRGBA`; the alpha is written by the culture's double formatting, a parameter here. */
  function FromRGBA(r: byte, g: byte, b: byte, a: Double, format: Double -> string): (c: Color)
    ensures c.graphicColor.None?
    ensures c.value == Some("rgba(" + Decimal.Numeral(r) + ", " + Decimal.Numeral(g) + ", "
                            + Decimal.Numeral(b) + ", " + format(a) + ")")
  {
    OfString(Some("rgba(" + Decimal.Numeral(r) + ", " + Decimal.Numeral(g) + ", "
                  + Decimal.Numeral(b) + ", " + format(a) + ")"))
  }

  /** The colour string of `FromRGBA`, grouped as numeral, separator, rest. */
  lemma RgbaShape(r: byte, g: byte, b: byte, a: Double, format: Double -> string)
    ensures FromRGBA(r, g, b, a, format).value.value
            == "rgba(" + (Decimal.Numeral(r) + [','] + (" " + (Decimal.Numeral(g) + [','] +
               (" " + (Decimal.Numeral(b) + [','] + (" " + (format(a) + ")")))))))
  {
    RgbaGrouping(Decimal.Numeral(r), Decimal.Numeral(g), Decimal.Numeral(b), format(a));
  }

  lemma RgbaGrouping(rs: string, gs: string, bs: string, alpha: string)
    ensures "rgba(" + rs + ", " + gs + ", " + bs + ", " + alpha + ")"
            == "rgba(" + (rs + [','] + (" " + (gs + [','] + (" " + (bs + [','] + (" " + (alpha + ")")))))))
  {
    assert ", " == [','] + " ";
  }

  /**
   * Different components give different colour strings, whatever the alpha's
   * text: the three components and the alpha's text can be read back.
   */
  lemma FromRGBAInjective(r1: byte, g1: byte, b1: byte, a1: Double,
                          r2: byte, g2: byte, b2: byte, a2: Double, format: Double -> string)
    requires FromRGBA(r1, g1, b1, a1, format) == FromRGBA(r2, g2, b2, a2, format)
    ensures r1 == r2 && g1 == g2 && b1 == b2 && format(a1) == format(a2)
  {
    RgbaShape(r1, g1, b1, a1, format);
    RgbaShape(r2, g2, b2, a2, format);
    var ta1, ta2 := format(a1) + ")", format(a2) + ")";
    var tb1, tb2 := Decimal.Numeral(b1) + [','] + (" " + ta1), Decimal.Numeral(b2) + [','] + (" " + ta2);
    var tg1, tg2 := Decimal.Numeral(g1) + [','] + (" " + tb1), Decimal.Numeral(g2) + [','] + (" " + tb2);
    var tr1, tr2 := Decimal.Numeral(r1) + [','] + (" " + tg1), Decimal.Numeral(r2) + [','] + (" " + tg2);
    assert tr1 == ("rgba(" + tr1)[5..] == ("rgba(" + tr2)[5..] == tr2;
    NumeralBeforeSeparator(r1, r2, ',', " " + tg1, " " + tg2);
    assert tg1 == (" " + tg1)[1..] == (" " + tg2)[1..] == tg2;
    NumeralBeforeSeparator(g1, g2, ',', " " + tb1, " " + tb2);
    assert tb1 == (" " + tb1)[1..] == (" " + tb2)[1..] == tb2;
    NumeralBeforeSeparator(b1, b2, ',', " " + ta1, " " + ta2);
    assert ta1 == (" " + ta1)[1..] == (" " + ta2)[1..] == ta2;
    assert |format(a1)| == |format(a2)|;
    assert format(a1) == ta1[..|format(a1)|] == ta2[..|format(a2)|] == format(a2);
  }

  /** `Color.Transparent`. */
  function Transparent(): (c: Color)
    ensures c == OfString(Some("transparent"))
  {
    Color(Some("transparent"), None)
  }

  /** The gradient's tri-state `Global` flag as a bare JavaScript literal. */
  function GlobalLiteral(global: Option<bool>): string
  {
    match global
    case Some(true) => "true"
    case Some(false) => "false"
    case None => "null"
  }

  /** The arguments of a call, separated by a comma and a space. */
  function JoinArguments(args: seq<string>): string
  {
    if |args| == 0 then "" else if |args| == 1 then args[0] else args[0] + ", " + JoinArguments(args[1..])
  }

  /** A JavaScript expression constructing an `echarts.graphic` object. */
  function GraphicConstruction(className: string, args: seq<string>): string
  {
    "new echarts.graphic." + className + "(" + JoinArguments(args) + ")"
  }

  /**
   * What `ColorConverter.Write` writes for a colour, or the exception it throws.
   * `format` is the current culture's double formatting and `stopsJson` the
   * serializer's encoding of a stop list under the active options; neither is
   * part of this model.
   */
  function Encode(c: Color, format: Double -> string, stopsJson: Option<seq<ColorStop>> -> string)
    : (r: Result<Token>)
    ensures c.graphicColor.None? ==> r == Success(StringValue(c.value))
    ensures c.graphicColor.Some? ==>
              (r.Success? <==> c.graphicColor.value.LinearGradient? || c.graphicColor.value.RadialGradient?)
    ensures c.graphicColor.Some? && r.Success? ==> r.value.RawValue?
    ensures r.Failure? ==> r.error.NotSupportedException?
  {
    match c.graphicColor
    case None => Success(StringValue(c.value))
    case Some(g) =>
      var stops := if g.IsGradient() then stopsJson(g.colorStops) else "null";
      var global := if g.IsGradient() then GlobalLiteral(g.global) else "null";
      match g
      case LinearGradient(x, y, x2, y2, _, _) =>
        Success(RawValue("new echarts.graphic.LinearGradient(" + format(x) + ", " + format(y) + ", "
                         + format(x2) + ", " + format(y2) + ", " + stops + ", " + global + ")"))
      case RadialGradient(x, y, radius, _, _) =>
        Success(RawValue("new echarts.graphic.RadialGradient(" + format(x) + ", " + format(y) + ", "
                         + format(radius) + ", " + stops + ", " + global + ")"))
      case OtherGradient(name, _, _) =>
        Failure(NotSupportedException("Serialization of type " + name + " not supported"))
      case OtherGraphicColor(name) =>
        Failure(NotSupportedException("Serialization of type " + name + " not supported"))
  }

  /**
   * A linear gradient becomes `new echarts.graphic.LinearGradient(x, y, x2, y2, stops, global)`
   * and a radial one `new echarts.graphic.RadialGradient(x, y, r, stops, global)`.
   */
  lemma GradientIsConstruction(g: GraphicColor, format: Double -> string,
                               stopsJson: Option<seq<ColorStop>> -> string)
    requires g.LinearGradient? || g.RadialGradient?
    ensures Encode(OfGraphicColor(g), format, stopsJson) == Success(RawValue(
              if g.LinearGradient? then
                GraphicConstruction("LinearGradient", [format(g.x), format(g.y), format(g.x2), format(g.y2),
                                                       stopsJson(g.colorStops), GlobalLiteral(g.global)])
              else
                GraphicConstruction("RadialGradient", [format(g.x), format(g.y), format(g.r),
                                                       stopsJson(g.colorStops), GlobalLiteral(g.global)])))
  {
    var stops, global := stopsJson(g.colorStops), GlobalLiteral(g.global);
    if g.LinearGradient? {
      LinearInterpolation(format(g.x), format(g.y), format(g.x2), format(g.y2), stops, global);
    } else {
      RadialInterpolation(format(g.x), format(g.y), format(g.r), stops, global);
    }
  }

  lemma JoinCons(a: string, rest: seq<string>)
    requires |rest| >= 1
    ensures JoinArguments([a] + rest) == a + ", " + JoinArguments(rest)
  {
  }

  /** The interpolated linear-gradient text is the construction with its six arguments in order. */
  lemma LinearInterpolation(a: string, b: string, c: string, d: string, e: string, f: string)
    ensures "new echarts.graphic.LinearGradient(" + a + ", " + b + ", " + c + ", " + d + ", " + e + ", " + f + ")"
            == GraphicConstruction("LinearGradient", [a, b, c, d, e, f])
  {
    JoinCons(e, [f]);
    JoinCons(d, [e, f]);
    assert [d] + [e, f] == [d, e, f];
    JoinCons(c, [d, e, f]);
    assert [c] + [d, e, f] == [c, d, e, f];
    JoinCons(b, [c, d, e, f]);
    assert [b] + [c, d, e, f] == [b, c, d, e, f];
    JoinCons(a, [b, c, d, e, f]);
    assert [a] + [b, c, d, e, f] == [a, b, c, d, e, f];
    assert "new echarts.graphic." + "LinearGradient" + "(" == "new echarts.graphic.LinearGradient(";
  }

  /** The interpolated radial-gradient text is the construction with its five arguments in order. */
  lemma RadialInterpolation(a: string, b: string, c: string, e: string, f: string)
    ensures "new echarts.graphic.RadialGradient(" + a + ", " + b + ", " + c + ", " + e + ", " + f + ")"
            == GraphicConstruction("RadialGradient", [a, b, c, e, f])
  {
    JoinCons(e, [f]);
    JoinCons(c, [e, f]);
    assert [c] + [e, f] == [c, e, f];
    JoinCons(b, [c, e, f]);
    assert [b] + [c, e, f] == [b, c, e, f];
    JoinCons(a, [b, c, e, f]);
    assert [a] + [b, c, e, f] == [a, b, c, e, f];
    assert "new echarts.graphic." + "RadialGradient" + "(" == "new echarts.graphic.RadialGradient(";
  }

  /** An argument list of two or more ends with a comma, a space and its last argument. */
  lemma {:induction false} JoinEndsWithLast(args: seq<string>)
    requires |args| >= 2
    ensures JoinArguments(args) == JoinArguments(args[..|args| - 1]) + ", " + args[|args| - 1]
    decreases |args|
  {
    if |args| > 2 {
      JoinEndsWithLast(args[1..]);
      assert args[1..][..|args| - 2] == args[..|args| - 1][1..];
    }
  }

  /** Reads the global flag back from the end of a gradient expression. */
  function TrailingGlobal(raw: string): Option<Option<bool>>
  {
    if EndsWith(raw, ", true)") then Some(Some(true))
    else if EndsWith(raw, ", false)") then Some(Some(false))
    else if EndsWith(raw, ", null)") then Some(None)
    else None
  }

  /** The last argument of a written gradient is exactly its tri-state global flag. */
  lemma GlobalFlagRecoverable(g: GraphicColor, format: Double -> string,
                              stopsJson: Option<seq<ColorStop>> -> string)
    requires g.LinearGradient? || g.RadialGradient?
    ensures var r := Encode(OfGraphicColor(g), format, stopsJson);
            r.Success? && r.value.RawValue? && TrailingGlobal(r.value.raw) == Some(g.global)
  {
    GradientIsConstruction(g, format, stopsJson);
    var args := if g.LinearGradient? then
                  [format(g.x), format(g.y), format(g.x2), format(g.y2), stopsJson(g.colorStops), GlobalLiteral(g.global)]
                else
                  [format(g.x), format(g.y), format(g.r), stopsJson(g.colorStops), GlobalLiteral(g.global)];
    ConstructionEndsWithGlobal(if g.LinearGradient? then "LinearGradient" else "RadialGradient", args, g.global);
  }

  /** A construction whose last argument is a global literal gives that flag back. */
  lemma ConstructionEndsWithGlobal(className: string, args: seq<string>, global: Option<bool>)
    requires |args| >= 2 && args[|args| - 1] == GlobalLiteral(global)
    ensures TrailingGlobal(GraphicConstruction(className, args)) == Some(global)
  {
    JoinEndsWithLast(args);
    var head := "new echarts.graphic." + className + "(" + JoinArguments(args[..|args| - 1]);
    assert GraphicConstruction(className, args) == head + ", " + GlobalLiteral(global) + ")";
    TrailingGlobalOf(head, global);
  }

  lemma TrailingGlobalOf(head: string, global: Option<bool>)
    ensures TrailingGlobal(head + ", " + GlobalLiteral(global) + ")") == Some(global)
  {
    match global
    case Some(true) =>
      assert head + ", " + GlobalLiteral(global) + ")" == head + ", true)";
      TrailingTrue(head);
    case Some(false) =>
      assert head + ", " + GlobalLiteral(global) + ")" == head + ", false)";
      TrailingFalse(head);
    case None =>
      assert head + ", " + GlobalLiteral(global) + ")" == head + ", null)";
      TrailingNull(head);
  }

  lemma TrailingTrue(head: string)
    ensures TrailingGlobal(head + ", true)") == Some(Some(true))
  {
  }

  lemma TrailingFalse(head: string)
    ensures TrailingGlobal(head + ", false)") == Some(Some(false))
  {
    EndsWithConcat(head, ", false)", ", true)");
    assert ", false)"[1] == ' ';
    EndsWithConcat(head, ", false)", ", false)");
  }

  lemma TrailingNull(head: string)
    ensures TrailingGlobal(head + ", null)") == Some(None)
  {
  }

  /** Whether a concatenation ends with a suffix no longer than its second part depends on that part only. */
  lemma EndsWithConcat(head: string, tail: string, suffix: string)
    requires |suffix| <= |tail|
    ensures EndsWith(head + tail, suffix) <==> EndsWith(tail, suffix)
  {
  }

  /** The token the JSON reader is positioned on when `Read` is called. */
  datatype ReaderToken = ReaderString(s: string) | ReaderNull | ReaderOther(tokenType: string)

  /**
   * `ColorConverter.Read`: a colour holding the string read, or the empty
   * string for a JSON null; the reader throws on any other token.
   */
  function Read(t: ReaderToken): (r: Result<Color>)
    ensures t.ReaderString? ==> r == Success(OfString(Some(t.s)))
    ensures t.ReaderNull? ==> r == Success(OfString(Some("")))
    ensures t.ReaderOther? ==> r.Failure? && r.error.InvalidOperationException?
  {
    match t
    case ReaderString(s) => Success(OfString(Some(s)))
    case ReaderNull => Success(OfString(Some("")))
    case ReaderOther(tokenType) =>
      Failure(InvalidOperationException("Cannot get the value of a token type '" + tokenType + "' as a string."))
  }

  /** Writing a string colour and reading the string back gives the same colour. */
  lemma ReadInvertsWriteOfString(s: string, format: Double -> string,
                                 stopsJson: Option<seq<ColorStop>> -> string)
    ensures Encode(OfString(Some(s)), format, stopsJson) == Success(StringValue(Some(s)))
    ensures Read(ReaderString(s)) == Success(OfString(Some(s)))
  {
  }

  /** A colour read from JSON writes back a quoted string: the one read, or "" for null. */
  lemma WriteAfterRead(t: ReaderToken, format: Double -> string,
                       stopsJson: Option<seq<ColorStop>> -> string)
    requires !t.ReaderOther?
    ensures Read(t).Success?
    ensures Encode(Read(t).value, format, stopsJson)
            == Success(StringValue(Some(if t.ReaderString? then t.s else "")))
  {
  }

  /**
   * `ColorConverter.Write`: computes the stop list and global flag (left as
   * "null" for a graphic colour that is not a gradient), then writes the
   * constructor expression raw, or the colour string quoted.
   */
  method Write(writer: Utf8JsonWriter, value: Color, format: Double -> string,
               stopsJson: Option<seq<ColorStop>> -> string)
    returns (outcome: Result<()>)
    modifies writer
    ensures var e := Encode(value, format, stopsJson);
            && (e.Success? ==> outcome == Success(()) && writer.tokens == old(writer.tokens) + [e.value])
            && (e.Failure? ==> outcome == Failure(e.error) && writer.tokens == old(writer.tokens))
  {
    if value.graphicColor.Some? {
      var g := value.graphicColor.value;
      var colorStops := "null";
      var global := "null";
      if g.IsGradient() {
        colorStops := stopsJson(g.colorStops);
        global := GlobalLiteral(g.global);
      }
      match g {
        case LinearGradient(x, y, x2, y2, _, _) =>
          writer.WriteRawValue("new echarts.graphic.LinearGradient(" + format(x) + ", " + format(y) + ", "
                               + format(x2) + ", " + format(y2) + ", " + colorStops + ", " + global + ")");
        case RadialGradient(x, y, radius, _, _) =>
          writer.WriteRawValue("new echarts.graphic.RadialGradient(" + format(x) + ", " + format(y) + ", "
                               + format(radius) + ", " + colorStops + ", " + global + ")");
        case OtherGradient(name, _, _) =>
          return Failure(NotSupportedException("Serialization of type " + name + " not supported"));
        case OtherGraphicColor(name) =>
          return Failure(NotSupportedException("Serialization of type " + name + " not supported"));
      }
    } else {
      writer.WriteStringValue(value.value);
    }
    outcome := Success(());
  }
}
