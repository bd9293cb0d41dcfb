/**
  The small probes of `webgl.js` that turn host answers into record values:
  `expand_param_pair`, the parameter normalisation of `render`, `get_angle`
  with its power-of-two test `b`, `get_antialiasing_string`, `renderer_info`,
  `get_anisotropy`, `get_major_performance_caveat`, `get_max_draw_buffers`,
  `get_float_int_precision`, `render_range` and `describe_precision`.
 */
module Probes {
  import opened JsValues
  import opened Host

  // ------------------------------------------------------------ text splitting

  predicate Free(s: string, c: char) {
    forall k :: 0 <= k < |s| ==> s[k] != c
  }

  /** The position of the first `c` in `s`, or `|s|` when there is none. */
  function IndexOf(s: string, c: char): nat {
    if s == [] then 0 else if s[0] == c then 0 else 1 + IndexOf(s[1..], c)
  }

  lemma {:induction false} IndexAfterFree(x: string, y: string, c: char)
    requires Free(x, c)
    ensures IndexOf(x + [c] + y, c) == |x|
  {
    if x != [] {
      assert (x + [c] + y)[1..] == x[1..] + [c] + y;
      IndexAfterFree(x[1..], y, c);
    }
  }

  /** A separator that occurs in neither left part splits both texts at the same place. */
  lemma SplitAt(x: string, y: string, x': string, y': string, c: char)
    requires Free(x, c) && Free(x', c)
    requires x + [c] + y == x' + [c] + y'
    ensures x == x' && y == y'
  {
    IndexAfterFree(x, y, c);
    IndexAfterFree(x', y', c);
    var s := x + [c] + y;
    assert s[..|x|] == x && s[..|x'|] == x';
    assert s[|x| + 1..] == y && s[|x'| + 1..] == y';
  }

  /** Every character of an integer's text is a digit or the minus sign. */
  lemma IntTextChars(i: int)
    ensures forall k :: 0 <= k < |IntText(i)| ==> IsDigit(IntText(i)[k]) || IntText(i)[k] == '-'
  {
    if i < 0 {
      assert IntText(i) == "-" + Decimal(-i);
    }
  }

  lemma IntTextFree(i: int, c: char)
    requires !IsDigit(c) && c != '-'
    ensures Free(IntText(i), c)
  {
    IntTextChars(i);
  }

  // ------------------------------------------------------------ expand_param_pair

  /** `v[i]` as it reads when concatenated to a string. */
  function ElementText(v: Value, i: nat): string {
    match v
    case Numbers(e) => if i < |e| then IntText(e[i]) else "undefined"
    case Strings(l) => if i < |l| then l[i] else "undefined"
    case Str(s) => if i < |s| then [s[i]] else "undefined"
    case _ => "undefined"
  }

  function Bracket(a: string, b: string): string {
    "[" + a + ", " + b + "]"
  }

  /** `expand_param_pair(v)`: `"null"` for null and undefined, `"[v[0], v[1]]"` otherwise. */
  function ExpandParamPair(v: Value): string {
    if v.Null? || v.Undefined? then "null" else Bracket(ElementText(v, 0), ElementText(v, 1))
  }

  /** A pair text gives back its two parts when the first has no comma and the second no closing bracket. */
  lemma BracketSplits(a: string, b: string, a': string, b': string)
    requires Free(a, ',') && Free(a', ',') && Free(b, ']') && Free(b', ']')
    requires Bracket(a, b) == Bracket(a', b')
    ensures a == a' && b == b'
  {
    var rest, rest' := " " + b + "]", " " + b' + "]";
    assert Bracket(a, b) == "[" + (a + [','] + rest);
    assert Bracket(a', b') == "[" + (a' + [','] + rest');
    assert Bracket(a, b)[1..] == a + [','] + rest;
    assert Bracket(a', b')[1..] == a' + [','] + rest';
    SplitAt(a, rest, a', rest', ',');
    assert rest[1..|rest| - 1] == b && rest'[1..|rest'| - 1] == b';
  }

  /** Two integer pairs expand to the same text only when they are the same pair. */
  lemma ExpandPairInjective(a: int, b: int, c: int, d: int)
    requires ExpandParamPair(Numbers([a, b])) == ExpandParamPair(Numbers([c, d]))
    ensures a == c && b == d
  {
    IntTextFree(a, ','); IntTextFree(c, ',');
    IntTextFree(b, ']'); IntTextFree(d, ']');
    BracketSplits(IntText(a), IntText(b), IntText(c), IntText(d));
    IntTextInjective(a, c);
    IntTextInjective(b, d);
  }

  /** `"[" + a + ", " + b + "]"` spells `"[1, 1]"` exactly when both parts are `"1"`. */
  lemma BracketIsUnit(a: string, b: string)
    ensures Bracket(a, b) == "[1, 1]" <==> a == "1" && b == "1"
  {
    var s := Bracket(a, b);
    if s == "[1, 1]" {
      assert s[|a| + 1] == ',';
      assert forall k :: 0 <= k < 6 && k != 2 ==> "[1, 1]"[k] != ',';
      assert |a| == 1;
      assert a == s[1..2];
      assert b == s[4..5];
    }
  }

  /** The host answers the line-width range `[1, 1]` (as numbers, as strings, or as the text "11"). */
  predicate IsUnitRange(v: Value) {
    match v
    case Numbers(e) => |e| >= 2 && e[0] == 1 && e[1] == 1
    case Strings(l) => |l| >= 2 && l[0] == "1" && l[1] == "1"
    case Str(s) => |s| >= 2 && s[0] == '1' && s[1] == '1'
    case _ => false
  }

  lemma ElementIsOne(v: Value, i: nat)
    ensures ElementText(v, i) == "1" <==>
      match v
      case Numbers(e) => i < |e| && e[i] == 1
      case Strings(l) => i < |l| && l[i] == "1"
      case Str(s) => i < |s| && s[i] == '1'
      case _ => false
  {
    match v
    case Numbers(e) => if i < |e| { IntTextIsOne(e[i]); }
    case _ =>
  }

  /** The `get_angle` line-width test `c !== expand_param_pair([1, 1])` fails exactly on a unit range. */
  lemma UnitRangeText(v: Value)
    ensures ExpandParamPair(v) == ExpandParamPair(Numbers([1, 1])) <==> IsUnitRange(v)
  {
    assert IntText(1) == "1";
    assert ExpandParamPair(Numbers([1, 1])) == "[1, 1]";
    if !(v.Null? || v.Undefined?) {
      BracketIsUnit(ElementText(v, 0), ElementText(v, 1));
      ElementIsOne(v, 0);
      ElementIsOne(v, 1);
    }
  }

  // ------------------------------------------------------------ normalisation

  /** The parameter loop of `render`: null becomes "n/a", an object its pair text, anything else stays. */
  function NormaliseParam(v: Value): (r: Value)
    ensures v.Null? ==> r == Str("n/a")
    ensures !v.Null? && IsObject(v) ==> r == Str(ExpandParamPair(v))
    ensures !v.Null? && !IsObject(v) ==> r == v
  {
    if v.Null? then Str("n/a")
    else if IsObject(v) then Str(ExpandParamPair(v))
    else v
  }

  /** A normalised value is neither null nor an object, so normalising it again changes nothing. */
  lemma NormaliseIdempotent(v: Value)
    ensures !NormaliseParam(v).Null? && !IsObject(NormaliseParam(v))
    ensures NormaliseParam(NormaliseParam(v)) == NormaliseParam(v)
  {
  }

  // ------------------------------------------------------------ b and get_angle

  const TwoTo32: int := 0x1_0000_0000

  /** The 32 bits `ToInt32` keeps of an integer, read as an unsigned number. */
  function Uint32(x: int): (r: nat)
    ensures r < TwoTo32
  {
    x % TwoTo32
  }

  /** Bitwise and of two natural numbers. */
  function BitAnd(x: nat, y: nat): nat
    decreases x
  {
    if x == 0 || y == 0 then 0
    else 2 * BitAnd(x / 2, y / 2) + (if x % 2 == 1 && y % 2 == 1 then 1 else 0)
  }

  predicate IsPowerOfTwo(n: nat)
    decreases n
  {
    n == 1 || (n > 1 && n % 2 == 0 && IsPowerOfTwo(n / 2))
  }

  /**
    `ToNumber(v)` for the values whose conversion is followed here; `None`
    is NaN. Strings other than "" count as NaN.
   */
  function ToInteger(v: Value): Option<int> {
    match v
    case Null => Some(0)
    case Bool(b) => Some(if b then 1 else 0)
    case Num(n) => Some(n)
    case Str(s) => if s == "" then Some(0) else None
    case Numbers(e) => if |e| == 0 then Some(0) else if |e| == 1 then Some(e[0]) else None
    case Strings(l) => if |l| == 0 || (|l| == 1 && l[0] == "") then Some(0) else None
    case _ => None
  }

  /** The bits of `ToInt32(v)` and of `ToInt32(v - 1)`. */
  function LowBits(v: Value): nat {
    match ToInteger(v) case None => 0 case Some(n) => Uint32(n)
  }

  function LowBitsMinusOne(v: Value): nat {
    match ToInteger(v) case None => 0 case Some(n) => Uint32(n - 1)
  }

  /** `b(a)` of `get_angle`: `0 !== a && 0 === (a & a - 1)`. */
  predicate PowerOfTwoTest(a: Value) {
    a != Num(0) && BitAnd(LowBits(a), LowBitsMinusOne(a)) == 0
  }

  lemma {:induction false} BitAndSelf(m: nat)
    ensures BitAnd(m, m) == m
    decreases m
  {
    if m > 0 {
      BitAndSelf(m / 2);
    }
  }

  lemma {:induction false} BitAndPredecessor(n: nat)
    requires n >= 1
    ensures BitAnd(n, n - 1) == 0 <==> IsPowerOfTwo(n)
    decreases n
  {
    if n > 1 {
      var m := n / 2;
      if n % 2 == 0 {
        assert (n - 1) / 2 == m - 1 && (n - 1) % 2 == 1;
        BitAndPredecessor(m);
      } else {
        assert (n - 1) / 2 == m && (n - 1) % 2 == 0;
        BitAndSelf(m);
      }
    }
  }

  /** On the integers a 32-bit limit can take, `b` is the test for a positive power of two. */
  lemma PowerOfTwoTestCorrect(n: int)
    requires 0 <= n < TwoTo32
    ensures PowerOfTwoTest(Num(n)) <==> n > 0 && IsPowerOfTwo(n)
  {
    if n > 0 {
      Uint32Exact(n);
      Uint32Exact(n - 1);
      assert LowBits(Num(n)) == n && LowBitsMinusOne(Num(n)) == n - 1;
      BitAndPredecessor(n);
    }
  }

  lemma Uint32Exact(x: int)
    requires 0 <= x < TwoTo32
    ensures Uint32(x) == x
  {
  }

  /**
    Through `ToInt32` a negative limit is tested as its 32-bit pattern: `b`
    accepts -2^31, say, which is not a positive power of two.
   */
  lemma PowerOfTwoTestWraps(n: int)
    requires -TwoTo32 < n < 0
    ensures PowerOfTwoTest(Num(n)) <==> IsPowerOfTwo(n + TwoTo32)
  {
    assert Uint32(n) == n + TwoTo32 && Uint32(n - 1) == n + TwoTo32 - 1;
    assert LowBits(Num(n)) == n + TwoTo32 && LowBitsMinusOne(Num(n)) == n + TwoTo32 - 1;
    BitAndPredecessor(n + TwoTo32);
  }

  predicate IsWindows(platform: string) {
    platform == "Win32" || platform == "Win64"
  }

  /** `get_angle(render_ctx)` with `navigator.platform`. */
  function GetAngle(ctx: GLContext, platform: string): string {
    var c := ExpandParamPair(Param(ctx, "ALIASED_LINE_WIDTH_RANGE"));
    if ("Win32" != platform && "Win64" != platform)
       || Param(ctx, "RENDERER") == Str("Internet Explorer")
       || Param(ctx, "RENDERER") == Str("Microsoft Edge")
       || c != ExpandParamPair(Numbers([1, 1]))
    then "False"
    else if PowerOfTwoTest(Param(ctx, "MAX_VERTEX_UNIFORM_VECTORS"))
         && PowerOfTwoTest(Param(ctx, "MAX_FRAGMENT_UNIFORM_VECTORS"))
    then "True, Direct3D 11"
    else "True, Direct3D 9"
  }

  /**
    ANGLE is reported only on Windows, for a renderer other than Internet
    Explorer and Edge, with a unit line-width range; it is Direct3D 11 exactly
    when both uniform-vector limits pass `b`.
   */
  lemma GetAngleCharacterised(ctx: GLContext, platform: string)
    ensures var angle := GetAngle(ctx, platform);
            var renderer := Param(ctx, "RENDERER");
            var detected := IsWindows(platform)
                            && renderer != Str("Internet Explorer") && renderer != Str("Microsoft Edge")
                            && IsUnitRange(Param(ctx, "ALIASED_LINE_WIDTH_RANGE"));
            && (angle == "False" <==> !detected)
            && (angle == "True, Direct3D 11" <==>
                  detected && PowerOfTwoTest(Param(ctx, "MAX_VERTEX_UNIFORM_VECTORS"))
                           && PowerOfTwoTest(Param(ctx, "MAX_FRAGMENT_UNIFORM_VECTORS")))
            && (angle == "False" || angle == "True, Direct3D 11" || angle == "True, Direct3D 9")
  {
    UnitRangeText(Param(ctx, "ALIASED_LINE_WIDTH_RANGE"));
  }

  // ------------------------------------------------------------ small probes

  /** `get_antialiasing_string(render_ctx)`. */
  function AntialiasingString(ctx: GLContext): (r: string)
    ensures r == "True" <==> ctx.antialias == Some(true)
    ensures r == "True" || r == "False"
  {
    var antialias := match ctx.antialias case Some(b) => b case None => false;
    if antialias then "True" else "False"
  }

  datatype RendererInfo = RendererInfo(renderer: Value, vendor: Value)

  const DebugRendererInfo := "WEBGL_debug_renderer_info"

  /**
    `renderer_info(render_ctx)`. Without the debug extension the vendor line
    reads a property of null and throws (`None`): there is no fallback.
   */
  function GetRendererInfo(ctx: GLContext): (r: Option<RendererInfo>)
    ensures r.Some? <==> HasExtension(ctx, DebugRendererInfo)
    ensures r.Some? ==> (r.value.renderer == Param(ctx, "UNMASKED_RENDERER_WEBGL")
                         && r.value.vendor == Param(ctx, "UNMASKED_VENDOR_WEBGL"))
  {
    if HasExtension(ctx, DebugRendererInfo)
    then Some(RendererInfo(Param(ctx, "UNMASKED_RENDERER_WEBGL"), Param(ctx, "UNMASKED_VENDOR_WEBGL")))
    else None
  }

  predicate HasAnisotropy(ctx: GLContext) {
    HasExtension(ctx, "EXT_texture_filter_anisotropic")
    || HasExtension(ctx, "WEBKIT_EXT_texture_filter_anisotropic")
    || HasExtension(ctx, "MOZ_EXT_texture_filter_anisotropic")
  }

  /** `get_anisotropy(gl)`: the reported maximum, 2 in place of a reported 0, "n/a" without the extension. */
  function GetAnisotropy(ctx: GLContext): (r: Value)
    ensures !HasAnisotropy(ctx) ==> r == Str("n/a")
    ensures HasAnisotropy(ctx) && Param(ctx, "MAX_TEXTURE_MAX_ANISOTROPY_EXT") == Num(0) ==> r == Num(2)
    ensures HasAnisotropy(ctx) && Param(ctx, "MAX_TEXTURE_MAX_ANISOTROPY_EXT") != Num(0)
            ==> r == Param(ctx, "MAX_TEXTURE_MAX_ANISOTROPY_EXT")
    ensures r != Num(0)
  {
    if HasAnisotropy(ctx) then
      var c := Param(ctx, "MAX_TEXTURE_MAX_ANISOTROPY_EXT");
      if c == Num(0) then Num(2) else c
    else Str("n/a")
  }

  /** `get_major_performance_caveat(alias)`. */
  function MajorPerformanceCaveat(probe: CaveatProbe): (r: string)
    ensures r == "True" <==> probe.ProbeNoContext?
    ensures r == "Not implemented" <==> probe == ProbeAttributes(Undefined)
    ensures r == "False" <==> probe.ProbeAttributes? && probe.failIfMajorPerformanceCaveat != Undefined
    ensures r == "n/gl" <==> probe.ProbeThrows? || probe.ProbeNoAttributes?
  {
    match probe
    case ProbeThrows => "n/gl"
    case ProbeNoContext => "True"
    case ProbeNoAttributes => "n/gl"
    case ProbeAttributes(flag) => if flag == Undefined then "Not implemented" else "False"
  }

  /** `get_max_draw_buffers(gl)`. */
  function MaxDrawBuffers(ctx: GLContext): (r: Value)
    ensures !HasExtension(ctx, "WEBGL_draw_buffers") ==> r == Num(0)
    ensures HasExtension(ctx, "WEBGL_draw_buffers") ==> r == Param(ctx, "MAX_DRAW_BUFFERS_WEBGL")
  {
    if HasExtension(ctx, "WEBGL_draw_buffers") then Param(ctx, "MAX_DRAW_BUFFERS_WEBGL") else Num(0)
  }

  /** `get_float_int_precision(gl)`. */
  function FloatIntPrecision(ctx: GLContext): (r: string)
    ensures var formats := ctx.precisionFormats;
            var hf := (FragmentShader, HighFloat);
            var hi := (FragmentShader, HighInt);
            if hf in formats && hi in formats then
              r == (if formats[hf].precision != 0 then "highp/" else "mediump/")
                 + (if formats[hi].rangeMax != 0 then "highp" else "lowp")
            else r == "n/a"
  {
    var formats := ctx.precisionFormats;
    if (FragmentShader, HighFloat) in formats && (FragmentShader, HighInt) in formats then
      var text := if formats[(FragmentShader, HighFloat)].precision != 0 then "highp/" else "mediump/";
      text + (if formats[(FragmentShader, HighInt)].rangeMax != 0 then "highp" else "lowp")
    else "n/a"
  }

  /** The precision label names its two tests: "highp/" for a non-zero float precision, "highp" for a non-zero int range. */
  lemma FloatIntPrecisionLabels(ctx: GLContext)
    ensures var r := FloatIntPrecision(ctx);
            r in {"highp/highp", "highp/lowp", "mediump/highp", "mediump/lowp", "n/a"}
    ensures var formats := ctx.precisionFormats;
            (FragmentShader, HighFloat) in formats && (FragmentShader, HighInt) in formats ==>
              (FloatIntPrecision(ctx)[..5] == "highp" <==> formats[(FragmentShader, HighFloat)].precision != 0)
  {
    var formats := ctx.precisionFormats;
    if (FragmentShader, HighFloat) in formats && (FragmentShader, HighInt) in formats {
      var r := FloatIntPrecision(ctx);
      var high := formats[(FragmentShader, HighInt)].rangeMax != 0;
      if formats[(FragmentShader, HighFloat)].precision != 0 {
        if high { assert r == "highp/highp"; } else { assert r == "highp/lowp"; }
        assert r[..5] == "highp";
      } else {
        if high { assert r == "mediump/highp"; } else { assert r == "mediump/lowp"; }
        assert r[0] == 'm';
      }
    }
  }

  // ------------------------------------------------------------ describe_precision

  /** `render_range_value(value, as_number)`. */
  function RangeValue(value: int, asNumber: bool, powerOfTwoText: int -> string): string {
    if asNumber then powerOfTwoText(value) else "2^" + IntText(value)
  }

  /** `render_range(value, as_number)`. */
  function RenderRange(f: Format, asNumber: bool, powerOfTwoText: int -> string): string {
    "[-" + RangeValue(f.rangeMin, asNumber, powerOfTwoText) + ", " + RangeValue(f.rangeMax, asNumber, powerOfTwoText)
    + "] (" + IntText(f.precision) + (if asNumber then " bit mantissa" else "") + ")"
  }

  /** `render_range(f, false)` spelled out from the texts of its three integers. */
  function ExponentRange(a: string, b: string, p: string): string {
    "[-2^" + a + ", 2^" + b + "] (" + p + ")"
  }

  lemma ExponentRangeSplits(a: string, b: string, p: string, a': string, b': string, p': string)
    requires Free(a, ',') && Free(a', ',') && Free(b, ']') && Free(b', ']')
    requires ExponentRange(a, b, p) == ExponentRange(a', b', p')
    ensures a == a' && b == b' && p == p'
  {
    var tail, tail' := " (" + p + ")", " (" + p' + ")";
    var rest, rest' := " 2^" + (b + [']'] + tail), " 2^" + (b' + [']'] + tail');
    assert ExponentRange(a, b, p) == "[-2^" + (a + [','] + rest);
    assert ExponentRange(a', b', p') == "[-2^" + (a' + [','] + rest');
    assert ExponentRange(a, b, p)[4..] == a + [','] + rest;
    assert ExponentRange(a', b', p')[4..] == a' + [','] + rest';
    SplitAt(a, rest, a', rest', ',');
    assert rest[3..] == b + [']'] + tail && rest'[3..] == b' + [']'] + tail';
    SplitAt(b, tail, b', tail', ']');
    assert tail[2..|tail| - 1] == p && tail'[2..|tail'| - 1] == p';
  }

  lemma ExponentRangeOf(f: Format, pt: int -> string)
    ensures RenderRange(f, false, pt) == ExponentRange(IntText(f.rangeMin), IntText(f.rangeMax), IntText(f.precision))
  {
  }

  /** The exponent form of a range gives back the format it was made from. */
  lemma RangeTextInjective(f: Format, g: Format, pt: int -> string)
    requires RenderRange(f, false, pt) == RenderRange(g, false, pt)
    ensures f == g
  {
    ExponentRangeOf(f, pt);
    ExponentRangeOf(g, pt);
    IntTextFree(f.rangeMin, ','); IntTextFree(g.rangeMin, ',');
    IntTextFree(f.rangeMax, ']'); IntTextFree(g.rangeMax, ']');
    ExponentRangeSplits(IntText(f.rangeMin), IntText(f.rangeMax), IntText(f.precision),
                        IntText(g.rangeMin), IntText(g.rangeMax), IntText(g.precision));
    IntTextInjective(f.rangeMin, g.rangeMin);
    IntTextInjective(f.rangeMax, g.rangeMax);
    IntTextInjective(f.precision, g.precision);
  }

  /**
    `describe_precision(gl, shaderType)`: the three float formats as numbers,
    and the best one as powers of two, medium taking over when high has no
    precision; `false` when any of the three answers is null.
   */
  function DescribePrecision(ctx: GLContext, shader: ShaderType, pt: int -> string): (r: Value)
    ensures r.Precision? || r == Bool(false)
    ensures r.Precision? <==> (shader, HighFloat) in ctx.precisionFormats
                              && (shader, MediumFloat) in ctx.precisionFormats
                              && (shader, LowFloat) in ctx.precisionFormats
  {
    var formats := ctx.precisionFormats;
    if (shader, HighFloat) in formats && (shader, MediumFloat) in formats && (shader, LowFloat) in formats then
      var high := formats[(shader, HighFloat)];
      var med := formats[(shader, MediumFloat)];
      var low := formats[(shader, LowFloat)];
      var best := if high.precision == 0 then med else high;
      Precision(RenderRange(high, true, pt), RenderRange(med, true, pt), RenderRange(low, true, pt), RenderRange(best, false, pt))
    else Bool(false)
  }

  /** The label describes the medium format exactly when the high format reports no precision. */
  lemma BestPrecisionLabel(ctx: GLContext, shader: ShaderType, pt: int -> string)
    requires DescribePrecision(ctx, shader, pt).Precision?
    ensures var formats := ctx.precisionFormats;
            var high := formats[(shader, HighFloat)];
            var med := formats[(shader, MediumFloat)];
            var range := DescribePrecision(ctx, shader, pt).range;
            && (high.precision == 0 ==> range == RenderRange(med, false, pt))
            && (high.precision != 0 ==> range == RenderRange(high, false, pt))
            && (range == RenderRange(high, false, pt) <==> high.precision != 0 || high == med)
  {
    var formats := ctx.precisionFormats;
    var high, med := formats[(shader, HighFloat)], formats[(shader, MediumFloat)];
    if high.precision == 0 && RenderRange(med, false, pt) == RenderRange(high, false, pt) {
      RangeTextInjective(med, high, pt);
    }
  }
}
