/**
  `render()`: detect a context, record the implementations and the WebGL
  version, on WebGL 2 the presence of the WebGL 2 functions, then every
  parameter of the version's list, normalised, and the results of the
  probes, all through `add` into the configuration record.
 */
module Render {
  import opened JsValues
  import opened Capabilities
  import opened Host
  import opened Detect
  import opened Probes
  import opened Extensions

  const WebGl2Functions: seq<string> := [
    "copyBufferSubData", "getBufferSubData", "blitFramebuffer", "framebufferTextureLayer",
    "getInternalformatParameter", "invalidateFramebuffer", "invalidateSubFramebuffer",
    "readBuffer", "renderbufferStorageMultisample", "texStorage2D", "texStorage3D", "texImage3D",
    "texSubImage3D", "copyTexSubImage3D", "compressedTexImage3D", "compressedTexSubImage3D",
    "getFragDataLocation", "uniform1ui", "uniform2ui", "uniform3ui", "uniform4ui", "uniform1uiv",
    "uniform2uiv", "uniform3uiv", "uniform4uiv", "uniformMatrix2x3fv", "uniformMatrix3x2fv",
    "uniformMatrix2x4fv", "uniformMatrix4x2fv", "uniformMatrix3x4fv", "uniformMatrix4x3fv",
    "vertexAttribI4i", "vertexAttribI4iv", "vertexAttribI4ui", "vertexAttribI4uiv",
    "vertexAttribIPointer", "vertexAttribDivisor", "drawArraysInstanced", "drawElementsInstanced",
    "drawRangeElements", "drawBuffers", "clearBufferiv", "clearBufferuiv", "clearBufferfv",
    "clearBufferfi", "createQuery", "deleteQuery", "isQuery", "beginQuery", "endQuery", "getQuery",
    "getQueryParameter", "createSampler", "deleteSampler", "isSampler", "bindSampler",
    "samplerParameteri", "samplerParameterf", "getSamplerParameter", "fenceSync", "isSync",
    "deleteSync", "clientWaitSync", "waitSync", "getSyncParameter", "createTransformFeedback",
    "deleteTransformFeedback", "isTransformFeedback", "bindTransformFeedback",
    "beginTransformFeedback", "endTransformFeedback", "transformFeedbackVaryings",
    "getTransformFeedbackVarying", "pauseTransformFeedback", "resumeTransformFeedback",
    "bindBufferBase", "bindBufferRange", "getIndexedParameter", "getUniformIndices",
    "getActiveUniforms", "getUniformBlockIndex", "getActiveUniformBlockParameter",
    "getActiveUniformBlockName", "uniformBlockBinding", "createVertexArray", "deleteVertexArray",
    "isVertexArray", "bindVertexArray"
  ]

  const WebGl1Params: seq<string> := [
    "VERSION", "SHADING_LANGUAGE_VERSION", "VENDOR", "RENDERER", "MAX_VERTEX_ATTRIBS",
    "MAX_VERTEX_UNIFORM_VECTORS", "MAX_VERTEX_TEXTURE_IMAGE_UNITS", "MAX_VARYING_VECTORS",
    "ALIASED_LINE_WIDTH_RANGE", "ALIASED_POINT_SIZE_RANGE", "MAX_FRAGMENT_UNIFORM_VECTORS",
    "MAX_TEXTURE_IMAGE_UNITS", "RED_BITS", "GREEN_BITS", "BLUE_BITS", "ALPHA_BITS", "DEPTH_BITS",
    "STENCIL_BITS", "MAX_RENDERBUFFER_SIZE", "MAX_VIEWPORT_DIMS", "MAX_TEXTURE_SIZE",
    "MAX_CUBE_MAP_TEXTURE_SIZE", "MAX_COMBINED_TEXTURE_IMAGE_UNITS"
  ]

  const WebGl2Params: seq<string> := [
    "MAX_VERTEX_UNIFORM_COMPONENTS", "MAX_VERTEX_UNIFORM_BLOCKS", "MAX_VERTEX_OUTPUT_COMPONENTS",
    "MAX_VARYING_COMPONENTS", "MAX_TRANSFORM_FEEDBACK_INTERLEAVED_COMPONENTS",
    "MAX_TRANSFORM_FEEDBACK_SEPARATE_ATTRIBS", "MAX_TRANSFORM_FEEDBACK_SEPARATE_COMPONENTS",
    "MAX_FRAGMENT_UNIFORM_COMPONENTS", "MAX_FRAGMENT_UNIFORM_BLOCKS",
    "MAX_FRAGMENT_INPUT_COMPONENTS", "MIN_PROGRAM_TEXEL_OFFSET", "MAX_PROGRAM_TEXEL_OFFSET",
    "MAX_DRAW_BUFFERS", "MAX_COLOR_ATTACHMENTS", "MAX_SAMPLES", "MAX_3D_TEXTURE_SIZE",
    "MAX_ARRAY_TEXTURE_LAYERS", "MAX_TEXTURE_LOD_BIAS", "MAX_UNIFORM_BUFFER_BINDINGS",
    "MAX_UNIFORM_BLOCK_SIZE", "UNIFORM_BUFFER_OFFSET_ALIGNMENT", "MAX_COMBINED_UNIFORM_BLOCKS",
    "MAX_COMBINED_VERTEX_UNIFORM_COMPONENTS", "MAX_COMBINED_FRAGMENT_UNIFORM_COMPONENTS"
  ]

  /** How `render()` ends: it returns, it returns `false`, or it throws. */
  datatype Outcome = Finished | ReturnedFalse | Threw

  /** The `add` calls `render()` makes, in order, and how it ends. */
  datatype Plan = Plan(entries: seq<Entry>, outcome: Outcome)

  /** `"2" === alias.slice(-1)`. */
  predicate EndsInTwo(alias: string) {
    |alias| > 0 && alias[|alias| - 1] == '2'
  }

  /** `webgl_impl.name`, which is undefined when detection gives `false`. */
  function ImplementationsEntry(detection: Option<Detected>): Entry {
    Entry("info", "implementations", match detection case None => Undefined case Some(d) => Strings(d.name))
  }

  function VersionEntry(two: bool): Entry {
    Entry("info", "WebGLVersion", Num(if two then 2 else 1))
  }

  /** The functions loop: both branches of its presence test add `true`. */
  function FunctionEntries(names: seq<string>): (r: seq<Entry>)
    ensures |r| == |names|
    decreases |names|
  {
    if names == [] then []
    else FunctionEntries(names[..|names| - 1]) + [Entry("functions", names[|names| - 1], Bool(true))]
  }

  /** `webgl_params`, with the WebGL 2 list appended on version 2. */
  function ParamNames(two: bool): seq<string> {
    WebGl1Params + (if two then WebGl2Params else [])
  }

  /** The params loop: each parameter's answer, normalised. */
  function ParamEntries(ctx: GLContext, names: seq<string>): (r: seq<Entry>)
    ensures |r| == |names|
    decreases |names|
  {
    if names == [] then []
    else
      var name := names[|names| - 1];
      ParamEntries(ctx, names[..|names| - 1]) + [Entry("params", name, NormaliseParam(Param(ctx, name)))]
  }

  /** The adds between the renderer information and the extension lists. */
  function ProbeEntries(host: Host, ctx: GLContext, first: string, two: bool, info: RendererInfo): seq<Entry> {
    [ Entry("params", "UNMASKED_VENDOR", info.vendor),
      Entry("params", "UNMASKED_RENDERER", info.renderer),
      Entry("params", "ANGLE", Str(GetAngle(ctx, host.platform))),
      Entry("params", "MAX_ANISOTROPY", GetAnisotropy(ctx)),
      Entry("params", "MAJOR_PERFORMANCE_CAVEAT", Str(MajorPerformanceCaveat(CaveatOutcome(host, first)))) ]
    + (if two then [] else [Entry("params", "MAX_DRAW_BUFFERS", MaxDrawBuffers(ctx))])
    + [Entry("params", "FLOAT_INT_PRECISION", Str(FloatIntPrecision(ctx)))]
  }

  /** `get_webgl_extensions(render_context).webgl`: undefined when the call returns `false`. */
  function WebglField(r: ExtensionsResult): Value {
    if r.Partitioned? then Strings(r.webgl) else Undefined
  }

  function PrivilegedField(r: ExtensionsResult): Value {
    if r.Partitioned? then Strings(r.privileged) else Undefined
  }

  function ExtensionEntries(r: ExtensionsResult, ctx: GLContext, pt: int -> string): seq<Entry> {
    [ Entry("params", "SUPPORTED_WEBGl_EXTENSIONS", WebglField(r)),
      Entry("params", "SUPPORTED_PRIVILEGED_EXTENSIONS", PrivilegedField(r)),
      Entry("params", "BEST_FLOAT_PRECISION", DescribePrecision(ctx, VertexShader, pt)) ]
  }

  /** Version 1 stops with `false` on the fake alias or a `getParameter` that is neither function nor object. */
  predicate Blocked(first: string, ctx: GLContext) {
    !EndsInTwo(first)
    && (first == "fake-webgl" || (ctx.getParameterType != "function" && ctx.getParameterType != "object"))
  }

  /** Everything `render()` adds before the params loop, when it gets that far. */
  function HeadEntries(host: Host, d: Detected, two: bool): seq<Entry> {
    [ImplementationsEntry(Some(d))] + [VersionEntry(two)]
    + (if host.webGL2Constructor && two then FunctionEntries(WebGl2Functions) else [])
  }

  /** What `render()` does on `host`. */
  function RenderPlan(host: Host, pt: int -> string): Plan {
    match Detection(host)
    case None =>
      // `supported_webgl_implementations.filter` on undefined throws when WebGL 2 exists.
      Plan([ImplementationsEntry(None)], if host.webGL2Constructor then Threw else Finished)
    case Some(d) =>
      var first := d.name[0];
      var two := EndsInTwo(first);
      var ctx := d.gl;
      if Blocked(first, ctx) then Plan([ImplementationsEntry(Some(d))], ReturnedFalse)
      else
        var head := HeadEntries(host, d, two);
        // A `getParameter` that cannot be called throws at the first parameter.
        if ctx.getParameterType != "function" then Plan(head, Threw)
        else
          var measured := head + ParamEntries(ctx, ParamNames(two))
                          + [Entry("params", "ANTIALIASING", Str(AntialiasingString(ctx)))];
          match GetRendererInfo(ctx)
          case None => Plan(measured, Threw)
          case Some(info) =>
            var probed := measured + ProbeEntries(host, ctx, first, two, info);
            var extensions := ExtensionsOf(ctx.supportedExtensions);
            if extensions.ListingThrew? then Plan(probed, Threw)
            else Plan(probed + ExtensionEntries(extensions, ctx, pt), Finished)
  }

  // The sequence steps below are stated apart so that the methods need not
  // prove sequence equalities next to record facts.

  lemma FunctionEntriesStep(done: seq<Entry>, names: seq<string>, i: nat)
    requires i < |names|
    ensures done + FunctionEntries(names[..i + 1]) == done + FunctionEntries(names[..i]) + [Entry("functions", names[i], Bool(true))]
  {
    assert names[..i + 1][..i] == names[..i];
  }

  lemma ParamEntriesStep(done: seq<Entry>, ctx: GLContext, names: seq<string>, i: nat)
    requires i < |names|
    ensures done + ParamEntries(ctx, names[..i + 1])
            == done + ParamEntries(ctx, names[..i]) + [Entry("params", names[i], NormaliseParam(Param(ctx, names[i])))]
  {
    assert names[..i + 1][..i] == names[..i];
  }

  lemma ProbeEntriesSpelled(done: seq<Entry>, host: Host, ctx: GLContext, first: string, two: bool, info: RendererInfo)
    ensures var early := done + [Entry("params", "UNMASKED_VENDOR", info.vendor)]
                        + [Entry("params", "UNMASKED_RENDERER", info.renderer)]
                        + [Entry("params", "ANGLE", Str(GetAngle(ctx, host.platform)))]
                        + [Entry("params", "MAX_ANISOTROPY", GetAnisotropy(ctx))]
                        + [Entry("params", "MAJOR_PERFORMANCE_CAVEAT", Str(MajorPerformanceCaveat(CaveatOutcome(host, first))))];
            var late := if two then early else early + [Entry("params", "MAX_DRAW_BUFFERS", MaxDrawBuffers(ctx))];
            done + ProbeEntries(host, ctx, first, two, info)
            == late + [Entry("params", "FLOAT_INT_PRECISION", Str(FloatIntPrecision(ctx)))]
  {
  }

  lemma ExtensionEntriesSpelled(done: seq<Entry>, r: ExtensionsResult, ctx: GLContext, pt: int -> string)
    ensures done + ExtensionEntries(r, ctx, pt)
            == done + [Entry("params", "SUPPORTED_WEBGl_EXTENSIONS", WebglField(r))]
               + [Entry("params", "SUPPORTED_PRIVILEGED_EXTENSIONS", PrivilegedField(r))]
               + [Entry("params", "BEST_FLOAT_PRECISION", DescribePrecision(ctx, VertexShader, pt))]
  {
  }

  /** The functions loop of `render()` over the list `names`. */
  method RecordFunctions(ctx: GLContext, names: seq<string>, config: Configurations, ghost start: Record, ghost done: seq<Entry>)
    modifies config
    requires config.subjects == ApplyAll(start, done)
    ensures config.subjects == ApplyAll(start, done + FunctionEntries(names))
  {
    ghost var written := done;
    assert done + FunctionEntries(names[..0]) == written;
    var i := 0;
    while i < |names|
      invariant 0 <= i <= |names|
      invariant written == done + FunctionEntries(names[..i])
      invariant config.subjects == ApplyAll(start, written)
    {
      var name := names[i];
      var e := Entry("functions", name, Bool(true));
      FunctionEntriesStep(done, names, i);
      if name in ctx.members {
        AddNext(config, e, start, written);
      } else {
        AddNext(config, e, start, written);
      }
      written := written + [e];
      i := i + 1;
    }
    assert names[..i] == names;
  }

  /** The params loop of `render()` over `params`. */
  method RecordParams(ctx: GLContext, params: seq<string>, config: Configurations, ghost start: Record, ghost done: seq<Entry>)
    modifies config
    requires config.subjects == ApplyAll(start, done)
    ensures config.subjects == ApplyAll(start, done + ParamEntries(ctx, params))
  {
    assert done + ParamEntries(ctx, params[..0]) == done;
    var i := 0;
    while i < |params|
      invariant 0 <= i <= |params|
      invariant config.subjects == ApplyAll(start, done + ParamEntries(ctx, params[..i]))
    {
      var value := Param(ctx, params[i]);
      if value.Null? {
        value := Str("n/a");
      } else if IsObject(value) {
        value := Str(ExpandParamPair(value));
      }
      AddNext(config, Entry("params", params[i], value), start, done + ParamEntries(ctx, params[..i]));
      ParamEntriesStep(done, ctx, params, i);
      i := i + 1;
    }
    assert params[..i] == params;
  }

  /** The adds from `UNMASKED_VENDOR` to `FLOAT_INT_PRECISION`. */
  method RecordProbes(host: Host, ctx: GLContext, first: string, two: bool, info: RendererInfo,
                      config: Configurations, ghost start: Record, ghost done: seq<Entry>)
    modifies config
    requires config.subjects == ApplyAll(start, done)
    ensures config.subjects == ApplyAll(start, done + ProbeEntries(host, ctx, first, two, info))
  {
    ghost var written := done;
    AddNext(config, Entry("params", "UNMASKED_VENDOR", info.vendor), start, written);
    written := written + [Entry("params", "UNMASKED_VENDOR", info.vendor)];
    AddNext(config, Entry("params", "UNMASKED_RENDERER", info.renderer), start, written);
    written := written + [Entry("params", "UNMASKED_RENDERER", info.renderer)];
    var angle := Str(GetAngle(ctx, host.platform));
    AddNext(config, Entry("params", "ANGLE", angle), start, written);
    written := written + [Entry("params", "ANGLE", angle)];
    var anisotropy := GetAnisotropy(ctx);
    AddNext(config, Entry("params", "MAX_ANISOTROPY", anisotropy), start, written);
    written := written + [Entry("params", "MAX_ANISOTROPY", anisotropy)];
    var caveat := Str(MajorPerformanceCaveat(CaveatOutcome(host, first)));
    AddNext(config, Entry("params", "MAJOR_PERFORMANCE_CAVEAT", caveat), start, written);
    written := written + [Entry("params", "MAJOR_PERFORMANCE_CAVEAT", caveat)];
    if !two {
      var drawBuffers := MaxDrawBuffers(ctx);
      AddNext(config, Entry("params", "MAX_DRAW_BUFFERS", drawBuffers), start, written);
      written := written + [Entry("params", "MAX_DRAW_BUFFERS", drawBuffers)];
    }
    var precision := Str(FloatIntPrecision(ctx));
    AddNext(config, Entry("params", "FLOAT_INT_PRECISION", precision), start, written);
    ProbeEntriesSpelled(done, host, ctx, first, two, info);
  }

  /** The last three adds; the extension list is asked for twice, once per field. */
  method RecordExtensions(ctx: GLContext, pt: int -> string, config: Configurations, ghost start: Record, ghost done: seq<Entry>)
    returns (threw: bool)
    modifies config
    requires config.subjects == ApplyAll(start, done)
    ensures threw <==> ExtensionsOf(ctx.supportedExtensions).ListingThrew?
    ensures threw ==> config.subjects == old(config.subjects)
    ensures !threw ==> config.subjects
                       == ApplyAll(start, done + ExtensionEntries(ExtensionsOf(ctx.supportedExtensions), ctx, pt))
  {
    var listed := GetWebglExtensions(ctx.supportedExtensions);
    if listed.ListingThrew? {
      return true;
    }
    var webgl := Entry("params", "SUPPORTED_WEBGl_EXTENSIONS", WebglField(listed));
    AddNext(config, webgl, start, done);
    var listedAgain := GetWebglExtensions(ctx.supportedExtensions);
    var privileged := Entry("params", "SUPPORTED_PRIVILEGED_EXTENSIONS", PrivilegedField(listedAgain));
    AddNext(config, privileged, start, done + [webgl]);
    var best := Entry("params", "BEST_FLOAT_PRECISION", DescribePrecision(ctx, VertexShader, pt));
    AddNext(config, best, start, done + [webgl] + [privileged]);
    ExtensionEntriesSpelled(done, listed, ctx, pt);
    return false;
  }

  lemma HeadSpelled(host: Host, d: Detected, two: bool)
    ensures HeadEntries(host, d, two)
            == if host.webGL2Constructor && two
               then [ImplementationsEntry(Some(d))] + [VersionEntry(two)] + FunctionEntries(WebGl2Functions)
               else [ImplementationsEntry(Some(d))] + [VersionEntry(two)]
  {
  }

  /** `RenderPlan` path by path, once a context is detected. */
  lemma PlanPaths(host: Host, pt: int -> string, d: Detected)
    requires Detection(host) == Some(d)
    ensures d.name != []
    ensures var first := d.name[0];
            var two := EndsInTwo(first);
            var ctx := d.gl;
            var head := HeadEntries(host, d, two);
            var measured := head + ParamEntries(ctx, ParamNames(two))
                            + [Entry("params", "ANTIALIASING", Str(AntialiasingString(ctx)))];
            var info := GetRendererInfo(ctx);
            var listed := ExtensionsOf(ctx.supportedExtensions);
            && (Blocked(first, ctx) ==> RenderPlan(host, pt) == Plan([ImplementationsEntry(Some(d))], ReturnedFalse))
            && (!Blocked(first, ctx) && ctx.getParameterType != "function" ==> RenderPlan(host, pt) == Plan(head, Threw))
            && (!Blocked(first, ctx) && ctx.getParameterType == "function" && info.None? ==>
                  RenderPlan(host, pt) == Plan(measured, Threw))
            && (!Blocked(first, ctx) && ctx.getParameterType == "function" && info.Some? ==>
                  var probed := measured + ProbeEntries(host, ctx, first, two, info.value);
                  RenderPlan(host, pt)
                  == if listed.ListingThrew? then Plan(probed, Threw)
                     else Plan(probed + ExtensionEntries(listed, ctx, pt), Finished))
  {
  }

  /** `render()` on the record `config`; `destroy_webgl` of the context at the end is left out. */
  method Render(host: Host, pt: int -> string, config: Configurations) returns (outcome: Outcome)
    modifies config
    ensures config.subjects == ApplyAll(old(config.subjects), RenderPlan(host, pt).entries)
    ensures outcome == RenderPlan(host, pt).outcome
  {
    ghost var start := config.subjects;
    var webglImpl, released := WebglDetect(host);
    assert webglImpl == Detection(host);
    var implementations := ImplementationsEntry(webglImpl);
    AddNext(config, implementations, start, []);
    assert [] + [implementations] == [implementations];
    if webglImpl.None? {
      if host.webGL2Constructor {
        return Threw;
      }
      return Finished;
    }
    var d := webglImpl.value;
    PlanPaths(host, pt, d);
    var ctx := d.gl;
    var first := d.name[0];
    var two := EndsInTwo(first);
    if !two {
      if first == "fake-webgl" || (ctx.getParameterType != "function" && ctx.getParameterType != "object") {
        return ReturnedFalse;
      }
    }
    AddNext(config, VersionEntry(two), start, [implementations]);
    ghost var head := [ImplementationsEntry(Some(d))] + [VersionEntry(two)];
    assert [implementations] + [VersionEntry(two)] == head;
    if host.webGL2Constructor && two {
      RecordFunctions(ctx, WebGl2Functions, config, start, head);
      head := head + FunctionEntries(WebGl2Functions);
    }
    HeadSpelled(host, d, two);
    if ctx.getParameterType != "function" {
      return Threw;
    }

    var params := WebGl1Params;
    if two {
      params := params + WebGl2Params;
    }
    assert params == ParamNames(two);
    RecordParams(ctx, params, config, start, head);
    var antialiasing := Entry("params", "ANTIALIASING", Str(AntialiasingString(ctx)));
    AddNext(config, antialiasing, start, head + ParamEntries(ctx, params));
    ghost var measured := head + ParamEntries(ctx, params) + [antialiasing];

    var rendererInfo := GetRendererInfo(ctx);
    if rendererInfo.None? {
      return Threw;
    }
    RecordProbes(host, ctx, first, two, rendererInfo.value, config, start, measured);
    ghost var probed := measured + ProbeEntries(host, ctx, first, two, rendererInfo.value);

    var threw := RecordExtensions(ctx, pt, config, start, probed);
    if threw {
      return Threw;
    }
    return Finished;
  }
}
