/**
  The browser as the fingerprinting core sees it. Everything the core asks of
  the page (canvas contexts, `getParameter`, extensions, precision formats,
  `readPixels`, `navigator`) is an answer recorded in these datatypes, and the
  JavaScript runtime's own black boxes (SHA-256, `JSON.stringify` of the
  record, the text of `Math.pow(2, e)`) are the functions of `Runtime`.
 */
module Host {
  import opened JsValues
  import Capabilities
  import Digest

  /** What `canvas.getContext(alias, options)` does. */
  datatype Acquisition<C> =
    | Throws           // the call throws
    | NoContext        // it returns null
    | Acquired(ctx: C) // it returns a context

  datatype ShaderType = VertexShader | FragmentShader

  datatype PrecisionType = HighFloat | MediumFloat | LowFloat | HighInt

  /** A `WebGLShaderPrecisionFormat`. */
  datatype Format = Format(rangeMin: int, rangeMax: int, precision: int)

  /** What `getSupportedExtensions()` does. */
  datatype ExtensionQuery =
    | QueryThrows
    | QueryUndefined
    | QueryNull
    | Names(names: seq<string>)

  /** A live context of the probing canvases. */
  datatype GLContext = GLContext(
    /** `typeof ctx.getParameter`. */
    getParameterType: string,
    /** `ctx.getParameter(ctx[NAME])` by NAME, and by the names of extension constants; a missing name reads as null. */
    parameters: map<string, Value>,
    /** The names `n` for which `ctx[n]` is truthy. */
    members: set<string>,
    /** The names `n` for which `ctx.getExtension(n)` returns an object. */
    extensions: set<string>,
    supportedExtensions: ExtensionQuery,
    /** `ctx.getContextAttributes().antialias`; `None` when the query throws. */
    antialias: Option<bool>,
    /** `ctx.getShaderPrecisionFormat(shader, type)`; a missing pair is a null answer. */
    precisionFormats: map<(ShaderType, PrecisionType), Format>
  )

  /** `getParameter(ctx[name])`. */
  function Param(ctx: GLContext, name: string): Value {
    if name in ctx.parameters then ctx.parameters[name] else Null
  }

  function HasExtension(ctx: GLContext, name: string): bool {
    name in ctx.extensions
  }

  /** What `readPixels` does on the drawing canvas. */
  datatype Readback = ReadThrows | Frame(bytes: seq<byte>)

  /** The context of the 256 by 128 drawing canvas. */
  datatype DrawContext = DrawContext(
    /** Whether some call of the buffer, shader, program and draw sequence throws. */
    drawThrows: bool,
    readback: Readback
  )

  /** What the second canvas of `get_major_performance_caveat` gives. */
  datatype CaveatProbe =
    | ProbeThrows
    | ProbeNoContext
    /** A context whose `getContextAttributes()` reports this `failIfMajorPerformanceCaveat`. */
    | ProbeAttributes(failIfMajorPerformanceCaveat: Value)
    /** A context whose `getContextAttributes()` is null. */
    | ProbeNoAttributes

  datatype Host = Host(
    /** `!!window.WebGL2RenderingContext`. */
    webGL2Constructor: bool,
    /** `navigator.platform`. */
    platform: string,
    /** `navigator.userAgent`. */
    userAgent: string,
    /** `getContext(alias, { stencil: true })` on a fresh canvas, by alias; a missing alias gives null. */
    probe: map<string, Acquisition<GLContext>>,
    /** `getContext(alias, { failIfMajorPerformanceCaveat: true })` on a fresh canvas, by alias. */
    caveat: map<string, CaveatProbe>,
    /** `getContext(alias)` on the drawing canvas, by alias; a missing alias gives null. */
    drawProbe: map<string, Acquisition<DrawContext>>
  )

  function ProbeOutcome(host: Host, alias: string): Acquisition<GLContext> {
    if alias in host.probe then host.probe[alias] else NoContext
  }

  function DrawOutcome(host: Host, alias: string): Acquisition<DrawContext> {
    if alias in host.drawProbe then host.drawProbe[alias] else NoContext
  }

  function CaveatOutcome(host: Host, alias: string): CaveatProbe {
    if alias in host.caveat then host.caveat[alias] else ProbeNoContext
  }

  datatype Runtime = Runtime(
    /** `crypto.subtle.digest('SHA-256', ·)`. */
    sha: Digest.Hasher,
    /** `JSON.stringify(GL_CONFIGURATIONS)`. */
    json: Capabilities.Record -> string,
    /** `"" + Math.pow(2, e)`. */
    powerOfTwoText: int -> string
  )
}
