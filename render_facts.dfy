/**
  What `render()` leaves in the configuration record: which `add` calls its
  plan makes, in which order, with which values, and how the run ends.
 */
module RenderFacts {
  import opened JsValues
  import opened Capabilities
  import opened Host
  import opened Detect
  import opened Probes
  import opened Extensions
  import opened Render

  // ------------------------------------------------------------ pieces of the plan

  predicate AllFor(entries: seq<Entry>, subject: string) {
    forall i :: 0 <= i < |entries| ==> entries[i].subject == subject
  }

  function KeysIn(entries: seq<Entry>): (r: seq<string>)
    ensures |r| == |entries|
  {
    seq(|entries|, i requires 0 <= i < |entries| => entries[i].key)
  }

  lemma KeysInAppend(a: seq<Entry>, b: seq<Entry>)
    ensures KeysIn(a + b) == KeysIn(a) + KeysIn(b)
    ensures AllFor(a, "params") && AllFor(b, "params") ==> AllFor(a + b, "params")
  {
  }

  /** A run of adds to one subject writes its keys, in order, and nothing under any other subject. */
  lemma {:induction false} UniformWrites(entries: seq<Entry>, subject: string, other: string, k: string)
    requires AllFor(entries, subject)
    ensures KeysWritten(entries, subject) == KeysIn(entries)
    ensures other != subject ==> KeysWritten(entries, other) == [] && LastWrite(entries, other, k).None?
    decreases |entries|
  {
    if entries != [] {
      var init := entries[..|entries| - 1];
      UniformWrites(init, subject, other, k);
      assert KeysIn(entries) == KeysIn(init) + [entries[|entries| - 1].key];
    }
  }

  lemma {:induction false} FunctionEntriesWrites(names: seq<string>, s: string, k: string)
    ensures KeysWritten(FunctionEntries(names), s) == if s == "functions" then names else []
    ensures LastWrite(FunctionEntries(names), s, k) == if s == "functions" && k in names then Some(Bool(true)) else None
    decreases |names|
  {
    if names != [] {
      var init := names[..|names| - 1];
      FunctionEntriesWrites(init, s, k);
      assert names == init + [names[|names| - 1]];
    }
  }

  lemma ParamEntriesWrites(ctx: GLContext, names: seq<string>, s: string, k: string)
    ensures KeysWritten(ParamEntries(ctx, names), s) == if s == "params" then names else []
    ensures LastWrite(ParamEntries(ctx, names), s, k)
            == if s == "params" && k in names then Some(NormaliseParam(Param(ctx, k))) else None
  {
    ParamEntriesKeys(ctx, names, s);
    ParamEntriesLastWrite(ctx, names, s, k);
  }

  lemma ParamEntriesKeys(ctx: GLContext, names: seq<string>, s: string)
    ensures KeysWritten(ParamEntries(ctx, names), s) == if s == "params" then names else []
  {
    var entries := ParamEntries(ctx, names);
    ParamEntriesForParams(ctx, names);
    UniformWrites(entries, "params", s, "");
    forall i | 0 <= i < |names| ensures KeysIn(entries)[i] == names[i] {
      ParamEntryAt(ctx, names, i);
    }
  }

  lemma {:induction false} ParamEntriesLastWrite(ctx: GLContext, names: seq<string>, s: string, k: string)
    ensures LastWrite(ParamEntries(ctx, names), s, k)
            == if s == "params" && k in names then Some(NormaliseParam(Param(ctx, k))) else None
    decreases |names|
  {
    if names != [] {
      var init := names[..|names| - 1];
      var last := names[|names| - 1];
      var entries := ParamEntries(ctx, names);
      ParamEntriesLastWrite(ctx, init, s, k);
      assert entries[..|entries| - 1] == ParamEntries(ctx, init);
      assert entries[|entries| - 1] == Entry("params", last, NormaliseParam(Param(ctx, last)));
      assert k in names <==> k in init || k == last by {
        assert names == init + [last];
      }
    }
  }

  /** The keys `render()` adds to `params` after the parameter list, in order. */
  function ProbeKeys(two: bool): seq<string> {
    ["ANTIALIASING", "UNMASKED_VENDOR", "UNMASKED_RENDERER", "ANGLE", "MAX_ANISOTROPY", "MAJOR_PERFORMANCE_CAVEAT"]
    + (if two then [] else ["MAX_DRAW_BUFFERS"])
    + ["FLOAT_INT_PRECISION"]
  }

  const ExtensionKeys: seq<string> :=
    ["SUPPORTED_WEBGl_EXTENSIONS", "SUPPORTED_PRIVILEGED_EXTENSIONS", "BEST_FLOAT_PRECISION"]

  lemma ProbeEntriesShape(host: Host, ctx: GLContext, first: string, two: bool, info: RendererInfo)
    ensures var tail := [Entry("params", "ANTIALIASING", Str(AntialiasingString(ctx)))]
                        + ProbeEntries(host, ctx, first, two, info);
            AllFor(tail, "params") && KeysIn(tail) == ProbeKeys(two)
  {
  }

  lemma ExtensionEntriesShape(r: ExtensionsResult, ctx: GLContext, pt: int -> string)
    ensures AllFor(ExtensionEntries(r, ctx, pt), "params")
    ensures KeysIn(ExtensionEntries(r, ctx, pt)) == ExtensionKeys
  {
  }

  /** None of the keys added after the parameter loop is a parameter of the version's list. */
  lemma ProbeKeysAreNotParams(two: bool, k: string)
    requires k in ParamNames(two)
    ensures k !in ProbeKeys(two) && k !in ExtensionKeys
  {
    if k in WebGl1Params {
      NotAfterWebGl1(k);
    } else {
      NotAfterWebGl2(k);
    }
  }

  lemma NotAfterWebGl1(k: string)
    requires k in WebGl1Params
    ensures k !in ProbeKeys(false) + ExtensionKeys
  {
  }

  lemma NotAfterWebGl2(k: string)
    requires k in WebGl2Params
    ensures k !in ProbeKeys(true) + ExtensionKeys
  {
  }

  /** No key is added to `params` twice after the parameter loop. */
  lemma ProbeKeysDistinct(two: bool)
    ensures Distinct(ProbeKeys(two) + ExtensionKeys)
  {
  }

  // ------------------------------------------------------------ the record of a plan

  /**
    The params loop is reached: a context was detected, version selection did
    not stop, and `getParameter` can be called.
   */
  predicate ReachesParams(host: Host) {
    match Detection(host)
    case None => false
    case Some(d) => !Blocked(d.name[0], d.gl) && d.gl.getParameterType == "function"
  }

  /** Whether `render()` runs the functions loop. */
  predicate ProbesFunctions(host: Host) {
    host.webGL2Constructor && (Succeeds(host, "webgl2") || Succeeds(host, "experimental-webgl2"))
  }

  /** Version 2 is chosen exactly when one of the two WebGL 2 aliases gives a context. */
  lemma VersionTwo(host: Host)
    requires Detection(host).Some?
    ensures EndsInTwo(Detection(host).value.name[0]) <==> Succeeds(host, "webgl2") || Succeeds(host, "experimental-webgl2")
  {
    FirstEndsInTwo(host);
  }

  /** The adds of `render()` after the params loop, up to the first that throws. */
  function PlanTail(host: Host, d: Detected, pt: int -> string): seq<Entry>
    requires d.name != []
  {
    var ctx := d.gl;
    var aa := [Entry("params", "ANTIALIASING", Str(AntialiasingString(ctx)))];
    match GetRendererInfo(ctx)
    case None => aa
    case Some(info) =>
      var probed := aa + ProbeEntries(host, ctx, d.name[0], EndsInTwo(d.name[0]), info);
      var listed := ExtensionsOf(ctx.supportedExtensions);
      if listed.ListingThrew? then probed else probed + ExtensionEntries(listed, ctx, pt)
  }

  /** The tail adds only to `params`, the probe keys and then the extension keys, all of them on a finished run. */
  lemma PlanTailShape(host: Host, d: Detected, pt: int -> string)
    requires d.name != []
    ensures AllFor(PlanTail(host, d, pt), "params")
    ensures var two := EndsInTwo(d.name[0]);
            KeysIn(PlanTail(host, d, pt)) <= ProbeKeys(two) + ExtensionKeys
    ensures var two := EndsInTwo(d.name[0]);
            GetRendererInfo(d.gl).Some? && !ExtensionsOf(d.gl.supportedExtensions).ListingThrew?
            ==> KeysIn(PlanTail(host, d, pt)) == ProbeKeys(two) + ExtensionKeys
  {
    var ctx := d.gl;
    var two := EndsInTwo(d.name[0]);
    var aa := [Entry("params", "ANTIALIASING", Str(AntialiasingString(ctx)))];
    match GetRendererInfo(ctx)
    case None =>
      assert KeysIn(aa) == ["ANTIALIASING"];
    case Some(info) =>
      var probes := ProbeEntries(host, ctx, d.name[0], two, info);
      ProbeEntriesShape(host, ctx, d.name[0], two, info);
      var listed := ExtensionsOf(ctx.supportedExtensions);
      if !listed.ListingThrew? {
        var ext := ExtensionEntries(listed, ctx, pt);
        ExtensionEntriesShape(listed, ctx, pt);
        KeysInAppend(aa + probes, ext);
      }
  }

  lemma Regroup(a: seq<Entry>, b: seq<Entry>, c: seq<Entry>, x: seq<Entry>, y: seq<Entry>)
    ensures a + b + c + x == a + b + (c + x)
    ensures a + b + c + x + y == a + b + (c + x + y)
  {
  }

  /** A plan that reaches the params loop is the head, the params loop and the tail. */
  lemma ReachedWrites(host: Host, pt: int -> string)
    requires ReachesParams(host)
    ensures var d := Detection(host).value;
            var two := EndsInTwo(d.name[0]);
            RenderPlan(host, pt).entries == HeadEntries(host, d, two) + ParamEntries(d.gl, ParamNames(two)) + PlanTail(host, d, pt)
    ensures var d := Detection(host).value;
            RenderPlan(host, pt).outcome == Finished
            <==> GetRendererInfo(d.gl).Some? && !ExtensionsOf(d.gl.supportedExtensions).ListingThrew?
  {
    var d := Detection(host).value;
    var two := EndsInTwo(d.name[0]);
    var ctx := d.gl;
    var head := HeadEntries(host, d, two);
    var params := ParamEntries(ctx, ParamNames(two));
    var aa := [Entry("params", "ANTIALIASING", Str(AntialiasingString(ctx)))];
    match GetRendererInfo(ctx)
    case None =>
    case Some(info) =>
      var probes := ProbeEntries(host, ctx, d.name[0], two, info);
      var listed := ExtensionsOf(ctx.supportedExtensions);
      Regroup(head, params, aa, probes, ExtensionEntries(listed, ctx, pt));
  }

  lemma ParamEntriesForParams(ctx: GLContext, names: seq<string>)
    ensures AllFor(ParamEntries(ctx, names), "params")
  {
    forall i | 0 <= i < |names|
      ensures ParamEntries(ctx, names)[i].subject == "params"
    {
      ParamEntryAt(ctx, names, i);
    }
  }

  lemma {:induction false} ParamEntryAt(ctx: GLContext, names: seq<string>, i: nat)
    requires i < |names|
    ensures ParamEntries(ctx, names)[i] == Entry("params", names[i], NormaliseParam(Param(ctx, names[i])))
    decreases |names|
  {
    if i < |names| - 1 {
      var init := names[..|names| - 1];
      ParamEntryAt(ctx, init, i);
    }
  }

  /** A plan that stops at `getParameter` is its head. */
  lemma UnreachedPlan(host: Host, pt: int -> string)
    requires Detection(host).Some?
    requires !Blocked(Detection(host).value.name[0], Detection(host).value.gl)
    requires !ReachesParams(host)
    ensures var d := Detection(host).value;
            RenderPlan(host, pt).entries == HeadEntries(host, d, EndsInTwo(d.name[0]))
  {
  }

  /** The params loop and the tail add to `params` only. */
  lemma BodyForParams(host: Host, d: Detected, pt: int -> string)
    requires d.name != []
    ensures AllFor(ParamEntries(d.gl, ParamNames(EndsInTwo(d.name[0]))) + PlanTail(host, d, pt), "params")
  {
    PlanTailShape(host, d, pt);
    ParamEntriesForParams(d.gl, ParamNames(EndsInTwo(d.name[0])));
    KeysInAppend(ParamEntries(d.gl, ParamNames(EndsInTwo(d.name[0]))), PlanTail(host, d, pt));
  }

  lemma RegroupBody(a: seq<Entry>, b: seq<Entry>, c: seq<Entry>)
    ensures a + b + c == a + (b + c)
  {
  }

  /** Past version selection, a plan is its head followed by adds to `params` only. */
  lemma PlanShape(host: Host, pt: int -> string) returns (body: seq<Entry>)
    requires Detection(host).Some?
    requires !Blocked(Detection(host).value.name[0], Detection(host).value.gl)
    ensures var d := Detection(host).value;
            RenderPlan(host, pt).entries == HeadEntries(host, d, EndsInTwo(d.name[0])) + body
    ensures AllFor(body, "params")
    ensures var d := Detection(host).value;
            ReachesParams(host) ==> body == ParamEntries(d.gl, ParamNames(EndsInTwo(d.name[0]))) + PlanTail(host, d, pt)
    ensures !ReachesParams(host) ==> body == []
  {
    var d := Detection(host).value;
    var two := EndsInTwo(d.name[0]);
    if ReachesParams(host) {
      ReachedWrites(host, pt);
      body := ParamEntries(d.gl, ParamNames(two)) + PlanTail(host, d, pt);
      RegroupBody(HeadEntries(host, d, two), ParamEntries(d.gl, ParamNames(two)), PlanTail(host, d, pt));
      BodyForParams(host, d, pt);
    } else {
      UnreachedPlan(host, pt);
      body := [];
      assert HeadEntries(host, d, two) + body == HeadEntries(host, d, two);
    }
  }

  /** The first two adds of the head: the implementations, then the version. */
  lemma PairWrites(d: Detected, two: bool, s: string, k: string)
    ensures var pair := [ImplementationsEntry(Some(d))] + [VersionEntry(two)];
            && KeysWritten(pair, s) == (if s == "info" then ["implementations", "WebGLVersion"] else [])
            && LastWrite(pair, s, k)
               == if s == "info" && k == "WebGLVersion" then Some(Num(if two then 2 else 1))
                  else if s == "info" && k == "implementations" then Some(Strings(d.name))
                  else None
  {
    var pair := [ImplementationsEntry(Some(d))] + [VersionEntry(two)];
    assert pair[..1] == [ImplementationsEntry(Some(d))];
    assert pair[..1][..0] == [];
    assert LastWrite(pair[..1], s, k) == if s == "info" && k == "implementations" then Some(Strings(d.name)) else None;
  }

  /** The head writes the two `info` keys and, when the functions loop runs, the function names. */
  lemma HeadKeys(host: Host, d: Detected, two: bool, s: string)
    ensures KeysWritten(HeadEntries(host, d, two), s)
            == if s == "info" then ["implementations", "WebGLVersion"]
               else if s == "functions" && host.webGL2Constructor && two then WebGl2Functions
               else []
  {
    var pair := [ImplementationsEntry(Some(d))] + [VersionEntry(two)];
    var fns := if host.webGL2Constructor && two then FunctionEntries(WebGl2Functions) else [];
    PairWrites(d, two, s, "");
    FunctionEntriesWrites(WebGl2Functions, s, "");
    KeysWrittenAppend(pair, fns, s);
  }

  /** The value the head writes last for a pair. */
  lemma HeadLastWrite(host: Host, d: Detected, two: bool, s: string, k: string)
    ensures LastWrite(HeadEntries(host, d, two), s, k)
            == if s == "functions" then (if host.webGL2Constructor && two && k in WebGl2Functions then Some(Bool(true)) else None)
               else if s == "info" && k == "WebGLVersion" then Some(Num(if two then 2 else 1))
               else if s == "info" && k == "implementations" then Some(Strings(d.name))
               else None
  {
    var pair := [ImplementationsEntry(Some(d))] + [VersionEntry(two)];
    var fns := if host.webGL2Constructor && two then FunctionEntries(WebGl2Functions) else [];
    PairWrites(d, two, s, k);
    FunctionEntriesWrites(WebGl2Functions, s, k);
    LastWriteAppend(pair, fns, s, k);
  }

  // ------------------------------------------------------------ what a run of render() records

  /**
    How `render()` ends. It returns `false` exactly when version selection
    stops; it throws when WebGL 2 exists but nothing was detected, when
    `getParameter` cannot be called, when the debug renderer extension is
    missing, and when the extension list is null.
   */
  lemma OutcomeCharacterised(host: Host, pt: int -> string)
    ensures var det := Detection(host);
            RenderPlan(host, pt).outcome == ReturnedFalse
            <==> det.Some? && Blocked(det.value.name[0], det.value.gl)
    ensures var det := Detection(host);
            RenderPlan(host, pt).outcome == Threw
            <==> (det.None? && host.webGL2Constructor)
                 || (det.Some? && !Blocked(det.value.name[0], det.value.gl)
                     && (det.value.gl.getParameterType != "function"
                         || !HasExtension(det.value.gl, DebugRendererInfo)
                         || det.value.gl.supportedExtensions.QueryNull?))
  {
    var det := Detection(host);
    if det.Some? && !Blocked(det.value.name[0], det.value.gl) && ReachesParams(host) {
      ReachedWrites(host, pt);
    }
  }

  /** A first alias of `"fake-webgl"` stops `render()` with `false` after recording the implementations only. */
  lemma FakeWebglAddsNoParams(host: Host, pt: int -> string)
    requires Detection(host).Some? && Detection(host).value.name[0] == "fake-webgl"
    ensures RenderPlan(host, pt) == Plan([Entry("info", "implementations", Strings(Detection(host).value.name))], ReturnedFalse)
    ensures KeysWritten(RenderPlan(host, pt).entries, "params") == []
  {
    assert !EndsInTwo("fake-webgl");
  }

  /**
    The `info` subject: the implementations are always recorded, undefined
    when nothing was detected; the version follows, once version selection
    passes, and is 2 exactly when one of the WebGL 2 aliases gives a context.
   */
  lemma InfoRecorded(host: Host, pt: int -> string)
    ensures var det := Detection(host);
            LastWrite(RenderPlan(host, pt).entries, "info", "implementations")
            == Some(if det.None? then Undefined else Strings(SupportedNames(host, Aliases)))
    ensures var det := Detection(host);
            var passes := det.Some? && !Blocked(det.value.name[0], det.value.gl);
            && KeysWritten(RenderPlan(host, pt).entries, "info")
               == ["implementations"] + (if passes then ["WebGLVersion"] else [])
            && LastWrite(RenderPlan(host, pt).entries, "info", "WebGLVersion")
               == if passes then Some(Num(if Succeeds(host, "webgl2") || Succeeds(host, "experimental-webgl2") then 2 else 1))
                  else None
  {
    var det := Detection(host);
    if det.Some? && !Blocked(det.value.name[0], det.value.gl) {
      var d := det.value;
      var two := EndsInTwo(d.name[0]);
      var body := PlanShape(host, pt);
      VersionTwo(host);
      HeadKeys(host, d, two, "info");
      HeadLastWrite(host, d, two, "info", "implementations");
      HeadLastWrite(host, d, two, "info", "WebGLVersion");
      HeadOnly(HeadEntries(host, d, two), body, "info", "implementations");
      HeadOnly(HeadEntries(host, d, two), body, "info", "WebGLVersion");
    }
  }

  /** Adds to `params` after the head leave every other subject as the head wrote it. */
  lemma HeadOnly(head: seq<Entry>, body: seq<Entry>, s: string, k: string)
    requires AllFor(body, "params") && s != "params"
    ensures KeysWritten(head + body, s) == KeysWritten(head, s)
    ensures LastWrite(head + body, s, k) == LastWrite(head, s, k)
  {
    UniformWrites(body, "params", s, k);
    KeysWrittenAppend(head, body, s);
    LastWriteAppend(head, body, s, k);
    assert KeysWritten(head, s) + [] == KeysWritten(head, s);
  }

  /**
    The `functions` subject: on WebGL 2 every name of the list is recorded as
    `true`, in list order; otherwise nothing is.
   */
  lemma FunctionsRecorded(host: Host, pt: int -> string, k: string)
    ensures KeysWritten(RenderPlan(host, pt).entries, "functions") == if ProbesFunctions(host) then WebGl2Functions else []
    ensures LastWrite(RenderPlan(host, pt).entries, "functions", k)
            == if ProbesFunctions(host) && k in WebGl2Functions then Some(Bool(true)) else None
  {
    var det := Detection(host);
    DetectionCharacterised(host);
    if det.Some? {
      var d := det.value;
      var two := EndsInTwo(d.name[0]);
      VersionTwo(host);
      if !Blocked(d.name[0], d.gl) {
        var body := PlanShape(host, pt);
        HeadKeys(host, d, two, "functions");
        HeadLastWrite(host, d, two, "functions", k);
        HeadOnly(HeadEntries(host, d, two), body, "functions", k);
      }
    } else {
      assert "webgl2" in Aliases;
    }
  }

  /**
    The `params` subject: nothing unless the params loop is reached; then the
    version's parameter list in order, each read and normalised, followed by
    the probe keys and, on a finished run, the extension keys.
   */
  lemma ParamsRecorded(host: Host, pt: int -> string, k: string)
    ensures !ReachesParams(host) ==> KeysWritten(RenderPlan(host, pt).entries, "params") == []
    ensures ReachesParams(host) ==>
              var d := Detection(host).value;
              var two := EndsInTwo(d.name[0]);
              var written := KeysWritten(RenderPlan(host, pt).entries, "params");
              && ParamNames(two) <= written
              && written <= ParamNames(two) + (ProbeKeys(two) + ExtensionKeys)
              && (RenderPlan(host, pt).outcome == Finished ==> written == ParamNames(two) + (ProbeKeys(two) + ExtensionKeys))
              && (k in ParamNames(two) ==>
                    LastWrite(RenderPlan(host, pt).entries, "params", k) == Some(NormaliseParam(Param(d.gl, k))))
  {
    if ReachesParams(host) {
      ParamsReached(host, pt, k);
    } else {
      var det := Detection(host);
      if det.Some? && !Blocked(det.value.name[0], det.value.gl) {
        var d := det.value;
        var two := EndsInTwo(d.name[0]);
        var body := PlanShape(host, pt);
        HeadKeys(host, d, two, "params");
        KeysWrittenAppend(HeadEntries(host, d, two), body, "params");
      }
    }
  }

  /** `ParamsRecorded` once the params loop is reached. */
  lemma ParamsReached(host: Host, pt: int -> string, k: string)
    requires ReachesParams(host)
    ensures var d := Detection(host).value;
            var two := EndsInTwo(d.name[0]);
            var written := KeysWritten(RenderPlan(host, pt).entries, "params");
            && ParamNames(two) <= written
            && written <= ParamNames(two) + (ProbeKeys(two) + ExtensionKeys)
            && (RenderPlan(host, pt).outcome == Finished ==> written == ParamNames(two) + (ProbeKeys(two) + ExtensionKeys))
            && (k in ParamNames(two) ==>
                  LastWrite(RenderPlan(host, pt).entries, "params", k) == Some(NormaliseParam(Param(d.gl, k))))
  {
    var d := Detection(host).value;
    var two := EndsInTwo(d.name[0]);
    var head := HeadEntries(host, d, two);
    var params := ParamEntries(d.gl, ParamNames(two));
    var tail := PlanTail(host, d, pt);
    ReachedWrites(host, pt);
    PlanTailShape(host, d, pt);
    HeadKeys(host, d, two, "params");
    ParamEntriesWrites(d.gl, ParamNames(two), "params", k);
    if k in ParamNames(two) {
      ProbeKeysAreNotParams(two, k);
    }
    ParamsAround(RenderPlan(host, pt).entries, head, params, tail, ParamNames(two), ProbeKeys(two) + ExtensionKeys,
                 k, Some(NormaliseParam(Param(d.gl, k))), RenderPlan(host, pt).outcome == Finished);
  }

  /** The `params` writes of a head, a run writing `names` and a tail, with the plan itself out of sight. */
  lemma ParamsAround(entries: seq<Entry>, head: seq<Entry>, run: seq<Entry>, tail: seq<Entry>,
                     names: seq<string>, extra: seq<string>, k: string, v: Option<Value>, finished: bool)
    requires entries == head + run + tail
    requires KeysWritten(head, "params") == [] && KeysWritten(run, "params") == names
    requires AllFor(tail, "params") && KeysIn(tail) <= extra
    requires finished ==> KeysIn(tail) == extra
    requires k in names ==> LastWrite(run, "params", k) == v && k !in extra
    ensures names <= KeysWritten(entries, "params") <= names + extra
    ensures finished ==> KeysWritten(entries, "params") == names + extra
    ensures k in names ==> LastWrite(entries, "params", k) == v
  {
    RegroupBody(head, run, tail);
    WrittenAround(head, run, tail, names, extra);
    if k in names {
      LastWriteKeys(run, "params", k);
      LastWriteAround(head, run, tail, k, extra);
    }
  }

  /** The keys written around a run that writes `names`, followed by a tail of `params` adds whose keys start `extra`. */
  lemma WrittenAround(head: seq<Entry>, run: seq<Entry>, tail: seq<Entry>, names: seq<string>, extra: seq<string>)
    requires KeysWritten(head, "params") == []
    requires KeysWritten(run, "params") == names
    requires AllFor(tail, "params") && KeysIn(tail) <= extra
    ensures names <= KeysWritten(head + (run + tail), "params") <= names + extra
    ensures KeysIn(tail) == extra ==> KeysWritten(head + (run + tail), "params") == names + extra
  {
    UniformWrites(tail, "params", "info", "");
    KeysWrittenAppend(run, tail, "params");
    KeysWrittenAppend(head, run + tail, "params");
    assert [] + (names + KeysIn(tail)) == names + KeysIn(tail);
    PrefixAppend(names, KeysIn(tail), extra);
  }

  /** A key the run writes and the tail does not keeps the run's last value. */
  lemma LastWriteAround(head: seq<Entry>, run: seq<Entry>, tail: seq<Entry>, k: string, extra: seq<string>)
    requires LastWrite(run, "params", k).Some?
    requires AllFor(tail, "params") && KeysIn(tail) <= extra && k !in extra
    ensures LastWrite(head + (run + tail), "params", k) == LastWrite(run, "params", k)
  {
    UniformWrites(tail, "params", "info", "");
    forall i | 0 <= i < |KeysIn(tail)|
      ensures KeysIn(tail)[i] != k
    {
      assert KeysIn(tail)[i] == extra[i];
    }
    LastWriteKeys(tail, "params", k);
    LastWriteAppend(run, tail, "params", k);
    LastWriteAppend(head, run + tail, "params", k);
  }

  lemma PrefixAppend(a: seq<string>, b: seq<string>, c: seq<string>)
    requires b <= c
    ensures a <= a + b && a + b <= a + c
  {
    assert (a + c)[..|a + b|] == a + b;
  }

  /** In a `params` tail whose keys are distinct, the entry at `m` is its key's last write, whatever comes before. */
  lemma TailLastWrite(head: seq<Entry>, tail: seq<Entry>, keys: seq<string>, m: nat)
    requires AllFor(tail, "params") && KeysIn(tail) <= keys && Distinct(keys) && m < |tail|
    ensures LastWrite(head + tail, "params", keys[m]) == Some(tail[m].value)
  {
    var entries := head + tail;
    var i := |head| + m;
    assert entries[i] == tail[m];
    assert KeysIn(tail)[m] == keys[m];
    forall j | i < j < |entries|
      ensures entries[j].key != entries[i].key
    {
      assert entries[j] == tail[j - |head|];
      assert KeysIn(tail)[j - |head|] == keys[j - |head|];
    }
    LastWriteUnrepeated(entries, i);
  }

  /**
    The probes after the params loop. Antialiasing is always recorded; with the
    debug extension, so are the unmasked vendor and renderer, ANGLE, the
    anisotropy, the performance caveat and the precision, and
    `MAX_DRAW_BUFFERS`: on WebGL 1 from `WEBGL_draw_buffers` or 0 without it,
    on WebGL 2 the normalised parameter of the list.
   */
  lemma ProbesRecorded(host: Host, pt: int -> string)
    requires ReachesParams(host)
    ensures var ctx := Detection(host).value.gl;
            LastWrite(RenderPlan(host, pt).entries, "params", "ANTIALIASING") == Some(Str(AntialiasingString(ctx)))
    ensures var d := Detection(host).value;
            var ctx := d.gl;
            var entries := RenderPlan(host, pt).entries;
            HasExtension(ctx, DebugRendererInfo) ==>
              && LastWrite(entries, "params", "UNMASKED_VENDOR") == Some(Param(ctx, "UNMASKED_VENDOR_WEBGL"))
              && LastWrite(entries, "params", "UNMASKED_RENDERER") == Some(Param(ctx, "UNMASKED_RENDERER_WEBGL"))
              && LastWrite(entries, "params", "ANGLE") == Some(Str(GetAngle(ctx, host.platform)))
              && LastWrite(entries, "params", "MAX_ANISOTROPY") == Some(GetAnisotropy(ctx))
              && LastWrite(entries, "params", "MAJOR_PERFORMANCE_CAVEAT")
                 == Some(Str(MajorPerformanceCaveat(CaveatOutcome(host, d.name[0]))))
              && LastWrite(entries, "params", "FLOAT_INT_PRECISION") == Some(Str(FloatIntPrecision(ctx)))
              && LastWrite(entries, "params", "MAX_DRAW_BUFFERS")
                 == Some(if EndsInTwo(d.name[0]) then NormaliseParam(Param(ctx, "MAX_DRAW_BUFFERS"))
                         else if HasExtension(ctx, "WEBGL_draw_buffers") then Param(ctx, "MAX_DRAW_BUFFERS_WEBGL")
                         else Num(0))
  {
    var d := Detection(host).value;
    var two := EndsInTwo(d.name[0]);
    var ctx := d.gl;
    var head := HeadEntries(host, d, two) + ParamEntries(ctx, ParamNames(two));
    var tail := PlanTail(host, d, pt);
    ReachedWrites(host, pt);
    PlanTailShape(host, d, pt);
    ProbeKeysDistinct(two);
    TailLastWrite(head, tail, ProbeKeys(two) + ExtensionKeys, 0);
    if HasExtension(ctx, DebugRendererInfo) {
      var probed := TailStartsWithProbes(host, d, pt);
      ProbedWrites(head, tail, two, probed, Str(AntialiasingString(ctx)),
                   Param(ctx, "UNMASKED_VENDOR_WEBGL"), Param(ctx, "UNMASKED_RENDERER_WEBGL"),
                   Str(GetAngle(ctx, host.platform)), GetAnisotropy(ctx),
                   Str(MajorPerformanceCaveat(CaveatOutcome(host, d.name[0]))), MaxDrawBuffers(ctx),
                   Str(FloatIntPrecision(ctx)));
      if two {
        assert "MAX_DRAW_BUFFERS" in ParamNames(true);
        ParamsRecorded(host, pt, "MAX_DRAW_BUFFERS");
      }
    }
  }

  /** With the debug extension the tail starts with the antialiasing entry and the probes, spelled out. */
  lemma TailStartsWithProbes(host: Host, d: Detected, pt: int -> string) returns (probed: seq<Entry>)
    requires d.name != [] && HasExtension(d.gl, DebugRendererInfo)
    ensures var ctx := d.gl;
            probed == [ Entry("params", "ANTIALIASING", Str(AntialiasingString(ctx))),
                        Entry("params", "UNMASKED_VENDOR", Param(ctx, "UNMASKED_VENDOR_WEBGL")),
                        Entry("params", "UNMASKED_RENDERER", Param(ctx, "UNMASKED_RENDERER_WEBGL")),
                        Entry("params", "ANGLE", Str(GetAngle(ctx, host.platform))),
                        Entry("params", "MAX_ANISOTROPY", GetAnisotropy(ctx)),
                        Entry("params", "MAJOR_PERFORMANCE_CAVEAT", Str(MajorPerformanceCaveat(CaveatOutcome(host, d.name[0])))) ]
                      + (if EndsInTwo(d.name[0]) then [] else [Entry("params", "MAX_DRAW_BUFFERS", MaxDrawBuffers(ctx))])
                      + [Entry("params", "FLOAT_INT_PRECISION", Str(FloatIntPrecision(ctx)))]
    ensures probed <= PlanTail(host, d, pt)
  {
    var ctx := d.gl;
    var info := GetRendererInfo(ctx).value;
    probed := [Entry("params", "ANTIALIASING", Str(AntialiasingString(ctx)))]
              + ProbeEntries(host, ctx, d.name[0], EndsInTwo(d.name[0]), info);
  }

  /** The last writes of the probe keys, for a tail that starts with the probes, whatever comes before. */
  lemma ProbedWrites(head: seq<Entry>, tail: seq<Entry>, two: bool, probed: seq<Entry>,
                     aa: Value, vendor: Value, renderer: Value, angle: Value, anisotropy: Value, caveat: Value,
                     buffers: Value, precision: Value)
    requires probed == [ Entry("params", "ANTIALIASING", aa), Entry("params", "UNMASKED_VENDOR", vendor),
                         Entry("params", "UNMASKED_RENDERER", renderer), Entry("params", "ANGLE", angle),
                         Entry("params", "MAX_ANISOTROPY", anisotropy), Entry("params", "MAJOR_PERFORMANCE_CAVEAT", caveat) ]
                       + (if two then [] else [Entry("params", "MAX_DRAW_BUFFERS", buffers)])
                       + [Entry("params", "FLOAT_INT_PRECISION", precision)]
    requires AllFor(tail, "params") && KeysIn(tail) <= ProbeKeys(two) + ExtensionKeys && probed <= tail
    ensures LastWrite(head + tail, "params", "UNMASKED_VENDOR") == Some(vendor)
    ensures LastWrite(head + tail, "params", "UNMASKED_RENDERER") == Some(renderer)
    ensures LastWrite(head + tail, "params", "ANGLE") == Some(angle)
    ensures LastWrite(head + tail, "params", "MAX_ANISOTROPY") == Some(anisotropy)
    ensures LastWrite(head + tail, "params", "MAJOR_PERFORMANCE_CAVEAT") == Some(caveat)
    ensures LastWrite(head + tail, "params", "FLOAT_INT_PRECISION") == Some(precision)
    ensures !two ==> LastWrite(head + tail, "params", "MAX_DRAW_BUFFERS") == Some(buffers)
  {
    var keys := ProbeKeys(two) + ExtensionKeys;
    ProbeKeysDistinct(two);
    PrefixWrites(head, tail, probed, keys);
    assert keys[1] == "UNMASKED_VENDOR" && keys[2] == "UNMASKED_RENDERER" && keys[3] == "ANGLE";
    assert keys[4] == "MAX_ANISOTROPY" && keys[5] == "MAJOR_PERFORMANCE_CAVEAT";
    if two {
      assert keys[6] == "FLOAT_INT_PRECISION";
    } else {
      assert keys[6] == "MAX_DRAW_BUFFERS" && keys[7] == "FLOAT_INT_PRECISION";
    }
  }

  /** Each entry of a prefix of a `params` tail with distinct keys is its key's last write. */
  lemma PrefixWrites(head: seq<Entry>, tail: seq<Entry>, probed: seq<Entry>, keys: seq<string>)
    requires AllFor(tail, "params") && KeysIn(tail) <= keys && Distinct(keys) && probed <= tail
    ensures forall m :: 0 <= m < |probed| ==> LastWrite(head + tail, "params", keys[m]) == Some(probed[m].value)
  {
    forall m | 0 <= m < |probed|
      ensures LastWrite(head + tail, "params", keys[m]) == Some(probed[m].value)
    {
      assert tail[m] == probed[m];
      TailLastWrite(head, tail, keys, m);
    }
  }

  /** The keys of a finished run in the order of their first writes: the parameter list, then the probes. */
  lemma ParamsKeysOrder(two: bool)
    ensures Dedup(ParamNames(two) + (ProbeKeys(two) + ExtensionKeys)) == Dedup(ParamNames(two)) + (ProbeKeys(two) + ExtensionKeys)
  {
    ProbeKeysDistinct(two);
    forall key | key in ProbeKeys(two) + ExtensionKeys
      ensures key !in ParamNames(two)
    {
      if key in ParamNames(two) {
        ProbeKeysAreNotParams(two, key);
      }
    }
    DedupAppendDistinct(ParamNames(two), ProbeKeys(two) + ExtensionKeys);
  }

  /**
    The record after `render()` on a record `r`: the parameters read as
    normalised and the WebGL 2 functions as `true`; on a fresh record the keys
    stand in the order of their first writes.
   */
  lemma RecordAfterRender(host: Host, pt: int -> string, r: Record, k: string)
    ensures ReachesParams(host) && k in ParamNames(EndsInTwo(Detection(host).value.name[0])) ==>
              Lookup(ApplyAll(r, RenderPlan(host, pt).entries), "params", k)
              == Some(NormaliseParam(Param(Detection(host).value.gl, k)))
    ensures ProbesFunctions(host) && k in WebGl2Functions ==>
              Lookup(ApplyAll(r, RenderPlan(host, pt).entries), "functions", k) == Some(Bool(true))
    ensures KeysOf(ApplyAll([], RenderPlan(host, pt).entries), "functions")
            == Dedup(if ProbesFunctions(host) then WebGl2Functions else [])
    ensures ReachesParams(host) && RenderPlan(host, pt).outcome == Finished ==>
              var two := EndsInTwo(Detection(host).value.name[0]);
              KeysOf(ApplyAll([], RenderPlan(host, pt).entries), "params")
              == Dedup(ParamNames(two)) + (ProbeKeys(two) + ExtensionKeys)
  {
    var entries := RenderPlan(host, pt).entries;
    ParamsRecorded(host, pt, k);
    FunctionsRecorded(host, pt, k);
    ApplyAllLookup(r, entries, "params", k);
    ApplyAllLookup(r, entries, "functions", k);
    ApplyAllKeys(entries, "functions");
    ApplyAllKeys(entries, "params");
    if ReachesParams(host) {
      ParamsKeysOrder(EndsInTwo(Detection(host).value.name[0]));
    }
  }
}
