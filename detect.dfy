/**
  `webgl_detect()`: try the six context aliases in order, each on a fresh
  canvas; keep the first context obtained, release every later one, and list
  every alias that gave a context.
 */
module Detect {
  import opened JsValues
  import opened Host

  const Aliases: seq<string> :=
    ["webgl2", "experimental-webgl2", "webgl", "experimental-webgl", "moz-webgl", "fake-webgl"]

  /** `{ name: supported_implementations, gl: ctx }`. */
  datatype Detected = Detected(name: seq<string>, gl: GLContext)

  predicate Succeeds(host: Host, alias: string) {
    ProbeOutcome(host, alias).Acquired?
  }

  /** The aliases of `aliases` that give a context, in order. */
  function SupportedNames(host: Host, aliases: seq<string>): seq<string>
    decreases |aliases|
  {
    if aliases == [] then []
    else
      var last := aliases[|aliases| - 1];
      SupportedNames(host, aliases[..|aliases| - 1]) + (if Succeeds(host, last) then [last] else [])
  }

  /** The contexts those aliases give, in the same order. */
  function SupportedContexts(host: Host, aliases: seq<string>): (r: seq<GLContext>)
    ensures |r| == |SupportedNames(host, aliases)|
    decreases |aliases|
  {
    if aliases == [] then []
    else
      var last := aliases[|aliases| - 1];
      SupportedContexts(host, aliases[..|aliases| - 1])
        + (match ProbeOutcome(host, last) case Acquired(c) => [c] case _ => [])
  }

  /** The result of `webgl_detect()`, with `None` for `false`. */
  function Detection(host: Host): (r: Option<Detected>)
    ensures r.Some? ==> r.value.name != []
  {
    var names := SupportedNames(host, Aliases);
    if names == [] then None else Some(Detected(names, SupportedContexts(host, Aliases)[0]))
  }

  /**
    `webgl_detect()`. Besides the result it returns the contexts handed to
    `destroy_webgl`, in order.
   */
  method WebglDetect(host: Host) returns (result: Option<Detected>, released: seq<GLContext>)
    ensures result.None? <==> SupportedNames(host, Aliases) == []
    ensures result.Some? ==> result.value.name == SupportedNames(host, Aliases)
    ensures result.Some? ==> result.value.gl == SupportedContexts(host, Aliases)[0]
    ensures released == if result.None? then [] else SupportedContexts(host, Aliases)[1..]
  {
    var supported: seq<string> := [];
    var ctx: Option<GLContext> := None;
    released := [];
    var index := 0;
    while index < |Aliases|
      invariant 0 <= index <= |Aliases|
      invariant supported == SupportedNames(host, Aliases[..index])
      invariant |supported| == |SupportedContexts(host, Aliases[..index])|
      invariant ctx.None? <==> supported == []
      invariant ctx.Some? ==> ctx.value == SupportedContexts(host, Aliases[..index])[0]
      invariant released == if ctx.None? then [] else SupportedContexts(host, Aliases[..index])[1..]
    {
      assert Aliases[..index + 1][..index] == Aliases[..index];
      var implCtx := ProbeOutcome(host, Aliases[index]);
      match implCtx {
        case Throws =>
        case NoContext =>
        case Acquired(c) =>
          if ctx.Some? {
            released := released + [c];
          } else {
            ctx := Some(c);
          }
          supported := supported + [Aliases[index]];
      }
      index := index + 1;
    }
    assert Aliases[..|Aliases|] == Aliases;
    if ctx.Some? {
      result := Some(Detected(supported, ctx.value));
    } else {
      result := None;
    }
  }

  lemma {:induction false} NamesMatchContexts(host: Host, aliases: seq<string>)
    ensures |SupportedNames(host, aliases)| == |SupportedContexts(host, aliases)|
    ensures forall k :: 0 <= k < |SupportedNames(host, aliases)| ==>
              ProbeOutcome(host, SupportedNames(host, aliases)[k]) == Acquired(SupportedContexts(host, aliases)[k])
    decreases |aliases|
  {
    if aliases != [] {
      NamesMatchContexts(host, aliases[..|aliases| - 1]);
    }
  }

  /** The result is `false` exactly when no alias gives a context; otherwise `gl` is the context of the first listed alias. */
  lemma DetectionCharacterised(host: Host)
    ensures Detection(host).None? <==> forall a :: a in Aliases ==> !Succeeds(host, a)
    ensures Detection(host).Some? ==>
              Detection(host).value.name != [] &&
              ProbeOutcome(host, Detection(host).value.name[0]) == Acquired(Detection(host).value.gl)
  {
    NamesMatchContexts(host, Aliases);
    SupportedMembers(host, Aliases);
    var names := SupportedNames(host, Aliases);
    if names == [] {
      forall a | a in Aliases ensures !Succeeds(host, a) {
        assert a in names <==> a in Aliases && Succeeds(host, a);
      }
    } else {
      assert names[0] in Aliases && Succeeds(host, names[0]);
    }
  }

  /** An alias is listed exactly when it is one of the aliases and gives a context. */
  lemma {:induction false} SupportedMembers(host: Host, aliases: seq<string>)
    ensures forall a :: a in SupportedNames(host, aliases) <==> a in aliases && Succeeds(host, a)
    decreases |aliases|
  {
    if aliases != [] {
      SupportedMembers(host, aliases[..|aliases| - 1]);
      assert aliases == aliases[..|aliases| - 1] + [aliases[|aliases| - 1]];
    }
  }

  /** The listed aliases keep the order of `aliases`: listing a prefix lists a prefix. */
  lemma {:induction false} SupportedPrefix(host: Host, aliases: seq<string>, n: nat)
    requires n <= |aliases|
    ensures SupportedNames(host, aliases[..n]) <= SupportedNames(host, aliases)
    decreases |aliases|
  {
    if n == |aliases| {
      assert aliases[..n] == aliases;
    } else {
      var init := aliases[..|aliases| - 1];
      assert init[..n] == aliases[..n];
      SupportedPrefix(host, init, n);
      assert SupportedNames(host, init) <= SupportedNames(host, aliases);
    }
  }

  /** The host after changing what one alias does. */
  function WithOutcome(host: Host, alias: string, outcome: Acquisition<GLContext>): Host {
    host.(probe := host.probe[alias := outcome])
  }

  lemma OutcomeAfterChange(host: Host, alias: string, outcome: Acquisition<GLContext>, a: string)
    ensures ProbeOutcome(WithOutcome(host, alias, outcome), a) == if a == alias then outcome else ProbeOutcome(host, a)
  {
  }

  /** An alias whose acquisition throws is skipped exactly like one that returns null. */
  lemma {:induction false} ThrowingAliasSkipped(host: Host, alias: string, aliases: seq<string>)
    ensures SupportedNames(WithOutcome(host, alias, Throws), aliases) == SupportedNames(WithOutcome(host, alias, NoContext), aliases)
    ensures SupportedContexts(WithOutcome(host, alias, Throws), aliases) == SupportedContexts(WithOutcome(host, alias, NoContext), aliases)
    decreases |aliases|
  {
    if aliases != [] {
      var last := aliases[|aliases| - 1];
      ThrowingAliasSkipped(host, alias, aliases[..|aliases| - 1]);
      OutcomeAfterChange(host, alias, Throws, last);
      OutcomeAfterChange(host, alias, NoContext, last);
    }
  }

  /** The other aliases are still tried: the list is that of the aliases without the throwing one. */
  lemma {:induction false} ThrowingAliasOnlySkipsItself(host: Host, alias: string, aliases: seq<string>)
    ensures SupportedNames(WithOutcome(host, alias, Throws), aliases) == SupportedNames(host, Without(aliases, alias))
    decreases |aliases|
  {
    if aliases != [] {
      var init := aliases[..|aliases| - 1];
      var last := aliases[|aliases| - 1];
      ThrowingAliasOnlySkipsItself(host, alias, init);
      OutcomeAfterChange(host, alias, Throws, last);
      var w := Without(aliases, alias);
      if last != alias {
        assert w == Without(init, alias) + [last];
        assert w[..|w| - 1] == Without(init, alias);
      } else {
        assert w == Without(init, alias);
      }
    }
  }

  /** `aliases` with every occurrence of `alias` taken out. */
  function Without(aliases: seq<string>, alias: string): seq<string>
    decreases |aliases|
  {
    if aliases == [] then []
    else
      var last := aliases[|aliases| - 1];
      Without(aliases[..|aliases| - 1], alias) + (if last == alias then [] else [last])
  }

  /** Of the six aliases, exactly the first two end in "2". */
  lemma AliasEndsInTwo(a: string)
    requires a in Aliases
    ensures (|a| > 0 && a[|a| - 1] == '2') <==> a == "webgl2" || a == "experimental-webgl2"
  {
  }

  /** When a WebGL 2 alias gives a context, the first listed name is one of the two. */
  lemma FirstIsWebGl2(host: Host)
    requires Succeeds(host, "webgl2") || Succeeds(host, "experimental-webgl2")
    ensures SupportedNames(host, Aliases) != []
    ensures SupportedNames(host, Aliases)[0] == "webgl2" || SupportedNames(host, Aliases)[0] == "experimental-webgl2"
  {
    SupportedPrefix(host, Aliases, 2);
    assert Aliases[..2] == ["webgl2", "experimental-webgl2"];
    ghost var two := SupportedNames(host, Aliases[..2]);
    SupportedMembers(host, Aliases[..2]);
    assert two != [] by {
      if Succeeds(host, "webgl2") { assert "webgl2" in two; } else { assert "experimental-webgl2" in two; }
    }
    assert two[0] in Aliases[..2];
  }

  /** The record says version 2 exactly when one of the two aliases that end in "2" gives a context. */
  lemma FirstEndsInTwo(host: Host)
    requires Detection(host).Some?
    ensures var first := Detection(host).value.name[0];
            (|first| > 0 && first[|first| - 1] == '2')
            <==> (Succeeds(host, "webgl2") || Succeeds(host, "experimental-webgl2"))
  {
    var names := SupportedNames(host, Aliases);
    assert Detection(host).value.name == names;
    SupportedMembers(host, Aliases);
    assert names[0] in names;
    AliasEndsInTwo(names[0]);
    if Succeeds(host, "webgl2") || Succeeds(host, "experimental-webgl2") {
      FirstIsWebGl2(host);
    }
  }
}
