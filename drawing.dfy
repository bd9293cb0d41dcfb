/**
  The drawing canvas of both source files: a 256 by 128 canvas whose context
  is the first of five aliases, tried with `||`, that does not give null.
 */
module Drawing {
  import opened Host
  import opened Pixels

  /** The canvas element, by its size. */
  datatype Canvas = Canvas(width: nat, height: nat)

  const DrawingCanvas: Canvas := Canvas(Width, Height)

  /** The aliases of the `||` chain; `"fake-webgl"` is not among them. */
  const DrawAliases: seq<string> := ["webgl2", "experimental-webgl2", "webgl", "experimental-webgl", "moz-webgl"]

  /**
    `getContext(a0) || getContext(a1) || ...`: a null answer moves on to the
    next alias, a context ends the chain, and a throwing call ends it with the
    exception.
   */
  function ChainFrom(host: Host, aliases: seq<string>): Acquisition<DrawContext>
    decreases |aliases|
  {
    if aliases == [] then NoContext
    else match DrawOutcome(host, aliases[0])
      case NoContext => ChainFrom(host, aliases[1..])
      case other => other
  }

  function DrawChain(host: Host): Acquisition<DrawContext> {
    ChainFrom(host, DrawAliases)
  }

  /** The chain gives null exactly when every alias gives null. */
  lemma {:induction false} ChainNull(host: Host, aliases: seq<string>)
    ensures ChainFrom(host, aliases).NoContext? <==> forall i :: 0 <= i < |aliases| ==> DrawOutcome(host, aliases[i]).NoContext?
    decreases |aliases|
  {
    if aliases != [] {
      ChainNull(host, aliases[1..]);
      assert forall i :: 1 <= i < |aliases| ==> aliases[i] == aliases[1..][i - 1];
    }
  }

  /** Otherwise it is the answer of the first alias that does not give null. */
  lemma {:induction false} ChainFirst(host: Host, aliases: seq<string>)
    ensures !ChainFrom(host, aliases).NoContext? ==>
              exists i :: 0 <= i < |aliases| && ChainFrom(host, aliases) == DrawOutcome(host, aliases[i])
                          && forall j :: 0 <= j < i ==> DrawOutcome(host, aliases[j]).NoContext?
    decreases |aliases|
  {
    if aliases != [] && !ChainFrom(host, aliases).NoContext? {
      if DrawOutcome(host, aliases[0]).NoContext? {
        ChainFirst(host, aliases[1..]);
        var i :| 0 <= i < |aliases[1..]| && ChainFrom(host, aliases[1..]) == DrawOutcome(host, aliases[1..][i])
                 && forall j :: 0 <= j < i ==> DrawOutcome(host, aliases[1..][j]).NoContext?;
        assert forall j :: 1 <= j < i + 1 ==> aliases[j] == aliases[1..][j - 1];
        assert 0 <= i + 1 < |aliases| && ChainFrom(host, aliases) == DrawOutcome(host, aliases[i + 1]);
      } else {
        assert ChainFrom(host, aliases) == DrawOutcome(host, aliases[0]);
      }
    }
  }
}
