/**
  `get_webgl_extensions(gl)`: split the names of `getSupportedExtensions()`
  into the ordinary ones and the two privileged debugging extensions, both in
  the order the context lists them.
 */
module Extensions {
  import opened Host

  predicate IsPrivileged(name: string) {
    name == "WEBGL_debug_renderer_info" || name == "WEBGL_debug_shaders"
  }

  /** The names that go to `webgl`, in order. */
  function Ordinary(names: seq<string>): seq<string>
    decreases |names|
  {
    if names == [] then []
    else
      var last := names[|names| - 1];
      Ordinary(names[..|names| - 1]) + (if IsPrivileged(last) then [] else [last])
  }

  /** The names that go to `privileged`, in order. */
  function Privileged(names: seq<string>): seq<string>
    decreases |names|
  {
    if names == [] then []
    else
      var last := names[|names| - 1];
      Privileged(names[..|names| - 1]) + (if IsPrivileged(last) then [last] else [])
  }

  /** What the call gives: it throws, it returns `false`, or it returns the two lists. */
  datatype ExtensionsResult =
    | ListingThrew
    | NotListed
    | Partitioned(webgl: seq<string>, privileged: seq<string>)

  /**
    A throwing query leaves the list empty, so it returns `false` like an
    undefined or empty list; a null list throws on `.length`.
   */
  function ExtensionsOf(query: ExtensionQuery): (r: ExtensionsResult)
    ensures r.ListingThrew? <==> query.QueryNull?
    ensures r.NotListed? <==> query.QueryThrows? || query.QueryUndefined? || query == Names([])
    ensures r.Partitioned? ==> query.Names? && r.webgl == Ordinary(query.names) && r.privileged == Privileged(query.names)
  {
    match query
    case QueryThrows => NotListed
    case QueryUndefined => NotListed
    case QueryNull => ListingThrew
    case Names(names) => if |names| == 0 then NotListed else Partitioned(Ordinary(names), Privileged(names))
  }

  /** The loop of `get_webgl_extensions` over a listed, non-empty answer. */
  method Partition(extensions: seq<string>) returns (webgl: seq<string>, privileged: seq<string>)
    ensures webgl == Ordinary(extensions)
    ensures privileged == Privileged(extensions)
  {
    webgl, privileged := [], [];
    var i := 0;
    while i < |extensions|
      invariant 0 <= i <= |extensions|
      invariant webgl == Ordinary(extensions[..i])
      invariant privileged == Privileged(extensions[..i])
    {
      assert extensions[..i + 1][..i] == extensions[..i];
      if "WEBGL_debug_renderer_info" != extensions[i] && "WEBGL_debug_shaders" != extensions[i] {
        webgl := webgl + [extensions[i]];
      } else {
        privileged := privileged + [extensions[i]];
      }
      i := i + 1;
    }
    assert extensions[..|extensions|] == extensions;
  }

  /** `get_webgl_extensions(gl)` on the context's answer. */
  method GetWebglExtensions(query: ExtensionQuery) returns (r: ExtensionsResult)
    ensures r == ExtensionsOf(query)
  {
    match query {
      case QueryThrows => r := NotListed;
      case QueryUndefined => r := NotListed;
      case QueryNull => r := ListingThrew;
      case Names(extensions) =>
        if |extensions| > 0 {
          var webgl, privileged := Partition(extensions);
          r := Partitioned(webgl, privileged);
        } else {
          r := NotListed;
        }
    }
  }

  /** Every name lands in exactly one list: the lengths add up and the two lists together are the input. */
  lemma {:induction false} PartitionComplete(names: seq<string>)
    ensures |Ordinary(names)| + |Privileged(names)| == |names|
    ensures multiset(Ordinary(names)) + multiset(Privileged(names)) == multiset(names)
    decreases |names|
  {
    if names != [] {
      var init := names[..|names| - 1];
      var last := names[|names| - 1];
      PartitionComplete(init);
      assert names == init + [last];
      assert multiset(names) == multiset(init) + multiset{last};
      if IsPrivileged(last) {
        assert Ordinary(names) == Ordinary(init);
        assert Privileged(names) == Privileged(init) + [last];
      } else {
        assert Ordinary(names) == Ordinary(init) + [last];
        assert Privileged(names) == Privileged(init);
      }
    }
  }

  /** `privileged` holds every occurrence of a privileged name and nothing else; `webgl` all the others. */
  lemma {:induction false} PartitionOccurrences(names: seq<string>, x: string)
    ensures multiset(Privileged(names))[x] == if IsPrivileged(x) then multiset(names)[x] else 0
    ensures multiset(Ordinary(names))[x] == if IsPrivileged(x) then 0 else multiset(names)[x]
    decreases |names|
  {
    if names != [] {
      var init := names[..|names| - 1];
      PartitionOccurrences(init, x);
      assert names == init + [names[|names| - 1]];
    }
  }

  /** Both lists keep the input order: splitting a concatenation splits each part. */
  lemma {:induction false} PartitionAppend(a: seq<string>, b: seq<string>)
    ensures Ordinary(a + b) == Ordinary(a) + Ordinary(b)
    ensures Privileged(a + b) == Privileged(a) + Privileged(b)
    decreases |b|
  {
    if b == [] {
      assert a + b == a;
    } else {
      var init := b[..|b| - 1];
      PartitionAppend(a, init);
      assert (a + b)[..|a + b| - 1] == a + init;
    }
  }
}
