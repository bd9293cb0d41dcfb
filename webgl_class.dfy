/**
  The `WebGl` class of javascripts/webgl.js. Its constructor draws on a fresh
  canvas, keeps the canvas only when the whole draw block completes, reads
  the frame and, past the zero guard, starts a two-stage digest: the
  fingerprint is the digest of the pixel string alone, and the hash the
  digest of the fingerprint followed by the user agent. The two promise
  callbacks are the methods `PixelsDigested` and `FingerprintDigested`.
 */
module WebGlClass {
  import opened JsValues
  import opened Digest
  import opened Host
  import opened Pixels
  import opened Drawing

  /** The promise callback still due. */
  datatype Pending =
    | Nothing
    /** `sha256(img_fingerprint)` is under way. */
    | PixelsDigest(image: string)
    /** `sha256(hash + agent)` is under way for this fingerprint. */
    | FingerprintDigest(fingerprint: string)

  /** What the synchronous part of the constructor leaves: the canvas field and the callback due. */
  datatype Construction = Construction(canvas: Option<Canvas>, pending: Pending)

  function Constructed(host: Host): Construction {
    match DrawChain(host)
    // `ctx === null`: the constructor returns before drawing.
    case NoContext => Construction(None, Nothing)
    // An undefined `ctx` makes the draw block and `readPixels` throw; both are caught.
    case Throws => Construction(None, Nothing)
    case Acquired(dc) =>
      var canvas := if dc.drawThrows then None else Some(DrawingCanvas);
      match dc.readback
      case ReadThrows => Construction(canvas, Nothing)
      case Frame(bytes) =>
        match GuardedImage(bytes)
        case None => Construction(canvas, Nothing)
        case Some(img) => Construction(canvas, PixelsDigest(img))
  }

  /** The fields `fingerprint` and `hash` once every callback due has run. */
  datatype Settled = Settled(fingerprint: Option<string>, hash: Option<string>)

  function SettledFields(pending: Pending, sha: Hasher, agent: string): Settled {
    match pending
    case Nothing => Settled(None, None)
    case PixelsDigest(img) =>
      var fingerprint := Sha256(sha, img);
      Settled(Some(fingerprint), Some(Sha256(sha, fingerprint + agent)))
    case FingerprintDigest(fingerprint) => Settled(Some(fingerprint), Some(Sha256(sha, fingerprint + agent)))
  }

  class WebGl {
    /** `false` until the first digest arrives. */
    var fingerprint: Option<string>
    /** `false` until the second digest arrives. */
    var hash: Option<string>
    /** `false` unless the draw block completes. */
    var canvas: Option<Canvas>
    const agent: string
    /** Whether `resolve(true)` of `ready` has been called. */
    var resolved: bool
    var pending: Pending
    /** The digest of `crypto.subtle`. */
    const sha: Hasher
    /** The pixel string the fingerprint digests. */
    ghost var image: string

    /** The hash comes after the fingerprint, and `ready` resolves only once both are set. */
    ghost predicate Valid()
      reads this
    {
      && (pending.PixelsDigest? ==> fingerprint.None? && hash.None? && image == pending.image)
      && (pending.FingerprintDigest? ==> fingerprint == Some(pending.fingerprint) && hash.None?)
      && (fingerprint.Some? ==> fingerprint.value == Sha256(sha, image))
      && (hash.Some? ==> fingerprint.Some? && hash.value == Sha256(sha, fingerprint.value + agent))
      && (resolved <==> hash.Some?)
    }

    /** `new WebGl()` with the host's canvas and frame and the runtime's digest. */
    constructor (host: Host, sha: Hasher)
      ensures this.sha == sha && agent == host.userAgent
      ensures canvas == Constructed(host).canvas && pending == Constructed(host).pending
      ensures fingerprint.None? && hash.None? && !resolved
      ensures Valid()
    {
      var found := DrawChain(host);
      var drawn: Option<Canvas> := None;
      var due := Nothing;
      var img := "";
      if found.Acquired? {
        var dc := found.ctx;
        if !dc.drawThrows {
          drawn := Some(DrawingCanvas);
        }
        if dc.readback.Frame? {
          var j := new byte[PictureSize](_ => 0 as byte);
          assert j[..] == seq(PictureSize, _ => 0 as byte);
          ReadPixels(j, dc.readback.bytes);
          img := StripKeys(TypedArrayJson(j[..]));
          TypedArrayStrips(j[..]);
          if StripZeros(img) != "" {
            due := PixelsDigest(img);
          }
        }
      }
      this.fingerprint := None;
      this.hash := None;
      this.canvas := drawn;
      this.agent := host.userAgent;
      this.resolved := false;
      this.pending := due;
      this.sha := sha;
      this.image := img;
    }

    /** The first callback: the digest of the pixel string becomes the fingerprint. */
    method PixelsDigested()
      requires Valid() && pending.PixelsDigest?
      modifies this
      ensures fingerprint == Some(Sha256(sha, old(pending).image))
      ensures pending == FingerprintDigest(fingerprint.value)
      ensures hash == old(hash) && resolved == old(resolved) && canvas == old(canvas)
      ensures Valid()
    {
      fingerprint := Some(Sha256(sha, pending.image));
      pending := FingerprintDigest(fingerprint.value);
    }

    /** The second callback: the digest of the fingerprint and the agent becomes the hash, and `ready` resolves. */
    method FingerprintDigested()
      requires Valid() && pending.FingerprintDigest?
      modifies this
      ensures hash == Some(Sha256(sha, old(pending).fingerprint + agent))
      ensures resolved && pending == Nothing
      ensures fingerprint == old(fingerprint) && canvas == old(canvas)
      ensures Valid()
    {
      hash := Some(Sha256(sha, pending.fingerprint + agent));
      resolved := true;
      pending := Nothing;
    }
  }

  /**
    `new WebGl()` followed by every promise callback it makes due: the fields
    end as `SettledFields` of the construction says, and `ready` resolves
    exactly when a digest was started.
   */
  method ConstructAndSettle(host: Host, sha: Hasher) returns (w: WebGl)
    ensures Settled(w.fingerprint, w.hash) == SettledFields(Constructed(host).pending, sha, host.userAgent)
    ensures w.resolved <==> Constructed(host).pending.PixelsDigest?
    ensures w.canvas == Constructed(host).canvas && w.pending == Nothing
  {
    w := new WebGl(host, sha);
    if w.pending.PixelsDigest? {
      w.PixelsDigested();
      w.FingerprintDigested();
    } else {
      assert w.pending.Nothing? by {
        DigestStartsExactly(host, sha, host.userAgent);
      }
    }
  }

  /** The canvas is kept exactly when a context was obtained and the whole draw block completed. */
  lemma CanvasOnlyIfDrawn(host: Host)
    ensures Constructed(host).canvas.Some? <==> DrawChain(host).Acquired? && !DrawChain(host).ctx.drawThrows
    ensures Constructed(host).canvas.Some? ==> Constructed(host).canvas.value == Canvas(256, 128)
  {
  }

  /**
    A digest is started exactly when the frame is read and holds a non-zero
    byte; otherwise no callback is due, so `fingerprint` and `hash` stay
    `false` and `ready` never resolves.
   */
  lemma DigestStartsExactly(host: Host, sha: Hasher, agent: string)
    ensures !Constructed(host).pending.FingerprintDigest?
    ensures Constructed(host).pending.PixelsDigest?
            <==> DrawChain(host).Acquired? && DrawChain(host).ctx.readback.Frame?
                 && exists i :: 0 <= i < |DrawChain(host).ctx.readback.bytes| && i < PictureSize
                                && DrawChain(host).ctx.readback.bytes[i] != 0
    ensures Constructed(host).pending.Nothing? ==> SettledFields(Constructed(host).pending, sha, agent) == Settled(None, None)
  {
  }

  /**
    The two-stage digest: the fingerprint digests the pixel string alone, so
    it does not depend on the agent; the hash digests the fingerprint followed
    by the agent. Both are 64 lower-case hexadecimal digits.
   */
  lemma TwoStageDigest(host: Host, sha: Hasher, agent: string, otherAgent: string)
    requires Constructed(host).pending.PixelsDigest?
    ensures var s := SettledFields(Constructed(host).pending, sha, agent);
            var img := PixelText(ReadBuffer(DrawChain(host).ctx.readback.bytes));
            && s.fingerprint == Some(HexEncode(sha(Utf8(img))))
            && s.hash == Some(HexEncode(sha(Utf8(s.fingerprint.value) + Utf8(agent))))
            && |s.fingerprint.value| == 64 && |s.hash.value| == 64
            && s.fingerprint == SettledFields(Constructed(host).pending, sha, otherAgent).fingerprint
  {
    var img := PixelText(ReadBuffer(DrawChain(host).ctx.readback.bytes));
    var f := Sha256(sha, img);
    Sha256Text(sha, img);
    Sha256Text(sha, f + agent);
    Utf8Append(f, agent);
  }
}
