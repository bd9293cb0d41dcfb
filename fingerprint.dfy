/**
  `webgl()` of webgl.js: run `render()`, draw on a fresh canvas, read the
  frame, and digest the pixel string together with the JSON text of the
  configuration record and the user agent. Promise plumbing is flattened: a
  rejected promise is `Rejected`, a resolved `false` is `NoFingerprint`.
 */
module Fingerprint {
  import opened JsValues
  import opened Digest
  import opened Capabilities
  import opened Host
  import opened Render
  import opened RenderFacts
  import opened Pixels
  import opened Drawing

  datatype WebglResult =
    /** `render()` threw, so the promise of `webgl()` rejects. */
    | Rejected
    /** `webgl()` returns `false`. */
    | NoFingerprint
    | Fingerprinted(fingerprint: string, canvas: Canvas, agent: string, configurations: Record)

  /** What `webgl()` gives, once `render()` has left `configurations` in the record. */
  function WebglOutcome(host: Host, rt: Runtime, configurations: Record): WebglResult {
    if RenderPlan(host, rt.powerOfTwoText).outcome == Threw then Rejected else Drawn(host, rt, configurations)
  }

  /** The part of `webgl()` after `render()`. */
  function Drawn(host: Host, rt: Runtime, configurations: Record): WebglResult {
    match DrawChain(host)
    // A throwing chain leaves `ctx` undefined: it passes the null test and `readPixels` throws.
    case Throws => NoFingerprint
    case NoContext => NoFingerprint
    case Acquired(dc) =>
      match dc.readback
      case ReadThrows => NoFingerprint
      case Frame(bytes) =>
        match GuardedImage(bytes)
        case None => NoFingerprint
        case Some(img) =>
          Fingerprinted(Sha256(rt.sha, img + rt.json(configurations) + host.userAgent),
                        DrawingCanvas, host.userAgent, configurations)
  }

  /** `webgl()` on the record `config`, which holds `GL_CONFIGURATIONS`. */
  method Webgl(host: Host, rt: Runtime, config: Configurations) returns (r: WebglResult)
    modifies config
    ensures config.subjects == ApplyAll(old(config.subjects), RenderPlan(host, rt.powerOfTwoText).entries)
    ensures r == WebglOutcome(host, rt, config.subjects)
  {
    var outcome := Render.Render(host, rt.powerOfTwoText, config);
    if outcome == Threw {
      return Rejected;
    }
    r := Draw(host, rt, config.subjects);
  }

  /** Draw, read back, guard and digest; `configurations` is the record's state at `JSON.stringify`. */
  method Draw(host: Host, rt: Runtime, configurations: Record) returns (r: WebglResult)
    ensures r == Drawn(host, rt, configurations)
  {
    var ctx := DrawChain(host);
    if ctx.NoContext? {
      return NoFingerprint;
    }
    // The draw calls do not change what is read back; an undefined context fails at `readPixels`.
    if ctx.Throws? || ctx.ctx.readback.ReadThrows? {
      return NoFingerprint;
    }
    var j := new byte[PictureSize](_ => 0 as byte);
    assert j[..] == seq(PictureSize, _ => 0 as byte);
    ReadPixels(j, ctx.ctx.readback.bytes);
    var image := StripKeys(TypedArrayJson(j[..]));
    TypedArrayStrips(j[..]);
    if StripZeros(image) == "" {
      return NoFingerprint;
    }
    var detection := rt.json(configurations);
    r := Fingerprinted(Sha256(rt.sha, image + detection + host.userAgent), DrawingCanvas, host.userAgent, configurations);
  }

  /** The promise rejects exactly when `render()` throws, which is decided by the host alone. */
  lemma RejectedExactly(host: Host, rt: Runtime, configurations: Record)
    ensures WebglOutcome(host, rt, configurations).Rejected? <==> RenderPlan(host, rt.powerOfTwoText).outcome == Threw
  {
  }

  /**
    A fingerprint is produced exactly when `render()` does not throw, the
    chain gives a context, `readPixels` succeeds and the buffer holds a
    non-zero byte.
   */
  lemma FingerprintedExactly(host: Host, rt: Runtime, configurations: Record)
    ensures WebglOutcome(host, rt, configurations).Fingerprinted?
            <==> RenderPlan(host, rt.powerOfTwoText).outcome != Threw
                 && DrawChain(host).Acquired?
                 && DrawChain(host).ctx.readback.Frame?
                 && exists i :: 0 <= i < |DrawChain(host).ctx.readback.bytes| && i < PictureSize
                                && DrawChain(host).ctx.readback.bytes[i] != 0
  {
    if DrawChain(host).Acquired? && DrawChain(host).ctx.readback.Frame? {
      ReadBufferGuard(DrawChain(host).ctx.readback.bytes);
    }
  }

  /**
    The fingerprint is the 64 hexadecimal digits of the digest of the pixel
    string, the JSON text of the record and the user agent, in that order.
    It is stated on the part after `render()`, which `WebglOutcome` gives
    whenever `render()` does not throw.
   */
  lemma FingerprintComposition(host: Host, rt: Runtime, configurations: Record)
    requires Drawn(host, rt, configurations).Fingerprinted?
    ensures var r := Drawn(host, rt, configurations);
            var img := PixelText(ReadBuffer(DrawChain(host).ctx.readback.bytes));
            && |r.fingerprint| == 64
            && (forall k :: 0 <= k < 64 ==> IsLowerHex(r.fingerprint[k]))
            && HexDecode(r.fingerprint) == Some(rt.sha(Utf8(img) + Utf8(rt.json(configurations)) + Utf8(host.userAgent)))
            && r.agent == host.userAgent && r.configurations == configurations && r.canvas == Canvas(256, 128)
  {
    var img := PixelText(ReadBuffer(DrawChain(host).ctx.readback.bytes));
    var message := img + rt.json(configurations) + host.userAgent;
    Sha256Text(rt.sha, message);
    Utf8Append(img + rt.json(configurations), host.userAgent);
    Utf8Append(img, rt.json(configurations));
  }

  /** With every alias of the chain giving null, `webgl()` gives `false` (or rejects, when `render()` throws). */
  lemma NoContextNoFingerprint(host: Host, rt: Runtime, configurations: Record)
    requires forall i :: 0 <= i < |DrawAliases| ==> DrawOutcome(host, DrawAliases[i]).NoContext?
    ensures WebglOutcome(host, rt, configurations)
            == if RenderPlan(host, rt.powerOfTwoText).outcome == Threw then Rejected else NoFingerprint
  {
    ChainNull(host, DrawAliases);
  }
}
