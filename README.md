# webgl-detect in Dafny

webgl-detect fingerprints a browser through WebGL. `webgl.js` has two parts.

- `render()` fills the global record `GL_CONFIGURATIONS` with what the browser's WebGL answers:
  - the context aliases that work (`webgl_detect`);
  - the highest WebGL version;
  - 88 WebGL 2 function names;
  - 23 or 47 `getParameter` values, each normalised;
  - a row of derived probes (ANGLE, anisotropy, major performance caveat, precision, extensions).
- `webgl()` draws a triangle on a 256 by 128 canvas and reads the frame back into a 131072-byte buffer. It serialises the buffer with `JSON.stringify` and strips the index keys. Unless every byte is zero, it digests the pixel string followed by the JSON text of the record and the user agent with SHA-256.

`javascripts/webgl.js` has a class `WebGl` that does the same drawing. Its constructor:

- keeps the canvas only when the whole draw block completes;
- computes a two-stage digest: `fingerprint` is the digest of the pixel string alone;
- sets `hash` to the digest of `fingerprint` followed by the agent, then resolves `ready`.

The browser is a value of type `Host.Host` (an oracle). For each alias it says whether `getContext` gives a context, null or an exception, and it says what that context answers. Three more things are parameters in `Host.Runtime`:

- the digest of `crypto.subtle`;
- `JSON.stringify` of the record;
- the number text of `Math.pow(2, n)`.

Modules, in dependency order:

| module | file | models |
|---|---|---|
| `JsValues` | js_values.dfy | the JavaScript values the host answers; the decimal text of integers |
| `Digest` | digest.dfy | `sha256(message)`: UTF-8 encoding, the digest, the hexadecimal join |
| `Capabilities` | capabilities.dfy | `GL_CONFIGURATIONS` and `add`: an insertion-ordered record, as a class |
| `Host` | host.dfy | the oracle: aliases, contexts, parameters, extensions, frames |
| `Detect` | detect.dfy | `webgl_detect()` |
| `Probes` | probes.dfy | `expand_param_pair`, antialiasing, `renderer_info`, `get_angle` with `b`, anisotropy, caveat, draw buffers, float/int precision, `render_range`, `describe_precision` |
| `Extensions` | extensions.dfy | `get_webgl_extensions` |
| `Render` | render.dfy | `render()`: the sequence of `add` calls as a pure plan, and the method that performs it |
| `RenderFacts` | render_facts.dfy | what the record holds after `render()` |
| `Pixels` | pixels.dfy | `readPixels` into the buffer; `JSON.stringify` of a `Uint8Array`; the key-stripping regex; the zero guard |
| `Drawing` | drawing.dfy | the drawing canvas and its `||` chain of five aliases |
| `Fingerprint` | fingerprint.dfy | `webgl()` |
| `WebGlClass` | webgl_class.dfy | the class `WebGl` |

`render()` is specified by `Render.RenderPlan`, a function that gives:

- the list of `add(subject, key, value)` calls;
- how the call ends: it finishes, returns `false`, or throws.

The method `Render.Render` performs those calls on a `Capabilities.Configurations` object, with one loop per loop in the source. Its contract ties the new record to `ApplyAll(old record, plan)`. The lemmas of `RenderFacts` then say what the record holds.

## Model

| member | source | states |
|---|---|---|
| `Capabilities.Configurations.constructor` | webgl.js:9 | the record starts empty |
| `Capabilities.Configurations.Add` | webgl.js:20-26 | `(subject, key)` reads `value` afterwards; every other pair reads what it read before; a well-formed record stays well-formed |
| `Capabilities.InsertLookup` | webgl.js:20-26 | one `add` changes exactly the pair it names |
| `Capabilities.InsertOrder` | webgl.js:20-26 | a new subject goes last; a new key goes last in its subject; overwriting an entry keeps every position |
| `Capabilities.ApplyAllLookup` | webgl.js:20-26 | after a run of `add` calls, a pair reads its last write, or its old value when it was never written |
| `Capabilities.ApplyAllKeys` | webgl.js:20-26 | from an empty record, a subject's keys are the keys written to it, without repeats, in order of first write |
| `Capabilities.AddNext` | webgl.js:20-26 | one more `add` extends the run of calls already made by that call |
| `Detect.WebglDetect` | webgl.js:42-72 | the result is `false` exactly when no alias gives a context; otherwise it lists the aliases that do, in order, with the first context; every later context is released |
| `Detect.DetectionCharacterised` | webgl.js:42-72 | `false` exactly when no alias succeeds; `gl` is the context of the first listed alias |
| `Detect.SupportedMembers` | webgl.js:52-67 | an alias is listed exactly when it is one of the aliases and gives a context |
| `Detect.ThrowingAliasSkipped` | webgl.js:55-67 | an alias whose `getContext` throws is treated exactly like one that gives null |
| `Detect.ThrowingAliasOnlySkipsItself` | webgl.js:55-67 | the other aliases are still tried: the list is the one for the aliases without the throwing one |
| `Detect.FirstEndsInTwo` | webgl.js:282-285 | the first listed name ends in "2" exactly when `webgl2` or `experimental-webgl2` gives a context |
| `Probes.ExpandPairInjective` | webgl.js:74-76 | two integer pairs expand to the same text only when they are equal |
| `Probes.BracketIsUnit` | webgl.js:74-76 | the pair text is `"[1, 1]"` exactly when both parts read "1" |
| `Probes.UnitRangeText` | webgl.js:114 | the line-width test of `get_angle` fails exactly on a unit range, given as numbers, strings or text |
| `Probes.NormaliseIdempotent` | webgl.js:447-459 | a normalised value is neither null nor an object, so normalising it again changes nothing |
| `Probes.BitAndPredecessor` | webgl.js:104-106 | `n & (n - 1)` is zero exactly for powers of two |
| `Probes.PowerOfTwoTestCorrect` | webgl.js:104-106 | on the integers below 2^32, `b(a)` holds exactly for positive powers of two |
| `Probes.PowerOfTwoTestWraps` | webgl.js:104-106 | a negative limit is tested as its 32-bit pattern, so `b(-2^31)` holds |
| `Probes.GetAngleCharacterised` | webgl.js:103-116 | ANGLE is reported only on Win32/Win64, for a renderer other than Internet Explorer and Microsoft Edge, with a unit line-width range; it is Direct3D 11 exactly when both uniform-vector limits pass `b`; the answer is one of the three labels |
| `Probes.AntialiasingString` | webgl.js:78-88 | "True" exactly when the context attributes say `antialias` is true, otherwise "False" |
| `Probes.GetAnisotropy` | webgl.js:118-128 | "n/a" without any of the three anisotropy extensions; a reported 0 becomes 2; otherwise the reported maximum; never 0 |
| `Probes.MajorPerformanceCaveat` | webgl.js:130-157 | "True" when the probe gets no context; "Not implemented" when the flag attribute is undefined; "False" when it is defined; "n/gl" when the probe throws; each one if and only if |
| `Probes.FloatIntPrecisionLabels` | webgl.js:170-183 | the label is one of five; it starts "highp" exactly when the float precision is non-zero |
| `Probes.RangeTextInjective` | webgl.js:212-220 | the exponent form of a range gives back the format it was made from |
| `Probes.DescribePrecision` | webgl.js:222-243 | a description exactly when all three float formats are answered, `false` otherwise |
| `Probes.BestPrecisionLabel` | webgl.js:228-240 | `range` describes the medium format when the high format has precision 0, the high format otherwise; it reads as the high format exactly when that has a non-zero precision or equals the medium one |
| `Extensions.ExtensionsOf` | webgl.js:185-210 | `false` for a throwing, undefined or empty listing; a null listing throws; otherwise the two sub-lists of the listing |
| `Extensions.Partition` | webgl.js:194-202 | the loop builds exactly the ordinary and the privileged sub-lists |
| `Extensions.GetWebglExtensions` | webgl.js:185-210 | the method gives what `ExtensionsOf` specifies |
| `Extensions.PartitionComplete` | webgl.js:194-202 | the two lists together are a permutation of the listing |
| `Extensions.PartitionOccurrences` | webgl.js:194-202 | `privileged` holds every occurrence of the two debugging names and nothing else; `webgl` holds all the others |
| `Extensions.PartitionAppend` | webgl.js:194-202 | both lists keep the listing's order |
| `Render.Render` | webgl.js:245-481 | the record after the call is the old record with the plan's `add` calls applied in order; the outcome is the plan's |
| `RenderFacts.OutcomeCharacterised` | webgl.js:257-296 | `false` exactly when a context was detected and it is `fake-webgl` or lacks `getParameter`. It throws exactly when: no context with `WebGL2RenderingContext` present; or `getParameter` is not a function; or the debug renderer extension is missing; or the extension listing is null |
| `RenderFacts.FakeWebglAddsNoParams` | webgl.js:286-292 | when the first detected alias is `fake-webgl`, the only `add` is `info.implementations` and the call returns `false`; no `params` key is written |
| `RenderFacts.InfoRecorded` | webgl.js:261-296 | `info.implementations` is the detected name list, undefined when nothing was detected; `info` holds only it and, once version selection passes, `WebGLVersion`, which is 2 exactly when a WebGL 2 alias gives a context |
| `RenderFacts.FunctionsRecorded` | webgl.js:298-397 | the function keys are the 88 WebGL 2 names exactly when WebGL 2 is probed, none otherwise; each is recorded `true` |
| `RenderFacts.ParamsRecorded` | webgl.js:399-477 | no `params` key before the parameter loop is reached. Once reached, the keys are the 23 or 47 names, followed by at most the probe and extension keys (all of them when `render` finishes). Each parameter reads its normalised value |
| `RenderFacts.ReachedWrites` | webgl.js:399-481 | once past the version checks, the plan is the head, the parameter loop and the tail; it finishes exactly when the renderer info is available and the listing does not throw |
| `RenderFacts.PlanShape` | webgl.js:245-481 | past version selection, a plan is its head followed by `params` writes only: the parameter loop and the tail when the loop is reached, nothing otherwise |
| `RenderFacts.ProbeKeysAreNotParams` | webgl.js:461-477 | the probe keys are disjoint from the parameter names |
| `RenderFacts.ProbeKeysDistinct` | webgl.js:461-477 | no probe or extension key is added twice |
| `RenderFacts.ProbesRecorded` | webgl.js:461-474 | once the parameter loop is reached, `ANTIALIASING` reads the antialiasing string. With `WEBGL_debug_renderer_info`, the unmasked vendor and renderer read the two unmasked parameters, and ANGLE, anisotropy, caveat and precision read their probes. `MAX_DRAW_BUFFERS` reads, on WebGL 1, `MAX_DRAW_BUFFERS_WEBGL` with `WEBGL_draw_buffers` and 0 without it; on WebGL 2, the normalised `getParameter(MAX_DRAW_BUFFERS)` of the parameter loop |
| `RenderFacts.ParamsKeysOrder` | webgl.js:447-477 | in order of first write, the `params` keys are the deduplicated parameter list followed by the probe and extension keys, unchanged |
| `RenderFacts.RecordAfterRender` | webgl.js:245-481 | on the record: each parameter reads its normalised value and each WebGL 2 function `true`. From an empty record, the `functions` keys are the 88 names exactly when WebGL 2 is probed. After a finished run, the `params` keys are the parameter list followed by the probe and extension keys, in order of first write |
| `Pixels.PictureSizeValue` | javascripts/webgl.js:104-106 | the buffer holds `256 * 128 * 4 = 131072` bytes |
| `Pixels.Filled` | javascripts/webgl.js:108 | the buffer keeps its length and takes the frame's bytes first |
| `Pixels.ReadPixels` | javascripts/webgl.js:108 | the loop writes the frame into the array, leaving the rest as it was |
| `Pixels.ReadBufferZeros` | webgl.js:571-575 | a frame too short for the buffer leaves the rest zero |
| `Pixels.TypedArrayStrips` | javascripts/webgl.js:109 | removing every `,?"[0-9]+":` match from the serialised array leaves exactly `{` + the decimal text of every byte + `}` |
| `Pixels.StripZeros` | javascripts/webgl.js:111 | the anchored replace empties exactly the `^{[0]+}$` strings and the empty string |
| `Pixels.ZeroGuard` | javascripts/webgl.js:111-113 | the guard fires exactly on a non-empty buffer of zeros |
| `Pixels.ReadBufferGuard` | webgl.js:565-580 | the read buffer is refused exactly when the frame has no non-zero byte among its first 131072 |
| `Pixels.GuardedImage` | webgl.js:565-580 | an image exactly when some byte within the buffer is non-zero, and it is the pixel string of the buffer |
| `Pixels.PixelTextCollides` | webgl.js:573-580 | the pixel string has no separators: the frames starting `[1, 11]` and `[11, 1]` are read into different buffers, yet both pass the zero guard with the same pixel string |
| `Drawing.ChainNull` | webgl.js:499-503 | the `||` chain gives null exactly when every alias gives null |
| `Drawing.ChainFirst` | webgl.js:499-503 | otherwise it gives the answer of the first alias that does not give null |
| `Fingerprint.Webgl` | webgl.js:484-595 | the record is the one `render()` leaves; the result is `WebglOutcome` on that record |
| `Fingerprint.Draw` | webgl.js:494-594 | the drawing part gives what `Drawn` specifies |
| `Fingerprint.RejectedExactly` | webgl.js:490 | the promise rejects exactly when `render()` throws |
| `Fingerprint.FingerprintedExactly` | webgl.js:484-595 | there is a fingerprint exactly when: `render()` does not throw; the chain gives a context; `readPixels` succeeds; and some byte within the buffer is non-zero |
| `Fingerprint.FingerprintComposition` | webgl.js:565-589 | after `render()`, the fingerprint is 64 lower-case hex digits. They decode to the digest of the UTF-8 bytes of the pixel string, the record text and the agent, in that order. The agent, the record and a 256 by 128 canvas are returned with it |
| `Fingerprint.NoContextNoFingerprint` | webgl.js:508-510 | when every alias gives null, `webgl()` gives `false`, or rejects when `render()` throws |
| `Digest.HexEncodeShape` | webgl.js:15 | the hex text has two lower-case hex digits per byte |
| `Digest.HexRoundTrip` | webgl.js:15 | the hex text decodes back to the digest bytes |
| `Digest.Utf8Append` | webgl.js:12 | encoding a concatenation encodes its parts in turn |
| `Digest.Sha256Text` | webgl.js:11-18 | `sha256` gives 64 lower-case hex digits that decode to the digest of the message's UTF-8 |
| `JsValues.Decimal` | webgl.js:75 | the decimal text is non-empty digits, starting with '0' only for 0 |
| `JsValues.DecimalRoundTrip` | webgl.js:75 | parsing the decimal text gives the number back |
| `JsValues.IntTextInjective` | webgl.js:75 | different integers have different texts |
| `WebGlClass.WebGl.constructor` | javascripts/webgl.js:4-127 | `fingerprint` and `hash` start `false` and `ready` is unresolved; the canvas and the callback due are those of `Constructed` |
| `WebGlClass.WebGl.PixelsDigested` | javascripts/webgl.js:115-117 | the first callback sets `fingerprint` to the digest of the pixel string and leaves the rest |
| `WebGlClass.WebGl.FingerprintDigested` | javascripts/webgl.js:118-121 | the second callback sets `hash` to the digest of `fingerprint` + agent and resolves `ready` |
| `WebGlClass.CanvasOnlyIfDrawn` | javascripts/webgl.js:9-98 | the canvas is kept exactly when a context was obtained and the whole draw block completed; it is 256 by 128 |
| `WebGlClass.DigestStartsExactly` | javascripts/webgl.js:39-126 | a digest starts exactly when the frame is read and holds a non-zero byte; otherwise both fields stay `false` |
| `WebGlClass.ConstructAndSettle` | javascripts/webgl.js:4-127 | after `new WebGl()` and the callbacks it makes due, `fingerprint` and `hash` are those `SettledFields` gives for the construction, and `ready` resolves exactly when a digest was started |
| `WebGlClass.TwoStageDigest` | javascripts/webgl.js:115-122 | `fingerprint` digests the pixel string alone, so it does not depend on the agent; `hash` digests `fingerprint` followed by the agent; both are 64 hex digits |

## Left out

- `destroy_webgl` (webgl.js:28-40) only asks the driver to lose a context. `Detect.WebglDetect` returns the contexts it hands over, and nothing else in the model depends on them.
- The order of promise callbacks and `await` is not modelled. `webgl()` is one call whose result says whether its promise rejects or resolves, and to what. The two callbacks of the class are methods to call in turn.
- `crypto.subtle.digest` and SHA-256 itself are a function parameter, `Runtime.sha`. A rejected digest is not modelled.
- `JSON.stringify(GL_CONFIGURATIONS)` is a function parameter, `Runtime.json`. Only `JSON.stringify` of a `Uint8Array` is spelled out.
- `"" + Math.pow(2, n)` is a function parameter, `Runtime.powerOfTwoText`. Floating-point text is not modelled.
- WebGL numbers are integers. Non-integer parameter values, NaN and infinities are not modelled.
- `Probes.PowerOfTwoTest`: `ToNumber` treats every non-empty string as NaN. It does not parse numeric strings, since no host parameter of this kind is a string.
- `UTF-8`: characters are Unicode scalar values. Lone UTF-16 surrogates, which `TextEncoder` replaces, are not modelled.
- The draw calls of webgl.js:512-561 and javascripts/webgl.js:43-92 are not modelled. Through `Host.DrawContext`, the host says only whether they throw and what `readPixels` then gives.
- The canvas element is reduced to its size.
- `Capabilities.InsertOrder` and `Capabilities.ApplyAllKeys`: JavaScript lists the array-index keys of an object (such as "0" or "42") first, in ascending order, before the other keys in insertion order. The model keeps every key in insertion order. This matches JavaScript for the keys `render()` writes, none of which is an array index.
- `RenderFacts.RecordAfterRender`: the parameter part of the `params` key list is stated as `Dedup` of the parameter list. The model does not prove that the 23 or 47 parameter names differ from one another. The probe and extension keys after them are stated exactly.
- The `index.js` files are presentation code, outside this model. They call `webgl()` or `new WebGl()` and show the result on the page, building tables from the record. Arrays there are joined with `", "` and lists with `</br>`.
- The code's behaviour is modelled where it differs from a reading of its comments and names:
  - webgl.js:98 reads `UNMASKED_VENDOR_WEBGL` from the extension even when that is null, so without `WEBGL_debug_renderer_info` `render()` throws. The `"render_ctx"` placeholders of line 91 are never recorded.
  - The functions loop (webgl.js:388-396) records `true` on both branches, so a missing function is never recorded as `false`.
  - In webgl.js, a buffer of zeros makes `webgl()` give `false`.
  - The two files digest different messages. webgl.js makes one digest of pixels + record + agent. The class makes two digests, the first of the pixels alone.
  - The pixel string joins byte texts without separators, so different frames can give the same fingerprint (`Pixels.PixelTextCollides`).
