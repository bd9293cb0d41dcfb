/**
  The pixel string of both source files: read the 256 by 128 RGBA frame into
  a zeroed `Uint8Array`, serialise it with `JSON.stringify`, strip the index
  keys with the global pattern `,?"[0-9]+":`, and refuse a frame whose string
  is `^{[0]+}$` (every byte zero).
 */
module Pixels {
  import opened JsValues

  const Width: nat := 256
  const Height: nat := 128

  /** `256 * 128 * 4`: one byte per channel of each pixel. */
  const PictureSize: nat := Width * Height * 4

  lemma PictureSizeValue()
    ensures PictureSize == 131072
  {
  }

  // ------------------------------------------------------------ readPixels

  /** The buffer after the frame is read into it: the frame's bytes first, the buffer's own after them. */
  function Filled(buffer: seq<byte>, frame: seq<byte>): (r: seq<byte>)
    ensures |r| == |buffer|
    ensures forall i :: 0 <= i < |r| ==> r[i] == if i < |frame| then frame[i] else buffer[i]
  {
    if |frame| >= |buffer| then frame[..|buffer|] else frame + buffer[|frame|..]
  }

  /** `ctx.readPixels(0, 0, 256, 128, RGBA, UNSIGNED_BYTE, j)`: the host writes its frame into `j`. */
  method ReadPixels(j: array<byte>, frame: seq<byte>)
    modifies j
    ensures j[..] == Filled(old(j[..]), frame)
  {
    var i := 0;
    while i < j.Length && i < |frame|
      invariant 0 <= i <= j.Length
      invariant i <= |frame|
      invariant forall k :: 0 <= k < i ==> j[k] == frame[k]
      invariant forall k :: i <= k < j.Length ==> j[k] == old(j[k])
    {
      j[i] := frame[i];
      i := i + 1;
    }
  }

  /** `new Uint8Array(picture_webgl_size)` after `readPixels`. */
  function ReadBuffer(frame: seq<byte>): (r: seq<byte>)
    ensures |r| == PictureSize
  {
    Filled(seq(PictureSize, _ => 0 as byte), frame)
  }

  /** A frame too short for the buffer leaves the rest of it zero. */
  lemma ReadBufferZeros(frame: seq<byte>, i: nat)
    requires |frame| <= i < PictureSize
    ensures ReadBuffer(frame)[i] == 0
  {
  }

  // ------------------------------------------------------------ JSON.stringify(Uint8Array)

  /** The member of index `i`: `"i":b`, after a comma unless it is the first. */
  function Member(bytes: seq<byte>, i: nat): string
    requires i < |bytes|
  {
    Key(i) + Decimal(bytes[i] as int)
  }

  function Key(i: nat): string {
    (if i > 0 then "," else "") + "\"" + Decimal(i) + "\":"
  }

  function MembersFrom(bytes: seq<byte>, i: nat): string
    requires i <= |bytes|
    decreases |bytes| - i
  {
    if i == |bytes| then "" else Member(bytes, i) + MembersFrom(bytes, i + 1)
  }

  /** `JSON.stringify` of a typed array: an object keyed by the indices. */
  function TypedArrayJson(bytes: seq<byte>): string {
    "{" + MembersFrom(bytes, 0) + "}"
  }

  // ------------------------------------------------------------ replace(/,?"[0-9]+":/g, "")

  /** The length of the longest run of digits at the start of `s`. */
  function DigitRun(s: string): (n: nat)
    ensures n <= |s|
    ensures AllDigits(s[..n])
    ensures n < |s| ==> !IsDigit(s[n])
  {
    if s != [] && IsDigit(s[0]) then
      var n := 1 + DigitRun(s[1..]);
      assert s[..n] == [s[0]] + s[1..][..n - 1];
      n
    else 0
  }

  /**
    The length of the match of `,?"[0-9]+":` at the start of `s`, 0 when there
    is none. The optional comma is tried first and the digit run is greedy;
    neither choice can be undone to find another match, since a match without
    the comma needs a quote where the comma is, and a shorter digit run needs
    a quote where a digit is.
   */
  function KeyMatch(s: string): (n: nat)
    ensures n <= |s|
    ensures n > 0 ==> 4 <= n
  {
    var q := if s != [] && s[0] == ',' then 1 else 0;
    if q < |s| && s[q] == '"' then
      var d := DigitRun(s[q + 1..]);
      if d > 0 && q + d + 2 < |s| && s[q + 1 + d] == '"' && s[q + 2 + d] == ':' then q + d + 3 else 0
    else 0
  }

  /** The global replacement: every match, scanning from the left, is removed; other characters are kept. */
  function StripKeys(s: string): string
    decreases |s|
  {
    if s == [] then []
    else
      var n := KeyMatch(s);
      if n > 0 then StripKeys(s[n..]) else [s[0]] + StripKeys(s[1..])
  }

  /** The pixel string: the decimal text of every byte, in order, between braces. */
  function DigitsFrom(bytes: seq<byte>, i: nat): string
    requires i <= |bytes|
    decreases |bytes| - i
  {
    if i == |bytes| then "" else Decimal(bytes[i] as int) + DigitsFrom(bytes, i + 1)
  }

  function PixelText(bytes: seq<byte>): string {
    "{" + DigitsFrom(bytes, 0) + "}"
  }

  lemma NoMatchAtDigit(s: string)
    requires s != [] && IsDigit(s[0])
    ensures StripKeys(s) == [s[0]] + StripKeys(s[1..])
  {
    assert KeyMatch(s) == 0;
  }

  lemma {:induction false} StripDigits(d: string, rest: string)
    requires AllDigits(d)
    ensures StripKeys(d + rest) == d + StripKeys(rest)
    decreases |d|
  {
    if d != [] {
      var s := d + rest;
      assert s[0] == d[0] && IsDigit(d[0]);
      NoMatchAtDigit(s);
      assert s[1..] == d[1..] + rest;
      assert AllDigits(d[1..]) by {
        forall k | 0 <= k < |d| - 1 ensures IsDigit(d[1..][k]) { assert d[1..][k] == d[k + 1]; }
      }
      StripDigits(d[1..], rest);
      assert [d[0]] + (d[1..] + StripKeys(rest)) == d + StripKeys(rest) by {
        assert d == [d[0]] + d[1..];
      }
    } else {
      assert d + rest == rest;
    }
  }

  lemma {:induction false} DigitRunOf(d: string, rest: string)
    requires AllDigits(d)
    requires rest != [] && !IsDigit(rest[0])
    ensures DigitRun(d + rest) == |d|
    decreases |d|
  {
    if d == [] {
      assert d + rest == rest;
    } else {
      var s := d + rest;
      assert s[0] == d[0] && IsDigit(d[0]);
      assert s[1..] == d[1..] + rest;
      assert AllDigits(d[1..]) by {
        forall k | 0 <= k < |d| - 1 ensures IsDigit(d[1..][k]) { assert d[1..][k] == d[k + 1]; }
      }
      DigitRunOf(d[1..], rest);
      assert DigitRun(s) == 1 + DigitRun(s[1..]);
    }
  }

  lemma StripKey(i: nat, rest: string)
    ensures StripKeys(Key(i) + rest) == StripKeys(rest)
  {
    var s := Key(i) + rest;
    var q := if i > 0 then 1 else 0;
    var digits := Decimal(i);
    assert s[q] == '"';
    var t := s[q + 1..];
    assert t == digits + ("\":" + rest);
    DigitRunOf(digits, "\":" + rest);
    assert DigitRun(t) == |digits|;
    assert s[KeyMatch(s)..] == rest;
  }

  lemma StripMember(bytes: seq<byte>, i: nat, rest: string)
    requires i < |bytes|
    ensures StripKeys(Member(bytes, i) + rest) == Decimal(bytes[i] as int) + StripKeys(rest)
  {
    assert Member(bytes, i) + rest == Key(i) + (Decimal(bytes[i] as int) + rest);
    StripKey(i, Decimal(bytes[i] as int) + rest);
    StripDigits(Decimal(bytes[i] as int), rest);
  }

  lemma {:induction false} StripMembers(bytes: seq<byte>, i: nat)
    requires i <= |bytes|
    ensures StripKeys(MembersFrom(bytes, i) + "}") == DigitsFrom(bytes, i) + "}"
    decreases |bytes| - i
  {
    if i == |bytes| {
      assert MembersFrom(bytes, i) + "}" == "}";
      assert StripKeys("}") == "}" + StripKeys("");
    } else {
      var rest := MembersFrom(bytes, i + 1) + "}";
      assert MembersFrom(bytes, i) + "}" == Member(bytes, i) + rest;
      StripMember(bytes, i, rest);
      StripMembers(bytes, i + 1);
    }
  }

  /** Stripping the keys from the serialised array leaves exactly the pixel string. */
  lemma TypedArrayStrips(bytes: seq<byte>)
    ensures StripKeys(TypedArrayJson(bytes)) == PixelText(bytes)
  {
    var s := TypedArrayJson(bytes);
    assert KeyMatch(s) == 0;
    assert s[1..] == MembersFrom(bytes, 0) + "}";
    StripMembers(bytes, 0);
  }

  // ------------------------------------------------------------ the zero guard

  /** `/^{[0]+}$/`: braces around one or more zeros and nothing else. */
  predicate ZeroPattern(s: string) {
    |s| >= 3 && s[0] == '{' && s[|s| - 1] == '}' && forall k :: 1 <= k < |s| - 1 ==> s[k] == '0'
  }

  /** `s.replace(/^{[0]+}$/g, "")`: the anchored pattern can match only the whole string. */
  function StripZeros(s: string): (r: string)
    ensures r == "" <==> ZeroPattern(s) || s == ""
  {
    if ZeroPattern(s) then "" else s
  }

  predicate AllZero(bytes: seq<byte>) {
    forall i :: 0 <= i < |bytes| ==> bytes[i] == 0
  }

  predicate Zeros(s: string) {
    forall k :: 0 <= k < |s| ==> s[k] == '0'
  }

  lemma {:induction false} DigitsZeros(bytes: seq<byte>, i: nat)
    requires i <= |bytes|
    ensures |DigitsFrom(bytes, i)| >= |bytes| - i
    ensures Zeros(DigitsFrom(bytes, i)) <==> forall k :: i <= k < |bytes| ==> bytes[k] == 0
    decreases |bytes| - i
  {
    if i < |bytes| {
      DigitsZeros(bytes, i + 1);
      var d := Decimal(bytes[i] as int);
      var s := DigitsFrom(bytes, i);
      assert s == d + DigitsFrom(bytes, i + 1);
      if Zeros(s) {
        assert d[0] == s[0];
        var later := DigitsFrom(bytes, i + 1);
        forall k | 0 <= k < |later| ensures later[k] == '0' {
          assert later[k] == s[|d| + k];
        }
      } else if bytes[i] == 0 {
        assert d == "0";
      }
    }
  }

  /** The guard fires exactly on a non-empty buffer of zeros. */
  lemma ZeroGuard(bytes: seq<byte>)
    ensures StripZeros(PixelText(bytes)) == "" <==> |bytes| > 0 && AllZero(bytes)
  {
    var s := PixelText(bytes);
    var d := DigitsFrom(bytes, 0);
    DigitsZeros(bytes, 0);
    assert s[1..|s| - 1] == d;
    assert ZeroPattern(s) ==> Zeros(d) by {
      if ZeroPattern(s) {
        forall k | 0 <= k < |d| ensures d[k] == '0' { assert d[k] == s[k + 1]; }
      }
    }
    assert Zeros(d) && |d| > 0 ==> ZeroPattern(s) by {
      if Zeros(d) && |d| > 0 {
        forall k | 1 <= k < |s| - 1 ensures s[k] == '0' { assert s[k] == d[k - 1]; }
      }
    }
    if |bytes| == 0 {
      assert d == "";
    }
  }

  /** The read buffer is refused exactly when the frame holds no non-zero byte among its first `PictureSize`. */
  lemma ReadBufferGuard(frame: seq<byte>)
    ensures StripZeros(PixelText(ReadBuffer(frame))) == ""
            <==> forall i :: 0 <= i < |frame| && i < PictureSize ==> frame[i] == 0
  {
    ZeroGuard(ReadBuffer(frame));
  }

  /** The pixel string of a frame read into the zeroed buffer, or `None` when the zero guard throws. */
  function GuardedImage(frame: seq<byte>): (r: Option<string>)
    ensures r.Some? <==> exists i :: 0 <= i < |frame| && i < PictureSize && frame[i] != 0
    ensures r.Some? ==> r.value == PixelText(ReadBuffer(frame))
  {
    ReadBufferGuard(frame);
    var img := PixelText(ReadBuffer(frame));
    if StripZeros(img) == "" then None else Some(img)
  }

  /** The digits of a buffer's tail do not depend on what stands before it. */
  lemma {:induction false} DigitsFromShift(p: seq<byte>, r: seq<byte>, j: nat)
    requires j <= |r|
    ensures DigitsFrom(p + r, |p| + j) == DigitsFrom(r, j)
    decreases |r| - j
  {
    if j < |r| {
      assert (p + r)[|p| + j] == r[j];
      DigitsFromShift(p, r, j + 1);
      assert DigitsFrom(p + r, |p| + j) == Decimal(r[j] as int) + DigitsFrom(p + r, |p| + j + 1);
    } else {
      assert |p + r| == |p| + j;
    }
  }

  /** The pixel digits of two pieces joined are the digits of each, joined. */
  lemma {:induction false} DigitsFromAppend(p: seq<byte>, r: seq<byte>, i: nat)
    requires i <= |p|
    ensures DigitsFrom(p + r, i) == DigitsFrom(p, i) + DigitsFrom(r, 0)
    decreases |p| - i
  {
    if i == |p| {
      DigitsFromShift(p, r, 0);
    } else {
      assert (p + r)[i] == p[i];
      DigitsFromAppend(p, r, i + 1);
    }
  }

  /**
    Without separators, different frames can give the same pixel string: the
    frames starting `1, 11` and `11, 1` are read into different buffers, and
    both pass the zero guard with the same string.
   */
  lemma PixelTextCollides()
    ensures ReadBuffer([1, 11]) != ReadBuffer([11, 1])
    ensures PixelText(ReadBuffer([1, 11])) == PixelText(ReadBuffer([11, 1]))
    ensures GuardedImage([1, 11]).Some? && GuardedImage([1, 11]) == GuardedImage([11, 1])
  {
    var zeros := seq(PictureSize - 2, _ => 0 as byte);
    assert ReadBuffer([1, 11]) == [1, 11] + zeros;
    assert ReadBuffer([11, 1]) == [11, 1] + zeros;
    assert ReadBuffer([1, 11])[0] != ReadBuffer([11, 1])[0];
    DigitsFromAppend([1, 11], zeros, 0);
    DigitsFromAppend([11, 1], zeros, 0);
    assert Decimal(11) == "11";
    assert Decimal(1) == "1";
    assert DigitsFrom([1, 11], 0) == DigitsFrom([11, 1], 0);
    assert [1, 11][0] as byte != 0;
  }
}
