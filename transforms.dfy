/**
 * The sample transforms of `AudioProcessor` (`normalize`, `trim`, `fade`,
 * `convert`) and the read-only `analyze` pass. Each transform decodes its
 * buffer, works on the samples, and re-encodes them with the codec of `Wav`.
 */
module Transforms {
  import opened Wrappers
  import opened Bytes
  import opened Wav

  /**
   * The options object one transform receives; an absent field takes the
   * transform's default. `targetAmplitude` stands for `Math.pow(10, targetLevel / 20)`.
   */
  datatype Settings = Settings(
    targetAmplitude: Option<real>,
    start: Option<real>,
    end: Option<real>,
    fadeIn: Option<real>,
    fadeOut: Option<real>)

  /** The default `targetLevel` of -3 dB as an amplitude: the decimal rendering of the double `Math.pow(10, -3 / 20)`. */
  const DefaultTargetAmplitude: real := 0.7079457843841379

  function Abs(x: real): real {
    if x < 0.0 then -x else x
  }

  function Max(a: real, b: real): real {
    if a < b then b else a
  }

  /** The largest absolute sample value, 0 when there are no samples. */
  function Peak(s: seq<real>): (p: real)
    ensures 0.0 <= p
  {
    if s == [] then 0.0 else Max(Peak(s[..|s| - 1]), Abs(s[|s| - 1]))
  }

  /** No sample exceeds the peak in magnitude. */
  lemma {:induction false} PeakBounds(s: seq<real>, i: nat)
    requires i < |s|
    ensures Abs(s[i]) <= Peak(s)
  {
    if i < |s| - 1 {
      PeakBounds(s[..|s| - 1], i);
    }
  }

  /** A positive peak is the magnitude of some sample. */
  lemma {:induction false} PeakAttained(s: seq<real>) returns (i: nat)
    requires Peak(s) > 0.0
    ensures i < |s| && Abs(s[i]) == Peak(s)
  {
    var init := s[..|s| - 1];
    if Peak(init) < Abs(s[|s| - 1]) {
      i := |s| - 1;
    } else {
      i := PeakAttained(init);
    }
  }

  function Sum(s: seq<real>): real {
    if s == [] then 0.0 else Sum(s[..|s| - 1]) + s[|s| - 1]
  }

  function SumOfSquares(s: seq<real>): real {
    if s == [] then 0.0 else SumOfSquares(s[..|s| - 1]) + s[|s| - 1] * s[|s| - 1]
  }

  // ---------------------------------------------------------------- normalize

  /** One sample multiplied by `gain` and clamped to [-1, 1]. */
  function Gained(x: real, gain: real): real {
    Clamp(x * gain)
  }

  /** Every sample multiplied by `gain` and clamped to [-1, 1]. */
  function Scale(s: seq<real>, gain: real): (r: seq<real>)
    ensures |r| == |s|
  {
    seq(|s|, i requires 0 <= i < |s| => Gained(s[i], gain))
  }

  /** What `normalize` returns: the input itself for silence, else the samples scaled so the peak meets the target. */
  function NormalizeResult(data: seq<byte>, options: Settings): (r: Result<seq<byte>, WavError>)
    ensures Decode(data).Err? ==> r == Err(RangeError)
    ensures Decode(data).Ok? && Encodable(|Decode(data).value|) ==> r.Ok?
    ensures r.Ok? ==> |r.value| == |data|
  {
    match Decode(data)
    case Err(e) => Err(e)
    case Ok(s) =>
      var target := options.targetAmplitude.GetOr(DefaultTargetAmplitude);
      if Peak(s) == 0.0 then Ok(data) else Encode(Scale(s, target / Peak(s)))
  }

  /** The first loop of `normalize`: the largest absolute sample value. */
  method MaxAmplitude(samples: array<real>) returns (maxAmplitude: real)
    ensures maxAmplitude == Peak(samples[..])
  {
    maxAmplitude := 0.0;
    var i := 0;
    while i < samples.Length
      invariant 0 <= i <= samples.Length
      invariant maxAmplitude == Peak(samples[..i])
    {
      assert samples[..i + 1][..i] == samples[..i];
      maxAmplitude := Max(maxAmplitude, Abs(samples[i]));
      i := i + 1;
    }
    assert samples[..i] == samples[..];
  }

  /** The second loop of `normalize`: every sample multiplied by `gain` and clamped, in place. */
  method ApplyGain(samples: array<real>, gain: real)
    modifies samples
    ensures samples[..] == Scale(old(samples[..]), gain)
  {
    var i := 0;
    while i < samples.Length
      invariant 0 <= i <= samples.Length
      invariant forall k :: 0 <= k < i ==> samples[k] == Gained(old(samples[k]), gain)
      invariant forall k :: i <= k < samples.Length ==> samples[k] == old(samples[k])
    {
      samples[i] := Gained(samples[i], gain);
      i := i + 1;
    }
    assert samples[..] == Scale(old(samples[..]), gain);
  }

  /** `normalize`: finds the peak, returns the input for silence, else scales the samples in place. */
  method Normalize(data: seq<byte>, options: Settings) returns (r: Result<seq<byte>, WavError>)
    ensures r == NormalizeResult(data, options)
  {
    var target := options.targetAmplitude.GetOr(DefaultTargetAmplitude);
    var decoded := BufferToSamples(data);
    if decoded.Err? {
      return Err(decoded.error);
    }
    var s := decoded.value;
    var samples := new real[|s|](i requires 0 <= i < |s| => s[i]);
    assert samples[..] == s;
    var maxAmplitude := MaxAmplitude(samples);
    if maxAmplitude == 0.0 {
      return Ok(data);
    }
    var gain := target / maxAmplitude;
    ApplyGain(samples, gain);
    r := SamplesToBuffer(samples[..]);
  }

  lemma {:induction false} SilentPeak(s: seq<real>)
    requires forall i :: 0 <= i < |s| ==> s[i] == 0.0
    ensures Peak(s) == 0.0
  {
    if s != [] {
      SilentPeak(s[..|s| - 1]);
    }
  }

  /** A silent buffer (every sample 0) comes back unchanged, byte for byte. */
  lemma NormalizeSilent(data: seq<byte>, options: Settings)
    requires Decode(data).Ok?
    requires forall x :: x in Decode(data).value ==> x == 0.0
    ensures NormalizeResult(data, options) == Ok(data)
  {
    var s := Decode(data).value;
    forall i | 0 <= i < |s| ensures s[i] == 0.0 {
      assert s[i] in s;
    }
    SilentPeak(s);
  }

  /** A normalized buffer keeps the input's sample count and every sample lies in [-1, 1]. */
  lemma NormalizeBounded(data: seq<byte>, options: Settings)
    requires Decode(data).Ok? && NormalizeResult(data, options).Ok?
    ensures Decode(NormalizeResult(data, options).value).Ok?
    ensures |Decode(NormalizeResult(data, options).value).value| == |Decode(data).value|
    ensures forall x :: x in Decode(NormalizeResult(data, options).value).value ==> -1.0 <= x <= 1.0
  {
    var s := Decode(data).value;
    if Peak(s) != 0.0 {
      var scaled := Scale(s, options.targetAmplitude.GetOr(DefaultTargetAmplitude) / Peak(s));
      RoundTrip(scaled);
    }
  }

  lemma MulLe(a: real, b: real, c: real)
    requires a <= b && 0.0 <= c
    ensures a * c <= b * c
  {
    assert (b - a) * c >= 0.0;
  }

  lemma AbsScaled(x: real, gain: real)
    requires 0.0 <= gain
    ensures Abs(x * gain) == Abs(x) * gain
  {
    if x < 0.0 {
      assert x * gain == -(Abs(x) * gain);
    }
  }

  lemma DivCancel(t: real, p: real)
    requires p != 0.0
    ensures p * (t / p) == t
  {
  }

  /** A sample no larger than the peak stays within the target after the gain `target / peak`. */
  lemma GainedWithin(x: real, p: real, target: real)
    requires 0.0 < p && Abs(x) <= p && 0.0 < target <= 1.0
    ensures Abs(Gained(x, target / p)) == Abs(x) * (target / p) <= target
    ensures Abs(x) == p ==> Abs(Gained(x, target / p)) == target
  {
    var gain := target / p;
    AbsScaled(x, gain);
    MulLe(Abs(x), p, gain);
    DivCancel(target, p);
    assert Abs(x * gain) <= 1.0;
    assert Gained(x, gain) == x * gain;
  }

  /** A bound on every sample bounds the peak. */
  lemma {:induction false} PeakAtMost(s: seq<real>, b: real)
    requires 0.0 <= b && forall i :: 0 <= i < |s| ==> Abs(s[i]) <= b
    ensures Peak(s) <= b
  {
    if s != [] {
      PeakAtMost(s[..|s| - 1], b);
    }
  }

  /** Before quantization, scaling by `target / peak` moves the peak exactly to a target in (0, 1]. */
  lemma NormalizeReachesTarget(s: seq<real>, target: real)
    requires Peak(s) > 0.0 && 0.0 < target <= 1.0
    ensures Peak(Scale(s, target / Peak(s))) == target
  {
    var p := Peak(s);
    var r := Scale(s, target / p);
    forall i | 0 <= i < |r| ensures Abs(r[i]) <= target {
      PeakBounds(s, i);
      GainedWithin(s[i], p, target);
    }
    PeakAtMost(r, target);
    var j := PeakAttained(s);
    GainedWithin(s[j], p, target);
    PeakBounds(r, j);
  }

  // ---------------------------------------------------------------- trim

  /** The index `Array.prototype.slice` uses for an integer argument: negative counts from the end, then clamped to [0, len]. */
  function RelativeIndex(k: int, len: nat): (r: nat)
    ensures r <= len
    ensures 0 <= k <= len ==> r == k
  {
    if k < 0 then (if len + k < 0 then 0 else len + k) else if k < len then k else len
  }

  /** `s.slice(from, to)` for integer arguments. */
  function Slice<T>(s: seq<T>, from: int, to: int): (r: seq<T>)
    ensures 0 <= from <= to <= |s| ==> r == s[from..to]
    ensures |r| <= |s|
  {
    var a, b := RelativeIndex(from, |s|), RelativeIndex(to, |s|);
    if a < b then s[a..b] else []
  }

  /** The sample index `Math.floor(f * n)` for a fraction `f` of `n` samples. */
  function IndexAt(f: real, n: nat): int {
    (f * n as real).Floor
  }

  /** `trim`: keeps the samples from `floor(start * N)` up to `floor(end * N)`, re-encoded. */
  function Trim(data: seq<byte>, options: Settings): (r: Result<seq<byte>, WavError>)
    ensures Decode(data).Err? ==> r == Err(RangeError)
    ensures Decode(data).Ok? && Encodable(|Decode(data).value|) ==> r.Ok?
    ensures r.Ok? ==> HeaderSize <= |r.value| <= HeaderSize + 2 * |Decode(data).value|
  {
    match Decode(data)
    case Err(e) => Err(e)
    case Ok(s) =>
      var start, end := options.start.GetOr(0.0), options.end.GetOr(1.0);
      Encode(Slice(s, IndexAt(start, |s|), IndexAt(end, |s|)))
  }

  lemma IndexAtInRange(f: real, g: real, n: nat)
    requires 0.0 <= f <= g <= 1.0
    ensures 0 <= IndexAt(f, n) <= IndexAt(g, n) <= n
  {
    assert 0.0 <= f * n as real <= g * n as real <= n as real by {
      assert (g - f) * n as real >= 0.0;
      assert (1.0 - g) * n as real >= 0.0;
    }
  }

  /**
   * For 0 <= start <= end <= 1, `trim` keeps exactly the window
   * [floor(start * N), floor(end * N)) of the decoded samples, which decode back requantized.
   */
  lemma TrimSelects(data: seq<byte>, options: Settings)
    requires Decode(data).Ok?
    requires 0.0 <= options.start.GetOr(0.0) <= options.end.GetOr(1.0) <= 1.0
    ensures var s := Decode(data).value;
      var from, to := IndexAt(options.start.GetOr(0.0), |s|), IndexAt(options.end.GetOr(1.0), |s|);
      && 0 <= from <= to <= |s|
      && Trim(data, options) == Encode(s[from..to])
      && (Encodable(to - from) ==> Decode(Trim(data, options).value) == Ok(Requantized(s[from..to])))
  {
    var s := Decode(data).value;
    var from, to := IndexAt(options.start.GetOr(0.0), |s|), IndexAt(options.end.GetOr(1.0), |s|);
    IndexAtInRange(options.start.GetOr(0.0), options.end.GetOr(1.0), |s|);
    if Encodable(to - from) {
      RoundTrip(s[from..to]);
    }
  }

  /** With the default options `trim` re-encodes all N samples. */
  lemma TrimDefaultsKeepAll(data: seq<byte>)
    requires Decode(data).Ok?
    ensures Trim(data, Settings(None, None, None, None, None)) == Encode(Decode(data).value)
  {
    var s := Decode(data).value;
    assert IndexAt(1.0, |s|) == |s|;
    assert s[0..|s|] == s;
  }

  /** On 100 samples, trimming to [0.25, 0.75] keeps the 50 samples at indices 25 to 74. */
  lemma TrimQuarterToThreeQuarters(data: seq<byte>)
    requires Decode(data).Ok? && |Decode(data).value| == 100
    ensures Trim(data, Settings(None, Some(0.25), Some(0.75), None, None)) == Encode(Decode(data).value[25..75])
  {
    assert IndexAt(0.25, 100) == 25;
    assert IndexAt(0.75, 100) == 75;
  }

  // ---------------------------------------------------------------- fade

  /** The fade-in factor of sample i: i / k on the first k = floor(fadeIn * n) samples, else 1. */
  function FadeInFactor(n: nat, fadeIn: real, i: nat): real {
    var k := IndexAt(fadeIn, n);
    if 0.0 < fadeIn && i < k then i as real / k as real else 1.0
  }

  /** The fade-out factor of sample i: (n - i) / m on the last m = floor(fadeOut * n) samples, else 1. */
  function FadeOutFactor(n: nat, fadeOut: real, i: nat): real
    requires i < n
  {
    var m := IndexAt(fadeOut, n);
    if 0.0 < fadeOut && n - m <= i then (n - i) as real / m as real else 1.0
  }

  /** One sample multiplied by a ramp factor (`samples[i] *= factor`). */
  function Attenuate(x: real, factor: real): real {
    x * factor
  }

  /**
   * Stands for the NaN that `undefined * factor` stores when the fade-in loop runs past the end of
   * the sample array. Clamping, rounding and `writeInt16LE` turn NaN into the bytes 0, 0, as they do
   * 0.0, and the fade-out multiplication keeps both, so 0.0 yields the same output buffer.
   */
  const NotANumber: real := 0.0

  /** The array length after the fade-in loop: assigning past the end grows a JavaScript array to k. */
  function FadeInLength(n: nat, fadeIn: real): (len: nat)
    ensures n <= len
    ensures fadeIn <= 1.0 ==> len == n
  {
    var k := IndexAt(fadeIn, n);
    if fadeIn <= 1.0 then
      IndexAtInRange(0.0, Max(fadeIn, 0.0), n);
      n
    else if n < k then k
    else n
  }

  /** Sample i after the fade-in: scaled by its factor, or NaN where the array grew. */
  function FadeInAt(s: seq<real>, fadeIn: real, i: nat): real {
    if i < |s| then Attenuate(s[i], FadeInFactor(|s|, fadeIn, i)) else NotANumber
  }

  /** Each sample times its fade-in factor; positions grown past the end hold NaN. */
  function FadedIn(s: seq<real>, fadeIn: real): (r: seq<real>)
    ensures |r| == FadeInLength(|s|, fadeIn)
  {
    seq(FadeInLength(|s|, fadeIn), i requires 0 <= i < FadeInLength(|s|, fadeIn) => FadeInAt(s, fadeIn, i))
  }

  /** Each sample times its fade-out factor. */
  function FadedOut(s: seq<real>, fadeOut: real): (r: seq<real>)
    ensures |r| == |s|
  {
    seq(|s|, i requires 0 <= i < |s| => Attenuate(s[i], FadeOutFactor(|s|, fadeOut, i)))
  }

  /** The samples `fade` produces: the fade-in applied first, then the fade-out. */
  function Faded(s: seq<real>, fadeIn: real, fadeOut: real): (r: seq<real>)
    ensures |r| == FadeInLength(|s|, fadeIn)
  {
    FadedOut(FadedIn(s, fadeIn), fadeOut)
  }

  /** What `fade` returns or throws. */
  function FadeResult(data: seq<byte>, options: Settings): (r: Result<seq<byte>, WavError>)
    ensures Decode(data).Err? ==> r == Err(RangeError)
    ensures r.Ok? ==> HeaderSize + 2 * |Decode(data).value| <= |r.value|
    ensures Decode(data).Ok? && options.fadeIn.GetOr(0.0) <= 1.0 && Encodable(|Decode(data).value|) ==>
      r.Ok? && |r.value| == HeaderSize + 2 * |Decode(data).value|
  {
    match Decode(data)
    case Err(e) => Err(e)
    case Ok(s) => Encode(Faded(s, options.fadeIn.GetOr(0.0), options.fadeOut.GetOr(0.0)))
  }

  /** A copy of `samples` lengthened to `len` with NaN, as a JavaScript array grows on assignment. */
  method Grow(samples: array<real>, len: nat) returns (grown: array<real>)
    requires samples.Length <= len
    ensures fresh(grown)
    ensures grown[..] == samples[..] + seq(len - samples.Length, _ => NotANumber)
  {
    grown := new real[len](i reads samples => if 0 <= i < samples.Length then samples[i] else NotANumber);
  }

  /**
   * The fade-in loop of `fade`: the first k = floor(fadeIn * N) samples scaled by i / k. The
   * result is `samples` itself unless k > N, when the loop writes past the end and the array grows.
   */
  method FadeInPlace(samples: array<real>, fadeIn: real) returns (faded: array<real>)
    modifies samples
    ensures faded == samples || fresh(faded)
    ensures faded[..] == FadedIn(old(samples[..]), fadeIn)
  {
    ghost var s := samples[..];
    var n := samples.Length;
    faded := samples;
    if fadeIn > 0.0 {
      var fadeInSamples := IndexAt(fadeIn, n);
      assert 0 <= fadeInSamples by {
        assert fadeIn * n as real >= 0.0;
      }
      if n < fadeInSamples {
        faded := Grow(samples, fadeInSamples);
      }
      var i := 0;
      while i < fadeInSamples
        invariant 0 <= i <= fadeInSamples && faded.Length == FadeInLength(n, fadeIn)
        invariant forall j :: 0 <= j < i ==> faded[j] == FadeInAt(s, fadeIn, j)
        invariant forall j :: i <= j < faded.Length ==> faded[j] == if j < n then s[j] else NotANumber
      {
        var factor := i as real / fadeInSamples as real;
        FadeInStep(s, fadeIn, i);
        faded[i] := Attenuate(faded[i], factor);
        i := i + 1;
      }
      forall j | fadeInSamples <= j < faded.Length ensures faded[j] == FadedIn(s, fadeIn)[j] {
        FadeInUntouched(s, fadeIn, j);
      }
    } else {
      forall j | 0 <= j < n ensures faded[j] == FadedIn(s, fadeIn)[j] {
        FadeInUntouched(s, fadeIn, j);
      }
    }
    assert faded[..] == FadedIn(s, fadeIn);
  }

  /** Inside the fade-in, sample i (NaN when grown) is scaled by i/k. */
  lemma FadeInStep(s: seq<real>, fadeIn: real, i: nat)
    requires 0.0 < fadeIn && i < IndexAt(fadeIn, |s|)
    ensures FadeInAt(s, fadeIn, i) == Attenuate(if i < |s| then s[i] else NotANumber, i as real / IndexAt(fadeIn, |s|) as real)
  {
  }

  /** Outside the fade-in, an original sample is kept. */
  lemma FadeInUntouched(s: seq<real>, fadeIn: real, j: nat)
    requires j < |s| && (fadeIn <= 0.0 || IndexAt(fadeIn, |s|) <= j)
    ensures FadeInAt(s, fadeIn, j) == s[j]
  {
  }

  /** The fade-out loop of `fade`: the last floor(fadeOut * N) samples scaled in place by (m - i) / m. */
  method FadeOutPlace(samples: array<real>, fadeOut: real)
    modifies samples
    ensures samples[..] == FadedOut(old(samples[..]), fadeOut)
  {
    var n := samples.Length;
    if fadeOut > 0.0 {
      var fadeOutSamples := IndexAt(fadeOut, n);
      assert 0 <= fadeOutSamples by {
        assert fadeOut * n as real >= 0.0;
      }
      var i := 0;
      while i < fadeOutSamples
        invariant 0 <= i <= fadeOutSamples
        invariant forall j :: 0 <= j < n && n - fadeOutSamples + i <= j ==> samples[j] == old(samples[j])
        invariant forall j :: 0 <= j < n && j < n - fadeOutSamples + i ==>
          samples[j] == Attenuate(old(samples[j]), FadeOutFactor(n, fadeOut, j))
      {
        var factor := (fadeOutSamples - i) as real / fadeOutSamples as real;
        var index := n - fadeOutSamples + i;
        if 0 <= index < n {
          samples[index] := Attenuate(samples[index], factor);
        }
        i := i + 1;
      }
    }
    assert samples[..] == FadedOut(old(samples[..]), fadeOut);
  }

  /** `fade`: decodes, applies the fade-in then the fade-out in place, and re-encodes. */
  method Fade(data: seq<byte>, options: Settings) returns (r: Result<seq<byte>, WavError>)
    ensures r == FadeResult(data, options)
  {
    var fadeIn, fadeOut := options.fadeIn.GetOr(0.0), options.fadeOut.GetOr(0.0);
    var decoded := BufferToSamples(data);
    if decoded.Err? {
      return Err(decoded.error);
    }
    var s := decoded.value;
    var samples := new real[|s|](i requires 0 <= i < |s| => s[i]);
    assert samples[..] == s;
    var faded := FadeInPlace(samples, fadeIn);
    FadeOutPlace(faded, fadeOut);
    r := SamplesToBuffer(faded[..]);
  }

  /**
   * With k = floor(fadeIn * N), L the array length after the fade-in (N unless k > N) and
   * m = floor(fadeOut * L): sample i < k is multiplied by i / k, the j-th of the last m samples by
   * (m - j) / m (both when the windows overlap), and every other sample is kept.
   */
  lemma FadeRegions(s: seq<real>, fadeIn: real, fadeOut: real, i: nat)
    requires i < |s|
    ensures var n, k := FadeInLength(|s|, fadeIn), IndexAt(fadeIn, |s|);
      var m := IndexAt(fadeOut, n);
      var inside, outside := 0.0 < fadeIn && i < k, 0.0 < fadeOut && n - m <= i;
      && (inside && !outside ==> Faded(s, fadeIn, fadeOut)[i] == s[i] * (i as real / k as real))
      && (outside && !inside ==> Faded(s, fadeIn, fadeOut)[i] == s[i] * ((m - (i - (n - m))) as real / m as real))
      && (inside && outside ==>
            Faded(s, fadeIn, fadeOut)[i] == s[i] * (i as real / k as real) * ((m - (i - (n - m))) as real / m as real))
      && (!inside && !outside ==> Faded(s, fadeIn, fadeOut)[i] == s[i])
  {
    var f := FadedIn(s, fadeIn);
    var n := |f|;
    assert f[i] == FadeInAt(s, fadeIn, i);
    assert Faded(s, fadeIn, fadeOut)[i] == Attenuate(f[i], FadeOutFactor(n, fadeOut, i));
  }

  /**
   * A fade-in longer than the recording (k = floor(fadeIn * N) > N) grows it to k samples, the
   * added ones NaN, which the encoder writes as zero.
   */
  lemma FadeInOvershoot(s: seq<real>, fadeIn: real, fadeOut: real)
    requires 0.0 < fadeIn && |s| < IndexAt(fadeIn, |s|)
    ensures |Faded(s, fadeIn, fadeOut)| == IndexAt(fadeIn, |s|)
    ensures forall j :: |s| <= j < IndexAt(fadeIn, |s|) ==> Faded(s, fadeIn, fadeOut)[j] == NotANumber
  {
    var f := FadedIn(s, fadeIn);
    forall j | |s| <= j < IndexAt(fadeIn, |s|) ensures Faded(s, fadeIn, fadeOut)[j] == NotANumber {
      assert f[j] == NotANumber;
      assert Faded(s, fadeIn, fadeOut)[j] == Attenuate(f[j], FadeOutFactor(|f|, fadeOut, j));
    }
  }

  /** The output of a fade decodes to as many samples as the faded array holds: N whenever fadeIn <= 1. */
  lemma FadeKeepsCount(data: seq<byte>, options: Settings)
    requires Decode(data).Ok? && FadeResult(data, options).Ok?
    ensures Decode(FadeResult(data, options).value).Ok?
    ensures |Decode(FadeResult(data, options).value).value| == FadeInLength(|Decode(data).value|, options.fadeIn.GetOr(0.0))
    ensures options.fadeIn.GetOr(0.0) <= 1.0 ==> |Decode(FadeResult(data, options).value).value| == |Decode(data).value|
  {
    var s := Decode(data).value;
    var f := Faded(s, options.fadeIn.GetOr(0.0), options.fadeOut.GetOr(0.0));
    assert FadeResult(data, options) == Encode(f);
    RoundTrip(f);
  }

  /** A 10% fade-in over 100 samples of 1.0 ramps sample 0 to 0 and sample 9 to 0.9. */
  lemma FadeInRamp(s: seq<real>)
    requires |s| == 100 && forall i :: 0 <= i < |s| ==> s[i] == 1.0
    ensures Faded(s, 0.1, 0.0)[0] == 0.0
    ensures Faded(s, 0.1, 0.0)[9] == 0.9
    ensures Faded(s, 0.1, 0.0)[10] == 1.0
  {
    assert IndexAt(0.1, 100) == 10;
  }

  // ---------------------------------------------------------------- convert

  /** `convert`: declared for resampling, but returns its input untouched. */
  function Convert(data: seq<byte>, options: Settings): (r: seq<byte>)
    ensures r == data
  {
    data
  }

  // ---------------------------------------------------------------- analyze

  /**
   * The computable part of what `analyze` returns. `average` is None where JavaScript
   * produces NaN (no samples); `meanSquare` is the value whose square root is `rms`.
   */
  datatype Analysis = Analysis(duration: real, average: Option<real>, meanSquare: Option<real>, peak: real)

  /** The statistics `analyze` reports for decoded samples; the averages are absent for no samples. */
  function Statistics(s: seq<real>): Analysis {
    var n := |s| as real;
    Analysis(n / SampleRate as real,
             if s == [] then None else Some(Sum(s) / n),
             if s == [] then None else Some(SumOfSquares(s) / n),
             Peak(s))
  }

  /** What `analyze` returns or throws. */
  function AnalyzeResult(data: seq<byte>): (r: Result<Analysis, WavError>)
    ensures r.Err? <==> Decode(data).Err?
    ensures r.Ok? ==> r.value.duration == |Decode(data).value| as real / SampleRate as real
    ensures r.Ok? ==> (r.value.average.None? <==> |data| <= HeaderSize)
    ensures r.Ok? ==> r.value.average.None? == r.value.meanSquare.None? && 0.0 <= r.value.peak
  {
    match Decode(data)
    case Err(e) => Err(e)
    case Ok(s) => Ok(Statistics(s))
  }

  lemma PrefixStep(s: seq<real>, i: nat)
    requires i < |s|
    ensures Sum(s[..i + 1]) == Sum(s[..i]) + s[i]
    ensures SumOfSquares(s[..i + 1]) == SumOfSquares(s[..i]) + s[i] * s[i]
    ensures Peak(s[..i + 1]) == Max(Peak(s[..i]), Abs(s[i]))
  {
    assert s[..i + 1][..i] == s[..i];
  }

  /** The single pass of `analyze` over the samples, accumulating sum, sum of squares and peak. */
  method Accumulate(samples: seq<real>) returns (sum: real, squares: real, peak: real)
    ensures sum == Sum(samples) && squares == SumOfSquares(samples) && peak == Peak(samples)
  {
    sum, squares, peak := 0.0, 0.0, 0.0;
    var i := 0;
    assert samples[..0] == [];
    while i < |samples|
      invariant 0 <= i <= |samples|
      invariant sum == Sum(samples[..i])
      invariant squares == SumOfSquares(samples[..i])
      invariant peak == Peak(samples[..i])
    {
      PrefixStep(samples, i);
      var sample := samples[i];
      sum := sum + sample;
      squares := squares + sample * sample;
      peak := Max(peak, Abs(sample));
      i := i + 1;
    }
    assert samples[..i] == samples;
  }

  /** `analyze`: decodes the buffer, then reports duration, average, mean square and peak. */
  method Analyze(data: seq<byte>) returns (r: Result<Analysis, WavError>)
    ensures r == AnalyzeResult(data)
  {
    var decoded := BufferToSamples(data);
    if decoded.Err? {
      return Err(decoded.error);
    }
    var samples := decoded.value;
    var sum, squares, peak := Accumulate(samples);
    var n := |samples| as real;
    var average := if samples == [] then None else Some(sum / n);
    var meanSquare := if samples == [] then None else Some(squares / n);
    r := Ok(Analysis(n / SampleRate as real, average, meanSquare, peak));
    assert r.value == Statistics(samples);
  }

  lemma DivStep(total: real, n: real, p: real)
    requires 0.0 < n && -(n * p) <= total <= n * p
    ensures -p <= total / n <= p
  {
    assert total / n * n == total;
  }

  lemma SquareLe(x: real, b: real)
    requires Abs(x) <= b
    ensures 0.0 <= x * x <= b * b
  {
    assert x * x == Abs(x) * Abs(x);
    MulLe(Abs(x), b, Abs(x));
    MulLe(Abs(x), b, b);
  }

  /** The sum of N samples bounded in magnitude by b lies within N * b either way. */
  lemma {:induction false} SumBounded(s: seq<real>, b: real)
    requires forall i :: 0 <= i < |s| ==> Abs(s[i]) <= b
    ensures -(|s| as real * b) <= Sum(s) <= |s| as real * b
  {
    if s != [] {
      var init := s[..|s| - 1];
      SumBounded(init, b);
      assert Abs(s[|s| - 1]) <= b;
      assert Sum(s) == Sum(init) + s[|s| - 1];
      assert |s| as real * b == |init| as real * b + b;
    }
  }

  /** The sum of squares of N samples bounded in magnitude by b is at most N * b * b. */
  lemma {:induction false} SumOfSquaresBounded(s: seq<real>, b: real)
    requires forall i :: 0 <= i < |s| ==> Abs(s[i]) <= b
    ensures 0.0 <= SumOfSquares(s) <= |s| as real * (b * b)
  {
    if s != [] {
      var init := s[..|s| - 1];
      SumOfSquaresBounded(init, b);
      SquareLe(s[|s| - 1], b);
      assert |s| as real * (b * b) == |init| as real * (b * b) + b * b;
    }
  }

  lemma DivNonNegative(total: real, n: real)
    requires 0.0 < n && 0.0 <= total
    ensures 0.0 <= total / n
  {
    assert total / n * n == total;
  }

  /** The average of a non-empty recording lies within its peak either way. */
  lemma AverageBound(s: seq<real>)
    requires s != []
    ensures Abs(Sum(s) / |s| as real) <= Peak(s)
  {
    var p := Peak(s);
    forall i | 0 <= i < |s| ensures Abs(s[i]) <= p {
      PeakBounds(s, i);
    }
    SumBounded(s, p);
    DivStep(Sum(s), |s| as real, p);
  }

  /** The mean square of a non-empty recording is at most its peak squared. */
  lemma MeanSquareBound(s: seq<real>)
    requires s != []
    ensures 0.0 <= SumOfSquares(s) / |s| as real <= Peak(s) * Peak(s)
  {
    var p := Peak(s);
    forall i | 0 <= i < |s| ensures Abs(s[i]) <= p {
      PeakBounds(s, i);
    }
    SumOfSquaresBounded(s, p);
    DivStep(SumOfSquares(s), |s| as real, p * p);
    DivNonNegative(SumOfSquares(s), |s| as real);
  }

  /**
   * For samples in [-1, 1]: the duration is N / 44100 seconds, the peak lies in [0, 1] and bounds
   * every sample, the average is no larger in magnitude than the peak, and the mean square is no
   * larger than the peak squared (so `rms` never exceeds `peak`).
   */
  lemma StatisticsBounds(s: seq<real>)
    requires forall i :: 0 <= i < |s| ==> -1.0 <= s[i] <= 1.0
    ensures var a := Statistics(s);
      && a.duration * 44100.0 == |s| as real
      && 0.0 <= a.peak <= 1.0
      && (forall i :: 0 <= i < |s| ==> Abs(s[i]) <= a.peak)
      && (a.average.Some? ==> Abs(a.average.value) <= a.peak)
      && (a.meanSquare.Some? ==> 0.0 <= a.meanSquare.value <= a.peak * a.peak)
  {
    forall i | 0 <= i < |s| ensures Abs(s[i]) <= Peak(s) {
      PeakBounds(s, i);
    }
    PeakAtMost(s, 1.0);
    if s != [] {
      AverageBound(s);
      MeanSquareBound(s);
    }
  }

  /** Every decodable buffer satisfies the bounds above, since decoded samples lie in [-1, 1]. */
  lemma AnalyzeBounds(data: seq<byte>)
    requires Decode(data).Ok?
    ensures var s, a := Decode(data).value, AnalyzeResult(data).value;
      && a.duration * 44100.0 == |s| as real
      && 0.0 <= a.peak <= 1.0
      && (forall i :: 0 <= i < |s| ==> Abs(s[i]) <= a.peak)
      && (a.average.Some? ==> Abs(a.average.value) <= a.peak)
      && (a.meanSquare.Some? ==> 0.0 <= a.meanSquare.value <= a.peak * a.peak)
  {
    var s := Decode(data).value;
    forall i | 0 <= i < |s| ensures -1.0 <= s[i] <= 1.0 {
      assert s[i] in s;
    }
    StatisticsBounds(s);
  }
}
