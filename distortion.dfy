/**
 * The distortion stage of Distortion.h: `process` snapshots the dry signal,
 * runs the input filters, distorts every sample (drive, waveshaper, autogain,
 * output gain) and mixes the dry signal back in, all in place on the block.
 * Samples are reals; the C library's `atan`, `erf` and `sqrt` and JUCE's
 * `Decibels::decibelsToGain` are supplied as functions with the properties
 * the proofs rely on, and the JUCE filter chain's output is supplied by the
 * caller.
 */
module DistortionEffect {
  import opened Reals

  /** `float_Pi`, as the header defines it. */
  const FloatPi: real := 3.1415

  /** `DistortionParameters`: the controls `setParameters` copies out of the parameter tree. */
  datatype Parameters = Parameters(drive: real, mix: real, anger: real, volume: real,
                                   hpfFreq: int, lpfFreq: int, distortionType: int)

  /** The library functions the stage calls. */
  datatype MathLib = MathLib(atan: real -> real, erf: real -> real, sqrt: real -> real,
                             decibelsToGain: real -> real)

  ghost predicate IsOdd(f: real -> real) {
    forall x, y :: x + y == 0.0 ==> f(x) == -f(y)
  }

  ghost predicate BoundedBy(f: real -> real, bound: real) {
    forall x :: -bound < f(x) < bound
  }

  ghost predicate PositiveOnPositive(f: real -> real) {
    forall y :: y > 0.0 ==> f(y) > 0.0
  }

  ghost predicate IsSquareRoot(f: real -> real) {
    PositiveOnPositive(f) && forall y :: y > 0.0 ==> f(y) * f(y) == y
  }

  /** The parameter range the processor declares for `anger`. */
  predicate AngerInRange(anger: real) {
    0.0 <= anger <= 1.0
  }

  /** `angerValue`, the shaper coefficient each waveshaper derives from `anger`. */
  function AngerCoefficient(distortionType: int, anger: real): real {
    if distortionType == 0 then -0.9 * anger + 1.0
    else if distortionType == 3 then 4.5 * anger + 0.5
    else -2.5 * anger + 3.0
  }

  /** Every coefficient stays strictly positive over the declared anger range. */
  lemma AngerCoefficientBounds(anger: real)
    requires AngerInRange(anger)
    ensures 0.1 <= AngerCoefficient(0, anger) <= 1.0
    ensures 0.5 <= AngerCoefficient(1, anger) <= 3.0
    ensures 0.5 <= AngerCoefficient(2, anger) <= 3.0
    ensures 0.5 <= AngerCoefficient(3, anger) <= 5.0
  {
  }

  // ---------------------------------------------------------------------
  // The four waveshapers of `distortSample`.
  // ---------------------------------------------------------------------

  /** Type 0, inverse absolute value: `x / (a + |x|)`. */
  function InverseAbsolute(x: real, a: real): real
    requires a > 0.0
  {
    x / (a + Abs(x))
  }

  /** Type 1, arctangent: `(2 / float_Pi) * atan((float_Pi / a) * x)`. */
  function Arctangent(x: real, a: real, atan: real -> real): real
    requires a > 0.0
  {
    (2.0 / FloatPi) * atan((FloatPi / a) * x)
  }

  /** Type 2, error function: `erf(x * sqrt(float_Pi) / a)`. */
  function ErrorFunction(x: real, a: real, erf: real -> real, sqrt: real -> real): real
    requires a > 0.0
  {
    erf(x * sqrt(FloatPi) / a)
  }

  /** Type 3, inverse square root: `x / sqrt(1 / a + x * x)`. */
  function InverseSquareRoot(x: real, a: real, sqrt: real -> real): real
    requires a > 0.0 && PositiveOnPositive(sqrt)
  {
    assert 1.0 / a > 0.0 && x * x >= 0.0;
    x / sqrt(1.0 / a + x * x)
  }

  /**
   * `distortSample`: the waveshaper the type selects, with its coefficient
   * from `anger`; a type outside 0..3 matches no case and leaves the sample.
   */
  function DistortSample(x: real, distortionType: int, anger: real, lib: MathLib): real
    requires PositiveOnPositive(lib.sqrt) && AngerInRange(anger)
  {
    var a := AngerCoefficient(distortionType, anger);
    AngerCoefficientBounds(anger);
    if distortionType == 0 then InverseAbsolute(x, a)
    else if distortionType == 1 then Arctangent(x, a, lib.atan)
    else if distortionType == 2 then ErrorFunction(x, a, lib.erf, lib.sqrt)
    else if distortionType == 3 then InverseSquareRoot(x, a, lib.sqrt)
    else x
  }

  /** A type outside 0..3 leaves the sample unchanged. */
  lemma UnknownTypeUnchanged(x: real, distortionType: int, anger: real, lib: MathLib)
    requires PositiveOnPositive(lib.sqrt) && AngerInRange(anger)
    requires distortionType < 0 || distortionType > 3
    ensures DistortSample(x, distortionType, anger, lib) == x
  {
  }

  /** A quotient whose denominator exceeds its numerator's magnitude lies strictly inside (-1, 1). */
  lemma QuotientInsideUnit(x: real, d: real)
    requires d > Abs(x)
    ensures -1.0 < x / d < 1.0
  {
    var r := x / d;
    assert r * d == x;
    if r >= 1.0 {
      assert false;
    }
    if r <= -1.0 {
      assert false;
    }
  }

  /** For a positive coefficient the inverse-absolute shaper is odd and stays strictly inside (-1, 1). */
  lemma InverseAbsoluteOddAndBounded(x: real, a: real)
    requires a > 0.0
    ensures InverseAbsolute(-x, a) == -InverseAbsolute(x, a)
    ensures -1.0 < InverseAbsolute(x, a) < 1.0
  {
    QuotientInsideUnit(x, a + Abs(x));
    assert Abs(-x) == Abs(x);
  }

  lemma ArctangentOdd(x: real, a: real, atan: real -> real)
    requires a > 0.0 && IsOdd(atan)
    ensures Arctangent(-x, a, atan) == -Arctangent(x, a, atan)
  {
    var c := FloatPi / a;
    assert c * -x + c * x == 0.0;
  }

  lemma ArctangentBounded(x: real, a: real, atan: real -> real)
    requires a > 0.0 && BoundedBy(atan, 1.5708)
    ensures -1.0001 < Arctangent(x, a, atan) < 1.0001
  {
    var c := FloatPi / a;
    var t := atan(c * x);
    assert -1.5708 < t < 1.5708;
    ScaleBetween(2.0 / FloatPi, t, 1.5708);
  }

  lemma ScaleBetween(c: real, t: real, bound: real)
    requires c > 0.0 && -bound < t < bound
    ensures -(c * bound) < c * t < c * bound
  {
  }

  lemma ErrorFunctionOdd(x: real, a: real, erf: real -> real, sqrt: real -> real)
    requires a > 0.0 && IsOdd(erf)
    ensures ErrorFunction(-x, a, erf, sqrt) == -ErrorFunction(x, a, erf, sqrt)
  {
    var c := sqrt(FloatPi);
    assert -x * c / a + x * c / a == 0.0;
  }

  lemma InverseSquareRootOdd(x: real, a: real, sqrt: real -> real)
    requires a > 0.0 && PositiveOnPositive(sqrt)
    ensures InverseSquareRoot(-x, a, sqrt) == -InverseSquareRoot(x, a, sqrt)
  {
    assert (-x) * (-x) == x * x;
  }

  lemma InverseSquareRootBounded(x: real, a: real, sqrt: real -> real)
    requires a > 0.0 && IsSquareRoot(sqrt)
    ensures -1.0 < InverseSquareRoot(x, a, sqrt) < 1.0
  {
    var y := 1.0 / a + x * x;
    assert 1.0 / a > 0.0;
    var s := sqrt(y);
    assert s > 0.0 && s * s == y;
    SquareRootExceeds(x, s);
    QuotientInsideUnit(x, s);
  }

  /** A positive number whose square exceeds `x * x` exceeds `|x|`. */
  lemma SquareRootExceeds(x: real, s: real)
    requires s > 0.0 && s * s > x * x
    ensures s > Abs(x)
  {
    if s <= Abs(x) {
      ProductBounds(s, s, Abs(x));
      ProductBounds(Abs(x), s, Abs(x));
      assert false;
    }
  }

  /** `a * m` is non-negative and, for `m` at most `k`, at most `a * k`. */
  lemma ProductBounds(a: real, m: real, k: real)
    requires a >= 0.0 && m >= 0.0
    ensures a * m >= 0.0
    ensures m <= k ==> a * m <= a * k
  {
  }

  /** The library functions every waveshaper's oddness rests on. */
  ghost predicate OddShapers(lib: MathLib) {
    IsOdd(lib.atan) && IsOdd(lib.erf) && PositiveOnPositive(lib.sqrt)
  }

  /** Every waveshaper is odd: a negated input gives the negated output. */
  lemma DistortSampleOdd(x: real, distortionType: int, anger: real, lib: MathLib)
    requires OddShapers(lib) && AngerInRange(anger)
    ensures DistortSample(-x, distortionType, anger, lib) == -DistortSample(x, distortionType, anger, lib)
  {
    AngerCoefficientBounds(anger);
    var a := AngerCoefficient(distortionType, anger);
    if distortionType == 0 {
      InverseAbsoluteOddAndBounded(x, a);
    } else if distortionType == 1 {
      ArctangentOdd(x, a, lib.atan);
    } else if distortionType == 2 {
      ErrorFunctionOdd(x, a, lib.erf, lib.sqrt);
    } else if distortionType == 3 {
      InverseSquareRootOdd(x, a, lib.sqrt);
    }
  }

  /** The library functions the waveshapers' bounds rest on. */
  ghost predicate BoundedShapers(lib: MathLib) {
    BoundedBy(lib.atan, 1.5708) && BoundedBy(lib.erf, 1.0) && IsSquareRoot(lib.sqrt)
  }

  /** Types 0, 2 and 3 keep the output strictly inside (-1, 1); type 1 only within 2/3.1415 * 1.5708. */
  lemma DistortSampleBounded(x: real, distortionType: int, anger: real, lib: MathLib)
    requires BoundedShapers(lib) && AngerInRange(anger)
    ensures 0 <= distortionType <= 3 && distortionType != 1 ==>
              -1.0 < DistortSample(x, distortionType, anger, lib) < 1.0
    ensures distortionType == 1 ==> -1.0001 < DistortSample(x, distortionType, anger, lib) < 1.0001
  {
    AngerCoefficientBounds(anger);
    var a := AngerCoefficient(distortionType, anger);
    if distortionType == 0 {
      InverseAbsoluteOddAndBounded(x, a);
    } else if distortionType == 1 {
      ArctangentBounded(x, a, lib.atan);
    } else if distortionType == 2 {
      assert -1.0 < lib.erf(x * lib.sqrt(FloatPi) / a) < 1.0;
    } else if distortionType == 3 {
      InverseSquareRootBounded(x, a, lib.sqrt);
    }
  }

  // ---------------------------------------------------------------------
  // The per-sample wet path and the mix.
  // ---------------------------------------------------------------------

  /** `autoGain`'s anger factor `1 - 0.7 anger` lies in [0.3, 1]. */
  lemma AutoGainAngerFactor(anger: real)
    requires AngerInRange(anger)
    ensures 0.3 <= -0.7 * anger + 1.0 <= 1.0
  {
  }

  /** `outputGain`: the volume in decibels as a linear gain. */
  function OutputGain(p: Parameters, lib: MathLib): real {
    lib.decibelsToGain(p.volume)
  }

  /** `autoGain`: drive/-5 dB, scaled down by anger. */
  function AutoGain(p: Parameters, lib: MathLib): real {
    lib.decibelsToGain(p.drive / -5.0) * (-0.7 * p.anger + 1.0)
  }

  /** One sample through `distortBuffer`: drive, then the waveshaper, then autogain, then volume. */
  function WetSample(x: real, p: Parameters, lib: MathLib): real
    requires PositiveOnPositive(lib.sqrt) && AngerInRange(p.anger)
  {
    DistortSample(x * (p.drive / 10.0 + 1.0), p.distortionType, p.anger, lib) * AutoGain(p, lib) * OutputGain(p, lib)
  }

  /** Every waveshaper maps silence to silence, so the wet path does too. */
  lemma SilenceStaysSilent(p: Parameters, lib: MathLib)
    requires OddShapers(lib) && AngerInRange(p.anger)
    ensures WetSample(0.0, p, lib) == 0.0
  {
    DistortSampleOdd(0.0, p.distortionType, p.anger, lib);
    assert 0.0 * (p.drive / 10.0 + 1.0) == 0.0;
  }

  /** `applyMix` on one sample: `wet * mix + dry * (1 - mix)`. */
  function Mix(wet: real, dry: real, mix: real): real {
    wet * mix + dry * (1.0 - mix)
  }

  /** Mix 1 is all wet, mix 0 all dry, and a mix in [0, 1] stays between the two. */
  lemma MixProperties(wet: real, dry: real, mix: real)
    ensures Mix(wet, dry, 1.0) == wet && Mix(wet, dry, 0.0) == dry
    ensures 0.0 <= mix <= 1.0 && wet <= dry ==> wet <= Mix(wet, dry, mix) <= dry
    ensures 0.0 <= mix <= 1.0 && dry <= wet ==> dry <= Mix(wet, dry, mix) <= wet
  {
    if 0.0 <= mix <= 1.0 {
      var d := wet - dry;
      assert Mix(wet, dry, mix) == dry + d * mix;
      if d >= 0.0 {
        UnitScale(d, mix);
      } else {
        UnitScale(-d, mix);
        assert -d * mix == -(d * mix);
      }
    }
  }

  lemma UnitScale(d: real, m: real)
    requires d >= 0.0 && 0.0 <= m <= 1.0
    ensures 0.0 <= d * m <= d
  {
    ProductBounds(d, m, 1.0);
  }

  class Distortion {
    var parameters: Parameters
    var numChannels: nat
    var bufferSize: nat
    /** The dry copy of the block, `numChannels` by `bufferSize`. */
    var dryBuffer: array2<real>
    const lib: MathLib

    ghost predicate Valid()
      reads this
    {
      && PositiveOnPositive(lib.sqrt)
      && AngerInRange(parameters.anger)
      && dryBuffer.Length0 == numChannels && dryBuffer.Length1 == bufferSize
    }

    /** A cell `prepare` sized the stage for. */
    predicate InRegion(c: int, s: int)
      reads this
    {
      0 <= c < numChannels && 0 <= s < bufferSize
    }

    /**
     * The source leaves the channel count and block size unset until
     * `prepare`; here they start at 0, so the region is empty until then.
     */
    constructor (lib: MathLib, parameters: Parameters)
      requires PositiveOnPositive(lib.sqrt) && AngerInRange(parameters.anger)
      ensures Valid() && this.lib == lib && this.parameters == parameters
      ensures numChannels == 0 && bufferSize == 0
    {
      this.lib := lib;
      this.parameters := parameters;
      numChannels, bufferSize := 0, 0;
      dryBuffer := new real[0, 0];
    }

    /** `setParameters`, with the values the tree holds; the tree keeps anger in its declared range. */
    method SetParameters(p: Parameters)
      requires Valid() && AngerInRange(p.anger)
      modifies this`parameters
      ensures Valid() && parameters == p
    {
      parameters := p;
    }

    /** `prepare`: records the block shape and sizes the dry buffer to it. */
    method Prepare(maxBlockSize: nat, outputChannels: nat)
      requires Valid()
      modifies this`numChannels, this`bufferSize, this`dryBuffer
      ensures Valid() && fresh(dryBuffer)
      ensures numChannels == outputChannels && bufferSize == maxBlockSize
    {
      bufferSize := maxBlockSize;
      numChannels := outputChannels;
      dryBuffer := new real[outputChannels, maxBlockSize];
    }

    /** The first loop of `process`: copies each channel's first `bufferSize` samples into the dry buffer. */
    method CopyDry(block: array2<real>)
      requires Valid() && block != dryBuffer
      requires block.Length0 >= numChannels && block.Length1 >= bufferSize
      modifies dryBuffer
      ensures forall c, s :: InRegion(c, s) ==> dryBuffer[c, s] == block[c, s]
    {
      var channel := 0;
      while channel < numChannels
        invariant 0 <= channel <= numChannels
        invariant forall c, s :: InRegion(c, s) && c < channel ==> dryBuffer[c, s] == block[c, s]
      {
        var s := 0;
        while s < bufferSize
          invariant 0 <= s <= bufferSize
          invariant forall c, t :: InRegion(c, t) && c < channel ==> dryBuffer[c, t] == block[c, t]
          invariant forall t :: 0 <= t < s ==> dryBuffer[channel, t] == block[channel, t]
        {
          dryBuffer[channel, s] := block[channel, s];
          s := s + 1;
        }
        channel := channel + 1;
      }
    }

    /** `applyInputFilters`: the filter chain replaces the block by its output, `filtered`. */
    method ApplyInputFilters(block: array2<real>, filtered: seq<seq<real>>)
      requires |filtered| == block.Length0
      requires forall c :: 0 <= c < |filtered| ==> |filtered[c]| == block.Length1
      modifies block
      ensures forall c, s :: 0 <= c < block.Length0 && 0 <= s < block.Length1 ==> block[c, s] == filtered[c][s]
    {
      forall c, s | 0 <= c < block.Length0 && 0 <= s < block.Length1 {
        block[c, s] := filtered[c][s];
      }
    }

    /**
     * The traversal of `distortBuffer`, sample-outer and channel-inner over
     * the prepared region, replacing each sample by `wet` of it.
     */
    method ForEachSample(block: array2<real>, wet: real --> real)
      requires Valid() && block.Length0 >= numChannels && block.Length1 >= bufferSize
      requires forall x :: wet.requires(x)
      modifies block
      ensures forall c, s :: InRegion(c, s) ==>
                wet.requires(old(block[c, s])) && block[c, s] == wet(old(block[c, s]))
      ensures forall c, s :: 0 <= c < block.Length0 && 0 <= s < block.Length1 && !InRegion(c, s) ==>
                block[c, s] == old(block[c, s])
    {
      var sample := 0;
      while sample < bufferSize
        invariant 0 <= sample <= bufferSize
        invariant forall c, s :: InRegion(c, s) && s < sample ==>
                wet.requires(old(block[c, s])) && block[c, s] == wet(old(block[c, s]))
        invariant forall c, s :: 0 <= c < block.Length0 && 0 <= s < block.Length1 && !(InRegion(c, s) && s < sample) ==>
                    block[c, s] == old(block[c, s])
      {
        var channel := 0;
        while channel < numChannels
          invariant 0 <= channel <= numChannels
          invariant forall c, s :: InRegion(c, s) && (s < sample || (s == sample && c < channel)) ==>
                      wet.requires(old(block[c, s])) && block[c, s] == wet(old(block[c, s]))
          invariant forall c, s :: 0 <= c < block.Length0 && 0 <= s < block.Length1
                                   && !(InRegion(c, s) && (s < sample || (s == sample && c < channel))) ==>
                      block[c, s] == old(block[c, s])
        {
          block[channel, sample] := wet(block[channel, sample]);
          channel := channel + 1;
        }
        sample := sample + 1;
      }
    }

    /**
     * `distortBuffer`: every sample of the prepared region becomes its wet
     * sample under the current parameters; nothing else changes.
     */
    method DistortBuffer(block: array2<real>)
      requires Valid() && block.Length0 >= numChannels && block.Length1 >= bufferSize
      modifies block
      ensures forall c, s :: InRegion(c, s) ==> block[c, s] == WetSample(old(block[c, s]), parameters, lib)
      ensures forall c, s :: 0 <= c < block.Length0 && 0 <= s < block.Length1 && !InRegion(c, s) ==>
                block[c, s] == old(block[c, s])
    {
      var p, l := parameters, lib;
      var wet := x requires PositiveOnPositive(l.sqrt) && AngerInRange(p.anger) => WetSample(x, p, l);
      ForEachSample(block, wet);
    }

    /** `applyMix`: every sample of the prepared region becomes its mix with the dry copy. */
    method ApplyMix(block: array2<real>)
      requires Valid() && block != dryBuffer
      requires block.Length0 >= numChannels && block.Length1 >= bufferSize
      modifies block
      ensures forall c, s :: InRegion(c, s) ==> block[c, s] == Mix(old(block[c, s]), dryBuffer[c, s], parameters.mix)
      ensures forall c, s :: 0 <= c < block.Length0 && 0 <= s < block.Length1 && !InRegion(c, s) ==>
                block[c, s] == old(block[c, s])
    {
      var sample := 0;
      while sample < bufferSize
        invariant 0 <= sample <= bufferSize
        invariant forall c, s :: InRegion(c, s) && s < sample ==>
                    block[c, s] == Mix(old(block[c, s]), dryBuffer[c, s], parameters.mix)
        invariant forall c, s :: 0 <= c < block.Length0 && 0 <= s < block.Length1 && !(InRegion(c, s) && s < sample) ==>
                    block[c, s] == old(block[c, s])
      {
        var channel := 0;
        while channel < numChannels
          invariant 0 <= channel <= numChannels
          invariant forall c, s :: InRegion(c, s) && (s < sample || (s == sample && c < channel)) ==>
                      block[c, s] == Mix(old(block[c, s]), dryBuffer[c, s], parameters.mix)
          invariant forall c, s :: 0 <= c < block.Length0 && 0 <= s < block.Length1
                                   && !(InRegion(c, s) && (s < sample || (s == sample && c < channel))) ==>
                      block[c, s] == old(block[c, s])
        {
          var wetSample := block[channel, sample] * parameters.mix;
          var drySample := dryBuffer[channel, sample] * (1.0 - parameters.mix);
          block[channel, sample] := wetSample + drySample;
          channel := channel + 1;
        }
        sample := sample + 1;
      }
    }

    /**
     * `process`: the dry buffer receives the incoming block, the block becomes
     * the filter output, and every sample of the prepared region ends as the
     * mix of its distorted filtered value with its dry value.
     */
    method Process(block: array2<real>, filtered: seq<seq<real>>)
      requires Valid() && block != dryBuffer
      requires block.Length0 >= numChannels && block.Length1 >= bufferSize
      requires |filtered| == block.Length0
      requires forall c :: 0 <= c < |filtered| ==> |filtered[c]| == block.Length1
      modifies block, dryBuffer
      ensures forall c, s :: InRegion(c, s) ==> dryBuffer[c, s] == old(block[c, s])
      ensures forall c, s :: InRegion(c, s) ==>
                block[c, s] == Mix(WetSample(filtered[c][s], parameters, lib), old(block[c, s]), parameters.mix)
      ensures forall c, s :: 0 <= c < block.Length0 && 0 <= s < block.Length1 && !InRegion(c, s) ==>
                block[c, s] == filtered[c][s]
    {
      CopyDry(block);
      ApplyInputFilters(block, filtered);
      DistortBuffer(block);
      ApplyMix(block);
    }
  }
}
