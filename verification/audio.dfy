/** Sample buffers and the arithmetic shared by the noise-mixing and filtering
    scripts: the dot product of two vectors, the peak absolute amplitude of a
    recording and the noisy mixture `audio + noise * amp * peak`. Samples are
    exact reals; the 16-bit cast applied when a buffer is written is not
    modelled. */
module Audio {

  /** One `wf.write(path, sRate, samples)` call: the file name and the
      real-valued buffer handed to it (the sample rate is passed through
      unchanged and not modelled). */
  datatype WavWrite = WavWrite(path: string, samples: seq<real>)

  /** What `noisify` does: refuse the input file without reading it, raise
      while computing the mixture, or write the mixture and report whether
      the output file exists afterwards. */
  datatype NoisifyOutcome = Refused | Raised | Wrote(file: WavWrite, reported: bool)

  function Abs(x: real): real
  {
    if x < 0.0 then -x else x
  }

  function Max(x: real, y: real): real
  {
    if x < y then y else x
  }

  /** `np.zeros(n)` */
  function Zeros(n: nat): seq<real>
  {
    seq(n, _ => 0.0)
  }

  /** `np.dot(u, v)`, accumulated from the first element to the last. */
  function Dot(u: seq<real>, v: seq<real>): real
    requires |u| == |v|
    decreases |u|
  {
    if u == [] then 0.0 else Dot(u[..|u| - 1], v[..|v| - 1]) + u[|u| - 1] * v[|v| - 1]
  }

  /** A zero coefficient vector predicts zero, whatever the window holds. */
  lemma {:induction false} DotWithZeros(v: seq<real>)
    ensures Dot(Zeros(|v|), v) == 0.0
    decreases |v|
  {
    if v != [] {
      assert Zeros(|v|)[..|v| - 1] == Zeros(|v| - 1);
      DotWithZeros(v[..|v| - 1]);
    }
  }

  /** `max(abs(audio))` over exact magnitudes: the largest absolute sample.
      Python's `max` of an empty sequence raises, hence the precondition. */
  function Peak(audio: seq<real>): (m: real)
    requires audio != []
    ensures forall i :: 0 <= i < |audio| ==> Abs(audio[i]) <= m
    ensures exists i :: 0 <= i < |audio| && Abs(audio[i]) == m
    decreases |audio|
  {
    if |audio| == 1 then Abs(audio[0])
    else Max(Peak(audio[..|audio| - 1]), Abs(audio[|audio| - 1]))
  }

  /** `audio + noise * amp * peak`, element by element. */
  function Mix(audio: seq<real>, noise: seq<real>, amp: real, peak: real): seq<real>
    requires |noise| == |audio|
  {
    seq(|audio|, i requires 0 <= i < |audio| => audio[i] + noise[i] * amp * peak)
  }

  /** Subtracting the scaled noise again. */
  function Unmix(noisy: seq<real>, noise: seq<real>, amp: real, peak: real): seq<real>
    requires |noise| == |noisy|
  {
    seq(|noisy|, i requires 0 <= i < |noisy| => noisy[i] - noise[i] * amp * peak)
  }

  /** The mixture keeps the recording's length and subtracting the same
      scaled noise recovers the clean recording exactly. */
  lemma MixRoundTrip(audio: seq<real>, noise: seq<real>, amp: real, peak: real)
    requires |noise| == |audio|
    ensures |Mix(audio, noise, amp, peak)| == |audio|
    ensures Unmix(Mix(audio, noise, amp, peak), noise, amp, peak) == audio
  {
  }

  /** The noise scale `amp * peak` dominates `amp * |audio[i]|` for every
      sample when the amplitude fraction is not negative. */
  lemma ScaleCoversEverySample(audio: seq<real>, amp: real)
    requires audio != [] && amp >= 0.0
    ensures forall i :: 0 <= i < |audio| ==> amp * Abs(audio[i]) <= amp * Peak(audio)
  {
    var m := Peak(audio);
    forall i | 0 <= i < |audio|
      ensures amp * Abs(audio[i]) <= amp * m
    {
      MultiplyMonotone(amp, Abs(audio[i]), m);
    }
  }

  lemma MultiplyMonotone(a: real, x: real, y: real)
    requires a >= 0.0 && x <= y
    ensures a * x <= a * y
  {
    assert a * y - a * x == a * (y - x);
  }

  /** A silent recording has peak zero, so noise is scaled to nothing and
      the mixture is the recording itself. */
  lemma SilenceStaysSilent(audio: seq<real>, noise: seq<real>, amp: real)
    requires audio != [] && |noise| == |audio|
    requires forall i :: 0 <= i < |audio| ==> audio[i] == 0.0
    ensures Peak(audio) == 0.0
    ensures Mix(audio, noise, amp, Peak(audio)) == audio
  {
    var m := Peak(audio);
    var i :| 0 <= i < |audio| && Abs(audio[i]) == m;
    assert m == 0.0 by {
      assert audio[i] == 0.0;
    }
    MixWithZeroPeak(audio, noise, amp);
  }

  lemma MixWithZeroPeak(audio: seq<real>, noise: seq<real>, amp: real)
    requires |noise| == |audio|
    ensures Mix(audio, noise, amp, 0.0) == audio
  {
    var mixed := Mix(audio, noise, amp, 0.0);
    assert forall k :: 0 <= k < |audio| ==> mixed[k] == audio[k];
  }

  // ---------------------------------------------------------------------
  // The peak as the scripts compute it on 16-bit samples.

  /** A sample of a 16-bit PCM recording as `wf.read` returns it. */
  type Int16 = x: int | -0x8000 <= x < 0x8000

  /** numpy's `abs` on an int16 array: the negation of -32768 does not fit
      and wraps around to -32768. */
  function WrappingAbs(x: Int16): Int16
  {
    if x == -0x8000 then x else if x < 0 then -x else x
  }

  /** `max(abs(audioData))` evaluated on int16 samples, as written. */
  function PeakAsWritten(audio: seq<Int16>): int
    requires audio != []
    decreases |audio|
  {
    if |audio| == 1 then WrappingAbs(audio[0])
    else
      var m := PeakAsWritten(audio[..|audio| - 1]);
      var a := WrappingAbs(audio[|audio| - 1]);
      if m < a then a else m
  }

  function AsReal(audio: seq<Int16>): seq<real>
  {
    seq(|audio|, i requires 0 <= i < |audio| => audio[i] as real)
  }

  /** A recording whose loudest sample is the most negative 16-bit value:
      the as-written peak ignores it and scales the noise from the next
      largest magnitude, while the true peak is 32768. */
  lemma PeakAsWrittenMissesFullScale()
    ensures PeakAsWritten([-0x8000, 100]) == 100
    ensures Peak(AsReal([-0x8000, 100])) == 32768.0
  {
    var a: seq<Int16> := [-0x8000, 100];
    assert a[..1] == [-0x8000];
    assert AsReal(a) == [-32768.0, 100.0];
    assert AsReal(a)[..1] == [-32768.0];
  }

  /** Without a -32768 sample the as-written peak is the true peak. */
  lemma {:induction false} PeakAsWrittenAgreesOtherwise(audio: seq<Int16>)
    requires audio != []
    requires forall i :: 0 <= i < |audio| ==> audio[i] != -0x8000
    ensures PeakAsWritten(audio) as real == Peak(AsReal(audio))
    decreases |audio|
  {
    if |audio| > 1 {
      var init := audio[..|audio| - 1];
      assert AsReal(audio)[..|audio| - 1] == AsReal(init);
      PeakAsWrittenAgreesOtherwise(init);
    }
  }
}
