/** `LMS(inFile, outFile, ref_out, lRate, fOrder)` from
    __deprecated/adaptiveFilter.py: the filter stops `GuardBand` samples
    before the end and both the reference and the filtered buffer are
    written. The samples read from `inFile` and the reference draw are
    parameters. */
module DeprecatedAdaptiveFilter {
  import opened Audio
  import opened Text
  import LmsFilter

  /** One call: the two writes, in order, and the value returned. */
  method Lms(outFile: string, refOut: string, lRate: real, fOrder: nat, audio: seq<real>, reference: seq<real>)
    returns (writes: seq<WavWrite>, ok: bool)
    requires |reference| == |audio|
    ensures |writes| == 2
    ensures writes[0] == WavWrite(Replace(refOut, ".wav", "_noise_ref.wav"), reference)
    ensures writes[1].path == Replace(outFile, ".wav", "_filtered.wav")
    ensures writes[1].samples == LmsFilter.Filtered(audio, reference, lRate, fOrder, |audio| - LmsFilter.GuardBand)
    ensures |writes[1].samples| == |audio|
    ensures forall n :: 0 <= n < |audio| && (n < fOrder || |audio| - LmsFilter.GuardBand <= n) ==>
      writes[1].samples[n] == 0.0
    ensures |audio| - LmsFilter.GuardBand <= fOrder ==> writes[1].samples == Zeros(|audio|)
    ensures ok
  {
    var filtered := LmsFilter.Filter(audio, reference, lRate, fOrder, |audio| - LmsFilter.GuardBand);
    LmsFilter.ProcessedRange(audio, reference, lRate, fOrder, |audio| - LmsFilter.GuardBand);
    writes := [WavWrite(Replace(refOut, ".wav", "_noise_ref.wav"), reference),
               WavWrite(Replace(outFile, ".wav", "_filtered.wav"), filtered)];
    ok := true;
  }
}
