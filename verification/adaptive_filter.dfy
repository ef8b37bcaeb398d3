/** `adaptiveFilterLMS(inFile, outFile, lRate, fOrder)` from
    adaptiveFilter.py: the filter runs over the whole recording and the
    result is written next to `outFile`. The samples read from `inFile` and
    the reference noise draw are parameters. */
module AdaptiveFilter {
  import opened Audio
  import opened Text
  import LmsFilter

  /** The name of the filtered file: `outFile + "_filtered.wav"`. */
  function FilteredName(outFile: string): (name: string)
    ensures |name| == |outFile| + |"_filtered.wav"| && name[..|outFile|] == outFile
    ensures EndsWith(name, "_filtered.wav")
  {
    var name := outFile + "_filtered.wav";
    assert name[..|outFile|] == outFile;
    assert name[|name| - |"_filtered.wav"|..] == "_filtered.wav";
    name
  }

  /** One call: the single write it makes. Every index from `fOrder` to the
      end is processed, indices below `fOrder` stay zero and the first
      processed sample is the input sample itself. */
  method AdaptiveFilterLms(outFile: string, lRate: real, fOrder: nat, audio: seq<real>, reference: seq<real>)
    returns (write: WavWrite)
    requires |reference| == |audio|
    ensures write.path == FilteredName(outFile)
    ensures write.samples == LmsFilter.Filtered(audio, reference, lRate, fOrder, |audio|)
    ensures |write.samples| == |audio|
    ensures forall n :: 0 <= n < fOrder && n < |audio| ==> write.samples[n] == 0.0
    ensures fOrder < |audio| ==> write.samples[fOrder] == audio[fOrder]
    ensures |audio| <= fOrder ==> write.samples == Zeros(|audio|)
  {
    var filtered := LmsFilter.Filter(audio, reference, lRate, fOrder, |audio|);
    LmsFilter.ProcessedRange(audio, reference, lRate, fOrder, |audio|);
    if fOrder < |audio| {
      LmsFilter.FirstSampleUnchanged(audio, reference, lRate, fOrder, |audio|);
    }
    write := WavWrite(FilteredName(outFile), filtered);
  }
}
