/** `noisify(inFile, amp, outFile)` from noisify.py: checks the input file,
    rewrites the output name with the amplitude percentage, and writes the
    recording plus Gaussian noise scaled by `amp` times the recording's
    peak. The noise draw, the input file's samples and the file-system
    answers are parameters. */
module NoisifyScript {
  import opened Text
  import opened Audio

  /** One call of `noisify`. `isFile` is `path.isfile(inFile)`, `audio` the
      samples `wf.read(inFile)` returns, `noise` the standard normal draw of
      the same length and `outExists` the answer of `path.exists` on the
      rewritten name after the write. */
  function Noisify(inFile: string, amp: real, outFile: string, isFile: bool,
                   audio: seq<real>, noise: seq<real>, outExists: bool): (r: NoisifyOutcome)
    requires |noise| == |audio|
    ensures r.Refused? <==> !(isFile && EndsWith(inFile, ".wav"))
    ensures r.Raised? <==> isFile && EndsWith(inFile, ".wav") && audio == []
    ensures r.Wrote? ==> r.reported == outExists
    ensures r.Wrote? ==>
      audio != [] && |r.file.samples| == |audio| && Unmix(r.file.samples, noise, amp, Peak(audio)) == audio
    ensures r.Wrote? ==> r.file.path == Replace(outFile, ".wav", PercentTag(amp, "_noisy.wav"))
  {
    if !(isFile && EndsWith(inFile, ".wav")) then Refused
    else if audio == [] then Raised
    else
      MixRoundTrip(audio, noise, amp, Peak(audio));
      Wrote(WavWrite(Replace(outFile, ".wav", PercentTag(amp, "_noisy.wav")), Mix(audio, noise, amp, Peak(audio))), outExists)
  }

  /** A silent recording is written back unchanged, whatever the noise. */
  lemma SilentInputWrittenUnchanged(inFile: string, amp: real, outFile: string,
                                    audio: seq<real>, noise: seq<real>, outExists: bool)
    requires |noise| == |audio| && audio != [] && EndsWith(inFile, ".wav")
    requires forall i :: 0 <= i < |audio| ==> audio[i] == 0.0
    ensures Noisify(inFile, amp, outFile, true, audio, noise, outExists).Wrote?
    ensures Noisify(inFile, amp, outFile, true, audio, noise, outExists).file.samples == audio
  {
    SilenceStaysSilent(audio, noise, amp);
  }

  /** For an output name `stem.wav` whose stem has no dot, the file written
      is `stem_<p>_noisy.wav`. */
  lemma NoisyNameOfPlainFile(stem: string, amp: real)
    requires '.' !in stem
    ensures Replace(stem + ".wav", ".wav", PercentTag(amp, "_noisy.wav")) == stem + PercentTag(amp, "_noisy.wav")
  {
    ReplaceSuffix(stem, ".wav", PercentTag(amp, "_noisy.wav"));
  }

  /** An output name without a dot is used as it is. */
  lemma NameWithoutDotKept(outFile: string, amp: real)
    requires '.' !in outFile
    ensures Replace(outFile, ".wav", PercentTag(amp, "_noisy.wav")) == outFile
  {
    ReplaceAbsent(outFile, ".wav", PercentTag(amp, "_noisy.wav"));
  }
}
