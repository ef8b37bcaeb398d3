/** processAudio.py: its own copies of `noisify` and `LMS` (the latter with a
    guard band at the end and the amplitude percentage in the output names),
    and the batch driver `main`, which walks the `Data` folder and plans a
    noisify call and an LMS call per recording and amplitude. Directory
    listings, file contents and random draws are parameters. */
module ProcessAudio {
  import opened Text
  import opened Audio
  import NoisifyScript
  import LmsFilter

  /** The noise amplitudes `main` studies, in the order it uses them. */
  const NoiseAmplitudes: seq<real> := [0.05, 0.25, 0.5]

  // ---------------------------------------------------------------------
  // noisify(inFile, outFile, amp)

  /** processAudio.py's `noisify`: noisify.py's function with the amplitude
      and the output name in the other order. */
  function Noisify(inFile: string, outFile: string, amp: real, isFile: bool,
                   audio: seq<real>, noise: seq<real>, outExists: bool): (r: NoisifyOutcome)
    requires |noise| == |audio|
    ensures r.Refused? <==> !(isFile && EndsWith(inFile, ".wav"))
    ensures r.Raised? <==> isFile && EndsWith(inFile, ".wav") && audio == []
    ensures r.Wrote? ==> r.reported == outExists
    ensures r.Wrote? ==>
      audio != [] && |r.file.samples| == |audio| && Unmix(r.file.samples, noise, amp, Peak(audio)) == audio
    ensures r.Wrote? ==> r.file.path == Replace(outFile, ".wav", PercentTag(amp, "_noisy.wav"))
  {
    NoisifyScript.Noisify(inFile, amp, outFile, isFile, audio, noise, outExists)
  }

  // ---------------------------------------------------------------------
  // LMS(inFile, outFile, ref_out, amp, lRate, fOrder)

  /** The reference file name: every `.wav` becomes `_<p>_noise_ref.wav`. */
  function ReferenceName(refOut: string, amp: real): string
  {
    Replace(refOut, ".wav", PercentTag(amp, "_noise_ref.wav"))
  }

  /** The filtered file name: every `.wav` becomes `_<p>_filtered.wav`. */
  function FilteredName(outFile: string, amp: real): string
  {
    Replace(outFile, ".wav", PercentTag(amp, "_filtered.wav"))
  }

  /** One call: the reference draw is written first, then the filtered
      buffer, which is processed on `[fOrder, len - GuardBand)` and zero
      elsewhere; the call returns True. */
  method Lms(outFile: string, refOut: string, amp: real, lRate: real, fOrder: nat,
             audio: seq<real>, reference: seq<real>) returns (writes: seq<WavWrite>, ok: bool)
    requires |reference| == |audio|
    ensures |writes| == 2
    ensures writes[0] == WavWrite(ReferenceName(refOut, amp), reference)
    ensures writes[1].path == FilteredName(outFile, amp)
    ensures writes[1].samples == LmsFilter.Filtered(audio, reference, lRate, fOrder, |audio| - LmsFilter.GuardBand)
    ensures |writes[1].samples| == |audio|
    ensures forall n :: 0 <= n < |audio| && (n < fOrder || |audio| - LmsFilter.GuardBand <= n) ==>
      writes[1].samples[n] == 0.0
    ensures |audio| - LmsFilter.GuardBand <= fOrder ==> writes[1].samples == Zeros(|audio|)
    ensures ok
  {
    var filtered := LmsFilter.Filter(audio, reference, lRate, fOrder, |audio| - LmsFilter.GuardBand);
    LmsFilter.ProcessedRange(audio, reference, lRate, fOrder, |audio| - LmsFilter.GuardBand);
    writes := [WavWrite(ReferenceName(refOut, amp), reference), WavWrite(FilteredName(outFile, amp), filtered)];
    ok := true;
  }

  // ---------------------------------------------------------------------
  // main

  /** The arguments of the two calls `main` makes for one recording and one
      amplitude: `noisify(source, noisyOut, amp)` and
      `LMS(noisyIn, filteredOut, refOut, amp)`. The sentence folder and the
      recording they were planned for are kept alongside. */
  datatype Job = Job(sentence: string, recording: string, amp: real,
                     source: string, noisyOut: string,
                     noisyIn: string, filteredOut: string, refOut: string)

  /** The folder holding a sentence's original recordings. */
  function Origin(sentence: string): string
  {
    "Data\\" + sentence + "\\_0riginal\\audio"
  }

  /** The folder `_<p>_percent\<kind>\` of one amplitude. */
  function AmplitudeFolder(amp: real, kind: string): string
  {
    "_" + Decimal(Percent(amp)) + "_percent\\" + kind + "\\"
  }

  /** `origin.replace("_0riginal\\audio", f"_{p}_percent\\<kind>\\") + rec` */
  function AmplitudePath(sentence: string, kind: string, recording: string, amp: real): string
  {
    Replace(Origin(sentence), "_0riginal\\audio", AmplitudeFolder(amp, kind)) + recording
  }

  /** The noisy path `main` hands to `LMS`, rebuilt from the output name it
      gave `noisify`. */
  function NoisyIn(sentence: string, recording: string, amp: real): string
  {
    Replace(AmplitudePath(sentence, "noisy", recording, amp), ".wav", PercentTag(amp, "_noisy.wav"))
  }

  /** The reference name `main` hands to `LMS`: the filtered name with
      `filtered` replaced by `noise_references`. */
  function RefOut(sentence: string, recording: string, amp: real): string
  {
    Replace(AmplitudePath(sentence, "filtered", recording, amp), "filtered", "noise_references")
  }

  /** The job for one recording and amplitude, with the paths built as `main`
      builds them. */
  function PlanJob(sentence: string, recording: string, amp: real): Job
  {
    Job(sentence, recording, amp, Origin(sentence) + "\\" + recording,
        AmplitudePath(sentence, "noisy", recording, amp), NoisyIn(sentence, recording, amp),
        AmplitudePath(sentence, "filtered", recording, amp), RefOut(sentence, recording, amp))
  }

  /** One job per amplitude, in the order of `NoiseAmplitudes`. */
  function AmplitudeJobs(sentence: string, recording: string): seq<Job>
  {
    seq(|NoiseAmplitudes|, k requires 0 <= k < |NoiseAmplitudes| => PlanJob(sentence, recording, NoiseAmplitudes[k]))
  }

  /** The jobs for a sentence's listing: the `.wav` entries in listing
      order, every other entry skipped. */
  function RecordingJobs(sentence: string, recordings: seq<string>): seq<Job>
    decreases |recordings|
  {
    if recordings == [] then []
    else
      var last := recordings[|recordings| - 1];
      RecordingJobs(sentence, recordings[..|recordings| - 1]) +
        (if EndsWith(last, ".wav") then AmplitudeJobs(sentence, last) else [])
  }

  /** The jobs for the sentence folders in listing order; `listdir` gives the
      entries of a directory. */
  function Plan(sentences: seq<string>, listdir: string -> seq<string>): seq<Job>
    decreases |sentences|
  {
    if sentences == [] then []
    else
      var last := sentences[|sentences| - 1];
      Plan(sentences[..|sentences| - 1], listdir) + RecordingJobs(last, listdir(Origin(last)))
  }

  // ---------------------------------------------------------------------
  // What `main` plans.

  /** The amplitude jobs for a recording are exactly its job at each studied amplitude. */
  lemma AmplitudeJobsExactly(sentence: string, recording: string, job: Job)
    ensures job in AmplitudeJobs(sentence, recording) <==>
      job.amp in NoiseAmplitudes && job == PlanJob(sentence, recording, job.amp)
  {
    var jobs := AmplitudeJobs(sentence, recording);
    if job.amp in NoiseAmplitudes && job == PlanJob(sentence, recording, job.amp) {
      var k :| 0 <= k < |NoiseAmplitudes| && NoiseAmplitudes[k] == job.amp;
      assert jobs[k] == job;
    }
  }

  /** A listing yields exactly the jobs of its `.wav` entries. */
  lemma {:induction false} RecordingJobsExactly(sentence: string, recordings: seq<string>, job: Job)
    ensures job in RecordingJobs(sentence, recordings) <==>
      job.recording in recordings && EndsWith(job.recording, ".wav") && job.amp in NoiseAmplitudes
      && job == PlanJob(sentence, job.recording, job.amp)
    decreases |recordings|
  {
    if recordings != [] {
      var init := recordings[..|recordings| - 1];
      var last := recordings[|recordings| - 1];
      assert recordings == init + [last];
      RecordingJobsExactly(sentence, init, job);
      AmplitudeJobsExactly(sentence, last, job);
    }
  }

  /** A job is planned under a sentence folder exactly when the folder is
      listed and the job is one of that folder's recording jobs. */
  lemma {:induction false} PlanBySentence(sentences: seq<string>, listdir: string -> seq<string>, job: Job)
    ensures job in Plan(sentences, listdir) <==>
      job.sentence in sentences && job in RecordingJobs(job.sentence, listdir(Origin(job.sentence)))
    decreases |sentences|
  {
    if sentences != [] {
      var init := sentences[..|sentences| - 1];
      var last := sentences[|sentences| - 1];
      assert sentences == init + [last];
      PlanBySentence(init, listdir, job);
      RecordingJobsExactly(last, listdir(Origin(last)), job);
      RecordingJobsExactly(job.sentence, listdir(Origin(job.sentence)), job);
    }
  }

  /** `main` plans a job exactly for every listed sentence folder, every
      `.wav` entry of that folder's `_0riginal\audio` listing and every
      studied amplitude, with the paths built from those three. */
  lemma PlannedExactly(sentences: seq<string>, listdir: string -> seq<string>, job: Job)
    ensures job in Plan(sentences, listdir) <==>
      && job.sentence in sentences
      && job.recording in listdir(Origin(job.sentence))
      && EndsWith(job.recording, ".wav")
      && job.amp in NoiseAmplitudes
      && job == PlanJob(job.sentence, job.recording, job.amp)
  {
    PlanBySentence(sentences, listdir, job);
    RecordingJobsExactly(job.sentence, listdir(Origin(job.sentence)), job);
  }

  /** Listing more sentence folders appends their jobs after the earlier
      ones: folders are processed in listing order. */
  lemma {:induction false} PlanAppend(a: seq<string>, b: seq<string>, listdir: string -> seq<string>)
    ensures Plan(a + b, listdir) == Plan(a, listdir) + Plan(b, listdir)
    decreases |b|
  {
    if b == [] {
      assert a + b == a;
    } else {
      var init := b[..|b| - 1];
      var last := b[|b| - 1];
      var tail := RecordingJobs(last, listdir(Origin(last)));
      assert (a + b)[..|a + b| - 1] == a + init;
      assert (a + b)[|a + b| - 1] == last;
      PlanAppend(a, init, listdir);
      calc {
        Plan(a + b, listdir);
        Plan(a + init, listdir) + tail;
        (Plan(a, listdir) + Plan(init, listdir)) + tail;
        Plan(a, listdir) + (Plan(init, listdir) + tail);
        Plan(a, listdir) + Plan(b, listdir);
      }
    }
  }

  /** For every planned job the source path passes noisify's `.wav` check,
      noisify refuses it only when the file is missing, and the file noisify
      writes is exactly the path then handed to `LMS`. */
  lemma PlannedCallsAgree(sentences: seq<string>, listdir: string -> seq<string>, job: Job,
                          isFile: bool, audio: seq<real>, noise: seq<real>, outExists: bool)
    requires job in Plan(sentences, listdir) && |noise| == |audio|
    ensures EndsWith(job.source, ".wav")
    ensures Noisify(job.source, job.noisyOut, job.amp, isFile, audio, noise, outExists).Refused? <==> !isFile
    ensures Noisify(job.source, job.noisyOut, job.amp, isFile, audio, noise, outExists).Wrote? ==>
      Noisify(job.source, job.noisyOut, job.amp, isFile, audio, noise, outExists).file.path == job.noisyIn
  {
    PlannedExactly(sentences, listdir, job);
    var origin := Origin(job.sentence);
    assert job.source == (origin + "\\") + job.recording;
    EndsWithAfterPrefix(origin + "\\", job.recording, ".wav");
  }

  /** The folder tags of the studied amplitudes are 5, 25 and 50. */
  lemma AmplitudeFolders()
    ensures Decimal(Percent(NoiseAmplitudes[0])) == "5"
    ensures Decimal(Percent(NoiseAmplitudes[1])) == "25"
    ensures Decimal(Percent(NoiseAmplitudes[2])) == "50"
  {
    assert Percent(0.05) == 5;
    assert Percent(0.25) == 25;
    assert Percent(0.5) == 50;
    assert Digits(2) == "2" && Digits(5) == "5";
  }

  /** The amplitude's folder under a sentence whose name has no underscore. */
  lemma FolderOf(sentence: string, folder: string)
    requires '_' !in sentence
    ensures Replace(Origin(sentence), "_0riginal\\audio", folder) == "Data\\" + sentence + "\\" + folder
  {
    var prefix := "Data\\" + sentence + "\\";
    assert '_' !in prefix;
    assert Origin(sentence) == prefix + "_0riginal\\audio";
    ReplaceSuffix(prefix, "_0riginal\\audio", folder);
  }

  /** The folder path up to the amplitude tag holds no dot and no `f` when
      the sentence name holds none. */
  lemma PercentFolderPlain(sentence: string, amp: real)
    requires '.' !in sentence && 'f' !in sentence
    ensures var base := "Data\\" + sentence + "\\" + ("_" + Decimal(Percent(amp)) + "_percent\\");
      '.' !in base && 'f' !in base
  {
    var p := Decimal(Percent(amp));
    DecimalIsPlain(Percent(amp));
    assert '.' !in p && 'f' !in p;
    assert '.' !in "Data\\" && 'f' !in "Data\\";
    assert '.' !in "\\" && 'f' !in "\\";
    assert '.' !in "_percent\\" && 'f' !in "_percent\\";
  }

  /** The noisy file of a job, for a sentence folder with no underscore, dot
      or `f` and a recording `stem.wav` with no other dot, is
      `Data\<sentence>\_<p>_percent\noisy\<stem>_<p>_noisy.wav`. */
  lemma NoisyLayout(sentence: string, stem: string, amp: real)
    requires '.' !in sentence && '_' !in sentence && 'f' !in sentence && '.' !in stem
    ensures NoisyIn(sentence, stem + ".wav", amp) ==
      "Data\\" + sentence + "\\" + AmplitudeFolder(amp, "noisy") + stem + PercentTag(amp, "_noisy.wav")
  {
    var base := "Data\\" + sentence + "\\" + ("_" + Decimal(Percent(amp)) + "_percent\\");
    var dir := "Data\\" + sentence + "\\" + AmplitudeFolder(amp, "noisy");
    assert AmplitudePath(sentence, "noisy", stem + ".wav", amp) == (dir + stem) + ".wav" by {
      FolderOf(sentence, AmplitudeFolder(amp, "noisy"));
    }
    assert '.' !in dir + stem by {
      PercentFolderPlain(sentence, amp);
      assert dir == base + "noisy\\";
    }
    ReplaceSuffix(dir + stem, ".wav", PercentTag(amp, "_noisy.wav"));
  }

  /** ... its filtered file is
      `Data\<sentence>\_<p>_percent\filtered\<stem>_<p>_filtered.wav` ... */
  lemma FilteredLayout(sentence: string, stem: string, amp: real)
    requires '.' !in sentence && '_' !in sentence && 'f' !in sentence && '.' !in stem
    ensures FilteredName(AmplitudePath(sentence, "filtered", stem + ".wav", amp), amp) ==
      "Data\\" + sentence + "\\" + AmplitudeFolder(amp, "filtered") + stem + PercentTag(amp, "_filtered.wav")
  {
    var base := "Data\\" + sentence + "\\" + ("_" + Decimal(Percent(amp)) + "_percent\\");
    var dir := "Data\\" + sentence + "\\" + AmplitudeFolder(amp, "filtered");
    assert AmplitudePath(sentence, "filtered", stem + ".wav", amp) == (dir + stem) + ".wav" by {
      FolderOf(sentence, AmplitudeFolder(amp, "filtered"));
    }
    assert '.' !in dir + stem by {
      PercentFolderPlain(sentence, amp);
      assert dir == base + "filtered\\";
    }
    ReplaceSuffix(dir + stem, ".wav", PercentTag(amp, "_filtered.wav"));
  }

  /** The filtered path, cut around its `filtered` folder name. */
  lemma FilteredPathSplit(sentence: string, stem: string, amp: real)
    requires '_' !in sentence
    ensures AmplitudePath(sentence, "filtered", stem + ".wav", amp) ==
      "Data\\" + sentence + "\\" + ("_" + Decimal(Percent(amp)) + "_percent\\") + "filtered" + ("\\" + stem + ".wav")
  {
    FolderOf(sentence, AmplitudeFolder(amp, "filtered"));
  }

  /** The reference name before its `.wav` is tagged:
      `Data\<sentence>\_<p>_percent\noise_references\<stem>.wav`. */
  lemma RefOutLayout(sentence: string, stem: string, amp: real)
    requires '.' !in sentence && '_' !in sentence && 'f' !in sentence && 'f' !in stem
    ensures RefOut(sentence, stem + ".wav", amp) ==
      "Data\\" + sentence + "\\" + AmplitudeFolder(amp, "noise_references") + stem + ".wav"
  {
    var base := "Data\\" + sentence + "\\" + ("_" + Decimal(Percent(amp)) + "_percent\\");
    var rest := "\\" + stem + ".wav";
    FilteredPathSplit(sentence, stem, amp);
    assert 'f' !in base && 'f' !in rest by {
      PercentFolderPlain(sentence, amp);
    }
    ReplaceSingle(base, "filtered", rest, "noise_references");
  }

  /** ... and its noise reference, when the stem has no `f` either, is
      `Data\<sentence>\_<p>_percent\noise_references\<stem>_<p>_noise_ref.wav`. */
  lemma ReferenceLayout(sentence: string, stem: string, amp: real)
    requires '.' !in sentence && '_' !in sentence && 'f' !in sentence && '.' !in stem && 'f' !in stem
    ensures ReferenceName(RefOut(sentence, stem + ".wav", amp), amp) ==
      "Data\\" + sentence + "\\" + AmplitudeFolder(amp, "noise_references") + stem + PercentTag(amp, "_noise_ref.wav")
  {
    var dir := "Data\\" + sentence + "\\" + AmplitudeFolder(amp, "noise_references");
    RefOutLayout(sentence, stem, amp);
    assert '.' !in dir + stem by {
      PercentFolderPlain(sentence, amp);
      var base := "Data\\" + sentence + "\\" + ("_" + Decimal(Percent(amp)) + "_percent\\");
      assert dir == base + "noise_references\\";
    }
    ReplaceSuffix(dir + stem, ".wav", PercentTag(amp, "_noise_ref.wav"));
  }

  /** The innermost loop of `main`: both calls for every amplitude, for one
      `.wav` recording found in `origin`. */
  method RunAmplitudes(sentence: string, origin: string, rec: string) returns (batch: seq<Job>)
    requires origin == Origin(sentence)
    ensures batch == AmplitudeJobs(sentence, rec)
  {
    batch := [];
    var source := origin + "\\" + rec;
    var k := 0;
    while k < |NoiseAmplitudes|
      invariant 0 <= k <= |NoiseAmplitudes|
      invariant batch == AmplitudeJobs(sentence, rec)[..k]
    {
      var amp := NoiseAmplitudes[k];
      var outPath := AmplitudePath(sentence, "noisy", rec, amp);
      var noisyPath := Replace(outPath, ".wav", PercentTag(amp, "_noisy.wav"));
      var filteredPath := AmplitudePath(sentence, "filtered", rec, amp);
      var refPath := Replace(filteredPath, "filtered", "noise_references");
      batch := batch + [Job(sentence, rec, amp, source, outPath, noisyPath, filteredPath, refPath)];
      assert AmplitudeJobs(sentence, rec)[..k + 1] == AmplitudeJobs(sentence, rec)[..k] + [PlanJob(sentence, rec, amp)];
      k := k + 1;
    }
  }

  /** The middle loop of `main`: the entries of one sentence's listing, in
      order, skipping every entry that does not end in `.wav`. */
  method RunRecordings(sentence: string, recordings: seq<string>) returns (batch: seq<Job>)
    ensures batch == RecordingJobs(sentence, recordings)
  {
    var origin := "Data\\" + sentence + "\\_0riginal\\audio";
    batch := [];
    var j := 0;
    while j < |recordings|
      invariant 0 <= j <= |recordings|
      invariant batch == RecordingJobs(sentence, recordings[..j])
    {
      var rec := recordings[j];
      assert recordings[..j + 1][..j] == recordings[..j];
      if EndsWith(rec, ".wav") {
        var amps := RunAmplitudes(sentence, origin, rec);
        batch := batch + amps;
      }
      j := j + 1;
    }
    assert recordings[..j] == recordings;
  }

  /** `main`: the nested loops over sentence folders, recordings and
      amplitudes, collecting the calls in the order they are made; `main`
      returns True. */
  method RunExperiments(sentences: seq<string>, listdir: string -> seq<string>) returns (jobs: seq<Job>, ok: bool)
    ensures jobs == Plan(sentences, listdir)
    ensures ok
  {
    jobs := [];
    var i := 0;
    while i < |sentences|
      invariant 0 <= i <= |sentences|
      invariant jobs == Plan(sentences[..i], listdir)
    {
      var sentence := sentences[i];
      var origin := "Data\\" + sentence + "\\_0riginal\\audio";
      var recordings := listdir(origin);
      var batch := RunRecordings(sentence, recordings);
      jobs := jobs + batch;
      assert sentences[..i + 1][..i] == sentences[..i];
      i := i + 1;
    }
    assert sentences[..i] == sentences;
    ok := true;
  }
}
