# LMS adaptive filtering and noise mixing, modelled in Dafny

This project models the signal-processing scripts of an audio-filtering research project. It covers four scripts:

- noisify.py adds scaled Gaussian noise to a WAV recording.
- adaptiveFilter.py runs a least-mean-squares (Widrow–Hoff) adaptive transversal filter over a recording.
- __deprecated/adaptiveFilter.py is an older copy of that filter.
- processAudio.py holds its own copies of both. Its batch driver `main` walks a `Data` folder, adds noise at three amplitudes to every `.wav` recording, and filters each noisy file.

The model keeps the scripts' arithmetic over exact reals and their file-name rules over strings. It proves what each call computes and writes.

Modules:

- `Text` covers the Python operations used to build names: `str.endswith`, `str.replace` (non-overlapping, left to right, including the empty-pattern case), `int(x)` (truncation toward zero) and the decimal rendering of an integer.
- `Audio` holds the shared buffer arithmetic and the write record:
  - `np.zeros`, `np.dot` and the peak `max(abs(audio))`;
  - the noisy mixture `audio + noise * amp * peak` and its inverse;
  - `WavWrite`, a record of one `wf.write` call;
  - the 16-bit peak as the scripts compute it (see Findings).
- `LmsFilter` holds the filter recurrence as specification functions and the filter loop as methods over arrays. The recurrence comprises:
  - `Coefficients` and `ErrorAt`, which are mutually recursive;
  - `Filtered`, the output buffer for a given loop end `stop`.

  The array methods are `DotProduct`, `Adapt`, `FilterStep` and `Filter`. `Filter` is proved to produce exactly `Filtered`. The three filter copies differ only in `stop`: adaptiveFilter.py runs to the end, and the other two stop `GuardBand` = 100 samples early.
- `AdaptiveFilter`, `DeprecatedAdaptiveFilter`, `NoisifyScript` and `ProcessAudio` model one script each. `ProcessAudio.RunExperiments` is `main`: three nested loops that collect, in order, the arguments of every `noisify` and `LMS` call. The `Plan` functions specify it.

Several inputs become parameters:

- the samples `wf.read` returns;
- the noise and reference draws;
- the answers of `path.isfile` and `path.exists`;
- `os.listdir`.

The audio is a Dafny sequence, so no call can change the input recording.

## Model

| member | source | states |
|---|---|---|
| `Audio.Peak` | noisify.py:31 | `max(abs(audio))` of a non-empty recording: every sample's magnitude is at most the peak, and some sample attains it |
| `Audio.DotWithZeros` | adaptiveFilter.py:35-40 | a zero coefficient vector predicts 0 for any window |
| `Audio.MixRoundTrip` | noisify.py:31-32 | the noisy mixture keeps the recording's length, and subtracting `noise * amp * peak` recovers the recording exactly |
| `Audio.ScaleCoversEverySample` | noisify.py:31 | for `amp >= 0` the noise scale `amp * peak` is at least `amp * abs(audio[i])` for every sample |
| `Audio.SilenceStaysSilent` | noisify.py:31-32 | an all-zero recording has peak 0, and its mixture is the recording itself, whatever the noise |
| `Audio.MixWithZeroPeak` | processAudio.py:34-35 | with a zero peak the noise term vanishes and the mixture equals the recording |
| `Audio.PeakAsWrittenMissesFullScale` | noisify.py:31 | on 16-bit samples `[-32768, 100]` the peak as written is 100, while the true peak is 32768 |
| `Audio.PeakAsWrittenAgreesOtherwise` | processAudio.py:34 | on 16-bit samples without -32768, the peak as written equals the true peak |
| `Text.Truncate` | processAudio.py:31 | `int(x)` rounds toward zero: for `x >= 0` the result is the floor, and for `x < 0` it is the ceiling |
| `Text.ReplaceSkipsPrefix` | processAudio.py:115 | `replace` copies through unchanged any prefix that lacks the pattern's first character |
| `Text.ReplaceSingle` | processAudio.py:119 | a single occurrence with no other possible match start is replaced, and the text around it is kept |
| `Text.ReplaceSuffix` | processAudio.py:117 | a name whose only possible match is a final `.wav` gets the replacement in place of that ending |
| `Text.ReplaceAbsent` | noisify.py:28 | text without the pattern's first character is returned unchanged |
| `Text.EndsWithAfterPrefix` | processAudio.py:112-113 | a name that ends in `.wav` still does after a folder is prefixed |
| `Text.DecimalIsPlain` | processAudio.py:115 | the rendered percentage consists only of digits and a minus sign |
| `Text.DigitsRoundTrip` | processAudio.py:115 | the decimal digits of a natural number are non-empty, start with a digit and read back as that number |
| `Text.DecimalRoundTrip` | processAudio.py:115 | the f-string rendering of an integer, with its leading `-` when negative, reads back as that integer |
| `Text.NegativeValue` | processAudio.py:115 | a leading `-` negates the value of the digits after it |
| `LmsFilter.Coefficients` | adaptiveFilter.py:35-42 | the coefficient vector always has `fOrder` entries |
| `LmsFilter.CoefficientsStep` | adaptiveFilter.py:39-42 | processing sample `n` sets coefficient `k` to `coef[k] + lRate * error * reference[n-fOrder+k]`, where `error = audio[n] - dot(coef, reference[n-fOrder:n])` |
| `LmsFilter.AdaptedUnchanged` | adaptiveFilter.py:42 | with a zero learning rate or a silent window the update leaves the coefficients unchanged |
| `LmsFilter.ProcessedRange` | adaptiveFilter.py:36-38 | the output has the input's length and is zero outside `[fOrder, stop)`; if `stop <= fOrder` the output is all zeros and the coefficients keep their initial zeros |
| `LmsFilter.OutputDrivesUpdate` | adaptiveFilter.py:39-43 | at each processed `n` the output is `audio[n] - dot(coef_n, reference[n-fOrder:n])`, and that same value is the error in the update that follows |
| `LmsFilter.FirstSampleUnchanged` | adaptiveFilter.py:35-43 | the first processed sample `fOrder` is copied unchanged |
| `LmsFilter.CoefficientsStayZero` | adaptiveFilter.py:35-42 | with `lRate == 0` or an all-zero reference the coefficients never leave zero |
| `LmsFilter.NoAdaptationPassesThrough` | adaptiveFilter.py:38-43 | in that case every processed sample is copied unchanged |
| `LmsFilter.CoefficientsAreCausal` | adaptiveFilter.py:38-42 | the coefficients after sample `n-1` depend only on the audio and reference before `n` |
| `LmsFilter.Causal` | adaptiveFilter.py:38-43 | `filtered[n]` depends only on `audio[..n + 1]` and `reference[..n]` (the samples up to and including `audio[n]`, and the reference before `n`), whatever the loop end |
| `LmsFilter.EarlierStopTruncates` | processAudio.py:77 | stopping earlier (the 100-sample guard band) leaves the output below the earlier stop as it is and zeroes the rest |
| `LmsFilter.FilteredExtends` | adaptiveFilter.py:43 | processing one more sample sets exactly that output sample, to its error |
| `LmsFilter.Output` | adaptiveFilter.py:36 | the buffer being filled always has the input's length |
| `LmsFilter.OutputIsFiltered` | adaptiveFilter.py:36-43 | building the output one sample at a time gives the filtered buffer |
| `LmsFilter.DotProduct` | adaptiveFilter.py:40 | the loop computes `np.dot(coef, reference[lo:lo+len(coef)])` |
| `LmsFilter.Adapt` | adaptiveFilter.py:42 | in place, `coef += lRate * error * window` |
| `LmsFilter.FilterStep` | adaptiveFilter.py:39-43 | one loop body advances the coefficient array and the output array from their state before `n` to their state after `n` |
| `LmsFilter.Filter` | adaptiveFilter.py:35-43 | zero-initialised arrays and the loop over `[fOrder, stop)` return exactly the specified filtered buffer |
| `AdaptiveFilter.FilteredName` | adaptiveFilter.py:45 | the output name is `outFile` followed by exactly `_filtered.wav`: it starts with `outFile`, ends with the suffix and is exactly that much longer |
| `AdaptiveFilter.AdaptiveFilterLms` | adaptiveFilter.py:30-45 | one write, named as above. The filtered buffer covers the whole recording: it is zero below `fOrder`, it is all zero when `len <= fOrder`, and its first processed sample equals the input |
| `DeprecatedAdaptiveFilter.Lms` | __deprecated/adaptiveFilter.py:30-47 | writes the reference to `.wav`→`_noise_ref.wav`, then the filtered buffer to `.wav`→`_filtered.wav`. The buffer is processed on `[fOrder, len-100)`, zero elsewhere and all zero when `len-100 <= fOrder`. The call returns True |
| `NoisifyScript.Noisify` | noisify.py:26-42 | refuses exactly when the input is not an existing `.wav` file, and raises on an empty recording. Otherwise it writes the mixture of the input's length to the name with every `.wav` replaced by `_<p>_noisy.wav`, where subtracting the scaled noise recovers the input. It reports whether the output exists |
| `NoisifyScript.SilentInputWrittenUnchanged` | noisify.py:31-33 | a silent `.wav` recording is written back unchanged |
| `NoisifyScript.NoisyNameOfPlainFile` | noisify.py:28 | output name `stem.wav` (no other dot) becomes `stem_<p>_noisy.wav` |
| `NoisifyScript.NameWithoutDotKept` | noisify.py:28 | an output name without a dot is used unchanged |
| `ProcessAudio.Noisify` | processAudio.py:29-45 | the same contract for processAudio.py's copy, which takes `(inFile, outFile, amp)` |
| `ProcessAudio.Lms` | processAudio.py:69-86 | writes the reference to `.wav`→`_<p>_noise_ref.wav`, then the filtered buffer to `.wav`→`_<p>_filtered.wav`. The buffer is processed on `[fOrder, len-100)`, zero elsewhere and all zero when `len-100 <= fOrder`. The call returns True |
| `ProcessAudio.AmplitudeJobsExactly` | processAudio.py:114-120 | a recording's jobs are exactly its job at each of the three amplitudes |
| `ProcessAudio.RecordingJobsExactly` | processAudio.py:111-120 | a listing yields a job exactly for each entry ending in `.wav` and each amplitude |
| `ProcessAudio.PlanBySentence` | processAudio.py:105-109 | a job is planned exactly when its sentence folder is listed and the job belongs to that folder's listing |
| `ProcessAudio.PlannedExactly` | processAudio.py:102-120 | `main` plans a job if and only if its sentence is listed, its recording is a `.wav` entry of that sentence's `_0riginal\audio` listing and its amplitude is one of the three; the paths are built from those |
| `ProcessAudio.PlanAppend` | processAudio.py:105 | sentence folders are processed in listing order: the jobs for `a + b` are those for `a` followed by those for `b` |
| `ProcessAudio.PlannedCallsAgree` | processAudio.py:113-117 | every planned source ends in `.wav`, so `noisify` refuses it only when the file is missing, and the file `noisify` writes is exactly the path handed to `LMS` |
| `ProcessAudio.AmplitudeFolders` | processAudio.py:91 | the three amplitudes give the tags 5, 25 and 50 |
| `ProcessAudio.FolderOf` | processAudio.py:115 | for a sentence name without `_`, replacing `_0riginal\audio` swaps in the amplitude folder |
| `ProcessAudio.NoisyLayout` | processAudio.py:115-117 | for plain names the noisy file is `Data\<s>\_<p>_percent\noisy\<stem>_<p>_noisy.wav` |
| `ProcessAudio.FilteredLayout` | processAudio.py:118 | for plain names the filtered file is `Data\<s>\_<p>_percent\filtered\<stem>_<p>_filtered.wav` |
| `ProcessAudio.RefOutLayout` | processAudio.py:118-119 | for names without `f`, `.` or `_`, the reference name is `Data\<s>\_<p>_percent\noise_references\<stem>.wav` |
| `ProcessAudio.ReferenceLayout` | processAudio.py:84 | so the reference file is `...\noise_references\<stem>_<p>_noise_ref.wav` |
| `ProcessAudio.RunAmplitudes` | processAudio.py:114-120 | the inner loop collects one job per amplitude, in order |
| `ProcessAudio.RunRecordings` | processAudio.py:109-120 | the middle loop collects the `.wav` entries' jobs in listing order |
| `ProcessAudio.RunExperiments` | processAudio.py:89-121 | the nested loops collect exactly the planned jobs, in order, and `main` returns True when none of the calls raises |

## Left out

- File I/O: reading and writing WAV files, `path.isfile`, `path.exists` and `os.listdir` are not modelled. Their results are parameters, and a write is recorded as a `WavWrite` value. Exceptions they raise (an unreadable file, a missing directory during `main`) are not modelled. `main` is modelled as if every listing succeeds.
- Randomness: the `np.random.normal` and `np.random.randn` draws are parameters.
- The 16-bit casts: the casts on write (`astype(np.int16)`, `np.int16(...)`) are not modelled. The model stops at the real-valued buffers, including the written reference draw, which the cast truncates to small integers.
- Floating point: IEEE behaviour is replaced by exact reals.
  - `Text.Percent` computes `int(amp*100)` exactly. In binary floating point, `0.29*100` truncates to 28 rather than 29. For the amplitudes `main` uses (0.05, 0.25, 0.5) the product is exact.
  - No claim is made about the filter converging or diverging.
- Stereo recordings (two-dimensional sample arrays) are not modelled. Negative `fOrder` is also excluded, where `np.zeros` raises; the model takes a natural number.
- `main` ignores the value `noisify` returns and calls `LMS` even when `noisify` refused. The model records the planned calls. It does not pass file contents from `noisify`'s write to `LMS`'s read; `ProcessAudio.PlannedCallsAgree` connects the two by name only.
- `ProcessAudio.RunExperiments` records each call's arguments; the `LMS` call uses its default `lRate = 0.01` and `fOrder = 100`, which the job does not store. The plan and the returned True assume that no call raises. A listed `.wav` with no samples makes `max` raise inside `noisify` (processAudio.py:34), and a file `LMS` cannot read makes `wf.read` raise (processAudio.py:70); either exception leaves `main` before it returns. The model does not pass recordings to `main`, so it cannot see either case.
- The interactive `main` prompt loops of adaptiveFilter.py, noisify.py and __deprecated/adaptiveFilter.py are not modelled.
- processData.py, processTranscripts.py and extract.py are not part of this model.
- `NoisifyScript.Noisify` and `ProcessAudio.Noisify` take real-valued samples and scale the noise by the true peak `Audio.Peak`. On 16-bit input that contains -32768 they therefore differ from noisify.py:31 and processAudio.py:34 as written, which take the wrapped peak (see Findings, where `Audio.PeakAsWritten` models that).
- `NoisifyScript.Noisify`: it does not state the mixture sample by sample as an ensures. It states it through the exact round trip with `Unmix`, which determines every sample.

## Findings

| source | as written | input that shows it | evidently intended | confidence | as-written member | corrected member |
|---|---|---|---|---|---|---|
| noisify.py:31 | `max(abs(audioData))` on the int16 samples `wf.read` returns. numpy's `abs` maps -32768 to -32768, so a full-scale negative sample never becomes the peak. The same line is at processAudio.py:34 | samples `[-32768, 100]`: the computed peak is 100, so the noise is scaled about 330 times too small | the largest magnitude, 32768 | medium (16-bit PCM input assumed), not executed | `Audio.PeakAsWrittenMissesFullScale` | `Audio.Peak` |
