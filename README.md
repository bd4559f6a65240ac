# EnCodec GUI encoder: a verified model of the chunked encoding job

This project models, in Dafny, the sequential logic of the EnCodec audio
converter's GUI (`gui.py`): what happens when the user presses **Convert**
(`encode_audio`) and what the background worker then does
(`encode_audio_thread`). The UI, the neural codec, torch and ffmpeg are left
out. The codec's `encode` is an uninterpreted function, and each external
call becomes an input that says whether it succeeded.

The model is made of these parts:

- **Paths** (`paths.dfy`): POSIX `basename`, `splitext` and `join`. Also the
  `.ecdc` output name and the `.wav` test that decides whether the input is
  transcoded.
- **Profiles** (`profiles.dfy`): how the "48kHz" / "24kHz" choice selects a
  model, plus the model's sample rate, its channel count and the rate ffmpeg is
  asked for.
- **Progress** (`progress.dfy`): the time-unit cascade with thresholds 86400,
  3600 and 60 (all strict), the percentage `i / n * 100`, and the per-chunk
  report (chunk start, chunk size, total). The bar value, percentage and
  elapsed time are read from that report.
- **ChunkScheduler** (`chunk_scheduler.dfy`): the chunk size
  `int(sample_rate * seconds)` and the windows of `range(0, n, c)`. The loop
  `EncodeChunks` collects the encoded chunks in order and pushes one report
  per chunk. It is proved against the functions `Schedule` and
  `ProgressTrace`.
- **Submission** (`submission.dfy`): the ordered checks of `encode_audio`
  and the job they produce.
- **Worker** (`worker.dfy`): one run of the worker as a function of the globals
  and the outcomes of its external calls, with lemmas about that run.
- **EncoderApp** (`encoder_app.dfy`): class `App`, which holds the
  module-level globals: `task_ended`, the input/output paths, the chunk length
  and the progress bar. `Submit` is `encode_audio` with its early returns.
  `StartWorker` and `WorkerBody` are the two halves of the worker, and
  `RunWorker` is the whole worker.

Behaviours of the code the model keeps:

- A chunk length ≤ 0 shows an error, but the submission is **not** stopped.
  In the worker, a chunk size of 0 makes `range()` raise, so the job fails. A
  negative chunk size gives an empty range, so an empty list of chunks is saved
  and the job reports success. `Submission.NonPositiveChunkLengthLaunches`,
  `ChunkScheduler.NonPositiveChunkLength` and
  `Worker.NegativeChunkLengthSavesNoChunks` state this.
- The job guard is a plain boolean flag, not an atomic acquire. A submission
  reads it, and the worker's first statement clears it.
- The transcoded temporary WAV is created with `delete=False` and is never
  removed. `recompress_zip` uses a fixed, shared `temp_extracted_zip`
  directory, and its `finally` removes that directory.
- Without chunking, the progress bar's maximum and value are `wav.shape[1]`
  taken after `unsqueeze(0)`, which is the channel count and not the sample
  count.
- The only bitrate/model check is "1.5 with 48kHz". No per-model table of
  supported bitrates exists in the code.

## Model

| member | source | states |
|---|---|---|
| Paths.LastIndex | gui.py:290 | `str.rfind` for one character: -1 or an index holding the character, with no occurrence after it |
| Paths.Basename | gui.py:290 | `os.path.basename` as everything after the last separator; its properties are `Paths.BasenameShape` |
| Paths.SplitExt | gui.py:290 | `os.path.splitext` with the leading-dots rule; its properties are `Paths.SplitExtShape` |
| Paths.Join | gui.py:290 | `os.path.join` for two components; its properties are `Paths.JoinShape` |
| Paths.OutputPath | gui.py:290 | the ".ecdc" file written for an input into a folder; its properties are `Paths.OutputPathShape` and `Paths.OutputPathOfTypicalInput` |
| Paths.Stem | gui.py:290 | `os.path.splitext(name)[0]`, the root `SplitExt` leaves; used by `Paths.OutputPathShape` |
| Paths.DirPrefix | gui.py:290 | the directory `os.path.join` puts a relative component into: the folder, with one separator added unless it is empty or already ends in one; used by `Paths.OutputPathShape` and `Paths.JoinShape` |
| Paths.NeedsTranscode | gui.py:161 | an input is transcoded exactly when it does not end in ".wav"; used by `Worker.TranscodeOnlyForNonWav` |
| Paths.BasenameShape | gui.py:290 | the result has no separator, is a suffix of the path, and is preceded by a separator whenever it is shorter than the path |
| Paths.SplitExtShape | gui.py:290 | root + ext rebuilds the path; ext is empty or one dot followed by no dot and no separator; a non-empty ext leaves a non-dot character before it in the final component (leading dots are not an extension); a final component with a dot after a non-dot character always has its extension split off |
| Paths.JoinShape | gui.py:290 | an absolute component replaces the folder; a relative one follows the folder, with exactly one separator inserted when the folder is non-empty and lacks a trailing one, and none otherwise |
| Paths.OutputPathShape | gui.py:290 | the output file ends in ".ecdc", its file name is the input's file name without extension plus ".ecdc", and it lies directly in the chosen folder |
| Paths.OutputPathOfTypicalInput | gui.py:290 | for an input `dir/stem.ext`, where `ext` is the final extension and `stem` has some non-dot character (inner dots allowed, as in "live.2024.mp3"), the output is `folder/stem.ecdc`, independent of `dir` |
| Profiles.SelectVariant | gui.py:178 | the 48 kHz model exactly for the choice "48kHz", the 24 kHz model for any other text |
| Profiles.TranscodeRate | gui.py:168 | the ffmpeg `-ar` rate: 48000 for "48kHz", 24000 otherwise; tied to the model by `Profiles.TranscodeRateIsModelRate` |
| Profiles.SampleRate | gui.py:209 | the model's native rate, always 24000 or 48000 |
| Profiles.Channels | gui.py:191-194 | the model's channel count, always 1 or 2: the progress maximum in whole-file mode |
| Profiles.TranscodeRateIsModelRate | gui.py:168-178 | the ffmpeg target rate equals the selected model's native rate; the 48 kHz model and rate 48000 are chosen exactly for "48kHz" |
| Progress.Label | gui.py:229-239 | the unit text of the status line: "day", "hr.", "min." or "sec." |
| Progress.Percent | gui.py:240 | `i / wav.shape[1] * 100`; its properties are `Progress.PercentProperties` |
| Progress.Report.Bar | gui.py:227 | the bar value after a chunk; its values over a run are `ChunkScheduler.ProgressBars` |
| Progress.Report.PercentDone | gui.py:240 | the percentage for a report; its values over a run are `ChunkScheduler.ProgressPercents` |
| Progress.Report.Elapsed | gui.py:228-239 | the scaled audio time for a report; its values over a run are `ChunkScheduler.ProgressElapsed` |
| Progress.ScaleDuration | gui.py:228-239 | amount × unit length gives back the duration; a unit above seconds is only used past its threshold with amount > 1; hours ≤ 24, minutes ≤ 60, seconds unchanged and ≤ 60 |
| Progress.UnitIntervals | gui.py:229-239 | day iff > 86400, hr. iff in (3600, 86400], min. iff in (60, 3600], sec. iff ≤ 60 |
| Progress.ThresholdsAreStrict | gui.py:229-239 | exactly 60 s stays "sec.", 3600 s is 60 "min.", 86400 s is 24 "hr.", 61 s is "min." |
| Progress.UnitMonotone | gui.py:229-239 | a longer duration is never shown in a smaller unit |
| Progress.PercentProperties | gui.py:240 | the percentage is 0 at the start, strictly increasing in the chunk start, and in [0, 100) for any start inside the waveform |
| ChunkScheduler.ChunkSize | gui.py:209 | the chunk size as the truncation of sr × length; its sign is `ChunkScheduler.ChunkSizeSign` |
| ChunkScheduler.Windows | gui.py:222-224 | the slices for `range(0, n, c)`; their layout is `WindowsCount`, `WindowAt`, `WindowsAdjacent`, `WindowsCoverWaveform` |
| ChunkScheduler.EncodeWindows | gui.py:223-225 | the windows encoded in order, stopping at the first one the engine rejects; its meaning is `ChunkScheduler.EncodeWindowsMeaning` |
| ChunkScheduler.Schedule | gui.py:222-225 | the loop's result for any chunk size: the `range()` error for 0, nothing for a negative size, `EncodeWindows` otherwise; met by `ChunkScheduler.EncodeChunks` |
| ChunkScheduler.ProgressTrace | gui.py:227-242 | the reports after the first m chunks, m of them, all for the same total; entries given by `ChunkScheduler.ProgressTraceAt` |
| ChunkScheduler.Trunc | gui.py:209 | `int()` truncates toward zero: within one of the real value, same sign |
| ChunkScheduler.ChunkSizeSign | gui.py:209 | a length ≤ 0 gives a size ≤ 0; the size is positive iff sr × length ≥ 1, and 0 iff sr × length lies in (-1, 1) |
| ChunkScheduler.WindowsCount | gui.py:222 | there are ceil(n / c) windows |
| ChunkScheduler.WindowStarts | gui.py:222 | the window starts are exactly the multiples of c below n |
| ChunkScheduler.WindowAt | gui.py:222-224 | window k is `wav[k*c : k*c + c]` clamped to n, starts inside the waveform, holds 1..c frames, and exactly c unless it is the last |
| ChunkScheduler.WindowsAdjacent | gui.py:222-224 | window k ends where window k + 1 starts, so windows do not overlap |
| ChunkScheduler.WindowsCoverWaveform | gui.py:222-224 | concatenating the windows in order reproduces the waveform |
| ChunkScheduler.EncodeWindowsMeaning | gui.py:223-225 | encoding succeeds iff the engine accepts every window, and then entry k is the encoding of window k; otherwise the error names the first window the engine rejected |
| ChunkScheduler.EncodeChunks | gui.py:217-227 | the loop's result is the schedule for the chunk size (raises for 0, empty for negative, window-ordered encodings otherwise), and its reports are those of the chunks it encoded |
| ChunkScheduler.EncodeWindowsInOrder | gui.py:217-227 | for a positive size, the appended list equals the in-order encoding of all windows, and one report is pushed per encoded window |
| ChunkScheduler.ProgressTraceAt | gui.py:227-240 | report k is the one for the chunk starting at k × c |
| ChunkScheduler.ProgressBars | gui.py:218-227 | after chunk k the bar reads (k + 1) × c; its last value ceil(n/c) × c is at least the maximum n and exceeds it iff the last window is partial |
| ChunkScheduler.ProgressPercents | gui.py:240 | for every run, one-window runs included, the percentage of the first report is 0, every report's is in [0, 100), and later reports show strictly larger percentages |
| ChunkScheduler.ProgressElapsed | gui.py:228-239 | report k shows the audio time k × c / sr scaled by the unit cascade, and over a run the unit shown never steps down |
| ChunkScheduler.ThirtySecondsInTenSecondChunks | gui.py:209-227 | 30 s at 24 kHz in 10 s chunks: size 240000, three full windows, and the bar reaches the maximum only at the third report |
| ChunkScheduler.NonPositiveChunkLength | gui.py:209-222 | a chunk length ≤ 0 makes the loop raise (size 0) or encode nothing (size ≤ -1) |
| Submission.Unsupported | gui.py:274 | the refused combination: bitrate "1.5" with the "48kHz" model |
| Submission.FileSystem.IsFile | gui.py:277 | `os.path.isfile` as membership in the set of regular files |
| Submission.FileSystem.Exists | gui.py:291 | `os.path.exists` as membership in the files or directories |
| Submission.Decide | gui.py:266-294 | a running job is refused first; a submission is accepted iff all five checks pass; an accepted job has the form's input, folder and chunk length and the ".ecdc" output path; the warning is shown iff length ≤ 0; overwrite is asked iff the output exists; the worker starts iff it does not exist or the user agrees |
| Submission.RejectionIsFirstFailedCheck | gui.py:268-287 | each rejection reason occurs exactly when every earlier check passed and its own failed |
| Submission.NonPositiveChunkLengthLaunches | gui.py:281-297 | with a length ≤ 0 and nothing in the way, the error is shown and the worker is still started with that length |
| Worker.Execute | gui.py:157-255 | one run of the try block, branch by branch; its properties are the Worker lemmas below, and `EncoderApp.App.Attempt` performs it |
| Worker.FfmpegMissingEncodesNothing | gui.py:161-177 | an input that needs ffmpeg, when ffmpeg is missing, ends the job with no transcoding, no encoding and no state change |
| Worker.TranscodeOnlyForNonWav | gui.py:161-178 | transcoding is requested iff the input does not end in ".wav" (folder ready, ffmpeg present), for that input, at the selected model's rate (48000 iff "48kHz"); a ".wav" input keeps its path |
| Worker.DoneWritesOutputFile | gui.py:244-255 | a finished job wrote the submitted output file, every external step succeeded, and the bar is back at 0 |
| Worker.ChunkedJobEncodesEveryWindow | gui.py:206-250 | a finished chunked job saved one encoding per window, ceil(n/c) of them, entry k being the encoding of window k, with one report per window |
| Worker.ChunkFailureStopsAtWindow | gui.py:220-259 | an engine failure on window j fails the job naming j; the windows before it were all accepted and reported |
| Worker.NegativeChunkLengthSavesNoChunks | gui.py:161-250 | a chunked job with sr × length ≤ -1 whose earlier steps succeed (a non-".wav" input transcoded by ffmpeg included) saves an empty chunk list and reports success |
| EncoderApp.App.constructor | gui.py:265 | the guard starts released, so no job is running |
| EncoderApp.App.Submit | gui.py:266-297 | the verdict is `Decide` on the current guard; the guard and progress bar do not change; an accepted submission sets the four globals (even if the overwrite is then declined), a rejected one leaves them unchanged |
| EncoderApp.App.StartWorker | gui.py:155 | the worker's first step takes the guard |
| EncoderApp.App.Attempt | gui.py:157-255 | the try block performs `Worker.Execute` on the current globals and leaves its final globals; it takes the guard back only on the ffmpeg-missing return and leaves it alone on every other path |
| EncoderApp.App.WorkerBody | gui.py:156-263 | the worker body performs the run and releases the guard on every exit path: success, failure, or the ffmpeg-missing return |
| EncoderApp.App.RunWorker | gui.py:153-263 | the whole worker performs the run and ends with the guard released |
| EncoderApp.SubmitAroundJob | gui.py:153-270 | a submission made while the worker runs is refused as "already running"; after the worker ends, the same submission gets the verdict it would have had before |

## Left out

- The Tkinter UI is not modelled: widgets, `ToolTip`, file and folder pickers, dialog texts, the status label text and `update_idletasks`. Dialogs show up only as fields of the verdict, and the status line only as the per-chunk report.
- The EnCodec, torch and torchaudio calls are not modelled. Model loading is reduced to the set of variants that loaded. The waveform returned by `torchaudio.load` plus `convert_audio` is an input. `encode` is uninterpreted, and returns None where the engine raises. The byte format of `torch.save` is not modelled.
- `set_target_bandwidth` is not modelled (it lives in the codec library). The model assumes it succeeds once a submission has passed the 1.5 kbps / 48 kHz check.
- `recompress_zip` (zip extraction and rebuild) is reduced, together with `torch.save`, to one success flag.
- The ffmpeg subprocess, `tempfile`, `shutil.which`, `os.makedirs`, `os.path.isfile` and `os.path.exists` are input flags or path sets. Paths are compared as plain strings, with no normalisation.
- Only POSIX path rules are modelled; Windows `ntpath` rules are not.
- The worker thread is modelled sequentially. The race between a submission's check and the worker clearing the flag is not captured.
- Floats are modelled as exact reals, so rounding in `sample_rate * seconds` and in the percentage is not captured. `float()` parsing is an input (None when it raises). Non-finite inputs such as "inf" and "nan" are not modelled, and neither is a finite length whose product with the sample rate overflows to infinity (for example 1e304): for all of these `int()` raises and the job fails, while the model gives a chunk size.
- The progress bar value is overwritten once per chunk in the source. The model records every value in the report trace and stores only the last one in the field.
- tqdm, logging, `:.2f` formatting and the elapsed-time `strftime` are not modelled (display only).
- The commented-out abort code is not modelled.
