/**
 * The encoder's module-level state and the two entry points that change it:
 * `encode_audio`, run by the Convert button, and `encode_audio_thread`, the
 * worker it starts. The `task_ended` flag is the single-job guard. The thread
 * is modelled sequentially: starting the worker and running its body are two
 * steps between which a further submission can be made.
 */
module EncoderApp {
  import opened Wrappers
  import opened Paths
  import opened Profiles
  import opened Progress
  import opened ChunkScheduler
  import opened Submission
  import opened Worker

  class App {
    /** `task_ended`: true while no worker is running. */
    var taskEnded: bool
    var inputFile: Path
    var outputFolder: Path
    var outputFile: Path
    var secondsPerChunk: real
    /** `progress_bar["value"]` and `progress_bar["maximum"]`. */
    var progressValue: int
    var progressMaximum: int

    /** The state the worker reads and writes. */
    function State(): Globals
      reads this
    {
      Globals(inputFile, outputFile, secondsPerChunk, progressValue, progressMaximum)
    }

    /** Start-up: no job has run (gui.py:265); a ttk progress bar starts at 0 of 100. */
    constructor ()
      ensures taskEnded
      ensures inputFile == [] && outputFolder == [] && outputFile == [] && secondsPerChunk == 0.0
      ensures progressValue == 0 && progressMaximum == 100
    {
      taskEnded := true;
      inputFile, outputFolder, outputFile := [], [], [];
      secondsPerChunk := 0.0;
      progressValue, progressMaximum := 0, 100;
    }

    /**
     * `encode_audio` (gui.py:266-297): the checks in order, each ending the
     * submission with an error, then the globals set for the worker. The
     * globals are assigned before the overwrite question, so a declined
     * overwrite leaves them set although nothing is launched.
     */
    method Submit(form: Form, fs: FileSystem, confirmOverwrite: bool) returns (verdict: Verdict)
      modifies this
      ensures verdict == Decide(old(taskEnded), form, fs, confirmOverwrite)
      ensures taskEnded == old(taskEnded)
      ensures progressValue == old(progressValue) && progressMaximum == old(progressMaximum)
      ensures verdict.Accepted? ==>
        && inputFile == verdict.job.inputFile && outputFolder == verdict.job.outputFolder
        && outputFile == verdict.job.outputFile && secondsPerChunk == verdict.job.secondsPerChunk
      ensures verdict.Rejected? ==>
        && inputFile == old(inputFile) && outputFolder == old(outputFolder)
        && outputFile == old(outputFile) && secondsPerChunk == old(secondsPerChunk)
    {
      if !taskEnded {
        return Rejected(AlreadyRunning);
      }
      if form.fileField == [] {
        return Rejected(NoFileSelected);
      }
      if Unsupported(form) {
        return Rejected(UnsupportedBitrate);
      }
      if !fs.IsFile(form.fileField) {
        return Rejected(FileNotFound);
      }
      if form.chunkLength.None? {
        return Rejected(InvalidChunkLength);
      }
      secondsPerChunk := form.chunkLength.value;
      var warning := secondsPerChunk <= 0.0;  // reported, but the submission goes on
      outputFolder := form.folderField;
      inputFile := form.fileField;
      outputFile := OutputPath(outputFolder, inputFile);
      var asked := fs.Exists(outputFile);
      var job := Job(inputFile, outputFolder, outputFile, secondsPerChunk);
      if asked && !confirmOverwrite {
        return Accepted(job, warning, true, false);
      }
      verdict := Accepted(job, warning, asked, true);
    }

    /** The worker's first statement (gui.py:155): the guard is taken. */
    method StartWorker()
      modifies this`taskEnded
      ensures !taskEnded
    {
      taskEnded := false;
    }

    /**
     * The rest of the worker (gui.py:156-263): the try block, then the
     * `finally` that sets the guard again on every exit path.
     */
    method WorkerBody<S, E>(settings: Settings, env: Environment<S>, encode: seq<S> -> Option<E>) returns (run: Run<E>)
      modifies this
      ensures run == Execute(old(State()), settings, env, encode)
      ensures State() == run.globals
      ensures taskEnded
      ensures outputFolder == old(outputFolder)
    {
      run := Attempt(settings, env, encode);
      taskEnded := true;
    }

    /** `encode_audio_thread` as a whole: the guard is taken, the job runs, the guard is released. */
    method RunWorker<S, E>(settings: Settings, env: Environment<S>, encode: seq<S> -> Option<E>) returns (run: Run<E>)
      modifies this
      ensures run == Execute(old(State()), settings, env, encode)
      ensures State() == run.globals
      ensures taskEnded
      ensures outputFolder == old(outputFolder)
    {
      StartWorker();
      run := WorkerBody(settings, env, encode);
    }

    /** The try block of gui.py:157-255, each early exit being an exception or the ffmpeg return. */
    method Attempt<S, E>(settings: Settings, env: Environment<S>, encode: seq<S> -> Option<E>) returns (run: Run<E>)
      modifies this
      ensures run == Execute(old(State()), settings, env, encode)
      ensures State() == run.globals
      ensures outputFolder == old(outputFolder)
      ensures taskEnded == (old(taskEnded) || run.outcome.FfmpegMissing?)
    {
      if !env.outputDirReady {
        return Run(Failed(OutputDirError), None, [], State());
      }
      var transcode: Option<Transcode> := None;
      if NeedsTranscode(inputFile) {
        if !env.ffmpegInstalled {
          taskEnded := true;
          return Run(FfmpegMissing, None, [], State());
        }
        transcode := Some(Transcode(inputFile, TranscodeRate(settings.model)));
        if !env.transcodeSucceeds {
          return Run(Failed(TranscodeError), transcode, [], State());
        }
        inputFile := env.tempWav;
      }
      var variant := SelectVariant(settings.model);
      if variant !in env.loaded {
        return Run(Failed(ModelUnavailable), transcode, [], State());
      }
      if !settings.chunking {
        if env.audio.None? {
          return Run(Failed(LoadError), transcode, [], State());
        }
        var wav := env.audio.value;
        progressMaximum := Channels(variant);
        var frames := encode(wav);
        if frames.None? {
          return Run(Failed(EncodeError), transcode, [], State());
        }
        if !env.saveSucceeds {
          return Run(Failed(SaveError), transcode, [], State());
        }
        progressValue := Channels(variant);
        progressValue := 0;
        run := Run(Done(outputFile, Whole(frames.value)), transcode, [], State());
      } else {
        var chunkSize := ChunkSize(SampleRate(variant), secondsPerChunk);
        if env.audio.None? {
          return Run(Failed(LoadError), transcode, [], State());
        }
        var wav := env.audio.value;
        progressMaximum := |wav|;
        var result, trace := EncodeChunks(wav, chunkSize, encode);
        if trace != [] {
          progressValue := trace[|trace| - 1].Bar();
        }
        if result.Failure? {
          return Run(Failed(ChunkFailure(result.error)), transcode, trace, State());
        }
        if !env.saveSucceeds {
          return Run(Failed(SaveError), transcode, trace, State());
        }
        progressValue := 0;
        run := Run(Done(outputFile, Chunks(result.value)), transcode, trace, State());
      }
    }
  }

  /**
   * The guard at work: while a worker runs, a submission is refused and
   * changes nothing; once its body has ended, on whatever path, the same
   * submission gets the verdict it would have had before the job.
   */
  method SubmitAroundJob<S, E>(app: App, form: Form, fs: FileSystem, confirmOverwrite: bool,
                               settings: Settings, env: Environment<S>, encode: seq<S> -> Option<E>)
    returns (during: Verdict, after: Verdict)
    requires app.taskEnded
    modifies app
    ensures during == Rejected(AlreadyRunning)
    ensures after == Decide(true, form, fs, confirmOverwrite)
    ensures app.taskEnded
  {
    app.StartWorker();
    during := app.Submit(form, fs, confirmOverwrite);
    var run := app.WorkerBody(settings, env, encode);
    after := app.Submit(form, fs, confirmOverwrite);
  }
}
