/**
 * The checks `encode_audio` makes when the Convert button is pressed
 * (gui.py:266-297), in their order, and the job they produce. Dialogs are
 * reported in the verdict; the file system is a pair of path sets.
 */
module Submission {
  import opened Wrappers
  import opened Paths

  /** What the window holds when Convert is pressed. `chunkLength` is `float()` of the entry, None if that raised. */
  datatype Form = Form(fileField: Path, folderField: Path, model: string, bitrate: string, chunkLength: Option<real>)

  /** Regular files and directories, for `os.path.isfile` and `os.path.exists`. */
  datatype FileSystem = FileSystem(files: set<Path>, dirs: set<Path>) {
    predicate IsFile(p: Path) {
      p in files
    }

    predicate Exists(p: Path) {
      p in files || p in dirs
    }
  }

  /** The globals a launched worker reads (gui.py:280-290). */
  datatype Job = Job(inputFile: Path, outputFolder: Path, outputFile: Path, secondsPerChunk: real)

  /** The error dialogs that end a submission. */
  datatype Rejection = AlreadyRunning | NoFileSelected | UnsupportedBitrate | FileNotFound | InvalidChunkLength

  /**
   * A rejected submission, or one that got past the checks: whether the
   * chunk-length error was shown, whether the overwrite question was asked,
   * and whether the worker was started.
   */
  datatype Verdict =
    | Rejected(reason: Rejection)
    | Accepted(job: Job, chunkLengthWarning: bool, overwriteAsked: bool, launched: bool)

  const UnsupportedRate: string := "1.5"

  /** 1.5 kbps is refused with the 48 kHz model (gui.py:274). */
  predicate Unsupported(form: Form) {
    form.bitrate == UnsupportedRate && form.model == "48kHz"
  }

  /**
   * The checks of gui.py:268-294 in order: a running job, an empty file
   * field, 1.5 kbps with 48 kHz, a missing file, a chunk length that does not
   * parse. A chunk length that parses but is not positive only shows an error;
   * the submission goes on. An existing output file needs the user's yes.
   */
  function Decide(taskEnded: bool, form: Form, fs: FileSystem, confirmOverwrite: bool): (v: Verdict)
    ensures !taskEnded ==> v == Rejected(AlreadyRunning)
    ensures v.Accepted? <==>
      taskEnded && form.fileField != [] && !Unsupported(form) && fs.IsFile(form.fileField) && form.chunkLength.Some?
    ensures v.Accepted? ==>
      && v.job.inputFile == form.fileField
      && v.job.outputFolder == form.folderField
      && v.job.outputFile == OutputPath(form.folderField, form.fileField)
      && v.job.secondsPerChunk == form.chunkLength.value
      && (v.chunkLengthWarning <==> form.chunkLength.value <= 0.0)
      && (v.overwriteAsked <==> fs.Exists(v.job.outputFile))
      && (v.launched <==> !fs.Exists(v.job.outputFile) || confirmOverwrite)
  {
    if !taskEnded then Rejected(AlreadyRunning)
    else if form.fileField == [] then Rejected(NoFileSelected)
    else if Unsupported(form) then Rejected(UnsupportedBitrate)
    else if !fs.IsFile(form.fileField) then Rejected(FileNotFound)
    else if form.chunkLength.None? then Rejected(InvalidChunkLength)
    else
      var seconds := form.chunkLength.value;
      var output := OutputPath(form.folderField, form.fileField);
      var present := fs.Exists(output);
      Accepted(Job(form.fileField, form.folderField, output, seconds), seconds <= 0.0, present, !present || confirmOverwrite)
  }

  /** Each rejection names the first check that failed: every earlier check passed. */
  lemma RejectionIsFirstFailedCheck(taskEnded: bool, form: Form, fs: FileSystem, confirmOverwrite: bool)
    ensures Decide(taskEnded, form, fs, confirmOverwrite) == Rejected(NoFileSelected) <==>
      taskEnded && form.fileField == []
    ensures Decide(taskEnded, form, fs, confirmOverwrite) == Rejected(UnsupportedBitrate) <==>
      taskEnded && form.fileField != [] && Unsupported(form)
    ensures Decide(taskEnded, form, fs, confirmOverwrite) == Rejected(FileNotFound) <==>
      taskEnded && form.fileField != [] && !Unsupported(form) && !fs.IsFile(form.fileField)
    ensures Decide(taskEnded, form, fs, confirmOverwrite) == Rejected(InvalidChunkLength) <==>
      taskEnded && form.fileField != [] && !Unsupported(form) && fs.IsFile(form.fileField) && form.chunkLength.None?
  {
  }

  /**
   * A chunk length of zero or less is reported but does not stop the job: with
   * every other check passed and no file in the way, the worker is started
   * with that length (gui.py:283-284).
   */
  lemma NonPositiveChunkLengthLaunches(form: Form, fs: FileSystem, confirmOverwrite: bool)
    requires form.fileField != [] && !Unsupported(form) && fs.IsFile(form.fileField)
    requires form.chunkLength.Some? && form.chunkLength.value <= 0.0
    requires !fs.Exists(OutputPath(form.folderField, form.fileField))
    ensures Decide(true, form, fs, confirmOverwrite).Accepted?
    ensures Decide(true, form, fs, confirmOverwrite).chunkLengthWarning
    ensures Decide(true, form, fs, confirmOverwrite).launched
    ensures Decide(true, form, fs, confirmOverwrite).job.secondsPerChunk <= 0.0
  {
  }
}
