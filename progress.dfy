/**
 * The progress report pushed after each chunk (gui.py:227-240): the
 * progress-bar value, the percentage taken at the chunk's start, and the
 * elapsed audio time scaled to a human unit. Python computes these with
 * floats; here they are exact reals, and the text formatting is left out.
 */
module Progress {

  datatype TimeUnit = Day | Hour | Minute | Second

  /** The unit the status line shows. */
  function Label(u: TimeUnit): string {
    match u
    case Day => "day"
    case Hour => "hr."
    case Minute => "min."
    case Second => "sec."
  }

  /** How many seconds one displayed unit stands for. */
  function UnitSeconds(u: TimeUnit): real {
    match u
    case Day => 86400.0
    case Hour => 3600.0
    case Minute => 60.0
    case Second => 1.0
  }

  /** Units ordered from the smallest. */
  function Rank(u: TimeUnit): nat {
    match u
    case Second => 0
    case Minute => 1
    case Hour => 2
    case Day => 3
  }

  datatype Duration = Duration(amount: real, unit: TimeUnit)

  /**
   * The if/elif cascade of gui.py:229-239: the largest unit whose threshold
   * the duration strictly exceeds, with the amount divided accordingly.
   */
  function ScaleDuration(seconds: real): (d: Duration)
    ensures d.amount * UnitSeconds(d.unit) == seconds
    ensures d.unit != Second ==> seconds > UnitSeconds(d.unit) && d.amount > 1.0
    ensures d.unit == Hour ==> d.amount <= 24.0
    ensures d.unit == Minute ==> d.amount <= 60.0
    ensures d.unit == Second ==> d.amount == seconds <= 60.0
  {
    if seconds > 86400.0 then Duration(seconds / 86400.0, Day)
    else if seconds > 3600.0 then Duration(seconds / 3600.0, Hour)
    else if seconds > 60.0 then Duration(seconds / 60.0, Minute)
    else Duration(seconds, Second)
  }

  /** Each unit is chosen on exactly one interval; the comparisons are strict. */
  lemma UnitIntervals(seconds: real)
    ensures ScaleDuration(seconds).unit == Day <==> seconds > 86400.0
    ensures ScaleDuration(seconds).unit == Hour <==> 3600.0 < seconds <= 86400.0
    ensures ScaleDuration(seconds).unit == Minute <==> 60.0 < seconds <= 3600.0
    ensures ScaleDuration(seconds).unit == Second <==> seconds <= 60.0
  {
  }

  /** Exactly one minute is still shown in seconds; the unit switches just above each threshold. */
  lemma ThresholdsAreStrict()
    ensures ScaleDuration(60.0) == Duration(60.0, Second)
    ensures ScaleDuration(3600.0) == Duration(60.0, Minute)
    ensures ScaleDuration(86400.0) == Duration(24.0, Hour)
    ensures ScaleDuration(61.0).unit == Minute
  {
  }

  /** A longer duration is never shown in a smaller unit. */
  lemma UnitMonotone(s1: real, s2: real)
    requires s1 <= s2
    ensures Rank(ScaleDuration(s1).unit) <= Rank(ScaleDuration(s2).unit)
  {
    UnitIntervals(s1);
    UnitIntervals(s2);
  }

  /** `i / wav.shape[1] * 100`, the percentage shown at a chunk's start. */
  function Percent(start: int, total: int): real
    requires total > 0
  {
    (start as real) / (total as real) * 100.0
  }

  /** The percentage is 0 at the first chunk, grows with the start, and stays below 100 inside the waveform. */
  lemma PercentProperties(i: int, j: int, total: int)
    requires total > 0
    ensures Percent(0, total) == 0.0
    ensures i < j ==> Percent(i, total) < Percent(j, total)
    ensures 0 <= i < total ==> 0.0 <= Percent(i, total) < 100.0
  {
    var t := total as real;
    if i < j {
      assert (i as real) / t < (j as real) / t;
    }
    if 0 <= i < total {
      assert (i as real) / t < 1.0;
    }
  }

  /**
   * The progress signal after one chunk: where the chunk started, the chunk
   * size and the waveform length. The values shown (gui.py:227, 228-240) are
   * computed from it.
   */
  datatype Report = Report(start: int, chunkSize: int, total: int) {

    /** `progress_bar["value"] = i + chunk_size` (gui.py:227). */
    function Bar(): int {
      start + chunkSize
    }

    /** The percentage in the status line (gui.py:240). */
    function PercentDone(): real
      requires total > 0
    {
      Percent(start, total)
    }

    /** The processed audio time `i / model.sample_rate`, scaled (gui.py:228-239). */
    function Elapsed(sampleRate: nat): Duration
      requires sampleRate > 0
    {
      ScaleDuration((start as real) / (sampleRate as real))
    }
  }
}
