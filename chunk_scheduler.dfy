/**
 * The chunk loop of the encoding worker (gui.py:209, 217-227): the chunk
 * size in samples, the windows `wav[:, i:i+chunk_size]` for `i` in
 * `range(0, n, chunk_size)`, and the list of encoded chunks built in window
 * order. The waveform is a sequence of frames (one sample per channel) and
 * the codec's `encode` an uninterpreted function that yields None when the
 * engine raises.
 */
module ChunkScheduler {
  import opened Wrappers
  import opened Progress

  /** Python's `int(x)` on a finite float: truncation toward zero. */
  function Trunc(x: real): (k: int)
    ensures x >= 0.0 ==> 0 <= k && k as real <= x < k as real + 1.0
    ensures x < 0.0 ==> k <= 0 && k as real - 1.0 < x <= k as real
  {
    if x >= 0.0 then x.Floor else -((-x).Floor)
  }

  /** `int(model.sample_rate * float(seconds_per_chunk))` (gui.py:209). */
  function ChunkSize(sampleRate: nat, secondsPerChunk: real): int {
    Trunc(sampleRate as real * secondsPerChunk)
  }

  /** A non-positive chunk length gives a non-positive chunk size; so does any length below one sample. */
  lemma ChunkSizeSign(sampleRate: nat, secondsPerChunk: real)
    requires sampleRate > 0
    ensures secondsPerChunk <= 0.0 ==> ChunkSize(sampleRate, secondsPerChunk) <= 0
    ensures ChunkSize(sampleRate, secondsPerChunk) > 0 <==> sampleRate as real * secondsPerChunk >= 1.0
    ensures ChunkSize(sampleRate, secondsPerChunk) == 0 <==> -1.0 < sampleRate as real * secondsPerChunk < 1.0
  {
    var x := sampleRate as real * secondsPerChunk;
    if secondsPerChunk <= 0.0 {
      assert x <= 0.0;
    }
  }

  /** Why the loop never started: `range()` refuses a zero step. */
  datatype ChunkError = StepZero | EncodeFailed(index: nat)

  function Min(a: int, b: int): int {
    if a <= b then a else b
  }

  /** The windows `wav[:, i:i+c]` for i = start, start + c, ... below |wav|. */
  function WindowsFrom<S>(wav: seq<S>, start: nat, c: int): seq<seq<S>>
    requires c > 0
    decreases |wav| - start
  {
    if start >= |wav| then []
    else [wav[start..Min(start + c, |wav|)]] + WindowsFrom(wav, start + c, c)
  }

  /** The windows of `range(0, n, c)`. */
  function Windows<S>(wav: seq<S>, c: int): seq<seq<S>>
    requires c > 0
  {
    WindowsFrom(wav, 0, c)
  }

  /** Ceiling division: the number of windows. */
  function Count(n: nat, c: int): nat
    requires c > 0
  {
    (n + c - 1) / c
  }

  /** Concatenation of a sequence of windows. */
  function Flatten<S>(ws: seq<seq<S>>): seq<S> {
    if ws == [] then [] else ws[0] + Flatten(ws[1..])
  }

  // ---- arithmetic helpers ----

  lemma MulLe(x: int, y: int, c: int)
    requires x <= y && c >= 0
    ensures x * c <= y * c
  {
    assert y * c - x * c == (y - x) * c;
  }

  lemma DivUnique(a: int, c: int, q: int)
    requires c > 0 && q * c <= a < q * c + c
    ensures a / c == q
  {
    var r := a / c;
    assert a == r * c + a % c;
    assert (r + 1) * c == r * c + c;
    assert (q + 1) * c == q * c + c;
    if r < q {
      MulLe(r + 1, q, c);
    } else if r > q {
      MulLe(q + 1, r, c);
    }
  }

  lemma MulPred(k: int, c: int)
    ensures (k - 1) * c == k * c - c
  {
  }

  /** The number of windows is the ceiling of n / c. */
  lemma CountBounds(n: nat, c: int)
    requires c > 0
    ensures n == 0 ==> Count(n, c) == 0
    ensures n > 0 ==> (Count(n, c) - 1) * c < n <= Count(n, c) * c
    ensures Count(n, c) * c < n + c
  {
    var q := Count(n, c);
    var a := n + c - 1;
    assert a == q * c + a % c;
    assert (q - 1) * c == q * c - c;
    if n == 0 { DivUnique(a, c, 0); }
  }

  /** A start k*c lies below n exactly for the first Count(n, c) values of k. */
  lemma StartBelowIff(n: nat, c: int, k: nat)
    requires c > 0
    ensures k * c < n <==> k < Count(n, c)
  {
    var q := Count(n, c);
    CountBounds(n, c);
    if k < q {
      MulLe(k, q - 1, c);
    } else {
      MulLe(q, k, c);
    }
  }

  lemma {:induction false} WindowsFromCount<S>(wav: seq<S>, start: nat, c: int)
    requires c > 0 && start <= |wav|
    ensures |WindowsFrom(wav, start, c)| == Count(|wav| - start, c)
    decreases |wav| - start
  {
    var m := |wav| - start;
    if m == 0 {
      CountBounds(0, c);
    } else if m <= c {
      DivUnique(m + c - 1, c, 1);
      assert WindowsFrom(wav, start + c, c) == [];
    } else {
      WindowsFromCount(wav, start + c, c);
      var q := Count(m - c, c);
      assert q == (m - 1) / c;
      assert m - 1 == q * c + (m - 1) % c;
      MulPred(q + 1, c);
      DivUnique(m + c - 1, c, q + 1);
    }
  }

  lemma WindowsFromAt<S>(wav: seq<S>, start: nat, c: int, k: nat)
    requires c > 0 && k < |WindowsFrom(wav, start, c)|
    ensures start + k * c < |wav|
    ensures WindowsFrom(wav, start, c)[k] == wav[start + k * c..Min(start + k * c + c, |wav|)]
  {
    WindowsFromAtOffset(wav, start, c, k, start + k * c);
  }

  /** Window k of the windows from `start` begins at `at` = start + k * c. */
  lemma {:induction false} WindowsFromAtOffset<S>(wav: seq<S>, start: nat, c: int, k: nat, at: int)
    requires c > 0 && k < |WindowsFrom(wav, start, c)| && at == start + k * c
    ensures at < |wav|
    ensures WindowsFrom(wav, start, c)[k] == wav[at..Min(at + c, |wav|)]
    decreases k
  {
    var ws := WindowsFrom(wav, start, c);
    var rest := WindowsFrom(wav, start + c, c);
    assert ws == [wav[start..Min(start + c, |wav|)]] + rest;
    if k > 0 {
      MulPred(k, c);
      WindowsFromAtOffset(wav, start + c, c, k - 1, at);
    }
  }

  lemma {:induction false} FlattenWindowsFrom<S>(wav: seq<S>, start: nat, c: int)
    requires c > 0 && start <= |wav|
    ensures Flatten(WindowsFrom(wav, start, c)) == wav[start..]
    decreases |wav| - start
  {
    if start < |wav| {
      var ws := WindowsFrom(wav, start, c);
      var next := Min(start + c, |wav|);
      if start + c <= |wav| {
        FlattenWindowsFrom(wav, start + c, c);
      } else {
        assert WindowsFrom(wav, start + c, c) == [];
      }
      assert ws[1..] == WindowsFrom(wav, start + c, c);
      assert wav[start..next] + wav[next..] == wav[start..];
    }
  }

  /** There are ceil(n / c) windows (gui.py:222). */
  lemma WindowsCount<S>(wav: seq<S>, c: int)
    requires c > 0
    ensures |Windows(wav, c)| == Count(|wav|, c) == (|wav| + c - 1) / c
  {
    WindowsFromCount(wav, 0, c);
  }

  /**
   * Window k is the slice `wav[k*c : k*c + c]`, clamped at the end: it starts
   * inside the waveform, holds exactly c frames unless it is the last one, and
   * the last holds between 1 and c (gui.py:224).
   */
  lemma WindowAt<S>(wav: seq<S>, c: int, k: nat)
    requires c > 0 && k < |Windows(wav, c)|
    ensures k * c < |wav|
    ensures Windows(wav, c)[k] == wav[k * c..Min(k * c + c, |wav|)]
    ensures 0 < |Windows(wav, c)[k]| <= c
    ensures k < |Windows(wav, c)| - 1 ==> |Windows(wav, c)[k]| == c
  {
    WindowsFromAt(wav, 0, c, k);
    WindowsCount(wav, c);
    if k < |Windows(wav, c)| - 1 {
      StartBelowIff(|wav|, c, k + 1);
      assert (k + 1) * c == k * c + c;
    }
  }

  /** Consecutive windows meet: window k ends where window k + 1 starts, so no two overlap. */
  lemma WindowsAdjacent<S>(wav: seq<S>, c: int, k: nat)
    requires c > 0 && k + 1 < |Windows(wav, c)|
    ensures k * c + |Windows(wav, c)[k]| == (k + 1) * c
  {
    WindowAt(wav, c, k);
  }

  /** Concatenating the windows in order gives back the waveform. */
  lemma WindowsCoverWaveform<S>(wav: seq<S>, c: int)
    requires c > 0
    ensures Flatten(Windows(wav, c)) == wav
  {
    FlattenWindowsFrom(wav, 0, c);
  }

  /** The window starts are exactly the multiples of c below n (gui.py:222). */
  lemma WindowStarts(n: nat, c: int, i: int)
    requires c > 0
    ensures (exists k :: 0 <= k < Count(n, c) && i == k * c) <==> 0 <= i < n && i % c == 0
  {
    if 0 <= i < n && i % c == 0 {
      var k := i / c;
      assert i == k * c;
      StartBelowIff(n, c, k);
    }
    if exists k :: 0 <= k < Count(n, c) && i == k * c {
      var k :| 0 <= k < Count(n, c) && i == k * c;
      StartBelowIff(n, c, k);
      DivUnique(i, c, k);
    }
  }

  /** Attaches the encodings of the earlier windows in front of a later result. */
  function Prepend<E>(es: seq<E>, r: Result<seq<E>, ChunkError>): Result<seq<E>, ChunkError> {
    match r
    case Success(xs) => Success(es + xs)
    case Failure(EncodeFailed(j)) => Failure(EncodeFailed(|es| + j))
    case Failure(StepZero) => r
  }

  /** Encodes windows in order, stopping at the first the engine fails on. */
  function EncodeWindows<S, E>(encode: seq<S> -> Option<E>, ws: seq<seq<S>>): Result<seq<E>, ChunkError> {
    if ws == [] then Success([])
    else match encode(ws[0])
      case None => Failure(EncodeFailed(0))
      case Some(e) => Prepend([e], EncodeWindows(encode, ws[1..]))
  }

  /**
   * Encoding a list of windows succeeds iff the engine accepts every window,
   * and then entry k is the encoding of window k; otherwise it names the
   * first window the engine rejected.
   */
  lemma {:induction false} EncodeWindowsMeaning<S, E>(encode: seq<S> -> Option<E>, ws: seq<seq<S>>)
    ensures EncodeWindows(encode, ws).Success? <==> forall k :: 0 <= k < |ws| ==> encode(ws[k]).Some?
    ensures EncodeWindows(encode, ws).Success? ==>
      var es := EncodeWindows(encode, ws).value;
      |es| == |ws| && forall k :: 0 <= k < |ws| ==> es[k] == encode(ws[k]).value
    ensures EncodeWindows(encode, ws).Failure? ==>
      var err := EncodeWindows(encode, ws).error;
      err.EncodeFailed? && err.index < |ws| && encode(ws[err.index]).None? &&
      forall k :: 0 <= k < err.index ==> encode(ws[k]).Some?
  {
    if ws != [] {
      EncodeWindowsMeaning(encode, ws[1..]);
      match encode(ws[0])
      case None =>
      case Some(e) =>
        var rest := EncodeWindows(encode, ws[1..]);
        forall k | 1 <= k < |ws| ensures ws[k] == ws[1..][k - 1] { }
        if rest.Success? {
          assert EncodeWindows(encode, ws).value == [e] + rest.value;
        } else {
          assert forall k :: 0 < k < rest.error.index + 1 ==> encode(ws[k]).Some?;
        }
    }
  }

  /** The result of the chunk loop for chunk size c: `range(0, n, c)` raises for c == 0 and is empty for c < 0. */
  function Schedule<S, E>(wav: seq<S>, c: int, encode: seq<S> -> Option<E>): Result<seq<E>, ChunkError> {
    if c == 0 then Failure(StepZero)
    else if c < 0 then Success([])
    else EncodeWindows(encode, Windows(wav, c))
  }

  /** How many windows were encoded before the loop ended. */
  function Encoded<E>(r: Result<seq<E>, ChunkError>): nat {
    match r
    case Success(es) => |es|
    case Failure(StepZero) => 0
    case Failure(EncodeFailed(j)) => j
  }

  /** The reports pushed after the first m chunks. */
  function ProgressTrace(n: nat, c: int, m: nat): (t: seq<Report>)
    ensures |t| == m
    ensures forall k :: 0 <= k < m ==> t[k].total == n
  {
    if m == 0 then [] else ProgressTrace(n, c, m - 1) + [Report((m - 1) * c, c, n)]
  }

  /**
   * The chunk loop of gui.py:217-242: `range(0, n, chunkSize)` raises for a
   * zero step and is empty for a negative one; otherwise the windows are
   * encoded in ascending order, each result appended, and a progress report
   * pushed after each.
   */
  method EncodeChunks<S, E>(wav: seq<S>, chunkSize: int, encode: seq<S> -> Option<E>)
    returns (result: Result<seq<E>, ChunkError>, trace: seq<Report>)
    ensures result == Schedule(wav, chunkSize, encode)
    ensures trace == ProgressTrace(|wav|, chunkSize, Encoded(result))
  {
    if chunkSize == 0 {
      return Failure(StepZero), [];
    } else if chunkSize < 0 {
      return Success([]), [];
    }
    result, trace := EncodeWindowsInOrder(wav, chunkSize, encode);
  }

  /** The loop itself, for a positive chunk size. */
  method EncodeWindowsInOrder<S, E>(wav: seq<S>, chunkSize: int, encode: seq<S> -> Option<E>)
    returns (result: Result<seq<E>, ChunkError>, trace: seq<Report>)
    requires chunkSize > 0
    ensures result == EncodeWindows(encode, Windows(wav, chunkSize))
    ensures trace == ProgressTrace(|wav|, chunkSize, Encoded(result))
  {
    var n := |wav|;
    var encodedChunks: seq<E> := [];
    trace := [];
    var i: nat := 0;
    PrependEmpty(EncodeWindows(encode, Windows(wav, chunkSize)));
    while i < n
      invariant i == |encodedChunks| * chunkSize
      invariant |trace| == |encodedChunks|
      invariant trace == ProgressTrace(n, chunkSize, |trace|)
      invariant Prepend(encodedChunks, EncodeWindows(encode, WindowsFrom(wav, i, chunkSize)))
             == EncodeWindows(encode, Windows(wav, chunkSize))
      decreases n - i
    {
      var chunk := wav[i..Min(i + chunkSize, n)];
      ghost var rest := EncodeWindows(encode, WindowsFrom(wav, i + chunkSize, chunkSize));
      EncodeStep(wav, i, chunkSize, encode);
      var encodedChunk := encode(chunk);
      if encodedChunk.None? {
        return Failure(EncodeFailed(|encodedChunks|)), trace;
      }
      PrependPrepend(encodedChunks, encodedChunk.value, rest);
      TraceStep(n, chunkSize, |trace|, i);
      encodedChunks := encodedChunks + [encodedChunk.value];
      trace := trace + [Report(i, chunkSize, n)];
      i := i + chunkSize;
    }
    assert WindowsFrom(wav, i, chunkSize) == [];
    assert encodedChunks + [] == encodedChunks;
    result := Success(encodedChunks);
  }

  /** One turn of the loop: the first remaining window is encoded, then the rest. */
  lemma EncodeStep<S, E>(wav: seq<S>, i: nat, c: int, encode: seq<S> -> Option<E>)
    requires c > 0 && i < |wav|
    ensures EncodeWindows(encode, WindowsFrom(wav, i, c)) ==
      match encode(wav[i..Min(i + c, |wav|)])
      case None => Failure(EncodeFailed(0))
      case Some(e) => Prepend([e], EncodeWindows(encode, WindowsFrom(wav, i + c, c)))
  {
    var ws := WindowsFrom(wav, i, c);
    assert ws[0] == wav[i..Min(i + c, |wav|)];
    assert ws[1..] == WindowsFrom(wav, i + c, c);
  }

  /** One more report for the chunk at i = m * c extends the trace of m reports. */
  lemma TraceStep(n: nat, c: int, m: nat, i: int)
    requires i == m * c
    ensures ProgressTrace(n, c, m + 1) == ProgressTrace(n, c, m) + [Report(i, c, n)]
    ensures i + c == (m + 1) * c
  {
  }

  lemma PrependEmpty<E>(r: Result<seq<E>, ChunkError>)
    ensures Prepend([], r) == r
  {
    if r.Success? {
      assert [] + r.value == r.value;
    }
  }

  lemma PrependPrepend<E>(es: seq<E>, e: E, r: Result<seq<E>, ChunkError>)
    ensures Prepend(es, Prepend([e], r)) == Prepend(es + [e], r)
  {
    if r.Success? {
      assert es + ([e] + r.value) == (es + [e]) + r.value;
    }
  }

  /** Entry k of the trace is the report for the chunk starting at k * c. */
  lemma {:induction false} ProgressTraceAt(n: nat, c: int, m: nat, k: nat)
    requires k < m
    ensures ProgressTrace(n, c, m)[k] == Report(k * c, c, n)
    decreases m
  {
    if k < m - 1 {
      ProgressTraceAt(n, c, m - 1, k);
    }
  }

  /**
   * Over a whole run with chunk size c > 0, the bar after chunk k reads
   * (k + 1) * c; its last value, ceil(n / c) * c, is at least the maximum n
   * and exceeds it exactly when the last window is partial (gui.py:218, 227).
   */
  lemma ProgressBars(n: nat, c: int, k: nat)
    requires c > 0 && k < Count(n, c)
    ensures ProgressTrace(n, c, Count(n, c))[k].Bar() == (k + 1) * c
    ensures ProgressTrace(n, c, Count(n, c))[Count(n, c) - 1].Bar() == Count(n, c) * c >= n
    ensures Count(n, c) * c > n <==> n % c != 0
  {
    var m := Count(n, c);
    BarAt(n, c, m, k);
    BarAt(n, c, m, m - 1);
    CountCeiling(n, c);
  }

  /** The bar after chunk k of any trace reads (k + 1) * c. */
  lemma BarAt(n: nat, c: int, m: nat, k: nat)
    requires k < m
    ensures ProgressTrace(n, c, m)[k].Bar() == (k + 1) * c
  {
    ProgressTraceAt(n, c, m, k);
    MulPred(k + 1, c);
  }

  /** ceil(n / c) * c is at least n, and exceeds it exactly when c does not divide n. */
  lemma CountCeiling(n: nat, c: int)
    requires c > 0
    ensures Count(n, c) * c >= n
    ensures Count(n, c) * c > n <==> n % c != 0
  {
    var q := n / c;
    var r := n % c;
    assert n == q * c + r;
    MulPred(q + 1, c);
    if r == 0 {
      DivUnique(n + c - 1, c, q);
    } else {
      DivUnique(n + c - 1, c, q + 1);
    }
  }

  /**
   * Over a whole run, the status percentage is 0 for the first chunk, below
   * 100 for every chunk, and strictly increases from chunk to chunk, so 100%
   * is never shown inside the loop (gui.py:240).
   */
  lemma ProgressPercents(n: nat, c: int, k: nat)
    requires c > 0 && n > 0 && k < Count(n, c)
    ensures ProgressTrace(n, c, Count(n, c))[0].PercentDone() == 0.0
    ensures 0.0 <= ProgressTrace(n, c, Count(n, c))[k].PercentDone() < 100.0
    ensures forall l :: k < l < Count(n, c) ==>
      ProgressTrace(n, c, Count(n, c))[k].PercentDone() < ProgressTrace(n, c, Count(n, c))[l].PercentDone()
  {
    var m := Count(n, c);
    ProgressTraceAt(n, c, m, 0);
    ProgressTraceAt(n, c, m, k);
    StartBelowIff(n, c, k);
    PercentProperties(k * c, k * c, n);
    forall l | k < l < m
      ensures ProgressTrace(n, c, m)[k].PercentDone() < ProgressTrace(n, c, m)[l].PercentDone()
    {
      ProgressTraceAt(n, c, m, l);
      MulLe(k + 1, l, c);
      MulPred(k + 1, c);
      PercentProperties(k * c, l * c, n);
    }
  }

  /**
   * Report k shows the audio time k * c / sr scaled by the unit cascade, and
   * over a run the unit shown never steps down (gui.py:228-239).
   */
  lemma ProgressElapsed(n: nat, c: int, sampleRate: nat, k: nat)
    requires c > 0 && sampleRate > 0 && k < Count(n, c)
    ensures ProgressTrace(n, c, Count(n, c))[k].Elapsed(sampleRate)
      == ScaleDuration((k * c) as real / sampleRate as real)
    ensures forall l :: k < l < Count(n, c) ==>
      Rank(ProgressTrace(n, c, Count(n, c))[k].Elapsed(sampleRate).unit)
        <= Rank(ProgressTrace(n, c, Count(n, c))[l].Elapsed(sampleRate).unit)
  {
    var m := Count(n, c);
    var sr := sampleRate as real;
    ProgressTraceAt(n, c, m, k);
    forall l | k < l < m
      ensures Rank(ProgressTrace(n, c, m)[k].Elapsed(sampleRate).unit)
        <= Rank(ProgressTrace(n, c, m)[l].Elapsed(sampleRate).unit)
    {
      ProgressTraceAt(n, c, m, l);
      MulLe(k, l, c);
      assert (k * c) as real / sr <= (l * c) as real / sr;
      UnitMonotone((k * c) as real / sr, (l * c) as real / sr);
    }
  }

  /**
   * The case of a 30-second input at 24 kHz in 10-second chunks: three
   * windows of 240000 frames, the bar reaching the maximum only with the
   * third report.
   */
  lemma ThirtySecondsInTenSecondChunks<S>(wav: seq<S>)
    requires |wav| == 720000
    ensures ChunkSize(24000, 10.0) == 240000
    ensures |Windows(wav, 240000)| == 3
    ensures forall k :: 0 <= k < 3 ==> |Windows(wav, 240000)[k]| == 240000
    ensures ProgressTrace(720000, 240000, 3)[0].Bar() < 720000
    ensures ProgressTrace(720000, 240000, 3)[1].Bar() < 720000 == ProgressTrace(720000, 240000, 3)[2].Bar()
  {
    WindowsCount(wav, 240000);
    DivUnique(720000 + 240000 - 1, 240000, 3);
    forall k | 0 <= k < 3 ensures |Windows(wav, 240000)[k]| == 240000 {
      WindowAt(wav, 240000, k);
    }
    ProgressTraceAt(720000, 240000, 3, 0);
    ProgressTraceAt(720000, 240000, 3, 1);
    ProgressTraceAt(720000, 240000, 3, 2);
  }

  /**
   * The chunk length is only warned about when it is not positive: such a
   * length makes the zero-step `range()` raise, or, once it reaches one
   * sample backwards, makes the loop encode nothing at all.
   */
  lemma NonPositiveChunkLength<S, E>(wav: seq<S>, sampleRate: nat, secondsPerChunk: real, encode: seq<S> -> Option<E>)
    requires sampleRate > 0 && secondsPerChunk <= 0.0
    ensures sampleRate as real * secondsPerChunk > -1.0 ==>
      Schedule(wav, ChunkSize(sampleRate, secondsPerChunk), encode) == Failure(StepZero)
    ensures sampleRate as real * secondsPerChunk <= -1.0 ==>
      Schedule(wav, ChunkSize(sampleRate, secondsPerChunk), encode) == Success([])
  {
    ChunkSizeSign(sampleRate, secondsPerChunk);
  }
}
