/**
 * The image handler's download bookkeeping: the byte-copy loop that fetches
 * an image into the cache file, the progress it reports, the cancel flag it
 * honours, and the tracker that remembers which link the cache file holds.
 *
 * The connection is an input: either it cannot be opened, or it declares a
 * content length and then delivers a sequence of chunk sizes (what each read
 * into the 2048-byte buffer returns) before the stream ends or a read fails.
 * The cancel flag is set from another thread; the value the loop sees at each
 * check is an input, one per chunk.
 */
module ImageHandling {

  const ByteArraySize: int := 2048
  const DownloadProgressCompletedValue: int := 100

  /** Whether the cache file holds a complete download, and of which link. */
  datatype CacheTracker = CacheTracker(cached: bool, link: string)

  const Untracked: CacheTracker := CacheTracker(false, "")

  datatype StreamEnd = EndOfStream | ReadFailure

  datatype Connection =
    | ConnectFailure
    | Connected(contentLength: int, chunks: seq<nat>, end: StreamEnd)

  datatype FetchError = ImageDownloadException | IOException

  /** What the download observable emits. */
  datatype Signal = Next(progress: int) | Error(error: FetchError) | Complete

  /** Each read returns at most a buffer's worth of bytes. */
  predicate ValidChunks(chunks: seq<nat>) {
    forall i :: 0 <= i < |chunks| ==> chunks[i] <= ByteArraySize
  }

  /** Total bytes delivered by `chunks`. */
  function Sum(chunks: seq<nat>): nat {
    if chunks == [] then 0 else Sum(chunks[..|chunks| - 1]) + chunks[|chunks| - 1]
  }

  function Abs(x: int): nat {
    if x < 0 then -x else x
  }

  /** Division as Kotlin's `/` on Long does it: the quotient is truncated toward zero. */
  function TruncDiv(a: int, b: int): (q: int)
    requires b != 0
    ensures a >= 0 && b > 0 ==> q == a / b
    ensures a >= 0 && b < 0 ==> q <= 0
  {
    if (a < 0) == (b < 0) then Abs(a) / Abs(b)
    else
      DivMonotone(0, Abs(a), Abs(b));
      -(Abs(a) / Abs(b))
  }

  /**
   * Percentage for `read` bytes out of a declared `length`, truncated toward
   * zero. It never reaches 100 for a negative length; for a positive one it
   * stays within 0..100 while no more than the declared length has been read,
   * and is exactly 100 once the declared length has been read.
   */
  function Progress(read: nat, length: int): (p: int)
    requires length != 0
    ensures length < 0 ==> p <= 0
    ensures length > 0 ==> p >= 0
    ensures length > 0 && read <= length ==> p <= DownloadProgressCompletedValue
    ensures length > 0 && read == length ==> p == DownloadProgressCompletedValue
  {
    ProgressBounds(read, length);
    TruncDiv(read * 100, length)
  }

  lemma ProgressBounds(read: nat, length: int)
    requires length != 0
    ensures length > 0 ==> TruncDiv(read * 100, length) >= 0
    ensures length > 0 && read <= length ==> TruncDiv(read * 100, length) <= DownloadProgressCompletedValue
    ensures length > 0 && read == length ==> TruncDiv(read * 100, length) == DownloadProgressCompletedValue
  {
    if length > 0 {
      DivMonotone(0, read * 100, length);
      if read <= length {
        DivMonotone(read * 100, length * 100, length);
        assert length * 100 / length == 100;
      }
    }
  }

  /** Number of checks that passed before the first one that saw the flag cleared. */
  function FirstCancel(checks: seq<bool>): (k: nat)
    ensures k <= |checks|
    ensures forall i :: 0 <= i < k ==> checks[i]
    ensures k < |checks| ==> !checks[k]
  {
    if checks == [] || !checks[0] then 0 else 1 + FirstCancel(checks[1..])
  }

  /** The progress after each of the first `n` chunks. */
  function ProgressUpTo(chunks: seq<nat>, length: int, n: nat): (r: seq<int>)
    requires length > 0 && n <= |chunks|
    ensures |r| == n
  {
    seq(n, j requires 0 <= j < n => Progress(Sum(chunks[..j + 1]), length))
  }

  /** The progress values one fetch emits: one per chunk until the first cancelled check. */
  function EmittedProgress(chunks: seq<nat>, checks: seq<bool>, length: int): (r: seq<int>)
    requires length > 0 && |checks| == |chunks|
    ensures |r| == FirstCancel(checks) <= |chunks|
  {
    ProgressUpTo(chunks, length, FirstCancel(checks))
  }

  /**
   * An emitter that has delivered onError or onComplete ignores every later
   * signal; before that, the last signal delivered is always a Next.
   */
  predicate Terminated(signals: seq<Signal>) {
    signals != [] && !signals[|signals| - 1].Next?
  }

  /** Delivers `s` through the emitter: appended, unless the emitter has terminated. */
  function Emit(signals: seq<Signal>, s: Signal): (r: seq<Signal>)
    ensures Terminated(signals) ==> r == signals
    ensures !Terminated(signals) ==> r == signals + [s]
    ensures Terminated(r) <==> Terminated(signals) || !s.Next?
  {
    if Terminated(signals) then signals else signals + [s]
  }

  /**
   * How many chunks the loop writes to the cache file. Every chunk read is
   * written before the flag is checked; a cleared check stops the loop, and a
   * declared length of 0 stops it at the first division, by zero.
   */
  function CopiedChunks(length: int, checks: seq<bool>): (n: nat)
    ensures n <= |checks|
  {
    var k := FirstCancel(checks);
    if length == 0 then (if checks == [] then 0 else 1)
    else if k < |checks| then k + 1
    else k
  }

  /** The continue flag when the loop ends: the value of its last check, true if none. */
  function FlagAfterCopy(length: int, checks: seq<bool>): bool {
    if length == 0 then checks == [] || checks[0]
    else FirstCancel(checks) == |checks|
  }

  function NextSignals(progress: seq<int>): (r: seq<Signal>)
    ensures |r| == |progress|
    ensures forall i :: 0 <= i < |r| ==> r[i] == Next(progress[i])
  {
    seq(|progress|, i requires 0 <= i < |progress| => Next(progress[i]))
  }

  lemma SumStep(chunks: seq<nat>, i: nat)
    requires i < |chunks|
    ensures Sum(chunks[..i + 1]) == Sum(chunks[..i]) + chunks[i]
  {
    assert chunks[..i + 1][..i] == chunks[..i];
  }

  lemma {:induction false} SumPrefixMonotone(chunks: seq<nat>, i: nat, j: nat)
    requires i <= j <= |chunks|
    ensures Sum(chunks[..i]) <= Sum(chunks[..j])
    decreases j
  {
    if i < j {
      assert chunks[..j][..j - 1] == chunks[..j - 1];
      SumPrefixMonotone(chunks, i, j - 1);
    }
  }

  lemma ProgressUpToStep(chunks: seq<nat>, length: int, i: nat)
    requires length > 0 && i < |chunks|
    ensures ProgressUpTo(chunks, length, i + 1) == ProgressUpTo(chunks, length, i) + [Progress(Sum(chunks[..i + 1]), length)]
  {
  }

  lemma NextSignalsNotTerminated(progress: seq<int>)
    ensures !Terminated(NextSignals(progress))
  {
  }

  lemma DivMonotone(a: int, b: int, d: int)
    requires 0 <= a <= b && d > 0
    ensures a / d <= b / d
  {
    assert d * (a / d) <= a;
    assert b < d * (b / d) + d;
    MulCancel(d, a / d, b / d + 1);
  }

  lemma MulCancel(d: int, x: int, y: int)
    requires d > 0 && d * x < d * y
    ensures x < y
  {
  }

  /** Progress never goes down within one fetch: the byte count only grows. */
  lemma EmittedProgressNonDecreasing(chunks: seq<nat>, checks: seq<bool>, length: int, i: nat, j: nat)
    requires length > 0 && |checks| == |chunks|
    requires i <= j < |EmittedProgress(chunks, checks, length)|
    ensures EmittedProgress(chunks, checks, length)[i] <= EmittedProgress(chunks, checks, length)[j]
  {
    SumPrefixMonotone(chunks, i + 1, j + 1);
    DivMonotone(Sum(chunks[..i + 1]) * 100, Sum(chunks[..j + 1]) * 100, length);
  }

  /** Reaching 100% means at least the declared length has been read. */
  lemma CompleteProgressMeansWholeLength(read: nat, length: int)
    requires length > 0 && Progress(read, length) == DownloadProgressCompletedValue
    ensures read >= length
  {
    assert length * (read * 100 / length) <= read * 100;
  }

  /**
   * The tracker names a link only after at least the declared number of bytes
   * has been written to the cache file.
   */
  lemma HundredMeansWholeLengthWritten(chunks: seq<nat>, checks: seq<bool>, length: int)
    requires length > 0 && |checks| == |chunks|
    requires DownloadProgressCompletedValue in EmittedProgress(chunks, checks, length)
    ensures Sum(chunks[..FirstCancel(checks)]) >= length
  {
    var e := EmittedProgress(chunks, checks, length);
    var i :| 0 <= i < |e| && e[i] == DownloadProgressCompletedValue;
    CompleteProgressMeansWholeLength(Sum(chunks[..i + 1]), length);
    SumPrefixMonotone(chunks, i + 1, FirstCancel(checks));
  }

  /**
   * A fetch nobody cancels, over a stream that delivers exactly the declared
   * length, ends by emitting 100.
   */
  lemma UncancelledCompleteFetchReachesHundred(chunks: seq<nat>, checks: seq<bool>, length: int)
    requires length > 0 && |checks| == |chunks| && chunks != []
    requires forall i :: 0 <= i < |checks| ==> checks[i]
    requires Sum(chunks) == length
    ensures |EmittedProgress(chunks, checks, length)| == |chunks|
    ensures EmittedProgress(chunks, checks, length)[|chunks| - 1] == DownloadProgressCompletedValue
  {
    assert chunks[..|chunks|] == chunks;
    assert length * 100 / length == 100;
  }

  /** The handler object with the two fields the source updates. */
  class ImageHandler {
    var shouldContinueFetchingImage: bool
    var imageCacheTracker: CacheTracker

    constructor ()
      ensures shouldContinueFetchingImage && imageCacheTracker == Untracked
    {
      shouldContinueFetchingImage := true;
      imageCacheTracker := Untracked;
    }

    /** The cache holds `link` only if the tracker says so for exactly that link. */
    method IsImageCached(link: string) returns (r: bool)
      ensures r <==> imageCacheTracker.cached && imageCacheTracker.link == link
    {
      r := imageCacheTracker.cached && imageCacheTracker.link == link;
    }

    /**
     * Downloads `link` into the cache file. Returns the signals the observer
     * receives and the number of bytes written to the cache file. A declared
     * length <= 0 is reported at once, but the stream is still copied: the
     * emitter has terminated, so nothing the copy emits reaches the observer.
     */
    method FetchImage(link: string, connection: Connection, checks: seq<bool>)
      returns (signals: seq<Signal>, written: nat)
      requires connection.Connected? ==> ValidChunks(connection.chunks) && |checks| == |connection.chunks|
      modifies this
      ensures connection.ConnectFailure? ==>
        signals == [Error(IOException)] && written == 0
        && imageCacheTracker == Untracked && shouldContinueFetchingImage
      ensures connection.Connected? && connection.contentLength <= 0 ==>
        signals == [Error(ImageDownloadException)]
        && written == Sum(connection.chunks[..CopiedChunks(connection.contentLength, checks)])
        && imageCacheTracker == Untracked
        && shouldContinueFetchingImage == FlagAfterCopy(connection.contentLength, checks)
      ensures connection.Connected? && connection.contentLength > 0 ==>
        var chunks := connection.chunks;
        var k := FirstCancel(checks);
        var progress := EmittedProgress(chunks, checks, connection.contentLength);
        && signals == NextSignals(progress)
                      + [if k == |chunks| && connection.end == ReadFailure then Error(IOException) else Complete]
        && written == Sum(chunks[..if k < |chunks| then k + 1 else k])
        && imageCacheTracker == (if DownloadProgressCompletedValue in progress then CacheTracker(true, link) else Untracked)
        && shouldContinueFetchingImage == (k == |chunks|)
    {
      shouldContinueFetchingImage := true;
      imageCacheTracker := Untracked;
      if connection.ConnectFailure? {
        signals, written := Emit(Emit([], Error(IOException)), Complete), 0;
      } else {
        var emitted := [];
        if connection.contentLength <= 0 {
          emitted := Emit(emitted, Error(ImageDownloadException));
        }
        signals, written := CopyToCache(link, connection.contentLength, connection.chunks, connection.end, checks, emitted);
      }
    }

    /**
     * The `finally` completion after the copy loop, and the read failure the
     * `catch` reports. `emitted` is what the emitter has delivered before the
     * loop: nothing, or the error for a declared length <= 0.
     */
    method CopyToCache(link: string, length: int, chunks: seq<nat>, end: StreamEnd, checks: seq<bool>,
                       emitted: seq<Signal>)
      returns (signals: seq<Signal>, written: nat)
      requires ValidChunks(chunks) && |checks| == |chunks|
      requires length > 0 ==> emitted == []
      requires length <= 0 ==> Terminated(emitted)
      requires shouldContinueFetchingImage && imageCacheTracker == Untracked
      modifies this
      ensures length > 0 ==>
        var k := FirstCancel(checks);
        var progress := EmittedProgress(chunks, checks, length);
        && signals == NextSignals(progress)
                      + [if k == |chunks| && end == ReadFailure then Error(IOException) else Complete]
        && imageCacheTracker == (if DownloadProgressCompletedValue in progress then CacheTracker(true, link) else Untracked)
      ensures length <= 0 ==> signals == emitted && imageCacheTracker == Untracked
      ensures written == Sum(chunks[..CopiedChunks(length, checks)])
      ensures shouldContinueFetchingImage == FlagAfterCopy(length, checks)
    {
      var stopped;
      signals, written, stopped := CopyChunks(link, length, chunks, checks, emitted);
      if length > 0 {
        NextSignalsNotTerminated(EmittedProgress(chunks, checks, length));
      }
      if !stopped && end == ReadFailure {
        signals := Emit(signals, Error(IOException));
      }
      signals := Emit(signals, Complete);
    }

    /**
     * The read, write and progress loop. `stopped` says whether it left by a
     * `break` (a cleared check, or the division by zero) rather than at the
     * end of the stream.
     */
    method CopyChunks(link: string, length: int, chunks: seq<nat>, checks: seq<bool>, emitted: seq<Signal>)
      returns (signals: seq<Signal>, written: nat, stopped: bool)
      requires ValidChunks(chunks) && |checks| == |chunks|
      requires length > 0 ==> emitted == []
      requires length <= 0 ==> Terminated(emitted)
      requires shouldContinueFetchingImage && imageCacheTracker == Untracked
      modifies this
      ensures stopped <==> FirstCancel(checks) < |chunks| || (length == 0 && chunks != [])
      ensures length > 0 ==>
        var progress := EmittedProgress(chunks, checks, length);
        && signals == NextSignals(progress)
        && imageCacheTracker == (if DownloadProgressCompletedValue in progress then CacheTracker(true, link) else Untracked)
      ensures length <= 0 ==> signals == emitted && imageCacheTracker == Untracked
      ensures written == Sum(chunks[..CopiedChunks(length, checks)])
      ensures shouldContinueFetchingImage == FlagAfterCopy(length, checks)
    {
      signals := emitted;
      ghost var k := FirstCancel(checks);
      var i := 0;
      var read: nat := 0;
      stopped := false;
      while i < |chunks|
        invariant 0 <= i <= k <= |chunks|
        invariant length == 0 ==> i == 0
        invariant read == Sum(chunks[..i])
        invariant shouldContinueFetchingImage
        invariant length > 0 ==> signals == NextSignals(ProgressUpTo(chunks, length, i))
        invariant length <= 0 ==> signals == emitted
        invariant imageCacheTracker ==
          if length > 0 && DownloadProgressCompletedValue in ProgressUpTo(chunks, length, i)
          then CacheTracker(true, link) else Untracked
      {
        var count := chunks[i];
        SumStep(chunks, i);
        read := read + count;
        shouldContinueFetchingImage := checks[i];
        if !shouldContinueFetchingImage {
          assert i == k && CopiedChunks(length, checks) == i + 1;
          stopped := true;
          break;
        }
        if length == 0 {
          assert CopiedChunks(length, checks) == 1;
          // The division by zero throws; it is not an IOException, so only
          // the `finally` block runs, its completion ignored.
          stopped := true;
          break;
        }
        if length > 0 {
          ProgressUpToStep(chunks, length, i);
          NextSignalsNotTerminated(ProgressUpTo(chunks, length, i));
          assert NextSignals(ProgressUpTo(chunks, length, i + 1))
            == NextSignals(ProgressUpTo(chunks, length, i)) + [Next(Progress(read, length))];
        }
        signals := ReportProgress(link, read, length, signals);
        i := i + 1;
      }
      if !stopped {
        assert i == k == |chunks| && CopiedChunks(length, checks) == i;
      }
      written := read;
    }

    /**
     * One chunk whose check passed: the progress so far, the tracker set when
     * it is exactly 100, and the progress passed to the emitter.
     */
    method ReportProgress(link: string, read: nat, length: int, signals: seq<Signal>) returns (r: seq<Signal>)
      requires length != 0
      modifies this
      ensures shouldContinueFetchingImage == old(shouldContinueFetchingImage)
      ensures imageCacheTracker ==
        if Progress(read, length) == DownloadProgressCompletedValue then CacheTracker(true, link)
        else old(imageCacheTracker)
      ensures r == Emit(signals, Next(Progress(read, length)))
    {
      var progress := TruncDiv(read * 100, length);
      if progress == DownloadProgressCompletedValue {
        imageCacheTracker := CacheTracker(true, link);
      }
      r := Emit(signals, Next(progress));
    }

    /** Only clears the continue flag; the tracker is left as it is. */
    method CancelFetchingImage()
      modifies this
      ensures !shouldContinueFetchingImage
      ensures imageCacheTracker == old(imageCacheTracker)
    {
      shouldContinueFetchingImage := false;
    }

    /** Forgets the cached link; the continue flag is left as it is. */
    method ClearImageCache() returns (signals: seq<Signal>)
      modifies this
      ensures imageCacheTracker == Untracked
      ensures shouldContinueFetchingImage == old(shouldContinueFetchingImage)
      ensures signals == [Complete]
    {
      imageCacheTracker := Untracked;
      signals := [Complete];
    }
  }
}
