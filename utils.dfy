/**
 * The helpers of util/Utils.kt: megabytes of free space, the download link of a video, and the
 * choice of executor from its strategy name.
 */
module Utils {
  import opened Wrappers
  import opened HttpExceptions
  import opened Model
  import opened EnvironmentProperties

  const MB: int := 1048576

  /** Kotlin's `/` on integers: the quotient truncated toward zero. */
  function TruncDiv(a: int, b: int): (q: int)
    requires b > 0
    ensures a >= 0 ==> q * b <= a < q * b + b
    ensures a < 0 ==> q * b - b < a <= q * b
  {
    if a >= 0 then a / b else 0 - ((0 - a) / b)
  }

  /** `getQueueFreeSpaceMb` (and its twin for the result directory): usable bytes in whole megabytes. */
  function FreeSpaceMb(usableBytes: int): (mb: int)
    ensures usableBytes >= 0 ==> 0 <= mb && mb * MB <= usableBytes < (mb + 1) * MB
  {
    TruncDiv(usableBytes, MB)
  }

  /** `buildDownloadLink`: the video's address under this host. */
  function BuildDownloadLink(hostUrl: string, id: VideoId): string {
    hostUrl + "/video/" + id
  }

  /** The link is the host, then "/video/", then the id. */
  lemma DownloadLinkParts(hostUrl: string, id: VideoId)
    ensures var link := BuildDownloadLink(hostUrl, id);
      |link| == |hostUrl| + 7 + |id|
      && link[..|hostUrl|] == hostUrl && link[|hostUrl|..|hostUrl| + 7] == "/video/" && link[|hostUrl| + 7..] == id
  {
  }

  /** The link names the video: the same host never gives two videos the same link. */
  lemma DownloadLinkInjective(hostUrl: string, id1: VideoId, id2: VideoId)
    requires BuildDownloadLink(hostUrl, id1) == BuildDownloadLink(hostUrl, id2)
    ensures id1 == id2
  {
    DownloadLinkParts(hostUrl, id1);
    DownloadLinkParts(hostUrl, id2);
  }

  /** The executors the strategy names select. */
  datatype ExecutorKind = SingleThread | CachedPool | WorkStealingPool | FixedPool(threads: int)

  const IllegalArgument: Exception := Other("IllegalArgumentException")

  predicate StartsWith(s: string, prefix: string) {
    |prefix| <= |s| && s[..|prefix|] == prefix
  }

  /** `Executors.newFixedThreadPool`: refuses a pool without threads. */
  function NewFixedThreadPool(threads: int): (r: Result<ExecutorKind, Exception>)
    ensures r.Success? <==> threads > 0
    ensures r.Success? ==> r.value == FixedPool(threads)
    ensures r.Failure? ==> r.error == IllegalArgument
  {
    if threads <= 0 then Failure(IllegalArgument) else Success(FixedPool(threads))
  }

  /**
   * `getExecutor`: "single", "cached" and "workstealing" name their executors; "fixed" followed by a
   * number is a pool of that many threads (a number that does not parse, or is not positive, throws);
   * anything else falls back to a single thread.
   */
  function GetExecutor(strategy: string): (r: Result<ExecutorKind, Exception>)
    ensures strategy == "single" ==> r == Success(SingleThread)
    ensures strategy == "cached" ==> r == Success(CachedPool)
    ensures strategy == "workstealing" ==> r == Success(WorkStealingPool)
    ensures StartsWith(strategy, "fixed") ==>
      (r.Success? <==> ParseInt(strategy[5..]).Success? && ParseInt(strategy[5..]).value > 0)
      && (r.Success? ==> r.value == FixedPool(ParseInt(strategy[5..]).value))
    ensures strategy !in {"single", "cached", "workstealing"} && !StartsWith(strategy, "fixed") ==> r == Success(SingleThread)
    ensures r.Failure? ==> StartsWith(strategy, "fixed")
  {
    assert strategy in {"single", "cached", "workstealing"} ==> !StartsWith(strategy, "fixed") by {
      if StartsWith(strategy, "fixed") {
        assert strategy[0] == 'f';
      }
    }
    if strategy == "single" then Success(SingleThread)
    else if strategy == "cached" then Success(CachedPool)
    else if strategy == "workstealing" then Success(WorkStealingPool)
    else if StartsWith(strategy, "fixed") then
      match ParseInt(strategy[5..])
      case Success(n) => NewFixedThreadPool(n)
      case Failure(e) => Failure(e)
    else Success(SingleThread)
  }

  /** Every positive thread count written after "fixed" selects a pool of exactly that size. */
  lemma FixedStrategyRoundTrip(n: int)
    requires 0 < n <= INT_MAX
    ensures GetExecutor("fixed" + IntToString(n)) == Success(FixedPool(n))
  {
    var s := "fixed" + IntToString(n);
    assert s[..5] == "fixed";
    assert s[5..] == IntToString(n);
    IntRoundTrip(n, INT_MIN, INT_MAX);
    assert s != "single" && s != "cached" && s != "workstealing" by {
      assert s[0] == 'f';
    }
  }
}
