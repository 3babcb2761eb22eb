/**
 * The queue-status endpoint of the public API (controller/VideoApiController.kt): whether this
 * node, or one of its workers, can take an upload, cached for a configured number of seconds so
 * that masters polling it do not trigger a search of the workers on every request.
 * Time is in whole seconds; `LocalDateTime.MIN`, the initial cache time, is `None`.
 */
module VideoApiController {
  import opened Wrappers
  import opened HttpExceptions
  import opened EnvironmentProperties
  import opened WorkQueue
  import opened VideoService

  const OK: int := 200

  /** `lastQueueFullResponse`: when the last answer was computed, and its status. */
  datatype CachedReply = CachedReply(at: Option<int>, status: int)

  const INITIAL_CACHE: CachedReply := CachedReply(None, OK)

  /** `LocalDateTime.MIN.plusSeconds` below MIN throws. */
  const DateTimeError: Exception := Other("DateTimeException")

  /** Whether the cached answer is still fresh at `now`: its time plus the caching time is after now. */
  function Fresh(c: CachedReply, cachingSeconds: int, now: int): (r: Result<bool, Exception>)
    ensures c.at.Some? ==> r == Success(c.at.value + cachingSeconds > now)
    ensures c.at.None? ==> (r.Failure? <==> cachingSeconds < 0) && r != Success(true)
  {
    if c.at.None? then
      if cachingSeconds < 0 then Failure(DateTimeError) else Success(false)
    else Success(c.at.value + cachingSeconds > now)
  }

  /**
   * `isQueueFull`: a request carrying this node's own master key is answered 200 at once; otherwise
   * a fresh cached status is answered; otherwise the status is computed (503 when `full`, else 200),
   * cached with the time and answered. `full` is what the service answers, asked only on that last path.
   */
  function QueueStatusSpec(c: CachedReply, settings: Settings, key: string, now: int, full: bool)
    : (r: (Result<int, Exception>, CachedReply))
  {
    if settings.myMasterKey == Some(key) then (Success(OK), c)
    else match Fresh(c, settings.queueFullResponseCachingTime, now)
      case Failure(e) => (Failure(e), c)
      case Success(true) => (Success(c.status), c)
      case Success(false) =>
        var status := if full then SERVICE_UNAVAILABLE else OK;
        (Success(status), CachedReply(Some(now), status))
  }

  /** The own key is answered 200 and neither reads nor writes the cache. */
  lemma OwnKeyBypassesCache(c: CachedReply, settings: Settings, key: string, now: int, full: bool)
    requires settings.myMasterKey == Some(key)
    ensures QueueStatusSpec(c, settings, key, now, full) == (Success(OK), c)
  {
  }

  /** Within the window the cached status is answered, whatever the service would say, and the cache stays. */
  lemma CachedWithinWindow(c: CachedReply, settings: Settings, key: string, now: int, full: bool)
    requires settings.myMasterKey != Some(key)
    requires c.at.Some? && c.at.value + settings.queueFullResponseCachingTime > now
    ensures QueueStatusSpec(c, settings, key, now, full) == (Success(c.status), c)
    ensures QueueStatusSpec(c, settings, key, now, full) == QueueStatusSpec(c, settings, key, now, !full)
  {
  }

  /** Outside the window the service's answer is computed, cached with the time and answered. */
  lemma RecomputedOutsideWindow(c: CachedReply, settings: Settings, key: string, now: int, full: bool)
    requires settings.myMasterKey != Some(key)
    requires c.at.Some? ==> c.at.value + settings.queueFullResponseCachingTime <= now
    requires c.at.None? ==> settings.queueFullResponseCachingTime >= 0
    ensures var (r, c2) := QueueStatusSpec(c, settings, key, now, full);
      r == Success(if full then SERVICE_UNAVAILABLE else OK) && c2 == CachedReply(Some(now), r.value)
  {
  }

  /** The initial cache is never fresh: the first request from another key asks the service. */
  lemma FirstRequestRecomputes(settings: Settings, key: string, now: int, full: bool)
    requires settings.myMasterKey != Some(key) && settings.queueFullResponseCachingTime >= 0
    ensures QueueStatusSpec(INITIAL_CACHE, settings, key, now, full)
      == (Success(if full then SERVICE_UNAVAILABLE else OK), CachedReply(Some(now), if full then SERVICE_UNAVAILABLE else OK))
  {
    RecomputedOutsideWindow(INITIAL_CACHE, settings, key, now, full);
  }

  /** The cache only ever holds 200 or 503, starting from the initial 200. */
  ghost predicate CacheValid(c: CachedReply) {
    c.status == OK || c.status == SERVICE_UNAVAILABLE
  }

  /** Every answer is 200 or 503 (or the exception), and the cache keeps holding one of the two. */
  lemma CacheStaysValid(c: CachedReply, settings: Settings, key: string, now: int, full: bool)
    requires CacheValid(c)
    ensures CacheValid(QueueStatusSpec(c, settings, key, now, full).1)
    ensures var r := QueueStatusSpec(c, settings, key, now, full).0;
      r.Success? ==> r.value == OK || r.value == SERVICE_UNAVAILABLE
  {
  }

  /**
   * Two requests from other keys within the caching time of a recomputation get the same answer:
   * the second is served from the cache, whatever the service would say by then.
   */
  lemma RepeatedWithinWindowAgrees(c: CachedReply, settings: Settings, key1: string, key2: string,
                                   now: int, later: int, full1: bool, full2: bool)
    requires settings.myMasterKey != Some(key1) && settings.myMasterKey != Some(key2)
    requires c.at.Some? ==> c.at.value + settings.queueFullResponseCachingTime <= now
    requires c.at.None? ==> settings.queueFullResponseCachingTime >= 0
    requires now <= later < now + settings.queueFullResponseCachingTime
    ensures var (r1, c1) := QueueStatusSpec(c, settings, key1, now, full1);
      QueueStatusSpec(c1, settings, key2, later, full2) == (r1, c1)
  {
    RecomputedOutsideWindow(c, settings, key1, now, full1);
    var c1 := QueueStatusSpec(c, settings, key1, now, full1).1;
    CachedWithinWindow(c1, settings, key2, later, full2);
  }

  class VideoApiController {
    const service: VideoService
    var lastQueueFullResponse: CachedReply

    ghost predicate Valid()
      reads this
    {
      CacheValid(lastQueueFullResponse)
    }

    constructor (service: VideoService)
      ensures Valid() && this.service == service && lastQueueFullResponse == INITIAL_CACHE
    {
      this.service := service;
      lastQueueFullResponse := INITIAL_CACHE;
    }

    /** `now` is the request's time in seconds; `queueUsable` the usable bytes of the queue partition. */
    method IsQueueFull(env: Env, queueUsable: int, key: string, size: int, now: int) returns (r: Result<int, Exception>)
      requires Valid()
      modifies `lastQueueFullResponse
      ensures Valid()
      ensures (r, lastQueueFullResponse)
        == QueueStatusSpec(old(lastQueueFullResponse), env.settings, key, now, IsQueueFullSpec(service.State(), env, queueUsable, key, size))
    {
      if env.settings.myMasterKey == Some(key) {
        return Success(OK);
      }
      var recent := Fresh(lastQueueFullResponse, env.settings.queueFullResponseCachingTime, now);
      if recent.Failure? {
        return Failure(recent.error);
      }
      if recent.value {
        return Success(lastQueueFullResponse.status);
      }
      var full := service.IsQueueFull(env, queueUsable, key, size);
      if full {
        lastQueueFullResponse := CachedReply(Some(now), SERVICE_UNAVAILABLE);
        r := Success(SERVICE_UNAVAILABLE);
      } else {
        lastQueueFullResponse := CachedReply(Some(now), OK);
        r := Success(OK);
      }
    }
  }
}
