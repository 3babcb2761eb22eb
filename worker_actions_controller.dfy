/**
 * The worker-side endpoints a master calls (controller/WorkerActionsController.kt): every one is
 * gated on worker mode and on the master's key, then answers from the store or the queue
 * partition. The endpoints hold no state of their own.
 */
module WorkerActionsController {
  import opened Wrappers
  import opened HttpExceptions
  import opened Model
  import opened Repositories
  import opened VideoDao
  import opened EnvironmentProperties
  import opened Utils
  import opened WorkerGateway
  import opened VideoService

  const OK: int := 200

  /**
   * `ensureMasterAuthorized`: with worker mode off every caller is refused; a list of allowed keys
   * that is exactly "*" lets every key in; otherwise the key must be listed.
   */
  function EnsureMasterAuthorized(settings: Settings, key: string): (o: Outcome<Exception>)
  {
    if !settings.workerModeEnabled then Fail(Http(WorkerModeNotAllowed))
    else
      var keys := settings.allowedMasterHosts;
      if |keys| == 1 && keys[0] == "*" then Pass
      else if key !in keys then Fail(Http(MasterNotAuthorized))
      else Pass
  }

  /** With worker mode off, no key gets in, and the refusal is answered 403. */
  lemma WorkerModeOffRefusesAll(settings: Settings, key: string)
    requires !settings.workerModeEnabled
    ensures EnsureMasterAuthorized(settings, key) == Fail(Http(WorkerModeNotAllowed))
    ensures ReturnCode(EnsureMasterAuthorized(settings, key).error.http) == FORBIDDEN
  {
  }

  /**
   * With worker mode on, a key gets in exactly when the list is the lone wildcard or names the
   * key; a refused key is answered 401.
   */
  lemma AuthorizedIff(settings: Settings, key: string)
    requires settings.workerModeEnabled
    ensures EnsureMasterAuthorized(settings, key).Pass? <==> settings.allowedMasterHosts == ["*"] || key in settings.allowedMasterHosts
    ensures EnsureMasterAuthorized(settings, key).Fail? ==>
      EnsureMasterAuthorized(settings, key) == Fail(Http(MasterNotAuthorized)) && ReturnCode(MasterNotAuthorized) == UNAUTHORIZED
  {
    var keys := settings.allowedMasterHosts;
    if |keys| == 1 && keys[0] == "*" {
      assert keys == ["*"];
    }
  }

  /** A "*" beside other entries is no wildcard: it lets in only the key "*" itself, besides the others listed. */
  lemma StarAmongOthersIsLiteral(settings: Settings, key: string)
    requires settings.workerModeEnabled && "*" in settings.allowedMasterHosts && |settings.allowedMasterHosts| > 1
    ensures EnsureMasterAuthorized(settings, key).Pass? <==> key in settings.allowedMasterHosts
  {
  }

  // ---- the endpoints ----

  /**
   * `/queue/size`: this node's count of unfinished records, the queue size, and whether the queue
   * partition is at or below the free-space threshold (`queueUsable` is its usable space in bytes).
   */
  function GetQueueSize(settings: Settings, t: VideoTable, queueUsable: int, key: string): (r: Result<QueueSizeResponse, Exception>)
    requires t.Valid()
  {
    var auth := EnsureMasterAuthorized(settings, key);
    if auth.Fail? then Failure(auth.error)
    else Success(QueueSizeResponse(QueueSize(t), settings.maxQueueSize, FreeSpaceMb(queueUsable) <= settings.freeSpaceThresholdMb))
  }

  /** An authorized request is told the true count and limit, and disk-full exactly when the free megabytes are at most the threshold. */
  lemma QueueSizeReply(settings: Settings, t: VideoTable, queueUsable: int, key: string)
    requires t.Valid() && EnsureMasterAuthorized(settings, key).Pass?
    ensures var r := GetQueueSize(settings, t, queueUsable, key);
      r.Success? && r.value.size == |set id | id in t.rows && t.rows[id].status in IN_QUEUE_STATES|
      && r.value.maxSize == settings.maxQueueSize
      && (r.value.isDiskFull <==> FreeSpaceMb(queueUsable) <= settings.freeSpaceThresholdMb)
  {
  }

  /** `/ping`. */
  function Ping(settings: Settings, key: string): (r: Result<string, Exception>)
  {
    var auth := EnsureMasterAuthorized(settings, key);
    if auth.Fail? then Failure(auth.error) else Success("pong")
  }

  /**
   * `/queue/exists`: 200 when the record made for the master's id is still in the queue, 404 when
   * it is not; a lookup that throws propagates.
   */
  function IsVideoInQueue(settings: Settings, t: VideoTable, key: string, videoId: VideoId): (r: Result<int, Exception>)
    requires t.Valid()
  {
    var auth := EnsureMasterAuthorized(settings, key);
    if auth.Fail? then Failure(auth.error)
    else match VideoFromRemoteExistsInQueue(t, videoId)
      case Failure(e) => Failure(e)
      case Success(b) => Success(if b then OK else NOT_FOUND)
  }

  /**
   * An authorized request is answered 200 exactly when exactly one record was made for that id and
   * it is in an in-queue status, 404 when none was or it is not, and throws when several were.
   */
  lemma InQueueReply(settings: Settings, t: VideoTable, key: string, videoId: VideoId)
    requires t.Valid() && EnsureMasterAuthorized(settings, key).Pass?
    ensures var r := IsVideoInQueue(settings, t, key, videoId);
      (r == Success(OK) <==> |WithOriginId(t, videoId)| == 1
                             && exists id :: id in WithOriginId(t, videoId) && t.rows[id].status in IN_QUEUE_STATES)
      && (WithOriginId(t, videoId) == {} ==> r == Success(NOT_FOUND))
      && (|WithOriginId(t, videoId)| > 1 <==> r.Failure?)
  {
    if WithOriginId(t, videoId) != {} {
      assert |WithOriginId(t, videoId)| >= 1;
    }
  }

  /** The three key-checked endpoints modelled here (queue size, ping, queue membership) answer a refused caller with the refusal and read nothing. */
  lemma RefusedCallerGetsRefusal(settings: Settings, t: VideoTable, queueUsable: int, key: string, videoId: VideoId)
    requires t.Valid() && EnsureMasterAuthorized(settings, key).Fail?
    ensures var e := EnsureMasterAuthorized(settings, key).error;
      GetQueueSize(settings, t, queueUsable, key) == Failure(e)
      && Ping(settings, key) == Failure(e)
      && IsVideoInQueue(settings, t, key, videoId) == Failure(e)
  {
  }

  /** An allowed caller's ping is answered "pong". */
  lemma AuthorizedPingAnswered(settings: Settings, key: string)
    ensures Ping(settings, key) == Success("pong") <==> EnsureMasterAuthorized(settings, key).Pass?
  {
  }
}
