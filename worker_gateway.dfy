/**
 * What the remote workers answer (service/WorkerGateway.kt). The HTTP exchanges are not modelled;
 * their outcomes are given as one snapshot of replies, and each call below reads its answer from it.
 */
module WorkerGateway {
  import opened Wrappers
  import opened HttpExceptions
  import opened Model

  /** A worker's answer to the queue-size request. */
  datatype QueueSizeResponse = QueueSizeResponse(size: int, maxSize: int, isDiskFull: bool)

  /**
   * The replies of the network:
   * `queueStatus` the answer of each host that answers the queue-size request (others time out),
   * `acceptsWork` the hosts that take a job with status 202,
   * `pingOk` the hosts that answer a ping with status 200,
   * `notFull` the (host, origin key) pairs whose queue-status request is answered 200,
   * `inQueue` the (host, video) pairs the host reports as queued,
   * `resultAccepted` the origin ids whose result the master accepts with status 200.
   */
  datatype Replies = Replies(
    queueStatus: map<string, QueueSizeResponse>,
    acceptsWork: set<string>,
    pingOk: set<string>,
    notFull: set<(string, string)>,
    inQueue: set<(string, VideoId)>,
    resultAccepted: set<VideoId>)

  /** `getQueueStatus`: the answer, or the server error thrown on a timeout. */
  function GetQueueStatus(r: Replies, host: string): (res: Result<QueueSizeResponse, Exception>)
    ensures res.Success? <==> host in r.queueStatus
    ensures res.Success? ==> res.value == r.queueStatus[host]
  {
    if host in r.queueStatus then Success(r.queueStatus[host]) else Failure(Other("HttpServerErrorException"))
  }

  /** `sendWorkToWorker`: returns normally only on status 202. */
  function SendWorkToWorker(r: Replies, host: string): (o: Outcome<Exception>)
    ensures o.Pass? <==> host in r.acceptsWork
  {
    if host in r.acceptsWork then Pass else Fail(Other("HttpException"))
  }

  /** `ping`, with a thrown exception already counted as a failed ping. */
  function Ping(r: Replies, host: string): (up: bool)
    ensures up <==> host in r.pingOk
  {
    host in r.pingOk
  }

  /** `isQueueFull` on a worker: full unless the answer is 200 (a timeout counts as full). */
  function IsQueueFull(r: Replies, host: string, originKey: string): (full: bool)
    ensures !full <==> (host, originKey) in r.notFull
  {
    (host, originKey) !in r.notFull
  }

  /** `isVideoInQueue`, with a thrown exception already counted as "not in queue". */
  function IsVideoInQueue(r: Replies, host: string, id: VideoId): (queued: bool)
    ensures queued <==> (host, id) in r.inQueue
  {
    (host, id) in r.inQueue
  }

  /** `sendResultToMaster`: returns normally only on status 200. */
  function SendResultToMaster(r: Replies, originId: VideoId): (o: Outcome<Exception>)
    ensures o.Pass? <==> originId in r.resultAccepted
  {
    if originId in r.resultAccepted then Pass else Fail(Other("HttpException"))
  }
}
