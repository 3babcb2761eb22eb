# MediaCompressor job bookkeeping in Dafny

MediaCompressor is a Spring service that takes video uploads, re-encodes them on the node itself
or hands them to worker nodes, mails the owner a download link once the result is ready, and
sweeps old files and stuck jobs on a schedule. A node runs as a master (it accepts uploads from
users and dispatches them), as a worker (it accepts jobs from masters it trusts), or both.

This project models the bookkeeping around the encodes, not the encodes themselves:

- the job-record store and its queries (`Repositories`, `VideoDao`), the worker store (`WorkerDao`),
  and the queue and result directories (`FileService`);
- the work queue (`WorkQueue`): the deque of jobs, the count of running local encodes, and the
  dispatch rule that offers the head job to this node and to the workers in ascending score;
- the service around it (`VideoService`): the free-space check and the reserved-space counter, job
  submission, failing a job, the "one mail once the owner has nothing left in flight" rule,
  downloads, and the resubmission of a dead worker's jobs;
- the older admission path (`VideoCrudService`);
- the scheduled sweeps: worker liveness and queue integrity (`WorkerDaemon`), result-file cleanup
  (`FileCleanup`), zombie cleanup (`ZombieVideoCleanup`) and recovery (`RecoveryScheduler`);
- the worker-side endpoints with their key check (`WorkerActionsController`) and the cached
  queue-status endpoint (`VideoApiController`);
- configuration lookup and parsing (`EnvironmentProperties`), the exception-to-status mapping
  (`HttpExceptions`) and the small helpers of `Utils`.

Each module is named after the Kotlin file it models. Where the Kotlin code mutates an object,
the Dafny module has a class with the same fields. Each method of the class is proved to have
exactly the effect of a pure function on a state value (the `...Spec` functions: `QueueState`,
`ServiceState`, `DaemonState`, `RecoveryState`, `CrudState`). The properties of the behaviour are
lemmas about those functions. Loops of the source (the candidate loop, the sweeps, reset of the
queue) are `while` loops in the methods, with the pure function as invariant.

The outside world is given as values. `Env` holds the settings, the current time and the
`Replies` of the workers (which hosts answer a ping, accept a job, report which queue status, hold
which video). Free space is a number of usable bytes. The mail gateway is an outbox, a sequence of
mails. A background encode is a job in `running` whose completion is a separate step, and its
result length (or failure) is an input.

Points where the code does not do what its names or comments suggest, and the model follows the code:

- `getProperty` is documented to fall back to the environment, and the model keeps that step as
  written, but the system-property lookup before it is given the default and so never returns
  null; the environment step can never be reached (`EnvironmentProperties.EnvironmentNeverConsulted`).
- A remote worker's score is its reported queue size times its configured efficiency, so a larger
  efficiency makes a worker less attractive. Candidates are kept in a `TreeSet` compared by score
  only, so a later worker with the same score as an earlier candidate is dropped; when this node
  competes it is added first and wins every tie (`WorkQueue.LocalWinsTies`).
- A job sent to a worker is recorded PROCESSING on node `NODE_LOCAL`, not on the worker's host.
- `addToQueue` pushes at the head and, on QueueFull, drops the deque's last element, so a rejected
  job stays at the head and the job that waited longest is dropped (`WorkQueue.RejectionPollsLast`).
- `setVideosReadyForUser` sets every record of the owner to READY whatever its status, so the
  notification that follows a failure also turns the failed record READY (`VideoService.FailJobMailsOwner`).
- A local encode whose record has vanished throws out of the background run before the running-job
  counter is decremented, so its slot stays taken (`VideoService.MissingRecordLeaksSlot`).
- `ensureMasterAuthorized` treats "*" as a wildcard only when it is the whole list
  (`WorkerActionsController.StarAmongOthersIsLiteral`).
- dao/WorkerDao.kt declares only `getOrCreateWorker`; `setWorkerStatus` and `setWorkerQueueSize`,
  which the daemon and the work queue call, are modelled as setting the field and saving (UP resets
  the failed-ping count, DOWN increments it). The list helper the property getters apply after
  splitting (an empty value gives no entries), `collapseIfEmpty`, and `nullIf`, which
  `getSendgridApiKey` and `getMyMasterKey` apply (configuration/EnvironmentProperties.kt:7, 30, 57),
  are imported from util but not declared anywhere in the source; the model reads `nullIf("")` as
  "null when the text is empty, the text otherwise".
- scheduled/WorkerDaemon.kt calls `reassignWorkFromDeadNode`, `reassignVideo` and `failJob` on a
  VideoCrudService, which declares none of them; the model calls the VideoService operations of
  those names. Likewise controller/WorkerActionsController.kt:49, 67, 74, 76 and 86 call
  `getQueueSize`, `addVideoFromMaster`, `videoExists`, `acceptProcessedVideo` and
  `videoFromRemoteExistsInQueue` on a VideoCrudService that declares only `addToQueue`, `getVideo`
  and `sendMailNotification`; the model calls the VideoService operations of those names. The `onJobFailed` callback the work queue is handed is always `failJob`.
- service/VideoCrudService.kt calls `createVideo` and `setVideoUploaded` with fewer arguments than
  dao/VideoDao.kt declares. The model passes this node as the origin, no origin id, and the declared
  upload size as the stored size.
- dao/WorkerDao.kt:16 builds the new Worker without its last constructor argument, `downPings`,
  which model/Worker.kt declares without a default; the model gives a new worker 0 failed pings.

Times are whole minutes, except in `VideoApiController`, where the caching time is in seconds.
Integers are unbounded except where the source's width matters: `toInt`/`toLong` range checks,
and truncating division of byte counts into megabytes.

## Model

| member | source | states |
|---|---|---|
| EnvironmentProperties.GetProperty | src/main/kotlin/rs/lukaj/compressor/configuration/EnvironmentProperties.kt:77-90 | the configuration file's value when it has the property; otherwise the system property "mc." + name, or the default when that is unset; the environment step is kept as written |
| EnvironmentProperties.SystemGetProperty | src/main/kotlin/rs/lukaj/compressor/configuration/EnvironmentProperties.kt:82 | `System.getProperty` with a default always yields a text: the property when set, the default otherwise |
| EnvironmentProperties.GetEnv | src/main/kotlin/rs/lukaj/compressor/configuration/EnvironmentProperties.kt:86 | `System.getenv` yields a text exactly when the variable is set, and then its value |
| EnvironmentProperties.EnvironmentNeverConsulted | src/main/kotlin/rs/lukaj/compressor/configuration/EnvironmentProperties.kt:82-87 | because the system-property step always yields a text, the environment variable never changes the result, even when it is the only source that defines the property |
| EnvironmentProperties.EnvVarName | src/main/kotlin/rs/lukaj/compressor/configuration/EnvironmentProperties.kt:85 | the variable name is "MC_" followed by the property with each dot replaced by '_' and each ASCII letter upper-cased, position by position |
| EnvironmentProperties.EnvVarNameExample | src/main/kotlin/rs/lukaj/compressor/configuration/EnvironmentProperties.kt:85 | "queue.size" is looked up as MC_QUEUE_SIZE |
| EnvironmentProperties.Split | src/main/kotlin/rs/lukaj/compressor/configuration/EnvironmentProperties.kt:49-53 | `split` gives at least one piece, no piece contains the separator, and the pieces joined with the separator give the text back |
| EnvironmentProperties.SplitJoin | src/main/kotlin/rs/lukaj/compressor/configuration/EnvironmentProperties.kt:49-53 | splitting a join of separator-free pieces gives the pieces back |
| EnvironmentProperties.CollapseIfEmpty | src/main/kotlin/rs/lukaj/compressor/configuration/EnvironmentProperties.kt:49-51 | the single empty piece becomes no entries; every other list is kept |
| EnvironmentProperties.AllowedMasterHosts | src/main/kotlin/rs/lukaj/compressor/configuration/EnvironmentProperties.kt:49 | an empty value allows no key; otherwise the keys are the comma-separated pieces, which join back to the value |
| EnvironmentProperties.ParseInteger | src/main/kotlin/rs/lukaj/compressor/configuration/EnvironmentProperties.kt:16-18 | a parsed number lies in the type's range, and every failure is NumberFormatException |
| EnvironmentProperties.IntRoundTrip | src/main/kotlin/rs/lukaj/compressor/configuration/EnvironmentProperties.kt:16-18 | every integer in range parses back from its decimal text |
| EnvironmentProperties.ParseIntOfDigits | src/main/kotlin/rs/lukaj/compressor/configuration/EnvironmentProperties.kt:16-18 | a digit string whose value fits an int parses to that value |
| EnvironmentProperties.ParseDouble | src/main/kotlin/rs/lukaj/compressor/configuration/EnvironmentProperties.kt:52-54 | failures are NumberFormatException; a plain digit string parses to its value |
| EnvironmentProperties.ParseDoubleDecimal | src/main/kotlin/rs/lukaj/compressor/configuration/EnvironmentProperties.kt:54 | a decimal "a.b" of digit runs, not both empty, parses to the whole part plus the fraction (such as an efficiency "1.5"), the same after '+', negated after '-' |
| EnvironmentProperties.ParseDoubleOfParts | src/main/kotlin/rs/lukaj/compressor/configuration/EnvironmentProperties.kt:54 | a text whose unsigned part splits at '.' into exactly two digit runs parses to their decimal value, negated when it starts with '-' |
| EnvironmentProperties.ParseBoolean | src/main/kotlin/rs/lukaj/compressor/configuration/EnvironmentProperties.kt:48 | true exactly when the text equals "true" ignoring letter case (position by position after upper-casing) |
| EnvironmentProperties.IsWorkerModeEnabled | src/main/kotlin/rs/lukaj/compressor/configuration/EnvironmentProperties.kt:48 | worker mode is on when neither the configuration file nor the system properties set "worker.enabled"; when one does, it is on exactly when that value equals "true" ignoring letter case |
| EnvironmentProperties.OptionalKey | src/main/kotlin/rs/lukaj/compressor/configuration/EnvironmentProperties.kt:30 | a key read with an empty default and `nullIf("")` (the SendGrid key here, the master key at line 57, through `SendgridApiKey` and `MyMasterKey`) is absent exactly when the property is unset or set to the empty text, and otherwise is the configured value |
| EnvironmentProperties.WorkerEntry | src/main/kotlin/rs/lukaj/compressor/configuration/EnvironmentProperties.kt:52-54 | an entry without ':' is that host with efficiency 1.0; otherwise the host is the first token and the efficiency the parsed second |
| EnvironmentProperties.WorkerEntries | src/main/kotlin/rs/lukaj/compressor/configuration/EnvironmentProperties.kt:51-54 | succeeds exactly when every entry parses, giving one host per entry in list order |
| EnvironmentProperties.AvailableWorkers | src/main/kotlin/rs/lukaj/compressor/configuration/EnvironmentProperties.kt:50-55 | an empty value gives no workers; otherwise one host per comma-separated entry, failing exactly when some entry fails |
| EnvironmentProperties.NullIfEmpty | src/main/kotlin/rs/lukaj/compressor/configuration/EnvironmentProperties.kt:30 | None exactly for the empty text, the text itself otherwise |
| EnvironmentProperties.Defaults | src/main/kotlin/rs/lukaj/compressor/configuration/EnvironmentProperties.kt:16-56 | with nothing configured: queue size 5, free-space threshold 1500 MB, panic threshold 300 MB, one concurrent local job, three down pings to declare a worker dead |
| HttpExceptions.ReturnCode | src/main/kotlin/rs/lukaj/compressor/util/HttpExceptions.kt:9-15 | 503 exactly for QueueFull and NotEnoughSpace; 500, 404, 409, 403 and 401 for the internal error, missing entity, invalid status, worker mode off and unknown master |
| HttpExceptions.ToResponse | src/main/kotlin/rs/lukaj/compressor/util/HttpExceptions.kt:6 | the error body is the exception's simple class name and its message |
| HttpExceptions.ToResponseInjective | src/main/kotlin/rs/lukaj/compressor/util/HttpExceptions.kt:6-18 | two exceptions with the same error body are the same exception |
| HttpExceptions.ServerSideErrors | src/main/kotlin/rs/lukaj/compressor/util/HttpExceptions.kt:9-15 | a 5xx status is answered exactly for QueueFull, NotEnoughSpace and the internal error |
| Utils.TruncDiv | src/main/kotlin/rs/lukaj/compressor/util/Utils.kt:15 | Kotlin's division rounding toward zero: the quotient times the divisor is within one divisor of the dividend, on the dividend's side of zero |
| Utils.FreeSpaceMb | src/main/kotlin/rs/lukaj/compressor/util/Utils.kt:15 | the usable bytes divided into whole megabytes, rounding toward zero |
| Utils.DownloadLinkParts | src/main/kotlin/rs/lukaj/compressor/util/Utils.kt:17 | the link is the host URL, "/video/" and the id, in that order |
| Utils.DownloadLinkInjective | src/main/kotlin/rs/lukaj/compressor/util/Utils.kt:17 | for one host URL, different ids give different links |
| Utils.NewFixedThreadPool | src/main/kotlin/rs/lukaj/compressor/util/Utils.kt:25-27 | a fixed pool has the requested positive number of threads; zero or less fails with IllegalArgumentException |
| Utils.GetExecutor | src/main/kotlin/rs/lukaj/compressor/util/Utils.kt:19-33 | "single", "cached" and "workstealing" name their executors; "fixed" followed by a positive int is a pool of that size, and any other suffix throws; every other name falls back to a single thread |
| Utils.FixedStrategyRoundTrip | src/main/kotlin/rs/lukaj/compressor/util/Utils.kt:25-27 | "fixed" followed by the decimal text of a positive n gives a pool of n threads |
| Repositories.CountAllByStatusIn | src/main/kotlin/rs/lukaj/compressor/model/Repositories.kt:12 | the count equals the number of stored records whose status is in the set |
| Repositories.CountAllByStatusInAndEmailEquals | src/main/kotlin/rs/lukaj/compressor/model/Repositories.kt:13 | the count equals the number of stored records with status in the set and exactly that email |
| Repositories.FindAllByStatusEqualsAndEmailEquals | src/main/kotlin/rs/lukaj/compressor/model/Repositories.kt:14 | exactly the stored records with that status and email |
| Repositories.FindAllByStatusInAndEmailEquals | src/main/kotlin/rs/lukaj/compressor/dao/VideoDao.kt:90-91 | exactly the stored records with status in the set and that email |
| Repositories.FindAllByStatusNotInAndEmailEquals | src/main/kotlin/rs/lukaj/compressor/dao/VideoDao.kt:92 | exactly the stored records of that email whose status is outside the set |
| Repositories.FindAllByStatusEqualsAndUpdatedAtBefore | src/main/kotlin/rs/lukaj/compressor/model/Repositories.kt:16 | exactly the stored records with that status last saved strictly before the bound |
| Repositories.FindAllByStatusInAndUpdatedAtBefore | src/main/kotlin/rs/lukaj/compressor/dao/VideoDao.kt:110-112 | exactly the stored records with status in the set last saved strictly before the bound |
| Repositories.FindAllByStatusNotInAndUpdatedAtBefore | src/main/kotlin/rs/lukaj/compressor/dao/VideoDao.kt:113-115 | exactly the stored records with status outside the set last saved strictly before the bound |
| Repositories.FindAllByStatusEqualsAndNodeEquals | src/main/kotlin/rs/lukaj/compressor/dao/VideoDao.kt:124 | exactly the stored records with that status on that node |
| Repositories.FindAllByStatusEqualsAndNodeNot | src/main/kotlin/rs/lukaj/compressor/dao/VideoDao.kt:126 | exactly the stored records with that status on any other node |
| Repositories.FindById | src/main/kotlin/rs/lukaj/compressor/dao/VideoDao.kt:94 | found exactly when the id is stored, and then it is that record |
| Repositories.FindByOriginId | src/main/kotlin/rs/lukaj/compressor/dao/VideoDao.kt:96 | empty when no record has that origin id, the record when exactly one has, the non-unique-result error when several have |
| Repositories.Save | src/main/kotlin/rs/lukaj/compressor/model/AuditModel.kt:10-13 | an existing record is overwritten and stamped updated now; a new one is appended and stamped created and updated now; the store stays well formed |
| Repositories.SetVideosReadyForUser | src/main/kotlin/rs/lukaj/compressor/model/Repositories.kt:18-20 | every record of that email becomes READY and every other record is unchanged; no record is added or removed |
| Repositories.FindByHostEquals | src/main/kotlin/rs/lukaj/compressor/model/Repositories.kt:25 | found exactly when the host is stored, and then it is that worker |
| VideoDao.SetById | src/main/kotlin/rs/lukaj/compressor/dao/VideoDao.kt:128-139 | a missing id fails with InternalServerError and changes nothing; otherwise only that record changes, by the change given, stamped now |
| VideoDao.SetEntityStatus | src/main/kotlin/rs/lukaj/compressor/dao/VideoDao.kt:128-132 | the entity is written back whole with the new status, stamped now, even when the stored record differs |
| VideoDao.NewRecord | src/main/kotlin/rs/lukaj/compressor/dao/VideoDao.kt:40-44 | the new record is UPLOADING with the given name, size, owner and origin, and it is appended under a new id |
| VideoDao.ProgressUpdate | src/main/kotlin/rs/lukaj/compressor/dao/VideoDao.kt:62-75 | a progress equal to the cached one writes nothing; any other progress is written to a stored record with its speed and cached |
| VideoDao.ProgressUpdateIdempotent | src/main/kotlin/rs/lukaj/compressor/dao/VideoDao.kt:62-75 | reporting the same progress twice leaves the store and the cache as the first report left them |
| VideoDao.ProgressWrittenAgainAfterProcessed | src/main/kotlin/rs/lukaj/compressor/dao/VideoDao.kt:77-83 | marking a record processed forgets its cached progress, so the same progress is written again if reported again |
| VideoDao.QueueSize | src/main/kotlin/rs/lukaj/compressor/dao/VideoDao.kt:32-34 | the number of records whose job is not finished (UPLOADING to PROCESSING) |
| VideoDao.QueueSizeForEmail | src/main/kotlin/rs/lukaj/compressor/dao/VideoDao.kt:36-38 | the number of unfinished records of that owner |
| VideoDao.QueueSizeForEmailZero | src/main/kotlin/rs/lukaj/compressor/dao/VideoDao.kt:36-38 | the owner's count is zero exactly when no record of theirs is unfinished |
| VideoDao.AllPendingVideosForUser | src/main/kotlin/rs/lukaj/compressor/dao/VideoDao.kt:90-91 | exactly the owner's records that are processed but not yet notified |
| VideoDao.AllVideosForUser | src/main/kotlin/rs/lukaj/compressor/dao/VideoDao.kt:92 | exactly the owner's records not in a final status |
| VideoDao.VideoByOriginId | src/main/kotlin/rs/lukaj/compressor/dao/VideoDao.kt:96 | the record made for a master's id, as by `findByOriginId` |
| VideoDao.OldDownloadedVideos | src/main/kotlin/rs/lukaj/compressor/dao/VideoDao.kt:101-103 | exactly the DOWNLOADED records last saved more than the claimed-file age ago |
| VideoDao.OldUndownloadedVideos | src/main/kotlin/rs/lukaj/compressor/dao/VideoDao.kt:104-106 | exactly the READY records last saved more than the unclaimed-file age ago |
| VideoDao.OldErrorZombieVideos | src/main/kotlin/rs/lukaj/compressor/dao/VideoDao.kt:107-109 | exactly the ERROR records last saved more than the zombie age ago |
| VideoDao.OldTransitiveStatusZombieVideos | src/main/kotlin/rs/lukaj/compressor/dao/VideoDao.kt:110-112 | exactly the UPLOADED or PROCESSED records last saved more than the transitive age ago |
| VideoDao.StaleVideos | src/main/kotlin/rs/lukaj/compressor/dao/VideoDao.kt:113-115 | exactly the records not in a final status last saved more than the stale age ago |
| VideoDao.VideosProcessingOnNode | src/main/kotlin/rs/lukaj/compressor/dao/VideoDao.kt:124 | exactly the PROCESSING records on that node |
| VideoDao.VideosProcessingOnWorkers | src/main/kotlin/rs/lukaj/compressor/dao/VideoDao.kt:126 | exactly the PROCESSING records on any node but this one |
| VideoDao.VideoDao.CreateVideo | src/main/kotlin/rs/lukaj/compressor/dao/VideoDao.kt:40-44 | the store gains the new record and nothing else changes |
| VideoDao.VideoDao.Set | src/main/kotlin/rs/lukaj/compressor/dao/VideoDao.kt:128-139 | the store ends as `SetById` says: unchanged with InternalServerError for a missing id, otherwise only that record changed |
| VideoDao.VideoDao.SetVideoUploaded | src/main/kotlin/rs/lukaj/compressor/dao/VideoDao.kt:46-51 | the record becomes UPLOADED with the received size, or InternalServerError when it is missing |
| VideoDao.VideoDao.SetVideoInQueue | src/main/kotlin/rs/lukaj/compressor/dao/VideoDao.kt:53 | the record becomes IN_QUEUE, or InternalServerError when it is missing |
| VideoDao.VideoDao.SetVideoProcessing | src/main/kotlin/rs/lukaj/compressor/dao/VideoDao.kt:55-60 | the record becomes PROCESSING on the given node, or InternalServerError when it is missing |
| VideoDao.VideoDao.UpdateVideoProgress | src/main/kotlin/rs/lukaj/compressor/dao/VideoDao.kt:62-75 | the store and the progress cache end as `ProgressUpdate` says |
| VideoDao.VideoDao.SetVideoProcessed | src/main/kotlin/rs/lukaj/compressor/dao/VideoDao.kt:77-83 | the record becomes PROCESSED with the compressed size and its cached progress is forgotten, or InternalServerError when it is missing |
| VideoDao.VideoDao.SetVideoMailPending | src/main/kotlin/rs/lukaj/compressor/dao/VideoDao.kt:85 | the record becomes EMAIL_PENDING, or InternalServerError when it is missing |
| VideoDao.VideoDao.SetVideoReady | src/main/kotlin/rs/lukaj/compressor/dao/VideoDao.kt:86 | the record becomes READY, or InternalServerError when it is missing |
| VideoDao.VideoDao.SetVideosReady | src/main/kotlin/rs/lukaj/compressor/dao/VideoDao.kt:87-88 | every record of the owner becomes READY, the rest unchanged |
| VideoDao.VideoDao.SetVideoDownloaded | src/main/kotlin/rs/lukaj/compressor/dao/VideoDao.kt:99 | the entity is written back DOWNLOADED |
| VideoDao.VideoDao.SetVideoDeletedById | src/main/kotlin/rs/lukaj/compressor/dao/VideoDao.kt:117 | the record becomes DELETED, or InternalServerError when it is missing |
| VideoDao.VideoDao.SetVideoDeleted | src/main/kotlin/rs/lukaj/compressor/dao/VideoDao.kt:118 | the entity is written back DELETED |
| VideoDao.VideoDao.SetVideoDeletedWithoutDownloading | src/main/kotlin/rs/lukaj/compressor/dao/VideoDao.kt:119 | the entity is written back DELETED_WITHOUT_DOWNLOADING |
| VideoDao.VideoDao.SetVideoError | src/main/kotlin/rs/lukaj/compressor/dao/VideoDao.kt:121 | the record becomes ERROR and the saved record is returned, or InternalServerError when it is missing |
| VideoDao.VideoDao.SetVideoRejected | src/main/kotlin/rs/lukaj/compressor/dao/VideoDao.kt:122 | the record becomes REJECTED, or InternalServerError when it is missing |
| WorkerDao.GetOrCreate | src/main/kotlin/rs/lukaj/compressor/dao/WorkerDao.kt:14-19 | the stored worker for the host, or a new DOWN worker with an empty queue that is saved; other hosts are untouched |
| WorkerDao.GetOrCreateIdempotent | src/main/kotlin/rs/lukaj/compressor/dao/WorkerDao.kt:14-19 | asking twice gives the same worker and leaves the store as the first call left it |
| WorkerDao.GetOrCreateFrame | src/main/kotlin/rs/lukaj/compressor/dao/WorkerDao.kt:14-19 | no worker of another host is added, removed or changed |
| WorkerDao.WithStatus | src/main/kotlin/rs/lukaj/compressor/scheduled/WorkerDaemon.kt:44 | the status is set; UP resets the failed-ping count and DOWN adds one to it |
| WorkerDao.WithQueueSize | src/main/kotlin/rs/lukaj/compressor/service/WorkQueue.kt:85 | only the queue size changes |
| WorkerDao.SaveWorker | src/main/kotlin/rs/lukaj/compressor/dao/WorkerDao.kt:17 | the worker is stored under its host and the others are unchanged |
| WorkerDao.WorkerDao.GetOrCreateWorker | src/main/kotlin/rs/lukaj/compressor/dao/WorkerDao.kt:14-19 | the worker and the store are as `GetOrCreate` says |
| WorkerDao.WorkerDao.SetWorkerStatus | src/main/kotlin/rs/lukaj/compressor/scheduled/WorkerDaemon.kt:44 | the host's stored worker is the given one with the new status |
| WorkerDao.WorkerDao.SetWorkerQueueSize | src/main/kotlin/rs/lukaj/compressor/service/WorkQueue.kt:85 | the host's stored worker is the given one with the new queue size |
| FileService.WithoutFile | src/main/kotlin/rs/lukaj/compressor/scheduled/RecoveryScheduler.kt:52 | the recovery listing without every file of that name |
| FileService.FileService.SaveVideoToQueue | src/main/kotlin/rs/lukaj/compressor/service/FileService.kt:17-22 | the queue file is created before the copy, so it is in the directory afterwards either way; a completed copy returns the written length, a failed one fails with an I/O error |
| FileService.FileService.SaveVideoToResults | src/main/kotlin/rs/lukaj/compressor/service/FileService.kt:33-38 | the result file is created before the copy, so it is in the directory afterwards either way; a completed copy returns the written length, a failed one fails with an I/O error |
| FileService.FileService.DeleteQueueVideo | src/main/kotlin/rs/lukaj/compressor/service/FileService.kt:28-31 | the queue directory loses that file, if present |
| FileService.FileService.DeleteResultVideo | src/main/kotlin/rs/lukaj/compressor/service/FileService.kt:44-47 | the result directory loses that file, if present |
| FileService.FileService.DeleteRecoveryFile | src/main/kotlin/rs/lukaj/compressor/scheduled/RecoveryScheduler.kt:52 | the recovery directory loses that file |
| SendGridGateway.SendGridGateway.SendMail | src/main/kotlin/rs/lukaj/compressor/service/SendGridGateway.kt:20-42 | the mail is appended to the outbox with the given subject, body, format and recipient |
| WorkQueue.EnsureQueueCanAcceptNewVideoSpec | src/main/kotlin/rs/lukaj/compressor/service/WorkQueue.kt:146-148 | fails with QueueFull exactly when the deque is longer than the queue size |
| WorkQueue.ExecuteLocallySpec | src/main/kotlin/rs/lukaj/compressor/service/WorkQueue.kt:113-134 | local execution never touches the worker records or the queue directory |
| WorkQueue.ExecuteRemotelySpec | src/main/kotlin/rs/lukaj/compressor/service/WorkQueue.kt:136-144 | remote execution never touches the worker records, the queue directory, the counter or the running encodes, and a failure (no master key, a missing record, a refused send, an empty deque) changes nothing |
| WorkQueue.MissingRecordNotSent | src/main/kotlin/rs/lukaj/compressor/service/WorkerGateway.kt:61 | when the job's record is missing, the send throws NoSuchElement while building the request, before anything is sent, and nothing changes |
| WorkQueue.Insert | src/main/kotlin/rs/lukaj/compressor/service/WorkQueue.kt:88 | the candidate set stays in strictly ascending score; a candidate whose score is present is dropped, any other is added |
| WorkQueue.Consider | src/main/kotlin/rs/lukaj/compressor/service/WorkQueue.kt:80-93 | one worker entry: records stay well formed, statuses are kept, other hosts are untouched, an UP worker that answers has its reported size recorded, and no candidate is lost |
| WorkQueue.CollectRemote | src/main/kotlin/rs/lukaj/compressor/service/WorkQueue.kt:80-93 | the worker loop keeps statuses and the ascending order and loses no candidate |
| WorkQueue.LocalCandidates | src/main/kotlin/rs/lukaj/compressor/service/WorkQueue.kt:72-73 | this node competes alone, in ascending order |
| WorkQueue.Candidates | src/main/kotlin/rs/lukaj/compressor/service/WorkQueue.kt:70-93 | the candidates are in strictly ascending score |
| WorkQueue.NextJobSpec | src/main/kotlin/rs/lukaj/compressor/service/WorkQueue.kt:46-54 | an empty deque changes nothing; otherwise the head is executed, and it stays in the deque |
| WorkQueue.PollLast | src/main/kotlin/rs/lukaj/compressor/service/WorkQueue.kt:40 | the deque without its last element, and nothing for an empty deque |
| WorkQueue.BeginLocalJobSpec | src/main/kotlin/rs/lukaj/compressor/service/WorkQueue.kt:121-122 | only the started job's record changes: it becomes PROCESSING on this node, or InternalServerError when missing |
| WorkQueue.ConsiderSound | src/main/kotlin/rs/lukaj/compressor/service/WorkQueue.kt:80-93 | every candidate one worker entry adds comes from an eligible worker, scored size times efficiency |
| WorkQueue.CollectRemoteSound | src/main/kotlin/rs/lukaj/compressor/service/WorkQueue.kt:80-93 | every candidate the worker loop adds comes from an eligible listed worker (stored UP, answering, not disk-full, below its limit), scored size times efficiency |
| WorkQueue.CollectRemoteFrame | src/main/kotlin/rs/lukaj/compressor/service/WorkQueue.kt:80-93 | the record of a host the loop does not visit is unchanged |
| WorkQueue.CollectRemoteRecordsSizes | src/main/kotlin/rs/lukaj/compressor/service/WorkQueue.kt:83-86 | each UP worker that answers has its reported size recorded, even when the disk-full and size filters then drop it |
| WorkQueue.CandidatesSound | src/main/kotlin/rs/lukaj/compressor/service/WorkQueue.kt:67-93 | the candidates are in strictly ascending score, and each is this node (when the admission check passes, scored by the deque length) or an eligible worker, asked only with a master key |
| WorkQueue.LocalWinsTies | src/main/kotlin/rs/lukaj/compressor/service/WorkQueue.kt:70-93 | when this node competes it stays a candidate and no other candidate has its score |
| WorkQueue.CandidatesRecordSizes | src/main/kotlin/rs/lukaj/compressor/service/WorkQueue.kt:83-86 | with a master key, every listed UP worker that answers has its reported size in the store |
| WorkQueue.RemoteJobStaysLocal | src/main/kotlin/rs/lukaj/compressor/service/WorkQueue.kt:68 | a job from a master runs on this node only: no worker is asked and the worker records are unchanged |
| WorkQueue.FailedSendChangesNothing | src/main/kotlin/rs/lukaj/compressor/service/WorkQueue.kt:138-143 | a send that throws leaves everything as it was |
| WorkQueue.AcceptedSendPops | src/main/kotlin/rs/lukaj/compressor/service/WorkQueue.kt:138-143 | a send that returns pops the head, and the job's record becomes PROCESSING |
| WorkQueue.FailureMovesOn | src/main/kotlin/rs/lukaj/compressor/service/WorkQueue.kt:96-105 | a candidate that throws hands the job on to the next, from the state the failure left |
| WorkQueue.LocalDispatch | src/main/kotlin/rs/lukaj/compressor/service/WorkQueue.kt:116-122 | with a free slot the counter goes up by one, the head is popped, marked IN_QUEUE and its encode starts |
| WorkQueue.LocalDispatchNeedsSlot | src/main/kotlin/rs/lukaj/compressor/service/WorkQueue.kt:116-119 | the counter moves only when a slot was free, and then by exactly one |
| WorkQueue.SlotsTakenStopsTheSearch | src/main/kotlin/rs/lukaj/compressor/service/WorkQueue.kt:99-102 | with every local slot taken this node returns normally, the job stays at the head and no later candidate is tried |
| WorkQueue.FailedSearchRejects | src/main/kotlin/rs/lukaj/compressor/service/WorkQueue.kt:96-110 | the search fails only through rejection: the record is REJECTED, its queue file is gone and QueueFull is thrown (InternalServerError for a missing record) |
| WorkQueue.RejectionPollsLast | src/main/kotlin/rs/lukaj/compressor/service/WorkQueue.kt:36-44 | with no candidate, the new job is rejected but stays at the head, and the deque's last job is dropped |
| WorkQueue.WorkQueue.GetQueueSize | src/main/kotlin/rs/lukaj/compressor/service/WorkQueue.kt:150 | the deque's length |
| WorkQueue.WorkQueue.EnsureQueueCanAcceptNewVideo | src/main/kotlin/rs/lukaj/compressor/service/WorkQueue.kt:146-148 | fails with QueueFull exactly when the deque is longer than the queue size |
| WorkQueue.WorkQueue.ExecuteLocally | src/main/kotlin/rs/lukaj/compressor/service/WorkQueue.kt:113-134 | the queue state ends as `ExecuteLocallySpec` says (see `LocalDispatch`, `LocalDispatchNeedsSlot`) |
| WorkQueue.WorkQueue.ExecuteRemotely | src/main/kotlin/rs/lukaj/compressor/service/WorkQueue.kt:136-144 | the queue state ends as `ExecuteRemotelySpec` says (see `FailedSendChangesNothing`, `AcceptedSendPops`) |
| WorkQueue.WorkQueue.CollectCandidates | src/main/kotlin/rs/lukaj/compressor/service/WorkQueue.kt:70-93 | the candidates and the worker records are as `Candidates` says (see `CandidatesSound`) |
| WorkQueue.WorkQueue.VisitWorker | src/main/kotlin/rs/lukaj/compressor/service/WorkQueue.kt:80-93 | one entry of the worker loop, as `Consider` says |
| WorkQueue.WorkQueue.Reject | src/main/kotlin/rs/lukaj/compressor/service/WorkQueue.kt:107-110 | the record becomes REJECTED, the queue file goes and QueueFull is thrown; a missing record throws InternalServerError and changes nothing |
| WorkQueue.WorkQueue.TryNode | src/main/kotlin/rs/lukaj/compressor/service/WorkQueue.kt:97-101 | this node executes locally and any other name remotely |
| WorkQueue.WorkQueue.TryCandidates | src/main/kotlin/rs/lukaj/compressor/service/WorkQueue.kt:96-110 | the candidates are tried in order until one returns normally, and rejection follows when none does (see `FailedSearchRejects`) |
| WorkQueue.WorkQueue.Execute | src/main/kotlin/rs/lukaj/compressor/service/WorkQueue.kt:67-111 | the queue state ends as `ExecuteSpec` says (see `RemoteJobStaysLocal`, `CandidatesSound`) |
| WorkQueue.WorkQueue.NextJob | src/main/kotlin/rs/lukaj/compressor/service/WorkQueue.kt:46-54 | nothing on an empty deque, otherwise the head is executed |
| WorkQueue.WorkQueue.AddToQueue | src/main/kotlin/rs/lukaj/compressor/service/WorkQueue.kt:36-44 | the job is pushed at the head and the next job runs; on QueueFull the deque's last element is dropped (see `RejectionPollsLast`) |
| WorkQueue.WorkQueue.ResetQueue | src/main/kotlin/rs/lukaj/compressor/service/WorkQueue.kt:57-65 | one pop-and-re-add round per job in the deque at the start, stopping at the first exception |
| WorkQueue.BusyResetKeepsQueue | src/main/kotlin/rs/lukaj/compressor/service/WorkQueue.kt:57-65 | on a node that is not a master, with the deque within bound and every slot taken, any number of rounds passes and leaves the deque in its order and all else as it was |
| WorkQueue.BusyResetChangesNothing | src/main/kotlin/rs/lukaj/compressor/service/WorkQueue.kt:57-65 | such a node's whole reset changes nothing |
| WorkQueue.WorkQueue.ResetRound | src/main/kotlin/rs/lukaj/compressor/service/WorkQueue.kt:59-63 | one round of the reset loop, with the remaining rounds as `ResetRounds` says |
| WorkQueue.WorkQueue.ReaddHead | src/main/kotlin/rs/lukaj/compressor/service/WorkQueue.kt:60-62 | the head is taken off and submitted again, as the same job with its own origin and finalizer, without the admission bypass |
| WorkQueue.WorkQueue.BeginLocalJob | src/main/kotlin/rs/lukaj/compressor/service/WorkQueue.kt:121-122 | the started job's record becomes PROCESSING on this node |
| WorkQueue.WorkQueue.CompleteLocalJob | src/main/kotlin/rs/lukaj/compressor/service/WorkQueue.kt:128-130 | the job leaves the running encodes, the counter goes down by one and the next job runs |
| WorkQueue.WorkQueue.AbandonLocalJob | src/main/kotlin/rs/lukaj/compressor/service/WorkQueue.kt:125-127 | the job leaves the running encodes and the counter is not decremented |
| VideoService.LinkItemsConcat | src/main/kotlin/rs/lukaj/compressor/service/VideoService.kt:194-198 | the list items of two lists one after the other are the items of the joined list |
| VideoService.LinkItemsHasEach | src/main/kotlin/rs/lukaj/compressor/service/VideoService.kt:194-198 | each pending video gets its own list item, in list order |
| VideoService.NotificationMail | src/main/kotlin/rs/lukaj/compressor/service/VideoService.kt:190-199 | the notification is addressed to the recipient, in HTML |
| VideoService.FailureMail | src/main/kotlin/rs/lukaj/compressor/service/VideoService.kt:129-131 | the failure mail is addressed to the video's owner, with the failure subject, in plain text |
| VideoService.SendMailNotificationSpec | src/main/kotlin/rs/lukaj/compressor/service/VideoService.kt:186-203 | no record is added or removed, and the queue and the files are untouched |
| VideoService.SubjectsDiffer | src/main/kotlin/rs/lukaj/compressor/service/VideoService.kt:191-199 | the single-video and list subjects differ |
| VideoService.NotificationMailForm | src/main/kotlin/rs/lukaj/compressor/service/VideoService.kt:190-199 | one pending video gives the single-video body with its link; otherwise the list body of its per-video items |
| VideoService.NotificationSendsOneMail | src/main/kotlin/rs/lukaj/compressor/service/VideoService.kt:186-203 | exactly one mail goes out, the notification of the recipient's pending videos; then every record of the recipient is READY and every other record is unchanged |
| VideoService.SendMailToUserIfNeededSpec | src/main/kotlin/rs/lukaj/compressor/service/VideoService.kt:151-159 | the queue and the files are untouched, and a stored record never makes it throw |
| VideoService.MailDeferredWhileInFlight | src/main/kotlin/rs/lukaj/compressor/service/VideoService.kt:154-157 | while the owner has a video in flight no mail goes out and only this record changes, to EMAIL_PENDING |
| VideoService.MailSentWhenNothingInFlight | src/main/kotlin/rs/lukaj/compressor/service/VideoService.kt:152-153 | with nothing of the owner in flight exactly the notification goes out |
| VideoService.FailJobSpec | src/main/kotlin/rs/lukaj/compressor/service/VideoService.kt:122-136 | fails exactly when the record is missing; no record is added or removed, and the queue and the files are untouched |
| VideoService.NotifyFailureSpec | src/main/kotlin/rs/lukaj/compressor/service/VideoService.kt:125-135 | the failure mails add and remove no record, and leave the queue and the files untouched |
| VideoService.FailJobMissingRecord | src/main/kotlin/rs/lukaj/compressor/service/VideoService.kt:122-124 | a missing record throws InternalServerError and nothing changes |
| VideoService.FailJobBlankOwner | src/main/kotlin/rs/lukaj/compressor/service/VideoService.kt:125-128 | an owner whose address is blank (empty, or only characters Kotlin counts as white space, Unicode separators included) gets no mail, and the record is ERROR |
| VideoService.FailJobMailsOwner | src/main/kotlin/rs/lukaj/compressor/service/VideoService.kt:129-135 | any other owner gets the failure mail, then one notification exactly when videos of theirs are pending; the record ends ERROR exactly when none was sent |
| VideoService.UnreserveSpaceSpec | src/main/kotlin/rs/lukaj/compressor/service/VideoService.kt:211-217 | the counter goes down by the space, but never below zero |
| VideoService.ReserveUnreserve | src/main/kotlin/rs/lukaj/compressor/service/VideoService.kt:208-217 | releasing a reservation restores a non-negative counter |
| VideoService.EnoughFreeSpaceMonotone | src/main/kotlin/rs/lukaj/compressor/service/VideoService.kt:161-168 | a smaller upload or a smaller reservation never turns enough space into too little |
| VideoService.EnoughFreeSpaceSmallUpload | src/main/kotlin/rs/lukaj/compressor/service/VideoService.kt:161-168 | an upload below one megabyte, with nothing reserved, needs only free space above the threshold |
| VideoService.PrepareVideoForQueueSpec | src/main/kotlin/rs/lukaj/compressor/service/VideoService.kt:173-184 | exactly one record, under the new id, is added and the queue directory gains exactly that id's file, complete or partial; the queue, the result files and the outbox are untouched |
| VideoService.PrepareVideoForQueueEffect | src/main/kotlin/rs/lukaj/compressor/service/VideoService.kt:173-184 | the reservation is undone on both paths; a saved upload leaves the record UPLOADED with the saved length and its queue file; a failed one throws and leaves the record UPLOADING with its partial queue file |
| VideoService.NoSpaceNoRecord | src/main/kotlin/rs/lukaj/compressor/service/VideoService.kt:34-45 | without enough space both entry points throw NotEnoughSpace and create no record |
| VideoService.AdmittedUploadIsQueued | src/main/kotlin/rs/lukaj/compressor/service/VideoService.kt:34-40 | with space and a saved upload, the new video's job is pushed, mailing its owner, with the size check on |
| VideoService.AcceptProcessedVideoEffect | src/main/kotlin/rs/lukaj/compressor/service/VideoService.kt:61-75 | a result for an unknown video is refused with EntityNotFound and changes nothing; for a known one the call passes, the result file exists, the record holds the result's length, the queue file is gone and the progress entry dropped (the record's status after the mail step: `StoreResultDefersMail`, `StoreResultNotifies`) |
| VideoService.ProcessedEffect | src/main/kotlin/rs/lukaj/compressor/service/VideoService.kt:65 | `setVideoProcessed` changes only that record, to PROCESSED with the length and the current time, and drops its progress entry |
| VideoService.MailStepKeepsLengths | src/main/kotlin/rs/lukaj/compressor/service/VideoService.kt:151-159 | the mail step changes no record's result length |
| VideoService.StoreResultIsMailStep | src/main/kotlin/rs/lukaj/compressor/service/VideoService.kt:65-68 | for a stored video, storing a result is: mark it PROCESSED, delete the queue file, then run the mail step |
| VideoService.StoreResultStores | src/main/kotlin/rs/lukaj/compressor/service/VideoService.kt:65-68 | storing a result passes, the record holds the result's length, the queue file is gone, the result files are unchanged and the progress entry dropped |
| VideoService.StoreResultDefersMail | src/main/kotlin/rs/lukaj/compressor/service/VideoService.kt:66-68 | when another video of the owner is still in flight, the record ends EMAIL_PENDING and no mail is sent |
| VideoService.StoreResultNotifies | src/main/kotlin/rs/lukaj/compressor/service/VideoService.kt:66-68 | when no other video of the owner is in flight, the record ends READY and exactly one mail is sent |
| VideoService.IdleNodeReassignsNothing | src/main/kotlin/rs/lukaj/compressor/service/VideoService.kt:81-83 | a node with nothing PROCESSING on it gets nothing resubmitted |
| VideoService.ReassignFirst | src/main/kotlin/rs/lukaj/compressor/service/VideoService.kt:77-83 | the first video resubmitted is a PROCESSING one of that node, pushed with the size check bypassed |
| VideoService.DownloadVideoSpec | src/main/kotlin/rs/lukaj/compressor/service/VideoService.kt:90-97 | only a READY or DOWNLOADED video can be downloaded, and it then becomes DOWNLOADED; any other fails with InvalidStatus and changes nothing |
| VideoService.VideoFromRemoteExistsInQueue | src/main/kotlin/rs/lukaj/compressor/service/VideoService.kt:101-102 | true exactly when the single record made for the master's id is in an in-queue status; several such records throw |
| VideoService.RunLocalJobFreesSlot | src/main/kotlin/rs/lukaj/compressor/service/WorkQueue.kt:120-131 | success or not, a job with a stored record reaches the completion step: the counter goes down by one and the next job runs |
| VideoService.FinalizeOrFailReturns | src/main/kotlin/rs/lukaj/compressor/service/WorkQueue.kt:121-128 | with the record stored, the run does not throw: an encode failure only fails the job |
| VideoService.MissingRecordLeaksSlot | src/main/kotlin/rs/lukaj/compressor/service/WorkQueue.kt:125-129 | a job whose record is gone throws out of the run, so its slot stays taken |
| VideoService.VideoService.ReserveSpace | src/main/kotlin/rs/lukaj/compressor/service/VideoService.kt:208-210 | the counter goes up by the space |
| VideoService.VideoService.UnreserveSpace | src/main/kotlin/rs/lukaj/compressor/service/VideoService.kt:211-217 | the counter as `UnreserveSpaceSpec` says |
| VideoService.VideoService.IsThereEnoughFreeSpaceInQueue | src/main/kotlin/rs/lukaj/compressor/service/VideoService.kt:161-168 | enough, exactly when the free megabytes minus this upload and the reserved ones stay above the panic threshold |
| VideoService.VideoService.SendMailNotification | src/main/kotlin/rs/lukaj/compressor/service/VideoService.kt:186-203 | the state ends as `SendMailNotificationSpec` says (see `NotificationSendsOneMail`) |
| VideoService.VideoService.BatchBody | src/main/kotlin/rs/lukaj/compressor/service/VideoService.kt:194-199 | the list body: one item per pending video, in order |
| VideoService.VideoService.SendMailToUserIfNeeded | src/main/kotlin/rs/lukaj/compressor/service/VideoService.kt:151-159 | as `SendMailToUserIfNeededSpec` (see `MailDeferredWhileInFlight`, `MailSentWhenNothingInFlight`) |
| VideoService.VideoService.FailJob | src/main/kotlin/rs/lukaj/compressor/service/VideoService.kt:122-136 | as `FailJobSpec` (see `FailJobMissingRecord`, `FailJobBlankOwner`, `FailJobMailsOwner`) |
| VideoService.VideoService.NotifyFailure | src/main/kotlin/rs/lukaj/compressor/service/VideoService.kt:125-135 | the mails `failJob` sends once the record is ERROR |
| VideoService.VideoService.PrepareVideoForQueue | src/main/kotlin/rs/lukaj/compressor/service/VideoService.kt:173-184 | as `PrepareVideoForQueueSpec` (see `PrepareVideoForQueueEffect`) |
| VideoService.VideoService.AddToQueue | src/main/kotlin/rs/lukaj/compressor/service/VideoService.kt:34-40 | the space check, the record and the upload, then the job mailing the owner joins the queue (see `NoSpaceNoRecord`, `AdmittedUploadIsQueued`) |
| VideoService.VideoService.AddVideoFromMaster | src/main/kotlin/rs/lukaj/compressor/service/VideoService.kt:42-59 | the same without an owner address, with a job that returns its result to the master |
| VideoService.VideoService.AcceptProcessedVideo | src/main/kotlin/rs/lukaj/compressor/service/VideoService.kt:61-75 | as `AcceptProcessedVideoSpec` (see `AcceptProcessedVideoEffect`) |
| VideoService.VideoService.MoveQueueOn | src/main/kotlin/rs/lukaj/compressor/service/VideoService.kt:70-74 | the next job runs and its exception is swallowed |
| VideoService.VideoService.StoreResult | src/main/kotlin/rs/lukaj/compressor/service/VideoService.kt:66-69 | the record becomes PROCESSED with the result's length, the queue file goes and the owner is mailed if due |
| VideoService.VideoService.ReassignVideo | src/main/kotlin/rs/lukaj/compressor/service/VideoService.kt:77-79 | the video's job joins the queue with the size check bypassed |
| VideoService.VideoService.ReassignWorkFromDeadNode | src/main/kotlin/rs/lukaj/compressor/service/VideoService.kt:81-83 | every video PROCESSING on the node, as listed at the start, is resubmitted in order (see `ReassignFirst`) |
| VideoService.VideoService.DownloadVideo | src/main/kotlin/rs/lukaj/compressor/service/VideoService.kt:90-97 | as `DownloadVideoSpec` |
| VideoService.VideoService.IsQueueFull | src/main/kotlin/rs/lukaj/compressor/service/VideoService.kt:106-120 | not full with space and room in the deque; otherwise full unless some worker answers not full, asked with the requester's key or our own (no own key: full) |
| VideoService.VideoService.Finalize | src/main/kotlin/rs/lukaj/compressor/service/VideoService.kt:138-149 | a local job's record becomes PROCESSED and its owner is mailed if due; a master's job is returned, both files go and the record is DELETED |
| VideoService.VideoService.FinalizeForOwner | src/main/kotlin/rs/lukaj/compressor/service/VideoService.kt:140-148 | the locally originated finalizer, every exception ignored |
| VideoService.VideoService.FinalizeForMaster | src/main/kotlin/rs/lukaj/compressor/service/VideoService.kt:48-57 | the master's finalizer; an exception fails the job |
| VideoService.VideoService.RunLocalJob | src/main/kotlin/rs/lukaj/compressor/service/WorkQueue.kt:120-131 | the whole background run, as `RunLocalJobSpec` (see `RunLocalJobFreesSlot`) |
| VideoService.VideoService.EndLocalJob | src/main/kotlin/rs/lukaj/compressor/service/WorkQueue.kt:129-130 | the slot is freed and the queue moves on, unless the run threw first |
| VideoService.VideoService.RunEncode | src/main/kotlin/rs/lukaj/compressor/service/WorkQueue.kt:121-128 | PROCESSING, then the finalizer on success or failing the job otherwise, as `FinalizeOrFail` (see `FinalizeOrFailReturns`) |
| VideoCrudService.NoSpaceRejected | src/main/kotlin/rs/lukaj/compressor/service/VideoCrudService.kt:30 | too little free space throws NotEnoughSpace and changes nothing |
| VideoCrudService.FullQueueRejected | src/main/kotlin/rs/lukaj/compressor/service/VideoCrudService.kt:31 | with space but as many unfinished records as the queue size, QueueFull is thrown and nothing changes |
| VideoCrudService.AdmittedUploadRecorded | src/main/kotlin/rs/lukaj/compressor/service/VideoCrudService.kt:33-36 | an admitted upload creates one UPLOADING record, then UPLOADED when the copy went through, with its file in the queue directory; a failed copy leaves it UPLOADING |
| VideoCrudService.AdmissionAddsOne | src/main/kotlin/rs/lukaj/compressor/service/VideoCrudService.kt:31-36 | an admitted upload adds exactly one unfinished record |
| VideoCrudService.AdmissionKeepsQueueBound | src/main/kotlin/rs/lukaj/compressor/service/VideoCrudService.kt:31-36 | admission never takes the unfinished count above the queue size |
| VideoCrudService.CompletionNotifiesAndReadies | src/main/kotlin/rs/lukaj/compressor/service/VideoCrudService.kt:37-40 | after the encode the owner gets exactly one mail, with its link, and that record alone becomes READY |
| VideoCrudService.ReadyMailCarriesLink | src/main/kotlin/rs/lukaj/compressor/service/VideoCrudService.kt:54-59 | the body of the ready mail has the video's name right after its opening words and the download link just before its closing tag |
| VideoCrudService.GetVideoSpec | src/main/kotlin/rs/lukaj/compressor/service/VideoCrudService.kt:44-51 | a missing id is EntityNotFound, a record not READY or DOWNLOADED is InvalidStatus, otherwise the result file of its name |
| VideoCrudService.ServedOnlyAfterCompletion | src/main/kotlin/rs/lukaj/compressor/service/VideoCrudService.kt:29-51 | an admitted, copied upload is not served until its encode has completed, and is served under its own name once it has |
| VideoCrudService.NotServedWhileUploaded | src/main/kotlin/rs/lukaj/compressor/service/VideoCrudService.kt:46-48 | an UPLOADED record is refused with InvalidStatus |
| VideoCrudService.ServedWhenReady | src/main/kotlin/rs/lukaj/compressor/service/VideoCrudService.kt:44-51 | once the encode has completed, the record is served under its own name |
| VideoCrudService.VideoCrudService.AddToQueue | src/main/kotlin/rs/lukaj/compressor/service/VideoCrudService.kt:29-41 | the checks, the record, the copy and the UPLOADED mark, as `AddToQueueSpec` |
| VideoCrudService.VideoCrudService.CompleteEncode | src/main/kotlin/rs/lukaj/compressor/service/VideoCrudService.kt:37-40 | the mail and the READY mark of the background step, as `CompleteEncodeSpec` |
| VideoCrudService.VideoCrudService.SendMailNotification | src/main/kotlin/rs/lukaj/compressor/service/VideoCrudService.kt:54-59 | one ready mail to the owner, then the record becomes READY |
| VideoCrudService.VideoCrudService.GetVideo | src/main/kotlin/rs/lukaj/compressor/service/VideoCrudService.kt:44-51 | as `GetVideoSpec` |
| WorkerActionsController.WorkerModeOffRefusesAll | src/main/kotlin/rs/lukaj/compressor/controller/WorkerActionsController.kt:33-44 | with worker mode off every key is refused, answered 403 |
| WorkerActionsController.AuthorizedIff | src/main/kotlin/rs/lukaj/compressor/controller/WorkerActionsController.kt:33-44 | with worker mode on, a key gets in exactly when the list is the lone "*" or names the key; a refusal is answered 401 |
| WorkerActionsController.StarAmongOthersIsLiteral | src/main/kotlin/rs/lukaj/compressor/controller/WorkerActionsController.kt:37-41 | a "*" beside other entries is no wildcard |
| WorkerActionsController.QueueSizeReply | src/main/kotlin/rs/lukaj/compressor/controller/WorkerActionsController.kt:46-51 | an allowed caller is told the unfinished count, the queue size, and disk-full exactly when the free megabytes are at most the threshold |
| WorkerActionsController.InQueueReply | src/main/kotlin/rs/lukaj/compressor/controller/WorkerActionsController.kt:80-91 | an allowed caller gets 200 exactly when the one record made for that id is in an in-queue status, 404 when there is none, and an exception when there are several |
| WorkerActionsController.RefusedCallerGetsRefusal | src/main/kotlin/rs/lukaj/compressor/controller/WorkerActionsController.kt:46-91 | the three modelled key-checked endpoints (queue size, ping, queue membership) answer a refused caller with the refusal |
| WorkerActionsController.AuthorizedPingAnswered | src/main/kotlin/rs/lukaj/compressor/controller/WorkerActionsController.kt:53-57 | the ping is answered "pong" exactly for an allowed caller |
| VideoApiController.Fresh | src/main/kotlin/rs/lukaj/compressor/controller/VideoApiController.kt:60-62 | a cached time is fresh exactly when it plus the caching time is after now; the initial time is never fresh, and a negative caching time overflows it |
| VideoApiController.OwnKeyBypassesCache | src/main/kotlin/rs/lukaj/compressor/controller/VideoApiController.kt:57 | this node's own key is answered 200 without reading or writing the cache |
| VideoApiController.CachedWithinWindow | src/main/kotlin/rs/lukaj/compressor/controller/VideoApiController.kt:60-62 | within the window the cached status is answered, whatever the service would say, and the cache stays |
| VideoApiController.RecomputedOutsideWindow | src/main/kotlin/rs/lukaj/compressor/controller/VideoApiController.kt:64-70 | outside the window the service's answer (503 or 200) is answered and cached with the time |
| VideoApiController.FirstRequestRecomputes | src/main/kotlin/rs/lukaj/compressor/controller/VideoApiController.kt:30-70 | the first request from another key asks the service |
| VideoApiController.CacheStaysValid | src/main/kotlin/rs/lukaj/compressor/controller/VideoApiController.kt:54-71 | every answer is 200 or 503 and the cache keeps one of the two |
| VideoApiController.RepeatedWithinWindowAgrees | src/main/kotlin/rs/lukaj/compressor/controller/VideoApiController.kt:59-70 | two requests within the caching time of a recomputation get the same answer |
| VideoApiController.VideoApiController.IsQueueFull | src/main/kotlin/rs/lukaj/compressor/controller/VideoApiController.kt:54-71 | the answer and the cache as `QueueStatusSpec` over the service's `isQueueFull` |
| WorkerDaemon.PingHostSpec | src/main/kotlin/rs/lukaj/compressor/scheduled/WorkerDaemon.kt:36-63 | one host of the liveness sweep keeps the daemon state well formed |
| WorkerDaemon.PingAll | src/main/kotlin/rs/lukaj/compressor/scheduled/WorkerDaemon.kt:33-64 | the loop over the hosts keeps the daemon state well formed |
| WorkerDaemon.PingWorkersSpec | src/main/kotlin/rs/lukaj/compressor/scheduled/WorkerDaemon.kt:29-68 | the sweep keeps the daemon state well formed |
| WorkerDaemon.UpWorkerSkipped | src/main/kotlin/rs/lukaj/compressor/scheduled/WorkerDaemon.kt:39-40 | a stored UP worker that answers is skipped and nothing is written |
| WorkerDaemon.DeadWorkerSkipped | src/main/kotlin/rs/lukaj/compressor/scheduled/WorkerDaemon.kt:41 | a worker already declared dead that still does not answer is skipped, so its work is not resubmitted again |
| WorkerDaemon.FailedPingMarksDown | src/main/kotlin/rs/lukaj/compressor/scheduled/WorkerDaemon.kt:44-51 | any other failed ping saves the worker DOWN with one more down ping; it is remembered while below the threshold, and reaching it resubmits its work exactly when its queue size is positive |
| WorkerDaemon.RememberedWorkerRecovers | src/main/kotlin/rs/lukaj/compressor/scheduled/WorkerDaemon.kt:52-58 | a remembered worker that answers is saved UP and forgotten, and its work is resubmitted exactly when its reported size differs from the videos PROCESSING on it |
| WorkerDaemon.NewWorkerRaisesFlag | src/main/kotlin/rs/lukaj/compressor/scheduled/WorkerDaemon.kt:59-62 | a DOWN worker that answers and was not remembered is saved UP and triggers the queue reset |
| WorkerDaemon.PingAllKeepsOtherHosts | src/main/kotlin/rs/lukaj/compressor/scheduled/WorkerDaemon.kt:33-64 | only the hosts the sweep visits can enter or leave the remembered set |
| WorkerDaemon.AllUpChangesNothing | src/main/kotlin/rs/lukaj/compressor/scheduled/WorkerDaemon.kt:33-64 | when every listed worker is stored UP and answers, the loop changes nothing |
| WorkerDaemon.SteadySweep | src/main/kotlin/rs/lukaj/compressor/scheduled/WorkerDaemon.kt:29-68 | with every configured worker UP and answering, the sweep changes nothing and resets nothing |
| WorkerDaemon.Missing | src/main/kotlin/rs/lukaj/compressor/scheduled/WorkerDaemon.kt:80-83 | exactly the videos whose worker does not report them |
| WorkerDaemon.IntegrityAll | src/main/kotlin/rs/lukaj/compressor/scheduled/WorkerDaemon.kt:79-84 | the integrity loop keeps the service state well formed |
| WorkerDaemon.IntegrityOne | src/main/kotlin/rs/lukaj/compressor/scheduled/WorkerDaemon.kt:80-83 | one video of the integrity pass keeps the service state well formed |
| WorkerDaemon.CheckWorkerQueueIntegritySpec | src/main/kotlin/rs/lukaj/compressor/scheduled/WorkerDaemon.kt:71-85 | the integrity sweep keeps the service state well formed |
| WorkerDaemon.IntegrityReassignsMissing | src/main/kotlin/rs/lukaj/compressor/scheduled/WorkerDaemon.kt:79-84 | the integrity sweep resubmits exactly the videos their worker does not report, in order |
| WorkerDaemon.WorkerDaemon.PingHost | src/main/kotlin/rs/lukaj/compressor/scheduled/WorkerDaemon.kt:36-63 | one host, as `PingHostSpec` (see `UpWorkerSkipped`, `FailedPingMarksDown`, `RememberedWorkerRecovers`) |
| WorkerDaemon.WorkerDaemon.PingWorkers | src/main/kotlin/rs/lukaj/compressor/scheduled/WorkerDaemon.kt:29-68 | the sweep, as `PingWorkersSpec` (see `SteadySweep`) |
| WorkerDaemon.WorkerDaemon.CheckVideo | src/main/kotlin/rs/lukaj/compressor/scheduled/WorkerDaemon.kt:80-83 | one video, as `IntegrityOne` |
| WorkerDaemon.WorkerDaemon.CheckWorkerQueueIntegrity | src/main/kotlin/rs/lukaj/compressor/scheduled/WorkerDaemon.kt:71-85 | the sweep, as `CheckWorkerQueueIntegritySpec` (see `IntegrityReassignsMissing`) |
| FileCleanup.RetireAll | src/main/kotlin/rs/lukaj/compressor/scheduled/FileCleanup.kt:31-34 | the loop keeps the store well formed and deletes only result files |
| FileCleanup.Retired | src/main/kotlin/rs/lukaj/compressor/scheduled/FileCleanup.kt:32-33 | the record written back differs from the listed one only in status and save time |
| FileCleanup.RetireAllFiles | src/main/kotlin/rs/lukaj/compressor/scheduled/FileCleanup.kt:31-34 | exactly the listed records' result files are deleted |
| FileCleanup.RetireAllRows | src/main/kotlin/rs/lukaj/compressor/scheduled/FileCleanup.kt:31-34 | listed records end with the new status saved now; every other record is unchanged and none is added |
| FileCleanup.RemoveClaimedFilesSpec | src/main/kotlin/rs/lukaj/compressor/scheduled/FileCleanup.kt:22-37 | the sweep keeps the store well formed |
| FileCleanup.RemoveUnclaimedFilesSpec | src/main/kotlin/rs/lukaj/compressor/scheduled/FileCleanup.kt:40-57 | the sweep keeps the store well formed |
| FileCleanup.RetireStored | src/main/kotlin/rs/lukaj/compressor/scheduled/FileCleanup.kt:31-34 | a sweep over stored records retires exactly the listed ids |
| FileCleanup.OldDownloadedVideosListsIds | src/main/kotlin/rs/lukaj/compressor/dao/VideoDao.kt:101-103 | the query lists exactly the old DOWNLOADED records |
| FileCleanup.ClaimedCleanupEffect | src/main/kotlin/rs/lukaj/compressor/scheduled/FileCleanup.kt:22-37 | above the threshold nothing changes; otherwise exactly the old DOWNLOADED records become DELETED and lose their result files, and nothing else changes |
| FileCleanup.OldUndownloadedVideosListsIds | src/main/kotlin/rs/lukaj/compressor/dao/VideoDao.kt:104-106 | the query lists exactly the old READY records |
| FileCleanup.UnclaimedCleanupEffect | src/main/kotlin/rs/lukaj/compressor/scheduled/FileCleanup.kt:40-57 | above the threshold nothing changes; otherwise exactly the old READY records become DELETED_WITHOUT_DOWNLOADING and lose their result files |
| FileCleanup.FileCleanup.RemoveClaimedFiles | src/main/kotlin/rs/lukaj/compressor/scheduled/FileCleanup.kt:22-37 | the store and the result directory as `RemoveClaimedFilesSpec` (see `ClaimedCleanupEffect`) |
| FileCleanup.FileCleanup.RemoveUnclaimedFiles | src/main/kotlin/rs/lukaj/compressor/scheduled/FileCleanup.kt:40-57 | as `RemoveUnclaimedFilesSpec` (see `UnclaimedCleanupEffect`) |
| ZombieVideoCleanup.OldErrorZombieVideosListsIds | src/main/kotlin/rs/lukaj/compressor/dao/VideoDao.kt:107-109 | the query lists exactly the old ERROR records |
| ZombieVideoCleanup.ZombieErrorsEffect | src/main/kotlin/rs/lukaj/compressor/scheduled/ZombieVideoCleanup.kt:26-36 | when either partition is at or below the threshold, exactly the queue and result files of old ERROR records are deleted and no record changes; otherwise nothing changes |
| ZombieVideoCleanup.RunAction | src/main/kotlin/rs/lukaj/compressor/scheduled/ZombieVideoCleanup.kt:50-63 | one step keeps the queue and the files and adds or removes no record; it fails exactly when it fails a record that is not stored |
| ZombieVideoCleanup.RunActions | src/main/kotlin/rs/lukaj/compressor/scheduled/ZombieVideoCleanup.kt:50-63 | the steps in order keep the service state well formed |
| ZombieVideoCleanup.RunActionsKeeps | src/main/kotlin/rs/lukaj/compressor/scheduled/ZombieVideoCleanup.kt:39-63 | a sweep adds and removes no record and leaves the queue and the files alone; it cannot fail when every record it fails is stored |
| ZombieVideoCleanup.FailActions | src/main/kotlin/rs/lukaj/compressor/scheduled/ZombieVideoCleanup.kt:39-45 | one `failJob` per listed video, in order |
| ZombieVideoCleanup.StuckSweepPasses | src/main/kotlin/rs/lukaj/compressor/scheduled/ZombieVideoCleanup.kt:39-45 | the stuck-job sweep never throws, and it adds and removes no record and leaves the queue and the files alone |
| ZombieVideoCleanup.RunActionsAppend | src/main/kotlin/rs/lukaj/compressor/scheduled/ZombieVideoCleanup.kt:48-65 | running two lists of steps is running the first and, unless it threw, the second from where it left off |
| ZombieVideoCleanup.StepActions | src/main/kotlin/rs/lukaj/compressor/scheduled/ZombieVideoCleanup.kt:52-63 | each stale record yields at most one step |
| ZombieVideoCleanup.StaleFailsExactly | src/main/kotlin/rs/lukaj/compressor/scheduled/ZombieVideoCleanup.kt:59-63 | exactly the failable stale records are failed |
| ZombieVideoCleanup.StaleNotifiesExactly | src/main/kotlin/rs/lukaj/compressor/scheduled/ZombieVideoCleanup.kt:52-58 | exactly the owners of stale EMAIL_PENDING records are notified, except those already cleared |
| ZombieVideoCleanup.StaleNotifiesOnce | src/main/kotlin/rs/lukaj/compressor/scheduled/ZombieVideoCleanup.kt:50-58 | no owner is notified twice in one sweep |
| ZombieVideoCleanup.StaleFailsStored | src/main/kotlin/rs/lukaj/compressor/scheduled/ZombieVideoCleanup.kt:59-63 | every record the stale sweep fails is a listed, hence stored, record |
| ZombieVideoCleanup.StaleSweepPasses | src/main/kotlin/rs/lukaj/compressor/scheduled/ZombieVideoCleanup.kt:48-65 | the stale sweep never throws, and it adds and removes no record and leaves the queue and the files alone |
| ZombieVideoCleanup.ZombieVideoCleanup.CleanupZombieErrors | src/main/kotlin/rs/lukaj/compressor/scheduled/ZombieVideoCleanup.kt:26-36 | the service state as `CleanupZombieErrorsSpec` (see `ZombieErrorsEffect`) |
| ZombieVideoCleanup.ZombieVideoCleanup.DeleteZombieFiles | src/main/kotlin/rs/lukaj/compressor/scheduled/ZombieVideoCleanup.kt:31-35 | both files of every listed video are deleted |
| ZombieVideoCleanup.ZombieVideoCleanup.CleanupJobsStuckInTransitiveStates | src/main/kotlin/rs/lukaj/compressor/scheduled/ZombieVideoCleanup.kt:39-45 | as `CleanupJobsStuckSpec` (see `StuckSweepPasses`) |
| ZombieVideoCleanup.ZombieVideoCleanup.CleanupStaleVideos | src/main/kotlin/rs/lukaj/compressor/scheduled/ZombieVideoCleanup.kt:48-65 | as `CleanupStaleVideosSpec` (see `StaleSweepPasses`, `StaleNotifiesOnce`) |
| ZombieVideoCleanup.ZombieVideoCleanup.SettleStale | src/main/kotlin/rs/lukaj/compressor/scheduled/ZombieVideoCleanup.kt:51-63 | one stale record: its step runs and the cleared owners are updated |
| RecoveryScheduler.ParseUuid | src/main/kotlin/rs/lukaj/compressor/scheduled/RecoveryScheduler.kt:35 | a name parses exactly when it is the canonical UUID text, to the same text in lower case |
| RecoveryScheduler.ParsePrintedUuid | src/main/kotlin/rs/lukaj/compressor/scheduled/RecoveryScheduler.kt:35 | an id as a UUID prints itself parses back to itself |
| RecoveryScheduler.ParseUuidIdempotent | src/main/kotlin/rs/lukaj/compressor/scheduled/RecoveryScheduler.kt:35 | a parsed id parses to itself |
| RecoveryScheduler.FreshId | src/main/kotlin/rs/lukaj/compressor/dao/VideoDao.kt:40-44 | the key generated for a new record is used by no stored record |
| RecoveryScheduler.SkipReason | src/main/kotlin/rs/lukaj/compressor/scheduled/RecoveryScheduler.kt:34-44 | a file is passed over exactly when its name is no id or names no ERROR record |
| RecoveryScheduler.RecoverFileSpec | src/main/kotlin/rs/lukaj/compressor/scheduled/RecoveryScheduler.kt:33-55 | one file keeps the recovery state well formed (its effect is stated by `EligibleFileOutcome`, `SkippedFileChangesNothing`, `NoSpaceKeepsFile` and `RecoverFileFrame`) |
| RecoveryScheduler.RecoverAll | src/main/kotlin/rs/lukaj/compressor/scheduled/RecoveryScheduler.kt:32-56 | the sweep keeps the recovery state well formed (its effect is stated by `RecoverAllFrame` and `RecoverAllKeepsUnvisited`) |
| RecoveryScheduler.SkippedFileChangesNothing | src/main/kotlin/rs/lukaj/compressor/scheduled/RecoveryScheduler.kt:36-44 | a file passed over changes nothing |
| RecoveryScheduler.NoSpaceKeepsFile | src/main/kotlin/rs/lukaj/compressor/scheduled/RecoveryScheduler.kt:46-55 | without room in the queue the old queue file goes, the recovery file stays for the next sweep and no record is created |
| RecoveryScheduler.EligibleFileResubmitted | src/main/kotlin/rs/lukaj/compressor/scheduled/RecoveryScheduler.kt:46-52 | with room, the old queue file goes and the upload step of the submission succeeds under a fresh id, leaving that record UPLOADED with the failed record's name and owner and the file's length; the failed record stays |
| RecoveryScheduler.EligibleFileOutcome | src/main/kotlin/rs/lukaj/compressor/scheduled/RecoveryScheduler.kt:46-55 | for a file naming a failed video: that video has no queue file afterwards; the file leaves the recovery directory exactly when the submission did not throw (a full queue or a rejection keeps it); with room, a record under a fresh id holds the video's name and owner and the file's length |
| RecoveryScheduler.SubmissionFrame | src/main/kotlin/rs/lukaj/compressor/service/VideoService.kt:34-40 | a submission keeps every record and adds to the queue directory at most the new id's file; with room and a saved upload, the new record holds the name, owner and saved length |
| RecoveryScheduler.RecoverFileFrame | src/main/kotlin/rs/lukaj/compressor/scheduled/RecoveryScheduler.kt:33-55 | one visit only removes recovery files, keeps every record, and gives no record that lacked a queue file one |
| RecoveryScheduler.RecoverAllFrame | src/main/kotlin/rs/lukaj/compressor/scheduled/RecoveryScheduler.kt:32-56 | the whole sweep only removes recovery files and keeps every record; a failed video whose queue file a visit deleted has none at the end |
| RecoveryScheduler.RecoverAllKeepsUnvisited | src/main/kotlin/rs/lukaj/compressor/scheduled/RecoveryScheduler.kt:32-56 | files are visited in order; a file not yet visited is still listed unless its name was cleared |
| RecoveryScheduler.RecoveryScheduler.RescheduleVideosForRecovery | src/main/kotlin/rs/lukaj/compressor/scheduled/RecoveryScheduler.kt:29-57 | the sweep, as `RescheduleVideosForRecoverySpec` |
| RecoveryScheduler.RecoveryScheduler.RecoverFile | src/main/kotlin/rs/lukaj/compressor/scheduled/RecoveryScheduler.kt:33-55 | one file, as `RecoverFileSpec` (see `EligibleFileOutcome`, `NoSpaceKeepsFile`, `EligibleFileResubmitted`) |

## Left out

- The encoder (VideoConverter and ffmpeg): an encode is a job in `running`, and its result length or failure is an input of the completion step.
- Threads: executors, `@Synchronized`, `@Async` and the scheduling of sweeps are not modelled; each call runs alone, and a background encode is a separate step.
- HTTP plumbing: WorkerGateway.kt and the worker-service client are reduced to the `Replies` snapshot that the functions of the `WorkerGateway` module read. `sendResultToMaster` is a pass/fail reply.
- Controller endpoints that only stream files or delegate (`addVideoToQueue`, `acceptResult`, `uploadVideo`, `downloadVideo`, `getVideosStatus`) are not modelled beyond the service operations they call.
- WorkerActionsController: `acceptResult` (controller/WorkerActionsController.kt:71-78) takes no master key and never calls `ensureMasterAuthorized`, so any caller can deliver a result for an existing video id; the model has no controller member for it and its key check covers only the queue-size, ping and queue-membership endpoints.
- VideoService `getVideo`, `getVideosForUser`, `videoExists` and `getQueueSize` are one-line delegations to `FindById`, `AllVideosForUser` and `GetQueueSize`.
- The reloading of the configuration file (configuration/EnvironmentProperties.kt:93-119) is not modelled; the configuration is a map.
- Floating point: efficiency, speed and `toDouble` are real numbers; `toDouble` accepts only plain decimals.
- SendGridGateway.SendGridGateway.SendMail: does not model dropping the mail when no API key is set, nor an I/O failure of the request; every mail reaches the outbox.
- RecoveryScheduler.ParseUuid: accepts only the canonical 8-4-4-4-12 form, not the shorter groups `UUID.fromString` also tolerates.
- EnvironmentProperties.Settings: holds every numeric property already parsed, so the model assumes each one parses. A NumberFormatException at a getter's call site is not modelled: the worker list at src/main/kotlin/rs/lukaj/compressor/service/WorkQueue.kt:80 (outside the `try`), the space check at src/main/kotlin/rs/lukaj/compressor/service/VideoService.kt:107 and 112, the daemon at src/main/kotlin/rs/lukaj/compressor/scheduled/WorkerDaemon.kt:30, 41 and 47, the admission check at src/main/kotlin/rs/lukaj/compressor/service/VideoCrudService.kt:31, and the queue-size endpoint at src/main/kotlin/rs/lukaj/compressor/controller/WorkerActionsController.kt:49.
- EnvironmentProperties.EnvVarName: upper-cases ASCII letters only, while `toUpperCase()` maps every Unicode letter; only the unreachable environment step reads the name.
- EnvironmentProperties.ParseInteger: accepts the ASCII digits only, while `Integer.parseInt` also accepts the other Unicode decimal digits (such as Arabic-Indic or full-width ones).
- VideoService.IsWhitespace: follows Unicode 6.3 and later, so on a Java 8 runtime, which counts U+180E as a space separator, a string made only of U+180E is blank there but not here.
- RecoveryScheduler.RecoverAll: the recovery file is opened (`FileInputStream`, src/main/kotlin/rs/lukaj/compressor/scheduled/RecoveryScheduler.kt:47) before the `try`, so a file that vanished after the listing ends the whole sweep with FileNotFoundException; the model's listing is the directory itself, so it never has such a file.
- RecoveryScheduler.FreshId: stands in for the random key the store generates; only its freshness is modelled.
- Date arithmetic: `minusMinutes` and `plusSeconds` are integer arithmetic, so their overflow at the limits of `LocalDateTime` is not modelled, except that `LocalDateTime.MIN.plusSeconds` with a negative caching time fails.
- `Worker.lastAliveTime` is not modelled; nothing in the modelled code reads it.
- `VideoDao.setVideoDownloaded(id)` (dao/VideoDao.kt:98) is not modelled; only the entity form is called.
- Spring transactions: a failed call's earlier writes are kept, as they are for the checked I/O exceptions the model raises.
