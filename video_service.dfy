/**
 * The master's admission and notification policy (service/VideoService.kt): the space check and
 * the reserved-space counter around an upload, the submission of jobs to the work queue, the
 * "one mail once the owner has nothing left in flight" rule, failing a job, downloads, and the
 * resubmission of work from a dead worker.
 *
 * As for the work queue, each operation is a pure function on a `ServiceState`, and the class at
 * the end keeps the same state in fields and is proved to have exactly that effect.
 */
module VideoService {
  import opened Wrappers
  import opened HttpExceptions
  import opened Model
  import opened Repositories
  import opened VideoDao
  import opened FileService
  import opened SendGridGateway
  import opened WorkerGateway
  import opened EnvironmentProperties
  import opened Utils
  import opened WorkQueue

  /**
   * What the service reads and writes: the work queue's state, the progress cache, the result
   * directory, the mails handed to the mail gateway (in order), and the reserved upload space.
   */
  datatype ServiceState = ServiceState(
    q: QueueState,
    progressCache: map<VideoId, int>,
    resultFiles: set<VideoId>,
    sent: seq<Mail>,
    reservedSpace: int)

  ghost predicate ServiceValid(s: ServiceState) {
    StateValid(s.q)
  }

  function WithVideos(s: ServiceState, t: VideoTable): ServiceState {
    s.(q := s.q.(videos := t))
  }

  /** The deque, the counter, the running encodes and the worker records are left alone. */
  ghost predicate QueueKept(s: ServiceState, r: ServiceState) {
    r.q.queue == s.q.queue && r.q.jobsExecuting == s.q.jobsExecuting
    && r.q.running == s.q.running && r.q.workers == s.q.workers
  }

  /** The directories, the progress cache and the reservation are left alone. */
  ghost predicate FilesKept(s: ServiceState, r: ServiceState) {
    r.q.queueFiles == s.q.queueFiles && r.resultFiles == s.resultFiles
    && r.progressCache == s.progressCache && r.reservedSpace == s.reservedSpace
  }

  // ---- the mails ----

  const SINGLE_SUBJECT: string := "Compressed video is ready!"
  const BATCH_SUBJECT: string := "Compressed videos are ready!"
  const BATCH_HEAD: string := "Your videos are ready. You can download them using these links:<br><ul>"
  const BATCH_TAIL: string := "</ul>"
  const FAILURE_SUBJECT: string := "An error occurred while processing your video."

  function SingleBody(hostUrl: string, v: Video): string {
    "Your video " + v.name + " is ready. You can download it <a href=\"" + BuildDownloadLink(hostUrl, v.id) + "\">here</a>"
  }

  /** One list item of the batch mail: the video's download link, labelled with its name. */
  function LinkItem(hostUrl: string, v: Video): string {
    "<li><a href=\"" + BuildDownloadLink(hostUrl, v.id) + "\">" + v.name + "</a></li>"
  }

  /** The list items of the videos, in order. */
  function LinkItems(hostUrl: string, vs: seq<Video>): string
    decreases |vs|
  {
    if vs == [] then "" else LinkItems(hostUrl, vs[..|vs| - 1]) + LinkItem(hostUrl, vs[|vs| - 1])
  }

  /** The items of two lists one after the other are the items of the joined list. */
  lemma {:induction false} LinkItemsConcat(hostUrl: string, a: seq<Video>, b: seq<Video>)
    ensures LinkItems(hostUrl, a + b) == LinkItems(hostUrl, a) + LinkItems(hostUrl, b)
    decreases |b|
  {
    if b == [] {
      assert a + b == a;
    } else {
      var b' := b[..|b| - 1];
      var last := LinkItem(hostUrl, b[|b| - 1]);
      assert (a + b)[..|a + b| - 1] == a + b';
      assert (a + b)[|a + b| - 1] == b[|b| - 1];
      assert LinkItems(hostUrl, a + b) == LinkItems(hostUrl, a + b') + last;
      LinkItemsConcat(hostUrl, a, b');
      SeqAssoc(LinkItems(hostUrl, a), LinkItems(hostUrl, b'), last);
    }
  }

  lemma SeqAssoc<T>(x: seq<T>, y: seq<T>, z: seq<T>)
    ensures (x + y) + z == x + (y + z)
  {
  }

  /** Each video gets its own item, in list order: the items before it, its item, the items after it. */
  lemma LinkItemsHasEach(hostUrl: string, vs: seq<Video>, i: nat)
    requires i < |vs|
    ensures LinkItems(hostUrl, vs) == LinkItems(hostUrl, vs[..i]) + LinkItem(hostUrl, vs[i]) + LinkItems(hostUrl, vs[i + 1..])
  {
    assert vs == vs[..i] + [vs[i]] + vs[i + 1..];
    LinkItemsConcat(hostUrl, vs[..i] + [vs[i]], vs[i + 1..]);
    LinkItemsConcat(hostUrl, vs[..i], [vs[i]]);
    assert [vs[i]][..0] == [];
  }

  /** The mail `sendMailNotification` sends for the pending videos `vs` of the recipient. */
  function NotificationMail(hostUrl: string, recipient: string, vs: seq<Video>): (m: Mail)
    ensures m.to == recipient && m.isHtml
  {
    if |vs| == 1 then Mail(SINGLE_SUBJECT, SingleBody(hostUrl, vs[0]), true, recipient)
    else Mail(BATCH_SUBJECT, BATCH_HEAD + LinkItems(hostUrl, vs) + BATCH_TAIL, true, recipient)
  }

  /** The mail `failJob` sends to the owner of the failed video. */
  function FailureMail(v: Video): (m: Mail)
    ensures m.to == v.email && m.subject == FAILURE_SUBJECT && !m.isHtml
  {
    Mail(FAILURE_SUBJECT, "An error occurred while processing your video " + v.name + ". This is the id: " + v.id
      + ", so drop me a message. Sorry :/", false, v.email)
  }

  /**
   * Kotlin's `Char.isWhitespace` on the JVM: Java's white space (tab to carriage return, the four
   * information separators, and the space separators other than the no-break ones) together with
   * every space, line and paragraph separator, as of Unicode 6.3 (where U+180E is no longer a space).
   */
  predicate IsWhitespace(c: char) {
    c == ' ' || '\t' <= c <= '\r' || '\U{1C}' <= c <= '\U{1F}' || c == '\U{A0}' || c == '\U{1680}'
    || '\U{2000}' <= c <= '\U{200A}' || c == '\U{2028}' || c == '\U{2029}' || c == '\U{202F}'
    || c == '\U{205F}' || c == '\U{3000}'
  }

  /** Kotlin's `isBlank`: every character is white space (so also the empty string). */
  predicate IsBlank(s: string) {
    forall i :: 0 <= i < |s| ==> IsWhitespace(s[i])
  }

  // ---- notification ----

  /** `sendMailNotification`: one mail for the recipient's pending videos, then every video of theirs is READY. */
  function SendMailNotificationSpec(s: ServiceState, hostUrl: string, recipient: string): (r: ServiceState)
    requires ServiceValid(s)
    ensures ServiceValid(r) && QueueKept(s, r) && FilesKept(s, r)
    ensures r.q.videos.rows.Keys == s.q.videos.rows.Keys
  {
    var t := s.q.videos;
    var m := NotificationMail(hostUrl, recipient, AllPendingVideosForUser(t, recipient));
    WithVideos(s, SetVideosReadyForUser(t, recipient)).(sent := s.sent + [m])
  }

  /** The two subjects differ, so the subject tells which form a notification has. */
  lemma SubjectsDiffer()
    ensures SINGLE_SUBJECT != BATCH_SUBJECT
  {
    assert |SINGLE_SUBJECT| != |BATCH_SUBJECT|;
  }

  /**
   * The single-video form exactly when one video is pending; otherwise the list form, whose items
   * (by `LinkItemsHasEach`) are one per pending video, in list order.
   */
  lemma NotificationMailForm(hostUrl: string, recipient: string, vs: seq<Video>)
    ensures var m := NotificationMail(hostUrl, recipient, vs);
      (m.subject == SINGLE_SUBJECT <==> |vs| == 1)
      && (|vs| == 1 ==> m.body == SingleBody(hostUrl, vs[0]))
      && (|vs| != 1 ==> m.body == BATCH_HEAD + LinkItems(hostUrl, vs) + BATCH_TAIL)
  {
    SubjectsDiffer();
  }

  /**
   * Exactly one mail goes out, the notification of the recipient's pending videos; afterwards every
   * record of the recipient is READY and every other record is as it was.
   */
  lemma NotificationSendsOneMail(s: ServiceState, hostUrl: string, recipient: string)
    requires ServiceValid(s)
    ensures var r := SendMailNotificationSpec(s, hostUrl, recipient);
      r.sent == s.sent + [NotificationMail(hostUrl, recipient, AllPendingVideosForUser(s.q.videos, recipient))]
      && r.q.videos.rows.Keys == s.q.videos.rows.Keys
      && (forall id :: id in s.q.videos.rows && s.q.videos.rows[id].email == recipient ==> r.q.videos.rows[id].status == READY)
      && (forall id :: id in s.q.videos.rows && s.q.videos.rows[id].email != recipient ==> r.q.videos.rows[id] == s.q.videos.rows[id])
  {
  }

  /**
   * `sendMailToUserIfNeeded`: with nothing of the owner left in flight the batch notification goes
   * out; otherwise this video alone becomes EMAIL_PENDING.
   */
  function SendMailToUserIfNeededSpec(s: ServiceState, env: Env, id: VideoId, email: string): (r: (Outcome<Exception>, ServiceState))
    requires ServiceValid(s)
    ensures ServiceValid(r.1) && QueueKept(s, r.1) && FilesKept(s, r.1)
    ensures id in s.q.videos.rows ==> r.0.Pass?
  {
    var t := s.q.videos;
    if QueueSizeForEmail(t, email) == 0 then (Pass, SendMailNotificationSpec(s, env.settings.hostUrl, email))
    else
      var (o, t2) := SetById(t, id, SetStatus(EMAIL_PENDING), env.now);
      (o, WithVideos(s, t2))
  }

  /** While the owner still has a video in flight no mail goes out, and only this record changes. */
  lemma MailDeferredWhileInFlight(s: ServiceState, env: Env, id: VideoId, email: string)
    requires ServiceValid(s) && id in s.q.videos.rows
    requires exists k :: k in s.q.videos.rows && s.q.videos.rows[k].status in IN_QUEUE_STATES && s.q.videos.rows[k].email == email
    ensures var (o, r) := SendMailToUserIfNeededSpec(s, env, id, email);
      o.Pass? && r.sent == s.sent && r.q.videos.rows[id].status == EMAIL_PENDING
      && r.q.videos.rows.Keys == s.q.videos.rows.Keys
      && forall k :: k in s.q.videos.rows && k != id ==> r.q.videos.rows[k] == s.q.videos.rows[k]
  {
    QueueSizeForEmailZero(s.q.videos, email);
  }

  /** With nothing of the owner in flight, exactly the notification goes out. */
  lemma MailSentWhenNothingInFlight(s: ServiceState, env: Env, id: VideoId, email: string)
    requires ServiceValid(s)
    requires forall k :: k in s.q.videos.rows && s.q.videos.rows[k].email == email ==> s.q.videos.rows[k].status !in IN_QUEUE_STATES
    ensures SendMailToUserIfNeededSpec(s, env, id, email) == (Pass, SendMailNotificationSpec(s, env.settings.hostUrl, email))
  {
    QueueSizeForEmailZero(s.q.videos, email);
  }

  // ---- failing a job ----

  /**
   * `failJob`: the record becomes ERROR (a missing record throws); an owner with a blank address
   * gets nothing, any other owner the failure mail and, when videos of theirs are pending, the
   * batch notification as well.
   */
  function FailJobSpec(s: ServiceState, env: Env, id: VideoId): (r: (Outcome<Exception>, ServiceState))
    requires ServiceValid(s)
    ensures ServiceValid(r.1) && QueueKept(s, r.1) && FilesKept(s, r.1)
    ensures r.0.Pass? <==> id in s.q.videos.rows
    ensures r.1.q.videos.rows.Keys == s.q.videos.rows.Keys
  {
    var (o, t) := SetById(s.q.videos, id, SetStatus(ERROR), env.now);
    if o.Fail? then (o, s) else (Pass, NotifyFailureSpec(WithVideos(s, t), env, t.rows[id]))
  }

  /** The mails of `failJob` once the record `v` is ERROR. */
  function NotifyFailureSpec(s: ServiceState, env: Env, v: Video): (r: ServiceState)
    requires ServiceValid(s)
    ensures ServiceValid(r) && QueueKept(s, r) && FilesKept(s, r)
    ensures r.q.videos.rows.Keys == s.q.videos.rows.Keys
  {
    if IsBlank(v.email) then s
    else
      var s2 := s.(sent := s.sent + [FailureMail(v)]);
      if AllPendingVideosForUser(s.q.videos, v.email) != [] then SendMailNotificationSpec(s2, env.settings.hostUrl, v.email)
      else s2
  }

  /** A missing record makes `failJob` throw InternalServerError and change nothing. */
  lemma FailJobMissingRecord(s: ServiceState, env: Env, id: VideoId)
    requires ServiceValid(s) && id !in s.q.videos.rows
    ensures FailJobSpec(s, env, id) == (Fail(Http(InternalServerError)), s)
  {
  }

  /** An owner with a blank address gets no mail; the record is ERROR. */
  lemma FailJobBlankOwner(s: ServiceState, env: Env, id: VideoId)
    requires ServiceValid(s) && id in s.q.videos.rows && IsBlank(s.q.videos.rows[id].email)
    ensures var (o, r) := FailJobSpec(s, env, id);
      o.Pass? && r.sent == s.sent && r.q.videos.rows[id].status == ERROR
  {
    var t := SetById(s.q.videos, id, SetStatus(ERROR), env.now).1;
    assert t.rows[id].email == s.q.videos.rows[id].email;
  }

  /**
   * Any other owner gets the failure mail first, then one notification iff videos of theirs are
   * pending. The bulk READY of that notification covers the failed record too, as the update ignores
   * the status: the record ends ERROR exactly when no notification was sent.
   */
  lemma FailJobMailsOwner(s: ServiceState, env: Env, id: VideoId)
    requires ServiceValid(s) && id in s.q.videos.rows && !IsBlank(s.q.videos.rows[id].email)
    ensures var (o, r) := FailJobSpec(s, env, id);
      var t := SetById(s.q.videos, id, SetStatus(ERROR), env.now).1;
      var pending := AllPendingVideosForUser(t, s.q.videos.rows[id].email);
      o.Pass? && |r.sent| > |s.sent| && r.sent[..|s.sent| + 1] == s.sent + [FailureMail(t.rows[id])]
      && (pending == [] ==> |r.sent| == |s.sent| + 1 && r.q.videos.rows[id].status == ERROR)
      && (pending != [] ==> |r.sent| == |s.sent| + 2 && r.q.videos.rows[id].status == READY)
  {
    var t := SetById(s.q.videos, id, SetStatus(ERROR), env.now).1;
    var v := t.rows[id];
    assert v.email == s.q.videos.rows[id].email;
    var s2 := WithVideos(s, t).(sent := s.sent + [FailureMail(v)]);
    if AllPendingVideosForUser(t, v.email) != [] {
      NotificationSendsOneMail(s2, env.settings.hostUrl, v.email);
      var r := SendMailNotificationSpec(s2, env.settings.hostUrl, v.email);
      assert r.sent[..|s.sent| + 1] == s2.sent;
    }
  }

  // ---- the reserved space ----

  function ReserveSpaceSpec(reserved: int, space: int): int {
    reserved + space
  }

  /** `unreserveSpace`: the counter goes down, clamped at 0. */
  function UnreserveSpaceSpec(reserved: int, space: int): (r: int)
    ensures r >= 0
    ensures reserved - space >= 0 ==> r == reserved - space
  {
    if reserved - space < 0 then 0 else reserved - space
  }

  /** A reservation released again restores a non-negative counter. */
  lemma ReserveUnreserve(reserved: int, space: int)
    requires reserved >= 0 && space >= 0
    ensures UnreserveSpaceSpec(ReserveSpaceSpec(reserved, space), space) == reserved
  {
  }

  /** `isThereEnoughFreeSpaceInQueue`: free megabytes after this upload and the reserved ones, above the panic threshold. */
  function EnoughFreeSpace(freeMb: int, size: int, reserved: int, threshold: int): bool {
    freeMb - TruncDiv(size, MB) - TruncDiv(reserved, MB) > threshold
  }

  /** Truncating division by a positive divisor is monotone. */
  lemma TruncDivMonotone(a: int, b: int, d: int)
    requires 0 <= a <= b && d > 0
    ensures TruncDiv(a, d) <= TruncDiv(b, d)
  {
    var qa, qb := TruncDiv(a, d), TruncDiv(b, d);
    if qa > qb {
      MulMonotone(qb + 1, qa, d);
    }
  }

  lemma MulMonotone(x: int, y: int, d: int)
    requires x <= y && d > 0
    ensures x * d <= y * d
  {
  }

  /** A smaller upload or a smaller reservation never turns enough space into too little. */
  lemma EnoughFreeSpaceMonotone(freeMb: int, size: int, reserved: int, size2: int, reserved2: int, threshold: int)
    requires 0 <= size2 <= size && 0 <= reserved2 <= reserved
    requires EnoughFreeSpace(freeMb, size, reserved, threshold)
    ensures EnoughFreeSpace(freeMb, size2, reserved2, threshold)
  {
    TruncDivMonotone(size2, size, MB);
    TruncDivMonotone(reserved2, reserved, MB);
  }

  /** Whole megabytes only: an upload below one megabyte with nothing reserved needs free space above the threshold alone. */
  lemma EnoughFreeSpaceSmallUpload(freeMb: int, size: int, threshold: int)
    requires 0 <= size < MB
    ensures EnoughFreeSpace(freeMb, size, 0, threshold) <==> freeMb > threshold
  {
  }

  // ---- admission ----

  /**
   * `prepareVideoForQueue`: the record is created (UPLOADING), the space reserved, the upload saved
   * to the queue directory and the record set UPLOADED with the saved length; the reservation is
   * released whether or not saving threw. `received` is the length written, or None when it threw,
   * in which case the partly written queue file stays behind.
   * The created record is returned as created.
   */
  function PrepareVideoForQueueSpec(s: ServiceState, env: Env, id: VideoId, name: string, size: int, email: string,
                                    origin: string, originId: Option<VideoId>, received: Option<int>)
    : (r: (Result<Video, Exception>, ServiceState))
    requires ServiceValid(s) && id !in s.q.videos.rows
    ensures ServiceValid(r.1) && QueueKept(s, r.1)
    ensures r.1.resultFiles == s.resultFiles && r.1.sent == s.sent
    ensures r.1.q.videos.rows.Keys == s.q.videos.rows.Keys + {id} && r.1.q.queueFiles == s.q.queueFiles + {id}
  {
    var (v, t) := NewRecord(s.q.videos, id, name, size, email, origin, originId, env.now);
    var reserved := ReserveSpaceSpec(s.reservedSpace, size);
    if received.None? then
      (Failure(IOError), s.(q := s.q.(videos := t, queueFiles := s.q.queueFiles + {id}), reservedSpace := UnreserveSpaceSpec(reserved, size)))
    else
      var t2 := SetById(t, id, Uploaded(received.value), env.now).1;
      (Success(v), s.(q := s.q.(videos := t2, queueFiles := s.q.queueFiles + {id}), reservedSpace := UnreserveSpaceSpec(reserved, size)))
  }

  /**
   * The reservation is undone on both paths; a saved upload leaves the record UPLOADED with the
   * saved length and its file in the queue directory; a failed one leaves it UPLOADING, with its
   * partial file in the queue directory, and throws.
   */
  lemma PrepareVideoForQueueEffect(s: ServiceState, env: Env, id: VideoId, name: string, size: int, email: string,
                                   origin: string, originId: Option<VideoId>, received: Option<int>)
    requires ServiceValid(s) && id !in s.q.videos.rows && s.reservedSpace >= 0 && size >= 0
    ensures var (r, s2) := PrepareVideoForQueueSpec(s, env, id, name, size, email, origin, originId, received);
      s2.reservedSpace == s.reservedSpace && id in s2.q.videos.rows
      && s2.q.videos.rows[id].email == email && s2.q.videos.rows[id].origin == origin && s2.q.videos.rows[id].originId == originId
      && (received.Some? ==> (r.Success? && r.value.id == id && r.value.email == email && id in s2.q.queueFiles
            && s2.q.videos.rows[id].status == UPLOADED && s2.q.videos.rows[id].originalSize == received.value))
      && (received.None? ==> r == Failure(IOError) && s2.q.queueFiles == s.q.queueFiles + {id} && s2.q.videos.rows[id].status == UPLOADING)
  {
    ReserveUnreserve(s.reservedSpace, size);
  }

  /** Either entry point first checks the space; a check that fails throws NotEnoughSpace. */
  function CheckSpace(s: ServiceState, env: Env, queueUsable: int, size: int): Outcome<Exception> {
    if EnoughFreeSpace(FreeSpaceMb(queueUsable), size, s.reservedSpace, env.settings.queueMinimumSpaceRemaining) then Pass
    else Fail(Http(NotEnoughSpace))
  }

  /** A queue-level step that leaves the rest of the service state alone. */
  function Lift(s: ServiceState, r: (Outcome<Exception>, QueueState)): (Outcome<Exception>, ServiceState) {
    (r.0, s.(q := r.1))
  }

  /** `addToQueue`: space check, record and upload, then the job (mail to the owner when done) joins the queue. */
  function AddLocalVideoSpec(s: ServiceState, env: Env, queueUsable: int, id: VideoId, name: string, size: int,
                             email: string, received: Option<int>): (r: (Outcome<Exception>, ServiceState))
    requires ServiceValid(s) && id !in s.q.videos.rows
    ensures ServiceValid(r.1)
  {
    if CheckSpace(s, env, queueUsable, size).Fail? then (Fail(Http(NotEnoughSpace)), s)
    else
      var (v, s1) := PrepareVideoForQueueSpec(s, env, id, name, size, email, NODE_LOCAL, None, received);
      if v.Failure? then (Fail(v.error), s1)
      else Lift(s1, AddToQueueSpec(s1.q, env, Job(v.value.id, LOCAL, NotifyOwner(v.value.email)), false))
  }

  /** `addVideoFromMaster`: the same with no owner address, and a job that returns its result to the master. */
  function AddVideoFromMasterSpec(s: ServiceState, env: Env, queueUsable: int, id: VideoId, originId: VideoId,
                                  name: string, size: int, origin: string, returnUrl: string, received: Option<int>)
    : (r: (Outcome<Exception>, ServiceState))
    requires ServiceValid(s) && id !in s.q.videos.rows
  {
    if CheckSpace(s, env, queueUsable, size).Fail? then (Fail(Http(NotEnoughSpace)), s)
    else
      var (v, s1) := PrepareVideoForQueueSpec(s, env, id, name, size, "", origin, Some(originId), received);
      if v.Failure? then (Fail(v.error), s1)
      else Lift(s1, AddToQueueSpec(s1.q, env, Job(id, REMOTE, ReturnToMaster(originId, returnUrl)), false))
  }

  /** Without enough space both entry points throw NotEnoughSpace before any record exists. */
  lemma NoSpaceNoRecord(s: ServiceState, env: Env, queueUsable: int, id: VideoId, originId: VideoId, name: string,
                        size: int, email: string, origin: string, returnUrl: string, received: Option<int>)
    requires ServiceValid(s) && id !in s.q.videos.rows
    requires FreeSpaceMb(queueUsable) - TruncDiv(size, MB) - TruncDiv(s.reservedSpace, MB) <= env.settings.queueMinimumSpaceRemaining
    ensures AddLocalVideoSpec(s, env, queueUsable, id, name, size, email, received) == (Fail(Http(NotEnoughSpace)), s)
    ensures AddVideoFromMasterSpec(s, env, queueUsable, id, originId, name, size, origin, returnUrl, received) == (Fail(Http(NotEnoughSpace)), s)
  {
  }

  /** With enough space and a saved upload, the job pushed is the new video's, mailing its owner, with the size check on. */
  lemma AdmittedUploadIsQueued(s: ServiceState, env: Env, queueUsable: int, id: VideoId, name: string, size: int,
                               email: string, len: int)
    requires ServiceValid(s) && id !in s.q.videos.rows
    requires CheckSpace(s, env, queueUsable, size).Pass?
    ensures var (v, s1) := PrepareVideoForQueueSpec(s, env, id, name, size, email, NODE_LOCAL, None, Some(len));
      v.Success? && AddLocalVideoSpec(s, env, queueUsable, id, name, size, email, Some(len))
        == Lift(s1, AddToQueueSpec(s1.q, env, Job(id, LOCAL, NotifyOwner(email)), false))
  {
  }

  // ---- results, reassignment, downloads ----

  /** `setVideoProcessed` as the service sees it: the record and the progress cache. */
  function ProcessedSpec(s: ServiceState, env: Env, id: VideoId, size: int): (r: (Outcome<Exception>, ServiceState))
    requires ServiceValid(s)
    ensures ServiceValid(r.1) && QueueKept(s, r.1)
  {
    var (o, t) := SetById(s.q.videos, id, Processed(size), env.now);
    if o.Fail? then (o, s) else (Pass, WithVideos(s, t).(progressCache := s.progressCache - {id}))
  }

  /**
   * `acceptProcessedVideo`: an unknown id throws EntityNotFound; otherwise the result is saved (a
   * failed copy throws and leaves its partial result file), the
   * record PROCESSED with its length, the queue file deleted and the owner mailed if due; then the
   * queue moves on, any exception of that last step being swallowed.
   */
  function AcceptProcessedVideoSpec(s: ServiceState, env: Env, id: VideoId, received: Option<int>): (r: (Outcome<Exception>, ServiceState))
    requires ServiceValid(s)
  {
    match FindById(s.q.videos, id)
    case None => (Fail(Http(EntityNotFound("Video with id " + id + " not found."))), s)
    case Some(video) =>
      if received.None? then (Fail(IOError), s.(resultFiles := s.resultFiles + {id}))
      else
        var (o3, s3) := StoreResultSpec(s.(resultFiles := s.resultFiles + {id}), env, id, received.value, video.email);
        if o3.Fail? then (o3, s3) else (Pass, s3.(q := NextJobSpec(s3.q, env, false).1))
  }

  /** The bookkeeping once the result is saved: PROCESSED with its length, queue file gone, owner mailed if due. */
  function StoreResultSpec(s: ServiceState, env: Env, id: VideoId, size: int, email: string): (r: (Outcome<Exception>, ServiceState))
    requires ServiceValid(s)
    ensures ServiceValid(r.1)
  {
    var (o1, s1) := ProcessedSpec(s, env, id, size);
    if o1.Fail? then (o1, s1)
    else
      var s2 := s1.(q := s1.q.(queueFiles := s1.q.queueFiles - {id}));
      SendMailToUserIfNeededSpec(s2, env, id, email)
  }

  /** `setVideoProcessed` on a stored video: that record alone changes, to PROCESSED with the length, and its progress entry goes. */
  lemma ProcessedEffect(s: ServiceState, env: Env, id: VideoId, len: int)
    requires ServiceValid(s) && id in s.q.videos.rows
    ensures var (o, r) := ProcessedSpec(s, env, id, len);
      o.Pass? && r.q.videos.rows.Keys == s.q.videos.rows.Keys
      && r.q.videos.rows[id] == s.q.videos.rows[id].(compressedSize := len, status := PROCESSED, updatedAt := env.now)
      && (forall k :: k in s.q.videos.rows && k != id ==> r.q.videos.rows[k] == s.q.videos.rows[k])
      && r == s.(q := s.q.(videos := r.q.videos), progressCache := s.progressCache - {id})
  {
  }

  /** The mail step only moves statuses: every record keeps its result length. */
  lemma MailStepKeepsLengths(s: ServiceState, env: Env, id: VideoId, email: string, k: VideoId)
    requires ServiceValid(s) && k in s.q.videos.rows
    ensures var r := SendMailToUserIfNeededSpec(s, env, id, email).1;
      k in r.q.videos.rows && r.q.videos.rows[k].compressedSize == s.q.videos.rows[k].compressedSize
  {
    var t := s.q.videos;
    if QueueSizeForEmail(t, email) != 0 && id in t.rows {
      var t2 := SetById(t, id, SetStatus(EMAIL_PENDING), env.now).1;
      assert k != id ==> t2.rows[k] == t.rows[k];
    }
  }

  /** No other video of the owner in flight, judged before the record becomes PROCESSED. */
  ghost predicate NothingElseInFlight(t: VideoTable, id: VideoId, email: string) {
    forall k :: k in t.rows && k != id && t.rows[k].email == email ==> t.rows[k].status !in IN_QUEUE_STATES
  }

  /** The state the mail step of `StoreResultSpec` starts from, for a stored video. */
  ghost function AfterProcessed(s: ServiceState, env: Env, id: VideoId, len: int): ServiceState
    requires ServiceValid(s)
  {
    var t := SetById(s.q.videos, id, Processed(len), env.now).1;
    s.(q := s.q.(videos := t, queueFiles := s.q.queueFiles - {id}), progressCache := s.progressCache - {id})
  }

  /** For a stored video, storing a result is the mail step from `AfterProcessed`. */
  lemma StoreResultIsMailStep(s: ServiceState, env: Env, id: VideoId, len: int, email: string)
    requires ServiceValid(s) && id in s.q.videos.rows
    ensures ServiceValid(AfterProcessed(s, env, id, len))
    ensures StoreResultSpec(s, env, id, len, email) == SendMailToUserIfNeededSpec(AfterProcessed(s, env, id, len), env, id, email)
  {
    ProcessedEffect(s, env, id, len);
  }

  /** Storing a result for a stored video: the record holds the result's length and its queue file is gone. */
  lemma StoreResultStores(s: ServiceState, env: Env, id: VideoId, len: int, email: string)
    requires ServiceValid(s) && id in s.q.videos.rows
    ensures var (o, r) := StoreResultSpec(s, env, id, len, email);
      o.Pass? && id in r.q.videos.rows && r.q.videos.rows[id].compressedSize == len && id !in r.q.queueFiles
      && r.resultFiles == s.resultFiles && r.progressCache == s.progressCache - {id}
  {
    StoreResultIsMailStep(s, env, id, len, email);
    MailStepKeepsLengths(AfterProcessed(s, env, id, len), env, id, email, id);
  }

  /** While another video of the owner is in flight, no mail goes out and the record is EMAIL_PENDING. */
  lemma StoreResultDefersMail(s: ServiceState, env: Env, id: VideoId, len: int)
    requires ServiceValid(s) && id in s.q.videos.rows
    requires !NothingElseInFlight(s.q.videos, id, s.q.videos.rows[id].email)
    ensures var (o, r) := StoreResultSpec(s, env, id, len, s.q.videos.rows[id].email);
      r.q.videos.rows[id].status == EMAIL_PENDING && r.sent == s.sent
  {
    var email := s.q.videos.rows[id].email;
    StoreResultIsMailStep(s, env, id, len, email);
    var s2 := AfterProcessed(s, env, id, len);
    var k :| k in s.q.videos.rows && k != id && s.q.videos.rows[k].email == email && s.q.videos.rows[k].status in IN_QUEUE_STATES;
    assert s2.q.videos.rows[k] == s.q.videos.rows[k];
    MailDeferredWhileInFlight(s2, env, id, email);
  }

  /** With nothing else of the owner in flight, the one notification goes out and the record is READY. */
  lemma StoreResultNotifies(s: ServiceState, env: Env, id: VideoId, len: int)
    requires ServiceValid(s) && id in s.q.videos.rows
    requires NothingElseInFlight(s.q.videos, id, s.q.videos.rows[id].email)
    ensures var (o, r) := StoreResultSpec(s, env, id, len, s.q.videos.rows[id].email);
      r.q.videos.rows[id].status == READY && |r.sent| == |s.sent| + 1
  {
    var email := s.q.videos.rows[id].email;
    var s2 := AfterProcessed(s, env, id, len);
    assert s2.q.videos.rows[id].status == PROCESSED && s2.q.videos.rows[id].email == email;
    forall k | k in s2.q.videos.rows && s2.q.videos.rows[k].email == email
      ensures s2.q.videos.rows[k].status !in IN_QUEUE_STATES
    {
      if k != id {
        assert s2.q.videos.rows[k] == s.q.videos.rows[k];
      }
    }
    MailSentWhenNothingInFlight(s2, env, id, email);
    NotificationSendsOneMail(s2, env.settings.hostUrl, email);
    var r := SendMailNotificationSpec(s2, env.settings.hostUrl, email);
    assert r.q.videos.rows[id].status == READY && |r.sent| == |s2.sent| + 1;
    StoreResultIsMailStep(s, env, id, len, email);
    assert StoreResultSpec(s, env, id, len, email) == (Pass, r);
  }

  /**
   * A result for an unknown video is refused and changes nothing. A known one is accepted: the
   * result file is there, the record keeps the result's length (as `StoreResultStores` leaves it,
   * the queue moving on only changes statuses), and the video's queue file and progress entry are gone.
   */
  lemma AcceptProcessedVideoEffect(s: ServiceState, env: Env, id: VideoId, len: int)
    requires ServiceValid(s)
    ensures id !in s.q.videos.rows ==>
      AcceptProcessedVideoSpec(s, env, id, Some(len)) == (Fail(Http(EntityNotFound("Video with id " + id + " not found."))), s)
    ensures id in s.q.videos.rows ==>
      var (o, r) := AcceptProcessedVideoSpec(s, env, id, Some(len));
      o.Pass? && id in r.resultFiles && r.progressCache == s.progressCache - {id}
      && id in r.q.videos.rows && r.q.videos.rows[id].compressedSize == len && id !in r.q.queueFiles
  {
    if id in s.q.videos.rows {
      var s0 := s.(resultFiles := s.resultFiles + {id});
      StoreResultStores(s0, env, id, len, s.q.videos.rows[id].email);
      var (o3, s3) := StoreResultSpec(s0, env, id, len, s.q.videos.rows[id].email);
      var q4 := NextJobSpec(s3.q, env, false).1;
      assert UploadsKept(s3.q, q4);
      assert FindById(s.q.videos, id) == Some(s.q.videos.rows[id]);
      assert AcceptProcessedVideoSpec(s, env, id, Some(len)) == (Pass, s3.(q := q4));
    }
  }

  /** The job that resubmits a video: locally originated, mailing its owner. */
  function ReassignedJob(v: Video): Job {
    Job(v.id, LOCAL, NotifyOwner(v.email))
  }

  /** `reassignVideo`: the video's job joins the queue with the size check bypassed. */
  function ReassignVideoSpec(s: ServiceState, env: Env, v: Video): (r: (Outcome<Exception>, ServiceState))
    requires ServiceValid(s)
    ensures ServiceValid(r.1)
  {
    Lift(s, AddToQueueSpec(s.q, env, ReassignedJob(v), true))
  }

  /** The `forEach` of `reassignWorkFromDeadNode`: in order, the first exception ends it. */
  function ReassignAll(s: ServiceState, env: Env, vs: seq<Video>): (r: (Outcome<Exception>, ServiceState))
    requires ServiceValid(s)
    ensures ServiceValid(r.1)
    decreases |vs|
  {
    if vs == [] then (Pass, s)
    else
      var (o, s1) := ReassignVideoSpec(s, env, vs[0]);
      if o.Fail? then (o, s1) else ReassignAll(s1, env, vs[1..])
  }

  /** `reassignWorkFromDeadNode`: every video PROCESSING on the node, as listed when the call starts. */
  function ReassignWorkFromDeadNodeSpec(s: ServiceState, env: Env, node: string): (r: (Outcome<Exception>, ServiceState))
    requires ServiceValid(s)
    ensures ServiceValid(r.1)
  {
    ReassignAll(s, env, VideosProcessingOnNode(s.q.videos, node))
  }

  /** A node with nothing PROCESSING on it gets nothing resubmitted. */
  lemma IdleNodeReassignsNothing(s: ServiceState, env: Env, node: string)
    requires ServiceValid(s)
    requires forall id :: id in s.q.videos.rows ==> s.q.videos.rows[id].status != PROCESSING || s.q.videos.rows[id].node != node
    ensures ReassignWorkFromDeadNodeSpec(s, env, node) == (Pass, s)
  {
  }

  /** The first video resubmitted is a PROCESSING video of that node, pushed with the size check bypassed. */
  lemma ReassignFirst(s: ServiceState, env: Env, node: string)
    requires ServiceValid(s)
    requires VideosProcessingOnNode(s.q.videos, node) != []
    ensures var v := VideosProcessingOnNode(s.q.videos, node)[0];
      var (o, s1) := Lift(s, AddToQueueSpec(s.q, env, Job(v.id, LOCAL, NotifyOwner(v.email)), true));
      v.id in s.q.videos.rows && s.q.videos.rows[v.id] == v && v.status == PROCESSING && v.node == node
      && (o.Fail? ==> ReassignWorkFromDeadNodeSpec(s, env, node) == (o, s1))
  {
    var vs := VideosProcessingOnNode(s.q.videos, node);
    assert vs[0] in vs;
  }

  /** `downloadVideo`: only a READY or DOWNLOADED video can be downloaded, and it becomes DOWNLOADED. */
  function DownloadVideoSpec(s: ServiceState, env: Env, v: Video): (r: (Outcome<Exception>, ServiceState))
    requires ServiceValid(s)
    ensures ServiceValid(r.1)
    ensures r.0.Fail? <==> v.status != READY && v.status != DOWNLOADED
    ensures r.0.Fail? ==> r == (Fail(Http(InvalidStatus("Video not available: currently " + StatusName(v.status)))), s)
    ensures r.0.Pass? ==> v.id in r.1.q.videos.rows && r.1.q.videos.rows[v.id].status == DOWNLOADED
  {
    if v.status != READY && v.status != DOWNLOADED then
      (Fail(Http(InvalidStatus("Video not available: currently " + StatusName(v.status)))), s)
    else (Pass, WithVideos(s, SetEntityStatus(s.q.videos, v, DOWNLOADED, env.now)))
  }

  /**
   * `videoFromRemoteExistsInQueue`: whether the record made for that master id is still in one of
   * the in-queue states; several records with that id make the lookup throw.
   */
  function VideoFromRemoteExistsInQueue(t: VideoTable, originId: VideoId): (r: Result<bool, Exception>)
    requires t.Valid()
    ensures WithOriginId(t, originId) == {} ==> r == Success(false)
    ensures |WithOriginId(t, originId)| == 1 ==>
      (r.Success? && (r.value <==> exists id :: id in WithOriginId(t, originId) && t.rows[id].status in IN_QUEUE_STATES))
    ensures |WithOriginId(t, originId)| > 1 ==> r.Failure?
  {
    match VideoByOriginId(t, originId)
    case Failure(e) => Failure(Other(e))
    case Success(None) => Success(false)
    case Success(Some(v)) =>
      assert v.id in WithOriginId(t, originId);
      OnlyMember(WithOriginId(t, originId), v.id);
      Success(v.status in IN_QUEUE_STATES)
  }

  /** The only member of a one-element set. */
  lemma OnlyMember<T>(s: set<T>, x: T)
    requires |s| == 1 && x in s
    ensures s == {x}
  {
    assert |s - {x}| == 0;
    assert s - {x} == {};
  }

  /**
   * `isQueueFull`: not full when this node has space and room in the deque; otherwise full unless
   * some worker answers that it is not, asked with the requesting master's key or, for a local
   * request, this node's own (a local request without a key of our own is full).
   */
  function IsQueueFullSpec(s: ServiceState, env: Env, queueUsable: int, requestOrigin: string, size: int): bool {
    if CheckSpace(s, env, queueUsable, size).Pass? && |s.q.queue| < env.settings.maxQueueSize then false
    else if requestOrigin == "" && env.settings.myMasterKey.None? then true
    else
      var key := if requestOrigin == "" then env.settings.myMasterKey.value else requestOrigin;
      var workers := env.settings.availableWorkers;
      !exists i :: 0 <= i < |workers| && !IsQueueFull(env.replies, workers[i].0, key)
  }

  // ---- the background encode of a started job ----

  /**
   * The job's finalizer. A locally originated job: the record becomes PROCESSED with the result's
   * length, the queue file goes and the owner is mailed if due, any exception ignored. A job from a
   * master: the result is returned, both files go and the record is DELETED; an exception fails the job.
   */
  function FinalizeSpec(s: ServiceState, env: Env, job: Job, resultLength: int): (r: ServiceState)
    requires ServiceValid(s)
    ensures ServiceValid(r) && QueueKept(s, r)
  {
    var id := job.videoId;
    match job.finalizedBy
    case NotifyOwner(email) =>
      var (o, s1) := ProcessedSpec(s, env, id, resultLength);
      if o.Fail? then s1
      else SendMailToUserIfNeededSpec(s1.(q := s1.q.(queueFiles := s1.q.queueFiles - {id})), env, id, email).1
    case ReturnToMaster(originId, _) =>
      if SendResultToMaster(env.replies, originId).Fail? then FailJobSpec(s, env, id).1
      else
        var s1 := s.(q := s.q.(queueFiles := s.q.queueFiles - {id}), resultFiles := s.resultFiles - {id});
        var (o, t) := SetById(s1.q.videos, id, SetStatus(DELETED), env.now);
        if o.Fail? then FailJobSpec(s1, env, id).1 else WithVideos(s1, t)
  }

  /**
   * What the encode run of the `k`-th started job does before freeing its slot: the record becomes
   * PROCESSING on this node, then the encode runs (`encoded` is the result's length, None when it
   * threw). Success runs the finalizer; an exception on the way fails the job, and an exception of
   * that escapes the run (the outcome).
   */
  function FinalizeOrFail(s: ServiceState, env: Env, k: nat, encoded: Option<int>): (r: (Outcome<Exception>, ServiceState))
    requires ServiceValid(s) && k < |s.q.running|
    ensures ServiceValid(r.1) && QueueKept(s, r.1)
  {
    var job := s.q.running[k];
    var (o1, q1) := BeginLocalJobSpec(s.q, env, k);
    var s1 := s.(q := q1);
    if o1.Pass? && encoded.Some? then (Pass, FinalizeSpec(s1.(resultFiles := s1.resultFiles + {job.videoId}), env, job, encoded.value))
    else FailJobSpec(s1, env, job.videoId)
  }

  /**
   * The whole run: then the job's slot is freed and the queue moves on, unless the run threw
   * first, in which case the counter is never decremented.
   */
  function RunLocalJobSpec(s: ServiceState, env: Env, k: nat, encoded: Option<int>): (r: ServiceState)
    requires ServiceValid(s) && k < |s.q.running|
    ensures ServiceValid(r)
  {
    var (o, s1) := FinalizeOrFail(s, env, k, encoded);
    EndLocalJobSpec(s1, env, k, o)
  }

  /** The end of the run, given how its body ended. */
  function EndLocalJobSpec(s: ServiceState, env: Env, k: nat, o: Outcome<Exception>): (r: ServiceState)
    requires ServiceValid(s) && k < |s.q.running|
    ensures ServiceValid(r)
  {
    if o.Fail? then s.(q := s.q.(running := s.q.running[..k] + s.q.running[k + 1..]))
    else s.(q := CompleteLocalJobSpec(s.q, env, k).1)
  }

  /**
   * Whether the encode succeeded or not, a job with a stored record reaches the completion step
   * (counter down by one, then `nextJob`) with the counter and the running encodes as they were.
   */
  lemma RunLocalJobFreesSlot(s: ServiceState, env: Env, k: nat, encoded: Option<int>)
    requires ServiceValid(s) && k < |s.q.running| && s.q.running[k].videoId in s.q.videos.rows
    ensures var s1 := FinalizeOrFail(s, env, k, encoded).1;
      s1.q.jobsExecuting == s.q.jobsExecuting && s1.q.running == s.q.running
      && RunLocalJobSpec(s, env, k, encoded) == s1.(q := CompleteLocalJobSpec(s1.q, env, k).1)
  {
    FinalizeOrFailReturns(s, env, k, encoded);
  }

  /** With the record stored, the run reaches its end: failing the job cannot throw then. */
  lemma FinalizeOrFailReturns(s: ServiceState, env: Env, k: nat, encoded: Option<int>)
    requires ServiceValid(s) && k < |s.q.running| && s.q.running[k].videoId in s.q.videos.rows
    ensures FinalizeOrFail(s, env, k, encoded).0.Pass?
  {
    var (o1, q1) := BeginLocalJobSpec(s.q, env, k);
    assert s.q.running[k].videoId in q1.videos.rows;
  }

  /** A job whose record is gone keeps its slot for ever: failing it throws inside the run. */
  lemma MissingRecordLeaksSlot(s: ServiceState, env: Env, k: nat, encoded: Option<int>)
    requires ServiceValid(s) && k < |s.q.running| && s.q.running[k].videoId !in s.q.videos.rows
    ensures RunLocalJobSpec(s, env, k, encoded).q.jobsExecuting == s.q.jobsExecuting
  {
  }

  // ---- the service object ----

  /**
   * The service with its collaborators: the work queue (which shares the video store and the file
   * service with it), the mail gateway, and the reserved-space counter.
   */
  class VideoService {
    var reservedSpace: int
    const queue: WorkQueue
    const dao: VideoDao
    const files: FileService
    const mail: SendGridGateway

    ghost function State(): ServiceState
      reads this, queue, queue.dao, queue.workerDao, queue.files, dao, files, mail
    {
      ServiceState(queue.State(), dao.progressCache, files.resultFiles, mail.sent, reservedSpace)
    }

    ghost predicate Valid()
      reads this, queue, queue.dao, queue.workerDao
    {
      queue.Valid() && queue.dao == dao && queue.files == files
    }

    constructor (queue: WorkQueue, mail: SendGridGateway)
      requires queue.Valid()
      ensures Valid() && this.queue == queue && this.mail == mail && reservedSpace == 0
    {
      this.queue, this.dao, this.files, this.mail := queue, queue.dao, queue.files, mail;
      reservedSpace := 0;
    }

    method ReserveSpace(space: int)
      modifies `reservedSpace
      ensures reservedSpace == ReserveSpaceSpec(old(reservedSpace), space)
    {
      reservedSpace := reservedSpace + space;
    }

    method UnreserveSpace(space: int)
      modifies `reservedSpace
      ensures reservedSpace == UnreserveSpaceSpec(old(reservedSpace), space)
    {
      reservedSpace := reservedSpace - space;
      if reservedSpace < 0 {
        reservedSpace := 0;
      }
    }

    /** `queueUsable` is the usable space of the queue directory's partition, in bytes. */
    method IsThereEnoughFreeSpaceInQueue(settings: Settings, queueUsable: int, size: int) returns (b: bool)
      ensures b == EnoughFreeSpace(FreeSpaceMb(queueUsable), size, reservedSpace, settings.queueMinimumSpaceRemaining)
    {
      b := FreeSpaceMb(queueUsable) - TruncDiv(size, MB) - TruncDiv(reservedSpace, MB) > settings.queueMinimumSpaceRemaining;
    }

    method SendMailNotification(env: Env, recipient: string)
      requires Valid()
      modifies dao`table, mail
      ensures Valid() && State() == SendMailNotificationSpec(old(State()), env.settings.hostUrl, recipient)
    {
      var hostUrl := env.settings.hostUrl;
      ghost var s0 := State();
      var videos := AllPendingVideosForUser(dao.table, recipient);
      if |videos| == 1 {
        mail.SendMail(SINGLE_SUBJECT, SingleBody(hostUrl, videos[0]), true, recipient);
      } else {
        var msg := BatchBody(hostUrl, videos);
        mail.SendMail(BATCH_SUBJECT, msg, true, recipient);
      }
      assert State() == s0.(sent := s0.sent + [NotificationMail(hostUrl, recipient, videos)]);
      dao.SetVideosReady(recipient);
    }

    /** The batch form's body, built item by item as the list of pending videos is walked. */
    method BatchBody(hostUrl: string, videos: seq<Video>) returns (msg: string)
      ensures msg == BATCH_HEAD + LinkItems(hostUrl, videos) + BATCH_TAIL
    {
      msg := BATCH_HEAD;
      var i := 0;
      while i < |videos|
        invariant 0 <= i <= |videos|
        invariant msg == BATCH_HEAD + LinkItems(hostUrl, videos[..i])
      {
        ghost var items := LinkItems(hostUrl, videos[..i]);
        var item := LinkItem(hostUrl, videos[i]);
        assert videos[..i + 1][..i] == videos[..i];
        assert LinkItems(hostUrl, videos[..i + 1]) == items + item;
        SeqAssoc(BATCH_HEAD, items, item);
        msg := msg + item;
        i := i + 1;
      }
      assert videos[..i] == videos;
      msg := msg + BATCH_TAIL;
    }

    method SendMailToUserIfNeeded(env: Env, id: VideoId, email: string) returns (o: Outcome<Exception>)
      requires Valid()
      modifies dao`table, mail
      ensures Valid() && (o, State()) == SendMailToUserIfNeededSpec(old(State()), env, id, email)
    {
      if QueueSizeForEmail(dao.table, email) == 0 {
        SendMailNotification(env, email);
        o := Pass;
      } else {
        o := dao.SetVideoMailPending(id, env.now);
      }
    }

    method FailJob(env: Env, id: VideoId) returns (o: Outcome<Exception>)
      requires Valid()
      modifies dao`table, mail
      ensures Valid() && (o, State()) == FailJobSpec(old(State()), env, id)
    {
      var r := dao.SetVideoError(id, env.now);
      if r.Failure? {
        return Fail(r.error);
      }
      NotifyFailure(env, r.value);
      o := Pass;
    }

    method NotifyFailure(env: Env, video: Video)
      requires Valid()
      modifies dao`table, mail
      ensures Valid() && State() == NotifyFailureSpec(old(State()), env, video)
    {
      if IsBlank(video.email) {
        return;
      }
      var m := FailureMail(video);
      mail.SendMail(m.subject, m.body, m.isHtml, m.to);
      if AllPendingVideosForUser(dao.table, video.email) != [] {
        SendMailNotification(env, video.email);
      }
    }

    /** `id` is the key the store generates for the new record. */
    method PrepareVideoForQueue(env: Env, id: VideoId, name: string, size: int, email: string, origin: string,
                                originId: Option<VideoId>, received: Option<int>) returns (r: Result<Video, Exception>)
      requires Valid() && id !in dao.table.rows
      modifies this, dao`table, files`queueFiles
      ensures Valid()
      ensures (r, State()) == PrepareVideoForQueueSpec(old(State()), env, id, name, size, email, origin, originId, received)
    {
      ghost var s0 := State();
      var video := dao.CreateVideo(id, name, size, email, origin, originId, env.now);
      ghost var (v1, t1) := NewRecord(s0.q.videos, id, name, size, email, origin, originId, env.now);
      assert video == v1 && State() == WithVideos(s0, t1);
      ReserveSpace(size);
      var saved := files.SaveVideoToQueue(video.id, received);
      if saved.Success? {
        var _ := dao.SetVideoUploaded(video.id, saved.value, env.now);
      }
      UnreserveSpace(size);
      r := if saved.Success? then Success(video) else Failure(saved.error);
    }

    method AddToQueue(env: Env, queueUsable: int, id: VideoId, name: string, size: int, email: string,
                      received: Option<int>) returns (o: Outcome<Exception>)
      requires Valid() && id !in dao.table.rows
      modifies this, queue, dao`table, queue.workerDao, files`queueFiles
      ensures Valid() && (o, State()) == AddLocalVideoSpec(old(State()), env, queueUsable, id, name, size, email, received)
    {
      var enough := IsThereEnoughFreeSpaceInQueue(env.settings, queueUsable, size);
      if !enough {
        return Fail(Http(NotEnoughSpace));
      }
      var v := PrepareVideoForQueue(env, id, name, size, email, NODE_LOCAL, None, received);
      if v.Failure? {
        return Fail(v.error);
      }
      o := queue.AddToQueue(env, Job(v.value.id, LOCAL, NotifyOwner(v.value.email)), false);
    }

    method AddVideoFromMaster(env: Env, queueUsable: int, id: VideoId, originId: VideoId, name: string, size: int,
                              origin: string, returnUrl: string, received: Option<int>) returns (o: Outcome<Exception>)
      requires Valid() && id !in dao.table.rows
      modifies this, queue, dao`table, queue.workerDao, files`queueFiles
      ensures Valid()
      ensures (o, State()) == AddVideoFromMasterSpec(old(State()), env, queueUsable, id, originId, name, size, origin, returnUrl, received)
    {
      var enough := IsThereEnoughFreeSpaceInQueue(env.settings, queueUsable, size);
      if !enough {
        return Fail(Http(NotEnoughSpace));
      }
      var v := PrepareVideoForQueue(env, id, name, size, "", origin, Some(originId), received);
      if v.Failure? {
        return Fail(v.error);
      }
      o := queue.AddToQueue(env, Job(id, REMOTE, ReturnToMaster(originId, returnUrl)), false);
    }

    method AcceptProcessedVideo(env: Env, id: VideoId, received: Option<int>) returns (o: Outcome<Exception>)
      requires Valid()
      modifies queue, dao`table, dao`progressCache, queue.workerDao, files`queueFiles, files`resultFiles, mail
      ensures Valid() && (o, State()) == AcceptProcessedVideoSpec(old(State()), env, id, received)
    {
      var video := FindById(dao.table, id);
      if video.None? {
        return Fail(Http(EntityNotFound("Video with id " + id + " not found.")));
      }
      var saved := files.SaveVideoToResults(id, received);
      if saved.Failure? {
        return Fail(saved.error);
      }
      o := StoreResult(env, id, saved.value, video.value.email);
      if o.Fail? {
        return;
      }
      MoveQueueOn(env);
    }

    /** The queue moves on to its next job; an exception of that step is swallowed. */
    method MoveQueueOn(env: Env)
      requires Valid()
      modifies queue, dao`table, queue.workerDao, files`queueFiles
      ensures Valid() && State() == old(State()).(q := NextJobSpec(old(State()).q, env, false).1)
    {
      var _ := queue.NextJob(env, false);
    }

    method StoreResult(env: Env, id: VideoId, size: int, email: string) returns (o: Outcome<Exception>)
      requires Valid()
      modifies dao`table, dao`progressCache, files`queueFiles, mail
      ensures Valid() && (o, State()) == StoreResultSpec(old(State()), env, id, size, email)
    {
      o := dao.SetVideoProcessed(id, size, env.now);
      if o.Fail? {
        return;
      }
      files.DeleteQueueVideo(id);
      o := SendMailToUserIfNeeded(env, id, email);
    }

    method ReassignVideo(env: Env, v: Video) returns (o: Outcome<Exception>)
      requires Valid()
      modifies queue, dao`table, queue.workerDao, files`queueFiles
      ensures Valid() && (o, State()) == ReassignVideoSpec(old(State()), env, v)
    {
      o := queue.AddToQueue(env, ReassignedJob(v), true);
    }

    method ReassignWorkFromDeadNode(env: Env, node: string) returns (o: Outcome<Exception>)
      requires Valid()
      modifies queue, dao`table, queue.workerDao, files`queueFiles
      ensures Valid() && (o, State()) == ReassignWorkFromDeadNodeSpec(old(State()), env, node)
    {
      var vs := VideosProcessingOnNode(dao.table, node);
      ghost var spec := ReassignAll(State(), env, vs);
      var i := 0;
      o := Pass;
      while i < |vs| && o.Pass?
        invariant 0 <= i <= |vs| && Valid()
        invariant spec == if o.Fail? then (o, State()) else ReassignAll(State(), env, vs[i..])
      {
        assert vs[i..][1..] == vs[i + 1..];
        o := ReassignVideo(env, vs[i]);
        i := i + 1;
      }
    }

    method DownloadVideo(env: Env, v: Video) returns (o: Outcome<Exception>)
      requires Valid()
      modifies dao`table
      ensures Valid() && (o, State()) == DownloadVideoSpec(old(State()), env, v)
    {
      if v.status != READY && v.status != DOWNLOADED {
        return Fail(Http(InvalidStatus("Video not available: currently " + StatusName(v.status))));
      }
      dao.SetVideoDownloaded(v, env.now);
      o := Pass;
    }

    /** A worker that cannot be asked counts as full, so the search goes on to the next one. */
    method IsQueueFull(env: Env, queueUsable: int, requestOrigin: string, size: int) returns (full: bool)
      ensures full == IsQueueFullSpec(State(), env, queueUsable, requestOrigin, size)
    {
      var enough := IsThereEnoughFreeSpaceInQueue(env.settings, queueUsable, size);
      var n := queue.GetQueueSize();
      if enough && n < env.settings.maxQueueSize {
        return false;
      }
      var myMasterKey := env.settings.myMasterKey;
      if requestOrigin == "" && myMasterKey.None? {
        return true;
      }
      var originKey := if requestOrigin == "" then myMasterKey.value else requestOrigin;
      var workers := env.settings.availableWorkers;
      var i := 0;
      while i < |workers|
        invariant 0 <= i <= |workers|
        invariant forall j :: 0 <= j < i ==> WorkerGateway.IsQueueFull(env.replies, workers[j].0, originKey)
      {
        if !WorkerGateway.IsQueueFull(env.replies, workers[i].0, originKey) {
          return false;
        }
        i := i + 1;
      }
      full := true;
    }

    /** The job's finalizer; it runs on its own executor, so whatever it throws is dropped there. */
    method Finalize(env: Env, job: Job, resultLength: int)
      requires Valid()
      modifies dao`table, dao`progressCache, files`queueFiles, files`resultFiles, mail
      ensures Valid() && State() == FinalizeSpec(old(State()), env, job, resultLength)
    {
      if job.finalizedBy.NotifyOwner? {
        FinalizeForOwner(env, job, resultLength);
      } else {
        FinalizeForMaster(env, job);
      }
    }

    method FinalizeForOwner(env: Env, job: Job, resultLength: int)
      requires Valid() && job.finalizedBy.NotifyOwner?
      modifies dao`table, dao`progressCache, files`queueFiles, mail
      ensures Valid() && State() == FinalizeSpec(old(State()), env, job, resultLength)
    {
      var id := job.videoId;
      var o := dao.SetVideoProcessed(id, resultLength, env.now);
      if o.Pass? {
        files.DeleteQueueVideo(id);
        var _ := SendMailToUserIfNeeded(env, id, job.finalizedBy.email);
      }
    }

    method FinalizeForMaster(env: Env, job: Job)
      requires Valid() && job.finalizedBy.ReturnToMaster?
      modifies dao`table, files`queueFiles, files`resultFiles, mail
      ensures Valid() && forall len :: State() == FinalizeSpec(old(State()), env, job, len)
    {
      var id := job.videoId;
      var sent := SendResultToMaster(env.replies, job.finalizedBy.originId);
      if sent.Fail? {
        var _ := FailJob(env, id);
        return;
      }
      files.DeleteQueueVideo(id);
      files.DeleteResultVideo(id);
      var o := dao.SetVideoDeletedById(id, env.now);
      if o.Fail? {
        var _ := FailJob(env, id);
      }
    }

    /**
     * The encode run of the `k`-th started job; `encoded` is the length of the result the encoder
     * writes, None when the encode threw.
     */
    method RunLocalJob(env: Env, k: nat, encoded: Option<int>)
      requires Valid() && k < |queue.running|
      modifies queue, dao`table, dao`progressCache, queue.workerDao, files`queueFiles, files`resultFiles, mail
      ensures Valid() && State() == RunLocalJobSpec(old(State()), env, k, encoded)
    {
      var o := RunEncode(env, k, encoded);
      EndLocalJob(env, k, o);
    }

    method EndLocalJob(env: Env, k: nat, o: Outcome<Exception>)
      requires Valid() && k < |queue.running|
      modifies queue, dao`table, queue.workerDao, files`queueFiles
      ensures Valid() && State() == EndLocalJobSpec(old(State()), env, k, o)
    {
      if o.Fail? {
        queue.AbandonLocalJob(k);
      } else {
        var _ := queue.CompleteLocalJob(env, k);
      }
    }

    /** The run up to the end of its `try`/`catch`: an exception of the catch leaves it (the outcome). */
    method RunEncode(env: Env, k: nat, encoded: Option<int>) returns (o: Outcome<Exception>)
      requires Valid() && k < |queue.running|
      modifies dao`table, dao`progressCache, files`queueFiles, files`resultFiles, mail
      ensures Valid() && (o, State()) == FinalizeOrFail(old(State()), env, k, encoded)
    {
      var job := queue.running[k];
      var o1 := queue.BeginLocalJob(env, k);
      o := Pass;
      if o1.Pass? && encoded.Some? {
        var _ := files.SaveVideoToResults(job.videoId, encoded);
        Finalize(env, job, encoded.value);
      } else {
        o := FailJob(env, job.videoId);
      }
    }
  }
}
