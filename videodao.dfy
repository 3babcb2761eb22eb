/**
 * The job-record store's data-access object (dao/VideoDao.kt): the status sets, record creation,
 * the per-record setters, the progress cache and the status, owner, age and node queries.
 */
module VideoDao {
  import opened Wrappers
  import opened HttpExceptions
  import opened Model
  import opened Repositories

  /** Statuses of a record whose job is not finished yet. */
  const IN_QUEUE_STATES: set<VideoStatus> := {UPLOADING, UPLOADED, IN_QUEUE, PROCESSING}
  /** Statuses that should be left quickly. */
  const TRANSITIVE_STATES: set<VideoStatus> := {UPLOADED, PROCESSED}
  /** Statuses after which nothing happens to a record any more (ERROR is one of them, deliberately). */
  const FINAL_STATES: set<VideoStatus> := {REJECTED, DELETED, DELETED_WITHOUT_DOWNLOADING, ERROR}
  /** Statuses of a processed record whose owner has not been notified yet. */
  const PENDING_STATES: set<VideoStatus> := {EMAIL_PENDING, PROCESSED}
  /** The node name of this instance. */
  const NODE_LOCAL: string := "localhost"

  /** The change a setter applies to a record (besides the audit time stamped by the save). */
  datatype Change =
    | SetStatus(status: VideoStatus)
    | Uploaded(originalSize: int)
    | Processing(node: string)
    | Processed(compressedSize: int)

  function Apply(v: Video, c: Change): (w: Video)
    ensures w.id == v.id && w.name == v.name && w.email == v.email && w.origin == v.origin && w.originId == v.originId
  {
    match c
    case SetStatus(s) => v.(status := s)
    case Uploaded(size) => v.(originalSize := size, status := UPLOADED)
    case Processing(node) => v.(status := PROCESSING, node := node)
    case Processed(size) => v.(compressedSize := size, status := PROCESSED)
  }

  /** The status a change leaves. */
  function StatusAfter(v: Video, c: Change): VideoStatus {
    match c
    case SetStatus(s) => s
    case Uploaded(_) => UPLOADED
    case Processing(_) => PROCESSING
    case Processed(_) => PROCESSED
  }

  /** `t2` is `t` with only the record `id` replaced by `v` stamped at `now`. */
  ghost predicate OnlyRecordChanged(t: VideoTable, t2: VideoTable, id: VideoId, v: Video, now: int)
    requires id in t.rows
  {
    t2.Valid() && t2.order == t.order && t2.rows.Keys == t.rows.Keys
    && t2.rows[id] == v.(updatedAt := now)
    && forall k :: k in t.rows && k != id ==> t2.rows[k] == t.rows[k]
  }

  /**
   * A setter by id: look the record up (a missing id throws InternalServerError and changes nothing),
   * apply the change, save.
   */
  function SetById(t: VideoTable, id: VideoId, c: Change, now: int): (r: (Outcome<Exception>, VideoTable))
    requires t.Valid()
    ensures r.1.Valid()
    ensures r.0.Fail? <==> id !in t.rows
    ensures r.0.Fail? ==> r.0.error == Http(InternalServerError) && r.1 == t
    ensures r.0.Pass? ==> OnlyRecordChanged(t, r.1, id, Apply(t.rows[id], c), now)
    ensures r.0.Pass? ==> r.1.rows[id].status == StatusAfter(t.rows[id], c)
  {
    if id !in t.rows then (Fail(Http(InternalServerError)), t)
    else (Pass, Save(t, Apply(t.rows[id], c), now))
  }

  /** The status setter that takes an entity: the (possibly stale) entity is written back whole. */
  function SetEntityStatus(t: VideoTable, v: Video, s: VideoStatus, now: int): (r: VideoTable)
    requires t.Valid()
    ensures r.Valid()
    ensures v.id in r.rows && r.rows[v.id] == v.(status := s, updatedAt := now, createdAt := r.rows[v.id].createdAt)
    ensures forall k :: k in t.rows && k != v.id ==> k in r.rows && r.rows[k] == t.rows[k]
    ensures v.id in t.rows ==> r.order == t.order && r.rows.Keys == t.rows.Keys
  {
    Save(t, v.(status := s), now)
  }

  /** The record `createVideo` stores: a new record for a freshly generated id. */
  function NewRecord(t: VideoTable, id: VideoId, name: string, size: int, email: string, origin: string,
                       originId: Option<VideoId>, now: int): (r: (Video, VideoTable))
    requires t.Valid() && id !in t.rows
    ensures r.1.Valid() && r.1.order == t.order + [id] && r.1.rows.Keys == t.rows.Keys + {id}
    ensures forall k :: k in t.rows ==> r.1.rows[k] == t.rows[k]
    ensures r.0 == r.1.rows[id] && r.0.id == id
    ensures r.0.name == name && r.0.email == email && r.0.originalSize == size && r.0.origin == origin && r.0.originId == originId
    ensures r.0.status == UPLOADING && r.0.node == NODE_LOCAL
    ensures r.0.compressedSize == 0 && r.0.transcodingProgress == 0 && r.0.transcodingSpeed == 0.0
    ensures r.0.createdAt == now && r.0.updatedAt == now
  {
    var v := Video(id, name, email, size, 0, 0, 0.0, UPLOADING, NODE_LOCAL, origin, originId, now, now);
    var t2 := Save(t, v, now);
    (t2.rows[id], t2)
  }

  /** `updateVideoProgress` on the store and the cache. */
  function ProgressUpdate(t: VideoTable, cache: map<VideoId, int>, id: VideoId, progress: int, speed: real, now: int)
    : (r: (VideoTable, map<VideoId, int>))
    requires t.Valid()
    ensures r.0.Valid()
    ensures id in cache && cache[id] == progress ==> r == (t, cache)
    ensures id !in t.rows ==> r == (t, cache)
    ensures !(id in cache && cache[id] == progress) && id in t.rows ==>
      OnlyRecordChanged(t, r.0, id, t.rows[id].(transcodingProgress := progress, transcodingSpeed := speed), now)
      && r.1 == cache[id := progress]
  {
    if id in cache && cache[id] == progress then (t, cache)
    else if id in t.rows then
      (Save(t, t.rows[id].(transcodingProgress := progress, transcodingSpeed := speed), now), cache[id := progress])
    else (t, cache)
  }

  /** A repeated progress report changes nothing: the cache suppresses the duplicate write. */
  lemma ProgressUpdateIdempotent(t: VideoTable, cache: map<VideoId, int>, id: VideoId, progress: int, speed: real, now: int, later: int)
    requires t.Valid()
    ensures var (t1, c1) := ProgressUpdate(t, cache, id, progress, speed, now);
            ProgressUpdate(t1, c1, id, progress, speed, later) == (t1, c1)
  {
  }

  /**
   * Marking a record processed forgets its cached progress, so a report of the progress that was
   * cached before is written to the record again.
   */
  lemma ProgressWrittenAgainAfterProcessed(t: VideoTable, cache: map<VideoId, int>, id: VideoId, size: int,
                                           speed: real, now: int, later: int)
    requires t.Valid() && id in t.rows && id in cache
    ensures var (o, t1) := SetById(t, id, Processed(size), now);
            var c1 := cache - {id};
            var (t2, c2) := ProgressUpdate(t1, c1, id, cache[id], speed, later);
            t2.rows[id].transcodingProgress == cache[id] && t2.rows[id].updatedAt == later && c2 == cache
  {
    var (o, t1) := SetById(t, id, Processed(size), now);
    assert id in t1.rows;
  }

  // ---- queries ----

  /** `getQueueSize`: records whose job is not finished. */
  function QueueSize(t: VideoTable): (n: nat)
    requires t.Valid()
    ensures n == |set id | id in t.rows && t.rows[id].status in IN_QUEUE_STATES|
  {
    CountAllByStatusIn(t, IN_QUEUE_STATES)
  }

  /** `getQueueSizeForEmail`: unfinished records of that owner. */
  function QueueSizeForEmail(t: VideoTable, email: string): (n: nat)
    requires t.Valid()
    ensures n == |set id | id in t.rows && t.rows[id].status in IN_QUEUE_STATES && t.rows[id].email == email|
  {
    CountAllByStatusInAndEmailEquals(t, IN_QUEUE_STATES, email)
  }

  /** No unfinished record of an owner exactly when the owner's in-queue count is zero. */
  lemma QueueSizeForEmailZero(t: VideoTable, email: string)
    requires t.Valid()
    ensures QueueSizeForEmail(t, email) == 0 <==>
      forall id :: id in t.rows && t.rows[id].email == email ==> t.rows[id].status !in IN_QUEUE_STATES
  {
    var s := set id | id in t.rows && t.rows[id].status in IN_QUEUE_STATES && t.rows[id].email == email;
    if QueueSizeForEmail(t, email) != 0 {
      assert |s| != 0;
      var id :| id in s;
    }
  }

  /** `getAllPendingVideosForUser`: processed records of that owner awaiting notification. */
  function AllPendingVideosForUser(t: VideoTable, email: string): (r: seq<Video>)
    requires t.Valid()
    ensures forall v :: v in r <==> v.id in t.rows && t.rows[v.id] == v && v.email == email && (v.status == EMAIL_PENDING || v.status == PROCESSED)
  {
    FindAllByStatusInAndEmailEquals(t, PENDING_STATES, email)
  }

  /** `getAllVideosForUser`: records of that owner not in a final status. */
  function AllVideosForUser(t: VideoTable, email: string): (r: seq<Video>)
    requires t.Valid()
    ensures forall v :: v in r <==> (v.id in t.rows && t.rows[v.id] == v && v.email == email
                                     && v.status !in {REJECTED, DELETED, DELETED_WITHOUT_DOWNLOADING, ERROR})
  {
    FindAllByStatusNotInAndEmailEquals(t, FINAL_STATES, email)
  }

  /** `getVideoByOriginId`. */
  function VideoByOriginId(t: VideoTable, originId: VideoId): (r: Result<Option<Video>, string>)
    requires t.Valid()
    ensures r.Success? && r.value.Some? ==> r.value.value in t.rows.Values && r.value.value.originId == Some(originId)
    ensures r == Success(None) <==> WithOriginId(t, originId) == {}
  {
    FindByOriginId(t, originId)
  }

  /** `getOldDownloadedVideos`: downloaded records last saved more than `claimedMinutes` ago. */
  function OldDownloadedVideos(t: VideoTable, now: int, claimedMinutes: int): (r: seq<Video>)
    requires t.Valid()
    ensures forall v :: v in r <==> v.id in t.rows && t.rows[v.id] == v && v.status == DOWNLOADED && v.updatedAt < now - claimedMinutes
  {
    FindAllByStatusEqualsAndUpdatedAtBefore(t, DOWNLOADED, now - claimedMinutes)
  }

  /** `getOldUndownloadedVideos`: ready records last saved more than `unclaimedMinutes` ago. */
  function OldUndownloadedVideos(t: VideoTable, now: int, unclaimedMinutes: int): (r: seq<Video>)
    requires t.Valid()
    ensures forall v :: v in r <==> v.id in t.rows && t.rows[v.id] == v && v.status == READY && v.updatedAt < now - unclaimedMinutes
  {
    FindAllByStatusEqualsAndUpdatedAtBefore(t, READY, now - unclaimedMinutes)
  }

  /** `getOldErrorZombieVideos`: failed records last saved more than `zombieMinutes` ago. */
  function OldErrorZombieVideos(t: VideoTable, now: int, zombieMinutes: int): (r: seq<Video>)
    requires t.Valid()
    ensures forall v :: v in r <==> v.id in t.rows && t.rows[v.id] == v && v.status == ERROR && v.updatedAt < now - zombieMinutes
  {
    FindAllByStatusEqualsAndUpdatedAtBefore(t, ERROR, now - zombieMinutes)
  }

  /** `getOldTransitiveStatusZombieVideos`: UPLOADED or PROCESSED records last saved more than `transitiveMinutes` ago. */
  function OldTransitiveStatusZombieVideos(t: VideoTable, now: int, transitiveMinutes: int): (r: seq<Video>)
    requires t.Valid()
    ensures forall v :: v in r <==> (v.id in t.rows && t.rows[v.id] == v && (v.status == UPLOADED || v.status == PROCESSED)
                                     && v.updatedAt < now - transitiveMinutes)
  {
    FindAllByStatusInAndUpdatedAtBefore(t, TRANSITIVE_STATES, now - transitiveMinutes)
  }

  /** `getStaleVideos`: records not in a final status last saved more than `staleMinutes` ago. */
  function StaleVideos(t: VideoTable, now: int, staleMinutes: int): (r: seq<Video>)
    requires t.Valid()
    ensures forall v :: v in r <==> v.id in t.rows && t.rows[v.id] == v && v.status !in FINAL_STATES && v.updatedAt < now - staleMinutes
  {
    FindAllByStatusNotInAndUpdatedAtBefore(t, FINAL_STATES, now - staleMinutes)
  }

  /** `getVideosProcessingOnNode`. */
  function VideosProcessingOnNode(t: VideoTable, node: string): (r: seq<Video>)
    requires t.Valid()
    ensures forall v :: v in r <==> v.id in t.rows && t.rows[v.id] == v && v.status == PROCESSING && v.node == node
  {
    FindAllByStatusEqualsAndNodeEquals(t, PROCESSING, node)
  }

  /** `getVideosProcessingOnWorkers`: records processing anywhere but on this node. */
  function VideosProcessingOnWorkers(t: VideoTable): (r: seq<Video>)
    requires t.Valid()
    ensures forall v :: v in r <==> v.id in t.rows && t.rows[v.id] == v && v.status == PROCESSING && v.node != NODE_LOCAL
  {
    FindAllByStatusEqualsAndNodeNot(t, PROCESSING, NODE_LOCAL)
  }

  /** The ids of a list of records. */
  function IdsOf(vs: seq<Video>): (ids: set<VideoId>)
    ensures forall v :: v in vs ==> v.id in ids
    ensures forall k :: k in ids ==> exists v :: v in vs && v.id == k
  {
    set v | v in vs :: v.id
  }

  /** The store's data-access object: the table of records and the progress cache. */
  class VideoDao {
    var table: VideoTable
    var progressCache: map<VideoId, int>

    ghost predicate Valid()
      reads this
    {
      table.Valid()
    }

    constructor ()
      ensures Valid() && table == EmptyTable && progressCache == map[]
    {
      table := EmptyTable;
      progressCache := map[];
    }

    method CreateVideo(id: VideoId, name: string, size: int, email: string, origin: string, originId: Option<VideoId>, now: int)
      returns (video: Video)
      requires Valid() && id !in table.rows
      modifies `table
      ensures Valid()
      ensures (video, table) == NewRecord(old(table), id, name, size, email, origin, originId, now)
    {
      var r := NewRecord(table, id, name, size, email, origin, originId, now);
      video, table := r.0, r.1;
    }

    /** The shared body of the setters by id. */
    method Set(id: VideoId, c: Change, now: int) returns (o: Outcome<Exception>)
      requires Valid()
      modifies `table
      ensures Valid()
      ensures (o, table) == SetById(old(table), id, c, now)
    {
      var r := SetById(table, id, c, now);
      o, table := r.0, r.1;
    }

    method SetVideoUploaded(id: VideoId, size: int, now: int) returns (o: Outcome<Exception>)
      requires Valid()
      modifies `table
      ensures Valid() && (o, table) == SetById(old(table), id, Uploaded(size), now)
    {
      o := Set(id, Uploaded(size), now);
    }

    method SetVideoInQueue(id: VideoId, now: int) returns (o: Outcome<Exception>)
      requires Valid()
      modifies `table
      ensures Valid() && (o, table) == SetById(old(table), id, SetStatus(IN_QUEUE), now)
    {
      o := Set(id, SetStatus(IN_QUEUE), now);
    }

    method SetVideoProcessing(id: VideoId, node: string, now: int) returns (o: Outcome<Exception>)
      requires Valid()
      modifies `table
      ensures Valid() && (o, table) == SetById(old(table), id, Processing(node), now)
    {
      o := Set(id, Processing(node), now);
    }

    method UpdateVideoProgress(id: VideoId, progress: int, speed: real, now: int)
      requires Valid()
      modifies `table, `progressCache
      ensures Valid() && (table, progressCache) == ProgressUpdate(old(table), old(progressCache), id, progress, speed, now)
    {
      if id in progressCache && progressCache[id] == progress {
        return;
      }
      match FindById(table, id)
      case Some(v) =>
        table := Save(table, v.(transcodingProgress := progress, transcodingSpeed := speed), now);
        progressCache := progressCache[id := progress];
      case None =>
    }

    /** `setVideoProcessed`: also forgets the cached progress of the record. */
    method SetVideoProcessed(id: VideoId, compressedSize: int, now: int) returns (o: Outcome<Exception>)
      requires Valid()
      modifies `table, `progressCache
      ensures Valid() && (o, table) == SetById(old(table), id, Processed(compressedSize), now)
      ensures o.Pass? ==> progressCache == old(progressCache) - {id}
      ensures o.Fail? ==> progressCache == old(progressCache)
    {
      o := Set(id, Processed(compressedSize), now);
      if o.Pass? {
        progressCache := progressCache - {id};
      }
    }

    method SetVideoMailPending(id: VideoId, now: int) returns (o: Outcome<Exception>)
      requires Valid()
      modifies `table
      ensures Valid() && (o, table) == SetById(old(table), id, SetStatus(EMAIL_PENDING), now)
    {
      o := Set(id, SetStatus(EMAIL_PENDING), now);
    }

    method SetVideoReady(id: VideoId, now: int) returns (o: Outcome<Exception>)
      requires Valid()
      modifies `table
      ensures Valid() && (o, table) == SetById(old(table), id, SetStatus(READY), now)
    {
      o := Set(id, SetStatus(READY), now);
    }

    /** `setVideosReady`: the bulk update (it stamps no audit time). */
    method SetVideosReady(email: string)
      requires Valid()
      modifies `table
      ensures Valid() && table == SetVideosReadyForUser(old(table), email)
    {
      table := SetVideosReadyForUser(table, email);
    }

    method SetVideoDownloaded(v: Video, now: int)
      requires Valid()
      modifies `table
      ensures Valid() && table == SetEntityStatus(old(table), v, DOWNLOADED, now)
    {
      table := SetEntityStatus(table, v, DOWNLOADED, now);
    }

    method SetVideoDeletedById(id: VideoId, now: int) returns (o: Outcome<Exception>)
      requires Valid()
      modifies `table
      ensures Valid() && (o, table) == SetById(old(table), id, SetStatus(DELETED), now)
    {
      o := Set(id, SetStatus(DELETED), now);
    }

    method SetVideoDeleted(v: Video, now: int)
      requires Valid()
      modifies `table
      ensures Valid() && table == SetEntityStatus(old(table), v, DELETED, now)
    {
      table := SetEntityStatus(table, v, DELETED, now);
    }

    method SetVideoDeletedWithoutDownloading(v: Video, now: int)
      requires Valid()
      modifies `table
      ensures Valid() && table == SetEntityStatus(old(table), v, DELETED_WITHOUT_DOWNLOADING, now)
    {
      table := SetEntityStatus(table, v, DELETED_WITHOUT_DOWNLOADING, now);
    }

    /** `setVideoError`: returns the saved record, which the failure handling reads. */
    method SetVideoError(id: VideoId, now: int) returns (r: Result<Video, Exception>)
      requires Valid()
      modifies `table
      ensures Valid()
      ensures r.Failure? ==> (Fail(r.error), table) == SetById(old(table), id, SetStatus(ERROR), now)
      ensures r.Success? ==> (Pass, table) == SetById(old(table), id, SetStatus(ERROR), now) && r.value == table.rows[id]
    {
      var o := Set(id, SetStatus(ERROR), now);
      if o.Fail? {
        return Failure(o.error);
      }
      r := Success(table.rows[id]);
    }

    method SetVideoRejected(id: VideoId, now: int) returns (o: Outcome<Exception>)
      requires Valid()
      modifies `table
      ensures Valid() && (o, table) == SetById(old(table), id, SetStatus(REJECTED), now)
    {
      o := Set(id, SetStatus(REJECTED), now);
    }
  }
}
