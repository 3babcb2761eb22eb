/**
 * The older admission path (service/VideoCrudService.kt): an upload is admitted when the queue
 * partition keeps enough free space and the store holds fewer unfinished records than the queue
 * size; it is recorded, copied into the queue directory under its own name and encoded in the
 * background, after which its owner is mailed a download link and the record becomes READY.
 * `getVideo` serves only READY or DOWNLOADED records.
 */
module VideoCrudService {
  import opened Wrappers
  import opened HttpExceptions
  import opened Model
  import opened Repositories
  import opened VideoDao
  import opened EnvironmentProperties
  import opened Utils
  import opened FileService
  import opened SendGridGateway

  /** The store, the names of the files in the queue directory, and the mails handed to the gateway. */
  datatype CrudState = CrudState(videos: VideoTable, queueDir: set<string>, sent: seq<Mail>)

  // ---- admission ----

  /** The two checks of `addToQueue`, space first. */
  function AdmissionCheck(t: VideoTable, settings: Settings, queueUsable: int, size: int): (o: Outcome<Exception>)
    requires t.Valid()
  {
    if FreeSpaceMb(queueUsable) - TruncDiv(size, MB) <= settings.freeSpaceThresholdMb then Fail(Http(NotEnoughSpace))
    else if QueueSize(t) >= settings.maxQueueSize then Fail(Http(QueueFull))
    else Pass
  }

  /**
   * `addToQueue`: after the checks the record is created (UPLOADING, on this node) under the id the
   * store generates, the upload is copied to a file of its name in the queue directory (the file
   * exists once opened, even when the copy throws) and the record is set UPLOADED. A copy that
   * throws leaves the created record, since the transaction is not rolled back for an IOException.
   * `copied` says whether the copy went through.
   */
  function AddToQueueSpec(s: CrudState, settings: Settings, queueUsable: int, id: VideoId, name: string,
                          size: int, email: string, now: int, copied: bool): (r: (Outcome<Exception>, CrudState))
    requires s.videos.Valid() && id !in s.videos.rows
    ensures r.1.videos.Valid() && r.1.sent == s.sent
  {
    var check := AdmissionCheck(s.videos, settings, queueUsable, size);
    if check.Fail? then (check, s)
    else
      var (v, t) := NewRecord(s.videos, id, name, size, email, NODE_LOCAL, None, now);
      var dir := s.queueDir + {name};
      if !copied then (Fail(IOError), s.(videos := t, queueDir := dir))
      else (Pass, s.(videos := SetById(t, id, Uploaded(size), now).1, queueDir := dir))
  }

  /** Without the space, NotEnoughSpace is thrown whatever the queue holds, and nothing changes. */
  lemma NoSpaceRejected(s: CrudState, settings: Settings, queueUsable: int, id: VideoId, name: string,
                        size: int, email: string, now: int, copied: bool)
    requires s.videos.Valid() && id !in s.videos.rows
    ensures AddToQueueSpec(s, settings, queueUsable, id, name, size, email, now, copied) == (Fail(Http(NotEnoughSpace)), s)
      <==> FreeSpaceMb(queueUsable) - TruncDiv(size, MB) <= settings.freeSpaceThresholdMb
  {
  }

  /** QueueFull is thrown exactly when the space suffices and the store holds the queue size; nothing changes. */
  lemma FullQueueRejected(s: CrudState, settings: Settings, queueUsable: int, id: VideoId, name: string,
                          size: int, email: string, now: int, copied: bool)
    requires s.videos.Valid() && id !in s.videos.rows
    ensures AddToQueueSpec(s, settings, queueUsable, id, name, size, email, now, copied) == (Fail(Http(QueueFull)), s)
      <==> FreeSpaceMb(queueUsable) - TruncDiv(size, MB) > settings.freeSpaceThresholdMb
           && QueueSize(s.videos) >= settings.maxQueueSize
  {
  }

  /**
   * An admitted upload: a new record with the upload's name, owner and size on this node, UPLOADED
   * when the copy went through and UPLOADING when it threw; its file is in the queue directory and no
   * other record changed.
   */
  lemma AdmittedUploadRecorded(s: CrudState, settings: Settings, queueUsable: int, id: VideoId, name: string,
                               size: int, email: string, now: int, copied: bool)
    requires s.videos.Valid() && id !in s.videos.rows
    requires AdmissionCheck(s.videos, settings, queueUsable, size).Pass?
    ensures var (o, s2) := AddToQueueSpec(s, settings, queueUsable, id, name, size, email, now, copied);
      (o.Pass? <==> copied) && (o.Fail? ==> o.error == IOError)
      && s2.queueDir == s.queueDir + {name} && s2.videos.rows.Keys == s.videos.rows.Keys + {id}
      && (forall k :: k in s.videos.rows ==> s2.videos.rows[k] == s.videos.rows[k])
      && s2.videos.rows[id].name == name && s2.videos.rows[id].email == email
      && s2.videos.rows[id].originalSize == size && s2.videos.rows[id].node == NODE_LOCAL
      && s2.videos.rows[id].status == (if copied then UPLOADED else UPLOADING)
  {
    var (v, t) := NewRecord(s.videos, id, name, size, email, NODE_LOCAL, None, now);
    if copied {
      assert SetById(t, id, Uploaded(size), now).1.rows[id] == Apply(t.rows[id], Uploaded(size)).(updatedAt := now);
    }
  }

  /** The records in an unfinished status: those `getQueueSize` counts. */
  ghost function Unfinished(t: VideoTable): set<VideoId> {
    set k | k in t.rows && t.rows[k].status in IN_QUEUE_STATES
  }

  /** A table that gains one unfinished record and keeps the others gains it in its unfinished set. */
  lemma UnfinishedAddsId(t: VideoTable, t2: VideoTable, id: VideoId)
    requires id !in t.rows
    requires t2.rows.Keys == t.rows.Keys + {id} && t2.rows[id].status in IN_QUEUE_STATES
    requires forall k :: k in t.rows ==> t2.rows[k] == t.rows[k]
    ensures Unfinished(t2) == Unfinished(t) + {id} && id !in Unfinished(t)
  {
    forall k ensures k in Unfinished(t2) <==> k in Unfinished(t) + {id} {
      if k != id && k in t2.rows {
        assert t2.rows[k] == t.rows[k];
      }
    }
  }

  /** ... and so one more record counted by `getQueueSize`. */
  lemma UnfinishedGrows(t: VideoTable, t2: VideoTable, id: VideoId)
    requires t.Valid() && t2.Valid() && id !in t.rows
    requires t2.rows.Keys == t.rows.Keys + {id} && t2.rows[id].status in IN_QUEUE_STATES
    requires forall k :: k in t.rows ==> t2.rows[k] == t.rows[k]
    ensures QueueSize(t2) == QueueSize(t) + 1
  {
    assert QueueSize(t) == |Unfinished(t)| && QueueSize(t2) == |Unfinished(t2)|;
    UnfinishedAddsId(t, t2, id);
  }

  /** An admitted upload adds exactly one unfinished record. */
  lemma AdmissionAddsOne(s: CrudState, settings: Settings, queueUsable: int, id: VideoId, name: string,
                         size: int, email: string, now: int, copied: bool)
    requires s.videos.Valid() && id !in s.videos.rows
    requires AdmissionCheck(s.videos, settings, queueUsable, size).Pass?
    ensures QueueSize(AddToQueueSpec(s, settings, queueUsable, id, name, size, email, now, copied).1.videos) == QueueSize(s.videos) + 1
  {
    var t2 := AddToQueueSpec(s, settings, queueUsable, id, name, size, email, now, copied).1.videos;
    AdmittedUploadRecorded(s, settings, queueUsable, id, name, size, email, now, copied);
    UnfinishedGrows(s.videos, t2, id);
  }

  /** The store never holds more unfinished records than the queue size because of an upload. */
  lemma AdmissionKeepsQueueBound(s: CrudState, settings: Settings, queueUsable: int, id: VideoId, name: string,
                                 size: int, email: string, now: int, copied: bool)
    requires s.videos.Valid() && id !in s.videos.rows
    requires QueueSize(s.videos) <= settings.maxQueueSize
    ensures QueueSize(AddToQueueSpec(s, settings, queueUsable, id, name, size, email, now, copied).1.videos) <= settings.maxQueueSize
  {
    if AdmissionCheck(s.videos, settings, queueUsable, size).Pass? {
      AdmissionAddsOne(s, settings, queueUsable, id, name, size, email, now, copied);
    }
  }

  // ---- completion ----

  const READY_SUBJECT: string := "Kompresovan snimak je spreman!"

  /** The notification `sendMailNotification` sends: the video's name and an HTML link to its download. */
  function ReadyMail(hostUrl: string, id: VideoId, name: string, recipient: string): Mail {
    Mail(READY_SUBJECT, "Tvoj snimak " + name + " je spreman. " + "Možeš ga preuzeti <a href=\"" + BuildDownloadLink(hostUrl, id) + "\">ovde</a>",
         true, recipient)
  }

  /**
   * The background run: the encode, then the notification and READY. An encode that throws
   * (`encoded` false) ends the run with no change; a missing record makes `setVideoReady` throw
   * after the mail went out, which the executor drops.
   */
  function CompleteEncodeSpec(s: CrudState, hostUrl: string, id: VideoId, name: string, email: string, now: int,
                              encoded: bool): (r: CrudState)
    requires s.videos.Valid()
    ensures r.videos.Valid() && r.queueDir == s.queueDir
  {
    if !encoded then s
    else s.(videos := SetById(s.videos, id, SetStatus(READY), now).1, sent := s.sent + [ReadyMail(hostUrl, id, name, email)])
  }

  /** An encoded video's owner gets exactly one mail with its link, and the record, alone, becomes READY. */
  lemma CompletionNotifiesAndReadies(s: CrudState, hostUrl: string, id: VideoId, name: string, email: string, now: int)
    requires s.videos.Valid() && id in s.videos.rows
    ensures var r := CompleteEncodeSpec(s, hostUrl, id, name, email, now, true);
      |r.sent| == |s.sent| + 1 && r.sent[..|s.sent|] == s.sent
      && r.sent[|s.sent|].to == email && r.sent[|s.sent|].isHtml
      && r.videos.rows.Keys == s.videos.rows.Keys && r.videos.rows[id].status == READY
      && forall k :: k in s.videos.rows && k != id ==> r.videos.rows[k] == s.videos.rows[k]
  {
    var r := CompleteEncodeSpec(s, hostUrl, id, name, email, now, true);
    assert r.sent[..|s.sent|] == s.sent;
  }

  /** The mail names the video and carries its download link. */
  lemma ReadyMailCarriesLink(hostUrl: string, id: VideoId, name: string, recipient: string)
    ensures var body := ReadyMail(hostUrl, id, name, recipient).body;
      var link := BuildDownloadLink(hostUrl, id);
      body[12..12 + |name|] == name
      && body[|body| - 10 - |link|..|body| - 10] == link
  {
    var link := BuildDownloadLink(hostUrl, id);
    var body := ReadyMail(hostUrl, id, name, recipient).body;
    var head := "Tvoj snimak " + name + " je spreman. " + "Možeš ga preuzeti <a href=\"";
    assert body == head + link + "\">ovde</a>";
    assert |"\">ovde</a>"| == 10;
    assert body[..|head|] == head;
    assert head[12..12 + |name|] == name;
  }

  // ---- download gate ----

  /**
   * `getVideo`: the file served is the record's name in the result directory; an unknown id throws
   * EntityNotFound and a record in any status but READY or DOWNLOADED throws InvalidStatus naming it.
   */
  function GetVideoSpec(t: VideoTable, id: VideoId): (r: Result<string, Exception>)
    requires t.Valid()
    ensures r.Success? <==> id in t.rows && t.rows[id].status in {READY, DOWNLOADED}
    ensures r.Success? ==> r.value == t.rows[id].name
    ensures id !in t.rows ==> r == Failure(Http(EntityNotFound("Video with id " + id + " not found.")))
    ensures id in t.rows && t.rows[id].status !in {READY, DOWNLOADED} ==>
      r == Failure(Http(InvalidStatus("Video not available: currently " + StatusName(t.rows[id].status))))
  {
    match FindById(t, id)
    case None => Failure(Http(EntityNotFound("Video with id " + id + " not found.")))
    case Some(video) =>
      if video.status != READY && video.status != DOWNLOADED then
        Failure(Http(InvalidStatus("Video not available: currently " + StatusName(video.status))))
      else Success(video.name)
  }

  /**
   * An admitted, copied upload is not served until its background encode has finished, and is served,
   * under its own name, once it has.
   */
  lemma ServedOnlyAfterCompletion(s: CrudState, settings: Settings, queueUsable: int, id: VideoId, name: string,
                                  size: int, email: string, now: int, hostUrl: string, later: int)
    requires s.videos.Valid() && id !in s.videos.rows
    requires AdmissionCheck(s.videos, settings, queueUsable, size).Pass?
    ensures var s1 := AddToQueueSpec(s, settings, queueUsable, id, name, size, email, now, true).1;
      GetVideoSpec(s1.videos, id) == Failure(Http(InvalidStatus("Video not available: currently UPLOADED")))
      && GetVideoSpec(CompleteEncodeSpec(s1, hostUrl, id, name, email, later, true).videos, id) == Success(name)
  {
    var s1 := AddToQueueSpec(s, settings, queueUsable, id, name, size, email, now, true).1;
    AdmittedUploadRecorded(s, settings, queueUsable, id, name, size, email, now, true);
    assert s1.videos.rows[id].status == UPLOADED && s1.videos.rows[id].name == name;
    NotServedWhileUploaded(s1.videos, id);
    ServedWhenReady(s1, hostUrl, id, name, email, later);
  }

  lemma NotServedWhileUploaded(t: VideoTable, id: VideoId)
    requires t.Valid() && id in t.rows && t.rows[id].status == UPLOADED
    ensures GetVideoSpec(t, id) == Failure(Http(InvalidStatus("Video not available: currently UPLOADED")))
  {
    assert "Video not available: currently " + StatusName(t.rows[id].status) == "Video not available: currently UPLOADED";
  }

  lemma ServedWhenReady(s: CrudState, hostUrl: string, id: VideoId, name: string, email: string, now: int)
    requires s.videos.Valid() && id in s.videos.rows
    ensures GetVideoSpec(CompleteEncodeSpec(s, hostUrl, id, name, email, now, true).videos, id) == Success(s.videos.rows[id].name)
  {
    var t2 := CompleteEncodeSpec(s, hostUrl, id, name, email, now, true).videos;
    assert t2.rows[id] == s.videos.rows[id].(status := READY, updatedAt := now);
  }

  class VideoCrudService {
    const dao: VideoDao
    const mail: SendGridGateway
    /** The names of the files in the queue directory. */
    var queueDir: set<string>

    ghost function State(): CrudState
      reads this, dao, mail
    {
      CrudState(dao.table, queueDir, mail.sent)
    }

    ghost predicate Valid()
      reads dao
    {
      dao.Valid()
    }

    constructor (dao: VideoDao, mail: SendGridGateway, queueDir: set<string>)
      requires dao.Valid()
      ensures Valid() && this.dao == dao && this.mail == mail && this.queueDir == queueDir
    {
      this.dao, this.mail, this.queueDir := dao, mail, queueDir;
    }

    /** `id` is the key the store generates for the new record. */
    method AddToQueue(settings: Settings, queueUsable: int, id: VideoId, name: string, size: int, email: string,
                      now: int, copied: bool) returns (o: Outcome<Exception>)
      requires Valid() && id !in dao.table.rows
      modifies this, dao`table
      ensures Valid() && (o, State()) == AddToQueueSpec(old(State()), settings, queueUsable, id, name, size, email, now, copied)
    {
      if FreeSpaceMb(queueUsable) - TruncDiv(size, MB) <= settings.freeSpaceThresholdMb {
        return Fail(Http(NotEnoughSpace));
      }
      if QueueSize(dao.table) >= settings.maxQueueSize {
        return Fail(Http(QueueFull));
      }
      var video := dao.CreateVideo(id, name, size, email, NODE_LOCAL, None, now);
      queueDir := queueDir + {name};
      if !copied {
        return Fail(IOError);
      }
      o := dao.SetVideoUploaded(video.id, size, now);
    }

    /** What the executor runs for an admitted upload; `encoded` says whether the encode returned. */
    method CompleteEncode(hostUrl: string, id: VideoId, name: string, email: string, now: int, encoded: bool)
      requires Valid()
      modifies dao`table, mail
      ensures Valid() && State() == CompleteEncodeSpec(old(State()), hostUrl, id, name, email, now, encoded)
    {
      if encoded {
        SendMailNotification(hostUrl, id, name, email, now);
      }
    }

    method SendMailNotification(hostUrl: string, id: VideoId, name: string, recipient: string, now: int)
      requires Valid()
      modifies dao`table, mail
      ensures Valid() && State() == CompleteEncodeSpec(old(State()), hostUrl, id, name, recipient, now, true)
    {
      var m := ReadyMail(hostUrl, id, name, recipient);
      mail.SendMail(m.subject, m.body, m.isHtml, m.to);
      var _ := dao.SetVideoReady(id, now);
    }

    method GetVideo(id: VideoId) returns (r: Result<string, Exception>)
      requires Valid()
      ensures r == GetVideoSpec(dao.table, id)
    {
      var video := FindById(dao.table, id);
      if video.None? {
        return Failure(Http(EntityNotFound("Video with id " + id + " not found.")));
      }
      if video.value.status != READY && video.value.status != DOWNLOADED {
        return Failure(Http(InvalidStatus("Video not available: currently " + StatusName(video.value.status))));
      }
      r := Success(video.value.name);
    }
  }
}
