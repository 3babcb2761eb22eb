/**
 * The result-directory sweeps (scheduled/FileCleanup.kt): when the result partition runs low, the
 * result files of old downloaded videos (claimed) or of old videos never downloaded (unclaimed) are
 * deleted and their records retired.
 */
module FileCleanup {
  import opened Model
  import opened Repositories
  import opened VideoDao
  import opened FileService
  import opened EnvironmentProperties
  import opened Utils

  /**
   * The loop of either sweep: each listed record (as listed when the sweep started) loses its
   * result file and is written back with status `s`.
   */
  function RetireAll(t: VideoTable, results: set<VideoId>, vs: seq<Video>, s: VideoStatus, now: int): (r: (VideoTable, set<VideoId>))
    requires t.Valid()
    ensures r.0.Valid()
    decreases |vs|
  {
    if vs == [] then (t, results)
    else RetireAll(SetEntityStatus(t, vs[0], s, now), results - {vs[0].id}, vs[1..], s, now)
  }

  /** The record `v` as the sweep writes it back. */
  function Retired(v: Video, s: VideoStatus, now: int): (w: Video)
    ensures w.id == v.id && w.status == s && w.updatedAt == now
  {
    v.(status := s, updatedAt := now)
  }

  /** Each listed record is stored, and agrees with the stored one except perhaps in status and save time. */
  predicate Listed(t: VideoTable, vs: seq<Video>, s: VideoStatus, now: int) {
    forall i :: 0 <= i < |vs| ==> vs[i].id in t.rows && Retired(t.rows[vs[i].id], s, now) == Retired(vs[i], s, now)
  }

  /** The sweep deletes exactly the result files of the listed records. */
  lemma {:induction false} RetireAllFiles(t: VideoTable, results: set<VideoId>, vs: seq<Video>, s: VideoStatus, now: int)
    requires t.Valid()
    ensures RetireAll(t, results, vs, s, now).1 == results - IdsOf(vs)
    decreases |vs|
  {
    if vs != [] {
      assert IdsOf(vs) == IdsOf(vs[1..]) + {vs[0].id} by {
        assert vs == [vs[0]] + vs[1..];
      }
      RetireAllFiles(SetEntityStatus(t, vs[0], s, now), results - {vs[0].id}, vs[1..], s, now);
    }
  }

  /**
   * Listed records end with status `s` saved now; every other record is as it was, and no record
   * is added.
   */
  lemma {:induction false} RetireAllRows(t: VideoTable, results: set<VideoId>, vs: seq<Video>, s: VideoStatus, now: int)
    requires t.Valid() && Listed(t, vs, s, now)
    ensures var t2 := RetireAll(t, results, vs, s, now).0;
      t2.rows.Keys == t.rows.Keys
      && (forall k :: k in IdsOf(vs) ==> k in t.rows && t2.rows[k] == Retired(t.rows[k], s, now))
      && (forall k :: k in t.rows && k !in IdsOf(vs) ==> t2.rows[k] == t.rows[k])
    decreases |vs|
  {
    if vs != [] {
      var v, rest := vs[0], vs[1..];
      var t1 := SetEntityStatus(t, v, s, now);
      assert t1.rows[v.id] == Retired(t.rows[v.id], s, now);
      forall i | 0 <= i < |rest|
        ensures rest[i].id in t1.rows && Retired(t1.rows[rest[i].id], s, now) == Retired(rest[i], s, now)
      {
        assert rest[i] == vs[i + 1];
      }
      assert IdsOf(vs) == IdsOf(rest) + {v.id} by {
        assert vs == [v] + rest;
      }
      RetireAllRows(t1, results - {v.id}, rest, s, now);
      var t2 := RetireAll(t1, results - {v.id}, rest, s, now).0;
      assert RetireAll(t, results, vs, s, now).0 == t2;
      forall k | k in IdsOf(vs)
        ensures k in t.rows && t2.rows[k] == Retired(t.rows[k], s, now)
      {
        if k != v.id {
          assert k in IdsOf(rest);
        }
      }
      forall k | k in t.rows && k !in IdsOf(vs)
        ensures t2.rows[k] == t.rows[k]
      {
        assert k != v.id && k !in IdsOf(rest);
      }
    }
  }

  /** `removeClaimedFiles`: nothing while the result partition keeps more than its threshold free. */
  function RemoveClaimedFilesSpec(t: VideoTable, results: set<VideoId>, settings: Settings, resultsFreeMb: int, now: int)
    : (r: (VideoTable, set<VideoId>))
    requires t.Valid()
    ensures r.0.Valid()
  {
    if resultsFreeMb > settings.claimedCleanupFreeSpaceThreshold then (t, results)
    else RetireAll(t, results, OldDownloadedVideos(t, now, settings.claimedCleanupTimeThreshold), DELETED, now)
  }

  /** `removeUnclaimedFiles`: the same over old READY records, which become DELETED_WITHOUT_DOWNLOADING. */
  function RemoveUnclaimedFilesSpec(t: VideoTable, results: set<VideoId>, settings: Settings, resultsFreeMb: int, now: int)
    : (r: (VideoTable, set<VideoId>))
    requires t.Valid()
    ensures r.0.Valid()
  {
    if resultsFreeMb > settings.unclaimedCleanupFreeSpaceThreshold then (t, results)
    else RetireAll(t, results, OldUndownloadedVideos(t, now, settings.unclaimedCleanupTimeThreshold), DELETED_WITHOUT_DOWNLOADING, now)
  }

  /**
   * `r` is the table and result directory after a sweep that retires the records `sel` with
   * status `s` at `now`: no record is added or removed, exactly the files of `sel` are deleted, the
   * records of `sel` are written back with the new status and save time and all others are as they
   * were.
   */
  ghost predicate Swept(t: VideoTable, results: set<VideoId>, r: (VideoTable, set<VideoId>), sel: set<VideoId>, s: VideoStatus, now: int) {
    r.0.rows.Keys == t.rows.Keys && r.1 == results - sel
    && forall k :: k in t.rows ==> r.0.rows[k] == if k in sel then Retired(t.rows[k], s, now) else t.rows[k]
  }

  /** A sweep over records listed as stored retires exactly the listed ids. */
  lemma RetireStored(t: VideoTable, results: set<VideoId>, vs: seq<Video>, s: VideoStatus, now: int)
    requires t.Valid()
    requires forall v :: v in vs ==> v.id in t.rows && t.rows[v.id] == v
    ensures Swept(t, results, RetireAll(t, results, vs, s, now), IdsOf(vs), s, now)
  {
    forall i | 0 <= i < |vs|
      ensures vs[i].id in t.rows && Retired(t.rows[vs[i].id], s, now) == Retired(vs[i], s, now)
    {
      assert vs[i] in vs;
    }
    RetireAllFiles(t, results, vs, s, now);
    RetireAllRows(t, results, vs, s, now);
  }

  /** The ids of the old DOWNLOADED records. */
  ghost function ClaimedIds(t: VideoTable, now: int, minutes: int): set<VideoId> {
    set k | k in t.rows && t.rows[k].status == DOWNLOADED && t.rows[k].updatedAt < now - minutes
  }

  /** The ids of the old READY records. */
  ghost function UnclaimedIds(t: VideoTable, now: int, minutes: int): set<VideoId> {
    set k | k in t.rows && t.rows[k].status == READY && t.rows[k].updatedAt < now - minutes
  }

  /** The query lists exactly the records the id set names. */
  lemma OldDownloadedVideosListsIds(t: VideoTable, now: int, minutes: int)
    requires t.Valid()
    ensures IdsOf(OldDownloadedVideos(t, now, minutes)) == ClaimedIds(t, now, minutes)
  {
    var vs := OldDownloadedVideos(t, now, minutes);
    forall k | k in ClaimedIds(t, now, minutes) ensures k in IdsOf(vs) {
      assert t.rows[k] in vs;
    }
  }

  /**
   * With the result partition at or below its threshold, every DOWNLOADED record saved before the
   * age bound is DELETED and loses its result file, and every other record and file is untouched;
   * above the threshold nothing changes.
   */
  lemma ClaimedCleanupEffect(t: VideoTable, results: set<VideoId>, settings: Settings, resultsFreeMb: int, now: int)
    requires t.Valid()
    ensures resultsFreeMb > settings.claimedCleanupFreeSpaceThreshold ==>
      RemoveClaimedFilesSpec(t, results, settings, resultsFreeMb, now) == (t, results)
    ensures resultsFreeMb <= settings.claimedCleanupFreeSpaceThreshold ==>
      Swept(t, results, RemoveClaimedFilesSpec(t, results, settings, resultsFreeMb, now),
            ClaimedIds(t, now, settings.claimedCleanupTimeThreshold), DELETED, now)
  {
    if resultsFreeMb <= settings.claimedCleanupFreeSpaceThreshold {
      var vs := OldDownloadedVideos(t, now, settings.claimedCleanupTimeThreshold);
      RetireStored(t, results, vs, DELETED, now);
      OldDownloadedVideosListsIds(t, now, settings.claimedCleanupTimeThreshold);
    }
  }

  /** The query lists exactly the records the id set names. */
  lemma OldUndownloadedVideosListsIds(t: VideoTable, now: int, minutes: int)
    requires t.Valid()
    ensures IdsOf(OldUndownloadedVideos(t, now, minutes)) == UnclaimedIds(t, now, minutes)
  {
    var vs := OldUndownloadedVideos(t, now, minutes);
    forall k | k in UnclaimedIds(t, now, minutes) ensures k in IdsOf(vs) {
      assert t.rows[k] in vs;
    }
  }

  /** The same for the unclaimed sweep: old READY records become DELETED_WITHOUT_DOWNLOADING. */
  lemma UnclaimedCleanupEffect(t: VideoTable, results: set<VideoId>, settings: Settings, resultsFreeMb: int, now: int)
    requires t.Valid()
    ensures resultsFreeMb > settings.unclaimedCleanupFreeSpaceThreshold ==>
      RemoveUnclaimedFilesSpec(t, results, settings, resultsFreeMb, now) == (t, results)
    ensures resultsFreeMb <= settings.unclaimedCleanupFreeSpaceThreshold ==>
      Swept(t, results, RemoveUnclaimedFilesSpec(t, results, settings, resultsFreeMb, now),
            UnclaimedIds(t, now, settings.unclaimedCleanupTimeThreshold), DELETED_WITHOUT_DOWNLOADING, now)
  {
    if resultsFreeMb <= settings.unclaimedCleanupFreeSpaceThreshold {
      var vs := OldUndownloadedVideos(t, now, settings.unclaimedCleanupTimeThreshold);
      RetireStored(t, results, vs, DELETED_WITHOUT_DOWNLOADING, now);
      OldUndownloadedVideosListsIds(t, now, settings.unclaimedCleanupTimeThreshold);
    }
  }

  class FileCleanup {
    const dao: VideoDao
    const files: FileService

    constructor (dao: VideoDao, files: FileService)
      ensures this.dao == dao && this.files == files
    {
      this.dao, this.files := dao, files;
    }

    /** `resultsUsable` is the usable space of the result directory's partition, in bytes. */
    method RemoveClaimedFiles(settings: Settings, resultsUsable: int, now: int)
      requires dao.Valid()
      modifies dao`table, files`resultFiles
      ensures dao.Valid()
      ensures (dao.table, files.resultFiles) == RemoveClaimedFilesSpec(old(dao.table), old(files.resultFiles), settings, FreeSpaceMb(resultsUsable), now)
    {
      if FreeSpaceMb(resultsUsable) > settings.claimedCleanupFreeSpaceThreshold {
        return;
      }
      var videos := OldDownloadedVideos(dao.table, now, settings.claimedCleanupTimeThreshold);
      var i := 0;
      while i < |videos|
        invariant 0 <= i <= |videos| && dao.Valid()
        invariant RetireAll(old(dao.table), old(files.resultFiles), videos, DELETED, now)
               == RetireAll(dao.table, files.resultFiles, videos[i..], DELETED, now)
      {
        assert videos[i..][1..] == videos[i + 1..];
        files.DeleteResultVideo(videos[i].id);
        dao.SetVideoDeleted(videos[i], now);
        i := i + 1;
      }
    }

    method RemoveUnclaimedFiles(settings: Settings, resultsUsable: int, now: int)
      requires dao.Valid()
      modifies dao`table, files`resultFiles
      ensures dao.Valid()
      ensures (dao.table, files.resultFiles) == RemoveUnclaimedFilesSpec(old(dao.table), old(files.resultFiles), settings, FreeSpaceMb(resultsUsable), now)
    {
      if FreeSpaceMb(resultsUsable) > settings.unclaimedCleanupFreeSpaceThreshold {
        return;
      }
      var videos := OldUndownloadedVideos(dao.table, now, settings.unclaimedCleanupTimeThreshold);
      var i := 0;
      while i < |videos|
        invariant 0 <= i <= |videos| && dao.Valid()
        invariant RetireAll(old(dao.table), old(files.resultFiles), videos, DELETED_WITHOUT_DOWNLOADING, now)
               == RetireAll(dao.table, files.resultFiles, videos[i..], DELETED_WITHOUT_DOWNLOADING, now)
      {
        assert videos[i..][1..] == videos[i + 1..];
        files.DeleteResultVideo(videos[i].id);
        dao.SetVideoDeletedWithoutDownloading(videos[i], now);
        i := i + 1;
      }
    }
  }
}
