/**
 * The recovery sweep (scheduled/RecoveryScheduler.kt): every file in the recovery directory whose
 * name is the id of a failed video is submitted again as a new upload of that video, and removed
 * once the submission went through.
 */
module RecoveryScheduler {
  import opened Wrappers
  import opened HttpExceptions
  import opened Model
  import opened Repositories
  import opened VideoDao
  import opened FileService
  import opened WorkQueue
  import opened VideoService

  // ---- file names as ids ----

  predicate IsHexDigit(c: char) {
    '0' <= c <= '9' || 'a' <= c <= 'f' || 'A' <= c <= 'F'
  }

  /** The positions of the four dashes of the canonical UUID text `8-4-4-4-12`. */
  predicate IsDashPosition(i: int) {
    i == 8 || i == 13 || i == 18 || i == 23
  }

  /** The canonical textual form of a UUID: 32 hex digits in groups of 8, 4, 4, 4 and 12. */
  predicate IsUuidText(name: string) {
    |name| == 36 && forall i :: 0 <= i < 36 ==> if IsDashPosition(i) then name[i] == '-' else IsHexDigit(name[i])
  }

  function ToLowerHex(c: char): (d: char)
    ensures IsHexDigit(c) ==> IsHexDigit(d) && !('A' <= d <= 'F')
    ensures !('A' <= c <= 'F') ==> d == c
  {
    if 'A' <= c <= 'F' then (c as int + 32) as char else c
  }

  /** The canonical text with lower-case digits, as a UUID prints itself. */
  predicate IsLowerUuidText(name: string) {
    IsUuidText(name) && forall i :: 0 <= i < |name| ==> !('A' <= name[i] <= 'F')
  }

  /**
   * `UUID.fromString` on the file name, then the id as stored: a canonical name parses to the same
   * text with its digits in lower case; any other name throws, which the sweep catches.
   */
  function ParseUuid(name: string): (r: Option<VideoId>)
    ensures r.Some? <==> IsUuidText(name)
    ensures r.Some? ==> IsLowerUuidText(r.value)
  {
    if IsUuidText(name) then Some(seq(36, i requires 0 <= i < 36 => ToLowerHex(name[i]))) else None
  }

  /** An id in the form a UUID prints parses back to itself. */
  lemma ParsePrintedUuid(id: VideoId)
    requires IsLowerUuidText(id)
    ensures ParseUuid(id) == Some(id)
  {
    assert ParseUuid(id).value == id;
  }

  /** Parsing normalises: the parsed id parses to itself, and two names that parse agree up to case. */
  lemma ParseUuidIdempotent(name: string)
    requires ParseUuid(name).Some?
    ensures ParseUuid(ParseUuid(name).value) == ParseUuid(name)
  {
    ParsePrintedUuid(ParseUuid(name).value);
  }

  // ---- the id of the new record ----

  /** The longest of the ids. */
  function MaxLength(ids: seq<VideoId>): (m: nat)
    ensures forall i :: 0 <= i < |ids| ==> |ids[i]| <= m
    decreases |ids|
  {
    if ids == [] then 0
    else
      var rest := MaxLength(ids[1..]);
      assert forall i :: 1 <= i < |ids| ==> ids[i] == ids[1..][i - 1];
      if |ids[0]| > rest then |ids[0]| else rest
  }

  /** The key the store generates for a new record: one no stored record has. */
  function FreshId(t: VideoTable): (id: VideoId)
    requires t.Valid()
    ensures id !in t.rows
  {
    var id := seq(MaxLength(t.order) + 1, _ => '0');
    assert forall i :: 0 <= i < |t.order| ==> |t.order[i]| < |id|;
    id
  }

  // ---- the sweep ----

  datatype RecoveryState = RecoveryState(s: ServiceState, recovery: seq<RecoveryFile>)

  /** Why a recovery file is passed over, if it is. */
  function SkipReason(t: VideoTable, f: RecoveryFile): (r: Option<string>)
    requires t.Valid()
    ensures r.None? <==> exists id :: ParseUuid(f.name) == Some(id) && id in t.rows && t.rows[id].status == ERROR
  {
    var id := ParseUuid(f.name);
    if id.None? then Some("not an id")
    else if FindById(t, id.value).None? then Some("no such video")
    else if t.rows[id.value].status != ERROR then Some("not failed")
    else None
  }

  /**
   * One file of `rescheduleVideosForRecovery`: a file whose name is the id of an ERROR record has
   * that record's queue file deleted, and is submitted as a new upload with the record's name and
   * owner and the file's length; the file is deleted only when the submission did not throw. Every
   * other file is passed over.
   */
  function RecoverFileSpec(r: RecoveryState, env: Env, queueUsable: int, f: RecoveryFile): (r2: RecoveryState)
    requires ServiceValid(r.s)
    ensures ServiceValid(r2.s)
  {
    var t := r.s.q.videos;
    if SkipReason(t, f).Some? then r
    else
      var v := t.rows[ParseUuid(f.name).value];
      var s1 := r.s.(q := r.s.q.(queueFiles := r.s.q.queueFiles - {v.id}));
      var (o, s2) := AddLocalVideoSpec(s1, env, queueUsable, FreshId(t), v.name, f.length, v.email, Some(f.length));
      RecoveryState(s2, if o.Pass? then WithoutFile(r.recovery, f.name) else r.recovery)
  }

  /**
   * The sweep over the recovery files listed when it starts; an exception of a visit's lookup or
   * submission is caught and the sweep goes on with the next file.
   */
  function RecoverAll(r: RecoveryState, env: Env, queueUsable: int, fs: seq<RecoveryFile>): (r2: RecoveryState)
    requires ServiceValid(r.s)
    ensures ServiceValid(r2.s)
    decreases |fs|
  {
    if fs == [] then r else RecoverAll(RecoverFileSpec(r, env, queueUsable, fs[0]), env, queueUsable, fs[1..])
  }

  function RescheduleVideosForRecoverySpec(r: RecoveryState, env: Env, queueUsable: int): (r2: RecoveryState)
    requires ServiceValid(r.s)
  {
    RecoverAll(r, env, queueUsable, r.recovery)
  }

  /** A file whose name is no id, or names no failed video, changes nothing. */
  lemma SkippedFileChangesNothing(r: RecoveryState, env: Env, queueUsable: int, f: RecoveryFile)
    requires ServiceValid(r.s)
    requires ParseUuid(f.name).None?
          || ParseUuid(f.name).value !in r.s.q.videos.rows
          || r.s.q.videos.rows[ParseUuid(f.name).value].status != ERROR
    ensures RecoverFileSpec(r, env, queueUsable, f) == r
  {
  }

  /**
   * A file naming a failed video, on a queue without room for it, loses the old queue file and
   * stays for the next sweep; no record is created.
   */
  lemma NoSpaceKeepsFile(r: RecoveryState, env: Env, queueUsable: int, f: RecoveryFile)
    requires ServiceValid(r.s) && SkipReason(r.s.q.videos, f).None?
    requires CheckSpace(r.s, env, queueUsable, f.length).Fail?
    ensures var id := ParseUuid(f.name).value;
      RecoverFileSpec(r, env, queueUsable, f)
        == RecoveryState(r.s.(q := r.s.q.(queueFiles := r.s.q.queueFiles - {id})), r.recovery)
  {
    var id := ParseUuid(f.name).value;
    assert r.s.q.videos.rows[id].id == id;
  }

  /**
   * A file naming a failed video, with room in the queue, is submitted as a new upload under a fresh
   * id with the failed record's name and owner and the file's length; the failed record stays.
   */
  lemma EligibleFileResubmitted(r: RecoveryState, env: Env, queueUsable: int, f: RecoveryFile)
    requires ServiceValid(r.s) && SkipReason(r.s.q.videos, f).None?
    requires CheckSpace(r.s, env, queueUsable, f.length).Pass?
    ensures var t := r.s.q.videos;
      var v := t.rows[ParseUuid(f.name).value];
      var s1 := r.s.(q := r.s.q.(queueFiles := r.s.q.queueFiles - {v.id}));
      var (p, s2) := PrepareVideoForQueueSpec(s1, env, FreshId(t), v.name, f.length, v.email, NODE_LOCAL, None, Some(f.length));
      p.Success? && s2.q.videos.rows[FreshId(t)] == p.value.(status := UPLOADED, updatedAt := env.now, originalSize := f.length)
      && p.value.name == v.name && p.value.email == v.email && p.value.originalSize == f.length
      && FreshId(t) != v.id && s2.q.videos.rows[v.id] == v
  {
    var t := r.s.q.videos;
    var id := FreshId(t);
    var v := t.rows[ParseUuid(f.name).value];
    var s1 := r.s.(q := r.s.q.(queueFiles := r.s.q.queueFiles - {v.id}));
    var (w, t1) := NewRecord(s1.q.videos, id, v.name, f.length, v.email, NODE_LOCAL, None, env.now);
    var t2 := SetById(t1, id, Uploaded(f.length), env.now).1;
    assert t2.rows[id] == Apply(t1.rows[id], Uploaded(f.length)).(updatedAt := env.now);
  }

  /**
   * What happens to a file naming a failed video: the video's queue file is gone afterwards; with
   * room in the queue a new record under a fresh id holds the video's name and owner and the file's
   * length; and the file leaves the recovery directory exactly when the submission did not throw
   * (a full queue or a rejection keeps it for the next sweep).
   */
  lemma EligibleFileOutcome(r: RecoveryState, env: Env, queueUsable: int, f: RecoveryFile)
    requires ServiceValid(r.s) && SkipReason(r.s.q.videos, f).None?
    ensures var t := r.s.q.videos;
      var v := t.rows[ParseUuid(f.name).value];
      var s1 := r.s.(q := r.s.q.(queueFiles := r.s.q.queueFiles - {v.id}));
      var o := AddLocalVideoSpec(s1, env, queueUsable, FreshId(t), v.name, f.length, v.email, Some(f.length)).0;
      var r2 := RecoverFileSpec(r, env, queueUsable, f);
      v.id !in r2.s.q.queueFiles
      && (forall g :: g in r2.recovery <==> g in r.recovery && (o.Pass? ==> g.name != f.name))
      && (CheckSpace(r.s, env, queueUsable, f.length).Pass? ==>
            FreshId(t) in r2.s.q.videos.rows && r2.s.q.videos.rows[FreshId(t)].name == v.name
            && r2.s.q.videos.rows[FreshId(t)].email == v.email && r2.s.q.videos.rows[FreshId(t)].originalSize == f.length)
  {
    var t := r.s.q.videos;
    var v := t.rows[ParseUuid(f.name).value];
    assert v.id == ParseUuid(f.name).value && FreshId(t) != v.id;
    var s1 := r.s.(q := r.s.q.(queueFiles := r.s.q.queueFiles - {v.id}));
    SubmissionFrame(s1, env, queueUsable, FreshId(t), v.name, f.length, v.email, Some(f.length));
  }

  /** A submission keeps every record and adds at most the new id's file to the queue directory. */
  lemma SubmissionFrame(s: ServiceState, env: Env, queueUsable: int, id: VideoId, name: string, size: int,
                        email: string, received: Option<int>)
    requires ServiceValid(s) && id !in s.q.videos.rows
    ensures var s2 := AddLocalVideoSpec(s, env, queueUsable, id, name, size, email, received).1;
      s.q.videos.rows.Keys <= s2.q.videos.rows.Keys && s2.q.queueFiles <= s.q.queueFiles + {id}
      && (CheckSpace(s, env, queueUsable, size).Pass? && received.Some? ==>
            id in s2.q.videos.rows && s2.q.videos.rows[id].name == name && s2.q.videos.rows[id].email == email
            && s2.q.videos.rows[id].originalSize == received.value)
  {
    if CheckSpace(s, env, queueUsable, size).Pass? {
      var (p, s1) := PrepareVideoForQueueSpec(s, env, id, name, size, email, NODE_LOCAL, None, received);
      if received.Some? {
        var t := s.q.videos;
        var (w, t1) := NewRecord(t, id, name, size, email, NODE_LOCAL, None, env.now);
        var t2 := SetById(t1, id, Uploaded(received.value), env.now).1;
        assert t2.rows[id] == Apply(t1.rows[id], Uploaded(received.value)).(updatedAt := env.now);
        assert p.Success? && s1.q.videos == t2;
      }
      if p.Success? {
        var (o, q3) := AddToQueueSpec(s1.q, env, Job(p.value.id, LOCAL, NotifyOwner(p.value.email)), false);
        assert UploadsKept(s1.q, q3);
      }
    }
  }

  /** One file leaves the listing or stays; every record stays, and a record without a queue file gets none back. */
  lemma RecoverFileFrame(r: RecoveryState, env: Env, queueUsable: int, f: RecoveryFile)
    requires ServiceValid(r.s)
    ensures var r2 := RecoverFileSpec(r, env, queueUsable, f);
      (forall g :: g in r2.recovery ==> g in r.recovery)
      && r.s.q.videos.rows.Keys <= r2.s.q.videos.rows.Keys
      && forall id :: id in r.s.q.videos.rows && id !in r.s.q.queueFiles ==> id !in r2.s.q.queueFiles
  {
    var t := r.s.q.videos;
    if SkipReason(t, f).None? {
      var v := t.rows[ParseUuid(f.name).value];
      var s1 := r.s.(q := r.s.q.(queueFiles := r.s.q.queueFiles - {v.id}));
      SubmissionFrame(s1, env, queueUsable, FreshId(t), v.name, f.length, v.email, Some(f.length));
    }
  }

  /**
   * The whole sweep only deletes recovery files, loses no record, and gives no record that had no
   * queue file one back: a failed video whose queue file a visit deleted has none at the end.
   */
  lemma {:induction false} RecoverAllFrame(r: RecoveryState, env: Env, queueUsable: int, fs: seq<RecoveryFile>)
    requires ServiceValid(r.s)
    ensures var r2 := RecoverAll(r, env, queueUsable, fs);
      (forall g :: g in r2.recovery ==> g in r.recovery)
      && r.s.q.videos.rows.Keys <= r2.s.q.videos.rows.Keys
      && forall id :: id in r.s.q.videos.rows && id !in r.s.q.queueFiles ==> id !in r2.s.q.queueFiles
    decreases |fs|
  {
    if fs != [] {
      RecoverFileFrame(r, env, queueUsable, fs[0]);
      RecoverAllFrame(RecoverFileSpec(r, env, queueUsable, fs[0]), env, queueUsable, fs[1..]);
    }
  }

  /** The sweep visits files in order; a file not yet visited is still listed unless its name was cleared. */
  lemma {:induction false} RecoverAllKeepsUnvisited(r: RecoveryState, env: Env, queueUsable: int, fs: seq<RecoveryFile>, g: RecoveryFile)
    requires ServiceValid(r.s) && g in r.recovery
    requires forall f :: f in fs ==> f.name != g.name
    ensures g in RecoverAll(r, env, queueUsable, fs).recovery
    decreases |fs|
  {
    if fs != [] {
      assert fs[0] in fs;
      var r1 := RecoverFileSpec(r, env, queueUsable, fs[0]);
      assert g in r1.recovery;
      forall f | f in fs[1..] ensures f.name != g.name {
        assert f in fs;
      }
      RecoverAllKeepsUnvisited(r1, env, queueUsable, fs[1..], g);
    }
  }

  class RecoveryScheduler {
    const service: VideoService

    ghost function State(): RecoveryState
      reads service, service.queue, service.queue.dao, service.queue.workerDao, service.queue.files
      reads service.dao, service.files, service.mail
    {
      RecoveryState(service.State(), service.files.recoveryFiles)
    }

    ghost predicate Valid()
      reads service, service.queue, service.queue.dao, service.queue.workerDao
    {
      service.Valid()
    }

    constructor (service: VideoService)
      requires service.Valid()
      ensures Valid() && this.service == service
    {
      this.service := service;
    }

    /** `queueUsable` is the usable space of the queue directory's partition, in bytes. */
    method RescheduleVideosForRecovery(env: Env, queueUsable: int)
      requires Valid()
      modifies service, service.queue, service.dao`table, service.queue.workerDao, service.files`queueFiles, service.files`recoveryFiles
      ensures Valid() && State() == RescheduleVideosForRecoverySpec(old(State()), env, queueUsable)
    {
      var filesForRecovery := service.files.recoveryFiles;
      ghost var spec := RecoverAll(State(), env, queueUsable, filesForRecovery);
      var i := 0;
      while i < |filesForRecovery|
        invariant 0 <= i <= |filesForRecovery| && Valid()
        invariant spec == RecoverAll(State(), env, queueUsable, filesForRecovery[i..])
      {
        assert filesForRecovery[i..][1..] == filesForRecovery[i + 1..];
        RecoverFile(env, queueUsable, filesForRecovery[i]);
        i := i + 1;
      }
    }

    /** One turn of the sweep; an exception of the submission is caught and logged. */
    method RecoverFile(env: Env, queueUsable: int, file: RecoveryFile)
      requires Valid()
      modifies service, service.queue, service.dao`table, service.queue.workerDao, service.files`queueFiles, service.files`recoveryFiles
      ensures Valid() && State() == RecoverFileSpec(old(State()), env, queueUsable, file)
    {
      var id := ParseUuid(file.name);
      if id.None? {
        return;
      }
      var video := FindById(service.dao.table, id.value);
      if video.None? || video.value.status != ERROR {
        return;
      }
      service.files.DeleteQueueVideo(video.value.id);
      var newId := FreshId(service.dao.table);
      var o := service.AddToQueue(env, queueUsable, newId, video.value.name, file.length, video.value.email, Some(file.length));
      if o.Pass? {
        service.files.DeleteRecoveryFile(file.name);
      }
    }
  }
}
