/**
 * The zombie sweeps (scheduled/ZombieVideoCleanup.kt): deleting the files of old failed videos when
 * a partition runs low, failing jobs stuck in a transitive status, and settling stale videos by
 * sending the notifications still owed or failing them.
 */
module ZombieVideoCleanup {
  import opened Wrappers
  import opened HttpExceptions
  import opened Model
  import opened Repositories
  import opened VideoDao
  import opened FileService
  import opened EnvironmentProperties
  import opened Utils
  import opened WorkQueue
  import opened VideoService

  // ---- cleanupZombieErrors ----

  /**
   * `cleanupZombieErrors`: nothing while both partitions keep more than the threshold free;
   * otherwise the queue and result files of the old ERROR records are deleted.
   */
  function CleanupZombieErrorsSpec(s: ServiceState, settings: Settings, queueFreeMb: int, resultsFreeMb: int, now: int)
    : (r: ServiceState)
    requires ServiceValid(s)
  {
    var threshold := settings.zombieErrorCleanupFreeSpaceThreshold;
    if queueFreeMb > threshold && resultsFreeMb > threshold then s
    else
      var ids := IdsOf(OldErrorZombieVideos(s.q.videos, now, settings.zombieErrorCleanupTimeThreshold));
      s.(q := s.q.(queueFiles := s.q.queueFiles - ids), resultFiles := s.resultFiles - ids)
  }

  /** The ids of the ERROR records saved before the age bound. */
  ghost function ErrorZombieIds(t: VideoTable, now: int, minutes: int): set<VideoId> {
    set k | k in t.rows && t.rows[k].status == ERROR && t.rows[k].updatedAt < now - minutes
  }

  lemma OldErrorZombieVideosListsIds(t: VideoTable, now: int, minutes: int)
    requires t.Valid()
    ensures IdsOf(OldErrorZombieVideos(t, now, minutes)) == ErrorZombieIds(t, now, minutes)
  {
    var vs := OldErrorZombieVideos(t, now, minutes);
    forall k | k in ErrorZombieIds(t, now, minutes) ensures k in IdsOf(vs) {
      assert t.rows[k] in vs;
    }
  }

  /**
   * When either partition is at or below the threshold, exactly the queue and result files of old
   * ERROR records are deleted, and no record changes; otherwise nothing changes.
   */
  lemma ZombieErrorsEffect(s: ServiceState, settings: Settings, queueFreeMb: int, resultsFreeMb: int, now: int)
    requires ServiceValid(s)
    ensures var threshold := settings.zombieErrorCleanupFreeSpaceThreshold;
      var r := CleanupZombieErrorsSpec(s, settings, queueFreeMb, resultsFreeMb, now);
      var ids := ErrorZombieIds(s.q.videos, now, settings.zombieErrorCleanupTimeThreshold);
      (queueFreeMb > threshold && resultsFreeMb > threshold ==> r == s)
      && (queueFreeMb <= threshold || resultsFreeMb <= threshold ==>
            r == s.(q := s.q.(queueFiles := s.q.queueFiles - ids), resultFiles := s.resultFiles - ids))
  {
    OldErrorZombieVideosListsIds(s.q.videos, now, settings.zombieErrorCleanupTimeThreshold);
  }

  // ---- the actions of the other two sweeps ----

  /** One step of a sweep: notify an owner of their finished videos, or fail a video. */
  datatype SweepAction = Notify(email: string) | FailVideo(id: VideoId)

  function RunAction(s: ServiceState, env: Env, a: SweepAction): (r: (Outcome<Exception>, ServiceState))
    requires ServiceValid(s)
    ensures ServiceValid(r.1) && QueueKept(s, r.1) && FilesKept(s, r.1)
    ensures r.1.q.videos.rows.Keys == s.q.videos.rows.Keys
    ensures r.0.Fail? <==> a.FailVideo? && a.id !in s.q.videos.rows
  {
    match a
    case Notify(e) => (Pass, SendMailNotificationSpec(s, env.settings.hostUrl, e))
    case FailVideo(id) => FailJobSpec(s, env, id)
  }

  /** The actions in order; an exception from `failJob` escapes the sweep and ends it. */
  function RunActions(s: ServiceState, env: Env, acts: seq<SweepAction>): (r: (Outcome<Exception>, ServiceState))
    requires ServiceValid(s)
    ensures ServiceValid(r.1)
    decreases |acts|
  {
    if acts == [] then (Pass, s)
    else
      var (o, s1) := RunAction(s, env, acts[0]);
      if o.Fail? then (o, s1) else RunActions(s1, env, acts[1..])
  }

  /** Every id the actions fail is stored. */
  ghost predicate FailsStored(t: VideoTable, acts: seq<SweepAction>) {
    forall i :: 0 <= i < |acts| && acts[i].FailVideo? ==> acts[i].id in t.rows
  }

  /**
   * A sweep adds and removes no record and leaves the queue and the files alone; it fails only
   * when it reaches a `failJob` of a record that is not stored.
   */
  lemma {:induction false} RunActionsKeeps(s: ServiceState, env: Env, acts: seq<SweepAction>)
    requires ServiceValid(s)
    ensures var r := RunActions(s, env, acts).1;
      QueueKept(s, r) && FilesKept(s, r) && r.q.videos.rows.Keys == s.q.videos.rows.Keys
    ensures FailsStored(s.q.videos, acts) ==> RunActions(s, env, acts).0.Pass?
    decreases |acts|
  {
    if acts != [] {
      var (o, s1) := RunAction(s, env, acts[0]);
      if o.Pass? {
        RunActionsKeeps(s1, env, acts[1..]);
        if FailsStored(s.q.videos, acts) {
          forall i | 0 <= i < |acts[1..]| && acts[1..][i].FailVideo?
            ensures acts[1..][i].id in s1.q.videos.rows
          {
            assert acts[1..][i] == acts[i + 1];
          }
        }
      }
    }
  }

  // ---- cleanupJobsStuckInTransitiveStates ----

  /** One `failJob` per listed video, in order. */
  function FailActions(vs: seq<Video>): (acts: seq<SweepAction>)
    ensures |acts| == |vs| && forall i :: 0 <= i < |vs| ==> acts[i] == FailVideo(vs[i].id)
    decreases |vs|
  {
    if vs == [] then [] else [FailVideo(vs[0].id)] + FailActions(vs[1..])
  }

  /** `cleanupJobsStuckInTransitiveStates`: every record left UPLOADED or PROCESSED too long is failed. */
  function CleanupJobsStuckSpec(s: ServiceState, env: Env): (r: (Outcome<Exception>, ServiceState))
    requires ServiceValid(s)
  {
    var zombies := OldTransitiveStatusZombieVideos(s.q.videos, env.now, env.settings.transitiveStatusesCleanupTimeThreshold);
    RunActions(s, env, FailActions(zombies))
  }

  /**
   * The stuck-job sweep never stops on an exception, since every listed record is stored; it
   * adds and removes no record and leaves the queue and the files alone.
   */
  lemma StuckSweepPasses(s: ServiceState, env: Env)
    requires ServiceValid(s)
    ensures var (o, r) := CleanupJobsStuckSpec(s, env);
      o.Pass? && r.q.videos.rows.Keys == s.q.videos.rows.Keys && QueueKept(s, r) && FilesKept(s, r)
  {
    var zombies := OldTransitiveStatusZombieVideos(s.q.videos, env.now, env.settings.transitiveStatusesCleanupTimeThreshold);
    var acts := FailActions(zombies);
    forall i | 0 <= i < |acts| && acts[i].FailVideo?
      ensures acts[i].id in s.q.videos.rows
    {
      assert zombies[i] in zombies;
    }
    RunActionsKeeps(s, env, acts);
  }

  /** Running `a` then `b` is running `a` and, unless it threw, `b` from where it left off. */
  lemma {:induction false} RunActionsAppend(s: ServiceState, env: Env, a: seq<SweepAction>, b: seq<SweepAction>)
    requires ServiceValid(s)
    ensures RunActions(s, env, a + b)
         == var r := RunActions(s, env, a); if r.0.Fail? then r else RunActions(r.1, env, b)
    decreases |a|
  {
    if a == [] {
      assert a + b == b;
    } else {
      assert (a + b)[0] == a[0] && (a + b)[1..] == a[1..] + b;
      var (o, s1) := RunAction(s, env, a[0]);
      if o.Pass? {
        RunActionsAppend(s1, env, a[1..], b);
      }
    }
  }

  // ---- cleanupStaleVideos ----

  /** A stale video that is neither waiting for its mail nor freshly queued is failed. */
  predicate Failable(v: Video, bound: int) {
    v.status != EMAIL_PENDING && (v.status != IN_QUEUE || v.updatedAt < bound)
  }

  /**
   * What `cleanupStaleVideos` does for the stale record `v`: the owner of an EMAIL_PENDING record
   * is notified unless notified earlier in the same sweep (`cleared`), and a failable record is
   * failed. `bound` is the time before which an IN_QUEUE record counts as stuck.
   */
  function StepActions(v: Video, cleared: set<string>, bound: int): (acts: seq<SweepAction>)
    ensures |acts| <= 1
  {
    if v.status == EMAIL_PENDING then (if v.email in cleared then [] else [Notify(v.email)])
    else if Failable(v, bound) then [FailVideo(v.id)]
    else []
  }

  /** The owners notified so far, after the record `v`. */
  function StepCleared(v: Video, cleared: set<string>): (r: set<string>) {
    if v.status == EMAIL_PENDING && v.email !in cleared then cleared + {v.email} else cleared
  }

  /** The actions of the sweep over the stale records `vs` as listed when it starts. */
  function StaleActions(vs: seq<Video>, cleared: set<string>, bound: int): (acts: seq<SweepAction>)
    decreases |vs|
  {
    if vs == [] then []
    else StepActions(vs[0], cleared, bound) + StaleActions(vs[1..], StepCleared(vs[0], cleared), bound)
  }

  /** Exactly the failable listed records are failed. */
  lemma {:induction false} StaleFailsExactly(vs: seq<Video>, cleared: set<string>, bound: int, id: VideoId)
    ensures FailVideo(id) in StaleActions(vs, cleared, bound) <==> exists v :: v in vs && v.id == id && Failable(v, bound)
    decreases |vs|
  {
    if vs != [] {
      var v := vs[0];
      StaleFailsExactly(vs[1..], StepCleared(v, cleared), bound, id);
      assert forall w :: w in vs <==> w == v || w in vs[1..];
    }
  }

  /** Exactly the owners of listed EMAIL_PENDING records, other than those already cleared, are notified. */
  lemma {:induction false} StaleNotifiesExactly(vs: seq<Video>, cleared: set<string>, bound: int, e: string)
    ensures Notify(e) in StaleActions(vs, cleared, bound) <==>
      e !in cleared && exists v :: v in vs && v.email == e && v.status == EMAIL_PENDING
    decreases |vs|
  {
    if vs != [] {
      var v := vs[0];
      StaleNotifiesExactly(vs[1..], StepCleared(v, cleared), bound, e);
      assert forall w :: w in vs <==> w == v || w in vs[1..];
    }
  }

  /** No owner is notified twice by `acts`. */
  ghost predicate NotifiedOnce(acts: seq<SweepAction>) {
    forall i, j :: 0 <= i < j < |acts| && acts[i].Notify? && acts[j].Notify? ==> acts[i].email != acts[j].email
  }

  /** No owner is notified twice in one sweep. */
  lemma {:induction false} StaleNotifiesOnce(vs: seq<Video>, cleared: set<string>, bound: int)
    ensures NotifiedOnce(StaleActions(vs, cleared, bound))
    decreases |vs|
  {
    if vs != [] {
      var v := vs[0];
      var step := StepActions(v, cleared, bound);
      var cleared' := StepCleared(v, cleared);
      var rest := StaleActions(vs[1..], cleared', bound);
      var acts := StaleActions(vs, cleared, bound);
      assert acts == step + rest;
      StaleNotifiesOnce(vs[1..], cleared', bound);
      forall i, j | 0 <= i < j < |acts| && acts[i].Notify? && acts[j].Notify?
        ensures acts[i].email != acts[j].email
      {
        assert acts[j] == rest[j - |step|];
        if i < |step| {
          assert acts[i] == step[0];
          assert v.status == EMAIL_PENDING && v.email !in cleared && acts[i] == Notify(v.email);
          assert v.email in cleared';
          assert Notify(acts[j].email) in rest by {
            assert rest[j - |step|] == Notify(acts[j].email);
          }
          StaleNotifiesExactly(vs[1..], cleared', bound, acts[j].email);
          assert acts[j].email !in cleared';
        } else {
          var i', j' := i - |step|, j - |step|;
          assert acts[i] == rest[i'] && acts[j] == rest[j'];
          assert 0 <= i' < j' < |rest| && rest[i'].Notify? && rest[j'].Notify?;
        }
      }
    }
  }

  /** Every record the sweep fails is one of the listed records, so stored when they all are. */
  lemma {:induction false} StaleFailsStored(t: VideoTable, vs: seq<Video>, cleared: set<string>, bound: int)
    requires forall i :: 0 <= i < |vs| ==> vs[i].id in t.rows
    ensures FailsStored(t, StaleActions(vs, cleared, bound))
    decreases |vs|
  {
    if vs != [] {
      var step := StepActions(vs[0], cleared, bound);
      var rest := StaleActions(vs[1..], StepCleared(vs[0], cleared), bound);
      StaleFailsStored(t, vs[1..], StepCleared(vs[0], cleared), bound);
      var acts := step + rest;
      forall i | 0 <= i < |acts| && acts[i].FailVideo?
        ensures acts[i].id in t.rows
      {
        if i >= |step| {
          assert acts[i] == rest[i - |step|];
        }
      }
    }
  }

  /** The time before which an IN_QUEUE record counts as stuck. */
  function InQueueBound(env: Env): int {
    env.now - env.settings.inQueueVideosCleanupTimeThreshold
  }

  /** `cleanupStaleVideos` over the stale records listed when it starts. */
  function CleanupStaleVideosSpec(s: ServiceState, env: Env): (r: (Outcome<Exception>, ServiceState))
    requires ServiceValid(s)
  {
    var zombies := StaleVideos(s.q.videos, env.now, env.settings.staleVideosCleanupTimeThreshold);
    RunActions(s, env, StaleActions(zombies, {}, InQueueBound(env)))
  }

  /**
   * The stale sweep never stops on an exception, since every record it fails is stored; it adds and
   * removes no record and leaves the queue and the files alone.
   */
  lemma StaleSweepPasses(s: ServiceState, env: Env)
    requires ServiceValid(s)
    ensures var (o, r) := CleanupStaleVideosSpec(s, env);
      o.Pass? && r.q.videos.rows.Keys == s.q.videos.rows.Keys && QueueKept(s, r) && FilesKept(s, r)
  {
    var zombies := StaleVideos(s.q.videos, env.now, env.settings.staleVideosCleanupTimeThreshold);
    var bound := InQueueBound(env);
    forall i | 0 <= i < |zombies| ensures zombies[i].id in s.q.videos.rows {
      assert zombies[i] in zombies;
    }
    StaleFailsStored(s.q.videos, zombies, {}, bound);
    RunActionsKeeps(s, env, StaleActions(zombies, {}, bound));
  }

  class ZombieVideoCleanup {
    const service: VideoService

    ghost predicate Valid()
      reads service, service.queue, service.queue.dao, service.queue.workerDao
    {
      service.Valid()
    }

    constructor (service: VideoService)
      requires service.Valid()
      ensures Valid() && this.service == service
    {
      this.service := service;
    }

    /** `queueUsable` and `resultsUsable` are the usable bytes of the two partitions. */
    method CleanupZombieErrors(env: Env, queueUsable: int, resultsUsable: int)
      requires Valid()
      modifies service.files`queueFiles, service.files`resultFiles
      ensures Valid()
      ensures service.State()
           == CleanupZombieErrorsSpec(old(service.State()), env.settings, FreeSpaceMb(queueUsable), FreeSpaceMb(resultsUsable), env.now)
    {
      var threshold := env.settings.zombieErrorCleanupFreeSpaceThreshold;
      if FreeSpaceMb(queueUsable) > threshold && FreeSpaceMb(resultsUsable) > threshold {
        return;
      }
      var zombies := OldErrorZombieVideos(service.dao.table, env.now, env.settings.zombieErrorCleanupTimeThreshold);
      DeleteZombieFiles(service.files, zombies);
    }

    /** The loop of `cleanupZombieErrors`: both files of every listed video go. */
    method DeleteZombieFiles(files: FileService, zombies: seq<Video>)
      modifies files`queueFiles, files`resultFiles
      ensures files.queueFiles == old(files.queueFiles) - IdsOf(zombies)
      ensures files.resultFiles == old(files.resultFiles) - IdsOf(zombies)
    {
      var i := 0;
      while i < |zombies|
        invariant 0 <= i <= |zombies|
        invariant files.queueFiles == old(files.queueFiles) - IdsOf(zombies[..i])
        invariant files.resultFiles == old(files.resultFiles) - IdsOf(zombies[..i])
      {
        assert IdsOf(zombies[..i + 1]) == IdsOf(zombies[..i]) + {zombies[i].id} by {
          assert zombies[..i + 1] == zombies[..i] + [zombies[i]];
        }
        files.DeleteQueueVideo(zombies[i].id);
        files.DeleteResultVideo(zombies[i].id);
        i := i + 1;
      }
      assert zombies[..i] == zombies;
    }

    method CleanupJobsStuckInTransitiveStates(env: Env) returns (o: Outcome<Exception>)
      requires Valid()
      modifies service.dao`table, service.mail
      ensures Valid() && (o, service.State()) == CleanupJobsStuckSpec(old(service.State()), env)
    {
      var zombies := OldTransitiveStatusZombieVideos(service.dao.table, env.now, env.settings.transitiveStatusesCleanupTimeThreshold);
      ghost var spec := RunActions(service.State(), env, FailActions(zombies));
      var i := 0;
      o := Pass;
      while i < |zombies| && o.Pass?
        invariant 0 <= i <= |zombies| && Valid()
        invariant spec == if o.Fail? then (o, service.State()) else RunActions(service.State(), env, FailActions(zombies[i..]))
      {
        assert zombies[i..][1..] == zombies[i + 1..];
        assert FailActions(zombies[i..]) == [FailVideo(zombies[i].id)] + FailActions(zombies[i + 1..]);
        o := service.FailJob(env, zombies[i].id);
        i := i + 1;
      }
    }

    method CleanupStaleVideos(env: Env) returns (o: Outcome<Exception>)
      requires Valid()
      modifies service.dao`table, service.mail
      ensures Valid() && (o, service.State()) == CleanupStaleVideosSpec(old(service.State()), env)
    {
      var zombies := StaleVideos(service.dao.table, env.now, env.settings.staleVideosCleanupTimeThreshold);
      var bound := InQueueBound(env);
      ghost var spec := RunActions(service.State(), env, StaleActions(zombies, {}, bound));
      var emailPendingCleared: set<string> := {};
      var i := 0;
      o := Pass;
      while i < |zombies| && o.Pass?
        invariant 0 <= i <= |zombies| && Valid()
        invariant spec == if o.Fail? then (o, service.State())
                          else RunActions(service.State(), env, StaleActions(zombies[i..], emailPendingCleared, bound))
      {
        assert zombies[i..][0] == zombies[i] && zombies[i..][1..] == zombies[i + 1..];
        ghost var before := service.State();
        ghost var step := StepActions(zombies[i], emailPendingCleared, bound);
        ghost var rest := StaleActions(zombies[i + 1..], StepCleared(zombies[i], emailPendingCleared), bound);
        assert StaleActions(zombies[i..], emailPendingCleared, bound) == step + rest;
        RunActionsAppend(before, env, step, rest);
        o, emailPendingCleared := SettleStale(env, zombies[i], emailPendingCleared, bound);
        assert (o, service.State()) == RunActions(before, env, step);
        i := i + 1;
      }
    }

    /** One turn of the stale sweep's loop. */
    method SettleStale(env: Env, video: Video, cleared: set<string>, bound: int) returns (o: Outcome<Exception>, cleared2: set<string>)
      requires Valid()
      modifies service.dao`table, service.mail
      ensures Valid() && (o, service.State()) == RunActions(old(service.State()), env, StepActions(video, cleared, bound))
      ensures cleared2 == StepCleared(video, cleared)
    {
      o, cleared2 := Pass, cleared;
      if video.status == EMAIL_PENDING {
        if video.email !in cleared {
          service.SendMailNotification(env, video.email);
          cleared2 := cleared + {video.email};
        }
      } else if video.status != IN_QUEUE || video.updatedAt < bound {
        o := service.FailJob(env, video.id);
      }
    }
  }
}
