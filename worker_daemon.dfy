/**
 * The master's worker sweeps (scheduled/WorkerDaemon.kt): the liveness sweep over the configured
 * workers, which marks them UP or DOWN, resubmits the work of dead ones and resets the queue once a
 * new worker is up, and the integrity sweep, which resubmits work a worker no longer reports.
 *
 * The daemon calls `reassignWorkFromDeadNode`, `reassignVideo` and `failJob` on a service; these
 * are the ones of the VideoService module. Each sweep is a pure function on a `DaemonState`, and the
 * class at the end is proved to have exactly that effect.
 */
module WorkerDaemon {
  import opened Wrappers
  import opened HttpExceptions
  import opened Model
  import opened Repositories
  import opened VideoDao
  import opened WorkerDao
  import opened WorkerGateway
  import opened WorkQueue
  import opened VideoService

  /** The service's state and the hosts whose last ping failed but that are not declared dead yet. */
  datatype DaemonState = DaemonState(s: ServiceState, maybeDown: set<string>)

  ghost predicate DaemonValid(d: DaemonState) {
    ServiceValid(d.s)
  }

  function WithWorkers(d: DaemonState, ws: map<string, Worker>): DaemonState {
    d.(s := d.s.(q := d.s.q.(workers := ws)))
  }

  /** A service-level step that leaves the set of hosts alone. */
  function LiftService(d: DaemonState, r: (Outcome<Exception>, ServiceState), up: bool): (Outcome<Exception>, DaemonState, bool) {
    (r.0, d.(s := r.1), up)
  }

  // ---- the liveness sweep ----

  /**
   * One host of `pingWorkers`. The stored worker (created DOWN if new) is compared with the ping: an
   * UP worker that answers, and a DOWN worker that does not answer and is already declared dead, are
   * skipped. Otherwise the status is saved (a failed ping counting one more down ping, a good one
   * resetting the count), and:
   * - on a failed ping the host is remembered, unless this ping declared it dead: then it is
   *   forgotten and its work resubmitted, if it had a queue;
   * - on a good ping of a remembered host it is forgotten, and its work is resubmitted when its
   *   queue size differs from the videos PROCESSING on it (a failed status request throws);
   * - on a good ping of any other host the third component, "a new worker is up", is true.
   */
  function PingHostSpec(d: DaemonState, env: Env, host: string): (r: (Outcome<Exception>, DaemonState, bool))
    requires DaemonValid(d)
    ensures DaemonValid(r.1)
  {
    var (w, ws) := GetOrCreate(d.s.q.workers, host);
    var d1 := WithWorkers(d, ws);
    var isUp := Ping(env.replies, host);
    if (w.status == UP) == isUp && (isUp || w.downPings >= env.settings.downPingsThreshold) then (Pass, d1, false)
    else
      var w2 := WithStatus(w, if isUp then UP else DOWN);
      var d2 := WithWorkers(d1, SaveWorker(ws, w2));
      if !isUp then
        var remembered := d2.(maybeDown := d2.maybeDown + {host});
        if w2.downPings >= env.settings.downPingsThreshold then
          var d3 := remembered.(maybeDown := remembered.maybeDown - {host});
          if w2.queueSize <= 0 then (Pass, d3, false)
          else LiftService(d3, ReassignWorkFromDeadNodeSpec(d3.s, env, host), false)
        else (Pass, remembered, false)
      else if host in d2.maybeDown then
        var d3 := d2.(maybeDown := d2.maybeDown - {host});
        match GetQueueStatus(env.replies, host)
        case Failure(e) => (Fail(e), d3, false)
        case Success(status) =>
          if status.size != |VideosProcessingOnNode(d3.s.q.videos, host)| then
            LiftService(d3, ReassignWorkFromDeadNodeSpec(d3.s, env, host), false)
          else (Pass, d3, false)
      else (Pass, d2, true)
  }

  /** The loop over the hosts: in order, the first exception ends the sweep; `up` is the flag so far. */
  function PingAll(d: DaemonState, env: Env, hosts: seq<(string, real)>, up: bool): (r: (Outcome<Exception>, DaemonState, bool))
    requires DaemonValid(d)
    ensures DaemonValid(r.1)
    decreases |hosts|
  {
    if hosts == [] then (Pass, d, up)
    else
      var (o, d1, u) := PingHostSpec(d, env, hosts[0].0);
      if o.Fail? then (o, d1, up || u) else PingAll(d1, env, hosts[1..], up || u)
  }

  /** `pingWorkers`: every configured worker, then one queue reset iff a new worker came up. */
  function PingWorkersSpec(d: DaemonState, env: Env): (r: (Outcome<Exception>, DaemonState))
    requires DaemonValid(d)
    ensures DaemonValid(r.1)
  {
    var (o, d1, up) := PingAll(d, env, env.settings.availableWorkers, false);
    if o.Fail? || !up then (o, d1)
    else
      var (o2, q2) := ResetQueueSpec(d1.s.q, env);
      (o2, d1.(s := d1.s.(q := q2)))
  }

  /** A stored UP worker that answers is skipped: nothing is written. */
  lemma UpWorkerSkipped(d: DaemonState, env: Env, host: string)
    requires DaemonValid(d) && host in d.s.q.workers && d.s.q.workers[host].status == UP
    requires host in env.replies.pingOk
    ensures PingHostSpec(d, env, host) == (Pass, d, false)
  {
  }

  /**
   * A stored DOWN worker that does not answer and is already declared dead is skipped, so a dead
   * worker's work is not resubmitted again on later sweeps.
   */
  lemma DeadWorkerSkipped(d: DaemonState, env: Env, host: string)
    requires DaemonValid(d) && host in d.s.q.workers && d.s.q.workers[host].status == DOWN
    requires d.s.q.workers[host].downPings >= env.settings.downPingsThreshold
    requires host !in env.replies.pingOk
    ensures PingHostSpec(d, env, host) == (Pass, d, false)
  {
  }

  /**
   * Any other failed ping saves the worker DOWN with one more down ping. The host is remembered
   * exactly while that count is below the threshold; reaching it resubmits the worker's work iff
   * its recorded queue size is positive. The flag stays down.
   */
  lemma FailedPingMarksDown(d: DaemonState, env: Env, host: string)
    requires DaemonValid(d) && host !in env.replies.pingOk
    requires var w := GetOrCreate(d.s.q.workers, host).0;
      w.status == UP || w.downPings < env.settings.downPingsThreshold
    ensures var (w, ws) := GetOrCreate(d.s.q.workers, host);
      var w2 := Worker(host, DOWN, w.queueSize, w.downPings + 1);
      var dead := w.downPings + 1 >= env.settings.downPingsThreshold;
      var d2 := WithWorkers(d, ws[host := w2]).(maybeDown := if dead then d.maybeDown - {host} else d.maybeDown + {host});
      var (o, r, up) := PingHostSpec(d, env, host);
      !up && r.maybeDown == d2.maybeDown
      && (dead && w.queueSize > 0 ==> (o, r.s) == ReassignWorkFromDeadNodeSpec(d2.s, env, host))
      && (!(dead && w.queueSize > 0) ==> o == Pass && r == d2)
  {
    var (w, ws) := GetOrCreate(d.s.q.workers, host);
    assert w.host == host;
    assert d.maybeDown + {host} - {host} == d.maybeDown - {host};
  }

  /**
   * A good ping of a stored DOWN worker that is remembered saves it UP and forgets it; its work is
   * resubmitted iff it reports a queue size other than the number of videos PROCESSING on it.
   */
  lemma RememberedWorkerRecovers(d: DaemonState, env: Env, host: string)
    requires DaemonValid(d) && host in env.replies.pingOk && host in d.maybeDown
    requires GetOrCreate(d.s.q.workers, host).0.status == DOWN
    ensures var (w, ws) := GetOrCreate(d.s.q.workers, host);
      var d3 := WithWorkers(d, ws[host := Worker(host, UP, w.queueSize, 0)]).(maybeDown := d.maybeDown - {host});
      var (o, r, up) := PingHostSpec(d, env, host);
      !up && r.maybeDown == d.maybeDown - {host}
      && (host !in env.replies.queueStatus ==> o.Fail? && r == d3)
      && (host in env.replies.queueStatus ==>
            var same := env.replies.queueStatus[host].size == |VideosProcessingOnNode(d.s.q.videos, host)|;
            (same ==> (o, r) == (Pass, d3))
            && (!same ==> (o, r.s) == ReassignWorkFromDeadNodeSpec(d3.s, env, host)))
  {
    var (w, ws) := GetOrCreate(d.s.q.workers, host);
    assert w.host == host;
  }

  /** A good ping of a stored DOWN worker that is not remembered (a new one, say) saves it UP and raises the flag. */
  lemma NewWorkerRaisesFlag(d: DaemonState, env: Env, host: string)
    requires DaemonValid(d) && host in env.replies.pingOk && host !in d.maybeDown
    requires GetOrCreate(d.s.q.workers, host).0.status == DOWN
    ensures var (w, ws) := GetOrCreate(d.s.q.workers, host);
      PingHostSpec(d, env, host) == (Pass, WithWorkers(d, ws[host := Worker(host, UP, w.queueSize, 0)]), true)
  {
    var (w, ws) := GetOrCreate(d.s.q.workers, host);
    assert w.host == host;
  }

  /** Only the hosts the sweep visits can enter or leave the remembered set. */
  lemma {:induction false} PingAllKeepsOtherHosts(d: DaemonState, env: Env, hosts: seq<(string, real)>, up: bool, h: string)
    requires DaemonValid(d)
    requires forall i :: 0 <= i < |hosts| ==> hosts[i].0 != h
    ensures h in PingAll(d, env, hosts, up).1.maybeDown <==> h in d.maybeDown
    decreases |hosts|
  {
    if hosts != [] {
      var (o, d1, u) := PingHostSpec(d, env, hosts[0].0);
      assert h in d1.maybeDown <==> h in d.maybeDown;
      if o.Pass? {
        PingAllKeepsOtherHosts(d1, env, hosts[1..], up || u, h);
      }
    }
  }

  /** The steady state: when every listed worker is stored UP and answers, the sweep changes nothing and keeps the flag. */
  lemma {:induction false} AllUpChangesNothing(d: DaemonState, env: Env, hosts: seq<(string, real)>, up: bool)
    requires DaemonValid(d)
    requires forall i :: 0 <= i < |hosts| ==> hosts[i].0 in d.s.q.workers && d.s.q.workers[hosts[i].0].status == UP
    requires forall i :: 0 <= i < |hosts| ==> hosts[i].0 in env.replies.pingOk
    ensures PingAll(d, env, hosts, up) == (Pass, d, up)
    decreases |hosts|
  {
    if hosts != [] {
      UpWorkerSkipped(d, env, hosts[0].0);
      AllUpChangesNothing(d, env, hosts[1..], up);
    }
  }

  /** With every configured worker UP and answering, `pingWorkers` leaves everything as it was and resets nothing. */
  lemma SteadySweep(d: DaemonState, env: Env)
    requires DaemonValid(d)
    requires var hosts := env.settings.availableWorkers;
      forall i :: 0 <= i < |hosts| ==> hosts[i].0 in d.s.q.workers && d.s.q.workers[hosts[i].0].status == UP && hosts[i].0 in env.replies.pingOk
    ensures PingWorkersSpec(d, env) == (Pass, d)
  {
    AllUpChangesNothing(d, env, env.settings.availableWorkers, false);
  }

  // ---- the integrity sweep ----

  /** The videos whose worker does not report them (a request that throws counts as not reported). */
  function Missing(r: Replies, vs: seq<Video>): (m: seq<Video>)
    ensures forall v :: v in m <==> v in vs && !IsVideoInQueue(r, v.node, v.id)
    ensures |m| <= |vs|
  {
    if vs == [] then []
    else (if IsVideoInQueue(r, vs[0].node, vs[0].id) then [] else [vs[0]]) + Missing(r, vs[1..])
  }

  /** The loop of `checkWorkerQueueIntegrity`: in order, the first exception ends it. */
  function IntegrityAll(s: ServiceState, env: Env, vs: seq<Video>): (r: (Outcome<Exception>, ServiceState))
    requires ServiceValid(s)
    ensures ServiceValid(r.1)
    decreases |vs|
  {
    if vs == [] then (Pass, s)
    else if IsVideoInQueue(env.replies, vs[0].node, vs[0].id) then IntegrityAll(s, env, vs[1..])
    else
      var (o, s1) := ReassignVideoSpec(s, env, vs[0]);
      if o.Fail? then (o, s1) else IntegrityAll(s1, env, vs[1..])
  }

  /** One video of that loop: left alone when its worker reports it, reassigned otherwise. */
  function IntegrityOne(s: ServiceState, env: Env, v: Video): (r: (Outcome<Exception>, ServiceState))
    requires ServiceValid(s)
    ensures ServiceValid(r.1)
  {
    if IsVideoInQueue(env.replies, v.node, v.id) then (Pass, s) else ReassignVideoSpec(s, env, v)
  }

  lemma IntegrityAllStep(s: ServiceState, env: Env, vs: seq<Video>)
    requires ServiceValid(s) && vs != []
    ensures var (o, s1) := IntegrityOne(s, env, vs[0]);
      IntegrityAll(s, env, vs) == if o.Fail? then (o, s1) else IntegrityAll(s1, env, vs[1..])
  {
  }

  /** `checkWorkerQueueIntegrity`: over the videos PROCESSING on some worker, as listed when it starts. */
  function CheckWorkerQueueIntegritySpec(s: ServiceState, env: Env): (r: (Outcome<Exception>, ServiceState))
    requires ServiceValid(s)
    ensures ServiceValid(r.1)
  {
    IntegrityAll(s, env, VideosProcessingOnWorkers(s.q.videos))
  }

  /** The sweep resubmits exactly the videos their worker does not report, in order, as `reassignWorkFromDeadNode` would. */
  lemma {:induction false} IntegrityReassignsMissing(s: ServiceState, env: Env, vs: seq<Video>)
    requires ServiceValid(s)
    ensures IntegrityAll(s, env, vs) == ReassignAll(s, env, Missing(env.replies, vs))
    decreases |vs|
  {
    if vs != [] {
      var m := Missing(env.replies, vs);
      if IsVideoInQueue(env.replies, vs[0].node, vs[0].id) {
        assert m == Missing(env.replies, vs[1..]);
        IntegrityReassignsMissing(s, env, vs[1..]);
      } else {
        assert m[0] == vs[0] && m[1..] == Missing(env.replies, vs[1..]);
        var (o, s1) := ReassignVideoSpec(s, env, vs[0]);
        if o.Pass? {
          IntegrityReassignsMissing(s1, env, vs[1..]);
        }
      }
    }
  }

  // ---- the daemon object ----

  class WorkerDaemon {
    var maybeDownWorkers: set<string>
    const service: VideoService

    ghost function State(): DaemonState
      reads this, service, service.queue, service.queue.dao, service.queue.workerDao, service.queue.files
      reads service.dao, service.files, service.mail
    {
      DaemonState(service.State(), maybeDownWorkers)
    }

    ghost predicate Valid()
      reads this, service, service.queue, service.queue.dao, service.queue.workerDao
    {
      service.Valid()
    }

    constructor (service: VideoService)
      requires service.Valid()
      ensures Valid() && this.service == service && maybeDownWorkers == {}
    {
      this.service := service;
      maybeDownWorkers := {};
    }

    method PingHost(env: Env, host: string) returns (o: Outcome<Exception>, up: bool)
      requires Valid()
      modifies this, service.queue, service.dao`table, service.queue.workerDao, service.files`queueFiles
      ensures Valid() && (o, State(), up) == PingHostSpec(old(State()), env, host)
    {
      var workers := service.queue.workerDao;
      var worker := workers.GetOrCreateWorker(host);
      var isUp := Ping(env.replies, host);
      o, up := Pass, false;
      if (worker.status == UP) == isUp {
        if isUp {
          return;
        } else if worker.downPings >= env.settings.downPingsThreshold {
          return;
        }
      }
      worker := workers.SetWorkerStatus(worker, if isUp then UP else DOWN);
      if !isUp {
        maybeDownWorkers := maybeDownWorkers + {host};
        if worker.downPings >= env.settings.downPingsThreshold {
          maybeDownWorkers := maybeDownWorkers - {host};
          if worker.queueSize <= 0 {
            return;
          }
          o := service.ReassignWorkFromDeadNode(env, host);
        }
      } else if host in maybeDownWorkers {
        maybeDownWorkers := maybeDownWorkers - {host};
        var status := GetQueueStatus(env.replies, host);
        if status.Failure? {
          return Fail(status.error), false;
        }
        if status.value.size != |VideosProcessingOnNode(service.dao.table, host)| {
          o := service.ReassignWorkFromDeadNode(env, host);
        }
      } else {
        up := true;
      }
    }

    method PingWorkers(env: Env) returns (o: Outcome<Exception>)
      requires Valid()
      modifies this, service.queue, service.dao`table, service.queue.workerDao, service.files`queueFiles
      ensures Valid() && (o, State()) == PingWorkersSpec(old(State()), env)
    {
      var hosts := env.settings.availableWorkers;
      ghost var spec := PingAll(State(), env, hosts, false);
      var newWorkersAreUp := false;
      var i := 0;
      o := Pass;
      while i < |hosts| && o.Pass?
        invariant 0 <= i <= |hosts| && Valid()
        invariant spec == if o.Fail? then (o, State(), newWorkersAreUp) else PingAll(State(), env, hosts[i..], newWorkersAreUp)
      {
        assert hosts[i..][1..] == hosts[i + 1..];
        var u;
        o, u := PingHost(env, hosts[i].0);
        newWorkersAreUp := newWorkersAreUp || u;
        i := i + 1;
      }
      if o.Pass? && newWorkersAreUp {
        o := service.queue.ResetQueue(env);
      }
    }

    /** One video of the integrity pass. */
    method CheckVideo(env: Env, video: Video) returns (o: Outcome<Exception>)
      requires Valid()
      modifies service.queue, service.dao`table, service.queue.workerDao, service.files`queueFiles
      ensures Valid() && (o, service.State()) == IntegrityOne(old(service.State()), env, video)
    {
      o := Pass;
      if !IsVideoInQueue(env.replies, video.node, video.id) {
        o := service.ReassignVideo(env, video);
      }
    }

    method CheckWorkerQueueIntegrity(env: Env) returns (o: Outcome<Exception>)
      requires Valid()
      modifies service.queue, service.dao`table, service.queue.workerDao, service.files`queueFiles
      ensures Valid() && (o, service.State()) == CheckWorkerQueueIntegritySpec(old(service.State()), env)
    {
      var videosOnWorkers := VideosProcessingOnWorkers(service.dao.table);
      ghost var spec := IntegrityAll(service.State(), env, videosOnWorkers);
      var i := 0;
      o := Pass;
      while i < |videosOnWorkers| && o.Pass?
        invariant 0 <= i <= |videosOnWorkers| && Valid()
        invariant spec == if o.Fail? then (o, service.State()) else IntegrityAll(service.State(), env, videosOnWorkers[i..])
      {
        assert videosOnWorkers[i..][0] == videosOnWorkers[i] && videosOnWorkers[i..][1..] == videosOnWorkers[i + 1..];
        IntegrityAllStep(service.State(), env, videosOnWorkers[i..]);
        o := CheckVideo(env, videosOnWorkers[i]);
        i := i + 1;
      }
    }
  }
}
