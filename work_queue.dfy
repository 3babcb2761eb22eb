/**
 * The master's work queue (service/WorkQueue.kt): a deque of jobs whose head is the next job, the
 * count of local jobs being encoded, and the dispatch rule that offers the head job to this node
 * and to the remote workers in ascending order of their scores.
 *
 * The pure functions below give the effect of each operation on a `QueueState`; the class at the end
 * keeps the same state in fields and is proved to have exactly that effect. The encodes started in
 * the background are kept in `running` until the explicit completion step.
 */
module WorkQueue {
  import opened Wrappers
  import opened HttpExceptions
  import opened Model
  import opened Repositories
  import opened VideoDao
  import opened WorkerDao
  import opened FileService
  import opened WorkerGateway
  import opened EnvironmentProperties

  /** A locally originated job may go to a worker; a job received from a master may not. */
  datatype JobOrigin = LOCAL | REMOTE

  /** The closure a job runs once encoded, named by what it captured. */
  datatype Finalizer =
    | NotifyOwner(email: string)
    | ReturnToMaster(originId: VideoId, returnUrl: string)

  /** A job: the video (whose queue file is named by its id), its origin and its finalizer. */
  datatype Job = Job(videoId: VideoId, origin: JobOrigin, finalizedBy: Finalizer)

  /**
   * What the queue reads and writes: the deque (head at index 0), the running-job counter, the
   * encodes started in the background, the video records, the worker records and the queue directory.
   */
  datatype QueueState = QueueState(
    queue: seq<Job>,
    jobsExecuting: int,
    running: seq<Job>,
    videos: VideoTable,
    workers: map<string, Worker>,
    queueFiles: set<VideoId>)

  ghost predicate StateValid(s: QueueState) {
    s.videos.Valid() && WorkersValid(s.workers)
  }

  /**
   * What scheduling leaves of the records: the same ids, each with its name, owner, uploaded and
   * compressed lengths (only statuses and nodes move); and the queue directory only loses files.
   */
  ghost predicate UploadsKept(s: QueueState, r: QueueState) {
    r.videos.rows.Keys == s.videos.rows.Keys && r.queueFiles <= s.queueFiles
    && forall k :: k in s.videos.rows ==>
         r.videos.rows[k].name == s.videos.rows[k].name && r.videos.rows[k].email == s.videos.rows[k].email
         && r.videos.rows[k].originalSize == s.videos.rows[k].originalSize
         && r.videos.rows[k].compressedSize == s.videos.rows[k].compressedSize
  }

  /** What one call is given: the settings, the workers' replies and the current time. */
  datatype Env = Env(settings: Settings, replies: Replies, now: int)

  const QueueFullError: Exception := Http(QueueFull)
  /** `pop` on an empty deque. */
  const NoSuchElement: Exception := Other("NoSuchElementException")
  const RemoteExecutionInvocation: Exception := Other("RemoteExecutionInvocationException")

  // ---- admission ----

  /** `ensureQueueCanAcceptNewVideo`. */
  function EnsureQueueCanAcceptNewVideoSpec(s: QueueState, settings: Settings): (o: Outcome<Exception>)
    ensures o.Fail? <==> |s.queue| > settings.maxQueueSize
    ensures o.Fail? ==> o.error == QueueFullError
  {
    if |s.queue| > settings.maxQueueSize then Fail(QueueFullError) else Pass
  }

  // ---- the two ways to execute the head job ----

  /**
   * `executeLocally`: unless bypassed, the admission check; then, when a slot is free, the counter
   * goes up, the head is popped, marked IN_QUEUE and its encode starts; with every slot taken nothing
   * happens. (A failed pop or a missing record propagates after the counter went up.)
   */
  function ExecuteLocallySpec(s: QueueState, env: Env, bypass: bool): (r: (Outcome<Exception>, QueueState))
    requires StateValid(s)
    ensures StateValid(r.1) && UploadsKept(s, r.1)
    ensures r.1.workers == s.workers && r.1.queueFiles == s.queueFiles
  {
    if !bypass && EnsureQueueCanAcceptNewVideoSpec(s, env.settings).Fail? then (Fail(QueueFullError), s)
    else if s.jobsExecuting < env.settings.maxConcurrentLocalJobs then
      var s1 := s.(jobsExecuting := s.jobsExecuting + 1);
      if s.queue == [] then (Fail(NoSuchElement), s1)
      else
        var next := s.queue[0];
        var (o, t) := SetById(s.videos, next.videoId, SetStatus(IN_QUEUE), env.now);
        var s2 := s1.(queue := s.queue[1..], videos := t);
        if o.Fail? then (o, s2) else (Pass, s2.(running := s.running + [next]))
    else (Pass, s)
  }

  /**
   * `executeRemotely`: without a master key it throws; otherwise the job is sent, and only once the
   * send returned is the head popped and the record marked PROCESSING (on node NODE_LOCAL, as written).
   * The send reads the record's name for its header before any request, so a job whose record is
   * missing throws NoSuchElement there and nothing changes.
   */
  function ExecuteRemotelySpec(s: QueueState, env: Env, job: Job, worker: string): (r: (Outcome<Exception>, QueueState))
    requires StateValid(s)
    ensures StateValid(r.1) && UploadsKept(s, r.1)
    ensures r.1.workers == s.workers && r.1.queueFiles == s.queueFiles
    ensures r.1.jobsExecuting == s.jobsExecuting && r.1.running == s.running
    ensures r.0.Fail? ==> r.1 == s
  {
    if env.settings.myMasterKey.None? then (Fail(RemoteExecutionInvocation), s)
    else if job.videoId !in s.videos.rows then (Fail(NoSuchElement), s)
    else
      match SendWorkToWorker(env.replies, worker)
      case Fail(e) => (Fail(e), s)
      case Pass =>
        if s.queue == [] then (Fail(NoSuchElement), s)
        else
          var (o, t) := SetById(s.videos, job.videoId, Processing(NODE_LOCAL), env.now);
          (o, s.(queue := s.queue[1..], videos := t))
  }

  // ---- the candidates ----

  /** A node that may take the job, with its score (lower is better). */
  datatype Candidate = Candidate(node: string, score: real)

  /** A remote worker's score: its reported queue length weighted by its configured efficiency. */
  function Score(queueSize: int, efficiency: real): real {
    queueSize as real * efficiency
  }

  /** The order of a TreeSet compared by score alone: strictly ascending scores. */
  ghost predicate Ascending(cs: seq<Candidate>) {
    forall i, j :: 0 <= i < j < |cs| ==> cs[i].score < cs[j].score
  }

  ghost predicate HasScore(cs: seq<Candidate>, score: real) {
    exists i :: 0 <= i < |cs| && cs[i].score == score
  }

  /** `TreeSet.add` with a score comparator: a candidate whose score is already present is dropped. */
  function Insert(cs: seq<Candidate>, c: Candidate): (r: seq<Candidate>)
    requires Ascending(cs)
    ensures Ascending(r)
    ensures HasScore(cs, c.score) ==> r == cs
    ensures !HasScore(cs, c.score) ==> |r| == |cs| + 1 && forall x :: x in r <==> x in cs || x == c
  {
    if cs == [] then [c]
    else if c.score < cs[0].score then
      PrependBelow(cs, c);
      [c] + cs
    else if c.score == cs[0].score then
      assert HasScore(cs, c.score) by {
        assert cs[0].score == c.score;
      }
      cs
    else
      var rest := Insert(cs[1..], c);
      InsertStep(cs, c, rest);
      [cs[0]] + rest
  }

  /** The recursive case of `Insert`: the first candidate, then the insertion into the tail. */
  lemma InsertStep(cs: seq<Candidate>, c: Candidate, rest: seq<Candidate>)
    requires Ascending(cs) && cs != [] && c.score > cs[0].score
    requires Ascending(rest)
    requires HasScore(cs[1..], c.score) ==> rest == cs[1..]
    requires !HasScore(cs[1..], c.score) ==> |rest| == |cs[1..]| + 1 && forall x :: x in rest <==> x in cs[1..] || x == c
    ensures Ascending([cs[0]] + rest)
    ensures HasScore(cs, c.score) ==> [cs[0]] + rest == cs
    ensures !HasScore(cs, c.score) ==> |[cs[0]] + rest| == |cs| + 1 && forall x :: x in [cs[0]] + rest <==> x in cs || x == c
  {
    HasScoreTail(cs, c.score);
    PrependAscending(cs, rest);
    assert [cs[0]] + cs[1..] == cs;
    if !HasScore(cs, c.score) {
      forall x
        ensures x in [cs[0]] + rest <==> x in cs || x == c
      {
        assert x in cs <==> x == cs[0] || x in cs[1..];
      }
    }
  }

  /** A candidate scored below the first goes first and is new. */
  lemma PrependBelow(cs: seq<Candidate>, c: Candidate)
    requires Ascending(cs) && cs != [] && c.score < cs[0].score
    ensures !HasScore(cs, c.score) && Ascending([c] + cs)
  {
    forall i | 0 <= i < |cs|
      ensures cs[i].score > c.score
    {
      if i > 0 {
        assert cs[0].score < cs[i].score;
      }
    }
  }

  /** Past a first candidate of another score, the score occurs in the list iff it occurs in the tail. */
  lemma HasScoreTail(cs: seq<Candidate>, score: real)
    requires cs != [] && cs[0].score != score
    ensures HasScore(cs, score) <==> HasScore(cs[1..], score)
  {
    if HasScore(cs, score) {
      var i :| 0 <= i < |cs| && cs[i].score == score;
      assert cs[1..][i - 1].score == score;
    }
    if HasScore(cs[1..], score) {
      var i :| 0 <= i < |cs[1..]| && cs[1..][i].score == score;
      assert cs[i + 1].score == score;
    }
  }

  /** The first candidate stays first before an ascending list of candidates that all score higher. */
  lemma PrependAscending(cs: seq<Candidate>, rest: seq<Candidate>)
    requires Ascending(cs) && cs != [] && Ascending(rest)
    requires forall x :: x in rest ==> x in cs[1..] || x.score > cs[0].score
    ensures Ascending([cs[0]] + rest)
  {
    forall j | 0 <= j < |rest|
      ensures cs[0].score < rest[j].score
    {
      if rest[j] in cs[1..] {
        var k :| 0 <= k < |cs[1..]| && cs[1..][k] == rest[j];
        assert cs[k + 1] == rest[j];
      }
    }
    forall i, j | 0 <= i < j < |[cs[0]] + rest|
      ensures ([cs[0]] + rest)[i].score < ([cs[0]] + rest)[j].score
    {
      if i > 0 {
        assert ([cs[0]] + rest)[i] == rest[i - 1];
      }
      assert ([cs[0]] + rest)[j] == rest[j - 1];
    }
  }

  /** The worker statuses survive (the candidate loop writes queue sizes only); a new record is DOWN. */
  ghost predicate StatusesKept(ws: map<string, Worker>, ws2: map<string, Worker>) {
    (forall h :: h in ws ==> h in ws2 && ws2[h].status == ws[h].status)
    && (forall h :: h in ws2 && h !in ws ==> ws2[h].status == DOWN)
  }

  /** One entry of the worker list in the candidate loop: its record, its status, its reported queue. */
  function Consider(ws: map<string, Worker>, cs: seq<Candidate>, entry: (string, real), replies: Replies)
    : (r: (map<string, Worker>, seq<Candidate>))
    requires WorkersValid(ws) && Ascending(cs)
    ensures WorkersValid(r.0) && Ascending(r.1) && StatusesKept(ws, r.0)
    ensures forall h :: h != entry.0 && h in ws ==> r.0[h] == ws[h]
    ensures entry.0 in ws && ws[entry.0].status == UP && entry.0 in replies.queueStatus ==>
      r.0[entry.0].queueSize == replies.queueStatus[entry.0].size
    ensures forall x :: x in cs ==> x in r.1
  {
    var host := entry.0;
    var got := GetOrCreate(ws, host);
    var w := got.0;
    if w.status == DOWN then (got.1, cs)
    else
      var reply := GetQueueStatus(replies, host);
      if reply.Failure? then (got.1, cs)
      else
        var status := reply.value;
        var ws2 := SaveWorker(got.1, WithQueueSize(w, status.size));
        if status.isDiskFull || status.size >= status.maxSize then (ws2, cs)
        else (ws2, Insert(cs, Candidate(host, Score(status.size, entry.1))))
  }

  /** The loop over the worker list (entries in list order). */
  function CollectRemote(ws: map<string, Worker>, cs: seq<Candidate>, entries: seq<(string, real)>, replies: Replies)
    : (r: (map<string, Worker>, seq<Candidate>))
    requires WorkersValid(ws) && Ascending(cs)
    ensures WorkersValid(r.0) && Ascending(r.1) && StatusesKept(ws, r.0)
    ensures forall x :: x in cs ==> x in r.1
    decreases |entries|
  {
    if entries == [] then (ws, cs)
    else
      var (ws1, cs1) := Consider(ws, cs, entries[0], replies);
      CollectRemote(ws1, cs1, entries[1..], replies)
  }

  /** The local node competes, scored by the deque length, when the admission check passes. */
  function LocalCandidates(s: QueueState, settings: Settings): (cs: seq<Candidate>)
    ensures Ascending(cs)
  {
    if EnsureQueueCanAcceptNewVideoSpec(s, settings).Fail? then [] else [Candidate(NODE_LOCAL, |s.queue| as real)]
  }

  /** Every candidate of `execute`, in the order they are tried, and the worker records after the status requests. */
  function Candidates(s: QueueState, env: Env): (r: (map<string, Worker>, seq<Candidate>))
    requires StateValid(s)
    ensures WorkersValid(r.0) && Ascending(r.1)
  {
    var local := LocalCandidates(s, env.settings);
    if env.settings.myMasterKey.Some? then CollectRemote(s.workers, local, env.settings.availableWorkers, env.replies)
    else (s.workers, local)
  }

  // ---- trying the candidates ----

  /** No candidate took the job: the record becomes REJECTED, the queue file goes, QueueFull is thrown. */
  function RejectSpec(s: QueueState, env: Env, job: Job): (r: (Outcome<Exception>, QueueState))
    requires StateValid(s)
    ensures StateValid(r.1) && UploadsKept(s, r.1)
  {
    var (o, t) := SetById(s.videos, job.videoId, SetStatus(REJECTED), env.now);
    if o.Fail? then (o, s)
    else (Fail(QueueFullError), s.(videos := t, queueFiles := s.queueFiles - {job.videoId}))
  }

  /** Executing on one candidate: this node by name, any other name a worker. */
  function TryOne(s: QueueState, env: Env, job: Job, bypass: bool, node: string): (r: (Outcome<Exception>, QueueState))
    requires StateValid(s)
    ensures StateValid(r.1) && UploadsKept(s, r.1)
  {
    if node == NODE_LOCAL then ExecuteLocallySpec(s, env, bypass) else ExecuteRemotelySpec(s, env, job, node)
  }

  /** The candidates in order; the first that returns normally ends the search, any exception moves on. */
  function TryCandidatesSpec(s: QueueState, env: Env, job: Job, bypass: bool, cs: seq<Candidate>): (r: (Outcome<Exception>, QueueState))
    requires StateValid(s)
    ensures StateValid(r.1) && UploadsKept(s, r.1)
    decreases |cs|
  {
    if cs == [] then RejectSpec(s, env, job)
    else
      var (o, s1) := TryOne(s, env, job, bypass, cs[0].node);
      if o.Pass? then (Pass, s1) else TryCandidatesSpec(s1, env, job, bypass, cs[1..])
  }

  /** `execute`: a job from a master goes straight to this node; any other job to the best candidate. */
  function ExecuteSpec(s: QueueState, env: Env, job: Job, bypass: bool): (r: (Outcome<Exception>, QueueState))
    requires StateValid(s)
    ensures StateValid(r.1) && UploadsKept(s, r.1)
  {
    if job.origin == REMOTE then ExecuteLocallySpec(s, env, bypass)
    else
      var (ws, cs) := Candidates(s, env);
      TryCandidatesSpec(s.(workers := ws), env, job, bypass, cs)
  }

  // ---- the public operations ----

  /** `nextJob`: nothing on an empty deque; otherwise `execute` on the head, which stays in the deque. */
  function NextJobSpec(s: QueueState, env: Env, bypass: bool): (r: (Outcome<Exception>, QueueState))
    requires StateValid(s)
    ensures StateValid(r.1) && UploadsKept(s, r.1)
    ensures s.queue == [] ==> r == (Pass, s)
    ensures s.queue != [] ==> r == ExecuteSpec(s, env, s.queue[0], bypass)
  {
    if s.queue == [] then (Pass, s) else ExecuteSpec(s, env, s.queue[0], bypass)
  }

  /** `pollLast`: the deque without its last element (nothing on an empty deque). */
  function PollLast(q: seq<Job>): (r: seq<Job>)
    ensures q == [] ==> r == []
    ensures q != [] ==> r == q[..|q| - 1]
  {
    if q == [] then [] else q[..|q| - 1]
  }

  /** `addToQueue`: push at the head and run `nextJob`; on QueueFull drop the deque's last element and rethrow. */
  function AddToQueueSpec(s: QueueState, env: Env, job: Job, bypass: bool): (r: (Outcome<Exception>, QueueState))
    requires StateValid(s)
    ensures StateValid(r.1) && UploadsKept(s, r.1)
  {
    var (o, s1) := NextJobSpec(s.(queue := [job] + s.queue), env, bypass);
    if o == Fail(QueueFullError) then (o, s1.(queue := PollLast(s1.queue))) else (o, s1)
  }

  /**
   * `resetQueue` as a loop of `n` rounds: pop the head and add it again; the first exception (a pop
   * of an empty deque, or whatever `addToQueue` throws) ends the loop and propagates.
   */
  function ResetRounds(s: QueueState, env: Env, n: nat): (r: (Outcome<Exception>, QueueState))
    requires StateValid(s)
    ensures StateValid(r.1)
    decreases n
  {
    if n == 0 then (Pass, s)
    else if s.queue == [] then (Fail(NoSuchElement), s)
    else
      var (o, s1) := AddToQueueSpec(s.(queue := s.queue[1..]), env, s.queue[0], false);
      if o.Fail? then (o, s1) else ResetRounds(s1, env, n - 1)
  }

  /** `resetQueue`: one round per job in the deque when it starts. */
  function ResetQueueSpec(s: QueueState, env: Env): (r: (Outcome<Exception>, QueueState))
    requires StateValid(s)
    ensures StateValid(r.1)
  {
    ResetRounds(s, env, |s.queue|)
  }

  // ---- the background encode ----

  /** The first step of a started encode: the record becomes PROCESSING on this node. */
  function BeginLocalJobSpec(s: QueueState, env: Env, k: nat): (r: (Outcome<Exception>, QueueState))
    requires StateValid(s) && k < |s.running|
    ensures StateValid(r.1)
    ensures r.1 == s.(videos := r.1.videos)
    ensures r == (SetById(s.videos, s.running[k].videoId, Processing(NODE_LOCAL), env.now).0, r.1)
  {
    var (o, t) := SetById(s.videos, s.running[k].videoId, Processing(NODE_LOCAL), env.now);
    (o, s.(videos := t))
  }

  /**
   * The end of a started encode, whether it succeeded or not: the job leaves the running set, the
   * counter goes down by one and `nextJob` runs (its exception is lost in the executor thread).
   */
  function CompleteLocalJobSpec(s: QueueState, env: Env, k: nat): (r: (Outcome<Exception>, QueueState))
    requires StateValid(s) && k < |s.running|
    ensures StateValid(r.1)
  {
    NextJobSpec(s.(jobsExecuting := s.jobsExecuting - 1, running := s.running[..k] + s.running[k + 1..]), env, false)
  }

  // ---- properties of the dispatch rule ----

  /** A worker passes every filter of the candidate loop: stored UP, answering, not disk-full, room left. */
  ghost predicate Eligible(ws: map<string, Worker>, replies: Replies, host: string) {
    host in ws && ws[host].status == UP && host in replies.queueStatus
    && !replies.queueStatus[host].isDiskFull && replies.queueStatus[host].size < replies.queueStatus[host].maxSize
  }

  /** `c` is the candidate that some entry of the list yields when its worker is eligible: size times efficiency. */
  ghost predicate Offered(ws: map<string, Worker>, replies: Replies, entries: seq<(string, real)>, c: Candidate) {
    exists i :: 0 <= i < |entries| && Eligible(ws, replies, entries[i].0)
      && c == Candidate(entries[i].0, Score(replies.queueStatus[entries[i].0].size, entries[i].1))
  }

  lemma ConsiderSound(ws: map<string, Worker>, cs: seq<Candidate>, entry: (string, real), replies: Replies)
    requires WorkersValid(ws) && Ascending(cs)
    ensures forall c :: c in Consider(ws, cs, entry, replies).1 ==>
      c in cs || (Eligible(ws, replies, entry.0) && c == Candidate(entry.0, Score(replies.queueStatus[entry.0].size, entry.1)))
  {
  }

  /** Every candidate the worker loop adds comes from an eligible worker, scored size times efficiency. */
  lemma {:induction false} CollectRemoteSound(ws: map<string, Worker>, cs: seq<Candidate>, entries: seq<(string, real)>, replies: Replies)
    requires WorkersValid(ws) && Ascending(cs)
    ensures forall c :: c in CollectRemote(ws, cs, entries, replies).1 ==> c in cs || Offered(ws, replies, entries, c)
    decreases |entries|
  {
    if entries != [] {
      var (ws1, cs1) := Consider(ws, cs, entries[0], replies);
      ConsiderSound(ws, cs, entries[0], replies);
      CollectRemoteSound(ws1, cs1, entries[1..], replies);
      forall c | c in CollectRemote(ws, cs, entries, replies).1
        ensures c in cs || Offered(ws, replies, entries, c)
      {
        if c !in cs1 {
          OfferedLift(ws, ws1, replies, entries, c);
        } else if c !in cs {
          OfferedFirst(ws, replies, entries, c);
        }
      }
    }
  }

  lemma OfferedFirst(ws: map<string, Worker>, replies: Replies, entries: seq<(string, real)>, c: Candidate)
    requires entries != [] && Eligible(ws, replies, entries[0].0)
    requires c == Candidate(entries[0].0, Score(replies.queueStatus[entries[0].0].size, entries[0].1))
    ensures Offered(ws, replies, entries, c)
  {
  }

  /** An offer by the rest of the list, judged after the first visit, is an offer judged before it. */
  lemma OfferedLift(ws: map<string, Worker>, ws1: map<string, Worker>, replies: Replies, entries: seq<(string, real)>, c: Candidate)
    requires entries != [] && StatusesKept(ws, ws1) && Offered(ws1, replies, entries[1..], c)
    ensures Offered(ws, replies, entries, c)
  {
    var i :| 0 <= i < |entries[1..]| && Eligible(ws1, replies, entries[1..][i].0)
      && c == Candidate(entries[1..][i].0, Score(replies.queueStatus[entries[1..][i].0].size, entries[1..][i].1));
    assert entries[i + 1] == entries[1..][i];
    assert Eligible(ws, replies, entries[i + 1].0);
  }

  /** The worker loop leaves the record of a host it does not visit as it was. */
  lemma {:induction false} CollectRemoteFrame(ws: map<string, Worker>, cs: seq<Candidate>, entries: seq<(string, real)>,
                                              replies: Replies, host: string)
    requires WorkersValid(ws) && Ascending(cs) && host in ws
    requires forall i :: 0 <= i < |entries| ==> entries[i].0 != host
    ensures CollectRemote(ws, cs, entries, replies).0[host] == ws[host]
    decreases |entries|
  {
    if entries != [] {
      var (ws1, cs1) := Consider(ws, cs, entries[0], replies);
      assert forall i :: 0 <= i < |entries[1..]| ==> entries[1..][i] == entries[i + 1];
      CollectRemoteFrame(ws1, cs1, entries[1..], replies, host);
    }
  }

  /**
   * The queue size a worker reports is recorded whenever its status request is made and answered,
   * whether or not the disk-full and size filters then exclude it.
   */
  lemma {:induction false} CollectRemoteRecordsSizes(ws: map<string, Worker>, cs: seq<Candidate>, entries: seq<(string, real)>, replies: Replies)
    requires WorkersValid(ws) && Ascending(cs)
    ensures forall i :: 0 <= i < |entries| && entries[i].0 in ws && ws[entries[i].0].status == UP && entries[i].0 in replies.queueStatus ==>
      CollectRemote(ws, cs, entries, replies).0[entries[i].0].queueSize == replies.queueStatus[entries[i].0].size
    decreases |entries|
  {
    if entries != [] {
      var (ws1, cs1) := Consider(ws, cs, entries[0], replies);
      CollectRemoteRecordsSizes(ws1, cs1, entries[1..], replies);
      forall i | 0 <= i < |entries| && entries[i].0 in ws && ws[entries[i].0].status == UP && entries[i].0 in replies.queueStatus
        ensures CollectRemote(ws, cs, entries, replies).0[entries[i].0].queueSize == replies.queueStatus[entries[i].0].size
      {
        var h := entries[i].0;
        if exists j :: 1 <= j < |entries| && entries[j].0 == h {
          var j :| 1 <= j < |entries| && entries[j].0 == h;
          assert entries[1..][j - 1] == entries[j];
        } else {
          assert i == 0;
          forall k | 0 <= k < |entries[1..]|
            ensures entries[1..][k].0 != h
          {
            assert entries[1..][k] == entries[k + 1];
          }
          CollectRemoteFrame(ws1, cs1, entries[1..], replies, h);
        }
      }
    }
  }

  /**
   * The candidates of `execute` are tried in strictly ascending score, and each is this node
   * (when the admission check passes, scored by the deque length) or an eligible worker of the list,
   * asked only when this node has a master key.
   */
  lemma CandidatesSound(s: QueueState, env: Env)
    requires StateValid(s)
    ensures var cs := Candidates(s, env).1;
      Ascending(cs)
      && forall c :: c in cs ==>
        (c == Candidate(NODE_LOCAL, |s.queue| as real) && |s.queue| <= env.settings.maxQueueSize)
        || (env.settings.myMasterKey.Some? && Offered(s.workers, env.replies, env.settings.availableWorkers, c))
  {
    if env.settings.myMasterKey.Some? {
      CollectRemoteSound(s.workers, LocalCandidates(s, env.settings), env.settings.availableWorkers, env.replies);
    }
  }

  /**
   * Ties go to this node: when it competes, it stays among the candidates, and no other candidate has
   * its score (a worker scoring the same was dropped by the score-only comparison).
   */
  lemma LocalWinsTies(s: QueueState, env: Env)
    requires StateValid(s) && |s.queue| <= env.settings.maxQueueSize
    ensures var cs := Candidates(s, env).1;
      var local := Candidate(NODE_LOCAL, |s.queue| as real);
      local in cs && forall c :: c in cs && c.score == local.score ==> c == local
  {
    var cs := Candidates(s, env).1;
    var local := Candidate(NODE_LOCAL, |s.queue| as real);
    assert local in LocalCandidates(s, env.settings);
    forall c | c in cs && c.score == local.score
      ensures c == local
    {
      var i :| 0 <= i < |cs| && cs[i] == c;
      var j :| 0 <= j < |cs| && cs[j] == local;
      assert i == j;
    }
  }

  /** Every entry passing the filters: the workers' queue sizes are recorded in the store. */
  lemma CandidatesRecordSizes(s: QueueState, env: Env, i: nat)
    requires StateValid(s) && env.settings.myMasterKey.Some?
    requires i < |env.settings.availableWorkers|
    requires var h := env.settings.availableWorkers[i].0; h in s.workers && s.workers[h].status == UP && h in env.replies.queueStatus
    ensures var h := env.settings.availableWorkers[i].0;
      Candidates(s, env).0[h].queueSize == env.replies.queueStatus[h].size
  {
    CollectRemoteRecordsSizes(s.workers, LocalCandidates(s, env.settings), env.settings.availableWorkers, env.replies);
  }

  /** A job received from a master is executed on this node only: no worker is asked or sent anything. */
  lemma RemoteJobStaysLocal(s: QueueState, env: Env, job: Job, bypass: bool, replies: Replies)
    requires StateValid(s) && job.origin == REMOTE
    ensures ExecuteSpec(s, env, job, bypass) == ExecuteLocallySpec(s, env, bypass)
    ensures ExecuteSpec(s, env.(replies := replies), job, bypass) == ExecuteSpec(s, env, job, bypass)
    ensures ExecuteSpec(s, env, job, bypass).1.workers == s.workers
  {
  }

  /** A send that throws leaves the deque and everything else as it was. */
  lemma FailedSendChangesNothing(s: QueueState, env: Env, job: Job, worker: string)
    requires StateValid(s) && worker !in env.replies.acceptsWork
    ensures ExecuteRemotelySpec(s, env, job, worker).0.Fail? && ExecuteRemotelySpec(s, env, job, worker).1 == s
  {
  }

  /** A job without a record is never sent: the lookup for the file-name header throws first. */
  lemma MissingRecordNotSent(s: QueueState, env: Env, job: Job, worker: string)
    requires StateValid(s) && env.settings.myMasterKey.Some? && job.videoId !in s.videos.rows
    ensures ExecuteRemotelySpec(s, env, job, worker) == (Fail(NoSuchElement), s)
  {
  }

  /** A send that returns pops the head, and the record is then PROCESSING with node NODE_LOCAL. */
  lemma AcceptedSendPops(s: QueueState, env: Env, job: Job, worker: string)
    requires StateValid(s) && env.settings.myMasterKey.Some? && worker in env.replies.acceptsWork
    requires s.queue != [] && job.videoId in s.videos.rows
    ensures var (o, s1) := ExecuteRemotelySpec(s, env, job, worker);
      o == Pass && s1.queue == s.queue[1..]
      && s1.videos.rows[job.videoId].status == PROCESSING && s1.videos.rows[job.videoId].node == NODE_LOCAL
  {
  }

  /** A candidate that throws hands the job on to the next one, in the state the failure left. */
  lemma FailureMovesOn(s: QueueState, env: Env, job: Job, bypass: bool, cs: seq<Candidate>)
    requires StateValid(s) && cs != [] && TryOne(s, env, job, bypass, cs[0].node).0.Fail?
    ensures TryCandidatesSpec(s, env, job, bypass, cs) == TryCandidatesSpec(TryOne(s, env, job, bypass, cs[0].node).1, env, job, bypass, cs[1..])
  {
  }

  /**
   * Local dispatch with a free slot: the counter goes up by exactly one, the head is popped, marked
   * IN_QUEUE and its encode starts.
   */
  lemma LocalDispatch(s: QueueState, env: Env, bypass: bool)
    requires StateValid(s) && (bypass || |s.queue| <= env.settings.maxQueueSize)
    requires s.jobsExecuting < env.settings.maxConcurrentLocalJobs
    requires s.queue != [] && s.queue[0].videoId in s.videos.rows
    ensures var (o, s1) := ExecuteLocallySpec(s, env, bypass);
      o == Pass && s1.jobsExecuting == s.jobsExecuting + 1 && s1.queue == s.queue[1..]
      && s1.running == s.running + [s.queue[0]] && s1.videos.rows[s.queue[0].videoId].status == IN_QUEUE
  {
  }

  /** The counter only moves when a slot was free, and then by exactly one. */
  lemma LocalDispatchNeedsSlot(s: QueueState, env: Env, bypass: bool)
    requires StateValid(s)
    ensures var (_, s1) := ExecuteLocallySpec(s, env, bypass);
      s1.jobsExecuting == s.jobsExecuting
      || (s1.jobsExecuting == s.jobsExecuting + 1 && s.jobsExecuting < env.settings.maxConcurrentLocalJobs)
  {
  }

  /**
   * With every slot taken, this node returns normally and leaves the job at the head, so the
   * candidates after it are never tried.
   */
  lemma SlotsTakenStopsTheSearch(s: QueueState, env: Env, job: Job, bypass: bool, cs: seq<Candidate>)
    requires StateValid(s) && cs != [] && cs[0].node == NODE_LOCAL
    requires bypass || |s.queue| <= env.settings.maxQueueSize
    requires s.jobsExecuting >= env.settings.maxConcurrentLocalJobs
    ensures TryCandidatesSpec(s, env, job, bypass, cs) == (Pass, s)
  {
  }

  /**
   * The search fails only through the rejection: then the job's record is REJECTED, its queue file is
   * gone and QueueFull is thrown, or (for a job without a record) InternalServerError is.
   */
  lemma {:induction false} FailedSearchRejects(s: QueueState, env: Env, job: Job, bypass: bool, cs: seq<Candidate>)
    requires StateValid(s)
    ensures var (o, s1) := TryCandidatesSpec(s, env, job, bypass, cs);
      o.Fail? ==>
        (o == Fail(QueueFullError) && job.videoId in s1.videos.rows && s1.videos.rows[job.videoId].status == REJECTED
         && job.videoId !in s1.queueFiles)
        || o == Fail(Http(InternalServerError))
    decreases |cs|
  {
    if cs != [] {
      var (o, s1) := TryOne(s, env, job, bypass, cs[0].node);
      if o.Fail? {
        FailedSearchRejects(s1, env, job, bypass, cs[1..]);
      }
    }
  }

  /**
   * With no candidate at all (this node over the limit, no master key), `addToQueue` rejects the job
   * and then removes the deque's last element: the rejected job stays at the head and the job that
   * waited longest is dropped instead.
   */
  lemma RejectionPollsLast(s: QueueState, env: Env, job: Job)
    requires StateValid(s) && job.origin == LOCAL && job.videoId in s.videos.rows
    requires |s.queue| + 1 > env.settings.maxQueueSize && env.settings.myMasterKey.None?
    ensures var (o, s1) := AddToQueueSpec(s, env, job, false);
      o == Fail(QueueFullError)
      && s1.queue == PollLast([job] + s.queue)
      && (s.queue != [] ==> s1.queue == [job] + s.queue[..|s.queue| - 1])
      && s1.videos.rows[job.videoId].status == REJECTED
      && s1.queueFiles == s.queueFiles - {job.videoId}
  {
    var s0 := s.(queue := [job] + s.queue);
    assert LocalCandidates(s0, env.settings) == [];
    if s.queue != [] {
      assert ([job] + s.queue)[..|s.queue|] == [job] + s.queue[..|s.queue| - 1];
    }
  }

  lemma CollectRemoteStep(ws: map<string, Worker>, cs: seq<Candidate>, entries: seq<(string, real)>, i: nat, replies: Replies)
    requires WorkersValid(ws) && Ascending(cs) && i < |entries|
    ensures var (ws1, cs1) := Consider(ws, cs, entries[i], replies);
      CollectRemote(ws, cs, entries[i..], replies) == CollectRemote(ws1, cs1, entries[i + 1..], replies)
  {
    assert entries[i..][0] == entries[i] && entries[i..][1..] == entries[i + 1..];
  }

  lemma ResetRoundsStep(s: QueueState, env: Env, n: nat)
    requires StateValid(s) && n > 0 && s.queue != []
    ensures var (o, s1) := AddToQueueSpec(s.(queue := s.queue[1..]), env, s.queue[0], false);
      ResetRounds(s, env, n) == if o.Fail? then (o, s1) else ResetRounds(s1, env, n - 1)
  {
  }

  /**
   * On a node that is not a master, with the deque within its bound and every local slot taken,
   * each round puts the popped job back at the head and nothing takes it: the reset passes and
   * leaves the deque, in order, and everything else as it was.
   */
  lemma {:induction false} BusyResetKeepsQueue(s: QueueState, env: Env, n: nat)
    requires StateValid(s) && env.settings.myMasterKey.None?
    requires |s.queue| <= env.settings.maxQueueSize && s.jobsExecuting >= env.settings.maxConcurrentLocalJobs
    requires n == 0 || s.queue != []
    ensures ResetRounds(s, env, n) == (Pass, s)
    decreases n
  {
    if n > 0 {
      var job := s.queue[0];
      assert [job] + s.queue[1..] == s.queue;
      var s0 := s.(queue := s.queue[1..]);
      assert s0.(queue := [job] + s0.queue) == s;
      if job.origin == LOCAL {
        SlotsTakenStopsTheSearch(s, env, job, false, LocalCandidates(s, env.settings));
      }
      assert AddToQueueSpec(s0, env, job, false) == (Pass, s);
      ResetRoundsStep(s, env, n);
      BusyResetKeepsQueue(s, env, n - 1);
    }
  }

  /** Hence a whole reset of such a node changes nothing. */
  lemma BusyResetChangesNothing(s: QueueState, env: Env)
    requires StateValid(s) && env.settings.myMasterKey.None?
    requires |s.queue| <= env.settings.maxQueueSize && s.jobsExecuting >= env.settings.maxConcurrentLocalJobs
    ensures ResetQueueSpec(s, env) == (Pass, s)
  {
    BusyResetKeepsQueue(s, env, |s.queue|);
  }

  // ---- the queue as an object ----

  class WorkQueue {
    var queue: seq<Job>
    var jobsExecuting: int
    /** The encodes started on this node and not completed yet. */
    var running: seq<Job>
    const dao: VideoDao
    const workerDao: WorkerDao
    const files: FileService

    ghost function State(): QueueState
      reads this, dao, workerDao, files
    {
      QueueState(queue, jobsExecuting, running, dao.table, workerDao.workers, files.queueFiles)
    }

    ghost predicate Valid()
      reads this, dao, workerDao
    {
      dao.Valid() && workerDao.Valid()
    }

    constructor (dao: VideoDao, workerDao: WorkerDao, files: FileService)
      requires dao.Valid() && workerDao.Valid()
      ensures Valid() && this.dao == dao && this.workerDao == workerDao && this.files == files
      ensures queue == [] && jobsExecuting == 0 && running == []
    {
      this.dao, this.workerDao, this.files := dao, workerDao, files;
      queue, jobsExecuting, running := [], 0, [];
    }

    method GetQueueSize() returns (n: nat)
      ensures n == |queue|
    {
      n := |queue|;
    }

    method EnsureQueueCanAcceptNewVideo(settings: Settings) returns (o: Outcome<Exception>)
      ensures o == EnsureQueueCanAcceptNewVideoSpec(State(), settings)
    {
      var size := GetQueueSize();
      if size > settings.maxQueueSize {
        return Fail(QueueFullError);
      }
      o := Pass;
    }

    method ExecuteLocally(env: Env, bypass: bool) returns (o: Outcome<Exception>)
      requires Valid()
      modifies this, dao`table
      ensures Valid() && (o, State()) == ExecuteLocallySpec(old(State()), env, bypass)
    {
      ghost var s0 := State();
      if !bypass {
        o := EnsureQueueCanAcceptNewVideo(env.settings);
        if o.Fail? {
          return;
        }
      }
      if jobsExecuting < env.settings.maxConcurrentLocalJobs {
        jobsExecuting := jobsExecuting + 1;
        if queue == [] {
          return Fail(NoSuchElement);
        }
        var next := queue[0];
        queue := queue[1..];
        o := dao.SetVideoInQueue(next.videoId, env.now);
        ghost var s2 := s0.(jobsExecuting := s0.jobsExecuting + 1, queue := s0.queue[1..], videos := dao.table);
        assert State() == s2;
        if o.Pass? {
          running := running + [next];
        }
      } else {
        o := Pass;
      }
    }

    method ExecuteRemotely(env: Env, job: Job, worker: string) returns (o: Outcome<Exception>)
      requires Valid()
      modifies this, dao`table
      ensures Valid() && (o, State()) == ExecuteRemotelySpec(old(State()), env, job, worker)
    {
      if env.settings.myMasterKey.None? {
        return Fail(RemoteExecutionInvocation);
      }
      var video := FindById(dao.table, job.videoId);
      if video.None? {
        return Fail(NoSuchElement);
      }
      o := SendWorkToWorker(env.replies, worker);
      if o.Fail? {
        return;
      }
      if queue == [] {
        return Fail(NoSuchElement);
      }
      queue := queue[1..];
      o := dao.SetVideoProcessing(job.videoId, NODE_LOCAL, env.now);
    }

    /** The candidate set of `execute`: this node first, then the worker loop. */
    method CollectCandidates(env: Env) returns (cs: seq<Candidate>)
      requires Valid()
      modifies workerDao
      ensures Valid() && (workerDao.workers, cs) == Candidates(old(State()), env)
    {
      var admitted := EnsureQueueCanAcceptNewVideo(env.settings);
      var size := GetQueueSize();
      cs := if admitted.Fail? then [] else [Candidate(NODE_LOCAL, size as real)];
      if env.settings.myMasterKey.None? {
        return;
      }
      ghost var local := cs;
      var entries := env.settings.availableWorkers;
      var i := 0;
      while i < |entries|
        invariant 0 <= i <= |entries| && Valid() && Ascending(cs)
        invariant CollectRemote(old(workerDao.workers), local, entries, env.replies)
               == CollectRemote(workerDao.workers, cs, entries[i..], env.replies)
      {
        CollectRemoteStep(workerDao.workers, cs, entries, i, env.replies);
        cs := VisitWorker(entries[i], env.replies, cs);
        i := i + 1;
      }
    }

    /** One round of the worker loop: a worker stored DOWN, not answering, disk-full or at its limit is skipped. */
    method VisitWorker(entry: (string, real), replies: Replies, cs: seq<Candidate>) returns (cs2: seq<Candidate>)
      requires Valid() && Ascending(cs)
      modifies workerDao
      ensures Valid() && (workerDao.workers, cs2) == Consider(old(workerDao.workers), cs, entry, replies)
    {
      var (host, efficiency) := entry;
      var w := workerDao.GetOrCreateWorker(host);
      cs2 := cs;
      if w.status == DOWN {
        return;
      }
      var status := GetQueueStatus(replies, host);
      if status.Failure? {
        return;
      }
      w := workerDao.SetWorkerQueueSize(w, status.value.size);
      if status.value.isDiskFull || status.value.size >= status.value.maxSize {
        return;
      }
      cs2 := Insert(cs, Candidate(host, Score(status.value.size, efficiency)));
    }

    method Reject(env: Env, job: Job) returns (o: Outcome<Exception>)
      requires Valid()
      modifies dao`table, files`queueFiles
      ensures Valid() && (o, State()) == RejectSpec(old(State()), env, job)
    {
      o := dao.SetVideoRejected(job.videoId, env.now);
      if o.Fail? {
        return;
      }
      files.DeleteQueueVideo(job.videoId);
      o := Fail(QueueFullError);
    }

    /** One candidate: this node runs the job itself, a worker is sent it. */
    method TryNode(env: Env, job: Job, bypass: bool, node: string) returns (o: Outcome<Exception>)
      requires Valid()
      modifies this, dao`table
      ensures Valid() && (o, State()) == TryOne(old(State()), env, job, bypass, node)
    {
      if node == NODE_LOCAL {
        o := ExecuteLocally(env, bypass);
      } else {
        o := ExecuteRemotely(env, job, node);
      }
    }

    /** The candidates in ascending score; the first that returns normally ends the search. */
    method TryCandidates(env: Env, job: Job, bypass: bool, cs: seq<Candidate>) returns (o: Outcome<Exception>)
      requires Valid()
      modifies this, dao`table, files`queueFiles
      ensures Valid() && (o, State()) == TryCandidatesSpec(old(State()), env, job, bypass, cs)
    {
      ghost var spec := TryCandidatesSpec(State(), env, job, bypass, cs);
      var i := 0;
      while i < |cs|
        invariant 0 <= i <= |cs| && Valid()
        invariant spec == TryCandidatesSpec(State(), env, job, bypass, cs[i..])
      {
        ghost var before := State();
        assert cs[i..][0] == cs[i] && cs[i..][1..] == cs[i + 1..];
        o := TryNode(env, job, bypass, cs[i].node);
        if o.Pass? {
          assert spec == (Pass, State());
          return;
        }
        assert spec == TryCandidatesSpec(TryOne(before, env, job, bypass, cs[i].node).1, env, job, bypass, cs[i + 1..]);
        i := i + 1;
      }
      o := Reject(env, job);
    }

    method Execute(env: Env, job: Job, bypass: bool) returns (o: Outcome<Exception>)
      requires Valid()
      modifies this, dao`table, workerDao, files`queueFiles
      ensures Valid() && (o, State()) == ExecuteSpec(old(State()), env, job, bypass)
    {
      if job.origin == REMOTE {
        o := ExecuteLocally(env, bypass);
        return;
      }
      var cs := CollectCandidates(env);
      o := TryCandidates(env, job, bypass, cs);
    }

    method NextJob(env: Env, bypass: bool) returns (o: Outcome<Exception>)
      requires Valid()
      modifies this, dao`table, workerDao, files`queueFiles
      ensures Valid() && (o, State()) == NextJobSpec(old(State()), env, bypass)
    {
      if queue == [] {
        return Pass;
      }
      o := Execute(env, queue[0], bypass);
    }

    method AddToQueue(env: Env, job: Job, bypass: bool) returns (o: Outcome<Exception>)
      requires Valid()
      modifies this, dao`table, workerDao, files`queueFiles
      ensures Valid() && (o, State()) == AddToQueueSpec(old(State()), env, job, bypass)
    {
      queue := [job] + queue;
      o := NextJob(env, bypass);
      if o == Fail(QueueFullError) {
        queue := PollLast(queue);
      }
    }

    method ResetQueue(env: Env) returns (o: Outcome<Exception>)
      requires Valid()
      modifies this, dao`table, workerDao, files`queueFiles
      ensures Valid() && (o, State()) == ResetQueueSpec(old(State()), env)
    {
      var n := |queue|;
      ghost var spec := ResetQueueSpec(State(), env);
      var i := 0;
      o := Pass;
      while i < n && o.Pass?
        invariant 0 <= i <= n && Valid()
        invariant spec == if o.Fail? then (o, State()) else ResetRounds(State(), env, n - i)
      {
        o := ResetRound(env, n - i);
        i := i + 1;
      }
    }

    /** One round of the loop: an empty deque throws, otherwise the head is taken off and added again. */
    method ResetRound(env: Env, ghost m: nat) returns (o: Outcome<Exception>)
      requires Valid() && m > 0
      modifies this, dao`table, workerDao, files`queueFiles
      ensures Valid()
      ensures ResetRounds(old(State()), env, m) == if o.Fail? then (o, State()) else ResetRounds(State(), env, m - 1)
    {
      if queue == [] {
        return Fail(NoSuchElement);
      }
      ResetRoundsStep(State(), env, m);
      o := ReaddHead(env);
    }

    /** One round of `resetQueue`: pop the head and add it again. */
    method ReaddHead(env: Env) returns (o: Outcome<Exception>)
      requires Valid() && queue != []
      modifies this, dao`table, workerDao, files`queueFiles
      ensures Valid()
      ensures (o, State()) == AddToQueueSpec(old(State()).(queue := old(queue)[1..]), env, old(queue)[0], false)
    {
      var top := queue[0];
      queue := queue[1..];
      o := AddToQueue(env, top, false);
    }

    /** The start of the encode of the `k`-th started job. */
    method BeginLocalJob(env: Env, k: nat) returns (o: Outcome<Exception>)
      requires Valid() && k < |running|
      modifies dao`table
      ensures Valid() && (o, State()) == BeginLocalJobSpec(old(State()), env, k)
    {
      o := dao.SetVideoProcessing(running[k].videoId, NODE_LOCAL, env.now);
    }

    /** The end of the encode of the `k`-th started job: frees its slot and moves the queue. */
    method CompleteLocalJob(env: Env, k: nat) returns (o: Outcome<Exception>)
      requires Valid() && k < |running|
      modifies this, dao`table, workerDao, files`queueFiles
      ensures Valid() && (o, State()) == CompleteLocalJobSpec(old(State()), env, k)
    {
      running := running[..k] + running[k + 1..];
      jobsExecuting := jobsExecuting - 1;
      o := NextJob(env, false);
    }

    /** An encode run that threw before its end: the job is no longer running, and its slot stays taken. */
    method AbandonLocalJob(k: nat)
      requires k < |running|
      modifies `running
      ensures running == old(running[..k] + running[k + 1..])
    {
      running := running[..k] + running[k + 1..];
    }
  }
}
