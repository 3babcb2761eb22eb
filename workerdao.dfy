/**
 * The worker store's data-access object (dao/WorkerDao.kt): get-or-create by host, plus the two
 * setters the dispatch rule and the liveness sweep call on a worker entity.
 */
module WorkerDao {
  import opened Wrappers
  import opened Model
  import opened Repositories

  /** The store keeps each worker under its own host (the host column is unique). */
  ghost predicate WorkersValid(ws: map<string, Worker>) {
    forall h :: h in ws ==> ws[h].host == h
  }

  /**
   * `getOrCreateWorker`: the stored worker for the host, or a new one (DOWN, empty queue, no failed
   * pings) that is saved and returned.
   */
  function GetOrCreate(ws: map<string, Worker>, host: string): (r: (Worker, map<string, Worker>))
    requires WorkersValid(ws)
    ensures WorkersValid(r.1) && host in r.1 && r.0 == r.1[host] && r.0.host == host
    ensures host in ws ==> r == (ws[host], ws)
    ensures host !in ws ==> r.0 == Worker(host, DOWN, 0, 0) && r.1 == ws[host := r.0]
  {
    match FindByHostEquals(ws, host)
    case Some(w) => (w, ws)
    case None =>
      var w := Worker(host, DOWN, 0, 0);
      (w, ws[host := w])
  }

  /** Asking twice for the same host leaves the store as the first call left it, with that one record. */
  lemma GetOrCreateIdempotent(ws: map<string, Worker>, host: string)
    requires WorkersValid(ws)
    ensures var (w1, ws1) := GetOrCreate(ws, host);
            var (w2, ws2) := GetOrCreate(ws1, host);
            w2 == w1 && ws2 == ws1 && ws1.Keys == ws.Keys + {host}
  {
  }

  /** Get-or-create touches no worker of another host. */
  lemma GetOrCreateFrame(ws: map<string, Worker>, host: string)
    requires WorkersValid(ws)
    ensures var (_, ws1) := GetOrCreate(ws, host);
            forall h :: h != host ==> (h in ws1 <==> h in ws) && (h in ws ==> ws1[h] == ws[h])
  {
  }

  /**
   * `setWorkerStatus` (dao/WorkerDao.kt declares no such method; what it does is assumed here): the status
   * is set, and the count of failed pings is reset by UP and incremented by DOWN.
   */
  function WithStatus(w: Worker, s: WorkerStatus): (r: Worker)
    ensures r.host == w.host && r.status == s && r.queueSize == w.queueSize
    ensures s == UP ==> r.downPings == 0
    ensures s == DOWN ==> r.downPings == w.downPings + 1
  {
    w.(status := s, downPings := if s == UP then 0 else w.downPings + 1)
  }

  /** `setWorkerQueueSize` (declared nowhere in dao/WorkerDao.kt either): the reported size is recorded. */
  function WithQueueSize(w: Worker, size: int): (r: Worker)
    ensures r.host == w.host && r.status == w.status && r.downPings == w.downPings && r.queueSize == size
  {
    w.(queueSize := size)
  }

  /** Saving an entity writes it under its host and leaves the other workers alone. */
  function SaveWorker(ws: map<string, Worker>, w: Worker): (r: map<string, Worker>)
    requires WorkersValid(ws)
    ensures WorkersValid(r) && r.Keys == ws.Keys + {w.host} && r[w.host] == w
    ensures forall h :: h in ws && h != w.host ==> r[h] == ws[h]
  {
    ws[w.host := w]
  }

  class WorkerDao {
    var workers: map<string, Worker>

    ghost predicate Valid()
      reads this
    {
      WorkersValid(workers)
    }

    constructor ()
      ensures Valid() && workers == map[]
    {
      workers := map[];
    }

    method GetOrCreateWorker(host: string) returns (w: Worker)
      requires Valid()
      modifies this
      ensures Valid() && (w, workers) == GetOrCreate(old(workers), host)
    {
      var found := FindByHostEquals(workers, host);
      if found.Some? {
        return found.value;
      }
      w := Worker(host, DOWN, 0, 0);
      workers := workers[host := w];
    }

    /** Updates the entity (the caller keeps using the returned value) and saves it. */
    method SetWorkerStatus(w: Worker, s: WorkerStatus) returns (w2: Worker)
      requires Valid()
      modifies this
      ensures Valid() && w2 == WithStatus(w, s) && workers == SaveWorker(old(workers), w2)
    {
      w2 := WithStatus(w, s);
      workers := workers[w2.host := w2];
    }

    method SetWorkerQueueSize(w: Worker, size: int) returns (w2: Worker)
      requires Valid()
      modifies this
      ensures Valid() && w2 == WithQueueSize(w, size) && workers == SaveWorker(old(workers), w2)
    {
      w2 := WithQueueSize(w, size);
      workers := workers[w2.host := w2];
    }
  }
}
