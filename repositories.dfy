/**
 * The query semantics of the two repositories (model/Repositories.kt).
 * The video store is a map from id to record together with the order in which the records were
 * inserted, so every finder returns its records in one fixed order; the worker store is a map from
 * host to worker (the host column is unique).
 */
module Repositories {
  import opened Wrappers
  import opened Model

  datatype VideoTable = VideoTable(rows: map<VideoId, Video>, order: seq<VideoId>) {
    /** Every id is listed once, exactly the stored ids are listed, and each record is stored under its own id. */
    ghost predicate Valid() {
      (forall i, j :: 0 <= i < j < |order| ==> order[i] != order[j])
      && (forall id :: id in rows <==> id in order)
      && (forall id :: id in rows ==> rows[id].id == id)
    }
  }

  const EmptyTable := VideoTable(map[], [])

  /** The records among `ids` that satisfy `p`, in the order of `ids`. */
  function Select(rows: map<VideoId, Video>, ids: seq<VideoId>, p: Video -> bool): seq<Video>
    requires forall i :: 0 <= i < |ids| ==> ids[i] in rows
  {
    if ids == [] then []
    else
      var rest := Select(rows, ids[..|ids| - 1], p);
      var v := rows[ids[|ids| - 1]];
      if p(v) then rest + [v] else rest
  }

  /** The stored ids whose records satisfy `p`. */
  ghost function Matching(t: VideoTable, p: Video -> bool): set<VideoId> {
    set id | id in t.rows && p(t.rows[id])
  }

  lemma {:induction false} SelectMembers(rows: map<VideoId, Video>, ids: seq<VideoId>, p: Video -> bool)
    requires forall i :: 0 <= i < |ids| ==> ids[i] in rows
    ensures forall v :: v in Select(rows, ids, p) <==> v.id in ids && v.id in rows && rows[v.id] == v && p(v)
    requires forall id :: id in rows ==> rows[id].id == id
  {
    if ids != [] {
      var init := ids[..|ids| - 1];
      SelectMembers(rows, init, p);
      assert ids == init + [ids[|ids| - 1]];
      forall v ensures v in Select(rows, ids, p) <==> v.id in ids && v.id in rows && rows[v.id] == v && p(v) {
        if v.id in ids && v.id !in init {
          assert v.id == ids[|ids| - 1];
        }
      }
    }
  }

  lemma {:induction false} SelectCount(rows: map<VideoId, Video>, ids: seq<VideoId>, p: Video -> bool)
    requires forall i :: 0 <= i < |ids| ==> ids[i] in rows
    requires forall i, j :: 0 <= i < j < |ids| ==> ids[i] != ids[j]
    ensures |Select(rows, ids, p)| == |set id | id in ids && id in rows && p(rows[id])|
  {
    if ids != [] {
      var init := ids[..|ids| - 1];
      var last := ids[|ids| - 1];
      SelectCount(rows, init, p);
      var before := set id | id in init && id in rows && p(rows[id]);
      var after := set id | id in ids && id in rows && p(rows[id]);
      assert last !in init by {
        forall i | 0 <= i < |init| ensures init[i] != last {
          assert ids[i] == init[i];
        }
      }
      assert ids == init + [last];
      if p(rows[last]) {
        assert after == before + {last};
      } else {
        assert after == before;
      }
    }
  }

  /** The records satisfying `p`, in insertion order. */
  function Find(t: VideoTable, p: Video -> bool): (r: seq<Video>)
    requires t.Valid()
    ensures forall v :: v in r <==> v.id in t.rows && t.rows[v.id] == v && p(v)
    ensures |r| == |Matching(t, p)|
  {
    SelectMembers(t.rows, t.order, p);
    SelectCount(t.rows, t.order, p);
    assert (set id | id in t.order && id in t.rows && p(t.rows[id])) == Matching(t, p);
    Select(t.rows, t.order, p)
  }

  /** `countAllByStatusIn`: the number of records whose status is in `statuses`. */
  function CountAllByStatusIn(t: VideoTable, statuses: set<VideoStatus>): (n: nat)
    requires t.Valid()
    ensures n == |set id | id in t.rows && t.rows[id].status in statuses|
  {
    var p := (v: Video) => v.status in statuses;
    assert Matching(t, p) == set id | id in t.rows && t.rows[id].status in statuses;
    |Find(t, p)|
  }

  /** `countAllByStatusInAndEmailEquals`: the number of records with status in `statuses` and exactly that email. */
  function CountAllByStatusInAndEmailEquals(t: VideoTable, statuses: set<VideoStatus>, email: string): (n: nat)
    requires t.Valid()
    ensures n == |set id | id in t.rows && t.rows[id].status in statuses && t.rows[id].email == email|
  {
    var p := (v: Video) => v.status in statuses && v.email == email;
    assert Matching(t, p) == set id | id in t.rows && t.rows[id].status in statuses && t.rows[id].email == email;
    |Find(t, p)|
  }

  /** `findAllByStatusInAndEmailEquals`. */
  function FindAllByStatusInAndEmailEquals(t: VideoTable, statuses: set<VideoStatus>, email: string): (r: seq<Video>)
    requires t.Valid()
    ensures forall v :: v in r <==> v.id in t.rows && t.rows[v.id] == v && v.status in statuses && v.email == email
  {
    Find(t, (v: Video) => v.status in statuses && v.email == email)
  }

  /** `findAllByStatusEqualsAndEmailEquals`: the records with exactly that status and that email. */
  function FindAllByStatusEqualsAndEmailEquals(t: VideoTable, status: VideoStatus, email: string): (r: seq<Video>)
    requires t.Valid()
    ensures forall v :: v in r <==> v.id in t.rows && t.rows[v.id] == v && v.status == status && v.email == email
  {
    Find(t, (v: Video) => v.status == status && v.email == email)
  }

  /** `findAllByStatusNotInAndEmailEquals`. */
  function FindAllByStatusNotInAndEmailEquals(t: VideoTable, statuses: set<VideoStatus>, email: string): (r: seq<Video>)
    requires t.Valid()
    ensures forall v :: v in r <==> v.id in t.rows && t.rows[v.id] == v && v.status !in statuses && v.email == email
  {
    Find(t, (v: Video) => v.status !in statuses && v.email == email)
  }

  /** `findAllByStatusEqualsAndUpdatedAtBefore`: the records with that status last saved strictly before `bound`. */
  function FindAllByStatusEqualsAndUpdatedAtBefore(t: VideoTable, status: VideoStatus, bound: int): (r: seq<Video>)
    requires t.Valid()
    ensures forall v :: v in r <==> v.id in t.rows && t.rows[v.id] == v && v.status == status && v.updatedAt < bound
  {
    Find(t, (v: Video) => v.status == status && v.updatedAt < bound)
  }

  /** `findAllByStatusInAndUpdatedAtBefore`. */
  function FindAllByStatusInAndUpdatedAtBefore(t: VideoTable, statuses: set<VideoStatus>, bound: int): (r: seq<Video>)
    requires t.Valid()
    ensures forall v :: v in r <==> v.id in t.rows && t.rows[v.id] == v && v.status in statuses && v.updatedAt < bound
  {
    Find(t, (v: Video) => v.status in statuses && v.updatedAt < bound)
  }

  /** `findAllByStatusNotInAndUpdatedAtBefore`. */
  function FindAllByStatusNotInAndUpdatedAtBefore(t: VideoTable, statuses: set<VideoStatus>, bound: int): (r: seq<Video>)
    requires t.Valid()
    ensures forall v :: v in r <==> v.id in t.rows && t.rows[v.id] == v && v.status !in statuses && v.updatedAt < bound
  {
    Find(t, (v: Video) => v.status !in statuses && v.updatedAt < bound)
  }

  /** `findAllByStatusEqualsAndNodeEquals`. */
  function FindAllByStatusEqualsAndNodeEquals(t: VideoTable, status: VideoStatus, node: string): (r: seq<Video>)
    requires t.Valid()
    ensures forall v :: v in r <==> v.id in t.rows && t.rows[v.id] == v && v.status == status && v.node == node
  {
    Find(t, (v: Video) => v.status == status && v.node == node)
  }

  /** `findAllByStatusEqualsAndNodeNot`. */
  function FindAllByStatusEqualsAndNodeNot(t: VideoTable, status: VideoStatus, node: string): (r: seq<Video>)
    requires t.Valid()
    ensures forall v :: v in r <==> v.id in t.rows && t.rows[v.id] == v && v.status == status && v.node != node
  {
    Find(t, (v: Video) => v.status == status && v.node != node)
  }

  /** `findById`. */
  function FindById(t: VideoTable, id: VideoId): (r: Option<Video>)
    requires t.Valid()
    ensures r.Some? <==> id in t.rows
    ensures r.Some? ==> r.value.id == id && r.value == t.rows[id]
  {
    if id in t.rows then Some(t.rows[id]) else None
  }

  /** The ids of the records whose `originId` is `originId`. */
  ghost function WithOriginId(t: VideoTable, originId: VideoId): set<VideoId> {
    set id | id in t.rows && t.rows[id].originId == Some(originId)
  }

  /**
   * `findByOriginId`: empty when no record has that origin id, the record when exactly one has, and the
   * persistence layer's "non-unique result" error when several have.
   */
  function FindByOriginId(t: VideoTable, originId: VideoId): (r: Result<Option<Video>, string>)
    requires t.Valid()
    ensures r == Success(None) <==> WithOriginId(t, originId) == {}
    ensures r.Success? && r.value.Some? <==> |WithOriginId(t, originId)| == 1
    ensures r.Success? && r.value.Some? ==> r.value.value in t.rows.Values && r.value.value.originId == Some(originId)
  {
    var found := Find(t, (v: Video) => v.originId == Some(originId));
    assert Matching(t, (v: Video) => v.originId == Some(originId)) == WithOriginId(t, originId);
    if |found| == 0 then Success(None)
    else if |found| == 1 then
      assert found[0].id in t.rows;
      Success(Some(found[0]))
    else Failure("IncorrectResultSizeDataAccessException")
  }

  /**
   * `save`: an existing record is overwritten and stamped `updatedAt := now`; a new one is appended,
   * stamped with both audit times.
   */
  function Save(t: VideoTable, v: Video, now: int): (r: VideoTable)
    requires t.Valid()
    ensures r.Valid()
    ensures v.id in t.rows ==> r.order == t.order && r.rows == t.rows[v.id := v.(updatedAt := now)]
    ensures v.id !in t.rows ==> r.order == t.order + [v.id] && r.rows == t.rows[v.id := v.(createdAt := now, updatedAt := now)]
  {
    if v.id in t.rows then VideoTable(t.rows[v.id := v.(updatedAt := now)], t.order)
    else VideoTable(t.rows[v.id := v.(createdAt := now, updatedAt := now)], t.order + [v.id])
  }

  /** The bulk update `setVideosReadyForUser`: every record of `email` becomes READY, whatever its status. */
  function SetVideosReadyForUser(t: VideoTable, email: string): (r: VideoTable)
    requires t.Valid()
    ensures r.Valid() && r.order == t.order && r.rows.Keys == t.rows.Keys
    ensures forall id :: id in t.rows && t.rows[id].email == email ==> r.rows[id] == t.rows[id].(status := READY)
    ensures forall id :: id in t.rows && t.rows[id].email != email ==> r.rows[id] == t.rows[id]
  {
    VideoTable(map id | id in t.rows :: if t.rows[id].email == email then t.rows[id].(status := READY) else t.rows[id], t.order)
  }

  /** `findByHostEquals` over the worker store keyed by host. */
  function FindByHostEquals(workers: map<string, Worker>, host: string): (r: Option<Worker>)
    requires forall h :: h in workers ==> workers[h].host == h
    ensures r.Some? <==> host in workers
    ensures r.Some? ==> r.value.host == host && r.value == workers[host]
  {
    if host in workers then Some(workers[host]) else None
  }
}
