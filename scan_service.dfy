/** The scan service: `create`, `updateScanStatus`, `findAll` and `findOne`
    over the `scans` table and the scan queue. The table is a map from id to
    row; the queue is the `ScanQueueService` object. The database, the uuid
    generator and the clock enter as parameters: the id a save generates, the
    time, and whether a save or an enqueue fails. */
module ScanService {
  import opened Wrappers
  import opened Json
  import opened ScanEntity
  import Q = ScanQueue

  /** Why the database refuses a write. These are the database's rules for the
      `scans` table, not code of the service. */
  datatype DbRejection =
    | ValueTooLong           // a varchar bound is exceeded
    | InvalidEnumValue       // a status outside the enum
    | UnknownProperty(name: string)  // an update names a property that is no column

  /** What the service methods throw: an error raised below them and rethrown
      unchanged, or the database's refusal. */
  datatype ServiceError = Raised(thrown: Q.Thrown) | Rejected(reason: DbRejection)

  /** What the ORM does with an update property that names no column. Which
      one applies depends on the ORM version, which is not part of the model. */
  datatype UnknownPropertyPolicy = DropUnknown | RejectUnknown

  /** The columns of the `scans` table. */
  const ScanColumns: set<string> := {"id", "url", "userId", "status", "results", "createdAt", "updatedAt"}

  /** The object `updateScanStatus` hands to the repository. `result` and
      `completedAt` are set only when the given result is truthy. */
  datatype UpdateData = UpdateData(status: string, updatedAt: int, result: Option<Json>, completedAt: Option<int>)

  function BuildUpdateData(status: string, result: Json, now: int): (u: UpdateData)
    ensures u.status == status && u.updatedAt == now
    ensures u.result.Some? <==> Truthy(result)
    ensures u.completedAt.Some? <==> Truthy(result)
    ensures u.result.Some? ==> u.result.value == result && u.completedAt == Some(now)
  {
    if Truthy(result) then UpdateData(status, now, Some(result), Some(now))
    else UpdateData(status, now, None, None)
  }

  /** The property names the update object carries. */
  function UpdateKeys(u: UpdateData): set<string> {
    {"status", "updatedAt"}
    + (if u.result.Some? then {"result"} else {})
    + (if u.completedAt.Some? then {"completedAt"} else {})
  }

  /** The update never names the `results` column: a given result is written
      under `result`, and it and `completedAt` are exactly the properties that
      name no column. */
  lemma UpdateMissesResultsColumn(status: string, result: Json, now: int)
    ensures "results" !in UpdateKeys(BuildUpdateData(status, result, now))
    ensures UpdateKeys(BuildUpdateData(status, result, now)) - ScanColumns
         == (if Truthy(result) then {"result", "completedAt"} else {})
  {
  }

  predicate NewestFirst(s: seq<Scan>) {
    forall i, j :: 0 <= i < j < |s| ==> s[i].createdAt >= s[j].createdAt
  }

  predicate DistinctIds(s: seq<Scan>) {
    forall i, j :: 0 <= i < j < |s| ==> s[i].id != s[j].id
  }

  /** Places one row into a list that is newest first, before the rows it is
      not older than. */
  function InsertNewestFirst(s: seq<Scan>, x: Scan): (r: seq<Scan>)
    ensures |r| == |s| + 1
    ensures multiset(r) == multiset(s) + multiset{x}
  {
    if s == [] then [x]
    else if x.createdAt >= s[0].createdAt then [x] + s
    else
      assert s == [s[0]] + s[1..];
      [s[0]] + InsertNewestFirst(s[1..], x)
  }

  lemma InsertNewestFirstMembers(s: seq<Scan>, x: Scan)
    ensures forall y :: y in InsertNewestFirst(s, x) <==> y in s || y == x
  {
    var r := InsertNewestFirst(s, x);
    forall y ensures y in r <==> y in s || y == x {
      assert y in r <==> y in multiset(r);
      assert y in s <==> y in multiset(s);
    }
  }

  /** Insertion keeps a newest-first list newest first. */
  lemma {:induction false} InsertKeepsNewestFirst(s: seq<Scan>, x: Scan)
    requires NewestFirst(s)
    ensures NewestFirst(InsertNewestFirst(s, x))
  {
    if s != [] && x.createdAt < s[0].createdAt {
      var t := s[1..];
      assert NewestFirst(t) by {
        forall i, j | 0 <= i < j < |t| ensures t[i].createdAt >= t[j].createdAt {
          assert t[i] == s[i + 1] && t[j] == s[j + 1];
        }
      }
      InsertKeepsNewestFirst(t, x);
      var rest := InsertNewestFirst(t, x);
      InsertNewestFirstMembers(t, x);
      forall j | 0 <= j < |rest| ensures rest[j].createdAt <= s[0].createdAt {
        var y := rest[j];
        assert y in rest;
        if y != x {
          var k :| 0 <= k < |t| && t[k] == y;
          assert s[k + 1] == y;
        }
      }
      var r := [s[0]] + rest;
      forall i, j | 0 <= i < j < |r| ensures r[i].createdAt >= r[j].createdAt {
        if i > 0 {
          assert r[i] == rest[i - 1] && r[j] == rest[j - 1];
        } else {
          assert r[j] == rest[j - 1];
        }
      }
    } else if s != [] {
      var r := [x] + s;
      forall i, j | 0 <= i < j < |r| ensures r[i].createdAt >= r[j].createdAt {
        if i > 0 {
          assert r[i] == s[i - 1] && r[j] == s[j - 1];
        } else {
          assert r[j] == s[j - 1];
        }
      }
    }
  }

  /** Inserting a row whose id is not in the list yet keeps ids distinct. */
  lemma {:induction false} InsertKeepsIdsDistinct(s: seq<Scan>, x: Scan)
    requires DistinctIds(s)
    requires forall y :: y in s ==> y.id != x.id
    ensures DistinctIds(InsertNewestFirst(s, x))
  {
    if s != [] && x.createdAt < s[0].createdAt {
      var t := s[1..];
      assert DistinctIds(t) by {
        forall i, j | 0 <= i < j < |t| ensures t[i].id != t[j].id {
          assert t[i] == s[i + 1] && t[j] == s[j + 1];
        }
      }
      assert forall y :: y in t ==> y in s;
      InsertKeepsIdsDistinct(t, x);
      var rest := InsertNewestFirst(t, x);
      InsertNewestFirstMembers(t, x);
      forall j | 0 <= j < |rest| ensures rest[j].id != s[0].id {
        var y := rest[j];
        assert y in rest;
        if y != x {
          var k :| 0 <= k < |t| && t[k] == y;
          assert s[k + 1] == y;
        }
      }
      var r := [s[0]] + rest;
      forall i, j | 0 <= i < j < |r| ensures r[i].id != r[j].id {
        if i > 0 {
          assert r[i] == rest[i - 1] && r[j] == rest[j - 1];
        } else {
          assert r[j] == rest[j - 1];
        }
      }
    } else if s != [] {
      var r := [x] + s;
      forall i, j | 0 <= i < j < |r| ensures r[i].id != r[j].id {
        if i > 0 {
          assert r[i] == s[i - 1] && r[j] == s[j - 1];
        } else {
          assert r[j] == s[j - 1];
          assert r[j] in s;
        }
      }
    }
  }

  /** `r` holds, newest first and once each, exactly the rows of `done`. */
  ghost predicate Collected(rows: map<string, Scan>, r: seq<Scan>, done: set<string>)
  {
    && done <= rows.Keys
    && NewestFirst(r) && DistinctIds(r)
    && (forall s :: s in r ==> s.id in done && rows[s.id] == s)
    && (forall id :: id in done ==> rows[id] in r)
    && |r| == |done|
  }

  lemma CollectStep(rows: map<string, Scan>, r: seq<Scan>, done: set<string>, id: string)
    requires forall k :: k in rows ==> rows[k].id == k
    requires Collected(rows, r, done)
    requires id in rows && id !in done
    ensures Collected(rows, InsertNewestFirst(r, rows[id]), done + {id})
  {
    var x := rows[id];
    InsertNewestFirstMembers(r, x);
    InsertKeepsNewestFirst(r, x);
    InsertKeepsIdsDistinct(r, x);
  }

  /** Every row of the table once, newest first: one insertion per key, in
      whatever order the keys come. */
  method CollectNewestFirst(rows: map<string, Scan>) returns (r: seq<Scan>)
    requires forall k :: k in rows ==> rows[k].id == k
    ensures Collected(rows, r, rows.Keys)
  {
    var remaining := rows.Keys;
    ghost var done: set<string> := {};
    r := [];
    while remaining != {}
      invariant done + remaining == rows.Keys && done !! remaining
      invariant Collected(rows, r, done)
      decreases remaining
    {
      var id :| id in remaining;
      CollectStep(rows, r, done, id);
      r := InsertNewestFirst(r, rows[id]);
      remaining := remaining - {id};
      done := done + {id};
    }
    assert done == rows.Keys;
  }

  class ScanService {
    /** The `scans` table, by id. */
    var records: map<string, Scan>
    const queue: Q.ScanQueueService
    const policy: UnknownPropertyPolicy

    ghost predicate Valid()
      reads this, queue
    {
      && queue.Valid()
      && (forall id :: id in records ==> records[id].id == id && ValidScan(records[id]))
      // every job refers to a saved row and carries its url and user
      && (forall id :: id in queue.jobs ==>
            id in records && queue.jobs[id].data.url == records[id].url
            && queue.jobs[id].data.userId == Some(records[id].userId))
    }

    constructor (queue: Q.ScanQueueService, policy: UnknownPropertyPolicy)
      requires queue.Valid() && queue.jobs == map[]
      ensures Valid() && records == map[] && this.queue == queue && this.policy == policy
    {
      this.queue := queue;
      this.policy := policy;
      records := map[];
    }

    /** `create`: save a pending row, then enqueue its job. `now` is the
        application's `new Date()` written to `createdAt`; `newId` and
        `dbNow` are the uuid and the insert time the database generates; `saveFailure` and `enqueueFailure` are the
        errors the database and the queue raise, if any. A failed enqueue
        leaves the saved row in place (there is no rollback) and is rethrown. */
    method Create(url: string, userId: string, newId: string, now: int, dbNow: int,
                  saveFailure: Option<Q.Thrown>, enqueueFailure: Option<Q.Thrown>)
      returns (r: Result<Scan, ServiceError>)
      requires Valid()
      requires newId != "" && newId !in records
      modifies this, queue
      ensures Valid() && queue.dispatches == old(queue.dispatches)
      // the save fails: nothing changes
      ensures !FitsColumns(url, userId) ==> r == Err(Rejected(ValueTooLong))
      ensures FitsColumns(url, userId) && saveFailure.Some? ==> r == Err(Raised(saveFailure.value))
      ensures r.Err? && !(FitsColumns(url, userId) && saveFailure.None?) ==>
        records == old(records) && queue.jobs == old(queue.jobs)
      // the save succeeds: the row is there whatever happens to the enqueue
      ensures FitsColumns(url, userId) && saveFailure.None? ==> (
        var saved := NewScan(newId, url, userId, now, dbNow);
        && records == old(records)[newId := saved]
        && (enqueueFailure.Some? ==>
              r == Err(Raised(Q.ErrorObject(Q.AddScanJobError(enqueueFailure.value))))
              && queue.jobs == old(queue.jobs))
        && (enqueueFailure.None? ==>
              r == Ok(saved)
              && queue.jobs.Keys == old(queue.jobs).Keys + {newId}
              && queue.jobs[newId].data == Q.ScanJobData(newId, url, Some(userId), None, None)
              && queue.jobs[newId].opts == Q.JobOptions(0, 3, newId)
              && queue.jobs[newId].state == Q.Waiting
              && (forall id :: id in old(queue.jobs) ==> queue.jobs[id] == old(queue.jobs)[id])))
    {
      if !FitsColumns(url, userId) {
        return Err(Rejected(ValueTooLong));
      }
      if saveFailure.Some? {
        return Err(Raised(saveFailure.value));
      }
      var saved := NewScan(newId, url, userId, now, dbNow);
      records := records[newId := saved];
      var data := Q.ScanJobData(newId, url, Some(userId), None, None);
      var added := queue.AddScanJob(data, enqueueFailure);
      if added.Err? {
        return Err(Raised(Q.ErrorObject(added.error)));
      }
      r := Ok(saved);
    }

    /** `updateScanStatus`: write the status and `updatedAt` whatever the
        current status is (there is no transition check), then read the row
        back. A given result is not stored: it is sent as `result`, which is no
        column, and is either dropped or refused by the ORM. An unknown id
        updates nothing and reads back nothing. */
    method UpdateScanStatus(id: string, status: string, result: Json, now: int)
      returns (r: Result<Option<Scan>, ServiceError>)
      requires Valid()
      modifies this
      ensures Valid()
      // the ORM refuses the unknown property while building the query, before
      // the database sees the status
      ensures Truthy(result) && policy == RejectUnknown ==>
        r == Err(Rejected(UnknownProperty("result"))) && records == old(records)
      ensures !(Truthy(result) && policy == RejectUnknown) && ParseStatus(status).None? ==>
        r == Err(Rejected(InvalidEnumValue)) && records == old(records)
      ensures ParseStatus(status).Some? && !(Truthy(result) && policy == RejectUnknown) ==> (
        && (id in old(records) ==>
              && records == old(records)[id := old(records)[id].(status := ParseStatus(status).value, updatedAt := now)]
              && r == Ok(Some(records[id])))
        && (id !in old(records) ==> records == old(records) && r == Ok(None)))
    {
      var u := BuildUpdateData(status, result, now);
      if u.result.Some? && policy == RejectUnknown {
        return Err(Rejected(UnknownProperty("result")));
      }
      var parsed := ParseStatus(u.status);
      if parsed.None? {
        return Err(Rejected(InvalidEnumValue));
      }
      if id in records {
        records := records[id := records[id].(status := parsed.value, updatedAt := u.updatedAt)];
      }
      var found := FindOne(id);
      r := Ok(found);
    }

    /** `findOne`: the row with this id, or nothing. */
    method FindOne(id: string) returns (r: Option<Scan>)
      requires Valid()
      ensures r.Some? <==> id in records
      ensures r.Some? ==> r.value == records[id] && r.value.id == id
    {
      if id in records {
        r := Some(records[id]);
      } else {
        r := None;
      }
    }

    /** `findAll`: every row once, newest first by `createdAt`. */
    method FindAll() returns (r: seq<Scan>)
      requires Valid()
      ensures NewestFirst(r)
      ensures DistinctIds(r) && |r| == |records|
      ensures forall s :: s in r ==> s.id in records && records[s.id] == s
      ensures forall id :: id in records ==> records[id] in r
    {
      r := CollectNewestFirst(records);
    }
  }
}
