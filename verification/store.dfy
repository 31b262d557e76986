/** The abstract database the batch views read and write: the BatchRequest table, the
    BatchDomain table and the queue of report-generation tasks handed to the worker. */
module Store {

  import opened Options
  import opened Status

  type UserId = string
  type RequestId = string

  /** A parsed JSON document: the payload of a stored report. Numbers are integers only. */
  datatype Json =
    | JNull
    | JBool(b: bool)
    | JNumber(n: int)
    | JString(s: string)
    | JArray(items: seq<Json>)
    | JObject(fields: seq<(string, Json)>)

  /** What opening and parsing a stored report file yields. */
  datatype ReportFile = Parsed(data: Json) | Unreadable

  /** One batch request; `reportFile` is `None` exactly when the request has no report file. */
  datatype BatchRequest = BatchRequest(
    user: UserId,
    requestId: RequestId,
    status: RequestStatus,
    reportFile: Option<ReportFile>)

  /** One domain row; `batchRequest` is the request id of the owning request. */
  datatype BatchDomain = BatchDomain(batchRequest: RequestId, domain: string, status: DomainStatus)

  /** One enqueued `batch_async_generate_results` call. */
  datatype GenerateTask = GenerateTask(user: UserId, requestId: RequestId, siteUrl: string)

  datatype State = State(
    requests: map<RequestId, BatchRequest>,
    domains: seq<BatchDomain>,
    queue: seq<GenerateTask>)

  /** Referential integrity of the tables: every request is stored under its own id, every
      domain row points at an existing request, and every queued task names a request that
      exists and belongs to the user it was queued for. */
  ghost predicate WellFormed(s: State)
  {
    && (forall rid :: rid in s.requests ==> s.requests[rid].requestId == rid)
    && (forall i :: 0 <= i < |s.domains| ==> s.domains[i].batchRequest in s.requests)
    && (forall i :: 0 <= i < |s.queue| ==>
          s.queue[i].requestId in s.requests && s.requests[s.queue[i].requestId].user == s.queue[i].user)
  }

  /** The single-record query on the pair (owner, request id): it finds a record only when
      the id exists and the record belongs to `user`. */
  function Lookup(s: State, user: UserId, rid: RequestId): (r: Option<BatchRequest>)
    ensures r.Some? <==> rid in s.requests && s.requests[rid].user == user
    ensures r.Some? ==> r.value == s.requests[rid]
  {
    if rid in s.requests && s.requests[rid].user == user then Some(s.requests[rid]) else None
  }

  /** A request id owned by someone else is looked up exactly as if it were not stored at all. */
  lemma ForeignLookupIsMissing(s: State, user: UserId, rid: RequestId)
    requires rid in s.requests && s.requests[rid].user != user
    ensures Lookup(s, user, rid) == Lookup(s.(requests := s.requests - {rid}), user, rid) == None
  {
  }

  /** The domain rows whose owning request is `rid`, in table order. */
  function DomainsOf(ds: seq<BatchDomain>, rid: RequestId): (r: seq<BatchDomain>)
    ensures |r| <= |ds|
    ensures forall i :: 0 <= i < |r| ==> r[i].batchRequest == rid
  {
    if |ds| == 0 then []
    else
      var last := ds[|ds| - 1];
      DomainsOf(ds[..|ds| - 1], rid) + (if last.batchRequest == rid then [last] else [])
  }

  /** The rows among `ds` whose status is `done` or `error`, in order. */
  function FinishedOf(ds: seq<BatchDomain>): (r: seq<BatchDomain>)
    ensures |r| <= |ds|
    ensures forall i :: 0 <= i < |r| ==> IsFinished(r[i].status)
  {
    if |ds| == 0 then []
    else
      var last := ds[|ds| - 1];
      FinishedOf(ds[..|ds| - 1]) + (if IsFinished(last.status) then [last] else [])
  }

  /** The rows among `ds` whose status is `waiting`, `running` or `cancelled`, in order. */
  function UnfinishedOf(ds: seq<BatchDomain>): (r: seq<BatchDomain>)
    ensures forall i :: 0 <= i < |r| ==> !IsFinished(r[i].status)
  {
    if |ds| == 0 then []
    else
      var last := ds[|ds| - 1];
      UnfinishedOf(ds[..|ds| - 1]) + (if !IsFinished(last.status) then [last] else [])
  }

  /** The request filter keeps exactly the rows of that request. */
  lemma {:induction false} DomainsOfMembers(ds: seq<BatchDomain>, rid: RequestId, d: BatchDomain)
    ensures d in DomainsOf(ds, rid) <==> d in ds && d.batchRequest == rid
  {
    if |ds| > 0 {
      var init := ds[..|ds| - 1];
      DomainsOfMembers(init, rid, d);
      assert ds == init + [ds[|ds| - 1]];
    }
  }

  /** The finished filter keeps exactly the rows whose status is `done` or `error`. */
  lemma {:induction false} FinishedOfMembers(ds: seq<BatchDomain>, d: BatchDomain)
    ensures d in FinishedOf(ds) <==> d in ds && IsFinished(d.status)
  {
    if |ds| > 0 {
      var init := ds[..|ds| - 1];
      FinishedOfMembers(init, d);
      assert ds == init + [ds[|ds| - 1]];
    }
  }

  /** The unfinished filter keeps exactly the rows that are waiting, running or cancelled. */
  lemma {:induction false} UnfinishedOfMembers(ds: seq<BatchDomain>, d: BatchDomain)
    ensures d in UnfinishedOf(ds) <==> d in ds && !IsFinished(d.status)
  {
    if |ds| > 0 {
      var init := ds[..|ds| - 1];
      UnfinishedOfMembers(init, d);
      assert ds == init + [ds[|ds| - 1]];
    }
  }

  /** The request filter comes out empty exactly when no row belongs to the request. */
  lemma NoRowsIff(ds: seq<BatchDomain>, rid: RequestId)
    ensures |DomainsOf(ds, rid)| == 0 <==> forall d :: d in ds ==> d.batchRequest != rid
  {
  }

  /** Every row is either finished or not, so the two filters partition the rows. */
  lemma {:induction false} FinishedPartition(ds: seq<BatchDomain>)
    ensures |FinishedOf(ds)| + |UnfinishedOf(ds)| == |ds|
  {
    if |ds| > 0 {
      FinishedPartition(ds[..|ds| - 1]);
    }
  }

  /** The finished filter keeps every row exactly when every row is finished. */
  lemma {:induction false} FinishedAllIff(ds: seq<BatchDomain>)
    ensures |FinishedOf(ds)| == |ds| <==> forall i :: 0 <= i < |ds| ==> IsFinished(ds[i].status)
  {
    if |ds| > 0 {
      var init := ds[..|ds| - 1];
      FinishedAllIff(init);
      if |FinishedOf(ds)| == |ds| {
        assert IsFinished(ds[|ds| - 1].status);
        forall i | 0 <= i < |ds|
          ensures IsFinished(ds[i].status)
        {
          if i < |ds| - 1 {
            assert ds[i] == init[i];
          }
        }
      } else {
        if IsFinished(ds[|ds| - 1].status) {
          assert |FinishedOf(init)| < |init|;
          var j :| 0 <= j < |init| && !IsFinished(init[j].status);
          assert ds[j] == init[j];
        }
      }
    }
  }

  /** The bulk status update of the cancel cascade: every row of request `rid` becomes
      cancelled whatever its status was, every other row is untouched. */
  function CancelDomains(ds: seq<BatchDomain>, rid: RequestId): (r: seq<BatchDomain>)
    ensures |r| == |ds|
    ensures forall i :: 0 <= i < |ds| && ds[i].batchRequest == rid ==>
              r[i] == ds[i].(status := DomainStatus.Cancelled)
    ensures forall i :: 0 <= i < |ds| && ds[i].batchRequest != rid ==> r[i] == ds[i]
  {
    if |ds| == 0 then []
    else
      var last := ds[|ds| - 1];
      CancelDomains(ds[..|ds| - 1], rid)
        + [if last.batchRequest == rid then last.(status := DomainStatus.Cancelled) else last]
  }

}
