/** Properties that relate several endpoint calls, or an endpoint call and the rest of the
    database: owner isolation, progress readback, the results decision table over repeated
    calls, and the cancellation cascade. */
module Lifecycle {

  import opened Options
  import opened Status
  import opened Store
  import opened Decimal
  import opened Progress
  import opened Views

  /** What one user can observe: their own requests, each with its domain rows. */
  function UserView(s: State, user: UserId): map<RequestId, (BatchRequest, seq<BatchDomain>)>
  {
    map rid | rid in s.requests && s.requests[rid].user == user :: (s.requests[rid], DomainsOf(s.domains, rid))
  }

  /** A request id that belongs to another user is answered exactly like an id that does not
      exist, by all three endpoints, and changes nothing. */
  lemma ForeignRequestIsUnknown(s: State, user: UserId, rid: RequestId, progressParam: Option<string>, siteUrl: string)
    requires rid in s.requests && s.requests[rid].user != user
    ensures var missing := s.(requests := s.requests - {rid});
      && EndpointRequest(s, user, rid, progressParam) == Step(s, UnknownRequest)
      && EndpointResults(s, user, rid, siteUrl) == Step(s, UnknownRequest)
      && CancelTest(s, user, rid) == Step(s, UnknownRequest)
      && EndpointRequest(missing, user, rid, progressParam).response == UnknownRequest
      && EndpointResults(missing, user, rid, siteUrl).response == UnknownRequest
      && CancelTest(missing, user, rid).response == UnknownRequest
  {
  }

  /** Responses to a user depend only on that user's own requests and their domains: two
      databases that look the same to `user` answer `user` identically, whatever other users
      have stored. */
  lemma OwnerIsolation(s1: State, s2: State, user: UserId, rid: RequestId, progressParam: Option<string>, siteUrl: string)
    requires UserView(s1, user) == UserView(s2, user)
    ensures EndpointRequest(s1, user, rid, progressParam).response == EndpointRequest(s2, user, rid, progressParam).response
    ensures EndpointResults(s1, user, rid, siteUrl).response == EndpointResults(s2, user, rid, siteUrl).response
    ensures CancelTest(s1, user, rid).response == CancelTest(s2, user, rid).response
  {
    var v1, v2 := UserView(s1, user), UserView(s2, user);
    if rid in s1.requests && s1.requests[rid].user == user {
      assert rid in v1;
      assert rid in v2;
      assert DomainsOf(s1.domains, rid) == DomainsOf(s2.domains, rid);
    } else {
      assert rid !in v1;
    }
  }

  /** With the progress flag on, the progress text reads back as `finished/total`, where
      `total` is the number of the request's domain rows (also reported as `num_domains`) and
      `finished` the number of those whose status is `done` or `error`; hence
      `finished <= total`, with equality exactly when no domain is waiting, running or
      cancelled. */
  lemma ProgressReadsBack(s: State, user: UserId, rid: RequestId, progressParam: Option<string>)
    requires rid in s.requests && s.requests[rid].user == user
    requires WantsProgress(progressParam)
    ensures var r := EndpointRequest(s, user, rid, progressParam).response;
      var finished, total := Finished(s.domains, rid), Total(s.domains, rid);
      && r.ApiResponse? && r.data.RequestInfo? && r.data.progress.Some?
      && r.data.progress.value.numDomains == total
      && r.data.progress.value.progress == FormatProgress(finished, total)
      && ParseProgress(r.data.progress.value.progress) == Some((finished, total))
      && finished <= total
      && (finished == total <==>
            forall d :: d in s.domains && d.batchRequest == rid ==> IsFinished(d.status))
  {
    FinishedAtMostTotal(s.domains, rid);
  }

  /** Without the progress flag the response is the request dict alone. */
  lemma NoProgressWithoutFlag(s: State, user: UserId, rid: RequestId, progressParam: Option<string>)
    requires rid in s.requests && s.requests[rid].user == user
    requires !WantsProgress(progressParam)
    ensures EndpointRequest(s, user, rid, progressParam) == Step(s, ApiResponse(RequestInfo(s.requests[rid], None)))
  {
  }

  /** A done request without a report enqueues one generation task per call, with no
      deduplication: two calls leave two identical tasks and both answer "not yet done". */
  lemma ResultsDoNotDeduplicate(s: State, user: UserId, rid: RequestId, siteUrl: string)
    requires rid in s.requests && s.requests[rid].user == user
    requires s.requests[rid].status == RequestStatus.Done && s.requests[rid].reportFile.None?
    ensures var first := EndpointResults(s, user, rid, siteUrl);
      var second := EndpointResults(first.state, user, rid, siteUrl);
      && first.response == BadClientRequest(NotDoneMessage)
      && second.response == BadClientRequest(NotDoneMessage)
      && second.state == s.(queue := s.queue + [GenerateTask(user, rid, siteUrl), GenerateTask(user, rid, siteUrl)])
  {
  }

  /** Cancelling twice leaves the same database and the same acknowledgement as cancelling once. */
  lemma CancelIdempotent(s: State, user: UserId, rid: RequestId)
    ensures var once := CancelTest(s, user, rid);
      CancelTest(once.state, user, rid) == once
  {
  }

  /** After cancellation the request keeps its domain count but its progress reads
      `0/<total>`: every domain is cancelled, including those that were done. The domains of
      every other request are exactly as before. */
  lemma CancelResetsProgress(s: State, user: UserId, rid: RequestId)
    requires rid in s.requests && s.requests[rid].user == user
    ensures var after := CancelTest(s, user, rid).state;
      && Total(after.domains, rid) == Total(s.domains, rid)
      && Finished(after.domains, rid) == 0
      && forall other :: other != rid ==> DomainsOf(after.domains, other) == DomainsOf(s.domains, other)
  {
    CancelClearsProgress(s.domains, rid);
    forall other | other != rid
      ensures DomainsOf(CancelDomains(s.domains, rid), other) == DomainsOf(s.domains, other)
    {
      CancelKeepsOtherDomains(s.domains, rid, other);
    }
  }

  /** A cancelled request, even one that was done with a stored report, is answered
      "not yet done" by the results endpoint, which then enqueues nothing. */
  lemma ResultsAfterCancel(s: State, user: UserId, rid: RequestId, siteUrl: string)
    requires rid in s.requests && s.requests[rid].user == user
    ensures var after := CancelTest(s, user, rid).state;
      EndpointResults(after, user, rid, siteUrl) == Step(after, BadClientRequest(NotDoneMessage))
  {
  }

  /** None of the three endpoints breaks referential integrity: cancelling keeps every id and
      owner, and a task is only ever queued for a request of the calling user. */
  lemma EndpointsPreserveWellFormed(s: State, user: UserId, rid: RequestId, progressParam: Option<string>, siteUrl: string)
    requires WellFormed(s)
    ensures WellFormed(EndpointRequest(s, user, rid, progressParam).state)
    ensures WellFormed(EndpointResults(s, user, rid, siteUrl).state)
    ensures WellFormed(CancelTest(s, user, rid).state)
  {
  }

}
