/** The three batch endpoints that carry lifecycle logic, each as a pure transition from the
    database state (and the request's inputs) to a new state and an abstract response. The
    authenticated user is an explicit parameter. */
module Views {

  import opened Options
  import opened Status
  import opened Store
  import opened Decimal
  import opened Progress

  /** The two keys `endpoint_request` adds to the request dict when progress is asked for. */
  datatype ProgressFields = ProgressFields(progress: string, numDomains: nat)

  /** Payloads of a successful API response. `RequestInfo` stands for `{"request": ...}`, where
      the record itself stands for its API serialisation. */
  datatype ApiData =
    | RequestInfo(request: BatchRequest, progress: Option<ProgressFields>)
    | ReportData(report: Json)

  /** The response kinds the endpoints produce. `JsonResult` is the bare
      `{success, message, data}` document of the cancel endpoint. */
  datatype Response =
    | UnknownRequest
    | BadClientRequest(message: string)
    | GeneralServerError(message: string)
    | ApiResponse(data: ApiData)
    | JsonResult(success: bool, message: string, payload: map<string, Json>)

  datatype Step = Step(state: State, response: Response)

  const NotDoneMessage: string := "The request is not yet `done`."
  const ReportErrorMessage: string := "Report could not be generated."

  function AsciiLower(c: char): char
  {
    if 'A' <= c <= 'Z' then (c as int + 32) as char else c
  }

  /** ASCII lower-casing of a string, character by character: no letter 'A'-'Z' is left and
      every other character is kept. */
  function Lower(s: string): (r: string)
    ensures |r| == |s|
    ensures forall i :: 0 <= i < |s| ==> r[i] == AsciiLower(s[i])
    ensures forall i :: 0 <= i < |r| ==> !('A' <= r[i] <= 'Z')
    ensures forall i :: 0 <= i < |s| && !('A' <= s[i] <= 'Z') ==> r[i] == s[i]
  {
    if |s| == 0 then [] else [AsciiLower(s[0])] + Lower(s[1..])
  }

  /** The progress flag: the optional `progress` query parameter must be present, non-empty,
      and read "true" once lower-cased. The emptiness test is subsumed by the comparison. */
  function WantsProgress(param: Option<string>): (r: bool)
    ensures r <==> param.Some? && Lower(param.value) == "true"
  {
    match param
    case None => false
    case Some(v) => v != "" && Lower(v) == "true"
  }

  /** The progress flag is on exactly for the sixteen spellings of "true" in any letter case. */
  lemma WantsProgressSpellings(param: Option<string>)
    ensures WantsProgress(param) <==>
              && param.Some?
              && |param.value| == 4
              && param.value[0] in {'t', 'T'}
              && param.value[1] in {'r', 'R'}
              && param.value[2] in {'u', 'U'}
              && param.value[3] in {'e', 'E'}
  {
  }

  /** GET /requests/{rid}: the caller's request, optionally with its progress. Read-only. */
  function EndpointRequest(s: State, user: UserId, rid: RequestId, progressParam: Option<string>): (r: Step)
    ensures r.state == s
    ensures r.response == UnknownRequest <==> !(rid in s.requests && s.requests[rid].user == user)
    ensures r.response != UnknownRequest ==>
              && r.response.ApiResponse?
              && r.response.data.RequestInfo?
              && r.response.data.request == s.requests[rid]
              && (r.response.data.progress.Some? <==> WantsProgress(progressParam))
  {
    match Lookup(s, user, rid)
    case None => Step(s, UnknownRequest)
    case Some(req) =>
      var progress :=
        if WantsProgress(progressParam) then
          var total := Total(s.domains, rid);
          var finished := Finished(s.domains, rid);
          Some(ProgressFields(FormatProgress(finished, total), total))
        else
          None;
      Step(s, ApiResponse(RequestInfo(req, progress)))
  }

  /** GET /requests/{rid}/results: the stored report of a done request, a generation task
      (and "not yet done") when the report is missing, an error otherwise. Only the task
      queue can change; no request or domain record does. */
  function EndpointResults(s: State, user: UserId, rid: RequestId, siteUrl: string): (r: Step)
    ensures r.state.requests == s.requests && r.state.domains == s.domains
    ensures r.response == UnknownRequest <==> Lookup(s, user, rid).None?
    ensures r.response == BadClientRequest(NotDoneMessage) <==>
              && Lookup(s, user, rid).Some?
              && (s.requests[rid].status != RequestStatus.Done || s.requests[rid].reportFile.None?)
    ensures r.response == GeneralServerError(ReportErrorMessage) <==>
              && Lookup(s, user, rid).Some?
              && s.requests[rid].status == RequestStatus.Done
              && s.requests[rid].reportFile == Some(Unreadable)
    ensures r.response.ApiResponse? <==>
              && Lookup(s, user, rid).Some?
              && s.requests[rid].status == RequestStatus.Done
              && s.requests[rid].reportFile.Some?
              && s.requests[rid].reportFile.value.Parsed?
    ensures r.response.ApiResponse? ==>
              r.response.data == ReportData(s.requests[rid].reportFile.value.data)
    ensures r.state.queue != s.queue <==>
              && Lookup(s, user, rid).Some?
              && s.requests[rid].status == RequestStatus.Done
              && s.requests[rid].reportFile.None?
    ensures r.state.queue != s.queue ==> r.state.queue == s.queue + [GenerateTask(user, rid, siteUrl)]
  {
    match Lookup(s, user, rid)
    case None => Step(s, UnknownRequest)
    case Some(req) =>
      if req.status != RequestStatus.Done then
        Step(s, BadClientRequest(NotDoneMessage))
      else
        match req.reportFile
        case None =>
          Step(s.(queue := s.queue + [GenerateTask(user, rid, siteUrl)]), BadClientRequest(NotDoneMessage))
        case Some(Unreadable) =>
          Step(s, GeneralServerError(ReportErrorMessage))
        case Some(Parsed(data)) =>
          Step(s, ApiResponse(ReportData(data)))
  }

  /** GET /requests/{rid}/cancel: the request and every one of its domains are forced to
      `cancelled`, whatever their status; the acknowledgement never varies. */
  function CancelTest(s: State, user: UserId, rid: RequestId): (r: Step)
    ensures Lookup(s, user, rid).None? ==> r == Step(s, UnknownRequest)
    ensures Lookup(s, user, rid).Some? ==>
              && r.response == JsonResult(true, "OK", map[])
              && r.state.requests.Keys == s.requests.Keys
              && r.state.requests[rid] == s.requests[rid].(status := RequestStatus.Cancelled)
              && (forall other :: other in s.requests && other != rid ==> r.state.requests[other] == s.requests[other])
              && |r.state.domains| == |s.domains|
              && (forall i :: 0 <= i < |s.domains| ==>
                    r.state.domains[i].batchRequest == s.domains[i].batchRequest
                    && r.state.domains[i].domain == s.domains[i].domain)
              && (forall i :: 0 <= i < |s.domains| && s.domains[i].batchRequest == rid ==>
                    r.state.domains[i].status == DomainStatus.Cancelled)
              && (forall i :: 0 <= i < |s.domains| && s.domains[i].batchRequest != rid ==>
                    r.state.domains[i] == s.domains[i])
              && r.state.queue == s.queue
  {
    match Lookup(s, user, rid)
    case None => Step(s, UnknownRequest)
    case Some(req) =>
      var requests := s.requests[rid := req.(status := RequestStatus.Cancelled)];
      Step(State(requests, CancelDomains(s.domains, rid), s.queue), JsonResult(true, "OK", map[]))
  }

}
