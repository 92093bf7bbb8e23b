/** The scan-starting endpoint of app/api/scan/route.ts: validation of the
    request, creation of the job record, and the background task that moves
    the job from pending through running to complete or error.

    The background task runs as an ordinary sequential method after the job
    has been created. The scanner is the parameter `scanner`; the summariser
    is the model of summariseFindings, whose remote endpoint is `remote`. */
module ScanRoute {
  import opened Types
  import opened Text
  import opened Store
  import opened Summary

  /* ------------------------------------------------------------ lifecycle */

  predicate IsTerminal(s: ScanStatus) {
    s == Complete || s == Error
  }

  /** The moves a job's status can make: pending to running, running to
      complete or to error. */
  predicate CanMove(from: ScanStatus, to: ScanStatus) {
    match (from, to)
    case (Pending, Running) => true
    case (Running, Complete) => true
    case (Running, Error) => true
    case _ => false
  }

  /** How far along the lifecycle a status is. */
  function Stage(s: ScanStatus): nat {
    match s
    case Pending => 0
    case Running => 1
    case Complete => 2
    case Error => 2
  }

  /** A sequence of statuses each of which moves to the next. */
  predicate FollowsMoves(trace: seq<ScanStatus>) {
    forall i :: 0 <= i < |trace| - 1 ==> CanMove(trace[i], trace[i + 1])
  }

  lemma {:induction false} MovesAdvanceStage(trace: seq<ScanStatus>)
    requires |trace| > 0 && FollowsMoves(trace)
    ensures forall i :: 0 <= i < |trace| ==> Stage(trace[i]) == Stage(trace[0]) + i
    decreases |trace|
  {
    if |trace| > 1 {
      var init := trace[..|trace| - 1];
      assert FollowsMoves(init) by {
        forall i | 0 <= i < |init| - 1 ensures CanMove(init[i], init[i + 1]) {
          assert init[i] == trace[i] && init[i + 1] == trace[i + 1];
        }
      }
      MovesAdvanceStage(init);
      forall i | 0 <= i < |trace| ensures Stage(trace[i]) == Stage(trace[0]) + i {
        if i < |trace| - 1 {
          assert trace[i] == init[i];
        } else {
          assert trace[i - 1] == init[i - 1];
          assert CanMove(trace[i - 1], trace[i]);
        }
      }
    }
  }

  /** Any run of moves is at most pending, running, terminal: it never has
      more than three statuses, and a terminal status can only come last. */
  lemma TerminalStatusIsFinal(trace: seq<ScanStatus>)
    requires |trace| > 0 && FollowsMoves(trace)
    ensures |trace| <= 3
    ensures forall i :: 0 <= i < |trace| && IsTerminal(trace[i]) ==> i == |trace| - 1
  {
    MovesAdvanceStage(trace);
    assert Stage(trace[|trace| - 1]) <= 2;
    forall i | 0 <= i < |trace| && IsTerminal(trace[i]) ensures i == |trace| - 1 {
      assert Stage(trace[i]) == 2;
    }
  }

  /** The record invariant the job keeps: an error message exactly in the
      error state, a summary exactly in the complete state, and findings only
      once complete. */
  predicate Consistent(scan: Scan) {
    && (scan.errorMessage.Some? <==> scan.status == Error)
    && (scan.aiSummary.Some? <==> scan.status == Complete)
    && (scan.status != Complete ==> scan.findings == [])
  }

  /* -------------------------------------------------------------- request */

  /** The `url` property of the parsed request body: a string, or anything
      else (missing, a number, an object, ...). */
  datatype UrlField = UrlString(text: string) | UrlNotString

  /** The request body as `request.json()` delivers it: not JSON at all, the
      JSON value null (whose `.url` throws), or any other JSON value. */
  datatype RequestBody = Unparsable | NullBody | JsonValue(url: UrlField)

  datatype Payload = IdPayload(id: string) | ErrorPayload(error: string)

  datatype Response = Response(status: nat, payload: Payload)

  /** What the handler answers and the store it leaves, with the job it
      created, if any. */
  datatype Started = Started(response: Response, store: ScanStore, job: Option<Scan>)

  /** The URL the handler works with: the trimmed `url` property when it is a
      string, and the empty string for anything else. */
  function RequestedUrl(field: UrlField): (url: string)
    ensures Trimmed(url)
    ensures url == "" <==> field.UrlNotString? || AllSpace(field.text)
  {
    match field
    case UrlString(text) => Trim(text)
    case UrlNotString => ""
  }

  /** Validation and job creation in POST: reject the request, or create the
      job under the freshly generated id at time `now` and decide to answer
      with its id. The answer leaves only after the background task has run
      up to its first suspension, the scanner call, so by then the job is
      already stored as running (see HandleScanRequest). */
  function StartScan(store: ScanStore, body: RequestBody, id: string, now: string): (res: Started)
    ensures res.response.status in {201, 400, 500}
    ensures res.response.status == 500 <==> body.Unparsable? || body.NullBody?
    ensures res.response.status == 500 ==> res.response.payload == ErrorPayload("Failed to start scan")
    ensures res.response.status == 400 <==> body.JsonValue? && RequestedUrl(body.url) == ""
    ensures res.response.status == 400 ==> res.response.payload == ErrorPayload("Invalid URL")
    ensures res.job.None? <==> res.response.status != 201
    ensures res.job.None? ==> res.store == store
    ensures res.job.Some? ==>
              && body.JsonValue? && body.url.UrlString?
              && res.response.payload == IdPayload(id)
              && res.job.value.id == id
              && res.job.value.url == Trim(body.url.text) != ""
              && res.job.value.status == Pending
              && Consistent(res.job.value)
              && GetScan(res.store, id) == res.job
              && (forall other :: other != id ==> GetScan(res.store, other) == GetScan(store, other))
  {
    match body
    case Unparsable => Started(Response(500, ErrorPayload("Failed to start scan")), store, None)
    case NullBody => Started(Response(500, ErrorPayload("Failed to start scan")), store, None)
    case JsonValue(field) =>
      var url := RequestedUrl(field);
      if url == "" then
        Started(Response(400, ErrorPayload("Invalid URL")), store, None)
      else
        var (store', scan) := CreateScan(store, id, now, url);
        Started(Response(201, IdPayload(scan.id)), store', Some(scan))
  }

  /* ------------------------------------------------------ background task */

  /** A value thrown inside the task: an Error object with its message, or
      any other value. */
  datatype Thrown = ErrorObject(message: string) | OtherValue

  /** What the scanner call gives: findings, or a thrown value. */
  datatype ScanOutcome = Scanned(findings: seq<Finding>) | ScanFailed(thrown: Thrown)

  /** The error message recorded for a thrown value: an Error object's own
      message, and a fixed text for any other value. */
  function ErrorText(t: Thrown): string {
    match t
    case ErrorObject(message) => message
    case OtherValue => "Unexpected error"
  }

  /** The background task: mark the job running and persist it, then scan,
      summarise and persist the result, or persist the error if the scan
      throws. `runningAt` and `finishedAt` are the clock readings of the two
      updates. */
  method RunScanTask(store: ScanStore, scan: Scan, runningAt: string, finishedAt: string,
                     scanner: string -> ScanOutcome, apiKey: Option<string>, remote: Prompt -> ApiReply)
    returns (midStore: ScanStore, running: Scan, finalStore: ScanStore, done: Scan)
    ensures running == scan.(status := Running, updatedAt := runningAt)
    ensures GetScan(midStore, scan.id) == Some(running)
    ensures GetScan(finalStore, scan.id) == Some(done)
    ensures forall other :: other != scan.id ==>
              GetScan(midStore, other) == GetScan(store, other)
              && GetScan(finalStore, other) == GetScan(store, other)
    ensures CanMove(running.status, done.status)
    ensures done.id == scan.id && done.url == scan.url && done.createdAt == scan.createdAt
    ensures done.updatedAt == finishedAt
    ensures done.status == Complete <==> scanner(scan.url).Scanned?
    ensures done.status == Complete ==>
              && done.findings == scanner(scan.url).findings
              && done.aiSummary == Some(SummariseFindings(apiKey, scan.url, scanner(scan.url).findings, remote))
              && done.errorMessage == scan.errorMessage
    ensures done.status == Error ==>
              && done.errorMessage == Some(ErrorText(scanner(scan.url).thrown))
              && done.findings == scan.findings
              && done.aiSummary == scan.aiSummary
    ensures Consistent(scan) && scan.status == Pending ==> Consistent(running) && Consistent(done)
  {
    var marked := scan.(status := Running);
    var afterMark := UpdateScan(store, marked, runningAt);
    midStore, running := afterMark.0, afterMark.1;
    var outcome := scanner(scan.url);
    match outcome {
      case Scanned(findings) =>
        var summary := SummariseFindings(apiKey, scan.url, findings, remote);
        var finished := running.(status := Complete, findings := findings, aiSummary := Some(summary));
        var afterFinish := UpdateScan(midStore, finished, finishedAt);
        finalStore, done := afterFinish.0, afterFinish.1;
      case ScanFailed(thrown) =>
        var failed := running.(status := Error, errorMessage := Some(ErrorText(thrown)));
        var afterFail := UpdateScan(midStore, failed, finishedAt);
        finalStore, done := afterFail.0, afterFail.1;
    }
  }

  /** POST followed by its background task: the response, the store as it is
      when the response leaves, the store once the task has finished, and the
      statuses the job was stored with over time (none when no job was
      created). The task's body runs synchronously up to the scanner call, so
      the running update happens before the response is returned: a client
      polling with the returned id never sees the job pending. */
  method HandleScanRequest(store: ScanStore, body: RequestBody, id: string,
                           createdAt: string, runningAt: string, finishedAt: string,
                           scanner: string -> ScanOutcome, apiKey: Option<string>,
                           remote: Prompt -> ApiReply)
    returns (response: Response, respondedStore: ScanStore, finalStore: ScanStore, statuses: seq<ScanStatus>)
    ensures response.status in {201, 400, 500}
    ensures response.status == 500 <==> body.Unparsable? || body.NullBody?
    ensures response.status == 500 ==> response.payload == ErrorPayload("Failed to start scan")
    ensures response.status == 400 <==> body.JsonValue? && RequestedUrl(body.url) == ""
    ensures response.status == 400 ==> response.payload == ErrorPayload("Invalid URL")
    ensures response.status == 201 <==> body.JsonValue? && RequestedUrl(body.url) != ""
    ensures response.status != 201 ==> respondedStore == store && finalStore == store && statuses == []
    ensures response.status == 201 ==>
              && id in respondedStore
              && respondedStore[id].status == Running
              && respondedStore[id].createdAt == createdAt
              && respondedStore[id].updatedAt == runningAt
              && Consistent(respondedStore[id])
    ensures forall other :: other != id ==> GetScan(respondedStore, other) == GetScan(store, other)
    ensures response.status == 201 ==>
              && response.payload == IdPayload(id)
              && |statuses| == 3
              && statuses[0] == Pending
              && FollowsMoves(statuses)
              && IsTerminal(statuses[2])
              && id in finalStore
              && finalStore[id].status == statuses[2]
              && Consistent(finalStore[id])
              && body.JsonValue? && body.url.UrlString?
              && finalStore[id].url == Trim(body.url.text)
              && (statuses[2] == Error <==> scanner(finalStore[id].url).ScanFailed?)
    ensures response.status == 201 ==>
              && body.JsonValue? && body.url.UrlString?
              && respondedStore[id] == Scan(id, RequestedUrl(body.url), Running, [], None, createdAt, runningAt, None)
              && finalStore[id].id == id && finalStore[id].url == RequestedUrl(body.url)
              && finalStore[id].createdAt == createdAt && finalStore[id].updatedAt == finishedAt
    ensures response.status == 201 && body.JsonValue? && scanner(RequestedUrl(body.url)).Scanned? ==>
              && finalStore[id].findings == scanner(RequestedUrl(body.url)).findings
              && finalStore[id].aiSummary
                 == Some(SummariseFindings(apiKey, RequestedUrl(body.url), scanner(RequestedUrl(body.url)).findings, remote))
              && finalStore[id].errorMessage == None
    ensures response.status == 201 && body.JsonValue? && scanner(RequestedUrl(body.url)).ScanFailed? ==>
              && finalStore[id].errorMessage == Some(ErrorText(scanner(RequestedUrl(body.url)).thrown))
              && finalStore[id].findings == []
              && finalStore[id].aiSummary == None
    ensures forall other :: other != id ==> GetScan(finalStore, other) == GetScan(store, other)
  {
    var started := StartScan(store, body, id, createdAt);
    response := started.response;
    match started.job {
      case None =>
        respondedStore, finalStore := store, store;
        statuses := [];
      case Some(job) =>
        var running, done;
        respondedStore, running, finalStore, done := RunScanTask(started.store, job, runningAt, finishedAt, scanner, apiKey, remote);
        statuses := [job.status, running.status, done.status];
    }
  }
}
