/** The networking extension of the photo-tagging view controller: the requests the two
    enrichment fetches issue, and the upload-and-enrich sequence driven by the transport's
    callbacks. The transport is abstract: each callback it delivers is an input. */
module Networking {
  import opened Wrappers
  import opened Json
  import opened Decoders
  import IntParse
  import Router

  // ---------------------------------------------------------------------------
  // Requests

  /** The upload request: the router's `Content` request. */
  function UploadRequest(): (req: Router.Request)
    ensures req.url == Router.BaseURLPath + "/content"
    ensures req.httpMethod == "POST" && req.parameters == map[]
    ensures req.headers == map["Authorization" := Router.AuthenticationToken]
    ensures req.timeoutInterval == Some(Router.TimeoutInterval)
  {
    Router.URLRequest(Router.Content)
  }

  /** The request of `downloadTags`, written out by hand rather than taken from the router;
      it keeps the transport's default timeout. */
  function TagsFetchRequest(contentID: string): (req: Router.Request)
    ensures req.url == Router.BaseURLPath + "/tagging" && req.httpMethod == "GET"
    ensures req.headers == map["Authorization" := Router.AuthenticationToken]
    ensures req.parameters.Keys == {"content"} && req.parameters["content"] == Router.Text(contentID)
    ensures req.timeoutInterval.None?
  {
    Router.Request(
      "http://api.imagga.com/v1/tagging", "GET",
      map["Authorization" :=
            "Basic YWNjXzhlNDFhMTQzODRlYjM3YzplODE4YWU5NTFkYjAyNzdmZDNhYjZhMWU0OTcyNzdlOA=="],
      None,
      map["content" := Router.Text(contentID)])
  }

  /** The request of `downloadColors`, written out by hand like the tags request. */
  function ColorsFetchRequest(contentID: string): (req: Router.Request)
    ensures req.url == Router.BaseURLPath + "/colors" && req.httpMethod == "GET"
    ensures req.headers == map["Authorization" := Router.AuthenticationToken]
    ensures req.parameters.Keys == {"content", "extract_object_colors"}
    ensures req.parameters["content"] == Router.Text(contentID)
    ensures req.parameters["extract_object_colors"] == Router.Number(0)
    ensures req.timeoutInterval.None?
  {
    Router.Request(
      "http://api.imagga.com/v1/colors", "GET",
      map["Authorization" :=
            "Basic YWNjXzhlNDFhMTQzODRlYjM3YzplODE4YWU5NTFkYjAyNzdmZDNhYjZhMWU0OTcyNzdlOA=="],
      None,
      map["content" := Router.Text(contentID), "extract_object_colors" := Router.Number(0)])
  }

  /** The hand-written fetch requests agree with the router's `Tags` and `Colors` requests
      in URL, method, parameters and credential; they differ only in the timeout. */
  lemma FetchRequestsMatchRouter(contentID: string)
    ensures TagsFetchRequest(contentID)
            == Router.URLRequest(Router.Tags(contentID)).(timeoutInterval := None)
    ensures ColorsFetchRequest(contentID)
            == Router.URLRequest(Router.Colors(contentID)).(timeoutInterval := None)
  {
    Router.RequestTable(contentID);
  }

  /** The service reads the fetch requests as the operations they stand for. */
  lemma FetchRequestsCarryContentID(contentID: string)
    ensures Router.OperationOf(TagsFetchRequest(contentID)) == Some(Router.Tags(contentID))
    ensures Router.OperationOf(ColorsFetchRequest(contentID)) == Some(Router.Colors(contentID))
  {
    FetchRequestsMatchRouter(contentID);
    Router.OperationRoundTrip(Router.Tags(contentID));
    Router.OperationRoundTrip(Router.Colors(contentID));
  }

  // ---------------------------------------------------------------------------
  // Events, callbacks and the state machine

  /** A byte-count update reported by the transport during the upload. */
  datatype ProgressReport = ProgressReport(totalBytesWritten: int, totalBytesExpectedToWrite: int)

  /** What the workflow does that can be observed: a request issued, a progress callback
      invoked, the completion callback invoked. */
  datatype Event =
    | Issued(request: Router.Request)
    | Progress(report: ProgressReport)
    | Completed(tags: seq<string>, colors: seq<PhotoColor>)

  /** What the transport and the platform deliver to the workflow, in the order they occur. */
  datatype Callback =
    | UploadImageCalled(jpegOk: bool)   // with the outcome of the JPEG compression
    | EncodingCompleted(ok: bool)       // the multipart encoding's result
    | UploadProgressed(report: ProgressReport)
    | UploadResponded(response: Response)
    | TagsResponded(response: Response)
    | ColorsResponded(response: Response)

  /** Where one invocation of the upload stands. */
  datatype Phase =
    | Idle
    | Encoding                                        // JPEG data ready, multipart encoding
    | Uploading                                       // upload request issued
    | FetchingTags(contentID: string)                 // tags request issued
    | FetchingColors(contentID: string, tags: seq<string>)  // colours request issued
    | Done                                            // completion invoked
    | Abandoned                                       // returned early, without completion

  datatype State = State(phase: Phase, log: seq<Event>)

  const Initial: State := State(Idle, [])

  /** Whether the upload object, and with it the progress closure, exists. */
  predicate UploadStarted(p: Phase) {
    p.Uploading? || p.FetchingTags? || p.FetchingColors? || p.Done?
  }

  /** The upload handler's two guards: transport success, then a valid acknowledgement. */
  function UploadAck(response: Response): (id: Option<string>)
    ensures response.Failure? ==> id == None
    ensures response.Success? ==> id == DecodeUploadAck(response.value)
  {
    match response
    case Failure => None
    case Success(j) => DecodeUploadAck(j)
  }

  /** The callback a phase is waiting for: the closure that delivers it exists in that
      phase. Progress reports arrive from the moment the upload exists. */
  predicate Awaits(p: Phase, c: Callback) {
    match c
    case UploadImageCalled(_) => p.Idle?
    case EncodingCompleted(_) => p.Encoding?
    case UploadProgressed(_) => UploadStarted(p)
    case UploadResponded(_) => p.Uploading?
    case TagsResponded(_) => p.FetchingTags?
    case ColorsResponded(_) => p.FetchingColors?
  }

  /** One callback: the next phase and the events it produces. A callback that the phase
      is not waiting for changes nothing; every awaited callback other than a progress
      report moves the workflow on; each callback produces at most one event, and an early
      exit produces none. */
  function Step(p: Phase, c: Callback): (r: (Phase, seq<Event>))
    ensures !Awaits(p, c) ==> r == (p, [])
    ensures Awaits(p, c) && !c.UploadProgressed? ==> r.0 != p
    ensures c.UploadProgressed? && Awaits(p, c) ==> r == (p, [Progress(c.report)])
    ensures |r.1| <= 1
    ensures r.0.Abandoned? && !p.Abandoned? ==> r.1 == []
  {
    match c
    case UploadImageCalled(jpegOk) =>
      if !p.Idle? then (p, [])
      else if jpegOk then (Encoding, [])
      else (Abandoned, [])
    case EncodingCompleted(ok) =>
      if !p.Encoding? then (p, [])
      else if ok then (Uploading, [Issued(UploadRequest())])
      else (Abandoned, [])
    case UploadProgressed(report) =>
      if UploadStarted(p) then (p, [Progress(report)]) else (p, [])
    case UploadResponded(response) =>
      if !p.Uploading? then (p, [])
      else (match UploadAck(response)
            case None => (Done, [Completed([], [])])
            case Some(id) => (FetchingTags(id), [Issued(TagsFetchRequest(id))]))
    case TagsResponded(response) =>
      if !p.FetchingTags? then (p, [])
      else (FetchingColors(p.contentID, DownloadTags(response)),
            [Issued(ColorsFetchRequest(p.contentID))])
    case ColorsResponded(response) =>
      if !p.FetchingColors? then (p, [])
      else (Done, [Completed(p.tags, DownloadColors(response))])
  }

  function Apply(s: State, c: Callback): State {
    var (p, events) := Step(s.phase, c);
    State(p, s.log + events)
  }

  /** The callbacks in arrival order. Events are only ever appended to the log. */
  function Run(s: State, cs: seq<Callback>): (r: State)
    ensures |s.log| <= |r.log| && r.log[..|s.log|] == s.log
    decreases |cs|
  {
    if |cs| == 0 then s else Run(Apply(s, cs[0]), cs[1..])
  }

  // ---------------------------------------------------------------------------
  // Projections of an event log

  function Requests(log: seq<Event>): seq<Router.Request> {
    if |log| == 0 then []
    else (if log[0].Issued? then [log[0].request] else []) + Requests(log[1..])
  }

  function Completions(log: seq<Event>): seq<Event> {
    if |log| == 0 then []
    else (if log[0].Completed? then [log[0]] else []) + Completions(log[1..])
  }

  lemma {:induction false} RequestsAppend(a: seq<Event>, b: seq<Event>)
    ensures Requests(a + b) == Requests(a) + Requests(b)
  {
    if |a| > 0 {
      assert (a + b)[0] == a[0] && (a + b)[1..] == a[1..] + b;
      RequestsAppend(a[1..], b);
    } else {
      assert a + b == b;
    }
  }

  lemma {:induction false} CompletionsAppend(a: seq<Event>, b: seq<Event>)
    ensures Completions(a + b) == Completions(a) + Completions(b)
  {
    if |a| > 0 {
      assert (a + b)[0] == a[0] && (a + b)[1..] == a[1..] + b;
      CompletionsAppend(a[1..], b);
    } else {
      assert a + b == b;
    }
  }

  /** Every colours request is preceded by the tags request for the same content id. */
  ghost predicate TagsBeforeColors(log: seq<Event>) {
    forall j, id :: 0 <= j < |log| && log[j] == Issued(ColorsFetchRequest(id)) ==>
      Issued(TagsFetchRequest(id)) in log[..j]
  }

  /** What holds of every state the workflow reaches. */
  ghost predicate Inv(s: State) {
    (s.phase.Idle? || s.phase.Encoding? || s.phase.Abandoned? ==> s.log == [])
    && |Completions(s.log)| == (if s.phase.Done? then 1 else 0)
    && TagsBeforeColors(s.log)
    && (s.phase.FetchingTags? ==> Issued(TagsFetchRequest(s.phase.contentID)) in s.log)
    && (s.phase.FetchingColors? ==> Issued(TagsFetchRequest(s.phase.contentID)) in s.log)
  }

  lemma TagsBeforeColorsAppend(log: seq<Event>, events: seq<Event>)
    requires TagsBeforeColors(log)
    requires forall id :: Issued(ColorsFetchRequest(id)) in events ==> Issued(TagsFetchRequest(id)) in log
    ensures TagsBeforeColors(log + events)
  {
    var all := log + events;
    forall j, id | 0 <= j < |all| && all[j] == Issued(ColorsFetchRequest(id))
      ensures Issued(TagsFetchRequest(id)) in all[..j]
    {
      if j < |log| {
        assert all[..j] == log[..j];
      } else {
        assert events[j - |log|] == all[j];
        var i :| 0 <= i < |log| && log[i] == Issued(TagsFetchRequest(id));
        assert all[..j][i] == log[i];
      }
    }
  }

  /** The three kinds of request differ in their parameters, and the colours request
      determines its content id. */
  lemma ColorsRequestDistinct(id: string)
    ensures UploadRequest() != ColorsFetchRequest(id)
    ensures forall other :: TagsFetchRequest(other) != ColorsFetchRequest(id)
    ensures forall other :: ColorsFetchRequest(other) == ColorsFetchRequest(id) ==> other == id
  {
    assert "extract_object_colors" in ColorsFetchRequest(id).parameters;
    assert "extract_object_colors" !in UploadRequest().parameters;
    forall other
      ensures TagsFetchRequest(other) != ColorsFetchRequest(id)
    {
      assert "extract_object_colors" !in TagsFetchRequest(other).parameters;
    }
    forall other | ColorsFetchRequest(other) == ColorsFetchRequest(id)
      ensures other == id
    {
      assert ColorsFetchRequest(other).parameters["content"] == Router.Text(other);
    }
  }

  /** A colours request is issued only in answer to the tags response, and for the id
      whose tags were requested. */
  lemma ColorsRequestFollowsTags(p: Phase, c: Callback, id: string)
    requires Issued(ColorsFetchRequest(id)) in Step(p, c).1
    ensures c.TagsResponded? && p == FetchingTags(id)
  {
    var events := Step(p, c).1;
    var j :| 0 <= j < |events| && events[j] == Issued(ColorsFetchRequest(id));
    ColorsRequestDistinct(id);
  }

  lemma {:induction false} StepKeepsInv(s: State, c: Callback)
    requires Inv(s)
    ensures Inv(Apply(s, c))
  {
    var (p, events) := Step(s.phase, c);
    CompletionsAppend(s.log, events);
    forall id | Issued(ColorsFetchRequest(id)) in events
      ensures Issued(TagsFetchRequest(id)) in s.log
    {
      ColorsRequestFollowsTags(s.phase, c, id);
    }
    TagsBeforeColorsAppend(s.log, events);
  }

  lemma {:induction false} RunKeepsInv(s: State, cs: seq<Callback>)
    requires Inv(s)
    ensures Inv(Run(s, cs))
    decreases |cs|
  {
    if |cs| > 0 {
      StepKeepsInv(s, cs[0]);
      RunKeepsInv(Apply(s, cs[0]), cs[1..]);
    }
  }

  /** Whatever the transport delivers, and in whatever order: completion is invoked at
      most once, exactly when the workflow has finished; the two early exits invoke
      nothing and issue nothing; a colours request always follows the tags request for the
      same content id. */
  lemma CompletionAtMostOnce(cs: seq<Callback>)
    ensures var s := Run(Initial, cs);
            |Completions(s.log)| <= 1
            && (|Completions(s.log)| == 1 <==> s.phase.Done?)
            && (s.phase.Abandoned? ==> s.log == [])
            && TagsBeforeColors(s.log)
  {
    RunKeepsInv(Initial, cs);
  }

  // ---------------------------------------------------------------------------
  // One invocation, end to end

  /** The outcomes one invocation of the upload meets: JPEG compression, multipart
      encoding, the byte counts reported while uploading, and the three responses. */
  datatype Outcomes = Outcomes(
    jpegOk: bool,
    encodingOk: bool,
    progress: seq<ProgressReport>,
    upload: Response,
    tagsResponse: Response,
    colorsResponse: Response)

  function ProgressEvents(reports: seq<ProgressReport>): (events: seq<Event>)
    ensures |events| == |reports|
    ensures forall i :: 0 <= i < |reports| ==> events[i] == Progress(reports[i])
  {
    seq(|reports|, i requires 0 <= i < |reports| => Progress(reports[i]))
  }

  /** The nested callbacks of `uploadImage`, `downloadTags` and `downloadColors`, read as
      the events of one invocation. */
  function UploadImageEvents(o: Outcomes): (events: seq<Event>)
    ensures events == [] <==> !o.jpegOk || !o.encodingOk
    ensures events != [] ==> events[0] == Issued(UploadRequest()) && events[|events| - 1].Completed?
  {
    if !o.jpegOk || !o.encodingOk then []
    else [Issued(UploadRequest())] + ProgressEvents(o.progress) + AfterUpload(o)
  }

  /** The response handler of the upload and the two fetches nested in it. */
  function AfterUpload(o: Outcomes): (events: seq<Event>)
    ensures |events| == (if UploadAck(o.upload).Some? then 3 else 1)
    ensures events[|events| - 1].Completed?
    ensures forall i :: 0 <= i < |events| - 1 ==> events[i].Issued?
  {
    match UploadAck(o.upload)
    case None => [Completed([], [])]
    case Some(id) =>
      [Issued(TagsFetchRequest(id)), Issued(ColorsFetchRequest(id)),
       Completed(DownloadTags(o.tagsResponse), DownloadColors(o.colorsResponse))]
  }

  function ProgressCallbacks(reports: seq<ProgressReport>): (cs: seq<Callback>)
    ensures |cs| == |reports|
    ensures forall i :: 0 <= i < |reports| ==> cs[i] == UploadProgressed(reports[i])
  {
    seq(|reports|, i requires 0 <= i < |reports| => UploadProgressed(reports[i]))
  }

  /** The order in which the platform and the transport deliver the callbacks. */
  function Schedule(o: Outcomes): seq<Callback> {
    [UploadImageCalled(o.jpegOk), EncodingCompleted(o.encodingOk)]
    + ProgressCallbacks(o.progress)
    + [UploadResponded(o.upload), TagsResponded(o.tagsResponse), ColorsResponded(o.colorsResponse)]
  }

  lemma {:induction false} RunAppend(s: State, a: seq<Callback>, b: seq<Callback>)
    ensures Run(s, a + b) == Run(Run(s, a), b)
    decreases |a|
  {
    if |a| > 0 {
      assert (a + b)[0] == a[0] && (a + b)[1..] == a[1..] + b;
      RunAppend(Apply(s, a[0]), a[1..], b);
    } else {
      assert a + b == b;
    }
  }

  /** While uploading, each byte-count report produces one progress event and nothing else. */
  lemma {:induction false} RunProgress(log: seq<Event>, reports: seq<ProgressReport>)
    ensures Run(State(Uploading, log), ProgressCallbacks(reports))
            == State(Uploading, log + ProgressEvents(reports))
    decreases |reports|
  {
    var cs := ProgressCallbacks(reports);
    if |reports| == 0 {
      assert log + ProgressEvents(reports) == log;
    } else {
      assert cs[1..] == ProgressCallbacks(reports[1..]);
      assert Apply(State(Uploading, log), cs[0]) == State(Uploading, log + [Progress(reports[0])]);
      RunProgress(log + [Progress(reports[0])], reports[1..]);
      assert log + [Progress(reports[0])] + ProgressEvents(reports[1..]) == log + ProgressEvents(reports);
    }
  }

  /** Once abandoned, nothing the transport delivers has any effect. */
  lemma {:induction false} RunAbandoned(cs: seq<Callback>)
    ensures Run(State(Abandoned, []), cs) == State(Abandoned, [])
    decreases |cs|
  {
    if |cs| > 0 {
      RunAbandoned(cs[1..]);
    }
  }

  /** The state machine, fed the callbacks in the order they arrive, produces exactly the
      events of the nested callbacks. */
  lemma ScheduleMatchesCallbacks(o: Outcomes)
    ensures Run(Initial, Schedule(o)).log == UploadImageEvents(o)
  {
    var progress := ProgressCallbacks(o.progress);
    var responses := [UploadResponded(o.upload), TagsResponded(o.tagsResponse), ColorsResponded(o.colorsResponse)];
    var start := [UploadImageCalled(o.jpegOk), EncodingCompleted(o.encodingOk)];
    assert Schedule(o) == start + (progress + responses);
    RunAppend(Initial, start, progress + responses);
    var s1 := Run(Initial, start);
    var sA := Apply(Initial, start[0]);
    assert start[1..][1..] == [];
    assert s1 == Run(Apply(sA, start[1]), []);
    if !o.jpegOk || !o.encodingOk {
      assert s1 == State(Abandoned, []);
      RunAbandoned(progress + responses);
    } else {
      var log1 := [Issued(UploadRequest())];
      assert s1 == State(Uploading, log1);
      RunAppend(s1, progress, responses);
      RunProgress(log1, o.progress);
      RunResponses(log1 + ProgressEvents(o.progress), o);
      assert UploadImageEvents(o) == log1 + ProgressEvents(o.progress) + AfterUpload(o);
    }
  }

  /** From the upload on, the three responses produce the handler's events. */
  lemma RunResponses(log: seq<Event>, o: Outcomes)
    ensures Run(State(Uploading, log), [UploadResponded(o.upload), TagsResponded(o.tagsResponse),
                                        ColorsResponded(o.colorsResponse)])
            == State(Done, log + AfterUpload(o))
  {
    var responses := [UploadResponded(o.upload), TagsResponded(o.tagsResponse),
                      ColorsResponded(o.colorsResponse)];
    var s3 := Apply(State(Uploading, log), responses[0]);
    assert responses[1..] == [responses[1], responses[2]];
    assert Run(State(Uploading, log), responses) == Run(s3, [responses[1], responses[2]]);
    match UploadAck(o.upload)
    case None =>
      assert s3 == State(Done, log + [Completed([], [])]);
      RunIgnoresFetchesWhenDone(s3.log, [responses[1], responses[2]]);
    case Some(id) =>
      assert s3 == State(FetchingTags(id), log + [Issued(TagsFetchRequest(id))]);
      RunFetches(log + [Issued(TagsFetchRequest(id))], id, o.tagsResponse, o.colorsResponse);
      assert log + [Issued(TagsFetchRequest(id))] + [Issued(ColorsFetchRequest(id)),
               Completed(DownloadTags(o.tagsResponse), DownloadColors(o.colorsResponse))]
             == log + AfterUpload(o);
  }

  /** Once finished, fetch responses have no effect, however many arrive. */
  lemma {:induction false} RunIgnoresFetchesWhenDone(log: seq<Event>, cs: seq<Callback>)
    requires forall i :: 0 <= i < |cs| ==> cs[i].TagsResponded? || cs[i].ColorsResponded?
    ensures Run(State(Done, log), cs) == State(Done, log)
    decreases |cs|
  {
    if |cs| > 0 {
      assert Step(Done, cs[0]) == (Done, []);
      assert log + [] == log;
      RunIgnoresFetchesWhenDone(log, cs[1..]);
    }
  }

  /** The tags response issues the colours request; the colours response completes. */
  lemma RunFetches(log: seq<Event>, id: string, tagsResponse: Response, colorsResponse: Response)
    ensures Run(State(FetchingTags(id), log), [TagsResponded(tagsResponse), ColorsResponded(colorsResponse)])
            == State(Done, log + [Issued(ColorsFetchRequest(id)),
                                  Completed(DownloadTags(tagsResponse), DownloadColors(colorsResponse))])
  {
    var cs := [TagsResponded(tagsResponse), ColorsResponded(colorsResponse)];
    var tags := DownloadTags(tagsResponse);
    var s4 := State(FetchingColors(id, tags), log + [Issued(ColorsFetchRequest(id))]);
    assert Apply(State(FetchingTags(id), log), cs[0]) == s4;
    assert cs[1..] == [cs[1]] && cs[1..][1..] == [];
    assert Run(State(FetchingTags(id), log), cs) == Run(s4, [cs[1]]);
    assert Run(s4, [cs[1]]) == Run(Apply(s4, cs[1]), []);
    assert s4.log + [Completed(tags, DownloadColors(colorsResponse))]
           == log + [Issued(ColorsFetchRequest(id)), Completed(tags, DownloadColors(colorsResponse))];
  }

  /** Upload failure short-circuits: when the transport fails or the acknowledgement is
      invalid, only the upload request is issued and completion runs once, empty. */
  lemma UploadFailureShortCircuits(o: Outcomes)
    requires o.jpegOk && o.encodingOk && UploadAck(o.upload).None?
    ensures Requests(UploadImageEvents(o)) == [UploadRequest()]
    ensures Completions(UploadImageEvents(o)) == [Completed([], [])]
  {
    var ps := ProgressEvents(o.progress);
    RequestsAppend([Issued(UploadRequest())] + ps, [Completed([], [])]);
    RequestsAppend([Issued(UploadRequest())], ps);
    CompletionsAppend([Issued(UploadRequest())] + ps, [Completed([], [])]);
    CompletionsAppend([Issued(UploadRequest())], ps);
    NoRequestsOrCompletionsInProgress(o.progress);
  }

  lemma {:induction false} NoRequestsOrCompletionsInProgress(reports: seq<ProgressReport>)
    ensures Requests(ProgressEvents(reports)) == []
    ensures Completions(ProgressEvents(reports)) == []
    decreases |reports|
  {
    if |reports| > 0 {
      assert ProgressEvents(reports)[1..] == ProgressEvents(reports[1..]);
      NoRequestsOrCompletionsInProgress(reports[1..]);
    }
  }

  /** On a valid acknowledgement, the tags request and then the colours request are issued
      with the acknowledged id, and completion runs once, last, with what the two
      decoders made of their responses. */
  lemma UploadSuccessSequencing(o: Outcomes, id: string)
    requires o.jpegOk && o.encodingOk && UploadAck(o.upload) == Some(id)
    ensures var events := UploadImageEvents(o);
            Requests(events) == [UploadRequest(), TagsFetchRequest(id), ColorsFetchRequest(id)]
            && Completions(events)
               == [Completed(DownloadTags(o.tagsResponse), DownloadColors(o.colorsResponse))]
            && events[|events| - 1] == Completions(events)[0]
  {
    var ps := ProgressEvents(o.progress);
    var tail := [Issued(TagsFetchRequest(id)), Issued(ColorsFetchRequest(id)),
                 Completed(DownloadTags(o.tagsResponse), DownloadColors(o.colorsResponse))];
    RequestsAppend([Issued(UploadRequest())] + ps, tail);
    RequestsAppend([Issued(UploadRequest())], ps);
    CompletionsAppend([Issued(UploadRequest())] + ps, tail);
    CompletionsAppend([Issued(UploadRequest())], ps);
    NoRequestsOrCompletionsInProgress(o.progress);
    assert tail[1..][1..] == tail[2..] == [tail[2]] && tail[2..][1..] == [];
    assert Requests(tail[2..]) == [];
    assert Requests(tail[1..]) == [ColorsFetchRequest(id)];
    assert Requests(tail) == [TagsFetchRequest(id), ColorsFetchRequest(id)];
    assert Completions(tail[2..]) == [tail[2]];
    assert Completions(tail[1..]) == [tail[2]];
    assert Completions(tail) == [tail[2]];
  }

  /** Completion runs exactly once, as the last event, on every path that reaches the
      upload response, so every progress callback precedes it; on the two early exits
      (JPEG or multipart encoding failure) nothing at all happens. */
  lemma CompletionExactlyOnce(o: Outcomes)
    ensures var events := UploadImageEvents(o);
            if o.jpegOk && o.encodingOk then
              |Completions(events)| == 1 && events[|events| - 1].Completed?
            else
              events == []
  {
    if o.jpegOk && o.encodingOk {
      match UploadAck(o.upload)
      case None => UploadFailureShortCircuits(o);
      case Some(id) => UploadSuccessSequencing(o, id);
    }
  }

  /** A tag fetch that fails does not stop the colour fetch: the completion carries no
      tags but the decoded colours. */
  lemma TagFailureKeepsColors(o: Outcomes, id: string)
    requires o.jpegOk && o.encodingOk && UploadAck(o.upload) == Some(id)
    requires o.tagsResponse.Failure?
    ensures Requests(UploadImageEvents(o)) == [UploadRequest(), TagsFetchRequest(id), ColorsFetchRequest(id)]
    ensures Completions(UploadImageEvents(o)) == [Completed([], DownloadColors(o.colorsResponse))]
  {
    UploadSuccessSequencing(o, id);
  }

  /** A worked example: upload acknowledged as `abc123`; three tag entries, one without a
      `tag`; two colour entries, the second with a red channel that is not a numeral. The
      entry without a tag is skipped; the colour entry is kept, with no red value. */
  lemma WorkedExample()
    ensures
      var o := Outcomes(true, true, [ProgressReport(10, 100), ProgressReport(50, 100),
                                     ProgressReport(100, 100)],
                        Success(AckResponse("abc123", [])), Success(ExampleTags()),
                        Success(ExampleColors()));
      Completions(UploadImageEvents(o))
      == [Completed(["cat", "grass"],
                    [PhotoColor(Some(10), Some(20), Some(30), "forest"),
                     PhotoColor(None, Some(1), Some(2), "bad")])]
  {
    var o := Outcomes(true, true, [ProgressReport(10, 100), ProgressReport(50, 100),
                                   ProgressReport(100, 100)],
                      Success(AckResponse("abc123", [])), Success(ExampleTags()),
                      Success(ExampleColors()));
    AckRoundTrip("abc123", []);
    UploadSuccessSequencing(o, "abc123");
    ExampleTagsDecode();
    ExampleColorsDecode();
  }

  // ---------------------------------------------------------------------------
  // The view controller

  /** Appending an event that is not a request keeps the request order. */
  lemma NonRequestKeepsOrder(log: seq<Event>, e: Event)
    requires TagsBeforeColors(log) && !e.Issued?
    ensures TagsBeforeColors(log + [e])
  {
    TagsBeforeColorsAppend(log, [e]);
  }

  lemma FirstCompletion(log: seq<Event>, e: Event)
    requires Completions(log) == [] && e.Completed?
    ensures Completions(log + [e]) == [e]
  {
    CompletionsAppend(log, [e]);
    assert Completions([e]) == [e] by {
      assert [e][1..] == [];
    }
  }

  /** Invoking completion from a state that has not completed keeps the invariant, and
      that invocation is then the only one. */
  lemma CompletionKeepsInv(s: State, newTags: seq<string>, newColors: seq<PhotoColor>)
    requires Inv(s) && (s.phase.Uploading? || s.phase.FetchingColors?)
    ensures Inv(State(Done, s.log + [Completed(newTags, newColors)]))
    ensures Completions(s.log + [Completed(newTags, newColors)]) == [Completed(newTags, newColors)]
  {
    FirstCompletion(s.log, Completed(newTags, newColors));
    NonRequestKeepsOrder(s.log, Completed(newTags, newColors));
  }

  /** The view controller's networking state for one upload: the stored `tags` and
      `colors` that the completion closure assigns, where the upload stands, and what has
      been observed so far. */
  class ViewController {
    var tags: Option<seq<string>>
    var colors: Option<seq<PhotoColor>>
    var phase: Phase
    var log: seq<Event>

    /** The stored tags and colours are set exactly when completion has run, and hold
        what it was invoked with. */
    ghost predicate Valid()
      reads this
    {
      Inv(State(phase, log))
      && (tags.Some? <==> phase.Done?) && (colors.Some? <==> phase.Done?)
      && (phase.Done? ==> Completions(log) == [Completed(tags.value, colors.value)])
    }

    constructor ()
      ensures Valid() && phase == Idle && log == [] && tags == None && colors == None
    {
      tags, colors := None, None;
      phase, log := Idle, [];
    }

    /** The completion closure: stores the tags and colours and records the invocation. */
    method Complete(newTags: seq<string>, newColors: seq<PhotoColor>)
      requires Valid() && (phase.Uploading? || phase.FetchingColors?)
      modifies this
      ensures Valid()
      ensures phase == Done && tags == Some(newTags) && colors == Some(newColors)
      ensures log == old(log) + [Completed(newTags, newColors)]
    {
      CompletionKeepsInv(State(phase, log), newTags, newColors);
      log := log + [Completed(newTags, newColors)];
      phase := Done;
      tags, colors := Some(newTags), Some(newColors);
    }

    method UploadImage(jpegOk: bool)
      requires Valid() && phase == Idle
      modifies this
      ensures Valid() && State(phase, log) == Apply(old(State(phase, log)), UploadImageCalled(jpegOk))
      ensures phase == (if jpegOk then Encoding else Abandoned) && log == []
      ensures tags == old(tags) && colors == old(colors)
    {
      if !jpegOk {
        phase := Abandoned;
        return;
      }
      phase := Encoding;
    }

    method OnEncodingCompletion(ok: bool)
      requires Valid() && phase == Encoding
      modifies this
      ensures Valid() && State(phase, log) == Apply(old(State(phase, log)), EncodingCompleted(ok))
      ensures ok ==> phase == Uploading && log == [Issued(UploadRequest())]
      ensures !ok ==> phase == Abandoned && log == []
      ensures tags == old(tags) && colors == old(colors)
    {
      if ok {
        log := log + [Issued(UploadRequest())];
        phase := Uploading;
      } else {
        phase := Abandoned;
      }
    }

    method OnUploadProgress(report: ProgressReport)
      requires Valid() && UploadStarted(phase)
      modifies this
      ensures Valid() && State(phase, log) == Apply(old(State(phase, log)), UploadProgressed(report))
      ensures phase == old(phase) && log == old(log) + [Progress(report)]
      ensures tags == old(tags) && colors == old(colors)
    {
      CompletionsAppend(log, [Progress(report)]);
      NonRequestKeepsOrder(log, Progress(report));
      log := log + [Progress(report)];
    }

    method OnUploadResponse(response: Response)
      requires Valid() && phase == Uploading
      modifies this
      ensures Valid() && State(phase, log) == Apply(old(State(phase, log)), UploadResponded(response))
      ensures UploadAck(response).None? ==>
                phase == Done && tags == Some([]) && colors == Some([])
                && log == old(log) + [Completed([], [])]
      ensures UploadAck(response).Some? ==>
                phase == FetchingTags(UploadAck(response).value)
                && log == old(log) + [Issued(TagsFetchRequest(UploadAck(response).value))]
                && tags == old(tags) && colors == old(colors)
    {
      if response.Failure? {
        Complete([], []);
        return;
      }
      var firstFileID := DecodeUploadAck(response.value);
      if firstFileID.None? {
        Complete([], []);
        return;
      }
      var e := Issued(TagsFetchRequest(firstFileID.value));
      CompletionsAppend(log, [e]);
      TagsBeforeColorsAppend(log, [e]);
      log := log + [e];
      phase := FetchingTags(firstFileID.value);
    }

    method OnTagsResponse(response: Response)
      requires Valid() && phase.FetchingTags?
      modifies this
      ensures Valid() && State(phase, log) == Apply(old(State(phase, log)), TagsResponded(response))
      ensures phase == FetchingColors(old(phase).contentID, DownloadTags(response))
      ensures log == old(log) + [Issued(ColorsFetchRequest(old(phase).contentID))]
      ensures tags == old(tags) && colors == old(colors)
    {
      StepKeepsInv(State(phase, log), TagsResponded(response));
      var id := phase.contentID;
      log := log + [Issued(ColorsFetchRequest(id))];
      phase := FetchingColors(id, DownloadTags(response));
    }

    method OnColorsResponse(response: Response)
      requires Valid() && phase.FetchingColors?
      modifies this
      ensures Valid() && State(phase, log) == Apply(old(State(phase, log)), ColorsResponded(response))
      ensures phase == Done && tags == Some(old(phase).tags)
              && colors == Some(DownloadColors(response))
      ensures log == old(log) + [Completed(old(phase).tags, DownloadColors(response))]
    {
      Complete(phase.tags, DownloadColors(response));
    }
  }
}
