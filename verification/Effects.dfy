/** What each service operation amounts to, stated on the rows alone: reference
    definitions that name no step of the services. */
module Effects {
  import opened Model
  import opened Statements
  import opened Data

  // ---- enqueueing a task

  /** A task as it is created: pending, never retried, with nothing reported. */
  function Waiting(document: nat, m: Module, path: string, request: Option<nat>, now: int): Task {
    Task(document, m, Pending, None, EMPTY_PAYLOAD, None, 0, path, request, now)
  }

  /** The row is added and one message published for it; if that fails, so does
      the task. */
  function Enqueue(s: State, row: Task, kwargs: Kwargs): State {
    var outcome := s.broker(|s.log|);
    s.(tasks := s.tasks + [if outcome == Delivered then row else row.(status := Failed, error := Some(PublishError))],
       log := s.log + [Attempt(Message(|s.tasks|, row.document, row.moduleName, row.input, kwargs), outcome)])
  }

  function WithStatus(s: State, id: nat, status: RequestStatus, error: Option<ErrorText>): State {
    if id < |s.requests| then s.(requests := s.requests[id := s.requests[id].(status := status, error := error)]) else s
  }

  /** A convert or anonymize task, once for each document. */
  function Ensured(s: State, d: nat, m: Module, path: string): State {
    var row := Waiting(d, m, path, None, s.clock);
    if InsertOutcome(s, row).Row? then Enqueue(s, row, NoKwargs) else s
  }

  /** The request's resolve_keys task, with its questions and the keys that the
      tenant may see. A request that was pending is running from then on; one
      whose message was not delivered has failed. */
  function Asked(s: State, id: nat, req: Request, org: nat, path: string): State {
    var row := Waiting(req.document, ResolveKeys, path, Some(id), s.clock);
    if !InsertOutcome(s, row).Row? then s
    else
      var s1 := Enqueue(s, row, ResolveArgs(req.questions, ListExtractionKeysByOrg(s.keys, org)));
      if s.broker(|s.log|) != Delivered then WithStatus(s1, id, RequestFailed, Some(PublishResolveFailed))
      else if req.status == RequestPending then WithStatus(s1, id, RequestRunning, None)
      else s1
  }

  /** The extract task with its schema; a request whose task was refused, or whose
      message was not delivered, has failed. */
  function Extracting(s: State, id: nat, req: Request, path: string, schema: seq<SchemaEntry>): State {
    var row := Waiting(req.document, Extract, path, Some(id), s.clock);
    match InsertOutcome(s, row)
    case Conflict => s
    case Rejected => WithStatus(s, id, RequestFailed, Some(PipelineAfterResolve))
    case Row(_) =>
      var s1 := Enqueue(s, row, ExtractArgs(schema));
      if s.broker(|s.log|) == Delivered then s1 else WithStatus(s1, id, RequestFailed, Some(PipelineAfterResolve))
  }

  // ---- requests

  /** The next stage of a request, as it was read, by the artifacts that its
      document has. */
  function Progressed(s: State, id: nat, req: Request): State {
    var d := req.document;
    if (req.status != RequestPending && req.status != RequestRunning) || d >= |s.documents| then s
    else
      var doc := s.documents[d];
      var md := ArtifactPath(s.documents, d, doc.org, ConvertMd);
      var anonymized := ArtifactPath(s.documents, d, doc.org, AnonymizeDoc);
      if req.anonymize then
        if anonymized.Some? then Asked(s, id, req, doc.org, anonymized.value)
        else if md.Some? then Ensured(s, d, Anonymize, md.value)
        else Ensured(s, d, Convert, doc.path)
      else if md.Some? then Asked(s, id, req, doc.org, md.value)
      else Ensured(s, d, Convert, doc.path)
  }

  function Initiated(s: State, d: nat, org: nat, questions: seq<string>, anonymize: bool): State {
    var row := Request(d, org, questions, anonymize, RequestPending, [], None);
    Progressed(s.(requests := s.requests + [row]), |s.requests|, row)
  }

  /** The public convert task; its publish is best effort. */
  function PubliclyCreated(s: State, d: nat): State
    requires d < |s.documents|
  {
    var path := s.documents[d].path;
    var row := Waiting(d, Convert, path, None, s.clock);
    if !InsertOutcome(s, row).Row? then s
    else s.(tasks := s.tasks + [row],
            log := s.log + [Attempt(Message(|s.tasks|, d, Convert, path, NoKwargs), s.broker(|s.log|))])
  }

  /** The requests ids, as they were read at once, one after the other. */
  function Swept(read: seq<Request>, s: State, ids: seq<nat>): State
    requires forall k :: 0 <= k < |ids| ==> ids[k] < |read|
    decreases |ids|
  {
    if ids == [] then s else Swept(read, Progressed(s, ids[0], read[ids[0]]), ids[1..])
  }

  /** All requests of a document that are in flight progress, oldest first. */
  function SweptAll(s: State, d: nat): State {
    Swept(s.requests, s, ListPendingRequests(s.requests, d))
  }

  // ---- worker callbacks

  /** A worker's update: what it gives replaces what was there, what it leaves out
      stays, and the row is stamped. */
  function Updated(t: Task, upd: StatusUpdate, now: int): Task {
    Task(t.document, t.moduleName, upd.status,
         if upd.celeryId.Some? then upd.celeryId else t.celeryId,
         if upd.payload.Some? then upd.payload.value else t.payload,
         if upd.error.Some? then upd.error else t.error,
         t.retries, t.input, t.request, now)
  }

  function WithPayload(s: State, t: nat, p: Payload): State
    requires t < |s.tasks|
  {
    s.(tasks := s.tasks[t := s.tasks[t].(payload := p, updatedAt := s.clock)])
  }

  /** A markdown path: the file is registered, the payload names its row, and the
      anonymize task is there. */
  function AfterConvert(s: State, t: nat, d: nat, p: Payload): State
    requires t < |s.tasks|
  {
    var md := p.AsConvert();
    if md.None? || md.value == "" then s
    else if d >= |s.documents| then Ensured(s, d, Anonymize, md.value)
    else
      var row := ArtifactRow(s.documents, d, ConvertMd);
      var saved := CreateArtifactDocument(s, s.documents[d].org, d, ConvertMd, md.value);
      Ensured(WithPayload(saved, t, ConvertFinal(row)), d, Anonymize, md.value)
  }

  /** Whichever of the two files there are get registered; the payload names their
      rows, unless there are none. */
  function AfterAnonymize(s: State, t: nat, d: nat, p: Payload): State
    requires t < |s.tasks|
  {
    var a := p.AsAnonymize();
    if a.None? || (a.value.document == "" && a.value.entities == "") || d >= |s.documents| then s
    else
      var org, file, entities := s.documents[d].org, a.value.document, a.value.entities;
      var s1 := if file == "" then s else CreateArtifactDocument(s, org, d, AnonymizeDoc, file);
      var s2 := if entities == "" then s1 else CreateArtifactDocument(s1, org, d, AnonymizeEntities, entities);
      WithPayload(s2, t, AnonymizeFinal(
        if file == "" then None else Some(ArtifactRow(s.documents, d, AnonymizeDoc)),
        if entities == "" then None else Some(ArtifactRow(s1.documents, d, AnonymizeEntities))))
  }

  /** New keys and the schema are stored, and the extract task follows; a result
      that cannot be used fails the request. */
  function AfterResolve(s: State, r: nat, p: Payload): State {
    var parsed := p.AsResolve();
    if parsed.None? || parsed.value.schema == [] || r >= |s.requests|
    then WithStatus(s, r, RequestFailed, Some(PipelineAfterResolve))
    else
      var req, schema := s.requests[r], parsed.value.schema;
      var d, kind := req.document, if req.anonymize then AnonymizeDoc else ConvertMd;
      var s1 := s.(keys := UpsertAll(s.keys, req.org, parsed.value.newKeys),
                   requests := s.requests[r := req.(schema := schema)],
                   stored := s.stored + {Stored(r, schema)});
      var path := if d < |s.documents| then ArtifactPath(s.documents, d, s.documents[d].org, kind) else None;
      if path.None? then WithStatus(s1, r, RequestFailed, Some(PipelineAfterResolve))
      else Extracting(s1, r, req, path.value, schema)
  }

  /** The values are saved under their keys and the request is completed. */
  function AfterExtract(s: State, r: nat, p: Payload): State {
    var data := p.AsExtract();
    if data.None? || r >= |s.requests| then WithStatus(s, r, RequestFailed, Some(PipelineAfterExtract))
    else
      var req := s.requests[r];
      WithStatus(s.(extracted := SaveValues(s.extracted, req.org, req.document, Writes(s.keys, req.org, data.value))),
                 r, RequestCompleted, None)
  }

  /** Every request of the document that is pending or running has failed. */
  function FannedOut(s: State, d: nat, m: Module): State {
    s.(requests := seq(|s.requests|, i requires 0 <= i < |s.requests| =>
      var r := s.requests[i];
      if r.document == d && (r.status == RequestPending || r.status == RequestRunning)
      then r.(status := RequestFailed, error := Some(PrerequisiteFailed(m))) else r))
  }

  function CalledBack(s: State, t: nat, upd: StatusUpdate): State
    requires t < |s.tasks|
  {
    var task := Updated(s.tasks[t], upd, s.clock);
    var d, s1 := task.document, s.(tasks := s.tasks[t := task], reported := s.reported + Reports(s.tasks[t], upd));
    match (task.status, task.moduleName)
    case (Completed, Convert) => SweptAll(AfterConvert(s1, t, d, task.payload), d)
    case (Completed, Anonymize) => SweptAll(AfterAnonymize(s1, t, d, task.payload), d)
    case (Completed, ResolveKeys) =>
      if task.request.None? then s1 else AfterResolve(s1, task.request.value, task.payload)
    case (Completed, Extract) =>
      if task.request.None? then s1 else AfterExtract(s1, task.request.value, task.payload)
    case (Failed, Convert) => FannedOut(s1, d, Convert)
    case (Failed, Anonymize) => FannedOut(s1, d, Anonymize)
    case (Failed, _) =>
      if task.request.None? then s1
      else
        var error := if task.error.Some? then task.error.value else TaskFailed;
        WithStatus(s1, task.request.value, RequestFailed, Some(error))
    case _ => s1
  }

  // ---- the watchdog

  /** Up to so many attempts, each but the first after a refusal. */
  function Attempted(s: State, msg: Message, left: nat): (s': State)
    ensures s' == s.(log := s'.log) && s.log <= s'.log
    decreases left
  {
    if left == 0 then s
    else
      var outcome := s.broker(|s.log|);
      var s1 := s.(log := s.log + [Attempt(msg, outcome)]);
      if outcome == Refused then Attempted(s1, msg, left - 1) else s1
  }

  /** A stale task is failed when its retries are used up; else it is pending
      again, with one retry less, and its message is sent without arguments. */
  function Revisited(s: State, i: nat): (s': State)
    requires i < |s.tasks|
    ensures |s'.tasks| == |s.tasks|
  {
    var t := s.tasks[i];
    if t.retries >= s.config.maxRetries then
      s.(tasks := s.tasks[i := t.(status := Failed, error := Some(StaleTask(t.retries, s.config.maxRetries)),
                                  updatedAt := s.clock)])
    else
      Attempted(s.(tasks := s.tasks[i := t.(status := Pending, retries := t.retries + 1, celeryId := None,
                                            error := None, updatedAt := s.clock)],
                   claims := s.claims + [Claim(i, s.clock)]),
                Message(i, t.document, t.moduleName, t.input, NoKwargs), 3)
  }

  function Scanned(s: State, ids: seq<nat>): (s': State)
    requires forall k :: 0 <= k < |ids| ==> ids[k] < |s.tasks|
    ensures |s'.tasks| == |s.tasks|
    decreases |ids|
  {
    if ids == [] then s else Scanned(Revisited(s, ids[0]), ids[1..])
  }
}
