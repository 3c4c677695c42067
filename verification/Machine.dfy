/** The services cut into steps. An operation executes one SQL statement, one
    publish attempt or one clock reading, and leaves behind the operations that
    the code performs next, each holding what the code has read so far. */
module Machine {
  import opened Model
  import opened Statements

  /** What the code does when a publish fails. */
  datatype OnError = Ignore | FailTaskOnly | FailResolve(request: nat) | FailExtract(request: nat)

  /** What a convert or anonymize callback asks to register. */
  datatype Found = Markdown(path: string) | Anonymized(result: AnonymizeResult)

  datatype Op =
    // ExtractionService.Initiate
    | CheckDocument(document: nat, org: nat, questions: seq<string>, anonymize: bool)
    | CreateRequest(document: nat, org: nat, questions: seq<string>, anonymize: bool)
    // ExtractionService.Progress and enqueueResolveKeys
    | ProgressDocument(id: nat, req: Request)
    | ProgressArtifacts(id: nat, req: Request, doc: Document)
    | ResolveListKeys(id: nat, req: Request, org: nat, path: string)
    | ResolveInsert(id: nat, req: Request, path: string, existing: seq<NewKey>)
    // ensureConvertTask, ensureAnonymizeTask, triggerAnonymize
    | EnsureTask(document: nat, moduleName: Module, path: string)
    | PublishTask(msg: Message, onError: OnError)
    | FailTask(task: nat)
    | SetRequestStatus(id: nat, status: RequestStatus, error: Option<ErrorText>)
    // WorkerService.HandleStatusUpdate
    | Callback(task: nat, update: StatusUpdate)
    | LoadParent(task: nat, document: nat, found: Found)
    | SaveArtifact(task: nat, document: nat, org: nat, kind: Kind, path: string, anonymized: Option<nat>,
                   entities: string)
    | SetPayload(task: nat, payload: Payload)
    | ProgressPending(document: nat)
    | FailPending(document: nat, moduleName: Module)
    // ExtractionService.OnResolveKeysCompleted and enqueueExtract
    | ResolveLoad(id: nat, result: ResolveResult)
    | UpsertNewKey(org: nat, key: NewKey)
    | SetSchema(id: nat, req: Request, schema: seq<SchemaEntry>)
    | ExtractDocument(id: nat, req: Request, schema: seq<SchemaEntry>)
    | ExtractArtifacts(id: nat, req: Request, org: nat, schema: seq<SchemaEntry>)
    | ExtractInsert(id: nat, req: Request, path: string, schema: seq<SchemaEntry>)
    // ExtractionService.OnExtractCompleted
    | ExtractLoad(id: nat, data: Extracted)
    | ExtractKeys(req: Request, data: Extracted)
    | SaveData(org: nat, document: nat, values: map<nat, string>)
    // DocumentTaskService and DocumentService
    | PublicCreate(document: nat, org: nat)
    | PublicStatus(task: nat, org: nat, taskStatus: TaskStatus)
    | Upload(org: nat, path: string)
    // watchdog
    | WatchdogClock
    | WatchdogList(cutoff: int)
    | WatchdogClaim(cutoff: int, row: StaleRow)
    | Republish(msg: Message, attempt: nat)

  const MAX_PUBLISH_ATTEMPTS: nat := 3

  // ---- the row each insert proposes

  function EnsureRow(s: State, document: nat, m: Module, path: string): Task {
    NewTask(s, document, m, path, None)
  }

  function RequestRow(s: State, id: nat, req: Request, m: Module, path: string): Task {
    NewTask(s, req.document, m, path, Some(id))
  }

  function PublicRow(s: State, document: nat): Task
    requires document < |s.documents|
  {
    NewTask(s, document, Convert, s.documents[document].path, None)
  }

  function TaskMessage(id: nat, t: Task, kwargs: Kwargs): Message {
    Message(id, t.document, t.moduleName, t.input, kwargs)
  }

  const FAILED_TO_PUBLISH := StatusUpdate(Failed, None, None, Some(PublishError))

  /** The state after the operation's statement. */
  function After(s: State, op: Op): State {
    match op
    case CreateRequest(d, org, questions, anonymize) =>
      CreateExtractionRequest(s, NewRequest(d, org, questions, anonymize))
    case ResolveInsert(id, req, path, _) => InsertTask(s, RequestRow(s, id, req, ResolveKeys, path))
    case EnsureTask(d, m, path) => InsertTask(s, EnsureRow(s, d, m, path))
    case PublishTask(msg, _) => Publish(s, msg)
    case FailTask(t) => UpdateWorkerTaskStatus(s, t, FAILED_TO_PUBLISH)
    case SetRequestStatus(id, status, error) => SetExtractionRequestStatus(s, id, status, error)
    case Callback(t, upd) =>
      if t < |s.tasks| then
        UpdateWorkerTaskStatus(s, t, upd).(reported := s.reported + Reports(s.tasks[t], upd))
      else s
    case SaveArtifact(_, d, org, kind, path, _, _) => CreateArtifactDocument(s, org, d, kind, path)
    case SetPayload(t, p) => UpdateTaskResultPayload(s, t, p)
    case UpsertNewKey(org, k) => s.(keys := UpsertKey(s.keys, org, k))
    case SetSchema(id, _, schema) => SetExtractionRequestResolvedSchema(s, id, schema)
    case ExtractInsert(id, req, path, _) => InsertTask(s, RequestRow(s, id, req, Extract, path))
    case SaveData(org, d, values) => s.(extracted := SaveValues(s.extracted, org, d, values))
    case PublicCreate(d, org) =>
      if d < |s.documents| && s.documents[d].org == org then InsertTask(s, PublicRow(s, d)) else s
    case PublicStatus(t, org, status) => UpdateDocumentTaskStatus(s, t, org, status)
    case Upload(org, path) => CreateDocument(s, org, path)
    case WatchdogClaim(cutoff, row) =>
      if row.retries >= s.config.maxRetries
      then MarkStaleTaskFailed(s, row.id, cutoff, StaleTask(row.retries, s.config.maxRetries))
      else MarkStaleTaskPending(s, row.id, cutoff)
    case Republish(msg, _) => Publish(s, msg)
    case _ => s
  }

  // ---- what follows

  function ProgressOps(id: nat, req: Request): seq<Op> {
    if InFlight(req) then [ProgressDocument(id, req)] else []
  }

  /** Progress's decision: which module to enqueue, given the artifacts. */
  function Decide(documents: seq<Document>, id: nat, req: Request, doc: Document): Op {
    match ArtifactPath(documents, req.document, doc.org, TargetKind(req.anonymize))
    case Some(path) => ResolveListKeys(id, req, doc.org, path)
    case None =>
      match ArtifactPath(documents, req.document, doc.org, ConvertMd)
      case Some(md) => if req.anonymize then EnsureTask(req.document, Anonymize, md)
                       else EnsureTask(req.document, Convert, doc.path)
      case None => EnsureTask(req.document, Convert, doc.path)
  }

  function PublishFailed(msg: Message, onError: OnError): seq<Op> {
    match onError
    case Ignore => []
    case FailTaskOnly => [FailTask(msg.task)]
    case FailResolve(r) => [FailTask(msg.task), SetRequestStatus(r, RequestFailed, Some(PublishResolveFailed))]
    case FailExtract(r) =>
      [FailTask(msg.task), SetRequestStatus(r, RequestFailed, Some(PublishExtractFailed)), ResolveError(r)]
  }

  /** How HandleStatusUpdate reacts to an error of OnResolveKeysCompleted. */
  function ResolveError(r: nat): Op {
    SetRequestStatus(r, RequestFailed, Some(PipelineAfterResolve))
  }

  function ExtractError(r: nat): Op {
    SetRequestStatus(r, RequestFailed, Some(PipelineAfterExtract))
  }

  /** Everything HandleStatusUpdate does after persisting the update. */
  function Chain(task: nat, t: Task): seq<Op> {
    match (t.moduleName, t.status)
    case (Convert, Completed) => ConvertOps(task, t) + [ProgressPending(t.document)]
    case (Anonymize, Completed) => AnonymizeOps(task, t) + [ProgressPending(t.document)]
    case (ResolveKeys, Completed) => if t.request.None? then [] else ResolveOps(t.request.value, t.payload)
    case (Extract, Completed) => if t.request.None? then [] else ExtractOps(t.request.value, t.payload)
    case (Convert, Failed) => [FailPending(t.document, Convert)]
    case (Anonymize, Failed) => [FailPending(t.document, Anonymize)]
    case (_, Failed) =>
      if t.request.None? then []
      else [SetRequestStatus(t.request.value, RequestFailed, Some(if t.error.Some? then t.error.value else TaskFailed))]
    case _ => []
  }

  function ConvertOps(task: nat, t: Task): seq<Op> {
    match t.payload.AsConvert()
    case None => []
    case Some(md) =>
      if md == "" then [] else [LoadParent(task, t.document, Markdown(md)), EnsureTask(t.document, Anonymize, md)]
  }

  function AnonymizeOps(task: nat, t: Task): seq<Op> {
    match t.payload.AsAnonymize()
    case None => []
    case Some(result) => [LoadParent(task, t.document, Anonymized(result))]
  }

  function ResolveOps(r: nat, p: Payload): seq<Op> {
    match p.AsResolve()
    case None => [ResolveError(r)]
    case Some(result) => if result.schema == [] then [ResolveError(r)] else [ResolveLoad(r, result)]
  }

  function ExtractOps(r: nat, p: Payload): seq<Op> {
    match p.AsExtract()
    case None => [ExtractError(r)]
    case Some(data) => [ExtractLoad(r, data)]
  }

  function SaveFound(task: nat, document: nat, org: nat, found: Found): seq<Op> {
    match found
    case Markdown(path) => [SaveArtifact(task, document, org, ConvertMd, path, None, "")]
    case Anonymized(a) =>
      if a.document != "" then [SaveArtifact(task, document, org, AnonymizeDoc, a.document, None, a.entities)]
      else if a.entities != "" then [SaveArtifact(task, document, org, AnonymizeEntities, a.entities, None, "")]
      else []
  }

  function ProgressAll(s: State, ids: seq<nat>): seq<Op>
    requires forall i :: 0 <= i < |ids| ==> ids[i] < |s.requests|
  {
    seq(|ids|, i requires 0 <= i < |ids| => ProgressDocument(ids[i], s.requests[ids[i]]))
  }

  function FailAll(ids: seq<nat>, m: Module): seq<Op> {
    seq(|ids|, i requires 0 <= i < |ids| => SetRequestStatus(ids[i], RequestFailed, Some(PrerequisiteFailed(m))))
  }

  function UpsertOps(org: nat, newKeys: seq<NewKey>): seq<Op> {
    seq(|newKeys|, i requires 0 <= i < |newKeys| => UpsertNewKey(org, newKeys[i]))
  }

  function ClaimOps(cutoff: int, rows: seq<StaleRow>): seq<Op> {
    seq(|rows|, i requires 0 <= i < |rows| => WatchdogClaim(cutoff, rows[i]))
  }

  /** The operations left to do once the operation's statement has executed. */
  function Next(s: State, op: Op): seq<Op> {
    match op
    case CheckDocument(d, org, questions, anonymize) =>
      if d < |s.documents| && s.documents[d].org == org then [CreateRequest(d, org, questions, anonymize)] else []
    case CreateRequest(d, org, questions, anonymize) =>
      [ProgressDocument(|s.requests|, NewRequest(d, org, questions, anonymize))]
    case ProgressDocument(id, req) =>
      if req.document < |s.documents| then [ProgressArtifacts(id, req, s.documents[req.document])] else []
    case ProgressArtifacts(id, req, doc) => [Decide(s.documents, id, req, doc)]
    case ResolveListKeys(id, req, org, path) =>
      [ResolveInsert(id, req, path, ListExtractionKeysByOrg(s.keys, org))]
    case ResolveInsert(id, req, path, existing) =>
      var row := RequestRow(s, id, req, ResolveKeys, path);
      if !InsertOutcome(s, row).Row? then []
      else
        (if req.status == RequestPending then [SetRequestStatus(id, RequestRunning, None)] else []) +
        [PublishTask(TaskMessage(|s.tasks|, row, ResolveArgs(req.questions, existing)), FailResolve(id))]
    case EnsureTask(d, m, path) =>
      var row := EnsureRow(s, d, m, path);
      if InsertOutcome(s, row).Row? then [PublishTask(TaskMessage(|s.tasks|, row, NoKwargs), FailTaskOnly)] else []
    case PublishTask(msg, onError) =>
      if s.broker(|s.log|) == Delivered then [] else PublishFailed(msg, onError)
    case Callback(t, upd) =>
      if t < |s.tasks| then Chain(t, WorkerRow(s.tasks[t], upd)) else []
    case LoadParent(t, d, found) =>
      if d < |s.documents| then SaveFound(t, d, s.documents[d].org, found) else []
    case SaveArtifact(t, d, org, kind, path, anonymized, entities) =>
      var row := ArtifactRow(s.documents, d, kind);
      (match kind
       case ConvertMd => [SetPayload(t, ConvertFinal(row))]
       case AnonymizeDoc =>
         if entities != "" then [SaveArtifact(t, d, org, AnonymizeEntities, entities, Some(row), "")]
         else [SetPayload(t, AnonymizeFinal(Some(row), None))]
       case AnonymizeEntities => [SetPayload(t, AnonymizeFinal(anonymized, Some(row)))])
    case ProgressPending(d) => ProgressAll(s, ListPendingRequests(s.requests, d))
    case FailPending(d, m) => FailAll(ListPendingRequests(s.requests, d), m)
    case ResolveLoad(id, result) =>
      if id < |s.requests|
      then UpsertOps(s.requests[id].org, result.newKeys) + [SetSchema(id, s.requests[id], result.schema)]
      else [ResolveError(id)]
    case SetSchema(id, req, schema) =>
      if id < |s.requests| then [ExtractDocument(id, req, schema)] else [ResolveError(id)]
    case ExtractDocument(id, req, schema) =>
      if req.document < |s.documents| then [ExtractArtifacts(id, req, s.documents[req.document].org, schema)]
      else [ResolveError(id)]
    case ExtractArtifacts(id, req, org, schema) =>
      (match ArtifactPath(s.documents, req.document, org, TargetKind(req.anonymize))
       case None => [ResolveError(id)]
       case Some(path) => [ExtractInsert(id, req, path, schema)])
    case ExtractInsert(id, req, path, schema) =>
      var row := RequestRow(s, id, req, Extract, path);
      (match InsertOutcome(s, row)
       case Rejected => [ResolveError(id)]
       case Conflict => []
       case Row(t) => [PublishTask(TaskMessage(t, row, ExtractArgs(schema)), FailExtract(id))])
    case ExtractLoad(id, data) =>
      if id >= |s.requests| then [ExtractError(id)]
      else (if data != map[] then [ExtractKeys(s.requests[id], data)] else []) +
           [SetRequestStatus(id, RequestCompleted, None)]
    case ExtractKeys(req, data) =>
      var values := Writes(s.keys, req.org, data);
      if values == map[] then [] else [SaveData(req.org, req.document, values)]
    case PublicCreate(d, org) =>
      if d < |s.documents| && s.documents[d].org == org && InsertOutcome(s, PublicRow(s, d)).Row?
      then [PublishTask(TaskMessage(|s.tasks|, PublicRow(s, d), NoKwargs), Ignore)] else []
    case WatchdogClock => [WatchdogList(s.clock - s.config.threshold)]
    case WatchdogList(cutoff) => ClaimOps(cutoff, ListStaleTasks(s, cutoff))
    case WatchdogClaim(cutoff, row) =>
      if row.retries < s.config.maxRetries && Claimable(s, row.id, cutoff)
      then [Republish(Message(row.id, row.document, row.moduleName, row.input, NoKwargs), 1)] else []
    case Republish(msg, attempt) =>
      if s.broker(|s.log|) == Refused && attempt < MAX_PUBLISH_ATTEMPTS then [Republish(msg, attempt + 1)] else []
    case _ => []
  }

  // ---- running to completion

  /** Bounds the chain of operations one operation can lead to. */
  function Rank(op: Op): nat {
    match op
    case CheckDocument(_, _, _, _) => 7
    case CreateRequest(_, _, _, _) => 6
    case ProgressDocument(_, _) => 5
    case ProgressArtifacts(_, _, _) => 4
    case ResolveListKeys(_, _, _, _) => 3
    case ResolveInsert(_, _, _, _) => 2
    case EnsureTask(_, _, _) => 2
    case PublishTask(_, _) => 1
    case Callback(_, _) => 8
    case LoadParent(_, _, _) => 3
    case SaveArtifact(_, _, _, kind, _, _, _) => if kind == AnonymizeDoc then 2 else 1
    case ProgressPending(_) => 6
    case FailPending(_, _) => 1
    case ResolveLoad(_, _) => 6
    case SetSchema(_, _, _) => 5
    case ExtractDocument(_, _, _) => 4
    case ExtractArtifacts(_, _, _, _) => 3
    case ExtractInsert(_, _, _, _) => 2
    case ExtractLoad(_, _) => 2
    case ExtractKeys(_, _) => 1
    case PublicCreate(_, _) => 2
    case WatchdogClock => 6
    case WatchdogList(_) => 5
    case WatchdogClaim(_, _) => 4
    case Republish(_, attempt) => if attempt <= MAX_PUBLISH_ATTEMPTS then MAX_PUBLISH_ATTEMPTS - attempt else 0
    case _ => 0
  }

  function Level(ops: seq<Op>): (n: nat)
    ensures forall i :: 0 <= i < |ops| ==> Rank(ops[i]) < n
    ensures n == 0 || exists i :: 0 <= i < |ops| && n == Rank(ops[i]) + 1
  {
    if ops == [] then 0
    else
      var rest := Level(ops[1..]);
      if Rank(ops[0]) + 1 > rest then Rank(ops[0]) + 1
      else
        assert rest > 0;
        var i :| 0 <= i < |ops[1..]| && rest == Rank(ops[1..][i]) + 1;
        assert ops[i + 1] == ops[1..][i];
        rest
  }

  // The operations by the code they belong to.

  predicate OfRequest(op: Op) {
    op.CheckDocument? || op.CreateRequest? || op.ProgressDocument? || op.ProgressArtifacts? || op.ResolveListKeys? ||
    op.ResolveInsert? || op.EnsureTask? || op.PublishTask? || op.FailTask? || op.SetRequestStatus?
  }

  predicate OfCallback(op: Op) {
    op.Callback? || op.LoadParent? || op.SaveArtifact? || op.SetPayload? || op.ProgressPending? || op.FailPending?
  }

  predicate OfResult(op: Op) {
    op.ResolveLoad? || op.UpsertNewKey? || op.SetSchema? || op.ExtractDocument? || op.ExtractArtifacts? ||
    op.ExtractInsert? || op.ExtractLoad? || op.ExtractKeys? || op.SaveData?
  }

  predicate OfWatchdog(op: Op) {
    op.WatchdogClock? || op.WatchdogList? || op.WatchdogClaim? || op.Republish?
  }

  predicate Below(ops: seq<Op>, n: nat) {
    forall i :: 0 <= i < |ops| ==> Rank(ops[i]) < n
  }

  lemma RequestRanks(s: State, op: Op)
    requires OfRequest(op)
    ensures Below(Next(s, op), Rank(op))
  {
  }

  lemma CallbackRanks(s: State, op: Op)
    requires OfCallback(op)
    ensures Below(Next(s, op), Rank(op))
  {
  }

  lemma ResultRanks(s: State, op: Op)
    requires OfResult(op) && !op.ResolveLoad?
    ensures Below(Next(s, op), Rank(op))
  {
    hide ArtifactPath, InsertOutcome, Writes;
  }

  lemma ResolveRanks(s: State, op: Op)
    requires op.ResolveLoad?
    ensures Below(Next(s, op), Rank(op))
  {
  }

  lemma WatchdogRanks(s: State, op: Op)
    requires OfWatchdog(op)
    ensures Below(Next(s, op), Rank(op))
  {
  }

  lemma NextRanks(s: State, op: Op)
    ensures Below(Next(s, op), Rank(op))
  {
    if OfRequest(op) { RequestRanks(s, op); }
    else if OfWatchdog(op) { WatchdogRanks(s, op); }
    else if OfCallback(op) { CallbackRanks(s, op); }
    else if op.ResolveLoad? { ResolveRanks(s, op); }
    else if OfResult(op) { ResultRanks(s, op); }
  }

  lemma NextRanksLower(s: State, op: Op)
    ensures Level(Next(s, op)) <= Rank(op)
  {
    NextRanks(s, op);
  }

  /** A thread that runs alone until it has nothing left to do: the head
      operation and all that it leads to come before the rest. */
  function Run(s: State, ops: seq<Op>): State
    decreases Level(ops), |ops|
  {
    if ops == [] then s
    else
      NextRanksLower(s, ops[0]);
      Run(Run(After(s, ops[0]), Next(s, ops[0])), ops[1..])
  }

  lemma {:induction false} RunAppend(s: State, a: seq<Op>, b: seq<Op>)
    ensures Run(s, a + b) == Run(Run(s, a), b)
    decreases |a|
  {
    if a == [] {
      assert a + b == b;
    } else {
      assert (a + b)[0] == a[0] && (a + b)[1..] == a[1..] + b;
      RunAppend(Run(After(s, a[0]), Next(s, a[0])), a[1..], b);
    }
  }

  lemma RunOne(s: State, op: Op)
    ensures Run(s, [op]) == Run(After(s, op), Next(s, op))
  {
    assert [op][1..] == [];
  }

  lemma RunNone(s: State)
    ensures Run(s, []) == s
  {
  }

  lemma RunLast(s: State, op: Op)
    requires Next(s, op) == []
    ensures Run(s, [op]) == After(s, op)
  {
    hide After, Next;
    RunOne(s, op);
  }

  // ---- single steps of the longer runs

  lemma PublishStep(s: State, msg: Message, onError: OnError)
    ensures After(s, PublishTask(msg, onError)) == Publish(s, msg)
    ensures Next(s, PublishTask(msg, onError)) == if s.broker(|s.log|) == Delivered then []
            else PublishFailed(msg, onError)
  {
  }

  lemma RepublishStep(s: State, msg: Message, attempt: nat)
    ensures After(s, Republish(msg, attempt)) == Publish(s, msg)
    ensures Next(s, Republish(msg, attempt)) ==
            if s.broker(|s.log|) == Refused && attempt < MAX_PUBLISH_ATTEMPTS then [Republish(msg, attempt + 1)] else []
  {
  }

  lemma FailTaskStep(s: State, t: nat)
    ensures Run(s, [FailTask(t)]) == UpdateWorkerTaskStatus(s, t, FAILED_TO_PUBLISH)
    ensures After(s, FailTask(t)) == UpdateWorkerTaskStatus(s, t, FAILED_TO_PUBLISH)
  {
    hide Run, UpdateWorkerTaskStatus;
    RunLast(s, FailTask(t));
  }

  lemma SetStatusStep(s: State, id: nat, status: RequestStatus, error: Option<ErrorText>)
    ensures Run(s, [SetRequestStatus(id, status, error)]) == SetExtractionRequestStatus(s, id, status, error)
  {
    hide Run;
    RunLast(s, SetRequestStatus(id, status, error));
  }

  lemma ExtractInsertStep(s: State, r: nat, req: Request, path: string, schema: seq<SchemaEntry>)
    ensures var row, op := RequestRow(s, r, req, Extract, path), ExtractInsert(r, req, path, schema);
            After(s, op) == InsertTask(s, row) &&
            Next(s, op) == match InsertOutcome(s, row)
                           case Rejected => [ResolveError(r)]
                           case Conflict => []
                           case Row(t) => [PublishTask(TaskMessage(t, row, ExtractArgs(schema)), FailExtract(r))]
  {
    hide InsertOutcome;
  }

  lemma LoadStep(s: State, r: nat, result: ResolveResult)
    requires r < |s.requests|
    ensures After(s, ResolveLoad(r, result)) == s
    ensures Next(s, ResolveLoad(r, result)) ==
            UpsertOps(s.requests[r].org, result.newKeys) + [SetSchema(r, s.requests[r], result.schema)]
  {
    hide UpsertOps;
  }

  lemma SetSchemaStep(s: State, r: nat, req: Request, schema: seq<SchemaEntry>)
    requires r < |s.requests|
    ensures After(s, SetSchema(r, req, schema)) == SetExtractionRequestResolvedSchema(s, r, schema)
    ensures Next(s, SetSchema(r, req, schema)) == [ExtractDocument(r, req, schema)]
    ensures SetExtractionRequestResolvedSchema(s, r, schema).documents == s.documents
  {
  }

  lemma ResolveInsertStep(s: State, id: nat, req: Request, path: string, existing: seq<NewKey>)
    ensures var row, op := RequestRow(s, id, req, ResolveKeys, path), ResolveInsert(id, req, path, existing);
            var publish := PublishTask(TaskMessage(|s.tasks|, row, ResolveArgs(req.questions, existing)),
              FailResolve(id));
            After(s, op) == InsertTask(s, row) &&
            Next(s, op) == if !InsertOutcome(s, row).Row? then []
                           else if req.status == RequestPending
                             then [SetRequestStatus(id, RequestRunning, None)] + [publish]
                           else [publish]
  {
    hide InsertOutcome;
  }

  lemma NoRequestStep(s: State, r: nat, result: ResolveResult)
    requires r >= |s.requests|
    ensures After(s, ResolveLoad(r, result)) == s && Next(s, ResolveLoad(r, result)) == [ResolveError(r)]
  {
  }

  lemma ExtractLoadStep(s: State, r: nat, data: Extracted)
    ensures After(s, ExtractLoad(r, data)) == s
    ensures Next(s, ExtractLoad(r, data)) ==
            if r >= |s.requests| then [ExtractError(r)]
            else if data == map[] then [SetRequestStatus(r, RequestCompleted, None)]
            else [ExtractKeys(s.requests[r], data)] + [SetRequestStatus(r, RequestCompleted, None)]
  {
  }

  lemma LoadParentStep(s: State, t: nat, d: nat, found: Found)
    ensures After(s, LoadParent(t, d, found)) == s
    ensures Next(s, LoadParent(t, d, found)) == if d < |s.documents| then SaveFound(t, d, s.documents[d].org, found)
            else []
  {
    hide SaveFound;
  }
}
