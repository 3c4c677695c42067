/** The rows of the pipeline's tables, the messages it publishes and the whole
    state they make up. A table is a sequence and a row's id is its index: ids
    are never reused and rows are never deleted. */
module Model {
  datatype Option<+T> = None | Some(value: T)

  datatype Module = Convert | Anonymize | ResolveKeys | Extract
  datatype TaskStatus = Pending | Processing | Completed | Failed
  datatype RequestStatus = RequestPending | RequestRunning | RequestCompleted | RequestFailed
  datatype Kind = ConvertMd | AnonymizeDoc | AnonymizeEntities

  /** The texts the services write into the error_message columns. */
  datatype ErrorText =
    | Reported(text: string)
    | PublishError
    | StaleTask(retries: nat, maxRetries: nat)
    | TaskFailed
    | PrerequisiteFailed(moduleName: Module)
    | PublishResolveFailed
    | PublishExtractFailed
    | PipelineAfterResolve
    | PipelineAfterExtract

  datatype NewKey = NewKey(name: string, query: string, dataType: string)
  datatype SchemaEntry = SchemaEntry(name: string, dataType: string)
  datatype AnonymizeResult = AnonymizeResult(document: string, entities: string)
  datatype ResolveResult = ResolveResult(newKeys: seq<NewKey>, schema: seq<SchemaEntry>)

  type Extracted = map<string, Option<string>>

  /** A JSON result_payload, described by what unmarshalling it into each of the
      four target types yields (None is a parse error), or one of the two final
      payloads that the worker service writes itself. */
  datatype Payload =
    | Json(convert: Option<string>, anonymize: Option<AnonymizeResult>,
           resolve: Option<ResolveResult>, extract: Option<Extracted>)
    | ConvertFinal(markdown: nat)
    | AnonymizeFinal(anonymized: Option<nat>, entities: Option<nat>)
  {
    /** md_storage_path; a final payload lacks the field, so it reads as "". */
    function AsConvert(): Option<string> {
      if Json? then convert else Some("")
    }

    function AsAnonymize(): Option<AnonymizeResult> {
      if Json? then anonymize else Some(AnonymizeResult("", ""))
    }

    function AsResolve(): Option<ResolveResult> {
      if Json? then resolve else Some(ResolveResult([], []))
    }

    /** The final payloads hold numbers, which do not decode as strings. */
    function AsExtract(): Option<Extracted> {
      if Json? then extract else None
    }
  }

  const EMPTY_PAYLOAD := Json(Some(""), Some(AnonymizeResult("", "")), Some(ResolveResult([], [])), Some(map[]))

  datatype Document = Document(org: nat, parent: Option<nat>, kind: Option<Kind>, path: string)

  datatype Task = Task(document: nat, moduleName: Module, status: TaskStatus, celeryId: Option<string>,
                       payload: Payload, error: Option<ErrorText>, retries: nat, input: string,
                       request: Option<nat>, updatedAt: int)

  datatype Request = Request(document: nat, org: nat, questions: seq<string>, anonymize: bool,
                             status: RequestStatus, schema: seq<SchemaEntry>, error: Option<ErrorText>)

  /** org is None for a system key, shared by all tenants. */
  datatype Key = Key(org: Option<nat>, name: string, query: string, dataType: string)

  /** The unique key of document_extracted_data. */
  datatype Cell = Cell(org: nat, document: nat, key: nat)

  datatype Kwargs =
    | NoKwargs
    | ResolveArgs(questions: seq<string>, existing: seq<NewKey>)
    | ExtractArgs(schema: seq<SchemaEntry>)

  datatype Message = Message(task: nat, document: nat, moduleName: Module, path: string, kwargs: Kwargs)
  /** Cancelled: given up without being sent, because of a shutdown or an expired
      deadline. */
  datatype Outcome = Delivered | Refused | Cancelled
  datatype Attempt = Attempt(msg: Message, outcome: Outcome)
  datatype Claim = Claim(task: nat, time: int)

  /** History: document has held (or a worker has reported for it) this path,
      its own when role is None and that of its artifact of a kind otherwise. */
  datatype Held = Held(document: nat, role: Option<Kind>, path: string)

  /** History: the request has been given this schema. */
  datatype Stored = Stored(request: nat, schema: seq<SchemaEntry>)

  datatype Config = Config(threshold: int, maxRetries: nat, batch: nat) {
    predicate Valid() {
      threshold > 0 && batch > 0
    }
  }

  /** The tables, one monotone clock, the log of publish attempts and the
      histories. broker decides the outcome of the n-th attempt; it is arbitrary,
      so what is proved for a State is proved for every publisher behaviour. */
  datatype State = State(
    documents: seq<Document>, tasks: seq<Task>, requests: seq<Request>, keys: seq<Key>,
    extracted: map<Cell, string>, clock: int, log: seq<Attempt>, claims: seq<Claim>,
    held: set<Held>, reported: set<Held>, stored: set<Stored>, broker: nat -> Outcome, config: Config)

  // ---- vocabulary shared by the statements and by the properties

  /** What CHECK (btrim(input_storage_path) <> '') refuses. */
  predicate Blank(path: string) {
    forall i :: 0 <= i < |path| ==> path[i] == ' '
  }

  predicate Singleton(m: Module) {
    m == Convert || m == Anonymize
  }

  predicate Live(t: Task) {
    t.status == Pending || t.status == Processing
  }

  predicate InFlight(r: Request) {
    r.status == RequestPending || r.status == RequestRunning
  }

  function TargetKind(anonymize: bool): Kind {
    if anonymize then AnonymizeDoc else ConvertMd
  }

  predicate Visible(k: Key, org: nat) {
    k.org.None? || k.org == Some(org)
  }

  predicate SameKey(a: Key, b: Key) {
    a.org == b.org && a.name == b.name
  }

  /** Rows that the two partial unique indexes on document_tasks keep apart. */
  predicate SameSlot(a: Task, b: Task) {
    a.moduleName == b.moduleName && a.request == b.request && (a.request.None? ==> a.document == b.document)
  }

  predicate SameArtifact(a: Document, b: Document) {
    a.parent.Some? && a.parent == b.parent && a.kind == b.kind
  }

  predicate HasSingleton(s: State, document: nat, m: Module) {
    exists i :: 0 <= i < |s.tasks| && s.tasks[i].document == document && s.tasks[i].moduleName == m &&
                s.tasks[i].request.None?
  }

  predicate HasRequestTask(s: State, request: nat, m: Module) {
    exists i :: 0 <= i < |s.tasks| && s.tasks[i].request == Some(request) && s.tasks[i].moduleName == m
  }
}
