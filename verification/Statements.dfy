/** The SQL statements as functions on the state. */
module Statements {
  import opened Model

  // ---- documents

  function ListDocumentsByParent(documents: seq<Document>, parent: nat, org: nat): seq<Document> {
    if documents == [] then []
    else
      var d := documents[|documents| - 1];
      ListDocumentsByParent(documents[..|documents| - 1], parent, org) +
      if d.parent == Some(parent) && d.org == org then [d] else []
  }

  function FindArtifact(docs: seq<Document>, kind: Kind): Option<Document> {
    if docs == [] then None
    else if docs[0].kind == Some(kind) then Some(docs[0])
    else FindArtifact(docs[1..], kind)
  }

  /** Storage path of a document's artifact of one kind. */
  function ArtifactPath(documents: seq<Document>, parent: nat, org: nat, kind: Kind): Option<string> {
    match FindArtifact(ListDocumentsByParent(documents, parent, org), kind)
    case None => None
    case Some(d) => Some(d.path)
  }

  predicate HasArtifact(documents: seq<Document>, parent: nat, kind: Kind) {
    exists i :: 0 <= i < |documents| && documents[i].parent == Some(parent) && documents[i].kind == Some(kind)
  }

  /** Row of the artifact (parent, kind), or the row an insert would create. */
  function ArtifactRow(documents: seq<Document>, parent: nat, kind: Kind): (i: nat)
    ensures i <= |documents|
    ensures i < |documents| ==> documents[i].parent == Some(parent) && documents[i].kind == Some(kind)
    ensures i == |documents| <==> !HasArtifact(documents, parent, kind)
  {
    if documents == [] then 0
    else if documents[0].parent == Some(parent) && documents[0].kind == Some(kind) then 0
    else
      var rest := ArtifactRow(documents[1..], parent, kind);
      assert HasArtifact(documents, parent, kind) <==> HasArtifact(documents[1..], parent, kind) by {
        if HasArtifact(documents, parent, kind) {
          var j :| 0 <= j < |documents| && documents[j].parent == Some(parent) && documents[j].kind == Some(kind);
          assert documents[1..][j - 1] == documents[j];
        }
      }
      rest + 1
  }

  /** INSERT ... ON CONFLICT (parent_id, artifact_kind) DO UPDATE. */
  function CreateArtifactDocument(s: State, org: nat, parent: nat, kind: Kind, path: string): State {
    var i := ArtifactRow(s.documents, parent, kind);
    s.(documents := if i < |s.documents| then s.documents[i := s.documents[i].(path := path)]
                    else s.documents + [Document(org, Some(parent), Some(kind), path)],
       held := s.held + {Held(parent, Some(kind), path), Held(i, None, path)})
  }

  function CreateDocument(s: State, org: nat, path: string): State {
    s.(documents := s.documents + [Document(org, None, None, path)],
       held := s.held + {Held(|s.documents|, None, path)})
  }

  // ---- document_tasks

  function NewTask(s: State, document: nat, m: Module, input: string, request: Option<nat>): Task {
    Task(document, m, Pending, None, EMPTY_PAYLOAD, None, 0, input, request, s.clock)
  }

  datatype Inserted = Row(id: nat) | Conflict | Rejected

  /** Outcome of inserting a task row: constraints are checked first, then the
      partial unique indexes. */
  function InsertOutcome(s: State, t: Task): (r: Inserted)
    ensures r.Row? ==> r.id == |s.tasks|
  {
    if Blank(t.input) || t.document >= |s.documents| || (Singleton(t.moduleName) != t.request.None?) then Rejected
    else if exists i :: 0 <= i < |s.tasks| && SameSlot(s.tasks[i], t) then Conflict
    else Row(|s.tasks|)
  }

  function InsertTask(s: State, t: Task): State {
    if InsertOutcome(s, t).Row? then s.(tasks := s.tasks + [t]) else s
  }

  /** An UPDATE of one row; every one of them stamps updated_at. */
  function UpdateTask(s: State, i: nat, t: Task): State
    requires i < |s.tasks|
  {
    s.(tasks := s.tasks[i := t.(updatedAt := s.clock)])
  }

  function Coalesce<T>(new': Option<T>, old': Option<T>): Option<T> {
    if new'.Some? then new' else old'
  }

  datatype StatusUpdate = StatusUpdate(status: TaskStatus, celeryId: Option<string>, payload: Option<Payload>,
                                       error: Option<ErrorText>)

  function WorkerRow(t: Task, upd: StatusUpdate): Task {
    t.(status := upd.status,
       celeryId := Coalesce(upd.celeryId, t.celeryId),
       payload := if upd.payload.Some? then upd.payload.value else t.payload,
       error := Coalesce(upd.error, t.error))
  }

  /** The paths a callback reports for its document. */
  function Reports(t: Task, upd: StatusUpdate): set<Held> {
    if upd.payload.None? then {}
    else if t.moduleName == Convert && upd.payload.value.AsConvert().Some? then
      {Held(t.document, Some(ConvertMd), upd.payload.value.AsConvert().value)}
    else if t.moduleName == Anonymize && upd.payload.value.AsAnonymize().Some? then
      var a := upd.payload.value.AsAnonymize().value;
      {Held(t.document, Some(AnonymizeDoc), a.document), Held(t.document, Some(AnonymizeEntities), a.entities)}
    else {}
  }

  function UpdateWorkerTaskStatus(s: State, i: nat, upd: StatusUpdate): State {
    if i < |s.tasks| then UpdateTask(s, i, WorkerRow(s.tasks[i], upd)) else s
  }

  function UpdateTaskResultPayload(s: State, i: nat, p: Payload): State {
    if i < |s.tasks| then UpdateTask(s, i, s.tasks[i].(payload := p)) else s
  }

  function UpdateDocumentTaskStatus(s: State, i: nat, org: nat, status: TaskStatus): State {
    if i < |s.tasks| && s.tasks[i].document < |s.documents| && s.documents[s.tasks[i].document].org == org
    then UpdateTask(s, i, s.tasks[i].(status := status))
    else s
  }

  predicate Stale(t: Task, cutoff: int) {
    Live(t) && t.updatedAt < cutoff
  }

  /** Ids of the stale tasks by updated_at, ties in id order. */
  function StaleIds(tasks: seq<Task>, cutoff: int, n: nat): (ids: seq<nat>)
    requires n <= |tasks|
    ensures forall i :: 0 <= i < |ids| ==> ids[i] < n
  {
    if n == 0 then []
    else if Stale(tasks[n - 1], cutoff) then InsertByAge(tasks, StaleIds(tasks, cutoff, n - 1), n - 1)
    else StaleIds(tasks, cutoff, n - 1)
  }

  function InsertByAge(tasks: seq<Task>, ids: seq<nat>, x: nat): (r: seq<nat>)
    requires x < |tasks| && forall i :: 0 <= i < |ids| ==> ids[i] < |tasks|
    ensures |r| == |ids| + 1
    ensures forall i :: 0 <= i < |r| ==> r[i] in ids || r[i] == x
  {
    if ids == [] then [x]
    else if tasks[x].updatedAt < tasks[ids[0]].updatedAt then [x] + ids
    else [ids[0]] + InsertByAge(tasks, ids[1..], x)
  }

  datatype StaleRow = StaleRow(id: nat, document: nat, moduleName: Module, retries: nat, input: string)

  function RowOf(tasks: seq<Task>, i: nat): StaleRow
    requires i < |tasks|
  {
    StaleRow(i, tasks[i].document, tasks[i].moduleName, tasks[i].retries, tasks[i].input)
  }

  function ListedIds(s: State, cutoff: int): (ids: seq<nat>)
    ensures forall i :: 0 <= i < |ids| ==> ids[i] < |s.tasks|
  {
    var all := StaleIds(s.tasks, cutoff, |s.tasks|);
    if |all| <= s.config.batch then all else all[..s.config.batch]
  }

  function ListStaleTasks(s: State, cutoff: int): (rows: seq<StaleRow>)
  {
    var ids := ListedIds(s, cutoff);
    seq(|ids|, i requires 0 <= i < |ids| => RowOf(s.tasks, ids[i]))
  }

  /** The compare-and-swap guard shared by both MarkStaleTask statements. */
  predicate Claimable(s: State, i: nat, cutoff: int) {
    i < |s.tasks| && Stale(s.tasks[i], cutoff)
  }

  function MarkStaleTaskFailed(s: State, i: nat, cutoff: int, error: ErrorText): State {
    if Claimable(s, i, cutoff) then UpdateTask(s, i, s.tasks[i].(status := Failed, error := Some(error))) else s
  }

  function MarkStaleTaskPending(s: State, i: nat, cutoff: int): State {
    if Claimable(s, i, cutoff) then
      UpdateTask(s, i, s.tasks[i].(status := Pending, retries := s.tasks[i].retries + 1, celeryId := None,
        error := None))
      .(claims := s.claims + [Claim(i, s.clock)])
    else s
  }

  // ---- extraction_requests

  function NewRequest(document: nat, org: nat, questions: seq<string>, anonymize: bool): Request {
    Request(document, org, questions, anonymize, RequestPending, [], None)
  }

  function CreateExtractionRequest(s: State, r: Request): State {
    s.(requests := s.requests + [r])
  }

  function SetExtractionRequestStatus(s: State, i: nat, status: RequestStatus, error: Option<ErrorText>): State {
    if i < |s.requests| then s.(requests := s.requests[i := s.requests[i].(status := status, error := error)]) else s
  }

  function SetExtractionRequestResolvedSchema(s: State, i: nat, schema: seq<SchemaEntry>): State {
    if i < |s.requests|
    then s.(requests := s.requests[i := s.requests[i].(schema := schema)], stored := s.stored + {Stored(i, schema)})
    else s
  }

  /** Ids of the document's requests that are still in flight, oldest first. */
  function ListPendingRequests(requests: seq<Request>, document: nat): (ids: seq<nat>)
    ensures forall i :: i in ids <==> 0 <= i < |requests| && requests[i].document == document && InFlight(requests[i])
    ensures forall k :: 0 <= k < |ids| ==> ids[k] < |requests|
  {
    if requests == [] then []
    else
      var n := |requests| - 1;
      assert forall i :: 0 <= i < n ==> requests[..n][i] == requests[i];
      ListPendingRequests(requests[..n], document) +
      if requests[n].document == document && InFlight(requests[n]) then [n] else []
  }

  // ---- extraction_keys and document_extracted_data

  function KeyRow(keys: seq<Key>, org: Option<nat>, name: string): (i: nat)
    ensures i <= |keys|
    ensures i < |keys| ==> keys[i].org == org && keys[i].name == name
    ensures i == |keys| ==> forall j :: 0 <= j < |keys| ==> keys[j].org != org || keys[j].name != name
  {
    if keys == [] then 0
    else if keys[0].org == org && keys[0].name == name then 0
    else
      var rest := KeyRow(keys[1..], org, name);
      assert forall j :: 1 <= j < |keys| ==> keys[1..][j - 1] == keys[j];
      rest + 1
  }

  /** The widths of key_name and data_type. */
  predicate Fits(k: NewKey) {
    |k.name| <= 50 && |k.dataType| <= 20
  }

  /** INSERT ... ON CONFLICT ON CONSTRAINT uq_extraction_keys_org_name DO UPDATE;
      a key that does not fit is refused. */
  function UpsertKey(keys: seq<Key>, org: nat, k: NewKey): seq<Key> {
    var i := KeyRow(keys, Some(org), k.name);
    if !Fits(k) then keys
    else if i < |keys| then keys[i := keys[i].(query := k.query, dataType := k.dataType)]
    else keys + [Key(Some(org), k.name, k.query, k.dataType)]
  }

  function ListExtractionKeysByOrg(keys: seq<Key>, org: nat): seq<NewKey> {
    if keys == [] then []
    else
      var k := keys[|keys| - 1];
      ListExtractionKeysByOrg(keys[..|keys| - 1], org) +
      if Visible(k, org) then [NewKey(k.name, k.query, k.dataType)] else []
  }

  /** DISTINCT ON (key_name) ... ORDER BY organization_id IS NULL: a tenant key,
      or a system key that no tenant key of the same name shadows. */
  predicate Preferred(keys: seq<Key>, i: nat, org: nat)
    requires i < |keys|
  {
    Visible(keys[i], org) &&
    (keys[i].org.None? ==> forall j :: 0 <= j < |keys| ==> keys[j].org != Some(org) || keys[j].name != keys[i].name)
  }

  function GetExtractionKeysByNames(keys: seq<Key>, names: set<string>, org: nat, n: nat): (ids: seq<nat>)
    requires n <= |keys|
    ensures forall i :: i in ids <==> 0 <= i < n && keys[i].name in names && Preferred(keys, i, org)
    ensures forall i, j :: 0 <= i < j < |ids| ==> ids[i] < ids[j]
  {
    if n == 0 then []
    else
      var rest := GetExtractionKeysByNames(keys, names, org, n - 1);
      assert forall i :: 0 <= i < |rest| ==> rest[i] in rest;
      rest + if keys[n - 1].name in names && Preferred(keys, n - 1, org) then [n - 1] else []
  }

  /** The key a name resolves to for a tenant: its own key before a system key. */
  function KeyOf(keys: seq<Key>, org: nat, name: string): Option<nat> {
    var own := KeyRow(keys, Some(org), name);
    if own < |keys| then Some(own)
    else
      var shared := KeyRow(keys, None, name);
      if shared < |keys| then Some(shared) else None
  }

  /** What an extract result writes: key id to value, for each non-null value
      whose name resolves. */
  function Writes(keys: seq<Key>, org: nat, data: Extracted): map<nat, string> {
    map i | 0 <= i < |keys| && keys[i].name in data && data[keys[i].name].Some? &&
    KeyOf(keys, org, keys[i].name) == Some(i)
      :: data[keys[i].name].value
  }

  function SaveValues(extracted: map<Cell, string>, org: nat, document: nat, values: map<nat, string>): map<Cell,
    string> {
    extracted + (map c | c in (set k | k in values :: Cell(org, document, k)) :: values[c.key])
  }

  datatype Answer = Answer(name: string, dataType: string, value: string)

  /** Join of the stored values with their keys, restricted to given names. */
  function ListExtractedDataForKeys(s: State, document: nat, org: nat, names: set<string>, n: nat): seq<Answer>
    requires n <= |s.keys|
  {
    if n == 0 then []
    else
      var c := Cell(org, document, n - 1);
      ListExtractedDataForKeys(s, document, org, names, n - 1) +
      if c in s.extracted && s.keys[n - 1].name in names
      then [Answer(s.keys[n - 1].name, s.keys[n - 1].dataType, s.extracted[c])] else []
  }

  function Publish(s: State, msg: Message): State {
    s.(log := s.log + [Attempt(msg, s.broker(|s.log|))])
  }
}
