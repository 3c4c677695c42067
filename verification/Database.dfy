/** The tables as mutable fields: one method per SQL statement, and the
    publisher. What each does is a function of View(), the state as a value. */
module Database {
  import opened Model
  import opened Statements
  import opened Machine
  import opened Invariants
  import opened Watchdog
  import opened Progress
  import opened Effects

  datatype ErrorCode = ValidationFailed | NotFound | AlreadyExists | InternalError

  datatype Result<+T> = Ok(value: T) | Err(code: ErrorCode)

  class Store {
    var documents: seq<Document>
    var tasks: seq<Task>
    var requests: seq<Request>
    var keys: seq<Key>
    var extracted: map<Cell, string>
    var clock: int
    var log: seq<Attempt>
    ghost var claims: seq<Claim>
    ghost var held: set<Held>
    ghost var reported: set<Held>
    ghost var stored: set<Stored>
    const broker: nat -> Outcome
    const config: Config

    ghost function View(): State
      reads this
    {
      State(documents, tasks, requests, keys, extracted, clock, log, claims, held, reported, stored, broker, config)
    }

    /** An empty database with the given system keys. */
    constructor (config: Config, broker: nat -> Outcome, systemKeys: seq<Key>)
      ensures View() == State([], [], [], systemKeys, map[], 0, [], [], {}, {}, {}, broker, config)
      ensures KeysUnique(systemKeys) && config.Valid() ==> Inv(View())
    {
      this.config, this.broker := config, broker;
      documents, tasks, requests, keys := [], [], [], systemKeys;
      extracted, clock, log := map[], 0, [];
      claims, held, reported, stored := [], {}, {}, {};
    }

    // ---- documents

    method GetDocument(id: nat, org: nat) returns (d: Option<Document>)
      ensures d == if id < |documents| && documents[id].org == org then Some(documents[id]) else None
    {
      d := if id < |documents| && documents[id].org == org then Some(documents[id]) else None;
    }

    method GetDocumentByID(id: nat) returns (d: Option<Document>)
      ensures d == if id < |documents| then Some(documents[id]) else None
    {
      d := if id < |documents| then Some(documents[id]) else None;
    }

    /** The artifacts of a document, oldest first. */
    method ListByParent(parent: nat, org: nat) returns (docs: seq<Document>)
      ensures docs == ListDocumentsByParent(documents, parent, org)
    {
      docs := [];
      for i := 0 to |documents|
        invariant docs == ListDocumentsByParent(documents[..i], parent, org)
      {
        if documents[i].parent == Some(parent) && documents[i].org == org {
          docs := docs + [documents[i]];
        }
        assert documents[..i + 1][..i] == documents[..i];
      }
      assert documents[..|documents|] == documents;
    }

    method InsertDocument(org: nat, path: string) returns (id: nat)
      modifies this
      ensures View() == CreateDocument(old(View()), org, path) && id == old(|documents|)
    {
      id := |documents|;
      held := held + {Held(id, None, path)};
      documents := documents + [Document(org, None, None, path)];
    }

    /** Inserts the artifact row, or on conflict gives the row its new path. */
    method UpsertArtifact(org: nat, parent: nat, kind: Kind, path: string) returns (id: nat)
      modifies this
      ensures View() == CreateArtifactDocument(old(View()), org, parent, kind, path)
      ensures id == old(ArtifactRow(documents, parent, kind))
      ensures documents == if id < |old(documents)| then old(documents)[id := old(documents)[id].(path := path)]
                           else old(documents) + [Document(org, Some(parent), Some(kind), path)]
      ensures id < |documents| && documents[id].parent == Some(parent) && documents[id].kind == Some(kind)
    {
      id := ArtifactRow(documents, parent, kind);
      held := held + {Held(parent, Some(kind), path), Held(id, None, path)};
      if id < |documents| {
        documents := documents[id := documents[id].(path := path)];
      } else {
        documents := documents + [Document(org, Some(parent), Some(kind), path)];
      }
    }

    // ---- document_tasks

    /** Defaults, constraints and both partial unique indexes of an insert. */
    method Insert(document: nat, m: Module, input: string, request: Option<nat>) returns (r: Inserted)
      modifies this
      ensures var row := NewTask(old(View()), document, m, input, request);
              r == InsertOutcome(old(View()), row) && View() == InsertTask(old(View()), row)
      ensures r.Row? ==>
                r.id == |old(tasks)| &&
                tasks == old(tasks) + [Task(document, m, Pending, None, EMPTY_PAYLOAD, None, 0, input, request, clock)]
      ensures r.Rejected? <==>
              Blank(input) || document >= |documents| || (m == Convert || m == Anonymize) != request.None?
      ensures r.Conflict? ==>
                exists i :: 0 <= i < |old(tasks)| && old(tasks)[i].moduleName == m &&
                            old(tasks)[i].request == request && (request.None? ==> old(tasks)[i].document == document)
      ensures r.Row? ==>
                forall i :: 0 <= i < |old(tasks)| && old(tasks)[i].moduleName == m &&
                            old(tasks)[i].request == request ==>
                              request.None? && old(tasks)[i].document != document
    {
      var row := Task(document, m, Pending, None, EMPTY_PAYLOAD, None, 0, input, request, clock);
      if Blank(input) || document >= |documents| || Singleton(m) != request.None? {
        r := Rejected;
      } else if exists i :: 0 <= i < |tasks| && SameSlot(tasks[i], row) {
        r := Conflict;
      } else {
        r := Row(|tasks|);
        tasks := tasks + [row];
      }
    }

    method CreateDocumentTaskSingleton(document: nat, m: Module, input: string) returns (r: Inserted)
      modifies this
      ensures var row := EnsureRow(old(View()), document, m, input);
              r == InsertOutcome(old(View()), row) && View() == InsertTask(old(View()), row)
    {
      r := Insert(document, m, input, None);
    }

    method CreateDocumentTaskForRequest(document: nat, m: Module, input: string, request: nat) returns (r: Inserted)
      modifies this
      ensures var row := NewTask(old(View()), document, m, input, Some(request));
              r == InsertOutcome(old(View()), row) && View() == InsertTask(old(View()), row)
    {
      r := Insert(document, m, input, Some(request));
    }

    /** INSERT ... SELECT from documents: None when no document matches. */
    method CreateDocumentTask(document: nat, m: Module, org: nat) returns (r: Option<Inserted>)
      modifies this
      ensures var v := old(View());
              if document < |v.documents| && v.documents[document].org == org
              then var row := NewTask(v, document, m, v.documents[document].path, None);
                   r == Some(InsertOutcome(v, row)) && View() == InsertTask(v, row)
              else r == None && View() == v
    {
      if document < |documents| && documents[document].org == org {
        var inserted := Insert(document, m, documents[document].path, None);
        r := Some(inserted);
      } else {
        r := None;
      }
    }

    method UpdateWorkerStatus(id: nat, update: StatusUpdate) returns (r: Option<Task>)
      modifies this
      ensures View() == UpdateWorkerTaskStatus(old(View()), id, update)
      ensures r == if id < old(|tasks|) then Some(Updated(old(tasks[id]), update, clock)) else None
      ensures r.Some? ==> tasks == old(tasks)[id := r.value]
    {
      if id < |tasks| {
        var t := tasks[id];
        t := t.(status := update.status, updatedAt := clock);
        if update.celeryId.Some? { t := t.(celeryId := update.celeryId); }
        if update.payload.Some? { t := t.(payload := update.payload.value); }
        if update.error.Some? { t := t.(error := update.error); }
        tasks := tasks[id := t];
        r := Some(t);
      } else {
        r := None;
      }
    }

    method UpdateResultPayload(id: nat, payload: Payload)
      modifies this
      ensures View() == UpdateTaskResultPayload(old(View()), id, payload)
      ensures id < |old(tasks)| ==> tasks == old(tasks)[id := old(tasks)[id].(payload := payload, updatedAt := clock)]
    {
      if id < |tasks| {
        tasks := tasks[id := tasks[id].(payload := payload, updatedAt := clock)];
      }
    }

    method UpdateStatus(id: nat, org: nat, status: TaskStatus) returns (r: Option<Task>)
      modifies this
      ensures View() == UpdateDocumentTaskStatus(old(View()), id, org, status)
      ensures r.Some? <==>
                id < old(|tasks|) && old(tasks[id].document) < |documents| &&
                documents[old(tasks[id].document)].org == org
      ensures r.Some? ==> r.value == old(tasks[id]).(status := status, updatedAt := clock)
    {
      if id < |tasks| && tasks[id].document < |documents| && documents[tasks[id].document].org == org {
        tasks := tasks[id := tasks[id].(status := status, updatedAt := clock)];
        r := Some(tasks[id]);
      } else {
        r := None;
      }
    }

    /** ORDER BY updated_at LIMIT batch, as rows read now. */
    method ListStale(cutoff: int) returns (rows: seq<StaleRow>)
      ensures rows == ListStaleTasks(View(), cutoff)
      ensures |rows| <= config.batch
      ensures forall k :: 0 <= k < |rows| ==>
                rows[k].id < |tasks| && rows[k] == RowOf(tasks, rows[k].id) && tasks[rows[k].id].updatedAt < cutoff &&
                (tasks[rows[k].id].status == Pending || tasks[rows[k].id].status == Processing)
      ensures forall j, k :: 0 <= j < k < |rows| ==>
                rows[j].id != rows[k].id && tasks[rows[j].id].updatedAt <= tasks[rows[k].id].updatedAt
      ensures forall t: nat :: t < |tasks| && tasks[t].updatedAt < cutoff &&
                               (tasks[t].status == Pending || tasks[t].status == Processing) ==>
                (exists k :: 0 <= k < |rows| && rows[k].id == t) ||
                (|rows| == config.batch &&
                 forall k :: 0 <= k < |rows| ==> tasks[rows[k].id].updatedAt <= tasks[t].updatedAt)
    {
      hide StaleIds, Stale;
      ListedRows(View(), cutoff);
      var ids := StaleIds(tasks, cutoff, |tasks|);
      var n := if |ids| <= config.batch then |ids| else config.batch;
      rows := [];
      for i := 0 to n
        invariant |rows| == i && forall k :: 0 <= k < i ==> rows[k] == RowOf(tasks, ids[k])
      {
        rows := rows + [RowOf(tasks, ids[i])];
      }
    }

    /** Compare-and-swap on (status, updated_at); returns the rows changed. */
    method MarkStaleFailed(id: nat, cutoff: int, error: ErrorText) returns (rows: nat)
      modifies this
      ensures View() == MarkStaleTaskFailed(old(View()), id, cutoff, error)
      ensures rows == if Claimable(old(View()), id, cutoff) then 1 else 0
      ensures rows == 1 <==> id < |old(tasks)| && old(tasks)[id].updatedAt < cutoff &&
                             (old(tasks)[id].status == Pending || old(tasks)[id].status == Processing)
      ensures rows == 1 ==> tasks == old(tasks)[id := old(tasks)[id].(status := Failed, error := Some(error),
                                                                      updatedAt := clock)]
    {
      if id < |tasks| && Live(tasks[id]) && tasks[id].updatedAt < cutoff {
        tasks := tasks[id := tasks[id].(status := Failed, error := Some(error), updatedAt := clock)];
        rows := 1;
      } else {
        rows := 0;
      }
    }

    method MarkStalePending(id: nat, cutoff: int) returns (rows: nat)
      modifies this
      ensures View() == MarkStaleTaskPending(old(View()), id, cutoff)
      ensures rows == if Claimable(old(View()), id, cutoff) then 1 else 0
      ensures rows == 1 <==> id < |old(tasks)| && old(tasks)[id].updatedAt < cutoff &&
                             (old(tasks)[id].status == Pending || old(tasks)[id].status == Processing)
      ensures rows == 1 ==> tasks == old(tasks)[id := old(tasks)[id].(status := Pending,
                retries := old(tasks)[id].retries + 1, celeryId := None, error := None, updatedAt := clock)]
    {
      if id < |tasks| && Live(tasks[id]) && tasks[id].updatedAt < cutoff {
        var t := tasks[id];
        tasks := tasks[id := t.(status := Pending, retries := t.retries + 1, celeryId := None, error := None,
                                        updatedAt := clock)];
        claims := claims + [Claim(id, clock)];
        rows := 1;
      } else {
        rows := 0;
      }
    }

    // ---- extraction_requests

    method CreateRequest(r: Request) returns (id: nat)
      modifies this
      ensures View() == CreateExtractionRequest(old(View()), r) && id == old(|requests|)
    {
      id := |requests|;
      requests := requests + [r];
    }

    method GetRequest(id: nat) returns (r: Option<Request>)
      ensures r == if id < |requests| then Some(requests[id]) else None
    {
      r := if id < |requests| then Some(requests[id]) else None;
    }

    method SetRequestState(id: nat, status: RequestStatus, error: Option<ErrorText>)
      modifies this
      ensures View() == SetExtractionRequestStatus(old(View()), id, status, error)
      ensures View() == WithStatus(old(View()), id, status, error)
    {
      if id < |requests| {
        requests := requests[id := requests[id].(status := status, error := error)];
      }
    }

    /** False when no row has the id. */
    method SetResolvedSchema(id: nat, schema: seq<SchemaEntry>) returns (found: bool)
      modifies this
      ensures View() == SetExtractionRequestResolvedSchema(old(View()), id, schema)
      ensures found <==> id < old(|requests|)
    {
      found := id < |requests|;
      if found {
        requests := requests[id := requests[id].(schema := schema)];
        stored := stored + {Stored(id, schema)};
      }
    }

    /** Ids and rows of the document's requests in flight, oldest first. */
    method ListPending(document: nat) returns (ids: seq<nat>)
      ensures ids == ListPendingRequests(requests, document)
      ensures forall i :: i in ids <==> 0 <= i < |requests| && requests[i].document == document &&
                                        (requests[i].status == RequestPending || requests[i].status == RequestRunning)
      ensures forall i, j :: 0 <= i < j < |ids| ==> ids[i] < ids[j]
    {
      ids := [];
      for i := 0 to |requests|
        invariant ids == ListPendingRequests(requests[..i], document)
      {
        if requests[i].document == document && InFlight(requests[i]) {
          ids := ids + [i];
        }
        assert requests[..i + 1][..i] == requests[..i];
      }
      assert requests[..|requests|] == requests;
      PendingDistinct(requests, document);
    }

    // ---- extraction_keys and document_extracted_data

    /** False when the row is refused. */
    method UpsertExtractionKey(org: nat, k: NewKey) returns (ok: bool)
      modifies this
      ensures View() == old(View()).(keys := UpsertKey(old(keys), org, k))
      ensures ok <==> |k.name| <= 50 && |k.dataType| <= 20
    {
      ok := Fits(k);
      if !ok {
        return;
      }
      var i := KeyRow(keys, Some(org), k.name);
      if i < |keys| {
        keys := keys[i := keys[i].(query := k.query, dataType := k.dataType)];
      } else {
        keys := keys + [Key(Some(org), k.name, k.query, k.dataType)];
      }
    }

    /** DISTINCT ON key_name, a tenant key before a system key. */
    method KeysByNames(names: seq<string>, org: nat) returns (ids: seq<nat>)
      ensures forall i :: i in ids <==> 0 <= i < |keys| && keys[i].name in names && Preferred(keys, i, org)
      ensures forall i :: i in ids <==>
                0 <= i < |keys| && keys[i].name in names &&
                (keys[i].org == Some(org) ||
                 (keys[i].org == None &&
                  forall j :: 0 <= j < |keys| ==> keys[j].org != Some(org) || keys[j].name != keys[i].name))
      ensures forall k :: 0 <= k < |ids| ==> ids[k] < |keys|
      ensures forall i, j :: 0 <= i < j < |ids| ==> ids[i] != ids[j]
    {
      ids := GetExtractionKeysByNames(keys, (set name | name in names), org, |keys|);
      assert forall k :: 0 <= k < |ids| ==> ids[k] in ids;
    }

    /** One statement upserting key_ids and values in lockstep. PostgreSQL refuses
        it as a whole when it would touch one row twice. */
    method BatchUpsertExtractedData(org: nat, document: nat, keyIds: seq<nat>, values: seq<string>) returns (ok: bool)
      requires |keyIds| == |values|
      modifies this
      ensures ok <==> forall i, j :: 0 <= i < j < |keyIds| ==> keyIds[i] != keyIds[j]
      ensures !ok ==> View() == old(View())
      ensures ok ==> View() == old(View()).(extracted := extracted)
      ensures ok ==> forall i :: 0 <= i < |keyIds| ==>
                Cell(org, document, keyIds[i]) in extracted && extracted[Cell(org, document, keyIds[i])] == values[i]
      ensures forall c: Cell :: c.org != org || c.document != document || c.key !in keyIds ==>
                (c in extracted <==> c in old(extracted)) && (c in extracted ==> extracted[c] == old(extracted)[c])
    {
      ok := forall i, j :: 0 <= i < j < |keyIds| ==> keyIds[i] != keyIds[j];
      if ok {
        for n := 0 to |keyIds|
          invariant View() == old(View()).(extracted := extracted)
          invariant forall i :: 0 <= i < n ==>
            Cell(org, document, keyIds[i]) in extracted && extracted[Cell(org, document, keyIds[i])] == values[i]
          invariant forall c: Cell :: c.org != org || c.document != document || c.key !in keyIds ==>
            (c in extracted <==> c in old(extracted)) && (c in extracted ==> extracted[c] == old(extracted)[c])
        {
          extracted := extracted[Cell(org, document, keyIds[n]) := values[n]];
        }
      }
    }

    // ---- the message queue

    method Process(msg: Message) returns (outcome: Outcome)
      modifies this
      ensures View() == Publish(old(View()), msg) && outcome == broker(old(|log|))
      ensures log == old(log) + [Attempt(msg, outcome)]
    {
      outcome := broker(|log|);
      log := log + [Attempt(msg, outcome)];
    }

    /** Remembers which paths the workers have reported. */
    ghost method Report(paths: set<Held>)
      modifies this`reported
      ensures View() == old(View()).(reported := old(reported) + paths)
    {
      reported := reported + paths;
    }
  }
}
