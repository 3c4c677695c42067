/** The lifecycle of extraction requests, statement by statement. Each method
    ends in the state that running its operation alone leads to. */
module Extraction {
  import opened Model
  import opened Statements
  import opened Machine
  import opened Invariants
  import opened Interleaving
  import opened Atomic
  import opened Database
  import opened Data
  import opened Progress
  import opened Replay
  import opened Outcomes
  import opened Effects

  /** The first artifact of a kind. */
  method FirstOfKind(docs: seq<Document>, kind: Kind) returns (found: Option<Document>)
    ensures found == FindArtifact(docs, kind)
  {
    for i := 0 to |docs|
      invariant FindArtifact(docs, kind) == FindArtifact(docs[i..], kind)
    {
      if docs[i].kind == Some(kind) {
        return Some(docs[i]);
      }
    }
    return None;
  }

  class ExtractionService {
    const repo: Store

    constructor (repo: Store)
      ensures this.repo == repo
    {
      this.repo := repo;
    }

    // ---- failures

    method MarkTaskFailed(task: nat)
      modifies repo
      ensures repo.View() == After(old(repo.View()), FailTask(task))
      ensures repo.View() == if task >= |old(repo.tasks)| then old(repo.View()) else old(repo.View()).(tasks :=
                old(repo.tasks)[task := old(repo.tasks)[task].(status := Failed, error := Some(PublishError),
                                                               updatedAt := repo.clock)])
    {
      var _ := repo.UpdateWorkerStatus(task, StatusUpdate(Failed, None, None, Some(PublishError)));
    }

    method MarkRequestFailed(request: nat, error: ErrorText)
      modifies repo
      ensures repo.View() == Run(old(repo.View()), [SetRequestStatus(request, RequestFailed, Some(error))])
      ensures repo.View() == WithStatus(old(repo.View()), request, RequestFailed, Some(error))
    {
      hide Run;
      RunLast(repo.View(), SetRequestStatus(request, RequestFailed, Some(error)));
      repo.SetRequestState(request, RequestFailed, Some(error));
    }

    // ---- prerequisite tasks

    /** Creates the singleton task and publishes it; a duplicate, or a path that
        the check refuses, ends here. */
    method EnsureSingleton(document: nat, m: Module, path: string)
      modifies repo
      ensures repo.View() == Run(old(repo.View()), [EnsureTask(document, m, path)])
      ensures repo.View() == Ensured(old(repo.View()), document, m, path)
      ensures var v, a := old(repo.View()), Attempt(Message(|old(repo.tasks)|, document, m, path, NoKwargs),
                                                    repo.broker(|old(repo.log)|));
              if Singleton(m) && document < |v.documents| && !Blank(path) && !HasSingleton(v, document, m) then
                repo.View() == v.(log := v.log + [a],
                  tasks := v.tasks + [if a.outcome == Delivered
                    then Task(document, m, Pending, None, EMPTY_PAYLOAD, None, 0, path, None, v.clock)
                    else Task(document, m, Failed, None, EMPTY_PAYLOAD, Some(PublishError), 0, path, None, v.clock)])
              else repo.View() == v
    {
      hide Run, InsertOutcome, Ensured;
      ghost var v := repo.View();
      RunEnsure(v, document, m, path);
      EnsuredRows(v, document, m, path);
      RunOne(v, EnsureTask(document, m, path));
      var created := repo.CreateDocumentTaskSingleton(document, m, path);
      RunNone(repo.View());
      if created.Row? {
        var msg := Message(created.id, document, m, path, NoKwargs);
        RunOne(repo.View(), PublishTask(msg, FailTaskOnly));
        var outcome := repo.Process(msg);
        RunNone(repo.View());
        if outcome != Delivered {
          RunLast(repo.View(), FailTask(created.id));
          MarkTaskFailed(created.id);
        }
      }
    }

    method EnsureConvertTask(document: nat, doc: Document)
      modifies repo
      ensures repo.View() == Run(old(repo.View()), [EnsureTask(document, Convert, doc.path)])
      ensures repo.View() == Ensured(old(repo.View()), document, Convert, doc.path)
    {
      EnsureSingleton(document, Convert, doc.path);
    }

    method EnsureAnonymizeTask(document: nat, md: Document)
      modifies repo
      ensures repo.View() == Run(old(repo.View()), [EnsureTask(document, Anonymize, md.path)])
      ensures repo.View() == Ensured(old(repo.View()), document, Anonymize, md.path)
    {
      EnsureSingleton(document, Anonymize, md.path);
    }

    // ---- resolve_keys

    method EnqueueResolveKeys(id: nat, req: Request, doc: Document, target: Document)
      modifies repo
      ensures repo.View() == Run(old(repo.View()), [ResolveListKeys(id, req, doc.org, target.path)])
      ensures repo.View() == Asked(old(repo.View()), id, req, doc.org, target.path)
      ensures var v, n := old(repo.View()), |old(repo.tasks)|;
              id < |v.requests| && req.document < |v.documents| && !Blank(target.path) &&
              !HasRequestTask(v, id, ResolveKeys) ==>
                |repo.tasks| == n + 1 && |repo.requests| == |v.requests| &&
                if v.broker(|v.log|) == Delivered
                then repo.tasks[n].status == Pending &&
                     (req.status == RequestPending ==> repo.requests[id].status == RequestRunning)
                else repo.tasks[n].status == Failed && repo.tasks[n].error == Some(PublishError) &&
                     repo.requests[id].status == RequestFailed &&
                     repo.requests[id].error == Some(PublishResolveFailed)
    {
      hide Run, InsertOutcome, Asked, ListExtractionKeysByOrg;
      ghost var v := repo.View();
      RunAsk(v, id, req, doc.org, target.path);
      if id < |v.requests| {
        AskedRows(v, id, req, doc.org, target.path);
      }
      var existing := ListExtractionKeysByOrg(repo.keys, doc.org);
      ghost var insert := ResolveInsert(id, req, target.path, existing);
      RunOne(v, ResolveListKeys(id, req, doc.org, target.path));
      RunOne(v, insert);

      var created := repo.CreateDocumentTaskForRequest(req.document, ResolveKeys, target.path, id);
      RunNone(repo.View());
      if !created.Row? {
        return;
      }

      var msg := Message(created.id, req.document, ResolveKeys, target.path, ResolveArgs(req.questions, existing));
      ghost var publish := PublishTask(msg, FailResolve(id));
      if req.status == RequestPending {
        ghost var running := SetRequestStatus(id, RequestRunning, None);
        assert Next(v, insert) == [running] + [publish];
        RunAppend(repo.View(), [running], [publish]);
        RunLast(repo.View(), running);
        repo.SetRequestState(id, RequestRunning, None);
      } else {
        assert Next(v, insert) == [publish];
      }
      PublishOrFail(id, msg);
    }

    method PublishOrFail(id: nat, msg: Message)
      modifies repo
      ensures repo.View() == Run(old(repo.View()), [PublishTask(msg, FailResolve(id))])
    {
      hide Run;
      RunOne(repo.View(), PublishTask(msg, FailResolve(id)));
      var outcome := repo.Process(msg);
      RunNone(repo.View());
      if outcome != Delivered {
        ghost var fail, set' := FailTask(msg.task), SetRequestStatus(id, RequestFailed, Some(PublishResolveFailed));
        assert [fail, set'] == [fail] + [set'];
        RunAppend(repo.View(), [fail], [set']);
        RunLast(repo.View(), fail);
        MarkTaskFailed(msg.task);
        MarkRequestFailed(id, PublishResolveFailed);
      }
    }

    // ---- Progress

    /** Decides from the artifacts alone what the request needs next, and
        enqueues it unless it is there. */
    method Progress(id: nat, req: Request)
      modifies repo
      ensures repo.View() == Run(old(repo.View()), ProgressOps(id, req))
      ensures repo.View() == Progressed(old(repo.View()), id, req)
    {
      hide Run, Progressed, Asked, Ensured;
      ghost var v := repo.View();
      ProgressIs(v, id, req);
      RunNone(v);
      if req.status == RequestCompleted || req.status == RequestFailed {
        return;
      }
      RunOne(v, ProgressDocument(id, req));
      var doc := repo.GetDocumentByID(req.document);
      if doc.None? {
        return;
      }
      RunOne(v, ProgressArtifacts(id, req, doc.value));
      var artifacts := repo.ListByParent(req.document, doc.value.org);
      var md := FirstOfKind(artifacts, ConvertMd);
      var anonymized := FirstOfKind(artifacts, AnonymizeDoc);
      var target := if req.anonymize then anonymized else md;
      if target.Some? {
        EnqueueResolveKeys(id, req, doc.value, target.value);
      } else if req.anonymize && md.Some? {
        EnsureAnonymizeTask(req.document, md.value);
      } else {
        EnsureConvertTask(req.document, doc.value);
      }
    }

    /** Creates a request and progresses it. */
    method Initiate(document: nat, org: nat, questions: seq<string>, anonymize: bool) returns (r: Result<nat>)
      requires Inv(repo.View())
      modifies repo
      ensures Inv(repo.View())
      ensures questions == [] ==> r == Err(ValidationFailed) && repo.View() == old(repo.View())
      ensures questions != [] ==>
                repo.View() == Run(old(repo.View()), [CheckDocument(document, org, questions, anonymize)]) &&
                r == if document < |old(repo.documents)| && old(repo.documents)[document].org == org
                     then Ok(|old(repo.requests)|) else Err(NotFound)
      ensures r.Err? ==> repo.View() == old(repo.View())
      ensures r.Ok? ==> repo.View() == Initiated(old(repo.View()), document, org, questions, anonymize)
      ensures r.Ok? ==>
                |repo.requests| == |old(repo.requests)| + 1 &&
                repo.requests[..|old(repo.requests)|] == old(repo.requests) &&
                var req := repo.requests[r.value];
                req.document == document && req.org == org && req.questions == questions &&
                req.anonymize == anonymize && req.schema == []
    {
      hide Run, Inv, Evolves, Initiated;
      if questions == [] {
        return Err(ValidationFailed);
      }
      ghost var v := repo.View();
      EventOk(v, CheckDocument(document, org, questions, anonymize), 0, Attempts);
      RunKeeps(v, [CheckDocument(document, org, questions, anonymize)]);
      RunOne(v, CheckDocument(document, org, questions, anonymize));
      RunNone(v);
      var doc := repo.GetDocument(document, org);
      if doc.None? {
        return Err(NotFound);
      }
      InitiateIs(v, document, questions, anonymize);
      InitiatedRow(v, document, org, questions, anonymize);
      var req := NewRequest(document, org, questions, anonymize);
      RunOne(v, CreateRequest(document, org, questions, anonymize));
      var id := repo.CreateRequest(req);
      Progress(id, req);
      return Ok(id);
    }

    // ---- extract

    method EnqueueExtract(id: nat, req: Request, target: Document, schema: seq<SchemaEntry>) returns (failed: bool)
      modifies repo
      ensures Run(old(repo.View()), [ExtractInsert(id, req, target.path, schema)]) ==
              Run(repo.View(), if failed then [ResolveError(id)] else [])
      ensures Extracting(old(repo.View()), id, req, target.path, schema) ==
              if failed then WithStatus(repo.View(), id, RequestFailed, Some(PipelineAfterResolve)) else repo.View()
    {
      hide Run, InsertOutcome, After, Next, Extracting;
      ghost var v := repo.View();
      RunExtractInsert(v, id, req, target.path, schema);
      RunOne(v, ExtractInsert(id, req, target.path, schema));
      ExtractInsertStep(v, id, req, target.path, schema);
      var created := repo.CreateDocumentTaskForRequest(req.document, Extract, target.path, id);
      RunNone(repo.View());
      if created.Conflict? {
        return false;
      }
      if created.Rejected? {
        RunMark(v, id, PipelineAfterResolve);
        return true;
      }
      var msg := Message(created.id, req.document, Extract, target.path, ExtractArgs(schema));
      RunOne(repo.View(), PublishTask(msg, FailExtract(id)));
      PublishStep(repo.View(), msg, FailExtract(id));
      var outcome := repo.Process(msg);
      RunNone(repo.View());
      failed := outcome != Delivered;
      if failed {
        ghost var fail, set' := FailTask(msg.task), SetRequestStatus(id, RequestFailed, Some(PublishExtractFailed));
        assert [fail, set', ResolveError(id)] == [fail] + ([set'] + [ResolveError(id)]);
        RunAppend(repo.View(), [fail], [set'] + [ResolveError(id)]);
        FailTaskStep(repo.View(), msg.task);
        MarkTaskFailed(msg.task);
        RunAppend(repo.View(), [set'], [ResolveError(id)]);
        MarkRequestFailed(id, PublishExtractFailed);
        RunMark(repo.View(), id, PipelineAfterResolve);
      }
    }

    /** Returns whether it failed; its caller then marks the request failed. */
    method OnResolveKeysCompleted(task: Task) returns (failed: bool)
      modifies repo
      ensures task.request.None? ==> failed && repo.View() == old(repo.View())
      ensures task.request.Some? ==>
                Run(old(repo.View()), ResolveOps(task.request.value, task.payload)) ==
                Run(repo.View(), if failed then [ResolveError(task.request.value)] else [])
      ensures task.request.Some? ==>
                AfterResolve(old(repo.View()), task.request.value, task.payload) ==
                if failed then WithStatus(repo.View(), task.request.value, RequestFailed, Some(PipelineAfterResolve))
                else repo.View()
    {
      hide Run, After, Next, UpsertAll, UpsertOps, ArtifactPath, AfterResolve, WithStatus;
      if task.request.None? {
        return true;
      }
      var id := task.request.value;
      ghost var v := repo.View();
      ResolveIs(v, id, task.payload);
      RunNone(v);
      RunMark(v, id, PipelineAfterResolve);
      var parsed := task.payload.AsResolve();
      if parsed.None? || parsed.value.schema == [] {
        return true;
      }
      var result := parsed.value;
      RunOne(v, ResolveLoad(id, result));
      var loaded := repo.GetRequest(id);
      if loaded.None? {
        NoRequestStep(v, id, result);
        return true;
      }
      var req := loaded.value;
      ghost var set' := SetSchema(id, req, result.schema);
      LoadStep(v, id, result);
      RunAppend(v, UpsertOps(req.org, result.newKeys), [set']);
      UpsertNewKeys(req.org, result.newKeys);

      RunOne(repo.View(), set');
      SetSchemaStep(repo.View(), id, req, result.schema);
      var _ := repo.SetResolvedSchema(id, result.schema);
      failed := ExtractFromTarget(id, req, result.schema);
      RunMark(repo.View(), id, PipelineAfterResolve);
      RunNone(repo.View());
    }

    /** A key that is refused is skipped; the loop goes on. */
    method UpsertNewKeys(org: nat, newKeys: seq<NewKey>)
      modifies repo
      ensures repo.View() == Run(old(repo.View()), UpsertOps(org, newKeys))
      ensures repo.View() == old(repo.View()).(keys := UpsertAll(old(repo.keys), org, newKeys))
    {
      hide Run, UpsertKey;
      RunUpserts(repo.View(), org, newKeys);
      for i := 0 to |newKeys|
        invariant repo.View() == old(repo.View()).(keys := UpsertAll(old(repo.keys), org, newKeys[..i]))
      {
        assert newKeys[..i + 1][..i] == newKeys[..i];
        var _ := repo.UpsertExtractionKey(org, newKeys[i]);
      }
      assert newKeys[..|newKeys|] == newKeys;
    }

    method ExtractFromTarget(id: nat, req: Request, schema: seq<SchemaEntry>) returns (failed: bool)
      modifies repo
      ensures Run(old(repo.View()), [ExtractDocument(id, req, schema)]) ==
              Run(repo.View(), if failed then [ResolveError(id)] else [])
    {
      hide Run, After, Next;
      ghost var v := repo.View();
      RunOne(v, ExtractDocument(id, req, schema));
      var doc := repo.GetDocumentByID(req.document);
      if doc.None? {
        NoDocumentStep(v, ExtractDocument(id, req, schema));
        return true;
      }
      FindTargetSteps(v, id, req, schema);
      RunOne(v, ExtractArtifacts(id, req, doc.value.org, schema));
      var artifacts := repo.ListByParent(req.document, doc.value.org);
      var target := FirstOfKind(artifacts, if req.anonymize then AnonymizeDoc else ConvertMd);
      if target.None? {
        return true;
      }
      failed := EnqueueExtract(id, req, target.value, schema);
    }

    /** Returns whether it failed. */
    method OnExtractCompleted(task: Task) returns (failed: bool)
      requires KeysUnique(repo.keys)
      modifies repo
      ensures task.request.None? ==> failed && repo.View() == old(repo.View())
      ensures task.request.Some? ==>
                Run(old(repo.View()), ExtractOps(task.request.value, task.payload)) ==
                Run(repo.View(), if failed then [ExtractError(task.request.value)] else [])
      ensures task.request.Some? ==>
                AfterExtract(old(repo.View()), task.request.value, task.payload) ==
                if failed then WithStatus(repo.View(), task.request.value, RequestFailed, Some(PipelineAfterExtract))
                else repo.View()
    {
      hide Run, After, Next, KeysUnique, AfterExtract, WithStatus;
      if task.request.None? {
        return true;
      }
      var id := task.request.value;
      ghost var v := repo.View();
      ExtractIs(v, id, task.payload);
      RunMark(v, id, PipelineAfterExtract);
      var parsed := task.payload.AsExtract();
      if parsed.None? {
        return true;
      }
      var data := parsed.value;
      RunOne(v, ExtractLoad(id, data));
      ExtractLoadStep(v, id, data);
      var loaded := repo.GetRequest(id);
      if loaded.None? {
        return true;
      }
      ghost var done := SetRequestStatus(id, RequestCompleted, None);
      if data != map[] {
        assert Next(v, ExtractLoad(id, data)) == [ExtractKeys(loaded.value, data)] + [done];
        RunAppend(v, [ExtractKeys(loaded.value, data)], [done]);
        PersistExtractedData(loaded.value, data);
      } else {
        assert Next(v, ExtractLoad(id, data)) == [done];
      }
      SetStatusStep(repo.View(), id, RequestCompleted, None);
      repo.SetRequestState(id, RequestCompleted, None);
      RunNone(repo.View());
      return false;
    }

    // ---- extracted values

    /** Go ranges over a map in any order, so both loops take names in any order.
        The two arrays match, and no key id comes twice: the batch, which would
        be refused otherwise, is accepted. */
    method PersistExtractedData(req: Request, data: Extracted)
      requires KeysUnique(repo.keys)
      modifies repo
      ensures repo.View() == Run(old(repo.View()), [ExtractKeys(req, data)])
      ensures repo.View() == old(repo.View()).(extracted :=
                SaveValues(old(repo.extracted), req.org, req.document, Writes(repo.keys, req.org, data)))
      ensures forall c: Cell ::
                if c.org == req.org && c.document == req.document && c.key < |repo.keys| &&
                   repo.keys[c.key].name in data && data[repo.keys[c.key].name].Some? &&
                   KeyOf(repo.keys, req.org, repo.keys[c.key].name) == Some(c.key)
                then c in repo.extracted && repo.extracted[c] == data[repo.keys[c.key].name].value
                else (c in repo.extracted <==> c in old(repo.extracted)) &&
                     (c in repo.extracted ==> repo.extracted[c] == old(repo.extracted)[c])
    {
      hide Run, SaveValues, Writes, KeyOf, KeysUnique;
      ghost var v := repo.View();
      RunExtractKeys(v, req, data);
      var keyIdByName := KeyIdsByName(req.org, data);
      var keyIds: seq<nat>, values: seq<string> := [], [];
      ghost var picked: seq<string> := [];
      var todo := data.Keys;
      while todo != {}
        invariant todo <= data.Keys && repo.View() == v
        invariant Picked(data, keyIdByName, todo, picked, keyIds, values)
        decreases |todo|
      {
        var name :| name in todo;
        todo := todo - {name};
        if data[name].Some? && name in keyIdByName {
          picked, keyIds, values := picked + [name], keyIds + [keyIdByName[name]], values + [data[name].value];
        }
      }
      if |keyIds| > 0 {
        PickedDistinct(repo.keys, req.org, data, keyIdByName, picked, keyIds, values);
        var ok := repo.BatchUpsertExtractedData(req.org, req.document, keyIds, values);
      }
      BatchSaves(v, req, data, keyIdByName, picked, keyIds, values, repo.extracted);
      forall c: Cell {
        SavedCells(v, req, data, c);
      }
    }

    /** key_name to key id, for the names that resolve. */
    method KeyIdsByName(org: nat, data: Extracted) returns (ids: map<string, nat>)
      requires KeysUnique(repo.keys)
      ensures IdsOf(repo.keys, org, data, ids)
    {
      hide KeyOf, Preferred, KeysUnique;
      var names: seq<string> := [];
      var todo := data.Keys;
      while todo != {}
        invariant todo <= data.Keys && forall name :: name in names <==> name in data.Keys - todo
        decreases |todo|
      {
        var name :| name in todo;
        todo, names := todo - {name}, names + [name];
      }
      var rows := repo.KeysByNames(names, org);
      ids := map[];
      for i := 0 to |rows|
        invariant forall k :: 0 <= k < i ==> repo.keys[rows[k]].name in ids
        invariant forall name :: name in ids ==> name in data && KeyOf(repo.keys, org, name) == Some(ids[name])
      {
        assert rows[i] in rows;
        KeyOfPreferred(repo.keys, org, repo.keys[rows[i]].name, rows[i]);
        ids := ids[repo.keys[rows[i]].name := rows[i]];
      }
      forall name | name in data && KeyOf(repo.keys, org, name).Some? ensures name in ids {
        KeyOfNames(repo.keys, org, name);
        var i := KeyOf(repo.keys, org, name).value;
        KeyOfPreferred(repo.keys, org, name, i);
        assert i in rows;
      }
    }

    /** The stored values of the keys that the request's schema names. */
    method GetAnswers(req: Request) returns (out: seq<Answer>)
      ensures out == Data.GetAnswers(repo.View(), req)
      ensures forall a :: a in out <==>
                exists i :: 0 <= i < |repo.keys| && Cell(req.org, req.document, i) in repo.extracted &&
                            Named(req.schema, repo.keys[i].name) &&
                            a == Answer(repo.keys[i].name, repo.keys[i].dataType,
                                        repo.extracted[Cell(req.org, req.document, i)])
      ensures |out| == |set i: nat | i < |repo.keys| && Cell(req.org, req.document, i) in repo.extracted &&
                                     Named(req.schema, repo.keys[i].name)|
    {
      AnswersAre(repo.View(), req);
      if req.schema == [] {
        return [];
      }
      var names: seq<string> := [];
      for i := 0 to |req.schema|
        invariant |names| == i && forall k :: 0 <= k < i ==> names[k] == req.schema[k].name
      {
        names := names + [req.schema[i].name];
      }
      SameNames(req.schema, names);
      out := [];
      for i := 0 to |repo.keys|
        invariant out == ListExtractedDataForKeys(repo.View(), req.document, req.org,
                  (set e | e in req.schema :: e.name), i)
      {
        var c := Cell(req.org, req.document, i);
        if c in repo.extracted && repo.keys[i].name in names {
          out := out + [Answer(repo.keys[i].name, repo.keys[i].dataType, repo.extracted[c])];
        }
      }
    }
  }

  lemma RunMark(s: State, id: nat, error: ErrorText)
    ensures Run(s, [SetRequestStatus(id, RequestFailed, Some(error))]) == WithStatus(s, id, RequestFailed, Some(error))
  {
    hide Run;
    SetStatusStep(s, id, RequestFailed, Some(error));
  }

  // ---- why the batch is what the map says

  /** ids maps exactly the names of data that resolve, to what they resolve to. */
  ghost predicate IdsOf(keys: seq<Key>, org: nat, data: Extracted, ids: map<string, nat>) {
    (forall name :: name in ids ==> name in data && KeyOf(keys, org, name) == Some(ids[name])) &&
    (forall name :: name in data && KeyOf(keys, org, name).Some? ==> name in ids)
  }

  /** The arrays hold id and value of each picked name, and the names picked are
      those done that have a value and an id, each once. */
  ghost predicate Picked(data: Extracted, ids: map<string, nat>, todo: set<string>,
                         picked: seq<string>, keyIds: seq<nat>, values: seq<string>) {
    |picked| == |keyIds| == |values| &&
    (forall k :: 0 <= k < |picked| ==>
      picked[k] in data && picked[k] !in todo && data[picked[k]].Some? && picked[k] in ids &&
      keyIds[k] == ids[picked[k]] && values[k] == data[picked[k]].value) &&
    (forall name :: name in data && name !in todo && data[name].Some? && name in ids ==> name in picked) &&
    forall i, j :: 0 <= i < j < |picked| ==> picked[i] != picked[j]
  }

  lemma PickedDistinct(keys: seq<Key>, org: nat, data: Extracted, ids: map<string, nat>,
                       picked: seq<string>, keyIds: seq<nat>, values: seq<string>)
    requires IdsOf(keys, org, data, ids) && Picked(data, ids, {}, picked, keyIds, values)
    ensures forall i, j :: 0 <= i < j < |keyIds| ==> keyIds[i] != keyIds[j]
  {
    hide KeyOf;
    forall i, j | 0 <= i < j < |keyIds| ensures keyIds[i] != keyIds[j] {
      KeyOfNames(keys, org, picked[i]);
      KeyOfNames(keys, org, picked[j]);
    }
  }

  lemma BatchSaves(s: State, req: Request, data: Extracted, ids: map<string, nat>,
                   picked: seq<string>, keyIds: seq<nat>, values: seq<string>, saved: map<Cell, string>)
    requires KeysUnique(s.keys) && IdsOf(s.keys, req.org, data, ids) && Picked(data, ids, {}, picked, keyIds, values)
    requires forall k :: 0 <= k < |keyIds| ==>
               Cell(req.org, req.document, keyIds[k]) in saved &&
                 saved[Cell(req.org, req.document, keyIds[k])] == values[k]
    requires forall c: Cell :: c.org != req.org || c.document != req.document || c.key !in keyIds ==>
               (c in saved <==> c in s.extracted) && (c in saved ==> saved[c] == s.extracted[c])
    ensures saved == SaveValues(s.extracted, req.org, req.document, Writes(s.keys, req.org, data))
  {
    hide KeyOf, KeysUnique, SaveValues, Writes;
    var spec := SaveValues(s.extracted, req.org, req.document, Writes(s.keys, req.org, data));
    forall c: Cell ensures (c in saved <==> c in spec) && (c in saved ==> saved[c] == spec[c]) {
      SavedCells(s, req, data, c);
      if c.org == req.org && c.document == req.document && c.key in keyIds {
        var k :| 0 <= k < |keyIds| && keyIds[k] == c.key;
        KeyOfNames(s.keys, req.org, picked[k]);
      }
    }
  }

  lemma SameNames(schema: seq<SchemaEntry>, names: seq<string>)
    requires |names| == |schema| && forall k :: 0 <= k < |schema| ==> names[k] == schema[k].name
    ensures forall name :: name in names <==> name in (set e | e in schema :: e.name)
  {
    forall name | name in (set e | e in schema :: e.name) ensures name in names {
      var e :| e in schema && e.name == name;
      var k :| 0 <= k < |schema| && schema[k] == e;
      assert names[k] == name;
    }
    forall name | name in names ensures name in (set e | e in schema :: e.name) {
      var k :| 0 <= k < |names| && names[k] == name;
      assert schema[k] in schema;
    }
  }
}
