/** Worker callbacks and the chain of modules they set off. */
module Worker {
  import opened Model
  import opened Statements
  import opened Machine
  import opened Invariants
  import opened Atomic
  import opened Interleaving
  import opened Database
  import opened Extraction
  import opened Replay
  import opened Progress
  import opened Outcomes
  import opened Effects

  class WorkerService {
    const repo: Store
    const pipeline: ExtractionService

    /** Both services work on one database. */
    constructor (pipeline: ExtractionService)
      ensures this.pipeline == pipeline && Valid()
    {
      this.repo, this.pipeline := pipeline.repo, pipeline;
    }

    predicate Valid() {
      pipeline.repo == repo
    }

    // ---- artifacts

    method RegisterArtifact(t: nat, parent: nat, org: nat, kind: Kind, path: string) returns (id: nat)
      modifies repo
      ensures repo.View() == CreateArtifactDocument(old(repo.View()), org, parent, kind, path)
      ensures id == old(ArtifactRow(repo.documents, parent, kind))
    {
      id := repo.UpsertArtifact(org, parent, kind, path);
    }

    /** Registers the markdown file and rewrites the payload to name it. */
    method RegisterConvertArtifacts(t: nat, task: Task)
      requires task.moduleName == Convert
      modifies repo
      ensures var found := FoundIn(Convert, task.payload);
              repo.View() == Run(old(repo.View()), if found.Some? then [LoadParent(t, task.document, found.value)]
              else [])
      ensures var v, d, md := old(repo.View()), task.document, task.payload.AsConvert();
              if md.None? || md.value == "" || d >= |v.documents| then repo.View() == v
              else
                t < |v.tasks| ==>
                  repo.View() == WithPayload(CreateArtifactDocument(v, v.documents[d].org, d, ConvertMd, md.value), t,
                                             ConvertFinal(ArtifactRow(v.documents, d, ConvertMd)))
    {
      hide Run, After, Next, ArtifactRow, CreateArtifactDocument;
      ghost var v := repo.View();
      RunNone(v);
      var payload := task.payload.AsConvert();
      if payload.None? || payload.value == "" {
        return;
      }
      RunOne(v, LoadParent(t, task.document, Markdown(payload.value)));
      LoadParentStep(v, t, task.document, Markdown(payload.value));
      var parent := repo.GetDocumentByID(task.document);
      if parent.None? {
        return;
      }
      var org := parent.value.org;
      RunOne(v, SaveArtifact(t, task.document, org, ConvertMd, payload.value, None, ""));
      SaveMarkdownStep(v, t, task.document, org, payload.value);
      SavedTasks(v, org, task.document, ConvertMd, payload.value);
      var id := RegisterArtifact(t, task.document, org, ConvertMd, payload.value);
      SetPayloadStep(repo.View(), t, ConvertFinal(id));
      repo.UpdateResultPayload(t, ConvertFinal(id));
    }

    /** Registers the anonymized file and the entities map, those of them that
        the worker returned, and rewrites the payload unless it returned none. */
    method RegisterAnonymizeArtifacts(t: nat, task: Task)
      requires task.moduleName == Anonymize
      modifies repo
      ensures var found := FoundIn(Anonymize, task.payload);
              repo.View() == Run(old(repo.View()), if found.Some? then [LoadParent(t, task.document, found.value)]
              else [])
      ensures t < |old(repo.tasks)| ==> repo.View() == AfterAnonymize(old(repo.View()), t, task.document, task.payload)
    {
      hide Run, After, Next, ArtifactRow, CreateArtifactDocument, AfterAnonymize;
      ghost var v := repo.View();
      if t < |v.tasks| {
        AnonymizeIs(v, t, task.document, task.payload);
        LoadOnly(t, task.document, task.payload);
      }
      RunNone(v);
      var parsed := task.payload.AsAnonymize();
      if parsed.None? {
        return;
      }
      var payload := parsed.value;
      RunOne(v, LoadParent(t, task.document, Anonymized(payload)));
      LoadParentStep(v, t, task.document, Anonymized(payload));
      var parent := repo.GetDocumentByID(task.document);
      if parent.None? {
        return;
      }
      var org := parent.value.org;
      var anonymizedId, entitiesId := None, None;
      ghost var d := task.document;

      SaveAnonymizedStep(v, t, d, org, payload);
      if payload.document != "" {
        RunOne(v, SaveArtifact(t, d, org, AnonymizeDoc, payload.document, None, payload.entities));
        var id := RegisterArtifact(t, task.document, org, AnonymizeDoc, payload.document);
        anonymizedId := Some(id);
      }
      if payload.entities != "" {
        RunOne(repo.View(), SaveArtifact(t, d, org, AnonymizeEntities, payload.entities, anonymizedId, ""));
        SaveEntitiesStep(repo.View(), t, d, org, payload.entities, anonymizedId);
        var id := RegisterArtifact(t, task.document, org, AnonymizeEntities, payload.entities);
        entitiesId := Some(id);
      }
      if anonymizedId.None? && entitiesId.None? {
        return;
      }
      SetPayloadStep(repo.View(), t, AnonymizeFinal(anonymizedId, entitiesId));
      repo.UpdateResultPayload(t, AnonymizeFinal(anonymizedId, entitiesId));
    }

    // ---- the chain convert to anonymize

    /** Reads the path from the payload that the worker delivered, not from the
        row, which has been rewritten by now. */
    method TriggerAnonymize(convertTask: Task)
      requires convertTask.moduleName == Convert
      modifies repo
      ensures var found := FoundIn(Convert, convertTask.payload);
              repo.View() == Run(old(repo.View()),
                if found.Some? then [EnsureTask(convertTask.document, Anonymize, found.value.path)] else [])
      ensures var v, d, n := old(repo.View()), convertTask.document, |old(repo.tasks)|;
              var md, sent := convertTask.payload.AsConvert(), v.broker(|v.log|);
              if md.None? || md.value == "" || d >= |v.documents| || Blank(md.value) || HasSingleton(v, d, Anonymize)
              then repo.View() == v
              else repo.View() == v.(
                log := v.log + [Attempt(Message(n, d, Anonymize, md.value, NoKwargs), sent)],
                tasks := v.tasks + [if sent == Delivered
                  then Task(d, Anonymize, Pending, None, EMPTY_PAYLOAD, None, 0, md.value, None, v.clock)
                  else Task(d, Anonymize, Failed, None, EMPTY_PAYLOAD, Some(PublishError), 0, md.value, None, v.clock)])
    {
      hide Run, InsertOutcome;
      ghost var v := repo.View();
      RunNone(v);
      var payload := convertTask.payload.AsConvert();
      if payload.None? || payload.value == "" {
        return;
      }
      var document, path := convertTask.document, payload.value;
      RunEnsure(v, document, Anonymize, path);
      EnsuredRows(v, document, Anonymize, path);
      RunOne(v, EnsureTask(document, Anonymize, path));
      var created := repo.CreateDocumentTaskSingleton(document, Anonymize, path);
      RunNone(repo.View());
      if !created.Row? {
        return;
      }
      var msg := Message(created.id, document, Anonymize, path, NoKwargs);
      RunOne(repo.View(), PublishTask(msg, FailTaskOnly));
      var outcome := repo.Process(msg);
      RunNone(repo.View());
      if outcome != Delivered {
        RunLast(repo.View(), FailTask(created.id));
        var _ := repo.UpdateWorkerStatus(created.id, FAILED_TO_PUBLISH);
      }
    }

    // ---- requests in flight

    /** Requests are read once, before the first of them progresses. */
    method ProgressPendingRequests(document: nat)
      requires Valid()
      modifies repo
      ensures repo.View() == Run(old(repo.View()), [ProgressPending(document)])
      ensures repo.View() == SweptAll(old(repo.View()), document)
    {
      hide Run, ProgressOps, ProgressAll, SweptAll;
      ghost var v := repo.View();
      SweepIs(v, document);
      RunOne(v, ProgressPending(document));
      var ids := repo.ListPending(document);
      var rows := repo.requests;
      assert forall k :: 0 <= k < |ids| ==> ids[k] in ids;
      ProgressLength(v, ids);
      for i := 0 to |ids|
        invariant Run(v, [ProgressPending(document)]) == Run(repo.View(), ProgressAll(v, ids)[i..])
      {
        ProgressFirst(v, ids, i);
        RunAppend(repo.View(), ProgressOps(ids[i], rows[ids[i]]), ProgressAll(v, ids)[i + 1..]);
        pipeline.Progress(ids[i], rows[ids[i]]);
      }
      assert ProgressAll(v, ids)[|ids|..] == [];
      RunNone(repo.View());
    }

    method FailPendingRequests(document: nat, m: Module)
      requires Valid()
      modifies repo
      ensures repo.View() == Run(old(repo.View()), [FailPending(document, m)])
      ensures repo.View() == FannedOut(old(repo.View()), document, m)
    {
      hide Run, FannedOut;
      ghost var v := repo.View();
      FanOutIs(v, document, m);
      RunOne(v, FailPending(document, m));
      var ids := repo.ListPending(document);
      for i := 0 to |ids|
        invariant Run(v, [FailPending(document, m)]) == Run(repo.View(), FailAll(ids, m)[i..])
      {
        ghost var op := SetRequestStatus(ids[i], RequestFailed, Some(PrerequisiteFailed(m)));
        assert FailAll(ids, m)[i..] == [op] + FailAll(ids, m)[i + 1..];
        RunAppend(repo.View(), [op], FailAll(ids, m)[i + 1..]);
        pipeline.MarkRequestFailed(ids[i], PrerequisiteFailed(m));
      }
      RunNone(repo.View());
    }

    // ---- the callback

    method HandleCompletedPrerequisite(t: nat, task: Task)
      requires Valid() && task.status == Completed && Singleton(task.moduleName)
      modifies repo
      ensures repo.View() == Run(old(repo.View()), Chain(t, task))
    {
      hide Run, FoundIn;
      ghost var d, found := task.document, FoundIn(task.moduleName, task.payload);
      ghost var v := repo.View();
      ChainIs(t, task);
      FoundKind(task.moduleName, task.payload);
      ghost var register := if found.Some? then [LoadParent(t, d, found.value)] else [];
      ghost var trigger := if found.Some? && found.value.Markdown? then [EnsureTask(d, Anonymize, found.value.path)]
        else [];
      assert Chain(t, task) == register + (trigger + [ProgressPending(d)]);
      RunAppend(v, register, trigger + [ProgressPending(d)]);
      if task.moduleName == Convert {
        RegisterConvertArtifacts(t, task);
        RunAppend(repo.View(), trigger, [ProgressPending(d)]);
        TriggerAnonymize(task);
      } else {
        RegisterAnonymizeArtifacts(t, task);
        assert trigger + [ProgressPending(d)] == [ProgressPending(d)];
      }
      ProgressPendingRequests(task.document);
    }

    method HandleFailure(t: nat, task: Task)
      requires Valid() && task.status == Failed
      modifies repo
      ensures repo.View() == Run(old(repo.View()), Chain(t, task))
    {
      hide Run;
      RunNone(repo.View());
      if task.request.Some? && (task.moduleName == ResolveKeys || task.moduleName == Extract) {
        pipeline.MarkRequestFailed(task.request.value, if task.error.Some? then task.error.value else TaskFailed);
      }
      if task.moduleName == Convert || task.moduleName == Anonymize {
        FailPendingRequests(task.document, task.moduleName);
      }
    }

    method HandleCompletedResult(t: nat, task: Task)
      requires Valid() && task.status == Completed && !Singleton(task.moduleName) && KeysUnique(repo.keys)
      modifies repo
      ensures repo.View() == Run(old(repo.View()), Chain(t, task))
    {
      hide Run, KeysUnique, ResolveOps, ExtractOps;
      RunNone(repo.View());
      var failed, error;
      if task.moduleName == ResolveKeys {
        failed := pipeline.OnResolveKeysCompleted(task);
        error := PipelineAfterResolve;
      } else {
        failed := pipeline.OnExtractCompleted(task);
        error := PipelineAfterExtract;
      }
      RunNone(repo.View());
      if failed && task.request.Some? {
        pipeline.MarkRequestFailed(task.request.value, error);
      }
    }

    /** Persists the update, then does whatever it sets off. The caller gets the
        row as the update left it; later failures are not reported. */
    method HandleStatusUpdate(t: nat, update: StatusUpdate) returns (r: Result<Task>)
      requires Valid() && Inv(repo.View())
      modifies repo
      ensures repo.View() == Run(old(repo.View()), [Callback(t, update)]) && Inv(repo.View())
      ensures t >= |old(repo.tasks)| ==> r == Err(NotFound) && repo.View() == old(repo.View())
      ensures t < |old(repo.tasks)| ==>
                r == Ok(Updated(old(repo.tasks)[t], update, old(repo.clock))) &&
                repo.View() == CalledBack(old(repo.View()), t, update)
    {
      hide Run, Inv, Chain, Evolves, CalledBack;
      ghost var v := repo.View();
      EventOk(v, Callback(t, update), 0, Attempts);
      RunKeeps(v, [Callback(t, update)]);
      RunOne(v, Callback(t, update));
      RunNone(v);
      UniqueKeys(v);
      var updated := repo.UpdateWorkerStatus(t, update);
      if updated.None? {
        return Err(NotFound);
      }
      CallbackIs(v, t, update);
      repo.Report(Reports(old(repo.tasks)[t], update));
      var task := updated.value;
      SameChain(t, task, WorkerRow(old(repo.tasks)[t], update));
      React(t, task);
      return Ok(task);
    }

    method React(t: nat, task: Task)
      requires Valid() && KeysUnique(repo.keys)
      modifies repo
      ensures repo.View() == Run(old(repo.View()), Chain(t, task))
    {
      hide Run, KeysUnique;
      RunNone(repo.View());
      if task.status == Completed && (task.moduleName == Convert || task.moduleName == Anonymize) {
        HandleCompletedPrerequisite(t, task);
      } else if task.status == Completed {
        HandleCompletedResult(t, task);
      } else if task.status == Failed {
        HandleFailure(t, task);
      }
    }
  }

  lemma SaveMarkdownStep(s: State, t: nat, d: nat, org: nat, path: string)
    ensures var op, row := SaveArtifact(t, d, org, ConvertMd, path, None, ""), ArtifactRow(s.documents, d, ConvertMd);
            After(s, op) == CreateArtifactDocument(s, org, d, ConvertMd, path) &&
            Next(s, op) == [SetPayload(t, ConvertFinal(row))]
  {
    hide ArtifactRow, CreateArtifactDocument;
  }

  lemma SaveEntitiesStep(s: State, t: nat, d: nat, org: nat, path: string, anonymized: Option<nat>)
    ensures var op, row := SaveArtifact(t, d, org, AnonymizeEntities, path, anonymized, ""),
            ArtifactRow(s.documents, d, AnonymizeEntities);
            After(s, op) == CreateArtifactDocument(s, org, d, AnonymizeEntities, path) &&
            Next(s, op) == [SetPayload(t, AnonymizeFinal(anonymized, Some(row)))]
  {
    hide ArtifactRow, CreateArtifactDocument;
  }

  lemma LoadOnly(t: nat, d: nat, p: Payload)
    ensures var found := FoundIn(Anonymize, p);
            FoundOps(t, d, found) == if found.Some? then [LoadParent(t, d, found.value)] else []
  {
  }

  lemma SetPayloadStep(s: State, t: nat, p: Payload)
    ensures Run(s, [SetPayload(t, p)]) == UpdateTaskResultPayload(s, t, p)
  {
    hide Run;
    RunLast(s, SetPayload(t, p));
  }

  lemma ProgressFirst(s: State, ids: seq<nat>, i: nat)
    requires (forall k :: 0 <= k < |ids| ==> ids[k] < |s.requests|) && i < |ids| && InFlight(s.requests[ids[i]])
    ensures ProgressAll(s, ids)[i..] == ProgressOps(ids[i], s.requests[ids[i]]) + ProgressAll(s, ids)[i + 1..]
  {
  }

  lemma ProgressLength(s: State, ids: seq<nat>)
    requires forall k :: 0 <= k < |ids| ==> ids[k] < |s.requests|
    ensures |ProgressAll(s, ids)| == |ids|
  {
  }

  lemma FoundKind(m: Module, p: Payload)
    requires Singleton(m)
    ensures FoundIn(m, p).Some? ==> (FoundIn(m, p).value.Markdown? <==> m == Convert)
  {
  }
}
