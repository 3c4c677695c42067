/** Running an operation alone comes to its effect, field by field: every row,
    every message and every mark, for every answer of the broker. */
module Outcomes {
  import opened Model
  import opened Statements
  import opened Machine
  import opened Invariants
  import opened Progress
  import opened Replay
  import opened Callbacks
  import opened Data
  import opened Watchdog
  import opened Effects

  // ---- rows and log after an enqueue, by the broker's answer

  /** A singleton insert is accepted exactly for a free slot and a usable path. */
  lemma FreeSlot(s: State, d: nat, m: Module, path: string)
    ensures InsertOutcome(s, Waiting(d, m, path, None, s.clock)).Row? <==>
            Singleton(m) && d < |s.documents| && !Blank(path) && !HasSingleton(s, d, m)
  {
    hide Blank;
    var row := Waiting(d, m, path, None, s.clock);
    if HasSingleton(s, d, m) {
      var i :| 0 <= i < |s.tasks| && s.tasks[i].document == d && s.tasks[i].moduleName == m && s.tasks[i].request.None?;
      assert SameSlot(s.tasks[i], row);
    }
  }

  /** One convert or anonymize task for a free slot, and one message for it. */
  lemma EnsuredRows(s: State, d: nat, m: Module, path: string)
    ensures var s', a := Ensured(s, d, m, path), Attempt(Message(|s.tasks|, d, m, path, NoKwargs), s.broker(|s.log|));
            if Singleton(m) && d < |s.documents| && !Blank(path) && !HasSingleton(s, d, m) then
              s' == s.(log := s.log + [a],
                       tasks := s.tasks + [if a.outcome == Delivered
                         then Task(d, m, Pending, None, EMPTY_PAYLOAD, None, 0, path, None, s.clock)
                         else Task(d, m, Failed, None, EMPTY_PAYLOAD, Some(PublishError), 0, path, None, s.clock)])
            else s' == s
  {
    hide Blank, HasSingleton, InsertOutcome;
    FreeSlot(s, d, m, path);
  }

  /** One resolve_keys task and one message; the request is running if that was
      delivered, and task and request have failed if it was not. */
  lemma AskedRows(s: State, id: nat, req: Request, org: nat, path: string)
    requires id < |s.requests|
    ensures var s', d, r := Asked(s, id, req, org, path), req.document, s.requests[id];
            var known, outcome := ListExtractionKeysByOrg(s.keys, org), s.broker(|s.log|);
            var msg := Message(|s.tasks|, d, ResolveKeys, path, ResolveArgs(req.questions, known));
            if d >= |s.documents| || Blank(path) || HasRequestTask(s, id, ResolveKeys) then s' == s
            else if outcome == Delivered then
              s' == s.(log := s.log + [Attempt(msg, outcome)], requests := s'.requests,
                       tasks := s.tasks + [Task(d, ResolveKeys, Pending, None, EMPTY_PAYLOAD, None, 0, path, Some(id),
                                                s.clock)]) &&
              s'.requests == if req.status != RequestPending then s.requests
                             else s.requests[id := r.(status := RequestRunning, error := None)]
            else
              s' == s.(log := s.log + [Attempt(msg, outcome)],
                       requests := s.requests[id := r.(status := RequestFailed, error := Some(PublishResolveFailed))],
                       tasks := s.tasks + [Task(d, ResolveKeys, Failed, None, EMPTY_PAYLOAD, Some(PublishError), 0,
                                                path, Some(id), s.clock)])
  {
    hide Blank, ListExtractionKeysByOrg;
    var row := Waiting(req.document, ResolveKeys, path, Some(id), s.clock);
    if HasRequestTask(s, id, ResolveKeys) {
      var i :| 0 <= i < |s.tasks| && s.tasks[i].request == Some(id) && s.tasks[i].moduleName == ResolveKeys;
      assert SameSlot(s.tasks[i], row);
    }
  }

  /** One extract task and one message with the schema; task and request have
      failed if that was not delivered, the request alone if the path is refused. */
  lemma ExtractingRows(s: State, id: nat, req: Request, path: string, schema: seq<SchemaEntry>)
    requires id < |s.requests|
    ensures var s', d, outcome := Extracting(s, id, req, path, schema), req.document, s.broker(|s.log|);
            var msg := Message(|s.tasks|, d, Extract, path, ExtractArgs(schema));
            var failed := s.requests[id].(status := RequestFailed, error := Some(PipelineAfterResolve));
            if d >= |s.documents| || Blank(path) then s' == s.(requests := s.requests[id := failed])
            else if HasRequestTask(s, id, Extract) then s' == s
            else if outcome == Delivered then
              s' == s.(log := s.log + [Attempt(msg, outcome)],
                       tasks := s.tasks + [Task(d, Extract, Pending, None, EMPTY_PAYLOAD, None, 0, path, Some(id),
                                                s.clock)])
            else
              s' == s.(log := s.log + [Attempt(msg, outcome)], requests := s.requests[id := failed],
                       tasks := s.tasks + [Task(d, Extract, Failed, None, EMPTY_PAYLOAD, Some(PublishError), 0,
                                                path, Some(id), s.clock)])
  {
    hide Blank;
    var row := Waiting(req.document, Extract, path, Some(id), s.clock);
    if HasRequestTask(s, id, Extract) {
      var i :| 0 <= i < |s.tasks| && s.tasks[i].request == Some(id) && s.tasks[i].moduleName == Extract;
      assert SameSlot(s.tasks[i], row);
    }
  }

  // ---- the API

  lemma InitiateIs(s: State, d: nat, questions: seq<string>, anonymize: bool)
    requires d < |s.documents|
    ensures var org := s.documents[d].org;
            Run(s, [CheckDocument(d, org, questions, anonymize)]) == Initiated(s, d, org, questions, anonymize)
  {
    hide Run, Progressed, ProgressOps;
    var req := NewRequest(d, s.documents[d].org, questions, anonymize);
    RunInitiate(s, d, questions, anonymize);
    ProgressIs(CreateExtractionRequest(s, req), |s.requests|, req);
  }

  /** The request as the caller asked for it, and the older ones as they were. */
  lemma InitiatedRow(s: State, d: nat, org: nat, questions: seq<string>, anonymize: bool)
    ensures var s', n := Initiated(s, d, org, questions, anonymize), |s.requests|;
            |s'.requests| == n + 1 && s'.requests[..n] == s.requests &&
            s'.requests[n].document == d && s'.requests[n].org == org && s'.requests[n].questions == questions &&
            s'.requests[n].anonymize == anonymize && s'.requests[n].schema == []
  {
    hide ArtifactPath, InsertOutcome, ListExtractionKeysByOrg;
  }

  lemma CreateIs(s: State, d: nat)
    requires d < |s.documents|
    ensures Run(s, [PublicCreate(d, s.documents[d].org)]) == PubliclyCreated(s, d)
  {
    hide Run, InsertOutcome, After, Next;
    var op, row := PublicCreate(d, s.documents[d].org), PublicRow(s, d);
    RunOne(s, op);
    CreateStep(s, d);
    RunNone(After(s, op));
    if InsertOutcome(s, row).Row? {
      var msg := TaskMessage(|s.tasks|, row, NoKwargs);
      RunOne(After(s, op), PublishTask(msg, Ignore));
      PublishStep(After(s, op), msg, Ignore);
      RunNone(Publish(After(s, op), msg));
    }
  }

  lemma CreateStep(s: State, d: nat)
    requires d < |s.documents|
    ensures var op, row := PublicCreate(d, s.documents[d].org), PublicRow(s, d);
            After(s, op) == InsertTask(s, row) &&
            Next(s, op) == if InsertOutcome(s, row).Row?
                           then [PublishTask(TaskMessage(|s.tasks|, row, NoKwargs), Ignore)] else []
  {
    hide InsertOutcome;
  }

  // ---- a completed prerequisite

  lemma {:induction false} SweptIs(s0: State, s: State, ids: seq<nat>)
    requires forall k :: 0 <= k < |ids| ==> ids[k] < |s0.requests| && InFlight(s0.requests[ids[k]])
    ensures Run(s, ProgressAll(s0, ids)) == Swept(s0.requests, s, ids)
    decreases |ids|
  {
    hide Run, Progressed, ProgressOps;
    if ids == [] {
      RunNone(s);
      assert ProgressAll(s0, ids) == [];
    } else {
      var req := s0.requests[ids[0]];
      FirstOp(s0, ids);
      RunAppend(s, ProgressOps(ids[0], req), ProgressAll(s0, ids[1..]));
      ProgressIs(s, ids[0], req);
      SweptIs(s0, Progressed(s, ids[0], req), ids[1..]);
    }
  }

  lemma SweepIs(s: State, d: nat)
    ensures Run(s, [ProgressPending(d)]) == SweptAll(s, d)
  {
    hide Run, Swept;
    var ids := ListPendingRequests(s.requests, d);
    RunOne(s, ProgressPending(d));
    assert forall k :: 0 <= k < |ids| ==> ids[k] in ids;
    SweptIs(s, s, ids);
  }

  lemma ConvertIs(s: State, t: nat, d: nat, p: Payload)
    requires t < |s.tasks|
    ensures Run(s, FoundOps(t, d, FoundIn(Convert, p))) == AfterConvert(s, t, d, p)
  {
    hide Run, CreateArtifactDocument, ArtifactRow, Ensured, After, Next;
    RunNone(s);
    var found := FoundIn(Convert, p);
    if found.Some? {
      var load, ensure' := LoadParent(t, d, found.value), EnsureTask(d, Anonymize, found.value.path);
      RunAppend(s, [load], [ensure']);
      if d < |s.documents| {
        RunRegister(s, t, d, found.value);
        SavedTasks(s, s.documents[d].org, d, ConvertMd, found.value.path);
        SavedIsRegistered(s, s.documents[d].org, d, ConvertMd, found.value.path);
      } else {
        RunOne(s, load);
        LoadParentStep(s, t, d, found.value);
      }
      RunEnsure(Run(s, [load]), d, Anonymize, found.value.path);
    }
  }

  lemma AnonymizeIs(s: State, t: nat, d: nat, p: Payload)
    requires t < |s.tasks|
    ensures Run(s, FoundOps(t, d, FoundIn(Anonymize, p))) == AfterAnonymize(s, t, d, p)
  {
    hide Run, CreateArtifactDocument, ArtifactRow, Registered, After, Next;
    RunNone(s);
    var found := FoundIn(Anonymize, p);
    if found.Some? {
      var load, a := LoadParent(t, d, found.value), found.value.result;
      assert [load] + [] == [load];
      if d < |s.documents| {
        RunRegister(s, t, d, found.value);
        FinalRows(s, t, d, a);
      } else {
        RunOne(s, load);
        LoadParentStep(s, t, d, found.value);
      }
    }
  }

  lemma FinalRows(s: State, t: nat, d: nat, a: AnonymizeResult)
    requires t < |s.tasks| && d < |s.documents|
    ensures var org := s.documents[d].org;
            var s1 := if a.document == "" then s else CreateArtifactDocument(s, org, d, AnonymizeDoc, a.document);
            var saved := Saved(s, d, org, Anonymized(a));
            saved.tasks == s.tasks && saved.clock == s.clock &&
            FinalPayload(saved.documents, d, Anonymized(a)) == AnonymizeFinal(
              if a.document == "" then None else Some(ArtifactRow(s.documents, d, AnonymizeDoc)),
              if a.entities == "" then None else Some(ArtifactRow(s1.documents, d, AnonymizeEntities)))
  {
    hide CreateArtifactDocument, ArtifactRow, Registered;
    var org := s.documents[d].org;
    var s1 := if a.document == "" then s else CreateArtifactDocument(s, org, d, AnonymizeDoc, a.document);
    SavedRows(s, d, org, Anonymized(a));
    SavedIsRegistered(s, org, d, AnonymizeDoc, a.document);
    SavedIsRegistered(s1, org, d, AnonymizeEntities, a.entities);
    if a.document != "" {
      OtherKindStays(s1, org, d, AnonymizeEntities, a.entities, AnonymizeDoc, a.document);
    }
  }

  // ---- a completed result

  lemma ResolveIs(s: State, r: nat, p: Payload)
    ensures Run(s, ResolveOps(r, p)) == AfterResolve(s, r, p)
  {
    hide Run, After, Next, ArtifactPath, UpsertAll, UpsertOps, Extracting, ExtractOps;
    var parsed := p.AsResolve();
    if parsed.None? || parsed.value.schema == [] {
      SetStatusStep(s, r, RequestFailed, Some(PipelineAfterResolve));
    } else if r >= |s.requests| {
      RunOne(s, ResolveLoad(r, parsed.value));
      NoRequestStep(s, r, parsed.value);
      SetStatusStep(s, r, RequestFailed, Some(PipelineAfterResolve));
    } else {
      var s1, req, schema := Resolved(s, r, parsed.value), s.requests[r], parsed.value.schema;
      SetStatusStep(s1, r, RequestFailed, Some(PipelineAfterResolve));
      if req.document >= |s.documents| {
        NoDocument(s, r, parsed.value);
      } else {
        RunResolve(s, r, parsed.value);
        if TargetPath(s, req).Some? {
          RunExtractInsert(s1, r, req, TargetPath(s, req).value, schema);
        }
      }
    }
  }

  lemma NoDocument(s: State, r: nat, result: ResolveResult)
    requires r < |s.requests| && s.requests[r].document >= |s.documents|
    ensures Run(s, [ResolveLoad(r, result)]) == Run(Resolved(s, r, result), [ResolveError(r)])
  {
    hide Run, UpsertAll, UpsertOps, After, Next;
    var req, org := s.requests[r], s.requests[r].org;
    var set', load := SetSchema(r, req, result.schema), ExtractDocument(r, req, result.schema);
    RunOne(s, ResolveLoad(r, result));
    LoadStep(s, r, result);
    RunAppend(s, UpsertOps(org, result.newKeys), [set']);
    RunUpserts(s, org, result.newKeys);
    var s1 := s.(keys := UpsertAll(s.keys, org, result.newKeys));
    RunOne(s1, set');
    SetSchemaStep(s1, r, req, result.schema);
    RunOne(Resolved(s, r, result), load);
    NoDocumentStep(Resolved(s, r, result), load);
  }

  lemma NoDocumentStep(s: State, op: Op)
    requires op.ExtractDocument? && op.req.document >= |s.documents|
    ensures After(s, op) == s && Next(s, op) == [ResolveError(op.id)]
  {
  }

  lemma ExtractIs(s: State, r: nat, p: Payload)
    ensures Run(s, ExtractOps(r, p)) == AfterExtract(s, r, p)
  {
    hide Run, After, Next, Writes, SaveValues;
    var data := p.AsExtract();
    SetStatusStep(s, r, RequestFailed, Some(PipelineAfterExtract));
    if data.Some? {
      if r < |s.requests| {
        RunExtract(s, r, data.value);
      } else {
        RunOne(s, ExtractLoad(r, data.value));
        ExtractLoadStep(s, r, data.value);
      }
    }
  }

  // ---- a failed prerequisite

  lemma FanOutIs(s: State, d: nat, m: Module)
    ensures Run(s, [FailPending(d, m)]) == FannedOut(s, d, m)
  {
    hide Run;
    var ids := ListPendingRequests(s.requests, d);
    RunOne(s, FailPending(d, m));
    FailPendingStep(s, FailPending(d, m));
    RunFailAll(s, ids, m);
    assert Run(s, [FailPending(d, m)]).requests == FannedOut(s, d, m).requests;
  }

  // ---- any callback

  lemma UpdateIs(s: State, t: nat, upd: StatusUpdate)
    requires t < |s.tasks|
    ensures var task := Updated(s.tasks[t], upd, s.clock);
            After(s, Callback(t, upd)) ==
              s.(tasks := s.tasks[t := task], reported := s.reported + Reports(s.tasks[t], upd)) &&
            Next(s, Callback(t, upd)) == Chain(t, task)
  {
    hide Chain, Reports;
    SameChain(t, Updated(s.tasks[t], upd, s.clock), WorkerRow(s.tasks[t], upd));
  }

  /** A callback, with everything it sets off, comes to CalledBack: no row, message
      or mark more, and none less. */
  lemma CallbackIs(s: State, t: nat, upd: StatusUpdate)
    requires t < |s.tasks|
    ensures Run(s, [Callback(t, upd)]) == CalledBack(s, t, upd)
  {
    hide Run, After, Next, Reports, AfterConvert, AfterAnonymize, AfterResolve, AfterExtract, FannedOut, SweptAll,
      ResolveOps, ExtractOps, FoundOps, FoundIn;
    var task := Updated(s.tasks[t], upd, s.clock);
    var d, s1 := task.document, s.(tasks := s.tasks[t := task], reported := s.reported + Reports(s.tasks[t], upd));
    UpdateIs(s, t, upd);
    RunOne(s, Callback(t, upd));
    RunNone(s1);
    match (task.status, task.moduleName) {
      case (Completed, Convert) => PrerequisiteIs(s1, t, task);
      case (Completed, Anonymize) => PrerequisiteIs(s1, t, task);
      case (Completed, ResolveKeys) =>
        if task.request.Some? { ResolveIs(s1, task.request.value, task.payload); }
      case (Completed, Extract) =>
        if task.request.Some? { ExtractIs(s1, task.request.value, task.payload); }
      case (Failed, Convert) => FanOutIs(s1, d, Convert);
      case (Failed, Anonymize) => FanOutIs(s1, d, Anonymize);
      case (Failed, _) =>
        if task.request.Some? {
          SetStatusStep(s1, task.request.value, RequestFailed, Some(FailureText(task)));
        }
      case _ =>
    }
  }

  lemma PrerequisiteIs(s: State, t: nat, task: Task)
    requires t < |s.tasks| && task.status == Completed && Singleton(task.moduleName)
    ensures var d := task.document;
            Run(s, Chain(t, task)) ==
            SweptAll(if task.moduleName == Convert then AfterConvert(s, t, d, task.payload)
                     else AfterAnonymize(s, t, d, task.payload), d)
  {
    hide Run, AfterConvert, AfterAnonymize, SweptAll, FoundOps, FoundIn, Chain;
    var d, ops := task.document, FoundOps(t, task.document, FoundIn(task.moduleName, task.payload));
    ChainIs(t, task);
    RunAppend(s, ops, [ProgressPending(d)]);
    if task.moduleName == Convert {
      ConvertIs(s, t, d, task.payload);
    } else {
      AnonymizeIs(s, t, d, task.payload);
    }
    SweepIs(Run(s, ops), d);
  }

  /** Progress on a request in flight whose target artifact is there: by the
      broker's answer the task waits and the request runs, or both have failed. */
  lemma ResolveAttempt(s: State, id: nat, path: string)
    requires id < |s.requests| && InFlight(s.requests[id]) && s.requests[id].document < |s.documents|
    requires var req := s.requests[id];
             ArtifactPath(s.documents, req.document, s.documents[req.document].org,
                          if req.anonymize then AnonymizeDoc else ConvertMd) == Some(path)
    requires !Blank(path) && !HasRequestTask(s, id, ResolveKeys)
    ensures var s', req, n := Run(s, ProgressOps(id, s.requests[id])), s.requests[id], |s.tasks|;
            var known := ListExtractionKeysByOrg(s.keys, s.documents[req.document].org);
            var msg := Message(n, req.document, ResolveKeys, path, ResolveArgs(req.questions, known));
            s'.log == s.log + [Attempt(msg, s.broker(|s.log|))] && |s'.tasks| == n + 1 && s'.tasks[..n] == s.tasks &&
            s'.tasks[n].document == req.document && s'.tasks[n].moduleName == ResolveKeys &&
            s'.tasks[n].input == path && s'.tasks[n].request == Some(id) &&
            |s'.requests| == |s.requests| && (forall i :: 0 <= i < |s.requests| && i != id ==>
              s'.requests[i] == s.requests[i]) &&
            if s.broker(|s.log|) == Delivered
            then s'.tasks[n].status == Pending && s'.tasks[n].error == None && s'.requests[id].status == RequestRunning
            else s'.tasks[n].status == Failed && s'.tasks[n].error == Some(PublishError) &&
                 s'.requests[id].status == RequestFailed && s'.requests[id].error == Some(PublishResolveFailed)
  {
    hide Run, ProgressOps, Asked, Blank, HasRequestTask, ArtifactPath, ListExtractionKeysByOrg;
    ProgressIs(s, id, s.requests[id]);
    AskedRows(s, id, s.requests[id], s.documents[s.requests[id].document].org, path);
  }

  /** A resolve_keys result with a schema, for a request that has no extract task
      yet and a usable target: by the broker's answer the task waits and the
      request is as it was, or both have failed. */
  lemma ExtractAttempt(s: State, t: nat, upd: StatusUpdate, result: ResolveResult, path: string)
    requires t < |s.tasks| && s.tasks[t].moduleName == ResolveKeys && s.tasks[t].request.Some?
    requires upd.status == Completed && upd.payload.Some? && upd.payload.value.AsResolve() == Some(result)
    requires result.schema != [] && s.tasks[t].request.value < |s.requests| &&
             s.requests[s.tasks[t].request.value].document < |s.documents|
    requires var req := s.requests[s.tasks[t].request.value];
             ArtifactPath(s.documents, req.document, s.documents[req.document].org,
                          if req.anonymize then AnonymizeDoc else ConvertMd) == Some(path)
    requires !Blank(path) && !HasRequestTask(s, s.tasks[t].request.value, Extract)
    ensures var s', id, n := Run(s, [Callback(t, upd)]), s.tasks[t].request.value, |s.tasks|;
            var req := s.requests[id].(schema := result.schema);
            var msg := Message(n, req.document, Extract, path, ExtractArgs(result.schema));
            s'.log == s.log + [Attempt(msg, s.broker(|s.log|))] && |s'.tasks| == n + 1 &&
            (forall i :: 0 <= i < n && i != t ==> s'.tasks[i] == s.tasks[i]) &&
            s'.tasks[n].document == req.document && s'.tasks[n].moduleName == Extract &&
            s'.tasks[n].input == path && s'.tasks[n].request == Some(id) &&
            if s.broker(|s.log|) == Delivered
            then s'.tasks[n].status == Pending && s'.tasks[n].error == None && s'.requests == s.requests[id := req]
            else s'.tasks[n].status == Failed && s'.tasks[n].error == Some(PublishError) &&
                 s'.requests == s.requests[id := req.(status := RequestFailed, error := Some(PipelineAfterResolve))]
  {
    hide Run, Extracting, Blank, ArtifactPath, Reports, UpsertAll, HasRequestTask;
    var id := s.tasks[t].request.value;
    var req, schema := s.requests[id], result.schema;
    CallbackIs(s, t, upd);
    var s1 := s.(tasks := s.tasks[t := Updated(s.tasks[t], upd, s.clock)],
                 reported := s.reported + Reports(s.tasks[t], upd));
    var s2 := s1.(keys := UpsertAll(s.keys, req.org, result.newKeys),
                  requests := s.requests[id := req.(schema := schema)],
                  stored := s.stored + {Stored(id, schema)});
    ExtractingRows(s2, id, req, path, schema);
    SameStage(s, s2, id);
  }

  lemma SameStage(s: State, s': State, id: nat)
    requires |s'.tasks| == |s.tasks| && forall i :: 0 <= i < |s.tasks| ==> SameIdentity(s.tasks[i], s'.tasks[i])
    ensures HasRequestTask(s', id, Extract) <==> HasRequestTask(s, id, Extract)
  {
    if HasRequestTask(s, id, Extract) {
      var i :| 0 <= i < |s.tasks| && s.tasks[i].request == Some(id) && s.tasks[i].moduleName == Extract;
      assert s'.tasks[i].request == Some(id);
    }
  }

  // ---- a scan

  lemma {:induction false} RepublishIs(s: State, msg: Message, attempt: nat)
    requires 1 <= attempt <= 3
    ensures Run(s, [Republish(msg, attempt)]) == Attempted(s, msg, 4 - attempt)
    decreases 3 - attempt
  {
    hide Run, After, Next;
    var s1 := Publish(s, msg);
    RunOne(s, Republish(msg, attempt));
    RepublishStep(s, msg, attempt);
    RunNone(s1);
    if s.broker(|s.log|) == Refused && attempt < 3 {
      RepublishIs(s1, msg, attempt + 1);
    }
  }

  lemma RevisitIs(s: State, cutoff: int, i: nat)
    requires Claimable(s, i, cutoff)
    ensures Run(s, [WatchdogClaim(cutoff, RowOf(s.tasks, i))]) == Revisited(s, i)
  {
    hide Run, After, Next, Attempted;
    var op, t := WatchdogClaim(cutoff, RowOf(s.tasks, i)), s.tasks[i];
    RunOne(s, op);
    ClaimStep(s, cutoff, i);
    ClaimedAt(s, cutoff, i);
    RunNone(After(s, op));
    if t.retries < s.config.maxRetries {
      RepublishIs(After(s, op), Bare(i, t), 1);
    }
  }

  lemma ClaimedAt(s: State, cutoff: int, i: nat)
    requires Claimable(s, i, cutoff)
    ensures After(s, WatchdogClaim(cutoff, RowOf(s.tasks, i))).claims ==
            if s.tasks[i].retries >= s.config.maxRetries then s.claims else s.claims + [Claim(i, s.clock)]
  {
  }

  lemma {:induction false} RevisitsAre(s: State, cutoff: int, ids: seq<nat>)
    requires Distinct(ids) && (forall k :: 0 <= k < |ids| ==> ids[k] < |s.tasks|)
    requires forall k :: 0 <= k < |ids| ==> Claimable(s, ids[k], cutoff)
    ensures Run(s, ClaimOps(cutoff, RowsOf(s.tasks, ids))) == Scanned(s, ids)
    decreases |ids|
  {
    hide Run, Revisited, Stale;
    var ops := ClaimOps(cutoff, RowsOf(s.tasks, ids));
    if ids == [] {
      RunNone(s);
      assert ops == [];
    } else {
      var rest, s1 := ids[1..], Revisited(s, ids[0]);
      RevisitIs(s, cutoff, ids[0]);
      assert ops == [ops[0]] + ops[1..];
      RunAppend(s, [ops[0]], ops[1..]);
      forall k | 0 <= k < |rest| ensures s1.tasks[rest[k]] == s.tasks[rest[k]] && Claimable(s1, rest[k], cutoff) {
        assert rest[k] == ids[k + 1];
        OthersStay(s, ids[0], rest[k]);
      }
      assert RowsOf(s1.tasks, rest) == RowsOf(s.tasks, ids)[1..];
      assert ops[1..] == ClaimOps(cutoff, RowsOf(s1.tasks, rest));
      RevisitsAre(s1, cutoff, rest);
    }
  }

  lemma OthersStay(s: State, i: nat, j: nat)
    requires i < |s.tasks| && j < |s.tasks| && i != j
    ensures Revisited(s, i).tasks[j] == s.tasks[j]
  {
  }

  /** A scan comes to Scanned: each listed task revisited once, oldest first. */
  lemma ScanIs(s: State)
    requires Inv(s)
    ensures var ids := ListedIds(s, s.clock - s.config.threshold);
            Run(s, [WatchdogClock]) == Scanned(s, ids)
  {
    hide Run, Inv, ListedIds, Stale, ClaimOps, RowsOf, Scanned;
    RunScan(s);
    ListedClaimable(s);
    RevisitsAre(s, Cutoff(s), ListedIds(s, Cutoff(s)));
  }
}
