/** Delivery is at least once: a callback delivered again finds everything it
    would do already done, and changes nothing but its own row's timestamp. */
module Replay {
  import opened Model
  import opened Statements
  import opened Machine
  import opened Invariants
  import opened Preservation
  import opened Interleaving
  import opened Atomic
  import opened Wakeup
  import opened Progress
  import opened Callbacks
  import opened Data
  import opened Effects

  // ---- artifacts

  /** The artifact row (d, kind) is there and holds the path. */
  predicate Registered(s: State, d: nat, kind: Kind, path: string) {
    var row := ArtifactRow(s.documents, d, kind);
    row < |s.documents| && s.documents[row].path == path &&
    Held(d, Some(kind), path) in s.held && Held(row, None, path) in s.held
  }

  lemma {:induction false} RowStays(a: seq<Document>, b: seq<Document>, d: nat, kind: Kind)
    requires |a| <= |b| && forall i :: 0 <= i < |a| ==> a[i].parent == b[i].parent && a[i].kind == b[i].kind
    requires ArtifactRow(a, d, kind) < |a| || |a| == |b| || (b[|a|].parent == Some(d) && b[|a|].kind == Some(kind))
    ensures ArtifactRow(a, d, kind) == ArtifactRow(b, d, kind)
  {
    if a != [] && !(a[0].parent == Some(d) && a[0].kind == Some(kind)) {
      RowStays(a[1..], b[1..], d, kind);
    }
  }

  lemma SavedIsRegistered(s: State, org: nat, d: nat, kind: Kind, path: string)
    ensures Registered(CreateArtifactDocument(s, org, d, kind, path), d, kind, path)
    ensures ArtifactRow(CreateArtifactDocument(s, org, d, kind, path).documents, d, kind) ==
            ArtifactRow(s.documents, d, kind)
  {
    var s' := CreateArtifactDocument(s, org, d, kind, path);
    RowStays(s.documents, s'.documents, d, kind);
  }

  lemma OtherKindStays(s: State, org: nat, d: nat, kind: Kind, path: string, other: Kind, p: string)
    requires other != kind && Registered(s, d, other, p)
    ensures var s' := CreateArtifactDocument(s, org, d, kind, path);
            Registered(s', d, other, p) && ArtifactRow(s'.documents, d, other) == ArtifactRow(s.documents, d, other)
  {
    RowStays(s.documents, CreateArtifactDocument(s, org, d, kind, path).documents, d, other);
  }

  lemma SaveAgain(s: State, org: nat, d: nat, kind: Kind, path: string)
    requires Registered(s, d, kind, path)
    ensures CreateArtifactDocument(s, org, d, kind, path) == s
  {
  }

  predicate Nothing(found: Found) {
    found.Anonymized? && found.result.document == "" && found.result.entities == ""
  }

  predicate AllRegistered(s: State, d: nat, found: Found) {
    match found
    case Markdown(path) => Registered(s, d, ConvertMd, path)
    case Anonymized(a) =>
      (a.document != "" ==> Registered(s, d, AnonymizeDoc, a.document)) &&
      (a.entities != "" ==> Registered(s, d, AnonymizeEntities, a.entities))
  }

  /** The payload that names the registered artifacts. */
  function FinalPayload(documents: seq<Document>, d: nat, found: Found): Payload {
    match found
    case Markdown(_) => ConvertFinal(ArtifactRow(documents, d, ConvertMd))
    case Anonymized(a) =>
      AnonymizeFinal(if a.document == "" then None else Some(ArtifactRow(documents, d, AnonymizeDoc)),
                     if a.entities == "" then None else Some(ArtifactRow(documents, d, AnonymizeEntities)))
  }

  function Finalized(s: State, t: nat, d: nat, found: Found): State
    requires t < |s.tasks|
  {
    if Nothing(found) then s else UpdateTask(s, t, s.tasks[t].(payload := FinalPayload(s.documents, d, found)))
  }

  lemma RunSetPayload(s: State, t: nat, p: Payload)
    requires t < |s.tasks|
    ensures Run(s, [SetPayload(t, p)]) == UpdateTask(s, t, s.tasks[t].(payload := p))
  {
    hide Run;
    RunLast(s, SetPayload(t, p));
  }

  lemma RunSaveLast(s: State, t: nat, d: nat, org: nat, kind: Kind, path: string, anonymized: Option<nat>)
    requires t < |s.tasks| && kind != AnonymizeDoc
    ensures var s1 := CreateArtifactDocument(s, org, d, kind, path);
            var row := ArtifactRow(s.documents, d, kind);
            Run(s, [SaveArtifact(t, d, org, kind, path, anonymized, "")]) ==
            UpdateTask(s1, t, s1.tasks[t].(payload := if kind == ConvertMd then ConvertFinal(row)
              else AnonymizeFinal(anonymized, Some(row))))
  {
    hide Run, ArtifactRow;
    var op := SaveArtifact(t, d, org, kind, path, anonymized, "");
    RunOne(s, op);
    RunSetPayload(After(s, op), t, Next(s, op)[0].payload);
  }

  /** The states that saving both artifacts goes through. */
  function Saved(s: State, d: nat, org: nat, found: Found): State {
    match found
    case Markdown(path) => CreateArtifactDocument(s, org, d, ConvertMd, path)
    case Anonymized(a) =>
      var s1 := if a.document == "" then s else CreateArtifactDocument(s, org, d, AnonymizeDoc, a.document);
      if a.entities == "" then s1 else CreateArtifactDocument(s1, org, d, AnonymizeEntities, a.entities)
  }

  lemma SavedRegisters(s: State, d: nat, org: nat, found: Found)
    ensures AllRegistered(Saved(s, d, org, found), d, found)
  {
    hide Registered, CreateArtifactDocument;
    match found
    case Markdown(path) => SavedIsRegistered(s, org, d, ConvertMd, path);
    case Anonymized(a) =>
      var s1 := if a.document == "" then s else CreateArtifactDocument(s, org, d, AnonymizeDoc, a.document);
      SavedIsRegistered(s, org, d, AnonymizeDoc, a.document);
      SavedIsRegistered(s1, org, d, AnonymizeEntities, a.entities);
      if a.document != "" {
        OtherKindStays(s1, org, d, AnonymizeEntities, a.entities, AnonymizeDoc, a.document);
      }
  }

  lemma SavedAgain(s: State, d: nat, org: nat, found: Found)
    requires AllRegistered(s, d, found)
    ensures Saved(s, d, org, found) == s
  {
    hide CreateArtifactDocument, Registered;
    match found
    case Markdown(path) => SaveAgain(s, org, d, ConvertMd, path);
    case Anonymized(a) =>
      if a.document != "" { SaveAgain(s, org, d, AnonymizeDoc, a.document); }
      if a.entities != "" { SaveAgain(s, org, d, AnonymizeEntities, a.entities); }
  }

  /** Registering saves what was found and rewrites the payload. */
  lemma RunRegister(s: State, t: nat, d: nat, found: Found)
    requires t < |s.tasks| && d < |s.documents|
    ensures Run(s, [LoadParent(t, d, found)]) == Finalized(Saved(s, d, s.documents[d].org, found), t, d, found)
  {
    hide Run, After, Next, CreateArtifactDocument, ArtifactRow;
    var org := s.documents[d].org;
    RunOne(s, LoadParent(t, d, found));
    LoadParentStep(s, t, d, found);
    RunNone(s);
    match found
    case Markdown(path) =>
      SavedIsRegistered(s, org, d, ConvertMd, path);
      SavedTasks(s, org, d, ConvertMd, path);
      RunSaveLast(s, t, d, org, ConvertMd, path, None);
    case Anonymized(a) =>
      if a.document != "" {
        RunRegisterBoth(s, t, d, a);
      } else if a.entities != "" {
        SavedIsRegistered(s, org, d, AnonymizeEntities, a.entities);
        SavedTasks(s, org, d, AnonymizeEntities, a.entities);
        RunSaveLast(s, t, d, org, AnonymizeEntities, a.entities, None);
      }
  }

  lemma SavedTasks(s: State, org: nat, d: nat, kind: Kind, path: string)
    ensures CreateArtifactDocument(s, org, d, kind, path).tasks == s.tasks
  {
  }

  lemma SaveAnonymizedStep(s: State, t: nat, d: nat, org: nat, a: AnonymizeResult)
    ensures var op, row := SaveArtifact(t, d, org, AnonymizeDoc, a.document, None, a.entities),
            ArtifactRow(s.documents, d, AnonymizeDoc);
            After(s, op) == CreateArtifactDocument(s, org, d, AnonymizeDoc, a.document) &&
            Next(s, op) == if a.entities != ""
              then [SaveArtifact(t, d, org, AnonymizeEntities, a.entities, Some(row), "")]
                           else [SetPayload(t, AnonymizeFinal(Some(row), None))]
  {
    hide CreateArtifactDocument, ArtifactRow;
  }

  lemma RunRegisterBoth(s: State, t: nat, d: nat, a: AnonymizeResult)
    requires t < |s.tasks| && d < |s.documents| && a.document != ""
    ensures var org, found := s.documents[d].org, Anonymized(a);
            Run(s, [SaveArtifact(t, d, org, AnonymizeDoc, a.document, None, a.entities)]) ==
            Finalized(Saved(s, d, org, found), t, d, found)
  {
    hide Run, After, Next, CreateArtifactDocument, ArtifactRow, Registered;
    var org := s.documents[d].org;
    var op := SaveArtifact(t, d, org, AnonymizeDoc, a.document, None, a.entities);
    var s1, row := CreateArtifactDocument(s, org, d, AnonymizeDoc, a.document),
      ArtifactRow(s.documents, d, AnonymizeDoc);
    RunOne(s, op);
    SaveAnonymizedStep(s, t, d, org, a);
    SavedIsRegistered(s, org, d, AnonymizeDoc, a.document);
    SavedTasks(s, org, d, AnonymizeDoc, a.document);
    if a.entities == "" {
      RunSetPayload(s1, t, AnonymizeFinal(Some(row), None));
    } else {
      RunSaveLast(s1, t, d, org, AnonymizeEntities, a.entities, Some(row));
      SavedIsRegistered(s1, org, d, AnonymizeEntities, a.entities);
      SavedTasks(s1, org, d, AnonymizeEntities, a.entities);
      OtherKindStays(s1, org, d, AnonymizeEntities, a.entities, AnonymizeDoc, a.document);
    }
  }

  // ---- resolve_keys results

  predicate FailedWith(s: State, r: nat, error: ErrorText) {
    r < |s.requests| ==> s.requests[r].status == RequestFailed && s.requests[r].error == Some(error)
  }

  lemma FailAgain(s: State, r: nat, error: ErrorText)
    requires FailedWith(s, r, error)
    ensures Run(s, [SetRequestStatus(r, RequestFailed, Some(error))]) == s
  {
    hide Run;
    RunLast(s, SetRequestStatus(r, RequestFailed, Some(error)));
  }

  lemma FailSticks(s: State, r: nat, error: ErrorText)
    ensures var s' := Run(s, [SetRequestStatus(r, RequestFailed, Some(error))]);
            s' == SetExtractionRequestStatus(s, r, RequestFailed, Some(error)) && FailedWith(s', r, error) &&
            s'.tasks == s.tasks
  {
    hide Run;
    RunLast(s, SetRequestStatus(r, RequestFailed, Some(error)));
  }

  /** How far a resolve_keys result gets before it inserts the extract task. */
  function Resolved(s: State, r: nat, result: ResolveResult): State
    requires r < |s.requests|
  {
    s.(keys := UpsertAll(s.keys, s.requests[r].org, result.newKeys),
       requests := s.requests[r := s.requests[r].(schema := result.schema)],
       stored := s.stored + {Stored(r, result.schema)})
  }

  function TargetPath(s: State, req: Request): Option<string>
    requires req.document < |s.documents|
  {
    ArtifactPath(s.documents, req.document, s.documents[req.document].org, TargetKind(req.anonymize))
  }

  function ExtractNext(s: State, r: nat, req: Request, schema: seq<SchemaEntry>): Op
    requires req.document < |s.documents|
  {
    match TargetPath(s, req)
    case None => ResolveError(r)
    case Some(path) => ExtractInsert(r, req, path, schema)
  }

  lemma RunFindTarget(s: State, r: nat, req: Request, schema: seq<SchemaEntry>)
    requires req.document < |s.documents|
    ensures Run(s, [ExtractDocument(r, req, schema)]) == Run(s, [ExtractNext(s, r, req, schema)])
  {
    hide Run, After, Next, ArtifactPath;
    RunOne(s, ExtractDocument(r, req, schema));
    FindTargetSteps(s, r, req, schema);
    RunOne(s, ExtractArtifacts(r, req, s.documents[req.document].org, schema));
  }

  lemma FindTargetSteps(s: State, r: nat, req: Request, schema: seq<SchemaEntry>)
    requires req.document < |s.documents|
    ensures var load, find := ExtractDocument(r, req, schema),
            ExtractArtifacts(r, req, s.documents[req.document].org, schema);
            After(s, load) == s && Next(s, load) == [find] &&
            After(s, find) == s && Next(s, find) == [ExtractNext(s, r, req, schema)]
  {
    hide ArtifactPath;
  }

  lemma RunSetSchema(s: State, r: nat, req: Request, schema: seq<SchemaEntry>)
    requires r < |s.requests| && req.document < |s.documents|
    ensures Run(s, [SetSchema(r, req, schema)]) ==
            Run(SetExtractionRequestResolvedSchema(s, r, schema), [ExtractNext(s, r, req, schema)])
  {
    hide Run, After, Next, ArtifactPath, SetExtractionRequestResolvedSchema;
    RunOne(s, SetSchema(r, req, schema));
    SetSchemaStep(s, r, req, schema);
    RunFindTarget(SetExtractionRequestResolvedSchema(s, r, schema), r, req, schema);
  }

  lemma RunResolve(s: State, r: nat, result: ResolveResult)
    requires r < |s.requests| && s.requests[r].document < |s.documents|
    ensures var req, s1 := s.requests[r], Resolved(s, r, result);
            Run(s, [ResolveLoad(r, result)]) == Run(s1, [ExtractNext(s, r, req, result.schema)])
  {
    hide Run, After, Next, ArtifactPath, UpsertAll, UpsertOps;
    var req, org := s.requests[r], s.requests[r].org;
    var set' := SetSchema(r, req, result.schema);
    RunOne(s, ResolveLoad(r, result));
    LoadStep(s, r, result);
    RunAppend(s, UpsertOps(org, result.newKeys), [set']);
    RunUpserts(s, org, result.newKeys);
    RunSetSchema(s.(keys := UpsertAll(s.keys, org, result.newKeys)), r, req, result.schema);
  }

  /** The extract insert comes to Extracting, by the broker's answer. */
  lemma RunExtractInsert(s: State, r: nat, req: Request, path: string, schema: seq<SchemaEntry>)
    ensures Run(s, [ExtractInsert(r, req, path, schema)]) == Extracting(s, r, req, path, schema)
  {
    hide Run, InsertOutcome, After, Next, UpdateWorkerTaskStatus;
    var row, op := RequestRow(s, r, req, Extract, path), ExtractInsert(r, req, path, schema);
    RunOne(s, op);
    ExtractInsertStep(s, r, req, path, schema);
    RunNone(s);
    match InsertOutcome(s, row)
    case Rejected => SetStatusStep(s, r, RequestFailed, Some(PipelineAfterResolve));
    case Conflict =>
    case Row(t) =>
      var msg := TaskMessage(t, row, ExtractArgs(schema));
      RunPublishExtract(After(s, op), r, msg);
      FailedTask(Publish(After(s, op), msg), t);
  }

  lemma RunPublishExtract(s: State, r: nat, msg: Message)
    ensures Run(s, [PublishTask(msg, FailExtract(r))]) ==
            if s.broker(|s.log|) == Delivered then Publish(s, msg)
            else WithStatus(UpdateWorkerTaskStatus(Publish(s, msg), msg.task, FAILED_TO_PUBLISH), r, RequestFailed,
                            Some(PipelineAfterResolve))
  {
    hide Run, After, Next, UpdateWorkerTaskStatus;
    var op := PublishTask(msg, FailExtract(r));
    var s1 := Publish(s, msg);
    RunOne(s, op);
    PublishStep(s, msg, FailExtract(r));
    RunNone(s1);
    if s.broker(|s.log|) != Delivered {
      var fails := [FailTask(msg.task), SetRequestStatus(r, RequestFailed, Some(PublishExtractFailed))];
      assert Next(s, op) == fails + [ResolveError(r)];
      RunAppend(s1, fails, [ResolveError(r)]);
      RunFailures(s1, msg.task, r, PublishExtractFailed);
      SetStatusStep(Run(s1, fails), r, RequestFailed, Some(PipelineAfterResolve));
    }
  }

  /** What else it leaves as it was. */
  lemma ExtractingKeeps(s: State, r: nat, req: Request, path: string, schema: seq<SchemaEntry>)
    requires r < |s.requests|
    ensures var s', row := Extracting(s, r, req, path, schema), RequestRow(s, r, req, Extract, path);
            match InsertOutcome(s, row)
            case Rejected => s' == WithStatus(s, r, RequestFailed, Some(PipelineAfterResolve))
            case Conflict => s' == s
            case Row(_) =>
              s' == s.(tasks := s'.tasks, requests := s'.requests, log := s'.log) &&
              s'.log == Publish(s, TaskMessage(|s.tasks|, row, ExtractArgs(schema))).log &&
              s.tasks <= s'.tasks && |s'.tasks| == |s.tasks| + 1 && SameIdentity(s'.tasks[|s.tasks|], row) &&
              (s'.requests == s.requests ||
               s'.requests == s.requests[r := s.requests[r].(status := RequestFailed,
               error := Some(PipelineAfterResolve))])
  {
    hide InsertOutcome;
  }

  /** Everything that the resolve_keys result asks for is in place. */
  predicate ResolveDone(s: State, r: nat, p: Payload) {
    if p.AsResolve().None? || p.AsResolve().value.schema == [] then FailedWith(s, r, PipelineAfterResolve)
    else
      var result := p.AsResolve().value;
      r < |s.requests| && s.requests[r].document < |s.documents| && s.requests[r].schema == result.schema &&
      Stored(r, result.schema) in s.stored &&
      UpsertAll(s.keys, s.requests[r].org, result.newKeys) == s.keys &&
      TargetPath(s, s.requests[r]).Some? &&
      match InsertOutcome(s, RequestRow(s, r, s.requests[r], Extract, TargetPath(s, s.requests[r]).value))
      case Rejected => FailedWith(s, r, PipelineAfterResolve)
      case Conflict => true
      case Row(_) => false
  }

  lemma ResolveAgain(s: State, r: nat, p: Payload)
    requires ResolveDone(s, r, p)
    ensures Run(s, ResolveOps(r, p)) == s
  {
    hide Run, ArtifactPath, UpsertAll, InsertOutcome;
    if p.AsResolve().None? || p.AsResolve().value.schema == [] {
      FailAgain(s, r, PipelineAfterResolve);
    } else {
      var result := p.AsResolve().value;
      RunResolve(s, r, result);
      assert Resolved(s, r, result) == s;
      RunExtractInsert(s, r, s.requests[r], TargetPath(s, s.requests[r]).value, result.schema);
      ExtractingKeeps(s, r, s.requests[r], TargetPath(s, s.requests[r]).value, result.schema);
    }
  }

  lemma TargetThere(s: State, r: nat)
    requires Inv(s) && r < |s.requests| && HasRequestTask(s, r, ResolveKeys)
    ensures s.requests[r].document < |s.documents| && TargetPath(s, s.requests[r]).Some?
  {
    assert RequestOk(s, r, s.requests[r]);
    ResolveTaskServes(s, r);
    ArtifactPathIs(s, s.requests[r].document, TargetKind(s.requests[r].anonymize));
  }

  lemma UniqueKeys(s: State)
    requires Inv(s)
    ensures KeysUnique(s.keys)
  {
  }

  lemma InsertedConflicts(s: State, s': State, row: Task, row': Task)
    requires InsertOutcome(s, row).Row? && |s'.tasks| > |s.tasks| && SameIdentity(s'.tasks[|s.tasks|], row)
    requires SameIdentity(row, row') && s'.documents == s.documents
    ensures InsertOutcome(s', row') == Conflict
  {
    assert SameSlot(s'.tasks[|s.tasks|], row');
  }

  lemma ResolveSettles(s: State, r: nat, p: Payload)
    requires Inv(s) && r < |s.requests| && HasRequestTask(s, r, ResolveKeys)
    ensures var s' := Run(s, ResolveOps(r, p)); ResolveDone(s', r, p) && s.tasks <= s'.tasks
  {
    hide Run, Inv, ArtifactPath, UpsertAll, InsertOutcome, HasRequestTask, KeysUnique;
    if p.AsResolve().None? || p.AsResolve().value.schema == [] {
      FailSticks(s, r, PipelineAfterResolve);
    } else {
      var result, req := p.AsResolve().value, s.requests[r];
      TargetThere(s, r);
      UniqueKeys(s);
      UpsertAllIdempotent(s.keys, req.org, result.newKeys);
      RunResolve(s, r, result);
      var path, s1 := TargetPath(s, req).value, Resolved(s, r, result);
      RunExtractInsert(s1, r, req, path, result.schema);
      ExtractingKeeps(s1, r, req, path, result.schema);
      var s', row := Run(s, ResolveOps(r, p)), RequestRow(s1, r, req, Extract, path);
      var row' := RequestRow(s', r, s'.requests[r], Extract, path);
      if InsertOutcome(s1, row).Row? {
        InsertedConflicts(s1, s', row, row');
      } else {
        SameOutcome(s1, s', row, row');
      }
    }
  }

  /** Inserts go by the identities of the rows that are there. */
  lemma SameOutcome(s: State, s': State, row: Task, row': Task)
    requires |s'.tasks| == |s.tasks| && (forall i :: 0 <= i < |s.tasks| ==> SameIdentity(s.tasks[i], s'.tasks[i]))
    requires s'.documents == s.documents && SameIdentity(row, row')
    ensures InsertOutcome(s', row') == InsertOutcome(s, row)
  {
    forall i | 0 <= i < |s.tasks| ensures SameSlot(s.tasks[i], row) == SameSlot(s'.tasks[i], row') {
      assert SameIdentity(s.tasks[i], s'.tasks[i]);
    }
  }

  // ---- extract results

  predicate ExtractDone(s: State, r: nat, p: Payload) {
    match p.AsExtract()
    case None => FailedWith(s, r, PipelineAfterExtract)
    case Some(data) =>
      r < |s.requests| && s.requests[r].status == RequestCompleted && s.requests[r].error == None &&
      var req := s.requests[r];
      SaveValues(s.extracted, req.org, req.document, Writes(s.keys, req.org, data)) == s.extracted
  }

  lemma ExtractAgain(s: State, r: nat, p: Payload)
    requires ExtractDone(s, r, p)
    ensures Run(s, ExtractOps(r, p)) == s
  {
    hide Run, Writes, SaveValues;
    match p.AsExtract()
    case None => FailAgain(s, r, PipelineAfterExtract);
    case Some(data) =>
      RunExtract(s, r, data);
      assert s.requests[r := s.requests[r].(status := RequestCompleted, error := None)] == s.requests;
  }

  lemma SaveValuesTwice(extracted: map<Cell, string>, org: nat, document: nat, values: map<nat, string>)
    ensures var once := SaveValues(extracted, org, document, values); SaveValues(once, org, document, values) == once
  {
  }

  lemma ExtractSettles(s: State, r: nat, p: Payload)
    requires r < |s.requests|
    ensures var s' := Run(s, ExtractOps(r, p)); ExtractDone(s', r, p) && s.tasks <= s'.tasks
  {
    hide Run, Writes, SaveValues;
    match p.AsExtract()
    case None => FailSticks(s, r, PipelineAfterExtract);
    case Some(data) =>
      RunExtract(s, r, data);
      SaveValuesTwice(s.extracted, s.requests[r].org, s.requests[r].document, Writes(s.keys, s.requests[r].org, data));
  }

  // ---- a callback's effects, all in place

  function Effective(task: Task, upd: StatusUpdate): Payload {
    if upd.payload.Some? then upd.payload.value else task.payload
  }

  /** The update itself is in the row; the payload may have been rewritten. */
  predicate RowDone(s: State, t: nat, upd: StatusUpdate) {
    t < |s.tasks| && s.tasks[t].document < |s.documents| &&
    WorkerRow(s.tasks[t], upd) == s.tasks[t].(payload := Effective(s.tasks[t], upd)) &&
    Reports(s.tasks[t], upd) <= s.reported
  }

  function FoundIn(m: Module, p: Payload): Option<Found> {
    if m == Convert then
      if p.AsConvert().None? || p.AsConvert().value == "" then None else Some(Markdown(p.AsConvert().value))
    else if p.AsAnonymize().None? then None else Some(Anonymized(p.AsAnonymize().value))
  }

  predicate FoundDone(s: State, t: nat, p: Payload)
    requires t < |s.tasks|
  {
    var task := s.tasks[t];
    match FoundIn(task.moduleName, p)
    case None => task.payload == p
    case Some(found) =>
      AllRegistered(s, task.document, found) &&
      task.payload == (if Nothing(found) then p else FinalPayload(s.documents, task.document, found)) &&
      (found.Markdown? ==> !InsertOutcome(s, EnsureRow(s, task.document, Anonymize, found.path)).Row?)
  }

  ghost predicate StageDone(s: State, t: nat, p: Payload)
    requires t < |s.tasks|
  {
    var task := s.tasks[t];
    if task.status == Completed && Singleton(task.moduleName) then FoundDone(s, t, p) && AllSettled(s, task.document)
    else
      task.payload == p &&
      if task.status == Completed && task.request.Some? then
        if task.moduleName == ResolveKeys then ResolveDone(s, task.request.value, p)
          else ExtractDone(s, task.request.value, p)
      else if task.status == Failed && Singleton(task.moduleName) then NoneInFlight(s, task.document)
      else if task.status == Failed && task.request.Some? then FailedWith(s, task.request.value, FailureText(task))
      else true
  }

  function FailureText(task: Task): ErrorText {
    if task.error.Some? then task.error.value else TaskFailed
  }

  predicate NoneInFlight(s: State, d: nat) {
    forall r :: 0 <= r < |s.requests| && s.requests[r].document == d ==> !InFlight(s.requests[r])
  }

  ghost predicate Done(s: State, t: nat, upd: StatusUpdate) {
    RowDone(s, t, upd) && StageDone(s, t, Effective(s.tasks[t], upd))
  }

  /** Only the row's timestamp moves. */
  function Stamp(s: State, t: nat): State
    requires t < |s.tasks|
  {
    s.(tasks := s.tasks[t := s.tasks[t].(updatedAt := s.clock)])
  }

  // ---- a second delivery

  lemma StampKeeps(s: State, t: nat)
    requires Inv(s) && t < |s.tasks|
    ensures Inv(Stamp(s, t))
  {
    hide Evolves;
    assert TaskOk(s, s.tasks[t]);
    TouchKeeps(s, Stamp(s, t), t, s.tasks[t]);
  }

  lemma StampedOutcome(s: State, t: nat, row: Task, row': Task)
    requires t < |s.tasks| && SameIdentity(row, row')
    ensures InsertOutcome(Stamp(s, t), row') == InsertOutcome(s, row)
  {
    hide InsertOutcome;
    SameOutcome(s, Stamp(s, t), row, row');
  }

  lemma StampedSettled(s: State, t: nat, d: nat)
    requires t < |s.tasks| && AllSettled(s, d)
    ensures AllSettled(Stamp(s, t), d)
  {
    hide InsertOutcome, Settled, NextPath, NextModule;
    var s' := Stamp(s, t);
    forall id | 0 <= id < |s'.requests| && s'.requests[id].document == d && InFlight(s'.requests[id])
      ensures d < |s'.documents| && Settled(s', id)
    {
      assert Settled(s, id);
      SettledRow(s, id);
      SettledRow(s', id);
      StampedRow(s, s', id);
      StampedOutcome(s, t, LastRow(s, id, s.requests[id]), LastRow(s', id, s.requests[id]));
    }
  }

  lemma StampedRow(s: State, s': State, id: nat)
    requires s'.documents == s.documents && s'.requests == s.requests && s'.clock == s.clock
    requires id < |s.requests| && s.requests[id].document < |s.documents|
    ensures LastRow(s', id, s.requests[id]) == LastRow(s, id, s.requests[id])
  {
  }

  lemma UpdateAgain(s: State, t: nat, upd: StatusUpdate)
    requires RowDone(s, t, upd)
    ensures After(s, Callback(t, upd)) == UpdateTask(s, t, s.tasks[t].(payload := Effective(s.tasks[t], upd)))
    ensures Next(s, Callback(t, upd)) == Chain(t, s.tasks[t].(payload := Effective(s.tasks[t], upd)))
  {
    assert s.reported + Reports(s.tasks[t], upd) == s.reported;
  }

  /** The part of the chain that registers artifacts and triggers anonymize. */
  function FoundOps(t: nat, d: nat, found: Option<Found>): seq<Op> {
    match found
    case None => []
    case Some(f) => [LoadParent(t, d, f)] + if f.Markdown? then [EnsureTask(d, Anonymize, f.path)] else []
  }

  lemma ChainIs(t: nat, task: Task)
    requires task.status == Completed && Singleton(task.moduleName)
    ensures Chain(t, task) == FoundOps(t, task.document, FoundIn(task.moduleName, task.payload)) +
            [ProgressPending(task.document)]
  {
  }

  lemma FoundAgain(s: State, t: nat, p: Payload)
    requires t < |s.tasks| && s.tasks[t].document < |s.documents| && FoundDone(s, t, p)
    ensures var task := s.tasks[t];
            Run(UpdateTask(s, t, task.(payload := p)), FoundOps(t, task.document, FoundIn(task.moduleName, p))) ==
              Stamp(s, t)
  {
    hide Run, InsertOutcome, Registered, FinalPayload, Saved;
    var task := s.tasks[t];
    var d, s1 := task.document, UpdateTask(s, t, task.(payload := p));
    match FoundIn(task.moduleName, p)
    case None => RunNone(s1);
    case Some(found) =>
      RegisteredBy(s, s1, d, found);
      SavedAgain(s1, d, s1.documents[d].org, found);
      RunRegister(s1, t, d, found);
      assert Run(s1, [LoadParent(t, d, found)]) == Stamp(s, t);
      if found.Markdown? {
        RunAppend(s1, [LoadParent(t, d, found)], [EnsureTask(d, Anonymize, found.path)]);
        RunEnsure(Stamp(s, t), d, Anonymize, found.path);
        StampedOutcome(s, t, EnsureRow(s, d, Anonymize, found.path), EnsureRow(Stamp(s, t), d, Anonymize, found.path));
      } else {
        assert [LoadParent(t, d, found)] + [] == [LoadParent(t, d, found)];
      }
  }

  lemma RegisteredBy(s: State, s': State, d: nat, found: Found)
    requires s'.documents == s.documents && s'.held == s.held && AllRegistered(s, d, found)
    ensures AllRegistered(s', d, found)
  {
  }

  lemma StageAgain(s: State, t: nat, p: Payload)
    requires Inv(s) && t < |s.tasks| && s.tasks[t].document < |s.documents| && StageDone(s, t, p)
    ensures Run(UpdateTask(s, t, s.tasks[t].(payload := p)), Chain(t, s.tasks[t].(payload := p))) == Stamp(s, t)
  {
    hide Run, Inv, FoundDone, AllSettled, ResolveDone, ExtractDone, FoundIn, FoundOps;
    var task := s.tasks[t];
    var s1 := UpdateTask(s, t, task.(payload := p));
    if task.status == Completed && Singleton(task.moduleName) {
      ChainIs(t, task.(payload := p));
      RunAppend(s1, FoundOps(t, task.document, FoundIn(task.moduleName, p)), [ProgressPending(task.document)]);
      FoundAgain(s, t, p);
      StampKeeps(s, t);
      StampedSettled(s, t, task.document);
      Sweep(Stamp(s, t), task.document);
    } else {
      assert s1 == Stamp(s, t);
      assert task.(payload := p) == task;
      ResultAgain(s, t);
    }
  }

  lemma ResultAgain(s: State, t: nat)
    requires t < |s.tasks| && !(s.tasks[t].status == Completed && Singleton(s.tasks[t].moduleName))
    requires StageDone(s, t, s.tasks[t].payload)
    ensures Run(Stamp(s, t), Chain(t, s.tasks[t])) == Stamp(s, t)
  {
    hide Run, ResolveDone, ExtractDone;
    var task, s1 := s.tasks[t], Stamp(s, t);
    RunNone(s1);
    if task.status == Completed && task.request.Some? {
      if task.moduleName == ResolveKeys {
        StampedResolve(s, t, task.request.value, task.payload);
        ResolveAgain(s1, task.request.value, task.payload);
      } else {
        StampedExtract(s, s1, task.request.value, task.payload);
        ExtractAgain(s1, task.request.value, task.payload);
      }
    } else if task.status == Failed && Singleton(task.moduleName) {
      NobodyToFail(s1, task.document, task.moduleName);
    } else if task.status == Failed && task.request.Some? {
      FailAgain(s1, task.request.value, FailureText(task));
    }
  }

  lemma FirstIn(ids: seq<nat>)
    ensures ids == [] || ids[0] in ids
  {
  }

  lemma NobodyToFail(s: State, d: nat, m: Module)
    requires NoneInFlight(s, d)
    ensures Run(s, [FailPending(d, m)]) == s
  {
    hide Run;
    var ids := ListPendingRequests(s.requests, d);
    FirstIn(ids);
    assert FailAll(ids, m) == [];
    RunOne(s, FailPending(d, m));
    RunNone(s);
  }

  lemma StampedResolve(s: State, t: nat, r: nat, p: Payload)
    requires t < |s.tasks| && ResolveDone(s, r, p)
    ensures ResolveDone(Stamp(s, t), r, p)
  {
    hide InsertOutcome, ArtifactPath, UpsertAll;
    if r < |s.requests| && s.requests[r].document < |s.documents| && TargetPath(s, s.requests[r]).Some? {
      var path := TargetPath(s, s.requests[r]).value;
      StampedOutcome(s, t, RequestRow(s, r, s.requests[r], Extract, path),
        RequestRow(Stamp(s, t), r, s.requests[r], Extract, path));
    }
  }

  lemma StampedExtract(s: State, s': State, r: nat, p: Payload)
    requires ExtractDone(s, r, p) && s'.requests == s.requests && s'.keys == s.keys && s'.extracted == s.extracted
    ensures ExtractDone(s', r, p)
  {
    hide Writes, SaveValues;
  }

  lemma Again(s: State, t: nat, upd: StatusUpdate)
    requires Inv(s) && Done(s, t, upd)
    ensures Run(s, [Callback(t, upd)]) == Stamp(s, t)
  {
    hide Run, Inv, StageDone, RowDone, Chain, After, Next;
    assert t < |s.tasks| && s.tasks[t].document < |s.documents| by { RowThere(s, t, upd); }
    UpdateAgain(s, t, upd);
    RunOne(s, Callback(t, upd));
    StageAgain(s, t, Effective(s.tasks[t], upd));
  }

  lemma RowThere(s: State, t: nat, upd: StatusUpdate)
    requires RowDone(s, t, upd)
    ensures t < |s.tasks| && s.tasks[t].document < |s.documents|
  {
  }

  // ---- the first delivery

  lemma FirstRow(s: State, t: nat, upd: StatusUpdate)
    requires Inv(s) && t < |s.tasks|
    ensures var s1 := After(s, Callback(t, upd));
            Inv(s1) && RowDone(s1, t, upd) && t < |s1.tasks| && s1.clock == s.clock &&
              s1.tasks[t] == WorkerRow(s.tasks[t], upd).(updatedAt := s.clock) &&
            Next(s, Callback(t, upd)) == Chain(t, s1.tasks[t]) && OpsOk(s1, Chain(t, s1.tasks[t]))
  {
    hide Evolves, Chain, OpsOk;
    var s1 := After(s, Callback(t, upd));
    CallbackKeeps(s, t, upd);
    CallbackNextOk(s, Callback(t, upd));
    assert TaskOk(s, s.tasks[t]);
    SameChain(t, s1.tasks[t], WorkerRow(s.tasks[t], upd));
  }

  lemma SameChain(t: nat, a: Task, b: Task)
    requires a == b.(updatedAt := a.updatedAt)
    ensures Chain(t, a) == Chain(t, b)
  {
  }

  lemma RowDoneLater(s: State, s': State, t: nat, upd: StatusUpdate)
    requires RowDone(s, t, upd) && t < |s'.tasks| && s'.tasks[t] == s.tasks[t].(payload := s'.tasks[t].payload)
    requires |s.documents| <= |s'.documents| && s.reported <= s'.reported
    ensures RowDone(s', t, upd)
  {
  }

  lemma TakenStays(s: State, s': State, row: Task, row': Task)
    requires s.tasks <= s'.tasks && s'.documents == s.documents && SameIdentity(row, row') &&
             !InsertOutcome(s, row).Row?
    ensures !InsertOutcome(s', row').Row?
  {
    if i :| 0 <= i < |s.tasks| && SameSlot(s.tasks[i], row) {
      assert SameSlot(s'.tasks[i], row');
    }
  }

  lemma FoundStays(s: State, s': State, t: nat, p: Payload)
    requires t < |s.tasks| && FoundDone(s, t, p) && s.tasks <= s'.tasks && s'.documents == s.documents &&
             s'.held == s.held
    ensures FoundDone(s', t, p)
  {
    hide InsertOutcome, ArtifactRow, FoundIn;
    var found := FoundIn(s.tasks[t].moduleName, p);
    if found.Some? {
      RegisteredBy(s, s', s.tasks[t].document, found.value);
      if found.value.Markdown? {
        TakenStays(s, s', EnsureRow(s, s.tasks[t].document, Anonymize, found.value.path),
                   EnsureRow(s', s.tasks[t].document, Anonymize, found.value.path));
      }
    }
  }

  lemma FoundSettles(s: State, t: nat)
    requires t < |s.tasks| && s.tasks[t].document < |s.documents|
    ensures var task := s.tasks[t];
            var s' := Run(s, FoundOps(t, task.document, FoundIn(task.moduleName, task.payload)));
            t < |s'.tasks| && FoundDone(s', t, task.payload) && s'.tasks[t].document < |s'.documents| &&
            s'.tasks[t] == task.(payload := s'.tasks[t].payload, updatedAt := s'.tasks[t].updatedAt) &&
            s'.tasks[t].updatedAt in {task.updatedAt, s.clock}
  {
    hide Run, InsertOutcome, Registered, FinalPayload, CreateArtifactDocument;
    var task := s.tasks[t];
    var d := task.document;
    match FoundIn(task.moduleName, task.payload)
    case None => RunNone(s);
    case Some(found) =>
      var saved := Saved(s, d, s.documents[d].org, found);
      SavedRows(s, d, s.documents[d].org, found);
      SavedRegisters(s, d, s.documents[d].org, found);
      var s1 := Finalized(saved, t, d, found);
      RunRegister(s, t, d, found);
      RegisteredBy(saved, s1, d, found);
      if found.Markdown? {
        RunAppend(s, [LoadParent(t, d, found)], [EnsureTask(d, Anonymize, found.path)]);
        RunEnsure(s1, d, Anonymize, found.path);
        var s2 := Run(s1, [EnsureTask(d, Anonymize, found.path)]);
        RegisteredBy(s1, s2, d, found);
        EnsuredTaken(s1, s2, d, Anonymize, found.path);
      } else {
        assert [LoadParent(t, d, found)] + [] == [LoadParent(t, d, found)];
      }
  }

  lemma SavedRows(s: State, d: nat, org: nat, found: Found)
    ensures var s' := Saved(s, d, org, found);
            s'.tasks == s.tasks && s'.clock == s.clock && |s.documents| <= |s'.documents|
  {
  }

  lemma EnsuredTaken(s: State, s': State, d: nat, m: Module, path: string)
    requires s' == Run(s, [EnsureTask(d, m, path)])
    ensures !InsertOutcome(s', EnsureRow(s', d, m, path)).Row?
  {
    hide Run, InsertOutcome;
    RunEnsure(s, d, m, path);
    if InsertOutcome(s, EnsureRow(s, d, m, path)).Row? {
      assert InsertedAs(s, s', 0, EnsureRow(s, d, m, path));
      InsertedConflicts(s, s', EnsureRow(s, d, m, path), EnsureRow(s', d, m, path));
    }
  }

  /** What the payload column holds afterwards is as good as what was delivered. */
  lemma SettledFound(s: State, t: nat, upd: StatusUpdate, p: Payload)
    requires t < |s.tasks| && Singleton(s.tasks[t].moduleName) && FoundDone(s, t, p)
    requires upd.payload.Some? ==> upd.payload.value == p
    ensures FoundDone(s, t, Effective(s.tasks[t], upd))
  {
    hide InsertOutcome, ArtifactRow;
  }

  lemma PrerequisiteSettles(s: State, t: nat, upd: StatusUpdate)
    requires Inv(s) && RowDone(s, t, upd) && OpsOk(s, Chain(t, s.tasks[t]))
    requires s.tasks[t].status == Completed && Singleton(s.tasks[t].moduleName) && s.tasks[t].updatedAt == s.clock
    requires upd.payload.Some? ==> upd.payload.value == s.tasks[t].payload
    ensures Done(Run(s, Chain(t, s.tasks[t])), t, upd)
  {
    hide Run, Inv, Chain, FoundDone, AllSettled, FoundIn, FoundOps, Effective, RowDone, OpOk, InsertOutcome;
    RowThere(s, t, upd);
    var task := s.tasks[t];
    var d, ops := task.document, FoundOps(t, task.document, FoundIn(task.moduleName, task.payload));
    ChainIs(t, task);
    assert forall k :: 0 <= k < |ops| ==> ops[k] == Chain(t, task)[k];
    RunAppend(s, ops, [ProgressPending(d)]);
    FoundSettles(s, t);
    RunKeeps(s, ops);
    var s1 := Run(s, ops);
    Sweep(s1, d);
    var s2 := Run(s1, [ProgressPending(d)]);
    FoundStays(s1, s2, t, task.payload);
    assert s2.tasks[t] == s1.tasks[t];
    Grows(s, s1);
    RowDoneLater(s, s2, t, upd);
    SettledFound(s2, t, upd, task.payload);
  }

  lemma Grows(s: State, s': State)
    requires Evolves(s, s')
    ensures |s.documents| <= |s'.documents| && s.reported <= s'.reported
  {
  }

  lemma ResultSettles(s: State, t: nat, upd: StatusUpdate)
    requires Inv(s) && RowDone(s, t, upd) && OpsOk(s, Chain(t, s.tasks[t])) && s.tasks[t].request.Some?
    requires s.tasks[t].status == Completed && !Singleton(s.tasks[t].moduleName)
    requires upd.payload.Some? ==> upd.payload.value == s.tasks[t].payload
    ensures Done(Run(s, Chain(t, s.tasks[t])), t, upd)
  {
    hide Run, Inv, ResolveDone, ExtractDone, RowDone, OpOk, HasRequestTask;
    RowThere(s, t, upd);
    var task := s.tasks[t];
    var s' := Run(s, Chain(t, task));
    RequestThere(s, t);
    if task.moduleName == ResolveKeys {
      ResolveSettles(s, task.request.value, task.payload);
    } else {
      ExtractSettles(s, task.request.value, task.payload);
    }
    assert s'.tasks[t] == task;
    RunKeeps(s, Chain(t, task));
    Grows(s, s');
    RowDoneLater(s, s', t, upd);
  }

  lemma RequestThere(s: State, t: nat)
    requires Inv(s) && t < |s.tasks| && s.tasks[t].request.Some?
    ensures s.tasks[t].request.value < |s.requests| &&
            HasRequestTask(s, s.tasks[t].request.value, s.tasks[t].moduleName)
  {
    assert TaskOk(s, s.tasks[t]);
  }

  lemma FailureSettles(s: State, t: nat, upd: StatusUpdate)
    requires RowDone(s, t, upd) && s.tasks[t].status == Failed
    requires upd.payload.Some? ==> upd.payload.value == s.tasks[t].payload
    ensures Done(Run(s, Chain(t, s.tasks[t])), t, upd)
  {
    hide Run, RowDone;
    RowThere(s, t, upd);
    var task := s.tasks[t];
    var s' := Run(s, Chain(t, task));
    RunNone(s);
    if Singleton(task.moduleName) {
      FailPendingSettles(s, task.document, task.moduleName);
    } else if task.request.Some? {
      FailSticks(s, task.request.value, FailureText(task));
    }
    RowDoneLater(s, s', t, upd);
  }

  lemma FailPendingSettles(s: State, d: nat, m: Module)
    ensures var s' := Run(s, [FailPending(d, m)]); s' == s.(requests := s'.requests) && NoneInFlight(s', d)
  {
    hide Run;
    var ids := ListPendingRequests(s.requests, d);
    RunOne(s, FailPending(d, m));
    RunFailAll(s, ids, m);
  }

  lemma QuietSettles(s: State, t: nat, upd: StatusUpdate)
    requires RowDone(s, t, upd) && (Live(s.tasks[t]) || (s.tasks[t].request.None? && !Singleton(s.tasks[t].moduleName)))
    requires s.tasks[t].status != Failed && (upd.payload.Some? ==> upd.payload.value == s.tasks[t].payload)
    ensures Done(Run(s, Chain(t, s.tasks[t])), t, upd)
  {
    hide Run;
    assert Chain(t, s.tasks[t]) == [];
    RunNone(s);
  }

  lemma Settles(s: State, t: nat, upd: StatusUpdate)
    requires Inv(s) && t < |s.tasks|
    ensures Done(Run(s, [Callback(t, upd)]), t, upd)
  {
    hide Run, Inv, After, Next, Chain, RowDone, StageDone, OpsOk;
    FirstRow(s, t, upd);
    var s1 := After(s, Callback(t, upd));
    var task := s1.tasks[t];
    RunOne(s, Callback(t, upd));
    if task.status == Failed {
      FailureSettles(s1, t, upd);
    } else if task.status == Completed && Singleton(task.moduleName) {
      PrerequisiteSettles(s1, t, upd);
    } else if task.status == Completed && task.request.Some? {
      ResultSettles(s1, t, upd);
    } else {
      QuietSettles(s1, t, upd);
    }
  }

  lemma DoneLater(s: State, t: nat, upd: StatusUpdate, d: nat)
    requires Done(s, t, upd)
    ensures Done(s.(clock := s.clock + d), t, upd)
  {
    hide RowDone;
    var s' := s.(clock := s.clock + d);
    RowThere(s, t, upd);
    RowDoneLater(s, s', t, upd);
    StageLater(s, s', t, Effective(s.tasks[t], upd));
  }

  lemma StageLater(s: State, s': State, t: nat, p: Payload)
    requires t < |s.tasks| && StageDone(s, t, p) && s' == s.(clock := s'.clock)
    ensures StageDone(s', t, p)
  {
    hide FoundDone, AllSettled, ResolveDone, ExtractDone;
    var task := s.tasks[t];
    if task.status == Completed {
      if Singleton(task.moduleName) {
        FoundStays(s, s', t, p);
        SettledLater(s, s', task.document);
      } else if task.request.Some? {
        if task.moduleName == ResolveKeys {
          ResolveLater(s, s', task.request.value, p);
        } else {
          StampedExtract(s, s', task.request.value, p);
        }
      }
    }
  }

  lemma SettledLater(s: State, s': State, d: nat)
    requires s' == s.(clock := s'.clock) && AllSettled(s, d)
    ensures AllSettled(s', d)
  {
    hide Settled;
    forall id | 0 <= id < |s'.requests| && s'.requests[id].document == d && InFlight(s'.requests[id])
      ensures d < |s'.documents| && Settled(s', id)
    {
      assert Settled(s, id);
      SettledAnyTime(s, s', id);
    }
  }

  lemma SettledAnyTime(s: State, s': State, id: nat)
    requires s' == s.(clock := s'.clock) && id < |s.requests| && s.requests[id].document < |s.documents| &&
             Settled(s, id)
    ensures Settled(s', id)
  {
    hide ArtifactPath, HasArtifact;
  }

  lemma ResolveLater(s: State, s': State, r: nat, p: Payload)
    requires s' == s.(clock := s'.clock) && ResolveDone(s, r, p)
    ensures ResolveDone(s', r, p)
  {
    hide InsertOutcome, ArtifactPath, UpsertAll;
    if r < |s.requests| && s.requests[r].document < |s.documents| && TargetPath(s, s.requests[r]).Some? {
      var path := TargetPath(s, s.requests[r]).value;
      SameOutcome(s, s', RequestRow(s, r, s.requests[r], Extract, path),
        RequestRow(s', r, s.requests[r], Extract, path));
    }
  }

  /** A callback of any module with any status and payload, delivered again any
      time later with nothing in between: tasks, artifacts, requests, keys and
      extracted values stay as they are, nothing is published, and only the
      updated_at of its own row moves - whatever the publisher did the first
      time and although the payload column may have been rewritten since. */
  lemma Redelivery(s: State, t: nat, upd: StatusUpdate, d: nat)
    requires Inv(s)
    ensures var once := Run(s, [Callback(t, upd)]);
            var later := once.(clock := once.clock + d);
            var twice := Run(later, [Callback(t, upd)]);
            if t < |s.tasks|
            then t < |once.tasks| && twice == later.(tasks := once.tasks[t := once.tasks[t].(updatedAt := later.clock)])
            else twice == later
  {
    hide Run, Inv, Done, Evolves;
    var once := Run(s, [Callback(t, upd)]);
    var later := once.(clock := once.clock + d);
    if t < |s.tasks| {
      Settles(s, t, upd);
      EventOk(s, Callback(t, upd), 0, Attempts);
      RunKeeps(s, [Callback(t, upd)]);
      TickKeeps(once, d);
      DoneLater(once, t, upd, d);
      Again(later, t, upd);
      assert t < |later.tasks| by { DoneThere(later, t, upd); }
    } else {
      UnknownTask(s, t, upd);
      UnknownTask(later, t, upd);
    }
  }

  lemma DoneThere(s: State, t: nat, upd: StatusUpdate)
    requires Done(s, t, upd)
    ensures t < |s.tasks|
  {
  }

  lemma UnknownTask(s: State, t: nat, upd: StatusUpdate)
    requires t >= |s.tasks|
    ensures Run(s, [Callback(t, upd)]) == s
  {
    hide Run;
    RunLast(s, Callback(t, upd));
  }
}
