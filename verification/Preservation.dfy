/** Every operation, executed at any moment, keeps the invariant and leaves
    behind operations whose assumptions hold. */
module Preservation {
  import opened Model
  import opened Statements
  import opened Machine
  import opened Invariants

  // ---- artifacts

  lemma {:induction false} ListedByParent(documents: seq<Document>, parent: nat, org: nat, d: Document)
    ensures d in ListDocumentsByParent(documents, parent, org) <==>
            d in documents && d.parent == Some(parent) && d.org == org
  {
    if documents != [] {
      var n := |documents| - 1;
      ListedByParent(documents[..n], parent, org, d);
      assert documents == documents[..n] + [documents[n]];
    }
  }

  lemma {:induction false} FoundArtifact(docs: seq<Document>, kind: Kind)
    ensures FindArtifact(docs, kind).Some? ==>
            FindArtifact(docs, kind).value in docs && FindArtifact(docs, kind).value.kind == Some(kind)
    ensures FindArtifact(docs, kind).None? ==> forall d :: d in docs ==> d.kind != Some(kind)
  {
    if docs != [] {
      FoundArtifact(docs[1..], kind);
      assert docs == [docs[0]] + docs[1..];
    }
  }

  /** The artifact a service finds is the one row (parent, kind). */
  lemma ArtifactPathIs(s: State, parent: nat, kind: Kind)
    requires DocumentsOk(s) && parent < |s.documents|
    ensures var p := ArtifactPath(s.documents, parent, s.documents[parent].org, kind);
            (p.Some? <==> HasArtifact(s.documents, parent, kind)) &&
            (p.Some? ==> Held(parent, Some(kind), p.value) in s.held && Held(parent, Some(kind), p.value) in s.reported)
    ensures forall i ::
              0 <= i < |s.documents| && s.documents[i].parent == Some(parent) && s.documents[i].kind == Some(kind) ==>
              ArtifactPath(s.documents, parent, s.documents[parent].org, kind) == Some(s.documents[i].path)
  {
    var org := s.documents[parent].org;
    var listed := ListDocumentsByParent(s.documents, parent, org);
    FoundArtifact(listed, kind);
    var found := FindArtifact(listed, kind);
    if found.Some? {
      ListedByParent(s.documents, parent, org, found.value);
      var i :| 0 <= i < |s.documents| && s.documents[i] == found.value;
      assert DocumentOk(s, i, s.documents[i]);
    }
    forall i | 0 <= i < |s.documents| && s.documents[i].parent == Some(parent) && s.documents[i].kind == Some(kind)
      ensures found == Some(s.documents[i])
    {
      assert DocumentOk(s, i, s.documents[i]);
      ListedByParent(s.documents, parent, org, s.documents[i]);
      var j :| 0 <= j < |s.documents| && s.documents[j] == found.value;
      assert i == j || SameArtifact(s.documents[i], s.documents[j]);
    }
  }

  // ---- what a step leaves alone

  /** Rows of the document table keep their place. */
  ghost predicate DocumentsExtend(s: State, s': State) {
    |s.documents| <= |s'.documents| && s.held <= s'.held && s.reported <= s'.reported && s.stored <= s'.stored &&
    forall i :: 0 <= i < |s.documents| ==>
      s.documents[i].org == s'.documents[i].org && s.documents[i].parent == s'.documents[i].parent &&
      s.documents[i].kind == s'.documents[i].kind
  }

  ghost predicate KeysExtend(s: State, s': State) {
    |s.keys| <= |s'.keys| && forall i :: 0 <= i < |s.keys| ==> SameKey(s.keys[i], s'.keys[i])
  }

  ghost predicate SameRows(s: State, s': State) {
    s'.tasks == s.tasks && s'.requests == s.requests && s'.clock == s.clock && s'.config == s.config
  }

  lemma TasksKeep(s: State, s': State)
    requires Inv(s) && DocumentsExtend(s, s') && SameRows(s, s')
    ensures forall i :: 0 <= i < |s'.tasks| ==> TaskOk(s', s'.tasks[i])
    ensures forall i :: 0 <= i < |s'.requests| ==> RequestOk(s', i, s'.requests[i])
  {
    forall i | 0 <= i < |s.tasks| ensures TaskOk(s', s'.tasks[i]) {
      assert TaskOk(s, s.tasks[i]);
    }
    RequestRowsKeep(s, s');
  }

  lemma RequestRowsKeep(s: State, s': State)
    requires Inv(s) && DocumentsExtend(s, s') && SameRows(s, s')
    ensures forall i :: 0 <= i < |s'.requests| ==> RequestOk(s', i, s'.requests[i])
  {
    hide HasRequestTask, TaskOk;
    SameTasksSameLookups(s, s');
    forall i | 0 <= i < |s.requests| ensures RequestOk(s', i, s'.requests[i]) {
      assert RequestOk(s, i, s.requests[i]);
    }
  }

  lemma SameTasksSameLookups(s: State, s': State)
    requires s.tasks == s'.tasks
    ensures forall id: nat, m :: HasRequestTask(s', id, m) <==> HasRequestTask(s, id, m)
  {
  }

  lemma CellsKeep(s: State, s': State)
    requires Inv(s) && DocumentsExtend(s, s') && KeysExtend(s, s')
    ensures forall c :: c in s.extracted ==> CellOk(s', c)
  {
    forall c | c in s.extracted ensures CellOk(s', c) {
      assert CellOk(s, c);
    }
  }

  lemma LogKeeps(s: State, s': State)
    requires Inv(s) && |s.tasks| <= |s'.tasks| && forall i :: 0 <= i < |s.tasks| ==>
             SameIdentity(s.tasks[i], s'.tasks[i])
    requires |s.requests| <= |s'.requests| && forall i :: 0 <= i < |s.requests| ==>
             SameRequest(s.requests[i], s'.requests[i])
    requires s.stored <= s'.stored
    ensures forall i :: 0 <= i < |s.log| ==> MessageOk(s', s.log[i].msg)
  {
    forall i | 0 <= i < |s.log| ensures MessageOk(s', s.log[i].msg) {
      assert MessageOk(s, s.log[i].msg);
      assert SameIdentity(s.tasks[s.log[i].msg.task], s'.tasks[s.log[i].msg.task]);
    }
  }

  lemma SameDocumentsOk(s: State, s': State)
    requires DocumentsOk(s) && s'.documents == s.documents && s'.held == s.held && s.reported <= s'.reported
    ensures DocumentsOk(s')
  {
    assert forall i :: 0 <= i < |s.documents| ==> DocumentOk(s, i, s.documents[i]);
  }

  // ---- statements on documents

  lemma DocumentsStepKeeps(s: State, s': State)
    requires Inv(s) && s' == s.(documents := s'.documents, held := s'.held) && DocumentsExtend(s, s') && DocumentsOk(s')
    ensures Kept(s, s')
  {
    TasksKeep(s, s');
    CellsKeep(s, s');
    LogKeeps(s, s');
  }

  lemma ArtifactsStay(s: State, s': State)
    requires DocumentsOk(s) && DocumentsExtend(s, s')
    ensures forall h :: h in s.held && h.role.Some? ==> HasArtifact(s'.documents, h.document, h.role.value)
  {
    forall h | h in s.held && h.role.Some? ensures HasArtifact(s'.documents, h.document, h.role.value) {
      var i :| 0 <= i < |s.documents| && s.documents[i].parent == Some(h.document) && s.documents[i].kind == h.role;
      assert s'.documents[i].parent == Some(h.document) && s'.documents[i].kind == h.role;
    }
  }

  lemma UploadKeeps(s: State, org: nat, path: string)
    requires Inv(s)
    ensures Kept(s, After(s, Upload(org, path)))
  {
    hide Inv, DocumentsOk, DocumentsExtend, Evolves;
    UploadDocumentsOk(s, org, path);
    DocumentsStepKeeps(s, CreateDocument(s, org, path));
  }

  lemma UploadDocumentsOk(s: State, org: nat, path: string)
    requires Inv(s)
    ensures var s' := CreateDocument(s, org, path); DocumentsOk(s') && DocumentsExtend(s, s')
  {
    var s' := CreateDocument(s, org, path);
    ArtifactsStay(s, s');
    forall i | 0 <= i < |s'.documents| ensures DocumentOk(s', i, s'.documents[i]) {
      if i < |s.documents| { assert DocumentOk(s, i, s.documents[i]); }
    }
  }

  lemma SavedDocumentsOk(s: State, org: nat, d: nat, kind: Kind, path: string)
    requires DocumentsOk(s) && d < |s.documents| && s.documents[d].org == org && Held(d, Some(kind), path) in s.reported
    ensures var s' := CreateArtifactDocument(s, org, d, kind, path); DocumentsOk(s') && DocumentsExtend(s, s')
  {
    hide CreateArtifactDocument, DocumentOk, SameArtifact, HasArtifact;
    SavedRowsOk(s, org, d, kind, path);
    SavedHeldOk(s, org, d, kind, path);
    SavedUnique(s, org, d, kind, path);
  }

  lemma SavedExtends(s: State, org: nat, d: nat, kind: Kind, path: string)
    ensures DocumentsExtend(s, CreateArtifactDocument(s, org, d, kind, path))
  {
  }

  lemma SavedRowsOk(s: State, org: nat, d: nat, kind: Kind, path: string)
    requires DocumentsOk(s) && d < |s.documents| && s.documents[d].org == org && Held(d, Some(kind), path) in s.reported
    ensures var s' := CreateArtifactDocument(s, org, d, kind, path);
            forall i :: 0 <= i < |s'.documents| ==> DocumentOk(s', i, s'.documents[i])
  {
    hide HasArtifact, SameArtifact;
    var s' := CreateArtifactDocument(s, org, d, kind, path);
    forall i | 0 <= i < |s'.documents| ensures DocumentOk(s', i, s'.documents[i]) {
      if i < |s.documents| { assert DocumentOk(s, i, s.documents[i]); }
    }
  }

  lemma SavedHeldOk(s: State, org: nat, d: nat, kind: Kind, path: string)
    requires DocumentsOk(s)
    ensures var s' := CreateArtifactDocument(s, org, d, kind, path);
            DocumentsExtend(s, s') &&
            forall h :: h in s'.held && h.role.Some? ==> HasArtifact(s'.documents, h.document, h.role.value)
  {
    hide DocumentOk, SameArtifact, DocumentsExtend, DocumentsOk;
    var s' := CreateArtifactDocument(s, org, d, kind, path);
    var row := ArtifactRow(s.documents, d, kind);
    SavedExtends(s, org, d, kind, path);
    ArtifactsStay(s, s');
    assert s'.documents[row].parent == Some(d) && s'.documents[row].kind == Some(kind);
    assert HasArtifact(s'.documents, d, kind);
  }

  lemma SavedUnique(s: State, org: nat, d: nat, kind: Kind, path: string)
    requires DocumentsOk(s)
    ensures var documents := CreateArtifactDocument(s, org, d, kind, path).documents;
            forall i, j :: 0 <= i < j < |documents| ==> !SameArtifact(documents[i], documents[j])
  {
    hide DocumentOk;
    var documents := CreateArtifactDocument(s, org, d, kind, path).documents;
    forall i, j | 0 <= i < j < |documents| ensures !SameArtifact(documents[i], documents[j]) {
      assert j < |s.documents| ==> !SameArtifact(s.documents[i], s.documents[j]);
    }
  }

  lemma SaveArtifactKeeps(s: State, op: Op)
    requires Inv(s) && OpOk(s, op) && op.SaveArtifact?
    ensures Kept(s, After(s, op))
  {
    SavedDocumentsOk(s, op.org, op.document, op.kind, op.path);
    DocumentsStepKeeps(s, After(s, op));
  }

  // ---- statements on document_tasks

  /** A row that the code may insert. */
  ghost predicate Insertable(s: State, t: Task) {
    t.updatedAt == s.clock && t.retries == 0 && t.payload == EMPTY_PAYLOAD &&
    (Singleton(t.moduleName) <==> t.request.None?) &&
    (t.request.Some? ==> t.request.value < |s.requests| && s.requests[t.request.value].document == t.document) &&
    InputOk(s, t) &&
    (t.moduleName == Extract ==>
      s.requests[t.request.value].schema != [] && HasRequestTask(s, t.request.value, ResolveKeys))
  }

  lemma InsertKeeps(s: State, t: Task)
    requires Inv(s) && Insertable(s, t)
    ensures Kept(s, InsertTask(s, t))
  {
    if InsertOutcome(s, t).Row? {
      var s' := InsertTask(s, t);
      InsertedRows(s, t);
      InsertedRequests(s, t);
      CellsKeep(s, s');
      LogKeeps(s, s');
      SameDocumentsOk(s, s');
    }
  }

  lemma InsertedRows(s: State, t: Task)
    requires Inv(s) && Insertable(s, t) && InsertOutcome(s, t).Row?
    ensures var s' := InsertTask(s, t); SlotsUnique(s') && forall i :: 0 <= i < |s'.tasks| ==> TaskOk(s', s'.tasks[i])
  {
    var s' := InsertTask(s, t);
    forall i | 0 <= i < |s'.tasks| ensures TaskOk(s', s'.tasks[i]) {
      if i < |s.tasks| { assert TaskOk(s, s.tasks[i]); }
    }
    forall i, j | 0 <= i < j < |s'.tasks| ensures !SameSlot(s'.tasks[i], s'.tasks[j]) {
      assert j < |s.tasks| ==> !SameSlot(s.tasks[i], s.tasks[j]);
    }
  }

  lemma InsertedRequests(s: State, t: Task)
    requires Inv(s) && Insertable(s, t) && InsertOutcome(s, t).Row?
    ensures var s' := InsertTask(s, t); forall i :: 0 <= i < |s'.requests| ==> RequestOk(s', i, s'.requests[i])
  {
    hide HasRequestTask, TaskOk;
    var s' := InsertTask(s, t);
    InsertedLookups(s, t);
    forall i | 0 <= i < |s.requests| ensures RequestOk(s', i, s'.requests[i]) {
      assert RequestOk(s, i, s.requests[i]);
    }
  }

  lemma InsertedLookups(s: State, t: Task)
    requires InsertOutcome(s, t).Row?
    ensures forall id: nat, m :: HasRequestTask(InsertTask(s, t), id, m) <==>
              HasRequestTask(s, id, m) || (t.request == Some(id) && t.moduleName == m)
    ensures forall d: nat, m :: HasSingleton(InsertTask(s, t), d, m) <==>
              HasSingleton(s, d, m) || (t.request.None? && t.document == d && t.moduleName == m)
  {
    var s' := InsertTask(s, t);
    var n := |s.tasks|;
    assert s'.tasks[n] == t && forall i :: 0 <= i < n ==> s'.tasks[i] == s.tasks[i];
    forall id: nat, m | HasRequestTask(s, id, m) ensures HasRequestTask(s', id, m) {
      var i :| 0 <= i < n && s.tasks[i].request == Some(id) && s.tasks[i].moduleName == m;
      assert s'.tasks[i] == s.tasks[i];
    }
    forall d: nat, m | HasSingleton(s, d, m) ensures HasSingleton(s', d, m) {
      var i :| 0 <= i < n && s.tasks[i].document == d && s.tasks[i].moduleName == m && s.tasks[i].request.None?;
      assert s'.tasks[i] == s.tasks[i];
    }
  }

  /** An update of one row: same identity, a payload that is accounted for and
      at most one more retry than before. */
  lemma TouchKeeps(s: State, s': State, i: nat, t: Task)
    requires Inv(s) && i < |s.tasks| && SameIdentity(s.tasks[i], t) && t.retries <= s.config.maxRetries
    requires s' == UpdateTask(s, i, t).(reported := s'.reported) && s.reported <= s'.reported && PayloadOk(s', t)
    ensures Kept(s, s')
  {
    TouchedRows(s, s', i, t);
    TouchedLookups(s, s');
    forall j | 0 <= j < |s.requests| ensures RequestOk(s', j, s'.requests[j]) {
      assert RequestOk(s, j, s.requests[j]);
    }
    CellsKeep(s, s');
    LogKeeps(s, s');
    SameDocumentsOk(s, s');
  }

  lemma TouchedRows(s: State, s': State, i: nat, t: Task)
    requires Inv(s) && i < |s.tasks| && SameIdentity(s.tasks[i], t) && t.retries <= s.config.maxRetries
    requires s' == UpdateTask(s, i, t).(reported := s'.reported) && s.reported <= s'.reported && PayloadOk(s', t)
    ensures SlotsUnique(s') && forall j :: 0 <= j < |s'.tasks| ==> TaskOk(s', s'.tasks[j])
  {
    forall j | 0 <= j < |s'.tasks| ensures TaskOk(s', s'.tasks[j]) {
      assert TaskOk(s, s.tasks[j]);
    }
    forall j, k | 0 <= j < k < |s'.tasks| ensures !SameSlot(s'.tasks[j], s'.tasks[k]) {
      assert !SameSlot(s.tasks[j], s.tasks[k]);
    }
  }

  lemma TouchedLookups(s: State, s': State)
    requires |s.tasks| == |s'.tasks| && forall i :: 0 <= i < |s.tasks| ==> SameIdentity(s.tasks[i], s'.tasks[i])
    ensures forall id: nat, m :: HasRequestTask(s', id, m) <==> HasRequestTask(s, id, m)
    ensures forall d: nat, m :: HasSingleton(s', d, m) <==> HasSingleton(s, d, m)
  {
    forall id: nat, m ensures HasRequestTask(s', id, m) <==> HasRequestTask(s, id, m) {
      if HasRequestTask(s, id, m) {
        var i :| 0 <= i < |s.tasks| && s.tasks[i].request == Some(id) && s.tasks[i].moduleName == m;
        assert SameIdentity(s.tasks[i], s'.tasks[i]);
      }
      if HasRequestTask(s', id, m) {
        var i :| 0 <= i < |s'.tasks| && s'.tasks[i].request == Some(id) && s'.tasks[i].moduleName == m;
        assert SameIdentity(s.tasks[i], s'.tasks[i]);
      }
    }
    forall d: nat, m ensures HasSingleton(s', d, m) <==> HasSingleton(s, d, m) {
      if HasSingleton(s, d, m) {
        var i :| 0 <= i < |s.tasks| && s.tasks[i].document == d && s.tasks[i].moduleName == m &&
          s.tasks[i].request.None?;
        assert SameIdentity(s.tasks[i], s'.tasks[i]);
      }
      if HasSingleton(s', d, m) {
        var i :| 0 <= i < |s'.tasks| && s'.tasks[i].document == d && s'.tasks[i].moduleName == m &&
          s'.tasks[i].request.None?;
        assert SameIdentity(s.tasks[i], s'.tasks[i]);
      }
    }
  }

  lemma CallbackKeeps(s: State, t: nat, upd: StatusUpdate)
    requires Inv(s)
    ensures Kept(s, After(s, Callback(t, upd)))
  {
    if t < |s.tasks| {
      assert TaskOk(s, s.tasks[t]);
      TouchKeeps(s, After(s, Callback(t, upd)), t, WorkerRow(s.tasks[t], upd));
    }
  }

  lemma GiveUpKeeps(s: State, i: nat, cutoff: int, error: ErrorText)
    requires Inv(s)
    ensures Kept(s, MarkStaleTaskFailed(s, i, cutoff, error))
  {
    if Claimable(s, i, cutoff) {
      assert TaskOk(s, s.tasks[i]);
      TouchKeeps(s, MarkStaleTaskFailed(s, i, cutoff, error), i, s.tasks[i].(status := Failed, error := Some(error)));
    }
  }

  lemma RequeueKeeps(s: State, i: nat, cutoff: int)
    requires Inv(s) && cutoff + s.config.threshold <= s.clock
    requires Claimable(s, i, cutoff) ==> s.tasks[i].retries < s.config.maxRetries
    ensures Kept(s, MarkStaleTaskPending(s, i, cutoff))
  {
    if Claimable(s, i, cutoff) {
      assert TaskOk(s, s.tasks[i]);
      var t := s.tasks[i].(status := Pending, retries := s.tasks[i].retries + 1, celeryId := None, error := None);
      var touched := UpdateTask(s, i, t);
      TouchKeeps(s, touched, i, t);
      ClaimsKept(s, cutoff, i);
      RestKeeps(touched, MarkStaleTaskPending(s, i, cutoff));
    }
  }

  /** A won claim means the listed row is unchanged, so the retry guard read from
      the snapshot still speaks about the row. */
  lemma ClaimKeeps(s: State, cutoff: int, row: StaleRow)
    requires Inv(s) && OpOk(s, WatchdogClaim(cutoff, row))
    ensures Kept(s, After(s, WatchdogClaim(cutoff, row)))
  {
    if row.retries >= s.config.maxRetries {
      GiveUpKeeps(s, row.id, cutoff, StaleTask(row.retries, s.config.maxRetries));
    } else {
      RequeueKeeps(s, row.id, cutoff);
    }
  }

  lemma ClaimsKept(s: State, cutoff: int, i: nat)
    requires Inv(s) && Claimable(s, i, cutoff) && cutoff + s.config.threshold <= s.clock
    ensures ClaimsOk(MarkStaleTaskPending(s, i, cutoff))
  {
    var s' := MarkStaleTaskPending(s, i, cutoff);
    forall j | 0 <= j < |s'.tasks| ensures s.tasks[j].updatedAt <= s'.tasks[j].updatedAt {
      assert TaskOk(s, s.tasks[j]);
    }
  }

  /** A step on keys, data or the histories only. */
  lemma RestKeeps(s: State, s': State)
    requires Inv(s) && s' == s.(keys := s'.keys, extracted := s'.extracted, log := s'.log, claims := s'.claims)
    requires KeysExtend(s, s') && KeysUnique(s'.keys) && s.log <= s'.log && s.claims <= s'.claims && ClaimsOk(s')
    requires forall c :: c in s'.extracted ==> c in s.extracted || CellOk(s', c)
    requires forall i :: |s.log| <= i < |s'.log| ==> MessageOk(s', s'.log[i].msg)
    ensures Kept(s, s')
  {
    TasksKeep(s, s');
    CellsKeep(s, s');
    LogKeeps(s, s');
    SameDocumentsOk(s, s');
  }

  // ---- statements on extraction_requests

  lemma RequestsKeep(s: State, s': State)
    requires Inv(s) && s' == s.(requests := s'.requests, stored := s'.stored) && s.stored <= s'.stored
    requires |s.requests| <= |s'.requests|
    requires forall i :: 0 <= i < |s.requests| ==> RequestEvolves(s.requests[i], s'.requests[i])
    requires forall i :: 0 <= i < |s'.requests| ==> RequestOk(s', i, s'.requests[i])
    ensures Kept(s, s')
  {
    forall i | 0 <= i < |s.tasks| ensures TaskOk(s', s'.tasks[i]) {
      assert TaskOk(s, s.tasks[i]);
    }
    CellsKeep(s, s');
    LogKeeps(s, s');
    SameDocumentsOk(s, s');
  }

  lemma CreateRequestKeeps(s: State, d: nat, org: nat, questions: seq<string>, anonymize: bool)
    requires Inv(s) && OpOk(s, CreateRequest(d, org, questions, anonymize))
    ensures var s' := After(s, CreateRequest(d, org, questions, anonymize));
            Kept(s, s') && !HasRequestTask(s', |s.requests|, Extract)
  {
    var s' := After(s, CreateRequest(d, org, questions, anonymize));
    SameTasksSameLookups(s, s');
    assert forall i :: 0 <= i < |s.tasks| ==> TaskOk(s, s.tasks[i]);
    forall i | 0 <= i < |s'.requests| ensures RequestOk(s', i, s'.requests[i]) {
      if i < |s.requests| { assert RequestOk(s, i, s.requests[i]); }
    }
    RequestsKeep(s, s');
  }

  lemma StatusRows(s: State, id: nat, status: RequestStatus, error: Option<ErrorText>)
    requires Inv(s) && OpOk(s, SetRequestStatus(id, status, error))
    ensures var s' := SetExtractionRequestStatus(s, id, status, error);
            forall i :: 0 <= i < |s'.requests| ==> RequestOk(s', i, s'.requests[i])
  {
    hide HasRequestTask, TaskOk;
    var s' := SetExtractionRequestStatus(s, id, status, error);
    SameTasksSameLookups(s, s');
    forall i | 0 <= i < |s.requests| ensures RequestOk(s', i, s'.requests[i]) {
      assert RequestOk(s, i, s.requests[i]);
    }
  }

  lemma SetStatusKeeps(s: State, id: nat, status: RequestStatus, error: Option<ErrorText>)
    requires Inv(s) && OpOk(s, SetRequestStatus(id, status, error))
    ensures var s' := After(s, SetRequestStatus(id, status, error)); Kept(s, s')
  {
    hide Inv, Kept, RequestOk;
    StatusRows(s, id, status, error);
    RequestsKeep(s, After(s, SetRequestStatus(id, status, error)));
  }

  lemma SchemaRows(s: State, id: nat, req: Request, schema: seq<SchemaEntry>)
    requires Inv(s) && OpOk(s, SetSchema(id, req, schema))
    ensures var s' := SetExtractionRequestResolvedSchema(s, id, schema);
            forall i :: 0 <= i < |s'.requests| ==> RequestOk(s', i, s'.requests[i])
  {
    hide HasRequestTask, TaskOk;
    var s' := SetExtractionRequestResolvedSchema(s, id, schema);
    SameTasksSameLookups(s, s');
    forall i | 0 <= i < |s.requests| ensures RequestOk(s', i, s'.requests[i]) {
      assert RequestOk(s, i, s.requests[i]);
    }
  }

  lemma SetSchemaKeeps(s: State, id: nat, req: Request, schema: seq<SchemaEntry>)
    requires Inv(s) && OpOk(s, SetSchema(id, req, schema))
    ensures var s' := After(s, SetSchema(id, req, schema)); Kept(s, s')
  {
    hide Inv, Kept, RequestOk;
    SchemaRows(s, id, req, schema);
    RequestsKeep(s, After(s, SetSchema(id, req, schema)));
  }

  // ---- statements on keys and data

  lemma UpsertKeyUnique(keys: seq<Key>, org: nat, k: NewKey)
    requires KeysUnique(keys)
    ensures KeysUnique(UpsertKey(keys, org, k)) && |keys| <= |UpsertKey(keys, org, k)|
    ensures forall i :: 0 <= i < |keys| ==> SameKey(keys[i], UpsertKey(keys, org, k)[i])
  {
    var keys' := UpsertKey(keys, org, k);
    forall i, j | 0 <= i < j < |keys'| ensures !SameKey(keys'[i], keys'[j]) {
      assert j < |keys| ==> !SameKey(keys[i], keys[j]);
    }
  }

  lemma SaveDataKeeps(s: State, org: nat, d: nat, values: map<nat, string>)
    requires Inv(s) && OpOk(s, SaveData(org, d, values))
    ensures var s' := After(s, SaveData(org, d, values)); Kept(s, s')
  {
    hide Inv, Kept;
    KeysAndClaimsOk(s);
    SavedCellsOk(s, org, d, values);
    RestKeeps(s, After(s, SaveData(org, d, values)));
  }

  lemma KeysAndClaimsOk(s: State)
    requires Inv(s)
    ensures KeysUnique(s.keys) && ClaimsOk(s)
  {
  }

  lemma SavedCellsOk(s: State, org: nat, d: nat, values: map<nat, string>)
    requires OpOk(s, SaveData(org, d, values)) && ClaimsOk(s)
    ensures var s' := After(s, SaveData(org, d, values));
            ClaimsOk(s') && forall c :: c in s'.extracted ==> c in s.extracted || CellOk(s', c)
  {
    var s' := After(s, SaveData(org, d, values));
    forall c | c in s'.extracted && c !in s.extracted ensures CellOk(s', c) {
      assert CellOk(s, Cell(org, d, c.key));
    }
  }

  // ---- every operation

  lemma InsertOpKeeps(s: State, op: Op)
    requires Inv(s) && OpOk(s, op) && (op.ResolveInsert? || op.EnsureTask? || op.ExtractInsert?)
    ensures Kept(s, After(s, op))
  {
    hide Inv, Kept;
    match op
    case ResolveInsert(id, req, path, _) => InsertKeeps(s, RequestRow(s, id, req, ResolveKeys, path));
    case EnsureTask(d, m, path) => InsertKeeps(s, EnsureRow(s, d, m, path));
    case ExtractInsert(id, req, path, _) => InsertKeeps(s, RequestRow(s, id, req, Extract, path));
  }

  lemma OwnPathHeld(s: State, d: nat)
    requires Inv(s) && d < |s.documents|
    ensures Held(d, None, s.documents[d].path) in s.held
  {
    assert DocumentOk(s, d, s.documents[d]);
  }

  lemma PublicCreateKeeps(s: State, d: nat, org: nat)
    requires Inv(s)
    ensures Kept(s, After(s, PublicCreate(d, org)))
  {
    hide Inv, Kept;
    if d < |s.documents| && s.documents[d].org == org {
      OwnPathHeld(s, d);
      InsertKeeps(s, PublicRow(s, d));
    } else {
      KeptSelf(s);
    }
  }

  lemma KeptSelf(s: State)
    requires Inv(s)
    ensures Kept(s, s)
  {
  }

  lemma FailTaskKeeps(s: State, i: nat)
    requires Inv(s)
    ensures Kept(s, After(s, FailTask(i)))
  {
    if i < |s.tasks| {
      assert TaskOk(s, s.tasks[i]);
      TouchKeeps(s, After(s, FailTask(i)), i, WorkerRow(s.tasks[i], FAILED_TO_PUBLISH));
    }
  }

  lemma SetPayloadKeeps(s: State, i: nat, p: Payload)
    requires Inv(s) && OpOk(s, SetPayload(i, p))
    ensures Kept(s, After(s, SetPayload(i, p)))
  {
    if i < |s.tasks| {
      assert TaskOk(s, s.tasks[i]);
      TouchKeeps(s, After(s, SetPayload(i, p)), i, s.tasks[i].(payload := p));
    }
  }

  lemma PublicStatusKeeps(s: State, i: nat, org: nat, status: TaskStatus)
    requires Inv(s)
    ensures Kept(s, After(s, PublicStatus(i, org, status)))
  {
    hide Inv, Kept, PayloadOk;
    KeptSelf(s);
    if i < |s.tasks| {
      var t := s.tasks[i].(status := status);
      RowFine(s, i, status);
      TouchKeeps(s, UpdateTask(s, i, t), i, t);
    }
  }

  lemma RowFine(s: State, i: nat, status: TaskStatus)
    requires Inv(s) && i < |s.tasks|
    ensures var t := s.tasks[i].(status := status);
            t.retries <= s.config.maxRetries && PayloadOk(UpdateTask(s, i, t), t)
  {
    assert TaskOk(s, s.tasks[i]);
  }

  lemma PublishKeeps(s: State, op: Op)
    requires Inv(s) && OpOk(s, op) && (op.PublishTask? || op.Republish?)
    ensures Kept(s, After(s, op))
  {
    RestKeeps(s, Publish(s, op.msg));
  }

  lemma UpsertKeyKeeps(s: State, org: nat, k: NewKey)
    requires Inv(s)
    ensures Kept(s, After(s, UpsertNewKey(org, k)))
  {
    UpsertKeyUnique(s.keys, org, k);
    RestKeeps(s, After(s, UpsertNewKey(org, k)));
  }

  predicate Mutates(op: Op) {
    op.CreateRequest? || op.ResolveInsert? || op.EnsureTask? || op.PublishTask? || op.FailTask? ||
    op.SetRequestStatus? ||
    op.Callback? || op.SaveArtifact? || op.SetPayload? || op.UpsertNewKey? || op.SetSchema? || op.ExtractInsert? ||
    op.SaveData? || op.PublicCreate? || op.PublicStatus? || op.Upload? || op.WatchdogClaim? || op.Republish?
  }

  lemma ReadOnly(s: State, op: Op)
    requires !Mutates(op)
    ensures After(s, op) == s
  {
  }

  /** One step keeps the invariant, whenever it happens. */
  lemma AfterKeeps(s: State, op: Op)
    requires Inv(s) && OpOk(s, op)
    ensures Kept(s, After(s, op))
  {
    hide Inv, Kept, After, OpOk;
    if !Mutates(op) {
      ReadOnly(s, op);
      KeptSelf(s);
    } else {
      match op
      case CreateRequest(d, org, questions, anonymize) => CreateRequestKeeps(s, d, org, questions, anonymize);
      case ResolveInsert(_, _, _, _) => InsertOpKeeps(s, op);
      case EnsureTask(_, _, _) => InsertOpKeeps(s, op);
      case ExtractInsert(_, _, _, _) => InsertOpKeeps(s, op);
      case PublishTask(_, _) => PublishKeeps(s, op);
      case FailTask(t) => FailTaskKeeps(s, t);
      case SetRequestStatus(id, status, error) => SetStatusKeeps(s, id, status, error);
      case Callback(t, upd) => CallbackKeeps(s, t, upd);
      case SaveArtifact(_, _, _, _, _, _, _) => SaveArtifactKeeps(s, op);
      case SetPayload(t, p) => SetPayloadKeeps(s, t, p);
      case UpsertNewKey(org, k) => UpsertKeyKeeps(s, org, k);
      case SetSchema(id, req, schema) => SetSchemaKeeps(s, id, req, schema);
      case SaveData(org, d, values) => SaveDataKeeps(s, org, d, values);
      case PublicCreate(d, org) => PublicCreateKeeps(s, d, org);
      case PublicStatus(t, org, status) => PublicStatusKeeps(s, t, org, status);
      case Upload(org, path) => UploadKeeps(s, org, path);
      case WatchdogClaim(cutoff, row) => ClaimKeeps(s, cutoff, row);
      case Republish(_, _) => PublishKeeps(s, op);
    }
  }

  // ---- what the operations left behind rely on

  lemma OwnTaskRow(s: State, task: nat, t: Task)
    requires Inv(s) && TaskOk(s, t) && task < |s.tasks| && SameIdentity(s.tasks[task], t)
    ensures t.request.Some? ==>
              HasRequestTask(s, t.request.value, t.moduleName) && t.request.value < |s.requests|
  {
  }

  lemma ChainOk(s: State, task: nat, t: Task)
    requires Inv(s) && TaskOk(s, t) && task < |s.tasks| && SameIdentity(s.tasks[task], t)
    ensures OpsOk(s, Chain(task, t))
  {
    hide Inv, InputOk, HasRequestTask;
    OwnTaskRow(s, task, t);
    if t.status == Completed {
      match t.moduleName
      case Convert => assert OpsOk(s, ConvertOps(task, t));
      case Anonymize => assert OpsOk(s, AnonymizeOps(task, t));
      case ResolveKeys => assert OpsOk(s, ResolveOps(t.request.value, t.payload));
      case Extract => assert OpsOk(s, ExtractOps(t.request.value, t.payload));
    }
  }

  lemma CallbackNextOk(s: State, op: Op)
    requires Inv(s) && op.Callback?
    ensures OpsOk(After(s, op), Next(s, op))
  {
    if op.task < |s.tasks| {
      var s' := After(s, op);
      CallbackKeeps(s, op.task, op.update);
      assert TaskOk(s', s'.tasks[op.task]);
      ChainOk(s', op.task, WorkerRow(s.tasks[op.task], op.update));
    }
  }

  lemma LastOps(s: State, op: Op)
    requires op.FailTask? || op.SetRequestStatus? || op.SetPayload? || op.UpsertNewKey? || op.SaveData? ||
             op.PublicStatus? || op.Upload?
    ensures Next(s, op) == [] && OpsOk(After(s, op), Next(s, op))
  {
  }

  lemma ProgressNextOk(s: State, op: Op)
    requires Inv(s) && OpOk(s, op)
    requires op.CheckDocument? || op.CreateRequest? || op.ProgressDocument? || op.ResolveListKeys?
    ensures OpsOk(After(s, op), Next(s, op))
  {
    hide Inv;
    if op.ProgressDocument? && op.req.document < |s.documents| { OwnPathHeld(s, op.req.document); }
  }

  lemma DecideOk(s: State, op: Op)
    requires Inv(s) && op.ProgressArtifacts? && OpOk(s, op)
    ensures OpsOk(After(s, op), Next(s, op))
  {
    hide ArtifactPath;
    ArtifactPathIs(s, op.req.document, TargetKind(op.req.anonymize));
    ArtifactPathIs(s, op.req.document, ConvertMd);
  }

  lemma ResolveInsertNextOk(s: State, op: Op)
    requires op.ResolveInsert? && OpOk(s, op)
    ensures OpsOk(After(s, op), Next(s, op))
  {
    var row := RequestRow(s, op.id, op.req, ResolveKeys, op.path);
    if InsertOutcome(s, row).Row? { InsertedLookups(s, row); }
  }

  lemma InsertNextOk(s: State, op: Op)
    requires (op.EnsureTask? || op.PublicCreate?) && OpOk(s, op)
    ensures OpsOk(After(s, op), Next(s, op))
  {
  }

  lemma ExtractInsertNextOk(s: State, op: Op)
    requires op.ExtractInsert? && OpOk(s, op)
    ensures OpsOk(After(s, op), Next(s, op))
  {
  }

  lemma PublishNextOk(s: State, op: Op)
    requires (op.PublishTask? || op.Republish?) && OpOk(s, op)
    ensures OpsOk(After(s, op), Next(s, op))
  {
  }

  lemma ArtifactNextOk(s: State, op: Op)
    requires (op.LoadParent? || op.SaveArtifact?) && OpOk(s, op)
    ensures OpsOk(After(s, op), Next(s, op))
  {
  }

  lemma PendingNextOk(s: State, op: Op)
    requires op.ProgressPending? || op.FailPending?
    ensures OpsOk(After(s, op), Next(s, op))
  {
    var ids := ListPendingRequests(s.requests, op.document);
    assert forall k :: 0 <= k < |ids| ==> ids[k] in ids;
  }

  lemma ResolveLoadNextOk(s: State, op: Op)
    requires op.ResolveLoad? && OpOk(s, op)
    ensures OpsOk(After(s, op), Next(s, op))
  {
  }

  lemma SchemaNextOk(s: State, op: Op)
    requires (op.SetSchema? || op.ExtractDocument?) && OpOk(s, op)
    ensures OpsOk(After(s, op), Next(s, op))
  {
    hide HasRequestTask;
    SameTasksSameLookups(s, After(s, op));
  }

  lemma ExtractArtifactsNextOk(s: State, op: Op)
    requires Inv(s) && op.ExtractArtifacts? && OpOk(s, op)
    ensures OpsOk(After(s, op), Next(s, op))
  {
    hide ArtifactPath;
    ArtifactPathIs(s, op.req.document, TargetKind(op.req.anonymize));
  }

  lemma RequestOfTask(s: State, id: nat, m: Module)
    requires Inv(s) && HasRequestTask(s, id, m)
    ensures id < |s.requests| && s.requests[id].document < |s.documents|
    ensures s.documents[s.requests[id].document].org == s.requests[id].org
  {
    var i :| 0 <= i < |s.tasks| && s.tasks[i].request == Some(id) && s.tasks[i].moduleName == m;
    assert TaskOk(s, s.tasks[i]);
    assert RequestOk(s, id, s.requests[id]);
  }

  lemma ExtractLoadNextOk(s: State, op: Op)
    requires Inv(s) && op.ExtractLoad? && OpOk(s, op)
    ensures OpsOk(After(s, op), Next(s, op))
  {
    hide Inv, HasRequestTask;
    RequestOfTask(s, op.id, Extract);
  }

  lemma ExtractKeysNextOk(s: State, op: Op)
    requires op.ExtractKeys? && OpOk(s, op)
    ensures OpsOk(After(s, op), Next(s, op))
  {
    hide Writes, CellOk;
    WrittenCellsOk(s, op.req, op.data);
  }

  lemma WrittenCellsOk(s: State, req: Request, data: Extracted)
    requires req.document < |s.documents| && s.documents[req.document].org == req.org
    ensures forall k :: k in Writes(s.keys, req.org, data) ==> CellOk(s, Cell(req.org, req.document, k))
  {
  }

  lemma WatchdogNextOk(s: State, op: Op)
    requires (op.WatchdogClock? || op.WatchdogList? || op.WatchdogClaim?) && OpOk(s, op)
    ensures OpsOk(After(s, op), Next(s, op))
  {
  }

  /** What one step leaves behind may rely on the state that it leaves. */
  lemma NextOk(s: State, op: Op)
    requires Inv(s) && OpOk(s, op)
    ensures OpsOk(After(s, op), Next(s, op))
  {
    hide *;
    match op
    case CheckDocument(_, _, _, _) => ProgressNextOk(s, op);
    case CreateRequest(_, _, _, _) => ProgressNextOk(s, op);
    case ProgressDocument(_, _) => ProgressNextOk(s, op);
    case ResolveListKeys(_, _, _, _) => ProgressNextOk(s, op);
    case ProgressArtifacts(_, _, _) => DecideOk(s, op);
    case ResolveInsert(_, _, _, _) => ResolveInsertNextOk(s, op);
    case EnsureTask(_, _, _) => InsertNextOk(s, op);
    case PublicCreate(_, _) => InsertNextOk(s, op);
    case ExtractInsert(_, _, _, _) => ExtractInsertNextOk(s, op);
    case PublishTask(_, _) => PublishNextOk(s, op);
    case Republish(_, _) => PublishNextOk(s, op);
    case Callback(_, _) => CallbackNextOk(s, op);
    case LoadParent(_, _, _) => ArtifactNextOk(s, op);
    case SaveArtifact(_, _, _, _, _, _, _) => ArtifactNextOk(s, op);
    case ProgressPending(_) => PendingNextOk(s, op);
    case FailPending(_, _) => PendingNextOk(s, op);
    case ResolveLoad(_, _) => ResolveLoadNextOk(s, op);
    case SetSchema(_, _, _) => SchemaNextOk(s, op);
    case ExtractDocument(_, _, _) => SchemaNextOk(s, op);
    case ExtractArtifacts(_, _, _, _) => ExtractArtifactsNextOk(s, op);
    case ExtractLoad(_, _) => ExtractLoadNextOk(s, op);
    case ExtractKeys(_, _) => ExtractKeysNextOk(s, op);
    case WatchdogClock => WatchdogNextOk(s, op);
    case WatchdogList(_) => WatchdogNextOk(s, op);
    case WatchdogClaim(_, _) => WatchdogNextOk(s, op);
    case _ => LastOps(s, op);
  }
}
