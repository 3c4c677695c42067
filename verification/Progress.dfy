/** Progress on its own: what it enqueues, when it does nothing, and exactly
    when it leaves the request with its next task. */
module Progress {
  import opened Model
  import opened Statements
  import opened Machine
  import opened Invariants
  import opened Preservation
  import opened Interleaving
  import opened Wakeup
  import opened Effects

  // ---- enqueueing one task

  /** Old task rows stay as they are, nothing else but requests and the log
      changes, and no request comes back in flight. */
  ghost predicate Enqueued(s: State, s': State) {
    s' == s.(tasks := s'.tasks, requests := s'.requests, log := s'.log) && s.tasks <= s'.tasks &&
    |s.requests| == |s'.requests| &&
    forall i :: 0 <= i < |s.requests| ==>
      SameRequest(s.requests[i], s'.requests[i]) && (InFlight(s'.requests[i]) ==> InFlight(s.requests[i]))
  }

  lemma EnqueuedTransitive(a: State, b: State, c: State)
    requires Enqueued(a, b) && Enqueued(b, c)
    ensures Enqueued(a, c)
  {
  }

  /** After an insert for request id: the row is there, whatever becomes of its
      message, and the other requests are as they were. */
  ghost predicate InsertedAs(s: State, s': State, id: nat, row: Task) {
    Enqueued(s, s') && |s'.tasks| == |s.tasks| + 1 && SameIdentity(s'.tasks[|s.tasks|], row) &&
    forall i :: 0 <= i < |s.requests| && i != id ==> s'.requests[i] == s.requests[i]
  }

  lemma RunEnsure(s: State, d: nat, m: Module, path: string)
    ensures Run(s, [EnsureTask(d, m, path)]) == Ensured(s, d, m, path)
    ensures var s', row := Run(s, [EnsureTask(d, m, path)]), EnsureRow(s, d, m, path);
            Enqueued(s, s') && s'.requests == s.requests &&
            if InsertOutcome(s, row).Row? then forall id :: InsertedAs(s, s', id, row) else s' == s
  {
    hide Run, InsertOutcome;
    var row, op := EnsureRow(s, d, m, path), EnsureTask(d, m, path);
    RunOne(s, op);
    RunNone(s);
    if InsertOutcome(s, row).Row? {
      var msg := TaskMessage(|s.tasks|, row, NoKwargs);
      var s1 := After(s, op);
      RunOne(s1, PublishTask(msg, FailTaskOnly));
      PublishStep(s1, msg, FailTaskOnly);
      RunNone(Publish(s1, msg));
      FailTaskStep(Publish(s1, msg), msg.task);
    }
  }

  lemma RunFailures(s: State, t: nat, id: nat, error: ErrorText)
    ensures Run(s, [FailTask(t), SetRequestStatus(id, RequestFailed, Some(error))]) ==
            SetExtractionRequestStatus(UpdateWorkerTaskStatus(s, t, FAILED_TO_PUBLISH), id, RequestFailed, Some(error))
  {
    hide Run, After, Next, SetExtractionRequestStatus, UpdateWorkerTaskStatus;
    var fail, set' := FailTask(t), SetRequestStatus(id, RequestFailed, Some(error));
    assert [fail, set'] == [fail] + [set'];
    RunAppend(s, [fail], [set']);
    FailTaskStep(s, t);
    SetStatusStep(UpdateWorkerTaskStatus(s, t, FAILED_TO_PUBLISH), id, RequestFailed, Some(error));
  }

  /** What marking a task failed comes to. */
  lemma FailedTask(s: State, t: nat)
    requires t < |s.tasks|
    ensures UpdateWorkerTaskStatus(s, t, FAILED_TO_PUBLISH) ==
            s.(tasks := s.tasks[t := s.tasks[t].(status := Failed, error := Some(PublishError), updatedAt := s.clock)])
  {
  }

  lemma SetIsWith(s: State, id: nat, status: RequestStatus, error: Option<ErrorText>)
    ensures SetExtractionRequestStatus(s, id, status, error) == WithStatus(s, id, status, error)
  {
  }

  lemma RunPublishResolve(s: State, id: nat, msg: Message)
    requires msg.task < |s.tasks|
    ensures Run(s, [PublishTask(msg, FailResolve(id))]) ==
            if s.broker(|s.log|) == Delivered then Publish(s, msg)
            else WithStatus(UpdateWorkerTaskStatus(Publish(s, msg), msg.task, FAILED_TO_PUBLISH), id, RequestFailed,
                            Some(PublishResolveFailed))
  {
    hide Run, After, Next, UpdateWorkerTaskStatus, WithStatus, SetExtractionRequestStatus;
    var s1 := Publish(s, msg);
    RunOne(s, PublishTask(msg, FailResolve(id)));
    PublishStep(s, msg, FailResolve(id));
    RunNone(s1);
    RunFailures(s1, msg.task, id, PublishResolveFailed);
    SetIsWith(UpdateWorkerTaskStatus(s1, msg.task, FAILED_TO_PUBLISH), id, RequestFailed, Some(PublishResolveFailed));
  }

  /** The insert for a request, whatever snapshot of it, is Asked. */
  lemma RunAsk(s: State, id: nat, req: Request, org: nat, path: string)
    ensures Run(s, [ResolveInsert(id, req, path, ListExtractionKeysByOrg(s.keys, org))]) == Asked(s, id, req, org, path)
  {
    hide Run, InsertOutcome, After, Next, UpdateWorkerTaskStatus, ListExtractionKeysByOrg;
    var known := ListExtractionKeysByOrg(s.keys, org);
    var row, op := RequestRow(s, id, req, ResolveKeys, path), ResolveInsert(id, req, path, known);
    RunOne(s, op);
    ResolveInsertStep(s, id, req, path, known);
    RunNone(s);
    if InsertOutcome(s, row).Row? {
      var msg := TaskMessage(|s.tasks|, row, ResolveArgs(req.questions, known));
      var s1, publish, running := After(s, op), PublishTask(msg, FailResolve(id)),
        SetRequestStatus(id, RequestRunning, None);
      var s2 := SetExtractionRequestStatus(s1, id, RequestRunning, None);
      if req.status == RequestPending {
        RunAppend(s1, [running], [publish]);
        SetStatusStep(s1, id, RequestRunning, None);
        RunPublishResolve(s2, id, msg);
        FailedTask(Publish(s2, msg), msg.task);
      } else {
        RunPublishResolve(s1, id, msg);
        FailedTask(Publish(s1, msg), msg.task);
      }
    }
  }

  lemma AskedInserts(s: State, id: nat, req: Request, org: nat, path: string)
    requires id < |s.requests| && InFlight(s.requests[id]) && SameRequest(req, s.requests[id])
    ensures var s', row := Asked(s, id, req, org, path), RequestRow(s, id, req, ResolveKeys, path);
            if InsertOutcome(s, row).Row? then InsertedAs(s, s', id, row) else s' == s
  {
    hide InsertOutcome, ListExtractionKeysByOrg;
  }

  // ---- one request

  /** The insert that Progress ends in, and the row it proposes. */
  function LastOp(s: State, id: nat, req: Request): Op
    requires req.document < |s.documents|
  {
    var m, path := NextModule(s, req), NextPath(s, req);
    if m == ResolveKeys
    then ResolveInsert(id, req, path, ListExtractionKeysByOrg(s.keys, s.documents[req.document].org))
    else EnsureTask(req.document, m, path)
  }

  function LastRow(s: State, id: nat, req: Request): Task
    requires req.document < |s.documents|
  {
    var m, path := NextModule(s, req), NextPath(s, req);
    if m == ResolveKeys then RequestRow(s, id, req, ResolveKeys, path) else EnsureRow(s, req.document, m, path)
  }

  lemma RunProgress(s: State, id: nat, req: Request)
    requires DocumentsOk(s) && req.document < |s.documents| && InFlight(req)
    ensures Run(s, ProgressOps(id, req)) == Run(s, [LastOp(s, id, req)])
  {
    hide Run, Decide, NextModule, NextPath, DocumentsOk;
    var doc := s.documents[req.document];
    var decided := Decide(s.documents, id, req, doc);
    RunOne(s, ProgressDocument(id, req));
    RunOne(s, ProgressArtifacts(id, req, doc));
    DecideIs(s, id, req, doc);
    if decided.ResolveListKeys? {
      RunOne(s, decided);
    }
  }

  lemma SettledRow(s: State, id: nat)
    requires id < |s.requests| && s.requests[id].document < |s.documents|
    ensures Settled(s, id) <==> !InsertOutcome(s, LastRow(s, id, s.requests[id])).Row?
  {
    hide NextPath, NextModule;
    var row := LastRow(s, id, s.requests[id]);
    if HasNext(s, id) {
      if NextModule(s, s.requests[id]) == ResolveKeys {
        var i :| 0 <= i < |s.tasks| && s.tasks[i].request == Some(id) && s.tasks[i].moduleName == ResolveKeys;
        assert SameSlot(s.tasks[i], row);
      } else {
        var i :| 0 <= i < |s.tasks| && s.tasks[i].document == row.document &&
          s.tasks[i].moduleName == row.moduleName && s.tasks[i].request.None?;
        assert SameSlot(s.tasks[i], row);
      }
    } else if i :| 0 <= i < |s.tasks| && SameSlot(s.tasks[i], row) {
      assert s.tasks[i].moduleName == row.moduleName && s.tasks[i].request == row.request;
    }
  }

  lemma SnapshotRow(s: State, id: nat, req: Request)
    requires id < |s.requests| && SameRequest(req, s.requests[id]) && req.document < |s.documents|
    ensures LastRow(s, id, req) == LastRow(s, id, s.requests[id])
  {
  }

  /** Progress, possibly from an older snapshot of the request, enqueues exactly
      one row if the request is not settled, and does nothing at all if it is. */
  lemma RunsOnce(s: State, id: nat, req: Request)
    requires DocumentsOk(s) && id < |s.requests| && req.document < |s.documents| && SameRequest(req, s.requests[id])
    requires InFlight(req) && InFlight(s.requests[id])
    ensures var s' := Run(s, ProgressOps(id, req));
            if Settled(s, id) then s' == s else InsertedAs(s, s', id, LastRow(s, id, s.requests[id]))
  {
    hide Run, DocumentsOk, InsertOutcome, Settled, NextPath, InsertedAs;
    RunProgress(s, id, req);
    SnapshotRow(s, id, req);
    SettledRow(s, id);
    var op := LastOp(s, id, req);
    if op.ResolveInsert? {
      var org := s.documents[req.document].org;
      RunAsk(s, id, req, org, op.path);
      AskedInserts(s, id, req, org, op.path);
    } else {
      RunEnsure(s, op.document, op.moduleName, op.path);
    }
  }

  /** Progress, from any snapshot of the request and in any state, comes to
      Progressed: its inserts, messages and marks by the broker's answers. */
  lemma ProgressIs(s: State, id: nat, req: Request)
    ensures Run(s, ProgressOps(id, req)) == Progressed(s, id, req)
  {
    hide Run, Asked, Ensured, ArtifactPath, ListExtractionKeysByOrg;
    RunNone(s);
    if InFlight(req) {
      RunOne(s, ProgressDocument(id, req));
      if req.document < |s.documents| {
        var doc := s.documents[req.document];
        var decided := Decide(s.documents, id, req, doc);
        RunOne(s, ProgressArtifacts(id, req, doc));
        if decided.ResolveListKeys? {
          RunOne(s, decided);
          RunAsk(s, id, req, doc.org, decided.path);
        } else {
          RunEnsure(s, decided.document, decided.moduleName, decided.path);
        }
      }
    }
  }

  /** Initiate for an existing document: create the request, then progress it. */
  lemma RunInitiate(s: State, d: nat, questions: seq<string>, anonymize: bool)
    requires d < |s.documents|
    ensures var org := s.documents[d].org;
            var req := NewRequest(d, org, questions, anonymize);
            Run(s, [CheckDocument(d, org, questions, anonymize)]) ==
            Run(CreateExtractionRequest(s, req), ProgressOps(|s.requests|, req))
  {
    hide Run;
    var org := s.documents[d].org;
    RunOne(s, CheckDocument(d, org, questions, anonymize));
    RunOne(s, CreateRequest(d, org, questions, anonymize));
  }

  lemma SettledStays(s: State, s': State, id: nat)
    requires Enqueued(s, s') && id < |s.requests| && s.requests[id].document < |s.documents| && Settled(s, id)
    ensures Settled(s', id)
  {
    hide ArtifactPath;
    var req, req' := s.requests[id], s'.requests[id];
    assert NextModule(s', req') == NextModule(s, req) && NextPath(s', req') == NextPath(s, req);
    if HasNext(s, id) {
      if NextModule(s, req) == ResolveKeys {
        var i :| 0 <= i < |s.tasks| && s.tasks[i].request == Some(id) && s.tasks[i].moduleName == ResolveKeys;
        assert s'.tasks[i] == s.tasks[i];
      } else {
        var i :| 0 <= i < |s.tasks| && s.tasks[i].document == req.document &&
          s.tasks[i].moduleName == NextModule(s, req) && s.tasks[i].request.None?;
        assert s'.tasks[i] == s.tasks[i];
      }
    }
  }

  lemma InsertedSettles(s: State, s': State, id: nat)
    requires id < |s.requests| && s.requests[id].document < |s.documents| &&
             InsertedAs(s, s', id, LastRow(s, id, s.requests[id]))
    ensures HasNext(s', id)
  {
    hide ArtifactPath, NextPath;
    var req, row := s.requests[id], LastRow(s, id, s.requests[id]);
    assert NextModule(s', s'.requests[id]) == NextModule(s, req);
    var i := |s.tasks|;
    assert s'.tasks[i].request == row.request && s'.tasks[i].moduleName == row.moduleName &&
      s'.tasks[i].document == row.document;
  }

  /** Once a schedule has come to rest, calling Progress again on any in-flight
      request of a root document changes nothing: there is no wakeup to make up
      for. */
  lemma RestingProgress(w0: World, labels: seq<Label>, id: nat)
    requires Initial(w0) && Spared(w0, labels, id)
    requires var w := Steps(w0, labels); AtRest(w) && id < |w.state.requests| && InFlight(w.state.requests[id])
    requires var s := Steps(w0, labels).state;
             s.requests[id].document < |s.documents| && s.documents[s.requests[id].document].parent.None?
    ensures var s := Steps(w0, labels).state; Run(s, ProgressOps(id, s.requests[id])) == s
  {
    hide Run, Inv, DocumentsOk, Settled, Spared;
    var s := Steps(w0, labels).state;
    NoLostWakeup(w0, labels, id);
    InitialOk(w0);
    StepsKeep(w0, labels);
    RowsOk(s, id);
    RunsOnce(s, id, s.requests[id]);
  }

  /** Calling Progress on a request that has its next task changes nothing and
      publishes nothing. */
  lemma ProgressIdempotent(s: State, id: nat)
    requires Inv(s) && id < |s.requests| && HasNext(s, id)
    ensures Run(s, ProgressOps(id, s.requests[id])) == s
  {
    hide Run, DocumentsOk, HasNext;
    assert RequestOk(s, id, s.requests[id]);
    if InFlight(s.requests[id]) {
      RunsOnce(s, id, s.requests[id]);
    } else {
      RunNone(s);
    }
  }

  /** Exactly when Progress leaves an in-flight request with its next task: it
      had one already, or the path of the next input is not blank. For a blank
      path the insert violates the check on input_storage_path, the error is only
      logged, and the request stays in flight with nothing to wake it. */
  lemma ProgressServesIff(s: State, id: nat)
    requires Inv(s) && id < |s.requests| && InFlight(s.requests[id])
    ensures var s' := Run(s, ProgressOps(id, s.requests[id]));
            id < |s'.requests| && s.requests[id].document < |s.documents| &&
            (HasNext(s', id) <==> HasNext(s, id) || !Blank(NextPath(s, s.requests[id])))
  {
    hide Run, DocumentsOk, HasNext, NextPath, InsertedAs;
    assert RequestOk(s, id, s.requests[id]);
    RunsOnce(s, id, s.requests[id]);
    if !Settled(s, id) {
      InsertedSettles(s, Run(s, ProgressOps(id, s.requests[id])), id);
      AsInserted(s, Run(s, ProgressOps(id, s.requests[id])), id);
    }
  }

  lemma AsInserted(s: State, s': State, id: nat)
    requires id < |s.requests| && s.requests[id].document < |s.documents| &&
             InsertedAs(s, s', id, LastRow(s, id, s.requests[id]))
    ensures |s'.requests| == |s.requests| && Enqueued(s, s')
  {
  }

  // ---- every in-flight request of a document

  lemma {:induction false} PendingDistinct(requests: seq<Request>, d: nat)
    ensures Increasing(ListPendingRequests(requests, d))
  {
    if requests != [] {
      var n := |requests| - 1;
      var rest := ListPendingRequests(requests[..n], d);
      PendingDistinct(requests[..n], d);
      assert forall k :: 0 <= k < |rest| ==> rest[k] < n;
    }
  }

  predicate Increasing(ids: seq<nat>) {
    forall i, j :: 0 <= i < j < |ids| ==> ids[i] < ids[j]
  }

  /** The requests of a list are as the list found them. */
  ghost predicate Current(s0: State, s: State, ids: seq<nat>) {
    |s0.requests| == |s.requests| &&
    (forall k :: 0 <= k < |ids| ==>
      ids[k] < |s.requests| && s.requests[ids[k]] == s0.requests[ids[k]] && InFlight(s.requests[ids[k]]) &&
      s.requests[ids[k]].document < |s.documents|) &&
    forall j, k :: 0 <= j < k < |ids| ==> ids[j] != ids[k]
  }

  lemma {:induction false} RunProgressAll(s0: State, s: State, ids: seq<nat>)
    requires DocumentsOk(s) && Current(s0, s, ids)
    ensures var s' := Run(s, ProgressAll(s0, ids));
            Enqueued(s, s') && (forall k :: 0 <= k < |ids| ==> ids[k] < |s'.requests| && Settled(s', ids[k])) &&
            ((forall k :: 0 <= k < |ids| ==> Settled(s, ids[k])) ==> s' == s)
    decreases |ids|
  {
    hide Run, DocumentsOk, Settled, LastRow, ProgressOps;
    if ids == [] {
      RunNone(s);
      assert ProgressAll(s0, ids) == [];
    } else {
      var id, rest := ids[0], ids[1..];
      var req := s.requests[id];
      var s1 := Run(s, ProgressOps(id, req));
      FirstSettles(s, id);
      SameDocumentsOk(s, s1);
      assert Current(s0, s1, rest);
      assert ProgressAll(s0, ids) == ProgressOps(id, req) + ProgressAll(s0, rest) by { FirstOp(s0, ids); }
      RunAppend(s, ProgressOps(id, req), ProgressAll(s0, rest));
      RunProgressAll(s0, s1, rest);
      var s' := Run(s1, ProgressAll(s0, rest));
      EnqueuedTransitive(s, s1, s');
      SettledStays(s1, s', id);
      forall k | 0 <= k < |ids| ensures Settled(s', ids[k]) {
        assert k > 0 ==> ids[k] == rest[k - 1];
      }
    }
  }

  lemma FirstOp(s0: State, ids: seq<nat>)
    requires ids != [] && (forall k :: 0 <= k < |ids| ==> ids[k] < |s0.requests|) && InFlight(s0.requests[ids[0]])
    ensures ProgressAll(s0, ids) == ProgressOps(ids[0], s0.requests[ids[0]]) + ProgressAll(s0, ids[1..])
  {
  }

  lemma FirstSettles(s: State, id: nat)
    requires DocumentsOk(s) && id < |s.requests| && InFlight(s.requests[id]) && s.requests[id].document < |s.documents|
    ensures var s' := Run(s, ProgressOps(id, s.requests[id]));
            Enqueued(s, s') && Settled(s', id) && (Settled(s, id) ==> s' == s) &&
            forall i :: 0 <= i < |s.requests| && i != id ==> s'.requests[i] == s.requests[i]
  {
    hide Run, DocumentsOk, HasNext, NextPath, LastRow;
    var s' := Run(s, ProgressOps(id, s.requests[id]));
    RunsOnce(s, id, s.requests[id]);
    if !Settled(s, id) {
      InsertedSettles(s, s', id);
    }
  }

  /** After the sweep every request of the document that is still in flight is
      settled; a sweep that finds them all settled changes nothing. */
  lemma Sweep(s: State, d: nat)
    requires Inv(s)
    ensures var s' := Run(s, [ProgressPending(d)]);
            Enqueued(s, s') && AllSettled(s', d) && (AllSettled(s, d) ==> s' == s)
  {
    hide Run, DocumentsOk, Settled;
    var ids := ListPendingRequests(s.requests, d);
    RunOne(s, ProgressPending(d));
    PendingDistinct(s.requests, d);
    forall k | 0 <= k < |ids| ensures s.requests[ids[k]].document == d < |s.documents| && InFlight(s.requests[ids[k]]) {
      assert ids[k] in ids;
      assert RequestOk(s, ids[k], s.requests[ids[k]]);
    }
    RunProgressAll(s, s, ids);
    var s' := Run(s, [ProgressPending(d)]);
    forall id | 0 <= id < |s'.requests| && s'.requests[id].document == d && InFlight(s'.requests[id])
      ensures s'.requests[id].document < |s'.documents| && Settled(s', id)
    {
      assert id in ids;
    }
  }

  ghost predicate AllSettled(s: State, d: nat) {
    forall id :: 0 <= id < |s.requests| && s.requests[id].document == d && InFlight(s.requests[id]) ==>
      d < |s.documents| && Settled(s, id)
  }
}
