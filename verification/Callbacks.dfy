/** What one worker callback does to the rest of the system. */
module Callbacks {
  import opened Model
  import opened Statements
  import opened Machine
  import opened Invariants
  import opened Preservation
  import opened Atomic

  // ---- failure fan-out

  function Doomed(r: Request, m: Module): Request {
    r.(status := RequestFailed, error := Some(PrerequisiteFailed(m)))
  }

  lemma {:induction false} RunFailAll(s: State, ids: seq<nat>, m: Module)
    requires forall i :: 0 <= i < |ids| ==> ids[i] < |s.requests|
    ensures var s' := Run(s, FailAll(ids, m));
            s' == s.(requests := s'.requests) && |s'.requests| == |s.requests| &&
            forall r :: 0 <= r < |s.requests| ==> s'.requests[r] == if r in ids then Doomed(s.requests[r], m)
              else s.requests[r]
    decreases |ids|
  {
    hide Run;
    if ids == [] {
      assert FailAll(ids, m) == [];
      RunNone(s);
    } else {
      var op := SetRequestStatus(ids[0], RequestFailed, Some(PrerequisiteFailed(m)));
      assert FailAll(ids, m) == [op] + FailAll(ids[1..], m);
      RunAppend(s, [op], FailAll(ids[1..], m));
      SetStatusStep(s, ids[0], RequestFailed, Some(PrerequisiteFailed(m)));
      RunFailAll(SetExtractionRequestStatus(s, ids[0], RequestFailed, Some(PrerequisiteFailed(m))), ids[1..], m);
    }
  }

  /** A failed convert or anonymize callback fails exactly the document's
      requests in flight, and touches nothing else but its own task row. */
  lemma FailureFanOut(s: State, t: nat, upd: StatusUpdate)
    requires Inv(s) && t < |s.tasks| && Singleton(s.tasks[t].moduleName) && upd.status == Failed
    ensures var s', task := Run(s, [Callback(t, upd)]), s.tasks[t];
            |s'.requests| == |s.requests| &&
            (forall r :: 0 <= r < |s.requests| ==>
              s'.requests[r] ==
                if s.requests[r].document == task.document &&
                   (s.requests[r].status == RequestPending || s.requests[r].status == RequestRunning)
                then s.requests[r].(status := RequestFailed, error := Some(PrerequisiteFailed(task.moduleName)))
                else s.requests[r]) &&
            (forall r :: 0 <= r < |s.requests| && s'.requests[r].document == task.document ==>
              s'.requests[r].status == RequestCompleted || s'.requests[r].status == RequestFailed) &&
            s'.tasks == s.tasks[t := WorkerRow(task, upd).(updatedAt := s.clock)] &&
            s'.documents == s.documents && s'.keys == s.keys && s'.extracted == s.extracted && s'.log == s.log
  {
    hide Inv, Run, Next, FailAll;
    var s1 := After(s, Callback(t, upd));
    FailedRuns(s, t, upd);
    RunFailAll(s1, ListPendingRequests(s.requests, s.tasks[t].document), s.tasks[t].moduleName);
  }

  lemma FailedRuns(s: State, t: nat, upd: StatusUpdate)
    requires t < |s.tasks| && Singleton(s.tasks[t].moduleName) && upd.status == Failed
    ensures Run(s, [Callback(t, upd)]) == Run(After(s, Callback(t, upd)),
              FailAll(ListPendingRequests(s.requests, s.tasks[t].document), s.tasks[t].moduleName))
  {
    hide Run, After, Next;
    var s1 := After(s, Callback(t, upd));
    var op := FailPending(s.tasks[t].document, s.tasks[t].moduleName);
    FailedStep(s, t, upd);
    RunOne(s, Callback(t, upd));
    RunOne(s1, op);
    FailPendingStep(s1, op);
  }

  lemma FailedStep(s: State, t: nat, upd: StatusUpdate)
    requires t < |s.tasks| && Singleton(s.tasks[t].moduleName) && upd.status == Failed
    ensures Next(s, Callback(t, upd)) == [FailPending(s.tasks[t].document, s.tasks[t].moduleName)]
    ensures After(s, Callback(t, upd)).requests == s.requests
  {
  }

  lemma FailPendingStep(s: State, op: Op)
    requires op.FailPending?
    ensures After(s, op) == s && Next(s, op) == FailAll(ListPendingRequests(s.requests, op.document), op.moduleName)
  {
    hide FailAll, ListPendingRequests;
  }

  /** A failed resolve_keys or extract callback fails its own request, with the
      task's error text, even if the request had completed; and nothing else. */
  lemma ResultFailure(s: State, t: nat, upd: StatusUpdate)
    requires Inv(s) && t < |s.tasks| && !Singleton(s.tasks[t].moduleName) && upd.status == Failed
    ensures var s', task := Run(s, [Callback(t, upd)]), WorkerRow(s.tasks[t], upd);
            task.request.Some? && task.request.value < |s.requests| &&
            s'.requests == s.requests[task.request.value := s.requests[task.request.value].(
              status := RequestFailed, error := Some(if task.error.Some? then task.error.value else TaskFailed))] &&
            s'.tasks == s.tasks[t := task.(updatedAt := s.clock)] &&
            s'.documents == s.documents && s'.keys == s.keys && s'.extracted == s.extracted && s'.log == s.log
  {
    hide Run, Inv;
    OwnRequest(s, t);
    var task, r := WorkerRow(s.tasks[t], upd), s.tasks[t].request.value;
    var error := if task.error.Some? then task.error.value else TaskFailed;
    RunOne(s, Callback(t, upd));
    SetStatusStep(After(s, Callback(t, upd)), r, RequestFailed, Some(error));
  }

  lemma OwnRequest(s: State, t: nat)
    requires Inv(s) && t < |s.tasks| && !Singleton(s.tasks[t].moduleName)
    ensures s.tasks[t].request.Some? && s.tasks[t].request.value < |s.requests|
  {
    assert TaskOk(s, s.tasks[t]);
  }

  // ---- document isolation

  ghost predicate RequestOn(s: State, id: nat, d: nat) {
    id < |s.requests| && s.requests[id].document == d
  }

  ghost predicate TaskOn(s: State, t: nat, d: nat) {
    t < |s.tasks| && s.tasks[t].document == d
  }

  ghost predicate Tenant(s: State, d: nat, org: nat) {
    d < |s.documents| && s.documents[d].org == org
  }

  /** The operation acts for document d. */
  ghost predicate Within(s: State, op: Op, d: nat) {
    match op
    case ProgressDocument(_, req) => req.document == d
    case ProgressArtifacts(_, req, _) => req.document == d
    case ResolveListKeys(_, req, _, _) => req.document == d
    case ResolveInsert(_, req, _, _) => req.document == d
    case EnsureTask(e, _, _) => e == d
    case PublishTask(msg, onError) =>
      msg.document == d && (onError.FailResolve? || onError.FailExtract? ==> RequestOn(s, onError.request, d))
    case FailTask(t) => TaskOn(s, t, d)
    case SetRequestStatus(id, _, _) => RequestOn(s, id, d)
    case Callback(t, _) => TaskOn(s, t, d)
    case LoadParent(t, e, _) => TaskOn(s, t, d) && e == d
    case SaveArtifact(t, e, _, _, _, _, _) => TaskOn(s, t, d) && e == d
    case SetPayload(t, _) => TaskOn(s, t, d)
    case ProgressPending(e) => e == d
    case FailPending(e, _) => e == d
    case ResolveLoad(id, _) => RequestOn(s, id, d)
    case UpsertNewKey(org, _) => Tenant(s, d, org)
    case SetSchema(id, req, _) => RequestOn(s, id, d) && req.document == d
    case ExtractDocument(id, req, _) => RequestOn(s, id, d) && req.document == d
    case ExtractArtifacts(id, req, _, _) => RequestOn(s, id, d) && req.document == d
    case ExtractInsert(id, req, _, _) => RequestOn(s, id, d) && req.document == d
    case ExtractLoad(id, _) => RequestOn(s, id, d)
    case ExtractKeys(req, _) => req.document == d && Tenant(s, d, req.org)
    case SaveData(org, e, _) => e == d && Tenant(s, d, org)
    case _ => false
  }

  ghost predicate AllWithin(s: State, ops: seq<Op>, d: nat) {
    forall i :: 0 <= i < |ops| ==> Within(s, ops[i], d)
  }

  /** Nothing outside document d and its tenant's keys differs. */
  ghost predicate Elsewhere(s: State, s': State, d: nat) {
    d < |s.documents| && |s.documents| <= |s'.documents| && |s.tasks| <= |s'.tasks| && |s.keys| <= |s'.keys| &&
    |s.requests| == |s'.requests| &&
    (forall i :: 0 <= i < |s.documents| && s.documents[i].parent != Some(d) ==> s'.documents[i] == s.documents[i]) &&
    (forall i :: |s.documents| <= i < |s'.documents| ==> s'.documents[i].parent == Some(d)) &&
    (forall i :: 0 <= i < |s.tasks| && s.tasks[i].document != d ==> s'.tasks[i] == s.tasks[i]) &&
    (forall i :: |s.tasks| <= i < |s'.tasks| ==> s'.tasks[i].document == d) &&
    (forall i :: 0 <= i < |s.requests| && s.requests[i].document != d ==> s'.requests[i] == s.requests[i]) &&
    (forall i :: 0 <= i < |s.keys| && s.keys[i].org != Some(s.documents[d].org) ==> s'.keys[i] == s.keys[i]) &&
    (forall i :: |s.keys| <= i < |s'.keys| ==> s'.keys[i].org == Some(s.documents[d].org)) &&
    (forall c :: c in s.extracted && c.document != d ==> c in s'.extracted && s'.extracted[c] == s.extracted[c]) &&
    (forall c :: c in s'.extracted && c !in s.extracted ==> c.document == d && c.org == s.documents[d].org) &&
    s.log <= s'.log && (forall i :: |s.log| <= i < |s'.log| ==> s'.log[i].msg.document == d)
  }

  lemma ElsewhereTransitive(a: State, b: State, c: State, d: nat)
    requires Elsewhere(a, b, d) && Elsewhere(b, c, d) && Evolves(a, b) && Evolves(b, c)
    ensures Elsewhere(a, c, d)
  {
  }

  lemma WithinStable(s: State, s': State, op: Op, d: nat)
    requires Evolves(s, s') && Within(s, op, d)
    ensures Within(s', op, d)
  {
  }

  lemma RequestOpElsewhere(s: State, op: Op, d: nat)
    requires d < |s.documents| && Within(s, op, d) && OfRequest(op)
    ensures Elsewhere(s, After(s, op), d)
  {
  }

  lemma CallbackOpElsewhere(s: State, op: Op, d: nat)
    requires d < |s.documents| && Within(s, op, d) && (op.Callback? || op.SetPayload?)
    ensures Elsewhere(s, After(s, op), d)
  {
  }

  lemma SaveElsewhere(s: State, op: Op, d: nat)
    requires d < |s.documents| && Within(s, op, d) && op.SaveArtifact?
    ensures Elsewhere(s, After(s, op), d)
  {
  }

  lemma ResultOpElsewhere(s: State, op: Op, d: nat)
    requires d < |s.documents| && Within(s, op, d) && (op.SetSchema? || op.ExtractInsert?)
    ensures Elsewhere(s, After(s, op), d)
  {
  }

  lemma DataOpElsewhere(s: State, op: Op, d: nat)
    requires d < |s.documents| && Within(s, op, d) && (op.SaveData? || op.UpsertNewKey?)
    ensures Elsewhere(s, After(s, op), d)
  {
  }

  lemma AfterElsewhere(s: State, op: Op, d: nat)
    requires d < |s.documents| && Within(s, op, d)
    ensures Elsewhere(s, After(s, op), d)
  {
    hide Elsewhere, After;
    if !Mutates(op) {
      ReadOnly(s, op);
      ElsewhereSelf(s, d);
    } else if op.SaveData? || op.UpsertNewKey? {
      DataOpElsewhere(s, op, d);
    } else if OfRequest(op) {
      RequestOpElsewhere(s, op, d);
    } else if op.SaveArtifact? {
      SaveElsewhere(s, op, d);
    } else if OfCallback(op) {
      CallbackOpElsewhere(s, op, d);
    } else {
      ResultOpElsewhere(s, op, d);
    }
  }

  lemma RequestNextWithin(s: State, op: Op, d: nat)
    requires OpOk(s, op) && Within(s, op, d) && OfRequest(op) && !op.PublishTask?
    ensures AllWithin(After(s, op), Next(s, op), d)
  {
    hide ArtifactPath;
  }

  lemma PublishNextWithin(s: State, op: Op, d: nat)
    requires OpOk(s, op) && Within(s, op, d) && (op.PublishTask? || op.ExtractInsert?)
    ensures AllWithin(After(s, op), Next(s, op), d)
  {
  }

  lemma ChainWithin(s: State, t: nat, task: Task, d: nat)
    requires TaskOn(s, t, d) && task.document == d
    requires task.request.Some? ==> RequestOn(s, task.request.value, d)
    ensures AllWithin(s, Chain(t, task), d)
  {
  }

  lemma CallbackNextWithin(s: State, op: Op, d: nat)
    requires Inv(s) && Within(s, op, d) && op.Callback?
    ensures AllWithin(After(s, op), Next(s, op), d)
  {
    hide Chain;
    assert TaskOk(s, s.tasks[op.task]);
    ChainWithin(After(s, op), op.task, WorkerRow(s.tasks[op.task], op.update), d);
  }

  lemma ArtifactNextWithin(s: State, op: Op, d: nat)
    requires Within(s, op, d) && (op.LoadParent? || op.SaveArtifact? || op.SetPayload?)
    ensures AllWithin(After(s, op), Next(s, op), d)
  {
  }

  lemma PendingNextWithin(s: State, op: Op, d: nat)
    requires Within(s, op, d) && (op.ProgressPending? || op.FailPending?)
    ensures AllWithin(After(s, op), Next(s, op), d)
  {
    var ids := ListPendingRequests(s.requests, d);
    assert forall k :: 0 <= k < |ids| ==> ids[k] in ids;
  }

  lemma LoadNextWithin(s: State, op: Op, d: nat)
    requires Inv(s) && OpOk(s, op) && d < |s.documents| && Within(s, op, d) && (op.ResolveLoad? || op.ExtractLoad?)
    ensures AllWithin(After(s, op), Next(s, op), d)
  {
    hide Inv, OpOk;
    TenantOf(s, op.id);
  }

  lemma TenantOf(s: State, r: nat)
    requires Inv(s) && r < |s.requests|
    ensures s.requests[r].document < |s.documents| && s.documents[s.requests[r].document].org == s.requests[r].org
  {
    assert RequestOk(s, r, s.requests[r]);
  }

  lemma ResultNextWithin(s: State, op: Op, d: nat)
    requires Within(s, op, d) && OfResult(op) && !op.ExtractInsert? && !op.ResolveLoad? && !op.ExtractLoad?
    ensures AllWithin(After(s, op), Next(s, op), d)
  {
    hide ArtifactPath, Writes;
  }

  lemma NextWithin(s: State, op: Op, d: nat)
    requires Inv(s) && OpOk(s, op) && d < |s.documents| && Within(s, op, d)
    ensures AllWithin(After(s, op), Next(s, op), d)
  {
    hide Inv, OpOk, AllWithin, After, Next;
    if op.PublishTask? || op.ExtractInsert? {
      PublishNextWithin(s, op, d);
    } else if OfRequest(op) {
      RequestNextWithin(s, op, d);
    } else if op.Callback? {
      CallbackNextWithin(s, op, d);
    } else if op.ProgressPending? || op.FailPending? {
      PendingNextWithin(s, op, d);
    } else if OfCallback(op) {
      ArtifactNextWithin(s, op, d);
    } else if op.ResolveLoad? || op.ExtractLoad? {
      LoadNextWithin(s, op, d);
    } else {
      ResultNextWithin(s, op, d);
    }
  }

  lemma {:induction false} RunElsewhere(s: State, ops: seq<Op>, d: nat)
    requires Inv(s) && OpsOk(s, ops) && d < |s.documents| && AllWithin(s, ops, d)
    ensures Elsewhere(s, Run(s, ops), d)
    decreases Level(ops), |ops|
  {
    hide Inv, OpOk, After, Next, Within, Evolves;
    ElsewhereSelf(s, d);
    if ops != [] {
      var op, rest := ops[0], ops[1..];
      var s1, next := After(s, op), Next(s, op);
      AfterKeeps(s, op);
      NextOk(s, op);
      NextRanksLower(s, op);
      AfterElsewhere(s, op, d);
      NextWithin(s, op, d);
      RunKeeps(s1, next);
      var s2 := Run(s1, next);
      RunElsewhere(s1, next, d);
      ElsewhereTransitive(s, s1, s2, d);
      EvolvesTransitive(s, s1, s2);
      ConfigOk(s);
      forall k | 0 <= k < |rest| ensures OpOk(s2, rest[k]) && Within(s2, rest[k], d) {
        StableOps(s, s2, ops[k + 1]);
        WithinStable(s, s2, ops[k + 1], d);
      }
      RunElsewhere(s2, rest, d);
      RunKeeps(s2, rest);
      ElsewhereTransitive(s, s2, Run(s, ops), d);
    }
  }

  lemma ElsewhereSelf(s: State, d: nat)
    requires d < |s.documents|
    ensures Elsewhere(s, s, d)
  {
  }

  /** A callback on a task of document d, with everything that it sets off,
      changes nothing of any other document or tenant. */
  lemma DocumentIsolation(s: State, t: nat, upd: StatusUpdate)
    requires Inv(s) && t < |s.tasks|
    ensures s.tasks[t].document < |s.documents| && Elsewhere(s, Run(s, [Callback(t, upd)]), s.tasks[t].document)
  {
    hide Elsewhere;
    assert TaskOk(s, s.tasks[t]);
    RunElsewhere(s, [Callback(t, upd)], s.tasks[t].document);
  }
}
