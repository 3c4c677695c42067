/** Requests that nothing moves: what no schedule can change, and what would. */
module Stillness {
  import opened Model
  import opened Statements
  import opened Machine
  import opened Invariants
  import opened Preservation
  import opened Interleaving
  import opened Atomic
  import opened Wakeup
  import opened Callbacks
  import opened Safety

  // ---- only a callback for the document moves a request at rest

  predicate TaskFor(s: State, t: nat, d: nat) {
    t < |s.tasks| && s.tasks[t].document == d
  }

  /** The operation leads to no statement on request id of document d. Which
      tasks are the document's is read off the state at the end of the schedule,
      since no task ever changes its document. */
  predicate Uninvolved(end: State, op: Op, id: nat, d: nat) {
    match op
    case ProgressDocument(i, _) => i != id
    case ProgressArtifacts(i, _, _) => i != id
    case ResolveListKeys(i, _, _, _) => i != id
    case ResolveInsert(i, _, _, _) => i != id
    case PublishTask(_, onError) => onError.FailResolve? || onError.FailExtract? ==> onError.request != id
    case SetRequestStatus(i, _, _) => i != id
    case Callback(t, _) => !TaskFor(end, t, d)
    case ProgressPending(e) => e != d
    case FailPending(e, _) => e != d
    case ResolveLoad(i, _) => i != id
    case SetSchema(i, _, _) => i != id
    case ExtractDocument(i, _, _) => i != id
    case ExtractArtifacts(i, _, _, _) => i != id
    case ExtractInsert(i, _, _, _) => i != id
    case ExtractLoad(i, _) => i != id
    case _ => true
  }

  predicate AllUninvolved(end: State, ops: seq<Op>, id: nat, d: nat) {
    forall k :: 0 <= k < |ops| ==> Uninvolved(end, ops[k], id, d)
  }

  lemma UninvolvedAfter(s: State, end: State, op: Op, id: nat)
    requires id < |s.requests| && Uninvolved(end, op, id, s.requests[id].document)
    ensures id < |After(s, op).requests| && After(s, op).requests[id] == s.requests[id]
  {
  }

  lemma RequestUninvolved(s: State, end: State, op: Op, id: nat)
    requires id < |s.requests| && Uninvolved(end, op, id, s.requests[id].document) && OfRequest(op)
    ensures AllUninvolved(end, Next(s, op), id, s.requests[id].document)
  {
    hide After, ArtifactPath, InsertOutcome;
  }

  lemma ResultUninvolved(s: State, end: State, op: Op, id: nat)
    requires id < |s.requests| && Uninvolved(end, op, id, s.requests[id].document) && OfResult(op)
    ensures AllUninvolved(end, Next(s, op), id, s.requests[id].document)
  {
    hide After, ArtifactPath, InsertOutcome, Writes;
  }

  lemma RestUninvolved(s: State, end: State, op: Op, id: nat)
    requires id < |s.requests| && Uninvolved(end, op, id, s.requests[id].document)
    requires !OfRequest(op) && !OfResult(op) && !op.Callback?
    ensures AllUninvolved(end, Next(s, op), id, s.requests[id].document)
  {
    hide After, InsertOutcome, ListStaleTasks;
    if op.ProgressPending? || op.FailPending? {
      var ids := ListPendingRequests(s.requests, op.document);
      assert forall k :: 0 <= k < |ids| ==> ids[k] in ids;
    }
  }

  lemma CallbackUninvolved(s: State, end: State, op: Op, id: nat)
    requires Inv(s) && Evolves(s, end) && id < |s.requests| && op.Callback?
    requires Uninvolved(end, op, id, s.requests[id].document)
    ensures AllUninvolved(end, Next(s, op), id, s.requests[id].document)
  {
    hide After, Chain;
    if op.task < |s.tasks| {
      assert SameIdentity(s.tasks[op.task], end.tasks[op.task]);
      assert TaskOk(s, s.tasks[op.task]);
      ChainUninvolved(end, op.task, WorkerRow(s.tasks[op.task], op.update), id, s.requests[id].document);
    }
  }

  lemma ChainUninvolved(end: State, t: nat, task: Task, id: nat, d: nat)
    requires task.document != d && task.request != Some(id)
    ensures AllUninvolved(end, Chain(t, task), id, d)
  {
  }

  lemma NextUninvolved(s: State, end: State, op: Op, id: nat)
    requires Inv(s) && Evolves(s, end) && id < |s.requests| && Uninvolved(end, op, id, s.requests[id].document)
    ensures AllUninvolved(end, Next(s, op), id, s.requests[id].document)
  {
    hide Inv, Evolves, Next, AllUninvolved, Uninvolved;
    if op.Callback? {
      CallbackUninvolved(s, end, op, id);
    } else if OfRequest(op) {
      RequestUninvolved(s, end, op, id);
    } else if OfResult(op) {
      ResultUninvolved(s, end, op, id);
    } else {
      RestUninvolved(s, end, op, id);
    }
  }

  predicate ThreadsUninvolved(end: State, threads: seq<seq<Op>>, id: nat, d: nat) {
    forall i :: 0 <= i < |threads| ==> AllUninvolved(end, threads[i], id, d)
  }

  /** No label starts a callback for a task that is, or becomes, document d's. */
  predicate NoCallbackFor(labels: seq<Label>, end: State, d: nat) {
    forall k :: 0 <= k < |labels| && labels[k].Spawn? && labels[k].op.Callback? ==> !TaskFor(end, labels[k].op.task, d)
  }

  lemma StepUninvolved(w: World, l: Label, end: State, id: nat)
    requires WorldOk(w) && Evolves(w.state, end) && id < |w.state.requests|
    requires var d := w.state.requests[id].document;
             ThreadsUninvolved(end, w.threads, id, d) && NoCallbackFor([l], end, d)
    ensures var w', d := Step(w, l), w.state.requests[id].document;
            id < |w'.state.requests| && w'.state.requests[id] == w.state.requests[id] &&
            ThreadsUninvolved(end, w'.threads, id, d)
  {
    hide Inv, Evolves, After, Next, Balanced, OpOk;
    var d := w.state.requests[id].document;
    match l
    case Exec(i) =>
      if i < |w.threads| && w.threads[i] != [] {
        assert AllUninvolved(end, w.threads[i], id, d);
        UninvolvedAfter(w.state, end, w.threads[i][0], id);
        NextUninvolved(w.state, end, w.threads[i][0], id);
      }
    case Spawn(op) =>
      assert [l][0] == l;
      if IsEvent(op) { EventUninvolved(end, op, id, d); }
    case _ =>
  }

  lemma EventUninvolved(end: State, op: Op, id: nat, d: nat)
    requires IsEvent(op) && (op.Callback? ==> !TaskFor(end, op.task, d))
    ensures Uninvolved(end, op, id, d)
  {
  }

  lemma {:induction false} StepsUninvolved(w: World, labels: seq<Label>, end: State, id: nat)
    requires WorldOk(w) && end == Steps(w, labels).state && id < |w.state.requests|
    requires var d := w.state.requests[id].document;
             ThreadsUninvolved(end, w.threads, id, d) && NoCallbackFor(labels, end, d)
    ensures id < |end.requests| && end.requests[id] == w.state.requests[id]
    decreases |labels|
  {
    hide WorldOk, Evolves, ThreadsUninvolved, Step, TaskFor;
    if labels != [] {
      StepsKeep(w, labels);
      StepUninvolved(w, labels[0], end, id);
      StepKeeps(w, labels[0]);
      StepsUninvolved(Step(w, labels[0]), labels[1..], end, id);
    }
  }

  /** From a world at rest, whatever else is called, scanned, killed or delivered:
      as long as no callback comes for a task of its document, a request stays
      exactly as it is. */
  lemma RequestStays(w: World, labels: seq<Label>, id: nat)
    requires Reachable(w) && AtRest(w) && id < |w.state.requests|
    requires NoCallbackFor(labels, Steps(w, labels).state, w.state.requests[id].document)
    ensures var s' := Steps(w, labels).state; id < |s'.requests| && s'.requests[id] == w.state.requests[id]
  {
    hide WorldOk;
    ReachableOk(w);
    StepsUninvolved(w, labels, Steps(w, labels).state, id);
  }

  /** And a callback does move it: a failed one, for the request's own task or for
      a prerequisite of its document, new or delivered again, fails it. */
  lemma CallbackReleases(w: World, id: nat, t: nat, failed: StatusUpdate) returns (labels: seq<Label>)
    requires Reachable(w) && id < |w.state.requests| && InFlight(w.state.requests[id])
    requires TaskFor(w.state, t, w.state.requests[id].document) && failed.status == Failed
    requires Singleton(w.state.tasks[t].moduleName) || w.state.tasks[t].request == Some(id)
    ensures CrashFree(labels)
    ensures var s' := Steps(w, labels).state; id < |s'.requests| && s'.requests[id].status == RequestFailed
  {
    hide Run, Inv, Balanced, OpsOk;
    ReachableOk(w);
    labels := AtomicEvent(w, Callback(t, failed));
    if Singleton(w.state.tasks[t].moduleName) {
      FailureFanOut(w.state, t, failed);
    } else {
      ResultFailure(w.state, t, failed);
    }
  }

  // ---- a root document with a blank path

  /** Nothing has ever been done for document d. */
  predicate Barren(s: State, d: nat) {
    (forall t :: 0 <= t < |s.tasks| ==> s.tasks[t].document != d) && (forall h :: h in s.reported ==> h.document != d)
  }

  predicate BlankRoot(s: State, d: nat) {
    d < |s.documents| && s.documents[d].parent.None? && Blank(s.documents[d].path)
  }

  ghost predicate BarrenOk(s: State) {
    RootPaths(s) && (forall h :: h in s.reported ==> h.document < |s.documents|) &&
    (forall d: nat :: BlankRoot(s, d) ==> Barren(s, d))
  }

  /** A row that may be inserted has an input path, which such a document cannot
      provide: its own is blank, and nobody has reported another. */
  lemma NoRowFor(s: State, row: Task, d: nat)
    requires Inv(s) && RootPaths(s) && BlankRoot(s, d) && Barren(s, d) && InputOk(s, row) && !Blank(row.input)
    requires row.request.Some? ==>
               row.request.value < |s.requests| && s.requests[row.request.value].document == row.document
    ensures row.document != d
  {
    if row.moduleName == ResolveKeys || row.moduleName == Extract {
      var kind := TargetKind(s.requests[row.request.value].anonymize);
      ReportedArtifact(s, Held(row.document, Some(kind), row.input));
    }
  }

  lemma ReportedArtifact(s: State, h: Held)
    requires Inv(s) && h in s.held && h.role.Some?
    ensures exists r :: r in s.reported && r.document == h.document
  {
    var i :| 0 <= i < |s.documents| && s.documents[i].parent == Some(h.document) && s.documents[i].kind == h.role;
    assert DocumentOk(s, i, s.documents[i]);
    assert Held(h.document, s.documents[i].kind, s.documents[i].path) in s.reported;
  }

  lemma InsertedBarren(s: State, row: Task)
    requires Inv(s) && BarrenOk(s) && InputOk(s, row)
    requires row.request.Some? ==>
               row.request.value < |s.requests| && s.requests[row.request.value].document == row.document
    ensures BarrenOk(InsertTask(s, row))
  {
    hide Inv, InputOk;
    var s' := InsertTask(s, row);
    forall d: nat | BlankRoot(s', d) ensures Barren(s', d) {
      assert BlankRoot(s, d);
      if InsertOutcome(s, row).Row? { NoRowFor(s, row, d); }
    }
  }

  lemma InsertOpBarren(s: State, op: Op)
    requires Inv(s) && OpOk(s, op) && BarrenOk(s) && Inserts(op)
    ensures BarrenOk(After(s, op))
  {
    hide Inv, BarrenOk, InsertTask;
    match op
    case ResolveInsert(id, req, path, _) => InsertedBarren(s, RequestRow(s, id, req, ResolveKeys, path));
    case EnsureTask(d, m, path) => InsertedBarren(s, EnsureRow(s, d, m, path));
    case ExtractInsert(id, req, path, _) => InsertedBarren(s, RequestRow(s, id, req, Extract, path));
    case PublicCreate(d, org) =>
      if d < |s.documents| && s.documents[d].org == org {
        OwnPathHeld(s, d);
        InsertedBarren(s, PublicRow(s, d));
      }
  }

  lemma TaskDocuments(s: State)
    requires Inv(s)
    ensures forall t :: 0 <= t < |s.tasks| ==> s.tasks[t].document < |s.documents|
  {
    assert forall t :: 0 <= t < |s.tasks| ==> TaskOk(s, s.tasks[t]);
  }

  lemma CallbackBarren(s: State, op: Op)
    requires Inv(s) && BarrenOk(s) && op.Callback?
    ensures BarrenOk(After(s, op))
  {
    hide Inv;
    TaskDocuments(s);
    if op.task < |s.tasks| {
      var s' := After(s, op);
      forall d: nat | BlankRoot(s', d) ensures Barren(s', d) {
        assert BlankRoot(s, d) && Barren(s, d);
      }
    }
  }

  lemma OldRoots(s: State, op: Op, d: nat)
    requires (op.SaveArtifact? || op.Upload?) && BlankRoot(After(s, op), d)
    ensures BlankRoot(s, d) || d == |s.documents|
    ensures After(s, op).tasks == s.tasks && After(s, op).reported == s.reported
    ensures |s.documents| <= |After(s, op).documents|
  {
    hide Blank;
  }

  lemma DocumentBarren(s: State, op: Op)
    requires Inv(s) && BarrenOk(s) && (op.SaveArtifact? || op.Upload?)
    ensures BarrenOk(After(s, op))
  {
    hide Inv, After, BlankRoot, RootPaths;
    TaskDocuments(s);
    RootsStay(s, op);
    NoFewerDocuments(s, op);
    var s' := After(s, op);
    forall d: nat | BlankRoot(s', d) ensures Barren(s', d) {
      OldRoots(s, op, d);
    }
  }

  lemma NoFewerDocuments(s: State, op: Op)
    requires op.SaveArtifact? || op.Upload?
    ensures |s.documents| <= |After(s, op).documents| && After(s, op).reported == s.reported
  {
  }

  lemma RestBarren(s: State, op: Op)
    requires BarrenOk(s) && !Inserts(op) && !op.Callback? && !op.SaveArtifact? && !op.Upload?
    ensures BarrenOk(After(s, op))
  {
    hide After;
    DocumentsUntouched(s, op);
    RowsUntouched(s, op);
    var s' := After(s, op);
    forall d: nat | BlankRoot(s', d) ensures Barren(s', d) {
      assert BlankRoot(s, d);
    }
  }

  lemma RowsUntouched(s: State, op: Op)
    requires !Inserts(op) && !op.Callback?
    ensures After(s, op).reported == s.reported && |After(s, op).tasks| == |s.tasks|
    ensures forall t :: 0 <= t < |s.tasks| ==> After(s, op).tasks[t].document == s.tasks[t].document
  {
  }

  lemma AfterBarren(s: State, op: Op)
    requires Inv(s) && OpOk(s, op) && BarrenOk(s)
    ensures BarrenOk(After(s, op))
  {
    hide Inv, OpOk, BarrenOk, After;
    if Inserts(op) {
      InsertOpBarren(s, op);
    } else if op.Callback? {
      CallbackBarren(s, op);
    } else if op.SaveArtifact? || op.Upload? {
      DocumentBarren(s, op);
    } else {
      RestBarren(s, op);
    }
  }

  lemma TickBarren(s: State, s': State)
    requires BarrenOk(s) && s' == s.(clock := s'.clock)
    ensures BarrenOk(s')
  {
    forall d: nat | BlankRoot(s', d) ensures Barren(s', d) {
      assert BlankRoot(s, d);
    }
  }

  lemma {:induction false} StepsBarren(w: World, labels: seq<Label>)
    requires WorldOk(w) && BarrenOk(w.state)
    ensures BarrenOk(Steps(w, labels).state)
    decreases |labels|
  {
    hide Inv, BarrenOk, Balanced, OpOk, After, Next;
    if labels != [] {
      var w' := Step(w, labels[0]);
      match labels[0] {
        case Exec(i) =>
          if i < |w.threads| && w.threads[i] != [] {
            assert OpsOk(w.state, w.threads[i]);
            AfterBarren(w.state, w.threads[i][0]);
          }
        case Tick(d) => TickBarren(w.state, w'.state);
        case _ =>
      }
      StepKeeps(w, labels[0]);
      StepsBarren(w', labels[1..]);
    }
  }

  lemma ReachableBarren(w: World)
    requires Reachable(w)
    ensures BarrenOk(w.state)
  {
    hide WorldOk;
    var w0, labels :| Initial(w0) && w == Steps(w0, labels);
    InitialOk(w0);
    StepsBarren(w0, labels);
  }

  /** In every reachable world, crashes included, a root document with a blank
      path has no task, and no request of it has ever got running. */
  lemma BlankDocument(w: World, d: nat)
    requires Reachable(w) && BlankRoot(w.state, d)
    ensures forall t :: 0 <= t < |w.state.tasks| ==> w.state.tasks[t].document != d
    ensures forall id :: 0 <= id < |w.state.requests| && w.state.requests[id].document == d ==>
              w.state.requests[id].status == RequestPending || w.state.requests[id].status == RequestFailed
  {
    hide Inv, Balanced, OpsOk;
    ReachableBarren(w);
    assert Barren(w.state, d);
    ReachableOk(w);
    forall id | 0 <= id < |w.state.requests| && w.state.requests[id].document == d
      ensures w.state.requests[id].status == RequestPending || w.state.requests[id].status == RequestFailed
    {
      StageOrder(w, id);
      NoRequestTask(w.state, id, ResolveKeys);
    }
  }

  lemma NoRequestTask(s: State, id: nat, m: Module)
    requires Inv(s) && id < |s.requests| && forall t :: 0 <= t < |s.tasks| ==>
             s.tasks[t].document != s.requests[id].document
    ensures !HasRequestTask(s, id, m)
  {
    assert forall t :: 0 <= t < |s.tasks| ==> TaskOk(s, s.tasks[t]);
  }

  lemma ReachableOn(w: World, labels: seq<Label>)
    requires Reachable(w)
    ensures Reachable(Steps(w, labels))
  {
    var w0, before :| Initial(w0) && w == Steps(w0, before);
    StepsAppend(w0, before, labels);
  }

  /** So at rest a request of such a document stays as it is for ever: there is no
      task whose callback could move it, and there never will be. */
  lemma BlankForEver(w: World, labels: seq<Label>, id: nat)
    requires Reachable(w) && AtRest(w) && id < |w.state.requests| && BlankRoot(w.state, w.state.requests[id].document)
    ensures var s' := Steps(w, labels).state; id < |s'.requests| && s'.requests[id] == w.state.requests[id]
  {
    hide WorldOk, Steps, AtRest;
    var end, d := Steps(w, labels), w.state.requests[id].document;
    ReachableOn(w, labels);
    ReachableOk(w);
    StepsKeep(w, labels);
    RootKeepsPath(w, end, d);
    BlankDocument(end, d);
    RequestStays(w, labels, id);
  }

  lemma RootKeepsPath(w: World, end: World, d: nat)
    requires Reachable(w) && Reachable(end) && WorldOk(w) && Evolves(w.state, end.state) && BlankRoot(w.state, d)
    ensures BlankRoot(end.state, d)
  {
    hide Balanced, OpsOk;
    ReachableBarren(end);
    OwnPathHeld(w.state, d);
    var h := Held(d, None, w.state.documents[d].path);
    assert h in end.state.held;
  }

  /** At rest, a request in flight on a root document without artifacts has its
      next task if and only if the document's path is not blank. */
  lemma ServedIff(w0: World, labels: seq<Label>, id: nat)
    requires Initial(w0) && Spared(w0, labels, id)
    requires var w := Steps(w0, labels); AtRest(w) && id < |w.state.requests| && InFlight(w.state.requests[id])
    requires var s := Steps(w0, labels).state;
             var d := s.requests[id].document;
             d < |s.documents| && s.documents[d].parent.None? && forall kind :: !HasArtifact(s.documents, d, kind)
    ensures var s := Steps(w0, labels).state;
            HasNext(s, id) <==> !Blank(s.documents[s.requests[id].document].path)
  {
    hide Inv, Balanced, OpsOk, Steps, Initial, Spared, Blank;
    var w := Steps(w0, labels);
    var s, d := w.state, w.state.requests[id].document;
    assert Reachable(w);
    ReachableOk(w);
    NoLostWakeup(w0, labels, id);
    RowsOk(s, id);
    DecideIs(s, id, s.requests[id], s.documents[d]);
    assert NextModule(s, s.requests[id]) == Convert;
    if Blank(s.documents[d].path) {
      BlankDocument(w, d);
    }
  }
}
