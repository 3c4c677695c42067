/** No lost wakeup: however requests, callbacks and watchdogs interleave, once
    they have come to rest every request in flight has its next task. */
module Wakeup {
  import opened Model
  import opened Statements
  import opened Machine
  import opened Invariants
  import opened Preservation
  import opened Interleaving

  /** The module a request waits for, given its document's artifacts. */
  predicate HasTarget(s: State, req: Request) {
    HasArtifact(s.documents, req.document, TargetKind(req.anonymize))
  }

  function NextModule(s: State, req: Request): (m: Module)
    ensures m != Extract
  {
    if HasTarget(s, req) then ResolveKeys
    else if req.anonymize && HasArtifact(s.documents, req.document, ConvertMd) then Anonymize
    else Convert
  }

  predicate HasNext(s: State, id: nat)
    requires id < |s.requests|
  {
    var m := NextModule(s, s.requests[id]);
    if m == ResolveKeys then HasRequestTask(s, id, ResolveKeys) else HasSingleton(s, s.requests[id].document, m)
  }

  /** Storage path of the input of the request's next task. */
  function NextPath(s: State, req: Request): string
    requires req.document < |s.documents|
  {
    var d := s.documents[req.document];
    match ArtifactPath(s.documents, req.document, d.org, TargetKind(req.anonymize))
    case Some(path) => path
    case None =>
      match ArtifactPath(s.documents, req.document, d.org, ConvertMd)
      case Some(md) => if req.anonymize then md else d.path
      case None => d.path
  }

  /** The request has its next task, or the check on input_storage_path refuses
      the path of that task's input: Progress has nothing to insert. */
  predicate Settled(s: State, id: nat)
    requires id < |s.requests| && s.requests[id].document < |s.documents|
  {
    HasNext(s, id) || Blank(NextPath(s, s.requests[id]))
  }

  /** A document that is itself an artifact has had a blank path of its own, which
      its parent's callbacks may replace at any time. */
  ghost predicate BlankOwn(s: State, d: nat) {
    d < |s.documents| && s.documents[d].parent.Some? &&
    exists h :: h in s.held && h.document == d && h.role.None? && Blank(h.path)
  }

  /** A root document keeps the path that it was uploaded with. */
  ghost predicate RootPaths(s: State) {
    forall h :: h in s.held && h.role.None? ==>
      h.document < |s.documents| && (s.documents[h.document].parent.None? ==> h.path == s.documents[h.document].path)
  }

  /** The operation is going to create, or find, the request's next task. */
  predicate Responsible(s: State, op: Op, id: nat)
    requires id < |s.requests|
  {
    match op
    case ProgressPending(d) => d == s.requests[id].document
    case ProgressDocument(i, _) => i == id
    case ProgressArtifacts(i, _, _) => i == id
    case ResolveListKeys(i, _, _, path) => i == id && !Blank(path)
    case ResolveInsert(i, _, path, _) => i == id && !Blank(path)
    case EnsureTask(d, m, path) => d == s.requests[id].document && m == NextModule(s, s.requests[id]) && !Blank(path)
    case _ => false
  }

  ghost predicate Awaited(s: State, ops: seq<Op>, id: nat)
    requires id < |s.requests|
  {
    exists k :: 0 <= k < |ops| && Responsible(s, ops[k], id)
  }

  ghost predicate Served(s: State, id: nat)
    requires id < |s.requests|
  {
    s.requests[id].document < |s.documents| && (Settled(s, id) || BlankOwn(s, s.requests[id].document))
  }

  ghost predicate Covered(w: World, id: nat)
    requires id < |w.state.requests|
  {
    InFlight(w.state.requests[id]) ==>
      Served(w.state, id) || exists i :: 0 <= i < |w.threads| && Awaited(w.state, w.threads[i], id)
  }

  predicate Registers(op: Op) {
    op.LoadParent? || op.SaveArtifact?
  }

  /** A thread that registers artifacts still has to progress the document. */
  predicate ThreadOk(ops: seq<Op>) {
    forall k :: 0 <= k < |ops| && Registers(ops[k]) ==> ProgressPending(ops[k].document) in ops[k + 1..]
  }

  ghost predicate CoverOk(w: World, id: nat) {
    WorldOk(w) && RootPaths(w.state) &&
    (forall i :: 0 <= i < |w.threads| ==> ThreadOk(w.threads[i])) &&
    (id < |w.state.requests| ==> Covered(w, id))
  }

  // ---- what a step does not disturb

  lemma ArtifactsOfOthers(s: State, op: Op, d: nat, kind: Kind)
    requires !(op.SaveArtifact? && op.document == d)
    ensures HasArtifact(After(s, op).documents, d, kind) <==> HasArtifact(s.documents, d, kind)
  {
    if op.SaveArtifact? || op.Upload? {
      var docs, docs' := s.documents, After(s, op).documents;
      if HasArtifact(docs, d, kind) {
        var i :| 0 <= i < |docs| && docs[i].parent == Some(d) && docs[i].kind == Some(kind);
        assert docs'[i].parent == Some(d) && docs'[i].kind == Some(kind);
      }
    } else {
      DocumentsUntouched(s, op);
    }
  }

  lemma DocumentsUntouched(s: State, op: Op)
    requires !op.SaveArtifact? && !op.Upload?
    ensures After(s, op).documents == s.documents && After(s, op).held == s.held
  {
  }

  lemma NextModuleStable(s: State, s': State, op: Op, req: Request)
    requires s' == After(s, op) && !(op.SaveArtifact? && op.document == req.document)
    ensures NextModule(s', req) == NextModule(s, req)
  {
    hide After, HasArtifact;
    ArtifactsOfOthers(s, op, req.document, TargetKind(req.anonymize));
    ArtifactsOfOthers(s, op, req.document, ConvertMd);
  }

  lemma SingletonStable(s: State, s': State, d: nat, m: Module)
    requires Evolves(s, s') && HasSingleton(s, d, m)
    ensures HasSingleton(s', d, m)
  {
    var i :| 0 <= i < |s.tasks| && s.tasks[i].document == d && s.tasks[i].moduleName == m && s.tasks[i].request.None?;
    assert SameIdentity(s.tasks[i], s'.tasks[i]);
  }

  lemma HasNextStable(s: State, s': State, id: nat)
    requires Evolves(s, s') && id < |s.requests| && HasNext(s, id)
    requires NextModule(s', s.requests[id]) == NextModule(s, s.requests[id])
    ensures HasNext(s', id)
  {
    var req := s.requests[id];
    assert RequestEvolves(req, s'.requests[id]);
    assert NextModule(s', s'.requests[id]) == NextModule(s', req);
    if NextModule(s, req) == ResolveKeys {
      HasStable(s, s', id, ResolveKeys);
    } else {
      SingletonStable(s, s', req.document, NextModule(s, req));
    }
  }

  /** A step that saves no artifact of document d leaves their paths alone. */
  lemma ArtifactPathStable(s: State, op: Op, d: nat, kind: Kind)
    requires DocumentsOk(s) && DocumentsOk(After(s, op)) && d < |s.documents| && !(op.SaveArtifact? && op.document == d)
    requires |After(s, op).documents| > d && After(s, op).documents[d].org == s.documents[d].org
    ensures ArtifactPath(After(s, op).documents, d, s.documents[d].org, kind) ==
            ArtifactPath(s.documents, d, s.documents[d].org, kind)
  {
    hide After, ArtifactPath, DocumentsOk;
    var s' := After(s, op);
    ArtifactsOfOthers(s, op, d, kind);
    ArtifactPathIs(s, d, kind);
    ArtifactPathIs(s', d, kind);
    if HasArtifact(s.documents, d, kind) {
      var i :| 0 <= i < |s.documents| && s.documents[i].parent == Some(d) && s.documents[i].kind == Some(kind);
      RowOfOthers(s, op, d, i);
    }
  }

  lemma RowOfOthers(s: State, op: Op, d: nat, i: nat)
    requires i < |s.documents| && !(op.SaveArtifact? && Some(op.document) == s.documents[i].parent)
    ensures i < |After(s, op).documents| && After(s, op).documents[i] == s.documents[i]
  {
  }

  lemma NextPathStable(s: State, op: Op, id: nat)
    requires Inv(s) && OpOk(s, op) && id < |s.requests| && s.requests[id].document < |s.documents|
    requires !(op.SaveArtifact? && op.document == s.requests[id].document)
    ensures var s', req := After(s, op), s.requests[id];
            id < |s'.requests| && req.document < |s'.documents| && SameRequest(req, s'.requests[id]) &&
            (NextPath(s', s'.requests[id]) == NextPath(s, req) ||
             (s.documents[req.document].parent.Some? && NextPath(s, req) == s.documents[req.document].path))
  {
    hide Inv, OpOk, After, ArtifactPath, DocumentsOk, Evolves;
    var s', req := After(s, op), s.requests[id];
    AfterKeeps(s, op);
    GrownDocuments(s, s', id);
    ArtifactPathStable(s, op, req.document, TargetKind(req.anonymize));
    ArtifactPathStable(s, op, req.document, ConvertMd);
    if s.documents[req.document].parent.None? {
      RowOfOthers(s, op, req.document, req.document);
    }
  }

  lemma GrownDocuments(s: State, s': State, id: nat)
    requires Inv(s) && Kept(s, s') && id < |s.requests| && s.requests[id].document < |s.documents|
    ensures DocumentsOk(s) && DocumentsOk(s') && id < |s'.requests| && SameRequest(s.requests[id], s'.requests[id])
    ensures var d := s.requests[id].document; d < |s'.documents| && s'.documents[d].org == s.documents[d].org
  {
    assert RequestEvolves(s.requests[id], s'.requests[id]);
  }

  lemma ServedStable(s: State, op: Op, id: nat)
    requires Inv(s) && OpOk(s, op) && id < |s.requests| && Served(s, id)
    requires !(op.SaveArtifact? && op.document == s.requests[id].document)
    ensures id < |After(s, op).requests| && Served(After(s, op), id)
  {
    hide Inv, OpOk, After, NextModule, NextPath, HasNext, DocumentsOk;
    var s', req := After(s, op), s.requests[id];
    AfterKeeps(s, op);
    NextPathStable(s, op, id);
    NextModuleStable(s, s', op, req);
    if HasNext(s, id) {
      HasNextStable(s, s', id);
    } else {
      OwnPathHeld(s, req.document);
      if NextPath(s', s'.requests[id]) != NextPath(s, req) || !Settled(s, id) {
        assert BlankOwn(s, req.document);
        BlankOwnStays(s, s', req.document);
      }
    }
  }

  lemma BlankOwnStays(s: State, s': State, d: nat)
    requires Evolves(s, s') && BlankOwn(s, d)
    ensures BlankOwn(s', d)
  {
    var h :| h in s.held && h.document == d && h.role.None? && Blank(h.path);
    assert h in s'.held;
  }

  lemma ResponsibleStable(s: State, s': State, op: Op, id: nat)
    requires Evolves(s, s') && id < |s.requests| && Responsible(s, op, id)
    requires NextModule(s', s.requests[id]) == NextModule(s, s.requests[id])
    ensures Responsible(s', op, id)
  {
    assert RequestEvolves(s.requests[id], s'.requests[id]);
    assert NextModule(s', s'.requests[id]) == NextModule(s', s.requests[id]);
  }

  /** A resolve_keys task implies that its target artifact is registered. */
  lemma ResolveTaskServes(s: State, id: nat)
    requires Inv(s) && HasRequestTask(s, id, ResolveKeys) && id < |s.requests|
    ensures HasTarget(s, s.requests[id]) && HasNext(s, id)
  {
    var i :| 0 <= i < |s.tasks| && s.tasks[i].request == Some(id) && s.tasks[i].moduleName == ResolveKeys;
    assert TaskOk(s, s.tasks[i]);
    var h := Held(s.tasks[i].document, Some(TargetKind(s.requests[id].anonymize)), s.tasks[i].input);
    assert h in s.held;
  }

  // ---- handing responsibility over

  lemma DecideIs(s: State, id: nat, req: Request, doc: Document)
    requires DocumentsOk(s) && req.document < |s.documents| && doc.org == s.documents[req.document].org
    ensures var op, m := Decide(s.documents, id, req, doc), NextModule(s, req);
            if m == ResolveKeys then op == ResolveListKeys(id, req, doc.org, NextPath(s, req))
            else op == EnsureTask(req.document, m, if m == Convert then doc.path else NextPath(s, req))
    ensures NextModule(s, req) == Convert ==> NextPath(s, req) == s.documents[req.document].path
  {
    hide ArtifactPath, DocumentsOk;
    ArtifactPathIs(s, req.document, TargetKind(req.anonymize));
    ArtifactPathIs(s, req.document, ConvertMd);
  }

  lemma DecideHandsOver(s: State, op: Op, id: nat)
    requires Inv(s) && RootPaths(s) && id < |s.requests| && op.ProgressArtifacts? && OpOk(s, op) && op.id == id
    ensures Served(s, id) || Awaited(s, Next(s, op), id)
  {
    hide Inv, DocumentsOk, ArtifactPath, NextPath, NextModule, Decide;
    var req := op.req;
    RowsOk(s, id);
    DecideIs(s, id, req, op.doc);
    SnapshotNext(s, req, s.requests[id]);
    var next := Decide(s.documents, id, req, op.doc);
    assert Next(s, op)[0] == next;
    if Blank(next.path) {
      var h := Held(req.document, None, op.doc.path);
      assert h in s.held;
      assert Served(s, id);
    } else {
      assert Responsible(s, next, id);
    }
  }

  lemma RowsOk(s: State, id: nat)
    requires Inv(s) && id < |s.requests|
    ensures DocumentsOk(s) && s.requests[id].document < |s.documents|
  {
    assert RequestOk(s, id, s.requests[id]);
  }

  lemma SnapshotNext(s: State, a: Request, b: Request)
    requires SameRequest(a, b) && a.document < |s.documents|
    ensures NextModule(s, a) == NextModule(s, b) && NextPath(s, a) == NextPath(s, b)
  {
  }

  lemma ResolveInsertServes(s: State, op: Op, id: nat)
    requires Inv(s) && id < |s.requests| && op.ResolveInsert? && OpOk(s, op) && op.id == id && !Blank(op.path)
    ensures HasRequestTask(After(s, op), id, ResolveKeys)
  {
    hide Evolves;
    assert RequestOk(s, id, s.requests[id]);
    var row := RequestRow(s, id, op.req, ResolveKeys, op.path);
    if InsertOutcome(s, row).Row? {
      InsertedLookups(s, row);
    } else {
      var i :| 0 <= i < |s.tasks| && SameSlot(s.tasks[i], row);
      assert s.tasks[i].request == Some(id) && s.tasks[i].moduleName == ResolveKeys;
    }
  }

  lemma EnsureServes(s: State, op: Op)
    requires op.EnsureTask? && OpOk(s, op) && !Blank(op.path)
    ensures HasSingleton(After(s, op), op.document, op.moduleName)
  {
    var row := EnsureRow(s, op.document, op.moduleName, op.path);
    if InsertOutcome(s, row).Row? {
      InsertedLookups(s, row);
    } else {
      var i :| 0 <= i < |s.tasks| && SameSlot(s.tasks[i], row);
      assert s.tasks[i].document == op.document && s.tasks[i].request.None?;
    }
  }

  lemma ReadHandsOver(s: State, op: Op, id: nat)
    requires Inv(s) && id < |s.requests| && InFlight(s.requests[id]) && OpOk(s, op) && Responsible(s, op, id)
    requires op.ProgressPending? || op.ProgressDocument? || op.ResolveListKeys?
    ensures Awaited(s, Next(s, op), id)
  {
    assert RequestOk(s, id, s.requests[id]);
    var next := Next(s, op);
    if op.ProgressPending? {
      var ids := ListPendingRequests(s.requests, op.document);
      assert id in ids;
      var k :| 0 <= k < |ids| && ids[k] == id;
      assert Responsible(s, next[k], id);
    } else {
      assert Responsible(s, next[0], id);
    }
  }

  lemma HandsOver(s: State, op: Op, id: nat)
    requires Inv(s) && RootPaths(s) && id < |s.requests| && InFlight(s.requests[id]) && OpOk(s, op) &&
             Responsible(s, op, id)
    ensures var s' := After(s, op); id < |s'.requests| && (Served(s', id) || Awaited(s', Next(s, op), id))
  {
    hide Inv, OpOk, Evolves, HasSingleton, HasRequestTask, HasArtifact, NextPath;
    if op.ProgressArtifacts? {
      DecideHandsOver(s, op, id);
    } else if op.ResolveInsert? {
      InsertHandsOver(s, op, id);
      AfterKeeps(s, op);
      RowsOk(After(s, op), id);
    } else if op.EnsureTask? {
      EnsureHandsOver(s, op, id);
      AfterKeeps(s, op);
      RowsOk(After(s, op), id);
    } else {
      ReadHandsOver(s, op, id);
    }
  }

  lemma InsertHandsOver(s: State, op: Op, id: nat)
    requires Inv(s) && id < |s.requests| && OpOk(s, op) && op.ResolveInsert? && op.id == id && !Blank(op.path)
    ensures var s' := After(s, op); id < |s'.requests| && HasNext(s', id)
  {
    hide Inv, OpOk, HasRequestTask, HasNext;
    ResolveInsertServes(s, op, id);
    AfterKeeps(s, op);
    ResolveTaskServes(After(s, op), id);
  }

  lemma EnsureHandsOver(s: State, op: Op, id: nat)
    requires id < |s.requests| && OpOk(s, op) && op.EnsureTask? && Responsible(s, op, id)
    ensures var s' := After(s, op); id < |s'.requests| && HasNext(s', id)
  {
    hide HasSingleton, HasRequestTask;
    EnsureServes(s, op);
    NextModuleStable(s, After(s, op), op, s.requests[id]);
  }

  // ---- one step of one thread

  lemma ChainThreadOk(task: nat, t: Task)
    ensures ThreadOk(Chain(task, t))
  {
    if t.status == Completed && Singleton(t.moduleName) {
      var ops := if t.moduleName == Convert then ConvertOps(task, t) else AnonymizeOps(task, t);
      var chain := Chain(task, t);
      assert chain == ops + [ProgressPending(t.document)];
      forall k | 0 <= k < |chain| && Registers(chain[k]) ensures ProgressPending(chain[k].document) in chain[k + 1..] {
        assert chain[k + 1..][|chain| - k - 2] == ProgressPending(t.document);
      }
    }
  }

  /** New operations register only for the document their parent did. */
  lemma NextRegisters(s: State, op: Op)
    ensures ThreadOk(Next(s, op)) ||
            (Registers(op) && forall k :: 0 <= k < |Next(s, op)| && Registers(Next(s, op)[k]) ==>
            Next(s, op)[k].document == op.document)
  {
    if op.Callback? {
      if op.task < |s.tasks| { ChainThreadOk(op.task, WorkerRow(s.tasks[op.task], op.update)); }
    } else if OfRequest(op) {
      NothingRegisters(s, op);
    }
  }

  lemma NothingRegisters(s: State, op: Op)
    requires OfRequest(op)
    ensures forall k :: 0 <= k < |Next(s, op)| ==> !Registers(Next(s, op)[k])
  {
  }

  lemma ThreadStaysOk(s: State, ops: seq<Op>)
    requires ops != [] && ThreadOk(ops)
    ensures ThreadOk(Next(s, ops[0]) + ops[1..])
  {
    hide Next;
    NextRegisters(s, ops[0]);
    var next := Next(s, ops[0]);
    var ops' := next + ops[1..];
    forall k | 0 <= k < |ops'| && Registers(ops'[k]) ensures ProgressPending(ops'[k].document) in ops'[k + 1..] {
      if k < |next| {
        assert ops'[k + 1..] == next[k + 1..] + ops[1..];
      } else {
        var j := k - |next| + 1;
        assert ops'[k] == ops[j] && ops'[k + 1..] == ops[j + 1..];
      }
    }
  }

  lemma AwaitedAppend(s: State, a: seq<Op>, b: seq<Op>, id: nat)
    requires id < |s.requests|
    ensures Awaited(s, a + b, id) <==> Awaited(s, a, id) || Awaited(s, b, id)
  {
    var ab := a + b;
    if Awaited(s, a, id) {
      var k :| 0 <= k < |a| && Responsible(s, a[k], id);
      assert ab[k] == a[k];
    }
    if Awaited(s, b, id) {
      var k :| 0 <= k < |b| && Responsible(s, b[k], id);
      assert ab[|a| + k] == b[k];
    }
  }

  lemma AwaitedStable(s: State, s': State, ops: seq<Op>, id: nat)
    requires Evolves(s, s') && id < |s.requests| && Awaited(s, ops, id)
    requires NextModule(s', s.requests[id]) == NextModule(s, s.requests[id])
    ensures Awaited(s', ops, id)
  {
    var k :| 0 <= k < |ops| && Responsible(s, ops[k], id);
    ResponsibleStable(s, s', ops[k], id);
  }

  /** The thread that just executed op still answers for the request, or the
      request is served, or it was another thread's business anyway. */
  lemma ExecutedCovers(w: World, i: nat, id: nat)
    requires CoverOk(w, id) && i < |w.threads| && w.threads[i] != [] && id < |w.state.requests|
    requires var op := w.threads[i][0];
             InFlight(w.state.requests[id]) && !(op.SaveArtifact? && op.document == w.state.requests[id].document)
    ensures id < |ExecThread(w, i).state.requests| && Covered(ExecThread(w, i), id)
  {
    hide Inv, OpOk, After, Next, ThreadOk, Balanced, Responsible, NextModule, Served, InFlight;
    var s, ops, w' := w.state, w.threads[i], ExecThread(w, i);
    var op, next, s' := ops[0], Next(w.state, ops[0]), w'.state;
    assert OpsOk(s, ops);
    AfterKeeps(s, op);
    NextModuleStable(s, s', op, s.requests[id]);
    if Served(s, id) {
      ServedStable(s, op, id);
    } else {
      var j :| 0 <= j < |w.threads| && Awaited(s, w.threads[j], id);
      if j != i {
        AwaitedStable(s, s', w.threads[j], id);
        assert w'.threads[j] == w.threads[j];
      } else {
        var k :| 0 <= k < |ops| && Responsible(s, ops[k], id);
        AwaitedAppend(s', next, ops[1..], id);
        assert w'.threads[i] == next + ops[1..];
        if k == 0 {
          HandsOver(s, op, id);
        } else {
          assert ops[1..][k - 1] == ops[k];
          assert Awaited(s, ops[1..], id);
          AwaitedStable(s, s', ops[1..], id);
        }
      }
    }
  }

  /** A request that this very step created, revived or re-staged. */
  lemma ChangedCovers(w: World, i: nat, id: nat)
    requires CoverOk(w, id) && i < |w.threads| && w.threads[i] != [] && id < |ExecThread(w, i).state.requests|
    requires var op, s := w.threads[i][0], w.state;
             id >= |s.requests| || !InFlight(s.requests[id]) ||
             (op.SaveArtifact? && op.document == s.requests[id].document)
    ensures Covered(ExecThread(w, i), id)
  {
    hide Inv, OpOk, After, Next, Balanced;
    var s, ops, w' := w.state, w.threads[i], ExecThread(w, i);
    var op, next, s' := ops[0], Next(w.state, ops[0]), w'.state;
    assert OpsOk(s, ops);
    AfterKeeps(s, op);
    assert w'.threads[i] == next + ops[1..];
    if InFlight(s'.requests[id]) {
      if id >= |s.requests| {
        CreatedAwaited(s, op, id);
        AwaitedAppend(s', next, ops[1..], id);
      } else if !InFlight(s.requests[id]) {
        RevivedServed(s, op, id);
        RowsOk(s', id);
      } else {
        SavedAwaited(s, ops, id);
        AwaitedAppend(s', next, ops[1..], id);
      }
    }
  }

  lemma CreatedAwaited(s: State, op: Op, id: nat)
    requires |s.requests| <= id < |After(s, op).requests|
    ensures Awaited(After(s, op), Next(s, op), id)
  {
    assert op.CreateRequest?;
    assert Responsible(After(s, op), Next(s, op)[0], id);
  }

  lemma StatusOnly(s: State, op: Op, id: nat)
    requires id < |s.requests| && id < |After(s, op).requests| && !InFlight(s.requests[id]) &&
             InFlight(After(s, op).requests[id])
    ensures op.SetRequestStatus? && op.id == id
  {
  }

  lemma RevivedServed(s: State, op: Op, id: nat)
    requires Inv(s) && OpOk(s, op) && id < |s.requests| && id < |After(s, op).requests|
    requires !InFlight(s.requests[id]) && InFlight(After(s, op).requests[id])
    ensures HasNext(After(s, op), id)
  {
    hide Inv, HasNext, HasRequestTask;
    StatusOnly(s, op, id);
    AfterKeeps(s, op);
    HasStable(s, After(s, op), id, ResolveKeys);
    ResolveTaskServes(After(s, op), id);
  }

  lemma SavedAwaited(s: State, ops: seq<Op>, id: nat)
    requires ops != [] && ThreadOk(ops) && ops[0].SaveArtifact? && id < |s.requests| &&
             ops[0].document == s.requests[id].document
    requires |After(s, ops[0]).requests| > id && After(s, ops[0]).requests[id].document == s.requests[id].document
    ensures Awaited(After(s, ops[0]), ops[1..], id)
  {
    hide After;
    var d := ops[0].document;
    assert ProgressPending(d) in ops[0 + 1..];
    var k :| 0 <= k < |ops[1..]| && ops[1..][k] == ProgressPending(d);
    assert Responsible(After(s, ops[0]), ops[1..][k], id);
  }

  lemma RootsStay(s: State, op: Op)
    requires RootPaths(s)
    ensures RootPaths(After(s, op))
  {
    if !op.SaveArtifact? && !op.Upload? { DocumentsUntouched(s, op); }
  }

  lemma ExecCovers(w: World, i: nat, id: nat)
    requires CoverOk(w, id) && i < |w.threads| && w.threads[i] != []
    ensures CoverOk(ExecThread(w, i), id)
  {
    hide WorldOk, Covered, ThreadOk, RootPaths, After, Next;
    var w' := ExecThread(w, i);
    ExecKeeps(w, i);
    ThreadStaysOk(w.state, w.threads[i]);
    RootsStay(w.state, w.threads[i][0]);
    if id < |w'.state.requests| {
      if id >= |w.state.requests| || !InFlight(w.state.requests[id]) ||
         (w.threads[i][0].SaveArtifact? && w.threads[i][0].document == w.state.requests[id].document) {
        ChangedCovers(w, i, id);
      } else {
        ExecutedCovers(w, i, id);
      }
    }
  }

  // ---- whole schedules

  lemma SpawnCovers(w: World, op: Op, id: nat)
    requires CoverOk(w, id) && IsEvent(op)
    ensures CoverOk(Step(w, Spawn(op)), id)
  {
    hide WorldOk, Awaited, Served, RootPaths;
    var w' := Step(w, Spawn(op));
    StepKeeps(w, Spawn(op));
    if id < |w.state.requests| && InFlight(w.state.requests[id]) && !Served(w.state, id) {
      var i :| 0 <= i < |w.threads| && Awaited(w.state, w.threads[i], id);
      assert w'.threads[i] == w.threads[i];
    }
  }

  lemma TickCovers(w: World, d: nat, id: nat)
    requires CoverOk(w, id)
    ensures CoverOk(Step(w, Tick(d)), id)
  {
    hide WorldOk, HasArtifact, ArtifactPath;
    var w' := Step(w, Tick(d));
    StepKeeps(w, Tick(d));
    if id < |w.state.requests| && InFlight(w.state.requests[id]) && !Served(w.state, id) {
      var i :| 0 <= i < |w.threads| && Awaited(w.state, w.threads[i], id);
      AwaitedStable(w.state, w'.state, w.threads[i], id);
    }
  }

  /** The label kills no thread that the request is waiting for, or not the only
      one. */
  ghost predicate Spares(w: World, l: Label, id: nat) {
    l.Crash? && l.thread < |w.threads| && id < |w.state.requests| &&
    InFlight(w.state.requests[id]) && !Served(w.state, id) && Awaited(w.state, w.threads[l.thread], id) ==>
      exists j :: 0 <= j < |w.threads| && j != l.thread && Awaited(w.state, w.threads[j], id)
  }

  ghost predicate Spared(w: World, labels: seq<Label>, id: nat)
    decreases |labels|
  {
    labels == [] || (Spares(w, labels[0], id) && Spared(Step(w, labels[0]), labels[1..], id))
  }

  lemma CrashCovers(w: World, i: nat, id: nat)
    requires CoverOk(w, id) && i < |w.threads| && Spares(w, Crash(i), id)
    ensures CoverOk(Step(w, Crash(i)), id)
  {
    hide WorldOk, Awaited, Served, RootPaths;
    var w' := Step(w, Crash(i));
    StepKeeps(w, Crash(i));
    if id < |w.state.requests| && InFlight(w.state.requests[id]) && !Served(w.state, id) {
      var j :| 0 <= j < |w.threads| && j != i && Awaited(w.state, w.threads[j], id);
      assert w'.threads[j] == w.threads[j];
    }
  }

  lemma {:induction false} StepsCover(w: World, labels: seq<Label>, id: nat)
    requires CoverOk(w, id) && Spared(w, labels, id)
    ensures CoverOk(Steps(w, labels), id)
    decreases |labels|
  {
    hide CoverOk, IsEvent, Spares;
    if labels != [] {
      match labels[0] {
        case Spawn(op) => if IsEvent(op) { SpawnCovers(w, op, id); }
        case Exec(i) => if i < |w.threads| && w.threads[i] != [] { ExecCovers(w, i, id); }
        case Tick(d) => TickCovers(w, d, id);
        case Crash(i) => if i < |w.threads| { CrashCovers(w, i, id); }
      }
      StepsCover(Step(w, labels[0]), labels[1..], id);
    }
  }

  predicate CrashFree(labels: seq<Label>) {
    forall i :: 0 <= i < |labels| ==> !labels[i].Crash?
  }

  lemma {:induction false} CrashFreeSpares(w: World, labels: seq<Label>, id: nat)
    requires CrashFree(labels)
    ensures Spared(w, labels, id)
    decreases |labels|
  {
    if labels != [] {
      CrashFreeSpares(Step(w, labels[0]), labels[1..], id);
    }
  }

  predicate AtRest(w: World) {
    forall i :: 0 <= i < |w.threads| ==> w.threads[i] == []
  }

  /** When every thread has come to rest, a request in flight has the task of its
      next stage, or the path of that stage's input is blank now - whatever was
      killed, as long as it was not the thread that this request waited for. Only
      for a request on a document that is itself an artifact does a blank path in
      the document's own past count as well. */
  lemma NoLostWakeup(w0: World, labels: seq<Label>, id: nat)
    requires Initial(w0) && Spared(w0, labels, id)
    requires var w := Steps(w0, labels); AtRest(w) && id < |w.state.requests| && InFlight(w.state.requests[id])
    ensures var s := Steps(w0, labels).state;
            var d := s.requests[id].document;
            d < |s.documents| && (Settled(s, id) || BlankOwn(s, d)) && (s.documents[d].parent.None? ==> Settled(s, id))
  {
    InitialOk(w0);
    StepsCover(w0, labels, id);
  }
}
