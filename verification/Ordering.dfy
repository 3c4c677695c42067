/** What the order of statements within a thread buys in every reachable world: a
    file is registered before the task that reads it is created, and a request is
    under way before its questions are sent. */
module Ordering {
  import opened Model
  import opened Statements
  import opened Machine
  import opened Invariants
  import opened Preservation
  import opened Interleaving

  /** The task's request has left pending. */
  predicate Started(s: State, t: nat) {
    t < |s.tasks| && s.tasks[t].request.Some? && s.tasks[t].request.value < |s.requests| &&
    s.requests[s.tasks[t].request.value].status != RequestPending
  }

  predicate MarkdownHeld(s: State, d: nat, path: string) {
    Held(d, Some(ConvertMd), path) in s.held
  }

  /** What must have happened before the operation executes. */
  predicate Prepared(s: State, op: Op) {
    match op
    case EnsureTask(d, m, path) => m == Anonymize ==> MarkdownHeld(s, d, path)
    case PublishTask(msg, _) => msg.kwargs.ResolveArgs? ==> Started(s, msg.task)
    case _ => true
  }

  /** An earlier operation of the thread is going to see to it. */
  predicate Prepares(s: State, first: Op, op: Op) {
    match first
    case LoadParent(_, d, found) =>
      op.EnsureTask? && op.moduleName == Anonymize && op.document == d && found == Markdown(op.path)
    case SaveArtifact(_, d, _, kind, path, _, _) =>
      op.EnsureTask? && op.moduleName == Anonymize && op.document == d && kind == ConvertMd && path == op.path
    case SetRequestStatus(id, status, _) =>
      op.PublishTask? && status != RequestPending && op.msg.task < |s.tasks| &&
      s.tasks[op.msg.task].request == Some(id)
    case _ => false
  }

  predicate Preceded(s: State, ops: seq<Op>, k: nat)
    requires k < |ops|
  {
    exists j :: 0 <= j < k && Prepares(s, ops[j], ops[k])
  }

  predicate InOrder(s: State, ops: seq<Op>) {
    forall k :: 0 <= k < |ops| ==> Prepared(s, ops[k]) || Preceded(s, ops, k)
  }

  predicate OrderKept(s: State) {
    (forall t :: 0 <= t < |s.tasks| && s.tasks[t].moduleName == Anonymize ==>
      MarkdownHeld(s, s.tasks[t].document, s.tasks[t].input)) &&
    forall k :: 0 <= k < |s.log| && s.log[k].msg.kwargs.ResolveArgs? ==> Started(s, s.log[k].msg.task)
  }

  ghost predicate OrderOk(w: World) {
    WorldOk(w) && OrderKept(w.state) && forall i :: 0 <= i < |w.threads| ==> InOrder(w.state, w.threads[i])
  }

  // ---- nothing undoes it

  lemma StartedStays(s: State, s': State, t: nat)
    requires Evolves(s, s') && Started(s, t)
    ensures Started(s', t)
  {
    assert SameIdentity(s.tasks[t], s'.tasks[t]);
    assert RequestEvolves(s.requests[s.tasks[t].request.value], s'.requests[s.tasks[t].request.value]);
  }

  lemma PreparedStays(s: State, s': State, op: Op)
    requires Evolves(s, s') && Prepared(s, op)
    ensures Prepared(s', op)
  {
    hide Started;
    if op.PublishTask? && op.msg.kwargs.ResolveArgs? {
      StartedStays(s, s', op.msg.task);
    }
  }

  lemma PreparesStays(s: State, s': State, first: Op, op: Op)
    requires Evolves(s, s') && Prepares(s, first, op)
    ensures Prepares(s', first, op)
  {
    assert op.PublishTask? ==> SameIdentity(s.tasks[op.msg.task], s'.tasks[op.msg.task]);
  }

  lemma InOrderStays(s: State, s': State, ops: seq<Op>)
    requires Evolves(s, s') && InOrder(s, ops)
    ensures InOrder(s', ops)
  {
    hide Evolves, Prepared, Prepares;
    forall k | 0 <= k < |ops| ensures Prepared(s', ops[k]) || Preceded(s', ops, k) {
      if Prepared(s, ops[k]) {
        PreparedStays(s, s', ops[k]);
      } else {
        var j :| 0 <= j < k && Prepares(s, ops[j], ops[k]);
        PreparesStays(s, s', ops[j], ops[k]);
      }
    }
  }

  // ---- what an operation leaves behind is in order

  lemma ChainInOrder(s: State, task: nat, t: Task)
    ensures InOrder(s, Chain(task, t))
  {
    var chain := Chain(task, t);
    if t.moduleName == Convert && t.status == Completed && |chain| == 3 {
      assert Prepares(s, chain[0], chain[1]);
      assert Preceded(s, chain, 1);
    }
  }

  lemma DecideInOrder(s: State, op: Op)
    requires Inv(s) && OpOk(s, op) && op.ProgressArtifacts?
    ensures InOrder(s, Next(s, op))
  {
    hide ArtifactPath, DocumentsOk;
    ArtifactPathIs(s, op.req.document, ConvertMd);
  }

  lemma AskInOrder(s: State, op: Op)
    requires OpOk(s, op) && op.ResolveInsert?
    ensures InOrder(After(s, op), Next(s, op))
  {
    var next, s' := Next(s, op), After(s, op);
    if next != [] {
      if op.req.status == RequestPending {
        assert Prepares(s', next[0], next[1]);
        assert Preceded(s', next, 1);
      } else {
        assert Started(s', |s.tasks|);
      }
    }
  }

  /** The others neither create an anonymize task nor send questions. */
  predicate Harmless(op: Op) {
    !(op.EnsureTask? && op.moduleName == Anonymize) && !(op.PublishTask? && op.msg.kwargs.ResolveArgs?)
  }

  lemma RequestHarmless(s: State, op: Op)
    requires OfRequest(op) && !op.ProgressArtifacts? && !op.ResolveInsert?
    ensures forall k :: 0 <= k < |Next(s, op)| ==> Harmless(Next(s, op)[k])
  {
  }

  lemma CallbackHarmless(s: State, op: Op)
    requires OfCallback(op) && !op.Callback?
    ensures forall k :: 0 <= k < |Next(s, op)| ==> Harmless(Next(s, op)[k])
  {
    hide ArtifactRow, ListPendingRequests;
  }

  lemma RestHarmless(s: State, op: Op)
    requires !OfRequest(op) && !OfCallback(op)
    ensures forall k :: 0 <= k < |Next(s, op)| ==> Harmless(Next(s, op)[k])
  {
    hide ArtifactPath, InsertOutcome, Writes, ListStaleTasks;
  }

  lemma NextInOrder(s: State, op: Op)
    requires Inv(s) && OpOk(s, op)
    ensures InOrder(After(s, op), Next(s, op))
  {
    hide Inv, OpOk, After, Next, InOrder, OfRequest, OfCallback;
    if op.Callback? {
      CallbackInOrder(s, op);
    } else if op.ProgressArtifacts? {
      DecideInOrder(s, op);
      DecideReads(s, op);
    } else if op.ResolveInsert? {
      AskInOrder(s, op);
    } else {
      if OfRequest(op) {
        RequestHarmless(s, op);
      } else if OfCallback(op) {
        CallbackHarmless(s, op);
      } else {
        RestHarmless(s, op);
      }
      HarmlessInOrder(After(s, op), Next(s, op));
    }
  }

  lemma CallbackInOrder(s: State, op: Op)
    requires op.Callback?
    ensures InOrder(After(s, op), Next(s, op))
  {
    hide Chain, InOrder;
    if op.task < |s.tasks| {
      ChainInOrder(After(s, op), op.task, WorkerRow(s.tasks[op.task], op.update));
    } else {
      HarmlessInOrder(After(s, op), []);
    }
  }

  lemma DecideReads(s: State, op: Op)
    requires op.ProgressArtifacts?
    ensures After(s, op) == s
  {
  }

  lemma HarmlessInOrder(s: State, ops: seq<Op>)
    requires forall k :: 0 <= k < |ops| ==> Harmless(ops[k])
    ensures InOrder(s, ops)
  {
    hide Started;
  }

  /** An operation that was to prepare another has done so, or hands it on. */
  lemma Handed(s: State, first: Op, op: Op)
    requires OpOk(s, first) && Prepares(s, first, op) && Evolves(s, After(s, first))
    ensures var s' := After(s, first);
            Prepared(s', op) || (Next(s, first) != [] && Prepares(s', Next(s, first)[0], op))
  {
    hide Evolves;
  }

  lemma RestInOrder(s: State, ops: seq<Op>, k: nat)
    requires Inv(s) && OpsOk(s, ops) && InOrder(s, ops) && 0 < k < |ops|
    ensures var s', next := After(s, ops[0]), Next(s, ops[0]);
            var ops' := next + ops[1..];
            Prepared(s', ops[k]) || Preceded(s', ops', |next| + k - 1)
  {
    hide Inv, OpOk, Evolves, After, Next, Prepared, Prepares;
    var s', next := After(s, ops[0]), Next(s, ops[0]);
    var ops' := next + ops[1..];
    AfterKeeps(s, ops[0]);
    assert ops'[|next| + k - 1] == ops[k];
    if Prepared(s, ops[k]) {
      PreparedStays(s, s', ops[k]);
    } else {
      var j :| 0 <= j < k && Prepares(s, ops[j], ops[k]);
      if j > 0 {
        PreparesStays(s, s', ops[j], ops[k]);
        assert ops'[|next| + j - 1] == ops[j];
      } else {
        Handed(s, ops[0], ops[k]);
        assert next != [] ==> ops'[0] == next[0];
      }
    }
  }

  lemma ThreadInOrder(s: State, ops: seq<Op>)
    requires Inv(s) && ops != [] && OpsOk(s, ops) && InOrder(s, ops)
    ensures InOrder(After(s, ops[0]), Next(s, ops[0]) + ops[1..])
  {
    hide Inv, OpOk, After, Next, Prepared, Prepares;
    var s', next := After(s, ops[0]), Next(s, ops[0]);
    var ops' := next + ops[1..];
    NextInOrder(s, ops[0]);
    forall k | 0 <= k < |ops'| ensures Prepared(s', ops'[k]) || Preceded(s', ops', k) {
      if k < |next| {
        if !Prepared(s', next[k]) {
          var j :| 0 <= j < k && Prepares(s', next[j], next[k]);
          assert Prepares(s', ops'[j], ops'[k]);
        }
      } else {
        RestInOrder(s, ops, k - |next| + 1);
      }
    }
  }

  // ---- the rows and the log

  lemma StepKeepsOrder(s: State, op: Op)
    requires Inv(s) && OpOk(s, op) && Prepared(s, op) && OrderKept(s)
    ensures OrderKept(After(s, op))
  {
    hide Inv, OpOk, After, Prepared;
    var s' := After(s, op);
    AfterKeeps(s, op);
    forall t | 0 <= t < |s'.tasks| && s'.tasks[t].moduleName == Anonymize
      ensures MarkdownHeld(s', s'.tasks[t].document, s'.tasks[t].input)
    {
      if t < |s.tasks| {
        OldTask(s, s', t);
      } else {
        NewAnonymize(s, op, t);
      }
    }
    forall k | 0 <= k < |s'.log| && s'.log[k].msg.kwargs.ResolveArgs? ensures Started(s', s'.log[k].msg.task) {
      if k < |s.log| {
        OldAttempt(s, s', k);
        StartedStays(s, s', s.log[k].msg.task);
      } else {
        NewAttempt(s, op, k);
      }
    }
  }

  lemma OldTask(s: State, s': State, t: nat)
    requires Evolves(s, s') && t < |s.tasks|
    ensures t < |s'.tasks| && SameIdentity(s.tasks[t], s'.tasks[t]) && s.held <= s'.held
  {
  }

  lemma OldAttempt(s: State, s': State, k: nat)
    requires Evolves(s, s') && k < |s.log|
    ensures k < |s'.log| && s'.log[k] == s.log[k]
  {
  }

  lemma NewAnonymize(s: State, op: Op, t: nat)
    requires Prepared(s, op) && |s.tasks| <= t < |After(s, op).tasks| && After(s, op).tasks[t].moduleName == Anonymize
    ensures var s' := After(s, op); MarkdownHeld(s', s'.tasks[t].document, s'.tasks[t].input)
  {
    hide Started;
  }

  lemma NewAttempt(s: State, op: Op, k: nat)
    requires OpOk(s, op) && Prepared(s, op) && |s.log| <= k < |After(s, op).log|
    requires After(s, op).log[k].msg.kwargs.ResolveArgs?
    ensures Started(After(s, op), After(s, op).log[k].msg.task)
  {
    hide After, Started;
    if op.PublishTask? {
      PublishStep(s, op.msg, op.onError);
      SameStart(s, Publish(s, op.msg), op.msg.task);
    } else if op.Republish? {
      RepublishStep(s, op.msg, op.attempt);
    } else {
      OnlyPublishes(s, op);
    }
  }

  lemma OnlyPublishes(s: State, op: Op)
    requires !op.PublishTask? && !op.Republish?
    ensures After(s, op).log == s.log
  {
  }

  lemma SameStart(s: State, s': State, t: nat)
    requires s'.tasks == s.tasks && s'.requests == s.requests
    ensures Started(s', t) <==> Started(s, t)
  {
  }

  // ---- whole schedules

  lemma ExecInOrder(w: World, i: nat)
    requires OrderOk(w) && i < |w.threads| && w.threads[i] != []
    ensures OrderOk(ExecThread(w, i))
  {
    hide Inv, OpOk, After, Next, Balanced, InOrder, OrderKept, Evolves, Prepared;
    var s, ops, w' := w.state, w.threads[i], ExecThread(w, i);
    ExecKeeps(w, i);
    assert OpsOk(s, ops);
    assert InOrder(s, ops);
    FirstPrepared(s, ops);
    StepKeepsOrder(s, ops[0]);
    ThreadInOrder(s, ops);
    forall j | 0 <= j < |w'.threads| ensures InOrder(w'.state, w'.threads[j]) {
      if j != i {
        assert w'.threads[j] == w.threads[j];
        InOrderStays(s, w'.state, w.threads[j]);
      }
    }
  }

  lemma FirstPrepared(s: State, ops: seq<Op>)
    requires ops != [] && InOrder(s, ops)
    ensures Prepared(s, ops[0])
  {
    assert Prepared(s, ops[0]) || Preceded(s, ops, 0);
  }

  lemma OrderStays(s: State, s': State)
    requires OrderKept(s) && s' == s.(clock := s'.clock)
    ensures OrderKept(s')
  {
  }

  lemma RestKeepsOrder(w: World, l: Label)
    requires OrderOk(w) && !l.Exec?
    ensures OrderOk(Step(w, l))
  {
    hide WorldOk, OrderKept, Prepared, Prepares, Evolves, IsEvent;
    var w' := Step(w, l);
    StepKeeps(w, l);
    OrderStays(w.state, w'.state);
    forall j | 0 <= j < |w'.threads| ensures InOrder(w'.state, w'.threads[j]) {
      if j < |w.threads| && w'.threads[j] == w.threads[j] {
        InOrderStays(w.state, w'.state, w.threads[j]);
      } else if l.Spawn? {
        EventInOrder(w'.state, l.op);
      }
    }
  }

  lemma EventInOrder(s: State, op: Op)
    requires IsEvent(op)
    ensures InOrder(s, [op])
  {
    HarmlessInOrder(s, [op]);
  }

  lemma {:induction false} StepsKeepOrder(w: World, labels: seq<Label>)
    requires OrderOk(w)
    ensures OrderOk(Steps(w, labels))
    decreases |labels|
  {
    hide OrderOk;
    if labels != [] {
      var l := labels[0];
      if !l.Exec? {
        RestKeepsOrder(w, l);
      } else if l.thread < |w.threads| && w.threads[l.thread] != [] {
        ExecInOrder(w, l.thread);
      }
      StepsKeepOrder(Step(w, l), labels[1..]);
    }
  }

  lemma ReachableInOrder(w: World)
    requires Reachable(w)
    ensures OrderOk(w)
  {
    hide WorldOk;
    var w0, labels :| Initial(w0) && w == Steps(w0, labels);
    InitialOk(w0);
    StepsKeepOrder(w0, labels);
  }

  /** In every reachable world, crashes included, a document with an anonymize task
      has its markdown file registered, and the task reads a path that the file has
      held: it is registered first, and unconditionally. */
  lemma MarkdownFirst(w: World, t: nat)
    requires Reachable(w) && t < |w.state.tasks| && w.state.tasks[t].moduleName == Anonymize
    ensures var s := w.state;
            HasArtifact(s.documents, s.tasks[t].document, ConvertMd) &&
            Held(s.tasks[t].document, Some(ConvertMd), s.tasks[t].input) in s.held
  {
    ReachableInOrder(w);
    var h := Held(w.state.tasks[t].document, Some(ConvertMd), w.state.tasks[t].input);
    assert MarkdownHeld(w.state, h.document, h.path);
    assert h in w.state.held;
  }

  /** In every reachable world, no request whose questions have been sent is
      pending: it is set running before the publish. */
  lemma RunningFirst(w: World, k: nat)
    requires Reachable(w) && k < |w.state.log| && w.state.log[k].msg.kwargs.ResolveArgs?
    ensures var s, t := w.state, w.state.log[k].msg.task;
            t < |s.tasks| && s.tasks[t].request.Some? && s.tasks[t].request.value < |s.requests| &&
            s.requests[s.tasks[t].request.value].status != RequestPending
  {
    ReachableInOrder(w);
    assert Started(w.state, w.state.log[k].msg.task);
  }
}
