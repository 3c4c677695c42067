/** The second half of the wakeup result: once a schema is stored, the extract
    task follows, however the threads interleave. */
module Followup {
  import opened Model
  import opened Statements
  import opened Machine
  import opened Invariants
  import opened Preservation
  import opened Interleaving
  import opened Wakeup
  import opened Replay

  /** The operation is going to insert, or find, the request's extract task. */
  predicate Pursues(op: Op, id: nat) {
    (op.ExtractDocument? || op.ExtractArtifacts? || op.ExtractInsert?) && op.id == id
  }

  predicate Pursued(ops: seq<Op>, id: nat) {
    exists k :: 0 <= k < |ops| && Pursues(ops[k], id)
  }

  /** The artifact that the request's extract task reads has had a blank path,
      which the check on input_storage_path refuses. */
  ghost predicate BlankTarget(s: State, id: nat)
    requires id < |s.requests|
  {
    exists h :: h in s.held && h.document == s.requests[id].document &&
                h.role == Some(TargetKind(s.requests[id].anonymize)) && Blank(h.path)
  }

  ghost predicate Closed(s: State, id: nat)
    requires id < |s.requests|
  {
    HasRequestTask(s, id, Extract) || BlankTarget(s, id)
  }

  ghost predicate Followed(w: World, id: nat)
    requires id < |w.state.requests|
  {
    w.state.requests[id].schema != [] ==>
      Closed(w.state, id) || exists i :: 0 <= i < |w.threads| && Pursued(w.threads[i], id)
  }

  ghost predicate FollowOk(w: World, id: nat) {
    WorldOk(w) && (id < |w.state.requests| ==> Followed(w, id))
  }

  lemma ClosedStable(s: State, s': State, id: nat)
    requires Evolves(s, s') && id < |s.requests| && Closed(s, id)
    ensures id < |s'.requests| && Closed(s', id)
  {
    assert RequestEvolves(s.requests[id], s'.requests[id]);
    if HasRequestTask(s, id, Extract) {
      HasStable(s, s', id, Extract);
    } else {
      var h :| h in s.held && h.document == s.requests[id].document &&
               h.role == Some(TargetKind(s.requests[id].anonymize)) && Blank(h.path);
      assert h in s'.held;
    }
  }

  lemma PursuedAppend(a: seq<Op>, b: seq<Op>, id: nat)
    ensures Pursued(a + b, id) <==> Pursued(a, id) || Pursued(b, id)
  {
    var ab := a + b;
    if Pursued(a, id) {
      var k :| 0 <= k < |a| && Pursues(a[k], id);
      assert ab[k] == a[k];
    }
    if Pursued(b, id) {
      var k :| 0 <= k < |b| && Pursues(b[k], id);
      assert ab[|a| + k] == b[k];
    }
  }

  lemma ReadPursues(s: State, op: Op)
    requires Inv(s) && OpOk(s, op) && (op.ExtractDocument? || op.ExtractArtifacts?)
    ensures Pursued(Next(s, op), op.id)
  {
    hide Inv, ArtifactPath, DocumentsOk, HasRequestTask;
    TargetThere(s, op.id);
    assert Pursues(Next(s, op)[0], op.id);
  }

  lemma InsertCloses(s: State, op: Op)
    requires Inv(s) && op.ExtractInsert? && OpOk(s, op)
    ensures var s' := After(s, op); op.id < |s'.requests| && Closed(s', op.id)
  {
    hide Inv, Evolves, Blank;
    RowsOk(s, op.id);
    AfterKeeps(s, op);
    var row := RequestRow(s, op.id, op.req, Extract, op.path);
    match InsertOutcome(s, row)
    case Row(_) => InsertedLookups(s, row);
    case Conflict =>
      var i :| 0 <= i < |s.tasks| && SameSlot(s.tasks[i], row);
      assert s.tasks[i].request == Some(op.id) && s.tasks[i].moduleName == Extract;
    case Rejected =>
      var h := Held(op.req.document, Some(TargetKind(op.req.anonymize)), op.path);
      assert h in s.held && Blank(h.path);
  }

  lemma SchemaOnly(s: State, op: Op, id: nat)
    requires id < |s.requests| && !(op.SetSchema? && op.id == id)
    ensures id < |After(s, op).requests| && After(s, op).requests[id].schema == s.requests[id].schema
  {
  }

  lemma NewRequestBare(s: State, op: Op, id: nat)
    requires |s.requests| <= id < |After(s, op).requests|
    ensures After(s, op).requests[id].schema == []
  {
  }

  lemma SchemaPursued(s: State, op: Op)
    requires op.SetSchema? && op.id < |s.requests|
    ensures Pursued(Next(s, op), op.id)
  {
    SetSchemaStep(s, op.id, op.req, op.schema);
    assert Pursues(Next(s, op)[0], op.id);
  }

  lemma ExecFollows(w: World, i: nat, id: nat)
    requires FollowOk(w, id) && i < |w.threads| && w.threads[i] != []
    ensures FollowOk(ExecThread(w, i), id)
  {
    hide Inv, OpOk, After, Next, Evolves, Balanced, Closed, Pursues;
    var s, ops, w' := w.state, w.threads[i], ExecThread(w, i);
    var op, next, s' := ops[0], Next(w.state, ops[0]), w'.state;
    ExecKeeps(w, i);
    assert OpsOk(s, ops) && w'.threads[i] == next + ops[1..];
    PursuedAppend(next, ops[1..], id);
    if id < |s'.requests| && s'.requests[id].schema != [] && !Closed(s', id) {
      if id >= |s.requests| {
        NewRequestBare(s, op, id);
      } else if op.SetSchema? && op.id == id {
        SchemaPursued(s, op);
      } else {
        SchemaOnly(s, op, id);
        if Closed(s, id) { ClosedStable(s, s', id); }
        var j :| 0 <= j < |w.threads| && Pursued(w.threads[j], id);
        if j == i {
          PursuerExecuted(s, ops, id);
        } else {
          assert w'.threads[j] == w.threads[j];
        }
      }
    }
  }

  lemma PursuerExecuted(s: State, ops: seq<Op>, id: nat)
    requires Inv(s) && ops != [] && OpOk(s, ops[0]) && Pursued(ops, id)
    ensures var s' := After(s, ops[0]);
            Pursued(Next(s, ops[0]), id) || Pursued(ops[1..], id) || (id < |s'.requests| && Closed(s', id))
  {
    hide Inv, OpOk, After, Next, Closed;
    var k :| 0 <= k < |ops| && Pursues(ops[k], id);
    if k > 0 {
      assert ops[1..][k - 1] == ops[k];
    } else if ops[0].ExtractInsert? {
      InsertCloses(s, ops[0]);
    } else {
      ReadPursues(s, ops[0]);
    }
  }

  /** The label kills no thread that is the only one still to insert the extract
      task. */
  ghost predicate SparesFollowup(w: World, l: Label, id: nat) {
    l.Crash? && l.thread < |w.threads| && id < |w.state.requests| && w.state.requests[id].schema != [] &&
    !Closed(w.state, id) && Pursued(w.threads[l.thread], id) ==>
      exists j :: 0 <= j < |w.threads| && j != l.thread && Pursued(w.threads[j], id)
  }

  ghost predicate SparedFollowup(w: World, labels: seq<Label>, id: nat)
    decreases |labels|
  {
    labels == [] || (SparesFollowup(w, labels[0], id) && SparedFollowup(Step(w, labels[0]), labels[1..], id))
  }

  lemma RestFollows(w: World, l: Label, id: nat)
    requires FollowOk(w, id) && !l.Exec? && SparesFollowup(w, l, id)
    ensures FollowOk(Step(w, l), id)
  {
    hide WorldOk, Evolves, Pursued, Closed, IsEvent;
    var w' := Step(w, l);
    StepKeeps(w, l);
    if id < |w.state.requests| && w.state.requests[id].schema != [] {
      if Closed(w.state, id) {
        ClosedStable(w.state, w'.state, id);
      } else {
        var j :| 0 <= j < |w.threads| && Pursued(w.threads[j], id) && l != Crash(j);
        assert w'.threads[j] == w.threads[j];
      }
    }
  }

  lemma {:induction false} StepsFollow(w: World, labels: seq<Label>, id: nat)
    requires FollowOk(w, id) && SparedFollowup(w, labels, id)
    ensures FollowOk(Steps(w, labels), id)
    decreases |labels|
  {
    hide FollowOk, SparesFollowup, ExecThread;
    if labels != [] {
      match labels[0] {
        case Exec(i) => if i < |w.threads| && w.threads[i] != [] { ExecFollows(w, i, id); }
        case _ => RestFollows(w, labels[0], id);
      }
      StepsFollow(Step(w, labels[0]), labels[1..], id);
    }
  }

  /** At rest, a request with a stored schema has its extract task, whatever its
      status, unless the artifact that the task would read has had a blank path;
      and whatever was killed, as long as it was not the only thread still to
      insert that task. */
  lemma ExtractFollows(w0: World, labels: seq<Label>, id: nat)
    requires Initial(w0) && SparedFollowup(w0, labels, id)
    requires var w := Steps(w0, labels); AtRest(w) && id < |w.state.requests| && w.state.requests[id].schema != []
    ensures var s := Steps(w0, labels).state; HasRequestTask(s, id, Extract) || BlankTarget(s, id)
  {
    InitialOk(w0);
    StepsFollow(w0, labels, id);
  }
}
