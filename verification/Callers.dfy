/** What a caller asks for is what the pipeline works on: every request row comes
    from a call, and its later tasks and messages from what that call said. */
module Callers {
  import opened Model
  import opened Statements
  import opened Machine
  import opened Invariants
  import opened Interleaving
  import opened Atomic
  import opened Safety
  import opened Effects
  import opened Outcomes

  predicate Called(calls: seq<Label>, document: nat, org: nat, questions: seq<string>, anonymize: bool) {
    Spawn(CheckDocument(document, org, questions, anonymize)) in calls
  }

  /** A call on its way to its request row. */
  predicate OpCalled(calls: seq<Label>, op: Op) {
    (op.CheckDocument? || op.CreateRequest?) ==> Called(calls, op.document, op.org, op.questions, op.anonymize)
  }

  predicate OpsCalled(calls: seq<Label>, ops: seq<Op>) {
    forall k :: 0 <= k < |ops| ==> OpCalled(calls, ops[k])
  }

  predicate RowCalled(calls: seq<Label>, r: Request) {
    Called(calls, r.document, r.org, r.questions, r.anonymize)
  }

  ghost predicate AllCalled(w: World, calls: seq<Label>) {
    WorldOk(w) && (forall r :: 0 <= r < |w.state.requests| ==> RowCalled(calls, w.state.requests[r])) &&
    forall i :: 0 <= i < |w.threads| ==> OpsCalled(calls, w.threads[i])
  }

  lemma RequestNextCalled(s: State, op: Op, calls: seq<Label>)
    requires OpCalled(calls, op) && OfRequest(op)
    ensures OpsCalled(calls, Next(s, op))
  {
    hide Called, ArtifactPath, InsertOutcome;
  }

  lemma RestNextCalled(s: State, op: Op, calls: seq<Label>)
    requires !OfRequest(op)
    ensures OpsCalled(calls, Next(s, op))
  {
    hide Called, ArtifactPath, InsertOutcome, Writes, ListPendingRequests, ArtifactRow, ListStaleTasks;
  }

  lemma NextCalled(s: State, op: Op, calls: seq<Label>)
    requires OpCalled(calls, op)
    ensures OpsCalled(calls, Next(s, op))
  {
    hide OpCalled, Next;
    if OfRequest(op) {
      RequestNextCalled(s, op, calls);
    } else {
      RestNextCalled(s, op, calls);
    }
  }

  /** Only CreateRequest adds a row, and the row says what the call said. */
  lemma NewRowCalled(s: State, op: Op, calls: seq<Label>, r: nat)
    requires OpCalled(calls, op) && |s.requests| <= r < |After(s, op).requests|
    ensures RowCalled(calls, After(s, op).requests[r])
  {
    hide Called;
  }

  lemma OldRowCalled(s: State, s': State, calls: seq<Label>, r: nat)
    requires Evolves(s, s') && r < |s.requests| && RowCalled(calls, s.requests[r])
    ensures r < |s'.requests| && RowCalled(calls, s'.requests[r])
  {
    assert RequestEvolves(s.requests[r], s'.requests[r]);
  }

  lemma ExecCalled(w: World, i: nat, calls: seq<Label>)
    requires AllCalled(w, calls) && i < |w.threads| && w.threads[i] != []
    ensures AllCalled(ExecThread(w, i), calls)
  {
    hide WorldOk, After, Next, RowCalled, OpCalled, Evolves;
    var s, ops, w' := w.state, w.threads[i], ExecThread(w, i);
    ExecKeeps(w, i);
    assert OpCalled(calls, ops[0]);
    NextCalled(s, ops[0], calls);
    forall r | 0 <= r < |w'.state.requests| ensures RowCalled(calls, w'.state.requests[r]) {
      if r < |s.requests| {
        OldRowCalled(s, w'.state, calls, r);
      } else {
        NewRowCalled(s, ops[0], calls, r);
      }
    }
  }

  lemma RestCalled(w: World, l: Label, calls: seq<Label>)
    requires AllCalled(w, calls) && !l.Exec? && l in calls
    ensures AllCalled(Step(w, l), calls)
  {
    hide WorldOk, RowCalled, Evolves;
    StepKeeps(w, l);
    var w' := Step(w, l);
    forall i | 0 <= i < |w'.threads| ensures OpsCalled(calls, w'.threads[i]) {
      if i < |w.threads| {
        assert OpsCalled(calls, w.threads[i]);
      }
    }
  }

  lemma {:induction false} StepsCalled(w: World, labels: seq<Label>, calls: seq<Label>)
    requires AllCalled(w, calls) && forall l :: l in labels ==> l in calls
    ensures AllCalled(Steps(w, labels), calls)
    decreases |labels|
  {
    hide AllCalled;
    if labels != [] {
      var l := labels[0];
      if !l.Exec? {
        RestCalled(w, l, calls);
      } else if l.thread < |w.threads| && w.threads[l.thread] != [] {
        ExecCalled(w, l.thread, calls);
      }
      StepsCalled(Step(w, l), labels[1..], calls);
    }
  }

  /** In every schedule, each request row has the document, the tenant, the
      questions and the anonymize flag of a call that the schedule made, and the
      document belongs to that tenant. */
  lemma RequestsAsCalled(w0: World, labels: seq<Label>, r: nat)
    requires Initial(w0) && r < |Steps(w0, labels).state.requests|
    ensures var s := Steps(w0, labels).state;
            var req := s.requests[r];
            Spawn(CheckDocument(req.document, req.org, req.questions, req.anonymize)) in labels &&
            req.document < |s.documents| && s.documents[req.document].org == req.org
  {
    hide Inv, Balanced;
    InitialOk(w0);
    NobodyCalled(w0, labels);
    StepsCalled(w0, labels, labels);
    var s := Steps(w0, labels).state;
    assert RowCalled(labels, s.requests[r]);
    RowThere(s, r);
  }

  lemma NobodyCalled(w: World, calls: seq<Label>)
    requires Initial(w) && WorldOk(w)
    ensures AllCalled(w, calls)
  {
  }

  lemma RowThere(s: State, r: nat)
    requires Inv(s) && r < |s.requests|
    ensures s.requests[r].document < |s.documents| && s.documents[s.requests[r].document].org == s.requests[r].org
  {
    assert RequestOk(s, r, s.requests[r]);
  }

  // ---- from the call to the messages

  /** The path is one that the file the caller wanted has held. */
  predicate Wanted(s: State, d: nat, anonymize: bool, path: string) {
    Held(d, Some(if anonymize then AnonymizeDoc else ConvertMd), path) in s.held
  }

  lemma InitiatedWorld(w: World, d: nat, questions: seq<string>, anonymize: bool, later: seq<Label>)
    requires Reachable(w) && d < |w.state.documents| && questions != []
    ensures var org, r := w.state.documents[d].org, |w.state.requests|;
            var w1 := World(Run(w.state, [CheckDocument(d, org, questions, anonymize)]), w.threads + [[]]);
            var s := Steps(w1, later).state;
            Reachable(Steps(w1, later)) && r < |s.requests| &&
            s.requests[r].document == d && s.requests[r].org == org &&
            s.requests[r].questions == questions && s.requests[r].anonymize == anonymize
  {
    hide Run, Initial, Step, Steps, WorldOk, Initiated, Evolves;
    var org, r := w.state.documents[d].org, |w.state.requests|;
    var check := CheckDocument(d, org, questions, anonymize);
    var w0, before :| Initial(w0) && w == Steps(w0, before);
    var call := AtomicEvent(w, check);
    var w1 := Steps(w, call);
    StepsAppend(w, call, later);
    StepsAppend(w0, before, call + later);
    assert Reachable(Steps(w1, later));
    StepsAppend(w0, before, call);
    assert Reachable(w1);
    ReachableOk(w1);
    StepsKeep(w1, later);
    InitiateIs(w.state, d, questions, anonymize);
    InitiatedRow(w.state, d, org, questions, anonymize);
    SameRow(w1.state, Steps(w1, later).state, r);
  }

  lemma SameRow(s: State, s': State, r: nat)
    requires Evolves(s, s') && r < |s.requests|
    ensures r < |s'.requests| && SameRequest(s.requests[r], s'.requests[r])
  {
    assert RequestEvolves(s.requests[r], s'.requests[r]);
  }

  /** After a successful Initiate, whatever happens later: every task of that
      request, and every message ever published for it, is for the document of the
      call and carries a path that the anonymized file has held, if the call asked
      for it, and that the markdown file has held, if it did not. */
  lemma InitiatedPaths(w: World, d: nat, questions: seq<string>, anonymize: bool, later: seq<Label>, t: nat)
    requires Reachable(w) && d < |w.state.documents| && questions != []
    requires var w1 := World(Run(w.state, [CheckDocument(d, w.state.documents[d].org, questions, anonymize)]),
                             w.threads + [[]]);
             var s := Steps(w1, later).state;
             t < |s.tasks| && s.tasks[t].request == Some(|w.state.requests|)
    ensures var w1 := World(Run(w.state, [CheckDocument(d, w.state.documents[d].org, questions, anonymize)]),
                            w.threads + [[]]);
            var s := Steps(w1, later).state;
            s.tasks[t].document == d && Wanted(s, d, anonymize, s.tasks[t].input) &&
            forall k :: 0 <= k < |s.log| && s.log[k].msg.task == t ==>
              s.log[k].msg.document == d && Wanted(s, d, anonymize, s.log[k].msg.path) &&
              (s.log[k].msg.kwargs.ResolveArgs? ==> s.log[k].msg.kwargs.questions == questions)
  {
    hide Run, Steps, Reachable;
    var w1 := World(Run(w.state, [CheckDocument(d, w.state.documents[d].org, questions, anonymize)]),
                    w.threads + [[]]);
    var w' := Steps(w1, later);
    InitiatedWorld(w, d, questions, anonymize, later);
    Provenance(w', t);
    RequestTask(w', t);
  }

  lemma RequestTask(w: World, t: nat)
    requires Reachable(w) && t < |w.state.tasks| && w.state.tasks[t].request.Some?
    ensures w.state.tasks[t].moduleName == ResolveKeys || w.state.tasks[t].moduleName == Extract
  {
    ReachableOk(w);
    assert TaskOk(w.state, w.state.tasks[t]);
  }
}
