/** Each completed stage leads to the next: what a successful callback leaves
    behind for the requests that were waiting for it. */
module Advance {
  import opened Model
  import opened Statements
  import opened Machine
  import opened Invariants
  import opened Preservation
  import opened Interleaving
  import opened Atomic
  import opened Wakeup
  import opened Replay
  import opened Data

  predicate Delivers(upd: StatusUpdate, p: Payload) {
    upd.status == Completed && upd.payload == Some(p)
  }

  lemma AfterCallback(s: State, t: nat, upd: StatusUpdate)
    requires Inv(s) && t < |s.tasks|
    ensures var s' := Run(s, [Callback(t, upd)]);
            Inv(s') && Done(s', t, upd) && t < |s'.tasks| && SameIdentity(s.tasks[t], s'.tasks[t]) &&
            s'.tasks[t].status == upd.status && s'.tasks[t].document < |s'.documents|
  {
    hide Run, Inv, Done, Evolves;
    EventOk(s, Callback(t, upd), 0, Attempts);
    RunKeeps(s, [Callback(t, upd)]);
    Settles(s, t, upd);
    DoneRow(s, Run(s, [Callback(t, upd)]), t, upd);
  }

  lemma DoneRow(s: State, s': State, t: nat, upd: StatusUpdate)
    requires t < |s.tasks| && Evolves(s, s') && Done(s', t, upd)
    ensures t < |s'.tasks| && SameIdentity(s.tasks[t], s'.tasks[t])
    ensures s'.tasks[t].status == upd.status && s'.tasks[t].document < |s'.documents|
  {
    hide StageDone;
  }

  lemma RegisteredPath(s: State, d: nat, kind: Kind, path: string)
    requires DocumentsOk(s) && d < |s.documents| && Registered(s, d, kind, path)
    ensures HasArtifact(s.documents, d, kind)
    ensures ArtifactPath(s.documents, d, s.documents[d].org, kind) == Some(path)
  {
    ArtifactPathIs(s, d, kind);
  }

  /** A convert result with a usable path: every request of the document that is
      in flight is past convert, and has its next task. */
  lemma ConvertAdvances(s: State, t: nat, upd: StatusUpdate, p: Payload, md: string, id: nat)
    requires Inv(s) && t < |s.tasks| && s.tasks[t].moduleName == Convert
    requires Delivers(upd, p) && p.AsConvert() == Some(md) && !Blank(md)
    requires var s' := Run(s, [Callback(t, upd)]);
             id < |s'.requests| && s'.requests[id].document == s.tasks[t].document && InFlight(s'.requests[id]) &&
             !(s'.requests[id].anonymize && HasTarget(s', s'.requests[id]))
    ensures var s' := Run(s, [Callback(t, upd)]);
            HasNext(s', id) && NextModule(s', s'.requests[id]) == if s'.requests[id].anonymize then Anonymize
              else ResolveKeys
  {
    hide Run, Inv, DocumentsOk, Registered, HasNext, ArtifactPath, InsertOutcome;
    var s' := Run(s, [Callback(t, upd)]);
    AfterCallback(s, t, upd);
    DocumentsFine(s');
    var d, req := s.tasks[t].document, s'.requests[id];
    assert md != "";
    assert Registered(s', d, ConvertMd, md);
    RegisteredPath(s', d, ConvertMd, md);
    ArtifactPathIs(s', d, TargetKind(req.anonymize));
    assert Settled(s', id);
  }

  lemma DocumentsFine(s: State)
    requires Inv(s)
    ensures DocumentsOk(s)
  {
  }

  /** An anonymize result with a usable path: every request in flight that waits
      for the anonymized file has its resolve_keys task. */
  lemma AnonymizeAdvances(s: State, t: nat, upd: StatusUpdate, p: Payload, a: AnonymizeResult, id: nat)
    requires Inv(s) && t < |s.tasks| && s.tasks[t].moduleName == Anonymize
    requires Delivers(upd, p) && p.AsAnonymize() == Some(a) && !Blank(a.document)
    requires var s' := Run(s, [Callback(t, upd)]);
             id < |s'.requests| && s'.requests[id].document == s.tasks[t].document && InFlight(s'.requests[id]) &&
             s'.requests[id].anonymize
    ensures HasRequestTask(Run(s, [Callback(t, upd)]), id, ResolveKeys)
  {
    hide Run, Inv, DocumentsOk, Registered, ArtifactPath, InsertOutcome;
    var s' := Run(s, [Callback(t, upd)]);
    AfterCallback(s, t, upd);
    DocumentsFine(s');
    var d := s.tasks[t].document;
    assert a.document != "";
    assert Registered(s', d, AnonymizeDoc, a.document);
    RegisteredPath(s', d, AnonymizeDoc, a.document);
    assert Settled(s', id);
  }

  /** A resolve_keys result with a schema: the schema is stored and the extract
      task is there, unless the target artifact's path is blank. */
  lemma ResolveAdvances(s: State, t: nat, upd: StatusUpdate, p: Payload, result: ResolveResult)
    requires Inv(s) && t < |s.tasks| && s.tasks[t].moduleName == ResolveKeys && s.tasks[t].request.Some?
    requires Delivers(upd, p) && p.AsResolve() == Some(result) && result.schema != []
    ensures var s', r := Run(s, [Callback(t, upd)]), s.tasks[t].request.value;
            r < |s'.requests| && s'.requests[r].schema == result.schema &&
            s'.requests[r].document < |s'.documents| && TargetPath(s', s'.requests[r]).Some? &&
            if Blank(TargetPath(s', s'.requests[r]).value) then s'.requests[r].status == RequestFailed
            else HasRequestTask(s', r, Extract)
  {
    hide Run, Inv, ArtifactPath;
    var s', r := Run(s, [Callback(t, upd)]), s.tasks[t].request.value;
    AfterCallback(s, t, upd);
    assert ResolveDone(s', r, p);
    var row := RequestRow(s', r, s'.requests[r], Extract, TargetPath(s', s'.requests[r]).value);
    if InsertOutcome(s', row).Conflict? {
      var i :| 0 <= i < |s'.tasks| && SameSlot(s'.tasks[i], row);
      assert s'.tasks[i].request == Some(r) && s'.tasks[i].moduleName == Extract;
    }
  }

  /** An extract result that parses completes its request; one that does not
      fails it. */
  lemma ExtractFinishes(s: State, t: nat, upd: StatusUpdate, p: Payload)
    requires Inv(s) && t < |s.tasks| && s.tasks[t].moduleName == Extract && s.tasks[t].request.Some?
    requires Delivers(upd, p)
    ensures var s', r := Run(s, [Callback(t, upd)]), s.tasks[t].request.value;
            r < |s'.requests| && s'.requests[r].status == if p.AsExtract().Some? then RequestCompleted
            else RequestFailed
  {
    hide Run, Inv, Writes, SaveValues;
    var s', r := Run(s, [Callback(t, upd)]), s.tasks[t].request.value;
    AfterCallback(s, t, upd);
    RequestThere(s', t);
    assert ExtractDone(s', r, p);
  }

  // ---- a second schema

  /** The row that a resolve_keys result proposes. */
  function ExtractRow(s: State, r: nat): Task
    requires r < |s.requests| && s.requests[r].document < |s.documents| && TargetPath(s, s.requests[r]).Some?
  {
    RequestRow(s, r, s.requests[r], Extract, TargetPath(s, s.requests[r]).value)
  }

  /** A resolve_keys result publishes its schema exactly when it inserts the
      extract task. */
  lemma ResultPublishes(s: State, t: nat, upd: StatusUpdate, p: Payload, result: ResolveResult)
    requires Inv(s) && t < |s.tasks| && s.tasks[t].moduleName == ResolveKeys && s.tasks[t].request.Some?
    requires Delivers(upd, p) && p.AsResolve() == Some(result) && result.schema != []
    ensures var r, s' := s.tasks[t].request.value, Run(s, [Callback(t, upd)]);
            r < |s.requests| && s.requests[r].document < |s.documents| && TargetPath(s, s.requests[r]).Some? &&
            s'.log == if InsertOutcome(s, ExtractRow(s, r)).Row?
                      then Publish(s, TaskMessage(|s.tasks|, ExtractRow(s, r), ExtractArgs(result.schema))).log
                      else s.log
    ensures var r, s' := s.tasks[t].request.value, Run(s, [Callback(t, upd)]);
            InsertOutcome(s, ExtractRow(s, r)).Row? ==> HasRequestTask(s', r, Extract)
  {
    hide Run, Inv, After, Next, Chain, OpsOk, RowDone, ArtifactPath, InsertOutcome, UpsertAll;
    var r, s1 := s.tasks[t].request.value, After(s, Callback(t, upd));
    RequestThere(s, t);
    TargetThere(s, r);
    FirstRow(s, t, upd);
    RunOne(s, Callback(t, upd));
    ResolveChain(s, t, upd, p, result);
    RunResolve(s1, r, result);
    var s2, path := Resolved(s1, r, result), TargetPath(s, s.requests[r]).value;
    RunExtractInsert(s2, r, s1.requests[r], path, result.schema);
    ExtractingKeeps(s2, r, s1.requests[r], path, result.schema);
    SameOutcome(s, s2, ExtractRow(s, r), RequestRow(s2, r, s1.requests[r], Extract, path));
  }

  lemma ResolveChain(s: State, t: nat, upd: StatusUpdate, p: Payload, result: ResolveResult)
    requires t < |s.tasks| && s.tasks[t].moduleName == ResolveKeys && s.tasks[t].request.Some?
    requires Delivers(upd, p) && p.AsResolve() == Some(result) && result.schema != []
    ensures var s1 := After(s, Callback(t, upd));
            t < |s1.tasks| && Chain(t, s1.tasks[t]) == [ResolveLoad(s.tasks[t].request.value, result)] &&
            s1.requests == s.requests && s1.documents == s.documents && s1.log == s.log && s1.broker == s.broker &&
            s1.clock == s.clock && |s1.tasks| == |s.tasks| &&
            forall i :: 0 <= i < |s.tasks| ==> SameIdentity(s.tasks[i], s1.tasks[i])
  {
  }

  /** A schema is published once. Deliver a first resolve_keys result, then one
      with another schema: the request now stores the second, and the only
      message of its extract task carries the first. */
  lemma SchemaDrift(s: State, t: nat, updA: StatusUpdate, pA: Payload, a: ResolveResult,
                    updB: StatusUpdate, pB: Payload, b: ResolveResult)
    requires Inv(s) && t < |s.tasks| && s.tasks[t].moduleName == ResolveKeys && s.tasks[t].request.Some?
    requires var r := s.tasks[t].request.value;
             !HasRequestTask(s, r, Extract) && r < |s.requests| && s.requests[r].document < |s.documents| &&
             (TargetPath(s, s.requests[r]).Some? ==> !Blank(TargetPath(s, s.requests[r]).value))
    requires Delivers(updA, pA) && pA.AsResolve() == Some(a) && a.schema != []
    requires Delivers(updB, pB) && pB.AsResolve() == Some(b) && b.schema != []
    ensures var r, once := s.tasks[t].request.value, Run(s, [Callback(t, updA)]);
            var twice := Run(once, [Callback(t, updB)]);
            r < |twice.requests| && twice.requests[r].schema == b.schema &&
            |once.log| == |s.log| + 1 && twice.log == once.log &&
            once.log[|s.log|].msg.kwargs == ExtractArgs(a.schema) && once.log[|s.log|].msg.task == |s.tasks| &&
            forall k :: 0 <= k < |s.log| ==> once.log[k] == s.log[k] && s.log[k].msg.task != |s.tasks|
  {
    hide Run, Inv, ArtifactPath, Blank, Done;
    LoggedTasks(s);
    var r, once := s.tasks[t].request.value, Run(s, [Callback(t, updA)]);
    ResultPublishes(s, t, updA, pA, a);
    NoneYet(s, r);
    AfterCallback(s, t, updA);
    ResultPublishes(once, t, updB, pB, b);
    ThereAlready(once, r);
    ResolveAdvances(once, t, updB, pB, b);
  }

  lemma NoneYet(s: State, r: nat)
    requires r < |s.requests| && s.requests[r].document < |s.documents| && TargetPath(s, s.requests[r]).Some?
    requires !HasRequestTask(s, r, Extract) && !Blank(TargetPath(s, s.requests[r]).value)
    ensures InsertOutcome(s, ExtractRow(s, r)).Row?
  {
    hide ArtifactPath, Blank;
  }

  lemma ThereAlready(s: State, r: nat)
    requires r < |s.requests| && s.requests[r].document < |s.documents| && TargetPath(s, s.requests[r]).Some?
    requires HasRequestTask(s, r, Extract)
    ensures !InsertOutcome(s, ExtractRow(s, r)).Row?
  {
    hide ArtifactPath, Blank;
    var i :| 0 <= i < |s.tasks| && s.tasks[i].request == Some(r) && s.tasks[i].moduleName == Extract;
    assert SameSlot(s.tasks[i], ExtractRow(s, r));
  }
}
