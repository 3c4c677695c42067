/** Schedules that come to rest with a request in flight and nothing left to
    execute for it; and for how long. */
module Stranding {
  import opened Model
  import opened Statements
  import opened Machine
  import opened Invariants
  import opened Preservation
  import opened Interleaving
  import opened Atomic
  import opened Wakeup
  import opened Progress
  import opened Callbacks
  import opened Stillness

  function Fresh(config: Config, broker: nat -> Outcome): State {
    State([], [], [], [], map[], 0, [], [], {}, {}, {}, broker, config)
  }

  lemma RunUpload(s: State, org: nat, path: string)
    ensures Run(s, [Upload(org, path)]) == CreateDocument(s, org, path)
  {
    hide Run;
    RunLast(s, Upload(org, path));
  }

  // ---- a blank path

  /** A document whose stored path is blank: its request stays pending, although
      nothing crashed, nothing failed, and nothing is left to execute. */
  lemma BlankPathStrands(config: Config, broker: nat -> Outcome, path: string) returns (w0: World, labels: seq<Label>)
    requires config.Valid() && Blank(path)
    ensures Initial(w0) && CrashFree(labels)
    ensures var w := Steps(w0, labels);
            AtRest(w) &&
            |w.state.requests| == 1 && w.state.requests[0].status == RequestPending && w.state.tasks == [] &&
            w.state.log == []
  {
    hide Run, Steps, CreateDocument, Blank;
    var s0 := Fresh(config, broker);
    w0 := World(s0, []);
    var upload, check := Upload(0, path), CheckDocument(0, 0, ["question"], false);
    var first := AtomicEvent(w0, upload);
    var w1 := Steps(w0, first);
    RunUpload(s0, 0, path);
    var second := AtomicEvent(w1, check);
    labels := first + second;
    StepsAppend(w0, first, second);
    BlankPathRequest(s0, path, check);
  }

  lemma BlankPathRequest(s0: State, path: string, check: Op)
    requires s0 == Fresh(s0.config, s0.broker) && s0.config.Valid() && Blank(path) &&
             check == CheckDocument(0, 0, ["question"], false)
    ensures var s := Run(CreateDocument(s0, 0, path), [check]);
            |s.requests| == 1 && s.requests[0].status == RequestPending && s.tasks == [] && s.log == []
  {
    hide Run, DocumentsOk, Blank, Settled, InsertedAs, ProgressOps;
    var s1 := CreateDocument(s0, 0, path);
    var req := NewRequest(0, 0, ["question"], false);
    RunInitiate(s1, 0, ["question"], false);
    BlankSettled(s0, path, req);
    RunsOnce(CreateExtractionRequest(s1, req), 0, req);
  }

  lemma BlankSettled(s0: State, path: string, req: Request)
    requires s0 == Fresh(s0.config, s0.broker) && s0.config.Valid() && Blank(path) &&
             req == NewRequest(0, 0, ["question"], false)
    ensures var s := CreateExtractionRequest(CreateDocument(s0, 0, path), req); DocumentsOk(s) && Settled(s, 0)
  {
    hide HasNext, ArtifactPath, HasArtifact, DocumentsOk, Blank;
    var s := CreateExtractionRequest(CreateDocument(s0, 0, path), req);
    OneDocument(s, 0, path);
    NoArtifactPath(s, 0, ConvertMd);
  }

  lemma OneDocument(s: State, org: nat, path: string)
    requires s.documents == [Document(org, None, None, path)] && s.held == {Held(0, None, path)}
    ensures DocumentsOk(s) && !HasArtifact(s.documents, 0, ConvertMd)
  {
  }

  lemma NoArtifactPath(s: State, d: nat, kind: Kind)
    requires DocumentsOk(s) && d < |s.documents| && !HasArtifact(s.documents, d, kind)
    ensures ArtifactPath(s.documents, d, s.documents[d].org, kind).None?
  {
    ArtifactPathIs(s, d, kind);
  }

  lemma StepsFirst(w: World, l: Label, rest: seq<Label>)
    ensures Steps(w, [l] + rest) == Steps(Step(w, l), rest)
  {
    assert ([l] + rest)[1..] == rest;
  }

  // ---- a killed call

  /** A call that dies right after creating its request leaves it pending with no
      task, whatever the document's path: the thread that the request waited for
      is gone. */
  lemma CrashStrands(config: Config, broker: nat -> Outcome, path: string) returns (w0: World, labels: seq<Label>)
    requires config.Valid()
    ensures Initial(w0)
    ensures var w := Steps(w0, labels);
            AtRest(w) &&
            |w.state.requests| == 1 && w.state.requests[0].status == RequestPending && w.state.tasks == []
  {
    hide Run, Steps, After, Next;
    var s0 := Fresh(config, broker);
    w0 := World(s0, []);
    var check := CheckDocument(0, 0, ["question"], false);
    var upload := AtomicEvent(w0, Upload(0, path));
    RunUpload(s0, 0, path);
    var w1 := Steps(w0, upload);
    var rest := [Exec(1)] + ([Exec(1)] + ([Crash(1)] + []));
    labels := upload + ([Spawn(check)] + rest);
    StepsAppend(w0, upload, [Spawn(check)] + rest);
    StepsFirst(w1, Spawn(check), rest);
    var w2 := Step(w1, Spawn(check));
    StepsFirst(w2, Exec(1), [Exec(1)] + ([Crash(1)] + []));
    CheckSteps(w2.state, check);
    var w3 := Step(w2, Exec(1));
    assert w3.threads[1] == [CreateRequest(0, 0, ["question"], false)];
    StepsFirst(w3, Exec(1), [Crash(1)] + []);
    var w4 := Step(w3, Exec(1));
    StepsFirst(w4, Crash(1), []);
    NoSteps(Step(w4, Crash(1)));
  }

  lemma CheckSteps(s: State, check: Op)
    requires check == CheckDocument(0, 0, ["question"], false)
    requires |s.documents| > 0 && s.documents[0].org == 0
    ensures var create := CreateRequest(0, 0, ["question"], false);
            After(s, check) == s && Next(s, check) == [create] &&
            After(s, create) == CreateExtractionRequest(s, NewRequest(0, 0, ["question"], false))
  {
  }

  // ---- a dead prerequisite

  /** The prerequisite is there but not live, so no watchdog lists it; and its slot
      is taken, so nobody creates another. */
  predicate DeadPrerequisite(s: State, d: nat, m: Module) {
    HasSingleton(s, d, m) &&
    forall i :: 0 <= i < |s.tasks| && s.tasks[i].document == d && s.tasks[i].moduleName == m ==> !Live(s.tasks[i])
  }

  /** A request created behind a prerequisite that is already there, dead or not,
      is stored as pending and nothing else happens, then or when Progress is
      called again. */
  lemma InitiateBehind(s: State, d: nat, questions: seq<string>, anonymize: bool)
    requires Inv(s) && d < |s.documents| && questions != []
    requires var m := NextModule(s, NewRequest(d, s.documents[d].org, questions, anonymize));
             m != ResolveKeys && HasSingleton(s, d, m)
    ensures var s', id := Run(s, [CheckDocument(d, s.documents[d].org, questions, anonymize)]), |s.requests|;
            s' == CreateExtractionRequest(s, NewRequest(d, s.documents[d].org, questions, anonymize)) &&
            HasNext(s', id) && Run(s', ProgressOps(id, s'.requests[id])) == s'
  {
    hide Run, Inv, DocumentsOk, HasArtifact, InsertedAs, Settled, ProgressOps;
    var req, id := NewRequest(d, s.documents[d].org, questions, anonymize), |s.requests|;
    var s' := CreateExtractionRequest(s, req);
    RunInitiate(s, d, questions, anonymize);
    DocumentsRemain(s, s');
    SameModule(s, s', id, req);
    RunsOnce(s', id, req);
  }

  lemma DocumentsRemain(s: State, s': State)
    requires Inv(s) && s' == s.(requests := s'.requests)
    ensures DocumentsOk(s')
  {
    SameDocumentsOk(s, s');
  }

  lemma SameModule(s: State, s': State, id: nat, req: Request)
    requires s' == CreateExtractionRequest(s, req) && id == |s.requests| && req.document < |s.documents|
    requires NextModule(s, req) != ResolveKeys && HasSingleton(s, req.document, NextModule(s, req))
    ensures HasNext(s', id) && Settled(s', id)
  {
    hide HasArtifact, NextPath;
  }

  /** Upload, a first request, its convert task fails, a second request: the
      second is pending behind the failed task, with no thread left and no task
      that a watchdog would look at. Only another callback for that task will move
      it (RequestStays); the same failure delivered again does. */
  lemma DeadTaskStrands(config: Config, broker: nat -> Outcome, path: string) returns (w0: World, labels: seq<Label>)
    requires config.Valid() && !Blank(path)
    ensures Initial(w0) && CrashFree(labels)
    ensures var w := Steps(w0, labels);
            AtRest(w) && |w.state.requests| == 2 && w.state.requests[1].status == RequestPending &&
            |w.state.tasks| == 1 && w.state.tasks[0].moduleName == Convert && w.state.tasks[0].status == Failed &&
            w.state.tasks[0].document == w.state.requests[1].document &&
            DeadPrerequisite(w.state, 0, Convert) && HasNext(w.state, 1) &&
            Run(w.state, ProgressOps(1, w.state.requests[1])) == w.state
  {
    hide Run, Steps, Initial, Inv, CreateDocument, DeadPrerequisite, Blank, NextModule;
    var s0 := Fresh(config, broker);
    w0 := World(s0, []);
    FreshInitial(w0);
    var check, failed := CheckDocument(0, 0, ["question"], false), StatusUpdate(Failed, None, None, None);
    var l1 := AtomicEvent(w0, Upload(0, path));
    var w1 := Steps(w0, l1);
    var l2 := AtomicEvent(w1, check);
    var w2 := Steps(w1, l2);
    var l3 := AtomicEvent(w2, Callback(0, failed));
    var w3 := Steps(w2, l3);
    var l4 := AtomicEvent(w3, check);
    labels := l1 + (l2 + (l3 + l4));
    StepsAppend(w0, l1, l2 + (l3 + l4));
    StepsAppend(w1, l2, l3 + l4);
    StepsAppend(w2, l3, l4);
    RunUpload(s0, 0, path);
    FirstRequest(s0, path);
    ConvertFails(w2.state, failed);
    SecondRequest(w3.state);
  }

  /** The failure that stranded the request, delivered once more, fails it. */
  lemma DeadTaskReleased(config: Config, broker: nat -> Outcome, path: string)
    returns (w0: World, labels: seq<Label>, again: seq<Label>)
    requires config.Valid() && !Blank(path)
    ensures Initial(w0) && CrashFree(labels + again)
    ensures AtRest(Steps(w0, labels))
    ensures var s := Steps(w0, labels).state; |s.requests| == 2 && s.requests[1].status == RequestPending
    ensures var s := Steps(w0, labels + again).state; |s.requests| > 1 && s.requests[1].status == RequestFailed
  {
    hide Run, Steps, Initial, Blank, DeadPrerequisite, HasNext, ProgressOps;
    w0, labels := DeadTaskStrands(config, broker, path);
    assert Reachable(Steps(w0, labels));
    again := CallbackReleases(Steps(w0, labels), 1, 0, StatusUpdate(Failed, None, None, None));
    StepsAppend(w0, labels, again);
  }

  lemma FreshInitial(w: World)
    requires w == World(Fresh(w.state.config, w.state.broker), []) && w.state.config.Valid()
    ensures Initial(w)
  {
  }

  /** One document with no artifacts, and one convert task for it. */
  ghost predicate OneTask(s: State) {
    Inv(s) && |s.documents| == 1 && s.documents[0].parent.None? && s.documents[0].org == 0 && |s.requests| == 1 &&
    |s.tasks| == 1 && s.tasks[0].document == 0 && s.tasks[0].moduleName == Convert && s.tasks[0].request.None?
  }

  lemma FirstRequest(s0: State, path: string)
    requires s0 == Fresh(s0.config, s0.broker) && s0.config.Valid() && !Blank(path)
    ensures OneTask(Run(CreateDocument(s0, 0, path), [CheckDocument(0, 0, ["question"], false)]))
  {
    hide Run, Inv, Evolves, DocumentsOk, Blank, HasNext, HasArtifact, ProgressOps, InsertedAs, InsertOutcome, Settled;
    var s1, req := CreateDocument(s0, 0, path), NewRequest(0, 0, ["question"], false);
    var s2 := CreateExtractionRequest(s1, req);
    UploadedInv(s0, path);
    EventOk(s1, CheckDocument(0, 0, ["question"], false), 0, Attempts);
    RunKeeps(s1, [CheckDocument(0, 0, ["question"], false)]);
    RunInitiate(s1, 0, ["question"], false);
    OneDocument(s2, 0, path);
    Unsettled(s2, path);
    RunsOnce(s2, 0, req);
    OneRow(s2, Run(s2, ProgressOps(0, req)));
  }

  lemma UploadedInv(s0: State, path: string)
    requires s0 == Fresh(s0.config, s0.broker) && s0.config.Valid()
    ensures Inv(CreateDocument(s0, 0, path))
  {
    hide WorldOk, Evolves;
    FreshInv(s0);
    UploadKeeps(s0, 0, path);
  }

  lemma FreshInv(s0: State)
    requires s0 == Fresh(s0.config, s0.broker) && s0.config.Valid()
    ensures Inv(s0)
  {
  }

  lemma Unsettled(s: State, path: string)
    requires s.documents == [Document(0, None, None, path)] && s.tasks == [] && !Blank(path)
    requires s.requests == [NewRequest(0, 0, ["question"], false)]
    requires DocumentsOk(s) && !HasArtifact(s.documents, 0, ConvertMd)
    ensures !Settled(s, 0) && NextModule(s, s.requests[0]) == Convert
  {
    hide DocumentsOk, ArtifactPath, Blank;
    NoArtifactPath(s, 0, ConvertMd);
  }

  lemma OneRow(s: State, s': State)
    requires s.tasks == [] && |s.requests| == 1 && |s.documents| == 1
    requires s.documents[0].parent.None? && s.documents[0].org == 0 && s.requests[0].document == 0
    requires NextModule(s, s.requests[0]) == Convert && InsertedAs(s, s', 0, LastRow(s, 0, s.requests[0]))
    ensures |s'.documents| == 1 && s'.documents == s.documents && |s'.requests| == 1
    ensures |s'.tasks| == 1 && s'.tasks[0].document == 0 && s'.tasks[0].moduleName == Convert &&
            s'.tasks[0].request.None?
  {
    hide NextModule, NextPath;
  }

  lemma ConvertFails(s: State, failed: StatusUpdate)
    requires OneTask(s) && failed.status == Failed
    ensures var s' := Run(s, [Callback(0, failed)]); OneTask(s') && s'.tasks[0].status == Failed
  {
    hide Run, Inv, Evolves;
    FailureFanOut(s, 0, failed);
    EventOk(s, Callback(0, failed), 0, Attempts);
    RunKeeps(s, [Callback(0, failed)]);
  }

  lemma SecondRequest(s: State)
    requires OneTask(s) && s.tasks[0].status == Failed
    ensures var s' := Run(s, [CheckDocument(0, 0, ["question"], false)]);
            |s'.requests| == 2 && s'.requests[1].status == RequestPending && s'.requests[1].document == 0 &&
            s'.tasks == s.tasks && DeadPrerequisite(s', 0, Convert) &&
            HasNext(s', 1) && Run(s', ProgressOps(1, s'.requests[1])) == s'
  {
    hide Run, Inv, ProgressOps;
    var req := NewRequest(0, 0, ["question"], false);
    assert HasSingleton(s, 0, Convert);
    assert NextModule(s, req) == Convert;
    InitiateBehind(s, 0, ["question"], false);
    assert HasSingleton(CreateExtractionRequest(s, req), 0, Convert);
  }
}
