/** A run in which a worker is handed a resolve_keys task without its questions. */
module Requeue {
  import opened Model
  import opened Statements
  import opened Machine
  import opened Invariants
  import opened Interleaving
  import opened Atomic
  import opened Wakeup
  import opened Progress
  import opened Replay
  import opened Advance
  import opened Watchdog
  import opened Fairness
  import opened Stranding

  // ---- what nobody but the watchdog does

  predicate NoRetries(s: State) {
    forall t :: 0 <= t < |s.tasks| ==> s.tasks[t].retries == 0
  }

  predicate NoWatchdog(ops: seq<Op>) {
    forall k :: 0 <= k < |ops| ==> !OfWatchdog(ops[k])
  }

  lemma AfterNoRetries(s: State, op: Op)
    requires NoRetries(s) && !OfWatchdog(op)
    ensures NoRetries(After(s, op))
  {
  }

  lemma RequestNoWatchdog(s: State, op: Op)
    requires OfRequest(op)
    ensures NoWatchdog(Next(s, op))
  {
    hide After, ArtifactPath, InsertOutcome;
  }

  lemma RestNoWatchdog(s: State, op: Op)
    requires !OfRequest(op) && !OfWatchdog(op)
    ensures NoWatchdog(Next(s, op))
  {
    hide After, ArtifactPath, InsertOutcome, Writes, ListPendingRequests, ArtifactRow;
  }

  lemma NextNoWatchdog(s: State, op: Op)
    requires !OfWatchdog(op)
    ensures NoWatchdog(Next(s, op))
  {
    hide Next, NoWatchdog;
    if OfRequest(op) {
      RequestNoWatchdog(s, op);
    } else {
      RestNoWatchdog(s, op);
    }
  }

  lemma {:induction false} RunNoRetries(s: State, ops: seq<Op>)
    requires NoRetries(s) && NoWatchdog(ops)
    ensures NoRetries(Run(s, ops))
    decreases Level(ops), |ops|
  {
    hide After, Next, NoRetries;
    if ops != [] {
      var op := ops[0];
      AfterNoRetries(s, op);
      NextNoWatchdog(s, op);
      NextRanksLower(s, op);
      RunNoRetries(After(s, op), Next(s, op));
      RunNoRetries(Run(After(s, op), Next(s, op)), ops[1..]);
    }
  }

  // ---- the run, event by event

  /** One root document, no requests, its convert task, perhaps anonymize too. */
  ghost predicate Prepared(s: State, n: nat) {
    Inv(s) && NoRetries(s) && |s.documents| >= 1 && s.documents[0].parent.None? && s.documents[0].org == 0 &&
    s.requests == [] && |s.tasks| <= n
  }

  lemma Uploaded(s0: State, path: string)
    requires s0 == Fresh(s0.config, s0.broker) && s0.config.Valid()
    ensures var s := Run(s0, [Upload(0, path)]);
            Prepared(s, 0) && s.documents == [Document(0, None, None, path)] && s.config == s0.config
  {
    hide Run, Inv;
    RunUpload(s0, 0, path);
    UploadedInv(s0, path);
  }

  lemma Created(s: State, path: string)
    requires Prepared(s, 0) && s.documents == [Document(0, None, None, path)] && !Blank(path)
    ensures var s' := Run(s, [PublicCreate(0, 0)]);
            Prepared(s', 1) && |s'.tasks| == 1 && s'.tasks[0].moduleName == Convert && s'.tasks[0].document == 0 &&
            s'.config == s.config
  {
    hide Run, Inv, Evolves, NoRetries, Blank;
    var op := PublicCreate(0, 0);
    EventOk(s, op, 0, Attempts);
    RunKeeps(s, [op]);
    RunNoRetries(s, [op]);
    RunOne(s, op);
    var msg := TaskMessage(0, PublicRow(s, 0), NoKwargs);
    assert s.tasks == [];
    RunOne(After(s, op), PublishTask(msg, Ignore));
    PublishStep(After(s, op), msg, Ignore);
    RunNone(Publish(After(s, op), msg));
  }

  function Converted(md: string): StatusUpdate {
    StatusUpdate(Completed, None, Some(Json(Some(md), None, None, None)), None)
  }

  lemma ConvertedRow(s: State, md: string)
    requires Prepared(s, 1) && |s.tasks| == 1 && s.tasks[0].moduleName == Convert && s.tasks[0].document == 0 &&
             !Blank(md)
    ensures var s' := Run(s, [Callback(0, Converted(md))]);
            Prepared(s', 2) && ArtifactPath(s'.documents, 0, 0, ConvertMd) == Some(md) &&
            HasArtifact(s'.documents, 0, ConvertMd) && s'.config == s.config
  {
    hide Run, Inv, Evolves, NoRetries, Done, DocumentsOk, ArtifactPath, HasArtifact, Blank, Registered;
    var op := Callback(0, Converted(md));
    var s' := Run(s, [op]);
    EventOk(s, op, 0, Attempts);
    RunKeeps(s, [op]);
    RunNoRetries(s, [op]);
    AfterCallback(s, 0, Converted(md));
    DocumentsFine(s');
    FewTasks(s, md);
    RootStaysRoot(s, s');
    ConvertedIs(s', md);
    RegisteredPath(s', 0, ConvertMd, md);
  }

  lemma RootStaysRoot(s: State, s': State)
    requires Evolves(s, s') && |s.documents| >= 1
    ensures |s'.documents| >= 1 && s'.documents[0].parent == s.documents[0].parent &&
            s'.documents[0].org == s.documents[0].org
    ensures s'.config == s.config && s'.clock >= s.clock
  {
  }

  lemma ConvertedIs(s: State, md: string)
    requires Done(s, 0, Converted(md)) && |s.tasks| > 0 && !Blank(md)
    requires s.tasks[0].moduleName == Convert && s.tasks[0].document == 0 && s.tasks[0].status == Completed
    ensures Registered(s, 0, ConvertMd, md)
  {
    hide Registered, InsertOutcome, AllSettled;
    assert md != "";
  }

  lemma FewTasks(s: State, md: string)
    requires |s.tasks| == 1 && s.tasks[0].moduleName == Convert && s.tasks[0].document == 0 && !Blank(md)
    requires s.requests == [] && |s.documents| >= 1
    ensures var s' := Run(s, [Callback(0, Converted(md))]); |s'.tasks| <= 2 && s'.requests == []
  {
    hide Run, InsertOutcome, CreateArtifactDocument, Saved, FinalPayload, InsertedAs;
    var op, found := Callback(0, Converted(md)), Markdown(md);
    var s1 := After(s, op);
    RunOne(s, op);
    assert md != "";
    var load, ensure', sweep := LoadParent(0, 0, found), EnsureTask(0, Anonymize, md), ProgressPending(0);
    ChainIs(0, WorkerRow(s.tasks[0], Converted(md)));
    assert Next(s, op) == [load] + ([ensure'] + [sweep]);
    RunAppend(s1, [load], [ensure'] + [sweep]);
    RunRegister(s1, 0, 0, found);
    SavedRows(s1, 0, s1.documents[0].org, found);
    SavedRequests(s1, 0, s1.documents[0].org, found);
    var s2 := Run(s1, [load]);
    RunAppend(s2, [ensure'], [sweep]);
    RunEnsure(s2, 0, Anonymize, md);
    var s3 := Run(s2, [ensure']);
    assert InsertOutcome(s2, EnsureRow(s2, 0, Anonymize, md)).Row? ==>
      InsertedAs(s2, s3, 0, EnsureRow(s2, 0, Anonymize, md));
    OneMore(s2, s3, EnsureRow(s2, 0, Anonymize, md));
    NobodyWaits(s3);
  }

  lemma OneMore(s: State, s': State, row: Task)
    requires s' == s || InsertedAs(s, s', 0, row)
    ensures |s'.tasks| <= |s.tasks| + 1
  {
  }

  lemma SavedRequests(s: State, d: nat, org: nat, found: Found)
    ensures Saved(s, d, org, found).requests == s.requests
  {
  }

  lemma NobodyWaits(s: State)
    requires s.requests == []
    ensures Run(s, [ProgressPending(0)]) == s
  {
    hide Run;
    RunOne(s, ProgressPending(0));
    assert ProgressAll(s, ListPendingRequests(s.requests, 0)) == [];
    RunNone(s);
  }

  /** A request whose resolve_keys task is there. */
  ghost predicate Requested(s: State, t: nat, questions: seq<string>) {
    Inv(s) && NoRetries(s) && |s.documents| >= 1 && s.documents[0].org == 0 && |s.requests| == 1 &&
    s.requests[0].questions == questions && t < |s.tasks| && |s.tasks| <= 3 &&
    s.tasks[t].document == 0 && s.tasks[t].moduleName == ResolveKeys && s.tasks[t].request == Some(0)
  }

  lemma RequestedRow(s: State, md: string, questions: seq<string>)
    requires Prepared(s, 2) && questions != [] && !Blank(md)
    requires HasArtifact(s.documents, 0, ConvertMd) && ArtifactPath(s.documents, 0, 0, ConvertMd) == Some(md)
    ensures var s' := Run(s, [CheckDocument(0, 0, questions, false)]);
            Requested(s', |s.tasks|, questions) && s'.config == s.config
  {
    hide Run, Inv, Evolves, NoRetries, DocumentsOk, ArtifactPath, HasArtifact, Blank, InsertedAs, Settled,
      ProgressOps, LastRow;
    var op, req := CheckDocument(0, 0, questions, false), NewRequest(0, 0, questions, false);
    var s1 := CreateExtractionRequest(s, req);
    EventOk(s, op, 0, Attempts);
    RunKeeps(s, [op]);
    RunNoRetries(s, [op]);
    RunInitiate(s, 0, questions, false);
    DocumentsRemain(s, s1);
    NoTaskYet(s, s1, md, questions);
    RunsOnce(s1, 0, req);
    RootStaysRoot(s, Run(s, [op]));
    NewRow(s1, Run(s1, ProgressOps(0, req)), md);
  }

  lemma NoTaskYet(s: State, s1: State, md: string, questions: seq<string>)
    requires Inv(s) && s.requests == [] && s1 == CreateExtractionRequest(s, NewRequest(0, 0, questions, false))
    requires |s.documents| >= 1 && s.documents[0].org == 0 && !Blank(md)
    requires HasArtifact(s.documents, 0, ConvertMd) && ArtifactPath(s.documents, 0, 0, ConvertMd) == Some(md)
    ensures !Settled(s1, 0)
  {
    hide ArtifactPath, HasArtifact, Blank;
    assert forall t :: 0 <= t < |s.tasks| ==> TaskOk(s, s.tasks[t]);
  }

  lemma NewRow(s: State, s': State, md: string)
    requires |s.requests| == 1 && |s.documents| >= 1 && s.requests[0].document == 0 && !s.requests[0].anonymize
    requires HasArtifact(s.documents, 0, ConvertMd) && InsertedAs(s, s', 0, LastRow(s, 0, s.requests[0]))
    ensures |s'.tasks| == |s.tasks| + 1 && |s'.requests| == 1 && s'.requests[0].questions == s.requests[0].questions
    ensures var row := s'.tasks[|s.tasks|]; row.document == 0 && row.moduleName == ResolveKeys && row.request == Some(0)
  {
    hide HasArtifact, ArtifactPath;
  }

  /** The worker has picked it up, says the public API. */
  lemma MadeLive(s: State, t: nat, questions: seq<string>)
    requires Requested(s, t, questions)
    ensures var s' := Run(s, [PublicStatus(t, 0, Processing)]);
            Requested(s', t, questions) && s'.tasks[t].status == Processing && s'.config == s.config
  {
    hide Run, Inv, Evolves;
    var op := PublicStatus(t, 0, Processing);
    EventOk(s, op, 0, Attempts);
    RunKeeps(s, [op]);
    RunNoRetries(s, [op]);
    RunLast(s, op);
  }

  /** The next scan after the threshold lists it, and publishes it bare. */
  lemma ScannedBare(s: State, t: nat, questions: seq<string>) returns (k: nat)
    requires Requested(s, t, questions) && Live(s.tasks[t]) && s.config.batch >= 3 && s.config.maxRetries >= 1
    ensures s.config.threshold + 1 >= 0
    ensures var s0 := Waited(s, s.config.threshold + 1); k < |Run(s0, [WatchdogClock]).log|
    ensures Run(Waited(s, s.config.threshold + 1), [WatchdogClock]).log[k].msg == Bare(t, s.tasks[t])
  {
    hide Run, Inv, ListedIds, Evolves;
    Positive(s);
    var s0 := Waited(s, s.config.threshold + 1);
    PatrolKeeps(s, s.config.threshold + 1);
    Aged(s, t);
    ListedFew(s0, t);
    ScanPublishes(s0);
    assert PublishedBare(s0, Run(s0, [WatchdogClock]), t);
    k :| |s0.log| <= k < |Run(s0, [WatchdogClock]).log| && Run(s0, [WatchdogClock]).log[k].msg == Bare(t, s0.tasks[t]);
  }

  lemma ListedFew(s: State, t: nat)
    requires t < |s.tasks| <= 3 && s.config.batch >= 3 && Stale(s.tasks[t], Cutoff(s))
    ensures t in ListedIds(s, Cutoff(s))
  {
    hide ListedIds, Stale;
    var ids := ListedIds(s, Cutoff(s));
    ListedSpec(s, Cutoff(s));
    DistinctCount(ids);
    if t !in ids {
      var others := {0, 1, 2} - {t};
      forall i | i in IdSet(ids) ensures i in others {
      }
      SubsetSize(IdSet(ids), others);
    }
  }

  /** Upload, convert, request, pick up, and no word from the worker for longer
      than the threshold: the scan hands out the resolve_keys task again, and its
      message has no questions, although the request has them. */
  lemma RequeueWithoutQuestions(config: Config, broker: nat -> Outcome, path: string, md: string,
    questions: seq<string>)
    returns (w0: World, labels: seq<Label>, k: nat)
    requires config.Valid() && config.batch >= 3 && config.maxRetries >= 1 && !Blank(path) && !Blank(md) &&
             questions != []
    ensures Initial(w0) && CrashFree(labels)
    ensures var s := Steps(w0, labels).state;
            k < |s.log| && s.log[k].msg.moduleName == ResolveKeys && s.log[k].msg.kwargs == NoKwargs &&
            s.log[k].msg.task < |s.tasks| && s.tasks[s.log[k].msg.task].request == Some(0) &&
            |s.requests| == 1 && s.requests[0].questions == questions
  {
    hide Run, Steps, Initial, Inv, Blank, Prepared, Requested, ArtifactPath, HasArtifact;
    var s0 := Fresh(config, broker);
    w0 := World(s0, []);
    FreshInitial(w0);
    var l1 := AtomicEvent(w0, Upload(0, path));
    var w1 := Steps(w0, l1);
    Uploaded(s0, path);
    var l2 := AtomicEvent(w1, PublicCreate(0, 0));
    var w2 := Steps(w1, l2);
    Created(w1.state, path);
    var l3 := AtomicEvent(w2, Callback(0, Converted(md)));
    var w3 := Steps(w2, l3);
    ConvertedRow(w2.state, md);
    var l4 := AtomicEvent(w3, CheckDocument(0, 0, questions, false));
    var w4 := Steps(w3, l4);
    RequestedRow(w3.state, md, questions);
    var t := |w3.state.tasks|;
    var l5 := AtomicEvent(w4, PublicStatus(t, 0, Processing));
    var w5 := Steps(w4, l5);
    MadeLive(w4.state, t, questions);
    var l6;
    l6, k := LastScan(w5, t, questions);
    labels := l1 + (l2 + (l3 + (l4 + (l5 + l6))));
    StepsAppend(w0, l1, l2 + (l3 + (l4 + (l5 + l6))));
    StepsAppend(w1, l2, l3 + (l4 + (l5 + l6)));
    StepsAppend(w2, l3, l4 + (l5 + l6));
    StepsAppend(w3, l4, l5 + l6);
    StepsAppend(w4, l5, l6);
  }

  lemma LastScan(w: World, t: nat, questions: seq<string>) returns (labels: seq<Label>, k: nat)
    requires Requested(w.state, t, questions) && w.state.tasks[t].status == Processing
    requires w.state.config.batch >= 3 && w.state.config.maxRetries >= 1
    ensures CrashFree(labels)
    ensures var s := Steps(w, labels).state;
            k < |s.log| && s.log[k].msg.moduleName == ResolveKeys && s.log[k].msg.kwargs == NoKwargs &&
            s.log[k].msg.task < |s.tasks| && s.tasks[s.log[k].msg.task].request == Some(0) &&
            |s.requests| == 1 && s.requests[0].questions == questions
  {
    hide Run, Inv, Evolves, ListedIds, Handled, Remaining, Step, Steps;
    Positive(w.state);
    var wait := w.state.config.threshold + 1;
    var w' := Step(w, Tick(wait));
    TickedState(w, wait);
    var scan := AtomicEvent(w', WatchdogClock);
    labels := [Tick(wait)] + scan;
    StepsFirst(w, Tick(wait), scan);
    k := ScannedBare(w.state, t, questions);
    PatrolKeeps(w.state, wait);
    Cycle(Waited(w.state, wait));
    SameIds(w'.state, t);
  }

  lemma TickedState(w: World, wait: nat)
    ensures Step(w, Tick(wait)).state == Waited(w.state, wait)
  {
  }

  lemma SameIds(s: State, t: nat)
    requires t < |s.tasks|
    ensures SameIdentity(Handled(s, s.tasks[t]), s.tasks[t])
  {
  }
}
