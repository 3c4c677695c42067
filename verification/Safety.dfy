/** What holds in every reachable world: any number of API calls, callbacks and
    watchdogs, interleaved statement by statement, crashing anywhere. */
module Safety {
  import opened Model
  import opened Statements
  import opened Machine
  import opened Invariants
  import opened Preservation
  import opened Interleaving

  /** The watchdog's guard reads a stale snapshot, yet no task is requeued more
      than MaxRetries times. */
  lemma RetryBound(w: World, t: nat)
    requires Reachable(w) && t < |w.state.tasks|
    ensures w.state.tasks[t].retries <= w.state.config.maxRetries
  {
    ReachableOk(w);
    assert TaskOk(w.state, w.state.tasks[t]);
  }

  /** A claim that is about to be won speaks about the row as it was listed, with
      the same retry count: a row written since carries a later updated_at, which
      the compare-and-swap refuses. */
  lemma WonClaimIsCurrent(w: World, i: nat)
    requires Reachable(w) && i < |w.threads| && w.threads[i] != [] && w.threads[i][0].WatchdogClaim?
    requires Claimable(w.state, w.threads[i][0].row.id, w.threads[i][0].cutoff)
    ensures RowOf(w.state.tasks, w.threads[i][0].row.id) == w.threads[i][0].row
  {
    hide Inv;
    ReachableOk(w);
    assert OpOk(w.state, w.threads[i][0]);
  }

  /** A task is delivered at most once per insert or won claim, and attempted at
      most once per insert and three times per won claim. */
  lemma MessageConservation(w: World, t: nat)
    requires Reachable(w) && t < |w.state.tasks|
    ensures Published(w.state.log, t, Deliveries) <= 1 + w.state.tasks[t].retries <= 1 + w.state.config.maxRetries
    ensures Published(w.state.log, t, Attempts) <= 1 + 3 * w.state.tasks[t].retries
  {
    ReachableOk(w);
    RetryBound(w, t);
    assert Balanced(w, t, Deliveries) && Balanced(w, t, Attempts);
  }

  /** Exactly the publishes that follow the insert of a resolve_keys or extract
      task carry arguments: a first publish carries them if and only if its module
      needs them, and a watchdog's never does. */
  lemma ArgumentsOnce(w: World, t: nat)
    requires Reachable(w) && t < |w.state.tasks|
    ensures Published(w.state.log, t, WithArguments) <= 1
    ensures forall i, k :: 0 <= i < |w.threads| && 0 <= k < |w.threads[i]| && w.threads[i][k].PublishTask? ==>
              (w.threads[i][k].msg.kwargs == NoKwargs <==> Singleton(w.threads[i][k].msg.moduleName))
    ensures forall i, k :: 0 <= i < |w.threads| && 0 <= k < |w.threads[i]| && w.threads[i][k].Republish? ==>
              w.threads[i][k].msg.kwargs == NoKwargs
  {
    hide Inv;
    ReachableOk(w);
    assert Balanced(w, t, WithArguments);
    forall i, k | 0 <= i < |w.threads| && 0 <= k < |w.threads[i]| ensures OpOk(w.state, w.threads[i][k]) {
      assert OpsOk(w.state, w.threads[i]);
    }
  }

  /** Across all watchdogs, two won claims of one task are more than the stale
      threshold apart. */
  lemma ClaimExclusivity(w: World, i: nat, j: nat)
    requires Reachable(w) && i < j < |w.state.claims| && w.state.claims[i].task == w.state.claims[j].task
    ensures w.state.claims[j].time - w.state.claims[i].time > w.state.config.threshold
  {
    ReachableOk(w);
  }

  /** In any status, an extract task implies a stored schema and a resolve_keys
      task. */
  lemma StageOrder(w: World, r: nat)
    requires Reachable(w) && r < |w.state.requests|
    ensures var s := w.state;
            (s.requests[r].status == RequestRunning ==> HasRequestTask(s, r, ResolveKeys)) &&
            (s.requests[r].status == RequestCompleted ==> HasRequestTask(s, r, Extract)) &&
            (HasRequestTask(s, r, Extract) ==> s.requests[r].schema != [] && HasRequestTask(s, r, ResolveKeys))
  {
    ReachableOk(w);
    assert RequestOk(w.state, r, w.state.requests[r]);
  }

  /** No schedule returns a request to pending or empties a stored schema. */
  lemma NeverPendingAgain(w: World, labels: seq<Label>, r: nat)
    requires Reachable(w) && r < |w.state.requests|
    ensures var w' := Steps(w, labels);
            r < |w'.state.requests| &&
            (w'.state.requests[r].status == RequestPending ==> w.state.requests[r].status == RequestPending) &&
            (w.state.requests[r].schema != [] ==> w'.state.requests[r].schema != [])
  {
    ReachableOk(w);
    StepsKeep(w, labels);
    assert RequestEvolves(w.state.requests[r], Steps(w, labels).state.requests[r]);
  }

  /** At most one convert and one anonymize task per document, one resolve_keys
      and one extract task per request, one artifact per parent and kind. */
  lemma Uniqueness(w: World)
    requires Reachable(w)
    ensures var s := w.state;
            (forall i, j :: 0 <= i < j < |s.tasks| && s.tasks[i].moduleName == s.tasks[j].moduleName ==>
              if Singleton(s.tasks[i].moduleName) then s.tasks[i].document != s.tasks[j].document
              else s.tasks[i].request != s.tasks[j].request) &&
            (forall i, j ::
              0 <= i < j < |s.documents| && s.documents[i].parent.Some? &&
              s.documents[i].parent == s.documents[j].parent ==>
              s.documents[i].kind != s.documents[j].kind) &&
            (forall i, j :: 0 <= i < j < |s.keys| && s.keys[i].name == s.keys[j].name ==>
              s.keys[i].org != s.keys[j].org)
  {
    ReachableOk(w);
    var s := w.state;
    forall i, j | 0 <= i < j < |s.tasks| && s.tasks[i].moduleName == s.tasks[j].moduleName
      ensures if Singleton(s.tasks[i].moduleName) then s.tasks[i].document != s.tasks[j].document
              else s.tasks[i].request != s.tasks[j].request
    {
      assert TaskOk(s, s.tasks[i]) && TaskOk(s, s.tasks[j]) && !SameSlot(s.tasks[i], s.tasks[j]);
    }
    forall i, j | 0 <= i < j < |s.documents| && s.documents[i].parent.Some? &&
      s.documents[i].parent == s.documents[j].parent
      ensures s.documents[i].kind != s.documents[j].kind
    {
      assert !SameArtifact(s.documents[i], s.documents[j]);
    }
    forall i, j | 0 <= i < j < |s.keys| && s.keys[i].name == s.keys[j].name ensures s.keys[i].org != s.keys[j].org {
      assert !SameKey(s.keys[i], s.keys[j]);
    }
  }

  /** So findArtifact picks the same row whatever order the artifacts come in. */
  lemma FindArtifactAnyOrder(w: World, parent: nat, kind: Kind, listed: seq<Document>)
    requires Reachable(w) && parent < |w.state.documents|
    requires forall d :: d in listed <==> d in ListDocumentsByParent(w.state.documents, parent,
             w.state.documents[parent].org)
    ensures FindArtifact(listed, kind) ==
            FindArtifact(ListDocumentsByParent(w.state.documents, parent, w.state.documents[parent].org), kind)
  {
    ReachableOk(w);
    var s := w.state;
    var org := s.documents[parent].org;
    FoundArtifact(listed, kind);
    FoundArtifact(ListDocumentsByParent(s.documents, parent, org), kind);
    var a, b := FindArtifact(listed, kind), FindArtifact(ListDocumentsByParent(s.documents, parent, org), kind);
    if a.Some? && b.Some? {
      ListedByParent(s.documents, parent, org, a.value);
      ListedByParent(s.documents, parent, org, b.value);
      var i :| 0 <= i < |s.documents| && s.documents[i] == a.value;
      var j :| 0 <= j < |s.documents| && s.documents[j] == b.value;
      assert SameArtifact(s.documents[i], s.documents[j]) && SameArtifact(s.documents[j], s.documents[i]);
      assert i == j;
    }
  }

  /** Every task's input, and every message ever published for it, carries a path
      that the right file of its document has held: the document's own path for
      convert, a markdown path reported by a convert callback for anonymize, and
      for a request's tasks the anonymized file exactly when it asked for one. */
  ghost predicate PathOf(s: State, t: Task, path: string) {
    match t.moduleName
    case Convert => Held(t.document, None, path) in s.held
    case Anonymize => Held(t.document, Some(ConvertMd), path) in s.reported
    case _ =>
      t.request.Some? && t.request.value < |s.requests| && s.requests[t.request.value].document == t.document &&
      Held(t.document, Some(if s.requests[t.request.value].anonymize then AnonymizeDoc else ConvertMd), path) in s.held
  }

  /** Arguments are the request's own questions, or a schema that the request has
      held, or, when the watchdog publishes again, none at all. */
  ghost predicate ArgumentsOf(s: State, t: Task, kwargs: Kwargs) {
    match kwargs
    case NoKwargs => true
    case ResolveArgs(questions, _) =>
      t.moduleName == ResolveKeys && t.request.Some? && t.request.value < |s.requests| &&
      questions == s.requests[t.request.value].questions
    case ExtractArgs(schema) =>
      t.moduleName == Extract && t.request.Some? && schema != [] && Stored(t.request.value, schema) in s.stored
  }

  lemma Provenance(w: World, t: nat)
    requires Reachable(w) && t < |w.state.tasks|
    ensures PathOf(w.state, w.state.tasks[t], w.state.tasks[t].input)
    ensures forall i :: 0 <= i < |w.state.log| && w.state.log[i].msg.task == t ==>
              PathOf(w.state, w.state.tasks[t], w.state.log[i].msg.path) &&
              w.state.log[i].msg.document == w.state.tasks[t].document &&
              w.state.log[i].msg.moduleName == w.state.tasks[t].moduleName &&
              ArgumentsOf(w.state, w.state.tasks[t], w.state.log[i].msg.kwargs)
  {
    ReachableOk(w);
    assert TaskOk(w.state, w.state.tasks[t]);
    forall i | 0 <= i < |w.state.log| && w.state.log[i].msg.task == t ensures MessageOk(w.state, w.state.log[i].msg) {
    }
  }

  /** Stored values belong to the document's tenant and sit under a key of that
      tenant or a system key. */
  lemma KeyOwnership(w: World, c: Cell)
    requires Reachable(w) && c in w.state.extracted
    ensures c.document < |w.state.documents| && w.state.documents[c.document].org == c.org
    ensures c.key < |w.state.keys| && (w.state.keys[c.key].org.None? || w.state.keys[c.key].org == Some(c.org))
  {
    ReachableOk(w);
    assert CellOk(w.state, c);
  }

  /** No watchdog step changes a completed or failed task, a lost claim changes
      nothing and is not followed by a publish. */
  lemma WatchdogTouchesLiveTasks(s: State, op: Op, t: nat)
    requires OfWatchdog(op) && t < |s.tasks|
    ensures |After(s, op).tasks| == |s.tasks|
    ensures s.tasks[t].status == Completed || s.tasks[t].status == Failed ==> After(s, op).tasks[t] == s.tasks[t]
    ensures op.WatchdogClaim? && !Claimable(s, op.row.id, op.cutoff) ==> After(s, op) == s && Next(s, op) == []
  {
  }
}
