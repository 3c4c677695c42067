/** What holds in every state, what every step keeps, and what an operation that
    is waiting to execute may rely on. */
module Invariants {
  import opened Model
  import opened Statements
  import opened Machine

  // ---- the state

  ghost predicate DocumentsOk(s: State) {
    (forall i :: 0 <= i < |s.documents| ==> DocumentOk(s, i, s.documents[i])) &&
    (forall i, j :: 0 <= i < j < |s.documents| ==> !SameArtifact(s.documents[i], s.documents[j])) &&
    (forall h :: h in s.held && h.role.Some? ==> HasArtifact(s.documents, h.document, h.role.value))
  }

  ghost predicate DocumentOk(s: State, i: nat, d: Document) {
    (d.parent.None? <==> d.kind.None?) &&
    Held(i, None, d.path) in s.held &&
    (d.parent.Some? ==>
      d.parent.value < |s.documents| && s.documents[d.parent.value].org == d.org &&
      Held(d.parent.value, d.kind, d.path) in s.held && Held(d.parent.value, d.kind, d.path) in s.reported)
  }

  ghost predicate TaskOk(s: State, t: Task) {
    t.document < |s.documents| && !Blank(t.input) && t.updatedAt <= s.clock && t.retries <= s.config.maxRetries &&
    (Singleton(t.moduleName) <==> t.request.None?) &&
    (t.request.Some? ==> t.request.value < |s.requests| && s.requests[t.request.value].document == t.document) &&
    InputOk(s, t) && PayloadOk(s, t)
  }

  /** Where a task's input path comes from. */
  ghost predicate InputOk(s: State, t: Task) {
    match t.moduleName
    case Convert => Held(t.document, None, t.input) in s.held
    case Anonymize => Held(t.document, Some(ConvertMd), t.input) in s.reported
    case _ =>
      t.request.Some? && t.request.value < |s.requests| &&
      Held(t.document, Some(TargetKind(s.requests[t.request.value].anonymize)), t.input) in s.held
  }

  ghost predicate PayloadOk(s: State, t: Task) {
    (t.moduleName == Convert && t.payload.AsConvert().Some? && t.payload.AsConvert().value != "" ==>
      Held(t.document, Some(ConvertMd), t.payload.AsConvert().value) in s.reported) &&
    (t.moduleName == Anonymize && t.payload.AsAnonymize().Some? ==>
      FoundOk(s, t.document, Anonymized(t.payload.AsAnonymize().value)))
  }

  ghost predicate FoundOk(s: State, document: nat, found: Found) {
    match found
    case Markdown(path) => Held(document, Some(ConvertMd), path) in s.reported
    case Anonymized(a) =>
      (a.document != "" ==> Held(document, Some(AnonymizeDoc), a.document) in s.reported) &&
      (a.entities != "" ==> Held(document, Some(AnonymizeEntities), a.entities) in s.reported)
  }

  ghost predicate SlotsUnique(s: State) {
    forall i, j :: 0 <= i < j < |s.tasks| ==> !SameSlot(s.tasks[i], s.tasks[j])
  }

  ghost predicate RequestOk(s: State, i: nat, r: Request) {
    r.document < |s.documents| && r.org == s.documents[r.document].org && r.questions != [] &&
    (r.status == RequestRunning ==> HasRequestTask(s, i, ResolveKeys)) &&
    (r.status == RequestCompleted ==> HasRequestTask(s, i, Extract)) &&
    (r.schema != [] ==> Stored(i, r.schema) in s.stored) &&
    (HasRequestTask(s, i, Extract) ==> r.schema != [] && HasRequestTask(s, i, ResolveKeys))
  }

  ghost predicate KeysUnique(keys: seq<Key>) {
    forall i, j :: 0 <= i < j < |keys| ==> !SameKey(keys[i], keys[j])
  }

  ghost predicate CellOk(s: State, c: Cell) {
    c.document < |s.documents| && s.documents[c.document].org == c.org && c.key < |s.keys| &&
    Visible(s.keys[c.key], c.org)
  }

  /** A message carries its task's document, module and input path, and the
      arguments, if any, that belong to its module and request. */
  ghost predicate MessageOk(s: State, m: Message) {
    m.task < |s.tasks| &&
    m.document == s.tasks[m.task].document && m.moduleName == s.tasks[m.task].moduleName &&
    m.path == s.tasks[m.task].input &&
    match m.kwargs
    case NoKwargs => true
    case ResolveArgs(questions, _) =>
      m.moduleName == ResolveKeys && s.tasks[m.task].request.Some? && s.tasks[m.task].request.value < |s.requests| &&
      questions == s.requests[s.tasks[m.task].request.value].questions
    case ExtractArgs(schema) =>
      m.moduleName == Extract && s.tasks[m.task].request.Some? && schema != [] &&
      Stored(s.tasks[m.task].request.value, schema) in s.stored
  }

  ghost predicate ClaimsOk(s: State) {
    (forall i :: 0 <= i < |s.claims| ==>
      s.claims[i].task < |s.tasks| && s.claims[i].time <= s.tasks[s.claims[i].task].updatedAt) &&
    (forall i, j :: 0 <= i < j < |s.claims| && s.claims[i].task == s.claims[j].task ==>
      s.claims[i].time + s.config.threshold < s.claims[j].time)
  }

  ghost predicate Inv(s: State) {
    s.config.Valid() &&
    DocumentsOk(s) &&
    (forall i :: 0 <= i < |s.tasks| ==> TaskOk(s, s.tasks[i])) &&
    SlotsUnique(s) &&
    (forall i :: 0 <= i < |s.requests| ==> RequestOk(s, i, s.requests[i])) &&
    KeysUnique(s.keys) &&
    (forall c :: c in s.extracted ==> CellOk(s, c)) &&
    (forall i :: 0 <= i < |s.log| ==> MessageOk(s, s.log[i].msg)) &&
    ClaimsOk(s)
  }

  // ---- what every step keeps

  predicate SameIdentity(a: Task, b: Task) {
    a.document == b.document && a.moduleName == b.moduleName && a.input == b.input && a.request == b.request
  }

  predicate SameRequest(a: Request, b: Request) {
    a.document == b.document && a.org == b.org && a.questions == b.questions && a.anonymize == b.anonymize
  }

  /** Rows stay, their identities are immutable, a written task row is stamped
      with the clock, a schema once stored is never emptied, no request goes
      back to pending, and the histories and the log only grow. */
  ghost predicate Evolves(s: State, s': State) {
    s.clock <= s'.clock && s.config == s'.config &&
    |s.documents| <= |s'.documents| &&
    (forall i :: 0 <= i < |s.documents| ==>
      s.documents[i].org == s'.documents[i].org && s.documents[i].parent == s'.documents[i].parent &&
      s.documents[i].kind == s'.documents[i].kind) &&
    |s.tasks| <= |s'.tasks| &&
    (forall i :: 0 <= i < |s.tasks| ==> SameIdentity(s.tasks[i], s'.tasks[i])) &&
    Stamped(s, s') &&
    |s.requests| <= |s'.requests| &&
    (forall i :: 0 <= i < |s.requests| ==> RequestEvolves(s.requests[i], s'.requests[i])) &&
    |s.keys| <= |s'.keys| &&
    (forall i :: 0 <= i < |s.keys| ==> SameKey(s.keys[i], s'.keys[i])) &&
    s.held <= s'.held && s.reported <= s'.reported && s.stored <= s'.stored && s.log <= s'.log && s.claims <= s'.claims
  }

  ghost predicate RequestEvolves(a: Request, b: Request) {
    SameRequest(a, b) && (a.schema != [] ==> b.schema != []) &&
      (b.status == RequestPending ==> a.status == RequestPending)
  }

  /** Every task row that differs carries a time not before s; new rows too. */
  ghost predicate Stamped(s: State, s': State) {
    s.clock <= s'.clock && |s.tasks| <= |s'.tasks| &&
    forall i :: 0 <= i < |s'.tasks| ==> (i < |s.tasks| && s'.tasks[i] == s.tasks[i]) || s.clock <= s'.tasks[i].updatedAt
  }

  ghost predicate Kept(s: State, s': State) {
    Inv(s') && Evolves(s, s')
  }

  lemma EvolvesTransitive(a: State, b: State, c: State)
    requires Evolves(a, b) && Evolves(b, c)
    ensures Evolves(a, c)
  {
  }

  // ---- the operations

  /** The row as it was read: what identifies it is still the same, and it is not
      pending unless it was pending then. */
  ghost predicate Snapshot(s: State, id: nat, req: Request) {
    id < |s.requests| && SameRequest(req, s.requests[id]) &&
    (s.requests[id].status == RequestPending ==> req.status == RequestPending)
  }

  ghost predicate TargetHeld(s: State, req: Request, path: string) {
    Held(req.document, Some(TargetKind(req.anonymize)), path) in s.held
  }

  ghost predicate RowMatches(s: State, row: StaleRow) {
    row.id < |s.tasks| && row.document == s.tasks[row.id].document && row.moduleName == s.tasks[row.id].moduleName &&
    row.input == s.tasks[row.id].input
  }

  /** What an operation relies on; see StableOps. */
  ghost predicate OpOk(s: State, op: Op) {
    match op
    case CheckDocument(_, _, questions, _) => questions != []
    case CreateRequest(d, org, questions, _) => d < |s.documents| && s.documents[d].org == org && questions != []
    case ProgressDocument(id, req) => Snapshot(s, id, req) && InFlight(req)
    case ProgressArtifacts(id, req, doc) =>
      Snapshot(s, id, req) && InFlight(req) && req.document < |s.documents| &&
        doc.org == s.documents[req.document].org &&
      Held(req.document, None, doc.path) in s.held
    case ResolveListKeys(id, req, _, path) => Snapshot(s, id, req) && InFlight(req) && TargetHeld(s, req, path)
    case ResolveInsert(id, req, path, _) => Snapshot(s, id, req) && InFlight(req) && TargetHeld(s, req, path)
    case EnsureTask(d, m, path) =>
      Singleton(m) && d < |s.documents| && (m == Convert ==> Held(d, None, path) in s.held) &&
      (m == Anonymize ==> Held(d, Some(ConvertMd), path) in s.reported)
    case PublishTask(msg, onError) =>
      MessageOk(s, msg) && (msg.kwargs == NoKwargs <==> Singleton(msg.moduleName)) &&
      (onError.FailResolve? || onError.FailExtract? ==> onError.request < |s.requests|)
    case SetRequestStatus(id, status, _) =>
      id < |s.requests| && status != RequestPending &&
      (status == RequestRunning ==> HasRequestTask(s, id, ResolveKeys)) &&
      (status == RequestCompleted ==> HasRequestTask(s, id, Extract))
    case LoadParent(_, d, found) => d < |s.documents| && FoundOk(s, d, found)
    case SaveArtifact(_, d, org, kind, path, _, entities) =>
      d < |s.documents| && s.documents[d].org == org && Held(d, Some(kind), path) in s.reported &&
      (entities != "" ==> Held(d, Some(AnonymizeEntities), entities) in s.reported)
    case SetPayload(_, p) => !p.Json?
    case ResolveLoad(id, result) => id < |s.requests| && HasRequestTask(s, id, ResolveKeys) && result.schema != []
    case SetSchema(id, req, schema) => Snapshot(s, id, req) && HasRequestTask(s, id, ResolveKeys) && schema != []
    case ExtractDocument(id, req, schema) =>
      schema != [] && Stored(id, schema) in s.stored &&
      Snapshot(s, id, req) && HasRequestTask(s, id, ResolveKeys) && s.requests[id].schema != []
    case ExtractArtifacts(id, req, org, schema) =>
      schema != [] && Stored(id, schema) in s.stored && Snapshot(s, id, req) && HasRequestTask(s, id, ResolveKeys) &&
      s.requests[id].schema != [] &&
      req.document < |s.documents| && org == s.documents[req.document].org
    case ExtractInsert(id, req, path, schema) =>
      schema != [] && Stored(id, schema) in s.stored && Snapshot(s, id, req) && HasRequestTask(s, id, ResolveKeys) &&
      s.requests[id].schema != [] && TargetHeld(s, req, path)
    case ExtractLoad(id, _) => HasRequestTask(s, id, Extract)
    case ExtractKeys(req, _) => req.document < |s.documents| && s.documents[req.document].org == req.org
    case SaveData(org, d, values) => forall k :: k in values ==> CellOk(s, Cell(org, d, k))
    case WatchdogList(cutoff) => cutoff + s.config.threshold <= s.clock
    case WatchdogClaim(cutoff, row) =>
      cutoff + s.config.threshold <= s.clock && RowMatches(s, row) &&
      (s.tasks[row.id].updatedAt < cutoff ==> s.tasks[row.id].retries == row.retries)
    case Republish(msg, attempt) => MessageOk(s, msg) && msg.kwargs == NoKwargs && 1 <= attempt <= MAX_PUBLISH_ATTEMPTS
    case _ => true
  }

  ghost predicate OpsOk(s: State, ops: seq<Op>) {
    forall i :: 0 <= i < |ops| ==> OpOk(s, ops[i])
  }

  lemma HasStable(s: State, s': State, id: nat, m: Module)
    requires Evolves(s, s') && HasRequestTask(s, id, m)
    ensures HasRequestTask(s', id, m)
  {
    var i :| 0 <= i < |s.tasks| && s.tasks[i].request == Some(id) && s.tasks[i].moduleName == m;
    assert SameIdentity(s.tasks[i], s'.tasks[i]);
  }

  /** An operation's assumption survives whatever the other threads do. */
  lemma StableOps(s: State, s': State, op: Op)
    requires s.config.Valid() && Evolves(s, s') && OpOk(s, op)
    ensures OpOk(s', op)
  {
    forall id, m | HasRequestTask(s, id, m) ensures HasRequestTask(s', id, m) {
      HasStable(s, s', id, m);
    }
  }
}
