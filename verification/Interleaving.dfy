/** Any number of requests, callbacks and watchdogs at once: a schedule picks
    which thread executes its next statement, may start or stop a thread between
    any two statements, and lets time pass. */
module Interleaving {
  import opened Model
  import opened Statements
  import opened Machine
  import opened Invariants
  import opened Preservation

  datatype World = World(state: State, threads: seq<seq<Op>>)

  datatype Label = Spawn(op: Op) | Exec(thread: nat) | Crash(thread: nat) | Tick(time: nat)

  /** What starts a thread: an API call, a worker callback or a watchdog cycle. */
  predicate IsEvent(op: Op) {
    (op.CheckDocument? && op.questions != []) || op.Callback? || op.PublicCreate? || op.PublicStatus? || op.Upload? ||
    op.WatchdogClock?
  }

  function Step(w: World, l: Label): World {
    match l
    case Spawn(op) => if IsEvent(op) then w.(threads := w.threads + [[op]]) else w
    case Exec(i) => if i < |w.threads| && w.threads[i] != [] then ExecThread(w, i) else w
    case Crash(i) => if i < |w.threads| then w.(threads := w.threads[i := []]) else w
    case Tick(d) => w.(state := w.state.(clock := w.state.clock + d))
  }

  function ExecThread(w: World, i: nat): World
    requires i < |w.threads| && w.threads[i] != []
  {
    var op := w.threads[i][0];
    World(After(w.state, op), w.threads[i := Next(w.state, op) + w.threads[i][1..]])
  }

  function Steps(w: World, labels: seq<Label>): World
    decreases |labels|
  {
    if labels == [] then w else Steps(Step(w, labels[0]), labels[1..])
  }

  ghost predicate Initial(w: World) {
    w.threads == [] && w.state.documents == [] && w.state.tasks == [] && w.state.requests == [] &&
    w.state.extracted == map[] && w.state.log == [] && w.state.claims == [] && w.state.held == {} &&
    w.state.reported == {} &&
    w.state.stored == {} &&
    KeysUnique(w.state.keys) && w.state.config.Valid()
  }

  ghost predicate Reachable(w: World) {
    exists w0, labels :: Initial(w0) && w == Steps(w0, labels)
  }

  // ---- publish credit

  /** What is counted of a task's publishes. */
  datatype Counted = Deliveries | Attempts | WithArguments

  /** How many of those publishes of task t an operation may still make. */
  function OpDebt(op: Op, t: nat, what: Counted): nat {
    match op
    case PublishTask(msg, _) => if msg.task == t && (what.WithArguments? ==> msg.kwargs != NoKwargs) then 1 else 0
    case Republish(msg, attempt) =>
      if msg.task != t then 0
      else (match what
            case Deliveries => 1
            case Attempts => if attempt <= MAX_PUBLISH_ATTEMPTS then MAX_PUBLISH_ATTEMPTS + 1 - attempt else 0
            case WithArguments => 0)
    case _ => 0
  }

  function Debt(ops: seq<Op>, t: nat, what: Counted): nat {
    if ops == [] then 0 else OpDebt(ops[0], t, what) + Debt(ops[1..], t, what)
  }

  function Debts(threads: seq<seq<Op>>, t: nat, what: Counted): nat {
    if threads == [] then 0 else Debt(threads[0], t, what) + Debts(threads[1..], t, what)
  }

  predicate Counts(a: Attempt, what: Counted) {
    match what
    case Deliveries => a.outcome == Delivered
    case Attempts => true
    case WithArguments => a.msg.kwargs != NoKwargs
  }

  /** Such publishes of task t so far. */
  function Published(log: seq<Attempt>, t: nat, what: Counted): nat {
    if log == [] then 0
    else
      var a := log[|log| - 1];
      Published(log[..|log| - 1], t, what) + if a.msg.task == t && Counts(a, what) then 1 else 0
  }

  function Allowance(retries: nat, what: Counted): nat {
    match what
    case Deliveries => 1 + retries
    case Attempts => 1 + MAX_PUBLISH_ATTEMPTS * retries
    case WithArguments => 1
  }

  ghost predicate Balanced(w: World, t: nat, what: Counted)
    requires t < |w.state.tasks|
  {
    Published(w.state.log, t, what) + Debts(w.threads, t, what) <= Allowance(w.state.tasks[t].retries, what)
  }

  lemma {:induction false} DebtAppend(a: seq<Op>, b: seq<Op>, t: nat, what: Counted)
    ensures Debt(a + b, t, what) == Debt(a, t, what) + Debt(b, t, what)
  {
    if a == [] {
      assert a + b == b;
    } else {
      assert (a + b)[0] == a[0] && (a + b)[1..] == a[1..] + b;
      DebtAppend(a[1..], b, t, what);
    }
  }

  lemma DebtOne(op: Op, t: nat, what: Counted)
    ensures Debt([op], t, what) == OpDebt(op, t, what)
  {
    assert [op][1..] == [];
  }

  lemma {:induction false} NoDebt(ops: seq<Op>, t: nat, what: Counted)
    requires forall i :: 0 <= i < |ops| ==> OpDebt(ops[i], t, what) == 0
    ensures Debt(ops, t, what) == 0
  {
    if ops != [] {
      NoDebt(ops[1..], t, what);
    }
  }

  lemma {:induction false} DebtsAppend(a: seq<seq<Op>>, b: seq<seq<Op>>, t: nat, what: Counted)
    ensures Debts(a + b, t, what) == Debts(a, t, what) + Debts(b, t, what)
  {
    if a == [] {
      assert a + b == b;
    } else {
      assert (a + b)[0] == a[0] && (a + b)[1..] == a[1..] + b;
      DebtsAppend(a[1..], b, t, what);
    }
  }

  lemma DebtsUpdate(threads: seq<seq<Op>>, i: nat, ops: seq<Op>, t: nat, what: Counted)
    requires i < |threads|
    ensures Debts(threads[i := ops], t, what) + Debt(threads[i], t, what) == Debts(threads, t, what) +
            Debt(ops, t, what)
  {
    assert threads == threads[..i] + ([threads[i]] + threads[i + 1..]);
    assert threads[i := ops] == threads[..i] + ([ops] + threads[i + 1..]);
    DebtsAppend(threads[..i], [threads[i]] + threads[i + 1..], t, what);
    DebtsAppend(threads[..i], [ops] + threads[i + 1..], t, what);
  }

  /** What a step adds to log and debt is paid for by the step itself: it spends
      its own debt, or raises the task's retry count. */
  lemma StepPays(s: State, op: Op, t: nat, what: Counted)
    requires OpOk(s, op) && t < |s.tasks|
    ensures t < |After(s, op).tasks|
    ensures Published(After(s, op).log, t, what) + Debt(Next(s, op), t, what) + Allowance(s.tasks[t].retries, what)
         <= Published(s.log, t, what) + OpDebt(op, t, what) + Allowance(After(s, op).tasks[t].retries, what)
  {
    hide OpOk;
    if op.PublishTask? || op.Republish? {
      PublishPays(s, op, t, what);
    } else if op.WatchdogClaim? {
      ClaimPays(s, op, t, what);
    } else if Inserts(op) {
      InsertPays(s, op, t, what);
    } else {
      RestPays(s, op, t, what);
    }
  }

  predicate Inserts(op: Op) {
    op.ResolveInsert? || op.EnsureTask? || op.ExtractInsert? || op.PublicCreate?
  }

  lemma PublishPays(s: State, op: Op, t: nat, what: Counted)
    requires OpOk(s, op) && t < |s.tasks| && (op.PublishTask? || op.Republish?)
    ensures After(s, op).tasks == s.tasks
    ensures Published(After(s, op).log, t, what) + Debt(Next(s, op), t, what) <= Published(s.log, t, what) +
            OpDebt(op, t, what)
  {
    hide OpOk, After, Next, Published, Debt, OpDebt;
    if op.PublishTask? {
      PublishTaskPays(s, op.msg, op.onError, t, what);
    } else {
      AttemptsLeft(s, op);
      RepublishPays(s, op.msg, op.attempt, t, what);
    }
  }

  lemma PublishTaskPays(s: State, msg: Message, onError: OnError, t: nat, what: Counted)
    ensures var op := PublishTask(msg, onError);
            After(s, op).tasks == s.tasks &&
            Published(After(s, op).log, t, what) + Debt(Next(s, op), t, what) <= Published(s.log, t, what) +
              OpDebt(op, t, what)
  {
    hide After, Next, Published, Debt, PublishFailed;
    PublishedOnce(s, msg, t, what);
    PublishStep(s, msg, onError);
    NoMorePublishes(msg, onError, t, what);
    NoDebt(Next(s, PublishTask(msg, onError)), t, what);
  }

  lemma NoMorePublishes(msg: Message, onError: OnError, t: nat, what: Counted)
    ensures forall i :: 0 <= i < |PublishFailed(msg, onError)| ==> OpDebt(PublishFailed(msg, onError)[i], t, what) == 0
  {
  }

  lemma RepublishPays(s: State, msg: Message, attempt: nat, t: nat, what: Counted)
    requires msg.kwargs == NoKwargs && 1 <= attempt <= MAX_PUBLISH_ATTEMPTS
    ensures var op := Republish(msg, attempt);
            After(s, op).tasks == s.tasks &&
            Published(After(s, op).log, t, what) + Debt(Next(s, op), t, what) <= Published(s.log, t, what) +
              OpDebt(op, t, what)
  {
    hide After, Next, Published, Debt;
    PublishedOnce(s, msg, t, what);
    RepublishStep(s, msg, attempt);
    DebtOne(Republish(msg, attempt + 1), t, what);
    NoDebt([], t, what);
  }

  lemma PublishedOnce(s: State, msg: Message, t: nat, what: Counted)
    ensures var a := Attempt(msg, s.broker(|s.log|));
            Publish(s, msg).log == s.log + [a] &&
            Published(Publish(s, msg).log, t, what) == Published(s.log, t, what) + if msg.task == t && Counts(a, what)
              then 1 else 0
  {
    assert Publish(s, msg).log[..|s.log|] == s.log;
  }

  lemma AttemptsLeft(s: State, op: Op)
    requires OpOk(s, op) && op.Republish?
    ensures op.msg.kwargs == NoKwargs && 1 <= op.attempt <= MAX_PUBLISH_ATTEMPTS
  {
  }

  lemma ClaimPays(s: State, op: Op, t: nat, what: Counted)
    requires t < |s.tasks| && op.WatchdogClaim?
    ensures After(s, op).log == s.log && |After(s, op).tasks| == |s.tasks|
    ensures Debt(Next(s, op), t, what) + Allowance(s.tasks[t].retries, what) <=
            Allowance(After(s, op).tasks[t].retries, what)
  {
    var row := op.row;
    DebtOne(Republish(Message(row.id, row.document, row.moduleName, row.input, NoKwargs), 1), t, what);
  }

  lemma InsertPays(s: State, op: Op, t: nat, what: Counted)
    requires t < |s.tasks| && Inserts(op)
    ensures After(s, op).log == s.log && t < |After(s, op).tasks| && After(s, op).tasks[t] == s.tasks[t]
    ensures Debt(Next(s, op), t, what) == 0
  {
    NoDebt(Next(s, op), t, what);
  }

  lemma RestPays(s: State, op: Op, t: nat, what: Counted)
    requires !op.PublishTask? && !op.Republish? && !op.WatchdogClaim? && !Inserts(op)
    ensures After(s, op).log == s.log && |After(s, op).tasks| == |s.tasks|
    ensures forall i :: 0 <= i < |s.tasks| ==> After(s, op).tasks[i].retries == s.tasks[i].retries
    ensures Debt(Next(s, op), t, what) == 0
  {
    hide After, Next;
    if OfRequest(op) {
      RequestRestPays(s, op, t, what);
    } else if OfCallback(op) {
      CallbackPays(s, op, t, what);
    } else {
      ResultPays(s, op, t, what);
    }
  }

  lemma CallbackPays(s: State, op: Op, t: nat, what: Counted)
    requires OfCallback(op)
    ensures After(s, op).log == s.log && |After(s, op).tasks| == |s.tasks|
    ensures forall i :: 0 <= i < |s.tasks| ==> After(s, op).tasks[i].retries == s.tasks[i].retries
    ensures Debt(Next(s, op), t, what) == 0
  {
    hide After, Next;
    CallbackQuiet(s, op);
    CallbackDebts(s, op, t, what);
    NoDebt(Next(s, op), t, what);
  }

  lemma CallbackQuiet(s: State, op: Op)
    requires OfCallback(op)
    ensures After(s, op).log == s.log && |After(s, op).tasks| == |s.tasks|
    ensures forall i :: 0 <= i < |s.tasks| ==> After(s, op).tasks[i].retries == s.tasks[i].retries
  {
  }

  lemma CallbackDebts(s: State, op: Op, t: nat, what: Counted)
    requires OfCallback(op)
    ensures forall k :: 0 <= k < |Next(s, op)| ==> OpDebt(Next(s, op)[k], t, what) == 0
  {
    hide After, ListPendingRequests, ArtifactRow;
  }

  lemma ResultPays(s: State, op: Op, t: nat, what: Counted)
    requires !OfRequest(op) && !OfCallback(op) && !op.Republish? && !op.WatchdogClaim? && !Inserts(op)
    ensures After(s, op).log == s.log && |After(s, op).tasks| == |s.tasks|
    ensures forall i :: 0 <= i < |s.tasks| ==> After(s, op).tasks[i].retries == s.tasks[i].retries
    ensures Debt(Next(s, op), t, what) == 0
  {
    NoDebt(Next(s, op), t, what);
  }

  lemma RequestRestPays(s: State, op: Op, t: nat, what: Counted)
    requires OfRequest(op) && !op.PublishTask? && !Inserts(op)
    ensures After(s, op).log == s.log && |After(s, op).tasks| == |s.tasks|
    ensures forall i :: 0 <= i < |s.tasks| ==> After(s, op).tasks[i].retries == s.tasks[i].retries
    ensures Debt(Next(s, op), t, what) == 0
  {
    NoDebt(Next(s, op), t, what);
  }

  // ---- the invariant of the interleaved system

  ghost predicate WorldOk(w: World) {
    Inv(w.state) &&
    (forall i :: 0 <= i < |w.threads| ==> OpsOk(w.state, w.threads[i])) &&
    (forall t: nat, what :: t < |w.state.tasks| ==> Balanced(w, t, what))
  }

  lemma StableThreads(w: World, s': State)
    requires Inv(w.state) && Evolves(w.state, s')
    requires forall i :: 0 <= i < |w.threads| ==> OpsOk(w.state, w.threads[i])
    ensures forall i :: 0 <= i < |w.threads| ==> OpsOk(s', w.threads[i])
  {
    forall i, k | 0 <= i < |w.threads| && 0 <= k < |w.threads[i]| ensures OpOk(s', w.threads[i][k]) {
      assert OpsOk(w.state, w.threads[i]);
      StableOps(w.state, s', w.threads[i][k]);
    }
  }

  lemma {:induction false} NoDebts(s: State, threads: seq<seq<Op>>, t: nat, what: Counted)
    requires t >= |s.tasks| && forall i :: 0 <= i < |threads| ==> OpsOk(s, threads[i])
    ensures Debts(threads, t, what) == 0
  {
    if threads != [] {
      forall k | 0 <= k < |threads[0]| ensures OpDebt(threads[0][k], t, what) == 0 {
        assert OpOk(s, threads[0][k]);
      }
      NoDebt(threads[0], t, what);
      NoDebts(s, threads[1..], t, what);
    }
  }

  lemma {:induction false} NothingPublished(log: seq<Attempt>, t: nat, what: Counted)
    requires forall i :: 0 <= i < |log| ==> log[i].msg.task != t
    ensures Published(log, t, what) == 0
  {
    if log != [] {
      NothingPublished(log[..|log| - 1], t, what);
    }
  }

  lemma ExecDebts(w: World, i: nat, t: nat, what: Counted)
    requires i < |w.threads| && w.threads[i] != []
    ensures Debts(ExecThread(w, i).threads, t, what) + OpDebt(w.threads[i][0], t, what) ==
            Debts(w.threads, t, what) + Debt(Next(w.state, w.threads[i][0]), t, what)
  {
    var ops := w.threads[i];
    var next := Next(w.state, ops[0]);
    DebtsUpdate(w.threads, i, next + ops[1..], t, what);
    DebtAppend(next, ops[1..], t, what);
  }

  lemma ExecBalance(w: World, i: nat, t: nat, what: Counted)
    requires WorldOk(w) && i < |w.threads| && w.threads[i] != [] && t < |ExecThread(w, i).state.tasks|
    ensures Balanced(ExecThread(w, i), t, what)
  {
    var op := w.threads[i][0];
    assert OpOk(w.state, op);
    ExecDebts(w, i, t, what);
    if t < |w.state.tasks| {
      assert Balanced(w, t, what);
      StepPays(w.state, op, t, what);
    } else {
      NewTaskBalance(w.state, op, t, what);
      NoDebts(w.state, w.threads, t, what);
    }
  }

  lemma NewTaskBalance(s: State, op: Op, t: nat, what: Counted)
    requires Inv(s) && |s.tasks| <= t < |After(s, op).tasks|
    ensures Published(After(s, op).log, t, what) + Debt(Next(s, op), t, what) <= 1
  {
    hide After, Next, Inv;
    OnlyInsertsAdd(s, op);
    NewTaskDebt(s, op, what);
    LoggedTasks(s);
    NothingPublished(s.log, t, what);
  }

  lemma LoggedTasks(s: State)
    requires Inv(s)
    ensures forall k :: 0 <= k < |s.log| ==> s.log[k].msg.task < |s.tasks|
  {
    assert forall k :: 0 <= k < |s.log| ==> MessageOk(s, s.log[k].msg);
  }

  lemma OnlyInsertsAdd(s: State, op: Op)
    ensures |s.tasks| < |After(s, op).tasks| ==> Inserts(op)
  {
  }

  lemma NewTaskDebt(s: State, op: Op, what: Counted)
    requires Inserts(op) && |After(s, op).tasks| > |s.tasks|
    ensures After(s, op).log == s.log && |After(s, op).tasks| == |s.tasks| + 1 &&
            Debt(Next(s, op), |s.tasks|, what) <= 1
  {
    var next := Next(s, op);
    var n := |next| - 1;
    assert next == next[..n] + [next[n]];
    DebtAppend(next[..n], [next[n]], |s.tasks|, what);
    DebtOne(next[n], |s.tasks|, what);
    NoDebt(next[..n], |s.tasks|, what);
  }

  lemma TickKeeps(s: State, d: nat)
    requires Inv(s)
    ensures Kept(s, s.(clock := s.clock + d))
  {
    var s' := s.(clock := s.clock + d);
    forall i | 0 <= i < |s.tasks| ensures TaskOk(s', s'.tasks[i]) {
      assert TaskOk(s, s.tasks[i]);
    }
    SameTasksSameLookups(s, s');
    forall i | 0 <= i < |s.requests| ensures RequestOk(s', i, s'.requests[i]) {
      assert RequestOk(s, i, s.requests[i]);
    }
    CellsKeep(s, s');
    LogKeeps(s, s');
    SameDocumentsOk(s, s');
  }

  lemma ExecKeeps(w: World, i: nat)
    requires WorldOk(w) && i < |w.threads| && w.threads[i] != []
    ensures WorldOk(ExecThread(w, i)) && Evolves(w.state, ExecThread(w, i).state)
  {
    hide OpOk, After, Next;
    var op := w.threads[i][0];
    assert OpsOk(w.state, w.threads[i]);
    AfterKeeps(w.state, op);
    NextOk(w.state, op);
    var w' := ExecThread(w, i);
    StableThreads(w, w'.state);
    forall k | 0 <= k < |w'.threads| ensures OpsOk(w'.state, w'.threads[k]) {
      assert OpsOk(w'.state, w.threads[k]);
    }
    forall t: nat, what | t < |w'.state.tasks| ensures Balanced(w', t, what) {
      ExecBalance(w, i, t, what);
    }
  }

  lemma EventOk(s: State, op: Op, t: nat, what: Counted)
    requires IsEvent(op)
    ensures OpOk(s, op) && OpDebt(op, t, what) == 0
  {
  }

  lemma Idle(s: State)
    ensures Evolves(s, s)
  {
  }

  lemma SpawnKeeps(w: World, op: Op)
    requires WorldOk(w) && IsEvent(op)
    ensures WorldOk(Step(w, Spawn(op)))
  {
    hide Inv, OpOk, IsEvent, OpDebt;
    var w' := Step(w, Spawn(op));
    EventOk(w.state, op, 0, Attempts);
    forall t: nat, what | t < |w.state.tasks| ensures Balanced(w', t, what) {
      assert Balanced(w, t, what);
      DebtsAppend(w.threads, [[op]], t, what);
      assert [[op]][1..] == [];
      DebtOne(op, t, what);
      EventOk(w.state, op, t, what);
    }
  }

  lemma CrashKeeps(w: World, i: nat)
    requires WorldOk(w) && i < |w.threads|
    ensures WorldOk(Step(w, Crash(i)))
  {
    hide Inv, OpOk;
    var w' := Step(w, Crash(i));
    forall t: nat, what | t < |w.state.tasks| ensures Balanced(w', t, what) {
      assert Balanced(w, t, what);
      DebtsUpdate(w.threads, i, [], t, what);
    }
  }

  lemma TickStepKeeps(w: World, d: nat)
    requires WorldOk(w)
    ensures WorldOk(Step(w, Tick(d))) && Evolves(w.state, Step(w, Tick(d)).state)
  {
    hide Inv, OpOk, Evolves;
    var w' := Step(w, Tick(d));
    TickKeeps(w.state, d);
    StableThreads(w, w'.state);
    forall t: nat, what | t < |w.state.tasks| ensures Balanced(w', t, what) {
      assert Balanced(w, t, what);
    }
  }

  lemma StepKeeps(w: World, l: Label)
    requires WorldOk(w)
    ensures WorldOk(Step(w, l)) && Evolves(w.state, Step(w, l).state)
  {
    hide Inv, WorldOk, Evolves, IsEvent;
    Idle(w.state);
    match l
    case Spawn(op) => if IsEvent(op) { SpawnKeeps(w, op); }
    case Exec(i) => if i < |w.threads| && w.threads[i] != [] { ExecKeeps(w, i); }
    case Crash(i) => if i < |w.threads| { CrashKeeps(w, i); }
    case Tick(d) => TickStepKeeps(w, d);
  }

  lemma InitialOk(w: World)
    requires Initial(w)
    ensures WorldOk(w)
  {
  }

  /** Every schedule, crashes included, keeps the invariant; and whatever was
      true of rows, schemas and histories stays true of them. */
  lemma {:induction false} StepsKeep(w: World, labels: seq<Label>)
    requires WorldOk(w)
    ensures WorldOk(Steps(w, labels)) && Evolves(w.state, Steps(w, labels).state)
    decreases |labels|
  {
    hide Inv, WorldOk, Evolves;
    Idle(w.state);
    if labels != [] {
      StepKeeps(w, labels[0]);
      StepsKeep(Step(w, labels[0]), labels[1..]);
      EvolvesTransitive(w.state, Step(w, labels[0]).state, Steps(w, labels).state);
    }
  }

  lemma ReachableOk(w: World)
    requires Reachable(w)
    ensures WorldOk(w)
  {
    hide WorldOk, Initial;
    var w0, labels :| Initial(w0) && w == Steps(w0, labels);
    InitialOk(w0);
    StepsKeep(w0, labels);
  }
}
