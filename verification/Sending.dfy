/** Every task is sent: the lower half of the conservation of messages. */
module Sending {
  import opened Model
  import opened Machine
  import opened Invariants
  import opened Interleaving
  import opened Safety
  import opened Wakeup

  /** A message for task t as its creation sends it: for its own document, module
      and input, with arguments exactly if the module takes them. */
  predicate FirstFor(m: Message, t: nat, task: Task) {
    m.task == t && m.document == task.document && m.moduleName == task.moduleName && m.path == task.input &&
    (m.kwargs == NoKwargs <==> task.moduleName == Convert || task.moduleName == Anonymize)
  }

  predicate Sent(s: State, t: nat)
    requires t < |s.tasks|
  {
    exists k :: 0 <= k < |s.log| && FirstFor(s.log[k].msg, t, s.tasks[t])
  }

  /** The operation is going to send the task's first message. */
  predicate Sends(op: Op, t: nat) {
    op.PublishTask? && op.msg.task == t
  }

  predicate AnySends(ops: seq<Op>, t: nat) {
    exists k :: 0 <= k < |ops| && Sends(ops[k], t)
  }

  ghost predicate Due(w: World, t: nat)
    requires t < |w.state.tasks|
  {
    Sent(w.state, t) || exists i :: 0 <= i < |w.threads| && AnySends(w.threads[i], t)
  }

  ghost predicate DueOk(w: World, t: nat) {
    WorldOk(w) && (t < |w.state.tasks| ==> Due(w, t))
  }

  lemma SentStays(s: State, s': State, t: nat)
    requires Evolves(s, s') && t < |s.tasks| && Sent(s, t)
    ensures t < |s'.tasks| && Sent(s', t)
  {
    var k :| 0 <= k < |s.log| && FirstFor(s.log[k].msg, t, s.tasks[t]);
    assert s'.log[k] == s.log[k] && SameIdentity(s.tasks[t], s'.tasks[t]);
  }

  lemma SendsAppend(a: seq<Op>, b: seq<Op>, t: nat)
    ensures AnySends(a + b, t) <==> AnySends(a, t) || AnySends(b, t)
  {
    var ab := a + b;
    if AnySends(a, t) {
      var k :| 0 <= k < |a| && Sends(a[k], t);
      assert ab[k] == a[k];
    }
    if AnySends(b, t) {
      var k :| 0 <= k < |b| && Sends(b[k], t);
      assert ab[|a| + k] == b[k];
    }
  }

  /** Whatever adds a task row goes on to send it. */
  lemma NewTaskSends(s: State, op: Op)
    requires |After(s, op).tasks| > |s.tasks|
    ensures |After(s, op).tasks| == |s.tasks| + 1 && AnySends(Next(s, op), |s.tasks|)
  {
    OnlyInsertsAdd(s, op);
    InsertSends(s, op);
  }

  lemma InsertSends(s: State, op: Op)
    requires Inserts(op) && |After(s, op).tasks| > |s.tasks|
    ensures |After(s, op).tasks| == |s.tasks| + 1 && AnySends(Next(s, op), |s.tasks|)
  {
    var next := Next(s, op);
    assert Sends(next[|next| - 1], |s.tasks|);
  }

  lemma SendingSends(s: State, op: Op, t: nat)
    requires t < |s.tasks| && Sends(op, t) && OpOk(s, op)
    ensures After(s, op).tasks == s.tasks && Sent(After(s, op), t)
  {
    var s' := After(s, op);
    assert s'.log[|s.log|].msg == op.msg;
    assert FirstFor(s'.log[|s.log|].msg, t, s'.tasks[t]);
  }

  lemma ExecSends(w: World, i: nat, t: nat)
    requires DueOk(w, t) && i < |w.threads| && w.threads[i] != []
    ensures DueOk(ExecThread(w, i), t)
  {
    hide Inv, OpOk, After, Next, Balanced, Sent, Evolves;
    var s, ops, w' := w.state, w.threads[i], ExecThread(w, i);
    var op, next := ops[0], Next(w.state, ops[0]);
    ExecKeeps(w, i);
    SendsAppend(next, ops[1..], t);
    assert w'.threads[i] == next + ops[1..];
    assert OpsOk(s, ops);
    if t < |s.tasks| {
      if Sent(s, t) {
        SentStays(s, w'.state, t);
      } else {
        var j :| 0 <= j < |w.threads| && AnySends(w.threads[j], t);
        if j != i {
          assert w'.threads[j] == w.threads[j];
        } else {
          var k :| 0 <= k < |ops| && Sends(ops[k], t);
          if k == 0 {
            SendingSends(s, op, t);
          } else {
            assert Sends(ops[1..][k - 1], t);
          }
        }
      }
    } else if t < |w'.state.tasks| {
      NewTaskSends(s, op);
    }
  }

  /** The label kills no thread that is still to send the task. */
  predicate SparesSend(w: World, l: Label, t: nat) {
    l.Crash? && l.thread < |w.threads| ==> !AnySends(w.threads[l.thread], t)
  }

  predicate SparedSend(w: World, labels: seq<Label>, t: nat)
    decreases |labels|
  {
    labels == [] || (SparesSend(w, labels[0], t) && SparedSend(Step(w, labels[0]), labels[1..], t))
  }

  lemma RestSends(w: World, l: Label, t: nat)
    requires DueOk(w, t) && !l.Exec? && SparesSend(w, l, t)
    ensures DueOk(Step(w, l), t)
  {
    hide WorldOk, AnySends, Sent, IsEvent, Evolves;
    var w' := Step(w, l);
    StepKeeps(w, l);
    if t < |w.state.tasks| {
      if Sent(w.state, t) {
        SentStays(w.state, w'.state, t);
      } else {
        var i :| 0 <= i < |w.threads| && AnySends(w.threads[i], t);
        assert w'.threads[i] == w.threads[i];
      }
    }
  }

  /** At every moment of a schedule that spares its sender, a task has been sent
      or some thread is still going to send it. */
  lemma {:induction false} StepsSend(w: World, labels: seq<Label>, t: nat)
    requires DueOk(w, t) && SparedSend(w, labels, t)
    ensures DueOk(Steps(w, labels), t)
    decreases |labels|
  {
    hide DueOk, SparesSend;
    if labels != [] {
      var l := labels[0];
      if !l.Exec? {
        RestSends(w, l, t);
      } else if l.thread < |w.threads| && w.threads[l.thread] != [] {
        ExecSends(w, l.thread, t);
      }
      StepsSend(Step(w, l), labels[1..], t);
    }
  }

  lemma {:induction false} CrashFreeSends(w: World, labels: seq<Label>, t: nat)
    requires CrashFree(labels)
    ensures SparedSend(w, labels, t)
    decreases |labels|
  {
    if labels != [] {
      CrashFreeSends(Step(w, labels[0]), labels[1..], t);
    }
  }

  // ---- how often

  lemma {:induction false} SomePublished(log: seq<Attempt>, k: nat, t: nat, what: Counted)
    requires k < |log| && log[k].msg.task == t && Counts(log[k], what)
    ensures Published(log, t, what) >= 1
  {
    if k < |log| - 1 {
      SomePublished(log[..|log| - 1], k, t, what);
    }
  }

  lemma {:induction false} NonePublished(log: seq<Attempt>, t: nat, what: Counted)
    requires forall k :: 0 <= k < |log| && log[k].msg.task == t ==> !Counts(log[k], what)
    ensures Published(log, t, what) == 0
  {
    if log != [] {
      NonePublished(log[..|log| - 1], t, what);
    }
  }

  lemma BareModules(s: State, t: nat)
    requires Inv(s) && t < |s.tasks| && Singleton(s.tasks[t].moduleName)
    ensures Published(s.log, t, WithArguments) == 0
  {
    forall k | 0 <= k < |s.log| && s.log[k].msg.task == t ensures !Counts(s.log[k], WithArguments) {
      assert MessageOk(s, s.log[k].msg);
    }
    NonePublished(s.log, t, WithArguments);
  }

  /** Once a schedule without crash has come to rest, every task row, by whatever
      route it was created, has been sent: for its own document, module and input,
      and with arguments exactly once if its module takes them, and never if it
      does not. */
  lemma EveryTaskSent(w0: World, labels: seq<Label>, t: nat)
    requires Initial(w0) && CrashFree(labels)
    requires var w := Steps(w0, labels); AtRest(w) && t < |w.state.tasks|
    ensures var s := Steps(w0, labels).state;
            (exists k :: 0 <= k < |s.log| && FirstFor(s.log[k].msg, t, s.tasks[t])) &&
            Published(s.log, t, Attempts) >= 1 &&
            Published(s.log, t, WithArguments) ==
              if s.tasks[t].moduleName == Convert || s.tasks[t].moduleName == Anonymize then 0 else 1
  {
    hide WorldOk, Initial, Published, Steps, Step;
    var w := Steps(w0, labels);
    CrashFreeSends(w0, labels, t);
    EverySparedSent(w0, labels, t);
    var s := w.state;
    var k :| 0 <= k < |s.log| && FirstFor(s.log[k].msg, t, s.tasks[t]);
    SomePublished(s.log, k, t, Attempts);
    assert Reachable(w);
    if Singleton(s.tasks[t].moduleName) {
      ReachableOk(w);
      WorldInv(w);
      BareModules(s, t);
    } else {
      SomePublished(s.log, k, t, WithArguments);
      ArgumentsOnce(w, t);
    }
  }

  lemma WorldInv(w: World)
    requires WorldOk(w)
    ensures Inv(w.state)
  {
  }

  /** The same whatever was killed, as long as no thread was that was still to
      send the task. */
  lemma EverySparedSent(w0: World, labels: seq<Label>, t: nat)
    requires Initial(w0) && SparedSend(w0, labels, t)
    requires var w := Steps(w0, labels); AtRest(w) && t < |w.state.tasks|
    ensures Sent(Steps(w0, labels).state, t)
  {
    hide WorldOk, Sent;
    InitialOk(w0);
    NothingDue(w0, t);
    StepsSend(w0, labels, t);
  }

  lemma NothingDue(w: World, t: nat)
    requires Initial(w) && WorldOk(w)
    ensures DueOk(w, t)
  {
  }
}
