/** Running a thread alone is one of the schedules, so what holds for every
    schedule holds for events executed one after the other. */
module Atomic {
  import opened Model
  import opened Machine
  import opened Invariants
  import opened Preservation
  import opened Interleaving

  lemma {:induction false} StepsAppend(w: World, a: seq<Label>, b: seq<Label>)
    ensures Steps(w, a + b) == Steps(Steps(w, a), b)
    decreases |a|
  {
    if a == [] {
      assert a + b == b;
    } else {
      assert (a + b)[0] == a[0] && (a + b)[1..] == a[1..] + b;
      StepsAppend(Step(w, a[0]), a[1..], b);
    }
  }

  lemma NoSteps(w: World)
    ensures Steps(w, []) == w
  {
  }

  predicate Only(labels: seq<Label>, i: nat) {
    forall k :: 0 <= k < |labels| ==> labels[k] == Exec(i)
  }

  /** Scheduling only thread i executes its pending operations as Run does. */
  lemma {:induction false} SoloRun(w: World, i: nat, ops: seq<Op>, rest: seq<Op>) returns (labels: seq<Label>)
    requires i < |w.threads| && w.threads[i] == ops + rest
    ensures Only(labels, i) && Steps(w, labels) == World(Run(w.state, ops), w.threads[i := rest])
    decreases Level(ops), |ops|
  {
    hide After, Next;
    if ops == [] {
      labels := [];
      assert ops + rest == rest && w.threads[i := rest] == w.threads;
    } else {
      var op, tail := ops[0], ops[1..] + rest;
      NextRanksLower(w.state, op);
      var w1 := Step(w, Exec(i));
      assert w.threads[i][0] == op && w.threads[i][1..] == tail;
      var first := SoloRun(w1, i, Next(w.state, op), tail);
      var w2 := Steps(w1, first);
      assert w2.threads == w.threads[i := tail];
      var second := SoloRun(w2, i, ops[1..], rest);
      assert w2.threads[i := rest] == w.threads[i := rest];
      labels := [Exec(i)] + (first + second);
      StepsAppend(w1, first, second);
      assert labels[0] == Exec(i) && labels[1..] == first + second;
    }
  }

  /** An event that runs without interference. */
  lemma AtomicEvent(w: World, op: Op) returns (labels: seq<Label>)
    requires IsEvent(op)
    ensures Steps(w, labels) == World(Run(w.state, [op]), w.threads + [[]])
    ensures forall k :: 0 <= k < |labels| ==> !labels[k].Crash?
  {
    var w1 := Step(w, Spawn(op));
    assert [op] + [] == [op];
    var solo := SoloRun(w1, |w.threads|, [op], []);
    assert w1.threads[|w.threads| := []] == w.threads + [[]];
    labels := [Spawn(op)] + solo;
    assert labels[1..] == solo;
  }

  /** Operations that may rely on a state keep the invariant when run alone. */
  lemma {:induction false} RunKeeps(s: State, ops: seq<Op>)
    requires Inv(s) && OpsOk(s, ops)
    ensures Inv(Run(s, ops)) && Evolves(s, Run(s, ops))
    decreases Level(ops), |ops|
  {
    hide Inv, OpOk, After, Next, Evolves;
    Idle(s);
    if ops != [] {
      var op := ops[0];
      AfterKeeps(s, op);
      NextOk(s, op);
      NextRanksLower(s, op);
      var mid := Run(After(s, op), Next(s, op));
      RunKeeps(After(s, op), Next(s, op));
      EvolvesTransitive(s, After(s, op), mid);
      forall k | 0 <= k < |ops[1..]| ensures OpOk(mid, ops[1..][k]) {
        ConfigOk(s);
        StableOps(s, mid, ops[k + 1]);
      }
      RunKeeps(mid, ops[1..]);
      EvolvesTransitive(s, mid, Run(s, ops));
    }
  }

  lemma ConfigOk(s: State)
    requires Inv(s)
    ensures s.config.Valid()
  {
  }
}
