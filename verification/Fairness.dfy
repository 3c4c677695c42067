/** Repeated watchdog cycles: alone they wear every stuck task out; among any
    other activity each stuck task has its turn. */
module Fairness {
  import opened Model
  import opened Statements
  import opened Machine
  import opened Invariants
  import opened Interleaving
  import opened Atomic
  import opened Watchdog

  // ---- cycles with no other actor

  function Waited(s: State, d: nat): State {
    s.(clock := s.clock + d)
  }

  /** One cycle after each wait. */
  function Patrol(s: State, waits: seq<nat>): State
    decreases |waits|
  {
    if waits == [] then s else Patrol(Run(Waited(s, waits[0]), [WatchdogClock]), waits[1..])
  }

  /** How many of those cycles list task t. */
  function Listings(s: State, waits: seq<nat>, t: nat): nat
    decreases |waits|
  {
    if waits == [] then 0
    else
      var s0 := Waited(s, waits[0]);
      Listings(Run(s0, [WatchdogClock]), waits[1..], t) + if t in ListedIds(s0, Cutoff(s0)) then 1 else 0
  }

  lemma PatrolKeeps(s: State, d: nat)
    requires Inv(s)
    ensures Inv(Waited(s, d)) && Inv(Run(Waited(s, d), [WatchdogClock]))
  {
    hide Inv, Run, Evolves;
    TickKeeps(s, d);
    EventOk(Waited(s, d), WatchdogClock, 0, Attempts);
    RunKeeps(Waited(s, d), [WatchdogClock]);
  }

  lemma {:induction false} RemainingBounds(tasks: seq<Task>, maxRetries: nat)
    requires forall i :: 0 <= i < |tasks| ==> tasks[i].retries <= maxRetries
    ensures Remaining(tasks, maxRetries) >= 0
    ensures (exists i :: 0 <= i < |tasks| && Live(tasks[i])) <==> Remaining(tasks, maxRetries) > 0
  {
    if tasks != [] {
      var n := |tasks| - 1;
      RemainingBounds(tasks[..n], maxRetries);
      if i :| 0 <= i < n && Live(tasks[i]) {
        assert tasks[..n][i] == tasks[i];
      }
    }
  }

  lemma InvRemaining(s: State)
    requires Inv(s)
    ensures Remaining(s.tasks, s.config.maxRetries) >= 0
    ensures (exists i :: 0 <= i < |s.tasks| && Live(s.tasks[i])) <==> Remaining(s.tasks, s.config.maxRetries) > 0
  {
    forall i | 0 <= i < |s.tasks| ensures s.tasks[i].retries <= s.config.maxRetries {
      assert TaskOk(s, s.tasks[i]);
    }
    RemainingBounds(s.tasks, s.config.maxRetries);
  }

  /** After a wait longer than the threshold every live task is stale, so a cycle
      lists one unless none is left. */
  lemma SomeListed(s: State, d: nat, i: nat)
    requires Inv(s) && d > s.config.threshold && i < |s.tasks| && Live(s.tasks[i])
    ensures ListedIds(Waited(s, d), Cutoff(Waited(s, d))) != []
  {
    hide ListedIds, TaskOk;
    var s0 := Waited(s, d);
    assert s.tasks[i].updatedAt <= s.clock by { Aged(s, i); }
    ListedSpec(s0, Cutoff(s0));
    assert Stale(s0.tasks[i], Cutoff(s0));
  }

  lemma Aged(s: State, i: nat)
    requires Inv(s) && i < |s.tasks|
    ensures s.tasks[i].updatedAt <= s.clock
  {
    assert TaskOk(s, s.tasks[i]);
  }

  /** As many cycles as there are remaining visits leave every task completed or
      failed. */
  lemma {:induction false} WearsOut(s: State, waits: seq<nat>)
    requires Inv(s) && (forall k :: 0 <= k < |waits| ==> waits[k] > s.config.threshold)
    requires |waits| >= Remaining(s.tasks, s.config.maxRetries)
    ensures |Patrol(s, waits).tasks| == |s.tasks|
    ensures forall i :: 0 <= i < |s.tasks| ==>
              Patrol(s, waits).tasks[i].status == Completed || Patrol(s, waits).tasks[i].status == Failed
    decreases |waits|
  {
    hide Inv, Run, Remaining, Handled, ListedIds;
    InvRemaining(s);
    if waits != [] {
      var s0 := Waited(s, waits[0]);
      var s1 := Run(s0, [WatchdogClock]);
      PatrolKeeps(s, waits[0]);
      Cycle(s0);
      if i: nat :| i < |s.tasks| && Live(s.tasks[i]) {
        SomeListed(s, waits[0], i);
      }
      InvRemaining(s1);
      assert s1.config == s.config;
      WearsOut(s1, waits[1..]);
    }
  }

  /** A live task is requeued at each of its first maxRetries - retries listings
      and failed at the next, which is its last. */
  lemma {:induction false} ExactVisits(s: State, waits: seq<nat>, t: nat)
    requires Inv(s) && t < |s.tasks| && Live(s.tasks[t])
    ensures var n, left, task := Listings(s, waits, t), s.config.maxRetries - s.tasks[t].retries, s.tasks[t];
            t < |Patrol(s, waits).tasks| && n <= left + 1 &&
            var task' := Patrol(s, waits).tasks[t];
            if n == 0 then task' == task
            else if n <= left then task'.status == Pending && task'.retries == task.retries + n
            else task'.status == Failed && task'.retries == s.config.maxRetries &&
                 task'.error == Some(StaleTask(s.config.maxRetries, s.config.maxRetries))
    decreases |waits|
  {
    hide Inv, Run, Remaining, ListedIds;
    Bounded(s, t);
    if waits != [] {
      var s0 := Waited(s, waits[0]);
      var s1 := Run(s0, [WatchdogClock]);
      PatrolKeeps(s, waits[0]);
      Cycle(s0);
      if Live(s1.tasks[t]) {
        ExactVisits(s1, waits[1..], t);
      } else {
        NeverListed(s1, waits[1..], t);
      }
    }
  }

  lemma Bounded(s: State, t: nat)
    requires Inv(s) && t < |s.tasks|
    ensures s.tasks[t].retries <= s.config.maxRetries
  {
    assert TaskOk(s, s.tasks[t]);
  }

  lemma {:induction false} NeverListed(s: State, waits: seq<nat>, t: nat)
    requires Inv(s) && t < |s.tasks| && !Live(s.tasks[t])
    ensures Listings(s, waits, t) == 0
    ensures t < |Patrol(s, waits).tasks| && Patrol(s, waits).tasks[t] == s.tasks[t]
    decreases |waits|
  {
    hide Inv, Run, Remaining, ListedIds, Handled, Live;
    if waits != [] {
      var s0 := Waited(s, waits[0]);
      PatrolKeeps(s, waits[0]);
      Cycle(s0);
      ListedSpec(s0, Cutoff(s0));
      NeverListed(Run(s0, [WatchdogClock]), waits[1..], t);
    }
  }

  // ---- cycles among other activity

  /** One cycle as it shows from outside: the state in which it listed, its
      cutoff, and a later state in which it was through. */
  datatype Round = Round(listed: State, cutoff: int, done: State)

  ghost predicate RoundOk(r: Round) {
    Inv(r.listed) && Evolves(r.listed, r.done) && r.cutoff + r.listed.config.threshold <= r.listed.clock &&
    forall i :: i in ListedIds(r.listed, r.cutoff) ==> i < |r.done.tasks| && r.listed.clock <= r.done.tasks[i].updatedAt
  }

  /** What is still owed to the tasks that thread i listed. */
  ghost predicate Owed(a: State, cutoff: int, w: World, i: nat) {
    i < |w.threads| && Evolves(a, w.state) && |a.tasks| <= |w.state.tasks| &&
    forall id :: id in ListedIds(a, cutoff) ==>
      id < |a.tasks| && (Touched(a, w.state, id) || WatchdogClaim(cutoff, RowOf(a.tasks, id)) in w.threads[i])
  }

  predicate Touched(a: State, s: State, id: nat) {
    id < |s.tasks| && a.clock <= s.tasks[id].updatedAt
  }

  lemma TouchedStays(a: State, s: State, s': State, id: nat)
    requires Evolves(a, s) && Evolves(s, s') && Touched(a, s, id)
    ensures Touched(a, s', id)
  {
    assert Stamped(s, s');
  }

  /** Executing a listed task's claim leaves it touched, won or lost: the claim
      is lost only to a task that somebody has touched since. */
  lemma ClaimTouches(a: State, s: State, cutoff: int, id: nat)
    requires Evolves(a, s) && id < |a.tasks| && Stale(a.tasks[id], cutoff)
    ensures Touched(a, After(s, WatchdogClaim(cutoff, RowOf(a.tasks, id))), id)
  {
    assert Stamped(a, s);
  }

  lemma ExecOwed(a: State, cutoff: int, w: World, i: nat, j: nat)
    requires WorldOk(w) && Owed(a, cutoff, w, i) && j < |w.threads| && w.threads[j] != []
    ensures Owed(a, cutoff, ExecThread(w, j), i)
  {
    hide Inv, WorldOk, Evolves, After, Next, ListedIds, Touched, Stale;
    var w' := ExecThread(w, j);
    ExecKeeps(w, j);
    EvolvesTransitive(a, w.state, w'.state);
    TasksStay(w.state, w'.state);
    ListedSpec(a, cutoff);
    forall id | id in ListedIds(a, cutoff)
      ensures Touched(a, w'.state, id) || WatchdogClaim(cutoff, RowOf(a.tasks, id)) in w'.threads[i]
    {
      var claim := WatchdogClaim(cutoff, RowOf(a.tasks, id));
      if Touched(a, w.state, id) {
        TouchedStays(a, w.state, w'.state, id);
      } else if j == i && w.threads[i][0] == claim {
        ClaimTouches(a, w.state, cutoff, id);
      } else if j == i {
        assert w.threads[i] == [w.threads[i][0]] + w.threads[i][1..];
        assert w'.threads[i] == Next(w.state, w.threads[i][0]) + w.threads[i][1..];
      }
    }
  }

  lemma TasksStay(s: State, s': State)
    requires Evolves(s, s')
    ensures |s.tasks| <= |s'.tasks|
  {
  }

  lemma StepOwed(a: State, cutoff: int, w: World, i: nat, l: Label)
    requires WorldOk(w) && Owed(a, cutoff, w, i) && l != Crash(i)
    ensures Owed(a, cutoff, Step(w, l), i)
  {
    hide Inv, WorldOk, Evolves, After, Next, ListedIds, Touched, Stale, IsEvent;
    if l.Exec? && l.thread < |w.threads| && w.threads[l.thread] != [] {
      ExecOwed(a, cutoff, w, i, l.thread);
    } else {
      var w' := Step(w, l);
      StepKeeps(w, l);
      EvolvesTransitive(a, w.state, w'.state);
      TasksStay(w.state, w'.state);
      assert w'.threads[i] == w.threads[i];
      forall id | id in ListedIds(a, cutoff) && Touched(a, w.state, id) ensures Touched(a, w'.state, id) {
        TouchedStays(a, w.state, w'.state, id);
      }
    }
  }

  lemma {:induction false} StepsOwed(a: State, cutoff: int, w: World, i: nat, labels: seq<Label>)
    requires WorldOk(w) && Owed(a, cutoff, w, i) && Crash(i) !in labels
    ensures Owed(a, cutoff, Steps(w, labels), i)
    decreases |labels|
  {
    hide WorldOk, Owed, Step;
    if labels != [] {
      StepOwed(a, cutoff, w, i, labels[0]);
      StepKeeps(w, labels[0]);
      StepsOwed(a, cutoff, Step(w, labels[0]), i, labels[1..]);
    }
  }

  /** A watchdog thread that is not killed makes a round, whatever the other
      threads execute between its statements. */
  lemma InterleavedRound(w: World, i: nat, cutoff: int, labels: seq<Label>)
    requires WorldOk(w) && i < |w.threads| && w.threads[i] == [WatchdogList(cutoff)] && Crash(i) !in labels
    requires var w' := Steps(ExecThread(w, i), labels); i < |w'.threads| && w'.threads[i] == []
    ensures RoundOk(Round(w.state, cutoff, Steps(ExecThread(w, i), labels).state))
  {
    hide Inv, OpOk, Evolves, ListedIds, Stale;
    var a, w1 := w.state, ExecThread(w, i);
    assert OpOk(a, WatchdogList(cutoff));
    CutoffOk(a, cutoff);
    ExecKeeps(w, i);
    var ids := ListedIds(a, cutoff);
    assert w1.threads[i] == ClaimOps(cutoff, ListStaleTasks(a, cutoff));
    forall id | id in ids ensures WatchdogClaim(cutoff, RowOf(a.tasks, id)) in w1.threads[i] {
      var k :| 0 <= k < |ids| && ids[k] == id;
      assert w1.threads[i][k] == WatchdogClaim(cutoff, RowOf(a.tasks, id));
    }
    Idle(a);
    StepsOwed(a, cutoff, w1, i, labels);
  }

  lemma CutoffOk(s: State, cutoff: int)
    requires OpOk(s, WatchdogList(cutoff))
    ensures cutoff + s.config.threshold <= s.clock
  {
  }

  /** The other tasks in flight that are at or before task t in the order. */
  function Ahead(s: State, t: nat): set<nat>
    requires t < |s.tasks|
  {
    set i | 0 <= i < |s.tasks| && i != t && Live(s.tasks[i]) && s.tasks[i].updatedAt <= s.tasks[t].updatedAt
  }

  function IdSet(ids: seq<nat>): set<nat> {
    set i | i in ids
  }

  lemma {:induction false} DistinctCount(ids: seq<nat>)
    requires Distinct(ids)
    ensures |IdSet(ids)| == |ids|
  {
    if ids != [] {
      var n := |ids| - 1;
      var rest, last := ids[..n], ids[n];
      DistinctCount(rest);
      assert last !in rest;
      assert ids == rest + [last];
      assert IdSet(ids) == IdSet(rest) + {last};
    }
  }

  lemma SubsetSize(a: set<nat>, b: set<nat>)
    requires a <= b
    ensures |a| <= |b|
  {
    assert b == a + (b - a);
  }

  /** Rows that were touched land behind t, so nobody joins the tasks ahead. */
  lemma NobodyJoins(s: State, s': State, t: nat, cutoff: int)
    requires Evolves(s, s') && t < |s.tasks| && s'.tasks[t] == s.tasks[t] && s.tasks[t].updatedAt < s.clock
    ensures Ahead(s', t) <= Ahead(s, t)
  {
    assert Stamped(s, s');
    forall i | i in Ahead(s', t) ensures i in Ahead(s, t) {
      assert i < |s.tasks| && s'.tasks[i] == s.tasks[i];
    }
  }

  /** A round that leaves t alone takes a whole batch out of its way. */
  lemma RoundAdvances(r: Round, t: nat)
    requires RoundOk(r) && t < |r.listed.tasks| && Stale(r.listed.tasks[t], r.cutoff)
    requires t < |r.done.tasks| && r.done.tasks[t] == r.listed.tasks[t]
    ensures |Ahead(r.done, t)| + r.listed.config.batch <= |Ahead(r.listed, t)|
  {
    hide Inv, ListedIds, Evolves;
    var ids := ListedIds(r.listed, r.cutoff);
    var listed := IdSet(ids);
    Positive(r.listed);
    ListedSpec(r.listed, r.cutoff);
    DistinctCount(ids);
    assert t !in ids;
    NobodyJoins(r.listed, r.done, t, r.cutoff);
    forall i | i in ids ensures i in Ahead(r.listed, t) && i !in Ahead(r.done, t) {
      assert Stale(r.listed.tasks[i], r.cutoff);
    }
    assert listed <= Ahead(r.listed, t);
    SubsetSize(Ahead(r.done, t), Ahead(r.listed, t) - listed);
  }

  lemma Positive(s: State)
    requires Inv(s)
    ensures s.config.threshold > 0 && s.config.batch > 0
  {
  }

  /** Rounds one after the other, anything happening in between. */
  ghost predicate Rounds(rounds: seq<Round>) {
    (forall k :: 0 <= k < |rounds| ==> RoundOk(rounds[k])) &&
    forall k :: 0 <= k < |rounds| - 1 ==>
      Evolves(rounds[k].done, rounds[k + 1].listed) && rounds[k].cutoff <= rounds[k + 1].cutoff
  }

  lemma {:induction false} TouchedThroughout(rounds: seq<Round>, a: State, t: nat)
    requires rounds != [] && Rounds(rounds) && Evolves(a, rounds[0].done) && Touched(a, rounds[0].done, t)
    ensures Touched(a, rounds[|rounds| - 1].done, t)
    decreases |rounds|
  {
    hide Inv, Evolves, ListedIds;
    if |rounds| > 1 {
      var b, c, d := rounds[0].done, rounds[1].listed, rounds[1].done;
      assert RoundOk(rounds[1]);
      EvolvesTransitive(b, c, d);
      TouchedStays(a, b, d, t);
      EvolvesTransitive(a, b, d);
      RestOfRounds(rounds);
      TouchedThroughout(rounds[1..], a, t);
    }
  }

  lemma RestOfRounds(rounds: seq<Round>)
    requires rounds != [] && Rounds(rounds)
    ensures Rounds(rounds[1..])
  {
    hide RoundOk, Evolves;
  }

  lemma {:induction false} TurnComes(rounds: seq<Round>, t: nat)
    requires rounds != [] && Rounds(rounds) && t < |rounds[0].listed.tasks|
    requires Stale(rounds[0].listed.tasks[t], rounds[0].cutoff)
    requires |Ahead(rounds[0].listed, t)| < |rounds| * rounds[0].listed.config.batch
    ensures Touched(rounds[0].listed, rounds[|rounds| - 1].done, t)
    decreases |rounds|
  {
    hide Inv, Evolves, ListedIds, Ahead;
    var r := rounds[0];
    assert RoundOk(r);
    RowAfter(r.listed, r.done, t);
    if r.done.tasks[t] != r.listed.tasks[t] {
      TouchedThroughout(rounds, r.listed, t);
    } else {
      RoundAdvances(r, t);
      assert |rounds| > 1;
      var next := rounds[1];
      RowAfter(r.done, next.listed, t);
      RestOfRounds(rounds);
      if next.listed.tasks[t] != r.done.tasks[t] {
        assert RoundOk(next);
        LaterTouched(r.listed, r.done, next.listed, next.done, t);
        TouchedThroughout(rounds[1..], r.listed, t);
      } else {
        Positive(r.listed);
        NobodyJoins(r.done, next.listed, t, r.cutoff);
        SubsetSize(Ahead(next.listed, t), Ahead(r.done, t));
        assert (|rounds| - 1) * r.listed.config.batch == |rounds| * r.listed.config.batch - r.listed.config.batch;
        TurnComes(rounds[1..], t);
      }
    }
  }

  lemma RowAfter(s: State, s': State, t: nat)
    requires Evolves(s, s') && t < |s.tasks|
    ensures t < |s'.tasks| && s.clock <= s'.clock && s.config == s'.config &&
            (s'.tasks[t] == s.tasks[t] || Touched(s, s', t))
  {
    assert Stamped(s, s');
  }

  lemma LaterTouched(a: State, b: State, c: State, d: State, t: nat)
    requires Evolves(a, b) && Evolves(b, c) && Evolves(c, d) && Touched(b, c, t)
    ensures Evolves(a, d) && Touched(a, d, t)
  {
    hide Evolves;
    EvolvesTransitive(a, b, c);
    EvolvesTransitive(a, c, d);
    EarlierClock(a, b);
    TouchedStays(a, c, d, t);
  }

  lemma EarlierClock(s: State, s': State)
    requires Evolves(s, s')
    ensures s.clock <= s'.clock
  {
  }

  /** A stale task with k others in flight at or before it is claimed, failed or
      refreshed within k / batch + 1 rounds. */
  lemma FairTurn(rounds: seq<Round>, t: nat)
    requires rounds != [] && Rounds(rounds) && t < |rounds[0].listed.tasks|
    requires Stale(rounds[0].listed.tasks[t], rounds[0].cutoff)
    requires |rounds| == |Ahead(rounds[0].listed, t)| / rounds[0].listed.config.batch + 1
    ensures var s, s' := rounds[0].listed, rounds[|rounds| - 1].done;
            t < |s'.tasks| && s'.tasks[t] != s.tasks[t] && s'.tasks[t].updatedAt >= s.clock
  {
    hide Evolves, ListedIds, Ahead;
    var s := rounds[0].listed;
    assert RoundOk(rounds[0]);
    Positive(s);
    var k, b := |Ahead(s, t)|, s.config.batch;
    assert k == k / b * b + k % b && (k / b + 1) * b == k / b * b + b;
    TurnComes(rounds, t);
    TouchedChanges(rounds[0], t, rounds[|rounds| - 1].done);
  }

  // ---- scans of one schedule

  /** A stretch of a schedule with one scan: the thread reads the clock after
      before, lists after between, and is through with its claims after during. */
  datatype Scan = Scan(thread: nat, before: seq<Label>, between: seq<Label>, during: seq<Label>)

  function ReadAt(w: World, c: Scan): World {
    Steps(w, c.before)
  }

  function ListAt(w: World, c: Scan): World {
    Steps(Step(ReadAt(w, c), Exec(c.thread)), c.between)
  }

  function EndOf(w: World, c: Scan): World {
    Steps(Step(ListAt(w, c), Exec(c.thread)), c.during)
  }

  function ScanLabels(c: Scan): seq<Label> {
    c.before + ([Exec(c.thread)] + (c.between + ([Exec(c.thread)] + c.during)))
  }

  function ScansLabels(scans: seq<Scan>): seq<Label> {
    if scans == [] then [] else ScanLabels(scans[0]) + ScansLabels(scans[1..])
  }

  /** The thread makes its scan and is not killed; the other threads do what they
      like. */
  ghost predicate ScanDone(w: World, c: Scan) {
    var r, l, e := ReadAt(w, c), ListAt(w, c), EndOf(w, c);
    c.thread < |r.threads| && r.threads[c.thread] == [WatchdogClock] &&
    c.thread < |l.threads| && l.threads[c.thread] == [WatchdogList(Cutoff(r.state))] &&
    Crash(c.thread) !in c.during && c.thread < |e.threads| && e.threads[c.thread] == []
  }

  ghost predicate ScansDone(w: World, scans: seq<Scan>)
    decreases |scans|
  {
    scans == [] || (ScanDone(w, scans[0]) && ScansDone(EndOf(w, scans[0]), scans[1..]))
  }

  lemma {:induction false} StepsJoin(w: World, a: seq<Label>, l: Label, b: seq<Label>)
    ensures Steps(w, a + ([l] + b)) == Steps(Step(Steps(w, a), l), b)
  {
    StepsAppend(w, a, [l] + b);
    assert ([l] + b)[1..] == b;
  }

  lemma ScanRuns(w: World, c: Scan)
    ensures EndOf(w, c) == Steps(w, ScanLabels(c))
  {
    hide Steps, Step;
    StepsJoin(w, c.before, Exec(c.thread), c.between + ([Exec(c.thread)] + c.during));
    StepsJoin(Step(ReadAt(w, c), Exec(c.thread)), c.between, Exec(c.thread), c.during);
  }

  ghost function RoundOf(w: World, c: Scan): Round {
    Round(ListAt(w, c).state, Cutoff(ReadAt(w, c).state), EndOf(w, c).state)
  }

  ghost function RoundsOf(w: World, scans: seq<Scan>): (rounds: seq<Round>)
    ensures |rounds| == |scans|
    decreases |scans|
  {
    if scans == [] then [] else [RoundOf(w, scans[0])] + RoundsOf(EndOf(w, scans[0]), scans[1..])
  }

  lemma ScanKeeps(w: World, c: Scan)
    requires WorldOk(w)
    ensures WorldOk(ReadAt(w, c)) && WorldOk(ListAt(w, c)) && WorldOk(EndOf(w, c))
    ensures Evolves(w.state, ReadAt(w, c).state) && Evolves(w.state, ListAt(w, c).state)
    ensures Evolves(ReadAt(w, c).state, EndOf(w, c).state)
  {
    hide WorldOk, Evolves, Steps, Step;
    var r, l := ReadAt(w, c), ListAt(w, c);
    var r', l' := Step(r, Exec(c.thread)), Step(l, Exec(c.thread));
    StepsKeep(w, c.before);
    StepKeeps(r, Exec(c.thread));
    StepsKeep(r', c.between);
    StepKeeps(l, Exec(c.thread));
    StepsKeep(l', c.during);
    EvolvesTransitive(r.state, r'.state, l.state);
    EvolvesTransitive(w.state, r.state, l.state);
    EvolvesTransitive(l.state, l'.state, EndOf(w, c).state);
    EvolvesTransitive(r.state, l.state, EndOf(w, c).state);
  }

  lemma ScanIsRound(w: World, c: Scan)
    requires WorldOk(w) && ScanDone(w, c)
    ensures RoundOk(RoundOf(w, c))
  {
    hide WorldOk, RoundOk, ExecThread, Steps;
    ScanKeeps(w, c);
    InterleavedRound(ListAt(w, c), c.thread, Cutoff(ReadAt(w, c).state), c.during);
  }

  /** The next scan reads the clock after this one has ended. */
  lemma LaterCutoff(w: World, c: Scan, next: Scan)
    requires WorldOk(w)
    ensures var w' := EndOf(w, c);
            Evolves(RoundOf(w, c).done, RoundOf(w', next).listed) && RoundOf(w, c).cutoff <= RoundOf(w', next).cutoff
  {
    hide WorldOk, Evolves, EndOf, ListAt, ReadAt;
    ScanKeeps(w, c);
    ScanKeeps(EndOf(w, c), next);
    SameThreshold(ReadAt(w, c).state, EndOf(w, c).state);
    SameThreshold(EndOf(w, c).state, ReadAt(EndOf(w, c), next).state);
  }

  lemma SameThreshold(s: State, s': State)
    requires Evolves(s, s')
    ensures Cutoff(s) <= Cutoff(s')
  {
  }

  lemma AddRound(r: Round, rounds: seq<Round>)
    requires RoundOk(r) && Rounds(rounds)
    requires rounds != [] ==> Evolves(r.done, rounds[0].listed) && r.cutoff <= rounds[0].cutoff
    ensures Rounds([r] + rounds)
  {
    hide RoundOk, Evolves;
    var all := [r] + rounds;
    forall k | 0 <= k < |all| ensures RoundOk(all[k]) {
      if k > 0 { assert all[k] == rounds[k - 1]; }
    }
    forall k | 0 <= k < |all| - 1 ensures Evolves(all[k].done, all[k + 1].listed) &&
      all[k].cutoff <= all[k + 1].cutoff {
      assert all[k + 1] == rounds[k];
      if k > 0 { assert all[k] == rounds[k - 1] && rounds[k - 1 + 1] == rounds[k]; }
    }
  }

  lemma {:induction false} ScansAreRounds(w: World, scans: seq<Scan>)
    requires WorldOk(w) && ScansDone(w, scans)
    ensures Rounds(RoundsOf(w, scans))
    ensures scans != [] ==> RoundsOf(w, scans)[|scans| - 1].done == Steps(w, ScansLabels(scans)).state
    decreases |scans|
  {
    hide WorldOk, RoundOk, Evolves, ScanDone, Steps, EndOf;
    if scans != [] {
      var c, rest := scans[0], scans[1..];
      var w' := EndOf(w, c);
      ScanKeeps(w, c);
      ScanIsRound(w, c);
      ScansAreRounds(w', rest);
      ScanRuns(w, c);
      StepsAppend(w, ScanLabels(c), ScansLabels(rest));
      if rest != [] {
        LaterCutoff(w, c, rest[0]);
      } else {
        NoSteps(w');
      }
      AddRound(RoundOf(w, c), RoundsOf(w', rest));
    }
  }

  lemma TouchedChanges(r: Round, t: nat, s': State)
    requires RoundOk(r) && t < |r.listed.tasks| && Stale(r.listed.tasks[t], r.cutoff) && Touched(r.listed, s', t)
    ensures s'.tasks[t] != r.listed.tasks[t]
  {
    Positive(r.listed);
  }

  /** In any schedule from a reachable world: a task that is stale at the first
      of some scans made one after the other has been claimed, failed or refreshed
      at the end of them, if the k others in flight at or before it fill fewer
      batches than there are scans, which k / batch + 1 scans achieve - whichever
      threads make the scans, and whatever else executes between their steps. */
  lemma FairSchedule(w: World, scans: seq<Scan>, t: nat)
    requires Reachable(w) && scans != [] && ScansDone(w, scans)
    requires var s := ListAt(w, scans[0]).state;
             t < |s.tasks| && Stale(s.tasks[t], Cutoff(ReadAt(w, scans[0]).state)) &&
             |Ahead(s, t)| < |scans| * s.config.batch
    ensures var s, s' := ListAt(w, scans[0]).state, Steps(w, ScansLabels(scans)).state;
            t < |s'.tasks| && s'.tasks[t] != s.tasks[t] && s'.tasks[t].updatedAt >= s.clock
  {
    hide WorldOk, RoundOk, Evolves, Steps, ListAt, ReadAt, EndOf, Ahead, ScanDone, Stale;
    ReachableOk(w);
    ScansAreRounds(w, scans);
    var rounds := RoundsOf(w, scans);
    assert RoundOk(rounds[0]);
    TurnComes(rounds, t);
    TouchedChanges(rounds[0], t, Steps(w, ScansLabels(scans)).state);
  }
}
