/** The watchdog: what one cycle does, that it wears every stuck task out, and
    that no stuck task waits for ever behind others. */
module Watchdog {
  import opened Model
  import opened Statements
  import opened Machine
  import opened Invariants

  // ---- ORDER BY updated_at LIMIT batch

  predicate Distinct(ids: seq<nat>) {
    forall i, j :: 0 <= i < j < |ids| ==> ids[i] != ids[j]
  }

  predicate ByAge(tasks: seq<Task>, ids: seq<nat>) {
    (forall i :: 0 <= i < |ids| ==> ids[i] < |tasks|) &&
    forall i, j :: 0 <= i < j < |ids| ==> tasks[ids[i]].updatedAt <= tasks[ids[j]].updatedAt
  }

  lemma {:induction false} InsertedIds(tasks: seq<Task>, ids: seq<nat>, x: nat, i: nat)
    requires x < |tasks| && forall k :: 0 <= k < |ids| ==> ids[k] < |tasks|
    ensures i in InsertByAge(tasks, ids, x) <==> i in ids || i == x
  {
    if ids != [] {
      InsertedIds(tasks, ids[1..], x, i);
      assert ids == [ids[0]] + ids[1..];
    }
  }

  lemma {:induction false} InsertedByAge(tasks: seq<Task>, ids: seq<nat>, x: nat)
    requires x < |tasks| && ByAge(tasks, ids)
    ensures ByAge(tasks, InsertByAge(tasks, ids, x))
  {
    if ids != [] && tasks[x].updatedAt >= tasks[ids[0]].updatedAt {
      var rest := ids[1..];
      assert forall k :: 0 <= k < |rest| ==> rest[k] == ids[k + 1];
      InsertedByAge(tasks, rest, x);
      OldestFirst(tasks, ids[0], rest, x);
      PutFirst(tasks, ids[0], InsertByAge(tasks, rest, x));
    }
  }

  lemma OldestFirst(tasks: seq<Task>, first: nat, rest: seq<nat>, x: nat)
    requires x < |tasks| && first < |tasks| && ByAge(tasks, rest) && tasks[first].updatedAt <= tasks[x].updatedAt
    requires forall k :: 0 <= k < |rest| ==> tasks[first].updatedAt <= tasks[rest[k]].updatedAt
    ensures var r := InsertByAge(tasks, rest, x);
            forall k :: 0 <= k < |r| ==> r[k] < |tasks| && tasks[first].updatedAt <= tasks[r[k]].updatedAt
  {
    hide InsertByAge;
    var r := InsertByAge(tasks, rest, x);
    forall k | 0 <= k < |r| ensures r[k] < |tasks| && tasks[first].updatedAt <= tasks[r[k]].updatedAt {
      if r[k] != x {
        var j :| 0 <= j < |rest| && rest[j] == r[k];
      }
    }
  }

  lemma PutFirst(tasks: seq<Task>, first: nat, r: seq<nat>)
    requires first < |tasks| && ByAge(tasks, r) && forall k :: 0 <= k < |r| ==>
             tasks[first].updatedAt <= tasks[r[k]].updatedAt
    ensures ByAge(tasks, [first] + r)
  {
  }

  lemma {:induction false} InsertedDistinct(tasks: seq<Task>, ids: seq<nat>, x: nat)
    requires x < |tasks| && (forall k :: 0 <= k < |ids| ==> ids[k] < |tasks|) && Distinct(ids) && x !in ids
    ensures Distinct(InsertByAge(tasks, ids, x))
  {
    if ids != [] {
      var rest := ids[1..];
      assert ids == [ids[0]] + rest;
      InsertedDistinct(tasks, rest, x);
      InsertedIds(tasks, rest, x, ids[0]);
      assert ids[0] !in rest;
    }
  }

  lemma {:induction false} StaleIdsAre(tasks: seq<Task>, cutoff: int, n: nat, i: nat)
    requires n <= |tasks|
    ensures i in StaleIds(tasks, cutoff, n) <==> i < n && Stale(tasks[i], cutoff)
  {
    hide InsertByAge, Stale;
    if n > 0 {
      StaleIdsAre(tasks, cutoff, n - 1, i);
      InsertedIds(tasks, StaleIds(tasks, cutoff, n - 1), n - 1, i);
    }
  }

  lemma {:induction false} StaleIdsByAge(tasks: seq<Task>, cutoff: int, n: nat)
    requires n <= |tasks|
    ensures ByAge(tasks, StaleIds(tasks, cutoff, n))
  {
    hide InsertByAge, Stale;
    if n > 0 {
      StaleIdsByAge(tasks, cutoff, n - 1);
      InsertedByAge(tasks, StaleIds(tasks, cutoff, n - 1), n - 1);
    }
  }

  lemma {:induction false} StaleIdsDistinct(tasks: seq<Task>, cutoff: int, n: nat)
    requires n <= |tasks|
    ensures Distinct(StaleIds(tasks, cutoff, n))
  {
    hide InsertByAge, Stale;
    if n > 0 {
      StaleIdsDistinct(tasks, cutoff, n - 1);
      StaleIdsAre(tasks, cutoff, n - 1, n - 1);
      InsertedDistinct(tasks, StaleIds(tasks, cutoff, n - 1), n - 1);
    }
  }

  /** A cycle lists at most batch tasks, all stale, each once; a stale task that
      it leaves out has batch stale tasks at or before its updated_at. */
  lemma ListedSpec(s: State, cutoff: int)
    ensures var ids := ListedIds(s, cutoff);
            Distinct(ids) && |ids| <= s.config.batch && ByAge(s.tasks, ids) &&
            (forall i :: i in ids ==> i < |s.tasks| && Stale(s.tasks[i], cutoff)) &&
            (forall t: nat :: t < |s.tasks| && Stale(s.tasks[t], cutoff) && t !in ids ==>
              |ids| == s.config.batch && forall i :: i in ids ==> s.tasks[i].updatedAt <= s.tasks[t].updatedAt)
  {
    hide Stale, StaleIds;
    var all, ids := StaleIds(s.tasks, cutoff, |s.tasks|), ListedIds(s, cutoff);
    StaleIdsByAge(s.tasks, cutoff, |s.tasks|);
    StaleIdsDistinct(s.tasks, cutoff, |s.tasks|);
    assert forall j :: 0 <= j < |ids| ==> ids[j] == all[j];
    forall i | i in ids ensures i < |s.tasks| && Stale(s.tasks[i], cutoff) {
      assert i in all;
      StaleIdsAre(s.tasks, cutoff, |s.tasks|, i);
    }
    forall t: nat | t < |s.tasks| && Stale(s.tasks[t], cutoff) && t !in ids
      ensures |ids| == s.config.batch && forall i :: i in ids ==> s.tasks[i].updatedAt <= s.tasks[t].updatedAt
    {
      StaleIdsAre(s.tasks, cutoff, |s.tasks|, t);
      var j :| 0 <= j < |all| && all[j] == t;
    }
  }

  /** The listed rows themselves. */
  lemma ListedRows(s: State, cutoff: int)
    ensures var rows := ListStaleTasks(s, cutoff);
            |rows| <= s.config.batch &&
            (forall k :: 0 <= k < |rows| ==>
              rows[k].id < |s.tasks| && rows[k] == RowOf(s.tasks, rows[k].id) &&
              s.tasks[rows[k].id].updatedAt < cutoff &&
              (s.tasks[rows[k].id].status == Pending || s.tasks[rows[k].id].status == Processing)) &&
            (forall j, k :: 0 <= j < k < |rows| ==>
              rows[j].id != rows[k].id && s.tasks[rows[j].id].updatedAt <= s.tasks[rows[k].id].updatedAt) &&
            forall t: nat :: t < |s.tasks| && s.tasks[t].updatedAt < cutoff &&
                             (s.tasks[t].status == Pending || s.tasks[t].status == Processing) ==>
              (exists k :: 0 <= k < |rows| && rows[k].id == t) ||
              (|rows| == s.config.batch &&
               forall k :: 0 <= k < |rows| ==> s.tasks[rows[k].id].updatedAt <= s.tasks[t].updatedAt)
  {
    hide ListedIds;
    var ids, rows := ListedIds(s, cutoff), ListStaleTasks(s, cutoff);
    ListedSpec(s, cutoff);
    forall k | 0 <= k < |rows| ensures rows[k].id == ids[k] && ids[k] in ids && rows[k] == RowOf(s.tasks, ids[k]) {
    }
    forall t: nat | t < |s.tasks| && Stale(s.tasks[t], cutoff)
      ensures (exists k :: 0 <= k < |rows| && rows[k].id == t) ||
              (|rows| == s.config.batch &&
               forall k :: 0 <= k < |rows| ==> s.tasks[rows[k].id].updatedAt <= s.tasks[t].updatedAt)
    {
      if t in ids {
        var k :| 0 <= k < |ids| && ids[k] == t;
        assert rows[k].id == t;
      }
    }
  }

  // ---- one cycle on its own

  function Handled(s: State, t: Task): Task {
    if t.retries >= s.config.maxRetries
    then t.(status := Failed, error := Some(StaleTask(t.retries, s.config.maxRetries)), updatedAt := s.clock)
    else t.(status := Pending, retries := t.retries + 1, celeryId := None, error := None, updatedAt := s.clock)
  }

  /** Attempts only, at least one, all with this message. */
  lemma {:induction false} RunRepublish(s: State, msg: Message, attempt: nat)
    requires 1 <= attempt <= MAX_PUBLISH_ATTEMPTS
    ensures var s' := Run(s, [Republish(msg, attempt)]);
            s' == s.(log := s'.log) && s.log < s'.log &&
            forall k :: |s.log| <= k < |s'.log| ==> s'.log[k].msg == msg
    decreases MAX_PUBLISH_ATTEMPTS - attempt
  {
    hide Run, After, Next;
    var s1 := Publish(s, msg);
    RunOne(s, Republish(msg, attempt));
    RepublishStep(s, msg, attempt);
    RunNone(s1);
    if s.broker(|s.log|) == Refused && attempt < MAX_PUBLISH_ATTEMPTS {
      RunRepublish(s1, msg, attempt + 1);
    }
  }

  /** Live tasks' remaining visits: each can still be requeued maxRetries -
      retries times and then failed. */
  function Remaining(tasks: seq<Task>, maxRetries: nat): int {
    if tasks == [] then 0
    else Remaining(tasks[..|tasks| - 1], maxRetries) + Visits(tasks[|tasks| - 1], maxRetries)
  }

  function Visits(t: Task, maxRetries: nat): int {
    if Live(t) then maxRetries - t.retries + 1 else 0
  }

  lemma {:induction false} RemainingUpdate(tasks: seq<Task>, i: nat, t: Task, maxRetries: nat)
    requires i < |tasks|
    ensures Remaining(tasks[i := t], maxRetries) == Remaining(tasks, maxRetries) - Visits(tasks[i], maxRetries) +
            Visits(t, maxRetries)
  {
    var n := |tasks| - 1;
    if i == n {
      assert tasks[i := t][..n] == tasks[..n];
    } else {
      RemainingUpdate(tasks[..n], i, t, maxRetries);
      assert tasks[i := t][..n] == tasks[..n][i := t];
    }
  }

  /** A claim that nobody contests. */
  lemma RunClaim(s: State, cutoff: int, i: nat)
    requires Claimable(s, i, cutoff) && s.tasks[i].retries <= s.config.maxRetries
    ensures var s' := Run(s, [WatchdogClaim(cutoff, RowOf(s.tasks, i))]);
            s' == s.(tasks := s.tasks[i := Handled(s, s.tasks[i])], claims := s'.claims, log := s'.log) &&
            Remaining(s'.tasks, s.config.maxRetries) == Remaining(s.tasks, s.config.maxRetries) - 1
  {
    hide Run, Remaining, Handled, After, Next;
    var row := RowOf(s.tasks, i);
    var op := WatchdogClaim(cutoff, row);
    RunOne(s, op);
    ClaimStep(s, cutoff, i);
    RunNone(After(s, op));
    if row.retries < s.config.maxRetries {
      RunRepublish(After(s, op), Message(row.id, row.document, row.moduleName, row.input, NoKwargs), 1);
    }
    HandledVisit(s, i);
    RemainingUpdate(s.tasks, i, Handled(s, s.tasks[i]), s.config.maxRetries);
  }

  lemma ClaimStep(s: State, cutoff: int, i: nat)
    requires Claimable(s, i, cutoff)
    ensures var row := RowOf(s.tasks, i);
            var op := WatchdogClaim(cutoff, row);
            var s' := After(s, op);
            s' == s.(tasks := s.tasks[i := Handled(s, s.tasks[i])], claims := s'.claims) &&
            Next(s, op) == if row.retries < s.config.maxRetries
                           then [Republish(Message(row.id, row.document, row.moduleName, row.input, NoKwargs), 1)]
                           else []
  {
  }

  lemma HandledVisit(s: State, i: nat)
    requires i < |s.tasks| && Live(s.tasks[i]) && s.tasks[i].retries <= s.config.maxRetries
    ensures Visits(Handled(s, s.tasks[i]), s.config.maxRetries) == Visits(s.tasks[i], s.config.maxRetries) - 1
  {
  }

  function RowsOf(tasks: seq<Task>, ids: seq<nat>): seq<StaleRow>
    requires forall k :: 0 <= k < |ids| ==> ids[k] < |tasks|
  {
    seq(|ids|, k requires 0 <= k < |ids| => RowOf(tasks, ids[k]))
  }

  lemma {:induction false} RunClaims(s: State, cutoff: int, ids: seq<nat>)
    requires Distinct(ids)
    requires forall k :: 0 <= k < |ids| ==> ids[k] < |s.tasks|
    requires forall k :: 0 <= k < |ids| ==>
               Claimable(s, ids[k], cutoff) && s.tasks[ids[k]].retries <= s.config.maxRetries
    ensures var s' := Run(s, ClaimOps(cutoff, RowsOf(s.tasks, ids)));
            s' == s.(tasks := s'.tasks, claims := s'.claims, log := s'.log) && |s'.tasks| == |s.tasks| &&
            (forall i :: 0 <= i < |s.tasks| ==> s'.tasks[i] == if i in ids then Handled(s, s.tasks[i])
            else s.tasks[i]) &&
            Remaining(s'.tasks, s.config.maxRetries) == Remaining(s.tasks, s.config.maxRetries) - |ids|
    decreases |ids|
  {
    hide Run, Handled, After, Next, Remaining;
    var ops := ClaimOps(cutoff, RowsOf(s.tasks, ids));
    if ids == [] {
      RunNone(s);
      assert ops == [];
    } else {
      RunClaim(s, cutoff, ids[0]);
      var s1 := Run(s, [ops[0]]);
      forall k | 0 <= k < |ids[1..]| ensures s1.tasks[ids[1..][k]] == s.tasks[ids[1..][k]] {
        assert ids[1..][k] == ids[k + 1];
      }
      assert RowsOf(s1.tasks, ids[1..]) == RowsOf(s.tasks, ids)[1..];
      assert ops == [ops[0]] + ops[1..] && ops[1..] == ClaimOps(cutoff, RowsOf(s1.tasks, ids[1..]));
      RunAppend(s, [ops[0]], ops[1..]);
      RunClaims(s1, cutoff, ids[1..]);
      assert ids == [ids[0]] + ids[1..];
      forall t ensures Handled(s1, t) == Handled(s, t) { SameHandling(s, s1, t); }
    }
  }

  lemma SameHandling(s: State, s': State, t: Task)
    requires s.config == s'.config && s.clock == s'.clock
    ensures Handled(s, t) == Handled(s', t)
  {
  }

  function Cutoff(s: State): int {
    s.clock - s.config.threshold
  }

  lemma ListedClaimable(s: State)
    requires Inv(s)
    ensures var ids := ListedIds(s, Cutoff(s));
            Distinct(ids) && forall k :: 0 <= k < |ids| ==>
              Claimable(s, ids[k], Cutoff(s)) && s.tasks[ids[k]].retries <= s.config.maxRetries
  {
    hide ListedIds;
    var ids := ListedIds(s, Cutoff(s));
    ListedSpec(s, Cutoff(s));
    forall k | 0 <= k < |ids| ensures Claimable(s, ids[k], Cutoff(s)) &&
      s.tasks[ids[k]].retries <= s.config.maxRetries {
      assert ids[k] in ids;
      assert TaskOk(s, s.tasks[ids[k]]);
    }
  }

  lemma RunScan(s: State)
    ensures Run(s, [WatchdogClock]) == Run(s, ClaimOps(Cutoff(s), RowsOf(s.tasks, ListedIds(s, Cutoff(s)))))
  {
    hide Run, After, Next, ListedIds, ClaimOps;
    RunOne(s, WatchdogClock);
    RunOne(s, WatchdogList(Cutoff(s)));
    ScanSteps(s);
    assert ListStaleTasks(s, Cutoff(s)) == RowsOf(s.tasks, ListedIds(s, Cutoff(s)));
  }

  lemma ScanSteps(s: State)
    ensures After(s, WatchdogClock) == s && Next(s, WatchdogClock) == [WatchdogList(Cutoff(s))]
    ensures After(s, WatchdogList(Cutoff(s))) == s
    ensures Next(s, WatchdogList(Cutoff(s))) == ClaimOps(Cutoff(s), ListStaleTasks(s, Cutoff(s)))
  {
    hide ListStaleTasks, ClaimOps;
  }

  /** A cycle with no other actor requeues or fails exactly the listed tasks and
      spends exactly one remaining visit for each. */
  lemma Cycle(s: State)
    requires Inv(s)
    ensures var s', ids := Run(s, [WatchdogClock]), ListedIds(s, Cutoff(s));
            s' == s.(tasks := s'.tasks, claims := s'.claims, log := s'.log) && |s'.tasks| == |s.tasks| &&
            (forall i :: 0 <= i < |s.tasks| ==> s'.tasks[i] == if i in ids then Handled(s, s.tasks[i])
            else s.tasks[i]) &&
            Remaining(s'.tasks, s.config.maxRetries) == Remaining(s.tasks, s.config.maxRetries) - |ids|
  {
    hide Run, Inv, Handled, Remaining, ListedIds, Stale, ClaimOps, After, Next, RowsOf;
    var ids := ListedIds(s, Cutoff(s));
    RunScan(s);
    ListedClaimable(s);
    RunClaims(s, Cutoff(s), ids);
  }

  // ---- what a scan publishes

  /** The message that a row is published with again: without arguments. */
  function Bare(i: nat, t: Task): Message {
    Message(i, t.document, t.moduleName, t.input, NoKwargs)
  }

  /** A requeue publishes at least once, and never with arguments. */
  lemma RequeuePublishes(s: State, cutoff: int, i: nat)
    requires Claimable(s, i, cutoff)
    ensures var s' := Run(s, [WatchdogClaim(cutoff, RowOf(s.tasks, i))]);
            s.log <= s'.log && (s.tasks[i].retries < s.config.maxRetries ==> s.log < s'.log) &&
            forall k :: |s.log| <= k < |s'.log| ==> s'.log[k].msg == Bare(i, s.tasks[i])
  {
    hide Run, After, Next, Handled, Stale;
    var op := WatchdogClaim(cutoff, RowOf(s.tasks, i));
    RunOne(s, op);
    ClaimStep(s, cutoff, i);
    RunNone(After(s, op));
    if s.tasks[i].retries < s.config.maxRetries {
      RunRepublish(After(s, op), Bare(i, s.tasks[i]), 1);
    }
  }

  ghost predicate PublishedBare(s: State, s': State, i: nat)
    requires i < |s.tasks|
  {
    exists k :: |s.log| <= k < |s'.log| && s'.log[k].msg == Bare(i, s.tasks[i])
  }

  lemma {:induction false} ClaimsPublish(s: State, cutoff: int, ids: seq<nat>)
    requires Distinct(ids) && (forall k :: 0 <= k < |ids| ==> ids[k] < |s.tasks|)
    requires forall k :: 0 <= k < |ids| ==>
               Claimable(s, ids[k], cutoff) && s.tasks[ids[k]].retries <= s.config.maxRetries
    ensures var s' := Run(s, ClaimOps(cutoff, RowsOf(s.tasks, ids)));
            s.log <= s'.log && (forall k :: |s.log| <= k < |s'.log| ==> s'.log[k].msg.kwargs == NoKwargs) &&
            forall k :: 0 <= k < |ids| && s.tasks[ids[k]].retries < s.config.maxRetries ==> PublishedBare(s, s', ids[k])
    decreases |ids|
  {
    hide Run, After, Next, Handled, Remaining, Stale;
    var ops := ClaimOps(cutoff, RowsOf(s.tasks, ids));
    if ids == [] {
      RunNone(s);
      assert ops == [];
    } else {
      var rest := ids[1..];
      RunClaim(s, cutoff, ids[0]);
      RequeuePublishes(s, cutoff, ids[0]);
      var s1 := Run(s, [ops[0]]);
      forall k | 0 <= k < |rest| ensures s1.tasks[rest[k]] == s.tasks[rest[k]] {
        assert rest[k] == ids[k + 1];
      }
      assert RowsOf(s1.tasks, rest) == RowsOf(s.tasks, ids)[1..];
      assert ops == [ops[0]] + ops[1..] && ops[1..] == ClaimOps(cutoff, RowsOf(s1.tasks, rest));
      RunAppend(s, [ops[0]], ops[1..]);
      ClaimsPublish(s1, cutoff, rest);
      var s' := Run(s1, ops[1..]);
      forall k | 0 <= k < |ids| && s.tasks[ids[k]].retries < s.config.maxRetries ensures PublishedBare(s, s', ids[k]) {
        if k == 0 {
          assert s1.log[|s.log|].msg == Bare(ids[0], s.tasks[ids[0]]) && s'.log[|s.log|] == s1.log[|s.log|];
        } else {
          assert rest[k - 1] == ids[k] && PublishedBare(s1, s', rest[k - 1]);
        }
      }
    }
  }

  /** Everything that a scan publishes is without arguments, and it publishes
      every listed task that still has a retry. */
  lemma ScanPublishes(s: State)
    requires Inv(s)
    ensures var s', ids := Run(s, [WatchdogClock]), ListedIds(s, Cutoff(s));
            s.log <= s'.log && (forall k :: |s.log| <= k < |s'.log| ==> s'.log[k].msg.kwargs == NoKwargs) &&
            forall i :: i in ids ==>
              i < |s.tasks| && (s.tasks[i].retries < s.config.maxRetries ==> PublishedBare(s, s', i))
  {
    hide Run, Inv, Handled, ListedIds, Stale, ClaimOps, After, Next, RowsOf, PublishedBare;
    var ids := ListedIds(s, Cutoff(s));
    RunScan(s);
    ListedClaimable(s);
    ClaimsPublish(s, Cutoff(s), ids);
  }
}
