/** The watchdog's scan: list, claim, publish again. */
module WatchdogLoop {
  import opened Model
  import opened Statements
  import opened Machine
  import opened Invariants
  import opened Database
  import opened Watchdog
  import opened Fairness
  import opened Outcomes
  import opened Effects

  class WatchdogService {
    const q: Store

    constructor (q: Store)
      ensures this.q == q
    {
      this.q := q;
    }

    /** Sends up to three times; stops when delivered, and gives up instead of the
        next attempt, even the first, when the process is shutting down. */
    method PublishAgain(msg: Message) returns (delivered: bool)
      modifies q
      ensures q.View() == Run(old(q.View()), [Republish(msg, 1)])
      ensures q.View() == old(q.View()).(log := q.log)
      ensures |old(q.log)| < |q.log| <= |old(q.log)| + MAX_PUBLISH_ATTEMPTS && old(q.log) <= q.log
      ensures delivered <==> q.log[|q.log| - 1].outcome == Delivered
      ensures forall i :: |old(q.log)| <= i < |q.log| ==> q.log[i].msg == msg
      ensures forall i :: |old(q.log)| <= i < |q.log| - 1 ==> q.log[i].outcome == Refused
      ensures q.log[|q.log| - 1].outcome == Refused ==> |q.log| == |old(q.log)| + MAX_PUBLISH_ATTEMPTS
    {
      hide Run;
      ghost var v := q.View();
      var attempt := 1;
      while attempt <= MAX_PUBLISH_ATTEMPTS
        invariant 1 <= attempt <= MAX_PUBLISH_ATTEMPTS + 1
        invariant Run(v, [Republish(msg, 1)]) ==
                  if attempt <= MAX_PUBLISH_ATTEMPTS then Run(q.View(), [Republish(msg, attempt)]) else q.View()
        invariant q.View() == v.(log := q.log) && |q.log| == |v.log| + attempt - 1 && v.log <= q.log
        invariant forall i :: |v.log| <= i < |q.log| ==> q.log[i].msg == msg && q.log[i].outcome == Refused
      {
        RunOne(q.View(), Republish(msg, attempt));
        var outcome := q.Process(msg);
        RunNone(q.View());
        if outcome == Delivered {
          return true;
        }
        if outcome == Cancelled {
          return false;
        }
        attempt := attempt + 1;
      }
      return false;
    }

    /** Fails the task if its retries are used up, or else claims it and, if the
        claim is won, publishes it again. */
    method ProcessTask(cutoff: int, task: StaleRow)
      modifies q
      ensures q.View() == Run(old(q.View()), [WatchdogClaim(cutoff, task)])
      ensures !Claimable(old(q.View()), task.id, cutoff) ==> q.View() == old(q.View())
    {
      hide Run;
      ghost var v := q.View();
      RunOne(v, WatchdogClaim(cutoff, task));
      if task.retries >= q.config.maxRetries {
        var rows := q.MarkStaleFailed(task.id, cutoff, StaleTask(task.retries, q.config.maxRetries));
        RunNone(q.View());
        return;
      }
      var rows := q.MarkStalePending(task.id, cutoff);
      RunNone(q.View());
      if rows == 0 {
        return;
      }
      var _ := PublishAgain(Message(task.id, task.document, task.moduleName, task.input, NoKwargs));
    }

    /** One scan: exactly the listed tasks are requeued, or failed when their
        retries are used up; every other row stays as it is. */
    method RunOnce()
      requires Inv(q.View())
      modifies q
      ensures q.View() == Run(old(q.View()), [WatchdogClock]) && Inv(q.View())
      ensures var v := old(q.View());
              |q.tasks| == |v.tasks| && forall i :: 0 <= i < |q.tasks| ==>
                q.tasks[i] == if i in ListedIds(v, Cutoff(v)) then Handled(v, v.tasks[i]) else v.tasks[i]
      ensures var v := old(q.View()); q.View() == Scanned(v, ListedIds(v, v.clock - v.config.threshold))
    {
      hide Run, Inv, Evolves, ListedIds, Handled, Remaining, After, Next, Scanned;
      ghost var v := q.View();
      ScanIs(v);
      PatrolKeeps(v, 0);
      assert Waited(v, 0) == v;
      Cycle(v);
      RunOne(v, WatchdogClock);
      ScanSteps(v);
      var cutoff := q.clock - q.config.threshold;
      RunOne(v, WatchdogList(cutoff));
      var rows := q.ListStale(cutoff);
      for i := 0 to |rows|
        invariant Run(v, [WatchdogClock]) == Run(q.View(), ClaimOps(cutoff, rows)[i..])
      {
        ghost var claim, rest := WatchdogClaim(cutoff, rows[i]), ClaimOps(cutoff, rows)[i + 1..];
        assert ClaimOps(cutoff, rows)[i..] == [claim] + rest;
        RunAppend(q.View(), [claim], rest);
        ProcessTask(cutoff, rows[i]);
      }
      RunNone(q.View());
      assert ClaimOps(cutoff, rows)[|rows|..] == [];
      assert q.tasks == Run(v, [WatchdogClock]).tasks;
    }
  }
}
