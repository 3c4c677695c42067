/** The public task API. */
module TaskApi {
  import opened Model
  import opened Statements
  import opened Machine
  import opened Invariants
  import opened Atomic
  import opened Interleaving
  import opened Database
  import opened Outcomes

  class DocumentTaskService {
    const repo: Store

    constructor (repo: Store)
      ensures this.repo == repo
    {
      this.repo := repo;
    }

    /** Only convert tasks may be created here. The publish is best effort. */
    method Create(m: Module, document: nat, org: nat) returns (r: Result<nat>)
      requires Inv(repo.View())
      modifies repo
      ensures Inv(repo.View())
      ensures m != Convert ==> r == Err(ValidationFailed) && repo.View() == old(repo.View())
      ensures m == Convert ==>
                var v := old(repo.View());
                repo.View() == Run(v, [PublicCreate(document, org)]) &&
                if document >= |v.documents| || v.documents[document].org != org then r == Err(NotFound)
                else match InsertOutcome(v, PublicRow(v, document))
                     case Row(id) => r == Ok(id)
                     case Conflict => r == Err(AlreadyExists)
                     case Rejected => r == Err(InternalError)
      ensures var v := old(repo.View());
              r.Ok? <==> m == Convert && document < |v.documents| && v.documents[document].org == org &&
                         !Blank(v.documents[document].path) && !HasSingleton(v, document, Convert)
      ensures r.Err? ==> repo.View() == old(repo.View())
      ensures r.Ok? ==>
                var v := old(repo.View());
                document < |v.documents| && r.value == |v.tasks| &&
                var path := v.documents[document].path;
                repo.View() == v.(
                  tasks := v.tasks + [Task(document, Convert, Pending, None, EMPTY_PAYLOAD, None, 0, path, None,
                                           v.clock)],
                  log := v.log + [Attempt(Message(r.value, document, Convert, path, NoKwargs), v.broker(|v.log|))])
    {
      hide Run, Inv, Evolves, InsertOutcome, Blank, HasSingleton;
      if m != Convert {
        return Err(ValidationFailed);
      }
      ghost var v := repo.View();
      EventOk(v, PublicCreate(document, org), 0, Attempts);
      RunKeeps(v, [PublicCreate(document, org)]);
      RunOne(v, PublicCreate(document, org));
      if document < |repo.documents| && repo.documents[document].org == org {
        CreateIs(v, document);
        FreeSlot(v, document, Convert, repo.documents[document].path);
      }
      var created := repo.CreateDocumentTask(document, m, org);
      RunNone(repo.View());
      match created {
        case None => return Err(NotFound);
        case Some(Conflict) => return Err(AlreadyExists);
        case Some(Rejected) => return Err(InternalError);
        case Some(Row(id)) =>
          var msg := Message(id, document, Convert, repo.documents[document].path, NoKwargs);
          RunOne(repo.View(), PublishTask(msg, Ignore));
          var _ := repo.Process(msg);
          RunNone(repo.View());
          return Ok(id);
      }
    }

    /** Sets the status unconditionally, for a task of the caller's tenant. */
    method UpdateStatus(task: nat, org: nat, status: TaskStatus) returns (r: Result<Task>)
      requires Inv(repo.View())
      modifies repo
      ensures Inv(repo.View()) && repo.View() == Run(old(repo.View()), [PublicStatus(task, org, status)])
      ensures r.Ok? <==> task < |old(repo.tasks)| && old(repo.documents)[old(repo.tasks)[task].document].org == org
      ensures r.Ok? ==> r.value == old(repo.tasks)[task].(status := status, updatedAt := repo.clock)
      ensures r.Err? ==> r == Err(NotFound) && repo.View() == old(repo.View())
    {
      hide Run, Inv, Evolves;
      ghost var v := repo.View();
      EventOk(v, PublicStatus(task, org, status), 0, Attempts);
      RunKeeps(v, [PublicStatus(task, org, status)]);
      RunLast(v, PublicStatus(task, org, status));
      if task < |repo.tasks| {
        DocumentThere(v, task);
      }
      var updated := repo.UpdateStatus(task, org, status);
      return if updated.Some? then Ok(updated.value) else Err(NotFound);
    }
  }

  lemma DocumentThere(s: State, t: nat)
    requires Inv(s) && t < |s.tasks|
    ensures s.tasks[t].document < |s.documents|
  {
    assert TaskOk(s, s.tasks[t]);
  }
}
