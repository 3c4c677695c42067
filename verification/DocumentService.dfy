/** Registering an uploaded document. */
module DocumentApi {
  import opened Model
  import opened Machine
  import opened Invariants
  import opened Atomic
  import opened Interleaving
  import opened Database

  class DocumentService {
    const repo: Store

    constructor (repo: Store)
      ensures this.repo == repo
    {
      this.repo := repo;
    }

    /** Any path is accepted, a blank one too. */
    method Create(org: nat, path: string) returns (id: nat)
      requires Inv(repo.View())
      modifies repo
      ensures Inv(repo.View()) && repo.View() == Run(old(repo.View()), [Upload(org, path)])
      ensures id == |old(repo.documents)| && repo.documents == old(repo.documents) + [Document(org, None, None, path)]
    {
      hide Run, Inv, Evolves;
      ghost var v := repo.View();
      EventOk(v, Upload(org, path), 0, Attempts);
      RunKeeps(v, [Upload(org, path)]);
      RunLast(v, Upload(org, path));
      id := repo.InsertDocument(org, path);
    }
  }
}
