/** The first steps of `setupRepository`, which commit-component and init-repository
    both take before recreating the repository from the template. */
module RepoSetup {
  import opened Remote

  /** REPO_CREATION_WAIT: the pause after the template creation, in milliseconds. */
  const RepoCreationWait: nat := 2000
  /** The pause after a successful delete of the old repository. */
  const DeleteSettle: nat := 1000

  /** The delete of the old repository: a 404 is no error, any other error is rethrown,
      and a successful delete is followed by a one-second pause. */
  function DeleteOld(delete: Outcome<()>, repo: string): (f: Flow<()>)
    ensures f.trace == [DeleteRepo(repo)]
    ensures f.result.Err? <==> delete.Err? && delete.error.status != NotFound
    ensures f.result.Err? ==> f.result.error == delete.error && f.waits == []
    ensures f.result.Ok? ==> f.waits == (if delete.Ok? then [DeleteSettle] else [])
  {
    if delete.Err? && delete.error.status != NotFound then Flow(Err(delete.error), [DeleteRepo(repo)], [])
    else Flow(Ok(()), [DeleteRepo(repo)], if delete.Ok? then [DeleteSettle] else [])
  }

  /** After a tolerated delete the rest of the setup runs, its requests following the
      delete and its pauses following the settling pause, if any. */
  lemma DeleteTolerated<T>(delete: Outcome<()>, repo: string, next: Flow<T>)
    requires delete.Ok? || delete.error.status == NotFound
    ensures AndThen(DeleteOld(delete, repo), next)
      == Flow(next.result, [DeleteRepo(repo)] + next.trace, (if delete.Ok? then [DeleteSettle] else []) + next.waits)
  {
  }

  /** Any other delete error escapes and nothing after the delete runs. */
  lemma DeleteRethrown<T>(delete: Outcome<()>, repo: string, next: Flow<T>)
    requires delete.Err? && delete.error.status != NotFound
    ensures AndThen(DeleteOld(delete, repo), next) == Flow(Err(delete.error), [DeleteRepo(repo)], [])
  {
  }

  /** The try/catch around the delete, as written. */
  method DeleteOldRepository(delete: Outcome<()>, repo: string) returns (f: Flow<()>)
    ensures f == DeleteOld(delete, repo)
  {
    if delete.Ok? {
      return Flow(Ok(()), [DeleteRepo(repo)], [DeleteSettle]);
    }
    if delete.error.status != NotFound {
      return Flow(Err(delete.error), [DeleteRepo(repo)], []);
    }
    return Flow(Ok(()), [DeleteRepo(repo)], []);
  }
}
