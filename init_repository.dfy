/** The init-repository endpoint: it recreates the user's repository from the template
    and writes the map configuration into it, updating `config-map.js` when it can read
    the file and adding it when the read or the update answers 404. */
module InitRepository {
  import opened Remote
  import opened Layout
  import opened RepoSetup
  import Retry

  /** MAX_RETRIES: the attempts `retryOperation` makes here. */
  const MaxRetries: int := 2

  /** The remote side of `setupRepository`: the delete, and scripts for the template
      creation, the read of `config-map.js`, its update with the read sha, and the
      write that adds it without a sha. */
  datatype SetupOracle = SetupOracle(
    delete: Outcome<()>, create: Script<()>, read: Script<string>, update: Script<()>, add: Script<()>)

  /** The request that updates `config-map.js` in place. */
  function UpdatePut(mapConfigJson: string, sha: string): Call {
    PutContent(ConfigPath, "Update map configuration", ConfigModule(mapConfigJson), Some(sha))
  }

  /** The request that adds `config-map.js`: it carries no sha. */
  function AddPut(mapConfigJson: string): Call {
    PutContent(ConfigPath, "Add map configuration", ConfigModule(mapConfigJson), None)
  }

  /** The `try` block: read the file (two attempts), then update it with the sha the
      read returned (two attempts). */
  function ConfigAttempt(o: SetupOracle, mapConfigJson: string): Flow<()> {
    var read := Retry.RetryFlow(o.read, MaxRetries, Retry.RetryDelay, GetContent(ConfigPath));
    if read.result.Err? then Flow(Err(read.result.error), read.trace, read.waits)
    else AndThen(read, Retry.RetryFlow(o.update, MaxRetries, Retry.RetryDelay, UpdatePut(mapConfigJson, read.result.value)))
  }

  /** The whole configuration write: a 404 escaping the `try` block is answered by
      adding the file (two attempts); any other error is rethrown. */
  function WriteConfig(o: SetupOracle, mapConfigJson: string): Flow<()> {
    var tried := ConfigAttempt(o, mapConfigJson);
    if tried.result.Err? && tried.result.error.status == NotFound then
      AndThen(Flow(Ok(()), tried.trace, tried.waits),
              Retry.RetryFlow(o.add, MaxRetries, Retry.RetryDelay, AddPut(mapConfigJson)))
    else tried
  }

  /** Everything after the delete: create from the template, wait, write the
      configuration. */
  function Recreate(o: SetupOracle, repo: string, mapConfigJson: string): Flow<()> {
    AndThen(Retry.RetryFlow(o.create, MaxRetries, Retry.RetryDelay, CreateFromTemplate(repo)),
            AndThen(Flow(Ok(()), [], [RepoCreationWait]), WriteConfig(o, mapConfigJson)))
  }

  /** `setupRepository`. */
  function Setup(o: SetupOracle, repo: string, mapConfigJson: string): Flow<()> {
    AndThen(DeleteOld(o.delete, repo), Recreate(o, repo, mapConfigJson))
  }

  /** With two retries an operation issuing `call` is invoked once when it succeeds at
      once; otherwise twice, with one pause of a second between the two, and it ends
      with the second outcome: a second error is rethrown unchanged. */
  lemma TwoAttempts<T>(op: Script<T>, call: Call)
    ensures op(0).Ok? ==> Retry.RetryFlow(op, MaxRetries, Retry.RetryDelay, call) == Flow(op(0), [call], [])
    ensures op(0).Err? ==> Retry.RetryFlow(op, MaxRetries, Retry.RetryDelay, call) == Flow(op(1), [call, call], [1000])
  {
    Retry.RetryShape(op, MaxRetries, Retry.RetryDelay);
    assert Repeat(call, 1) == [call];
    assert Repeat(call, 2) == [call, call];
    assert Retry.Pauses(0, 1000) == [];
    assert Retry.Pauses(1, 1000) == [1000];
  }

  /** Any delete error but a 404 is rethrown before anything is created. */
  lemma SetupDeleteFailure(o: SetupOracle, repo: string, mapConfigJson: string)
    requires o.delete.Err? && o.delete.error.status != NotFound
    ensures Setup(o, repo, mapConfigJson) == Flow(Err(o.delete.error), [DeleteRepo(repo)], [])
  {
    DeleteRethrown(o.delete, repo, Recreate(o, repo, mapConfigJson));
  }

  /** A successful delete, or a 404 from it, is no error: the rest of the setup runs
      and begins with the template creation. */
  lemma SetupDeleteTolerated(o: SetupOracle, repo: string, mapConfigJson: string)
    requires o.delete.Ok? || o.delete.error.status == NotFound
    ensures var r := Recreate(o, repo, mapConfigJson);
      && Setup(o, repo, mapConfigJson)
         == Flow(r.result, [DeleteRepo(repo)] + r.trace, (if o.delete.Ok? then [DeleteSettle] else []) + r.waits)
      && |r.trace| > 0 && r.trace[0] == CreateFromTemplate(repo)
  {
    var c := Retry.RetryFlow(o.create, MaxRetries, Retry.RetryDelay, CreateFromTemplate(repo));
    TwoAttempts(o.create, CreateFromTemplate(repo));
    AndThenStarts(c, AndThen(Flow(Ok(()), [], [RepoCreationWait]), WriteConfig(o, mapConfigJson)));
    DeleteTolerated(o.delete, repo, Recreate(o, repo, mapConfigJson));
  }

  /** A read that succeeds is followed by updates carrying exactly the sha it returned:
      one update when it succeeds, and then the write ends without an add; two when the
      first fails, and then the try block ends with the second update's outcome. */
  lemma UpdateCarriesReadSha(o: SetupOracle, mapConfigJson: string, k: nat)
    requires k < 2 && o.read(k).Ok? && (k == 1 ==> o.read(0).Err?)
    ensures var gets := Repeat(GetContent(ConfigPath), k + 1);
      var put := UpdatePut(mapConfigJson, o.read(k).value);
      && (o.update(0).Ok? ==>
            WriteConfig(o, mapConfigJson) == Flow(Ok(()), gets + [put], Retry.Pauses(k, 1000)))
      && (o.update(0).Err? ==>
            ConfigAttempt(o, mapConfigJson) == Flow(o.update(1), gets + [put, put], Retry.Pauses(k, 1000) + [1000]))
  {
    var get := GetContent(ConfigPath);
    TwoAttempts(o.read, get);
    var read := Retry.RetryFlow(o.read, MaxRetries, Retry.RetryDelay, get);
    assert read == Flow(o.read(k), Repeat(get, k + 1), Retry.Pauses(k, 1000)) by {
      if k == 0 {
        assert Repeat(get, 1) == [get];
      } else {
        assert Repeat(get, 2) == [get, get];
        assert Retry.Pauses(1, 1000) == [1000];
      }
    }
    TwoAttempts(o.update, UpdatePut(mapConfigJson, o.read(k).value));
    if o.update(0).Ok? {
      assert o.update(0).value == ();
    }
  }

  /** A 404 escaping the read or the update is answered by adding the file without a
      sha, with the add's own retry loop, and the write ends with the add's outcome. */
  lemma NotFoundAddsFile(o: SetupOracle, mapConfigJson: string)
    requires ConfigAttempt(o, mapConfigJson).result.Err?
    requires ConfigAttempt(o, mapConfigJson).result.error.status == NotFound
    ensures var tried := ConfigAttempt(o, mapConfigJson);
      var f := WriteConfig(o, mapConfigJson);
      && (o.add(0).Ok? ==> f == Flow(Ok(()), tried.trace + [AddPut(mapConfigJson)], tried.waits))
      && (o.add(0).Err? ==>
            f == Flow(o.add(1), tried.trace + [AddPut(mapConfigJson), AddPut(mapConfigJson)], tried.waits + [1000]))
  {
    TwoAttempts(o.add, AddPut(mapConfigJson));
    if o.add(0).Ok? {
      assert o.add(0).value == ();
      var tried := ConfigAttempt(o, mapConfigJson);
      assert tried.waits + [] == tried.waits;
    }
  }

  /** When both reads answer 404 and the first add succeeds, exactly one add follows
      the two reads. */
  lemma MissingFileAddedOnce(o: SetupOracle, mapConfigJson: string)
    requires o.read(0).Err? && o.read(0).error.status == NotFound
    requires o.read(1).Err? && o.read(1).error.status == NotFound
    requires o.add(0).Ok?
    ensures WriteConfig(o, mapConfigJson)
      == Flow(Ok(()), [GetContent(ConfigPath), GetContent(ConfigPath), AddPut(mapConfigJson)], [1000])
  {
    TwoAttempts(o.read, GetContent(ConfigPath));
    TwoAttempts(o.add, AddPut(mapConfigJson));
    assert o.add(0).value == ();
  }

  /** Any other error escaping the `try` block is rethrown unchanged, and no add is
      issued. */
  lemma OtherErrorsRethrown(o: SetupOracle, mapConfigJson: string)
    requires ConfigAttempt(o, mapConfigJson).result.Err?
    requires ConfigAttempt(o, mapConfigJson).result.error.status != NotFound
    ensures WriteConfig(o, mapConfigJson) == ConfigAttempt(o, mapConfigJson)
    ensures AddPut(mapConfigJson) !in WriteConfig(o, mapConfigJson).trace
  {
    AttemptIssuesNoAdd(o, mapConfigJson);
  }

  /** The `try` block only reads the file and writes it with a sha. */
  lemma AttemptIssuesNoAdd(o: SetupOracle, mapConfigJson: string)
    ensures forall c :: c in ConfigAttempt(o, mapConfigJson).trace ==>
      c == GetContent(ConfigPath) || (c.PutContent? && c.sha.Some?)
  {
    var read := Retry.RetryFlow(o.read, MaxRetries, Retry.RetryDelay, GetContent(ConfigPath));
    RepeatOnly(GetContent(ConfigPath), Retry.Retried(o.read, MaxRetries, Retry.RetryDelay).calls);
    if read.result.Ok? {
      var put := UpdatePut(mapConfigJson, read.result.value);
      RepeatOnly(put, Retry.Retried(o.update, MaxRetries, Retry.RetryDelay).calls);
      var update := Retry.RetryFlow(o.update, MaxRetries, Retry.RetryDelay, put);
      assert ConfigAttempt(o, mapConfigJson).trace == read.trace + update.trace;
    }
  }

  /** `setupRepository` as written, over the shared retry loop and try/catch. */
  method SetupRepository(o: SetupOracle, repo: string, mapConfigJson: string) returns (f: Flow<()>)
    ensures f == Setup(o, repo, mapConfigJson)
  {
    var deleted := DeleteOldRepository(o.delete, repo);
    if deleted.result.Err? {
      return Flow(Err(deleted.result.error), deleted.trace, deleted.waits);
    }
    var created := Retry.Retrying(o.create, MaxRetries, CreateFromTemplate(repo));
    if created.result.Err? {
      return AndThen(deleted, created);
    }
    var settle := Flow(Ok(()), [], [RepoCreationWait]);
    var written := WriteConfiguration(o, mapConfigJson);
    return AndThen(deleted, AndThen(created, AndThen(settle, written)));
  }

  /** The try/catch around the read and the update of `config-map.js`. */
  method WriteConfiguration(o: SetupOracle, mapConfigJson: string) returns (f: Flow<()>)
    ensures f == WriteConfig(o, mapConfigJson)
  {
    var tried: Flow<()>;
    var current := Retry.Retrying(o.read, MaxRetries, GetContent(ConfigPath));
    if current.result.Err? {
      tried := Flow(Err(current.result.error), current.trace, current.waits);
    } else {
      var updated := Retry.Retrying(o.update, MaxRetries, UpdatePut(mapConfigJson, current.result.value));
      tried := AndThen(current, updated);
    }
    if tried.result.Err? {
      if tried.result.error.status == NotFound {
        var added := Retry.Retrying(o.add, MaxRetries, AddPut(mapConfigJson));
        return AndThen(Flow(Ok(()), tried.trace, tried.waits), added);
      }
      return tried;
    }
    return tried;
  }

  // ---------------------------------------------------------------- the endpoint

  /** A JSON response: an error body with its status, or a success body. */
  datatype Response = Failure(status: int, error: string) | Success(repoUrl: string)

  /** The handler: `error.message || 'Failed to initialize repository'` with
      `error.status || 500`. */
  function Caught(e: Error): (r: Response)
    ensures r.Failure? && r.status != 0 && r.error != ""
    ensures e.status != 0 ==> r.status == e.status
    ensures e.message != "" ==> r.error == e.message
  {
    Failure(StatusOr(e, 500), MessageOr(e, "Failed to initialize repository"))
  }

  /** `getAuthenticated` (the login), then `setupRepository`; on success the login,
      which is not looked up again. */
  function Steps(repoName: string, mapConfigJson: string, user: Outcome<string>, o: SetupOracle): Flow<string> {
    var auth := Flow(user, [GetAuthenticated], []);
    AndThen(auth, AndThen(Setup(o, repoName, mapConfigJson), Flow(user, [], [])))
  }

  /** Setting the repository up never asks who the user is. */
  lemma SetupNeverAuthenticates(o: SetupOracle, repo: string, mapConfigJson: string)
    ensures GetAuthenticated !in Setup(o, repo, mapConfigJson).trace
  {
    Retry.RetryIssuesOnly(o.create, MaxRetries, Retry.RetryDelay, CreateFromTemplate(repo));
    Retry.RetryIssuesOnly(o.read, MaxRetries, Retry.RetryDelay, GetContent(ConfigPath));
    Retry.RetryIssuesOnly(o.add, MaxRetries, Retry.RetryDelay, AddPut(mapConfigJson));
    var read := Retry.RetryFlow(o.read, MaxRetries, Retry.RetryDelay, GetContent(ConfigPath));
    if read.result.Ok? {
      Retry.RetryIssuesOnly(o.update, MaxRetries, Retry.RetryDelay, UpdatePut(mapConfigJson, read.result.value));
    }
  }

  /** `POST`. A missing token is thrown as a plain Error, which the handler answers with
      500 and its message before any GitHub request; otherwise the endpoint answers with
      the repository's URL exactly when authentication and the setup succeed, and with
      the escaping error otherwise. */
  method Post(tokenConfigured: bool, repoName: string, mapConfigJson: string, user: Outcome<string>, o: SetupOracle)
    returns (resp: Response, trace: seq<Call>, waits: seq<nat>)
    ensures !tokenConfigured ==> resp == Failure(500, "GitHub token not configured") && trace == [] && waits == []
    ensures tokenConfigured ==>
      var f := Steps(repoName, mapConfigJson, user, o);
      && trace == f.trace && waits == f.waits
      && trace[0] == GetAuthenticated && GetAuthenticated !in trace[1..]
      && (resp.Success? <==> user.Ok? && Setup(o, repoName, mapConfigJson).result.Ok?)
      && (resp.Success? ==> resp.repoUrl == RepoUrl(user.value, repoName))
      && (resp.Failure? ==> f.result.Err? && resp == Caught(f.result.error))
  {
    if !tokenConfigured {
      return Caught(Thrown("GitHub token not configured")), [], [];
    }
    var auth := Flow(user, [GetAuthenticated], []);
    if user.Err? {
      return Caught(user.error), auth.trace, auth.waits;
    }
    var s := SetupRepository(o, repoName, mapConfigJson);
    var f := AndThen(auth, AndThen(s, Flow(user, [], [])));
    trace, waits := f.trace, f.waits;
    assert s.trace == Setup(o, repoName, mapConfigJson).trace;
    SetupNeverAuthenticates(o, repoName, mapConfigJson);
    assert trace == [GetAuthenticated] + s.trace;
    assert trace[1..] == s.trace;
    if s.result.Err? {
      resp := Caught(s.result.error);
    } else {
      resp := Success(RepoUrl(user.value, repoName));
    }
  }
}
