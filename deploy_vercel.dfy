/** The deploy-vercel endpoint: it waits for the new repository to be visible on GitHub,
    creates a project for it on the deployment platform, looks up the project's domains
    (a lookup that is allowed to fail), and starts a deployment of the `main` branch. */
module DeployVercel {
  import opened Remote
  import JsText
  import Retry

  // ---------------------------------------------------------------- waitForRepo

  /** `maxAttempts` as the endpoint calls `waitForRepo`. */
  const MaxAttempts: int := 5

  /** The pause between two polls, in milliseconds. */
  const PollDelay: nat := 2000

  /** The error `waitForRepo` throws once every poll has failed. */
  function GaveUp(maxAttempts: int): Error {
    Thrown("Failed to find repository after " + JsText.DecimalString(maxAttempts) + " attempts")
  }

  /** `waitForRepo`: the retry loop with a pause of two seconds, polling `repos.get`;
      `gets(i)` is the outcome of the i-th poll, the repository's id on success (0 for
      a repository without one). It resolves to the first repository found, throws its
      own error when every poll failed, and to undefined (`None`) when no poll is
      allowed. */
  function WaitSpec(gets: Script<int>, owner: string, repo: string, maxAttempts: int): Flow<Option<int>> {
    var r := Retry.Retried(gets, maxAttempts, PollDelay);
    var result := if r.result.None? then Ok(None)
                  else if r.result.value.Ok? then Ok(Some(r.result.value.value))
                  else Err(GaveUp(maxAttempts));
    Flow(result, Repeat(GetRepo(owner, repo), r.calls), r.waits)
  }

  /** `waitForRepo` as written: a counter loop that returns on the first success, throws
      after the last failure and otherwise pauses. */
  method WaitForRepo(gets: Script<int>, owner: string, repo: string, maxAttempts: int) returns (f: Flow<Option<int>>)
    ensures f == WaitSpec(gets, owner, repo, maxAttempts)
  {
    var waits: seq<nat> := [];
    var i: nat := 0;
    while i < maxAttempts
      invariant maxAttempts > 0 ==> i < maxAttempts && waits == Retry.Pauses(i, PollDelay)
      invariant maxAttempts > 0 ==> Retry.Invocations(gets, 0, maxAttempts) == Retry.Invocations(gets, i, maxAttempts)
      invariant maxAttempts <= 0 ==> i == 0
      decreases maxAttempts - i
    {
      var data := gets(i);
      if data.Ok? {
        return Flow(Ok(Some(data.value)), Repeat(GetRepo(owner, repo), i + 1), waits);
      }
      if i == maxAttempts - 1 {
        return Flow(Err(GaveUp(maxAttempts)), Repeat(GetRepo(owner, repo), i + 1), waits);
      }
      waits := waits + [PollDelay];
      i := i + 1;
    }
    return Flow(Ok(None), [], []);
  }

  /** The repository is polled at most `maxAttempts` times, with a pause of two seconds
      between consecutive polls and none after the last. */
  lemma WaitBounds(gets: Script<int>, owner: string, repo: string, maxAttempts: int)
    requires maxAttempts > 0
    ensures var f := WaitSpec(gets, owner, repo, maxAttempts);
      && 1 <= |f.trace| <= maxAttempts
      && (forall c :: c in f.trace ==> c == GetRepo(owner, repo))
      && |f.waits| == |f.trace| - 1
      && (forall w :: w in f.waits ==> w == PollDelay)
  {
    Retry.RetryShape(gets, maxAttempts, PollDelay);
  }

  /** A repository that shows up at poll `k` is returned from that poll, after `k`
      failed polls and `k` pauses. */
  lemma WaitReturnsFirstFound(gets: Script<int>, owner: string, repo: string, maxAttempts: int, k: nat)
    requires k < maxAttempts && gets(k).Ok?
    requires forall j :: 0 <= j < k ==> gets(j).Err?
    ensures WaitSpec(gets, owner, repo, maxAttempts)
         == Flow(Ok(Some(gets(k).value)), Repeat(GetRepo(owner, repo), k + 1), Retry.Pauses(k, PollDelay))
  {
    Retry.RetryReturnsFirstSuccess(gets, maxAttempts, PollDelay, k);
  }

  /** When every poll fails, the repository is polled `maxAttempts` times and the
      loop's own error replaces the last poll's. */
  lemma WaitGivesUp(gets: Script<int>, owner: string, repo: string, maxAttempts: int)
    requires maxAttempts > 0
    requires forall j :: 0 <= j < maxAttempts ==> gets(j).Err?
    ensures WaitSpec(gets, owner, repo, maxAttempts)
         == Flow(Err(GaveUp(maxAttempts)), Repeat(GetRepo(owner, repo), maxAttempts), Retry.Pauses(maxAttempts - 1, PollDelay))
  {
    Retry.RetryRethrowsLast(gets, maxAttempts, PollDelay);
  }

  /** With the endpoint's five attempts, the message names them. */
  lemma GaveUpAfterFive()
    ensures GaveUp(MaxAttempts).message == "Failed to find repository after 5 attempts"
  {
    assert JsText.Digits(5) == "5";
  }

  // ---------------------------------------------------------------- the endpoint

  /** The request body: unreadable (with the parser's message), or read with its
      `repoName` (`""` when missing or empty). */
  datatype Body = Malformed(message: string) | Body(repoName: string)

  /** A reply of the project-creation request: its `ok` flag, the project's `id` (`""`
      when absent) and `error.message` (`""` when absent). */
  datatype ProjectReply = ProjectReply(ok: bool, id: string, errorMessage: string)

  /** A reply of the domain lookup: its `ok` flag and its `domains` field (`None` when
      absent), each domain by its `name` (`""` when absent). */
  datatype DomainsReply = DomainsReply(ok: bool, domains: Option<seq<string>>)

  /** A reply of the deployment request: its `ok` flag, its `url` and `error.message`. */
  datatype DeployReply = DeployReply(ok: bool, url: string, errorMessage: string)

  /** The remote side. An `Err` is a request that rejected, or whose body could not be
      read. */
  datatype Remotes = Remotes(gets: Script<int>, project: Outcome<ProjectReply>,
                             domains: Outcome<DomainsReply>, deploy: Outcome<DeployReply>)

  datatype Response =
    | Failure(status: int, error: string, details: Option<string>)
    | Deployed(message: string, deploymentUrl: string, projectUrl: Option<string>)

  const Initiated: string := "Project created and deployment initiated"

  /** The outer handler: `error.message || 'Failed to deploy'` with `error.status || 500`. */
  function Caught(e: Error): (r: Response)
    ensures r.Failure? && r.status != 0 && r.error != ""
    ensures e.status != 0 ==> r.status == e.status
    ensures e.message != "" ==> r.error == e.message
  {
    Failure(StatusOr(e, 500), MessageOr(e, "Failed to deploy"), None)
  }

  /** `json(...)` of a non-ok reply, `||` its fallback. */
  function Rejected(message: string, fallback: string): Error {
    Thrown(if message != "" then message else fallback)
  }

  /** `domainsData` after the lookup's own `try`: undefined (`None`) unless the lookup
      answered `ok`, in which case it is the reply's body, even when the `domains` check
      threw. */
  function DomainsData(lookup: Outcome<DomainsReply>): Option<Option<seq<string>>> {
    if lookup.Ok? && lookup.value.ok then Some(lookup.value.domains) else None
  }

  /** Everything up to the deployment: the polls, the project, the domain lookup and the
      deployment request; on success the deployment's URL. */
  function Launch(username: string, repoName: string, rs: Remotes): Flow<string> {
    var wait := WaitSpec(rs.gets, username, repoName, MaxAttempts);
    if wait.result.Err? then Flow(Err(wait.result.error), wait.trace, wait.waits)
    else if wait.result.value.None? || wait.result.value.value == 0 then
      Flow(Err(Thrown("Failed to get valid repository data")), wait.trace, wait.waits)
    else
      var repoId := wait.result.value.value;
      var created := wait.trace + [CreateProject(repoName, repoId)];
      if rs.project.Err? then Flow(Err(rs.project.error), created, wait.waits)
      else if !rs.project.value.ok || rs.project.value.id == "" then
        Flow(Err(Rejected(rs.project.value.errorMessage, "Failed to create Vercel project")), created, wait.waits)
      else
        var projectId := rs.project.value.id;
        var deployed := created + [GetDomains(projectId), CreateDeployment(repoName, projectId)];
        if rs.deploy.Err? then Flow(Err(rs.deploy.error), deployed, wait.waits)
        else if !rs.deploy.value.ok then
          Flow(Err(Rejected(rs.deploy.value.errorMessage, "Failed to create deployment")), deployed, wait.waits)
        else Flow(Ok(rs.deploy.value.url), deployed, wait.waits)
  }

  /** The TypeError that reading `[0]` of an absent `domains` field throws. */
  const NoDomainsField: Error := Thrown("Cannot read properties of undefined (reading '0')")

  /** `domainsData?.domains[0]?.name` and `productionUrl` as written: the optional chain
      guards `domainsData` but not its `domains` field. */
  function ProductionUrl(data: Option<Option<seq<string>>>): Outcome<Option<string>> {
    if data.None? then Ok(None)
    else if data.value.None? then Err(NoDomainsField)
    else
      var names := data.value.value;
      if |names| > 0 && names[0] != "" then Ok(Some("https://" + names[0])) else Ok(None)
  }

  /** The production URL as evidently intended: the first domain's name when the lookup
      produced one, and nothing otherwise. */
  function IntendedProductionUrl(data: Option<Option<seq<string>>>): (url: Option<string>)
    ensures url.Some? <==> data.Some? && data.value.Some? && |data.value.value| > 0 && data.value.value[0] != ""
    ensures url.Some? ==> url.value == "https://" + data.value.value[0]
  {
    if data.Some? && data.value.Some? && |data.value.value| > 0 && data.value.value[0] != "" then
      Some("https://" + data.value.value[0])
    else None
  }

  /** The URL as written differs from the intended one in one case only: a lookup that
      answered without a `domains` field throws instead of giving no URL. */
  lemma ProductionUrlDiffersOnlyWithoutField(data: Option<Option<seq<string>>>)
    ensures ProductionUrl(data).Err? <==> data == Some(None)
    ensures ProductionUrl(data).Ok? ==> ProductionUrl(data).value == IntendedProductionUrl(data)
    ensures data == Some(None) ==> IntendedProductionUrl(data).None?
  {
  }

  /** The protected part of `POST` as written: on success the deployment's URL and the
      production URL. */
  function Steps(username: string, repoName: string, rs: Remotes): Flow<(string, Option<string>)> {
    var launched := Launch(username, repoName, rs);
    var url := ProductionUrl(DomainsData(rs.domains));
    if launched.result.Err? then Flow(Err(launched.result.error), launched.trace, launched.waits)
    else if url.Err? then Flow(Err(url.error), launched.trace, launched.waits)
    else Flow(Ok((launched.result.value, url.value)), launched.trace, launched.waits)
  }

  /** The same with the production URL as intended. */
  function IntendedSteps(username: string, repoName: string, rs: Remotes): Flow<(string, Option<string>)> {
    var launched := Launch(username, repoName, rs);
    if launched.result.Err? then Flow(Err(launched.result.error), launched.trace, launched.waits)
    else Flow(Ok((launched.result.value, IntendedProductionUrl(DomainsData(rs.domains)))), launched.trace, launched.waits)
  }

  /** `POST` as written. The environment is checked before the body, and the body before
      any request; `username` is GITHUB_USERNAME. */
  method Post(envConfigured: bool, username: string, body: Body, rs: Remotes)
    returns (resp: Response, trace: seq<Call>, waits: seq<nat>)
    ensures !envConfigured ==>
      && resp == Failure(500, "Missing required environment variables",
                         Some("Please check VERCEL_TOKEN, GITHUB_TOKEN, and GITHUB_USERNAME"))
      && trace == [] && waits == []
    ensures envConfigured && body.Malformed? ==>
      resp == Failure(400, "Invalid request body", Some(body.message)) && trace == [] && waits == []
    ensures envConfigured && body.Body? && body.repoName == "" ==>
      resp == Failure(400, "Invalid request body", Some("Repository name is required")) && trace == [] && waits == []
    ensures envConfigured && body.Body? && body.repoName != "" ==>
      var f := Steps(username, body.repoName, rs);
      && trace == f.trace && waits == f.waits
      && (resp.Deployed? <==> f.result.Ok?)
      && (resp.Deployed? ==> resp == Deployed(Initiated, f.result.value.0, f.result.value.1))
      && (resp.Failure? ==> resp == Caught(f.result.error))
  {
    if !envConfigured {
      return Failure(500, "Missing required environment variables",
                     Some("Please check VERCEL_TOKEN, GITHUB_TOKEN, and GITHUB_USERNAME")), [], [];
    }
    if body.Malformed? {
      return Failure(400, "Invalid request body", Some(body.message)), [], [];
    }
    var repoName := body.repoName;
    if repoName == "" {
      return Failure(400, "Invalid request body", Some("Repository name is required")), [], [];
    }
    var wait := WaitForRepo(rs.gets, username, repoName, MaxAttempts);
    trace, waits := wait.trace, wait.waits;
    if wait.result.Err? {
      return Caught(wait.result.error), trace, waits;
    }
    var repo := wait.result.value;
    if repo.None? || repo.value == 0 {
      return Caught(Thrown("Failed to get valid repository data")), trace, waits;
    }
    trace := trace + [CreateProject(repoName, repo.value)];
    if rs.project.Err? {
      return Caught(rs.project.error), trace, waits;
    }
    var projectData := rs.project.value;
    if !projectData.ok || projectData.id == "" {
      return Caught(Rejected(projectData.errorMessage, "Failed to create Vercel project")), trace, waits;
    }
    trace := trace + [GetDomains(projectData.id)];
    var domainsData := DomainsData(rs.domains);
    trace := trace + [CreateDeployment(repoName, projectData.id)];
    if rs.deploy.Err? {
      return Caught(rs.deploy.error), trace, waits;
    }
    var deployData := rs.deploy.value;
    if !deployData.ok {
      return Caught(Rejected(deployData.errorMessage, "Failed to create deployment")), trace, waits;
    }
    var productionUrl := ProductionUrl(domainsData);
    if productionUrl.Err? {
      return Caught(productionUrl.error), trace, waits;
    }
    resp := Deployed(Initiated, deployData.url, productionUrl.value);
  }

  // ---------------------------------------------------------------- properties

  /** A repository that never shows up ends the request after five polls and four
      pauses of two seconds, before any request to the deployment platform. */
  lemma RepositoryNeverFound(username: string, repoName: string, rs: Remotes)
    requires forall j :: 0 <= j < MaxAttempts ==> rs.gets(j).Err?
    ensures var f := Steps(username, repoName, rs);
      && f.result == Err(GaveUp(MaxAttempts))
      && f.trace == Repeat(GetRepo(username, repoName), 5)
      && f.waits == Retry.Pauses(4, PollDelay)
  {
    WaitGivesUp(rs.gets, username, repoName, MaxAttempts);
  }

  /** A project that could not be created (a rejected request, a non-ok reply or a
      reply without an id) ends the request: the domains are not looked up and no
      deployment is requested, and the platform's message, if any, is the error. */
  lemma ProjectFailureStopsDeployment(username: string, repoName: string, rs: Remotes)
    requires rs.project.Err? || !rs.project.value.ok || rs.project.value.id == ""
    ensures var f := Steps(username, repoName, rs);
      var w := WaitSpec(rs.gets, username, repoName, MaxAttempts);
      && f.result.Err?
      && (forall c :: c in f.trace ==> !c.GetDomains? && !c.CreateDeployment?)
      && (w.result.Ok? && w.result.value.Some? && w.result.value.value != 0 ==>
            && f.trace == w.trace + [CreateProject(repoName, w.result.value.value)]
            && f.result.error == if rs.project.Err? then rs.project.error
                                 else Rejected(rs.project.value.errorMessage, "Failed to create Vercel project"))
  {
    Retry.RetryShape(rs.gets, MaxAttempts, PollDelay);
  }

  /** With the production URL as intended, the domain lookup cannot make the request
      fail: whatever it does, the endpoint answers exactly as the deployment request
      does, and the production URL is the first domain's when the lookup produced one. */
  lemma DomainLookupNonFatal(username: string, repoName: string, rs: Remotes, other: Outcome<DomainsReply>)
    ensures var f := IntendedSteps(username, repoName, rs);
      var g := IntendedSteps(username, repoName, rs.(domains := other));
      && f.result.Ok? == g.result.Ok? && f.trace == g.trace && f.waits == g.waits
      && (f.result.Ok? ==> f.result.value.0 == g.result.value.0)
      && (f.result.Ok? ==> f.result.value.1 == IntendedProductionUrl(DomainsData(rs.domains)))
  {
  }

  /** As written, the domain lookup is harmless in every case but one: when it answered
      `ok` with a body that has a `domains` field, or did not answer `ok` at all, the
      endpoint answers as with the intended production URL. */
  lemma ProductionUrlAsIntendedWhenFieldPresent(username: string, repoName: string, rs: Remotes)
    requires DomainsData(rs.domains).None? || DomainsData(rs.domains).value.Some?
    ensures Steps(username, repoName, rs) == IntendedSteps(username, repoName, rs)
  {
  }

  /** The case the optional chain misses: the lookup answered `ok` with a body without a
      `domains` field. The deployment has been requested, yet reading the production
      URL throws and the endpoint answers 500. */
  lemma MissingDomainsFieldFailsDeployedRequest(username: string, repoName: string, rs: Remotes)
    requires Launch(username, repoName, rs).result.Ok?
    requires rs.domains == Ok(DomainsReply(true, None))
    ensures var f := Steps(username, repoName, rs);
      && f.result == Err(NoDomainsField)
      && CreateDeployment(repoName, rs.project.value.id) in f.trace
      && Caught(f.result.error).status == 500
      && IntendedSteps(username, repoName, rs).result.Ok?
  {
    Retry.RetryShape(rs.gets, MaxAttempts, PollDelay);
    var f := Launch(username, repoName, rs);
    assert f.trace[|f.trace| - 1] == CreateDeployment(repoName, rs.project.value.id);
  }
}
