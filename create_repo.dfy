/** The create-repo endpoint: it creates a public repository for the authenticated user
    and maps what went wrong to a status and a message. */
module CreateRepo {
  import opened Remote

  datatype Response =
    | Failure(status: int, error: string, details: seq<string>)
    | Created(message: string, data: string)

  /** A response and the requests issued to produce it. */
  datatype Handled = Handled(response: Response, trace: seq<Call>)

  /** The message GitHub gives as the first error when the name is taken. */
  const NameTaken: string := "name already exists on this account"

  /** `error.status === 422 && error.response?.data?.errors?.[0]?.message === ...` */
  predicate NameExists(e: Error) {
    e.status == 422 && |e.details| > 0 && e.details[0] == NameTaken
  }

  /** `POST` for a request whose `repoName` is `repoName` (`""` when missing or empty);
      `create` is the outcome of `createForAuthenticatedUser`, the repository's data on
      success. */
  function Post(repoName: string, tokenConfigured: bool, create: Outcome<string>): (h: Handled)
    ensures h.trace == (if repoName != "" && tokenConfigured then [CreateForUser(repoName)] else [])
    ensures h.response.Created? <==> repoName != "" && tokenConfigured && create.Ok?
    ensures h.response.Failure? ==> h.response.status in {400, 422, 500} && h.response.error != ""
  {
    if repoName == "" then Handled(Failure(400, "Repository name is required", []), [])
    else if !tokenConfigured then Handled(Failure(500, "GitHub token not configured", []), [])
    else
      var call := [CreateForUser(repoName)];
      if create.Ok? then Handled(Created("Repository created", create.value), call)
      else if NameExists(create.error) then
        Handled(Failure(422, "A repository named '" + repoName + "' already exists in your account", []), call)
      else
        Handled(Failure(500, if create.error.message != "" then create.error.message else "Failed to create repository",
                        create.error.details), call)
  }

  /** The name is checked first: a request without one is answered 400 whatever the
      configuration, and nothing is created. */
  lemma NameCheckedFirst(tokenConfigured: bool, create: Outcome<string>)
    ensures Post("", tokenConfigured, create) == Handled(Failure(400, "Repository name is required", []), [])
  {
  }

  /** The token is checked second: with a name but no configured token the answer is
      500 `GitHub token not configured`, whatever the remote would have said, and no
      request is made. */
  lemma TokenCheckedSecond(repoName: string, create: Outcome<string>)
    requires repoName != ""
    ensures Post(repoName, false, create) == Handled(Failure(500, "GitHub token not configured", []), [])
  {
  }

  /** The repository is created exactly when a name was given and the token is
      configured, and the data GitHub returned is handed back. */
  lemma CreatedCarriesData(repoName: string, tokenConfigured: bool, create: Outcome<string>)
    ensures var h := Post(repoName, tokenConfigured, create);
      h.response.Created? ==> h.response == Created("Repository created", create.value)
  {
  }

  /** A 422 is answered only for a name that is taken, and its message names the
      repository; every other failure of the request is a 500 carrying GitHub's message
      (or the fallback) and its error details, whatever status GitHub gave. */
  lemma CreationErrorStatus(repoName: string, create: Outcome<string>)
    requires repoName != "" && create.Err?
    ensures var r := Post(repoName, true, create).response;
      && (r.status == 422 <==> NameExists(create.error))
      && (NameExists(create.error) ==> r.error == "A repository named '" + repoName + "' already exists in your account")
      && (!NameExists(create.error) ==>
            r == Failure(500, MessageOr(create.error, "Failed to create repository"), create.error.details))
  {
  }
}
