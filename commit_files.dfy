/** The commit-files endpoint: it commits one batch of language files to an existing
    repository, one language at a time, and dispatches a deployment after the last
    batch. */
module CommitFiles {
  import opened Remote
  import opened Layout
  import JsText
  import FailFast

  // ---------------------------------------------------------------- one language file

  /** The remote side of one `commitSingleFile`: the read of the file (its sha), the
      update with that sha, and the write that adds the file. */
  datatype FileOracle = FileOracle(read: Outcome<string>, update: Outcome<()>, add: Outcome<()>)

  /** The update of an existing language file, with the sha its read returned. */
  function UpdateCall(lang: string, content: string, sha: string): Call {
    PutContent(LanguagePath(lang), "Update language file: " + lang, content, Some(sha))
  }

  /** The write that adds a language file: it carries no sha. */
  function AddCall(lang: string, content: string): Call {
    PutContent(LanguagePath(lang), "Add language file: " + lang, content, None)
  }

  /** The `try` block: read the file, then update it with the sha the read returned. */
  function TryUpdate(o: FileOracle, lang: string, content: string): Flow<()> {
    var get := GetContent(LanguagePath(lang));
    if o.read.Err? then Flow(Err(o.read.error), [get], [])
    else Flow(o.update, [get, UpdateCall(lang, content, o.read.value)], [])
  }

  /** The read or the update answered 404. */
  predicate NotFoundSeen(o: FileOracle) {
    if o.read.Err? then o.read.error.status == NotFound
    else o.update.Err? && o.update.error.status == NotFound
  }

  /** `commitSingleFile`. It only touches `static/languages/{lang}.json` and never
      pauses; it reads first; an update carries exactly the sha the read returned; the
      add is issued once, last, and exactly when the read or the update answered 404,
      and then decides the outcome; otherwise the update's outcome is the result, or the
      read's error is rethrown unchanged. */
  function SingleFile(o: FileOracle, lang: string, content: string): (f: Flow<()>)
    ensures f.waits == []
    ensures |f.trace| > 0 && f.trace[0] == GetContent(LanguagePath(lang))
    ensures forall c :: c in f.trace ==> (c.GetContent? || c.PutContent?) && c.path == LanguagePath(lang)
    ensures forall c :: c in f.trace && c.PutContent? && c.sha.Some? ==>
      o.read == Ok(c.sha.value) && c == UpdateCall(lang, content, c.sha.value)
    ensures AddCall(lang, content) in f.trace <==> NotFoundSeen(o)
    ensures NotFoundSeen(o) ==> f.trace[|f.trace| - 1] == AddCall(lang, content) && f.result == o.add
    ensures !NotFoundSeen(o) ==> f.result == (if o.read.Err? then Err(o.read.error) else o.update)
  {
    var tried := TryUpdate(o, lang, content);
    if tried.result.Err? && tried.result.error.status == NotFound then
      Flow(o.add, tried.trace + [AddCall(lang, content)], [])
    else tried
  }

  // ---------------------------------------------------------------- the endpoint

  /** What the request carries: `translations` maps each language to the serialized
      content of its file (`None` when the request has no `translations`);
      `isLastBatch` is `None` when absent. */
  datatype Request = Request(repoName: string, translations: Option<Entries<string>>, isLastBatch: Option<bool>)

  /** `isLastBatch = false` when the field is absent. */
  predicate LastBatch(req: Request) {
    req.isLastBatch == Some(true)
  }

  /** The remote side: the authenticated user (its login), one oracle per language in
      key order, and the dispatch. */
  datatype Remotes = Remotes(user: Outcome<string>, files: nat -> FileOracle, dispatch: Outcome<()>)

  datatype Response =
    | Failure(status: int, error: string)
    | Success(message: string, processedLanguages: seq<string>)

  /** The handler: `error.message || 'Failed to commit files'` with `error.status || 500`. */
  function Caught(e: Error): (r: Response)
    ensures r.Failure? && r.status != 0 && r.error != ""
    ensures e.status != 0 ==> r.status == e.status
    ensures e.message != "" ==> r.error == e.message
  {
    Failure(StatusOr(e, 500), MessageOr(e, "Failed to commit files"))
  }

  /** `Object.keys(undefined)` throws this TypeError. */
  const NoTranslations: Error := Thrown("Cannot convert undefined or null to object")

  /** The body of the loop for the language at index `i`. */
  function Step(translations: Entries<string>, files: nat -> FileOracle): nat -> Flow<()> {
    (i: nat) => if i < |translations| then SingleFile(files(i), translations[i].0, translations[i].1)
                else Flow(Ok(()), [], [])
  }

  /** `for (const lang of languages)`, as written: one `commitSingleFile` per language,
      in key order, the first throw escaping. */
  method CommitLanguages(translations: Entries<string>, files: nat -> FileOracle) returns (f: Flow<seq<()>>)
    ensures f == FailFast.Each(Step(translations, files), |translations|)
  {
    var step := Step(translations, files);
    var n := |translations|;
    var done: seq<()> := [];
    var trace: seq<Call> := [];
    var waits: seq<nat> := [];
    var i := 0;
    while i < n
      invariant i <= n
      invariant FailFast.Each(step, n) == FailFast.EachFrom(step, n, i, done, trace, waits)
    {
      var lang := translations[i].0;
      var committed := SingleFile(files(i), lang, translations[i].1);
      assert committed == step(i);
      trace, waits := trace + committed.trace, waits + committed.waits;
      if committed.result.Err? {
        return Flow(Err(committed.result.error), trace, waits);
      }
      done := done + [committed.result.value];
      i := i + 1;
    }
    return Flow(Ok(done), trace, waits);
  }

  /** The success message: the number of files, and the dispatch when there was one. */
  function Message(count: nat, lastBatch: bool): string {
    "Successfully processed " + JsText.DecimalString(count) + " files"
      + (if lastBatch then " and triggered deployment" else "")
  }

  /** Authentication, the commits, and the dispatch after the last batch; on success the
      language keys. */
  function Steps(req: Request, translations: Entries<string>, rs: Remotes): Flow<seq<string>> {
    var auth := Flow(rs.user, [GetAuthenticated], []);
    var commits := FailFast.Each(Step(translations, rs.files), |translations|);
    var dispatch := if LastBatch(req) then Flow(rs.dispatch, [Dispatch(req.repoName)], []) else Flow(Ok(()), [], []);
    AndThen(auth, AndThen(commits, AndThen(dispatch, Flow(Ok(Keys(translations)), [], []))))
  }

  /** The deployment is dispatched exactly when the request is the last batch, the user
      was authenticated and every language of the request was committed, and then it is
      the last request, after every language's requests in key order; on success the
      endpoint hands back the request's language keys. */
  lemma DispatchRule(req: Request, translations: Entries<string>, rs: Remotes)
    ensures var f := Steps(req, translations, rs);
      var step := Step(translations, rs.files);
      var n := |translations|;
      && (Dispatch(req.repoName) in f.trace <==> LastBatch(req) && rs.user.Ok? && FailFast.Succeeded(step, 0, n))
      && (Dispatch(req.repoName) in f.trace ==>
            f.trace == [GetAuthenticated] + FailFast.Calls(step, 0, n) + [Dispatch(req.repoName)])
      && (f.result.Ok? ==> f.result.value == Keys(translations) && FailFast.Succeeded(step, 0, n))
  {
    if rs.user.Ok? {
      if FailFast.Succeeded(Step(translations, rs.files), 0, |translations|) {
        AllCommitted(req, translations, rs);
      } else {
        CommitFailed(req, translations, rs);
      }
    }
  }

  lemma {:induction false} AllCommitted(req: Request, translations: Entries<string>, rs: Remotes)
    requires rs.user.Ok? && FailFast.Succeeded(Step(translations, rs.files), 0, |translations|)
    ensures var f := Steps(req, translations, rs);
      var calls := [GetAuthenticated] + FailFast.Calls(Step(translations, rs.files), 0, |translations|);
      && f.trace == calls + (if LastBatch(req) then [Dispatch(req.repoName)] else [])
      && Dispatch(req.repoName) !in calls
      && (f.result.Ok? ==> f.result.value == Keys(translations))
  {
    var step := Step(translations, rs.files);
    FailFast.EachSucceeds(step, |translations|);
    NoDispatchInCommits(req.repoName, translations, rs.files, 0, |translations|);
  }

  lemma {:induction false} CommitFailed(req: Request, translations: Entries<string>, rs: Remotes)
    requires rs.user.Ok? && !FailFast.Succeeded(Step(translations, rs.files), 0, |translations|)
    ensures var f := Steps(req, translations, rs);
      f.result.Err? && Dispatch(req.repoName) !in f.trace
  {
    var step := Step(translations, rs.files);
    var f := Steps(req, translations, rs);
    CommitsStopAtFirstFailure(req, translations, rs);
    var k: nat :| FailFast.StoppedAt(step, |translations|, 0, k, f.result.error, [GetAuthenticated], [], f.trace, f.waits);
    NoDispatchInCommits(req.repoName, translations, rs.files, 0, k + 1);
  }

  /** Languages are committed in key order and none is attempted after the first that
      fails, whose error escapes unchanged. */
  lemma {:induction false} CommitsStopAtFirstFailure(req: Request, translations: Entries<string>, rs: Remotes)
    requires rs.user.Ok? && !FailFast.Succeeded(Step(translations, rs.files), 0, |translations|)
    ensures var f := Steps(req, translations, rs);
      f.result.Err? && exists k :: FailFast.StoppedAt(Step(translations, rs.files), |translations|, 0, k, f.result.error,
                                     [GetAuthenticated], [], f.trace, f.waits)
  {
    var step := Step(translations, rs.files);
    var n := |translations|;
    FailFast.EachOutcome(step, n);
    var commits := FailFast.Each(step, n);
    var k: nat :| FailFast.StoppedAt(step, n, 0, k, commits.result.error, [], [], commits.trace, commits.waits);
    var f := Steps(req, translations, rs);
    assert f == Flow(Err(commits.result.error), [GetAuthenticated] + commits.trace, [] + commits.waits);
    assert [GetAuthenticated] + commits.trace == [GetAuthenticated] + FailFast.Calls(step, 0, k + 1);
    assert FailFast.StoppedAt(step, n, 0, k, commits.result.error, [GetAuthenticated], [], f.trace, f.waits);
  }

  /** A language commit never dispatches. */
  lemma {:induction false} NoDispatchInCommits(repo: string, translations: Entries<string>, files: nat -> FileOracle,
                                               from: nat, to: nat)
    requires from <= to
    ensures Dispatch(repo) !in FailFast.Calls(Step(translations, files), from, to)
    decreases (to as int) - (from as int)
  {
    if from < to {
      var step := Step(translations, files);
      if from < |translations| {
        assert step(from) == SingleFile(files(from), translations[from].0, translations[from].1);
      }
      NoDispatchInCommits(repo, translations, files, from + 1, to);
    }
  }

  /** `POST` as written. A request without `translations` fails on `Object.keys` and a
      missing token is thrown, both before any GitHub request; otherwise the endpoint
      answers with the request's language keys exactly when the steps succeed, and with
      the escaping error otherwise. */
  method Post(tokenConfigured: bool, req: Request, rs: Remotes) returns (resp: Response, trace: seq<Call>)
    ensures req.translations.None? ==> resp == Failure(500, "Cannot convert undefined or null to object") && trace == []
    ensures req.translations.Some? && !tokenConfigured ==>
      resp == Failure(500, "GitHub token not configured") && trace == []
    ensures req.translations.Some? && tokenConfigured ==>
      var f := Steps(req, req.translations.value, rs);
      && trace == f.trace
      && (resp.Success? <==> f.result.Ok?)
      && (resp.Success? ==>
            resp == Success(Message(|req.translations.value|, LastBatch(req)), Keys(req.translations.value)))
      && (resp.Failure? ==> resp == Caught(f.result.error))
  {
    if req.translations.None? {
      return Caught(NoTranslations), [];
    }
    var translations := req.translations.value;
    var languages := Keys(translations);
    if !tokenConfigured {
      return Caught(Thrown("GitHub token not configured")), [];
    }
    var auth := Flow(rs.user, [GetAuthenticated], []);
    if rs.user.Err? {
      return Caught(rs.user.error), auth.trace;
    }
    var commits := CommitLanguages(translations, rs.files);
    if commits.result.Err? {
      return Caught(commits.result.error), auth.trace + commits.trace;
    }
    var dispatch := Flow(Ok(()), [], []);
    if LastBatch(req) {
      dispatch := Flow(rs.dispatch, [Dispatch(req.repoName)], []);
      if rs.dispatch.Err? {
        return Caught(rs.dispatch.error), auth.trace + commits.trace + dispatch.trace;
      }
    }
    var f := AndThen(auth, AndThen(commits, AndThen(dispatch, Flow(Ok(languages), [], []))));
    trace := f.trace;
    resp := Success(Message(|languages|, LastBatch(req)), languages);
  }
}
