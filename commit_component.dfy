/** The commit-component endpoint: it recreates the user's repository from the template,
    writes the map configuration into it, optionally commits fetched translations, and
    dispatches a deployment. Its helpers commit language files with backoff and a
    rate-limit branch, one at a time or in chunks of five. */
module CommitComponent {
  import opened Remote
  import opened Layout
  import JsText
  import Retry
  import opened RepoSetup

  /** MAX_RETRIES: the attempts `retryOperation` makes here. */
  const MaxRetries: int := 3
  /** The default `maxRetries` of `commitLanguageFile`. */
  const FileRetries: int := 3
  /** The backoff unit: attempt k waits k times this long before attempt k + 1. */
  const BackoffStep: nat := 2000
  /** CHUNK_SIZE of `commitLanguageFiles`, and its pauses between files and chunks. */
  const ChunkSize: nat := 5
  const FileGap: nat := 500
  const ChunkGap: nat := 2000

  // ---------------------------------------------------------------- repository name

  /** A character of the class `[a-zA-Z0-9-_]`. */
  predicate IsNameChar(c: char) {
    ('a' <= c <= 'z') || ('A' <= c <= 'Z') || ('0' <= c <= '9') || c == '-' || c == '_'
  }

  /** `/^[a-zA-Z0-9-_]+$/` matched against a whole string: one character of the class,
      then either the end or another match. */
  predicate MatchesName(s: string) {
    |s| > 0 && IsNameChar(s[0]) && (|s| == 1 || MatchesName(s[1..]))
  }

  /** `RegExp.prototype.test` converts its argument to a string first, so a request
      without `repoName` is tested as the text "undefined". */
  function NameArgument(repoName: Option<string>): string {
    match repoName
    case Some(s) => s
    case None => "undefined"
  }

  predicate NameAccepted(repoName: Option<string>) {
    MatchesName(NameArgument(repoName))
  }

  lemma {:induction false} MatchesNameMeaning(s: string)
    ensures MatchesName(s) <==> |s| > 0 && forall i :: 0 <= i < |s| ==> IsNameChar(s[i])
    decreases |s|
  {
    if |s| > 1 {
      MatchesNameMeaning(s[1..]);
      assert forall i :: 1 <= i < |s| ==> s[i] == s[1..][i - 1];
    }
  }

  /** A given name is accepted exactly when it is non-empty and made of ASCII letters,
      digits, '-' and '_'; a missing name is accepted, as the text "undefined". */
  lemma NameValidation(repoName: Option<string>)
    ensures repoName.Some? ==>
      (NameAccepted(repoName) <==>
         |repoName.value| > 0 && forall i :: 0 <= i < |repoName.value| ==> IsNameChar(repoName.value[i]))
    ensures repoName.None? ==> NameAccepted(repoName)
  {
    MatchesNameMeaning(NameArgument(repoName));
  }

  // ---------------------------------------------------------------- one language file

  /** The remote side of one `commitLanguageFile` call: the outcome of the read and of
      the write of each attempt (attempt k uses entry k - 1), and the clock reading the
      rate-limit branch takes. */
  datatype FileOracle = FileOracle(gets: Script<string>, puts: Script<()>, now: int)

  /** GitHub's primary rate limit: a 403 whose `x-ratelimit-remaining` header is "0". */
  predicate RateLimited(e: Error) {
    e.status == 403 && "x-ratelimit-remaining" in e.headers && e.headers["x-ratelimit-remaining"] == "0"
  }

  /** The pause taken before a rate-limit error is rethrown: up to one second past the
      reset time, when the reset header is present and non-empty, reads as a number, and
      that moment is still ahead. */
  function RateLimitPause(e: Error, now: int): (p: seq<nat>)
    ensures |p| <= 1
    ensures |p| == 1 ==> "x-ratelimit-reset" in e.headers && p[0] > 0
  {
    if "x-ratelimit-reset" in e.headers && e.headers["x-ratelimit-reset"] != "" then
      match JsText.ParseInt(e.headers["x-ratelimit-reset"])
      case Some(reset) =>
        var w := reset * 1000 - now + 1000;
        if w > 0 then [w] else []
      case None => []
    else []
  }

  /** The sha a write passes: the one the read returned, or none when the read failed,
      whatever the reason. */
  function ShaOf(read: Outcome<string>): Option<string> {
    if read.Ok? then Some(read.value) else None
  }

  /** The two requests of attempt k (k >= 1). */
  function AttemptCalls(o: FileOracle, lang: string, content: string, k: nat): seq<Call>
    requires k >= 1
  {
    [GetContent(LanguagePath(lang)),
     PutContent(LanguagePath(lang), "Add language file: " + lang, content, ShaOf(o.gets(k - 1)))]
  }

  /** The requests of attempts 1..n, in order. */
  function AttemptsCalls(o: FileOracle, lang: string, content: string, n: nat): seq<Call>
  {
    if n == 0 then [] else AttemptsCalls(o, lang, content, n - 1) + AttemptCalls(o, lang, content, n)
  }

  /** The backoff pauses after failed attempts 1..n. */
  function Backoff(n: nat): seq<nat>
  {
    seq(n, k => (k + 1) * BackoffStep)
  }

  /** The attempts from `attempt` on. */
  function FileFrom(o: FileOracle, lang: string, content: string, maxRetries: int,
                    attempt: nat, trace: seq<Call>, waits: seq<nat>): Flow<bool>
    requires 1 <= attempt <= maxRetries
    decreases maxRetries - attempt
  {
    var trace' := trace + AttemptCalls(o, lang, content, attempt);
    var write := o.puts(attempt - 1);
    if write.Ok? then Flow(Ok(true), trace', waits)
    else if RateLimited(write.error) then Flow(Err(write.error), trace', waits + RateLimitPause(write.error, o.now))
    else if attempt < maxRetries then FileFrom(o, lang, content, maxRetries, attempt + 1, trace', waits + [attempt * BackoffStep])
    else Flow(Err(write.error), trace', waits)
  }

  /** `commitLanguageFile`: resolves to true, to undefined (`Ok(false)`) when no attempt
      is allowed, or throws the error of its last write. */
  function LanguageFile(o: FileOracle, lang: string, content: string, maxRetries: int): Flow<bool>
  {
    if maxRetries < 1 then Flow(Ok(false), [], []) else FileFrom(o, lang, content, maxRetries, 1, [], [])
  }

  /** The pause the last failed write leads to: only a rate-limit error has one. */
  function FinalPause(write: Outcome<()>, now: int): seq<nat> {
    if write.Err? && RateLimited(write.error) then RateLimitPause(write.error, now) else []
  }

  /** The number of attempts made from `attempt` on: the loop stops at the first write
      that succeeds, at a rate limit, or at the last allowed attempt. */
  function AttemptCount(o: FileOracle, maxRetries: int, attempt: nat): (m: nat)
    requires 1 <= attempt <= maxRetries
    ensures attempt <= m <= maxRetries
    decreases maxRetries - attempt
  {
    var write := o.puts(attempt - 1);
    if write.Err? && !RateLimited(write.error) && attempt < maxRetries then AttemptCount(o, maxRetries, attempt + 1)
    else attempt
  }

  /** Every write before the last attempt failed without a rate limit, and the last
      one succeeded, hit a rate limit, or was the last allowed. */
  lemma {:induction false} AttemptCountStops(o: FileOracle, maxRetries: int, attempt: nat)
    requires 1 <= attempt <= maxRetries
    ensures var m := AttemptCount(o, maxRetries, attempt);
      && (forall j :: attempt - 1 <= j < m - 1 ==> o.puts(j).Err? && !RateLimited(o.puts(j).error))
      && (o.puts(m - 1).Err? ==> RateLimited(o.puts(m - 1).error) || m == maxRetries)
    decreases maxRetries - attempt
  {
    var write := o.puts(attempt - 1);
    if write.Err? && !RateLimited(write.error) && attempt < maxRetries {
      AttemptCountStops(o, maxRetries, attempt + 1);
    }
  }

  /** What the attempts resolve to when attempt `m` is the last: its write's outcome,
      the requests of attempts 1..m, the backoffs before it and its own pause. */
  function Settled(o: FileOracle, lang: string, content: string, m: nat): Flow<bool>
    requires m >= 1
  {
    var write := o.puts(m - 1);
    Flow(if write.Ok? then Ok(true) else Err(write.error),
         AttemptsCalls(o, lang, content, m), Backoff(m - 1) + FinalPause(write, o.now))
  }

  lemma {:induction false} FileFromShape(o: FileOracle, lang: string, content: string, maxRetries: int, attempt: nat)
    requires 1 <= attempt <= maxRetries
    ensures FileFrom(o, lang, content, maxRetries, attempt, AttemptsCalls(o, lang, content, attempt - 1), Backoff(attempt - 1))
         == Settled(o, lang, content, AttemptCount(o, maxRetries, attempt))
    decreases maxRetries - attempt
  {
    var trace0, waits0 := AttemptsCalls(o, lang, content, attempt - 1), Backoff(attempt - 1);
    var trace1 := AttemptsCalls(o, lang, content, attempt);
    assert trace1 == trace0 + AttemptCalls(o, lang, content, attempt);
    var f := FileFrom(o, lang, content, maxRetries, attempt, trace0, waits0);
    var write := o.puts(attempt - 1);
    if write.Err? && !RateLimited(write.error) && attempt < maxRetries {
      var next := attempt + 1;
      assert waits0 + [attempt * BackoffStep] == Backoff(attempt);
      assert f == FileFrom(o, lang, content, maxRetries, next, trace1, Backoff(attempt));
      assert AttemptCount(o, maxRetries, attempt) == AttemptCount(o, maxRetries, next);
      assert FileFrom(o, lang, content, maxRetries, next, trace1, Backoff(attempt))
          == Settled(o, lang, content, AttemptCount(o, maxRetries, next)) by {
        FileFromShape(o, lang, content, maxRetries, next);
        assert next - 1 == attempt;
      }
    } else {
      assert AttemptCount(o, maxRetries, attempt) == attempt;
      var g := Settled(o, lang, content, attempt);
      assert f.trace == g.trace;
      assert f.result == g.result;
      assert f.waits == g.waits by {
        if write.Ok? || !RateLimited(write.error) {
          assert waits0 + [] == waits0;
        }
      }
      assert f == g;
    }
  }

  lemma {:induction false} LengthOfCalls(o: FileOracle, lang: string, content: string, n: nat)
    ensures |AttemptsCalls(o, lang, content, n)| == 2 * n
  {
    if n > 0 {
      LengthOfCalls(o, lang, content, n - 1);
    }
  }

  /** Attempt k issues a read of the language's path and then a write to it that carries
      the sha of that attempt's read, or none when that read failed. */
  lemma {:induction false} AttemptsCallsAt(o: FileOracle, lang: string, content: string, n: nat, k: nat)
    requires 1 <= k <= n
    ensures |AttemptsCalls(o, lang, content, n)| == 2 * n
    ensures AttemptsCalls(o, lang, content, n)[2 * k - 2] == GetContent("static/languages/" + lang + ".json")
    ensures AttemptsCalls(o, lang, content, n)[2 * k - 1]
         == PutContent("static/languages/" + lang + ".json", "Add language file: " + lang, content,
                       if o.gets(k - 1).Ok? then Some(o.gets(k - 1).value) else None)
    decreases n
  {
    LengthOfCalls(o, lang, content, n);
    if k < n {
      AttemptsCallsAt(o, lang, content, n - 1, k);
      LengthOfCalls(o, lang, content, n - 1);
    }
  }

  /** Everything `commitLanguageFile` can do, over `m` attempts: every attempt but the
      last failed without a rate limit; the outcome is the last write's; a failure is
      rethrown only on a rate limit or on the last allowed attempt; attempt k < m waited
      k * 2000 ms, and a rate limit adds its one reset pause. */
  lemma LanguageFileShape(o: FileOracle, lang: string, content: string, maxRetries: int)
    ensures maxRetries < 1 ==> LanguageFile(o, lang, content, maxRetries) == Flow(Ok(false), [], [])
    ensures maxRetries >= 1 ==>
      var f := LanguageFile(o, lang, content, maxRetries);
      var m := AttemptCount(o, maxRetries, 1);
      && 1 <= m <= maxRetries
      && |f.trace| == 2 * m
      && f.trace == AttemptsCalls(o, lang, content, m)
      && (forall j :: 0 <= j < m - 1 ==> o.puts(j).Err? && !RateLimited(o.puts(j).error))
      && f.result == (if o.puts(m - 1).Ok? then Ok(true) else Err(o.puts(m - 1).error))
      && (o.puts(m - 1).Err? ==> RateLimited(o.puts(m - 1).error) || m == maxRetries)
      && f.waits == Backoff(m - 1) + FinalPause(o.puts(m - 1), o.now)
  {
    if maxRetries >= 1 {
      assert AttemptsCalls(o, lang, content, 0) == [] && Backoff(0) == [];
      FileFromShape(o, lang, content, maxRetries, 1);
      AttemptCountStops(o, maxRetries, 1);
      LengthOfCalls(o, lang, content, AttemptCount(o, maxRetries, 1));
    }
  }

  /** A rate-limit error on the first write is rethrown at once: one read, one write,
      and at most the one reset pause. */
  lemma RateLimitNotRetried(o: FileOracle, lang: string, content: string, maxRetries: int)
    requires maxRetries >= 1
    requires o.puts(0).Err? && RateLimited(o.puts(0).error)
    ensures LanguageFile(o, lang, content, maxRetries)
         == Flow(Err(o.puts(0).error), AttemptCalls(o, lang, content, 1),
                 RateLimitPause(o.puts(0).error, o.now))
  {
  }

  /** With a reset header that reads as `reset`, the pause is `reset * 1000 - now + 1000`
      when that is positive and there is none otherwise. */
  lemma RateLimitPauseValue(e: Error, now: int, reset: nat)
    requires "x-ratelimit-reset" in e.headers && e.headers["x-ratelimit-reset"] == JsText.DecimalString(reset)
    ensures RateLimitPause(e, now) == (if reset * 1000 - now + 1000 > 0 then [reset * 1000 - now + 1000] else [])
  {
    JsText.ParseDecimalString(reset);
  }

  /** `commitLanguageFile` as written: an attempt loop whose body reads, writes, and on a
      failure either pauses and rethrows (rate limit), backs off and continues, or
      rethrows. */
  method CommitLanguageFile(o: FileOracle, lang: string, content: string, maxRetries: int)
    returns (f: Flow<bool>)
    ensures f == LanguageFile(o, lang, content, maxRetries)
  {
    var path := LanguagePath(lang);
    var trace: seq<Call> := [];
    var waits: seq<nat> := [];
    var attempt: nat := 1;
    while attempt <= maxRetries
      invariant attempt >= 1
      invariant maxRetries >= 1 ==> attempt <= maxRetries
      invariant maxRetries >= 1 ==>
        LanguageFile(o, lang, content, maxRetries) == FileFrom(o, lang, content, maxRetries, attempt, trace, waits)
      invariant maxRetries < 1 ==> trace == [] && waits == []
      decreases maxRetries - attempt
    {
      var sha: Option<string> := None;
      var read := o.gets(attempt - 1);
      if read.Ok? {
        sha := Some(read.value);
      }
      trace := trace + [GetContent(path), PutContent(path, "Add language file: " + lang, content, sha)];
      var write := o.puts(attempt - 1);
      if write.Ok? {
        return Flow(Ok(true), trace, waits);
      }
      var error := write.error;
      if RateLimited(error) {
        if "x-ratelimit-reset" in error.headers && error.headers["x-ratelimit-reset"] != "" {
          var reset := JsText.ParseInt(error.headers["x-ratelimit-reset"]);
          if reset.Some? {
            var waitTime := reset.value * 1000 - o.now + 1000;
            if waitTime > 0 {
              waits := waits + [waitTime];
            }
          }
        }
      } else if attempt < maxRetries {
        waits := waits + [attempt * BackoffStep];
        attempt := attempt + 1;
        continue;
      }
      return Flow(Err(error), trace, waits);
    }
    return Flow(Ok(false), trace, waits);
  }

  // ---------------------------------------------------------------- languages in chunks

  datatype Progress = Progress(processedCount: nat, totalLanguages: nat)

  /** The commit of each language of `translations`, by position: language i (its
      serialized content is the entry's value) with its own oracle `files(i)`. */
  function Step(translations: Entries<string>, files: nat -> FileOracle): nat -> Flow<bool>
  {
    (i: nat) => if i < |translations| then LanguageFile(files(i), translations[i].0, translations[i].1, FileRetries)
         else Flow(Ok(false), [], [])
  }

  /** The pauses after the language at `idx` was committed: 500 ms when another follows,
      and 2000 ms more when it closed a chunk of five and another chunk follows. */
  function GapAfter(idx: nat, n: nat): seq<nat> {
    (if idx + 1 < n then [FileGap] else []) + (if (idx + 1) % ChunkSize == 0 && idx + 1 < n then [ChunkGap] else [])
  }

  /** The languages from `idx` on of `n`, `processed` of them committed so far, language
      i committed by `step(i)`. */
  function CommitFrom(n: nat, step: nat -> Flow<bool>, idx: nat, processed: nat,
                      trace: seq<Call>, waits: seq<nat>): Flow<Progress>
    requires idx <= n
    decreases n - idx
  {
    if idx == n then Flow(Ok(Progress(processed, n)), trace, waits)
    else
      var f := step(idx);
      if f.result.Err? then Flow(Err(f.result.error), trace + f.trace, waits + f.waits)
      else CommitFrom(n, step, idx + 1, processed + 1, trace + f.trace, waits + f.waits + GapAfter(idx, n))
  }

  /** `commitLanguageFiles` over the entries of `translations`. */
  function CommitAll(translations: Entries<string>, files: nat -> FileOracle): Flow<Progress> {
    CommitFrom(|translations|, Step(translations, files), 0, 0, [], [])
  }

  /** The requests of the commits of languages `from..to-1`, in order. */
  function StepsCalls(step: nat -> Flow<bool>, from: nat, to: nat): seq<Call>
    requires from <= to
    decreases (to as int) - (from as int)
  {
    if from == to then [] else step(from).trace + StepsCalls(step, from + 1, to)
  }

  /** The run over languages `from..` stopped at language `k`: every language before it
      was committed, its commit threw `e`, and the requests issued after `prefix` are
      those of languages `from..k`. */
  predicate StoppedAt(n: nat, step: nat -> Flow<bool>, from: nat, k: nat, e: Error,
                      prefix: seq<Call>, trace: seq<Call>)
  {
    && from <= k < n
    && step(k).result == Err(e)
    && (forall j :: from <= j < k ==> step(j).result.Ok?)
    && trace == prefix + StepsCalls(step, from, k + 1)
  }

  lemma StoppedAtStep(n: nat, step: nat -> Flow<bool>, from: nat, k: nat, e: Error,
                      prefix: seq<Call>, trace: seq<Call>)
    requires from < n && step(from).result.Ok?
    requires StoppedAt(n, step, from + 1, k, e, prefix + step(from).trace, trace)
    ensures StoppedAt(n, step, from, k, e, prefix, trace)
  {
    assert StepsCalls(step, from, k + 1) == step(from).trace + StepsCalls(step, from + 1, k + 1);
  }

  lemma {:induction false} CommitFromSuccess(n: nat, step: nat -> Flow<bool>, idx: nat,
                                             trace: seq<Call>, waits: seq<nat>)
    requires idx <= n
    requires CommitFrom(n, step, idx, idx, trace, waits).result.Ok?
    ensures var f := CommitFrom(n, step, idx, idx, trace, waits);
      && f.result.value == Progress(n, n)
      && f.trace == trace + StepsCalls(step, idx, n)
      && forall j :: idx <= j < n ==> step(j).result.Ok?
    decreases n - idx
  {
    if idx < n {
      var f := step(idx);
      CommitFromSuccess(n, step, idx + 1, trace + f.trace, waits + f.waits + GapAfter(idx, n));
    }
  }

  lemma {:induction false} CommitFromFailure(n: nat, step: nat -> Flow<bool>, idx: nat,
                                             trace: seq<Call>, waits: seq<nat>)
    requires idx <= n
    requires CommitFrom(n, step, idx, idx, trace, waits).result.Err?
    ensures var f := CommitFrom(n, step, idx, idx, trace, waits);
      exists k :: StoppedAt(n, step, idx, k, f.result.error, trace, f.trace)
    decreases n - idx
  {
    var f := step(idx);
    if f.result.Err? {
      assert StepsCalls(step, idx, idx + 1) == f.trace;
      assert StoppedAt(n, step, idx, idx, f.result.error, trace, trace + f.trace);
    } else {
      var waits' := waits + f.waits + GapAfter(idx, n);
      CommitFromFailure(n, step, idx + 1, trace + f.trace, waits');
      var g := CommitFrom(n, step, idx + 1, idx + 1, trace + f.trace, waits');
      var k :| StoppedAt(n, step, idx + 1, k, g.result.error, trace + f.trace, g.trace);
      StoppedAtStep(n, step, idx, k, g.result.error, trace, g.trace);
    }
  }

  /** `commitLanguageFiles` visits the languages in key order, each once: on success
      every language was committed and `processedCount == totalLanguages == n`; otherwise
      the first failing language's error escapes and no later language was attempted. */
  lemma CommitAllOutcome(translations: Entries<string>, files: nat -> FileOracle)
    ensures var f := CommitAll(translations, files);
      var step := Step(translations, files);
      && (f.result.Ok? ==>
            && f.result.value == Progress(|translations|, |translations|)
            && f.trace == StepsCalls(step, 0, |translations|)
            && forall j :: 0 <= j < |translations| ==> step(j).result.Ok?)
      && (f.result.Err? ==> exists k :: StoppedAt(|translations|, step, 0, k, f.result.error, [], f.trace))
  {
    var f := CommitAll(translations, files);
    var step := Step(translations, files);
    if f.result.Ok? {
      CommitFromSuccess(|translations|, step, 0, [], []);
      assert [] + StepsCalls(step, 0, |translations|) == StepsCalls(step, 0, |translations|);
    } else {
      CommitFromFailure(|translations|, step, 0, [], []);
    }
  }

  /** Inside a chunk that starts at a multiple of five, the language at offset j
      closes the chunk exactly when j is 4. */
  lemma ChunkBoundary(i: nat, j: nat)
    requires i % ChunkSize == 0 && j < ChunkSize
    ensures (i + j + 1) % ChunkSize == 0 <==> j + 1 == ChunkSize
  {
  }

  lemma AfterFailed(n: nat, step: nat -> Flow<bool>, idx: nat, trace: seq<Call>, waits: seq<nat>)
    requires idx < n && step(idx).result.Err?
    ensures CommitFrom(n, step, idx, idx, trace, waits)
         == Flow(Err(step(idx).result.error), trace + step(idx).trace, waits + step(idx).waits)
  {
  }

  lemma StepAt(translations: Entries<string>, files: nat -> FileOracle, k: nat)
    requires k < |translations|
    ensures Step(translations, files)(k) == LanguageFile(files(k), translations[k].0, translations[k].1, FileRetries)
  {
  }

  /** The pause still owed before the language at offset j of a chunk starting at i:
      the chunk gap, once a full chunk is done and another follows. */
  function Pending(n: nat, i: nat, j: nat): seq<nat> {
    if j == ChunkSize && i + j < n then [ChunkGap] else []
  }

  /** One committed language inside a chunk, with the pauses that follow it. */
  lemma AfterCommitted(n: nat, step: nat -> Flow<bool>, i: nat, j: nat, trace: seq<Call>, waits: seq<nat>,
                       waits': seq<nat>)
    requires i % ChunkSize == 0 && j < ChunkSize && i + j < n && step(i + j).result.Ok?
    requires waits' == waits + step(i + j).waits + (if i + j + 1 < n then [FileGap] else [])
    ensures CommitFrom(n, step, i + j, i + j, trace, waits + Pending(n, i, j))
         == CommitFrom(n, step, i + j + 1, i + j + 1, trace + step(i + j).trace, waits' + Pending(n, i, j + 1))
  {
    ChunkBoundary(i, j);
    assert waits + Pending(n, i, j) == waits;
    assert waits + step(i + j).waits + GapAfter(i + j, n) == waits' + Pending(n, i, j + 1);
  }

  /** The loop body's commit of one `[lang, content]` entry of the chunk, the entry at
      index `k` of the translations. */
  method CommitEntry(entry: (string, string), o: FileOracle, ghost translations: Entries<string>,
                     ghost files: nat -> FileOracle, ghost k: nat)
    returns (g: Flow<bool>)
    requires k < |translations| && entry == translations[k] && o == files(k)
    ensures g == Step(translations, files)(k)
  {
    var (lang, content) := entry;
    g := CommitLanguageFile(o, lang, content, FileRetries);
    StepAt(translations, files, k);
  }

  /** The inner loop of `commitLanguageFiles`: the languages `i..end-1` of one chunk, in
      order, after the requests `trace0` and pauses `waits0`; `failed` is the error that
      escaped, if one did. */
  method CommitChunk(translations: Entries<string>, files: nat -> FileOracle, i: nat, end: nat,
                     trace0: seq<Call>, waits0: seq<nat>)
    returns (failed: Option<Error>, trace: seq<Call>, waits: seq<nat>)
    requires i % ChunkSize == 0 && i < end <= |translations|
    requires end == (if i + ChunkSize < |translations| then i + ChunkSize else |translations|)
    ensures var step := Step(translations, files);
      failed.Some? ==> CommitFrom(|translations|, step, i, i, trace0, waits0) == Flow(Err(failed.value), trace, waits)
    ensures var step := Step(translations, files);
      failed.None? ==>
        CommitFrom(|translations|, step, i, i, trace0, waits0)
          == CommitFrom(|translations|, step, end, end, trace, waits + Pending(|translations|, i, end - i))
  {
    var n := |translations|;
    ghost var step := Step(translations, files);
    var chunk := translations[i..end];
    trace, waits := trace0, waits0;
    var j := 0;
    assert waits + Pending(n, i, j) == waits;
    while j < |chunk|
      invariant 0 <= j <= |chunk|
      invariant CommitFrom(n, step, i, i, trace0, waits0) == CommitFrom(n, step, i + j, i + j, trace, waits + Pending(n, i, j))
    {
      var g := CommitEntry(chunk[j], files(i + j), translations, files, i + j);
      assert waits + Pending(n, i, j) == waits;
      if g.result.Err? {
        assert CommitFrom(n, step, i, i, trace0, waits0) == Flow(Err(g.result.error), trace + g.trace, waits + g.waits) by {
          AfterFailed(n, step, i + j, trace, waits);
        }
        return Some(g.result.error), trace + g.trace, waits + g.waits;
      }
      ghost var before, beforeTrace := waits, trace;
      trace := trace + g.trace;
      waits := waits + g.waits;
      if i + j + 1 < n {
        waits := waits + [FileGap];
      }
      ghost var j0 := j;
      j := j + 1;
      assert CommitFrom(n, step, i, i, trace0, waits0) == CommitFrom(n, step, i + j, i + j, trace, waits + Pending(n, i, j)) by {
        assert i + j == i + j0 + 1;
        assert waits == before + g.waits + (if i + j0 + 1 < n then [FileGap] else []);
        AfterCommitted(n, step, i, j0, beforeTrace, before, waits);
      }
    }
    return None, trace, waits;
  }

  /** `commitLanguageFiles` as written: chunks `[i, min(i + 5, n))` for i = 0, 5, ...,
      each walked in order by `CommitChunk`, then the pause between chunks. */
  method CommitLanguageFiles(translations: Entries<string>, files: nat -> FileOracle)
    returns (f: Flow<Progress>)
    ensures f == CommitAll(translations, files)
  {
    var n := |translations|;
    ghost var step := Step(translations, files);
    var processedCount: nat := 0;
    var trace: seq<Call> := [];
    var waits: seq<nat> := [];
    var i: nat := 0;
    while i < n
      invariant i % ChunkSize == 0
      invariant processedCount == (if i < n then i else n)
      invariant CommitAll(translations, files) == CommitFrom(n, step, processedCount, processedCount, trace, waits)
    {
      var end := if i + ChunkSize < n then i + ChunkSize else n;
      var failed;
      failed, trace, waits := CommitChunk(translations, files, i, end, trace, waits);
      if failed.Some? {
        return Flow(Err(failed.value), trace, waits);
      }
      processedCount := end;
      if i + ChunkSize < n {
        waits := waits + [ChunkGap];
      }
      i := i + ChunkSize;
    }
    assert CommitFrom(n, step, n, n, trace, waits) == Flow(Ok(Progress(n, n)), trace, waits);
    return Flow(Ok(Progress(processedCount, n)), trace, waits);
  }

  // ---------------------------------------------------------------- repository setup

  /** The remote side of `setupRepository`: the delete, and scripts for the template
      creation, the read of `config-map.js` (its sha) and the update of it. */
  datatype SetupOracle = SetupOracle(delete: Outcome<()>, create: Script<()>, read: Script<string>, update: Script<()>)

  /** The write of the configuration module with the sha its read returned. */
  function WriteConfig(o: SetupOracle, mapConfigJson: string): Flow<()> {
    var read := Retry.RetryFlow(o.read, MaxRetries, Retry.RetryDelay, GetContent(ConfigPath));
    if read.result.Err? then Flow(Err(read.result.error), read.trace, read.waits)
    else
      var put := PutContent(ConfigPath, "Update map configuration", ConfigModule(mapConfigJson), Some(read.result.value));
      AndThen(read, Retry.RetryFlow(o.update, MaxRetries, Retry.RetryDelay, put))
  }

  /** Everything after the delete: create from the template, wait, write the
      configuration. */
  function Recreate(o: SetupOracle, repo: string, mapConfigJson: string): Flow<()> {
    AndThen(Retry.RetryFlow(o.create, MaxRetries, Retry.RetryDelay, CreateFromTemplate(repo)),
            AndThen(Flow(Ok(()), [], [RepoCreationWait]), WriteConfig(o, mapConfigJson)))
  }

  /** `setupRepository`. */
  function Setup(o: SetupOracle, repo: string, mapConfigJson: string): Flow<()> {
    AndThen(DeleteOld(o.delete, repo), Recreate(o, repo, mapConfigJson))
  }

  /** Any delete error but a 404 is rethrown before anything is created. */
  lemma SetupDeleteFailure(o: SetupOracle, repo: string, mapConfigJson: string)
    requires o.delete.Err? && o.delete.error.status != NotFound
    ensures Setup(o, repo, mapConfigJson) == Flow(Err(o.delete.error), [DeleteRepo(repo)], [])
  {
    DeleteRethrown(o.delete, repo, Recreate(o, repo, mapConfigJson));
  }

  /** A successful delete, or a 404 from it, is no error: the rest of the setup runs
      and begins with the template creation. */
  lemma SetupDeleteTolerated(o: SetupOracle, repo: string, mapConfigJson: string)
    requires o.delete.Ok? || o.delete.error.status == NotFound
    ensures var r := Recreate(o, repo, mapConfigJson);
      && Setup(o, repo, mapConfigJson)
         == Flow(r.result, [DeleteRepo(repo)] + r.trace, (if o.delete.Ok? then [DeleteSettle] else []) + r.waits)
      && |r.trace| > 0 && r.trace[0] == CreateFromTemplate(repo)
  {
    var c := Retry.RetryFlow(o.create, MaxRetries, Retry.RetryDelay, CreateFromTemplate(repo));
    Retry.RetryShape(o.create, MaxRetries, Retry.RetryDelay);
    assert c.trace[0] == CreateFromTemplate(repo);
    AndThenStarts(c, AndThen(Flow(Ok(()), [], [RepoCreationWait]), WriteConfig(o, mapConfigJson)));
    DeleteTolerated(o.delete, repo, Recreate(o, repo, mapConfigJson));
  }

  /** Once the template was created, the configuration module is read until a read
      succeeds (three reads at most), and every write that follows carries exactly the
      sha that read returned; there is no create without a sha. */
  lemma SetupWritesReadSha(o: SetupOracle, repo: string, mapConfigJson: string, k: nat)
    requires o.delete.Ok? && o.create(0).Ok?
    requires k < 3 && o.read(k).Ok? && forall j :: 0 <= j < k ==> o.read(j).Err?
    ensures var put := PutContent(ConfigPath, "Update map configuration", ConfigModule(mapConfigJson), Some(o.read(k).value));
      Setup(o, repo, mapConfigJson).trace
        == [DeleteRepo(repo), CreateFromTemplate(repo)] + Repeat(GetContent(ConfigPath), k + 1)
           + Repeat(put, Retry.Retried(o.update, 3, 1000).calls)
  {
    Retry.RetryReturnsFirstSuccess(o.create, MaxRetries, Retry.RetryDelay, 0);
    Retry.RetryReturnsFirstSuccess(o.read, MaxRetries, Retry.RetryDelay, k);
    var w := WriteConfig(o, mapConfigJson);
    assert Recreate(o, repo, mapConfigJson).trace == [CreateFromTemplate(repo)] + w.trace;
  }

  /** When every read fails, the third read's error escapes and no write is issued. */
  lemma SetupReadFailure(o: SetupOracle, repo: string, mapConfigJson: string)
    requires o.delete.Ok? && o.create(0).Ok?
    requires o.read(0).Err? && o.read(1).Err? && o.read(2).Err?
    ensures var f := Setup(o, repo, mapConfigJson);
      && f.result == Err(o.read(2).error)
      && f.trace == [DeleteRepo(repo), CreateFromTemplate(repo)] + Repeat(GetContent(ConfigPath), 3)
      && f.waits == [DeleteSettle, RepoCreationWait, 1000, 1000]
  {
    Retry.RetryReturnsFirstSuccess(o.create, MaxRetries, Retry.RetryDelay, 0);
    Retry.RetryRethrowsLast(o.read, MaxRetries, Retry.RetryDelay);
    assert Retry.Pauses(2, 1000) == [1000, 1000];
  }

  /** `setupRepository` as written, over the shared retry loop; each step's requests and
      pauses are appended to those of the steps before it. */
  method SetupRepository(o: SetupOracle, repo: string, mapConfigJson: string) returns (f: Flow<()>)
    ensures f == Setup(o, repo, mapConfigJson)
  {
    var deleted := DeleteOldRepository(o.delete, repo);
    if deleted.result.Err? {
      return Flow(Err(deleted.result.error), deleted.trace, deleted.waits);
    }
    var created := Retry.Retrying(o.create, MaxRetries, CreateFromTemplate(repo));
    if created.result.Err? {
      return AndThen(deleted, created);
    }
    var settle := Flow(Ok(()), [], [RepoCreationWait]);
    var current := Retry.Retrying(o.read, MaxRetries, GetContent(ConfigPath));
    if current.result.Err? {
      return AndThen(deleted, AndThen(created, AndThen(settle, Flow(Err(current.result.error), current.trace, current.waits))));
    }
    var put := PutContent(ConfigPath, "Update map configuration", ConfigModule(mapConfigJson), Some(current.result.value));
    var updated := Retry.Retrying(o.update, MaxRetries, put);
    return AndThen(deleted, AndThen(created, AndThen(settle, AndThen(current, updated))));
  }

  // ---------------------------------------------------------------- the endpoint

  /** A JSON response: an error body with its status, or a success body. */
  datatype Response =
    | Failure(status: int, error: string, details: seq<string>)
    | Success(repoUrl: string)

  /** The catch-all handler: `error.status || 500`, `error.message || default`. */
  function Caught(e: Error): (r: Response)
    ensures r.Failure? && r.status != 0 && r.error != ""
    ensures e.status != 0 ==> r.status == e.status
    ensures e.message != "" ==> r.error == e.message
    ensures r.details == e.details
  {
    Failure(StatusOr(e, 500), MessageOr(e, "Failed to create repository"), e.details)
  }

  /** What the request carries and what the remote side does. `translations` is `None`
      when the request has no `translationReferenceId`, and otherwise the outcome of
      fetching and committing the referenced translations (that step is not modelled call
      by call). */
  datatype Request = Request(repoName: Option<string>, mapConfigJson: string, translations: Option<Outcome<()>>)

  datatype Remotes = Remotes(user: Outcome<string>, setup: SetupOracle, dispatch: Script<()>)

  /** The fetch-and-commit of referenced translations, seen from outside: a failure is
      rethrown as a new Error that prefixes its message. */
  function TranslationsStep(translations: Option<Outcome<()>>): Flow<()> {
    if translations.Some? && translations.value.Err? then
      Flow(Err(Thrown("Failed to process translations: " + translations.value.error.message)), [], [])
    else Flow(Ok(()), [], [])
  }

  /** Everything between creating the client and building the success body; on success
      it yields the authenticated login, which is not looked up again. */
  function Steps(req: Request, name: string, rs: Remotes): Flow<string>
  {
    var auth := Flow(rs.user, [GetAuthenticated], []);
    AndThen(auth,
      AndThen(Setup(rs.setup, name, req.mapConfigJson),
        AndThen(TranslationsStep(req.translations),
          AndThen(Retry.RetryFlow(rs.dispatch, MaxRetries, Retry.RetryDelay, Dispatch(name)), Flow(rs.user, [], [])))))
  }

  /** Setting the repository up never asks who the user is. */
  lemma SetupNeverAuthenticates(o: SetupOracle, repo: string, mapConfigJson: string)
    ensures GetAuthenticated !in Setup(o, repo, mapConfigJson).trace
  {
    Retry.RetryIssuesOnly(o.create, MaxRetries, Retry.RetryDelay, CreateFromTemplate(repo));
    Retry.RetryIssuesOnly(o.read, MaxRetries, Retry.RetryDelay, GetContent(ConfigPath));
    var read := Retry.RetryFlow(o.read, MaxRetries, Retry.RetryDelay, GetContent(ConfigPath));
    if read.result.Ok? {
      var put := PutContent(ConfigPath, "Update map configuration", ConfigModule(mapConfigJson), Some(read.result.value));
      Retry.RetryIssuesOnly(o.update, MaxRetries, Retry.RetryDelay, put);
    }
  }

  /** The user is looked up first, and only once. */
  lemma StepsAuthenticateOnce(req: Request, name: string, rs: Remotes)
    ensures var t := Steps(req, name, rs).trace;
      |t| > 0 && t[0] == GetAuthenticated && GetAuthenticated !in t[1..]
  {
    SetupNeverAuthenticates(rs.setup, name, req.mapConfigJson);
    Retry.RetryIssuesOnly(rs.dispatch, MaxRetries, Retry.RetryDelay, Dispatch(name));
    var rest := AndThen(Setup(rs.setup, name, req.mapConfigJson),
      AndThen(TranslationsStep(req.translations),
        AndThen(Retry.RetryFlow(rs.dispatch, MaxRetries, Retry.RetryDelay, Dispatch(name)), Flow(rs.user, [], []))));
    assert GetAuthenticated !in rest.trace;
    assert Steps(req, name, rs).trace == [GetAuthenticated] + (if rs.user.Ok? then rest.trace else []);
  }

  /** The response body as written references the undeclared `languageStats`; reading it
      throws a ReferenceError, which the handler turns into this response. */
  const LanguageStatsError: Response := Failure(500, "languageStats is not defined", [])

  method RunSteps(req: Request, name: string, rs: Remotes) returns (f: Flow<string>)
    ensures f == Steps(req, name, rs)
  {
    var auth := Flow(rs.user, [GetAuthenticated], []);
    if rs.user.Err? {
      return auth;
    }
    var s := SetupRepository(rs.setup, name, req.mapConfigJson);
    var login := Flow(rs.user, [], []);
    if s.result.Err? {
      return AndThen(auth, AndThen(s, login));
    }
    var t := TranslationsStep(req.translations);
    if t.result.Err? {
      return AndThen(auth, AndThen(s, AndThen(t, login)));
    }
    var d := Retry.Retrying(rs.dispatch, MaxRetries, Dispatch(name));
    f := AndThen(auth, AndThen(s, AndThen(t, AndThen(d, login))));
  }

  /** `POST` as written. Without a token it answers 500 and with a rejected name 400,
      both before any GitHub request; otherwise every error reaches the handler, and so
      does success, through the ReferenceError: it never answers with a success body. */
  method Post(tokenConfigured: bool, req: Request, rs: Remotes) returns (resp: Response, trace: seq<Call>, waits: seq<nat>)
    ensures !tokenConfigured ==> resp == Failure(500, "GitHub token not configured", []) && trace == []
    ensures tokenConfigured && !NameAccepted(req.repoName) ==> resp == Failure(400, "Invalid repository name", []) && trace == []
    ensures tokenConfigured && NameAccepted(req.repoName) ==>
      var f := Steps(req, NameArgument(req.repoName), rs);
      && trace == f.trace && waits == f.waits
      && trace[0] == GetAuthenticated && GetAuthenticated !in trace[1..]
      && resp == (if f.result.Err? then Caught(f.result.error) else LanguageStatsError)
    ensures resp.Failure?
  {
    if !tokenConfigured {
      return Failure(500, "GitHub token not configured", []), [], [];
    }
    if !NameAccepted(req.repoName) {
      return Failure(400, "Invalid repository name", []), [], [];
    }
    var f := RunSteps(req, NameArgument(req.repoName), rs);
    trace, waits := f.trace, f.waits;
    StepsAuthenticateOnce(req, NameArgument(req.repoName), rs);
    if f.result.Err? {
      resp := Caught(f.result.error);
    } else {
      resp := LanguageStatsError;
    }
  }

  /** Even when every remote call succeeds at once, the endpoint as written answers 500. */
  lemma PostFailsOnSuccess(req: Request, rs: Remotes)
    requires req.translations.None? || req.translations.value.Ok?
    requires rs.user.Ok? && rs.setup.delete.Ok? && rs.setup.create(0).Ok? && rs.setup.read(0).Ok?
    requires rs.setup.update(0).Ok? && rs.dispatch(0).Ok?
    ensures Steps(req, NameArgument(req.repoName), rs).result == Ok(rs.user.value)
  {
    var name := NameArgument(req.repoName);
    assert Setup(rs.setup, name, req.mapConfigJson).result.Ok? by {
      SetupSucceedsAtOnce(rs.setup, name, req.mapConfigJson);
    }
    assert Retry.RetryFlow(rs.dispatch, MaxRetries, Retry.RetryDelay, Dispatch(name)).result.Ok? by {
      Retry.RetryReturnsFirstSuccess(rs.dispatch, MaxRetries, Retry.RetryDelay, 0);
    }
  }

  lemma SetupSucceedsAtOnce(o: SetupOracle, repo: string, mapConfigJson: string)
    requires o.delete.Ok? && o.create(0).Ok? && o.read(0).Ok? && o.update(0).Ok?
    ensures Setup(o, repo, mapConfigJson).result.Ok?
  {
    var w := WriteConfig(o, mapConfigJson);
    assert w.result.Ok? by {
      Retry.FirstAttemptSucceeds(o.read, MaxRetries, Retry.RetryDelay, GetContent(ConfigPath));
      var put := PutContent(ConfigPath, "Update map configuration", ConfigModule(mapConfigJson), Some(o.read(0).value));
      Retry.FirstAttemptSucceeds(o.update, MaxRetries, Retry.RetryDelay, put);
    }
    var c := Retry.RetryFlow(o.create, MaxRetries, Retry.RetryDelay, CreateFromTemplate(repo));
    assert c.result.Ok? by {
      Retry.FirstAttemptSucceeds(o.create, MaxRetries, Retry.RetryDelay, CreateFromTemplate(repo));
    }
    var r := Recreate(o, repo, mapConfigJson);
    assert r.result.Ok? by {
      AndThenOk(Flow(Ok(()), [], [RepoCreationWait]), w);
      AndThenOk(c, AndThen(Flow(Ok(()), [], [RepoCreationWait]), w));
    }
    AndThenOk(DeleteOld(o.delete, repo), r);
  }

  /** `POST` as evidently intended: the success body carries the repository's URL. */
  method PostIntended(tokenConfigured: bool, req: Request, rs: Remotes) returns (resp: Response, trace: seq<Call>, waits: seq<nat>)
    ensures !tokenConfigured ==> resp == Failure(500, "GitHub token not configured", []) && trace == []
    ensures tokenConfigured && !NameAccepted(req.repoName) ==> resp == Failure(400, "Invalid repository name", []) && trace == []
    ensures tokenConfigured && NameAccepted(req.repoName) ==>
      var f := Steps(req, NameArgument(req.repoName), rs);
      && trace == f.trace && waits == f.waits
      && trace[0] == GetAuthenticated && GetAuthenticated !in trace[1..]
      && resp == (if f.result.Err? then Caught(f.result.error)
                  else Success("https://github.com/" + f.result.value + "/" + NameArgument(req.repoName)))
  {
    if !tokenConfigured {
      return Failure(500, "GitHub token not configured", []), [], [];
    }
    if !NameAccepted(req.repoName) {
      return Failure(400, "Invalid repository name", []), [], [];
    }
    var name := NameArgument(req.repoName);
    var f := RunSteps(req, name, rs);
    trace, waits := f.trace, f.waits;
    StepsAuthenticateOnce(req, name, rs);
    if f.result.Err? {
      resp := Caught(f.result.error);
    } else {
      resp := Success(RepoUrl(f.result.value, name));
    }
  }
}
