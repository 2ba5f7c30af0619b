/** Values shared by every endpoint: the outcome of a remote call, the error it throws,
    the calls an endpoint issues and the key/value objects it walks.

    Every remote client (the GitHub client, the blob store, the translation service and
    the deployment platform's REST API) is an oracle here: a call that is made once is
    given by its `Outcome`, a call that may be made repeatedly by a `Script`, whose i-th
    entry is the outcome of the i-th invocation. Endpoints return the calls they issued,
    in order, and the pauses they asked for, in milliseconds, instead of performing them. */
module Remote {

  datatype Option<+T> = None | Some(value: T)

  /** An error as the clients throw it. `status` 0 stands for an error that has no
      `status` property (every `new Error(...)` of the endpoints, and a TypeError);
      a header missing from `headers` is absent from `error.response.headers`;
      `details` are the messages of `error.response.data.errors`, in order. */
  datatype Error = Error(status: int, headers: map<string, string>, message: string, details: seq<string>)

  datatype Outcome<+T> = Ok(value: T) | Err(error: Error)

  /** The outcome of each successive invocation of one remote operation. */
  type Script<T> = nat -> Outcome<T>

  const NotFound: int := 404

  /** `new Error(message)`: no status, no response. */
  function Thrown(message: string): Error
  {
    Error(0, map[], message, [])
  }

  /** `error.status || fallback` */
  function StatusOr(e: Error, fallback: int): int
  {
    if e.status != 0 then e.status else fallback
  }

  /** `error.message || fallback` */
  function MessageOr(e: Error, fallback: string): string
  {
    if e.message != "" then e.message else fallback
  }

  /** What a piece of an endpoint did: what it resolved to or threw, the calls it
      issued in order, and the pauses it asked for in milliseconds. */
  datatype Flow<+T> = Flow(result: Outcome<T>, trace: seq<Call>, waits: seq<nat>)

  /** `f`, then `g` when `f` resolved: a throw in `f` skips `g` and escapes. */
  function AndThen<S, T>(f: Flow<S>, g: Flow<T>): Flow<T> {
    if f.result.Err? then Flow(Err(f.result.error), f.trace, f.waits)
    else Flow(g.result, f.trace + g.trace, f.waits + g.waits)
  }

  /** A sequence of two pieces resolves exactly when both do, to what the second
      resolved to. */
  lemma AndThenOk<S, T>(f: Flow<S>, g: Flow<T>)
    ensures AndThen(f, g).result.Ok? <==> f.result.Ok? && g.result.Ok?
    ensures AndThen(f, g).result.Ok? ==> AndThen(f, g).result == g.result
  {
  }

  /** A piece that issued a request begins the trace of everything it starts. */
  lemma AndThenStarts<S, T>(f: Flow<S>, g: Flow<T>)
    requires |f.trace| > 0
    ensures |AndThen(f, g).trace| > 0 && AndThen(f, g).trace[0] == f.trace[0]
  {
  }

  /** What a blob put uploads: a serialized payload the endpoint was given, or the
      language-to-URL index that save-translations builds. */
  datatype Payload = Text(text: string) | UrlIndex(urls: map<string, string>)

  /** One request to a remote service, with the arguments that matter to the model. */
  datatype Call =
    | GetAuthenticated
    | DeleteRepo(repo: string)
    | CreateFromTemplate(repo: string)
    | CreateForUser(repo: string)
    | GetRepo(owner: string, repo: string)
    | GetContent(path: string)
    | PutContent(path: string, message: string, content: string, sha: Option<string>)
    | Dispatch(repo: string)
    | BlobPut(key: string, payload: Payload)
    | BlobList
    | BlobDel(url: string)
    | Translate(text: string, target: string)
    | CreateProject(name: string, repoId: int)
    | GetDomains(projectId: string)
    | CreateDeployment(name: string, projectId: string)

  /** The same request issued `n` times in a row. */
  function Repeat(c: Call, n: nat): seq<Call>
  {
    seq(n, _ => c)
  }

  lemma RepeatOnly(c: Call, n: nat)
    ensures forall d :: d in Repeat(c, n) ==> d == c
  {
  }

  /** A JavaScript object as `Object.entries` lists it: keys in iteration order. */
  type Entries<V> = seq<(string, V)>

  /** `Object.keys`. */
  function Keys<V>(es: Entries<V>): (ks: seq<string>)
    ensures |ks| == |es|
    ensures forall i :: 0 <= i < |es| ==> ks[i] == es[i].0
  {
    seq(|es|, i requires 0 <= i < |es| => es[i].0)
  }

  /** The keys of an object are distinct. */
  predicate DistinctKeys<V>(es: Entries<V>) {
    forall i, j :: 0 <= i < j < |es| ==> es[i].0 != es[j].0
  }

  /** The set of keys of an object. */
  function KeySet<V>(es: Entries<V>): (ks: set<string>)
    ensures forall k :: k in ks <==> exists i :: 0 <= i < |es| && es[i].0 == k
  {
    set i | 0 <= i < |es| :: es[i].0
  }
}
