/** The cleanup-storage endpoint: it lists the blob store, deletes every blob it listed,
    one after the other, and lists the store once more to report how many blobs remain. */
module CleanupStorage {
  import opened Remote
  import FailFast

  /** The remote side: the first listing (the URLs of the blobs, in listing order), the
      outcome of each successive delete, and the second listing. */
  datatype Remotes = Remotes(first: Outcome<seq<string>>, deletes: Script<()>, second: Outcome<seq<string>>)

  datatype Response =
    | Failure(status: int, error: string)
    | Success(message: string, remainingBlobs: nat)

  const Cleaned: string := "Blob storage cleaned up successfully"

  /** The handler: `error.message || 'Failed to clean up blob storage'` with
      `error.status || 500`. */
  function Caught(e: Error): (r: Response)
    ensures r.Failure? && r.status != 0 && r.error != ""
    ensures e.status != 0 ==> r.status == e.status
    ensures e.message != "" ==> r.error == e.message
  {
    Failure(StatusOr(e, 500), MessageOr(e, "Failed to clean up blob storage"))
  }

  /** The delete of the blob at index `i`; its inner `catch` rethrows what `del` threw. */
  function DeleteAt(urls: seq<string>, deletes: Script<()>, i: nat): Flow<()> {
    if i < |urls| then Flow(deletes(i), [BlobDel(urls[i])], []) else Flow(Ok(()), [], [])
  }

  /** The body of the loop, blob by blob. */
  function DeleteStep(urls: seq<string>, deletes: Script<()>): nat -> Flow<()> {
    (i: nat) => DeleteAt(urls, deletes, i)
  }

  /** `for (const blob of blobs) await del(blob.url)`, as written. */
  method DeleteAll(urls: seq<string>, deletes: Script<()>) returns (f: Flow<seq<()>>)
    ensures f == FailFast.Each(DeleteStep(urls, deletes), |urls|)
  {
    var step := DeleteStep(urls, deletes);
    var n := |urls|;
    var done: seq<()> := [];
    var trace: seq<Call> := [];
    var i := 0;
    while i < n
      invariant i <= n
      invariant FailFast.Each(step, n) == FailFast.EachFrom(step, n, i, done, trace, [])
    {
      var call := BlobDel(urls[i]);
      var out := deletes(i);
      if out.Err? {
        return Flow(Err(out.error), trace + [call], []);
      }
      assert out.value == ();
      assert step(i) == Flow(Ok(()), [call], []);
      var noWaits: seq<nat> := [];
      assert noWaits + step(i).waits == noWaits;
      trace := trace + [call];
      done := done + [()];
      i := i + 1;
    }
    return Flow(Ok(done), trace, []);
  }

  /** The first listing, the deletes and the second listing; on success the number of
      blobs the second listing returned. */
  function Steps(rs: Remotes): Flow<nat> {
    if rs.first.Err? then Flow(Err(rs.first.error), [BlobList], [])
    else
      var deleted := FailFast.Each(DeleteStep(rs.first.value, rs.deletes), |rs.first.value|);
      var second := Flow(if rs.second.Ok? then Ok(|rs.second.value|) else Err(rs.second.error), [BlobList], []);
      AndThen(Flow(Ok(()), [BlobList], []), AndThen(deleted, second))
  }

  /** `POST` as written. */
  method Post(rs: Remotes) returns (resp: Response, trace: seq<Call>)
    ensures trace == Steps(rs).trace
    ensures resp.Success? <==> Steps(rs).result.Ok?
    ensures resp.Success? ==> resp == Success(Cleaned, Steps(rs).result.value)
    ensures resp.Failure? ==> resp == Caught(Steps(rs).result.error)
  {
    trace := [BlobList];
    if rs.first.Err? {
      return Caught(rs.first.error), trace;
    }
    var deleted := DeleteAll(rs.first.value, rs.deletes);
    trace := trace + deleted.trace;
    if deleted.result.Err? {
      return Caught(deleted.result.error), trace;
    }
    trace := trace + [BlobList];
    if rs.second.Err? {
      return Caught(rs.second.error), trace;
    }
    resp := Success(Cleaned, |rs.second.value|);
  }

  /** The loop's step for each blob: one delete of its URL. */
  lemma StepAt(urls: seq<string>, deletes: Script<()>, to: nat)
    requires to <= |urls|
    ensures forall i :: 0 <= i < to ==> DeleteAt(urls, deletes, i) == Flow(deletes(i), [BlobDel(urls[i])], [])
  {
  }

  /** The deletes of the listed blobs, one per blob, in listing order. */
  lemma {:induction false} DeleteCalls(urls: seq<string>, deletes: Script<()>, to: nat)
    requires to <= |urls|
    ensures var calls := FailFast.Calls(DeleteStep(urls, deletes), 0, to);
      && |calls| == to
      && forall i :: 0 <= i < to ==> calls[i] == BlobDel(urls[i])
  {
    var step := DeleteStep(urls, deletes);
    var calls := FailFast.Calls(step, 0, to);
    assert forall i :: 0 <= i < to ==> |step(i).trace| == 1 by {
      StepAt(urls, deletes, to);
      assert forall i :: 0 <= i < to ==> step(i) == DeleteAt(urls, deletes, i);
    }
    FailFast.OneCallEach(step, 0, to);
    forall i | 0 <= i < to
      ensures calls[i] == BlobDel(urls[i])
    {
      assert step(i) == DeleteAt(urls, deletes, i);
      assert calls[i - 0] == step(i).trace[0];
    }
  }

  /** When every delete succeeds, each listed blob is deleted exactly once, in listing
      order, between the two listings, and the endpoint reports the size of the second
      listing. */
  lemma {:induction false} EveryBlobDeleted(rs: Remotes)
    requires rs.first.Ok?
    requires forall i :: 0 <= i < |rs.first.value| ==> rs.deletes(i).Ok?
    ensures var f := Steps(rs);
      var urls := rs.first.value;
      var n := |urls|;
      && |f.trace| == n + 2
      && f.trace[0] == BlobList && f.trace[n + 1] == BlobList
      && (forall i :: 0 <= i < n ==> f.trace[i + 1] == BlobDel(urls[i]))
      && (f.result.Ok? <==> rs.second.Ok?)
      && (rs.second.Ok? ==> f.result.value == |rs.second.value|)
  {
    var urls := rs.first.value;
    var n := |urls|;
    var step := DeleteStep(urls, rs.deletes);
    var calls := FailFast.Calls(step, 0, n);
    assert FailFast.Each(step, n).trace == calls && FailFast.Each(step, n).result.Ok? by {
      StepAt(urls, rs.deletes, n);
      assert forall i :: 0 <= i < n ==> step(i) == DeleteAt(urls, rs.deletes, i);
      assert FailFast.Succeeded(step, 0, n);
      FailFast.EachSucceeds(step, n);
    }
    DeleteCalls(urls, rs.deletes, n);
    assert Steps(rs).trace == [BlobList] + calls + [BlobList];
  }

  /** The first delete that fails ends the cleanup: the blobs after it are not deleted,
      the store is not listed again, and its error reaches the handler unchanged. */
  lemma {:induction false} CleanupStopsAtFailedDelete(rs: Remotes, k: nat)
    requires rs.first.Ok? && k < |rs.first.value| && rs.deletes(k).Err?
    requires forall i :: 0 <= i < k ==> rs.deletes(i).Ok?
    ensures var f := Steps(rs);
      var urls := rs.first.value;
      && f.result == Err(rs.deletes(k).error)
      && |f.trace| == k + 2
      && f.trace[0] == BlobList
      && (forall i :: 0 <= i <= k ==> f.trace[i + 1] == BlobDel(urls[i]))
  {
    var urls := rs.first.value;
    var step := DeleteStep(urls, rs.deletes);
    StepAt(urls, rs.deletes, k + 1);
    assert forall i :: 0 <= i <= k ==> step(i) == DeleteAt(urls, rs.deletes, i);
    FailFast.EachStopsAt(step, |urls|, k);
    DeleteCalls(urls, rs.deletes, k + 1);
    assert Steps(rs).trace == [BlobList] + FailFast.Calls(step, 0, k + 1);
  }
}
