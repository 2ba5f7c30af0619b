/** The save-translations endpoint: it stores each language of a translations object
    under a fresh reference id, ten languages at a time, then stores the index from
    language to blob URL under the reference's own key. */
module SaveTranslations {
  import opened Remote
  import opened Layout
  import Batching
  import FailFast

  /** BATCH_SIZE. */
  const BatchSize: nat := 10

  /** `Math.min(i + BATCH_SIZE, languages.length)`. */
  function BatchEnd(i: nat, n: nat): (end: nat)
    requires i < n
    ensures i < end <= n && end - i <= BatchSize
    ensures end == n || end == i + BatchSize
  {
    if i + BatchSize < n then i + BatchSize else n
  }

  /** The put of one language, under the reference's directory; the value is the
      serialized content of the language. */
  function PutCall(referenceId: string, entry: (string, string)): Call {
    BlobPut(TranslationBlobKey(referenceId, entry.0), Text(entry.1))
  }

  /** The puts of the languages at indices `from..to-1`, in key order. */
  function PutCalls(translations: Entries<string>, referenceId: string, from: nat, to: nat): (cs: seq<Call>)
    requires from <= to <= |translations|
    ensures |cs| == to - from
    ensures forall k :: from <= k < to ==> cs[k - from] == PutCall(referenceId, translations[k])
  {
    seq(to - from, k requires 0 <= k < to - from => PutCall(referenceId, translations[from + k]))
  }

  /** The index of the first failing put among `from..to-1`: what `Promise.all` rejects
      with once the batch has settled, the batch being taken in key order. */
  function FirstFailed(puts: Script<string>, from: nat, to: nat): (r: Option<nat>)
    requires from <= to
    ensures r.Some? ==> from <= r.value < to && puts(r.value).Err? && (forall k :: from <= k < r.value ==> puts(k).Ok?)
    ensures r.None? ==> (forall k :: from <= k < to ==> puts(k).Ok?)
    decreases (to as int) - (from as int)
  {
    if from == to then None
    else
      var r := FirstFailed(puts, from, to - 1);
      if r.Some? then r else if puts(to - 1).Err? then Some(to - 1) else None
  }

  /** What the batch's `Promise.all` rejects with, if anything, as the puts of
      `from..to-1` settle in key order. */
  function Rejection(puts: Script<string>, from: nat, to: nat): Option<Error>
    requires from <= to
    decreases (to as int) - (from as int)
  {
    if from == to then None
    else
      var r := Rejection(puts, from, to - 1);
      if r.Some? then r else if puts(to - 1).Err? then Some(puts(to - 1).error) else None
  }

  /** The rejection is the error of the first failing put. */
  lemma {:induction false} RejectionIsFirstFailure(puts: Script<string>, from: nat, to: nat)
    requires from <= to
    ensures var r := FirstFailed(puts, from, to);
      Rejection(puts, from, to) == if r.Some? then Some(puts(r.value).error) else None
    decreases (to as int) - (from as int)
  {
    if from < to {
      RejectionIsFirstFailure(puts, from, to - 1);
    }
  }

  lemma StoredNext(translations: Entries<string>, puts: Script<string>, from: nat, j: nat,
                   urlMap: map<string, string>)
    requires from <= j < |translations|
    ensures Stored(translations, puts, from, j + 1, urlMap)
         == if puts(j).Ok? then Stored(translations, puts, from, j, urlMap)[translations[j].0 := puts(j).value]
            else Stored(translations, puts, from, j, urlMap)
  {
  }

  /** `urlMap` after the puts of `from..to-1` that succeeded recorded their URLs. */
  function Stored(translations: Entries<string>, puts: Script<string>, from: nat, to: nat,
                  urlMap: map<string, string>): map<string, string>
    requires from <= to <= |translations|
    decreases (to as int) - (from as int)
  {
    if from == to then urlMap
    else
      var m := Stored(translations, puts, from, to - 1, urlMap);
      if puts(to - 1).Ok? then m[translations[to - 1].0 := puts(to - 1).value] else m
  }

  /** The batch loop from index `i` on: each batch issues all of its puts, and the
      first of them that fails ends the loop with its error. */
  function SaveFrom(translations: Entries<string>, referenceId: string, puts: Script<string>, i: nat,
                    urlMap: map<string, string>, trace: seq<Call>): Flow<map<string, string>>
    decreases |translations| - (i as int)
  {
    var n := |translations|;
    if i >= n then Flow(Ok(urlMap), trace, [])
    else
      var end := BatchEnd(i, n);
      var issued := trace + PutCalls(translations, referenceId, i, end);
      var failed := FirstFailed(puts, i, end);
      if failed.Some? then Flow(Err(puts(failed.value).error), issued, [])
      else SaveFrom(translations, referenceId, puts, i + BatchSize, Stored(translations, puts, i, end, urlMap), issued)
  }

  /** The whole batch loop, starting from an empty `urlMap`. */
  function SaveSpec(translations: Entries<string>, referenceId: string, puts: Script<string>): Flow<map<string, string>> {
    SaveFrom(translations, referenceId, puts, 0, map[], [])
  }

  /** `await Promise.all(batch.map(...))` for the languages at `i..end-1`, taken one
      put after the other: every put is issued, each success records its URL, and the
      first failure is what the batch rejects with. */
  method PutBatch(translations: Entries<string>, referenceId: string, puts: Script<string>, i: nat, end: nat,
                  urlMap0: map<string, string>, trace0: seq<Call>)
    returns (urlMap: map<string, string>, trace: seq<Call>, failed: Option<Error>)
    requires i <= end <= |translations|
    ensures trace == trace0 + PutCalls(translations, referenceId, i, end)
    ensures urlMap == Stored(translations, puts, i, end, urlMap0)
    ensures failed == Rejection(puts, i, end)
  {
    urlMap, trace, failed := urlMap0, trace0, None;
    var j := i;
    while j < end
      invariant i <= j <= end
      invariant trace == trace0 + PutCalls(translations, referenceId, i, j)
      invariant urlMap == Stored(translations, puts, i, j, urlMap0)
      invariant failed == Rejection(puts, i, j)
    {
      var lang := translations[j].0;
      var blob := puts(j);
      assert trace + [PutCall(referenceId, translations[j])]
          == trace0 + PutCalls(translations, referenceId, i, j + 1) by {
        PutCallsNext(translations, referenceId, i, j);
        FailFast.SeqAssoc(trace0, PutCalls(translations, referenceId, i, j), [PutCall(referenceId, translations[j])]);
      }
      StoredNext(translations, puts, i, j, urlMap0);
      trace := trace + [PutCall(referenceId, translations[j])];
      urlMap := if blob.Ok? then urlMap[lang := blob.value] else urlMap;
      failed := if failed.None? && blob.Err? then Some(blob.error) else failed;
      j := j + 1;
    }
  }

  /** The `for (i = 0; i < languages.length; i += BATCH_SIZE)` loop as written; each
      batch's `Promise.all` is taken one put after the other, every put of the batch
      being issued before the batch's rejection escapes. */
  method SaveBatches(translations: Entries<string>, referenceId: string, puts: Script<string>)
    returns (f: Flow<map<string, string>>)
    ensures f == SaveSpec(translations, referenceId, puts)
  {
    var n := |translations|;
    var urlMap: map<string, string> := map[];
    var trace: seq<Call> := [];
    var i: nat := 0;
    while i < n
      invariant SaveSpec(translations, referenceId, puts) == SaveFrom(translations, referenceId, puts, i, urlMap, trace)
      decreases n - i
    {
      var end := if i + BatchSize < n then i + BatchSize else n;
      ghost var trace0, urlMap0 := trace, urlMap;
      var failed;
      urlMap, trace, failed := PutBatch(translations, referenceId, puts, i, end, urlMap, trace);
      SaveFromStep(translations, referenceId, puts, i, urlMap0, trace0);
      RejectionIsFirstFailure(puts, i, end);
      if failed.Some? {
        return Flow(Err(failed.value), trace, []);
      }
      i := i + BatchSize;
    }
    return Flow(Ok(urlMap), trace, []);
  }

  lemma PutCallsNext(translations: Entries<string>, referenceId: string, from: nat, j: nat)
    requires from <= j < |translations|
    ensures PutCalls(translations, referenceId, from, j + 1)
         == PutCalls(translations, referenceId, from, j) + [PutCall(referenceId, translations[j])]
  {
    var a := PutCalls(translations, referenceId, from, j + 1);
    var b := PutCalls(translations, referenceId, from, j) + [PutCall(referenceId, translations[j])];
    assert forall k :: 0 <= k < |a| ==> a[k] == b[k];
  }

  /** One visit of the batch loop: the batch's puts are issued, and the first that
      failed ends the loop; otherwise the loop moves on to the next batch. */
  lemma SaveFromStep(translations: Entries<string>, referenceId: string, puts: Script<string>, i: nat,
                     urlMap: map<string, string>, trace: seq<Call>)
    requires i < |translations|
    ensures var end := BatchEnd(i, |translations|);
      var issued := trace + PutCalls(translations, referenceId, i, end);
      var failed := FirstFailed(puts, i, end);
      SaveFrom(translations, referenceId, puts, i, urlMap, trace)
        == if failed.Some? then Flow(Err(puts(failed.value).error), issued, [])
           else SaveFrom(translations, referenceId, puts, i + BatchSize, Stored(translations, puts, i, end, urlMap), issued)
  {
  }

  // ---------------------------------------------------------------- the endpoint

  /** The `translations` field of the request: absent or falsy, a truthy value that is
      not an object, or an object (serialized content by language, in key order). */
  datatype Field = Missing | Scalar | Object(entries: Entries<string>)

  datatype Response =
    | Failure(status: int, error: string)
    | Success(referenceId: string, referenceUrl: string, languageCount: nat)

  /** The put of the language-to-URL index. */
  function ReferencePut(referenceId: string, urlMap: map<string, string>): Call {
    BlobPut(ReferenceKey(referenceId), UrlIndex(urlMap))
  }

  /** `POST` as written; `referenceId` is the id the endpoint drew, `puts(i)` the
      outcome of the put of the language at index `i` (its URL on success) and
      `reference` that of the index put. */
  method Post(translations: Field, referenceId: string, puts: Script<string>, reference: Outcome<string>)
    returns (resp: Response, trace: seq<Call>)
    ensures !translations.Object? ==> resp == Failure(400, "Invalid translations format") && trace == []
    ensures translations.Object? ==>
      var es := translations.entries;
      var f := SaveSpec(es, referenceId, puts);
      && (f.result.Err? ==> resp == Failure(500, f.result.error.message) && trace == f.trace)
      && (f.result.Ok? ==> trace == f.trace + [ReferencePut(referenceId, f.result.value)])
      && (f.result.Ok? && reference.Ok? ==> resp == Success(referenceId, reference.value, |es|))
      && (f.result.Ok? && reference.Err? ==> resp == Failure(500, reference.error.message))
  {
    if !translations.Object? {
      return Failure(400, "Invalid translations format"), [];
    }
    var languages := Keys(translations.entries);
    var saved := SaveBatches(translations.entries, referenceId, puts);
    trace := saved.trace;
    if saved.result.Err? {
      return Failure(500, saved.result.error.message), trace;
    }
    var urlMap := saved.result.value;
    trace := trace + [ReferencePut(referenceId, urlMap)];
    if reference.Err? {
      return Failure(500, reference.error.message), trace;
    }
    resp := Success(referenceId, reference.value, |languages|);
  }

  // ---------------------------------------------------------------- properties

  /** The loop's `i`-th visit, `i = b * BATCH_SIZE`, happens exactly for the groups of
      ten consecutive languages `Batching.Chunks` cuts, and sees that group; the groups
      cover the languages once each, in order, and there are `ceil(n / 10)` of them. */
  lemma BatchesAreChunks(languages: seq<string>, b: nat)
    ensures b * BatchSize < |languages| <==> b < |Batching.Chunks(languages, BatchSize)|
    ensures b * BatchSize < |languages| ==>
      Batching.Chunks(languages, BatchSize)[b] == languages[b * BatchSize..BatchEnd(b * BatchSize, |languages|)]
    ensures Batching.Flatten(Batching.Chunks(languages, BatchSize)) == languages
    ensures |Batching.Chunks(languages, BatchSize)| == (|languages| + BatchSize - 1) / BatchSize
  {
    Batching.ChunkAt(languages, BatchSize, 0, b);
    Batching.ChunksCover(languages, BatchSize);
  }

  lemma {:induction false} PutCallsSplit(translations: Entries<string>, referenceId: string, from: nat, mid: nat, to: nat)
    requires from <= mid <= to <= |translations|
    ensures PutCalls(translations, referenceId, from, mid) + PutCalls(translations, referenceId, mid, to)
         == PutCalls(translations, referenceId, from, to)
  {
    var a := PutCalls(translations, referenceId, from, mid);
    var b := PutCalls(translations, referenceId, mid, to);
    var c := PutCalls(translations, referenceId, from, to);
    assert forall k :: 0 <= k < |c| ==> (a + b)[k] == c[k] by {
      forall k | 0 <= k < |c|
        ensures (a + b)[k] == c[k]
      {
        if k < |a| {
          assert (a + b)[k] == a[k];
        } else {
          assert (a + b)[k] == b[k - |a|];
        }
      }
    }
  }

  lemma {:induction false} StoredSplit(translations: Entries<string>, puts: Script<string>, from: nat, mid: nat, to: nat,
                                       urlMap: map<string, string>)
    requires from <= mid <= to <= |translations|
    ensures Stored(translations, puts, mid, to, Stored(translations, puts, from, mid, urlMap))
         == Stored(translations, puts, from, to, urlMap)
    decreases (to as int) - (mid as int)
  {
    if mid < to {
      StoredSplit(translations, puts, from, mid, to - 1, urlMap);
    }
  }

  /** The keys of the languages at `from..to-1`. */
  function KeysBetween(translations: Entries<string>, from: nat, to: nat): set<string>
    requires from <= to <= |translations|
    decreases (to as int) - (from as int)
  {
    if from == to then {} else KeysBetween(translations, from, to - 1) + {translations[to - 1].0}
  }

  lemma {:induction false} KeysBetweenAll(translations: Entries<string>, n: nat)
    requires n <= |translations|
    ensures forall key :: key in KeysBetween(translations, 0, n) <==> exists k :: 0 <= k < n && translations[k].0 == key
    decreases n
  {
    if n > 0 {
      KeysBetweenAll(translations, n - 1);
    }
  }

  /** With every put of `from..to-1` successful, `urlMap` gains exactly their keys. */
  lemma {:induction false} StoredKeys(translations: Entries<string>, puts: Script<string>, from: nat, to: nat,
                                      urlMap: map<string, string>)
    requires from <= to <= |translations|
    requires forall k :: from <= k < to ==> puts(k).Ok?
    ensures Stored(translations, puts, from, to, urlMap).Keys == urlMap.Keys + KeysBetween(translations, from, to)
    decreases (to as int) - (from as int)
  {
    if from < to {
      StoredKeys(translations, puts, from, to - 1, urlMap);
    }
  }

  /** With every put of `from..to-1` successful and distinct keys, each of their keys
      is mapped to its own put's URL. */
  lemma {:induction false} StoredValues(translations: Entries<string>, puts: Script<string>, from: nat, to: nat,
                                        urlMap: map<string, string>)
    requires from <= to <= |translations| && DistinctKeys(translations)
    requires forall k :: from <= k < to ==> puts(k).Ok?
    ensures var m := Stored(translations, puts, from, to, urlMap);
      forall k :: from <= k < to ==> translations[k].0 in m && m[translations[k].0] == puts(k).value
    decreases (to as int) - (from as int)
  {
    if from < to {
      StoredValues(translations, puts, from, to - 1, urlMap);
      var m' := Stored(translations, puts, from, to - 1, urlMap);
      var m := Stored(translations, puts, from, to, urlMap);
      assert m == m'[translations[to - 1].0 := puts(to - 1).value];
      forall k | from <= k < to
        ensures translations[k].0 in m && m[translations[k].0] == puts(k).value
      {
        if k < to - 1 {
          assert translations[k].0 != translations[to - 1].0;
        }
      }
    }
  }

  /** When every put succeeds the loop visits each language once, in key order, each
      under `translations/{referenceId}/{lang}.json`, and `urlMap`'s entries before the
      index is written are the languages' keys, each with its own blob's URL. */
  lemma {:induction false} SaveSuccess(translations: Entries<string>, referenceId: string, puts: Script<string>)
    requires DistinctKeys(translations)
    requires forall k :: 0 <= k < |translations| ==> puts(k).Ok?
    ensures var f := SaveSpec(translations, referenceId, puts);
      && f.result.Ok?
      && f.trace == PutCalls(translations, referenceId, 0, |translations|)
      && f.result.value.Keys == KeySet(translations)
      && forall k :: 0 <= k < |translations| ==> f.result.value[translations[k].0] == puts(k).value
  {
    var n := |translations|;
    SaveFromSuccess(translations, referenceId, puts, 0, map[], []);
    StoredKeys(translations, puts, 0, n, map[]);
    StoredValues(translations, puts, 0, n, map[]);
    KeysBetweenAll(translations, n);
    var none: seq<Call> := [];
    assert none + PutCalls(translations, referenceId, 0, n) == PutCalls(translations, referenceId, 0, n);
    var noKeys: map<string, string> := map[];
    assert noKeys.Keys + KeysBetween(translations, 0, n) == KeySet(translations);
  }

  lemma {:induction false} SaveFromSuccess(translations: Entries<string>, referenceId: string, puts: Script<string>,
                                           i: nat, urlMap: map<string, string>, trace: seq<Call>)
    requires i <= |translations|
    requires forall k :: i <= k < |translations| ==> puts(k).Ok?
    ensures SaveFrom(translations, referenceId, puts, i, urlMap, trace)
         == Flow(Ok(Stored(translations, puts, i, |translations|, urlMap)),
                 trace + PutCalls(translations, referenceId, i, |translations|), [])
    decreases |translations| - (i as int)
  {
    var n := |translations|;
    if i == n {
      assert trace + PutCalls(translations, referenceId, i, n) == trace;
    } else {
      var end := BatchEnd(i, n);
      var issued := trace + PutCalls(translations, referenceId, i, end);
      var m := Stored(translations, puts, i, end, urlMap);
      assert SaveFrom(translations, referenceId, puts, i, urlMap, trace)
          == SaveFrom(translations, referenceId, puts, i + BatchSize, m, issued) by {
        SaveFromStep(translations, referenceId, puts, i, urlMap, trace);
        assert FirstFailed(puts, i, end).None?;
      }
      if end == n {
        assert SaveFrom(translations, referenceId, puts, i + BatchSize, m, issued) == Flow(Ok(m), issued, []);
      } else {
        assert issued + PutCalls(translations, referenceId, end, n) == trace + PutCalls(translations, referenceId, i, n) by {
          PutCallsSplit(translations, referenceId, i, end, n);
        }
        assert Stored(translations, puts, end, n, m) == Stored(translations, puts, i, n, urlMap) by {
          StoredSplit(translations, puts, i, end, n, urlMap);
        }
        SaveFromSuccess(translations, referenceId, puts, end, m, issued);
      }
    }
  }

  /** The first index of the batch that holds index `k`. */
  function BatchStart(k: nat): nat {
    k - k % BatchSize
  }

  /** A failed put ends the loop after its batch: the first failing put's error escapes,
      every put of its batch has been issued, and no later batch is started. */
  lemma {:induction false} SaveFailure(translations: Entries<string>, referenceId: string, puts: Script<string>, k: nat)
    requires k < |translations| && puts(k).Err?
    requires forall j :: 0 <= j < k ==> puts(j).Ok?
    ensures var f := SaveSpec(translations, referenceId, puts);
      && f.result == Err(puts(k).error)
      && f.trace == PutCalls(translations, referenceId, 0, BatchEnd(BatchStart(k), |translations|))
  {
    SaveFromFailure(translations, referenceId, puts, k, 0, map[], []);
    var calls := PutCalls(translations, referenceId, 0, BatchEnd(BatchStart(k), |translations|));
    var none: seq<Call> := [];
    assert none + calls == calls;
  }

  lemma {:induction false} SaveFromFailure(translations: Entries<string>, referenceId: string, puts: Script<string>,
                                           k: nat, i: nat, urlMap: map<string, string>, trace: seq<Call>)
    requires i % BatchSize == 0 && i <= k < |translations| && puts(k).Err?
    requires forall j :: i <= j < k ==> puts(j).Ok?
    ensures BatchStart(k) < |translations|
    ensures SaveFrom(translations, referenceId, puts, i, urlMap, trace)
         == Flow(Err(puts(k).error), trace + PutCalls(translations, referenceId, i, BatchEnd(BatchStart(k), |translations|)), [])
    decreases |translations| - (i as int)
  {
    var n := |translations|;
    var end := BatchEnd(i, n);
    var issued := trace + PutCalls(translations, referenceId, i, end);
    if k < end {
      assert BatchStart(k) == i;
      var failed := FirstFailed(puts, i, end);
      assert failed == Some(k);
    } else {
      assert end == i + BatchSize;
      var m := Stored(translations, puts, i, end, urlMap);
      assert FirstFailed(puts, i, end).None?;
      SaveFromFailure(translations, referenceId, puts, k, end, m, issued);
      PutCallsSplit(translations, referenceId, i, end, BatchEnd(BatchStart(k), n));
    }
  }

  /** No put of the batch loop touches the reference's key: the index is written only
      by the put after the loop, so a failed batch leaves it unwritten. */
  lemma {:induction false} BatchesNeverWriteIndex(translations: Entries<string>, referenceId: string, from: nat, to: nat)
    requires from <= to <= |translations|
    ensures forall c :: c in PutCalls(translations, referenceId, from, to) ==>
      c.BlobPut? && c.key != ReferenceKey(referenceId)
  {
    forall c | c in PutCalls(translations, referenceId, from, to)
      ensures c.BlobPut? && c.key != ReferenceKey(referenceId)
    {
      assert c.key[0] == 't' && ReferenceKey(referenceId)[0] == 'r';
    }
  }

  /** Whether the batches succeed or not, every request of the batch loop is a put
      under the reference's directory and none writes the index: the index is written
      once, by the put `POST` issues after the loop has resolved. */
  lemma IndexWrittenOnlyAfterBatches(translations: Entries<string>, referenceId: string, puts: Script<string>)
    ensures forall c :: c in SaveSpec(translations, referenceId, puts).trace ==>
      c.BlobPut? && c.key != ReferenceKey(referenceId)
  {
    var n := |translations|;
    var first := FirstFailed(puts, 0, n);
    if first.None? {
      SaveFromSuccess(translations, referenceId, puts, 0, map[], []);
      var none: seq<Call> := [];
      assert none + PutCalls(translations, referenceId, 0, n) == PutCalls(translations, referenceId, 0, n);
      BatchesNeverWriteIndex(translations, referenceId, 0, n);
    } else {
      SaveFailure(translations, referenceId, puts, first.value);
      SaveFromFailure(translations, referenceId, puts, first.value, 0, map[], []);
      BatchesNeverWriteIndex(translations, referenceId, 0, BatchEnd(BatchStart(first.value), n));
    }
  }
}
