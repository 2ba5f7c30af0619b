/** `saveTranslationsToBlob`: it uploads each language of a translations object to the
    blob store, one after the other, and lists where each was saved. */
module BlobStorage {
  import opened Remote
  import opened Layout
  import FailFast

  /** One element of `savedFiles`. */
  datatype Saved = Saved(lang: string, url: string)

  /** The put of the language at index `i`; `puts(i)` is its outcome, the URL of the
      blob on success. */
  function PutAt(translations: Entries<string>, puts: Script<string>, i: nat): Flow<Saved> {
    if i < |translations| then
      var out := puts(i);
      var call := BlobPut(LanguageBlobKey(translations[i].0), Text(translations[i].1));
      Flow(if out.Ok? then Ok(Saved(translations[i].0, out.value)) else Err(out.error), [call], [])
    else Flow(Ok(Saved("", "")), [], [])
  }

  /** The body of the loop, element by element. */
  function PutStep(translations: Entries<string>, puts: Script<string>): nat -> Flow<Saved> {
    (i: nat) => PutAt(translations, puts, i)
  }

  /** The error the function throws in place of the one a put threw. */
  function Wrapped(e: Error): Error {
    Thrown("Failed to save translations: " + e.message)
  }

  /** The loop and the `catch` that wraps whatever escapes it. */
  function SaveSpec(translations: Entries<string>, puts: Script<string>): Flow<seq<Saved>> {
    var f := FailFast.Each(PutStep(translations, puts), |translations|);
    if f.result.Err? then Flow(Err(Wrapped(f.result.error)), f.trace, f.waits) else f
  }

  /** `saveTranslationsToBlob` as written: a `for ... of` over the entries that pushes
      onto `savedFiles`. */
  method SaveTranslationsToBlob(translations: Entries<string>, puts: Script<string>) returns (f: Flow<seq<Saved>>)
    ensures f == SaveSpec(translations, puts)
  {
    var step := PutStep(translations, puts);
    var n := |translations|;
    var savedFiles: seq<Saved> := [];
    var trace: seq<Call> := [];
    var i := 0;
    while i < n
      invariant i <= n
      invariant FailFast.Each(step, n) == FailFast.EachFrom(step, n, i, savedFiles, trace, [])
    {
      var (lang, content) := translations[i];
      var call := BlobPut(LanguageBlobKey(lang), Text(content));
      var out := puts(i);
      if out.Err? {
        return Flow(Err(Wrapped(out.error)), trace + [call], []);
      }
      assert step(i) == Flow(Ok(Saved(lang, out.value)), [call], []);
      var noWaits: seq<nat> := [];
      assert noWaits + step(i).waits == noWaits;
      trace := trace + [call];
      savedFiles := savedFiles + [Saved(lang, out.value)];
      i := i + 1;
    }
    return Flow(Ok(savedFiles), trace, []);
  }

  /** The loop's step for each language: one put, which resolves to the language and
      its URL or throws the put's error. */
  lemma StepAt(translations: Entries<string>, puts: Script<string>, to: nat)
    requires to <= |translations|
    ensures forall i :: 0 <= i < to ==>
      PutAt(translations, puts, i)
        == Flow(if puts(i).Ok? then Ok(Saved(translations[i].0, puts(i).value)) else Err(puts(i).error),
                [BlobPut(LanguageBlobKey(translations[i].0), Text(translations[i].1))], [])
  {
  }

  /** One put per language, in entry order, each under `languages/{lang}.json`; on
      success `savedFiles` holds one entry per language, in the same order, with the URL
      its put returned. */
  lemma {:induction false} SaveSuccess(translations: Entries<string>, puts: Script<string>)
    requires forall i :: 0 <= i < |translations| ==> puts(i).Ok?
    ensures var f := SaveSpec(translations, puts);
      var n := |translations|;
      && f.result.Ok? && |f.result.value| == n && |f.trace| == n
      && forall i :: 0 <= i < n ==>
           && f.result.value[i] == Saved(translations[i].0, puts(i).value)
           && f.trace[i] == BlobPut(LanguageBlobKey(translations[i].0), Text(translations[i].1))
  {
    var step := PutStep(translations, puts);
    var n := |translations|;
    var f := FailFast.Each(step, n);
    assert FailFast.Succeeded(step, 0, n) by {
      StepAt(translations, puts, n);
      assert forall i :: 0 <= i < n ==> step(i) == PutAt(translations, puts, i);
    }
    var values := FailFast.Values(step, 0, n);
    assert f == Flow(Ok(values), FailFast.Calls(step, 0, n), FailFast.Waits(step, 0, n)) by {
      FailFast.EachSucceeds(step, n);
    }
    PutsIssued(translations, puts, n);
    assert |values| == n by {
      FailFast.ValuesAt(step, 0, n);
    }
    forall i | 0 <= i < n
      ensures values[i] == Saved(translations[i].0, puts(i).value)
    {
      ValueSaved(translations, puts, i);
    }
    assert SaveSpec(translations, puts) == f;
  }

  /** The puts the loop issues for the languages before `to`: one per language, in
      entry order. */
  lemma {:induction false} PutsIssued(translations: Entries<string>, puts: Script<string>, to: nat)
    requires to <= |translations|
    ensures var calls := FailFast.Calls(PutStep(translations, puts), 0, to);
      && |calls| == to
      && forall i :: 0 <= i < to ==> calls[i] == BlobPut(LanguageBlobKey(translations[i].0), Text(translations[i].1))
  {
    var step := PutStep(translations, puts);
    var calls := FailFast.Calls(step, 0, to);
    assert forall i :: 0 <= i < to ==> |step(i).trace| == 1 by {
      StepAt(translations, puts, to);
      assert forall i :: 0 <= i < to ==> step(i) == PutAt(translations, puts, i);
    }
    FailFast.OneCallEach(step, 0, to);
    forall i | 0 <= i < to
      ensures calls[i] == BlobPut(LanguageBlobKey(translations[i].0), Text(translations[i].1))
    {
      assert step(i) == PutAt(translations, puts, i);
      assert calls[i - 0] == step(i).trace[0];
    }
  }

  /** Element `i` of the collected values, when every put succeeds: the language and
      the URL its put returned. */
  lemma ValueSaved(translations: Entries<string>, puts: Script<string>, i: nat)
    requires i < |translations| && puts(i).Ok?
    requires FailFast.Succeeded(PutStep(translations, puts), 0, |translations|)
    ensures |FailFast.Values(PutStep(translations, puts), 0, |translations|)| == |translations|
    ensures FailFast.Values(PutStep(translations, puts), 0, |translations|)[i] == Saved(translations[i].0, puts(i).value)
  {
    var step := PutStep(translations, puts);
    var n := |translations|;
    assert step(i) == PutAt(translations, puts, i);
    FailFast.ValuesAt(step, 0, n);
    assert FailFast.Values(step, 0, n)[i - 0] == step(i).result.value;
  }

  /** Any put failure skips the remaining languages: when the put at index `k` is the
      first that fails, it is the last request, and its message escapes behind the fixed
      prefix. */
  lemma {:induction false} SaveFailure(translations: Entries<string>, puts: Script<string>, k: nat)
    requires k < |translations| && puts(k).Err?
    requires forall i :: 0 <= i < k ==> puts(i).Ok?
    ensures var f := SaveSpec(translations, puts);
      && f.result == Err(Wrapped(puts(k).error))
      && |f.trace| == k + 1
      && forall i :: 0 <= i <= k ==>
           f.trace[i] == BlobPut(LanguageBlobKey(translations[i].0), Text(translations[i].1))
  {
    var step := PutStep(translations, puts);
    assert FailFast.Each(step, |translations|)
        == Flow(Err(puts(k).error), FailFast.Calls(step, 0, k + 1), FailFast.Waits(step, 0, k + 1)) by {
      StepAt(translations, puts, k + 1);
      assert forall i :: 0 <= i <= k ==> step(i) == PutAt(translations, puts, i);
      FailFast.EachStopsAt(step, |translations|, k);
    }
    PutsIssued(translations, puts, k + 1);
  }
}
