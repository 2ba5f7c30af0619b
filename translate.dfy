/** The translate endpoint: it sends every non-blank string value of a source object to
    the translation service, once for each of 24 target languages, and answers with all
    the translated objects and the failures it met on the way. */
module Translate {
  import opened Remote
  import JsText

  // ---------------------------------------------------------------- translateJSON

  /** A value of the source object: a string, or anything else (number, boolean, null,
      object), which is never sent. */
  datatype Value = Str(text: string) | NonString

  /** `value && typeof value === 'string' && value.trim() !== ''` */
  predicate Sendable(v: Value) {
    v.Str? && v.text != "" && JsText.Trim(v.text) != ""
  }

  /** A value is sent exactly when it is a string with a character that is not white
      space. */
  lemma SendableMeaning(v: Value)
    ensures Sendable(v) <==> v.Str? && !JsText.Blank(v.text)
  {
    if v.Str? {
      JsText.TrimEmptyIffBlank(v.text);
    }
  }

  /** `s.replace(/"/g, "'")`: every double quote becomes a single quote, and nothing else
      changes. */
  function ReplaceQuotes(s: string): (r: string)
    ensures |r| == |s|
    ensures '"' !in r
    ensures forall i :: 0 <= i < |s| && s[i] != '"' ==> r[i] == s[i]
    ensures forall i :: 0 <= i < |s| && s[i] == '"' ==> r[i] == '\''
  {
    if s == [] then [] else [if s[0] == '"' then '\'' else s[0]] + ReplaceQuotes(s[1..])
  }

  /** The error recorded for a key whose translation failed. */
  function FailureMessage(key: string, languageLabel: string, message: string): string {
    "Failed to translate " + key + " to " + languageLabel + ": " + message
  }

  /** What `translateJSON` builds: `translatedObject`, `errors`, and the requests it sent
      to the translation service. */
  datatype Translation = Translation(translated: map<string, string>, errors: seq<string>, calls: seq<Call>)

  /** The state of `translateJSON` after the first `n` entries of the source object.
      `service(i)` is the outcome of translating entry `i`, when it is sent. */
  function TranslatedPrefix(source: Entries<Value>, target: string, languageLabel: string,
                            service: Script<string>, n: nat): Translation
    requires n <= |source|
  {
    if n == 0 then Translation(map[], [], [])
    else
      var t := TranslatedPrefix(source, target, languageLabel, service, n - 1);
      var (key, value) := source[n - 1];
      if !Sendable(value) then t
      else
        var call := Translate(value.text, target);
        var out := service(n - 1);
        if out.Ok? then Translation(t.translated[key := ReplaceQuotes(out.value)], t.errors, t.calls + [call])
        else Translation(t.translated[key := value.text], t.errors + [FailureMessage(key, languageLabel, out.error.message)], t.calls + [call])
  }

  /** `translateJSON(sourceObject, target, languageLabel)`. */
  function TranslateJsonSpec(source: Entries<Value>, target: string, languageLabel: string, service: Script<string>): Translation {
    TranslatedPrefix(source, target, languageLabel, service, |source|)
  }

  /** `translateJSON` as written: a loop over the entries that fills `translatedObject`
      and pushes onto `errors`. */
  method TranslateJson(source: Entries<Value>, target: string, languageLabel: string, service: Script<string>)
    returns (t: Translation)
    ensures t == TranslateJsonSpec(source, target, languageLabel, service)
  {
    var translated: map<string, string> := map[];
    var errors: seq<string> := [];
    var calls: seq<Call> := [];
    var i := 0;
    while i < |source|
      invariant i <= |source|
      invariant Translation(translated, errors, calls) == TranslatedPrefix(source, target, languageLabel, service, i)
    {
      var (key, value) := source[i];
      if value.Str? && value.text != "" && JsText.Trim(value.text) != "" {
        calls := calls + [Translate(value.text, target)];
        var out := service(i);
        if out.Ok? {
          translated := translated[key := ReplaceQuotes(out.value)];
        } else {
          errors := errors + [FailureMessage(key, languageLabel, out.error.message)];
          translated := translated[key := value.text];
        }
      }
      i := i + 1;
    }
    t := Translation(translated, errors, calls);
  }

  /** Entry `i` is sent and its translation fails. */
  predicate Failed(source: Entries<Value>, service: Script<string>, i: nat)
    requires i < |source|
  {
    Sendable(source[i].1) && service(i).Err?
  }

  /** The indices among the first `n` whose entries are sent. */
  function SentIndices(source: Entries<Value>, n: nat): set<nat>
    requires n <= |source|
  {
    set i: nat | i < n && Sendable(source[i].1)
  }

  /** The indices among the first `n` whose translations fail. */
  function FailedIndices(source: Entries<Value>, service: Script<string>, n: nat): set<nat>
    requires n <= |source|
  {
    set i: nat | i < n && Failed(source, service, i)
  }

  /** The output keys are exactly the keys of the values that are sent: every other key
      is absent from `translatedObject`, and no key outside the source appears. */
  lemma {:induction false} TranslatedKeys(source: Entries<Value>, target: string, languageLabel: string,
                                          service: Script<string>, n: nat)
    requires n <= |source|
    ensures forall k :: k in TranslatedPrefix(source, target, languageLabel, service, n).translated <==>
      exists i :: 0 <= i < n && source[i].0 == k && Sendable(source[i].1)
  {
    if n > 0 {
      TranslatedKeys(source, target, languageLabel, service, n - 1);
    }
  }

  /** Each output value is the service's translation with double quotes replaced, or,
      when that call failed, the original value. */
  lemma {:induction false} TranslatedValues(source: Entries<Value>, target: string, languageLabel: string,
                                            service: Script<string>, n: nat)
    requires n <= |source| && DistinctKeys(source)
    ensures var t := TranslatedPrefix(source, target, languageLabel, service, n);
      forall i :: 0 <= i < n && Sendable(source[i].1) ==>
        && source[i].0 in t.translated
        && t.translated[source[i].0]
           == (if service(i).Ok? then ReplaceQuotes(service(i).value) else source[i].1.text)
  {
    if n > 0 {
      TranslatedValues(source, target, languageLabel, service, n - 1);
    }
  }

  /** `errors` has exactly one entry per failed key: as many entries as failed keys, the
      message of every failed key, and nothing else. */
  lemma {:induction false} TranslatedErrors(source: Entries<Value>, target: string, languageLabel: string,
                                            service: Script<string>, n: nat)
    requires n <= |source|
    ensures var t := TranslatedPrefix(source, target, languageLabel, service, n);
      && |t.errors| == |FailedIndices(source, service, n)|
      && (forall i :: 0 <= i < n && Failed(source, service, i) ==>
            FailureMessage(source[i].0, languageLabel, service(i).error.message) in t.errors)
      && (forall e :: e in t.errors ==>
            exists i :: 0 <= i < n && Failed(source, service, i)
                        && e == FailureMessage(source[i].0, languageLabel, service(i).error.message))
  {
    if n > 0 {
      TranslatedErrors(source, target, languageLabel, service, n - 1);
      FailedCount(source, service, n);
      var t := TranslatedPrefix(source, target, languageLabel, service, n - 1);
      var t' := TranslatedPrefix(source, target, languageLabel, service, n);
      if Failed(source, service, n - 1) {
        var m := FailureMessage(source[n - 1].0, languageLabel, service(n - 1).error.message);
        assert t'.errors == t.errors + [m];
        forall e | e in t'.errors
          ensures exists i :: 0 <= i < n && Failed(source, service, i)
                              && e == FailureMessage(source[i].0, languageLabel, service(i).error.message)
        {
          if e !in t.errors {
            assert e == m;
          }
        }
      } else {
        assert t'.errors == t.errors;
      }
    }
  }

  lemma FailedCount(source: Entries<Value>, service: Script<string>, n: nat)
    requires 0 < n <= |source|
    ensures |FailedIndices(source, service, n)|
      == |FailedIndices(source, service, n - 1)| + (if Failed(source, service, n - 1) then 1 else 0)
  {
    var before := FailedIndices(source, service, n - 1);
    assert n - 1 !in before;
    if Failed(source, service, n - 1) {
      assert FailedIndices(source, service, n) == before + {n - 1};
    } else {
      assert FailedIndices(source, service, n) == before;
    }
  }

  lemma SentCount(source: Entries<Value>, n: nat)
    requires 0 < n <= |source|
    ensures |SentIndices(source, n)| == |SentIndices(source, n - 1)| + (if Sendable(source[n - 1].1) then 1 else 0)
  {
    var before := SentIndices(source, n - 1);
    assert n - 1 !in before;
    if Sendable(source[n - 1].1) {
      assert SentIndices(source, n) == before + {n - 1};
    } else {
      assert SentIndices(source, n) == before;
    }
  }

  /** The indices below `n` whose entries are sent, listed in increasing order. */
  function SentOrder(source: Entries<Value>, n: nat): seq<nat>
    requires n <= |source|
  {
    if n == 0 then [] else SentOrder(source, n - 1) + (if Sendable(source[n - 1].1) then [n - 1] else [])
  }

  /** `SentOrder` lists every sendable index below `n` exactly once, in increasing order. */
  lemma SentOrderLists(source: Entries<Value>, n: nat)
    requires n <= |source|
    ensures var idx := SentOrder(source, n);
      && |idx| == |SentIndices(source, n)|
      && (forall j :: 0 <= j < |idx| ==> idx[j] < n && Sendable(source[idx[j]].1))
      && (forall j, k :: 0 <= j < k < |idx| ==> idx[j] < idx[k])
      && (forall i :: 0 <= i < n && Sendable(source[i].1) ==> i in idx)
  {
    SentOrderLength(source, n);
    SentOrderIncreasing(source, n);
    SentOrderComplete(source, n);
  }

  lemma {:induction false} SentOrderLength(source: Entries<Value>, n: nat)
    requires n <= |source|
    ensures |SentOrder(source, n)| == |SentIndices(source, n)|
  {
    if n > 0 {
      SentOrderLength(source, n - 1);
      SentCount(source, n);
    }
  }

  lemma {:induction false} SentOrderIncreasing(source: Entries<Value>, n: nat)
    requires n <= |source|
    ensures forall j :: 0 <= j < |SentOrder(source, n)| ==>
      SentOrder(source, n)[j] < n && Sendable(source[SentOrder(source, n)[j]].1)
    ensures forall j, k :: 0 <= j < k < |SentOrder(source, n)| ==> SentOrder(source, n)[j] < SentOrder(source, n)[k]
  {
    if n > 0 {
      SentOrderIncreasing(source, n - 1);
      var idx := SentOrder(source, n - 1);
      if Sendable(source[n - 1].1) {
        var idx' := SentOrder(source, n);
        assert idx' == idx + [n - 1];
        forall j, k | 0 <= j < k < |idx'| ensures idx'[j] < idx'[k] {
          assert idx'[j] == idx[j];
          if k < |idx| {
            assert idx'[k] == idx[k];
          }
        }
      } else {
        assert SentOrder(source, n) == idx;
      }
    }
  }

  lemma {:induction false} SentOrderComplete(source: Entries<Value>, n: nat)
    requires n <= |source|
    ensures forall i :: 0 <= i < n && Sendable(source[i].1) ==> i in SentOrder(source, n)
  {
    if n > 0 {
      SentOrderComplete(source, n - 1);
      var idx := SentOrder(source, n - 1);
      var idx' := SentOrder(source, n);
      assert idx' == idx + (if Sendable(source[n - 1].1) then [n - 1] else []);
      forall i | 0 <= i < n && Sendable(source[i].1) ensures i in idx' {
        if i < n - 1 {
          assert i in idx;
        }
      }
    }
  }

  /** Only the values that are sent reach the service, each once, in entry order: the
      `j`-th request carries the `j`-th sendable value, the sendable indices are listed
      in strictly increasing order, and none is missing. */
  lemma {:induction false} TranslatedCalls(source: Entries<Value>, target: string, languageLabel: string,
                                           service: Script<string>, n: nat)
    requires n <= |source|
    ensures var t := TranslatedPrefix(source, target, languageLabel, service, n);
      var idx := SentOrder(source, n);
      && |t.calls| == |idx| == |SentIndices(source, n)|
      && (forall j :: 0 <= j < |idx| ==>
            && idx[j] < n && Sendable(source[idx[j]].1)
            && t.calls[j] == Translate(source[idx[j]].1.text, target))
      && (forall j, k :: 0 <= j < k < |idx| ==> idx[j] < idx[k])
      && (forall i :: 0 <= i < n && Sendable(source[i].1) ==> i in idx)
      && forall c :: c in t.calls ==>
           exists i :: 0 <= i < n && Sendable(source[i].1) && c == Translate(source[i].1.text, target)
  {
    SentOrderLists(source, n);
    CallsFollowOrder(source, target, languageLabel, service, n);
    var t := TranslatedPrefix(source, target, languageLabel, service, n);
    var idx := SentOrder(source, n);
    forall c | c in t.calls
      ensures exists i :: 0 <= i < n && Sendable(source[i].1) && c == Translate(source[i].1.text, target)
    {
      var j :| 0 <= j < |t.calls| && t.calls[j] == c;
      assert idx[j] < n && Sendable(source[idx[j]].1);
    }
  }

  /** The `j`-th request translates the entry at the `j`-th index of `SentOrder`. */
  lemma {:induction false} CallsFollowOrder(source: Entries<Value>, target: string, languageLabel: string,
                                            service: Script<string>, n: nat)
    requires n <= |source|
    ensures var t := TranslatedPrefix(source, target, languageLabel, service, n);
      var idx := SentOrder(source, n);
      && |t.calls| == |idx|
      && forall j :: 0 <= j < |idx| ==>
           idx[j] < n && Sendable(source[idx[j]].1) && t.calls[j] == Translate(source[idx[j]].1.text, target)
  {
    if n > 0 {
      CallsFollowOrder(source, target, languageLabel, service, n - 1);
      var t := TranslatedPrefix(source, target, languageLabel, service, n - 1);
      var t' := TranslatedPrefix(source, target, languageLabel, service, n);
      var idx := SentOrder(source, n - 1);
      var idx' := SentOrder(source, n);
      var sent := if Sendable(source[n - 1].1) then [Translate(source[n - 1].1.text, target)] else [];
      assert t'.calls == t.calls + sent;
      assert idx' == idx + (if Sendable(source[n - 1].1) then [n - 1] else []);
      forall j | 0 <= j < |idx'|
        ensures idx'[j] < n && Sendable(source[idx'[j]].1) && t'.calls[j] == Translate(source[idx'[j]].1.text, target)
      {
        if j < |idx| {
          assert idx'[j] == idx[j] && t'.calls[j] == t.calls[j];
        }
      }
    }
  }

  // ---------------------------------------------------------------- the endpoint

  /** The target languages, in order: code and label. */
  const Languages: seq<(string, string)> := [
    ("bg", "Bulgarian"), ("hr", "Croatian"), ("cs", "Czech"), ("da", "Danish"),
    ("nl", "Dutch"), ("en", "English"), ("et", "Estonian"), ("fi", "Finnish"),
    ("fr", "French"), ("de", "German"), ("el", "Greek"), ("hu", "Hungarian"),
    ("ga", "Irish"), ("it", "Italian"), ("lv", "Latvian"), ("lt", "Lithuanian"),
    ("mt", "Maltese"), ("pl", "Polish"), ("pt", "Portuguese"), ("ro", "Romanian"),
    ("sk", "Slovak"), ("sl", "Slovenian"), ("es", "Spanish"), ("sv", "Swedish")]

  /** Twenty-four languages, no code twice. */
  lemma LanguagesDistinct()
    ensures |Languages| == 24
    ensures forall i, j :: 0 <= i < j < |Languages| ==> Languages[i].0 != Languages[j].0
  {
  }

  /** What the loop over the languages builds: `translations`, `allErrors`, and the
      requests sent to the translation service. */
  datatype Aggregate = Aggregate(translations: map<string, map<string, string>>, allErrors: seq<string>, calls: seq<Call>)

  /** The aggregate after the first `m` languages of `langs`; `services(l)` gives the
      outcomes of the translations into language `l`. */
  function AggregatePrefix(source: Entries<Value>, langs: seq<(string, string)>,
                           services: nat -> Script<string>, m: nat): Aggregate
    requires m <= |langs|
  {
    if m == 0 then Aggregate(map[], [], [])
    else
      var a := AggregatePrefix(source, langs, services, m - 1);
      var t := TranslateJsonSpec(source, langs[m - 1].0, langs[m - 1].1, services(m - 1));
      Aggregate(a.translations[langs[m - 1].0 := t.translated], a.allErrors + t.errors, a.calls + t.calls)
  }

  datatype Response =
    | Failure(status: int, error: string)
    | Done(warning: bool, message: string, details: seq<string>, translations: map<string, map<string, string>>)

  /** `POST`. A body that is null or has no keys is answered with 500 before anything is
      translated; otherwise every language is translated in order, and the answer is a
      success carrying every translated object, with a warning and the collected errors
      exactly when there were any. */
  method Post(body: Option<Entries<Value>>, services: nat -> Script<string>) returns (resp: Response, calls: seq<Call>)
    ensures body.None? || |body.value| == 0 ==> resp == Failure(500, "No content to translate") && calls == []
    ensures body.Some? && |body.value| > 0 ==>
      var a := AggregatePrefix(body.value, Languages, services, |Languages|);
      && calls == a.calls
      && resp.Done? && resp.translations == a.translations
      && (resp.warning <==> |a.allErrors| > 0)
      && (resp.warning ==> resp.message == "Translations completed with some issues" && resp.details == a.allErrors)
      && (!resp.warning ==> resp.message == "All translations completed successfully" && resp.details == [])
  {
    if body.None? || |body.value| == 0 {
      return Failure(500, "No content to translate"), [];
    }
    var source := body.value;
    var translations: map<string, map<string, string>> := map[];
    var allErrors: seq<string> := [];
    calls := [];
    var l := 0;
    while l < |Languages|
      invariant l <= |Languages|
      invariant Aggregate(translations, allErrors, calls) == AggregatePrefix(source, Languages, services, l)
    {
      var (code, languageLabel) := Languages[l];
      var t := TranslateJson(source, code, languageLabel, services(l));
      translations := translations[code := t.translated];
      allErrors := allErrors + t.errors;
      calls := calls + t.calls;
      l := l + 1;
    }
    if |allErrors| > 0 {
      resp := Done(true, "Translations completed with some issues", allErrors, translations);
    } else {
      resp := Done(false, "All translations completed successfully", [], translations);
    }
  }

  /** The keys of `translations` are the codes of the languages handled so far. */
  lemma {:induction false} AggregateKeys(source: Entries<Value>, langs: seq<(string, string)>,
                                         services: nat -> Script<string>, m: nat)
    requires m <= |langs|
    ensures forall code :: code in AggregatePrefix(source, langs, services, m).translations
                       <==> exists l :: 0 <= l < m && langs[l].0 == code
  {
    if m > 0 {
      AggregateKeys(source, langs, services, m - 1);
      assert AggregatePrefix(source, langs, services, m).translations.Keys
          == AggregatePrefix(source, langs, services, m - 1).translations.Keys + {langs[m - 1].0};
    }
  }

  /** Every language of the list gets its translated object, under its code, and no
      other key appears. */
  lemma {:induction false} AggregateTranslations(source: Entries<Value>, langs: seq<(string, string)>,
                                                 services: nat -> Script<string>, m: nat)
    requires m <= |langs|
    requires forall i, j :: 0 <= i < j < |langs| ==> langs[i].0 != langs[j].0
    ensures var a := AggregatePrefix(source, langs, services, m);
      && (forall code :: code in a.translations <==> exists l :: 0 <= l < m && langs[l].0 == code)
      && (forall l :: 0 <= l < m ==>
            a.translations[langs[l].0] == TranslateJsonSpec(source, langs[l].0, langs[l].1, services(l)).translated)
  {
    AggregateKeys(source, langs, services, m);
    if m > 0 {
      var a := AggregatePrefix(source, langs, services, m - 1);
      var code := langs[m - 1].0;
      var t := TranslateJsonSpec(source, code, langs[m - 1].1, services(m - 1));
      var a' := AggregatePrefix(source, langs, services, m);
      assert a'.translations == a.translations[code := t.translated];
      forall l | 0 <= l < m
        ensures a'.translations[langs[l].0] == TranslateJsonSpec(source, langs[l].0, langs[l].1, services(l)).translated
      {
        if l < m - 1 {
          assert langs[l].0 != code;
          AggregateTranslations(source, langs, services, m - 1);
        }
      }
    }
  }

  /** Some sent value of the source could not be translated. */
  predicate SomeFailure(source: Entries<Value>, service: Script<string>) {
    exists i :: 0 <= i < |source| && Failed(source, service, i)
  }

  /** A language's errors are empty exactly when none of its translations failed. */
  lemma {:induction false} ErrorsIffFailure(source: Entries<Value>, target: string, languageLabel: string, service: Script<string>)
    ensures |TranslateJsonSpec(source, target, languageLabel, service).errors| > 0 <==> SomeFailure(source, service)
  {
    TranslatedErrors(source, target, languageLabel, service, |source|);
    var t := TranslateJsonSpec(source, target, languageLabel, service);
    if |t.errors| > 0 {
      assert t.errors[0] in t.errors;
    }
  }

  /** The collected errors are empty exactly when no translation into any language
      failed: the warning is raised iff some sent value could not be translated. */
  lemma {:induction false} AggregateErrors(source: Entries<Value>, langs: seq<(string, string)>,
                                           services: nat -> Script<string>, m: nat)
    requires m <= |langs|
    ensures |AggregatePrefix(source, langs, services, m).allErrors| > 0 <==>
      exists l :: 0 <= l < m && SomeFailure(source, services(l))
  {
    if m > 0 {
      AggregateErrors(source, langs, services, m - 1);
      ErrorsIffFailure(source, langs[m - 1].0, langs[m - 1].1, services(m - 1));
    }
  }
}
