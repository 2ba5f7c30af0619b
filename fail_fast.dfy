/** The sequential `for ... of` loop whose body awaits one remote step per element and
    lets the first throw escape: commit-files commits its languages this way,
    cleanup-storage deletes its blobs and `saveTranslationsToBlob` uploads its languages.
    Step `i` is what the loop body does for element `i`; the loop collects what each
    step resolved to. */
module FailFast {
  import opened Remote

  /** The loop from element `i` on, after having collected `acc` and issued `trace`. */
  function EachFrom<T>(step: nat -> Flow<T>, n: nat, i: nat, acc: seq<T>,
                       trace: seq<Call>, waits: seq<nat>): Flow<seq<T>>
    requires i <= n
    decreases (n as int) - (i as int)
  {
    if i == n then Flow(Ok(acc), trace, waits)
    else
      var f := step(i);
      if f.result.Err? then Flow(Err(f.result.error), trace + f.trace, waits + f.waits)
      else EachFrom(step, n, i + 1, acc + [f.result.value], trace + f.trace, waits + f.waits)
  }

  /** The whole loop over `n` elements. */
  function Each<T>(step: nat -> Flow<T>, n: nat): Flow<seq<T>> {
    EachFrom(step, n, 0, [], [], [])
  }

  /** Every step in `from..to-1` resolves. */
  predicate Succeeded<T>(step: nat -> Flow<T>, from: nat, to: nat) {
    forall j :: from <= j < to ==> step(j).result.Ok?
  }

  /** The requests of steps `from..to-1`, in order. */
  function Calls<T>(step: nat -> Flow<T>, from: nat, to: nat): seq<Call>
    requires from <= to
    decreases (to as int) - (from as int)
  {
    if from == to then [] else step(from).trace + Calls(step, from + 1, to)
  }

  /** The pauses of steps `from..to-1`, in order. */
  function Waits<T>(step: nat -> Flow<T>, from: nat, to: nat): seq<nat>
    requires from <= to
    decreases (to as int) - (from as int)
  {
    if from == to then [] else step(from).waits + Waits(step, from + 1, to)
  }

  /** What steps `from..to-1` resolved to, in order. */
  function Values<T>(step: nat -> Flow<T>, from: nat, to: nat): seq<T>
    requires from <= to && Succeeded(step, from, to)
    decreases (to as int) - (from as int)
  {
    if from == to then [] else [step(from).result.value] + Values(step, from + 1, to)
  }

  /** The loop from `from` stopped at element `k`: every step before it resolved, step
      `k` threw `e`, and the requests and pauses after the given prefixes are exactly
      those of steps `from..k`. */
  predicate StoppedAt<T>(step: nat -> Flow<T>, n: nat, from: nat, k: nat, e: Error,
                         trace0: seq<Call>, waits0: seq<nat>, trace: seq<Call>, waits: seq<nat>)
  {
    && from <= k < n
    && step(k).result == Err(e)
    && Succeeded(step, from, k)
    && trace == trace0 + Calls(step, from, k + 1)
    && waits == waits0 + Waits(step, from, k + 1)
  }

  lemma {:induction false} ValuesAt<T>(step: nat -> Flow<T>, from: nat, to: nat)
    requires from <= to && Succeeded(step, from, to)
    ensures |Values(step, from, to)| == to - from
    ensures forall j :: from <= j < to ==> Values(step, from, to)[j - from] == step(j).result.value
    decreases (to as int) - (from as int)
  {
    if from < to {
      ValuesAt(step, from + 1, to);
    }
  }

  /** When every step issues exactly one request, the requests of steps `from..to-1`
      are those requests, one per step, in order. */
  lemma {:induction false} OneCallEach<T>(step: nat -> Flow<T>, from: nat, to: nat)
    requires from <= to
    requires forall j :: from <= j < to ==> |step(j).trace| == 1
    ensures |Calls(step, from, to)| == to - from
    ensures forall j :: from <= j < to ==> Calls(step, from, to)[j - from] == step(j).trace[0]
    decreases (to as int) - (from as int)
  {
    if from < to {
      OneCallEach(step, from + 1, to);
    }
  }

  lemma {:induction false} EachFromSuccess<T>(step: nat -> Flow<T>, n: nat, i: nat, acc: seq<T>,
                                              trace: seq<Call>, waits: seq<nat>)
    requires i <= n && Succeeded(step, i, n)
    ensures EachFrom(step, n, i, acc, trace, waits)
      == Flow(Ok(acc + Values(step, i, n)), trace + Calls(step, i, n), waits + Waits(step, i, n))
    decreases (n as int) - (i as int)
  {
    if i < n {
      var f := step(i);
      var v := f.result.value;
      assert EachFrom(step, n, i, acc, trace, waits)
          == EachFrom(step, n, i + 1, acc + [v], trace + f.trace, waits + f.waits);
      EachFromSuccess(step, n, i + 1, acc + [v], trace + f.trace, waits + f.waits);
      assert acc + [v] + Values(step, i + 1, n) == acc + Values(step, i, n) by {
        assert Values(step, i, n) == [v] + Values(step, i + 1, n);
        SeqAssoc(acc, [v], Values(step, i + 1, n));
      }
      assert trace + f.trace + Calls(step, i + 1, n) == trace + Calls(step, i, n) by {
        assert Calls(step, i, n) == f.trace + Calls(step, i + 1, n);
        SeqAssoc(trace, f.trace, Calls(step, i + 1, n));
      }
      assert waits + f.waits + Waits(step, i + 1, n) == waits + Waits(step, i, n) by {
        assert Waits(step, i, n) == f.waits + Waits(step, i + 1, n);
        SeqAssoc(waits, f.waits, Waits(step, i + 1, n));
      }
    } else {
      assert acc + [] == acc && trace + [] == trace && waits + [] == waits;
    }
  }

  lemma SeqAssoc<U>(a: seq<U>, b: seq<U>, c: seq<U>)
    ensures a + b + c == a + (b + c)
  {
  }

  lemma {:induction false} EachFromFailure<T>(step: nat -> Flow<T>, n: nat, i: nat, acc: seq<T>,
                                              trace: seq<Call>, waits: seq<nat>)
    requires i <= n && !Succeeded(step, i, n)
    ensures var f := EachFrom(step, n, i, acc, trace, waits);
      f.result.Err? && exists k :: StoppedAt(step, n, i, k, f.result.error, trace, waits, f.trace, f.waits)
    decreases (n as int) - (i as int)
  {
    var s := step(i);
    if s.result.Err? {
      assert Calls(step, i, i + 1) == s.trace by {
        assert Calls(step, i, i + 1) == s.trace + Calls(step, i + 1, i + 1);
      }
      assert Waits(step, i, i + 1) == s.waits by {
        assert Waits(step, i, i + 1) == s.waits + Waits(step, i + 1, i + 1);
      }
      assert StoppedAt(step, n, i, i, s.result.error, trace, waits, trace + s.trace, waits + s.waits);
    } else {
      var trace', waits' := trace + s.trace, waits + s.waits;
      var f := EachFrom(step, n, i + 1, acc + [s.result.value], trace', waits');
      assert EachFrom(step, n, i, acc, trace, waits) == f;
      EachFromFailure(step, n, i + 1, acc + [s.result.value], trace', waits');
      var k: nat :| StoppedAt(step, n, i + 1, k, f.result.error, trace', waits', f.trace, f.waits);
      assert trace' + Calls(step, i + 1, k + 1) == trace + Calls(step, i, k + 1) by {
        assert Calls(step, i, k + 1) == s.trace + Calls(step, i + 1, k + 1);
        SeqAssoc(trace, s.trace, Calls(step, i + 1, k + 1));
      }
      assert waits' + Waits(step, i + 1, k + 1) == waits + Waits(step, i, k + 1) by {
        assert Waits(step, i, k + 1) == s.waits + Waits(step, i + 1, k + 1);
        SeqAssoc(waits, s.waits, Waits(step, i + 1, k + 1));
      }
      assert StoppedAt(step, n, i, k, f.result.error, trace, waits, f.trace, f.waits);
    }
  }

  /** The loop visits the elements in order, each at most once: it resolves exactly when
      every step resolves, and then collects their values in order after issuing every
      step's requests; otherwise the first step that throws ends it, its error escapes
      unchanged, and no later step issues a request. */
  lemma EachOutcome<T>(step: nat -> Flow<T>, n: nat)
    ensures var f := Each(step, n);
      && (f.result.Ok? <==> Succeeded(step, 0, n))
      && (Succeeded(step, 0, n) ==> f == Flow(Ok(Values(step, 0, n)), Calls(step, 0, n), Waits(step, 0, n)))
      && (f.result.Err? ==> exists k :: StoppedAt(step, n, 0, k, f.result.error, [], [], f.trace, f.waits))
  {
    if Succeeded(step, 0, n) {
      EachFromSuccess(step, n, 0, [], [], []);
      assert [] + Values(step, 0, n) == Values(step, 0, n);
      assert [] + Calls(step, 0, n) == Calls(step, 0, n);
      assert [] + Waits(step, 0, n) == Waits(step, 0, n);
    } else {
      EachFromFailure(step, n, 0, [], [], []);
    }
  }

  /** When every step resolves, the loop collects their values in order after issuing
      every step's requests and pauses. */
  lemma EachSucceeds<T>(step: nat -> Flow<T>, n: nat)
    requires Succeeded(step, 0, n)
    ensures Each(step, n) == Flow(Ok(Values(step, 0, n)), Calls(step, 0, n), Waits(step, 0, n))
  {
    EachFromSuccess(step, n, 0, [], [], []);
    assert [] + Values(step, 0, n) == Values(step, 0, n);
    assert [] + Calls(step, 0, n) == Calls(step, 0, n);
    assert [] + Waits(step, 0, n) == Waits(step, 0, n);
  }

  /** When step `k` is the first that throws, the loop ends there with its error, having
      issued the requests and pauses of steps `0..k` and no more. */
  lemma EachStopsAt<T>(step: nat -> Flow<T>, n: nat, k: nat)
    requires k < n && step(k).result.Err? && Succeeded(step, 0, k)
    ensures Each(step, n) == Flow(Err(step(k).result.error), Calls(step, 0, k + 1), Waits(step, 0, k + 1))
  {
    assert !Succeeded(step, 0, n);
    EachFromFailure(step, n, 0, [], [], []);
    var f := Each(step, n);
    var j: nat :| StoppedAt(step, n, 0, j, f.result.error, [], [], f.trace, f.waits);
    assert j == k;
    assert [] + Calls(step, 0, k + 1) == Calls(step, 0, k + 1);
    assert [] + Waits(step, 0, k + 1) == Waits(step, 0, k + 1);
  }
}
