/** The bounded retry loop `retryOperation(operation, retries)`: invoke the operation
    at most `retries` times, pause a fixed delay after each failure but the last, resolve
    to the first success and rethrow the error of the last attempt unchanged. The same
    loop, with a longer pause and its own final error, polls for a new repository in
    deploy-vercel (see DeployVercel.WaitForRepo). */
module Retry {
  import opened Remote

  /** RETRY_DELAY of commit-component and init-repository, in milliseconds. */
  const RetryDelay: nat := 1000

  /** What one call of the loop did: what it resolved or threw (`None`: it resolved to
      undefined without invoking anything), how many times it invoked the operation, and
      the pauses it asked for. */
  datatype Run<T> = Run(result: Option<Outcome<T>>, calls: nat, waits: seq<nat>)

  /** `n` pauses of `delay` milliseconds. */
  function Pauses(n: nat, delay: nat): seq<nat>
  {
    seq(n, _ => delay)
  }

  /** How many invocations the loop makes when it reaches index `i`: it stops after the
      first success, and after index `retries - 1` whatever happened. */
  function Invocations<T>(op: Script<T>, i: nat, retries: nat): (k: nat)
    requires i < retries
    ensures i < k <= retries
    decreases retries - i
  {
    if op(i).Ok? || i == retries - 1 then i + 1 else Invocations(op, i + 1, retries)
  }

  /** The whole loop: it ends with the outcome of its last invocation, having paused
      once between consecutive ones; with no attempt allowed it resolves to undefined at
      once. */
  function Retried<T>(op: Script<T>, retries: int, delay: nat): Run<T> {
    if retries <= 0 then Run(None, 0, [])
    else
      var k := Invocations(op, 0, retries);
      Run(Some(op(k - 1)), k, Pauses(k - 1, delay))
  }

  /** The loop as a piece of an endpoint whose operation issues the request `call` once
      per invocation; `retries` allows at least one attempt. */
  function RetryFlow<T>(op: Script<T>, retries: int, delay: nat, call: Call): Flow<T>
    requires retries > 0
  {
    var r := Retried(op, retries, delay);
    Flow(r.result.value, Repeat(call, r.calls), r.waits)
  }

  lemma {:induction false} InvocationsShape<T>(op: Script<T>, i: nat, retries: nat)
    requires i < retries
    ensures var k := Invocations(op, i, retries);
      && (forall j :: i <= j < k - 1 ==> op(j).Err?)
      && (op(k - 1).Err? ==> k == retries)
    decreases retries - i
  {
    if !(op(i).Ok? || i == retries - 1) {
      InvocationsShape(op, i + 1, retries);
    }
  }

  /** Everything one run can do: it invokes the operation between once and `retries`
      times (never, when `retries <= 0`), stops at the first success, pauses `delay`
      between consecutive attempts, and ends with the outcome of its last invocation,
      which is a failure only when every allowed attempt failed. */
  lemma RetryShape<T>(op: Script<T>, retries: int, delay: nat)
    ensures var r := Retried(op, retries, delay);
      && (retries <= 0 ==> r == Run(None, 0, []))
      && (retries > 0 ==>
            && 1 <= r.calls <= retries
            && r.result == Some(op(r.calls - 1))
            && r.waits == Pauses(r.calls - 1, delay)
            && (forall j :: 0 <= j < r.calls - 1 ==> op(j).Err?)
            && (op(r.calls - 1).Err? ==> r.calls == retries))
  {
    if retries > 0 {
      InvocationsShape(op, 0, retries);
    }
  }

  /** An operation that fails `k < retries` times and then succeeds is invoked exactly
      `k + 1` times, and its success is what the loop resolves to. */
  lemma RetryReturnsFirstSuccess<T>(op: Script<T>, retries: int, delay: nat, k: nat)
    requires k < retries
    requires op(k).Ok?
    requires forall j :: 0 <= j < k ==> op(j).Err?
    ensures Retried(op, retries, delay) == Run(Some(op(k)), k + 1, Pauses(k, delay))
  {
    RetryShape(op, retries, delay);
  }

  /** An operation whose first invocation succeeds is invoked once, and the loop
      resolves to that success. */
  lemma FirstAttemptSucceeds<T>(op: Script<T>, retries: int, delay: nat, call: Call)
    requires retries > 0 && op(0).Ok?
    ensures RetryFlow(op, retries, delay, call).result == op(0)
  {
    assert Invocations(op, 0, retries) == 1;
  }

  /** The loop issues no request other than its operation's own. */
  lemma RetryIssuesOnly<T>(op: Script<T>, retries: int, delay: nat, call: Call)
    requires retries > 0
    ensures forall c :: c in RetryFlow(op, retries, delay, call).trace ==> c == call
  {
    RepeatOnly(call, Retried(op, retries, delay).calls);
  }

  /** An operation that always fails is invoked exactly `retries` times, with
      `retries - 1` pauses, and the error of the last attempt is rethrown unchanged. */
  lemma RetryRethrowsLast<T>(op: Script<T>, retries: int, delay: nat)
    requires retries > 0
    requires forall j :: 0 <= j < retries ==> op(j).Err?
    ensures Retried(op, retries, delay) == Run(Some(op(retries - 1)), retries, Pauses(retries - 1, delay))
  {
    RetryShape(op, retries, delay);
  }

  /** `retryOperation` as the endpoints write it: a counter loop with `return` on success
      and `throw` on the last failure. */
  method RetryOperation<T>(op: Script<T>, retries: int) returns (run: Run<T>)
    ensures run == Retried(op, retries, RetryDelay)
  {
    var waits: seq<nat> := [];
    var i: nat := 0;
    while i < retries
      invariant retries > 0 ==> i < retries && waits == Pauses(i, RetryDelay)
      invariant retries > 0 ==> Invocations(op, 0, retries) == Invocations(op, i, retries)
      invariant retries <= 0 ==> i == 0
      decreases retries - i
    {
      var outcome := op(i);
      if outcome.Ok? {
        return Run(Some(outcome), i + 1, waits);
      }
      if i == retries - 1 {
        return Run(Some(outcome), i + 1, waits);
      }
      waits := waits + [RetryDelay];
      i := i + 1;
    }
    run := Run(None, 0, []);
  }

  /** `retryOperation(op, retries)` issuing `call` at each invocation, as a piece of an
      endpoint. */
  method Retrying<T>(op: Script<T>, retries: int, call: Call) returns (f: Flow<T>)
    requires retries > 0
    ensures f == RetryFlow(op, retries, RetryDelay, call)
  {
    var run := RetryOperation(op, retries);
    f := Flow(run.result.value, Repeat(call, run.calls), run.waits);
  }
}
