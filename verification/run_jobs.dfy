/**
 `run_with_retry`: run a Databricks notebook, retrying when the run raises.
 The runner is given as `outcome`, where `outcome(i)` is what the `i`-th call
 of `dbutils.notebook.run` does: return the notebook's exit value, or raise.
 */
module RunJobs {

  /** What one `dbutils.notebook.run` call does. */
  datatype Outcome = Succeeded(exitValue: string) | Failed(error: string)

  /** The arguments of one `dbutils.notebook.run` call. */
  datatype Call = Call(notebook: string, timeout: int, args: map<string, string>)

  /** How `run_with_retry` ends: returning an exit value or re-raising a failure. */
  datatype RunResult = Returned(exitValue: string) | Raised(error: string)

  /** How many calls are made when every one fails: `max_retries + 2`, but
      never fewer than one. */
  function AttemptBudget(maxRetries: int): (n: nat)
    ensures n >= 1
    ensures maxRetries >= -1 ==> n == maxRetries + 2
    ensures maxRetries < -1 ==> n == 1
  {
    if maxRetries >= -1 then maxRetries + 2 else 1
  }

  /** The first call from `from` on that succeeds, or `bound` if none below it does. */
  function FirstSuccess(outcome: nat -> Outcome, bound: nat, from: nat): (k: nat)
    requires from <= bound
    ensures from <= k <= bound
    ensures forall i | from <= i < k :: outcome(i).Failed?
    ensures k < bound ==> outcome(k).Succeeded?
    decreases bound - from
  {
    if from == bound then bound
    else if outcome(from).Succeeded? then from
    else FirstSuccess(outcome, bound, from + 1)
  }

  /** `run_with_retry(notebook, timeout, args, max_retries)`. Besides the result,
      `calls` lists the calls made, in order, and `numRetries` is the final value
      of `num_retries`. */
  method RunWithRetry(notebook: string, timeout: int, outcome: nat -> Outcome,
                      args: map<string, string> := map[], maxRetries: int := 3)
    returns (r: RunResult, calls: seq<Call>, numRetries: nat)
    ensures forall i | 0 <= i < |calls| :: calls[i] == Call(notebook, timeout, args)
    ensures |calls| == numRetries + 1
    ensures 1 <= |calls| <= AttemptBudget(maxRetries)
    ensures forall i | 0 <= i < |calls| - 1 :: outcome(i).Failed?
    ensures var k := FirstSuccess(outcome, AttemptBudget(maxRetries), 0);
            && (k < AttemptBudget(maxRetries) ==> |calls| == k + 1 && r == Returned(outcome(k).exitValue))
            && (k == AttemptBudget(maxRetries) ==>
                  |calls| == AttemptBudget(maxRetries) && r == Raised(outcome(k - 1).error))
    ensures r.Raised? ==> numRetries == AttemptBudget(maxRetries) - 1
    ensures maxRetries >= -1 && (forall i | 0 <= i < maxRetries + 2 :: outcome(i).Failed?) ==>
              |calls| == maxRetries + 2 && r == Raised(outcome(maxRetries + 1).error)
  {
    ghost var budget := AttemptBudget(maxRetries);
    numRetries := 0;
    calls := [];
    while true
      invariant |calls| == numRetries
      invariant numRetries <= budget - 1
      invariant forall i | 0 <= i < |calls| :: calls[i] == Call(notebook, timeout, args)
      invariant forall i | 0 <= i < numRetries :: outcome(i).Failed?
      decreases budget - numRetries
    {
      calls := calls + [Call(notebook, timeout, args)];
      match outcome(numRetries)
      case Succeeded(v) =>
        r := Returned(v);
        FirstSuccessIs(outcome, budget, numRetries);
        return;
      case Failed(e) =>
        if numRetries > maxRetries {
          r := Raised(e);
          FirstSuccessNone(outcome, budget);
          return;
        }
        numRetries := numRetries + 1;
    }
  }

  /** A success at `k` after failures before it is the first success. */
  lemma FirstSuccessIs(outcome: nat -> Outcome, bound: nat, k: nat)
    requires k < bound
    requires forall i | 0 <= i < k :: outcome(i).Failed?
    requires outcome(k).Succeeded?
    ensures FirstSuccess(outcome, bound, 0) == k
  {
    var f := FirstSuccess(outcome, bound, 0);
    assert f <= k;
  }

  /** Failures throughout mean no success below the bound. */
  lemma FirstSuccessNone(outcome: nat -> Outcome, bound: nat)
    requires forall i | 0 <= i < bound :: outcome(i).Failed?
    ensures FirstSuccess(outcome, bound, 0) == bound
  {
  }
}
