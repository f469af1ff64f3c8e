/**
 What the worker does over successive deliveries of the same job, under a
 HYPOTHETICAL retry counter. The real counter's policy is not part of this
 model; `LimitPolicy` is an assumption made here only to show how the
 worker composes with a counter that allows `limit` retries per
 (job, queue name) pair: it answers true exactly when that pair has been
 asked about fewer than `limit` times before. Nothing below claims that
 the shipped counter behaves so.
 */
module RetryBudget {
  import opened Collaborators
  import opened Worker

  /** The assumed counter: retries remain while the pair has been asked about
      fewer than `limit` times. */
  function LimitPolicy(limit: nat): (r: (seq<Consult>, Consult) -> bool)
  {
    (history: seq<Consult>, c: Consult) => multiset(history)[c] < limit
  }

  /** `n` successive calls of processJob for the same job on a retry-aware
      queue named `name` whose mutations never throw, with the retry counter
      answering by `policy` from the questions in `history`. */
  function Deliveries(id: JobId, exec: Execution, name: string, policy: (seq<Consult>, Consult) -> bool,
                      history: seq<Consult>, performed: nat, n: nat): (ts: seq<Trace>)
    ensures |ts| == n
    decreases n
  {
    if n == 0 then []
    else
      var t := Dispatch(id, exec, QueueView(true, name, map[], performed), policy(history, Consult(id, name)));
      [t] + Deliveries(id, exec, name, policy, history + t.consults, performed + |t.ops|, n - 1)
  }

  /** The questions a run of calls put to the retry counter, in order. */
  function Consulted(ts: seq<Trace>): (r: seq<Consult>)
  {
    if ts == [] then [] else ts[0].consults + Consulted(ts[1..])
  }

  /** Under the assumed policy, a job that keeps failing, with `k` retries left
      on this queue, is buried on each of the next `k` deliveries and deleted
      with a failure status on the one after. */
  lemma {:induction false} BudgetExhaustion(id: JobId, e: Throwable, name: string, limit: nat,
                                            history: seq<Consult>, performed: nat, k: nat)
    requires multiset(history)[Consult(id, name)] + k == limit
    ensures var ts := Deliveries(id, Throws(e), name, LimitPolicy(limit), history, performed, k + 1);
      (forall i :: 0 <= i < k ==> ts[i].result == Returned(FailureRecoverable) && ts[i].ops == [Action.Bury(id)]) &&
      ts[k].result == Returned(Failure) && ts[k].ops == [Action.Delete(id)]
    decreases k
  {
    var c := Consult(id, name);
    var ts := Deliveries(id, Throws(e), name, LimitPolicy(limit), history, performed, k + 1);
    var t := Dispatch(id, Throws(e), QueueView(true, name, map[], performed), LimitPolicy(limit)(history, c));
    assert ts[0] == t;
    if k > 0 {
      assert LimitPolicy(limit)(history, c);
      assert t.consults == [c] && |t.ops| == 1;
      assert multiset(history + [c])[c] == multiset(history)[c] + 1;
      BudgetExhaustion(id, e, name, limit, history + [c], performed + 1, k - 1);
      var rest := Deliveries(id, Throws(e), name, LimitPolicy(limit), history + [c], performed + 1, k);
      assert ts == [t] + rest;
      forall i | 0 <= i < k
        ensures ts[i].result == Returned(FailureRecoverable) && ts[i].ops == [Action.Bury(id)]
      {
        if i > 0 {
          assert ts[i] == rest[i - 1];
        }
      }
      assert ts[k] == rest[k - 1];
    }
  }

  /** Under the assumed policy, with a fresh budget of `limit`, the first
      `limit` failures of a job on a queue are recoverable and the next one is
      final. */
  lemma LimitPlusOneFailures(id: JobId, e: Throwable, name: string, limit: nat, history: seq<Consult>)
    requires Consult(id, name) !in history
    ensures var ts := Deliveries(id, Throws(e), name, LimitPolicy(limit), history, 0, limit + 1);
      (forall i :: 0 <= i < limit ==> ts[i].result == Returned(FailureRecoverable)) &&
      ts[limit].result == Returned(Failure)
  {
    BudgetExhaustion(id, e, name, limit, history, 0, limit);
  }

  /** Calls on the queue `name` only ever ask about the pair (job, `name`). */
  lemma {:induction false} ConsultsStayOnQueue(id: JobId, exec: Execution, name: string,
                                               policy: (seq<Consult>, Consult) -> bool,
                                               history: seq<Consult>, performed: nat, n: nat)
    ensures forall c :: c in Consulted(Deliveries(id, exec, name, policy, history, performed, n)) ==> c == Consult(id, name)
    decreases n
  {
    var ts := Deliveries(id, exec, name, policy, history, performed, n);
    if n > 0 {
      var t := ts[0];
      ConsultsStayOnQueue(id, exec, name, policy, history + t.consults, performed + |t.ops|, n - 1);
      assert ts[1..] == Deliveries(id, exec, name, policy, history + t.consults, performed + |t.ops|, n - 1);
    }
  }

  /** Under the assumed policy, any number of deliveries of a job on
      queue `a` leave its budget on another queue `b` untouched, so the next
      `limit` failures on `b` are still recoverable and the one after is final. */
  lemma QueuesHaveSeparateBudgets(id: JobId, exec: Execution, e: Throwable, a: string, b: string, limit: nat,
                                  history: seq<Consult>, n: nat)
    requires a != b && Consult(id, b) !in history
    ensures var onA := Deliveries(id, exec, a, LimitPolicy(limit), history, 0, n);
      var onB := Deliveries(id, Throws(e), b, LimitPolicy(limit), history + Consulted(onA), 0, limit + 1);
      (forall i :: 0 <= i < limit ==> onB[i].result == Returned(FailureRecoverable)) &&
      onB[limit].result == Returned(Failure)
  {
    var onA := Deliveries(id, exec, a, LimitPolicy(limit), history, 0, n);
    ConsultsStayOnQueue(id, exec, a, LimitPolicy(limit), history, 0, n);
    assert Consult(id, b) !in Consulted(onA);
    LimitPlusOneFailures(id, e, b, limit, history + Consulted(onA));
  }
}
