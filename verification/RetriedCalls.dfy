/** The retry loop under a call of a repository or the blob storage: what its attempts do to the stores is what
    the services' view of that call says. */
module RetriedCalls {
  import opened Tables
  import opened Sequential
  import opened Retry

  /** The stores after the first `n` attempts. */
  ghost function AfterAttempts(s: Store, call: Call, now: int, applied: nat -> bool, n: nat): Store {
    if n == 0 then s
    else
      var before := AfterAttempts(s, call, now, applied, n - 1);
      if applied(n) then Perform(before, call, now).0 else before
  }

  /** What the driver reports of each attempt, and which attempts took effect. An attempt is reported as a success only
      if it took effect, and then with what the statement answered to it; a constraint violation is no success. */
  ghost predicate Truthful(plan: Plan<Reply>, s: Store, call: Call, now: int, applied: nat -> bool) {
    forall i: nat :: i >= 1 && plan(i).outcome.Ok? ==>
      && applied(i) && !plan(i).outcome.value.Thrown?
      && plan(i).outcome.value == Perform(AfterAttempts(s, call, now, applied, i - 1), call, now).1
  }

  /** The same attempts as the turn of one call: all but attempt `n` were retried. */
  function TurnOf<T>(plan: Plan<T>, applied: nat -> bool, n: nat, now: int, id: string): Turn
    requires n >= 1
  {
    Turn(now, id, seq(n - 1, i requires 0 <= i < n - 1 => applied(i + 1)),
         if plan(n).outcome.Ok? then Works else if applied(n) then FailsApplied else FailsClean)
  }

  lemma {:induction false} AfterLapsesSnoc(s: Store, call: Call, now: int, lapses: seq<bool>, last: bool)
    ensures AfterLapses(s, call, now, lapses + [last])
            == if last then Perform(AfterLapses(s, call, now, lapses), call, now).0
                else AfterLapses(s, call, now, lapses)
    decreases |lapses|
  {
    hide Perform;
    if lapses == [] {
      assert ([] + [last])[1..] == [];
    } else {
      assert (lapses + [last])[1..] == lapses[1..] + [last];
      AfterLapsesSnoc(if lapses[0] then Perform(s, call, now).0 else s, call, now, lapses[1..], last);
    }
  }

  lemma {:induction false} LapsesAreAttempts(s: Store, call: Call, now: int, applied: nat -> bool, n: nat)
    ensures AfterLapses(s, call, now, seq(n, i requires 0 <= i < n => applied(i + 1)))
            == AfterAttempts(s, call, now, applied, n)
  {
    hide Perform;
    if n > 0 {
      var before := seq(n - 1, i requires 0 <= i < n - 1 => applied(i + 1));
      assert seq(n, i requires 0 <= i < n => applied(i + 1)) == before + [applied(n)];
      LapsesAreAttempts(s, call, now, applied, n - 1);
      AfterLapsesSnoc(s, call, now, before, applied(n));
    }
  }

  /** The stores after the loop are those the turn gives; the caller gets the value the loop returns, or an exception
      exactly when the loop throws; every lapse was a transient failure, and there are fewer lapses than allowed
      attempts. */
  lemma LoopIsTurn(plan: Plan<Reply>, policy: Policy, isRetryable: RawError -> bool, applied: nat -> bool, n: nat,
                      w: World, call: Call, now: int, id: string)
    requires policy.maxAttempts >= 1 && IsCallCount(plan, policy, isRetryable, n)
    requires Truthful(plan, w.store, call, now, applied)
    ensures var turn := TurnOf(plan, applied, n, now, id);
            var (after, reply) := Serve(w, call, _ => turn);
            && after.store == AfterAttempts(w.store, call, now, applied, n)
            && (plan(n).outcome.Ok? ==> EndingOf(plan(n)) == Returned(reply))
            && (EndingOf(plan(n)).Threw? <==> reply == Thrown)
            && |turn.lapses| < policy.maxAttempts
            && forall i :: 1 <= i <= |turn.lapses| ==>
                 Transient(plan(i), isRetryable) && turn.lapses[i - 1] == applied(i)
  {
    hide Perform, EndOf;
    LapsesAreAttempts(w.store, call, now, applied, n - 1);
    CallCountUnique(plan, policy, isRetryable, n, n);
    forall i | 1 <= i < n
      ensures Transient(plan(i), isRetryable)
    {
      assert !StopsAt(plan, policy, isRetryable, i);
    }
  }
}
