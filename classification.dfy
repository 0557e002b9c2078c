/**
 * The per-site decisions inside `watcher_loop`: whether two readings make a
 * payment, a deposit or no change, and whether the low-balance alert fires.
 */
module Classification {
  import opened Wrappers

  /** The `1e-6` tolerance of the diff comparisons. */
  const Tolerance: real := 1.0 / 1000000.0

  /** A detected movement of the balance, with its (positive) magnitude. */
  datatype Change = Payment(amount: real) | Deposit(amount: real)

  function Abs(x: real): real { if x < 0.0 then -x else x }

  /**
   * The change message the step sends, if any.  There is none while no previous
   * balance exists; otherwise a payment or deposit whose amount, taken from or
   * added to the previous balance, gives the new one and exceeds the tolerance;
   * and none exactly when the two readings lie within the tolerance.
   */
  function Classify(last: Option<real>, balance: real): (c: Option<Change>)
    ensures last.None? ==> c.None?
    ensures c.Some? ==> c.value.amount > Tolerance
    ensures c.Some? && c.value.Payment? ==> balance == last.value - c.value.amount
    ensures c.Some? && c.value.Deposit? ==> balance == last.value + c.value.amount
    ensures last.Some? ==> (c.None? <==> Abs(balance - last.value) <= Tolerance)
  {
    match last
    case None => None
    case Some(prev) =>
      var diff := balance - prev;
      if diff < -Tolerance then Some(Payment(Abs(diff)))
      else if diff > Tolerance then Some(Deposit(diff))
      else None
  }

  /** The two change kinds in terms of `diff = balance - last_balance`. */
  lemma ClassifyByDiff(last: real, balance: real)
    ensures Classify(Some(last), balance) == Some(Payment(Abs(balance - last))) <==> balance - last < -Tolerance
    ensures Classify(Some(last), balance) == Some(Deposit(balance - last)) <==> balance - last > Tolerance
  {
  }

  /**
   * The low-balance alert: the new reading is below the threshold and the previous
   * one was not (a missing previous reading counts as not below).
   */
  predicate LowBalanceAlert(last: Option<real>, balance: real, threshold: real): (r: bool)
    ensures r ==> balance < threshold
    ensures last.Some? && last.value < threshold ==> !r
    ensures last.None? ==> (r <==> balance < threshold)
    ensures last.Some? && last.value >= threshold ==> (r <==> balance < threshold)
  {
    balance < threshold && (last.None? || last.value >= threshold)
  }

  /**
   * Which readings of a run alert, when site readings `readings` arrive one poll
   * after the other after a previous balance `last`.
   */
  function AlertTrace(last: Option<real>, readings: seq<real>, threshold: real): (r: seq<bool>)
    ensures |r| == |readings|
    decreases |readings|
  {
    if readings == [] then []
    else [LowBalanceAlert(last, readings[0], threshold)] + AlertTrace(Some(readings[0]), readings[1..], threshold)
  }

  /** Inside a run, a reading alerts exactly when it drops below the threshold from at or above it. */
  lemma {:induction false} AlertTraceAt(last: Option<real>, readings: seq<real>, threshold: real, i: int)
    requires 0 < i < |readings|
    ensures AlertTrace(last, readings, threshold)[i] <==> readings[i] < threshold <= readings[i - 1]
    decreases |readings|
  {
    if i > 1 {
      AlertTraceAt(Some(readings[0]), readings[1..], threshold, i - 1);
    }
  }

  /** While the balance stays below the threshold, only the first reading of the run can alert. */
  lemma {:induction false} AlertOnceWhileBelow(last: Option<real>, readings: seq<real>, threshold: real)
    requires forall k :: 0 <= k < |readings| ==> readings[k] < threshold
    ensures forall k :: 0 < k < |readings| ==> !AlertTrace(last, readings, threshold)[k]
  {
    forall k | 0 < k < |readings| ensures !AlertTrace(last, readings, threshold)[k] {
      AlertTraceAt(last, readings, threshold, k);
    }
  }

  /** Between two alerts the balance has recovered to at least the threshold. */
  lemma {:induction false} AlertRearmsOnlyAfterRecovery(last: Option<real>, readings: seq<real>, threshold: real, i: int, j: int)
    requires 0 <= i < j < |readings|
    requires AlertTrace(last, readings, threshold)[i] && AlertTrace(last, readings, threshold)[j]
    ensures exists k :: i < k < j && readings[k] >= threshold
  {
    AlertTraceAt(last, readings, threshold, j);
    if i > 0 {
      AlertTraceAt(last, readings, threshold, i);
    } else {
      assert AlertTrace(last, readings, threshold)[0] == LowBalanceAlert(last, readings[0], threshold);
    }
    assert readings[j - 1] >= threshold;
    assert i < j - 1;
  }

  /**
   * With threshold 100 and readings 150, 90, 80, 120, 90 from a fresh site, the
   * alert fires on the two downward crossings and nowhere else.
   */
  lemma AlertTraceExample()
    ensures AlertTrace(None, [150.0, 90.0, 80.0, 120.0, 90.0], 100.0) == [false, true, false, false, true]
  {
  }

  /** A payment and a low-balance alert can arise from the same reading. */
  lemma PaymentAndAlertTogether()
    ensures Classify(Some(500000.0), 95000.0) == Some(Payment(405000.0))
    ensures LowBalanceAlert(Some(500000.0), 95000.0, 100000.0)
  {
  }
}
