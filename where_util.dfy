/**
 * `org.campanula.utils.method.CWhereUtil`: runs one of two callbacks, or
 * throws, depending on whether every condition of a list holds. Conditions
 * are evaluated left to right and evaluation stops at the first that fails.
 * A condition is given by how its `getAsBoolean()` completes.
 */
module WhereUtil {
  import opened Base

  const NotPassMessage := "not pass"

  /** `new WhereNotPassRuntimeException(message)`; the no-argument constructor uses "not pass". */
  function NotPass(message: string): (e: Exc)
    ensures e.cls == WhereNotPassRuntimeException && e.message == Some(message) && e.cause.None?
  {
    Raise(WhereNotPassRuntimeException, message)
  }

  /** The first condition at or after `from` that does not evaluate to true (false, or throwing). */
  function FirstStopFrom(conds: seq<Try<bool>>, from: nat): (r: Option<nat>)
    requires from <= |conds|
    ensures r.Some? ==> from <= r.value < |conds| && conds[r.value] != Ok(true) &&
                        forall j :: from <= j < r.value ==> conds[j] == Ok(true)
    ensures r.None? <==> forall j :: from <= j < |conds| ==> conds[j] == Ok(true)
    decreases |conds| - from
  {
    if from == |conds| then None
    else if conds[from] != Ok(true) then Some(from)
    else FirstStopFrom(conds, from + 1)
  }

  /** The condition that stops the evaluation, if any. */
  function FirstStop(conds: seq<Try<bool>>): (r: Option<nat>)
    ensures r.Some? ==> r.value < |conds| && conds[r.value] != Ok(true) && forall j :: 0 <= j < r.value ==> conds[j] == Ok(true)
    ensures r.None? <==> forall j :: 0 <= j < |conds| ==> conds[j] == Ok(true)
  {
    FirstStopFrom(conds, 0)
  }

  /** The trace of evaluating conditions `0 .. k-1`. */
  function Evaluated(k: nat): (calls: seq<Callback>)
    ensures |calls| == k && forall i :: 0 <= i < k ==> calls[i] == Condition(i)
  {
    if k == 0 then [] else Evaluated(k - 1) + [Condition(k - 1)]
  }

  /**
   * `then(success, fail, where...)`, in both the void and the value form: the
   * conditions up to the first that fails are evaluated; then `fail` runs,
   * or `success` if none failed. A condition that throws propagates.
   */
  function ThenSpec<T>(success: Try<T>, fail: Try<T>, conds: seq<Try<bool>>): Run<T>
  {
    match FirstStop(conds)
    case None => Run(success, Evaluated(|conds|) + [Success])
    case Some(i) =>
      if conds[i].Thrown? then Run(Thrown(conds[i].exc), Evaluated(i + 1))
      else Run(fail, Evaluated(i + 1) + [Fail])
  }

  /** `thenThrow(success, ex, where...)`: like `then`, with `throw ex` in place of the fail callback. */
  function ThenThrowSpec<T>(success: Try<T>, ex: Exc, conds: seq<Try<bool>>): Run<T>
  {
    match FirstStop(conds)
    case None => Run(success, Evaluated(|conds|) + [Success])
    case Some(i) => Run(Thrown(if conds[i].Thrown? then conds[i].exc else ex), Evaluated(i + 1))
  }

  /** `then`: the index loop with early return. */
  method Then<T>(success: Try<T>, fail: Try<T>, conds: seq<Try<bool>>) returns (r: Run<T>)
    ensures r == ThenSpec(success, fail, conds)
  {
    var length := |conds|;
    var calls: seq<Callback> := [];
    for i := 0 to length
      invariant calls == Evaluated(i)
      invariant forall j :: 0 <= j < i ==> conds[j] == Ok(true)
    {
      calls := calls + [Condition(i)];
      assert calls == Evaluated(i + 1);
      if conds[i].Thrown? {
        assert FirstStop(conds) == Some(i);
        return Run(Thrown(conds[i].exc), calls);
      }
      if !conds[i].value {
        assert FirstStop(conds) == Some(i);
        return Run(fail, calls + [Fail]);
      }
    }
    r := Run(success, calls + [Success]);
  }

  /** `thenThrow(success, ex, where...)`: the index loop throwing `ex` at the first false condition. */
  method ThenThrow<T>(success: Try<T>, ex: Exc, conds: seq<Try<bool>>) returns (r: Run<T>)
    ensures r == ThenThrowSpec(success, ex, conds)
  {
    var length := |conds|;
    var calls: seq<Callback> := [];
    for i := 0 to length
      invariant calls == Evaluated(i)
      invariant forall j :: 0 <= j < i ==> conds[j] == Ok(true)
    {
      calls := calls + [Condition(i)];
      assert calls == Evaluated(i + 1);
      if conds[i].Thrown? {
        assert FirstStop(conds) == Some(i);
        return Run(Thrown(conds[i].exc), calls);
      }
      if !conds[i].value {
        assert FirstStop(conds) == Some(i);
        return Run(Thrown(ex), calls);
      }
    }
    r := Run(success, calls + [Success]);
  }

  /** `thenThrow(success, where...)`: the default WhereNotPassRuntimeException("not pass"). */
  method ThenThrowNotPass<T>(success: Try<T>, conds: seq<Try<bool>>) returns (r: Run<T>)
    ensures r == ThenThrowSpec(success, NotPass(NotPassMessage), conds)
  {
    r := ThenThrow(success, NotPass(NotPassMessage), conds);
  }

  /** `thenThrow(success, failMessage, where...)`: a WhereNotPassRuntimeException with the given message. */
  method ThenThrowMessage<T>(success: Try<T>, message: string, conds: seq<Try<bool>>) returns (r: Run<T>)
    ensures r == ThenThrowSpec(success, NotPass(message), conds)
  {
    r := ThenThrow(success, NotPass(message), conds);
  }

  /** Conditions that all return normally: exactly one of success and fail runs, once; success iff all hold. */
  lemma {:induction false} ExactlyOneBranch<T>(success: Try<T>, fail: Try<T>, conds: seq<Try<bool>>)
    requires forall i :: 0 <= i < |conds| ==> conds[i].Ok?
    ensures var r := ThenSpec(success, fail, conds);
            Count(r.calls, Success) + Count(r.calls, Fail) == 1 &&
            (Success in r.calls <==> forall i :: 0 <= i < |conds| ==> conds[i] == Ok(true)) &&
            r.outcome == (if Success in r.calls then success else fail)
  {
    var r := ThenSpec(success, fail, conds);
    match FirstStop(conds)
    case None =>
      CountAppend(Evaluated(|conds|), [Success], Success);
      CountAppend(Evaluated(|conds|), [Success], Fail);
      assert Success !in Evaluated(|conds|) && Fail !in Evaluated(|conds|);
    case Some(i) =>
      CountAppend(Evaluated(i + 1), [Fail], Success);
      CountAppend(Evaluated(i + 1), [Fail], Fail);
      assert Success !in Evaluated(i + 1) && Fail !in Evaluated(i + 1);
      assert Success !in r.calls;
  }

  /** Condition `j` is evaluated iff every condition before it held; none is evaluated twice. */
  lemma EvaluationStopsAtFirstFailure<T>(success: Try<T>, fail: Try<T>, conds: seq<Try<bool>>, j: nat)
    requires j < |conds|
    ensures var r := ThenSpec(success, fail, conds);
            (Condition(j) in r.calls <==> forall i :: 0 <= i < j ==> conds[i] == Ok(true)) &&
            (Condition(j) in r.calls ==> r.calls[j] == Condition(j))
  {
    var r := ThenSpec(success, fail, conds);
    var k := if FirstStop(conds).None? then |conds| else FirstStop(conds).value + 1;
    assert r.calls[..k] == Evaluated(k);
    assert forall m :: k <= m < |r.calls| ==> r.calls[m] == Success || r.calls[m] == Fail;
    if forall i :: 0 <= i < j ==> conds[i] == Ok(true) {
      assert j < k;
      assert r.calls[j] == Condition(j);
    }
    if Condition(j) in r.calls {
      var m :| 0 <= m < |r.calls| && r.calls[m] == Condition(j);
      assert m < k;
    }
  }

  /** `thenThrow` never runs success when a condition fails, and the thrown exception is `ex`. */
  lemma ThrowWhenNotPassed<T>(success: Try<T>, ex: Exc, conds: seq<Try<bool>>, i: nat)
    requires i < |conds| && conds[i] == Ok(false)
    requires forall j :: 0 <= j < i ==> conds[j].Ok?
    ensures var r := ThenThrowSpec(success, ex, conds);
            r.outcome == Thrown(ex) && Success !in r.calls
  {
    var k := FirstStop(conds).value;
    assert k <= i;
    assert Success !in Evaluated(k + 1);
  }

  /** With no conditions, success runs. */
  lemma NoConditionsRunsSuccess<T>(success: Try<T>, fail: Try<T>, ex: Exc)
    ensures ThenSpec(success, fail, []) == Run(success, [Success])
    ensures ThenThrowSpec(success, ex, []) == Run(success, [Success])
  {
    assert Evaluated(0) == [];
  }

  /** The effect of the test's callbacks on its list: success appends 2, fail clears it. */
  function Replay(data: seq<int>, r: Run<Unit>): seq<int>
  {
    if Success in r.calls then data + [2] else if Fail in r.calls then [] else data
  }

  /** The test's sequence of calls, starting from `[1]`, leaves lists of sizes 2, 0, 1, 0 and 0. */
  lemma ThenTestSequence()
    ensures var d1 := Replay([1], ThenSpec(Ok(()), Ok(()), [Ok(true)]));
            var d2 := Replay(d1, ThenSpec(Ok(()), Ok(()), [Ok(false)]));
            var d3 := Replay(d2, ThenSpec(Ok(()), Ok(()), [Ok(true), Ok(true)]));
            var d4 := Replay(d3, ThenSpec(Ok(()), Ok(()), [Ok(false), Ok(true)]));
            var d5 := Replay(d4, ThenSpec(Ok(()), Ok(()), [Ok(false), Ok(false)]));
            |d1| == 2 && |d2| == 0 && |d3| == 1 && |d4| == 0 && |d5| == 0
  {
    assert Evaluated(1) == [Condition(0)];
    assert Evaluated(2) == [Condition(0), Condition(1)];
  }
}
