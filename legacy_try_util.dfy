/**
 * `org.campanula.utils.method.CTryUtil`: the same try/catch/finally
 * orchestration over the older exception handle, whose handlers never see
 * the exception.
 */
module LegacyTryUtil {
  import opened Base
  import opened ExceptionDispatch
  import opened LegacyExceptionHandle
  import TryUtil

  /**
   * The `try`/`catch` part: the body runs; an exception it throws goes to
   * `handle.handle(e)`, which throws NullPointerException on a null handle.
   */
  function Caught<V>(body: Try<Option<V>>, h: Handle?<V>): (r: Run<Option<V>>)
    reads h
    requires h != null ==> h.Valid()
  {
    match body
    case Ok(v) => Run(Ok(v), [TryBody])
    case Thrown(e) =>
      if h == null then Run(Thrown(NullPointer), [TryBody])
      else
      var c := Handled(h.mode, h.ResultTable(), h.BlankTable(), e);
      Run(c.outcome, [TryBody] + c.calls)
  }

  /**
   * `handle(tryMethod, handle, finallyMethod)` for a value-returning body;
   * the two-argument overload is `fin == None`. The value `handle` returns
   * is passed on as the result.
   */
  function HandleValue<V>(body: Try<Option<V>>, h: Handle?<V>, fin: Option<Try<Unit>>): (r: Run<Option<V>>)
    reads h
    requires h != null ==> h.Valid()
  {
    WithFinally(Caught(body, h), fin)
  }

  /** `handle(tryMethod, handle, finallyMethod)` for a void body: what `handle` returns is discarded. */
  function HandleVoid<V>(body: Try<Unit>, h: Handle?<V>, fin: Option<Try<Unit>>): (r: Run<Unit>)
    reads h
    requires h != null ==> h.Valid()
  {
    var c := Caught(if body.Ok? then Ok(None) else Thrown(body.exc), h);
    WithFinally(Run(if c.outcome.Ok? then Ok(()) else Thrown(c.outcome.exc), c.calls), fin)
  }

  /** The callbacks of the catch part: the body, then at most one handler, never the finally method. */
  lemma CaughtCalls<V>(body: Try<Option<V>>, h: Handle?<V>)
    requires h != null ==> h.Valid()
    ensures var r := Caught(body, h);
            Count(r.calls, TryBody) == 1 && Count(r.calls, Finally) == 0 && |r.calls| <= 2
  {
    var r := Caught(body, h);
    if body.Thrown? && h != null {
      var c := Handled(h.mode, h.ResultTable(), h.BlankTable(), body.exc);
      CountAppend([TryBody], c.calls, TryBody);
      CountAppend([TryBody], c.calls, Finally);
      assert TryBody !in c.calls && Finally !in c.calls;
    }
  }

  /** The body runs exactly once; a non-null finally method runs exactly once on every path, a null one never. */
  lemma {:induction false} FinallyRunsOnce<V>(body: Try<Option<V>>, h: Handle?<V>, fin: Option<Try<Unit>>)
    requires h != null ==> h.Valid()
    ensures var r := HandleValue(body, h, fin);
            Count(r.calls, TryBody) == 1 && Count(r.calls, Finally) == (if fin.Some? then 1 else 0)
    ensures fin.Some? ==> HandleValue(body, h, fin).calls[|HandleValue(body, h, fin).calls| - 1] == Finally
  {
    CaughtCalls(body, h);
    var c := Caught(body, h);
    if fin.Some? {
      CountAppend(c.calls, [Finally], TryBody);
      CountAppend(c.calls, [Finally], Finally);
    }
  }

  /** A body that returns normally gives its value and the handle, even a null one, is never consulted. */
  lemma NormalReturnSkipsHandle<V>(v: Option<V>, h: Handle?<V>, fin: Option<Try<Unit>>)
    requires h != null ==> h.Valid()
    requires fin.None? || fin.value.Ok?
    ensures HandleValue(Ok(v), h, fin) == Run(Ok(v), [TryBody] + (if fin.Some? then [Finally] else []))
  {
  }

  /**
   * A body that throws gives what `handle.handle(e)` gives, including an
   * exception escaping it; with a null handle, NullPointerException escapes
   * once the finally method has run.
   */
  lemma ThrowGoesToHandle<V>(e: Exc, h: Handle?<V>, fin: Option<Try<Unit>>)
    requires h != null ==> h.Valid()
    requires fin.None? || fin.value.Ok?
    ensures h != null ==> HandleValue(Thrown(e), h, fin).outcome == Handled(h.mode, h.ResultTable(), h.BlankTable(), e).outcome
    ensures h == null ==> HandleValue(Thrown(e), h, fin) == Run(Thrown(NullPointer), [TryBody] + (if fin.Some? then [Finally] else []))
  {
  }

  /**
   * The void form agrees with the value form on which callbacks run and on
   * whether an exception escapes.
   */
  lemma VoidMatchesValue<V>(body: Try<Unit>, h: Handle?<V>, fin: Option<Try<Unit>>)
    requires h != null ==> h.Valid()
    ensures var b: Try<Option<V>> := if body.Ok? then Ok(None) else Thrown(body.exc);
            var rv := HandleVoid(body, h, fin);
            var rx := HandleValue(b, h, fin);
            rv.calls == rx.calls && (rv.outcome.Ok? <==> rx.outcome.Ok?) &&
            (rv.outcome.Thrown? ==> rv.outcome.exc == rx.outcome.exc)
  {
  }

  /**
   * A handle with only a NullPointerException supplier cannot catch `1/0`:
   * the finally method still runs, and a RuntimeException wrapping the
   * ArithmeticException escapes.
   */
  lemma UnmatchedEscapesAfterFinally<V>(h: Handle<V>, f: Recover<V>)
    requires h.Valid() && h.mode == ResultMode
    requires h.ResultTable() == Added(EmptyTable(), NullPointerException, f)
    ensures HandleValue(Thrown(TryUtil.DivideByZero), h, Some(Ok(()))) ==
              Run(Thrown(Unmatched(TryUtil.DivideByZero)), [TryBody, Finally])
  {
    NonMatchingRethrows(f, h.BlankTable(), TryUtil.DivideByZero);
  }

  /** `1/0` with an ArithmeticException supplier and an `Exception` fallback gets the specific supplier's value. */
  lemma SpecificHandlerForDivideByZero<V>(h: Handle<V>, specific: Recover<V>, fallback: Recover<V>)
    requires h.Valid() && h.mode == ResultMode
    requires h.ResultTable() == Added(Added(EmptyTable(), ArithmeticException, specific), Exception, fallback)
    ensures HandleValue(Thrown(TryUtil.DivideByZero), h, Some(Ok(()))) ==
              Run(Returned(specific), [TryBody, Catch(0), Finally])
  {
    SpecificBeatsFallback(specific, fallback, h.BlankTable(), TryUtil.DivideByZero);
  }
}
