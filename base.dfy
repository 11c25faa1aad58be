/**
 * Shared vocabulary of the model: nullable values, Java exceptions as data,
 * the outcome of a computation that may throw, and a trace of the user
 * callbacks a utility invoked.
 */
module Base {

  /** A nullable Java reference: `None` is `null`. */
  datatype Option<T> = None | Some(value: T)

  /** The exact runtime classes of the exceptions the library throws, wraps or registers. */
  datatype ExcClass =
    | Exception
    | RuntimeException
    | CampanulaRuntimeException
    | ObjectEmptyRuntimeException
    | EmptyRuntimeException
    | EmptyException
    | WhereNotPassRuntimeException
    | NullPointerException
    | NoSuchFieldException
    | InvocationTargetException
    | ArithmeticException
    | OtherClass(name: string)

  /** A thrown object: its exact class, its detail message and its cause. */
  datatype Exc = Exc(cls: ExcClass, message: Option<string>, cause: Option<Exc>)

  /** `new C(message)` */
  function Raise(cls: ExcClass, message: string): (e: Exc)
    ensures e.cls == cls && e.message == Some(message) && e.cause.None?
  {
    Exc(cls, Some(message), None)
  }

  /** `new C(cause)`: the cause is kept, the derived detail message is not modelled. */
  function Wrap(cls: ExcClass, cause: Exc): (e: Exc)
    ensures e.cls == cls && e.cause == Some(cause)
  {
    Exc(cls, None, Some(cause))
  }

  /** `new CampanulaRuntimeException(cause)` */
  function WrapCampanula(cause: Exc): (e: Exc)
    ensures e.cls == CampanulaRuntimeException && e.cause == Some(cause)
  {
    Wrap(CampanulaRuntimeException, cause)
  }

  /** The NullPointerException the JVM raises on a null dereference. */
  const NullPointer: Exc := Exc(NullPointerException, None, None)

  /** The outcome of Java code that returns a value or throws. */
  datatype Try<T> = Ok(value: T) | Thrown(exc: Exc)

  /** The no-value result of a `void` call. */
  type Unit = ()

  /** User callbacks a utility may invoke; a trace of them says which ran and in which order. */
  datatype Callback =
    | Original          // the supplier of the guarded value
    | NotNull           // the callback for a present value
    | OnNull            // the callback or supplier for an absent value
    | MakeException     // the supplier of the exception to throw
    | Condition(index: nat)
    | Success
    | Fail
    | TryBody
    | Catch(index: nat) // the handler registered at this position
    | CatchAll          // the handler registered for Exception itself
    | Finally

  /** What a utility call produced, together with the callbacks it ran. */
  datatype Run<T> = Run(outcome: Try<T>, calls: seq<Callback>)

  /** Number of times `c` occurs in a trace. */
  function Count(calls: seq<Callback>, c: Callback): (n: nat)
    ensures n <= |calls|
    ensures n == 0 <==> c !in calls
  {
    if calls == [] then 0
    else (if calls[0] == c then 1 else 0) + Count(calls[1..], c)
  }

  lemma {:induction false} CountAppend(a: seq<Callback>, b: seq<Callback>, c: Callback)
    ensures Count(a + b, c) == Count(a, c) + Count(b, c)
  {
    if a == [] {
      assert a + b == b;
    } else {
      assert (a + b)[1..] == a[1..] + b;
      CountAppend(a[1..], b, c);
    }
  }

  /**
   * A `finally` block (`None` when the finally method is null) after the
   * `try`/`catch` produced `main`: it runs last, and an exception it throws
   * replaces whatever was pending.
   */
  function WithFinally<T>(main: Run<T>, fin: Option<Try<Unit>>): (r: Run<T>)
    ensures fin.None? ==> r == main
    ensures fin.Some? ==> r.calls == main.calls + [Finally]
    ensures fin.Some? ==> r.outcome == (if fin.value.Thrown? then Thrown(fin.value.exc) else main.outcome)
  {
    match fin
    case None => main
    case Some(f) => Run(if f.Thrown? then Thrown(f.exc) else main.outcome, main.calls + [Finally])
  }
}
