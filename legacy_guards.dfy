/**
 * `org.campanula.utils.method.CObjectUtil`: the older null guards. Unlike the
 * newer ones, every callback may itself be `null`, and the guarded value is
 * fetched with `getO(original, null)`, so a null supplier counts as a
 * supplier of `null`. The exception to throw is an instance, not a supplier.
 */
module LegacyObjectUtil {
  import opened Base

  /** A `Supplier<T>` that may be `null`: `None`, or how its `get()` completes. */
  type Supplier<T> = Option<Try<Option<T>>>

  /** A `Function<T, R>` that may be `null`. */
  type Func<!T, R> = Option<T -> Try<Option<R>>>

  /** A `Consumer<T>` that may be `null`. */
  type Consumer<!T> = Option<T -> Try<Unit>>

  /** A `VoidMethod` that may be `null`. */
  type VoidMethod = Option<Try<Unit>>

  const ObjectIsNull := "object is null"

  /** `new EmptyRuntimeException(message)`: what the message overloads of the `*NullRuntimeThrows` methods throw. */
  function RuntimeEmpty(message: string): (e: Exc)
    ensures e.cls == EmptyRuntimeException && e.message == Some(message) && e.cause.None?
  {
    Raise(EmptyRuntimeException, message)
  }

  /** `new EmptyException(message)`: what the message overloads of the `*NullThrows` methods throw. */
  function CheckedEmpty(message: string): (e: Exc)
    ensures e.cls == EmptyException && e.message == Some(message) && e.cause.None?
  {
    Raise(EmptyException, message)
  }

  /** `assist(or)`: `null` for a null supplier, else `or.get()`. */
  function Assist<T>(or: Supplier<T>): (r: Run<Option<T>>)
    ensures or.None? ==> r == Run(Ok(None), [])
    ensures or.Some? ==> r == Run(or.value, [OnNull])
  {
    match or
    case None => Run(Ok(None), [])
    case Some(s) => Run(s, [OnNull])
  }

  /** `getO(original, nullOr)`: the supplied value if the supplier and the value are non-null, else `assist(nullOr)`. */
  function GetO<T>(original: Supplier<T>, nullOr: Supplier<T>): (r: Run<Option<T>>)
    ensures original.None? ==> r == Assist(nullOr)
    ensures original.Some? ==> |r.calls| >= 1 && r.calls[0] == Original
    ensures original.Some? && original.value.Ok? && original.value.value.None? ==>
              r == Run(Assist(nullOr).outcome, [Original] + Assist(nullOr).calls)
    ensures original == Some(Ok(None)) || original.None? ==> (nullOr.None? <==> r == Run(Ok(None), if original.None? then [] else [Original]))
    ensures original.Some? && (original.value.Thrown? || original.value.value.Some?) ==>
              r == Run(original.value, [Original])
  {
    match original
    case None => Assist(nullOr)
    case Some(o) =>
      if o.Ok? && o.value.None? then
        var a := Assist(nullOr);
        Run(a.outcome, [Original] + a.calls)
      else Run(o, [Original])
  }

  /** `getO(original, null)`, the first step of every method below: a missing supplier or value gives `null`. */
  function Fetched<T>(original: Supplier<T>): (r: Run<Option<T>>)
    ensures r.calls == (if original.Some? then [Original] else [])
    ensures r.outcome == (if original.Some? then original.value else Ok(None))
  {
    GetO(original, None)
  }

  /** `oNullRuntimeThrows(original, e)` and `oNullThrows(original, e)`: the value, or `throw e` on a null supplier or value. */
  function NullThrows<T>(original: Supplier<T>, e: Exc): (r: Run<Option<T>>)
    ensures r.outcome.Ok? <==> original.Some? && original.value.Ok? && original.value.value.Some?
    ensures r.outcome.Ok? ==> r.outcome == original.value
    ensures original.None? || original == Some(Ok(None)) ==> r.outcome == Thrown(e)
    ensures r.calls == (if original.Some? then [Original] else [])
  {
    match original
    case None => Run(Thrown(e), [])
    case Some(o) => if o.Ok? && o.value.None? then Run(Thrown(e), [Original]) else Run(o, [Original])
  }

  /** What `oProcess` runs once it has the value `t`, parsed as written: the `else` belongs to the inner `if`. */
  function ProcessStepAsWritten<T>(t: Option<T>, oNotNull: Func<T, T>, oNull: Supplier<T>): Run<Option<T>>
  {
    if t.Some? then
      if oNotNull.Some? then Run(oNotNull.value(t.value), [NotNull])
      else if oNull.Some? then Run(oNull.value, [OnNull])
      else Run(Ok(None), [])
    else Run(Ok(None), [])
  }

  /** `oProcess` as written: a null value returns `null` without calling `oNull`. */
  function ProcessAsWritten<T>(original: Supplier<T>, oNotNull: Func<T, T>, oNull: Supplier<T>): (r: Run<Option<T>>)
    ensures Fetched(original).outcome == Ok(None) ==> r.outcome == Ok(None) && OnNull !in r.calls
    ensures OnNull in r.calls ==> oNotNull.None? && Fetched(original).outcome.Ok? && Fetched(original).outcome.value.Some?
  {
    var f := Fetched(original);
    if f.outcome.Thrown? then f
    else
      var s := ProcessStepAsWritten(f.outcome.value, oNotNull, oNull);
      Run(s.outcome, f.calls + s.calls)
  }

  /** The documented behaviour of `oProcess`: `oNotNull` on a non-null value, `oNull` on a null one; a null callback gives `null`. */
  function ProcessStep<T>(t: Option<T>, oNotNull: Func<T, T>, oNull: Supplier<T>): Run<Option<T>>
  {
    if t.Some? then
      if oNotNull.Some? then Run(oNotNull.value(t.value), [NotNull]) else Run(Ok(None), [])
    else Assist(oNull)
  }

  /** `oProcess` as documented. */
  function Process<T>(original: Supplier<T>, oNotNull: Func<T, T>, oNull: Supplier<T>): (r: Run<Option<T>>)
    ensures NotNull in r.calls <==> Fetched(original).outcome.Ok? && Fetched(original).outcome.value.Some? && oNotNull.Some?
    ensures OnNull in r.calls <==> Fetched(original).outcome == Ok(None) && oNull.Some?
    ensures Fetched(original).outcome == Ok(None) ==> r.outcome == Assist(oNull).outcome
  {
    var f := Fetched(original);
    if f.outcome.Thrown? then f
    else
      var s := ProcessStep(f.outcome.value, oNotNull, oNull);
      Run(s.outcome, f.calls + s.calls)
  }

  /**
   * `oProcessNullRuntimeThrows(original, oNotNull, e)` and
   * `oProcessNullThrows`: a non-null value goes through `oNotNull`, or
   * comes back unchanged if it is null; a null value throws `e`.
   */
  function ProcessNullThrows<T>(original: Supplier<T>, oNotNull: Func<T, T>, e: Exc): (r: Run<Option<T>>)
    ensures Fetched(original).outcome == Ok(None) ==> r.outcome == Thrown(e) && NotNull !in r.calls
    ensures Fetched(original).outcome.Ok? && Fetched(original).outcome.value.Some? ==>
              r.outcome == (if oNotNull.Some? then oNotNull.value(Fetched(original).outcome.value.value)
                            else Fetched(original).outcome)
  {
    var f := Fetched(original);
    match f.outcome
    case Thrown(_) => f
    case Ok(t) =>
      if t.Some? then
        if oNotNull.Some? then Run(oNotNull.value(t.value), f.calls + [NotNull]) else f
      else Run(Thrown(e), f.calls)
  }

  /** `oConsume` as written: a null value does nothing; a non-null value with a null consumer runs `oNull`. */
  function ConsumeAsWritten<T>(original: Supplier<T>, oNotNull: Consumer<T>, oNull: VoidMethod): (r: Run<Unit>)
    ensures Fetched(original).outcome == Ok(None) ==> r.outcome == Ok(()) && OnNull !in r.calls && NotNull !in r.calls
    ensures OnNull in r.calls <==> Fetched(original).outcome.Ok? && Fetched(original).outcome.value.Some? &&
                                   oNotNull.None? && oNull.Some?
  {
    var f := Fetched(original);
    match f.outcome
    case Thrown(x) => Run(Thrown(x), f.calls)
    case Ok(t) =>
      if t.Some? then
        if oNotNull.Some? then Run(oNotNull.value(t.value), f.calls + [NotNull])
        else if oNull.Some? then Run(oNull.value, f.calls + [OnNull])
        else Run(Ok(()), f.calls)
      else Run(Ok(()), f.calls)
  }

  /** `oConsume` as documented: the consumer on a non-null value, `oNull` on a null one, nothing for a null callback. */
  function Consume<T>(original: Supplier<T>, oNotNull: Consumer<T>, oNull: VoidMethod): (r: Run<Unit>)
    ensures NotNull in r.calls <==> Fetched(original).outcome.Ok? && Fetched(original).outcome.value.Some? && oNotNull.Some?
    ensures OnNull in r.calls <==> Fetched(original).outcome == Ok(None) && oNull.Some?
    ensures Fetched(original).outcome == Ok(None) ==> r.outcome == (if oNull.Some? then oNull.value else Ok(()))
  {
    var f := Fetched(original);
    match f.outcome
    case Thrown(x) => Run(Thrown(x), f.calls)
    case Ok(t) =>
      if t.Some? then
        if oNotNull.Some? then Run(oNotNull.value(t.value), f.calls + [NotNull]) else Run(Ok(()), f.calls)
      else if oNull.Some? then Run(oNull.value, f.calls + [OnNull])
      else Run(Ok(()), f.calls)
  }

  /** `oConsumeNullRuntimeThrows` as written: `throw e` follows the `if`, so it runs on every path that reaches it. */
  function ConsumeNullRuntimeThrowsAsWritten<T>(original: Supplier<T>, oNotNull: Consumer<T>, e: Exc): (r: Run<Unit>)
    ensures r.outcome.Thrown?
    ensures NotNull in r.calls <==> Fetched(original).outcome.Ok? && Fetched(original).outcome.value.Some? && oNotNull.Some?
  {
    var f := Fetched(original);
    match f.outcome
    case Thrown(x) => Run(Thrown(x), f.calls)
    case Ok(t) =>
      if t.Some? && oNotNull.Some? then
        var c := oNotNull.value(t.value);
        Run(if c.Thrown? then c else Thrown(e), f.calls + [NotNull])
      else Run(Thrown(e), f.calls)
  }

  /** `oConsumeNullThrows` as written: a null value does nothing; a non-null value with a null consumer throws `e`. */
  function ConsumeNullThrowsAsWritten<T>(original: Supplier<T>, oNotNull: Consumer<T>, e: Exc): (r: Run<Unit>)
    ensures Fetched(original).outcome == Ok(None) ==> r.outcome == Ok(())
    ensures r.outcome == Thrown(e) && NotNull !in r.calls ==>
              Fetched(original).outcome == Thrown(e) || oNotNull.None?
  {
    var f := Fetched(original);
    match f.outcome
    case Thrown(x) => Run(Thrown(x), f.calls)
    case Ok(t) =>
      if t.Some? then
        if oNotNull.Some? then Run(oNotNull.value(t.value), f.calls + [NotNull]) else Run(Thrown(e), f.calls)
      else Run(Ok(()), f.calls)
  }

  /**
   * The documented behaviour of both `oConsumeNullRuntimeThrows` and
   * `oConsumeNullThrows`: the consumer runs on a non-null value (a null
   * consumer does nothing) and `e` is thrown only for a null value.
   */
  function ConsumeNullThrows<T>(original: Supplier<T>, oNotNull: Consumer<T>, e: Exc): (r: Run<Unit>)
    ensures Fetched(original).outcome == Ok(None) ==> r.outcome == Thrown(e) && NotNull !in r.calls
    ensures Fetched(original).outcome.Ok? && Fetched(original).outcome.value.Some? ==>
              r.outcome == (if oNotNull.Some? then oNotNull.value(Fetched(original).outcome.value.value) else Ok(()))
  {
    var f := Fetched(original);
    match f.outcome
    case Thrown(x) => Run(Thrown(x), f.calls)
    case Ok(t) =>
      if t.Some? then
        if oNotNull.Some? then Run(oNotNull.value(t.value), f.calls + [NotNull]) else Run(Ok(()), f.calls)
      else Run(Thrown(e), f.calls)
  }

  /** `oConvert`: `oNotNull` on a non-null value, `oNull.get()` on a null one; dereferencing a null callback throws. */
  function Convert<T, R>(original: Supplier<T>, oNotNull: Func<T, R>, oNull: Supplier<R>): (r: Run<Option<R>>)
    ensures NotNull in r.calls <==> Fetched(original).outcome.Ok? && Fetched(original).outcome.value.Some? && oNotNull.Some?
    ensures OnNull in r.calls <==> Fetched(original).outcome == Ok(None) && oNull.Some?
    ensures Fetched(original).outcome.Ok? && NotNull !in r.calls && OnNull !in r.calls ==> r.outcome == Thrown(NullPointer)
  {
    var f := Fetched(original);
    match f.outcome
    case Thrown(x) => Run(Thrown(x), f.calls)
    case Ok(t) =>
      if t.Some? then
        if oNotNull.Some? then Run(oNotNull.value(t.value), f.calls + [NotNull]) else Run(Thrown(NullPointer), f.calls)
      else if oNull.Some? then Run(oNull.value, f.calls + [OnNull])
      else Run(Thrown(NullPointer), f.calls)
  }

  /** `oConvertNullRuntimeThrows(original, oNotNull, e)` and `oConvertNullThrows`: `oNotNull` on a non-null value, else `throw e`. */
  function ConvertNullThrows<T, R>(original: Supplier<T>, oNotNull: Func<T, R>, e: Exc): (r: Run<Option<R>>)
    ensures Fetched(original).outcome == Ok(None) ==> r.outcome == Thrown(e) && NotNull !in r.calls
    ensures Fetched(original).outcome.Ok? && Fetched(original).outcome.value.Some? ==>
              r.outcome == (if oNotNull.Some? then oNotNull.value(Fetched(original).outcome.value.value) else Thrown(NullPointer))
  {
    var f := Fetched(original);
    match f.outcome
    case Thrown(x) => Run(Thrown(x), f.calls)
    case Ok(t) =>
      if t.Some? then
        if oNotNull.Some? then Run(oNotNull.value(t.value), f.calls + [NotNull]) else Run(Thrown(NullPointer), f.calls)
      else Run(Thrown(e), f.calls)
  }

  /** A null supplier and a supplier of `null` are indistinguishable to `getO`, except that the latter is called. */
  lemma NullSupplierIsNullValue<T>(nullOr: Supplier<T>)
    ensures GetO(None, nullOr).outcome == GetO(Some(Ok(None)), nullOr).outcome
    ensures GetO(Some(Ok(None)), nullOr).calls == [Original] + GetO(None, nullOr).calls
  {
  }

  /** Where `oNullThrows` returns normally, `getO` returns the same value without consulting its fallback. */
  lemma NullThrowsAgreesWithGetO<T>(original: Supplier<T>, nullOr: Supplier<T>, e: Exc)
    ensures NullThrows(original, e).outcome.Ok? ==>
              GetO(original, nullOr) == NullThrows(original, e)
    ensures NullThrows(original, e).outcome == Thrown(e) && original != Some(Thrown(e)) ==>
              GetO(original, nullOr).outcome == Assist(nullOr).outcome
  {
  }

  /** The no-exception overloads throw `EmptyRuntimeException` or `EmptyException` with "object is null". */
  lemma DefaultExceptions<T>()
    ensures NullThrows<T>(Some(Ok(None)), RuntimeEmpty(ObjectIsNull)).outcome ==
              Thrown(Exc(EmptyRuntimeException, Some("object is null"), None))
    ensures NullThrows<T>(None, CheckedEmpty(ObjectIsNull)).outcome ==
              Thrown(Exc(EmptyException, Some("object is null"), None))
  {
  }

  /** Input for which `oProcess` as written ignores `oNull` on a null value, where the documented behaviour uses it. */
  lemma ProcessAsWrittenIgnoresFallback()
    ensures ProcessAsWritten(Some(Ok(None)), Some((s: string) => Ok(Some(s + "2"))), Some(Ok(Some("1")))).outcome == Ok(None)
    ensures Process(Some(Ok(None)), Some((s: string) => Ok(Some(s + "2"))), Some(Ok(Some("1")))).outcome == Ok(Some("1"))
  {
  }

  /**
   * The documented `oProcess` runs at most one callback, never the null-case
   * one on a non-null value, and agrees with the written form whenever the
   * value is non-null and `oNotNull` is set.
   */
  lemma {:induction false} ProcessRunsOneCallback<T>(original: Supplier<T>, oNotNull: Func<T, T>, oNull: Supplier<T>)
    ensures var r := Process(original, oNotNull, oNull);
            !(NotNull in r.calls && OnNull in r.calls) &&
            (OnNull in r.calls ==> Fetched(original).outcome == Ok(None))
    ensures Fetched(original).outcome.Ok? && Fetched(original).outcome.value.Some? && oNotNull.Some? ==>
              Process(original, oNotNull, oNull) == ProcessAsWritten(original, oNotNull, oNull)
  {
    var f := Fetched(original);
    var r := Process(original, oNotNull, oNull);
    if f.outcome.Ok? {
      var s := ProcessStep(f.outcome.value, oNotNull, oNull);
      assert r.calls == f.calls + s.calls;
      assert |s.calls| <= 1;
      assert NotNull !in f.calls && OnNull !in f.calls;
    }
  }

  /** Input for which `oConsume` as written runs `oNull` on a non-null value and nothing on a null one. */
  lemma ConsumeAsWrittenSwapsCases()
    ensures ConsumeAsWritten<string>(Some(Ok(Some("1"))), None, Some(Ok(()))).calls == [Original, OnNull]
    ensures ConsumeAsWritten<string>(Some(Ok(None)), None, Some(Ok(()))).calls == [Original]
    ensures Consume<string>(Some(Ok(Some("1"))), None, Some(Ok(()))).calls == [Original]
    ensures Consume<string>(Some(Ok(None)), None, Some(Ok(()))).calls == [Original, OnNull]
  {
  }

  /** `oConsume` as documented: on a non-null value `oNull` never runs; on a null value the consumer never runs. */
  lemma ConsumeKeepsCasesApart<T>(original: Supplier<T>, oNotNull: Consumer<T>, oNull: VoidMethod)
    ensures var r := Consume(original, oNotNull, oNull);
            (OnNull in r.calls ==> Fetched(original).outcome == Ok(None)) &&
            (NotNull in r.calls ==> Fetched(original).outcome.Ok? && Fetched(original).outcome.value.Some?)
  {
  }

  /** `oConsumeNullRuntimeThrows` as written throws `e` even after consuming a non-null value without error. */
  lemma ConsumeNullRuntimeThrowsAlwaysThrows(e: Exc)
    ensures ConsumeNullRuntimeThrowsAsWritten(Some(Ok(Some("1"))), Some((s: string) => Ok(())), e) ==
              Run(Thrown(e), [Original, NotNull])
    ensures ConsumeNullThrows(Some(Ok(Some("1"))), Some((s: string) => Ok(())), e) == Run(Ok(()), [Original, NotNull])
  {
  }

  /** `oConsumeNullThrows` as written lets a null value through and throws for a null consumer instead. */
  lemma ConsumeNullThrowsAsWrittenSwapsCases(e: Exc)
    ensures ConsumeNullThrowsAsWritten<string>(Some(Ok(None)), Some((s: string) => Ok(())), e).outcome == Ok(())
    ensures ConsumeNullThrowsAsWritten<string>(Some(Ok(Some("1"))), None, e).outcome == Thrown(e)
    ensures ConsumeNullThrows<string>(Some(Ok(None)), Some((s: string) => Ok(())), e).outcome == Thrown(e)
    ensures ConsumeNullThrows<string>(Some(Ok(Some("1"))), None, e).outcome == Ok(())
  {
  }

  /**
   * The documented consume-or-throw: `e` is thrown exactly when the value is
   * null (given a supplier that does not itself throw `e`), and then the
   * consumer does not run.
   */
  lemma ConsumeNullThrowsThrowsIffNull<T>(original: Supplier<T>, oNotNull: Consumer<T>, e: Exc)
    requires Fetched(original).outcome != Thrown(e)
    requires forall t :: oNotNull.Some? ==> oNotNull.value(t) != Thrown(e)
    ensures var r := ConsumeNullThrows(original, oNotNull, e);
            r.outcome == Thrown(e) <==> Fetched(original).outcome == Ok(None)
  {
  }

  /** `oConvert` and its throwing forms agree on non-null values; they differ only in what a null value gives. */
  lemma ConvertFormsAgreeOnValues<T, R>(original: Supplier<T>, oNotNull: Func<T, R>, oNull: Supplier<R>, e: Exc)
    requires Fetched(original).outcome.Ok? && Fetched(original).outcome.value.Some?
    ensures Convert(original, oNotNull, oNull) == ConvertNullThrows(original, oNotNull, e)
  {
  }
}

/** `org.campanula.utils.method.CListUtil`: the older list guards, where absent means a null supplier, `null` or empty. */
module LegacyListUtil {
  import opened Base
  import LegacyObjectUtil

  const ListIsEmpty := "list is empty"

  /** The checked-exception overloads' default message. */
  const ObjectIsNull := "object is null"

  /** `new RuntimeException(message)`: what the message overloads of `listIsEmptyRuntimeThrows` throw. */
  function RuntimeFailure(message: string): (e: Exc)
    ensures e.cls == RuntimeException && e.message == Some(message) && e.cause.None?
  {
    Raise(RuntimeException, message)
  }

  /** `new Exception(message)`: what the message overloads of `listIsEmptyThrows` throw. */
  function CheckedFailure(message: string): (e: Exc)
    ensures e.cls == Exception && e.message == Some(message) && e.cause.None?
  {
    Raise(Exception, message)
  }

  /** A list the guards let through. */
  predicate Usable<T>(l: Option<seq<T>>)
  {
    l.Some? && l.value != []
  }

  /** `listIsEmpty(original, or)`: the supplied list if the supplier is non-null and the list non-empty, else `assist(or)`. */
  function ListOr<T>(original: LegacyObjectUtil.Supplier<seq<T>>, or: LegacyObjectUtil.Supplier<seq<T>>): (r: Run<Option<seq<T>>>)
    ensures OnNull in r.calls <==> (original.None? || (original.value.Ok? && !Usable(original.value.value))) && or.Some?
    ensures original.Some? && original.value.Ok? && Usable(original.value.value) ==> r == Run(original.value, [Original])
    ensures (original.None? || (original.value.Ok? && !Usable(original.value.value))) ==>
              r.outcome == LegacyObjectUtil.Assist(or).outcome
  {
    match original
    case None => LegacyObjectUtil.Assist(or)
    case Some(o) =>
      if o.Ok? && !Usable(o.value) then
        var a := LegacyObjectUtil.Assist(or);
        Run(a.outcome, [Original] + a.calls)
      else Run(o, [Original])
  }

  /**
   * `listIsEmptyRuntimeThrows` and `listIsEmptyThrows`, all three forms of
   * each: the supplied list if non-null and non-empty, else `throw e`.
   */
  function ListOrThrow<T>(original: LegacyObjectUtil.Supplier<seq<T>>, e: Exc): (r: Run<Option<seq<T>>>)
    ensures r.outcome.Ok? <==> original.Some? && original.value.Ok? && Usable(original.value.value)
    ensures r.outcome.Ok? ==> r.outcome == original.value
    ensures original.None? || original == Some(Ok(None)) || original == Some(Ok(Some([]))) ==> r.outcome == Thrown(e)
  {
    match original
    case None => Run(Thrown(e), [])
    case Some(o) => if o.Ok? && !Usable(o.value) then Run(Thrown(e), [Original]) else Run(o, [Original])
  }

  /** A null supplier, a supplier of `null` and one of an empty list are all treated alike. */
  lemma AbsentListsAlike<T>(or: LegacyObjectUtil.Supplier<seq<T>>, e: Exc)
    ensures ListOr(None, or).outcome == ListOr(Some(Ok(None)), or).outcome == ListOr(Some(Ok(Some([]))), or).outcome
    ensures ListOrThrow<T>(None, e).outcome == ListOrThrow<T>(Some(Ok(None)), e).outcome == ListOrThrow<T>(Some(Ok(Some([]))), e).outcome
  {
  }

  /** `listIsEmpty` returns normally with a usable list exactly when the throwing form returns that list. */
  lemma ListOrAgreesWithThrowing<T>(original: LegacyObjectUtil.Supplier<seq<T>>, or: LegacyObjectUtil.Supplier<seq<T>>, e: Exc)
    ensures ListOrThrow(original, e).outcome.Ok? ==> ListOr(original, or) == ListOrThrow(original, e)
    ensures ListOrThrow(original, e).outcome == Thrown(e) && original != Some(Thrown(e)) ==>
              ListOr(original, or).outcome == LegacyObjectUtil.Assist(or).outcome
  {
  }

  /** The default messages: "list is empty" for `RuntimeException`, "object is null" for the checked `Exception`. */
  lemma DefaultMessages<T>()
    ensures ListOrThrow<T>(Some(Ok(Some([]))), RuntimeFailure(ListIsEmpty)).outcome ==
              Thrown(Exc(RuntimeException, Some("list is empty"), None))
    ensures ListOrThrow<T>(None, CheckedFailure(ObjectIsNull)).outcome ==
              Thrown(Exc(Exception, Some("object is null"), None))
  {
  }
}
