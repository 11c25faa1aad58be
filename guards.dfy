/**
 * The null/empty guards of `io.github.campanula.utils.method`: `CObjectUtil`,
 * `CListUtil` and `CMapUtil` share one shape. A supplier produces a value; if
 * it is absent (null, or for collections also empty) a fallback supplier, a
 * callback or an exception supplier takes over, otherwise the value itself or
 * a function of it is used. Every callback is given by how it completes.
 */
module Guard {
  import opened Base

  /** The message of `new ObjectEmptyRuntimeException()`. */
  const ObjectIsNull := "object is null"

  /** `new ObjectEmptyRuntimeException(message)`. */
  function Missing(message: string): (e: Exc)
    ensures e.cls == ObjectEmptyRuntimeException && e.message == Some(message) && e.cause.None?
  {
    Raise(ObjectEmptyRuntimeException, message)
  }

  /** The exception supplier `ObjectEmptyRuntimeException::new` of the overloads without one. */
  const DefaultMissing: Try<Exc> := Ok(Missing(ObjectIsNull))

  /** The supplier `() -> new ObjectEmptyRuntimeException(exceptionMessage)` of the message overloads. */
  function MissingWith(message: string): (e: Try<Exc>)
    ensures e == Ok(Missing(message))
  {
    Ok(Missing(message))
  }

  /** `throw e.get()`: the supplied exception, or the one the supplier itself throws. */
  function Supplied(e: Try<Exc>): (x: Exc)
    ensures e.Ok? ==> x == e.value
    ensures e.Thrown? ==> x == e.exc
  {
    match e
    case Ok(x) => x
    case Thrown(x) => x
  }

  /** `t == null || t.isEmpty()`; `blank` is the emptiness test, constantly false for plain objects. */
  predicate Absent<T>(t: Option<T>, blank: T -> bool)
  {
    t.None? || blank(t.value)
  }

  /** `get(original, nullOr)`: the supplied value unless it is absent, then `nullOr.get()`. */
  function Get<T>(original: Try<Option<T>>, blank: T -> bool, nullOr: Try<Option<T>>): (r: Run<Option<T>>)
    ensures r.calls == [Original] || r.calls == [Original, OnNull]
    ensures OnNull in r.calls <==> original.Ok? && Absent(original.value, blank)
    ensures r.outcome == (if OnNull in r.calls then nullOr else original)
  {
    match original
    case Ok(t) => if Absent(t, blank) then Run(nullOr, [Original, OnNull]) else Run(original, [Original])
    case Thrown(_) => Run(original, [Original])
  }

  /** `getThrows(original, e)`: the supplied value if present, else `throw e.get()`. */
  function GetThrows<T>(original: Try<Option<T>>, blank: T -> bool, e: Try<Exc>): (r: Run<Option<T>>)
    ensures r.outcome.Ok? <==> original.Ok? && !Absent(original.value, blank)
    ensures r.outcome.Ok? ==> r.outcome == original && r.calls == [Original]
    ensures original.Ok? && Absent(original.value, blank) ==>
              r == Run(Thrown(Supplied(e)), [Original, MakeException])
    ensures original.Thrown? ==> r == Run(original, [Original])
  {
    match original
    case Ok(t) => if Absent(t, blank) then Run(Thrown(Supplied(e)), [Original, MakeException]) else Run(original, [Original])
    case Thrown(_) => Run(original, [Original])
  }

  /**
   * `convert(original, oNotNull, oNull)`, and `process`, which is its
   * instance with the result type equal to the value type: `oNotNull` on a
   * present value, `oNull.get()` on an absent one.
   */
  function Convert<T, R>(original: Try<Option<T>>, blank: T -> bool, oNotNull: T -> Try<Option<R>>,
                         oNull: Try<Option<R>>): (r: Run<Option<R>>)
    ensures 1 <= |r.calls| <= 2 && r.calls[0] == Original
    ensures NotNull in r.calls <==> original.Ok? && !Absent(original.value, blank)
    ensures OnNull in r.calls <==> original.Ok? && Absent(original.value, blank)
    ensures NotNull in r.calls ==> r.outcome == oNotNull(original.value.value)
    ensures OnNull in r.calls ==> r.outcome == oNull
    ensures original.Thrown? ==> r == Run(Thrown(original.exc), [Original])
  {
    match original
    case Ok(t) => if Absent(t, blank) then Run(oNull, [Original, OnNull]) else Run(oNotNull(t.value), [Original, NotNull])
    case Thrown(x) => Run(Thrown(x), [Original])
  }

  /** `convertThrows(original, oNotNull, e)`, and `processThrows`: `oNotNull` on a present value, else `throw e.get()`. */
  function ConvertThrows<T, R>(original: Try<Option<T>>, blank: T -> bool, oNotNull: T -> Try<Option<R>>,
                               e: Try<Exc>): (r: Run<Option<R>>)
    ensures 1 <= |r.calls| <= 2 && r.calls[0] == Original
    ensures NotNull in r.calls <==> original.Ok? && !Absent(original.value, blank)
    ensures NotNull in r.calls ==> r.outcome == oNotNull(original.value.value)
    ensures original.Ok? && Absent(original.value, blank) ==>
              r == Run(Thrown(Supplied(e)), [Original, MakeException])
    ensures original.Thrown? ==> r == Run(Thrown(original.exc), [Original])
  {
    match original
    case Ok(t) => if Absent(t, blank) then Run(Thrown(Supplied(e)), [Original, MakeException]) else Run(oNotNull(t.value), [Original, NotNull])
    case Thrown(x) => Run(Thrown(x), [Original])
  }

  /** `consume(original, oNotNull, oNull)`: `oNotNull.accept(t)` on a present value, else `oNull.method()`. */
  function Consume<T>(original: Try<Option<T>>, blank: T -> bool, oNotNull: T -> Try<Unit>, oNull: Try<Unit>): (r: Run<Unit>)
    ensures 1 <= |r.calls| <= 2 && r.calls[0] == Original
    ensures NotNull in r.calls <==> original.Ok? && !Absent(original.value, blank)
    ensures OnNull in r.calls <==> original.Ok? && Absent(original.value, blank)
    ensures NotNull in r.calls ==> r.outcome == oNotNull(original.value.value)
    ensures OnNull in r.calls ==> r.outcome == oNull
    ensures original.Thrown? ==> r == Run(Thrown(original.exc), [Original])
  {
    match original
    case Ok(t) => if Absent(t, blank) then Run(oNull, [Original, OnNull]) else Run(oNotNull(t.value), [Original, NotNull])
    case Thrown(x) => Run(Thrown(x), [Original])
  }

  /** `consumeThrows(original, oNotNull, e)`: `oNotNull.accept(t)` on a present value, else `throw e.get()`. */
  function ConsumeThrows<T>(original: Try<Option<T>>, blank: T -> bool, oNotNull: T -> Try<Unit>, e: Try<Exc>): (r: Run<Unit>)
    ensures 1 <= |r.calls| <= 2 && r.calls[0] == Original
    ensures NotNull in r.calls <==> original.Ok? && !Absent(original.value, blank)
    ensures NotNull in r.calls ==> r.outcome == oNotNull(original.value.value)
    ensures original.Ok? && Absent(original.value, blank) ==>
              r == Run(Thrown(Supplied(e)), [Original, MakeException])
    ensures original.Thrown? ==> r == Run(Thrown(original.exc), [Original])
  {
    match original
    case Ok(t) => if Absent(t, blank) then Run(Thrown(Supplied(e)), [Original, MakeException]) else Run(oNotNull(t.value), [Original, NotNull])
    case Thrown(x) => Run(Thrown(x), [Original])
  }

  /** Guarding a value twice with the same fallback gives what guarding once gives. */
  lemma GetIdempotent<T>(original: Try<Option<T>>, blank: T -> bool, nullOr: Try<Option<T>>)
    ensures var once := Get(original, blank, nullOr).outcome;
            Get(once, blank, nullOr).outcome == once
  {
  }

  /** An absent value comes out of `get` only when the fallback supplied it. */
  lemma GetAbsentOnlyFromFallback<T>(original: Try<Option<T>>, blank: T -> bool, nullOr: Try<Option<T>>)
    ensures var r := Get(original, blank, nullOr);
            r.outcome.Ok? && Absent(r.outcome.value, blank) ==> r.outcome == nullOr && OnNull in r.calls
  {
  }

  /** `convert` with the identity function is `get`. */
  lemma ConvertIdentityIsGet<T>(original: Try<Option<T>>, blank: T -> bool, nullOr: Try<Option<T>>)
    ensures Convert(original, blank, (x: T) => Ok(Some(x)), nullOr).outcome == Get(original, blank, nullOr).outcome
  {
  }

  /**
   * Each `*Throws` form completes as the plain form whose absent-case callback
   * throws what `e.get()` supplies; only the callback recorded differs.
   */
  lemma ThrowsFormsAreThrowingFallbacks<T, R>(original: Try<Option<T>>, blank: T -> bool,
                                              f: T -> Try<Option<R>>, c: T -> Try<Unit>, e: Try<Exc>)
    ensures GetThrows(original, blank, e).outcome == Get(original, blank, Thrown(Supplied(e))).outcome
    ensures ConvertThrows(original, blank, f, e).outcome == Convert(original, blank, f, Thrown(Supplied(e))).outcome
    ensures ConsumeThrows(original, blank, c, e).outcome == Consume(original, blank, c, Thrown(Supplied(e))).outcome
  {
  }

  /** Once the supplier returns, exactly one of the two callbacks of `consume` and `convert` runs, once. */
  lemma {:induction false} ExactlyOneCallback<T, R>(original: Try<Option<T>>, blank: T -> bool,
                                                    f: T -> Try<Option<R>>, g: Try<Option<R>>, c: T -> Try<Unit>, u: Try<Unit>)
    requires original.Ok?
    ensures var r := Convert(original, blank, f, g);
            Count(r.calls, NotNull) + Count(r.calls, OnNull) == 1 && Count(r.calls, Original) == 1
    ensures var r := Consume(original, blank, c, u);
            Count(r.calls, NotNull) + Count(r.calls, OnNull) == 1 && Count(r.calls, Original) == 1
  {
    var r1 := Convert(original, blank, f, g);
    var r2 := Consume(original, blank, c, u);
    var second := if Absent(original.value, blank) then OnNull else NotNull;
    assert r1.calls == r2.calls == [Original, second];
    assert r1.calls[1..] == [second] && r1.calls[1..][1..] == [];
  }

  /** The `*Throws` overloads without an exception throw `ObjectEmptyRuntimeException("object is null")` on absence. */
  lemma DefaultExceptionOnAbsence<T, R>(blank: T -> bool, f: T -> Try<Option<R>>, c: T -> Try<Unit>)
    ensures GetThrows(Ok(None), blank, DefaultMissing).outcome == Thrown(Exc(ObjectEmptyRuntimeException, Some("object is null"), None))
    ensures ConvertThrows(Ok(None), blank, f, DefaultMissing).outcome == Thrown(Exc(ObjectEmptyRuntimeException, Some("object is null"), None))
    ensures ConsumeThrows(Ok(None), blank, c, DefaultMissing).outcome == Thrown(Exc(ObjectEmptyRuntimeException, Some("object is null"), None))
  {
  }
}

/** `io.github.campanula.utils.method.CObjectUtil`: the guards where absent means `null`. */
module ObjectUtil {
  import opened Base
  import Guard

  /** A plain object is never blank; only `null` is absent. */
  predicate NeverBlank<T>(t: T)
  {
    false
  }

  function Get<T>(original: Try<Option<T>>, nullOr: Try<Option<T>>): (r: Run<Option<T>>)
    ensures r.outcome == (if original == Ok(None) then nullOr else original)
    ensures OnNull in r.calls <==> original == Ok(None)
  {
    Guard.Get(original, NeverBlank, nullOr)
  }

  function GetThrows<T>(original: Try<Option<T>>, e: Try<Exc>): (r: Run<Option<T>>)
    ensures r.outcome.Ok? <==> original.Ok? && original.value.Some?
    ensures r.outcome.Ok? ==> r.outcome == original
    ensures original == Ok(None) ==> r.outcome == Thrown(Guard.Supplied(e))
  {
    Guard.GetThrows(original, NeverBlank, e)
  }

  function Convert<T, R>(original: Try<Option<T>>, oNotNull: T -> Try<Option<R>>, oNull: Try<Option<R>>): (r: Run<Option<R>>)
    ensures NotNull in r.calls <==> original.Ok? && original.value.Some?
    ensures OnNull in r.calls <==> original == Ok(None)
    ensures original.Ok? ==> r.outcome == (if original.value.Some? then oNotNull(original.value.value) else oNull)
  {
    Guard.Convert(original, NeverBlank, oNotNull, oNull)
  }

  function ConvertThrows<T, R>(original: Try<Option<T>>, oNotNull: T -> Try<Option<R>>, e: Try<Exc>): (r: Run<Option<R>>)
    ensures NotNull in r.calls <==> original.Ok? && original.value.Some?
    ensures original.Ok? ==> r.outcome == (if original.value.Some? then oNotNull(original.value.value) else Thrown(Guard.Supplied(e)))
  {
    Guard.ConvertThrows(original, NeverBlank, oNotNull, e)
  }

  function Consume<T>(original: Try<Option<T>>, oNotNull: T -> Try<Unit>, oNull: Try<Unit>): (r: Run<Unit>)
    ensures NotNull in r.calls <==> original.Ok? && original.value.Some?
    ensures OnNull in r.calls <==> original == Ok(None)
    ensures original.Ok? ==> r.outcome == (if original.value.Some? then oNotNull(original.value.value) else oNull)
  {
    Guard.Consume(original, NeverBlank, oNotNull, oNull)
  }

  function ConsumeThrows<T>(original: Try<Option<T>>, oNotNull: T -> Try<Unit>, e: Try<Exc>): (r: Run<Unit>)
    ensures NotNull in r.calls <==> original.Ok? && original.value.Some?
    ensures original.Ok? ==> r.outcome == (if original.value.Some? then oNotNull(original.value.value) else Thrown(Guard.Supplied(e)))
  {
    Guard.ConsumeThrows(original, NeverBlank, oNotNull, e)
  }

  /** The test's calls with callbacks returning constants. */
  lemma ObjectUtilTest(e: Exc)
    ensures Get(Ok(Some("1")), Ok(Some("2"))).outcome == Ok(Some("1"))
    ensures Get(Ok(None), Ok(Some("2"))).outcome == Ok(Some("2"))
    ensures GetThrows(Ok(Some("1")), Ok(e)).outcome == Ok(Some("1"))
    ensures GetThrows<string>(Ok(None), Ok(e)).outcome == Thrown(e)
    ensures Convert(Ok(Some("1")), (s: string) => Ok(Some(2)), Ok(Some(3))).outcome == Ok(Some(2))
    ensures Convert(Ok(None), (s: string) => Ok(Some(2)), Ok(Some(3))).outcome == Ok(Some(3))
    ensures ConvertThrows(Ok(None), (s: string) => Ok(Some(2)), Ok(e)).outcome == Thrown(e)
  {
  }
}

/** `io.github.campanula.utils.method.CListUtil`: absent means `null` or `isEmpty()`. */
module ListUtil {
  import opened Base
  import Guard

  /** `List.isEmpty()`. */
  predicate EmptyList<T>(s: seq<T>)
  {
    |s| == 0
  }

  /** A list that passes the guard: non-null and non-empty. */
  predicate Usable<T>(l: Option<seq<T>>)
  {
    l.Some? && l.value != []
  }

  function Get<T>(original: Try<Option<seq<T>>>, nullOr: Try<Option<seq<T>>>): (r: Run<Option<seq<T>>>)
    ensures OnNull in r.calls <==> original.Ok? && !Usable(original.value)
    ensures r.outcome == (if OnNull in r.calls then nullOr else original)
    ensures r.outcome.Ok? && OnNull !in r.calls ==> Usable(r.outcome.value)
  {
    Guard.Get(original, EmptyList, nullOr)
  }

  function GetThrows<T>(original: Try<Option<seq<T>>>, e: Try<Exc>): (r: Run<Option<seq<T>>>)
    ensures r.outcome.Ok? <==> original.Ok? && Usable(original.value)
    ensures r.outcome.Ok? ==> r.outcome == original
    ensures original == Ok(None) || original == Ok(Some([])) ==> r.outcome == Thrown(Guard.Supplied(e))
  {
    Guard.GetThrows(original, EmptyList, e)
  }

  function Convert<T, R>(original: Try<Option<seq<T>>>, oNotNull: seq<T> -> Try<Option<seq<R>>>,
                         oNull: Try<Option<seq<R>>>): (r: Run<Option<seq<R>>>)
    ensures NotNull in r.calls <==> original.Ok? && Usable(original.value)
    ensures NotNull in r.calls ==> r.outcome == oNotNull(original.value.value) && original.value.value != []
    ensures original.Ok? && !Usable(original.value) ==> r.outcome == oNull
  {
    Guard.Convert(original, EmptyList, oNotNull, oNull)
  }

  function ConvertThrows<T, R>(original: Try<Option<seq<T>>>, oNotNull: seq<T> -> Try<Option<seq<R>>>, e: Try<Exc>): (r: Run<Option<seq<R>>>)
    ensures NotNull in r.calls <==> original.Ok? && Usable(original.value)
    ensures NotNull in r.calls ==> r.outcome == oNotNull(original.value.value)
    ensures original.Ok? && !Usable(original.value) ==> r.outcome == Thrown(Guard.Supplied(e))
  {
    Guard.ConvertThrows(original, EmptyList, oNotNull, e)
  }

  function Consume<T>(original: Try<Option<seq<T>>>, oNotNull: seq<T> -> Try<Unit>, oNull: Try<Unit>): (r: Run<Unit>)
    ensures NotNull in r.calls <==> original.Ok? && Usable(original.value)
    ensures OnNull in r.calls <==> original.Ok? && !Usable(original.value)
    ensures original.Ok? ==> r.outcome == (if Usable(original.value) then oNotNull(original.value.value) else oNull)
  {
    Guard.Consume(original, EmptyList, oNotNull, oNull)
  }

  function ConsumeThrows<T>(original: Try<Option<seq<T>>>, oNotNull: seq<T> -> Try<Unit>, e: Try<Exc>): (r: Run<Unit>)
    ensures NotNull in r.calls <==> original.Ok? && Usable(original.value)
    ensures original.Ok? && !Usable(original.value) ==> r.outcome == Thrown(Guard.Supplied(e))
  {
    Guard.ConsumeThrows(original, EmptyList, oNotNull, e)
  }

  /** An empty list is treated exactly like `null` by every guard. */
  lemma EmptyListIsNull<T, R>(nullOr: Try<Option<seq<T>>>, f: seq<T> -> Try<Option<seq<R>>>, g: Try<Option<seq<R>>>,
                              c: seq<T> -> Try<Unit>, u: Try<Unit>, e: Try<Exc>)
    ensures Get(Ok(Some([])), nullOr) == Get(Ok(None), nullOr)
    ensures GetThrows<T>(Ok(Some([])), e) == GetThrows<T>(Ok(None), e)
    ensures Convert(Ok(Some([])), f, g) == Convert(Ok(None), f, g)
    ensures ConvertThrows(Ok(Some([])), f, e) == ConvertThrows(Ok(None), f, e)
    ensures Consume(Ok(Some([])), c, u) == Consume(Ok(None), c, u)
    ensures ConsumeThrows(Ok(Some([])), c, e) == ConsumeThrows(Ok(None), c, e)
  {
  }
}

/** `io.github.campanula.utils.method.CMapUtil`: absent means `null` or `isEmpty()`. */
module MapUtil {
  import opened Base
  import Guard

  /** `Map.isEmpty()`. */
  predicate EmptyMap<K, V>(m: map<K, V>)
  {
    |m| == 0
  }

  /** A map that passes the guard: non-null and non-empty. */
  predicate Usable<K, V>(m: Option<map<K, V>>)
  {
    m.Some? && m.value != map[]
  }

  function Get<K, V>(original: Try<Option<map<K, V>>>, nullOr: Try<Option<map<K, V>>>): (r: Run<Option<map<K, V>>>)
    ensures OnNull in r.calls <==> original.Ok? && !Usable(original.value)
    ensures r.outcome == (if OnNull in r.calls then nullOr else original)
    ensures r.outcome.Ok? && OnNull !in r.calls ==> Usable(r.outcome.value)
  {
    Guard.Get(original, EmptyMap, nullOr)
  }

  function GetThrows<K, V>(original: Try<Option<map<K, V>>>, e: Try<Exc>): (r: Run<Option<map<K, V>>>)
    ensures r.outcome.Ok? <==> original.Ok? && Usable(original.value)
    ensures r.outcome.Ok? ==> r.outcome == original
    ensures original == Ok(None) || original == Ok(Some(map[])) ==> r.outcome == Thrown(Guard.Supplied(e))
  {
    Guard.GetThrows(original, EmptyMap, e)
  }

  function Convert<K, V, K1, V1>(original: Try<Option<map<K, V>>>, oNotNull: map<K, V> -> Try<Option<map<K1, V1>>>,
                                 oNull: Try<Option<map<K1, V1>>>): (r: Run<Option<map<K1, V1>>>)
    ensures NotNull in r.calls <==> original.Ok? && Usable(original.value)
    ensures NotNull in r.calls ==> r.outcome == oNotNull(original.value.value)
    ensures original.Ok? && !Usable(original.value) ==> r.outcome == oNull
  {
    Guard.Convert(original, EmptyMap, oNotNull, oNull)
  }

  function ConvertThrows<K, V, K1, V1>(original: Try<Option<map<K, V>>>, oNotNull: map<K, V> -> Try<Option<map<K1, V1>>>,
                                       e: Try<Exc>): (r: Run<Option<map<K1, V1>>>)
    ensures NotNull in r.calls <==> original.Ok? && Usable(original.value)
    ensures NotNull in r.calls ==> r.outcome == oNotNull(original.value.value)
    ensures original.Ok? && !Usable(original.value) ==> r.outcome == Thrown(Guard.Supplied(e))
  {
    Guard.ConvertThrows(original, EmptyMap, oNotNull, e)
  }

  function Consume<K, V>(original: Try<Option<map<K, V>>>, oNotNull: map<K, V> -> Try<Unit>, oNull: Try<Unit>): (r: Run<Unit>)
    ensures NotNull in r.calls <==> original.Ok? && Usable(original.value)
    ensures OnNull in r.calls <==> original.Ok? && !Usable(original.value)
    ensures original.Ok? ==> r.outcome == (if Usable(original.value) then oNotNull(original.value.value) else oNull)
  {
    Guard.Consume(original, EmptyMap, oNotNull, oNull)
  }

  function ConsumeThrows<K, V>(original: Try<Option<map<K, V>>>, oNotNull: map<K, V> -> Try<Unit>, e: Try<Exc>): (r: Run<Unit>)
    ensures NotNull in r.calls <==> original.Ok? && Usable(original.value)
    ensures original.Ok? && !Usable(original.value) ==> r.outcome == Thrown(Guard.Supplied(e))
  {
    Guard.ConsumeThrows(original, EmptyMap, oNotNull, e)
  }

  /** The test's `get` calls: a filled map is kept; an empty map and `null` both give the fallback. */
  lemma MapGetTest()
    ensures Get(Ok(Some(map["key" := "1"])), Ok(Some(map["key" := "2"]))).outcome == Ok(Some(map["key" := "1"]))
    ensures Get(Ok(Some(map[])), Ok(Some(map["key" := "2"]))).outcome == Ok(Some(map["key" := "2"]))
    ensures Get(Ok(None), Ok(Some(map["key" := "3"]))).outcome == Ok(Some(map["key" := "3"]))
  {
    assert map["key" := "1"] != map[] by { assert "key" in map["key" := "1"]; }
  }

  /** The test's `process` call: adding a second entry to a one-entry map gives two entries; `null` gives the fallback. */
  lemma MapProcessTest()
    ensures var put := (m: map<string, string>) => Ok(Some(m["value" := "2"]));
            var r := Convert(Ok(Some(map["key" := "1"])), put, Ok(Some(map["key" := "3"])));
            r.outcome.Ok? && r.outcome.value.Some? && |r.outcome.value.value| == 2
    ensures var r := Convert(Ok(None), (m: map<string, string>) => Ok(None), Ok(Some(map["key" := "3"])));
            r.outcome == Ok(Some(map["key" := "3"]))
  {
    var m := map["key" := "1"];
    assert "key" in m;
    assert m["value" := "2"].Keys == {"key", "value"};
  }
}
