/**
 * The proxy scenario of the library's own test: a `Demo` target whose two
 * methods add one, a before chain (a null-argument check, then an add-one on
 * every Integer argument) and an after chain of two subtract-one handles.
 * Only the method annotated `@DemoProxy` is affected by the handles.
 */
module ProxyScenario {
  import opened Base
  import opened ProxyParam
  import opened ProxyHandle
  import opened Invocation

  const DemoProxy := "DemoProxy"

  /** `DemoInterface.plusOneProxy`, carrying the `@DemoProxy` marker. */
  const PlusOneProxy := MethodId("plusOneProxy", {DemoProxy}, None)

  /** `DemoInterface.plusOne`, carrying no marker. */
  const PlusOne := MethodId("plusOne", {}, None)

  /** `method.getAnnotation(DemoProxy.class)` on a possibly-null method. */
  function Marked(m: Option<MethodId>): (r: Try<bool>)
    ensures r.Thrown? <==> m.None?
    ensures r.Thrown? ==> r.exc == NullPointer
    ensures r.Ok? ==> (r.value <==> DemoProxy in m.value.markers)
  {
    if m.None? then Thrown(NullPointer) else Ok(DemoProxy in m.value.markers)
  }

  /** `ArgsNullCheckBefore.operate`: on a marked method, a null argument throws NullPointerException. */
  function ArgsNullCheck(f: BeforeFields): (r: Try<BeforeFields>)
    ensures r.Ok? ==> r.value == f
    ensures f.callee.Some? && DemoProxy in f.callee.value.markers && f.args.Some? ==>
              (r.Thrown? <==> Null in f.args.value)
  {
    match Marked(f.callee)
    case Thrown(e) => Thrown(e)
    case Ok(marked) =>
      if !marked then Ok(f)
      else if f.args.None? then Thrown(NullPointer)
      else if Null in f.args.value then Thrown(NullPointer)
      else Ok(f)
  }

  /** Each Integer argument plus one, the others unchanged. */
  function Incremented(args: seq<Value>): (r: seq<Value>)
    ensures |r| == |args|
    ensures forall i :: 0 <= i < |args| ==> r[i] == (if args[i].Int? then Int(args[i].i + 1) else args[i])
  {
    seq(|args|, i requires 0 <= i < |args| => if args[i].Int? then Int(args[i].i + 1) else args[i])
  }

  /** `PlusOneBefore.operate`: on a marked method, every Integer argument is incremented. */
  function PlusOneArgs(f: BeforeFields): (r: Try<BeforeFields>)
    ensures r.Ok? ==> r.value.proxy == f.proxy && r.value.callee == f.callee
    ensures f.callee.Some? && DemoProxy !in f.callee.value.markers ==> r == Ok(f)
    ensures f.callee.Some? && DemoProxy in f.callee.value.markers && f.args.Some? ==>
              r.Ok? && r.value.args == Some(Incremented(f.args.value))
  {
    match Marked(f.callee)
    case Thrown(e) => Thrown(e)
    case Ok(marked) =>
      if !marked then Ok(f)
      else if f.args.None? then Thrown(NullPointer)
      else Ok(f.(args := Some(Incremented(f.args.value))))
  }

  /**
   * `SubtractOneAfter.operate`: on a marked method the result is cast to
   * Integer and one is subtracted; a null result fails on unboxing.
   */
  function SubtractOne(f: AfterFields): (r: Try<AfterFields>)
    ensures r.Ok? ==> r.value.(result := f.result) == f
    ensures f.callee.Some? && DemoProxy !in f.callee.value.markers ==> r == Ok(f)
    ensures f.callee.Some? && DemoProxy in f.callee.value.markers ==>
              (f.result.Int? ==> r == Ok(f.(result := Int(f.result.i - 1)))) &&
              (f.result == Null ==> r == Thrown(NullPointer))
  {
    match Marked(f.callee)
    case Thrown(e) => Thrown(e)
    case Ok(marked) =>
      if !marked then Ok(f)
      else
        match f.result
        case Int(n) => Ok(f.(result := Int(n - 1)))
        case Null => Thrown(NullPointer)
        case _ => Thrown(Exc(OtherClass("ClassCastException"), None, None))
  }

  /** What `Method.invoke` throws, unwrapped, for a call whose arguments do not fit the parameters. */
  function IllegalArgument(message: string): Exc
  {
    Exc(OtherClass("IllegalArgumentException"), Some(message), None)
  }

  /**
   * `Demo`: both methods take one Integer, map null to 1 and `x` to `x + 1`
   * and write no field. Reflection refuses any other argument count or an
   * argument that is not an Integer before the body runs.
   */
  function Demo(o: ObjRef, m: MethodId, args: Args, s: Store): Call
  {
    if args.None? || |args.value| != 1 then Refused(IllegalArgument("wrong number of arguments"))
    else if args.value[0] == Null then Ran(Ok(Int(1)), s)
    else if args.value[0].Int? then Ran(Ok(Int(args.value[0].i + 1)), s)
    else Refused(IllegalArgument("argument type mismatch"))
  }

  const Befores: seq<BeforeOperate> := [FieldsOnly(ArgsNullCheck), FieldsOnly(PlusOneArgs)]
  const Afters: seq<AfterOperate> := [AfterFieldsOnly(SubtractOne), AfterFieldsOnly(SubtractOne)]

  /** A call through the proxy the test builds with the newer handler. */
  function CallProxy(t: ObjRef, m: MethodId, x: Value, s: Store): Invoked
  {
    InvokeSpec(Some(Befores), Some(Afters), Demo, Some(t), Some(m), Some([x]), s)
  }

  /** `plusOneProxy(null)` throws CampanulaRuntimeException: the null check stops the call. */
  lemma MarkedNullArgumentThrows(t: ObjRef, s: Store)
    ensures CallProxy(t, PlusOneProxy, Null, s) == Invoked(Some(t), s, Thrown(WrapCampanula(NullPointer)))
  {
    var f := BeforeFields(Some(t), Some(PlusOneProxy), Some([Null]));
    assert ArgsNullCheck(f) == Thrown(NullPointer);
    assert RunBefore(Befores, Some(f), s, 1) == BeforeRun(Some(f), s, Some(NullPointer), 0);
    RunBeforeSticks(Befores, Some(f), s, 1, 2);
  }

  /** `plusOneProxy(x)` returns `x`: one is added before the call, the call adds one, two are subtracted. */
  lemma MarkedCallIsIdentity(t: ObjRef, x: int, s: Store)
    ensures CallProxy(t, PlusOneProxy, Int(x), s) == Invoked(Some(t), s, Ok(Int(x)))
  {
    var f := BeforeFields(Some(t), Some(PlusOneProxy), Some([Int(x)]));
    assert ArgsNullCheck(f) == Ok(f);
    var g := f.(args := Some([Int(x + 1)]));
    assert Incremented([Int(x)]) == [Int(x + 1)];
    assert PlusOneArgs(f) == Ok(g);
    assert RunBefore(Befores, Some(f), s, 1) == BeforeRun(Some(f), s, None, 1);
    assert RunBefore(Befores, Some(f), s, 2) == BeforeRun(Some(g), s, None, 2);
    assert Demo(t, PlusOneProxy, g.args, s) == Ran(Ok(Int(x + 2)), s);
    var a := AfterFields(Some(t), Some(PlusOneProxy), Some([Int(x + 1)]), Int(x + 2));
    assert SubtractOne(a) == Ok(a.(result := Int(x + 1)));
    assert SubtractOne(a.(result := Int(x + 1))) == Ok(a.(result := Int(x)));
    assert RunAfter(Afters, Some(a), s, 1) == AfterRun(Some(a.(result := Int(x + 1))), s, None, 1);
    assert RunAfter(Afters, Some(a), s, 2) == AfterRun(Some(a.(result := Int(x))), s, None, 2);
  }

  /** `plusOne` carries no marker, so the handles leave it alone: null gives 1 and `x` gives `x + 1`. */
  lemma UnmarkedCallUntouched(t: ObjRef, x: Value, s: Store)
    requires x == Null || x.Int?
    ensures CallProxy(t, PlusOne, x, s) == Invoked(Some(t), s, Ok(if x == Null then Int(1) else Int(x.i + 1)))
  {
    var f := BeforeFields(Some(t), Some(PlusOne), Some([x]));
    assert ArgsNullCheck(f) == Ok(f);
    assert PlusOneArgs(f) == Ok(f);
    assert RunBefore(Befores, Some(f), s, 1) == BeforeRun(Some(f), s, None, 1);
    assert RunBefore(Befores, Some(f), s, 2) == BeforeRun(Some(f), s, None, 2);
    var v := if x == Null then Int(1) else Int(x.i + 1);
    assert Demo(t, PlusOne, f.args, s) == Ran(Ok(v), s);
    var a := AfterFields(Some(t), Some(PlusOne), Some([x]), v);
    assert SubtractOne(a) == Ok(a);
    assert RunAfter(Afters, Some(a), s, 1) == AfterRun(Some(a), s, None, 1);
    assert RunAfter(Afters, Some(a), s, 2) == AfterRun(Some(a), s, None, 2);
  }

  /** A before handle that replaces the arguments by an empty array, as `setArgs(new Object[0])` does. */
  function DropArgs(f: BeforeFields): Try<BeforeFields>
  {
    Ok(f.(args := Some([])))
  }

  /**
   * Behind a handle that empties the arguments, reflection refuses the call
   * before the body runs: the handler throws CampanulaRuntimeException
   * directly around the IllegalArgumentException, not around an
   * InvocationTargetException, and no field is written.
   */
  lemma DroppedArgumentsRefused(t: ObjRef, m: MethodId, x: Value, s: Store)
    ensures InvokeSpec(Some([FieldsOnly(DropArgs)]), None, Demo, Some(t), Some(m), Some([x]), s) ==
            Invoked(Some(t), s, Thrown(WrapCampanula(IllegalArgument("wrong number of arguments"))))
  {
    var f := BeforeFields(Some(t), Some(m), Some([x]));
    assert RunBefore([FieldsOnly(DropArgs)], Some(f), s, 1) == BeforeRun(Some(f.(args := Some([]))), s, None, 1);
  }
}
