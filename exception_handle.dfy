/**
 * `io.github.campanula.utils.param.CExceptionHandle`: a handle built in
 * either result mode (handlers are functions of the exception) or blank mode
 * (handlers are consumers of the exception), and its `handle` scan.
 */
module ExceptionHandle {
  import opened Base
  import opened ExceptionDispatch

  /** A `Function<EX, EF>` handler. */
  type Recover<V> = Exc -> Try<V>

  /** A `Consumer<EX>` handler. */
  type Absorb = Exc -> Try<Unit>

  /**
   * `handle(e)` on a handle whose result-mode table is `rt` and blank-mode
   * table is `bt`: the handler of the first exact match runs on `e`, else the
   * fallback runs on `e`, else `e` is rethrown wrapped.
   */
  function Handled<V>(mode: Mode, rt: Table<Recover<V>>, bt: Table<Absorb>, e: Exc): (r: Run<Option<V>>)
    requires mode == ResultMode ==> Aligned(rt)
    requires mode == BlankMode ==> Aligned(bt)
    ensures mode == ResultMode ==> r.calls == ChosenCalls(Choose(rt, e.cls))
    ensures mode == BlankMode ==> r.calls == ChosenCalls(Choose(bt, e.cls))
    ensures r.calls == [] ==> r.outcome == Thrown(Unmatched(e))
    ensures mode == BlankMode && r.outcome.Ok? ==> r.outcome.value.None?
  {
    match mode
    case ResultMode =>
      (match Choose(rt, e.cls)
       case Specific(i) => Run(Returned(rt.handlers[i](e)), [Catch(i)])
       case Fallback => Run(Returned(rt.fallback.value(e)), [CatchAll])
       case Unhandled => Run(Thrown(Unmatched(e)), []))
    case BlankMode =>
      match Choose(bt, e.cls)
      case Specific(i) => Run(Consumed(bt.handlers[i](e)), [Catch(i)])
      case Fallback => Run(Consumed(bt.fallback.value(e)), [CatchAll])
      case Unhandled => Run(Thrown(Unmatched(e)), [])
  }

  /** The handle itself; only the builders below create one. */
  class Handle<V> {
    var exceptions: seq<ExcClass>
    var suppliers: seq<Recover<V>>
    var voidMethods: seq<Absorb>
    var exceptionFunction: Option<Recover<V>>
    var exceptionConsumer: Option<Absorb>
    var mode: Mode

    /** The private constructor together with the builder's initialisation of its own mode. */
    constructor (mode: Mode)
      ensures Valid() && this.mode == mode
      ensures ResultTable() == EmptyTable() && BlankTable() == EmptyTable()
    {
      exceptions := [];
      suppliers := [];
      voidMethods := [];
      exceptionFunction := None;
      exceptionConsumer := None;
      this.mode := mode;
    }

    /** The registrations of result mode. */
    function ResultTable(): Table<Recover<V>>
      reads this
    {
      Table(exceptions, suppliers, exceptionFunction)
    }

    /** The registrations of blank mode. */
    function BlankTable(): Table<Absorb>
      reads this
    {
      Table(exceptions, voidMethods, exceptionConsumer)
    }

    /** The handler list of the handle's own mode is aligned with `exceptions`; the other mode's slots stay empty. */
    ghost predicate Valid()
      reads this
    {
      match mode
      case ResultMode => Aligned(ResultTable()) && voidMethods == [] && exceptionConsumer.None?
      case BlankMode => Aligned(BlankTable()) && suppliers == [] && exceptionFunction.None?
    }

    /** `handle(e)`: the index scan with early return. */
    method Handle(e: Exc) returns (r: Run<Option<V>>)
      requires Valid()
      ensures r == Handled(mode, ResultTable(), BlankTable(), e)
    {
      var size := |exceptions|;
      if mode == ResultMode {
        for i := 0 to size
          invariant forall j :: 0 <= j < i ==> exceptions[j] != e.cls
        {
          if e.cls == exceptions[i] {
            assert Choose(ResultTable(), e.cls) == Specific(i);
            return Run(Returned(suppliers[i](e)), [Catch(i)]);
          }
        }
        if exceptionFunction.Some? {
          return Run(Returned(exceptionFunction.value(e)), [CatchAll]);
        } else {
          return Run(Thrown(Unmatched(e)), []);
        }
      } else {
        for i := 0 to size
          invariant forall j :: 0 <= j < i ==> exceptions[j] != e.cls
        {
          if e.cls == exceptions[i] {
            assert Choose(BlankTable(), e.cls) == Specific(i);
            return Run(Consumed(voidMethods[i](e)), [Catch(i)]);
          }
        }
        if exceptionConsumer.Some? {
          return Run(Consumed(exceptionConsumer.value(e)), [CatchAll]);
        } else {
          return Run(Thrown(Unmatched(e)), []);
        }
      }
    }
  }

  /** `CExceptionHandle.Result`: assembles a result-mode handle. */
  class ResultBuilder<V> {
    const handle: Handle<V>

    ghost predicate Valid()
      reads this, handle
    {
      handle.Valid() && handle.mode == ResultMode
    }

    /** `aResult()` */
    constructor ()
      ensures Valid() && fresh(handle)
      ensures handle.ResultTable() == EmptyTable()
    {
      handle := new Handle(ResultMode);
    }

    /** `add(eClass, function)`: returns the builder itself. */
    method Add(c: ExcClass, f: Recover<V>) returns (b: ResultBuilder<V>)
      requires Valid()
      modifies handle
      ensures b == this && Valid()
      ensures handle.ResultTable() == Added(old(handle.ResultTable()), c, f)
    {
      if c == Exception {
        handle.exceptionFunction := Some(f);
        return this;
      }
      handle.suppliers := handle.suppliers + [f];
      handle.exceptions := handle.exceptions + [c];
      return this;
    }

    method GetHandle() returns (h: Handle<V>)
      ensures h == handle
    {
      h := handle;
    }
  }

  /** `CExceptionHandle.Blank`: assembles a blank-mode handle. */
  class BlankBuilder<V> {
    const handle: Handle<V>

    ghost predicate Valid()
      reads this, handle
    {
      handle.Valid() && handle.mode == BlankMode
    }

    /** `aBlank()` */
    constructor ()
      ensures Valid() && fresh(handle)
      ensures handle.BlankTable() == EmptyTable()
    {
      handle := new Handle(BlankMode);
    }

    /** `add(eClass, consumer)`: returns the builder itself. */
    method Add(c: ExcClass, f: Absorb) returns (b: BlankBuilder<V>)
      requires Valid()
      modifies handle
      ensures b == this && Valid()
      ensures handle.BlankTable() == Added(old(handle.BlankTable()), c, f)
    {
      if c == Exception {
        handle.exceptionConsumer := Some(f);
        return this;
      }
      handle.voidMethods := handle.voidMethods + [f];
      handle.exceptions := handle.exceptions + [c];
      return this;
    }

    method GetHandle() returns (h: Handle<V>)
      ensures h == handle
    {
      h := handle;
    }
  }

  /** In result mode the registered function of the first exact match is applied to `e` itself. */
  lemma ResultAppliesFirstMatch<V>(rt: Table<Recover<V>>, bt: Table<Absorb>, e: Exc, i: nat)
    requires Aligned(rt) && i < |rt.classes| && rt.classes[i] == e.cls
    requires forall j :: 0 <= j < i ==> rt.classes[j] != e.cls
    ensures Handled(ResultMode, rt, bt, e) == Run(Returned(rt.handlers[i](e)), [Catch(i)])
  {
    assert Choose(rt, e.cls).index == i;
  }

  /** Without an exact match the fallback registered for `Exception` is applied, and only it. */
  lemma ResultFallsBack<V>(rt: Table<Recover<V>>, bt: Table<Absorb>, e: Exc)
    requires Aligned(rt) && e.cls !in rt.classes && rt.fallback.Some?
    ensures Handled(ResultMode, rt, bt, e) == Run(Returned(rt.fallback.value(e)), [CatchAll])
  {
  }

  /** In blank mode the chosen consumer runs exactly once and `null` is returned unless it throws. */
  lemma BlankRunsOneConsumer<V>(rt: Table<Recover<V>>, bt: Table<Absorb>, e: Exc)
    requires Aligned(bt) && (e.cls in bt.classes || bt.fallback.Some?)
    ensures var r := Handled(BlankMode, rt, bt, e);
            |r.calls| == 1 && (r.outcome.Ok? ==> r.outcome == Ok(None))
  {
  }

  /**
   * The test's registration order: a handler for ArithmeticException then
   * one for `Exception`; an ArithmeticException gets the specific handler,
   * any other exception the fallback.
   */
  lemma SpecificBeatsFallback<V>(specific: Recover<V>, fallback: Recover<V>, bt: Table<Absorb>, e: Exc)
    ensures var rt := Added(Added(EmptyTable(), ArithmeticException, specific), Exception, fallback);
            Handled(ResultMode, rt, bt, e) ==
              if e.cls == ArithmeticException then Run(Returned(specific(e)), [Catch(0)])
              else Run(Returned(fallback(e)), [CatchAll])
  {
    var t0: Table<Recover<V>> := EmptyTable();
    var t1 := Added(t0, ArithmeticException, specific);
    assert t1.classes == [ArithmeticException];
  }

  /** A handle with only a non-matching registration rethrows the exception wrapped in RuntimeException. */
  lemma NonMatchingRethrows<V>(specific: Recover<V>, bt: Table<Absorb>, e: Exc)
    requires e.cls != NullPointerException
    ensures var rt := Added(EmptyTable(), NullPointerException, specific);
            Handled(ResultMode, rt, bt, e) == Run(Thrown(Unmatched(e)), [])
  {
    var t0: Table<Recover<V>> := EmptyTable();
    assert Added(t0, NullPointerException, specific).classes == [NullPointerException];
  }
}
