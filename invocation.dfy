/**
 * The two revisions of the JDK `InvocationHandler` that run a before chain,
 * the real call and an after chain. The newer one (package `protogenesis`)
 * adopts what the chains leave in their contexts; the older one runs the
 * chains for their effects only.
 */
module Invocation {
  import opened Base
  import opened ProxyParam
  import opened ProxyHandle

  /** What `method.invoke` leaves: the outcome it returns or throws, and the field store. */
  datatype Effect = Effect(outcome: Try<Value>, store: Store)

  /**
   * What `Method.invoke` does with a receiver and arguments: it refuses them
   * before any body runs (IllegalArgumentException for a receiver that is not
   * an instance of the declaring class, or arguments that do not fit the
   * parameters), or it runs the body, which returns or throws and writes to
   * the objects' fields.
   */
  datatype Call = Refused(exc: Exc) | Ran(outcome: Try<Value>, store: Store)

  /** What the target's methods do when called. */
  type Target = (ObjRef, MethodId, Args, Store) -> Call

  /**
   * `method.invoke(t, args)`: a null method or a null receiver throws
   * NullPointerException before the body runs; a refused call throws its own
   * exception, unwrapped, and writes nothing; an exception thrown by the body
   * arrives wrapped in InvocationTargetException.
   */
  function Reflect(impl: Target, t: Option<ObjRef>, m: Option<MethodId>, args: Args, s: Store): (r: Effect)
    ensures m.None? || t.None? ==> r == Effect(Thrown(NullPointer), s)
    ensures m.Some? && t.Some? && impl(t.value, m.value, args, s).Refused? ==>
              r == Effect(Thrown(impl(t.value, m.value, args, s).exc), s)
    ensures m.Some? && t.Some? && impl(t.value, m.value, args, s).Ran? ==>
              var e := impl(t.value, m.value, args, s);
              r.store == e.store &&
              (e.outcome.Ok? ==> r.outcome == e.outcome) &&
              (e.outcome.Thrown? ==> r.outcome == Thrown(Wrap(InvocationTargetException, e.outcome.exc)))
  {
    if m.None? || t.None? then Effect(Thrown(NullPointer), s)
    else
      match impl(t.value, m.value, args, s)
      case Refused(x) => Effect(Thrown(x), s)
      case Ran(Ok(v), s') => Effect(Ok(v), s')
      case Ran(Thrown(x), s') => Effect(Thrown(Wrap(InvocationTargetException, x)), s')
  }

  /** The handler's own `catch (Exception e)`: every failure leaves as CampanulaRuntimeException. */
  function Surface(r: Try<Value>): (s: Try<Value>)
    ensures r.Ok? ==> s == r
    ensures r.Thrown? ==> s == Thrown(WrapCampanula(r.exc))
  {
    match r
    case Ok(v) => Ok(v)
    case Thrown(e) => Thrown(WrapCampanula(e))
  }

  /** A chain stage: the fields its context ends with (or what was thrown), and the field store. */
  datatype Staged<F> = Staged(fields: Try<F>, store: Store)

  /** Runs the before chain, if there is one, on a fresh context holding `f`. */
  function BeforeStage(ks: Option<seq<BeforeOperate>>, f: BeforeFields, s: Store): (r: Staged<BeforeFields>)
    ensures ks.None? ==> r == Staged(Ok(f), s)
    ensures ks.Some? ==>
              var run := RunBefore(ks.value, Some(f), s, |ks.value|);
              r.store == run.store &&
              (r.fields.Thrown? <==> run.failure.Some?) &&
              (r.fields.Thrown? ==> r.fields.exc == run.failure.value) &&
              (r.fields.Ok? ==> run.ctx == Some(r.fields.value))
  {
    if ks.None? then Staged(Ok(f), s)
    else
      var run := RunBefore(ks.value, Some(f), s, |ks.value|);
      if run.failure.Some? then Staged(Thrown(run.failure.value), run.store)
      else Staged(Ok(run.ctx.value), run.store)
  }

  /** Runs the after chain, if there is one, on a fresh context holding `f`. */
  function AfterStage(ops: Option<seq<AfterOperate>>, f: AfterFields, s: Store): (r: Staged<AfterFields>)
    ensures ops.None? ==> r == Staged(Ok(f), s)
    ensures ops.Some? ==>
              var run := RunAfter(ops.value, Some(f), s, |ops.value|);
              r.store == run.store &&
              (r.fields.Thrown? <==> run.failure.Some?) &&
              (r.fields.Thrown? ==> r.fields.exc == run.failure.value) &&
              (r.fields.Ok? ==> run.ctx == Some(r.fields.value))
  {
    if ops.None? then Staged(Ok(f), s)
    else
      var run := RunAfter(ops.value, Some(f), s, |ops.value|);
      if run.failure.Some? then Staged(Thrown(run.failure.value), run.store)
      else Staged(Ok(run.ctx.value), run.store)
  }

  /** The handler's target afterwards, the field store afterwards, and what `invoke` returns or throws. */
  datatype Invoked = Invoked(target: Option<ObjRef>, store: Store, outcome: Try<Value>)

  /**
   * The real call with the fields `c` the before stage produced, on the
   * store it left, then the after chain on a context holding that call and
   * its result; the after context's final proxy and result are adopted.
   */
  function CallStage(ops: Option<seq<AfterOperate>>, impl: Target, c: BeforeFields, s: Store): (r: Invoked)
    ensures r.outcome.Thrown? ==> r.outcome.exc.cls == CampanulaRuntimeException && r.outcome.exc.cause.Some?
    ensures var e := Reflect(impl, c.proxy, c.callee, c.args, s);
            ops.None? ==> r == Invoked(c.proxy, e.store, Surface(e.outcome))
    ensures var e := Reflect(impl, c.proxy, c.callee, c.args, s);
            e.outcome.Thrown? ==> r == Invoked(c.proxy, e.store, Thrown(WrapCampanula(e.outcome.exc)))
  {
    var e := Reflect(impl, c.proxy, c.callee, c.args, s);
    match e.outcome
    case Thrown(x) => Invoked(c.proxy, e.store, Thrown(WrapCampanula(x)))
    case Ok(v) =>
      var a := AfterStage(ops, AfterFields(c.proxy, c.callee, c.args, v), e.store);
      match a.fields
      case Thrown(x) => Invoked(c.proxy, a.store, Thrown(WrapCampanula(x)))
      case Ok(g) => Invoked(g.proxy, a.store, Ok(g.result))
  }

  /**
   * `invoke` of the newer handler: the before context starts as the target,
   * the method and the arguments, and the real call is made with whatever
   * the chain left there, on the field store the chain left.
   */
  function InvokeSpec(ks: Option<seq<BeforeOperate>>, ops: Option<seq<AfterOperate>>, impl: Target,
                      t: Option<ObjRef>, m: Option<MethodId>, args: Args, s: Store): (r: Invoked)
    ensures r.outcome.Thrown? ==> r.outcome.exc.cls == CampanulaRuntimeException && r.outcome.exc.cause.Some?
    ensures var b := BeforeStage(ks, BeforeFields(t, m, args), s);
            b.fields.Thrown? ==> r == Invoked(t, b.store, Thrown(WrapCampanula(b.fields.exc)))
  {
    var b := BeforeStage(ks, BeforeFields(t, m, args), s);
    match b.fields
    case Thrown(e) => Invoked(t, b.store, Thrown(WrapCampanula(e)))
    case Ok(c) => CallStage(ops, impl, c, b.store)
  }

  /** Without chains the target is called with the caller's method and arguments, and its result returned. */
  lemma NoChainsCallsTarget(impl: Target, t: Option<ObjRef>, m: Option<MethodId>, args: Args, s: Store)
    ensures var e := Reflect(impl, t, m, args, s);
            InvokeSpec(None, None, impl, t, m, args, s) == Invoked(t, e.store, Surface(e.outcome))
  {
  }

  /**
   * With a before chain that completes, the real call uses the target, the
   * method and the arguments the chain left in the context and sees the
   * fields the chain wrote, and the handler adopts that target.
   */
  lemma BeforeChainAdopted(ks: seq<BeforeOperate>, impl: Target, t: Option<ObjRef>, m: Option<MethodId>, args: Args, s: Store)
    requires RunBefore(ks, Some(BeforeFields(t, m, args)), s, |ks|).failure.None?
    ensures var run := RunBefore(ks, Some(BeforeFields(t, m, args)), s, |ks|);
            var c := run.ctx.value;
            var e := Reflect(impl, c.proxy, c.callee, c.args, run.store);
            InvokeSpec(Some(ks), None, impl, t, m, args, s) == Invoked(c.proxy, e.store, Surface(e.outcome))
  {
  }

  /**
   * A call that reflection refuses (a receiver of the wrong class, arguments
   * that do not fit) never reaches the body or the after chain: its
   * exception is wrapped once, in CampanulaRuntimeException, with no
   * InvocationTargetException between, and the store is what the before
   * stage left.
   */
  lemma RefusedCallSurfacesUnwrapped(ks: Option<seq<BeforeOperate>>, ops: Option<seq<AfterOperate>>, impl: Target,
                                     t: Option<ObjRef>, m: Option<MethodId>, args: Args, s: Store)
    requires BeforeStage(ks, BeforeFields(t, m, args), s).fields.Ok?
    requires var b := BeforeStage(ks, BeforeFields(t, m, args), s);
             var c := b.fields.value;
             c.proxy.Some? && c.callee.Some? && impl(c.proxy.value, c.callee.value, c.args, b.store).Refused?
    ensures var b := BeforeStage(ks, BeforeFields(t, m, args), s);
            var c := b.fields.value;
            var x := impl(c.proxy.value, c.callee.value, c.args, b.store).exc;
            InvokeSpec(ks, ops, impl, t, m, args, s) == Invoked(c.proxy, b.store, Thrown(WrapCampanula(x)))
  {
  }

  /** A before chain that throws stops the call: the target is never called and stays the handler's target. */
  lemma BeforeFailureSkipsCall(ks: seq<BeforeOperate>, ops: Option<seq<AfterOperate>>, impl1: Target, impl2: Target,
                               t: Option<ObjRef>, m: Option<MethodId>, args: Args, s: Store)
    requires RunBefore(ks, Some(BeforeFields(t, m, args)), s, |ks|).failure.Some?
    ensures InvokeSpec(Some(ks), ops, impl1, t, m, args, s) == InvokeSpec(Some(ks), ops, impl2, t, m, args, s)
    ensures var run := RunBefore(ks, Some(BeforeFields(t, m, args)), s, |ks|);
            InvokeSpec(Some(ks), ops, impl1, t, m, args, s) == Invoked(t, run.store, Thrown(WrapCampanula(run.failure.value)))
  {
  }

  /**
   * A method annotated `@CFieldAssign` behind a field-assignment handle runs
   * on a store in which every named field of the target holds its
   * producer's value, other fields and objects unchanged.
   */
  lemma AssignedFieldsReachTarget(reg: FieldAssign.Registry, impl: Target, t: ObjRef, m: MethodId, args: Args, s: Store)
    requires m.assign.Some? && m.assign.value != []
    requires RunBefore([AssignFields(reg)], Some(BeforeFields(Some(t), Some(m), args)), s, 1).failure.None?
    ensures var run := RunBefore([AssignFields(reg)], Some(BeforeFields(Some(t), Some(m), args)), s, 1);
            var e := Reflect(impl, Some(t), Some(m), args, run.store);
            && InvokeSpec(Some([AssignFields(reg)]), None, impl, Some(t), Some(m), args, s) ==
                 Invoked(Some(t), e.store, Surface(e.outcome))
            && t in s && t in run.store && run.store[t].Keys == s[t].Keys
            && (forall f :: f in m.assign.value ==>
                  f in reg && reg[f].value.Ok? && f in run.store[t] && run.store[t][f] == reg[f].value.value)
            && (forall g :: g in s[t] && g !in m.assign.value ==> run.store[t][g] == s[t][g])
            && (forall q :: q in s && q != t ==> q in run.store && run.store[q] == s[q])
  {
    var c := Some(BeforeFields(Some(t), Some(m), args));
    var names := m.assign.value;
    assert FieldAssign.RealizeSpec(reg, c, s).failure.None?;
    assert FieldAssign.FirstMissing(names, reg) == |names|;
    assert forall f :: f in names ==> f in reg;
    FieldAssign.AssignAllSetsNamedFields(reg, Some(t), names, s);
  }

  /**
   * With an after chain of handles that only edit the record, the value
   * returned is the result field of their operations composed over the real
   * call's context.
   */
  lemma AfterResultReturned(ks: Option<seq<BeforeOperate>>, ops: seq<AfterFields -> Try<AfterFields>>, impl: Target,
                            t: Option<ObjRef>, m: Option<MethodId>, args: Args, s: Store)
    requires BeforeStage(ks, BeforeFields(t, m, args), s).fields.Ok?
    requires var b := BeforeStage(ks, BeforeFields(t, m, args), s);
             var c := b.fields.value;
             Reflect(impl, c.proxy, c.callee, c.args, b.store).outcome.Ok?
    ensures var b := BeforeStage(ks, BeforeFields(t, m, args), s);
            var c := b.fields.value;
            var e := Reflect(impl, c.proxy, c.callee, c.args, b.store);
            var g := ComposeAfter(ops, AfterFields(c.proxy, c.callee, c.args, e.outcome.value));
            var r := InvokeSpec(ks, Some(AfterFieldsOnlyChain(ops)), impl, t, m, args, s);
            r.store == e.store &&
            (g.Ok? ==> r.outcome == Ok(g.value.result) && r.target == g.value.proxy) &&
            (g.Thrown? ==> r.outcome == Thrown(WrapCampanula(g.exc)))
  {
    var b := BeforeStage(ks, BeforeFields(t, m, args), s);
    var c := b.fields.value;
    var e := Reflect(impl, c.proxy, c.callee, c.args, b.store);
    AfterChainComposes(ops, AfterFields(c.proxy, c.callee, c.args, e.outcome.value), e.store, |ops|);
    assert ops[..|ops|] == ops;
  }

  /** Hands a fresh before context holding `f` to the chain's head and executes the chain. */
  method CallBeforeChain(before: BeforeHandle, f: BeforeFields, store: FieldStore, ghost bpath: seq<BeforeHandle>)
    returns (res: Try<BeforeFields>)
    requires IsBeforePath(bpath) && bpath[0] == before
    modifies bpath, store
    ensures IsBeforePath(bpath)
    ensures Staged(res, store.fields) == BeforeStage(Some(Operates(bpath)), f, old(store.fields))
  {
    var ctx := new BeforeParam(f.proxy, f.callee, f.args);
    before.SetParam(ctx);
    var ex := before.Execute(bpath, store);
    if ex.Thrown? {
      return Thrown(ex.exc);
    }
    var c := ex.value;
    var p := c.GetProxy();
    var m := c.GetMethod();
    var a := c.GetArgs();
    res := Ok(BeforeFields(p, m, a));
  }

  /** Hands a fresh after context holding `f` to the chain's head and executes the chain. */
  method CallAfterChain(after: AfterHandle, f: AfterFields, store: FieldStore, ghost apath: seq<AfterHandle>)
    returns (res: Try<AfterFields>)
    requires IsAfterPath(apath) && apath[0] == after
    modifies apath, store
    ensures IsAfterPath(apath)
    ensures Staged(res, store.fields) == AfterStage(Some(AfterOps(apath)), f, old(store.fields))
  {
    var ctx := new AfterParam(f.proxy, f.callee, f.args, f.result);
    after.SetParam(ctx);
    var ex := after.Execute(apath, store);
    if ex.Thrown? {
      return Thrown(ex.exc);
    }
    var c := ex.value;
    var p := c.GetProxy();
    var m := c.GetMethod();
    var a := c.GetArgs();
    var v := c.GetResult();
    res := Ok(AfterFields(p, m, a, v));
  }

  /** The real call and the after chain of the newer handler; the method body's writes land in `store`. */
  method CallTarget(c: BeforeFields, impl: Target, after: AfterHandle?, store: FieldStore, ghost apath: seq<AfterHandle>)
    returns (target: Option<ObjRef>, r: Try<Value>)
    requires after != null ==> IsAfterPath(apath) && apath[0] == after
    modifies apath, store
    ensures after != null ==> IsAfterPath(apath)
    ensures Invoked(target, store.fields, r) ==
              CallStage(if after == null then None else Some(AfterOps(apath)), impl, c, old(store.fields))
  {
    target := c.proxy;
    var inv := Reflect(impl, c.proxy, c.callee, c.args, store.fields);
    store.fields := inv.store;
    if inv.outcome.Thrown? {
      return target, Thrown(WrapCampanula(inv.outcome.exc));
    }
    var result := inv.outcome.value;
    if after != null {
      var a := CallAfterChain(after, AfterFields(c.proxy, c.callee, c.args, result), store, apath);
      if a.Thrown? {
        return target, Thrown(WrapCampanula(a.exc));
      }
      target, result := a.value.proxy, a.value.result;
    }
    r := Ok(result);
  }

  /** `protogenesis.CInvocationHandler`: the target `t` is overwritten by what the chains leave. */
  class InvocationHandler {
    var t: Option<ObjRef>
    const before: BeforeHandle?
    const after: AfterHandle?

    constructor (t: Option<ObjRef>, before: BeforeHandle?, after: AfterHandle?)
      ensures this.t == t && this.before == before && this.after == after
    {
      this.t := t;
      this.before := before;
      this.after := after;
    }

    /**
     * `invoke(proxy, method, args)`. `bpath` and `apath` are the chains
     * hanging from `before` and `after`; the proxy argument is not used.
     */
    method Invoke(proxy: Option<ObjRef>, callee: Option<MethodId>, args: Args, impl: Target, store: FieldStore,
                  ghost bpath: seq<BeforeHandle>, ghost apath: seq<AfterHandle>)
      returns (r: Try<Value>)
      requires before != null ==> IsBeforePath(bpath) && bpath[0] == before
      requires after != null ==> IsAfterPath(apath) && apath[0] == after
      modifies this`t, bpath, apath, store
      ensures before != null ==> IsBeforePath(bpath)
      ensures after != null ==> IsAfterPath(apath)
      ensures var spec := InvokeSpec(if before == null then None else Some(Operates(bpath)),
                                     if after == null then None else Some(AfterOps(apath)),
                                     impl, old(t), callee, args, old(store.fields));
              t == spec.target && store.fields == spec.store && r == spec.outcome
    {
      var c := BeforeFields(t, callee, args);
      if before != null {
        var b := CallBeforeChain(before, c, store, bpath);
        if b.Thrown? {
          return Thrown(WrapCampanula(b.exc));
        }
        c := b.value;
      }
      t, r := CallTarget(c, impl, after, store, apath);
    }
  }

  /**
   * `invoke` of the older handler: both contexts carry the proxy, not the
   * target; the chains' contexts are discarded and the target is called with
   * the caller's method and arguments, on the store the before chain left.
   */
  function LegacySpec(ks: Option<seq<BeforeOperate>>, ops: Option<seq<AfterOperate>>, impl: Target,
                      t: Option<ObjRef>, proxy: Option<ObjRef>, m: Option<MethodId>, args: Args, s: Store): (r: Invoked)
    ensures r.target == t
    ensures r.outcome.Thrown? ==> r.outcome.exc.cls == CampanulaRuntimeException && r.outcome.exc.cause.Some?
  {
    var b := BeforeStage(ks, BeforeFields(proxy, m, args), s);
    if b.fields.Thrown? then Invoked(t, b.store, Thrown(WrapCampanula(b.fields.exc)))
    else
      var e := Reflect(impl, t, m, args, b.store);
      match e.outcome
      case Thrown(x) => Invoked(t, e.store, Thrown(WrapCampanula(x)))
      case Ok(v) =>
        var a := AfterStage(ops, AfterFields(proxy, m, args, v), e.store);
        match a.fields
        case Thrown(x) => Invoked(t, a.store, Thrown(WrapCampanula(x)))
        case Ok(_) => Invoked(t, a.store, Ok(v))
  }

  /** Whatever the chains do to their contexts, the older handler returns the target's own result. */
  lemma LegacyReturnsTargetResult(ks: Option<seq<BeforeOperate>>, ops: Option<seq<AfterOperate>>, impl: Target,
                                  t: Option<ObjRef>, proxy: Option<ObjRef>, m: Option<MethodId>, args: Args, s: Store)
    ensures var r := LegacySpec(ks, ops, impl, t, proxy, m, args, s);
            var b := BeforeStage(ks, BeforeFields(proxy, m, args), s);
            r.outcome.Ok? ==> b.fields.Ok? && Reflect(impl, t, m, args, b.store).outcome == r.outcome
  {
  }

  /**
   * Two after chains that both complete give the older handler the same
   * result, and the same as no after chain: `setResult` is lost.
   */
  lemma LegacyIgnoresAfterChain(ks: Option<seq<BeforeOperate>>, ops1: seq<AfterOperate>, ops2: seq<AfterOperate>,
                                impl: Target, t: Option<ObjRef>, proxy: Option<ObjRef>, m: Option<MethodId>, args: Args, s: Store)
    requires forall f, s' :: AfterStage(Some(ops1), f, s').fields.Ok? && AfterStage(Some(ops2), f, s').fields.Ok?
    ensures LegacySpec(ks, Some(ops1), impl, t, proxy, m, args, s).outcome == LegacySpec(ks, Some(ops2), impl, t, proxy, m, args, s).outcome
    ensures LegacySpec(ks, Some(ops1), impl, t, proxy, m, args, s).outcome == LegacySpec(ks, None, impl, t, proxy, m, args, s).outcome
  {
  }

  /** `proxy.CInvocationHandler`: `t`, `before` and `after` are set by the constructor only. */
  class LegacyInvocationHandler {
    const t: Option<ObjRef>
    const before: BeforeHandle?
    const after: AfterHandle?

    constructor (t: Option<ObjRef>, before: BeforeHandle?, after: AfterHandle?)
      ensures this.t == t && this.before == before && this.after == after
    {
      this.t := t;
      this.before := before;
      this.after := after;
    }

    method Invoke(proxy: Option<ObjRef>, callee: Option<MethodId>, args: Args, impl: Target, store: FieldStore,
                  ghost bpath: seq<BeforeHandle>, ghost apath: seq<AfterHandle>)
      returns (r: Try<Value>)
      requires before != null ==> IsBeforePath(bpath) && bpath[0] == before
      requires after != null ==> IsAfterPath(apath) && apath[0] == after
      modifies bpath, apath, store
      ensures before != null ==> IsBeforePath(bpath)
      ensures after != null ==> IsAfterPath(apath)
      ensures var spec := LegacySpec(if before == null then None else Some(Operates(bpath)),
                                     if after == null then None else Some(AfterOps(apath)),
                                     impl, t, proxy, callee, args, old(store.fields));
              store.fields == spec.store && r == spec.outcome
    {
      if before != null {
        var b := CallBeforeChain(before, BeforeFields(proxy, callee, args), store, bpath);
        if b.Thrown? {
          return Thrown(WrapCampanula(b.exc));
        }
      }
      var inv := Reflect(impl, t, callee, args, store.fields);
      store.fields := inv.store;
      if inv.outcome.Thrown? {
        return Thrown(WrapCampanula(inv.outcome.exc));
      }
      if after != null {
        var c := CallAfterChain(after, AfterFields(proxy, callee, args, inv.outcome.value), store, apath);
        if c.Thrown? {
          return Thrown(WrapCampanula(c.exc));
        }
      }
      r := inv.outcome;
    }
  }
}
