/**
 * `CAbstractBeforeProxyHandle` and `CAbstractAfterProxyHandle`: chain nodes
 * whose data is a context record. A node's `handler(IN)` calls `operate` on
 * the record and passes the same record on, so every node of a chain works
 * on one shared context object and `execute()` returns that object.
 *
 * Both classes carry the chain mechanics of `AbstractChain` themselves: a
 * Dafny function value cannot change objects, so the generic node of module
 * `Cor` cannot host an `operate` that edits the record in place. The
 * handles have only a public no-argument constructor, so their input starts
 * out null and they never use an external input.
 */
module ProxyHandle {
  import opened Base
  import opened ProxyParam
  import FieldAssign

  /**
   * What a user `operate` does to a context record it is handed and to the
   * target objects' fields, and what it throws. Writes made before a throw
   * stay made.
   */
  datatype Edit<F> = Edit(fields: F, store: Store, failure: Option<Exc>)

  /** What a user `operate` does when handed a null context: it may still write fields, throw, or neither. */
  datatype StoreEdit = StoreEdit(store: Store, failure: Option<Exc>)

  /**
   * What a before handle's `operate` does: a user subclass, given as its
   * effect on a record and on the field store (and on the store alone when
   * the context is null), or the built-in field-assignment handle.
   */
  datatype BeforeOperate =
    | Custom(onRecord: (BeforeFields, Store) -> Edit<BeforeFields>, onNull: Store -> StoreEdit)
    | AssignFields(registry: FieldAssign.Registry)

  /** An after handle's `operate`, given like a user before handle's. */
  datatype AfterOperate = AfterOperate(onRecord: (AfterFields, Store) -> Edit<AfterFields>, onNull: Store -> StoreEdit)

  /** The context and the field store after one `operate`, and what it threw. */
  datatype Operated<F> = Operated(ctx: Option<F>, store: Store, failure: Option<Exc>)

  /** A user `operate` on a possibly-null context; a null context stays null. */
  function UserOperate<F>(onRecord: (F, Store) -> Edit<F>, onNull: Store -> StoreEdit, c: Option<F>, s: Store): (r: Operated<F>)
    ensures r.ctx.Some? <==> c.Some?
    ensures c.None? ==> r.store == onNull(s).store && r.failure == onNull(s).failure
    ensures c.Some? ==> r.ctx.value == onRecord(c.value, s).fields &&
                        r.store == onRecord(c.value, s).store && r.failure == onRecord(c.value, s).failure
  {
    if c.None? then
      var e := onNull(s);
      Operated(None, e.store, e.failure)
    else
      var e := onRecord(c.value, s);
      Operated(Some(e.fields), e.store, e.failure)
  }

  /**
   * One `operate(ctx)` of a before handle. The field-assignment handle runs
   * `realize`, which throws NullPointerException on a null context, and
   * wraps what it throws; it never changes the context.
   */
  function OperateBefore(k: BeforeOperate, c: Option<BeforeFields>, s: Store): (r: Operated<BeforeFields>)
    ensures r.ctx.Some? <==> c.Some?
    ensures k.AssignFields? ==>
              r.ctx == c && r.store == FieldAssign.RealizeSpec(k.registry, c, s).store &&
              (r.failure.Some? <==> FieldAssign.RealizeSpec(k.registry, c, s).failure.Some?)
    ensures k.AssignFields? && c.None? ==> r == Operated(None, s, Some(WrapCampanula(NullPointer)))
  {
    match k
    case Custom(onRecord, onNull) => UserOperate(onRecord, onNull, c, s)
    case AssignFields(reg) =>
      var r := FieldAssign.OperateSpec(reg, c, s);
      Operated(c, r.store, r.failure)
  }

  /** The record edit of an `operate` that only changes the record: a throw leaves it as it was. */
  function Edited<F>(t: Try<F>, f: F, s: Store): (e: Edit<F>)
    ensures e.store == s
    ensures t.Ok? ==> e == Edit(t.value, s, None)
    ensures t.Thrown? ==> e == Edit(f, s, Some(t.exc))
  {
    match t
    case Ok(g) => Edit(g, s, None)
    case Thrown(x) => Edit(f, s, Some(x))
  }

  /**
   * A user before handle that only reads and rewrites its record: it
   * dereferences the record, so a null context throws NullPointerException,
   * and it never writes a target's fields.
   */
  function FieldsOnly(op: BeforeFields -> Try<BeforeFields>): (k: BeforeOperate)
    ensures k.Custom?
    ensures forall s :: k.onNull(s) == StoreEdit(s, Some(NullPointer))
    ensures forall f, s :: k.onRecord(f, s) == Edited(op(f), f, s)
  {
    Custom((f, s) => Edited(op(f), f, s), s => StoreEdit(s, Some(NullPointer)))
  }

  /** The context and store after the first `k` handles ran; `done` of them completed. */
  datatype BeforeRun = BeforeRun(ctx: Option<BeforeFields>, store: Store, failure: Option<Exc>, done: nat)

  /** Runs the `operate` of the first `k` handles in order, stopping at the first that throws. */
  function RunBefore(ks: seq<BeforeOperate>, c: Option<BeforeFields>, s: Store, k: nat): (r: BeforeRun)
    requires k <= |ks|
    ensures r.done <= k
    ensures r.failure.None? ==> r.done == k
    ensures r.failure.Some? ==> r.done < k
    ensures r.ctx.Some? <==> c.Some?
    decreases k
  {
    if k == 0 then BeforeRun(c, s, None, 0)
    else
      var p := RunBefore(ks, c, s, k - 1);
      if p.failure.Some? then p
      else
        var o := OperateBefore(ks[k - 1], p.ctx, p.store);
        BeforeRun(o.ctx, o.store, o.failure, if o.failure.Some? then k - 1 else k)
  }

  /** One more handle of a run that has not failed yet. */
  lemma RunBeforeNext(ks: seq<BeforeOperate>, c: Option<BeforeFields>, s: Store, k: nat)
    requires k < |ks| && RunBefore(ks, c, s, k).failure.None?
    ensures var p := RunBefore(ks, c, s, k);
            var o := OperateBefore(ks[k], p.ctx, p.store);
            RunBefore(ks, c, s, k + 1) == BeforeRun(o.ctx, o.store, o.failure, if o.failure.Some? then k else k + 1)
  {
  }

  /** Once a handle has thrown, running further changes nothing. */
  lemma {:induction false} RunBeforeSticks(ks: seq<BeforeOperate>, c: Option<BeforeFields>, s: Store, k: nat, m: nat)
    requires k <= m <= |ks| && RunBefore(ks, c, s, k).failure.Some?
    ensures RunBefore(ks, c, s, m) == RunBefore(ks, c, s, k)
    decreases m - k
  {
    if m > k {
      RunBeforeSticks(ks, c, s, k, m - 1);
    }
  }

  /**
   * A null context reaches the head first: if the head's `operate` throws
   * on it, no handle completes and the whole run is what the head did. The
   * field-assignment handle always throws there.
   */
  lemma {:induction false} NullContextFailsAtHead(ks: seq<BeforeOperate>, s: Store, k: nat)
    requires 0 < k <= |ks|
    ensures var o := OperateBefore(ks[0], None, s);
            o.failure.Some? ==> RunBefore(ks, None, s, k) == BeforeRun(None, o.store, o.failure, 0)
    ensures ks[0].AssignFields? ==> RunBefore(ks, None, s, k) == BeforeRun(None, s, Some(WrapCampanula(NullPointer)), 0)
  {
    if OperateBefore(ks[0], None, s).failure.Some? {
      RunBeforeSticks(ks, None, s, 1, k);
    }
  }

  /** A user handle that writes no target field, whether its context is null or not. */
  ghost predicate KeepsStore(k: BeforeOperate)
  {
    k.Custom? && (forall f, s :: k.onRecord(f, s).store == s) && (forall s :: k.onNull(s).store == s)
  }

  /** A chain of user handles that write no target field leaves the field store as it was. */
  lemma {:induction false} CustomChainKeepsStore(ks: seq<BeforeOperate>, c: Option<BeforeFields>, s: Store, k: nat)
    requires k <= |ks| && forall i :: 0 <= i < |ks| ==> KeepsStore(ks[i])
    ensures RunBefore(ks, c, s, k).store == s
  {
    if k > 0 {
      CustomChainKeepsStore(ks, c, s, k - 1);
      var p := RunBefore(ks, c, s, k - 1);
      if p.failure.None? {
        assert KeepsStore(ks[k - 1]);
        if p.ctx.Some? {
          assert ks[k - 1].onRecord(p.ctx.value, p.store).store == p.store;
        } else {
          assert ks[k - 1].onNull(p.store).store == p.store;
        }
      }
    }
  }

  /** A chain whose only handle is the field-assignment handle only writes fields. */
  lemma AssignOnlyKeepsContext(reg: FieldAssign.Registry, c: Option<BeforeFields>, s: Store)
    ensures RunBefore([AssignFields(reg)], c, s, 1).ctx == c
    ensures RunBefore([AssignFields(reg)], c, s, 1).store == FieldAssign.RealizeSpec(reg, c, s).store
  {
  }

  /** The record operations composed in order: the reference for a chain of handles that only edit the record. */
  function ComposeBefore(ops: seq<BeforeFields -> Try<BeforeFields>>, f: BeforeFields): Try<BeforeFields>
    decreases |ops|
  {
    if ops == [] then Ok(f)
    else
      match ComposeBefore(ops[..|ops| - 1], f)
      case Thrown(e) => Thrown(e)
      case Ok(g) => ops[|ops| - 1](g)
  }

  /** A chain of handles that only edit the record, one per operation. */
  function FieldsOnlyChain(ops: seq<BeforeFields -> Try<BeforeFields>>): (ks: seq<BeforeOperate>)
    ensures |ks| == |ops| && forall i :: 0 <= i < |ops| ==> KeepsStore(ks[i])
  {
    seq(|ops|, i requires 0 <= i < |ops| => FieldsOnly(ops[i]))
  }

  /**
   * A chain of handles that only edit the record leaves the context holding
   * the composition of their operations and the field store as it was.
   */
  lemma {:induction false} FieldsOnlyChainComposes(ops: seq<BeforeFields -> Try<BeforeFields>>, f: BeforeFields, s: Store, k: nat)
    requires k <= |ops|
    ensures var r := RunBefore(FieldsOnlyChain(ops), Some(f), s, k);
            var g := ComposeBefore(ops[..k], f);
            r.store == s &&
            (g.Ok? <==> r.failure.None?) &&
            (g.Ok? ==> r.ctx == Some(g.value)) &&
            (g.Thrown? ==> r.failure == Some(g.exc))
  {
    if k > 0 {
      FieldsOnlyChainComposes(ops, f, s, k - 1);
      assert ops[..k][..k - 1] == ops[..k - 1];
      assert FieldsOnlyChain(ops)[k - 1] == FieldsOnly(ops[k - 1]);
    }
  }

  /** `path` is a finite chain of distinct before handles ending in null. */
  ghost predicate IsBeforePath(path: seq<BeforeHandle>)
    reads path
  {
    && |path| > 0
    && (forall i :: 0 <= i < |path| - 1 ==> path[i].next == path[i + 1])
    && path[|path| - 1].next == null
    && (forall i, j :: 0 <= i < j < |path| ==> path[i] != path[j])
  }

  lemma BeforePathStep(path: seq<BeforeHandle>, k: nat)
    requires IsBeforePath(path) && k < |path|
    ensures k + 1 < |path| ==> path[k].next == path[k + 1]
    ensures path[k].next == null <==> k == |path| - 1
    ensures path[k].Successor() <= set n | n in path
  {
  }

  function Operates(path: seq<BeforeHandle>): (ks: seq<BeforeOperate>)
    ensures |ks| == |path| && forall i :: 0 <= i < |path| ==> ks[i] == path[i].operate
  {
    seq(|path|, i requires 0 <= i < |path| => path[i].operate)
  }

  /** `CAbstractBeforeProxyHandle` (and, with `AssignFields`, `CFieldAssignHandle`). */
  class BeforeHandle {
    var inParam: BeforeParam?
    var next: BeforeHandle?
    var out: BeforeParam?
    const operate: BeforeOperate

    /** The public no-argument constructor of a subclass. */
    constructor (operate: BeforeOperate)
      ensures inParam == null && next == null && out == null && this.operate == operate
    {
      this.operate := operate;
      inParam := null;
      next := null;
      out := null;
    }

    function Successor(): set<BeforeHandle>
      reads this
    {
      if next == null then {} else {next}
    }

    function Context(): set<BeforeParam>
      reads this
    {
      if inParam == null then {} else {inParam}
    }

    /** `setParam(beforeParam)`: sets this node's input. */
    method SetParam(p: BeforeParam?)
      modifies this`inParam
      ensures inParam == p
    {
      inParam := p;
    }

    method SetNext(n: BeforeHandle?) returns (r: BeforeHandle?)
      modifies this`next
      ensures next == n && r == n
    {
      next := n;
      r := n;
    }

    method HasNext() returns (b: bool)
      ensures b <==> next != null
    {
      b := next != null;
    }

    method GetOutData() returns (o: BeforeParam?)
      ensures o == out
    {
      o := out;
    }

    /** `operate(inParam)`, editing the context record in place. */
    method Operate(store: FieldStore) returns (failure: Option<Exc>)
      modifies Context(), store
      ensures var o := OperateBefore(operate, old(BeforeOf(inParam)), old(store.fields));
              BeforeOf(inParam) == o.ctx && store.fields == o.store && failure == o.failure
    {
      match operate
      case Custom(onRecord, onNull) =>
        if inParam == null {
          var e := onNull(store.fields);
          store.fields := e.store;
          return e.failure;
        }
        var e := onRecord(inParam.Fields(), store.fields);
        inParam.Assign(e.fields);
        store.fields := e.store;
        failure := e.failure;
      case AssignFields(reg) =>
        var f := FieldAssign.Realize(reg, inParam, store);
        if f.Some? {
          return Some(WrapCampanula(f.value));
        }
        failure := None;
    }

    /**
     * `handler()`: operates on the context, makes it this node's output and
     * the successor's input, and returns the successor.
     */
    method Handler(store: FieldStore) returns (r: Try<BeforeHandle?>)
      modifies this`out, Successor()`inParam, Context(), store
      ensures inParam == old(inParam)
      ensures var o := OperateBefore(operate, old(BeforeOf(inParam)), old(store.fields));
              BeforeOf(inParam) == o.ctx && store.fields == o.store &&
              (o.failure.Some? ==>
                 r == Thrown(o.failure.value) && out == old(out) &&
                 (next != null ==> next.inParam == old(next.inParam))) &&
              (o.failure.None? ==>
                 r == Ok(next) && out == inParam && (next != null ==> next.inParam == inParam))
    {
      var f := Operate(store);
      if f.Some? {
        return Thrown(f.value);
      }
      out := inParam;
      if next != null {
        next.inParam := out;
      }
      r := Ok(next);
    }

    /**
     * `execute()` from this node: every handle on `path` operates, in link
     * order, on this node's context, and the last node's output, which is
     * that same context object, is returned.
     */
    method Execute(ghost path: seq<BeforeHandle>, store: FieldStore) returns (r: Try<BeforeParam?>)
      requires IsBeforePath(path) && path[0] == this
      modifies path, Context(), store
      ensures inParam == old(inParam) && IsBeforePath(path) && forall n :: n in path ==> n.next == old(n.next)
      ensures var run := RunBefore(Operates(path), old(BeforeOf(inParam)), old(store.fields), |path|);
              && BeforeOf(inParam) == run.ctx
              && store.fields == run.store
              && r == (if run.failure.Some? then Thrown(run.failure.value) else Ok(inParam))
    {
      ghost var K := Operates(path);
      ghost var c0 := BeforeOf(inParam);
      ghost var s0 := store.fields;
      var ctx := inParam;
      var cursor := this;
      ghost var k := 0;
      while cursor.next != null
        invariant 0 <= k < |path| && cursor == path[k]
        invariant IsBeforePath(path) && inParam == ctx && cursor.inParam == ctx
        invariant forall n :: n in path ==> n.next == old(n.next)
        invariant RunBefore(K, c0, s0, k).failure.None?
        invariant BeforeOf(ctx) == RunBefore(K, c0, s0, k).ctx
        invariant store.fields == RunBefore(K, c0, s0, k).store
        decreases |path| - k
      {
        BeforePathStep(path, k);
        var res := cursor.HandleOnPath(path, k, store, K, c0, s0);
        if res.Thrown? {
          RunBeforeSticks(K, c0, s0, k + 1, |path|);
          return Thrown(res.exc);
        }
        cursor := res.value;
        k := k + 1;
      }
      BeforePathStep(path, k);
      var res := cursor.HandleOnPath(path, k, store, K, c0, s0);
      if res.Thrown? {
        return Thrown(res.exc);
      }
      var o := cursor.GetOutData();
      r := Ok(o);
    }

    /** `Handler` on the node at position `k` of `path`, stated through the whole run. */
    method HandleOnPath(ghost path: seq<BeforeHandle>, ghost k: nat, store: FieldStore,
                        ghost K: seq<BeforeOperate>, ghost c0: Option<BeforeFields>, ghost s0: Store)
      returns (res: Try<BeforeHandle?>)
      requires IsBeforePath(path) && k < |path| && path[k] == this
      requires |K| == |path| && K[k] == operate
      requires RunBefore(K, c0, s0, k).failure.None?
      requires BeforeOf(inParam) == RunBefore(K, c0, s0, k).ctx && store.fields == RunBefore(K, c0, s0, k).store
      modifies this`out, Successor()`inParam, Context(), store
      ensures inParam == old(inParam) && IsBeforePath(path)
      ensures var run := RunBefore(K, c0, s0, k + 1);
              BeforeOf(inParam) == run.ctx && store.fields == run.store &&
              (run.failure.Some? <==> res.Thrown?) &&
              (run.failure.Some? ==> res.exc == run.failure.value) &&
              (res.Ok? ==> res.value == next && out == inParam && (next != null ==> next.inParam == inParam))
    {
      RunBeforeNext(K, c0, s0, k);
      res := HandleInPath(path, k, store);
    }

    /** `Handler` on the node at position `k` of `path`: the links of the path stay as they are. */
    method HandleInPath(ghost path: seq<BeforeHandle>, ghost k: nat, store: FieldStore) returns (res: Try<BeforeHandle?>)
      requires IsBeforePath(path) && k < |path| && path[k] == this
      modifies this`out, Successor()`inParam, Context(), store
      ensures inParam == old(inParam) && IsBeforePath(path)
      ensures var o := OperateBefore(operate, old(BeforeOf(inParam)), old(store.fields));
              BeforeOf(inParam) == o.ctx && store.fields == o.store &&
              (o.failure.Some? <==> res.Thrown?) &&
              (o.failure.Some? ==> res.exc == o.failure.value) &&
              (res.Ok? ==> res.value == next && out == inParam && (next != null ==> next.inParam == inParam))
    {
      assert k + 1 < |path| ==> next == path[k + 1];
      res := Handler(store);
    }

    /**
     * The `CFieldAssignHandle` constructor: builds the producer registry and,
     * if that succeeds, a handle that assigns fields from it.
     */
    static method FieldAssignHandle(producers: Option<seq<FieldAssign.Producer>>) returns (r: Try<BeforeHandle>)
      ensures producers.None? || producers.value == [] ==> r == Thrown(FieldAssign.NoProducers)
      ensures producers.Some? && producers.value != [] ==>
                (r.Ok? <==> forall j :: 0 <= j < |producers.value| ==> !FieldAssign.Repeats(producers.value, j))
      ensures r.Ok? ==>
                fresh(r.value) && r.value.inParam == null && r.value.next == null && r.value.out == null &&
                r.value.operate.AssignFields? && producers.Some? &&
                r.value.operate.registry.Keys == (set p | p in producers.value :: p.fieldName) &&
                forall p :: p in producers.value ==> r.value.operate.registry[p.fieldName] == p
    {
      var reg := FieldAssign.BuildRegistry(producers);
      if reg.Thrown? {
        return Thrown(reg.exc);
      }
      var h := new BeforeHandle(AssignFields(reg.value));
      r := Ok(h);
    }
  }

  /** The context and store after the first `k` after-handles ran; `done` of them completed. */
  datatype AfterRun = AfterRun(ctx: Option<AfterFields>, store: Store, failure: Option<Exc>, done: nat)

  /** One after-handle's `operate(ctx)`. */
  function OperateAfter(op: AfterOperate, c: Option<AfterFields>, s: Store): (r: Operated<AfterFields>)
    ensures r.ctx.Some? <==> c.Some?
  {
    UserOperate(op.onRecord, op.onNull, c, s)
  }

  /** Runs the `operate` of the first `k` after-handles in order, stopping at the first that throws. */
  function RunAfter(ops: seq<AfterOperate>, c: Option<AfterFields>, s: Store, k: nat): (r: AfterRun)
    requires k <= |ops|
    ensures r.done <= k
    ensures r.failure.None? ==> r.done == k
    ensures r.failure.Some? ==> r.done < k
    ensures r.ctx.Some? <==> c.Some?
    decreases k
  {
    if k == 0 then AfterRun(c, s, None, 0)
    else
      var p := RunAfter(ops, c, s, k - 1);
      if p.failure.Some? then p
      else
        var o := OperateAfter(ops[k - 1], p.ctx, p.store);
        AfterRun(o.ctx, o.store, o.failure, if o.failure.Some? then k - 1 else k)
  }

  lemma {:induction false} RunAfterSticks(ops: seq<AfterOperate>, c: Option<AfterFields>, s: Store, k: nat, m: nat)
    requires k <= m <= |ops| && RunAfter(ops, c, s, k).failure.Some?
    ensures RunAfter(ops, c, s, m) == RunAfter(ops, c, s, k)
    decreases m - k
  {
    if m > k {
      RunAfterSticks(ops, c, s, k, m - 1);
    }
  }

  /**
   * An after handle that only reads and rewrites its record: a null context
   * throws NullPointerException and no target field is written.
   */
  function AfterFieldsOnly(op: AfterFields -> Try<AfterFields>): (k: AfterOperate)
    ensures forall s :: k.onNull(s) == StoreEdit(s, Some(NullPointer))
    ensures forall f, s :: k.onRecord(f, s) == Edited(op(f), f, s)
  {
    AfterOperate((f, s) => Edited(op(f), f, s), s => StoreEdit(s, Some(NullPointer)))
  }

  /** The record operations composed in order: the reference for an after chain of such handles. */
  function ComposeAfter(ops: seq<AfterFields -> Try<AfterFields>>, f: AfterFields): Try<AfterFields>
    decreases |ops|
  {
    if ops == [] then Ok(f)
    else
      match ComposeAfter(ops[..|ops| - 1], f)
      case Thrown(e) => Thrown(e)
      case Ok(g) => ops[|ops| - 1](g)
  }

  /** An after chain of handles that only edit the record, one per operation. */
  function AfterFieldsOnlyChain(ops: seq<AfterFields -> Try<AfterFields>>): (ks: seq<AfterOperate>)
    ensures |ks| == |ops|
  {
    seq(|ops|, i requires 0 <= i < |ops| => AfterFieldsOnly(ops[i]))
  }

  /** Such an after chain leaves the context holding the composition of the operations, and the store as it was. */
  lemma {:induction false} AfterChainComposes(ops: seq<AfterFields -> Try<AfterFields>>, f: AfterFields, s: Store, k: nat)
    requires k <= |ops|
    ensures var r := RunAfter(AfterFieldsOnlyChain(ops), Some(f), s, k);
            var g := ComposeAfter(ops[..k], f);
            r.store == s &&
            (g.Ok? <==> r.failure.None?) &&
            (g.Ok? ==> r.ctx == Some(g.value)) &&
            (g.Thrown? ==> r.failure == Some(g.exc))
  {
    if k > 0 {
      AfterChainComposes(ops, f, s, k - 1);
      assert ops[..k][..k - 1] == ops[..k - 1];
      assert AfterFieldsOnlyChain(ops)[k - 1] == AfterFieldsOnly(ops[k - 1]);
    }
  }

  ghost predicate IsAfterPath(path: seq<AfterHandle>)
    reads path
  {
    && |path| > 0
    && (forall i :: 0 <= i < |path| - 1 ==> path[i].next == path[i + 1])
    && path[|path| - 1].next == null
    && (forall i, j :: 0 <= i < j < |path| ==> path[i] != path[j])
  }

  lemma AfterPathStep(path: seq<AfterHandle>, k: nat)
    requires IsAfterPath(path) && k < |path|
    ensures k + 1 < |path| ==> path[k].next == path[k + 1]
    ensures path[k].next == null <==> k == |path| - 1
    ensures path[k].Successor() <= set n | n in path
  {
  }

  function AfterOps(path: seq<AfterHandle>): (ops: seq<AfterOperate>)
    ensures |ops| == |path| && forall i :: 0 <= i < |path| ==> ops[i] == path[i].operate
  {
    seq(|path|, i requires 0 <= i < |path| => path[i].operate)
  }

  /** `CAbstractAfterProxyHandle`. */
  class AfterHandle {
    var inParam: AfterParam?
    var next: AfterHandle?
    var out: AfterParam?
    const operate: AfterOperate

    constructor (operate: AfterOperate)
      ensures inParam == null && next == null && out == null && this.operate == operate
    {
      this.operate := operate;
      inParam := null;
      next := null;
      out := null;
    }

    function Successor(): set<AfterHandle>
      reads this
    {
      if next == null then {} else {next}
    }

    function Context(): set<AfterParam>
      reads this
    {
      if inParam == null then {} else {inParam}
    }

    method SetParam(p: AfterParam?)
      modifies this`inParam
      ensures inParam == p
    {
      inParam := p;
    }

    method SetNext(n: AfterHandle?) returns (r: AfterHandle?)
      modifies this`next
      ensures next == n && r == n
    {
      next := n;
      r := n;
    }

    method HasNext() returns (b: bool)
      ensures b <==> next != null
    {
      b := next != null;
    }

    method GetOutData() returns (o: AfterParam?)
      ensures o == out
    {
      o := out;
    }

    /** `operate(inParam)`, editing the context record in place. */
    method Operate(store: FieldStore) returns (failure: Option<Exc>)
      modifies Context(), store
      ensures var o := OperateAfter(operate, old(AfterOf(inParam)), old(store.fields));
              AfterOf(inParam) == o.ctx && store.fields == o.store && failure == o.failure
    {
      if inParam == null {
        var e := operate.onNull(store.fields);
        store.fields := e.store;
        return e.failure;
      }
      var e := operate.onRecord(inParam.Fields(), store.fields);
      inParam.Assign(e.fields);
      store.fields := e.store;
      failure := e.failure;
    }

    /**
     * `handler()`: operates on the context, makes it this node's output and
     * the successor's input, and returns the successor.
     */
    method Handler(store: FieldStore) returns (r: Try<AfterHandle?>)
      modifies this`out, Successor()`inParam, Context(), store
      ensures inParam == old(inParam)
      ensures var o := OperateAfter(operate, old(AfterOf(inParam)), old(store.fields));
              AfterOf(inParam) == o.ctx && store.fields == o.store &&
              (o.failure.Some? ==>
                 r == Thrown(o.failure.value) && out == old(out) &&
                 (next != null ==> next.inParam == old(next.inParam))) &&
              (o.failure.None? ==>
                 r == Ok(next) && out == inParam && (next != null ==> next.inParam == inParam))
    {
      var f := Operate(store);
      if f.Some? {
        return Thrown(f.value);
      }
      out := inParam;
      if next != null {
        next.inParam := out;
      }
      r := Ok(next);
    }

    /** `Handler` on the node at position `k` of `path`, stated through the whole run. */
    method HandleOnPath(ghost path: seq<AfterHandle>, ghost k: nat, store: FieldStore,
                        ghost ops: seq<AfterOperate>, ghost c0: Option<AfterFields>, ghost s0: Store)
      returns (res: Try<AfterHandle?>)
      requires IsAfterPath(path) && k < |path| && path[k] == this
      requires |ops| == |path| && ops[k] == operate
      requires RunAfter(ops, c0, s0, k).failure.None?
      requires AfterOf(inParam) == RunAfter(ops, c0, s0, k).ctx && store.fields == RunAfter(ops, c0, s0, k).store
      modifies this`out, Successor()`inParam, Context(), store
      ensures inParam == old(inParam) && IsAfterPath(path)
      ensures var run := RunAfter(ops, c0, s0, k + 1);
              AfterOf(inParam) == run.ctx && store.fields == run.store &&
              (run.failure.Some? <==> res.Thrown?) &&
              (run.failure.Some? ==> res.exc == run.failure.value) &&
              (res.Ok? ==> res.value == next && out == inParam && (next != null ==> next.inParam == inParam))
    {
      res := HandleInPath(path, k, store);
    }

    /** `Handler` on the node at position `k` of `path`: the links of the path stay as they are. */
    method HandleInPath(ghost path: seq<AfterHandle>, ghost k: nat, store: FieldStore) returns (res: Try<AfterHandle?>)
      requires IsAfterPath(path) && k < |path| && path[k] == this
      modifies this`out, Successor()`inParam, Context(), store
      ensures inParam == old(inParam) && IsAfterPath(path)
      ensures var o := OperateAfter(operate, old(AfterOf(inParam)), old(store.fields));
              AfterOf(inParam) == o.ctx && store.fields == o.store &&
              (o.failure.Some? <==> res.Thrown?) &&
              (o.failure.Some? ==> res.exc == o.failure.value) &&
              (res.Ok? ==> res.value == next && out == inParam && (next != null ==> next.inParam == inParam))
    {
      assert k + 1 < |path| ==> next == path[k + 1];
      res := Handler(store);
    }

    /**
     * `execute()` from this node: every handle on `path` operates, in order,
     * on this node's context, and that same context object is returned.
     */
    method Execute(ghost path: seq<AfterHandle>, store: FieldStore) returns (r: Try<AfterParam?>)
      requires IsAfterPath(path) && path[0] == this
      modifies path, Context(), store
      ensures inParam == old(inParam) && IsAfterPath(path) && forall n :: n in path ==> n.next == old(n.next)
      ensures var run := RunAfter(AfterOps(path), old(AfterOf(inParam)), old(store.fields), |path|);
              && AfterOf(inParam) == run.ctx
              && store.fields == run.store
              && r == (if run.failure.Some? then Thrown(run.failure.value) else Ok(inParam))
    {
      ghost var ops := AfterOps(path);
      ghost var c0 := AfterOf(inParam);
      ghost var s0 := store.fields;
      var ctx := inParam;
      var cursor := this;
      ghost var k := 0;
      while cursor.next != null
        invariant 0 <= k < |path| && cursor == path[k]
        invariant IsAfterPath(path) && inParam == ctx && cursor.inParam == ctx
        invariant forall n :: n in path ==> n.next == old(n.next)
        invariant RunAfter(ops, c0, s0, k).failure.None?
        invariant AfterOf(ctx) == RunAfter(ops, c0, s0, k).ctx
        invariant store.fields == RunAfter(ops, c0, s0, k).store
        decreases |path| - k
      {
        AfterPathStep(path, k);
        var res := cursor.HandleOnPath(path, k, store, ops, c0, s0);
        if res.Thrown? {
          RunAfterSticks(ops, c0, s0, k + 1, |path|);
          return Thrown(res.exc);
        }
        cursor := res.value;
        k := k + 1;
      }
      AfterPathStep(path, k);
      var res := cursor.HandleOnPath(path, k, store, ops, c0, s0);
      if res.Thrown? {
        return Thrown(res.exc);
      }
      var o := cursor.GetOutData();
      r := Ok(o);
    }
  }
}
