/**
 * What an intercepted call is made of: target objects, argument values,
 * reflective method handles, and the two mutable context records handed to
 * the before- and after-handler chains.
 */
module ProxyParam {
  import opened Base

  /** Identity of a Java object that can be proxied or whose fields can be assigned. */
  datatype ObjRef = ObjRef(id: nat)

  /** An argument or return value. */
  datatype Value = Null | Bool(b: bool) | Int(i: int) | Str(s: string) | Ref(obj: ObjRef)

  /**
   * A `java.lang.reflect.Method` together with what reflection can read off
   * it: its name, the marker annotations it carries and, when it carries
   * `@CFieldAssign`, the annotation's `fieldName` list.
   */
  datatype MethodId = MethodId(name: string, markers: set<string>, assign: Option<seq<string>>)

  /** The `Object[] args` of a call; `None` is a null array. */
  type Args = Option<seq<Value>>

  /** The contents of a `CProxyBeforeParam`. */
  datatype BeforeFields = BeforeFields(proxy: Option<ObjRef>, callee: Option<MethodId>, args: Args)

  /** The contents of a `CProxyAfterParam`. */
  datatype AfterFields = AfterFields(proxy: Option<ObjRef>, callee: Option<MethodId>, args: Args, result: Value)

  /** The declared fields of each object and their current values; a field is declared iff it is a key. */
  type Store = map<ObjRef, map<string, Value>>

  /** The objects whose fields reflection reads and writes. */
  class FieldStore {
    var fields: Store

    constructor (fields: Store)
      ensures this.fields == fields
    {
      this.fields := fields;
    }
  }

  /** `CProxyBeforeParam`: the target, the method and the arguments of the call being made. */
  class BeforeParam {
    var proxy: Option<ObjRef>
    var callee: Option<MethodId>
    var args: Args

    constructor (proxy: Option<ObjRef>, callee: Option<MethodId>, args: Args)
      ensures Fields() == BeforeFields(proxy, callee, args)
    {
      this.proxy := proxy;
      this.callee := callee;
      this.args := args;
    }

    constructor Empty()
      ensures Fields() == BeforeFields(None, None, None)
    {
      proxy := None;
      callee := None;
      args := None;
    }

    function Fields(): BeforeFields
      reads this
    {
      BeforeFields(proxy, callee, args)
    }

    method GetProxy() returns (p: Option<ObjRef>)
      ensures p == Fields().proxy
    {
      p := proxy;
    }

    method GetMethod() returns (m: Option<MethodId>)
      ensures m == Fields().callee
    {
      m := callee;
    }

    method GetArgs() returns (a: Args)
      ensures a == Fields().args
    {
      a := args;
    }

    method SetProxy(p: Option<ObjRef>)
      modifies this`proxy
      ensures Fields() == old(Fields()).(proxy := p)
    {
      proxy := p;
    }

    method SetMethod(m: Option<MethodId>)
      modifies this`callee
      ensures Fields() == old(Fields()).(callee := m)
    {
      callee := m;
    }

    /** Replaces the argument array as a whole. */
    method SetArgs(a: Args)
      modifies this`args
      ensures Fields() == old(Fields()).(args := a)
    {
      args := a;
    }

    /** Overwrites every field at once, as a handler that calls each setter does. */
    method Assign(f: BeforeFields)
      modifies this
      ensures Fields() == f
    {
      proxy, callee, args := f.proxy, f.callee, f.args;
    }
  }

  /** `CProxyAfterParam`: the call that was made and the result it produced. */
  class AfterParam {
    var proxy: Option<ObjRef>
    var callee: Option<MethodId>
    var args: Args
    var result: Value

    constructor (proxy: Option<ObjRef>, callee: Option<MethodId>, args: Args, result: Value)
      ensures Fields() == AfterFields(proxy, callee, args, result)
    {
      this.proxy := proxy;
      this.callee := callee;
      this.args := args;
      this.result := result;
    }

    constructor Empty()
      ensures Fields() == AfterFields(None, None, None, Null)
    {
      proxy := None;
      callee := None;
      args := None;
      result := Null;
    }

    function Fields(): AfterFields
      reads this
    {
      AfterFields(proxy, callee, args, result)
    }

    method GetProxy() returns (p: Option<ObjRef>)
      ensures p == Fields().proxy
    {
      p := proxy;
    }

    method GetMethod() returns (m: Option<MethodId>)
      ensures m == Fields().callee
    {
      m := callee;
    }

    method GetArgs() returns (a: Args)
      ensures a == Fields().args
    {
      a := args;
    }

    method GetResult() returns (v: Value)
      ensures v == Fields().result
    {
      v := result;
    }

    method SetProxy(p: Option<ObjRef>)
      modifies this`proxy
      ensures Fields() == old(Fields()).(proxy := p)
    {
      proxy := p;
    }

    method SetMethod(m: Option<MethodId>)
      modifies this`callee
      ensures Fields() == old(Fields()).(callee := m)
    {
      callee := m;
    }

    method SetArgs(a: Args)
      modifies this`args
      ensures Fields() == old(Fields()).(args := a)
    {
      args := a;
    }

    method SetResult(v: Value)
      modifies this`result
      ensures Fields() == old(Fields()).(result := v)
    {
      result := v;
    }

    /** Overwrites every field at once, as a handler that calls each setter does. */
    method Assign(f: AfterFields)
      modifies this
      ensures Fields() == f
    {
      proxy, callee, args, result := f.proxy, f.callee, f.args, f.result;
    }
  }

  /** The fields of a possibly-null before context. */
  ghost function BeforeOf(p: BeforeParam?): Option<BeforeFields>
    reads p
  {
    if p == null then None else Some(p.Fields())
  }

  /** The fields of a possibly-null after context. */
  ghost function AfterOf(p: AfterParam?): Option<AfterFields>
    reads p
  {
    if p == null then None else Some(p.Fields())
  }
}
