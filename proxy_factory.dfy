/**
 * `protogenesis.CEntityProxyFactory`: builds JDK proxies whose invocation
 * handler runs a target's calls through the before and after chains. A proxy
 * is modelled by the interfaces it implements and the handler it dispatches to.
 */
module ProxyFactory {
  import opened Base
  import opened ProxyParam
  import opened ProxyHandle
  import opened Invocation

  /** A `java.lang.reflect.Proxy` instance: the interfaces it implements and its handler. */
  datatype Proxy = Proxy(interfaces: seq<string>, handler: InvocationHandler)

  /** What `t.getClass().getInterfaces()` answers for each target. */
  type InterfacesOf = ObjRef -> seq<string>

  const NoObjectMessage := "The proxy object cannot be empty"
  const NoInterfaceMessage := "The proxy generic interface cannot be empty"
  const EmptyListMessage := "The proxy collection is empty or has no surrogate elements"

  /** The precondition checks of `getProxy`: the target first, then the interface type. */
  function ProxyGuard(t: Option<ObjRef>, iface: Option<string>): (r: Option<Exc>)
    ensures r.None? <==> t.Some? && iface.Some?
    ensures t.None? ==> r == Some(Raise(CampanulaRuntimeException, NoObjectMessage))
    ensures t.Some? && iface.None? ==> r == Some(Raise(CampanulaRuntimeException, NoInterfaceMessage))
  {
    if t.None? then Some(Raise(CampanulaRuntimeException, NoObjectMessage))
    else if iface.None? then Some(Raise(CampanulaRuntimeException, NoInterfaceMessage))
    else None
  }

  /**
   * `r` is what `getProxy(t, iface, before, after)` produces: the guard's
   * exception, or a proxy over the target's own interfaces (the interface
   * argument is only checked for null) whose handler holds the target and the
   * two chains.
   */
  ghost predicate ProxyFor(r: Try<Proxy>, t: Option<ObjRef>, iface: Option<string>,
                           before: BeforeHandle?, after: AfterHandle?, interfacesOf: InterfacesOf)
    reads if r.Ok? then {r.value.handler} else {}
  {
    match ProxyGuard(t, iface)
    case Some(e) => r == Thrown(e)
    case None =>
      r.Ok? && r.value.interfaces == interfacesOf(t.value) &&
      r.value.handler.t == t && r.value.handler.before == before && r.value.handler.after == after
  }

  /** `getProxy`: a new handler per proxy. */
  method GetProxy(t: Option<ObjRef>, iface: Option<string>, before: BeforeHandle?, after: AfterHandle?,
                  interfacesOf: InterfacesOf) returns (r: Try<Proxy>)
    ensures ProxyFor(r, t, iface, before, after, interfacesOf)
    ensures r.Ok? ==> fresh(r.value.handler)
  {
    var g := ProxyGuard(t, iface);
    if g.Some? {
      return Thrown(g.value);
    }
    var handler := new InvocationHandler(t, before, after);
    r := Ok(Proxy(interfacesOf(t.value), handler));
  }

  /** `proxyPlus`: `getProxy` with both chains. */
  method ProxyPlus(t: Option<ObjRef>, iface: Option<string>, before: BeforeHandle?, after: AfterHandle?,
                   interfacesOf: InterfacesOf) returns (r: Try<Proxy>)
    ensures ProxyFor(r, t, iface, before, after, interfacesOf)
    ensures r.Ok? ==> fresh(r.value.handler)
  {
    r := GetProxy(t, iface, before, after, interfacesOf);
  }

  /** `proxy(entity, iface)`: no chains. */
  method ProxyOf(t: Option<ObjRef>, iface: Option<string>, interfacesOf: InterfacesOf) returns (r: Try<Proxy>)
    ensures ProxyFor(r, t, iface, null, null, interfacesOf)
    ensures r.Ok? ==> fresh(r.value.handler)
  {
    r := ProxyPlus(t, iface, null, null, interfacesOf);
  }

  /** `proxyBeforePlus(entity, iface, before)`: no after chain. */
  method ProxyBeforePlus(t: Option<ObjRef>, iface: Option<string>, before: BeforeHandle?,
                         interfacesOf: InterfacesOf) returns (r: Try<Proxy>)
    ensures ProxyFor(r, t, iface, before, null, interfacesOf)
    ensures r.Ok? ==> fresh(r.value.handler)
  {
    r := ProxyPlus(t, iface, before, null, interfacesOf);
  }

  /** `proxyAfterPlus(entity, iface, after)`: no before chain. */
  method ProxyAfterPlus(t: Option<ObjRef>, iface: Option<string>, after: AfterHandle?,
                        interfacesOf: InterfacesOf) returns (r: Try<Proxy>)
    ensures ProxyFor(r, t, iface, null, after, interfacesOf)
    ensures r.Ok? ==> fresh(r.value.handler)
  {
    r := ProxyPlus(t, iface, null, after, interfacesOf);
  }

  /** The list guard of `proxyPlusList` as written: it throws for a null or a NON-empty list. */
  function ListGuardAsWritten(es: Option<seq<Option<ObjRef>>>): (r: Option<Exc>)
    ensures r.None? <==> es == Some([])
    ensures r.Some? ==> r.value == Raise(CampanulaRuntimeException, EmptyListMessage)
  {
    if es.None? || |es.value| != 0 then Some(Raise(CampanulaRuntimeException, EmptyListMessage)) else None
  }

  /**
   * The written guard rejects a list holding one proxiable target and lets
   * only the empty list through, the opposite of what its message describes.
   */
  lemma ListGuardAsWrittenInverted()
    ensures ListGuardAsWritten(Some([Some(ObjRef(0))])).Some?
    ensures ListGuardAsWritten(Some([])).None?
    ensures forall es :: ListGuardAsWritten(Some(es)).None? ==> es == []
  {
  }

  /** The intended list guard: a null or empty list is refused, any other passes. */
  function ListGuard(es: Option<seq<Option<ObjRef>>>): (r: Option<Exc>)
    ensures r.None? <==> es.Some? && |es.value| > 0
    ensures r.Some? ==> r.value == Raise(CampanulaRuntimeException, EmptyListMessage)
  {
    if es.None? || |es.value| == 0 then Some(Raise(CampanulaRuntimeException, EmptyListMessage)) else None
  }

  /** The exception of the first element `getProxy` refuses, if any: the stream stops there. */
  function ListFailure(es: seq<Option<ObjRef>>, iface: Option<string>): (r: Option<Exc>)
    ensures r.None? <==> forall i :: 0 <= i < |es| ==> ProxyGuard(es[i], iface).None?
    ensures r.Some? ==> exists i :: 0 <= i < |es| && r == ProxyGuard(es[i], iface) &&
                                    forall j :: 0 <= j < i ==> ProxyGuard(es[j], iface).None?
  {
    if |es| == 0 then None
    else if ProxyGuard(es[0], iface).Some? then ProxyGuard(es[0], iface)
    else
      var rest := ListFailure(es[1..], iface);
      assert forall i :: 1 <= i < |es| ==> es[i] == es[1..][i - 1];
      rest
  }

  /** The first refused element decides the failure. */
  lemma {:induction false} ListFailureAt(es: seq<Option<ObjRef>>, iface: Option<string>, i: nat)
    requires i < |es| && ProxyGuard(es[i], iface).Some?
    requires forall j :: 0 <= j < i ==> ProxyGuard(es[j], iface).None?
    ensures ListFailure(es, iface) == ProxyGuard(es[i], iface)
    decreases i
  {
    if i > 0 {
      assert ProxyGuard(es[0], iface).None?;
      assert forall j :: 0 <= j < i - 1 ==> es[1..][j] == es[j + 1];
      ListFailureAt(es[1..], iface, i - 1);
    }
  }

  /**
   * `r` is what the intended `proxyPlusList` produces: the list guard's
   * exception, the first refused element's exception, or one proxy per
   * element, in order.
   */
  ghost predicate ProxiesFor(r: Try<seq<Proxy>>, es: Option<seq<Option<ObjRef>>>, iface: Option<string>,
                             before: BeforeHandle?, after: AfterHandle?, interfacesOf: InterfacesOf)
    reads if r.Ok? then set i | 0 <= i < |r.value| :: r.value[i].handler else {}
  {
    match ListGuard(es)
    case Some(e) => r == Thrown(e)
    case None =>
      match ListFailure(es.value, iface)
      case Some(e) => r == Thrown(e)
      case None =>
        r.Ok? && |r.value| == |es.value| &&
        forall i :: 0 <= i < |es.value| ==> ProxyFor(Ok(r.value[i]), es.value[i], iface, before, after, interfacesOf)
  }

  /** `proxyPlusList` with the guard its message describes: every element is proxied in turn. */
  method ProxyPlusList(es: Option<seq<Option<ObjRef>>>, iface: Option<string>, before: BeforeHandle?,
                       after: AfterHandle?, interfacesOf: InterfacesOf) returns (r: Try<seq<Proxy>>)
    ensures ProxiesFor(r, es, iface, before, after, interfacesOf)
    ensures r.Ok? ==> forall i :: 0 <= i < |r.value| ==> fresh(r.value[i].handler)
  {
    var g := ListGuard(es);
    if g.Some? {
      return Thrown(g.value);
    }
    var xs := es.value;
    var out: seq<Proxy> := [];
    var i := 0;
    while i < |xs|
      invariant 0 <= i <= |xs| && |out| == i
      invariant forall j :: 0 <= j < i ==> ProxyGuard(xs[j], iface).None?
      invariant forall j :: 0 <= j < i ==> fresh(out[j].handler)
      invariant forall j :: 0 <= j < i ==> ProxyFor(Ok(out[j]), xs[j], iface, before, after, interfacesOf)
    {
      var p := GetProxy(xs[i], iface, before, after, interfacesOf);
      if p.Thrown? {
        ListFailureAt(xs, iface, i);
        return Thrown(p.exc);
      }
      out := out + [p.value];
      i := i + 1;
    }
    r := Ok(out);
  }

  /** `proxy(list, iface)`: no chains. */
  method ProxyList(es: Option<seq<Option<ObjRef>>>, iface: Option<string>, interfacesOf: InterfacesOf)
    returns (r: Try<seq<Proxy>>)
    ensures ProxiesFor(r, es, iface, null, null, interfacesOf)
    ensures r.Ok? ==> forall i :: 0 <= i < |r.value| ==> fresh(r.value[i].handler)
  {
    r := ProxyPlusList(es, iface, null, null, interfacesOf);
  }

  /** `proxyBeforePlus(list, iface, before)`: no after chain. */
  method ProxyBeforePlusList(es: Option<seq<Option<ObjRef>>>, iface: Option<string>, before: BeforeHandle?,
                             interfacesOf: InterfacesOf) returns (r: Try<seq<Proxy>>)
    ensures ProxiesFor(r, es, iface, before, null, interfacesOf)
    ensures r.Ok? ==> forall i :: 0 <= i < |r.value| ==> fresh(r.value[i].handler)
  {
    r := ProxyPlusList(es, iface, before, null, interfacesOf);
  }

  /** `proxyAfterPlus(list, iface, after)`: no before chain. */
  method ProxyAfterPlusList(es: Option<seq<Option<ObjRef>>>, iface: Option<string>, after: AfterHandle?,
                            interfacesOf: InterfacesOf) returns (r: Try<seq<Proxy>>)
    ensures ProxiesFor(r, es, iface, null, after, interfacesOf)
    ensures r.Ok? ==> forall i :: 0 <= i < |r.value| ==> fresh(r.value[i].handler)
  {
    r := ProxyPlusList(es, iface, null, after, interfacesOf);
  }

  /** A list with a null element is refused even when the interface type is null too: the target is checked first. */
  lemma NullElementRefused(es: seq<Option<ObjRef>>, iface: Option<string>, i: nat)
    requires i < |es| && es[i].None?
    requires forall j :: 0 <= j < i ==> es[j].Some?
    requires iface.Some? || i == 0
    ensures ListFailure(es, iface) == Some(Raise(CampanulaRuntimeException, NoObjectMessage))
  {
    ListFailureAt(es, iface, i);
  }

  /** With a null interface type, a non-empty list of targets fails at its first element. */
  lemma NullInterfaceRefused(es: seq<Option<ObjRef>>)
    requires |es| > 0
    ensures ListFailure(es, None) == ProxyGuard(es[0], None)
    ensures ListFailure(es, None).Some?
  {
    ListFailureAt(es, None, 0);
  }
}
