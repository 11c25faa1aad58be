/**
 * `CFieldAssignHandle`: a before-handler that, for a method annotated with
 * `@CFieldAssign(fieldName = {...})`, assigns each named field of the target
 * from a registered producer before the call is made.
 */
module FieldAssign {
  import opened Base
  import opened ProxyParam

  /** A `CFieldAssignMethod`: the field it serves and what `getFieldValue()` yields. */
  datatype Producer = Producer(fieldName: string, value: Try<Value>)

  /** The handle's `value` map: field name to the producer registered for it. */
  type Registry = map<string, Producer>

  const NoProducers: Exc := Raise(CampanulaRuntimeException, "The assignment method cannot be null")
  const NoFieldSelected: Exc := Raise(CampanulaRuntimeException, "The field to assign was not selected")

  function DuplicateProducer(name: string): Exc
  {
    Raise(CampanulaRuntimeException, "There are duplicates in the assignment method, is : " + name)
  }

  function MissingProducer(name: string): Exc
  {
    Raise(CampanulaRuntimeException, "lack " + name + " assign method")
  }

  /** `Class.getDeclaredField(name)` on a class without that field. */
  function NoSuchField(name: string): Exc
  {
    Raise(NoSuchFieldException, name)
  }

  /** The producer at `j` serves a field an earlier producer already serves. */
  ghost predicate Repeats(ps: seq<Producer>, j: int)
    requires 0 <= j < |ps|
  {
    exists i :: 0 <= i < j && ps[i].fieldName == ps[j].fieldName
  }

  /**
   * The constructor: a null or empty producer list is refused; otherwise the
   * producers are registered in list order and the first one serving an
   * already registered field is refused, naming that field.
   */
  method BuildRegistry(producers: Option<seq<Producer>>) returns (r: Try<Registry>)
    ensures producers.None? || producers.value == [] ==> r == Thrown(NoProducers)
    ensures producers.Some? && producers.value != [] ==>
              (r.Ok? <==> forall j :: 0 <= j < |producers.value| ==> !Repeats(producers.value, j))
    ensures r.Ok? ==>
              (producers.Some? &&
               r.value.Keys == (set p | p in producers.value :: p.fieldName) &&
               forall p :: p in producers.value ==> r.value[p.fieldName] == p)
    ensures r.Thrown? && producers.Some? && producers.value != [] ==>
              exists j :: 0 <= j < |producers.value| && Repeats(producers.value, j) &&
                (forall i :: 0 <= i < j ==> !Repeats(producers.value, i)) &&
                r.exc == DuplicateProducer(producers.value[j].fieldName)
  {
    if producers.None? || |producers.value| == 0 {
      return Thrown(NoProducers);
    }
    var ps := producers.value;
    var m: Registry := map[];
    for j := 0 to |ps|
      invariant forall i :: 0 <= i < j ==> !Repeats(ps, i)
      invariant m.Keys == set i | 0 <= i < j :: ps[i].fieldName
      invariant forall i :: 0 <= i < j ==> m[ps[i].fieldName] == ps[i]
    {
      if ps[j].fieldName in m {
        ghost var i :| 0 <= i < j && ps[i].fieldName == ps[j].fieldName;
        assert Repeats(ps, j);
        r := Thrown(DuplicateProducer(ps[j].fieldName));
        assert 0 <= j < |ps| && Repeats(ps, j) && (forall i :: 0 <= i < j ==> !Repeats(ps, i)) &&
               r.exc == DuplicateProducer(ps[j].fieldName);
        return;
      }
      m := m[ps[j].fieldName := ps[j]];
    }
    assert forall p :: p in ps ==> exists i :: 0 <= i < |ps| && ps[i] == p;
    r := Ok(m);
  }

  /** Index of the first name without a registered producer, or `|names|`. */
  function FirstMissing(names: seq<string>, reg: Registry): (k: nat)
    ensures k <= |names|
    ensures forall i :: 0 <= i < k ==> names[i] in reg
    ensures k < |names| ==> names[k] !in reg
  {
    if names == [] then 0
    else if names[0] !in reg then 0
    else 1 + FirstMissing(names[1..], reg)
  }

  /** The store after an assignment loop, and the exception that stopped it, if any. */
  datatype Realized = Realized(store: Store, failure: Option<Exc>)

  /**
   * The second loop of `realize`: for each name in order, look the field up
   * on the target (a null target throws NullPointerException, an undeclared
   * field NoSuchFieldException), ask the producer for the value and store it.
   * Fields assigned before a failure stay assigned.
   */
  function AssignAll(reg: Registry, proxy: Option<ObjRef>, names: seq<string>, s: Store): (r: Realized)
    requires forall f :: f in names ==> f in reg
    decreases |names|
  {
    if names == [] then Realized(s, None)
    else if proxy.None? then Realized(s, Some(NullPointer))
    else
      var p, f := proxy.value, names[0];
      if p !in s || f !in s[p] then Realized(s, Some(NoSuchField(f)))
      else
        match reg[f].value
        case Thrown(e) => Realized(s, Some(e))
        case Ok(v) => AssignAll(reg, proxy, names[1..], s[p := s[p][f := v]])
  }

  /** `realize(beforeParam)`, before `operate` wraps its exception. */
  function RealizeSpec(reg: Registry, c: Option<BeforeFields>, s: Store): Realized
  {
    if c.None? || c.value.callee.None? then Realized(s, Some(NullPointer))
    else
      match c.value.callee.value.assign
      case None => Realized(s, None)
      case Some(names) =>
        if |names| < 1 then Realized(s, Some(NoFieldSelected))
        else if FirstMissing(names, reg) < |names| then
          Realized(s, Some(MissingProducer(names[FirstMissing(names, reg)])))
        else AssignAll(reg, c.value.proxy, names, s)
  }

  /** `operate(beforeParam)`: `realize`, with any exception wrapped in CampanulaRuntimeException. */
  function OperateSpec(reg: Registry, c: Option<BeforeFields>, s: Store): (r: Realized)
    ensures r.store == RealizeSpec(reg, c, s).store
    ensures r.failure.Some? <==> RealizeSpec(reg, c, s).failure.Some?
    ensures r.failure.Some? ==> r.failure.value == WrapCampanula(RealizeSpec(reg, c, s).failure.value)
  {
    var r := RealizeSpec(reg, c, s);
    if r.failure.Some? then Realized(r.store, Some(WrapCampanula(r.failure.value))) else r
  }

  /** The second loop of `realize`, proved against `AssignAll`. */
  method AssignLoop(reg: Registry, proxy: Option<ObjRef>, names: seq<string>, store: FieldStore)
    returns (failure: Option<Exc>)
    requires forall f :: f in names ==> f in reg
    modifies store
    ensures Realized(store.fields, failure) == AssignAll(reg, proxy, names, old(store.fields))
  {
    for j := 0 to |names|
      invariant AssignAll(reg, proxy, names[j..], store.fields) == AssignAll(reg, proxy, names, old(store.fields))
    {
      assert names[j..][1..] == names[j + 1..];
      if proxy.None? {
        return Some(NullPointer);
      }
      var p, f := proxy.value, names[j];
      if p !in store.fields || f !in store.fields[p] {
        return Some(NoSuchField(f));
      }
      var v := reg[f].value;
      if v.Thrown? {
        return Some(v.exc);
      }
      store.fields := store.fields[p := store.fields[p][f := v.value]];
    }
    assert names[|names|..] == [];
    failure := None;
  }

  /**
   * `realize`: read the annotation of the method being called; do nothing
   * without one; refuse an empty name list; check that every name has a
   * producer before assigning any field; then assign the fields in order.
   */
  method Realize(reg: Registry, ctx: BeforeParam?, store: FieldStore) returns (failure: Option<Exc>)
    modifies store
    ensures Realized(store.fields, failure) == RealizeSpec(reg, BeforeOf(ctx), old(store.fields))
  {
    if ctx == null {
      return Some(NullPointer);
    }
    assert BeforeOf(ctx) == Some(ctx.Fields());
    var callee := ctx.GetMethod();
    if callee.None? {
      return Some(NullPointer);
    }
    if callee.value.assign.None? {
      return None;
    }
    var names := callee.value.assign.value;
    if |names| < 1 {
      return Some(NoFieldSelected);
    }
    for j := 0 to |names|
      invariant forall i :: 0 <= i < j ==> names[i] in reg
      invariant FirstMissing(names, reg) >= j
      invariant store.fields == old(store.fields)
    {
      if names[j] !in reg {
        FirstMissingIs(names, reg, j);
        return Some(MissingProducer(names[j]));
      }
      FirstMissingAfter(names, reg, j);
    }
    var proxy := ctx.GetProxy();
    failure := AssignLoop(reg, proxy, names, store);
  }

  lemma {:induction false} FirstMissingIs(names: seq<string>, reg: Registry, j: nat)
    requires j < |names| && names[j] !in reg
    requires forall i :: 0 <= i < j ==> names[i] in reg
    ensures FirstMissing(names, reg) == j
  {
    if j > 0 {
      FirstMissingIs(names[1..], reg, j - 1);
    }
  }

  lemma {:induction false} FirstMissingAfter(names: seq<string>, reg: Registry, j: nat)
    requires j < |names| && names[j] in reg
    requires forall i :: 0 <= i < j ==> names[i] in reg
    ensures FirstMissing(names, reg) >= j + 1
  {
    if j > 0 {
      FirstMissingAfter(names[1..], reg, j - 1);
    }
  }

  /** Every name is checked before any field is written: a missing producer leaves the store alone. */
  lemma MissingProducerChangesNothing(reg: Registry, c: Option<BeforeFields>, s: Store, f: string)
    requires c.Some? && c.value.callee.Some? && c.value.callee.value.assign.Some?
    requires f in c.value.callee.value.assign.value && f !in reg
    ensures RealizeSpec(reg, c, s).store == s
    ensures RealizeSpec(reg, c, s).failure == Some(MissingProducer(
              c.value.callee.value.assign.value[FirstMissing(c.value.callee.value.assign.value, reg)]))
  {
  }

  /**
   * A completed assignment leaves every named field of the target holding
   * its producer's value, and every other field and object as it was.
   */
  lemma {:induction false} AssignAllSetsNamedFields(reg: Registry, proxy: Option<ObjRef>, names: seq<string>, s: Store)
    requires forall f :: f in names ==> f in reg
    requires AssignAll(reg, proxy, names, s).failure.None?
    ensures var t := AssignAll(reg, proxy, names, s).store;
            (names != [] ==>
               (proxy.Some? && proxy.value in s && proxy.value in t &&
                t[proxy.value].Keys == s[proxy.value].Keys &&
                (forall f :: f in names ==>
                   f in s[proxy.value] && reg[f].value.Ok? && t[proxy.value][f] == reg[f].value.value) &&
                (forall g :: g in s[proxy.value] && g !in names ==> t[proxy.value][g] == s[proxy.value][g]))) &&
            t.Keys == s.Keys &&
            (forall q :: q in s && (proxy.None? || q != proxy.value) ==> t[q] == s[q])
    decreases |names|
  {
    if names != [] {
      var p, f := proxy.value, names[0];
      var v := reg[f].value.value;
      var s1 := s[p := s[p][f := v]];
      AssignAllSetsNamedFields(reg, proxy, names[1..], s1);
      assert forall g :: g in names ==> g == f || g in names[1..];
    }
  }

  /** Whatever stops the loop, fields that are not named and other objects keep their values. */
  lemma {:induction false} AssignAllFrame(reg: Registry, proxy: Option<ObjRef>, names: seq<string>, s: Store)
    requires forall f :: f in names ==> f in reg
    ensures var t := AssignAll(reg, proxy, names, s).store;
            t.Keys == s.Keys &&
            (forall q :: q in s && (proxy.None? || q != proxy.value) ==> t[q] == s[q]) &&
            (proxy.Some? && proxy.value in s ==>
               t[proxy.value].Keys == s[proxy.value].Keys &&
               forall g :: g in s[proxy.value] && g !in names ==> t[proxy.value][g] == s[proxy.value][g])
    decreases |names|
  {
    if names != [] && proxy.Some? {
      var p, f := proxy.value, names[0];
      if p in s && f in s[p] && reg[f].value.Ok? {
        AssignAllFrame(reg, proxy, names[1..], s[p := s[p][f := reg[f].value.value]]);
      }
    }
  }
}
