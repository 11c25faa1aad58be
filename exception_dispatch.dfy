/**
 * What both revisions of `CExceptionHandle` share: two index-aligned lists
 * (exception classes and their handlers) plus one fallback slot reserved for
 * exactly `Exception.class`, and the scan that picks the handler for an
 * exception by its exact runtime class.
 */
module ExceptionDispatch {
  import opened Base

  /** The registrations of one handle: `exceptions`, the handler list of the handle's mode, and the fallback. */
  datatype Table<H> = Table(classes: seq<ExcClass>, handlers: seq<H>, fallback: Option<H>)

  /** The shape the builders keep: the lists stay index-aligned and `Exception` only ever lands in the fallback. */
  predicate Aligned<H>(t: Table<H>)
  {
    |t.classes| == |t.handlers| && Exception !in t.classes
  }

  /** The empty table a builder starts from. */
  function EmptyTable<H>(): (t: Table<H>)
    ensures Aligned(t) && t.classes == [] && t.fallback.None?
  {
    Table([], [], None)
  }

  /** `add(eClass, h)`: `Exception` overwrites the fallback, any other class is appended with its handler. */
  function Added<H>(t: Table<H>, c: ExcClass, h: H): (r: Table<H>)
    ensures c == Exception ==> r.classes == t.classes && r.handlers == t.handlers && r.fallback == Some(h)
    ensures c != Exception ==> r.classes == t.classes + [c] && r.handlers == t.handlers + [h] && r.fallback == t.fallback
    ensures Aligned(t) ==> Aligned(r)
  {
    if c == Exception then t.(fallback := Some(h))
    else Table(t.classes + [c], t.handlers + [h], t.fallback)
  }

  /** The first index at or after `from` whose class equals `c`. */
  function FirstMatchFrom(classes: seq<ExcClass>, c: ExcClass, from: nat): (r: Option<nat>)
    requires from <= |classes|
    ensures r.Some? ==> from <= r.value < |classes| && classes[r.value] == c &&
                        forall j :: from <= j < r.value ==> classes[j] != c
    ensures r.None? <==> forall j :: from <= j < |classes| ==> classes[j] != c
    decreases |classes| - from
  {
    if from == |classes| then None
    else if classes[from] == c then Some(from)
    else FirstMatchFrom(classes, c, from + 1)
  }

  /** The first index whose class is exactly `c`: a subclass registered earlier does not match. */
  function FirstMatch(classes: seq<ExcClass>, c: ExcClass): (r: Option<nat>)
    ensures r.Some? ==> r.value < |classes| && classes[r.value] == c && forall j :: 0 <= j < r.value ==> classes[j] != c
    ensures r.None? <==> c !in classes
  {
    FirstMatchFrom(classes, c, 0)
  }

  /** Which registration `handle` uses for an exception of class `c`. */
  datatype Chosen = Specific(index: nat) | Fallback | Unhandled

  /** The scan of `handle`: the first exact match, else the fallback if set, else none. */
  function Choose<H>(t: Table<H>, c: ExcClass): (r: Chosen)
    ensures r.Specific? <==> c in t.classes
    ensures r.Specific? ==> r.index < |t.classes| && t.classes[r.index] == c &&
                            forall j :: 0 <= j < r.index ==> t.classes[j] != c
    ensures r.Fallback? <==> c !in t.classes && t.fallback.Some?
    ensures r.Unhandled? <==> c !in t.classes && t.fallback.None?
  {
    match FirstMatch(t.classes, c)
    case Some(i) => Specific(i)
    case None => if t.fallback.Some? then Fallback else Unhandled
  }

  /** Appending a class never moves the first match of a class already in the list. */
  lemma FirstMatchAppend(classes: seq<ExcClass>, c: ExcClass, x: ExcClass)
    ensures FirstMatch(classes + [c], x) ==
              (if x in classes then FirstMatch(classes, x) else if x == c then Some(|classes|) else None)
  {
    var cs := classes + [c];
    var r := FirstMatch(cs, x);
    if x in classes {
      var i := FirstMatch(classes, x).value;
      assert cs[i] == x;
      assert r.Some? && r.value <= i;
      assert cs[r.value] == classes[r.value];
    } else if x == c {
      assert cs[|classes|] == x;
      assert r.Some?;
      assert forall j :: 0 <= j < |classes| ==> cs[j] == classes[j];
    } else {
      assert forall j :: 0 <= j < |cs| ==> cs[j] != x;
    }
  }

  /**
   * What one more registration changes: `Exception` only takes over the
   * exceptions no specific entry matched; another class only affects its own
   * exceptions, and only if it was not registered before (the first
   * registration of a class wins).
   */
  lemma AddedChoice<H>(t: Table<H>, c: ExcClass, h: H, x: ExcClass)
    requires Aligned(t)
    ensures c == Exception ==>
              Choose(Added(t, c, h), x) == (if x in t.classes then Choose(t, x) else Fallback)
    ensures c != Exception && (x != c || c in t.classes) ==> Choose(Added(t, c, h), x) == Choose(t, x)
    ensures c != Exception && x == c && c !in t.classes ==> Choose(Added(t, c, h), x) == Specific(|t.classes|)
    ensures Choose(Added(t, c, h), x).Specific? ==>
              var i := Choose(Added(t, c, h), x).index;
              Added(t, c, h).handlers[i] == (if i < |t.handlers| then t.handlers[i] else h)
  {
    if c != Exception {
      FirstMatchAppend(t.classes, c, x);
    }
  }

  /** `FlagEnum`: whether the handle's handlers return a value. */
  datatype Mode = ResultMode | BlankMode

  /** A value returned by a result-mode handler; `None` is the `null` a blank-mode handle returns. */
  function Returned<V>(o: Try<V>): (r: Try<Option<V>>)
    ensures o.Ok? <==> r.Ok?
    ensures o.Ok? ==> r.value == Some(o.value)
    ensures o.Thrown? ==> r.exc == o.exc
  {
    match o
    case Ok(v) => Ok(Some(v))
    case Thrown(e) => Thrown(e)
  }

  /** A consumer's completion as the `null` that a blank-mode `handle` returns. */
  function Consumed<V>(o: Try<Unit>): (r: Try<Option<V>>)
    ensures o.Ok? <==> r == Ok(None)
    ensures o.Thrown? ==> r == Thrown(o.exc)
  {
    match o
    case Ok(_) => Ok(None)
    case Thrown(e) => Thrown(e)
  }

  /** The exception `handle` throws when nothing is registered for `e`. */
  function Unmatched(e: Exc): (x: Exc)
    ensures x.cls == RuntimeException && x.cause == Some(e)
  {
    Wrap(RuntimeException, e)
  }

  /** The callback a choice runs. */
  function ChosenCalls(c: Chosen): (calls: seq<Callback>)
    ensures |calls| == (if c.Unhandled? then 0 else 1)
  {
    match c
    case Specific(i) => [Catch(i)]
    case Fallback => [CatchAll]
    case Unhandled => []
  }
}
