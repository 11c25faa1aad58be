/**
 * The chain of responsibility: nodes linked through `next`, each turning its
 * input into an output, the output handed on to the successor unless the
 * successor insists on the input it was constructed with.
 *
 * The generic input and output types of a link are collapsed into one value
 * type `V`; the subclass's `handler(IN)` is the node's `step`, a function that
 * receives the (nullable) input and returns an output or throws.
 */
module Cor {
  import opened Base

  /** The overridable `handler(IN)` of a node. */
  type Step<!V> = Option<V> -> Try<Option<V>>

  /** The parts of a node that never change after construction. */
  datatype Link<!V> = Link(step: Step<V>, external: bool)

  /** The parts of a node that handling changes. */
  datatype NodeState<V> = NodeState(inParam: Option<V>, out: Option<V>)

  /** The node snapshots after one handler call, and the exception it threw, if any. */
  datatype Handled<V> = Handled(nodes: seq<NodeState<V>>, failure: Option<Exc>)

  /** The node snapshots after running a prefix of the chain; `ran` handlers were called. */
  datatype Progress<V> = Progress(nodes: seq<NodeState<V>>, failure: Option<Exc>, ran: nat)

  /**
   * `handler()` of node `i`: its output is the step applied to its input, and
   * the successor's input becomes that output unless the successor uses its
   * external input. A step that throws changes nothing.
   */
  function HandleAt<V>(links: seq<Link<V>>, ns: seq<NodeState<V>>, i: nat): (r: Handled<V>)
    requires |links| == |ns| && i < |ns|
    ensures |r.nodes| == |ns|
    ensures forall j :: 0 <= j < |ns| && j != i && j != i + 1 ==> r.nodes[j] == ns[j]
    ensures r.nodes[i].inParam == ns[i].inParam
    ensures i + 1 < |ns| ==> r.nodes[i + 1].out == ns[i + 1].out
    ensures links[i].step(ns[i].inParam).Thrown? ==>
              r.failure == Some(links[i].step(ns[i].inParam).exc) && r.nodes == ns
    ensures links[i].step(ns[i].inParam).Ok? ==>
              r.failure.None? && r.nodes[i].out == links[i].step(ns[i].inParam).value
    ensures links[i].step(ns[i].inParam).Ok? && i + 1 < |ns| ==>
              r.nodes[i + 1].inParam ==
                (if links[i + 1].external then ns[i + 1].inParam else links[i].step(ns[i].inParam).value)
  {
    match links[i].step(ns[i].inParam)
    case Thrown(e) => Handled(ns, Some(e))
    case Ok(o) =>
      var ns1 := ns[i := ns[i].(out := o)];
      if i + 1 < |ns| && !links[i + 1].external then
        Handled(ns1[i + 1 := ns1[i + 1].(inParam := o)], None)
      else
        Handled(ns1, None)
  }

  /** Handles nodes `0 .. k-1` in link order, stopping at the first step that throws. */
  function RunTo<V>(links: seq<Link<V>>, ns: seq<NodeState<V>>, k: nat): (r: Progress<V>)
    requires |links| == |ns| && k <= |ns|
    ensures |r.nodes| == |ns|
    ensures r.ran <= k
    ensures r.failure.None? ==> r.ran == k
    ensures r.failure.Some? ==> r.ran >= 1
    decreases k
  {
    if k == 0 then Progress(ns, None, 0)
    else
      var p := RunTo(links, ns, k - 1);
      if p.failure.Some? then p
      else
        var h := HandleAt(links, p.nodes, k - 1);
        Progress(h.nodes, h.failure, k)
  }

  /** What `execute()` on the head returns: the last node's output, or the exception. */
  function ExecuteSpec<V>(links: seq<Link<V>>, ns: seq<NodeState<V>>): Try<Option<V>>
    requires |links| == |ns| > 0
  {
    var p := RunTo(links, ns, |ns|);
    if p.failure.Some? then Thrown(p.failure.value) else Ok(p.nodes[|ns| - 1].out)
  }

  /** Reference semantics: the steps composed in link order, the first exception ending it. */
  function Compose<V>(links: seq<Link<V>>, x: Option<V>): Try<Option<V>>
    decreases |links|
  {
    if links == [] then Ok(x)
    else
      match Compose(links[..|links| - 1], x)
      case Thrown(e) => Thrown(e)
      case Ok(y) => links[|links| - 1].step(y)
  }

  /** No node after the head takes its external input. */
  ghost predicate Propagating<V>(links: seq<Link<V>>)
  {
    forall j :: 0 < j < |links| ==> !links[j].external
  }

  /** Once a handler has thrown, running further changes nothing. */
  lemma {:induction false} FailureSticks<V>(links: seq<Link<V>>, ns: seq<NodeState<V>>, k: nat, m: nat)
    requires |links| == |ns| && k <= m <= |ns|
    requires RunTo(links, ns, k).failure.Some?
    ensures RunTo(links, ns, m) == RunTo(links, ns, k)
    decreases m - k
  {
    if m > k {
      FailureSticks(links, ns, k, m - 1);
    }
  }

  /**
   * The head's input, and the input of every node that uses its external
   * input, is never overwritten by running the chain.
   */
  lemma {:induction false} ExternalInputKept<V>(links: seq<Link<V>>, ns: seq<NodeState<V>>, k: nat, j: nat)
    requires |links| == |ns| && k <= |ns| && j < |ns|
    requires j == 0 || links[j].external
    ensures RunTo(links, ns, k).nodes[j].inParam == ns[j].inParam
  {
    if k > 0 {
      ExternalInputKept(links, ns, k - 1, j);
    }
  }

  /** The invariant behind `Composition`: after `k` handlers the chain carries the composed value. */
  lemma {:induction false} ComposedPrefix<V>(links: seq<Link<V>>, ns: seq<NodeState<V>>, k: nat)
    requires |links| == |ns| && 0 < k <= |ns| && Propagating(links)
    ensures Compose(links[..k], ns[0].inParam).Thrown? ==>
              RunTo(links, ns, k).failure == Some(Compose(links[..k], ns[0].inParam).exc)
    ensures Compose(links[..k], ns[0].inParam).Ok? ==>
              RunTo(links, ns, k).failure.None? &&
              RunTo(links, ns, k).nodes[k - 1].out == Compose(links[..k], ns[0].inParam).value &&
              (k < |ns| ==> RunTo(links, ns, k).nodes[k].inParam == Compose(links[..k], ns[0].inParam).value)
  {
    var x := ns[0].inParam;
    assert links[..k][..k - 1] == links[..k - 1];
    assert links[..k][k - 1] == links[k - 1];
    var p := RunTo(links, ns, k - 1);
    if k == 1 {
      assert Compose(links[..0], x) == Ok(x);
      assert p.nodes == ns;
    } else {
      ComposedPrefix(links, ns, k - 1);
    }
    // the input node k-1 held when it ran is the value composed so far
    assert Compose(links[..k - 1], x).Ok? ==> p.failure.None? && p.nodes[k - 1].inParam == Compose(links[..k - 1], x).value by {
      if k == 1 {
        ExternalInputKept(links, ns, 0, 0);
      }
    }
  }

  /**
   * When no node after the head uses its external input, executing the chain
   * is the composition of its steps applied to the head's input.
   */
  lemma {:induction false} Composition<V>(links: seq<Link<V>>, ns: seq<NodeState<V>>)
    requires |links| == |ns| > 0 && Propagating(links)
    ensures ExecuteSpec(links, ns) == Compose(links, ns[0].inParam)
  {
    ComposedPrefix(links, ns, |ns|);
    assert links[..|ns|] == links;
  }

  /** A chain of one node returns that node's step applied to its input. */
  lemma SingleNode<V>(links: seq<Link<V>>, ns: seq<NodeState<V>>)
    requires |links| == |ns| == 1
    ensures ExecuteSpec(links, ns) == links[0].step(ns[0].inParam)
  {
  }

  /**
   * After a run that threw nothing, every node's output is its step applied
   * to the input it holds: each handler ran, on the input it was handed.
   */
  lemma {:induction false} EachNodeRanOnItsInput<V>(links: seq<Link<V>>, ns: seq<NodeState<V>>, k: nat)
    requires |links| == |ns| && k <= |ns|
    requires RunTo(links, ns, k).failure.None?
    ensures forall i :: 0 <= i < k ==>
              links[i].step(RunTo(links, ns, k).nodes[i].inParam) == Ok(RunTo(links, ns, k).nodes[i].out)
  {
    if k > 0 {
      var p := RunTo(links, ns, k - 1);
      EachNodeRanOnItsInput(links, ns, k - 1);
      var q := RunTo(links, ns, k);
      assert q.nodes == HandleAt(links, p.nodes, k - 1).nodes;
      forall i | 0 <= i < k
        ensures links[i].step(q.nodes[i].inParam) == Ok(q.nodes[i].out)
      {
        if i < k - 1 {
          assert q.nodes[i] == p.nodes[i];
        }
      }
    }
  }

  /** Nodes after the one whose step threw were never handled: their state is untouched. */
  lemma {:induction false} NodesAfterFailureUntouched<V>(links: seq<Link<V>>, ns: seq<NodeState<V>>, k: nat, j: nat)
    requires |links| == |ns| && k <= |ns|
    requires RunTo(links, ns, k).failure.Some? && RunTo(links, ns, k).ran <= j < |ns|
    ensures RunTo(links, ns, k).nodes[j] == ns[j]
  {
    var p := RunTo(links, ns, k - 1);
    if p.failure.Some? {
      NodesAfterFailureUntouched(links, ns, k - 1, j);
    } else {
      UntouchedBeyond(links, ns, k - 1, j);
    }
  }

  /** Running `k` handlers leaves the nodes after `k` untouched and node `k`'s output alone. */
  lemma {:induction false} UntouchedBeyond<V>(links: seq<Link<V>>, ns: seq<NodeState<V>>, k: nat, j: nat)
    requires |links| == |ns| && k <= j < |ns|
    ensures RunTo(links, ns, k).nodes[j].out == ns[j].out
    ensures j > k ==> RunTo(links, ns, k).nodes[j] == ns[j]
  {
    if k > 0 {
      UntouchedBeyond(links, ns, k - 1, j);
    }
  }

  /** A chain node: `AbstractChain` with the `Chain` interface's defaults. */
  class AbstractChain<V> {
    /** The data this node handles. */
    var inParam: Option<V>
    /** True: keep the constructor's input instead of the predecessor's output. */
    const useExternalInParam: bool
    var next: AbstractChain?<V>
    /** The data this node produced. */
    var out: Option<V>
    /** The subclass's `handler(IN)`. */
    const step: Step<V>

    constructor (step: Step<V>)
      ensures inParam.None? && out.None? && next == null && !useExternalInParam && this.step == step
    {
      this.step := step;
      inParam := None;
      out := None;
      next := null;
      useExternalInParam := false;
    }

    constructor WithInput(step: Step<V>, inParam: Option<V>)
      ensures this.inParam == inParam && out.None? && next == null && !useExternalInParam
      ensures this.step == step
    {
      this.step := step;
      this.inParam := inParam;
      out := None;
      next := null;
      useExternalInParam := false;
    }

    constructor WithExternal(step: Step<V>, inParam: Option<V>, useExternalInParam: bool)
      ensures this.inParam == inParam && out.None? && next == null
      ensures this.useExternalInParam == useExternalInParam && this.step == step
    {
      this.step := step;
      this.inParam := inParam;
      out := None;
      next := null;
      this.useExternalInParam := useExternalInParam;
    }

    function AsLink(): Link<V> { Link(step, useExternalInParam) }

    function State(): NodeState<V>
      reads this
    {
      NodeState(inParam, out)
    }

    /** The node whose input `handler()` may overwrite. */
    function Successor(): set<AbstractChain<V>>
      reads this
    {
      if next == null then {} else {next}
    }

    /**
     * `handler()`: runs the step on the input, stores the output, hands it to
     * the successor unless the successor uses its external input, and
     * returns the successor.
     */
    method Handler() returns (r: Try<AbstractChain?<V>>)
      modifies this`out, Successor()`inParam
      ensures step(old(inParam)).Thrown? ==>
                r == Thrown(step(old(inParam)).exc) && out == old(out) &&
                (next != null ==> next.inParam == old(next.inParam))
      ensures step(old(inParam)).Ok? ==>
                r == Ok(next) && out == step(old(inParam)).value &&
                (next != null ==>
                   next.inParam == if next.useExternalInParam then old(next.inParam) else out)
    {
      var o := step(inParam);
      if o.Thrown? {
        return Thrown(o.exc);
      }
      out := o.value;
      if next != null && !next.useExternalInParam {
        next.inParam := out;
      }
      r := Ok(next);
    }

    /** `setNext(next)`: links the successor and returns it, for fluent chaining. */
    method SetNext(n: AbstractChain?<V>) returns (r: AbstractChain?<V>)
      modifies this`next
      ensures next == n && r == n
    {
      next := n;
      r := n;
    }

    method HasNext() returns (b: bool)
      ensures b <==> next != null
    {
      b := next != null;
    }

    method GetOutData() returns (o: Option<V>)
      ensures o == out
    {
      o := out;
    }

    method SetInParam(x: Option<V>)
      modifies this`inParam
      ensures inParam == x
    {
      inParam := x;
    }

    method HandleOnPath(ghost path: seq<AbstractChain<V>>, ghost k: nat, ghost L: seq<Link<V>>, ghost S0: seq<NodeState<V>>)
      returns (res: Try<AbstractChain?<V>>)
      requires IsPath(path) && k < |path| && path[k] == this
      requires L == Links(path) && |S0| == |path| && RunTo(L, S0, k).failure.None?
      requires States(path) == RunTo(L, S0, k).nodes
      modifies this`out, Successor()`inParam
      ensures IsPath(path) && States(path) == RunTo(L, S0, k + 1).nodes
      ensures res.Thrown? <==> RunTo(L, S0, k + 1).failure.Some?
      ensures res.Thrown? ==> RunTo(L, S0, k + 1).failure == Some(res.exc)
      ensures res.Ok? ==> res.value == next
    {
      res := HandleInPath(path, k);
    }

    /**
     * One `handler()` call on the node at position `k` of `path`, seen
     * through one handling step of the whole path.
     */
    method HandleInPath(ghost path: seq<AbstractChain<V>>, ghost k: nat) returns (res: Try<AbstractChain?<V>>)
      requires IsPath(path) && k < |path| && path[k] == this
      modifies this`out, Successor()`inParam
      ensures IsPath(path)
      ensures States(path) == HandleAt(Links(path), old(States(path)), k).nodes
      ensures res.Thrown? <==> HandleAt(Links(path), old(States(path)), k).failure.Some?
      ensures res.Thrown? ==> HandleAt(Links(path), old(States(path)), k).failure == Some(res.exc)
      ensures res.Ok? ==> res.value == next
    {
      ghost var before := States(path);
      assert k + 1 < |path| ==> next == path[k + 1];
      assert forall j :: 0 <= j < |path| && j != k ==> path[j] != this;
      assert forall j :: 0 <= j < |path| && j != k + 1 ==> path[j] !in Successor();
      res := Handler();
      HandlerMatchesHandleAt(Links(path), before, States(path), k);
    }

    /**
     * `execute()`: handles every node from this one to the end of the chain,
     * in link order, and returns the last node's output. `path` is the chain
     * from this node on; it must end (Java would loop forever on a cycle).
     * Nodes before this one are not on the path and are never handled.
     */
    method Execute(ghost path: seq<AbstractChain<V>>) returns (r: Try<Option<V>>, ghost ran: seq<AbstractChain<V>>)
      requires IsPath(path) && path[0] == this
      modifies path
      ensures IsPath(path) && forall n :: n in path ==> n.next == old(n.next)
      ensures States(path) == RunTo(Links(path), old(States(path)), |path|).nodes
      ensures r == ExecuteSpec(Links(path), old(States(path)))
      ensures ran == path[..RunTo(Links(path), old(States(path)), |path|).ran]
    {
      ghost var L := Links(path);
      ghost var S0 := States(path);
      var cursor := this;
      ghost var k := 0;
      while cursor.next != null
        invariant 0 <= k < |path| && cursor == path[k]
        invariant IsPath(path) && forall n :: n in path ==> n.next == old(n.next)
        invariant RunTo(L, S0, k).failure.None?
        invariant States(path) == RunTo(L, S0, k).nodes
        decreases |path| - k
      {
        PathStep(path, k);
        var res := cursor.HandleOnPath(path, k, L, S0);
        if res.Thrown? {
          FailureSticks(L, S0, k + 1, |path|);
          r := Thrown(res.exc);
          ran := path[..k + 1];
          return;
        }
        cursor := res.value;
        k := k + 1;
      }
      PathStep(path, k);
      var res := cursor.HandleOnPath(path, k, L, S0);
      ran := path;
      if res.Thrown? {
        r := Thrown(res.exc);
        return;
      }
      r := Ok(cursor.out);
    }
  }

  /** `path` is a finite chain of distinct nodes linked through `next`, ending in null. */
  ghost predicate IsPath<V>(path: seq<AbstractChain<V>>)
    reads path
  {
    && |path| > 0
    && (forall i :: 0 <= i < |path| - 1 ==> path[i].next == path[i + 1])
    && path[|path| - 1].next == null
    && (forall i, j :: 0 <= i < j < |path| ==> path[i] != path[j])
  }

  /** Along a path, a node's successor is the next path element, and only the last has none. */
  lemma PathStep<V>(path: seq<AbstractChain<V>>, k: nat)
    requires IsPath(path) && k < |path|
    ensures k + 1 < |path| ==> path[k].next == path[k + 1]
    ensures path[k].next == null <==> k == |path| - 1
    ensures path[k].Successor() <= set n | n in path
  {
  }

  function Links<V>(path: seq<AbstractChain<V>>): (ls: seq<Link<V>>)
    ensures |ls| == |path| && forall i :: 0 <= i < |path| ==> ls[i] == path[i].AsLink()
  {
    seq(|path|, i requires 0 <= i < |path| => path[i].AsLink())
  }

  ghost function States<V>(path: seq<AbstractChain<V>>): (s: seq<NodeState<V>>)
    reads path
    ensures |s| == |path| && forall i :: 0 <= i < |path| ==> s[i] == path[i].State()
  {
    seq(|path|, i requires 0 <= i < |path| reads path => path[i].State())
  }

  /**
   * Ties one `Handler()` call on node `k` to `HandleAt`: given what the call
   * does to node `k`'s output and to its successor's input, and that nothing
   * else changed, the snapshots after the call are the spec's.
   */
  lemma HandlerMatchesHandleAt<V>(links: seq<Link<V>>, before: seq<NodeState<V>>, after: seq<NodeState<V>>, k: nat)
    requires |links| == |before| == |after| && k < |before|
    requires forall j :: 0 <= j < |after| && j != k ==> after[j].out == before[j].out
    requires forall j :: 0 <= j < |after| && j != k + 1 ==> after[j].inParam == before[j].inParam
    requires links[k].step(before[k].inParam).Thrown? ==>
               (after[k].out == before[k].out &&
                (k + 1 < |after| ==> after[k + 1].inParam == before[k + 1].inParam))
    requires links[k].step(before[k].inParam).Ok? ==>
               (after[k].out == links[k].step(before[k].inParam).value &&
                (k + 1 < |after| ==>
                   after[k + 1].inParam == (if links[k + 1].external then before[k + 1].inParam else after[k].out)))
    ensures after == HandleAt(links, before, k).nodes
  {
  }
}
