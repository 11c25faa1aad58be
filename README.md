# campanula-utils in Dafny

A model of the core of campanula-utils, a small Java utility library. It has
two package trees: `io.github.campanula.utils`, the newer, and
`org.campanula.utils`, the older. The model covers these parts:

- **The chain of responsibility** (`cor`): nodes linked through `next`. Each
  node turns its input into an output and hands it to its successor, unless
  the successor keeps the input it was constructed with. `execute()` runs
  from the head to the last node.
- **The proxy machinery** (`proxy`):
  - before and after handles, which are chain nodes that edit a shared
    context record;
  - the two context records (`CProxyBeforeParam`, `CProxyAfterParam`);
  - the two revisions of the JDK invocation handler;
  - the proxy factory;
  - the field-assignment before-handle (`CFieldAssignHandle`).
- **The null guards**: the newer `CObjectUtil`, `CListUtil` and `CMapUtil`,
  and the older `CObjectUtil` and `CListUtil`.
- **try/catch delegation**: both revisions of `CExceptionHandle` and
  `CTryUtil`.
- **The condition runner**: the older `CWhereUtil`.

**How Java behaviour becomes data**

- An exception is `Exc(cls, message, cause)`.
- Anything that can throw completes as `Try<T>`: `Ok(value)` or
  `Thrown(exc)`.
- A Java `null` is `None`.
- A callback is given by how it completes.
- The guards, `CTryUtil` and `CWhereUtil` also return a trace. A trace lists
  which callbacks ran, in which order, so that "exactly one callback runs"
  and "the finally method runs" can be stated and proved.

**Classes and pure modules**

- The objects the source updates in place are Dafny classes, and their
  methods are proved against pure specification functions:
  - chain nodes, handles and context records;
  - the invocation handlers;
  - `CExceptionHandle` and its builders;
  - the field store that reflection writes to.
- The static utilities are pure functions.

**Modules**

| file | module | models |
|---|---|---|
| base.dfy | `Base` | exceptions, outcomes, callback traces, `finally` |
| cor.dfy | `Cor` | `Chain`, `AbstractChain` |
| proxy_param.dfy | `ProxyParam` | `CProxyBeforeParam`, `CProxyAfterParam`, objects and their fields |
| proxy_handle.dfy | `ProxyHandle` | `CAbstractBeforeProxyHandle`, `CAbstractAfterProxyHandle` |
| field_assign.dfy | `FieldAssign` | `CFieldAssignHandle` |
| invocation.dfy | `Invocation` | `protogenesis.CInvocationHandler`, `proxy.CInvocationHandler` |
| proxy_factory.dfy | `ProxyFactory` | `protogenesis.CEntityProxyFactory` |
| proxy_scenario.dfy | `ProxyScenario` | the proxy scenario of `TestProxy` |
| exception_dispatch.dfy | `ExceptionDispatch` | the registration tables and the scan shared by both `CExceptionHandle`s |
| exception_handle.dfy | `ExceptionHandle` | `io…param.CExceptionHandle` |
| legacy_exception_handle.dfy | `LegacyExceptionHandle` | `org…param.CExceptionHandle` |
| try_util.dfy | `TryUtil` | `io…method.CTryUtil` |
| legacy_try_util.dfy | `LegacyTryUtil` | `org…method.CTryUtil` |
| guards.dfy | `Guard`, `ObjectUtil`, `ListUtil`, `MapUtil` | `io…method.CObjectUtil`, `CListUtil`, `CMapUtil` |
| legacy_guards.dfy | `LegacyObjectUtil`, `LegacyListUtil` | `org…method.CObjectUtil`, `CListUtil` |
| where_util.dfy | `WhereUtil` | `org…method.CWhereUtil` |

**How overloads map to members**

- One member models a Java method together with its overloads:
  - an overload that only supplies a default message or exception, then
    delegates;
  - for the older utilities, the checked `…Throws` form and the unchecked
    `…RuntimeThrows` form. These differ only in the exception's class.
- The newer `process`/`processThrows` are `convert`/`convertThrows` with the
  result type equal to the input type. So `Convert` and `ConvertThrows` model
  both.

## Model

Source paths are relative to the repository root.

| member | source | states |
|---|---|---|
| Base.WithFinally | src/main/java/io/github/campanula/utils/method/CTryUtil.java:64-68 | a null finally method adds nothing; a non-null one runs last, after everything else, and an exception it throws replaces the outcome |
| Cor.HandleAt | src/main/java/io/github/campanula/utils/cor/AbstractChain.java:42-55 | one `handler()` on node i: its output becomes its step applied to its input, and its own input is kept; the successor's input becomes that output unless the successor uses its external input; no other node changes; a step that throws changes no node and reports the exception |
| Cor.RunTo | src/main/java/io/github/campanula/utils/cor/Chain.java:45-52 | handling a prefix of the chain in link order: with no exception, every node of the prefix was handled; with an exception, at least one handler ran and none after it |
| Cor.FailureSticks | src/main/java/io/github/campanula/utils/cor/Chain.java:45-52 | once a handler has thrown, the run is over: handling further nodes changes no node and keeps the exception |
| Cor.ExternalInputKept | src/main/java/io/github/campanula/utils/cor/AbstractChain.java:51-55 | the head's input, and the input of every node that uses its external input, is never overwritten by running the chain |
| Cor.Composition | src/main/java/io/github/campanula/utils/cor/Chain.java:45-52 | when no node after the head uses its external input, `execute()` equals the steps composed in link order on the head's input, the first exception ending it |
| Cor.SingleNode | src/main/java/io/github/campanula/utils/cor/Chain.java:45-52 | a chain of one node returns that node's step applied to its input |
| Cor.EachNodeRanOnItsInput | src/main/java/io/github/campanula/utils/cor/AbstractChain.java:42-47 | after a run without exception, every handled node's output is its step applied to the input it holds |
| Cor.NodesAfterFailureUntouched | src/main/java/io/github/campanula/utils/cor/Chain.java:47-49 | the nodes after the one whose step threw are never handled: their input and output are as before |
| Cor.UntouchedBeyond | src/main/java/io/github/campanula/utils/cor/Chain.java:47-49 | handling k nodes never touches the output of node k or anything of the nodes after it |
| Cor.AbstractChain.constructor | src/main/java/io/github/campanula/utils/cor/AbstractChain.java:30 | a new node has no input, no output and no successor, and takes its input from its predecessor |
| Cor.AbstractChain.WithInput | src/main/java/io/github/campanula/utils/cor/AbstractChain.java:32-35 | a new node holds the given input, no output and no successor, and still takes its input from its predecessor |
| Cor.AbstractChain.WithExternal | src/main/java/io/github/campanula/utils/cor/AbstractChain.java:37-40 | a new node holds the given input and keeps it or gives it up to its predecessor's output as the flag says |
| Cor.AbstractChain.Handler | src/main/java/io/github/campanula/utils/cor/AbstractChain.java:42-55 | the node's output becomes its step on its input, and the successor's input becomes that output unless the successor uses its external input; the successor is returned; a step that throws leaves the output and the successor's input as they were |
| Cor.AbstractChain.SetNext | src/main/java/io/github/campanula/utils/cor/AbstractChain.java:57-61 | the successor becomes the given node, and the given node is returned for fluent chaining |
| Cor.AbstractChain.HasNext | src/main/java/io/github/campanula/utils/cor/AbstractChain.java:63-66 | true exactly when the node has a successor |
| Cor.AbstractChain.GetOutData | src/main/java/io/github/campanula/utils/cor/AbstractChain.java:68-71 | the node's current output |
| Cor.AbstractChain.SetInParam | src/main/java/io/github/campanula/utils/cor/AbstractChain.java:73-75 | the node's input becomes the given value, nothing else changes |
| Cor.AbstractChain.Execute | src/main/java/io/github/campanula/utils/cor/Chain.java:45-52 | every node from this one to the end of the chain is handled once, in link order, stopping at the first exception; the path stays a path and no link changes; the nodes end in the states of the pure run, and the result is the last node's output or the exception |
| Cor.AbstractChain.HandleOnPath | src/main/java/io/github/campanula/utils/cor/Chain.java:46-49 | one `handler()` on the node at position `k` takes every node of the path from the states after `k` pure steps to those after `k + 1`, and fails exactly when that step fails |
| Cor.AbstractChain.HandleInPath | src/main/java/io/github/campanula/utils/cor/AbstractChain.java:42-55 | one `handler()` on a node of a path leaves the path intact and sets every node to the states of one pure handling step at that position, failing with its exception |
| ProxyParam.BeforeParam.constructor | src/main/java/io/github/campanula/utils/proxy/param/CProxyBeforeParam.java:11-15 | the record holds the given target, method and arguments |
| ProxyParam.BeforeParam.Empty | src/main/java/io/github/campanula/utils/proxy/param/CProxyBeforeParam.java:17-18 | every field of the record is null |
| ProxyParam.BeforeParam.GetProxy | src/main/java/io/github/campanula/utils/proxy/param/CProxyBeforeParam.java:20-22 | the target field |
| ProxyParam.BeforeParam.GetMethod | src/main/java/io/github/campanula/utils/proxy/param/CProxyBeforeParam.java:24-26 | the method field |
| ProxyParam.BeforeParam.GetArgs | src/main/java/io/github/campanula/utils/proxy/param/CProxyBeforeParam.java:28-30 | the arguments field |
| ProxyParam.BeforeParam.SetProxy | src/main/java/io/github/campanula/utils/proxy/param/CProxyBeforeParam.java:32-34 | only the target field changes, to the given value |
| ProxyParam.BeforeParam.SetMethod | src/main/java/io/github/campanula/utils/proxy/param/CProxyBeforeParam.java:36-38 | only the method field changes, to the given value |
| ProxyParam.BeforeParam.SetArgs | src/main/java/io/github/campanula/utils/proxy/param/CProxyBeforeParam.java:40-42 | only the arguments field changes, to the given value |
| ProxyParam.BeforeParam.Assign | src/main/java/io/github/campanula/utils/proxy/param/CProxyBeforeParam.java:32-42 | a handler that calls every setter leaves the record holding exactly the given fields |
| ProxyParam.AfterParam.constructor | src/main/java/io/github/campanula/utils/proxy/param/CProxyAfterParam.java:12-17 | the record holds the given target, method, arguments and result |
| ProxyParam.AfterParam.Empty | src/main/java/io/github/campanula/utils/proxy/param/CProxyAfterParam.java:19-20 | every field of the record is null |
| ProxyParam.AfterParam.GetProxy | src/main/java/io/github/campanula/utils/proxy/param/CProxyAfterParam.java:22-24 | the target field |
| ProxyParam.AfterParam.GetMethod | src/main/java/io/github/campanula/utils/proxy/param/CProxyAfterParam.java:26-28 | the method field |
| ProxyParam.AfterParam.GetArgs | src/main/java/io/github/campanula/utils/proxy/param/CProxyAfterParam.java:30-32 | the arguments field |
| ProxyParam.AfterParam.GetResult | src/main/java/io/github/campanula/utils/proxy/param/CProxyAfterParam.java:34-36 | the result field |
| ProxyParam.AfterParam.SetProxy | src/main/java/io/github/campanula/utils/proxy/param/CProxyAfterParam.java:38-40 | only the target field changes, to the given value |
| ProxyParam.AfterParam.SetMethod | src/main/java/io/github/campanula/utils/proxy/param/CProxyAfterParam.java:42-44 | only the method field changes, to the given value |
| ProxyParam.AfterParam.SetArgs | src/main/java/io/github/campanula/utils/proxy/param/CProxyAfterParam.java:46-48 | only the arguments field changes, to the given value |
| ProxyParam.AfterParam.SetResult | src/main/java/io/github/campanula/utils/proxy/param/CProxyAfterParam.java:50-52 | only the result field changes, to the given value |
| ProxyParam.AfterParam.Assign | src/main/java/io/github/campanula/utils/proxy/param/CProxyAfterParam.java:38-52 | a handler that calls every setter leaves the record holding exactly the given fields |
| ProxyHandle.UserOperate | src/main/java/io/github/campanula/utils/proxy/CAbstractBeforeProxyHandle.java:28 | a user `operate` on a null context keeps it null and does to the store and throws whatever the subclass does then; on a record, the record, the store and the exception are what the subclass leaves, writes made before a throw included |
| ProxyHandle.OperateBefore | src/main/java/io/github/campanula/utils/proxy/CAbstractBeforeProxyHandle.java:18-22 | one `operate` on the context: the context stays null exactly when it was null; the field-assignment handle never changes the context, writes exactly what `realize` writes, fails exactly when `realize` fails, and on a null context writes nothing and throws a wrapped NullPointerException |
| ProxyHandle.Edited | src/main/java/io/github/campanula/utils/proxy/CAbstractBeforeProxyHandle.java:28 | an `operate` that only rewrites the record writes no field; it adopts the new fields when it returns and keeps the old ones when it throws |
| ProxyHandle.FieldsOnly | src/main/java/io/github/campanula/utils/proxy/CAbstractBeforeProxyHandle.java:28 | a user before handle that only edits its record throws NullPointerException on a null context and never writes a field |
| ProxyHandle.RunBefore | src/main/java/io/github/campanula/utils/cor/Chain.java:45-52 | the handles of a before chain operate in order: with no exception all of them ran, otherwise fewer; the context stays null exactly when it was null |
| ProxyHandle.RunBeforeSticks | src/main/java/io/github/campanula/utils/cor/Chain.java:47-49 | once a before handle has thrown, running further handles changes nothing |
| ProxyHandle.NullContextFailsAtHead | src/main/java/io/github/campanula/utils/proxy/CAbstractBeforeProxyHandle.java:18-22 | on a context that was never set, a head handle that throws ends the run there: no handle completes, the store is what the head wrote; the field-assignment handle always throws there, writing nothing |
| ProxyHandle.RunBeforeNext | src/main/java/io/github/campanula/utils/cor/Chain.java:46-49 | a run that has not failed yet goes on with exactly one `operate` of the next handle on the context and store the run left |
| ProxyHandle.CustomChainKeepsStore | src/main/java/io/github/campanula/utils/proxy/CAbstractBeforeProxyHandle.java:28 | a before chain of user handles that write no field, on a null context or a record, leaves every object's fields as they were |
| ProxyHandle.AssignOnlyKeepsContext | src/main/java/io/github/campanula/utils/proxy/component/assign/CFieldAssignHandle.java:33-41 | a chain whose only handle is the field-assignment handle leaves the context as it was and writes exactly the fields `realize` writes |
| ProxyHandle.FieldsOnlyChainComposes | src/main/java/io/github/campanula/utils/proxy/CAbstractBeforeProxyHandle.java:18-22 | a before chain of record-only user handles leaves the context holding their operations composed in order, or fails with the first exception one of them throws, and writes no field |
| ProxyHandle.BeforeHandle.constructor | src/main/java/io/github/campanula/utils/proxy/CAbstractBeforeProxyHandle.java:38-39 | a new handle has no context, no output and no successor |
| ProxyHandle.BeforeHandle.SetParam | src/main/java/io/github/campanula/utils/proxy/CAbstractBeforeProxyHandle.java:34-36 | the handle's context becomes the given record |
| ProxyHandle.BeforeHandle.SetNext | src/main/java/io/github/campanula/utils/cor/AbstractChain.java:57-61 | the successor becomes the given handle, which is returned |
| ProxyHandle.BeforeHandle.HasNext | src/main/java/io/github/campanula/utils/cor/AbstractChain.java:63-66 | true exactly when the handle has a successor |
| ProxyHandle.BeforeHandle.GetOutData | src/main/java/io/github/campanula/utils/cor/AbstractChain.java:68-71 | the handle's current output |
| ProxyHandle.BeforeHandle.Operate | src/main/java/io/github/campanula/utils/proxy/CAbstractBeforeProxyHandle.java:28 | the context record and the field store end as `OperateBefore` says, and its exception is returned |
| ProxyHandle.BeforeHandle.Handler | src/main/java/io/github/campanula/utils/proxy/CAbstractBeforeProxyHandle.java:18-22 | operates on the context; on success the same record becomes this handle's output and the successor's context, and the successor is returned; on failure the output and the successor's context are as before |
| ProxyHandle.BeforeHandle.Execute | src/main/java/io/github/campanula/utils/cor/Chain.java:45-52 | every handle of the chain operates in link order on the head's one context record, stopping at the first exception; no link changes; the record and the field store end as `RunBefore` says, and the record itself is returned |
| ProxyHandle.BeforeHandle.HandleOnPath | src/main/java/io/github/campanula/utils/cor/Chain.java:46-49 | `handler()` on the node at position `k` takes the shared record and the store from the run of `k` handles to the run of `k + 1`, failing exactly when that run fails |
| ProxyHandle.BeforeHandle.HandleInPath | src/main/java/io/github/campanula/utils/proxy/CAbstractBeforeProxyHandle.java:18-22 | `handler()` on a node of a path keeps the path intact and does exactly one `operate`, passing the record on when it completes |
| ProxyHandle.BeforeHandle.FieldAssignHandle | src/main/java/io/github/campanula/utils/proxy/component/assign/CFieldAssignHandle.java:18-31 | a null or empty producer list is refused; otherwise a fresh field-assignment handle exists iff no two producers serve the same field, with no context and no successor, and its registry maps each served field to its producer |
| ProxyHandle.RunAfter | src/main/java/io/github/campanula/utils/cor/Chain.java:45-52 | the handles of an after chain operate in order: with no exception all of them ran, otherwise fewer; the context stays null exactly when it was null |
| ProxyHandle.RunAfterSticks | src/main/java/io/github/campanula/utils/cor/Chain.java:47-49 | once an after handle has thrown, running further handles changes nothing |
| ProxyHandle.OperateAfter | src/main/java/io/github/campanula/utils/proxy/CAbstractAfterProxyHandle.java:29 | one after `operate`, by the subclass: the context stays null exactly when it was null |
| ProxyHandle.AfterFieldsOnly | src/main/java/io/github/campanula/utils/proxy/CAbstractAfterProxyHandle.java:29 | an after handle that only edits its record throws NullPointerException on a null context and never writes a field |
| ProxyHandle.AfterChainComposes | src/main/java/io/github/campanula/utils/proxy/CAbstractAfterProxyHandle.java:19-23 | an after chain of record-only handles leaves the context holding their operations composed in order, or fails with the first exception one of them throws, and writes no field |
| ProxyHandle.AfterHandle.constructor | src/main/java/io/github/campanula/utils/proxy/CAbstractAfterProxyHandle.java:39-40 | a new handle has no context, no output and no successor |
| ProxyHandle.AfterHandle.SetParam | src/main/java/io/github/campanula/utils/proxy/CAbstractAfterProxyHandle.java:35-37 | the handle's context becomes the given record |
| ProxyHandle.AfterHandle.SetNext | src/main/java/io/github/campanula/utils/cor/AbstractChain.java:57-61 | the successor becomes the given handle, which is returned |
| ProxyHandle.AfterHandle.HasNext | src/main/java/io/github/campanula/utils/cor/AbstractChain.java:63-66 | true exactly when the handle has a successor |
| ProxyHandle.AfterHandle.GetOutData | src/main/java/io/github/campanula/utils/cor/AbstractChain.java:68-71 | the handle's current output |
| ProxyHandle.AfterHandle.Operate | src/main/java/io/github/campanula/utils/proxy/CAbstractAfterProxyHandle.java:29 | the context record and the field store end as `OperateAfter` says, and its exception is returned |
| ProxyHandle.AfterHandle.Handler | src/main/java/io/github/campanula/utils/proxy/CAbstractAfterProxyHandle.java:19-23 | operates on the context; on success the same record becomes this handle's output and the successor's context, and the successor is returned; on failure the output and the successor's context are as before |
| ProxyHandle.AfterHandle.Execute | src/main/java/io/github/campanula/utils/cor/Chain.java:45-52 | every handle of the chain operates in link order on the head's one context record, stopping at the first exception; no link changes; the record and the field store end as `RunAfter` says, and the record itself is returned |
| ProxyHandle.AfterHandle.HandleOnPath | src/main/java/io/github/campanula/utils/cor/Chain.java:46-49 | `handler()` on the node at position `k` takes the shared record and the store from the run of `k` handles to the run of `k + 1`, failing exactly when that run fails |
| ProxyHandle.AfterHandle.HandleInPath | src/main/java/io/github/campanula/utils/proxy/CAbstractAfterProxyHandle.java:19-23 | `handler()` on a node of a path keeps the path intact and does exactly one `operate`, passing the record on when it completes |
| FieldAssign.BuildRegistry | src/main/java/io/github/campanula/utils/proxy/component/assign/CFieldAssignHandle.java:18-31 | a null or empty producer list is refused; otherwise the registry maps each served field to its producer iff no two producers serve the same field; if two do, the exception names the field of the first repeat |
| FieldAssign.FirstMissing | src/main/java/io/github/campanula/utils/proxy/component/assign/CFieldAssignHandle.java:52-55 | the index of the first annotated name with no producer: every earlier name has one |
| FieldAssign.OperateSpec | src/main/java/io/github/campanula/utils/proxy/component/assign/CFieldAssignHandle.java:33-41 | `operate` writes what `realize` writes and fails exactly when it fails, with its exception wrapped in CampanulaRuntimeException |
| FieldAssign.AssignLoop | src/main/java/io/github/campanula/utils/proxy/component/assign/CFieldAssignHandle.java:57-62 | the assignment loop leaves the field store and the failure exactly as the pure field-by-field assignment does |
| FieldAssign.Realize | src/main/java/io/github/campanula/utils/proxy/component/assign/CFieldAssignHandle.java:43-63 | the field store and the failure end exactly as the pure `realize` says: nothing done without the annotation; an empty name list refused; every name checked before any field is written |
| FieldAssign.MissingProducerChangesNothing | src/main/java/io/github/campanula/utils/proxy/component/assign/CFieldAssignHandle.java:52-55 | a name without a producer leaves every object's fields unchanged and names the first such name |
| FieldAssign.AssignAllSetsNamedFields | src/main/java/io/github/campanula/utils/proxy/component/assign/CFieldAssignHandle.java:57-62 | a completed assignment leaves each named field of the target holding its producer's value; the target has the same fields as before; every other field and object is unchanged |
| FieldAssign.AssignAllFrame | src/main/java/io/github/campanula/utils/proxy/component/assign/CFieldAssignHandle.java:57-62 | however the loop ends, fields that are not named, and other objects, keep their values |
| Invocation.Reflect | src/main/java/io/github/campanula/utils/proxy/protogenesis/CInvocationHandler.java:37 | a null method or receiver throws NullPointerException before the body runs and writes nothing; a call the target refuses (a receiver of the wrong class, arguments that do not fit) throws the refusal itself, unwrapped, and writes nothing; otherwise the body runs on the current store, its writes stay, its result passes through and its exception arrives wrapped in InvocationTargetException |
| Invocation.Surface | src/main/java/io/github/campanula/utils/proxy/protogenesis/CInvocationHandler.java:47-49 | a normal return passes through; any exception leaves as CampanulaRuntimeException with it as the cause |
| Invocation.BeforeStage | src/main/java/io/github/campanula/utils/proxy/protogenesis/CInvocationHandler.java:29-35 | without a before chain the call's fields are kept; with one, they are what the chain left in its context, or its exception, and the field store is what it wrote |
| Invocation.AfterStage | src/main/java/io/github/campanula/utils/proxy/protogenesis/CInvocationHandler.java:39-44 | without an after chain the context and store are kept; with one, the context is what the chain left, or its exception, and the store is what it wrote |
| Invocation.CallStage | src/main/java/io/github/campanula/utils/proxy/protogenesis/CInvocationHandler.java:37-49 | every failure of the call or of the after chain leaves wrapped in CampanulaRuntimeException; a call that throws keeps the target and the body's writes and skips the after chain; without an after chain the target is kept and the call's outcome is returned |
| Invocation.InvokeSpec | src/main/java/io/github/campanula/utils/proxy/protogenesis/CInvocationHandler.java:24-52 | every failure leaves as CampanulaRuntimeException with a cause; a before chain that throws leaves the target as it was, the fields it wrote, and its exception wrapped |
| Invocation.NoChainsCallsTarget | src/main/java/io/github/campanula/utils/proxy/protogenesis/CInvocationHandler.java:37 | with no chains, the target is called with the caller's method and arguments and its outcome is returned |
| Invocation.BeforeChainAdopted | src/main/java/io/github/campanula/utils/proxy/protogenesis/CInvocationHandler.java:29-37 | after a before chain that completes, the call uses the target, method and arguments the chain left and runs on the fields it wrote, and the handler adopts that target |
| Invocation.RefusedCallSurfacesUnwrapped | src/main/java/io/github/campanula/utils/proxy/protogenesis/CInvocationHandler.java:32-49 | when reflection refuses the call the before chain set up, neither the body nor the after chain runs; the handler throws CampanulaRuntimeException directly around the refusal, with no InvocationTargetException between, on the store the before chain left, and keeps the target the chain chose |
| Invocation.BeforeFailureSkipsCall | src/main/java/io/github/campanula/utils/proxy/protogenesis/CInvocationHandler.java:29-49 | a before chain that throws stops the call: the outcome does not depend on the target's behaviour, the handler's target is unchanged, the store is what the chain wrote, and the chain's exception leaves wrapped |
| Invocation.AssignedFieldsReachTarget | src/main/java/io/github/campanula/utils/proxy/component/assign/CFieldAssignHandle.java:57-62 | behind a field-assignment handle that completes, a method annotated with a non-empty field list is called on a store in which each named field of the target holds its producer's value, every other field and object unchanged |
| Invocation.AfterResultReturned | src/main/java/io/github/campanula/utils/proxy/protogenesis/CInvocationHandler.java:39-51 | with an after chain of record-only handles, the value returned is the result field of their operations composed over the real call's record, the proxy field becomes the handler's target, and the store is what the call left |
| Invocation.CallBeforeChain | src/main/java/io/github/campanula/utils/proxy/protogenesis/CInvocationHandler.java:30-31 | handing a fresh record to the before chain and executing it gives exactly the before stage's fields and field store |
| Invocation.CallAfterChain | src/main/java/io/github/campanula/utils/proxy/protogenesis/CInvocationHandler.java:40-41 | handing a fresh record to the after chain and executing it gives exactly the after stage's outcome and field store |
| Invocation.CallTarget | src/main/java/io/github/campanula/utils/proxy/protogenesis/CInvocationHandler.java:37-44 | the real call and the after chain give exactly the call stage's target, field store and outcome |
| Invocation.InvocationHandler.constructor | src/main/java/io/github/campanula/utils/proxy/CAbstractProxyHandler.java:27-31 | the handler holds the given target and the two chains |
| Invocation.InvocationHandler.Invoke | src/main/java/io/github/campanula/utils/proxy/protogenesis/CInvocationHandler.java:24-52 | the new target, the field store and the outcome are exactly those of `InvokeSpec` |
| Invocation.LegacySpec | src/main/java/io/github/campanula/utils/proxy/CInvocationHandler.java:23-46 | the older handler never changes its target, and every failure leaves as CampanulaRuntimeException with a cause |
| Invocation.LegacyReturnsTargetResult | src/main/java/io/github/campanula/utils/proxy/CInvocationHandler.java:33 | whatever the chains do to their contexts, a normal return is the target's own result for the caller's method and arguments, on the store the before chain left |
| Invocation.LegacyIgnoresAfterChain | src/main/java/io/github/campanula/utils/proxy/CInvocationHandler.java:35-38 | any two after chains that complete give the same outcome, the same as no after chain: `setResult` is lost |
| Invocation.LegacyInvocationHandler.constructor | src/main/java/io/github/campanula/utils/proxy/CInvocationHandler.java:16-20 | the handler holds the given target and the two chains |
| Invocation.LegacyInvocationHandler.Invoke | src/main/java/io/github/campanula/utils/proxy/CInvocationHandler.java:23-46 | the field store and the outcome are exactly those of `LegacySpec` |
| ProxyFactory.ProxyGuard | src/main/java/io/github/campanula/utils/proxy/protogenesis/CEntityProxyFactory.java:147-150 | the target is checked first, then the interface type; both non-null pass; each failure has its own message |
| ProxyFactory.GetProxy | src/main/java/io/github/campanula/utils/proxy/protogenesis/CEntityProxyFactory.java:146-154 | the guard's exception, or a proxy over the target's own interfaces whose fresh handler holds the target and the two chains |
| ProxyFactory.ProxyPlus | src/main/java/io/github/campanula/utils/proxy/protogenesis/CEntityProxyFactory.java:74-76 | the same proxy `getProxy` builds with both chains |
| ProxyFactory.ProxyOf | src/main/java/io/github/campanula/utils/proxy/protogenesis/CEntityProxyFactory.java:31-33 | the proxy `getProxy` builds with no chains |
| ProxyFactory.ProxyBeforePlus | src/main/java/io/github/campanula/utils/proxy/protogenesis/CEntityProxyFactory.java:45-47 | the proxy `getProxy` builds with no after chain |
| ProxyFactory.ProxyAfterPlus | src/main/java/io/github/campanula/utils/proxy/protogenesis/CEntityProxyFactory.java:59-61 | the proxy `getProxy` builds with no before chain |
| ProxyFactory.ListGuardAsWritten | src/main/java/io/github/campanula/utils/proxy/protogenesis/CEntityProxyFactory.java:131 | the guard as written lets exactly the empty list through |
| ProxyFactory.ListGuardAsWrittenInverted | src/main/java/io/github/campanula/utils/proxy/protogenesis/CEntityProxyFactory.java:131 | the guard as written refuses a list holding one target and accepts only the empty list |
| ProxyFactory.ListGuard | src/main/java/io/github/campanula/utils/proxy/protogenesis/CEntityProxyFactory.java:131 | the intended guard refuses exactly the null and the empty list, with the guard's message |
| ProxyFactory.ListFailure | src/main/java/io/github/campanula/utils/proxy/protogenesis/CEntityProxyFactory.java:132 | no failure iff `getProxy` accepts every element; otherwise the exception of the first element it refuses |
| ProxyFactory.ListFailureAt | src/main/java/io/github/campanula/utils/proxy/protogenesis/CEntityProxyFactory.java:132 | the first refused element decides the list's failure |
| ProxyFactory.ProxyPlusList | src/main/java/io/github/campanula/utils/proxy/protogenesis/CEntityProxyFactory.java:130-133 | with the intended guard: the guard's exception, the first refused element's exception, or one proxy per element in order, each with a fresh handler |
| ProxyFactory.ProxyList | src/main/java/io/github/campanula/utils/proxy/protogenesis/CEntityProxyFactory.java:87-89 | the proxies `proxyPlusList` builds with no chains |
| ProxyFactory.ProxyBeforePlusList | src/main/java/io/github/campanula/utils/proxy/protogenesis/CEntityProxyFactory.java:101-103 | the proxies `proxyPlusList` builds with no after chain |
| ProxyFactory.ProxyAfterPlusList | src/main/java/io/github/campanula/utils/proxy/protogenesis/CEntityProxyFactory.java:115-117 | the proxies `proxyPlusList` builds with no before chain |
| ProxyFactory.NullElementRefused | src/main/java/io/github/campanula/utils/proxy/protogenesis/CEntityProxyFactory.java:147-148 | a null element is refused with the null-target message, even when the interface type is also null |
| ProxyFactory.NullInterfaceRefused | src/main/java/io/github/campanula/utils/proxy/protogenesis/CEntityProxyFactory.java:149-150 | with a null interface type, a non-empty list fails at its first element |
| ProxyScenario.Marked | src/test/java/io/github/campanula/utils/proxy/TestProxy.java:39-43 | reading the annotation of a null method throws NullPointerException, and only then; otherwise the answer is true exactly when the method carries `@DemoProxy` |
| ProxyScenario.ArgsNullCheck | src/test/java/io/github/campanula/utils/proxy/TestProxy.java:51-69 | the check never edits the record; on a marked method with arguments it throws exactly when one of them is null |
| ProxyScenario.Incremented | src/test/java/io/github/campanula/utils/proxy/TestProxy.java:80-89 | each Integer argument is one more, every other argument is unchanged, and the length is kept |
| ProxyScenario.PlusOneArgs | src/test/java/io/github/campanula/utils/proxy/TestProxy.java:71-92 | target and method are never changed; an unmarked method keeps its record; on a marked method with arguments they become the incremented arguments |
| ProxyScenario.SubtractOne | src/test/java/io/github/campanula/utils/proxy/TestProxy.java:36-49 | only the result can change; an unmarked method keeps its record; on a marked method an Integer result loses one and a null one throws NullPointerException on unboxing |
| ProxyScenario.MarkedNullArgumentThrows | src/test/java/io/github/campanula/utils/proxy/TestProxy.java:27 | `plusOneProxy(null)` through the proxy throws CampanulaRuntimeException |
| ProxyScenario.MarkedCallIsIdentity | src/test/java/io/github/campanula/utils/proxy/TestProxy.java:30 | `plusOneProxy(x)` through the proxy returns x |
| ProxyScenario.UnmarkedCallUntouched | src/test/java/io/github/campanula/utils/proxy/TestProxy.java:28-31 | `plusOne(null)` through the proxy returns 1 and `plusOne(x)` returns x + 1 |
| ProxyScenario.DroppedArgumentsRefused | src/main/java/io/github/campanula/utils/proxy/protogenesis/CInvocationHandler.java:29-48 | a before handle that empties the arguments leads reflection to refuse the one-argument `Demo` methods: the caller gets CampanulaRuntimeException around IllegalArgumentException ("wrong number of arguments"), unwrapped by InvocationTargetException, and no field is written |
| ExceptionDispatch.EmptyTable | src/main/java/io/github/campanula/utils/param/CExceptionHandle.java:45-47 | a new handle has no registrations and no fallback |
| ExceptionDispatch.Added | src/main/java/io/github/campanula/utils/param/CExceptionHandle.java:117-125 | registering `Exception` overwrites only the fallback; any other class is appended with its handler and the fallback is kept; the lists stay aligned |
| ExceptionDispatch.FirstMatch | src/main/java/io/github/campanula/utils/param/CExceptionHandle.java:59-64 | the first index whose class is exactly the exception's class; none iff that class is not registered |
| ExceptionDispatch.Choose | src/main/java/io/github/campanula/utils/param/CExceptionHandle.java:55-72 | the first exact match if the class is registered; else the fallback if set; else nothing |
| ExceptionDispatch.FirstMatchAppend | src/main/java/io/github/campanula/utils/param/CExceptionHandle.java:122-123 | appending a class never moves the first match of a class already registered |
| ExceptionDispatch.AddedChoice | src/main/java/io/github/campanula/utils/param/CExceptionHandle.java:117-125 | a new `Exception` handler only takes over exceptions no entry matched; another class only affects its own exceptions, and only on first registration; the chosen handler is the one registered at that index |
| ExceptionDispatch.Returned | src/main/java/io/github/campanula/utils/param/CExceptionHandle.java:62 | a result-mode handler's value or exception is what `handle` gives |
| ExceptionDispatch.Consumed | src/main/java/io/github/campanula/utils/param/CExceptionHandle.java:77-78 | a blank-mode handler that returns makes `handle` return null; one that throws passes its exception on |
| ExceptionDispatch.Unmatched | src/main/java/io/github/campanula/utils/param/CExceptionHandle.java:70 | an unmatched exception is rethrown as a RuntimeException with it as the cause |
| ExceptionDispatch.ChosenCalls | src/main/java/io/github/campanula/utils/param/CExceptionHandle.java:55-90 | a chosen handler adds one callback to the trace; nothing matched adds none |
| ExceptionHandle.Handled | src/main/java/io/github/campanula/utils/param/CExceptionHandle.java:55-90 | `handle(e)` runs the handler the scan chooses for the mode's table, once; with none it rethrows e wrapped; in blank mode it never returns a value |
| ExceptionHandle.Handle.constructor | src/main/java/io/github/campanula/utils/param/CExceptionHandle.java:45-47 | a new handle of the given mode with empty registrations |
| ExceptionHandle.Handle.Handle | src/main/java/io/github/campanula/utils/param/CExceptionHandle.java:55-90 | the scan with early return gives exactly `Handled` |
| ExceptionHandle.ResultBuilder.constructor | src/main/java/io/github/campanula/utils/param/CExceptionHandle.java:100-109 | a fresh result-mode handle with empty registrations |
| ExceptionHandle.ResultBuilder.Add | src/main/java/io/github/campanula/utils/param/CExceptionHandle.java:117-125 | the handle's registrations become `Added` of the old ones, and the builder returns itself |
| ExceptionHandle.ResultBuilder.GetHandle | src/main/java/io/github/campanula/utils/param/CExceptionHandle.java:127-129 | the builder's handle |
| ExceptionHandle.BlankBuilder.constructor | src/main/java/io/github/campanula/utils/param/CExceptionHandle.java:140-149 | a fresh blank-mode handle with empty registrations |
| ExceptionHandle.BlankBuilder.Add | src/main/java/io/github/campanula/utils/param/CExceptionHandle.java:157-165 | the handle's registrations become `Added` of the old ones, and the builder returns itself |
| ExceptionHandle.BlankBuilder.GetHandle | src/main/java/io/github/campanula/utils/param/CExceptionHandle.java:167-169 | the builder's handle |
| ExceptionHandle.ResultAppliesFirstMatch | src/main/java/io/github/campanula/utils/param/CExceptionHandle.java:59-64 | in result mode the function of the first exact match is applied to the exception itself, and only it runs |
| ExceptionHandle.ResultFallsBack | src/main/java/io/github/campanula/utils/param/CExceptionHandle.java:66-68 | without an exact match the `Exception` fallback is applied to the exception, and only it runs |
| ExceptionHandle.BlankRunsOneConsumer | src/main/java/io/github/campanula/utils/param/CExceptionHandle.java:73-85 | in blank mode with a matching or fallback consumer, exactly one consumer runs and null is returned unless it throws |
| ExceptionHandle.SpecificBeatsFallback | src/test/java/io/github/campanula/utils/method/TestCTryUtil.java:71-74 | with an ArithmeticException handler registered before an `Exception` one, an ArithmeticException gets the specific handler and any other exception the fallback |
| ExceptionHandle.NonMatchingRethrows | src/main/java/io/github/campanula/utils/param/CExceptionHandle.java:69-71 | a handle with only a non-matching registration rethrows the exception wrapped in RuntimeException, running nothing |
| LegacyExceptionHandle.Handled | src/main/java/org/campanula/utils/param/CExceptionHandle.java:55-90 | `handle(e)` runs the supplier or void method the scan chooses, once, without passing it e; with none it rethrows e wrapped; in blank mode it never returns a value |
| LegacyExceptionHandle.Handle.constructor | src/main/java/org/campanula/utils/param/CExceptionHandle.java:45-47 | a new handle of the given mode with empty registrations |
| LegacyExceptionHandle.Handle.Handle | src/main/java/org/campanula/utils/param/CExceptionHandle.java:55-90 | the scan with early return gives exactly `Handled` |
| LegacyExceptionHandle.ResultBuilder.constructor | src/main/java/org/campanula/utils/param/CExceptionHandle.java:100-109 | a fresh result-mode handle with empty registrations |
| LegacyExceptionHandle.ResultBuilder.Add | src/main/java/org/campanula/utils/param/CExceptionHandle.java:117-125 | the handle's registrations become `Added` of the old ones, and the builder returns itself |
| LegacyExceptionHandle.ResultBuilder.GetHandle | src/main/java/org/campanula/utils/param/CExceptionHandle.java:127-129 | the builder's handle |
| LegacyExceptionHandle.BlankBuilder.constructor | src/main/java/org/campanula/utils/param/CExceptionHandle.java:140-149 | a fresh blank-mode handle with empty registrations |
| LegacyExceptionHandle.BlankBuilder.Add | src/main/java/org/campanula/utils/param/CExceptionHandle.java:157-165 | the handle's registrations become `Added` of the old ones, and the builder returns itself |
| LegacyExceptionHandle.BlankBuilder.GetHandle | src/main/java/org/campanula/utils/param/CExceptionHandle.java:167-169 | the builder's handle |
| LegacyExceptionHandle.ResultAppliesFirstMatch | src/main/java/org/campanula/utils/param/CExceptionHandle.java:59-64 | in result mode the supplier of the first exact match gives the value, and only it runs |
| LegacyExceptionHandle.ResultFallsBack | src/main/java/org/campanula/utils/param/CExceptionHandle.java:66-68 | without an exact match the `Exception` supplier gives the value, and only it runs |
| LegacyExceptionHandle.BlankRunsOneConsumer | src/main/java/org/campanula/utils/param/CExceptionHandle.java:73-85 | in blank mode with a matching or fallback method, exactly one runs and null is returned unless it throws |
| LegacyExceptionHandle.SpecificBeatsFallback | src/test/java/org/campanula/utils/method/TestCTryUtil.java:71-74 | with an ArithmeticException handler registered before an `Exception` one, an ArithmeticException gets the specific handler and any other exception the fallback |
| LegacyExceptionHandle.NonMatchingRethrows | src/main/java/org/campanula/utils/param/CExceptionHandle.java:69-71 | a handle with only a non-matching registration rethrows the exception wrapped in RuntimeException, running nothing |
| TryUtil.CaughtCalls | src/main/java/io/github/campanula/utils/method/CTryUtil.java:58-63 | the body runs exactly once, at most one handler after it, and never the finally method |
| TryUtil.FinallyRunsOnce | src/main/java/io/github/campanula/utils/method/CTryUtil.java:57-69 | the body runs exactly once; a non-null finally method runs exactly once and last on every path; a null one never runs |
| TryUtil.NormalReturnSkipsHandle | src/main/java/io/github/campanula/utils/method/CTryUtil.java:58-59 | a body that returns gives its value, and the handle, even a null one, is never consulted |
| TryUtil.ThrowGoesToHandle | src/main/java/io/github/campanula/utils/method/CTryUtil.java:61-63 | a body that throws gives what `handle.handle(e)` gives, including an exception escaping it; a null handle lets NullPointerException escape after the finally method |
| TryUtil.VoidMatchesValue | src/main/java/io/github/campanula/utils/method/CTryUtil.java:26-38 | the void form runs the same callbacks as the value form, and an exception escapes from one iff it escapes from the other |
| TryUtil.UnmatchedEscapesAfterFinally | src/test/java/io/github/campanula/utils/method/TestCTryUtil.java:77-79 | `1/0` with only a NullPointerException handler: the finally method still runs and a RuntimeException wrapping the ArithmeticException escapes |
| TryUtil.SpecificHandlerForDivideByZero | src/test/java/io/github/campanula/utils/method/TestCTryUtil.java:71-74 | `1/0` with an ArithmeticException handler and an `Exception` fallback gets the specific handler's value after the finally method runs |
| LegacyTryUtil.CaughtCalls | src/main/java/org/campanula/utils/method/CTryUtil.java:58-63 | the body runs exactly once, at most one handler after it, and never the finally method |
| LegacyTryUtil.FinallyRunsOnce | src/main/java/org/campanula/utils/method/CTryUtil.java:57-69 | the body runs exactly once; a non-null finally method runs exactly once and last on every path; a null one never runs |
| LegacyTryUtil.NormalReturnSkipsHandle | src/main/java/org/campanula/utils/method/CTryUtil.java:58-59 | a body that returns gives its value, and the handle, even a null one, is never consulted |
| LegacyTryUtil.ThrowGoesToHandle | src/main/java/org/campanula/utils/method/CTryUtil.java:61-63 | a body that throws gives what `handle.handle(e)` gives, including an exception escaping it; a null handle lets NullPointerException escape after the finally method |
| LegacyTryUtil.VoidMatchesValue | src/main/java/org/campanula/utils/method/CTryUtil.java:28-40 | the void form runs the same callbacks as the value form, and an exception escapes from one iff it escapes from the other |
| LegacyTryUtil.UnmatchedEscapesAfterFinally | src/test/java/org/campanula/utils/method/TestCTryUtil.java:77-79 | `1/0` with only a NullPointerException handler: the finally method still runs and a RuntimeException wrapping the ArithmeticException escapes |
| LegacyTryUtil.SpecificHandlerForDivideByZero | src/test/java/org/campanula/utils/method/TestCTryUtil.java:71-74 | `1/0` with an ArithmeticException handler and an `Exception` fallback gets the specific supplier's value after the finally method runs |
| Guard.Missing | src/main/java/io/github/campanula/utils/exception/ObjectEmptyRuntimeException.java:9-15 | an ObjectEmptyRuntimeException with the given message and no cause |
| Guard.Get | src/main/java/io/github/campanula/utils/method/CObjectUtil.java:23-27 | the original supplier runs first; the fallback supplier runs exactly when the value is absent, and the result is exactly the fallback's then and the original otherwise |
| Guard.GetThrows | src/main/java/io/github/campanula/utils/method/CObjectUtil.java:60-64 | a present value is returned unchanged; an absent one makes the exception supplier run and its exception be thrown; a throwing original propagates |
| Guard.Convert | src/main/java/io/github/campanula/utils/method/CObjectUtil.java:176-180 | the original runs first; the converter runs exactly on a present value and the fallback exactly on an absent one, and the result is the callback's |
| Guard.ConvertThrows | src/main/java/io/github/campanula/utils/method/CObjectUtil.java:215-219 | the converter runs exactly on a present value; an absent one throws the supplied exception; a throwing original propagates |
| Guard.Consume | src/main/java/io/github/campanula/utils/method/CObjectUtil.java:125-129 | the consumer runs exactly on a present value and the void fallback exactly on an absent one |
| Guard.ConsumeThrows | src/main/java/io/github/campanula/utils/method/CObjectUtil.java:162-166 | the consumer runs exactly on a present value; an absent one throws the supplied exception |
| Guard.GetIdempotent | src/main/java/io/github/campanula/utils/method/CObjectUtil.java:23-27 | guarding a guarded value again changes nothing |
| Guard.GetAbsentOnlyFromFallback | src/main/java/io/github/campanula/utils/method/CObjectUtil.java:23-27 | an absent result can only come from the fallback, which then ran |
| Guard.ConvertIdentityIsGet | src/main/java/io/github/campanula/utils/method/CObjectUtil.java:74-78 | converting with the identity is `get` |
| Guard.ThrowsFormsAreThrowingFallbacks | src/main/java/io/github/campanula/utils/method/CObjectUtil.java:60-64 | each throwing form equals its plain form with a fallback that throws the supplied exception |
| Guard.ExactlyOneCallback | src/main/java/io/github/campanula/utils/method/CObjectUtil.java:176-180 | when the original returns, exactly one of the two callbacks runs, once, after the original ran once |
| Guard.DefaultExceptionOnAbsence | src/main/java/io/github/campanula/utils/method/CObjectUtil.java:36-38 | the throwing forms without an exception supplier throw ObjectEmptyRuntimeException("object is null") on a null value |
| ObjectUtil.Get | src/main/java/io/github/campanula/utils/method/CObjectUtil.java:23-27 | null is replaced by the fallback's value, which runs exactly on null; any other value is returned |
| ObjectUtil.GetThrows | src/main/java/io/github/campanula/utils/method/CObjectUtil.java:60-64 | a non-null value is returned; null throws the supplied exception |
| ObjectUtil.Convert | src/main/java/io/github/campanula/utils/method/CObjectUtil.java:176-180 | a non-null value goes through the converter, null gives the fallback's value |
| ObjectUtil.ConvertThrows | src/main/java/io/github/campanula/utils/method/CObjectUtil.java:215-219 | a non-null value goes through the converter, null throws the supplied exception |
| ObjectUtil.Consume | src/main/java/io/github/campanula/utils/method/CObjectUtil.java:125-129 | a non-null value is consumed, null runs the void fallback |
| ObjectUtil.ConsumeThrows | src/main/java/io/github/campanula/utils/method/CObjectUtil.java:162-166 | a non-null value is consumed, null throws the supplied exception |
| ObjectUtil.ObjectUtilTest | src/test/java/io/github/campanula/utils/method/TestCObjectUtil.java:19-78 | the library test's values for `get`, `getThrows`, `process`, `convert` and `convertThrows` |
| ListUtil.Get | src/main/java/io/github/campanula/utils/method/CListUtil.java:24-28 | a null or empty list is replaced by the fallback's, which runs exactly then; otherwise the list is returned and it is non-empty |
| ListUtil.GetThrows | src/main/java/io/github/campanula/utils/method/CListUtil.java:62-66 | a non-empty list is returned; a null or empty one throws the supplied exception |
| ListUtil.Convert | src/main/java/io/github/campanula/utils/method/CListUtil.java:183-187 | a non-empty list goes through the converter, a null or empty one gives the fallback's list |
| ListUtil.ConvertThrows | src/main/java/io/github/campanula/utils/method/CListUtil.java:227-231 | a non-empty list goes through the converter, a null or empty one throws the supplied exception |
| ListUtil.Consume | src/main/java/io/github/campanula/utils/method/CListUtil.java:130-134 | a non-empty list is consumed, a null or empty one runs the void fallback |
| ListUtil.ConsumeThrows | src/main/java/io/github/campanula/utils/method/CListUtil.java:168-172 | a non-empty list is consumed, a null or empty one throws the supplied exception |
| ListUtil.EmptyListIsNull | src/main/java/io/github/campanula/utils/method/CListUtil.java:24-28 | for every operation an empty list behaves exactly like null |
| MapUtil.Get | src/main/java/io/github/campanula/utils/method/CMapUtil.java:24-28 | a null or empty map is replaced by the fallback's, which runs exactly then; otherwise the map is returned and it is non-empty |
| MapUtil.GetThrows | src/main/java/io/github/campanula/utils/method/CMapUtil.java:61-65 | a non-empty map is returned; a null or empty one throws the supplied exception |
| MapUtil.Convert | src/main/java/io/github/campanula/utils/method/CMapUtil.java:177-181 | a non-empty map goes through the converter, a null or empty one gives the fallback's map |
| MapUtil.ConvertThrows | src/main/java/io/github/campanula/utils/method/CMapUtil.java:216-220 | a non-empty map goes through the converter, a null or empty one throws the supplied exception |
| MapUtil.Consume | src/main/java/io/github/campanula/utils/method/CMapUtil.java:126-130 | a non-empty map is consumed, a null or empty one runs the void fallback |
| MapUtil.ConsumeThrows | src/main/java/io/github/campanula/utils/method/CMapUtil.java:163-167 | a non-empty map is consumed, a null or empty one throws the supplied exception |
| MapUtil.MapGetTest | src/test/java/io/github/campanula/utils/method/TestCMapUtil.java:32-39 | the library test's values for `get`: a filled map, an empty one, and null |
| MapUtil.MapProcessTest | src/test/java/io/github/campanula/utils/method/TestCMapUtil.java:50-58 | the library test's values for `process`: a filled map gains one entry; null gives the fallback's map |
| LegacyObjectUtil.RuntimeEmpty | src/main/java/org/campanula/utils/exception/EmptyRuntimeException.java:9-11 | an EmptyRuntimeException with the given message and no cause |
| LegacyObjectUtil.CheckedEmpty | src/main/java/org/campanula/utils/exception/EmptyException.java:9-11 | an EmptyException with the given message and no cause |
| LegacyObjectUtil.Assist | src/main/java/org/campanula/utils/method/CObjectUtil.java:392-395 | a null supplier gives null and runs nothing; another runs once and gives its value |
| LegacyObjectUtil.GetO | src/main/java/org/campanula/utils/method/CObjectUtil.java:26-31 | a null supplier, or a supplier of null, gives `assist(nullOr)`; a non-null value or an exception of the original is passed through |
| LegacyObjectUtil.Fetched | src/main/java/org/campanula/utils/method/CObjectUtil.java:118 | `getO(original, null)`: a null supplier gives null without running anything |
| LegacyObjectUtil.NullThrows | src/main/java/org/campanula/utils/method/CObjectUtil.java:64-69 | a non-null value is returned; a null supplier or a null value throws the given exception |
| LegacyObjectUtil.ProcessAsWritten | src/main/java/org/campanula/utils/method/CObjectUtil.java:117-124 | as written: a null value gives null and never runs the fallback; the fallback runs only on a non-null value with a null function |
| LegacyObjectUtil.ProcessAsWrittenIgnoresFallback | src/main/java/org/campanula/utils/method/CObjectUtil.java:119-122 | a supplier of null with a fallback of "1" gives null as written, and "1" as intended |
| LegacyObjectUtil.Process | src/main/java/org/campanula/utils/method/CObjectUtil.java:117-124 | as intended: the function runs exactly on a non-null value when it is non-null, the fallback exactly on a null value when it is non-null, and a null value gives `assist(oNull)` |
| LegacyObjectUtil.ProcessRunsOneCallback | src/main/java/org/campanula/utils/method/CObjectUtil.java:117-124 | the intended form never runs both callbacks, runs the fallback only on a null value, and agrees with the written form whenever the function is applied |
| LegacyObjectUtil.ProcessNullThrows | src/main/java/org/campanula/utils/method/CObjectUtil.java:158-164 | a null value throws the given exception without running the function; a non-null one goes through the function, or is returned when the function is null |
| LegacyObjectUtil.ConsumeAsWritten | src/main/java/org/campanula/utils/method/CObjectUtil.java:213-221 | as written: a null value runs nothing; the void fallback runs exactly on a non-null value with a null consumer |
| LegacyObjectUtil.ConsumeAsWrittenSwapsCases | src/main/java/org/campanula/utils/method/CObjectUtil.java:216-220 | with a null consumer, the written form runs the fallback on "1" and not on null; the intended form does the reverse |
| LegacyObjectUtil.Consume | src/main/java/org/campanula/utils/method/CObjectUtil.java:213-221 | as intended: the consumer runs exactly on a non-null value when it is non-null, the fallback exactly on a null value when it is non-null |
| LegacyObjectUtil.ConsumeKeepsCasesApart | src/main/java/org/campanula/utils/method/CObjectUtil.java:213-221 | in the intended form the fallback only ever sees a null value and the consumer only a non-null one |
| LegacyObjectUtil.ConsumeNullRuntimeThrowsAsWritten | src/main/java/org/campanula/utils/method/CObjectUtil.java:254-259 | as written: it always ends by throwing, after consuming a non-null value |
| LegacyObjectUtil.ConsumeNullRuntimeThrowsAlwaysThrows | src/main/java/org/campanula/utils/method/CObjectUtil.java:257-258 | consuming "1" throws the given exception as written and completes normally as intended |
| LegacyObjectUtil.ConsumeNullThrowsAsWritten | src/main/java/org/campanula/utils/method/CObjectUtil.java:292-298 | as written: a null value completes normally; the given exception is thrown only for a null consumer, or when the original itself threw it |
| LegacyObjectUtil.ConsumeNullThrowsAsWrittenSwapsCases | src/main/java/org/campanula/utils/method/CObjectUtil.java:295-297 | as written null passes and a non-null value with a null consumer throws; as intended the reverse |
| LegacyObjectUtil.ConsumeNullThrows | src/main/java/org/campanula/utils/method/CObjectUtil.java:292-298 | as intended: a null value throws the given exception without consuming; a non-null one is consumed, or ignored when the consumer is null |
| LegacyObjectUtil.ConsumeNullThrowsThrowsIffNull | src/main/java/org/campanula/utils/method/CObjectUtil.java:292-298 | when neither the original nor the consumer throws it, the intended form throws the given exception exactly on a null value |
| LegacyObjectUtil.Convert | src/main/java/org/campanula/utils/method/CObjectUtil.java:308-312 | the converter runs exactly on a non-null value and the fallback exactly on a null one; a null callback where one is needed throws NullPointerException |
| LegacyObjectUtil.ConvertNullThrows | src/main/java/org/campanula/utils/method/CObjectUtil.java:347-351 | a null value throws the given exception without converting; a non-null one goes through the converter, and a null converter throws NullPointerException |
| LegacyObjectUtil.NullSupplierIsNullValue | src/main/java/org/campanula/utils/method/CObjectUtil.java:26-31 | a null supplier and a supplier of null give the same value; the latter only adds the original's call |
| LegacyObjectUtil.NullThrowsAgreesWithGetO | src/main/java/org/campanula/utils/method/CObjectUtil.java:64-69 | where the throwing form returns, `getO` returns the same; where it throws the given exception, `getO` gives the fallback's value |
| LegacyObjectUtil.DefaultExceptions | src/main/java/org/campanula/utils/method/CObjectUtil.java:40-54 | the message-less forms throw EmptyRuntimeException and EmptyException with "object is null" |
| LegacyObjectUtil.ConvertFormsAgreeOnValues | src/main/java/org/campanula/utils/method/CObjectUtil.java:386-390 | on a non-null value `oConvert` and the throwing `oConvert…` forms give the same run |
| LegacyListUtil.RuntimeFailure | src/main/java/org/campanula/utils/method/CListUtil.java:19-24 | a RuntimeException with the given message and no cause |
| LegacyListUtil.CheckedFailure | src/main/java/org/campanula/utils/method/CListUtil.java:37-42 | an Exception with the given message and no cause |
| LegacyListUtil.ListOr | src/main/java/org/campanula/utils/method/CListUtil.java:8-13 | a non-empty list is returned; a null supplier, a null list or an empty list gives `assist(or)`, whose supplier runs exactly then if non-null |
| LegacyListUtil.ListOrThrow | src/main/java/org/campanula/utils/method/CListUtil.java:26-31 | a non-empty list is returned; a null supplier, a null list or an empty list throws the given exception |
| LegacyListUtil.AbsentListsAlike | src/main/java/org/campanula/utils/method/CListUtil.java:9-11 | a null supplier, a null list and an empty list are treated alike |
| LegacyListUtil.ListOrAgreesWithThrowing | src/main/java/org/campanula/utils/method/CListUtil.java:44-49 | where the throwing form returns, `listIsEmpty` returns the same; where it throws the given exception, `listIsEmpty` gives the fallback's value |
| LegacyListUtil.DefaultMessages | src/main/java/org/campanula/utils/method/CListUtil.java:15-17 | the message-less forms throw RuntimeException("list is empty") and Exception("object is null") |
| WhereUtil.NotPass | src/main/java/org/campanula/utils/exception/WhereNotPassRuntimeException.java:5-11 | a WhereNotPassRuntimeException with the given message and no cause |
| WhereUtil.FirstStop | src/main/java/org/campanula/utils/method/CWhereUtil.java:77-81 | the first condition that does not give true: every earlier one gave true; none iff all give true |
| WhereUtil.Evaluated | src/main/java/org/campanula/utils/method/CWhereUtil.java:77-81 | the trace of evaluating the first k conditions, in order |
| WhereUtil.Then | src/main/java/org/campanula/utils/method/CWhereUtil.java:37-47 | the loop with early return gives exactly the outcome and trace of `then` |
| WhereUtil.ThenThrow | src/main/java/org/campanula/utils/method/CWhereUtil.java:114-124 | the loop with early return gives exactly the outcome and trace of `thenThrow` with the given exception |
| WhereUtil.ThenThrowNotPass | src/main/java/org/campanula/utils/method/CWhereUtil.java:92-94 | `thenThrow` with WhereNotPassRuntimeException("not pass") |
| WhereUtil.ThenThrowMessage | src/main/java/org/campanula/utils/method/CWhereUtil.java:103-105 | `thenThrow` with a WhereNotPassRuntimeException carrying the given message |
| WhereUtil.ExactlyOneBranch | src/main/java/org/campanula/utils/method/CWhereUtil.java:17-28 | with conditions that do not throw, exactly one of success and fail runs, once; success runs iff every condition holds, and the outcome is that callback's |
| WhereUtil.EvaluationStopsAtFirstFailure | src/main/java/org/campanula/utils/method/CWhereUtil.java:17-28 | condition j is evaluated iff every earlier condition held, and then exactly at position j of the trace |
| WhereUtil.ThrowWhenNotPassed | src/main/java/org/campanula/utils/method/CWhereUtil.java:74-84 | when a condition gives false after earlier ones that returned, `thenThrow` throws the given exception and success never runs |
| WhereUtil.NoConditionsRunsSuccess | src/main/java/org/campanula/utils/method/CWhereUtil.java:17-28 | with no conditions, success runs and nothing else |
| WhereUtil.ThenTestSequence | src/test/java/org/campanula/utils/method/TestCWhereUtil.java:14-32 | the library test's sequence of calls leaves the list with sizes 2, 0, 1, 0 and 0 |

## Left out

- **Ranges**: each "## Model" row cites the lines its member models. The
  overloads that only supply a default are covered by the same member.
  - For example, `Guard.GetThrows` also models `getThrows` at
    `CObjectUtil.java:36-38` and `48-50`.
  - `LegacyObjectUtil.NullThrows` also models `oNullThrows`
    (`CObjectUtil.java:102-107`).
  - `LegacyObjectUtil.ProcessNullThrows` and `ConvertNullThrows` also model
    the `oProcessNullThrows` and `oConvertNullThrows` forms.
  - `LegacyListUtil.ListOrThrow` also models `listIsEmptyThrows`.
- **Checked vs unchecked exceptions** in the older utilities: not
  distinguished. The two forms differ in the Java compiler's rules only. The
  model carries the exception's class as data.
- **`process`/`processThrows`** of the newer `CObjectUtil`, `CListUtil` and
  `CMapUtil`: modelled by `Convert`/`ConvertThrows`. `process` is `convert`
  with the result type equal to the input type. `Guard.ConvertIdentityIsGet`
  relates it to `get`.
- **Date helpers** (`CDateUtil`, `CInstantUtil`, `CLocalDateTimeUtil`,
  `CLocalDateUtil`): not part of this model. They are thin wrappers around
  `java.time` and `SimpleDateFormat`.
- **JDK proxy machinery**:
  - `Proxy.newProxyInstance` and the class loader are not modelled. A proxy
    is its interfaces and its handler.
  - Dispatch from a proxy call to `invoke` is not modelled: the scenario
    calls the handler directly.
  - `Class<I> entityInterfaces` is only checked for null, as in the source.
- **Reflection**: `Method.invoke` runs a parameter (`Target`). The target's
  methods are given by their outcome and by what they write to the field
  store, or by a refusal before the body runs. The NullPointerException,
  the unwrapped refusal and the InvocationTargetException wrapping are
  written out. `getDeclaredField`, `setAccessible` and `Field.set` become
  operations on a map of declared field values. Access checks and type
  checks on `Field.set` are not modelled.
- Invocation.Reflect: a null receiver always gives NullPointerException.
  For a static method Java would instead run the body, but the method
  record (`MethodId`) does not say whether a method is static. Which
  receivers and arguments are refused is up to the `Target`: the model does
  not derive the receiver's class or the parameter types from the method.
  `IllegalAccessException` for an inaccessible method is not modelled, and
  neither is a refusal that comes after the body has started.
- **`Demo` arithmetic**: `integer += 1` in the test's `Demo` is 32-bit
  Integer arithmetic and wraps at `Integer.MAX_VALUE`. The scenario uses
  unbounded integers, so `ProxyScenario.UnmarkedCallUntouched` says `x + 1`
  where Java gives `Integer.MIN_VALUE` for `Integer.MAX_VALUE`.
- **User handles**: a subclass's `operate` is given by what it does to its
  own context record and to the field store, and what it throws, on a record
  or on a null context. An `operate` that relinks the chain, changes another
  handle or another context record, or keeps state of its own between calls
  is not modelled.
- **Other proxy code**: `ProxyParam`, `CAbstractProxyHandler`'s `CProxy`
  interface and `CEntityProxyFactory.newCEntityProxyFactory` only construct
  and delegate.
- **The old `proxy.CEntityProxyFactory`**: not modelled. It does not fit the
  handler it builds on. Its `getProxy` (`proxy/CEntityProxyFactory.java:53`)
  calls a one-argument `CInvocationHandler` constructor, but
  `proxy/CInvocationHandler.java:16` declares only the three-argument one,
  and it calls `setBefore`/`setAfter` with `Consumer<ProxyParam>` callbacks,
  which that handler does not declare. Two of its other methods are also broken as written:
  - `proxyPlus(T, …)` (`:30-32`) calls itself and never returns;
  - `proxyPlus(List, …)` (`:46-48`) returns a null or non-empty list as it
    is and proxies only the empty list: the same inverted guard as the
    newer factory's list form (see "## Findings").
- **Annotations**: the `CFieldAssign` annotation and `CFieldAssignMethod`
  are data: a method's `fieldName` list and a producer's field name and
  value.
- FieldAssign.BuildRegistry: a producer is its field name and the value it
  gives. Java calls `getFieldValue()` afresh on every call
  (`CFieldAssignHandle.java:61`), so a producer whose value changes between
  calls is not modelled. A null element of the producer list, or a null
  `fieldName` (NullPointerException at `CFieldAssignHandle.java:23`), is not
  modelled either.
- **Private constructors** of the two handle classes: not modelled. No code
  can reach them, so a handle's input starts null, as in the source.
- Cor.AbstractChain.Execute: modelled with one value type for every link.
  The source lets each link's input and output types differ, so the casts
  between links, and a ClassCastException from them, are not modelled.
- ProxyHandle.BeforeHandle.Execute: does not state each node's own `out`
  field after the run. It states the shared context record, the field store
  and the returned record. Each node's `Handler` states its `out`.
- ProxyHandle.AfterHandle.Execute: does not state each node's own `out`
  field after the run. It states the shared context record, the field store
  and the returned record. Each node's `Handler` states its `out`.
- Invocation.LegacyInvocationHandler.Invoke: the `Object[] args` array is a
  value, so a before handle that writes into the caller's array in place is
  not modelled.
  - The older handler passes that same array to the real call.
  - The newer handler reads it back through `getArgs`, which the model does
    capture.
- **Casts** in `CTryUtil` (`(EX) e`, `(T) handle.handle(e)`), and in the
  handlers' `(CProxyBeforeParam<T>) execute()`: unchecked casts, which the
  model treats as identities.
- **Errors vs Exceptions**: `catch (Exception e)` does not catch a Java
  `Error`. The model does not distinguish Errors from other exceptions.
- **Null callbacks** in the newer utilities, and a null exception supplier or
  a supplier returning null: not modelled. The newer API expects non-null
  callbacks. The older API's nullable callbacks are modelled as `Option`.
- **Exception instances**: throwing a `null` exception instance, which makes
  Java throw NullPointerException, is not modelled.
- **Detail messages**: the message a Java exception derives from its cause
  (`new RuntimeException(e)` takes `e.toString()`) is not modelled. `Wrap`
  keeps the cause only.
- **Integer overflow**: not modelled. `ProxyScenario`'s add-one and
  subtract-one on `Integer` use unbounded integers, and the test values are
  small.
- **Printing** in the test callbacks: modelled by the callback trace only.
- **Concurrency**: none of these classes synchronise, and the model is
  sequential.
- **Older `TestCObjectUtil` and `TestCListUtil`**: they call methods that
  the older utilities do not declare in the source (an earlier API), so they
  are not modelled.
- **`ChainTest`**: its nodes convert between `String`, `Integer` and
  `BigDecimal`. Decimal arithmetic is not modelled. The chain behaviour it
  exercises is stated generally by `Cor.Composition`.

## Findings

| source | as written | input that shows it | evidently intended | confidence | as-written member | corrected member |
|---|---|---|---|---|---|---|
| src/main/java/io/github/campanula/utils/proxy/protogenesis/CEntityProxyFactory.java:131 | the guard throws when the list is null or NOT empty, so only an empty list gets through, and it yields no proxies | a list holding one non-null target is refused | refuse a null or empty list, as the exception message says, and proxy the rest | not executed; high | ProxyFactory.ListGuardAsWrittenInverted | ProxyFactory.ListGuard |
| src/main/java/org/campanula/utils/method/CObjectUtil.java:117-124 | the `else` binds to the inner `if`, so the fallback runs for a non-null value with a null function, and a null value always gives null | `oProcess(() -> null, s -> s + "2", () -> "1")` gives null | a null value gives the fallback's value | not executed; high | LegacyObjectUtil.ProcessAsWrittenIgnoresFallback | LegacyObjectUtil.Process |
| src/main/java/org/campanula/utils/method/CObjectUtil.java:213-221 | the same dangling `else`: the void fallback runs for a non-null value with a null consumer, never for a null value | `oConsume(() -> "1", null, fallback)` runs the fallback; `oConsume(() -> null, null, fallback)` does not | the fallback runs for a null value | not executed; high | LegacyObjectUtil.ConsumeAsWrittenSwapsCases | LegacyObjectUtil.Consume |
| src/main/java/org/campanula/utils/method/CObjectUtil.java:254-259 | `throw e` is not in an `else`, so every call throws, even after consuming a non-null value | `oConsumeNullRuntimeThrows(() -> "1", s -> {}, e)` throws e | throw only for a null value; `oConsumeNullRuntimeThrows` then behaves as `oConsumeNullThrows` is meant to, and the two share one corrected definition, since the model's exceptions do not tell a checked exception from a runtime one | not executed; high | LegacyObjectUtil.ConsumeNullRuntimeThrowsAlwaysThrows | LegacyObjectUtil.ConsumeNullThrows |
| src/main/java/org/campanula/utils/method/CObjectUtil.java:292-298 | the `else throw e` binds to the inner `if`, so a null value passes silently and a non-null value with a null consumer throws | `oConsumeNullThrows(() -> null, s -> {}, e)` returns normally | throw for a null value | not executed; high | LegacyObjectUtil.ConsumeNullThrowsAsWrittenSwapsCases | LegacyObjectUtil.ConsumeNullThrows |
