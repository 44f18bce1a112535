/**
 * The execution context (src/infrastructure/context/executionContext.provider.ts).
 * The asynchronous local store behaves, for one request, like a stack of
 * contexts: `init(c, cb)` makes `c` current for the duration of `cb` and then
 * restores whatever was current before.
 */
module ExecutionContexts {
  import opened Wrappers

  /** BaseExecutionContext: the transaction id (an index into the id supply) and the tenant. */
  datatype ExecutionContext = ExecutionContext(globalTransactionId: nat, tenantId: Option<string>)

  /** `get()`: the innermost established context, or undefined. */
  function Current(stack: seq<ExecutionContext>): (r: Option<ExecutionContext>)
    ensures r.None? <==> stack == []
    ensures r.Some? ==> r.value == stack[|stack| - 1]
  {
    if stack == [] then None else Some(stack[|stack| - 1])
  }

  /** `getTenantId()`: `context?.tenantId ?? null`. */
  function TenantIdOf(stack: seq<ExecutionContext>): (r: Option<string>)
    ensures stack == [] ==> r.None?
    ensures stack != [] ==> r == stack[|stack| - 1].tenantId
  {
    match Current(stack)
    case None => None
    case Some(c) => c.tenantId
  }

  /** `setTenantId(t)`: overwrite the current context's tenant; nothing when there is none. */
  function WithTenantId(stack: seq<ExecutionContext>, tenantId: string): (r: seq<ExecutionContext>)
    ensures |r| == |stack|
    ensures forall i :: 0 <= i < |stack| - 1 ==> r[i] == stack[i]
    ensures stack != [] ==> r[|r| - 1] == stack[|stack| - 1].(tenantId := Some(tenantId))
  {
    if stack == [] then [] else stack[..|stack| - 1] + [stack[|stack| - 1].(tenantId := Some(tenantId))]
  }

  /** Inside `init(c, …)`, `get()` is `c`. */
  lemma InitMakesCurrent(stack: seq<ExecutionContext>, c: ExecutionContext)
    ensures Current(stack + [c]) == Some(c)
    ensures TenantIdOf(stack + [c]) == c.tenantId
  {
  }

  /** After `setTenantId(t)` in a scope, `getTenantId()` reads `t` and the transaction id is kept. */
  lemma SetThenGet(stack: seq<ExecutionContext>, t: string)
    requires stack != []
    ensures TenantIdOf(WithTenantId(stack, t)) == Some(t)
    ensures Current(WithTenantId(stack, t)).value.globalTransactionId == Current(stack).value.globalTransactionId
  {
  }

  /** `setTenantId` with no current context changes nothing, and `getTenantId()` stays null. */
  lemma SetWithoutContext(t: string)
    ensures WithTenantId([], t) == [] && TenantIdOf(WithTenantId([], t)).None?
  {
  }

  /** A `setTenantId` inside a nested scope is undone when that scope ends: the outer
      context is current again, unchanged. */
  lemma NestedScopeRestores(outer: seq<ExecutionContext>, c: ExecutionContext, t: string)
    ensures var inner := WithTenantId(outer + [c], t);
            inner[..|outer|] == outer
  {
    var inner := WithTenantId(outer + [c], t);
    assert forall i :: 0 <= i < |outer| ==> inner[i] == outer[i];
  }

  /** ExecutionContextProvider: the stack of established contexts. */
  class ExecutionContextProvider {
    var stack: seq<ExecutionContext>

    constructor ()
      ensures stack == []
    {
      stack := [];
    }

    function Get(): (r: Option<ExecutionContext>)
      reads this
      ensures r == Current(stack)
    {
      Current(stack)
    }

    function GetTenantId(): (r: Option<string>)
      reads this
      ensures r == TenantIdOf(stack)
    {
      TenantIdOf(stack)
    }

    /** Entering `init(c, …)`. */
    method Enter(c: ExecutionContext)
      modifies this
      ensures stack == old(stack) + [c]
      ensures Get() == Some(c)
    {
      stack := stack + [c];
    }

    /** Leaving `init(c, …)`, normally or by a throw: the store saved on entry is current again. */
    method Restore(previous: seq<ExecutionContext>)
      modifies this
      ensures stack == previous
      ensures Get() == Current(previous)
    {
      stack := previous;
    }

    method SetTenantId(tenantId: string)
      modifies this
      ensures stack == WithTenantId(old(stack), tenantId)
    {
      var context := Get();
      if context.Some? {
        stack := stack[..|stack| - 1] + [context.value.(tenantId := Some(tenantId))];
      }
    }
  }
}
