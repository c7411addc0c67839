// Request-scoped storage of tool results
// (backend/routers/search/utils/tool_state.py). The async context variable
// becomes one cell holding the current request; a request's `state` either
// has a `tool_results` dictionary or does not.

module ToolState {
  import opened Wrappers

  /** An HTTP request, reduced to the attribute the tools write. */
  class Request<R> {
    var toolResults: Option<map<string, R>>

    /** A fresh request whose state has no `tool_results` yet. */
    constructor()
      ensures toolResults.None?
    {
      toolResults := None;
    }
  }

  /** `state.tool_results.get(name)`, or `None` when the attribute is missing. */
  function Stored<R>(request: Request<R>, name: string): Option<R>
    reads request
  {
    if request.toolResults.Some? && name in request.toolResults.value
    then Some(request.toolResults.value[name]) else None
  }

  /** The context variable `_request_context`. */
  class ToolContext<R> {
    var current: Option<Request<R>>

    /** The variable's default: no request. */
    constructor()
      ensures current.None?
    {
      current := None;
    }

    /** `set_request_context`. */
    method SetRequestContext(request: Request<R>)
      modifies this
      ensures current == Some(request)
    {
      current := Some(request);
    }

    /** `get_request_context`: the request last stored, if any. */
    method GetRequestContext() returns (r: Option<Request<R>>)
      ensures r == current
    {
      r := current;
    }

    /**
     * `set_tool_result`: with a current request, creates its `tool_results`
     * if missing and stores `result` under `name`, leaving every other name
     * as it was; with none, nothing changes and nothing is raised.
     */
    method SetToolResult(name: string, result: R)
      modifies if current.Some? then {current.value} else {}
      ensures current == old(current)
      ensures current.Some? ==> (current.value.toolResults.Some?
        && Stored(current.value, name) == Some(result)
        && forall n :: n != name ==> Stored(current.value, n) == old(Stored(current.value, n)))
      ensures current.Some? ==>
        current.value.toolResults == Some(old(current.value.toolResults).GetOr(map[])[name := result])
    {
      var request := current;
      if request.Some? {
        var results := request.value.toolResults.GetOr(map[]);
        request.value.toolResults := Some(results[name := result]);
      }
    }

    /**
     * `get_tool_result`: reads from `request` when one is passed, else from the
     * current request; `None` without a request, without `tool_results`, or
     * without the name.
     */
    method GetToolResult(name: string, request: Option<Request<R>>) returns (r: Option<R>)
      ensures var source := if request.Some? then request else current;
        && (source.None? ==> r.None?)
        && (source.Some? ==> r == Stored(source.value, name))
    {
      var source := request;
      if source.None? {
        source := current;
      }
      if source.Some? && source.value.toolResults.Some? && name in source.value.toolResults.value {
        r := Some(source.value.toolResults.value[name]);
      } else {
        r := None;
      }
    }
  }
}
