/** The client façade (`MCPClient`) the specialist handlers use: it fills a
    discovery cache from the server on first use, checks tool names against
    that cache and forwards everything else to the server unchanged. */
module ToolClient {
  import opened Text
  import opened ToolServer

  /** The client's answer for a name missing from its cache, distinct from
      the server's "nicht gefunden". */
  function UnavailableError(name: string): CallResult
  {
    Error("Tool '" + name + "' ist nicht verfügbar")
  }

  class Client {
    /** `available_tools`: unset until the first discovery. */
    var availableTools: Option<map<string, ToolDescriptor>>

    /** The cache is either unset or a copy of the server's descriptor map. */
    ghost predicate Valid()
      reads this
    {
      availableTools.None? || availableTools.value == ListTools()
    }

    constructor ()
      ensures Valid() && availableTools == None
    {
      availableTools := None;
    }

    /** `discover_tools`: asks the server and caches the answer. */
    method DiscoverTools() returns (tools: map<string, ToolDescriptor>)
      modifies this
      ensures availableTools == Some(ListTools()) && tools == ListTools()
    {
      tools := ListTools();
      availableTools := Some(tools);
    }

    /** `call_tool`: discovers lazily, refuses names the cache does not hold,
        and otherwise returns the server's envelope unchanged. */
    method CallTool(name: string, params: Params) returns (r: CallResult)
      requires Valid()
      modifies this
      ensures Valid() && availableTools == Some(ListTools())
      ensures name !in availableTools.value ==> r == UnavailableError(name)
      ensures name in availableTools.value ==> r == ToolResponse(name, params)
    {
      if availableTools.None? {
        var _ := DiscoverTools();
      }
      if name !in availableTools.value {
        return UnavailableError(name);
      }
      r := ToolServer.CallTool(name, params);
    }
  }

  /** The client's "unavailable" error can always be told apart from the
      server's "not found" error for the same unregistered name. */
  lemma UnavailableIsNotNotFound(name: string, params: Params)
    requires name !in Registry
    ensures ToolResponse(name, params).Error? && UnavailableError(name) != ToolResponse(name, params)
  {
    var k := |"Tool '" + name + "' "|;
    assert UnavailableError(name).message[k] == 'i';
    assert ToolResponse(name, params).message[k] == 'n';
  }
}
