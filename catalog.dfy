/** The tool catalog: what the tool server lists and what the LLM API is given. */
module Catalog {
  import opened Wrappers
  import opened Json

  /** A tool as the server's `list_tools` reports it. */
  datatype ToolDescriptor = ToolDescriptor(name: string, description: Option<string>, inputSchema: Value)

  /** A tool declaration in the shape the LLM API expects (`name`, `description`, `input_schema`). */
  datatype ToolSpec = ToolSpec(name: string, description: Option<string>, inputSchema: Value)

  /** The list comprehension that turns the server's tools into the LLM's tool list. */
  function ToAnthropicTools(tools: seq<ToolDescriptor>): (specs: seq<ToolSpec>)
    ensures |specs| == |tools|
    ensures forall i :: 0 <= i < |tools| ==>
      && specs[i].name == tools[i].name
      && specs[i].description == tools[i].description
      && specs[i].inputSchema == tools[i].inputSchema
  {
    seq(|tools|, i requires 0 <= i < |tools| =>
      ToolSpec(tools[i].name, tools[i].description, tools[i].inputSchema))
  }

  /** Reads a tool declaration back as a descriptor. */
  function FromAnthropicTools(specs: seq<ToolSpec>): (tools: seq<ToolDescriptor>)
    ensures |tools| == |specs|
  {
    seq(|specs|, i requires 0 <= i < |specs| =>
      ToolDescriptor(specs[i].name, specs[i].description, specs[i].inputSchema))
  }

  /** `[tool.name for tool in tools]` */
  function Names(tools: seq<ToolDescriptor>): (names: seq<string>)
    ensures |names| == |tools|
    ensures forall i :: 0 <= i < |tools| ==> names[i] == tools[i].name
  {
    seq(|tools|, i requires 0 <= i < |tools| => tools[i].name)
  }

  /** The mapping loses nothing: the server's list can be read back from the LLM's list. */
  lemma CatalogRoundTrip(tools: seq<ToolDescriptor>)
    ensures FromAnthropicTools(ToAnthropicTools(tools)) == tools
  {
    var back := FromAnthropicTools(ToAnthropicTools(tools));
    assert forall i :: 0 <= i < |tools| ==> back[i] == tools[i];
  }

  /** Distinct server catalogs give distinct LLM tool lists. */
  lemma CatalogInjective(a: seq<ToolDescriptor>, b: seq<ToolDescriptor>)
    requires ToAnthropicTools(a) == ToAnthropicTools(b)
    ensures a == b
  {
    CatalogRoundTrip(a);
    CatalogRoundTrip(b);
  }
}
