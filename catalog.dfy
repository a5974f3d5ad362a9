/**
 * The tool-catalog adapter: tools advertised by the session become function
 * declarations for the model backend, with the transport-only schema keys
 * removed.
 */
module Catalog {
  import opened Json

  /** A tool as advertised by `list_tools`. */
  datatype ToolDesc = ToolDesc(name: string, description: string, inputSchema: map<string, Json>)

  /** One function declaration handed to the model backend. */
  datatype FunctionDeclaration = FunctionDeclaration(name: string, description: string, parameters: map<string, Json>)

  /** A backend tool wrapping its function declarations. */
  datatype GeminiTool = GeminiTool(functionDeclarations: seq<FunctionDeclaration>)

  /** Schema keys that are meaningful to the tool protocol only. */
  const StrippedKeys: set<string> := {"additionalProperties", "$schema"}

  /** The input schema without the stripped keys; every other entry is kept as it is. */
  function SchemaParameters(schema: map<string, Json>): (p: map<string, Json>)
    ensures p.Keys == schema.Keys - StrippedKeys
    ensures forall k :: k in p ==> p[k] == schema[k]
  {
    map k | k in schema && k !in StrippedKeys :: schema[k]
  }

  /** The declaration for one advertised tool. */
  function Declare(tool: ToolDesc): (d: FunctionDeclaration)
    ensures d.name == tool.name && d.description == tool.description
    ensures d.parameters.Keys == tool.inputSchema.Keys - StrippedKeys
    ensures forall k :: k in d.parameters ==> d.parameters[k] == tool.inputSchema[k]
  {
    FunctionDeclaration(tool.name, tool.description, SchemaParameters(tool.inputSchema))
  }

  /** One backend tool per advertised tool, in discovery order, each with its one declaration. */
  function AdaptTools(tools: seq<ToolDesc>): (r: seq<GeminiTool>)
    ensures |r| == |tools|
    ensures forall i :: 0 <= i < |tools| ==> r[i] == GeminiTool([Declare(tools[i])])
  {
    if tools == [] then [] else [GeminiTool([Declare(tools[0])])] + AdaptTools(tools[1..])
  }

  /** The names of the advertised tools, in discovery order. */
  function ToolNames(tools: seq<ToolDesc>): (names: seq<string>)
    ensures |names| == |tools|
    ensures forall i :: 0 <= i < |tools| ==> names[i] == tools[i].name
  {
    if tools == [] then [] else [tools[0].name] + ToolNames(tools[1..])
  }

  /** The names the backend is told about are the advertised ones, in the same order. */
  lemma AdaptedNamesInOrder(tools: seq<ToolDesc>)
    ensures forall i :: 0 <= i < |tools| ==> AdaptTools(tools)[i].functionDeclarations[0].name == ToolNames(tools)[i]
  {
  }

  /** Filtering a schema a second time changes nothing. */
  lemma SchemaParametersIdempotent(schema: map<string, Json>)
    ensures SchemaParameters(SchemaParameters(schema)) == SchemaParameters(schema)
  {
  }

  /** A schema without the stripped keys is handed over unchanged. */
  lemma SchemaWithoutMetadataUnchanged(schema: map<string, Json>)
    requires "additionalProperties" !in schema && "$schema" !in schema
    ensures SchemaParameters(schema) == schema
  {
  }
}
