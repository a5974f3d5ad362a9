/**
 * The collaborators of the decision logic of `categorize_email` and
 * `filter_emails`, as values: the tool-protocol session, the
 * model backend and the JSON decoder, and the trace of which of them a call
 * reached.
 */
module Protocol {
  import opened Wrappers
  import opened Json
  import opened Transport
  import opened Catalog
  import opened Conversation

  /**
   * A content part of a tool result. `text` and `toolCode` are `None` when the
   * attribute is `None`; `rendered` stands for `str(part)`.
   */
  datatype ContentPart = ContentPart(text: Option<string>, toolCode: Option<string>, rendered: string)

  /** A tool invocation either raised or returned content parts. */
  datatype ToolOutcome = CallFailed | Content(parts: seq<ContentPart>)

  /**
   * Opening a session: establishing the transport, `initialize` and
   * `list_tools` either raised or yielded the advertised tools.
   */
  datatype SessionOutcome = SessionFailed | Opened(tools: seq<ToolDesc>)

  /** What is sent to the model backend. */
  datatype GenerateRequest = GenerateRequest(model: string, contents: seq<Turn>, tools: seq<GeminiTool>, temperature: int)

  datatype Candidate = Candidate(parts: seq<ModelPart>)

  /** The backend call either raised or returned candidates and the response's `text`. */
  datatype GenOutcome = GenFailed | Response(candidates: seq<Candidate>, text: Option<string>)

  /** A collaborator reached during one call. */
  datatype Call =
    | Open(transport: TransportParams)
    | Generate(request: GenerateRequest)
    | Invoke(name: string, args: map<string, Json>)

  /** Every remote or foreign operation `categorize_email` and `filter_emails` depend on, as a total function. */
  datatype Services = Services(
    open: TransportParams -> SessionOutcome,
    generate: GenerateRequest -> GenOutcome,
    callTool: (string, map<string, Json>) -> ToolOutcome,
    decode: Decoder)

  /** Python truthiness of an optional string: present and non-empty. */
  predicate Truthy(s: Option<string>) {
    s.Some? && s.value != ""
  }
}
