/**
 * `filter_emails`: open a session of its own, look for the email-fetch tool,
 * call it with a fixed query and turn every content part of the result into
 * one record; every failure becomes a single error record.
 */
module Fetch {
  import opened Wrappers
  import opened Json
  import opened Transport
  import opened Catalog
  import opened Protocol

  const GmailToolName := "gmail_fetch_emails"
  const FetchArgs: map<string, Json> := map["query" := JStr("unread"), "max_results" := JNum(10)]

  const SessionFailedMessage := "MCP client session failed for filtering"
  const NotFoundMessage := "Tool " + GmailToolName + " not found"
  const CallFailedMessage := "Failed to call " + GmailToolName

  /** A `{"error": message}` record. */
  function ErrorRecord(message: string): Json {
    JObj(map["error" := JStr(message)])
  }

  /**
   * The record for one content part: its decoded text, the raw text tagged as
   * not JSON, its tool code, or its rendering as an unknown part.
   */
  function PartRecord(part: ContentPart, decode: Decoder): (r: Json)
    ensures Truthy(part.text) && decode(part.text.value).Some? ==> Some(r) == decode(part.text.value)
    ensures Truthy(part.text) && decode(part.text.value).None? ==>
              r.JObj? && r.fields.Keys == {"raw_text", "error"}
              && r.fields["raw_text"] == JStr(part.text.value) && r.fields["error"] == JStr("not_json")
    ensures !Truthy(part.text) ==> r.JObj? && |r.fields| == 1
    ensures !Truthy(part.text) ==> ("tool_code" in r.fields <==> Truthy(part.toolCode))
    ensures !Truthy(part.text) && Truthy(part.toolCode) ==> r.fields["tool_code"] == JStr(part.toolCode.value)
    ensures !Truthy(part.text) && !Truthy(part.toolCode) ==> "unknown_part" in r.fields && r.fields["unknown_part"] == JStr(part.rendered)
  {
    if Truthy(part.text) then
      match decode(part.text.value)
      case Some(v) => v
      case None => JObj(map["raw_text" := JStr(part.text.value), "error" := JStr("not_json")])
    else if Truthy(part.toolCode) then
      JObj(map["tool_code" := JStr(part.toolCode.value)])
    else
      JObj(map["unknown_part" := JStr(part.rendered)])
  }

  /**
   * The records `filter_emails` returns, and the collaborators it reached.
   * The fetch tool is called only when it is advertised, always with the fixed
   * arguments, and a successful call yields exactly one record per content
   * part, in order.
   */
  method FilterEmails(env: Env, s: Services) returns (records: seq<Json>, calls: seq<Call>)
    ensures 1 <= |calls| <= 2 && calls[0] == Open(FilterTransport(env))
    ensures s.open(FilterTransport(env)).SessionFailed? ==> records == [ErrorRecord(SessionFailedMessage)]
    ensures s.open(FilterTransport(env)).Opened? && GmailToolName !in ToolNames(s.open(FilterTransport(env)).tools)
            ==> records == [ErrorRecord(NotFoundMessage)]
    ensures |calls| == 2 <==>
              s.open(FilterTransport(env)).Opened? && GmailToolName in ToolNames(s.open(FilterTransport(env)).tools)
    ensures |calls| == 2 ==> calls[1] == Invoke(GmailToolName, FetchArgs)
    ensures |calls| == 2 && s.callTool(GmailToolName, FetchArgs).CallFailed? ==> records == [ErrorRecord(CallFailedMessage)]
    ensures |calls| == 2 && s.callTool(GmailToolName, FetchArgs).Content? ==>
              var parts := s.callTool(GmailToolName, FetchArgs).parts;
              |records| == |parts| && forall i :: 0 <= i < |parts| ==> records[i] == PartRecord(parts[i], s.decode)
  {
    var transport := FilterTransport(env);
    calls := [Open(transport)];
    var session := s.open(transport);
    if session.SessionFailed? {
      return [ErrorRecord(SessionFailedMessage)], calls;
    }
    var toolNames := ToolNames(session.tools);
    if GmailToolName !in toolNames {
      return [ErrorRecord(NotFoundMessage)], calls;
    }
    calls := calls + [Invoke(GmailToolName, FetchArgs)];
    var result := s.callTool(GmailToolName, FetchArgs);
    if result.CallFailed? {
      return [ErrorRecord(CallFailedMessage)], calls;
    }
    var fetched: seq<Json> := [];
    var i := 0;
    while i < |result.parts|
      invariant 0 <= i <= |result.parts|
      invariant |fetched| == i
      invariant forall j :: 0 <= j < i ==> fetched[j] == PartRecord(result.parts[j], s.decode)
    {
      fetched := fetched + [PartRecord(result.parts[i], s.decode)];
      i := i + 1;
    }
    records := fetched;
  }

  /** The fetch tool is advertised exactly when some advertised tool carries its name. */
  lemma ToolPresentIff(tools: seq<ToolDesc>)
    ensures GmailToolName in ToolNames(tools) <==> exists i :: 0 <= i < |tools| && tools[i].name == GmailToolName
  {
  }
}
