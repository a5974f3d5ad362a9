/**
 * `categorize_email`: one turn of the categorization conversation. The user
 * turn is built from the email body, a tool session is opened over the
 * selected transport, the model is asked with the adapted tool catalog, its
 * reply is inspected and, when it asks for a function call, the tool is
 * invoked and its result decoded. Every failure inside the session becomes a
 * sentinel, and the returned history grows by the user turn and one model
 * turn. Logging the request (line 31 of the source) can raise first; see
 * `CategorizeEmail`.
 */
module Categorize {
  import opened Wrappers
  import opened Json
  import opened Transport
  import opened Catalog
  import opened Conversation
  import opened Protocol

  const ModelName := "gemini-1.5-pro-latest"

  const SessionSentinel := "error_mcp_session_categorization"
  const GeminiSentinel := "unknown_category_error_gemini_api"
  const JsonDecodeSentinel := "error_mcp_json_decode"
  const ResultStructureSentinel := "error_mcp_result_structure"
  const NoReplySentinel := "unknown_no_function_call_or_text"
  const ToolSentinelPrefix := "error_calling_mcp_tool_"

  const SessionNote := "Error in MCP session."
  const GeminiNote := "Error calling Gemini."

  /** The closed set of ways one categorization can end. */
  datatype Outcome =
    | SessionError
    | GeminiError
    | ToolCallError(toolName: string)
    | JsonDecodeError
    | ResultStructureError
    | NoCallOrText
    | ToolCategory(value: Json)
    | TextCategory(text: string)
  {
    /** The outcomes reported as an error sentinel. */
    predicate IsError() {
      !ToolCategory? && !TextCategory?
    }

    /** The outcomes reached after invoking the tool the model asked for. */
    predicate FromTool() {
      ToolCallError? || JsonDecodeError? || ResultStructureError? || ToolCategory?
    }
  }

  /** The category as the caller sees it: a decoded tool payload or a string. */
  datatype Category = Decoded(value: Json) | Label(text: string)

  /** The value `categorize_email` returns for an outcome. */
  function Render(o: Outcome): (c: Category)
    ensures c.Decoded? <==> o.ToolCategory?
    ensures o.ToolCategory? ==> c.value == o.value
    ensures o.TextCategory? ==> c == Label(o.text)
  {
    match o
    case SessionError => Label(SessionSentinel)
    case GeminiError => Label(GeminiSentinel)
    case ToolCallError(name) => Label(ToolSentinelPrefix + name)
    case JsonDecodeError => Label(JsonDecodeSentinel)
    case ResultStructureError => Label(ResultStructureSentinel)
    case NoCallOrText => Label(NoReplySentinel)
    case ToolCategory(v) => Decoded(v)
    case TextCategory(t) => Label(t)
  }

  /** Reads an error sentinel back as the outcome it reports. */
  function SentinelOutcome(sentinel: string): Option<Outcome> {
    if sentinel == SessionSentinel then Some(SessionError)
    else if sentinel == GeminiSentinel then Some(GeminiError)
    else if sentinel == JsonDecodeSentinel then Some(JsonDecodeError)
    else if sentinel == ResultStructureSentinel then Some(ResultStructureError)
    else if sentinel == NoReplySentinel then Some(NoCallOrText)
    else if StartsWith(sentinel, ToolSentinelPrefix) then Some(ToolCallError(sentinel[|ToolSentinelPrefix|..]))
    else None
  }

  /**
   * Every error outcome has its own sentinel: the sentinel names the outcome,
   * and for a failed tool call the tool's name, so no two errors collide.
   */
  lemma SentinelRoundTrip(o: Outcome)
    requires o.IsError()
    ensures Render(o).Label? && SentinelOutcome(Render(o).text) == Some(o)
  {
    if o.ToolCallError? {
      var sentinel := ToolSentinelPrefix + o.toolName;
      assert sentinel[6] == 'c';
      assert SessionSentinel[6] == 'm' && JsonDecodeSentinel[6] == 'm' && ResultStructureSentinel[6] == 'm';
      assert sentinel[0] == 'e' && GeminiSentinel[0] == 'u' && NoReplySentinel[0] == 'u';
      assert sentinel[..|ToolSentinelPrefix|] == ToolSentinelPrefix;
      assert sentinel[|ToolSentinelPrefix|..] == o.toolName;
    }
  }

  /** Conversely, whatever reads as a sentinel is exactly what that error renders to. */
  lemma SentinelOutcomeSound(sentinel: string)
    requires SentinelOutcome(sentinel).Some?
    ensures SentinelOutcome(sentinel).value.IsError()
    ensures Render(SentinelOutcome(sentinel).value) == Label(sentinel)
  {
  }

  /**
   * Interpreting a tool invocation: the first content part's text is decoded.
   * A raising call, and a `None` text (on which the decoder raises a type
   * error caught by the same handler), give the tool sentinel; no content part
   * gives the result-structure sentinel; undecodable text the decode sentinel.
   */
  function ToolResultOutcome(name: string, result: ToolOutcome, decode: Decoder): (o: Outcome)
    ensures o.FromTool()
    ensures o.ToolCallError? <==> result.CallFailed? || (|result.parts| > 0 && result.parts[0].text.None?)
    ensures o.ToolCallError? ==> o.toolName == name
    ensures o.ResultStructureError? <==> result.Content? && result.parts == []
    ensures o.JsonDecodeError? <==>
              result.Content? && |result.parts| > 0 && result.parts[0].text.Some?
              && decode(result.parts[0].text.value).None?
    ensures o.ToolCategory? <==>
              result.Content? && |result.parts| > 0 && result.parts[0].text.Some?
              && decode(result.parts[0].text.value).Some?
    ensures o.ToolCategory? ==> Some(o.value) == decode(result.parts[0].text.value)
  {
    match result
    case CallFailed => ToolCallError(name)
    case Content(parts) =>
      if parts == [] then ResultStructureError
      else match parts[0].text
        case None => ToolCallError(name)
        case Some(t) =>
          match decode(t)
          case None => JsonDecodeError
          case Some(v) => ToolCategory(v)
  }

  /** The first part of the first candidate, when the reply has one. */
  function FirstPart(g: GenOutcome): (p: Option<ModelPart>)
    ensures p.Some? <==> g.Response? && |g.candidates| > 0 && |g.candidates[0].parts| > 0
    ensures p.Some? ==> p.value == g.candidates[0].parts[0]
  {
    if g.Response? && |g.candidates| > 0 && |g.candidates[0].parts| > 0
    then Some(g.candidates[0].parts[0])
    else None
  }

  /** The request to the backend: the prior history plus the user turn, at temperature zero. */
  function Request(history: seq<Turn>, body: string, tools: seq<ToolDesc>): (r: GenerateRequest)
    ensures |r.contents| == |history| + 1
    ensures r.contents[..|history|] == history && r.contents[|history|..] == [UserTurn(body)]
    ensures r.tools == AdaptTools(tools) && r.temperature == 0 && r.model == ModelName
  {
    GenerateRequest(ModelName, history + [UserTurn(body)], AdaptTools(tools), 0)
  }

  /** The session opened for a categorization. */
  function Session(env: Env, s: Services): SessionOutcome {
    s.open(CategorizeTransport(env))
  }

  /** The backend's answer, when the session opened and the backend was asked. */
  function Answer(env: Env, body: string, history: seq<Turn>, s: Services): Option<GenOutcome> {
    match Session(env, s)
    case SessionFailed => None
    case Opened(tools) => Some(s.generate(Request(history, body, tools)))
  }

  /** The reply part that is inspected, when there is one. */
  function ReplyPart(env: Env, body: string, history: seq<Turn>, s: Services): Option<ModelPart> {
    match Answer(env, body, history, s)
    case None => None
    case Some(g) => FirstPart(g)
  }

  /** The function call the inspected reply part asks for, if any. */
  function ReplyCall(env: Env, body: string, history: seq<Turn>, s: Services): Option<FunctionCall> {
    match ReplyPart(env, body, history, s)
    case None => None
    case Some(p) => p.functionCall
  }

  /** What one categorization ends in, the model turn it records, and the collaborators it reached. */
  datatype Attempt = Attempt(outcome: Outcome, reply: Turn, calls: seq<Call>)

  function CategorizeAttempt(env: Env, body: string, history: seq<Turn>, s: Services): (a: Attempt)
    // The session is always opened first, over the selected transport.
    ensures 1 <= |a.calls| <= 3 && a.calls[0] == Open(CategorizeTransport(env))
    // The backend is asked exactly when the session opened, with the prior history and the user turn.
    ensures |a.calls| >= 2 <==> Session(env, s).Opened?
    ensures |a.calls| >= 2 ==> a.calls[1] == Generate(Request(history, body, Session(env, s).tools))
    // A tool is invoked exactly when the reply asks for a function call, with that call's own name and arguments.
    ensures |a.calls| == 3 <==> ReplyCall(env, body, history, s).Some?
    ensures |a.calls| == 3 ==>
              var fc := ReplyCall(env, body, history, s).value;
              a.calls[2] == Invoke(fc.name, fc.args)
              && a.outcome == ToolResultOutcome(fc.name, s.callTool(fc.name, fc.args), s.decode)
    // Each outcome is fixed by what the collaborators did.
    ensures a.outcome.FromTool() <==> ReplyCall(env, body, history, s).Some?
    ensures a.outcome.SessionError? <==>
              Session(env, s).SessionFailed?
              || (Answer(env, body, history, s).value.Response? && ReplyPart(env, body, history, s).None?)
    ensures a.outcome.GeminiError? <==> Answer(env, body, history, s) == Some(GenFailed)
    ensures a.outcome.TextCategory? <==>
              ReplyPart(env, body, history, s).Some? && ReplyCall(env, body, history, s).None?
              && Truthy(Answer(env, body, history, s).value.text)
    ensures a.outcome.TextCategory? ==> Some(a.outcome.text) == Answer(env, body, history, s).value.text
    ensures a.outcome.NoCallOrText? <==>
              ReplyPart(env, body, history, s).Some? && ReplyCall(env, body, history, s).None?
              && !Truthy(Answer(env, body, history, s).value.text)
    // The model turn is the raw reply part, or an error note when there is none.
    ensures a.outcome.SessionError? ==> a.reply == NoteTurn(SessionNote)
    ensures a.outcome.GeminiError? ==> a.reply == NoteTurn(GeminiNote)
    ensures ReplyPart(env, body, history, s).Some? ==> a.reply == Turn(Model, [RawPart(ReplyPart(env, body, history, s).value)])
  {
    var transport := CategorizeTransport(env);
    var start := [Open(transport)];
    match s.open(transport)
    case SessionFailed => Attempt(SessionError, NoteTurn(SessionNote), start)
    case Opened(tools) =>
      var request := Request(history, body, tools);
      var asked := start + [Generate(request)];
      var response := s.generate(request);
      if response.GenFailed? then Attempt(GeminiError, NoteTurn(GeminiNote), asked)
      else
        match FirstPart(response)
        // Indexing a reply without candidates or parts raises, and the session handler catches it.
        case None => Attempt(SessionError, NoteTurn(SessionNote), asked)
        case Some(part) =>
          var reply := Turn(Model, [RawPart(part)]);
          match part.functionCall
          case Some(fc) =>
            Attempt(ToolResultOutcome(fc.name, s.callTool(fc.name, fc.args), s.decode), reply,
                    asked + [Invoke(fc.name, fc.args)])
          case None =>
            Attempt(if Truthy(response.text) then TextCategory(response.text.value) else NoCallOrText,
                    reply, asked)
  }

  /**
   * The history can be logged as JSON: every part is a `{"text": ...}`
   * mapping. A raw reply part is a library object that the JSON encoder
   * rejects with a type error.
   */
  predicate Serializable(history: seq<Turn>) {
    forall i, j :: 0 <= i < |history| && 0 <= j < |history[i].parts| ==> history[i].parts[j].TextPart?
  }

  /** What a call of `categorize_email` does: it raises, or it returns a category and a history. */
  datatype Reply = Raised | Returned(category: Category, history: seq<Turn>)

  /**
   * `categorize_email(body, history)` as written: before anything else it logs
   * the request contents as JSON, outside every handler, so it raises exactly
   * when the prior history holds a raw reply part. Otherwise it returns what
   * `CategorizeEmailFixed` returns.
   */
  function CategorizeEmail(env: Env, body: string, history: seq<Turn>, s: Services): (r: Reply)
    ensures r.Raised? <==> !Serializable(history)
    ensures r.Returned? ==> (r.category, r.history) == CategorizeEmailFixed(env, body, history, s)
  {
    ContentsSerializable(history, body);
    if Serializable(history + [UserTurn(body)]) then
      var (category, next) := CategorizeEmailFixed(env, body, history, s);
      Returned(category, next)
    else
      Raised
  }

  /** The user turn always serializes, so the request contents serialize exactly when the prior history does. */
  lemma ContentsSerializable(history: seq<Turn>, body: string)
    ensures Serializable(history + [UserTurn(body)]) <==> Serializable(history)
  {
    var contents := history + [UserTurn(body)];
    if Serializable(contents) {
      forall i, j | 0 <= i < |history| && 0 <= j < |history[i].parts|
        ensures history[i].parts[j].TextPart?
      {
        assert contents[i] == history[i];
      }
    }
  }

  /**
   * `categorize_email` with the logging unable to raise: the category or
   * sentinel, and the new history, which is the prior history followed by the
   * user turn and the recorded model turn on every path.
   */
  function CategorizeEmailFixed(env: Env, body: string, history: seq<Turn>, s: Services): (r: (Category, seq<Turn>))
    ensures |r.1| == |history| + 2
    ensures r.1[..|history|] == history
    ensures r.1[|history|] == UserTurn(body)
    ensures r.1[|history| + 1] == CategorizeAttempt(env, body, history, s).reply
    ensures r.0 == Render(CategorizeAttempt(env, body, history, s).outcome)
  {
    var a := CategorizeAttempt(env, body, history, s);
    (Render(a.outcome), history + [UserTurn(body), a.reply])
  }

  /** An error category always reads back as the outcome that caused it. */
  lemma ErrorCategoryNamesOutcome(env: Env, body: string, history: seq<Turn>, s: Services)
    requires CategorizeAttempt(env, body, history, s).outcome.IsError()
    ensures CategorizeEmailFixed(env, body, history, s).0.Label?
    ensures SentinelOutcome(CategorizeEmailFixed(env, body, history, s).0.text)
            == Some(CategorizeAttempt(env, body, history, s).outcome)
  {
    SentinelRoundTrip(CategorizeAttempt(env, body, history, s).outcome);
  }

  /**
   * A call that records the model's own reply part leaves a history that can
   * no longer be logged, so the next call raises.
   */
  lemma ReplyLeavesRawPart(env: Env, body: string, history: seq<Turn>, s: Services)
    requires Serializable(history)
    requires ReplyPart(env, body, history, s).Some?
    ensures CategorizeEmail(env, body, history, s).Returned?
    ensures !Serializable(CategorizeEmail(env, body, history, s).history)
    ensures forall body' :: CategorizeEmail(env, body', CategorizeEmail(env, body, history, s).history, s).Raised?
  {
    var h := CategorizeEmail(env, body, history, s).history;
    assert h[|history| + 1].parts[0].RawPart?;
  }

  /**
   * The history after the interactive loop hands several emails in turn to
   * `categorize_email`, each call continuing the last one's history; a call
   * that raises is reported and leaves the history as it was.
   */
  function Converse(env: Env, bodies: seq<string>, history: seq<Turn>, s: Services): (h: seq<Turn>)
    ensures |history| <= |h| <= |history| + 2 * |bodies|
    ensures h[..|history|] == history
    decreases |bodies|
  {
    if bodies == [] then history
    else
      match CategorizeEmail(env, bodies[0], history, s)
      case Raised => Converse(env, bodies[1..], history, s)
      case Returned(_, next) => Converse(env, bodies[1..], next, s)
  }

  /** Once the history holds a raw reply part, every later email raises and the history never grows. */
  lemma {:induction false} FrozenOnceRaw(env: Env, bodies: seq<string>, history: seq<Turn>, s: Services)
    requires !Serializable(history)
    ensures Converse(env, bodies, history, s) == history
  {
    if bodies != [] {
      FrozenOnceRaw(env, bodies[1..], history, s);
    }
  }

  /**
   * After any call that records the model's reply part, the conversation
   * never advances again: the history stays what that call returned.
   */
  lemma {:induction false} StopsAfterReply(env: Env, first: string, rest: seq<string>, history: seq<Turn>, s: Services)
    requires Serializable(history)
    requires ReplyPart(env, first, history, s).Some?
    ensures Converse(env, [first] + rest, history, s) == CategorizeEmail(env, first, history, s).history
  {
    ReplyLeavesRawPart(env, first, history, s);
    assert ([first] + rest)[1..] == rest;
    FrozenOnceRaw(env, rest, CategorizeEmail(env, first, history, s).history, s);
  }

  /** Services under which the model answers every request with plain text. */
  function TextReplyServices(): Services {
    Services(
      t => Opened([]),
      r => Response([Candidate([ModelPart(None, Some("personal"))])], Some("personal")),
      (name, args) => CallFailed,
      text => None)
  }

  /**
   * Two emails answered with text: as written the second call raises and the
   * history stays at two turns; with logging that cannot raise it reaches four.
   */
  lemma SecondEmailRaises(env: Env)
    ensures |Converse(env, ["a", "b"], [], TextReplyServices())| == 2
    ensures |ConverseFixed(env, ["a", "b"], [], TextReplyServices())| == 4
  {
    var s := TextReplyServices();
    ReplyLeavesRawPart(env, "a", [], s);
    var first := CategorizeEmail(env, "a", [], s).history;
    assert ["a", "b"][1..] == ["b"];
    FrozenOnceRaw(env, ["b"], first, s);
    ConverseAppends(env, ["a", "b"], [], s);
  }

  /** The history after several calls of `CategorizeEmailFixed`, each continuing the last one's history. */
  function ConverseFixed(env: Env, bodies: seq<string>, history: seq<Turn>, s: Services): seq<Turn>
    decreases |bodies|
  {
    if bodies == [] then history
    else ConverseFixed(env, bodies[1..], CategorizeEmailFixed(env, bodies[0], history, s).1, s)
  }

  /**
   * With logging that cannot raise, threading the history through successive
   * calls only ever appends: the starting history stays a prefix, and the i-th
   * email's user turn sits at position |history| + 2 * i.
   */
  lemma {:induction false} ConverseAppends(env: Env, bodies: seq<string>, history: seq<Turn>, s: Services)
    ensures |ConverseFixed(env, bodies, history, s)| == |history| + 2 * |bodies|
    ensures ConverseFixed(env, bodies, history, s)[..|history|] == history
    ensures forall i :: 0 <= i < |bodies| ==> ConverseFixed(env, bodies, history, s)[|history| + 2 * i] == UserTurn(bodies[i])
  {
    if bodies != [] {
      var next := CategorizeEmailFixed(env, bodies[0], history, s).1;
      var rest := bodies[1..];
      ConverseAppends(env, rest, next, s);
      var h := ConverseFixed(env, bodies, history, s);
      assert h == ConverseFixed(env, rest, next, s);
      assert h[..|history|] == next[..|history|];
      forall i | 0 <= i < |bodies|
        ensures h[|history| + 2 * i] == UserTurn(bodies[i])
      {
        if i == 0 {
          assert h[|history|] == next[|history|];
        } else {
          assert rest[i - 1] == bodies[i];
          assert h[|next| + 2 * (i - 1)] == UserTurn(rest[i - 1]);
        }
      }
    }
  }
}
