# Email-categorization agent: decision logic

This project models the decision logic of `gmail_agent/email_filter.py`, an
email-categorization agent. It covers two entry points:

- `categorize_email` sends an email body to a Gemini model together with the
  tools advertised by an MCP (Model Context Protocol) session. When the model
  asks for a function call, it invokes that tool and decodes the tool's result.
  Every failure inside the session becomes a sentinel string, and the history
  it returns grows by one user turn and one model turn. One failure escapes:
  the request is logged as JSON before the session is opened and outside every
  handler, so the call raises once the history holds a raw model reply part
  (see "## Findings").
- `filter_emails` opens its own MCP session and looks for the
  `gmail_fetch_emails` tool. It calls that tool with a fixed query and turns
  each content part of the result into one record, or returns a single error
  record.

Every remote or foreign operation is an input. The `Services` value holds
opening the session (transport, `initialize` and `list_tools` together),
`generate_content`, `call_tool` and `json.loads`, each as a total function.
The model applies them to the exact requests the code builds.
`CategorizeAttempt` (the part of `categorize_email` after the log line) and
`FilterEmails` also return the list of collaborators they reached (`Call`:
`Open`, `Generate`, `Invoke`); a call of `CategorizeEmail` that raises reaches
none. This list lets the contracts state which calls are made and which
are not: no model call when the session fails, no tool call on the text
branch, no tool call when the fetch tool is absent. The process environment is
a `map<string, string>` parameter. The `os.getenv` defaults are constants.

Modules, following the components of the file:

- `Transport`: the choice between the HTTP and the stdio transport.
- `Catalog`: the adapter from advertised tools to backend function declarations.
- `Conversation`: turns, parts and the user prompt.
- `Protocol`: the collaborators' outcomes as datatypes, and the call trace.
- `Categorize`: `categorize_email`, pure functions over those outcomes. `Outcome` is the closed set of ways a call can end. `Render` maps each outcome to the value Python returns. `CategorizeEmail` is the function as written, including the raise at line 31; `CategorizeEmailFixed` is the same function with logging that cannot raise.
- `Fetch`: `filter_emails`, a method whose loop builds the records.

Three paths that are easy to misread; the model follows the code:

- A model reply with no candidate or no part raises `IndexError` at line 102.
  The outer handler catches it, so the result is
  `error_mcp_session_categorization` with the note "Error in MCP session.". It
  is not the Gemini sentinel.
- When `content[0].text` is `None`, `json.loads` raises a `TypeError`. That is
  neither a decode error nor a structure error. It is caught by the handler at
  line 122, so the result is `error_calling_mcp_tool_<name>`.
- When the fetch tool returns a JSON list in one text part, the code appends
  that list as ONE record (line 178). The test at
  `gmail_agent/test_email_filter.py:326` expects a flattened list. The model
  keeps one record per part.

## Model

| member | source | states |
|---|---|---|
| Transport.CategorizeTransport | gmail_agent/email_filter.py:34-45 | HTTP with `base_url` equal to the configured URL exactly when that URL is non-empty and starts with "http". Otherwise stdio with command `MCP_STDIO_COMMAND` (default `mcp-flight-search`), args `["--connection_type","stdio"]` and env `{SERP_API_KEY}`. |
| Transport.FilterTransport | gmail_agent/email_filter.py:143-153 | The same choice for fetching. Over stdio the command is `MCP_STDIO_GMAIL_COMMAND` (default `mcp-gmail-tool`) and no environment is passed. |
| Transport.SelectorsAgree | gmail_agent/email_filter.py:143-145 | Both entry points choose the same transport kind. They use the same HTTP endpoint and the same stdio arguments. |
| Transport.HttpExactlyOnScheme | gmail_agent/email_filter.py:34 | The non-empty test adds nothing to the "http" prefix test. |
| Transport.DefaultIsHttp | gmail_agent/email_filter.py:21 | With `MCP_SERVER_URL` unset, both entry points use HTTP to `http://localhost:8000/mcp`. |
| Transport.EmptyUrlIsStdio | gmail_agent/test_email_filter.py:27-33 | An empty `MCP_SERVER_URL` selects stdio for both entry points. |
| Catalog.SchemaParameters | gmail_agent/email_filter.py:78-82 | The keys are the schema's keys minus exactly `additionalProperties` and `$schema`. Every kept key keeps its value. |
| Catalog.Declare | gmail_agent/email_filter.py:75-83 | The declaration copies the name and description unchanged. Its parameters are the filtered input schema. |
| Catalog.AdaptTools | gmail_agent/email_filter.py:72-87 | One backend tool per advertised tool, in discovery order. Each holds exactly that tool's one declaration. |
| Catalog.ToolNames | gmail_agent/email_filter.py:162 | The advertised names, one per tool, in order. |
| Catalog.AdaptedNamesInOrder | gmail_agent/email_filter.py:72-87 | The names declared to the backend are exactly the advertised names, in the same order. |
| Catalog.SchemaParametersIdempotent | gmail_agent/email_filter.py:78-82 | Filtering an already filtered schema changes nothing. |
| Catalog.SchemaWithoutMetadataUnchanged | gmail_agent/email_filter.py:78-82 | A schema without the two metadata keys is handed over unchanged. |
| Conversation.UserTurn | gmail_agent/email_filter.py:29 | A user turn with a single text part: "Categorize the following email: " followed by the body, which can be read back from the end. |
| Categorize.Render | gmail_agent/email_filter.py:96-135 | The category is a decoded payload exactly for a tool result that decoded. Text from the model is returned as it came. |
| Categorize.SentinelRoundTrip | gmail_agent/email_filter.py:96-135 | Each error outcome has its own sentinel and reads back from it. A failed tool call's sentinel includes the tool name. No two errors share a sentinel. |
| Categorize.SentinelOutcomeSound | gmail_agent/email_filter.py:96-135 | Every string that reads as a sentinel is the rendering of the error it names. |
| Categorize.ToolResultOutcome | gmail_agent/email_filter.py:108-124 | Stated as if-and-only-if for each case. A raising call or a `None` text gives `error_calling_mcp_tool_<name>`. No content part gives the result-structure sentinel. Undecodable text gives the decode sentinel. Otherwise the category is the decoded value. |
| Categorize.Request | gmail_agent/email_filter.py:28-94 | The backend receives the prior history followed by exactly the user turn. It also receives exactly the adapted catalog (`AdaptTools` of the advertised tools), at temperature 0. |
| Categorize.CategorizeAttempt | gmail_agent/email_filter.py:47-135 | The session is opened first. The backend is called exactly when the session opened, with `prior ++ [userTurn]`. A tool is called exactly when the first part of the first candidate carries a function call, and with that call's own name and arguments. Each outcome holds exactly in its triggering situation. The model turn is the raw part, or the session or Gemini error note. |
| Categorize.FirstPart | gmail_agent/email_filter.py:102 | A part is inspected exactly when the reply has a first candidate with a first part, and it is that part. |
| Categorize.ContentsSerializable | gmail_agent/email_filter.py:30-31 | The user turn always serializes, so the logged contents serialize exactly when the prior history does. |
| Categorize.CategorizeEmail | gmail_agent/email_filter.py:23-135 | As written: the call raises exactly when the prior history holds a raw reply part (the JSON log at line 31). Otherwise it returns what `CategorizeEmailFixed` returns. |
| Categorize.CategorizeEmailFixed | gmail_agent/email_filter.py:28-135 | On every path the new history is the prior history, then the user turn, then the model turn the attempt recorded (raw reply part or error note). Its length is prior + 2, and the category is the rendered outcome. |
| Categorize.ErrorCategoryNamesOutcome | gmail_agent/email_filter.py:96-135 | Every error category returned reads back as the outcome that caused it. |
| Categorize.ReplyLeavesRawPart | gmail_agent/email_filter.py:103 | A call that records the model's reply part returns a history that no longer serializes, so any next call raises. |
| Categorize.Converse | gmail_agent/email_filter.py:255-263 | Threading the history through successive calls, keeping it unchanged when a call raises: the start stays a prefix and the history grows by at most 2 per email. |
| Categorize.FrozenOnceRaw | gmail_agent/email_filter.py:255-263 | Once the history holds a raw reply part, every later email raises and the history stays exactly as it is. |
| Categorize.StopsAfterReply | gmail_agent/email_filter.py:255-263 | After any call that records the model's reply part, every later email raises and the history stays exactly what that call returned. |
| Categorize.SecondEmailRaises | gmail_agent/email_filter.py:31 | Two emails answered with text: as written the history stays at 2 turns; with logging that cannot raise it reaches 4. |
| Categorize.ConverseAppends | gmail_agent/email_filter.py:28-30 | With logging that cannot raise, successive calls only append. The start stays a prefix, the history grows by 2 per email, and each email's user turn lies at its fixed position. |
| Fetch.FilterEmails | gmail_agent/email_filter.py:138-200 | A session failure gives the session error record. An absent fetch tool gives the not-found record and no tool call. Otherwise the tool is called once with `{"query":"unread","max_results":10}`. A failed call gives the call-failed record. A successful call gives exactly one record per content part, in order: decoded text, raw text tagged `not_json`, the tool code, or the unknown part. |
| Fetch.PartRecord | gmail_agent/email_filter.py:174-186 | A part with non-empty text gives its decoded value, or `{raw_text, error: not_json}` when it does not decode. Otherwise a one-key record: `tool_code` exactly when the part has a non-empty tool code, else `unknown_part` with the part's rendering. |
| Fetch.ToolPresentIff | gmail_agent/email_filter.py:161-166 | The fetch tool counts as present exactly when some advertised tool has that name. |

## Left out

- The MCP client, its transports, `ClientSession`, the Gemini client, `load_dotenv` and logging are I/O. They appear only as the outcome values of `Services`. The model has no `async with` scoping and does not model a teardown that raises.
- `json.loads` is an oracle (`Decoder`); no JSON parser is modelled. JSON numbers are integers, and floating point is left out.
- `main()` and its interactive loop, including `genai.configure`, are a UI shell. Only the history threading and the handler that keeps the history when a call raises (lines 255-263) are modelled, by `Categorize.Converse`. Its list of bodies holds only the inputs that reach `categorize_email`: the quit command, empty input and a missing API key are not modelled.
- Environment reads are not timed: the source reads `MCP_SERVER_URL` once, at import (line 21, after `load_dotenv` at line 14), and reads `MCP_STDIO_COMMAND`, `SERP_API_KEY` and `MCP_STDIO_GMAIL_COMMAND` on every call (lines 41, 43, 150). The model reads all of them from the one `env` passed to each call.
- Other raises before the `try` at line 47 (constructing the Gemini client at line 26, logging the body at line 25) are not modelled.
- The mis-indented block at `gmail_agent/email_filter.py:55-70` refers to an undefined `mcp_tools`. The adapter is modelled from lines 72-87 instead.
- The key order of a filtered schema is not modelled, because schemas are maps. The model keeps keys and values only.
- Attribute access is modelled as an optional value. A content part without a `.text` or `.tool_code` attribute raises `AttributeError` in Python. In `filter_emails` that would turn the whole result into the call-failed record. In `categorize_email` it would give the result-structure sentinel. The model treats a missing attribute like `None`.
- `response.text` is an input value. In the Gemini library, reading it can raise when the reply has no text part. That raise would end in the session sentinel, and the model does not capture it.
- A function-call object that is present but falsy is treated as present (`Option`).
- Python returns a decoded JSON string as a `str`, which a caller cannot tell apart from a sentinel. The model keeps `Decoded` and `Label` apart.
- The stability of repeated categorization at temperature 0 holds by construction, because the model is a function of its inputs. No separate lemma states it.
- `history=None` is modelled as the empty history.
- Timeouts, cancellation and concurrency do not appear in the code and are not modelled.

## Findings

| source | as written | input that shows it | evidently intended | confidence | as-written member | corrected member |
|---|---|---|---|---|---|---|
| gmail_agent/email_filter.py:31 | The request contents are logged with `json.dumps` before the `try` at line 47. After a reply, the history holds the raw model part (line 103), which is not JSON-serializable, so every later call raises `TypeError`; the loop's handler (lines 260-263) keeps the history, and the conversation never advances again. | Emails `"a"` then `"b"`, the model answering each with text: the second call raises and the history stays at 2 turns. | Logging never changes the result: every call returns a category and the history grows by 2 per email. | not executed | Categorize.SecondEmailRaises | Categorize.ConverseAppends |
