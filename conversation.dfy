/** Conversation state: turns of the user and of the model, threaded through every call. */
module Conversation {
  import opened Wrappers
  import opened Json

  datatype Role = User | Model

  /** A function call requested by the model: the tool's name and its arguments. */
  datatype FunctionCall = FunctionCall(name: string, args: map<string, Json>)

  /** A content part of a model reply, recorded verbatim in the history. */
  datatype ModelPart = ModelPart(functionCall: Option<FunctionCall>, text: Option<string>)

  /** A part of a turn: a `{"text": ...}` mapping, or a raw part echoed from the model. */
  datatype Part = TextPart(text: string) | RawPart(raw: ModelPart)

  datatype Turn = Turn(role: Role, parts: seq<Part>)

  const PromptPrefix := "Categorize the following email: "

  /** The user turn that asks for an email to be categorized; the prompt ends with the body. */
  function UserTurn(body: string): (t: Turn)
    ensures t.role == User && |t.parts| == 1 && t.parts[0].TextPart?
    ensures |t.parts[0].text| == |PromptPrefix| + |body|
    ensures t.parts[0].text[..|PromptPrefix|] == PromptPrefix
    ensures t.parts[0].text[|PromptPrefix|..] == body
  {
    Turn(User, [TextPart(PromptPrefix + body)])
  }

  /** A synthetic model turn holding an error note in place of a reply. */
  function NoteTurn(note: string): Turn {
    Turn(Model, [TextPart(note)])
  }
}
