/** The pure part of the chat service (services/gemini.ts): how the chat history and the
    custom instructions become a `generateContent` request, and how the outcome of that call
    becomes the reply shown in the chat. The call itself is foreign: its outcome is a parameter. */
module Gemini {
  import opened Strings
  import opened Types

  /** One `{ text }` part of a request message. */
  datatype Part = Part(text: string)

  /** One `{ role, parts }` element of the request's `contents`. */
  datatype Content = Content(role: Role, parts: seq<Part>)

  /** The request's `config`: `systemInstruction` is present or absent. */
  datatype Config = Config(systemInstruction: Option<string>)

  datatype Request = Request(model: string, contents: seq<Content>, config: Config)

  /** What the awaited call did: answered, threw an `Error` with a message, or threw something
      that is not an `Error`. */
  datatype Outcome = Answered(text: string) | ThrewError(message: string) | ThrewOther

  const ModelName := "gemini-2.5-flash"
  const ErrorPrefix := "Error: Could not get a response from the AI. Details: "
  const UnknownError := "An unknown error occurred while contacting the AI."

  // ----- chat history -----

  /** The API has no system role: a system message is sent as the user's. */
  function ApiRole(role: Role): (r: Role)
    ensures r != System
    ensures role == System ==> r == User
    ensures role != System ==> r == role
  {
    if role == System then User else role
  }

  function ToContent(message: ChatMessage): Content {
    Content(ApiRole(message.role), [Part(message.content)])
  }

  /** `formatChatHistoryForApi`: one element per message, in order, each with the message's
      role (system sent as user) and exactly one part holding its content. */
  function FormatChatHistoryForApi(history: seq<ChatMessage>): (r: seq<Content>)
    ensures |r| == |history|
    ensures forall i :: 0 <= i < |r| ==>
      && r[i].role == ApiRole(history[i].role)
      && r[i].parts == [Part(history[i].content)]
    decreases |history|
  {
    if history == [] then [] else [ToContent(history[0])] + FormatChatHistoryForApi(history[1..])
  }

  /** Formatting works message by message: the history of a longer chat is the history of its
      first part followed by that of the rest. */
  lemma {:induction false} FormatAppend(a: seq<ChatMessage>, b: seq<ChatMessage>)
    ensures FormatChatHistoryForApi(a + b) == FormatChatHistoryForApi(a) + FormatChatHistoryForApi(b)
    decreases |a|
  {
    if a != [] {
      assert (a + b)[1..] == a[1..] + b;
      FormatAppend(a[1..], b);
    }
  }

  /** No message reaches the API with the system role, and the texts sent are the messages'
      contents in order. */
  lemma {:induction false} FormatRoles(history: seq<ChatMessage>)
    ensures forall c :: c in FormatChatHistoryForApi(history) ==> c.role != System && |c.parts| == 1
    ensures forall i :: 0 <= i < |history| && history[i].role != System ==>
      FormatChatHistoryForApi(history)[i].role == history[i].role
    ensures forall i :: 0 <= i < |history| && history[i].role == System ==>
      FormatChatHistoryForApi(history)[i].role == User
  {
  }

  // ----- system instruction and config -----

  /** One `if (field) systemInstruction += ...` line: nothing for an empty field. */
  function Entry(prefix: string, field: string, suffix: string): string {
    if field == "" then "" else prefix + field + suffix
  }

  /** The `systemInstruction` string the three `+=` lines build. */
  function SystemInstruction(instructions: CustomInstructions): string {
    Entry("SYSTEM Persona: ", instructions.system, "\n")
    + Entry("AI Behavior: ", instructions.ai, "\n")
    + Entry("USER Context: ", instructions.user, "")
  }

  /** The three `+=` lines of `generateResponse`. */
  method BuildSystemInstruction(instructions: CustomInstructions) returns (systemInstruction: string)
    ensures systemInstruction == SystemInstruction(instructions)
  {
    systemInstruction := "";
    if instructions.system != "" {
      systemInstruction := systemInstruction + "SYSTEM Persona: " + instructions.system + "\n";
    }
    assert systemInstruction == Entry("SYSTEM Persona: ", instructions.system, "\n");
    if instructions.ai != "" {
      systemInstruction := systemInstruction + "AI Behavior: " + instructions.ai + "\n";
    }
    assert systemInstruction
      == Entry("SYSTEM Persona: ", instructions.system, "\n") + Entry("AI Behavior: ", instructions.ai, "\n");
    if instructions.user != "" {
      systemInstruction := systemInstruction + "USER Context: " + instructions.user;
    }
  }

  /** `{ ...(s.trim() && { systemInstruction: s.trim() }) }`. */
  function ConfigFor(systemInstruction: string): (r: Config)
    ensures r.systemInstruction.Some? <==> !AllSpace(systemInstruction)
    ensures r.systemInstruction.Some? ==> r.systemInstruction.value == Trim(systemInstruction)
  {
    var trimmed := Trim(systemInstruction);
    if trimmed != "" then Config(Some(trimmed)) else Config(None)
  }

  /** The instruction starts with the first non-empty field's label, so it is empty exactly when
      all three fields are and otherwise starts with a letter. */
  lemma {:induction false} SystemInstructionStart(instructions: CustomInstructions)
    ensures SystemInstruction(instructions) == "" <==>
      instructions.system == "" && instructions.ai == "" && instructions.user == ""
    ensures instructions.system != "" ==>
      StartsWith(SystemInstruction(instructions), "SYSTEM Persona: " + instructions.system + "\n")
    ensures instructions.system == "" && instructions.ai != "" ==>
      StartsWith(SystemInstruction(instructions), "AI Behavior: " + instructions.ai + "\n")
    ensures instructions.system == "" && instructions.ai == "" ==>
      SystemInstruction(instructions) == Entry("USER Context: ", instructions.user, "")
    ensures SystemInstruction(instructions) != "" ==> !IsSpace(SystemInstruction(instructions)[0])
  {
    var s := SystemInstruction(instructions);
    var a := Entry("SYSTEM Persona: ", instructions.system, "\n");
    var b := Entry("AI Behavior: ", instructions.ai, "\n");
    var c := Entry("USER Context: ", instructions.user, "");
    assert s == a + b + c;
    if a != "" {
      assert s[..|a|] == a;
      assert s[0] == a[0] == 'S';
    } else if b != "" {
      assert s == b + c;
      assert s[..|b|] == b;
      assert s[0] == b[0] == 'A';
    } else if c != "" {
      assert s[0] == c[0] == 'U';
    }
  }

  /** The request carries a system instruction exactly when at least one of the three fields
      is non-empty, and then it is the trimmed instruction. */
  lemma {:induction false} ConfigHasInstruction(instructions: CustomInstructions)
    ensures ConfigFor(SystemInstruction(instructions)).systemInstruction.Some? <==>
      instructions.system != "" || instructions.ai != "" || instructions.user != ""
  {
    SystemInstructionStart(instructions);
    var s := SystemInstruction(instructions);
    if s != "" {
      assert !IsSpace(s[0]);
    }
  }

  // ----- generateResponse -----

  /** The reply: the answer's text, or one of the two fallback messages. */
  function Reply(outcome: Outcome): string {
    match outcome
    case Answered(text) => text
    case ThrewError(message) => ErrorPrefix + message
    case ThrewOther => UnknownError
  }

  /** A thrown `Error` is reported with its message after a fixed prefix; anything else thrown
      gives the fixed unknown-error text, which is shorter than any `Error` report. */
  lemma {:induction false} ErrorReplies(message: string)
    ensures StartsWith(Reply(ThrewError(message)), ErrorPrefix)
    ensures Reply(ThrewError(message))[|ErrorPrefix|..] == message
    ensures Reply(ThrewError(message)) != Reply(ThrewOther)
  {
    var r := Reply(ThrewError(message));
    assert r[..|ErrorPrefix|] == ErrorPrefix;
    assert |r| >= |ErrorPrefix| > |UnknownError|;
  }

  /** `generateResponse`: the request it sends and, given the call's outcome, the reply. */
  method GenerateResponse(history: seq<ChatMessage>, instructions: CustomInstructions, outcome: Outcome)
    returns (request: Request, reply: string)
    ensures request.model == ModelName
    ensures request.contents == FormatChatHistoryForApi(history)
    ensures request.config == ConfigFor(SystemInstruction(instructions))
    ensures reply == Reply(outcome)
  {
    var systemInstruction := BuildSystemInstruction(instructions);
    var contents := FormatChatHistoryForApi(history);
    request := Request(ModelName, contents, ConfigFor(systemInstruction));
    match outcome {
      case Answered(text) =>
        reply := text;
      case ThrewError(message) =>
        reply := "Error: Could not get a response from the AI. Details: " + message;
      case ThrewOther =>
        reply := "An unknown error occurred while contacting the AI.";
    }
  }
}
