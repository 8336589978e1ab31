/** The shapes of the application's records (types.ts), as Dafny values. */
module Types {

  datatype Option<+T> = None | Some(value: T)

  /** A virtual filesystem node. A file carries only `content`, a directory only `contents`,
      whose entries are kept in insertion order (the order `Object.keys` enumerates them). */
  datatype Node = File(content: string) | Dir(entries: seq<(string, Node)>)

  datatype PackagingInterrelation = PackagingInterrelation(kind: string, description: string, utilityTool: string)

  datatype Agent = Agent(
    name: string,
    role: string,
    philosophy: string,
    focusAreas: seq<string>,
    packaging: seq<PackagingInterrelation>)

  datatype Tool = Tool(name: string, primaryAgent: string)

  /** One step of a chained bookmark; `params` is an optional list of string settings. */
  datatype ChainStep = ChainStep(tool: string, input: string, params: Option<seq<(string, string)>>)

  datatype ChainedBookmark = ChainedBookmark(
    name: string,
    associatedAgent: Option<string>,
    description: string,
    chain: seq<ChainStep>)

  datatype CodexData = CodexData(
    version: string,
    author: string,
    contact: string,
    aiFamily: seq<Agent>,
    tools: seq<Tool>,
    chainedBookmarks: seq<ChainedBookmark>)

  datatype Role = User | Model | System

  datatype ChatMessage = ChatMessage(role: Role, content: string, timestamp: int)

  /** The three free-text instruction strings the user configures. */
  datatype CustomInstructions = CustomInstructions(system: string, ai: string, user: string)
}
