/**
 * The state of one turn of the agent (`AgentState` in agent/agent_graph.py
 * and agent/generate_tool_node.py) and the collaborators the nodes call but
 * that are outside the model: the language model, `exec` of generated code,
 * loading the dynamic tool module, and running a tool.
 */
module Turn {
  import opened Values
  import opened Registry

  /** A chat message of the turn's history. */
  datatype Message = Human(content: string) | Ai(content: string)

  /** A value left in `local_vars` by `exec`: a tool-shaped object (callable, with `name` and `description`) or anything else. */
  datatype Binding = ToolValue(tool: Tool) | OtherValue

  /**
   * The collaborators, as total functions of what the source passes them.
   * A reply or a result the source obtains inside a `try` is an `Attempt`;
   * the selection and the direct reply are obtained outside any `try`.
   */
  datatype Env = Env(
    /** The selection reply, given the catalogue text and the user input. */
    decide: (string, string) -> string,
    /** The generation reply, given the user input and the requested tool name. */
    synthesize: (string, string) -> Attempt<string>,
    /** The values `exec(code)` leaves in `local_vars`, in insertion order. */
    exec: string -> Attempt<seq<Binding>>,
    /** `tool.invoke(args)`. */
    invoke: (Tool, map<string, string>) -> Attempt<Value>,
    /** The formatting reply for the user input and a tool result. */
    format: (string, Value) -> Attempt<string>,
    /** The direct reply to a user input that needs no tool. */
    chat: string -> string,
    /** The tool-shaped objects of the module whose source is the given store text, in `dir()` order. */
    load: string -> Attempt<seq<Tool>>)

  /** The turn state, updated in place by each node. */
  class TurnState {
    var messages: seq<Message>
    var userInput: string
    var toolName: string
    var toolArg: string
    var toolGenerated: bool
    var result: Value
    var newTool: Option<Tool>
    var generatedCode: string

    /** The initial state the menu loop passes to the graph. */
    constructor(input: string)
      ensures messages == [Human(input)] && userInput == input
      ensures toolName == "" && toolArg == "" && !toolGenerated && result == Str("")
      ensures newTool == None && generatedCode == ""
    {
      messages := [Human(input)];
      userInput := input;
      toolName := "";
      toolArg := "";
      toolGenerated := false;
      result := Str("");
      newTool := None;
      generatedCode := "";
    }
  }
}
