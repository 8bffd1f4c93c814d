/**
 * The agent of agent/agent_graph.py: the global tool registry `tools_dict`
 * and the dynamic tool store, the nodes that read and update them, the
 * reset of the menu loop, and one turn of the compiled graph.
 */
module AgentGraph {
  import opened Values
  import opened Text
  import opened Registry
  import opened Catalogue
  import opened Decision
  import opened Routing
  import opened Store
  import opened Turn
  import opened Generator

  /** The arguments `execute_tool_node` passes: the selected argument under the first parameter, unless it is empty or the sentinel. */
  function BindArgs(params: seq<string>, arg: string): (args: map<string, string>)
    ensures args != map[] <==> arg != "" && Lower(arg) != NoTool && params != []
    ensures args != map[] ==> params != [] && args.Keys == {params[0]} && args[params[0]] == arg
  {
    if arg != "" && Lower(arg) != NoTool && params != [] then
      var args := map[params[0] := arg];
      assert params[0] in args;
      args
    else map[]
  }

  /** The sentinel is recognised whatever its case: it never reaches a tool. */
  lemma SentinelNeverBound(params: seq<string>)
    ensures BindArgs(params, "NINGUNO") == map[] && BindArgs(params, "Ninguno") == map[]
  {
    UpperSentinel();
    TitleSentinel();
  }

  /** The upper-case spelling lowers to the sentinel. */
  lemma UpperSentinel()
    ensures Lower("NINGUNO") == NoTool
  {
    var s := "NINGUNO";
    assert s[0] == 'N' && s[1] == 'I' && s[2] == 'N' && s[3] == 'G' && s[4] == 'U' && s[5] == 'N' && s[6] == 'O';
    assert Lower(s) == ['n', 'i', 'n', 'g', 'u', 'n', 'o'];
  }

  /** The capitalised spelling lowers to the sentinel. */
  lemma TitleSentinel()
    ensures Lower("Ninguno") == NoTool
  {
    var s := "Ninguno";
    assert s[0] == 'N' && s[1] == 'i' && s[2] == 'n' && s[3] == 'g' && s[4] == 'u' && s[5] == 'n' && s[6] == 'o';
    assert Lower(s) == ['n', 'i', 'n', 'g', 'u', 'n', 'o'];
  }

  /** The text `execute_tool_node` reports for a name that is not registered. */
  function NotRegistered(name: string): string {
    "❌ La herramienta '" + name + "' no está registrada en el diccionario global."
  }

  /** The text `execute_tool_node` reports when the tool or the formatting raises. */
  function ExecutionFailed(name: string, e: string): string {
    "❌ Error ejecutando la herramienta '" + name + "': " + e
  }

  /** What `execute_tool_node` leaves in `result` and the AI message it appends. */
  datatype Execution = Execution(result: Value, reply: string)

  /** `execute_tool_node` on a registry, given the selected name and argument and the user input. */
  function Execute(ts: seq<Tool>, env: Env, toolName: string, toolArg: string, userInput: string): (x: Execution)
    ensures toolName !in Names(ts) ==> x == Execution(Str(NotRegistered(toolName)), NotRegistered(toolName))
    ensures toolName in Names(ts) ==>
      var t := Lookup(ts, toolName).value;
      match env.invoke(t, BindArgs(t.params, toolArg))
      case Raised(e) => x == Execution(Str(ExecutionFailed(toolName, e)), ExecutionFailed(toolName, e))
      case Done(v) =>
        match env.format(userInput, v)
        case Raised(e) => x == Execution(Str(ExecutionFailed(toolName, e)), ExecutionFailed(toolName, e))
        case Done(text) => x.result == v && x.reply == text
  {
    match Lookup(ts, toolName)
    case None => Execution(Str(NotRegistered(toolName)), NotRegistered(toolName))
    case Some(t) =>
      match env.invoke(t, BindArgs(t.params, toolArg))
      case Raised(e) => Execution(Str(ExecutionFailed(toolName, e)), ExecutionFailed(toolName, e))
      case Done(v) =>
        match env.format(userInput, v)
        case Raised(e) => Execution(Str(ExecutionFailed(toolName, e)), ExecutionFailed(toolName, e))
        case Done(text) => Execution(v, text)
  }

  /** A name that is not registered is answered without invoking a tool or asking for a reply: the outcome does not depend on the environment. */
  lemma UnregisteredInvokesNothing(ts: seq<Tool>, env: Env, other: Env, toolName: string, toolArg: string, userInput: string)
    requires toolName !in Names(ts)
    ensures Execute(ts, env, toolName, toolArg, userInput) == Execute(ts, other, toolName, toolArg, userInput)
    ensures Execute(ts, env, toolName, toolArg, userInput).reply[0] == '❌'
  {
  }

  /** The registry after a load: the new names added in order when the module loads, unchanged when it raises. */
  function Loaded(ts: seq<Tool>, load: Attempt<seq<Tool>>): (r: seq<Tool>)
    requires UniqueNames(ts)
    ensures UniqueNames(r) && ts <= r
    ensures load.Done? ==> Names(r) == Names(ts) + Names(load.value)
    ensures load.Raised? ==> r == ts
    ensures load.Done? ==> forall n | n !in Names(ts) :: Lookup(r, n) == FirstNamed(load.value, n)
  {
    match load
    case Raised(_) => ts
    case Done(loaded) =>
      AddAllAbsentExtends(ts, loaded);
      assert forall n | n !in Names(ts) :: Lookup(AddAllAbsent(ts, loaded), n) == FirstNamed(loaded, n) by {
        forall n | n !in Names(ts) ensures Lookup(AddAllAbsent(ts, loaded), n) == FirstNamed(loaded, n) {
          AddAllAbsentNew(ts, loaded, n);
          LookupIsFirstNamed(loaded, n);
        }
      }
      AddAllAbsent(ts, loaded)
  }

  /** Every built-in name maps to its built-in tool. */
  predicate BuiltinsIn(ts: seq<Tool>) {
    forall k | 0 <= k < |StaticTools| :: Lookup(ts, StaticTools[k].name) == Some(StaticTools[k])
  }

  /** The bootstrap registry holds the built-ins. */
  lemma StaticBuiltins()
    ensures UniqueNames(StaticTools) && BuiltinsIn(StaticTools)
  {
    StaticToolsUnique();
    forall k | 0 <= k < |StaticTools| ensures Lookup(StaticTools, StaticTools[k].name) == Some(StaticTools[k]) {
      LookupUnique(StaticTools, StaticTools[k], k);
    }
  }

  /** The registry a reset leaves: the built-ins, plus what the freshly written store loads. */
  function ResetRegistry(load: Attempt<seq<Tool>>): (r: seq<Tool>)
    ensures UniqueNames(r) && BuiltinsIn(r) && StaticTools <= r
  {
    StaticBuiltins();
    LoadedKeepsBuiltins(StaticTools, load);
    Loaded(StaticTools, load)
  }

  /** A reset whose reload finds no tool beyond the built-in names leaves exactly the seven built-ins, in their order. */
  lemma ResetWithoutDynamicTools(load: Attempt<seq<Tool>>)
    requires load.Raised? || forall k | 0 <= k < |load.value| :: load.value[k].name in Names(StaticTools)
    ensures ResetRegistry(load) == StaticTools
  {
    StaticBuiltins();
    if load.Done? {
      AddAllAbsentKnown(StaticTools, load.value);
    }
  }

  /** A load never replaces a built-in. */
  lemma LoadedKeepsBuiltins(ts: seq<Tool>, load: Attempt<seq<Tool>>)
    requires UniqueNames(ts) && BuiltinsIn(ts)
    ensures BuiltinsIn(Loaded(ts, load))
  {
    if load.Done? {
      forall k | 0 <= k < |StaticTools| ensures Lookup(Loaded(ts, load), StaticTools[k].name) == Some(StaticTools[k]) {
        AddAllAbsentKeepsExisting(ts, load.value, StaticTools[k].name);
      }
    }
  }

  /** The first loaded tool whose name is `name`. */
  function FirstNamed(loaded: seq<Tool>, name: string): (r: Option<Tool>)
    ensures r.Some? ==> r.value in loaded && r.value.name == name
    ensures r.None? <==> name !in Names(loaded)
  {
    if loaded == [] then None
    else if loaded[0].name == name then Some(loaded[0])
    else
      NamesCons(loaded);
      FirstNamed(loaded[1..], name)
  }

  /** A tool named `name`, preceded by none, is the one found. */
  lemma {:induction false} FirstNamedAt(loaded: seq<Tool>, name: string, k: nat)
    requires k < |loaded| && loaded[k].name == name
    requires forall j | 0 <= j < k :: loaded[j].name != name
    ensures FirstNamed(loaded, name) == Some(loaded[k])
  {
    if k > 0 {
      FirstNamedAt(loaded[1..], name, k - 1);
    }
  }

  /** In the loaded module, `Lookup` and `FirstNamed` find the same tool. */
  lemma {:induction false} LookupIsFirstNamed(loaded: seq<Tool>, name: string)
    ensures Lookup(loaded, name) == FirstNamed(loaded, name)
    decreases |loaded|
  {
    if loaded != [] && loaded[0].name != name {
      LookupIsFirstNamed(loaded[1..], name);
    }
  }

  /** The scan of the reloaded module for the requested name, stopping at the first hit. */
  method FindReloaded(loaded: seq<Tool>, name: string) returns (found: Option<Tool>)
    ensures found == FirstNamed(loaded, name)
  {
    var k := 0;
    while k < |loaded|
      invariant 0 <= k <= |loaded|
      invariant forall j | 0 <= j < k :: loaded[j].name != name
    {
      if loaded[k].name == name {
        FirstNamedAt(loaded, name, k);
        return Some(loaded[k]);
      }
      k := k + 1;
    }
    assert name !in Names(loaded);
    return None;
  }

  /** The registry after the reload of `handle_generated_tool`: the tool named `name`, if the module has one, is put under that name. */
  function Registered(ts: seq<Tool>, load: Attempt<seq<Tool>>, name: string): (r: seq<Tool>)
    requires UniqueNames(ts)
    ensures UniqueNames(r)
    ensures forall n | n != name :: Lookup(r, n) == Lookup(ts, n)
    ensures load.Done? && name in Names(load.value) ==> Lookup(r, name) == FirstNamed(load.value, name)
    ensures !(load.Done? && name in Names(load.value)) ==> r == ts
  {
    match load
    case Raised(_) => ts
    case Done(loaded) =>
      match FirstNamed(loaded, name)
      case None => ts
      case Some(t) =>
        PutSpec(ts, t);
        Put(ts, t)
  }

  /** The global state of the agent: the registry `tools_dict` and the store file. */
  class Session {
    /** `tools_dict`, in insertion order. */
    var tools: seq<Tool>
    /** The text of tools/dynamic_tools.py when it exists. */
    var store: string
    var storeExists: bool

    /** `tools_dict` is a dict: one tool per name. */
    predicate Valid()
      reads this
    {
      UniqueNames(tools)
    }

    /** The built-in tools are registered under their names. */
    predicate KeepsBuiltins()
      reads this
    {
      BuiltinsIn(tools)
    }

    /** Module start: the built-in registry, then `load_dynamic_tools`; `initialStore` is the store's text if the file exists. */
    constructor(env: Env, initialStore: Option<string>)
      ensures Valid() && KeepsBuiltins() && storeExists
      ensures initialStore.None? ==> tools == StaticTools && store == CreatePreamble
      ensures initialStore.Some? ==> store == initialStore.value && tools == Loaded(StaticTools, env.load(initialStore.value))
    {
      tools := StaticTools;
      store := if initialStore.Some? then initialStore.value else "";
      storeExists := initialStore.Some?;
      new;
      StaticBuiltins();
      LoadedKeepsBuiltins(StaticTools, env.load(store));
      LoadDynamicTools(env);
    }

    /** `load_dynamic_tools`: create a missing store and load nothing, or add every new tool of the store's module. */
    method LoadDynamicTools(env: Env)
      requires Valid()
      modifies this
      ensures Valid() && storeExists
      ensures !old(storeExists) ==> store == CreatePreamble && tools == old(tools)
      ensures old(storeExists) ==> store == old(store) && tools == Loaded(old(tools), env.load(old(store)))
    {
      if !storeExists {
        store := CreatePreamble;
        storeExists := true;
        return;
      }
      match env.load(store)
      case Raised(_) =>
      case Done(loaded) =>
        var k := 0;
        while k < |loaded|
          invariant 0 <= k <= |loaded| && UniqueNames(tools)
          invariant store == old(store) && storeExists
          invariant AddAllAbsent(tools, loaded[k..]) == AddAllAbsent(old(tools), loaded)
        {
          assert loaded[k..][1..] == loaded[k + 1..];
          if loaded[k].name !in Names(tools) {
            tools := Put(tools, loaded[k]);
          }
          k := k + 1;
        }
        assert loaded[k..] == [];
    }

    /** `get_available_tools_description`: one numbered block per registered tool, in registry order. */
    method AvailableToolsDescription() returns (text: string)
      ensures text == Catalogue.Catalogue(tools)
    {
      var ts := tools;
      text := "";
      var number := 1;
      var k := 0;
      while k < |ts|
        invariant 0 <= k <= |ts| && number == k + 1
        invariant text == CatalogueFrom(ts[..k], 1)
      {
        CataloguePrefix(ts, k);
        text := text + Entry(number, ts[k]);
        number := number + 1;
        k := k + 1;
      }
      assert ts[..k] == ts;
    }

    /** `select_tool_node`: record the user input, ask for a decision over the catalogue, keep its stripped name and argument. */
    method SelectTool(st: TurnState, env: Env)
      modifies st
      ensures st.messages == old(st.messages) + [Human(old(st.userInput))]
      ensures st.toolName == ParseDecision(env.decide(Catalogue.Catalogue(tools), old(st.userInput))).tool
      ensures st.toolArg == ParseDecision(env.decide(Catalogue.Catalogue(tools), old(st.userInput))).arg
      ensures st.userInput == old(st.userInput) && st.result == old(st.result)
      ensures st.toolGenerated == old(st.toolGenerated) && st.newTool == old(st.newTool)
      ensures st.generatedCode == old(st.generatedCode)
    {
      st.messages := st.messages + [Human(st.userInput)];
      var catalogue := AvailableToolsDescription();
      var reply := env.decide(catalogue, st.userInput);
      var d := ParseDecision(reply);
      st.toolName := d.tool;
      st.toolArg := d.arg;
    }

    /** `execute_tool_node`: run the selected tool, format its result, and answer with one AI message. */
    method ExecuteTool(st: TurnState, env: Env)
      modifies st
      ensures Execution(st.result, Last(st.messages).content)
        == Execute(tools, env, old(st.toolName), old(st.toolArg), old(st.userInput))
      ensures st.messages == old(st.messages) + [Ai(Last(st.messages).content)]
      ensures st.userInput == old(st.userInput) && st.toolName == old(st.toolName) && st.toolArg == old(st.toolArg)
      ensures st.toolGenerated == old(st.toolGenerated) && st.newTool == old(st.newTool)
      ensures st.generatedCode == old(st.generatedCode)
    {
      var x: Execution;
      match Lookup(tools, st.toolName) {
        case None =>
          x := Execution(Str(NotRegistered(st.toolName)), NotRegistered(st.toolName));
        case Some(t) =>
          var args := BindArgs(t.params, st.toolArg);
          match env.invoke(t, args) {
            case Raised(e) =>
              x := Execution(Str(ExecutionFailed(st.toolName, e)), ExecutionFailed(st.toolName, e));
            case Done(v) =>
              match env.format(st.userInput, v) {
                case Raised(e) =>
                  x := Execution(Str(ExecutionFailed(st.toolName, e)), ExecutionFailed(st.toolName, e));
                case Done(text) =>
                  x := Execution(v, text);
              }
          }
      }
      st.result := x.result;
      st.messages := st.messages + [Ai(x.reply)];
    }

    /** `respond_to_user_node`: answer directly and keep the answer as the result. */
    method RespondToUser(st: TurnState, env: Env)
      modifies st
      ensures st.result == Str(env.chat(old(st.userInput)))
      ensures st.messages == old(st.messages) + [Ai(env.chat(old(st.userInput)))]
      ensures st.userInput == old(st.userInput) && st.toolName == old(st.toolName) && st.toolArg == old(st.toolArg)
      ensures st.toolGenerated == old(st.toolGenerated) && st.newTool == old(st.newTool)
      ensures st.generatedCode == old(st.generatedCode)
    {
      var reply := env.chat(st.userInput);
      st.result := Str(reply);
      st.messages := st.messages + [Ai(reply)];
    }

    /** `handle_generated_tool`: persist generated code under its name unless already defined, reload the store, and register the tool of that name. */
    method HandleGeneratedTool(st: TurnState, env: Env)
      requires Valid()
      modifies this
      ensures Valid()
      ensures !(st.generatedCode != "" && st.newTool.Some?) ==>
        tools == old(tools) && store == old(store) && storeExists == old(storeExists)
      ensures st.generatedCode != "" && st.newTool.Some? ==>
        storeExists
        && store == AppendIfAbsent(if old(storeExists) then old(store) else "", st.toolName, st.generatedCode)
        && tools == Registered(old(tools), env.load(store), st.toolName)
    {
      if st.generatedCode != "" && st.newTool.Some? {
        var current := if storeExists then store else "";
        store := AppendIfAbsent(current, st.toolName, st.generatedCode);
        storeExists := true;
        match env.load(store)
        case Raised(_) =>
        case Done(loaded) =>
          var found := FindReloaded(loaded, st.toolName);
          if found.Some? {
            tools := Put(tools, found.value);
          }
      }
    }

    /** The reset of the menu loop: rewrite the store, restore the built-ins, and load the store again. */
    method Reset(env: Env)
      modifies this
      ensures Valid() && KeepsBuiltins() && storeExists
      ensures store == ResetPreamble && tools == ResetRegistry(env.load(ResetPreamble))
    {
      Rebuild(env, ResetPreamble);
    }

    /** Write `text` as the store, then rebuild the registry from the built-ins and that text. */
    method Rebuild(env: Env, text: string)
      modifies this
      ensures Valid() && storeExists && store == text
      ensures tools == Loaded(StaticTools, env.load(text))
    {
      WriteStore(text);
      RestoreBuiltins();
      LoadDynamicTools(env);
    }

    /** Overwrite the store file with `text`. */
    method WriteStore(text: string)
      modifies this
      ensures store == text && storeExists && tools == old(tools)
    {
      store := text;
      storeExists := true;
    }

    /** `tools_dict = initialize_static_tools()`. */
    method RestoreBuiltins()
      modifies this
      ensures tools == StaticTools && store == old(store) && storeExists == old(storeExists)
      ensures Valid() && KeepsBuiltins()
    {
      tools := StaticTools;
      StaticBuiltins();
    }

    /** Run one node on the turn state; `next` is where the compiled graph goes from there. */
    method Step(st: TurnState, env: Env, node: Node) returns (next: Node)
      requires node != Node.End && Valid() && KeepsBuiltins()
      requires node == Node.GenerateTool || node == Node.HandleGeneratedTool ==> st.toolName !in Names(tools)
      modifies this, st
      ensures Valid() && KeepsBuiltins()
      ensures Edge(node, next)
      ensures st.userInput == old(st.userInput)
      ensures node == Node.SelectTool ==>
        st.messages == old(st.messages) + [Human(old(st.userInput))] && next == Target(Decide(st.toolName, Names(tools)))
      ensures node == Node.ExecuteTool || node == Node.RespondToUser ==>
        st.messages == old(st.messages) + [Ai(Last(st.messages).content)]
      ensures node == Node.GenerateTool || node == Node.HandleGeneratedTool ==> st.messages == old(st.messages)
      ensures next == Node.GenerateTool || next == Node.HandleGeneratedTool ==> st.toolName !in Names(tools)
    {
      match node {
        case SelectTool =>
          SelectTool(st, env);
          next := Target(Decide(st.toolName, Names(tools)));
        case ExecuteTool =>
          ExecuteTool(st, env);
          next := Node.End;
        case RespondToUser =>
          RespondToUser(st, env);
          next := Node.End;
        case GenerateTool =>
          GenerateToolNode(st, env);
          next := Node.HandleGeneratedTool;
        case HandleGeneratedTool =>
          forall t | t in StaticTools ensures t.name != st.toolName {
            assert t.name in Names(tools);
          }
          HandleGeneratedTool(st, env);
          next := Node.SelectTool;
      }
    }

    /**
     * One turn of the compiled graph from the entry point, for at most `fuel` nodes:
     * `trace` holds the nodes visited, and ends with `End` when the turn finished.
     */
    method RunTurn(env: Env, input: string, fuel: nat) returns (st: TurnState, trace: seq<Node>, finished: bool)
      requires Valid() && KeepsBuiltins()
      modifies this
      ensures Valid() && KeepsBuiltins()
      ensures finished ==> IsRun(trace)
      ensures finished ==> |st.messages| == Visits(trace, Node.SelectTool) + 2 && Last(st.messages).Ai?
      ensures finished ==> forall k | 0 <= k < |st.messages| - 1 :: st.messages[k] == Human(input)
      ensures !finished ==> |trace| == fuel
    {
      st := new TurnState(input);
      trace := [];
      var node := Node.SelectTool;
      while node != Node.End && |trace| < fuel
        invariant Valid() && KeepsBuiltins()
        invariant st.userInput == input && |trace| <= fuel
        invariant trace == [] ==> node == Node.SelectTool
        invariant trace != [] ==> trace[0] == Node.SelectTool && Edge(trace[|trace| - 1], node)
        invariant forall k | 0 <= k < |trace| - 1 :: Edge(trace[k], trace[k + 1])
        invariant node == Node.GenerateTool || node == Node.HandleGeneratedTool ==> st.toolName !in Names(tools)
        invariant node != Node.End ==> |st.messages| == Visits(trace, Node.SelectTool) + 1
        invariant node != Node.End ==> forall k | 0 <= k < |st.messages| :: st.messages[k] == Human(input)
        invariant node == Node.End ==> |st.messages| == Visits(trace, Node.SelectTool) + 2 && Last(st.messages).Ai?
        invariant node == Node.End ==> forall k | 0 <= k < |st.messages| - 1 :: st.messages[k] == Human(input)
        decreases fuel - |trace|
      {
        var next := Step(st, env, node);
        trace := trace + [node];
        node := next;
      }
      finished := node == Node.End;
      if finished {
        trace := trace + [Node.End];
      }
    }
  }

  /** The last element of a non-empty history, or a blank message for an empty one. */
  function Last(ms: seq<Message>): Message {
    if ms == [] then Ai("") else ms[|ms| - 1]
  }
}
