# LDAP agent tool-resolution loop, modelled in Dafny

This project models the core of an LDAP reconnaissance agent: the loop that
resolves a user request to a tool.

**One turn.** The agent asks a language model which tool fits the request and
reads the tool name and argument out of the reply. It then does one of three
things:

- runs the tool when it is registered, and has the result formatted;
- answers directly when the model says "ninguno";
- otherwise asks the model to write a new tool, runs that code, tries the tool
  once with placeholder arguments, stores its source in the dynamic tool file,
  reloads that file, registers the tool, and selects again for the same input.

**The seven built-in tools** answer directory questions. Here they are modelled
by how they shape search results into a Python value: a list, a dict, a string,
or an error mapping `{"error": ...}`.

**What the model abstracts.** The language model, Python's `exec`, module
loading and the LDAP server are parameters:

- `Turn.Env` holds the oracle replies, the bindings `exec` leaves, a tool's
  behaviour when invoked, and the tools a store text loads;
- `LdapTools.Directory` holds the bind outcome and the entries of each search.

**Modules**

- `Values`: Python values, `Option`, and `Attempt` (returned or raised).
- `Text`: `str.strip`, `\s`, ASCII lowering, and first-occurrence splits.
- `Registry`: `tools_dict` as an insertion-ordered sequence with unique keys.
- `Catalogue`: the tool description text.
- `Decision`: reading the selection reply: the brace span plus `ast.literal_eval`.
- `Routing`: the compiled graph and its runs.
- `Store`: the dynamic tool file as text, and its definition pattern.
- `Turn`: the turn state (a class) and the environment.
- `Generator`: the generation node.
- `AgentGraph`: the nodes that change the registry and the store (class
  `Session`), one step of the graph, a whole turn, and the reset.
- `LdapTools`: the built-in tools.

**Behaviours of the code that the model keeps as written:**

- A selection reply that cannot be read gives the name `""`. `decide_if_tool_exists` sends that name to generation, not to the direct reply (`Routing.Decide`, `Registry.StaticToolsAvoidSentinels`).
- A generated tool whose trial call raises is not registered: the `except` clears `new_generated_tool` and sets `tool_generated` to false (`Generator.Generation`, `Generator.TrialRaisesNothingKept`).
- When the reload after a store write fails, the appended text stays in the store. The file is rewritten before the reload is attempted (`AgentGraph.Session.HandleGeneratedTool`).
- A reset writes the preamble of reset_dynamic_tools.py. A missing store is created with the slightly different preamble of agent/agent_graph.py. Both texts are kept as they are (`Store.ResetPreamble`, `Store.CreatePreamble`).

## Model

| member | source | states |
|---|---|---|
| Values.ErrorMap | tools/user_tools.py:55-58 | the handled-failure result is a dict whose only key is "error", holding the message |
| Values.StrList | tools/user_tools.py:307-308 | `[str(m) for m in values]` keeps length and order, one string per value |
| Text.Strip | agent/agent_graph.py:245-246 | the stripped text is no longer than the input and neither starts nor ends with white space |
| Text.StripRemovesOnlySpace | agent/agent_graph.py:245-246 | stripping only removes white space: the result sits inside the input with white space on both sides |
| Text.StripIdempotent | agent/agent_graph.py:245-246 | stripping twice is stripping once |
| Text.StripIgnoresLeadingSpace | agent/generate_tool_node.py:71-76 | white space in front of a text does not change its strip |
| Text.StripOfTrimmed | agent/generate_tool_node.py:71-76 | a text with no white space at either end is its own strip |
| Text.Lower | agent/agent_graph.py:300 | lowering keeps the length and lowers each character in place |
| Text.FindChar | tools/user_tools.py:198-199 | the index found holds the character with none before it; no index means the character does not occur |
| Text.BeforeFirst | tools/user_tools.py:198-199 | `split(sep)[0]` has no separator, and the input is that part, the separator and the rest |
| Text.AfterFirst | tools/user_tools.py:204 | `split(sep, 1)[1]`: the input is the first part, the separator, then this text |
| Text.Join | agent/agent_graph.py:156 | joining a single parameter name gives that name |
| Text.JoinSnoc | agent/agent_graph.py:156 | one more parameter name adds the separator and that name at the end, so several names read `a, b, c` |
| Store.DefinesToolExtends | agent/agent_graph.py:377-382 | a definition found in the store is still found after anything is written after it |
| Store.DefinesToolAppended | agent/agent_graph.py:377-380 | code that defines the name still defines it once appended after the blank line |
| Store.AppendIfAbsent | agent/agent_graph.py:367-383 | the old content is always a prefix of the new; it is unchanged when the name is defined, otherwise followed by exactly "\n\n" and the code |
| Store.AppendDefines | agent/agent_graph.py:376-383 | after the write the requested name is defined whenever it was before or the code defines it |
| Store.AppendKeepsDefinitions | agent/agent_graph.py:376-383 | every tool defined before the write is still defined after it |
| Store.AppendIdempotent | agent/agent_graph.py:376-383 | repeating the write with code that defines the name changes nothing |
| Store.PlainDefinition | agent/agent_graph.py:377 | `@tool` on its own line followed by `def NAME(` is recognised as a definition of NAME |
| Registry.IndexOf | agent/agent_graph.py:281 | the position found holds the name and is the first to; none exactly when the name is not a key |
| Registry.Lookup | agent/agent_graph.py:281 | `tools_dict.get(name)` finds a tool exactly when the name is a key, and that tool carries the name |
| Registry.Put | agent/agent_graph.py:409 | assigning a key adds the name; a new name is appended at the end, an existing one is replaced in its place and no other entry moves |
| Registry.PutSpec | agent/agent_graph.py:409 | after the assignment keys stay unique, the name maps to the new tool and every other name maps to what it did |
| Registry.AddIfAbsent | agent/agent_graph.py:117-118 | the add-if-absent step keeps keys unique; a registered name leaves the registry as it was, a new name appends the loaded tool itself at the end |
| Registry.AddAllAbsentExtends | agent/agent_graph.py:111-119 | a load only appends: the old registry is a prefix, keys stay unique, the names are the old ones plus the loaded ones |
| Registry.AddAllAbsentKeepsExisting | agent/agent_graph.py:114-119 | a name already registered keeps its tool whatever the load finds, so built-ins are never overwritten |
| Registry.AddAllAbsentNew | agent/agent_graph.py:111-119 | a name not registered before the load maps afterwards to the first loaded tool of that name, and stays absent when the load does not have it |
| Registry.AddAllAbsentKnown | agent/agent_graph.py:114-119 | a load that finds only registered names leaves the registry unchanged |
| Registry.StaticToolNames | agent/agent_graph.py:51-61 | the bootstrap registry has the seven built-in names in their listed order |
| Registry.StaticToolsUnique | agent/agent_graph.py:51-61 | the seven built-in names are distinct |
| Registry.StaticToolsAvoidSentinels | agent/agent_graph.py:269-275 | neither "ninguno" nor the empty name of an unreadable reply is a built-in name |
| Catalogue.Decimal | agent/agent_graph.py:160 | `str(n)` is a non-empty run of digits without a leading zero |
| Catalogue.DecimalRoundTrip | agent/agent_graph.py:160 | the entry number reads back as itself, so distinct positions get distinct labels |
| Catalogue.CatalogueSnoc | agent/agent_graph.py:141-164 | a tool registered last adds one block at the end, numbered after all others |
| Catalogue.CataloguePrefix | agent/agent_graph.py:141-164 | the description of the first k+1 tools is that of the first k plus tool k's block numbered k+1 |
| Catalogue.CatalogueAppend | agent/agent_graph.py:141-164 | the description of a concatenation is the two descriptions, numbering carried on |
| Catalogue.CatalogueAt | agent/agent_graph.py:141-164 | the tool at position k is described by the block numbered k+1, between the blocks of the tools before and after it |
| Routing.Decide | agent/agent_graph.py:266-275 | respond exactly for "ninguno", tested first; execute only a registered name; any other name, "" included, goes to generation |
| Routing.Target | agent/agent_graph.py:426-434 | each label leads to execute, generate or respond |
| Routing.Successor | agent/agent_graph.py:441-447 | the node after any non-final node is joined to it by an edge of the graph, and after select it is the routed node |
| Routing.RunShape | agent/agent_graph.py:441-447 | every complete run is some rounds of select, generate, handle, then select, execute or respond, END |
| Routing.ShapeIsRun | agent/agent_graph.py:441-447 | every run of that shape is a complete run of the graph |
| Routing.RoundsVisits | agent/agent_graph.py:444-445 | k generation rounds visit select, generate and handle k times each and nothing else |
| Routing.ShapeVisits | agent/agent_graph.py:441-447 | a run with k rounds visits select k+1 times, generate and handle k times, and execute or respond once |
| Routing.RunVisits | agent/agent_graph.py:423-447 | in every complete run select happens once more than generation, every generation is handled, and exactly one of execute or respond ends it |
| Decision.BraceSpan | agent/agent_graph.py:242 | a span found starts at the first `{`, has at least one character, and ends at the first `}` after that character; none found means no `}` lies more than one place after any `{` |
| Decision.Get | agent/agent_graph.py:245-246 | `get(key, "")` gives the value of the last entry with the key (a repeated key keeps its last value), and "" when no entry has the key |
| Decision.ParseDecision | agent/agent_graph.py:241-262 | the name and argument stored are always stripped; a reply with no brace span, or whose span does not evaluate as a literal, gives the empty name and argument |
| Decision.ParseQuoted | agent/agent_graph.py:244 | a double-quoted plain literal reads back as its text, leaving what follows |
| Decision.ParseRenderedEntry | agent/agent_graph.py:244 | a rendered `"key": "value"` reads back as that pair |
| Decision.ParseRenderedItems | agent/agent_graph.py:244 | rendered entries followed by `}` read back as exactly those entries, in order |
| Decision.ParseRendered | agent/agent_graph.py:244 | round trip: evaluating a rendered dict of plain strings gives back its entries |
| Decision.SpanDetermines | agent/agent_graph.py:242 | a match at the first `{` that closes at the first later `}` is the span the search returns |
| Decision.BraceSpanAt | agent/agent_graph.py:242 | text without `{`, then `{g}`, then anything: the span is g whenever g's tail has no `}` |
| Decision.DecisionInProse | agent/agent_graph.py:241-249 | a well-formed decision surrounded by prose is read exactly: the stripped "tool" and "arg" entries |
| Decision.ReadSpan | agent/agent_graph.py:244-249 | once span and literal are read, the decision is the stripped "tool" and "arg" values, "" when absent |
| Decision.NoBraceUnreadable | agent/agent_graph.py:250-252 | a reply without `{` gives ("", "") |
| Decision.UnterminatedValue | agent/agent_graph.py:257-259 | a literal cut inside a quoted value fails to evaluate |
| Decision.BraceInsideToolNameUnreadable | agent/agent_graph.py:242-259 | a `}` inside the tool name cuts the span there, and the whole reply reads as ("", "") |
| Turn.TurnState.constructor | agent/agent_graph.py:472-480 | a turn starts with one human message holding the input, no tool chosen, `tool_generated` false and an empty result |
| Generator.FindFrom | agent/generate_tool_node.py:73 | the occurrence found is the first at or after the start; none found means there is none |
| Generator.GroupStart | agent/generate_tool_node.py:73 | the group starts right after the last line break of the white-space run after the fence; there is no start exactly when that run holds no line break |
| Generator.SpaceRunEnd | agent/generate_tool_node.py:73 | the white-space run after the fence is all white space and cannot be extended |
| Generator.MatchFrom | agent/generate_tool_node.py:73 | `re.search` finds the leftmost position where the fenced pattern matches, or none when none does |
| Generator.ExtractCode | agent/generate_tool_node.py:71-78 | the code that is run never starts or ends with white space |
| Generator.ExtractUnfenced | agent/generate_tool_node.py:75-78 | a reply without an opening fence is run as the whole stripped reply |
| Generator.ExtractFenced | agent/generate_tool_node.py:73-76 | a reply that is one fenced python block runs the stripped body of the block |
| Generator.FailureTexts | agent/generate_tool_node.py:104-134 | both failure texts begin with "❌ Error" |
| Generator.FirstTool | agent/generate_tool_node.py:97-101 | the tool picked is among the bindings; none is picked exactly when no binding is tool-shaped |
| Generator.FirstToolIsFirst | agent/generate_tool_node.py:97-101 | a tool preceded only by other values is the one picked |
| Generator.DetectTool | agent/generate_tool_node.py:97-101 | the scan that stops at the first tool-shaped value picks FirstTool |
| Generator.TrialArgs | agent/generate_tool_node.py:114-119 | the trial arguments bind exactly the declared parameters, each to "testuser" |
| Generator.Generation | agent/generate_tool_node.py:68-138 | generated exactly when the oracle answers, the extracted code runs, it defines a tool-shaped value and the first one returns on the placeholder arguments; the tool kept is that first one and the result is its trial result; a failure leaves an error text and no tool; an oracle failure leaves code "", otherwise the code is the extracted code |
| Generator.TrialRaisesNothingKept | agent/generate_tool_node.py:117-138 | a trial call that raises leaves no tool and the exception text as result, though the code ran and defined a tool |
| Generator.FirstDefinedToolKept | agent/generate_tool_node.py:97-130 | of several tool-shaped values, the first one defined is tried and kept, with its trial result |
| Generator.Generate | agent/generate_tool_node.py:68-130 | the node body with its loops computes exactly Generation |
| Generator.GenerateToolNode | agent/generate_tool_node.py:36-139 | the four written fields are Generation's outcome; messages, input, tool name and argument are unchanged |
| AgentGraph.BindArgs | agent/agent_graph.py:297-310 | arguments are passed exactly when the argument is non-empty, not "ninguno" in any case, and the tool has a parameter; then only the first parameter is bound, to the argument |
| AgentGraph.SentinelNeverBound | agent/agent_graph.py:300 | "NINGUNO" and "Ninguno" are recognised as the sentinel and bind nothing |
| AgentGraph.Execute | agent/agent_graph.py:278-338 | an unregistered name gives the not-registered text as result and message; a raising tool or formatter gives the error text with the exception; success keeps the tool's value as result and the formatted reply as the message |
| AgentGraph.UnregisteredInvokesNothing | agent/agent_graph.py:286-292 | an unregistered name is answered without invoking any tool or oracle, with an error message |
| AgentGraph.Loaded | agent/agent_graph.py:99-122 | a load keeps keys unique and only appends, adding the loaded names; every name not registered before maps to the first tool of that name the module defines; a load that raises changes nothing |
| AgentGraph.StaticBuiltins | agent/agent_graph.py:51-64 | the bootstrap registry maps each built-in name to its built-in tool |
| AgentGraph.ResetRegistry | agent/agent_graph.py:521-530 | after a reset every built-in name maps to its built-in tool, the seven come first in order, and keys are unique |
| AgentGraph.ResetWithoutDynamicTools | agent/agent_graph.py:521-530 | a reset whose reload finds nothing new leaves exactly the seven built-ins |
| AgentGraph.LoadedKeepsBuiltins | agent/agent_graph.py:114-119 | no load ever replaces a built-in |
| AgentGraph.FirstNamed | agent/agent_graph.py:403-412 | the tool found carries the requested name and comes from the module; none exactly when the module has no such name |
| AgentGraph.LookupIsFirstNamed | agent/agent_graph.py:111-119 | looking a name up in the loaded tools finds the first tool the module defines with it |
| AgentGraph.FirstNamedAt | agent/agent_graph.py:403-412 | the first tool with the name, in module order, is the one found |
| AgentGraph.FindReloaded | agent/agent_graph.py:403-412 | the scan that breaks at the first hit finds FirstNamed |
| AgentGraph.Registered | agent/agent_graph.py:386-415 | only the requested name can change; it maps to the module's first tool of that name when there is one, otherwise the registry is unchanged |
| AgentGraph.Session.constructor | agent/agent_graph.py:63-125 | at start the built-ins are registered and the store exists; a missing store is created with the preamble and nothing loads, an existing one is loaded |
| AgentGraph.Session.LoadDynamicTools | agent/agent_graph.py:72-122 | a missing store is created with the preamble and the registry is unchanged; otherwise the store's tools with new names are added in order |
| AgentGraph.Session.AvailableToolsDescription | agent/agent_graph.py:141-164 | the loop with its counter builds exactly the catalogue of the registry |
| AgentGraph.Session.SelectTool | agent/agent_graph.py:169-263 | one human message with the input is appended; name and argument are the parse of the reply to the catalogue; nothing else changes |
| AgentGraph.Session.ExecuteTool | agent/agent_graph.py:278-338 | the result and the one appended AI message are Execute's; nothing else changes |
| AgentGraph.Session.RespondToUser | agent/agent_graph.py:341-357 | the direct reply becomes the result and the one appended AI message |
| AgentGraph.Session.HandleGeneratedTool | agent/agent_graph.py:360-420 | only with code and a tool: the store becomes the append-if-absent of its content and the registry registers the reloaded tool of the requested name; otherwise nothing changes |
| AgentGraph.Session.Reset | agent/agent_graph.py:509-530 | the store becomes the reset preamble and the registry is the built-ins plus what that text loads, built-ins kept |
| AgentGraph.Session.Rebuild | agent/agent_graph.py:519-530 | write a text, restore the built-ins, load the text: the registry is the built-ins plus the loaded tools |
| AgentGraph.Session.WriteStore | reset_dynamic_tools.py:30-50 | the store holds exactly the written text and the registry is untouched |
| AgentGraph.Session.RestoreBuiltins | agent/agent_graph.py:521-529 | the registry becomes exactly the seven built-ins |
| AgentGraph.Session.Step | agent/agent_graph.py:423-447 | each node moves along an edge of the graph; select appends one human message and routes by Decide; execute and respond append one AI message; the built-ins and the dict invariant are kept |
| AgentGraph.Session.RunTurn | agent/agent_graph.py:423-482 | a finished turn is a complete run; it holds one human message per selection plus the initial one, then one final AI message |
| LdapTools.Run | tools/user_tools.py:28-66 | bind failures and exceptions become error mappings; the entries come through exactly when the bind and the search succeed |
| LdapTools.SearchAgain | tools/user_tools.py:260-277 | a second search gives its entries, or an error mapping when it raises |
| LdapTools.FindAttr | tools/user_tools.py:45 | `name in entry` finds the attribute's position, or none when no attribute has the name |
| LdapTools.AttrValue | tools/user_tools.py:45-46 | ldap3's value is None exactly for no values, is never a dict (so never mistaken for an error mapping), and is truthy exactly when there are several values or one non-empty one |
| LdapTools.UidOf | tools/user_tools.py:45-53 | an entry adds nothing exactly when it has no uid or a falsy one; otherwise it adds exactly its uid value |
| LdapTools.Usernames | tools/user_tools.py:43-53 | at most one name per entry, and every one truthy |
| LdapTools.UsernamesAppend | tools/user_tools.py:43-53 | collecting distributes over concatenation, so entry order is kept |
| LdapTools.UsernamesKeepsEvery | tools/user_tools.py:43-53 | every entry with a truthy uid contributes its value |
| LdapTools.UsernamesSound | tools/user_tools.py:43-53 | every collected name is the uid value of an entry that has a uid |
| LdapTools.CollectUsernames | tools/user_tools.py:43-53 | the loop collects exactly Usernames |
| LdapTools.AllUsernames | tools/user_tools.py:24-66 | an error mapping or a non-empty list, never an empty list; a list exactly when the search succeeds and finds a truthy uid, and then the list is Usernames of the entries |
| LdapTools.AllUsernamesKeepsEvery | tools/user_tools.py:43-56 | a user found with a truthy uid makes the answer a list that holds that uid |
| LdapTools.GetAllUsernames | tools/user_tools.py:24-58 | the tool body with its loop computes AllUsernames |
| LdapTools.AttributeMap | tools/user_tools.py:97-119 | the keys are exactly the first entry's attribute names |
| LdapTools.AttributeMapAt | tools/user_tools.py:100-119 | each attribute not repeated later is stored under its name with ldap3's value of its values (a repeated name keeps the last) |
| LdapTools.CollectAttributes | tools/user_tools.py:100-119 | the inner loop builds exactly AttributeMap |
| LdapTools.AttributesOf | tools/user_tools.py:96-127 | no entries give the error naming the uid; otherwise a dict keyed by the first entry's attribute names, each holding ldap3's value of that attribute |
| LdapTools.UserAttributes | tools/user_tools.py:73-127 | always a dict; an error mapping when a required variable is unset or empty or the bind or search fails; otherwise AttributesOf the entries found |
| LdapTools.FirstEntryOnly | tools/user_tools.py:96-125 | entries after the first never change the result |
| LdapTools.UnconfiguredNeverConnects | tools/user_tools.py:75-77 | without the four variables the answer does not depend on the directory |
| LdapTools.GetUserAttributes | tools/user_tools.py:73-127 | the tool body, stopping after the first entry, computes UserAttributes |
| LdapTools.CnValues | tools/user_tools.py:166 | at most one cn value per entry |
| LdapTools.CnValuesAll | tools/user_tools.py:166 | when every entry has a cn, each contributes exactly its value, in order, even an empty one |
| LdapTools.CnValuesAppend | tools/user_tools.py:166 | collecting distributes over concatenation, so entry order is kept |
| LdapTools.CnValuesOne | tools/user_tools.py:166 | an entry without a cn adds nothing; one with a cn adds exactly its value |
| LdapTools.CnValuesKeepsEvery | tools/user_tools.py:166 | every entry with a cn contributes its value |
| LdapTools.CnValuesSound | tools/user_tools.py:166 | every collected value is the cn value of an entry that has a cn |
| LdapTools.GroupNames | tools/user_tools.py:146-178 | an error mapping or a non-empty list; a list exactly when the search succeeds and some entry has a cn, and then the list is CnValues of the entries |
| LdapTools.GroupNamesKeepsEvery | tools/user_tools.py:166-168 | a group found with a cn makes the answer a list that holds that cn |
| LdapTools.BindUsername | tools/user_tools.py:198-204 | no user name exactly when the first DN part has no `=`; a name found contains no `,` |
| LdapTools.BindUsernameOf | tools/user_tools.py:198-204 | a DN `key=user,rest` gives exactly `user`, white space included |
| LdapTools.UnparseableBindDn | tools/user_tools.py:198-202 | a first DN part without `=` gives the error mapping naming the DN |
| LdapTools.CurrentUserInfo | tools/user_tools.py:184-229 | an unset host or bind DN gives an error mapping; without a field the answer is a whole dict |
| LdapTools.Project | tools/user_tools.py:209-224 | an error map is returned unchanged; a present field gives exactly its value; an absent field gives the error naming it; no or empty field gives the whole map |
| LdapTools.ProjectAgreesWithMap | tools/user_tools.py:214-224 | asking for a field gives that field's entry of the whole map |
| LdapTools.GetCurrentUserInfo | tools/user_tools.py:184-229 | the tool body, calling the attributes tool for the parsed name, computes CurrentUserInfo |
| LdapTools.UserGroups | tools/user_tools.py:231-277 | an error mapping or a list; a list only when the user is found, and then it is CnValues of the groups listing the first match's DN as a member |
| LdapTools.FoundUserWithoutGroups | tools/user_tools.py:254-270 | a user who is found but belongs to no group gets `[]`, not an error |
| LdapTools.UserGroupsListWhenFound | tools/user_tools.py:242-270 | a list exactly when the bind and both searches succeed and the user is found |
| LdapTools.MembersOf | tools/user_tools.py:306-310 | a list exactly when there is a first entry and it has `member`; the list is that attribute's values as strings, in order; otherwise an error mapping |
| LdapTools.GroupMembers | tools/user_tools.py:283-317 | an error mapping or a list; a list exactly when the bind and search succeed and the first group found has members, and then it is MembersOf the entries |
| LdapTools.MembersFirstEntryOnly | tools/user_tools.py:306-308 | only the first matching group counts |
| LdapTools.EmailOf | tools/user_tools.py:345-348 | not an error exactly when there is a first entry with `mail`, and then it is that entry's mail value |
| LdapTools.UserEmail | tools/user_tools.py:323-358 | not an error exactly when the bind and search succeed and the first user found has `mail`; then the answer is that user's mail value |
| LdapTools.EmailFirstEntryOnly | tools/user_tools.py:345-346 | only the first matching user counts |

## Left out

- The language model calls (selection, generation, formatting, direct reply) are replies in `Turn.Env`. The selection and direct-reply calls are outside any `try` in the source, so their failures are not modelled.
- Python `exec` of generated code, `importlib` loading and reloading, and `tool.invoke` are functions in `Turn.Env`. What a module defines is the list of tool-shaped objects the loader reports. A `Tool(...)` construction that raises part-way through a load is not modelled.
- A reload in `handle_generated_tool` is modelled as a fresh load of the store text. Between resets the store only grows, so the reloaded module defines at least what the earlier load did.
- Invoking a built-in tool is not wired to the `LdapTools` functions. `Turn.Env.invoke` stands for every tool, built-in or generated.
- `ast.literal_eval` is modelled only on a flat dict of one-line string literals, in single or double quotes, without escapes or prefixes, with an optional trailing comma. Any other literal counts as an evaluation failure. A reply the real evaluator reads but this grammar does not is therefore modelled as unreadable.
- `str.lower()` is modelled as ASCII lowering. That is enough to recognise "ninguno" written in any case.
- The `\s` class of the patterns is modelled as `str.isspace()`.
- LDAP work is abstracted: the connection, SSL, the unbind in `finally`, and UTF-8 decoding of byte values (values are already text). Attribute names are compared exactly; ldap3 compares them without regard to case.
- The `entry_attributes` else-branch of `get_user_attributes_tool` (tools/user_tools.py:120-122) is not modelled, because ldap3 entries always have that property.
- AgentGraph.Session.RunTurn: `app.invoke(inputs)` (agent/agent_graph.py:482) runs under LangGraph's recursion limit, 25 steps by default, and reaching it raises `GraphRecursionError`, which the menu loop does not catch, so the program ends. This rests on LangGraph's documented default. The model's `fuel` stands for that limit, and `finished == false` stands for that error. The model states nothing further about such a turn.
- Logging, the CLI menu and its printing, environment loading, the exit on a missing API key, and LangGraph's `add_messages` reducer are not modelled. Messages are a sequence appended in place.
- The reset's creation of the tools directory, its removal of the bytecode cache, and a failing write of the store file are not modelled.
- tools/dynamic_tools.py is not part of this model except as the reset preamble text it holds.
- LdapTools.CurrentUserInfo: its own contract states only the configuration check and the shape without a field; the rest is stated by `LdapTools.BindUsername`, `LdapTools.UnparseableBindDn` and `LdapTools.Project`.
