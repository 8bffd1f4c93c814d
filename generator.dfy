/**
 * The generation node of agent/generate_tool_node.py: ask the language model
 * for a tool function, cut the code out of its reply, run it, pick the first
 * tool-shaped value it defines, and try that tool once with placeholder
 * arguments.
 */
module Generator {
  import opened Values
  import opened Text
  import opened Registry
  import opened Turn

  /** The opening fence the extraction looks for. */
  const Fence := "```python"

  /** The closing fence. */
  const Close := "```"

  /** The prefix both failure texts share. */
  const ErrorMark := "❌ Error"

  /** The text that failed detection leaves in `result`. */
  const NoToolDetected := ErrorMark + ": no se pudo detectar una función válida en el código generado."

  /** The prefix of the text an exception leaves in `result`. */
  const GenerationFailed := ErrorMark + " generando o ejecutando herramienta: "

  /** `pat` occurs in `s` at `i`. */
  predicate HasAt(s: string, i: int, pat: string) {
    0 <= i && i + |pat| <= |s| && s[i..i + |pat|] == pat
  }

  /** The first occurrence of `pat` in `s` at or after `from`. */
  function FindFrom(s: string, pat: string, from: nat): (r: Option<nat>)
    ensures r.Some? ==> from <= r.value && HasAt(s, r.value, pat)
    ensures r.Some? ==> forall j | from <= j < r.value :: !HasAt(s, j, pat)
    ensures r.None? ==> forall j | from <= j :: !HasAt(s, j, pat)
    decreases |s| - from
  {
    if from + |pat| > |s| then None
    else if s[from..from + |pat|] == pat then Some(from)
    else FindFrom(s, pat, from + 1)
  }

  /** An occurrence with none before it, from `from` on, is the one found. */
  lemma FindFromFirst(s: string, pat: string, from: nat, c: nat)
    requires from <= c && HasAt(s, c, pat)
    requires forall j | from <= j < c :: !HasAt(s, j, pat)
    ensures FindFrom(s, pat, from) == Some(c)
  {
  }

  /** The last line break in `s[lo..hi]`. */
  function LastNewline(s: string, lo: nat, hi: nat): (r: Option<nat>)
    requires lo <= hi <= |s|
    ensures r.Some? ==> lo <= r.value < hi && s[r.value] == '\n'
    ensures r.Some? ==> forall k | r.value < k < hi :: s[k] != '\n'
    ensures r.None? ==> forall k | lo <= k < hi :: s[k] != '\n'
    decreases hi - lo
  {
    if lo == hi then None
    else if s[hi - 1] == '\n' then Some(hi - 1)
    else LastNewline(s, lo, hi - 1)
  }

  /** The end of the run of white space that starts at `lo`. */
  function SpaceRunEnd(s: string, lo: nat): (hi: nat)
    requires lo <= |s|
    ensures lo <= hi <= |s| && AllSpace(s, lo, hi)
    ensures hi < |s| ==> !IsSpace(s[hi])
  {
    var n := LeadingSpace(s[lo..]);
    assert forall k | lo <= k <= lo + n && k < |s| :: s[lo..][k - lo] == s[k];
    lo + n
  }

  /**
   * Where the group of `\s*\n(.*?)` starts after the fence at `i`: greedy `\s*`
   * gives back white space up to the last line break of the run after the fence.
   */
  function GroupStart(s: string, i: nat): (r: Option<nat>)
    requires HasAt(s, i, Fence)
    ensures r.Some? ==> i + |Fence| < r.value <= |s| && s[r.value - 1] == '\n'
    ensures r.Some? ==> AllSpace(s, i + |Fence|, r.value)
    ensures r.None? <==> forall k | i + |Fence| <= k < SpaceRunEnd(s, i + |Fence|) :: s[k] != '\n'
    ensures r.Some? ==> r.value <= SpaceRunEnd(s, i + |Fence|)
    ensures r.Some? ==> forall k | r.value <= k < SpaceRunEnd(s, i + |Fence|) :: s[k] != '\n'
  {
    var lo := i + |Fence|;
    var hi := SpaceRunEnd(s, lo);
    match LastNewline(s, lo, hi)
    case None => None
    case Some(k) => Some(k + 1)
  }

  /** The pattern matches at `i`: a fence, a line break in the white space after it, and a closing fence later. */
  predicate Matches(s: string, i: nat) {
    HasAt(s, i, Fence) && GroupStart(s, i).Some? && FindFrom(s, Close, GroupStart(s, i).value).Some?
  }

  /** The group captured by the match at `i`: from its start to the first closing fence after it. */
  function GroupAt(s: string, i: nat): string
    requires Matches(s, i)
  {
    s[GroupStart(s, i).value..FindFrom(s, Close, GroupStart(s, i).value).value]
  }

  /** No position in `[from, to)` matches. */
  predicate NoMatchBetween(s: string, from: nat, to: nat) {
    forall j: nat | from <= j < to :: !Matches(s, j)
  }

  /** A position without a fence does not match. */
  lemma NoFenceNoMatch(s: string, from: nat, to: nat)
    requires forall j | from <= j < to :: !HasAt(s, j, Fence)
    ensures NoMatchBetween(s, from, to)
  {
  }

  /** Two adjacent ranges without a match make one. */
  lemma NoMatchJoin(s: string, from: nat, mid: nat, to: nat)
    requires from <= mid <= to
    requires NoMatchBetween(s, from, mid) && !Matches(s, mid) && NoMatchBetween(s, mid + 1, to)
    ensures NoMatchBetween(s, from, to)
  {
  }

  /** Where `re.search` matches at or after `from`: the leftmost matching position, or none when no position matches. */
  function MatchFrom(s: string, from: nat): (r: Option<nat>)
    ensures r.Some? ==> from <= r.value && Matches(s, r.value) && NoMatchBetween(s, from, r.value)
    ensures r.None? ==> forall i: nat | from <= i :: !Matches(s, i)
    decreases |s| - from
  {
    match FindFrom(s, Fence, from)
    case None => None
    case Some(i) =>
      NoFenceNoMatch(s, from, i);
      if Matches(s, i) then Some(i)
      else
        var r := MatchFrom(s, i + 1);
        if r.Some? then NoMatchJoin(s, from, i, r.value); r else r
  }

  /** The code the node runs: the stripped fenced group if there is one, else the whole stripped reply. */
  function ExtractCode(reply: string): (code: string)
    ensures code == [] || (!IsSpace(code[0]) && !IsSpace(code[|code| - 1]))
  {
    var s := Strip(reply);
    match MatchFrom(s, 0)
    case Some(i) => Strip(GroupAt(s, i))
    case None => s
  }

  /** A reply without an opening fence is run as it stands, stripped. */
  lemma ExtractUnfenced(reply: string)
    requires forall i | 0 <= i < |reply| :: !HasAt(Strip(reply), i, Fence)
    ensures ExtractCode(reply) == Strip(reply)
  {
    var s := Strip(reply);
    assert forall i | 0 <= i :: !HasAt(s, i, Fence);
  }

  /** A reply that is exactly one fenced block runs the stripped body of the block. */
  lemma ExtractFenced(body: string)
    requires '`' !in body
    requires body == [] || !IsSpace(body[0])
    ensures ExtractCode(Fence + "\n" + body + Close) == Strip(body)
  {
    var s := Fence + "\n" + body + Close;
    StripOfTrimmed(s);
    assert s[0..9] == Fence;
    assert FindFrom(s, Fence, 0) == Some(0);
    var t := s[9..];
    assert t[0] == '\n' && (t[1] == '`' || t[1] == body[0]);
    assert LeadingSpace(t) == 1;
    assert LastNewline(s, 9, 10) == Some(9);
    assert GroupStart(s, 0) == Some(10);
    var c := 10 + |body|;
    assert s[c..c + 3] == Close;
    forall j | 10 <= j < c ensures !HasAt(s, j, Close) {
      assert s[j] == body[j - 10];
      assert j + 3 <= |s| ==> s[j..j + 3][0] == s[j];
    }
    FindFromFirst(s, Close, 10, c);
    assert Matches(s, 0);
    assert s[10..c] == body;
  }

  /** Both failure texts start with the error mark. */
  lemma FailureTexts(e: string)
    ensures ErrorMark <= NoToolDetected
    ensures ErrorMark <= GenerationFailed + e
  {
    assert GenerationFailed + e == ErrorMark + (" generando o ejecutando herramienta: " + e);
  }

  /** The first tool-shaped value among the bindings `exec` left. */
  function FirstTool(bs: seq<Binding>): (r: Option<Tool>)
    ensures r.Some? ==> ToolValue(r.value) in bs
    ensures r.None? <==> forall k | 0 <= k < |bs| :: bs[k].OtherValue?
  {
    if bs == [] then None
    else if bs[0].ToolValue? then Some(bs[0].tool)
    else
      assert forall k | 1 <= k < |bs| :: bs[1..][k - 1] == bs[k];
      FirstTool(bs[1..])
  }

  /** A tool preceded only by other values is the one picked. */
  lemma {:induction false} FirstToolIsFirst(bs: seq<Binding>, k: nat)
    requires k < |bs| && bs[k].ToolValue?
    requires forall j | 0 <= j < k :: bs[j].OtherValue?
    ensures FirstTool(bs) == Some(bs[k].tool)
  {
    if k > 0 {
      FirstToolIsFirst(bs[1..], k - 1);
    }
  }

  /** The scan of `local_vars.values()` that stops at the first tool-shaped value. */
  method DetectTool(bs: seq<Binding>) returns (found: Option<Tool>)
    ensures found == FirstTool(bs)
  {
    var k := 0;
    while k < |bs|
      invariant 0 <= k <= |bs|
      invariant forall j | 0 <= j < k :: bs[j].OtherValue?
    {
      if bs[k].ToolValue? {
        FirstToolIsFirst(bs, k);
        return Some(bs[k].tool);
      }
      k := k + 1;
    }
    return None;
  }

  /** The argument the trial call passes for every parameter. */
  const Placeholder := "testuser"

  /** The trial arguments: every parameter bound to the placeholder. */
  function Placeholders(params: seq<string>): map<string, string> {
    map p | p in params :: Placeholder
  }

  /** The loop that fills the trial arguments. */
  method TrialArgs(params: seq<string>) returns (args: map<string, string>)
    ensures forall p :: p in args <==> p in params
    ensures forall p | p in args :: args[p] == Placeholder
    ensures args == Placeholders(params)
  {
    args := map[];
    var k := 0;
    while k < |params|
      invariant 0 <= k <= |params|
      invariant args == Placeholders(params[..k])
    {
      assert params[..k + 1] == params[..k] + [params[k]];
      args := args[params[k] := Placeholder];
      k := k + 1;
    }
    assert params[..k] == params;
  }

  /** What the node leaves in the four fields it writes. */
  datatype Outcome = Outcome(generated: bool, tool: Option<Tool>, code: string, result: Value)

  /**
   * Every step of the node returns: the oracle answers, the extracted code runs,
   * it defines a tool-shaped value, and the first such tool returns on the trial arguments.
   */
  predicate GenerationSucceeds(env: Env, userInput: string, toolName: string) {
    var reply := env.synthesize(userInput, toolName);
    reply.Done?
    && var bindings := env.exec(ExtractCode(reply.value));
    bindings.Done? && FirstTool(bindings.value).Some?
    && var t := FirstTool(bindings.value).value;
    env.invoke(t, Placeholders(t.params)).Done?
  }

  /** The node's outcome, given the collaborators, the user input and the requested name. */
  function Generation(env: Env, userInput: string, toolName: string): (o: Outcome)
    ensures o.generated <==> GenerationSucceeds(env, userInput, toolName)
    ensures o.generated <==> o.tool.Some?
    ensures !o.generated ==> o.result.Str? && ErrorMark <= o.result.s
    ensures env.synthesize(userInput, toolName).Raised? ==> !o.generated && o.code == ""
    ensures env.synthesize(userInput, toolName).Done? ==> o.code == ExtractCode(env.synthesize(userInput, toolName).value)
    ensures o.generated ==>
      env.exec(o.code).Done? && ToolValue(o.tool.value) in env.exec(o.code).value
      && o.tool == FirstTool(env.exec(o.code).value)
      && env.invoke(o.tool.value, Placeholders(o.tool.value.params)) == Done(o.result)
  {
    FailureTexts("");
    match env.synthesize(userInput, toolName)
    case Raised(e) => FailureTexts(e); Outcome(false, None, "", Str(GenerationFailed + e))
    case Done(reply) =>
      var code := ExtractCode(reply);
      match env.exec(code)
      case Raised(e) => FailureTexts(e); Outcome(false, None, code, Str(GenerationFailed + e))
      case Done(bs) =>
        match FirstTool(bs)
        case None => Outcome(false, None, code, Str(NoToolDetected))
        case Some(t) =>
          match env.invoke(t, Placeholders(t.params))
          case Raised(e) => FailureTexts(e); Outcome(false, None, code, Str(GenerationFailed + e))
          case Done(v) => Outcome(true, Some(t), code, v)
  }

  /**
   * A trial call that raises leaves no tool to register, even though the code ran and
   * defined one: the result is the exception text.
   */
  lemma TrialRaisesNothingKept(env: Env, userInput: string, toolName: string, bs: seq<Binding>, t: Tool, e: string)
    requires env.synthesize(userInput, toolName).Done?
    requires env.exec(ExtractCode(env.synthesize(userInput, toolName).value)) == Done(bs)
    requires FirstTool(bs) == Some(t) && env.invoke(t, Placeholders(t.params)) == Raised(e)
    ensures Generation(env, userInput, toolName)
      == Outcome(false, None, ExtractCode(env.synthesize(userInput, toolName).value), Str(GenerationFailed + e))
  {
  }

  /** With two tool-shaped values, the one defined first is tried and kept, whatever the second would do. */
  lemma FirstDefinedToolKept(env: Env, userInput: string, toolName: string, pre: seq<Binding>, t: Tool, post: seq<Binding>)
    requires forall j | 0 <= j < |pre| :: pre[j].OtherValue?
    requires env.synthesize(userInput, toolName).Done?
    requires env.exec(ExtractCode(env.synthesize(userInput, toolName).value)) == Done(pre + [ToolValue(t)] + post)
    requires env.invoke(t, Placeholders(t.params)).Done?
    ensures Generation(env, userInput, toolName).tool == Some(t)
    ensures Generation(env, userInput, toolName).result == env.invoke(t, Placeholders(t.params)).value
  {
    FirstToolIsFirst(pre + [ToolValue(t)] + post, |pre|);
  }

  /** The body of `generate_tool_node` up to the writes: ask, extract, run, detect, try. */
  method Generate(env: Env, userInput: string, toolName: string) returns (outcome: Outcome)
    ensures outcome == Generation(env, userInput, toolName)
  {
    var code := "";
    match env.synthesize(userInput, toolName)
    case Raised(e) =>
      outcome := Outcome(false, None, code, Str(GenerationFailed + e));
    case Done(reply) =>
      code := ExtractCode(reply);
      match env.exec(code)
      case Raised(e) =>
        outcome := Outcome(false, None, code, Str(GenerationFailed + e));
      case Done(bs) =>
        var found := DetectTool(bs);
        match found
        case None =>
          outcome := Outcome(false, None, code, Str(NoToolDetected));
        case Some(t) =>
          var args: map<string, string>;
          if |t.params| > 0 {
            args := TrialArgs(t.params);
          } else {
            args := map[];
          }
          match env.invoke(t, args)
          case Raised(e) =>
            outcome := Outcome(false, None, code, Str(GenerationFailed + e));
          case Done(v) =>
            outcome := Outcome(true, Some(t), code, v);
  }

  /** `generate_tool_node`: writes the outcome and leaves the rest of the turn state alone. */
  method GenerateToolNode(st: TurnState, env: Env)
    modifies st
    ensures st.messages == old(st.messages) && st.userInput == old(st.userInput)
    ensures st.toolName == old(st.toolName) && st.toolArg == old(st.toolArg)
    ensures Outcome(st.toolGenerated, st.newTool, st.generatedCode, st.result)
      == Generation(env, old(st.userInput), old(st.toolName))
  {
    var outcome := Generate(env, st.userInput, st.toolName);
    st.result := outcome.result;
    st.toolGenerated := outcome.generated;
    st.newTool := outcome.tool;
    st.generatedCode := outcome.code;
  }
}
