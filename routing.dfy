/**
 * The LangGraph wiring of agent/agent_graph.py: five nodes, the conditional
 * edge `decide_if_tool_exists` out of `select_tool`, and the fixed edges
 * execute → END, respond → END, generate → handle, handle → select, with
 * `select_tool` as entry point. A run of the graph is the sequence of nodes
 * it visits, ending with `End`.
 */
module Routing {

  datatype Node = SelectTool | ExecuteTool | GenerateTool | HandleGeneratedTool | RespondToUser | End

  /** The three labels `decide_if_tool_exists` can return. */
  datatype Route = ToExecute | ToGenerate | ToRespond

  /** The tool name that stands for "no tool applies". */
  const NoTool := "ninguno"

  /** `decide_if_tool_exists`: the sentinel first, then registration, and anything else is generated. */
  function Decide(toolName: string, registered: set<string>): (r: Route)
    ensures r == ToRespond <==> toolName == NoTool
    ensures r == ToExecute ==> toolName in registered
    ensures r == ToGenerate ==> toolName !in registered && toolName != NoTool
  {
    if toolName == NoTool then ToRespond
    else if toolName in registered then ToExecute
    else ToGenerate
  }

  /** The node each label leads to. */
  function Target(r: Route): (n: Node)
    ensures n == ExecuteTool || n == GenerateTool || n == RespondToUser
  {
    match r
    case ToExecute => ExecuteTool
    case ToGenerate => GenerateTool
    case ToRespond => RespondToUser
  }

  /** The edges of the compiled graph. */
  predicate Edge(a: Node, b: Node) {
    match a
    case SelectTool => b == ExecuteTool || b == GenerateTool || b == RespondToUser
    case GenerateTool => b == HandleGeneratedTool
    case HandleGeneratedTool => b == SelectTool
    case ExecuteTool => b == End
    case RespondToUser => b == End
    case End => false
  }

  /** The node that follows `a` in a run, given the label `decide_if_tool_exists` returned (used only after `select_tool`). */
  function Successor(a: Node, r: Route): (b: Node)
    requires a != End
    ensures Edge(a, b)
    ensures a == SelectTool ==> b == Target(r)
  {
    match a
    case SelectTool => Target(r)
    case GenerateTool => HandleGeneratedTool
    case HandleGeneratedTool => SelectTool
    case ExecuteTool => End
    case RespondToUser => End
  }

  /** A complete run: starts at the entry point, follows edges, and ends at `End`. */
  predicate IsRun(t: seq<Node>) {
    |t| >= 1 && t[0] == SelectTool && t[|t| - 1] == End
    && forall k | 0 <= k < |t| - 1 :: Edge(t[k], t[k + 1])
  }

  /** `k` rounds of select → generate → handle. */
  function Rounds(k: nat): (t: seq<Node>)
    ensures |t| == 3 * k
  {
    if k == 0 then [] else [SelectTool, GenerateTool, HandleGeneratedTool] + Rounds(k - 1)
  }

  /** `t` is `k` generation rounds followed by a final selection that ends in `last`. */
  predicate RunOfShape(t: seq<Node>, k: nat, last: Node) {
    (last == ExecuteTool || last == RespondToUser) && t == Rounds(k) + [SelectTool, last, End]
  }

  /** Every complete run is some number of generation rounds, then one execution or one direct reply. */
  lemma {:induction false} RunShape(t: seq<Node>)
    requires IsRun(t)
    ensures exists k: nat, last :: RunOfShape(t, k, last)
    decreases |t|
  {
    assert Edge(t[0], t[1]);
    if t[1] == GenerateTool {
      assert Edge(t[1], t[2]) && Edge(t[2], t[3]);
      var u := t[3..];
      assert forall k | 0 <= k < |u| - 1 :: Edge(u[k], u[k + 1]) by {
        forall k | 0 <= k < |u| - 1 ensures Edge(u[k], u[k + 1]) {
          assert Edge(t[k + 3], t[k + 4]);
        }
      }
      RunShape(u);
      var k: nat, last :| RunOfShape(u, k, last);
      assert t == [SelectTool, GenerateTool, HandleGeneratedTool] + u;
      assert RunOfShape(t, k + 1, last);
    } else {
      assert t[2] == End by { assert Edge(t[1], t[2]); }
      assert |t| <= 3 || Edge(t[2], t[3]);
      assert RunOfShape(t, 0, t[1]);
    }
  }

  /** Conversely, every such shape is a complete run. */
  lemma {:induction false} ShapeIsRun(t: seq<Node>, k: nat, last: Node)
    requires RunOfShape(t, k, last)
    ensures IsRun(t)
    decreases k
  {
    if k > 0 {
      var u := Rounds(k - 1) + [SelectTool, last, End];
      ShapeIsRun(u, k - 1, last);
      assert t == [SelectTool, GenerateTool, HandleGeneratedTool] + u;
      forall j | 0 <= j < |t| - 1 ensures Edge(t[j], t[j + 1]) {
        if j >= 3 {
          assert t[j] == u[j - 3] && t[j + 1] == u[j - 2];
        }
      }
    }
  }

  /** How often node `n` occurs in `t`. */
  function Visits(t: seq<Node>, n: Node): nat {
    multiset(t)[n]
  }

  /** Each generation round visits select, generate and handle once each and nothing else. */
  lemma {:induction false} RoundsVisits(k: nat)
    ensures Visits(Rounds(k), SelectTool) == k && Visits(Rounds(k), GenerateTool) == k
    ensures Visits(Rounds(k), HandleGeneratedTool) == k
    ensures Visits(Rounds(k), ExecuteTool) == 0 && Visits(Rounds(k), RespondToUser) == 0
    ensures Visits(Rounds(k), End) == 0
  {
    if k > 0 {
      RoundsVisits(k - 1);
      assert multiset(Rounds(k)) == multiset{SelectTool, GenerateTool, HandleGeneratedTool} + multiset(Rounds(k - 1));
    }
  }

  /** The visit counts of a run of a given shape. */
  lemma ShapeVisits(t: seq<Node>, k: nat, last: Node)
    requires RunOfShape(t, k, last)
    ensures Visits(t, SelectTool) == k + 1 && Visits(t, GenerateTool) == k
    ensures Visits(t, HandleGeneratedTool) == k && Visits(t, End) == 1
    ensures Visits(t, ExecuteTool) + Visits(t, RespondToUser) == 1
  {
    RoundsVisits(k);
    assert multiset(t) == multiset(Rounds(k)) + multiset{SelectTool, last, End};
  }

  /**
   * In every complete run, selection happens once more than generation, every generated
   * tool is handled, and exactly one of execute / respond ends the run.
   */
  lemma RunVisits(t: seq<Node>)
    requires IsRun(t)
    ensures Visits(t, SelectTool) == Visits(t, GenerateTool) + 1
    ensures Visits(t, HandleGeneratedTool) == Visits(t, GenerateTool)
    ensures Visits(t, ExecuteTool) + Visits(t, RespondToUser) == 1
    ensures Visits(t, End) == 1
  {
    RunShape(t);
    var k: nat, last :| RunOfShape(t, k, last);
    ShapeVisits(t, k, last);
  }
}
