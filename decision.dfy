/**
 * How `select_tool_node` (agent/agent_graph.py) reads the selection oracle's
 * reply: `re.search(r"\{(.+?)\}", reply, re.DOTALL)` picks a brace span,
 * `ast.literal_eval` reads "{" + span + "}" as a dict, and the "tool" and
 * "arg" entries, stripped, become the decision. Any failure gives ("", "").
 *
 * `literal_eval` is modelled on the grammar the oracle is asked to produce: a
 * flat dict display whose keys and values are plain one-line string literals
 * in single or double quotes, with Python's blanks between tokens and an
 * optional trailing comma.
 */
module Decision {
  import opened Values
  import opened Text

  /** The selection: tool name and argument, both stripped; ("", "") when the reply could not be read. */
  datatype Decision = Decision(tool: string, arg: string)

  const Unreadable := Decision("", "")

  // ---------------------------------------------------------------------------
  // The brace span of `\{(.+?)\}` with DOTALL

  /** `g` is the group of a match that starts at `i`: the first `{` of `s`, then `g`, then `}`. */
  predicate SpanAt(s: string, i: int, g: string) {
    0 <= i && i + |g| + 2 <= |s| && |g| >= 1
    && s[i] == '{' && '{' !in s[..i]
    && s[i + 1..i + 1 + |g|] == g && s[i + 1 + |g|] == '}'
    && '}' !in g[1..]
  }

  /** The group of the leftmost, shortest match of `\{(.+?)\}` in `s`. */
  function BraceSpan(s: string): (r: Option<string>)
    ensures r.Some? ==> exists i | 0 <= i < |s| :: SpanAt(s, i, r.value)
    ensures r.None? ==> forall i, j | 0 <= i < |s| && 0 <= j < |s| && s[i] == '{' && s[j] == '}' :: j <= i + 1
  {
    match FindChar(s, '{')
    case None => None
    case Some(i) =>
      if i + 2 > |s| then None
      else
        match FindChar(s[i + 2..], '}')
        case None =>
          assert forall j | i + 2 <= j < |s| :: s[j] == s[i + 2..][j - i - 2];
          None
        case Some(j) =>
          var g := s[i + 1..i + 2 + j];
          assert g[1..] == s[i + 2..][..j];
          assert SpanAt(s, i, g);
          Some(g)
  }

  // ---------------------------------------------------------------------------
  // The literal grammar

  /** Characters Python's tokenizer skips between the tokens of a bracketed display. */
  predicate IsBlank(c: char) {
    c == ' ' || c == '\t' || c == '\U{0c}' || c == '\n' || c == '\r'
  }

  /** `s` without its leading blanks. */
  function SkipBlanks(s: string): (r: string)
    ensures |r| <= |s|
    ensures r != [] ==> !IsBlank(r[0])
  {
    if s != [] && IsBlank(s[0]) then SkipBlanks(s[1..]) else s
  }

  /** A string literal may not contain its own quote, a backslash or a line break. */
  predicate PlainBody(body: string, quote: char) {
    quote !in body && '\\' !in body && '\n' !in body && '\r' !in body
  }

  /** A one-line string literal in single or double quotes at the start of `s`: its value and what follows. */
  function ParseString(s: string): (r: Option<(string, string)>)
    ensures r.Some? ==> |r.value.1| < |s|
  {
    if s == [] || (s[0] != '"' && s[0] != '\'') then None
    else
      match FindChar(s[1..], s[0])
      case None => None
      case Some(k) =>
        var body := s[1..k + 1];
        if PlainBody(body, s[0]) then Some((body, s[k + 2..])) else None
  }

  /** `key: value` with blanks around the colon: the pair and what follows it. */
  function ParseEntry(s: string): (r: Option<((string, string), string)>)
    ensures r.Some? ==> |r.value.1| < |s|
  {
    match ParseString(SkipBlanks(s))
    case None => None
    case Some((key, afterKey)) =>
      var t := SkipBlanks(afterKey);
      if t == [] || t[0] != ':' then None
      else
        match ParseString(SkipBlanks(t[1..]))
        case None => None
        case Some((value, rest)) => Some(((key, value), rest))
  }

  /** The entries of a dict display after its `{` (or after a comma) up to its `}`, and what follows. */
  function ParseItems(s: string): (r: Option<(seq<(string, string)>, string)>)
    ensures r.Some? ==> |r.value.1| < |s|
    decreases |s|
  {
    var t := SkipBlanks(s);
    if t != [] && t[0] == '}' then Some(([], t[1..]))
    else
      match ParseEntry(t)
      case None => None
      case Some((item, rest)) =>
        var u := SkipBlanks(rest);
        if u != [] && u[0] == '}' then Some(([item], u[1..]))
        else if u != [] && u[0] == ',' then
          match ParseItems(u[1..])
          case None => None
          case Some((more, after)) => Some(([item] + more, after))
        else None
  }

  /** `ast.literal_eval(s)` restricted to a dict of strings; `None` stands for "raised". */
  function ParseDictLiteral(s: string): Option<seq<(string, string)>> {
    if s == [] || s[0] != '{' then None
    else
      match ParseItems(s[1..])
      case None => None
      case Some((items, rest)) => if SkipBlanks(rest) == [] then Some(items) else None
  }

  /** Entry `k` is the last one whose key is `key`. */
  predicate LastWithKey(items: seq<(string, string)>, key: string, k: int) {
    0 <= k < |items| && items[k].0 == key && forall j | k < j < |items| :: items[j].0 != key
  }

  /** `d.get(key, "")` on the dict built from `items` (a repeated key keeps its last value). */
  function Get(items: seq<(string, string)>, key: string): (v: string)
    ensures v != "" ==> exists k | 0 <= k < |items| :: items[k] == (key, v)
    ensures forall k | LastWithKey(items, key, k) :: v == items[k].1
    ensures (forall k | 0 <= k < |items| :: items[k].0 != key) ==> v == ""
  {
    if items == [] then ""
    else if items[|items| - 1].0 == key then items[|items| - 1].1
    else Get(items[..|items| - 1], key)
  }

  /** The decision `select_tool_node` stores as `tool_name` and `tool_arg`. */
  function ParseDecision(reply: string): (d: Decision)
    ensures d.tool == Strip(d.tool) && d.arg == Strip(d.arg)
    ensures BraceSpan(reply).None? ==> d == Unreadable
    ensures BraceSpan(reply).Some? && ParseDictLiteral("{" + BraceSpan(reply).value + "}").None? ==> d == Unreadable
  {
    match BraceSpan(reply)
    case None => Unreadable
    case Some(g) =>
      match ParseDictLiteral("{" + g + "}")
      case None => Unreadable
      case Some(items) =>
        var tool := Strip(Get(items, "tool"));
        var arg := Strip(Get(items, "arg"));
        StripIdempotent(Get(items, "tool"));
        StripIdempotent(Get(items, "arg"));
        Decision(tool, arg)
  }

  // ---------------------------------------------------------------------------
  // The reply shape the selection prompt asks for, and reading it back

  /** Text that can stand between double quotes of a one-line literal. */
  predicate PlainText(s: string) {
    PlainBody(s, '"')
  }

  /** `"text"` */
  function Quoted(x: string): string {
    "\"" + x + "\""
  }

  /** `"key": "value"` */
  function RenderItem(item: (string, string)): string {
    Quoted(item.0) + ": " + Quoted(item.1)
  }

  /** The entries, separated by ", ". */
  function RenderItems(items: seq<(string, string)>): string {
    if items == [] then ""
    else if |items| == 1 then RenderItem(items[0])
    else RenderItem(items[0]) + ", " + RenderItems(items[1..])
  }

  /** `{"key": "value", ...}` */
  function Render(items: seq<(string, string)>): string {
    "{" + RenderItems(items) + "}"
  }

  predicate AllPlain(items: seq<(string, string)>) {
    forall k | 0 <= k < |items| :: PlainText(items[k].0) && PlainText(items[k].1)
  }

  lemma SkipBlanksNonBlank(s: string)
    requires s != [] && !IsBlank(s[0])
    ensures SkipBlanks(s) == s
  {
  }

  /** One blank in front of a token is skipped. */
  lemma SkipOneBlank(s: string, t: string)
    requires s == [' '] + t && t != [] && !IsBlank(t[0])
    ensures SkipBlanks(s) == t
  {
    assert s[1..] == t;
  }

  /** A double-quoted plain literal is read back as its text. */
  lemma ParseQuoted(body: string, rest: string)
    requires PlainText(body)
    ensures ParseString(Quoted(body) + rest) == Some((body, rest))
  {
    var s := Quoted(body) + rest;
    var after := s[1..];
    assert after == body + (['"'] + rest);
    assert after[..|body|] == body;
    FindCharFirst(after, '"', |body|);
    assert s[1..|body| + 1] == body;
    assert s[|body| + 2..] == rest;
  }

  /** A rendered entry is read back as that entry, with the text after it left over. */
  lemma ParseRenderedEntry(item: (string, string), rest: string)
    requires PlainText(item.0) && PlainText(item.1)
    ensures ParseEntry(RenderItem(item) + rest) == Some((item, rest))
  {
    var value := Quoted(item.1) + rest;
    var colon := ": " + value;
    var s := RenderItem(item) + rest;
    assert s == Quoted(item.0) + colon;
    SkipBlanksNonBlank(s);
    ParseQuoted(item.0, colon);
    SkipBlanksNonBlank(colon);
    SkipOneBlank(colon[1..], value);
    ParseQuoted(item.1, rest);
  }

  /** A dict display whose last entry is followed by `}`. */
  lemma ParseItemsLast(s: string, item: (string, string), rest: string)
    requires s != [] && !IsBlank(s[0]) && s[0] != '}'
    requires ParseEntry(s) == Some((item, "}" + rest))
    ensures ParseItems(s) == Some(([item], rest))
  {
    SkipBlanksNonBlank(s);
    SkipBlanksNonBlank("}" + rest);
    assert ("}" + rest)[1..] == rest;
  }

  /** A dict display whose entry is followed by `, ` and more entries. */
  lemma ParseItemsMore(s: string, item: (string, string), y: string, more: seq<(string, string)>, rest: string)
    requires s != [] && !IsBlank(s[0]) && s[0] != '}'
    requires ParseEntry(s) == Some((item, ", " + y))
    requires y != [] && !IsBlank(y[0])
    requires ParseItems(y) == Some((more, rest))
    ensures ParseItems(s) == Some(([item] + more, rest))
  {
    SkipBlanksNonBlank(s);
    SkipBlanksNonBlank(", " + y);
    SkipOneBlank((", " + y)[1..], y);
    SkipBlanksNonBlank(y);
  }

  /** No entries: the closing brace alone. */
  lemma ParseRenderedNone(items: seq<(string, string)>, rest: string)
    requires items == []
    ensures ParseItems(RenderItems(items) + "}" + rest) == Some((items, rest))
  {
    var s := "}" + rest;
    assert RenderItems(items) + "}" + rest == s;
    SkipBlanksNonBlank(s);
    assert s[1..] == rest;
  }

  /** A single rendered entry followed by the closing brace. */
  lemma ParseRenderedOne(items: seq<(string, string)>, rest: string)
    requires |items| == 1 && AllPlain(items)
    ensures ParseItems(RenderItems(items) + "}" + rest) == Some((items, rest))
  {
    var item := items[0];
    var s := RenderItem(item) + "}" + rest;
    assert RenderItems(items) + "}" + rest == s;
    assert s == RenderItem(item) + ("}" + rest);
    ParseRenderedEntry(item, "}" + rest);
    ParseItemsLast(s, item, rest);
    assert [item] == items;
  }

  /** A rendered entry, a separator, and text that reads back as entries. */
  lemma ParseRenderedCons(item: (string, string), y: string, more: seq<(string, string)>, rest: string)
    requires PlainText(item.0) && PlainText(item.1)
    requires y != [] && y[0] == '"' && ParseItems(y) == Some((more, rest))
    ensures ParseItems(RenderItem(item) + ", " + y) == Some(([item] + more, rest))
  {
    var s := RenderItem(item) + ", " + y;
    assert s == RenderItem(item) + (", " + y);
    ParseRenderedEntry(item, ", " + y);
    ParseItemsMore(s, item, y, more, rest);
  }

  /** Rendered entries start with a quote. */
  lemma RenderItemsHead(items: seq<(string, string)>)
    requires items != []
    ensures RenderItems(items) != [] && RenderItems(items)[0] == '"'
  {
  }

  /** Two or more rendered entries are the first one, a separator, and the others. */
  lemma RenderItemsCons(items: seq<(string, string)>, rest: string)
    requires |items| >= 2
    ensures RenderItems(items) + "}" + rest == RenderItem(items[0]) + ", " + (RenderItems(items[1..]) + "}" + rest)
    ensures (RenderItems(items[1..]) + "}" + rest)[0] == '"'
  {
    var b := RenderItems(items[1..]);
    assert RenderItems(items) == RenderItem(items[0]) + ", " + b;
    Regroup(RenderItem(items[0]), ", ", b, "}", rest);
    RenderItemsHead(items[1..]);
    DropFirst(b, "}", rest);
  }

  /** Rendered entries followed by the closing brace are read back exactly. */
  lemma {:induction false} ParseRenderedItems(items: seq<(string, string)>, rest: string)
    requires AllPlain(items)
    ensures ParseItems(RenderItems(items) + "}" + rest) == Some((items, rest))
    decreases |items|
  {
    if items == [] {
      ParseRenderedNone(items, rest);
    } else if |items| == 1 {
      ParseRenderedOne(items, rest);
    } else {
      var y := RenderItems(items[1..]) + "}" + rest;
      ParseRenderedItems(items[1..], rest);
      RenderItemsCons(items, rest);
      ParseRenderedCons(items[0], y, items[1..], rest);
      assert [items[0]] + items[1..] == items;
    }
  }

  /** Round trip: `literal_eval` of a rendered dict of plain strings gives back its entries. */
  lemma ParseRendered(items: seq<(string, string)>)
    requires AllPlain(items)
    ensures ParseDictLiteral(Render(items)) == Some(items)
  {
    var s := Render(items);
    assert s[1..] == RenderItems(items) + "}" + "";
    ParseRenderedItems(items, "");
  }

  /** No `}` appears in rendered entries whose texts have none. */
  lemma {:induction false} RenderedItemsNoClose(items: seq<(string, string)>)
    requires forall k | 0 <= k < |items| :: '}' !in items[k].0 && '}' !in items[k].1
    ensures '}' !in RenderItems(items)
    decreases |items|
  {
    if |items| > 1 {
      RenderedItemsNoClose(items[1..]);
    }
  }

  /** Regrouping a concatenation. */
  lemma Regroup(a: string, b: string, c: string, d: string, e: string)
    ensures a + b + c + d + e == a + b + (c + d + e)
    ensures a + b + c + d + e == (a + b) + (c + d + e)
  {
  }

  /** What follows a prefix, and a prefix of a concatenation. */
  lemma Slices(a: string, u: string)
    ensures (a + u)[|a|..] == u && (a + u)[..|a|] == a
  {
  }

  /** Dropping the first character of a concatenation that starts with a non-empty part. */
  lemma DropFirst(g: string, d: string, e: string)
    requires g != []
    ensures (g + d + e)[1..] == g[1..] + d + e && (g + d + e)[0] == g[0]
  {
  }

  /** A match at `i` with group `g` is the one the search reports. */
  lemma SpanDetermines(s: string, i: int, g: string)
    requires SpanAt(s, i, g)
    ensures BraceSpan(s) == Some(g)
  {
    FindCharFirst(s, '{', i);
    var t := s[i + 2..];
    assert t[..|g| - 1] == s[i + 1..i + 1 + |g|][1..] == g[1..];
    assert t[|g| - 1] == '}';
    FindCharFirst(t, '}', |g| - 1);
  }

  /** The span of a reply whose first `{` opens `g` and whose first `}` after `g`'s first character closes it. */
  lemma BraceSpanAt(pre: string, g: string, post: string)
    requires '{' !in pre && |g| >= 1 && '}' !in g[1..]
    ensures BraceSpan(pre + "{" + g + "}" + post) == Some(g)
  {
    var s := pre + "{" + g + "}" + post;
    var u := g + ("}" + post);
    Regroup(pre, "{", g, "}", post);
    Slices(pre + "{", u);
    Slices(pre, "{");
    Slices(g, "}" + post);
    assert s[..|pre|] == (pre + "{")[..|pre|] == pre;
    assert s[|pre| + 1..][..|g|] == g;
    assert s[|pre| + 1..|pre| + 1 + |g|] == g;
    assert s[|pre| + 1 + |g|] == u[|g|] == '}';
    SpanDetermines(s, |pre|, g);
  }

  /**
   * A well-formed decision embedded in prose is read exactly: whatever precedes it
   * (without a `{`) and whatever follows it, the decision is the stripped "tool" and "arg" entries.
   */
  lemma {:induction false} DecisionInProse(pre: string, items: seq<(string, string)>, post: string)
    requires '{' !in pre && items != [] && AllPlain(items)
    requires forall k | 0 <= k < |items| :: '}' !in items[k].0 && '}' !in items[k].1
    ensures ParseDecision(pre + Render(items) + post)
         == Decision(Strip(Get(items, "tool")), Strip(Get(items, "arg")))
  {
    var body := RenderItems(items);
    RenderedItemsNoClose(items);
    RenderedItemsShape(items);
    assert pre + Render(items) + post == pre + "{" + body + "}" + post;
    BraceSpanAt(pre, body, post);
    ParseRendered(items);
    ReadSpan(pre + Render(items) + post, body, items);
  }

  /** Rendered entries start with a quote, so the span's group is never empty and its tail lacks what it lacks. */
  lemma RenderedItemsShape(items: seq<(string, string)>)
    requires items != [] && '}' !in RenderItems(items)
    ensures |RenderItems(items)| >= 1 && '}' !in RenderItems(items)[1..]
  {
    var body := RenderItems(items);
    assert body[0] == '"';
    forall k | 0 <= k < |body| - 1 ensures body[1..][k] != '}' {
      assert body[1..][k] == body[k + 1];
    }
  }

  /** Once the span and the literal are read, the decision is the stripped "tool" and "arg" entries. */
  lemma ReadSpan(reply: string, g: string, items: seq<(string, string)>)
    requires BraceSpan(reply) == Some(g) && ParseDictLiteral("{" + g + "}") == Some(items)
    ensures ParseDecision(reply) == Decision(Strip(Get(items, "tool")), Strip(Get(items, "arg")))
  {
  }

  /** A reply without any `{` is unreadable. */
  lemma NoBraceUnreadable(reply: string)
    requires '{' !in reply
    ensures ParseDecision(reply) == Unreadable
  {
  }

  /** A value literal cut before its closing quote ends the entry in a failure. */
  lemma UnterminatedEntry(key: string, a: string)
    requires PlainText(key) && PlainText(a) && '}' !in a
    ensures ParseEntry(Quoted(key) + (": " + ("\"" + a + "}"))) == None
  {
    var cut := "\"" + a + "}";
    var colon := ": " + cut;
    var t := Quoted(key) + colon;
    SkipBlanksNonBlank(t);
    ParseQuoted(key, colon);
    SkipBlanksNonBlank(colon);
    SkipOneBlank(colon[1..], cut);
    assert cut[1..] == a + "}";
    assert ParseString(cut) == None;
  }

  /** A value literal cut before its closing quote cannot be read. */
  lemma UnterminatedValue(key: string, a: string)
    requires PlainText(key) && PlainText(a) && '}' !in a
    ensures ParseItems(Quoted(key) + (": " + ("\"" + a + "}"))) == None
  {
    var t := Quoted(key) + (": " + ("\"" + a + "}"));
    SkipBlanksNonBlank(t);
    UnterminatedEntry(key, a);
  }

  /**
   * The span stops at the first `}`: when the tool name in an otherwise well-formed reply
   * contains a `}`, the literal is cut inside that name and the whole reply is unreadable.
   */
  lemma {:induction false} BraceInsideToolNameUnreadable(a: string, b: string)
    requires PlainText(a) && '}' !in a
    ensures ParseDecision("{" + Quoted("tool") + ": \"" + a + "}" + b) == Unreadable
  {
    var g := Quoted("tool") + ": \"" + a;
    assert "{" + Quoted("tool") + ": \"" + a + "}" + b == "" + "{" + g + "}" + b;
    assert '}' !in g[1..] by {
      assert g[1..] == "tool\": \"" + a;
    }
    BraceSpanAt("", g, b);
    assert ("{" + g + "}")[1..] == Quoted("tool") + (": " + ("\"" + a + "}"));
    UnterminatedValue("tool", a);
  }
}
