/**
 * The dynamic tool store tools/dynamic_tools.py, modelled as its text. The
 * agent decides whether a tool is already defined there with the regular
 * expression `(?:^|\n)\s*@tool(?:\s*\(.*?\))?\s*\ndef\s+NAME\(` (MULTILINE,
 * NAME escaped), and `handle_generated_tool` rewrites the file with the old
 * text, followed by a blank line and the generated code, unless the name is
 * already defined.
 */
module Store {
  import opened Text

  /** The text `load_dynamic_tools` writes when the store does not exist (agent/agent_graph.py). */
  const CreatePreamble: string :=
    "\n"
    + "# open_ldap_files/tools/dynamic_tools.py\n"
    + "\n"
    + "import os\n"
    + "from dotenv import load_dotenv\n"
    + "from ldap3 import Server, Connection, ALL_ATTRIBUTES, SUBTREE\n"
    + "from langchain_core.tools import tool # Importante para que el @tool funcione\n"
    + "import ldap3.core.exceptions\n"
    + "import re # Necesario para parsing en herramientas generadas\n"
    + "\n"
    + "load_dotenv(dotenv_path=os.path.abspath(os.path.join(os.path.dirname(__file__), '..', '..', '.env')))\n"
    + "\n"
    + "LDAP_HOST = os.getenv(\"LDAP_HOST\")\n"
    + "LDAP_BIND_DN = os.getenv(\"LDAP_BIND_DN\")\n"
    + "LDAP_BIND_PASSWORD = os.getenv(\"LDAP_BIND_PASSWORD\")\n"
    + "LDAP_USERS_BASE_DN = os.getenv(\"LDAP_USERS_BASE_DN\")\n"
    + "LDAP_GROUPS_BASE_DN = os.getenv(\"LDAP_GROUPS_BASE_DN\")\n"
    + "\n"
    + "# Aquí es donde se añadirán las herramientas generadas dinámicamente.\n"

  /** The text `reset_dynamic_tools_file` writes (reset_dynamic_tools.py); it is also the shipped tools/dynamic_tools.py. */
  const ResetPreamble: string :=
    "\n"
    + "import os\n"
    + "from dotenv import load_dotenv\n"
    + "from ldap3 import Server, Connection, ALL_ATTRIBUTES, SUBTREE\n"
    + "from langchain_core.tools import tool, Tool \n"
    + "import ldap3.core.exceptions \n"
    + "import re \n"
    + "\n"
    + "# Cargar variables de entorno\n"
    + "load_dotenv(dotenv_path=os.path.abspath(os.path.join(os.path.dirname(__file__), '..', '..', '.env')))\n"
    + "\n"
    + "LDAP_HOST = os.getenv(\"LDAP_HOST\")\n"
    + "LDAP_BIND_DN = os.getenv(\"LDAP_BIND_DN\")\n"
    + "LDAP_BIND_PASSWORD = os.getenv(\"LDAP_BIND_PASSWORD\")\n"
    + "LDAP_USERS_BASE_DN = os.getenv(\"LDAP_USERS_BASE_DN\")\n"
    + "LDAP_GROUPS_BASE_DN = os.getenv(\"LDAP_GROUPS_BASE_DN\")\n"
    + "\n"
    + "# Aca se agregan las herramientas generadas dinamicamente.\n"

  /** No line break in `s[lo..hi]` (what `.` matches without DOTALL). */
  predicate NoNewline(s: string, lo: int, hi: int)
    requires 0 <= lo <= hi <= |s|
  {
    forall k | lo <= k < hi :: s[k] != '\n'
  }

  /** `p` is a line start and `s[p..q]` is white space: `(?:^|\n)\s*` ends at `q`. */
  predicate Indented(s: string, p: int, q: int) {
    0 <= p <= q <= |s| && (p == 0 || s[p - 1] == '\n') && AllSpace(s, p, q)
  }

  /**
   * `@tool` at `q`, then either nothing (`e == q + 5`, and `i` is `e` by convention)
   * or white space up to `(` at `i`, text without a line break, and `)` at `e - 1`.
   */
  predicate DecoratorAt(s: string, q: int, i: int, e: int) {
    0 <= q && q + 5 <= e <= |s| && s[q..q + 5] == "@tool"
    && ((e == q + 5 && i == e)
        || (q + 5 <= i < e - 1 && AllSpace(s, q + 5, i) && s[i] == '(' && NoNewline(s, i + 1, e - 1) && s[e - 1] == ')'))
  }

  /** White space from `e` to the line break at `b`, `def`, at least one white-space character up to `v`, `name`, `(`. */
  predicate DefLineAt(s: string, name: string, e: int, b: int, v: int) {
    0 <= e <= b && b + 4 < v && v + |name| < |s|
    && AllSpace(s, e, b) && s[b] == '\n' && s[b + 1..b + 4] == "def"
    && AllSpace(s, b + 4, v) && s[v..v + |name|] == name && s[v + |name|] == '('
  }

  /** One match of the definition pattern for `name`, given by its positions. */
  predicate MatchAt(s: string, name: string, p: int, q: int, i: int, e: int, b: int, v: int) {
    Indented(s, p, q) && DecoratorAt(s, q, i, e) && DefLineAt(s, name, e, b, v)
  }

  /** `re.search(...)` finds a definition of `name` in the store text `s`. */
  predicate DefinesTool(s: string, name: string) {
    exists p, q, i, e, b, v
      | 0 <= p < |s| && 0 <= q < |s| && 0 <= i < |s| && 0 <= e < |s| && 0 <= b < |s| && 0 <= v < |s|
      :: MatchAt(s, name, p, q, i, e, b, v)
  }

  /** A match stays a match, at the same positions, when text is added after it. */
  lemma MatchExtends(s: string, t: string, name: string, p: int, q: int, i: int, e: int, b: int, v: int)
    requires MatchAt(s, name, p, q, i, e, b, v)
    ensures MatchAt(s + t, name, p, q, i, e, b, v)
  {
    var st := s + t;
    assert forall k | 0 <= k < |s| :: st[k] == s[k];
    assert st[q..q + 5] == s[q..q + 5];
    assert st[b + 1..b + 4] == s[b + 1..b + 4];
    assert st[v..v + |name|] == s[v..v + |name|];
  }

  /** A definition in the store stays found whatever is written after it. */
  lemma DefinesToolExtends(s: string, t: string, name: string)
    requires DefinesTool(s, name)
    ensures DefinesTool(s + t, name)
  {
    var p, q, i, e, b, v :| MatchAt(s, name, p, q, i, e, b, v);
    MatchExtends(s, t, name, p, q, i, e, b, v);
  }

  /** `w` ends with `code`, which starts right after a line break at `d - 1`. */
  predicate EndsWithLine(w: string, code: string, d: int) {
    1 <= d && |w| == d + |code| && w[d..] == code && w[d - 1] == '\n'
  }

  lemma SliceShift(w: string, code: string, d: int, lo: int, hi: int)
    requires EndsWithLine(w, code, d) && 0 <= lo <= hi <= |code|
    ensures w[lo + d..hi + d] == code[lo..hi]
    ensures AllSpace(code, lo, hi) ==> AllSpace(w, lo + d, hi + d)
    ensures NoNewline(code, lo, hi) ==> NoNewline(w, lo + d, hi + d)
  {
    assert forall k | lo <= k < hi :: w[k + d] == code[k] by {
      forall k | lo <= k < hi ensures w[k + d] == code[k] {
        assert w[d..][k] == code[k];
      }
    }
  }

  lemma IndentedShifts(w: string, code: string, d: int, p: int, q: int)
    requires EndsWithLine(w, code, d) && Indented(code, p, q)
    ensures Indented(w, p + d, q + d)
  {
    SliceShift(w, code, d, p, q);
    if p > 0 {
      SliceShift(w, code, d, p - 1, p);
    }
  }

  lemma DecoratorShifts(w: string, code: string, d: int, q: int, i: int, e: int)
    requires EndsWithLine(w, code, d) && DecoratorAt(code, q, i, e)
    ensures DecoratorAt(w, q + d, i + d, e + d)
  {
    SliceShift(w, code, d, q, q + 5);
    if e != q + 5 {
      SliceShift(w, code, d, q + 5, i + 1);
      SliceShift(w, code, d, i + 1, e - 1);
      SliceShift(w, code, d, e - 1, e);
    }
  }

  lemma DefLineShifts(w: string, code: string, d: int, name: string, e: int, b: int, v: int)
    requires EndsWithLine(w, code, d) && DefLineAt(code, name, e, b, v)
    ensures DefLineAt(w, name, e + d, b + d, v + d)
  {
    SliceShift(w, code, d, e, b + 1);
    SliceShift(w, code, d, b + 1, b + 4);
    SliceShift(w, code, d, b + 4, v);
    SliceShift(w, code, d, v, v + |name|);
    SliceShift(w, code, d, v + |name|, v + |name| + 1);
  }

  /** A match in `code` is a match in `w` shifted by `d`: the line break before `code` makes its start a line start. */
  lemma MatchShifts(w: string, code: string, d: int, name: string, p: int, q: int, i: int, e: int, b: int, v: int)
    requires EndsWithLine(w, code, d)
    requires MatchAt(code, name, p, q, i, e, b, v)
    ensures MatchAt(w, name, p + d, q + d, i + d, e + d, b + d, v + d)
  {
    IndentedShifts(w, code, d, p, q);
    DecoratorShifts(w, code, d, q, i, e);
    DefLineShifts(w, code, d, name, e, b, v);
  }

  /** Code that defines `name` still defines it once appended after a blank line. */
  lemma DefinesToolAppended(s: string, code: string, name: string)
    requires DefinesTool(code, name)
    ensures DefinesTool(s + "\n\n" + code, name)
  {
    var w := s + "\n\n" + code;
    var d := |s| + 2;
    assert EndsWithLine(w, code, d);
    var p, q, i, e, b, v :| MatchAt(code, name, p, q, i, e, b, v);
    MatchShifts(w, code, d, name, p, q, i, e, b, v);
  }

  /** The text `handle_generated_tool` writes back: unchanged if `name` is defined, otherwise the code after a blank line. */
  function AppendIfAbsent(current: string, name: string, code: string): (r: string)
    ensures current <= r
    ensures DefinesTool(current, name) ==> r == current
    ensures !DefinesTool(current, name) ==> r[|current|..] == "\n\n" + code
  {
    if DefinesTool(current, name) then current
    else
      var r := current + "\n\n" + code;
      assert r[|current|..] == "\n\n" + code;
      r
  }

  /** After the write, `name` is defined whenever it was before or the code defines it. */
  lemma AppendDefines(current: string, name: string, code: string)
    requires DefinesTool(current, name) || DefinesTool(code, name)
    ensures DefinesTool(AppendIfAbsent(current, name, code), name)
  {
    if !DefinesTool(current, name) {
      DefinesToolAppended(current, code, name);
    }
  }

  /** Every tool defined before the write is still defined after it. */
  lemma AppendKeepsDefinitions(current: string, name: string, code: string, other: string)
    requires DefinesTool(current, other)
    ensures DefinesTool(AppendIfAbsent(current, name, code), other)
  {
    if !DefinesTool(current, name) {
      DefinesToolExtends(current, "\n\n" + code, other);
      assert current + ("\n\n" + code) == current + "\n\n" + code;
    }
  }

  /** When the code defines the requested name, writing it a second time changes nothing. */
  lemma AppendIdempotent(current: string, name: string, code: string)
    requires DefinesTool(code, name)
    ensures AppendIfAbsent(AppendIfAbsent(current, name, code), name, code) == AppendIfAbsent(current, name, code)
  {
    AppendDefines(current, name, code);
  }

  /** The plain layout of a decorated tool function, at the start of the code, is recognised as a definition of its name. */
  lemma PlainDefinition(name: string, rest: string)
    ensures DefinesTool("@tool\ndef " + name + "(" + rest, name)
  {
    var s := "@tool\ndef " + name + "(" + rest;
    assert s[0..5] == "@tool" && s[5] == '\n' && s[6..9] == "def" && s[9] == ' ';
    assert s[10..10 + |name|] == name && s[10 + |name|] == '(';
    assert MatchAt(s, name, 0, 0, 5, 5, 5, 10);
  }
}
