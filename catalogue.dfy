/**
 * The text that `get_available_tools_description` (agent/agent_graph.py)
 * builds from the registry and that the selection prompt embeds: one numbered
 * block per tool, in registry order, numbers starting at 1.
 */
module Catalogue {
  import opened Registry
  import opened Text

  /** The decimal digit for `d`. */
  function DigitChar(d: nat): (c: char)
    requires d < 10
    ensures '0' <= c <= '9'
  {
    ('0' as int + d) as char
  }

  /** Python's `str(n)` for a natural number. */
  function Decimal(n: nat): (r: string)
    ensures r != []
    ensures forall k | 0 <= k < |r| :: '0' <= r[k] <= '9'
    ensures n > 0 ==> r[0] != '0'
  {
    if n < 10 then [DigitChar(n)] else Decimal(n / 10) + [DigitChar(n % 10)]
  }

  /** The value of a string of decimal digits. */
  function DigitsValue(s: string): nat
    requires forall k | 0 <= k < |s| :: '0' <= s[k] <= '9'
  {
    if s == [] then 0 else 10 * DigitsValue(s[..|s| - 1]) + (s[|s| - 1] as int - '0' as int)
  }

  /** The entry number can be read back from its text: distinct positions give distinct labels. */
  lemma {:induction false} DecimalRoundTrip(n: nat)
    ensures DigitsValue(Decimal(n)) == n
  {
    if n >= 10 {
      var r := Decimal(n);
      assert r[..|r| - 1] == Decimal(n / 10);
      DecimalRoundTrip(n / 10);
    }
  }

  /** The third line of an entry: the declared parameters, or that there are none. */
  function Requirement(params: seq<string>): string {
    if params != [] then "- Requiere argumento: " + Join(params, ", ") else "- No requiere argumentos."
  }

  /** The block for one tool: number and name, usage line, parameter line, blank line. */
  function Entry(number: nat, t: Tool): string {
    Decimal(number) + ". " + t.name + ":\n"
    + "- Uso: " + t.description + "\n"
    + Requirement(t.params) + "\n\n"
  }

  /** The blocks of `ts`, numbered from `first` on. */
  function CatalogueFrom(ts: seq<Tool>, first: nat): string
    decreases |ts|
  {
    if ts == [] then "" else Entry(first, ts[0]) + CatalogueFrom(ts[1..], first + 1)
  }

  /** The whole description text of a registry. */
  function Catalogue(ts: seq<Tool>): string {
    CatalogueFrom(ts, 1)
  }

  /** One more tool at the end of the registry adds one block at the end, numbered after the others. */
  lemma {:induction false} CatalogueSnoc(ts: seq<Tool>, t: Tool, first: nat)
    ensures CatalogueFrom(ts + [t], first) == CatalogueFrom(ts, first) + Entry(first + |ts|, t)
    decreases |ts|
  {
    if ts == [] {
      assert [t][1..] == [];
    } else {
      assert (ts + [t])[1..] == ts[1..] + [t];
      CatalogueSnoc(ts[1..], t, first + 1);
    }
  }

  /** The catalogue of the first `k + 1` tools is that of the first `k` plus the block of tool `k`, numbered `k + 1`. */
  lemma CataloguePrefix(ts: seq<Tool>, k: nat)
    requires k < |ts|
    ensures CatalogueFrom(ts[..k + 1], 1) == CatalogueFrom(ts[..k], 1) + Entry(k + 1, ts[k])
  {
    assert ts[..k + 1] == ts[..k] + [ts[k]];
    CatalogueSnoc(ts[..k], ts[k], 1);
  }

  /** The catalogue of a concatenation is the concatenation of the catalogues, numbering carried on. */
  lemma {:induction false} CatalogueAppend(ts: seq<Tool>, us: seq<Tool>, first: nat)
    ensures CatalogueFrom(ts + us, first) == CatalogueFrom(ts, first) + CatalogueFrom(us, first + |ts|)
    decreases |ts|
  {
    if ts == [] {
      assert ts + us == us;
    } else {
      assert (ts + us)[1..] == ts[1..] + us;
      CatalogueAppend(ts[1..], us, first + 1);
    }
  }

  /**
   * The tool at registry position `k` is described by the block numbered `k + 1`,
   * preceded by the blocks of the tools inserted before it and followed by those inserted after.
   */
  lemma CatalogueAt(ts: seq<Tool>, k: nat)
    requires k < |ts|
    ensures Catalogue(ts) == Catalogue(ts[..k]) + Entry(k + 1, ts[k]) + CatalogueFrom(ts[k + 1..], k + 2)
  {
    assert ts == ts[..k] + ([ts[k]] + ts[k + 1..]);
    CatalogueAppend(ts[..k], [ts[k]] + ts[k + 1..], 1);
    assert ([ts[k]] + ts[k + 1..])[1..] == ts[k + 1..];
  }
}
