/**
 * The tool registry `tools_dict` of agent/agent_graph.py: a Python dict from
 * tool name to tool object, which keeps insertion order. It is modelled as
 * the sequence of its entries in that order; the dict's key uniqueness is the
 * invariant `UniqueNames`. A tool object is known to the agent only through
 * its name, its description and the parameter names that `inspect.signature`
 * reports for it.
 */
module Registry {
  import opened Values

  /** What the agent reads off a tool object. */
  datatype Tool = Tool(name: string, description: string, params: seq<string>)

  /** The keys of the dict. */
  function Names(ts: seq<Tool>): set<string> {
    set k | 0 <= k < |ts| :: ts[k].name
  }

  /** The keys of a non-empty registry: its first key and the keys of the rest. */
  lemma NamesCons(ts: seq<Tool>)
    requires ts != []
    ensures Names(ts) == {ts[0].name} + Names(ts[1..])
  {
    forall n | n in Names(ts) ensures n in {ts[0].name} + Names(ts[1..]) {
      var k :| 0 <= k < |ts| && ts[k].name == n;
      if k > 0 { assert ts[1..][k - 1].name == n; }
    }
    forall n | n in Names(ts[1..]) ensures n in Names(ts) {
      var k :| 0 <= k < |ts[1..]| && ts[1..][k].name == n;
      assert ts[k + 1].name == n;
    }
  }

  /** No key occurs twice: the dict invariant. */
  predicate UniqueNames(ts: seq<Tool>) {
    forall i, j | 0 <= i < j < |ts| :: ts[i].name != ts[j].name
  }

  /** Position of the entry whose key is `name`. */
  function IndexOf(ts: seq<Tool>, name: string): (r: Option<nat>)
    ensures r.Some? ==> r.value < |ts| && ts[r.value].name == name
    ensures r.Some? ==> forall k | 0 <= k < r.value :: ts[k].name != name
    ensures r.None? <==> name !in Names(ts)
  {
    if ts == [] then None
    else if ts[0].name == name then Some(0)
    else
      match IndexOf(ts[1..], name)
      case None =>
        NamesCons(ts);
        None
      case Some(k) => Some(k + 1)
  }

  /** `tools_dict.get(name)`. */
  function Lookup(ts: seq<Tool>, name: string): (r: Option<Tool>)
    ensures r.Some? <==> name in Names(ts)
    ensures r.Some? ==> r.value.name == name && r.value in ts
  {
    match IndexOf(ts, name)
    case None => None
    case Some(k) => Some(ts[k])
  }

  /** `tools_dict[t.name] = t`: overwrite in place when the key exists, append otherwise. */
  function Put(ts: seq<Tool>, t: Tool): (r: seq<Tool>)
    requires UniqueNames(ts)
    ensures Names(r) == Names(ts) + {t.name}
    ensures t.name !in Names(ts) ==> r == ts + [t]
    ensures t.name in Names(ts) ==>
      |r| == |ts| && forall k | 0 <= k < |ts| :: r[k] == if ts[k].name == t.name then t else ts[k]
  {
    match IndexOf(ts, t.name)
    case None =>
      assert Names(ts + [t]) == Names(ts) + {t.name} by {
        assert forall k | 0 <= k < |ts| :: (ts + [t])[k] == ts[k];
        assert (ts + [t])[|ts|] == t;
      }
      ts + [t]
    case Some(k) =>
      var r := ts[k := t];
      assert forall j | 0 <= j < |ts| :: ts[j].name == t.name ==> j == k;
      assert Names(r) == Names(ts) + {t.name} by {
        forall n | n in Names(ts) ensures n in Names(r) {
          var j :| 0 <= j < |ts| && ts[j].name == n;
          assert r[j].name == n;
        }
        assert r[k].name == t.name;
      }
      PutInPlace(ts, t, k);
      r
  }

  /** The overwrite of `Put` as seen entry by entry (with a unique key it is the only match). */
  lemma PutInPlace(ts: seq<Tool>, t: Tool, k: nat)
    requires IndexOf(ts, t.name) == Some(k)
    ensures forall j | 0 <= j < |ts| && ts[j].name != t.name :: ts[k := t][j] == ts[j]
    ensures ts[k := t][k] == t
  {
  }

  /** `Put` keeps keys unique, stores `t` under its name, and leaves every other key's tool alone. */
  lemma {:induction false} PutSpec(ts: seq<Tool>, t: Tool)
    requires UniqueNames(ts)
    ensures UniqueNames(Put(ts, t))
    ensures Lookup(Put(ts, t), t.name) == Some(t)
    ensures forall n | n != t.name :: Lookup(Put(ts, t), n) == Lookup(ts, n)
  {
    var r := Put(ts, t);
    if t.name in Names(ts) {
      var k := IndexOf(ts, t.name).value;
      assert forall j | 0 <= j < |ts| && j != k :: ts[j].name != t.name;
      assert forall j | 0 <= j < |ts| :: r[j] == (if j == k then t else ts[j]);
      assert UniqueNames(r);
      LookupUnique(r, t, k);
      forall n | n != t.name ensures Lookup(r, n) == Lookup(ts, n) {
        SameLookupOtherKey(ts, r, n);
      }
    } else {
      assert r == ts + [t];
      assert UniqueNames(r);
      LookupUnique(r, t, |ts|);
      forall n | n != t.name ensures Lookup(r, n) == Lookup(ts, n) {
        SameLookupOtherKey(ts, r, n);
      }
    }
  }

  /** With unique keys, the entry at position `k` is what `Lookup` finds under its name. */
  lemma LookupUnique(ts: seq<Tool>, t: Tool, k: nat)
    requires UniqueNames(ts) && k < |ts| && ts[k] == t
    ensures Lookup(ts, t.name) == Some(t)
  {
    var r := IndexOf(ts, t.name);
    assert r.Some?;
    assert r.value == k;
  }

  /** Two registries that agree on every position holding `n` agree on `Lookup(_, n)`. */
  lemma {:induction false} SameLookupOtherKey(ts: seq<Tool>, us: seq<Tool>, n: string)
    requires |ts| <= |us|
    requires forall j | 0 <= j < |ts| :: (ts[j].name == n || us[j].name == n) ==> us[j] == ts[j]
    requires forall j | |ts| <= j < |us| :: us[j].name != n
    ensures Lookup(us, n) == Lookup(ts, n)
  {
    if ts == [] {
      assert n !in Names(us);
    } else if ts[0].name != n {
      assert us[0].name != n;
      SameLookupOtherKey(ts[1..], us[1..], n);
    }
  }

  /** `if t.name not in tools_dict: tools_dict[t.name] = t`. */
  function AddIfAbsent(ts: seq<Tool>, t: Tool): (r: seq<Tool>)
    requires UniqueNames(ts)
    ensures UniqueNames(r)
    ensures Names(r) == Names(ts) + {t.name}
    ensures t.name in Names(ts) ==> r == ts
    ensures t.name !in Names(ts) ==> r == ts + [t]
  {
    if t.name in Names(ts) then ts
    else
      assert forall i | 0 <= i < |ts| :: ts[i].name in Names(ts);
      Put(ts, t)
  }

  /** The loop of `load_dynamic_tools`: each loaded tool whose name is new is added, in order. */
  function AddAllAbsent(ts: seq<Tool>, loaded: seq<Tool>): seq<Tool>
    requires UniqueNames(ts)
    decreases |loaded|
  {
    if loaded == [] then ts else AddAllAbsent(AddIfAbsent(ts, loaded[0]), loaded[1..])
  }

  /** Adding loaded tools only appends: what was registered stays, at the same place. */
  lemma {:induction false} AddAllAbsentExtends(ts: seq<Tool>, loaded: seq<Tool>)
    requires UniqueNames(ts)
    ensures ts <= AddAllAbsent(ts, loaded)
    ensures UniqueNames(AddAllAbsent(ts, loaded))
    ensures Names(AddAllAbsent(ts, loaded)) == Names(ts) + Names(loaded)
    decreases |loaded|
  {
    if loaded != [] {
      var next := AddIfAbsent(ts, loaded[0]);
      AddAllAbsentExtends(next, loaded[1..]);
      NamesCons(loaded);
    }
  }

  /** A name already registered keeps its tool however many tools a load finds: built-ins are never replaced. */
  lemma AddAllAbsentKeepsExisting(ts: seq<Tool>, loaded: seq<Tool>, n: string)
    requires UniqueNames(ts) && n in Names(ts)
    ensures Lookup(AddAllAbsent(ts, loaded), n) == Lookup(ts, n)
  {
    AddAllAbsentExtends(ts, loaded);
    var r := AddAllAbsent(ts, loaded);
    var k := IndexOf(ts, n).value;
    assert r[k] == ts[k];
    LookupUnique(r, ts[k], k);
    LookupUnique(ts, ts[k], k);
  }

  /** A name not yet registered ends up mapped to the first loaded tool of that name (`Lookup` finds the first). */
  lemma {:induction false} AddAllAbsentNew(ts: seq<Tool>, loaded: seq<Tool>, n: string)
    requires UniqueNames(ts) && n !in Names(ts)
    ensures Lookup(AddAllAbsent(ts, loaded), n) == Lookup(loaded, n)
    decreases |loaded|
  {
    if loaded != [] {
      var next := AddIfAbsent(ts, loaded[0]);
      if loaded[0].name == n {
        PutSpec(ts, loaded[0]);
        AddAllAbsentKeepsExisting(next, loaded[1..], n);
      } else {
        AddAllAbsentNew(next, loaded[1..], n);
      }
    }
  }

  /** A load that finds only names already registered leaves the registry as it was. */
  lemma {:induction false} AddAllAbsentKnown(ts: seq<Tool>, loaded: seq<Tool>)
    requires UniqueNames(ts)
    requires forall k | 0 <= k < |loaded| :: loaded[k].name in Names(ts)
    ensures AddAllAbsent(ts, loaded) == ts
    decreases |loaded|
  {
    if loaded != [] {
      assert AddIfAbsent(ts, loaded[0]) == ts;
      assert forall k | 0 <= k < |loaded[1..]| :: loaded[1..][k] == loaded[k + 1];
      AddAllAbsentKnown(ts, loaded[1..]);
    }
  }

  /** The names of the seven built-in tools of tools/user_tools.py, in the order `initialize_static_tools` lists them. */
  const StaticNameList: seq<string> := [
    "get_all_usernames_tool", "get_user_attributes_tool", "get_group_names_tool",
    "get_current_user_info_tool", "get_user_groups_tool", "enumerate_group_members_tool",
    "get_user_email_tool"]

  /** Their descriptions (the docstrings) and declared parameters, position by position. */
  const StaticDescriptions: seq<string> := [
    "Devuelve los uid (nombres de usuario) de todos los usuarios del dominio.",
    "Dado un uid, devuelve todos los atributos disponibles de ese usuario.",
    "Devuelve los nombres (cn) de todos los grupos del dominio.",
    "Recupera los atributos para el usuario actual (la cuenta utilizada para vincularse a LDAP).\n"
      + "Si se proporciona 'field', devuelve solo el valor de ese atributo específico (ej., 'mail', 'gidNumber').\n"
      + "De lo contrario, devuelve todos los atributos como un diccionario.",
    "Dado un uid (nombre de usuario), devuelve los nombres de los grupos a los que pertenece ese usuario.",
    "Dado el nombre común (cn) de un grupo, devuelve una lista de los DNs de sus miembros.\n"
      + "Útil para identificar usuarios dentro de grupos específicos, especialmente grupos privilegiados.",
    "Dado un uid (nombre de usuario), devuelve la dirección de correo electrónico del usuario."]

  const StaticParams: seq<seq<string>> := [[], ["uid"], [], ["field"], ["uid"], ["group_name"], ["uid"]]

  /** The registry right after bootstrap (`initialize_static_tools`) or after a reset. */
  const StaticTools: seq<Tool> :=
    [ Tool(StaticNameList[0], StaticDescriptions[0], StaticParams[0]),
      Tool(StaticNameList[1], StaticDescriptions[1], StaticParams[1]),
      Tool(StaticNameList[2], StaticDescriptions[2], StaticParams[2]),
      Tool(StaticNameList[3], StaticDescriptions[3], StaticParams[3]),
      Tool(StaticNameList[4], StaticDescriptions[4], StaticParams[4]),
      Tool(StaticNameList[5], StaticDescriptions[5], StaticParams[5]),
      Tool(StaticNameList[6], StaticDescriptions[6], StaticParams[6]) ]

  /** Position `k` of the built-in registry holds the `k`-th built-in name. */
  lemma StaticToolNames()
    ensures |StaticTools| == 7
    ensures forall k | 0 <= k < 7 :: StaticTools[k].name == StaticNameList[k]
  {
  }

  /** The built-in set is a valid dict: no name occurs twice. */
  lemma StaticToolsUnique()
    ensures UniqueNames(StaticTools)
  {
    StaticToolNames();
    assert forall i, j | 0 <= i < j < 7 ::
      |StaticNameList[i]| != |StaticNameList[j]| || StaticNameList[i][4] != StaticNameList[j][4]
      || StaticNameList[i][9] != StaticNameList[j][9];
  }

  /** Neither the "no tool" sentinel nor the empty name of a failed parse is a built-in name. */
  lemma StaticToolsAvoidSentinels()
    ensures "ninguno" !in Names(StaticTools) && "" !in Names(StaticTools)
  {
    StaticToolNames();
    assert forall k | 0 <= k < 7 :: |StaticNameList[k]| > 7;
  }
}
