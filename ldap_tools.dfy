/**
 * The seven built-in tools of tools/user_tools.py, with the LDAP server
 * abstracted: a `Directory` says how the connection attempt ends and what
 * each search returns. Every tool catches its own exceptions and reports a
 * handled failure as an error mapping `{"error": msg}`; what remains to model
 * is how the entries of a search are shaped into the tool's result.
 */
module LdapTools {
  import opened Values
  import opened Text

  /** The five environment variables the tools read; `None` when unset. */
  datatype Config = Config(
    host: Option<string>, bindDn: Option<string>, password: Option<string>,
    usersBase: Option<string>, groupsBase: Option<string>)

  /** A variable that is set and not empty (Python truthiness of the value). */
  predicate IsSet(o: Option<string>) {
    o.Some? && o.value != ""
  }

  /** An attribute of an entry with its values, already decoded to text. */
  datatype Attribute = Attribute(name: string, values: seq<string>)

  /** A search result entry: its DN and its attributes in `entry_attributes` order. */
  datatype Entry = Entry(dn: string, attrs: seq<Attribute>)

  /** The arguments of one `conn.search` call. */
  datatype Query = Query(base: Option<string>, filter: string, attributes: seq<string>)

  /** How `Server(...)` plus `Connection(..., auto_bind=True)` ends. */
  datatype Bind =
    | Bound
    | NotBound
    | SocketOpenError(detail: string)
    | BindError(detail: string)
    | Unexpected(detail: string)

  /** The server as the tools see it: the bind outcome and the answer to each search (or the text of what it raised). */
  datatype Directory = Directory(bind: Bind, search: Query -> Attempt<seq<Entry>>)

  /** Per-tool texts of the not-bound result and the prefix of the catch-all `except`. */
  datatype Messages = Messages(tool: string, notBound: string, unexpected: string)

  /** What the `try` block of a tool has after binding and one search: the entries, or the result it returns instead. */
  datatype Reply = Entries(entries: seq<Entry>) | Fails(result: Value)

  /** Bind, then search: the three `except` clauses and the `if not conn.bound` branch give error mappings. */
  function Run(d: Directory, q: Query, m: Messages): (r: Reply)
    ensures r.Fails? ==> IsError(r.result)
    ensures r.Entries? <==> d.bind == Bound && d.search(q).Done?
    ensures r.Entries? ==> r.entries == d.search(q).value
  {
    match d.bind
    case Bound => SearchAgain(d, q, m)
    case NotBound => Fails(ErrorMap(m.notBound))
    case SocketOpenError(e) => Fails(ErrorMap("Error de conexión LDAP para " + m.tool + ": " + e))
    case BindError(e) => Fails(ErrorMap("Error de autenticación LDAP para " + m.tool + ": " + e))
    case Unexpected(e) => Fails(ErrorMap(m.unexpected + e))
  }

  /** A further search on an open connection: a raised exception reaches the catch-all `except`. */
  function SearchAgain(d: Directory, q: Query, m: Messages): (r: Reply)
    ensures r.Fails? ==> IsError(r.result)
    ensures r.Entries? <==> d.search(q).Done?
    ensures r.Entries? ==> r.entries == d.search(q).value
  {
    match d.search(q)
    case Done(es) => Entries(es)
    case Raised(e) => Fails(ErrorMap(m.unexpected + e))
  }

  /** Position of the first attribute called `name`. */
  function FindAttr(attrs: seq<Attribute>, name: string): (r: Option<nat>)
    ensures r.Some? ==> r.value < |attrs| && attrs[r.value].name == name
    ensures r.None? ==> forall k | 0 <= k < |attrs| :: attrs[k].name != name
  {
    if attrs == [] then None
    else if attrs[0].name == name then Some(0)
    else
      match FindAttr(attrs[1..], name)
      case None => None
      case Some(k) => Some(k + 1)
  }

  /** `name in entry`. */
  predicate HasAttr(e: Entry, name: string) {
    FindAttr(e.attrs, name).Some?
  }

  /** ldap3's `Attribute.value`: `None` without values, the value itself when single, the list otherwise. */
  function AttrValue(values: seq<string>): (v: Value)
    ensures v == Null <==> values == []
    ensures !v.Dict?
    ensures Truthy(v) <==> values != [] && (|values| > 1 || values[0] != "")
  {
    if values == [] then Null
    else if |values| == 1 then Str(values[0])
    else StrList(values)
  }

  /** `entry.<name>.value` for an attribute the entry has. */
  function ValueOf(e: Entry, name: string): Value
    requires HasAttr(e, name)
  {
    AttrValue(e.attrs[FindAttr(e.attrs, name).value].values)
  }

  // ---------------------------------------------------------------------------
  // get_all_usernames_tool

  /** What one entry adds to `usernames`: its uid value when it has one and that value is truthy. */
  function UidOf(e: Entry): (r: seq<Value>)
    ensures |r| <= 1
    ensures r != [] ==> Truthy(r[0])
    ensures r == [] <==> !HasAttr(e, "uid") || !Truthy(ValueOf(e, "uid"))
    ensures r != [] ==> r[0] == ValueOf(e, "uid")
  {
    if HasAttr(e, "uid") && Truthy(ValueOf(e, "uid")) then [ValueOf(e, "uid")] else []
  }

  /** The uid values of the entries, in entry order, skipping entries without a truthy uid. */
  function Usernames(es: seq<Entry>): (r: seq<Value>)
    ensures |r| <= |es|
    ensures forall k | 0 <= k < |r| :: Truthy(r[k])
  {
    if es == [] then [] else Usernames(es[..|es| - 1]) + UidOf(es[|es| - 1])
  }

  /** The collection distributes over concatenation: entry order is kept. */
  lemma {:induction false} UsernamesAppend(a: seq<Entry>, b: seq<Entry>)
    ensures Usernames(a + b) == Usernames(a) + Usernames(b)
    decreases |b|
  {
    if b == [] {
      assert a + b == a;
    } else {
      var c := a + b;
      assert c[..|c| - 1] == a + b[..|b| - 1];
      assert c[|c| - 1] == b[|b| - 1];
      assert Usernames(c) == Usernames(a + b[..|b| - 1]) + UidOf(b[|b| - 1]);
      UsernamesAppend(a, b[..|b| - 1]);
      assert Usernames(b) == Usernames(b[..|b| - 1]) + UidOf(b[|b| - 1]);
    }
  }

  /** Every entry with a truthy uid contributes its value. */
  lemma {:induction false} UsernamesKeepsEvery(es: seq<Entry>, k: nat)
    requires k < |es| && HasAttr(es[k], "uid") && Truthy(ValueOf(es[k], "uid"))
    ensures ValueOf(es[k], "uid") in Usernames(es)
  {
    assert es == es[..k] + [es[k]] + es[k + 1..];
    UsernamesAppend(es[..k] + [es[k]], es[k + 1..]);
    UsernamesAppend(es[..k], [es[k]]);
    assert [es[k]][..0] == [];
  }

  /** Every collected name is the uid value of some entry that has a uid. */
  lemma {:induction false} UsernamesSound(es: seq<Entry>, k: nat)
    requires k < |Usernames(es)|
    ensures exists j | 0 <= j < |es| :: HasAttr(es[j], "uid") && Usernames(es)[k] == ValueOf(es[j], "uid")
  {
    var init := es[..|es| - 1];
    var e := es[|es| - 1];
    if k < |Usernames(init)| {
      UsernamesSound(init, k);
      var j :| 0 <= j < |init| && HasAttr(init[j], "uid") && Usernames(init)[k] == ValueOf(init[j], "uid");
      assert es[j] == init[j];
    } else {
      assert Usernames(es)[k] == UidOf(e)[0];
    }
  }

  /** The loop of `get_all_usernames_tool` over the search entries. */
  method CollectUsernames(es: seq<Entry>) returns (names: seq<Value>)
    ensures names == Usernames(es)
  {
    names := [];
    var k := 0;
    while k < |es|
      invariant 0 <= k <= |es|
      invariant names == Usernames(es[..k])
    {
      var e := es[k];
      if HasAttr(e, "uid") && Truthy(ValueOf(e, "uid")) {
        names := names + [ValueOf(e, "uid")];
      }
      assert es[..k + 1][..k] == es[..k];
      k := k + 1;
    }
    assert es[..k] == es;
  }

  const AllUsernamesMessages := Messages(
    "get_all_usernames_tool",
    "No se pudo realizar el bind para get_all_usernames_tool.",
    "Ocurrió un error inesperado al obtener nombres de usuario: ")

  function AllUsersQuery(cfg: Config): Query {
    Query(cfg.usersBase, "(objectClass=inetOrgPerson)", ["uid"])
  }

  /** `get_all_usernames_tool()`: a non-empty list of uids, never an empty list. */
  function AllUsernames(cfg: Config, d: Directory): (r: Value)
    ensures IsError(r) || (r.List? && r.items != [])
    ensures r.List? ==> forall k | 0 <= k < |r.items| :: Truthy(r.items[k])
    ensures r.List? <==> Run(d, AllUsersQuery(cfg), AllUsernamesMessages).Entries?
                         && Usernames(Run(d, AllUsersQuery(cfg), AllUsernamesMessages).entries) != []
    ensures r.List? ==> r.items == Usernames(Run(d, AllUsersQuery(cfg), AllUsernamesMessages).entries)
  {
    match Run(d, AllUsersQuery(cfg), AllUsernamesMessages)
    case Fails(v) => v
    case Entries(es) =>
      var names := Usernames(es);
      if names != [] then List(names) else ErrorMap("No se encontraron nombres de usuario.")
  }

  /** Every user found with a truthy uid is listed, and the answer is then a list. */
  lemma AllUsernamesKeepsEvery(cfg: Config, d: Directory, k: nat)
    requires Run(d, AllUsersQuery(cfg), AllUsernamesMessages).Entries?
    requires var es := Run(d, AllUsersQuery(cfg), AllUsernamesMessages).entries;
      k < |es| && HasAttr(es[k], "uid") && Truthy(ValueOf(es[k], "uid"))
    ensures var es := Run(d, AllUsersQuery(cfg), AllUsernamesMessages).entries;
      AllUsernames(cfg, d).List? && ValueOf(es[k], "uid") in AllUsernames(cfg, d).items
  {
    UsernamesKeepsEvery(Run(d, AllUsersQuery(cfg), AllUsernamesMessages).entries, k);
  }

  /** The tool body, with its loop. */
  method GetAllUsernames(cfg: Config, d: Directory) returns (r: Value)
    ensures r == AllUsernames(cfg, d)
  {
    var reply := Run(d, AllUsersQuery(cfg), AllUsernamesMessages);
    if reply.Fails? {
      return reply.result;
    }
    var names := CollectUsernames(reply.entries);
    if names != [] {
      r := List(names);
    } else {
      r := ErrorMap("No se encontraron nombres de usuario.");
    }
  }

  // ---------------------------------------------------------------------------
  // get_user_attributes_tool

  /** Host, bind DN, password and users base are all set. */
  predicate AttributesConfigured(cfg: Config) {
    IsSet(cfg.host) && IsSet(cfg.bindDn) && IsSet(cfg.password) && IsSet(cfg.usersBase)
  }

  function UserQuery(cfg: Config, uid: string, attributes: seq<string>): Query {
    Query(cfg.usersBase, "(uid=" + uid + ")", attributes)
  }

  function AttributesMessages(cfg: Config, uid: string): Messages
    requires cfg.bindDn.Some?
  {
    Messages(
      "get_user_attributes_tool",
      "No se pudo realizar el bind para el usuario '" + cfg.bindDn.value + "'.",
      "Ocurrió un error inesperado al obtener atributos del usuario " + uid + ": ")
  }

  /** The names of the attributes. */
  function AttrNames(attrs: seq<Attribute>): set<string> {
    set k | 0 <= k < |attrs| :: attrs[k].name
  }

  /** `user_attributes` after the inner loop over the first entry's attributes (a later name overwrites an earlier one). */
  function AttributeMap(attrs: seq<Attribute>): (m: map<string, Value>)
    ensures m.Keys == AttrNames(attrs)
  {
    if attrs == [] then map[]
    else
      var init := attrs[..|attrs| - 1];
      var last := attrs[|attrs| - 1];
      assert AttrNames(attrs) == AttrNames(init) + {last.name} by {
        assert forall k | 0 <= k < |init| :: attrs[k] == init[k];
      }
      AttributeMap(init)[last.name := AttrValue(last.values)]
  }

  /** Attribute `k` is the last one called by its name. */
  predicate LastNamed(attrs: seq<Attribute>, k: int) {
    0 <= k < |attrs| && forall j | k < j < |attrs| :: attrs[j].name != attrs[k].name
  }

  /** Each attribute not repeated later is stored under its name with ldap3's `.value` of its values. */
  lemma {:induction false} AttributeMapAt(attrs: seq<Attribute>, k: nat)
    requires LastNamed(attrs, k)
    ensures AttributeMap(attrs)[attrs[k].name] == AttrValue(attrs[k].values)
    decreases |attrs|
  {
    if k < |attrs| - 1 {
      AttributeMapAt(attrs[..|attrs| - 1], k);
    }
  }

  /** The inner loop of `get_user_attributes_tool`. */
  method CollectAttributes(attrs: seq<Attribute>) returns (m: map<string, Value>)
    ensures m == AttributeMap(attrs)
  {
    m := map[];
    var k := 0;
    while k < |attrs|
      invariant 0 <= k <= |attrs|
      invariant m == AttributeMap(attrs[..k])
    {
      m := m[attrs[k].name := AttrValue(attrs[k].values)];
      assert attrs[..k + 1][..k] == attrs[..k];
      k := k + 1;
    }
    assert attrs[..k] == attrs;
  }

  /** What the search entries become: the first entry's attributes, or an error naming the uid. */
  function AttributesOf(es: seq<Entry>, uid: string): (r: Value)
    ensures r.Dict?
    ensures es == [] ==> r == ErrorMap("No user found with uid: " + uid)
    ensures es != [] ==> r.fields.Keys == AttrNames(es[0].attrs)
    ensures es != [] ==> forall k | LastNamed(es[0].attrs, k) ::
      r.fields[es[0].attrs[k].name] == AttrValue(es[0].attrs[k].values)
  {
    if es == [] then ErrorMap("No user found with uid: " + uid)
    else
      var attrs := es[0].attrs;
      assert forall k | LastNamed(attrs, k) :: AttributeMap(attrs)[attrs[k].name] == AttrValue(attrs[k].values) by {
        forall k | LastNamed(attrs, k) ensures AttributeMap(attrs)[attrs[k].name] == AttrValue(attrs[k].values) {
          AttributeMapAt(attrs, k);
        }
      }
      Dict(AttributeMap(attrs))
  }

  /** `get_user_attributes_tool(uid)`: a dict, either the user's attributes or an error mapping. */
  function UserAttributes(cfg: Config, d: Directory, uid: string): (r: Value)
    ensures r.Dict?
    ensures !AttributesConfigured(cfg) ==> IsError(r)
    ensures AttributesConfigured(cfg) ==>
      var reply := Run(d, UserQuery(cfg, uid, ["*"]), AttributesMessages(cfg, uid));
      (reply.Fails? ==> IsError(r)) && (reply.Entries? ==> r == AttributesOf(reply.entries, uid))
  {
    if !AttributesConfigured(cfg) then ErrorMap("Variables de entorno LDAP no completamente configuradas.")
    else
      match Run(d, UserQuery(cfg, uid, ["*"]), AttributesMessages(cfg, uid))
      case Fails(v) => v
      case Entries(es) => AttributesOf(es, uid)
  }

  /** Only the first entry of the search contributes; any further entries are ignored. */
  lemma FirstEntryOnly(e: Entry, rest1: seq<Entry>, rest2: seq<Entry>, uid: string)
    ensures AttributesOf([e] + rest1, uid) == AttributesOf([e] + rest2, uid)
  {
  }

  /** Without the four variables the tool answers without looking at the directory at all. */
  lemma UnconfiguredNeverConnects(cfg: Config, d1: Directory, d2: Directory, uid: string)
    requires !AttributesConfigured(cfg)
    ensures UserAttributes(cfg, d1, uid) == UserAttributes(cfg, d2, uid)
  {
  }

  /** The tool body: the outer loop stops after the first entry, the inner loop collects its attributes. */
  method GetUserAttributes(cfg: Config, d: Directory, uid: string) returns (r: Value)
    ensures r == UserAttributes(cfg, d, uid)
  {
    if !AttributesConfigured(cfg) {
      return ErrorMap("Variables de entorno LDAP no completamente configuradas.");
    }
    var reply := Run(d, UserQuery(cfg, uid, ["*"]), AttributesMessages(cfg, uid));
    if reply.Fails? {
      return reply.result;
    }
    if reply.entries == [] {
      return ErrorMap("No user found with uid: " + uid);
    }
    var m := CollectAttributes(reply.entries[0].attrs);
    r := Dict(m);
  }

  // ---------------------------------------------------------------------------
  // get_group_names_tool and the group list of get_user_groups_tool

  /** `[entry.cn.value for entry in entries if 'cn' in entry]`: no truthiness test, unlike the uid loop. */
  function CnValues(es: seq<Entry>): (r: seq<Value>)
    ensures |r| <= |es|
  {
    if es == [] then []
    else (if HasAttr(es[0], "cn") then [ValueOf(es[0], "cn")] else []) + CnValues(es[1..])
  }

  /** When every entry has a `cn`, every entry contributes exactly one value, even an empty one. */
  lemma {:induction false} CnValuesAll(es: seq<Entry>)
    requires forall k | 0 <= k < |es| :: HasAttr(es[k], "cn")
    ensures |CnValues(es)| == |es|
    ensures forall k | 0 <= k < |es| :: CnValues(es)[k] == ValueOf(es[k], "cn")
  {
    if es != [] {
      CnValuesAll(es[1..]);
    }
  }

  /** Collecting cn values distributes over concatenation: entry order is kept. */
  lemma {:induction false} CnValuesAppend(a: seq<Entry>, b: seq<Entry>)
    ensures CnValues(a + b) == CnValues(a) + CnValues(b)
    decreases |a|
  {
    if a != [] {
      assert (a + b)[1..] == a[1..] + b;
      CnValuesAppend(a[1..], b);
    } else {
      assert a + b == b;
    }
  }

  /** An entry without a cn adds nothing; an entry with one adds exactly its value. */
  lemma CnValuesOne(e: Entry)
    ensures !HasAttr(e, "cn") ==> CnValues([e]) == []
    ensures HasAttr(e, "cn") ==> CnValues([e]) == [ValueOf(e, "cn")]
  {
    assert [e][1..] == [];
  }

  /** Every entry with a cn contributes its value. */
  lemma {:induction false} CnValuesKeepsEvery(es: seq<Entry>, k: nat)
    requires k < |es| && HasAttr(es[k], "cn")
    ensures ValueOf(es[k], "cn") in CnValues(es)
    decreases k
  {
    var head := if HasAttr(es[0], "cn") then [ValueOf(es[0], "cn")] else [];
    assert CnValues(es) == head + CnValues(es[1..]);
    if k == 0 {
      assert CnValues(es)[0] == ValueOf(es[0], "cn");
    } else {
      assert es[1..][k - 1] == es[k];
      CnValuesKeepsEvery(es[1..], k - 1);
      var i :| 0 <= i < |CnValues(es[1..])| && CnValues(es[1..])[i] == ValueOf(es[k], "cn");
      assert CnValues(es)[|head| + i] == ValueOf(es[k], "cn");
    }
  }

  /** Every collected cn value is the value of some entry that has a cn. */
  lemma {:induction false} CnValuesSound(es: seq<Entry>, k: nat)
    requires k < |CnValues(es)|
    ensures exists j | 0 <= j < |es| :: HasAttr(es[j], "cn") && CnValues(es)[k] == ValueOf(es[j], "cn")
  {
    var head := if HasAttr(es[0], "cn") then [ValueOf(es[0], "cn")] else [];
    if k < |head| {
      assert CnValues(es)[k] == ValueOf(es[0], "cn");
    } else {
      CnValuesSound(es[1..], k - |head|);
      var j :| 0 <= j < |es[1..]| && HasAttr(es[1..][j], "cn") && CnValues(es[1..])[k - |head|] == ValueOf(es[1..][j], "cn");
      assert es[j + 1] == es[1..][j];
    }
  }

  const GroupNamesMessages := Messages(
    "get_group_names_tool",
    "No se pudo realizar el bind para get_group_names_tool.",
    "Ocurrió un error inesperado al obtener nombres de grupo: ")

  function AllGroupsQuery(cfg: Config): Query {
    Query(cfg.groupsBase, "(objectClass=groupOfNames)", ["cn"])
  }

  /** `get_group_names_tool()`: a non-empty list of cn values, or an error mapping. */
  function GroupNames(cfg: Config, d: Directory): (r: Value)
    ensures IsError(r) || (r.List? && r.items != [])
    ensures r.List? <==> Run(d, AllGroupsQuery(cfg), GroupNamesMessages).Entries?
                         && CnValues(Run(d, AllGroupsQuery(cfg), GroupNamesMessages).entries) != []
    ensures r.List? ==> r.items == CnValues(Run(d, AllGroupsQuery(cfg), GroupNamesMessages).entries)
  {
    match Run(d, AllGroupsQuery(cfg), GroupNamesMessages)
    case Fails(v) => v
    case Entries(es) =>
      var names := CnValues(es);
      if names != [] then List(names) else ErrorMap("No se encontraron nombres de grupo.")
  }

  /** Every group found with a cn is listed, and the answer is then a list. */
  lemma GroupNamesKeepsEvery(cfg: Config, d: Directory, k: nat)
    requires Run(d, AllGroupsQuery(cfg), GroupNamesMessages).Entries?
    requires var es := Run(d, AllGroupsQuery(cfg), GroupNamesMessages).entries;
      k < |es| && HasAttr(es[k], "cn")
    ensures var es := Run(d, AllGroupsQuery(cfg), GroupNamesMessages).entries;
      GroupNames(cfg, d).List? && ValueOf(es[k], "cn") in GroupNames(cfg, d).items
  {
    CnValuesKeepsEvery(Run(d, AllGroupsQuery(cfg), GroupNamesMessages).entries, k);
  }

  // ---------------------------------------------------------------------------
  // get_current_user_info_tool

  /** The user name inside the bind DN: the text after the first `=` of the part before the first `,`. */
  function BindUsername(dn: string): (r: Option<string>)
    ensures r.None? <==> '=' !in BeforeFirst(dn, ',')
    ensures r.Some? ==> ',' !in r.value
  {
    var first := BeforeFirst(dn, ',');
    if '=' in first then Some(AfterFirst(first, '=')) else None
  }

  /** Round trip: a DN built as `key=user,rest` yields `user` exactly, white space included. */
  lemma BindUsernameOf(key: string, user: string, rest: string)
    requires '=' !in key && ',' !in key && ',' !in user
    ensures BindUsername(key + "=" + user + "," + rest) == Some(user)
  {
    var dn := key + "=" + user + "," + rest;
    var first := key + "=" + user;
    assert dn == first + [','] + rest;
    assert ',' !in first;
    assert FindChar(dn, ',') == Some(|first|) by {
      assert dn[..|first|] == first;
      FindCharFirst(dn, ',', |first|);
    }
    assert BeforeFirst(dn, ',') == first;
    assert first == key + ['='] + user;
    assert first[..|key|] == key;
    FindCharFirst(first, '=', |key|);
    assert first[|key| + 1..] == user;
  }

  /** A bind DN whose first part has no `=` is rejected with an error mapping. */
  lemma UnparseableBindDn(cfg: Config, d: Directory, field: Option<string>)
    requires IsSet(cfg.host) && IsSet(cfg.bindDn) && BindUsername(cfg.bindDn.value).None?
    ensures CurrentUserInfo(cfg, d, field)
         == ErrorMap(UnparseableDn(cfg.bindDn.value))
  {
  }

  const HostOrDnMissing := "Error: Las variables de entorno LDAP_HOST o LDAP_BIND_DN no están configuradas para get_current_user_info_tool."

  function UnparseableDn(dn: string): string {
    "Error: LDAP_BIND_DN '" + dn + "' no tiene un formato parseable (ej. 'attr=value,...')."
  }

  /** `get_current_user_info_tool(field)`. */
  function CurrentUserInfo(cfg: Config, d: Directory, field: Option<string>): (r: Value)
    ensures !(IsSet(cfg.host) && IsSet(cfg.bindDn)) ==> IsError(r)
    ensures !IsSet(field) ==> r.Dict?
  {
    if !(IsSet(cfg.host) && IsSet(cfg.bindDn)) then
      ErrorMap(HostOrDnMissing)
    else
      match BindUsername(cfg.bindDn.value)
      case None =>
        ErrorMap(UnparseableDn(cfg.bindDn.value))
      case Some(user) => Project(UserAttributes(cfg, d, user), field)
  }

  /** The field projection applied to the attribute map of the current user. */
  function Project(info: Value, field: Option<string>): (r: Value)
    requires info.Dict?
    ensures IsError(info) ==> r == info
    ensures !IsError(info) && IsSet(field) && field.value in info.fields ==> r == info.fields[field.value]
    ensures !IsError(info) && IsSet(field) && field.value !in info.fields
            ==> r == ErrorMap("Atributo '" + field.value + "' no encontrado para el usuario actual.")
    ensures !IsError(info) && !IsSet(field) ==> r == info
  {
    if IsError(info) then info
    else if IsSet(field) then
      if field.value in info.fields then info.fields[field.value]
      else ErrorMap("Atributo '" + field.value + "' no encontrado para el usuario actual.")
    else info
  }

  /** Asking for a field, then for the whole map: the field's value is the one in the map. */
  lemma ProjectAgreesWithMap(info: Value, f: string)
    requires info.Dict? && !IsError(info) && f != "" && f in info.fields
    ensures Project(info, Some(f)) == Project(info, None).fields[f]
  {
  }

  /** The tool body: it calls the attributes tool for the parsed user name. */
  method GetCurrentUserInfo(cfg: Config, d: Directory, field: Option<string>) returns (r: Value)
    ensures r == CurrentUserInfo(cfg, d, field)
  {
    if !(IsSet(cfg.host) && IsSet(cfg.bindDn)) {
      return ErrorMap(HostOrDnMissing);
    }
    var user := BindUsername(cfg.bindDn.value);
    if user.None? {
      return ErrorMap(UnparseableDn(cfg.bindDn.value));
    }
    var info := GetUserAttributes(cfg, d, user.value);
    r := Project(info, field);
  }

  // ---------------------------------------------------------------------------
  // get_user_groups_tool

  function GroupsMessages(uid: string): Messages {
    Messages(
      "get_user_groups_tool",
      "No se pudo realizar el bind para get_user_groups_tool.",
      "Ocurrió un error inesperado al obtener grupos del usuario " + uid + ": ")
  }

  function MemberQuery(cfg: Config, dn: string): Query {
    Query(cfg.groupsBase, "(member=" + dn + ")", ["cn"])
  }

  /** `get_user_groups_tool(uid)`: the user is looked up, then the groups listing the first match's DN as a member. */
  function UserGroups(cfg: Config, d: Directory, uid: string): (r: Value)
    ensures IsError(r) || r.List?
    ensures r.List? ==>
      var first := Run(d, UserQuery(cfg, uid, []), GroupsMessages(uid));
      first.Entries? && first.entries != []
      && var second := SearchAgain(d, MemberQuery(cfg, first.entries[0].dn), GroupsMessages(uid));
      second.Entries? && r.items == CnValues(second.entries)
  {
    match Run(d, UserQuery(cfg, uid, []), GroupsMessages(uid))
    case Fails(v) => v
    case Entries(es) =>
      if es == [] then ErrorMap("User with uid '" + uid + "' not found.")
      else
        match SearchAgain(d, MemberQuery(cfg, es[0].dn), GroupsMessages(uid))
        case Fails(v) => v
        case Entries(gs) => List(CnValues(gs))
  }

  /** A user who is found never yields the not-found error: with no groups the answer is the empty list. */
  lemma FoundUserWithoutGroups(cfg: Config, d: Directory, uid: string, e: Entry, rest: seq<Entry>)
    requires d.bind == Bound && d.search(UserQuery(cfg, uid, [])) == Done([e] + rest)
    requires d.search(MemberQuery(cfg, e.dn)) == Done([])
    ensures UserGroups(cfg, d, uid) == List([])
  {
  }

  /** The answer is a list exactly when the bind and both searches succeed and the user is found. */
  lemma UserGroupsListWhenFound(cfg: Config, d: Directory, uid: string)
    ensures UserGroups(cfg, d, uid).List? <==>
      d.bind == Bound && d.search(UserQuery(cfg, uid, [])).Done? && d.search(UserQuery(cfg, uid, [])).value != []
      && d.search(MemberQuery(cfg, d.search(UserQuery(cfg, uid, [])).value[0].dn)).Done?
  {
  }

  // ---------------------------------------------------------------------------
  // enumerate_group_members_tool

  function MembersMessages(group: string): Messages {
    Messages(
      "enumerate_group_members_tool",
      "No se pudo realizar el bind para enumerate_group_members_tool.",
      "Ocurrió un error inesperado al enumerar miembros del grupo " + group + ": ")
  }

  function GroupQuery(cfg: Config, group: string): Query {
    Query(cfg.groupsBase, "(&(objectClass=groupOfNames)(cn=" + group + "))", ["member"])
  }

  /** What the entries become: the `member` values of the first entry, as strings. */
  function MembersOf(es: seq<Entry>, group: string): (r: Value)
    ensures r.List? <==> es != [] && HasAttr(es[0], "member")
    ensures r.List? ==> var vs := es[0].attrs[FindAttr(es[0].attrs, "member").value].values;
      |r.items| == |vs| && forall k | 0 <= k < |vs| :: r.items[k] == Str(vs[k])
    ensures !r.List? ==> IsError(r)
  {
    if es != [] && HasAttr(es[0], "member") then StrList(es[0].attrs[FindAttr(es[0].attrs, "member").value].values)
    else ErrorMap("Group '" + group + "' not found or has no members.")
  }

  /** `enumerate_group_members_tool(group_name)`. */
  function GroupMembers(cfg: Config, d: Directory, group: string): (r: Value)
    ensures IsError(r) || r.List?
    ensures var reply := Run(d, GroupQuery(cfg, group), MembersMessages(group));
      (r.List? <==> reply.Entries? && reply.entries != [] && HasAttr(reply.entries[0], "member"))
      && (reply.Entries? && r.List? ==> r == MembersOf(reply.entries, group))
  {
    match Run(d, GroupQuery(cfg, group), MembersMessages(group))
    case Fails(v) => v
    case Entries(es) => MembersOf(es, group)
  }

  /** Only the first matching group counts. */
  lemma MembersFirstEntryOnly(e: Entry, rest1: seq<Entry>, rest2: seq<Entry>, group: string)
    ensures MembersOf([e] + rest1, group) == MembersOf([e] + rest2, group)
  {
  }

  // ---------------------------------------------------------------------------
  // get_user_email_tool

  function EmailMessages(uid: string): Messages {
    Messages(
      "get_user_email_tool",
      "No se pudo realizar el bind para get_user_email_tool.",
      "Ocurrió un error inesperado al obtener el correo del usuario " + uid + ": ")
  }

  /** What the entries become: the `mail` value of the first entry, or an error naming the uid. */
  function EmailOf(es: seq<Entry>, uid: string): (r: Value)
    ensures !IsError(r) <==> es != [] && HasAttr(es[0], "mail")
    ensures !IsError(r) ==> r == ValueOf(es[0], "mail")
  {
    if es != [] && HasAttr(es[0], "mail") then ValueOf(es[0], "mail")
    else ErrorMap("User '" + uid + "' not found or has no email address.")
  }

  /** `get_user_email_tool(uid)`. */
  function UserEmail(cfg: Config, d: Directory, uid: string): (r: Value)
    ensures var reply := Run(d, UserQuery(cfg, uid, ["mail"]), EmailMessages(uid));
      !IsError(r) <==> reply.Entries? && reply.entries != [] && HasAttr(reply.entries[0], "mail")
    ensures !IsError(r) ==> r == ValueOf(Run(d, UserQuery(cfg, uid, ["mail"]), EmailMessages(uid)).entries[0], "mail")
  {
    match Run(d, UserQuery(cfg, uid, ["mail"]), EmailMessages(uid))
    case Fails(v) => v
    case Entries(es) => EmailOf(es, uid)
  }

  /** Only the first matching user counts. */
  lemma EmailFirstEntryOnly(e: Entry, rest1: seq<Entry>, rest2: seq<Entry>, uid: string)
    ensures EmailOf([e] + rest1, uid) == EmailOf([e] + rest2, uid)
  {
  }
}
