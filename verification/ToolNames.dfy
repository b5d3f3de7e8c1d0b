/** Tool names offered to the model, and the parser that routes a chosen name back. */
module ToolNames {
  import opened Wrappers
  import opened Departments

  const PREFIX := "mcp__"
  const SEP := "__"
  const OUTBOUND_CALL := "__place_outbound_call"
  const SOCIAL_DRAFT := "__draft_social_post"

  // ----- splitting at "__"

  predicate SepAt(s: string, i: nat) {
    i + 2 <= |s| && s[i] == '_' && s[i + 1] == '_'
  }

  /** The leftmost separator. */
  function FindSep(s: string): (r: Option<nat>)
    ensures r.Some? ==> SepAt(s, r.value) && forall j: nat :: j < r.value ==> !SepAt(s, j)
    ensures r.None? ==> forall j: nat :: !SepAt(s, j)
  {
    if |s| < 2 then None
    else if SepAt(s, 0) then Some(0)
    else
      var rest := FindSep(s[1..]);
      assert forall j: nat :: SepAt(s, j + 1) == SepAt(s[1..], j);
      assert forall j: nat :: j > 0 ==> SepAt(s, j) == SepAt(s[1..], j - 1);
      if rest.None? then None else Some(rest.value + 1)
  }

  /** `str.split("__", n)`. */
  function Split(s: string, n: nat): (parts: seq<string>)
    ensures 1 <= |parts| <= n + 1
    decreases n
  {
    if n == 0 then [s]
    else
      match FindSep(s)
      case None => [s]
      case Some(i) => [s[..i]] + Split(s[i + 2..], n - 1)
  }

  function Join(parts: seq<string>): string {
    if parts == [] then ""
    else if |parts| == 1 then parts[0]
    else parts[0] + SEP + Join(parts[1..])
  }

  lemma CutAtSep(s: string, i: nat)
    requires SepAt(s, i)
    ensures s[..i] + SEP + s[i + 2..] == s
  {
    assert s[i..i + 2] == SEP;
    assert s[..i] + s[i..i + 2] == s[..i + 2];
    assert s[..i + 2] + s[i + 2..] == s;
  }

  lemma JoinCons(first: string, rest: seq<string>)
    requires rest != []
    ensures Join([first] + rest) == first + SEP + Join(rest)
  {
    assert ([first] + rest)[1..] == rest;
  }

  lemma JoinAtCut(s: string, i: nat, rest: seq<string>)
    requires SepAt(s, i) && rest != [] && Join(rest) == s[i + 2..]
    ensures Join([s[..i]] + rest) == s
  {
    JoinCons(s[..i], rest);
    CutAtSep(s, i);
  }

  lemma {:induction false} JoinUndoesSplit(s: string, n: nat)
    ensures Join(Split(s, n)) == s
    decreases n
  {
    if n > 0 {
      match FindSep(s)
      case None =>
      case Some(i) =>
        JoinUndoesSplit(s[i + 2..], n - 1);
        JoinAtCut(s, i, Split(s[i + 2..], n - 1));
    }
  }

  // ----- names

  function Print(connector: string, tool: string): string {
    PREFIX + connector + SEP + tool
  }

  datatype Route =
    | OutboundCall
    | SocialDraft
    | McpCall(connector: string, tool: string)
    | Malformed
    | Unknown

  /** Which action a tool name stands for. */
  function Dispatch(name: string): Route {
    if name == OUTBOUND_CALL then OutboundCall
    else if name == SOCIAL_DRAFT then SocialDraft
    else if PREFIX <= name then
      var parts := Split(name, 2);
      if |parts| == 3 then McpCall(parts[1], parts[2]) else Malformed
    else Unknown
  }

  /** The built-in names, and exactly which other names are not calls of a connector's tool. */
  lemma DispatchMeaning(name: string)
    ensures Dispatch("__place_outbound_call") == OutboundCall
    ensures Dispatch("__draft_social_post") == SocialDraft
    ensures Dispatch(name) == OutboundCall <==> name == "__place_outbound_call"
    ensures Dispatch(name) == SocialDraft <==> name == "__draft_social_post"
    ensures "mcp__" <= name ==>
              (Dispatch(name) == Malformed <==> forall j: nat :: 5 <= j ==> !SepAt(name, j))
    ensures Dispatch(name) == Unknown <==>
              name != "__place_outbound_call" && name != "__draft_social_post" && !("mcp__" <= name)
  {
    if "mcp__" <= name {
      PrefixCut(name);
      var body := name[5..];
      assert forall j: nat :: SepAt(body, j) == SepAt(name, j + 5);
      assert forall j: nat :: 5 <= j ==> SepAt(name, j) == SepAt(body, j - 5);
      assert Split(body, 1) == if FindSep(body).None? then [body] else
          [body[..FindSep(body).value]] + [body[FindSep(body).value + 2..]];
    }
  }

  lemma PrefixCut(name: string)
    requires "mcp__" <= name
    ensures Split(name, 2) == ["mcp"] + Split(name[5..], 1)
    ensures name[0] == 'm'
  {
    assert SepAt(name, 3);
    assert !SepAt(name, 0) && !SepAt(name, 1) && !SepAt(name, 2);
    assert FindSep(name) == Some(3);
    assert name[..3] == "mcp";
  }

  /** A connector name that survives the round trip: no two underscores in a row, none at the end. */
  predicate Routable(connector: string) {
    && (forall i :: 0 <= i < |connector| - 1 ==> !(connector[i] == '_' && connector[i + 1] == '_'))
    && (connector != "" ==> connector[|connector| - 1] != '_')
  }

  lemma RoutableBySep(connector: string)
    ensures Routable(connector) <==>
            FindSep(connector) == None && (connector != "" ==> connector[|connector| - 1] != '_')
  {
    if FindSep(connector) == None {
      forall i | 0 <= i < |connector| - 1
        ensures !(connector[i] == '_' && connector[i + 1] == '_')
      {
        assert !SepAt(connector, i);
      }
    }
  }

  /** The name is cut at the first separator after the prefix, wherever that is. */
  lemma DispatchCuts(connector: string, tool: string)
    ensures var body := connector + SEP + tool;
            && FindSep(body).Some?
            && Dispatch(Print(connector, tool)) ==
               McpCall(body[..FindSep(body).value], body[FindSep(body).value + 2..])
  {
    var body := connector + SEP + tool;
    var name := Print(connector, tool);
    assert SepAt(body, |connector|);
    assert name == PREFIX + body;
    assert SepAt(name, 3);
    assert !SepAt(name, 0) && !SepAt(name, 1) && !SepAt(name, 2);
    assert FindSep(name) == Some(3);
    assert name[5..] == body;
    var k := FindSep(body).value;
    assert Split(body, 1) == [body[..k]] + [body[k + 2..]];
    assert Split(name, 2) == [name[..3]] + Split(body, 1);
    assert name[0] != OUTBOUND_CALL[0] && name[0] != SOCIAL_DRAFT[0];
    assert PREFIX <= name;
  }

  lemma FirstSepOfBody(connector: string, tool: string)
    ensures FindSep(connector + SEP + tool) == Some(|connector|) <==> Routable(connector)
  {
    var body := connector + SEP + tool;
    RoutableBySep(connector);
    assert SepAt(body, |connector|);
    assert forall j: nat :: j + 2 <= |connector| ==> SepAt(body, j) == SepAt(connector, j);
    if connector != "" {
      assert SepAt(body, |connector| - 1) <==> connector[|connector| - 1] == '_';
    }
  }

  /** Parsing gives back the connector and the tool, whatever the tool, iff the connector is routable. */
  lemma ParseUndoesPrint(connector: string, tool: string)
    ensures Print(connector, tool) == "mcp__" + connector + "__" + tool
    ensures Dispatch(Print(connector, tool)) == McpCall(connector, tool) <==> Routable(connector)
  {
    var body := connector + SEP + tool;
    DispatchCuts(connector, tool);
    FirstSepOfBody(connector, tool);
    assert body[..|connector|] == connector;
    assert body[|connector| + 2..] == tool;
  }

  // ----- the registry

  datatype Connector = Connector(name: string, tools: seq<string>)

  datatype Registered = Registered(connector: Connector, department: Department)

  datatype Registry = Registry(byName: map<string, Connector>, byDepartment: map<Department, seq<Connector>>)

  function OfDepartment(r: Registry, d: Department): seq<Connector> {
    if d in r.byDepartment then r.byDepartment[d] else []
  }

  function Register(r: Registry, c: Connector, d: Department): Registry {
    Registry(r.byName[c.name := c], r.byDepartment[d := OfDepartment(r, d) + [c]])
  }

  function Build(regs: seq<Registered>): Registry {
    if regs == [] then Registry(map[], map[])
    else
      var last := regs[|regs| - 1];
      Register(Build(regs[..|regs| - 1]), last.connector, last.department)
  }

  /** One name never stands for two connectors; one connector may serve several departments. */
  ghost predicate UniqueNames(regs: seq<Registered>) {
    forall i, j :: 0 <= i < |regs| && 0 <= j < |regs| && regs[i].connector.name == regs[j].connector.name ==>
      regs[i].connector == regs[j].connector
  }

  lemma {:induction false} BuildMeaning(regs: seq<Registered>)
    ensures forall d, c :: c in OfDepartment(Build(regs), d) <==> Registered(c, d) in regs
    ensures UniqueNames(regs) ==>
              forall i :: 0 <= i < |regs| ==>
                && regs[i].connector.name in Build(regs).byName
                && Build(regs).byName[regs[i].connector.name] == regs[i].connector
  {
    if regs != [] {
      var front, last := regs[..|regs| - 1], regs[|regs| - 1];
      BuildMeaning(front);
      assert regs == front + [last];
      if UniqueNames(regs) {
        assert forall i :: 0 <= i < |front| ==> front[i] == regs[i];
        assert UniqueNames(front);
      }
    }
  }

  /** The (connector name, tool) pairs of some connectors, in order. */
  function ListTools(cs: seq<Connector>): seq<(string, string)> {
    if cs == [] then []
    else
      var c := cs[|cs| - 1];
      ListTools(cs[..|cs| - 1]) + Pairs(c)
  }

  function Pairs(c: Connector): seq<(string, string)> {
    seq(|c.tools|, i requires 0 <= i < |c.tools| => (c.name, c.tools[i]))
  }

  lemma PairsMeaning(c: Connector, name: string, tool: string)
    ensures (name, tool) in Pairs(c) <==> c.name == name && tool in c.tools
  {
    if c.name == name && tool in c.tools {
      var i :| 0 <= i < |c.tools| && c.tools[i] == tool;
      assert Pairs(c)[i] == (name, tool);
    }
  }

  lemma {:induction false} ListToolsMeaning(cs: seq<Connector>, name: string, tool: string)
    ensures (name, tool) in ListTools(cs) <==> exists c :: c in cs && c.name == name && tool in c.tools
  {
    if cs != [] {
      var front, c := cs[..|cs| - 1], cs[|cs| - 1];
      ListToolsMeaning(front, name, tool);
      PairsMeaning(c, name, tool);
      InLast(cs, c);
      forall x | x in front
        ensures x in cs
      {
        InLast(cs, x);
      }
      if x :| x in cs && x.name == name && tool in x.tools {
        InLast(cs, x);
      }
    }
  }

  function ToolCount(cs: seq<Connector>): nat {
    if cs == [] then 0 else ToolCount(cs[..|cs| - 1]) + |cs[|cs| - 1].tools|
  }

  /** Connector by connector, tool by tool. */
  lemma {:induction false} ListToolsAt(cs: seq<Connector>, i: nat, j: nat)
    requires i < |cs| && j < |cs[i].tools|
    ensures |ListTools(cs)| == ToolCount(cs) && ToolCount(cs[..i]) + j < |ListTools(cs)|
    ensures ListTools(cs)[ToolCount(cs[..i]) + j] == (cs[i].name, cs[i].tools[j])
    decreases |cs|
  {
    var front := cs[..|cs| - 1];
    ListToolsSize(cs);
    ListToolsSize(front);
    if i < |front| {
      ListToolsAt(front, i, j);
      assert front[..i] == cs[..i];
    } else {
      assert cs[..i] == front;
    }
  }

  lemma {:induction false} ListToolsSize(cs: seq<Connector>)
    ensures |ListTools(cs)| == ToolCount(cs)
  {
    if cs != [] {
      ListToolsSize(cs[..|cs| - 1]);
    }
  }

  lemma InLast<T>(s: seq<T>, x: T)
    requires s != []
    ensures x in s <==> x in s[..|s| - 1] || x == s[|s| - 1]
  {
  }

  /** The names a department's agent is offered. */
  function Offered(r: Registry, d: Department): seq<string> {
    var tools := ListTools(OfDepartment(r, d));
    seq(|tools|, i requires 0 <= i < |tools| => Print(tools[i].0, tools[i].1))
  }

  lemma OfferedInOrder(r: Registry, d: Department, k: nat)
    requires k < |Offered(r, d)|
    ensures |Offered(r, d)| == |ListTools(OfDepartment(r, d))|
    ensures var (name, tool) := ListTools(OfDepartment(r, d))[k];
            Offered(r, d)[k] == "mcp__" + name + "__" + tool
  {
  }

  /**
   With unique, routable connector names, every offered name dispatches to a tool of a connector
   registered for the department, and looking that connector up by name finds that very connector.
   */
  lemma OfferedNamesDispatch(regs: seq<Registered>, d: Department, k: nat) returns (c: Connector, tool: string)
    requires UniqueNames(regs) && forall i :: 0 <= i < |regs| ==> Routable(regs[i].connector.name)
    requires k < |Offered(Build(regs), d)|
    ensures Registered(c, d) in regs && tool in c.tools
    ensures Dispatch(Offered(Build(regs), d)[k]) == McpCall(c.name, tool)
    ensures c.name in Build(regs).byName && Build(regs).byName[c.name] == c
  {
    BuildMeaning(regs);
    var cs := OfDepartment(Build(regs), d);
    var pair := ListTools(cs)[k];
    tool := pair.1;
    assert pair in ListTools(cs);
    ListToolsMeaning(cs, pair.0, tool);
    c :| c in cs && c.name == pair.0 && tool in c.tools;
    assert Registered(c, d) in regs;
    ParseUndoesPrint(c.name, tool);
  }

  /** And every tool of a connector of the department is offered, under a name of its own. */
  lemma EveryToolOffered(regs: seq<Registered>, d: Department, c: Connector, tool: string)
    requires Registered(c, d) in regs && tool in c.tools
    ensures Print(c.name, tool) in Offered(Build(regs), d)
  {
    BuildMeaning(regs);
    var cs := OfDepartment(Build(regs), d);
    ListToolsMeaning(cs, c.name, tool);
    assert (c.name, tool) in ListTools(cs);
    var k :| 0 <= k < |ListTools(cs)| && ListTools(cs)[k] == (c.name, tool);
    assert Offered(Build(regs), d)[k] == Print(c.name, tool);
  }

  /** Two tools of routable connectors never share a name, nor take a built-in one. */
  lemma NamesAreDistinct(c: string, s: string, d: string, t: string)
    requires Routable(c) && Routable(d) && Print(c, s) == Print(d, t)
    ensures c == d && s == t
    ensures Print(c, s) != OUTBOUND_CALL && Print(c, s) != SOCIAL_DRAFT
  {
    ParseUndoesPrint(c, s);
    ParseUndoesPrint(d, t);
  }

  /** The names of the connectors the repository registers. */
  const SHIPPED := ["crm", "hris", "erp", "ticketing", "knowledge", "calendar", "email", "analytics"]

  lemma ShippedNamesRoutable(k: nat)
    requires k < |SHIPPED|
    ensures Routable(SHIPPED[k])
  {
    NoUnderscoreRoutable(SHIPPED[k]);
  }

  lemma NoUnderscoreRoutable(s: string)
    requires forall i :: 0 <= i < |s| ==> s[i] != '_'
    ensures Routable(s)
  {
  }

  /** A connector ending in an underscore is misrouted: `erp_` with tool `pay` reads as `erp`, `_pay`. */
  lemma TrailingUnderscoreMisroutes()
    ensures Dispatch(Print("erp_", "pay")) == McpCall("erp", "_pay")
  {
    DispatchCuts("erp_", "pay");
    var body := "erp_" + SEP + "pay";
    assert body == "erp___pay";
    assert SepAt(body, 3) && !SepAt(body, 0) && !SepAt(body, 1) && !SepAt(body, 2);
    assert FindSep(body) == Some(3);
    assert body[..3] == "erp" && body[5..] == "_pay";
  }

  // ----- the registry object

  class McpRegistry {
    var byName: map<string, Connector>
    var byDepartment: map<Department, seq<Connector>>

    function State(): Registry
      reads this
    {
      Registry(byName, byDepartment)
    }

    constructor ()
      ensures State() == Build([])
    {
      byName, byDepartment := map[], map[];
    }

    method RegisterConnector(c: Connector, d: Department)
      modifies this
      ensures State() == Register(old(State()), c, d)
      ensures byName == old(byName)[c.name := c]
      ensures var before := if d in old(byDepartment) then old(byDepartment)[d] else [];
              byDepartment == old(byDepartment)[d := before + [c]]
    {
      byName := byName[c.name := c];
      var cs := [];
      if d in byDepartment {
        cs := byDepartment[d];
      }
      byDepartment := byDepartment[d := cs + [c]];
    }

    method ToolsOf(d: Department) returns (out: seq<(string, string)>)
      ensures out == ListTools(OfDepartment(State(), d))
    {
      var cs := OfDepartment(State(), d);
      out := [];
      for n := 0 to |cs|
        invariant out == ListTools(cs[..n])
      {
        var c := cs[n];
        for i := 0 to |c.tools|
          invariant out == ListTools(cs[..n]) + seq(i, j requires 0 <= j < i => (c.name, c.tools[j]))
        {
          out := out + [(c.name, c.tools[i])];
        }
        assert cs[..n + 1][..n] == cs[..n];
      }
      assert cs[..|cs|] == cs;
    }

    /** `_mcp_tools_schema`, as far as the names go. */
    method ToolNamesOf(d: Department) returns (names: seq<string>)
      ensures names == Offered(State(), d)
    {
      var tools := ToolsOf(d);
      names := [];
      for n := 0 to |tools|
        invariant names == seq(n, i requires 0 <= i < n => Print(tools[i].0, tools[i].1))
      {
        names := names + [Print(tools[n].0, tools[n].1)];
      }
    }

    /** `call`: the connector a name finds, if any. */
    method Find(name: string) returns (c: Option<Connector>)
      ensures c.Some? <==> name in byName
      ensures c.Some? ==> c.value == byName[name]
    {
      if name in byName {
        return Some(byName[name]);
      }
      c := None;
    }
  }
}
