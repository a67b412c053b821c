/** The connection manager: which servers are up, what was discovered on them, and where
    a call goes (`app/mcp/manager.py`). */
module McpManager {
  import opened Json
  import opened ToolNames

  /** What a server answers when its tools are listed; `None` is an exception. */
  type Listings = map<string, Option<seq<string>>>

  datatype Routed =
    | ToolNotFound
    | Unavailable(server: string)
    | Sent(server: string, wire: string)
    | Malformed

  function Listing(answers: Listings, server: string): Option<seq<string>> {
    if server in answers then answers[server] else None
  }

  function SpecsOf(server: string, tools: seq<string>): seq<Spec> {
    seq(|tools|, i requires 0 <= i < |tools| => Spec(server, tools[i]))
  }

  /** The servers asked, in the order they were configured. */
  function Discovered(servers: seq<string>, up: set<string>, answers: Listings): seq<Spec> {
    if servers == [] then []
    else
      var last := servers[|servers| - 1];
      var before := Discovered(servers[..|servers| - 1], up, answers);
      if last in up && Listing(answers, last).Some? then before + SpecsOf(last, Listing(answers, last).value)
      else before
  }

  function FailedDiscovery(servers: seq<string>, up: set<string>, answers: Listings): set<string> {
    set s | s in servers && s in up && Listing(answers, s).None?
  }

  function Route(catalog: map<string, Spec>, up: set<string>, name: string): Routed {
    if name !in catalog then ToolNotFound
    else if catalog[name].server !in up then Unavailable(catalog[name].server)
    else
      match WireName(name)
      case None => Malformed
      case Some(wire) => Sent(catalog[name].server, wire)
  }

  /** Exactly the tools the connected servers listed, each with its server. */
  lemma {:induction false} DiscoveredExactly(servers: seq<string>, up: set<string>, answers: Listings, spec: Spec)
    ensures spec in Discovered(servers, up, answers) <==>
              && spec.server in servers && spec.server in up
              && Listing(answers, spec.server).Some? && spec.name in Listing(answers, spec.server).value
  {
    if servers == [] {
    } else {
      var last := servers[|servers| - 1];
      DiscoveredExactly(servers[..|servers| - 1], up, answers, spec);
      assert servers == servers[..|servers| - 1] + [last];
      if last in up && Listing(answers, last).Some? { SpecsOfExactly(last, Listing(answers, last).value, spec); }
    }
  }

  lemma SpecsOfExactly(server: string, tools: seq<string>, spec: Spec)
    ensures spec in SpecsOf(server, tools) <==> spec.server == server && spec.name in tools
  {
    if spec.server == server && spec.name in tools {
      var i :| 0 <= i < |tools| && tools[i] == spec.name;
      assert SpecsOf(server, tools)[i] == spec;
    }
  }

  predicate Listed(servers: seq<string>, up: set<string>, answers: Listings, server: string, tool: string) {
    && server in servers && server in up
    && Listing(answers, server).Some? && tool in Listing(answers, server).value
  }

  /** Every tool that was listed is reached under its qualified name, on its own server and
      under its own name, while that server is up, and is unavailable while it is not; and
      nothing else is reached, when the server names are clean. */
  lemma {:induction false} RoutesExactlyTheListedTools(
    servers: seq<string>, up: set<string>, answers: Listings, now: set<string>,
    name: string, server: string, tool: string)
    requires forall i :: 0 <= i < |servers| ==> Clean(servers[i])
    ensures var routed := Route(CatalogOf(Discovered(servers, up, answers)), now, name);
            var named := name == Qualify(server, tool) && Listed(servers, up, answers, server, tool);
            && (routed == Sent(server, tool) <==> named && server in now)
            && (named && server !in now ==> routed == Unavailable(server))
  {
    var specs := Discovered(servers, up, answers);
    forall spec | spec in specs ensures Clean(spec.server) { DiscoveredExactly(servers, up, answers, spec); }
    DiscoveredExactly(servers, up, answers, Spec(server, tool));
    if name in CatalogOf(specs) {
      CatalogHoldsSpecs(specs, name);
      var found := CatalogOf(specs)[name];
      SplitInvertsExactlyWhen(found.server, found.name);
    }
    if Spec(server, tool) in specs {
      CatalogFindsEverySpec(specs, Spec(server, tool));
    }
  }

  /** A name is unknown exactly unless a listed tool has it. */
  lemma {:induction false} UnknownExactlyUnlessListed(
    servers: seq<string>, up: set<string>, answers: Listings, now: set<string>, name: string)
    requires forall i :: 0 <= i < |servers| ==> Clean(servers[i])
    ensures Route(CatalogOf(Discovered(servers, up, answers)), now, name) == ToolNotFound <==>
              !exists spec: Spec :: name == NameOf(spec) && Listed(servers, up, answers, spec.server, spec.name)
  {
    var specs := Discovered(servers, up, answers);
    var routed := Route(CatalogOf(specs), now, name);
    forall spec: Spec | name == NameOf(spec) && Listed(servers, up, answers, spec.server, spec.name)
      ensures routed != ToolNotFound
    {
      RoutesExactlyTheListedTools(servers, up, answers, now, name, spec.server, spec.name);
    }
    if name in CatalogOf(specs) {
      CatalogHoldsSpecs(specs, name);
      var found := CatalogOf(specs)[name];
      DiscoveredExactly(servers, up, answers, found);
      assert name == NameOf(found) && Listed(servers, up, answers, found.server, found.name);
    }
  }

  /** Without that assumption a routed call still reaches the server of its spec, but
      under the tool's own name only when that server's name is clean. */
  lemma WireNameMatchesExactlyWhenClean(specs: seq<Spec>, up: set<string>, name: string)
    requires Route(CatalogOf(specs), up, name).Sent?
    ensures var spec := CatalogOf(specs)[name];
            && spec in specs && Route(CatalogOf(specs), up, name).server == spec.server
            && (Route(CatalogOf(specs), up, name).wire == spec.name <==> Clean(spec.server))
  {
    CatalogHoldsSpecs(specs, name);
    SplitInvertsExactlyWhen(CatalogOf(specs)[name].server, CatalogOf(specs)[name].name);
  }

  /** A name is malformed, for a server that is up, exactly if it has no separator; no name
      in a catalog is. */
  lemma MalformedExactlyWithoutSeparator(catalog: map<string, Spec>, specs: seq<Spec>, up: set<string>, name: string)
    ensures Route(catalog, up, name) == Malformed <==>
              && name in catalog && catalog[name].server in up && forall i :: !SeparatorAt(name, i)
    ensures Route(CatalogOf(specs), up, name) != Malformed
  {
    if name in CatalogOf(specs) {
      CatalogHoldsSpecs(specs, name);
      var spec := CatalogOf(specs)[name];
      assert SeparatorAt(Qualify(spec.server, spec.name), |spec.server|);
    }
  }

  class MCPManager {
    var servers: seq<string>
    var up: set<string>
    var catalog: map<string, Spec>
    var failures: map<string, string>
    const failFast: bool

    constructor (failFast: bool)
      ensures servers == [] && up == {} && catalog == map[] && failures == map[] && this.failFast == failFast
    {
      servers, up, catalog, failures := [], {}, map[], map[];
      this.failFast := failFast;
    }

    /** `error` is why the connection could not be made, if it could not. */
    method ConnectOne(server: string, error: Option<string>)
      modifies this`servers, this`up, this`failures
      ensures servers == if server in old(servers) then old(servers) else old(servers) + [server]
      ensures up == if error.None? then old(up) + {server} else old(up) - {server}
      ensures failures == if error.None? then old(failures) - {server} else old(failures)[server := error.value]
    {
      if server !in servers { servers := servers + [server]; }
      if error.Some? {
        up := up - {server};
        failures := failures[server := error.value];
      } else {
        up := up + {server};
        failures := failures - {server};
      }
    }

    /** Discovery over every connected server; one that fails is recorded and skipped.
        A failure recorded earlier is not cleared. */
    method RefreshCatalog(answers: Listings)
      modifies this`catalog, this`failures
      ensures catalog == CatalogOf(Discovered(servers, up, answers))
      ensures failures.Keys == old(failures.Keys) + FailedDiscovery(servers, up, answers)
    {
      var specs: seq<Spec> := [];
      for i := 0 to |servers|
        invariant specs == Discovered(servers[..i], up, answers)
        invariant failures.Keys == old(failures.Keys) + FailedDiscovery(servers[..i], up, answers)
      {
        var server := servers[i];
        assert servers[..i + 1][..i] == servers[..i];
        assert servers[..i + 1] == servers[..i] + [server];
        if server in up {
          match Listing(answers, server)
          case None =>
            failures := failures[server := "tool discovery failed"];
          case Some(tools) =>
            specs := specs + SpecsOf(server, tools);
        }
      }
      assert servers[..|servers|] == servers;
      catalog := CatalogOf(specs);
    }

    method CallTool(name: string) returns (routed: Routed)
      ensures routed == Route(catalog, up, name)
    {
      if name !in catalog { return ToolNotFound; }
      var spec := catalog[name];
      if spec.server !in up { return Unavailable(spec.server); }
      var wire := WireName(name);
      if wire.None? { return Malformed; }
      return Sent(spec.server, wire.value);
    }

    method Shutdown()
      modifies this`servers, this`up, this`catalog
      ensures servers == [] && up == {} && catalog == map[]
    {
      servers, up, catalog := [], {}, map[];
    }

    /** Startup on a new manager: degraded exactly when some server could not be reached
        or could not list its tools, and refused if the deployment fails fast and a server
        could not be reached. */
    method Startup(specs: seq<string>, errors: map<string, string>, answers: Listings) returns (started: bool)
      requires servers == [] && up == {} && failures == map[]
      modifies this
      ensures started <==> !failFast || forall s :: s in specs ==> s !in errors
      ensures started ==> (forall s :: s in servers <==> s in specs) && up == (set s | s in specs && s !in errors)
      ensures started ==> catalog == CatalogOf(Discovered(servers, up, answers))
      ensures started ==> failures.Keys == (set s | s in specs && s in errors) + FailedDiscovery(servers, up, answers)
      ensures !started ==> servers == [] && up == {} && catalog == map[]
    {
      for i := 0 to |specs|
        invariant forall s :: s in servers <==> s in specs[..i]
        invariant up == set s | s in specs[..i] && s !in errors
        invariant failures.Keys == set s | s in specs[..i] && s in errors
      {
        assert specs[..i + 1] == specs[..i] + [specs[i]];
        ConnectOne(specs[i], if specs[i] in errors then Some(errors[specs[i]]) else None);
      }
      assert specs[..|specs|] == specs;
      if failures != map[] && failFast {
        assert exists s :: s in failures;
        Shutdown();
        return false;
      }
      assert failures == map[] ==> forall s :: s in specs ==> s !in errors by {
        forall s | failures == map[] && s in specs ensures s !in errors { assert s !in failures.Keys; }
      }
      RefreshCatalog(answers);
      return true;
    }
  }

  /** A server is up when its tools cannot be listed, and again when they can: its tool is
      in the catalog, and the failure is still recorded. */
  method RediscoverAfterFailure() returns (manager: MCPManager)
    ensures fresh(manager) && "crm" in manager.failures
    ensures Qualify("crm", "get_leads") in manager.catalog
  {
    manager := new MCPManager(false);
    manager.ConnectOne("crm", None);
    manager.RefreshCatalog(map[]);
    assert "crm" in FailedDiscovery(["crm"], {"crm"}, map[]);
    assert "crm" in manager.failures.Keys;
    var answers: Listings := map["crm" := Some(["get_leads"])];
    manager.RefreshCatalog(answers);
    assert "crm" in manager.failures.Keys;
    assert Listing(answers, "crm").value[0] == "get_leads";
    DiscoveredExactly(["crm"], {"crm"}, answers, Spec("crm", "get_leads"));
    CatalogHasEveryName(Discovered(["crm"], {"crm"}, answers), Spec("crm", "get_leads"));
  }
}
