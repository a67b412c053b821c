/** Qualified tool names and the catalog they index (`app/mcp/types.py`,
    `app/mcp/discovery.py`, the wire name taken in `app/mcp/client.py`). */
module ToolNames {
  import opened Json

  const SEPARATOR := "__"

  function Qualify(server: string, tool: string): string { server + SEPARATOR + tool }

  predicate SeparatorAt(s: string, i: int) { 0 <= i < |s| - 1 && s[i] == '_' && s[i + 1] == '_' }

  /** Where the first separator begins. */
  function FirstSeparator(s: string, i: nat): (r: Option<nat>)
    requires i <= |s|
    ensures r.Some? ==> SeparatorAt(s, r.value) && i <= r.value && forall j :: i <= j < r.value ==> !SeparatorAt(s, j)
    ensures r.None? ==> forall j :: i <= j ==> !SeparatorAt(s, j)
    decreases |s| - i
  {
    if i == |s| then None
    else if SeparatorAt(s, i) then Some(i)
    else FirstSeparator(s, i + 1)
  }

  /** `split_qualified`: `None` stands for the `ValueError`. */
  function Split(qualified: string): Option<(string, string)> {
    match FirstSeparator(qualified, 0)
    case None => None
    case Some(i) =>
      if i == 0 || i + 2 == |qualified| then None else Some((qualified[..i], qualified[i + 2..]))
  }

  /** The name sent to the server: everything after the first separator. */
  function WireName(qualified: string): Option<string> {
    match FirstSeparator(qualified, 0)
    case None => None
    case Some(i) => Some(qualified[i + 2..])
  }

  /** A server name the separator can be found after. */
  predicate Clean(server: string) {
    (forall i :: 0 <= i < |server| ==> !SeparatorAt(server, i)) && (server != "" ==> server[|server| - 1] != '_')
  }

  /** Up to the separator a qualified name has the separators of its server name, and one
      more if that ends in an underscore. */
  lemma SeparatorsInServer(server: string, tool: string, i: int)
    requires 0 <= i < |server|
    ensures SeparatorAt(Qualify(server, tool), i) <==>
              SeparatorAt(server, i) || (i == |server| - 1 && server[i] == '_')
  {
    var q := Qualify(server, tool);
    assert q[i] == server[i];
    if i < |server| - 1 { assert q[i + 1] == server[i + 1]; } else { assert q[i + 1] == '_'; }
  }

  /** The first separator of a qualified name is the one that was put there, exactly for
      clean server names. */
  lemma SeparatorFoundExactlyWhenClean(server: string, tool: string)
    ensures var r := FirstSeparator(Qualify(server, tool), 0);
            r.Some? && r.value <= |server| && (r.value == |server| <==> Clean(server))
  {
    assert SeparatorAt(Qualify(server, tool), |server|);
    forall i | 0 <= i < |server|
      ensures SeparatorAt(Qualify(server, tool), i) <==>
                SeparatorAt(server, i) || (i == |server| - 1 && server[i] == '_')
    {
      SeparatorsInServer(server, tool, i);
    }
  }

  /** Splitting undoes qualifying exactly when neither part is empty and the server name
      is clean; the wire name is the tool's own exactly when the server name is clean. */
  lemma SplitInvertsExactlyWhen(server: string, tool: string)
    ensures Split(Qualify(server, tool)) == Some((server, tool)) <==> server != "" && tool != "" && Clean(server)
    ensures WireName(Qualify(server, tool)) == Some(tool) <==> Clean(server)
  {
    SeparatorFoundExactlyWhenClean(server, tool);
    var q := Qualify(server, tool);
    var i := FirstSeparator(q, 0).value;
    assert q[|server| + 2..] == tool && q[..|server|] == server;
    if i < |server| { assert |q[i + 2..]| > |tool|; }
  }

  /** Clean names never collide, whatever the tools are called. */
  lemma QualifiedNamesAreUnique(server: string, tool: string, server': string, tool': string)
    requires Clean(server) && Clean(server') && Qualify(server, tool) == Qualify(server', tool')
    ensures server == server' && tool == tool'
  {
    SeparatorFoundExactlyWhenClean(server, tool);
    SeparatorFoundExactlyWhenClean(server', tool');
    var q := Qualify(server, tool);
    assert q[..|server|] == server && q[|server| + 2..] == tool;
    assert q[..|server'|] == server' && q[|server'| + 2..] == tool';
  }

  /** What an unclean name does: one qualified name for the tools of two servers. */
  lemma UncleanNamesCollide()
    ensures Qualify("crm", "eu__merge") == Qualify("crm__eu", "merge")
    ensures WireName(Qualify("crm__eu", "merge")) == Some("eu__merge")
  {
    assert Qualify("crm", "eu__merge") == "crm__eu__merge" == Qualify("crm__eu", "merge");
    var q := "crm__eu__merge";
    assert !SeparatorAt(q, 0) && !SeparatorAt(q, 1) && !SeparatorAt(q, 2) && SeparatorAt(q, 3);
    assert q[5..] == "eu__merge";
  }

  // ------------------------------------------------------------------- catalog --

  datatype Spec = Spec(server: string, name: string)

  function NameOf(spec: Spec): string { Qualify(spec.server, spec.name) }

  /** A dictionary by qualified name: of two specs with one name the later stays. */
  function CatalogOf(specs: seq<Spec>): map<string, Spec> {
    if specs == [] then map[]
    else CatalogOf(specs[..|specs| - 1])[NameOf(specs[|specs| - 1]) := specs[|specs| - 1]]
  }

  ghost predicate CleanServers(specs: seq<Spec>) { forall i :: 0 <= i < |specs| ==> Clean(specs[i].server) }

  /** Every entry is one of the specs, under its own name. */
  lemma {:induction false} CatalogHoldsSpecs(specs: seq<Spec>, q: string)
    requires q in CatalogOf(specs)
    ensures CatalogOf(specs)[q] in specs && NameOf(CatalogOf(specs)[q]) == q
  {
    var init := specs[..|specs| - 1];
    if q == NameOf(specs[|specs| - 1]) {
    } else {
      CatalogHoldsSpecs(init, q);
    }
  }

  lemma {:induction false} CatalogHasEveryName(specs: seq<Spec>, spec: Spec)
    requires spec in specs
    ensures NameOf(spec) in CatalogOf(specs)
  {
    var init := specs[..|specs| - 1];
    if spec == specs[|specs| - 1] {
    } else {
      CatalogHasEveryName(init, spec);
    }
  }

  /** With clean server names no spec is lost: the catalog finds each under its name. */
  lemma CatalogFindsEverySpec(specs: seq<Spec>, spec: Spec)
    requires CleanServers(specs) && spec in specs
    ensures NameOf(spec) in CatalogOf(specs) && CatalogOf(specs)[NameOf(spec)] == spec
  {
    CatalogHasEveryName(specs, spec);
    CatalogHoldsSpecs(specs, NameOf(spec));
    var found := CatalogOf(specs)[NameOf(spec)];
    QualifiedNamesAreUnique(spec.server, spec.name, found.server, found.name);
  }
}
