/** Which tools an account is shown and which calls it may make: the listing and the checks
    of a call are separate code over the same tables. */
module ToolAccess {
  import opened Common
  import Grants

  datatype Capability = Capability(id: string, server: string, exposedName: string, isTool: bool, active: bool)

  datatype Server = Server(namespace: string, active: bool, deleted: bool)

  datatype Agent = Agent(active: bool)

  datatype Tables = Tables(
    agents: map<string, Agent>,
    callers: set<(string, string)>,
    capabilities: map<string, Capability>,
    servers: map<string, Server>,
    grants: seq<Grants.Grant>)

  datatype Identity = Identity(user: string, agent: string)

  // A tool as shown at an endpoint, under a name of its own.
  datatype Tool = Tool(name: string, capability: Capability)

  datatype Refusal =
    | AgentDisabled | CapabilityNotFound | NotOnEndpoint | CapabilityDisabled | ServerDisabled | NotGranted |
        NameConflict

  // ---- The capability table ----

  // An exposed name is held by one capability at most.
  ghost predicate OneHolder(capabilities: map<string, Capability>) {
    && (forall i :: i in capabilities ==> capabilities[i].id == i)
    && forall i, j ::
         i in capabilities && j in capabilities && capabilities[i].exposedName == capabilities[j].exposedName ==> i == j
  }

  // Saving a capability takes its exposed name from whatever else held it.
  function Saved(capabilities: map<string, Capability>, c: Capability): map<string, Capability> {
    (map i | i in capabilities
        && (i == c.id || capabilities[i].exposedName != c.exposedName) :: capabilities[i])[c.id := c]
  }

  lemma SavingKeepsOneHolder(capabilities: map<string, Capability>, c: Capability, i: string)
    requires OneHolder(capabilities)
    ensures OneHolder(Saved(capabilities, c)) && Saved(capabilities, c)[c.id] == c
    ensures i in Saved(capabilities, c) && i != c.id <==>
        i in capabilities && i != c.id && capabilities[i].exposedName != c.exposedName
  {}

  // ---- A call ----

  predicate CallerOk(t: Tables, who: Identity) {
    who.agent in t.agents && t.agents[who.agent].active && (who.user, who.agent) in t.callers
  }

  predicate ServerUsable(t: Tables, server: string) {
    server in t.servers && !t.servers[server].deleted && t.servers[server].active
  }

  predicate OnEndpoint(c: Capability, endpoint: string) {
    endpoint == "" || c.server == endpoint
  }

  predicate Holds(capabilities: map<string, Capability>, id: string, exposedName: string) {
    id in capabilities && capabilities[id].exposedName == exposedName
  }

  // The checks of a call up to the decision on its grant, in their order.
  method CheckCall(t: Tables, who: Identity, exposedName: string, endpoint: string, now: Time)
    returns (r: Result<Capability, Refusal>)
    requires OneHolder(t.capabilities)
    ensures r.Ok?
        <==> exists i :: Holds(t.capabilities, i, exposedName) && MayCall(t, who, t.capabilities[i], endpoint, now)
    ensures r.Ok? ==> Holds(t.capabilities, r.value.id, exposedName) && t.capabilities[r.value.id] == r.value
    ensures r == Err(AgentDisabled) <==> !CallerOk(t, who)
    ensures r == Err(CapabilityNotFound) <==>
        CallerOk(t, who) && forall i :: !Holds(t.capabilities, i, exposedName)
    ensures CallerOk(t, who) ==> forall i :: Holds(t.capabilities, i, exposedName) ==>
        var c := t.capabilities[i];
        && (r == Err(NotOnEndpoint) <==> !OnEndpoint(c, endpoint))
        && (r == Err(CapabilityDisabled) <==> OnEndpoint(c, endpoint) && !(c.isTool && c.active))
        && (r == Err(ServerDisabled) <==>
              OnEndpoint(c, endpoint) && c.isTool && c.active && !ServerUsable(t, c.server))
        && (r == Err(NotGranted) <==>
              OnEndpoint(c, endpoint) && c.isTool && c.active && ServerUsable(t, c.server)
              && !Grants.IsAllowed(now, t.grants, who.user, c.id, Grants.TOOL_GRANT))
  {
    if who.agent !in t.agents || !t.agents[who.agent].active || (who.user, who.agent) !in t.callers {
      return Err(AgentDisabled);
    }
    var found := Holder(t.capabilities, exposedName);
    if found.None? {
      return Err(CapabilityNotFound);
    }
    var c := found.value;
    if endpoint != "" && c.server != endpoint {
      return Err(NotOnEndpoint);
    }
    if !c.isTool || !c.active {
      return Err(CapabilityDisabled);
    }
    if c.server !in t.servers || t.servers[c.server].deleted || !t.servers[c.server].active {
      return Err(ServerDisabled);
    }
    // The store hands out the user's tool grants for this capability only.
    var grants := GrantsFor(t.grants, who.user, c.id);
    var d := Grants.DecideGrant(now, grants, who.user, c.id, Grants.TOOL_GRANT);
    SameDecision(now, t.grants, who.user, c.id);
    if !d.Allowed? {
      return Err(NotGranted);
    }
    r := Ok(c);
  }

  // The capability that holds an exposed name.
  method Holder(capabilities: map<string, Capability>, exposedName: string) returns (found: Option<Capability>)
    requires OneHolder(capabilities)
    ensures found.Some?
        ==> Holds(capabilities, found.value.id, exposedName) && capabilities[found.value.id] == found.value
    ensures found.None? ==> forall i :: !Holds(capabilities, i, exposedName)
  {
    var ids := capabilities.Keys;
    while ids != {}
      invariant ids <= capabilities.Keys
      invariant forall i :: i in capabilities && i !in ids ==> capabilities[i].exposedName != exposedName
      decreases |ids|
    {
      var i :| i in ids;
      if capabilities[i].exposedName == exposedName {
        return Some(capabilities[i]);
      }
      ids := ids - {i};
    }
    found := None;
  }

  function GrantsFor(grants: seq<Grants.Grant>, user: string, capability: string): seq<Grants.Grant> {
    if grants == [] then []
    else
      var rest, g := GrantsFor(grants[1..], user, capability), grants[0];
      if g.user == user && g.kind == Grants.TOOL_GRANT && (capability == "" || g.capability == capability)
        then [g] + rest else rest
  }

  predicate Kept(g: Grants.Grant, grants: seq<Grants.Grant>, user: string, capability: string) {
    g in grants && g.user == user && g.kind == Grants.TOOL_GRANT && (capability == "" || g.capability == capability)
  }

  lemma {:induction false} GrantsForAre(grants: seq<Grants.Grant>, user: string, capability: string, g: Grants.Grant)
    ensures g in GrantsFor(grants, user, capability) <==> Kept(g, grants, user, capability)
  {
    if grants != [] {
      GrantsForAre(grants[1..], user, capability, g);
    }
  }

  // Whether the grants of the user are listed for one capability or for all, the decision
  // on the capability is the same.
  lemma SameDecision(now: Time, grants: seq<Grants.Grant>, user: string, capability: string)
    ensures Grants.IsAllowed(now, GrantsFor(grants, user, capability), user, capability, Grants.TOOL_GRANT)
      <==> Grants.IsAllowed(now, grants, user, capability, Grants.TOOL_GRANT)
    ensures Grants.IsAllowed(now, GrantsFor(grants, user, ""), user, capability, Grants.TOOL_GRANT)
      <==> Grants.IsAllowed(now, grants, user, capability, Grants.TOOL_GRANT)
  {
    forall g
      ensures g in GrantsFor(grants, user, capability) <==> Kept(g, grants, user, capability)
      ensures g in GrantsFor(grants, user, "") <==> Kept(g, grants, user, "")
    {
      GrantsForAre(grants, user, capability, g);
      GrantsForAre(grants, user, "", g);
    }
  }

  // Everything that a call's checks ask of a capability.
  ghost predicate MayCall(t: Tables, who: Identity, c: Capability, endpoint: string, now: Time) {
    && CallerOk(t, who) && OnEndpoint(c, endpoint) && c.isTool && c.active && ServerUsable(t, c.server)
    && Grants.IsAllowed(now, t.grants, who.user, c.id, Grants.TOOL_GRANT)
  }

  // ---- The listing ----

  function TrimPrefix(s: string, prefix: string): string {
    if prefix <= s then s[|prefix|..] else s
  }

  // The name under which an endpoint shows a capability: without its server's namespace at
  // the server's own endpoint.
  function ShownAs(t: Tables, c: Capability, endpoint: string): string {
    if endpoint == "" || c.server !in t.servers || t.servers[c.server].namespace == "" then c.exposedName
    else TrimPrefix(c.exposedName, t.servers[c.server].namespace + ".")
  }

  // A tool is shown under its exposed name, but at its server's own endpoint without the
  // server's namespace and the dot after it, where they are in front.
  lemma ShownNamesMean(t: Tables, c: Capability, endpoint: string)
    ensures endpoint == "" ==> ShownAs(t, c, endpoint) == c.exposedName
    ensures endpoint != "" && c.server in t.servers ==>
        var namespace := t.servers[c.server].namespace;
        && (namespace == "" ==> ShownAs(t, c, endpoint) == c.exposedName)
        && (namespace != "" ==>
              if exists rest :: c.exposedName == namespace + "." + rest
              then c.exposedName == namespace + "." + ShownAs(t, c, endpoint)
              else ShownAs(t, c, endpoint) == c.exposedName)
  {
    if endpoint != "" && c.server in t.servers && t.servers[c.server].namespace != "" {
      var prefix := t.servers[c.server].namespace + ".";
      if rest :| c.exposedName == prefix + rest {
        assert prefix <= c.exposedName;
      }
      if prefix <= c.exposedName {
        assert c.exposedName == prefix + c.exposedName[|prefix|..];
      }
    }
  }

  predicate Listed(t: Tables, c: Capability) {
    c.isTool && c.active && !(c.server in t.servers && t.servers[c.server].deleted)
  }

  // `active` are the active tool capabilities in the order of the store's listing.
  ghost predicate ListsActive(t: Tables, active: seq<Capability>) {
    && Distinct(active)
    && forall c :: c in active <==> c.id in t.capabilities && t.capabilities[c.id] == c && Listed(t, c)
  }

  // Two of the tools that may be called would be shown under one name.
  ghost predicate SameName(t: Tables, who: Identity, a: Capability, b: Capability, endpoint: string, now: Time) {
    && MayCall(t, who, a, endpoint, now) && MayCall(t, who, b, endpoint, now)
    && ShownAs(t, a, endpoint) == ShownAs(t, b, endpoint)
  }

  ghost predicate ShowsAlike(t: Tables, who: Identity, active: seq<Capability>, endpoint: string, now: Time) {
    exists i, j :: 0 <= i < j < |active| && SameName(t, who, active[i], active[j], endpoint, now)
  }

  ghost predicate IsShown(t: Tables, who: Identity, x: Tool, endpoint: string, now: Time) {
    MayCall(t, who, x.capability, endpoint, now) && x.name == ShownAs(t, x.capability, endpoint)
  }

  // The tools are those of the active ones that may be called, each under its name.
  ghost predicate ShowsExactly(
      t: Tables, who: Identity, active: seq<Capability>, endpoint: string, now: Time, tools: seq<Tool>) {
    forall x :: x in tools <==> x.capability in active && IsShown(t, who, x, endpoint, now)
  }

  lemma OneMoreShown(
      t: Tables, who: Identity, active: seq<Capability>, c: Capability, endpoint: string, now: Time, tools: seq<Tool>)
    requires ShowsExactly(t, who, active, endpoint, now, tools) && !ShowsAlike(t, who, active, endpoint, now)
    requires MayCall(t, who, c, endpoint, now) && forall x :: x in tools ==> x.name != ShownAs(t, c, endpoint)
    ensures ShowsExactly(t, who, active + [c], endpoint, now, tools + [Tool(ShownAs(t, c, endpoint), c)])
    ensures !ShowsAlike(t, who, active + [c], endpoint, now)
  {
    forall i, j | 0 <= i < j < |active + [c]|
      ensures !SameName(t, who, (active + [c])[i], (active + [c])[j], endpoint, now)
    {
      var a := (active + [c])[i];
      assert a == active[i] && a in active;
      if j == |active| && MayCall(t, who, a, endpoint, now) {
        assert Tool(ShownAs(t, a, endpoint), a) in tools;
      }
    }
  }

  lemma OneMoreFiltered(
      t: Tables, who: Identity, active: seq<Capability>, c: Capability, endpoint: string, now: Time, tools: seq<Tool>)
    requires ShowsExactly(t, who, active, endpoint, now, tools) && !ShowsAlike(t, who, active, endpoint, now)
    requires !MayCall(t, who, c, endpoint, now)
    ensures ShowsExactly(t, who, active + [c], endpoint, now, tools)
    ensures !ShowsAlike(t, who, active + [c], endpoint, now)
  {
    forall i, j | 0 <= i < j < |active + [c]|
      ensures !SameName(t, who, (active + [c])[i], (active + [c])[j], endpoint, now)
    {}
  }

  lemma Alike(t: Tables, who: Identity, active: seq<Capability>, i: nat, other: Capability, endpoint: string, now: Time)
    requires i < |active| && other in active[..i] && SameName(t, who, other, active[i], endpoint, now)
    ensures ShowsAlike(t, who, active, endpoint, now)
  {
    var k :| 0 <= k < i && active[..i][k] == other;
    assert active[k] == other;
  }

  method VisibleTools(t: Tables, who: Identity, endpoint: string, now: Time, active: seq<Capability>)
    returns (r: Result<seq<Tool>, Refusal>, filtered: nat)
    requires OneHolder(t.capabilities) && ListsActive(t, active)
    ensures r == Err(AgentDisabled) <==> !CallerOk(t, who)
    ensures r == Err(ServerDisabled) <==> CallerOk(t, who) && endpoint != "" && !ServerUsable(t, endpoint)
    ensures CallerOk(t, who) && (endpoint == "" || ServerUsable(t, endpoint)) ==>
        (r == Err(NameConflict) <==> ShowsAlike(t, who, active, endpoint, now))
    ensures r.Ok? ==> ShowsExactly(t, who, active, endpoint, now, r.value) && |r.value| + filtered == |active|
    ensures r.Err? ==> r.error == AgentDisabled || r.error == ServerDisabled || r.error == NameConflict
  {
    filtered := 0;
    if who.agent !in t.agents || !t.agents[who.agent].active || (who.user, who.agent) !in t.callers {
      return Err(AgentDisabled), 0;
    }
    if endpoint != "" && (endpoint !in t.servers || t.servers[endpoint].deleted || !t.servers[endpoint].active) {
      return Err(ServerDisabled), 0;
    }
    var grants := GrantsFor(t.grants, who.user, "");
    var tools: seq<Tool> := [];
    var names: map<string, Capability> := map[];
    for i := 0 to |active|
      invariant |tools| + filtered == i
      invariant ShowsExactly(t, who, active[..i], endpoint, now, tools)
      invariant !ShowsAlike(t, who, active[..i], endpoint, now)
      invariant forall x :: x in tools ==> x.name in names
      invariant forall n :: n in names ==> Tool(n, names[n]) in tools
    {
      var c := active[i];
      assert active[..i + 1] == active[..i] + [c];
      var usable := c.server in t.servers && !t.servers[c.server].deleted && t.servers[c.server].active;
      var shown := usable && (endpoint == "" || c.server == endpoint);
      if shown {
        var d := Grants.DecideGrant(now, grants, who.user, c.id, Grants.TOOL_GRANT);
        SameDecision(now, t.grants, who.user, c.id);
        shown := d.Allowed?;
      }
      assert c in active && shown == MayCall(t, who, c, endpoint, now);
      if !shown {
        filtered := filtered + 1;
        OneMoreFiltered(t, who, active[..i], c, endpoint, now, tools);
        continue;
      }
      var name := ShownAs(t, c, endpoint);
      if name in names {
        assert IsShown(t, who, Tool(name, names[name]), endpoint, now);
        Alike(t, who, active, i, names[name], endpoint, now);
        return Err(NameConflict), 0;
      }
      OneMoreShown(t, who, active[..i], c, endpoint, now, tools);
      names := names[name := c];
      tools := tools + [Tool(name, c)];
    }
    assert active[..|active|] == active;
    r := Ok(tools);
  }

  // ---- Main results ----

  // The listing shows a capability just when a call of its exposed name passes every check
  // up to the decision on its grant, and leads to this capability.
  lemma ListAndCallAgree(
      t: Tables, who: Identity, endpoint: string, now: Time, active: seq<Capability>, tools: seq<Tool>, c: Capability)
    requires OneHolder(t.capabilities) && ListsActive(t, active) && ShowsExactly(t, who, active, endpoint, now, tools)
    ensures Tool(ShownAs(t, c, endpoint), c) in tools <==>
      c.id in t.capabilities && t.capabilities[c.id] == c
      && exists i :: Holds(t.capabilities, i, c.exposedName) && MayCall(t, who, t.capabilities[i], endpoint, now)
  {
    if c.id in t.capabilities && t.capabilities[c.id] == c {
      assert Holds(t.capabilities, c.id, c.exposedName);
    }
  }

  // At the common endpoint no two tools share a name.
  lemma CommonEndpointHasNoConflict(t: Tables, who: Identity, now: Time, active: seq<Capability>)
    requires OneHolder(t.capabilities) && ListsActive(t, active)
    ensures !ShowsAlike(t, who, active, "", now)
  {
    forall i, j | 0 <= i < j < |active|
      ensures !SameName(t, who, active[i], active[j], "", now)
    {
      assert active[i] in active && active[j] in active;
    }
  }

  // At a server's own endpoint they share one just when dropping its namespace makes two
  // of its exposed names alike: one of them without the namespace, one with it.
  lemma ConflictOnlyAcrossNamespace(t: Tables, who: Identity, a: Capability, b: Capability, endpoint: string, now: Time)
    requires OneHolder(t.capabilities) && a.id in t.capabilities && t.capabilities[a.id] == a
    requires b.id in t.capabilities && t.capabilities[b.id] == b && a != b && endpoint != ""
    requires MayCall(t, who, a, endpoint, now) && MayCall(t, who, b, endpoint, now)
    ensures var prefix := t.servers[endpoint].namespace + ".";
      ShownAs(t, a, endpoint) == ShownAs(t, b, endpoint) <==>
        t.servers[endpoint].namespace != ""
            && (a.exposedName == prefix + b.exposedName || b.exposedName == prefix + a.exposedName)
        && !(prefix <= a.exposedName && prefix <= b.exposedName)
  {
    var prefix := t.servers[endpoint].namespace + ".";
    assert prefix <= a.exposedName ==> a.exposedName == prefix + a.exposedName[|prefix|..];
    assert prefix <= b.exposedName ==> b.exposedName == prefix + b.exposedName[|prefix|..];
    assert a.exposedName == prefix + b.exposedName ==> a.exposedName[|prefix|..] == b.exposedName;
    assert b.exposedName == prefix + a.exposedName ==> b.exposedName[|prefix|..] == a.exposedName;
  }
}
