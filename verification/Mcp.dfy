/** Merging MCP servers from three layers: plugins, the global file, the workspace file. */
module McpConfigs {
  import opened Outcome
  import opened Order
  import Ranks

  type Id = string
  type Server = string
  type Servers = map<Id, Server>

  /** What reading an mcp.json gave: an error, no file, or its servers. */
  type File = Result<Option<Servers>, string>

  datatype Plugin = Plugin(name: string, dir: string, root: string, loadable: bool, file: File)

  datatype Origin = FromPlugin(plugin: string, dir: string) | FromGlobal | FromWorkspace

  datatype Finding = Unreadable(plugin: string, error: string) | Collision(id: Id, plugins: seq<string>)

  datatype Shadowed = Shadowed(id: Id, winner: Origin, loser: Origin)

  datatype Resolution = Resolution(config: Option<Servers>, shadowed: seq<Shadowed>, findings: seq<Finding>)

  /** Replaces the variables in one server, given the plugin root it belongs to. */
  type Expand = (Server, string) -> Server

  // ---------- the plugin layer ----------

  predicate NameLess(a: Plugin, b: Plugin) {
    Less(a.name, b.name)
  }

  predicate Claims(p: Plugin, id: Id) {
    p.loadable && p.file.Ok? && p.file.value.Some? && id in p.file.value.value
  }

  predicate Fails(p: Plugin) {
    p.loadable && p.file.Err?
  }

  function Claimants(plugins: seq<Plugin>, id: Id): (r: seq<Plugin>)
    ensures forall p :: p in r ==> Claims(p, id)
  {
    if plugins == [] then []
    else
      var last := plugins[|plugins| - 1];
      Claimants(plugins[..|plugins| - 1], id) + if Claims(last, id) then [last] else []
  }

  function NameOf(p: Plugin): string {
    p.name
  }

  function Names(plugins: seq<Plugin>): (r: seq<string>)
    ensures |r| == |plugins|
  {
    Mapped(plugins, NameOf)
  }

  function Failing(plugins: seq<Plugin>): seq<Plugin> {
    if plugins == [] then []
    else
      var last := plugins[|plugins| - 1];
      Failing(plugins[..|plugins| - 1]) + if Fails(last) then [last] else []
  }

  function FailureOf(p: Plugin): Finding {
    Unreadable(p.name, if p.file.Err? then p.file.error else "")
  }

  function Failures(plugins: seq<Plugin>): seq<Finding> {
    Mapped(Failing(plugins), FailureOf)
  }

  function Loadable(plugins: seq<Plugin>): seq<Plugin> {
    if plugins == [] then []
    else
      var last := plugins[|plugins| - 1];
      Loadable(plugins[..|plugins| - 1]) + if last.loadable then [last] else []
  }

  method LoadablePlugins(plugins: seq<Plugin>) returns (out: seq<Plugin>)
    ensures out == Sort(Loadable(plugins), NameLess)
  {
    out := [];
    for i := 0 to |plugins|
      invariant out == Loadable(plugins[..i])
    {
      assert plugins[..i + 1][..i] == plugins[..i];
      if plugins[i].loadable {
        out := out + [plugins[i]];
      }
    }
    assert plugins[..|plugins|] == plugins;
    out := Sort(out, NameLess);
  }

  /** What a plugin that alone claims id contributes. */
  predicate Owns(p: Plugin, id: Id, expand: Expand, owner: map<Id, Origin>, servers: Servers)
    requires Claims(p, id)
  {
    && id in owner && owner[id] == FromPlugin(p.name, p.dir)
    && id in servers && servers[id] == expand(p.file.value.value[id], p.root)
  }

  /** The names in conflict over id, as the finding lists them. */
  function Rivals(plugins: seq<Plugin>, id: Id): seq<string> {
    Sort(Names(Claimants(plugins, id)), Less)
  }

  /** Everything the plugin layer amounts to: an id loads exactly when one plugin claims
      it; an id with more claimants gives one finding that names them all. */
  ghost predicate IsPluginLayer(plugins: seq<Plugin>, expand: Expand, owner: map<Id, Origin>, servers: Servers, findings: seq<Finding>) {
    && (forall id :: (id in servers <==> |Claimants(plugins, id)| == 1) && (id in owner <==> id in servers))
    && (forall id :: |Claimants(plugins, id)| == 1 ==> Owns(Claimants(plugins, id)[0], id, expand, owner, servers))
    && exists collisions :: IsCollisions(plugins, collisions) && multiset(findings) == multiset(Failures(plugins)) + multiset(collisions)
  }

  ghost predicate IsCollisions(plugins: seq<Plugin>, collisions: seq<Finding>) {
    NoRepeats(collisions) &&
    forall f :: f in collisions <==>
      f.Collision? && |Claimants(plugins, f.id)| >= 2 && f.plugins == Rivals(plugins, f.id)
  }

  /** One id of one plugin's file, added to the tables. */
  method ReadServer(p: Plugin, id: Id, expand: Expand, owner: map<Id, Origin>, servers: Servers, colliding: map<Id, seq<string>>)
    returns (owner2: map<Id, Origin>, servers2: Servers, colliding2: map<Id, seq<string>>)
    requires Claims(p, id)
    requires id in colliding ==> colliding[id] != []
    requires id in owner ==> owner[id].FromPlugin?
    ensures if id in owner then owner2 == owner && servers2 == servers
            else owner2 == owner[id := FromPlugin(p.name, p.dir)] && servers2 == servers[id := expand(p.file.value.value[id], p.root)]
    ensures colliding2 == if id !in owner then colliding
                          else colliding[id := (if id in colliding then colliding[id] else [owner[id].plugin]) + [p.name]]
  {
    owner2, servers2, colliding2 := owner, servers, colliding;
    if id in owner {
      if id !in colliding2 {
        colliding2 := colliding2[id := [owner[id].plugin]];
      }
      colliding2 := colliding2[id := colliding2[id] + [p.name]];
      return;
    }
    owner2 := owner2[id := FromPlugin(p.name, p.dir)];
    servers2 := servers2[id := expand(p.file.value.value[id], p.root)];
  }

  /** What the loop's tables hold for one id once the given plugins were read: its first
      claimant, and all its claimants as soon as there are two. */
  ghost predicate TablesHold(plugins: seq<Plugin>, id: Id, expand: Expand, owner: map<Id, Origin>, servers: Servers, colliding: map<Id, seq<string>>) {
    var c := Claimants(plugins, id);
    && (id in servers <==> c != []) && (id in owner <==> c != [])
    && (c != [] ==> Owns(c[0], id, expand, owner, servers))
    && (id in colliding <==> |c| >= 2) && (id in colliding ==> colliding[id] == Names(c))
  }

  lemma ClaimantsAppend(plugins: seq<Plugin>, p: Plugin, id: Id)
    ensures Claimants(plugins + [p], id) == Claimants(plugins, id) + if Claims(p, id) then [p] else []
  {
    assert (plugins + [p])[..|plugins|] == plugins;
  }

  lemma NamesAppend(plugins: seq<Plugin>, p: Plugin)
    ensures Names(plugins + [p]) == Names(plugins) + [p.name]
  {
    MappedConcat(plugins, [p], NameOf);
    assert Mapped([p], NameOf) == [NameOf(p)];
  }

  lemma FailuresAppend(plugins: seq<Plugin>, p: Plugin)
    ensures Failures(plugins + [p]) == Failures(plugins) + if Fails(p) then [FailureOf(p)] else []
  {
    assert (plugins + [p])[..|plugins|] == plugins;
    MappedConcat(Failing(plugins), if Fails(p) then [p] else [], FailureOf);
    assert Mapped([p], FailureOf) == [FailureOf(p)];
  }

  lemma ReadOne(plugins: seq<Plugin>, p: Plugin, id: Id, expand: Expand,
                owner: map<Id, Origin>, servers: Servers, colliding: map<Id, seq<string>>,
                owner2: map<Id, Origin>, servers2: Servers, colliding2: map<Id, seq<string>>)
    requires Claims(p, id) && TablesHold(plugins, id, expand, owner, servers, colliding)
    requires if id in owner then owner2 == owner && servers2 == servers
             else owner2 == owner[id := FromPlugin(p.name, p.dir)] && servers2 == servers[id := expand(p.file.value.value[id], p.root)]
    requires id in owner ==> owner[id].FromPlugin?
    requires colliding2 == if id !in owner then colliding
                           else colliding[id := (if id in colliding then colliding[id] else [owner[id].plugin]) + [p.name]]
    ensures TablesHold(plugins + [p], id, expand, owner2, servers2, colliding2)
  {
    var c := Claimants(plugins, id);
    ClaimantsAppend(plugins, p, id);
    var c2 := Claimants(plugins + [p], id);
    assert c2 == c + [p];
    NamesAppend(c, p);
    if c != [] {
      assert c2[0] == c[0] && Owns(c2[0], id, expand, owner2, servers2);
      if |c| == 1 {
        assert Names(c)[0] == NameOf(c[0]);
      }
      assert colliding2[id] == Names(c2);
    } else {
      assert c2[0] == p && Owns(c2[0], id, expand, owner2, servers2);
    }
  }

  lemma OtherIdsUnread(plugins: seq<Plugin>, id: Id, expand: Expand,
                       owner: map<Id, Origin>, servers: Servers, colliding: map<Id, seq<string>>,
                       owner2: map<Id, Origin>, servers2: Servers, colliding2: map<Id, seq<string>>)
    requires TablesHold(plugins, id, expand, owner, servers, colliding)
    requires (id in owner <==> id in owner2) && (id in owner ==> owner2[id] == owner[id])
    requires (id in servers <==> id in servers2) && (id in servers ==> servers2[id] == servers[id])
    requires (id in colliding <==> id in colliding2) && (id in colliding ==> colliding2[id] == colliding[id])
    ensures TablesHold(plugins, id, expand, owner2, servers2, colliding2)
  {
  }

  /** Adds one plugin's servers, in whatever order its file's ids are visited. */
  method ReadPlugin(ghost plugins: seq<Plugin>, p: Plugin, expand: Expand, owner: map<Id, Origin>, servers: Servers, colliding: map<Id, seq<string>>)
    returns (owner2: map<Id, Origin>, servers2: Servers, colliding2: map<Id, seq<string>>)
    requires p.loadable && p.file.Ok? && p.file.value.Some?
    requires forall id :: TablesHold(plugins, id, expand, owner, servers, colliding)
    ensures forall id :: TablesHold(plugins + [p], id, expand, owner2, servers2, colliding2)
  {
    hide TablesHold, Claimants;
    owner2, servers2, colliding2 := owner, servers, colliding;
    var left := p.file.value.value.Keys;
    forall id ensures TablesHold(if id in left then plugins else plugins + [p], id, expand, owner2, servers2, colliding2) {
      if id !in left {
        Unclaimed(plugins, p, id, expand, owner, servers, colliding);
      }
    }
    while left != {}
      invariant left <= p.file.value.value.Keys
      invariant forall id :: TablesHold(if id in left then plugins else plugins + [p], id, expand, owner2, servers2, colliding2)
      decreases left
    {
      var id :| id in left;
      ghost var o, s, c := owner2, servers2, colliding2;
      assert TablesHold(plugins, id, expand, o, s, c);
      TablesAreSane(plugins, id, expand, o, s, c);
      owner2, servers2, colliding2 := ReadServer(p, id, expand, owner2, servers2, colliding2);
      ReadOne(plugins, p, id, expand, o, s, c, owner2, servers2, colliding2);
      forall x ensures TablesHold(if x in left - {id} then plugins else plugins + [p], x, expand, owner2, servers2, colliding2) {
        if x != id {
          OtherIdsUnread(if x in left then plugins else plugins + [p], x, expand, o, s, c, owner2, servers2, colliding2);
        }
      }
      left := left - {id};
    }
    forall id ensures TablesHold(plugins + [p], id, expand, owner2, servers2, colliding2) {
      assert TablesHold(if id in left then plugins else plugins + [p], id, expand, owner2, servers2, colliding2);
    }
  }

  lemma Unclaimed(plugins: seq<Plugin>, p: Plugin, id: Id, expand: Expand, owner: map<Id, Origin>, servers: Servers, colliding: map<Id, seq<string>>)
    requires TablesHold(plugins, id, expand, owner, servers, colliding) && !Claims(p, id)
    ensures TablesHold(plugins + [p], id, expand, owner, servers, colliding)
  {
    ClaimantsAppend(plugins, p, id);
    assert Claimants(plugins + [p], id) == Claimants(plugins, id);
  }

  lemma TablesAreSane(plugins: seq<Plugin>, id: Id, expand: Expand, owner: map<Id, Origin>, servers: Servers, colliding: map<Id, seq<string>>)
    requires TablesHold(plugins, id, expand, owner, servers, colliding)
    ensures id in colliding ==> colliding[id] != []
    ensures id in owner ==> owner[id].FromPlugin?
  {
  }

  /** The findings for ids claimed more than once, in whatever order the map yields them. */
  method ReportCollisions(colliding: map<Id, seq<string>>) returns (collisions: seq<Finding>)
    ensures NoRepeats(collisions)
    ensures forall f :: f in collisions <==> f.Collision? && f.id in colliding && f.plugins == Sort(colliding[f.id], Less)
  {
    collisions := [];
    var left := colliding.Keys;
    while left != {}
      invariant left <= colliding.Keys && NoRepeats(collisions)
      invariant forall f :: f in collisions <==>
                  f.Collision? && f.id in colliding && f.id !in left && f.plugins == Sort(colliding[f.id], Less)
      decreases left
    {
      var id :| id in left;
      NoRepeatsAppend(collisions, Collision(id, Sort(colliding[id], Less)));
      collisions := collisions + [Collision(id, Sort(colliding[id], Less))];
      left := left - {id};
    }
  }

  method LoadPluginServers(plugins: seq<Plugin>, expand: Expand)
    returns (owner: map<Id, Origin>, servers: Servers, findings: seq<Finding>)
    ensures IsPluginLayer(plugins, expand, owner, servers, findings)
    ensures exists collisions :: IsCollisions(plugins, collisions) && findings == Failures(Sort(Loadable(plugins), NameLess)) + collisions
  {
    var loadable := LoadablePlugins(plugins);
    owner, servers, findings := map[], map[], [];
    var colliding: map<Id, seq<string>> := map[];
    assert forall id :: TablesHold([], id, expand, owner, servers, colliding);
    assert loadable[..0] == [];
    for i := 0 to |loadable|
      invariant forall id :: TablesHold(loadable[..i], id, expand, owner, servers, colliding)
      invariant findings == Failures(loadable[..i])
    {
      hide TablesHold, Failures, Claimants, Sort;
      var p := loadable[i];
      ghost var next := loadable[..i + 1];
      assert next == loadable[..i] + [p] && next[..i] == loadable[..i];
      LoadedAreLoadable(plugins, p);
      FailuresAppend(loadable[..i], p);
      if p.file.Err? {
        findings := findings + [Unreadable(p.name, p.file.error)];
        forall id ensures TablesHold(next, id, expand, owner, servers, colliding) {
          Unclaimed(loadable[..i], p, id, expand, owner, servers, colliding);
        }
      } else if p.file.value.None? {
        forall id ensures TablesHold(next, id, expand, owner, servers, colliding) {
          Unclaimed(loadable[..i], p, id, expand, owner, servers, colliding);
        }
      } else {
        owner, servers, colliding := ReadPlugin(loadable[..i], p, expand, owner, servers, colliding);
      }
    }
    assert loadable[..|loadable|] == loadable;
    var collisions := ReportCollisions(colliding);
    ghost var o, s := owner, servers;
    owner := owner - colliding.Keys;
    servers := servers - colliding.Keys;
    LayerIsRead(plugins, expand, o, s, colliding, owner, servers, findings, collisions);
    findings := findings + collisions;
  }

  lemma LoadedAreLoadable(plugins: seq<Plugin>, p: Plugin)
    ensures p in Sort(Loadable(plugins), NameLess) ==> p.loadable
  {
    LoadedTimes(plugins, p);
  }

  lemma LoadedTimes(plugins: seq<Plugin>, p: Plugin)
    ensures multiset(Sort(Loadable(plugins), NameLess))[p] == if p.loadable then multiset(plugins)[p] else 0
  {
    LessIsOrder();
    assert IsOrder(NameLess);
    SortSorts(Loadable(plugins), NameLess);
    LoadableTimes(plugins, p);
  }

  lemma {:induction false} LoadableTimes(plugins: seq<Plugin>, p: Plugin)
    ensures multiset(Loadable(plugins))[p] == if p.loadable then multiset(plugins)[p] else 0
  {
    if plugins != [] {
      LoadableTimes(plugins[..|plugins| - 1], p);
      assert plugins == plugins[..|plugins| - 1] + [plugins[|plugins| - 1]];
    }
  }

  lemma {:induction false} ClaimantsTimes(plugins: seq<Plugin>, id: Id, p: Plugin)
    ensures multiset(Claimants(plugins, id))[p] == if Claims(p, id) then multiset(plugins)[p] else 0
  {
    if plugins != [] {
      ClaimantsTimes(plugins[..|plugins| - 1], id, p);
      assert plugins == plugins[..|plugins| - 1] + [plugins[|plugins| - 1]];
    }
  }

  lemma {:induction false} FailingTimes(plugins: seq<Plugin>, p: Plugin)
    ensures multiset(Failing(plugins))[p] == if Fails(p) then multiset(plugins)[p] else 0
  {
    if plugins != [] {
      FailingTimes(plugins[..|plugins| - 1], p);
      assert plugins == plugins[..|plugins| - 1] + [plugins[|plugins| - 1]];
    }
  }

  /** Both hold the same loadable plugins, as often. */
  ghost predicate SameLoadable(s: seq<Plugin>, t: seq<Plugin>) {
    forall p: Plugin :: p.loadable ==> multiset(s)[p] == multiset(t)[p]
  }

  /** Who claims an id, and who fails, are facts about the plugins and not their order. */
  lemma SameClaims(s: seq<Plugin>, t: seq<Plugin>, id: Id)
    requires SameLoadable(s, t)
    ensures |Claimants(s, id)| == |Claimants(t, id)| && Rivals(s, id) == Rivals(t, id)
    ensures |Claimants(s, id)| == 1 ==> Claimants(s, id) == Claimants(t, id)
  {
    var c, d := Claimants(s, id), Claimants(t, id);
    hide Claimants, SameLoadable, Claims, Sort;
    SameClaimants(s, t, id);
    SameElements(c, d);
    SameNames(c, d);
    if |c| == 1 {
      assert c[0] in d;
      assert c == [c[0]] && d == [d[0]];
    }
  }

  lemma SameClaimants(s: seq<Plugin>, t: seq<Plugin>, id: Id)
    requires SameLoadable(s, t)
    ensures multiset(Claimants(s, id)) == multiset(Claimants(t, id))
  {
    forall p ensures multiset(Claimants(s, id))[p] == multiset(Claimants(t, id))[p] {
      ClaimantsTimes(s, id, p);
      ClaimantsTimes(t, id, p);
    }
  }

  lemma SameNames(c: seq<Plugin>, d: seq<Plugin>)
    requires multiset(c) == multiset(d)
    ensures Sort(Names(c), Less) == Sort(Names(d), Less)
  {
    MappedRearranged(c, d, NameOf);
    LessIsOrder();
    forall x, y | x in Names(c) && y in Names(c) && x != y ensures Less(x, y) || Less(y, x) {
      LessIsTotal(x, y);
    }
    SortIsCanonical(Names(c), Names(d), Less);
  }

  lemma SameFailures(s: seq<Plugin>, t: seq<Plugin>)
    requires SameLoadable(s, t)
    ensures multiset(Failures(s)) == multiset(Failures(t))
  {
    forall p ensures multiset(Failing(s))[p] == multiset(Failing(t))[p] {
      FailingTimes(s, p);
      FailingTimes(t, p);
    }
    MappedRearranged(Failing(s), Failing(t), FailureOf);
  }

  lemma LayerIsRead(plugins: seq<Plugin>, expand: Expand, owner: map<Id, Origin>, servers: Servers, colliding: map<Id, seq<string>>,
                    owner2: map<Id, Origin>, servers2: Servers, failures: seq<Finding>, collisions: seq<Finding>)
    requires forall id :: TablesHold(Sort(Loadable(plugins), NameLess), id, expand, owner, servers, colliding)
    requires owner2 == owner - colliding.Keys && servers2 == servers - colliding.Keys
    requires failures == Failures(Sort(Loadable(plugins), NameLess))
    requires NoRepeats(collisions)
    requires forall f :: f in collisions <==> f.Collision? && f.id in colliding && f.plugins == Sort(colliding[f.id], Less)
    ensures IsPluginLayer(plugins, expand, owner2, servers2, failures + collisions) && IsCollisions(plugins, collisions)
  {
    hide Sort, Failures, Claimants, Claims, Owns, TablesHold, Rivals, SameLoadable, IsCollisions, NoRepeats;
    var loaded := Sort(Loadable(plugins), NameLess);
    LoadedAreSame(plugins);
    SameFailures(loaded, plugins);
    forall id ensures (id in servers2 <==> |Claimants(plugins, id)| == 1) && (id in owner2 <==> id in servers2)
      && (|Claimants(plugins, id)| == 1 ==> Owns(Claimants(plugins, id)[0], id, expand, owner2, servers2))
    {
      SameClaims(loaded, plugins, id);
      ReadId(plugins, loaded, id, expand, owner, servers, colliding, owner2, servers2);
    }
    CollisionsAreRead(plugins, loaded, expand, owner, servers, colliding, collisions);
    assert multiset(failures + collisions) == multiset(failures) + multiset(collisions);
  }

  lemma LoadedAreSame(plugins: seq<Plugin>)
    ensures SameLoadable(Sort(Loadable(plugins), NameLess), plugins)
  {
    forall p: Plugin | p.loadable ensures multiset(Sort(Loadable(plugins), NameLess))[p] == multiset(plugins)[p] {
      LoadedTimes(plugins, p);
    }
  }

  lemma CollisionsAreRead(plugins: seq<Plugin>, loaded: seq<Plugin>, expand: Expand, owner: map<Id, Origin>, servers: Servers,
                          colliding: map<Id, seq<string>>, collisions: seq<Finding>)
    requires SameLoadable(loaded, plugins) && forall id :: TablesHold(loaded, id, expand, owner, servers, colliding)
    requires NoRepeats(collisions)
    requires forall f :: f in collisions <==> f.Collision? && f.id in colliding && f.plugins == Sort(colliding[f.id], Less)
    ensures IsCollisions(plugins, collisions)
  {
    hide Sort, Failures, Claimants, Claims, Owns, TablesHold, Rivals, SameLoadable;
    forall f: Finding | f.Collision? ensures f in collisions <==> |Claimants(plugins, f.id)| >= 2 && f.plugins == Rivals(plugins, f.id) {
      SameClaims(loaded, plugins, f.id);
      ReadId(plugins, loaded, f.id, expand, owner, servers, colliding, owner - colliding.Keys, servers - colliding.Keys);
    }
  }

  ghost predicate IdIsRead(plugins: seq<Plugin>, id: Id, expand: Expand, owner: map<Id, Origin>, servers: Servers,
                           colliding: map<Id, seq<string>>, owner2: map<Id, Origin>, servers2: Servers) {
    var c := Claimants(plugins, id);
    && (id in servers2 <==> |c| == 1) && (id in owner2 <==> id in servers2)
    && (|c| == 1 ==> Owns(c[0], id, expand, owner2, servers2))
    && (id in colliding <==> |c| >= 2) && (id in colliding ==> Sort(colliding[id], Less) == Rivals(plugins, id))
  }

  lemma ReadId(plugins: seq<Plugin>, loaded: seq<Plugin>, id: Id, expand: Expand, owner: map<Id, Origin>, servers: Servers,
               colliding: map<Id, seq<string>>, owner2: map<Id, Origin>, servers2: Servers)
    requires TablesHold(loaded, id, expand, owner, servers, colliding)
    requires owner2 == owner - colliding.Keys && servers2 == servers - colliding.Keys
    requires |Claimants(loaded, id)| == |Claimants(plugins, id)| && Rivals(loaded, id) == Rivals(plugins, id)
    requires |Claimants(loaded, id)| == 1 ==> Claimants(loaded, id) == Claimants(plugins, id)
    ensures IdIsRead(plugins, id, expand, owner, servers, colliding, owner2, servers2)
  {
    hide Claimants, Claims, Sort;
  }

  // ---------- the layer does not depend on the order of the plugins ----------

  /** Whatever order the plugins come in, and whatever order maps are visited in, the
      same servers load from the same plugins and the same findings are made. */
  lemma PluginOrderIsIrrelevant(plugins: seq<Plugin>, others: seq<Plugin>, expand: Expand,
                                owner: map<Id, Origin>, servers: Servers, findings: seq<Finding>,
                                owner2: map<Id, Origin>, servers2: Servers, findings2: seq<Finding>)
    requires multiset(plugins) == multiset(others)
    requires IsPluginLayer(plugins, expand, owner, servers, findings)
    requires IsPluginLayer(others, expand, owner2, servers2, findings2)
    ensures owner == owner2 && servers == servers2 && multiset(findings) == multiset(findings2)
  {
    hide Sort, Failures, Claimants, Claims, Rivals;
    forall id ensures |Claimants(plugins, id)| == |Claimants(others, id)|
      && (|Claimants(plugins, id)| == 1 ==> Claimants(plugins, id) == Claimants(others, id))
    {
      SameClaims(plugins, others, id);
    }
    assert servers.Keys == servers2.Keys && owner.Keys == owner2.Keys;
    forall id | id in servers ensures servers[id] == servers2[id] && owner[id] == owner2[id] {
      assert Owns(Claimants(plugins, id)[0], id, expand, owner, servers);
      assert Owns(Claimants(others, id)[0], id, expand, owner2, servers2);
    }
    hide Owns;
    SameFindings(plugins, others, findings, findings2);
  }

  lemma SameFindings(plugins: seq<Plugin>, others: seq<Plugin>, findings: seq<Finding>, findings2: seq<Finding>)
    requires multiset(plugins) == multiset(others)
    requires exists c :: IsCollisions(plugins, c) && multiset(findings) == multiset(Failures(plugins)) + multiset(c)
    requires exists d :: IsCollisions(others, d) && multiset(findings2) == multiset(Failures(others)) + multiset(d)
    ensures multiset(findings) == multiset(findings2)
  {
    hide Sort, Failures, Claimants, Rivals;
    SameFailures(plugins, others);
    var c :| IsCollisions(plugins, c) && multiset(findings) == multiset(Failures(plugins)) + multiset(c);
    var d :| IsCollisions(others, d) && multiset(findings2) == multiset(Failures(others)) + multiset(d);
    forall f: Finding ensures f in c <==> f in d {
      if f.Collision? {
        SameClaims(plugins, others, f.id);
      }
    }
    SameSetSameMultiset(c, d);
  }

  // ---------- the higher layers ----------

  function ServersOf(file: File): Servers {
    if file.Ok? && file.value.Some? then file.value.value else map[]
  }

  /** A layer's servers, expanded without a plugin root, over what is already there. */
  function Overlaid(base: Servers, layer: Servers, expand: Expand): Servers {
    base + map id | id in layer :: expand(layer[id], "")
  }

  function OwnedBy(owner: map<Id, Origin>, layer: Servers, origin: Origin): map<Id, Origin> {
    owner + map id | id in layer :: origin
  }

  lemma OverlayOne(base: Servers, layer: Servers, expand: Expand, ids: seq<Id>, id: Id)
    requires id in layer && forall x :: x in ids ==> x in layer
    ensures Overlaid(base, Only(layer, ids + [id]), expand) == Overlaid(base, Only(layer, ids), expand)[id := expand(layer[id], "")]
  {
  }

  lemma OwnOne(owner: map<Id, Origin>, layer: Servers, origin: Origin, ids: seq<Id>, id: Id)
    requires id in layer && forall x :: x in ids ==> x in layer
    ensures OwnedBy(owner, Only(layer, ids + [id]), origin) == OwnedBy(owner, Only(layer, ids), origin)[id := origin]
  {
  }

  function Only(layer: Servers, ids: seq<Id>): Servers {
    map id | id in ids && id in layer :: layer[id]
  }

  predicate IsPluginServer(owner: map<Id, Origin>, id: Id) {
    id in owner && owner[id].FromPlugin?
  }

  /** The plugin servers that the given ids replace. */
  function Shadows(ids: seq<Id>, owner: map<Id, Origin>, origin: Origin): seq<Shadowed> {
    if ids == [] then []
    else
      var id := ids[|ids| - 1];
      Shadows(ids[..|ids| - 1], owner, origin) + if IsPluginServer(owner, id) then [Shadowed(id, origin, owner[id])] else []
  }

  class Merge {
    var servers: Servers
    var owner: map<Id, Origin>
    var shadowed: seq<Shadowed>

    constructor (servers: Servers, owner: map<Id, Origin>)
      ensures this.servers == servers && this.owner == owner && shadowed == []
    {
      this.servers, this.owner, this.shadowed := servers, owner, [];
    }

    /** Merges one file over what is there; an unreadable file changes nothing. */
    method MergeLayer(file: File, expand: Expand, origin: Origin) returns (error: Option<string>)
      requires !origin.FromPlugin?
      modifies this
      ensures error == if file.Err? then Some(file.error) else None
      ensures servers == Overlaid(old(servers), ServersOf(file), expand)
      ensures owner == OwnedBy(old(owner), ServersOf(file), origin)
      ensures exists ids :: Lists(ids, ServersOf(file).Keys) && shadowed == old(shadowed) + Shadows(ids, old(owner), origin)
    {
      if file.Err? || file.value.None? {
        assert Lists([], {}) && shadowed == shadowed + Shadows([], owner, origin);
        return if file.Err? then Some(file.error) else None;
      }
      var _ := MergeServers(file.value.value, expand, origin);
      error := None;
    }

    /** Puts the layer's servers in place, by id in order. */
    method MergeServers(layer: Servers, expand: Expand, origin: Origin) returns (ids: seq<Id>)
      requires !origin.FromPlugin?
      modifies this
      ensures servers == Overlaid(old(servers), layer, expand) && owner == OwnedBy(old(owner), layer, origin)
      ensures Lists(ids, layer.Keys) && shadowed == old(shadowed) + Shadows(ids, old(owner), origin)
    {
      ids := SortedList(layer.Keys);
      hide Overlaid, OwnedBy, Only, Lists, Shadows;
      MergeNothing(servers, owner, layer, expand, origin, ids[..0]);
      for i := 0 to |ids|
        invariant forall k :: 0 <= k < i ==> ids[k] in layer
        invariant servers == Overlaid(old(servers), Only(layer, ids[..i]), expand)
        invariant owner == OwnedBy(old(owner), Only(layer, ids[..i]), origin)
        invariant shadowed == old(shadowed) + Shadows(ids[..i], old(owner), origin)
      {
        var id := ids[i];
        ListedOnce(ids, layer.Keys, i);
        MergeOne(old(servers), old(owner), layer, expand, origin, ids, i);
        if id in owner && owner[id].FromPlugin? {
          shadowed := shadowed + [Shadowed(id, origin, owner[id])];
        }
        servers := servers[id := expand(layer[id], "")];
        owner := owner[id := origin];
      }
      assert ids[..|ids|] == ids;
      AllListed(ids, layer);
    }
  }

  lemma MergeOne(base: Servers, owner: map<Id, Origin>, layer: Servers, expand: Expand, origin: Origin, ids: seq<Id>, i: nat)
    requires i < |ids| && ids[i] in layer && ids[i] !in ids[..i] && forall k :: 0 <= k < i ==> ids[k] in layer
    ensures var before, next, id := Only(layer, ids[..i]), Only(layer, ids[..i + 1]), ids[i];
            && Overlaid(base, next, expand) == Overlaid(base, before, expand)[id := expand(layer[id], "")]
            && OwnedBy(owner, next, origin) == OwnedBy(owner, before, origin)[id := origin]
            && (IsPluginServer(OwnedBy(owner, before, origin), id) <==> IsPluginServer(owner, id))
            && Shadows(ids[..i + 1], owner, origin) ==
               Shadows(ids[..i], owner, origin)
               + if IsPluginServer(OwnedBy(owner, before, origin), id) then [Shadowed(id, origin, OwnedBy(owner, before, origin)[id])] else []
  {
    var next := ids[..i + 1];
    assert next[..i] == ids[..i] && next == ids[..i] + [ids[i]];
    OverlayOne(base, layer, expand, ids[..i], ids[i]);
    OwnOne(owner, layer, origin, ids[..i], ids[i]);
    NotOwnedYet(owner, layer, origin, ids[..i], ids[i]);
    hide Overlaid, OwnedBy, Only;
  }

  lemma MergeNothing(base: Servers, owner: map<Id, Origin>, layer: Servers, expand: Expand, origin: Origin, ids: seq<Id>)
    requires ids == []
    ensures Overlaid(base, Only(layer, ids), expand) == base && OwnedBy(owner, Only(layer, ids), origin) == owner
    ensures Shadows(ids, owner, origin) == []
  {
  }

  lemma ListedOnce(ids: seq<Id>, keys: set<Id>, i: nat)
    requires Lists(ids, keys) && i < |ids|
    ensures ids[i] in keys && ids[i] !in ids[..i]
  {
    assert ids[i] in ids;
    NotListedYet(ids, i);
  }

  lemma NotOwnedYet(owner: map<Id, Origin>, layer: Servers, origin: Origin, ids: seq<Id>, id: Id)
    requires id !in ids
    ensures var now := OwnedBy(owner, Only(layer, ids), origin);
            (id in now <==> id in owner) && (id in owner ==> now[id] == owner[id])
  {
  }

  lemma AllListed(ids: seq<Id>, layer: Servers)
    requires Lists(ids, layer.Keys)
    ensures Only(layer, ids) == layer
  {
  }

  lemma {:induction false} NotListedYet(ids: seq<Id>, i: nat)
    requires NoRepeats(ids) && i < |ids|
    ensures ids[i] !in ids[..i]
  {
    if i > 0 {
      NotListedYet(ids[1..], i - 1);
      assert ids[..i] == [ids[0]] + ids[1..][..i - 1];
    }
  }

  // ---------- the resolution ----------

  /** The one plugin that claims id contributes this server. */
  function PluginServer(plugins: seq<Plugin>, expand: Expand, id: Id): Option<Server> {
    var c := Claimants(plugins, id);
    if |c| == 1 then (assert c[0] in c; Some(expand(c[0].file.value.value[id], c[0].root))) else None
  }

  /** Which server an id stands for: the workspace's, else the global one, else that of
      the only plugin claiming it. */
  function ServerFor(plugins: seq<Plugin>, global: Servers, workspace: Servers, expand: Expand, id: Id): Option<Server> {
    if id in workspace then Some(expand(workspace[id], ""))
    else if id in global then Some(expand(global[id], ""))
    else PluginServer(plugins, expand, id)
  }

  function Lookup(servers: Servers, id: Id): Option<Server> {
    if id in servers then Some(servers[id]) else None
  }

  /** The record of a plugin server replaced by a higher layer: the first layer that
      declared its id again is named the winner, even where the workspace's server runs. */
  function ShadowFor(plugins: seq<Plugin>, global: Servers, workspace: Servers, id: Id): Option<Shadowed> {
    var c := Claimants(plugins, id);
    if |c| != 1 || (id !in global && id !in workspace) then None
    else Some(Shadowed(id, if id in global then FromGlobal else FromWorkspace, FromPlugin(c[0].name, c[0].dir)))
  }

  ghost predicate Merged(plugins: seq<Plugin>, global: Servers, workspace: Servers, expand: Expand, servers: Servers) {
    forall id :: Lookup(servers, id) == ServerFor(plugins, global, workspace, expand, id)
  }

  ghost predicate RecordsShadows(plugins: seq<Plugin>, global: Servers, workspace: Servers, shadowed: seq<Shadowed>) {
    NoRepeats(shadowed) && forall x :: x in shadowed <==> ShadowFor(plugins, global, workspace, x.id) == Some(x)
  }

  /** Both layers merged over the plugins, and what merging noticed. */
  ghost predicate IsResolution(plugins: seq<Plugin>, global: Servers, workspace: Servers, expand: Expand, r: Resolution) {
    && (exists servers :: Merged(plugins, global, workspace, expand, servers)
                          && r.config == if servers == map[] then None else Some(servers))
    && RecordsShadows(plugins, global, workspace, r.shadowed)
    && exists owner, servers :: IsPluginLayer(plugins, expand, owner, servers, r.findings)
  }

  /** The records of the global file come first, then those of the workspace's, each by id. */
  ghost predicate ShadowsInOrder(shadowed: seq<Shadowed>) {
    forall i, j :: 0 <= i < j < |shadowed| ==> Precedes(shadowed[i], shadowed[j])
  }

  predicate Precedes(a: Shadowed, b: Shadowed) {
    (a.winner.FromGlobal? && b.winner.FromWorkspace?) || (a.winner == b.winner && Less(a.id, b.id))
  }

  lemma {:induction false} LayerInOrder(ids: seq<Id>, owner: map<Id, Origin>, origin: Origin)
    requires Ranks.Ascending(ids)
    ensures ShadowsInOrder(Shadows(ids, owner, origin))
    ensures forall x :: x in Shadows(ids, owner, origin) ==> x.winner == origin && x.id in ids
  {
    if ids != [] {
      hide Less;
      var n := |ids| - 1;
      LayerInOrder(ids[..n], owner, origin);
      assert ids == ids[..n] + [ids[n]];
      forall i | 0 <= i < |Shadows(ids[..n], owner, origin)| ensures Less(Shadows(ids[..n], owner, origin)[i].id, ids[n]) {
        assert Shadows(ids[..n], owner, origin)[i] in Shadows(ids[..n], owner, origin);
      }
    }
  }

  lemma LayersInOrder(gids: seq<Id>, gkeys: set<Id>, wids: seq<Id>, wkeys: set<Id>, owner: map<Id, Origin>, owner2: map<Id, Origin>)
    requires Lists(gids, gkeys) && Lists(wids, wkeys)
    ensures ShadowsInOrder(Shadows(gids, owner, FromGlobal) + Shadows(wids, owner2, FromWorkspace))
  {
    hide Lists, Shadows, Less, Ranks.Ascending;
    Ranks.ListsAscend(gids, gkeys);
    Ranks.ListsAscend(wids, wkeys);
    LayerInOrder(gids, owner, FromGlobal);
    LayerInOrder(wids, owner2, FromWorkspace);
  }

  /** A server the validator refuses. */
  ghost predicate HasInvalid(plugins: seq<Plugin>, global: Servers, workspace: Servers, expand: Expand, valid: (Id, Server) -> bool) {
    exists id :: ServerFor(plugins, global, workspace, expand, id).Some?
                 && !valid(id, ServerFor(plugins, global, workspace, expand, id).value)
  }

  /** hasWorkspace says whether a workspace directory was given at all. */
  method ResolveMcpConfig(hasWorkspace: bool, plugins: seq<Plugin>, global: File, workspace: File, expand: Expand, valid: (Id, Server) -> bool)
    returns (r: Result<Resolution, string>)
    ensures var w := if hasWorkspace then ServersOf(workspace) else map[];
            && (r.Err? <==> global.Err? || (hasWorkspace && workspace.Err?)
                            || HasInvalid(plugins, ServersOf(global), w, expand, valid))
            && (r.Ok? ==> IsResolution(plugins, ServersOf(global), w, expand, r.value) && ShadowsInOrder(r.value.shadowed))
  {
    hide IsPluginLayer, HasInvalid, Merged, RecordsShadows, Overlaid, OwnedBy, Lists, Shadows, ServersOf, ShadowsInOrder;
    var owner, servers, findings := LoadPluginServers(plugins, expand);
    var merge := new Merge(servers, owner);
    ghost var w := if hasWorkspace then ServersOf(workspace) else map[];
    var error := merge.MergeLayer(global, expand, FromGlobal);
    if error.Some? {
      return Err(error.value);
    }
    ghost var gids :| Lists(gids, ServersOf(global).Keys) && merge.shadowed == Shadows(gids, owner, FromGlobal);
    ghost var owner2 := merge.owner;
    ghost var wids := [];
    if hasWorkspace {
      error := merge.MergeLayer(workspace, expand, FromWorkspace);
      if error.Some? {
        return Err(error.value);
      }
      wids :| Lists(wids, w.Keys) && merge.shadowed == Shadows(gids, owner, FromGlobal) + Shadows(wids, owner2, FromWorkspace);
    } else {
      EmptyLayer(merge.servers, owner2, expand);
    }
    assert merge.shadowed == Shadows(gids, owner, FromGlobal) + Shadows(wids, owner2, FromWorkspace);
    LayersAreMerged(plugins, expand, owner, servers, findings, ServersOf(global), w, gids, wids);
    assert Merged(plugins, ServersOf(global), w, expand, merge.servers);
    var bad := AnyInvalid(merge.servers, valid);
    InvalidIsFound(plugins, ServersOf(global), w, expand, valid, merge.servers);
    if bad.Some? {
      return Err(bad.value);
    }
    assert RecordsShadows(plugins, ServersOf(global), w, merge.shadowed);
    assert ShadowsInOrder(merge.shadowed);
    r := Ok(Resolution(if merge.servers == map[] then None else Some(merge.servers), merge.shadowed, findings));
  }

  /** Some id whose server is refused, if there is one. */
  method AnyInvalid(servers: Servers, valid: (Id, Server) -> bool) returns (bad: Option<Id>)
    ensures bad.Some? ==> bad.value in servers && !valid(bad.value, servers[bad.value])
    ensures bad.None? ==> forall id :: id in servers ==> valid(id, servers[id])
  {
    var left := servers.Keys;
    while left != {}
      invariant left <= servers.Keys && forall id :: id in servers && id !in left ==> valid(id, servers[id])
      decreases left
    {
      var id :| id in left;
      if !valid(id, servers[id]) {
        return Some(id);
      }
      left := left - {id};
    }
    bad := None;
  }

  lemma InvalidIsFound(plugins: seq<Plugin>, global: Servers, workspace: Servers, expand: Expand, valid: (Id, Server) -> bool, servers: Servers)
    requires Merged(plugins, global, workspace, expand, servers)
    ensures HasInvalid(plugins, global, workspace, expand, valid) <==> exists id :: id in servers && !valid(id, servers[id])
  {
    hide ServerFor;
    if id :| id in servers && !valid(id, servers[id]) {
      assert Lookup(servers, id) == ServerFor(plugins, global, workspace, expand, id);
    }
    if HasInvalid(plugins, global, workspace, expand, valid) {
      var id :| ServerFor(plugins, global, workspace, expand, id).Some?
                && !valid(id, ServerFor(plugins, global, workspace, expand, id).value);
      assert Lookup(servers, id) == ServerFor(plugins, global, workspace, expand, id);
    }
  }

  lemma EmptyLayer(base: Servers, owner: map<Id, Origin>, expand: Expand)
    ensures Overlaid(base, map[], expand) == base && OwnedBy(owner, map[], FromWorkspace) == owner
    ensures Lists([], {}) && Shadows([], owner, FromWorkspace) == []
  {
  }

  lemma LayersAreMerged(plugins: seq<Plugin>, expand: Expand, owner: map<Id, Origin>, servers: Servers, findings: seq<Finding>,
                        global: Servers, workspace: Servers, gids: seq<Id>, wids: seq<Id>)
    requires IsPluginLayer(plugins, expand, owner, servers, findings)
    requires Lists(gids, global.Keys) && Lists(wids, workspace.Keys)
    ensures Merged(plugins, global, workspace, expand, Overlaid(Overlaid(servers, global, expand), workspace, expand))
    ensures RecordsShadows(plugins, global, workspace,
                           Shadows(gids, owner, FromGlobal) + Shadows(wids, OwnedBy(owner, global, FromGlobal), FromWorkspace))
    ensures ShadowsInOrder(Shadows(gids, owner, FromGlobal) + Shadows(wids, OwnedBy(owner, global, FromGlobal), FromWorkspace))
  {
    LayersInOrder(gids, global.Keys, wids, workspace.Keys, owner, OwnedBy(owner, global, FromGlobal));
    ServersAreMerged(plugins, expand, owner, servers, findings, global, workspace);
    ShadowsAreRecorded(plugins, expand, owner, servers, findings, global, workspace, gids, wids);
  }

  lemma ServersAreMerged(plugins: seq<Plugin>, expand: Expand, owner: map<Id, Origin>, servers: Servers, findings: seq<Finding>,
                         global: Servers, workspace: Servers)
    requires IsPluginLayer(plugins, expand, owner, servers, findings)
    ensures Merged(plugins, global, workspace, expand, Overlaid(Overlaid(servers, global, expand), workspace, expand))
  {
    var merged := Overlaid(Overlaid(servers, global, expand), workspace, expand);
    hide Claimants, Failures, IsCollisions;
    forall id ensures Lookup(merged, id) == ServerFor(plugins, global, workspace, expand, id) {
      var c := Claimants(plugins, id);
      assert |c| == 1 ==> Owns(c[0], id, expand, owner, servers);
    }
  }

  lemma ShadowsAreRecorded(plugins: seq<Plugin>, expand: Expand, owner: map<Id, Origin>, servers: Servers, findings: seq<Finding>,
                           global: Servers, workspace: Servers, gids: seq<Id>, wids: seq<Id>)
    requires IsPluginLayer(plugins, expand, owner, servers, findings)
    requires Lists(gids, global.Keys) && Lists(wids, workspace.Keys)
    ensures RecordsShadows(plugins, global, workspace,
                           Shadows(gids, owner, FromGlobal) + Shadows(wids, OwnedBy(owner, global, FromGlobal), FromWorkspace))
  {
    var g, w := Shadows(gids, owner, FromGlobal), Shadows(wids, OwnedBy(owner, global, FromGlobal), FromWorkspace);
    ShadowsDoNotRepeat(gids, owner, FromGlobal);
    ShadowsDoNotRepeat(wids, OwnedBy(owner, global, FromGlobal), FromWorkspace);
    hide IsPluginLayer, NoRepeats, Sorted, Shadows, OwnedBy, ShadowFor;
    forall x: Shadowed ensures (x in g + w <==> ShadowFor(plugins, global, workspace, x.id) == Some(x)) && !(x in g && x in w) {
      ShadowRecorded(plugins, expand, owner, servers, findings, global, workspace, gids, wids, x);
    }
    NoRepeatsConcat(g, w);
  }

  lemma ShadowRecorded(plugins: seq<Plugin>, expand: Expand, owner: map<Id, Origin>, servers: Servers, findings: seq<Finding>,
                       global: Servers, workspace: Servers, gids: seq<Id>, wids: seq<Id>, x: Shadowed)
    requires IsPluginLayer(plugins, expand, owner, servers, findings)
    requires Lists(gids, global.Keys) && Lists(wids, workspace.Keys)
    ensures var g, w := Shadows(gids, owner, FromGlobal), Shadows(wids, OwnedBy(owner, global, FromGlobal), FromWorkspace);
            && (x in g || x in w <==> ShadowFor(plugins, global, workspace, x.id) == Some(x))
            && !(x in g && x in w)
  {
    hide Claimants, Failures, IsCollisions, NoRepeats, Sorted, Shadows;
    ShadowsHold(gids, owner, FromGlobal, x);
    ShadowsHold(wids, OwnedBy(owner, global, FromGlobal), FromWorkspace, x);
    var c := Claimants(plugins, x.id);
    assert |c| == 1 ==> Owns(c[0], x.id, expand, owner, servers);
  }

  lemma {:induction false} ShadowsHold(ids: seq<Id>, owner: map<Id, Origin>, origin: Origin, x: Shadowed)
    ensures x in Shadows(ids, owner, origin) <==>
            x.id in ids && IsPluginServer(owner, x.id) && x.winner == origin && x.loser == owner[x.id]
  {
    if ids != [] {
      ShadowsHold(ids[..|ids| - 1], owner, origin, x);
      assert ids == ids[..|ids| - 1] + [ids[|ids| - 1]];
    }
  }

  lemma {:induction false} ShadowsDoNotRepeat(ids: seq<Id>, owner: map<Id, Origin>, origin: Origin)
    requires NoRepeats(ids)
    ensures NoRepeats(Shadows(ids, owner, origin))
  {
    if ids != [] {
      var before, id := ids[..|ids| - 1], ids[|ids| - 1];
      assert ids == before + [id];
      AllButLast(before, id);
      ShadowsDoNotRepeat(before, owner, origin);
      if IsPluginServer(owner, id) {
        ShadowsHold(before, owner, origin, Shadowed(id, origin, owner[id]));
        NoRepeatsAppend(Shadows(before, owner, origin), Shadowed(id, origin, owner[id]));
      } else {
        assert Shadows(ids, owner, origin) == Shadows(before, owner, origin);
      }
    }
  }

  lemma ShadowForIgnoresOrder(plugins: seq<Plugin>, others: seq<Plugin>, global: Servers, workspace: Servers, expand: Expand, id: Id)
    requires multiset(plugins) == multiset(others)
    ensures ShadowFor(plugins, global, workspace, id) == ShadowFor(others, global, workspace, id)
    ensures ServerFor(plugins, global, workspace, expand, id) == ServerFor(others, global, workspace, expand, id)
  {
    SameClaims(plugins, others, id);
  }

  /** One resolution answers for a set of plugins and two files, up to the order in which
      findings and shadows are listed. */
  lemma ResolutionIsDetermined(plugins: seq<Plugin>, others: seq<Plugin>, global: Servers, workspace: Servers, expand: Expand,
                               r: Resolution, q: Resolution)
    requires multiset(plugins) == multiset(others)
    requires IsResolution(plugins, global, workspace, expand, r) && IsResolution(others, global, workspace, expand, q)
    ensures r.config == q.config && multiset(r.shadowed) == multiset(q.shadowed) && multiset(r.findings) == multiset(q.findings)
  {
    hide IsPluginLayer, ShadowFor, ServerFor;
    forall id ensures ServerFor(plugins, global, workspace, expand, id) == ServerFor(others, global, workspace, expand, id) {
      ShadowForIgnoresOrder(plugins, others, global, workspace, expand, id);
    }
    var s :| Merged(plugins, global, workspace, expand, s) && r.config == (if s == map[] then None else Some(s));
    var t :| Merged(others, global, workspace, expand, t) && q.config == (if t == map[] then None else Some(t));
    forall id ensures Lookup(s, id) == Lookup(t, id) {
    }
    SameServers(s, t);
    forall x: Shadowed ensures x in r.shadowed <==> x in q.shadowed {
      ShadowForIgnoresOrder(plugins, others, global, workspace, expand, x.id);
    }
    SameSetSameMultiset(r.shadowed, q.shadowed);
    var o1, s1 :| IsPluginLayer(plugins, expand, o1, s1, r.findings);
    var o2, s2 :| IsPluginLayer(others, expand, o2, s2, q.findings);
    PluginOrderIsIrrelevant(plugins, others, expand, o1, s1, r.findings, o2, s2, q.findings);
  }

  lemma SameServers(s: Servers, t: Servers)
    requires forall id :: Lookup(s, id) == Lookup(t, id)
    ensures s == t
  {
    forall id ensures id in s <==> id in t {
      assert Lookup(s, id) == Lookup(t, id);
    }
    forall id | id in s ensures s[id] == t[id] {
      assert Lookup(s, id) == Lookup(t, id);
    }
  }
}
