/** What a merged configuration holds, id by id, told by the plugins' places in the list. */
module McpReadings {
  import opened Outcome
  import opened Order
  import Ranks
  import opened McpConfigs

  /** The plugin at place i can be loaded, its file reads, and declares the id. */
  predicate Declares(plugins: seq<Plugin>, i: int, id: Id) {
    && 0 <= i < |plugins| && plugins[i].loadable
    && plugins[i].file.Ok? && plugins[i].file.value.Some? && id in plugins[i].file.value.value
  }

  /** It alone does. */
  ghost predicate DeclaresAlone(plugins: seq<Plugin>, i: int, id: Id) {
    Declares(plugins, i, id) && forall j :: j != i ==> !Declares(plugins, j, id)
  }

  /** The places of the plugins that declare the id, in order. */
  ghost predicate Picks(plugins: seq<Plugin>, id: Id, at: seq<nat>) {
    Ranks.Rising(at, |plugins|) && forall i: nat :: i in at <==> Declares(plugins, i, id)
  }

  lemma PickMore(plugins: seq<Plugin>, p: Plugin, id: Id, at: seq<nat>)
    requires Picks(plugins, id, at)
    ensures Picks(plugins + [p], id, if Claims(p, id) then at + [|plugins|] else at)
  {
    Ranks.RisingAppend(at, |plugins|);
    var now := if Claims(p, id) then at + [|plugins|] else at;
    forall i: nat ensures i in now <==> Declares(plugins + [p], i, id) {
      if i < |plugins| {
        assert (plugins + [p])[i] == plugins[i];
      }
    }
  }

  /** The claimants of an id are the plugins that declare it, in their order. */
  lemma {:induction false} ClaimantsPicked(plugins: seq<Plugin>, id: Id) returns (at: seq<nat>)
    ensures |at| == |Claimants(plugins, id)| && Picks(plugins, id, at)
    ensures forall k :: 0 <= k < |at| ==> at[k] < |plugins| && Claimants(plugins, id)[k] == plugins[at[k]]
  {
    at := [];
    if plugins != [] {
      hide Picks, Claims, Claimants;
      var n := |plugins| - 1;
      at := ClaimantsPicked(plugins[..n], id);
      assert plugins == plugins[..n] + [plugins[n]];
      ClaimantsAppend(plugins[..n], plugins[n], id);
      PickMore(plugins[..n], plugins[n], id, at);
      if Claims(plugins[n], id) {
        at := at + [n];
      }
    }
  }

  lemma AloneIsOneClaimant(plugins: seq<Plugin>, id: Id, i: int)
    requires DeclaresAlone(plugins, i, id)
    ensures Claimants(plugins, id) == [plugins[i]]
  {
    var at := ClaimantsPicked(plugins, id);
    assert i in at && (|at| > 1 ==> at[0] < at[1]);
    forall k | 0 <= k < |at| ensures at[k] == i {
      assert at[k] in at;
    }
  }

  lemma OneClaimantIsAlone(plugins: seq<Plugin>, id: Id) returns (i: int)
    requires |Claimants(plugins, id)| == 1
    ensures DeclaresAlone(plugins, i, id)
  {
    var at := ClaimantsPicked(plugins, id);
    i := at[0];
    assert i in at;
    assert at == [i];
  }

  /** The servers a resolution runs. */
  function Running(r: Resolution): Servers {
    if r.config.None? then map[] else r.config.value
  }

  /** The workspace's server runs if it declares one, else the global one, each with no
      plugin's root; else that of the one plugin declaring the id, with that plugin's. No
      other id runs, and a configuration without servers is none. */
  lemma ServersTell(plugins: seq<Plugin>, global: Servers, workspace: Servers, expand: Expand, r: Resolution, id: Id)
    requires IsResolution(plugins, global, workspace, expand, r)
    ensures id in workspace ==> id in Running(r) && Running(r)[id] == expand(workspace[id], "")
    ensures id in global && id !in workspace ==> id in Running(r) && Running(r)[id] == expand(global[id], "")
    ensures id !in global && id !in workspace ==>
              && (id in Running(r) <==> exists i :: DeclaresAlone(plugins, i, id))
              && (forall i :: DeclaresAlone(plugins, i, id) ==>
                    id in Running(r) && Running(r)[id] == expand(plugins[i].file.value.value[id], plugins[i].root))
    ensures r.config != Some(map[])
  {
    hide IsPluginLayer, RecordsShadows, Claimants, DeclaresAlone;
    var servers :| Merged(plugins, global, workspace, expand, servers) && r.config == if servers == map[] then None else Some(servers);
    assert Running(r) == servers;
    assert Lookup(servers, id) == ServerFor(plugins, global, workspace, expand, id);
    if |Claimants(plugins, id)| == 1 {
      var i := OneClaimantIsAlone(plugins, id);
    }
    forall i | DeclaresAlone(plugins, i, id) ensures 0 <= i < |plugins| && Claimants(plugins, id) == [plugins[i]] && Declares(plugins, i, id) {
      AloneIsOneClaimant(plugins, id, i);
      AloneDeclares(plugins, i, id);
    }
  }

  lemma AloneDeclares(plugins: seq<Plugin>, i: int, id: Id)
    requires DeclaresAlone(plugins, i, id)
    ensures Declares(plugins, i, id)
  {
  }

  /** A record of what was shadowed exists exactly for each server that one plugin alone
      declares and a file declares again, and names that plugin as the loser; the winner it
      names is the global file whenever that one declares the server. */
  lemma ShadowsTell(plugins: seq<Plugin>, global: Servers, workspace: Servers, expand: Expand, r: Resolution, x: Shadowed)
    requires IsResolution(plugins, global, workspace, expand, r)
    ensures x in r.shadowed <==>
            exists i :: DeclaresAlone(plugins, i, x.id)
              && (x.id in global || x.id in workspace)
              && x.winner == (if x.id in global then FromGlobal else FromWorkspace)
              && x.loser == FromPlugin(plugins[i].name, plugins[i].dir)
    ensures NoRepeats(r.shadowed)
  {
    hide IsPluginLayer, Merged, Claimants, DeclaresAlone;
    assert x in r.shadowed <==> ShadowFor(plugins, global, workspace, x.id) == Some(x);
    if |Claimants(plugins, x.id)| == 1 {
      var i := OneClaimantIsAlone(plugins, x.id);
      AloneIsOneClaimant(plugins, x.id, i);
      AloneDeclares(plugins, i, x.id);
    }
    forall i | DeclaresAlone(plugins, i, x.id) ensures 0 <= i < |plugins| && Claimants(plugins, x.id) == [plugins[i]] {
      AloneIsOneClaimant(plugins, x.id, i);
      AloneDeclares(plugins, i, x.id);
    }
  }

  /** The plugin at place i can be loaded and its file does not read. */
  predicate Broken(plugins: seq<Plugin>, i: int) {
    0 <= i < |plugins| && plugins[i].loadable && plugins[i].file.Err?
  }

  lemma {:induction false} FailuresPicked(plugins: seq<Plugin>) returns (at: seq<nat>)
    ensures |at| == |Failures(plugins)| && Ranks.Rising(at, |plugins|)
    ensures forall i: nat :: i in at <==> Broken(plugins, i)
    ensures forall k :: 0 <= k < |at| ==> plugins[at[k]].file.Err?
    ensures forall k :: 0 <= k < |at| ==> Failures(plugins)[k] == Unreadable(plugins[at[k]].name, plugins[at[k]].file.error)
  {
    at := [];
    if plugins != [] {
      var n := |plugins| - 1;
      at := FailuresPicked(plugins[..n]);
      Ranks.RisingAppend(at, n);
      assert plugins == plugins[..n] + [plugins[n]];
      FailuresAppend(plugins[..n], plugins[n]);
      assert forall i :: 0 <= i < n ==> (Broken(plugins, i) <==> Broken(plugins[..n], i));
      if Broken(plugins, n) {
        at := at + [n];
      }
    }
  }

  /** Every finding is of a plugin that does not read, or of an id that two or more declare;
      each such plugin is reported under its own error, and each such id once, with the
      names of all that declare it, in order. */
  lemma FindingsTell(plugins: seq<Plugin>, expand: Expand, owner: map<Id, Origin>, servers: Servers, findings: seq<Finding>, f: Finding)
    requires IsPluginLayer(plugins, expand, owner, servers, findings)
    ensures f.Unreadable? ==> (f in findings <==> exists i :: Broken(plugins, i) && f == Unreadable(plugins[i].name, plugins[i].file.error))
    ensures f.Collision? ==> (f in findings <==> Contested(plugins, f.id) && f.plugins == Rivals(plugins, f.id))
    ensures f.Collision? ==> multiset(findings)[f] <= 1
  {
    hide Claimants, Rivals, Owns, Failing, Contested, Broken;
    var collisions :| IsCollisions(plugins, collisions) && multiset(findings) == multiset(Failures(plugins)) + multiset(collisions);
    assert f in findings <==> f in multiset(findings);
    NoRepeatsAsMultiset(collisions, f);
    if f.Unreadable? {
      FailureTells(plugins, f);
    } else {
      NoCollisionFails(plugins, f);
      ContestedTells(plugins, f.id);
    }
  }

  lemma FailureTells(plugins: seq<Plugin>, f: Finding)
    requires f.Unreadable?
    ensures f in Failures(plugins) <==> exists i :: Broken(plugins, i) && f == Unreadable(plugins[i].name, plugins[i].file.error)
  {
    var at := FailuresPicked(plugins);
    if f in Failures(plugins) {
      var k :| 0 <= k < |at| && Failures(plugins)[k] == f;
      assert at[k] in at;
    }
    if i :| Broken(plugins, i) && f == Unreadable(plugins[i].name, plugins[i].file.error) {
      assert i in at;
      var k :| 0 <= k < |at| && at[k] == i;
      assert Failures(plugins)[k] == f;
    }
  }

  lemma NoCollisionFails(plugins: seq<Plugin>, f: Finding)
    requires f.Collision?
    ensures f !in Failures(plugins)
  {
    var at := FailuresPicked(plugins);
  }

  /** Two plugins declare the id. */
  ghost predicate Contested(plugins: seq<Plugin>, id: Id) {
    exists i, j :: i < j && Declares(plugins, i, id) && Declares(plugins, j, id)
  }

  lemma ContestedTells(plugins: seq<Plugin>, id: Id)
    ensures Contested(plugins, id) <==> |Claimants(plugins, id)| >= 2
  {
    var at := ClaimantsPicked(plugins, id);
    if Contested(plugins, id) {
      var i, j :| i < j && Declares(plugins, i, id) && Declares(plugins, j, id);
      var m :| 0 <= m < |at| && at[m] == i;
      var n :| 0 <= n < |at| && at[n] == j;
    }
    forall k | 0 <= k < |at| ensures Declares(plugins, at[k], id) {
      assert at[k] in at;
    }
    assert |at| > 1 ==> at[0] < at[1] && Declares(plugins, at[0], id) && Declares(plugins, at[1], id);
  }

  /** The names a collision lists are those of the plugins declaring the id, each as often
      as it does, in order. */
  lemma RivalsTell(plugins: seq<Plugin>, id: Id) returns (at: seq<nat>)
    ensures Picks(plugins, id, at) && (forall k :: 0 <= k < |at| ==> at[k] < |plugins|)
    ensures Sorted(Rivals(plugins, id), Less)
    ensures multiset(Rivals(plugins, id)) == multiset(seq(|at|, k requires 0 <= k < |at| => plugins[at[k]].name))
  {
    at := ClaimantsPicked(plugins, id);
    var names := Names(Claimants(plugins, id));
    forall k | 0 <= k < |at| ensures at[k] < |plugins| && names[k] == plugins[at[k]].name {
      assert names[k] == NameOf(Claimants(plugins, id)[k]);
    }
    assert names == seq(|at|, k requires 0 <= k < |at| => plugins[at[k]].name);
    LessIsOrder();
    SortSorts(names, Less);
  }

  /** Plugins are read in the order of their names. */
  lemma LoadedInOrder(plugins: seq<Plugin>, i: nat, j: nat)
    requires i < j < |Sort(Loadable(plugins), NameLess)|
    ensures var loaded := Sort(Loadable(plugins), NameLess);
            loaded[i].name == loaded[j].name || Less(loaded[i].name, loaded[j].name)
  {
    LessIsOrder();
    assert IsOrder(NameLess);
    SortSorts(Loadable(plugins), NameLess);
    SortedThroughout(Sort(Loadable(plugins), NameLess), NameLess, i, j);
    LessIsTotal(Sort(Loadable(plugins), NameLess)[i].name, Sort(Loadable(plugins), NameLess)[j].name);
  }
}
