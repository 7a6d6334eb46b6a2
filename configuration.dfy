/**
  The configuration of the Ingress Controller: the stored Ingresses,
  VirtualServers, VirtualServerRoutes and TransportServers, the
  GlobalConfiguration and its listeners, and the holders of hosts and of
  listener-host pairs with the problems found while building them. Every
  store operation rebuilds the holders and reports the changes and the new
  or changed problems.
 */
module Configuration {
  import opened Wrappers
  import opened Ordering
  import opened Resources
  import opened Arbitration
  import opened Changes
  import opened Builders
  import opened Rebuild

  /** The claim of a place by the configuration under `key`: the loser of the place gets `warning`. */
  method ClaimPlace<P>(holders: map<P, string>, resources: map<string, Resource>, place: P, key: string, warning: string)
    returns (newHolders: map<P, string>, newResources: map<string, Resource>)
    requires Consistent(Holding(holders, resources)) && key in resources
    ensures Holding(newHolders, newResources) == Claim(Holding(holders, resources), place, key, warning)
  {
    newHolders, newResources := holders, resources;
    if place !in holders {
      newHolders := holders[place := key];
      return;
    }
    var holder := holders[place];
    if !resources[holder].Wins(resources[key]) {
      newResources := resources[holder := resources[holder].AddWarning(warning)];
      newHolders := holders[place := key];
    } else {
      newResources := resources[key := resources[key].AddWarning(warning)];
    }
  }

  /** The configuration under `key` claims the host of every rule of its Ingress. */
  method ClaimRuleHosts(holders: map<string, string>, resources: map<string, Resource>, ing: Ingress, key: string)
    returns (newHolders: map<string, string>, newResources: map<string, Resource>)
    requires Consistent(Holding(holders, resources)) && key in resources
    ensures Holding(newHolders, newResources) == ClaimHosts(Holding(holders, resources), RuleHosts(ing), key)
  {
    newHolders, newResources := holders, resources;
    for j := 0 to |ing.rules|
      invariant Holding(newHolders, newResources) == ClaimHosts(Holding(holders, resources), RuleHosts(ing)[..j], key)
    {
      assert RuleHosts(ing)[..j + 1][..j] == RuleHosts(ing)[..j];
      var host := ing.rules[j].host;
      newHolders, newResources := ClaimPlace(newHolders, newResources, host, key, HostTakenWarning(host));
    }
    assert RuleHosts(ing)[..|ing.rules|] == RuleHosts(ing);
  }

  /** The last minion claims a path of its first rule; the minion that loses the path gets the warning. */
  method ClaimMinionPath(minions: seq<MinionConfiguration>, childWarnings: map<string, seq<string>>, paths: map<string, nat>, p: string)
    returns (newMinions: seq<MinionConfiguration>, newWarnings: map<string, seq<string>>, newPaths: map<string, nat>)
    requires |minions| > 0 && PathsValid(MinionsState(minions, childWarnings, paths))
    ensures MinionsState(newMinions, newWarnings, newPaths) == ClaimPath(MinionsState(minions, childWarnings, paths), p)
  {
    var me := |minions| - 1;
    newMinions, newWarnings, newPaths := minions, childWarnings, paths;
    if p !in paths {
      newPaths := paths[p := me];
      newMinions := minions[me := SetValidPath(minions[me], p, true)];
      return;
    }
    var h := paths[p];
    var holder := minions[h];
    if !ChooseObjectMetaWinner(holder.ingress.meta, minions[me].ingress.meta) {
      newPaths := paths[p := me];
      newMinions := minions[me := SetValidPath(minions[me], p, true)];
      newMinions := newMinions[h := SetValidPath(newMinions[h], p, false)];
      newWarnings := AppendWarning(childWarnings, ResourceKey(holder.ingress.meta), PathTakenWarning(p));
    } else {
      newWarnings := AppendWarning(childWarnings, ResourceKey(minions[me].ingress.meta), PathTakenWarning(p));
    }
  }

  /** One Ingress of buildMinionConfigs: a minion of the master host joins and claims the paths of its first rule. */
  method AddMinion(minions: seq<MinionConfiguration>, childWarnings: map<string, seq<string>>, paths: map<string, nat>, ing: Ingress, masterHost: string)
    returns (newMinions: seq<MinionConfiguration>, newWarnings: map<string, seq<string>>, newPaths: map<string, nat>)
    requires PathsValid(MinionsState(minions, childWarnings, paths))
    ensures MinionsState(newMinions, newWarnings, newPaths) == MinionStep(MinionsState(minions, childWarnings, paths), ing, masterHost)
  {
    newMinions, newWarnings, newPaths := minions, childWarnings, paths;
    if !IsMinion(ing) || |ing.rules| == 0 || masterHost != ing.rules[0].host {
      return;
    }
    newMinions := minions + [MinionConfiguration(ing, map[])];
    var ps := ing.rules[0].paths;
    ghost var start := MinionsState(newMinions, newWarnings, newPaths);
    for j := 0 to |ps|
      invariant MinionsState(newMinions, newWarnings, newPaths) == ClaimPaths(start, ps[..j])
    {
      assert ps[..j + 1][..j] == ps[..j];
      newMinions, newWarnings, newPaths := ClaimMinionPath(newMinions, newWarnings, newPaths, ps[j]);
    }
    assert ps[..|ps|] == ps;
  }

  /** The first listener of the GlobalConfiguration with the given name and protocol. */
  method FindGlobalListener(listeners: seq<Listener>, name: string, protocol: string) returns (found: bool, listener: Listener)
    ensures found == FindListener(listeners, name, protocol).Some?
    ensures found ==> listener == FindListener(listeners, name, protocol).value
  {
    for i := 0 to |listeners|
      invariant FindListener(listeners[i..], name, protocol) == FindListener(listeners, name, protocol)
    {
      if listeners[i].name == name && listeners[i].protocol == protocol {
        return true, listeners[i];
      }
      assert listeners[i..][1..] == listeners[i + 1..];
    }
    found, listener := false, Listener("", 0, "", "", "", false);
  }

  /** The given hosts, each marked with whether the configuration with the given key with kind holds it. */
  ghost function MarkedHosts(hosts: map<string, Resource>, keyWithKind: string, hs: seq<string>): map<string, bool> {
    map h | h in hs :: h in hosts && hosts[h].GetKeyWithKind() == keyWithKind
  }

  lemma MarkedHostsStep(hosts: map<string, Resource>, keyWithKind: string, hs: seq<string>, h: string)
    ensures MarkedHosts(hosts, keyWithKind, hs + [h]) == MarkedHosts(hosts, keyWithKind, hs)[h := h in hosts && hosts[h].GetKeyWithKind() == keyWithKind]
  {
    assert forall x :: x in hs + [h] <==> x in hs || x == h;
  }

  /** The valid hosts of an Ingress configuration, each rule host marked with whether the Ingress holds it. */
  method MarkActiveHosts(hosts: map<string, Resource>, r: Resource) returns (validHosts: map<string, bool>)
    requires r.IngressConfiguration?
    ensures validHosts == r.validHosts + ActiveHostsOf(hosts, r)
  {
    var rules := r.ingress.rules;
    var key := r.GetKeyWithKind();
    ghost var ruleHosts := RuleHosts(r.ingress);
    var marked := map[];
    for j := 0 to |rules|
      invariant marked == MarkedHosts(hosts, key, ruleHosts[..j])
    {
      assert ruleHosts[..j + 1] == ruleHosts[..j] + [rules[j].host];
      MarkedHostsStep(hosts, key, ruleHosts[..j], rules[j].host);
      var host := rules[j].host;
      marked := marked[host := host in hosts && hosts[host].GetKeyWithKind() == key];
    }
    assert ruleHosts[..|rules|] == ruleHosts;
    assert marked == ActiveHostsOf(hosts, r);
    validHosts := r.validHosts + marked;
  }

  /** An Ingress configuration learns which of its hosts it holds; other configurations stay as they are. */
  method ActivateHosts(hosts: map<string, Resource>, r: Resource) returns (result: Resource)
    ensures result == WithActiveHosts(hosts, r)
  {
    result := r;
    if r.IngressConfiguration? {
      var validHosts := MarkActiveHosts(hosts, r);
      result := r.(validHosts := validHosts);
    }
  }

  /** updateActiveHostsForIngresses: every Ingress configuration learns which of its hosts it holds. */
  method UpdateActiveHostsForIngresses(holders: map<string, string>, resources: map<string, Resource>) returns (result: map<string, Resource>)
    requires Consistent(Holding(holders, resources))
    ensures Holding(holders, result) == ActiveHosts(Holding(holders, resources))
  {
    var hosts := Places(Holding(holders, resources));
    result := resources;
    var rest := resources.Keys;
    while rest != {}
      invariant rest <= resources.Keys && result.Keys == resources.Keys
      invariant forall k :: k in result ==> result[k] == if k in rest then resources[k] else WithActiveHosts(hosts, resources[k])
      decreases |rest|
    {
      var key :| key in rest;
      rest := rest - {key};
      var r := ActivateHosts(hosts, result[key]);
      result := result[key := r];
    }
    assert forall k :: k in result ==> result[k] == WithActiveHosts(hosts, resources[k]);
  }

  /** The changes, each refreshed from the latest configurations. */
  method RefreshToLatest(changes: seq<ResourceChange>, latest: map<string, Resource>, byResourceKey: bool) returns (result: seq<ResourceChange>)
    ensures result == RefreshChanges(changes, latest, byResourceKey)
  {
    result := changes;
    for i := 0 to |changes|
      invariant |result| == |changes|
      invariant forall j :: 0 <= j < |changes| ==> result[j] == if j < i then Refreshed(changes[j], latest, byResourceKey) else changes[j]
    {
      var key := LatestKey(changes[i].resource, byResourceKey);
      if key in latest {
        result := result[i := result[i].(resource := latest[key])];
      }
    }
  }

  /**
    Reports a validation error on the first change whose configuration has
    the given key with kind; with no such change, as a rejection problem.
   */
  method ReportValidationError(changes: seq<ResourceChange>, problems: seq<ConfigurationProblem>, keyWithKind: string, error: string, message: string)
    returns (newChanges: seq<ResourceChange>, newProblems: seq<ConfigurationProblem>)
    ensures Outcome(newChanges, newProblems) == WithValidationError(Outcome(changes, problems), keyWithKind, error, message)
  {
    newChanges, newProblems := changes, problems;
    for i := 0 to |changes|
      invariant forall j :: 0 <= j < i ==> ChangeKey(changes[j]) != keyWithKind
    {
      if changes[i].resource.GetKeyWithKind() == keyWithKind {
        newChanges := changes[i := changes[i].(error := error)];
        return;
      }
    }
    newProblems := problems + [ConfigurationProblem(keyWithKind, true, EventReasonRejected, message)];
  }

  /** A VirtualServer configuration lists a VirtualServerRoute of that namespace and name. */
  method IsRouteListed(vsrs: seq<VirtualServerRoute>, vsr: VirtualServerRoute) returns (found: bool)
    ensures found == ListsRoute(vsrs, vsr)
  {
    for i := 0 to |vsrs|
      invariant forall j :: 0 <= j < i ==> !(vsrs[j].meta.namespace == vsr.meta.namespace && vsrs[j].meta.name == vsr.meta.name)
    {
      if vsr.meta.namespace == vsrs[i].meta.namespace && vsr.meta.name == vsrs[i].meta.name {
        return true;
      }
    }
    return false;
  }

  /** TransportServer counts: TLS Passthrough hosts, and TCP and UDP listener hosts. */
  datatype TransportServerMetrics = TransportServerMetrics(totalTLSPassthrough: nat, totalTCP: nat, totalUDP: nat)

  ghost function TLSPassthroughHosts(hosts: map<string, Resource>): set<string> {
    set h | h in hosts && hosts[h].TransportServerConfiguration?
  }

  predicate IsTCP(r: Resource) {
    r.TransportServerConfiguration? && r.transportServer.listener.protocol == "TCP"
  }

  ghost function TCPListenerHosts(listenerHosts: map<ListenerHostKey, Resource>): set<ListenerHostKey> {
    set k | k in listenerHosts && IsTCP(listenerHosts[k])
  }

  /** The hosts held by TransportServers, counted one by one. */
  method CountTLSPassthroughHosts(hosts: map<string, Resource>) returns (count: nat)
    ensures count == |TLSPassthroughHosts(hosts)|
  {
    count := 0;
    var rest := hosts.Keys;
    while rest != {}
      invariant rest <= hosts.Keys
      invariant count == |set h | h in hosts && h !in rest && hosts[h].TransportServerConfiguration?|
      decreases |rest|
    {
      var h :| h in rest;
      ghost var before := set x | x in hosts && x !in rest && hosts[x].TransportServerConfiguration?;
      rest := rest - {h};
      if hosts[h].TransportServerConfiguration? {
        assert (set x | x in hosts && x !in rest && hosts[x].TransportServerConfiguration?) == before + {h};
        count := count + 1;
      } else {
        assert (set x | x in hosts && x !in rest && hosts[x].TransportServerConfiguration?) == before;
      }
    }
    assert TLSPassthroughHosts(hosts) == set h | h in hosts && h !in rest && hosts[h].TransportServerConfiguration?;
  }

  /** The listener hosts counted one by one: those of TCP, and all others as UDP. */
  method CountListenerHosts(listenerHosts: map<ListenerHostKey, Resource>) returns (tcp: nat, udp: nat)
    ensures tcp == |TCPListenerHosts(listenerHosts)|
    ensures tcp + udp == |listenerHosts|
  {
    tcp, udp := 0, 0;
    var rest := listenerHosts.Keys;
    while rest != {}
      invariant rest <= listenerHosts.Keys
      invariant tcp == |set k | k in listenerHosts && k !in rest && IsTCP(listenerHosts[k])|
      invariant tcp + udp + |rest| == |listenerHosts|
      decreases |rest|
    {
      var k :| k in rest;
      ghost var before := set x | x in listenerHosts && x !in rest && IsTCP(listenerHosts[x]);
      rest := rest - {k};
      if IsTCP(listenerHosts[k]) {
        assert (set x | x in listenerHosts && x !in rest && IsTCP(listenerHosts[x])) == before + {k};
        tcp := tcp + 1;
      } else {
        assert (set x | x in listenerHosts && x !in rest && IsTCP(listenerHosts[x])) == before;
        udp := udp + 1;
      }
    }
    assert TCPListenerHosts(listenerHosts) == set k | k in listenerHosts && k !in rest && IsTCP(listenerHosts[k]);
  }

  class Configuration {
    /** The holder of every host. */
    var hosts: map<string, Resource>
    /** The holder of every listener-host pair. */
    var listenerHosts: map<ListenerHostKey, Resource>
    /** The listeners of the GlobalConfiguration by name. */
    var listenerMap: map<string, Listener>

    /** The valid resources of the right class, by "namespace/name". */
    var ingresses: map<string, Ingress>
    var virtualServers: map<string, VirtualServer>
    var virtualServerRoutes: map<string, VirtualServerRoute>
    var transportServers: map<string, TransportServer>

    var globalConfiguration: Option<GlobalConfiguration>

    /** The problems of the last host and listener rebuilds, by key with kind. */
    var hostProblems: map<string, ConfigurationProblem>
    var listenerProblems: map<string, ConfigurationProblem>

    const isTLSPassthroughEnabled: bool
    /** ValidateVirtualServerRouteForVirtualServer of the VirtualServer validator. */
    const virtualServerRouteValidator: RouteValidator

    ghost function Stored(): Store
      reads this
    {
      Store(ingresses, virtualServers, virtualServerRoutes, transportServers, globalConfiguration, listenerMap)
    }

    /** The hosts and their problems are those a rebuild of the stored resources yields. */
    ghost predicate HostsCurrent()
      reads this
    {
      var s := RebuiltHosts(Stored(), isTLSPassthroughEnabled, virtualServerRouteValidator);
      hosts == Places(s) && hostProblems == HostProblemsOf(Stored(), s)
    }

    /** The listener hosts and their problems are those a rebuild of the stored TransportServers yields. */
    ghost predicate ListenersCurrent()
      reads this
    {
      var s := ListenerHostsAndTSConfigurations(transportServers, globalConfiguration);
      listenerHosts == Places(s) && listenerProblems == ListenerProblemsOf(s)
    }

    ghost predicate Valid()
      reads this
    {
      && KeysMatch(Stored())
      && listenerMap == GlobalListenerMap(globalConfiguration)
      && HostsCurrent()
      && ListenersCurrent()
    }

    // ---- Builders ----

    /** buildVirtualServerRoutes: the VirtualServerRoutes a VirtualServer references, and the warnings about the others. */
    method BuildVirtualServerRoutes(vs: VirtualServer) returns (vsrs: seq<VirtualServerRoute>, warnings: seq<string>)
      ensures RoutesResult(vsrs, warnings) == VirtualServerRoutesFor(vs, vs.routes, virtualServerRoutes, virtualServerRouteValidator)
    {
      vsrs, warnings := [], [];
      for i := 0 to |vs.routes|
        invariant RoutesResult(vsrs, warnings) == VirtualServerRoutesFor(vs, vs.routes[..i], virtualServerRoutes, virtualServerRouteValidator)
      {
        assert vs.routes[..i + 1][..i] == vs.routes[..i];
        var r := vs.routes[i];
        if r.route == "" {
          continue;
        }
        var vsrKey := RouteKey(vs.meta.namespace, r.route);
        if vsrKey !in virtualServerRoutes {
          warnings := warnings + [MissingRouteWarning(vsrKey)];
          continue;
        }
        var vsr := virtualServerRoutes[vsrKey];
        match virtualServerRouteValidator(vsr, vs.host, r.path)
        case Some(err) =>
          warnings := warnings + [InvalidRouteWarning(vsrKey, err)];
        case None =>
          vsrs := vsrs + [vsr];
      }
      assert vs.routes[..|vs.routes|] == vs.routes;
    }

    /** buildMinionConfigs: the minions of a master host, and the warnings about paths they lost. */
    method BuildMinionConfigs(masterHost: string) returns (minions: seq<MinionConfiguration>, childWarnings: map<string, seq<string>>)
      ensures minions == MinionConfigsFor(ingresses, masterHost).minions
      ensures childWarnings == MinionConfigsFor(ingresses, masterHost).childWarnings
    {
      var keys := SortedStringKeys(ingresses);
      minions, childWarnings := [], map[];
      var paths: map<string, nat> := map[];
      for i := 0 to |keys|
        invariant MinionsState(minions, childWarnings, paths) == MinionsFor(ingresses, keys[..i], masterHost)
      {
        assert keys[..i + 1][..i] == keys[..i];
        minions, childWarnings, paths := AddMinion(minions, childWarnings, paths, ingresses[keys[i]], masterHost);
      }
      assert keys[..|keys|] == keys;
    }

    /** The configuration of a regular or master Ingress. */
    method BuildIngressConfiguration(ing: Ingress) returns (resource: Resource)
      ensures resource == IngressResource(ingresses, ing)
    {
      if IsMaster(ing) && |ing.rules| > 0 {
        var minions, childWarnings := BuildMinionConfigs(ing.rules[0].host);
        resource := NewMasterIngressConfiguration(ing, minions, childWarnings);
      } else if IsMaster(ing) {
        resource := NewMasterIngressConfiguration(ing, [], map[]);
      } else {
        resource := NewRegularIngressConfiguration(ing);
      }
    }

    /** One Ingress of step 1 of buildHostsAndResources: a regular or master Ingress claims its rule hosts. */
    method AddIngressHosts(holders: map<string, string>, resources: map<string, Resource>, ing: Ingress)
      returns (newHolders: map<string, string>, newResources: map<string, Resource>)
      requires Consistent(Holding(holders, resources))
      ensures Holding(newHolders, newResources) == IngressStep(Holding(holders, resources), ingresses, ing)
    {
      newHolders, newResources := holders, resources;
      if IsMinion(ing) {
        return;
      }
      var resource := BuildIngressConfiguration(ing);
      newResources := resources[resource.GetKeyWithKind() := resource];
      newHolders, newResources := ClaimRuleHosts(newHolders, newResources, ing, resource.GetKeyWithKind());
    }

    /** One VirtualServer of step 2 of buildHostsAndResources: it claims its host. */
    method AddVirtualServerHost(holders: map<string, string>, resources: map<string, Resource>, vs: VirtualServer)
      returns (newHolders: map<string, string>, newResources: map<string, Resource>)
      requires Consistent(Holding(holders, resources))
      ensures Holding(newHolders, newResources) == VirtualServerStep(Holding(holders, resources), Stored(), virtualServerRouteValidator, vs)
    {
      var vsrs, warnings := BuildVirtualServerRoutes(vs);
      var resource := BuildListenersForVSConfiguration(NewVirtualServerConfiguration(vs, vsrs, warnings), globalConfiguration.Some?, listenerMap);
      newResources := resources[resource.GetKeyWithKind() := resource];
      newHolders, newResources := ClaimPlace(holders, newResources, vs.host, resource.GetKeyWithKind(), HostTakenWarning(vs.host));
    }

    /** One TransportServer of step 3 of buildHostsAndResources: one for TLS Passthrough claims its host. */
    method AddTransportServerHost(holders: map<string, string>, resources: map<string, Resource>, ts: TransportServer)
      returns (newHolders: map<string, string>, newResources: map<string, Resource>)
      requires Consistent(Holding(holders, resources))
      ensures Holding(newHolders, newResources) == TransportServerStep(Holding(holders, resources), ts)
    {
      newHolders, newResources := holders, resources;
      if ts.listener.name != TLSPassthroughListenerName && ts.listener.protocol != TLSPassthroughListenerProtocol {
        return;
      }
      var resource := NewTransportServerConfiguration(ts);
      newResources := resources[resource.GetKeyWithKind() := resource];
      newHolders, newResources := ClaimPlace(holders, newResources, ts.host, resource.GetKeyWithKind(), HostTakenWarning(ts.host));
    }

    /** Step 1 of buildHostsAndResources: hosts from Ingresses. */
    method BuildIngressHosts() returns (holders: map<string, string>, resources: map<string, Resource>)
      ensures Holding(holders, resources) == IngressPhase(Holding(map[], map[]), ingresses, SortedStrings(ingresses.Keys))
    {
      holders, resources := map[], map[];
      var keys := SortedStringKeys(ingresses);
      for i := 0 to |keys|
        invariant Holding(holders, resources) == IngressPhase(Holding(map[], map[]), ingresses, keys[..i])
      {
        assert keys[..i + 1][..i] == keys[..i];
        holders, resources := AddIngressHosts(holders, resources, ingresses[keys[i]]);
      }
      assert keys[..|keys|] == keys;
    }

    /** Step 2 of buildHostsAndResources: hosts from VirtualServers. */
    method BuildVirtualServerHosts(holders0: map<string, string>, resources0: map<string, Resource>)
      returns (holders: map<string, string>, resources: map<string, Resource>)
      requires Consistent(Holding(holders0, resources0))
      ensures Holding(holders, resources) == VirtualServerPhase(Holding(holders0, resources0), Stored(), virtualServerRouteValidator, SortedStrings(virtualServers.Keys))
    {
      holders, resources := holders0, resources0;
      var keys := SortedStringKeys(virtualServers);
      for i := 0 to |keys|
        invariant Holding(holders, resources) == VirtualServerPhase(Holding(holders0, resources0), Stored(), virtualServerRouteValidator, keys[..i])
      {
        assert keys[..i + 1][..i] == keys[..i];
        holders, resources := AddVirtualServerHost(holders, resources, virtualServers[keys[i]]);
      }
      assert keys[..|keys|] == keys;
    }

    /** Step 3 of buildHostsAndResources: hosts from TransportServers for TLS Passthrough. */
    method BuildTransportServerHosts(holders0: map<string, string>, resources0: map<string, Resource>)
      returns (holders: map<string, string>, resources: map<string, Resource>)
      requires Consistent(Holding(holders0, resources0))
      ensures Holding(holders, resources) == TransportServerPhase(Holding(holders0, resources0), transportServers, SortedStrings(transportServers.Keys))
    {
      holders, resources := holders0, resources0;
      var keys := SortedStringKeys(transportServers);
      for i := 0 to |keys|
        invariant Holding(holders, resources) == TransportServerPhase(Holding(holders0, resources0), transportServers, keys[..i])
      {
        assert keys[..i + 1][..i] == keys[..i];
        holders, resources := AddTransportServerHost(holders, resources, transportServers[keys[i]]);
      }
      assert keys[..|keys|] == keys;
    }

    /**
      buildHostsAndResources: the holder of every host, by key with kind,
      and the configurations by key with kind.
     */
    method BuildHostsAndResources() returns (holders: map<string, string>, resources: map<string, Resource>)
      ensures Holding(holders, resources) == HostsAndResources(Stored(), isTLSPassthroughEnabled, virtualServerRouteValidator)
    {
      holders, resources := BuildIngressHosts();
      holders, resources := BuildVirtualServerHosts(holders, resources);
      if isTLSPassthroughEnabled {
        holders, resources := BuildTransportServerHosts(holders, resources);
      }
    }

    /** One TransportServer of buildListenerHostsAndTSConfigurations. */
    method AddListenerHost(holders: map<ListenerHostKey, string>, tsConfigs: map<string, Resource>, key: string, ts: TransportServer)
      returns (newHolders: map<ListenerHostKey, string>, newConfigs: map<string, Resource>)
      requires Consistent(Holding(holders, tsConfigs))
      ensures Holding(newHolders, newConfigs) == ListenerStep(Holding(holders, tsConfigs), globalConfiguration, key, ts)
    {
      newHolders, newConfigs := holders, tsConfigs;
      if ts.listener.protocol == TLSPassthroughListenerProtocol {
        return;
      }
      newConfigs := tsConfigs[key := NewTransportServerConfiguration(ts)];
      if globalConfiguration.None? {
        return;
      }
      var found, listener := FindGlobalListener(globalConfiguration.value.listeners, ts.listener.name, ts.listener.protocol);
      if !found {
        return;
      }
      newConfigs := tsConfigs[key := BoundTransportServerConfiguration(ts, listener)];
      var listenerKey := ListenerHostKey(listener.name, ts.host);
      newHolders, newConfigs := ClaimPlace(holders, newConfigs, listenerKey, key, ListenerTakenWarning(listenerKey));
    }

    /**
      buildListenerHostsAndTSConfigurations: the holder of every
      listener-host pair, by stored key, and the TransportServer
      configurations by stored key.
     */
    method BuildListenerHostsAndTSConfigurations() returns (holders: map<ListenerHostKey, string>, tsConfigs: map<string, Resource>)
      ensures Holding(holders, tsConfigs) == ListenerHostsAndTSConfigurations(transportServers, globalConfiguration)
    {
      holders, tsConfigs := map[], map[];
      var keys := SortedStringKeys(transportServers);
      for i := 0 to |keys|
        invariant Holding(holders, tsConfigs) == ListenerPhase(Holding(map[], map[]), transportServers, globalConfiguration, keys[..i])
      {
        assert keys[..i + 1][..i] == keys[..i];
        holders, tsConfigs := AddListenerHost(holders, tsConfigs, keys[i], transportServers[keys[i]]);
      }
      assert keys[..|keys|] == keys;
    }

    // ---- Problems and warnings ----

    /** addWarningsForVirtualServersWithMissConfiguredListeners, warning each VirtualServer about its own listeners. */
    method AddWarningsForVirtualServersWithMissConfiguredListeners(holders: map<string, string>, resources: map<string, Resource>)
      returns (result: map<string, Resource>)
      requires Consistent(Holding(holders, resources))
      ensures Holding(holders, result) == ListenerWarnings(Holding(holders, resources), globalConfiguration.Some?, listenerMap, SortedStrings(resources.Keys))
    {
      var keys := SortedStringKeys(resources);
      var s := Holding(holders, resources);
      for i := 0 to |keys|
        invariant s == ListenerWarnings(Holding(holders, resources), globalConfiguration.Some?, listenerMap, keys[..i])
      {
        ListenerWarningsStep(Holding(holders, resources), globalConfiguration.Some?, listenerMap, keys, i);
        s := WarnAboutListeners(s, keys[i]);
      }
      assert keys[..|keys|] == keys;
      result := s.resources;
    }

    /** The VirtualServer configuration under `key` gets the warning about its listeners, if any. */
    method WarnAboutListeners(s: Holding<string>, key: string) returns (r: Holding<string>)
      requires Consistent(s)
      ensures r == WarnVirtualServer(s, globalConfiguration.Some?, listenerMap, key)
    {
      r := s;
      if key !in s.resources || !s.resources[key].VirtualServerConfiguration? {
        return;
      }
      var c := s.resources[key];
      match ListenerWarning(c.virtualServer, globalConfiguration.Some?, listenerMap)
      case None =>
      case Some(warning) =>
        r := s.(resources := s.resources[key := c.AddWarning(warning)]);
    }

    /** addProblemsForResourcesWithoutActiveHost, against the current hosts. */
    method AddProblemsForResourcesWithoutActiveHost(resources: map<string, Resource>, problems: map<string, ConfigurationProblem>)
      returns (result: map<string, ConfigurationProblem>)
      ensures result == RecordAll(problems, resources, SortedStrings(resources.Keys), HostProblemOf(hosts))
    {
      var keys := SortedStringKeys(resources);
      result := problems;
      for i := 0 to |keys|
        invariant result == RecordAll(problems, resources, keys[..i], HostProblemOf(hosts))
      {
        assert keys[..i + 1][..i] == keys[..i];
        result := RecordHostProblem(result, resources[keys[i]]);
      }
      assert keys[..|keys|] == keys;
    }

    /** A configuration without an active host gets a rejection problem. */
    method RecordHostProblem(problems: map<string, ConfigurationProblem>, r: Resource) returns (result: map<string, ConfigurationProblem>)
      ensures result == Record(problems, HostProblem(hosts, r))
    {
      result := problems;
      var key := r.GetKeyWithKind();
      match r
      case IngressConfiguration(_, _, _, validHosts, _, _) =>
        if true !in validHosts.Values {
          result := problems[key := ConfigurationProblem(key, false, EventReasonRejected, "All hosts are taken by other resources")];
        }
      case VirtualServerConfiguration(vs, _, _, _, _, _, _, _, _) =>
        if !(vs.host in hosts && hosts[vs.host].GetKeyWithKind() == key) {
          result := problems[key := ConfigurationProblem(key, false, EventReasonRejected, "Host is taken by another resource")];
        }
      case TransportServerConfiguration(_, _, _, ts, _) =>
        if !(ts.host in hosts && hosts[ts.host].GetKeyWithKind() == key) {
          result := problems[key := ConfigurationProblem(key, false, EventReasonRejected, "Host is taken by another resource")];
        }
    }

    /** addProblemsForOrphanMinions, against the current hosts. */
    method AddProblemsForOrphanMinions(problems: map<string, ConfigurationProblem>) returns (result: map<string, ConfigurationProblem>)
      ensures result == RecordAll(problems, ingresses, SortedStrings(ingresses.Keys), OrphanMinionProblemOf(hosts))
    {
      var keys := SortedStringKeys(ingresses);
      result := problems;
      for i := 0 to |keys|
        invariant result == RecordAll(problems, ingresses, keys[..i], OrphanMinionProblemOf(hosts))
      {
        assert keys[..i + 1][..i] == keys[..i];
        result := RecordOrphanMinionProblem(result, ingresses[keys[i]]);
      }
      assert keys[..|keys|] == keys;
    }

    /** A minion whose host is not held by a master gets a problem. */
    method RecordOrphanMinionProblem(problems: map<string, ConfigurationProblem>, ing: Ingress) returns (result: map<string, ConfigurationProblem>)
      ensures result == Record(problems, OrphanMinionProblem(hosts, ing))
    {
      result := problems;
      if !IsMinion(ing) {
        return;
      }
      var hasMaster := |ing.rules| > 0 && ing.rules[0].host in hosts
        && hosts[ing.rules[0].host].IngressConfiguration? && hosts[ing.rules[0].host].isMaster;
      if !hasMaster {
        var key := ResourceKeyWithKind(IngressKind, ing.meta);
        result := problems[key := ConfigurationProblem(key, false, EventReasonNoIngressMasterFound, "Ingress master is invalid or doesn't exist")];
      }
    }

    /** addProblemsForOrphanOrIgnoredVsrs, against the current hosts. */
    method AddProblemsForOrphanOrIgnoredVsrs(problems: map<string, ConfigurationProblem>) returns (result: map<string, ConfigurationProblem>)
      ensures result == RecordAll(problems, virtualServerRoutes, SortedStrings(virtualServerRoutes.Keys), OrphanRouteProblemOf(hosts))
    {
      var keys := SortedStringKeys(virtualServerRoutes);
      result := problems;
      for i := 0 to |keys|
        invariant result == RecordAll(problems, virtualServerRoutes, keys[..i], OrphanRouteProblemOf(hosts))
      {
        assert keys[..i + 1][..i] == keys[..i];
        result := RecordOrphanRouteProblem(result, virtualServerRoutes[keys[i]]);
      }
      assert keys[..|keys|] == keys;
    }

    /** A VirtualServerRoute without a VirtualServer, or ignored by it, gets a problem. */
    method RecordOrphanRouteProblem(problems: map<string, ConfigurationProblem>, vsr: VirtualServerRoute) returns (result: map<string, ConfigurationProblem>)
      ensures result == Record(problems, OrphanRouteProblem(hosts, vsr))
    {
      result := problems;
      var key := ResourceKeyWithKind(VirtualServerRouteKind, vsr.meta);
      if !(vsr.host in hosts && hosts[vsr.host].VirtualServerConfiguration?) {
        result := problems[key := ConfigurationProblem(key, false, EventReasonNoVirtualServerFound, "VirtualServer is invalid or doesn't exist")];
        return;
      }
      var vsConfig := hosts[vsr.host];
      var found := IsRouteListed(vsConfig.virtualServerRoutes, vsr);
      if !found {
        result := problems[key := ConfigurationProblem(key, false, EventReasonIgnored,
                                                       "VirtualServer " + ResourceKey(vsConfig.virtualServer.meta) + " ignores VirtualServerRoute")];
      }
    }

    /** addProblemsForTSConfigsWithoutActiveListener, against the current listener hosts. */
    method AddProblemsForTSConfigsWithoutActiveListener(tsConfigs: map<string, Resource>, problems: map<string, ConfigurationProblem>)
      returns (result: map<string, ConfigurationProblem>)
      ensures result == RecordAll(problems, tsConfigs, SortedStrings(tsConfigs.Keys), ListenerProblemOf(listenerHosts))
    {
      var keys := SortedStringKeys(tsConfigs);
      result := problems;
      for i := 0 to |keys|
        invariant result == RecordAll(problems, tsConfigs, keys[..i], ListenerProblemOf(listenerHosts))
      {
        assert keys[..i + 1][..i] == keys[..i];
        result := RecordListenerProblem(result, tsConfigs[keys[i]]);
      }
      assert keys[..|keys|] == keys;
    }

    /** A TransportServer configuration without an active listener gets a rejection problem. */
    method RecordListenerProblem(problems: map<string, ConfigurationProblem>, tsc: Resource) returns (result: map<string, ConfigurationProblem>)
      ensures result == Record(problems, ListenerProblem(listenerHosts, tsc))
    {
      result := problems;
      if !tsc.TransportServerConfiguration? {
        return;
      }
      var listenerName := tsc.transportServer.listener.name;
      var host := tsc.transportServer.host;
      var key := ListenerHostKey(listenerName, host);
      if key !in listenerHosts {
        result := problems[tsc.GetKeyWithKind() := ConfigurationProblem(tsc.GetKeyWithKind(), false, EventReasonRejected,
                                                                         "Listener " + listenerName + " doesn't exist")];
        return;
      }
      if !tsc.IsEqual(listenerHosts[key]) {
        var hostDescription := if host == "" then "empty host" else host;
        result := problems[tsc.GetKeyWithKind() := ConfigurationProblem(tsc.GetKeyWithKind(), false, EventReasonRejected,
                                                                         "Listener " + listenerName + " with host " + hostDescription + " is taken by another resource")];
      }
    }

    /** GetTransportServerMetrics. */
    method GetTransportServerMetrics() returns (metrics: TransportServerMetrics)
      ensures metrics.totalTLSPassthrough == if isTLSPassthroughEnabled then |TLSPassthroughHosts(hosts)| else 0
      ensures metrics.totalTCP == |TCPListenerHosts(listenerHosts)|
      ensures metrics.totalTCP + metrics.totalUDP == |listenerHosts|
    {
      var tlsPassthrough := 0;
      if isTLSPassthroughEnabled {
        tlsPassthrough := CountTLSPassthroughHosts(hosts);
      }
      var tcp, udp := CountListenerHosts(listenerHosts);
      metrics := TransportServerMetrics(tlsPassthrough, tcp, udp);
    }
  
    // ---- Rebuilds ----

    /** setGlobalConfigListenerMap. */
    method SetGlobalConfigListenerMap()
      modifies this
      ensures listenerMap == GlobalListenerMap(globalConfiguration)
      ensures Stored() == old(Stored()).(listenerMap := listenerMap)
      ensures hosts == old(hosts) && listenerHosts == old(listenerHosts)
      ensures hostProblems == old(hostProblems) && listenerProblems == old(listenerProblems)
    {
      var m: map<string, Listener> := map[];
      if globalConfiguration.Some? {
        var listeners := globalConfiguration.value.listeners;
        for i := 0 to |listeners|
          invariant m == ListenerMapOf(listeners[..i])
        {
          assert listeners[..i + 1][..i] == listeners[..i];
          m := m[listeners[i].name := listeners[i]];
        }
        assert listeners[..|listeners|] == listeners;
      }
      listenerMap := m;
    }

    /** The configurations and the holders of hosts of a rebuild, with active hosts and listener warnings. */
    method RebuildHostsAndResources() returns (holders: map<string, string>, resources: map<string, Resource>)
      ensures Holding(holders, resources) == RebuiltHosts(Stored(), isTLSPassthroughEnabled, virtualServerRouteValidator)
    {
      holders, resources := BuildHostsAndResources();
      resources := UpdateActiveHostsForIngresses(holders, resources);
      resources := AddWarningsForVirtualServersWithMissConfiguredListeners(holders, resources);
    }

    /** The changes from the current hosts to the new ones, squashed and referring to the latest configurations. */
    method HostChangesTo(newHosts: map<string, Resource>, latest: map<string, Resource>) returns (changes: seq<ResourceChange>)
      ensures changes == HostChanges(hosts, newHosts, latest)
    {
      var removedHosts, updatedHosts, addedHosts := DetectChangesInHosts(hosts, newHosts);
      SortedStringsEnumerates(hosts.Keys - newHosts.Keys);
      SortedStringsEnumerates(newHosts.Keys - hosts.Keys);
      UpdatedHostsMembership(SortedStrings(newHosts.Keys), hosts, newHosts);
      changes := CreateResourceChanges(removedHosts, updatedHosts, addedHosts, hosts, newHosts);
      changes := SquashResourceChanges(changes);
      changes := RefreshToLatest(changes, latest, false);
    }

    /** The problems of the current hosts and configurations. */
    method FindHostProblems(holders: map<string, string>, resources: map<string, Resource>) returns (newProblems: map<string, ConfigurationProblem>)
      requires Consistent(Holding(holders, resources)) && hosts == Places(Holding(holders, resources))
      ensures newProblems == HostProblemsOf(Stored(), Holding(holders, resources))
    {
      newProblems := AddProblemsForResourcesWithoutActiveHost(resources, map[]);
      newProblems := AddProblemsForOrphanMinions(newProblems);
      newProblems := AddProblemsForOrphanOrIgnoredVsrs(newProblems);
    }

    /**
      rebuildHosts: the hosts are rebuilt from the stored resources; the
      changes of their holders and the new or changed problems are reported.
     */
    method RebuildHosts() returns (changes: seq<ResourceChange>, problems: seq<ConfigurationProblem>)
      modifies this
      ensures Stored() == old(Stored())
      ensures listenerHosts == old(listenerHosts) && listenerProblems == old(listenerProblems)
      ensures HostsCurrent()
      ensures Outcome(changes, problems)
           == RebuildHostsOutcome(Stored(), isTLSPassthroughEnabled, virtualServerRouteValidator, old(hosts), old(hostProblems))
    {
      var holders, resources := RebuildHostsAndResources();
      var newHosts := Places(Holding(holders, resources));
      changes := HostChangesTo(newHosts, resources);
      hosts := newHosts;
      problems := UpdateHostProblems(holders, resources);
    }

    /** The problems of the new hosts replace the old ones; those new or changed are reported. */
    method UpdateHostProblems(holders: map<string, string>, resources: map<string, Resource>) returns (problems: seq<ConfigurationProblem>)
      requires Consistent(Holding(holders, resources)) && hosts == Places(Holding(holders, resources))
      modifies this
      ensures Stored() == old(Stored()) && hosts == old(hosts)
      ensures listenerHosts == old(listenerHosts) && listenerProblems == old(listenerProblems)
      ensures hostProblems == HostProblemsOf(Stored(), Holding(holders, resources))
      ensures problems == ChangedProblems(SortedStrings(hostProblems.Keys), hostProblems, old(hostProblems))
    {
      var newProblems := FindHostProblems(holders, resources);
      problems := DetectChangesInProblems(newProblems, hostProblems);
      hostProblems := newProblems;
    }

    /** The changes from the current listener hosts to the new ones, squashed and referring to the latest configurations. */
    method ListenerChangesTo(newListenerHosts: map<ListenerHostKey, Resource>, latest: map<string, Resource>) returns (changes: seq<ResourceChange>)
      ensures changes == ListenerChanges(listenerHosts, newListenerHosts, latest)
    {
      var removed, updated, added := DetectChangesInListenerHosts(listenerHosts, newListenerHosts);
      SortedListenerHostKeysEnumerates(listenerHosts.Keys - newListenerHosts.Keys);
      SortedListenerHostKeysEnumerates(UpdatedListenerHostKeys(listenerHosts, newListenerHosts));
      SortedListenerHostKeysEnumerates(newListenerHosts.Keys - listenerHosts.Keys);
      changes := CreateResourceChanges(removed, updated, added, listenerHosts, newListenerHosts);
      changes := SquashResourceChanges(changes);
      changes := RefreshToLatest(changes, latest, true);
    }

    /**
      rebuildListenerHosts: the listener hosts are rebuilt from the stored
      TransportServers; the changes of their holders, referring to the
      latest configurations, and the new or changed problems are reported.
     */
    method RebuildListenerHosts() returns (changes: seq<ResourceChange>, problems: seq<ConfigurationProblem>)
      modifies this
      ensures Stored() == old(Stored())
      ensures hosts == old(hosts) && hostProblems == old(hostProblems)
      ensures ListenersCurrent()
      ensures Outcome(changes, problems) == RebuildListenersOutcome(transportServers, globalConfiguration, old(listenerHosts), old(listenerProblems))
    {
      var holders, tsConfigs := BuildListenerHostsAndTSConfigurations();
      var newListenerHosts := Places(Holding(holders, tsConfigs));
      changes := ListenerChangesTo(newListenerHosts, tsConfigs);
      listenerHosts := newListenerHosts;
      problems := UpdateListenerProblems(holders, tsConfigs);
    }

    /** The problems of the new listener hosts replace the old ones; those new or changed are reported. */
    method UpdateListenerProblems(holders: map<ListenerHostKey, string>, tsConfigs: map<string, Resource>) returns (problems: seq<ConfigurationProblem>)
      requires Consistent(Holding(holders, tsConfigs)) && listenerHosts == Places(Holding(holders, tsConfigs))
      modifies this
      ensures Stored() == old(Stored()) && listenerHosts == old(listenerHosts)
      ensures hosts == old(hosts) && hostProblems == old(hostProblems)
      ensures listenerProblems == ListenerProblemsOf(Holding(holders, tsConfigs))
      ensures problems == ChangedProblems(SortedStrings(listenerProblems.Keys), listenerProblems, old(listenerProblems))
    {
      var newProblems := AddProblemsForTSConfigsWithoutActiveListener(tsConfigs, map[]);
      problems := DetectChangesInProblems(newProblems, listenerProblems);
      listenerProblems := newProblems;
    }

    // ---- Store operations ----

    /** NewConfiguration: nothing is stored, nothing is held and there are no problems. */
    constructor (isTLSPassthroughEnabled: bool, virtualServerRouteValidator: RouteValidator)
      ensures this.isTLSPassthroughEnabled == isTLSPassthroughEnabled
      ensures this.virtualServerRouteValidator == virtualServerRouteValidator
      ensures Stored() == Store(map[], map[], map[], map[], None, map[])
      ensures hosts == map[] && listenerHosts == map[] && hostProblems == map[] && listenerProblems == map[]
      ensures Valid()
    {
      this.isTLSPassthroughEnabled := isTLSPassthroughEnabled;
      this.virtualServerRouteValidator := virtualServerRouteValidator;
      hosts, listenerHosts, listenerMap := map[], map[], map[];
      ingresses, virtualServers, virtualServerRoutes, transportServers := map[], map[], map[], map[];
      globalConfiguration := None;
      hostProblems, listenerProblems := map[], map[];
      EmptyRebuilds(isTLSPassthroughEnabled, virtualServerRouteValidator);
    }

    /** Whether an object of the right class and valid is stored, given the validator's error. */
    static predicate Accepted(hasCorrectClass: bool, validationError: Option<string>) {
      hasCorrectClass && validationError.None?
    }

    /** The validator runs only for an object of the right class. */
    static predicate Rejected(hasCorrectClass: bool, validationError: Option<string>) {
      hasCorrectClass && validationError.Some?
    }

    /**
      AddOrUpdateIngress: an Ingress of the right class that passes
      validation is stored under its "namespace/name" key, any other is
      removed; the hosts are rebuilt, and a validation error is reported.
     */
    method AddOrUpdateIngress(ing: Ingress, hasCorrectClass: bool, validationError: Option<string>)
      returns (changes: seq<ResourceChange>, problems: seq<ConfigurationProblem>)
      requires Valid()
      modifies this
      ensures Valid()
      ensures ingresses == if Accepted(hasCorrectClass, validationError) then old(ingresses)[ResourceKey(ing.meta) := ing]
                           else old(ingresses) - {ResourceKey(ing.meta)}
      ensures Stored() == old(Stored()).(ingresses := ingresses)
      ensures listenerHosts == old(listenerHosts) && listenerProblems == old(listenerProblems)
      ensures var o := RebuildHostsOutcome(Stored(), isTLSPassthroughEnabled, virtualServerRouteValidator, old(hosts), old(hostProblems));
        Outcome(changes, problems) == if Rejected(hasCorrectClass, validationError)
          then WithValidationError(o, ResourceKeyWithKind(IngressKind, ing.meta), validationError.value, validationError.value)
          else o
      ensures Stored() == old(Stored()) && !Rejected(hasCorrectClass, validationError) ==> changes == [] && problems == []
    {
      ghost var before := Stored();
      StoreIngress(ing, hasCorrectClass, validationError);
      changes, problems := RebuildValidHosts();
      RebuildHostsStable(before, isTLSPassthroughEnabled, virtualServerRouteValidator);
      if Rejected(hasCorrectClass, validationError) {
        changes, problems := ReportValidationError(changes, problems, ResourceKeyWithKind(IngressKind, ing.meta),
                                                   validationError.value, validationError.value);
      }
    }

    /** The Ingress is stored if it is accepted and removed otherwise. */
    method StoreIngress(ing: Ingress, hasCorrectClass: bool, validationError: Option<string>)
      requires ReadyForHosts()
      modifies this
      ensures ReadyForHosts()
      ensures ingresses == if Accepted(hasCorrectClass, validationError) then old(ingresses)[ResourceKey(ing.meta) := ing]
                           else old(ingresses) - {ResourceKey(ing.meta)}
      ensures Stored() == old(Stored()).(ingresses := ingresses)
      ensures hosts == old(hosts) && hostProblems == old(hostProblems)
      ensures listenerHosts == old(listenerHosts) && listenerProblems == old(listenerProblems)
    {
      if Accepted(hasCorrectClass, validationError) {
        ingresses := ingresses[ResourceKey(ing.meta) := ing];
      } else {
        RemoveIngress(ResourceKey(ing.meta));
      }
    }

    method RemoveIngress(key: string)
      requires ReadyForHosts()
      modifies this
      ensures ReadyForHosts()
      ensures ingresses == old(ingresses) - {key}
      ensures Stored() == old(Stored()).(ingresses := ingresses)
      ensures hosts == old(hosts) && hostProblems == old(hostProblems)
      ensures listenerHosts == old(listenerHosts) && listenerProblems == old(listenerProblems)
    {
      ingresses := ingresses - {key};
    }

    /** Everything Valid demands except current hosts: what a host rebuild restores. */
    ghost predicate ReadyForHosts()
      reads this
    {
      && KeysMatch(Stored())
      && listenerMap == GlobalListenerMap(globalConfiguration)
      && ListenersCurrent()
    }

    /** A host rebuild that re-establishes Valid. */
    method RebuildValidHosts() returns (changes: seq<ResourceChange>, problems: seq<ConfigurationProblem>)
      requires ReadyForHosts()
      modifies this
      ensures Valid()
      ensures Stored() == old(Stored())
      ensures listenerHosts == old(listenerHosts) && listenerProblems == old(listenerProblems)
      ensures Outcome(changes, problems)
           == RebuildHostsOutcome(Stored(), isTLSPassthroughEnabled, virtualServerRouteValidator, old(hosts), old(hostProblems))
    {
      changes, problems := RebuildHosts();
    }

    /** DeleteIngress: an unknown key changes nothing; otherwise the Ingress is removed and the hosts are rebuilt. */
    method DeleteIngress(key: string) returns (changes: seq<ResourceChange>, problems: seq<ConfigurationProblem>)
      requires Valid()
      modifies this
      ensures Valid()
      ensures key !in old(ingresses) ==> changes == [] && problems == [] && unchanged(this)
      ensures key in old(ingresses) ==>
        && ingresses == old(ingresses) - {key}
        && Stored() == old(Stored()).(ingresses := ingresses)
        && listenerHosts == old(listenerHosts) && listenerProblems == old(listenerProblems)
        && Outcome(changes, problems) == RebuildHostsOutcome(Stored(), isTLSPassthroughEnabled, virtualServerRouteValidator, old(hosts), old(hostProblems))
    {
      if key !in ingresses {
        return [], [];
      }
      RemoveIngress(key);
      changes, problems := RebuildValidHosts();
    }

    /**
      AddOrUpdateVirtualServer: a VirtualServer of the right class that
      passes validation is stored under its "namespace/name" key, any other
      is removed; the hosts are rebuilt, and a validation error is reported.
     */
    method AddOrUpdateVirtualServer(vs: VirtualServer, hasCorrectClass: bool, validationError: Option<string>)
      returns (changes: seq<ResourceChange>, problems: seq<ConfigurationProblem>)
      requires Valid()
      modifies this
      ensures Valid()
      ensures virtualServers == if Accepted(hasCorrectClass, validationError) then old(virtualServers)[ResourceKey(vs.meta) := vs]
                                else old(virtualServers) - {ResourceKey(vs.meta)}
      ensures Stored() == old(Stored()).(virtualServers := virtualServers)
      ensures listenerHosts == old(listenerHosts) && listenerProblems == old(listenerProblems)
      ensures var o := RebuildHostsOutcome(Stored(), isTLSPassthroughEnabled, virtualServerRouteValidator, old(hosts), old(hostProblems));
        Outcome(changes, problems) == if Rejected(hasCorrectClass, validationError)
          then WithValidationError(o, ResourceKeyWithKind(VirtualServerKind, vs.meta), validationError.value,
                                   "VirtualServer " + ResourceKey(vs.meta) + " was rejected with error: " + validationError.value)
          else o
      ensures Stored() == old(Stored()) && !Rejected(hasCorrectClass, validationError) ==> changes == [] && problems == []
    {
      ghost var before := Stored();
      StoreVirtualServer(vs, hasCorrectClass, validationError);
      changes, problems := RebuildValidHosts();
      RebuildHostsStable(before, isTLSPassthroughEnabled, virtualServerRouteValidator);
      if Rejected(hasCorrectClass, validationError) {
        changes, problems := ReportValidationError(changes, problems, ResourceKeyWithKind(VirtualServerKind, vs.meta), validationError.value,
                                                   "VirtualServer " + ResourceKey(vs.meta) + " was rejected with error: " + validationError.value);
      }
    }

    /** The VirtualServer is stored if it is accepted and removed otherwise. */
    method StoreVirtualServer(vs: VirtualServer, hasCorrectClass: bool, validationError: Option<string>)
      requires ReadyForHosts()
      modifies this
      ensures ReadyForHosts()
      ensures virtualServers == if Accepted(hasCorrectClass, validationError) then old(virtualServers)[ResourceKey(vs.meta) := vs]
                                else old(virtualServers) - {ResourceKey(vs.meta)}
      ensures Stored() == old(Stored()).(virtualServers := virtualServers)
      ensures hosts == old(hosts) && hostProblems == old(hostProblems)
      ensures listenerHosts == old(listenerHosts) && listenerProblems == old(listenerProblems)
    {
      if Accepted(hasCorrectClass, validationError) {
        virtualServers := virtualServers[ResourceKey(vs.meta) := vs];
      } else {
        RemoveVirtualServer(ResourceKey(vs.meta));
      }
    }

    method RemoveVirtualServer(key: string)
      requires ReadyForHosts()
      modifies this
      ensures ReadyForHosts()
      ensures virtualServers == old(virtualServers) - {key}
      ensures Stored() == old(Stored()).(virtualServers := virtualServers)
      ensures hosts == old(hosts) && hostProblems == old(hostProblems)
      ensures listenerHosts == old(listenerHosts) && listenerProblems == old(listenerProblems)
    {
      virtualServers := virtualServers - {key};
    }

    /** DeleteVirtualServer: an unknown key changes nothing; otherwise the VirtualServer is removed and the hosts are rebuilt. */
    method DeleteVirtualServer(key: string) returns (changes: seq<ResourceChange>, problems: seq<ConfigurationProblem>)
      requires Valid()
      modifies this
      ensures Valid()
      ensures key !in old(virtualServers) ==> changes == [] && problems == [] && unchanged(this)
      ensures key in old(virtualServers) ==>
        && virtualServers == old(virtualServers) - {key}
        && Stored() == old(Stored()).(virtualServers := virtualServers)
        && listenerHosts == old(listenerHosts) && listenerProblems == old(listenerProblems)
        && Outcome(changes, problems) == RebuildHostsOutcome(Stored(), isTLSPassthroughEnabled, virtualServerRouteValidator, old(hosts), old(hostProblems))
    {
      if key !in virtualServers {
        return [], [];
      }
      RemoveVirtualServer(key);
      changes, problems := RebuildValidHosts();
    }

    /**
      AddOrUpdateVirtualServerRoute: a VirtualServerRoute of the right class
      that passes validation is stored under its "namespace/name" key, any
      other is removed; the hosts are rebuilt, and a validation error is
      always reported as a problem of its own.
     */
    method AddOrUpdateVirtualServerRoute(vsr: VirtualServerRoute, hasCorrectClass: bool, validationError: Option<string>)
      returns (changes: seq<ResourceChange>, problems: seq<ConfigurationProblem>)
      requires Valid()
      modifies this
      ensures Valid()
      ensures virtualServerRoutes == if Accepted(hasCorrectClass, validationError) then old(virtualServerRoutes)[ResourceKey(vsr.meta) := vsr]
                                     else old(virtualServerRoutes) - {ResourceKey(vsr.meta)}
      ensures Stored() == old(Stored()).(virtualServerRoutes := virtualServerRoutes)
      ensures listenerHosts == old(listenerHosts) && listenerProblems == old(listenerProblems)
      ensures var o := RebuildHostsOutcome(Stored(), isTLSPassthroughEnabled, virtualServerRouteValidator, old(hosts), old(hostProblems));
        Outcome(changes, problems) == if Rejected(hasCorrectClass, validationError)
          then o.(problems := o.problems + [ConfigurationProblem(ResourceKeyWithKind(VirtualServerRouteKind, vsr.meta), true, EventReasonRejected,
                                            "VirtualServerRoute " + ResourceKey(vsr.meta) + " was rejected with error: " + validationError.value)])
          else o
      ensures Stored() == old(Stored()) && !Rejected(hasCorrectClass, validationError) ==> changes == [] && problems == []
    {
      ghost var before := Stored();
      StoreVirtualServerRoute(vsr, hasCorrectClass, validationError);
      changes, problems := RebuildValidHosts();
      RebuildHostsStable(before, isTLSPassthroughEnabled, virtualServerRouteValidator);
      if Rejected(hasCorrectClass, validationError) {
        problems := problems + [ConfigurationProblem(ResourceKeyWithKind(VirtualServerRouteKind, vsr.meta), true, EventReasonRejected,
                                                     "VirtualServerRoute " + ResourceKey(vsr.meta) + " was rejected with error: " + validationError.value)];
      }
    }

    /** The VirtualServerRoute is stored if it is accepted and removed otherwise. */
    method StoreVirtualServerRoute(vsr: VirtualServerRoute, hasCorrectClass: bool, validationError: Option<string>)
      requires ReadyForHosts()
      modifies this
      ensures ReadyForHosts()
      ensures virtualServerRoutes == if Accepted(hasCorrectClass, validationError) then old(virtualServerRoutes)[ResourceKey(vsr.meta) := vsr]
                                     else old(virtualServerRoutes) - {ResourceKey(vsr.meta)}
      ensures Stored() == old(Stored()).(virtualServerRoutes := virtualServerRoutes)
      ensures hosts == old(hosts) && hostProblems == old(hostProblems)
      ensures listenerHosts == old(listenerHosts) && listenerProblems == old(listenerProblems)
    {
      if Accepted(hasCorrectClass, validationError) {
        virtualServerRoutes := virtualServerRoutes[ResourceKey(vsr.meta) := vsr];
      } else {
        RemoveVirtualServerRoute(ResourceKey(vsr.meta));
      }
    }

    method RemoveVirtualServerRoute(key: string)
      requires ReadyForHosts()
      modifies this
      ensures ReadyForHosts()
      ensures virtualServerRoutes == old(virtualServerRoutes) - {key}
      ensures Stored() == old(Stored()).(virtualServerRoutes := virtualServerRoutes)
      ensures hosts == old(hosts) && hostProblems == old(hostProblems)
      ensures listenerHosts == old(listenerHosts) && listenerProblems == old(listenerProblems)
    {
      virtualServerRoutes := virtualServerRoutes - {key};
    }

    /** DeleteVirtualServerRoute: an unknown key changes nothing; otherwise the route is removed and the hosts are rebuilt. */
    method DeleteVirtualServerRoute(key: string) returns (changes: seq<ResourceChange>, problems: seq<ConfigurationProblem>)
      requires Valid()
      modifies this
      ensures Valid()
      ensures key !in old(virtualServerRoutes) ==> changes == [] && problems == [] && unchanged(this)
      ensures key in old(virtualServerRoutes) ==>
        && virtualServerRoutes == old(virtualServerRoutes) - {key}
        && Stored() == old(Stored()).(virtualServerRoutes := virtualServerRoutes)
        && listenerHosts == old(listenerHosts) && listenerProblems == old(listenerProblems)
        && Outcome(changes, problems) == RebuildHostsOutcome(Stored(), isTLSPassthroughEnabled, virtualServerRouteValidator, old(hosts), old(hostProblems))
    {
      if key !in virtualServerRoutes {
        return [], [];
      }
      RemoveVirtualServerRoute(key);
      changes, problems := RebuildValidHosts();
    }

    /**
      Everything Valid demands except current listener hosts and, with TLS
      Passthrough, current hosts: what a rebuild after a change of the
      TransportServers restores.
     */
    ghost predicate ReadyForListeners()
      reads this
    {
      && KeysMatch(Stored())
      && listenerMap == GlobalListenerMap(globalConfiguration)
      && (isTLSPassthroughEnabled || HostsCurrent())
    }

    /**
      The listener hosts are rebuilt and, with TLS Passthrough, the hosts;
      without it, the hosts do not depend on the TransportServers.
     */
    method RebuildAfterTransportServers() returns (changes: seq<ResourceChange>, problems: seq<ConfigurationProblem>)
      requires ReadyForListeners()
      modifies this
      ensures Valid()
      ensures Stored() == old(Stored())
      ensures Outcome(changes, problems) == Concat(
        RebuildListenersOutcome(transportServers, globalConfiguration, old(listenerHosts), old(listenerProblems)),
        if isTLSPassthroughEnabled
        then RebuildHostsOutcome(Stored(), isTLSPassthroughEnabled, virtualServerRouteValidator, old(hosts), old(hostProblems))
        else Outcome([], []))
      ensures !isTLSPassthroughEnabled ==> hosts == old(hosts) && hostProblems == old(hostProblems)
    {
      changes, problems := RebuildListenerHosts();
      if isTLSPassthroughEnabled {
        var hostChanges, hostProblems := RebuildHosts();
        changes, problems := changes + hostChanges, problems + hostProblems;
      } else {
        assert changes + [] == changes && problems + [] == problems;
      }
    }

    /**
      AddOrUpdateTransportServer: a TransportServer of the right class that
      passes validation is stored under its "namespace/name" key, any other
      is removed; the listener hosts are rebuilt and, with TLS Passthrough,
      the hosts; a validation error is reported.
     */
    method AddOrUpdateTransportServer(ts: TransportServer, hasCorrectClass: bool, validationError: Option<string>)
      returns (changes: seq<ResourceChange>, problems: seq<ConfigurationProblem>)
      requires Valid()
      modifies this
      ensures Valid()
      ensures transportServers == if Accepted(hasCorrectClass, validationError) then old(transportServers)[ResourceKey(ts.meta) := ts]
                                  else old(transportServers) - {ResourceKey(ts.meta)}
      ensures Stored() == old(Stored()).(transportServers := transportServers)
      ensures !isTLSPassthroughEnabled ==> hosts == old(hosts) && hostProblems == old(hostProblems)
      ensures var o := Concat(
          RebuildListenersOutcome(transportServers, globalConfiguration, old(listenerHosts), old(listenerProblems)),
          if isTLSPassthroughEnabled
          then RebuildHostsOutcome(Stored(), isTLSPassthroughEnabled, virtualServerRouteValidator, old(hosts), old(hostProblems))
          else Outcome([], []));
        Outcome(changes, problems) == if Rejected(hasCorrectClass, validationError)
          then WithValidationError(o, ResourceKeyWithKind(TransportServerKind, ts.meta), validationError.value,
                                   "TransportServer " + ResourceKey(ts.meta) + " was rejected with error: " + validationError.value)
          else o
    {
      StoreTransportServer(ts, hasCorrectClass, validationError);
      changes, problems := RebuildAfterTransportServers();
      if Rejected(hasCorrectClass, validationError) {
        changes, problems := ReportValidationError(changes, problems, ResourceKeyWithKind(TransportServerKind, ts.meta), validationError.value,
                                                   "TransportServer " + ResourceKey(ts.meta) + " was rejected with error: " + validationError.value);
      }
    }

    /** The TransportServer is stored if it is accepted and removed otherwise. */
    method StoreTransportServer(ts: TransportServer, hasCorrectClass: bool, validationError: Option<string>)
      requires ReadyForListeners()
      modifies this
      ensures ReadyForListeners()
      ensures transportServers == if Accepted(hasCorrectClass, validationError) then old(transportServers)[ResourceKey(ts.meta) := ts]
                                  else old(transportServers) - {ResourceKey(ts.meta)}
      ensures Stored() == old(Stored()).(transportServers := transportServers)
      ensures hosts == old(hosts) && hostProblems == old(hostProblems)
      ensures listenerHosts == old(listenerHosts) && listenerProblems == old(listenerProblems)
    {
      if Accepted(hasCorrectClass, validationError) {
        ghost var before := Stored();
        transportServers := transportServers[ResourceKey(ts.meta) := ts];
        assert Stored() == before.(transportServers := transportServers);
        assert KeysMatch(Stored());
        if !isTLSPassthroughEnabled {
          HostsIgnoreTransportServers(before, isTLSPassthroughEnabled, virtualServerRouteValidator, transportServers);
          assert HostsCurrent();
        }
      } else {
        RemoveTransportServer(ResourceKey(ts.meta));
      }
    }

    method RemoveTransportServer(key: string)
      requires ReadyForListeners()
      modifies this
      ensures ReadyForListeners()
      ensures transportServers == old(transportServers) - {key}
      ensures Stored() == old(Stored()).(transportServers := transportServers)
      ensures hosts == old(hosts) && hostProblems == old(hostProblems)
      ensures listenerHosts == old(listenerHosts) && listenerProblems == old(listenerProblems)
    {
      ghost var before := Stored();
      transportServers := transportServers - {key};
      assert Stored() == before.(transportServers := transportServers);
      assert KeysMatch(Stored());
      if !isTLSPassthroughEnabled {
        HostsIgnoreTransportServers(before, isTLSPassthroughEnabled, virtualServerRouteValidator, transportServers);
        assert HostsCurrent();
      }
    }

    /**
      DeleteTransportServer: an unknown key changes nothing; otherwise the
      TransportServer is removed and the listener hosts (and, with TLS
      Passthrough, the hosts) are rebuilt.
     */
    method DeleteTransportServer(key: string) returns (changes: seq<ResourceChange>, problems: seq<ConfigurationProblem>)
      requires Valid()
      modifies this
      ensures Valid()
      ensures key !in old(transportServers) ==> changes == [] && problems == [] && unchanged(this)
      ensures key in old(transportServers) ==>
        && transportServers == old(transportServers) - {key}
        && Stored() == old(Stored()).(transportServers := transportServers)
        && (!isTLSPassthroughEnabled ==> hosts == old(hosts) && hostProblems == old(hostProblems))
        && Outcome(changes, problems) == Concat(
             RebuildListenersOutcome(transportServers, globalConfiguration, old(listenerHosts), old(listenerProblems)),
             if isTLSPassthroughEnabled
             then RebuildHostsOutcome(Stored(), isTLSPassthroughEnabled, virtualServerRouteValidator, old(hosts), old(hostProblems))
             else Outcome([], []))
    {
      if key !in transportServers {
        return [], [];
      }
      RemoveTransportServer(key);
      changes, problems := RebuildAfterTransportServers();
    }

    /**
      The GlobalConfiguration is replaced and its listeners are mapped, the
      listener hosts are rebuilt, then the hosts; the changes and problems
      of both rebuilds are reported, those of the listeners first.
     */
    method ReplaceGlobalConfiguration(gc: Option<GlobalConfiguration>) returns (changes: seq<ResourceChange>, problems: seq<ConfigurationProblem>)
      requires KeysMatch(Stored())
      modifies this
      ensures Valid()
      ensures globalConfiguration == gc && listenerMap == GlobalListenerMap(gc)
      ensures Stored() == old(Stored()).(globalConfiguration := gc, listenerMap := listenerMap)
      ensures Outcome(changes, problems) == Concat(
        RebuildListenersOutcome(transportServers, gc, old(listenerHosts), old(listenerProblems)),
        RebuildHostsOutcome(Stored(), isTLSPassthroughEnabled, virtualServerRouteValidator, old(hosts), old(hostProblems)))
    {
      globalConfiguration := gc;
      SetGlobalConfigListenerMap();
      var listenerChanges, listenerProblems := RebuildListenerHosts();
      var hostChanges, hostProblems := RebuildHosts();
      changes, problems := listenerChanges + hostChanges, listenerProblems + hostProblems;
    }

    /**
      AddOrUpdateGlobalConfiguration: the GlobalConfiguration is stored even
      when it is invalid; the validator's error is returned as it is.
     */
    method AddOrUpdateGlobalConfiguration(gc: GlobalConfiguration, validationError: Option<string>)
      returns (changes: seq<ResourceChange>, problems: seq<ConfigurationProblem>, error: Option<string>)
      requires Valid()
      modifies this
      ensures Valid()
      ensures globalConfiguration == Some(gc) && listenerMap == ListenerMapOf(gc.listeners)
      ensures Stored() == old(Stored()).(globalConfiguration := Some(gc), listenerMap := listenerMap)
      ensures error == validationError
      ensures Outcome(changes, problems) == Concat(
        RebuildListenersOutcome(transportServers, Some(gc), old(listenerHosts), old(listenerProblems)),
        RebuildHostsOutcome(Stored(), isTLSPassthroughEnabled, virtualServerRouteValidator, old(hosts), old(hostProblems)))
    {
      changes, problems := ReplaceGlobalConfiguration(Some(gc));
      error := validationError;
    }

    /** DeleteGlobalConfiguration: without a GlobalConfiguration no listener is known. */
    method DeleteGlobalConfiguration() returns (changes: seq<ResourceChange>, problems: seq<ConfigurationProblem>)
      requires Valid()
      modifies this
      ensures Valid()
      ensures globalConfiguration == None && listenerMap == map[]
      ensures Stored() == old(Stored()).(globalConfiguration := None, listenerMap := map[])
      ensures Outcome(changes, problems) == Concat(
        RebuildListenersOutcome(transportServers, None, old(listenerHosts), old(listenerProblems)),
        RebuildHostsOutcome(Stored(), isTLSPassthroughEnabled, virtualServerRouteValidator, old(hosts), old(hostProblems)))
    {
      changes, problems := ReplaceGlobalConfiguration(None);
    }
}
}
