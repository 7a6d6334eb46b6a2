/**
  What the builders of the configuration compute, as functions of the
  stored resources: the VirtualServerRoutes of a VirtualServer, the
  listeners a VirtualServer binds, the minions of a master Ingress, and the
  holders of hosts and of listener-host pairs. The methods of the
  configuration class compute the same by loops.
 */
module Builders {
  import opened Wrappers
  import opened Ordering
  import opened Resources
  import opened Arbitration

  /** The stored resources the builders read. */
  datatype Store = Store(
    ingresses: map<string, Ingress>,
    virtualServers: map<string, VirtualServer>,
    virtualServerRoutes: map<string, VirtualServerRoute>,
    transportServers: map<string, TransportServer>,
    globalConfiguration: Option<GlobalConfiguration>,
    listenerMap: map<string, Listener>)

  /**
    ValidateVirtualServerRouteForVirtualServer: the error, if any, of using a
    VirtualServerRoute for a host and path of a VirtualServer.
   */
  type RouteValidator = (VirtualServerRoute, string, string) -> Option<string>

  // ---- VirtualServerRoutes of a VirtualServer ----

  /** A reference without a namespace is in the namespace of the VirtualServer. */
  function RouteKey(namespace: string, route: string): string {
    if '/' in route then route else namespace + "/" + route
  }

  function MissingRouteWarning(key: string): string {
    "VirtualServerRoute " + key + " doesn't exist or invalid"
  }

  function InvalidRouteWarning(key: string, error: string): string {
    "VirtualServerRoute " + key + " is invalid: " + error
  }

  /** What becomes of one route of a VirtualServer. */
  datatype RouteOutcome = Skipped | Missing(key: string) | Invalid(key: string, error: string) | Resolved(vsr: VirtualServerRoute)

  function ResolveRoute(vs: VirtualServer, r: Route, vsrs: map<string, VirtualServerRoute>, validate: RouteValidator): RouteOutcome {
    if r.route == "" then Skipped
    else
      var key := RouteKey(vs.meta.namespace, r.route);
      if key !in vsrs then Missing(key)
      else match validate(vsrs[key], vs.host, r.path)
        case Some(err) => Invalid(key, err)
        case None => Resolved(vsrs[key])
  }

  datatype RoutesResult = RoutesResult(vsrs: seq<VirtualServerRoute>, warnings: seq<string>)

  function AddRoute(acc: RoutesResult, outcome: RouteOutcome): RoutesResult {
    match outcome
    case Skipped => acc
    case Missing(key) => acc.(warnings := acc.warnings + [MissingRouteWarning(key)])
    case Invalid(key, err) => acc.(warnings := acc.warnings + [InvalidRouteWarning(key, err)])
    case Resolved(vsr) => acc.(vsrs := acc.vsrs + [vsr])
  }

  /** buildVirtualServerRoutes over the first routes of a VirtualServer. */
  function VirtualServerRoutesFor(vs: VirtualServer, routes: seq<Route>, vsrs: map<string, VirtualServerRoute>, validate: RouteValidator): RoutesResult {
    if |routes| == 0 then RoutesResult([], [])
    else AddRoute(VirtualServerRoutesFor(vs, routes[..|routes| - 1], vsrs, validate), ResolveRoute(vs, routes[|routes| - 1], vsrs, validate))
  }

  /** The number of routes that reference a VirtualServerRoute. */
  function References(routes: seq<Route>): nat {
    if |routes| == 0 then 0
    else References(routes[..|routes| - 1]) + (if routes[|routes| - 1].route == "" then 0 else 1)
  }

  lemma {:induction false} RoutesForVsrs(vs: VirtualServer, routes: seq<Route>, vsrs: map<string, VirtualServerRoute>, validate: RouteValidator)
    ensures forall v :: v in VirtualServerRoutesFor(vs, routes, vsrs, validate).vsrs <==>
      exists i :: 0 <= i < |routes| && ResolveRoute(vs, routes[i], vsrs, validate) == Resolved(v)
  {
    if |routes| > 0 {
      var n := |routes| - 1;
      RoutesForVsrs(vs, routes[..n], vsrs, validate);
      assert forall i :: 0 <= i < n ==> routes[..n][i] == routes[i];
      var acc := VirtualServerRoutesFor(vs, routes[..n], vsrs, validate);
      var r := VirtualServerRoutesFor(vs, routes, vsrs, validate);
      forall v | v in r.vsrs
        ensures exists i :: 0 <= i < |routes| && ResolveRoute(vs, routes[i], vsrs, validate) == Resolved(v)
      {
        if v !in acc.vsrs {
          assert ResolveRoute(vs, routes[n], vsrs, validate) == Resolved(v);
        }
      }
    }
  }

  lemma {:induction false} RoutesForMissingWarned(vs: VirtualServer, routes: seq<Route>, vsrs: map<string, VirtualServerRoute>, validate: RouteValidator)
    ensures forall i :: 0 <= i < |routes| && ResolveRoute(vs, routes[i], vsrs, validate).Missing? ==>
      MissingRouteWarning(RouteKey(vs.meta.namespace, routes[i].route)) in VirtualServerRoutesFor(vs, routes, vsrs, validate).warnings
  {
    if |routes| > 0 {
      var n := |routes| - 1;
      RoutesForMissingWarned(vs, routes[..n], vsrs, validate);
      assert forall i :: 0 <= i < n ==> routes[..n][i] == routes[i];
    }
  }

  lemma {:induction false} RoutesForCount(vs: VirtualServer, routes: seq<Route>, vsrs: map<string, VirtualServerRoute>, validate: RouteValidator)
    ensures var r := VirtualServerRoutesFor(vs, routes, vsrs, validate);
      |r.vsrs| + |r.warnings| == References(routes) && forall v :: v in r.vsrs ==> v in vsrs.Values
  {
    if |routes| > 0 {
      RoutesForCount(vs, routes[..|routes| - 1], vsrs, validate);
    }
  }

  /**
    The VirtualServerRoutes of a VirtualServer are exactly the resolved and
    valid references; every reference that is not yields one warning, a
    missing one the "doesn't exist or invalid" warning; routes without a
    reference yield nothing.
   */
  lemma VirtualServerRoutesForProperties(vs: VirtualServer, routes: seq<Route>, vsrs: map<string, VirtualServerRoute>, validate: RouteValidator)
    ensures var r := VirtualServerRoutesFor(vs, routes, vsrs, validate);
      && (forall v :: v in r.vsrs <==> exists i :: 0 <= i < |routes| && ResolveRoute(vs, routes[i], vsrs, validate) == Resolved(v))
      && (forall i :: 0 <= i < |routes| && ResolveRoute(vs, routes[i], vsrs, validate).Missing? ==>
            MissingRouteWarning(RouteKey(vs.meta.namespace, routes[i].route)) in r.warnings)
      && (forall v :: v in r.vsrs ==> v in vsrs.Values)
      && |r.vsrs| + |r.warnings| == References(routes)
  {
    RoutesForVsrs(vs, routes, vsrs, validate);
    RoutesForMissingWarned(vs, routes, vsrs, validate);
    RoutesForCount(vs, routes, vsrs, validate);
  }

  // ---- Listeners of the GlobalConfiguration ----

  /** setGlobalConfigListenerMap: listeners by name, a later listener replacing an earlier one. */
  function ListenerMapOf(listeners: seq<Listener>): map<string, Listener> {
    if |listeners| == 0 then map[]
    else ListenerMapOf(listeners[..|listeners| - 1])[listeners[|listeners| - 1].name := listeners[|listeners| - 1]]
  }

  function GlobalListenerMap(gc: Option<GlobalConfiguration>): map<string, Listener> {
    match gc
    case None => map[]
    case Some(g) => ListenerMapOf(g.listeners)
  }

  lemma {:induction false} ListenerMapOfKeys(listeners: seq<Listener>)
    ensures forall name :: name in ListenerMapOf(listeners) <==> exists i :: 0 <= i < |listeners| && listeners[i].name == name
  {
    if |listeners| > 0 {
      var n := |listeners| - 1;
      ListenerMapOfKeys(listeners[..n]);
      assert forall i :: 0 <= i < n ==> listeners[..n][i] == listeners[i];
    }
  }

  lemma {:induction false} ListenerMapOfValues(listeners: seq<Listener>)
    ensures forall name :: name in ListenerMapOf(listeners) ==>
      ListenerMapOf(listeners)[name].name == name && ListenerMapOf(listeners)[name] in listeners
  {
    if |listeners| > 0 {
      var n := |listeners| - 1;
      ListenerMapOfValues(listeners[..n]);
      assert forall l :: l in listeners[..n] ==> l in listeners;
    }
  }

  lemma {:induction false} ListenerMapOfLast(listeners: seq<Listener>, i: nat)
    requires i < |listeners| && forall j :: i < j < |listeners| ==> listeners[j].name != listeners[i].name
    ensures listeners[i].name in ListenerMapOf(listeners) && ListenerMapOf(listeners)[listeners[i].name] == listeners[i]
  {
    var n := |listeners| - 1;
    if i < n {
      assert listeners[..n][i] == listeners[i];
      assert forall j :: i < j < n ==> listeners[..n][j] == listeners[j];
      ListenerMapOfLast(listeners[..n], i);
    }
  }

  /** Every listener is found by its name, and a name finds the last listener of that name. */
  lemma ListenerMapOfProperties(listeners: seq<Listener>)
    ensures var m := ListenerMapOf(listeners);
      && (forall name :: name in m <==> exists i :: 0 <= i < |listeners| && listeners[i].name == name)
      && (forall name :: name in m ==> m[name].name == name && m[name] in listeners)
      && (forall i :: 0 <= i < |listeners| && (forall j :: i < j < |listeners| ==> listeners[j].name != listeners[i].name) ==>
            listeners[i].name in m && m[listeners[i].name] == listeners[i])
  {
    ListenerMapOfKeys(listeners);
    ListenerMapOfValues(listeners);
    forall i | 0 <= i < |listeners| && (forall j :: i < j < |listeners| ==> listeners[j].name != listeners[i].name)
      ensures listeners[i].name in ListenerMapOf(listeners) && ListenerMapOf(listeners)[listeners[i].name] == listeners[i]
    {
      ListenerMapOfLast(listeners, i);
    }
  }

  /** isListenerInCorrectBlock: false only for a known listener whose SSL setting is not the expected one. */
  predicate IsListenerInCorrectBlock(listenerMap: map<string, Listener>, listenerName: string, expectedSsl: bool) {
    !(listenerName in listenerMap && listenerMap[listenerName].ssl != expectedSsl)
  }

  /** The listener assignListener binds: a known HTTP listener with the requested SSL setting. */
  function HttpListener(listenerMap: map<string, Listener>, listenerName: string, isSsl: bool): Option<Listener> {
    if listenerName in listenerMap && listenerMap[listenerName].protocol == HTTPProtocol && listenerMap[listenerName].ssl == isSsl
    then Some(listenerMap[listenerName])
    else None
  }

  /** buildListenersForVSConfiguration: the ports and addresses of the listeners a VirtualServer names. */
  function BuildListenersForVSConfiguration(vsc: Resource, hasGlobalConfiguration: bool, listenerMap: map<string, Listener>): Resource
    requires vsc.VirtualServerConfiguration?
  {
    var vs := vsc.virtualServer;
    if vs.listener.None? || !hasGlobalConfiguration then vsc
    else
      var withHttp :=
        match HttpListener(listenerMap, vs.listener.value.http, false)
        case None => vsc
        case Some(l) => vsc.(httpPort := l.port, httpIPv4 := l.ipv4, httpIPv6 := l.ipv6);
      match HttpListener(listenerMap, vs.listener.value.https, true)
      case None => withHttp
      case Some(l) => withHttp.(httpsPort := l.port, httpsIPv4 := l.ipv4, httpsIPv6 := l.ipv6)
  }

  /**
    Only the listener ports and addresses change; a plain-HTTP binding comes
    from the non-SSL HTTP listener the VirtualServer names for HTTP, a TLS
    binding from the SSL one it names for HTTPS, and nothing is bound without
    a GlobalConfiguration or without listeners in the VirtualServer.
   */
  lemma BuildListenersForVSConfigurationProperties(vsc: Resource, hasGlobalConfiguration: bool, listenerMap: map<string, Listener>)
    requires vsc.VirtualServerConfiguration?
    ensures var r := BuildListenersForVSConfiguration(vsc, hasGlobalConfiguration, listenerMap);
      && r.VirtualServerConfiguration?
      && r.(httpPort := vsc.httpPort, httpIPv4 := vsc.httpIPv4, httpIPv6 := vsc.httpIPv6,
            httpsPort := vsc.httpsPort, httpsIPv4 := vsc.httpsIPv4, httpsIPv6 := vsc.httpsIPv6) == vsc
      && ((vsc.virtualServer.listener.None? || !hasGlobalConfiguration) ==> r == vsc)
      && ((r.httpPort, r.httpIPv4, r.httpIPv6) != (vsc.httpPort, vsc.httpIPv4, vsc.httpIPv6) ==>
            var name := vsc.virtualServer.listener.value.http;
            && name in listenerMap && listenerMap[name].protocol == HTTPProtocol && !listenerMap[name].ssl
            && (r.httpPort, r.httpIPv4, r.httpIPv6) == (listenerMap[name].port, listenerMap[name].ipv4, listenerMap[name].ipv6))
      && ((r.httpsPort, r.httpsIPv4, r.httpsIPv6) != (vsc.httpsPort, vsc.httpsIPv4, vsc.httpsIPv6) ==>
            var name := vsc.virtualServer.listener.value.https;
            && name in listenerMap && listenerMap[name].protocol == HTTPProtocol && listenerMap[name].ssl
            && (r.httpsPort, r.httpsIPv4, r.httpsIPv6) == (listenerMap[name].port, listenerMap[name].ipv4, listenerMap[name].ipv6))
  {
  }

  /** The first listener with the given name and protocol. */
  function FindListener(listeners: seq<Listener>, name: string, protocol: string): (r: Option<Listener>)
    ensures r.Some? ==> r.value in listeners && r.value.name == name && r.value.protocol == protocol
    ensures r.None? <==> forall l :: l in listeners ==> !(l.name == name && l.protocol == protocol)
  {
    if |listeners| == 0 then None
    else if listeners[0].name == name && listeners[0].protocol == protocol then Some(listeners[0])
    else
      assert forall l :: l in listeners ==> l == listeners[0] || l in listeners[1..];
      FindListener(listeners[1..], name, protocol)
  }

  // ---- Minions of a master Ingress ----

  /** The host of the first rule of an Ingress, which names a master's or minion's host. */
  function FirstRuleHost(ing: Ingress): Option<string> {
    if |ing.rules| == 0 then None else Some(ing.rules[0].host)
  }

  function PathTakenWarning(path: string): string {
    "path " + path + " is taken by another resource"
  }

  /** Appends a warning to the child warnings of an Ingress key. */
  function AppendWarning(warnings: map<string, seq<string>>, key: string, warning: string): map<string, seq<string>> {
    warnings[key := (if key in warnings then warnings[key] else []) + [warning]]
  }

  /**
    The minions built so far, the last of them the one being built, the child
    warnings, and for every path the position of the minion holding it.
   */
  datatype MinionsState = MinionsState(minions: seq<MinionConfiguration>, childWarnings: map<string, seq<string>>, paths: map<string, nat>)

  predicate PathsValid(st: MinionsState) {
    forall p :: p in st.paths ==> st.paths[p] < |st.minions|
  }

  function SetValidPath(m: MinionConfiguration, path: string, valid: bool): MinionConfiguration {
    m.(validPaths := m.validPaths[path := valid])
  }

  /** The last minion claims a path; the minion that loses it gets the warning. */
  function ClaimPath(st: MinionsState, path: string): (r: MinionsState)
    requires |st.minions| > 0 && PathsValid(st)
    ensures |r.minions| == |st.minions| && PathsValid(r)
    ensures forall i :: 0 <= i < |r.minions| ==> r.minions[i].ingress == st.minions[i].ingress
  {
    var me := |st.minions| - 1;
    var current := st.minions[me];
    if path !in st.paths then
      st.(minions := st.minions[me := SetValidPath(current, path, true)], paths := st.paths[path := me])
    else
      var h := st.paths[path];
      var holder := st.minions[h];
      var warning := PathTakenWarning(path);
      if !ChooseObjectMetaWinner(holder.ingress.meta, current.ingress.meta) then
        var taken := st.minions[me := SetValidPath(current, path, true)];
        MinionsState(
          taken[h := SetValidPath(taken[h], path, false)],
          AppendWarning(st.childWarnings, ResourceKey(holder.ingress.meta), warning),
          st.paths[path := me])
      else
        st.(childWarnings := AppendWarning(st.childWarnings, ResourceKey(current.ingress.meta), warning))
  }

  function ClaimPaths(st: MinionsState, paths: seq<string>): (r: MinionsState)
    requires |st.minions| > 0 && PathsValid(st)
    ensures |r.minions| == |st.minions| && PathsValid(r)
    ensures forall i :: 0 <= i < |r.minions| ==> r.minions[i].ingress == st.minions[i].ingress
  {
    if |paths| == 0 then st
    else ClaimPath(ClaimPaths(st, paths[..|paths| - 1]), paths[|paths| - 1])
  }

  /** A minion of the master's host joins with the paths of its first rule. */
  predicate IsMinionOf(ing: Ingress, masterHost: string) {
    IsMinion(ing) && FirstRuleHost(ing) == Some(masterHost)
  }

  function MinionStep(st: MinionsState, ing: Ingress, masterHost: string): (r: MinionsState)
    requires PathsValid(st)
    ensures PathsValid(r)
  {
    if !IsMinionOf(ing, masterHost) then st
    else ClaimPaths(st.(minions := st.minions + [MinionConfiguration(ing, map[])]), ing.rules[0].paths)
  }

  /** buildMinionConfigs over the Ingresses under the given keys, in that order. */
  function MinionsFor(ingresses: map<string, Ingress>, keys: seq<string>, masterHost: string): (r: MinionsState)
    ensures PathsValid(r)
  {
    if |keys| == 0 then MinionsState([], map[], map[])
    else
      var st := MinionsFor(ingresses, keys[..|keys| - 1], masterHost);
      var key := keys[|keys| - 1];
      if key in ingresses then MinionStep(st, ingresses[key], masterHost) else st
  }

  /** buildMinionConfigs: the minions of a master host, in ascending key order, and their warnings. */
  ghost function MinionConfigsFor(ingresses: map<string, Ingress>, masterHost: string): MinionsState {
    MinionsFor(ingresses, SortedStrings(ingresses.Keys), masterHost)
  }

  /**
    A path is held by at most one minion: a minion marks a path valid only
    while it is the path's recorded holder.
   */
  ghost predicate SingleHolders(st: MinionsState) {
    forall i, p :: 0 <= i < |st.minions| && p in st.minions[i].validPaths && st.minions[i].validPaths[p] ==>
      p in st.paths && st.paths[p] == i
  }

  lemma ClaimPathSingleHolders(st: MinionsState, path: string)
    requires |st.minions| > 0 && PathsValid(st) && SingleHolders(st)
    ensures SingleHolders(ClaimPath(st, path))
  {
  }

  lemma {:induction false} ClaimPathsSingleHolders(st: MinionsState, paths: seq<string>)
    requires |st.minions| > 0 && PathsValid(st) && SingleHolders(st)
    ensures SingleHolders(ClaimPaths(st, paths))
  {
    if |paths| > 0 {
      ClaimPathsSingleHolders(st, paths[..|paths| - 1]);
      ClaimPathSingleHolders(ClaimPaths(st, paths[..|paths| - 1]), paths[|paths| - 1]);
    }
  }

  lemma {:induction false} MinionsForSingleHolders(ingresses: map<string, Ingress>, keys: seq<string>, masterHost: string)
    ensures SingleHolders(MinionsFor(ingresses, keys, masterHost))
  {
    if |keys| > 0 {
      var st := MinionsFor(ingresses, keys[..|keys| - 1], masterHost);
      MinionsForSingleHolders(ingresses, keys[..|keys| - 1], masterHost);
      var key := keys[|keys| - 1];
      if key in ingresses && IsMinionOf(ingresses[key], masterHost) {
        var st1 := st.(minions := st.minions + [MinionConfiguration(ingresses[key], map[])]);
        assert SingleHolders(st1);
        ClaimPathsSingleHolders(st1, ingresses[key].rules[0].paths);
      }
    }
  }

  /** Every minion built is a stored minion of the master host. */
  ghost predicate MinionsOf(st: MinionsState, ingresses: map<string, Ingress>, masterHost: string) {
    forall i :: 0 <= i < |st.minions| ==> IsMinionOf(st.minions[i].ingress, masterHost) && st.minions[i].ingress in ingresses.Values
  }

  lemma {:induction false} MinionsForMinions(ingresses: map<string, Ingress>, keys: seq<string>, masterHost: string)
    ensures MinionsOf(MinionsFor(ingresses, keys, masterHost), ingresses, masterHost)
  {
    if |keys| > 0 {
      var st := MinionsFor(ingresses, keys[..|keys| - 1], masterHost);
      MinionsForMinions(ingresses, keys[..|keys| - 1], masterHost);
      var key := keys[|keys| - 1];
      if key in ingresses && IsMinionOf(ingresses[key], masterHost) {
        var st1 := st.(minions := st.minions + [MinionConfiguration(ingresses[key], map[])]);
        assert ingresses[key] in ingresses.Values;
        assert MinionsOf(st1, ingresses, masterHost);
      }
    }
  }

  /**
    buildMinionConfigs yields only stored minions of the master host, and at
    most one of them holds any path.
   */
  lemma MinionsForProperties(ingresses: map<string, Ingress>, keys: seq<string>, masterHost: string)
    ensures var r := MinionsFor(ingresses, keys, masterHost);
      && MinionsOf(r, ingresses, masterHost)
      && (forall i, j, p :: 0 <= i < j < |r.minions| && p in r.minions[i].validPaths && p in r.minions[j].validPaths ==>
            !(r.minions[i].validPaths[p] && r.minions[j].validPaths[p]))
  {
    MinionsForSingleHolders(ingresses, keys, masterHost);
    MinionsForMinions(ingresses, keys, masterHost);
    var r := MinionsFor(ingresses, keys, masterHost);
    forall i, j, p | 0 <= i < j < |r.minions| && p in r.minions[i].validPaths && p in r.minions[j].validPaths
      ensures !(r.minions[i].validPaths[p] && r.minions[j].validPaths[p])
    {
      assert r.minions[i].validPaths[p] ==> r.paths[p] == i;
      assert r.minions[j].validPaths[p] ==> r.paths[p] == j;
    }
  }

  // ---- Holders of hosts ----

  function HostTakenWarning(host: string): string {
    "host " + host + " is taken by another resource"
  }

  /** The stored keys are the "namespace/name" keys of the stored objects. */
  ghost predicate KeysMatch(st: Store) {
    && (forall k :: k in st.ingresses ==> ResourceKey(st.ingresses[k].meta) == k)
    && (forall k :: k in st.virtualServers ==> ResourceKey(st.virtualServers[k].meta) == k)
    && (forall k :: k in st.virtualServerRoutes ==> ResourceKey(st.virtualServerRoutes[k].meta) == k)
    && (forall k :: k in st.transportServers ==> ResourceKey(st.transportServers[k].meta) == k)
  }

  function Register<P>(s: Holding<P>, r: Resource): (t: Holding<P>)
    requires Consistent(s)
    ensures Consistent(t) && t.resources.Keys == s.resources.Keys + {r.GetKeyWithKind()}
  {
    s.(resources := s.resources[r.GetKeyWithKind() := r])
  }

  /** The configuration under `key` claims the hosts one after another. */
  function ClaimHosts(s: Holding<string>, hosts: seq<string>, key: string): (r: Holding<string>)
    requires Consistent(s) && key in s.resources
    ensures Consistent(r) && r.resources.Keys == s.resources.Keys
  {
    if |hosts| == 0 then s
    else
      var host := hosts[|hosts| - 1];
      Claim(ClaimHosts(s, hosts[..|hosts| - 1], key), host, key, HostTakenWarning(host))
  }

  function RuleHosts(ing: Ingress): seq<string> {
    seq(|ing.rules|, i requires 0 <= i < |ing.rules| => ing.rules[i].host)
  }

  /** The configuration of a regular or master Ingress; a master collects the minions of its first host. */
  ghost function IngressResource(ingresses: map<string, Ingress>, ing: Ingress): (r: Resource)
    ensures r.IngressConfiguration? && r.ingress == ing
  {
    if IsMaster(ing) then
      match FirstRuleHost(ing)
      case None => NewMasterIngressConfiguration(ing, [], map[])
      case Some(host) =>
        var m := MinionConfigsFor(ingresses, host);
        NewMasterIngressConfiguration(ing, m.minions, m.childWarnings)
    else NewRegularIngressConfiguration(ing)
  }

  ghost function IngressStep(s: Holding<string>, ingresses: map<string, Ingress>, ing: Ingress): (r: Holding<string>)
    requires Consistent(s)
    ensures Consistent(r)
  {
    if IsMinion(ing) then s
    else
      var resource := IngressResource(ingresses, ing);
      ClaimHosts(Register(s, resource), RuleHosts(ing), resource.GetKeyWithKind())
  }

  /** Step 1 of buildHostsAndResources over the Ingresses under the given keys. */
  ghost function IngressPhase(s: Holding<string>, ingresses: map<string, Ingress>, keys: seq<string>): (r: Holding<string>)
    requires Consistent(s)
    ensures Consistent(r)
  {
    if |keys| == 0 then s
    else
      var prev := IngressPhase(s, ingresses, keys[..|keys| - 1]);
      var key := keys[|keys| - 1];
      if key in ingresses then IngressStep(prev, ingresses, ingresses[key]) else prev
  }

  /** The VirtualServer configuration: its routes, their warnings and its listeners. */
  function VirtualServerResource(st: Store, validate: RouteValidator, vs: VirtualServer): (r: Resource)
    ensures r.VirtualServerConfiguration? && r.virtualServer == vs
  {
    var routes := VirtualServerRoutesFor(vs, vs.routes, st.virtualServerRoutes, validate);
    BuildListenersForVSConfiguration(
      NewVirtualServerConfiguration(vs, routes.vsrs, routes.warnings),
      st.globalConfiguration.Some?, st.listenerMap)
  }

  function VirtualServerStep(s: Holding<string>, st: Store, validate: RouteValidator, vs: VirtualServer): (r: Holding<string>)
    requires Consistent(s)
    ensures Consistent(r)
  {
    var resource := VirtualServerResource(st, validate, vs);
    Claim(Register(s, resource), vs.host, resource.GetKeyWithKind(), HostTakenWarning(vs.host))
  }

  /** Step 2 of buildHostsAndResources over the VirtualServers under the given keys. */
  function VirtualServerPhase(s: Holding<string>, st: Store, validate: RouteValidator, keys: seq<string>): (r: Holding<string>)
    requires Consistent(s)
    ensures Consistent(r)
  {
    if |keys| == 0 then s
    else
      var prev := VirtualServerPhase(s, st, validate, keys[..|keys| - 1]);
      var key := keys[|keys| - 1];
      if key in st.virtualServers then VirtualServerStep(prev, st, validate, st.virtualServers[key]) else prev
  }

  /** A TransportServer for TLS Passthrough names the tls-passthrough listener or protocol. */
  predicate IsTLSPassthrough(ts: TransportServer) {
    ts.listener.name == TLSPassthroughListenerName || ts.listener.protocol == TLSPassthroughListenerProtocol
  }

  function TransportServerStep(s: Holding<string>, ts: TransportServer): (r: Holding<string>)
    requires Consistent(s)
    ensures Consistent(r)
  {
    if !IsTLSPassthrough(ts) then s
    else
      var resource := NewTransportServerConfiguration(ts);
      Claim(Register(s, resource), ts.host, resource.GetKeyWithKind(), HostTakenWarning(ts.host))
  }

  /** Step 3 of buildHostsAndResources over the TransportServers under the given keys. */
  function TransportServerPhase(s: Holding<string>, transportServers: map<string, TransportServer>, keys: seq<string>): (r: Holding<string>)
    requires Consistent(s)
    ensures Consistent(r)
  {
    if |keys| == 0 then s
    else
      var prev := TransportServerPhase(s, transportServers, keys[..|keys| - 1]);
      var key := keys[|keys| - 1];
      if key in transportServers then TransportServerStep(prev, transportServers[key]) else prev
  }

  /**
    buildHostsAndResources: the configurations by key with kind, and the
    holder of every host, from Ingresses, then VirtualServers, then (with
    TLS Passthrough) TransportServers, each in ascending key order.
   */
  ghost function HostsAndResources(st: Store, tlsPassthrough: bool, validate: RouteValidator): (r: Holding<string>)
    ensures Consistent(r)
  {
    var s1 := IngressPhase(Holding(map[], map[]), st.ingresses, SortedStrings(st.ingresses.Keys));
    var s2 := VirtualServerPhase(s1, st, validate, SortedStrings(st.virtualServers.Keys));
    if tlsPassthrough then TransportServerPhase(s2, st.transportServers, SortedStrings(st.transportServers.Keys)) else s2
  }

  // ---- Who claims which host ----

  function ClaimantsOf(hosts: seq<string>, key: string): seq<Claimant<string>> {
    seq(|hosts|, i requires 0 <= i < |hosts| => Claimant(hosts[i], key))
  }

  function IngressClaims(ingresses: map<string, Ingress>, keys: seq<string>): seq<Claimant<string>> {
    if |keys| == 0 then []
    else
      var key := keys[|keys| - 1];
      IngressClaims(ingresses, keys[..|keys| - 1]) +
      (if key in ingresses && !IsMinion(ingresses[key])
       then ClaimantsOf(RuleHosts(ingresses[key]), ResourceKeyWithKind(IngressKind, ingresses[key].meta))
       else [])
  }

  function VirtualServerClaims(virtualServers: map<string, VirtualServer>, keys: seq<string>): seq<Claimant<string>> {
    if |keys| == 0 then []
    else
      var key := keys[|keys| - 1];
      VirtualServerClaims(virtualServers, keys[..|keys| - 1]) +
      (if key in virtualServers
       then [Claimant(virtualServers[key].host, ResourceKeyWithKind(VirtualServerKind, virtualServers[key].meta))]
       else [])
  }

  function TransportServerClaims(transportServers: map<string, TransportServer>, keys: seq<string>): seq<Claimant<string>> {
    if |keys| == 0 then []
    else
      var key := keys[|keys| - 1];
      TransportServerClaims(transportServers, keys[..|keys| - 1]) +
      (if key in transportServers && IsTLSPassthrough(transportServers[key])
       then [Claimant(transportServers[key].host, ResourceKeyWithKind(TransportServerKind, transportServers[key].meta))]
       else [])
  }

  /**
    Every claim on a host: each rule host of a regular or master Ingress, the
    host of each VirtualServer, and with TLS Passthrough the host of each
    TLS Passthrough TransportServer, by the configuration's key with kind.
   */
  ghost function HostClaims(st: Store, tlsPassthrough: bool): seq<Claimant<string>> {
    IngressClaims(st.ingresses, SortedStrings(st.ingresses.Keys))
    + VirtualServerClaims(st.virtualServers, SortedStrings(st.virtualServers.Keys))
    + (if tlsPassthrough then TransportServerClaims(st.transportServers, SortedStrings(st.transportServers.Keys)) else [])
  }

  // ---- Arbitration of hosts ----

  lemma ClaimantsOfPrefix(claims: seq<Claimant<string>>, hosts: seq<string>, key: string)
    requires |hosts| > 0
    ensures claims + ClaimantsOf(hosts, key) == claims + ClaimantsOf(hosts[..|hosts| - 1], key) + [Claimant(hosts[|hosts| - 1], key)]
  {
    assert ClaimantsOf(hosts, key) == ClaimantsOf(hosts[..|hosts| - 1], key) + [Claimant(hosts[|hosts| - 1], key)];
  }

  lemma {:induction false} ClaimHostsArbitrated(s: Holding<string>, claims: seq<Claimant<string>>, hosts: seq<string>, key: string)
    requires Arbitrated(s, claims, HostTakenWarning) && key in s.resources
    ensures Arbitrated(ClaimHosts(s, hosts, key), claims + ClaimantsOf(hosts, key), HostTakenWarning)
  {
    if |hosts| == 0 {
      assert claims + ClaimantsOf(hosts, key) == claims;
    } else {
      var n := |hosts| - 1;
      ClaimHostsArbitrated(s, claims, hosts[..n], key);
      ClaimArbitrated(ClaimHosts(s, hosts[..n], key), claims + ClaimantsOf(hosts[..n], key), HostTakenWarning, hosts[n], key);
      ClaimantsOfPrefix(claims, hosts, key);
    }
  }

  /** The keys with kind of the objects stored under the given keys. */
  ghost function KindedKeys(kind: string, keys: seq<string>): set<string> {
    set k | k in keys :: kind + "/" + k
  }

  lemma KeyWithKindOfStoreKey(kind: string, meta: ObjectMeta, key: string)
    requires ResourceKey(meta) == key
    ensures ResourceKeyWithKind(kind, meta) == kind + "/" + key
  {
    ResourceKeyWithKindText(kind, meta);
    assert kind + "/" + meta.namespace + "/" + meta.name == kind + "/" + (meta.namespace + "/" + meta.name);
  }

  lemma FreshKindedKey(kind: string, keys: seq<string>, key: string)
    requires key !in keys
    ensures kind + "/" + key !in KindedKeys(kind, keys)
  {
    forall k | k in keys ensures kind + "/" + k != kind + "/" + key {
      assert (kind + "/" + k)[|kind| + 1..] == k;
      assert (kind + "/" + key)[|kind| + 1..] == key;
    }
  }

  /** Keys of kinds with different initials never meet. */
  lemma KindsApart(kind1: string, kind2: string, keys1: seq<string>, keys2: seq<string>)
    requires |kind1| > 0 && |kind2| > 0 && kind1[0] != kind2[0]
    ensures KindedKeys(kind1, keys1) !! KindedKeys(kind2, keys2)
  {
    forall k1, k2 | k1 in keys1 && k2 in keys2 ensures kind1 + "/" + k1 != kind2 + "/" + k2 {
      assert (kind1 + "/" + k1)[0] == kind1[0];
      assert (kind2 + "/" + k2)[0] == kind2[0];
    }
  }

  lemma KindedKeysPrefix(kind: string, keys: seq<string>)
    requires |keys| > 0
    ensures KindedKeys(kind, keys) == KindedKeys(kind, keys[..|keys| - 1]) + {kind + "/" + keys[|keys| - 1]}
  {
    assert forall k :: k in keys <==> k in keys[..|keys| - 1] || k == keys[|keys| - 1];
  }

  lemma DistinctPrefix<K>(keys: seq<K>)
    requires Distinct(keys) && |keys| > 0
    ensures Distinct(keys[..|keys| - 1]) && keys[|keys| - 1] !in keys[..|keys| - 1]
  {
  }

  lemma {:induction false} IngressPhaseArbitrated(s0: Holding<string>, claims0: seq<Claimant<string>>, ingresses: map<string, Ingress>, keys: seq<string>)
    requires Arbitrated(s0, claims0, HostTakenWarning)
    requires forall k :: k in ingresses ==> ResourceKey(ingresses[k].meta) == k
    requires Distinct(keys) && s0.resources.Keys !! KindedKeys(IngressKind, keys)
    ensures Arbitrated(IngressPhase(s0, ingresses, keys), claims0 + IngressClaims(ingresses, keys), HostTakenWarning)
    ensures IngressPhase(s0, ingresses, keys).resources.Keys <= s0.resources.Keys + KindedKeys(IngressKind, keys)
  {
    if |keys| == 0 {
      assert claims0 + IngressClaims(ingresses, keys) == claims0;
    } else {
      var n := |keys| - 1;
      DistinctPrefix(keys);
      KindedKeysPrefix(IngressKind, keys);
      IngressPhaseArbitrated(s0, claims0, ingresses, keys[..n]);
      var prev := IngressPhase(s0, ingresses, keys[..n]);
      var claims := claims0 + IngressClaims(ingresses, keys[..n]);
      var key := keys[n];
      if key in ingresses && !IsMinion(ingresses[key]) {
        var ing := ingresses[key];
        var resource := IngressResource(ingresses, ing);
        KeyWithKindOfStoreKey(IngressKind, ing.meta, key);
        assert resource.GetKeyWithKind() == IngressKind + "/" + key;
        FreshKindedKey(IngressKind, keys[..n], key);
        RegisterArbitrated(prev, claims, HostTakenWarning, resource.GetKeyWithKind(), resource);
        ClaimHostsArbitrated(Register(prev, resource), claims, RuleHosts(ing), resource.GetKeyWithKind());
        assert claims0 + IngressClaims(ingresses, keys) == claims + ClaimantsOf(RuleHosts(ing), resource.GetKeyWithKind());
      } else {
        assert claims0 + IngressClaims(ingresses, keys) == claims;
      }
    }
  }

  lemma {:induction false} VirtualServerPhaseArbitrated(s0: Holding<string>, claims0: seq<Claimant<string>>, st: Store, validate: RouteValidator, keys: seq<string>)
    requires Arbitrated(s0, claims0, HostTakenWarning)
    requires forall k :: k in st.virtualServers ==> ResourceKey(st.virtualServers[k].meta) == k
    requires Distinct(keys) && s0.resources.Keys !! KindedKeys(VirtualServerKind, keys)
    ensures Arbitrated(VirtualServerPhase(s0, st, validate, keys), claims0 + VirtualServerClaims(st.virtualServers, keys), HostTakenWarning)
    ensures VirtualServerPhase(s0, st, validate, keys).resources.Keys <= s0.resources.Keys + KindedKeys(VirtualServerKind, keys)
  {
    if |keys| == 0 {
      assert claims0 + VirtualServerClaims(st.virtualServers, keys) == claims0;
    } else {
      var n := |keys| - 1;
      DistinctPrefix(keys);
      KindedKeysPrefix(VirtualServerKind, keys);
      VirtualServerPhaseArbitrated(s0, claims0, st, validate, keys[..n]);
      var prev := VirtualServerPhase(s0, st, validate, keys[..n]);
      var claims := claims0 + VirtualServerClaims(st.virtualServers, keys[..n]);
      var key := keys[n];
      if key in st.virtualServers {
        var vs := st.virtualServers[key];
        var resource := VirtualServerResource(st, validate, vs);
        KeyWithKindOfStoreKey(VirtualServerKind, vs.meta, key);
        assert resource.GetKeyWithKind() == VirtualServerKind + "/" + key;
        FreshKindedKey(VirtualServerKind, keys[..n], key);
        RegisterArbitrated(prev, claims, HostTakenWarning, resource.GetKeyWithKind(), resource);
        ClaimArbitrated(Register(prev, resource), claims, HostTakenWarning, vs.host, resource.GetKeyWithKind());
      } else {
        assert claims0 + VirtualServerClaims(st.virtualServers, keys) == claims;
      }
    }
  }

  lemma {:induction false} TransportServerPhaseArbitrated(s0: Holding<string>, claims0: seq<Claimant<string>>, transportServers: map<string, TransportServer>, keys: seq<string>)
    requires Arbitrated(s0, claims0, HostTakenWarning)
    requires forall k :: k in transportServers ==> ResourceKey(transportServers[k].meta) == k
    requires Distinct(keys) && s0.resources.Keys !! KindedKeys(TransportServerKind, keys)
    ensures Arbitrated(TransportServerPhase(s0, transportServers, keys), claims0 + TransportServerClaims(transportServers, keys), HostTakenWarning)
    ensures TransportServerPhase(s0, transportServers, keys).resources.Keys <= s0.resources.Keys + KindedKeys(TransportServerKind, keys)
  {
    if |keys| == 0 {
      assert claims0 + TransportServerClaims(transportServers, keys) == claims0;
    } else {
      var n := |keys| - 1;
      DistinctPrefix(keys);
      KindedKeysPrefix(TransportServerKind, keys);
      TransportServerPhaseArbitrated(s0, claims0, transportServers, keys[..n]);
      var prev := TransportServerPhase(s0, transportServers, keys[..n]);
      var claims := claims0 + TransportServerClaims(transportServers, keys[..n]);
      var key := keys[n];
      if key in transportServers && IsTLSPassthrough(transportServers[key]) {
        var ts := transportServers[key];
        var resource := NewTransportServerConfiguration(ts);
        KeyWithKindOfStoreKey(TransportServerKind, ts.meta, key);
        assert resource.GetKeyWithKind() == TransportServerKind + "/" + key;
        FreshKindedKey(TransportServerKind, keys[..n], key);
        RegisterArbitrated(prev, claims, HostTakenWarning, resource.GetKeyWithKind(), resource);
        ClaimArbitrated(Register(prev, resource), claims, HostTakenWarning, ts.host, resource.GetKeyWithKind());
      } else {
        assert claims0 + TransportServerClaims(transportServers, keys) == claims;
      }
    }
  }

  /** The hosts after steps 1 and 2 of buildHostsAndResources. */
  ghost function IngressAndVirtualServerHosts(st: Store, validate: RouteValidator): (r: Holding<string>)
    ensures Consistent(r)
  {
    var s1 := IngressPhase(Holding(map[], map[]), st.ingresses, SortedStrings(st.ingresses.Keys));
    VirtualServerPhase(s1, st, validate, SortedStrings(st.virtualServers.Keys))
  }

  lemma IngressAndVirtualServerArbitrated(st: Store, validate: RouteValidator)
    requires KeysMatch(st)
    ensures var s2 := IngressAndVirtualServerHosts(st, validate);
      && Arbitrated(s2, IngressClaims(st.ingresses, SortedStrings(st.ingresses.Keys))
                      + VirtualServerClaims(st.virtualServers, SortedStrings(st.virtualServers.Keys)), HostTakenWarning)
      && s2.resources.Keys <= KindedKeys(IngressKind, SortedStrings(st.ingresses.Keys)) + KindedKeys(VirtualServerKind, SortedStrings(st.virtualServers.Keys))
  {
    var ik := SortedStrings(st.ingresses.Keys);
    var vk := SortedStrings(st.virtualServers.Keys);
    SortedStringsEnumerates(st.ingresses.Keys);
    SortedStringsEnumerates(st.virtualServers.Keys);
    SortedStringsDistinct(ik);
    SortedStringsDistinct(vk);
    var s0: Holding<string> := Holding(map[], map[]);
    var ic := IngressClaims(st.ingresses, ik);
    IngressPhaseArbitrated(s0, [], st.ingresses, ik);
    assert [] + ic == ic;
    KindsApart(IngressKind, VirtualServerKind, ik, vk);
    VirtualServerPhaseArbitrated(IngressPhase(s0, st.ingresses, ik), ic, st, validate, vk);
  }

  lemma HostsAndResourcesArbitrated(st: Store, tlsPassthrough: bool, validate: RouteValidator)
    requires KeysMatch(st)
    ensures Arbitrated(HostsAndResources(st, tlsPassthrough, validate), HostClaims(st, tlsPassthrough), HostTakenWarning)
  {
    var ik := SortedStrings(st.ingresses.Keys);
    var vk := SortedStrings(st.virtualServers.Keys);
    var tk := SortedStrings(st.transportServers.Keys);
    var claims := IngressClaims(st.ingresses, ik) + VirtualServerClaims(st.virtualServers, vk);
    IngressAndVirtualServerArbitrated(st, validate);
    var s2 := IngressAndVirtualServerHosts(st, validate);
    assert HostsAndResources(st, tlsPassthrough, validate) == if tlsPassthrough then TransportServerPhase(s2, st.transportServers, tk) else s2;
    if tlsPassthrough {
      SortedStringsEnumerates(st.transportServers.Keys);
      SortedStringsDistinct(tk);
      KindsApart(IngressKind, TransportServerKind, ik, tk);
      KindsApart(VirtualServerKind, TransportServerKind, vk, tk);
      TransportServerPhaseArbitrated(s2, claims, st.transportServers, tk);
    } else {
      assert claims + [] == claims;
    }
  }

  /**
    After buildHostsAndResources every claimed host has a holder; no claimant
    wins over the holder of the host it claimed, and with distinct UIDs the
    holder wins over every other claimant; every other claimant carries the
    warning "host H is taken by another resource"; and every holder claimed
    its host.
   */
  lemma BuildHostsAndResourcesProperties(st: Store, tlsPassthrough: bool, validate: RouteValidator)
    requires KeysMatch(st)
    ensures var s := HostsAndResources(st, tlsPassthrough, validate);
      var hosts := Places(s);
      var claims := HostClaims(st, tlsPassthrough);
      && (forall c :: c in claims ==> c.place in hosts && c.key in s.resources && !s.resources[c.key].Wins(hosts[c.place]))
      && (forall c :: c in claims && s.holders[c.place] != c.key ==>
            && HostTakenWarning(c.place) in s.resources[c.key].warnings
            && (s.resources[c.key].ObjectMeta().uid != hosts[c.place].ObjectMeta().uid ==> hosts[c.place].Wins(s.resources[c.key])))
      && (forall h :: h in hosts ==> Claimant(h, s.holders[h]) in claims)
  {
    var s := HostsAndResources(st, tlsPassthrough, validate);
    var claims := HostClaims(st, tlsPassthrough);
    HostsAndResourcesArbitrated(st, tlsPassthrough, validate);
    forall c | c in claims && s.holders[c.place] != c.key && s.resources[c.key].ObjectMeta().uid != Places(s)[c.place].ObjectMeta().uid
      ensures Places(s)[c.place].Wins(s.resources[c.key])
    {
      HolderWins(s, claims, HostTakenWarning, c);
    }
  }

  // ---- Holders of listener-host pairs ----

  function ListenerTakenWarning(key: ListenerHostKey): string {
    "listener " + key.listenerName + " and host " + key.host + " are taken by another resource"
  }

  /** The configuration of a TransportServer bound to the port and addresses of a listener. */
  function BoundTransportServerConfiguration(ts: TransportServer, l: Listener): Resource {
    TransportServerConfiguration(l.port, l.ipv4, l.ipv6, ts, [])
  }

  /**
    A TransportServer not for TLS Passthrough gets a configuration under its
    stored key; when the GlobalConfiguration has a listener of its listener's
    name and protocol, it takes that listener's port and addresses and
    claims the listener with its host.
   */
  function ListenerStep(s: Holding<ListenerHostKey>, gc: Option<GlobalConfiguration>, key: string, ts: TransportServer): (r: Holding<ListenerHostKey>)
    requires Consistent(s)
    ensures Consistent(r)
  {
    if ts.listener.protocol == TLSPassthroughListenerProtocol then s
    else
      var tsc := NewTransportServerConfiguration(ts);
      if gc.None? then s.(resources := s.resources[key := tsc])
      else match FindListener(gc.value.listeners, ts.listener.name, ts.listener.protocol)
        case None => s.(resources := s.resources[key := tsc])
        case Some(l) =>
          var bound := BoundTransportServerConfiguration(ts, l);
          var place := ListenerHostKey(l.name, ts.host);
          Claim(s.(resources := s.resources[key := bound]), place, key, ListenerTakenWarning(place))
  }

  function ListenerPhase(s: Holding<ListenerHostKey>, transportServers: map<string, TransportServer>, gc: Option<GlobalConfiguration>, keys: seq<string>): (r: Holding<ListenerHostKey>)
    requires Consistent(s)
    ensures Consistent(r)
  {
    if |keys| == 0 then s
    else
      var prev := ListenerPhase(s, transportServers, gc, keys[..|keys| - 1]);
      var key := keys[|keys| - 1];
      if key in transportServers then ListenerStep(prev, gc, key, transportServers[key]) else prev
  }

  /**
    buildListenerHostsAndTSConfigurations: the TransportServer configurations
    by stored key, and the holder of every listener-host pair, visiting the
    TransportServers in ascending key order.
   */
  ghost function ListenerHostsAndTSConfigurations(transportServers: map<string, TransportServer>, gc: Option<GlobalConfiguration>): (r: Holding<ListenerHostKey>)
    ensures Consistent(r)
  {
    ListenerPhase(Holding(map[], map[]), transportServers, gc, SortedStrings(transportServers.Keys))
  }

  /** The claim a TransportServer makes on a listener-host pair, if any. */
  function ListenerClaim(gc: Option<GlobalConfiguration>, key: string, ts: TransportServer): seq<Claimant<ListenerHostKey>> {
    if ts.listener.protocol == TLSPassthroughListenerProtocol || gc.None? then []
    else match FindListener(gc.value.listeners, ts.listener.name, ts.listener.protocol)
      case None => []
      case Some(l) => [Claimant(ListenerHostKey(l.name, ts.host), key)]
  }

  function ListenerClaims(transportServers: map<string, TransportServer>, gc: Option<GlobalConfiguration>, keys: seq<string>): seq<Claimant<ListenerHostKey>> {
    if |keys| == 0 then []
    else
      var key := keys[|keys| - 1];
      ListenerClaims(transportServers, gc, keys[..|keys| - 1]) +
      (if key in transportServers then ListenerClaim(gc, key, transportServers[key]) else [])
  }

  lemma ListenerStepArbitrated(s: Holding<ListenerHostKey>, claims: seq<Claimant<ListenerHostKey>>, gc: Option<GlobalConfiguration>, key: string, ts: TransportServer)
    requires Arbitrated(s, claims, ListenerTakenWarning) && key !in s.resources
    ensures Arbitrated(ListenerStep(s, gc, key, ts), claims + ListenerClaim(gc, key, ts), ListenerTakenWarning)
    ensures ListenerStep(s, gc, key, ts).resources.Keys <= s.resources.Keys + {key}
  {
    if ts.listener.protocol == TLSPassthroughListenerProtocol || gc.None? {
      assert claims + ListenerClaim(gc, key, ts) == claims;
    } else {
      match FindListener(gc.value.listeners, ts.listener.name, ts.listener.protocol)
      case None =>
        assert claims + ListenerClaim(gc, key, ts) == claims;
      case Some(l) =>
        var bound := BoundTransportServerConfiguration(ts, l);
        RegisterArbitrated(s, claims, ListenerTakenWarning, key, bound);
        ClaimArbitrated(s.(resources := s.resources[key := bound]), claims, ListenerTakenWarning, ListenerHostKey(l.name, ts.host), key);
    }
  }

  lemma {:induction false} ListenerPhaseArbitrated(s0: Holding<ListenerHostKey>, claims0: seq<Claimant<ListenerHostKey>>, transportServers: map<string, TransportServer>, gc: Option<GlobalConfiguration>, keys: seq<string>)
    requires Arbitrated(s0, claims0, ListenerTakenWarning)
    requires Distinct(keys) && forall k :: k in keys ==> k !in s0.resources
    ensures Arbitrated(ListenerPhase(s0, transportServers, gc, keys), claims0 + ListenerClaims(transportServers, gc, keys), ListenerTakenWarning)
    ensures forall k :: k in ListenerPhase(s0, transportServers, gc, keys).resources ==> k in s0.resources || k in keys
  {
    if |keys| == 0 {
      assert claims0 + ListenerClaims(transportServers, gc, keys) == claims0;
    } else {
      var n := |keys| - 1;
      DistinctPrefix(keys);
      ListenerPhaseArbitrated(s0, claims0, transportServers, gc, keys[..n]);
      var claims := claims0 + ListenerClaims(transportServers, gc, keys[..n]);
      var key := keys[n];
      if key in transportServers {
        ListenerStepArbitrated(ListenerPhase(s0, transportServers, gc, keys[..n]), claims, gc, key, transportServers[key]);
        assert claims0 + ListenerClaims(transportServers, gc, keys) == claims + ListenerClaim(gc, key, transportServers[key]);
      } else {
        assert claims0 + ListenerClaims(transportServers, gc, keys) == claims;
      }
    }
  }

  /**
    After buildListenerHostsAndTSConfigurations no claimant wins over the
    holder of the listener-host pair it claimed, and with distinct UIDs the
    holder wins over every other claimant; every other claimant carries the
    warning "listener L and host H are taken by another resource"; and every
    holder claimed its pair.
   */
  lemma BuildListenerHostsProperties(transportServers: map<string, TransportServer>, gc: Option<GlobalConfiguration>)
    ensures var s := ListenerHostsAndTSConfigurations(transportServers, gc);
      var listenerHosts := Places(s);
      var claims := ListenerClaims(transportServers, gc, SortedStrings(transportServers.Keys));
      && (forall c :: c in claims ==> c.place in listenerHosts && c.key in s.resources && !s.resources[c.key].Wins(listenerHosts[c.place]))
      && (forall c :: c in claims && s.holders[c.place] != c.key ==>
            && ListenerTakenWarning(c.place) in s.resources[c.key].warnings
            && (s.resources[c.key].ObjectMeta().uid != listenerHosts[c.place].ObjectMeta().uid ==> listenerHosts[c.place].Wins(s.resources[c.key])))
      && (forall p :: p in listenerHosts ==> Claimant(p, s.holders[p]) in claims)
  {
    var keys := SortedStrings(transportServers.Keys);
    SortedStringsEnumerates(transportServers.Keys);
    SortedStringsDistinct(keys);
    var s0: Holding<ListenerHostKey> := Holding(map[], map[]);
    ListenerPhaseArbitrated(s0, [], transportServers, gc, keys);
    assert [] + ListenerClaims(transportServers, gc, keys) == ListenerClaims(transportServers, gc, keys);
    var s := ListenerHostsAndTSConfigurations(transportServers, gc);
    var claims := ListenerClaims(transportServers, gc, keys);
    forall c | c in claims && s.holders[c.place] != c.key && s.resources[c.key].ObjectMeta().uid != Places(s)[c.place].ObjectMeta().uid
      ensures Places(s)[c.place].Wins(s.resources[c.key])
    {
      HolderWins(s, claims, ListenerTakenWarning, c);
    }
  }
}
